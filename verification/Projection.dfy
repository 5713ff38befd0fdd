/** The read models: inbox deduplication and a version-guarded merge into one document per
    order and one per dispatch. */
module Projection {
  import opened Contracts
  import opened Sequences
  import opened OrderAggregate
  import opened DispatchAggregate
  import opened AggregateStore

  datatype ReadModel = ReadModel(
    orders: map<string, OrderView>,
    dispatches: map<string, DispatchView>,
    inbox: set<string>)

  const EMPTY_MODEL := ReadModel(map[], map[], {})

  function UpsertOrder(orders: map<string, OrderView>, env: Envelope): map<string, OrderView> {
    var id := DocId(env.tenantId, env.payload.orderId);
    match env.payload
    case OrderPlaced(orderId, customerId, items, totalAmount) =>
      if id !in orders || orders[id].version < env.version then
        orders[id := OrderView(env.tenantId, orderId, customerId, items, totalAmount, PLACED, env.version,
                               env.occurredAt, if id in orders then orders[id].cancelReason else None)]
      else orders
    case OrderAccepted(_) =>
      if id in orders && orders[id].version < env.version then
        orders[id := orders[id].(status := ACCEPTED, version := env.version, updatedAt := env.occurredAt)]
      else orders
    case OrderCancelled(_, reason) =>
      if id in orders && orders[id].version < env.version then
        var doc := orders[id].(status := CANCELLED, version := env.version, updatedAt := env.occurredAt);
        orders[id := if reason.Some? then doc.(cancelReason := reason) else doc]
      else orders
    case _ => orders
  }

  /** The fields the event sets, over whatever the document already holds. */
  function MergeDispatch(existing: Option<DispatchView>, env: Envelope, timeoutSeconds: nat): Option<DispatchView> {
    var orderId := env.payload.orderId;
    var base := if existing.Some?
      then existing.value.(tenantId := env.tenantId, orderId := orderId, version := env.version,
                           updatedAt := env.occurredAt)
      else DispatchView(env.tenantId, orderId, OFFERED, None, None, None, env.version, env.occurredAt, None);
    match env.payload
    case DriverOffered(_, d) =>
      Some(base.(status := OFFERED, offeredDriverId := Some(d),
                 offerExpiresAt := Some(env.occurredAt + timeoutSeconds * 1000)))
    case DispatchAccepted(_, d) => Some(base.(status := DISPATCHED, driverId := Some(d)))
    case OrderPickedUp(_) => Some(base.(status := PICKED_UP))
    case OrderDelivered(_) => Some(base.(status := DELIVERED))
    case DispatchFailed(_, reason) => Some(base.(status := FAILED, reason := Some(reason)))
    case _ => None
  }

  function UpsertDispatch(dispatches: map<string, DispatchView>, env: Envelope,
                          timeoutSeconds: nat): map<string, DispatchView> {
    var id := DocId(env.tenantId, env.payload.orderId);
    var merged := MergeDispatch(if id in dispatches then Some(dispatches[id]) else None, env, timeoutSeconds);
    if merged.Some? && (id !in dispatches || dispatches[id].version < env.version) then dispatches[id := merged.value]
    else dispatches
  }

  function Upsert(kind: Kind, rm: ReadModel, env: Envelope, timeoutSeconds: nat): ReadModel {
    if kind.OrderKind? then rm.(orders := UpsertOrder(rm.orders, env))
    else rm.(dispatches := UpsertDispatch(rm.dispatches, env, timeoutSeconds))
  }

  predicate Seen(kind: Kind, rm: ReadModel, env: Envelope) {
    InboxId(env.tenantId, kind, env.eventId) in rm.inbox
  }

  function Record(kind: Kind, rm: ReadModel, env: Envelope): ReadModel {
    rm.(inbox := rm.inbox + {InboxId(env.tenantId, kind, env.eventId)})
  }

  function Apply(kind: Kind, rm: ReadModel, env: Envelope, timeoutSeconds: nat): ReadModel {
    if Seen(kind, rm, env) then rm else Record(kind, Upsert(kind, rm, env, timeoutSeconds), env)
  }

  // ---- The document is the fast form of replaying the stream ----

  predicate OrderDocIs(doc: OrderView, a: Agg, state: OrderState, version: nat) {
    && doc.tenantId == a.tenantId && doc.orderId == a.orderId && doc.version == version
    && state == OrderState(Some(doc.status), Some(doc.customerId), Some(doc.items), Some(doc.totalAmount),
                           doc.cancelReason)
  }

  predicate DispatchDocIs(doc: DispatchView, a: Agg, state: DispatchState, version: nat) {
    && doc.tenantId == a.tenantId && doc.orderId == a.orderId && doc.version == version
    && state == DispatchState(Some(doc.status), doc.offeredDriverId, doc.driverId, doc.reason)
  }

  /** The document of `a` is the replay of the first m events; there is none when m is zero. */
  predicate DocIs(rm: ReadModel, a: Agg, es: seq<Payload>, m: nat) {
    var id := DocId(a.tenantId, a.orderId);
    m <= |es| &&
    if a.kind.OrderKind? then
      if m == 0 then id !in rm.orders else id in rm.orders && OrderDocIs(rm.orders[id], a, OrderStateOf(es[..m]), m)
    else
      if m == 0 then id !in rm.dispatches
      else id in rm.dispatches && DispatchDocIs(rm.dispatches[id], a, DispatchStateOf(es[..m]), m)
  }

  /** Only the kind, tenant and order of the event decide which document may change. */
  lemma UpsertIsLocal(kind: Kind, rm: ReadModel, env: Envelope, timeoutSeconds: nat, b: Agg, es: seq<Payload>, m: nat)
    requires Clean(b) && NoColon(env.tenantId)
    requires b != Agg(kind, env.tenantId, env.payload.orderId)
    requires DocIs(rm, b, es, m)
    ensures DocIs(Upsert(kind, rm, env, timeoutSeconds), b, es, m)
  {
    JoinInjective(b.tenantId, b.orderId, env.tenantId, env.payload.orderId);
  }

  /** An event that is not ahead of the document by more than one brings the document to the
      larger of the two versions: the next event advances it, an old one changes nothing. */
  lemma UpsertAdvances(a: Agg, rm: ReadModel, env: Envelope, timeoutSeconds: nat, es: seq<Payload>, m: nat)
    requires Legal(a, es) && DocIs(rm, a, es, m)
    requires 1 <= env.version <= |es| && env.version <= m + 1
    requires env.tenantId == a.tenantId && env.payload == es[env.version - 1] && env.payload.orderId == a.orderId
    ensures DocIs(Upsert(a.kind, rm, env, timeoutSeconds), a, es, if env.version > m then env.version else m)
    ensures env.version <= m ==> Upsert(a.kind, rm, env, timeoutSeconds) == rm
  {
    if env.version > m {
      if a.kind.OrderKind? {
        OrderAdvances(a, rm, env, es, m);
      } else {
        DispatchAdvances(a, rm, env, timeoutSeconds, es, m);
      }
    }
  }

  lemma OrderAdvances(a: Agg, rm: ReadModel, env: Envelope, es: seq<Payload>, m: nat)
    requires a.kind.OrderKind? && LegalOrder(a.orderId, es) && DocIs(rm, a, es, m)
    requires env.version == m + 1 <= |es|
    requires env.tenantId == a.tenantId && env.payload == es[m] && env.payload.orderId == a.orderId
    ensures DocIs(rm.(orders := UpsertOrder(rm.orders, env)), a, es, m + 1)
  {
    assert es[..m + 1] == es[..m] + [es[m]];
    FoldAppend(FoldOrder, INITIAL_ORDER_STATE, es[..m], es[m]);
  }

  lemma DispatchAdvances(a: Agg, rm: ReadModel, env: Envelope, timeoutSeconds: nat, es: seq<Payload>, m: nat)
    requires a.kind.DispatchKind? && LegalDispatch(a.orderId, es) && DocIs(rm, a, es, m)
    requires env.version == m + 1 <= |es|
    requires env.tenantId == a.tenantId && env.payload == es[m] && env.payload.orderId == a.orderId
    ensures DocIs(rm.(dispatches := UpsertDispatch(rm.dispatches, env, timeoutSeconds)), a, es, m + 1)
  {
    assert es[..m + 1] == es[..m] + [es[m]];
    FoldAppend(FoldDispatch, INITIAL_DISPATCH_STATE, es[..m], es[m]);
    DispatchEventsOnly(a.orderId, es);
  }

  predicate IsDispatchEvent(e: Payload) {
    !e.OrderPlaced? && !e.OrderAccepted? && !e.OrderCancelled?
  }

  lemma AdmittedIsDispatchEvent(orderId: OrderId, es: seq<Payload>, e: Payload)
    requires DispatchAdmits(orderId, es, e)
    ensures IsDispatchEvent(e)
  {
    var cmd :| DecideDispatch(DispatchStateOf(es), orderId, cmd) == Ok(e);
  }

  lemma DispatchEventsOnly(orderId: OrderId, es: seq<Payload>)
    requires LegalDispatch(orderId, es)
    ensures forall i :: 0 <= i < |es| ==> IsDispatchEvent(es[i])
  {
    DispatchGrammarIsExact(orderId, es);
    forall i | 0 <= i < |es| ensures IsDispatchEvent(es[i]) {
      AdmittedIsDispatchEvent(orderId, es[..i], es[i]);
    }
  }

  /** For an order this is exact: an event brings the document to its version (or leaves a newer one)
      if and only if it is at most one ahead. */
  lemma OrderUpsertAdvancesIff(a: Agg, rm: ReadModel, env: Envelope, es: seq<Payload>, m: nat)
    requires a.kind.OrderKind? && Legal(a, es) && DocIs(rm, a, es, m)
    requires 1 <= env.version <= |es|
    requires env.tenantId == a.tenantId && env.payload == es[env.version - 1] && env.payload.orderId == a.orderId
    ensures DocIs(Upsert(OrderKind, rm, env, 0), a, es, if env.version > m then env.version else m) <==>
      env.version <= m + 1
  {
    if env.version <= m + 1 {
      UpsertAdvances(a, rm, env, 0, es, m);
    }
  }

  /** Why messages of one order must not overtake each other: an outcome handled before the order was
      placed is remembered as processed and lost for good. */
  lemma OvertakenOutcomeIsLost(placed: Envelope, accepted: Envelope)
    requires placed.payload.OrderPlaced? && accepted.payload.OrderAccepted?
    requires placed.payload.orderId == accepted.payload.orderId
    requires placed.tenantId == accepted.tenantId && NoColon(placed.tenantId)
    requires placed.version == 1 && accepted.version == 2 && placed.eventId != accepted.eventId
    ensures var rm := Apply(OrderKind, Apply(OrderKind, EMPTY_MODEL, accepted, 0), placed, 0);
      var id := DocId(placed.tenantId, placed.payload.orderId);
      && id in rm.orders && rm.orders[id].status == PLACED && rm.orders[id].version == 1
      && Apply(OrderKind, rm, accepted, 0) == rm
  {
    InboxIdInjective(placed.tenantId, OrderKind, placed.eventId, accepted.tenantId, OrderKind, accepted.eventId);
  }

  class MongoReadModel {
    var orders: map<string, OrderView>
    var dispatches: map<string, DispatchView>
    var processed: set<string>

    function Contents(): ReadModel
      reads this
    {
      ReadModel(orders, dispatches, processed)
    }

    constructor ()
      ensures Contents() == EMPTY_MODEL
    {
      orders, dispatches, processed := map[], map[], {};
    }

    /** `crash`: the process dies between the upsert and the inbox write. */
    method ApplyEvent(envelope: Envelope, crash: bool) returns (skipped: bool)
      modifies this
      ensures skipped == Seen(OrderKind, old(Contents()), envelope)
      ensures !crash ==> Contents() == Apply(OrderKind, old(Contents()), envelope, 0)
      ensures crash ==>
        Contents() == if skipped then old(Contents()) else Upsert(OrderKind, old(Contents()), envelope, 0)
    {
      var inboxId := InboxId(envelope.tenantId, OrderKind, envelope.eventId);
      if inboxId in processed {
        return true;
      }
      var id := DocId(envelope.tenantId, envelope.payload.orderId);
      var payload := envelope.payload;
      if payload.OrderPlaced? {
        if id !in orders || orders[id].version < envelope.version {
          var cancelReason := if id in orders then orders[id].cancelReason else None;
          orders := orders[id := OrderView(envelope.tenantId, payload.orderId, payload.customerId, payload.items,
                                           payload.totalAmount, PLACED, envelope.version,
                                           envelope.occurredAt, cancelReason)];
        }
      } else if payload.OrderAccepted? || payload.OrderCancelled? {
        var status := if payload.OrderCancelled? then CANCELLED else ACCEPTED;
        if id in orders && orders[id].version < envelope.version {
          var doc := orders[id].(status := status, version := envelope.version, updatedAt := envelope.occurredAt);
          if payload.OrderCancelled? && payload.cancelReason.Some? {
            doc := doc.(cancelReason := payload.cancelReason);
          }
          orders := orders[id := doc];
        }
      }
      if !crash {
        processed := processed + {inboxId};
      }
      return false;
    }

    method ApplyDispatchEvent(envelope: Envelope, timeoutSeconds: nat, crash: bool) returns (skipped: bool)
      modifies this
      ensures skipped == Seen(DispatchKind, old(Contents()), envelope)
      ensures !crash ==> Contents() == Apply(DispatchKind, old(Contents()), envelope, timeoutSeconds)
      ensures crash ==>
        Contents() ==
          if skipped then old(Contents()) else Upsert(DispatchKind, old(Contents()), envelope, timeoutSeconds)
    {
      var inboxId := InboxId(envelope.tenantId, DispatchKind, envelope.eventId);
      if inboxId in processed {
        return true;
      }
      var id := DocId(envelope.tenantId, envelope.payload.orderId);
      var existing := if id in dispatches then Some(dispatches[id]) else None;
      var set_ := MergeDispatch(existing, envelope, timeoutSeconds);
      if set_.Some? {
        if existing.None? || existing.value.version < envelope.version {
          dispatches := dispatches[id := set_.value];
        }
      }
      if !crash {
        processed := processed + {inboxId};
      }
      return false;
    }
  }
}
