/** The saga's record activities on the event store: load, decide, append; an outcome that is no
    longer possible is a benign no-op, a lost race is an error that makes the activity retry. */
module SagaActivities {
  import opened Contracts
  import opened OrderAggregate
  import opened DispatchAggregate
  import opened AggregateStore
  import W = Writers
  import S = OrderSaga
  import D = DriverDispatch

  datatype Outcome = Recorded | NoOp | Raced

  /** What the activity decided on the history it loaded, against the history it appends to. */
  function OutcomeFor(decision: Result<Payload, Rejection>, loaded: seq<Payload>, current: seq<Payload>): Outcome {
    if decision.Err? then NoOp else if current == loaded then Recorded else Raced
  }

  lemma LoadedState(db: Db, a: Agg)
    requires WellFormed(db) && Clean(a)
    ensures var rows := QueryAggregate(db, a.tenantId, AggregateId(a));
      LastVersion(rows) == |History(db, a)| && Payloads(rows) == History(db, a)
  {
    QueryIsStream(db, a);
  }

  /** The append lands exactly when nothing was appended since the load. */
  lemma AppendOutcome(db: Db, a: Agg, loaded: seq<Payload>, e: Payload, correlationId: string, stamp: Stamp)
    requires WellFormed(db) && Clean(a) && loaded <= History(db, a) && Admits(a, loaded, e)
    requires FreshId(db, stamp.eventId)
    ensures var tx := AppendTx(db, ArgsFor(a, |loaded|, e, correlationId), stamp);
      && (tx.Ok? <==> History(db, a) == loaded)
      && (tx.Ok? ==> WellFormed(tx.value) && History(tx.value, a) == loaded + [e]
                     && forall b :: Clean(b) && b != a ==> History(tx.value, b) == History(db, b))
  {
    assert History(db, a)[..|loaded|] == loaded;
    AppendDecides(db, a, |loaded|, e, correlationId, stamp);
  }

  /** The order's history as the saga's model of the activity says. */
  function Told(loaded: seq<Payload>, orderId: OrderId, tell: S.Tell): seq<Payload> {
    S.ExecuteTell(S.World(orderId, 0, None, loaded, {}, None, {}), tell).order
  }

  lemma OrderDecisionIsAdmitted(a: Agg, loaded: seq<Payload>, state: OrderState, tell: S.Tell)
    requires a.kind.OrderKind? && state == OrderStateOf(loaded)
    ensures var decision := S.DecideTell(state, a.orderId, tell);
      && Told(loaded, a.orderId, tell) == (if decision.Ok? then loaded + [decision.value] else loaded)
      && (decision.Ok? ==> Admits(a, loaded, decision.value))
  {
    var cmd := if tell.TellAccepted? then AcceptOrder else CancelOrder(tell.reason);
    assert DecideOrder(OrderStateOf(loaded), a.orderId, cmd) == S.DecideTell(state, a.orderId, tell);
  }

  lemma DispatchDecisionIsAdmitted(a: Agg, loaded: seq<Payload>, state: DispatchState, cmd: DispatchCommand)
    requires a.kind.DispatchKind? && state == DispatchStateOf(loaded)
    ensures var decision := DecideDispatch(state, a.orderId, cmd);
      && D.Attempt(a.orderId, loaded, cmd) == (if decision.Ok? then loaded + [decision.value] else loaded)
      && (decision.Ok? ==> Admits(a, loaded, decision.value))
  {
  }

  class Activities {
    const store: EventStore
    /** What other writers have loaded and not yet appended. */
    var pending: map<W.WriterId, W.Loaded>

    constructor (store: EventStore)
      ensures this.store == store && pending == map[]
    {
      this.store, pending := store, map[];
    }

    function System(): W.System
      reads this, store
    {
      W.System(store.Contents(), pending)
    }

    /** Records that the order was accepted, or cancelled for a reason. Left alone, one call does to
        the stream exactly what the saga's model of it says. */
    method RecordOrder(tenantId: TenantId, orderId: OrderId, tell: S.Tell, correlationId: string,
                       others: seq<W.Action>, stamp: Stamp)
      returns (outcome: Outcome)
      requires NoColon(tenantId) && !IsAlias(orderId)
      requires W.Inv(System()) && W.ValidRun(System(), others)
      requires FreshId(W.Run(System(), others).db, stamp.eventId)
      modifies this, store
      ensures WellFormed(store.Contents())
      ensures var a := Agg(OrderKind, tenantId, orderId);
        var loaded := History(old(store.Contents()), a);
        var current := History(W.Run(old(System()), others).db, a);
        var decision := S.DecideTell(OrderStateOf(loaded), orderId, tell);
        && outcome == OutcomeFor(decision, loaded, current)
        && History(store.Contents(), a) == (if outcome.Recorded? then loaded + [decision.value] else current)
        && (current == loaded ==> History(store.Contents(), a) == Told(loaded, orderId, tell))
      ensures forall b | Clean(b) && b != Agg(OrderKind, tenantId, orderId) ::
        History(store.Contents(), b) == History(W.Run(old(System()), others).db, b)
    {
      var a := Agg(OrderKind, tenantId, orderId);
      LoadedState(store.Contents(), a);
      ghost var loaded := History(store.Contents(), a);
      var state, version := store.LoadAggregate(tenantId, orderId, FoldOrder, INITIAL_ORDER_STATE);
      pending := W.OthersWrite(store, pending, others);
      OrderDecisionIsAdmitted(a, loaded, state, tell);
      var decision := S.DecideTell(state, orderId, tell);
      if decision.Err? {
        return NoOp;
      }
      AppendOutcome(store.Contents(), a, loaded, decision.value, correlationId, stamp);
      var appended := store.AppendWithExpectedVersion(ArgsFor(a, version, decision.value, correlationId), stamp);
      return if appended.Ok? then Recorded else Raced;
    }

    /** The five record activities of the dispatch stream differ only in the command. */
    method RecordDispatch(tenantId: TenantId, orderId: OrderId, cmd: DispatchCommand, correlationId: string,
                          others: seq<W.Action>, stamp: Stamp)
      returns (outcome: Outcome)
      requires NoColon(tenantId)
      requires W.Inv(System()) && W.ValidRun(System(), others)
      requires FreshId(W.Run(System(), others).db, stamp.eventId)
      modifies this, store
      ensures WellFormed(store.Contents())
      ensures var a := Agg(DispatchKind, tenantId, orderId);
        var loaded := History(old(store.Contents()), a);
        var current := History(W.Run(old(System()), others).db, a);
        var decision := DecideDispatch(DispatchStateOf(loaded), orderId, cmd);
        && outcome == OutcomeFor(decision, loaded, current)
        && History(store.Contents(), a) == (if outcome.Recorded? then loaded + [decision.value] else current)
        && (current == loaded ==> History(store.Contents(), a) == D.Attempt(orderId, loaded, cmd))
      ensures forall b | Clean(b) && b != Agg(DispatchKind, tenantId, orderId) ::
        History(store.Contents(), b) == History(W.Run(old(System()), others).db, b)
    {
      var a := Agg(DispatchKind, tenantId, orderId);
      LoadedState(store.Contents(), a);
      ghost var loaded := History(store.Contents(), a);
      var state, version :=
        store.LoadAggregate(tenantId, DispatchAggregateId(orderId), FoldDispatch, INITIAL_DISPATCH_STATE);
      pending := W.OthersWrite(store, pending, others);
      DispatchDecisionIsAdmitted(a, loaded, state, cmd);
      var decision := DecideDispatch(state, orderId, cmd);
      if decision.Err? {
        return NoOp;
      }
      AppendOutcome(store.Contents(), a, loaded, decision.value, correlationId, stamp);
      var appended := store.AppendWithExpectedVersion(ArgsFor(a, version, decision.value, correlationId), stamp);
      return if appended.Ok? then Recorded else Raced;
    }
  }
}
