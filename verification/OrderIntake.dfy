/** Orders coming in: placing an order is idempotent under races, and each placed order starts one
    workflow however often its message is delivered. */
module OrderIntake {
  import opened Contracts
  import opened Sequences
  import opened OrderAggregate
  import opened AggregateStore
  import W = Writers

  datatype CreateOrder = CreateOrder(orderId: OrderId, customerId: string, items: seq<OrderItem>, totalAmount: int)

  function PlacedBy(dto: CreateOrder): Payload {
    OrderPlaced(dto.orderId, dto.customerId, dto.items, dto.totalAmount)
  }

  lemma OnlyFirstPlaces(o: OrderId, es: seq<Payload>, i: nat)
    requires LegalOrder(o, es) && i < |es|
    ensures es[i].OrderPlaced? <==> i == 0
  {
  }

  /** What is loaded shows whether the order exists. */
  lemma LoadedShowsPlaced(db: Db, a: Agg)
    requires WellFormed(db) && Clean(a) && a.kind.OrderKind?
    ensures var rows := QueryAggregate(db, a.tenantId, AggregateId(a));
      && LastVersion(rows) == |History(db, a)|
      && (OrderStateOf(Payloads(rows)).status == None <==> History(db, a) == [])
  {
    QueryIsStream(db, a);
    assert StreamOk(db, a);
    var es := History(db, a);
    OrderStates(a.orderId, es);
    assert |es| == 1 ==> es[..1] == es;
  }

  /** An append at version 1 places the order exactly when nobody has. */
  lemma FirstWriteWins(db: Db, a: Agg, dto: CreateOrder, stamp: Stamp)
    requires WellFormed(db) && Clean(a) && a.kind.OrderKind? && a.orderId == dto.orderId && FreshId(db, stamp.eventId)
    ensures var tx := AppendTx(db, ArgsFor(a, 0, PlacedBy(dto), ""), stamp);
      && (tx.Ok? <==> History(db, a) == [])
      && (tx.Ok? ==> WellFormed(tx.value) && History(tx.value, a) == [PlacedBy(dto)]
                     && forall b :: Clean(b) && b != a ==> History(tx.value, b) == History(db, b))
  {
    var cmd := OrderCommand.PlaceOrder(dto.customerId, dto.items, dto.totalAmount);
    assert History(db, a)[..0] == [];
    assert DecideOrder(OrderStateOf([]), dto.orderId, cmd) == Ok(PlacedBy(dto));
    AppendDecides(db, a, 0, PlacedBy(dto), "", stamp);
    var tx := AppendTx(db, ArgsFor(a, 0, PlacedBy(dto), ""), stamp);
    if tx.Ok? {
      assert History(tx.value, a) == History(db, a) + [PlacedBy(dto)] == [PlacedBy(dto)];
    }
  }

  /** In every run, however many calls place the same order, only its first event places it. */
  lemma PlacedOnce(acts: seq<W.Action>, t: TenantId, o: OrderId, i: nat)
    requires W.ValidRun(W.START, acts) && NoColon(t) && !IsAlias(o)
    requires i < |History(W.Run(W.START, acts).db, Agg(OrderKind, t, o))|
    ensures History(W.Run(W.START, acts).db, Agg(OrderKind, t, o))[i].OrderPlaced? <==> i == 0
  {
    W.EveryHistoryIsLegal(acts, t, o);
    OnlyFirstPlaces(o, History(W.Run(W.START, acts).db, Agg(OrderKind, t, o)), i);
  }

  class OrdersService {
    const store: EventStore
    /** What other writers have loaded and not yet appended. */
    var pending: map<W.WriterId, W.Loaded>

    constructor (store: EventStore)
      ensures this.store == store && pending == map[]
    {
      this.store, pending := store, map[];
    }

    function System(): W.System
      reads this, store
    {
      W.System(store.Contents(), pending)
    }

    /** `others` happens between the load and the append. Afterwards the order is placed, once: by
        this call if nobody had placed it when the append ran, else by whoever did. */
    method PlaceOrder(tenantId: TenantId, dto: CreateOrder, others: seq<W.Action>, stamp: Stamp)
      returns (orderId: OrderId)
      requires NoColon(tenantId) && !IsAlias(dto.orderId)
      requires W.Inv(System()) && W.ValidRun(System(), others)
      requires FreshId(W.Run(System(), others).db, stamp.eventId)
      modifies this, store
      ensures orderId == dto.orderId && WellFormed(store.Contents())
      ensures var a := Agg(OrderKind, tenantId, dto.orderId);
        var before := History(W.Run(old(System()), others).db, a);
        History(store.Contents(), a) ==
          if before == [] then [OrderPlaced(dto.orderId, dto.customerId, dto.items, dto.totalAmount)] else before
      ensures forall b | Clean(b) && b != Agg(OrderKind, tenantId, dto.orderId) ::
        History(store.Contents(), b) == History(W.Run(old(System()), others).db, b)
    {
      var a := Agg(OrderKind, tenantId, dto.orderId);
      LoadedShowsPlaced(store.Contents(), a);
      ghost var loaded := History(store.Contents(), a);
      var state, version := store.LoadAggregate(tenantId, dto.orderId, FoldOrder, INITIAL_ORDER_STATE);
      pending := W.OthersWrite(store, pending, others);
      assert loaded <= History(store.Contents(), a);
      var payload := Place(state, dto.orderId, dto.customerId, dto.items, dto.totalAmount);
      if payload.Err? {                         // already exists
        return dto.orderId;
      }
      FirstWriteWins(store.Contents(), a, dto, stamp);
      var result := store.AppendWithExpectedVersion(ArgsFor(a, version, payload.value, ""), stamp);
      return dto.orderId;                       // also when someone else placed it first
    }
  }

  // ---- One workflow per order ----

  datatype Workflow =
    | OrderLifecycle(tenantId: TenantId, orderId: OrderId, totalAmount: int)
    | DriverDispatch(tenantId: TenantId, orderId: OrderId)

  datatype Execution = Execution(id: string, workflow: Workflow)

  /** Every execution ever started, in order, and the ids that are running now. */
  datatype Registry = Registry(executions: seq<Execution>, running: set<string>)

  const EMPTY_REGISTRY := Registry([], {})

  /** A message handled (again, when it was redelivered), a child workflow asked for, or a workflow
      that ended. */
  datatype Event =
    | FromMessage(envelope: Envelope)
    | AsChild(tenantId: TenantId, orderId: OrderId)
    | Closed(id: string)

  function Started(r: Registry, id: string, w: Workflow): Registry {
    Registry(r.executions + [Execution(id, w)], r.running + {id})
  }

  predicate EverUsed(r: Registry, id: string) {
    exists e :: e in r.executions && e.id == id
  }

  /** The order workflow refuses an id that was ever used; a child only one that is running. */
  function Handle(r: Registry, event: Event): Registry {
    match event
    case FromMessage(env) =>
      if !env.payload.OrderPlaced? then r
      else
        var id := OrderWorkflowId(env.tenantId, env.payload.orderId);
        if EverUsed(r, id) then r
        else Started(r, id, OrderLifecycle(env.tenantId, env.payload.orderId, env.payload.totalAmount))
    case AsChild(t, o) =>
      var id := DispatchWorkflowId(t, o);
      if id in r.running then r else Started(r, id, DriverDispatch(t, o))
    case Closed(id) => r.(running := r.running - {id})
  }

  function RegistryOf(events: seq<Event>): Registry {
    FoldAll(Handle, EMPTY_REGISTRY, events)
  }

  lemma RegistryStep(events: seq<Event>, event: Event)
    ensures RegistryOf(events + [event]) == Handle(RegistryOf(events), event)
  {
    FoldAppend(Handle, EMPTY_REGISTRY, events, event);
  }

  function WithId(id: string): Execution -> bool {
    (e: Execution) => e.id == id
  }

  /** The executions of one workflow id. */
  function ExecutionsOf(r: Registry, id: string): seq<Execution> {
    Filter(WithId(id), r.executions)
  }

  predicate CleanTenant(t: TenantId) {
    NoColon(t) && t != "dispatch"
  }

  predicate CleanEvent(event: Event) {
    match event
    case FromMessage(env) => CleanTenant(env.tenantId)
    case AsChild(t, _) => CleanTenant(t)
    case Closed(_) => true
  }

  predicate Places(event: Event, t: TenantId, o: OrderId) {
    event.FromMessage? && event.envelope.payload.OrderPlaced?
    && event.envelope.tenantId == t && event.envelope.payload.orderId == o
  }

  /** The first message that places the order. */
  function FirstPlaced(events: seq<Event>, t: TenantId, o: OrderId): Option<Envelope> {
    if events == [] then None
    else if Places(events[0], t, o) then Some(events[0].envelope)
    else FirstPlaced(events[1..], t, o)
  }

  lemma {:induction false} FirstPlacedAppend(events: seq<Event>, event: Event, t: TenantId, o: OrderId)
    ensures FirstPlaced(events + [event], t, o) ==
      if FirstPlaced(events, t, o).Some? then FirstPlaced(events, t, o)
      else if Places(event, t, o) then Some(event.envelope) else None
    ensures FirstPlaced(events, t, o).Some? ==> FirstPlaced(events, t, o).value.payload.OrderPlaced?
  {
    if events == [] {
      assert [event][1..] == [];
    } else {
      assert (events + [event])[1..] == events[1..] + [event];
      FirstPlacedAppend(events[1..], event, t, o);
    }
  }

  lemma HandleOrder(r: Registry, event: Event, t: TenantId, o: OrderId)
    requires CleanTenant(t) && CleanEvent(event)
    ensures var id, r' := OrderWorkflowId(t, o), Handle(r, event);
      ExecutionsOf(r', id) ==
        if Places(event, t, o) && ExecutionsOf(r, id) == [] then
          [Execution(id, OrderLifecycle(t, o, event.envelope.payload.totalAmount))]
        else ExecutionsOf(r, id)
  {
    var id := OrderWorkflowId(t, o);
    if event.FromMessage? && event.envelope.payload.OrderPlaced? {
      var t', o' := event.envelope.tenantId, event.envelope.payload.orderId;
      WorkflowIdInjective(t, o, t', o');
      FilterAppend(WithId(id), r.executions,
                   Execution(OrderWorkflowId(t', o'), OrderLifecycle(t', o', event.envelope.payload.totalAmount)));
      assert EverUsed(r, id) <==> ExecutionsOf(r, id) != [] by {
        assert forall e :: e in ExecutionsOf(r, id) <==> e in r.executions && e.id == id;
        if ExecutionsOf(r, id) != [] {
          assert ExecutionsOf(r, id)[0] in ExecutionsOf(r, id);
        }
      }
    } else if event.AsChild? {
      WorkflowIdsMeetIff(t, o, event.tenantId, event.orderId);
      FilterAppend(WithId(id), r.executions,
                   Execution(DispatchWorkflowId(event.tenantId, event.orderId),
                             DriverDispatch(event.tenantId, event.orderId)));
    }
  }

  /** One execution per placed order, started by the first message that placed it: redelivery starts
      nothing, even after the workflow has ended, and no other workflow ever takes its id. */
  lemma {:induction false} OneWorkflowPerOrder(events: seq<Event>, t: TenantId, o: OrderId)
    requires CleanTenant(t) && forall event :: event in events ==> CleanEvent(event)
    ensures var id := OrderWorkflowId(t, o);
      match FirstPlaced(events, t, o)
      case None => ExecutionsOf(RegistryOf(events), id) == []
      case Some(env) =>
        && env.payload.OrderPlaced?
        && ExecutionsOf(RegistryOf(events), id) == [Execution(id, OrderLifecycle(t, o, env.payload.totalAmount))]
  {
    if events != [] {
      var n := |events| - 1;
      var front, last := events[..n], events[n];
      assert events == front + [last] && last in events;
      OneWorkflowPerOrder(front, t, o);
      FirstPlacedAppend(front, last, t, o);
      HandleOrder(RegistryOf(front), last, t, o);
    }
  }

  /** A child workflow, which names no policy, is refused only while it runs: once it has ended,
      asking again starts it again. */
  lemma ChildRunsAgain(r: Registry, t: TenantId, o: OrderId)
    ensures var id := DispatchWorkflowId(t, o);
      && (Handle(r, AsChild(t, o)) == r <==> id in r.running)
      && ExecutionsOf(Handle(Handle(r, Closed(id)), AsChild(t, o)), id)
         == ExecutionsOf(r, id) + [Execution(id, DriverDispatch(t, o))]
  {
    var id := DispatchWorkflowId(t, o);
    FilterAppend(WithId(id), r.executions, Execution(id, DriverDispatch(t, o)));
    assert Handle(r, Closed(id)) == Registry(r.executions, r.running - {id});
    assert id !in r.running ==> |Handle(r, AsChild(t, o)).executions| == |r.executions| + 1;
  }

  class OrderConsumer {
    var registry: Registry
    ghost var events: seq<Event>

    ghost predicate Valid()
      reads this
    {
      registry == RegistryOf(events)
    }

    constructor ()
      ensures Valid() && events == []
    {
      registry, events := EMPTY_REGISTRY, [];
    }

    method EachMessage(envelope: Envelope) returns (started: bool)
      requires Valid()
      modifies this
      ensures Valid() && events == old(events) + [FromMessage(envelope)]
      ensures started <==> registry != old(registry)
    {
      RegistryStep(events, FromMessage(envelope));
      events := events + [FromMessage(envelope)];
      if !envelope.payload.OrderPlaced? {
        return false;
      }
      var p := envelope.payload;
      var id := OrderWorkflowId(envelope.tenantId, p.orderId);
      if EverUsed(registry, id) {               // already started: swallowed
        return false;
      }
      registry := Started(registry, id, OrderLifecycle(envelope.tenantId, p.orderId, p.totalAmount));
      return true;
    }

    method ExecuteChild(tenantId: TenantId, orderId: OrderId) returns (started: bool)
      requires Valid()
      modifies this
      ensures Valid() && events == old(events) + [AsChild(tenantId, orderId)]
      ensures started <==> DispatchWorkflowId(tenantId, orderId) !in old(registry).running
    {
      RegistryStep(events, AsChild(tenantId, orderId));
      events := events + [AsChild(tenantId, orderId)];
      var id := DispatchWorkflowId(tenantId, orderId);
      if id in registry.running {
        return false;
      }
      registry := Started(registry, id, DriverDispatch(tenantId, orderId));
      return true;
    }

    method WorkflowEnds(id: string)
      requires Valid()
      modifies this
      ensures Valid() && events == old(events) + [Closed(id)]
    {
      RegistryStep(events, Closed(id));
      events := events + [Closed(id)];
      registry := registry.(running := registry.running - {id});
    }
  }
}
