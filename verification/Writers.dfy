/** Any number of concurrent writers over one event store. A load and the append decided on it
    are separate steps, so a writer may act on a version that is long stale, retry after a lost
    reply by loading again, or disappear. */
module Writers {
  import opened Contracts
  import opened Sequences
  import opened OrderAggregate
  import opened DispatchAggregate
  import opened AggregateStore

  datatype Loaded =
    | OrderLoaded(agg: Agg, orderCmd: OrderCommand, orderState: OrderState, version: nat)
    | DispatchLoaded(agg: Agg, dispatchCmd: DispatchCommand, dispatchState: DispatchState, version: nat)

  type WriterId = nat

  datatype System = System(db: Db, pending: map<WriterId, Loaded>)

  const START := System(EMPTY_DB, map[])

  datatype Action =
    | LoadOrder(w: WriterId, tenantId: TenantId, orderId: OrderId, orderCmd: OrderCommand)
    | LoadDispatch(w: WriterId, tenantId: TenantId, orderId: OrderId, dispatchCmd: DispatchCommand)
    | Append(w: WriterId, correlationId: string, stamp: Stamp)
    | Forget(w: WriterId)

  function Decide(l: Loaded): Result<Payload, Rejection> {
    match l
    case OrderLoaded(a, cmd, state, _) => DecideOrder(state, a.orderId, cmd)
    case DispatchLoaded(a, cmd, state, _) => DecideDispatch(state, a.orderId, cmd)
  }

  /** Standing assumptions: tenants have no colon and orders are not named like a dispatch, event ids
      are fresh, and the outbox time stamps of one aggregate increase. */
  ghost predicate Enabled(s: System, act: Action) {
    match act
    case LoadOrder(_, t, o, _) => NoColon(t) && !IsAlias(o)
    case LoadDispatch(_, t, _, _) => NoColon(t)
    case Append(w, _, stamp) =>
      w in s.pending && FreshId(s.db, stamp.eventId) && Later(s.db, s.pending[w].agg, stamp.createdAt)
    case Forget(_) => true
  }

  predicate Later(db: Db, a: Agg, createdAt: Time) {
    forall o :: o in db.outbox && o.topic == TopicOf(a.kind)
                && o.partitionKey == PartitionKey(a.tenantId, AggregateId(a))
      ==> o.createdAt < createdAt
  }

  /** Decide on what was loaded, then append at the loaded version. */
  function Submit(db: Db, l: Loaded, correlationId: string, stamp: Stamp): Db {
    if Decide(l).Err? then db                   // already exists, or a stale command: a no-op
    else
      var tx := AppendTx(db, ArgsFor(l.agg, l.version, Decide(l).value, correlationId), stamp);
      if tx.Ok? then tx.value else db           // the version was taken: the caller reloads or gives up
  }

  function Step(s: System, act: Action): System {
    match act
    case LoadOrder(w, t, o, cmd) =>
      var rows := QueryAggregate(s.db, t, o);
      s.(pending := s.pending[w := OrderLoaded(Agg(OrderKind, t, o), cmd,
                                               OrderStateOf(Payloads(rows)), LastVersion(rows))])
    case LoadDispatch(w, t, o, cmd) =>
      var rows := QueryAggregate(s.db, t, DispatchAggregateId(o));
      s.(pending := s.pending[w := DispatchLoaded(Agg(DispatchKind, t, o), cmd,
                                                  DispatchStateOf(Payloads(rows)), LastVersion(rows))])
    case Append(w, correlationId, stamp) =>
      if w !in s.pending then s
      else
        System(Submit(s.db, s.pending[w], correlationId, stamp), s.pending - {w})
    case Forget(w) => s.(pending := s.pending - {w})
  }

  /** What a writer holds in hand is the replay of some prefix of its stream. */
  ghost predicate LoadedOk(db: Db, l: Loaded) {
    && Clean(l.agg)
    && l.version <= |Stream(db, l.agg)|
    && match l
       case OrderLoaded(a, _, state, n) => a.kind.OrderKind? && state == OrderStateOf(History(db, a)[..n])
       case DispatchLoaded(a, _, state, n) => a.kind.DispatchKind? && state == DispatchStateOf(History(db, a)[..n])
  }

  ghost predicate Inv(s: System) {
    && WellFormed(s.db)
    && forall w :: w in s.pending ==> LoadedOk(s.db, s.pending[w])
  }

  lemma LoadedStays(db: Db, db': Db, l: Loaded)
    requires LoadedOk(db, l) && History(db, l.agg) <= History(db', l.agg)
    ensures LoadedOk(db', l)
  {
    assert History(db', l.agg)[..l.version] == History(db, l.agg)[..l.version];
  }

  /** A load brings home the replay of the whole stream. */
  lemma LoadIsOk(db: Db, a: Agg)
    requires WellFormed(db) && Clean(a)
    ensures var rows := QueryAggregate(db, a.tenantId, AggregateId(a));
      && LastVersion(rows) == |Stream(db, a)|
      && Payloads(rows) == History(db, a)[..|Stream(db, a)|]
  {
    QueryIsStream(db, a);
  }

  lemma LoadStepKeepsInv(s: System, act: Action)
    requires Inv(s) && Enabled(s, act) && (act.LoadOrder? || act.LoadDispatch?)
    ensures Inv(Step(s, act))
  {
    var a := Agg(if act.LoadOrder? then OrderKind else DispatchKind, act.tenantId, act.orderId);
    LoadIsOk(s.db, a);
    var s' := Step(s, act);
    assert s'.db == s.db;
    assert LoadedOk(s.db, s'.pending[act.w]);
  }

  lemma DecisionIsAdmitted(db: Db, l: Loaded)
    requires LoadedOk(db, l) && Decide(l).Ok?
    ensures Admits(l.agg, History(db, l.agg)[..l.version], Decide(l).value)
  {
    match l {
      case OrderLoaded(a, cmd, state, n) =>
        assert DecideOrder(OrderStateOf(History(db, a)[..n]), a.orderId, cmd) == Decide(l);
      case DispatchLoaded(a, cmd, state, n) =>
        assert DecideDispatch(DispatchStateOf(History(db, a)[..n]), a.orderId, cmd) == Decide(l);
    }
  }

  lemma SubmitGrows(db: Db, l: Loaded, correlationId: string, stamp: Stamp)
    requires WellFormed(db) && LoadedOk(db, l) && FreshId(db, stamp.eventId)
    ensures var db' := Submit(db, l, correlationId, stamp);
      WellFormed(db') && forall a :: Clean(a) ==> History(db, a) <= History(db', a)
  {
    if Decide(l).Ok? {
      DecisionIsAdmitted(db, l);
      AppendGrows(db, l.agg, l.version, Decide(l).value, correlationId, stamp);
    }
  }

  lemma AppendStepKeepsInv(s: System, act: Action)
    requires Inv(s) && Enabled(s, act) && act.Append?
    ensures Inv(Step(s, act))
    ensures forall a :: Clean(a) ==> History(s.db, a) <= History(Step(s, act).db, a)
  {
    SubmitGrows(s.db, s.pending[act.w], act.correlationId, act.stamp);
    var s' := Step(s, act);
    forall w | w in s'.pending ensures LoadedOk(s'.db, s'.pending[w]) {
      assert LoadedOk(s.db, s.pending[w]);
      LoadedStays(s.db, s'.db, s.pending[w]);
    }
  }

  /** Every step of every writer keeps the histories legal and only ever extends them. */
  lemma StepKeepsInv(s: System, act: Action)
    requires Inv(s) && Enabled(s, act)
    ensures Inv(Step(s, act))
    ensures forall a :: Clean(a) ==> History(s.db, a) <= History(Step(s, act).db, a)
  {
    match act {
      case LoadOrder(_, _, _, _) => LoadStepKeepsInv(s, act);
      case LoadDispatch(_, _, _, _) => LoadStepKeepsInv(s, act);
      case Append(_, _, _) => AppendStepKeepsInv(s, act);
      case Forget(_) =>
    }
  }

  /** What a writer's append does, exactly: it adds the event decided on what was loaded if that is still
      the whole history, and otherwise, or when nothing was decided, it adds nothing to any stream. */
  lemma SubmitIs(db: Db, l: Loaded, correlationId: string, stamp: Stamp)
    requires WellFormed(db) && LoadedOk(db, l) && FreshId(db, stamp.eventId)
    ensures var db', before := Submit(db, l, correlationId, stamp), History(db, l.agg);
      && History(db', l.agg) ==
           (if Decide(l).Ok? && l.version == |before| then before + [Decide(l).value] else before)
      && forall a :: Clean(a) && a != l.agg ==> History(db', a) == History(db, a)
  {
    if Decide(l).Ok? {
      DecisionIsAdmitted(db, l);
      AppendAddsIff(db, l.agg, l.version, Decide(l).value, correlationId, stamp);
    }
  }

  lemma AppendAddsIff(db: Db, a: Agg, n: nat, e: Payload, correlationId: string, stamp: Stamp)
    requires WellFormed(db) && Clean(a) && n <= |Stream(db, a)| && Admits(a, History(db, a)[..n], e)
    requires FreshId(db, stamp.eventId)
    ensures var tx := AppendTx(db, ArgsFor(a, n, e, correlationId), stamp);
      && (tx.Ok? <==> n == |History(db, a)|)
      && (tx.Ok? ==>
            && History(tx.value, a) == History(db, a) + [e]
            && forall b :: Clean(b) && b != a ==> History(tx.value, b) == History(db, b))
  {
    AppendDecides(db, a, n, e, correlationId, stamp);
  }

  /** A load followed at once by its append: what the command decides on the history is added to it. */
  lemma UndisturbedOrderWrite(s: System, w: WriterId, t: TenantId, o: OrderId, cmd: OrderCommand,
                              correlationId: string, stamp: Stamp)
    requires Inv(s) && Enabled(s, LoadOrder(w, t, o, cmd))
    requires Enabled(Step(s, LoadOrder(w, t, o, cmd)), Append(w, correlationId, stamp))
    ensures var s' := Step(Step(s, LoadOrder(w, t, o, cmd)), Append(w, correlationId, stamp));
      var a := Agg(OrderKind, t, o);
      var decision := DecideOrder(OrderStateOf(History(s.db, a)), o, cmd);
      && History(s'.db, a) == (if decision.Ok? then History(s.db, a) + [decision.value] else History(s.db, a))
      && forall b :: Clean(b) && b != a ==> History(s'.db, b) == History(s.db, b)
  {
    var s1, a := Step(s, LoadOrder(w, t, o, cmd)), Agg(OrderKind, t, o);
    LoadIsOk(s.db, a);
    LoadStepKeepsInv(s, LoadOrder(w, t, o, cmd));
    assert History(s.db, a)[..|History(s.db, a)|] == History(s.db, a);
    SubmitIs(s1.db, s1.pending[w], correlationId, stamp);
  }

  lemma UndisturbedDispatchWrite(s: System, w: WriterId, t: TenantId, o: OrderId, cmd: DispatchCommand,
                                 correlationId: string, stamp: Stamp)
    requires Inv(s) && Enabled(s, LoadDispatch(w, t, o, cmd))
    requires Enabled(Step(s, LoadDispatch(w, t, o, cmd)), Append(w, correlationId, stamp))
    ensures var s' := Step(Step(s, LoadDispatch(w, t, o, cmd)), Append(w, correlationId, stamp));
      var a := Agg(DispatchKind, t, o);
      var decision := DecideDispatch(DispatchStateOf(History(s.db, a)), o, cmd);
      && History(s'.db, a) == (if decision.Ok? then History(s.db, a) + [decision.value] else History(s.db, a))
      && forall b :: Clean(b) && b != a ==> History(s'.db, b) == History(s.db, b)
  {
    var s1, a := Step(s, LoadDispatch(w, t, o, cmd)), Agg(DispatchKind, t, o);
    LoadIsOk(s.db, a);
    LoadStepKeepsInv(s, LoadDispatch(w, t, o, cmd));
    assert History(s.db, a)[..|History(s.db, a)|] == History(s.db, a);
    SubmitIs(s1.db, s1.pending[w], correlationId, stamp);
  }

  function Run(s: System, acts: seq<Action>): System
    decreases |acts|
  {
    if acts == [] then s else Step(Run(s, acts[..|acts| - 1]), acts[|acts| - 1])
  }

  ghost predicate ValidRun(s: System, acts: seq<Action>)
    decreases |acts|
  {
    acts == [] ||
    (ValidRun(s, acts[..|acts| - 1]) && Enabled(Run(s, acts[..|acts| - 1]), acts[|acts| - 1]))
  }

  lemma {:induction false} RunKeepsInv(s: System, acts: seq<Action>)
    requires Inv(s) && ValidRun(s, acts)
    ensures Inv(Run(s, acts))
    ensures forall a :: Clean(a) ==> History(s.db, a) <= History(Run(s, acts).db, a)
    decreases |acts|
  {
    if acts != [] {
      var before := Run(s, acts[..|acts| - 1]);
      RunKeepsInv(s, acts[..|acts| - 1]);
      StepKeepsInv(before, acts[|acts| - 1]);
      forall a | Clean(a) ensures History(s.db, a) <= History(Run(s, acts).db, a) {
        assert History(s.db, a) <= History(before.db, a) <= History(Run(s, acts).db, a);
      }
    }
  }

  /** Every history is legal, whatever the interleaving: in every run of any number of writers,
      each stream carries the versions 1..n, each order stream is a prefix of
      Placed;(Accepted|Cancelled) and each dispatch stream is in the dispatch grammar. */
  lemma EveryHistoryIsLegal(acts: seq<Action>, t: TenantId, o: OrderId)
    requires ValidRun(START, acts) && NoColon(t)
    ensures var db := Run(START, acts).db;
      var order, dispatch := Agg(OrderKind, t, o), Agg(DispatchKind, t, o);
      && Numbered(Stream(db, dispatch)) && LegalDispatch(o, History(db, dispatch))
      && (!IsAlias(o) ==> Numbered(Stream(db, order)) && LegalOrder(o, History(db, order)))
  {
    EmptyIsWellFormed();
    RunKeepsInv(START, acts);
    var db := Run(START, acts).db;
    assert StreamOk(db, Agg(DispatchKind, t, o));
    assert Clean(Agg(OrderKind, t, o)) ==> StreamOk(db, Agg(OrderKind, t, o));
  }

  /** The condition on order ids is needed: an order named "dispatch:o1" writes into the dispatch
      stream of order "o1", which is then no dispatch history at all. */
  lemma AliasedStreams(t: TenantId, stamp: Stamp)
    ensures var args := AppendArgs(t, OrderKind, "dispatch:o1", 0, OrderPlaced("dispatch:o1", "c", [], 0), "");
      && AppendTx(EMPTY_DB, args, stamp).Ok?
      && !LegalDispatch("o1", History(AppendTx(EMPTY_DB, args, stamp).value, Agg(DispatchKind, t, "o1")))
  {
    var placed := OrderPlaced("dispatch:o1", "c", [], 0);
    var args := AppendArgs(t, OrderKind, "dispatch:o1", 0, placed, "");
    ColonsCollide();
    var db := AppendTx(EMPTY_DB, args, stamp).value;
    FilterAppend(InAggregate(t, "dispatch:o1"), [], db.events[0]);
    assert db.events == [] + [db.events[0]];
    var h := History(db, Agg(DispatchKind, t, "o1"));
    assert h == [placed];
    assert placed in h;
  }

  /** On a real store: other writers take any number of steps of their own. */
  method OthersWrite(store: EventStore, pending: map<WriterId, Loaded>, others: seq<Action>)
    returns (pending': map<WriterId, Loaded>)
    requires Inv(System(store.Contents(), pending)) && ValidRun(System(store.Contents(), pending), others)
    modifies store
    ensures System(store.Contents(), pending') == Run(System(old(store.Contents()), pending), others)
    ensures Inv(System(store.Contents(), pending'))
    ensures forall a :: Clean(a) ==> History(old(store.Contents()), a) <= History(store.Contents(), a)
  {
    var after := Run(System(store.Contents(), pending), others);
    RunKeepsInv(System(store.Contents(), pending), others);
    store.events, store.outbox := after.db.events, after.db.outbox;
    return after.pending;
  }
}
