/** The driver dispatch workflow: a bounded re-offer loop over the nearest available drivers,
    then the two post-accept waits. Signals, timers, retries and the fleet are nondeterministic. */
module DriverDispatch {
  import opened Contracts
  import opened Sequences
  import opened DispatchAggregate
  import B = BusySet

  // ---- What a retried record activity does to the stream ----

  /** One attempt: load, decide, append; a rejected command is a benign no-op. */
  function Attempt(orderId: OrderId, stream: seq<Payload>, cmd: DispatchCommand): seq<Payload> {
    var decision := DecideDispatch(DispatchStateOf(stream), orderId, cmd);
    if decision.Ok? then stream + [decision.value] else stream
  }

  function After(orderId: OrderId, state: DispatchState, cmd: DispatchCommand): DispatchState {
    var decision := DecideDispatch(state, orderId, cmd);
    if decision.Ok? then FoldDispatch(state, decision.value) else state
  }

  /** A retry after a lost reply never moves the dispatch any further. */
  lemma RetryIsIdempotent(orderId: OrderId, state: DispatchState, cmd: DispatchCommand)
    ensures After(orderId, After(orderId, state, cmd), cmd) == After(orderId, state, cmd)
  {
  }

  /** The drivers offered, in order, a repeated offer to the same driver counted once. */
  function OfferedDrivers(es: seq<Payload>): seq<DriverId> {
    if es == [] then []
    else
      var front, e := OfferedDrivers(es[..|es| - 1]), es[|es| - 1];
      if e.DriverOffered? && (front == [] || front[|front| - 1] != e.driverId) then front + [e.driverId] else front
  }

  /** Event number i was decided by some command on the events before it. */
  ghost predicate DecidedAt(orderId: OrderId, es: seq<Payload>, i: nat) {
    i < |es| ==> DispatchAdmits(orderId, es[..i], es[i])
  }

  ghost predicate Decided(orderId: OrderId, es: seq<Payload>) {
    forall i: nat :: DecidedAt(orderId, es, i)
  }

  /** The history up to position i was decided by commands; at its end it replays to `state`
      and has offered the job to `offered`. */
  ghost predicate Tracks(orderId: OrderId, es: seq<Payload>, state: DispatchState, offered: seq<DriverId>, i: nat) {
    && DecidedAt(orderId, es, i)
    && (i == |es| ==> state == DispatchStateOf(es[..i]) && offered == OfferedDrivers(es[..i]))
  }

  lemma DecidedIsLegal(orderId: OrderId, es: seq<Payload>)
    ensures Decided(orderId, es) <==> LegalDispatch(orderId, es)
  {
    DispatchGrammarIsExact(orderId, es);
    if Decided(orderId, es) {
      forall i | 0 <= i < |es| ensures DispatchAdmits(orderId, es[..i], es[i]) {
        assert DecidedAt(orderId, es, i);
      }
    }
  }

  lemma AttemptFacts(orderId: OrderId, stream: seq<Payload>, cmd: DispatchCommand)
    requires Decided(orderId, stream)
    ensures Decided(orderId, Attempt(orderId, stream, cmd))
    ensures DispatchStateOf(Attempt(orderId, stream, cmd)) == After(orderId, DispatchStateOf(stream), cmd)
    ensures OfferedDrivers(Attempt(orderId, stream, cmd)) ==
      var front := OfferedDrivers(stream);
      if cmd.OfferTo? && DecideDispatch(DispatchStateOf(stream), orderId, cmd).Ok?
         && (front == [] || front[|front| - 1] != cmd.driverId)
      then front + [cmd.driverId] else front
  {
    var decision := DecideDispatch(DispatchStateOf(stream), orderId, cmd);
    if decision.Ok? {
      var stream' := stream + [decision.value];
      assert stream'[..|stream|] == stream;
      assert DispatchAdmits(orderId, stream, decision.value);
      forall i: nat ensures DecidedAt(orderId, stream', i) {
        if i < |stream| {
          assert stream'[i] == stream[i];
          assert stream'[..i] == stream[..i];
          assert DecidedAt(orderId, stream, i);
        }
      }
    }
  }

  // ---- Selection ----

  predicate Distinct(s: seq<DriverId>) {
    forall i, j :: 0 <= i < j < |s| ==> s[i] != s[j]
  }

  function Available(online: set<DriverId>, busy: set<DriverId>): DriverId -> bool {
    d => d in online && d !in busy
  }

  /** The nearest-first list of drivers that are online and not busy. */
  function Eligible(geo: seq<DriverId>, online: set<DriverId>, busy: set<DriverId>): seq<DriverId> {
    Filter(Available(online, busy), geo)
  }

  lemma {:induction false} EligibleIsDistinct(geo: seq<DriverId>, online: set<DriverId>, busy: set<DriverId>)
    requires Distinct(geo)
    ensures Distinct(Eligible(geo, online, busy))
  {
    if geo != [] {
      EligibleIsDistinct(geo[..|geo| - 1], online, busy);
    }
  }

  /** The first k drivers of the list have been tried: the search finds number k, or nobody. */
  predicate FindsNext(geo: seq<DriverId>, online: set<DriverId>, busy: set<DriverId>, k: nat, found: Option<DriverId>) {
    var list := Eligible(geo, online, busy);
    k <= |list| && found == if k < |list| then Some(list[k]) else None
  }

  /** The reference: the first driver of the list who accepts in time. */
  function FirstAcceptor(list: seq<DriverId>, inTime: set<DriverId>): Option<nat> {
    if list == [] then None
    else if list[0] in inTime then Some(0)
    else
      var rest := FirstAcceptor(list[1..], inTime);
      if rest.Some? then Some(rest.value + 1) else None
  }

  lemma {:induction false} FirstAcceptorIs(list: seq<DriverId>, inTime: set<DriverId>, k: nat)
    requires k <= |list| && forall i :: 0 <= i < k ==> list[i] !in inTime
    ensures k == |list| ==> FirstAcceptor(list, inTime) == None
    ensures k < |list| && list[k] in inTime ==> FirstAcceptor(list, inTime) == Some(k)
  {
    if list != [] && k > 0 {
      assert forall i :: 0 <= i < k - 1 ==> list[1..][i] == list[i + 1];
      FirstAcceptorIs(list[1..], inTime, k - 1);
    }
  }

  lemma PrefixWithin(list: seq<DriverId>, q: nat, k: nat)
    requires Distinct(list) && q <= |list| && k <= |list|
    requires forall j :: 0 <= j < q ==> list[j] in list[..k]
    ensures q <= k
  {
    assert k < |list| ==> list[k] !in list[..k];
  }

  /** What stands before position i of the geo list and is available is among the first k. */
  lemma PassedOver(geo: seq<DriverId>, p: DriverId -> bool, k: nat, i: nat)
    requires k <= |Filter(p, geo)| && i <= |geo|
    requires forall j :: 0 <= j < i ==> geo[j] in Filter(p, geo)[..k] || !p(geo[j])
    ensures |Filter(p, geo[..i])| <= |Filter(p, geo)|
    ensures forall j :: 0 <= j < |Filter(p, geo[..i])| ==> Filter(p, geo)[j] in Filter(p, geo)[..k]
  {
    var before := Filter(p, geo[..i]);
    FilterPrefix(p, geo, i);
    forall j | 0 <= j < |before| ensures Filter(p, geo)[j] in Filter(p, geo)[..k] {
      assert before[j] == Filter(p, geo)[j] && before[j] in before;
      var m :| 0 <= m < i && geo[..i][m] == before[j];
      assert geo[m] == before[j];
    }
  }

  lemma NotAmongFirst(list: seq<DriverId>, q: nat, k: nat)
    requires q < |list| && k <= |list| && list[q] !in list[..k]
    ensures k <= q
  {
    assert forall j :: 0 <= j < k ==> list[j] in list[..k];
  }

  /** Searching past the first k of the eligible drivers finds the next one. */
  lemma SearchFindsNext(geo: seq<DriverId>, online: set<DriverId>, busy: set<DriverId>, k: nat, i: nat)
    requires Distinct(geo) && k <= |Eligible(geo, online, busy)| && i <= |geo|
    requires i < |geo| ==> Available(online, busy)(geo[i]) && geo[i] !in Eligible(geo, online, busy)[..k]
    requires forall j :: 0 <= j < i ==> geo[j] in Eligible(geo, online, busy)[..k] || !Available(online, busy)(geo[j])
    ensures i < |geo| ==> k < |Eligible(geo, online, busy)| && Eligible(geo, online, busy)[k] == geo[i]
    ensures i == |geo| ==> k == |Eligible(geo, online, busy)|
  {
    var p := Available(online, busy);
    var list := Eligible(geo, online, busy);
    var q := |Filter(p, geo[..i])|;
    EligibleIsDistinct(geo, online, busy);
    PassedOver(geo, p, k, i);
    PrefixWithin(list, q, k);
    FilterPrefix(p, geo, i);
    if i == |geo| {
      assert geo[..i] == geo;
    } else {
      NotAmongFirst(list, q, k);
    }
  }

  function Min(a: int, b: int): int {
    if a < b then a else b
  }

  /** What observers of a run can tell: who was tried, who accepted within the window, and
      whether pickup and delivery came in time. */
  datatype RunLog = RunLog(tried: seq<DriverId>, inTime: set<DriverId>, pickedUpInTime: bool, deliveredInTime: bool)

  /** The outcome is the one the log calls for, and the stream says the same. */
  predicate OutcomeMatches(log: RunLog, status: DispatchStatus, state: DispatchState) {
    && state.status == Some(status)
    && (log.inTime == {} <==> state.driverId.None?)
    && (status == DELIVERED || status == FAILED)
    && (status == DELIVERED <==> log.inTime != {} && log.pickedUpInTime && log.deliveredInTime)
    && (status == FAILED ==> state.reason == Some(if log.inTime == {} then NO_DRIVERS_AVAILABLE else DELIVERY_TIMEOUT))
    && (log.inTime != {} ==> log.tried != [] && state.driverId == Some(log.tried[|log.tried| - 1]))
  }

  /** The answers, fixed beforehand, under which the run went as it did: of the drivers asked, these
      accepted in time and no others. */
  predicate AgreesWith(answers: set<DriverId>, log: RunLog) {
    forall i :: 0 <= i < |log.tried| ==> (log.tried[i] in answers <==> log.tried[i] in log.inTime)
  }

  /** With the first acceptor of the list decided independently of the run: the tried drivers are the
      listed ones up to that one, who has the job; or all of them, and nobody has. */
  predicate GoesToFirstAcceptor(log: RunLog, list: seq<DriverId>, answers: set<DriverId>) {
    match FirstAcceptor(list, answers)
    case Some(i) => i < |list| && log.tried == list[..i + 1] && log.inTime == {list[i]}
    case None => log.tried == list && log.inTime == {}
  }

  function Offerable(eligible: seq<DriverId>, maxOffers: int): seq<DriverId> {
    eligible[..Min(|eligible|, if maxOffers < 0 then 0 else maxOffers)]
  }

  /** With a fleet that does not change: whatever the drivers' answers are, the job goes to the first
      of the eligible drivers, nearest first and at most maxOffers of them, who accepts in time. */
  ghost predicate FirstAcceptorWins(log: RunLog, eligible: seq<DriverId>, maxOffers: int) {
    forall answers :: AgreesWith(answers, log) ==> GoesToFirstAcceptor(log, Offerable(eligible, maxOffers), answers)
  }

  /** The next of the list, or nobody when it is exhausted. */
  predicate ListedNext(list: seq<DriverId>, tried: seq<DriverId>, found: Option<DriverId>) {
    if found.Some? then tried + [found.value] <= list else tried == list
  }

  /** What the workflow does to the world, apart from making offers; `Unreported` is an activity that
      exhausted its retries without reporting back. */
  datatype Effect = Did(cmd: DispatchCommand) | Marked(driverId: DriverId) | Cleared(driverId: DriverId) | Unreported

  /** Every signal that has been sent to the workflow. */
  datatype Signals = Signals(accepted: set<DriverId>, rejected: set<DriverId>, pickedUp: bool, delivered: bool)

  const SILENCE := Signals({}, {}, false, false)

  predicate Grew(before: Signals, after: Signals) {
    && before.accepted <= after.accepted && before.rejected <= after.rejected
    && (before.pickedUp ==> after.pickedUp) && (before.delivered ==> after.delivered)
  }

  /** Everything a completed run does after its offers, in order, given what its waits observed: the
      driver is busy before being recorded, and is released on every way out. */
  function EffectsFor(log: RunLog): seq<Effect> {
    if log.inTime == {} || log.tried == [] then [Did(GiveUp(NO_DRIVERS_AVAILABLE))]
    else
      var d := log.tried[|log.tried| - 1];
      if !log.pickedUpInTime then
        [Marked(d), Did(AcceptBy(d)), Cleared(d), Did(GiveUp(DELIVERY_TIMEOUT))]
      else if !log.deliveredInTime then
        [Marked(d), Did(AcceptBy(d)), Did(PickUp), Cleared(d), Did(GiveUp(DELIVERY_TIMEOUT))]
      else
        [Marked(d), Did(AcceptBy(d)), Did(PickUp), Did(HandOver), Cleared(d)]
  }

  /** The exits of the loop, against the reference. */
  predicate AllTried(eligible: seq<DriverId>, tried: seq<DriverId>, maxOffers: int) {
    tried <= eligible && |tried| == Min(|eligible|, if maxOffers < 0 then 0 else maxOffers)
  }

  lemma AllRefused(eligible: seq<DriverId>, tried: seq<DriverId>, maxOffers: int)
    requires AllTried(eligible, tried, maxOffers)
    ensures FirstAcceptorWins(RunLog(tried, {}, false, false), eligible, maxOffers)
  {
    var log := RunLog(tried, {}, false, false);
    assert Offerable(eligible, maxOffers) == tried;
    forall answers | AgreesWith(answers, log) ensures GoesToFirstAcceptor(log, tried, answers) {
      FirstAcceptorIs(tried, answers, |tried|);
    }
  }

  lemma LastOneAccepted(eligible: seq<DriverId>, log: RunLog, maxOffers: int)
    requires Distinct(eligible) && log.tried != [] && log.tried <= eligible && |log.tried| <= maxOffers
    requires log.inTime == {log.tried[|log.tried| - 1]}
    ensures FirstAcceptorWins(log, eligible, maxOffers)
  {
    var list, k := Offerable(eligible, maxOffers), |log.tried| - 1;
    assert list[..k + 1] == log.tried;
    forall answers | AgreesWith(answers, log) ensures GoesToFirstAcceptor(log, list, answers) {
      assert log.tried[k] in answers;
      assert forall i :: 0 <= i < k ==> list[i] == log.tried[i] && log.tried[i] !in answers;
      FirstAcceptorIs(list, answers, k);
    }
  }

  /** The job is offered to the last driver tried, and nobody has it. */
  predicate IsOffering(state: DispatchState, tried: seq<DriverId>) {
    state == if tried == [] then INITIAL_DISPATCH_STATE
             else DispatchState(Some(OFFERED), Some(tried[|tried| - 1]), None, None)
  }

  /** The machine shared by all dispatch workflows: where it stands, and the steps taken. */
  datatype Ledger = Ledger(fleet: B.Fleet, steps: seq<B.Action>)

  class DispatchRuntime {
    const orderId: OrderId
    /** A frozen fleet changes only by what this workflow does. */
    const frozen: bool
    /** The workflow's id among all that share the busy set, and how things stood before it started. */
    const id: B.WorkflowId
    const start: B.Fleet
    /** Where every workflow stands now, and everything done to the busy set since, by all of them. */
    var ledger: Ledger
    var geo: seq<DriverId>
    var online: set<DriverId>
    var busy: set<DriverId>
    var stream: seq<Payload>
    var accepted: set<DriverId>
    var rejected: set<DriverId>
    var pickedUp: bool
    var delivered: bool
    /** What the stream says so far: its replayed state and the drivers offered. */
    ghost var state: DispatchState
    ghost var offered: seq<DriverId>
    ghost var effects: seq<Effect>
    /** Every signal that has arrived; only the arrival of signals writes this. */
    ghost var heard: Signals
    /** What had been heard when the waits ended; only the waits write these. */
    ghost var inTime: set<DriverId>
    ghost var pickedUpInTime: bool
    ghost var deliveredInTime: bool

    /** This workflow and all others have taken steps of the shared machine, and no other steps. */
    ghost predicate Traced()
      reads this`ledger
    {
      B.IsRun(start, ledger.steps) && B.After(start, ledger.steps) == ledger.fleet && id in ledger.fleet.workflows
    }

    ghost predicate OnFleet()
      reads this`ledger, this`busy
    {
      Traced() && ledger.fleet.busy == busy
    }

    /** Where this workflow stands. */
    ghost function Phase(): B.Phase
      reads this`ledger
    {
      if id in ledger.fleet.workflows then ledger.fleet.workflows[id] else B.Offering
    }

    /** The workflow has returned, or has failed, holding nobody or the driver tried last. */
    ghost predicate Over(result: Option<DispatchStatus>, tried: seq<DriverId>)
      reads this`ledger
    {
      if result.Some? then Phase() == B.Finished
      else Phase().Failed? && (Phase().held.Some? ==> tried != [] && Phase().held == Some(tried[|tried| - 1]))
    }

    ghost function Log(tried: seq<DriverId>): RunLog
      reads this
    {
      RunLog(tried, inTime, pickedUpInTime, deliveredInTime)
    }

    ghost predicate Valid()
      reads this
    {
      && Distinct(geo) && (forall i: nat :: Tracks(orderId, stream, state, offered, i))
      && heard == Signals(accepted, rejected, pickedUp, delivered)
    }

    lemma Observe()
      requires Valid()
      ensures LegalDispatch(orderId, stream) && state == DispatchStateOf(stream) && offered == OfferedDrivers(stream)
    {
      assert Tracks(orderId, stream, state, offered, |stream|);
      assert stream[..|stream|] == stream;
      forall i: nat ensures DecidedAt(orderId, stream, i) {
        assert Tracks(orderId, stream, state, offered, i);
      }
      DecidedIsLegal(orderId, stream);
    }

    constructor (orderId: OrderId, frozen: bool, geo: seq<DriverId>, online: set<DriverId>,
                 id: B.WorkflowId, start: B.Fleet)
      requires Distinct(geo) && id !in start.workflows
      ensures OnFleet() && Phase() == B.Offering && ledger.steps == [B.Start(id)]
      ensures this.id == id && this.start == start
      ensures Valid() && state == INITIAL_DISPATCH_STATE && offered == [] && stream == [] && accepted == rejected == {}
      ensures !pickedUp && !delivered
      ensures Log([]) == RunLog([], {}, false, false) && effects == [] && heard == SILENCE
      ensures this.orderId == orderId && this.frozen == frozen && this.geo == geo && this.online == online
      ensures busy == start.busy
    {
      this.orderId, this.frozen, this.geo, this.online, this.busy := orderId, frozen, geo, online, start.busy;
      this.id, this.start, ledger := id, start, Ledger(B.Step(start, B.Start(id)), [B.Start(id)]);
      stream, accepted, rejected, pickedUp, delivered := [], {}, {}, false, false;
      state, offered := INITIAL_DISPATCH_STATE, [];
      inTime, pickedUpInTime, deliveredInTime, effects, heard := {}, false, false, [], SILENCE;
    }

    /** A step of the shared machine. */
    method Took(a: B.Action)
      requires Traced() && B.Enabled(ledger.fleet, a)
      modifies this`ledger
      ensures Traced() && ledger == Ledger(B.Step(old(ledger).fleet, a), old(ledger).steps + [a])
    {
      B.RunGoesOn(start, ledger.steps, a);
      ledger := Ledger(B.Step(ledger.fleet, a), ledger.steps + [a]);
    }

    /** The driver of the offer has accepted; the next step marks them busy. */
    method Takes(d: DriverId)
      requires OnFleet() && Phase() == B.Offering
      modifies this`ledger
      ensures OnFleet() && Phase() == B.Marking(d, false)
    {
      Took(B.Taken(id, d));
    }

    /** This workflow returns, with nobody left to ask or after its clear. */
    method Returns()
      requires OnFleet() && (Phase() == B.Offering || (Phase().Clearing? && Phase().landed))
      modifies this`ledger
      ensures OnFleet() && Phase() == B.Finished
    {
      Took(if ledger.fleet.workflows[id].Offering? then B.NobodyLeft(id) else B.ClearReported(id));
    }

    /** This workflow fails, holding whom it holds. */
    method Fails()
      requires OnFleet() && !Phase().Finished? && !Phase().Failed?
      modifies this`ledger
      ensures OnFleet() && Phase() == B.Failed(B.HeldBy(old(Phase())))
    {
      Took(B.Fails(id));
    }

    /** Drivers move, go on and off line, and are taken or released by other workflows. */
    method FleetChanges()
      requires Valid() && OnFleet()
      modifies this`geo, this`online, this`busy, this`ledger
      ensures Valid() && OnFleet() && Phase() == old(Phase())
      ensures frozen ==> geo == old(geo) && online == old(online) && busy == old(busy)
    {
      if !frozen {
        var g: seq<DriverId> :| Distinct(g);
        geo, online := g, *;
        OthersTakeSteps();
      }
    }

    method OthersTakeSteps()
      requires OnFleet()
      modifies this`busy, this`ledger
      ensures OnFleet() && Phase() == old(Phase())
    {
      var n: nat := *;
      while n > 0
        invariant OnFleet() && Phase() == old(Phase())
      {
        n := n - 1;
        var a: B.Action := *;
        if a.w != id && B.Enabled(ledger.fleet, a) {
          Took(a);
          busy := ledger.fleet.busy;
        }
      }
    }

    /** Signals of any kind, from any driver, at any time; they are never forgotten. */
    method SignalsArrive()
      requires Valid()
      modifies this`heard, this`accepted, this`rejected, this`pickedUp, this`delivered
      ensures Valid() && Grew(old(heard), heard)
    {
      var a: set<DriverId>, r: set<DriverId>, p: bool, d: bool := *, *, *, *;
      accepted, rejected, pickedUp, delivered := accepted + a, rejected + r, pickedUp || p, delivered || d;
      heard := Signals(heard.accepted + a, heard.rejected + r, heard.pickedUp || p, heard.delivered || d);
    }

    /** Waits until the offer is answered or its window closes. */
    method AwaitAnswer(d: DriverId) returns (resolved: bool)
      requires Valid() && OnFleet()
      modifies this`geo, this`online, this`busy, this`ledger,
        this`heard, this`accepted, this`rejected, this`pickedUp, this`delivered, this`inTime
      ensures Valid() && OnFleet() && Phase() == old(Phase())
      ensures frozen ==> geo == old(geo) && online == old(online) && busy == old(busy)
      ensures Grew(old(heard), heard)
      ensures resolved <==> d in heard.accepted || d in heard.rejected
      ensures inTime == if d in heard.accepted then old(inTime) + {d} else old(inTime)
    {
      SignalsArrive();
      FleetChanges();
      inTime := if d in accepted then inTime + {d} else inTime;
      return d in accepted || d in rejected;
    }

    method AwaitPickup() returns (resolved: bool)
      requires Valid() && OnFleet()
      modifies this`geo, this`online, this`busy, this`ledger,
        this`heard, this`accepted, this`rejected, this`pickedUp, this`delivered, this`pickedUpInTime
      ensures Valid() && OnFleet() && Phase() == old(Phase())
      ensures frozen ==> geo == old(geo) && online == old(online) && busy == old(busy)
      ensures Grew(old(heard), heard) && resolved == heard.pickedUp == pickedUpInTime
    {
      SignalsArrive();
      FleetChanges();
      pickedUpInTime := pickedUp;
      return pickedUp;
    }

    method AwaitDelivery() returns (resolved: bool)
      requires Valid() && OnFleet()
      modifies this`geo, this`online, this`busy, this`ledger,
        this`heard, this`accepted, this`rejected, this`pickedUp, this`delivered, this`deliveredInTime
      ensures Valid() && OnFleet() && Phase() == old(Phase())
      ensures frozen ==> geo == old(geo) && online == old(online) && busy == old(busy)
      ensures Grew(old(heard), heard) && resolved == heard.delivered == deliveredInTime
    {
      SignalsArrive();
      FleetChanges();
      deliveredInTime := delivered;
      return delivered;
    }

    /** Walks the distance-ordered rows; each membership test is a separate read. */
    method SelectNearestAvailableDriver(tenantKnown: bool, exclude: seq<DriverId>) returns (found: Option<DriverId>)
      requires Valid() && OnFleet()
      modifies this`geo, this`online, this`busy, this`ledger
      ensures Valid() && OnFleet() && Phase() == old(Phase())
      ensures frozen ==> geo == old(geo) && online == old(online) && busy == old(busy)
      ensures found.Some? ==> found.value !in exclude && (frozen ==> found.value !in busy)
      ensures !tenantKnown ==> found == None
      ensures frozen && tenantKnown ==>
        match found
        case Some(d) => exists i :: 0 <= i < |geo| && geo[i] == d && Available(online, busy)(d)
                          && forall j :: 0 <= j < i ==> geo[j] in exclude || !Available(online, busy)(geo[j])
        case None => forall j :: 0 <= j < |geo| ==> geo[j] in exclude || !Available(online, busy)(geo[j])
    {
      if !tenantKnown {
        return None;
      }
      FleetChanges();
      var rows := geo;
      for i := 0 to |rows|
        invariant Valid() && OnFleet() && Phase() == old(Phase())
        invariant frozen ==> geo == old(geo) == rows && online == old(online) && busy == old(busy)
        invariant frozen ==> forall j :: 0 <= j < i ==> geo[j] in exclude || !Available(online, busy)(geo[j])
      {
        var driverId := rows[i];
        if driverId in exclude {
          continue;
        }
        FleetChanges();
        if driverId !in online {
          continue;
        }
        FleetChanges();
        if driverId in busy {
          continue;
        }
        return Some(driverId);
      }
      return None;
    }

    /** One attempt: load, decide, append, with nobody else writing the stream. */
    method AttemptOnce(cmd: DispatchCommand)
      requires Valid()
      modifies this`stream, this`state, this`offered
      ensures Valid() && state == After(orderId, old(state), cmd)
      ensures offered == if cmd.OfferTo? && DecideDispatch(old(state), orderId, cmd).Ok?
                            && (old(offered) == [] || old(offered)[|old(offered)| - 1] != cmd.driverId)
                         then old(offered) + [cmd.driverId] else old(offered)
    {
      Observe();
      DecidedIsLegal(orderId, stream);
      AttemptFacts(orderId, stream, cmd);
      stream := Attempt(orderId, stream, cmd);
      state, offered := DispatchStateOf(stream), OfferedDrivers(stream);
      assert stream[..|stream|] == stream;
      forall i: nat ensures Tracks(orderId, stream, state, offered, i) {
        assert DecidedAt(orderId, stream, i);
      }
    }

    /** A record activity: some attempts, the last of which may or may not report back. */
    method Record(cmd: DispatchCommand) returns (ok: bool)
      requires Valid()
      modifies this`stream, this`state, this`offered, this`effects
      ensures Valid()
      ensures effects == old(effects) + if !ok then [Unreported] else if cmd.OfferTo? then [] else [Did(cmd)]
      ensures state == After(orderId, old(state), cmd) || (!ok && state == old(state))
      ensures offered == old(offered) || (cmd.OfferTo? && offered == old(offered) + [cmd.driverId])
      ensures ok && cmd.OfferTo? && DecideDispatch(old(state), orderId, cmd).Ok? && cmd.driverId !in old(offered)
        ==> offered == old(offered) + [cmd.driverId]
    {
      var attempts: nat := *;
      ok := false;
      while attempts > 0
        invariant Valid() && effects == old(effects)
        invariant state == After(orderId, old(state), cmd) || (!ok && state == old(state))
        invariant offered == old(offered) || (cmd.OfferTo? && offered == old(offered) + [cmd.driverId])
        invariant ok && cmd.OfferTo? && DecideDispatch(old(state), orderId, cmd).Ok? && cmd.driverId !in old(offered)
          ==> offered == old(offered) + [cmd.driverId]
      {
        attempts := attempts - 1;
        RetryIsIdempotent(orderId, old(state), cmd);
        AttemptOnce(cmd);
        ok := true;
      }
      var reported: bool := *;
      ok := ok && reported;
      effects := effects + if !ok then [Unreported] else if cmd.OfferTo? then [] else [Did(cmd)];
    }

    method MarkBusy(d: DriverId) returns (ok: bool)
      requires OnFleet() && Phase() == B.Marking(d, false)
      modifies this`busy, this`effects, this`ledger
      ensures OnFleet() && if ok then Phase() == B.Holding(d) else Phase().Marking? && Phase().driverId == d
      ensures effects == old(effects) + [if ok then Marked(d) else Unreported]
      ensures busy == old(busy) + {d} || (!ok && busy == old(busy))
    {
      var reached: bool := *;
      if reached {
        busy := busy + {d};
        Took(B.MarkAttempt(id));
      }
      ok := *;
      ok := ok && reached;
      if ok {
        Took(B.MarkReported(id));
      }
      effects := effects + [if ok then Marked(d) else Unreported];
    }

    method ClearBusy(d: DriverId) returns (ok: bool)
      requires OnFleet() && Phase() == B.Holding(d)
      modifies this`busy, this`effects, this`ledger
      ensures OnFleet() && Phase().Clearing? && Phase().driverId == d && (ok ==> Phase().landed)
      ensures effects == old(effects) + [if ok then Cleared(d) else Unreported]
      ensures busy == old(busy) - {d} || (!ok && busy == old(busy))
    {
      var reached: bool := *;
      Took(B.WaitsOver(id));
      if reached {
        busy := busy - {d};
        Took(B.ClearAttempt(id));
      }
      ok := *;
      ok := ok && reached;
      effects := effects + [if ok then Cleared(d) else Unreported];
    }

    /** The driver list of a frozen fleet is searched in its own order. */
    lemma SelectedIsNext(tried: seq<DriverId>, found: Option<DriverId>)
      requires Valid() && tried <= Eligible(geo, online, busy)
      requires match found
        case Some(d) =>
          && d !in tried
          && (exists i :: 0 <= i < |geo| && geo[i] == d && Available(online, busy)(d)
                && forall j :: 0 <= j < i ==> geo[j] in tried || !Available(online, busy)(geo[j]))
        case None => forall j :: 0 <= j < |geo| ==> geo[j] in tried || !Available(online, busy)(geo[j])
      ensures ListedNext(Eligible(geo, online, busy), tried, found)
    {
      var i := |geo|;
      if found.Some? {
        i :| 0 <= i < |geo| && geo[i] == found.value && Available(online, busy)(found.value)
             && forall j :: 0 <= j < i ==> geo[j] in tried || !Available(online, busy)(geo[j]);
      }
      assert Eligible(geo, online, busy)[..|tried|] == tried;
      SearchFindsNext(geo, online, busy, |tried|, i);
    }

    /** Release the driver and fail the dispatch when pickup or delivery does not happen in time. */
    method FailAfterAccept(d: DriverId) returns (result: Option<DispatchStatus>)
      requires Valid() && OnFleet() && Phase() == B.Holding(d)
      requires state.status == Some(DISPATCHED) || state.status == Some(PICKED_UP)
      modifies this`busy, this`stream, this`state, this`offered, this`effects, this`ledger
      ensures Valid() && OnFleet() && Over(result, [d]) && offered == old(offered)
      ensures result.Some? ==> effects == old(effects) + [Cleared(d), Did(GiveUp(DELIVERY_TIMEOUT))]
      ensures result.None? ==> Unreported in effects
      ensures state.driverId == old(state).driverId
      ensures result.Some? ==> busy == old(busy) - {d} && result == Some(FAILED)
      ensures result.Some? ==> state == old(state).(status := Some(FAILED), reason := Some(DELIVERY_TIMEOUT))
    {
      var cleared := ClearBusy(d);
      if !cleared {
        Fails();
        return None;
      }
      var ok := Record(GiveUp(DELIVERY_TIMEOUT));
      if !ok {
        Fails();
        return None;
      }
      Returns();
      return Some(FAILED);
    }

    /** The order is with the driver: wait for delivery. */
    method AwaitAndDeliver(d: DriverId, ghost tried: seq<DriverId>) returns (result: Option<DispatchStatus>)
      requires Valid() && tried != [] && d == tried[|tried| - 1] && Log(tried) == RunLog(tried, {d}, true, false)
      requires OnFleet() && Phase() == B.Holding(d)
      requires state == DispatchState(Some(PICKED_UP), Some(d), Some(d), None)
      requires effects == [Marked(d), Did(AcceptBy(d)), Did(PickUp)]
      modifies this`geo, this`online, this`busy, this`ledger, this`stream, this`state, this`offered,
        this`heard, this`accepted, this`rejected, this`pickedUp, this`delivered, this`deliveredInTime, this`effects
      ensures Valid() && offered == old(offered) && state.driverId == Some(d)
      ensures OnFleet() && Over(result, tried)
      ensures result.Some? ==> OutcomeMatches(Log(tried), result.value, state)
      ensures frozen ==> geo == old(geo) && online == old(online) && (result.Some? ==> busy == old(busy) - {d})
      ensures result.Some? ==> d !in busy
      ensures if result.Some? then effects == EffectsFor(Log(tried)) else Unreported in effects
      ensures Grew(old(heard), heard) && deliveredInTime == heard.delivered
    {
      var resolved := AwaitDelivery();
      if !resolved {
        result := FailAfterAccept(d);
        return;
      }
      result := Deliver(d);
    }

    /** Delivered in time: record it, release the driver and return. */
    method Deliver(d: DriverId) returns (result: Option<DispatchStatus>)
      requires Valid() && OnFleet() && Phase() == B.Holding(d)
      requires state == DispatchState(Some(PICKED_UP), Some(d), Some(d), None)
      modifies this`busy, this`ledger, this`stream, this`state, this`offered, this`effects
      ensures Valid() && OnFleet() && Over(result, [d]) && offered == old(offered) && state.driverId == Some(d)
      ensures result.Some? ==>
        && result == Some(DELIVERED) && busy == old(busy) - {d} && state == old(state).(status := Some(DELIVERED))
        && effects == old(effects) + [Did(HandOver), Cleared(d)]
      ensures result.None? ==> Unreported in effects
    {
      var ok := Record(HandOver);
      if !ok {
        Fails();
        return None;
      }
      var cleared := ClearBusy(d);
      if !cleared {
        Fails();
        return None;
      }
      Returns();
      return Some(DELIVERED);
    }

    /** The job is the driver's: wait for pickup, then for delivery. */
    method Fulfil(d: DriverId, ghost tried: seq<DriverId>) returns (result: Option<DispatchStatus>)
      requires Valid() && tried != [] && d == tried[|tried| - 1] && Log(tried) == RunLog(tried, {d}, false, false)
      requires OnFleet() && Phase() == B.Holding(d)
      requires state == DispatchState(Some(DISPATCHED), Some(d), Some(d), None)
      requires effects == [Marked(d), Did(AcceptBy(d))]
      modifies this`geo, this`online, this`busy, this`ledger, this`stream, this`state, this`offered,
        this`heard, this`accepted, this`rejected, this`pickedUp, this`delivered,
        this`pickedUpInTime, this`deliveredInTime, this`effects
      ensures Valid() && offered == old(offered) && state.driverId == Some(d)
      ensures OnFleet() && Over(result, tried)
      ensures result.Some? ==> OutcomeMatches(Log(tried), result.value, state)
      ensures frozen ==> geo == old(geo) && online == old(online) && (result.Some? ==> busy == old(busy) - {d})
      ensures result.Some? ==> d !in busy
      ensures if result.Some? then effects == EffectsFor(Log(tried)) else Unreported in effects
      ensures Grew(old(heard), heard) && (result.Some? ==> WaitsHeard())
    {
      var resolved := AwaitPickup();
      if !resolved {
        result := FailAfterAccept(d);
        return;
      }
      result := PickUpAndDeliver(d, tried);
    }

    /** Picked up in time: record it, then wait for delivery. */
    method PickUpAndDeliver(d: DriverId, ghost tried: seq<DriverId>) returns (result: Option<DispatchStatus>)
      requires Valid() && tried != [] && d == tried[|tried| - 1] && Log(tried) == RunLog(tried, {d}, true, false)
      requires OnFleet() && Phase() == B.Holding(d)
      requires state == DispatchState(Some(DISPATCHED), Some(d), Some(d), None)
      requires effects == [Marked(d), Did(AcceptBy(d))]
      modifies this`geo, this`online, this`busy, this`ledger, this`stream, this`state, this`offered,
        this`heard, this`accepted, this`rejected, this`pickedUp, this`delivered, this`deliveredInTime, this`effects
      ensures Valid() && offered == old(offered) && state.driverId == Some(d)
      ensures OnFleet() && Over(result, tried)
      ensures result.Some? ==> OutcomeMatches(Log(tried), result.value, state)
      ensures frozen ==> geo == old(geo) && online == old(online) && (result.Some? ==> busy == old(busy) - {d})
      ensures result.Some? ==> d !in busy
      ensures if result.Some? then effects == EffectsFor(Log(tried)) else Unreported in effects
      ensures Grew(old(heard), heard) && (result.Some? ==> deliveredInTime == heard.delivered)
    {
      var ok := Record(PickUp);
      if !ok {
        Fails();
        return None;
      }
      result := AwaitAndDeliver(d, tried);
    }

    /** The driver accepted: mark busy, record, and see the job through. */
    method AfterAccept(d: DriverId, ghost tried: seq<DriverId>, ghost eligible: seq<DriverId>, ghost maxOffers: int)
      returns (result: Option<DispatchStatus>)
      requires Valid() && tried != [] && d == tried[|tried| - 1] && Log(tried) == RunLog(tried, {d}, false, false)
      requires IsOffering(state, tried) && effects == [] && OnFleet() && Phase() == B.Offering
      requires Distinct(tried) && offered == tried && d in heard.accepted
      modifies this`geo, this`online, this`busy, this`ledger, this`stream, this`state, this`offered,
        this`heard, this`accepted, this`rejected, this`pickedUp, this`delivered,
        this`pickedUpInTime, this`deliveredInTime, this`effects
      ensures Valid() && Ended(result, tried) && Grew(old(heard), heard) && inTime == {d}
      ensures frozen ==> geo == old(geo) && online == old(online) && (result.Some? ==> busy == old(busy) - {d})
      ensures result.Some? ==> d !in busy
      ensures Distinct(eligible) && tried <= eligible && |tried| <= maxOffers ==>
        FirstAcceptorWins(Log(tried), eligible, maxOffers)
    {
      if Distinct(eligible) && tried <= eligible && |tried| <= maxOffers {
        forall p, q ensures FirstAcceptorWins(RunLog(tried, {d}, p, q), eligible, maxOffers) {
          LastOneAccepted(eligible, RunLog(tried, {d}, p, q), maxOffers);
        }
      }
      var ok := MarkAndAccept(d);
      if !ok {
        return None;
      }
      result := Fulfil(d, tried);
    }

    /** The driver is marked busy before the acceptance is recorded. */
    method MarkAndAccept(d: DriverId) returns (ok: bool)
      requires Valid() && OnFleet() && Phase() == B.Offering
      requires state == DispatchState(Some(OFFERED), Some(d), None, None)
      modifies this`busy, this`ledger, this`stream, this`state, this`offered, this`effects
      ensures Valid() && OnFleet() && offered == old(offered)
      ensures if ok then Phase() == B.Holding(d) else Over(None, [d])
      ensures if ok then busy == old(busy) + {d} && effects == old(effects) + [Marked(d), Did(AcceptBy(d))]
                         && state == DispatchState(Some(DISPATCHED), Some(d), Some(d), None)
              else Unreported in effects && (state.driverId == None || state.driverId == Some(d))
    {
      Takes(d);
      var marked := MarkBusy(d);
      if !marked {
        Fails();
        return false;
      }
      ok := Record(AcceptBy(d));
      if !ok {
        Fails();
      }
    }

    /** Ask the next driver: nobody is left, or this one did or did not accept in time. */
    method OfferNext(tenantKnown: bool, tried: seq<DriverId>)
      returns (candidate: Option<DriverId>, ok: bool, taken: bool)
      requires Valid() && offered == tried && Distinct(tried) && IsOffering(state, tried)
      requires OnFleet() && Phase() == B.Offering
      modifies this`geo, this`online, this`busy, this`ledger, this`stream, this`state, this`offered,
        this`heard, this`accepted, this`rejected, this`pickedUp, this`delivered, this`inTime, this`effects
      ensures Valid() && OnFleet() && if ok then Phase() == B.Offering else Over(None, [])
      ensures effects == old(effects) + (if ok then [] else [Unreported]) && Grew(old(heard), heard)
      ensures candidate.Some? && ok ==> (taken <==> candidate.value in heard.accepted)
      ensures candidate.None? ==> heard == old(heard)
      ensures frozen ==> geo == old(geo) && online == old(online) && busy == old(busy)
      ensures candidate.Some? ==> tenantKnown && candidate.value !in tried && (frozen ==> candidate.value !in busy)
      ensures candidate.None? ==> ok && state == old(state) && offered == tried && inTime == old(inTime)
      ensures candidate.Some? && ok ==> offered == tried + [candidate.value] && IsOffering(state, offered)
      ensures candidate.Some? && !ok ==> offered <= tried + [candidate.value] && state.driverId == None
      ensures candidate.Some? && ok ==> inTime == if taken then old(inTime) + {candidate.value} else old(inTime)
      ensures frozen && tenantKnown && tried <= old(Eligible(geo, online, busy))
        ==> ListedNext(old(Eligible(geo, online, busy)), tried, candidate)
    {
      candidate := SelectNext(tenantKnown, tried);
      if candidate.None? {
        return candidate, true, false;
      }
      ok, taken := MakeOffer(candidate.value, tried);
    }

    method SelectNext(tenantKnown: bool, tried: seq<DriverId>) returns (candidate: Option<DriverId>)
      requires Valid() && OnFleet()
      modifies this`geo, this`online, this`busy, this`ledger
      ensures Valid() && OnFleet() && Phase() == old(Phase())
      ensures frozen ==> geo == old(geo) && online == old(online) && busy == old(busy)
      ensures candidate.Some? ==> tenantKnown && candidate.value !in tried && (frozen ==> candidate.value !in busy)
      ensures frozen && tenantKnown && tried <= old(Eligible(geo, online, busy))
        ==> ListedNext(old(Eligible(geo, online, busy)), tried, candidate)
    {
      candidate := SelectNearestAvailableDriver(tenantKnown, tried);
      if frozen && tenantKnown && tried <= Eligible(geo, online, busy) {
        SelectedIsNext(tried, candidate);
      }
    }

    /** Offer the job to the driver and wait for the answer. */
    method MakeOffer(d: DriverId, ghost tried: seq<DriverId>) returns (ok: bool, taken: bool)
      requires Valid() && offered == tried && d !in tried && IsOffering(state, tried)
      requires OnFleet() && Phase() == B.Offering
      modifies this`geo, this`online, this`busy, this`ledger, this`stream, this`state, this`offered,
        this`heard, this`accepted, this`rejected, this`pickedUp, this`delivered, this`inTime, this`effects
      ensures Valid() && OnFleet() && if ok then Phase() == B.Offering else Over(None, [])
      ensures effects == old(effects) + (if ok then [] else [Unreported]) && Grew(old(heard), heard)
      ensures ok ==> (taken <==> d in heard.accepted)
      ensures frozen ==> geo == old(geo) && online == old(online) && busy == old(busy)
      ensures ok ==> offered == tried + [d] && IsOffering(state, offered)
      ensures !ok ==> offered <= tried + [d] && state.driverId == None
      ensures ok ==> inTime == if taken then old(inTime) + {d} else old(inTime)
    {
      ok := Record(OfferTo(d));
      if !ok {
        Fails();
        return false, false;
      }
      var resolved := AwaitAnswer(d);
      taken := resolved && d in accepted;
    }

    /** Every driver asked has refused or let the offer lapse. */
    method NobodyAccepted(ghost tried: seq<DriverId>, ghost eligible: seq<DriverId>, ghost maxOffers: int)
      returns (result: Option<DispatchStatus>)
      requires Valid() && Searching(tried)
      modifies this`stream, this`state, this`offered, this`effects, this`ledger
      ensures Valid() && Ended(result, tried) && state.driverId == None
      ensures AllTried(eligible, tried, maxOffers) ==> FirstAcceptorWins(Log(tried), eligible, maxOffers)
    {
      if AllTried(eligible, tried, maxOffers) {
        AllRefused(eligible, tried, maxOffers);
      }
      result := EndUnassigned();
    }

    method EndUnassigned() returns (result: Option<DispatchStatus>)
      requires Valid() && OnFleet() && Phase() == B.Offering && state.driverId == None
      requires state.status.None? || state.status == Some(OFFERED)
      modifies this`stream, this`state, this`offered, this`effects, this`ledger
      ensures Valid() && OnFleet() && Over(result, []) && offered == old(offered) && state.driverId == None
      ensures result.Some? ==>
        && result == Some(FAILED) && effects == old(effects) + [Did(GiveUp(NO_DRIVERS_AVAILABLE))]
        && state == old(state).(status := Some(FAILED), reason := Some(NO_DRIVERS_AVAILABLE))
      ensures result.None? ==> Unreported in effects
    {
      var ok := Record(GiveUp(NO_DRIVERS_AVAILABLE));
      if !ok {
        Fails();
        return None;
      }
      Returns();
      return Some(FAILED);
    }

    /** The drivers tried so far were all offered the job, and none of them has it. */
    ghost predicate Searching(tried: seq<DriverId>)
      reads this
    {
      && OnFleet() && Phase() == B.Offering && Distinct(tried)
      && offered == tried && IsOffering(state, tried)
      && Log(tried) == RunLog(tried, {}, false, false) && effects == []
      && LastUnanswered(tried)
    }

    /** The waits for pickup and delivery ended by the signals that had arrived, however early. */
    ghost predicate WaitsHeard()
      reads this`heard, this`pickedUpInTime, this`deliveredInTime
    {
      && (pickedUpInTime <==> heard.pickedUp)
      && (pickedUpInTime ==> (deliveredInTime <==> heard.delivered))
    }

    /** How a run may end. */
    ghost predicate Ended(result: Option<DispatchStatus>, tried: seq<DriverId>)
      reads this
    {
      && OnFleet() && Over(result, tried) && Distinct(tried) && offered <= tried
      && (state.driverId.Some? ==>
            tried != [] && inTime == {tried[|tried| - 1]} && state.driverId == Some(tried[|tried| - 1]))
      && (result.Some? ==>
            OutcomeMatches(Log(tried), result.value, state) && offered == tried && effects == EffectsFor(Log(tried)))
      && (result.None? ==> Unreported in effects)
      && (result.Some? ==> inTime <= heard.accepted && if inTime == {} then LastUnanswered(tried) else WaitsHeard())
    }

    /** The driver asked last has not accepted. */
    ghost predicate LastUnanswered(tried: seq<DriverId>)
      reads this`heard
    {
      tried != [] ==> tried[|tried| - 1] !in heard.accepted
    }

    /** One turn of the loop. */
    method OfferTurn(tenantKnown: bool, tried: seq<DriverId>, maxOffers: int, ghost eligible: seq<DriverId>)
      returns (over: bool, result: Option<DispatchStatus>, tried': seq<DriverId>)
      requires Valid() && Searching(tried) && |tried| < maxOffers && Distinct(eligible)
      modifies this
      ensures Valid() && if over then Ended(result, tried') else Searching(tried')
      ensures Grew(old(heard), heard) && tried <= tried'
      ensures forall d :: d in tried' && d !in tried && d in old(heard).accepted ==>
        over && (result.Some? ==> d in inTime)
      ensures |tried'| <= |tried| + 1 && (!over ==> |tried'| == |tried| + 1) && (!tenantKnown ==> tried' == tried)
      ensures frozen ==> (!over ==> geo == old(geo) && online == old(online))
                         && (!over || result.Some? ==> busy == old(busy))
      ensures frozen && tenantKnown && tried <= eligible == old(Eligible(geo, online, busy)) ==>
        if over then result.Some? ==> FirstAcceptorWins(Log(tried'), eligible, maxOffers) else tried' <= eligible
    {
      var candidate, ok, taken := OfferNext(tenantKnown, tried);
      if candidate.None? {
        result := NobodyAccepted(tried, eligible, maxOffers);
        return true, result, tried;
      }
      tried' := tried + [candidate.value];
      if !ok {
        return true, None, tried';
      }
      over, result := taken, None;
      if taken {
        result := AfterAccept(candidate.value, tried', eligible, maxOffers);
      }
    }

    method OfferLoop(tenantKnown: bool, maxOffers: int) returns (result: Option<DispatchStatus>, tried: seq<DriverId>)
      requires Valid() && Searching([])
      modifies this
      ensures Valid() && Ended(result, tried)
      ensures Grew(old(heard), heard)
      ensures result.Some? ==> forall d :: d in tried && d in old(heard).accepted ==> d in inTime
      ensures |tried| <= (if maxOffers < 0 then 0 else maxOffers) && (!tenantKnown ==> tried == [])
      ensures frozen && tenantKnown && result.Some? ==>
        FirstAcceptorWins(Log(tried), old(Eligible(geo, online, busy)), maxOffers)
      ensures frozen && result.Some? ==> busy == old(busy)
    {
      ghost var eligible := Eligible(geo, online, busy);
      EligibleIsDistinct(geo, online, busy);
      tried := [];
      for i := 0 to if maxOffers < 0 then 0 else maxOffers
        invariant Valid() && Searching(tried) && |tried| == i && (!tenantKnown ==> tried == [])
        invariant Grew(old(heard), heard) && forall d :: d in tried ==> d !in old(heard).accepted
        invariant frozen ==> geo == old(geo) && online == old(online) && busy == old(busy)
        invariant frozen && tenantKnown ==> tried <= eligible
      {
        var over;
        over, result, tried := OfferTurn(tenantKnown, tried, maxOffers, eligible);
        if over {
          return;
        }
      }
      result := NobodyAccepted(tried, eligible, maxOffers);
    }

    /** The whole workflow, on any fleet and any signals. No driver is tried twice and at most
        maxOffers are; only the last driver tried can hold the job, and only by accepting within the
        window; the result, the stream and the failure reason agree with what the waits observed.
        `None` stands for a workflow that failed, and it fails only when an activity exhausted its
        retries. No signal is ever forgotten, however early it came: a driver asked who had accepted has
        the job, and a job picked up and delivered by the time the waits ended is delivered. */
    method DriverDispatchWorkflow(tenantKnown: bool, maxOffers: int)
      returns (result: Option<DispatchStatus>, tried: seq<DriverId>)
      requires Valid() && stream == [] && Log([]) == RunLog([], {}, false, false) && effects == []
      requires OnFleet() && Phase() == B.Offering
      modifies this
      ensures Valid() && OnFleet() && Over(result, tried)
      ensures B.NoLeak(start) ==> forall d :: d in busy ==> B.Held(ledger.fleet, d)
      ensures LegalDispatch(orderId, stream) && state == DispatchStateOf(stream) && offered == OfferedDrivers(stream)
      ensures Distinct(tried) && |tried| <= (if maxOffers < 0 then 0 else maxOffers) && (!tenantKnown ==> tried == [])
      ensures offered <= tried
      ensures state.driverId.Some? ==>
        tried != [] && inTime == {tried[|tried| - 1]} && state.driverId == Some(tried[|tried| - 1])
      ensures result.Some? ==>
        OutcomeMatches(Log(tried), result.value, state) && offered == tried && effects == EffectsFor(Log(tried))
      ensures result.None? <==> Unreported in effects
      ensures Grew(old(heard), heard)
      ensures result.Some? ==> forall d :: d in tried && d in old(heard).accepted ==> state.driverId == Some(d)
      ensures result.Some? && state.driverId.Some? ==>
        && state.driverId.value in heard.accepted
        && (result == Some(DELIVERED) <==> heard.pickedUp && heard.delivered)
      ensures result.Some? && state.driverId.None? && tried != [] ==> tried[|tried| - 1] !in heard.accepted
      ensures frozen && tenantKnown && result.Some? ==>
        FirstAcceptorWins(Log(tried), old(Eligible(geo, online, busy)), maxOffers)
      ensures frozen && result.Some? ==> busy == old(busy)
    {
      Observe();
      result, tried := OfferLoop(tenantKnown, maxOffers);
      Observe();
      if B.NoLeak(start) {
        B.RunKeepsNoLeak(start, ledger.steps);
      }
    }
  }
}
