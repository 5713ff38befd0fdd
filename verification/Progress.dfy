/** That the path of an event can always be walked to its end: from every moment of every run of the
    pipeline, whatever was lost or left half done, poller and consumers alone can bring any document
    to the fold of its whole stream. */
module Progress {
  import opened Contracts
  import opened AggregateStore
  import opened Poller
  import opened Projection
  import opened Pipeline

  ghost predicate Takes(s: Pipe, acts: seq<Action>)
    decreases |acts|
  {
    acts == [] || (Enabled(s, acts[0]) && Takes(Step(s, acts[0]), acts[1..]))
  }

  ghost function EndOf(s: Pipe, acts: seq<Action>): Pipe
    requires Takes(s, acts)
    decreases |acts|
  {
    if acts == [] then s else EndOf(Step(s, acts[0]), acts[1..])
  }

  /** There is a way on from s to s'. */
  ghost predicate Leads(s: Pipe, s': Pipe) {
    exists acts :: Takes(s, acts) && EndOf(s, acts) == s'
  }

  lemma LeadsHere(s: Pipe)
    ensures Leads(s, s)
  {
    assert Takes(s, []) && EndOf(s, []) == s;
  }

  lemma LeadsOn(s: Pipe, act: Action, s': Pipe)
    requires Enabled(s, act) && Leads(Step(s, act), s')
    ensures Leads(s, s')
  {
    var acts :| Takes(Step(s, act), acts) && EndOf(Step(s, act), acts) == s';
    assert ([act] + acts)[1..] == acts;
    assert Takes(s, [act] + acts) && EndOf(s, [act] + acts) == s';
  }

  lemma {:induction false} LeadsFrom(s: Pipe, acts: seq<Action>, s'': Pipe)
    requires Takes(s, acts) && Leads(EndOf(s, acts), s'')
    ensures Leads(s, s'')
    decreases |acts|
  {
    if acts != [] {
      LeadsFrom(Step(s, acts[0]), acts[1..], s'');
      LeadsOn(s, acts[0], s'');
    }
  }

  lemma LeadsThrough(s: Pipe, s': Pipe, s'': Pipe)
    requires Leads(s, s') && Leads(s', s'')
    ensures Leads(s, s'')
  {
    var acts :| Takes(s, acts) && EndOf(s, acts) == s';
    LeadsFrom(s, acts, s'');
  }

  lemma OneStep(s: Pipe, act: Action)
    requires Enabled(s, act)
    ensures Leads(s, Step(s, act))
  {
    LeadsHere(Step(s, act));
    LeadsOn(s, act, Step(s, act));
  }

  /** A moment of some run. */
  ghost predicate Reached(s: Pipe) {
    Leads(START, s)
  }

  lemma {:induction false} TakesKeepsInv(s: Pipe, acts: seq<Action>)
    requires Inv(s) && Takes(s, acts)
    ensures Inv(EndOf(s, acts))
    decreases |acts|
  {
    if acts != [] {
      StepKeepsInv(s, acts[0]);
      TakesKeepsInv(Step(s, acts[0]), acts[1..]);
    }
  }

  lemma ReachedInv(s: Pipe)
    requires Reached(s)
    ensures Inv(s)
  {
    var acts :| Takes(START, acts) && EndOf(START, acts) == s;
    StartInv();
    TakesKeepsInv(START, acts);
  }

  lemma {:induction false} RunIsReached(states: seq<Pipe>, k: nat)
    requires IsRun(states) && k < |states|
    ensures Reached(states[k])
  {
    if k == 0 {
      LeadsHere(START);
    } else {
      RunIsReached(states, k - 1);
      NextLeads(states[k - 1], states[k]);
      LeadsThrough(START, states[k - 1], states[k]);
    }
  }

  lemma NextLeads(s: Pipe, s': Pipe)
    requires Next(s, s')
    ensures Leads(s, s')
  {
    var act :| Enabled(s, act) && s' == Step(s, act);
    OneStep(s, act);
  }

  // ---- The poller ----

  function PollOf(s: Pipe): PollState {
    PollState(s.sys.db.outbox, s.log, s.batch, s.published)
  }

  lemma WithPollTwice(s: Pipe, p: PollState, q: PollState)
    ensures PollOf(WithPoll(s, p)) == p && WithPoll(WithPoll(s, p), q) == WithPoll(s, q)
    ensures WithPoll(s, PollOf(s)) == s
  {
  }

  lemma {:induction false} Effects(s: Pipe, n: nat)
    ensures Leads(s, WithPoll(s, WorkN(PollOf(s), n)))
  {
    if n == 0 {
      LeadsHere(s);
      WithPollTwice(s, PollOf(s), PollOf(s));
    } else {
      var p := WorkN(PollOf(s), n - 1);
      Effects(s, n - 1);
      WithPollTwice(s, p, Work(p));
      OneEffect(WithPoll(s, p));
      LeadsThrough(s, WithPoll(s, p), WithPoll(s, Work(p)));
    }
  }

  lemma OneEffect(s: Pipe)
    ensures Leads(s, WithPoll(s, Work(PollOf(s))))
  {
    OneStep(s, PollEffect);
  }

  lemma IdsAreDistinct(s: Pipe)
    requires Reached(s)
    ensures IdsDistinct(s.sys.db.outbox)
  {
    ReachedInv(s);
    var db := s.sys.db;
    forall i, j | 0 <= i < j < |db.outbox| ensures db.outbox[i].id != db.outbox[j].id {
      assert Paired(db.events[i], db.outbox[i]) && Paired(db.events[j], db.outbox[j]);
    }
  }

  /** What the poller leaves alone. */
  predicate OnlyPolled(s: Pipe, s': Pipe) {
    && s'.sys.db.events == s.sys.db.events && s'.sys.pending == s.sys.pending
    && s'.cursors == s.cursors && s'.rm == s.rm && s'.batch == []
  }

  lemma OnePoll(s: Pipe) returns (s': Pipe)
    requires Reached(s) && s.batch == []
    ensures Leads(s, s') && OnlyPolled(s, s')
    ensures Polled(s.sys.db.outbox, s.log, s'.sys.db.outbox, s'.log)
  {
    var s1 := Step(s, Poll);
    OneStep(s, Poll);
    var outbox, log := s.sys.db.outbox, s.log;
    assert PollOf(s1) == StartPoll(outbox, log);
    IdsAreDistinct(s);
    var chosen := CompletePoll(outbox, log);
    Effects(s1, 2 * |chosen|);
    s' := WithPoll(s1, WorkN(PollOf(s1), 2 * |chosen|));
    LeadsThrough(s, s1, s');
  }

  /** Polling until nothing is left. */
  lemma {:induction false} SendAll(s: Pipe) returns (s': Pipe)
    requires Reached(s) && s.batch == []
    ensures Leads(s, s') && OnlyPolled(s, s')
    ensures forall o :: o in s'.sys.db.outbox ==> o.sent
    decreases Unsent(s.sys.db.outbox)
  {
    NoneUnsent(s.sys.db.outbox);
    if Unsent(s.sys.db.outbox) == 0 {
      LeadsHere(s);
      s' := s;
    } else {
      var s1 := OnePoll(s);
      IdsAreDistinct(s);
      PolledFacts(s.sys.db.outbox, s.log, s1.sys.db.outbox, s1.log);
      LeadsThrough(START, s, s1);
      s' := SendAll(s1);
      LeadsThrough(s, s1, s');
    }
  }

  // ---- A consumer ----

  function Behind(s: Pipe, lane: Lane): int {
    var c := CursorAt(s.cursors, lane);
    3 * (|LaneLog(s.log, lane)| - c.offset) - if c.stage.Reading? then 0 else if c.stage.Upserted? then 1 else 2
  }

  predicate AtEnd(s: Pipe, lane: Lane) {
    CursorAt(s.cursors, lane).offset == |LaneLog(s.log, lane)|
  }

  /** What a consumer leaves alone. */
  predicate OnlyConsumed(s: Pipe, s': Pipe) {
    s'.sys == s.sys && s'.log == s.log
  }

  /** The next thing the lane's consumer does. */
  function NextAct(s: Pipe, lane: Lane): Action {
    var stage := CursorAt(s.cursors, lane).stage;
    if stage.Reading? then DoUpsert(lane, 0) else if stage.Upserted? then DoRecord(lane) else DoCommit(lane)
  }

  lemma Advances(s: Pipe, lane: Lane)
    requires CursorAt(s.cursors, lane).offset < |LaneLog(s.log, lane)|
    ensures Enabled(s, NextAct(s, lane)) && OnlyConsumed(s, Step(s, NextAct(s, lane)))
    ensures Behind(Step(s, NextAct(s, lane)), lane) < Behind(s, lane)
  {
  }

  lemma CursorInLane(s: Pipe, a: Agg)
    requires Reached(s) && Clean(a)
    ensures CursorAt(s.cursors, LaneOf(a)).offset <= |LaneLog(s.log, LaneOf(a))|
  {
    ReachedInv(s);
    assert CursorOk(s.log, CursorAt(s.cursors, LaneOf(a)), s.rm, a);
  }

  /** Consuming until the end of the lane. */
  lemma {:induction false} ConsumeAll(s: Pipe, a: Agg) returns (s': Pipe)
    requires Reached(s) && Clean(a)
    ensures Leads(s, s') && OnlyConsumed(s, s') && AtEnd(s', LaneOf(a))
    decreases Behind(s, LaneOf(a)) + 3
  {
    CursorInLane(s, a);
    if AtEnd(s, LaneOf(a)) {
      LeadsHere(s);
      s' := s;
    } else {
      Advances(s, LaneOf(a));
      var s1 := Step(s, NextAct(s, LaneOf(a)));
      OneStep(s, NextAct(s, LaneOf(a)));
      LeadsThrough(START, s, s1);
      s' := ConsumeAll(s1, a);
      LeadsThrough(s, s1, s');
    }
  }

  // ---- The whole path ----

  /** From every moment of every run there is a way on, without any more writes, to a moment at which
      the document of `a` is the fold of everything that has been written to its stream. */
  lemma CanCatchUp(states: seq<Pipe>, k: nat, a: Agg) returns (s': Pipe)
    requires IsRun(states) && k < |states| && Clean(a)
    ensures Leads(states[k], s') && s'.sys.db.events == states[k].sys.db.events && Drained(s', a)
    ensures var es := History(states[k].sys.db, a); DocIs(s'.rm, a, es, |es|)
  {
    RunIsReached(states, k);
    s' := DrainLane(states[k], a);
    LeadsThrough(START, states[k], s');
    DrainedLane(s', a);
    assert Stream(s'.sys.db, a) == Stream(states[k].sys.db, a);
  }

  lemma DrainLane(s: Pipe, a: Agg) returns (s': Pipe)
    requires Reached(s) && Clean(a)
    ensures Leads(s, s') && s'.sys.db.events == s.sys.db.events && Drained(s', a)
  {
    var s1 := Step(s, PollCrash);
    OneStep(s, PollCrash);
    LeadsThrough(START, s, s1);
    var s2 := SendAll(s1);
    LeadsThrough(s, s1, s2);
    LeadsThrough(START, s, s2);
    s' := ConsumeAll(s2, a);
    LeadsThrough(s, s2, s');
  }

  lemma DrainedLane(s: Pipe, a: Agg)
    requires Reached(s) && Clean(a) && Drained(s, a)
    ensures DocIs(s.rm, a, History(s.sys.db, a), |History(s.sys.db, a)|)
  {
    ReachedInv(s);
    DrainedIsCurrent(s, a);
  }
}
