/** Many dispatch workflows share one busy set. Every interleaving of their steps, with activities
    retried any number of times and workflows that fail. */
module BusySet {
  import opened Contracts

  type WorkflowId = string

  /** Where a workflow stands with respect to the busy set. `landed`: an attempt of the
      activity has taken effect, though its reply may have been lost. A workflow is clearing until
      it returns or fails, whatever it has to record after the clear. */
  datatype Phase =
    | Offering
    | Marking(driverId: DriverId, landed: bool)
    | Holding(driverId: DriverId)
    | Clearing(driverId: DriverId, landed: bool)
    | Finished
    | Failed(held: Option<DriverId>)

  datatype Fleet = Fleet(busy: set<DriverId>, workflows: map<WorkflowId, Phase>)

  datatype Action =
    | Start(w: WorkflowId)
    | Taken(w: WorkflowId, driverId: DriverId)
    | NobodyLeft(w: WorkflowId)
    | MarkAttempt(w: WorkflowId)
    | MarkReported(w: WorkflowId)
    | WaitsOver(w: WorkflowId)
    | ClearAttempt(w: WorkflowId)
    | ClearReported(w: WorkflowId)
    | Fails(w: WorkflowId)

  const EMPTY := Fleet({}, map[])

  predicate Enabled(s: Fleet, a: Action) {
    if a.Start? then a.w !in s.workflows
    else
      a.w in s.workflows &&
      var p := s.workflows[a.w];
      match a
      case Taken(_, _) => p.Offering?
      case NobodyLeft(_) => p.Offering?
      case MarkAttempt(_) => p.Marking?
      case MarkReported(_) => p.Marking? && p.landed
      case WaitsOver(_) => p.Holding?
      case ClearAttempt(_) => p.Clearing?
      case ClearReported(_) => p.Clearing? && p.landed
      case Fails(_) => !p.Finished? && !p.Failed?
      case Start(_) => false
  }

  /** The driver a workflow is responsible for: marked, and not yet cleared. */
  function HeldBy(p: Phase): Option<DriverId> {
    match p
    case Marking(d, landed) => if landed then Some(d) else None
    case Holding(d) => Some(d)
    case Clearing(d, landed) => if landed then None else Some(d)
    case Failed(held) => held
    case _ => None
  }

  function Step(s: Fleet, a: Action): Fleet
    requires Enabled(s, a)
  {
    if a.Start? then s.(workflows := s.workflows[a.w := Offering])
    else
      var p := s.workflows[a.w];
      match a
      case Taken(w, d) => s.(workflows := s.workflows[w := Marking(d, false)])
      case NobodyLeft(w) => s.(workflows := s.workflows[w := Finished])
      case MarkAttempt(w) => Fleet(s.busy + {p.driverId}, s.workflows[w := p.(landed := true)])
      case MarkReported(w) => s.(workflows := s.workflows[w := Holding(p.driverId)])
      case WaitsOver(w) => s.(workflows := s.workflows[w := Clearing(p.driverId, false)])
      case ClearAttempt(w) => Fleet(s.busy - {p.driverId}, s.workflows[w := p.(landed := true)])
      case ClearReported(w) => s.(workflows := s.workflows[w := Finished])
      case Fails(w) => s.(workflows := s.workflows[w := Failed(HeldBy(p))])
  }

  predicate Holds(s: Fleet, w: WorkflowId, d: DriverId) {
    w in s.workflows && HeldBy(s.workflows[w]) == Some(d)
  }

  ghost predicate Held(s: Fleet, d: DriverId) {
    exists w :: Holds(s, w, d)
  }

  /** Nobody is busy on nobody's behalf. */
  ghost predicate NoLeak(s: Fleet) {
    forall d :: d in s.busy ==> Held(s, d)
  }

  lemma StepKeepsNoLeak(s: Fleet, a: Action)
    requires NoLeak(s) && Enabled(s, a)
    ensures NoLeak(Step(s, a))
  {
    var s' := Step(s, a);
    forall d | d in s'.busy ensures Held(s', d) {
      if d in s.busy {
        var w :| Holds(s, w, d);
        assert Holds(s', w, d);
      } else {
        assert Holds(s', a.w, d);
      }
    }
  }

  /** A run is a list of actions, each enabled when it is taken. */
  ghost predicate IsRun(s: Fleet, acts: seq<Action>)
    decreases |acts|
  {
    acts == [] || (Enabled(s, acts[0]) && IsRun(Step(s, acts[0]), acts[1..]))
  }

  function After(s: Fleet, acts: seq<Action>): Fleet
    requires IsRun(s, acts)
    decreases |acts|
  {
    if acts == [] then s else After(Step(s, acts[0]), acts[1..])
  }

  lemma {:induction false} RunGoesOn(s: Fleet, acts: seq<Action>, a: Action)
    requires IsRun(s, acts) && Enabled(After(s, acts), a)
    ensures IsRun(s, acts + [a]) && After(s, acts + [a]) == Step(After(s, acts), a)
    decreases |acts|
  {
    if acts == [] {
      assert [a][1..] == [];
    } else {
      RunGoesOn(Step(s, acts[0]), acts[1..], a);
      assert (acts + [a])[1..] == acts[1..] + [a];
    }
  }

  lemma {:induction false} RunKeepsNoLeak(s: Fleet, acts: seq<Action>)
    requires NoLeak(s) && IsRun(s, acts)
    ensures NoLeak(After(s, acts))
    decreases |acts|
  {
    if acts != [] {
      StepKeepsNoLeak(s, acts[0]);
      RunKeepsNoLeak(Step(s, acts[0]), acts[1..]);
    }
  }

  predicate AllEnded(s: Fleet) {
    forall w :: w in s.workflows ==> s.workflows[w].Finished? || s.workflows[w].Failed?
  }

  predicate LeftBehind(s: Fleet, w: WorkflowId, d: DriverId) {
    w in s.workflows && s.workflows[w] == Failed(Some(d))
  }

  lemma EndedHolders(s: Fleet, d: DriverId)
    requires AllEnded(s)
    ensures Held(s, d) <==> exists w :: LeftBehind(s, w, d)
  {
    if Held(s, d) {
      var w :| Holds(s, w, d);
      assert LeftBehind(s, w, d);
    }
    if w :| LeftBehind(s, w, d) {
      assert Holds(s, w, d);
    }
  }

  /** The attempt on this driver that landed last was a mark; `before` when none has landed. */
  predicate LastWasMark(s: Fleet, acts: seq<Action>, d: DriverId, before: bool)
    requires IsRun(s, acts)
    decreases |acts|
  {
    if acts == [] then before
    else
      var a := acts[0];
      var touches := (a.MarkAttempt? || a.ClearAttempt?) && s.workflows[a.w].driverId == d;
      LastWasMark(Step(s, a), acts[1..], d, if touches then a.MarkAttempt? else before)
  }

  lemma {:induction false} BusyIsLastMark(s: Fleet, acts: seq<Action>, d: DriverId)
    requires IsRun(s, acts)
    ensures d in After(s, acts).busy <==> LastWasMark(s, acts, d, d in s.busy)
    decreases |acts|
  {
    if acts != [] {
      BusyIsLastMark(Step(s, acts[0]), acts[1..], d);
    }
  }

  /** Leaks, in every run: once every workflow has ended, the drivers still busy are those that a failed
      workflow held and that no clear has touched since their last mark. So nobody is busy if and only
      if some other workflow's clear came last for every driver a failed workflow held; when none
      failed holding a driver, nobody is. */
  lemma LeakIff(acts: seq<Action>)
    requires IsRun(EMPTY, acts) && AllEnded(After(EMPTY, acts))
    ensures var s := After(EMPTY, acts);
      && (forall d :: d in s.busy <==> LastWasMark(EMPTY, acts, d, false) && exists w :: LeftBehind(s, w, d))
      && (s.busy == {} <==> forall w, d :: LeftBehind(s, w, d) ==> !LastWasMark(EMPTY, acts, d, false))
  {
    RunKeepsNoLeak(EMPTY, acts);
    var s := After(EMPTY, acts);
    forall d ensures d in s.busy <==> LastWasMark(EMPTY, acts, d, false) && exists w :: LeftBehind(s, w, d) {
      BusyIsLastMark(EMPTY, acts, d);
      EndedHolders(s, d);
    }
    if forall w, d :: LeftBehind(s, w, d) ==> !LastWasMark(EMPTY, acts, d, false) {
      forall d ensures d !in s.busy {
      }
    }
  }

  lemma Then(s: Fleet, a: Action, acts: seq<Action>)
    requires Enabled(s, a) && IsRun(Step(s, a), acts)
    ensures IsRun(s, [a] + acts) && After(s, [a] + acts) == After(Step(s, a), acts)
  {
    assert ([a] + acts)[1..] == acts;
  }

  /** A workflow that fails while it holds a driver does leave the driver busy. */
  lemma FailureLeaks(w: WorkflowId, d: DriverId)
    ensures exists acts :: IsRun(EMPTY, acts) && AllEnded(After(EMPTY, acts)) && After(EMPTY, acts).busy == {d}
  {
    var offering := Fleet({}, map[w := Offering]);
    var marking := Fleet({}, map[w := Marking(d, false)]);
    var marked := Fleet({d}, map[w := Marking(d, true)]);
    assert Step(EMPTY, Start(w)) == offering;
    assert Step(offering, Taken(w, d)) == marking;
    assert Step(marking, MarkAttempt(w)) == marked;
    assert Step(marked, Fails(w)) == Fleet({d}, map[w := Failed(Some(d))]);
    Then(marked, Fails(w), []);
    Then(marking, MarkAttempt(w), [Fails(w)] + []);
    Then(offering, Taken(w, d), [MarkAttempt(w)] + ([Fails(w)] + []));
    Then(EMPTY, Start(w), [Taken(w, d)] + ([MarkAttempt(w)] + ([Fails(w)] + [])));
  }

  // ---- When the busy set is exact ----

  /** Busy means exactly held. */
  ghost predicate BusyIsHeld(s: Fleet) {
    forall d :: d in s.busy <==> Held(s, d)
  }

  /** A clear lands on a driver whom another workflow holds. */
  ghost predicate ClearsUnderHolder(s: Fleet, a: Action)
    requires Enabled(s, a)
  {
    a.ClearAttempt? && exists w :: w != a.w && Holds(s, w, s.workflows[a.w].driverId)
  }

  /** One step keeps the busy set exact if and only if it is no such clear. */
  lemma ExactStepIff(s: Fleet, a: Action)
    requires BusyIsHeld(s) && Enabled(s, a)
    ensures BusyIsHeld(Step(s, a)) <==> !ClearsUnderHolder(s, a)
  {
    var s' := Step(s, a);
    StepKeepsNoLeak(s, a);
    if ClearsUnderHolder(s, a) {
      var w :| w != a.w && Holds(s, w, s.workflows[a.w].driverId);
      assert Holds(s', w, s.workflows[a.w].driverId);
    } else {
      forall d | Held(s', d) ensures d in s'.busy {
        var w :| Holds(s', w, d);
        assert w != a.w || !a.MarkAttempt? ==> Holds(s, w, d);
      }
    }
  }

  ghost predicate ExactThroughout(s: Fleet, acts: seq<Action>)
    requires IsRun(s, acts)
    decreases |acts|
  {
    BusyIsHeld(s) && (acts == [] || ExactThroughout(Step(s, acts[0]), acts[1..]))
  }

  ghost predicate NeverClearsUnderHolder(s: Fleet, acts: seq<Action>)
    requires IsRun(s, acts)
    decreases |acts|
  {
    acts == [] || (!ClearsUnderHolder(s, acts[0]) && NeverClearsUnderHolder(Step(s, acts[0]), acts[1..]))
  }

  /** At every moment of a run the busy drivers are exactly the held ones, if and only if no clear ever
      lands on a driver whom another workflow holds. */
  lemma {:induction false} RunIsExactIff(s: Fleet, acts: seq<Action>)
    requires BusyIsHeld(s) && IsRun(s, acts)
    ensures ExactThroughout(s, acts) <==> NeverClearsUnderHolder(s, acts)
    ensures NeverClearsUnderHolder(s, acts) ==> BusyIsHeld(After(s, acts))
    decreases |acts|
  {
    if acts != [] {
      ExactStepIff(s, acts[0]);
      if !ClearsUnderHolder(s, acts[0]) {
        RunIsExactIff(Step(s, acts[0]), acts[1..]);
      } else {
        assert !ExactThroughout(Step(s, acts[0]), acts[1..]);
      }
    }
  }

  /** In such runs a leak is exactly a workflow that failed while holding a driver. */
  lemma ExactLeakIff(acts: seq<Action>)
    requires IsRun(EMPTY, acts) && AllEnded(After(EMPTY, acts)) && NeverClearsUnderHolder(EMPTY, acts)
    ensures After(EMPTY, acts).busy == {} <==> forall w, d :: !LeftBehind(After(EMPTY, acts), w, d)
  {
    var s := After(EMPTY, acts);
    RunIsExactIff(EMPTY, acts);
    forall d ensures d in s.busy <==> exists w :: LeftBehind(s, w, d) {
      EndedHolders(s, d);
    }
    if s.busy == {} {
      forall w, d ensures !LeftBehind(s, w, d) {
        assert d !in s.busy;
      }
    }
  }

  /** The workflow has something to do with the driver: it is about to mark, holds or is clearing. */
  predicate Involved(p: Phase, d: DriverId) {
    ((p.Marking? || p.Holding? || p.Clearing?) && p.driverId == d) || (p.Failed? && p.held == Some(d))
  }

  /** The accepted driver is not on another job; selection alone does not guarantee this. */
  predicate Alone(s: Fleet, a: Action) {
    a.Taken? ==> forall w :: w in s.workflows && w != a.w ==> !Involved(s.workflows[w], a.driverId)
  }

  ghost predicate IsExclusiveRun(s: Fleet, acts: seq<Action>)
    decreases |acts|
  {
    acts == [] || (Enabled(s, acts[0]) && Alone(s, acts[0]) && IsExclusiveRun(Step(s, acts[0]), acts[1..]))
  }

  /** At most one workflow per driver, and busy means exactly held. */
  ghost predicate Exact(s: Fleet) {
    && (forall v, w, d | v in s.workflows && w in s.workflows && v != w ::
          !Involved(s.workflows[v], d) || !Involved(s.workflows[w], d))
    && (forall d :: d in s.busy <==> Held(s, d))
  }

  lemma StepKeepsExact(s: Fleet, a: Action)
    requires Exact(s) && Enabled(s, a) && Alone(s, a)
    ensures Exact(Step(s, a))
  {
    var s' := Step(s, a);
    StepKeepsNoLeak(s, a);
    forall d | Held(s', d) ensures d in s'.busy {
      var w :| Holds(s', w, d);
      assert Involved(s'.workflows[w], d);
      if w == a.w {
        if !a.MarkAttempt? {
          assert Holds(s, w, d);
        }
      } else {
        assert Holds(s, w, d);
        assert Involved(s.workflows[w], d);
      }
    }
  }

  /** As long as no driver is taken for two jobs at once, no clear can land under another holder: so
      the busy set is exact at every moment, and leaks are exactly the failed holders. */
  lemma {:induction false} ExclusiveNeverClearsUnderHolder(s: Fleet, acts: seq<Action>)
    requires Exact(s) && IsExclusiveRun(s, acts)
    ensures IsRun(s, acts) && NeverClearsUnderHolder(s, acts) && Exact(After(s, acts))
    decreases |acts|
  {
    if acts != [] {
      StepKeepsExact(s, acts[0]);
      ExclusiveNeverClearsUnderHolder(Step(s, acts[0]), acts[1..]);
      if ClearsUnderHolder(s, acts[0]) {
        var w :| w != acts[0].w && Holds(s, w, s.workflows[acts[0].w].driverId);
        assert Involved(s.workflows[w], s.workflows[acts[0].w].driverId);
      }
    }
  }

  lemma ExclusiveLeakIff(acts: seq<Action>)
    requires IsExclusiveRun(EMPTY, acts)
    ensures IsRun(EMPTY, acts)
    ensures ExactThroughout(EMPTY, acts)
    ensures AllEnded(After(EMPTY, acts)) ==>
      (After(EMPTY, acts).busy == {} <==> forall w, d :: !LeftBehind(After(EMPTY, acts), w, d))
  {
    ExclusiveNeverClearsUnderHolder(EMPTY, acts);
    RunIsExactIff(EMPTY, acts);
    if AllEnded(After(EMPTY, acts)) {
      ExactLeakIff(acts);
    }
  }

  /** Both workflows have marked the driver; the first one ends. */
  lemma FirstJobEnds(d: DriverId) returns (acts: seq<Action>)
    ensures var s := Fleet({d}, map["a" := Marking(d, true), "b" := Marking(d, true)]);
      IsRun(s, acts) && Holds(After(s, acts), "b", d) && d !in After(s, acts).busy
  {
    var s6 := Fleet({d}, map["a" := Marking(d, true), "b" := Marking(d, true)]);
    var s7 := Fleet({d}, map["a" := Holding(d), "b" := Marking(d, true)]);
    var s8 := Fleet({d}, map["a" := Clearing(d, false), "b" := Marking(d, true)]);
    var s9 := Fleet({}, map["a" := Clearing(d, true), "b" := Marking(d, true)]);
    assert s9.workflows["b"] == Marking(d, true);
    assert Step(s8, ClearAttempt("a")) == s9;
    Then(s8, ClearAttempt("a"), []);
    assert Step(s7, WaitsOver("a")) == s8;
    Then(s7, WaitsOver("a"), [ClearAttempt("a")] + []);
    assert Step(s6, MarkReported("a")) == s7;
    Then(s6, MarkReported("a"), [WaitsOver("a")] + ([ClearAttempt("a")] + []));
    acts := [MarkReported("a")] + ([WaitsOver("a")] + ([ClearAttempt("a")] + []));
  }

  /** Without that, a driver on two jobs becomes selectable again when the first one ends. */
  lemma SecondJobIsUnprotected(d: DriverId)
    ensures exists acts, w ::
      IsRun(EMPTY, acts) && Holds(After(EMPTY, acts), w, d) && d !in After(EMPTY, acts).busy
  {
    var s1 := Fleet({}, map["a" := Offering]);
    var s2 := Fleet({}, map["a" := Offering, "b" := Offering]);
    var s3 := Fleet({}, map["a" := Marking(d, false), "b" := Offering]);
    var s4 := Fleet({}, map["a" := Marking(d, false), "b" := Marking(d, false)]);
    var s5 := Fleet({d}, map["a" := Marking(d, true), "b" := Marking(d, false)]);
    var s6 := Fleet({d}, map["a" := Marking(d, true), "b" := Marking(d, true)]);
    var acts := FirstJobEnds(d);
    assert Step(s5, MarkAttempt("b")) == s6;
    Then(s5, MarkAttempt("b"), acts);
    acts := [MarkAttempt("b")] + acts;
    assert Step(s4, MarkAttempt("a")) == s5;
    Then(s4, MarkAttempt("a"), acts);
    acts := [MarkAttempt("a")] + acts;
    assert Step(s3, Taken("b", d)) == s4;
    Then(s3, Taken("b", d), acts);
    acts := [Taken("b", d)] + acts;
    assert Step(s2, Taken("a", d)) == s3;
    Then(s2, Taken("a", d), acts);
    acts := [Taken("a", d)] + acts;
    assert Step(s1, Start("b")) == s2;
    Then(s1, Start("b"), acts);
    acts := [Start("b")] + acts;
    assert Step(EMPTY, Start("a")) == s1;
    Then(EMPTY, Start("a"), acts);
  }
}
