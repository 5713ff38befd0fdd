/** The cached order query: cache-aside over the projected documents with a ten second lifetime. */
module OrdersQuery {
  import opened Contracts
  import P = Pipeline
  import opened Projection

  const CACHE_TTL_MS := 10000

  function CacheKey(tenantId: TenantId, orderId: OrderId): string {
    "tenant:{" + Join(tenantId + "}", Join("order", Join(orderId, "view")))
  }

  /** One cache entry per order, never shared between tenants. */
  lemma CacheKeyInjective(t: TenantId, o: OrderId, t': TenantId, o': OrderId)
    requires NoColon(t) && NoColon(t')
    ensures CacheKey(t, o) == CacheKey(t', o') <==> t == t' && o == o'
  {
    if CacheKey(t, o) == CacheKey(t', o') {
      var u, u' := t + "}", t' + "}";
      var r, r' := Join("order", Join(o, "view")), Join("order", Join(o', "view"));
      assert Join(u, r) == CacheKey(t, o)[8..] == Join(u', r');
      JoinInjective(u, r, u', r');
      assert t == u[..|u| - 1] && t' == u'[..|u'| - 1];
      assert NoColon("order");
      JoinInjective("order", Join(o, "view"), "order", Join(o', "view"));
      assert o == Join(o, "view")[..|o|] && o' == Join(o', "view")[..|o'|];
    }
  }

  datatype Ref = Ref(tenantId: TenantId, orderId: OrderId)

  /** An entry, and the instant at which it disappears. */
  datatype Cached = Cached(view: OrderView, expiresAt: Time)

  /** By the order it is for: the string keys are as good, because they are injective. */
  type Cache = map<Ref, Cached>

  function CacheGet(cache: Cache, ref: Ref, now: Time): Option<OrderView> {
    if ref in cache && now < cache[ref].expiresAt then Some(cache[ref].view) else None
  }

  function CacheSet(cache: Cache, ref: Ref, view: OrderView, now: Time): Cache {
    cache[ref := Cached(view, now + CACHE_TTL_MS)]
  }

  function IdOf(ref: Ref): string {
    DocId(ref.tenantId, ref.orderId)
  }

  // ---- The documents over time ----

  predicate DocForward(before: map<string, OrderView>, after: map<string, OrderView>, id: string)
    requires id in before
  {
    id in after && before[id].version <= after[id].version
  }

  /** Documents are only added and moved to higher versions. */
  predicate MovesForward(before: map<string, OrderView>, after: map<string, OrderView>) {
    forall id {:trigger DocForward(before, after, id)} :: id in before ==> DocForward(before, after, id)
  }

  lemma UpsertMovesForward(orders: map<string, OrderView>, env: Envelope)
    ensures MovesForward(orders, UpsertOrder(orders, env))
  {
  }

  /** That is what the projection does: no step of the pipeline takes an order's document back. */
  lemma ProjectionMovesForward(s: P.Pipe, act: P.Action)
    requires P.Enabled(s, act)
    ensures MovesForward(s.rm.orders, P.Step(s, act).rm.orders)
  {
    if act.DoUpsert? {
      var env := P.LaneLog(s.log, act.lane)[P.CursorAt(s.cursors, act.lane).offset].envelope;
      UpsertMovesForward(s.rm.orders, env);
      assert P.Step(s, act).rm.orders == s.rm.orders || P.Step(s, act).rm.orders == UpsertOrder(s.rm.orders, env);
    } else {
      assert P.Step(s, act).rm.orders == s.rm.orders;
    }
  }

  lemma ForwardTransitive(a: map<string, OrderView>, b: map<string, OrderView>, c: map<string, OrderView>)
    requires MovesForward(a, b) && MovesForward(b, c)
    ensures MovesForward(a, c)
  {
    forall id | id in a ensures DocForward(a, c, id) {
      assert DocForward(a, b, id) && DocForward(b, c, id);
    }
  }

  /** The collection as it stood at one instant. */
  datatype Moment = Moment(at: Time, orders: map<string, OrderView>)

  predicate Before(m: Moment, n: Moment) {
    m.at <= n.at && MovesForward(m.orders, n.orders)
  }

  /** Every recorded moment lies before the last one, and no document has gone back since. */
  predicate Chronicle(past: seq<Moment>) {
    past != []
    && forall i {:trigger Before(past[i], past[|past| - 1])} :: 0 <= i < |past| ==> Before(past[i], past[|past| - 1])
  }

  lemma ChronicleGrows(past: seq<Moment>, m: Moment)
    requires Chronicle(past) && Before(past[|past| - 1], m)
    ensures Chronicle(past + [m])
  {
    var after := past + [m];
    forall i | 0 <= i < |after| ensures Before(after[i], m) {
      if i < |past| {
        assert Before(past[i], past[|past| - 1]);
        ForwardTransitive(past[i].orders, past[|past| - 1].orders, m.orders);
      }
    }
  }

  predicate StandsIn(m: Moment, id: string, view: OrderView) {
    id in m.orders && m.orders[id] == view
  }

  /** The document stood like this at that instant. */
  predicate StoodAt(past: seq<Moment>, id: string, view: OrderView, at: Time) {
    exists i :: 0 <= i < |past| && past[i].at == at && StandsIn(past[i], id, view)
  }

  /** The document stood like this at some instant no longer than `age` before `now`. */
  predicate StoodWithin(past: seq<Moment>, id: string, view: OrderView, now: Time, age: int) {
    exists i :: 0 <= i < |past| && now - past[i].at <= age && StandsIn(past[i], id, view)
  }

  lemma StoodOn(past: seq<Moment>, m: Moment, id: string, view: OrderView, at: Time)
    requires StoodAt(past, id, view, at)
    ensures StoodAt(past + [m], id, view, at)
  {
    var i :| 0 <= i < |past| && past[i].at == at && StandsIn(past[i], id, view);
    assert (past + [m])[i] == past[i];
  }

  /** What stood in the past has not been overtaken backwards. */
  lemma StoodIsBehind(past: seq<Moment>, id: string, view: OrderView, at: Time)
    requires Chronicle(past) && StoodAt(past, id, view, at)
    ensures id in past[|past| - 1].orders && view.version <= past[|past| - 1].orders[id].version
    ensures at <= past[|past| - 1].at
  {
    var i :| 0 <= i < |past| && past[i].at == at && StandsIn(past[i], id, view);
    assert Before(past[i], past[|past| - 1]);
    assert DocForward(past[i].orders, past[|past| - 1].orders, id);
  }

  // ---- Calls, overlapping at will ----

  type CallId = nat

  /** A call that has read the document and not yet written the cache: when it read, and how many
      cache writes there had been by then. */
  datatype Pending = Pending(ref: Ref, doc: OrderView, readAt: Time, since: nat)

  /** One cache write: for which order, and the version written. */
  datatype Written = Written(ref: Ref, version: nat)

  /** Documents, cache and calls; for each entry the instant its document was read; the version last
      returned for each order; all cache writes so far; and the documents at every earlier instant. */
  datatype Service = Service(
    orders: map<string, OrderView>,
    now: Time,
    cache: Cache,
    pending: map<CallId, Pending>,
    readAts: map<Ref, Time>,
    returned: map<Ref, nat>,
    written: seq<Written>,
    past: seq<Moment>)

  function Start(orders: map<string, OrderView>, now: Time): Service {
    Service(orders, now, map[], map[], map[], map[], [], [Moment(now, orders)])
  }

  datatype Action =
    | Elapse(now: Time, orders: map<string, OrderView>)
    | Hit(ref: Ref)
    | Read(call: CallId, ref: Ref)
    | Fill(call: CallId)

  predicate Enabled(s: Service, a: Action) {
    match a
    case Elapse(now, orders) => s.now <= now && MovesForward(s.orders, orders)
    case Hit(ref) => CacheGet(s.cache, ref, s.now).Some?
    case Read(call, ref) => call !in s.pending && IdOf(ref) in s.orders
    case Fill(call) => call in s.pending
  }

  function Step(s: Service, a: Action): Service
    requires Enabled(s, a)
  {
    match a
    case Elapse(now, orders) => s.(orders := orders, now := now, past := s.past + [Moment(now, orders)])
    case Hit(ref) => s.(returned := s.returned[ref := CacheGet(s.cache, ref, s.now).value.version])
    case Read(call, ref) => s.(pending := s.pending[call := Pending(ref, s.orders[IdOf(ref)], s.now, |s.written|)])
    case Fill(call) =>
      var p := s.pending[call];
      s.(cache := CacheSet(s.cache, p.ref, p.doc, s.now),
         readAts := s.readAts[p.ref := p.readAt],
         pending := s.pending - {call},
         written := s.written + [Written(p.ref, p.doc.version)],
         returned := s.returned[p.ref := p.doc.version])
  }

  /** How long the entry took from the document to the cache. */
  function Delay(s: Service, ref: Ref): int
    requires ref in s.cache && ref in s.readAts
  {
    s.cache[ref].expiresAt - 10000 - s.readAts[ref]
  }

  predicate EntryOk(s: Service, ref: Ref)
    requires ref in s.cache
  {
    && ref in s.readAts && 0 <= Delay(s, ref)
    && StoodAt(s.past, IdOf(ref), s.cache[ref].view, s.readAts[ref])
    && ref in s.returned && s.returned[ref] == s.cache[ref].view.version
  }

  predicate PendingOk(s: Service, call: CallId)
    requires call in s.pending
  {
    && StoodAt(s.past, IdOf(s.pending[call].ref), s.pending[call].doc, s.pending[call].readAt)
    && s.pending[call].since <= |s.written|
  }

  predicate Coherent(s: Service) {
    && Chronicle(s.past) && s.past[|s.past| - 1] == Moment(s.now, s.orders)
    && (forall ref :: ref in s.cache ==> EntryOk(s, ref))
    && (forall ref :: ref in s.returned ==> ref in s.cache)
    && (forall call :: call in s.pending ==> PendingOk(s, call))
  }

  lemma ElapseKeepsCoherent(s: Service, a: Action)
    requires Coherent(s) && Enabled(s, a) && a.Elapse?
    ensures Coherent(Step(s, a))
  {
    var s', m := Step(s, a), Moment(a.now, a.orders);
    ChronicleGrows(s.past, m);
    forall ref | ref in s'.cache ensures EntryOk(s', ref) {
      assert EntryOk(s, ref);
      StoodOn(s.past, m, IdOf(ref), s.cache[ref].view, s.readAts[ref]);
    }
    forall call | call in s'.pending ensures PendingOk(s', call) {
      assert PendingOk(s, call);
      StoodOn(s.past, m, IdOf(s.pending[call].ref), s.pending[call].doc, s.pending[call].readAt);
    }
  }

  lemma CallKeepsCoherent(s: Service, a: Action)
    requires Coherent(s) && Enabled(s, a) && !a.Elapse?
    ensures Coherent(Step(s, a))
  {
    var s' := Step(s, a);
    if a.Read? {
      assert StandsIn(s.past[|s.past| - 1], IdOf(a.ref), s.orders[IdOf(a.ref)]);
    }
    if a.Fill? {
      assert PendingOk(s, a.call);
      StoodIsBehind(s.past, IdOf(s.pending[a.call].ref), s.pending[a.call].doc, s.pending[a.call].readAt);
    }
    forall ref | ref in s'.cache ensures EntryOk(s', ref) {
      assert ref in s.cache ==> EntryOk(s, ref);
    }
    forall call | call in s'.pending ensures PendingOk(s', call) {
      assert call in s.pending ==> PendingOk(s, call);
    }
  }

  lemma StepKeepsCoherent(s: Service, a: Action)
    requires Coherent(s) && Enabled(s, a)
    ensures Coherent(Step(s, a))
  {
    if a.Elapse? {
      ElapseKeepsCoherent(s, a);
    } else {
      CallKeepsCoherent(s, a);
    }
  }

  predicate IsRun(s: Service, acts: seq<Action>)
    decreases |acts|
  {
    acts == [] || (Enabled(s, acts[0]) && IsRun(Step(s, acts[0]), acts[1..]))
  }

  function After(s: Service, acts: seq<Action>): Service
    requires IsRun(s, acts)
    decreases |acts|
  {
    if acts == [] then s else After(Step(s, acts[0]), acts[1..])
  }

  lemma {:induction false} RunKeepsCoherent(s: Service, acts: seq<Action>)
    requires Coherent(s) && IsRun(s, acts)
    ensures Coherent(After(s, acts))
    decreases |acts|
  {
    if acts != [] {
      StepKeepsCoherent(s, acts[0]);
      RunKeepsCoherent(Step(s, acts[0]), acts[1..]);
    }
  }

  lemma Then(s: Service, a: Action, acts: seq<Action>)
    requires Enabled(s, a) && IsRun(Step(s, a), acts)
    ensures IsRun(s, [a] + acts) && After(s, [a] + acts) == After(Step(s, a), acts)
  {
    assert ([a] + acts)[1..] == acts;
  }

  ghost predicate Reached(s: Service) {
    exists orders, now, acts :: IsRun(Start(orders, now), acts) && After(Start(orders, now), acts) == s
  }

  lemma ReachedIsCoherent(s: Service)
    requires Reached(s)
    ensures Coherent(s)
  {
    var orders, now, acts :| IsRun(Start(orders, now), acts) && After(Start(orders, now), acts) == s;
    RunKeepsCoherent(Start(orders, now), acts);
  }

  // ---- How old an answer can be ----

  /** Whatever overlaps: a cached answer was the order's document at the instant it was read, which is
      less than the lifetime plus that entry's own delay ago. */
  lemma HitAge(s: Service, ref: Ref)
    requires Coherent(s) && Enabled(s, Hit(ref))
    ensures ref in s.readAts && StoodAt(s.past, IdOf(ref), s.cache[ref].view, s.readAts[ref])
    ensures s.readAts[ref] <= s.now && s.now - s.readAts[ref] < 10000 + Delay(s, ref)
    ensures Delay(s, ref) <= 1 ==> StoodWithin(s.past, IdOf(ref), s.cache[ref].view, s.now, 10000)
  {
    assert EntryOk(s, ref);
    StoodIsBehind(s.past, IdOf(ref), s.cache[ref].view, s.readAts[ref]);
  }

  /** Every hit on an entry with this delay shows the document as it stood within ten seconds. */
  ghost predicate KeepsTenSeconds(delay: int) {
    forall s, ref | Reached(s) && Enabled(s, Hit(ref)) && ref in s.readAts && Delay(s, ref) == delay ::
      StoodWithin(s.past, IdOf(ref), s.cache[ref].view, s.now, 10000)
  }

  /** Read at some instant, overtaken a millisecond later, cached after `delay`, and hit in the last
      millisecond of the entry's life. */
  lemma LateHit(ref: Ref, older: OrderView, newer: OrderView, readAt: Time, delay: nat) returns (s: Service)
    requires older.version < newer.version && delay >= 2
    ensures Reached(s) && Enabled(s, Hit(ref)) && ref in s.readAts && Delay(s, ref) == delay
    ensures s.now == readAt + delay + 9999
    ensures s.cache[ref].view == older && !StoodWithin(s.past, IdOf(ref), older, s.now, 10000)
  {
    var id := IdOf(ref);
    var before, after := map[id := older], map[id := newer];
    assert MovesForward(before, after) && MovesForward(after, after);
    var s0 := Start(before, readAt);
    var read, overtaken, write, last := Read(0, ref), Elapse(readAt + 1, after), Elapse(readAt + delay, after),
      Elapse(readAt + delay + CACHE_TTL_MS - 1, after);
    var s1 := Step(s0, read);
    var s2 := Step(s1, overtaken);
    var s3 := Step(s2, write);
    var s4 := Step(s3, Fill(0));
    s := Step(s4, last);
    Then(s4, last, []);
    Then(s3, Fill(0), [last] + []);
    Then(s2, write, [Fill(0)] + ([last] + []));
    Then(s1, overtaken, [write] + ([Fill(0)] + ([last] + [])));
    Then(s0, read, [overtaken] + ([write] + ([Fill(0)] + ([last] + []))));
    assert s.past == [Moment(readAt, before), Moment(readAt + 1, after), Moment(readAt + delay, after),
                      Moment(readAt + delay + CACHE_TTL_MS - 1, after)];
  }

  /** The ten seconds hold for an entry, whatever else happens, exactly when it took no more than a
      millisecond from the document to the cache. (The clock ticks in milliseconds and an entry is gone
      at the instant it expires, `now < expiresAt`; served one tick longer, the bound would be zero.) */
  lemma TenSecondsIff(delay: nat)
    ensures KeepsTenSeconds(delay) <==> delay <= 1
  {
    if delay <= 1 {
      forall s, ref | Reached(s) && Enabled(s, Hit(ref)) && ref in s.readAts && Delay(s, ref) == delay
        ensures StoodWithin(s.past, IdOf(ref), s.cache[ref].view, s.now, CACHE_TTL_MS)
      {
        ReachedIsCoherent(s);
        HitAge(s, ref);
      }
    } else {
      var older := OrderView("t", "o", "c", [], 0, PLACED, 1, 0, None);
      var s := LateHit(Ref("t", "o"), older, older.(version := 2), 0, delay);
    }
  }

  // ---- Whether answers go back ----

  /** The step answers a call with a view. */
  function Answer(s: Service, a: Action): Option<(Ref, nat)>
    requires Enabled(s, a)
  {
    match a
    case Hit(ref) => Some((ref, CacheGet(s.cache, ref, s.now).value.version))
    case Fill(call) => Some((s.pending[call].ref, s.pending[call].doc.version))
    case _ => None
  }

  /** An answer older than the last one for the order. */
  predicate GoesBack(s: Service, a: Action)
    requires Enabled(s, a)
  {
    var answer := Answer(s, a);
    answer.Some? && answer.value.0 in s.returned && answer.value.1 < s.returned[answer.value.0]
  }

  /** What the call has read is older than what is cached. */
  predicate IsOlder(s: Service, call: CallId)
    requires call in s.pending
  {
    var p := s.pending[call];
    p.ref in s.cache && p.doc.version < s.cache[p.ref].view.version
  }

  /** A call overwrites the cached entry with an older document. */
  predicate OlderWrite(s: Service, a: Action)
    requires Enabled(s, a)
  {
    a.Fill? && IsOlder(s, a.call)
  }

  predicate WritesNewer(written: seq<Written>, ref: Ref, version: nat) {
    exists w :: w in written && w.ref == ref && version < w.version
  }

  lemma OneMoreWrite(written: seq<Written>, w: Written, ref: Ref, version: nat)
    ensures WritesNewer(written + [w], ref, version) <==>
      WritesNewer(written, ref, version) || (w.ref == ref && version < w.version)
  {
    assert w in written + [w] && forall v :: v in written ==> v in written + [w];
  }

  /** Since the call read, another one has written a newer document of the order. */
  predicate Overtaken(s: Service, call: CallId)
    requires call in s.pending
  {
    var p := s.pending[call];
    p.since <= |s.written| && WritesNewer(s.written[p.since..], p.ref, p.doc.version)
  }

  predicate OvertakenWrite(s: Service, a: Action)
    requires Enabled(s, a)
  {
    a.Fill? && Overtaken(s, a.call)
  }

  /** A cached document is behind the one stored now or at it. */
  lemma CachedIsBehind(s: Service, ref: Ref)
    requires Coherent(s) && ref in s.cache
    ensures IdOf(ref) in s.orders && s.cache[ref].view.version <= s.orders[IdOf(ref)].version
  {
    assert EntryOk(s, ref);
    StoodIsBehind(s.past, IdOf(ref), s.cache[ref].view, s.readAts[ref]);
  }

  /** Answers go back at exactly the writes of older documents. */
  lemma GoesBackIff(s: Service, a: Action)
    requires Coherent(s) && Enabled(s, a)
    ensures GoesBack(s, a) <==> OlderWrite(s, a)
  {
    if a.Hit? {
      assert EntryOk(s, a.ref);
    }
    if a.Fill? && s.pending[a.call].ref in s.cache {
      assert EntryOk(s, s.pending[a.call].ref);
    }
  }

  /** As long as answers have not gone back, what a call has read is older than what is cached exactly
      when the call has been overtaken. */
  predicate Orderly(s: Service) {
    forall call :: call in s.pending ==> (Overtaken(s, call) <==> IsOlder(s, call))
  }

  lemma OvertakenByFill(s: Service, a: Action, call: CallId)
    requires Enabled(s, a) && a.Fill? && !OlderWrite(s, a)
    requires call in s.pending && PendingOk(s, call) && call != a.call && (Overtaken(s, call) <==> IsOlder(s, call))
    ensures Overtaken(Step(s, a), call) <==> IsOlder(Step(s, a), call)
  {
    var s', p, w := Step(s, a), s.pending[call], s.pending[a.call];
    assert s'.written[p.since..] == s.written[p.since..] + [Written(w.ref, w.doc.version)];
    OneMoreWrite(s.written[p.since..], Written(w.ref, w.doc.version), p.ref, p.doc.version);
  }

  lemma StepKeepsOrderly(s: Service, a: Action)
    requires Coherent(s) && Orderly(s) && Enabled(s, a) && !OlderWrite(s, a)
    ensures Orderly(Step(s, a))
  {
    var s' := Step(s, a);
    if a.Read? && a.ref in s.cache {
      CachedIsBehind(s, a.ref);
    }
    forall call | call in s'.pending ensures Overtaken(s', call) <==> IsOlder(s', call) {
      if a.Fill? {
        assert PendingOk(s, call);
        OvertakenByFill(s, a, call);
      } else if call in s.pending && !(a.Read? && a.call == call) {
        assert s'.pending[call] == s.pending[call];
      }
    }
  }

  predicate NeverGoesBack(s: Service, acts: seq<Action>)
    requires IsRun(s, acts)
    decreases |acts|
  {
    acts == [] || (!GoesBack(s, acts[0]) && NeverGoesBack(Step(s, acts[0]), acts[1..]))
  }

  predicate NeverOlderWrite(s: Service, acts: seq<Action>)
    requires IsRun(s, acts)
    decreases |acts|
  {
    acts == [] || (!OlderWrite(s, acts[0]) && NeverOlderWrite(Step(s, acts[0]), acts[1..]))
  }

  predicate NeverOvertaken(s: Service, acts: seq<Action>)
    requires IsRun(s, acts)
    decreases |acts|
  {
    acts == [] || (!OvertakenWrite(s, acts[0]) && NeverOvertaken(Step(s, acts[0]), acts[1..]))
  }

  lemma {:induction false} NeverGoesBackFrom(s: Service, acts: seq<Action>)
    requires Coherent(s) && Orderly(s) && IsRun(s, acts)
    ensures NeverGoesBack(s, acts) <==> NeverOlderWrite(s, acts)
    ensures NeverGoesBack(s, acts) <==> NeverOvertaken(s, acts)
    decreases |acts|
  {
    if acts != [] {
      GoesBackIff(s, acts[0]);
      assert OvertakenWrite(s, acts[0]) <==> OlderWrite(s, acts[0]);
      if !OlderWrite(s, acts[0]) {
        StepKeepsCoherent(s, acts[0]);
        StepKeepsOrderly(s, acts[0]);
        NeverGoesBackFrom(Step(s, acts[0]), acts[1..]);
      }
    }
  }

  /** With calls overlapping at will, the answers for an order never go back if and only if no call
      overwrites a cached entry with an older document; and that happens if and only if between some
      call's read and its write another call for the order writes a newer document. */
  lemma AnswersNeverGoBackIff(orders: map<string, OrderView>, now: Time, acts: seq<Action>)
    requires IsRun(Start(orders, now), acts)
    ensures var s := Start(orders, now);
      && (NeverGoesBack(s, acts) <==> NeverOlderWrite(s, acts))
      && (NeverGoesBack(s, acts) <==> NeverOvertaken(s, acts))
  {
    NeverGoesBackFrom(Start(orders, now), acts);
  }

  /** Two overlapping calls: the first reads the older document, the second reads, caches and returns
      the newer one, then the first caches and returns the older; later hits show the older one too. */
  lemma OverlappingCallsGoBack(ref: Ref, older: OrderView, newer: OrderView)
    requires older.version < newer.version
    ensures var s0 := Start(map[IdOf(ref) := older], 0);
      var acts := [Read(1, ref), Elapse(1, map[IdOf(ref) := newer]), Read(2, ref), Fill(2), Fill(1)];
      && IsRun(s0, acts) && !NeverGoesBack(s0, acts)
      && CacheGet(After(s0, acts).cache, ref, After(s0, acts).now) == Some(older)
  {
    var before, after := map[IdOf(ref) := older], map[IdOf(ref) := newer];
    assert MovesForward(before, after);
    var acts := [Read(1, ref), Elapse(1, after), Read(2, ref), Fill(2), Fill(1)];
    var s0 := Start(before, 0);
    var s1 := Step(s0, acts[0]);
    var s2 := Step(s1, acts[1]);
    var s3 := Step(s2, acts[2]);
    var s4 := Step(s3, acts[3]);
    assert s4.pending[1] == Pending(ref, older, 0, 0) && s4.returned[ref] == newer.version;
    assert GoesBack(s4, Fill(1));
    assert acts[1..] == [Elapse(1, after), Read(2, ref), Fill(2), Fill(1)];
    assert acts[1..][1..] == [Read(2, ref), Fill(2), Fill(1)];
    assert acts[1..][1..][1..] == [Fill(2), Fill(1)];
    assert acts[1..][1..][1..][1..] == [Fill(1)];
    assert acts[1..][1..][1..][1..][1..] == [];
    var s5 := Step(s4, Fill(1));
    assert IsRun(s4, [Fill(1)]) && !NeverGoesBack(s4, [Fill(1)]) && After(s4, [Fill(1)]) == s5;
    assert IsRun(s3, [Fill(2), Fill(1)]) && !NeverGoesBack(s3, [Fill(2), Fill(1)])
           && After(s3, [Fill(2), Fill(1)]) == s5;
    assert IsRun(s2, acts[1..][1..]) && !NeverGoesBack(s2, acts[1..][1..]) && After(s2, acts[1..][1..]) == s5;
    assert IsRun(s1, acts[1..]) && !NeverGoesBack(s1, acts[1..]) && After(s1, acts[1..]) == s5;
  }

  // ---- The service ----

  /** Only the clock and the documents moved, forward. */
  predicate Passes(s: Service, s': Service) {
    s.now <= s'.now && MovesForward(s.orders, s'.orders) && Step(s, Elapse(s'.now, s'.orders)) == s'
  }

  /** Whatever other calls do meanwhile, time and documents only move forward and this call is let be. */
  predicate Meanwhile(s: Service, s': Service, call: CallId) {
    && s.now <= s'.now && MovesForward(s.orders, s'.orders)
    && (call in s.pending <==> call in s'.pending)
    && (call in s.pending ==> s'.pending[call] == s.pending[call])
  }

  predicate IsOther(a: Action, call: CallId) {
    match a
    case Read(c, _) => c != call
    case Fill(c) => c != call
    case _ => true
  }

  /** Left alone, a call for `ref` answers with a view that is cached for the order and not older than
      the last one returned; there is none only when there is no document; no other order's entry
      changes. */
  predicate Answers(s: Service, s': Service, ref: Ref, view: Option<OrderView>) {
    && s.now <= s'.now
    && (forall r :: r in s.cache && r != ref ==> r in s'.cache && s'.cache[r] == s.cache[r])
    && (forall r :: r in s.readAts && r != ref ==> r in s'.readAts && s'.readAts[r] == s.readAts[r])
    && match view
       case None => IdOf(ref) !in s.orders && IdOf(ref) !in s'.orders && s'.returned == s.returned
       case Some(v) =>
         && s'.returned == s.returned[ref := v.version]
         && (ref in s.returned ==> s.returned[ref] <= v.version)
         && CacheGet(s'.cache, ref, s'.now) == Some(v)
  }

  /** The view is the order's document as it stood when its entry was read, less than ten seconds and
      that entry's own delay ago; within ten seconds if the delay is at most a millisecond. */
  predicate Recent(s: Service, ref: Ref, view: OrderView) {
    && ref in s.cache && s.cache[ref].view == view && ref in s.readAts
    && StoodAt(s.past, IdOf(ref), view, s.readAts[ref])
    && 0 <= s.now - s.readAts[ref] < 10000 + Delay(s, ref)
    && (Delay(s, ref) <= 1 ==> StoodWithin(s.past, IdOf(ref), view, s.now, 10000))
  }

  /** No document found now: there was none before either. */
  lemma NothingFound(s: Service, found: Service, ref: Ref)
    requires MovesForward(s.orders, found.orders) && IdOf(ref) !in found.orders
    ensures IdOf(ref) !in s.orders
  {
    assert IdOf(ref) in s.orders ==> DocForward(s.orders, found.orders, IdOf(ref));
  }

  /** Time passes, the document is read, time passes, the entry is written. */
  lemma MissAnswers(s: Service, found: Service, late: Service, call: CallId, ref: Ref)
    requires Passes(s, found) && Coherent(found) && IdOf(ref) in found.orders && call !in found.pending
    requires Passes(Step(found, Read(call, ref)), late) && call in late.pending
    ensures Answers(s, Step(late, Fill(call)), ref, Some(found.orders[IdOf(ref)]))
  {
    if ref in found.returned {
      assert EntryOk(found, ref);
      CachedIsBehind(found, ref);
    }
  }

  lemma OthersGoOn(s: Service, s': Service, a: Action, call: CallId)
    requires Meanwhile(s, s', call) && Enabled(s', a) && IsOther(a, call)
    ensures Meanwhile(s, Step(s', a), call)
  {
    if a.Elapse? {
      ForwardTransitive(s.orders, s'.orders, a.orders);
    }
  }

  lemma {:induction false} RunGoesOn(s: Service, acts: seq<Action>, a: Action)
    requires IsRun(s, acts) && Enabled(After(s, acts), a)
    ensures IsRun(s, acts + [a]) && After(s, acts + [a]) == Step(After(s, acts), a)
    decreases |acts|
  {
    if acts == [] {
      assert [a][1..] == [];
    } else {
      RunGoesOn(Step(s, acts[0]), acts[1..], a);
      assert (acts + [a])[1..] == acts[1..] + [a];
    }
  }

  /** Documents, cache, clock and the calls in flight. A call runs from one await to the next. */
  class OrdersQueryService {
    /** Whether no other call overlaps this service's calls. */
    const alone: bool
    ghost const start: Service
    var s: Service
    /** Everything that has happened. */
    ghost var acts: seq<Action>

    ghost predicate Valid()
      reads this
    {
      && start == Start(start.orders, start.now)
      && IsRun(start, acts) && After(start, acts) == s
    }

    lemma IsCoherent()
      requires Valid()
      ensures Coherent(s)
    {
      assert Reached(s);
      ReachedIsCoherent(s);
    }

    constructor (alone: bool, orders: map<string, OrderView>, now: Time)
      ensures Valid() && s == Start(orders, now) && this.alone == alone
    {
      this.alone, s, start := alone, Start(orders, now), Start(orders, now);
      acts := [];
    }

    method Take(a: Action)
      requires Valid() && Enabled(s, a)
      modifies this
      ensures Valid() && s == Step(old(s), a) && acts == old(acts) + [a]
    {
      RunGoesOn(start, acts, a);
      s := Step(s, a);
      acts := acts + [a];
    }

    /** Between any two awaits time passes, the projection worker writes and other calls take steps. */
    method Elsewhere(call: CallId)
      requires Valid()
      modifies this
      ensures Valid() && Meanwhile(old(s), s, call) && old(acts) <= acts
      ensures alone ==> Passes(old(s), s)
    {
      var elapsed: nat :| 0 <= elapsed;
      assert MovesForward(s.orders, s.orders);
      var after: map<string, OrderView> :| MovesForward(s.orders, after);
      Take(Elapse(s.now + elapsed, after));
      var steps: nat := *;
      while !alone && steps > 0
        invariant Valid() && Meanwhile(old(s), s, call) && old(acts) <= acts
        invariant alone ==> Passes(old(s), s)
      {
        steps := steps - 1;
        var a: Action := *;
        if Enabled(s, a) && IsOther(a, call) {
          OthersGoOn(old(s), s, a, call);
          Take(a);
        }
      }
    }

    /** Serves the cached view, or reads the document and caches it. */
    method GetOrder(call: CallId, ref: Ref) returns (view: Option<OrderView>)
      requires Valid() && call !in s.pending
      modifies this
      ensures Valid() && call !in s.pending && old(acts) <= acts
      ensures view.Some? ==> Recent(s, ref, view.value)
      ensures view.None? ==> IdOf(ref) !in old(s.orders) && IdOf(ref) !in s.orders
      ensures var hit := old(CacheGet(s.cache, ref, s.now));
        if hit.Some? then view == hit && s == Step(old(s), Hit(ref))
        else view.Some? ==> old(s.now) <= s.readAts[ref]
      ensures alone ==> Answers(old(s), s, ref, view)
    {
      var cached := CacheGet(s.cache, ref, s.now);
      if cached.Some? {
        IsCoherent();
        HitAge(s, ref);
        Take(Hit(ref));
        return cached;
      }
      view := ReadThrough(call, ref);
    }

    /** A cache miss: find the document, then cache it. */
    method ReadThrough(call: CallId, ref: Ref) returns (view: Option<OrderView>)
      requires Valid() && call !in s.pending
      modifies this
      ensures Valid() && call !in s.pending && old(acts) <= acts
      ensures view.Some? ==> Recent(s, ref, view.value) && old(s.now) <= s.readAts[ref]
      ensures view.None? ==> IdOf(ref) !in old(s.orders) && IdOf(ref) !in s.orders
      ensures alone ==> Answers(old(s), s, ref, view)
    {
      Elsewhere(call);
      IsCoherent();
      ghost var found := s;
      if IdOf(ref) !in s.orders {
        NothingFound(old(s), s, ref);
        return None;
      }
      ghost var late;
      view, late := FindAndCache(call, ref);
      if alone {
        MissAnswers(old(s), found, late, call, ref);
      }
    }

    /** There is a document. */
    method FindAndCache(call: CallId, ref: Ref) returns (view: Option<OrderView>, ghost late: Service)
      requires Valid() && call !in s.pending && IdOf(ref) in s.orders
      modifies this
      ensures Valid() && call !in s.pending && old(acts) <= acts && view == Some(old(s.orders)[IdOf(ref)])
      ensures Recent(s, ref, view.value) && s.readAts[ref] == old(s.now)
      ensures alone ==> Passes(Step(old(s), Read(call, ref)), late)
      ensures call in late.pending && s == Step(late, Fill(call))
    {
      view := Some(s.orders[IdOf(ref)]);
      Take(Read(call, ref));
      Elsewhere(call);
      late := s;
      Store(call);
    }

    /** Write the cache. */
    method Store(call: CallId)
      requires Valid() && call in s.pending
      modifies this
      ensures Valid() && s == Step(old(s), Fill(call)) && old(acts) <= acts
      ensures var p := old(s.pending[call]); Recent(s, p.ref, p.doc) && s.readAts[p.ref] == p.readAt
    {
      ghost var ref := s.pending[call].ref;
      Take(Fill(call));
      IsCoherent();
      HitAge(s, ref);
    }
  }
}
