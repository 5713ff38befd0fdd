/** The read-side dispatch views: the stored document, its live mirror sent over the event
    stream, and the merchant client's per-order map that merges both. */
module Views {
  import opened Contracts
  import opened Sequences
  import opened DispatchAggregate
  import opened Projection

  /** What leaves the system: the dispatch without any driver identity. */
  datatype DeliveryView = DeliveryView(
    tenantId: TenantId,
    orderId: OrderId,
    status: DispatchStatus,
    reason: Option<string>,
    version: nat,
    updatedAt: Time)

  function ToDeliveryView(v: DispatchView): DeliveryView {
    DeliveryView(v.tenantId, v.orderId, v.status, v.reason, v.version, v.updatedAt)
  }

  /** The live view of one event; it knows nothing of the events before it. */
  function ToDispatchView(env: Envelope, offerTimeoutSeconds: nat): Option<DispatchView> {
    var orderId := env.payload.orderId;
    match env.payload
    case DriverOffered(_, d) =>
      Some(DispatchView(env.tenantId, orderId, OFFERED, None, Some(d), None, env.version, env.occurredAt,
                        Some(env.occurredAt + offerTimeoutSeconds * 1000)))
    case DispatchAccepted(_, d) =>
      Some(DispatchView(env.tenantId, orderId, DISPATCHED, Some(d), None, None, env.version, env.occurredAt, None))
    case OrderPickedUp(_) =>
      Some(DispatchView(env.tenantId, orderId, PICKED_UP, None, None, None, env.version, env.occurredAt, None))
    case OrderDelivered(_) =>
      Some(DispatchView(env.tenantId, orderId, DELIVERED, None, None, None, env.version, env.occurredAt, None))
    case DispatchFailed(_, reason) =>
      Some(DispatchView(env.tenantId, orderId, FAILED, None, None, Some(reason), env.version, env.occurredAt, None))
    case _ => None
  }

  // ---- Live view and stored document ----

  function PayloadsOf(envs: seq<Envelope>): (es: seq<Payload>)
    ensures |es| == |envs| && forall i :: 0 <= i < |envs| ==> es[i] == envs[i].payload
  {
    seq(|envs|, i requires 0 <= i < |envs| => envs[i].payload)
  }

  /** The messages of one dispatch stream, in version order. */
  ghost predicate DispatchStream(a: Agg, envs: seq<Envelope>) {
    && a.kind.DispatchKind?
    && (forall i :: 0 <= i < |envs| ==> envs[i].tenantId == a.tenantId && envs[i].version == i + 1)
    && LegalDispatch(a.orderId, PayloadsOf(envs))
  }

  /** The document collection after consuming the messages in order. */
  function Consumed(envs: seq<Envelope>, offerTimeoutSeconds: nat): map<string, DispatchView> {
    if envs == [] then map[]
    else UpsertDispatch(Consumed(envs[..|envs| - 1], offerTimeoutSeconds), envs[|envs| - 1], offerTimeoutSeconds)
  }

  /** The one document is the replayed state after n events, the last of them at `at`, with the
      deadline of the last offer. */
  predicate DocOf(docs: map<string, DispatchView>, a: Agg, state: DispatchState, n: nat, at: Time,
                  deadline: Option<Time>) {
    var id := DocId(a.tenantId, a.orderId);
    if n == 0 then docs == map[] && state == INITIAL_DISPATCH_STATE && deadline == None
    else
      && docs.Keys == {id} && DispatchDocIs(docs[id], a, state, n)
      && docs[id].updatedAt == at && docs[id].offerExpiresAt == deadline
  }

  function LastAt(envs: seq<Envelope>): Time {
    if envs == [] then 0 else envs[|envs| - 1].occurredAt
  }

  /** When the offer made last runs out. */
  function Deadline(envs: seq<Envelope>, offerTimeoutSeconds: nat): Option<Time> {
    if envs == [] then None
    else
      var last := envs[|envs| - 1];
      if last.payload.DriverOffered? then Some(last.occurredAt + offerTimeoutSeconds * 1000)
      else Deadline(envs[..|envs| - 1], offerTimeoutSeconds)
  }

  lemma ConsumeOne(docs: map<string, DispatchView>, a: Agg, state: DispatchState, n: nat, at: Time,
                   deadline: Option<Time>, env: Envelope, offerTimeoutSeconds: nat)
    requires DocOf(docs, a, state, n, at, deadline)
    requires env.tenantId == a.tenantId && env.payload.orderId == a.orderId && env.version == n + 1
    requires IsDispatchEvent(env.payload)
    ensures DocOf(UpsertDispatch(docs, env, offerTimeoutSeconds), a, FoldDispatch(state, env.payload),
                  n + 1, env.occurredAt,
                  if env.payload.DriverOffered? then Some(env.occurredAt + offerTimeoutSeconds * 1000) else deadline)
  {
  }

  lemma StreamPrefix(a: Agg, envs: seq<Envelope>, n: nat)
    requires DispatchStream(a, envs) && n <= |envs|
    ensures DispatchStream(a, envs[..n]) && PayloadsOf(envs[..n]) == PayloadsOf(envs)[..n]
    ensures forall i :: 0 <= i < |envs| ==> envs[i].payload.orderId == a.orderId && IsDispatchEvent(envs[i].payload)
  {
    LegalPrefixes(a.orderId, PayloadsOf(envs), n);
    assert PayloadsOf(envs[..n]) == PayloadsOf(envs)[..n];
    DispatchEventsOnly(a.orderId, PayloadsOf(envs));
    forall i | 0 <= i < |envs| ensures envs[i].payload.orderId == a.orderId && IsDispatchEvent(envs[i].payload) {
      assert PayloadsOf(envs)[i] in PayloadsOf(envs);
    }
  }

  /** In-order consumption leaves one document, and it is the replay of the stream. */
  lemma {:induction false} ConsumedIsReplay(a: Agg, envs: seq<Envelope>, offerTimeoutSeconds: nat)
    requires DispatchStream(a, envs)
    ensures DocOf(Consumed(envs, offerTimeoutSeconds), a, DispatchStateOf(PayloadsOf(envs)), |envs|,
                  LastAt(envs), Deadline(envs, offerTimeoutSeconds))
  {
    if envs != [] {
      var n := |envs| - 1;
      var front, last := envs[..n], envs[n];
      StreamPrefix(a, envs, n);
      assert DispatchStateOf(PayloadsOf(envs)) == FoldDispatch(DispatchStateOf(PayloadsOf(front)), last.payload);
      ConsumedIsReplay(a, front, offerTimeoutSeconds);
      ConsumeOne(Consumed(front, offerTimeoutSeconds), a, DispatchStateOf(PayloadsOf(front)), n, LastAt(front),
                 Deadline(front, offerTimeoutSeconds), last, offerTimeoutSeconds);
    }
  }

  /** The delivery view of the stored document after the first n messages. */
  function Stored(a: Agg, envs: seq<Envelope>, n: nat, offerTimeoutSeconds: nat): Option<DeliveryView>
    requires n <= |envs|
  {
    var docs := Consumed(envs[..n], offerTimeoutSeconds);
    var id := DocId(a.tenantId, a.orderId);
    if id in docs then Some(ToDeliveryView(docs[id])) else None
  }

  /** The delivery view of the live message of event n. */
  function Live(envs: seq<Envelope>, n: nat, offerTimeoutSeconds: nat): Option<DeliveryView>
    requires 1 <= n <= |envs|
  {
    var view := ToDispatchView(envs[n - 1], offerTimeoutSeconds);
    if view.Some? then Some(ToDeliveryView(view.value)) else None
  }

  /** The reference: the delivery view of the replayed stream prefix. */
  function Replayed(a: Agg, envs: seq<Envelope>, n: nat): Option<DeliveryView>
    requires 1 <= n <= |envs|
  {
    var state := DispatchStateOf(PayloadsOf(envs[..n]));
    if state.status.None? then None
    else Some(DeliveryView(a.tenantId, a.orderId, state.status.value, state.reason, n, envs[n - 1].occurredAt))
  }

  /** A failure ends the dispatch: nothing follows it. */
  lemma FailedIsLast(orderId: OrderId, es: seq<Payload>, i: nat)
    requires LegalDispatch(orderId, es) && i < |es| && es[i].DispatchFailed?
    ensures i == |es| - 1
  {
    var offers: nat :| Shape(es, offers);
  }

  lemma {:induction false} ReasonIsFailure(es: seq<Payload>)
    ensures DispatchStateOf(es).reason.Some? <==> exists i :: 0 <= i < |es| && es[i].DispatchFailed?
  {
    if es != [] {
      var front := es[..|es| - 1];
      ReasonIsFailure(front);
      if DispatchStateOf(front).reason.Some? {
        var i :| 0 <= i < |front| && front[i].DispatchFailed?;
        assert es[i].DispatchFailed?;
      }
      if es[|es| - 1].DispatchFailed? {
        assert DispatchStateOf(es).reason.Some?;
      }
      if i :| 0 <= i < |es| && es[i].DispatchFailed? {
        assert i < |front| ==> front[i].DispatchFailed?;
      }
    }
  }

  /** On every list of dispatch events, allowed or not, the live view of the last event agrees
      with the replay exactly when that event is itself a failure or no failure came before it. */
  lemma LiveEqualsReplayIff(a: Agg, envs: seq<Envelope>, n: nat, offerTimeoutSeconds: nat)
    requires 1 <= n <= |envs|
    requires forall i :: 0 <= i < |envs| ==>
      envs[i].tenantId == a.tenantId && envs[i].version == i + 1 &&
      envs[i].payload.orderId == a.orderId && IsDispatchEvent(envs[i].payload)
    ensures Live(envs, n, offerTimeoutSeconds) == Replayed(a, envs, n) <==>
      envs[n - 1].payload.DispatchFailed? || forall i :: 0 <= i < n - 1 ==> !envs[i].payload.DispatchFailed?
  {
    var es := PayloadsOf(envs[..n]);
    var front := es[..n - 1];
    assert es == front + [envs[n - 1].payload];
    FoldAppend(FoldDispatch, INITIAL_DISPATCH_STATE, front, envs[n - 1].payload);
    ReasonIsFailure(front);
    assert forall i :: 0 <= i < n - 1 ==> front[i] == envs[i].payload;
  }

  /** For a dispatch stream the two always agree, because a failure is always the last event;
      so a subscriber sees the same thing whether it reads the document or the live view. */
  lemma LiveEqualsStored(a: Agg, envs: seq<Envelope>, n: nat, offerTimeoutSeconds: nat)
    requires DispatchStream(a, envs) && 1 <= n <= |envs|
    ensures Replayed(a, envs, n).Some?
    ensures Live(envs, n, offerTimeoutSeconds) == Stored(a, envs, n, offerTimeoutSeconds) == Replayed(a, envs, n)
  {
    StreamPrefix(a, envs, n);
    ConsumedIsReplay(a, envs[..n], offerTimeoutSeconds);
    LiveEqualsReplayIff(a, envs, n, offerTimeoutSeconds);
    forall i | 0 <= i < n - 1 ensures !envs[i].payload.DispatchFailed? {
      if envs[i].payload.DispatchFailed? {
        FailedIsLast(a.orderId, PayloadsOf(envs), i);
      }
    }
  }

  /** A history of several events starts with an offer; an offer means nobody has the job. */
  lemma OfferFirst(orderId: OrderId, es: seq<Payload>)
    requires LegalDispatch(orderId, es) && es != []
    ensures |es| > 1 ==> DispatchStateOf(es).offeredDriverId.Some?
    ensures es[|es| - 1].DriverOffered? ==>
      DispatchStateOf(es) == DispatchState(Some(OFFERED), Some(es[|es| - 1].driverId), None, None)
    ensures |es| == 1 ==> es[0].DriverOffered? || es[0].DispatchFailed?
  {
    var offers: nat :| Shape(es, offers);
    ShapeStates(es, offers);
  }

  /** Stripping the driver is needed: in full, the live view and the document agree after an offer
      and after a first event, and never otherwise, because the live view has forgotten the offer. */
  lemma FullViewsAgreeIff(a: Agg, envs: seq<Envelope>, offerTimeoutSeconds: nat)
    requires DispatchStream(a, envs) && envs != []
    ensures DocId(a.tenantId, a.orderId) in Consumed(envs, offerTimeoutSeconds)
    ensures ToDispatchView(envs[|envs| - 1], offerTimeoutSeconds) ==
      Some(Consumed(envs, offerTimeoutSeconds)[DocId(a.tenantId, a.orderId)])
      <==> envs[|envs| - 1].payload.DriverOffered? || |envs| == 1
  {
    var n := |envs| - 1;
    var es, front := PayloadsOf(envs), PayloadsOf(envs[..n]);
    StreamPrefix(a, envs, n);
    ConsumedIsReplay(a, envs, offerTimeoutSeconds);
    OfferFirst(a.orderId, es);
    assert DispatchStateOf(es) == FoldDispatch(DispatchStateOf(front), envs[n].payload);
  }

  /** For instance after an offer and its acceptance: the document still names the offer, the live view
      does not; without the driver they agree. */
  lemma AcceptedViewsDiffer(a: Agg, offered: Envelope, accepted: Envelope, d: DriverId, offerTimeoutSeconds: nat)
    requires a.kind.DispatchKind? && offered.tenantId == accepted.tenantId == a.tenantId
    requires offered.version == 1 && offered.payload == DriverOffered(a.orderId, d)
    requires accepted.version == 2 && accepted.payload == DispatchAccepted(a.orderId, d)
    ensures var envs := [offered, accepted];
      && DispatchStream(a, envs)
      && DocId(a.tenantId, a.orderId) in Consumed(envs, offerTimeoutSeconds)
      && ToDispatchView(accepted, offerTimeoutSeconds)
         != Some(Consumed(envs, offerTimeoutSeconds)[DocId(a.tenantId, a.orderId)])
      && Live(envs, 2, offerTimeoutSeconds) == Stored(a, envs, 2, offerTimeoutSeconds)
  {
    var envs := [offered, accepted];
    assert PayloadsOf(envs) == [DriverOffered(a.orderId, d), DispatchAccepted(a.orderId, d)];
    assert Shape(PayloadsOf(envs), 1);
    FullViewsAgreeIff(a, envs, offerTimeoutSeconds);
    LiveEqualsStored(a, envs, 2, offerTimeoutSeconds);
  }

  // ---- The client's map ----

  function ReduceDispatch(prev: Option<DeliveryView>, next: DeliveryView): DeliveryView {
    if prev.None? || prev.value.orderId != next.orderId then next
    else if next.version >= prev.value.version then next
    else prev.value
  }

  function ReduceDispatchMap(prev: map<OrderId, DeliveryView>, next: DeliveryView): map<OrderId, DeliveryView> {
    prev[next.orderId := ReduceDispatch(if next.orderId in prev then Some(prev[next.orderId]) else None, next)]
  }

  function Merged(views: seq<DeliveryView>): map<OrderId, DeliveryView> {
    FoldAll(ReduceDispatchMap, map[], views)
  }

  predicate Received(views: seq<DeliveryView>, orderId: OrderId) {
    exists i :: 0 <= i < |views| && views[i].orderId == orderId
  }

  /** Position k holds the newest view of its order, and the last one of that version. */
  predicate IsLastOfNewest(views: seq<DeliveryView>, k: nat)
    requires k < |views|
  {
    forall i :: 0 <= i < |views| && views[i].orderId == views[k].orderId ==>
      views[i].version <= views[k].version && (i > k ==> views[i].version < views[k].version)
  }

  predicate ShowsNewest(views: seq<DeliveryView>, v: DeliveryView) {
    exists k :: 0 <= k < |views| && views[k] == v && IsLastOfNewest(views, k)
  }

  /** Receiving one more view. */
  lemma NewestStep(front: seq<DeliveryView>, next: DeliveryView, prev: Option<DeliveryView>)
    requires prev.Some? ==> prev.value.orderId == next.orderId && ShowsNewest(front, prev.value)
    requires prev.None? ==> !Received(front, next.orderId)
    ensures ReduceDispatch(prev, next).orderId == next.orderId
    ensures ShowsNewest(front + [next], ReduceDispatch(prev, next))
  {
    var views := front + [next];
    if prev.None? || next.version >= prev.value.version {
      assert views[|front|] == next;
      assert IsLastOfNewest(views, |front|) by {
        forall i | 0 <= i < |front| && views[i].orderId == next.orderId ensures views[i].version <= next.version {
          assert front[i] == views[i];
        }
      }
    } else {
      NewestStays(front, next, prev.value);
    }
  }

  lemma NewestStays(front: seq<DeliveryView>, next: DeliveryView, v: DeliveryView)
    requires ShowsNewest(front, v) && (next.orderId != v.orderId || next.version < v.version)
    ensures ShowsNewest(front + [next], v)
  {
    var views := front + [next];
    var k :| 0 <= k < |front| && front[k] == v && IsLastOfNewest(front, k);
    assert views[k] == v;
    assert forall i :: 0 <= i < |front| ==> views[i] == front[i];
    assert IsLastOfNewest(views, k);
  }

  /** Whatever is received, in whatever order: the map holds, for exactly the orders seen, the
      newest view received, and of equally new ones the last. */
  lemma {:induction false} MergedHoldsNewest(views: seq<DeliveryView>, orderId: OrderId)
    ensures orderId in Merged(views) <==> Received(views, orderId)
    ensures orderId in Merged(views) ==>
      Merged(views)[orderId].orderId == orderId && ShowsNewest(views, Merged(views)[orderId])
  {
    if views != [] {
      var n := |views| - 1;
      var front, next := views[..n], views[n];
      assert views == front + [next];
      MergedHoldsNewest(front, orderId);
      assert Received(front, orderId) ==> Received(views, orderId) by {
        if Received(front, orderId) {
          var i :| 0 <= i < |front| && front[i].orderId == orderId;
          assert views[i].orderId == orderId;
        }
      }
      assert Received(views, orderId) && next.orderId != orderId ==> Received(front, orderId) by {
        if i :| 0 <= i < |views| && views[i].orderId == orderId && next.orderId != orderId {
          assert front[i].orderId == orderId;
        }
      }
      if next.orderId == orderId {
        NewestStep(front, next, if orderId in Merged(front) then Some(Merged(front)[orderId]) else None);
      } else if orderId in Merged(front) {
        NewestStays(front, next, Merged(front)[orderId]);
      }
    }
  }

  /** Two views of one order and version are the same view. */
  ghost predicate Consistent(views: seq<DeliveryView>) {
    forall v, w | v in views && w in views && v.orderId == w.orderId && v.version == w.version :: v == w
  }

  /** Any two deliveries of the same views, reordered and duplicated at will, end in the same map. */
  lemma MergeConverges(vs: seq<DeliveryView>, ws: seq<DeliveryView>)
    requires Consistent(vs) && forall v :: v in vs <==> v in ws
    ensures Merged(vs) == Merged(ws)
  {
    forall o: OrderId
      ensures o in Merged(vs) <==> o in Merged(ws)
      ensures o in Merged(vs) ==> Merged(vs)[o] == Merged(ws)[o]
    {
      MergedHoldsNewest(vs, o);
      MergedHoldsNewest(ws, o);
      if Received(vs, o) {
        SameOrders(vs, ws, o);
      }
      if Received(ws, o) {
        SameOrders(ws, vs, o);
      }
      if o in Merged(vs) {
        NewestDominates(vs, ws, Merged(vs)[o], Merged(ws)[o]);
        NewestDominates(ws, vs, Merged(ws)[o], Merged(vs)[o]);
      }
    }
  }

  lemma SameOrders(vs: seq<DeliveryView>, ws: seq<DeliveryView>, orderId: OrderId)
    requires forall v :: v in vs ==> v in ws
    requires Received(vs, orderId)
    ensures Received(ws, orderId)
  {
    var i :| 0 <= i < |vs| && vs[i].orderId == orderId;
    assert vs[i] in ws;
  }

  lemma NewestDominates(vs: seq<DeliveryView>, ws: seq<DeliveryView>, v: DeliveryView, w: DeliveryView)
    requires ShowsNewest(vs, v) && ShowsNewest(ws, w) && v.orderId == w.orderId
    requires forall x :: x in vs <==> x in ws
    ensures v in vs && w in vs && w.version <= v.version
  {
    var m :| 0 <= m < |ws| && ws[m] == w && IsLastOfNewest(ws, m);
    assert w in vs;
    var i :| 0 <= i < |vs| && vs[i] == w;
  }

  // ---- What a merchant receives ----

  /** One thing received: the snapshot of an order after n events, or the live view of event n. */
  datatype Receipt = Snapshot(orderId: OrderId, n: nat) | LiveView(orderId: OrderId, n: nat)

  /** The dispatch streams of one tenant, one per order. */
  ghost predicate TenantStreams(t: TenantId, streams: map<OrderId, seq<Envelope>>) {
    forall o :: o in streams ==> DispatchStream(Agg(DispatchKind, t, o), streams[o])
  }

  predicate Sent(streams: map<OrderId, seq<Envelope>>, r: Receipt) {
    r.orderId in streams && 1 <= r.n <= |streams[r.orderId]|
  }

  /** Snapshots come from the document, live views from the event. */
  function ViewOf(t: TenantId, streams: map<OrderId, seq<Envelope>>, r: Receipt,
                  offerTimeoutSeconds: nat): Option<DeliveryView>
    requires Sent(streams, r)
  {
    if r.Snapshot? then Stored(Agg(DispatchKind, t, r.orderId), streams[r.orderId], r.n, offerTimeoutSeconds)
    else Live(streams[r.orderId], r.n, offerTimeoutSeconds)
  }

  /** The view is the replay of the stream prefix that the receipt names. */
  predicate IsReplay(t: TenantId, streams: map<OrderId, seq<Envelope>>, r: Receipt, v: DeliveryView)
    requires Sent(streams, r)
  {
    && v.orderId == r.orderId && v.version == r.n
    && Replayed(Agg(DispatchKind, t, r.orderId), streams[r.orderId], r.n) == Some(v)
  }

  lemma ViewIsReplay(t: TenantId, streams: map<OrderId, seq<Envelope>>, r: Receipt, offerTimeoutSeconds: nat)
    requires TenantStreams(t, streams) && Sent(streams, r)
    ensures var v := ViewOf(t, streams, r, offerTimeoutSeconds); v.Some? && IsReplay(t, streams, r, v.value)
  {
    LiveEqualsStored(Agg(DispatchKind, t, r.orderId), streams[r.orderId], r.n, offerTimeoutSeconds);
  }

  /** What the client is handed for what it received. */
  predicate Handed(t: TenantId, streams: map<OrderId, seq<Envelope>>, rs: seq<Receipt>, vs: seq<DeliveryView>,
                   offerTimeoutSeconds: nat) {
    && |vs| == |rs|
    && forall i :: 0 <= i < |rs| ==>
         Sent(streams, rs[i]) && ViewOf(t, streams, rs[i], offerTimeoutSeconds) == Some(vs[i])
  }

  /** Version n is the highest that any receipt for the order names. */
  predicate IsHighest(rs: seq<Receipt>, orderId: OrderId, n: nat) {
    && (exists i :: 0 <= i < |rs| && rs[i].orderId == orderId && rs[i].n == n)
    && (forall i :: 0 <= i < |rs| && rs[i].orderId == orderId ==> rs[i].n <= n)
  }

  /** The views name the orders and versions that the receipts name. */
  predicate Names(rs: seq<Receipt>, vs: seq<DeliveryView>) {
    |vs| == |rs| && forall i :: 0 <= i < |rs| ==> vs[i].orderId == rs[i].orderId && vs[i].version == rs[i].n
  }

  lemma ShownIsHighest(rs: seq<Receipt>, vs: seq<DeliveryView>, orderId: OrderId) returns (k: nat)
    requires Names(rs, vs) && orderId in Merged(vs)
    ensures k < |rs| && vs[k] == Merged(vs)[orderId] && rs[k].orderId == orderId && IsHighest(rs, orderId, rs[k].n)
  {
    MergedHoldsNewest(vs, orderId);
    k :| 0 <= k < |vs| && vs[k] == Merged(vs)[orderId] && IsLastOfNewest(vs, k);
    forall i | 0 <= i < |rs| && rs[i].orderId == orderId ensures rs[i].n <= rs[k].n {
      assert vs[i].version <= vs[k].version;
    }
  }

  lemma HeardIsShown(rs: seq<Receipt>, vs: seq<DeliveryView>, r: Receipt)
    requires Names(rs, vs) && r in rs
    ensures r.orderId in Merged(vs)
  {
    MergedHoldsNewest(vs, r.orderId);
    var i :| 0 <= i < |rs| && rs[i] == r;
    assert vs[i].orderId == r.orderId;
  }

  /** Convergence: whatever mixture of snapshots and live views arrives, in any order and any
      number of times, the client shows an order exactly when it has heard of it, and then shows
      the replay of the longest stream prefix it has heard of. */
  lemma ClientConverges(t: TenantId, streams: map<OrderId, seq<Envelope>>, rs: seq<Receipt>, vs: seq<DeliveryView>,
                        offerTimeoutSeconds: nat, orderId: OrderId)
    requires TenantStreams(t, streams) && Handed(t, streams, rs, vs, offerTimeoutSeconds)
    ensures orderId in Merged(vs) <==> exists r :: r in rs && r.orderId == orderId
    ensures orderId in Merged(vs) ==>
      var shown := Merged(vs)[orderId];
      && IsHighest(rs, orderId, shown.version)
      && orderId in streams && 1 <= shown.version <= |streams[orderId]|
      && Replayed(Agg(DispatchKind, t, orderId), streams[orderId], shown.version) == Some(shown)
  {
    forall i | 0 <= i < |rs| ensures Sent(streams, rs[i]) && IsReplay(t, streams, rs[i], vs[i]) {
      ViewIsReplay(t, streams, rs[i], offerTimeoutSeconds);
    }
    if orderId in Merged(vs) {
      var k := ShownIsHighest(rs, vs, orderId);
      assert rs[k] in rs && IsReplay(t, streams, rs[k], vs[k]);
    }
    if r :| r in rs && r.orderId == orderId {
      HeardIsShown(rs, vs, r);
    }
  }
}
