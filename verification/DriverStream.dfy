/** The per-driver event stream: which of the tenant's live dispatch views one driver is sent. */
module DriverStream {
  import opened Contracts
  import opened Sequences
  import opened DispatchAggregate
  import opened Projection
  import opened Views

  predicate IsForDriver(view: DispatchView, driverId: DriverId) {
    view.offeredDriverId == Some(driverId) || view.driverId == Some(driverId)
  }

  function Stamped(view: DispatchView, driverId: DriverId): DispatchView {
    if view.driverId.Some? then view else view.(driverId := Some(driverId))
  }

  // ---- Feeds ----

  function OfOrder(orderId: OrderId): Envelope -> bool {
    (env: Envelope) => env.payload.orderId == orderId
  }

  /** The feed without what was delivered before. */
  function Fresh(feed: seq<Envelope>): seq<Envelope> {
    if feed == [] then []
    else
      var front, last := feed[..|feed| - 1], feed[|feed| - 1];
      if last in front then Fresh(front) else Fresh(front) + [last]
  }

  /** One order's share of an interleaved feed. */
  function Share(feed: seq<Envelope>, orderId: OrderId): seq<Payload> {
    PayloadsOf(Filter(OfOrder(orderId), Fresh(feed)))
  }

  /** Redelivery aside, the feed interleaves dispatch streams from their beginning. */
  ghost predicate Interleaves(feed: seq<Envelope>) {
    forall o: OrderId :: LegalDispatch(o, Share(feed, o))
  }

  lemma ShareStep(feed: seq<Envelope>, env: Envelope, o: OrderId)
    ensures Share(feed + [env], o) ==
      if env.payload.orderId == o && env !in feed then Share(feed, o) + [env.payload] else Share(feed, o)
  {
    assert (feed + [env])[..|feed|] == feed;
    FilterAppend(OfOrder(o), Fresh(feed), env);
  }

  lemma InterleavesPrefix(feed: seq<Envelope>, env: Envelope)
    requires Interleaves(feed + [env])
    ensures Interleaves(feed)
    ensures env !in feed ==> DispatchAdmits(env.payload.orderId, Share(feed, env.payload.orderId), env.payload)
  {
    forall o: OrderId ensures LegalDispatch(o, Share(feed, o)) {
      ShareStep(feed, env, o);
      assert LegalDispatch(o, Share(feed + [env], o));
      if env.payload.orderId == o && env !in feed {
        LegalPrefix(o, Share(feed, o), env.payload);
      }
    }
    var o := env.payload.orderId;
    ShareStep(feed, env, o);
    assert LegalDispatch(o, Share(feed + [env], o));
    DispatchGrammarStep(o, Share(feed, o), env.payload);
  }

  // ---- Whose job it is ----

  /** The driver the order has been accepted by, according to the replayed share. */
  function Owner(feed: seq<Envelope>, orderId: OrderId): Option<DriverId> {
    DispatchStateOf(Share(feed, orderId)).driverId
  }

  /** A job that is not offered or only offered has no driver. */
  lemma OwnerByStatus(orderId: OrderId, es: seq<Payload>)
    requires LegalDispatch(orderId, es)
    ensures var s := DispatchStateOf(es); (s.status == None || s.status == Some(OFFERED)) ==> s.driverId == None
  {
    var offers: nat :| Shape(es, offers);
    ShapeStates(es, offers);
  }

  /** The driver of a job changes once, from nobody to the driver who accepts. */
  lemma OwnerStep(orderId: OrderId, es: seq<Payload>, e: Payload)
    requires LegalDispatch(orderId, es) && DispatchAdmits(orderId, es, e)
    ensures var before, after := DispatchStateOf(es).driverId, DispatchStateOf(es + [e]).driverId;
      && (if e.DispatchAccepted? then before == None && after == Some(e.driverId) else after == before)
      && (e.DriverOffered? ==> after == None)
    ensures IsDispatchEvent(e)
  {
    FoldAppend(FoldDispatch, INITIAL_DISPATCH_STATE, es, e);
    AdmitsByCommand(orderId, es, e);
    OwnerByStatus(orderId, es);
  }

  /** Ownership never changes hands. */
  lemma OwnerIsFinal(feed: seq<Envelope>, env: Envelope, o: OrderId)
    requires Interleaves(feed + [env])
    ensures Owner(feed, o).Some? ==> Owner(feed + [env], o) == Owner(feed, o)
    ensures Owner(feed + [env], o) != Owner(feed, o) <==>
      env !in feed && env.payload.DispatchAccepted? && env.payload.orderId == o
    ensures env !in feed && env.payload.DispatchAccepted? ==>
      Owner(feed + [env], env.payload.orderId) == Some(env.payload.driverId)
    ensures env !in feed && env.payload.DriverOffered? ==> Owner(feed + [env], env.payload.orderId) == None
    ensures env !in feed ==> IsDispatchEvent(env.payload)
  {
    InterleavesPrefix(feed, env);
    ShareStep(feed, env, o);
    ShareStep(feed, env, env.payload.orderId);
    if env !in feed {
      OwnerStep(env.payload.orderId, Share(feed, env.payload.orderId), env.payload);
    }
  }

  predicate IsAcceptance(env: Envelope, o: OrderId, d: DriverId) {
    env.payload == DispatchAccepted(o, d)
  }

  predicate AcceptedBy(heard: seq<Envelope>, o: OrderId, d: DriverId) {
    exists env :: env in heard && IsAcceptance(env, o, d)
  }

  lemma AcceptedStep(heard: seq<Envelope>, env: Envelope, o: OrderId, d: DriverId)
    ensures AcceptedBy(heard + [env], o, d) <==> AcceptedBy(heard, o, d) || IsAcceptance(env, o, d)
  {
    assert env in heard + [env] && forall x :: x in heard ==> x in heard + [env];
  }

  /** A job is a driver's exactly when the feed holds their acceptance of it. */
  lemma {:induction false} OwnerIff(feed: seq<Envelope>, o: OrderId, d: DriverId)
    requires Interleaves(feed)
    ensures Owner(feed, o) == Some(d) <==> AcceptedBy(feed, o, d)
  {
    if feed != [] {
      var front, last := feed[..|feed| - 1], feed[|feed| - 1];
      assert feed == front + [last];
      InterleavesPrefix(front, last);
      OwnerIff(front, o, d);
      OwnerIsFinal(front, last, o);
      AcceptedStep(front, last, o, d);
      if last !in front && IsAcceptance(last, o, d) {
        assert Owner(feed, o) == Some(d);
      }
    }
  }

  lemma {:induction false} OwnerOfPrefix(orderId: OrderId, es: seq<Payload>, n: nat)
    requires LegalDispatch(orderId, es) && n <= |es| && DispatchStateOf(es[..n]).driverId.Some?
    ensures DispatchStateOf(es).driverId == DispatchStateOf(es[..n]).driverId
    decreases |es|
  {
    if n == |es| {
      assert es[..n] == es;
    } else {
      var front, last := es[..|es| - 1], es[|es| - 1];
      assert es == front + [last] && front[..n] == es[..n];
      LegalPrefix(orderId, front, last);
      OwnerOfPrefix(orderId, front, n);
      DispatchGrammarStep(orderId, front, last);
      OwnerStep(orderId, front, last);
    }
  }

  // ---- What a driver is due ----

  /** The view shown on opening names the driver as having the job. */
  predicate Names(shown: Option<DispatchView>, o: OrderId, d: DriverId) {
    shown.Some? && shown.value.orderId == o && shown.value.driverId == Some(d)
  }

  /** The connection has learnt that the job is the driver's: it was shown so on opening, or has heard
      the acceptance. */
  predicate Known(shown: Option<DispatchView>, heard: seq<Envelope>, o: OrderId, d: DriverId) {
    Names(shown, o, d) || AcceptedBy(heard, o, d)
  }

  /** The last message heard concerns the driver, because it offers the job to them or because by then
      the job is known to be theirs. */
  predicate Concerns(shown: Option<DispatchView>, heard: seq<Envelope>, d: DriverId)
    requires heard != []
  {
    var last := heard[|heard| - 1].payload;
    (last.DriverOffered? && last.driverId == d) || Known(shown, heard, last.orderId, d)
  }

  /** What a driver must be sent: the view shown on opening, then the live view of every message that
      concerns them, each in their name. */
  function DueTo(shown: Option<DispatchView>, heard: seq<Envelope>, d: DriverId, offerTimeoutSeconds: nat)
    : seq<DispatchView>
  {
    if heard == [] then (if shown.Some? then [Stamped(shown.value, d)] else [])
    else
      var before := DueTo(shown, heard[..|heard| - 1], d, offerTimeoutSeconds);
      var view := ToDispatchView(heard[|heard| - 1], offerTimeoutSeconds);
      if Concerns(shown, heard, d) && view.Some? then before + [Stamped(view.value, d)] else before
  }

  /** Message i offers the job to the driver, or the job is theirs as the opening view said or by an
      acceptance heard up to then. */
  predicate Relevant(shown: Option<DispatchView>, heard: seq<Envelope>, i: nat, d: DriverId)
    requires i < |heard|
  {
    var o := heard[i].payload.orderId;
    || heard[i].payload == DriverOffered(o, d)
    || (shown.Some? && shown.value.orderId == o && shown.value.driverId == Some(d))
    || exists j :: 0 <= j <= i && heard[j].payload == DispatchAccepted(o, d)
  }

  /** The view with the driver's name on it, unless it carries a name already. */
  predicate InName(sent: DispatchView, view: DispatchView, d: DriverId) {
    if view.driverId.Some? then sent == view else sent == view.(driverId := Some(d))
  }

  /** The positions of the relevant dispatch messages, in order. */
  predicate Positions(at: seq<nat>, shown: Option<DispatchView>, heard: seq<Envelope>, d: DriverId) {
    && (forall n, m :: 0 <= n < m < |at| ==> at[n] < at[m])
    && (forall n :: 0 <= n < |at| ==> at[n] < |heard|)
    && forall i :: 0 <= i < |heard| ==>
         (i in at <==> IsDispatchEvent(heard[i].payload) && Relevant(shown, heard, i, d))
  }

  /** The opening view, if there is one, then the live views at the positions, one each. */
  predicate SentAre(sent: seq<DispatchView>, at: seq<nat>, shown: Option<DispatchView>, heard: seq<Envelope>,
                    d: DriverId, offerTimeoutSeconds: nat) {
    var first := if shown.Some? then 1 else 0;
    && |sent| == first + |at|
    && (shown.Some? ==> InName(sent[0], shown.value, d))
    && forall n :: 0 <= n < |at| ==>
         && at[n] < |heard|
         && var view := ToDispatchView(heard[at[n]], offerTimeoutSeconds);
            view.Some? && InName(sent[first + n], view.value, d)
  }

  lemma RelevantInFront(shown: Option<DispatchView>, front: seq<Envelope>, env: Envelope, i: nat, d: DriverId)
    requires i < |front|
    ensures Relevant(shown, front + [env], i, d) <==> Relevant(shown, front, i, d)
  {
    assert forall j :: 0 <= j <= i ==> (front + [env])[j] == front[j];
  }

  lemma ConcernsIsRelevant(shown: Option<DispatchView>, front: seq<Envelope>, env: Envelope, d: DriverId)
    ensures Concerns(shown, front + [env], d) <==> Relevant(shown, front + [env], |front|, d)
  {
    var heard, o := front + [env], env.payload.orderId;
    if AcceptedBy(heard, o, d) {
      var x :| x in heard && IsAcceptance(x, o, d);
      var j :| 0 <= j < |heard| && heard[j] == x;
      assert heard[j].payload == DispatchAccepted(o, d);
    }
    if j :| 0 <= j <= |front| && heard[j].payload == DispatchAccepted(o, d) {
      assert heard[j] in heard && IsAcceptance(heard[j], o, d);
    }
  }

  /** Completeness, on positions: what a driver is due is the opening view, and then, in the order heard
      and one for each, the live view of exactly the messages that offer them a job or belong to a job
      known to be theirs by then. */
  lemma {:induction false} DueIsComplete(shown: Option<DispatchView>, heard: seq<Envelope>, d: DriverId,
                                         offerTimeoutSeconds: nat) returns (at: seq<nat>)
    ensures Positions(at, shown, heard, d)
    ensures SentAre(DueTo(shown, heard, d, offerTimeoutSeconds), at, shown, heard, d, offerTimeoutSeconds)
  {
    if heard == [] {
      at := [];
    } else {
      var n := |heard| - 1;
      var front, env := heard[..n], heard[n];
      assert heard == front + [env];
      var before := DueIsComplete(shown, front, d, offerTimeoutSeconds);
      at := if IsDispatchEvent(env.payload) && Relevant(shown, heard, n, d) then before + [n] else before;
      PositionsAfter(before, at, shown, front, env, d);
      SentAfter(before, at, shown, front, env, d, offerTimeoutSeconds);
    }
  }

  lemma PositionsAfter(before: seq<nat>, at: seq<nat>, shown: Option<DispatchView>, front: seq<Envelope>, env: Envelope,
                       d: DriverId)
    requires Positions(before, shown, front, d)
    requires at == if IsDispatchEvent(env.payload) && Relevant(shown, front + [env], |front|, d) then before + [|front|]
                   else before
    ensures Positions(at, shown, front + [env], d)
  {
    forall i: nat | i < |front| ensures Relevant(shown, front + [env], i, d) <==> Relevant(shown, front, i, d) {
      RelevantInFront(shown, front, env, i, d);
    }
    forall i | 0 <= i < |front| ensures i in at <==> i in before {
    }
  }

  lemma SentAfter(before: seq<nat>, at: seq<nat>, shown: Option<DispatchView>, front: seq<Envelope>, env: Envelope,
                  d: DriverId, offerTimeoutSeconds: nat)
    requires SentAre(DueTo(shown, front, d, offerTimeoutSeconds), before, shown, front, d, offerTimeoutSeconds)
    requires at == if IsDispatchEvent(env.payload) && Relevant(shown, front + [env], |front|, d) then before + [|front|]
                   else before
    ensures SentAre(DueTo(shown, front + [env], d, offerTimeoutSeconds), at, shown, front + [env], d,
                    offerTimeoutSeconds)
  {
    assert (front + [env])[..|front|] == front;
    ConcernsIsRelevant(shown, front, env, d);
  }

  /** What the query for a driver's current offer or job can find. */
  predicate Found(view: DispatchView, d: DriverId) {
    || (view.status == OFFERED && view.offeredDriverId == Some(d))
    || ((view.status == DISPATCHED || view.status == PICKED_UP) && view.driverId == Some(d))
  }

  /** What is shown is a document as it stood after some first events of its stream in the topic. */
  ghost predicate ShownFrom(shown: Option<DispatchView>, topic: seq<Envelope>, d: DriverId) {
    shown.Some? ==>
      var v := shown.value;
      && Found(v, d)
      && v.version <= |Share(topic, v.orderId)|
      && DispatchDocIs(v, Agg(DispatchKind, v.tenantId, v.orderId),
                       DispatchStateOf(Share(topic, v.orderId)[..v.version]), v.version)
  }

  lemma ShownIsTrue(shown: Option<DispatchView>, topic: seq<Envelope>, d: DriverId, o: OrderId)
    requires Interleaves(topic) && ShownFrom(shown, topic, d) && Names(shown, o, d)
    ensures Owner(topic, o) == Some(d)
  {
    assert LegalDispatch(o, Share(topic, o));
    OwnerOfPrefix(o, Share(topic, o), shown.value.version);
  }

  predicate OffersTo(view: DispatchView, d: DriverId) {
    view.status == OFFERED && view.offeredDriverId == Some(d)
  }

  /** What a connection knows is true, whatever part of the topic it has heard, in whatever order. */
  lemma KnownIsTrue(topic: seq<Envelope>, shown: Option<DispatchView>, heard: seq<Envelope>, d: DriverId, o: OrderId)
    requires Interleaves(topic) && ShownFrom(shown, topic, d) && forall env :: env in heard ==> env in topic
    requires Known(shown, heard, o, d)
    ensures Owner(topic, o) == Some(d)
  {
    if Names(shown, o, d) {
      ShownIsTrue(shown, topic, d, o);
    } else {
      OwnerIff(topic, o, d);
    }
  }

  /** Whenever a connection opens, whatever it hears, in whatever order and however often: all it is due
      is in the driver's own name, and is an offer made to them or about a job of theirs, never about
      a job of another driver. */
  lemma {:induction false} DueIsOwn(topic: seq<Envelope>, shown: Option<DispatchView>, heard: seq<Envelope>,
                                    d: DriverId, offerTimeoutSeconds: nat)
    requires Interleaves(topic) && ShownFrom(shown, topic, d) && forall env :: env in heard ==> env in topic
    ensures forall v :: v in DueTo(shown, heard, d, offerTimeoutSeconds) ==>
      v.driverId == Some(d) && (OffersTo(v, d) || Owner(topic, v.orderId) == Some(d))
  {
    if heard == [] {
      if shown.Some? && shown.value.driverId.Some? {
        ShownHasJob(topic, shown, d);
      }
    } else {
      var front, last := heard[..|heard| - 1], heard[|heard| - 1];
      DueIsOwn(topic, shown, front, d, offerTimeoutSeconds);
      var view := ToDispatchView(last, offerTimeoutSeconds);
      if Concerns(shown, heard, d) && view.Some? {
        LastIsOwn(topic, shown, heard, d, offerTimeoutSeconds);
      }
    }
  }

  /** A document that is found and has a driver has this one. */
  lemma ShownHasJob(topic: seq<Envelope>, shown: Option<DispatchView>, d: DriverId)
    requires Interleaves(topic) && ShownFrom(shown, topic, d) && shown.Some? && shown.value.driverId.Some?
    ensures shown.value.driverId == Some(d) && Owner(topic, shown.value.orderId) == Some(d)
  {
    var v := shown.value;
    var es := Share(topic, v.orderId);
    assert LegalDispatch(v.orderId, es);
    LegalPrefixes(v.orderId, es, v.version);
    OwnerByStatus(v.orderId, es[..v.version]);
    ShownIsTrue(shown, topic, d, v.orderId);
  }

  lemma LastIsOwn(topic: seq<Envelope>, shown: Option<DispatchView>, heard: seq<Envelope>,
                  d: DriverId, offerTimeoutSeconds: nat)
    requires Interleaves(topic) && ShownFrom(shown, topic, d) && forall env :: env in heard ==> env in topic
    requires heard != [] && Concerns(shown, heard, d)
    requires ToDispatchView(heard[|heard| - 1], offerTimeoutSeconds).Some?
    ensures var v := Stamped(ToDispatchView(heard[|heard| - 1], offerTimeoutSeconds).value, d);
      v.driverId == Some(d) && (OffersTo(v, d) || Owner(topic, v.orderId) == Some(d))
  {
    var last := heard[|heard| - 1];
    if Known(shown, heard, last.payload.orderId, d) {
      KnownIsTrue(topic, shown, heard, d, last.payload.orderId);
    }
    if last.payload.DispatchAccepted? {
      var x := last.payload.driverId;
      assert last in topic && IsAcceptance(last, last.payload.orderId, x);
      OwnerIff(topic, last.payload.orderId, x);
    }
  }

  // ---- Against the replayed owner ----

  /** A connection opened after `past` knows exactly the driver's jobs if and only if, of the jobs that
      were theirs already, it was shown or has heard again the acceptance of each. Jobs accepted later
      are always known. */
  lemma KnownIsExactIff(past: seq<Envelope>, live: seq<Envelope>, shown: Option<DispatchView>, d: DriverId)
    requires Interleaves(past) && Interleaves(past + live) && ShownFrom(shown, past + live, d)
    ensures (forall o :: Known(shown, live, o, d) <==> Owner(past + live, o) == Some(d)) <==>
      forall o :: Owner(past, o) == Some(d) ==> Known(shown, live, o, d)
  {
    forall o
      ensures Known(shown, live, o, d) ==> Owner(past + live, o) == Some(d)
      ensures Owner(past + live, o) == Some(d) <==> Owner(past, o) == Some(d) || AcceptedBy(live, o, d)
    {
      if Known(shown, live, o, d) {
        KnownIsTrue(past + live, shown, live, d, o);
      }
      OwnerIff(past + live, o, d);
      OwnerIff(past, o, d);
      AcceptedApart(past, live, o, d);
    }
  }

  lemma AcceptedApart(past: seq<Envelope>, live: seq<Envelope>, o: OrderId, d: DriverId)
    ensures AcceptedBy(past + live, o, d) <==> AcceptedBy(past, o, d) || AcceptedBy(live, o, d)
  {
    assert forall env :: env in past + live <==> env in past || env in live;
  }

  function OwnedAfter(owned: set<OrderId>, view: DispatchView, driverId: DriverId): set<OrderId> {
    if view.driverId == Some(driverId) then owned + {view.orderId} else owned
  }

  /** The reference, by replay: the last message of the feed offers the job to the driver, or by then
      the job is theirs. */
  predicate ConcernsByReplay(feed: seq<Envelope>, d: DriverId)
    requires feed != []
  {
    var last := feed[|feed| - 1].payload;
    (last.DriverOffered? && last.driverId == d) || Owner(feed, last.orderId) == Some(d)
  }

  ghost predicate OwnsExactly(owned: set<OrderId>, feed: seq<Envelope>, driverId: DriverId) {
    forall o: OrderId :: o in owned <==> Owner(feed, o) == Some(driverId)
  }

  /** On a feed heard from its beginning, with any redelivery: the filter decides on the view and the
      owned set alone, and that is enough; the owned set stays exact. */
  lemma FilterIsExact(feed: seq<Envelope>, env: Envelope, driverId: DriverId, offerTimeoutSeconds: nat,
                      owned: set<OrderId>)
    requires Interleaves(feed + [env]) && OwnsExactly(owned, feed, driverId) && IsDispatchEvent(env.payload)
    ensures var view := ToDispatchView(env, offerTimeoutSeconds);
      && view.Some? && view.value.orderId == env.payload.orderId
      && var owned' := OwnedAfter(owned, view.value, driverId);
      && OwnsExactly(owned', feed + [env], driverId)
      && var accept := IsForDriver(view.value, driverId) || view.value.orderId in owned';
      && (accept <==> ConcernsByReplay(feed + [env], driverId))
      && (accept ==> Stamped(view.value, driverId) == view.value.(driverId := Some(driverId)))
  {
    InterleavesPrefix(feed, env);
    var view := ToDispatchView(env, offerTimeoutSeconds).value;
    var owned' := OwnedAfter(owned, view, driverId);
    forall o: OrderId ensures o in owned' <==> Owner(feed + [env], o) == Some(driverId) {
      OwnerIff(feed, o, driverId);
      OwnerIff(feed + [env], o, driverId);
      AcceptedStep(feed, env, o, driverId);
    }
    assert view.orderId in owned' <==> Owner(feed + [env], view.orderId) == Some(driverId);
    assert view.offeredDriverId == Some(driverId) <==> env.payload.DriverOffered? && env.payload.driverId == driverId;
    if view.driverId.Some? {
      assert env in feed + [env] && IsAcceptance(env, view.orderId, view.driverId.value);
      OwnerIff(feed + [env], view.orderId, view.driverId.value);
    }
  }

  /** On such a feed the offer of a job to somebody else is sent to the driver exactly when it is
      redelivered after the job has become theirs. */
  lemma StrayOfferIff(feed: seq<Envelope>, env: Envelope, d: DriverId)
    requires Interleaves(feed + [env]) && env.payload.DriverOffered? && env.payload.driverId != d
    ensures ConcernsByReplay(feed + [env], d) <==> env in feed && Owner(feed, env.payload.orderId) == Some(d)
  {
    OwnerIsFinal(feed, env, env.payload.orderId);
  }

  predicate EachOnce(feed: seq<Envelope>) {
    feed == [] || (feed[|feed| - 1] !in feed[..|feed| - 1] && EachOnce(feed[..|feed| - 1]))
  }

  /** Without redelivery every offer sent is an offer made to the driver. */
  lemma {:induction false} OffersAreTheirs(feed: seq<Envelope>, d: DriverId, offerTimeoutSeconds: nat)
    requires Interleaves(feed) && EachOnce(feed)
    ensures forall v :: v in DueTo(None, feed, d, offerTimeoutSeconds) && v.status == OFFERED ==> OffersTo(v, d)
  {
    if feed != [] {
      var front, last := feed[..|feed| - 1], feed[|feed| - 1];
      assert feed == front + [last];
      InterleavesPrefix(front, last);
      OffersAreTheirs(front, d, offerTimeoutSeconds);
      OwnerIsFinal(front, last, last.payload.orderId);
      OwnerIff(feed, last.payload.orderId, d);
    }
  }

  /** A feed of one job, each message once. */
  predicate OneJob(feed: seq<Envelope>, o: OrderId) {
    forall i :: 0 <= i < |feed| ==> feed[i].payload.orderId == o && feed[i] !in feed[..i]
  }

  lemma PayloadsStep(feed: seq<Envelope>, env: Envelope)
    ensures PayloadsOf(feed + [env]) == PayloadsOf(feed) + [env.payload]
  {
  }

  lemma OneJobStep(front: seq<Envelope>, last: Envelope, o: OrderId, x: OrderId)
    requires Share(front, x) == if x == o then PayloadsOf(front) else []
    requires last !in front && last.payload.orderId == o
    ensures Share(front + [last], x) == if x == o then PayloadsOf(front + [last]) else []
  {
    ShareStep(front, last, x);
    PayloadsStep(front, last);
  }

  lemma OneJobShare(feed: seq<Envelope>, o: OrderId, x: OrderId)
    requires OneJob(feed, o)
    ensures Share(feed, x) == if x == o then PayloadsOf(feed) else []
  {
    assert Share([], x) == [] && PayloadsOf([]) == [];
    assert feed[..0] == [];
    for i := 0 to |feed|
      invariant Share(feed[..i], x) == if x == o then PayloadsOf(feed[..i]) else []
    {
      OneJobStep(feed[..i], feed[i], o, x);
      assert feed[..i + 1] == feed[..i] + [feed[i]];
    }
    assert feed[..|feed|] == feed;
  }

  lemma OneJobInterleaves(feed: seq<Envelope>, o: OrderId)
    requires OneJob(feed, o) && LegalDispatch(o, PayloadsOf(feed))
    ensures Interleaves(feed)
  {
    forall x: OrderId ensures LegalDispatch(x, Share(feed, x)) {
      OneJobShare(feed, o, x);
      EmptyIsLegal(x);
    }
  }

  /** One job: offered, accepted and perhaps picked up. */
  lemma JobInterleaves(feed: seq<Envelope>, o: OrderId, d: DriverId)
    requires 2 <= |feed| <= 3
    requires feed[0].payload == DriverOffered(o, d) && feed[1].payload == DispatchAccepted(o, d)
    requires |feed| == 3 ==> feed[2].payload == OrderPickedUp(o)
    ensures Interleaves(feed) && Owner(feed, o) == Some(d) && Share(feed, o) == PayloadsOf(feed)
  {
    assert OneJob(feed, o);
    assert Shape(PayloadsOf(feed), 1);
    OneJobInterleaves(feed, o);
    OneJobShare(feed, o, o);
    assert feed[1] in feed && IsAcceptance(feed[1], o, d);
    OwnerIff(feed, o, d);
  }

  lemma OfferHasNoDriver(o: OrderId, d: DriverId)
    ensures DispatchStateOf([DriverOffered(o, d)]) == DispatchState(Some(OFFERED), Some(d), None, None)
  {
    FoldAppend(FoldDispatch, INITIAL_DISPATCH_STATE, [], DriverOffered(o, d));
    assert [] + [DriverOffered(o, d)] == [DriverOffered(o, d)];
  }

  /** Opened in the middle of a job: the offer is shown, the acceptance passes before the live messages
      begin, and the driver is not sent the pickup of their own job. */
  lemma AcceptedUnheard(shown: DispatchView, offered: Envelope, accepted: Envelope, picked: Envelope,
                        o: OrderId, d: DriverId, offerTimeoutSeconds: nat)
    requires offered.payload == DriverOffered(o, d) && accepted.payload == DispatchAccepted(o, d)
    requires picked.payload == OrderPickedUp(o)
    requires DispatchDocIs(shown, Agg(DispatchKind, shown.tenantId, o), DispatchStateOf([offered.payload]), 1)
    ensures var past, live := [offered, accepted], [picked];
      && Interleaves(past) && Interleaves(past + live) && ShownFrom(Some(shown), past, d)
      && Owner(past, o) == Some(d)
      && DueTo(Some(shown), live, d, offerTimeoutSeconds) == DueTo(Some(shown), [], d, offerTimeoutSeconds)
  {
    var past, live := [offered, accepted], [picked];
    JobInterleaves(past, o, d);
    JobInterleaves(past + live, o, d);
    OfferHasNoDriver(o, d);
    assert Share(past, o)[..1] == [offered.payload];
    UnknownJob(shown, picked, o, d, offerTimeoutSeconds);
  }

  lemma UnknownJob(shown: DispatchView, picked: Envelope, o: OrderId, d: DriverId, offerTimeoutSeconds: nat)
    requires picked.payload == OrderPickedUp(o) && shown.driverId == None
    ensures DueTo(Some(shown), [picked], d, offerTimeoutSeconds) == DueTo(Some(shown), [], d, offerTimeoutSeconds)
  {
    assert !Concerns(Some(shown), [picked], d);
    assert [picked][..0] == [];
  }

  /** Hearing one more message. */
  lemma KnownAfter(shown: Option<DispatchView>, heard: seq<Envelope>, env: Envelope, d: DriverId,
                   owned: set<OrderId>, offerTimeoutSeconds: nat)
    requires forall o: OrderId :: o in owned <==> Known(shown, heard, o, d)
    ensures var view := ToDispatchView(env, offerTimeoutSeconds);
      var owned' := if view.Some? then OwnedAfter(owned, view.value, d) else owned;
      forall o: OrderId :: o in owned' <==> Known(shown, heard + [env], o, d)
  {
    forall o: OrderId ensures AcceptedBy(heard + [env], o, d) <==> AcceptedBy(heard, o, d) || IsAcceptance(env, o, d) {
      AcceptedStep(heard, env, o, d);
    }
  }

  lemma DueAfter(shown: Option<DispatchView>, heard: seq<Envelope>, env: Envelope, d: DriverId,
                 offerTimeoutSeconds: nat)
    ensures var view, before := ToDispatchView(env, offerTimeoutSeconds), DueTo(shown, heard, d, offerTimeoutSeconds);
      DueTo(shown, heard + [env], d, offerTimeoutSeconds) ==
        if view.Some? && (IsForDriver(view.value, d) || Known(shown, heard + [env], view.value.orderId, d))
        then before + [Stamped(view.value, d)] else before
  {
    assert (heard + [env])[..|heard|] == heard;
    AcceptedStep(heard, env, env.payload.orderId, d);
  }

  class DriverConnection {
    const driverId: DriverId
    const offerTimeoutSeconds: nat
    var owned: set<OrderId>
    var sent: seq<DispatchView>
    /** What was shown on opening, and every message heard since. */
    ghost const shown: Option<DispatchView>
    ghost var heard: seq<Envelope>

    /** The connection owns exactly the jobs it has learnt to be the driver's, and has been sent exactly
        what it was due. */
    ghost predicate Valid()
      reads this
    {
      && (forall o: OrderId :: o in owned <==> Known(shown, heard, o, driverId))
      && sent == DueTo(shown, heard, driverId, offerTimeoutSeconds)
    }

    /** Opens with the driver's current offer or job, if the query finds one. */
    constructor (driverId: DriverId, offerTimeoutSeconds: nat, found: Option<DispatchView>)
      requires found.Some? ==> Found(found.value, driverId)
      ensures Valid() && heard == [] && shown == found
      ensures match found
        case None => sent == []
        case Some(view) => |sent| == 1 && InName(sent[0], view, driverId)
      ensures this.driverId == driverId && this.offerTimeoutSeconds == offerTimeoutSeconds
    {
      this.driverId, this.offerTimeoutSeconds := driverId, offerTimeoutSeconds;
      shown, heard := found, [];
      owned, sent := {}, [];
      new;
      if found.Some? {
        var accept := AcceptForDriver(found.value);
        if accept {
          sent := sent + [Stamped(found.value, driverId)];
        }
      }
    }

    method AcceptForDriver(view: DispatchView) returns (accept: bool)
      modifies this`owned
      ensures owned == OwnedAfter(old(owned), view, driverId)
      ensures accept <==> IsForDriver(view, driverId) || view.orderId in owned
    {
      if view.driverId == Some(driverId) {
        owned := owned + {view.orderId};
      }
      return IsForDriver(view, driverId) || view.orderId in owned;
    }

    method OnMessage(env: Envelope)
      requires Valid()
      modifies this
      ensures Valid() && heard == old(heard) + [env]
    {
      KnownAfter(shown, heard, env, driverId, owned, offerTimeoutSeconds);
      DueAfter(shown, heard, env, driverId, offerTimeoutSeconds);
      var view := ToDispatchView(env, offerTimeoutSeconds);
      heard := heard + [env];
      if view.Some? {
        var accept := AcceptForDriver(view.value);
        if accept {
          sent := sent + [Stamped(view.value, driverId)];
        }
      }
    }
  }
}
