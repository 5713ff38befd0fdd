/** What a merchant is shown, from end to end: snapshots of documents taken at any moments of any run
    of the pipeline, mixed with live views, converge in the client. */
module Snapshots {
  import opened Contracts
  import opened DispatchAggregate
  import opened AggregateStore
  import opened Poller
  import opened Projection
  import opened Pipeline
  import V = Views

  // ---- The time stamp of a document ----

  /** Outbox row i carries event number `version` of the aggregate. */
  predicate RowOf(db: Db, a: Agg, version: nat, i: nat) {
    i < |db.outbox| && LaneOfRow(db.outbox[i]) == LaneOf(a) && db.outbox[i].envelope.version == version
  }

  /** The document carries the time of the event that it stands at. */
  predicate Stamped(db: Db, version: nat, updatedAt: Time, a: Agg) {
    version == 0 || exists i :: 0 <= i < |db.outbox| && RowOf(db, a, version, i)
                                && db.outbox[i].envelope.occurredAt == updatedAt
  }

  ghost predicate Stamps(db: Db, rm: ReadModel) {
    forall a :: Clean(a) ==> Stamped(db, DocVersion(rm, a), UpdatedAt(rm, a), a)
  }

  /** The rows written so far stay, whatever their status. */
  predicate RowsStay(db: Db, db': Db) {
    |db.outbox| <= |db'.outbox| && forall i :: 0 <= i < |db.outbox| ==>
      db'.outbox[i].envelope == db.outbox[i].envelope && LaneOfRow(db'.outbox[i]) == LaneOfRow(db.outbox[i])
  }

  lemma StampStays(db: Db, db': Db, version: nat, updatedAt: Time, a: Agg)
    requires Stamped(db, version, updatedAt, a) && RowsStay(db, db')
    ensures Stamped(db', version, updatedAt, a)
  {
    if version > 0 {
      var i :| 0 <= i < |db.outbox| && RowOf(db, a, version, i) && db.outbox[i].envelope.occurredAt == updatedAt;
      assert RowOf(db', a, version, i);
    }
  }

  ghost predicate HistoriesGrow(db: Db, db': Db) {
    forall a :: Clean(a) ==> History(db, a) <= History(db', a)
  }

  ghost predicate Grows(db: Db, db': Db) {
    RowsStay(db, db') && HistoriesGrow(db, db')
  }

  lemma SameEventsGrow(db: Db, db': Db)
    requires db'.events == db.events && RowsStay(db, db')
    ensures Grows(db, db')
  {
    forall a | Clean(a) ensures History(db, a) <= History(db', a) {
      assert Stream(db, a) == Stream(db', a);
    }
  }

  lemma GrowsTransitive(a: Db, b: Db, c: Db)
    requires Grows(a, b) && Grows(b, c)
    ensures Grows(a, c)
  {
    forall x | Clean(x) ensures History(a, x) <= History(c, x) {
      assert History(a, x) <= History(b, x) <= History(c, x);
    }
  }

  lemma WriteGrows(sys: W.System, act: W.Action)
    requires W.Inv(sys) && W.Enabled(sys, act) && CreatedOk(sys.db)
    ensures Grows(sys.db, W.Step(sys, act).db)
  {
    WriteExtends(sys, act);
    W.StepKeepsInv(sys, act);
  }

  lemma PollEffectGrows(s: Pipe)
    ensures Grows(s.sys.db, Step(s, PollEffect).sys.db)
  {
    var db' := Step(s, PollEffect).sys.db;
    assert db'.events == s.sys.db.events;
    assert db'.outbox == s.sys.db.outbox || (s.batch != [] && db'.outbox == MarkSent(s.sys.db.outbox, s.batch[0].id));
    SameEventsGrow(s.sys.db, db');
  }

  lemma StepGrows(s: Pipe, act: Action)
    requires Inv(s) && Enabled(s, act)
    ensures Grows(s.sys.db, Step(s, act).sys.db)
  {
    if act.Write? {
      WriteGrows(s.sys, act.write);
    } else if act.PollEffect? {
      PollEffectGrows(s);
    } else {
      assert Step(s, act).sys.db == s.sys.db;
      SameEventsGrow(s.sys.db, s.sys.db);
    }
  }

  lemma MessageIsRow(db: Db, log: seq<Message>, m: Message, a: Agg)
    requires LogOk(db, log) && m in log && LaneOfMessage(m) == LaneOf(a)
    ensures Stamped(db, m.envelope.version, m.envelope.occurredAt, a)
  {
    assert FromOutbox(db, m);
    var i :| 0 <= i < |db.outbox| && m == MessageOf(db.outbox[i]);
    assert RowOf(db, a, m.envelope.version, i);
  }

  lemma UpsertKeepsStamps(db: Db, rm: ReadModel, env: Envelope, timeoutSeconds: nat, a: Agg)
    requires Stamps(db, rm) && Clean(a) && a == Agg(a.kind, env.tenantId, env.payload.orderId)
    requires Stamped(db, env.version, env.occurredAt, a)
    ensures Stamps(db, Upsert(a.kind, rm, env, timeoutSeconds))
  {
    var rm' := Upsert(a.kind, rm, env, timeoutSeconds);
    forall b | Clean(b) ensures Stamped(db, DocVersion(rm', b), UpdatedAt(rm', b), b) {
      assert Stamped(db, DocVersion(rm, b), UpdatedAt(rm, b), b);
      UpsertStamps(a.kind, rm, env, timeoutSeconds, b);
    }
  }

  /** The message at a consumer's cursor comes from a row of its aggregate. */
  lemma NextIsRow(s: Pipe, lane: Lane) returns (a: Agg)
    requires Inv(s) && CursorAt(s.cursors, lane).offset < |LaneLog(s.log, lane)|
    ensures var env := LaneLog(s.log, lane)[CursorAt(s.cursors, lane).offset].envelope;
      && Clean(a) && a == Agg(KindOf(lane.topic), env.tenantId, env.payload.orderId)
      && Stamped(s.sys.db, env.version, env.occurredAt, a)
  {
    var m := LaneLog(s.log, lane)[CursorAt(s.cursors, lane).offset];
    var i;
    a, i := NextIsNear(s, lane);
    assert m in LaneLog(s.log, lane);
    MessageIsRow(s.sys.db, s.log, m, a);
  }

  lemma UpsertStepKeepsStamps(s: Pipe, lane: Lane, timeoutSeconds: nat, a: Agg)
    requires Enabled(s, DoUpsert(lane, timeoutSeconds)) && Stamps(s.sys.db, s.rm) && Clean(a)
    requires var env := LaneLog(s.log, lane)[CursorAt(s.cursors, lane).offset].envelope;
      a == Agg(KindOf(lane.topic), env.tenantId, env.payload.orderId)
      && Stamped(s.sys.db, env.version, env.occurredAt, a)
    ensures Stamps(s.sys.db, Step(s, DoUpsert(lane, timeoutSeconds)).rm)
  {
    var env := LaneLog(s.log, lane)[CursorAt(s.cursors, lane).offset].envelope;
    UpsertKeepsStamps(s.sys.db, s.rm, env, timeoutSeconds, a);
    assert Step(s, DoUpsert(lane, timeoutSeconds)).rm
        == if Seen(a.kind, s.rm, env) then s.rm else Upsert(a.kind, s.rm, env, timeoutSeconds);
  }

  lemma GrowthKeepsStamps(db: Db, db': Db, rm: ReadModel)
    requires Stamps(db, rm) && RowsStay(db, db')
    ensures Stamps(db', rm)
  {
    forall a | Clean(a) ensures Stamped(db', DocVersion(rm, a), UpdatedAt(rm, a), a) {
      StampStays(db, db', DocVersion(rm, a), UpdatedAt(rm, a), a);
    }
  }

  lemma SameDocsKeepStamps(db: Db, rm: ReadModel, rm': ReadModel)
    requires Stamps(db, rm) && rm'.orders == rm.orders && rm'.dispatches == rm.dispatches
    ensures Stamps(db, rm')
  {
    forall a | Clean(a) ensures Stamped(db, DocVersion(rm', a), UpdatedAt(rm', a), a) {
      assert DocVersion(rm', a) == DocVersion(rm, a) && UpdatedAt(rm', a) == UpdatedAt(rm, a);
    }
  }

  lemma StepKeepsStamps(s: Pipe, act: Action)
    requires Inv(s) && Enabled(s, act) && Stamps(s.sys.db, s.rm)
    ensures Stamps(Step(s, act).sys.db, Step(s, act).rm)
  {
    assert Stamps(s.sys.db, Step(s, act).rm) by {
      if act.DoUpsert? {
        var a := NextIsRow(s, act.lane);
        UpsertStepKeepsStamps(s, act.lane, act.timeoutSeconds, a);
      } else {
        OtherStepsKeepDocs(s, act);
        SameDocsKeepStamps(s.sys.db, s.rm, Step(s, act).rm);
      }
    }
    StepGrows(s, act);
    GrowthKeepsStamps(s.sys.db, Step(s, act).sys.db, Step(s, act).rm);
  }

  lemma {:induction false} RunStamps(states: seq<Pipe>, k: nat)
    requires IsRun(states) && k < |states|
    ensures Stamps(states[k].sys.db, states[k].rm)
  {
    if k == 0 {
      NothingStamped();
    } else {
      RunStamps(states, k - 1);
      RunKeepsStamps(states, k);
    }
  }

  lemma NothingStamped()
    ensures Stamps(START.sys.db, START.rm)
  {
  }

  ghost predicate KeepsStamps(s: Pipe, s': Pipe) {
    Stamps(s.sys.db, s.rm) ==> Stamps(s'.sys.db, s'.rm)
  }

  lemma RunKeepsStamps(states: seq<Pipe>, k: nat)
    requires IsRun(states) && 0 < k < |states|
    ensures KeepsStamps(states[k - 1], states[k])
  {
    RunInv(states, k - 1);
    NextKeepsStamps(states[k - 1], states[k]);
  }

  lemma NextKeepsStamps(s: Pipe, s': Pipe)
    requires Inv(s) && Next(s, s')
    ensures KeepsStamps(s, s')
  {
    var act :| Enabled(s, act) && s' == Step(s, act);
    if Stamps(s.sys.db, s.rm) {
      StepKeepsStamps(s, act);
    }
  }

  lemma NextGrows(s: Pipe, s': Pipe)
    requires Inv(s) && Next(s, s')
    ensures Grows(s.sys.db, s'.sys.db)
  {
    var act :| Enabled(s, act) && s' == Step(s, act);
    StepGrows(s, act);
  }

  lemma {:induction false} ChainGrows(dbs: seq<Db>, k: nat, m: nat)
    requires k <= m < |dbs| && forall i :: 0 < i < |dbs| ==> Grows(dbs[i - 1], dbs[i])
    ensures Grows(dbs[k], dbs[m])
    decreases m
  {
    if k == m {
      SameEventsGrow(dbs[k], dbs[k]);
    } else {
      ChainGrows(dbs, k, m - 1);
      GrowsTransitive(dbs[k], dbs[m - 1], dbs[m]);
    }
  }

  function DbsOf(states: seq<Pipe>): (dbs: seq<Db>)
    ensures |dbs| == |states| && forall i :: 0 <= i < |states| ==> dbs[i] == states[i].sys.db
  {
    seq(|states|, i requires 0 <= i < |states| => states[i].sys.db)
  }

  lemma RunGrows(states: seq<Pipe>, k: nat, m: nat)
    requires IsRun(states) && k <= m < |states|
    ensures Grows(states[k].sys.db, states[m].sys.db)
  {
    var dbs := DbsOf(states);
    forall i | 0 < i < |dbs| ensures Grows(dbs[i - 1], dbs[i]) {
      RunInv(states, i - 1);
      NextGrows(states[i - 1], states[i]);
    }
    ChainGrows(dbs, k, m);
  }

  // ---- Snapshots ----

  /** The messages of one dispatch stream, in version order: what the live views are made from. */
  ghost predicate MessagesOf(db: Db, a: Agg, envs: seq<Envelope>) {
    |envs| == |History(db, a)| && forall n :: 0 <= n < |envs| ==> IsMessage(db, a, n + 1, envs[n])
  }

  predicate IsMessage(db: Db, a: Agg, version: nat, env: Envelope) {
    exists i :: 0 <= i < |db.outbox| && RowOf(db, a, version, i) && db.outbox[i].envelope == env
  }

  /** A row on the aggregate's lane carries an event of the aggregate, at its position. */
  lemma RowFacts(db: Db, a: Agg, version: nat, i: nat)
    requires WellFormed(db) && Clean(a) && RowOf(db, a, version, i)
    ensures 1 <= version <= |Stream(db, a)| && Stream(db, a)[version - 1] == db.events[i]
    ensures db.outbox[i].envelope.tenantId == a.tenantId && db.outbox[i].envelope.payload == History(db, a)[version - 1]
  {
    var r := db.events[i];
    assert RowOk(r) && Paired(r, db.outbox[i]);
    LaneInjective(AggOf(r), a);
    RowPosition(db, i);
  }

  lemma OneRowPerVersion(db: Db, a: Agg, version: nat, i: nat, k: nat)
    requires WellFormed(db) && Clean(a) && RowOf(db, a, version, i) && RowOf(db, a, version, k)
    ensures i == k
  {
    RowFacts(db, a, version, i);
    RowFacts(db, a, version, k);
    assert db.events[i].id == db.events[k].id;
  }

  lemma MessageFacts(db: Db, a: Agg, version: nat, env: Envelope)
    requires WellFormed(db) && Clean(a) && IsMessage(db, a, version, env)
    ensures 1 <= version <= |History(db, a)| && env.payload == History(db, a)[version - 1]
    ensures env.tenantId == a.tenantId && env.version == version
  {
    var i :| 0 <= i < |db.outbox| && RowOf(db, a, version, i) && db.outbox[i].envelope == env;
    RowFacts(db, a, version, i);
  }

  lemma MessagesMatch(db: Db, a: Agg, envs: seq<Envelope>, n: nat)
    requires WellFormed(db) && Clean(a) && MessagesOf(db, a, envs) && n < |envs|
    ensures envs[n].payload == History(db, a)[n] && envs[n].tenantId == a.tenantId && envs[n].version == n + 1
  {
    assert IsMessage(db, a, n + 1, envs[n]);
    MessageFacts(db, a, n + 1, envs[n]);
  }

  lemma MessagesAreStream(db: Db, a: Agg, envs: seq<Envelope>)
    requires WellFormed(db) && Clean(a) && a.kind.DispatchKind? && MessagesOf(db, a, envs)
    ensures V.PayloadsOf(envs) == History(db, a) && V.DispatchStream(a, envs)
  {
    var es := History(db, a);
    assert Legal(a, es) by {
      assert StreamOk(db, a);
    }
    assert V.PayloadsOf(envs) == es by {
      forall n | 0 <= n < |envs| ensures envs[n].payload == es[n] {
        MessagesMatch(db, a, envs, n);
      }
    }
    forall n | 0 <= n < |envs| ensures envs[n].tenantId == a.tenantId && envs[n].version == n + 1 {
      MessagesMatch(db, a, envs, n);
    }
  }

  /** The stamp of a document is the time of the message it stands at. */
  lemma StampIsMessage(db: Db, a: Agg, version: nat, updatedAt: Time, env: Envelope)
    requires WellFormed(db) && Clean(a) && version > 0
    requires Stamped(db, version, updatedAt, a) && IsMessage(db, a, version, env)
    ensures env.occurredAt == updatedAt
  {
    var i :| 0 <= i < |db.outbox| && RowOf(db, a, version, i) && db.outbox[i].envelope.occurredAt == updatedAt;
    var k :| 0 <= k < |db.outbox| && RowOf(db, a, version, k) && db.outbox[k].envelope == env;
    OneRowPerVersion(db, a, version, i, k);
  }

  function DocOf(s: Pipe, a: Agg): Option<DispatchView> {
    var id := DocId(a.tenantId, a.orderId);
    if id in s.rm.dispatches then Some(s.rm.dispatches[id]) else None
  }

  /** A document's stamp at one moment, against a message as of a later one. */
  lemma DocStamp(states: seq<Pipe>, k: nat, m: nat, a: Agg, env: Envelope)
    requires IsRun(states) && k <= m < |states| && Clean(a) && DocVersion(states[k].rm, a) > 0
    requires IsMessage(states[m].sys.db, a, DocVersion(states[k].rm, a), env)
    ensures env.occurredAt == UpdatedAt(states[k].rm, a)
  {
    var version, at := DocVersion(states[k].rm, a), UpdatedAt(states[k].rm, a);
    assert Stamped(states[k].sys.db, version, at, a) by {
      RunStamps(states, k);
    }
    assert Stamped(states[m].sys.db, version, at, a) by {
      RunGrows(states, k, m);
      StampStays(states[k].sys.db, states[m].sys.db, version, at, a);
    }
    assert WellFormed(states[m].sys.db) by {
      RunIsWellFormed(states, m);
    }
    StampIsMessage(states[m].sys.db, a, version, at, env);
  }

  lemma DocState(states: seq<Pipe>, k: nat, m: nat, a: Agg)
    requires IsRun(states) && k <= m < |states| && Clean(a) && a.kind.DispatchKind? && DocOf(states[k], a).Some?
    ensures var doc, es := DocOf(states[k], a).value, History(states[m].sys.db, a);
      1 <= doc.version <= |es| && DispatchDocIs(doc, a, DispatchStateOf(es[..doc.version]), doc.version)
  {
    var doc := DocOf(states[k], a).value;
    DocumentIsReplay(states, k, a);
    RunGrows(states, k, m);
    assert History(states[k].sys.db, a)[..doc.version] == History(states[m].sys.db, a)[..doc.version];
  }

  lemma RunIsWellFormed(states: seq<Pipe>, m: nat)
    requires IsRun(states) && m < |states|
    ensures WellFormed(states[m].sys.db)
  {
    RunInv(states, m);
  }

  /** What the document shows, given what it is. */
  lemma StoredIs(a: Agg, envs: seq<Envelope>, es: seq<Payload>, doc: DispatchView, offerTimeoutSeconds: nat)
    requires V.DispatchStream(a, envs) && V.PayloadsOf(envs) == es && 1 <= doc.version <= |envs|
    requires DispatchDocIs(doc, a, DispatchStateOf(es[..doc.version]), doc.version)
    requires doc.updatedAt == envs[doc.version - 1].occurredAt
    ensures V.Stored(a, envs, doc.version, offerTimeoutSeconds) == Some(V.ToDeliveryView(doc))
  {
    V.StreamPrefix(a, envs, doc.version);
    assert V.PayloadsOf(envs[..doc.version]) == es[..doc.version];
    V.ConsumedIsReplay(a, envs[..doc.version], offerTimeoutSeconds);
  }

  /** A snapshot taken at any moment of any run, with crashes and redeliveries behind it, is exactly
      the snapshot after some first n messages of the stream as it stands then or later. */
  lemma SnapshotOfAnyRun(states: seq<Pipe>, k: nat, m: nat, a: Agg, envs: seq<Envelope>, offerTimeoutSeconds: nat)
    requires IsRun(states) && k <= m < |states| && Clean(a) && a.kind.DispatchKind?
    requires MessagesOf(states[m].sys.db, a, envs) && DocOf(states[k], a).Some?
    ensures var doc := DocOf(states[k], a).value;
      && V.DispatchStream(a, envs) && 1 <= doc.version <= |envs|
      && V.Stored(a, envs, doc.version, offerTimeoutSeconds) == Some(V.ToDeliveryView(doc))
  {
    var doc := DocOf(states[k], a).value;
    DocState(states, k, m, a);
    StreamOfRun(states, m, a, envs);
    MessageAt(states[m].sys.db, a, envs, doc.version);
    DocStamp(states, k, m, a, envs[doc.version - 1]);
    StoredIs(a, envs, History(states[m].sys.db, a), doc, offerTimeoutSeconds);
  }

  lemma StreamOfRun(states: seq<Pipe>, m: nat, a: Agg, envs: seq<Envelope>)
    requires IsRun(states) && m < |states| && Clean(a) && a.kind.DispatchKind? && MessagesOf(states[m].sys.db, a, envs)
    ensures V.PayloadsOf(envs) == History(states[m].sys.db, a) && V.DispatchStream(a, envs)
  {
    RunIsWellFormed(states, m);
    MessagesAreStream(states[m].sys.db, a, envs);
  }

  lemma MessageAt(db: Db, a: Agg, envs: seq<Envelope>, version: nat)
    requires MessagesOf(db, a, envs) && 1 <= version <= |envs|
    ensures IsMessage(db, a, version, envs[version - 1])
  {
    var n := version - 1;
    assert IsMessage(db, a, n + 1, envs[n]);
  }

  // ---- What a merchant receives during a run ----

  /** A snapshot of an order's document taken at moment k, or the live view of its event n. */
  datatype Received = FromDocument(k: nat, orderId: OrderId) | FromStream(orderId: OrderId, n: nat)

  /** The dispatch streams of the tenant as they stand at moment m. */
  ghost predicate StreamsAt(states: seq<Pipe>, m: nat, t: TenantId, streams: map<OrderId, seq<Envelope>>)
    requires m < |states|
  {
    forall o :: o in streams ==> MessagesOf(states[m].sys.db, Agg(DispatchKind, t, o), streams[o])
  }

  /** Receiving view v by moment m. */
  predicate Gives(states: seq<Pipe>, m: nat, t: TenantId, streams: map<OrderId, seq<Envelope>>,
                  offerTimeoutSeconds: nat, r: Received, v: V.DeliveryView)
    requires m < |states|
  {
    match r
    case FromDocument(k, o) =>
      && k <= m && o in streams
      && var doc := DocOf(states[k], Agg(DispatchKind, t, o)); doc.Some? && v == V.ToDeliveryView(doc.value)
    case FromStream(o, n) => o in streams && 1 <= n <= |streams[o]|
                             && V.Live(streams[o], n, offerTimeoutSeconds) == Some(v)
  }

  function ReceiptOf(states: seq<Pipe>, t: TenantId, r: Received): V.Receipt {
    match r
    case FromDocument(k, o) =>
      var doc := if k < |states| then DocOf(states[k], Agg(DispatchKind, t, o)) else None;
      V.Snapshot(o, if doc.Some? then doc.value.version else 0)
    case FromStream(o, n) => V.LiveView(o, n)
  }

  lemma GivesReceipt(states: seq<Pipe>, m: nat, t: TenantId, streams: map<OrderId, seq<Envelope>>,
                     offerTimeoutSeconds: nat, r: Received, v: V.DeliveryView)
    requires IsRun(states) && m < |states| && NoColon(t) && StreamsAt(states, m, t, streams)
    requires Gives(states, m, t, streams, offerTimeoutSeconds, r, v)
    ensures var receipt := ReceiptOf(states, t, r);
      V.Sent(streams, receipt) && V.ViewOf(t, streams, receipt, offerTimeoutSeconds) == Some(v)
  {
    if r.FromDocument? {
      SnapshotOfAnyRun(states, r.k, m, Agg(DispatchKind, t, r.orderId), streams[r.orderId], offerTimeoutSeconds);
    }
  }

  lemma ReceiptsOf(states: seq<Pipe>, m: nat, t: TenantId, streams: map<OrderId, seq<Envelope>>,
                   offerTimeoutSeconds: nat, rs: seq<Received>, vs: seq<V.DeliveryView>)
    returns (receipts: seq<V.Receipt>)
    requires IsRun(states) && m < |states| && NoColon(t) && StreamsAt(states, m, t, streams)
    requires |rs| == |vs| && forall i ::
      0 <= i < |rs| ==> Gives(states, m, t, streams, offerTimeoutSeconds, rs[i], vs[i])
    ensures V.TenantStreams(t, streams) && V.Handed(t, streams, receipts, vs, offerTimeoutSeconds)
    ensures |receipts| == |rs| && forall i :: 0 <= i < |rs| ==> receipts[i].orderId == rs[i].orderId
  {
    receipts := seq(|rs|, i requires 0 <= i < |rs| => ReceiptOf(states, t, rs[i]));
    forall i | 0 <= i < |rs|
      ensures V.Sent(streams, receipts[i]) && V.ViewOf(t, streams, receipts[i], offerTimeoutSeconds) == Some(vs[i])
    {
      GivesReceipt(states, m, t, streams, offerTimeoutSeconds, rs[i], vs[i]);
    }
    forall o | o in streams ensures V.DispatchStream(Agg(DispatchKind, t, o), streams[o]) {
      StreamOfRun(states, m, Agg(DispatchKind, t, o), streams[o]);
    }
  }

  /** End to end: whatever snapshots and live views a merchant's client has received by moment m of any
      run, from whatever moments, in any order and any number of times, it shows for every order it has
      heard of the replay of the longest stream prefix heard of, and shows no other order. */
  lemma MerchantConverges(states: seq<Pipe>, m: nat, t: TenantId, streams: map<OrderId, seq<Envelope>>,
                          offerTimeoutSeconds: nat, rs: seq<Received>, vs: seq<V.DeliveryView>, orderId: OrderId)
    requires IsRun(states) && m < |states| && NoColon(t) && StreamsAt(states, m, t, streams)
    requires |rs| == |vs| && forall i ::
      0 <= i < |rs| ==> Gives(states, m, t, streams, offerTimeoutSeconds, rs[i], vs[i])
    ensures orderId in V.Merged(vs) <==> exists i :: 0 <= i < |rs| && rs[i].orderId == orderId
    ensures orderId in V.Merged(vs) ==>
      var shown := V.Merged(vs)[orderId];
      && orderId in streams && 1 <= shown.version <= |streams[orderId]|
      && V.Replayed(Agg(DispatchKind, t, orderId), streams[orderId], shown.version) == Some(shown)
      && forall i :: 0 <= i < |vs| && vs[i].orderId == orderId ==> vs[i].version <= shown.version
  {
    var receipts := ReceiptsOf(states, m, t, streams, offerTimeoutSeconds, rs, vs);
    V.ClientConverges(t, streams, receipts, vs, offerTimeoutSeconds, orderId);
    HeardOf(rs, receipts, orderId);
    NoneIsNewer(vs, orderId);
  }

  lemma HeardOf(rs: seq<Received>, receipts: seq<V.Receipt>, orderId: OrderId)
    requires |rs| == |receipts| && forall i :: 0 <= i < |rs| ==> receipts[i].orderId == rs[i].orderId
    ensures (exists r :: r in receipts && r.orderId == orderId) <==>
      exists i :: 0 <= i < |rs| && rs[i].orderId == orderId
  {
    if r :| r in receipts && r.orderId == orderId {
      var i :| 0 <= i < |receipts| && receipts[i] == r;
      assert rs[i].orderId == orderId;
    }
    if i :| 0 <= i < |rs| && rs[i].orderId == orderId {
      assert receipts[i] in receipts;
    }
  }

  /** What the client shows is the newest view it was handed for the order. */
  lemma NoneIsNewer(vs: seq<V.DeliveryView>, orderId: OrderId)
    ensures orderId in V.Merged(vs) ==>
      forall i :: 0 <= i < |vs| && vs[i].orderId == orderId ==> vs[i].version <= V.Merged(vs)[orderId].version
  {
    V.MergedHoldsNewest(vs, orderId);
  }
}
