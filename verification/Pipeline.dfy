/** The whole path of an event: concurrent writers, outbox, poller, topics, consumers, read
    model. Any component may crash between two of its effects and every message may be
    redelivered; consumers may rewind but never skip. */
module Pipeline {
  import opened Contracts
  import opened Sequences
  import opened AggregateStore
  import W = Writers
  import opened Poller
  import opened Projection

  datatype Lane = Lane(topic: Topic, key: string)

  /** A consumer between two of its effects on the message at `offset`. */
  datatype Stage = Reading | Upserted | Recorded
  datatype Cursor = Cursor(offset: nat, stage: Stage)

  datatype Pipe = Pipe(
    sys: W.System,
    log: seq<Message>,
    batch: seq<OutboxRow>,
    published: bool,
    cursors: map<Lane, Cursor>,
    rm: ReadModel)

  const START := Pipe(W.START, [], [], false, map[], EMPTY_MODEL)

  function LaneOf(a: Agg): Lane {
    Lane(TopicOf(a.kind), PartitionKey(a.tenantId, AggregateId(a)))
  }

  function LaneOfRow(o: OutboxRow): Lane {
    Lane(o.topic, o.partitionKey)
  }

  function LaneOfMessage(m: Message): Lane {
    Lane(m.topic, m.key)
  }

  function InLane(lane: Lane): Message -> bool {
    (m: Message) => LaneOfMessage(m) == lane
  }

  function LaneLog(log: seq<Message>, lane: Lane): seq<Message> {
    Filter(InLane(lane), log)
  }

  function CursorAt(cursors: map<Lane, Cursor>, lane: Lane): Cursor {
    if lane in cursors then cursors[lane] else Cursor(0, Reading)
  }

  function KindOf(topic: Topic): Kind {
    if topic.OrderEvents? then OrderKind else DispatchKind
  }

  datatype Action =
    | Write(write: W.Action)
    | Poll
    | PollEffect
    | PollCrash
    | DoUpsert(lane: Lane, timeoutSeconds: nat)
    | DoRecord(lane: Lane)
    | DoCommit(lane: Lane)
    | Rewind(lane: Lane, offset: nat)

  ghost predicate Enabled(s: Pipe, act: Action) {
    match act
    case Write(write) => W.Enabled(s.sys, write)
    case Poll => s.batch == []
    case PollEffect => true
    case PollCrash => true
    case DoUpsert(lane, _) =>
      CursorAt(s.cursors, lane).stage.Reading? && CursorAt(s.cursors, lane).offset < |LaneLog(s.log, lane)|
    case DoRecord(lane) =>
      CursorAt(s.cursors, lane).stage.Upserted? && CursorAt(s.cursors, lane).offset < |LaneLog(s.log, lane)|
    case DoCommit(lane) => CursorAt(s.cursors, lane).stage.Recorded?
    case Rewind(lane, offset) => offset <= CursorAt(s.cursors, lane).offset
  }

  function WithPoll(s: Pipe, p: PollState): Pipe {
    s.(sys := s.sys.(db := s.sys.db.(outbox := p.outbox)), log := p.log, batch := p.batch, published := p.published)
  }

  function Step(s: Pipe, act: Action): Pipe
    requires Enabled(s, act)
  {
    match act
    case Write(write) => s.(sys := W.Step(s.sys, write))
    case Poll => WithPoll(s, StartPoll(s.sys.db.outbox, s.log))
    case PollEffect => WithPoll(s, Work(PollState(s.sys.db.outbox, s.log, s.batch, s.published)))
    case PollCrash => s.(batch := [], published := false)
    case DoUpsert(lane, timeoutSeconds) =>
      var c := CursorAt(s.cursors, lane);
      var env := LaneLog(s.log, lane)[c.offset].envelope;
      if Seen(KindOf(lane.topic), s.rm, env) then s.(cursors := s.cursors[lane := c.(stage := Recorded)])
      else s.(rm := Upsert(KindOf(lane.topic), s.rm, env, timeoutSeconds),
              cursors := s.cursors[lane := c.(stage := Upserted)])
    case DoRecord(lane) =>
      var c := CursorAt(s.cursors, lane);
      var env := LaneLog(s.log, lane)[c.offset].envelope;
      s.(rm := Record(KindOf(lane.topic), s.rm, env), cursors := s.cursors[lane := c.(stage := Recorded)])
    case DoCommit(lane) => s.(cursors := s.cursors[lane := Cursor(CursorAt(s.cursors, lane).offset + 1, Reading)])
    case Rewind(lane, offset) => s.(cursors := s.cursors[lane := Cursor(offset, Reading)])
  }

  // ---- The invariant, clause by clause ----

  predicate FromOutbox(db: Db, m: Message) {
    exists i :: 0 <= i < |db.outbox| && m == MessageOf(db.outbox[i])
  }

  /** Every message on a topic was written to the outbox. */
  predicate LogOk(db: Db, log: seq<Message>) {
    forall p :: 0 <= p < |log| ==> FromOutbox(db, log[p])
  }

  predicate Precedes(lane: Lane, version: nat, m: Message) {
    LaneOfMessage(m) == lane && m.envelope.version + 1 == version
  }

  predicate Follows(log: seq<Message>, lane: Lane, version: nat) {
    version <= 1 || exists q :: 0 <= q < |log| && Precedes(lane, version, log[q])
  }

  /** No message appears before its predecessor in the same aggregate has appeared. */
  predicate GapFree(log: seq<Message>) {
    forall p :: 0 <= p < |log| ==> Follows(log[..p], LaneOfMessage(log[p]), log[p].envelope.version)
  }

  predicate SentOk(db: Db, log: seq<Message>) {
    forall i :: 0 <= i < |db.outbox| && db.outbox[i].sent ==> MessageOf(db.outbox[i]) in log
  }

  predicate SameRow(o: OutboxRow, p: OutboxRow) {
    o.id == p.id && MessageOf(o) == MessageOf(p)
  }

  predicate InOutbox(db: Db, o: OutboxRow) {
    exists i :: 0 <= i < |db.outbox| && SameRow(db.outbox[i], o)
  }

  predicate BatchRows(db: Db, batch: seq<OutboxRow>) {
    forall j :: 0 <= j < |batch| ==> InOutbox(db, batch[j])
  }

  /** What must precede a row of the batch is published already, or earlier in the batch. */
  predicate BatchFollows(log: seq<Message>, batch: seq<OutboxRow>) {
    forall j :: 0 <= j < |batch| ==>
      Follows(log + Messages(batch[..j]), LaneOfRow(batch[j]), batch[j].envelope.version)
  }

  predicate HeadOk(log: seq<Message>, batch: seq<OutboxRow>, published: bool) {
    published ==> batch != [] && MessageOf(batch[0]) in log
  }

  predicate CreatedOk(db: Db) {
    forall i, j :: 0 <= i < j < |db.outbox| && LaneOfRow(db.outbox[i]) == LaneOfRow(db.outbox[j])
      ==> db.outbox[i].createdAt < db.outbox[j].createdAt
  }

  function DocVersion(rm: ReadModel, a: Agg): nat {
    var id := DocId(a.tenantId, a.orderId);
    if a.kind.OrderKind? then (if id in rm.orders then rm.orders[id].version else 0)
    else (if id in rm.dispatches then rm.dispatches[id].version else 0)
  }

  predicate DocOk(db: Db, rm: ReadModel, a: Agg) {
    DocIs(rm, a, History(db, a), DocVersion(rm, a))
  }

  ghost predicate DocsOk(db: Db, rm: ReadModel) {
    forall a :: Clean(a) ==> DocOk(db, rm, a)
  }

  function RowInbox(r: EventRow): string {
    InboxId(r.tenantId, r.aggregateType, r.id)
  }

  predicate EntryOk(db: Db, rm: ReadModel, entry: string) {
    exists i :: 0 <= i < |db.events| && entry == RowInbox(db.events[i])
                && db.events[i].version <= DocVersion(rm, AggOf(db.events[i]))
  }

  /** Whatever the inbox remembers is behind or at its document. */
  predicate InboxOk(db: Db, rm: ReadModel) {
    forall entry :: entry in rm.inbox ==> EntryOk(db, rm, entry)
  }

  predicate KeyFrom(db: Db, kind: Kind, id: string) {
    exists i :: 0 <= i < |db.events| && db.events[i].aggregateType == kind
                && id == DocId(db.events[i].tenantId, db.events[i].payload.orderId)
  }

  predicate KeysOk(db: Db, rm: ReadModel) {
    && (forall id :: id in rm.orders ==> KeyFrom(db, OrderKind, id))
    && (forall id :: id in rm.dispatches ==> KeyFrom(db, DispatchKind, id))
  }

  /** Everything before the cursor is behind or at the document. */
  predicate CursorOk(log: seq<Message>, c: Cursor, rm: ReadModel, a: Agg) {
    var lane := LaneLog(log, LaneOf(a));
    && c.offset <= |lane|
    && (forall p :: 0 <= p < c.offset ==> lane[p].envelope.version <= DocVersion(rm, a))
    && (!c.stage.Reading? ==> c.offset < |lane| && lane[c.offset].envelope.version <= DocVersion(rm, a))
  }

  ghost predicate CursorsOk(log: seq<Message>, cursors: map<Lane, Cursor>, rm: ReadModel) {
    forall a :: Clean(a) ==> CursorOk(log, CursorAt(cursors, LaneOf(a)), rm, a)
  }

  predicate RelayOk(db: Db, log: seq<Message>, batch: seq<OutboxRow>, published: bool) {
    && LogOk(db, log) && GapFree(log) && SentOk(db, log)
    && BatchRows(db, batch) && BatchFollows(log, batch) && HeadOk(log, batch, published)
  }

  ghost predicate ReadOk(db: Db, rm: ReadModel) {
    DocsOk(db, rm) && InboxOk(db, rm) && KeysOk(db, rm)
  }

  ghost predicate Inv(s: Pipe) {
    && W.Inv(s.sys)
    && CreatedOk(s.sys.db)
    && RelayOk(s.sys.db, s.log, s.batch, s.published)
    && ReadOk(s.sys.db, s.rm)
    && CursorsOk(s.log, s.cursors, s.rm)
  }

  // ---- Lanes ----

  lemma LaneInjective(a: Agg, b: Agg)
    requires Clean(a) && Clean(b)
    ensures LaneOf(a) == LaneOf(b) <==> a == b
  {
    JoinInjective(a.tenantId, AggregateId(a), b.tenantId, AggregateId(b));
    AggregateIdInjective(a, b);
  }

  lemma FilterStep(p: Message -> bool, s: seq<Message>, i: nat)
    requires i < |s|
    ensures Filter(p, s[..i + 1]) == Filter(p, s[..i]) + if p(s[i]) then [s[i]] else []
  {
    assert s[..i + 1] == s[..i] + [s[i]];
    FilterAppend(p, s[..i], s[i]);
  }

  lemma Crossing(counts: seq<nat>, k: nat) returns (pos: nat)
    requires counts != [] && counts[0] <= k < counts[|counts| - 1]
    ensures pos + 1 < |counts| && counts[pos] <= k < counts[pos + 1]
  {
    pos := 0;
    while counts[pos + 1] <= k
      invariant pos + 1 < |counts| && counts[pos] <= k
      decreases |counts| - pos
    {
      pos := pos + 1;
    }
  }

  /** How many of the first elements are selected grows to k + 1 at some element. */
  lemma FilterReaches(p: Message -> bool, s: seq<Message>, k: nat) returns (pos: nat)
    requires k < |Filter(p, s)|
    ensures pos < |s| && |Filter(p, s[..pos])| <= k < |Filter(p, s[..pos + 1])|
  {
    var counts := seq(|s| + 1, i requires 0 <= i <= |s| => |Filter(p, s[..i])|);
    assert s[..|s|] == s && counts[0] == |Filter(p, [])| == 0;
    pos := Crossing(counts, k);
  }

  /** A selected element, with all earlier selected elements before it. */
  lemma SelectedAt(p: Message -> bool, s: seq<Message>, pos: nat)
    requires pos < |s| && p(s[pos])
    ensures var k := |Filter(p, s[..pos])|;
      && k < |Filter(p, s)| && Filter(p, s)[k] == s[pos]
      && forall q :: 0 <= q < pos && p(s[q]) ==> s[q] in Filter(p, s)[..k]
  {
    FilterPrefix(p, s, pos);
    var front := s[..pos];
    assert Filter(p, s)[..|Filter(p, front)|] == Filter(p, front);
    forall q | 0 <= q < pos && p(s[q]) ensures s[q] in Filter(p, front) {
      assert front[q] in front;
    }
  }

  /** The k-th selected element. */
  lemma FilterOrigin(p: Message -> bool, s: seq<Message>, k: nat) returns (pos: nat)
    requires k < |Filter(p, s)|
    ensures pos < |s| && p(s[pos]) && s[pos] == Filter(p, s)[k]
    ensures forall q :: 0 <= q < pos && p(s[q]) ==> s[q] in Filter(p, s)[..k]
  {
    pos := FilterReaches(p, s, k);
    FilterStep(p, s, pos);
    SelectedAt(p, s, pos);
  }

  /** The envelope carries stored event number i of aggregate a. */
  predicate Carries(db: Db, env: Envelope, a: Agg, i: nat) {
    && i < |db.events|
    && AggOf(db.events[i]) == a
    && env.tenantId == a.tenantId && env.payload.orderId == a.orderId
    && 1 <= env.version <= |History(db, a)|
    && History(db, a)[env.version - 1] == env.payload
    && env.version == db.events[i].version && env.eventId == db.events[i].id
  }

  lemma RowIsCarried(db: Db, i: nat)
    requires WellFormed(db) && i < |db.events|
    ensures var a, o := AggOf(db.events[i]), db.outbox[i];
      && Clean(a) && Carries(db, o.envelope, a, i)
      && LaneOfRow(o) == LaneOf(a) && a.kind == KindOf(o.topic)
  {
    var r := db.events[i];
    assert RowOk(r) && Paired(r, db.outbox[i]);
    RowPosition(db, i);
    assert History(db, AggOf(r))[r.version - 1] == r.payload;
  }

  lemma MessageIsEvent(db: Db, m: Message) returns (a: Agg, i: nat)
    requires WellFormed(db) && FromOutbox(db, m)
    ensures Carries(db, m.envelope, a, i)
    ensures Clean(a) && LaneOfMessage(m) == LaneOf(a) && a.kind == KindOf(m.topic)
  {
    i :| 0 <= i < |db.outbox| && m == MessageOf(db.outbox[i]);
    a := AggOf(db.events[i]);
    RowIsCarried(db, i);
    assert LaneOfMessage(m) == LaneOfRow(db.outbox[i]);
  }

  lemma NextIsBarelyAhead(log: seq<Message>, a: Agg, c: Cursor, rm: ReadModel)
    requires GapFree(log) && CursorOk(log, c, rm, a) && c.offset < |LaneLog(log, LaneOf(a))|
    ensures LaneLog(log, LaneOf(a))[c.offset].envelope.version <= DocVersion(rm, a) + 1
  {
    var lane := LaneOf(a);
    var l := LaneLog(log, lane);
    var pos := FilterOrigin(InLane(lane), log, c.offset);
    var v := l[c.offset].envelope.version;
    assert Follows(log[..pos], lane, v);
    if v > 1 {
      var q :| 0 <= q < pos && Precedes(lane, v, log[..pos][q]);
      assert log[q] in l[..c.offset];
    }
  }

  /** The message at the cursor is an event of the lane's aggregate, at most one ahead of the
      document. */
  lemma NextIsNear(s: Pipe, lane: Lane) returns (a: Agg, i: nat)
    requires Inv(s) && CursorAt(s.cursors, lane).offset < |LaneLog(s.log, lane)|
    ensures Clean(a) && lane == LaneOf(a) && a.kind == KindOf(lane.topic)
    ensures var env := LaneLog(s.log, lane)[CursorAt(s.cursors, lane).offset].envelope;
      Carries(s.sys.db, env, a, i) && env.version <= DocVersion(s.rm, a) + 1
  {
    var m := LaneLog(s.log, lane)[CursorAt(s.cursors, lane).offset];
    assert m in s.log && LaneOfMessage(m) == lane;
    a, i := MessageIsEvent(s.sys.db, m);
    NextIsBarelyAhead(s.log, a, CursorAt(s.cursors, lane), s.rm);
  }

  // ---- Steps ----

  lemma DocGrows(db: Db, db': Db, rm: ReadModel, a: Agg)
    requires DocOk(db, rm, a) && History(db, a) <= History(db', a)
    ensures DocOk(db', rm, a)
  {
    var m := DocVersion(rm, a);
    assert History(db', a)[..m] == History(db, a)[..m];
  }

  ghost predicate Extends(db: Db, db': Db) {
    && |db.events| <= |db'.events| && |db.outbox| <= |db'.outbox|
    && (forall i :: 0 <= i < |db.events| ==> db'.events[i] == db.events[i])
    && (forall i :: 0 <= i < |db.outbox| ==> db'.outbox[i] == db.outbox[i])
    && (forall i :: |db.outbox| <= i < |db'.outbox| ==> !db'.outbox[i].sent)
  }

  lemma SubmitExtends(db: Db, l: W.Loaded, correlationId: string, stamp: Stamp)
    requires W.Later(db, l.agg, stamp.createdAt) && CreatedOk(db) && |db.events| == |db.outbox|
    ensures var db' := W.Submit(db, l, correlationId, stamp); Extends(db, db') && CreatedOk(db')
  {
    var db' := W.Submit(db, l, correlationId, stamp);
    if db' != db {
      var o := db'.outbox[|db.outbox|];
      forall i | 0 <= i < |db.outbox| && LaneOfRow(db.outbox[i]) == LaneOfRow(o)
        ensures db.outbox[i].createdAt < o.createdAt
      {
        assert db.outbox[i] in db.outbox;
      }
    }
  }

  lemma WriteExtends(sys: W.System, act: W.Action)
    requires W.Inv(sys) && W.Enabled(sys, act) && CreatedOk(sys.db)
    ensures Extends(sys.db, W.Step(sys, act).db) && CreatedOk(W.Step(sys, act).db)
  {
    if act.Append? {
      SubmitExtends(sys.db, sys.pending[act.w], act.correlationId, act.stamp);
    }
  }

  lemma ReadSideSurvivesWrite(db: Db, db': Db, rm: ReadModel)
    requires Extends(db, db')
    requires forall a :: Clean(a) ==> History(db, a) <= History(db', a)
    requires ReadOk(db, rm)
    ensures ReadOk(db', rm)
  {
    forall a | Clean(a) ensures DocOk(db', rm, a) {
      DocGrows(db, db', rm, a);
    }
    forall entry | entry in rm.inbox ensures EntryOk(db', rm, entry) {
      assert EntryOk(db, rm, entry);
      var i :| 0 <= i < |db.events| && entry == RowInbox(db.events[i])
               && db.events[i].version <= DocVersion(rm, AggOf(db.events[i]));
      assert entry == RowInbox(db'.events[i]);
    }
    forall kind: Kind, id | KeyFrom(db, kind, id) ensures KeyFrom(db', kind, id) {
      var i :| 0 <= i < |db.events| && db.events[i].aggregateType == kind
               && id == DocId(db.events[i].tenantId, db.events[i].payload.orderId);
      assert db'.events[i] == db.events[i];
    }
  }

  lemma RelaySurvivesWrite(db: Db, db': Db, log: seq<Message>, batch: seq<OutboxRow>)
    requires Extends(db, db')
    requires LogOk(db, log) && SentOk(db, log) && BatchRows(db, batch)
    ensures LogOk(db', log) && SentOk(db', log) && BatchRows(db', batch)
  {
    forall m | FromOutbox(db, m) ensures FromOutbox(db', m) {
      var i :| 0 <= i < |db.outbox| && m == MessageOf(db.outbox[i]);
      assert m == MessageOf(db'.outbox[i]);
    }
    forall o | InOutbox(db, o) ensures InOutbox(db', o) {
      var i :| 0 <= i < |db.outbox| && SameRow(db.outbox[i], o);
      assert SameRow(db'.outbox[i], o);
    }
  }

  lemma WriteKeepsInv(s: Pipe, act: Action)
    requires Inv(s) && Enabled(s, act) && act.Write?
    ensures Inv(Step(s, act))
  {
    var db, db' := s.sys.db, W.Step(s.sys, act.write).db;
    W.StepKeepsInv(s.sys, act.write);
    WriteExtends(s.sys, act.write);
    ReadSideSurvivesWrite(db, db', s.rm);
    RelaySurvivesWrite(db, db', s.log, s.batch);
  }

  // ---- Poller steps ----

  lemma FollowsMono(log: seq<Message>, log': seq<Message>, lane: Lane, version: nat)
    requires Follows(log, lane, version)
    requires forall m :: m in log ==> m in log'
    ensures Follows(log', lane, version)
  {
    if version > 1 {
      var q :| 0 <= q < |log| && Precedes(lane, version, log[q]);
      assert log[q] in log';
      var q' :| 0 <= q' < |log'| && log'[q'] == log[q];
      assert Precedes(lane, version, log'[q']);
    }
  }

  /** Rows of one stream are stored in the order of their versions. */
  lemma RowOrder(db: Db, i: nat, j: nat)
    requires WellFormed(db) && i < |db.events| && j < |db.events|
    requires AggOf(db.events[i]) == AggOf(db.events[j]) && db.events[i].version < db.events[j].version
    ensures i < j
  {
    var a := AggOf(db.events[i]);
    var p := InAggregate(a.tenantId, AggregateId(a));
    RowBelongs(db.events[i], a);
    RowBelongs(db.events[j], a);
    assert StreamOk(db, a);
    FilterPrefix(p, db.events, i);
    FilterPrefix(p, db.events, j);
  }

  /** The outbox row just before a later row of the same aggregate. */
  lemma Predecessor(db: Db, i: nat) returns (k: nat)
    requires WellFormed(db) && CreatedOk(db) && i < |db.outbox| && db.outbox[i].envelope.version > 1
    ensures k < |db.outbox| && Precedes(LaneOfRow(db.outbox[i]), db.outbox[i].envelope.version, MessageOf(db.outbox[k]))
    ensures db.outbox[k].createdAt < db.outbox[i].createdAt
  {
    assert RowOk(db.events[i]) && Paired(db.events[i], db.outbox[i]);
    RowPosition(db, i);
    var a, v := AggOf(db.events[i]), db.events[i].version;
    assert StreamOk(db, a);
    var r := Stream(db, a)[v - 2];
    assert r in Stream(db, a);
    k :| 0 <= k < |db.events| && db.events[k] == r;
    assert RowOk(db.events[k]) && Paired(db.events[k], db.outbox[k]);
    RowBelongs(r, a);
    RowOrder(db, k, i);
  }

  /** An older pending row of the sorted list is before every younger one that was selected. */
  lemma OlderIsEarlier(outbox: seq<OutboxRow>, older: OutboxRow, j: nat)
    requires j < |SelectBatch(outbox)| && older in outbox && !older.sent
    requires older.createdAt < SelectBatch(outbox)[j].createdAt
    ensures MessageOf(older) in Messages(SelectBatch(outbox)[..j])
  {
    var i := SelectedBefore(outbox, older, j);
    var before := SelectBatch(outbox)[..j];
    assert Messages(before)[i] == MessageOf(older);
  }

  lemma SelectedIsStored(db: Db, j: nat) returns (i: nat)
    requires j < |SelectBatch(db.outbox)|
    ensures i < |db.outbox| && db.outbox[i] == SelectBatch(db.outbox)[j]
    ensures InOutbox(db, SelectBatch(db.outbox)[j])
  {
    var pending := SortedUnsent(db.outbox);
    assert SelectBatch(db.outbox)[j] == pending[j] && pending[j] in pending;
    i :| 0 <= i < |db.outbox| && db.outbox[i] == pending[j];
    assert SameRow(db.outbox[i], pending[j]);
  }

  /** Oldest first: a selected row's predecessor is on the topic or earlier in the batch. */
  lemma SelectedFollows(db: Db, log: seq<Message>, j: nat)
    requires WellFormed(db) && CreatedOk(db) && SentOk(db, log) && j < |SelectBatch(db.outbox)|
    ensures var batch := SelectBatch(db.outbox);
      InOutbox(db, batch[j]) && Follows(log + Messages(batch[..j]), LaneOfRow(batch[j]), batch[j].envelope.version)
  {
    var batch := SelectBatch(db.outbox);
    var i := SelectedIsStored(db, j);
    if batch[j].envelope.version > 1 {
      var k := Predecessor(db, i);
      var before := log + Messages(batch[..j]);
      if !db.outbox[k].sent {
        OlderIsEarlier(db.outbox, db.outbox[k], j);
      }
      assert MessageOf(db.outbox[k]) in before;
      var q :| 0 <= q < |before| && before[q] == MessageOf(db.outbox[k]);
      assert Precedes(LaneOfRow(batch[j]), batch[j].envelope.version, before[q]);
    }
  }

  lemma PollKeepsInv(s: Pipe)
    requires Inv(s) && s.batch == []
    ensures Inv(Step(s, Poll))
  {
    var db, s' := s.sys.db, Step(s, Poll);
    assert s'.sys == s.sys;
    forall j | 0 <= j < |s'.batch|
      ensures InOutbox(db, s'.batch[j])
      ensures Follows(s.log + Messages(s'.batch[..j]), LaneOfRow(s'.batch[j]), s'.batch[j].envelope.version)
    {
      SelectedFollows(db, s.log, j);
    }
  }

  lemma CursorSurvivesPublish(log: seq<Message>, m: Message, c: Cursor, rm: ReadModel, a: Agg)
    requires CursorOk(log, c, rm, a)
    ensures CursorOk(log + [m], c, rm, a)
  {
    FilterAppend(InLane(LaneOf(a)), log, m);
  }

  lemma PublishKeepsGapFree(log: seq<Message>, m: Message)
    requires GapFree(log) && Follows(log, LaneOfMessage(m), m.envelope.version)
    ensures GapFree(log + [m])
  {
    var log' := log + [m];
    forall p | 0 <= p < |log'| ensures Follows(log'[..p], LaneOfMessage(log'[p]), log'[p].envelope.version) {
      assert log'[..p] == if p < |log| then log[..p] else log;
    }
  }

  lemma PublishKeepsRelay(db: Db, log: seq<Message>, batch: seq<OutboxRow>)
    requires RelayOk(db, log, batch, false) && batch != []
    ensures RelayOk(db, log + [MessageOf(batch[0])], batch, true)
  {
    var m := MessageOf(batch[0]);
    assert InOutbox(db, batch[0]);
    assert FromOutbox(db, m);
    assert log + Messages(batch[..0]) == log;
    PublishKeepsGapFree(log, m);
    forall j | 0 <= j < |batch|
      ensures Follows(log + [m] + Messages(batch[..j]), LaneOfRow(batch[j]), batch[j].envelope.version)
    {
      FollowsMono(log + Messages(batch[..j]), log + [m] + Messages(batch[..j]), LaneOfRow(batch[j]),
                  batch[j].envelope.version);
    }
  }

  lemma PublishKeepsInv(s: Pipe)
    requires Inv(s) && s.batch != [] && !s.published
    ensures Inv(Step(s, PollEffect))
  {
    var m := MessageOf(s.batch[0]);
    assert Step(s, PollEffect) == s.(log := s.log + [m], published := true);
    PublishKeepsRelay(s.sys.db, s.log, s.batch);
    forall a | Clean(a) ensures CursorOk(s.log + [m], CursorAt(s.cursors, LaneOf(a)), s.rm, a) {
      CursorSurvivesPublish(s.log, m, CursorAt(s.cursors, LaneOf(a)), s.rm, a);
    }
  }

  lemma MarkKeepsTables(db: Db, id: EventId)
    requires WellFormed(db)
    ensures WellFormed(db.(outbox := MarkSent(db.outbox, id)))
    ensures CreatedOk(db) ==> CreatedOk(db.(outbox := MarkSent(db.outbox, id)))
  {
    var db' := db.(outbox := MarkSent(db.outbox, id));
    forall i | 0 <= i < |db.events| ensures Paired(db'.events[i], db'.outbox[i]) {
      assert Paired(db.events[i], db.outbox[i]);
    }
    forall a | Clean(a) ensures StreamOk(db', a) {
      assert StreamOk(db, a);
    }
    if CreatedOk(db) {
      forall i, j | 0 <= i < j < |db'.outbox| && LaneOfRow(db'.outbox[i]) == LaneOfRow(db'.outbox[j])
        ensures db'.outbox[i].createdAt < db'.outbox[j].createdAt
      {
        assert LaneOfRow(db.outbox[i]) == LaneOfRow(db.outbox[j]);
      }
    }
  }

  lemma MarkKeepsSent(db: Db, log: seq<Message>, head: OutboxRow)
    requires WellFormed(db) && SentOk(db, log) && InOutbox(db, head) && MessageOf(head) in log
    ensures SentOk(db.(outbox := MarkSent(db.outbox, head.id)), log)
  {
    var k :| 0 <= k < |db.outbox| && SameRow(db.outbox[k], head);
    assert Paired(db.events[k], db.outbox[k]);
    forall i | 0 <= i < |db.outbox| && db.outbox[i].id == head.id ensures i == k {
      assert Paired(db.events[i], db.outbox[i]);
    }
  }

  lemma MarkKeepsBatch(log: seq<Message>, batch: seq<OutboxRow>)
    requires BatchFollows(log, batch) && batch != [] && MessageOf(batch[0]) in log
    ensures BatchFollows(log, batch[1..])
  {
    forall j | 0 <= j < |batch[1..]|
      ensures Follows(log + Messages(batch[1..][..j]), LaneOfRow(batch[1..][j]), batch[1..][j].envelope.version)
    {
      var before := log + Messages(batch[..j + 1]);
      assert batch[..j + 1] == [batch[0]] + batch[1..][..j];
      assert Messages(batch[..j + 1]) == [MessageOf(batch[0])] + Messages(batch[1..][..j]);
      FollowsMono(before, log + Messages(batch[1..][..j]), LaneOfRow(batch[j + 1]), batch[j + 1].envelope.version);
    }
  }

  lemma MarkKeepsRows(db: Db, db': Db, id: EventId, log: seq<Message>, batch: seq<OutboxRow>)
    requires db' == db.(outbox := MarkSent(db.outbox, id))
    requires LogOk(db, log) && BatchRows(db, batch)
    ensures LogOk(db', log) && BatchRows(db', batch)
  {
    forall m | FromOutbox(db, m) ensures FromOutbox(db', m) {
      var i :| 0 <= i < |db.outbox| && m == MessageOf(db.outbox[i]);
      assert m == MessageOf(db'.outbox[i]);
    }
    forall o | InOutbox(db, o) ensures InOutbox(db', o) {
      var i :| 0 <= i < |db.outbox| && SameRow(db.outbox[i], o);
      assert SameRow(db'.outbox[i], o);
    }
  }

  lemma MarkKeepsRelay(db: Db, log: seq<Message>, batch: seq<OutboxRow>)
    requires WellFormed(db) && RelayOk(db, log, batch, true)
    ensures RelayOk(db.(outbox := MarkSent(db.outbox, batch[0].id)), log, batch[1..], false)
  {
    assert InOutbox(db, batch[0]);
    MarkKeepsSent(db, log, batch[0]);
    MarkKeepsBatch(log, batch);
    MarkKeepsRows(db, db.(outbox := MarkSent(db.outbox, batch[0].id)), batch[0].id, log, batch[1..]);
  }

  lemma WritersSurviveMark(sys: W.System, db': Db)
    requires W.Inv(sys) && WellFormed(db') && db'.events == sys.db.events
    ensures W.Inv(sys.(db := db'))
  {
    forall w | w in sys.pending ensures W.LoadedOk(db', sys.pending[w]) {
      assert W.LoadedOk(sys.db, sys.pending[w]);
      assert Stream(db', sys.pending[w].agg) == Stream(sys.db, sys.pending[w].agg);
    }
  }

  lemma MarkKeepsInv(s: Pipe)
    requires Inv(s) && s.batch != [] && s.published
    ensures Inv(Step(s, PollEffect))
  {
    var db, s' := s.sys.db, Step(s, PollEffect);
    assert s' == s.(sys := s.sys.(db := db.(outbox := MarkSent(db.outbox, s.batch[0].id))),
                    batch := s.batch[1..], published := false);
    MarkKeepsTables(db, s.batch[0].id);
    WritersSurviveMark(s.sys, s'.sys.db);
    MarkKeepsRelay(db, s.log, s.batch);
    ReadSideSurvivesMark(db, s'.sys.db, s.rm);
  }

  lemma ReadSideSurvivesMark(db: Db, db': Db, rm: ReadModel)
    requires db'.events == db.events && ReadOk(db, rm)
    ensures ReadOk(db', rm)
  {
    forall a | Clean(a) ensures DocOk(db', rm, a) {
      assert DocOk(db, rm, a);
    }
    forall entry | entry in rm.inbox ensures EntryOk(db', rm, entry) {
      assert EntryOk(db, rm, entry);
    }
    forall kind: Kind, id | KeyFrom(db, kind, id) ensures KeyFrom(db', kind, id) {
    }
  }

  // ---- Consumer steps ----

  lemma DocVersionIs(rm: ReadModel, a: Agg, es: seq<Payload>, m: nat)
    requires DocIs(rm, a, es, m)
    ensures DocVersion(rm, a) == m
  {
  }

  function UpdatedAt(rm: ReadModel, a: Agg): Time {
    var id := DocId(a.tenantId, a.orderId);
    if a.kind.OrderKind? then (if id in rm.orders then rm.orders[id].updatedAt else 0)
    else (if id in rm.dispatches then rm.dispatches[id].updatedAt else 0)
  }

  /** An upsert stamps its own document with its own version and time together, or not at all. */
  lemma UpsertStamps(kind: Kind, rm: ReadModel, env: Envelope, timeoutSeconds: nat, b: Agg)
    requires NoColon(b.tenantId) && NoColon(env.tenantId)
    ensures var rm' := Upsert(kind, rm, env, timeoutSeconds);
      || (DocVersion(rm', b) == DocVersion(rm, b) && UpdatedAt(rm', b) == UpdatedAt(rm, b))
      || (b == Agg(kind, env.tenantId, env.payload.orderId) && DocVersion(rm', b) == env.version
          && UpdatedAt(rm', b) == env.occurredAt)
  {
    JoinInjective(b.tenantId, b.orderId, env.tenantId, env.payload.orderId);
  }

  /** Upserting the message at a cursor moves its own document to at least the message's version
      and no other document. */
  lemma UpsertKeepsDocs(db: Db, rm: ReadModel, env: Envelope, timeoutSeconds: nat, a: Agg, i: nat)
    requires WellFormed(db) && ReadOk(db, rm) && Clean(a)
    requires Carries(db, env, a, i) && env.version <= DocVersion(rm, a) + 1
    ensures var rm' := Upsert(a.kind, rm, env, timeoutSeconds);
      && DocsOk(db, rm')
      && env.version <= DocVersion(rm', a)
      && forall b :: Clean(b) ==> DocVersion(rm, b) <= DocVersion(rm', b)
  {
    var rm' := Upsert(a.kind, rm, env, timeoutSeconds);
    forall b | Clean(b)
      ensures DocOk(db, rm', b) && DocVersion(rm, b) <= DocVersion(rm', b)
      ensures b == a ==> env.version <= DocVersion(rm', b)
    {
      var es, m := History(db, b), DocVersion(rm, b);
      assert DocOk(db, rm, b) && StreamOk(db, b);
      if b == a {
        UpsertAdvances(a, rm, env, timeoutSeconds, es, m);
        DocVersionIs(rm', b, es, if env.version > m then env.version else m);
      } else {
        UpsertIsLocal(a.kind, rm, env, timeoutSeconds, b, es, m);
        DocVersionIs(rm', b, es, m);
      }
    }
  }

  lemma InboxSurvives(db: Db, rm: ReadModel, rm': ReadModel)
    requires TablesOk(db) && InboxOk(db, rm) && rm'.inbox == rm.inbox
    requires forall b :: Clean(b) ==> DocVersion(rm, b) <= DocVersion(rm', b)
    ensures InboxOk(db, rm')
  {
    forall entry | entry in rm'.inbox ensures EntryOk(db, rm', entry) {
      assert EntryOk(db, rm, entry);
      var i :| 0 <= i < |db.events| && entry == RowInbox(db.events[i])
               && db.events[i].version <= DocVersion(rm, AggOf(db.events[i]));
      assert RowOk(db.events[i]);
    }
  }

  lemma UpsertKeepsKeys(db: Db, rm: ReadModel, env: Envelope, timeoutSeconds: nat, kind: Kind)
    requires KeysOk(db, rm) && KeyFrom(db, kind, DocId(env.tenantId, env.payload.orderId))
    ensures KeysOk(db, Upsert(kind, rm, env, timeoutSeconds))
  {
  }

  lemma UpsertKeepsReadOk(db: Db, rm: ReadModel, env: Envelope, timeoutSeconds: nat, a: Agg, i: nat)
    requires WellFormed(db) && ReadOk(db, rm) && Clean(a)
    requires Carries(db, env, a, i) && env.version <= DocVersion(rm, a) + 1
    ensures ReadOk(db, Upsert(a.kind, rm, env, timeoutSeconds))
  {
    UpsertKeepsDocs(db, rm, env, timeoutSeconds, a, i);
    InboxSurvives(db, rm, Upsert(a.kind, rm, env, timeoutSeconds));
    assert KeyFrom(db, a.kind, DocId(env.tenantId, env.payload.orderId));
    UpsertKeepsKeys(db, rm, env, timeoutSeconds, a.kind);
  }

  lemma SameEntrySameRow(db: Db, i: nat, k: nat)
    requires TablesOk(db) && i < |db.events| && k < |db.events| && RowInbox(db.events[i]) == RowInbox(db.events[k])
    ensures i == k
  {
    var r, q := db.events[i], db.events[k];
    assert RowOk(r) && RowOk(q);
    InboxIdInjective(r.tenantId, r.aggregateType, r.id, q.tenantId, q.aggregateType, q.id);
  }

  /** A message the inbox knows is not ahead of its document. */
  lemma SeenIsOld(db: Db, rm: ReadModel, env: Envelope, a: Agg, i: nat)
    requires TablesOk(db) && InboxOk(db, rm) && Carries(db, env, a, i) && Seen(a.kind, rm, env)
    ensures env.version <= DocVersion(rm, a)
  {
    var entry := InboxId(env.tenantId, a.kind, env.eventId);
    assert EntryOk(db, rm, entry);
    var k :| 0 <= k < |db.events| && entry == RowInbox(db.events[k])
             && db.events[k].version <= DocVersion(rm, AggOf(db.events[k]));
    SameEntrySameRow(db, i, k);
  }

  lemma RecordKeepsInbox(db: Db, rm: ReadModel, env: Envelope, a: Agg, i: nat)
    requires InboxOk(db, rm) && Carries(db, env, a, i) && env.version <= DocVersion(rm, a)
    ensures InboxOk(db, Record(a.kind, rm, env))
  {
    var rm' := Record(a.kind, rm, env);
    forall entry | entry in rm'.inbox ensures EntryOk(db, rm', entry) {
      var k := i;
      if entry in rm.inbox {
        assert EntryOk(db, rm, entry);
        k :| 0 <= k < |db.events| && entry == RowInbox(db.events[k])
             && db.events[k].version <= DocVersion(rm, AggOf(db.events[k]));
      }
      assert entry == RowInbox(db.events[k]) && db.events[k].version <= DocVersion(rm', AggOf(db.events[k]));
    }
  }

  lemma RecordKeepsReadOk(db: Db, rm: ReadModel, env: Envelope, a: Agg, i: nat)
    requires ReadOk(db, rm) && Carries(db, env, a, i) && env.version <= DocVersion(rm, a)
    ensures ReadOk(db, Record(a.kind, rm, env))
  {
    RecordKeepsInbox(db, rm, env, a, i);
    forall b | Clean(b) ensures DocOk(db, Record(a.kind, rm, env), b) {
      assert DocOk(db, rm, b);
    }
  }

  lemma RecordKeepsVersions(kind: Kind, rm: ReadModel, env: Envelope)
    ensures forall b :: DocVersion(Record(kind, rm, env), b) == DocVersion(rm, b)
  {
  }

  /** Moving one cursor over a model that did not go back keeps every cursor right. */
  lemma CursorMoves(log: seq<Message>, cursors: map<Lane, Cursor>, rm: ReadModel, rm': ReadModel, a: Agg, c: Cursor)
    requires CursorsOk(log, cursors, rm) && Clean(a) && CursorOk(log, c, rm', a)
    requires forall b :: Clean(b) ==> DocVersion(rm, b) <= DocVersion(rm', b)
    ensures CursorsOk(log, cursors[LaneOf(a) := c], rm')
  {
    forall b | Clean(b) ensures CursorOk(log, CursorAt(cursors[LaneOf(a) := c], LaneOf(b)), rm', b) {
      LaneInjective(a, b);
      assert CursorOk(log, CursorAt(cursors, LaneOf(b)), rm, b);
    }
  }

  lemma RecordKeepsCursors(s: Pipe, a: Agg, env: Envelope)
    requires CursorsOk(s.log, s.cursors, s.rm) && Clean(a) && CursorAt(s.cursors, LaneOf(a)).stage.Upserted?
    ensures var c := CursorAt(s.cursors, LaneOf(a)).(stage := Recorded);
      CursorsOk(s.log, s.cursors[LaneOf(a) := c], Record(a.kind, s.rm, env))
  {
    var c := CursorAt(s.cursors, LaneOf(a));
    var rm' := Record(a.kind, s.rm, env);
    RecordKeepsVersions(a.kind, s.rm, env);
    assert CursorOk(s.log, c, s.rm, a);
    assert CursorOk(s.log, c.(stage := Recorded), rm', a);
    CursorMoves(s.log, s.cursors, s.rm, rm', a, c.(stage := Recorded));
  }

  lemma UpsertStepKeepsInv(s: Pipe, lane: Lane, timeoutSeconds: nat)
    requires Inv(s) && Enabled(s, DoUpsert(lane, timeoutSeconds))
    ensures Inv(Step(s, DoUpsert(lane, timeoutSeconds)))
  {
    var c := CursorAt(s.cursors, lane);
    var env := LaneLog(s.log, lane)[c.offset].envelope;
    var a, i := NextIsNear(s, lane);
    assert CursorOk(s.log, c, s.rm, a);
    if Seen(KindOf(lane.topic), s.rm, env) {
      SeenIsOld(s.sys.db, s.rm, env, a, i);
      CursorMoves(s.log, s.cursors, s.rm, s.rm, a, c.(stage := Recorded));
    } else {
      var rm' := Upsert(a.kind, s.rm, env, timeoutSeconds);
      UpsertKeepsDocs(s.sys.db, s.rm, env, timeoutSeconds, a, i);
      UpsertKeepsReadOk(s.sys.db, s.rm, env, timeoutSeconds, a, i);
      CursorMoves(s.log, s.cursors, s.rm, rm', a, c.(stage := Upserted));
    }
  }

  /** Recording the message at a cursor keeps the read model and every cursor right. */
  lemma RecordAtCursor(s: Pipe, lane: Lane, c: Cursor, env: Envelope)
    requires c == CursorAt(s.cursors, lane) && c.stage.Upserted?
    requires c.offset < |LaneLog(s.log, lane)| && env == LaneLog(s.log, lane)[c.offset].envelope
    requires Inv(s)
    ensures var rm' := Record(KindOf(lane.topic), s.rm, env);
      ReadOk(s.sys.db, rm') && CursorsOk(s.log, s.cursors[lane := c.(stage := Recorded)], rm')
  {
    var a := RecordReads(s, lane, c, env);
    RecordKeepsCursors(s, a, env);
  }

  lemma RecordReads(s: Pipe, lane: Lane, c: Cursor, env: Envelope) returns (a: Agg)
    requires c == CursorAt(s.cursors, lane) && c.stage.Upserted?
    requires c.offset < |LaneLog(s.log, lane)| && env == LaneLog(s.log, lane)[c.offset].envelope
    requires Inv(s)
    ensures Clean(a) && lane == LaneOf(a) && a.kind == KindOf(lane.topic)
    ensures ReadOk(s.sys.db, Record(a.kind, s.rm, env))
  {
    var i;
    a, i := NextIsNear(s, lane);
    assert CursorOk(s.log, c, s.rm, a);
    RecordKeepsReadOk(s.sys.db, s.rm, env, a, i);
  }

  lemma RecordStepKeepsInv(s: Pipe, lane: Lane)
    requires Enabled(s, DoRecord(lane)) && Inv(s)
    ensures Inv(Step(s, DoRecord(lane)))
  {
    var c := CursorAt(s.cursors, lane);
    RecordAtCursor(s, lane, c, LaneLog(s.log, lane)[c.offset].envelope);
  }

  lemma RebaseIsOk(log: seq<Message>, c: Cursor, rm: ReadModel, a: Agg, offset: nat)
    requires CursorOk(log, c, rm, a) && offset <= c.offset + if c.stage.Reading? then 0 else 1
    ensures CursorOk(log, Cursor(offset, Reading), rm, a)
  {}

  lemma RebaseKeepsCursors(log: seq<Message>, cursors: map<Lane, Cursor>, rm: ReadModel, lane: Lane, offset: nat)
    requires CursorsOk(log, cursors, rm)
    requires offset <= CursorAt(cursors, lane).offset + if CursorAt(cursors, lane).stage.Reading? then 0 else 1
    ensures CursorsOk(log, cursors[lane := Cursor(offset, Reading)], rm)
  {
    forall b | Clean(b) ensures CursorOk(log, CursorAt(cursors[lane := Cursor(offset, Reading)], LaneOf(b)), rm, b) {
      assert CursorOk(log, CursorAt(cursors, LaneOf(b)), rm, b);
      if LaneOf(b) == lane {
        RebaseIsOk(log, CursorAt(cursors, lane), rm, b, offset);
      }
    }
  }

  lemma RebaseKeepsInv(s: Pipe, act: Action)
    requires Inv(s) && Enabled(s, act) && (act.DoCommit? || act.Rewind?)
    ensures Inv(Step(s, act))
  {
    var offset := if act.Rewind? then act.offset else CursorAt(s.cursors, act.lane).offset + 1;
    RebaseKeepsCursors(s.log, s.cursors, s.rm, act.lane, offset);
    assert Step(s, act) == s.(cursors := s.cursors[act.lane := Cursor(offset, Reading)]);
  }

  lemma PollEffectKeepsInv(s: Pipe)
    requires Inv(s)
    ensures Inv(Step(s, PollEffect))
  {
    if s.batch == [] {
      assert Step(s, PollEffect) == s;
    } else if s.published {
      MarkKeepsInv(s);
    } else {
      PublishKeepsInv(s);
    }
  }

  lemma CrashKeepsInv(s: Pipe)
    requires Inv(s)
    ensures Inv(Step(s, PollCrash))
  {
    assert Step(s, PollCrash) == s.(batch := [], published := false);
  }

  lemma StepKeepsInv(s: Pipe, act: Action)
    requires Inv(s) && Enabled(s, act)
    ensures Inv(Step(s, act))
  {
    match act {
      case Write(_) => WriteKeepsInv(s, act);
      case Poll => PollKeepsInv(s);
      case PollEffect => PollEffectKeepsInv(s);
      case PollCrash => CrashKeepsInv(s);
      case DoUpsert(lane, timeoutSeconds) => UpsertStepKeepsInv(s, lane, timeoutSeconds);
      case DoRecord(lane) => RecordStepKeepsInv(s, lane);
      case DoCommit(_) => RebaseKeepsInv(s, act);
      case Rewind(_, _) => RebaseKeepsInv(s, act);
    }
  }

  // ---- Runs ----

  ghost predicate Next(s: Pipe, s': Pipe) {
    exists act :: Enabled(s, act) && s' == Step(s, act)
  }

  /** A run is the sequence of states it passes through. */
  ghost predicate IsRun(states: seq<Pipe>) {
    && states != [] && states[0] == START
    && forall k :: 0 < k < |states| ==> Next(states[k - 1], states[k])
  }

  lemma StartInv()
    ensures Inv(START)
  {
    EmptyIsWellFormed();
    forall a ensures CursorOk([], Cursor(0, Reading), EMPTY_MODEL, a) && DocOk(EMPTY_DB, EMPTY_MODEL, a) {
    }
  }

  lemma {:induction false} RunInv(states: seq<Pipe>, k: nat)
    requires IsRun(states) && k < |states|
    ensures Inv(states[k])
  {
    if k == 0 {
      StartInv();
    } else {
      RunInv(states, k - 1);
      NextKeepsInv(states[k - 1], states[k]);
    }
  }

  lemma NextKeepsInv(s: Pipe, s': Pipe)
    requires Inv(s) && Next(s, s')
    ensures Inv(s')
  {
    var act :| Enabled(s, act) && s' == Step(s, act);
    StepKeepsInv(s, act);
  }

  /** The projection refines replay: at every moment of every run, every document with version v
      is the fold of the first v events of its stream, and there is none when v is zero. */
  lemma DocumentIsReplay(states: seq<Pipe>, k: nat, a: Agg)
    requires IsRun(states) && k < |states| && Clean(a)
    ensures var s := states[k]; DocIs(s.rm, a, History(s.sys.db, a), DocVersion(s.rm, a))
  {
    RunInv(states, k);
    assert DocOk(states[k].sys.db, states[k].rm, a);
  }

  /** The outbox has been sent and the consumer of `a` stands at the end of its lane. */
  predicate Drained(s: Pipe, a: Agg) {
    && (forall i :: 0 <= i < |s.sys.db.outbox| && LaneOfRow(s.sys.db.outbox[i]) == LaneOf(a) ==>
          s.sys.db.outbox[i].sent)
    && CursorAt(s.cursors, LaneOf(a)).offset == |LaneLog(s.log, LaneOf(a))|
  }

  /** The outbox row of the newest event of the stream. */
  lemma NewestRow(db: Db, a: Agg) returns (i: nat)
    requires WellFormed(db) && Clean(a) && |Stream(db, a)| > 0
    ensures i < |db.outbox| && LaneOfRow(db.outbox[i]) == LaneOf(a) && db.outbox[i].envelope.version == |Stream(db, a)|
  {
    assert StreamOk(db, a);
    var r := Stream(db, a)[|Stream(db, a)| - 1];
    assert r in Stream(db, a);
    i :| 0 <= i < |db.events| && db.events[i] == r;
    assert RowOk(r) && Paired(r, db.outbox[i]);
    RowBelongs(r, a);
  }

  lemma ReadToTheEnd(log: seq<Message>, c: Cursor, rm: ReadModel, a: Agg, m: Message)
    requires CursorOk(log, c, rm, a) && c.offset == |LaneLog(log, LaneOf(a))|
    requires m in log && LaneOfMessage(m) == LaneOf(a)
    ensures m.envelope.version <= DocVersion(rm, a)
  {
    var lane := LaneLog(log, LaneOf(a));
    assert m in lane;
    var p :| 0 <= p < |lane| && lane[p] == m;
  }

  lemma ReadAllIsCurrent(db: Db, log: seq<Message>, c: Cursor, rm: ReadModel, a: Agg)
    requires WellFormed(db) && Clean(a) && SentOk(db, log) && DocOk(db, rm, a) && CursorOk(log, c, rm, a)
    requires c.offset == |LaneLog(log, LaneOf(a))|
    requires forall i :: 0 <= i < |db.outbox| && LaneOfRow(db.outbox[i]) == LaneOf(a) ==> db.outbox[i].sent
    ensures DocVersion(rm, a) == |History(db, a)|
  {
    if |Stream(db, a)| > 0 {
      var i := NewestRow(db, a);
      ReadToTheEnd(log, c, rm, a, MessageOf(db.outbox[i]));
    }
  }

  lemma DrainedIsCurrent(s: Pipe, a: Agg)
    requires Inv(s) && Clean(a) && Drained(s, a)
    ensures DocIs(s.rm, a, History(s.sys.db, a), |History(s.sys.db, a)|)
  {
    assert DocOk(s.sys.db, s.rm, a);
    ReadAllIsCurrent(s.sys.db, s.log, CursorAt(s.cursors, LaneOf(a)), s.rm, a);
  }

  /** Once outbox and topic are drained the document is the fold of the whole stream. */
  lemma DrainedDocumentIsWholeStream(states: seq<Pipe>, k: nat, a: Agg)
    requires IsRun(states) && k < |states| && Clean(a) && Drained(states[k], a)
    ensures var s := states[k]; DocIs(s.rm, a, History(s.sys.db, a), |History(s.sys.db, a)|)
  {
    RunInv(states, k);
    DrainedIsCurrent(states[k], a);
  }

  lemma UpsertMovesDocsForward(s: Pipe, lane: Lane, timeoutSeconds: nat, a: Agg)
    requires Inv(s) && Enabled(s, DoUpsert(lane, timeoutSeconds)) && Clean(a)
    ensures DocVersion(s.rm, a) <= DocVersion(Step(s, DoUpsert(lane, timeoutSeconds)).rm, a)
  {
    var env := LaneLog(s.log, lane)[CursorAt(s.cursors, lane).offset].envelope;
    var b, i := NextIsNear(s, lane);
    var next := Step(s, DoUpsert(lane, timeoutSeconds));
    if Seen(KindOf(lane.topic), s.rm, env) {
      assert next.rm == s.rm;
    } else {
      assert next.rm == Upsert(b.kind, s.rm, env, timeoutSeconds);
      UpsertKeepsDocs(s.sys.db, s.rm, env, timeoutSeconds, b, i);
    }
  }

  lemma OtherStepsKeepDocs(s: Pipe, act: Action)
    requires Enabled(s, act) && !act.DoUpsert?
    ensures Step(s, act).rm.orders == s.rm.orders && Step(s, act).rm.dispatches == s.rm.dispatches
  {}

  /** Documents only move forward along a run. */
  lemma DocumentsMoveForward(s: Pipe, act: Action, a: Agg)
    requires Inv(s) && Enabled(s, act) && Clean(a)
    ensures DocVersion(s.rm, a) <= DocVersion(Step(s, act).rm, a)
  {
    if act.DoUpsert? {
      UpsertMovesDocsForward(s, act.lane, act.timeoutSeconds, a);
    } else {
      OtherStepsKeepDocs(s, act);
    }
  }
}
