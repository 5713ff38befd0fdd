/** The event store and its outbox: replay on load, append at an expected version. */
module AggregateStore {
  import opened Contracts
  import opened Sequences
  import opened OrderAggregate
  import opened DispatchAggregate

  datatype EventRow = EventRow(
    id: EventId,
    tenantId: TenantId,
    aggregateType: Kind,
    aggregateId: string,
    version: nat,
    payload: Payload,
    occurredAt: Time)

  datatype OutboxRow = OutboxRow(
    id: EventId,
    topic: Topic,
    partitionKey: string,
    envelope: Envelope,
    sent: bool,
    createdAt: Time)

  datatype Db = Db(events: seq<EventRow>, outbox: seq<OutboxRow>)

  /** What the database and the clock stamp on an append. */
  datatype Stamp = Stamp(eventId: EventId, occurredAt: Time, storedAt: Time, createdAt: Time)

  datatype AppendArgs = AppendArgs(
    tenantId: TenantId,
    aggregateType: Kind,
    aggregateId: string,
    expectedVersion: nat,
    payload: Payload,
    correlationId: string)

  datatype AppendError = ConcurrencyError

  function InAggregate(tenantId: TenantId, aggregateId: string): EventRow -> bool {
    (r: EventRow) => r.tenantId == tenantId && r.aggregateId == aggregateId
  }

  predicate VersionLeq(r: EventRow, s: EventRow) {
    r.version <= s.version
  }

  /** The rows of one aggregate, ascending by version. */
  function QueryAggregate(db: Db, tenantId: TenantId, aggregateId: string): seq<EventRow> {
    SortBy(VersionLeq, Filter(InAggregate(tenantId, aggregateId), db.events))
  }

  function Payloads(rows: seq<EventRow>): (es: seq<Payload>)
    ensures |es| == |rows| && forall i :: 0 <= i < |rows| ==> es[i] == rows[i].payload
  {
    seq(|rows|, i requires 0 <= i < |rows| => rows[i].payload)
  }

  lemma PayloadsAppend(rows: seq<EventRow>, r: EventRow)
    ensures Payloads(rows + [r]) == Payloads(rows) + [r.payload]
  {
  }

  function LastVersion(rows: seq<EventRow>): nat {
    if rows == [] then 0 else rows[|rows| - 1].version
  }

  /** A unique constraint would be violated: the version is taken, or the id is. */
  predicate Conflict(db: Db, tenantId: TenantId, aggregateId: string, version: nat, id: EventId) {
    exists r :: r in db.events &&
      ((r.tenantId == tenantId && r.aggregateId == aggregateId && r.version == version) || r.id == id)
  }

  function EnvelopeOf(args: AppendArgs, stamp: Stamp): Envelope {
    Envelope(args.tenantId, stamp.eventId, args.expectedVersion + 1, stamp.occurredAt, args.correlationId, args.payload)
  }

  /** The append transaction: event row and outbox row together, or neither. */
  function AppendTx(db: Db, args: AppendArgs, stamp: Stamp): Result<Db, AppendError> {
    if Conflict(db, args.tenantId, args.aggregateId, args.expectedVersion + 1, stamp.eventId) then
      Err(ConcurrencyError)
    else
      Ok(Db(
        db.events + [EventRow(stamp.eventId, args.tenantId, args.aggregateType, args.aggregateId,
                              args.expectedVersion + 1, args.payload, stamp.storedAt)],
        db.outbox + [OutboxRow(stamp.eventId, TopicOf(args.aggregateType),
                               PartitionKey(args.tenantId, args.aggregateId), EnvelopeOf(args, stamp),
                               false, stamp.createdAt)]))
  }

  /** An append refuses a version or an id that is taken, and otherwise adds exactly one event row and one
      outbox row, still to be sent, with the same id, version and payload and with the caller's
      correlation id. */
  lemma AppendWritesBoth(db: Db, args: AppendArgs, stamp: Stamp)
    ensures AppendTx(db, args, stamp).Err? <==>
      exists i :: 0 <= i < |db.events| &&
        (|| db.events[i].id == stamp.eventId
         || (db.events[i].tenantId == args.tenantId && db.events[i].aggregateId == args.aggregateId
             && db.events[i].version == args.expectedVersion + 1))
    ensures var tx := AppendTx(db, args, stamp);
      tx.Ok? ==>
        && tx.value.events ==
             db.events + [EventRow(stamp.eventId, args.tenantId, args.aggregateType, args.aggregateId,
                                   args.expectedVersion + 1, args.payload, stamp.storedAt)]
        && tx.value.outbox ==
             db.outbox + [OutboxRow(stamp.eventId,
                                    if args.aggregateType.OrderKind? then OrderEvents else DispatchEvents,
                                    args.tenantId + ":" + args.aggregateId,
                                    Envelope(args.tenantId, stamp.eventId, args.expectedVersion + 1, stamp.occurredAt,
                                             args.correlationId, args.payload),
                                    false, stamp.createdAt)]
  {
    var version := args.expectedVersion + 1;
    if Conflict(db, args.tenantId, args.aggregateId, version, stamp.eventId) {
      var r :| r in db.events &&
        ((r.tenantId == args.tenantId && r.aggregateId == args.aggregateId && r.version == version)
         || r.id == stamp.eventId);
      var i :| 0 <= i < |db.events| && db.events[i] == r;
    }
  }

  // ---- Well-formed stores ----

  function AggOf(r: EventRow): Agg {
    Agg(r.aggregateType, r.tenantId, r.payload.orderId)
  }

  function Stream(db: Db, a: Agg): seq<EventRow> {
    Filter(InAggregate(a.tenantId, AggregateId(a)), db.events)
  }

  function History(db: Db, a: Agg): seq<Payload> {
    Payloads(Stream(db, a))
  }

  ghost predicate Legal(a: Agg, es: seq<Payload>) {
    if a.kind.OrderKind? then LegalOrder(a.orderId, es) else LegalDispatch(a.orderId, es)
  }

  ghost predicate Admits(a: Agg, es: seq<Payload>, e: Payload) {
    if a.kind.OrderKind? then OrderAdmits(a.orderId, es, e) else DispatchAdmits(a.orderId, es, e)
  }

  /** Versions are exactly 1..n. */
  predicate Numbered(rows: seq<EventRow>) {
    forall j :: 0 <= j < |rows| ==> rows[j].version == j + 1
  }

  /** Versions are exactly 1..n and the history is one the grammar allows. */
  ghost predicate StreamOk(db: Db, a: Agg) {
    Numbered(Stream(db, a)) && Legal(a, History(db, a))
  }

  predicate RowOk(r: EventRow) {
    Clean(AggOf(r)) && r.aggregateId == AggregateId(AggOf(r))
  }

  /** The outbox row written in the same transaction as the event row. */
  predicate Paired(r: EventRow, o: OutboxRow) {
    && o.id == r.id
    && o.topic == TopicOf(r.aggregateType)
    && o.partitionKey == PartitionKey(r.tenantId, r.aggregateId)
    && o.envelope.tenantId == r.tenantId
    && o.envelope.eventId == r.id
    && o.envelope.version == r.version
    && o.envelope.payload == r.payload
  }

  predicate TablesOk(db: Db) {
    && |db.events| == |db.outbox|
    && (forall i :: 0 <= i < |db.events| ==> RowOk(db.events[i]) && Paired(db.events[i], db.outbox[i]))
    && (forall i, j :: 0 <= i < j < |db.events| ==> db.events[i].id != db.events[j].id)
  }

  ghost predicate StreamsOk(db: Db) {
    forall a :: Clean(a) ==> StreamOk(db, a)
  }

  ghost predicate WellFormed(db: Db) {
    TablesOk(db) && StreamsOk(db)
  }

  const EMPTY_DB := Db([], [])

  lemma EmptyIsWellFormed()
    ensures WellFormed(EMPTY_DB)
  {
    forall a ensures StreamOk(EMPTY_DB, a) {
      EmptyIsLegal(a.orderId);
    }
  }

  /** A stored row belongs to the stream of its own aggregate and to no other. */
  lemma RowBelongs(r: EventRow, a: Agg)
    requires RowOk(r) && Clean(a)
    ensures InAggregate(a.tenantId, AggregateId(a))(r) <==> AggOf(r) == a
  {
    AggregateIdInjective(AggOf(r), a);
  }

  /** Row number i of the store sits at the position its version says. */
  lemma RowPosition(db: Db, i: nat)
    requires WellFormed(db) && i < |db.events|
    ensures var r := db.events[i];
      && 1 <= r.version <= |Stream(db, AggOf(r))|
      && Stream(db, AggOf(r))[r.version - 1] == r
  {
    var r := db.events[i];
    var a := AggOf(r);
    RowBelongs(r, a);
    assert r in Stream(db, a);
    assert StreamOk(db, a);
  }

  /** Reading "ascending by version" returns the stream as it was written, all of it. */
  lemma QueryIsStream(db: Db, a: Agg)
    requires WellFormed(db) && Clean(a)
    ensures QueryAggregate(db, a.tenantId, AggregateId(a)) == Stream(db, a)
    ensures LastVersion(Stream(db, a)) == |Stream(db, a)|
  {
    assert StreamOk(db, a);
    SortOfSorted(VersionLeq, Stream(db, a));
  }

  function ArgsFor(a: Agg, n: nat, e: Payload, correlationId: string): AppendArgs {
    AppendArgs(a.tenantId, a.kind, AggregateId(a), n, e, correlationId)
  }

  predicate FreshId(db: Db, id: EventId) {
    forall r :: r in db.events ==> r.id != id
  }

  lemma LegalStep(a: Agg, es: seq<Payload>, e: Payload)
    requires Legal(a, es) && Admits(a, es, e)
    ensures Legal(a, es + [e]) && e.orderId == a.orderId
  {
    if a.kind.OrderKind? {
      OrderGrammarStep(a.orderId, es, e);
    } else {
      DispatchGrammarStep(a.orderId, es, e);
    }
    assert e in es + [e];
  }

  /** The version after the first n is free exactly when there are only n. */
  lemma ConflictMeansStale(db: Db, a: Agg, n: nat, id: EventId)
    requires WellFormed(db) && Clean(a) && n <= |Stream(db, a)| && FreshId(db, id)
    ensures Conflict(db, a.tenantId, AggregateId(a), n + 1, id) <==> n < |Stream(db, a)|
  {
    var s := Stream(db, a);
    assert StreamOk(db, a);
    if n < |s| {
      assert s[n] in s && s[n].version == n + 1;
    } else {
      forall r | r in db.events && r.tenantId == a.tenantId && r.aggregateId == AggregateId(a)
        ensures r.version != n + 1
      {
        assert r in s;
      }
    }
  }

  lemma StreamsAfter(db: Db, db': Db, row: EventRow, b: Agg)
    requires db'.events == db.events + [row] && RowOk(row) && Clean(b)
    ensures Stream(db', b) == if b == AggOf(row) then Stream(db, b) + [row] else Stream(db, b)
  {
    FilterAppend(InAggregate(b.tenantId, AggregateId(b)), db.events, row);
    RowBelongs(row, b);
  }

  lemma AppendKeepsTables(db: Db, row: EventRow, o: OutboxRow)
    requires TablesOk(db) && RowOk(row) && Paired(row, o) && FreshId(db, row.id)
    ensures TablesOk(Db(db.events + [row], db.outbox + [o]))
  {
    assert forall i :: 0 <= i < |db.events| ==> db.events[i] in db.events;
  }

  lemma AppendExtendsStream(rows: seq<EventRow>, row: EventRow, a: Agg)
    requires Numbered(rows) && Legal(a, Payloads(rows)) && Admits(a, Payloads(rows), row.payload)
    requires row.version == |rows| + 1
    ensures Numbered(rows + [row]) && Legal(a, Payloads(rows + [row]))
  {
    PayloadsAppend(rows, row);
    LegalStep(a, Payloads(rows), row.payload);
  }

  lemma AppendKeepsStream(db: Db, db': Db, row: EventRow, b: Agg)
    requires StreamOk(db, b) && Clean(b) && db'.events == db.events + [row]
    requires RowOk(row)
    requires b == AggOf(row) ==> row.version == |Stream(db, b)| + 1 && Admits(b, History(db, b), row.payload)
    ensures StreamOk(db', b)
    ensures b == AggOf(row) ==> History(db', b) == History(db, b) + [row.payload]
    ensures b != AggOf(row) ==> Stream(db', b) == Stream(db, b)
  {
    StreamsAfter(db, db', row, b);
    if b == AggOf(row) {
      AppendExtendsStream(Stream(db, b), row, b);
      PayloadsAppend(Stream(db, b), row);
    }
  }

  /** A row with the next version and an admitted payload keeps every stream legal. */
  lemma AppendKeepsStreams(db: Db, db': Db, row: EventRow)
    requires StreamsOk(db) && db'.events == db.events + [row]
    requires RowOk(row)
    requires row.version == |Stream(db, AggOf(row))| + 1
    requires Admits(AggOf(row), History(db, AggOf(row)), row.payload)
    ensures StreamsOk(db')
    ensures History(db', AggOf(row)) == History(db, AggOf(row)) + [row.payload]
    ensures forall b :: Clean(b) && b != AggOf(row) ==> Stream(db', b) == Stream(db, b)
  {
    forall b | Clean(b)
      ensures StreamOk(db', b)
      ensures b == AggOf(row) ==> History(db', b) == History(db, b) + [row.payload]
      ensures b != AggOf(row) ==> Stream(db', b) == Stream(db, b)
    {
      AppendKeepsStream(db, db', row, b);
    }
  }

  /** Optimistic concurrency: an append decided on the first n events succeeds exactly when
      nothing was appended since, and then the whole store stays well formed. */
  lemma AppendDecides(db: Db, a: Agg, n: nat, e: Payload, correlationId: string, stamp: Stamp)
    requires WellFormed(db) && Clean(a) && n <= |Stream(db, a)|
    requires Admits(a, History(db, a)[..n], e)
    requires FreshId(db, stamp.eventId)
    ensures AppendTx(db, ArgsFor(a, n, e, correlationId), stamp).Ok? <==> n == |Stream(db, a)|
    ensures n == |Stream(db, a)| ==>
      var db' := AppendTx(db, ArgsFor(a, n, e, correlationId), stamp).value;
      && WellFormed(db')
      && History(db', a) == History(db, a) + [e]
      && forall b :: Clean(b) && b != a ==> Stream(db', b) == Stream(db, b)
  {
    ConflictMeansStale(db, a, n, stamp.eventId);
    if n == |Stream(db, a)| {
      var db' := AppendTx(db, ArgsFor(a, n, e, correlationId), stamp).value;
      var row, o := db'.events[|db.events|], db'.outbox[|db.outbox|];
      assert History(db, a)[..n] == History(db, a);
      assert e.orderId == a.orderId by {
        assert StreamOk(db, a);
        LegalStep(a, History(db, a), e);
      }
      assert AggOf(row) == a;
      AppendKeepsTables(db, row, o);
      AppendKeepsStreams(db, db', row);
    }
  }

  /** Whether or not it succeeds, an append keeps the store well formed and loses nothing. */
  lemma AppendGrows(db: Db, a: Agg, n: nat, e: Payload, correlationId: string, stamp: Stamp)
    requires WellFormed(db) && Clean(a) && n <= |Stream(db, a)|
    requires Admits(a, History(db, a)[..n], e)
    requires FreshId(db, stamp.eventId)
    ensures var tx := AppendTx(db, ArgsFor(a, n, e, correlationId), stamp);
      tx.Ok? ==> WellFormed(tx.value) && forall b :: Clean(b) ==> History(db, b) <= History(tx.value, b)
  {
    AppendDecides(db, a, n, e, correlationId, stamp);
    var tx := AppendTx(db, ArgsFor(a, n, e, correlationId), stamp);
    if tx.Ok? {
      forall b | Clean(b) ensures History(db, b) <= History(tx.value, b) {
        assert b != a ==> Stream(tx.value, b) == Stream(db, b);
      }
    }
  }

  /** Only the columns the application reads are modelled. */
  class EventStore {
    var events: seq<EventRow>
    var outbox: seq<OutboxRow>

    constructor ()
      ensures Contents() == EMPTY_DB
    {
      events, outbox := [], [];
    }

    function Contents(): Db
      reads this
    {
      Db(events, outbox)
    }

    /** Replays the aggregate's stream, in version order, and folds it. */
    method LoadAggregate<S>(tenantId: TenantId, aggregateId: string, fold: (S, Payload) -> S, initial: S)
      returns (state: S, version: nat)
      ensures var rows := QueryAggregate(Contents(), tenantId, aggregateId);
        state == FoldAll(fold, initial, Payloads(rows)) && version == LastVersion(rows)
    {
      var rows := QueryAggregate(Contents(), tenantId, aggregateId);
      state, version := initial, 0;
      for i := 0 to |rows|
        invariant state == FoldAll(fold, initial, Payloads(rows[..i]))
        invariant version == LastVersion(rows[..i])
      {
        assert rows[..i + 1] == rows[..i] + [rows[i]];
        PayloadsAppend(rows[..i], rows[i]);
        FoldAppend(fold, initial, Payloads(rows[..i]), rows[i].payload);
        state := fold(state, rows[i].payload);
        version := rows[i].version;
      }
      assert rows[..|rows|] == rows;
    }

    method AppendWithExpectedVersion(args: AppendArgs, stamp: Stamp) returns (result: Result<Envelope, AppendError>)
      modifies this
      ensures match AppendTx(old(Contents()), args, stamp)
        case Ok(db') => Contents() == db' && result == Ok(EnvelopeOf(args, stamp))
        case Err(error) => Contents() == old(Contents()) && result == Err(error)
    {
      var version := args.expectedVersion + 1;
      var envelope := EnvelopeOf(args, stamp);
      if Conflict(Contents(), args.tenantId, args.aggregateId, version, stamp.eventId) {
        return Err(ConcurrencyError);
      }
      events := events + [EventRow(envelope.eventId, args.tenantId, args.aggregateType, args.aggregateId,
                                   version, args.payload, stamp.storedAt)];
      outbox := outbox + [OutboxRow(envelope.eventId, TopicOf(args.aggregateType),
                                    PartitionKey(args.tenantId, args.aggregateId), envelope, false, stamp.createdAt)];
      return Ok(envelope);
    }
  }
}
