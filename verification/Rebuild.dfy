/** Rebuilding the read model from the event store, against consuming the events live. */
module Rebuild {
  import opened Contracts
  import opened Sequences
  import opened OrderAggregate
  import opened AggregateStore
  import opened Projection
  import Poller
  import P = Pipeline

  const OFFER_TIMEOUT_SECONDS := 30

  /** The query orders by tenant, aggregate and version. Whatever the collation of the two
      strings, rows of one aggregate are compared by their versions. */
  ghost predicate RebuildOrder(leq: (EventRow, EventRow) -> bool) {
    forall r: EventRow, s: EventRow :: r.tenantId == s.tenantId && r.aggregateId == s.aggregateId ==>
      (leq(r, s) <==> r.version <= s.version)
  }

  function EnvelopeOfRow(r: EventRow, correlationId: string): Envelope {
    Envelope(r.tenantId, r.id, r.version, r.occurredAt, correlationId, r.payload)
  }

  function Replay(rows: seq<EventRow>, correlationId: string): ReadModel {
    if rows == [] then EMPTY_MODEL
    else
      var r := rows[|rows| - 1];
      Apply(r.aggregateType, Replay(rows[..|rows| - 1], correlationId), EnvelopeOfRow(r, correlationId),
            OFFER_TIMEOUT_SECONDS)
  }

  /** Clears the collections, then applies every row in order. */
  method RebuildProjection(store: EventStore, model: MongoReadModel, leq: (EventRow, EventRow) -> bool,
                           correlationId: string)
    returns (count: nat)
    modifies model
    ensures model.Contents() == Replay(SortBy(leq, store.events), correlationId)
    ensures count == |store.events|
  {
    model.orders, model.dispatches, model.processed := map[], map[], {};
    var rows := SortBy(leq, store.events);
    for i := 0 to |rows|
      invariant model.Contents() == Replay(rows[..i], correlationId)
    {
      assert rows[..i + 1][..i] == rows[..i];
      var envelope := EnvelopeOfRow(rows[i], correlationId);
      if rows[i].aggregateType.DispatchKind? {
        var _ := model.ApplyDispatchEvent(envelope, OFFER_TIMEOUT_SECONDS, false);
      } else {
        var _ := model.ApplyEvent(envelope, false);
      }
    }
    assert rows[..|rows|] == rows;
    SortPermutes(leq, store.events);
    return |rows|;
  }

  /** Sorting for the rebuild leaves every single stream in its own order. */
  lemma SortKeepsStreams(db: Db, leq: (EventRow, EventRow) -> bool, a: Agg)
    requires WellFormed(db) && RebuildOrder(leq) && Clean(a)
    ensures Filter(InAggregate(a.tenantId, AggregateId(a)), SortBy(leq, db.events)) == Stream(db, a)
  {
    var p := InAggregate(a.tenantId, AggregateId(a));
    forall i, j | 0 <= i < j < |db.events| && p(db.events[i]) && p(db.events[j])
      ensures leq(db.events[i], db.events[j])
    {
      assert RowOk(db.events[i]) && RowOk(db.events[j]);
      RowBelongs(db.events[i], a);
      RowBelongs(db.events[j], a);
      if db.events[j].version < db.events[i].version {
        P.RowOrder(db, j, i);
      }
    }
    SortIsStable(leq, p, db.events);
  }

  /** How many events of `a` are among the first i rows. */
  function Replayed(rows: seq<EventRow>, i: nat, a: Agg): nat
    requires i <= |rows|
  {
    |Filter(InAggregate(a.tenantId, AggregateId(a)), rows[..i])|
  }

  predicate EntryIn(rows: seq<EventRow>, entry: string) {
    exists r :: r in rows && entry == P.RowInbox(r)
  }

  /** The inbox remembers exactly these rows. */
  ghost predicate InboxIs(rm: ReadModel, rows: seq<EventRow>) {
    forall entry :: entry in rm.inbox <==> EntryIn(rows, entry)
  }

  /** The rows are those of the store, each stream in its own order. */
  ghost predicate Rows(db: Db, rows: seq<EventRow>) {
    && (forall r :: r in rows ==> r in db.events)
    && forall a :: Clean(a) ==> Filter(InAggregate(a.tenantId, AggregateId(a)), rows) == Stream(db, a)
  }

  lemma StoredRow(db: Db, r: EventRow)
    requires TablesOk(db) && r in db.events
    ensures RowOk(r)
  {
    var k :| 0 <= k < |db.events| && db.events[k] == r;
  }

  /** What one row does to a model that has not seen it. */
  function Played(r: EventRow, rm: ReadModel, correlationId: string): ReadModel {
    var env := EnvelopeOfRow(r, correlationId);
    Record(r.aggregateType, Upsert(r.aggregateType, rm, env, OFFER_TIMEOUT_SECONDS), env)
  }

  /** Row i of the sorted rows is the next event of its stream. */
  lemma NextRow(db: Db, rows: seq<EventRow>, i: nat)
    requires WellFormed(db) && Rows(db, rows) && i < |rows|
    ensures rows[i] in db.events && RowOk(rows[i])
    ensures rows[i].version == Replayed(rows, i, AggOf(rows[i])) + 1 <= |Stream(db, AggOf(rows[i]))|
    ensures Stream(db, AggOf(rows[i]))[rows[i].version - 1] == rows[i]
    ensures History(db, AggOf(rows[i]))[rows[i].version - 1] == rows[i].payload
    ensures forall q :: 0 <= q < i ==> rows[q] != rows[i]
  {
    assert rows[i] in rows;
    StoredRow(db, rows[i]);
    var a := AggOf(rows[i]);
    var p := InAggregate(a.tenantId, AggregateId(a));
    assert Filter(p, rows) == Stream(db, a);
    RowBelongs(rows[i], a);
    FilterPrefix(p, rows, i);
    assert StreamOk(db, a);
    assert rows[i] !in Filter(p, rows[..i]);
    assert forall q :: 0 <= q < i ==> rows[q] in rows[..i];
  }

  lemma ReplayedGrows(rows: seq<EventRow>, i: nat, b: Agg)
    requires i < |rows| && RowOk(rows[i]) && Clean(b)
    ensures Replayed(rows, i + 1, b) == Replayed(rows, i, b) + if b == AggOf(rows[i]) then 1 else 0
  {
    assert rows[..i + 1] == rows[..i] + [rows[i]];
    FilterAppend(InAggregate(b.tenantId, AggregateId(b)), rows[..i], rows[i]);
    RowBelongs(rows[i], b);
  }

  /** The next event of `b` advances its document; any other event leaves it alone. */
  lemma ReplayStep(b: Agg, es: seq<Payload>, m: nat, r: EventRow, rm: ReadModel, correlationId: string)
    requires RowOk(r) && Clean(b) && Legal(b, es) && DocIs(rm, b, es, m)
    requires b == AggOf(r) ==> r.version == m + 1 <= |es| && es[m] == r.payload
    ensures DocIs(Played(r, rm, correlationId), b, es, if b == AggOf(r) then m + 1 else m)
  {
    var env := EnvelopeOfRow(r, correlationId);
    if b == AggOf(r) {
      UpsertAdvances(b, rm, env, OFFER_TIMEOUT_SECONDS, es, m);
    } else {
      UpsertIsLocal(r.aggregateType, rm, env, OFFER_TIMEOUT_SECONDS, b, es, m);
    }
  }

  /** Nothing replayed is skipped: the inbox holds only rows replayed before. */
  lemma NotSeen(db: Db, rows: seq<EventRow>, i: nat, rm: ReadModel)
    requires TablesOk(db) && i < |rows| && InboxIs(rm, rows[..i])
    requires forall r :: r in rows ==> r in db.events
    requires forall q :: 0 <= q < i ==> rows[q] != rows[i]
    ensures P.RowInbox(rows[i]) !in rm.inbox
  {
    if P.RowInbox(rows[i]) in rm.inbox {
      assert EntryIn(rows[..i], P.RowInbox(rows[i]));
      var r :| r in rows[..i] && P.RowInbox(rows[i]) == P.RowInbox(r);
      assert rows[i] in rows && r in rows;
      var j :| 0 <= j < |db.events| && db.events[j] == rows[i];
      var k :| 0 <= k < |db.events| && db.events[k] == r;
      P.SameEntrySameRow(db, j, k);
    }
  }

  /** Every document is the replay of what was replayed of its stream. */
  ghost predicate DocsAt(db: Db, rows: seq<EventRow>, i: nat, rm: ReadModel)
    requires i <= |rows|
  {
    forall a :: Clean(a) ==> DocIs(rm, a, History(db, a), Replayed(rows, i, a))
  }

  ghost predicate ReplayedOk(db: Db, rows: seq<EventRow>, i: nat, rm: ReadModel)
    requires i <= |rows|
  {
    && DocsAt(db, rows, i, rm)
    && InboxIs(rm, rows[..i])
    && P.KeysOk(db, rm)
  }

  lemma EntryInMore(rows: seq<EventRow>, r: EventRow, rows': seq<EventRow>, entry: string)
    requires rows' == rows + [r]
    ensures EntryIn(rows', entry) <==> EntryIn(rows, entry) || entry == P.RowInbox(r)
  {
    assert r in rows' && forall q :: q in rows ==> q in rows';
  }

  lemma InboxGrows(rm: ReadModel, rows: seq<EventRow>, r: EventRow, rm': ReadModel, rows': seq<EventRow>)
    requires InboxIs(rm, rows) && rm'.inbox == rm.inbox + {P.RowInbox(r)} && rows' == rows + [r]
    ensures InboxIs(rm', rows')
  {
    forall entry ensures entry in rm'.inbox <==> EntryIn(rows', entry) {
      EntryInMore(rows, r, rows', entry);
    }
  }

  lemma ReplayDoc(db: Db, rows: seq<EventRow>, i: nat, rm: ReadModel, correlationId: string, a: Agg)
    requires WellFormed(db) && Rows(db, rows) && i < |rows| && Clean(a)
    requires DocIs(rm, a, History(db, a), Replayed(rows, i, a))
    ensures DocIs(Played(rows[i], rm, correlationId), a, History(db, a), Replayed(rows, i + 1, a))
  {
    NextRow(db, rows, i);
    assert StreamOk(db, a);
    ReplayedGrows(rows, i, a);
    ReplayStep(a, History(db, a), Replayed(rows, i, a), rows[i], rm, correlationId);
  }

  lemma ReplayDocs(db: Db, rows: seq<EventRow>, i: nat, rm: ReadModel, correlationId: string)
    requires WellFormed(db) && Rows(db, rows) && i < |rows| && DocsAt(db, rows, i, rm)
    ensures DocsAt(db, rows, i + 1, Played(rows[i], rm, correlationId))
  {
    forall a | Clean(a) ensures DocIs(Played(rows[i], rm, correlationId), a, History(db, a), Replayed(rows, i + 1, a)) {
      ReplayDoc(db, rows, i, rm, correlationId, a);
    }
  }

  /** A row that was not replayed yet is not skipped, and is remembered afterwards. */
  lemma ReplayInbox(db: Db, rows: seq<EventRow>, i: nat, rm: ReadModel, correlationId: string)
    requires TablesOk(db) && i < |rows| && InboxIs(rm, rows[..i])
    requires forall r :: r in rows ==> r in db.events
    requires forall q :: 0 <= q < i ==> rows[q] != rows[i]
    ensures !Seen(rows[i].aggregateType, rm, EnvelopeOfRow(rows[i], correlationId))
    ensures InboxIs(Played(rows[i], rm, correlationId), rows[..i + 1])
  {
    NotSeen(db, rows, i, rm);
    InboxGrows(rm, rows[..i], rows[i], Played(rows[i], rm, correlationId), rows[..i + 1]);
  }

  lemma ReplayKeys(db: Db, r: EventRow, rm: ReadModel, correlationId: string)
    requires r in db.events && P.KeysOk(db, rm)
    ensures P.KeysOk(db, Played(r, rm, correlationId))
  {
    var env := EnvelopeOfRow(r, correlationId);
    assert P.KeyFrom(db, r.aggregateType, DocId(env.tenantId, env.payload.orderId));
    P.UpsertKeepsKeys(db, rm, env, OFFER_TIMEOUT_SECONDS, r.aggregateType);
  }

  lemma ReplayRow(db: Db, rows: seq<EventRow>, i: nat, rm: ReadModel, correlationId: string)
    requires WellFormed(db) && Rows(db, rows) && i < |rows| && ReplayedOk(db, rows, i, rm)
    ensures ReplayedOk(db, rows, i + 1, Played(rows[i], rm, correlationId))
    ensures !Seen(rows[i].aggregateType, rm, EnvelopeOfRow(rows[i], correlationId))
  {
    NextRow(db, rows, i);
    ReplayDocs(db, rows, i, rm, correlationId);
    ReplayInbox(db, rows, i, rm, correlationId);
    ReplayKeys(db, rows[i], rm, correlationId);
  }

  lemma ReplayNothing(db: Db, rows: seq<EventRow>)
    requires WellFormed(db)
    ensures ReplayedOk(db, rows, 0, EMPTY_MODEL)
  {
    assert rows[..0] == [];
    forall entry ensures !EntryIn(rows[..0], entry) {
    }
  }

  lemma ReplayOneMore(rows: seq<EventRow>, i: nat, correlationId: string)
    requires i < |rows|
    requires !Seen(rows[i].aggregateType, Replay(rows[..i], correlationId), EnvelopeOfRow(rows[i], correlationId))
    ensures Replay(rows[..i + 1], correlationId) == Played(rows[i], Replay(rows[..i], correlationId), correlationId)
  {
    assert rows[..i + 1][..i] == rows[..i];
  }

  /** What is replayed of the first i rows is right. */
  ghost predicate PrefixOk(db: Db, rows: seq<EventRow>, i: nat, correlationId: string)
    requires i <= |rows|
  {
    ReplayedOk(db, rows, i, Replay(rows[..i], correlationId))
  }

  lemma ReplayNext(db: Db, rows: seq<EventRow>, i: nat, correlationId: string)
    requires WellFormed(db) && Rows(db, rows) && i < |rows| && PrefixOk(db, rows, i, correlationId)
    ensures PrefixOk(db, rows, i + 1, correlationId)
  {
    ReplayRow(db, rows, i, Replay(rows[..i], correlationId), correlationId);
    ReplayOneMore(rows, i, correlationId);
  }

  lemma ReplayFirst(db: Db, rows: seq<EventRow>, correlationId: string)
    requires WellFormed(db)
    ensures PrefixOk(db, rows, 0, correlationId)
  {
    ReplayNothing(db, rows);
  }

  lemma ReplayPrefix(db: Db, rows: seq<EventRow>, correlationId: string)
    requires WellFormed(db) && Rows(db, rows)
    ensures PrefixOk(db, rows, |rows|, correlationId)
  {
    ReplayFirst(db, rows, correlationId);
    for i := 0 to |rows|
      invariant PrefixOk(db, rows, i, correlationId)
    {
      ReplayNext(db, rows, i, correlationId);
    }
  }

  lemma SortedRows(db: Db, leq: (EventRow, EventRow) -> bool)
    requires WellFormed(db) && RebuildOrder(leq)
    ensures Rows(db, SortBy(leq, db.events))
  {
    SortPermutes(leq, db.events);
    forall a | Clean(a)
      ensures Filter(InAggregate(a.tenantId, AggregateId(a)), SortBy(leq, db.events)) == Stream(db, a)
    {
      SortKeepsStreams(db, leq, a);
    }
  }

  lemma RebuildIsComplete(db: Db, leq: (EventRow, EventRow) -> bool, correlationId: string)
    returns (rebuilt: ReadModel)
    requires WellFormed(db) && RebuildOrder(leq)
    ensures rebuilt == Replay(SortBy(leq, db.events), correlationId)
    ensures forall a :: Clean(a) ==> DocIs(rebuilt, a, History(db, a), |History(db, a)|)
    ensures P.KeysOk(db, rebuilt)
    ensures InboxIs(rebuilt, db.events)
  {
    var rows := SortBy(leq, db.events);
    rebuilt := Replay(rows, correlationId);
    SortedRows(db, leq);
    SortPermutes(leq, db.events);
    ReplayPrefix(db, rows, correlationId);
    assert rows[..|rows|] == rows;
    forall a | Clean(a) ensures DocIs(rebuilt, a, History(db, a), |History(db, a)|) {
      assert DocIs(rebuilt, a, History(db, a), Replayed(rows, |rows|, a));
    }
    forall entry ensures entry in rebuilt.inbox <==> EntryIn(db.events, entry) {
      assert EntryIn(rows, entry) <==> EntryIn(db.events, entry);
    }
  }

  /** A rebuild brings every document to the fold of its whole stream. */
  lemma RebuildIsReplay(db: Db, leq: (EventRow, EventRow) -> bool, correlationId: string, a: Agg)
    requires WellFormed(db) && RebuildOrder(leq) && Clean(a)
    ensures DocIs(Replay(SortBy(leq, db.events), correlationId), a, History(db, a), |History(db, a)|)
  {
    var _ := RebuildIsComplete(db, leq, correlationId);
  }

  // ---- Runs with rebuilds in them ----

  /** A rebuild while the consumers stand still; writers and the poller may go on, because the rows are
      read at one moment and everything else the rebuild touches is the consumers' alone. */
  ghost predicate Rebuilds(s: P.Pipe, s': P.Pipe) {
    exists leq, correlationId ::
      RebuildOrder(leq) && s' == s.(rm := Replay(SortBy(leq, s.sys.db.events), correlationId))
  }

  /** A run of the pipeline in which the read model may be rebuilt at any moments, drained or not. */
  ghost predicate IsRun(states: seq<P.Pipe>) {
    && states != [] && states[0] == P.START
    && forall k :: 0 < k < |states| ==> P.Next(states[k - 1], states[k]) || Rebuilds(states[k - 1], states[k])
  }

  lemma RebuiltVersions(db: Db, rm: ReadModel, rebuilt: ReadModel)
    requires P.DocsOk(db, rm)
    requires forall a :: Clean(a) ==> DocIs(rebuilt, a, History(db, a), |History(db, a)|)
    ensures P.DocsOk(db, rebuilt)
    ensures forall a :: Clean(a) ==> P.DocVersion(rebuilt, a) == |History(db, a)| >= P.DocVersion(rm, a)
  {
    forall a | Clean(a)
      ensures P.DocOk(db, rebuilt, a) && P.DocVersion(rebuilt, a) == |History(db, a)| >= P.DocVersion(rm, a)
    {
      P.DocVersionIs(rebuilt, a, History(db, a), |History(db, a)|);
      assert P.DocOk(db, rm, a);
    }
  }

  lemma RebuiltInbox(db: Db, rebuilt: ReadModel)
    requires WellFormed(db) && InboxIs(rebuilt, db.events)
    requires forall a :: Clean(a) ==> P.DocVersion(rebuilt, a) == |History(db, a)|
    ensures P.InboxOk(db, rebuilt)
  {
    forall entry | entry in rebuilt.inbox ensures P.EntryOk(db, rebuilt, entry) {
      assert EntryIn(db.events, entry);
      var r :| r in db.events && entry == P.RowInbox(r);
      var i :| 0 <= i < |db.events| && db.events[i] == r;
      RowIsReached(db, rebuilt, i);
    }
  }

  lemma RowIsReached(db: Db, rebuilt: ReadModel, i: nat)
    requires WellFormed(db) && i < |db.events|
    requires forall a :: Clean(a) ==> P.DocVersion(rebuilt, a) == |History(db, a)|
    ensures db.events[i].version <= P.DocVersion(rebuilt, AggOf(db.events[i]))
  {
    assert RowOk(db.events[i]);
    RowPosition(db, i);
  }

  /** Cursors stand no further than they may when documents have only moved forward. */
  lemma CursorsStay(log: seq<Poller.Message>, cursors: map<P.Lane, P.Cursor>, rm: ReadModel, rm': ReadModel)
    requires P.CursorsOk(log, cursors, rm)
    requires forall a :: Clean(a) ==> P.DocVersion(rm, a) <= P.DocVersion(rm', a)
    ensures P.CursorsOk(log, cursors, rm')
  {
    forall a | Clean(a) ensures P.CursorOk(log, P.CursorAt(cursors, P.LaneOf(a)), rm', a) {
      assert P.CursorOk(log, P.CursorAt(cursors, P.LaneOf(a)), rm, a);
    }
  }

  /** A rebuild keeps the pipeline's invariant and takes no document back, wherever the consumers stand. */
  lemma RebuildKeepsInv(s: P.Pipe, s': P.Pipe)
    requires P.Inv(s) && Rebuilds(s, s')
    ensures P.Inv(s') && forall a :: Clean(a) ==> P.DocVersion(s.rm, a) <= P.DocVersion(s'.rm, a)
  {
    var leq, correlationId :|
      RebuildOrder(leq) && s' == s.(rm := Replay(SortBy(leq, s.sys.db.events), correlationId));
    var rebuilt := RebuildIsComplete(s.sys.db, leq, correlationId);
    RebuiltVersions(s.sys.db, s.rm, rebuilt);
    RebuiltInbox(s.sys.db, rebuilt);
    CursorsStay(s.log, s.cursors, s.rm, rebuilt);
  }

  lemma {:induction false} RunInv(states: seq<P.Pipe>, k: nat)
    requires IsRun(states) && k < |states|
    ensures P.Inv(states[k])
  {
    if k == 0 {
      P.StartInv();
    } else {
      RunInv(states, k - 1);
      if P.Next(states[k - 1], states[k]) {
        P.NextKeepsInv(states[k - 1], states[k]);
      } else {
        RebuildKeepsInv(states[k - 1], states[k]);
      }
    }
  }

  /** At every moment of every run, rebuilds or not, each document is the fold of the prefix of its
      stream that its version names. */
  lemma DocumentIsReplay(states: seq<P.Pipe>, k: nat, a: Agg)
    requires IsRun(states) && k < |states| && Clean(a)
    ensures var s := states[k]; DocIs(s.rm, a, History(s.sys.db, a), P.DocVersion(s.rm, a))
  {
    RunInv(states, k);
    assert P.DocOk(states[k].sys.db, states[k].rm, a);
  }

  // ---- A consumer that does not stand still ----

  /** The message carries the stored event. */
  predicate CarriesRow(env: Envelope, r: EventRow) {
    env.tenantId == r.tenantId && env.eventId == r.id && env.version == r.version && env.payload == r.payload
  }

  /** The whole history of an order: placed, and accepted or cancelled. */
  predicate OrderRows(placed: EventRow, ended: EventRow) {
    && placed.aggregateType == ended.aggregateType == OrderKind
    && placed.payload.OrderPlaced? && (ended.payload.OrderAccepted? || ended.payload.OrderCancelled?)
    && placed.payload.orderId == ended.payload.orderId && placed.tenantId == ended.tenantId
    && NoColon(placed.tenantId) && placed.version == 1 && ended.version == 2 && placed.id != ended.id
  }

  /** A consumer handles a message between the clearing and the replay of an order's rows: the order is
      right afterwards if and only if the message was not its outcome. */
  lemma DisturbedRebuildIff(placed: EventRow, ended: EventRow, env: Envelope, timeoutSeconds: nat,
                            correlationId: string)
    requires OrderRows(placed, ended) && (CarriesRow(env, placed) || CarriesRow(env, ended))
    ensures var cleared := Apply(OrderKind, EMPTY_MODEL, env, timeoutSeconds);
      var once := Apply(OrderKind, cleared, EnvelopeOfRow(placed, correlationId), OFFER_TIMEOUT_SECONDS);
      var rebuilt := Apply(OrderKind, once, EnvelopeOfRow(ended, correlationId), OFFER_TIMEOUT_SECONDS);
      var a, es := Agg(OrderKind, placed.tenantId, placed.payload.orderId), [placed.payload, ended.payload];
      && (DocIs(rebuilt, a, es, 2) <==> !CarriesRow(env, ended))
      && (CarriesRow(env, ended) ==> DocIs(rebuilt, a, es, 1))
      && forall late :: CarriesRow(late, placed) || CarriesRow(late, ended) ==>
           Apply(OrderKind, rebuilt, late, timeoutSeconds) == rebuilt
  {
    InboxIdInjective(placed.tenantId, OrderKind, placed.id, ended.tenantId, OrderKind, ended.id);
    OrderFolds(placed.payload, ended.payload);
  }

  lemma OrderFolds(placed: Payload, ended: Payload)
    requires placed.OrderPlaced? && (ended.OrderAccepted? || ended.OrderCancelled?)
    ensures [placed, ended][..1] == [placed] && [placed, ended][..2] == [placed, ended]
    ensures OrderStateOf([placed]) == FoldOrder(INITIAL_ORDER_STATE, placed)
    ensures OrderStateOf([placed, ended]) == FoldOrder(FoldOrder(INITIAL_ORDER_STATE, placed), ended)
  {
    assert [] + [placed] == [placed] && [placed] + [ended] == [placed, ended];
    FoldAppend(FoldOrder, INITIAL_ORDER_STATE, [], placed);
    FoldAppend(FoldOrder, INITIAL_ORDER_STATE, [placed], ended);
  }

  // ---- The times of rebuilt documents ----

  /** An offer that is replayed runs out thirty seconds after its stored time. */
  lemma ReplayedOffer(r: EventRow, rm: ReadModel, correlationId: string)
    requires r.aggregateType.DispatchKind? && r.payload.DriverOffered?
    ensures var id := DocId(r.tenantId, r.payload.orderId);
      id !in rm.dispatches || rm.dispatches[id].version < r.version ==>
        var after := Played(r, rm, correlationId).dispatches;
        id in after && after[id].offerExpiresAt == Some(r.occurredAt + 30000)
  {
  }

  /** The document that stands at m events of its stream carries the stored time of the last of them. */
  predicate TimeOk(db: Db, rm: ReadModel, a: Agg, m: nat) {
    m <= |Stream(db, a)| && (m > 0 ==> P.UpdatedAt(rm, a) == Stream(db, a)[m - 1].occurredAt)
  }

  lemma PlayedTime(db: Db, rows: seq<EventRow>, i: nat, rm: ReadModel, correlationId: string, a: Agg)
    requires WellFormed(db) && Rows(db, rows) && i < |rows| && Clean(a)
    requires DocIs(rm, a, History(db, a), Replayed(rows, i, a)) && TimeOk(db, rm, a, Replayed(rows, i, a))
    ensures TimeOk(db, Played(rows[i], rm, correlationId), a, Replayed(rows, i + 1, a))
  {
    NextRow(db, rows, i);
    ReplayDoc(db, rows, i, rm, correlationId, a);
    ReplayedGrows(rows, i, a);
    PlayedStamp(rows[i], rm, correlationId, a);
    StampedTime(db, rows[i], rm, Played(rows[i], rm, correlationId), a, Replayed(rows, i, a));
  }

  lemma StampedTime(db: Db, r: EventRow, rm: ReadModel, after: ReadModel, a: Agg, m: nat)
    requires TimeOk(db, rm, a, m) && DocIs(rm, a, History(db, a), m)
    requires DocIs(after, a, History(db, a), if a == AggOf(r) then m + 1 else m)
    requires a == AggOf(r) ==> r.version == m + 1 <= |Stream(db, a)| && Stream(db, a)[m] == r
    requires
      || (P.DocVersion(after, a) == P.DocVersion(rm, a) && P.UpdatedAt(after, a) == P.UpdatedAt(rm, a))
      || (a == AggOf(r) && P.DocVersion(after, a) == r.version && P.UpdatedAt(after, a) == r.occurredAt)
    ensures TimeOk(db, after, a, if a == AggOf(r) then m + 1 else m)
  {
    P.DocVersionIs(rm, a, History(db, a), m);
    P.DocVersionIs(after, a, History(db, a), if a == AggOf(r) then m + 1 else m);
  }

  /** A row stamps its own document with its version and time together, or nothing. */
  lemma PlayedStamp(r: EventRow, rm: ReadModel, correlationId: string, a: Agg)
    requires RowOk(r) && Clean(a)
    ensures var after := Played(r, rm, correlationId);
      || (P.DocVersion(after, a) == P.DocVersion(rm, a) && P.UpdatedAt(after, a) == P.UpdatedAt(rm, a))
      || (a == AggOf(r) && P.DocVersion(after, a) == r.version && P.UpdatedAt(after, a) == r.occurredAt)
  {
    P.UpsertStamps(r.aggregateType, rm, EnvelopeOfRow(r, correlationId), OFFER_TIMEOUT_SECONDS, a);
  }

  ghost predicate TimesOk(db: Db, rows: seq<EventRow>, i: nat, correlationId: string)
    requires i <= |rows|
  {
    forall a :: Clean(a) ==> TimeOk(db, Replay(rows[..i], correlationId), a, Replayed(rows, i, a))
  }

  lemma NextTimes(db: Db, rows: seq<EventRow>, i: nat, correlationId: string)
    requires WellFormed(db) && Rows(db, rows) && i < |rows|
    requires PrefixOk(db, rows, i, correlationId) && TimesOk(db, rows, i, correlationId)
    ensures TimesOk(db, rows, i + 1, correlationId)
  {
    var rm := Replay(rows[..i], correlationId);
    ReplayRow(db, rows, i, rm, correlationId);
    ReplayOneMore(rows, i, correlationId);
    forall a | Clean(a) ensures TimeOk(db, Played(rows[i], rm, correlationId), a, Replayed(rows, i + 1, a)) {
      PlayedTime(db, rows, i, rm, correlationId, a);
    }
  }

  lemma TimesOfRows(db: Db, rows: seq<EventRow>, correlationId: string)
    requires WellFormed(db) && Rows(db, rows)
    ensures TimesOk(db, rows, |rows|, correlationId)
  {
    ReplayFirst(db, rows, correlationId);
    for i := 0 to |rows|
      invariant PrefixOk(db, rows, i, correlationId) && TimesOk(db, rows, i, correlationId)
    {
      ReplayNext(db, rows, i, correlationId);
      NextTimes(db, rows, i, correlationId);
    }
  }

  /** A rebuilt document carries the stored time of the last event of its stream. */
  lemma RebuildTimes(db: Db, leq: (EventRow, EventRow) -> bool, correlationId: string, a: Agg)
    requires WellFormed(db) && RebuildOrder(leq) && Clean(a) && Stream(db, a) != []
    ensures P.UpdatedAt(Replay(SortBy(leq, db.events), correlationId), a)
            == Stream(db, a)[|Stream(db, a)| - 1].occurredAt
  {
    SortedRows(db, leq);
    TimesOfAll(db, SortBy(leq, db.events), correlationId, a);
  }

  lemma TimesOfAll(db: Db, rows: seq<EventRow>, correlationId: string, a: Agg)
    requires WellFormed(db) && Rows(db, rows) && Clean(a)
    ensures TimeOk(db, Replay(rows, correlationId), a, |Stream(db, a)|)
  {
    TimesOfRows(db, rows, correlationId);
    assert rows[..|rows|] == rows;
    assert TimeOk(db, Replay(rows[..|rows|], correlationId), a, Replayed(rows, |rows|, a));
  }

  /** A document without the two fields that depend on the clock and the offer window. */
  function CoreOrder(doc: OrderView): OrderView {
    doc.(updatedAt := 0)
  }

  function CoreDispatch(doc: DispatchView): DispatchView {
    doc.(updatedAt := 0, offerExpiresAt := None)
  }

  function CoreOrders(docs: map<string, OrderView>): map<string, OrderView> {
    map id | id in docs :: CoreOrder(docs[id])
  }

  function CoreDispatches(docs: map<string, DispatchView>): map<string, DispatchView> {
    map id | id in docs :: CoreDispatch(docs[id])
  }

  lemma SameDocs(db: Db, rm: ReadModel, live: ReadModel)
    requires WellFormed(db) && P.KeysOk(db, rm)
    requires forall a :: Clean(a) ==> DocIs(rm, a, History(db, a), |History(db, a)|)
    requires forall a :: Clean(a) ==> DocIs(live, a, History(db, a), |History(db, a)|)
    ensures forall id :: id in rm.orders ==> id in live.orders && CoreOrder(rm.orders[id]) == CoreOrder(live.orders[id])
    ensures forall id :: id in rm.dispatches ==>
      id in live.dispatches && CoreDispatch(rm.dispatches[id]) == CoreDispatch(live.dispatches[id])
  {
    forall id | id in rm.orders ensures id in live.orders && CoreOrder(rm.orders[id]) == CoreOrder(live.orders[id]) {
      var a := AggForKey(db, OrderKind, id);
      assert DocIs(rm, a, History(db, a), |History(db, a)|);
    }
    forall id | id in rm.dispatches
      ensures id in live.dispatches && CoreDispatch(rm.dispatches[id]) == CoreDispatch(live.dispatches[id])
    {
      var a := AggForKey(db, DispatchKind, id);
      assert DocIs(rm, a, History(db, a), |History(db, a)|);
    }
  }

  lemma SameMaps(rm: ReadModel, live: ReadModel)
    requires rm.orders.Keys == live.orders.Keys && rm.dispatches.Keys == live.dispatches.Keys
    requires forall id :: id in rm.orders ==> CoreOrder(rm.orders[id]) == CoreOrder(live.orders[id])
    requires forall id :: id in rm.dispatches ==> CoreDispatch(rm.dispatches[id]) == CoreDispatch(live.dispatches[id])
    ensures CoreOrders(rm.orders) == CoreOrders(live.orders)
    ensures CoreDispatches(rm.dispatches) == CoreDispatches(live.dispatches)
  {
  }

  lemma AggForKey(db: Db, kind: Kind, id: string) returns (a: Agg)
    requires TablesOk(db) && P.KeyFrom(db, kind, id)
    ensures Clean(a) && a.kind == kind && id == DocId(a.tenantId, a.orderId)
  {
    var i :| 0 <= i < |db.events| && db.events[i].aggregateType == kind
             && id == DocId(db.events[i].tenantId, db.events[i].payload.orderId);
    a := AggOf(db.events[i]);
    assert RowOk(db.events[i]);
  }

  lemma LiveIsComplete(states: seq<P.Pipe>, k: nat)
    requires IsRun(states) && k < |states|
    requires forall a :: Clean(a) ==> P.Drained(states[k], a)
    ensures var db := states[k].sys.db;
      && WellFormed(db) && P.KeysOk(db, states[k].rm)
      && forall a :: Clean(a) ==> DocIs(states[k].rm, a, History(db, a), |History(db, a)|)
  {
    RunInv(states, k);
    forall a | Clean(a) ensures DocIs(states[k].rm, a, History(states[k].sys.db, a), |History(states[k].sys.db, a)|) {
      P.DrainedIsCurrent(states[k], a);
    }
  }

  /** Rebuild equals live: in any run whose lanes are all drained, clearing and replaying gives
      the documents live consumption had built, up to the two time fields. */
  lemma RebuildEqualsLive(states: seq<P.Pipe>, k: nat, leq: (EventRow, EventRow) -> bool, correlationId: string)
    requires IsRun(states) && k < |states| && RebuildOrder(leq)
    requires forall a :: Clean(a) ==> P.Drained(states[k], a)
    ensures var rebuilt := Replay(SortBy(leq, states[k].sys.db.events), correlationId);
      && CoreOrders(rebuilt.orders) == CoreOrders(states[k].rm.orders)
      && CoreDispatches(rebuilt.dispatches) == CoreDispatches(states[k].rm.dispatches)
  {
    var s := states[k];
    LiveIsComplete(states, k);
    var rebuilt := RebuildIsComplete(s.sys.db, leq, correlationId);
    SameDocs(s.sys.db, rebuilt, s.rm);
    SameDocs(s.sys.db, s.rm, rebuilt);
    SameMaps(rebuilt, s.rm);
  }

  /** After a rebuild the redelivery of any stored event, by either route, changes nothing. */
  lemma RedeliveryAfterRebuild(db: Db, leq: (EventRow, EventRow) -> bool, correlationId: string, env: Envelope,
                               timeoutSeconds: nat, i: nat)
    requires WellFormed(db) && RebuildOrder(leq) && i < |db.events|
    requires env.tenantId == db.events[i].tenantId && env.eventId == db.events[i].id
    ensures var rebuilt := Replay(SortBy(leq, db.events), correlationId);
      Apply(db.events[i].aggregateType, rebuilt, env, timeoutSeconds) == rebuilt
  {
    var rebuilt := RebuildIsComplete(db, leq, correlationId);
    assert EntryIn(db.events, P.RowInbox(db.events[i]));
  }
}
