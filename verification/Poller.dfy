/** The outbox poller: publish each pending row, then mark it SENT. A crash may fall between
    the two, so a row may be published more than once. */
module Poller {
  import opened Contracts
  import opened Sequences
  import opened AggregateStore

  datatype Message = Message(topic: Topic, key: string, envelope: Envelope)

  const BATCH := 100

  predicate IsPending(o: OutboxRow) {
    !o.sent
  }

  predicate CreatedLeq(o: OutboxRow, p: OutboxRow) {
    o.createdAt <= p.createdAt
  }

  /** At most a hundred pending rows, oldest first. */
  function SelectBatch(outbox: seq<OutboxRow>): seq<OutboxRow> {
    var pending := SortBy(CreatedLeq, Filter(IsPending, outbox));
    if |pending| <= BATCH then pending else pending[..BATCH]
  }

  function MessageOf(o: OutboxRow): Message {
    Message(o.topic, o.partitionKey, o.envelope)
  }

  function MarkSent(outbox: seq<OutboxRow>, id: EventId): (r: seq<OutboxRow>)
    ensures |r| == |outbox|
    ensures forall i :: 0 <= i < |r| ==> r[i] == if outbox[i].id == id then outbox[i].(sent := true) else outbox[i]
  {
    seq(|outbox|, i requires 0 <= i < |outbox| => if outbox[i].id == id then outbox[i].(sent := true) else outbox[i])
  }

  /** The poller between two of its effects: the rows still to do, and whether the first of
      them is already published. */
  datatype PollState = PollState(outbox: seq<OutboxRow>, log: seq<Message>, batch: seq<OutboxRow>, published: bool)

  function Work(s: PollState): PollState {
    if s.batch == [] then s
    else if !s.published then s.(log := s.log + [MessageOf(s.batch[0])], published := true)
    else s.(outbox := MarkSent(s.outbox, s.batch[0].id), batch := s.batch[1..], published := false)
  }

  function WorkN(s: PollState, n: nat): PollState {
    if n == 0 then s else Work(WorkN(s, n - 1))
  }

  function StartPoll(outbox: seq<OutboxRow>, log: seq<Message>): PollState {
    PollState(outbox, log, SelectBatch(outbox), false)
  }

  function Messages(rows: seq<OutboxRow>): (ms: seq<Message>)
    ensures |ms| == |rows| && forall i :: 0 <= i < |rows| ==> ms[i] == MessageOf(rows[i])
  {
    seq(|rows|, i requires 0 <= i < |rows| => MessageOf(rows[i]))
  }

  predicate HasId(rows: seq<OutboxRow>, id: EventId) {
    exists o :: o in rows && o.id == id
  }

  lemma HasIdAppend(rows: seq<OutboxRow>, o: OutboxRow, id: EventId)
    ensures HasId(rows + [o], id) <==> HasId(rows, id) || o.id == id
  {
    assert o in rows + [o] && forall p :: p in rows ==> p in rows + [o];
  }

  function Marked(outbox: seq<OutboxRow>, rows: seq<OutboxRow>): seq<OutboxRow> {
    if rows == [] then outbox else MarkSent(Marked(outbox, rows[..|rows| - 1]), rows[|rows| - 1].id)
  }

  /** Marking some rows sets their SENT flag and changes nothing else. */
  lemma {:induction false} MarkedIs(outbox: seq<OutboxRow>, rows: seq<OutboxRow>)
    ensures |Marked(outbox, rows)| == |outbox|
    ensures forall i :: 0 <= i < |outbox| ==>
      Marked(outbox, rows)[i] == outbox[i].(sent := outbox[i].sent || HasId(rows, outbox[i].id))
  {
    if rows != [] {
      var front, row := rows[..|rows| - 1], rows[|rows| - 1];
      MarkedIs(outbox, front);
      assert rows == front + [row];
      forall i | 0 <= i < |outbox|
        ensures Marked(outbox, rows)[i] == outbox[i].(sent := outbox[i].sent || HasId(rows, outbox[i].id))
      {
        HasIdAppend(front, row, outbox[i].id);
      }
    }
  }

  /** The first j rows of the batch are published and marked; nothing else has happened. */
  function Done(s: PollState, j: nat): PollState
    requires j <= |s.batch|
  {
    PollState(Marked(s.outbox, s.batch[..j]), s.log + Messages(s.batch[..j]), s.batch[j..], false)
  }

  /** And row j is published but not marked. */
  function HalfDone(s: PollState, j: nat): PollState
    requires j < |s.batch|
  {
    PollState(Marked(s.outbox, s.batch[..j]), s.log + Messages(s.batch[..j + 1]), s.batch[j..], true)
  }

  lemma RowProgress(s: PollState, j: nat)
    requires j < |s.batch|
    ensures Work(Done(s, j)) == HalfDone(s, j) && Work(HalfDone(s, j)) == Done(s, j + 1)
  {
    assert Messages(s.batch[..j + 1]) == Messages(s.batch[..j]) + [MessageOf(s.batch[j])];
    assert s.batch[..j + 1][..j] == s.batch[..j];
    assert s.batch[j..][1..] == s.batch[j + 1..];
  }

  /** After an even number of effects the first j rows of the batch, in order, have been published
      and marked; after an odd number one more has been published and not marked. So no row is ever
      marked that was not published before. */
  lemma {:induction false} WorkProgress(s: PollState, j: nat)
    requires !s.published && j <= |s.batch|
    ensures WorkN(s, 2 * j) == Done(s, j)
    ensures j < |s.batch| ==> WorkN(s, 2 * j + 1) == HalfDone(s, j)
  {
    if j > 0 {
      WorkProgress(s, j - 1);
      RowProgress(s, j - 1);
    } else {
      assert s.batch[..0] == [] && s.batch[0..] == s.batch && s.log + Messages([]) == s.log;
    }
    if j < |s.batch| {
      RowProgress(s, j);
    }
  }

  // ---- What a poll that does not crash does ----

  predicate IdsDistinct(outbox: seq<OutboxRow>) {
    forall i, j :: 0 <= i < j < |outbox| ==> outbox[i].id != outbox[j].id
  }

  /** How many rows are not sent yet. */
  function Unsent(outbox: seq<OutboxRow>): nat {
    |Filter(IsPending, outbox)|
  }

  /** A hundred of the rows not sent yet, or all if there are fewer: oldest first, and none left behind
      that is older than one taken. */
  predicate OldestUnsent(chosen: seq<OutboxRow>, outbox: seq<OutboxRow>) {
    && |chosen| == (if Unsent(outbox) < 100 then Unsent(outbox) else 100)
    && NoDup(chosen)
    && (forall o :: o in chosen ==> o in outbox && !o.sent)
    && (forall i, j :: 0 <= i < j < |chosen| ==> chosen[i].createdAt <= chosen[j].createdAt)
    && (forall o, p :: o in chosen && p in outbox && !p.sent && p !in chosen ==> o.createdAt <= p.createdAt)
  }

  /** Exactly the chosen rows have become sent, and exactly their messages have been published, in order. */
  predicate Relayed(outbox: seq<OutboxRow>, log: seq<Message>, chosen: seq<OutboxRow>,
                    outbox': seq<OutboxRow>, log': seq<Message>) {
    && |outbox'| == |outbox|
    && (forall i :: 0 <= i < |outbox| ==> outbox'[i] == outbox[i].(sent := outbox[i].sent || outbox[i] in chosen))
    && |log'| == |log| + |chosen| && log <= log'
    && (forall j :: 0 <= j < |chosen| ==>
          log'[|log| + j] == Message(chosen[j].topic, chosen[j].partitionKey, chosen[j].envelope))
    && Unsent(outbox') == Unsent(outbox) - |chosen|
  }

  /** All rows not sent yet, oldest first; the batch is the first hundred of them. */
  lemma SortedUnsent(outbox: seq<OutboxRow>) returns (pending: seq<OutboxRow>)
    ensures |pending| == Unsent(outbox)
    ensures SelectBatch(outbox) == if |pending| < 100 then pending else pending[..100]
    ensures SelectBatch(outbox) <= pending
    ensures forall o :: o in pending <==> o in outbox && !o.sent
    ensures ByCreation(pending)
    ensures IdsDistinct(outbox) ==> NoDup(pending)
  {
    var unsent := Filter(IsPending, outbox);
    pending := SortBy(CreatedLeq, unsent);
    SortPermutes(CreatedLeq, unsent);
    SortedByCreation(unsent);
    if IdsDistinct(outbox) {
      FilterNoDup(IsPending, outbox);
      SortNoDup(CreatedLeq, unsent);
    }
  }

  /** An unsent row older than a selected one is selected before it. */
  lemma SelectedBefore(outbox: seq<OutboxRow>, older: OutboxRow, j: nat) returns (i: nat)
    requires j < |SelectBatch(outbox)| && older in outbox && !older.sent
    requires older.createdAt < SelectBatch(outbox)[j].createdAt
    ensures i < j && SelectBatch(outbox)[i] == older
  {
    var pending := SortedUnsent(outbox);
    i := EarlierInPrefix(pending, SelectBatch(outbox), older, j);
  }

  lemma EarlierInPrefix(pending: seq<OutboxRow>, batch: seq<OutboxRow>, older: OutboxRow, j: nat) returns (i: nat)
    requires batch <= pending && ByCreation(pending) && older in pending
    requires j < |batch| && older.createdAt < batch[j].createdAt
    ensures i < j && batch[i] == older
  {
    i :| 0 <= i < |pending| && pending[i] == older;
    assert batch[j] == pending[j];
  }

  lemma SortedByCreation(rows: seq<OutboxRow>)
    ensures ByCreation(SortBy(CreatedLeq, rows))
  {
    var sorted := SortBy(CreatedLeq, rows);
    SortSorts(CreatedLeq, rows);
    forall i, j | 0 <= i < j < |sorted| ensures sorted[i].createdAt <= sorted[j].createdAt {
      assert CreatedLeq(sorted[i], sorted[j]);
    }
  }

  lemma BatchIsOldest(outbox: seq<OutboxRow>)
    ensures |SelectBatch(outbox)| == (if Unsent(outbox) < 100 then Unsent(outbox) else 100)
    ensures IdsDistinct(outbox) ==> OldestUnsent(SelectBatch(outbox), outbox)
  {
    var pending := SortedUnsent(outbox);
    var n := |SelectBatch(outbox)|;
    assert SelectBatch(outbox) == pending[..n];
    if IdsDistinct(outbox) {
      PrefixIsOldest(pending, n);
    }
  }

  predicate ByCreation(rows: seq<OutboxRow>) {
    forall i, j :: 0 <= i < j < |rows| ==> rows[i].createdAt <= rows[j].createdAt
  }

  /** The first rows of a sorted list: part of it, sorted, without repetition, and none left is older. */
  lemma PrefixIsOldest(pending: seq<OutboxRow>, n: nat)
    requires n <= |pending| && ByCreation(pending) && NoDup(pending)
    ensures NoDup(pending[..n]) && ByCreation(pending[..n])
    ensures forall o :: o in pending[..n] ==> o in pending
    ensures forall o, p :: o in pending[..n] && p in pending && p !in pending[..n] ==> o.createdAt <= p.createdAt
  {
    forall o, p | o in pending[..n] && p in pending && p !in pending[..n] ensures o.createdAt <= p.createdAt {
      NoneLeftIsOlder(pending, n, o, p);
    }
  }

  lemma NoneLeftIsOlder(pending: seq<OutboxRow>, n: nat, o: OutboxRow, p: OutboxRow)
    requires n <= |pending| && ByCreation(pending) && o in pending[..n] && p in pending && p !in pending[..n]
    ensures o.createdAt <= p.createdAt
  {
    var chosen, rest := pending[..n], pending[n..];
    assert pending == chosen + rest;
    var i :| 0 <= i < |chosen| && chosen[i] == o;
    var j :| 0 <= j < |rest| && rest[j] == p;
    assert pending[i] == o && pending[n + j] == p;
  }

  lemma HasIdIff(outbox: seq<OutboxRow>, chosen: seq<OutboxRow>, o: OutboxRow)
    requires IdsDistinct(outbox) && o in outbox && forall p :: p in chosen ==> p in outbox
    ensures HasId(chosen, o.id) <==> o in chosen
  {
  }

  /** Marking the chosen rows leaves the others unsent. */
  lemma UnsentAfter(outbox: seq<OutboxRow>, chosen: seq<OutboxRow>, outbox': seq<OutboxRow>)
    requires IdsDistinct(outbox) && |outbox'| == |outbox| && NoDup(chosen)
    requires forall o :: o in chosen ==> o in outbox && !o.sent
    requires forall i :: 0 <= i < |outbox| ==> outbox'[i] == outbox[i].(sent := outbox[i].sent || outbox[i] in chosen)
    ensures Unsent(outbox') == Unsent(outbox) - |chosen|
  {
    var before, after := Filter(IsPending, outbox), Filter(IsPending, outbox');
    FilterNoDup(IsPending, outbox);
    FilterNoDup(IsPending, outbox');
    ElemsSize(before);
    ElemsSize(after);
    ElemsSize(chosen);
    forall o ensures o in after <==> o in before && o !in chosen {
      if o in before && o !in chosen {
        var i :| 0 <= i < |outbox| && outbox[i] == o;
        assert outbox'[i] == o;
      }
      if o in after {
        var i :| 0 <= i < |outbox'| && outbox'[i] == o;
        assert outbox[i] == o;
      }
    }
    assert Elems(after) == Elems(before) - Elems(chosen);
    assert Elems(chosen) <= Elems(before);
  }

  /** A poll that does not crash takes the oldest hundred rows not sent yet, publishes exactly their
      messages in that order, and marks exactly those rows. */
  lemma CompletePoll(outbox: seq<OutboxRow>, log: seq<Message>) returns (chosen: seq<OutboxRow>)
    requires IdsDistinct(outbox)
    ensures OldestUnsent(chosen, outbox)
    ensures var r := WorkN(StartPoll(outbox, log), 2 * |chosen|);
      r.batch == [] && !r.published && Relayed(outbox, log, chosen, r.outbox, r.log)
  {
    chosen := SelectBatch(outbox);
    BatchIsOldest(outbox);
    WorkProgress(StartPoll(outbox, log), |chosen|);
    assert chosen[..|chosen|] == chosen;
    MarkedAre(outbox, chosen);
    UnsentAfter(outbox, chosen, Marked(outbox, chosen));
  }

  lemma MarkedAre(outbox: seq<OutboxRow>, chosen: seq<OutboxRow>)
    requires IdsDistinct(outbox) && forall o :: o in chosen ==> o in outbox
    ensures var outbox' := Marked(outbox, chosen);
      && |outbox'| == |outbox|
      && forall i :: 0 <= i < |outbox| ==> outbox'[i] == outbox[i].(sent := outbox[i].sent || outbox[i] in chosen)
  {
    MarkedIs(outbox, chosen);
    forall i | 0 <= i < |outbox| ensures HasId(chosen, outbox[i].id) <==> outbox[i] in chosen {
      HasIdIff(outbox, chosen, outbox[i]);
    }
  }

  /** One complete poll. */
  ghost predicate Polled(outbox: seq<OutboxRow>, log: seq<Message>, outbox': seq<OutboxRow>, log': seq<Message>) {
    exists chosen :: OldestUnsent(chosen, outbox) && Relayed(outbox, log, chosen, outbox', log')
  }

  lemma WorkIsPoll(outbox: seq<OutboxRow>, log: seq<Message>)
    requires IdsDistinct(outbox)
    ensures var r := WorkN(StartPoll(outbox, log), 2 * |SelectBatch(outbox)|); Polled(outbox, log, r.outbox, r.log)
  {
    var chosen := CompletePoll(outbox, log);
    BatchIsOldest(outbox);
  }

  lemma PolledFacts(outbox: seq<OutboxRow>, log: seq<Message>, outbox': seq<OutboxRow>, log': seq<Message>)
    requires IdsDistinct(outbox) && Polled(outbox, log, outbox', log')
    ensures IdsDistinct(outbox') && |outbox'| == |outbox| && log <= log'
    ensures Unsent(outbox') == if Unsent(outbox) < 100 then 0 else Unsent(outbox) - 100
  {
    var chosen :| OldestUnsent(chosen, outbox) && Relayed(outbox, log, chosen, outbox', log');
  }

  /** Outbox and log after one more poll that does not crash. */
  function NextPoll(s: PollState): PollState {
    WorkN(StartPoll(s.outbox, s.log), 2 * |SelectBatch(s.outbox)|)
  }

  /** And after k of them, with nothing written in between. */
  function AfterPolls(outbox: seq<OutboxRow>, log: seq<Message>, k: nat): PollState {
    if k == 0 then PollState(outbox, log, [], false) else NextPoll(AfterPolls(outbox, log, k - 1))
  }

  /** So much is left, nothing is lost, and the log has only grown. */
  predicate LeftAfter(outbox: seq<OutboxRow>, log: seq<Message>, left: nat, s: PollState) {
    IdsDistinct(s.outbox) && |s.outbox| == |outbox| && log <= s.log && Unsent(s.outbox) == left
  }

  lemma NextPollTakes(outbox: seq<OutboxRow>, log: seq<Message>, left: nat, s: PollState)
    requires LeftAfter(outbox, log, left, s)
    ensures LeftAfter(outbox, log, if left < 100 then 0 else left - 100, NextPoll(s))
  {
    WorkIsPoll(s.outbox, s.log);
    PolledFacts(s.outbox, s.log, NextPoll(s).outbox, NextPoll(s).log);
  }

  /** Progress: every complete poll takes a hundred rows off, so enough of them send everything. */
  lemma PollsDrain(outbox: seq<OutboxRow>, log: seq<Message>, k: nat)
    requires IdsDistinct(outbox)
    ensures LeftAfter(outbox, log, if Unsent(outbox) < 100 * k then 0 else Unsent(outbox) - 100 * k,
                      AfterPolls(outbox, log, k))
  {
    for i := 0 to k
      invariant DrainedBy(outbox, log, i)
    {
      DrainsOn(outbox, log, i);
    }
  }

  predicate DrainedBy(outbox: seq<OutboxRow>, log: seq<Message>, k: nat) {
    LeftAfter(outbox, log, LeftOver(Unsent(outbox), k), AfterPolls(outbox, log, k))
  }

  lemma DrainsOn(outbox: seq<OutboxRow>, log: seq<Message>, k: nat)
    requires DrainedBy(outbox, log, k)
    ensures DrainedBy(outbox, log, k + 1)
  {
    NextPollTakes(outbox, log, LeftOver(Unsent(outbox), k), AfterPolls(outbox, log, k));
  }

  function LeftOver(unsent: nat, k: nat): nat {
    if unsent < 100 * k then 0 else unsent - 100 * k
  }

  lemma PollsSendAll(outbox: seq<OutboxRow>, log: seq<Message>, k: nat)
    requires IdsDistinct(outbox) && Unsent(outbox) <= 100 * k
    ensures forall o :: o in AfterPolls(outbox, log, k).outbox ==> o.sent
  {
    PollsDrain(outbox, log, k);
    NoneUnsent(AfterPolls(outbox, log, k).outbox);
  }

  lemma NoneUnsent(outbox: seq<OutboxRow>)
    ensures Unsent(outbox) == 0 <==> forall o :: o in outbox ==> o.sent
  {
    var unsent := Filter(IsPending, outbox);
    assert unsent == [] <==> Unsent(outbox) == 0;
    if unsent != [] {
      assert unsent[0] in unsent;
    }
    assert forall o :: o in outbox && !o.sent ==> o in unsent;
  }

  class Broker {
    var log: seq<Message>

    constructor ()
      ensures log == []
    {
      log := [];
    }
  }

  /** `budget` is the number of external effects the process completes before it dies. */
  method PollOnce(store: EventStore, broker: Broker, budget: nat) returns (sent: nat, crashed: bool)
    modifies store`outbox, broker
    ensures var n := if Unsent(old(store.outbox)) < 100 then Unsent(old(store.outbox)) else 100;
      crashed == (budget < 2 * n) && sent == if crashed then budget / 2 else n
    ensures !crashed && IdsDistinct(old(store.outbox)) ==>
      Polled(old(store.outbox), old(broker.log), store.outbox, broker.log)
    ensures var s := StartPoll(old(store.outbox), old(broker.log));
      && crashed == (budget < 2 * |s.batch|)
      && sent == (if crashed then budget / 2 else |s.batch|)
      && var r := WorkN(s, if crashed then budget else 2 * |s.batch|);
         store.outbox == r.outbox && broker.log == r.log
  {
    var pending := SelectBatch(store.outbox);
    ghost var s := StartPoll(store.outbox, broker.log);
    BatchIsOldest(store.outbox);
    for i := 0 to |pending|
      invariant 2 * i <= budget
      invariant WorkN(s, 2 * i) == PollState(store.outbox, broker.log, pending[i..], false)
    {
      var row := pending[i];
      if budget == 2 * i {
        return i, true;
      }
      broker.log := broker.log + [MessageOf(row)];
      assert WorkN(s, 2 * i + 1) == PollState(store.outbox, broker.log, pending[i..], true);
      if budget == 2 * i + 1 {
        return i, true;
      }
      store.outbox := MarkSent(store.outbox, row.id);
      assert WorkN(s, 2 * i + 2) == PollState(store.outbox, broker.log, pending[i..][1..], false);
    }
    if IdsDistinct(old(store.outbox)) {
      WorkIsPoll(old(store.outbox), old(broker.log));
    }
    return |pending|, false;
  }
}
