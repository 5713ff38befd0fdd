/** Rotating one-time refresh tokens with reuse detection and a grace window. Each call reads the
    clock several times; the readings only ever move forward. */
module RefreshTokens {
  import opened Contracts

  /** A raw token. Hashing is injective, so a row is keyed by the token it was made for. */
  type Token = string
  type FamilyId = string

  datatype TokenStatus = ACTIVE | ROTATED | REVOKED

  datatype Row = Row(
    familyId: FamilyId,
    userId: string,
    tenantId: TenantId,
    status: TokenStatus,
    expiresAt: Time,
    createdAt: Time,
    rotatedAt: Option<Time>,
    revokedAt: Option<Time>)

  type Table = map<Token, Row>

  datatype Config = Config(refreshTtlMs: nat, reuseGraceMs: int)

  datatype RotateResult = Rotated(raw: Token, expiresAt: Time, userId: string) | Reuse | Invalid

  /** The clock readings of one rotate call, in the order they are taken. */
  datatype Readings = Readings(prune: Time, check: Time, find: Time, expiry: Time, stamp: Time, created: Time)

  predicate Forward(now: Time, clk: Readings) {
    now <= clk.prune <= clk.check <= clk.find <= clk.expiry <= clk.stamp <= clk.created
  }

  function NewRow(cfg: Config, familyId: FamilyId, userId: string, tenantId: TenantId, expiry: Time,
                  created: Time): Row {
    Row(familyId, userId, tenantId, ACTIVE, expiry + cfg.refreshTtlMs, created, None, None)
  }

  function Pruned(t: Table, now: Time): Table {
    map k | k in t && t[k].expiresAt >= now :: t[k]
  }

  function RevokedFamily(t: Table, familyId: FamilyId, now: Time): Table {
    map k | k in t :: if t[k].familyId == familyId then t[k].(status := REVOKED, revokedAt := Some(now)) else t[k]
  }

  predicate ActiveIn(t: Table, familyId: FamilyId, k: Token) {
    k in t && t[k].familyId == familyId && t[k].status == ACTIVE
  }

  /** The newest unexpired active row of the family. */
  predicate FoundFirst(t: Table, familyId: FamilyId, now: Time, k: Token) {
    && ActiveIn(t, familyId, k) && t[k].expiresAt >= now
    && forall j :: j in t && ActiveIn(t, familyId, j) && t[j].expiresAt >= now ==> t[j].createdAt <= t[k].createdAt
  }

  ghost function FindFirst(t: Table, familyId: FamilyId, now: Time): Option<Token> {
    if k :| FoundFirst(t, familyId, now, k) then Some(k) else None
  }

  function RotateRow(cfg: Config, t: Table, k: Token, raw2: Token, clk: Readings): (Table, RotateResult)
    requires k in t
  {
    var row := t[k];
    var minted := NewRow(cfg, row.familyId, row.userId, row.tenantId, clk.expiry, clk.created);
    (t[k := row.(status := ROTATED, rotatedAt := Some(clk.stamp))][raw2 := minted],
     Rotated(raw2, minted.expiresAt, row.userId))
  }

  function Graced(cfg: Config, row: Row, now: Time): bool {
    row.status == ROTATED && row.rotatedAt.Some? && now - row.rotatedAt.value < cfg.reuseGraceMs
  }

  ghost function Rotate(cfg: Config, table: Table, raw: Token, raw2: Token, clk: Readings): (Table, RotateResult) {
    RotatePruned(cfg, Pruned(table, clk.prune), raw, raw2, clk)
  }

  ghost function RotatePruned(cfg: Config, t: Table, raw: Token, raw2: Token, clk: Readings): (Table, RotateResult) {
    if raw !in t then (t, Invalid)
    else
      var row := t[raw];
      if row.status != ACTIVE then
        var active := if Graced(cfg, row, clk.check) then FindFirst(t, row.familyId, clk.find) else None;
        if active.Some? then
          assert FoundFirst(t, row.familyId, clk.find, active.value);
          RotateRow(cfg, t, active.value, raw2, clk)
        else
          (RevokedFamily(t, row.familyId, clk.stamp), Reuse)
      else if row.expiresAt < clk.check then (t, Invalid)
      else RotateRow(cfg, t, raw, raw2, clk)
  }

  function RevokedToken(t: Table, raw: Token, now: Time): Table {
    if raw in t then t[raw := t[raw].(status := REVOKED, revokedAt := Some(now))] else t
  }

  // ---- Histories ----

  datatype Owner = Owner(userId: string, tenantId: TenantId)

  /** The table, and what has ever been issued: the family of every token, the owner of every family. */
  datatype Service = Service(table: Table, minted: map<Token, FamilyId>, owners: map<FamilyId, Owner>, now: Time)

  datatype Op =
    | Issue(userId: string, tenantId: TenantId, familyId: FamilyId, raw: Token, expiry: Time, created: Time)
    | Present(raw: Token, raw2: Token, clk: Readings)
    | Revoke(raw: Token, at: Time)

  /** Serialized calls, a forward clock, fresh random values. */
  predicate Enabled(s: Service, op: Op) {
    match op
    case Issue(_, _, familyId, raw, expiry, created) =>
      raw !in s.minted && familyId !in s.owners && s.now <= expiry <= created
    case Present(_, raw2, clk) => raw2 !in s.minted && Forward(s.now, clk)
    case Revoke(_, at) => s.now <= at
  }

  /** What a rotate call does to the service; the result of the other two calls is not of interest. */
  ghost function Step(cfg: Config, s: Service, op: Op): (Service, RotateResult)
    requires Enabled(s, op)
  {
    match op
    case Issue(userId, tenantId, familyId, raw, expiry, created) =>
      (Service(s.table[raw := NewRow(cfg, familyId, userId, tenantId, expiry, created)],
               s.minted[raw := familyId], s.owners[familyId := Owner(userId, tenantId)], created), Invalid)
    case Present(raw, raw2, clk) =>
      var (t, r) := Rotate(cfg, s.table, raw, raw2, clk);
      (Service(t, if r.Rotated? && raw2 in t then s.minted[raw2 := t[raw2].familyId] else s.minted,
               s.owners, clk.created), r)
    case Revoke(raw, at) =>
      (s.(table := RevokedToken(s.table, raw, at), now := at), Invalid)
  }

  predicate RowOk(s: Service, k: Token)
    requires k in s.table
  {
    var row := s.table[k];
    && k in s.minted && s.minted[k] == row.familyId
    && row.familyId in s.owners && s.owners[row.familyId] == Owner(row.userId, row.tenantId)
    && (row.status == ACTIVE ==> row.rotatedAt == None)
    && (row.status == ROTATED ==> row.rotatedAt.Some? && row.rotatedAt.value <= s.now)
  }

  /** At most one active token per family; all rows of a family have one user and one tenant. */
  ghost predicate Inv(s: Service) {
    && (forall k :: k in s.table ==> RowOk(s, k))
    && (forall k :: k in s.minted ==> s.minted[k] in s.owners)
    && (forall f, j, k | ActiveIn(s.table, f, j) && ActiveIn(s.table, f, k) :: j == k)
  }

  ghost predicate Dead(s: Service, familyId: FamilyId) {
    forall k :: !ActiveIn(s.table, familyId, k)
  }

  function Rank(status: TokenStatus): nat {
    match status case ACTIVE => 0 case ROTATED => 1 case REVOKED => 2
  }

  /** A row may only be pruned or move on: its owner and times stay, its status never goes back. */
  predicate RowFollows(s: Service, s': Service, k: Token) {
    k in s'.table ==>
      k in s.table &&
      var row, row' := s.table[k], s'.table[k];
      && row'.familyId == row.familyId && row'.userId == row.userId && row'.tenantId == row.tenantId
      && row'.expiresAt == row.expiresAt
      && Rank(row.status) <= Rank(row'.status)
      && (row.rotatedAt.Some? ==> row'.rotatedAt == row.rotatedAt)
  }

  ghost predicate Follows(s: Service, s': Service) {
    && s.now <= s'.now
    && (forall k :: k in s.minted ==> k in s'.minted && s'.minted[k] == s.minted[k] && RowFollows(s, s', k))
    && (forall f :: f in s.owners ==> f in s'.owners && s'.owners[f] == s.owners[f])
    && (forall f :: f in s.owners && Dead(s, f) ==> Dead(s', f))
  }

  lemma PruneKeeps(s: Service, now: Time)
    requires Inv(s) && s.now <= now
    ensures var s' := s.(table := Pruned(s.table, now), now := now); Inv(s') && Follows(s, s')
  {
    var s' := s.(table := Pruned(s.table, now), now := now);
    forall f, k | ActiveIn(s'.table, f, k) ensures ActiveIn(s.table, f, k) {
    }
    forall k | k in s'.table ensures RowOk(s', k) {
      assert RowOk(s, k);
    }
  }

  lemma RevokeFamilyKeeps(s: Service, familyId: FamilyId, now: Time)
    requires Inv(s) && s.now <= now
    ensures var s' := s.(table := RevokedFamily(s.table, familyId, now), now := now);
      Inv(s') && Follows(s, s') && Dead(s', familyId)
  {
    var s' := s.(table := RevokedFamily(s.table, familyId, now), now := now);
    forall f, k | ActiveIn(s'.table, f, k) ensures ActiveIn(s.table, f, k) && f != familyId {
    }
    forall k | k in s'.table ensures RowOk(s', k) {
      assert RowOk(s, k);
    }
  }

  lemma LaterKeeps(s: Service, now: Time)
    requires Inv(s) && s.now <= now
    ensures Inv(s.(now := now)) && Follows(s, s.(now := now))
  {
    forall k | k in s.table ensures RowOk(s.(now := now), k) {
      assert RowOk(s, k);
    }
  }

  /** Rotating the active row of a family replaces it by its successor. */
  lemma RotateRowKeeps(cfg: Config, s: Service, k: Token, raw2: Token, clk: Readings)
    requires Inv(s) && raw2 !in s.minted && Forward(s.now, clk)
    requires k in s.table && s.table[k].status == ACTIVE
    ensures var (t', r) := RotateRow(cfg, s.table, k, raw2, clk);
      var s' := Service(t', s.minted[raw2 := s.table[k].familyId], s.owners, clk.created);
      Inv(s') && Follows(s, s') && ActiveIn(t', s.table[k].familyId, raw2)
  {
    var (t', r) := RotateRow(cfg, s.table, k, raw2, clk);
    var s' := Service(t', s.minted[raw2 := s.table[k].familyId], s.owners, clk.created);
    assert RowOk(s, k) && raw2 !in s.table && raw2 != k;
    assert ActiveIn(s.table, s.table[k].familyId, k);
    forall f, j | ActiveIn(t', f, j) ensures j == raw2 || (ActiveIn(s.table, f, j) && f != s.table[k].familyId) {
    }
    forall j | j in t' ensures RowOk(s', j) {
      if j != raw2 {
        assert RowOk(s, j);
      }
    }
  }

  /** The three ways a rotate call ends, after pruning. */
  lemma RotateEnds(cfg: Config, table: Table, raw: Token, raw2: Token, clk: Readings) returns (k: Token)
    ensures var t := Pruned(table, clk.prune);
      match Rotate(cfg, table, raw, raw2, clk)
      case (t', Invalid) => t' == t
      case (t', Reuse) => raw in t && t' == RevokedFamily(t, t[raw].familyId, clk.stamp)
      case (t', r) =>
        && raw in t && k in t && ActiveIn(t, t[raw].familyId, k)
        && (t', r) == RotateRow(cfg, t, k, raw2, clk)
  {
    k := raw;
    var t := Pruned(table, clk.prune);
    if raw in t && t[raw].status != ACTIVE {
      var active := FindFirst(t, t[raw].familyId, clk.find);
      if active.Some? {
        k := active.value;
        assert FoundFirst(t, t[raw].familyId, clk.find, k);
      }
    }
  }

  lemma PresentKeeps(cfg: Config, s: Service, raw: Token, raw2: Token, clk: Readings)
    requires Inv(s) && Enabled(s, Present(raw, raw2, clk))
    ensures var (s', r) := Step(cfg, s, Present(raw, raw2, clk));
      && Inv(s') && Follows(s, s')
      && (r.Reuse? ==> raw in s.minted && Dead(s', s.minted[raw]))
  {
    var (s', r) := Step(cfg, s, Present(raw, raw2, clk));
    var k := RotateEnds(cfg, s.table, raw, raw2, clk);
    PruneKeeps(s, clk.prune);
    var s1 := s.(table := Pruned(s.table, clk.prune), now := clk.prune);
    assert raw in s1.table ==> RowOk(s1, raw);
    match r
    case Invalid =>
      LaterKeeps(s1, clk.created);
      assert s' == s1.(now := clk.created);
      FollowsTransitive(s, s1, s');
    case Reuse =>
      var familyId := s1.table[raw].familyId;
      RevokeFamilyKeeps(s1, familyId, clk.stamp);
      var s2 := s1.(table := RevokedFamily(s1.table, familyId, clk.stamp), now := clk.stamp);
      LaterKeeps(s2, clk.created);
      assert s' == s2.(now := clk.created);
      FollowsTransitive(s, s1, s2);
      FollowsTransitive(s, s2, s');
    case Rotated(_, _, _) =>
      RotateRowKeeps(cfg, s1, k, raw2, clk);
      FollowsTransitive(s, s1, s');
  }

  lemma IssueKeeps(cfg: Config, s: Service, op: Op)
    requires Inv(s) && Enabled(s, op) && op.Issue?
    ensures var s' := Step(cfg, s, op).0; Inv(s') && Follows(s, s')
  {
    var s' := Step(cfg, s, op).0;
    assert op.raw !in s.table;
    forall f, j | ActiveIn(s'.table, f, j)
      ensures (j == op.raw && f == op.familyId) || (ActiveIn(s.table, f, j) && f != op.familyId)
    {
      if j != op.raw {
        assert RowOk(s, j);
      }
    }
    forall j | j in s'.table ensures RowOk(s', j) {
      if j != op.raw {
        assert RowOk(s, j);
      }
    }
  }

  lemma RevokeKeeps(cfg: Config, s: Service, op: Op)
    requires Inv(s) && Enabled(s, op) && op.Revoke?
    ensures var s' := Step(cfg, s, op).0; Inv(s') && Follows(s, s')
  {
    var s' := Step(cfg, s, op).0;
    forall f, j | ActiveIn(s'.table, f, j) ensures ActiveIn(s.table, f, j) {
    }
    forall j | j in s'.table ensures RowOk(s', j) {
      assert RowOk(s, j);
    }
  }

  lemma StepKeeps(cfg: Config, s: Service, op: Op)
    requires Inv(s) && Enabled(s, op)
    ensures var s' := Step(cfg, s, op).0; Inv(s') && Follows(s, s')
  {
    match op {
      case Issue(_, _, _, _, _, _) => IssueKeeps(cfg, s, op);
      case Present(raw, raw2, clk) => PresentKeeps(cfg, s, raw, raw2, clk);
      case Revoke(_, _) => RevokeKeeps(cfg, s, op);
    }
  }

  lemma FollowsTransitive(a: Service, b: Service, c: Service)
    requires Follows(a, b) && Follows(b, c)
    ensures Follows(a, c)
  {
    forall k | k in a.minted ensures RowFollows(a, c, k) {
      assert RowFollows(a, b, k) && RowFollows(b, c, k);
    }
  }

  ghost predicate IsRun(cfg: Config, s: Service, ops: seq<Op>)
    decreases |ops|
  {
    ops == [] || (Enabled(s, ops[0]) && IsRun(cfg, Step(cfg, s, ops[0]).0, ops[1..]))
  }

  ghost function After(cfg: Config, s: Service, ops: seq<Op>): Service
    requires IsRun(cfg, s, ops)
    decreases |ops|
  {
    if ops == [] then s else After(cfg, Step(cfg, s, ops[0]).0, ops[1..])
  }

  /** Family safety over every history. */
  lemma {:induction false} RunKeeps(cfg: Config, s: Service, ops: seq<Op>)
    requires Inv(s) && IsRun(cfg, s, ops)
    ensures Inv(After(cfg, s, ops)) && Follows(s, After(cfg, s, ops))
    decreases |ops|
  {
    if ops != [] {
      var next := Step(cfg, s, ops[0]).0;
      StepKeeps(cfg, s, ops[0]);
      RunKeeps(cfg, next, ops[1..]);
      FollowsTransitive(s, next, After(cfg, s, ops));
    }
  }

  const EMPTY := Service(map[], map[], map[], 0)

  /** From the empty table: one active token per family and one owner per family, always; rows are
      only ever pruned or moved on, never reactivated. */
  lemma FamilySafety(cfg: Config, before: seq<Op>, later: seq<Op>)
    requires IsRun(cfg, EMPTY, before) && IsRun(cfg, After(cfg, EMPTY, before), later)
    ensures var s, s' := After(cfg, EMPTY, before), After(cfg, After(cfg, EMPTY, before), later);
      && (forall f, j, k | ActiveIn(s.table, f, j) && ActiveIn(s.table, f, k) :: j == k)
      && (forall j, k | j in s.table && k in s.table && s.table[j].familyId == s.table[k].familyId ::
            s.table[j].userId == s.table[k].userId && s.table[j].tenantId == s.table[k].tenantId)
      && (forall k | k in s.table && s.table[k].status != ACTIVE :: !ActiveIn(s'.table, s.table[k].familyId, k))
      && (forall k | k in s.minted && k !in s.table :: k !in s'.table)
  {
    RunKeeps(cfg, EMPTY, before);
    var s := After(cfg, EMPTY, before);
    RunKeeps(cfg, s, later);
    var s' := After(cfg, s, later);
    forall j, k | j in s.table && k in s.table && s.table[j].familyId == s.table[k].familyId
      ensures s.table[j].userId == s.table[k].userId && s.table[j].tenantId == s.table[k].tenantId
    {
      assert RowOk(s, j) && RowOk(s, k);
    }
    forall k | k in s.table && s.table[k].status != ACTIVE ensures !ActiveIn(s'.table, s.table[k].familyId, k) {
      assert RowOk(s, k) && RowFollows(s, s', k);
    }
    forall k | k in s.minted && k !in s.table ensures k !in s'.table {
      assert RowFollows(s, s', k);
    }
  }

  /** A family without an active row cannot be used. */
  lemma DeadFamilyNeverSucceeds(cfg: Config, s: Service, raw: Token, raw2: Token, clk: Readings)
    requires Inv(s) && Enabled(s, Present(raw, raw2, clk))
    requires raw in s.minted && Dead(s, s.minted[raw])
    ensures !Step(cfg, s, Present(raw, raw2, clk)).1.Rotated?
  {
    var k := RotateEnds(cfg, s.table, raw, raw2, clk);
    assert raw in s.table ==> RowOk(s, raw);
    assert !ActiveIn(s.table, s.minted[raw], k);
  }

  /** Theft response: after one "reuse" answer, no token of the family ever succeeds again. */
  lemma ReuseEndsFamilyForever(cfg: Config, s: Service, raw: Token, raw2: Token, clk: Readings, ops: seq<Op>, probe: Op)
    requires Inv(s) && Enabled(s, Present(raw, raw2, clk)) && Step(cfg, s, Present(raw, raw2, clk)).1.Reuse?
    requires IsRun(cfg, Step(cfg, s, Present(raw, raw2, clk)).0, ops)
    requires probe.Present? && Enabled(After(cfg, Step(cfg, s, Present(raw, raw2, clk)).0, ops), probe)
    ensures raw in s.minted
    ensures var s' := After(cfg, Step(cfg, s, Present(raw, raw2, clk)).0, ops);
      probe.raw in s'.minted && s'.minted[probe.raw] == s.minted[raw] ==> !Step(cfg, s', probe).1.Rotated?
  {
    PresentKeeps(cfg, s, raw, raw2, clk);
    var s1 := Step(cfg, s, Present(raw, raw2, clk)).0;
    RunKeeps(cfg, s1, ops);
    var s' := After(cfg, s1, ops);
    if probe.raw in s'.minted && s'.minted[probe.raw] == s.minted[raw] {
      DeadFamilyNeverSucceeds(cfg, s', probe.raw, probe.raw2, probe.clk);
    }
  }

  /** When exactly a presented token succeeds: it is unexpired and active, or it was rotated less
      than the grace window ago and its family still has an unexpired active row. */
  predicate Redeemable(cfg: Config, t: Table, raw: Token, clk: Readings) {
    && raw in t && t[raw].expiresAt >= clk.prune
    && (|| (t[raw].status == ACTIVE && t[raw].expiresAt >= clk.check)
        || (t[raw].status == ROTATED && t[raw].rotatedAt.Some?
            && clk.check - t[raw].rotatedAt.value < cfg.reuseGraceMs
            && exists k :: k in t && ActiveIn(t, t[raw].familyId, k) && t[k].expiresAt >= clk.find))
  }

  lemma PresentSucceedsIff(cfg: Config, s: Service, raw: Token, raw2: Token, clk: Readings)
    requires Inv(s) && Enabled(s, Present(raw, raw2, clk))
    ensures Step(cfg, s, Present(raw, raw2, clk)).1.Rotated? <==> Redeemable(cfg, s.table, raw, clk)
  {
    var t := Pruned(s.table, clk.prune);
    if Redeemable(cfg, s.table, raw, clk) && t[raw].status != ACTIVE {
      var k :| k in s.table && ActiveIn(s.table, t[raw].familyId, k) && s.table[k].expiresAt >= clk.find;
      forall j | j in t && ActiveIn(t, t[raw].familyId, j) ensures j == k {
        assert ActiveIn(s.table, t[raw].familyId, j);
      }
      assert FoundFirst(t, t[raw].familyId, clk.find, k);
    }
    if Step(cfg, s, Present(raw, raw2, clk)).1.Rotated? && t[raw].status != ACTIVE {
      var k :| FoundFirst(t, t[raw].familyId, clk.find, k);
      assert ActiveIn(s.table, t[raw].familyId, k);
    }
  }

  // ---- Every answer, read off the table before the call ----

  predicate InTable(t: Table, raw: Token, prune: Time) {
    raw in t && t[raw].expiresAt >= prune
  }

  /** The answer is "reuse" exactly for a token that the table still has, that is not active and that the
      grace window does not save; it is "invalid" exactly for a token the table does not have, or has
      dropped as expired, or whose active row runs out before the check. */
  lemma AnswerIff(cfg: Config, s: Service, raw: Token, raw2: Token, clk: Readings)
    requires Inv(s) && Enabled(s, Present(raw, raw2, clk))
    ensures var r := Step(cfg, s, Present(raw, raw2, clk)).1;
      && (r.Reuse? <==>
            InTable(s.table, raw, clk.prune) && s.table[raw].status != ACTIVE && !Redeemable(cfg, s.table, raw, clk))
      && (r.Invalid? <==>
            || raw !in s.table || s.table[raw].expiresAt < clk.prune
            || (s.table[raw].status == ACTIVE && s.table[raw].expiresAt < clk.check))
  {
    PresentSucceedsIff(cfg, s, raw, raw2, clk);
  }

  /** After "reuse" every row of the family that has not expired is revoked, at an instant of the call;
      after "invalid" none is touched; either way other rows are as they were, and only expired ones go. */
  lemma RefusalEffect(cfg: Config, s: Service, raw: Token, raw2: Token, clk: Readings)
    requires Inv(s) && Enabled(s, Present(raw, raw2, clk)) && !Step(cfg, s, Present(raw, raw2, clk)).1.Rotated?
    ensures var (s', r) := Step(cfg, s, Present(raw, raw2, clk));
      && s'.minted == s.minted && s'.owners == s.owners
      && (forall k :: k in s'.table <==> k in s.table && s.table[k].expiresAt >= clk.prune)
      && (r.Reuse? ==> raw in s.table)
      && forall k :: k in s'.table ==>
           s'.table[k] ==
             if r.Reuse? && s.table[k].familyId == s.table[raw].familyId
             then s.table[k].(status := REVOKED, revokedAt := Some(clk.stamp))
             else s.table[k]
  {
    PresentKeeps(cfg, s, raw, raw2, clk);
    assert raw in s.table ==> RowOk(s, raw);
  }

  /** A success adds the new token's row, with the presented token's owner and a full lifetime, and marks
      the family's active row rotated; other rows are as they were, and only expired ones go. */
  lemma SuccessEffect(cfg: Config, s: Service, raw: Token, raw2: Token, clk: Readings)
    requires Inv(s) && Enabled(s, Present(raw, raw2, clk)) && Redeemable(cfg, s.table, raw, clk)
    ensures var s', f := Step(cfg, s, Present(raw, raw2, clk)).0, s.table[raw].familyId;
      && s'.minted == s.minted[raw2 := f] && s'.owners == s.owners
      && (forall k :: k in s'.table <==> k == raw2 || (k in s.table && s.table[k].expiresAt >= clk.prune))
      && forall k :: k in s'.table ==>
           s'.table[k] ==
             if k == raw2 then
               Row(f, s.table[raw].userId, s.table[raw].tenantId, ACTIVE, clk.expiry + cfg.refreshTtlMs, clk.created,
                   None, None)
             else if s.table[k].familyId == f && s.table[k].status == ACTIVE then
               s.table[k].(status := ROTATED, rotatedAt := Some(clk.stamp))
             else s.table[k]
  {
    PresentSucceedsIff(cfg, s, raw, raw2, clk);
    var s' := Step(cfg, s, Present(raw, raw2, clk)).0;
    var k := RotateEnds(cfg, s.table, raw, raw2, clk);
    assert RowOk(s, raw) && RowOk(s, k);
    assert raw2 !in s.table by {
      assert raw2 in s.table ==> RowOk(s, raw2);
    }
    forall j | j in s.table && s.table[j].familyId == s.table[raw].familyId && s.table[j].status == ACTIVE
      ensures j == k
    {
      assert ActiveIn(s.table, s.table[raw].familyId, j) && ActiveIn(s.table, s.table[raw].familyId, k);
    }
  }

  /** After a success the family's one active row is the new token's, with the same owner and a
      full lifetime, and the token presented is not active any more. */
  lemma SuccessHandsOver(cfg: Config, s: Service, raw: Token, raw2: Token, clk: Readings)
    requires Inv(s) && Enabled(s, Present(raw, raw2, clk)) && Redeemable(cfg, s.table, raw, clk)
    ensures var (s', r) := Step(cfg, s, Present(raw, raw2, clk));
      var row := s.table[raw];
      && (forall j :: ActiveIn(s'.table, row.familyId, j) <==> j == raw2)
      && raw2 in s'.table
      && s'.table[raw2].userId == row.userId && s'.table[raw2].tenantId == row.tenantId
      && r == Rotated(raw2, s'.table[raw2].expiresAt, row.userId)
      && s'.table[raw2].expiresAt == clk.expiry + cfg.refreshTtlMs
      && raw in s'.table && s'.table[raw].status == ROTATED
      && (row.status == ROTATED ==> s'.table[raw] == row)
  {
    PresentSucceedsIff(cfg, s, raw, raw2, clk);
    PresentKeeps(cfg, s, raw, raw2, clk);
    var s' := Step(cfg, s, Present(raw, raw2, clk)).0;
    var k := RotateEnds(cfg, s.table, raw, raw2, clk);
    assert RowOk(s, raw) && RowOk(s, k) && raw2 !in s.table;
    assert ActiveIn(s'.table, s.table[raw].familyId, raw2);
    assert ActiveIn(s.table, s.table[raw].familyId, k);
  }

  /** One-time use with bounded grace: once rotated at time t, a token presented at t plus the grace
      window or later never succeeds, whatever happened in between. */
  lemma GraceIsBounded(cfg: Config, s: Service, raw: Token, ops: seq<Op>, raw2: Token, clk: Readings)
    requires Inv(s) && raw in s.table && s.table[raw].status == ROTATED
    requires IsRun(cfg, s, ops) && Enabled(After(cfg, s, ops), Present(raw, raw2, clk))
    requires clk.check >= s.table[raw].rotatedAt.value + cfg.reuseGraceMs
    ensures !Step(cfg, After(cfg, s, ops), Present(raw, raw2, clk)).1.Rotated?
  {
    RunKeeps(cfg, s, ops);
    var s' := After(cfg, s, ops);
    assert RowOk(s, raw) && RowFollows(s, s', raw);
    PresentSucceedsIff(cfg, s', raw, raw2, clk);
  }

  // ---- Logging out ----

  /** Now or later, whatever happens in between, some token of the family can be exchanged. */
  ghost predicate CanBeUsed(cfg: Config, s: Service, familyId: FamilyId) {
    exists ops, probe :: IsRun(cfg, s, ops) && Succeeds(cfg, After(cfg, s, ops), probe, familyId)
  }

  ghost predicate Succeeds(cfg: Config, s: Service, probe: Op, familyId: FamilyId) {
    && probe.Present? && Enabled(s, probe)
    && probe.raw in s.minted && s.minted[probe.raw] == familyId
    && Step(cfg, s, probe).1.Rotated?
  }

  /** Every active row that is left has expired. */
  ghost predicate Spent(s: Service, familyId: FamilyId) {
    familyId in s.owners && forall k :: ActiveIn(s.table, familyId, k) ==> s.table[k].expiresAt < s.now
  }

  lemma SpentNeverSucceeds(cfg: Config, s: Service, probe: Op, familyId: FamilyId)
    requires Inv(s) && Spent(s, familyId)
    ensures !Succeeds(cfg, s, probe, familyId)
  {
    if probe.Present? && Enabled(s, probe) && probe.raw in s.minted && s.minted[probe.raw] == familyId {
      PresentSucceedsIff(cfg, s, probe.raw, probe.raw2, probe.clk);
      assert probe.raw in s.table ==> RowOk(s, probe.raw);
      assert probe.raw in s.table && s.table[probe.raw].status == ACTIVE ==> ActiveIn(s.table, familyId, probe.raw);
    }
  }

  /** A new token belongs to a new family, or to that of the token it was exchanged for. */
  lemma NewTokensFamily(cfg: Config, s: Service, op: Op, k: Token)
    requires Inv(s) && Enabled(s, op) && k !in s.minted && k in Step(cfg, s, op).0.table
    ensures var f := Step(cfg, s, op).0.table[k].familyId; f !in s.owners || Succeeds(cfg, s, op, f)
  {
    assert k !in s.table by {
      assert k in s.table ==> RowOk(s, k);
    }
    if op.Present? {
      var j := RotateEnds(cfg, s.table, op.raw, op.raw2, op.clk);
      assert op.raw in s.table ==> RowOk(s, op.raw);
    }
  }

  lemma SpentStays(cfg: Config, s: Service, op: Op, familyId: FamilyId)
    requires Inv(s) && Enabled(s, op) && Spent(s, familyId)
    ensures Spent(Step(cfg, s, op).0, familyId)
  {
    var s' := Step(cfg, s, op).0;
    StepKeeps(cfg, s, op);
    SpentNeverSucceeds(cfg, s, op, familyId);
    forall k | ActiveIn(s'.table, familyId, k) ensures s'.table[k].expiresAt < s'.now {
      if k in s.minted {
        assert RowFollows(s, s', k);
        assert ActiveIn(s.table, familyId, k);
      } else {
        NewTokensFamily(cfg, s, op, k);
      }
    }
  }

  lemma {:induction false} SpentForever(cfg: Config, s: Service, ops: seq<Op>, probe: Op, familyId: FamilyId)
    requires Inv(s) && Spent(s, familyId) && IsRun(cfg, s, ops)
    ensures !Succeeds(cfg, After(cfg, s, ops), probe, familyId)
    decreases |ops|
  {
    if ops == [] {
      SpentNeverSucceeds(cfg, s, probe, familyId);
    } else {
      StepKeeps(cfg, s, ops[0]);
      SpentStays(cfg, s, ops[0], familyId);
      SpentForever(cfg, Step(cfg, s, ops[0]).0, ops[1..], probe, familyId);
    }
  }

  /** All readings of one call at one instant. */
  function Instant(at: Time): Readings {
    Readings(at, at, at, at, at, at)
  }

  /** A family with an unexpired active row can be used at once. */
  lemma UsableNow(cfg: Config, s: Service, familyId: FamilyId, k: Token, next: Token)
    requires Inv(s) && ActiveIn(s.table, familyId, k) && s.table[k].expiresAt >= s.now && next !in s.minted
    ensures Succeeds(cfg, s, Present(k, next, Instant(s.now)), familyId) && CanBeUsed(cfg, s, familyId)
  {
    var probe := Present(k, next, Instant(s.now));
    PresentSucceedsIff(cfg, s, k, next, probe.clk);
    assert RowOk(s, k);
    assert Succeeds(cfg, s, probe, familyId);
    assert IsRun(cfg, s, []) && Succeeds(cfg, After(cfg, s, []), probe, familyId);
  }

  /** Revoking one token ends its family exactly when no other token of the family is active and
      unexpired at that time: then no token of the family is ever exchanged again, and otherwise one
      can be, with whatever fresh token the exchange draws. */
  lemma RevokeEndsFamilyIff(cfg: Config, s: Service, raw: Token, at: Time, next: Token)
    requires Inv(s) && Enabled(s, Revoke(raw, at)) && raw in s.table && next !in s.minted
    ensures var f := s.table[raw].familyId;
      CanBeUsed(cfg, Step(cfg, s, Revoke(raw, at)).0, f) <==>
      exists k :: k != raw && ActiveIn(s.table, f, k) && s.table[k].expiresAt >= at
    ensures Dead(Step(cfg, s, Revoke(raw, at)).0, s.table[raw].familyId) <==>
      forall k :: ActiveIn(s.table, s.table[raw].familyId, k) ==> k == raw
  {
    var s' := Step(cfg, s, Revoke(raw, at)).0;
    var f := s.table[raw].familyId;
    StepKeeps(cfg, s, Revoke(raw, at));
    assert RowOk(s, raw);
    assert forall k :: ActiveIn(s'.table, f, k) <==> ActiveIn(s.table, f, k) && k != raw;
    if k :| k != raw && ActiveIn(s.table, f, k) && s.table[k].expiresAt >= at {
      UsableNow(cfg, s', f, k, next);
    } else {
      assert Spent(s', f);
      forall ops, probe | IsRun(cfg, s', ops) ensures !Succeeds(cfg, After(cfg, s', ops), probe, f) {
        SpentForever(cfg, s', ops, probe, f);
      }
    }
  }

  /** A family without an active row is never used again. */
  lemma DeadIsOver(cfg: Config, s: Service, familyId: FamilyId)
    requires Inv(s) && familyId in s.owners && Dead(s, familyId)
    ensures !CanBeUsed(cfg, s, familyId)
  {
    assert Spent(s, familyId);
    forall ops, probe | IsRun(cfg, s, ops) ensures !Succeeds(cfg, After(cfg, s, ops), probe, familyId) {
      SpentForever(cfg, s, ops, probe, familyId);
    }
  }

  /** Revoking changes the presented token's row and no other. */
  lemma RevokeEffect(cfg: Config, s: Service, raw: Token, at: Time)
    requires Enabled(s, Revoke(raw, at))
    ensures var s' := Step(cfg, s, Revoke(raw, at)).0;
      && s'.table.Keys == s.table.Keys && s'.minted == s.minted && s'.owners == s.owners
      && forall k :: k in s.table ==>
           s'.table[k] == if k == raw then s.table[k].(status := REVOKED, revokedAt := Some(at)) else s.table[k]
  {
  }

  lemma Then(cfg: Config, s: Service, op: Op, ops: seq<Op>)
    requires Enabled(s, op) && IsRun(cfg, Step(cfg, s, op).0, ops)
    ensures IsRun(cfg, s, [op] + ops) && After(cfg, s, [op] + ops) == After(cfg, Step(cfg, s, op).0, ops)
  {
    assert ([op] + ops)[1..] == ops;
  }

  /** Revoking another token leaves an active one as it is. */
  lemma RevokeLeavesOthers(cfg: Config, s: Service, a: Token, b: Token, f: FamilyId)
    requires Inv(s) && a != b && ActiveIn(s.table, f, b)
    ensures var s' := Step(cfg, s, Revoke(a, s.now)).0;
      && Inv(s') && ActiveIn(s'.table, f, b) && s'.table[b] == s.table[b]
      && s'.minted == s.minted && s'.now == s.now
  {
    StepKeeps(cfg, s, Revoke(a, s.now));
  }

  /** Logged in, and the first token exchanged for the second. */
  lemma ExchangeOnce(cfg: Config, userId: string, t: TenantId, f: FamilyId, a: Token, b: Token) returns (s: Service)
    requires a != b
    ensures var login, refresh := Issue(userId, t, f, a, 0, 0), Present(a, b, Instant(0));
      && Enabled(EMPTY, login) && Enabled(Step(cfg, EMPTY, login).0, refresh)
      && s == Step(cfg, Step(cfg, EMPTY, login).0, refresh).0
    ensures Inv(s) && ActiveIn(s.table, f, b) && s.table[b].expiresAt >= s.now == 0 && s.minted == map[a := f, b := f]
    ensures s.table.Keys == {a, b} && s.table[a].familyId == s.table[b].familyId == f && f in s.owners
    ensures s.table[a].status == ROTATED && s.table[a].rotatedAt == Some(0)
    ensures s.table[a].expiresAt == s.table[b].expiresAt == cfg.refreshTtlMs
  {
    var login := Issue(userId, t, f, a, 0, 0);
    var s1 := Step(cfg, EMPTY, login).0;
    StepKeeps(cfg, EMPTY, login);
    PresentSucceedsIff(cfg, s1, a, b, Instant(0));
    SuccessHandsOver(cfg, s1, a, b, Instant(0));
    StepKeeps(cfg, s1, Present(a, b, Instant(0)));
    s := Step(cfg, s1, Present(a, b, Instant(0))).0;
    assert ActiveIn(s.table, f, b);
  }

  /** Logging out with a token that has been exchanged already leaves the session open: log in, exchange
      a for b, log out with a, and b is still exchanged for c. */
  lemma LogoutMissesSession(cfg: Config, userId: string, t: TenantId, f: FamilyId, a: Token, b: Token, c: Token)
    requires a != b && b != c && a != c
    ensures var ops := [Issue(userId, t, f, a, 0, 0), Present(a, b, Instant(0)), Revoke(a, 0)];
      && IsRun(cfg, EMPTY, ops)
      && ActiveIn(After(cfg, EMPTY, ops).table, f, b)
      && Succeeds(cfg, After(cfg, EMPTY, ops), Present(b, c, Instant(0)), f)
  {
    var login, refresh, logout := Issue(userId, t, f, a, 0, 0), Present(a, b, Instant(0)), Revoke(a, 0);
    var s2 := ExchangeOnce(cfg, userId, t, f, a, b);
    RevokeLeavesOthers(cfg, s2, a, b, f);
    UsableNow(cfg, Step(cfg, s2, logout).0, f, b, c);
    Then(cfg, s2, logout, []);
    Then(cfg, Step(cfg, EMPTY, login).0, refresh, [logout] + []);
    Then(cfg, EMPTY, login, [refresh] + ([logout] + []));
    assert [login] + ([refresh] + ([logout] + [])) == [login, refresh, logout];
  }

  /** The theft response: log in, exchange a for b, and somebody presents a again when the grace window is
      over. The answer is "reuse", both rows are revoked, and no token of the family is ever exchanged
      again. */
  lemma ReplayAfterGrace(cfg: Config, userId: string, t: TenantId, f: FamilyId, a: Token, b: Token, c: Token,
                         at: Time)
    requires a != b && b != c && a != c && 0 <= at && cfg.reuseGraceMs <= at <= cfg.refreshTtlMs
    ensures var ops := [Issue(userId, t, f, a, 0, 0), Present(a, b, Instant(0))];
      && IsRun(cfg, EMPTY, ops)
      && var s := After(cfg, EMPTY, ops);
      && Enabled(s, Present(a, c, Instant(at)))
      && var (s', r) := Step(cfg, s, Present(a, c, Instant(at)));
      && r.Reuse? && s'.table.Keys == {a, b}
      && s'.table[a].status == s'.table[b].status == REVOKED
      && s'.table[a].revokedAt == s'.table[b].revokedAt == Some(at)
      && !CanBeUsed(cfg, s', f)
  {
    var login, refresh := Issue(userId, t, f, a, 0, 0), Present(a, b, Instant(0));
    var s := ExchangeOnce(cfg, userId, t, f, a, b);
    Then(cfg, Step(cfg, EMPTY, login).0, refresh, []);
    Then(cfg, EMPTY, login, [refresh] + []);
    assert [login] + ([refresh] + []) == [login, refresh];
    ReplayedLate(cfg, s, f, a, b, c, at);
  }

  /** The exchanged token presented again at or after the end of the grace window. */
  lemma ReplayedLate(cfg: Config, s: Service, f: FamilyId, a: Token, b: Token, c: Token, at: Time)
    requires Inv(s) && s.minted == map[a := f, b := f] && s.table.Keys == {a, b} && f in s.owners && s.now <= at
    requires s.table[a].familyId == s.table[b].familyId == f
    requires s.table[a].status == ROTATED && s.table[a].rotatedAt == Some(0) && c !in s.minted
    requires s.table[a].expiresAt == s.table[b].expiresAt >= at >= cfg.reuseGraceMs
    ensures var (s', r) := Step(cfg, s, Present(a, c, Instant(at)));
      && r.Reuse? && s'.table.Keys == {a, b}
      && s'.table[a].status == s'.table[b].status == REVOKED
      && s'.table[a].revokedAt == s'.table[b].revokedAt == Some(at)
      && !CanBeUsed(cfg, s', f)
  {
    AnswerIff(cfg, s, a, c, Instant(at));
    RefusalEffect(cfg, s, a, c, Instant(at));
    StepKeeps(cfg, s, Present(a, c, Instant(at)));
    var s' := Step(cfg, s, Present(a, c, Instant(at))).0;
    assert forall k :: k in s'.table ==> s'.table[k].status == REVOKED;
    assert Dead(s', f);
    assert s'.owners == s.owners;
    DeadIsOver(cfg, s', f);
  }

  class RefreshTokenService {
    const cfg: Config
    var table: Table
    var now: Time
    /** What has ever been issued, including rows pruned since. */
    ghost var minted: map<Token, FamilyId>
    ghost var owners: map<FamilyId, Owner>

    ghost function Contents(): Service
      reads this
    {
      Service(table, minted, owners, now)
    }

    constructor (cfg: Config)
      ensures this.cfg == cfg && Contents() == EMPTY && Inv(Contents())
    {
      this.cfg, table, now := cfg, map[], 0;
      minted, owners := map[], map[];
    }

    method Now() returns (t: Time)
      modifies this`now
      ensures t == now >= old(now)
    {
      var elapsed: nat :| 0 <= elapsed;
      now := now + elapsed;
      return now;
    }

    /** `familyId` and `raw` are random. */
    method Issue(userId: string, tenantId: TenantId, familyId: FamilyId, raw: Token)
      returns (expiresAt: Time, ghost op: Op)
      requires Inv(Contents()) && raw !in minted && familyId !in owners
      modifies this
      ensures Inv(Contents()) && op.Issue? && op.raw == raw && op.userId == userId && op.tenantId == tenantId
      ensures op.familyId == familyId
      ensures Enabled(old(Contents()), op) && Contents() == Step(cfg, old(Contents()), op).0
      ensures expiresAt == op.expiry + cfg.refreshTtlMs
      ensures table ==
        old(table)[raw := Row(familyId, userId, tenantId, ACTIVE, expiresAt, op.created, None, None)]
    {
      var expiry := Now();
      expiresAt := expiry + cfg.refreshTtlMs;
      var created := Now();
      op := Op.Issue(userId, tenantId, familyId, raw, expiry, created);
      StepKeeps(cfg, Contents().(now := old(now)), op);
      table := table[raw := NewRow(cfg, familyId, userId, tenantId, expiry, created)];
      minted, owners := minted[raw := familyId], owners[familyId := Owner(userId, tenantId)];
    }

    method Rotate(raw: Token, raw2: Token) returns (result: RotateResult, ghost op: Op)
      requires Inv(Contents()) && raw2 !in minted
      modifies this
      ensures Inv(Contents()) && op.Present? && op.raw == raw && op.raw2 == raw2
      ensures Enabled(old(Contents()), op) && (Contents(), result) == Step(cfg, old(Contents()), op)
    {
      ghost var s0 := Contents();
      var prune := Prune();
      assert forall f, j | ActiveIn(table, f, j) :: ActiveIn(s0.table, f, j);
      ghost var clk;
      result, clk := RotatePrunedTable(raw, raw2, prune);
      op := Present(raw, raw2, clk);
      PresentKeeps(cfg, s0, raw, raw2, clk);
    }

    method RotatePrunedTable(raw: Token, raw2: Token, ghost prune: Time)
      returns (result: RotateResult, ghost clk: Readings)
      requires prune == now && raw2 !in table
      requires forall f, j, k | ActiveIn(table, f, j) && ActiveIn(table, f, k) :: j == k
      modifies this`table, this`now, this`minted
      ensures clk.prune == prune && clk.created == now && Forward(prune, clk)
      ensures (table, result) == RotatePruned(cfg, old(table), raw, raw2, clk)
      ensures minted ==
        if result.Rotated? && raw2 in table then old(minted)[raw2 := table[raw2].familyId] else old(minted)
    {
      if raw !in table {
        return Invalid, Readings(prune, prune, prune, prune, prune, prune);
      }
      var row := table[raw];
      var check := Now();
      if row.status != ACTIVE {
        ghost var find := check;
        if Graced(cfg, row, check) {
          var at := Now();
          find := at;
          var active := FindActive(row.familyId, at);
          if active.Some? {
            assert FoundFirst(table, row.familyId, at, active.value);
            result, clk := RotateActive(active.value, raw2, prune, check, at);
            return;
          }
        }
        var stamp := Now();
        table := RevokedFamily(table, row.familyId, stamp);
        return Reuse, Readings(prune, check, find, stamp, stamp, stamp);
      }
      if row.expiresAt < check {
        return Invalid, Readings(prune, check, check, check, check, check);
      }
      result, clk := RotateActive(raw, raw2, prune, check, check);
    }

    method FindActive(familyId: FamilyId, at: Time) returns (active: Option<Token>)
      requires forall f, j, k | ActiveIn(table, f, j) && ActiveIn(table, f, k) :: j == k
      ensures active == FindFirst(table, familyId, at)
    {
      if k :| k in table && FoundFirst(table, familyId, at, k) {
        return Some(k);
      }
      return None;
    }

    /** Mark the row rotated and mint its active successor in the same family. */
    method RotateActive(k: Token, raw2: Token, ghost prune: Time, ghost check: Time, ghost find: Time)
      returns (result: RotateResult, ghost clk: Readings)
      requires k in table && prune <= check <= find <= now
      modifies this`table, this`now, this`minted
      ensures clk.prune == prune && clk.check == check && clk.find == find && clk.created == now && Forward(prune, clk)
      ensures (table, result) == RotateRow(cfg, old(table), k, raw2, clk)
      ensures minted == old(minted)[raw2 := old(table)[k].familyId]
    {
      var row := table[k];
      var expiry := Now();
      var stamp := Now();
      var created := Now();
      var successor := NewRow(cfg, row.familyId, row.userId, row.tenantId, expiry, created);
      table := table[k := row.(status := ROTATED, rotatedAt := Some(stamp))][raw2 := successor];
      minted := minted[raw2 := row.familyId];
      clk := Readings(prune, check, find, expiry, stamp, created);
      return Rotated(raw2, successor.expiresAt, row.userId), clk;
    }

    method Revoke(raw: Token) returns (ghost op: Op)
      requires Inv(Contents())
      modifies this`table, this`now
      ensures Inv(Contents()) && op.Revoke? && op.raw == raw
      ensures Enabled(old(Contents()), op) && Contents() == Step(cfg, old(Contents()), op).0
    {
      var at := Now();
      op := Op.Revoke(raw, at);
      StepKeeps(cfg, Contents().(now := old(now)), op);
      if raw in table {
        table := table[raw := table[raw].(status := REVOKED, revokedAt := Some(at))];
      }
    }

    method Prune() returns (at: Time)
      modifies this`table, this`now
      ensures at == now >= old(now) && table == Pruned(old(table), at)
    {
      at := Now();
      table := map k | k in table && table[k].expiresAt >= at :: table[k];
    }
  }
}
