/**
 Refresh-token rotation: the token table, its SQL statements, and any number of
 `rotate` calls interleaved statement by statement.

 A row's id is its position in the table. Token hashes are opaque and injective,
 so a call is identified by the hash it presents.
 */
module Sessions {
  import opened Common

  type Hash = nat
  type FamilyId = nat

  datatype Reason = NoReason | ReuseDetected | Logout | PasswordChanged

  datatype Row = Row(
    tokenHash: Hash, familyId: FamilyId, userId: nat, expiresAt: int,
    rotatedAt: Option<int>, replacedById: Option<nat>,
    revokedAt: Option<int>, revokedReason: Reason)
  {
    predicate Live() { rotatedAt.None? && revokedAt.None? }
  }

  type Table = seq<Row>

  function NewRow(h: Hash, f: FamilyId, user: nat, expiresAt: int): Row {
    Row(h, f, user, expiresAt, None, None, None, NoReason)
  }

  // ---------------------------------------------------------------- statements

  /** `findOne({ tokenHash })`. */
  function FindByHash(rows: Table, h: Hash): (r: Option<nat>)
    ensures r.Some? ==> r.value < |rows| && rows[r.value].tokenHash == h
    ensures r.None? ==> forall i :: 0 <= i < |rows| ==> rows[i].tokenHash != h
  {
    if rows == [] then None
    else if rows[|rows| - 1].tokenHash == h then Some(|rows| - 1)
    else FindByHash(rows[..|rows| - 1], h)
  }

  /** Whether the conditional claim would affect a row. */
  predicate Claimable(rows: Table, h: Hash) {
    var r := FindByHash(rows, h);
    r.Some? && rows[r.value].Live()
  }

  /** The conditional write that claims a token. */
  function ClaimRow(rows: Table, h: Hash, now: int): Table {
    if Claimable(rows, h) then
      var i := FindByHash(rows, h).value;
      rows[i := rows[i].(rotatedAt := Some(now))]
    else rows
  }

  function LinkRow(rows: Table, id: nat, next: nat): Table {
    if id < |rows| then rows[id := rows[id].(replacedById := Some(next))] else rows
  }

  predicate ReuseRecorded(rows: Table, f: FamilyId) {
    exists i :: 0 <= i < |rows| && rows[i].familyId == f && rows[i].revokedReason == ReuseDetected
  }

  /** `update({ family, revokedAt: IsNull() }, …)`: every row of the families that is not revoked yet. */
  function Sweep(rows: Table, families: set<FamilyId>, reason: Reason, now: int): (r: Table)
    ensures |r| == |rows|
  {
    seq(|rows|, i requires 0 <= i < |rows| =>
      if rows[i].familyId in families && rows[i].revokedAt.None?
      then rows[i].(revokedAt := Some(now), revokedReason := reason) else rows[i])
  }

  // ---------------------------------------------------------------- the protocol

  datatype Failure = NotFound | Expired | Revoked | Reused

  datatype Outcome = Failed(failure: Failure) | Refreshed(token: Hash)

  /** The statement a call executes next. */
  datatype Stage =
    | Reading | Claiming | SweepingAsLoser
    | Inserting | Linking | Rechecking | SweepingAsWinner
    | Finished(outcome: Outcome)

  /** One `rotate` call and its local variables. */
  datatype Call = Call(
    tokenHash: Hash, stage: Stage,
    current: Option<nat>, claimed: bool, replacement: Option<nat>)

  datatype State = State(rows: Table, calls: seq<Call>)

  datatype Action =
    | Issue(hash: Hash, familyId: FamilyId, userId: nat, expiresAt: int)
    | Begin(hash: Hash)
    | Run(call: nat, now: int, freshHash: Hash, freshExpiry: int)
    | OutsideSweep(families: set<FamilyId>, reason: Reason, now: int)

  const EMPTY := State([], [])

  predicate Unused(rows: Table, h: Hash) { forall i :: 0 <= i < |rows| ==> rows[i].tokenHash != h }

  predicate UnusedFamily(rows: Table, f: FamilyId) { forall i :: 0 <= i < |rows| ==> rows[i].familyId != f }

  /** Minted tokens and families are fresh; a finished call takes no further step. */
  predicate Enabled(s: State, a: Action) {
    match a
    case Issue(h, f, _, _) => Unused(s.rows, h) && UnusedFamily(s.rows, f)
    case Begin(_) => true
    case Run(c, _, h, _) => c < |s.calls| && !s.calls[c].stage.Finished? && Unused(s.rows, h)
    case OutsideSweep(_, _, _) => true
  }

  function Apply(s: State, a: Action): State
    requires Enabled(s, a)
  {
    match a
    case Issue(h, f, u, e) => State(s.rows + [NewRow(h, f, u, e)], s.calls)
    case Begin(h) => State(s.rows, s.calls + [Call(h, Reading, None, false, None)])
    case Run(c, now, h, e) =>
      var (rows, call) := Statement(s.rows, s.calls[c], now, h, e);
      State(rows, s.calls[c := call])
    case OutsideSweep(families, reason, now) => State(Sweep(s.rows, families, reason, now), s.calls)
  }

  /** The next statement of one call: its effect on the table and on the call. */
  function Statement(rows: Table, call: Call, now: int, minted: Hash, expiry: int): (Table, Call) {
    match call.stage
    case Reading =>
      var found := FindByHash(rows, call.tokenHash);
      if found.None? then (rows, call.(stage := Finished(Failed(NotFound))))
      else
        var row := rows[found.value];
        var read := call.(current := found);
        if row.revokedAt.Some? then (rows, read.(stage := Finished(Failed(Revoked))))
        else if row.expiresAt <= now then (rows, read.(stage := Finished(Failed(Expired))))
        else (rows, read.(stage := Claiming))
    case Claiming =>
      if Claimable(rows, call.tokenHash)
      then (ClaimRow(rows, call.tokenHash, now), call.(stage := Inserting, claimed := true))
      else (rows, call.(stage := SweepingAsLoser))
    case Inserting =>
      if call.current.Some? && call.current.value < |rows| then
        var row := rows[call.current.value];
        (rows + [NewRow(minted, row.familyId, row.userId, expiry)],
         call.(stage := Linking, replacement := Some(|rows|)))
      else (rows, call)
    case Linking =>
      if call.current.Some? && call.replacement.Some?
      then (LinkRow(rows, call.current.value, call.replacement.value), call.(stage := Rechecking))
      else (rows, call)
    case Rechecking =>
      if call.current.Some? && call.current.value < |rows|
         && call.replacement.Some? && call.replacement.value < |rows| then
        if ReuseRecorded(rows, rows[call.current.value].familyId)
        then (rows, call.(stage := SweepingAsWinner))
        else (rows, call.(stage := Finished(Refreshed(rows[call.replacement.value].tokenHash))))
      else (rows, call)
    case SweepingAsLoser => SweepAndFail(rows, call, now)
    case SweepingAsWinner => SweepAndFail(rows, call, now)
    case Finished(_) => (rows, call)
  }

  function SweepAndFail(rows: Table, call: Call, now: int): (Table, Call) {
    if call.current.Some? && call.current.value < |rows|
    then (Sweep(rows, {rows[call.current.value].familyId}, ReuseDetected, now),
          call.(stage := Finished(Failed(Reused))))
    else (rows, call)
  }

  ghost predicate Legal(s: State, actions: seq<Action>)
    decreases |actions|
  {
    actions == [] || (Enabled(s, actions[0]) && Legal(Apply(s, actions[0]), actions[1..]))
  }

  ghost function Exec(s: State, actions: seq<Action>): State
    requires Legal(s, actions)
    decreases |actions|
  {
    if actions == [] then s else Exec(Apply(s, actions[0]), actions[1..])
  }

  /** No logout or password sweep of this family takes part in the run. */
  ghost predicate Undisturbed(actions: seq<Action>, f: FamilyId) {
    forall a :: a in actions && a.OutsideSweep? ==> f !in a.families
  }

  // ---------------------------------------------------------------- structure

  ghost predicate On(s: State, c: nat, i: nat) { c < |s.calls| && s.calls[c].current == Some(i) }

  ghost predicate ClaimedBy(s: State, i: nat, c: nat) { On(s, c, i) && s.calls[c].claimed }

  /** `k` is the next row of `i`'s family in insertion order. */
  ghost predicate Successor(rows: Table, i: nat, k: nat) {
    i < k < |rows| && rows[i].familyId == rows[k].familyId
    && forall j :: i < j < k ==> rows[j].familyId != rows[i].familyId
  }

  ghost predicate Newest(rows: Table, i: nat) {
    i < |rows| && forall j :: i < j < |rows| ==> rows[j].familyId != rows[i].familyId
  }

  ghost predicate HashesUnique(rows: Table) {
    forall i, j :: 0 <= i < j < |rows| ==> rows[i].tokenHash != rows[j].tokenHash
  }

  ghost predicate CallOk(rows: Table, c: Call) {
    && (c.current.Some? ==> c.current.value < |rows| && rows[c.current.value].tokenHash == c.tokenHash)
    && (c.stage.Reading? ==> c.current.None? && !c.claimed)
    && (c.stage.Claiming? || c.stage.SweepingAsLoser? ==> c.current.Some? && !c.claimed)
    && (c.stage.Inserting? ==> c.claimed && c.replacement.None?)
    && (c.stage.Linking? || c.stage.Rechecking? || c.stage.SweepingAsWinner?
        ==> c.claimed && c.replacement.Some?)
    && (c.replacement.Some? ==> c.claimed)
    && (c.claimed ==>
        && c.current.Some? && rows[c.current.value].rotatedAt.Some?
        && (c.stage.Inserting? <==> c.replacement.None?)
        && (if c.replacement.Some? then Successor(rows, c.current.value, c.replacement.value)
            else Newest(rows, c.current.value)))
    && (c.stage.Finished? && c.stage.outcome == Failed(Reused) ==> c.current.Some?)
    && (c.stage.Finished? && c.stage.outcome.Refreshed? ==>
        c.claimed && c.stage.outcome.token == rows[c.replacement.value].tokenHash)
  }

  /** A row is linked exactly when the call that claimed it has executed its link. */
  ghost predicate LinkOk(s: State, c: nat)
    requires c < |s.calls| && CallOk(s.rows, s.calls[c])
  {
    var call := s.calls[c];
    call.claimed ==>
      s.rows[call.current.value].replacedById ==
        (if call.stage.Inserting? || call.stage.Linking? then None else call.replacement)
  }

  ghost predicate Structure(s: State) {
    && HashesUnique(s.rows)
    && (forall c :: 0 <= c < |s.calls| ==> CallOk(s.rows, s.calls[c]) && LinkOk(s, c))
    && (forall i, c, d :: ClaimedBy(s, i, c) && ClaimedBy(s, i, d) ==> c == d)
    && (forall i :: 0 <= i < |s.rows| && s.rows[i].rotatedAt.Some? ==> exists c: nat :: ClaimedBy(s, i, c))
    && (forall i :: 0 <= i < |s.rows| && s.rows[i].rotatedAt.None? ==>
        Newest(s.rows, i) && s.rows[i].replacedById.None?)
  }

  /** What every statement keeps of a table: ids, hashes, families and spent marks. */
  ghost predicate Extends(was: Table, now: Table) {
    && |was| <= |now|
    && forall i :: 0 <= i < |was| ==>
         && now[i].tokenHash == was[i].tokenHash && now[i].familyId == was[i].familyId
         && (was[i].rotatedAt.Some? ==> now[i].rotatedAt == was[i].rotatedAt)
         && (was[i].revokedAt.Some? ==>
             now[i].revokedAt == was[i].revokedAt && now[i].revokedReason == was[i].revokedReason)
  }

  lemma FindUnique(rows: Table, i: nat)
    requires HashesUnique(rows) && i < |rows|
    ensures FindByHash(rows, rows[i].tokenHash) == Some(i)
  {
  }

  lemma {:induction false} StructureKept(s: State, a: Action)
    requires Structure(s) && Enabled(s, a)
    ensures Structure(Apply(s, a)) && Extends(s.rows, Apply(s, a).rows)
  {
    match a
    case Issue(h, f, u, e) =>
      IssueKept(s, a);
    case Begin(h) =>
      BeginKept(s, a);
    case OutsideSweep(families, reason, now) =>
      SweepKept(s, families, reason, now);
    case Run(c, now, h, e) =>
      match s.calls[c].stage
      case Reading => ReadKept(s, a);
      case Claiming => ClaimKept(s, a);
      case Inserting => InsertKept(s, a);
      case Linking => LinkKept(s, a);
      case Rechecking => RecheckKept(s, a);
      case SweepingAsLoser => SweepStageKept(s, a);
      case SweepingAsWinner => SweepStageKept(s, a);
  }

  /** Rewriting rows in place keeps the order of every family. */
  lemma ShapeKept(rows: Table, rows': Table)
    requires |rows| == |rows'| && Extends(rows, rows')
    ensures forall i, k :: Successor(rows, i, k) ==> Successor(rows', i, k)
    ensures forall i :: Newest(rows, i) ==> Newest(rows', i)
    ensures HashesUnique(rows) ==> HashesUnique(rows')
  {
  }

  lemma AppendShape(rows: Table, row: Row)
    ensures forall i, k :: Successor(rows, i, k) ==> Successor(rows + [row], i, k)
    ensures forall i: nat :: Newest(rows, i) && rows[i].familyId != row.familyId ==> Newest(rows + [row], i)
    ensures forall i: nat :: Newest(rows, i) && rows[i].familyId == row.familyId ==> Successor(rows + [row], i, |rows|)
  {
  }

  lemma {:induction false} IssueKept(s: State, a: Action)
    requires Structure(s) && Enabled(s, a) && a.Issue?
    ensures Structure(Apply(s, a)) && Extends(s.rows, Apply(s, a).rows)
  {
    var s' := Apply(s, a);
    AppendShape(s.rows, NewRow(a.hash, a.familyId, a.userId, a.expiresAt));
    forall i | 0 <= i < |s'.rows| && s'.rows[i].rotatedAt.Some? ensures exists c: nat :: ClaimedBy(s', i, c) {
      var c: nat :| ClaimedBy(s, i, c);
      assert ClaimedBy(s', i, c);
    }
    forall i, c, d | ClaimedBy(s', i, c) && ClaimedBy(s', i, d) ensures c == d {
      assert ClaimedBy(s, i, c) && ClaimedBy(s, i, d);
    }
  }

  lemma {:induction false} BeginKept(s: State, a: Action)
    requires Structure(s) && Enabled(s, a) && a.Begin?
    ensures Structure(Apply(s, a)) && Extends(s.rows, Apply(s, a).rows)
  {
    var s' := Apply(s, a);
    forall i | 0 <= i < |s'.rows| && s'.rows[i].rotatedAt.Some? ensures exists c: nat :: ClaimedBy(s', i, c) {
      var c: nat :| ClaimedBy(s, i, c);
      assert ClaimedBy(s', i, c);
    }
    forall i, c, d | ClaimedBy(s', i, c) && ClaimedBy(s', i, d) ensures c == d {
      assert ClaimedBy(s, i, c) && ClaimedBy(s, i, d);
    }
    forall c | 0 <= c < |s'.calls| ensures CallOk(s'.rows, s'.calls[c]) && LinkOk(s', c) {
      if c < |s.calls| { assert LinkOk(s, c); }
    }
  }

  lemma {:induction false} SweepKept(s: State, families: set<FamilyId>, reason: Reason, now: int)
    requires Structure(s)
    ensures var s' := State(Sweep(s.rows, families, reason, now), s.calls);
      Structure(s') && Extends(s.rows, s'.rows)
  {
    var s' := State(Sweep(s.rows, families, reason, now), s.calls);
    ShapeKept(s.rows, s'.rows);
    forall i | 0 <= i < |s'.rows| && s'.rows[i].rotatedAt.Some? ensures exists c: nat :: ClaimedBy(s', i, c) {
      var c: nat :| ClaimedBy(s, i, c);
      assert ClaimedBy(s', i, c);
    }
    forall i, c, d | ClaimedBy(s', i, c) && ClaimedBy(s', i, d) ensures c == d {
      assert ClaimedBy(s, i, c) && ClaimedBy(s, i, d);
    }
    forall c | 0 <= c < |s'.calls| ensures CallOk(s'.rows, s'.calls[c]) && LinkOk(s', c) {
      assert CallOk(s.rows, s.calls[c]) && LinkOk(s, c);
    }
  }

  /** A step of call `c` that only moves it on, with the table unchanged. */
  lemma {:induction false} MoveKept(s: State, c: nat, call: Call)
    requires Structure(s) && c < |s.calls|
    requires var was := s.calls[c];
      && call.claimed == was.claimed && call.replacement == was.replacement
      && (was.claimed ==> call.current == was.current)
      && ((call.stage.Inserting? || call.stage.Linking?) <==> (was.stage.Inserting? || was.stage.Linking?))
    requires CallOk(s.rows, call)
    ensures Structure(s.(calls := s.calls[c := call]))
  {
    var s' := s.(calls := s.calls[c := call]);
    forall i, d | ClaimedBy(s', i, d) ensures ClaimedBy(s, i, d) { }
    forall i | 0 <= i < |s'.rows| && s'.rows[i].rotatedAt.Some? ensures exists d: nat :: ClaimedBy(s', i, d) {
      var d: nat :| ClaimedBy(s, i, d);
      assert ClaimedBy(s', i, d);
    }
    forall d | 0 <= d < |s'.calls| ensures CallOk(s'.rows, s'.calls[d]) && LinkOk(s', d) {
      assert CallOk(s.rows, s.calls[d]) && LinkOk(s, d);
    }
  }

  lemma {:induction false} ReadKept(s: State, a: Action)
    requires Structure(s) && Enabled(s, a) && a.Run? && s.calls[a.call].stage.Reading?
    ensures Structure(Apply(s, a)) && Extends(s.rows, Apply(s, a).rows)
  {
    var c, call := a.call, Apply(s, a).calls[a.call];
    assert CallOk(s.rows, s.calls[c]);
    assert CallOk(s.rows, call) && Apply(s, a) == State(s.rows, s.calls[c := call]);
    hide Statement, Apply;
    MoveKept(s, c, call);
  }

  lemma {:induction false} RecheckKept(s: State, a: Action)
    requires Structure(s) && Enabled(s, a) && a.Run? && s.calls[a.call].stage.Rechecking?
    ensures Structure(Apply(s, a)) && Extends(s.rows, Apply(s, a).rows)
  {
    assert CallOk(s.rows, s.calls[a.call]);
    MoveKept(s, a.call, Apply(s, a).calls[a.call]);
  }

  lemma {:induction false} SweepStageKept(s: State, a: Action)
    requires Structure(s) && Enabled(s, a) && a.Run?
    requires s.calls[a.call].stage.SweepingAsLoser? || s.calls[a.call].stage.SweepingAsWinner?
    ensures Structure(Apply(s, a)) && Extends(s.rows, Apply(s, a).rows)
  {
    var call := s.calls[a.call];
    assert CallOk(s.rows, call);
    SweepKept(s, {s.rows[call.current.value].familyId}, ReuseDetected, a.now);
    MoveKept(State(Apply(s, a).rows, s.calls), a.call, Apply(s, a).calls[a.call]);
  }

  lemma LiveUnclaimed(s: State, i: nat)
    requires Structure(s) && i < |s.rows| && s.rows[i].Live()
    ensures forall d: nat :: !ClaimedBy(s, i, d)
  {
    forall d: nat ensures !ClaimedBy(s, i, d) {
      if d < |s.calls| { assert CallOk(s.rows, s.calls[d]); }
    }
  }

  /** The claim spends row `i`, which no call had claimed, for call `c`. */
  lemma {:induction false} SpendKept(s: State, s': State, c: nat, i: nat)
    requires Structure(s) && c < |s.calls| && i < |s.rows| && s.rows[i].Live()
    requires s.calls[c].stage.Claiming? && s.calls[c].current == Some(i)
    requires s'.calls == s.calls[c := s.calls[c].(stage := Inserting, claimed := true)]
    requires |s'.rows| == |s.rows| && s'.rows[i].rotatedAt.Some?
      && s'.rows[i] == s.rows[i].(rotatedAt := s'.rows[i].rotatedAt)
    requires forall j :: 0 <= j < |s.rows| && j != i ==> s'.rows[j] == s.rows[j]
    ensures Structure(s') && Extends(s.rows, s'.rows)
  {
    assert CallOk(s.rows, s.calls[c]) && Newest(s.rows, i);
    ShapeKept(s.rows, s'.rows);
    LiveUnclaimed(s, i);
    forall j, d | ClaimedBy(s', j, d) ensures if d == c then j == i else ClaimedBy(s, j, d) { }
    forall j | 0 <= j < |s'.rows| && s'.rows[j].rotatedAt.Some? ensures exists d: nat :: ClaimedBy(s', j, d) {
      if j == i {
        assert ClaimedBy(s', i, c);
      } else {
        var d: nat :| ClaimedBy(s, j, d);
        assert ClaimedBy(s', j, d);
      }
    }
    forall d | 0 <= d < |s'.calls| ensures CallOk(s'.rows, s'.calls[d]) && LinkOk(s', d) {
      assert CallOk(s.rows, s.calls[d]) && LinkOk(s, d);
    }
  }

  lemma {:induction false} ClaimKept(s: State, a: Action)
    requires Structure(s) && Enabled(s, a) && a.Run? && s.calls[a.call].stage.Claiming?
    ensures Structure(Apply(s, a)) && Extends(s.rows, Apply(s, a).rows)
  {
    var c, s' := a.call, Apply(s, a);
    assert CallOk(s.rows, s.calls[c]);
    var i := s.calls[c].current.value;
    FindUnique(s.rows, i);
    hide Structure, FindByHash, Extends;
    if s.rows[i].Live() {
      SpendKept(s, s', c, i);
    } else {
      MoveKept(s, c, s'.calls[c]);
      SameRows(s.rows);
    }
  }

  lemma SameRows(rows: Table)
    ensures Extends(rows, rows)
  {
  }

  lemma {:induction false} InsertKept(s: State, a: Action)
    requires Structure(s) && Enabled(s, a) && a.Run? && s.calls[a.call].stage.Inserting?
    ensures Structure(Apply(s, a)) && Extends(s.rows, Apply(s, a).rows)
  {
    var c, s' := a.call, Apply(s, a);
    assert CallOk(s.rows, s.calls[c]) && LinkOk(s, c);
    var i := s.calls[c].current.value;
    AppendShape(s.rows, s'.rows[|s.rows|]);
    assert ClaimedBy(s, i, c);
    // Every other row of the family is older than the claimed one, hence spent by another call.
    forall j | 0 <= j < |s.rows| && Newest(s.rows, j) && s.rows[j].familyId == s.rows[i].familyId
      ensures j == i { }
    forall j, d | ClaimedBy(s', j, d) ensures ClaimedBy(s, j, d) { }
    forall j | 0 <= j < |s'.rows| && s'.rows[j].rotatedAt.Some? ensures exists d: nat :: ClaimedBy(s', j, d) {
      var d: nat :| ClaimedBy(s, j, d);
      assert ClaimedBy(s', j, d);
    }
    forall d | 0 <= d < |s'.calls| ensures CallOk(s'.rows, s'.calls[d]) && LinkOk(s', d) {
      assert CallOk(s.rows, s.calls[d]) && LinkOk(s, d);
      if d != c && s.calls[d].claimed && s.calls[d].replacement.None? {
        assert ClaimedBy(s, s.calls[d].current.value, d);
      }
    }
  }

  lemma {:induction false} LinkKept(s: State, a: Action)
    requires Structure(s) && Enabled(s, a) && a.Run? && s.calls[a.call].stage.Linking?
    ensures Structure(Apply(s, a)) && Extends(s.rows, Apply(s, a).rows)
  {
    var c, s' := a.call, Apply(s, a);
    assert CallOk(s.rows, s.calls[c]);
    var i := s.calls[c].current.value;
    ShapeKept(s.rows, s'.rows);
    assert ClaimedBy(s, i, c);
    forall j, d | ClaimedBy(s', j, d) ensures ClaimedBy(s, j, d) { }
    forall j | 0 <= j < |s'.rows| && s'.rows[j].rotatedAt.Some? ensures exists d: nat :: ClaimedBy(s', j, d) {
      var d: nat :| ClaimedBy(s, j, d);
      assert ClaimedBy(s', j, d);
    }
    forall d | 0 <= d < |s'.calls| ensures CallOk(s'.rows, s'.calls[d]) && LinkOk(s', d) {
      assert CallOk(s.rows, s.calls[d]) && LinkOk(s, d);
      if d != c && s.calls[d].claimed {
        assert ClaimedBy(s, s.calls[d].current.value, d);
      }
    }
  }

  /** Every reachable state is well structured, whatever else sweeps the table. */
  lemma {:induction false} StructureReached(s: State, actions: seq<Action>)
    requires Structure(s) && Legal(s, actions)
    ensures Structure(Exec(s, actions))
    decreases |actions|
  {
    if actions != [] {
      StructureKept(s, actions[0]);
      StructureReached(Apply(s, actions[0]), actions[1..]);
    }
  }

  // ---------------------------------------------------------------- single use

  ghost function LiveRows(s: State, f: FamilyId): set<nat> {
    set i: nat | i < |s.rows| && s.rows[i].familyId == f && s.rows[i].Live()
  }

  /** Calls that have claimed a token of the family and not inserted its replacement yet. */
  ghost function InFlight(s: State, f: FamilyId): set<nat> {
    set c: nat | c < |s.calls| && s.calls[c].stage.Inserting?
                 && s.calls[c].current.Some? && s.calls[c].current.value < |s.rows|
                 && s.rows[s.calls[c].current.value].familyId == f
  }

  lemma AtMostOne(a: set<nat>)
    requires forall x, y :: x in a && y in a ==> x == y
    ensures |a| <= 1
  {
    if x :| x in a {
      assert a == {x};
    }
  }

  /** At most one token of a family is spendable or about to exist. */
  lemma SingleUse(actions: seq<Action>, f: FamilyId)
    requires Legal(EMPTY, actions)
    ensures var s := Exec(EMPTY, actions); |LiveRows(s, f)| + |InFlight(s, f)| <= 1
  {
    StructureReached(EMPTY, actions);
    var s := Exec(EMPTY, actions);
    var live, flying := LiveRows(s, f), InFlight(s, f);
    forall c, d | c in flying && d in flying ensures c == d {
      assert CallOk(s.rows, s.calls[c]) && CallOk(s.rows, s.calls[d]);
      assert Newest(s.rows, s.calls[c].current.value) && Newest(s.rows, s.calls[d].current.value);
      assert ClaimedBy(s, s.calls[c].current.value, c) && ClaimedBy(s, s.calls[c].current.value, d);
    }
    AtMostOne(live);
    AtMostOne(flying);
    forall i, c | c in flying ensures i !in live {
      assert CallOk(s.rows, s.calls[c]);
      assert i in live ==> Newest(s.rows, i);
    }
    assert live == {} || flying == {};
  }

  /** No token is ever exchanged twice, and no two calls are handed the same replacement. */
  lemma ExchangedOnce(actions: seq<Action>, c: nat, d: nat)
    requires Legal(EMPTY, actions)
    requires var s := Exec(EMPTY, actions);
      && c < |s.calls| && d < |s.calls| && c != d
      && s.calls[c].stage.Finished? && s.calls[c].stage.outcome.Refreshed?
      && s.calls[d].stage.Finished? && s.calls[d].stage.outcome.Refreshed?
    ensures var s := Exec(EMPTY, actions);
      && s.calls[c].tokenHash != s.calls[d].tokenHash
      && s.calls[c].stage.outcome.token != s.calls[d].stage.outcome.token
      && s.calls[c].stage.outcome.token != s.calls[c].tokenHash
  {
    StructureReached(EMPTY, actions);
    var s := Exec(EMPTY, actions);
    assert CallOk(s.rows, s.calls[c]) && CallOk(s.rows, s.calls[d]);
    var i, j := s.calls[c].current.value, s.calls[d].current.value;
    assert ClaimedBy(s, i, c) && ClaimedBy(s, j, d);
    assert i != j;
    assert Successor(s.rows, i, s.calls[c].replacement.value) && Successor(s.rows, j, s.calls[d].replacement.value);
  }

  ghost predicate Quiescent(s: State, f: FamilyId) {
    forall c | 0 <= c < |s.calls| && s.calls[c].current.Some? && s.calls[c].current.value < |s.rows| ::
      s.rows[s.calls[c].current.value].familyId == f ==> s.calls[c].stage.Finished?
  }

  /**
   `replacedById` only ever points to the next row of the same family, so the links
   are acyclic and unbranched; once the family's calls have finished they are the
   whole chain.
   */
  lemma LinksFormTheChain(actions: seq<Action>, i: nat, k: nat)
    requires Legal(EMPTY, actions) && i < |Exec(EMPTY, actions).rows|
    ensures var s := Exec(EMPTY, actions);
      && (s.rows[i].replacedById == Some(k) ==> Successor(s.rows, i, k))
      && (Quiescent(s, s.rows[i].familyId) ==>
          (s.rows[i].replacedById == Some(k) <==> Successor(s.rows, i, k)))
  {
    StructureReached(EMPTY, actions);
    var s := Exec(EMPTY, actions);
    if s.rows[i].rotatedAt.Some? {
      var c: nat :| ClaimedBy(s, i, c);
      assert CallOk(s.rows, s.calls[c]) && LinkOk(s, c);
    } else {
      assert Newest(s.rows, i);
    }
  }

  // ---------------------------------------------------------------- reuse detection

  ghost predicate Tainted(rows: Table, f: FamilyId) {
    exists i :: 0 <= i < |rows| && rows[i].familyId == f && rows[i].revokedAt.Some?
  }

  /** Call `c` inserted row `r` and has not finished. */
  ghost predicate Carries(s: State, c: nat, r: nat) {
    c < |s.calls| && s.calls[c].replacement == Some(r) && !s.calls[c].stage.Finished?
  }

  ghost predicate EndedReused(s: State, c: nat, f: FamilyId) {
    && c < |s.calls| && s.calls[c].stage == Finished(Failed(Reused))
    && s.calls[c].current.Some? && s.calls[c].current.value < |s.rows|
    && s.rows[s.calls[c].current.value].familyId == f
  }

  ghost predicate SomeEndedReused(s: State, f: FamilyId) { exists c: nat :: EndedReused(s, c, f) }

  /** In a tainted family, the only unrevoked rows are still in the hands of unfinished calls. */
  ghost predicate TaintContained(s: State, f: FamilyId) {
    && (forall i :: 0 <= i < |s.rows| && s.rows[i].familyId == f ==>
         (s.rows[i].revokedAt.Some? <==> s.rows[i].revokedReason == ReuseDetected))
    && (forall r :: 0 <= r < |s.rows| && s.rows[r].familyId == f && s.rows[r].revokedAt.None? && Tainted(s.rows, f) ==>
        exists c: nat :: Carries(s, c, r))
    && (Tainted(s.rows, f) <==> SomeEndedReused(s, f))
  }

  /** The step sweeps family `f`. */
  predicate SweepsFamily(s: State, a: Action, f: FamilyId)
    requires Enabled(s, a)
  {
    (a.OutsideSweep? && f in a.families) ||
    (a.Run? && (s.calls[a.call].stage.SweepingAsLoser? || s.calls[a.call].stage.SweepingAsWinner?)
     && s.calls[a.call].current.Some? && s.calls[a.call].current.value < |s.rows|
     && s.rows[s.calls[a.call].current.value].familyId == f)
  }

  /** Rows of the family keep their revocation, and rows added since have none. */
  ghost predicate RevocationsKept(rows: Table, rows': Table, f: FamilyId) {
    && |rows| <= |rows'|
    && (forall i :: 0 <= i < |rows| && rows[i].familyId == f ==>
         rows'[i].revokedAt == rows[i].revokedAt && rows'[i].revokedReason == rows[i].revokedReason)
    && (forall i :: 0 <= i < |rows| ==> rows'[i].familyId == rows[i].familyId)
    && (forall i :: |rows| <= i < |rows'| ==> rows'[i].revokedAt.None? && rows'[i].revokedReason == NoReason)
  }

  lemma TaintAlike(rows: Table, rows': Table, f: FamilyId)
    requires RevocationsKept(rows, rows', f)
    ensures Tainted(rows, f) <==> Tainted(rows', f)
  {
    if Tainted(rows, f) {
      var i :| 0 <= i < |rows| && rows[i].familyId == f && rows[i].revokedAt.Some?;
      assert rows'[i].familyId == f && rows'[i].revokedAt.Some?;
    }
  }

  lemma OtherStepsRevokeNothing(s: State, a: Action, f: FamilyId)
    requires Structure(s) && Enabled(s, a) && !SweepsFamily(s, a, f)
    ensures RevocationsKept(s.rows, Apply(s, a).rows, f)
    ensures Tainted(s.rows, f) <==> Tainted(Apply(s, a).rows, f)
  {
    OtherStepsKeepRevocations(s, a, f);
    TaintAlike(s.rows, Apply(s, a).rows, f);
  }

  lemma SweepElsewhere(rows: Table, families: set<FamilyId>, reason: Reason, now: int, f: FamilyId)
    requires f !in families
    ensures RevocationsKept(rows, Sweep(rows, families, reason, now), f)
  {
  }

  /** A statement that does not sweep the family leaves its revocations alone. */
  lemma StatementKeepsRevocations(rows: Table, call: Call, now: int, minted: Hash, expiry: int, f: FamilyId)
    requires call.stage.SweepingAsLoser? || call.stage.SweepingAsWinner? ==>
      call.current.Some? && call.current.value < |rows| && rows[call.current.value].familyId != f
    ensures RevocationsKept(rows, Statement(rows, call, now, minted, expiry).0, f)
  {
    if call.stage.SweepingAsLoser? || call.stage.SweepingAsWinner? {
      SweepElsewhere(rows, {rows[call.current.value].familyId}, ReuseDetected, now, f);
      hide Sweep, RevocationsKept;
    } else {
      hide FindByHash, ReuseRecorded, Sweep;
    }
  }

  lemma OtherStepsKeepRevocations(s: State, a: Action, f: FamilyId)
    requires Structure(s) && Enabled(s, a) && !SweepsFamily(s, a, f)
    ensures RevocationsKept(s.rows, Apply(s, a).rows, f)
  {
    match a
    case Issue(_, _, _, _) =>
    case Begin(_) =>
    case OutsideSweep(families, reason, now) => SweepElsewhere(s.rows, families, reason, now, f);
    case Run(c, now, h, e) =>
      assert CallOk(s.rows, s.calls[c]);
      hide Structure, CallOk, Statement, RevocationsKept;
      StatementKeepsRevocations(s.rows, s.calls[c], now, h, e, f);
  }

  lemma EndedAlike(s: State, a: Action, f: FamilyId, c: nat)
    requires c < |s.calls| ==> CallOk(s.rows, s.calls[c])
    requires Enabled(s, a) && !SweepsFamily(s, a, f) && RevocationsKept(s.rows, Apply(s, a).rows, f)
    ensures EndedReused(Apply(s, a), c, f) <==> EndedReused(s, c, f)
  {
  }

  lemma OtherStepsEndNothing(s: State, a: Action, f: FamilyId)
    requires Structure(s) && Enabled(s, a) && !SweepsFamily(s, a, f)
    ensures SomeEndedReused(s, f) <==> SomeEndedReused(Apply(s, a), f)
  {
    OtherStepsKeepRevocations(s, a, f);
    hide Apply, EndedReused, SweepsFamily, Enabled, RevocationsKept, CallOk;
    forall c: nat ensures EndedReused(Apply(s, a), c, f) <==> EndedReused(s, c, f) {
      EndedAlike(s, a, f, c);
    }
  }

  /** The re-check: a call that carries a row of a tainted family goes on to sweep. */
  lemma CarrierMovesOn(s: State, a: Action, c: nat, r: nat)
    requires Structure(s) && Enabled(s, a) && Carries(s, c, r) && r < |s.rows|
    requires ReuseRecorded(s.rows, s.rows[r].familyId) && !SweepsFamily(s, a, s.rows[r].familyId)
    ensures Carries(Apply(s, a), c, r)
  {
    assert CallOk(s.rows, s.calls[c]);
    assert s.calls[c].stage.Linking? || s.calls[c].stage.Rechecking? || s.calls[c].stage.SweepingAsWinner?;
  }

  lemma {:induction false} CarrierKept(s: State, a: Action, r: nat, f: FamilyId)
    requires Structure(s) && TaintContained(s, f) && Enabled(s, a) && !SweepsFamily(s, a, f)
    requires r < |s.rows| && s.rows[r].familyId == f && s.rows[r].revokedAt.None? && Tainted(s.rows, f)
    ensures exists c: nat :: Carries(Apply(s, a), c, r)
  {
    var c: nat :| Carries(s, c, r);
    var i :| 0 <= i < |s.rows| && s.rows[i].familyId == f && s.rows[i].revokedAt.Some?;
    assert ReuseRecorded(s.rows, f);
    CarrierMovesOn(s, a, c, r);
  }

  /** A freshly inserted row is carried by its call, or opens an untainted family. */
  lemma NewRowCarried(s: State, a: Action)
    requires Structure(s) && Enabled(s, a) && |Apply(s, a).rows| > |s.rows|
    ensures |Apply(s, a).rows| == |s.rows| + 1
    ensures if a.Issue? then !Tainted(Apply(s, a).rows, a.familyId) && Apply(s, a).rows[|s.rows|].familyId == a.familyId
            else a.Run? && Carries(Apply(s, a), a.call, |s.rows|)
  {
    assert a.Run? ==> CallOk(s.rows, s.calls[a.call]);
  }

  lemma {:induction false} TaintKeptBySweep(s: State, a: Action, f: FamilyId)
    requires Structure(s) && TaintContained(s, f) && Enabled(s, a) && SweepsFamily(s, a, f) && !a.OutsideSweep?
    ensures TaintContained(Apply(s, a), f)
  {
    var s' := Apply(s, a);
    assert CallOk(s.rows, s.calls[a.call]);
    assert EndedReused(s', a.call, f);
    assert s'.rows[s.calls[a.call].current.value].revokedAt.Some?;
    assert forall i :: 0 <= i < |s'.rows| && s'.rows[i].familyId == f ==> s'.rows[i].revokedAt.Some?;
  }

  lemma {:induction false} NewRowKept(s: State, a: Action, f: FamilyId, s': State, r: nat)
    requires Structure(s) && Enabled(s, a) && s' == Apply(s, a)
    requires |s.rows| <= r < |s'.rows| && s'.rows[r].familyId == f && Tainted(s'.rows, f)
    ensures exists c: nat :: Carries(s', c, r)
  {
    hide Apply, Structure, Carries, Tainted, Enabled;
    NewRowCarried(s, a);
  }

  lemma {:induction false} TaintKeptOtherwise(s: State, a: Action, f: FamilyId, s': State)
    requires Structure(s) && TaintContained(s, f) && Enabled(s, a) && !SweepsFamily(s, a, f) && s' == Apply(s, a)
    ensures TaintContained(s', f)
  {
    OtherStepsRevokeNothing(s, a, f);
    OtherStepsEndNothing(s, a, f);
    forall r | 0 <= r < |s'.rows| && s'.rows[r].familyId == f && s'.rows[r].revokedAt.None? && Tainted(s'.rows, f)
      ensures exists c: nat :: Carries(s', c, r)
    {
      if r < |s.rows| { CarrierKept(s, a, r, f); } else { NewRowKept(s, a, f, s', r); }
    }
  }

  lemma TaintKept(s: State, a: Action, f: FamilyId)
    requires Structure(s) && TaintContained(s, f) && Enabled(s, a)
    requires a.OutsideSweep? ==> f !in a.families
    ensures TaintContained(Apply(s, a), f)
  {
    if SweepsFamily(s, a, f) { TaintKeptBySweep(s, a, f); } else { TaintKeptOtherwise(s, a, f, Apply(s, a)); }
  }

  lemma {:induction false} TaintReached(s: State, actions: seq<Action>, f: FamilyId)
    requires Structure(s) && TaintContained(s, f) && Legal(s, actions) && Undisturbed(actions, f)
    ensures TaintContained(Exec(s, actions), f)
    decreases |actions|
  {
    if actions != [] {
      StructureKept(s, actions[0]);
      TaintKept(s, actions[0], f);
      TaintReached(Apply(s, actions[0]), actions[1..], f);
    }
  }

  /**
   The guarantee of reuse detection, over every interleaving of any number of calls:
   once a family's calls have finished, either some call ended `reused` and every row is
   revoked for reuse, or none did and exactly the newest row is still spendable.
   */
  lemma ReuseRevokesFamily(actions: seq<Action>, f: FamilyId)
    requires Legal(EMPTY, actions) && Undisturbed(actions, f)
    requires Quiescent(Exec(EMPTY, actions), f)
    ensures var s := Exec(EMPTY, actions);
      forall i: nat :: i < |s.rows| && s.rows[i].familyId == f ==>
        if SomeEndedReused(s, f)
        then s.rows[i].revokedAt.Some? && s.rows[i].revokedReason == ReuseDetected
        else s.rows[i].revokedAt.None? && (s.rows[i].Live() <==> Newest(s.rows, i))
  {
    StructureReached(EMPTY, actions);
    TaintReached(EMPTY, actions, f);
    var s := Exec(EMPTY, actions);
    forall i: nat | i < |s.rows| && s.rows[i].familyId == f
      ensures if SomeEndedReused(s, f)
        then s.rows[i].revokedAt.Some? && s.rows[i].revokedReason == ReuseDetected
        else s.rows[i].revokedAt.None? && (s.rows[i].Live() <==> Newest(s.rows, i))
    {
      if SomeEndedReused(s, f) {
        forall c: nat ensures !Carries(s, c, i) {
          if c < |s.calls| { assert CallOk(s.rows, s.calls[c]); }
        }
      } else if s.rows[i].rotatedAt.Some? {
        var c: nat :| ClaimedBy(s, i, c);
        assert CallOk(s.rows, s.calls[c]);
      }
    }
  }

  // ---- With logouts and password changes in between ----

  /** Once the family records reuse, its unrevoked rows are still in the hands of unfinished calls. */
  ghost predicate RecordContained(s: State, f: FamilyId) {
    && (forall i :: 0 <= i < |s.rows| && s.rows[i].revokedReason == ReuseDetected ==> s.rows[i].revokedAt.Some?)
    && (ReuseRecorded(s.rows, f) ==>
         forall r :: 0 <= r < |s.rows| && s.rows[r].familyId == f && s.rows[r].revokedAt.None? ==>
           exists c: nat :: Carries(s, c, r))
  }

  lemma ReasonsKept(s: State, a: Action)
    requires Structure(s) && Enabled(s, a)
    requires forall i :: 0 <= i < |s.rows| && s.rows[i].revokedReason == ReuseDetected ==> s.rows[i].revokedAt.Some?
    ensures var rows := Apply(s, a).rows;
      forall i :: 0 <= i < |rows| && rows[i].revokedReason == ReuseDetected ==> rows[i].revokedAt.Some?
  {
    assert a.Run? ==> CallOk(s.rows, s.calls[a.call]);
  }

  lemma SweptFamilyRevoked(s: State, a: Action, f: FamilyId)
    requires Structure(s) && Enabled(s, a) && SweepsFamily(s, a, f)
    ensures var rows := Apply(s, a).rows;
      forall i :: 0 <= i < |rows| && rows[i].familyId == f ==> rows[i].revokedAt.Some?
  {
    assert a.Run? ==> CallOk(s.rows, s.calls[a.call]);
  }

  lemma {:induction false} RecordKeptOtherwise(s: State, a: Action, f: FamilyId, s': State, r: nat)
    requires Structure(s) && RecordContained(s, f) && Enabled(s, a) && !SweepsFamily(s, a, f) && s' == Apply(s, a)
    requires ReuseRecorded(s'.rows, f) && Tainted(s'.rows, f)
    requires r < |s'.rows| && s'.rows[r].familyId == f && s'.rows[r].revokedAt.None?
    ensures exists c: nat :: Carries(s', c, r)
  {
    OtherStepsRevokeNothing(s, a, f);
    if r < |s.rows| {
      var i :| 0 <= i < |s'.rows| && s'.rows[i].familyId == f && s'.rows[i].revokedReason == ReuseDetected;
      assert i < |s.rows| && s.rows[i].familyId == f && s.rows[i].revokedReason == ReuseDetected;
      var c: nat :| Carries(s, c, r);
      hide Apply, Structure, Carries, Enabled;
      CarrierMovesOn(s, a, c, r);
    } else {
      NewRowKept(s, a, f, s', r);
    }
  }

  lemma {:induction false} RecordKept(s: State, a: Action, f: FamilyId)
    requires Structure(s) && RecordContained(s, f) && Enabled(s, a)
    ensures RecordContained(Apply(s, a), f)
  {
    hide Apply, Structure, Enabled, SweepsFamily;
    var s' := Apply(s, a);
    ReasonsKept(s, a);
    if SweepsFamily(s, a, f) {
      SweptFamilyRevoked(s, a, f);
    } else if ReuseRecorded(s'.rows, f) {
      forall r: nat | r < |s'.rows| && s'.rows[r].familyId == f && s'.rows[r].revokedAt.None?
        ensures exists c: nat :: Carries(s', c, r)
      {
        RecordKeptOtherwise(s, a, f, s', r);
      }
    }
  }

  lemma {:induction false} RecordReached(s: State, actions: seq<Action>, f: FamilyId)
    requires Structure(s) && RecordContained(s, f) && Legal(s, actions)
    ensures RecordContained(Exec(s, actions), f)
    decreases |actions|
  {
    if actions != [] {
      StructureKept(s, actions[0]);
      RecordKept(s, actions[0], f);
      RecordReached(Apply(s, actions[0]), actions[1..], f);
    }
  }

  /**
   Whatever else sweeps the table: once a family's calls have finished, a family with a row
   revoked for reuse has no row left unrevoked. This is what the re-check after the insert
   guarantees in every run; what can be missing after a logout is only the record itself.
   */
  lemma RecordedReuseRevokesFamily(actions: seq<Action>, f: FamilyId, i: nat)
    requires Legal(EMPTY, actions) && Quiescent(Exec(EMPTY, actions), f)
    requires ReuseRecorded(Exec(EMPTY, actions).rows, f)
    requires i < |Exec(EMPTY, actions).rows| && Exec(EMPTY, actions).rows[i].familyId == f
    ensures Exec(EMPTY, actions).rows[i].revokedAt.Some?
  {
    StructureReached(EMPTY, actions);
    RecordReached(EMPTY, actions, f);
    var s := Exec(EMPTY, actions);
    forall c: nat ensures !Carries(s, c, i) {
      if c < |s.calls| { assert CallOk(s.rows, s.calls[c]); }
    }
  }

  // ---- Sweeps by user ----

  /** `update({ userId, revokedAt: IsNull() }, …)`: every unrevoked row of one user. */
  function SweepUser(rows: Table, userId: nat, reason: Reason, now: int): (r: Table)
    ensures |r| == |rows|
  {
    seq(|rows|, i requires 0 <= i < |rows| =>
      if rows[i].userId == userId && rows[i].revokedAt.None?
      then rows[i].(revokedAt := Some(now), revokedReason := reason) else rows[i])
  }

  function FamiliesOf(rows: Table, userId: nat): set<FamilyId> {
    set i | 0 <= i < |rows| && rows[i].userId == userId :: rows[i].familyId
  }

  ghost predicate OneUserPerFamily(rows: Table) {
    forall i, j :: 0 <= i < j < |rows| && rows[i].familyId == rows[j].familyId ==> rows[i].userId == rows[j].userId
  }

  lemma OneUserKept(s: State, a: Action)
    requires Structure(s) && OneUserPerFamily(s.rows) && Enabled(s, a)
    ensures OneUserPerFamily(Apply(s, a).rows)
  {
    assert a.Run? ==> CallOk(s.rows, s.calls[a.call]);
    hide Structure, FindByHash, ReuseRecorded;
    var rows, rows' := s.rows, Apply(s, a).rows;
    assert forall i :: 0 <= i < |rows| ==> rows'[i].familyId == rows[i].familyId && rows'[i].userId == rows[i].userId;
  }

  lemma {:induction false} OneUserReached(s: State, actions: seq<Action>)
    requires Structure(s) && OneUserPerFamily(s.rows) && Legal(s, actions)
    ensures OneUserPerFamily(Exec(s, actions).rows)
    decreases |actions|
  {
    if actions != [] {
      StructureKept(s, actions[0]);
      OneUserKept(s, actions[0]);
      OneUserReached(Apply(s, actions[0]), actions[1..]);
    }
  }

  /** In every reachable state a family is one user's, so a sweep by user is a sweep of that user's families. */
  lemma {:induction false} UserSweepIsFamilySweep(actions: seq<Action>, userId: nat, reason: Reason, now: int)
    requires Legal(EMPTY, actions)
    ensures var rows := Exec(EMPTY, actions).rows;
      SweepUser(rows, userId, reason, now) == Sweep(rows, FamiliesOf(rows, userId), reason, now)
  {
    OneUserReached(EMPTY, actions);
    var rows := Exec(EMPTY, actions).rows;
    forall j | 0 <= j < |rows| ensures rows[j].userId == userId <==> rows[j].familyId in FamiliesOf(rows, userId) {
      if rows[j].familyId in FamiliesOf(rows, userId) {
        var i :| 0 <= i < |rows| && rows[i].userId == userId && rows[i].familyId == rows[j].familyId;
        SameUser(rows, i, j);
      }
    }
  }

  lemma SameUser(rows: Table, i: nat, j: nat)
    requires OneUserPerFamily(rows) && i < |rows| && j < |rows| && rows[i].familyId == rows[j].familyId
    ensures rows[i].userId == rows[j].userId
  {
  }

  // ---- When a logout ends the session ----

  ghost predicate AllRevoked(rows: Table, f: FamilyId) {
    forall i :: 0 <= i < |rows| && rows[i].familyId == f ==> rows[i].revokedAt.Some?
  }

  ghost predicate OnFamily(s: State, c: nat, f: FamilyId)
    requires c < |s.calls|
  {
    s.calls[c].current.Some? && s.calls[c].current.value < |s.rows| && s.rows[s.calls[c].current.value].familyId == f
  }

  /** The family is over: all its rows are revoked and no call is about to insert another. */
  ghost predicate Over(s: State, f: FamilyId) {
    && !UnusedFamily(s.rows, f) && AllRevoked(s.rows, f)
    && forall c :: 0 <= c < |s.calls| && s.calls[c].stage.Inserting? ==> !OnFamily(s, c, f)
  }

  lemma {:induction false} RunKeepsOver(s: State, a: Action, f: FamilyId)
    requires Over(s, f) && Enabled(s, a) && a.Run? && CallOk(s.rows, s.calls[a.call])
    requires s.calls[a.call].stage.Claiming? ==>
      FindByHash(s.rows, s.calls[a.call].tokenHash) == s.calls[a.call].current
    requires Extends(s.rows, Apply(s, a).rows)
    requires forall c :: 0 <= c < |s.calls| && s.calls[c].current.Some? ==> s.calls[c].current.value < |s.rows|
    ensures Over(Apply(s, a), f)
  {
    hide FindByHash, ReuseRecorded;
    var s' := Apply(s, a);
    var i :| 0 <= i < |s.rows| && s.rows[i].familyId == f;
    assert s'.rows[i].familyId == f;
    assert |s'.rows| > |s.rows| ==> s.calls[a.call].stage.Inserting? && s'.rows[|s.rows|].familyId != f;
    assert s'.calls[a.call].stage.Inserting? ==> !OnFamily(s', a.call, f);
  }

  lemma {:induction false} OverKept(s: State, a: Action, f: FamilyId)
    requires Structure(s) && Over(s, f) && Enabled(s, a)
    ensures Over(Apply(s, a), f)
  {
    StructureKept(s, a);
    forall c | 0 <= c < |s.calls| && s.calls[c].current.Some? ensures s.calls[c].current.value < |s.rows| {
      assert CallOk(s.rows, s.calls[c]);
    }
    if a.Run? {
      assert CallOk(s.rows, s.calls[a.call]);
      if s.calls[a.call].stage.Claiming? { FindUnique(s.rows, s.calls[a.call].current.value); }
      hide Structure, CallOk, Apply, Over, Extends;
      RunKeepsOver(s, a, f);
    } else {
      hide Structure, CallOk, Apply, Over, Extends;
      QuietKeepsOver(s, a, f);
    }
  }

  lemma {:induction false} QuietKeepsOver(s: State, a: Action, f: FamilyId)
    requires Over(s, f) && Enabled(s, a) && !a.Run? && Extends(s.rows, Apply(s, a).rows)
    requires forall c :: 0 <= c < |s.calls| && s.calls[c].current.Some? ==> s.calls[c].current.value < |s.rows|
    ensures Over(Apply(s, a), f)
  {
    var i :| 0 <= i < |s.rows| && s.rows[i].familyId == f;
    assert Apply(s, a).rows[i].familyId == f;
  }

  lemma {:induction false} OverReached(s: State, actions: seq<Action>, f: FamilyId)
    requires Structure(s) && Over(s, f) && Legal(s, actions)
    ensures Over(Exec(s, actions), f)
    decreases |actions|
  {
    if actions != [] {
      StructureKept(s, actions[0]);
      OverKept(s, actions[0], f);
      OverReached(Apply(s, actions[0]), actions[1..], f);
    }
  }

  lemma {:induction false} RecordStays(s: State, actions: seq<Action>, f: FamilyId)
    requires Structure(s) && RecordContained(s, f) && Legal(s, actions) && ReuseRecorded(s.rows, f)
    ensures ReuseRecorded(Exec(s, actions).rows, f)
    decreases |actions|
  {
    if actions != [] {
      var s' := Apply(s, actions[0]);
      StructureKept(s, actions[0]);
      RecordKept(s, actions[0], f);
      var i :| 0 <= i < |s.rows| && s.rows[i].familyId == f && s.rows[i].revokedReason == ReuseDetected;
      assert s'.rows[i].familyId == f && s'.rows[i].revokedReason == ReuseDetected;
      RecordStays(s', actions[1..], f);
    }
  }

  lemma QuiescentRevoked(s: State, f: FamilyId)
    requires Structure(s) && RecordContained(s, f) && ReuseRecorded(s.rows, f) && Quiescent(s, f)
    ensures AllRevoked(s.rows, f)
  {
    forall i: nat | i < |s.rows| && s.rows[i].familyId == f ensures s.rows[i].revokedAt.Some? {
      forall c: nat ensures !Carries(s, c, i) {
        if c < |s.calls| { assert CallOk(s.rows, s.calls[c]); }
      }
    }
  }

  /** Everything of the family is revoked, nothing as reuse, and call `c` has still to insert. */
  ghost predicate Slipping(s: State, f: FamilyId, c: nat) {
    && Structure(s) && AllRevoked(s.rows, f) && !ReuseRecorded(s.rows, f)
    && c < |s.calls| && s.calls[c].stage.Inserting? && OnFamily(s, c, f)
  }

  lemma UnusedHash(rows: Table) returns (h: Hash)
    ensures Unused(rows, h)
  {
    h := 0;
    for i := 0 to |rows|
      invariant forall j :: 0 <= j < i ==> rows[j].tokenHash < h
    {
      h := if rows[i].tokenHash < h then h else rows[i].tokenHash + 1;
    }
  }

  /** No other call has claimed the newest row. */
  lemma OneInFlight(s: State, f: FamilyId, c: nat, d: nat)
    requires Slipping(s, f, c) && d < |s.calls| && s.calls[d].stage.Inserting? && OnFamily(s, d, f)
    ensures d == c
  {
    assert CallOk(s.rows, s.calls[c]) && CallOk(s.rows, s.calls[d]);
    var i, j := s.calls[c].current.value, s.calls[d].current.value;
    assert Newest(s.rows, i) && Newest(s.rows, j);
    assert ClaimedBy(s, i, c) && ClaimedBy(s, i, d);
  }

  /** A call's statement that neither inserts nor finds anything left to sweep. */
  lemma {:induction false} FutileStatement(rows: Table, call: Call, now: int, minted: Hash, expiry: int, f: FamilyId)
    requires CallOk(rows, call) && !call.stage.Finished? && !call.stage.Inserting?
    requires call.current.Some? && rows[call.current.value].familyId == f
    requires FindByHash(rows, call.tokenHash) == call.current && AllRevoked(rows, f) && !ReuseRecorded(rows, f)
    ensures var (rows', call') := Statement(rows, call, now, minted, expiry);
      && |rows'| == |rows| && AllRevoked(rows', f) && !ReuseRecorded(rows', f)
      && (forall i :: 0 <= i < |rows| ==> rows'[i].familyId == rows[i].familyId)
      && call'.current == call.current && Remaining(call'.stage) < Remaining(call.stage)
  {
    hide FindByHash, Sweep;
    if call.stage.SweepingAsLoser? || call.stage.SweepingAsWinner? {
      NothingToSweep(rows, f, now);
    } else {
      var rows' := Statement(rows, call, now, minted, expiry).0;
      assert forall i :: 0 <= i < |rows| ==> rows'[i].familyId == rows[i].familyId;
      assert forall i :: 0 <= i < |rows| ==> rows'[i].revokedAt == rows[i].revokedAt;
      assert forall i :: 0 <= i < |rows| ==> rows'[i].revokedReason == rows[i].revokedReason;
    }
  }

  lemma NothingToSweep(rows: Table, f: FamilyId, now: int)
    requires AllRevoked(rows, f)
    ensures Sweep(rows, {f}, ReuseDetected, now) == rows
  {
  }

  /** Another call of the family takes a step: it inserts nothing and records nothing. */
  lemma {:induction false} OtherCallRuns(s: State, f: FamilyId, c: nat, a: Action)
    requires Slipping(s, f, c) && Enabled(s, a) && a.Run? && a.call != c && OnFamily(s, a.call, f)
    ensures var s', d := Apply(s, a), a.call;
      && Slipping(s', f, c) && s'.calls == s.calls[d := s'.calls[d]] && OnFamily(s', d, f)
      && (forall e: nat :: e < |s.calls| && e != d ==> (OnFamily(s', e, f) <==> OnFamily(s, e, f)))
      && Remaining(s'.calls[d].stage) < Remaining(s.calls[d].stage)
  {
    var d := a.call;
    StructureKept(s, a);
    assert CallOk(s.rows, s.calls[d]);
    if s.calls[d].stage.Inserting? { OneInFlight(s, f, c, d); }
    FindUnique(s.rows, s.calls[d].current.value);
    FutileStatement(s.rows, s.calls[d], a.now, a.freshHash, a.freshExpiry, f);
    hide Structure, CallOk, FindByHash, Statement, ReuseRecorded, Remaining;
  }

  ghost predicate Settled(s: State, f: FamilyId, c: nat, n: nat) {
    forall d: nat :: d < n && d < |s.calls| && d != c && OnFamily(s, d, f) ==> s.calls[d].stage.Finished?
  }

  lemma UnusedHashRuns(s: State, d: nat) returns (a: Action)
    requires d < |s.calls| && !s.calls[d].stage.Finished?
    ensures a.Run? && a.call == d && Enabled(s, a) && a.freshExpiry == 1 && a.now == 0
  {
    var h := UnusedHash(s.rows);
    a := Run(d, 0, h, 1);
  }

  /** The family's other calls can all finish first. */
  lemma {:induction false} OthersFinish(s: State, f: FamilyId, c: nat, n: nat) returns (actions: seq<Action>)
    requires Slipping(s, f, c) && Settled(s, f, c, n) && n <= |s.calls|
    ensures Legal(s, actions)
    ensures Slipping(Exec(s, actions), f, c) && Settled(Exec(s, actions), f, c, |Exec(s, actions).calls|)
    decreases |s.calls| - n, if n < |s.calls| then Remaining(s.calls[n].stage) else 0
  {
    if n == |s.calls| {
      actions := [];
    } else if n == c || !OnFamily(s, n, f) || s.calls[n].stage.Finished? {
      actions := OthersFinish(s, f, c, n + 1);
    } else {
      var a := UnusedHashRuns(s, n);
      OtherCallRuns(s, f, c, a);
      var rest := OthersFinish(Apply(s, a), f, c, n);
      actions := [a] + rest;
      assert actions[1..] == rest;
    }
  }

  /** Call `c` has inserted an unrevoked row and nothing stands in its way. */
  ghost predicate Landing(s: State, f: FamilyId, c: nat) {
    && c < |s.calls| && OnFamily(s, c, f) && Settled(s, f, c, |s.calls|) && !ReuseRecorded(s.rows, f)
    && s.calls[c].replacement.Some? && s.calls[c].replacement.value < |s.rows|
    && s.calls[c].current != s.calls[c].replacement
    && (var r := s.rows[s.calls[c].replacement.value]; r.familyId == f && r.revokedAt.None?)
  }

  lemma {:induction false} SlippingInserts(s: State, f: FamilyId, c: nat, a: Action)
    requires Slipping(s, f, c) && Settled(s, f, c, |s.calls|) && Enabled(s, a) && a.Run? && a.call == c
    ensures Landing(Apply(s, a), f, c) && Apply(s, a).calls[c].stage.Linking?
  {
    assert forall d :: 0 <= d < |s.calls| ==> CallOk(s.rows, s.calls[d]);
    hide Structure;
  }

  lemma {:induction false} LandingMovesOn(s: State, f: FamilyId, c: nat, a: Action)
    requires Landing(s, f, c) && Enabled(s, a) && a.Run? && a.call == c
    requires s.calls[c].stage.Linking? || s.calls[c].stage.Rechecking?
    ensures Landing(Apply(s, a), f, c)
    ensures Apply(s, a).calls[c].stage ==
      if s.calls[c].stage.Linking? then Rechecking
      else Finished(Refreshed(s.rows[s.calls[c].replacement.value].tokenHash))
  {
    hide FindByHash;
    var rows, rows' := s.rows, Apply(s, a).rows;
    assert forall i :: 0 <= i < |rows| ==> rows'[i].familyId == rows[i].familyId;
    assert forall i :: 0 <= i < |rows| ==> rows'[i].revokedReason == rows[i].revokedReason;
  }

  lemma FirstThen(s: State, a: Action, rest: seq<Action>)
    requires Enabled(s, a) && Legal(Apply(s, a), rest)
    ensures Legal(s, [a] + rest) && Exec(s, [a] + rest) == Exec(Apply(s, a), rest)
  {
    assert ([a] + rest)[1..] == rest;
  }

  lemma {:induction false} WinnerFinishes(s: State, f: FamilyId, c: nat) returns (actions: seq<Action>)
    requires Slipping(s, f, c) && Settled(s, f, c, |s.calls|)
    ensures Legal(s, actions) && Quiescent(Exec(s, actions), f) && !AllRevoked(Exec(s, actions).rows, f)
  {
    var a := UnusedHashRuns(s, c);
    SlippingInserts(s, f, c, a);
    var inserted := Apply(s, a);
    hide Slipping, Enabled, Apply, Structure;
    actions := LandingFinishes(inserted, f, c);
    FirstThen(s, a, actions);
    actions := [a] + actions;
  }

  lemma {:induction false} LandingFinishes(s: State, f: FamilyId, c: nat) returns (actions: seq<Action>)
    requires Landing(s, f, c)
    requires s.calls[c].stage.Linking? || s.calls[c].stage.Rechecking? || s.calls[c].stage.Finished?
    ensures Legal(s, actions) && Quiescent(Exec(s, actions), f) && !AllRevoked(Exec(s, actions).rows, f)
    decreases Remaining(s.calls[c].stage)
  {
    if s.calls[c].stage.Finished? {
      actions := [];
    } else {
      var a := UnusedHashRuns(s, c);
      LandingMovesOn(s, f, c, a);
      actions := LandingFinishes(Apply(s, a), f, c);
      FirstThen(s, a, actions);
      actions := [a] + actions;
    }
  }

  /** The sweep of a logout or a password change. */
  function LoggedOut(s: State, families: set<FamilyId>, reason: Reason, now: int): State {
    State(Sweep(s.rows, families, reason, now), s.calls)
  }

  lemma {:induction false} SweptSlips(s: State, f: FamilyId, families: set<FamilyId>, reason: Reason, now: int, c: nat)
    requires Structure(s) && f in families && reason != ReuseDetected && !ReuseRecorded(s.rows, f)
    requires c < |s.calls| && s.calls[c].stage.Inserting? && OnFamily(s, c, f)
    ensures Slipping(LoggedOut(s, families, reason, now), f, c)
  {
    SweepKept(s, families, reason, now);
    hide Structure;
  }

  lemma {:induction false} ExecInTwo(s: State, first: seq<Action>, second: seq<Action>)
    requires Legal(s, first) && Legal(Exec(s, first), second)
    ensures Legal(s, first + second) && Exec(s, first + second) == Exec(Exec(s, first), second)
    decreases |first|
  {
    if first == [] {
      assert first + second == second;
    } else {
      ExecInTwo(Apply(s, first[0]), first[1..], second);
      FirstThen(s, first[0], first[1..] + second);
      assert first + second == [first[0]] + (first[1..] + second);
    }
  }

  /** A continuation in which the family's calls all finish. */
  ghost predicate Finishes(s: State, after: seq<Action>, f: FamilyId) {
    Legal(s, after) && Quiescent(Exec(s, after), f)
  }

  lemma {:induction false} SlipsThrough(s: State, f: FamilyId, c: nat) returns (after: seq<Action>)
    requires Slipping(s, f, c)
    ensures Finishes(s, after, f) && !AllRevoked(Exec(s, after).rows, f)
  {
    var first := OthersFinish(s, f, c, 0);
    var second := WinnerFinishes(Exec(s, first), f, c);
    ExecInTwo(s, first, second);
    after := first + second;
  }

  lemma {:induction false} StaysEnded(s: State, f: FamilyId, families: set<FamilyId>, reason: Reason, now: int,
    after: seq<Action>)
    requires Structure(s) && RecordContained(s, f) && !UnusedFamily(s.rows, f) && f in families
      && reason != ReuseDetected
    requires InFlight(s, f) == {} || ReuseRecorded(s.rows, f)
    requires Finishes(LoggedOut(s, families, reason, now), after, f)
    ensures AllRevoked(Exec(LoggedOut(s, families, reason, now), after).rows, f)
  {
    var s' := LoggedOut(s, families, reason, now);
    var a := OutsideSweep(families, reason, now);
    assert Enabled(s, a) && Apply(s, a) == s';
    StructureKept(s, a);
    RecordKept(s, a, f);
    if ReuseRecorded(s.rows, f) {
      RecordStays(s, [a], f);
      assert [a][1..] == [];
      StructureReached(s', after);
      RecordReached(s', after, f);
      RecordStays(s', after, f);
      QuiescentRevoked(Exec(s', after), f);
    } else {
      SweptIsOver(s, f, families, reason, now);
      OverReached(s', after, f);
    }
  }

  lemma SweptIsOver(s: State, f: FamilyId, families: set<FamilyId>, reason: Reason, now: int)
    requires !UnusedFamily(s.rows, f) && f in families && InFlight(s, f) == {}
    ensures Over(LoggedOut(s, families, reason, now), f)
  {
    var i :| 0 <= i < |s.rows| && s.rows[i].familyId == f;
    assert LoggedOut(s, families, reason, now).rows[i].familyId == f;
    forall c: nat | c < |s.calls| && s.calls[c].stage.Inserting? ensures !OnFamily(s, c, f) {
      assert c !in InFlight(s, f);
    }
  }

  /**
   When a logout or a password change ends a session: exactly when, at the moment of its sweep, no
   call of the family is between its claim and its insert, or reuse is already on record. Then every
   later run that lets the family's calls finish leaves no row of it unrevoked; otherwise some run
   leaves one.
   */
  lemma {:induction false} LogoutEndsExactly(before: seq<Action>, f: FamilyId, families: set<FamilyId>, reason: Reason,
    now: int)
    requires Legal(EMPTY, before) && f in families && reason != ReuseDetected
    requires !UnusedFamily(Exec(EMPTY, before).rows, f)
    ensures var s := Exec(EMPTY, before);
      var s' := LoggedOut(s, families, reason, now);
      (forall after :: Finishes(s', after, f) ==> AllRevoked(Exec(s', after).rows, f))
      <==> InFlight(s, f) == {} || ReuseRecorded(s.rows, f)
  {
    StructureReached(EMPTY, before);
    RecordReached(EMPTY, before, f);
    var s := Exec(EMPTY, before);
    var s' := LoggedOut(s, families, reason, now);
    if InFlight(s, f) == {} || ReuseRecorded(s.rows, f) {
      forall after | Finishes(s', after, f) ensures AllRevoked(Exec(s', after).rows, f) {
        StaysEnded(s, f, families, reason, now, after);
      }
    } else {
      var c :| c in InFlight(s, f);
      SweptSlips(s, f, families, reason, now, c);
      var after := SlipsThrough(s', f, c);
      assert Finishes(s', after, f) && !AllRevoked(Exec(s', after).rows, f);
    }
  }

  ghost predicate Reaches(actions: seq<Action>, s: State) {
    Legal(EMPTY, actions) && Exec(EMPTY, actions) == s
  }

  lemma {:induction false} OneMore(s: State, actions: seq<Action>, a: Action)
    requires Legal(s, actions) && Enabled(Exec(s, actions), a)
    ensures Legal(s, actions + [a]) && Exec(s, actions + [a]) == Apply(Exec(s, actions), a)
    decreases |actions|
  {
    if actions == [] {
      assert [a][1..] == [];
    } else {
      OneMore(Apply(s, actions[0]), actions[1..], a);
      assert (actions + [a])[1..] == actions[1..] + [a];
    }
  }

  lemma Then(actions: seq<Action>, s: State, a: Action, s': State) returns (longer: seq<Action>)
    requires Reaches(actions, s) && Enabled(s, a) && Apply(s, a) == s'
    ensures longer == actions + [a] && Reaches(longer, s')
  {
    OneMore(EMPTY, actions, a);
    longer := actions + [a];
  }

  // The states a logout passes through when it lands between a claim and its insert.
  const SPENT := NewRow(1, 7, 5, 100).(rotatedAt := Some(10))
  const LOGGED_OUT := SPENT.(revokedAt := Some(10), revokedReason := Logout)
  const READ := Call(1, Claiming, Some(0), false, None)
  const WINNER := READ.(stage := Inserting, claimed := true)
  const LOSER := READ.(stage := Finished(Failed(Reused)))
  const LINKING := WINNER.(stage := Linking, replacement := Some(1))

  lemma BothCallsRead() returns (actions: seq<Action>)
    ensures Reaches(actions, State([SPENT], [WINNER, READ]))
  {
    var row, begun := NewRow(1, 7, 5, 100), Call(1, Reading, None, false, None);
    var run0, run1 := Run(0, 10, 2, 100), Run(1, 10, 2, 100);
    actions := Then([], EMPTY, Issue(1, 7, 5, 100), State([row], []));
    actions := Then(actions, State([row], []), Begin(1), State([row], [begun]));
    actions := Then(actions, State([row], [begun]), Begin(1), State([row], [begun, begun]));
    actions := Then(actions, State([row], [begun, begun]), run0, State([row], [READ, begun]));
    actions := Then(actions, State([row], [READ, begun]), run1, State([row], [READ, READ]));
    actions := Then(actions, State([row], [READ, READ]), run0, State([SPENT], [WINNER, READ]));
  }

  lemma LogoutThenLoserSweeps() returns (actions: seq<Action>)
    ensures Reaches(actions, State([LOGGED_OUT], [WINNER, LOSER]))
  {
    actions := BothCallsRead();
    var losing := READ.(stage := SweepingAsLoser);
    actions := Then(actions, State([SPENT], [WINNER, READ]), OutsideSweep({7}, Logout, 10),
      State([LOGGED_OUT], [WINNER, READ]));
    actions := Then(actions, State([LOGGED_OUT], [WINNER, READ]), Run(1, 10, 2, 100),
      State([LOGGED_OUT], [WINNER, losing]));
    actions := Then(actions, State([LOGGED_OUT], [WINNER, losing]), Run(1, 10, 2, 100),
      State([LOGGED_OUT], [WINNER, LOSER]));
  }

  /**
   The guarantee does need the family undisturbed: the re-check looks for `reuse_detected`
   only, so after a logout that lands between a claim and its insert, one call ends
   `reused` while the other is handed a token that stays spendable.
   */
  lemma LogoutDuringRotation() returns (actions: seq<Action>)
    ensures Legal(EMPTY, actions)
    ensures var s := Exec(EMPTY, actions);
      Quiescent(s, 7) && SomeEndedReused(s, 7) && LiveRows(s, 7) != {}
  {
    actions := LogoutThenLoserSweeps();
    var next, run0, later := NewRow(2, 7, 5, 100), Run(0, 10, 2, 100), Run(0, 10, 3, 100);
    var linked := [LOGGED_OUT.(replacedById := Some(1)), next];
    var checking := LINKING.(stage := Rechecking);
    var done := State(linked, [checking.(stage := Finished(Refreshed(2))), LOSER]);
    actions := Then(actions, State([LOGGED_OUT], [WINNER, LOSER]), run0, State([LOGGED_OUT, next], [LINKING, LOSER]));
    actions := Then(actions, State([LOGGED_OUT, next], [LINKING, LOSER]), later, State(linked, [checking, LOSER]));
    actions := Then(actions, State(linked, [checking, LOSER]), later, done);
    assert EndedReused(done, 1, 7);
    assert 1 in LiveRows(done, 7);
  }

  // ---------------------------------------------------------------- the service

  /** The statements left for a call, counted down; each one moves the call on. */
  function Remaining(stage: Stage): nat {
    match stage
    case Reading => 6
    case Claiming => 5
    case Inserting => 4
    case Linking => 3
    case Rechecking => 2
    case SweepingAsLoser => 1
    case SweepingAsWinner => 1
    case Finished(_) => 0
  }

  /** One call run to its end with nothing in between. */
  function RunAlone(rows: Table, call: Call, now: int, minted: Hash, expiry: int): (Table, Call)
    decreases Remaining(call.stage)
  {
    var (rows', call') := Statement(rows, call, now, minted, expiry);
    if Remaining(call'.stage) < Remaining(call.stage)
    then RunAlone(rows', call', now, minted, expiry) else (rows, call)
  }

  lemma RunsOn(rows: Table, call: Call, now: int, minted: Hash, expiry: int, rows': Table, call': Call)
    requires Statement(rows, call, now, minted, expiry) == (rows', call')
    requires Remaining(call'.stage) < Remaining(call.stage)
    ensures RunAlone(rows, call, now, minted, expiry) == RunAlone(rows', call', now, minted, expiry)
  {
  }

  /** What one uninterrupted exchange makes of the table, and what it answers. */
  function Exchanged(rows: Table, presented: Hash, now: int, minted: Hash, expiry: int): (Table, Outcome) {
    var found := FindByHash(rows, presented);
    if found.None? then (rows, Failed(NotFound)) else
    var row := rows[found.value];
    if row.revokedAt.Some? then (rows, Failed(Revoked))
    else if row.expiresAt <= now then (rows, Failed(Expired))
    else if row.rotatedAt.Some? then (Sweep(rows, {row.familyId}, ReuseDetected, now), Failed(Reused))
    else
      var linked := rows[found.value := row.(rotatedAt := Some(now), replacedById := Some(|rows|))]
                    + [NewRow(minted, row.familyId, row.userId, expiry)];
      if ReuseRecorded(rows, row.familyId)
      then (Sweep(linked, {row.familyId}, ReuseDetected, now), Failed(Reused))
      else (linked, Refreshed(minted))
  }

  lemma RecordedAlike(rows: Table, rows': Table, f: FamilyId)
    requires |rows| <= |rows'|
    requires forall i :: 0 <= i < |rows| ==>
      rows'[i].familyId == rows[i].familyId && rows'[i].revokedReason == rows[i].revokedReason
    requires forall i :: |rows| <= i < |rows'| ==> rows'[i].revokedReason == NoReason
    ensures ReuseRecorded(rows, f) <==> ReuseRecorded(rows', f)
  {
    if i :| 0 <= i < |rows| && rows[i].familyId == f && rows[i].revokedReason == ReuseDetected {
      assert rows'[i].familyId == f && rows'[i].revokedReason == ReuseDetected;
    }
  }

  /** An uninterrupted exchange is the protocol's call run to its end. */
  lemma {:induction false} ExchangeIsTheCall(rows: Table, presented: Hash, now: int, minted: Hash, expiry: int)
    ensures var (after, call) := RunAlone(rows, Call(presented, Reading, None, false, None), now, minted, expiry);
      call.stage.Finished? && Exchanged(rows, presented, now, minted, expiry) == (after, call.stage.outcome)
  {
    var start, found := Call(presented, Reading, None, false, None), FindByHash(rows, presented);
    if found.Some? && rows[found.value].revokedAt.None? && now < rows[found.value].expiresAt {
      var row, read := rows[found.value], start.(stage := Claiming, current := found);
      RunsOn(rows, start, now, minted, expiry, rows, read);
      if row.rotatedAt.Some? {
        RunsOn(rows, read, now, minted, expiry, rows, read.(stage := SweepingAsLoser));
      } else {
        var spent, won := ClaimRow(rows, presented, now), read.(stage := Inserting, claimed := true);
        RunsOn(rows, read, now, minted, expiry, spent, won);
        var grown := spent + [NewRow(minted, row.familyId, row.userId, expiry)];
        var inserted := won.(stage := Linking, replacement := Some(|rows|));
        RunsOn(spent, won, now, minted, expiry, grown, inserted);
        var linked := LinkRow(grown, found.value, |rows|);
        RunsOn(grown, inserted, now, minted, expiry, linked, inserted.(stage := Rechecking));
        assert linked == rows[found.value := row.(rotatedAt := Some(now), replacedById := Some(|rows|))]
                         + [NewRow(minted, row.familyId, row.userId, expiry)];
        RecordedAlike(rows, linked, row.familyId);
        if ReuseRecorded(rows, row.familyId) {
          RunsOn(linked, inserted.(stage := Rechecking), now, minted, expiry, linked,
            inserted.(stage := SweepingAsWinner));
        }
      }
    }
  }

  /**
   Presenting a token twice: the first exchange of a spendable token succeeds, the second is
   reuse, and after it neither the replacement nor any other token of the family works.
   */
  lemma ReplayEndsTheSession(rows: Table, i: nat, now: int, first: Hash, second: Hash, expiry: int)
    requires HashesUnique(rows) && i < |rows| && rows[i].Live() && now < rows[i].expiresAt && now < expiry
    requires !ReuseRecorded(rows, rows[i].familyId) && Unused(rows, first)
    ensures var (once, ok) := Exchanged(rows, rows[i].tokenHash, now, first, expiry);
      var (twice, again) := Exchanged(once, rows[i].tokenHash, now, second, expiry);
      && ok == Refreshed(first) && again == Failed(Reused)
      && Exchanged(twice, first, now, second, expiry) == (twice, Failed(Revoked))
      && forall j :: 0 <= j < |twice| ==>
           if twice[j].familyId == rows[i].familyId then twice[j].revokedAt.Some?
           else j < |rows| && twice[j] == rows[j]
  {
    FindUnique(rows, i);
    var once := Exchanged(rows, rows[i].tokenHash, now, first, expiry).0;
    assert HashesUnique(once);
    FindUnique(once, i);
    var twice := Exchanged(once, rows[i].tokenHash, now, second, expiry).0;
    assert twice == Sweep(once, {rows[i].familyId}, ReuseDetected, now);
    assert HashesUnique(twice) && twice[|rows|].tokenHash == first;
    FindUnique(twice, |rows|);
  }

  /** One exchange column by column: `i` is the presented token's row, `time` when it is presented. */
  ghost predicate ExchangeWrites(
    was: Table, now: Table, i: nat, time: int, minted: Hash, expiry: int, outcome: Outcome)
    requires i < |was|
  {
    var row := was[i];
    var accepted := row.revokedAt.None? && time < row.expiresAt;
    var spends := accepted && row.rotatedAt.None?;
    var reused := accepted && (row.rotatedAt.Some? || ReuseRecorded(was, row.familyId));
    && outcome == (if row.revokedAt.Some? then Failed(Revoked) else if !accepted then Failed(Expired)
                   else if reused then Failed(Reused) else Refreshed(minted))
    && |now| == |was| + (if spends then 1 else 0)
    && (forall j :: 0 <= j < |was| ==>
          var swept := reused && was[j].familyId == row.familyId && was[j].revokedAt.None?;
          && now[j].tokenHash == was[j].tokenHash && now[j].familyId == was[j].familyId
          && now[j].userId == was[j].userId && now[j].expiresAt == was[j].expiresAt
          && now[j].rotatedAt == (if spends && j == i then Some(time) else was[j].rotatedAt)
          && now[j].replacedById == (if spends && j == i then Some(|was|) else was[j].replacedById)
          && now[j].revokedAt == (if swept then Some(time) else was[j].revokedAt)
          && now[j].revokedReason == (if swept then ReuseDetected else was[j].revokedReason))
    && (spends ==>
          var added := now[|was|];
          && added.tokenHash == minted && added.expiresAt == expiry
          && added.familyId == row.familyId && added.userId == row.userId
          && added.rotatedAt.None? && added.replacedById.None?
          && added.revokedAt == (if reused then Some(time) else None)
          && added.revokedReason == (if reused then ReuseDetected else NoReason))
  }

  lemma ExchangeByColumns(rows: Table, i: nat, time: int, minted: Hash, expiry: int)
    requires HashesUnique(rows) && i < |rows|
    ensures var (now, outcome) := Exchanged(rows, rows[i].tokenHash, time, minted, expiry);
      ExchangeWrites(rows, now, i, time, minted, expiry, outcome)
  {
    FindUnique(rows, i);
    hide ReuseRecorded, HashesUnique, FindByHash;
  }

  /** `SessionsService` over its table, one request at a time. */
  class SessionsService {
    var rows: Table

    constructor ()
      ensures rows == []
    {
      rows := [];
    }

    method Issue(userId: nat, familyId: FamilyId, minted: Hash, expiresAt: int)
      requires HashesUnique(rows) && Unused(rows, minted) && UnusedFamily(rows, familyId)
      modifies this
      ensures HashesUnique(rows) && |rows| == |old(rows)| + 1 && rows[..|old(rows)|] == old(rows)
      ensures var row := rows[|old(rows)|];
        && row.tokenHash == minted && row.familyId == familyId && row.userId == userId && row.expiresAt == expiresAt
        && row.Live() && row.replacedById.None? && row.revokedReason == NoReason
    {
      rows := rows + [NewRow(minted, familyId, userId, expiresAt)];
    }

    method Rotate(presented: Hash, now: int, minted: Hash, expiry: int) returns (outcome: Outcome)
      requires HashesUnique(rows) && Unused(rows, minted)
      modifies this
      ensures HashesUnique(rows)
      ensures (rows, outcome) == Exchanged(old(rows), presented, now, minted, expiry)
      ensures Unused(old(rows), presented) ==> rows == old(rows) && outcome == Failed(NotFound)
      ensures forall i :: 0 <= i < |old(rows)| && old(rows)[i].tokenHash == presented ==>
        ExchangeWrites(old(rows), rows, i, now, minted, expiry, outcome)
    {
      ghost var (after, answer) := Exchanged(rows, presented, now, minted, expiry);
      forall i: nat | i < |rows| && rows[i].tokenHash == presented
        ensures ExchangeWrites(rows, after, i, now, minted, expiry, answer)
      {
        ExchangeByColumns(rows, i, now, minted, expiry);
      }
      var found := FindByHash(rows, presented);
      if found.None? {
        return Failed(NotFound);
      }
      var current := rows[found.value];
      if current.revokedAt.Some? {
        return Failed(Revoked);
      }
      if current.expiresAt <= now {
        return Failed(Expired);
      }
      var affected := Claimable(rows, presented);
      rows := ClaimRow(rows, presented, now);
      if !affected {
        rows := Sweep(rows, {current.familyId}, ReuseDetected, now);
        return Failed(Reused);
      }
      var replacement := |rows|;
      rows := rows + [NewRow(minted, current.familyId, current.userId, expiry)];
      rows := LinkRow(rows, found.value, replacement);
      assert rows == old(rows)[found.value := current.(rotatedAt := Some(now), replacedById := Some(replacement))]
                     + [NewRow(minted, current.familyId, current.userId, expiry)];
      RecordedAlike(old(rows), rows, current.familyId);
      if ReuseRecorded(rows, current.familyId) {
        rows := Sweep(rows, {current.familyId}, ReuseDetected, now);
        return Failed(Reused);
      }
      return Refreshed(minted);
    }

    /** Logout: ends the presented token's family and no other. */
    method Revoke(presented: Hash, now: int) returns (userId: Option<nat>)
      requires HashesUnique(rows)
      modifies this
      ensures HashesUnique(rows) && Extends(old(rows), rows)
      ensures userId.None? <==> Unused(old(rows), presented)
      ensures userId.None? ==> rows == old(rows)
      ensures |rows| == |old(rows)|
      ensures forall i, j :: 0 <= i < |rows| && old(rows)[i].tokenHash == presented && 0 <= j < |rows| ==>
        && userId == Some(old(rows)[i].userId)
        && rows[j] == (if old(rows)[j].familyId == old(rows)[i].familyId && old(rows)[j].revokedAt.None?
                       then old(rows)[j].(revokedAt := Some(now), revokedReason := Logout) else old(rows)[j])
    {
      var found := FindByHash(rows, presented);
      if found.None? {
        return None;
      }
      var row := rows[found.value];
      rows := Sweep(rows, {row.familyId}, Logout, now);
      return Some(row.userId);
    }

    /** After a password change: ends every session of one user and no other's. */
    method RevokeAllForUser(userId: nat, reason: Reason, now: int)
      requires HashesUnique(rows)
      modifies this
      ensures HashesUnique(rows) && Extends(old(rows), rows) && |rows| == |old(rows)|
      ensures forall j :: 0 <= j < |rows| ==>
        rows[j] == if old(rows)[j].userId == userId && old(rows)[j].revokedAt.None?
                   then old(rows)[j].(revokedAt := Some(now), revokedReason := reason) else old(rows)[j]
    {
      rows := SweepUser(rows, userId, reason, now);
    }
  }
}
