/**
 What becomes of one refresh token over a run: what its row is given when it is minted, who may
 write to it later and when, and how the time of its exchange decides the answer.
 */
module TokenLives {
  import opened Common
  import opened Sessions

  /** The login or the exchange that minted the row, and what it gave it. */
  predicate MintedBy(a: Action, row: Row) {
    match a
    case Issue(h, f, u, e) => row.tokenHash == h && row.familyId == f && row.userId == u && row.expiresAt == e
    case Run(_, _, h, e) => row.tokenHash == h && row.expiresAt == e
    case _ => false
  }

  /** A row no statement has marked yet. */
  predicate Unmarked(row: Row) {
    row.rotatedAt.None? && row.replacedById.None? && row.revokedAt.None? && row.revokedReason == NoReason
  }

  /** What a token is and how long it lives are never rewritten; a mark bears the time it was made. */
  predicate Marked(was: Row, now: Row, a: Action) {
    && now.tokenHash == was.tokenHash && now.familyId == was.familyId
    && now.userId == was.userId && now.expiresAt == was.expiresAt
    && (now.rotatedAt == was.rotatedAt || (was.rotatedAt.None? && a.Run? && now.rotatedAt == Some(a.now)))
    && (if now.revokedAt == was.revokedAt then now.revokedReason == was.revokedReason
        else
          && was.revokedAt.None?
          && (match a
              case Run(_, time, _, _) => now.revokedAt == Some(time) && now.revokedReason == ReuseDetected
              case OutsideSweep(families, reason, time) =>
                was.familyId in families && now.revokedAt == Some(time) && now.revokedReason == reason
              case _ => false))
  }

  predicate ContinuesFrom(was: Row, row: Row, presented: Hash) {
    was.tokenHash == presented && row.familyId == was.familyId && row.userId == was.userId
  }

  /** The row an exchange adds continues the session of the token it was presented. */
  ghost predicate Continues(s: State, a: Action, row: Row) {
    a.Run? && a.call < |s.calls| ==>
      exists i :: 0 <= i < |s.rows| && ContinuesFrom(s.rows[i], row, s.calls[a.call].tokenHash)
  }

  ghost predicate Written(s: State, a: Action, rows': Table) {
    && (|rows'| == |s.rows| || |rows'| == |s.rows| + 1)
    && (forall i :: 0 <= i < |s.rows| ==> Marked(s.rows[i], rows'[i], a))
    && (|rows'| > |s.rows| ==>
          MintedBy(a, rows'[|s.rows|]) && Unmarked(rows'[|s.rows|]) && Continues(s, a, rows'[|s.rows|]))
  }

  lemma StatementWrites(s: State, a: Action)
    requires a.Run? && a.call < |s.calls| && CallOk(s.rows, s.calls[a.call]) && s.calls[a.call].stage.Inserting?
    ensures Written(s, a, Statement(s.rows, s.calls[a.call], a.now, a.freshHash, a.freshExpiry).0)
  {
    hide FindByHash, ReuseRecorded;
    var row := s.rows[s.calls[a.call].current.value];
    assert ContinuesFrom(row, NewRow(a.freshHash, row.familyId, row.userId, a.freshExpiry), s.calls[a.call].tokenHash);
  }

  lemma OtherStatementsWrite(s: State, a: Action)
    requires a.Run? && a.call < |s.calls| && CallOk(s.rows, s.calls[a.call]) && !s.calls[a.call].stage.Inserting?
    ensures Written(s, a, Statement(s.rows, s.calls[a.call], a.now, a.freshHash, a.freshExpiry).0)
  {
    hide ReuseRecorded;
  }

  lemma OutsideWrites(s: State, a: Action)
    requires (a.Issue? || a.OutsideSweep? || a.Begin?) && Enabled(s, a)
    ensures Written(s, a, Apply(s, a).rows)
  {
    hide Statement;
  }

  /** Everything one action writes to the table. */
  lemma {:induction false} StepWrites(s: State, a: Action)
    requires Structure(s) && Enabled(s, a)
    ensures var rows' := Apply(s, a).rows;
      && (|rows'| == |s.rows| || |rows'| == |s.rows| + 1)
      && (forall i :: 0 <= i < |s.rows| ==> Marked(s.rows[i], rows'[i], a))
      && (|rows'| > |s.rows| ==>
            MintedBy(a, rows'[|s.rows|]) && Unmarked(rows'[|s.rows|]) && Continues(s, a, rows'[|s.rows|]))
  {
    if a.Run? {
      assert CallOk(s.rows, s.calls[a.call]);
      hide Structure, CallOk, Statement, Marked, MintedBy, Unmarked, Continues;
      if s.calls[a.call].stage.Inserting? { StatementWrites(s, a); } else { OtherStatementsWrite(s, a); }
    } else {
      hide Structure, Marked, MintedBy, Unmarked, Continues, Apply;
      OutsideWrites(s, a);
    }
  }

  /** Each row of a run was minted by one action of it, and still has the expiry that action gave it. */
  lemma {:induction false} AsMinted(s: State, actions: seq<Action>, k: nat) returns (j: nat)
    requires Structure(s) && Legal(s, actions) && |s.rows| <= k < |Exec(s, actions).rows|
    ensures j < |actions| && MintedBy(actions[j], Exec(s, actions).rows[k])
    decreases |actions|
  {
    hide Structure, Apply, Enabled, Marked, Unmarked, Continues, MintedBy;
    var next, rest := Apply(s, actions[0]), actions[1..];
    StructureKept(s, actions[0]);
    StepWrites(s, actions[0]);
    if k < |next.rows| {
      StaysAsMinted(next, rest, k);
      SameMint(actions[0], next.rows[k], Exec(next, rest).rows[k]);
      j := 0;
    } else {
      var i := AsMinted(next, rest, k);
      j := i + 1;
    }
  }

  predicate SameToken(was: Row, now: Row) {
    && now.tokenHash == was.tokenHash && now.familyId == was.familyId
    && now.userId == was.userId && now.expiresAt == was.expiresAt
  }

  lemma SameMint(a: Action, was: Row, now: Row)
    requires MintedBy(a, was) && SameToken(was, now)
    ensures MintedBy(a, now)
  {
  }

  lemma MarkedIsSame(was: Row, now: Row, a: Action)
    requires Marked(was, now, a)
    ensures SameToken(was, now)
  {
  }

  lemma {:induction false} StaysAsMinted(s: State, actions: seq<Action>, k: nat)
    requires Structure(s) && Legal(s, actions) && k < |s.rows|
    ensures k < |Exec(s, actions).rows| && SameToken(s.rows[k], Exec(s, actions).rows[k])
    decreases |actions|
  {
    hide Structure, Apply, Enabled, Marked, Unmarked, Continues, MintedBy;
    if actions != [] {
      StructureKept(s, actions[0]);
      StepWrites(s, actions[0]);
      MarkedIsSame(s.rows[k], Apply(s, actions[0]).rows[k], actions[0]);
      StaysAsMinted(Apply(s, actions[0]), actions[1..], k);
    }
  }

  // ---------------------------------------------------------------- when an exchange comes too late

  predicate Ended(s: State, c: nat, outcome: Outcome) { c < |s.calls| && s.calls[c].stage == Finished(outcome) }

  predicate EndedRefreshed(s: State, c: nat) {
    c < |s.calls| && s.calls[c].stage.Finished? && s.calls[c].stage.outcome.Refreshed?
  }

  /** The call has read its row and found nothing against it. */
  predicate PastReading(s: State, c: nat) {
    c < |s.calls| && !s.calls[c].stage.Reading?
    && !(s.calls[c].stage.Finished? && s.calls[c].stage.outcome.Failed? && !s.calls[c].stage.outcome.failure.Reused?)
  }

  lemma ReadingSettles(s: State, a: Action, i: nat)
    requires Structure(s) && Enabled(s, a) && a.Run? && s.calls[a.call].stage.Reading?
    requires i < |s.rows| && s.rows[i].tokenHash == s.calls[a.call].tokenHash
    ensures var (s', row) := (Apply(s, a), s.rows[i]);
      if row.revokedAt.Some? then Ended(s', a.call, Failed(Revoked))
      else if row.expiresAt <= a.now then Ended(s', a.call, Failed(Expired))
      else PastReading(s', a.call)
  {
    FindUnique(s.rows, i);
  }

  lemma {:induction false} StaysEnded(s: State, actions: seq<Action>, c: nat, outcome: Outcome)
    requires Legal(s, actions) && Ended(s, c, outcome)
    ensures Ended(Exec(s, actions), c, outcome)
    decreases |actions|
  {
    if actions != [] {
      StaysEnded(Apply(s, actions[0]), actions[1..], c, outcome);
    }
  }

  lemma {:induction false} StaysPastReading(s: State, actions: seq<Action>, c: nat)
    requires Legal(s, actions) && PastReading(s, c)
    ensures PastReading(Exec(s, actions), c)
    decreases |actions|
  {
    if actions != [] {
      StaysPastReading(Apply(s, actions[0]), actions[1..], c);
    }
  }

  /**
   A call whose reading statement runs at or after the expiry the presented token was minted with is
   never refreshed, however the run goes on; one that reads in time never ends `expired`.
   */
  lemma {:induction false} ExpiryDecides(before: seq<Action>, a: Action, after: seq<Action>, i: nat) returns (j: nat)
    requires Legal(EMPTY, before) && Enabled(Exec(EMPTY, before), a)
    requires a.Run? && Exec(EMPTY, before).calls[a.call].stage.Reading?
    requires Legal(Apply(Exec(EMPTY, before), a), after)
    requires i < |Exec(EMPTY, before).rows|
      && Exec(EMPTY, before).rows[i].tokenHash == Exec(EMPTY, before).calls[a.call].tokenHash
    ensures j < |before| && MintedBy(before[j], Exec(EMPTY, before).rows[i])
    ensures var row := Exec(EMPTY, before).rows[i];
      var end := Exec(Apply(Exec(EMPTY, before), a), after);
      && (Ended(end, a.call, Failed(Expired)) <==> row.revokedAt.None? && row.expiresAt <= a.now)
      && (Ended(end, a.call, Failed(Revoked)) <==> row.revokedAt.Some?)
      && !Ended(end, a.call, Failed(NotFound))
      && (EndedRefreshed(end, a.call) ==> row.revokedAt.None? && a.now < row.expiresAt)
  {
    StructureReached(EMPTY, before);
    j := AsMinted(EMPTY, before, i);
    var s := Exec(EMPTY, before);
    ReadingSettles(s, a, i);
    hide Exec, Legal, Structure, Apply, Enabled, MintedBy;
    var s', row := Apply(s, a), s.rows[i];
    if row.revokedAt.Some? {
      StaysEnded(s', after, a.call, Failed(Revoked));
    } else if row.expiresAt <= a.now {
      StaysEnded(s', after, a.call, Failed(Expired));
    } else {
      StaysPastReading(s', after, a.call);
    }
  }

  /** A token nobody minted ends its call at once, and only such a token is not found. */
  lemma UnknownToken(s: State, a: Action)
    requires Structure(s) && Enabled(s, a) && a.Run? && s.calls[a.call].stage.Reading?
    ensures Ended(Apply(s, a), a.call, Failed(NotFound)) <==> Unused(s.rows, s.calls[a.call].tokenHash)
  {
  }
}
