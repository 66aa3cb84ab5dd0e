/**
 The durable queue walked by the billing retry worker and by the render worker: one worker,
 oldest rows first, a batch per pass, dead-lettering at the attempt limit.

 The two workers differ in their constants and in what a success stores, so one model takes a
 `Policy`. A row's id is its position; rows are kept in creation order.
 */
module RetryQueue {
  import opened Common

  /** `collectWithin` is present for the worker that stores a file to be collected. */
  datatype Policy = Policy(limit: nat, batch: nat, retryAfter: int, collectWithin: Option<int>) {
    predicate Valid() { limit >= 1 && batch >= 1 }
  }

  const BILLING := Policy(5, 50, 60_000, None)
  const RENDER := Policy(3, 10, 5_000, Some(24 * 60 * 60 * 1000))

  datatype File = File(png: string, collectBy: int)

  datatype Row = Row(
    createdAt: int, attempts: nat, processedAt: Option<int>, deadAt: Option<int>,
    error: Option<string>, file: Option<File>)
  {
    predicate Settled() { processedAt.Some? || deadAt.Some? }
  }

  type Table = seq<Row>

  /** What a handler does with a row; `note` is the reason a rendered file is incomplete. */
  datatype Outcome = Success(at: int, note: string, png: string) | Failure(at: int, message: string)

  /** Rows are listed in the order `ORDER BY createdAt` gives them. */
  ghost predicate Ordered(rows: Table) {
    forall i, j :: 0 <= i < j < |rows| ==> rows[i].createdAt < rows[j].createdAt
  }

  predicate Eligible(row: Row, cutoff: int) { !row.Settled() && row.createdAt < cutoff }

  /** How many eligible rows come before row `i`. */
  function Rank(rows: Table, cutoff: int, i: nat): nat
    requires i <= |rows|
  {
    if i == 0 then 0 else Rank(rows, cutoff, i - 1) + (if Eligible(rows[i - 1], cutoff) then 1 else 0)
  }

  predicate Selected(p: Policy, rows: Table, cutoff: int, i: nat) {
    i < |rows| && Eligible(rows[i], cutoff) && Rank(rows, cutoff, i) < p.batch
  }

  /** The row after a handler run, `attempts` having been counted when it was claimed. */
  function Worked(p: Policy, row: Row, outcome: Outcome): Row {
    match outcome
    case Success(at, note, png) =>
      if p.collectWithin.Some?
      then row.(processedAt := Some(at), error := if note == "" then None else Some(note),
                file := Some(File(png, at + p.collectWithin.value)))
      else row.(processedAt := Some(at), error := None)
    case Failure(at, message) =>
      row.(error := Some(message), deadAt := if row.attempts >= p.limit then Some(at) else None)
  }

  function Claimed(row: Row): Row { row.(attempts := row.attempts + 1) }

  /** What one pass makes of the table: the oldest eligible rows are worked once, nothing else moves. */
  function AfterPass(p: Policy, rows: Table, cutoff: int, handler: nat -> Outcome): (r: Table)
    ensures |r| == |rows|
  {
    seq(|rows|, i requires 0 <= i < |rows| =>
      if Selected(p, rows, cutoff, i) then Worked(p, Claimed(rows[i]), handler(i)) else rows[i])
  }

  // ---------------------------------------------------------------- the worker

  lemma {:induction false} RankGrows(rows: Table, cutoff: int, i: nat, j: nat)
    requires i <= j <= |rows|
    ensures Rank(rows, cutoff, i) <= Rank(rows, cutoff, j) <= Rank(rows, cutoff, i) + (j - i)
    decreases j - i
  {
    if i < j {
      RankGrows(rows, cutoff, i, j - 1);
    }
  }

  ghost predicate Ascending(ids: seq<nat>) { forall a, b :: 0 <= a < b < |ids| ==> ids[a] < ids[b] }

  function Members(ids: seq<nat>): set<nat> { set i | i in ids }

  function SelectedIds(p: Policy, rows: Table, cutoff: int): set<nat> {
    set i: nat | i < |rows| && Selected(p, rows, cutoff, i)
  }

  /** The claimed rows whose handler succeeds. */
  ghost function Finishing(ids: set<nat>, handler: nat -> Outcome): set<nat> {
    set i | i in ids && handler(i).Success?
  }

  /** The claimed rows that fail on their last attempt. */
  ghost function GivenUp(p: Policy, rows: Table, ids: set<nat>, handler: nat -> Outcome): set<nat> {
    set i | i in ids && i < |rows| && handler(i).Failure? && rows[i].attempts + 1 >= p.limit
  }

  lemma {:induction false} OneMoreMember(ids: seq<nat>, k: nat)
    requires k < |ids| && Ascending(ids)
    ensures Members(ids[..k + 1]) == Members(ids[..k]) + {ids[k]} && ids[k] !in Members(ids[..k])
  {
    assert ids[..k + 1] == ids[..k] + [ids[k]];
  }

  lemma {:induction false} FinishingGrows(ids: set<nat>, id: nat, handler: nat -> Outcome)
    requires id !in ids
    ensures |Finishing(ids + {id}, handler)| == |Finishing(ids, handler)| + (if handler(id).Success? then 1 else 0)
  {
    var before, after := Finishing(ids, handler), Finishing(ids + {id}, handler);
    if handler(id).Success? { assert after == before + {id}; } else { assert after == before; }
  }

  lemma {:induction false} GivenUpGrows(p: Policy, rows: Table, ids: set<nat>, id: nat, handler: nat -> Outcome)
    requires id !in ids && id < |rows|
    ensures |GivenUp(p, rows, ids + {id}, handler)| == |GivenUp(p, rows, ids, handler)|
            + (if handler(id).Failure? && rows[id].attempts + 1 >= p.limit then 1 else 0)
  {
    var before, after := GivenUp(p, rows, ids, handler), GivenUp(p, rows, ids + {id}, handler);
    if handler(id).Failure? && rows[id].attempts + 1 >= p.limit {
      assert after == before + {id};
    } else {
      assert after == before;
    }
  }

  /** The table in the middle of a pass: `ids` claimed, `seen` of them worked. */
  function Midway(p: Policy, rows: Table, ids: set<nat>, seen: set<nat>, handler: nat -> Outcome): Table {
    seq(|rows|, i requires 0 <= i < |rows| =>
      if i in seen then Worked(p, Claimed(rows[i]), handler(i))
      else if i in ids then Claimed(rows[i]) else rows[i])
  }

  lemma {:induction false} MidwayStep(p: Policy, rows: Table, ids: set<nat>, seen: set<nat>, id: nat,
    handler: nat -> Outcome)
    requires id < |rows| && id in ids && id !in seen
    ensures Midway(p, rows, ids, seen, handler)[id] == Claimed(rows[id])
    ensures Midway(p, rows, ids, seen + {id}, handler)
         == Midway(p, rows, ids, seen, handler)[id := Worked(p, Claimed(rows[id]), handler(id))]
  {
    hide Worked;
    assert forall i :: i in seen + {id} <==> i in seen || i == id;
  }

  lemma {:induction false} MidwayEnd(p: Policy, rows: Table, cutoff: int, handler: nat -> Outcome)
    ensures var ids := SelectedIds(p, rows, cutoff);
      Midway(p, rows, ids, ids, handler) == AfterPass(p, rows, cutoff, handler)
  {
    hide Worked;
  }

  lemma {:induction false} PassKeepsOrder(p: Policy, rows: Table, cutoff: int, handler: nat -> Outcome)
    requires Ordered(rows)
    ensures Ordered(AfterPass(p, rows, cutoff, handler))
  {
    var after := AfterPass(p, rows, cutoff, handler);
    forall i | 0 <= i < |rows| ensures after[i].createdAt == rows[i].createdAt {
      assert Worked(p, Claimed(rows[i]), handler(i)).createdAt == rows[i].createdAt;
    }
  }

  /** The table and the counters after `k` turns of a pass over `ids`. */
  ghost function Progress(p: Policy, rows: Table, ids: seq<nat>, k: nat, handler: nat -> Outcome): (Table, nat, nat)
    requires k <= |ids|
  {
    var seen := Members(ids[..k]);
    (Midway(p, rows, Members(ids), seen, handler), |Finishing(seen, handler)|, |GivenUp(p, rows, seen, handler)|)
  }

  lemma {:induction false} ProgressStep(p: Policy, rows: Table, ids: seq<nat>, k: nat, handler: nat -> Outcome)
    requires k < |ids| && Ascending(ids) && ids[k] < |rows|
    ensures var (was, done, dead) := Progress(p, rows, ids, k, handler);
      var id, outcome := ids[k], handler(ids[k]);
      && |was| == |rows| && was[id] == Claimed(rows[id])
      && Progress(p, rows, ids, k + 1, handler) ==
           (was[id := Worked(p, was[id], outcome)], done + (if outcome.Success? then 1 else 0),
            dead + (if outcome.Failure? && was[id].attempts >= p.limit then 1 else 0))
  {
    var id, seen := ids[k], Members(ids[..k]);
    OneMoreMember(ids, k);
    assert id in Members(ids);
    FinishingGrows(seen, id, handler);
    GivenUpGrows(p, rows, seen, id, handler);
    MidwayStep(p, rows, Members(ids), seen, id, handler);
    hide Worked, Midway, Finishing, GivenUp, Members;
  }

  lemma {:induction false} ProgressEnds(p: Policy, rows: Table, ids: seq<nat>, cutoff: int, handler: nat -> Outcome)
    requires Ascending(ids) && Members(ids) == SelectedIds(p, rows, cutoff)
    ensures var all := SelectedIds(p, rows, cutoff);
      && |all| == |ids|
      && Progress(p, rows, ids, 0, handler) == (Midway(p, rows, all, {}, handler), 0, 0)
      && Progress(p, rows, ids, |ids|, handler) ==
           (AfterPass(p, rows, cutoff, handler), |Finishing(all, handler)|, |GivenUp(p, rows, all, handler)|)
  {
    MidwayEnd(p, rows, cutoff, handler);
    assert ids[..|ids|] == ids && Members(ids[..0]) == {};
    assert Finishing({}, handler) == {} && GivenUp(p, rows, {}, handler) == {};
    MemberCount(ids);
  }

  lemma {:induction false} MemberCount(ids: seq<nat>)
    requires Ascending(ids)
    ensures |Members(ids)| == |ids|
  {
    if ids == [] {
      assert Members(ids) == {};
    } else {
      var k := |ids| - 1;
      MemberCount(ids[..k]);
      OneMoreMember(ids, k);
      assert ids[..k + 1] == ids;
    }
  }

  /** The claim took exactly the selected rows, oldest first, and counted an attempt on each. */
  ghost predicate ClaimTook(p: Policy, was: Table, rows: Table, cutoff: int, ids: seq<nat>) {
    && Ascending(ids) && |ids| <= p.batch && |rows| == |was|
    && Members(ids) == SelectedIds(p, was, cutoff)
    && (forall i: nat :: i < |rows| ==> rows[i] == (if i in ids then Claimed(was[i]) else was[i]))
  }

  lemma {:induction false} PassBegins(p: Policy, was: Table, rows: Table, cutoff: int, ids: seq<nat>,
    handler: nat -> Outcome)
    requires ClaimTook(p, was, rows, cutoff, ids)
    ensures Progress(p, was, ids, 0, handler) == (rows, 0, 0)
    ensures Ascending(ids) && |ids| <= p.batch
    ensures forall k :: 0 <= k < |ids| ==> ids[k] < |was|
  {
    ProgressEnds(p, was, ids, cutoff, handler);
    forall k | 0 <= k < |ids| ensures ids[k] < |was| {
      assert ids[k] in Members(ids);
    }
    assert rows == Midway(p, was, SelectedIds(p, was, cutoff), {}, handler);
  }

  lemma {:induction false} PassEnds(p: Policy, was: Table, rows: Table, cutoff: int, ids: seq<nat>,
    handler: nat -> Outcome)
    requires ClaimTook(p, was, rows, cutoff, ids) && Ordered(was)
    ensures var all := SelectedIds(p, was, cutoff);
      && |all| == |ids|
      && Progress(p, was, ids, |ids|, handler) ==
           (AfterPass(p, was, cutoff, handler), |Finishing(all, handler)|, |GivenUp(p, was, all, handler)|)
    ensures Ordered(AfterPass(p, was, cutoff, handler))
  {
    ProgressEnds(p, was, ids, cutoff, handler);
    PassKeepsOrder(p, was, cutoff, handler);
  }

  // ---- A pass column by column ----

  /** Never finished, not given up on, and old enough that the request which wrote it is over. */
  ghost predicate Waiting(row: Row, cutoff: int) {
    row.processedAt.None? && row.deadAt.None? && row.createdAt < cutoff
  }

  ghost function WaitingBefore(rows: Table, cutoff: int, i: nat): set<nat> {
    set j: nat | j < i && j < |rows| && Waiting(rows[j], cutoff)
  }

  /** A waiting row with room in the batch behind the older ones. */
  ghost predicate Taken(rows: Table, cutoff: int, batch: nat, i: nat) {
    i < |rows| && Waiting(rows[i], cutoff) && |WaitingBefore(rows, cutoff, i)| < batch
  }

  ghost function TakenRows(rows: Table, cutoff: int, batch: nat): set<nat> {
    set i: nat | i < |rows| && Taken(rows, cutoff, batch, i)
  }

  /** What one attempt makes of a row. */
  ghost predicate WorkedOnce(was: Row, now: Row, limit: nat, collectWithin: Option<int>, outcome: Outcome) {
    && now.createdAt == was.createdAt && now.attempts == was.attempts + 1
    && (match outcome
        case Success(at, note, png) =>
          && now.processedAt == Some(at) && now.deadAt == was.deadAt
          && (match collectWithin
              case None => now.error.None? && now.file == was.file
              case Some(within) =>
                && now.file == Some(File(png, at + within))
                && (if note == "" then now.error.None? else now.error == Some(note)))
        case Failure(at, message) =>
          && now.processedAt == was.processedAt && now.file == was.file && now.error == Some(message)
          && now.deadAt == (if was.attempts + 1 >= limit then Some(at) else None))
  }

  /** What one pass makes of a table: the taken rows are worked once each and every other row is as it was. */
  ghost predicate PassMakes(
    was: Table, now: Table, limit: nat, batch: nat, cutoff: int, collectWithin: Option<int>, handler: nat -> Outcome)
  {
    && |now| == |was|
    && forall i: nat :: i < |was| ==>
         if Taken(was, cutoff, batch, i) then WorkedOnce(was[i], now[i], limit, collectWithin, handler(i))
         else now[i] == was[i]
  }

  lemma {:induction false} RankCountsWaiting(rows: Table, cutoff: int, i: nat)
    requires i <= |rows|
    ensures Rank(rows, cutoff, i) == |WaitingBefore(rows, cutoff, i)|
  {
    if i > 0 {
      RankCountsWaiting(rows, cutoff, i - 1);
      var before, now := WaitingBefore(rows, cutoff, i - 1), WaitingBefore(rows, cutoff, i);
      assert now == before + (if Waiting(rows[i - 1], cutoff) then {i - 1} else {});
    } else {
      assert WaitingBefore(rows, cutoff, 0) == {};
    }
  }

  lemma {:induction false} SelectedIsTaken(p: Policy, rows: Table, cutoff: int)
    ensures forall i: nat :: Selected(p, rows, cutoff, i) <==> Taken(rows, cutoff, p.batch, i)
    ensures SelectedIds(p, rows, cutoff) == TakenRows(rows, cutoff, p.batch)
  {
    forall i: nat ensures Selected(p, rows, cutoff, i) <==> Taken(rows, cutoff, p.batch, i) {
      if i < |rows| { RankCountsWaiting(rows, cutoff, i); }
    }
  }

  lemma {:induction false} PassByColumns(p: Policy, rows: Table, cutoff: int, handler: nat -> Outcome)
    ensures PassMakes(rows, AfterPass(p, rows, cutoff, handler), p.limit, p.batch, cutoff, p.collectWithin, handler)
  {
    SelectedIsTaken(p, rows, cutoff);
    hide Selected, Taken;
  }

  /** The billing worker: five attempts, fifty rows a pass, none younger than a minute. */
  lemma BillingPass(rows: Table, now: int, handler: nat -> Outcome)
    ensures PassMakes(rows, AfterPass(BILLING, rows, now - BILLING.retryAfter, handler),
                      5, 50, now - 60_000, None, handler)
  {
    PassByColumns(BILLING, rows, now - BILLING.retryAfter, handler);
  }

  /** The render worker: three attempts, ten rows a pass, none younger than five seconds, a day to collect a file. */
  lemma RenderPass(rows: Table, now: int, handler: nat -> Outcome)
    ensures PassMakes(rows, AfterPass(RENDER, rows, now - RENDER.retryAfter, handler),
                      3, 10, now - 5_000, Some(86_400_000), handler)
  {
    PassByColumns(RENDER, rows, now - RENDER.retryAfter, handler);
  }

  class Worker {
    const policy: Policy
    var rows: Table

    constructor (p: Policy)
      ensures policy == p && rows == []
    {
      policy := p;
      rows := [];
    }

    method Accept(row: Row)
      requires Ordered(rows + [row])
      modifies this`rows
      ensures rows == old(rows) + [row]
    {
      rows := rows + [row];
    }

    /** The short claiming transaction: at most a batch, oldest first, each attempt counted at once. */
    method Claim(cutoff: int) returns (ids: seq<nat>)
      requires Ordered(rows)
      modifies this`rows
      ensures ClaimTook(policy, old(rows), rows, cutoff, ids)
      ensures Ascending(ids) && |rows| == |old(rows)|
      ensures forall i: nat :: i in ids <==> Taken(old(rows), cutoff, policy.batch, i)
      ensures forall i: nat :: i < |rows| ==>
        rows[i] == if i in ids then old(rows)[i].(attempts := old(rows)[i].attempts + 1) else old(rows)[i]
    {
      SelectedIsTaken(policy, rows, cutoff);
      ids := [];
      var i, was := 0, rows;
      while i < |was| && |ids| < policy.batch
        invariant i <= |was| && rows == was
        invariant |ids| == Rank(was, cutoff, i) <= policy.batch
        invariant Ascending(ids)
        invariant forall k :: 0 <= k < |ids| ==> ids[k] < i
        invariant forall k: nat :: k in ids <==> k < i && Selected(policy, was, cutoff, k)
      {
        if Eligible(was[i], cutoff) {
          ids := ids + [i];
        }
        i := i + 1;
      }
      forall k: nat | Selected(policy, was, cutoff, k) ensures k < i {
        if k >= i { RankGrows(was, cutoff, i, k); }
      }
      rows := seq(|was|, k requires 0 <= k < |was| => if k in ids then Claimed(was[k]) else was[k]);
    }

    /** One turn of the worker's loop: the write that follows a handler's success or failure. */
    method Settle(id: nat, outcome: Outcome) returns (dead: bool)
      requires id < |rows|
      modifies this`rows
      ensures rows == old(rows)[id := Worked(policy, old(rows)[id], outcome)]
      ensures dead <==> outcome.Failure? && old(rows)[id].attempts >= policy.limit
    {
      var row := rows[id];
      if outcome.Success? {
        dead := false;
        row := row.(processedAt := Some(outcome.at), error := None);
        if policy.collectWithin.Some? {
          row := row.(error := if outcome.note == "" then None else Some(outcome.note),
                      file := Some(File(outcome.png, outcome.at + policy.collectWithin.value)));
        }
      } else {
        dead := row.attempts >= policy.limit;
        row := row.(error := Some(outcome.message), deadAt := if dead then Some(outcome.at) else None);
      }
      rows := rows[id := row];
    }

    /** One pass of `retryPending` or `renderPending`, and the counts it reports. */
    method RunPass(now: int, handler: nat -> Outcome) returns (taken: nat, done: nat, deadLettered: nat)
      requires Ordered(rows)
      modifies this`rows
      ensures rows == AfterPass(policy, old(rows), now - policy.retryAfter, handler) && Ordered(rows)
      ensures PassMakes(old(rows), rows, policy.limit, policy.batch, now - policy.retryAfter,
                        policy.collectWithin, handler)
      ensures var ids := TakenRows(old(rows), now - policy.retryAfter, policy.batch);
        && taken == |ids| <= policy.batch
        && done == |Finishing(ids, handler)|
        && deadLettered == |GivenUp(policy, old(rows), ids, handler)|
    {
      hide *;
      var cutoff := now - policy.retryAfter;
      var ids := Claim(cutoff);
      taken, done, deadLettered := |ids|, 0, 0;
      ghost var was := old(rows);
      PassBegins(policy, was, rows, cutoff, ids, handler);
      PassEnds(policy, was, rows, cutoff, ids, handler);
      PassByColumns(policy, was, cutoff, handler);
      SelectedIsTaken(policy, was, cutoff);
      var k := 0;
      while k < |ids|
        invariant k <= |ids|
        invariant (rows, done, deadLettered) == Progress(policy, was, ids, k, handler)
      {
        var id := ids[k];
        ProgressStep(policy, was, ids, k, handler);
        var outcome := handler(id);
        var dead := Settle(id, outcome);
        if outcome.Success? {
          done := done + 1;
        } else if dead {
          deadLettered := deadLettered + 1;
        }
        k := k + 1;
      }
    }
  }

  // ---------------------------------------------------------------- whole runs

  /** One pass at its moment, with the handler it meets and the rows accepted after it. */
  datatype Turn = Turn(now: int, handler: nat -> Outcome, arrivals: Table)

  function AfterTurn(p: Policy, rows: Table, turn: Turn): Table {
    AfterPass(p, rows, turn.now - p.retryAfter, turn.handler) + turn.arrivals
  }

  ghost function Run(p: Policy, rows: Table, turns: seq<Turn>): Table
    decreases |turns|
  {
    if turns == [] then rows
    else Run(p, AfterTurn(p, rows, turns[0]), turns[1..])
  }

  /** The first `n` rows are old enough for every pass. */
  ghost predicate OldEnough(p: Policy, rows: Table, n: nat, turns: seq<Turn>) {
    n <= |rows| && forall t, i :: 0 <= t < |turns| && 0 <= i < n ==> rows[i].createdAt < turns[t].now - p.retryAfter
  }

  /** The row a pass leaves behind depends on the row, its handler and whether it was selected. */
  lemma RowAfterPass(p: Policy, rows: Table, cutoff: int, handler: nat -> Outcome, i: nat)
    requires i < |rows|
    ensures AfterPass(p, rows, cutoff, handler)[i]
         == if Selected(p, rows, cutoff, i) then Worked(p, Claimed(rows[i]), handler(i)) else rows[i]
    ensures rows[i].Settled() ==> AfterPass(p, rows, cutoff, handler)[i] == rows[i]
    ensures Selected(p, rows, cutoff, i) ==>
      var after := AfterPass(p, rows, cutoff, handler)[i];
      && after.attempts == rows[i].attempts + 1 && after.createdAt == rows[i].createdAt
      && (after.Settled() <==> handler(i).Success? || after.attempts >= p.limit)
  {
  }

  /** A settled row is left alone, by every later pass of any run. */
  lemma {:induction false} SettledForGood(p: Policy, rows: Table, turns: seq<Turn>, i: nat)
    requires i < |rows| && rows[i].Settled()
    ensures i < |Run(p, rows, turns)| && Run(p, rows, turns)[i] == rows[i]
    decreases |turns|
  {
    if turns != [] {
      RowAfterPass(p, rows, turns[0].now - p.retryAfter, turns[0].handler, i);
      SettledForGood(p, AfterTurn(p, rows, turns[0]), turns[1..], i);
    }
  }

  ghost predicate FirstSettled(rows: Table, n: nat) {
    n <= |rows| && forall i :: 0 <= i < n ==> rows[i].Settled()
  }

  /** Rows `n..m` have each been worked `k` times, unless settled before that. */
  ghost predicate WorkedOften(rows: Table, n: nat, m: nat, k: nat) {
    m <= |rows| && forall i :: n <= i < m ==> rows[i].Settled() || rows[i].attempts >= k
  }

  lemma {:induction false} RankBehindSettled(rows: Table, cutoff: int, n: nat, i: nat)
    requires FirstSettled(rows, n) && n <= i <= |rows|
    ensures Rank(rows, cutoff, i) <= i - n
    decreases i
  {
    RankGrows(rows, cutoff, n, i);
    NoneEligible(rows, cutoff, n);
  }

  lemma {:induction false} NoneEligible(rows: Table, cutoff: int, n: nat)
    requires FirstSettled(rows, n)
    ensures Rank(rows, cutoff, n) == 0
  {
    if n > 0 { NoneEligible(rows, cutoff, n - 1); }
  }

  /** With the first `n` rows settled, a pass works every unsettled row of the next batch. */
  lemma {:induction false} PassWorksNextBatch(p: Policy, rows: Table, turn: Turn, n: nat, m: nat, k: nat)
    requires FirstSettled(rows, n) && n <= m <= n + p.batch && WorkedOften(rows, n, m, k)
    requires OldEnough(p, rows, m, [turn])
    ensures var after := AfterTurn(p, rows, turn);
      FirstSettled(after, n) && WorkedOften(after, n, m, k + 1) && (k + 1 >= p.limit ==> FirstSettled(after, m))
  {
    var cutoff := turn.now - p.retryAfter;
    forall i | 0 <= i < m
      ensures var row := AfterTurn(p, rows, turn)[i];
        if rows[i].Settled() then row == rows[i]
        else row.attempts >= k + 1 && (k + 1 >= p.limit ==> row.Settled())
    {
      RowAfterPass(p, rows, cutoff, turn.handler, i);
      if !rows[i].Settled() {
        RankBehindSettled(rows, cutoff, n, i);
        assert rows[i].createdAt < [turn][0].now - p.retryAfter;
      }
    }
  }

  lemma {:induction false} TurnKeepsAge(p: Policy, rows: Table, turns: seq<Turn>, m: nat)
    requires turns != [] && OldEnough(p, rows, m, turns)
    ensures OldEnough(p, rows, m, turns[..1]) && OldEnough(p, AfterTurn(p, rows, turns[0]), m, turns[1..])
  {
    forall i | 0 <= i < m ensures AfterTurn(p, rows, turns[0])[i].createdAt == rows[i].createdAt {
      RowAfterPass(p, rows, turns[0].now - p.retryAfter, turns[0].handler, i);
    }
  }

  /** Enough further passes settle the next batch. */
  lemma {:induction false} BatchSettles(p: Policy, rows: Table, turns: seq<Turn>, n: nat, m: nat, k: nat)
    requires p.Valid() && FirstSettled(rows, n) && n <= m <= n + p.batch && WorkedOften(rows, n, m, k)
    requires OldEnough(p, rows, m, turns) && k + |turns| == p.limit && |turns| >= 1
    ensures FirstSettled(Run(p, rows, turns), m)
    decreases |turns|
  {
    TurnKeepsAge(p, rows, turns, m);
    assert turns[..1] == [turns[0]];
    PassWorksNextBatch(p, rows, turns[0], n, m, k);
    if |turns| > 1 {
      BatchSettles(p, AfterTurn(p, rows, turns[0]), turns[1..], n, m, k + 1);
    }
  }

  lemma {:induction false} RunInTwo(p: Policy, rows: Table, first: seq<Turn>, second: seq<Turn>)
    ensures Run(p, rows, first + second) == Run(p, Run(p, rows, first), second)
    decreases |first|
  {
    if first == [] {
      assert first + second == second;
    } else {
      assert (first + second)[1..] == first[1..] + second;
      RunInTwo(p, AfterTurn(p, rows, first[0]), first[1..], second);
    }
  }

  lemma {:induction false} RunKeepsAge(p: Policy, rows: Table, first: seq<Turn>, second: seq<Turn>, m: nat)
    requires OldEnough(p, rows, m, first + second)
    ensures OldEnough(p, Run(p, rows, first), m, second)
    decreases |first|
  {
    if first == [] {
      assert first + second == second;
    } else {
      TurnKeepsAge(p, rows, first + second, m);
      assert (first + second)[1..] == first[1..] + second;
      RunKeepsAge(p, AfterTurn(p, rows, first[0]), first[1..], second, m);
    }
  }

  /** How many batches `n` rows fill. */
  function Batches(p: Policy, n: nat): nat
    requires p.Valid()
  {
    (n + p.batch - 1) / p.batch
  }

  function PassesFor(p: Policy, groups: nat): nat { p.limit * groups }

  function RowsIn(p: Policy, groups: nat): nat { p.batch * groups }

  lemma OneMoreGroup(p: Policy, groups: nat)
    requires groups > 0
    ensures PassesFor(p, groups) == PassesFor(p, groups - 1) + p.limit
    ensures RowsIn(p, groups) == RowsIn(p, groups - 1) + p.batch
  {
  }

  lemma EnoughGroups(p: Policy, n: nat)
    requires p.Valid()
    ensures RowsIn(p, Batches(p, n)) >= n
  {
  }

  lemma {:induction false} GroupsSettle(p: Policy, rows: Table, n: nat, turns: seq<Turn>, groups: nat)
    requires p.Valid() && OldEnough(p, rows, n, turns) && |turns| == PassesFor(p, groups)
    ensures FirstSettled(Run(p, rows, turns), MinNat(n, RowsIn(p, groups)))
    decreases groups
  {
    if groups > 0 {
      OneMoreGroup(p, groups);
      hide PassesFor, RowsIn, Run;
      var cut := PassesFor(p, groups - 1);
      var early, late := turns[..cut], turns[cut..];
      assert turns == early + late;
      RunKeepsAge(p, rows, early, late, n);
      RunInTwo(p, rows, early, late);
      EarlierKeepsAge(p, rows, early, late, n);
      GroupsSettle(p, rows, n, early, groups - 1);
      var m := MinNat(n, RowsIn(p, groups));
      FewerRows(p, Run(p, rows, early), n, m, late);
      BatchSettles(p, Run(p, rows, early), late, MinNat(n, RowsIn(p, groups - 1)), m, 0);
    }
  }

  lemma FewerRows(p: Policy, rows: Table, n: nat, m: nat, turns: seq<Turn>)
    requires OldEnough(p, rows, n, turns) && m <= n
    ensures OldEnough(p, rows, m, turns)
  {
  }

  lemma EarlierKeepsAge(p: Policy, rows: Table, early: seq<Turn>, late: seq<Turn>, n: nat)
    requires OldEnough(p, rows, n, early + late)
    ensures OldEnough(p, rows, n, early)
  {
    assert forall t :: 0 <= t < |early| ==> (early + late)[t] == early[t];
  }

  /**
   Every stored row is settled in bounded time, whatever the handlers do and however many
   rows arrive meanwhile: `limit` passes per batch of rows that were waiting.
   */
  lemma {:induction false} SettledInBoundedTime(p: Policy, rows: Table, n: nat, turns: seq<Turn>)
    requires p.Valid() && OldEnough(p, rows, n, turns) && |turns| >= p.limit * Batches(p, n)
    ensures FirstSettled(Run(p, rows, turns), n)
  {
    var cut := PassesFor(p, Batches(p, n));
    var early, late := turns[..cut], turns[cut..];
    assert turns == early + late;
    EnoughGroups(p, n);
    hide PassesFor, RowsIn, Batches, Run;
    EarlierKeepsAge(p, rows, early, late, n);
    GroupsSettle(p, rows, n, early, Batches(p, n));
    RunInTwo(p, rows, early, late);
    forall i | 0 <= i < n ensures i < |Run(p, rows, turns)| && Run(p, rows, turns)[i].Settled() {
      SettledForGood(p, Run(p, rows, early), late, i);
    }
    if n > 0 { SettledForGood(p, Run(p, rows, early), late, n - 1); }
  }

  /** For billing events: five passes for every fifty rows older than a minute. */
  lemma {:induction false} BillingEventsSettle(rows: Table, n: nat, turns: seq<Turn>)
    requires n <= |rows| && forall t, i :: 0 <= t < |turns| && 0 <= i < n ==> rows[i].createdAt < turns[t].now - 60_000
    requires |turns| >= 5 * ((n + 49) / 50)
    ensures FirstSettled(Run(BILLING, rows, turns), n)
  {
    SettledInBoundedTime(BILLING, rows, n, turns);
  }

  /** For render jobs: three passes for every ten rows older than five seconds. */
  lemma {:induction false} RenderJobsSettle(rows: Table, n: nat, turns: seq<Turn>)
    requires n <= |rows| && forall t, i :: 0 <= t < |turns| && 0 <= i < n ==> rows[i].createdAt < turns[t].now - 5_000
    requires |turns| >= 3 * ((n + 9) / 10)
    ensures FirstSettled(Run(RENDER, rows, turns), n)
  {
    SettledInBoundedTime(RENDER, rows, n, turns);
  }

  // ---------------------------------------------------------------- the bound is reached

  ghost predicate AlwaysFails(turns: seq<Turn>) {
    forall t, i: nat :: 0 <= t < |turns| ==> turns[t].handler(i).Failure?
  }

  /** Rows before `lo` are settled, the batch at `lo` has failed `j` times, the rest is untouched. */
  ghost predicate Stuck(p: Policy, rows: Table, n: nat, lo: nat, j: nat) {
    && lo <= n <= |rows|
    && (forall i :: 0 <= i < lo ==> rows[i].Settled())
    && (forall i :: lo <= i < n ==> !rows[i].Settled() && rows[i].attempts == if i < lo + p.batch then j else 0)
  }

  lemma {:induction false} RankCountsRow(rows: Table, cutoff: int, n: nat, i: nat)
    requires FirstSettled(rows, n) && n <= i <= |rows| && forall k :: n <= k < i ==> Eligible(rows[k], cutoff)
    ensures Rank(rows, cutoff, i) == i - n
    decreases i
  {
    if i == n { NoneEligible(rows, cutoff, n); } else { RankCountsRow(rows, cutoff, n, i - 1); }
  }

  lemma {:induction false} FailingPass(p: Policy, rows: Table, turns: seq<Turn>, n: nat, lo: nat, j: nat)
    requires p.Valid() && Stuck(p, rows, n, lo, j) && j < p.limit
    requires turns != [] && OldEnough(p, rows, n, turns) && AlwaysFails(turns)
    ensures var after := AfterTurn(p, rows, turns[0]);
      if j + 1 < p.limit then Stuck(p, after, n, lo, j + 1) else Stuck(p, after, n, MinNat(n, lo + p.batch), 0)
  {
    var cutoff := turns[0].now - p.retryAfter;
    forall i | 0 <= i < n
      ensures var row := AfterTurn(p, rows, turns[0])[i];
        if lo <= i < lo + p.batch then row.attempts == j + 1 && (row.Settled() <==> j + 1 >= p.limit)
        else row == rows[i]
    {
      RowAfterPass(p, rows, cutoff, turns[0].handler, i);
      if lo <= i {
        assert rows[i].createdAt < cutoff;
        RankCountsRow(rows, cutoff, lo, i);
      }
    }
  }

  lemma {:induction false} StaysStuck(p: Policy, rows: Table, n: nat, lo: nat, j: nat, groups: nat, turns: seq<Turn>)
    requires p.Valid() && Stuck(p, rows, n, lo, j) && j < p.limit
    requires OldEnough(p, rows, n, turns) && AlwaysFails(turns)
    requires lo + RowsIn(p, groups) < n && |turns| < p.limit - j + PassesFor(p, groups)
    ensures !FirstSettled(Run(p, rows, turns), n)
    decreases |turns|
  {
    if turns == [] {
      assert PassesFor(p, groups) >= 0 && RowsIn(p, groups) >= 0;
      assert !rows[lo].Settled();
    } else {
      assert groups == 0 ==> PassesFor(p, groups) == 0;
      if groups > 0 { OneMoreGroup(p, groups); }
      FailingPass(p, rows, turns, n, lo, j);
      TurnKeepsAge(p, rows, turns, n);
      hide PassesFor, RowsIn, Stuck, AfterTurn, OldEnough;
      if j + 1 < p.limit {
        StaysStuck(p, AfterTurn(p, rows, turns[0]), n, lo, j + 1, groups, turns[1..]);
      } else {
        StaysStuck(p, AfterTurn(p, rows, turns[0]), n, lo + p.batch, 0, groups - 1, turns[1..]);
      }
    }
  }

  /** The bound is exact: with handlers that always fail, one pass fewer leaves a row unsettled. */
  lemma {:induction false} BoundIsReached(p: Policy, rows: Table, n: nat, turns: seq<Turn>)
    requires p.Valid() && 1 <= n && OldEnough(p, rows, n, turns) && AlwaysFails(turns)
    requires forall i :: 0 <= i < n ==> !rows[i].Settled() && rows[i].attempts == 0
    requires |turns| < p.limit * Batches(p, n)
    ensures !FirstSettled(Run(p, rows, turns), n)
  {
    var groups := Batches(p, n);
    FewerGroups(p, n);
    OneMoreGroup(p, groups);
    assert PassesFor(p, groups) == p.limit * groups;
    hide PassesFor, RowsIn, Batches;
    StaysStuck(p, rows, n, 0, 0, groups - 1, turns);
  }

  lemma FewerGroups(p: Policy, n: nat)
    requires p.Valid() && n >= 1
    ensures Batches(p, n) >= 1 && RowsIn(p, Batches(p, n) - 1) < n
  {
  }
}
