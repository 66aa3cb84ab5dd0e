/**
 Webhook deliveries and retry passes over the `billing_events` table, interleaved statement by
 statement: the insert that claims an event, the lookup after a duplicate, the handler run, and
 the write that follows it. Any step may be a thread's last.

 A row's id is its position. The handler is arbitrary: its verdict comes with the step. Every
 handler run is recorded in `log`.
 */
module Webhook {
  import opened Common

  const MAX_ATTEMPTS: nat := 5
  const BATCH: nat := 50

  datatype Key = Key(provider: string, eventId: string)

  datatype Row = Row(
    key: Key, createdAt: int, attempts: nat,
    processedAt: Option<int>, deadAt: Option<int>, error: Option<string>)

  type Table = seq<Row>

  /** How a handler run, or the write that marks its success, ends. Both failures reach the same catch. */
  datatype Verdict = Succeeds | Fails(message: string)

  datatype Answer = Processed | Duplicate | Rethrown

  datatype DeliveryStage =
    | Inserting | LookingUp | Running(row: nat)
    | Marking(row: nat) | Recording(row: nat, message: string) | Answered(answer: Answer)

  /** A row taken by a retry pass, with the attempt count the pass read. */
  datatype Claim = Claim(row: nat, attempts: nat)

  datatype PassStage =
    | Selecting | Walking(todo: seq<Claim>)
    | PassMarking(claim: Claim, rest: seq<Claim>) | PassRecording(claim: Claim, message: string, rest: seq<Claim>)

  datatype Thread = Delivery(key: Key, stage: DeliveryStage) | Pass(cutoff: int, phase: PassStage) | Gone

  /** One handler run. */
  datatype HandlerRun = HandlerRun(row: nat, succeeded: bool)

  datatype State = State(rows: Table, threads: seq<Thread>, log: seq<HandlerRun>)

  datatype Action =
    | Deliver(key: Key)
    | StartPass(cutoff: int)
    | Step(thread: nat, now: int, verdict: Verdict, chosen: seq<nat>)
    | Crash(thread: nat)

  const EMPTY := State([], [], [])

  function FindByKey(rows: Table, key: Key): (r: Option<nat>)
    ensures r.Some? ==> r.value < |rows| && rows[r.value].key == key
    ensures r.None? ==> forall i :: 0 <= i < |rows| ==> rows[i].key != key
  {
    if rows == [] then None
    else if rows[|rows| - 1].key == key then Some(|rows| - 1)
    else FindByKey(rows[..|rows| - 1], key)
  }

  /** A claim locks any set of old, unfinished, living rows; locked rows of other workers are skipped. */
  predicate MayClaim(rows: Table, cutoff: int, chosen: seq<nat>) {
    && |chosen| <= BATCH
    && (forall a, b :: 0 <= a < b < |chosen| ==> chosen[a] != chosen[b])
    && (forall a :: 0 <= a < |chosen| ==>
         chosen[a] < |rows| && rows[chosen[a]].processedAt.None? && rows[chosen[a]].deadAt.None?
         && rows[chosen[a]].createdAt < cutoff)
  }

  predicate Finished(t: Thread) {
    t.Gone? || (t.Delivery? && t.stage.Answered?) || (t.Pass? && t.phase == Walking([]))
  }

  predicate Enabled(s: State, a: Action) {
    match a
    case Deliver(_) => true
    case StartPass(_) => true
    case Crash(t) => t < |s.threads| && !Finished(s.threads[t])
    case Step(t, _, _, chosen) =>
      && t < |s.threads| && !Finished(s.threads[t])
      && (s.threads[t].Pass? && s.threads[t].phase.Selecting? ==> MayClaim(s.rows, s.threads[t].cutoff, chosen))
  }

  function NewRow(key: Key, now: int): Row { Row(key, now, 0, None, None, None) }

  function StepDelivery(rows: Table, key: Key, stage: DeliveryStage, now: int, verdict: Verdict):
    (Table, DeliveryStage, seq<HandlerRun>)
  {
    match stage
    case Inserting =>
      if FindByKey(rows, key).None? then (rows + [NewRow(key, now)], Running(|rows|), [])
      else (rows, LookingUp, [])
    case LookingUp =>
      var found := FindByKey(rows, key);
      if found.None? || rows[found.value].processedAt.Some? then (rows, Answered(Duplicate), [])
      else (rows, Running(found.value), [])
    case Running(r) =>
      (match verdict
       case Succeeds => (rows, Marking(r), [HandlerRun(r, true)])
       case Fails(message) => (rows, Recording(r, message), [HandlerRun(r, false)]))
    case Marking(r) =>
      if r >= |rows| then (rows, stage, []) else
      (match verdict
       case Succeeds => (rows[r := rows[r].(processedAt := Some(now), error := None)], Answered(Processed), [])
       case Fails(message) => (rows, Recording(r, message), []))
    case Recording(r, message) =>
      if r < |rows| then (rows[r := rows[r].(error := Some(message))], Answered(Rethrown), [])
      else (rows, stage, [])
    case Answered(_) => (rows, stage, [])
  }

  function Claimed(rows: Table, chosen: seq<nat>): (r: Table)
    ensures |r| == |rows|
  {
    seq(|rows|, i requires 0 <= i < |rows| =>
      if i in chosen then rows[i].(attempts := rows[i].attempts + 1) else rows[i])
  }

  function StepPass(rows: Table, cutoff: int, phase: PassStage, now: int, verdict: Verdict, chosen: seq<nat>):
    (Table, PassStage, seq<HandlerRun>)
    requires phase.Selecting? ==> MayClaim(rows, cutoff, chosen)
  {
    match phase
    case Selecting =>
      (Claimed(rows, chosen),
       Walking(seq(|chosen|, a requires 0 <= a < |chosen| => Claim(chosen[a], rows[chosen[a]].attempts + 1))), [])
    case Walking(todo) =>
      if todo == [] then (rows, phase, []) else
      (match verdict
       case Succeeds => (rows, PassMarking(todo[0], todo[1..]), [HandlerRun(todo[0].row, true)])
       case Fails(message) => (rows, PassRecording(todo[0], message, todo[1..]), [HandlerRun(todo[0].row, false)]))
    case PassMarking(c, rest) =>
      if c.row >= |rows| then (rows, phase, []) else
      (match verdict
       case Succeeds =>
         var marked := rows[c.row].(processedAt := Some(now), error := None, attempts := c.attempts);
         (rows[c.row := marked], Walking(rest), [])
       case Fails(message) => (rows, PassRecording(c, message, rest), []))
    case PassRecording(c, message, rest) =>
      if c.row < |rows| then
        (rows[c.row := rows[c.row].(error := Some(message), attempts := c.attempts,
                                    deadAt := if c.attempts >= MAX_ATTEMPTS then Some(now) else None)],
         Walking(rest), [])
      else (rows, phase, [])
  }

  function Apply(s: State, a: Action): State
    requires Enabled(s, a)
  {
    match a
    case Deliver(key) => s.(threads := s.threads + [Delivery(key, Inserting)])
    case StartPass(cutoff) => s.(threads := s.threads + [Pass(cutoff, Selecting)])
    case Crash(t) => s.(threads := s.threads[t := Gone])
    case Step(t, now, verdict, chosen) =>
      (match s.threads[t]
       case Delivery(key, stage) =>
         var (rows, stage', ran) := StepDelivery(s.rows, key, stage, now, verdict);
         State(rows, s.threads[t := Delivery(key, stage')], s.log + ran)
       case Pass(cutoff, phase) =>
         var (rows, phase', ran) := StepPass(s.rows, cutoff, phase, now, verdict, chosen);
         State(rows, s.threads[t := Pass(cutoff, phase')], s.log + ran)
       case Gone => s)
  }

  ghost predicate Legal(s: State, actions: seq<Action>)
    decreases |actions|
  {
    actions == [] || (Enabled(s, actions[0]) && Legal(Apply(s, actions[0]), actions[1..]))
  }

  ghost function Exec(s: State, actions: seq<Action>): State
    requires Legal(s, actions)
    decreases |actions|
  {
    if actions == [] then s else Exec(Apply(s, actions[0]), actions[1..])
  }

  // ---------------------------------------------------------------- nothing is lost

  ghost predicate HandledOk(s: State, r: nat) { HandlerRun(r, true) in s.log }

  ghost predicate DistinctRows(claims: seq<Claim>) {
    forall a, b :: 0 <= a < b < |claims| ==> claims[a].row != claims[b].row
  }

  /** The claims a pass still carries, the current one first. */
  function Carried(phase: PassStage): seq<Claim> {
    match phase
    case Selecting => []
    case Walking(todo) => todo
    case PassMarking(c, rest) => [c] + rest
    case PassRecording(c, _, rest) => [c] + rest
  }

  /** The event is stored, and finished. */
  ghost predicate Done(s: State, key: Key) {
    exists r: nat :: r < |s.rows| && s.rows[r].key == key && s.rows[r].processedAt.Some? && HandledOk(s, r)
  }

  ghost predicate Stored(s: State, key: Key) { exists r: nat :: r < |s.rows| && s.rows[r].key == key }

  ghost predicate DeliveryOk(s: State, key: Key, stage: DeliveryStage) {
    match stage
    case Inserting => true
    case LookingUp => Stored(s, key)
    case Running(r) => r < |s.rows| && s.rows[r].key == key
    case Marking(r) => r < |s.rows| && s.rows[r].key == key && HandledOk(s, r)
    case Recording(r, _) => r < |s.rows| && s.rows[r].key == key
    case Answered(Rethrown) => Stored(s, key)
    case Answered(_) => Done(s, key)
  }

  ghost predicate PassOk(s: State, phase: PassStage) {
    && DistinctRows(Carried(phase))
    && (forall a :: 0 <= a < |Carried(phase)| ==> Carried(phase)[a].row < |s.rows|)
    && (phase.PassMarking? ==> HandledOk(s, phase.claim.row))
  }

  ghost predicate ThreadOk(s: State, t: Thread) {
    match t
    case Delivery(key, stage) => DeliveryOk(s, key, stage)
    case Pass(_, phase) => PassOk(s, phase)
    case Gone => true
  }

  ghost predicate Inv(s: State) {
    && (forall i, j :: 0 <= i < j < |s.rows| ==> s.rows[i].key != s.rows[j].key)
    && (forall i: nat :: i < |s.rows| && s.rows[i].processedAt.Some? ==> HandledOk(s, i))
    && (forall t :: 0 <= t < |s.threads| ==> ThreadOk(s, s.threads[t]))
  }

  /** What no step undoes: rows stay, processed rows stay processed, runs stay recorded. */
  ghost predicate Grows(s: State, s': State) {
    && |s.rows| <= |s'.rows| && s.log <= s'.log
    && forall i :: 0 <= i < |s.rows| ==>
         s'.rows[i].key == s.rows[i].key && (s.rows[i].processedAt.Some? ==> s'.rows[i].processedAt.Some?)
  }

  lemma ThreadKept(s: State, s': State, t: Thread)
    requires Grows(s, s') && ThreadOk(s, t)
    ensures ThreadOk(s', t)
  {
    assert forall r: nat :: HandledOk(s, r) ==> HandledOk(s', r);
    if t.Delivery? && Stored(s, t.key) {
      var r: nat :| r < |s.rows| && s.rows[r].key == t.key;
      assert s'.rows[r].key == t.key;
    }
    if t.Delivery? && Done(s, t.key) {
      var r: nat :| r < |s.rows| && s.rows[r].key == t.key && s.rows[r].processedAt.Some? && HandledOk(s, r);
      assert s'.rows[r].key == t.key && s'.rows[r].processedAt.Some? && HandledOk(s', r);
    }
  }

  lemma DeliveryGrows(s: State, key: Key, stage: DeliveryStage, now: int, verdict: Verdict)
    ensures var (rows, _, ran) := StepDelivery(s.rows, key, stage, now, verdict);
      Grows(s, State(rows, s.threads, s.log + ran))
  {
    hide FindByKey;
  }

  lemma PassGrows(s: State, cutoff: int, phase: PassStage, now: int, verdict: Verdict, chosen: seq<nat>)
    requires phase.Selecting? ==> MayClaim(s.rows, cutoff, chosen)
    ensures var (rows, _, ran) := StepPass(s.rows, cutoff, phase, now, verdict, chosen);
      Grows(s, State(rows, s.threads, s.log + ran))
  {
    hide MayClaim;
  }

  lemma StepGrows(s: State, a: Action)
    requires Inv(s) && Enabled(s, a)
    ensures Grows(s, Apply(s, a))
  {
    hide StepDelivery, StepPass, Inv;
    if a.Step? {
      match s.threads[a.thread]
      case Delivery(key, stage) => DeliveryGrows(s, key, stage, a.now, a.verdict);
      case Pass(cutoff, phase) => PassGrows(s, cutoff, phase, a.now, a.verdict, a.chosen);
      case Gone =>
    }
  }

  lemma MovedDeliveryOk(s: State, a: Action)
    requires Inv(s) && Enabled(s, a) && a.Step? && s.threads[a.thread].Delivery?
    ensures ThreadOk(Apply(s, a), Apply(s, a).threads[a.thread])
  {
    var s', d := Apply(s, a), s.threads[a.thread];
    assert ThreadOk(s, d);
    StepGrows(s, a);
    var found := FindByKey(s.rows, d.key);
    match d.stage
    case Inserting =>
      if found.Some? { assert s'.rows[found.value].key == d.key; }
    case LookingUp =>
      assert found.Some?;
      assert s.rows[found.value].processedAt.Some? ==> HandledOk(s, found.value);
    case Marking(r) =>
      assert s'.rows[r].key == d.key && HandledOk(s', r);
    case Recording(r, _) =>
      assert s'.rows[r].key == d.key;
    case Running(_) =>
    case Answered(_) =>
  }

  /** A pass only ever drops the claim it has finished with. */
  lemma PhaseCarries(rows: Table, cutoff: int, phase: PassStage, now: int, verdict: Verdict, chosen: seq<nat>)
    requires !phase.Selecting? && DistinctRows(Carried(phase))
    ensures var next := StepPass(rows, cutoff, phase, now, verdict, chosen).1;
      DistinctRows(Carried(next)) && forall c :: c in Carried(next) ==> c in Carried(phase)
  {
    var next := StepPass(rows, cutoff, phase, now, verdict, chosen).1;
    if phase.Walking? || next.PassRecording? {
      assert Carried(next) == Carried(phase);
    } else if next != phase {
      assert Carried(next) == Carried(phase)[1..];
    }
  }

  lemma MovedPassOk(s: State, a: Action)
    requires Inv(s) && Enabled(s, a) && a.Step? && s.threads[a.thread].Pass?
    ensures ThreadOk(Apply(s, a), Apply(s, a).threads[a.thread])
  {
    assert ThreadOk(s, s.threads[a.thread]);
    var was, next := s.threads[a.thread].phase, Apply(s, a).threads[a.thread].phase;
    if was.Selecting? {
      assert forall k :: 0 <= k < |Carried(next)| ==> Carried(next)[k].row == a.chosen[k];
    } else {
      PhaseCarries(s.rows, s.threads[a.thread].cutoff, was, a.now, a.verdict, a.chosen);
      assert forall k :: 0 <= k < |Carried(next)| ==> Carried(next)[k] in Carried(was);
    }
  }

  lemma RowsKept(s: State, a: Action)
    requires Inv(s) && Enabled(s, a)
    ensures var s' := Apply(s, a);
      && (forall i, j :: 0 <= i < j < |s'.rows| ==> s'.rows[i].key != s'.rows[j].key)
      && (forall i: nat :: i < |s'.rows| && s'.rows[i].processedAt.Some? ==> HandledOk(s', i))
  {
    StepGrows(s, a);
    if a.Step? { assert ThreadOk(s, s.threads[a.thread]); }
  }

  lemma {:induction false} InvKept(s: State, a: Action)
    requires Inv(s) && Enabled(s, a)
    ensures Inv(Apply(s, a)) && Grows(s, Apply(s, a))
  {
    var s' := Apply(s, a);
    StepGrows(s, a);
    RowsKept(s, a);
    forall t | 0 <= t < |s'.threads| ensures ThreadOk(s', s'.threads[t]) {
      if a.Step? && t == a.thread {
        if s.threads[t].Delivery? { MovedDeliveryOk(s, a); } else { MovedPassOk(s, a); }
      } else if t < |s.threads| { ThreadKept(s, s', s.threads[t]); }
    }
  }

  lemma {:induction false} InvReached(s: State, actions: seq<Action>)
    requires Inv(s) && Legal(s, actions)
    ensures Inv(Exec(s, actions)) && Grows(s, Exec(s, actions))
    decreases |actions|
  {
    if actions != [] {
      InvKept(s, actions[0]);
      InvReached(Apply(s, actions[0]), actions[1..]);
    }
  }

  lemma OneRowPerKey(s: State, i: nat, j: nat)
    requires Inv(s) && i < |s.rows| && j < |s.rows| && s.rows[i].key == s.rows[j].key
    ensures i == j
  {
  }

  ghost predicate AnsweredWith(s: State, t: nat, key: Key, answer: Answer) {
    t < |s.threads| && s.threads[t] == Delivery(key, Answered(answer))
  }

  ghost predicate OnlyRow(rows: Table, r: nat, key: Key) {
    r < |rows| && rows[r].key == key && forall i: nat :: i < |rows| && rows[i].key == key ==> i == r
  }

  lemma AnsweredRow(s: State, t: nat, key: Key, answer: Answer) returns (r: nat)
    requires Inv(s) && AnsweredWith(s, t, key, answer)
    ensures r < |s.rows| && s.rows[r].key == key
    ensures !answer.Rethrown? ==> s.rows[r].processedAt.Some? && HandlerRun(r, true) in s.log
  {
    assert ThreadOk(s, s.threads[t]);
    if answer.Rethrown? {
      r :| r < |s.rows| && s.rows[r].key == key;
    } else {
      r :| r < |s.rows| && s.rows[r].key == key && s.rows[r].processedAt.Some? && HandledOk(s, r);
    }
  }

  /**
   No lost webhook, over every interleaving of deliveries, failures, crashes and retry passes:
   an event has one row; a delivery that is told the event is handled is told so after a handler
   run for it completed and its row says so; one that is not leaves the row behind for a retry.
   */
  lemma {:induction false} NoLostWebhook(actions: seq<Action>, t: nat, key: Key, answer: Answer) returns (r: nat)
    requires Legal(EMPTY, actions) && AnsweredWith(Exec(EMPTY, actions), t, key, answer)
    ensures var s := Exec(EMPTY, actions);
      && OnlyRow(s.rows, r, key)
      && (!answer.Rethrown? ==> s.rows[r].processedAt.Some? && HandlerRun(r, true) in s.log)
  {
    InvReached(EMPTY, actions);
    var s := Exec(EMPTY, actions);
    r := AnsweredRow(s, t, key, answer);
    forall i: nat | i < |s.rows| && s.rows[i].key == key ensures i == r {
      OneRowPerKey(s, i, r);
    }
  }

  // ---------------------------------------------------------------- runs after completion

  function Runs(log: seq<HandlerRun>, r: nat): nat {
    if log == [] then 0 else Runs(log[..|log| - 1], r) + (if log[|log| - 1].row == r then 1 else 0)
  }

  function Successes(log: seq<HandlerRun>, r: nat): nat {
    if log == [] then 0
    else Successes(log[..|log| - 1], r) + (if log[|log| - 1] == HandlerRun(r, true) then 1 else 0)
  }

  /** The thread has read the row as unfinished and has still to run the handler for it. */
  predicate WillRun(t: Thread, r: nat) {
    match t
    case Delivery(_, stage) => stage == Running(r)
    case Pass(_, phase) => ClaimedRow(Pending(phase), r)
    case Gone => false
  }

  predicate ClaimedRow(claims: seq<Claim>, r: nat) { exists a :: 0 <= a < |claims| && claims[a].row == r }

  function Pending(phase: PassStage): seq<Claim> {
    match phase
    case Selecting => []
    case Walking(todo) => todo
    case PassMarking(_, rest) => rest
    case PassRecording(_, _, rest) => rest
  }

  ghost function Owing(s: State, r: nat): set<nat> { set t: nat | t < |s.threads| && WillRun(s.threads[t], r) }

  /** A step that runs the handler for `r`. */
  predicate RunsFor(s: State, a: Action, r: nat) {
    a.Step? && a.thread < |s.threads| &&
    (match s.threads[a.thread]
     case Delivery(_, stage) => stage == Running(r)
     case Pass(_, phase) => phase.Walking? && phase.todo != [] && phase.todo[0].row == r
     case Gone => false)
  }

  lemma RunIsLogged(s: State, a: Action, r: nat)
    requires Enabled(s, a)
    ensures Runs(Apply(s, a).log, r) == Runs(s.log, r) + (if RunsFor(s, a, r) then 1 else 0)
  {
    var log := Apply(s, a).log;
    if log != s.log {
      assert log[..|log| - 1] == s.log;
    }
  }

  lemma SuccessIsLogged(s: State, a: Action, r: nat)
    requires Enabled(s, a)
    ensures Successes(Apply(s, a).log, r)
         == Successes(s.log, r) + (if RunsFor(s, a, r) && a.verdict.Succeeds? then 1 else 0)
  {
    var log := Apply(s, a).log;
    if log != s.log {
      assert log[..|log| - 1] == s.log;
    }
  }

  /** The statement by which a thread reads row `r` as unfinished: its insert, its lookup, or its claim. */
  predicate Reads(s: State, a: Action, r: nat) {
    a.Step? && a.thread < |s.threads| &&
    (match s.threads[a.thread]
     case Delivery(key, Inserting) => FindByKey(s.rows, key).None? && r == |s.rows|
     case Delivery(key, LookingUp) => FindByKey(s.rows, key) == Some(r) && r < |s.rows| && s.rows[r].processedAt.None?
     case Pass(_, Selecting) => r in a.chosen
     case _ => false)
  }

  /** A thread comes to owe a run only by reading, and pays by running. */
  lemma NoNewOwing(s: State, a: Action, r: nat, t: nat)
    requires Inv(s) && Enabled(s, a) && !Reads(s, a, r) && t in Owing(Apply(s, a), r)
    ensures t in Owing(s, r) && (RunsFor(s, a, r) ==> t != a.thread)
  {
    if t < |s.threads| {
      assert ThreadOk(s, s.threads[t]);
      if s.threads[t].Pass? && a.Step? && a.thread == t {
        PassOwesLess(s, a, r);
      }
    }
  }

  lemma PassOwesLess(s: State, a: Action, r: nat)
    requires Inv(s) && Enabled(s, a) && !Reads(s, a, r)
    requires a.Step? && s.threads[a.thread].Pass? && WillRun(Apply(s, a).threads[a.thread], r)
    ensures WillRun(s.threads[a.thread], r) && !RunsFor(s, a, r)
  {
    assert ThreadOk(s, s.threads[a.thread]);
    var was, now := s.threads[a.thread].phase, Apply(s, a).threads[a.thread].phase;
    var k :| 0 <= k < |Pending(now)| && Pending(now)[k].row == r;
    if was.Walking? {
      assert was.todo[k + 1].row == r;
    }
  }

  lemma {:induction false} OwingPaidDown(s: State, a: Action, r: nat)
    requires Inv(s) && Enabled(s, a) && !Reads(s, a, r)
    ensures |Owing(Apply(s, a), r)| + (if RunsFor(s, a, r) then 1 else 0) <= |Owing(s, r)|
  {
    var before, after := Owing(s, r), Owing(Apply(s, a), r);
    forall t | t in after ensures t in before && (RunsFor(s, a, r) ==> t != a.thread) {
      NoNewOwing(s, a, r, t);
    }
    if RunsFor(s, a, r) {
      assert a.thread in before by {
        if s.threads[a.thread].Pass? { assert s.threads[a.thread].phase.todo[0].row == r; }
      }
      Smaller(after, before - {a.thread});
    } else {
      Smaller(after, before);
    }
  }

  lemma {:induction false} Smaller(a: set<nat>, b: set<nat>)
    requires a <= b
    ensures |a| <= |b|
  {
    assert b == a + (b - a);
  }

  /** No statement of the run reads row `r` as unfinished. */
  ghost predicate Quiet(s: State, actions: seq<Action>, r: nat)
    requires Legal(s, actions)
    decreases |actions|
  {
    actions != [] ==> !Reads(s, actions[0], r) && Quiet(Apply(s, actions[0]), actions[1..], r)
  }

  /** A possible future in which row `r` is not read as unfinished again. */
  ghost predicate Future(s: State, actions: seq<Action>, r: nat) { Legal(s, actions) && Quiet(s, actions, r) }

  lemma FirstThen(s: State, a: Action, rest: seq<Action>, r: nat)
    requires Enabled(s, a) && !Reads(s, a, r) && Future(Apply(s, a), rest, r)
    ensures Future(s, [a] + rest, r) && Exec(s, [a] + rest) == Exec(Apply(s, a), rest)
  {
    assert ([a] + rest)[1..] == rest;
  }

  lemma {:induction false} FutureInTwo(s: State, first: seq<Action>, second: seq<Action>, r: nat)
    requires Future(s, first, r) && Future(Exec(s, first), second, r)
    ensures Future(s, first + second, r) && Exec(s, first + second) == Exec(Exec(s, first), second)
    decreases |first|
  {
    if first == [] {
      assert first + second == second;
    } else {
      FutureInTwo(Apply(s, first[0]), first[1..], second, r);
      FirstThen(s, first[0], first[1..] + second, r);
      assert first + second == [first[0]] + (first[1..] + second);
    }
  }

  /** Without further reads, every run and every success is paid for by a thread that owed it. */
  lemma {:induction false} RunsBounded(s: State, actions: seq<Action>, r: nat)
    requires Inv(s) && Future(s, actions, r)
    ensures Runs(Exec(s, actions).log, r) <= Runs(s.log, r) + |Owing(s, r)|
    ensures Successes(Exec(s, actions).log, r) <= Successes(s.log, r) + |Owing(s, r)|
    decreases |actions|
  {
    if actions != [] {
      var a := actions[0];
      InvKept(s, a);
      RunIsLogged(s, a, r);
      SuccessIsLogged(s, a, r);
      OwingPaidDown(s, a, r);
      hide Inv, Enabled, Apply, Runs, Successes, Owing, Reads, RunsFor;
      RunsBounded(Apply(s, a), actions[1..], r);
    }
  }

  /** The next step of a thread whose handler run or mark, if that is what it does, succeeds. */
  function Onward(t: nat): Action { Step(t, 0, Succeeds, []) }

  ghost predicate Held(s: State, t: nat, r: nat) {
    Inv(s) && t < |s.threads| && WillRun(s.threads[t], r) && r < |s.rows|
  }

  /** A pass on its way to row `r` takes a step before it gets there. */
  lemma {:induction false} PassNears(s: State, t: nat, r: nat)
    requires Held(s, t, r) && s.threads[t].Pass? && !RunsFor(s, Onward(t), r)
    ensures Enabled(s, Onward(t)) && !Reads(s, Onward(t), r)
    ensures var s' := Apply(s, Onward(t));
      && Held(s', t, r) && s'.threads[t].Pass? && s'.threads == s.threads[t := s'.threads[t]]
      && Nearness(s'.threads[t].phase) < Nearness(s.threads[t].phase)
      && Runs(s'.log, r) == Runs(s.log, r) && Successes(s'.log, r) == Successes(s.log, r)
  {
    var phase := s.threads[t].phase;
    var k :| 0 <= k < |Pending(phase)| && Pending(phase)[k].row == r;
    assert ThreadOk(s, s.threads[t]);
    InvKept(s, Onward(t));
    RunIsLogged(s, Onward(t), r);
    SuccessIsLogged(s, Onward(t), r);
    var next := Apply(s, Onward(t)).threads[t].phase;
    if phase.Walking? {
      assert k > 0 && Pending(next)[k - 1].row == r;
    } else {
      assert Carried(phase)[0] == phase.claim && Pending(next) == Pending(phase);
    }
  }

  function Nearness(phase: PassStage): nat {
    2 * |Pending(phase)| + if phase.Walking? then 0 else 1
  }

  lemma OwingAfterRun(s: State, t: nat, r: nat)
    requires Held(s, t, r) && RunsFor(s, Onward(t), r)
    ensures Enabled(s, Onward(t)) && !Reads(s, Onward(t), r)
    ensures var s' := Apply(s, Onward(t));
      Inv(s') && Owing(s', r) == Owing(s, r) - {t} && |s'.rows| == |s.rows|
      && Runs(s'.log, r) == Runs(s.log, r) + 1 && Successes(s'.log, r) == Successes(s.log, r) + 1
  {
    var s' := Apply(s, Onward(t));
    InvKept(s, Onward(t));
    RunIsLogged(s, Onward(t), r);
    SuccessIsLogged(s, Onward(t), r);
    assert ThreadOk(s, s.threads[t]);
    forall u: nat | u < |s.threads| ensures u in Owing(s', r) <==> u in Owing(s, r) && u != t {
      if u == t && u in Owing(s', r) { NoNewOwing(s, Onward(t), r, t); }
    }
  }

  /** A thread that owes a run of `r` can be the next to run its handler, and succeed. */
  lemma {:induction false} OwedRunSucceeds(s: State, t: nat, r: nat) returns (actions: seq<Action>)
    requires Held(s, t, r)
    ensures Future(s, actions, r)
    ensures var end := Exec(s, actions);
      Inv(end) && Owing(end, r) == Owing(s, r) - {t} && r < |end.rows|
      && Runs(end.log, r) == Runs(s.log, r) + 1 && Successes(end.log, r) == Successes(s.log, r) + 1
    decreases if s.threads[t].Pass? then Nearness(s.threads[t].phase) else 0
  {
    if RunsFor(s, Onward(t), r) {
      OwingAfterRun(s, t, r);
      FirstThen(s, Onward(t), [], r);
      actions := [Onward(t)];
    } else {
      PassNears(s, t, r);
      var s' := Apply(s, Onward(t));
      assert Owing(s', r) == Owing(s, r);
      actions := OwedRunSucceeds(s', t, r);
      FirstThen(s, Onward(t), actions, r);
      actions := [Onward(t)] + actions;
    }
  }

  /** All the runs that are owed can happen, and all succeed. */
  lemma {:induction false} AllOwedSucceed(s: State, r: nat) returns (actions: seq<Action>)
    requires Inv(s) && r < |s.rows|
    ensures Future(s, actions, r)
    ensures Runs(Exec(s, actions).log, r) == Runs(s.log, r) + |Owing(s, r)|
    ensures Successes(Exec(s, actions).log, r) == Successes(s.log, r) + |Owing(s, r)|
    decreases |Owing(s, r)|
  {
    if Owing(s, r) == {} {
      actions := [];
    } else {
      var t :| t in Owing(s, r);
      var first := OwedRunSucceeds(s, t, r);
      var second := AllOwedSucceed(Exec(s, first), r);
      FutureInTwo(s, first, second, r);
      actions := first + second;
    }
  }

  lemma {:induction false} FinishedIsNotRead(s: State, actions: seq<Action>, r: nat)
    requires Inv(s) && Legal(s, actions) && r < |s.rows| && s.rows[r].processedAt.Some?
    ensures Quiet(s, actions, r)
    decreases |actions|
  {
    if actions != [] {
      InvKept(s, actions[0]);
      FinishedIsNotRead(Apply(s, actions[0]), actions[1..], r);
    }
  }

  /**
   Once an event is processed its handler can run again exactly while some thread read it as
   unfinished and has still to run it, and then as many times as there are such threads and no more.
   */
  lemma {:induction false} RunsAgainExactly(before: seq<Action>, r: nat, n: nat)
    requires Legal(EMPTY, before)
    requires var s := Exec(EMPTY, before); r < |s.rows| && s.rows[r].processedAt.Some?
    ensures var s := Exec(EMPTY, before);
      (exists after :: Legal(s, after) && Runs(Exec(s, after).log, r) >= Runs(s.log, r) + n) <==> n <= |Owing(s, r)|
    ensures var s := Exec(EMPTY, before);
      (exists after :: Legal(s, after) && Runs(Exec(s, after).log, r) > Runs(s.log, r)) <==> Owing(s, r) != {}
  {
    InvReached(EMPTY, before);
    var s := Exec(EMPTY, before);
    var all := AllOwedSucceed(s, r);
    forall after | Legal(s, after) ensures Runs(Exec(s, after).log, r) <= Runs(s.log, r) + |Owing(s, r)| {
      FinishedIsNotRead(s, after, r);
      RunsBounded(s, after, r);
    }
    assert Legal(s, all) && Runs(Exec(s, all).log, r) == Runs(s.log, r) + |Owing(s, r)|;
  }

  /**
   When an event's effect can be applied twice: at the statement that reads its row as unfinished,
   two successful handler runs can stand in a later log, with no read after this one, exactly when a
   success is already logged, its mark failed or lost to a crash, or another thread has still to run
   the handler. Otherwise at most one can.
   */
  lemma {:induction false} AppliedTwiceExactly(before: seq<Action>, a: Action, r: nat)
    requires Legal(EMPTY, before) && Enabled(Exec(EMPTY, before), a) && Reads(Exec(EMPTY, before), a, r)
    ensures var s := Exec(EMPTY, before);
      (exists after :: Future(Apply(s, a), after, r) && Successes(Exec(Apply(s, a), after).log, r) >= 2)
      <==> Successes(s.log, r) >= 1 || Owing(s, r) != {}
  {
    InvReached(EMPTY, before);
    var s := Exec(EMPTY, before);
    var s' := Apply(s, a);
    InvKept(s, a);
    ReadingOwes(s, a, r);
    var all := AllOwedSucceed(s', r);
    forall after | Future(s', after, r)
      ensures Successes(Exec(s', after).log, r) <= Successes(s'.log, r) + |Owing(s', r)|
    {
      RunsBounded(s', after, r);
    }
    assert Future(s', all, r) && Successes(Exec(s', all).log, r) == Successes(s'.log, r) + |Owing(s', r)|;
    assert Owing(s, r) != {} <==> |Owing(s, r)| >= 1;
  }

  lemma ReaderOwes(s: State, a: Action, r: nat)
    requires Enabled(s, a) && Reads(s, a, r)
    ensures a.Step? && a.thread < |s.threads|
    ensures var s', t := Apply(s, a), a.thread;
      && s'.log == s.log && |s'.threads| == |s.threads| && s'.threads == s.threads[t := s'.threads[t]] && r < |s'.rows|
      && WillRun(s'.threads[t], r) && !WillRun(s.threads[t], r)
  {
    var s', t := Apply(s, a), a.thread;
    if s.threads[t].Pass? {
      var k :| 0 <= k < |a.chosen| && a.chosen[k] == r;
      assert Pending(s'.threads[t].phase)[k].row == r;
    }
  }

  lemma OneOwesMore(s: State, s': State, t: nat, r: nat)
    requires t < |s.threads| == |s'.threads| && s'.threads == s.threads[t := s'.threads[t]]
    requires WillRun(s'.threads[t], r) && !WillRun(s.threads[t], r)
    ensures |Owing(s', r)| == |Owing(s, r)| + 1
  {
    hide WillRun;
    assert Owing(s', r) == Owing(s, r) + {t} && t !in Owing(s, r);
  }

  /** A read makes its thread, and no other, owe one run more. */
  lemma {:induction false} ReadingOwes(s: State, a: Action, r: nat)
    requires Enabled(s, a) && Reads(s, a, r)
    ensures var s' := Apply(s, a);
      && r < |s'.rows| && Successes(s'.log, r) == Successes(s.log, r)
      && |Owing(s', r)| == |Owing(s, r)| + 1
  {
    hide Apply, WillRun, Reads, Enabled, Successes, Owing;
    ReaderOwes(s, a, r);
    OneOwesMore(s, Apply(s, a), a.thread, r);
  }

  // ---------------------------------------------------------------- what each statement writes

  /** What any statement of a delivery or a pass may do to a stored row at its time. */
  ghost predicate RowWritten(was: Row, now: Row, time: int) {
    && now.key == was.key && now.createdAt == was.createdAt
    && (now.processedAt == was.processedAt || (now.processedAt == Some(time) && now.error.None?))
    && (now.deadAt == was.deadAt || now.deadAt == if now.attempts >= 5 then Some(time) else None)
  }

  /** A claiming statement takes at most fifty waiting rows and counts an attempt on each. */
  ghost predicate ClaimWritten(was: Table, now: Table, cutoff: int, chosen: seq<nat>) {
    && |chosen| <= 50 && |now| == |was|
    && (forall i: nat :: i < |was| ==>
          if i in chosen then
            && was[i].processedAt.None? && was[i].deadAt.None? && was[i].createdAt < cutoff
            && now[i] == was[i].(attempts := was[i].attempts + 1)
          else now[i] == was[i])
  }

  /** The write that settles a claim: the row's attempts are those of the claim, and its outcome what is said. */
  ghost predicate ClaimSettled(was: Row, now: Row, c: Claim, time: int, outcome: Verdict) {
    && now.key == was.key && now.createdAt == was.createdAt && now.attempts == c.attempts
    && (match outcome
        case Succeeds => now.processedAt == Some(time) && now.error.None? && now.deadAt == was.deadAt
        case Fails(message) =>
          && now.processedAt == was.processedAt && now.error == Some(message)
          && now.deadAt == if c.attempts >= 5 then Some(time) else None)
  }

  /** A pass writes exactly one row when it marks a success or records a failure. */
  lemma {:induction false} SettlingWrites(s: State, a: Action, i: nat)
    requires Enabled(s, a) && a.Step? && s.threads[a.thread].Pass? && i < |s.rows|
    ensures var (phase, now) := (s.threads[a.thread].phase, Apply(s, a).rows);
      && |now| == |s.rows|
      && (phase.PassMarking? ==>
            if phase.claim.row == i && a.verdict.Succeeds?
            then ClaimSettled(s.rows[i], now[i], phase.claim, a.now, Succeeds) else now[i] == s.rows[i])
      && (phase.PassRecording? ==>
            if phase.claim.row == i
            then ClaimSettled(s.rows[i], now[i], phase.claim, a.now, Fails(phase.message)) else now[i] == s.rows[i])
      && (phase.Walking? ==> now == s.rows)
  {
  }

  /** Every write of a statement: a new row is fresh, a stored one is changed only as its statement may. */
  lemma {:induction false} StepWrites(s: State, a: Action)
    requires Enabled(s, a)
    ensures !a.Step? ==> Apply(s, a).rows == s.rows
    ensures a.Step? ==>
      var now := Apply(s, a).rows;
      && (|now| == |s.rows| || |now| == |s.rows| + 1)
      && (forall i :: 0 <= i < |s.rows| ==> RowWritten(s.rows[i], now[i], a.now))
      && (|now| > |s.rows| ==>
            var added := now[|s.rows|];
            && s.threads[a.thread].Delivery? && added.key == s.threads[a.thread].key && added.createdAt == a.now
            && added.attempts == 0 && added.processedAt.None? && added.deadAt.None? && added.error.None?)
      && (s.threads[a.thread].Delivery? ==> forall i :: 0 <= i < |s.rows| ==>
            now[i].deadAt == s.rows[i].deadAt && now[i].attempts == s.rows[i].attempts)
      && (s.threads[a.thread].Pass? && s.threads[a.thread].phase.Selecting? ==>
            ClaimWritten(s.rows, now, s.threads[a.thread].cutoff, a.chosen))
  {
  }

  // ---------------------------------------------------------------- what does not hold

  ghost predicate Reaches(actions: seq<Action>, s: State) {
    Legal(EMPTY, actions) && Exec(EMPTY, actions) == s
  }

  lemma {:induction false} OneMore(s: State, actions: seq<Action>, a: Action)
    requires Legal(s, actions) && Enabled(Exec(s, actions), a)
    ensures Legal(s, actions + [a]) && Exec(s, actions + [a]) == Apply(Exec(s, actions), a)
    decreases |actions|
  {
    if actions == [] {
      assert [a][1..] == [];
    } else {
      OneMore(Apply(s, actions[0]), actions[1..], a);
      assert (actions + [a])[1..] == actions[1..] + [a];
    }
  }

  lemma Then(actions: seq<Action>, s: State, a: Action, s': State) returns (longer: seq<Action>)
    requires Reaches(actions, s) && Enabled(s, a) && Apply(s, a) == s'
    ensures longer == actions + [a] && Reaches(longer, s')
  {
    OneMore(EMPTY, actions, a);
    longer := actions + [a];
  }

  const EVENT := Key("stripe", "evt_1")

  const STORED := NewRow(EVENT, 1)
  const STARTED := Delivery(EVENT, Inserting)
  const AT_WORK := Delivery(EVENT, Running(0))

  lemma StoredAndRunning() returns (actions: seq<Action>)
    ensures Reaches(actions, State([STORED], [AT_WORK], []))
  {
    actions := Then([], EMPTY, Deliver(EVENT), State([], [STARTED], []));
    actions := Then(actions, State([], [STARTED], []), Step(0, 1, Succeeds, []), State([STORED], [AT_WORK], []));
  }

  lemma BothRunning() returns (actions: seq<Action>)
    ensures Reaches(actions, State([STORED], [AT_WORK, AT_WORK], []))
  {
    var second, lookup := Step(1, 1, Succeeds, []), Delivery(EVENT, LookingUp);
    actions := StoredAndRunning();
    actions := Then(actions, State([STORED], [AT_WORK], []), Deliver(EVENT), State([STORED], [AT_WORK, STARTED], []));
    actions := Then(actions, State([STORED], [AT_WORK, STARTED], []), second, State([STORED], [AT_WORK, lookup], []));
    actions := Then(actions, State([STORED], [AT_WORK, lookup], []), second, State([STORED], [AT_WORK, AT_WORK], []));
  }

  /**
   The column's promise that an effect is applied exactly once does not hold of two deliveries
   at once: the second finds the row unfinished and runs the handler beside the first.
   */
  lemma HandlerRunsTwice() returns (actions: seq<Action>)
    ensures Legal(EMPTY, actions) && Exec(EMPTY, actions).log == [HandlerRun(0, true), HandlerRun(0, true)]
  {
    var marking, ran := Delivery(EVENT, Marking(0)), HandlerRun(0, true);
    actions := BothRunning();
    actions := Then(actions, State([STORED], [AT_WORK, AT_WORK], []), Step(0, 1, Succeeds, []),
                    State([STORED], [marking, AT_WORK], [ran]));
    actions := Then(actions, State([STORED], [marking, AT_WORK], [ran]), Step(1, 1, Succeeds, []),
                    State([STORED], [marking, marking], [ran, ran]));
  }

  lemma PassOverOne(row: Row, cutoff: int, step: Action, taken: Claim)
    requires row.processedAt.None? && row.deadAt.None? && row.createdAt < cutoff
    requires step.Step? && step.chosen == [0] && step.verdict == Fails("x") && taken == Claim(0, row.attempts + 1)
    ensures MayClaim([row], cutoff, [0])
    ensures StepPass([row], cutoff, Selecting, step.now, step.verdict, [0])
         == ([row.(attempts := row.attempts + 1)], Walking([taken]), [])
    ensures forall rows ::
      StepPass(rows, cutoff, Walking([taken]), step.now, step.verdict, [0])
      == (rows, PassRecording(taken, "x", []), [HandlerRun(0, false)])
  {
    assert Claimed([row], [0]) == [row.(attempts := row.attempts + 1)];
    assert seq(1, a requires 0 <= a < 1 => Claim([0][a], [row][[0][a]].attempts + 1)) == [taken];
    assert [taken][1..] == [];
  }

  /** One failed pass over the only row, beside threads that take no step. */
  lemma FailedPass(actions: seq<Action>, row: Row, threads: seq<Thread>, log: seq<HandlerRun>)
    returns (longer: seq<Action>)
    requires Reaches(actions, State([row], threads, log))
    requires row.processedAt.None? && row.deadAt.None? && row.createdAt < 10
    ensures Reaches(longer, State([Failed(row)], threads + [Pass(10, Walking([]))], log + [HandlerRun(0, false)]))
  {
    var t, taken := |threads|, Claim(0, row.attempts + 1);
    var counted := row.(attempts := row.attempts + 1);
    var at := (phase: PassStage) => threads + [Pass(10, phase)];
    var step := Step(t, 20, Fails("x"), [0]);
    longer := Then(actions, State([row], threads, log), StartPass(10), State([row], at(Selecting), log));
    PassOverOne(row, 10, step, taken);
    assert at(Selecting)[t := Pass(10, Walking([taken]))] == at(Walking([taken]));
    longer := Then(longer, State([row], at(Selecting), log), step, State([counted], at(Walking([taken])), log));
    assert at(Walking([taken]))[t := Pass(10, PassRecording(taken, "x", []))] == at(PassRecording(taken, "x", []));
    var logged := log + [HandlerRun(0, false)];
    longer := Then(longer, State([counted], at(Walking([taken])), log), step,
                   State([counted], at(PassRecording(taken, "x", [])), logged));
    assert at(PassRecording(taken, "x", []))[t := Pass(10, Walking([]))] == at(Walking([]));
    longer := Then(longer, State([counted], at(PassRecording(taken, "x", [])), logged), step,
                   State([Failed(row)], at(Walking([])), logged));
  }

  function Failed(row: Row): Row {
    row.(attempts := row.attempts + 1, error := Some("x"),
         deadAt := if row.attempts + 1 >= MAX_ATTEMPTS then Some(20) else None)
  }

  lemma SlowPassClaims() returns (actions: seq<Action>)
    ensures Reaches(actions, State([STORED.(attempts := 1)], [Gone, Pass(10, Walking([Claim(0, 1)]))], []))
  {
    var slow := (phase: PassStage) => [Gone, Pass(10, phase)];
    var step, one, taken := Step(1, 20, Fails("x"), [0]), STORED.(attempts := 1), Claim(0, 1);
    actions := StoredAndRunning();
    actions := Then(actions, State([STORED], [AT_WORK], []), Crash(0), State([STORED], [Gone], []));
    actions := Then(actions, State([STORED], [Gone], []), StartPass(10), State([STORED], slow(Selecting), []));
    PassOverOne(STORED, 10, step, taken);
    actions := Then(actions, State([STORED], slow(Selecting), []), step, State([one], slow(Walking([taken])), []));
  }

  /**
   Overlapping passes bring a dead-lettered row back: the slow one writes the attempt count it
   read, and with it clears `deadAt`.
   */
  lemma DeadRowRevived() returns (before: seq<Action>, after: seq<Action>)
    ensures Legal(EMPTY, before) && Legal(EMPTY, after) && before <= after
    ensures Exec(EMPTY, before).rows == [Row(EVENT, 1, 5, None, Some(20), Some("x"))]
    ensures Exec(EMPTY, after).rows == [Row(EVENT, 1, 1, None, None, Some("x"))]
  {
    var taken, done, failed := Claim(0, 1), Pass(10, Walking([])), HandlerRun(0, false);
    var rows := STORED.(attempts := 1);
    before := SlowPassClaims();
    var threads, log := [Gone, Pass(10, Walking([taken]))], [];
    var n := 0;
    while n < 4
      invariant n <= 4 && Reaches(before, State([rows], threads, log))
      invariant rows
        == Row(EVENT, 1, 1 + n, None, if n == 4 then Some(20) else None, if n == 0 then None else Some("x"))
      invariant |threads| >= 2 && threads[1] == Pass(10, Walking([taken]))
    {
      before := FailedPass(before, rows, threads, log);
      rows, threads, log := Failed(rows), threads + [done], log + [failed];
      n := n + 1;
    }
    var step, recording := Step(1, 20, Fails("x"), [0]), threads[1 := Pass(10, PassRecording(taken, "x", []))];
    assert [taken][1..] == [];
    after := Then(before, State([rows], threads, log), step, State([rows], recording, log + [failed]));
    var back := Row(EVENT, 1, 1, None, None, Some("x"));
    after := Then(after, State([rows], recording, log + [failed]), step,
                  State([back], recording[1 := done], log + [failed]));
  }

  // ---------------------------------------------------------------- when a dead row stays dead

  /** Pass `t` has still to settle a claim on row `i`, made at an attempt for which `counts` holds. */
  ghost predicate Unsettled(s: State, t: nat, i: nat, limit: nat) {
    && t < |s.threads| && s.threads[t].Pass?
    && exists k :: 0 <= k < |Carried(s.threads[t].phase)| && OnRow(Carried(s.threads[t].phase)[k], i, limit)
  }

  predicate OnRow(c: Claim, i: nat, limit: nat) { c.row == i && c.attempts < limit }

  /** Some pass has still to settle a claim on row `i`. */
  ghost predicate StillClaimed(s: State, i: nat) { exists t: nat, limit: nat :: Unsettled(s, t, i, limit) }

  /** Some pass has still to settle a claim on row `i` that a failure would not make the last. */
  ghost predicate StillRetried(s: State, i: nat) { exists t: nat :: Unsettled(s, t, i, MAX_ATTEMPTS) }

  ghost predicate Dead(s: State, i: nat) { i < |s.rows| && s.rows[i].deadAt.Some? }

  /** A step's effect on a dead row is what the claim it settles, if any, makes of it. */
  lemma {:induction false} DeadStep(s: State, a: Action, i: nat)
    requires Inv(s) && Enabled(s, a) && Dead(s, i)
    ensures i < |Apply(s, a).rows|
    ensures !StillRetried(s, i) ==> Dead(Apply(s, a), i)
    ensures !StillClaimed(s, i) ==>
      Dead(Apply(s, a), i) && Apply(s, a).rows[i].deadAt == s.rows[i].deadAt
        && Apply(s, a).rows[i].attempts == s.rows[i].attempts
  {
    if a.Step? && s.threads[a.thread].Pass? {
      var phase := s.threads[a.thread].phase;
      if phase.PassMarking? || phase.PassRecording? {
        var c := phase.claim;
        assert Carried(phase)[0] == c;
        assert c.row == i && c.attempts < MAX_ATTEMPTS ==> Unsettled(s, a.thread, i, MAX_ATTEMPTS);
        assert c.row == i ==> OnRow(c, i, c.attempts + 1);
        assert c.row == i ==> Unsettled(s, a.thread, i, c.attempts + 1);
      }
    }
  }

  /** No step claims a dead row, so no step adds an unsettled claim on it. */
  lemma {:induction false} NoNewClaim(s: State, a: Action, i: nat, t: nat, limit: nat)
    requires Inv(s) && Enabled(s, a) && Dead(s, i) && Unsettled(Apply(s, a), t, i, limit)
    ensures Unsettled(s, t, i, limit)
  {
    var s' := Apply(s, a);
    if t < |s.threads| && a.Step? && a.thread == t {
      var was, next := s.threads[t].phase, s'.threads[t].phase;
      assert ThreadOk(s, s.threads[t]);
      var k :| 0 <= k < |Carried(next)| && OnRow(Carried(next)[k], i, limit);
      if !was.Selecting? {
        PhaseCarries(s.rows, s.threads[t].cutoff, was, a.now, a.verdict, a.chosen);
        assert Carried(next)[k] in Carried(was);
        var j :| 0 <= j < |Carried(was)| && Carried(was)[j] == Carried(next)[k];
      }
    }
  }

  lemma {:induction false} StaysDead(s: State, actions: seq<Action>, i: nat)
    requires Inv(s) && Legal(s, actions) && Dead(s, i) && !StillRetried(s, i)
    ensures Dead(Exec(s, actions), i)
    decreases |actions|
  {
    if actions != [] {
      var a := actions[0];
      InvKept(s, a);
      DeadStep(s, a, i);
      forall t: nat ensures !Unsettled(Apply(s, a), t, i, MAX_ATTEMPTS) {
        if Unsettled(Apply(s, a), t, i, MAX_ATTEMPTS) { NoNewClaim(s, a, i, t, MAX_ATTEMPTS); }
      }
      hide Inv, Enabled, Apply, Unsettled, Dead;
      StaysDead(Apply(s, a), actions[1..], i);
    }
  }

  ghost predicate SameDeath(was: State, now: State, i: nat)
    requires i < |was.rows|
  {
    i < |now.rows| && now.rows[i].deadAt == was.rows[i].deadAt && now.rows[i].attempts == was.rows[i].attempts
  }

  lemma {:induction false} StaysUntouched(s: State, actions: seq<Action>, i: nat)
    requires Inv(s) && Legal(s, actions) && Dead(s, i) && !StillClaimed(s, i)
    ensures SameDeath(s, Exec(s, actions), i)
    decreases |actions|
  {
    if actions != [] {
      var a := actions[0];
      InvKept(s, a);
      DeadStep(s, a, i);
      forall t: nat, limit: nat ensures !Unsettled(Apply(s, a), t, i, limit) {
        if Unsettled(Apply(s, a), t, i, limit) { NoNewClaim(s, a, i, t, limit); }
      }
      hide Inv, Enabled, Apply, Unsettled;
      StaysUntouched(Apply(s, a), actions[1..], i);
    }
  }

  /** The step that brings pass `t` nearer to failing its claim on row `i`. */
  function Failing(phase: PassStage, t: nat, i: nat, now: int): Action {
    if (phase.Walking? && phase.todo != [] && phase.todo[0].row == i)
       || (!phase.Walking? && !phase.Selecting? && phase.claim.row == i)
    then Step(t, now, Fails("x"), []) else Step(t, now, Succeeds, [])
  }

  function StepsLeft(phase: PassStage): nat {
    3 * |Pending(phase)| + if phase.PassMarking? then 2 else if phase.PassRecording? then 1 else 0
  }

  ghost predicate Holds(s: State, t: nat, i: nat, c: Claim) {
    && Inv(s) && t < |s.threads| && s.threads[t].Pass? && c.row == i && i < |s.rows|
    && c in Carried(s.threads[t].phase)
  }

  /** The claim of a pass on a row is one. */
  lemma OneClaim(claims: seq<Claim>, c: Claim, d: Claim)
    requires DistinctRows(claims) && c in claims && d in claims && c.row == d.row
    ensures c == d
  {
    var j :| 0 <= j < |claims| && claims[j] == c;
    var k :| 0 <= k < |claims| && claims[k] == d;
    assert j == k;
  }

  lemma FailingPhase(rows: Table, cutoff: int, phase: PassStage, t: nat, i: nat, now: int, c: Claim)
    requires !phase.Selecting? && DistinctRows(Carried(phase)) && c in Carried(phase) && c.row == i < |rows|
    requires forall d :: d in Carried(phase) ==> d.row < |rows|
    ensures var (rows', next, _) := StepPass(rows, cutoff, phase, now, Failing(phase, t, i, now).verdict, []);
      && i < |rows'|
      && if phase.PassRecording? && phase.claim == c
         then rows'[i].deadAt == (if c.attempts >= MAX_ATTEMPTS then Some(now) else None)
         else c in Carried(next) && StepsLeft(next) < StepsLeft(phase)
  {
    var (_, next, _) := StepPass(rows, cutoff, phase, now, Failing(phase, t, i, now).verdict, []);
    if phase.PassMarking? || phase.PassRecording? {
      assert Carried(phase)[0] == phase.claim;
      if phase.claim.row == i { OneClaim(Carried(phase), c, phase.claim); }
      assert phase.claim.row != i ==> Carried(next) == Carried(phase)[1..];
    } else {
      assert Carried(next) == Carried(phase);
    }
  }

  lemma {:induction false} FailingStep(s: State, t: nat, i: nat, now: int, c: Claim)
    requires Holds(s, t, i, c)
    ensures var phase := s.threads[t].phase;
      var a := Failing(phase, t, i, now);
      && Enabled(s, a)
      && if phase.PassRecording? && phase.claim == c
         then i < |Apply(s, a).rows|
           && Apply(s, a).rows[i].deadAt == (if c.attempts >= MAX_ATTEMPTS then Some(now) else None)
         else Holds(Apply(s, a), t, i, c) && StepsLeft(Apply(s, a).threads[t].phase) < StepsLeft(phase)
  {
    hide StepPass, Inv, StepsLeft, OnRow, Carried, DistinctRows;
    var phase := s.threads[t].phase;
    HeldPhase(s, t, i, now, c);
    FailingPhase(s.rows, s.threads[t].cutoff, phase, t, i, now, c);
    InvKept(s, Failing(phase, t, i, now));
  }

  lemma HeldPhase(s: State, t: nat, i: nat, now: int, c: Claim)
    requires Holds(s, t, i, c)
    ensures Enabled(s, Failing(s.threads[t].phase, t, i, now))
    ensures var phase := s.threads[t].phase;
      !phase.Selecting? && DistinctRows(Carried(phase)) && forall d :: d in Carried(phase) ==> d.row < |s.rows|
  {
    assert ThreadOk(s, s.threads[t]);
    assert s.threads[t].phase.Walking? ==> s.threads[t].phase.todo != [];
  }

  /** A pass can go on to fail its claim on row `i`, which decides whether the row is dead. */
  lemma {:induction false} ClaimCanFail(s: State, t: nat, i: nat, now: int, c: Claim) returns (actions: seq<Action>)
    requires Holds(s, t, i, c)
    ensures Legal(s, actions) && i < |Exec(s, actions).rows|
    ensures Exec(s, actions).rows[i].deadAt == if c.attempts >= MAX_ATTEMPTS then Some(now) else None
    decreases StepsLeft(s.threads[t].phase)
  {
    FailingStep(s, t, i, now, c);
    var phase := s.threads[t].phase;
    var a := Failing(phase, t, i, now);
    if phase.PassRecording? && phase.claim == c {
      actions := [a];
      assert [a][1..] == [];
    } else {
      var rest := ClaimCanFail(Apply(s, a), t, i, now, c);
      actions := [a] + rest;
      assert actions[1..] == rest;
    }
  }

  lemma UnsettledHolds(s: State, t: nat, i: nat, limit: nat) returns (c: Claim)
    requires Inv(s) && Unsettled(s, t, i, limit) && i < |s.rows|
    ensures Holds(s, t, i, c) && c.attempts < limit
  {
    var k :| 0 <= k < |Carried(s.threads[t].phase)| && OnRow(Carried(s.threads[t].phase)[k], i, limit);
    c := Carried(s.threads[t].phase)[k];
  }

  /**
   A dead-lettered row stays dead in every run, overlapping passes included, exactly when no pass
   has still to settle a claim on it made before the last attempt; and nothing about its death
   changes exactly when no pass has still to settle any claim on it.
   */
  lemma {:induction false} StaysDeadExactly(before: seq<Action>, i: nat)
    requires Legal(EMPTY, before) && Dead(Exec(EMPTY, before), i)
    ensures var s := Exec(EMPTY, before);
      (forall after :: Legal(s, after) ==> Dead(Exec(s, after), i)) <==> !StillRetried(s, i)
    ensures var s := Exec(EMPTY, before);
      (forall after :: Legal(s, after) ==> SameDeath(s, Exec(s, after), i)) <==> !StillClaimed(s, i)
  {
    InvReached(EMPTY, before);
    var s := Exec(EMPTY, before);
    if StillRetried(s, i) {
      var t: nat :| Unsettled(s, t, i, MAX_ATTEMPTS);
      var c := UnsettledHolds(s, t, i, MAX_ATTEMPTS);
      var after := ClaimCanFail(s, t, i, 0, c);
      assert Legal(s, after) && !Dead(Exec(s, after), i);
    } else {
      forall after | Legal(s, after) ensures Dead(Exec(s, after), i) { StaysDead(s, after, i); }
    }
    if StillClaimed(s, i) {
      var t: nat, limit: nat :| Unsettled(s, t, i, limit);
      var c := UnsettledHolds(s, t, i, limit);
      var after := ClaimCanFail(s, t, i, s.rows[i].deadAt.value + 1, c);
      assert Legal(s, after) && !SameDeath(s, Exec(s, after), i);
    } else {
      forall after | Legal(s, after) ensures SameDeath(s, Exec(s, after), i) { StaysUntouched(s, after, i); }
    }
  }

  // ---------------------------------------------------------------- one pass at a time

  predicate Active(t: Thread) { t.Pass? && !Finished(t) }

  /** No pass starts before the previous one has finished or died. */
  ghost predicate OnePassAtATime(s: State, actions: seq<Action>)
    requires Legal(s, actions)
    decreases |actions|
  {
    actions != [] ==>
      && (actions[0].StartPass? ==> forall t :: 0 <= t < |s.threads| ==> !Active(s.threads[t]))
      && OnePassAtATime(Apply(s, actions[0]), actions[1..])
  }

  ghost predicate Exact(s: State) {
    && (forall t, u :: 0 <= t < |s.threads| && 0 <= u < |s.threads| && Active(s.threads[t]) && Active(s.threads[u]) ==>
      t == u)
    && (forall t :: 0 <= t < |s.threads| && Active(s.threads[t]) ==> ClaimsExact(s.rows, Carried(s.threads[t].phase)))
    && (forall i :: 0 <= i < |s.rows| && s.rows[i].deadAt.Some? ==> s.rows[i].attempts >= MAX_ATTEMPTS)
  }

  /** What the pass remembers of its rows is what the table says. */
  ghost predicate ClaimsExact(rows: Table, claims: seq<Claim>) {
    forall k :: 0 <= k < |claims| ==>
      claims[k].row < |rows| && rows[claims[k].row].attempts == claims[k].attempts && rows[claims[k].row].deadAt.None?
  }

  lemma ClaimedIsAlive(s: State, t: nat, i: nat, limit: nat)
    requires Exact(s) && Unsettled(s, t, i, limit)
    ensures !Dead(s, i)
  {
    assert Carried(s.threads[t].phase) != [] && Active(s.threads[t]);
    assert ClaimsExact(s.rows, Carried(s.threads[t].phase));
  }

  lemma DeadUntouched(s: State, a: Action, i: nat)
    requires Inv(s) && Exact(s) && Enabled(s, a) && Dead(s, i)
    ensures SameDeath(s, Apply(s, a), i)
  {
    hide Inv, Exact, Enabled, Apply, Unsettled;
    forall t: nat, limit: nat ensures !Unsettled(s, t, i, limit) {
      if Unsettled(s, t, i, limit) { ClaimedIsAlive(s, t, i, limit); }
    }
    DeadStep(s, a, i);
  }

  lemma DeadAfterLimit(s: State, a: Action, i: nat)
    requires Inv(s) && Exact(s) && Enabled(s, a)
    requires i < |Apply(s, a).rows| && Apply(s, a).rows[i].deadAt.Some?
    ensures Apply(s, a).rows[i].attempts >= MAX_ATTEMPTS
  {
    if i < |s.rows| && s.rows[i].deadAt.Some? {
      DeadUntouched(s, a, i);
    }
  }

  lemma PhaseStaysExact(rows: Table, cutoff: int, phase: PassStage, now: int, verdict: Verdict, chosen: seq<nat>)
    requires phase.Selecting? ==> MayClaim(rows, cutoff, chosen)
    requires DistinctRows(Carried(phase)) && ClaimsExact(rows, Carried(phase))
    ensures var (rows', next, ran) := StepPass(rows, cutoff, phase, now, verdict, chosen);
      ClaimsExact(rows', Carried(next))
  {
    var (rows', next, ran) := StepPass(rows, cutoff, phase, now, verdict, chosen);
    if phase.Selecting? {
      assert forall k :: 0 <= k < |chosen| ==> chosen[k] in chosen;
    } else if phase.Walking? || next.PassRecording? {
      assert Carried(next) == Carried(phase);
    } else if phase.claim.row < |rows| {
      assert Carried(next) == Carried(phase)[1..] && Carried(phase)[0] == phase.claim;
    }
  }

  lemma DeliveryLeavesClaims(rows: Table, key: Key, stage: DeliveryStage, now: int, verdict: Verdict,
    claims: seq<Claim>)
    requires ClaimsExact(rows, claims)
    ensures ClaimsExact(StepDelivery(rows, key, stage, now, verdict).0, claims)
  {
  }

  lemma ClaimsStayExact(s: State, a: Action, t: nat)
    requires Inv(s) && Exact(s) && Enabled(s, a)
    requires a.StartPass? ==> forall u :: 0 <= u < |s.threads| ==> !Active(s.threads[u])
    requires t < |Apply(s, a).threads| && Active(Apply(s, a).threads[t])
    ensures ClaimsExact(Apply(s, a).rows, Carried(Apply(s, a).threads[t].phase))
  {
    if t < |s.threads| {
      assert ThreadOk(s, s.threads[t]) && ClaimsExact(s.rows, Carried(s.threads[t].phase));
      if a.Step? {
        assert a.thread != t ==> !Active(s.threads[a.thread]);
        if s.threads[a.thread].Pass? {
          PhaseStaysExact(s.rows, s.threads[t].cutoff, s.threads[t].phase, a.now, a.verdict, a.chosen);
        } else {
          DeliveryLeavesClaims(s.rows, s.threads[a.thread].key, s.threads[a.thread].stage, a.now, a.verdict,
                               Carried(s.threads[t].phase));
        }
      }
    }
  }

  lemma {:induction false} ExactKept(s: State, a: Action)
    requires Inv(s) && Exact(s) && Enabled(s, a)
    requires a.StartPass? ==> forall t :: 0 <= t < |s.threads| ==> !Active(s.threads[t])
    ensures Exact(Apply(s, a))
  {
    var s' := Apply(s, a);
    forall i: nat | i < |s'.rows| && s'.rows[i].deadAt.Some? ensures s'.rows[i].attempts >= MAX_ATTEMPTS {
      DeadAfterLimit(s, a, i);
    }
    forall t: nat | t < |s'.threads| && Active(s'.threads[t])
      ensures ClaimsExact(s'.rows, Carried(s'.threads[t].phase))
    {
      ClaimsStayExact(s, a, t);
    }
    forall t: nat | t < |s.threads| && Active(s'.threads[t]) ensures Active(s.threads[t]) { }
  }

  lemma {:induction false} ExactReached(s: State, actions: seq<Action>)
    requires Inv(s) && Exact(s) && Legal(s, actions) && OnePassAtATime(s, actions)
    ensures Exact(Exec(s, actions))
    decreases |actions|
  {
    if actions != [] {
      InvKept(s, actions[0]);
      ExactKept(s, actions[0]);
      ExactReached(Apply(s, actions[0]), actions[1..]);
    }
  }

  /**
   With one pass at a time up to its death, a dead-lettered row was attempted at least five times
   and nothing about its death changes in any later run.
   */
  lemma {:induction false} DeadForGood(before: seq<Action>, after: seq<Action>, i: nat)
    requires Legal(EMPTY, before) && OnePassAtATime(EMPTY, before) && Dead(Exec(EMPTY, before), i)
    requires Legal(Exec(EMPTY, before), after)
    ensures var s := Exec(EMPTY, before);
      s.rows[i].attempts >= MAX_ATTEMPTS && SameDeath(s, Exec(s, after), i)
  {
    InvReached(EMPTY, before);
    ExactReached(EMPTY, before);
    var s := Exec(EMPTY, before);
    forall t: nat, limit: nat ensures !Unsettled(s, t, i, limit) {
      if Unsettled(s, t, i, limit) { ClaimedIsAlive(s, t, i, limit); }
    }
    StaysUntouched(s, after, i);
  }

  // ---------------------------------------------------------------- the service

  /** The statements left for a delivery. */
  function Remaining(stage: DeliveryStage): nat {
    match stage
    case Inserting => 5
    case LookingUp => 4
    case Running(_) => 3
    case Marking(_) => 2
    case Recording(_, _) => 1
    case Answered(_) => 0
  }

  /** One delivery run to its end with nothing in between: how its handler run ends, and its mark. */
  function DeliverAlone(rows: Table, key: Key, stage: DeliveryStage, now: int, handler: Verdict, mark: Verdict):
    (Table, DeliveryStage)
    decreases Remaining(stage)
  {
    var (rows', next, ran) := StepDelivery(rows, key, stage, now, if stage.Marking? then mark else handler);
    if Remaining(next) < Remaining(stage) then DeliverAlone(rows', key, next, now, handler, mark) else (rows, stage)
  }

  /** What an uninterrupted delivery makes of the table, and what it answers. */
  function Recorded(rows: Table, key: Key, now: int, handler: Verdict, mark: Verdict): (Table, Answer) {
    var found := FindByKey(rows, key);
    if found.Some? && rows[found.value].processedAt.Some? then (rows, Duplicate)
    else
      var kept := if found.Some? then rows else rows + [NewRow(key, now)];
      var r := if found.Some? then found.value else |rows|;
      match if handler.Succeeds? then mark else handler
      case Succeeds => (kept[r := kept[r].(processedAt := Some(now), error := None)], Processed)
      case Fails(message) => (kept[r := kept[r].(error := Some(message))], Rethrown)
  }

  lemma RunsOn(rows: Table, key: Key, stage: DeliveryStage, now: int, handler: Verdict, mark: Verdict)
    requires var (rows', next, ran) := StepDelivery(rows, key, stage, now, if stage.Marking? then mark else handler);
      Remaining(next) < Remaining(stage)
    ensures var (rows', next, ran) := StepDelivery(rows, key, stage, now, if stage.Marking? then mark else handler);
      DeliverAlone(rows, key, stage, now, handler, mark) == DeliverAlone(rows', key, next, now, handler, mark)
  {
  }

  lemma FromRecording(rows: Table, key: Key, r: nat, message: string, now: int, handler: Verdict, mark: Verdict)
    requires r < |rows|
    ensures DeliverAlone(rows, key, Recording(r, message), now, handler, mark)
         == (rows[r := rows[r].(error := Some(message))], Answered(Rethrown))
  {
    RunsOn(rows, key, Recording(r, message), now, handler, mark);
  }

  lemma FromRunning(rows: Table, key: Key, r: nat, now: int, handler: Verdict, mark: Verdict)
    requires r < |rows|
    ensures DeliverAlone(rows, key, Running(r), now, handler, mark) ==
      match if handler.Succeeds? then mark else handler
      case Succeeds => (rows[r := rows[r].(processedAt := Some(now), error := None)], Answered(Processed))
      case Fails(message) => (rows[r := rows[r].(error := Some(message))], Answered(Rethrown))
  {
    RunsOn(rows, key, Running(r), now, handler, mark);
    if handler.Fails? {
      FromRecording(rows, key, r, handler.message, now, handler, mark);
    } else {
      RunsOn(rows, key, Marking(r), now, handler, mark);
      if mark.Fails? { FromRecording(rows, key, r, mark.message, now, handler, mark); }
    }
  }

  /** An uninterrupted delivery is the protocol's delivery run to its end. */
  lemma {:induction false} RecordedIsTheDelivery(rows: Table, key: Key, now: int, handler: Verdict, mark: Verdict)
    ensures var (after, stage) := DeliverAlone(rows, key, Inserting, now, handler, mark);
      stage.Answered? && Recorded(rows, key, now, handler, mark) == (after, stage.answer)
  {
    var found := FindByKey(rows, key);
    RunsOn(rows, key, Inserting, now, handler, mark);
    if found.None? {
      FromRunning(rows + [NewRow(key, now)], key, |rows|, now, handler, mark);
    } else {
      RunsOn(rows, key, LookingUp, now, handler, mark);
      if rows[found.value].processedAt.None? {
        FromRunning(rows, key, found.value, now, handler, mark);
      }
    }
  }

  /** The table has one row of the key, `i`; or none, and then `i` is where the next row goes. */
  ghost predicate HeldAt(rows: Table, key: Key, i: nat) {
    i <= |rows| && (i < |rows| ==> rows[i].key == key)
    && forall j :: 0 <= j < |rows| && j != i ==> rows[j].key != key
  }

  /** One delivery column by column. */
  ghost predicate DeliveryWrites(
    was: Table, now: Table, key: Key, i: nat, time: int, handler: Verdict, mark: Verdict, answer: Answer)
    requires i <= |was|
  {
    var stored := i < |was|;
    && answer == (if stored && was[i].processedAt.Some? then Duplicate
                  else if handler.Succeeds? && mark.Succeeds? then Processed else Rethrown)
    && |now| == (if stored then |was| else |was| + 1)
    && (forall j :: 0 <= j < |was| && (j != i || answer == Duplicate) ==> now[j] == was[j])
    && (answer != Duplicate ==>
          && now[i].key == key
          && now[i].createdAt == (if stored then was[i].createdAt else time)
          && now[i].attempts == (if stored then was[i].attempts else 0)
          && now[i].deadAt == (if stored then was[i].deadAt else None)
          && now[i].processedAt == (if answer == Processed then Some(time) else None)
          && now[i].error == (if answer == Processed then None
                              else if handler.Fails? then Some(handler.message) else Some(mark.message)))
  }

  lemma {:induction false} RecordedByColumns(
    rows: Table, key: Key, i: nat, time: int, handler: Verdict, mark: Verdict)
    requires HeldAt(rows, key, i)
    ensures var (now, answer) := Recorded(rows, key, time, handler, mark);
      DeliveryWrites(rows, now, key, i, time, handler, mark, answer)
  {
    assert FindByKey(rows, key) == if i < |rows| then Some(i) else None;
    hide FindByKey;
  }

  /** `BillingWebhookService` over its table, one delivery at a time. */
  class BillingWebhookService {
    var rows: Table

    constructor ()
      ensures rows == []
    {
      rows := [];
    }

    /** `record`: claim by inserting, or recognise the event, then run the handler and mark its success. */
    method Record(key: Key, now: int, handler: Verdict, mark: Verdict) returns (answer: Answer)
      modifies this
      ensures (rows, answer) == Recorded(old(rows), key, now, handler, mark)
      ensures forall i :: HeldAt(old(rows), key, i) ==>
        DeliveryWrites(old(rows), rows, key, i, now, handler, mark, answer)
    {
      ghost var (after, expected) := Recorded(rows, key, now, handler, mark);
      forall i: nat | HeldAt(rows, key, i)
        ensures DeliveryWrites(rows, after, key, i, now, handler, mark, expected)
      {
        RecordedByColumns(rows, key, i, now, handler, mark);
      }
      var claimed := |rows|;
      var existing := FindByKey(rows, key);
      if existing.None? {
        rows := rows + [NewRow(key, now)];
      } else {
        if rows[existing.value].processedAt.Some? {
          return Duplicate;
        }
        claimed := existing.value;
      }
      var failure := handler;
      if handler.Succeeds? {
        failure := mark;
        if mark.Succeeds? {
          rows := rows[claimed := rows[claimed].(processedAt := Some(now), error := None)];
          return Processed;
        }
      }
      rows := rows[claimed := rows[claimed].(error := Some(failure.message))];
      return Rethrown;
    }
  }
}
