/** Webhook delivery (webhook/deliver.go, repository/db/outbox.sql.go): leased claims, bounded retries
    with backoff, dead letters, and the log of attempts. */
module Delivery {
  import Runs
  import Tables

  type Id = Tables.Id
  type Time = Tables.Time
  type int64 = Tables.int64

  // ---------------------------------------------------------------- backoff

  /** Durations are int64 nanoseconds. */
  const SECOND := 1_000_000_000
  const FIVE_MINUTES := 300_000_000_000

  function Pow2(n: nat): (r: int)
    ensures r >= 1
  {
    if n == 0 then 1 else 2 * Pow2(n - 1)
  }

  function Min(a: int, b: int): int {
    if a <= b then a else b
  }

  /** Doubling per attempt, capped at five minutes. */
  function Capped(base: int, attempt: int): int {
    Min(base * Pow2(if attempt > 1 then attempt - 1 else 0), FIVE_MINUTES)
  }

  /** What is waited before the next attempt: the first time, the base as it is. */
  function Waited(base: int, attempt: int): int {
    if attempt <= 1 then base else Capped(base, attempt)
  }

  lemma {:induction false} Pow2Grows(m: nat, n: nat)
    requires m <= n
    ensures Pow2(m) <= Pow2(n)
  {
    if m < n {
      Pow2Grows(m, n - 1);
    }
  }

  lemma ProductGrows(base: int, a: int, b: int)
    requires base >= 0 && a <= b
    ensures base * a <= base * b
  {
  }

  lemma ProductDoubles(base: int, n: nat)
    ensures base * Pow2(n + 1) == 2 * (base * Pow2(n))
  {
    assert Pow2(n + 1) == 2 * Pow2(n);
  }

  /** Once a product reaches the cap, every later one does. */
  lemma StaysCapped(base: int, n: nat, attempt: int)
    requires base >= 0 && n < attempt && base * Pow2(n) >= FIVE_MINUTES
    ensures attempt > 1 ==> Capped(base, attempt) == FIVE_MINUTES
  {
    Pow2Grows(n, attempt - 1);
    ProductGrows(base, Pow2(n), Pow2(attempt - 1));
  }

  /** The loop, in int64: for any base below 2^62 no doubling overflows, and from the second attempt on
      (or for a base within the cap) the wait is the capped power. */
  method Backoff(base: int64, attempt: int) returns (d: int64)
    requires 0 <= base <= 0x3FFF_FFFF_FFFF_FFFF
    ensures d as int == Waited(base as int, attempt)
    ensures base <= FIVE_MINUTES ==> d as int == Capped(base as int, attempt)
  {
    d := base;
    var i := 1;
    ghost var product := base as int * Pow2(0);
    while i < attempt
      invariant 1 <= i && (attempt >= 1 ==> i <= attempt) && (attempt < 1 ==> i == 1)
      invariant product == base as int * Pow2(i - 1)
      invariant d as int == product
      invariant i > 1 ==> d < FIVE_MINUTES
      decreases attempt - i
    {
      ProductDoubles(base as int, i - 1);
      product := 2 * product;
      d := d * 2;
      if d >= FIVE_MINUTES {
        StaysCapped(base as int, i, attempt);
        return FIVE_MINUTES;
      }
      i := i + 1;
    }
  }

  lemma CappedGrows(base: int, m: int, n: int)
    requires 0 <= base && m <= n
    ensures 0 <= Capped(base, m) <= Capped(base, n) <= FIVE_MINUTES
  {
    var a, b := if m > 1 then m - 1 else 0, if n > 1 then n - 1 else 0;
    Pow2Grows(a, b);
    ProductGrows(base, Pow2(a), Pow2(b));
    ProductGrows(base, 0, Pow2(a));
  }

  /** Later attempts never wait less exactly for a base within the cap; a larger one is waited in full
      once and capped from then on. Later than the first attempt nobody waits more than five minutes. */
  lemma BackoffIsMonotone(base: int)
    requires 0 <= base
    ensures base <= FIVE_MINUTES <==> forall m, n :: m <= n ==> Waited(base, m) <= Waited(base, n)
    ensures forall n :: n > 1 || base <= FIVE_MINUTES ==> 0 <= Waited(base, n) <= FIVE_MINUTES
  {
    forall m, n | m <= n
      ensures 0 <= Capped(base, m) <= Capped(base, n) <= FIVE_MINUTES
    {
      CappedGrows(base, m, n);
    }
    assert Pow2(0) == 1;
    assert base <= FIVE_MINUTES ==> forall n :: Waited(base, n) == Capped(base, n);
    assert base > FIVE_MINUTES ==> Waited(base, 1) > FIVE_MINUTES >= Waited(base, 2);
  }

  /** Each wait is twice the one before, until the cap; the first is the base itself. */
  lemma WaitsDouble(base: int, attempt: nat)
    requires 0 <= base && attempt >= 1
    ensures Waited(base, 1) == base
    ensures base <= FIVE_MINUTES ==> Waited(base, attempt + 1) == Min(2 * Waited(base, attempt), FIVE_MINUTES)
    ensures base > FIVE_MINUTES ==> Waited(base, attempt + 1) == FIVE_MINUTES
  {
    ProductDoubles(base, attempt - 1);
    ProductGrows(base, 1, Pow2(attempt));
    assert base * Pow2(0) == base;
  }

  // ---------------------------------------------------------------- one row

  datatype Status = Pending | Delivered | Dead

  datatype Row = Row(status: Status, attempts: int, nextAttemptAt: Time)

  datatype Attempt = Attempt(number: int, ok: bool)

  /** How one try to deliver ends: there is no endpoint; a 2xx; anything else; an error or a crash before
      the attempt is logged; or one after it is logged and before the row is marked. */
  datatype Outcome = NoEndpoint | Accepted | Refused | Unlogged | Unmarked(ok: bool)

  predicate Finished(outcome: Outcome) {
    !outcome.Unlogged? && !outcome.Unmarked?
  }

  /** A row, its attempts, and how many of them were logged and then left unmarked. */
  datatype Box = Box(row: Row, log: seq<Attempt>, unmarked: nat)

  const MAX_ATTEMPTS := 6
  const LEASE := 30 * SECOND
  const BASE := 1_000_000_000

  function Leased(box: Box, now: Time): Box {
    box.(row := box.row.(nextAttemptAt := now + LEASE))
  }

  /** What a delivery does to the row as it now is, having read `copy` when it began: the log takes the
      copy's number, the marks are relative to the current row. */
  function Deliver(box: Box, copy: Row, outcome: Outcome, now: Time): Box {
    var attempt := copy.attempts + 1;
    match outcome
    case NoEndpoint => box.(row := box.row.(status := Delivered))
    case Accepted => box.(row := box.row.(status := Delivered), log := box.log + [Attempt(attempt, true)])
    case Unlogged => box
    case Unmarked(ok) => box.(log := box.log + [Attempt(attempt, ok)], unmarked := box.unmarked + 1)
    case Refused =>
      var log := box.log + [Attempt(attempt, false)];
      if attempt >= MAX_ATTEMPTS then box.(row := box.row.(status := Dead, attempts := box.row.attempts + 1), log := log)
      else box.(row := box.row.(attempts := box.row.attempts + 1, nextAttemptAt := now + Capped(BASE, attempt)), log := log)
  }

  /** DeliverByID: a row that is no longer pending is left alone. */
  function DeliverById(box: Box, outcome: Outcome, now: Time): Box {
    if box.row.status != Pending then box else Deliver(box, box.row, outcome, now)
  }

  datatype Action =
    | Claim(now: Time)
    | Task(outcome: Outcome, now: Time)

  const FRESH := Box(Row(Pending, 0, 0), [], 0)

  /** Deliveries of one row, one after the other. */
  predicate Next(box: Box, action: Action, box': Box) {
    match action
    case Claim(now) =>
      box.row.status == Pending && box.row.nextAttemptAt <= now
      && box' == Leased(box, now)
    case Task(outcome, now) => box' == DeliverById(box, outcome, now)
  }

  ghost function Nexts(): Runs.Relation<Box, Action> {
    (b, a, b') => Next(b, a, b')
  }

  /** What the row and its log say of each other. */
  ghost predicate BoxOk(b: Box) {
    var logged := b.row.attempts + b.unmarked;
    && 0 <= b.row.attempts
    && (forall k :: 0 <= k < |b.log| ==> 1 <= b.log[k].number <= MAX_ATTEMPTS)
    && (|b.log| == logged || (|b.log| == logged + 1 && b.row.status == Delivered && b.log[logged].ok))
    && (if b.row.status == Dead then b.row.attempts == MAX_ATTEMPTS && !b.log[|b.log| - 1].ok
        else b.row.attempts < MAX_ATTEMPTS)
    && (b.unmarked == 0 ==> Numbered(b))
  }

  /** Without an attempt left unmarked, the log is numbered 1, 2, 3 ... with nothing skipped, its first
      `attempts` entries are the failures, and one more is the success that delivered the row. */
  ghost predicate Numbered(b: Box) {
    && (forall k :: 0 <= k < |b.log| ==> b.log[k].number == k + 1)
    && (forall k :: 0 <= k < |b.log| ==> (b.log[k].ok <==> k == b.row.attempts))
  }

  lemma NextKeepsBox(b: Box, a: Action, b': Box)
    requires BoxOk(b) && Next(b, a, b')
    ensures BoxOk(b')
  {
  }

  /** After any number of claims, deliveries and crashes: pending means fewer than six marked failures,
      dead means exactly six, delivered means at most one entry beyond them, a success; and when every
      logged attempt was marked the log tells the whole story. */
  lemma RowsAreTold(trace: seq<Box>, actions: seq<Action>, n: nat)
    requires Runs.IsRun(FRESH, Nexts(), trace, actions) && n < |trace|
    ensures BoxOk(trace[n])
  {
    forall b, a, b' | BoxOk(b) && Next(b, a, b')
      ensures BoxOk(b')
    {
      NextKeepsBox(b, a, b');
    }
    Runs.Induction(b => BoxOk(b), FRESH, Nexts(), trace, actions, n);
  }

  /** A row that is delivered or dead is never posted again, nor changed. */
  lemma SettledRowsRest(trace: seq<Box>, actions: seq<Action>, m: nat, n: nat)
    requires Runs.IsRun(FRESH, Nexts(), trace, actions) && m <= n < |trace|
    requires trace[m].row.status != Pending
    ensures trace[n] == trace[m]
  {
    var b0 := trace[m];
    Runs.Onwards(b => b == b0, FRESH, Nexts(), trace, actions, m, n);
  }

  /** From there on, no delivery of the row runs to its end. */
  ghost predicate Unfinished(actions: seq<Action>, m: nat, n: nat)
    requires n <= |actions|
  {
    forall k :: m <= k < n && actions[k].Task? ==> !Finished(actions[k].outcome)
  }

  lemma {:induction false} DueTimesClimb(trace: seq<Box>, actions: seq<Action>, m: nat, n: nat)
    requires Runs.IsRun(FRESH, Nexts(), trace, actions) && m <= n <= |actions| && Unfinished(actions, m, n)
    ensures trace[m].row.nextAttemptAt <= trace[n].row.nextAttemptAt
  {
    if m < n {
      DueTimesClimb(trace, actions, m, n - 1);
      assert Runs.Linked(Nexts(), trace, actions, n - 1);
    }
  }

  /** A claimed row is not claimed again before its lease is over, and a refused one not before its
      backoff is, unless a delivery ran to its end in between. */
  lemma ClaimsWait(trace: seq<Box>, actions: seq<Action>, m: nat, n: nat)
    requires Runs.IsRun(FRESH, Nexts(), trace, actions) && m < n < |actions| && Unfinished(actions, m + 1, n)
    requires actions[n].Claim?
    ensures actions[m].Claim? ==> actions[m].now + LEASE <= actions[n].now
    ensures actions[m].Task? && actions[m].outcome.Refused? && trace[m].row.status == Pending ==>
              actions[m].now + Capped(BASE, trace[m + 1].row.attempts) <= actions[n].now
  {
    assert Runs.Linked(Nexts(), trace, actions, m) && Runs.Linked(Nexts(), trace, actions, n);
    DueTimesClimb(trace, actions, m + 1, n);
    if trace[m + 1].row.status == Dead {
      SettledRowsRest(trace, actions, m + 1, n);
    }
  }

  /** How many more refusals the row can take. */
  function Patience(b: Box): int {
    if b.row.status == Pending then MAX_ATTEMPTS - b.row.attempts else 0
  }

  /** Every delivery that runs to its end uses up patience, and none is left over: retries are bounded. */
  lemma DeliveriesEnd(b: Box, outcome: Outcome, now: Time)
    requires BoxOk(b) && b.row.status == Pending && Finished(outcome)
    ensures 0 <= Patience(DeliverById(b, outcome, now)) < Patience(b)
    ensures Patience(DeliverById(b, outcome, now)) == 0 <==> DeliverById(b, outcome, now).row.status != Pending
  {
  }

  /** How a delivery of a pending row ends. A 2xx, or no endpoint, delivers it; any other answer makes it
      dead if it was the sixth, and else leaves it pending until its backoff is over. Every attempt that was
      made is logged with the next number and whether it succeeded; what is lost is lost as it was. */
  lemma DeliveriesAnswer(b: Box, outcome: Outcome, now: Time)
    requires BoxOk(b) && b.row.status == Pending
    ensures
      var after := DeliverById(b, outcome, now);
      var attempt := b.row.attempts + 1;
      match outcome
      case NoEndpoint => after == b.(row := b.row.(status := Delivered))
      case Accepted => after.row == b.row.(status := Delivered) && after.log == b.log + [Attempt(attempt, true)]
      case Refused =>
        && after.log == b.log + [Attempt(attempt, false)] && after.row.attempts == attempt
        && (if attempt == 6 then after.row.status == Dead
            else after.row.status == Pending && after.row.nextAttemptAt == now + Waited(BASE, attempt))
      case Unlogged => after == b
      case Unmarked(ok) => after.row == b.row && after.log == b.log + [Attempt(attempt, ok)]
  {
    assert BASE * Pow2(0) == BASE;
  }

  /** Overlapping deliveries of one row break this: the marks filter by id only, so a success that
      began before the last refusal revives a dead row, one more refusal counts past the last attempt, and a
      refusal kills a delivered row. */
  lemma OverlapRevives(now: Time) returns (b: Box, copy: Row)
    ensures BoxOk(b) && copy == b.row && copy.status == Pending
    ensures var dead := Deliver(b, copy, Refused, now); dead.row.status == Dead && Deliver(dead, copy, Accepted, now).row.status == Delivered
    ensures var dead := Deliver(b, copy, Refused, now); Deliver(dead, copy, Refused, now).row.attempts > MAX_ATTEMPTS
    ensures var ok := Deliver(b, copy, Accepted, now); ok.row.status == Delivered && Deliver(ok, copy, Refused, now).row.status == Dead
  {
    copy := Row(Pending, 5, now);
    b := Box(copy, seq(5, k requires 0 <= k < 5 => Attempt(k + 1, false)), 0);
  }

  /** Exactly when a delivery that overlapped leaves a settled row's status alone, and exactly when a
      delivery leaves a row and its log alone altogether. */
  lemma OverlapHarmlessIff(b: Box, copy: Row, outcome: Outcome, now: Time)
    ensures b.row.status != Pending ==> (
      Deliver(b, copy, outcome, now).row.status == b.row.status <==>
        || !Finished(outcome)
        || (b.row.status == Delivered && (!outcome.Refused? || copy.attempts + 1 < MAX_ATTEMPTS))
        || (b.row.status == Dead && outcome.Refused?))
    ensures Deliver(b, copy, outcome, now) == b <==> outcome.Unlogged? || (outcome.NoEndpoint? && b.row.status == Delivered)
  {
    assert forall e :: |b.log + [e]| > |b.log|;
  }

  /** A copy that a delivery may still hold: the row was pending then, and attempts never fall. */
  predicate Earlier(copy: Row, row: Row) {
    copy.status == Pending && 0 <= copy.attempts < MAX_ATTEMPTS && copy.attempts <= row.attempts
  }

  /** The success that delivered the row is on record. */
  predicate Succeeded(b: Box) {
    |b.log| > b.row.attempts + b.unmarked
  }

  /** Whether the row can take the delivery that holds this copy: it is not dead and has no success yet;
      the number that is logged is the next one, unless the numbering is broken already; and the copy and
      the row agree on whether this is the last attempt. */
  predicate Absorbs(b: Box, copy: Row, outcome: Outcome) {
    var open := b.row.status != Dead && !Succeeded(b) && (b.unmarked == 0 ==> copy.attempts == b.row.attempts);
    match outcome
    case Unlogged => true
    case NoEndpoint => b.row.status != Dead
    case Unmarked(ok) => if ok then b.row.status != Dead else !Succeeded(b)
    case Accepted => open
    case Refused => open && (copy.attempts + 1 == MAX_ATTEMPTS <==> b.row.attempts + 1 == MAX_ATTEMPTS)
  }

  /** Exactly when what row and log say of each other survives a delivery, overlapping or not. */
  lemma OverlapAbsorbedIff(b: Box, copy: Row, outcome: Outcome, now: Time)
    requires BoxOk(b) && Earlier(copy, b.row)
    ensures BoxOk(Deliver(b, copy, outcome, now)) <==> Absorbs(b, copy, outcome)
  {
    match outcome
    case Accepted => AcceptedIff(b, copy, now);
    case Refused => RefusedIff(b, copy, now);
    case Unmarked(ok) => UnmarkedIff(b, copy, ok, now);
    case _ =>
  }

  lemma AcceptedIff(b: Box, copy: Row, now: Time)
    requires BoxOk(b) && Earlier(copy, b.row)
    ensures BoxOk(Deliver(b, copy, Accepted, now)) <==> Absorbs(b, copy, Accepted)
  {
    var b' := Deliver(b, copy, Accepted, now);
    assert b'.log[|b.log|] == Attempt(copy.attempts + 1, true);
    assert forall k :: 0 <= k < |b.log| ==> b'.log[k] == b.log[k];
  }

  lemma RefusedIff(b: Box, copy: Row, now: Time)
    requires BoxOk(b) && Earlier(copy, b.row)
    ensures BoxOk(Deliver(b, copy, Refused, now)) <==> Absorbs(b, copy, Refused)
  {
    var b' := Deliver(b, copy, Refused, now);
    assert b'.log[|b.log|] == Attempt(copy.attempts + 1, false);
    assert forall k :: 0 <= k < |b.log| ==> b'.log[k] == b.log[k];
  }

  lemma UnmarkedIff(b: Box, copy: Row, ok: bool, now: Time)
    requires BoxOk(b) && Earlier(copy, b.row)
    ensures BoxOk(Deliver(b, copy, Unmarked(ok), now)) <==> Absorbs(b, copy, Unmarked(ok))
  {
    var b' := Deliver(b, copy, Unmarked(ok), now);
    assert b'.log[|b.log|] == Attempt(copy.attempts + 1, ok);
    assert forall k :: 0 <= k < |b.log| ==> b'.log[k] == b.log[k];
  }

  /** A delivery that holds the row as it is now is always absorbed. */
  lemma CurrentIsAbsorbed(b: Box, outcome: Outcome)
    requires BoxOk(b) && b.row.status == Pending
    ensures Earlier(b.row, b.row) && Absorbs(b, b.row, outcome)
  {
  }

  // ---------------------------------------------------------------- deliveries that overlap

  /** A row, its log, and the copies that deliveries under way have read. */
  datatype Busy = Busy(box: Box, copies: map<Id, Row>)

  datatype Move =
    | Lease(at: Time)
    | Start(worker: Id)
    | End(worker: Id, result: Outcome, at: Time)

  const IDLE := Busy(FRESH, map[])

  predicate Moves(s: Busy, move: Move, s': Busy) {
    match move
    case Lease(at) => Next(s.box, Claim(at), s'.box) && s'.copies == s.copies
    case Start(w) => w !in s.copies && s.box.row.status == Pending && s' == s.(copies := s.copies[w := s.box.row])
    case End(w, result, at) => w in s.copies && s' == Busy(Deliver(s.box, s.copies[w], result, at), s.copies - {w})
  }

  ghost function AllMoves(): Runs.Relation<Busy, Move> {
    (s, m, s') => Moves(s, m, s')
  }

  ghost predicate CopiesOk(s: Busy) {
    forall w :: w in s.copies ==> Earlier(s.copies[w], s.box.row)
  }

  /** The delivery that ends at this move, if one does, is absorbed. */
  predicate Absorbed(s: Busy, move: Move) {
    move.End? && move.worker in s.copies ==> Absorbs(s.box, s.copies[move.worker], move.result)
  }

  lemma MoveKeepsBoxIff(s: Busy, move: Move, s': Busy)
    requires BoxOk(s.box) && CopiesOk(s) && Moves(s, move, s')
    ensures BoxOk(s'.box) <==> Absorbed(s, move)
    ensures BoxOk(s'.box) ==> CopiesOk(s')
  {
    if move.End? {
      OverlapAbsorbedIff(s.box, s.copies[move.worker], move.result, move.at);
    } else if move.Lease? {
      NextKeepsBox(s.box, Claim(move.at), s'.box);
    }
  }

  /** Exactly what overlap may do: row and log have kept their account of each other up to some point of
      a run if and only if every delivery that ended until then was absorbed. */
  lemma {:induction false} OverlapIsToldIff(trace: seq<Busy>, moves: seq<Move>, n: nat)
    requires Runs.IsRun(IDLE, AllMoves(), trace, moves) && n < |trace|
    ensures (forall k :: 0 <= k <= n ==> BoxOk(trace[k].box)) <==> (forall k :: 0 <= k < n ==> Absorbed(trace[k], moves[k]))
    ensures (forall k :: 0 <= k <= n ==> BoxOk(trace[k].box)) ==> CopiesOk(trace[n])
  {
    if n > 0 {
      OverlapIsToldIff(trace, moves, n - 1);
      assert Runs.Linked(AllMoves(), trace, moves, n - 1);
      if forall k :: 0 <= k <= n - 1 ==> BoxOk(trace[k].box) {
        MoveKeepsBoxIff(trace[n - 1], moves[n - 1], trace[n]);
      }
    }
  }

  // ---------------------------------------------------------------- the processor

  /** Due, and not locked by another dispatcher. */
  predicate Due(boxes: map<Id, Box>, locked: set<Id>, id: Id, now: Time) {
    id in boxes && id !in locked && boxes[id].row.status == Pending && boxes[id].row.nextAttemptAt <= now
  }

  /** No due row has been due for longer. */
  predicate Longest(boxes: map<Id, Box>, locked: set<Id>, id: Id, now: Time) {
    Due(boxes, locked, id, now)
    && forall j :: j in boxes && Due(boxes, locked, j, now) ==> boxes[id].row.nextAttemptAt <= boxes[j].row.nextAttemptAt
  }

  lemma {:induction false} SomeLongest(boxes: map<Id, Box>, some: set<Id>) returns (id: Id)
    requires some != {} && some <= boxes.Keys
    ensures id in some && forall j :: j in some ==> boxes[id].row.nextAttemptAt <= boxes[j].row.nextAttemptAt
    decreases |some|
  {
    var one :| one in some;
    var rest := some - {one};
    id := one;
    if rest != {} {
      var other := SomeLongest(boxes, rest);
      if boxes[other].row.nextAttemptAt < boxes[one].row.nextAttemptAt {
        id := other;
      }
    }
    forall j | j in some
      ensures boxes[id].row.nextAttemptAt <= boxes[j].row.nextAttemptAt
    {
      assert j == one || j in rest;
    }
  }

  /** When nothing is due for longest, nothing is due. */
  lemma NoneDue(boxes: map<Id, Box>, locked: set<Id>, now: Time)
    requires forall id :: id in boxes ==> !Longest(boxes, locked, id, now)
    ensures forall id :: !Due(boxes, locked, id, now)
  {
    var due := set id | id in boxes && Due(boxes, locked, id, now);
    if due != {} {
      var id := SomeLongest(boxes, due);
      assert Longest(boxes, locked, id, now);
    }
    assert forall id :: Due(boxes, locked, id, now) ==> id in due;
  }

  /** The table with some rows leased. */
  function LeasedAll(boxes: map<Id, Box>, claimed: seq<Id>, now: Time): map<Id, Box> {
    map id | id in boxes :: if id in claimed then Leased(boxes[id], now) else boxes[id]
  }

  /** The due rows that were claimed, each once, are those due for longest. */
  ghost predicate Claims(boxes: map<Id, Box>, locked: set<Id>, claimed: seq<Id>, now: Time) {
    && (forall k :: 0 <= k < |claimed| ==> Due(boxes, locked, claimed[k], now))
    && (forall j, k :: 0 <= j < k < |claimed| ==> claimed[j] != claimed[k])
    && (forall k, id :: 0 <= k < |claimed| && Due(boxes, locked, id, now) && id !in claimed ==>
          boxes[claimed[k]].row.nextAttemptAt <= boxes[id].row.nextAttemptAt)
  }

  lemma ClaimOneMore(boxes: map<Id, Box>, locked: set<Id>, claimed: seq<Id>, id: Id, now: Time)
    requires Claims(boxes, locked, claimed, now) && Longest(LeasedAll(boxes, claimed, now), locked, id, now)
    ensures Claims(boxes, locked, claimed + [id], now)
    ensures LeasedAll(boxes, claimed, now)[id := Leased(LeasedAll(boxes, claimed, now)[id], now)] == LeasedAll(boxes, claimed + [id], now)
  {
    var leased := LeasedAll(boxes, claimed, now);
    assert id !in claimed;
    forall j | Due(boxes, locked, j, now) && j !in claimed
      ensures boxes[id].row.nextAttemptAt <= boxes[j].row.nextAttemptAt
    {
      assert Due(leased, locked, j, now);
    }
    assert forall j :: j in claimed + [id] <==> j in claimed || j == id;
  }

  /** The first `done` claimed rows have had their delivery, one each; nothing else has changed. */
  ghost predicate Worked(before: map<Id, Box>, after: map<Id, Box>, claimed: seq<Id>, outcomes: Id -> Outcome, now: Time, done: nat) {
    && after.Keys == before.Keys
    && (forall id :: id in before && id !in claimed ==> after[id] == before[id])
    && (forall k :: 0 <= k < |claimed| ==> claimed[k] in before && claimed[k] in after)
    && (forall k :: 0 <= k < |claimed| ==>
          after[claimed[k]] == if k < done then Deliver(before[claimed[k]], before[claimed[k]].row, outcomes(claimed[k]), now)
                               else before[claimed[k]])
  }

  lemma WorkOneMore(before: map<Id, Box>, mid: map<Id, Box>, claimed: seq<Id>, outcomes: Id -> Outcome, now: Time, done: nat)
    requires Worked(before, mid, claimed, outcomes, now, done) && done < |claimed|
    requires forall j, k :: 0 <= j < k < |claimed| ==> claimed[j] != claimed[k]
    ensures var id := claimed[done];
      id in mid && id in before
      && Worked(before, mid[id := Deliver(mid[id], before[id].row, outcomes(id), now)], claimed, outcomes, now, done + 1)
  {
  }

  class Processor {
    var boxes: map<Id, Box>

    constructor ()
      ensures boxes == map[]
    {
      boxes := map[];
    }

    /** Claim up to `limit` of the due rows, skipping those another dispatcher has locked: those due for
        longest. Lease them forward, so that none is claimed again while its delivery runs. */
    method ClaimDueOutbox(limit: nat, locked: set<Id>, now: Time) returns (claimed: seq<Id>, copies: seq<Row>)
      modifies this
      ensures |copies| == |claimed| <= limit && Claims(old(boxes), locked, claimed, now)
      ensures boxes == LeasedAll(old(boxes), claimed, now)
      ensures forall k :: 0 <= k < |claimed| ==> claimed[k] in boxes && copies[k] == boxes[claimed[k]].row
      ensures |claimed| < limit ==> forall id :: Due(old(boxes), locked, id, now) ==> id in claimed
      ensures forall k :: 0 <= k < |claimed| ==>
        copies[k] == Row(Pending, copies[k].attempts, now + LEASE) && claimed[k] !in locked
        && old(boxes)[claimed[k]].row.nextAttemptAt <= now
      ensures |claimed| < limit ==> forall id :: id in old(boxes) && id !in locked && id !in claimed ==>
        old(boxes)[id].row.status != Pending || old(boxes)[id].row.nextAttemptAt > now
    {
      claimed, copies := [], [];
      while |claimed| < limit
        invariant |copies| == |claimed| <= limit && Claims(old(boxes), locked, claimed, now)
        invariant boxes == LeasedAll(old(boxes), claimed, now)
        invariant forall k :: 0 <= k < |claimed| ==> claimed[k] in boxes && copies[k] == boxes[claimed[k]].row
        decreases limit - |claimed|
      {
        if id :| id in boxes && Longest(boxes, locked, id, now) {
          ClaimOneMore(old(boxes), locked, claimed, id, now);
          boxes := boxes[id := Leased(boxes[id], now)];
          claimed, copies := claimed + [id], copies + [boxes[id].row];
        } else {
          NoneDue(boxes, locked, now);
          assert forall id :: Due(old(boxes), locked, id, now) && id !in claimed ==> Due(boxes, locked, id, now);
          return;
        }
      }
    }

    /** The marks touch the row of that id, if there is one, whatever its status. */
    method MarkOutboxDelivered(id: Id)
      modifies this
      ensures id !in old(boxes) ==> boxes == old(boxes)
      ensures id in old(boxes) ==> boxes == old(boxes)[id := old(boxes)[id].(row := old(boxes)[id].row.(status := Delivered))]
    {
      if id in boxes {
        boxes := boxes[id := boxes[id].(row := boxes[id].row.(status := Delivered))];
      }
    }

    method MarkOutboxDead(id: Id)
      modifies this
      ensures id !in old(boxes) ==> boxes == old(boxes)
      ensures id in old(boxes) ==>
        boxes == old(boxes)[id := old(boxes)[id].(row := old(boxes)[id].row.(status := Dead, attempts := old(boxes)[id].row.attempts + 1))]
    {
      if id in boxes {
        var row := boxes[id].row;
        boxes := boxes[id := boxes[id].(row := row.(status := Dead, attempts := row.attempts + 1))];
      }
    }

    method MarkOutboxRetry(id: Id, next: Time)
      modifies this
      ensures id !in old(boxes) ==> boxes == old(boxes)
      ensures id in old(boxes) ==>
        boxes == old(boxes)[id := old(boxes)[id].(row := old(boxes)[id].row.(attempts := old(boxes)[id].row.attempts + 1, nextAttemptAt := next))]
    {
      if id in boxes {
        var row := boxes[id].row;
        boxes := boxes[id := boxes[id].(row := row.(attempts := row.attempts + 1, nextAttemptAt := next))];
      }
    }

    method InsertDelivery(id: Id, attempt: int, ok: bool)
      requires id in boxes
      modifies this
      ensures boxes == old(boxes)[id := old(boxes)[id].(log := old(boxes)[id].log + [Attempt(attempt, ok)])]
    {
      boxes := boxes[id := boxes[id].(log := boxes[id].log + [Attempt(attempt, ok)])];
    }

    /** The error tells the caller that the delivery did not run to its end. */
    method DeliverRow(id: Id, copy: Row, outcome: Outcome, now: Time) returns (ok: bool)
      requires id in boxes
      modifies this
      ensures ok == Finished(outcome)
      ensures boxes == old(boxes)[id := Deliver(old(boxes)[id], copy, outcome, now)]
    {
      ok := Finished(outcome);
      if outcome.NoEndpoint? {
        MarkOutboxDelivered(id);
        return;
      }
      var attempt := copy.attempts + 1;
      if outcome.Unlogged? {
        return;
      }
      InsertDelivery(id, attempt, outcome.Accepted? || (outcome.Unmarked? && outcome.ok));
      if outcome.Unmarked? {
        boxes := boxes[id := boxes[id].(unmarked := boxes[id].unmarked + 1)];
        return;
      }
      if outcome.Accepted? {
        MarkOutboxDelivered(id);
      } else if attempt >= MAX_ATTEMPTS {
        MarkOutboxDead(id);
      } else {
        var wait := Backoff(BASE, attempt);
        MarkOutboxRetry(id, now + wait as int);
      }
    }

    /** No such row is an error, a settled one is not. */
    method DeliverByID(id: Id, outcome: Outcome, now: Time) returns (ok: bool)
      modifies this
      ensures id !in old(boxes) ==> !ok && boxes == old(boxes)
      ensures id in old(boxes) ==>
        && ok == (old(boxes)[id].row.status != Pending || Finished(outcome))
        && boxes == old(boxes)[id := DeliverById(old(boxes)[id], outcome, now)]
    {
      if id !in boxes {
        return false;
      }
      if boxes[id].row.status != Pending {
        return true;
      }
      ok := DeliverRow(id, boxes[id].row, outcome, now);
    }

    /** Claim and deliver inline: the first `done` claimed rows are delivered in order, once each, all to
        the end but the last when `ok` is false; the rest of the claimed rows stay leased. */
    method ProcessDue(limit: nat, locked: set<Id>, outcomes: Id -> Outcome, now: Time)
      returns (n: nat, ok: bool, claimed: seq<Id>, done: nat)
      modifies this
      ensures done <= |claimed| <= limit && Claims(old(boxes), locked, claimed, now)
      ensures |claimed| < limit ==> forall id :: Due(old(boxes), locked, id, now) ==> id in claimed
      ensures ok ==> done == |claimed|
      ensures !ok ==> done > 0 && !Finished(outcomes(claimed[done - 1]))
      ensures forall k :: 0 <= k < done && (ok || k + 1 < done) ==> Finished(outcomes(claimed[k]))
      ensures n == if ok then |claimed| else 0
      ensures Worked(LeasedAll(old(boxes), claimed, now), boxes, claimed, outcomes, now, done)
    {
      var copies: seq<Row>;
      claimed, copies := ClaimDueOutbox(limit, locked, now);
      n, ok, done := 0, true, 0;
      ghost var leased := boxes;
      while done < |claimed| && ok
        invariant done <= |claimed|
        invariant !ok ==> done > 0 && !Finished(outcomes(claimed[done - 1]))
        invariant forall k :: 0 <= k < done && (ok || k + 1 < done) ==> Finished(outcomes(claimed[k]))
        invariant Worked(leased, boxes, claimed, outcomes, now, done)
        decreases |claimed| - done
      {
        WorkOneMore(leased, boxes, claimed, outcomes, now, done);
        ok := DeliverRow(claimed[done], copies[done], outcomes(claimed[done]), now);
        done := done + 1;
      }
      n := if ok then |claimed| else 0;
    }
  }
}
