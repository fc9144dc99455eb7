/** The idempotency protocol around every money call (httpapi/idempotency.go, service/idempotency.go,
    repository/db/idempotency.sql.go): claims inserted first, completed or released by row id, swept
    when orphaned, expired when old, under any interleaving of requests. */
module Idempotency {
  import opened Wrappers
  import Runs
  import Tables

  type Id = Tables.Id
  type Time = Tables.Time
  type ProcId = nat
  type Byte = b: int | 0 <= b < 256
  type Bytes = seq<Byte>

  // ---------------------------------------------------------------- fingerprints

  /** What a request is, as far as idempotency is concerned. */
  datatype Request = Request(merchant: Id, key: string, verb: Bytes, uri: Bytes, body: Bytes)

  /** What is written into the hasher; the hash is taken to be free of collisions. */
  function Fingerprint(verb: Bytes, uri: Bytes, body: Bytes): Bytes {
    verb + [0] + uri + [0] + body
  }

  function HashOf(r: Request): Bytes {
    Fingerprint(r.verb, r.uri, r.body)
  }

  predicate NulFree(s: Bytes) {
    0 !in s
  }

  function FirstNul(s: Bytes): nat {
    if s == [] || s[0] == 0 then 0 else 1 + FirstNul(s[1..])
  }

  /** The first separator is where the first piece ends. */
  lemma {:induction false} FirstNulEnds(a: Bytes, rest: Bytes)
    requires NulFree(a)
    ensures FirstNul(a + [0] + rest) == |a|
  {
    if a != [] {
      assert (a + [0] + rest)[1..] == a[1..] + [0] + rest;
      FirstNulEnds(a[1..], rest);
    }
  }

  lemma FramesOnce(a: Bytes, rest: Bytes, b: Bytes, rest': Bytes)
    requires NulFree(a) && NulFree(b) && a + [0] + rest == b + [0] + rest'
    ensures a == b && rest == rest'
  {
    var s := a + [0] + rest;
    FirstNulEnds(a, rest);
    FirstNulEnds(b, rest');
    assert a == s[..|a|] == b;
    assert rest == s[|a| + 1..] == rest';
  }

  /** Two requests share a fingerprint only if they are the same request, whatever bytes the bodies
      hold. */
  lemma FingerprintIsInjective(v: Bytes, u: Bytes, b: Bytes, v': Bytes, u': Bytes, b': Bytes)
    requires NulFree(v) && NulFree(u) && NulFree(v') && NulFree(u')
    ensures Fingerprint(v, u, b) == Fingerprint(v', u', b') <==> v == v' && u == u' && b == b'
  {
    if Fingerprint(v, u, b) == Fingerprint(v', u', b') {
      assert Fingerprint(v, u, b) == v + [0] + (u + [0] + b);
      assert Fingerprint(v', u', b') == v' + [0] + (u' + [0] + b');
      FramesOnce(v, u + [0] + b, v', u' + [0] + b');
      FramesOnce(u, b, u', b');
    }
  }

  // ---------------------------------------------------------------- the table

  datatype State = InFlight | Completed(code: int, body: Bytes)

  datatype Row = Row(merchant: Id, key: string, hash: Bytes, state: State, lockedAt: Time, createdAt: Time)

  type Rows = map<Id, Row>

  ghost predicate Claimed(rows: Rows, merchant: Id, key: string) {
    exists r :: r in rows && rows[r].merchant == merchant && rows[r].key == key
  }

  function Claim(req: Request, now: Time): Row {
    Row(req.merchant, req.key, HashOf(req), InFlight, now, now)
  }

  /** UPDATE ... SET status = 'completed' ... WHERE id: nothing, if the row is gone. */
  function Marked(rows: Rows, id: Id, code: int, body: Bytes): Rows {
    if id in rows then rows[id := rows[id].(state := Completed(code, body))] else rows
  }

  function Removed(rows: Rows, id: Id): Rows {
    rows - {id}
  }

  /** DELETE of claims in flight since before the cutoff. */
  function OrphansReset(rows: Rows, cutoff: Time): Rows {
    map r | r in rows && !(rows[r].state.InFlight? && rows[r].lockedAt < cutoff) :: rows[r]
  }

  /** DELETE of completed rows created before the cutoff. */
  function CompletedExpired(rows: Rows, cutoff: Time): Rows {
    map r | r in rows && !(rows[r].state.Completed? && rows[r].createdAt < cutoff) :: rows[r]
  }

  /** What a request learns from the row that beat it. */
  datatype Reply =
    | Ran(code: int, body: Bytes)
    | Replayed(code: int, body: Bytes)
    | InProgress          // 409
    | KeyReused           // 422
    | Unavailable         // 500: the claim or the lookup failed, or the handler panicked
    | NoKey               // 400: there is no Idempotency-Key header
    | TooLarge            // 413: the body exceeds the cap

  function AnswerFrom(row: Row, hash: Bytes): Reply {
    if row.hash != hash then KeyReused
    else match row.state
      case InFlight => InProgress
      case Completed(code, body) => Replayed(code, body)
  }

  predicate UnderKey(rows: Rows, r: Id, req: Request) {
    r in rows && rows[r].merchant == req.merchant && rows[r].key == req.key
  }

  /** What a row must tell a request that comes under its key: another request gets 422, the same one
      409 exactly while it is in flight, and the stored response once it is completed. */
  predicate Tells(row: Row, req: Request, reply: Reply) {
    && (reply == KeyReused <==> row.hash != Fingerprint(req.verb, req.uri, req.body))
    && (reply == InProgress <==> row.hash == Fingerprint(req.verb, req.uri, req.body) && row.state == InFlight)
    && (row.hash == Fingerprint(req.verb, req.uri, req.body) && row.state != InFlight ==>
          reply == Replayed(row.state.code, row.state.body))
  }

  /** The reply is what the row under the request's key tells it. */
  ghost predicate Learns(rows: Rows, req: Request, reply: Reply) {
    exists r :: UnderKey(rows, r, req) && Tells(rows[r], req, reply)
  }

  lemma AnswersTell(row: Row, req: Request)
    ensures Tells(row, req, AnswerFrom(row, HashOf(req)))
  {
  }

  ghost predicate UniqueClaims(rows: Rows) {
    forall a, b :: a in rows && b in rows && rows[a].merchant == rows[b].merchant && rows[a].key == rows[b].key ==> a == b
  }

  // ---------------------------------------------------------------- the wrapper, alone

  class KeyTable {
    var rows: Rows
    var issued: Id

    ghost predicate Valid()
      reads this
    {
      UniqueClaims(rows) && forall r :: r in rows ==> r < issued
    }

    /** The unique constraint decides; None is its violation. */
    method InsertInFlight(req: Request, now: Time) returns (id: Option<Id>)
      requires Valid()
      modifies this
      ensures Valid()
      ensures id.None? <==> old(Claimed(rows, req.merchant, req.key))
      ensures rows == if id.Some? then old(rows)[id.value := Claim(req, now)] else old(rows)
      ensures id.Some? ==>
        rows[id.value] == Row(req.merchant, req.key, Fingerprint(req.verb, req.uri, req.body), InFlight, now, now)
      ensures id.Some? ==> id.value !in old(rows)
    {
      if r :| r in rows && rows[r].merchant == req.merchant && rows[r].key == req.key {
        return None;
      }
      id := Some(issued);
      rows := rows[issued := Claim(req, now)];
      issued := issued + 1;
    }

    method MarkCompleted(id: Id, code: int, body: Bytes)
      requires Valid()
      modifies this
      ensures Valid() && rows == Marked(old(rows), id, code, body)
      ensures id !in old(rows) ==> rows == old(rows)
      ensures id in old(rows) ==> rows == old(rows)[id := old(rows)[id].(state := Completed(code, body))]
    {
      if id in rows {
        rows := rows[id := rows[id].(state := Completed(code, body))];
      }
    }

    method DeleteKey(id: Id)
      requires Valid()
      modifies this
      ensures Valid() && rows == Removed(old(rows), id)
      ensures id !in rows && forall r :: r != id ==> (r in rows <==> r in old(rows)) && (r in rows ==> rows[r] == old(rows)[r])
    {
      rows := rows - {id};
    }

    method GetByKey(merchant: Id, key: string) returns (row: Option<Row>)
      requires Valid()
      ensures row.Some? <==> Claimed(rows, merchant, key)
      ensures row.Some? ==> exists r :: r in rows && rows[r] == row.value && row.value.merchant == merchant && row.value.key == key
    {
      if r :| r in rows && rows[r].merchant == merchant && rows[r].key == key {
        return Some(rows[r]);
      }
      return None;
    }

    method SweepOrphanedKeys(cutoff: Time)
      requires Valid()
      modifies this
      ensures Valid() && rows == OrphansReset(old(rows), cutoff)
      ensures forall r :: r in rows <==> r in old(rows) && (old(rows)[r].state == InFlight ==> old(rows)[r].lockedAt >= cutoff)
      ensures forall r :: r in rows ==> rows[r] == old(rows)[r]
    {
      rows := OrphansReset(rows, cutoff);
    }

    method ExpireCompletedKeys(cutoff: Time)
      requires Valid()
      modifies this
      ensures Valid() && rows == CompletedExpired(old(rows), cutoff)
      ensures forall r :: r in rows <==> r in old(rows) && (old(rows)[r].state != InFlight ==> old(rows)[r].createdAt >= cutoff)
      ensures forall r :: r in rows ==> rows[r] == old(rows)[r]
    {
      rows := CompletedExpired(rows, cutoff);
    }
  }

  /** How a handler ends. */
  datatype Outcome = Returned(code: int, body: Bytes) | Panicked

  /** Which of the wrapper's own queries come back: the claim, the lookup, the completion or release. */
  datatype Weather = Weather(claims: bool, looks: bool, writes: bool)

  const MAX_BODY := 0x10_0000

  /** What becomes of a new claim once its handler has ended: a final answer, below 500, is kept with it;
      after any other the row is gone; and if the last query was lost it stays in flight for the sweep. */
  predicate Resolved(before: Rows, after: Rows, id: Id, req: Request, handler: Outcome, writes: bool, now: Time) {
    var hash := Fingerprint(req.verb, req.uri, req.body);
    && id !in before
    && if !writes then after == before[id := Row(req.merchant, req.key, hash, InFlight, now, now)]
       else match handler
         case Returned(code, body) =>
           if code < 500 then after == before[id := Row(req.merchant, req.key, hash, Completed(code, body), now, now)]
           else after == before
         case Panicked => after == before
  }

  /** One request with the table to itself. A request turned away, and one that finds the key claimed,
      never runs its handler and changes no row; the latter learns what the claiming row tells. */
  method WithIdempotency(table: KeyTable, req: Request, handler: Outcome, weather: Weather, now: Time)
    returns (reply: Reply)
    requires table.Valid()
    modifies table
    ensures table.Valid()
    ensures req.key == "" ==> reply == NoKey && table.rows == old(table.rows)
    ensures req.key != "" && |req.body| > MAX_BODY ==> reply == TooLarge && table.rows == old(table.rows)
    ensures req.key != "" && |req.body| <= MAX_BODY && !weather.claims ==> reply == Unavailable && table.rows == old(table.rows)
    ensures
      req.key != "" && |req.body| <= MAX_BODY && weather.claims && old(Claimed(table.rows, req.merchant, req.key)) ==>
        && table.rows == old(table.rows)
        && if weather.looks then Learns(table.rows, req, reply) else reply == Unavailable
    ensures
      req.key != "" && |req.body| <= MAX_BODY && weather.claims && !old(Claimed(table.rows, req.merchant, req.key)) ==>
        && reply == (if handler.Returned? then Ran(handler.code, handler.body) else Unavailable)
        && exists id: Id :: Resolved(old(table.rows), table.rows, id, req, handler, weather.writes, now)
  {
    if req.key == "" {
      return NoKey;
    }
    if |req.body| > MAX_BODY {
      return TooLarge;
    }
    if !weather.claims {
      return Unavailable;
    }
    var claim := table.InsertInFlight(req, now);
    if claim.None? {
      if !weather.looks {
        return Unavailable;
      }
      var row := table.GetByKey(req.merchant, req.key);
      if row.None? {
        return Unavailable;
      }
      AnswersTell(row.value, req);
      return AnswerFrom(row.value, HashOf(req));
    }
    var id := claim.value;
    ghost var claimed := table.rows;
    match handler {
      case Panicked =>
        if weather.writes {
          table.DeleteKey(id);
        }
        reply := Unavailable;
      case Returned(code, body) =>
        if weather.writes {
          if code >= 500 {
            table.DeleteKey(id);
          } else {
            table.MarkCompleted(id, code, body);
          }
        }
        reply := Ran(code, body);
    }
    assert claimed - {id} == old(table.rows);
    assert Resolved(old(table.rows), table.rows, id, req, handler, weather.writes, now);
  }

  // ---------------------------------------------------------------- many requests at once

  /** Where a request stands. A claim belongs to the request that inserted it; `row` is its id. */
  datatype Phase =
    | Arrived
    | Collided
    | Running(row: Id)
    | Answering(row: Id, code: int, body: Bytes)
    | Panicking(row: Id)
    | Done(reply: Reply)
    | Crashed

  datatype Proc = Proc(req: Request, phase: Phase)

  datatype Why = ServerError | PanicReleased | Orphaned(orphanedBefore: Time) | Expired(expiredBefore: Time)

  /** A deleted row as it last was, and why it went. */
  datatype Deletion = Deletion(why: Why, row: Row)

  datatype System = System(
    rows: Rows,
    procs: map<ProcId, Proc>,
    claims: map<Id, ProcId>,             // every row ever inserted, and by whom
    answers: map<Id, (int, Bytes)>,      // what the handler run under a claim returned
    deleted: map<Id, Deletion>,          // every row ever deleted, and why
    starts: seq<Id>)                     // the claims in the order their handlers started

  const INIT := System(map[], map[], map[], map[], map[], [])

  datatype Action =
    | Arrive(p: ProcId, req: Request)
    | Insert(p: ProcId, row: Id, now: Time)
    | InsertFails(p: ProcId)
    | Lookup(p: ProcId)
    | LookupFails(p: ProcId)
    | Return(p: ProcId, code: int, body: Bytes)
    | Panic(p: ProcId)
    | Complete(p: ProcId)
    | Release(p: ProcId)
    | LoseWrite(p: ProcId)
    | Crash(p: ProcId)
    | Sweep(cutoff: Time)
    | Expire(cutoff: Time)

  ghost function Gone(s: System, rows: Rows, why: Why): System {
    s.(rows := rows, deleted := s.deleted + map r | r in s.rows && r !in rows :: Deletion(why, s.rows[r]))
  }

  ghost function Moved(s: System, p: ProcId, phase: Phase): System
    requires p in s.procs
  {
    s.(procs := s.procs[p := s.procs[p].(phase := phase)])
  }

  ghost predicate Next(s: System, action: Action, s': System) {
    match action
    case Arrive(p, req) =>
      p !in s.procs && s' == s.(procs := s.procs[p := Proc(req, Arrived)])
    case Insert(p, row, now) =>
      p in s.procs && s.procs[p].phase == Arrived
      && var req := s.procs[p].req;
      if Claimed(s.rows, req.merchant, req.key) then s' == Moved(s, p, Collided)
      else
        row !in s.claims
        && s' == Moved(s, p, Running(row)).(rows := s.rows[row := Claim(req, now)],
                                            claims := s.claims[row := p], starts := s.starts + [row])
    case InsertFails(p) =>
      p in s.procs && s.procs[p].phase == Arrived && s' == Moved(s, p, Done(Unavailable))
    case Lookup(p) =>
      p in s.procs && s.procs[p].phase == Collided
      && var req := s.procs[p].req;
      if Claimed(s.rows, req.merchant, req.key) then
        exists r :: r in s.rows && s.rows[r].merchant == req.merchant && s.rows[r].key == req.key
          && s' == Moved(s, p, Done(AnswerFrom(s.rows[r], HashOf(req))))
      else s' == Moved(s, p, Done(Unavailable))
    case LookupFails(p) =>
      p in s.procs && s.procs[p].phase == Collided && s' == Moved(s, p, Done(Unavailable))
    case Return(p, code, body) =>
      p in s.procs && s.procs[p].phase.Running?
      && var row := s.procs[p].phase.row;
      s' == Moved(s, p, Answering(row, code, body)).(answers := s.answers[row := (code, body)])
    case Panic(p) =>
      p in s.procs && s.procs[p].phase.Running? && s' == Moved(s, p, Panicking(s.procs[p].phase.row))
    case Complete(p) =>
      p in s.procs && s.procs[p].phase.Answering?
      && var Answering(row, code, body) := s.procs[p].phase;
      var done := Moved(s, p, Done(Ran(code, body)));
      s' == if code >= 500 then Gone(done, Removed(s.rows, row), ServerError)
            else done.(rows := Marked(s.rows, row, code, body))
    case Release(p) =>
      p in s.procs && s.procs[p].phase.Panicking?
      && s' == Gone(Moved(s, p, Done(Unavailable)), Removed(s.rows, s.procs[p].phase.row), PanicReleased)
    case LoseWrite(p) =>
      p in s.procs
      && (s.procs[p].phase.Answering? || s.procs[p].phase.Panicking?)
      && s' == Moved(s, p, Done(if s.procs[p].phase.Answering? then Ran(s.procs[p].phase.code, s.procs[p].phase.body) else Unavailable))
    case Crash(p) =>
      p in s.procs && !s.procs[p].phase.Done? && s' == Moved(s, p, Crashed)
    case Sweep(cutoff) =>
      s' == Gone(s, OrphansReset(s.rows, cutoff), Orphaned(cutoff))
    case Expire(cutoff) =>
      s' == Gone(s, CompletedExpired(s.rows, cutoff), Expired(cutoff))
  }

  // ---------------------------------------------------------------- the invariant

  /** A row tells of the request that inserted it; a completed one, of the response of that very
      request's own handler run. */
  ghost predicate RowOk(s: System, r: Id)
    requires r in s.rows
  {
    && r in s.claims && s.claims[r] in s.procs
    && var req := s.procs[s.claims[r]].req;
    && s.rows[r].merchant == req.merchant && s.rows[r].key == req.key && s.rows[r].hash == HashOf(req)
    && (s.rows[r].state.Completed? ==>
          r in s.answers && s.answers[r] == (s.rows[r].state.code, s.rows[r].state.body) && s.rows[r].state.code < 500)
  }

  /** An earlier claim by the same merchant under the same key. */
  ghost predicate Precedent(s: System, req: Request, r: Id) {
    r in s.claims && s.claims[r] in s.procs
    && s.procs[s.claims[r]].req.merchant == req.merchant && s.procs[s.claims[r]].req.key == req.key
  }

  ghost predicate ReplyOk(s: System, req: Request, reply: Reply) {
    match reply
    case Replayed(code, body) =>
      code < 500 && exists r :: Precedent(s, req, r) && HashOf(s.procs[s.claims[r]].req) == HashOf(req)
                                && r in s.answers && s.answers[r] == (code, body)
    case KeyReused => exists r :: Precedent(s, req, r) && HashOf(s.procs[s.claims[r]].req) != HashOf(req)
    case InProgress => exists r :: Precedent(s, req, r) && HashOf(s.procs[s.claims[r]].req) == HashOf(req)
    case _ => true
  }

  /** A reply that is no replay comes from a handler run under a claim of the request's own. */
  ghost predicate RanOk(s: System, p: ProcId, reply: Reply) {
    reply.Ran? ==> exists r :: r in s.claims && s.claims[r] == p && r in s.answers && s.answers[r] == (reply.code, reply.body)
  }

  ghost predicate PhaseOk(s: System, p: ProcId, req: Request, phase: Phase) {
    match phase
    case Running(row) => row in s.claims && s.claims[row] == p && row !in s.answers
    case Answering(row, code, body) => row in s.claims && s.claims[row] == p && row in s.answers && s.answers[row] == (code, body)
    case Panicking(row) => row in s.claims && s.claims[row] == p && row !in s.answers
    case Done(reply) => ReplyOk(s, req, reply) && RanOk(s, p, reply)
    case _ => true
  }

  ghost predicate ProcOk(s: System, p: ProcId)
    requires p in s.procs
  {
    PhaseOk(s, p, s.procs[p].req, s.procs[p].phase)
  }

  /** Why a deleted row could go. */
  ghost predicate WhyOk(s: System, r: Id)
    requires r in s.deleted
  {
    && r in s.claims && r !in s.rows
    && match s.deleted[r].why
       case ServerError => r in s.answers && s.answers[r].0 >= 500
       case PanicReleased => r !in s.answers && s.claims[r] in s.procs && s.procs[s.claims[r]].phase.Done?
       case Orphaned(cutoff) => s.deleted[r].row.state.InFlight? && s.deleted[r].row.lockedAt < cutoff
       case Expired(cutoff) =>
         s.deleted[r].row.state.Completed? && s.deleted[r].row.createdAt < cutoff && r in s.answers && s.answers[r].0 < 500
  }

  /** Two starts for one key never overlap claims: the earlier one was deleted first. */
  ghost predicate StartOk(s: System, j: nat, k: nat)
    requires j < k < |s.starts| && s.starts[k] in s.claims && s.claims[s.starts[k]] in s.procs
  {
    Precedent(s, s.procs[s.claims[s.starts[k]]].req, s.starts[j]) ==> s.starts[j] in s.deleted
  }

  ghost predicate RowsSafe(s: System) {
    UniqueClaims(s.rows) && forall r :: r in s.rows ==> RowOk(s, r)
  }

  ghost predicate ClaimsSafe(s: System) {
    && (forall r :: r in s.claims ==> s.claims[r] in s.procs && (r in s.rows || r in s.deleted))
    && (forall r :: r in s.answers ==> r in s.claims)
    && (forall r :: r in s.deleted ==> WhyOk(s, r))
  }

  ghost predicate StartsSafe(s: System) {
    && (forall k :: 0 <= k < |s.starts| ==> s.starts[k] in s.claims && s.claims[s.starts[k]] in s.procs)
    && (forall j, k :: 0 <= j < k < |s.starts| ==> StartOk(s, j, k))
  }

  ghost predicate Safe(s: System) {
    && RowsSafe(s)
    && ClaimsSafe(s)
    && StartsSafe(s)
    && forall p :: p in s.procs ==> ProcOk(s, p)
  }

  // ---------------------------------------------------------------- its preservation

  /** What has been claimed, answered and deleted is never forgotten. */
  ghost predicate Extends(s: System, s': System) {
    && (forall r :: r in s.claims ==> r in s'.claims && s'.claims[r] == s.claims[r])
    && (forall r :: r in s.answers ==> r in s'.answers && s'.answers[r] == s.answers[r])
    && (forall p :: p in s.procs ==> p in s'.procs && s'.procs[p].req == s.procs[p].req)
    && (forall r :: r in s.deleted ==> r in s'.deleted && s'.deleted[r] == s.deleted[r])
  }

  lemma RepliesStay(s: System, s': System, req: Request, reply: Reply)
    requires Extends(s, s') && ReplyOk(s, req, reply)
    ensures ReplyOk(s', req, reply)
  {
    if reply.Replayed? {
      var r :| Precedent(s, req, r) && HashOf(s.procs[s.claims[r]].req) == HashOf(req)
               && r in s.answers && s.answers[r] == (reply.code, reply.body);
      assert Precedent(s', req, r);
    } else if reply.KeyReused? {
      var r :| Precedent(s, req, r) && HashOf(s.procs[s.claims[r]].req) != HashOf(req);
      assert Precedent(s', req, r);
    } else if reply.InProgress? {
      var r :| Precedent(s, req, r) && HashOf(s.procs[s.claims[r]].req) == HashOf(req);
      assert Precedent(s', req, r);
    }
  }

  lemma RunsStay(s: System, s': System, p: ProcId, reply: Reply)
    requires Extends(s, s') && RanOk(s, p, reply)
    ensures RanOk(s', p, reply)
  {
    if reply.Ran? {
      var r :| r in s.claims && s.claims[r] == p && r in s.answers && s.answers[r] == (reply.code, reply.body);
      assert r in s'.claims && r in s'.answers;
    }
  }

  lemma LookupAnswers(s: System, p: ProcId, r: Id)
    requires RowsSafe(s) && p in s.procs && r in s.rows
    requires s.rows[r].merchant == s.procs[p].req.merchant && s.rows[r].key == s.procs[p].req.key
    ensures ReplyOk(s, s.procs[p].req, AnswerFrom(s.rows[r], HashOf(s.procs[p].req)))
  {
    assert RowOk(s, r);
    assert Precedent(s, s.procs[p].req, r);
  }

  lemma PhaseStays(s: System, s': System, p: ProcId)
    requires Extends(s, s') && p in s.procs && s'.procs[p] == s.procs[p] && ProcOk(s, p)
    requires forall r :: r in s'.answers && r !in s.answers ==> r in s.claims && s.claims[r] != p
    ensures ProcOk(s', p)
  {
    if s.procs[p].phase.Done? {
      RepliesStay(s, s', s.procs[p].req, s.procs[p].phase.reply);
      RunsStay(s, s', p, s.procs[p].phase.reply);
    }
  }

  lemma RowsStay(s: System, s': System)
    requires RowsSafe(s) && s'.rows == s.rows && Extends(s, s')
    ensures RowsSafe(s')
  {
    forall r | r in s.rows
      ensures RowOk(s', r)
    {
      assert RowOk(s, r);
    }
  }

  lemma StartsStay(s: System, s': System)
    requires StartsSafe(s) && s'.starts == s.starts && Extends(s, s')
    ensures StartsSafe(s')
  {
    forall j, k | 0 <= j < k < |s.starts|
      ensures StartOk(s', j, k)
    {
      assert StartOk(s, j, k);
    }
  }

  lemma ReasonsStay(s: System, s': System, p: ProcId)
    requires ClaimsSafe(s) && s'.rows == s.rows && s'.claims == s.claims && s'.deleted == s.deleted && Extends(s, s')
    requires forall q :: q in s.procs && q != p ==> s'.procs[q] == s.procs[q]
    requires p in s.procs ==> !s.procs[p].phase.Done?
    requires forall r :: r in s'.answers && r !in s.answers ==> r in s.claims && s.claims[r] == p
    ensures ClaimsSafe(s')
  {
    forall r | r in s.deleted
      ensures WhyOk(s', r)
    {
      assert WhyOk(s, r);
    }
  }

  /** A step of one request that writes no row. */
  lemma QuietKeepsSafe(s: System, s': System, p: ProcId)
    requires Safe(s) && Extends(s, s')
    requires s'.rows == s.rows && s'.claims == s.claims && s'.deleted == s.deleted && s'.starts == s.starts
    requires s'.procs.Keys == s.procs.Keys + {p} && forall q :: q in s.procs && q != p ==> s'.procs[q] == s.procs[q]
    requires p in s.procs ==> !s.procs[p].phase.Done?
    requires forall r :: r in s'.answers && r !in s.answers ==> r in s.claims && s.claims[r] == p
    requires ProcOk(s', p)
    ensures Safe(s')
  {
    RowsStay(s, s');
    StartsStay(s, s');
    ReasonsStay(s, s', p);
    forall q | q in s'.procs
      ensures ProcOk(s', q)
    {
      if q != p {
        assert ProcOk(s, q);
        PhaseStays(s, s', q);
      }
    }
  }

  /** A request that is not done may move to any phase that is in order. */
  lemma MoveKeepsSafe(s: System, p: ProcId, phase: Phase)
    requires Safe(s) && p in s.procs && !s.procs[p].phase.Done? && PhaseOk(s, p, s.procs[p].req, phase)
    ensures Safe(Moved(s, p, phase))
  {
    var s' := Moved(s, p, phase);
    if phase.Done? {
      RepliesStay(s, s', s.procs[p].req, phase.reply);
      RunsStay(s, s', p, phase.reply);
    }
    QuietKeepsSafe(s, s', p);
  }

  /** Deleting rows, each for a reason that holds of it. */
  lemma DeleteKeepsSafe(s: System, rows: Rows, why: Why)
    requires Safe(s) && forall r :: r in rows ==> r in s.rows && rows[r] == s.rows[r]
    requires why == ServerError ==> forall r :: r in s.rows && r !in rows ==> r in s.answers && s.answers[r].0 >= 500
    requires why == PanicReleased ==> forall r :: r in s.rows && r !in rows ==>
               r !in s.answers && r in s.claims && s.claims[r] in s.procs && s.procs[s.claims[r]].phase.Done?
    requires why.Orphaned? ==> forall r :: r in s.rows && r !in rows ==>
               s.rows[r].state.InFlight? && s.rows[r].lockedAt < why.orphanedBefore
    requires why.Expired? ==> forall r :: r in s.rows && r !in rows ==>
               s.rows[r].state.Completed? && s.rows[r].createdAt < why.expiredBefore
    ensures Safe(Gone(s, rows, why))
  {
    var s' := Gone(s, rows, why);
    forall r | r in rows
      ensures RowOk(s', r)
    {
      assert RowOk(s, r);
    }
    forall r | r in s'.deleted
      ensures WhyOk(s', r)
    {
      if r in s.deleted {
        assert WhyOk(s, r);
      } else {
        assert RowOk(s, r);
      }
    }
    DeleteExtends(s, rows, why);
    forall j, k | 0 <= j < k < |s.starts|
      ensures StartOk(s', j, k)
    {
      assert StartOk(s, j, k);
    }
    forall q | q in s'.procs
      ensures ProcOk(s', q)
    {
      PhaseStays(s, s', q);
    }
  }

  lemma DeleteExtends(s: System, rows: Rows, why: Why)
    requires ClaimsSafe(s)
    ensures Extends(s, Gone(s, rows, why))
  {
    forall r | r in s.deleted
      ensures r !in s.rows
    {
      assert WhyOk(s, r);
    }
  }

  lemma MarkKeepsRows(s: System, row: Id, code: int, body: Bytes)
    requires RowsSafe(s) && row in s.answers && s.answers[row] == (code, body) && code < 500
    ensures RowsSafe(s.(rows := Marked(s.rows, row, code, body)))
  {
    forall r | r in s.rows
      ensures RowOk(s.(rows := Marked(s.rows, row, code, body)), r)
    {
      assert RowOk(s, r);
    }
  }

  lemma MarkKeepsClaims(s: System, row: Id, code: int, body: Bytes)
    requires ClaimsSafe(s)
    ensures ClaimsSafe(s.(rows := Marked(s.rows, row, code, body)))
  {
    forall r | r in s.deleted
      ensures WhyOk(s.(rows := Marked(s.rows, row, code, body)), r)
    {
      assert WhyOk(s, r);
    }
  }

  /** Completing a row with its own handler's final answer. */
  lemma MarkKeepsSafe(s: System, row: Id, code: int, body: Bytes)
    requires Safe(s) && row in s.answers && s.answers[row] == (code, body) && code < 500
    ensures Safe(s.(rows := Marked(s.rows, row, code, body)))
  {
    var s' := s.(rows := Marked(s.rows, row, code, body));
    MarkKeepsRows(s, row, code, body);
    MarkKeepsClaims(s, row, code, body);
    StartsStay(s, s');
    forall q | q in s'.procs
      ensures ProcOk(s', q)
    {
      assert ProcOk(s, q);
      PhaseStays(s, s', q);
    }
  }

  lemma ArriveKeepsSafe(s: System, p: ProcId, req: Request)
    requires Safe(s) && p !in s.procs
    ensures Safe(s.(procs := s.procs[p := Proc(req, Arrived)]))
  {
    QuietKeepsSafe(s, s.(procs := s.procs[p := Proc(req, Arrived)]), p);
  }

  lemma ReturnKeepsSafe(s: System, p: ProcId, code: int, body: Bytes)
    requires Safe(s) && p in s.procs && s.procs[p].phase.Running?
    ensures var row := s.procs[p].phase.row;
      Safe(Moved(s, p, Answering(row, code, body)).(answers := s.answers[row := (code, body)]))
  {
    var row := s.procs[p].phase.row;
    assert ProcOk(s, p);
    QuietKeepsSafe(s, Moved(s, p, Answering(row, code, body)).(answers := s.answers[row := (code, body)]), p);
  }

  ghost function Claiming(s: System, p: ProcId, row: Id, now: Time): System
    requires p in s.procs
  {
    Moved(s, p, Running(row)).(rows := s.rows[row := Claim(s.procs[p].req, now)],
                               claims := s.claims[row := p], starts := s.starts + [row])
  }

  lemma ClaimKeepsUnique(s: System, p: ProcId, row: Id, now: Time)
    requires UniqueClaims(s.rows) && p in s.procs && !Claimed(s.rows, s.procs[p].req.merchant, s.procs[p].req.key)
    ensures UniqueClaims(Claiming(s, p, row, now).rows)
  {
  }

  lemma ClaimKeepsRows(s: System, p: ProcId, row: Id, now: Time)
    requires RowsSafe(s) && p in s.procs && row !in s.claims && !Claimed(s.rows, s.procs[p].req.merchant, s.procs[p].req.key)
    ensures RowsSafe(Claiming(s, p, row, now))
  {
    ClaimKeepsUnique(s, p, row, now);
    forall r | r in s.rows
      ensures RowOk(Claiming(s, p, row, now), r)
    {
      assert RowOk(s, r);
    }
  }

  lemma ClaimKeepsStarts(s: System, p: ProcId, row: Id, now: Time)
    requires Safe(s) && p in s.procs && row !in s.claims && !Claimed(s.rows, s.procs[p].req.merchant, s.procs[p].req.key)
    ensures StartsSafe(Claiming(s, p, row, now))
  {
    var s' := Claiming(s, p, row, now);
    forall j, k | 0 <= j < k < |s'.starts|
      ensures StartOk(s', j, k)
    {
      if k < |s.starts| {
        assert StartOk(s, j, k);
      } else {
        assert s.starts[j] in s.rows ==> RowOk(s, s.starts[j]);
      }
    }
  }

  lemma ClaimKeepsClaims(s: System, p: ProcId, row: Id, now: Time)
    requires Safe(s) && p in s.procs && s.procs[p].phase == Arrived && row !in s.claims
    ensures ClaimsSafe(Claiming(s, p, row, now))
  {
    forall r | r in s.deleted
      ensures WhyOk(Claiming(s, p, row, now), r)
    {
      assert WhyOk(s, r);
    }
  }

  lemma ClaimKeepsProcs(s: System, p: ProcId, row: Id, now: Time, q: ProcId)
    requires Safe(s) && p in s.procs && row !in s.claims && q in s.procs
    ensures ProcOk(Claiming(s, p, row, now), q)
  {
    assert ProcOk(s, q);
    if q == p {
      assert row !in s.answers;
    } else {
      PhaseStays(s, Claiming(s, p, row, now), q);
    }
  }

  lemma ClaimKeepsSafe(s: System, p: ProcId, row: Id, now: Time)
    requires Safe(s) && p in s.procs && s.procs[p].phase == Arrived && row !in s.claims
    requires !Claimed(s.rows, s.procs[p].req.merchant, s.procs[p].req.key)
    ensures Safe(Claiming(s, p, row, now))
  {
    ClaimKeepsRows(s, p, row, now);
    ClaimKeepsStarts(s, p, row, now);
    ClaimKeepsClaims(s, p, row, now);
    forall q | q in s.procs
      ensures ProcOk(Claiming(s, p, row, now), q)
    {
      ClaimKeepsProcs(s, p, row, now, q);
    }
  }

  lemma CompleteKeepsSafe(s: System, p: ProcId)
    requires Safe(s) && p in s.procs && s.procs[p].phase.Answering?
    ensures var Answering(row, code, body) := s.procs[p].phase;
      var done := Moved(s, p, Done(Ran(code, body)));
      Safe(if code >= 500 then Gone(done, Removed(s.rows, row), ServerError)
           else done.(rows := Marked(s.rows, row, code, body)))
  {
    var Answering(row, code, body) := s.procs[p].phase;
    var done := Moved(s, p, Done(Ran(code, body)));
    assert ProcOk(s, p);
    MoveKeepsSafe(s, p, Done(Ran(code, body)));
    if code >= 500 {
      DeleteKeepsSafe(done, Removed(s.rows, row), ServerError);
    } else {
      MarkKeepsSafe(done, row, code, body);
    }
  }

  lemma LookupKeepsSafe(s: System, action: Action, s': System)
    requires Safe(s) && action.Lookup? && Next(s, action, s')
    ensures Safe(s')
  {
    var p := action.p;
    var req := s.procs[p].req;
    if Claimed(s.rows, req.merchant, req.key) {
      var r :| r in s.rows && s.rows[r].merchant == req.merchant && s.rows[r].key == req.key
               && s' == Moved(s, p, Done(AnswerFrom(s.rows[r], HashOf(req))));
      LookupAnswers(s, p, r);
      MoveKeepsSafe(s, p, Done(AnswerFrom(s.rows[r], HashOf(req))));
    } else {
      MoveKeepsSafe(s, p, Done(Unavailable));
    }
  }

  lemma InsertKeepsSafe(s: System, p: ProcId, row: Id, now: Time, s': System)
    requires Safe(s) && Next(s, Insert(p, row, now), s')
    ensures Safe(s')
  {
    if Claimed(s.rows, s.procs[p].req.merchant, s.procs[p].req.key) {
      MoveKeepsSafe(s, p, Collided);
    } else {
      ClaimKeepsSafe(s, p, row, now);
    }
  }

  lemma PanicKeepsSafe(s: System, p: ProcId)
    requires Safe(s) && p in s.procs && s.procs[p].phase.Running?
    ensures Safe(Moved(s, p, Panicking(s.procs[p].phase.row)))
  {
    assert ProcOk(s, p);
    MoveKeepsSafe(s, p, Panicking(s.procs[p].phase.row));
  }

  lemma ReleaseKeepsSafe(s: System, p: ProcId)
    requires Safe(s) && p in s.procs && s.procs[p].phase.Panicking?
    ensures Safe(Gone(Moved(s, p, Done(Unavailable)), Removed(s.rows, s.procs[p].phase.row), PanicReleased))
  {
    assert ProcOk(s, p);
    MoveKeepsSafe(s, p, Done(Unavailable));
    DeleteKeepsSafe(Moved(s, p, Done(Unavailable)), Removed(s.rows, s.procs[p].phase.row), PanicReleased);
  }

  predicate Writes(action: Action) {
    action.Insert? || action.Complete? || action.Release? || action.Sweep? || action.Expire?
  }

  lemma WritesKeepSafe(s: System, action: Action, s': System)
    requires Safe(s) && Writes(action) && Next(s, action, s')
    ensures Safe(s')
  {
    if action.Insert? {
      InsertKeepsSafe(s, action.p, action.row, action.now, s');
    } else if action.Complete? {
      CompleteKeepsSafe(s, action.p);
    } else if action.Release? {
      ReleaseKeepsSafe(s, action.p);
    } else if action.Sweep? {
      DeleteKeepsSafe(s, OrphansReset(s.rows, action.cutoff), Orphaned(action.cutoff));
    } else {
      DeleteKeepsSafe(s, CompletedExpired(s.rows, action.cutoff), Expired(action.cutoff));
    }
  }

  lemma NextKeepsSafe(s: System, action: Action, s': System)
    requires Safe(s) && Next(s, action, s')
    ensures Safe(s')
  {
    if Writes(action) {
      WritesKeepSafe(s, action, s');
    } else if action.Arrive? {
      ArriveKeepsSafe(s, action.p, action.req);
    } else if action.Lookup? {
      LookupKeepsSafe(s, action, s');
    } else if action.Return? {
      ReturnKeepsSafe(s, action.p, action.code, action.body);
    } else if action.Panic? {
      PanicKeepsSafe(s, action.p);
    } else {
      MoveKeepsSafe(s, action.p, s'.procs[action.p].phase);
    }
  }

  // ---------------------------------------------------------------- every interleaving

  ghost function Nexts(): Runs.Relation<System, Action> {
    (s, action, s') => Next(s, action, s')
  }

  ghost predicate Execution(trace: seq<System>, actions: seq<Action>) {
    Runs.IsRun(INIT, Nexts(), trace, actions)
  }

  lemma ExecutionsAreSafe(trace: seq<System>, actions: seq<Action>, n: nat)
    requires Execution(trace, actions) && n < |trace|
    ensures Safe(trace[n])
  {
    forall s, action, s' | Safe(s) && Next(s, action, s')
      ensures Safe(s')
    {
      NextKeepsSafe(s, action, s');
    }
    Runs.Induction(s => Safe(s), INIT, Nexts(), trace, actions, n);
  }

  /** A completed row holds the final response of the very request that inserted it, however often the
      key was swept and claimed anew meanwhile. */
  lemma CompletedRowsAreTheirOwn(trace: seq<System>, actions: seq<Action>, n: nat, r: Id)
    requires Execution(trace, actions) && n < |trace|
    requires r in trace[n].rows && trace[n].rows[r].state.Completed?
    ensures var s := trace[n];
      && r in s.claims && s.claims[r] in s.procs
      && s.rows[r].hash == HashOf(s.procs[s.claims[r]].req)
      && r in s.answers && s.answers[r] == (s.rows[r].state.code, s.rows[r].state.body)
      && s.rows[r].state.code < 500
  {
    ExecutionsAreSafe(trace, actions, n);
    assert RowOk(trace[n], r);
  }

  /** A late completion or release, of a claim that was swept and recreated meanwhile, leaves every
      other request's row as it is. */
  lemma LateWritesSpareOthers(trace: seq<System>, actions: seq<Action>, n: nat, r: Id)
    requires Execution(trace, actions) && n < |actions| && (actions[n].Complete? || actions[n].Release?)
    requires r in trace[n].rows && r in trace[n].claims && trace[n].claims[r] != actions[n].p
    ensures r in trace[n + 1].rows && trace[n + 1].rows[r] == trace[n].rows[r]
  {
    ExecutionsAreSafe(trace, actions, n);
    assert Runs.Linked(Nexts(), trace, actions, n);
    assert ProcOk(trace[n], actions[n].p);
  }

  /** What a request learns at its lookup is what the row under its key tells at that moment, whatever
      that row has been through: in particular a completed row is replayed. */
  lemma LookupTells(trace: seq<System>, actions: seq<Action>, n: nat, p: ProcId, r: Id)
    requires Execution(trace, actions) && n < |actions| && actions[n] == Lookup(p) && p in trace[n].procs
    requires UnderKey(trace[n].rows, r, trace[n].procs[p].req)
    ensures p in trace[n + 1].procs && trace[n + 1].procs[p].phase.Done?
    ensures Tells(trace[n].rows[r], trace[n].procs[p].req, trace[n + 1].procs[p].phase.reply)
  {
    ExecutionsAreSafe(trace, actions, n);
    assert Runs.Linked(Nexts(), trace, actions, n);
    var s, req := trace[n], trace[n].procs[p].req;
    var q :| q in s.rows && s.rows[q].merchant == req.merchant && s.rows[q].key == req.key
             && trace[n + 1] == Moved(s, p, Done(AnswerFrom(s.rows[q], HashOf(req))));
    AnswersTell(s.rows[q], req);
    assert q == r;
  }

  /** A retry that looks up a completed row gets the very response of the request that inserted it. */
  lemma RetriesAreReplayed(trace: seq<System>, actions: seq<Action>, n: nat, p: ProcId, r: Id)
    requires Execution(trace, actions) && n < |actions| && actions[n] == Lookup(p) && p in trace[n].procs
    requires UnderKey(trace[n].rows, r, trace[n].procs[p].req) && trace[n].rows[r].state.Completed?
    requires r in trace[n].claims && trace[n].claims[r] in trace[n].procs
    requires trace[n].procs[trace[n].claims[r]].req == trace[n].procs[p].req
    ensures p in trace[n + 1].procs && r in trace[n].answers
    ensures var (code, body) := trace[n].answers[r]; code < 500 && trace[n + 1].procs[p].phase == Done(Replayed(code, body))
  {
    LookupTells(trace, actions, n, p, r);
    CompletedRowsAreTheirOwn(trace, actions, n, r);
  }

  /** What a handler's final answer does to its own claim, if that is still there; nothing else changes. */
  lemma AnswersAreKept(trace: seq<System>, actions: seq<Action>, n: nat, p: ProcId)
    requires Execution(trace, actions) && n < |actions| && actions[n] == Complete(p)
    ensures p in trace[n].procs && trace[n].procs[p].phase.Answering? && p in trace[n + 1].procs
    ensures
      var Answering(row, code, body) := trace[n].procs[p].phase;
      var before, after := trace[n].rows, trace[n + 1].rows;
      && (forall r :: r != row ==> (r in after <==> r in before) && (r in after ==> after[r] == before[r]))
      && (row in before ==>
            if code < 500 then row in after && after[row] == before[row].(state := Completed(code, body)) else row !in after)
      && trace[n + 1].procs[p].phase == Done(Ran(code, body))
  {
    assert Runs.Linked(Nexts(), trace, actions, n);
  }

  /** A sweep takes every orphan and nothing else. */
  lemma SweepsAreThorough(trace: seq<System>, actions: seq<Action>, n: nat, r: Id)
    requires Execution(trace, actions) && n < |actions| && r in trace[n].rows
    ensures actions[n].Sweep? ==>
      (r in trace[n + 1].rows <==> !(trace[n].rows[r].state.InFlight? && trace[n].rows[r].lockedAt < actions[n].cutoff))
    ensures actions[n].Expire? ==>
      (r in trace[n + 1].rows <==> !(trace[n].rows[r].state.Completed? && trace[n].rows[r].createdAt < actions[n].cutoff))
    ensures (actions[n].Sweep? || actions[n].Expire?) && r in trace[n + 1].rows ==> trace[n + 1].rows[r] == trace[n].rows[r]
  {
    assert Runs.Linked(Nexts(), trace, actions, n);
  }

  predicate FromLookup(reply: Reply) {
    reply.Replayed? || reply.KeyReused? || reply.InProgress?
  }

  /** The reply was learned at a lookup of this request, from the row that was then under its key. */
  ghost predicate Learned(trace: seq<System>, actions: seq<Action>, p: ProcId, req: Request, reply: Reply, m: nat)
    requires m < |actions| && m < |trace|
  {
    actions[m] == Lookup(p) && Learns(trace[m].rows, req, reply)
  }

  lemma OthersTeachNothing(s: System, action: Action, s': System, p: ProcId)
    requires Next(s, action, s') && !action.Lookup? && p in s'.procs
    requires s'.procs[p].phase.Done? && FromLookup(s'.procs[p].phase.reply)
    ensures p in s.procs && s'.procs[p] == s.procs[p]
  {
  }

  lemma LookupTeaches(s: System, q: ProcId, s': System, p: ProcId)
    requires Next(s, Lookup(q), s') && p in s'.procs
    requires s'.procs[p].phase.Done? && FromLookup(s'.procs[p].phase.reply)
    ensures if p == q then Learns(s.rows, s'.procs[p].req, s'.procs[p].phase.reply) else p in s.procs && s'.procs[p] == s.procs[p]
  {
    var req := s.procs[q].req;
    if Claimed(s.rows, req.merchant, req.key) {
      var r :| r in s.rows && s.rows[r].merchant == req.merchant && s.rows[r].key == req.key
               && s' == Moved(s, q, Done(AnswerFrom(s.rows[r], HashOf(req))));
      AnswersTell(s.rows[r], req);
      assert UnderKey(s.rows, r, req);
    }
  }

  lemma {:induction false} RepliesAreLearned(trace: seq<System>, actions: seq<Action>, n: nat, p: ProcId) returns (m: nat)
    requires Execution(trace, actions) && n < |trace| && p in trace[n].procs && trace[n].procs[p].phase.Done?
    requires FromLookup(trace[n].procs[p].phase.reply)
    ensures m < n && Learned(trace, actions, p, trace[n].procs[p].req, trace[n].procs[p].phase.reply, m)
  {
    assert n > 0;
    assert Runs.Linked(Nexts(), trace, actions, n - 1);
    if actions[n - 1] == Lookup(p) {
      LookupTeaches(trace[n - 1], p, trace[n], p);
      m := n - 1;
    } else {
      if actions[n - 1].Lookup? {
        LookupTeaches(trace[n - 1], actions[n - 1].p, trace[n], p);
      } else {
        OthersTeachNothing(trace[n - 1], actions[n - 1], trace[n], p);
      }
      m := RepliesAreLearned(trace, actions, n - 1, p);
    }
  }

  /** Every replay repeats the final response some handler gave to the same merchant, key and
      fingerprint; a reply that is no replay is that of the request's own run; 422 is answered only
      because another fingerprint claimed the key. And replay, 422 and 409 are each what the row under the
      key told at the lookup: 409 exactly if it was in flight then, a replay exactly if it was completed. */
  lemma RepliesAreHonest(trace: seq<System>, actions: seq<Action>, n: nat, p: ProcId)
    requires Execution(trace, actions) && n < |trace| && p in trace[n].procs && trace[n].procs[p].phase.Done?
    ensures ReplyOk(trace[n], trace[n].procs[p].req, trace[n].procs[p].phase.reply)
    ensures RanOk(trace[n], p, trace[n].procs[p].phase.reply)
    ensures FromLookup(trace[n].procs[p].phase.reply) ==>
      exists m :: 0 <= m < n && Learned(trace, actions, p, trace[n].procs[p].req, trace[n].procs[p].phase.reply, m)
  {
    ExecutionsAreSafe(trace, actions, n);
    assert ProcOk(trace[n], p);
    if FromLookup(trace[n].procs[p].phase.reply) {
      var m := RepliesAreLearned(trace, actions, n, p);
    }
  }

  /** Between two handler starts for one merchant and key, the earlier claim was deleted, and for one
      of these reasons only: its handler answered 5xx; it panicked; it was still in flight and locked
      before the cutoff of an orphan sweep; or it was completed and created before that of an expiry. */
  lemma StartsAreSeparated(trace: seq<System>, actions: seq<Action>, n: nat, j: nat, k: nat)
    requires Execution(trace, actions) && n < |trace| && j < k < |trace[n].starts|
    requires var s := trace[n]; var first, second := s.starts[j], s.starts[k];
      && second in s.claims && s.claims[second] in s.procs && Precedent(s, s.procs[s.claims[second]].req, first)
    ensures var s := trace[n]; var first := s.starts[j];
      && first in s.deleted && first !in s.rows
      && match s.deleted[first].why
         case ServerError => first in s.answers && s.answers[first].0 >= 500
         case PanicReleased => first !in s.answers
         case Orphaned(cutoff) => s.deleted[first].row.state.InFlight? && s.deleted[first].row.lockedAt < cutoff
         case Expired(cutoff) =>
           s.deleted[first].row.state.Completed? && s.deleted[first].row.createdAt < cutoff
           && first in s.answers && s.answers[first].0 < 500
  {
    ExecutionsAreSafe(trace, actions, n);
    assert StartOk(trace[n], j, k);
    assert WhyOk(trace[n], trace[n].starts[j]);
  }

  /** With NUL-free verbs and uris, the answer from an existing row is 422 exactly when the request that
      inserted it differs from this one in verb, uri or body. */
  lemma KeyReusedIff(trace: seq<System>, actions: seq<Action>, n: nat, r: Id, req: Request)
    requires Execution(trace, actions) && n < |trace| && r in trace[n].rows
    requires NulFree(req.verb) && NulFree(req.uri)
    requires forall p :: p in trace[n].procs ==> NulFree(trace[n].procs[p].req.verb) && NulFree(trace[n].procs[p].req.uri)
    ensures r in trace[n].claims && trace[n].claims[r] in trace[n].procs
    ensures var first := trace[n].procs[trace[n].claims[r]].req;
      AnswerFrom(trace[n].rows[r], HashOf(req)) == KeyReused <==>
        first.verb != req.verb || first.uri != req.uri || first.body != req.body
  {
    ExecutionsAreSafe(trace, actions, n);
    var s := trace[n];
    assert RowOk(s, r);
    var first := s.procs[s.claims[r]].req;
    FingerprintIsInjective(first.verb, first.uri, first.body, req.verb, req.uri, req.body);
  }
}
