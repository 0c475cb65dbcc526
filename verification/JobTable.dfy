/**
 * The `jobs` table of jobqueue.py: every operation as a function from one
 * table to the next, and the table itself as an object whose methods are
 * proved against those functions. Times are integer microseconds; every
 * operation is one transaction.
 */
module JobTable {
  import opened Options
  import opened Rounding

  datatype Status = Pending | Running | Done | Dead

  datatype Job = Job(
    kind: string, key: string, status: Status, priority: int,
    attempts: nat, maxAttempts: int, runAfter: int,
    lockedBy: Option<string>, lockedUntil: Option<int>, finishedAt: Option<int>)

  /** Ids come from an autoincrement column: `nextId` never goes back. */
  datatype Db = Db(rows: map<nat, Job>, nextId: nat)

  const SECOND := 1_000_000
  const DAY := 86_400 * SECOND

  // ---------- backoff ------------------------------------------------------

  function Pow2(n: nat): (p: nat)
    ensures p >= 1
  {
    if n == 0 then 1 else 2 * Pow2(n - 1)
  }

  /** Upper end of the jitter interval, in seconds. */
  function BackoffCeiling(attempts: nat): real {
    var raw := 5 * Pow2(if attempts == 0 then 0 else attempts - 1);
    if raw < 1800 then raw as real else 1800.0
  }

  function AtLeastOne(seconds: real): real {
    if seconds < 1.0 then 1.0 else seconds
  }

  /** The delay in microseconds when the random draw is `jitter` of the interval. */
  function BackoffMicros(attempts: nat, jitter: real): int {
    Delay(jitter, BackoffCeiling(attempts))
  }

  function Draw(jitter: real, ceiling: real): real {
    jitter * ceiling
  }

  function Micros(seconds: real): int {
    Round(seconds * SECOND as real)
  }

  function Delay(jitter: real, ceiling: real): int {
    Micros(AtLeastOne(Draw(jitter, ceiling)))
  }

  lemma Pow2Monotone(m: nat, n: nat)
    requires m <= n
    ensures Pow2(m) <= Pow2(n)
  {
    if m < n { Pow2Monotone(m, n - 1); }
  }

  lemma CeilingIsWhole(attempts: nat)
    ensures 5.0 <= BackoffCeiling(attempts) <= BackoffCeiling(attempts + 1) <= 1800.0
    ensures BackoffCeiling(attempts) == BackoffCeiling(attempts).Floor as real
  {
    Pow2Monotone(if attempts == 0 then 0 else attempts - 1, attempts);
  }

  /** Rounding to microseconds keeps a delay inside whole-second bounds. */
  lemma DelayWithin(seconds: real, top: int)
    requires 1.0 <= seconds <= top as real
    ensures SECOND <= Micros(seconds) <= top * SECOND
  {
    RoundMonotone(SECOND as real, seconds * SECOND as real);
    RoundMonotone(seconds * SECOND as real, (top * SECOND) as real);
    RoundOfInt(SECOND);
    RoundOfInt(top * SECOND);
  }

  lemma DrawBelowCeiling(jitter: real, ceiling: real)
    requires 0.0 <= jitter <= 1.0 <= ceiling
    ensures 1.0 <= AtLeastOne(Draw(jitter, ceiling)) <= ceiling
  {
    var rest := 1.0 - jitter;
    MulNonNegative(rest, ceiling);
    assert rest * ceiling == ceiling - jitter * ceiling;
  }

  lemma DelayBounds(jitter: real, ceiling: real)
    requires 0.0 <= jitter <= 1.0 <= ceiling && ceiling == ceiling.Floor as real
    ensures SECOND <= Delay(jitter, ceiling) <= ceiling.Floor * SECOND
  {
    DrawBelowCeiling(jitter, ceiling);
    DelayWithin(AtLeastOne(Draw(jitter, ceiling)), ceiling.Floor);
  }

  /** Every draw waits between one second and the ceiling; the ceiling grows
      with the attempts and stops at half an hour. */
  lemma BackoffBounds(attempts: nat, jitter: real)
    requires 0.0 <= jitter <= 1.0
    ensures SECOND <= BackoffMicros(attempts, jitter) <= BackoffCeiling(attempts).Floor * SECOND
    ensures BackoffCeiling(attempts) <= BackoffCeiling(attempts + 1) <= 1800.0
  {
    CeilingIsWhole(attempts);
    CeilingIsWhole(attempts + 1);
    DelayBounds(jitter, BackoffCeiling(attempts));
  }

  /** The ceiling doubles with each attempt, from five seconds to half an hour. */
  lemma CeilingDoubles(attempts: nat)
    ensures BackoffCeiling(0) == BackoffCeiling(1) == 5.0
    ensures attempts >= 1 ==> BackoffCeiling(attempts + 1)
                              == if 2.0 * BackoffCeiling(attempts) < 1800.0 then 2.0 * BackoffCeiling(attempts) else 1800.0
  {
    assert Pow2(0) == 1;
    if attempts >= 1 { assert Pow2(attempts) == 2 * Pow2(attempts - 1); }
  }

  lemma DelayIs(jitter: real, ceiling: real, drawn: real)
    requires drawn == jitter * ceiling
    ensures var wanted := if drawn < 1.0 then 1_000_000.0 else drawn * 1_000_000.0;
            -0.5 <= Delay(jitter, ceiling) as real - wanted <= 0.5
  {
    assert Draw(jitter, ceiling) == drawn;
  }

  /** The delay is the draw, or one second if that is more, to the nearest
      microsecond. */
  lemma DelayIsTheDraw(attempts: nat, jitter: real)
    ensures var drawn := jitter * BackoffCeiling(attempts);
            var wanted := if drawn < 1.0 then 1_000_000.0 else drawn * 1_000_000.0;
            -0.5 <= BackoffMicros(attempts, jitter) as real - wanted <= 0.5
  {
    var ceiling := BackoffCeiling(attempts);
    DelayIs(jitter, ceiling, jitter * ceiling);
  }

  // ---------- the operations as functions on the table ----------------------

  ghost predicate HasKey(db: Db, key: string) {
    exists id :: id in db.rows && db.rows[id].key == key
  }

  ghost predicate UniqueKeys(db: Db) {
    forall a, b :: a in db.rows && b in db.rows && db.rows[a].key == db.rows[b].key ==> a == b
  }

  function NewJob(kind: string, key: string, priority: int, maxAttempts: int, runAfter: int): Job {
    Job(kind, key, Pending, priority, 0, maxAttempts, runAfter, None, None, None)
  }

  ghost function EnqueueDb(db: Db, job: Job): (Db, Option<nat>) {
    if HasKey(db, job.key) then (db, None)
    else (Db(db.rows[db.nextId := job], db.nextId + 1), Some(db.nextId))
  }

  /** Ready, or abandoned with an expired lease; no kinds means every kind. */
  predicate Eligible(j: Job, kinds: set<string>, now: int) {
    && (|| (j.status == Pending && j.runAfter <= now)
        || (j.status == Running && j.lockedUntil.Some? && j.lockedUntil.value < now))
    && (kinds == {} || j.kind in kinds)
  }

  /** `ORDER BY priority, run_after, id`. */
  predicate Precedes(a: Job, aid: nat, b: Job, bid: nat) {
    || a.priority < b.priority
    || (a.priority == b.priority
        && (a.runAfter < b.runAfter || (a.runAfter == b.runAfter && aid < bid)))
  }

  ghost predicate IsNext(db: Db, kinds: set<string>, now: int, id: nat) {
    && id in db.rows && Eligible(db.rows[id], kinds, now)
    && forall x :: x in db.rows && x != id && Eligible(db.rows[x], kinds, now)
        ==> Precedes(db.rows[id], id, db.rows[x], x)
  }

  /** Which job is next: due, or left behind with its lease over, of a wanted
      kind; and no other such job has a lower priority number, none of its
      priority was due before it, and none of those has a lower id. */
  lemma NextInOrder(db: Db, kinds: set<string>, now: int, id: nat)
    requires IsNext(db, kinds, now, id)
    ensures var j := db.rows[id];
            && (kinds == {} || j.kind in kinds)
            && ((j.status == Pending && j.runAfter <= now)
                || (j.status == Running && j.lockedUntil.Some? && j.lockedUntil.value < now))
    ensures forall x :: x in db.rows && x != id && (kinds == {} || db.rows[x].kind in kinds)
                        && ((db.rows[x].status == Pending && db.rows[x].runAfter <= now)
                            || (db.rows[x].status == Running && db.rows[x].lockedUntil.Some?
                                && db.rows[x].lockedUntil.value < now))
              ==> var i, j := db.rows[id], db.rows[x];
                  && i.priority <= j.priority
                  && (i.priority == j.priority ==> i.runAfter <= j.runAfter)
                  && (i.priority == j.priority && i.runAfter == j.runAfter ==> id < x)
  {
    assert Eligible(db.rows[id], kinds, now);
    assert forall x :: x in db.rows && x != id && Eligible(db.rows[x], kinds, now) ==> Precedes(db.rows[id], id, db.rows[x], x);
  }

  function ClaimDb(db: Db, id: nat, worker: string, until: int): Db
    requires id in db.rows
  {
    var j := db.rows[id];
    db.(rows := db.rows[id := j.(status := Running, lockedBy := Some(worker),
                                 lockedUntil := Some(until), attempts := j.attempts + 1)])
  }

  /** The fence: `WHERE id = ? AND locked_by = ? AND status = 'running'`. */
  predicate Owns(db: Db, id: nat, worker: string) {
    id in db.rows && db.rows[id].status == Running && db.rows[id].lockedBy == Some(worker)
  }

  function ExtendDb(db: Db, id: nat, worker: string, until: int): Db {
    if Owns(db, id, worker)
    then db.(rows := db.rows[id := db.rows[id].(lockedUntil := Some(until))])
    else db
  }

  function Finished(j: Job, status: Status, now: int): Job {
    j.(status := status, lockedBy := None, lockedUntil := None, finishedAt := Some(now))
  }

  function CompleteDb(db: Db, id: nat, worker: string, now: int): Db {
    if Owns(db, id, worker)
    then db.(rows := db.rows[id := Finished(db.rows[id], Done, now)])
    else db
  }

  /** What a recorded failure does to the job it is recorded on. */
  function Failed(j: Job, permanent: bool, jitter: real, now: int): Job {
    if permanent || j.attempts >= j.maxAttempts
    then Finished(j, Dead, now)
    else j.(status := Pending, lockedBy := None, lockedUntil := None,
            runAfter := now + BackoffMicros(j.attempts, jitter))
  }

  function FailDb(db: Db, id: nat, worker: string, permanent: bool, jitter: real, now: int): Db {
    if Owns(db, id, worker)
    then db.(rows := db.rows[id := Failed(db.rows[id], permanent, jitter, now)])
    else db
  }

  function RequeueDb(db: Db, id: nat, now: int): Db {
    if id in db.rows && db.rows[id].status == Dead
    then db.(rows := db.rows[id := db.rows[id].(status := Pending, attempts := 0,
                                               runAfter := now, finishedAt := None)])
    else db
  }

  predicate PastRetention(j: Job, now: int, doneDays: int, deadDays: int) {
    && j.finishedAt.Some?
    && (|| (j.status == Done && j.finishedAt.value < now - doneDays * DAY)
        || (j.status == Dead && j.finishedAt.value < now - deadDays * DAY))
  }

  function PruneDb(db: Db, now: int, doneDays: int, deadDays: int): Db {
    db.(rows := map id | id in db.rows && !PastRetention(db.rows[id], now, doneDays, deadDays) :: db.rows[id])
  }

  /** Pruning deletes a row exactly when it is done, or dead, and has been
      finished for more than its retention of whole days. */
  lemma PrunedExactlyPastRetention(db: Db, now: int, doneDays: int, deadDays: int, id: nat)
    requires id in db.rows
    ensures var j := db.rows[id];
            id !in PruneDb(db, now, doneDays, deadDays).rows
            <==> j.finishedAt.Some?
                 && (|| (j.status == Done && now - j.finishedAt.value > doneDays * 86_400_000_000)
                     || (j.status == Dead && now - j.finishedAt.value > deadDays * 86_400_000_000))
  {
  }

  // ---------- how much work a table still holds ------------------------------

  /** Claims this job can still absorb before a crash-free worker ends it. */
  function JobWork(j: Job): nat {
    if j.status == Done || j.status == Dead then 0
    else if j.maxAttempts - j.attempts > 1 then j.maxAttempts - j.attempts
    else 1
  }

  function Work(db: Db, n: nat): nat {
    if n == 0 then 0
    else Work(db, n - 1) + (if n - 1 in db.rows then JobWork(db.rows[n - 1]) else 0)
  }

  ghost predicate Numbered(db: Db) {
    forall id :: id in db.rows ==> id < db.nextId
  }

  lemma {:induction false} WorkOfUpdate(db: Db, n: nat, id: nat, j: Job)
    requires id in db.rows
    ensures Work(db.(rows := db.rows[id := j]), n)
         == Work(db, n) + (if id < n then JobWork(j) - JobWork(db.rows[id]) else 0)
  {
    if n > 0 { WorkOfUpdate(db, n - 1, id, j); }
  }

  lemma {:induction false} WorkBoundsJob(db: Db, n: nat, id: nat)
    requires id in db.rows && id < n
    ensures JobWork(db.rows[id]) <= Work(db, n)
  {
    if id < n - 1 { WorkBoundsJob(db, n - 1, id); }
  }

  lemma NoWorkNothingReady(db: Db, kinds: set<string>, now: int)
    requires Numbered(db) && Work(db, db.nextId) == 0
    ensures forall id :: id in db.rows ==> !Eligible(db.rows[id], kinds, now)
  {
    forall id | id in db.rows ensures !Eligible(db.rows[id], kinds, now) {
      WorkBoundsJob(db, db.nextId, id);
    }
  }

  /** No work is left exactly when every job is finished. */
  lemma {:induction false} NoWorkExactlyWhenFinished(db: Db, n: nat)
    ensures Work(db, n) == 0 <==> forall id :: id in db.rows && id < n ==> db.rows[id].status == Done || db.rows[id].status == Dead
  {
    if n > 0 { NoWorkExactlyWhenFinished(db, n - 1); }
  }

  /** A fresh job is as much work as it has attempts. */
  lemma FreshJobIsItsAttempts(kind: string, key: string, priority: int, maxAttempts: int, runAfter: int)
    requires maxAttempts >= 1
    ensures var job := NewJob(kind, key, priority, maxAttempts, runAfter);
            Work(Db(map[0 := job], 1), 1) == maxAttempts
  {
    var db := Db(map[0 := NewJob(kind, key, priority, maxAttempts, runAfter)], 1);
    assert Work(db, 0) == 0;
  }

  // ---------- the table as an object -----------------------------------------

  datatype Outcome = Succeeds | FailsRetryable | FailsPermanently

  /** `Unhandled` is the KeyError raised when the handler table is empty. */
  datatype RunResult = Idle | Ran(id: nat, outcome: Outcome) | Unhandled(id: nat)

  /** The table after one crash-free `run_one` that claimed `id`. */
  function RunDb(db: Db, id: nat, worker: string, until: int, outcome: Outcome, jitter: real, end: int): Db
    requires id in db.rows
  {
    var c := ClaimDb(db, id, worker, until);
    match outcome
    case Succeeds => CompleteDb(c, id, worker, end)
    case FailsRetryable => FailDb(c, id, worker, false, jitter, end)
    case FailsPermanently => FailDb(c, id, worker, true, jitter, end)
  }

  /** A crash-free run takes at least one unit of work out of the table,
      whatever the handler does and however late it finishes. */
  lemma RunOneMakesProgress(db: Db, id: nat, worker: string, until: int, outcome: Outcome, jitter: real, end: int)
    requires Numbered(db) && id in db.rows
    requires db.rows[id].status == Pending || db.rows[id].status == Running
    ensures var after := RunDb(db, id, worker, until, outcome, jitter, end);
            Numbered(after) && Work(after, after.nextId) < Work(db, db.nextId)
  {
    var c := ClaimDb(db, id, worker, until);
    var after := RunDb(db, id, worker, until, outcome, jitter, end);
    assert after == db.(rows := db.rows[id := after.rows[id]]);
    WorkOfUpdate(db, db.nextId, id, after.rows[id]);
  }

  /** What recording the handler's answer makes of the job as it was claimed:
      done, dead if the failure is permanent or the attempts are used up, and
      else pending again after the backoff. */
  ghost predicate RecordedAs(claimed: Job, outcome: Outcome, jitter: real, end: int, j: Job) {
    var final := outcome.FailsPermanently? || claimed.attempts >= claimed.maxAttempts;
    && j.kind == claimed.kind && j.key == claimed.key && j.priority == claimed.priority
    && j.attempts == claimed.attempts && j.maxAttempts == claimed.maxAttempts
    && j.lockedBy == None && j.lockedUntil == None
    && (outcome.Succeeds? ==> j.status == Done)
    && (!outcome.Succeeds? && final ==> j.status == Dead)
    && (outcome.Succeeds? || final ==> j.finishedAt == Some(end) && j.runAfter == claimed.runAfter)
    && (!outcome.Succeeds? && !final ==>
          j.status == Pending && j.finishedAt == claimed.finishedAt
          && j.runAfter == end + BackoffMicros(claimed.attempts, jitter))
  }

  /** One run that came to its end: the handler was asked about the job as it
      was claimed, its answer is the outcome, and that is what was recorded;
      no other row changed. */
  ghost predicate RanAs(before: Db, r: RunResult, after: Db, worker: string, handler: Job -> Outcome,
                        until: int, jitter: real, end: int) {
    && r.Ran? && r.id in before.rows && after.nextId == before.nextId
    && after.rows.Keys == before.rows.Keys
    && (forall x :: x in before.rows && x != r.id ==> after.rows[x] == before.rows[x])
    && var j := before.rows[r.id];
       var claimed := j.(status := Running, lockedBy := Some(worker), lockedUntil := Some(until), attempts := j.attempts + 1);
       r.outcome == handler(claimed) && RecordedAs(claimed, handler(claimed), jitter, end, after.rows[r.id])
  }

  /** How a drain calls the queue: worker, kinds, handler and lease, and the
      clock and the jitter of each run. */
  datatype Drainer = Drainer(worker: string, kinds: set<string>, handler: Job -> Outcome, lease: int,
                             start: nat -> int, end: nat -> int, jitter: nat -> real)

  ghost predicate RanNext(before: Db, r: RunResult, after: Db, d: Drainer, i: nat) {
    && RanAs(before, r, after, d.worker, d.handler, d.start(i) + d.lease, d.jitter(i), d.end(i))
    && IsNext(before, d.kinds, d.start(i), r.id)
  }

  /** `tables` are the tables before each result and after the last. */
  ghost predicate RanInOrder(tables: seq<Db>, out: seq<RunResult>, d: Drainer) {
    |tables| == |out| + 1 && forall i :: 0 <= i < |out| ==> RanNext(tables[i], out[i], tables[i + 1], d, i)
  }

  lemma OneMoreRan(tables: seq<Db>, out: seq<RunResult>, d: Drainer, r: RunResult, after: Db)
    requires RanInOrder(tables, out, d) && RanNext(tables[|out|], r, after, d, |out|)
    ensures RanInOrder(tables + [after], out + [r], d)
  {
    var ts, rs := tables + [after], out + [r];
    forall i | 0 <= i < |rs| ensures RanNext(ts[i], rs[i], ts[i + 1], d, i) {
      assert i < |out| ==> RanNext(tables[i], out[i], tables[i + 1], d, i);
    }
  }

  class Jobs {
    var rows: map<nat, Job>
    var nextId: nat

    function Table(): Db
      reads this
    {
      Db(rows, nextId)
    }

    ghost predicate Valid()
      reads this
    {
      Numbered(Table())
    }

    constructor ()
      ensures Valid() && Table() == Db(map[], 0)
    {
      rows := map[];
      nextId := 0;
    }

    method Enqueue(kind: string, key: string, priority: int, maxAttempts: int, runAfter: Option<int>, now: int)
      returns (id: Option<nat>)
      requires Valid()
      modifies this
      ensures Valid()
      ensures (Table(), id) == EnqueueDb(old(Table()), NewJob(kind, key, priority, maxAttempts,
                                         if runAfter.Some? then runAfter.value else now))
    {
      for x := 0 to nextId
        invariant forall y :: y in rows && y < x ==> rows[y].key != key
        invariant Table() == old(Table())
      {
        if x in rows && rows[x].key == key { return None; }
      }
      id := Some(nextId);
      rows := rows[nextId := NewJob(kind, key, priority, maxAttempts,
                                    if runAfter.Some? then runAfter.value else now)];
      nextId := nextId + 1;
    }

    /** None exactly when nothing is runnable; otherwise the first runnable
        job in queue order is taken and the lease written. */
    method Claim(worker: string, kinds: set<string>, lease: int, now: int) returns (id: Option<nat>)
      requires Valid()
      modifies this
      ensures Valid()
      ensures id.None? ==> Table() == old(Table())
      ensures id.None? <==> forall x :: x in old(rows) ==> !Eligible(old(rows)[x], kinds, now)
      ensures id.Some? ==> IsNext(old(Table()), kinds, now, id.value)
      ensures id.Some? ==> Table() == ClaimDb(old(Table()), id.value, worker, now + lease)
    {
      id := None;
      for x := 0 to nextId
        invariant Table() == old(Table())
        invariant id.None? ==> forall y :: y in rows && y < x ==> !Eligible(rows[y], kinds, now)
        invariant id.Some? ==> id.value in rows && id.value < x && Eligible(rows[id.value], kinds, now)
        invariant id.Some? ==> forall y :: y in rows && y < x && y != id.value && Eligible(rows[y], kinds, now)
                                 ==> Precedes(rows[id.value], id.value, rows[y], y)
      {
        if x in rows && Eligible(rows[x], kinds, now)
           && (id.None? || Precedes(rows[x], x, rows[id.value], id.value)) {
          id := Some(x);
        }
      }
      if id.Some? {
        var j := rows[id.value];
        rows := rows[id.value := j.(status := Running, lockedBy := Some(worker),
                                    lockedUntil := Some(now + lease), attempts := j.attempts + 1)];
      }
    }

    method ExtendLease(id: nat, worker: string, lease: int, now: int) returns (ok: bool)
      requires Valid()
      modifies this
      ensures Valid()
      ensures ok == Owns(old(Table()), id, worker)
      ensures Table() == ExtendDb(old(Table()), id, worker, now + lease)
    {
      ok := id in rows && rows[id].lockedBy == Some(worker) && rows[id].status == Running;
      if ok { rows := rows[id := rows[id].(lockedUntil := Some(now + lease))]; }
    }

    method Complete(id: nat, worker: string, now: int) returns (ok: bool)
      requires Valid()
      modifies this
      ensures Valid()
      ensures ok == Owns(old(Table()), id, worker)
      ensures Table() == CompleteDb(old(Table()), id, worker, now)
    {
      ok := id in rows && rows[id].lockedBy == Some(worker) && rows[id].status == Running;
      if ok {
        rows := rows[id := rows[id].(status := Done, lockedBy := None,
                                     lockedUntil := None, finishedAt := Some(now))];
      }
    }

    /** None when the job is no longer this worker's. */
    method Fail(id: nat, worker: string, permanent: bool, jitter: real, now: int) returns (status: Option<Status>)
      requires Valid()
      modifies this
      ensures Valid()
      ensures Table() == FailDb(old(Table()), id, worker, permanent, jitter, now)
      ensures status.Some? <==> Owns(old(Table()), id, worker)
      ensures status.Some? ==> rows[id].status == status.value
    {
      if !(id in rows && rows[id].lockedBy == Some(worker) && rows[id].status == Running) {
        return None;
      }
      var j := rows[id];
      if permanent || j.attempts >= j.maxAttempts {
        rows := rows[id := j.(status := Dead, lockedBy := None,
                              lockedUntil := None, finishedAt := Some(now))];
        return Some(Dead);
      }
      var delay := BackoffMicros(j.attempts, jitter);
      rows := rows[id := j.(status := Pending, lockedBy := None,
                            lockedUntil := None, runAfter := now + delay)];
      return Some(Pending);
    }

    method RequeueDead(id: nat, now: int) returns (ok: bool)
      requires Valid()
      modifies this
      ensures Valid()
      ensures ok <==> id in old(rows) && old(rows)[id].status == Dead
      ensures Table() == RequeueDb(old(Table()), id, now)
    {
      ok := id in rows && rows[id].status == Dead;
      if ok {
        rows := rows[id := rows[id].(status := Pending, attempts := 0, runAfter := now, finishedAt := None)];
      }
    }

    method Prune(now: int, doneDays: int, deadDays: int)
      requires Valid()
      modifies this
      ensures Valid()
      ensures Table() == PruneDb(old(Table()), now, doneDays, deadDays)
    {
      var keep := map[];
      for x := 0 to nextId
        invariant Table() == old(Table())
        invariant forall y :: y in keep <==> y in rows && y < x && !PastRetention(rows[y], now, doneDays, deadDays)
        invariant forall y :: y in keep ==> keep[y] == rows[y]
      {
        if x in rows && !PastRetention(rows[x], now, doneDays, deadDays) {
          keep := keep[x := rows[x]];
        }
      }
      rows := keep;
    }

    /** Claim, run the handler, record its outcome. */
    method RunOne(worker: string, kinds: set<string>, handler: Job -> Outcome,
                  lease: int, start: int, end: int, jitter: real)
      returns (r: RunResult)
      requires Valid()
      modifies this
      ensures Valid()
      ensures r.Idle? <==> forall x :: x in old(rows) ==> !Eligible(old(rows)[x], kinds, start)
      ensures r.Idle? ==> Table() == old(Table())
      ensures r.Unhandled? ==> kinds == {} && IsNext(old(Table()), kinds, start, r.id)
                               && Table() == ClaimDb(old(Table()), r.id, worker, start + lease)
      ensures r.Ran? ==> kinds != {} && IsNext(old(Table()), kinds, start, r.id)
                         && Table() == RunDb(old(Table()), r.id, worker, start + lease, r.outcome, jitter, end)
      ensures r.Ran? ==> RanAs(old(Table()), r, Table(), worker, handler, start + lease, jitter, end)
    {
      var claimed := Claim(worker, kinds, lease, start);
      if claimed.None? { return Idle; }
      var id := claimed.value;
      if rows[id].kind !in kinds { return Unhandled(id); }
      var outcome := handler(rows[id]);
      match outcome {
        case Succeeds => var _ := Complete(id, worker, end);
        case FailsRetryable => var _ := Fail(id, worker, false, jitter, end);
        case FailsPermanently => var _ := Fail(id, worker, true, jitter, end);
      }
      return Ran(id, outcome);
    }

    /** Runs jobs until none is ready or `maxJobs` ran. Each result is the
        handler's answer for the job that was next in the table before it, as
        `tables` tells. With a budget of at least the table's work, it stops
        because nothing is ready. */
    method Drain(d: Drainer, maxJobs: nat)
      returns (out: seq<RunResult>, raised: bool, ghost tables: seq<Db>)
      requires Valid()
      modifies this
      ensures Valid()
      ensures raised ==> d.kinds == {}
      ensures RanInOrder(tables, out, d) && tables[0] == old(Table()) && (!raised ==> tables[|out|] == Table())
      ensures !raised ==> Work(Table(), nextId) + |out| <= old(Work(Table(), nextId))
      ensures !raised && old(Work(Table(), nextId)) <= maxJobs
              ==> forall id :: id in rows ==> !Eligible(rows[id], d.kinds, d.start(|out|))
    {
      out, raised, tables := [], false, [Table()];
      for i := 0 to maxJobs
        invariant Valid() && |out| == i
        invariant RanInOrder(tables, out, d) && tables[0] == old(Table()) && tables[i] == Table()
        invariant Work(Table(), nextId) + |out| <= old(Work(Table(), nextId))
      {
        label before:
        var r := RunOne(d.worker, d.kinds, d.handler, d.lease, d.start(i), d.end(i), d.jitter(i));
        if r.Idle? { return out, false, tables; }
        if r.Unhandled? { return out, true, tables; }
        RunOneMakesProgress(old@before(Table()), r.id, d.worker, d.start(i) + d.lease, r.outcome, d.jitter(i), d.end(i));
        OneMoreRan(tables, out, d, r, Table());
        out, tables := out + [r], tables + [Table()];
      }
      if old(Work(Table(), nextId)) <= maxJobs {
        NoWorkNothingReady(Table(), d.kinds, d.start(|out|));
      }
    }
  }
}
