/**
 * Any number of workers on one jobs table, interleaved one transaction at a
 * time with operators, producers and the clock. A worker is idle or in
 * flight with the job `claim` handed it; a crash, and equally a database
 * error that sends the thread back to its loop, drops the flight and leaves
 * the row behind. Each call may carry a clock reading taken any time before
 * its transaction.
 */
module QueueProtocol {
  import opened Options
  import opened JobTable

  /** What a worker in flight knows: its job, the attempt it was handed and
      the last lease expiry it wrote. `claimNo` numbers the claims of a run. */
  datatype Flight = Flight(job: nat, attempt: nat, until: int, claimNo: nat)

  /** `claims`, `latest` and `retries` record history: how many claims
      happened, which was the last on each job, and how many failures
      rescheduled each job since it was enqueued or requeued. */
  datatype World = World(
    db: Db, clock: int, flights: map<string, Flight>,
    claims: nat, latest: map<nat, nat>, retries: map<nat, nat>)

  datatype Action =
    | Enqueue(kind: string, key: string, priority: int, maxAttempts: int, runAfter: int)
    | Claim(worker: string, kinds: set<string>, lease: int, now: int)
    | Extend(worker: string, lease: int, now: int)
    | Complete(worker: string, now: int)
    | Fail(worker: string, permanent: bool, jitter: real, now: int)
    | Abandon(worker: string)
    | Requeue(id: nat, now: int)
    | Prune(now: int, doneDays: int, deadDays: int)
    | Withdraw(ids: set<nat>)
    | Tick(to: int)

  function Start(clock: int): World {
    World(Db(map[], 0), clock, map[], 0, map[], map[])
  }

  /** seller_listings.remove drops the unfinished jobs of a withdrawn listing. */
  function WithdrawDb(db: Db, ids: set<nat>): Db {
    db.(rows := map id | id in db.rows
        && !(id in ids && (db.rows[id].status == Pending || db.rows[id].status == Running)) :: db.rows[id])
  }

  ghost function NextClaim(w: World, worker: string, kinds: set<string>, lease: int, now: int): World {
    if worker in w.flights || now > w.clock || !(exists id :: IsNext(w.db, kinds, now, id)) then w
    else
      var id :| IsNext(w.db, kinds, now, id);
      w.(db := ClaimDb(w.db, id, worker, now + lease),
         flights := w.flights[worker := Flight(id, w.db.rows[id].attempts + 1, now + lease, w.claims)],
         claims := w.claims + 1,
         latest := w.latest[id := w.claims])
  }

  ghost function NextFail(w: World, worker: string, permanent: bool, jitter: real, now: int): World {
    if worker !in w.flights || now > w.clock then w
    else
      var id := w.flights[worker].job;
      var db := FailDb(w.db, id, worker, permanent, jitter, now);
      w.(db := db,
         flights := w.flights - {worker},
         retries := if id in db.rows && db != w.db && db.rows[id].status == Pending && id in w.retries
                    then w.retries[id := w.retries[id] + 1] else w.retries)
  }

  ghost function NextEnqueue(w: World, job: Job): World {
    var db := EnqueueDb(w.db, job).0;
    w.(db := db, retries := if db == w.db then w.retries else w.retries[w.db.nextId := 0])
  }

  /** One transaction. A call that is not possible in `w` changes nothing. */
  ghost function Next(w: World, a: Action): World {
    match a
    case Enqueue(kind, key, priority, maxAttempts, runAfter) =>
      NextEnqueue(w, NewJob(kind, key, priority, maxAttempts, runAfter))
    case Claim(worker, kinds, lease, now) => NextClaim(w, worker, kinds, lease, now)
    case Extend(worker, lease, now) =>
      if worker !in w.flights || now > w.clock then w
      else
        var f := w.flights[worker];
        w.(db := ExtendDb(w.db, f.job, worker, now + lease),
           flights := if Owns(w.db, f.job, worker)
                      then w.flights[worker := f.(until := now + lease)] else w.flights)
    case Complete(worker, now) =>
      if worker !in w.flights || now > w.clock then w
      else w.(db := CompleteDb(w.db, w.flights[worker].job, worker, now), flights := w.flights - {worker})
    case Fail(worker, permanent, jitter, now) => NextFail(w, worker, permanent, jitter, now)
    case Abandon(worker) => w.(flights := w.flights - {worker})
    case Requeue(id, now) =>
      w.(db := RequeueDb(w.db, id, now),
         retries := if id in w.db.rows && w.db.rows[id].status == Dead then w.retries[id := 0] else w.retries)
    case Prune(now, doneDays, deadDays) => w.(db := PruneDb(w.db, now, doneDays, deadDays))
    case Withdraw(ids) => w.(db := WithdrawDb(w.db, ids))
    case Tick(to) => if to >= w.clock then w.(clock := to) else w
  }

  ghost function Run(w: World, actions: seq<Action>): World {
    if actions == [] then w
    else Next(Run(w, actions[..|actions| - 1]), actions[|actions| - 1])
  }

  // ---------- what every step keeps ------------------------------------------

  ghost predicate RowInv(w: World, id: nat)
    requires id in w.db.rows
  {
    var j := w.db.rows[id];
    && id < w.db.nextId
    && (j.status == Running <==> j.lockedBy.Some?)
    && (j.status == Running <==> j.lockedUntil.Some?)
    && (j.status == Running ==> id in w.latest)
  }

  /** Rescheduling failures stay below both the attempts spent and the cap. */
  ghost predicate RetryInv(w: World, id: nat)
    requires id in w.db.rows
  {
    var j := w.db.rows[id];
    && id in w.retries
    && (w.retries[id] == 0 || w.retries[id] < j.maxAttempts)
    && (j.status == Pending ==> j.attempts == 0 || j.attempts < j.maxAttempts)
    && (j.status == Pending ==> w.retries[id] <= j.attempts)
    && (j.status == Running ==> w.retries[id] < j.attempts)
  }

  /** The latest claim's worker is named by the row with exactly what it was
      handed; a superseded worker's lease has run out. */
  ghost predicate FlightInv(w: World, worker: string)
    requires worker in w.flights
  {
    var f := w.flights[worker];
    && f.job < w.db.nextId && f.claimNo < w.claims
    && f.job in w.latest && f.claimNo <= w.latest[f.job]
    && (f.claimNo < w.latest[f.job] ==> f.until < w.clock)
    && (f.job in w.db.rows ==>
          var j := w.db.rows[f.job];
          (f.claimNo == w.latest[f.job] <==> (j.status == Running && j.lockedBy == Some(worker)))
          && (f.claimNo == w.latest[f.job] ==> j.attempts == f.attempt && j.lockedUntil == Some(f.until)))
  }

  ghost predicate Inv(w: World) {
    && (forall id :: id in w.latest ==> id < w.db.nextId && w.latest[id] < w.claims)
    && (forall id :: id in w.db.rows ==> RowInv(w, id) && RetryInv(w, id))
    && (forall worker :: worker in w.flights ==> FlightInv(w, worker))
    && (forall a, b :: a in w.flights && b in w.flights && a != b
          ==> w.flights[a].claimNo != w.flights[b].claimNo)
  }

  lemma ClaimKeepsInv(w: World, worker: string, kinds: set<string>, lease: int, now: int)
    requires Inv(w)
    ensures Inv(NextClaim(w, worker, kinds, lease, now))
  {
    var v := NextClaim(w, worker, kinds, lease, now);
    if v != w {
      var id := v.flights[worker].job;
      assert IsNext(w.db, kinds, now, id) && v.db == ClaimDb(w.db, id, worker, now + lease);
      assert RowInv(w, id) && RetryInv(w, id);
      forall x | x in v.db.rows ensures RowInv(v, x) && RetryInv(v, x) {
        assert RowInv(w, x) && RetryInv(w, x);
      }
      forall x | x in v.flights ensures FlightInv(v, x) {
        if x != worker { assert FlightInv(w, x); }
      }
    }
  }

  lemma FailKeepsInv(w: World, worker: string, permanent: bool, jitter: real, now: int)
    requires Inv(w)
    ensures Inv(NextFail(w, worker, permanent, jitter, now))
  {
    var v := NextFail(w, worker, permanent, jitter, now);
    if worker in w.flights && now <= w.clock {
      assert FlightInv(w, worker);
      forall x | x in v.db.rows ensures RowInv(v, x) && RetryInv(v, x) {
        assert RowInv(w, x) && RetryInv(w, x);
      }
      forall x | x in v.flights ensures FlightInv(v, x) {
        assert FlightInv(w, x);
      }
    }
  }

  lemma EnqueueKeepsInv(w: World, job: Job)
    requires Inv(w)
    requires job.status == Pending && job.attempts == 0 && job.lockedBy.None? && job.lockedUntil.None?
    ensures Inv(NextEnqueue(w, job))
  {
    var v := NextEnqueue(w, job);
    if v.db != w.db {
      forall x | x in v.db.rows ensures RowInv(v, x) && RetryInv(v, x) {
        if x != w.db.nextId { assert RowInv(w, x) && RetryInv(w, x); }
      }
      forall x | x in v.flights ensures FlightInv(v, x) {
        assert FlightInv(w, x);
      }
    }
  }

  /** The steps that touch rows one by one and claim nothing: it is enough
      that each surviving row and flight keeps its own invariant. */
  lemma OwnCallKeepsInv(w: World, a: Action)
    requires Inv(w) && (a.Extend? || a.Complete?)
    ensures Inv(Next(w, a))
  {
    var v := Next(w, a);
    if v != w {
      assert FlightInv(w, a.worker);
      forall x | x in v.db.rows ensures RowInv(v, x) && RetryInv(v, x) {
        assert RowInv(w, x) && RetryInv(w, x);
      }
      forall x | x in v.flights ensures FlightInv(v, x) {
        assert FlightInv(w, x);
      }
    }
  }

  lemma HousekeepingKeepsInv(w: World, a: Action)
    requires Inv(w) && (a.Abandon? || a.Requeue? || a.Prune? || a.Withdraw? || a.Tick?)
    ensures Inv(Next(w, a))
  {
    var v := Next(w, a);
    forall x | x in v.db.rows ensures RowInv(v, x) && RetryInv(v, x) {
      assert RowInv(w, x) && RetryInv(w, x);
    }
    forall x | x in v.flights ensures FlightInv(v, x) {
      assert FlightInv(w, x);
    }
  }

  lemma StepKeepsInv(w: World, a: Action)
    requires Inv(w)
    ensures Inv(Next(w, a))
  {
    match a
    case Enqueue(kind, key, priority, maxAttempts, runAfter) =>
      EnqueueKeepsInv(w, NewJob(kind, key, priority, maxAttempts, runAfter));
    case Claim(worker, kinds, lease, now) => ClaimKeepsInv(w, worker, kinds, lease, now);
    case Fail(worker, permanent, jitter, now) => FailKeepsInv(w, worker, permanent, jitter, now);
    case Extend(_, _, _) => OwnCallKeepsInv(w, a);
    case Complete(_, _) => OwnCallKeepsInv(w, a);
    case _ => HousekeepingKeepsInv(w, a);
  }

  lemma {:induction false} EveryRunKeepsInv(clock: int, actions: seq<Action>)
    ensures Inv(Run(Start(clock), actions))
  {
    if actions != [] {
      EveryRunKeepsInv(clock, actions[..|actions| - 1]);
      StepKeepsInv(Run(Start(clock), actions[..|actions| - 1]), actions[|actions| - 1]);
    }
  }

  lemma StepKeepsKeysUnique(w: World, a: Action)
    requires UniqueKeys(w.db) && Numbered(w.db)
    ensures UniqueKeys(Next(w, a).db)
  {
    var rows := Next(w, a).db.rows;
    if a.Claim? {
      assert Next(w, a) == NextClaim(w, a.worker, a.kinds, a.lease, a.now);
      assert forall id :: id in rows ==> id in w.db.rows && rows[id].key == w.db.rows[id].key;
    } else if !a.Enqueue? {
      assert forall id :: id in rows ==> id in w.db.rows && rows[id].key == w.db.rows[id].key;
    }
  }

  /** `dedupe_key` is unique: enqueueing the same work twice adds one row. */
  lemma {:induction false} KeysStayUnique(clock: int, actions: seq<Action>)
    ensures UniqueKeys(Run(Start(clock), actions).db)
  {
    if actions != [] {
      var before := actions[..|actions| - 1];
      KeysStayUnique(clock, before);
      EveryRunKeepsInv(clock, before);
      assert forall id :: id in Run(Start(clock), before).db.rows ==> RowInv(Run(Start(clock), before), id);
      StepKeepsKeysUnique(Run(Start(clock), before), actions[|actions| - 1]);
    }
  }

  // ---------- the promises ---------------------------------------------------

  /** Until the last expiry it wrote, a worker in flight made the latest claim
      on its job, no other worker in flight on that job has an unexpired
      lease, and the row (unless its listing was withdrawn) names it. */
  lemma LeaseIsExclusive(clock: int, actions: seq<Action>, worker: string)
    requires worker in Run(Start(clock), actions).flights
    requires var w := Run(Start(clock), actions); w.clock <= w.flights[worker].until
    ensures var w := Run(Start(clock), actions);
            var f := w.flights[worker];
            && f.job in w.latest && w.latest[f.job] == f.claimNo
            && (f.job in w.db.rows ==> Owns(w.db, f.job, worker) && w.db.rows[f.job].attempts == f.attempt)
            && forall other :: other in w.flights && other != worker && w.flights[other].job == f.job
                 ==> w.flights[other].until < w.clock
  {
    EveryRunKeepsInv(clock, actions);
    var w := Run(Start(clock), actions);
    assert FlightInv(w, worker);
    forall other | other in w.flights && other != worker && w.flights[other].job == w.flights[worker].job
      ensures w.flights[other].until < w.clock
    {
      assert FlightInv(w, other);
    }
  }

  ghost predicate CallsOnOwnJob(a: Action, worker: string) {
    || (a.Complete? && a.worker == worker)
    || (a.Fail? && a.worker == worker)
    || (a.Extend? && a.worker == worker)
  }

  /** A completion, failure or extension passes the fence exactly when the
      caller's is still the latest claim on a job that still exists, and then
      the row carries the attempt number the caller was handed. Otherwise the
      table does not change at all. */
  lemma FenceAdmitsOnlyTheLatestClaim(clock: int, actions: seq<Action>, a: Action, worker: string)
    requires CallsOnOwnJob(a, worker)
    requires worker in Run(Start(clock), actions).flights
    ensures var w := Run(Start(clock), actions);
            var f := w.flights[worker];
            && f.job in w.latest
            && (Owns(w.db, f.job, worker) <==> f.job in w.db.rows && w.latest[f.job] == f.claimNo)
            && (Owns(w.db, f.job, worker) ==> w.db.rows[f.job].attempts == f.attempt)
            && (!Owns(w.db, f.job, worker) ==> Next(w, a).db == w.db)
            && (forall id :: id in w.db.rows && id != f.job
                  ==> id in Next(w, a).db.rows && Next(w, a).db.rows[id] == w.db.rows[id])
  {
    EveryRunKeepsInv(clock, actions);
    assert FlightInv(Run(Start(clock), actions), worker);
  }

  /** At every moment of every run a job has been rescheduled by fewer
      failures than its cap, and a waiting job still has an attempt left. */
  lemma RetriesAreBounded(clock: int, actions: seq<Action>, id: nat)
    requires id in Run(Start(clock), actions).db.rows
    ensures var w := Run(Start(clock), actions);
            var j := w.db.rows[id];
            && id in w.retries
            && (j.maxAttempts >= 1 ==> w.retries[id] <= j.maxAttempts - 1)
            && (j.maxAttempts >= 1 && j.status == Pending ==> j.attempts < j.maxAttempts)
  {
    EveryRunKeepsInv(clock, actions);
    assert RetryInv(Run(Start(clock), actions), id);
  }

  /** Finished jobs: a done row stays as it is until retention deletes it, and
      a dead row until an operator requeues it or retention deletes it. */
  lemma FinishedRowsStay(clock: int, actions: seq<Action>, a: Action, id: nat)
    requires id in Run(Start(clock), actions).db.rows
    requires var s := Run(Start(clock), actions).db.rows[id].status; s == Done || s == Dead
    ensures var w := Run(Start(clock), actions);
            var rows := Next(w, a).db.rows;
            || (id in rows && rows[id] == w.db.rows[id])
            || (a.Prune? && id !in rows && PastRetention(w.db.rows[id], a.now, a.doneDays, a.deadDays))
            || (a.Requeue? && a.id == id && w.db.rows[id].status == Dead)
  {
    EveryRunKeepsInv(clock, actions);
    assert RowInv(Run(Start(clock), actions), id);
  }

  /** The only way to the dead letters is a failure recorded by the latest
      claim, permanent or on the last attempt. */
  lemma DeadOnlyByRecordedFailure(clock: int, actions: seq<Action>, a: Action, id: nat)
    requires id in Run(Start(clock), actions).db.rows
    requires Run(Start(clock), actions).db.rows[id].status != Dead
    requires id in Next(Run(Start(clock), actions), a).db.rows
    ensures var w := Run(Start(clock), actions);
            Next(w, a).db.rows[id].status == Dead
            <==> a.Fail? && a.worker in w.flights && a.now <= w.clock
                 && w.flights[a.worker].job == id && id in w.latest
                 && w.flights[a.worker].claimNo == w.latest[id]
                 && (a.permanent || w.db.rows[id].attempts >= w.db.rows[id].maxAttempts)
  {
    EveryRunKeepsInv(clock, actions);
    var w := Run(Start(clock), actions);
    assert RowInv(w, id) && Inv(w);
    if a.Fail? && a.worker in w.flights { assert FlightInv(w, a.worker); }
  }

  // ---------- the promise the code does not keep -----------------------------

  /** A worker as jobs/worker.py runs one: the kinds it handles, its lease. */
  datatype Worker = Worker(id: string, kinds: set<string>, lease: nat)

  /** The `n`-th claim comes as soon as the lease before it has run out. */
  function Moment(k: Worker, n: nat): nat {
    if n == 0 then 0 else Moment(k, n - 1) + k.lease + 1
  }

  /** One job, and a worker that dies on it `crashes` times. */
  ghost function CrashRun(kind: string, k: Worker, maxAttempts: int, crashes: nat): seq<Action> {
    if crashes == 0 then [Enqueue(kind, "k", 100, maxAttempts, 0)]
    else
      var t := Moment(k, crashes);
      CrashRun(kind, k, maxAttempts, crashes - 1) + [Tick(t), Claim(k.id, k.kinds, k.lease, t), Abandon(k.id)]
  }

  lemma RunAppend(w: World, xs: seq<Action>, a: Action)
    ensures Run(w, xs + [a]) == Next(Run(w, xs), a)
  {
    assert (xs + [a])[..|xs + [a]| - 1] == xs;
  }

  /** The only job, held by nobody alive and claimable at the next moment. */
  ghost predicate Crashed(w: World, kind: string, k: Worker, crashes: nat) {
    && w.db.rows.Keys == {0} && w.flights == map[] && w.clock == Moment(k, crashes)
    && w.db.rows[0].kind == kind && w.db.rows[0].attempts == crashes
    && w.db.rows[0].status == (if crashes == 0 then Pending else Running)
    && w.db.rows[0].runAfter == 0
    && (crashes > 0 ==> w.db.rows[0].lockedUntil == Some(Moment(k, crashes) + k.lease))
  }

  lemma OneMoreCrash(w: World, kind: string, k: Worker, crashes: nat)
    requires Crashed(w, kind, k, crashes) && (k.kinds == {} || kind in k.kinds)
    ensures var t := Moment(k, crashes + 1);
            Crashed(Next(Next(Next(w, Tick(t)), Claim(k.id, k.kinds, k.lease, t)), Abandon(k.id)), kind, k, crashes + 1)
  {
    var t := Moment(k, crashes + 1);
    var ready := Next(w, Tick(t));
    assert IsNext(ready.db, k.kinds, t, 0);
    var claimed := NextClaim(ready, k.id, k.kinds, k.lease, t);
    assert claimed.db == ClaimDb(ready.db, 0, k.id, t + k.lease);
    assert claimed.flights.Keys == {k.id};
    assert (claimed.flights - {k.id}) == map[];
  }

  /** The module's docstring says a job that keeps crashing its worker ends up
      dead-lettered. It does not, for any kind, lease and cap: after any number
      of crashes the job is still running, with one attempt counted for each. */
  lemma {:induction false} CrashingJobIsNeverDeadLettered(kind: string, k: Worker, maxAttempts: int, crashes: nat)
    requires k.kinds == {} || kind in k.kinds
    ensures Crashed(Run(Start(0), CrashRun(kind, k, maxAttempts, crashes)), kind, k, crashes)
  {
    var s := Start(0);
    if crashes == 0 {
      var e := Enqueue(kind, "k", 100, maxAttempts, 0);
      assert CrashRun(kind, k, maxAttempts, 0) == [] + [e];
      RunAppend(s, [], e);
    } else {
      CrashingJobIsNeverDeadLettered(kind, k, maxAttempts, crashes - 1);
      var before, t := CrashRun(kind, k, maxAttempts, crashes - 1), Moment(k, crashes);
      var tick, claim, abandon := Tick(t), Claim(k.id, k.kinds, k.lease, t), Abandon(k.id);
      OneMoreCrash(Run(s, before), kind, k, crashes - 1);
      RunAppend(s, before, tick);
      RunAppend(s, before + [tick], claim);
      RunAppend(s, before + [tick] + [claim], abandon);
      assert CrashRun(kind, k, maxAttempts, crashes) == before + [tick] + [claim] + [abandon];
    }
  }
}
