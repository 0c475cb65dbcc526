/** joblock.py: one row of `billing_job_locks`, taken, refreshed and released
    by single conditional updates. Times are integer seconds. */
module LeaseLock {
  import opened Options

  datatype Lock = Lock(holder: Option<string>, expires: Option<int>)

  const FREE := Lock(None, None)

  /** `holder IS NULL OR holder = '' OR expires_at < now - steal`. */
  predicate Takeable(l: Lock, steal: int, now: int) {
    || l.holder.None?
    || l.holder.value == ""
    || (l.expires.Some? && l.expires.value < now - steal)
  }

  function AcquireLock(l: Lock, holder: string, lease: int, steal: int, now: int): Lock {
    if Takeable(l, steal, now) then Lock(Some(holder), Some(now + lease)) else l
  }

  function RefreshLock(l: Lock, holder: string, lease: int, now: int): Lock {
    if l.holder == Some(holder) then l.(expires := Some(now + lease)) else l
  }

  function ReleaseLock(l: Lock, holder: string): Lock {
    if l.holder == Some(holder) then FREE else l
  }

  class LockRow {
    var holder: Option<string>
    var expires: Option<int>

    function Row(): Lock
      reads this
    {
      Lock(holder, expires)
    }

    constructor ()
      ensures Row() == FREE
    {
      holder, expires := None, None;
    }

    method Acquire(who: string, lease: int, steal: int, now: int) returns (ok: bool)
      modifies this
      ensures ok == Takeable(old(Row()), steal, now)
      ensures Row() == AcquireLock(old(Row()), who, lease, steal, now)
    {
      ok := holder.None? || holder.value == "" || (expires.Some? && expires.value < now - steal);
      if ok { holder, expires := Some(who), Some(now + lease); }
    }

    method Refresh(who: string, lease: int, now: int) returns (ok: bool)
      modifies this
      ensures ok <==> old(holder) == Some(who)
      ensures Row() == RefreshLock(old(Row()), who, lease, now)
    {
      ok := holder == Some(who);
      if ok { expires := Some(now + lease); }
    }

    method Release(who: string)
      modifies this
      ensures Row() == ReleaseLock(old(Row()), who)
    {
      if holder == Some(who) { holder, expires := None, None; }
    }
  }
}

/**
 * jobs/scheduler.py: the loop one process runs, and any number of such
 * processes contending for the lock row while the database comes and goes.
 */
module Scheduler {
  import opened Options
  import opened LeaseLock

  datatype Config = Config(lease: int, steal: int, once: bool, maxTicks: int)

  // ---------- one process's control flow -------------------------------------

  datatype Reply = StillOurs | Stolen | DbError

  /** What happens to a running process in one turn of the loop: whether a
      signal has arrived by the end of the tick, how the refresh answers. */
  datatype Turn = Turn(signalled: bool, reply: Reply)

  predicate LastTick(c: Config, ticks: nat) {
    c.once || (c.maxTicks != 0 && ticks >= c.maxTicks)
  }

  /** The loop comes round again after turn `k`. */
  predicate GoesOn(c: Config, turns: seq<Turn>, k: nat)
    requires k < |turns|
  {
    !LastTick(c, k + 1) && !turns[k].signalled && turns[k].reply != Stolen
  }

  /** The exit code a turn ends with, if it ends the loop. */
  function ExitAfter(c: Config, ticks: nat, turn: Turn): Option<int> {
    if LastTick(c, ticks) || turn.signalled then Some(0)
    else if turn.reply == Stolen then Some(2)
    else None
  }

  /** Exactly how the loop ends. `turns` is as much of the future as is
      looked at; exit None means the process is still running at its end. */
  method RunLoop(c: Config, acquired: bool, turns: seq<Turn>) returns (exit: Option<int>, ticks: nat)
    ensures !acquired ==> exit == Some(2) && ticks == 0
    ensures acquired ==> ticks <= |turns| && (turns != [] ==> 1 <= ticks)
    ensures acquired ==> forall k :: 0 <= k < ticks - 1 ==> GoesOn(c, turns, k)
    ensures exit == Some(0) <==> acquired && ticks > 0 && (LastTick(c, ticks) || turns[ticks - 1].signalled)
    ensures acquired ==> (exit == Some(2) <==> (ticks > 0 && !LastTick(c, ticks)
                            && !turns[ticks - 1].signalled && turns[ticks - 1].reply == Stolen))
    ensures exit.None? ==> acquired && ticks == |turns|
    ensures acquired && ticks > 0 ==> exit == ExitAfter(c, ticks, turns[ticks - 1])
    ensures exit.Some? ==> exit.value == 0 || exit.value == 2
  {
    if !acquired { return Some(2), 0; }
    ticks := 0;
    while ticks < |turns|
      invariant ticks <= |turns|
      invariant forall k :: 0 <= k < ticks ==> GoesOn(c, turns, k)
    {
      var turn := turns[ticks];
      ticks := ticks + 1;
      if c.once || (c.maxTicks != 0 && ticks >= c.maxTicks) { return Some(0), ticks; }
      if turn.signalled { return Some(0), ticks; }
      var stillOurs := turn.reply != Stolen;
      if !stillOurs { return Some(2), ticks; }
    }
    assert ticks > 0 ==> GoesOn(c, turns, ticks - 1);
    exit := None;
  }

  // ---------- many processes, one lock row ------------------------------------

  datatype Phase = Starting | Ticking | Refreshing | Sleeping | Releasing(exit: int) | Stopped(exit: int)

  /** `granted` is the clock reading of the last successful acquire or
      refresh, `mark` that of the last time the loop got past its refresh at
      all, and `misses` counts the refreshes that raised since `granted`. */
  datatype Proc = Proc(cfg: Config, phase: Phase, ticks: nat, signalled: bool, granted: int, mark: int, misses: nat)

  datatype World = World(lock: Lock, clock: int, procs: map<string, Proc>)

  datatype Action =
    | Spawn(who: string, cfg: Config)
    | TryAcquire(who: string, now: int)
    | EndTick(who: string)
    | RefreshReturns(who: string, now: int)
    | RefreshRaises(who: string, committed: bool, now: int)
    | Wake(who: string)
    | Signal(who: string)
    | ReleaseReturns(who: string)
    | Die(who: string, exit: int)
    | Advance(to: int)

  predicate InLoop(p: Proc) {
    p.phase.Ticking? || p.phase.Refreshing? || p.phase.Sleeping?
  }

  /** Steps of a live process; a step its phase does not allow changes nothing. */
  function Act(w: World, a: Action, p: Proc): (Lock, Proc) {
    match a
    case TryAcquire(who, now) =>
      if p.phase != Starting || now > w.clock then (w.lock, p)
      else if Takeable(w.lock, p.cfg.steal, now)
      then (AcquireLock(w.lock, who, p.cfg.lease, p.cfg.steal, now),
            p.(phase := Ticking, granted := now, mark := now, misses := 0))
      else (w.lock, p.(phase := Stopped(2)))
    case EndTick(who) =>
      if p.phase != Ticking then (w.lock, p)
      else (w.lock, p.(ticks := p.ticks + 1,
                       phase := if LastTick(p.cfg, p.ticks + 1) || p.signalled then Releasing(0) else Refreshing))
    case RefreshReturns(who, now) =>
      if p.phase != Refreshing || now > w.clock || now < p.granted then (w.lock, p)
      else if w.lock.holder == Some(who)
      then (RefreshLock(w.lock, who, p.cfg.lease, now),
            p.(phase := Sleeping, granted := now, mark := now, misses := 0))
      else (w.lock, p.(phase := Releasing(2)))
    case RefreshRaises(who, committed, now) =>
      if p.phase != Refreshing || now > w.clock || now < p.granted then (w.lock, p)
      else (if committed && w.lock.holder == Some(who) then RefreshLock(w.lock, who, p.cfg.lease, now) else w.lock,
            p.(phase := Sleeping, mark := w.clock, misses := p.misses + 1))
    case Wake(who) => (w.lock, if p.phase == Sleeping then p.(phase := Ticking) else p)
    case Signal(who) => (w.lock, p.(signalled := true))
    case ReleaseReturns(who) =>
      if !p.phase.Releasing? then (w.lock, p)
      else (ReleaseLock(w.lock, who), p.(phase := Stopped(p.phase.exit)))
    case Die(who, exit) => (w.lock, p.(phase := Stopped(exit)))
    case _ => (w.lock, p)
  }

  function Next(w: World, a: Action): World {
    match a
    case Spawn(who, cfg) =>
      if who == "" || who in w.procs then w      // tokens are host:pid:random
      else w.(procs := w.procs[who := Proc(cfg, Starting, 0, false, 0, 0, 0)])
    case Advance(to) => if to >= w.clock then w.(clock := to) else w
    case _ =>
      if a.who !in w.procs then w
      else
        var (lock, p) := Act(w, a, w.procs[a.who]);
        w.(lock := lock, procs := w.procs[a.who := p])
  }

  function Run(w: World, actions: seq<Action>): World {
    if actions == [] then w
    else Next(Run(w, actions[..|actions| - 1]), actions[|actions| - 1])
  }

  function Begin(clock: int): World {
    World(FREE, clock, map[])
  }

  /** A new process enters the loop, holding the lock until its lease is over,
      exactly when the lock is free or expired longer ago than its steal
      window; otherwise it stops with code 2 and the lock is as it was. */
  lemma StartOfALoop(w: World, who: string, cfg: Config, now: int)
    requires who != "" && who !in w.procs && now <= w.clock
    ensures var v := Next(Next(w, Spawn(who, cfg)), TryAcquire(who, now));
            && who in v.procs && v.procs[who].ticks == 0 && v.procs[who].misses == 0 && !v.procs[who].signalled
            && (if w.lock.holder.None? || w.lock.holder == Some("") || (w.lock.expires.Some? && w.lock.expires.value < now - cfg.steal)
                then v.procs[who].phase == Ticking && v.procs[who].granted == now == v.procs[who].mark
                     && v.lock == Lock(Some(who), Some(now + cfg.lease))
                else v.procs[who].phase == Stopped(2) && v.lock == w.lock)
  {
  }

  /** A refresh that returns renews the lease and forgets the misses if the lock
      is still its own, and otherwise ends the loop with code 2. One that raises
      counts as a miss, and renewed the lease only if it committed. */
  lemma EndOfATurn(w: World, who: string, now: int, committed: bool)
    requires who in w.procs && w.procs[who].phase == Refreshing && w.procs[who].granted <= now <= w.clock
    ensures var v, p := Next(w, RefreshReturns(who, now)), w.procs[who];
            if w.lock.holder == Some(who)
            then v.lock == Lock(Some(who), Some(now + p.cfg.lease)) && v.procs[who].phase == Sleeping && v.procs[who].misses == 0
                 && v.procs[who].granted == now
            else v.lock == w.lock && v.procs[who].phase == Releasing(2)
    ensures var v, p := Next(w, RefreshRaises(who, committed, now)), w.procs[who];
            && v.procs[who].phase == Sleeping && v.procs[who].misses == p.misses + 1 && v.procs[who].granted == p.granted
            && v.lock == if committed && w.lock.holder == Some(who) then Lock(Some(who), Some(now + p.cfg.lease)) else w.lock
  {
  }

  /** A refresh out of turn, or by a clock reading that lies ahead or before the
      last grant, changes nothing. */
  lemma OutOfTurnChangesNothing(w: World, who: string, now: int, committed: bool)
    requires who in w.procs
    requires w.procs[who].phase != Refreshing || now > w.clock || now < w.procs[who].granted
    ensures Next(w, RefreshReturns(who, now)) == w && Next(w, RefreshRaises(who, committed, now)) == w
  {
    assert w.procs[who := w.procs[who]] == w.procs;
  }

  /** One process's own steps of one turn of the loop. */
  function TurnActions(who: string, turn: Turn, committed: bool, now: int): seq<Action> {
    [if turn.signalled then Signal(who) else Advance(now), EndTick(who),
     if turn.reply == DbError then RefreshRaises(who, committed, now) else RefreshReturns(who, now), Wake(who)]
  }

  lemma RunOneMore(w: World, actions: seq<Action>, a: Action)
    ensures Run(w, actions + [a]) == Next(Run(w, actions), a)
  {
    assert (actions + [a])[..|actions|] == actions;
  }

  lemma RunFour(w: World, a: Action, b: Action, c: Action, d: Action)
    ensures Run(w, [a, b, c, d]) == Next(Next(Next(Next(w, a), b), c), d)
  {
    RunOneMore(w, [], a);
    RunOneMore(w, [a], b);
    RunOneMore(w, [a, b], c);
    RunOneMore(w, [a, b, c], d);
    assert [] + [a] == [a] && [a] + [b] == [a, b] && [a, b] + [c] == [a, b, c] && [a, b, c] + [d] == [a, b, c, d];
  }

  lemma TickEnds(w: World, who: string, turn: Turn)
    requires who in w.procs && w.procs[who].phase == Ticking && !w.procs[who].signalled
    ensures var p := w.procs[who];
            var u := Next(Next(w, if turn.signalled then Signal(who) else Advance(w.clock)), EndTick(who));
            && u.lock == w.lock && u.clock == w.clock && who in u.procs
            && u.procs[who] == p.(ticks := p.ticks + 1, signalled := turn.signalled,
                 phase := if LastTick(p.cfg, p.ticks + 1) || turn.signalled then Releasing(0) else Refreshing)
  {
  }

  /** The machine's turn ends as the loop's does: ticking again, or releasing
      with the same exit code. */
  lemma TurnMatchesTheLoop(w: World, who: string, turn: Turn, committed: bool)
    requires who in w.procs && w.procs[who].phase == Ticking && !w.procs[who].signalled
    requires turn.reply != DbError ==> (turn.reply == StillOurs <==> w.lock.holder == Some(who))
    requires w.procs[who].granted <= w.clock
    ensures var v := Run(w, TurnActions(who, turn, committed, w.clock));
            && who in v.procs && v.procs[who].cfg == w.procs[who].cfg && v.procs[who].ticks == w.procs[who].ticks + 1
            && v.procs[who].phase == match ExitAfter(w.procs[who].cfg, w.procs[who].ticks + 1, turn)
                                     case None => Ticking
                                     case Some(e) => Releasing(e)
  {
    var t := TurnActions(who, turn, committed, w.clock);
    TickEnds(w, who, turn);
    RunFour(w, t[0], t[1], t[2], t[3]);
    assert t == [t[0], t[1], t[2], t[3]];
  }

  /** No contender steals earlier than `window` seconds after expiry. */
  ghost predicate StealWindow(w: World, window: int) {
    forall p :: p in w.procs ==> w.procs[p].cfg.steal >= window
  }

  ghost predicate Inv(w: World, window: int) {
    && "" !in w.procs
    && (w.lock.holder.Some? ==>
          var h := w.lock.holder.value;
          h in w.procs && !w.procs[h].phase.Starting?
          && w.lock.expires.Some?
          && w.lock.expires.value >= w.procs[h].granted + w.procs[h].cfg.lease)
    && forall h :: h in w.procs && (InLoop(w.procs[h]) || w.procs[h].phase == Releasing(0)) ==>
          || w.lock.holder == Some(h)
          || w.clock > w.procs[h].granted + w.procs[h].cfg.lease + window
  }

  lemma StepKeepsInv(w: World, a: Action, window: int)
    requires Inv(w, window) && StealWindow(w, window)
    requires a.Spawn? ==> a.cfg.steal >= window
    ensures Inv(Next(w, a), window) && StealWindow(Next(w, a), window)
  {
    if a.TryAcquire? { AcquireKeepsInv(w, a, window); }
    else if a.RefreshReturns? { RefreshKeepsInv(w, a, window); }
    else if a.ReleaseReturns? { ReleaseKeepsInv(w, a, window); }
    else { OtherKeepsInv(w, a, window); }
  }

  lemma AcquireKeepsInv(w: World, a: Action, window: int)
    requires Inv(w, window) && StealWindow(w, window) && a.TryAcquire?
    ensures Inv(Next(w, a), window) && StealWindow(Next(w, a), window)
  {
  }

  lemma RefreshKeepsInv(w: World, a: Action, window: int)
    requires Inv(w, window) && StealWindow(w, window) && a.RefreshReturns?
    ensures Inv(Next(w, a), window) && StealWindow(Next(w, a), window)
  {
  }

  lemma ReleaseKeepsInv(w: World, a: Action, window: int)
    requires Inv(w, window) && StealWindow(w, window) && a.ReleaseReturns?
    ensures Inv(Next(w, a), window) && StealWindow(Next(w, a), window)
  {
  }

  lemma OtherKeepsInv(w: World, a: Action, window: int)
    requires Inv(w, window) && StealWindow(w, window)
    requires !a.TryAcquire? && !a.RefreshReturns? && !a.ReleaseReturns?
    requires a.Spawn? ==> a.cfg.steal >= window
    ensures Inv(Next(w, a), window) && StealWindow(Next(w, a), window)
  {
  }

  ghost predicate Contenders(actions: seq<Action>, window: int) {
    forall k :: 0 <= k < |actions| && actions[k].Spawn? ==> actions[k].cfg.steal >= window
  }

  lemma {:induction false} EveryRunKeepsInv(clock: int, actions: seq<Action>, window: int)
    requires Contenders(actions, window)
    ensures Inv(Run(Begin(clock), actions), window) && StealWindow(Run(Begin(clock), actions), window)
  {
    if actions != [] {
      EveryRunKeepsInv(clock, actions[..|actions| - 1], window);
      StepKeepsInv(Run(Begin(clock), actions[..|actions| - 1]), actions[|actions| - 1], window);
    }
  }

  /** Whoever is in the loop keeps the lock until its last grant plus its
      lease plus the smallest steal window, through any outage. */
  lemma HolderIsSafeUntil(clock: int, actions: seq<Action>, window: int, who: string)
    requires Contenders(actions, window)
    requires who in Run(Begin(clock), actions).procs
    requires var w := Run(Begin(clock), actions);
             InLoop(w.procs[who]) && w.clock <= w.procs[who].granted + w.procs[who].cfg.lease + window
    ensures Run(Begin(clock), actions).lock.holder == Some(who)
  {
    EveryRunKeepsInv(clock, actions, window);
  }

  // ---------- mutual exclusion from timing alone -------------------------------

  /** Sleep plus tick takes at most `cycle` seconds: no process in the loop is
      ever further than that from the last time it got past its refresh. */
  ghost predicate Paced(w: World, cycle: int) {
    forall h :: h in w.procs && InLoop(w.procs[h]) ==> w.clock <= w.procs[h].mark + cycle
  }

  ghost predicate PacedRun(clock: int, actions: seq<Action>, cycle: int) {
    forall k :: 0 <= k <= |actions| ==> Paced(Run(Begin(clock), actions[..k]), cycle)
  }

  ghost predicate MissesAccounted(w: World, cycle: int) {
    forall h :: h in w.procs && InLoop(w.procs[h]) ==>
      w.procs[h].mark <= w.procs[h].granted + w.procs[h].misses * cycle
  }

  lemma StepAccountsMisses(w: World, a: Action, cycle: int)
    requires MissesAccounted(w, cycle) && Paced(w, cycle)
    ensures MissesAccounted(Next(w, a), cycle)
  {
    var v := Next(w, a);
    forall h | h in v.procs && InLoop(v.procs[h])
      ensures v.procs[h].mark <= v.procs[h].granted + v.procs[h].misses * cycle
    {
      if a.RefreshRaises? && h == a.who && w.procs[h].phase == Refreshing {
        var m := w.procs[h].misses;
        assert (m + 1) * cycle == m * cycle + cycle;
      }
    }
  }

  lemma {:induction false} PacedRunAccountsMisses(clock: int, actions: seq<Action>, cycle: int)
    requires PacedRun(clock, actions, cycle)
    ensures MissesAccounted(Run(Begin(clock), actions), cycle)
  {
    if actions != [] {
      var before := actions[..|actions| - 1];
      forall k | 0 <= k <= |before| ensures Paced(Run(Begin(clock), before[..k]), cycle) {
        assert before[..k] == actions[..k];
      }
      PacedRunAccountsMisses(clock, before, cycle);
      assert before[..|before|] == before == actions[..|before|];
      StepAccountsMisses(Run(Begin(clock), before), actions[|actions| - 1], cycle);
    }
  }

  /** How many refreshes in a row a process may lose to database errors. */
  ghost predicate Covered(p: Proc, cycle: int, window: int) {
    (p.misses + 1) * cycle <= p.cfg.lease + window
  }

  /** Two schedulers never tick at once: in every run whose cycles take at
      most `cycle` seconds, of two processes in the loop at least one has
      missed so many refreshes that its cycles no longer fit in its lease plus
      the smallest steal window. Without an outage nobody has missed any. */
  lemma SchedulersNeverTickTogether(clock: int, actions: seq<Action>, window: int, cycle: int, a: string, b: string)
    requires Contenders(actions, window) && PacedRun(clock, actions, cycle)
    requires var w := Run(Begin(clock), actions);
             a in w.procs && b in w.procs && InLoop(w.procs[a]) && InLoop(w.procs[b])
             && Covered(w.procs[a], cycle, window) && Covered(w.procs[b], cycle, window)
    ensures a == b
  {
    var w := Run(Begin(clock), actions);
    PacedRunAccountsMisses(clock, actions, cycle);
    assert actions[..|actions|] == actions;
    CoveredIsSafe(w, a, window, cycle);
    CoveredIsSafe(w, b, window, cycle);
    HolderIsSafeUntil(clock, actions, window, a);
    HolderIsSafeUntil(clock, actions, window, b);
  }

  lemma CoveredIsSafe(w: World, h: string, window: int, cycle: int)
    requires Paced(w, cycle) && MissesAccounted(w, cycle)
    requires h in w.procs && InLoop(w.procs[h]) && Covered(w.procs[h], cycle, window)
    ensures w.clock <= w.procs[h].granted + w.procs[h].cfg.lease + window
  {
    var m := w.procs[h].misses;
    assert (m + 1) * cycle == m * cycle + cycle;
  }

  // ---------- and no less time will do -----------------------------------------------

  lemma PacedOneMore(actions: seq<Action>, a: Action, cycle: int)
    requires PacedRun(0, actions, cycle) && Paced(Run(Begin(0), actions + [a]), cycle)
    ensures PacedRun(0, actions + [a], cycle)
  {
    var more := actions + [a];
    forall k | 0 <= k <= |more| ensures Paced(Run(Begin(0), more[..k]), cycle) {
      if k <= |actions| { assert more[..k] == actions[..k]; } else { assert more[..k] == more; }
    }
  }

  lemma Extend(actions: seq<Action>, a: Action, window: int, cycle: int)
    requires Contenders(actions, window) && PacedRun(0, actions, cycle)
    requires a.Spawn? ==> a.cfg.steal >= window
    requires Paced(Next(Run(Begin(0), actions), a), cycle)
    ensures Run(Begin(0), actions + [a]) == Next(Run(Begin(0), actions), a)
    ensures Contenders(actions + [a], window) && PacedRun(0, actions + [a], cycle)
  {
    RunOneMore(Begin(0), actions, a);
    PacedOneMore(actions, a, cycle);
  }

  /** `who` acquired at time 0 and has lost `k` refreshes, a cycle apart. */
  ghost predicate OutOfTouch(w: World, who: string, cfg: Config, at: int, k: nat) {
    w == World(Lock(Some(who), Some(cfg.lease)), at, map[who := Proc(cfg, Ticking, k, false, 0, at, k)])
  }

  lemma Acquiring(who: string, cfg: Config, cycle: int)
    requires who != "" && cycle >= 0
    ensures var started := Next(Begin(0), Spawn(who, cfg));
            Paced(started, cycle) && OutOfTouch(Next(started, TryAcquire(who, 0)), who, cfg, 0, 0)
  {
  }

  lemma AcquireFirst(who: string, cfg: Config, cycle: int) returns (run: seq<Action>)
    requires who != "" && cycle >= 0
    ensures Contenders(run, cfg.steal) && PacedRun(0, run, cycle)
    ensures OutOfTouch(Run(Begin(0), run), who, cfg, 0, 0)
  {
    assert PacedRun(0, [], cycle);
    Acquiring(who, cfg, cycle);
    Extend([], Spawn(who, cfg), cfg.steal, cycle);
    var one := [] + [Spawn(who, cfg)];
    Extend(one, TryAcquire(who, 0), cfg.steal, cycle);
    run := one + [TryAcquire(who, 0)];
  }

  /** A cycle without touch: the tick ends, the refresh raises, the sleep ends. */
  lemma LosingOne(w: World, who: string, cfg: Config, cycle: int, at: int, k: nat, next: int)
    requires !cfg.once && cfg.maxTicks == 0 && 0 <= at <= next <= at + cycle
    requires OutOfTouch(w, who, cfg, at, k)
    ensures var later := Next(w, Advance(next));
            var ended := Next(later, EndTick(who));
            var raised := Next(ended, RefreshRaises(who, false, next));
            && Paced(later, cycle) && Paced(ended, cycle) && Paced(raised, cycle)
            && OutOfTouch(Next(raised, Wake(who)), who, cfg, next, k + 1)
  {
  }

  lemma LoseOneRefresh(run: seq<Action>, who: string, cfg: Config, cycle: int, at: int, k: nat, next: int)
    returns (more: seq<Action>)
    requires !cfg.once && cfg.maxTicks == 0 && 0 <= at <= next <= at + cycle
    requires Contenders(run, cfg.steal) && PacedRun(0, run, cycle)
    requires OutOfTouch(Run(Begin(0), run), who, cfg, at, k)
    ensures Contenders(more, cfg.steal) && PacedRun(0, more, cycle)
    ensures OutOfTouch(Run(Begin(0), more), who, cfg, next, k + 1)
  {
    LosingOne(Run(Begin(0), run), who, cfg, cycle, at, k, next);
    Extend(run, Advance(next), cfg.steal, cycle);
    var r := run + [Advance(next)];
    Extend(r, EndTick(who), cfg.steal, cycle);
    r := r + [EndTick(who)];
    Extend(r, RefreshRaises(who, false, next), cfg.steal, cycle);
    r := r + [RefreshRaises(who, false, next)];
    Extend(r, Wake(who), cfg.steal, cycle);
    more := r + [Wake(who)];
  }

  lemma {:induction false} LoseRefreshes(who: string, cfg: Config, cycle: int, misses: nat) returns (run: seq<Action>)
    requires who != "" && cycle >= 0 && !cfg.once && cfg.maxTicks == 0
    ensures Contenders(run, cfg.steal) && PacedRun(0, run, cycle)
    ensures OutOfTouch(Run(Begin(0), run), who, cfg, misses * cycle, misses)
  {
    if misses == 0 {
      run := AcquireFirst(who, cfg, cycle);
    } else {
      var before := LoseRefreshes(who, cfg, cycle, misses - 1);
      var at, next := (misses - 1) * cycle, misses * cycle;
      assert 0 <= at && next == at + cycle;
      run := LoseOneRefresh(before, who, cfg, cycle, at, misses - 1, next);
    }
  }

  /** The bound is exact: for every lease, steal window, cycle and number of
      lost refreshes that pass it, some run of that pace has two schedulers in
      the loop at once. */
  lemma UncoveredSchedulersMayTickTogether(lease: int, window: int, cycle: int, misses: nat, a: string, b: string)
    returns (run: seq<Action>)
    requires a != "" && b != "" && a != b && cycle >= 0
    requires (misses + 1) * cycle > lease + window
    ensures Contenders(run, window) && PacedRun(0, run, cycle)
    ensures var w := Run(Begin(0), run);
            && a in w.procs && b in w.procs && InLoop(w.procs[a]) && InLoop(w.procs[b])
            && w.procs[a].cfg.lease == lease && w.procs[a].misses == misses && !Covered(w.procs[a], cycle, window)
  {
    var cfg := Config(lease, window, false, 0);
    var before := LoseRefreshes(a, cfg, cycle, misses);
    var at, end := misses * cycle, (misses + 1) * cycle;
    assert end == at + cycle;
    Extend(before, Advance(end), window, cycle);
    var r := before + [Advance(end)];
    Extend(r, Spawn(b, cfg), window, cycle);
    r := r + [Spawn(b, cfg)];
    Extend(r, TryAcquire(b, end), window, cycle);
    run := r + [TryAcquire(b, end)];
  }

  // ---------- losing the lock -------------------------------------------------

  ghost predicate Lost(w: World, who: string) {
    who in w.procs && !w.procs[who].phase.Starting? && w.lock.holder != Some(who)
  }

  ghost predicate Leaving(w: World, who: string, ticks: nat) {
    Lost(w, who) && (w.procs[who].phase.Releasing? || w.procs[who].phase.Stopped?) && w.procs[who].ticks == ticks
  }

  lemma {:induction false} LeavingForGood(w: World, who: string, ticks: nat, later: seq<Action>)
    requires Leaving(w, who, ticks)
    ensures Leaving(Run(w, later), who, ticks)
  {
    if later != [] {
      LeavingForGood(w, who, ticks, later[..|later| - 1]);
    }
  }

  /** A process that lost the lock runs no further tick once one of its
      refreshes returns, whatever happens afterwards; and no step of its own,
      its late release included, touches the new holder's row. */
  lemma LoserLeavesTheThiefAlone(w: World, who: string, now: int, later: seq<Action>, own: Action)
    requires Lost(w, who)
    requires w.procs[who].phase == Refreshing && w.procs[who].granted <= now <= w.clock
    requires !own.Spawn? && !own.Advance? && own.who == who
    ensures Leaving(Run(Next(w, RefreshReturns(who, now)), later), who, w.procs[who].ticks)
    ensures Next(w, own).lock == w.lock
    ensures var end := Run(Next(w, RefreshReturns(who, now)), later);
            Next(end, own).lock == end.lock
  {
    LeavingForGood(Next(w, RefreshReturns(who, now)), who, w.procs[who].ticks, later);
  }
}
