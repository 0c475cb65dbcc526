/** Matching one opportunity against every subscriber's saved searches
    (saved_search_alerts.py:evaluate): at most one match for each event, plan
    limits, and notification jobs queued in the same transaction. */
module Alerts {
  import opened Options
  import opened Sequences

  type UserId = int
  type CarId = string

  /** The event key under which a match is unique for its user. */
  datatype EventKey = NewCar(car: CarId) | PriceDrop(car: CarId, price: int)

  datatype Channel = Ntfy | Webhook | Sms

  /** The dedupe key of a notification job. */
  datatype JobKey = JobKey(key: EventKey, user: UserId, channel: Channel)

  datatype Match = Match(user: UserId, key: EventKey, search: int, created: int, notified: bool)

  datatype Limits = Limits(alertsPerDay: int, priceDrops: bool, searches: nat, smsPerMonth: int, webhook: bool)

  /** A saved search and its verdict on the opportunity, once as a new car
      and once as a price drop. */
  datatype Search = Search(id: int, acceptsNew: bool, acceptsDrop: bool)

  /** One entitled user's searches, oldest first, with their plan's limits,
      their own channels and the text messages used up this month. */
  datatype Subscriber = Subscriber(
    user: UserId, limits: Limits, searches: seq<Search>, ntfy: bool, hook: bool, phone: bool, smsUsed: int)

  /** `vehicle` is empty when the car has no known identity. */
  datatype Opportunity = Opportunity(car: CarId, drop: Option<int>, vehicle: string)

  /** The rows `evaluate` reads and writes, and every job key ever created. */
  datatype Db = Db(matches: seq<Match>, jobs: set<JobKey>, log: seq<JobKey>)

  const DAY := 86400000000
  const CROSS_POST_WINDOW := 14 * DAY

  /** Which car a listings row is, whatever source posted it. */
  type Vehicles = CarId -> string

  // ---------- deciding for one subscriber ----------------------------------------------

  function MatchOf(user: UserId, key: EventKey): Match -> bool {
    (m: Match) => m.user == user && m.key == key
  }

  function OnCar(user: UserId, car: CarId): Match -> bool {
    (m: Match) => m.user == user && m.key.car == car
  }

  function SentSince(user: UserId, start: int): Match -> bool {
    (m: Match) => m.user == user && m.notified && m.created >= start
  }

  function SameVehicle(user: UserId, opp: Opportunity, vehicles: Vehicles, now: int): Match -> bool {
    (m: Match) => m.user == user && vehicles(m.key.car) == opp.vehicle && m.key.car != opp.car
                  && m.created > now - CROSS_POST_WINDOW
  }

  function DayStart(now: int): int {
    now - now % DAY
  }

  /** Without price-drop alerts a drop can only deliver a car's first match. */
  function EventFor(db: Db, opp: Opportunity, s: Subscriber): Option<EventKey> {
    if opp.drop.None? then Some(NewCar(opp.car))
    else if s.limits.priceDrops then Some(PriceDrop(opp.car, opp.drop.value))
    else if Count(OnCar(s.user, opp.car), db.matches) > 0 then None
    else Some(NewCar(opp.car))
  }

  predicate Accepts(s: Search, key: EventKey) {
    if key.NewCar? then s.acceptsNew else s.acceptsDrop
  }

  function FirstHit(searches: seq<Search>, key: EventKey): Option<Search> {
    if searches == [] then None
    else if Accepts(searches[0], key) then Some(searches[0])
    else FirstHit(searches[1..], key)
  }

  /** After a downgrade only the oldest searches count. */
  function Active(s: Subscriber): seq<Search> {
    if s.limits.searches < |s.searches| then s.searches[..s.limits.searches] else s.searches
  }

  function Channels(s: Subscriber): seq<Channel> {
    (if s.ntfy then [Ntfy] else [])
    + (if s.hook && s.limits.webhook then [Webhook] else [])
    + (if s.phone && s.limits.smsPerMonth > 0 && s.smsUsed < s.limits.smsPerMonth then [Sms] else [])
  }

  /** Inserting one job a channel; a key that exists is skipped. */
  function Queued(jobs: set<JobKey>, key: EventKey, user: UserId, chans: seq<Channel>): seq<JobKey>
    decreases |chans|
  {
    if chans == [] then []
    else
      var k := JobKey(key, user, chans[0]);
      if k in jobs then Queued(jobs, key, user, chans[1..])
      else [k] + Queued(jobs + {k}, key, user, chans[1..])
  }

  predicate CrossPosted(db: Db, opp: Opportunity, vehicles: Vehicles, now: int, user: UserId, key: EventKey) {
    key.NewCar? && opp.vehicle != "" && Count(SameVehicle(user, opp, vehicles, now), db.matches) > 0
  }

  /** The event and the search that make a new match, if any do. */
  function Decide(db: Db, opp: Opportunity, vehicles: Vehicles, now: int, s: Subscriber): Option<(EventKey, Search)> {
    if s.limits.alertsPerDay <= 0 then None
    else
      var key := EventFor(db, opp, s);
      if key.None? then None
      else
        var hit := FirstHit(Active(s), key.value);
        if hit.None? || CrossPosted(db, opp, vehicles, now, s.user, key.value)
           || Count(MatchOf(s.user, key.value), db.matches) > 0
        then None
        else Some((key.value, hit.value))
  }

  function ToNotify(db: Db, now: int, s: Subscriber): seq<Channel> {
    if Count(SentSince(s.user, DayStart(now)), db.matches) < s.limits.alertsPerDay then Channels(s) else []
  }

  /** The match and its jobs, in one transaction. */
  function Record(db: Db, now: int, user: UserId, key: EventKey, search: int, chans: seq<Channel>): Db {
    var queued := Queued(db.jobs, key, user, chans);
    Db(db.matches + [Match(user, key, search, now, queued != [])],
       db.jobs + (set k | k in queued), db.log + queued)
  }

  function EvaluateUser(db: Db, opp: Opportunity, vehicles: Vehicles, now: int, s: Subscriber): Db {
    var d := Decide(db, opp, vehicles, now, s);
    if d.None? then db else Record(db, now, s.user, d.value.0, d.value.1.id, ToNotify(db, now, s))
  }

  function EvaluateAll(db: Db, opp: Opportunity, vehicles: Vehicles, now: int, subs: seq<Subscriber>): Db {
    if subs == [] then db
    else EvaluateUser(EvaluateAll(db, opp, vehicles, now, subs[..|subs| - 1]), opp, vehicles, now, subs[|subs| - 1])
  }

  /** What the caller is told about a created match. */
  datatype Created = Created(user: UserId, search: int, key: EventKey, channels: seq<Channel>, notified: bool)

  function Tell(db: Db, opp: Opportunity, vehicles: Vehicles, now: int, s: Subscriber): Option<Created> {
    var d := Decide(db, opp, vehicles, now, s);
    if d.None? then None
    else
      var chans := ToNotify(db, now, s);
      Some(Created(s.user, d.value.1.id, d.value.0, chans, chans != []))
  }

  /** What is told about each subscriber that was matched, in order. */
  function TellAll(db: Db, opp: Opportunity, vehicles: Vehicles, now: int, subs: seq<Subscriber>): seq<Created> {
    if subs == [] then []
    else
      var init, last := subs[..|subs| - 1], subs[|subs| - 1];
      var told := Tell(EvaluateAll(db, opp, vehicles, now, init), opp, vehicles, now, last);
      TellAll(db, opp, vehicles, now, init) + (if told.Some? then [told.value] else [])
  }

  class AlertTables {
    var matches: seq<Match>
    var jobs: set<JobKey>
    ghost var log: seq<JobKey>

    ghost function Rows(): Db
      reads this
    {
      Db(matches, jobs, log)
    }

    constructor ()
      ensures Rows() == Db([], {}, [])
    {
      matches, jobs, log := [], {}, [];
    }

    /** enqueue_user: the channels whose job was inserted. */
    method EnqueueUser(key: EventKey, user: UserId, chans: seq<Channel>) returns (queued: seq<JobKey>)
      modifies this
      ensures queued == Queued(old(jobs), key, user, chans)
      ensures matches == old(matches) && jobs == old(jobs) + (set k | k in queued)
      ensures log == old(log) + queued
    {
      queued := [];
      for n := 0 to |chans|
        invariant queued + Queued(jobs, key, user, chans[n..]) == Queued(old(jobs), key, user, chans)
        invariant matches == old(matches) && jobs == old(jobs) + (set k | k in queued)
        invariant log == old(log) + queued
      {
        var k := JobKey(key, user, chans[n]);
        assert chans[n..][0] == chans[n] && chans[n..][1..] == chans[n + 1..];
        if k !in jobs {
          ghost var rest := Queued(jobs + {k}, key, user, chans[n + 1..]);
          assert queued + ([k] + rest) == (queued + [k]) + rest;
          jobs := jobs + {k};
          log := log + [k];
          queued := queued + [k];
        }
      }
      assert chans[|chans|..] == [];
    }

    method MatchSubscriber(opp: Opportunity, vehicles: Vehicles, now: int, s: Subscriber)
      returns (made: Option<Created>)
      modifies this
      ensures Rows() == EvaluateUser(old(Rows()), opp, vehicles, now, s)
      ensures made == Tell(old(Rows()), opp, vehicles, now, s)
    {
      ghost var before := Rows();
      var key := NewCar(opp.car);
      if s.limits.alertsPerDay <= 0 { return None; }
      if opp.drop.Some? {
        if s.limits.priceDrops {
          key := PriceDrop(opp.car, opp.drop.value);
        } else if Count(OnCar(s.user, opp.car), matches) > 0 {
          return None;
        }
      }
      var hit := FirstHit(Active(s), key);
      if hit.None? { return None; }
      if key.NewCar? && opp.vehicle != "" && Count(SameVehicle(s.user, opp, vehicles, now), matches) > 0 {
        return None;
      }
      var sentToday := Count(SentSince(s.user, DayStart(now)), matches);
      var chans := if sentToday < s.limits.alertsPerDay then Channels(s) else [];
      if Count(MatchOf(s.user, key), matches) > 0 { return None; }
      assert Decide(before, opp, vehicles, now, s) == Some((key, hit.value));
      var queued := EnqueueUser(key, s.user, chans);
      matches := matches + [Match(s.user, key, hit.value.id, now, queued != [])];
      made := Some(Created(s.user, hit.value.id, key, chans, chans != []));
    }

    method Evaluate(opp: Opportunity, vehicles: Vehicles, now: int, subs: seq<Subscriber>)
      returns (created: seq<Created>)
      modifies this
      ensures Rows() == EvaluateAll(old(Rows()), opp, vehicles, now, subs)
      ensures created == TellAll(old(Rows()), opp, vehicles, now, subs)
      ensures |matches| == |old(matches)| + |created|
    {
      created := [];
      for n := 0 to |subs|
        invariant Rows() == EvaluateAll(old(Rows()), opp, vehicles, now, subs[..n])
        invariant created == TellAll(old(Rows()), opp, vehicles, now, subs[..n])
        invariant |matches| == |old(matches)| + |created|
      {
        assert subs[..n + 1][..n] == subs[..n] && subs[..n + 1][n] == subs[n];
        var made := MatchSubscriber(opp, vehicles, now, subs[n]);
        created := created + (if made.Some? then [made.value] else []);
      }
      assert subs[..|subs|] == subs;
    }
  }
}

/** Whole runs: opportunities evaluated at a clock that does not go back,
    finished jobs pruned, and withdrawn listings taken out with their matches
    and unfinished jobs. A price update or a publication in flight may bring a
    withdrawn car back, so any car may be evaluated at any time. */
module AlertRuns {
  import opened Options
  import opened Sequences
  import opened Alerts

  /** `gone` are the cars that were ever withdrawn, `made` is every match ever
      made and `withdrawn` those deleted with their listing. */
  datatype World = World(db: Db, now: int, gone: set<CarId>, made: seq<Match>, withdrawn: seq<Match>)

  datatype Action =
    | Evaluate(opp: Opportunity, now: int, subs: seq<Subscriber>)
    | Prune(keys: set<JobKey>)
    | Forget(car: CarId, unfinished: set<JobKey>)

  const START := World(Db([], {}, []), 0, {}, [], [])

  predicate Enabled(w: World, a: Action, vehicles: Vehicles) {
    a.Evaluate? ==> a.now >= w.now && a.opp.vehicle == vehicles(a.opp.car)
  }

  function Elsewhere(car: CarId): Match -> bool {
    (m: Match) => m.key.car != car
  }

  function OfCar(car: CarId): Match -> bool {
    (m: Match) => m.key.car == car
  }

  function ForgetDb(db: Db, car: CarId, unfinished: set<JobKey>): Db {
    Db(Filter(Elsewhere(car), db.matches), (set k | k in db.jobs && !(k.key.car == car && k in unfinished)), db.log)
  }

  function Since(before: seq<Match>, after: seq<Match>): seq<Match> {
    if |before| <= |after| then after[|before|..] else []
  }

  function Step(w: World, a: Action, vehicles: Vehicles): World {
    match a
    case Evaluate(opp, now, subs) =>
      var db := EvaluateAll(w.db, opp, vehicles, now, subs);
      World(db, now, w.gone, w.made + Since(w.db.matches, db.matches), w.withdrawn)
    case Prune(keys) => w.(db := w.db.(jobs := w.db.jobs - keys))
    case Forget(car, unfinished) =>
      World(ForgetDb(w.db, car, unfinished), w.now, w.gone + {car}, w.made,
            w.withdrawn + Filter(OfCar(car), w.db.matches))
  }

  function After(run: seq<Action>, vehicles: Vehicles): World {
    if run == [] then START else Step(After(run[..|run| - 1], vehicles), run[|run| - 1], vehicles)
  }

  ghost predicate IsRun(run: seq<Action>, vehicles: Vehicles) {
    run != [] ==>
      IsRun(run[..|run| - 1], vehicles) && Enabled(After(run[..|run| - 1], vehicles), run[|run| - 1], vehicles)
  }

  /** No withdrawn car is evaluated again in this run. */
  ghost predicate NoReturn(run: seq<Action>, vehicles: Vehicles) {
    run != [] ==>
      var last := run[|run| - 1];
      NoReturn(run[..|run| - 1], vehicles)
      && (last.Evaluate? ==> last.opp.car !in After(run[..|run| - 1], vehicles).gone)
  }

  lemma AfterAppend(run: seq<Action>, a: Action, vehicles: Vehicles)
    ensures After(run + [a], vehicles) == Step(After(run, vehicles), a, vehicles)
    ensures IsRun(run + [a], vehicles) <==> IsRun(run, vehicles) && Enabled(After(run, vehicles), a, vehicles)
  {
    assert (run + [a])[..|run|] == run;
  }

  // ---------- what every step keeps ------------------------------------------------------

  predicate Apart(m: Match, n: Match) {
    !(m.user == n.user && m.key == n.key)
  }

  predicate Differ(k: JobKey, l: JobKey) {
    k != l
  }

  ghost predicate HasMatch(matches: seq<Match>, k: JobKey) {
    exists m :: m in matches && m.user == k.user && m.key == k.key && m.notified
  }

  ghost predicate HasJob(log: seq<JobKey>, m: Match) {
    exists c :: JobKey(m.key, m.user, c) in log
  }

  ghost predicate Inv(db: Db, gone: set<CarId>) {
    && Pairwise(Apart, db.matches)
    && (forall m :: m in db.matches ==> m.key.car !in gone)
    && Pairwise(Differ, db.log)
    && (forall k :: k in db.jobs ==> k in db.log)
    && (forall k :: k in db.log ==> k.key.car in gone || HasMatch(db.matches, k))
    && (forall m :: m in db.matches && m.notified ==> HasJob(db.log, m))
  }

  ghost predicate Fresh(db: Db, user: UserId, key: EventKey) {
    forall m :: m in db.matches ==> !(m.user == user && m.key == key)
  }

  function JobsFor(key: EventKey, user: UserId, chans: seq<Channel>): seq<JobKey> {
    seq(|chans|, i requires 0 <= i < |chans| => JobKey(key, user, chans[i]))
  }

  /** When none of the keys exists every channel gets its job. */
  lemma {:induction false} AllQueued(jobs: set<JobKey>, key: EventKey, user: UserId, chans: seq<Channel>)
    requires forall c :: c in chans ==> JobKey(key, user, c) !in jobs
    requires forall i, j :: 0 <= i < j < |chans| ==> chans[i] != chans[j]
    ensures Queued(jobs, key, user, chans) == JobsFor(key, user, chans)
    decreases |chans|
  {
    if chans != [] {
      var k := JobKey(key, user, chans[0]);
      AllQueued(jobs + {k}, key, user, chans[1..]);
      assert JobsFor(key, user, chans) == [k] + JobsFor(key, user, chans[1..]);
    }
  }

  lemma ChannelsAreDistinct(s: Subscriber)
    ensures forall i, j :: 0 <= i < j < |Channels(s)| ==> Channels(s)[i] != Channels(s)[j]
  {
  }

  lemma FreshHasNoJobs(db: Db, gone: set<CarId>, user: UserId, key: EventKey, c: Channel)
    requires Inv(db, gone) && Fresh(db, user, key) && key.car !in gone
    ensures JobKey(key, user, c) !in db.log && JobKey(key, user, c) !in db.jobs
  {
  }

  lemma QueuedForFresh(db: Db, gone: set<CarId>, user: UserId, key: EventKey, chans: seq<Channel>)
    requires Inv(db, gone) && Fresh(db, user, key) && key.car !in gone
    requires forall i, j :: 0 <= i < j < |chans| ==> chans[i] != chans[j]
    ensures Queued(db.jobs, key, user, chans) == JobsFor(key, user, chans)
  {
    forall c | c in chans ensures JobKey(key, user, c) !in db.jobs { FreshHasNoJobs(db, gone, user, key, c); }
    AllQueued(db.jobs, key, user, chans);
  }

  lemma LogStaysDistinct(log: seq<JobKey>, queued: seq<JobKey>)
    requires Pairwise(Differ, log) && Pairwise(Differ, queued)
    requires forall k :: k in queued ==> k !in log
    ensures Pairwise(Differ, log + queued)
  {
    var all := log + queued;
    forall i, j | 0 <= i < j < |all| ensures Differ(all[i], all[j]) {
      if i < |log| <= j {
        assert all[j] == queued[j - |log|];
        assert all[i] in log;
      }
    }
  }

  lemma MatchesAndJobsAgree(matches: seq<Match>, log: seq<JobKey>, gone: set<CarId>, m: Match, queued: seq<JobKey>)
    requires forall k :: k in log ==> k.key.car in gone || HasMatch(matches, k)
    requires forall n :: n in matches && n.notified ==> HasJob(log, n)
    requires forall k :: k in queued ==> k == JobKey(m.key, m.user, k.channel)
    requires m.notified <==> queued != []
    ensures forall k :: k in log + queued ==> k.key.car in gone || HasMatch(matches + [m], k)
    ensures forall n :: n in matches + [m] && n.notified ==> HasJob(log + queued, n)
  {
    forall k | k in log + queued ensures k.key.car in gone || HasMatch(matches + [m], k) {
      if k in queued {
        assert m in matches + [m];
      } else if k.key.car !in gone {
        var n :| n in matches && n.user == k.user && n.key == k.key && n.notified;
        assert n in matches + [m];
      }
    }
    forall n | n in matches + [m] && n.notified ensures HasJob(log + queued, n) {
      if n in matches {
        var c :| JobKey(n.key, n.user, c) in log;
        assert JobKey(n.key, n.user, c) in log + queued;
      } else {
        assert queued[0] in log + queued && queued[0] == JobKey(m.key, m.user, queued[0].channel);
      }
    }
  }

  lemma RecordKeepsInv(db: Db, gone: set<CarId>, now: int, user: UserId, key: EventKey, search: int, chans: seq<Channel>)
    requires Inv(db, gone) && Fresh(db, user, key) && key.car !in gone
    requires forall i, j :: 0 <= i < j < |chans| ==> chans[i] != chans[j]
    ensures Inv(Record(db, now, user, key, search, chans), gone)
  {
    var queued := JobsFor(key, user, chans);
    var m := Match(user, key, search, now, queued != []);
    QueuedForFresh(db, gone, user, key, chans);
    forall k | k in queued ensures k !in db.log { FreshHasNoJobs(db, gone, user, key, k.channel); }
    PairwiseAppend(Apart, db.matches, m);
    LogStaysDistinct(db.log, queued);
    MatchesAndJobsAgree(db.matches, db.log, gone, m, queued);
  }

  lemma DecidedIsFresh(db: Db, opp: Opportunity, vehicles: Vehicles, now: int, s: Subscriber)
    requires Decide(db, opp, vehicles, now, s).Some?
    ensures var key := Decide(db, opp, vehicles, now, s).value.0;
            Fresh(db, s.user, key) && key.car == opp.car
  {
    var key := Decide(db, opp, vehicles, now, s).value.0;
    forall m | m in db.matches ensures !(m.user == s.user && m.key == key) {
      NoneCounted(MatchOf(s.user, key), db.matches, m);
    }
  }

  lemma ToNotifyIsDistinct(db: Db, now: int, s: Subscriber)
    ensures var c := ToNotify(db, now, s); forall i, j :: 0 <= i < j < |c| ==> c[i] != c[j]
  {
    ChannelsAreDistinct(s);
  }

  lemma EvaluateUserKeepsInv(db: Db, gone: set<CarId>, opp: Opportunity, vehicles: Vehicles, now: int, s: Subscriber)
    requires Inv(db, gone) && opp.car !in gone
    ensures Inv(EvaluateUser(db, opp, vehicles, now, s), gone)
  {
    var d := Decide(db, opp, vehicles, now, s);
    if d.Some? {
      DecidedIsFresh(db, opp, vehicles, now, s);
      ToNotifyIsDistinct(db, now, s);
      RecordKeepsInv(db, gone, now, s.user, d.value.0, d.value.1.id, ToNotify(db, now, s));
    }
  }

  lemma {:induction false} EvaluateAllKeepsInv(db: Db, gone: set<CarId>, opp: Opportunity, vehicles: Vehicles, now: int,
                                               subs: seq<Subscriber>)
    requires Inv(db, gone) && opp.car !in gone
    ensures Inv(EvaluateAll(db, opp, vehicles, now, subs), gone)
  {
    if subs != [] {
      var init := subs[..|subs| - 1];
      EvaluateAllKeepsInv(db, gone, opp, vehicles, now, init);
      EvaluateUserKeepsInv(EvaluateAll(db, opp, vehicles, now, init), gone, opp, vehicles, now, subs[|subs| - 1]);
    }
  }

  lemma ForgetKeepsInv(db: Db, gone: set<CarId>, car: CarId, unfinished: set<JobKey>)
    requires Inv(db, gone)
    ensures Inv(ForgetDb(db, car, unfinished), gone + {car})
  {
    var left := Filter(Elsewhere(car), db.matches);
    PairwiseFilter(Apart, Elsewhere(car), db.matches);
    forall m | m in left ensures m.key.car !in gone + {car} { FilterMembers(Elsewhere(car), db.matches, m); }
    forall k | k in db.log ensures k.key.car in gone + {car} || HasMatch(left, k) {
      if k.key.car !in gone && k.key.car != car {
        var m :| m in db.matches && m.user == k.user && m.key == k.key && m.notified;
        FilterMembers(Elsewhere(car), db.matches, m);
      }
    }
    forall m | m in left && m.notified ensures HasJob(db.log, m) { FilterMembers(Elsewhere(car), db.matches, m); }
  }

  lemma {:induction false} NoReturnKeepsInv(run: seq<Action>, vehicles: Vehicles)
    requires IsRun(run, vehicles) && NoReturn(run, vehicles)
    ensures Inv(After(run, vehicles).db, After(run, vehicles).gone)
  {
    if run != [] {
      var w := After(run[..|run| - 1], vehicles);
      NoReturnKeepsInv(run[..|run| - 1], vehicles);
      match run[|run| - 1] {
        case Evaluate(opp, now, subs) => EvaluateAllKeepsInv(w.db, w.gone, opp, vehicles, now, subs);
        case Prune(keys) =>
        case Forget(car, unfinished) => ForgetKeepsInv(w.db, w.gone, car, unfinished);
      }
    }
  }

  // ---------- the promises --------------------------------------------------------------

  /** One match for a user and event, notified exactly when a job was queued
      for it, and no job ever created twice. */
  ghost predicate Promises(db: Db) {
    && Pairwise(Apart, db.matches) && Pairwise(Differ, db.log) && (forall k :: k in db.jobs ==> k in db.log)
    && forall m :: m in db.matches ==> (m.notified <==> HasJob(db.log, m))
  }

  lemma SameMatch(matches: seq<Match>, m: Match, n: Match)
    requires Pairwise(Apart, matches) && m in matches && n in matches && m.user == n.user && m.key == n.key
    ensures m == n
  {
    var i :| 0 <= i < |matches| && matches[i] == m;
    var j :| 0 <= j < |matches| && matches[j] == n;
    var lo, hi := if i < j then i else j, if i < j then j else i;
    assert lo < hi ==> Apart(matches[lo], matches[hi]);
  }

  lemma InvGivesPromises(db: Db, gone: set<CarId>)
    requires Inv(db, gone)
    ensures Promises(db)
  {
    forall m | m in db.matches && HasJob(db.log, m) ensures m.notified {
      var c :| JobKey(m.key, m.user, c) in db.log;
      var n :| n in db.matches && n.user == m.user && n.key == m.key && n.notified;
      SameMatch(db.matches, m, n);
    }
  }

  /** In every run that evaluates no withdrawn car again, the promises hold,
      however many jobs were pruned in between. */
  lemma PromisesHoldWithoutReturns(run: seq<Action>, vehicles: Vehicles)
    requires IsRun(run, vehicles) && NoReturn(run, vehicles)
    ensures Promises(After(run, vehicles).db)
  {
    NoReturnKeepsInv(run, vehicles);
    InvGivesPromises(After(run, vehicles).db, After(run, vehicles).gone);
  }

  /** A message was queued for a match that is no longer there. */
  ghost predicate Stale(db: Db, k: JobKey) {
    k in db.log && forall m :: m in db.matches ==> !(m.user == k.user && m.key == k.key)
  }

  ghost predicate NothingStale(db: Db) {
    forall k :: k in db.log ==> !Stale(db, k)
  }

  lemma NothingStaleIsInv(db: Db)
    requires Promises(db) && NothingStale(db)
    ensures Inv(db, {})
  {
    forall k | k in db.log ensures HasMatch(db.matches, k) {
      assert !Stale(db, k);
      var m :| m in db.matches && m.user == k.user && m.key == k.key;
      assert JobKey(m.key, m.user, k.channel) in db.log;
    }
  }

  /** A user with nothing but that channel, whose one search takes anything. */
  function Reached(user: UserId, c: Channel, cap: int): Subscriber {
    Subscriber(user, Limits(cap, true, 1, 1, true), [Search(7, true, true)], c == Ntfy, c == Webhook, c == Sms, 0)
  }

  function Sighting(key: EventKey, vehicles: Vehicles): Opportunity {
    Opportunity(key.car, if key.NewCar? then None else Some(key.price), vehicles(key.car))
  }

  lemma {:induction false} CountNone<T>(p: T -> bool, s: seq<T>)
    requires forall x :: x in s ==> !p(x)
    ensures Count(p, s) == 0
  {
    if s != [] { CountNone(p, s[1..]); }
  }

  /** What one evaluation for such a user adds, when the event is new to them,
      no other posting of the car was matched lately and the cap is not used up. */
  lemma OneAlert(db: Db, key: EventKey, vehicles: Vehicles, at: int, user: UserId, c: Channel, cap: int)
    requires Fresh(db, user, key) && cap > 0
    requires !CrossPosted(db, Sighting(key, vehicles), vehicles, at, user, key)
    requires Count(SentSince(user, DayStart(at)), db.matches) < cap
    ensures var k := JobKey(key, user, c);
            var queued := if k in db.jobs then [] else [k];
            EvaluateAll(db, Sighting(key, vehicles), vehicles, at, [Reached(user, c, cap)])
            == Db(db.matches + [Match(user, key, 7, at, queued != [])], db.jobs + {k}, db.log + queued)
  {
    var s, opp, k := Reached(user, c, cap), Sighting(key, vehicles), JobKey(key, user, c);
    assert [s][..0] == [] && Active(s) == [Search(7, true, true)] && Channels(s) == [c] && [c][1..] == [];
    CountNone(MatchOf(user, key), db.matches);
    assert FirstHit(Active(s), key) == Some(Search(7, true, true));
    assert Decide(db, opp, vehicles, at, s) == Some((key, Search(7, true, true)));
    assert ToNotify(db, at, s) == [c];
    var queued := if k in db.jobs then [] else [k];
    assert Queued(db.jobs, key, user, [c]) == queued;
    assert db.jobs + (set x | x in queued) == db.jobs + {k};
  }

  lemma {:induction false} Bound(ms: seq<Match>) returns (b: int)
    ensures forall m :: m in ms ==> m.created <= b
  {
    if ms == [] {
      b := 0;
    } else {
      var rest := Bound(ms[1..]);
      b := if rest >= ms[0].created then rest else ms[0].created;
    }
  }

  /** At any moment, if the day's cap is not used up and, for a new car, no
      other posting of it was matched lately. */
  lemma StaleBreaksPromises(db: Db, k: JobKey, vehicles: Vehicles, at: int, cap: int)
    requires Stale(db, k) && Count(SentSince(k.user, DayStart(at)), db.matches) < cap
    requires !CrossPosted(db, Sighting(k.key, vehicles), vehicles, at, k.user, k.key)
    ensures !Promises(EvaluateAll(db, Sighting(k.key, vehicles), vehicles, at, [Reached(k.user, k.channel, cap)]))
  {
    var to := EvaluateAll(db, Sighting(k.key, vehicles), vehicles, at, [Reached(k.user, k.channel, cap)]);
    OneAlert(db, k.key, vehicles, at, k.user, k.channel, cap);
    var i :| 0 <= i < |db.log| && db.log[i] == k;
    if k in db.jobs {
      var m := Match(k.user, k.key, 7, at, false);
      assert m in to.matches && JobKey(m.key, m.user, k.channel) in to.log;
    } else {
      assert to.log[i] == to.log[|db.log|] && !Differ(to.log[i], to.log[|db.log|]);
    }
  }

  /** The exact condition: whatever is evaluated next keeps the promises if
      and only if no message was queued for a match that is gone. Otherwise
      the car's return queues a job a second time, if it was deleted, or leaves
      a match un-notified whose job is there. */
  lemma ReturnsAreHarmlessExactlyWhenNothingIsStale(db: Db, vehicles: Vehicles, now: int)
    requires Promises(db)
    ensures (forall opp: Opportunity, at: int, subs: seq<Subscriber> ::
               at >= now && opp.vehicle == vehicles(opp.car) ==> Promises(EvaluateAll(db, opp, vehicles, at, subs)))
            <==> NothingStale(db)
  {
    if NothingStale(db) {
      NothingStaleIsInv(db);
      forall opp: Opportunity, at: int, subs: seq<Subscriber> | at >= now && opp.vehicle == vehicles(opp.car)
        ensures Promises(EvaluateAll(db, opp, vehicles, at, subs))
      {
        EvaluateAllKeepsInv(db, {}, opp, vehicles, at, subs);
        InvGivesPromises(EvaluateAll(db, opp, vehicles, at, subs), {});
      }
    } else {
      var k :| k in db.log && Stale(db, k);
      var b := Bound(db.matches);
      var at := (if b >= now then b else now) + CROSS_POST_WINDOW + DAY;
      CountNone(SentSince(k.user, DayStart(at)), db.matches);
      CountNone(SameVehicle(k.user, Sighting(k.key, vehicles), vehicles, at), db.matches);
      StaleBreaksPromises(db, k, vehicles, at, 1);
      assert Sighting(k.key, vehicles).vehicle == vehicles(Sighting(k.key, vehicles).car);
    }
  }

  /** It takes no time: any car, new or cheaper, withdrawn after its alert and
      evaluated once more at the same moment, its job deleted or not. */
  lemma AReturnBreaksPromisesAtOnce(key: EventKey, vehicles: Vehicles, user: UserId, c: Channel, now: nat,
                                    unfinished: set<JobKey>) returns (run: seq<Action>)
    ensures IsRun(run, vehicles) && After(run, vehicles).now == now && !Promises(After(run, vehicles).db)
    ensures |run| == 3 && run[1] == Forget(key.car, unfinished)
  {
    var look, m := Evaluate(Sighting(key, vehicles), now, [Reached(user, c, 1)]), Match(user, key, 7, now, true);
    var k := JobKey(key, user, c);
    AfterAppend([], look, vehicles);
    var one := [] + [look];
    OneAlert(START.db, key, vehicles, now, user, c, 1);
    AfterAppend(one, Forget(key.car, unfinished), vehicles);
    var two := one + [Forget(key.car, unfinished)];
    var db := After(two, vehicles).db;
    assert db.matches == [] by { assert [m][1..] == []; assert Filter(Elsewhere(key.car), [m]) == []; }
    assert db.log == [k] && k in db.log;
    StaleBreaksPromises(db, k, vehicles, now, 1);
    AfterAppend(two, look, vehicles);
    run := two + [look];
  }

  /** What the caller is told agrees with the row: every channel offered was
      queued, because the jobs of a new match cannot exist yet. */
  lemma ReportedIsStored(run: seq<Action>, vehicles: Vehicles, opp: Opportunity, now: int, s: Subscriber)
    requires IsRun(run, vehicles) && NoReturn(run, vehicles) && opp.car !in After(run, vehicles).gone
    requires Decide(After(run, vehicles).db, opp, vehicles, now, s).Some?
    ensures var db := After(run, vehicles).db;
            var to := EvaluateUser(db, opp, vehicles, now, s);
            && to.matches != []
            && (to.matches[|to.matches| - 1].notified <==> ToNotify(db, now, s) != [])
            && |to.log| == |db.log| + |ToNotify(db, now, s)|
  {
    var w := After(run, vehicles);
    NoReturnKeepsInv(run, vehicles);
    DecidedIsFresh(w.db, opp, vehicles, now, s);
    ToNotifyIsDistinct(w.db, now, s);
    QueuedForFresh(w.db, w.gone, s.user, Decide(w.db, opp, vehicles, now, s).value.0, ToNotify(w.db, now, s));
  }

  // ---------- what holds in every run, returns or not --------------------------------------

  ghost predicate Base(db: Db) {
    && Pairwise(Apart, db.matches) && (forall k :: k in db.jobs ==> k in db.log)
    && forall m :: m in db.matches && m.notified ==> HasJob(db.log, m)
  }

  lemma {:induction false} QueuedAreNew(jobs: set<JobKey>, key: EventKey, user: UserId, chans: seq<Channel>)
    ensures forall k :: k in Queued(jobs, key, user, chans) ==> k == JobKey(key, user, k.channel)
    decreases |chans|
  {
    if chans != [] {
      QueuedAreNew(jobs, key, user, chans[1..]);
      QueuedAreNew(jobs + {JobKey(key, user, chans[0])}, key, user, chans[1..]);
    }
  }

  lemma RecordKeepsBase(db: Db, now: int, user: UserId, key: EventKey, search: int, chans: seq<Channel>)
    requires Base(db) && Fresh(db, user, key)
    ensures Base(Record(db, now, user, key, search, chans))
  {
    var queued := Queued(db.jobs, key, user, chans);
    var m, to := Match(user, key, search, now, queued != []), Record(db, now, user, key, search, chans);
    QueuedAreNew(db.jobs, key, user, chans);
    PairwiseAppend(Apart, db.matches, m);
    forall n | n in to.matches && n.notified ensures HasJob(to.log, n) {
      if n in db.matches {
        var c :| JobKey(n.key, n.user, c) in db.log;
        assert JobKey(n.key, n.user, c) in to.log;
      } else {
        assert queued[0] in to.log && queued[0] == JobKey(n.key, n.user, queued[0].channel);
      }
    }
  }

  lemma {:induction false} EvaluateAllKeepsBase(db: Db, opp: Opportunity, vehicles: Vehicles, now: int, subs: seq<Subscriber>)
    requires Base(db)
    ensures Base(EvaluateAll(db, opp, vehicles, now, subs))
  {
    if subs != [] {
      var mid, s := EvaluateAll(db, opp, vehicles, now, subs[..|subs| - 1]), subs[|subs| - 1];
      EvaluateAllKeepsBase(db, opp, vehicles, now, subs[..|subs| - 1]);
      var d := Decide(mid, opp, vehicles, now, s);
      if d.Some? {
        DecidedIsFresh(mid, opp, vehicles, now, s);
        RecordKeepsBase(mid, now, s.user, d.value.0, d.value.1.id, ToNotify(mid, now, s));
      }
    }
  }

  lemma ForgetKeepsBase(db: Db, car: CarId, unfinished: set<JobKey>)
    requires Base(db)
    ensures Base(ForgetDb(db, car, unfinished))
  {
    PairwiseFilter(Apart, Elsewhere(car), db.matches);
    forall m | m in Filter(Elsewhere(car), db.matches) && m.notified ensures HasJob(db.log, m) {
      FilterMembers(Elsewhere(car), db.matches, m);
    }
  }

  /** In every run: one match for a user and event, and no match is notified
      without a job having been queued for it. */
  lemma {:induction false} EveryRunKeepsBase(run: seq<Action>, vehicles: Vehicles)
    requires IsRun(run, vehicles)
    ensures Base(After(run, vehicles).db)
  {
    if run != [] {
      var w := After(run[..|run| - 1], vehicles);
      EveryRunKeepsBase(run[..|run| - 1], vehicles);
      match run[|run| - 1] {
        case Evaluate(opp, now, subs) => EvaluateAllKeepsBase(w.db, opp, vehicles, now, subs);
        case Prune(keys) =>
        case Forget(car, unfinished) => ForgetKeepsBase(w.db, car, unfinished);
      }
    }
  }

  // ---------- the daily cap -----------------------------------------------------------------

  function SentOn(user: UserId, day: int): Match -> bool {
    (m: Match) => m.user == user && m.notified && m.created / DAY == day
  }

  ghost predicate Capped(matches: seq<Match>, user: UserId, cap: nat) {
    forall day :: Count(SentOn(user, day), matches) <= cap
  }

  /** In this run the user's plan never allows more than `cap` alerts a day. */
  ghost predicate PlanCaps(subs: seq<Subscriber>, user: UserId, cap: nat) {
    forall s :: s in subs && s.user == user ==> s.limits.alertsPerDay <= cap
  }

  lemma UserStaysCapped(db: Db, opp: Opportunity, vehicles: Vehicles, now: int, s: Subscriber, user: UserId, cap: nat)
    requires Capped(db.matches, user, cap) && (s.user == user ==> s.limits.alertsPerDay <= cap)
    ensures Capped(EvaluateUser(db, opp, vehicles, now, s).matches, user, cap)
  {
    var to := EvaluateUser(db, opp, vehicles, now, s);
    var d := Decide(db, opp, vehicles, now, s);
    if d.Some? {
      var chans := ToNotify(db, now, s);
      var m := Match(s.user, d.value.0, d.value.1.id, now, Queued(db.jobs, d.value.0, s.user, chans) != []);
      assert to.matches == db.matches + [m];
      forall day ensures Count(SentOn(user, day), to.matches) <= cap {
        CountAppend(SentOn(user, day), db.matches, m);
        if SentOn(user, day)(m) {
          SentTodayIsCounted(db.matches, user, now);
          assert chans != [];
        }
      }
    }
  }

  lemma SentTodayIsCounted(matches: seq<Match>, user: UserId, now: int)
    ensures Count(SentOn(user, now / DAY), matches) <= Count(SentSince(user, DayStart(now)), matches)
  {
    CountImplies(SentOn(user, now / DAY), SentSince(user, DayStart(now)), matches);
  }

  lemma {:induction false} AllStayCapped(db: Db, opp: Opportunity, vehicles: Vehicles, now: int, subs: seq<Subscriber>,
                                         user: UserId, cap: nat)
    requires Capped(db.matches, user, cap) && PlanCaps(subs, user, cap)
    ensures Capped(EvaluateAll(db, opp, vehicles, now, subs).matches, user, cap)
  {
    if subs != [] {
      var init := subs[..|subs| - 1];
      assert forall s :: s in init ==> s in subs;
      AllStayCapped(db, opp, vehicles, now, init, user, cap);
      UserStaysCapped(EvaluateAll(db, opp, vehicles, now, init), opp, vehicles, now, subs[|subs| - 1], user, cap);
    }
  }

  ghost predicate AlwaysCaps(run: seq<Action>, user: UserId, cap: nat) {
    forall a :: a in run && a.Evaluate? ==> PlanCaps(a.subs, user, cap)
  }

  /** A user whose plan allows at most `cap` alerts a day has at most `cap`
      notified matches on every UTC day. */
  lemma {:induction false} DailyCapHolds(run: seq<Action>, vehicles: Vehicles, user: UserId, cap: nat)
    requires IsRun(run, vehicles) && AlwaysCaps(run, user, cap)
    ensures Capped(After(run, vehicles).db.matches, user, cap)
  {
    if run != [] {
      var init, last := run[..|run| - 1], run[|run| - 1];
      var w := After(init, vehicles);
      assert forall a :: a in init ==> a in run;
      DailyCapHolds(init, vehicles, user, cap);
      match last {
        case Evaluate(opp, now, subs) => AllStayCapped(w.db, opp, vehicles, now, subs, user, cap);
        case Prune(keys) =>
        case Forget(car, unfinished) =>
          forall day ensures Count(SentOn(user, day), After(run, vehicles).db.matches) <= cap {
            CountOfFilter(SentOn(user, day), Elsewhere(car), w.db.matches);
          }
      }
    }
  }

  // ---------- messages, which outlive their rows ----------------------------------------------

  lemma {:induction false} CountJoin<T>(p: T -> bool, a: seq<T>, b: seq<T>)
    ensures Count(p, a + b) == Count(p, a) + Count(p, b)
  {
    if a == [] {
      assert a + b == b;
    } else {
      assert (a + b)[1..] == a[1..] + b;
      CountJoin(p, a[1..], b);
    }
  }

  lemma {:induction false} CountSplit(p: Match -> bool, car: CarId, s: seq<Match>)
    ensures Count(p, s) == Count(p, Filter(Elsewhere(car), s)) + Count(p, Filter(OfCar(car), s))
  {
    if s != [] {
      CountSplit(p, car, s[1..]);
      CountJoin(p, if Elsewhere(car)(s[0]) then [s[0]] else [], Filter(Elsewhere(car), s[1..]));
      CountJoin(p, if OfCar(car)(s[0]) then [s[0]] else [], Filter(OfCar(car), s[1..]));
      assert [s[0]][1..] == [];
    }
  }

  lemma {:induction false} EvaluateAllAppends(db: Db, opp: Opportunity, vehicles: Vehicles, now: int, subs: seq<Subscriber>)
    ensures var to := EvaluateAll(db, opp, vehicles, now, subs);
            && to.matches == db.matches + Since(db.matches, to.matches)
            && (forall m :: m in Since(db.matches, to.matches) ==> m.created == now)
  {
    if subs == [] {
      assert Since(db.matches, db.matches) == [];
    } else {
      var mid := EvaluateAll(db, opp, vehicles, now, subs[..|subs| - 1]);
      var to := EvaluateAll(db, opp, vehicles, now, subs);
      EvaluateAllAppends(db, opp, vehicles, now, subs[..|subs| - 1]);
      if to != mid {
        var m := to.matches[|to.matches| - 1];
        assert to.matches == mid.matches + [m] && m.created == now;
        assert Since(db.matches, to.matches) == Since(db.matches, mid.matches) + [m];
      }
    }
  }

  /** Every message of a day is a counted row or was withdrawn. */
  lemma {:induction false} MessagesAreRowsOrWithdrawn(run: seq<Action>, vehicles: Vehicles, user: UserId, day: int)
    requires IsRun(run, vehicles)
    ensures var w, sent := After(run, vehicles), SentOn(user, day);
            Count(sent, w.made) == Count(sent, w.db.matches) + Count(sent, w.withdrawn)
  {
    if run != [] {
      var w, to, sent := After(run[..|run| - 1], vehicles), After(run, vehicles), SentOn(user, day);
      MessagesAreRowsOrWithdrawn(run[..|run| - 1], vehicles, user, day);
      match run[|run| - 1] {
        case Evaluate(opp, now, subs) =>
          EvaluateAllAppends(w.db, opp, vehicles, now, subs);
          CountJoin(sent, w.db.matches, Since(w.db.matches, to.db.matches));
          CountJoin(sent, w.made, Since(w.db.matches, to.db.matches));
        case Prune(keys) =>
        case Forget(car, unfinished) =>
          CountSplit(sent, car, w.db.matches);
          CountJoin(sent, w.withdrawn, Filter(OfCar(car), w.db.matches));
      }
    }
  }

  lemma {:induction false} RowsAreNotLater(run: seq<Action>, vehicles: Vehicles)
    requires IsRun(run, vehicles)
    ensures forall m :: m in After(run, vehicles).db.matches ==> m.created <= After(run, vehicles).now
  {
    if run != [] {
      var w := After(run[..|run| - 1], vehicles);
      RowsAreNotLater(run[..|run| - 1], vehicles);
      match run[|run| - 1] {
        case Evaluate(opp, now, subs) => EvaluateAllAppends(w.db, opp, vehicles, now, subs);
        case Prune(keys) =>
        case Forget(car, unfinished) =>
          forall m | m in After(run, vehicles).db.matches ensures m.created <= w.now {
            FilterMembers(Elsewhere(car), w.db.matches, m);
          }
      }
    }
  }

  /** The messages a user was sent on a day exceed the cap by no more than what
      was withdrawn of that day; without a withdrawal they keep it. */
  lemma MessagesKeepTheCap(run: seq<Action>, vehicles: Vehicles, user: UserId, cap: nat, day: int)
    requires IsRun(run, vehicles) && AlwaysCaps(run, user, cap)
    ensures var w, sent := After(run, vehicles), SentOn(user, day);
            && Count(sent, w.made) <= cap + Count(sent, w.withdrawn)
            && (Count(sent, w.withdrawn) == 0 ==> Count(sent, w.made) <= cap)
  {
    MessagesAreRowsOrWithdrawn(run, vehicles, user, day);
    DailyCapHolds(run, vehicles, user, cap);
  }

  function Tag(n: nat): CarId {
    seq(n, _ => 'a')
  }

  lemma FreshTag(used: set<CarId>, n: nat) returns (m: nat)
    ensures m >= n && Tag(m) !in used
    decreases |used|
  {
    if Tag(n) !in used {
      m := n;
    } else {
      m := FreshTag(used - {Tag(n)}, n + 1);
      assert |Tag(m)| != |Tag(n)|;
    }
  }

  /** A car nothing is known of. */
  lemma UnknownCar(db: Db) returns (car: CarId)
    ensures (forall m :: m in db.matches ==> m.key.car != car) && (forall k :: k in db.jobs ==> k.key.car != car)
  {
    var used := (set m | m in db.matches :: m.key.car) + (set k | k in db.jobs :: k.key.car);
    var n := FreshTag(used, 0);
    car := Tag(n);
  }

  /** `later` is `run` going on at the same moment, with evaluations only. */
  ghost predicate GoesOn(run: seq<Action>, later: seq<Action>, now: int) {
    && |run| <= |later| && later[..|run|] == run
    && forall i :: |run| <= i < |later| ==> later[i].Evaluate? && later[i].now == now
  }

  lemma OneMoreToday(run: seq<Action>, vehicles: Vehicles, user: UserId, cap: nat) returns (a: Action)
    requires IsRun(run, vehicles) && AlwaysCaps(run, user, cap)
    requires var w := After(run, vehicles); Count(SentOn(user, w.now / DAY), w.db.matches) < cap
    ensures a.Evaluate? && a.now == After(run, vehicles).now
    ensures IsRun(run + [a], vehicles) && AlwaysCaps(run + [a], user, cap)
    ensures SameMoment(run, run + [a], vehicles)
    ensures RowsToday(run + [a], vehicles, user) == RowsToday(run, vehicles, user) + 1
  {
    var w := After(run, vehicles);
    var car := UnknownCar(w.db);
    var key, sent := PriceDrop(car, 0), SentOn(user, w.now / DAY);
    a := Evaluate(Sighting(key, vehicles), w.now, [Reached(user, Ntfy, cap)]);
    AfterAppend(run, a, vehicles);
    RowsAreNotLater(run, vehicles);
    forall m | m in w.db.matches && SentSince(user, DayStart(w.now))(m) ensures sent(m) {
      SameDay(m.created, w.now);
    }
    CountImplies(SentSince(user, DayStart(w.now)), sent, w.db.matches);
    OneAlert(w.db, key, vehicles, w.now, user, Ntfy, cap);
    CountAppend(sent, w.db.matches, Match(user, key, 7, w.now, true));
  }

  lemma SameDay(t: int, now: int)
    requires DayStart(now) <= t <= now
    ensures t / DAY == now / DAY
  {
  }

  function RowsToday(run: seq<Action>, vehicles: Vehicles, user: UserId): nat {
    var w := After(run, vehicles);
    Count(SentOn(user, w.now / DAY), w.db.matches)
  }

  /** The same moment, with nothing withdrawn in between. */
  ghost predicate SameMoment(run: seq<Action>, later: seq<Action>, vehicles: Vehicles) {
    && After(later, vehicles).now == After(run, vehicles).now
    && After(later, vehicles).withdrawn == After(run, vehicles).withdrawn
  }

  lemma GoesOnFromNext(run: seq<Action>, a: Action, later: seq<Action>, now: int)
    requires a.Evaluate? && a.now == now && GoesOn(run + [a], later, now)
    ensures GoesOn(run, later, now)
  {
    var next := run + [a];
    assert later[..|run|] == later[..|next|][..|run|] == run;
    assert later[|run|] == later[..|next|][|run|] == a;
  }

  lemma {:induction false} FillTheDay(run: seq<Action>, vehicles: Vehicles, user: UserId, cap: nat, room: nat)
    returns (later: seq<Action>)
    requires IsRun(run, vehicles) && AlwaysCaps(run, user, cap) && RowsToday(run, vehicles, user) + room == cap
    ensures GoesOn(run, later, After(run, vehicles).now) && IsRun(later, vehicles) && AlwaysCaps(later, user, cap)
    ensures SameMoment(run, later, vehicles) && RowsToday(later, vehicles, user) == cap
    decreases room
  {
    if room == 0 {
      later := run;
    } else {
      var a := OneMoreToday(run, vehicles, user, cap);
      var next := run + [a];
      later := FillTheDay(next, vehicles, user, cap, room - 1);
      GoesOnFromNext(run, a, later, After(run, vehicles).now);
    }
  }

  /** Going on, the user is sent more than the cap that day. */
  ghost predicate Exceeds(run: seq<Action>, later: seq<Action>, vehicles: Vehicles, user: UserId, cap: nat, now: int) {
    && GoesOn(run, later, now) && IsRun(later, vehicles) && AlwaysCaps(later, user, cap)
    && Count(SentOn(user, now / DAY), After(later, vehicles).made) > cap
  }

  lemma {:induction false} EvaluationsWithdrawNothing(run: seq<Action>, later: seq<Action>, vehicles: Vehicles, now: int)
    requires GoesOn(run, later, now)
    ensures After(later, vehicles).withdrawn == After(run, vehicles).withdrawn
    decreases |later|
  {
    if |later| == |run| {
      assert later == run;
    } else {
      var init := later[..|later| - 1];
      assert init[..|run|] == later[..|run|];
      EvaluationsWithdrawNothing(run, init, vehicles, now);
    }
  }

  /** The exact condition: at any moment of any run under the plan's cap, the
      user can be sent more than the cap that day, by evaluations alone, if and
      only if a message of that day has been withdrawn. */
  lemma CapOnMessagesExactlyWithoutWithdrawals(run: seq<Action>, vehicles: Vehicles, user: UserId, cap: nat)
    requires IsRun(run, vehicles) && AlwaysCaps(run, user, cap)
    ensures var w := After(run, vehicles);
            (exists later: seq<Action> :: Exceeds(run, later, vehicles, user, cap, w.now))
            <==> Count(SentOn(user, w.now / DAY), w.withdrawn) > 0
  {
    var w := After(run, vehicles);
    var today := w.now / DAY;
    if Count(SentOn(user, today), w.withdrawn) > 0 {
      DailyCapHolds(run, vehicles, user, cap);
      var later := FillTheDay(run, vehicles, user, cap, cap - RowsToday(run, vehicles, user));
      MessagesAreRowsOrWithdrawn(later, vehicles, user, today);
      assert Exceeds(run, later, vehicles, user, cap, w.now);
    } else {
      forall later: seq<Action> ensures !Exceeds(run, later, vehicles, user, cap, w.now) {
        if GoesOn(run, later, w.now) && IsRun(later, vehicles) && AlwaysCaps(later, user, cap) {
          EvaluationsWithdrawNothing(run, later, vehicles, w.now);
          MessagesKeepTheCap(later, vehicles, user, cap, today);
        }
      }
    }
  }

  /** Such a moment exists: one alert, then its listing is withdrawn, with its
      job still waiting or already done. The message stays, and its key is
      stale. */
  lemma AlertedThenWithdrawn(vehicles: Vehicles, unfinished: set<JobKey>)
    ensures var key := NewCar("a");
            var run := [Evaluate(Sighting(key, vehicles), 0, [Reached(1, Ntfy, 1)]), Forget("a", unfinished)];
            var w := After(run, vehicles);
            && IsRun(run, vehicles) && NoReturn(run, vehicles) && AlwaysCaps(run, 1, 1)
            && Count(SentOn(1, 0), w.withdrawn) == 1
            && Stale(w.db, JobKey(key, 1, Ntfy)) && (JobKey(key, 1, Ntfy) in w.db.jobs <==> JobKey(key, 1, Ntfy) !in unfinished)
  {
    var key := NewCar("a");
    var first, m := Evaluate(Sighting(key, vehicles), 0, [Reached(1, Ntfy, 1)]), Match(1, key, 7, 0, true);
    var run := [first, Forget("a", unfinished)];
    AfterAppend([], first, vehicles);
    AfterAppend([first], Forget("a", unfinished), vehicles);
    assert [] + [first] == [first] && [first] + [Forget("a", unfinished)] == run && run[..1] == [first] && [first][..0] == [];
    OneAlert(START.db, key, vehicles, 0, 1, Ntfy, 1);
    assert Filter(Elsewhere("a"), [m]) == [] && Filter(OfCar("a"), [m]) == [m] + [] by { assert [m][1..] == []; }
    assert [] + ([m] + []) == [m] && [m][1..] == [];
  }

  // ---------- one match a car --------------------------------------------------------------

  ghost predicate OnlyNew(matches: seq<Match>, user: UserId) {
    forall m :: m in matches && m.user == user ==> m.key.NewCar?
  }

  lemma {:induction false} AllStayNew(db: Db, opp: Opportunity, vehicles: Vehicles, now: int, subs: seq<Subscriber>, user: UserId)
    requires OnlyNew(db.matches, user) && forall s :: s in subs && s.user == user ==> !s.limits.priceDrops
    ensures OnlyNew(EvaluateAll(db, opp, vehicles, now, subs).matches, user)
  {
    if subs != [] {
      assert forall s :: s in subs[..|subs| - 1] ==> s in subs;
      AllStayNew(db, opp, vehicles, now, subs[..|subs| - 1], user);
    }
  }

  /** Price-drop alerts are never in the user's plan during this run. */
  ghost predicate NeverDrops(run: seq<Action>, user: UserId) {
    forall a :: a in run && a.Evaluate? ==> forall s :: s in a.subs && s.user == user ==> !s.limits.priceDrops
  }

  lemma {:induction false} OnlyNewMatches(run: seq<Action>, vehicles: Vehicles, user: UserId)
    requires IsRun(run, vehicles) && NeverDrops(run, user)
    ensures OnlyNew(After(run, vehicles).db.matches, user)
  {
    if run != [] {
      var init, w := run[..|run| - 1], After(run[..|run| - 1], vehicles);
      assert forall a :: a in init ==> a in run;
      OnlyNewMatches(init, vehicles, user);
      match run[|run| - 1] {
        case Evaluate(opp, now, subs) => AllStayNew(w.db, opp, vehicles, now, subs, user);
        case Prune(keys) =>
        case Forget(car, unfinished) =>
          forall m | m in After(run, vehicles).db.matches && m.user == user ensures m.key.NewCar? {
            FilterMembers(Elsewhere(car), w.db.matches, m);
          }
      }
    }
  }

  /** Without price-drop alerts a user gets at most one match for a car,
      however its price falls. */
  lemma OneMatchPerCar(run: seq<Action>, vehicles: Vehicles, user: UserId, i: nat, j: nat)
    requires IsRun(run, vehicles) && NeverDrops(run, user)
    requires var ms := After(run, vehicles).db.matches;
             i < j < |ms| && ms[i].user == ms[j].user == user
    ensures var ms := After(run, vehicles).db.matches; ms[i].key.car != ms[j].key.car
  {
    var ms := After(run, vehicles).db.matches;
    EveryRunKeepsBase(run, vehicles);
    OnlyNewMatches(run, vehicles, user);
    assert Apart(ms[i], ms[j]) && ms[i] in ms && ms[j] in ms;
  }

  // ---------- cross-posts ------------------------------------------------------------------

  /** `n` is a first match on a car whose other posting was matched as `m`. */
  function Spaced(vehicles: Vehicles): (Match, Match) -> bool {
    (m: Match, n: Match) =>
      m.user == n.user && n.key.NewCar? && m.key.car != n.key.car
      && vehicles(n.key.car) != "" && vehicles(m.key.car) == vehicles(n.key.car)
      ==> n.created - m.created >= CROSS_POST_WINDOW
  }

  lemma UserStaysSpaced(db: Db, opp: Opportunity, vehicles: Vehicles, now: int, s: Subscriber)
    requires Pairwise(Spaced(vehicles), db.matches) && opp.vehicle == vehicles(opp.car)
    ensures Pairwise(Spaced(vehicles), EvaluateUser(db, opp, vehicles, now, s).matches)
  {
    var d := Decide(db, opp, vehicles, now, s);
    if d.Some? {
      var n := Match(s.user, d.value.0, d.value.1.id, now,
                     Queued(db.jobs, d.value.0, s.user, ToNotify(db, now, s)) != []);
      DecidedIsFresh(db, opp, vehicles, now, s);
      forall m | m in db.matches ensures Spaced(vehicles)(m, n) {
        if n.key.NewCar? && opp.vehicle != "" {
          NoneCounted(SameVehicle(s.user, opp, vehicles, now), db.matches, m);
        }
      }
      PairwiseAppend(Spaced(vehicles), db.matches, n);
    }
  }

  lemma {:induction false} AllStaySpaced(db: Db, opp: Opportunity, vehicles: Vehicles, now: int, subs: seq<Subscriber>)
    requires Pairwise(Spaced(vehicles), db.matches) && opp.vehicle == vehicles(opp.car)
    ensures Pairwise(Spaced(vehicles), EvaluateAll(db, opp, vehicles, now, subs).matches)
  {
    if subs != [] {
      var init := subs[..|subs| - 1];
      AllStaySpaced(db, opp, vehicles, now, init);
      UserStaysSpaced(EvaluateAll(db, opp, vehicles, now, init), opp, vehicles, now, subs[|subs| - 1]);
    }
  }

  /** The same car cross-posted on another source makes no second first match
      for fourteen days. */
  lemma {:induction false} CrossPostsAreSpaced(run: seq<Action>, vehicles: Vehicles)
    requires IsRun(run, vehicles)
    ensures Pairwise(Spaced(vehicles), After(run, vehicles).db.matches)
  {
    if run != [] {
      var w := After(run[..|run| - 1], vehicles);
      CrossPostsAreSpaced(run[..|run| - 1], vehicles);
      match run[|run| - 1] {
        case Evaluate(opp, now, subs) => AllStaySpaced(w.db, opp, vehicles, now, subs);
        case Prune(keys) =>
        case Forget(car, unfinished) => PairwiseFilter(Spaced(vehicles), Elsewhere(car), w.db.matches);
      }
    }
  }
}
