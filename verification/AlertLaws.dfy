/** When a subscriber is matched and alerted, from the tables and the
    subscriber alone. */
module AlertLaws {
  import opened Options
  import opened Sequences
  import opened Alerts

  /** What the opportunity is to this subscriber: a new car, a lower price if
      the plan alerts on those, or a lower price of a car they have not had. */
  ghost predicate IsEvent(db: Db, opp: Opportunity, s: Subscriber, key: EventKey) {
    || (opp.drop.None? && key == NewCar(opp.car))
    || (opp.drop.Some? && s.limits.priceDrops && key == PriceDrop(opp.car, opp.drop.value))
    || (opp.drop.Some? && !s.limits.priceDrops && key == NewCar(opp.car)
        && forall m :: m in db.matches ==> !(m.user == s.user && m.key.car == opp.car))
  }

  ghost predicate Takes(s: Subscriber, n: nat, key: EventKey)
    requires n < |s.searches|
  {
    (key.NewCar? && s.searches[n].acceptsNew) || (key.PriceDrop? && s.searches[n].acceptsDrop)
  }

  /** The oldest of the searches the plan allows that takes the event. */
  ghost predicate IsHit(s: Subscriber, key: EventKey, n: nat) {
    n < |s.searches| && n < s.limits.searches && Takes(s, n, key) && forall m: nat :: m < n ==> !Takes(s, m, key)
  }

  /** The same vehicle on another posting, matched in the last fourteen days. */
  ghost predicate SentElsewhere(db: Db, opp: Opportunity, vehicles: Vehicles, now: int, user: UserId) {
    opp.vehicle != "" && exists m :: m in db.matches && m.user == user && m.key.car != opp.car
                                     && vehicles(m.key.car) == opp.vehicle && m.created > now - 14 * 86_400_000_000
  }

  ghost predicate HasMatch(db: Db, user: UserId, key: EventKey) {
    exists m :: m in db.matches && m.user == user && m.key == key
  }

  /** All it takes: a plan with alerts, an event, a search of the plan's oldest
      that takes it, and no such match, nor a cross-post of a new car. */
  ghost predicate ShouldMatch(db: Db, opp: Opportunity, vehicles: Vehicles, now: int, s: Subscriber, key: EventKey, n: nat) {
    && s.limits.alertsPerDay > 0 && IsEvent(db, opp, s, key) && IsHit(s, key, n)
    && !HasMatch(db, s.user, key) && !(key.NewCar? && SentElsewhere(db, opp, vehicles, now, s.user))
  }

  lemma {:induction false} HitIsTheFirst(searches: seq<Search>, key: EventKey, n: nat)
    requires n < |searches| && Accepts(searches[n], key) && forall m: nat :: m < n ==> !Accepts(searches[m], key)
    ensures FirstHit(searches, key) == Some(searches[n])
  {
    if n > 0 {
      assert !Accepts(searches[0], key);
      forall m: nat | m < n - 1 ensures !Accepts(searches[1..][m], key) { assert searches[1..][m] == searches[m + 1]; }
      HitIsTheFirst(searches[1..], key, n - 1);
    }
  }

  lemma {:induction false} FirstHitIsThere(searches: seq<Search>, key: EventKey) returns (n: nat)
    requires FirstHit(searches, key).Some?
    ensures n < |searches| && Accepts(searches[n], key) && forall m: nat :: m < n ==> !Accepts(searches[m], key)
  {
    if Accepts(searches[0], key) {
      n := 0;
    } else {
      var k := FirstHitIsThere(searches[1..], key);
      n := k + 1;
      forall m: nat | m < n ensures !Accepts(searches[m], key) { if m > 0 { assert searches[m] == searches[1..][m - 1]; } }
    }
  }

  lemma AnyCounted<T>(p: T -> bool, s: seq<T>)
    ensures Count(p, s) > 0 <==> exists x :: x in s && p(x)
  {
    CountIsFilterLength(p, s);
    if Count(p, s) > 0 {
      var x := Filter(p, s)[0];
      FilterMembers(p, s, x);
    }
    if x :| x in s && p(x) { FilterMembers(p, s, x); }
  }

  lemma EventIs(db: Db, opp: Opportunity, s: Subscriber, key: EventKey)
    ensures IsEvent(db, opp, s, key) <==> EventFor(db, opp, s) == Some(key)
  {
    AnyCounted(OnCar(s.user, opp.car), db.matches);
  }

  lemma HitIs(s: Subscriber, key: EventKey, n: nat)
    ensures IsHit(s, key, n) ==> FirstHit(Active(s), key) == Some(s.searches[n])
  {
    if IsHit(s, key, n) {
      forall m: nat | m < n ensures !Accepts(Active(s)[m], key) { assert !Takes(s, m, key); }
      assert Active(s)[n] == s.searches[n];
      HitIsTheFirst(Active(s), key, n);
    }
  }

  lemma BlocksAre(db: Db, opp: Opportunity, vehicles: Vehicles, now: int, s: Subscriber, key: EventKey)
    ensures CrossPosted(db, opp, vehicles, now, s.user, key) <==> key.NewCar? && SentElsewhere(db, opp, vehicles, now, s.user)
    ensures Count(MatchOf(s.user, key), db.matches) > 0 <==> HasMatch(db, s.user, key)
  {
    AnyCounted(SameVehicle(s.user, opp, vehicles, now), db.matches);
    AnyCounted(MatchOf(s.user, key), db.matches);
  }

  lemma DecidedWhenItShould(db: Db, opp: Opportunity, vehicles: Vehicles, now: int, s: Subscriber, key: EventKey, n: nat)
    requires ShouldMatch(db, opp, vehicles, now, s, key, n)
    ensures Decide(db, opp, vehicles, now, s) == Some((key, s.searches[n]))
  {
    EventIs(db, opp, s, key);
    HitIs(s, key, n);
    BlocksAre(db, opp, vehicles, now, s, key);
  }

  lemma DecidedOnlyThen(db: Db, opp: Opportunity, vehicles: Vehicles, now: int, s: Subscriber) returns (key: EventKey, n: nat)
    requires Decide(db, opp, vehicles, now, s).Some?
    ensures ShouldMatch(db, opp, vehicles, now, s, key, n)
  {
    key := EventFor(db, opp, s).value;
    EventIs(db, opp, s, key);
    n := FirstHitIsThere(Active(s), key);
    forall m: nat | m < n ensures !Takes(s, m, key) { assert Active(s)[m] == s.searches[m]; }
    BlocksAre(db, opp, vehicles, now, s, key);
  }

  /** A match is made exactly when it should be, for that event and with that
      search; otherwise nothing changes at all. */
  lemma MatchedExactlyWhen(db: Db, opp: Opportunity, vehicles: Vehicles, now: int, s: Subscriber)
    ensures var to := EvaluateUser(db, opp, vehicles, now, s);
            && (|to.matches| == |db.matches| + 1 <==> exists key, n :: ShouldMatch(db, opp, vehicles, now, s, key, n))
            && (|to.matches| != |db.matches| + 1 ==> to == db && Tell(db, opp, vehicles, now, s) == None)
  {
    if Decide(db, opp, vehicles, now, s).Some? {
      var key, n := DecidedOnlyThen(db, opp, vehicles, now, s);
    }
    if key, n :| ShouldMatch(db, opp, vehicles, now, s, key, n) {
      DecidedWhenItShould(db, opp, vehicles, now, s, key, n);
    }
  }

  // ---------- what is sent ------------------------------------------------------------------------------

  /** Alerts of the user's today, by the date of the clock. */
  function Today(user: UserId, now: int): Match -> bool {
    (m: Match) => m.user == user && m.notified && m.created / 86_400_000_000 >= now / 86_400_000_000
  }

  predicate HasRoom(db: Db, now: int, s: Subscriber) {
    Count(Today(s.user, now), db.matches) < s.limits.alertsPerDay
  }

  /** The channels the subscriber set up, those the plan has, and text messages
      while the month's are not used up. */
  predicate OnChannel(s: Subscriber, c: Channel) {
    match c
    case Ntfy => s.ntfy
    case Webhook => s.hook && s.limits.webhook
    case Sms => s.phone && s.smsUsed < s.limits.smsPerMonth && 0 < s.limits.smsPerMonth
  }

  lemma {:induction false} CountSame<T>(p: T -> bool, q: T -> bool, s: seq<T>)
    requires forall x :: x in s ==> p(x) == q(x)
    ensures Count(p, s) == Count(q, s)
  {
    CountImplies(p, q, s);
    CountImplies(q, p, s);
  }

  lemma SinceMidnight(t: int, now: int)
    ensures t >= DayStart(now) <==> t / 86_400_000_000 >= now / 86_400_000_000
  {
  }

  lemma ToNotifyExactly(db: Db, now: int, s: Subscriber, c: Channel)
    ensures c in ToNotify(db, now, s) <==> HasRoom(db, now, s) && OnChannel(s, c)
  {
    forall m | m in db.matches ensures SentSince(s.user, DayStart(now))(m) == Today(s.user, now)(m) {
      SinceMidnight(m.created, now);
    }
    CountSame(SentSince(s.user, DayStart(now)), Today(s.user, now), db.matches);
  }

  lemma {:induction false} QueuedExactly(jobs: set<JobKey>, key: EventKey, user: UserId, chans: seq<Channel>, k: JobKey)
    ensures k in Queued(jobs, key, user, chans) <==> k.key == key && k.user == user && k.channel in chans && k !in jobs
    decreases |chans|
  {
    if chans != [] {
      var first := JobKey(key, user, chans[0]);
      QueuedExactly(jobs, key, user, chans[1..], k);
      QueuedExactly(jobs + {first}, key, user, chans[1..], k);
    }
  }

  /** The row of the match, and one job for each channel that is on and has none
      for this event, while the day has room; it is notified exactly when there
      is such a channel. */
  lemma MatchedAndQueued(db: Db, opp: Opportunity, vehicles: Vehicles, now: int, s: Subscriber, key: EventKey, n: nat)
    requires ShouldMatch(db, opp, vehicles, now, s, key, n)
    ensures var to := EvaluateUser(db, opp, vehicles, now, s);
            && (exists notified :: to.matches == db.matches + [Match(s.user, key, s.searches[n].id, now, notified)]
                                   && (notified <==> exists c :: OnChannel(s, c) && HasRoom(db, now, s)
                                                                 && JobKey(key, s.user, c) !in db.jobs))
            && (forall k :: k in to.jobs <==> k in db.jobs || (k.key == key && k.user == s.user
                                                                && OnChannel(s, k.channel) && HasRoom(db, now, s)))
  {
    DecidedWhenItShould(db, opp, vehicles, now, s, key, n);
    var chans := ToNotify(db, now, s);
    var queued := Queued(db.jobs, key, s.user, chans);
    forall k ensures k in queued <==> k.key == key && k.user == s.user && OnChannel(s, k.channel) && HasRoom(db, now, s) && k !in db.jobs {
      QueuedExactly(db.jobs, key, s.user, chans, k);
      ToNotifyExactly(db, now, s, k.channel);
    }
    if queued != [] {
      assert queued[0] in queued;
    } else {
      forall c | OnChannel(s, c) && HasRoom(db, now, s) ensures JobKey(key, s.user, c) in db.jobs {
        assert JobKey(key, s.user, c) !in queued;
      }
    }
    assert EvaluateUser(db, opp, vehicles, now, s).matches == db.matches + [Match(s.user, key, s.searches[n].id, now, queued != [])];
  }

  /** What is told: whom, for which search and event, and the channels. */
  lemma ToldExactly(db: Db, opp: Opportunity, vehicles: Vehicles, now: int, s: Subscriber, key: EventKey, n: nat)
    requires ShouldMatch(db, opp, vehicles, now, s, key, n)
    ensures var told := Tell(db, opp, vehicles, now, s);
            && told.Some? && told.value.user == s.user && told.value.key == key && told.value.search == s.searches[n].id
            && (forall c :: c in told.value.channels <==> HasRoom(db, now, s) && OnChannel(s, c))
            && (told.value.notified <==> exists c :: HasRoom(db, now, s) && OnChannel(s, c))
  {
    DecidedWhenItShould(db, opp, vehicles, now, s, key, n);
    var chans := ToNotify(db, now, s);
    forall c ensures c in chans <==> HasRoom(db, now, s) && OnChannel(s, c) { ToNotifyExactly(db, now, s, c); }
    if chans != [] { assert chans[0] in chans; }
  }

  lemma OneReportOneRow(db: Db, opp: Opportunity, vehicles: Vehicles, now: int, s: Subscriber)
    ensures var told, to := Tell(db, opp, vehicles, now, s), EvaluateUser(db, opp, vehicles, now, s);
            && (told.None? ==> to.matches == db.matches)
            && (told.Some? ==> exists m :: to.matches == db.matches + [m] && m.created == now && m.user == told.value.user
                                           && m.key == told.value.key && m.search == told.value.search)
  {
    var d := Decide(db, opp, vehicles, now, s);
    if d.Some? {
      var queued := Queued(db.jobs, d.value.0, s.user, ToNotify(db, now, s));
      var m := Match(s.user, d.value.0, d.value.1.id, now, queued != []);
      assert EvaluateUser(db, opp, vehicles, now, s).matches == db.matches + [m];
    }
  }

  ghost predicate Reports(told: seq<Created>, before: seq<Match>, after: seq<Match>, now: int) {
    && |after| == |before| + |told| && after[..|before|] == before
    && forall i :: 0 <= i < |told| ==>
         var m := after[|before| + i];
         m.user == told[i].user && m.key == told[i].key && m.search == told[i].search && m.created == now
  }

  lemma OneMoreReport(told: seq<Created>, before: seq<Match>, after: seq<Match>, now: int, t: Created, m: Match)
    requires Reports(told, before, after, now) && m.created == now
    requires m.user == t.user && m.key == t.key && m.search == t.search
    ensures Reports(told + [t], before, after + [m], now)
  {
  }

  /** One report for each new match, in the order of the rows, with its user,
      event and search. */
  lemma {:induction false} ToldAreTheNewMatches(db: Db, opp: Opportunity, vehicles: Vehicles, now: int, subs: seq<Subscriber>)
    ensures Reports(TellAll(db, opp, vehicles, now, subs), db.matches, EvaluateAll(db, opp, vehicles, now, subs).matches, now)
  {
    if subs != [] {
      var init, last := subs[..|subs| - 1], subs[|subs| - 1];
      var w := EvaluateAll(db, opp, vehicles, now, init);
      ToldAreTheNewMatches(db, opp, vehicles, now, init);
      OneReportOneRow(w, opp, vehicles, now, last);
      var told := Tell(w, opp, vehicles, now, last);
      if told.Some? {
        var m :| EvaluateUser(w, opp, vehicles, now, last).matches == w.matches + [m] && m.created == now
                 && m.user == told.value.user && m.key == told.value.key && m.search == told.value.search;
        OneMoreReport(TellAll(db, opp, vehicles, now, init), db.matches, w.matches, now, told.value, m);
      } else {
        assert TellAll(db, opp, vehicles, now, subs) == TellAll(db, opp, vehicles, now, init);
      }
    }
  }
}
