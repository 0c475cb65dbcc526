/** What two requests of seller_listings.py can undo of each other: a contact
    that changes, and a listing that is removed, between the transactions of a
    request that goes on. */
module SellerRaces {
  import opened Options
  import opened Sequences
  import opened SellerTables
  import opened SellerRuns

  type Guard = (World, Action) -> bool

  /** A run from any state whose every step the guard allows. */
  ghost predicate GuardedReaches(start: World, run: seq<Action>, w: World, ok: Guard)
    decreases |run|
  {
    if run == [] then w == start
    else
      var init, last := run[..|run| - 1], run[|run| - 1];
      exists before :: GuardedReaches(start, init, before, ok) && StepsTo(before, last, w) && ok(before, last)
  }

  lemma OneStep(start: World, a: Action, ok: Guard)
    requires Enabled(start, a) && ok(start, a)
    ensures GuardedReaches(start, [a], Step(start, a), ok)
  {
    assert [a][..0] == [] && GuardedReaches(start, [], start, ok) && StepsTo(start, a, Step(start, a));
  }

  // ---------- confirmed addresses -----------------------------------------------------------------

  predicate Confirms(q: Request, user: UserId) {
    q.Confirming? && q.user == user
  }

  predicate ConfirmationInFlight(w: World, user: UserId) {
    exists r :: r in w.requests && Confirms(w.requests[r], user)
  }

  /** A confirmed address is one a token was made for, letter by letter. */
  predicate AddressWasSent(w: World, user: UserId) {
    IsVerified(w.db, user) ==> (user, w.db.contacts[user].email) in w.issued
  }

  /** The seller's contact does not change under a confirmation in flight. */
  predicate LeavesContact(w: World, a: Action, user: UserId) {
    a.ChangeContact? && a.user == user && SetContact(w.db, user, a.email) != w.db ==> !ConfirmationInFlight(w, user)
  }

  function Steady(user: UserId): Guard {
    (w: World, a: Action) => LeavesContact(w, a, user)
  }

  predicate IsCurrent(w: World, user: UserId, email: string) {
    user in w.db.contacts && w.db.contacts[user].email == email && (user, email) in w.issued
  }

  ghost predicate TokensAreCurrent(w: World, user: UserId) {
    forall t :: t in w.db.tokens && t.user == user && !t.used ==> IsCurrent(w, user, t.email)
  }

  ghost predicate ConfirmationsAreCurrent(w: World, user: UserId) {
    forall r :: r in w.requests && Confirms(w.requests[r], user) ==> IsCurrent(w, user, w.requests[r].email)
  }

  /** Unused tokens and confirmations in flight are for the current address. */
  ghost predicate ContactInv(w: World, user: UserId) {
    TokensAreCurrent(w, user) && ConfirmationsAreCurrent(w, user) && AddressWasSent(w, user)
  }

  lemma MarkedTokens(mark: Token -> Token, tokens: seq<Token>, t: Token) returns (was: Token)
    requires t in Map(mark, tokens)
    ensures was in tokens && t == mark(was)
  {
    var k :| 0 <= k < |tokens| && Map(mark, tokens)[k] == t;
    was := tokens[k];
  }

  lemma SendKeepsContact(w: World, u: UserId, user: UserId, now: int, account: string, secret: string)
    requires ContactInv(w, u)
    ensures ContactInv(SendStep(w, user, now, account, secret), u)
  {
    var to := SendStep(w, user, now, account, secret);
    forall t | t in to.db.tokens && t.user == u && !t.used ensures IsCurrent(to, u, t.email) {
      if t in w.db.tokens { assert IsCurrent(w, u, t.email); }
    }
    forall r | r in to.requests && Confirms(to.requests[r], u) ensures IsCurrent(to, u, to.requests[r].email) {
      assert IsCurrent(w, u, w.requests[r].email);
    }
  }

  lemma BounceKeepsContact(w: World, u: UserId, secret: string)
    requires ContactInv(w, u)
    ensures ContactInv(Step(w, Bounce(secret)), u)
  {
    var to := Step(w, Bounce(secret));
    forall t | t in to.db.tokens && t.user == u && !t.used ensures IsCurrent(to, u, t.email) {
      FilterMembers(OtherSecret(secret), w.db.tokens, t);
      assert IsCurrent(w, u, t.email);
    }
    SameConfirmations(w, to, u);
  }

  /** Requests, contacts and addresses are the same; only tokens differ. */
  lemma SameConfirmations(w: World, to: World, u: UserId)
    requires ConfirmationsAreCurrent(w, u) && to.requests == w.requests
    requires to.issued == w.issued && (u in w.db.contacts ==> u in to.db.contacts && to.db.contacts[u] == w.db.contacts[u])
    ensures ConfirmationsAreCurrent(to, u)
  {
    forall r | r in to.requests && Confirms(to.requests[r], u) ensures IsCurrent(to, u, to.requests[r].email) {
      assert IsCurrent(w, u, w.requests[r].email);
    }
  }

  lemma CheckKeepsContact(w: World, u: UserId, r: RequestId, user: UserId, now: int, account: string, secret: string)
    requires ContactInv(w, u) && r !in w.requests
    ensures ContactInv(CheckStep(w, r, user, now, account, secret), u)
  {
    var to := CheckStep(w, r, user, now, account, secret);
    var email := EmailOf(w.db, user, account);
    if CheckToken(w.db, now, user, account, secret) == Accepted && user == u {
      var t :| t in w.db.tokens && Usable(t, now, user, email, secret);
      assert IsCurrent(w, u, t.email) && t.email == email;
    }
    forall o | o in to.requests && Confirms(to.requests[o], u) ensures IsCurrent(to, u, to.requests[o].email) {
      if o != r { assert IsCurrent(w, u, w.requests[o].email); }
    }
    forall t | t in to.db.tokens && t.user == u && !t.used ensures IsCurrent(to, u, t.email) {
      assert IsCurrent(w, u, t.email);
    }
  }

  lemma ConfirmKeepsContact(w: World, u: UserId, r: RequestId)
    requires ContactInv(w, u) && r in w.requests && w.requests[r].Confirming?
    ensures ContactInv(Step(w, Confirm(r)), u)
  {
    var p, to := w.requests[r], Step(w, Confirm(r));
    forall t | t in to.db.tokens && t.user == u && !t.used ensures IsCurrent(to, u, t.email) {
      var was := MarkedTokens(Consume(p.secret), w.db.tokens, t);
      assert IsCurrent(w, u, was.email);
    }
    forall o | o in to.requests && Confirms(to.requests[o], u) ensures IsCurrent(to, u, to.requests[o].email) {
      assert o != r && IsCurrent(w, u, w.requests[o].email);
    }
    if p.user == u { assert IsCurrent(w, u, p.email); }
  }

  lemma ChangeKeepsContact(w: World, u: UserId, user: UserId, email: string)
    requires ContactInv(w, u) && LeavesContact(w, ChangeContact(user, email), u)
    ensures ContactInv(Step(w, ChangeContact(user, email)), u)
  {
    var to := Step(w, ChangeContact(user, email));
    if to.db != w.db {
      forall t | t in to.db.tokens && t.user == u && !t.used ensures IsCurrent(to, u, t.email) {
        var was := MarkedTokens(Revoke(user), w.db.tokens, t);
        assert IsCurrent(w, u, was.email);
      }
      forall r | r in to.requests && Confirms(to.requests[r], u) ensures IsCurrent(to, u, to.requests[r].email) {
        assert IsCurrent(w, u, w.requests[r].email);
      }
    }
  }

  /** The step touches no contact, no token and no confirmation of the seller. */
  lemma OthersKeepContact(w: World, to: World, u: UserId)
    requires ContactInv(w, u)
    requires to.db.contacts == w.db.contacts && to.db.tokens == w.db.tokens && to.issued == w.issued
    requires forall r :: r in to.requests && Confirms(to.requests[r], u) ==> r in w.requests && to.requests[r] == w.requests[r]
    ensures ContactInv(to, u)
  {
    forall t | t in to.db.tokens && t.user == u && !t.used ensures IsCurrent(to, u, t.email) {
      assert IsCurrent(w, u, t.email);
    }
    forall r | r in to.requests && Confirms(to.requests[r], u) ensures IsCurrent(to, u, to.requests[r].email) {
      assert IsCurrent(w, u, w.requests[r].email);
    }
  }

  lemma StepKeepsContact(w: World, a: Action, u: UserId)
    requires ContactInv(w, u) && Enabled(w, a) && LeavesContact(w, a, u)
    ensures ContactInv(Step(w, a), u)
  {
    match a {
      case Send(user, now, account, secret) => SendKeepsContact(w, u, user, now, account, secret);
      case Bounce(secret) => BounceKeepsContact(w, u, secret);
      case Check(r, user, now, account, secret) => CheckKeepsContact(w, u, r, user, now, account, secret);
      case Confirm(r) => ConfirmKeepsContact(w, u, r);
      case ChangeContact(user, email) => ChangeKeepsContact(w, u, user, email);
      case _ => OthersKeepContact(w, Step(w, a), u);
    }
  }

  lemma {:induction false} SteadyRunsKeepContact(start: World, run: seq<Action>, w: World, user: UserId)
    requires ContactInv(start, user) && GuardedReaches(start, run, w, Steady(user))
    ensures ContactInv(w, user)
    decreases |run|
  {
    if run != [] {
      var init, last := run[..|run| - 1], run[|run| - 1];
      var before :| GuardedReaches(start, init, before, Steady(user)) && StepsTo(before, last, w) && Steady(user)(before, last);
      SteadyRunsKeepContact(start, init, before, user);
      StepKeepsContact(before, last, user);
    }
  }

  /** In every run that does not change this seller's contact under one of
      their confirmations in flight, whatever other sellers do, the seller's
      confirmed address is one a token was made for. */
  lemma ConfirmedAddressesWereSent(dealers: Approvals, run: seq<Action>, w: World, user: UserId)
    requires GuardedReaches(Start(dealers), run, w, Steady(user))
    ensures AddressWasSent(w, user) && ContactInv(w, user)
  {
    SteadyRunsKeepContact(Start(dealers), run, w, user);
  }

  lemma FreshAddress(used: set<(UserId, string)>, user: UserId, n: nat) returns (email: string)
    ensures (user, email) !in used && |email| >= n
    decreases |used|
  {
    email := seq(n, _ => 'x');
    if (user, email) in used {
      var longer := FreshAddress(used - {(user, email)}, user, n + 1);
      email := longer;
    }
  }

  function LongerThan(w: World, user: UserId): nat {
    if user in w.db.contacts then |w.db.contacts[user].email| + 1 else 0
  }

  /** The change that overtakes a confirmation, and the confirmation. */
  lemma OvertakenConfirmation(w: World, user: UserId, r: RequestId) returns (email: string)
    requires r in w.requests && Confirms(w.requests[r], user)
    ensures var changed := Step(w, ChangeContact(user, email));
            GuardedReaches(changed, [Confirm(r)], Step(changed, Confirm(r)), Steady(user))
            && !AddressWasSent(Step(changed, Confirm(r)), user)
  {
    email := FreshAddress(w.issued, user, LongerThan(w, user));
    if user in w.db.contacts {
      assert |Lower(email)| == |email| && |Lower(w.db.contacts[user].email)| == |w.db.contacts[user].email|;
    }
    var changed := Step(w, ChangeContact(user, email));
    assert changed.db.contacts[user] == Contact(email, false);
    OneStep(changed, Confirm(r), Steady(user));
  }

  ghost predicate EndsUnsent(w: World, user: UserId, email: string, run: seq<Action>, end: World) {
    GuardedReaches(Step(w, ChangeContact(user, email)), run, end, Steady(user)) && !AddressWasSent(end, user)
  }

  /** The condition is exact: a change of the seller's contact can lead to a
      confirmed address no token was made for, through any steps that disturb
      no confirmation further, if and only if a confirmation of the seller is
      in flight. */
  lemma ConfirmationsMustNotBeOvertaken(w: World, user: UserId)
    requires ContactInv(w, user)
    ensures (exists email, run, end :: EndsUnsent(w, user, email, run, end)) <==> ConfirmationInFlight(w, user)
  {
    if ConfirmationInFlight(w, user) {
      var r :| r in w.requests && Confirms(w.requests[r], user);
      var email := OvertakenConfirmation(w, user, r);
      var changed := Step(w, ChangeContact(user, email));
      assert EndsUnsent(w, user, email, [Confirm(r)], Step(changed, Confirm(r)));
    } else {
      forall email, run, end ensures !EndsUnsent(w, user, email, run, end) {
        ChangeKeepsContact(w, user, user, email);
        if GuardedReaches(Step(w, ChangeContact(user, email)), run, end, Steady(user)) {
          SteadyRunsKeepContact(Step(w, ChangeContact(user, email)), run, end, user);
        }
      }
    }
  }

  // ---------- listings shown ---------------------------------------------------------------------------

  /** The request will put the listing on the public table. */
  predicate WillShow(q: Request, id: nat) {
    (q.Ingesting? || q.Repricing?) && q.id == id
  }

  predicate AboutToShow(w: World, id: nat) {
    exists r :: r in w.requests && WillShow(w.requests[r], id)
  }

  predicate IsActive(w: World, id: nat) {
    id < |w.db.listings| && w.db.listings[id].status == Active
  }

  /** The listing is not removed while a request is about to ingest it. */
  predicate LeavesListing(w: World, a: Action, id: nat) {
    a.Remove? && a.id == id && MayRemove(w.db, a.user, a.admin, id) ==> !AboutToShow(w, id)
  }

  function Sparing(id: nat): Guard {
    (w: World, a: Action) => LeavesListing(w, a, id)
  }

  predicate ShownInv(w: World, id: nat) {
    id in w.shown || AboutToShow(w, id) ==> IsActive(w, id)
  }

  /** Requests that are about to show a listing stay, or come with its being
      active. */
  lemma StepKeepsShown(w: World, a: Action, id: nat)
    requires ShownInv(w, id) && Enabled(w, a) && LeavesListing(w, a, id)
    ensures ShownInv(Step(w, a), id)
  {
    var to := Step(w, a);
    if r :| r in to.requests && WillShow(to.requests[r], id) {
      if r in w.requests && WillShow(w.requests[r], id) { assert AboutToShow(w, id); }
    }
    if a.Ingest? || a.Reingest? {
      assert WillShow(w.requests[a.request], w.requests[a.request].id);
      assert w.requests[a.request].id == id ==> AboutToShow(w, id);
    }
  }

  /** In every run that does not remove this listing while a request is about
      to ingest it, whatever happens to others, it is shown only while active. */
  lemma {:induction false} ShownOnlyWhileActive(dealers: Approvals, run: seq<Action>, w: World, id: nat)
    requires GuardedReaches(Start(dealers), run, w, Sparing(id))
    ensures ShownInv(w, id)
    decreases |run|
  {
    if run != [] {
      var init, last := run[..|run| - 1], run[|run| - 1];
      var before :| GuardedReaches(Start(dealers), init, before, Sparing(id)) && StepsTo(before, last, w)
                    && Sparing(id)(before, last);
      ShownOnlyWhileActive(dealers, init, before, id);
      StepKeepsShown(before, last, id);
    }
  }

  /** Removed, not shown, and no request will show it again. */
  predicate GoneForGood(w: World, id: nat) {
    id < |w.db.listings| && w.db.listings[id].status == Gone && id !in w.shown && !AboutToShow(w, id)
  }

  lemma StepKeepsGone(w: World, a: Action, id: nat)
    requires GoneForGood(w, id) && Enabled(w, a)
    ensures GoneForGood(Step(w, a), id)
  {
    var to := Step(w, a);
    forall r | r in to.requests ensures !WillShow(to.requests[r], id) {
      assert r in w.requests ==> !WillShow(w.requests[r], id);
    }
    if a.Ingest? || a.Reingest? { assert !WillShow(w.requests[a.request], id); }
  }

  lemma {:induction false} GoneStaysGone(start: World, run: seq<Action>, w: World, id: nat)
    requires GoneForGood(start, id) && Reaches(start, run, w)
    ensures GoneForGood(w, id)
    decreases |run|
  {
    if run != [] {
      var init, last := run[..|run| - 1], run[|run| - 1];
      var before :| Reaches(start, init, before) && StepsTo(before, last, w);
      GoneStaysGone(start, init, before, id);
      StepKeepsGone(before, last, id);
    }
  }

  ghost predicate ShowsAgain(removed: World, id: nat, run: seq<Action>, end: World) {
    Reaches(removed, run, end) && id in end.shown
  }

  /** The condition is exact, for a seller's removal and an administrator's,
      in any state and whatever happens afterwards: a removed listing can be
      shown again if and only if a request was about to ingest it. */
  lemma RemovalsMustNotOvertakeIngestion(w: World, user: UserId, admin: bool, id: nat)
    requires MayRemove(w.db, user, admin, id)
    ensures (exists run, end :: ShowsAgain(Step(w, Remove(user, admin, id)), id, run, end)) <==> AboutToShow(w, id)
  {
    var removed := Step(w, Remove(user, admin, id));
    if AboutToShow(w, id) {
      var r :| r in w.requests && WillShow(w.requests[r], id);
      var a := if w.requests[r].Ingesting? then Ingest(r) else Reingest(r);
      assert Reaches(removed, [], removed);
      ReachOneMore(removed, [], removed, a);
      assert ShowsAgain(removed, id, [] + [a], Step(removed, a));
    } else {
      assert GoneForGood(removed, id);
      forall run, end ensures !ShowsAgain(removed, id, run, end) {
        if Reaches(removed, run, end) { GoneStaysGone(removed, run, end, id); }
      }
    }
  }

  // ---------- both are reached ----------------------------------------------------------------------------

  const TOKEN := Token(1, "a", "s", 0, DAY, false)
  const NOBODY: Approvals := map[]

  /** One seller, whose address "a" was sent a token. */
  function OneSeller(listings: seq<Listing>, contact: Contact, used: bool, requests: map<RequestId, Request>): World {
    World(Db(listings, map[1 := contact], [TOKEN.(used := used)], [], NOBODY), requests, [], {}, {(1, "a")}, {}, [NOBODY])
  }

  lemma Reached(run: seq<Action>, w: World, a: Action, next: World)
    requires Reaches(Start(NOBODY), run, w) && Enabled(w, a) && Step(w, a) == next
    ensures Reaches(Start(NOBODY), run + [a], next)
  {
    ReachOneMore(Start(NOBODY), run, w, a);
  }

  lemma EmailSent()
    ensures Step(Start(NOBODY), Send(1, 0, "a", "s")) == OneSeller([], Contact("a", false), false, map[])
  {
    var known := Db([], map[1 := Contact("a", false)], [], [], NOBODY);
    assert SentTimes(known, 1, 0 - DAY) == [];
    assert StartVerification(Start(NOBODY).db, 0, 1, "a", "s") == IssueToken(known, 0, 1, "a", "s");
  }

  lemma LinkFollowed()
    ensures Step(OneSeller([], Contact("a", false), false, map[]), Check(7, 1, 5, "a", "s"))
         == OneSeller([], Contact("a", false), false, map[7 := Confirming(1, "s", "a")])
  {
    var w := OneSeller([], Contact("a", false), false, map[]);
    assert TOKEN in w.db.tokens && Usable(TOKEN, 5, 1, "a", "s");
  }

  lemma ConfirmingRun() returns (run: seq<Action>)
    ensures |run| == 2 && Reaches(Start(NOBODY), run, OneSeller([], Contact("a", false), false, map[7 := Confirming(1, "s", "a")]))
  {
    assert Reaches(Start(NOBODY), [], Start(NOBODY));
    EmailSent();
    Reached([], Start(NOBODY), Send(1, 0, "a", "s"), OneSeller([], Contact("a", false), false, map[]));
    LinkFollowed();
    run := [] + [Send(1, 0, "a", "s")];
    Reached(run, OneSeller([], Contact("a", false), false, map[]), Check(7, 1, 5, "a", "s"),
            OneSeller([], Contact("a", false), false, map[7 := Confirming(1, "s", "a")]));
    run := run + [Check(7, 1, 5, "a", "s")];
  }

  lemma AddressChanged()
    ensures Step(OneSeller([], Contact("a", false), false, map[7 := Confirming(1, "s", "a")]), ChangeContact(1, "b"))
         == OneSeller([], Contact("b", false), true, map[7 := Confirming(1, "s", "a")])
  {
    assert Lower("a")[0] == 'a' && Lower("b")[0] == 'b';
    assert Map(Revoke(1), [TOKEN]) == [TOKEN.(used := true)];
  }

  lemma LinkConfirmed(email: string, used: bool)
    ensures Step(OneSeller([], Contact(email, false), used, map[7 := Confirming(1, "s", "a")]), Confirm(7))
         == OneSeller([], Contact(email, true), true, map[7 := Publish(1)])
  {
    assert Map(Consume("s"), [TOKEN.(used := used)]) == [TOKEN.(used := true)];
  }

  /** Four steps: the seller changes the contact to "b" before the second
      transaction of the link sent to "a", which confirms "b". */
  lemma AnUnsentAddressIsConfirmed() returns (run: seq<Action>, w: World)
    ensures |run| == 4 && Reaches(Start(NOBODY), run, w)
    ensures IsVerified(w.db, 1) && w.db.contacts[1].email == "b" && !AddressWasSent(w, 1)
  {
    run := ConfirmingRun();
    var changed := OneSeller([], Contact("b", false), true, map[7 := Confirming(1, "s", "a")]);
    AddressChanged();
    Reached(run, OneSeller([], Contact("a", false), false, map[7 := Confirming(1, "s", "a")]), ChangeContact(1, "b"), changed);
    run := run + [ChangeContact(1, "b")];
    LinkConfirmed("b", true);
    w := OneSeller([], Contact("b", true), true, map[7 := Publish(1)]);
    Reached(run, changed, Confirm(7), w);
    run := run + [Confirm(7)];
  }

  const VERIFIED := Contact("a", true)

  function OneListing(status: Status, q: Request): World {
    OneSeller([Listing(1, "", status, 9)], VERIFIED, true, map[7 := Publish(1), 8 := q])
  }

  lemma Listed()
    ensures Step(OneSeller([], VERIFIED, true, map[7 := Publish(1)]), Create(8, 1, 9, "")) == OneListing(Pending, Publish(1))
  {
    var w := OneSeller([], VERIFIED, true, map[7 := Publish(1)]);
    assert InsertListing(w.db, 9, 1, "") == Ok(w.db.(listings := [] + [Listing(1, "", Pending, 9)]));
  }

  lemma PendingRead()
    ensures Step(OneListing(Pending, Publish(1)), ReadPending(8)) == OneListing(Pending, Publishing(1, [0]))
  {
    var w := OneListing(Pending, Publish(1));
    assert PendingAt(w.db, 0) && w.db.listings[0].user == 1 && w.requests[8].user == 1;
    assert PendingFrom(w.db, 1, 1) == [];
    assert PendingFrom(w.db, 1, 0) == [0] + [] == [0];
    assert w.requests[8 := Publishing(1, [0])] == map[7 := Publish(1), 8 := Publishing(1, [0])];
  }

  lemma FirstFlipped()
    ensures Step(OneListing(Pending, Publishing(1, [0])), FlipNext(8)) == OneListing(Active, Ingesting(1, 0, []))
  {
    assert [0][1..] == [];
  }

  lemma IngestingRun() returns (run: seq<Action>)
    ensures Reaches(Start(NOBODY), run, OneListing(Active, Ingesting(1, 0, [])))
  {
    run := ConfirmingRun();
    LinkConfirmed("a", false);
    Reached(run, OneSeller([], Contact("a", false), false, map[7 := Confirming(1, "s", "a")]), Confirm(7),
            OneSeller([], VERIFIED, true, map[7 := Publish(1)]));
    run := run + [Confirm(7)];
    Listed();
    Reached(run, OneSeller([], VERIFIED, true, map[7 := Publish(1)]), Create(8, 1, 9, ""), OneListing(Pending, Publish(1)));
    run := run + [Create(8, 1, 9, "")];
    PendingRead();
    Reached(run, OneListing(Pending, Publish(1)), ReadPending(8), OneListing(Pending, Publishing(1, [0])));
    run := run + [ReadPending(8)];
    FirstFlipped();
    Reached(run, OneListing(Pending, Publishing(1, [0])), FlipNext(8), OneListing(Active, Ingesting(1, 0, [])));
    run := run + [FlipNext(8)];
  }

  /** The seller removes a listing between its flip and its ingestion. */
  lemma ARemovedListingIsShown() returns (run: seq<Action>, w: World)
    ensures Reaches(Start(NOBODY), run, w)
    ensures |w.db.listings| == 1 && w.db.listings[0].status == Gone && 0 in w.shown
  {
    run := IngestingRun();
    var flipped := OneListing(Active, Ingesting(1, 0, []));
    assert MayRemove(flipped.db, 1, false, 0);
    var removed := Step(flipped, Remove(1, false, 0));
    Reached(run, flipped, Remove(1, false, 0), removed);
    run := run + [Remove(1, false, 0)];
    w := Step(removed, Ingest(8));
    Reached(run, removed, Ingest(8), w);
    run := run + [Ingest(8)];
  }
}
