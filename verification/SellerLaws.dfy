/** What a dealer's file does to each car it names, and when a listing is
    accepted at all. */
module SellerLaws {
  import opened Options
  import opened Sequences
  import opened RollingLimit
  import opened SellerTables
  import opened SellerService
  import SellerRuns

  /** Room under the seller's live and daily limits, under the day's limit for
      all self-serve sellers unless approved, and no live listing of the VIN. */
  ghost predicate MayList(db: Db, now: int, user: UserId, vin: string) {
    var yesterday := now - 86_400_000_000;
    var live := Count((l: Listing) => l.user == user && (l.status == Pending || l.status == Active), db.listings);
    var today := Count((l: Listing) => l.user == user && l.created >= yesterday, db.listings);
    var everyone := Count((l: Listing) => l.user !in db.dealers && l.created >= yesterday, db.listings);
    && live < (if user in db.dealers then db.dealers[user] else 3)
    && today < (if user in db.dealers then 2 * db.dealers[user] else 5)
    && (user in db.dealers || everyone < 50)
    && (vin == "" || forall l :: l in db.listings && (l.status == Pending || l.status == Active) ==> l.vin != vin)
  }

  lemma {:induction false} CountSame<T>(p: T -> bool, q: T -> bool, s: seq<T>)
    requires forall x :: p(x) == q(x)
    ensures Count(p, s) == Count(q, s)
  {
    CountImplies(p, q, s);
    CountImplies(q, p, s);
  }

  lemma NoneLive(listings: seq<Listing>, vin: string)
    ensures Count(WithVin(vin), listings) > 0 <==> exists l :: l in listings && (l.status == Pending || l.status == Active) && l.vin == vin
  {
    CountIsFilterLength(WithVin(vin), listings);
    if Count(WithVin(vin), listings) > 0 {
      var l := Filter(WithVin(vin), listings)[0];
      FilterMembers(WithVin(vin), listings, l);
    }
    if l :| l in listings && (l.status == Pending || l.status == Active) && l.vin == vin {
      FilterMembers(WithVin(vin), listings, l);
    }
  }

  /** A listing is accepted exactly then, and is the last row, pending. */
  lemma InsertedExactlyWhen(db: Db, now: int, user: UserId, vin: string)
    ensures InsertListing(db, now, user, vin).Ok? <==> MayList(db, now, user, vin)
    ensures InsertListing(db, now, user, vin).Ok?
        ==> InsertListing(db, now, user, vin).value == db.(listings := db.listings + [Listing(user, vin, Pending, now)])
  {
    var yesterday := now - 86_400_000_000;
    CountSame((l: Listing) => l.user == user && (l.status == Pending || l.status == Active), LiveOf(user), db.listings);
    CountSame((l: Listing) => l.user == user && l.created >= yesterday, Since(ListingOf(user), CreatedAt(), now - DAY), db.listings);
    CountSame((l: Listing) => l.user !in db.dealers && l.created >= yesterday,
              Since(SelfServe(db.dealers), CreatedAt(), now - DAY), db.listings);
    NoneLive(db.listings, vin);
  }

  /** What is answered otherwise: the live limit first, then the daily ones,
      then the VIN. */
  lemma RefusedInOrder(db: Db, now: int, user: UserId, vin: string)
    ensures var yesterday, made := now - 86_400_000_000, InsertListing(db, now, user, vin);
            var live := Count((l: Listing) => l.user == user && (l.status == Pending || l.status == Active), db.listings);
            var today := Count((l: Listing) => l.user == user && l.created >= yesterday, db.listings);
            var everyone := Count((l: Listing) => l.user !in db.dealers && l.created >= yesterday, db.listings);
            var full := live >= (if user in db.dealers then db.dealers[user] else 3);
            var busy := today >= (if user in db.dealers then 2 * db.dealers[user] else 5) || (user !in db.dealers && everyone >= 50);
            && (made == Refused(TooManyListings) <==> full)
            && (made == Refused(TooManyToday) <==> !full && busy)
            && (made == Refused(VinListed) <==> !full && !busy && vin != "" && exists l ::
                  l in db.listings && (l.status == Pending || l.status == Active) && l.vin == vin)
            && (made.Refused? ==> made.why == TooManyListings || made.why == TooManyToday || made.why == VinListed)
  {
    var yesterday := now - 86_400_000_000;
    CountSame((l: Listing) => l.user == user && (l.status == Pending || l.status == Active), LiveOf(user), db.listings);
    CountSame((l: Listing) => l.user == user && l.created >= yesterday, Since(ListingOf(user), CreatedAt(), now - DAY), db.listings);
    CountSame((l: Listing) => l.user !in db.dealers && l.created >= yesterday,
              Since(SelfServe(db.dealers), CreatedAt(), now - DAY), db.listings);
    NoneLive(db.listings, vin);
  }

  // ---------- confirming an address ---------------------------------------------------------------------

  /** An email goes out exactly while fewer than five did in the last day and
      none in the last minute, with a token for that address and one day. */
  lemma EmailedExactlyWhen(db: Db, now: int, user: UserId, email: string, secret: string)
    ensures var mine := Count((t: Token) => t.user == user && t.created >= now - 86_400_000_000, db.tokens);
            && (IssueToken(db, now, user, email, secret).Ok?
                <==> mine < 5 && forall t :: t in db.tokens && t.user == user && t.created >= now - 86_400_000_000
                                             ==> now - t.created >= 60_000_000)
            && (IssueToken(db, now, user, email, secret) == Refused(TooManyEmails) <==> mine >= 5)
    ensures IssueToken(db, now, user, email, secret).Ok?
        ==> IssueToken(db, now, user, email, secret).value
            == db.(tokens := db.tokens + [Token(user, email, secret, now, now + 86_400_000_000, false)])
  {
    var recent := Since(TokenOf(user), SentAt(), now - DAY);
    CountIsFilterLength(recent, db.tokens);
    CountSame((t: Token) => t.user == user && t.created >= now - 86_400_000_000, recent, db.tokens);
    forall t ensures t in SentTimes(db, user, now - DAY) <==> t in db.tokens && t.user == user && t.created >= now - 86_400_000_000 {
      FilterMembers(recent, db.tokens, t);
    }
  }

  /** Asking for the link: a confirmed contact changes nothing. For anybody else
      the contact stays as it is, or is the account's address if there was
      none, and a token for it is added exactly as `EmailedExactlyWhen` says. */
  lemma StartsExactly(db: Db, now: int, user: UserId, account: string, secret: string)
    ensures var r, known := StartVerification(db, now, user, account, secret), user in db.contacts;
            var email := if known then db.contacts[user].email else account;
            if known && db.contacts[user].verified then r == Ok(db)
            else if IssueToken(db, now, user, email, secret).Refused? then r == Refused(IssueToken(db, now, user, email, secret).why)
            else && r.Ok? && r.value.tokens == db.tokens + [Token(user, email, secret, now, now + 86_400_000_000, false)]
                 && user in r.value.contacts && r.value.contacts[user] == Contact(email, false)
                 && r.value.contacts - {user} == db.contacts - {user} && r.value.listings == db.listings && r.value.failures == db.failures && r.value.dealers == db.dealers
  {
    EmailedExactlyWhen(db, now, user, EmailOf(db, user, account), secret);
  }

  /** An email that could not be sent leaves the tokens with another secret, and
      nothing else changes. */
  lemma WithdrawnExactly(db: Db, secret: string)
    ensures var left := WithdrawToken(db, secret);
            && (forall t :: multiset(left.tokens)[t] == if t.secret == secret then 0 else multiset(db.tokens)[t])
            && left == db.(tokens := left.tokens)
  {
    forall t ensures multiset(Filter(OtherSecret(secret), db.tokens))[t] == if t.secret == secret then 0 else multiset(db.tokens)[t] {
      FilterKeepsCopies(OtherSecret(secret), db.tokens, t);
    }
  }

  /** An approval is for one to a thousand live listings; any other number, and
      anybody else's approval, leaves things as they were. */
  lemma ApprovedExactly(dealers: Approvals, user: UserId, max: int, other: UserId)
    ensures var after := SetDealer(dealers, user, max);
            if other == user && 0 < max < 1001 then other in after && after[other] == max
            else (other in after <==> other in dealers) && (other in dealers ==> after[other] == dealers[other])
  {
  }

  /** A link is accepted exactly with fewer than ten recorded failures in the
      last hour and an unused token of the user for it, not yet expired and for
      their address, in any case of its letters. */
  lemma AcceptedExactlyWhen(db: Db, now: int, user: UserId, account: string, secret: string)
    ensures var failed := Count((f: Failure) => f.user == user && f.at >= now - 3_600_000_000, db.failures);
            var email := if user in db.contacts then db.contacts[user].email else account;
            && (CheckToken(db, now, user, account, secret) == Throttled <==> failed >= 10)
            && (CheckToken(db, now, user, account, secret) == Accepted
                <==> failed < 10 && exists t :: t in db.tokens && t.secret == secret && t.user == user && !t.used
                                                && t.expires > now && SameAddress(t.email, email))
  {
    CountSame((f: Failure) => f.user == user && f.at >= now - 3_600_000_000, Since(FailureOf(user), FailedAt(), now - HOUR), db.failures);
  }

  /** The same address: letter by letter, a capital A to Z as its small one. */
  lemma SameAddressExactly(a: string, b: string)
    ensures SameAddress(a, b)
       <==> |a| == |b| && forall k :: 0 <= k < |a| ==>
              a[k] == b[k] || ('A' <= a[k] <= 'Z' && b[k] as int == a[k] as int + 32)
              || ('A' <= b[k] <= 'Z' && a[k] as int == b[k] as int + 32)
  {
    var x, y := Lower(a), Lower(b);
    if |a| == |b| {
      forall k | 0 <= k < |a|
        ensures x[k] == y[k] <==> a[k] == b[k] || ('A' <= a[k] <= 'Z' && b[k] as int == a[k] as int + 32)
                                  || ('A' <= b[k] <= 'Z' && a[k] as int == b[k] as int + 32)
      {
        assert x[k] == LowerLetter(a[k]) && y[k] == LowerLetter(b[k]);
      }
    }
  }

  /** Another address waits to be confirmed and voids the user's tokens; the
      same one, in any case of its letters, changes nothing. */
  lemma ContactExactly(db: Db, user: UserId, email: string)
    ensures var to := SetContact(db, user, email);
            if user in db.contacts && SameAddress(db.contacts[user].email, email) then to == db
            else && user in to.contacts && to.contacts[user] == Contact(email, false) && to.listings == db.listings
                 && (forall u :: u != user ==> (u in to.contacts <==> u in db.contacts) && (u in db.contacts ==> to.contacts[u] == db.contacts[u]))
                 && |to.tokens| == |db.tokens|
                 && forall k :: 0 <= k < |db.tokens| ==>
                      to.tokens[k] == if db.tokens[k].user == user then db.tokens[k].(used := true) else db.tokens[k]
  {
  }

  /** A live listing is withdrawn by its seller or an administrator only. */
  lemma RemovedExactlyWhen(db: Db, user: UserId, admin: bool, id: nat)
    ensures MayRemove(db, user, admin, id)
       <==> id < |db.listings| && db.listings[id].status != Gone && (admin || db.listings[id].user == user)
  {
  }

  /** A confirmation marks the token of its link used, and no other, and the
      contact verified. */
  lemma ConfirmedExactly(db: Db, user: UserId, secret: string)
    ensures var to := ConfirmContact(db, user, secret);
            && |to.tokens| == |db.tokens|
            && (forall k :: 0 <= k < |db.tokens| ==>
                  to.tokens[k] == if db.tokens[k].secret == secret then db.tokens[k].(used := true) else db.tokens[k])
            && to.contacts - {user} == db.contacts - {user} && (user in to.contacts <==> user in db.contacts)
            && (user in db.contacts ==> to.contacts[user] == Contact(db.contacts[user].email, true))
            && to.listings == db.listings && to.failures == db.failures && to.dealers == db.dealers
  {
  }

  // ---------- the steps of a run ------------------------------------------------------------------------

  /** One more token, of this user for this address. */
  ghost predicate NewToken(before: seq<Token>, after: seq<Token>, user: UserId, email: string) {
    exists t: Token :: after == before + [t] && t.user == user && t.email == email
  }

  /** An address counts as issued exactly when it did before, or the step adds a
      token for it. */
  lemma IssuedWithItsToken(w: SellerRuns.World, a: SellerRuns.Action, user: UserId, email: string)
    requires SellerRuns.Enabled(w, a)
    ensures (user, email) in SellerRuns.Step(w, a).issued
       <==> (user, email) in w.issued || NewToken(w.db.tokens, SellerRuns.Step(w, a).db.tokens, user, email)
  {
    var to := SellerRuns.Step(w, a);
    if a.Send? {
      StartsExactly(w.db, a.now, a.user, a.account, a.secret);
      var t := Token(a.user, EmailOf(w.db, a.user, a.account), a.secret, a.now, a.now + 86_400_000_000, false);
      var tokens := w.db.tokens;
      if to.db.tokens == tokens {
        assert |tokens| == |to.db.tokens|;
      } else {
        assert to.db.tokens == tokens + [t] && to.db.tokens[|tokens|] == t;
        if user == t.user && email == t.email { assert NewToken(tokens, to.db.tokens, user, email); }
      }
    } else {
      assert |to.db.tokens| <= |w.db.tokens|;
    }
  }

  /** A price change goes on to ingestion exactly for one's own active listing
      with a confirmed contact, and changes no table before that. */
  lemma RepricedExactlyWhen(w: SellerRuns.World, r: SellerRuns.RequestId, user: UserId, id: nat)
    requires r !in w.requests
    ensures var to := SellerRuns.Step(w, SellerRuns.Reprice(r, user, id));
            && (r in to.requests <==> id < |w.db.listings| && w.db.listings[id].status == Active && w.db.listings[id].user == user
                                      && user in w.db.contacts && w.db.contacts[user].verified)
            && (r in to.requests ==> to.requests[r] == SellerRuns.Repricing(user, id))
            && to == w.(requests := to.requests) && to.requests - {r} == w.requests
  {
  }

  /** An ingestion shows its listing and ends a price change; a crash ends the
      request and is remembered of its user. */
  lemma RequestsEnd(w: SellerRuns.World, a: SellerRuns.Action)
    requires SellerRuns.Enabled(w, a) && (a.Reingest? || a.Crash?)
    ensures var to := SellerRuns.Step(w, a);
            && to.requests == w.requests - {a.request} && to.db == w.db
            && to.shown == (if a.Reingest? then w.shown + {w.requests[a.request].id} else w.shown)
            && to.crashed == (if a.Crash? then w.crashed + {w.requests[a.request].user} else w.crashed)
  {
  }

  // ---------- the rows of a file -----------------------------------------------------------------------

  /** The first clean row with this VIN. */
  ghost predicate FirstMention(rows: seq<Row>, i: nat) {
    && i < |rows| && rows[i].clean && rows[i].vin != ""
    && forall j :: 0 <= j < i && rows[j].clean ==> rows[j].vin != rows[i].vin
  }

  ghost predicate LiveAtStart(listings: seq<Listing>, user: UserId, vin: string, id: nat) {
    id < |listings| && listings[id].user == user && listings[id].vin == vin && vin != ""
    && (listings[id].status == Pending || listings[id].status == Active)
  }

  lemma FirstIsUnseen(rows: seq<Row>, i: nat)
    requires i < |rows| && rows[i].clean && rows[i].vin != ""
    ensures FirstMention(rows, i) <==> rows[i].vin !in SeenBefore(rows, i)
  {
    if !FirstMention(rows, i) {
      var j :| 0 <= j < i && rows[j].clean && rows[j].vin == rows[i].vin;
      assert rows[..i][j] == rows[j];
    }
  }

  /** The counts of a report are those of its outcomes. */
  lemma CountedByOutcome(c: Counts, out: seq<Outcome>)
    requires Tallies(c, out)
    ensures c.created == Count((o: Outcome) => o.Created?, out) && c.updated == Count((o: Outcome) => o.Updated?, out)
    ensures c.removed == Count((o: Outcome) => o.Removed?, out) && c.errors == Count((o: Outcome) => o.Failed?, out)
  {
    CountSame((o: Outcome) => o.Created?, IsCreated(), out);
    CountSame((o: Outcome) => o.Updated?, IsUpdated(), out);
    CountSame((o: Outcome) => o.Removed?, IsRemoved(), out);
    CountSame((o: Outcome) => o.Failed?, IsFailed(), out);
  }

  /** A bad cell, no VIN and a VIN mentioned before are errors of their own. */
  lemma BadRowsFail(tables: seq<Db>, out: seq<Outcome>, now: int, user: UserId, rows: seq<Row>, live: map<string, nat>, i: nat)
    requires RowsDone(tables, out, now, user, rows, live) && i < |out|
    ensures !out[i].Removed? && out[i].line == rows[i].line && out[i].vin == rows[i].vin
    ensures !rows[i].clean <==> out[i].Failed? && out[i].fault == FormulaCell
    ensures rows[i].clean && rows[i].vin == "" <==> out[i].Failed? && out[i].fault == NoVin
    ensures rows[i].clean && rows[i].vin != "" && !FirstMention(rows, i) <==> out[i].Failed? && out[i].fault == TwiceInFile
  {
    assert RowDone(tables[i], tables[i + 1], now, user, rows[i], live, SeenBefore(rows, i), out[i]);
    if rows[i].clean && rows[i].vin != "" { FirstIsUnseen(rows, i); }
  }

  /** A row lists a new car exactly when it is the first clean mention of a VIN
      the dealer had no live listing of, with a valid form, and the rules allow
      it at that point; the dealer then has a live listing of that VIN at the
      end. */
  lemma CreatedExactlyWhen(start: seq<Listing>, tables: seq<Db>, out: seq<Outcome>, now: int, user: UserId, rows: seq<Row>,
                           live: map<string, nat>, i: nat)
    requires RowsDone(tables, out, now, user, rows, live) && LiveByVin(start, user, rows, live) && i < |out|
    ensures out[i].Created?
       <==> && FirstMention(rows, i) && (forall id: nat :: !LiveAtStart(start, user, rows[i].vin, id))
            && rows[i].valid && MayList(tables[i], now, user, rows[i].vin)
    ensures out[i].Created? ==>
              && |tables[i].listings| == out[i].id < |tables[|out|].listings|
              && tables[|out|].listings[out[i].id].user == user && tables[|out|].listings[out[i].id].vin == rows[i].vin
              && IsLive(tables[|out|].listings[out[i].id])
  {
    assert RowDone(tables[i], tables[i + 1], now, user, rows[i], live, SeenBefore(rows, i), out[i]);
    InsertedExactlyWhen(tables[i], now, user, rows[i].vin);
    if rows[i].clean && rows[i].vin != "" {
      FirstIsUnseen(rows, i);
      assert rows[i] in rows && Mentions(rows, rows[i].vin);
      if id: nat :| id < |start| && IsMine(start[id], user) && start[id].vin == rows[i].vin {
        assert LiveAtStart(start, user, rows[i].vin, id);
      }
      if id: nat :| LiveAtStart(start, user, rows[i].vin, id) { assert IsMine(start[id], user); }
    }
    RowsKeep(tables, out, now, user, rows, live, i + 1, |out|);
  }

  /** After any number of rows the public table has what it had before the
      first, and what they published. */
  lemma {:induction false} ShownAfterRows(publics: seq<Public>, tables: seq<Db>, out: seq<Outcome>, now: int, user: UserId, n: nat,
                                          id: nat)
    requires RowsPublish(publics, tables, out, now, user) && n <= |out|
    ensures id in publics[n].shown
       <==> id in publics[0].shown || exists i :: 0 <= i < n && id in RowPublishes(tables[i], now, user, out[i])
  {
    if n > 0 {
      ShownAfterRows(publics, tables, out, now, user, n - 1, id);
      assert Publishes(publics[n - 1], publics[n], RowPublishes(tables[n - 1], now, user, out[n - 1]));
    }
  }

  /** A new car of a dealer whose contact is confirmed is on the public table at
      the end. */
  lemma CreatedIsShown(publics: seq<Public>, tables: seq<Db>, out: seq<Outcome>, now: int, user: UserId, rows: seq<Row>,
                       live: map<string, nat>, i: nat)
    requires RowsPublish(publics, tables, out, now, user) && RowsDone(tables, out, now, user, rows, live) && i < |out|
    requires out[i].Created? && user in tables[0].contacts && tables[0].contacts[user].verified
    ensures out[i].id in publics[|out|].shown
  {
    RowsKeep(tables, out, now, user, rows, live, 0, i);
    assert RowDone(tables[i], tables[i + 1], now, user, rows[i], live, SeenBefore(rows, i), out[i]);
    PendingFromMember(WithNew(tables[i], now, user, out[i]), user, 0, out[i].id);
    assert out[i].id in RowPublishes(tables[i], now, user, out[i]);
    ShownAfterRows(publics, tables, out, now, user, |out|, out[i].id);
  }

  /** A row updates a price exactly when it is the first clean mention of a VIN
      the dealer had a live listing of, the price is plausible, and the contact
      is confirmed or the listing still pending. */
  lemma UpdatedExactlyWhen(start: seq<Listing>, tables: seq<Db>, out: seq<Outcome>, now: int, user: UserId, rows: seq<Row>,
                           live: map<string, nat>, removeMissing: bool, i: nat)
    requires RowsDone(tables, out, now, user, rows, live) && LiveByVin(start, user, rows, live) && i < |out|
    requires Withdraws(start, tables[0].listings, user, rows, removeMissing)
    ensures out[i].Updated?
       <==> && FirstMention(rows, i) && rows[i].priceOk
            && exists id: nat :: LiveAtStart(start, user, rows[i].vin, id) && id < |tables[i].listings| && live[rows[i].vin] == id
                 && (IsVerified(tables[i], user) || tables[i].listings[id].status == Pending)
    ensures out[i].Updated? ==> LiveAtStart(start, user, rows[i].vin, out[i].id) && tables[i + 1] == tables[i]
  {
    assert RowDone(tables[i], tables[i + 1], now, user, rows[i], live, SeenBefore(rows, i), out[i]);
    if rows[i].clean && rows[i].vin != "" {
      FirstIsUnseen(rows, i);
      assert rows[i] in rows && Mentions(rows, rows[i].vin);
      RowsKeep(tables, out, now, user, rows, live, 0, i);
      forall id: nat | LiveAtStart(start, user, rows[i].vin, id) ensures IsMine(start[id], user) {}
      if rows[i].vin in live {
        var id := live[rows[i].vin];
        assert LiveAtStart(start, user, rows[i].vin, id);
        assert IsLive(tables[i].listings[id]) && tables[i].listings[id].user == user;
      }
    }
  }

  /** Any other first mention is refused for its price or the contact if the car
      is live, and for its form or as a new listing would be if it is not. */
  lemma RejectedOtherwise(start: seq<Listing>, tables: seq<Db>, out: seq<Outcome>, now: int, user: UserId, rows: seq<Row>,
                          live: map<string, nat>, removeMissing: bool, i: nat)
    requires RowsDone(tables, out, now, user, rows, live) && LiveByVin(start, user, rows, live) && i < |out|
    requires Withdraws(start, tables[0].listings, user, rows, removeMissing)
    requires FirstMention(rows, i) && !out[i].Created? && !out[i].Updated?
    ensures out[i].Failed? && out[i].fault.Rejected?
    ensures if exists id: nat :: LiveAtStart(start, user, rows[i].vin, id)
            then out[i].fault.why == if rows[i].priceOk then Unverified else InvalidRow
            else if !rows[i].valid then out[i].fault.why == InvalidRow
            else InsertListing(tables[i], now, user, rows[i].vin) == Refused(out[i].fault.why)
  {
    assert RowDone(tables[i], tables[i + 1], now, user, rows[i], live, SeenBefore(rows, i), out[i]);
    FirstIsUnseen(rows, i);
    assert rows[i] in rows && Mentions(rows, rows[i].vin);
    RowsKeep(tables, out, now, user, rows, live, 0, i);
    forall id: nat | LiveAtStart(start, user, rows[i].vin, id) ensures IsMine(start[id], user) {}
    if rows[i].vin in live {
      var id := live[rows[i].vin];
      assert LiveAtStart(start, user, rows[i].vin, id);
      assert IsLive(tables[i].listings[id]) && tables[i].listings[id].user == user;
    }
  }
}
