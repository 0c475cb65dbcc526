/** Limits counted over a sliding window of time. */
module RollingLimit {
  import opened Sequences

  /** Rows of one party, by a test, and the time each was written. */
  function Window<T>(who: T -> bool, at: T -> int, width: int, from: int): T -> bool {
    (x: T) => who(x) && from <= at(x) <= from + width
  }

  /** Two rows of one party share a window exactly when at most the width lies
      between them; its ends belong to it. */
  lemma SharedWindow<T>(who: T -> bool, at: T -> int, width: int, x: T, y: T)
    ensures (exists from :: Window(who, at, width, from)(x) && Window(who, at, width, from)(y))
       <==> who(x) && who(y) && at(x) - at(y) <= width && at(y) - at(x) <= width && width >= 0
  {
    var earlier := if at(x) < at(y) then at(x) else at(y);
    assert Window(who, at, width, earlier)(x) <==> who(x) && at(x) - earlier <= width;
  }

  function Since<T>(who: T -> bool, at: T -> int, from: int): T -> bool {
    (x: T) => who(x) && at(x) >= from
  }

  /** No window of this width holds more than `cap` rows. */
  ghost predicate Limited<T>(who: T -> bool, at: T -> int, width: int, cap: nat, s: seq<T>) {
    forall from :: Count(Window(who, at, width, from), s) <= cap
  }

  /** Admitting a row only while fewer than `cap` were written within the
      last `width` bounds every window, wherever it starts, whatever the
      clock does. */
  lemma AdmittedKeepsLimit<T>(who: T -> bool, at: T -> int, width: int, cap: nat, s: seq<T>, x: T)
    requires Limited(who, at, width, cap, s)
    requires who(x) ==> Count(Since(who, at, at(x) - width), s) < cap
    ensures Limited(who, at, width, cap, s + [x])
  {
    forall from ensures Count(Window(who, at, width, from), s + [x]) <= cap {
      CountAppend(Window(who, at, width, from), s, x);
      if Window(who, at, width, from)(x) {
        CountImplies(Window(who, at, width, from), Since(who, at, at(x) - width), s);
      }
    }
  }

  lemma WithdrawnKeepsLimit<T>(who: T -> bool, at: T -> int, width: int, cap: nat, s: seq<T>, keep: T -> bool)
    requires Limited(who, at, width, cap, s)
    ensures Limited(who, at, width, cap, Filter(keep, s))
  {
    forall from ensures Count(Window(who, at, width, from), Filter(keep, s)) <= cap {
      CountOfFilter(Window(who, at, width, from), keep, s);
    }
  }

  lemma {:induction false} CountOfSame<T>(p: T -> bool, f: T -> T, s: seq<T>)
    requires forall x :: x in s ==> p(f(x)) == p(x)
    ensures Count(p, Map(f, s)) == Count(p, s)
  {
    if s != [] {
      CountOfSame(p, f, s[1..]);
      assert Map(f, s)[1..] == Map(f, s[1..]);
    }
  }

  lemma RewrittenKeepsLimit<T>(who: T -> bool, at: T -> int, width: int, cap: nat, s: seq<T>, f: T -> T)
    requires Limited(who, at, width, cap, s)
    requires forall x :: x in s ==> who(f(x)) == who(x) && at(f(x)) == at(x)
    ensures Limited(who, at, width, cap, Map(f, s))
  {
    forall from ensures Count(Window(who, at, width, from), Map(f, s)) <= cap {
      CountOfSame(Window(who, at, width, from), f, s);
    }
  }

  lemma {:induction false} CountUpdate<T>(p: T -> bool, s: seq<T>, i: nat, x: T)
    requires i < |s|
    ensures Count(p, s[i := x]) + (if p(s[i]) then 1 else 0) == Count(p, s) + (if p(x) then 1 else 0)
  {
    if i > 0 {
      CountUpdate(p, s[1..], i - 1, x);
      assert s[i := x][1..] == s[1..][i - 1 := x];
    } else {
      assert s[0 := x][1..] == s[1..];
    }
  }

  lemma UpdatedKeepsLimit<T>(who: T -> bool, at: T -> int, width: int, cap: nat, s: seq<T>, i: nat, x: T)
    requires Limited(who, at, width, cap, s) && i < |s| && who(x) == who(s[i]) && at(x) == at(s[i])
    ensures Limited(who, at, width, cap, s[i := x])
  {
    forall from ensures Count(Window(who, at, width, from), s[i := x]) <= cap {
      CountUpdate(Window(who, at, width, from), s, i, x);
    }
  }
}

/** The tables behind seller_listings.py, and each of its transactions. */
module SellerTables {
  import opened Options
  import opened Sequences
  import opened RollingLimit

  type UserId = int

  datatype Status = Pending | Active | Gone

  /** A seller's listing; an empty VIN is none. A removed row loses its VIN. */
  datatype Listing = Listing(user: UserId, vin: string, status: Status, created: int)

  datatype Token = Token(user: UserId, email: string, secret: string, created: int, expires: int, used: bool)

  datatype Failure = Failure(user: UserId, at: int)

  datatype Contact = Contact(email: string, verified: bool)

  /** Listing ids are positions: no request deletes a row. `dealers` maps an
      approved dealer to the number of live listings allowed. */
  datatype Db = Db(
    listings: seq<Listing>, contacts: map<UserId, Contact>, tokens: seq<Token>,
    failures: seq<Failure>, dealers: map<UserId, nat>)

  datatype Refusal =
    | TooManyEmails | TooSoon | TooManyAttempts | BadLink | TooManyListings | TooManyToday | VinListed
    | InvalidRow | NotFound | Unverified

  datatype Result<T> = Ok(value: T) | Refused(why: Refusal)

  const SECOND := 1000000
  const HOUR := 3600 * SECOND
  const DAY := 24 * HOUR
  const MAX_ACTIVE_PER_USER := 3
  const MAX_NEW_PER_USER_PER_DAY := 5
  const MAX_NEW_PER_DAY := 50
  const RESEND_MIN_GAP := 60 * SECOND
  const MAX_SENDS_PER_DAY := 5
  const MAX_FAILED_VERIFY_PER_HOUR := 10
  const MAX_APPROVED := 1000

  // ---------- contact verification ---------------------------------------------------

  function TokenOf(user: UserId): Token -> bool {
    (t: Token) => t.user == user
  }

  function SentAt(): Token -> int {
    (t: Token) => t.created
  }

  function FailureOf(user: UserId): Failure -> bool {
    (f: Failure) => f.user == user
  }

  function FailedAt(): Failure -> int {
    (f: Failure) => f.at
  }

  /** The times of the emails sent to `user` since `from`. */
  function SentTimes(db: Db, user: UserId, from: int): seq<Token> {
    Filter(Since(TokenOf(user), SentAt(), from), db.tokens)
  }

  predicate SentWithin(sent: seq<Token>, now: int, gap: int) {
    exists t :: t in sent && now - t.created < gap
  }

  /** _issue_token. The last email is the latest one, so none is recent. */
  function IssueToken(db: Db, now: int, user: UserId, email: string, secret: string): Result<Db> {
    var sent := SentTimes(db, user, now - DAY);
    if |sent| >= MAX_SENDS_PER_DAY then Refused(TooManyEmails)
    else if SentWithin(sent, now, RESEND_MIN_GAP) then Refused(TooSoon)
    else Ok(db.(tokens := db.tokens + [Token(user, email, secret, now, now + DAY, false)]))
  }

  /** The transaction of send_verification: a contact row if there is none,
      and a token unless the address is confirmed already; a refusal undoes
      both. */
  function StartVerification(db: Db, now: int, user: UserId, account: string, secret: string): Result<Db> {
    var email := EmailOf(db, user, account);
    var known := if user in db.contacts then db else db.(contacts := db.contacts[user := Contact(email, false)]);
    if IsVerified(known, user) then Ok(known) else IssueToken(known, now, user, email, secret)
  }

  function OtherSecret(secret: string): Token -> bool {
    (t: Token) => t.secret != secret
  }

  /** An email that could not be sent does not count against the limits. */
  function WithdrawToken(db: Db, secret: string): Db {
    db.(tokens := Filter(OtherSecret(secret), db.tokens))
  }

  function EmailOf(db: Db, user: UserId, account: string): string {
    if user in db.contacts then db.contacts[user].email else account
  }

  predicate IsVerified(db: Db, user: UserId) {
    user in db.contacts && db.contacts[user].verified
  }

  function LowerLetter(c: char): char {
    if 'A' <= c <= 'Z' then (c as int + 32) as char else c
  }

  function Lower(s: string): string {
    Map(LowerLetter, s)
  }

  /** Addresses are compared in lower case. */
  predicate SameAddress(a: string, b: string) {
    Lower(a) == Lower(b)
  }

  predicate Usable(t: Token, now: int, user: UserId, email: string, secret: string) {
    t.secret == secret && t.user == user && !t.used && t.expires > now && SameAddress(t.email, email)
  }

  predicate HasUsable(db: Db, now: int, user: UserId, email: string, secret: string) {
    exists t :: t in db.tokens && Usable(t, now, user, email, secret)
  }

  datatype Verdict = Accepted | Throttled | NoGood

  /** The first transaction of verify. */
  function CheckToken(db: Db, now: int, user: UserId, account: string, secret: string): Verdict {
    if Count(Since(FailureOf(user), FailedAt(), now - HOUR), db.failures) >= MAX_FAILED_VERIFY_PER_HOUR
    then Throttled
    else if HasUsable(db, now, user, EmailOf(db, user, account), secret) then Accepted
    else NoGood
  }

  /** A link that is no good is recorded. */
  function AfterCheck(db: Db, now: int, user: UserId, v: Verdict): Db {
    if v == NoGood then db.(failures := db.failures + [Failure(user, now)]) else db
  }

  function Consume(secret: string): Token -> Token {
    (t: Token) => if t.secret == secret then t.(used := true) else t
  }

  /** The second transaction of verify. */
  function ConfirmContact(db: Db, user: UserId, secret: string): Db {
    var consumed := db.(tokens := Map(Consume(secret), db.tokens));
    if user in db.contacts
    then consumed.(contacts := db.contacts[user := db.contacts[user].(verified := true)])
    else consumed
  }

  function Revoke(user: UserId): Token -> Token {
    (t: Token) => if t.user == user then t.(used := true) else t
  }

  /** Another address has to be confirmed again; the same one changes nothing. */
  function SetContact(db: Db, user: UserId, email: string): Db {
    if user in db.contacts && SameAddress(db.contacts[user].email, email) then db
    else db.(contacts := db.contacts[user := Contact(email, false)], tokens := Map(Revoke(user), db.tokens))
  }

  // ---------- listings ----------------------------------------------------------------

  predicate IsLive(l: Listing) {
    l.status == Pending || l.status == Active
  }

  /** Two live listings do not share a VIN. */
  predicate VinsApart(l: Listing, m: Listing) {
    IsLive(l) && IsLive(m) && l.vin != "" ==> l.vin != m.vin
  }

  function ListingOf(user: UserId): Listing -> bool {
    (l: Listing) => l.user == user
  }

  function LiveOf(user: UserId): Listing -> bool {
    (l: Listing) => l.user == user && IsLive(l)
  }

  function SelfServe(dealers: map<UserId, nat>): Listing -> bool {
    (l: Listing) => l.user !in dealers
  }

  function CreatedAt(): Listing -> int {
    (l: Listing) => l.created
  }

  function WithVin(vin: string): Listing -> bool {
    (l: Listing) => IsLive(l) && l.vin == vin
  }

  type Approvals = map<UserId, nat>

  function ActiveOf(user: UserId): Approvals -> nat {
    (dealers: Approvals) => if user in dealers then dealers[user] else MAX_ACTIVE_PER_USER
  }

  function DailyOf(user: UserId): Approvals -> nat {
    (dealers: Approvals) => if user in dealers then 2 * dealers[user] else MAX_NEW_PER_USER_PER_DAY
  }

  function ActiveLimit(db: Db, user: UserId): nat {
    ActiveOf(user)(db.dealers)
  }

  function DailyLimit(db: Db, user: UserId): nat {
    DailyOf(user)(db.dealers)
  }

  /** An owner's command: approval with this many live listings, or none. */
  function SetDealer(dealers: Approvals, user: UserId, max: int): Approvals {
    if 1 <= max <= MAX_APPROVED then dealers[user := max] else dealers
  }

  /** The transaction of create; the new listing's id is its position. */
  function InsertListing(db: Db, now: int, user: UserId, vin: string): Result<Db> {
    if Count(LiveOf(user), db.listings) >= ActiveLimit(db, user) then Refused(TooManyListings)
    else if Count(Since(ListingOf(user), CreatedAt(), now - DAY), db.listings) >= DailyLimit(db, user)
            || (user !in db.dealers
                && Count(Since(SelfServe(db.dealers), CreatedAt(), now - DAY), db.listings) >= MAX_NEW_PER_DAY)
    then Refused(TooManyToday)
    else if vin != "" && Count(WithVin(vin), db.listings) > 0 then Refused(VinListed)
    else Ok(db.(listings := db.listings + [Listing(user, vin, Pending, now)]))
  }

  predicate PendingAt(db: Db, id: nat) {
    id < |db.listings| && db.listings[id].status == Pending
  }

  /** Pending listings of a user from position `from`, in order. */
  function PendingFrom(db: Db, user: UserId, from: nat): seq<nat>
    decreases |db.listings| - from
  {
    if from >= |db.listings| then []
    else (if PendingAt(db, from) && db.listings[from].user == user then [from] else []) + PendingFrom(db, user, from + 1)
  }

  /** Status first: whoever still finds it pending publishes it. */
  function Flip(db: Db, id: nat): Db
    requires PendingAt(db, id)
  {
    db.(listings := db.listings[id := db.listings[id].(status := Active)])
  }

  predicate MayRemove(db: Db, user: UserId, admin: bool, id: nat) {
    id < |db.listings| && IsLive(db.listings[id]) && (db.listings[id].user == user || admin)
  }

  function RemoveListing(db: Db, id: nat): Db
    requires id < |db.listings|
  {
    db.(listings := db.listings[id := db.listings[id].(status := Gone, vin := "")])
  }
}

/** Runs of many requests at once. Each transaction is one step; between its
    transactions a request holds only what it read. */
module SellerRuns {
  import opened Options
  import opened Sequences
  import opened RollingLimit
  import opened SellerTables

  type RequestId = int

  /** Where a request is between two transactions. */
  datatype Request =
    | Confirming(user: UserId, secret: string, email: string)
    | Publish(user: UserId)
    | Publishing(user: UserId, ids: seq<nat>)
    | Ingesting(user: UserId, id: nat, rest: seq<nat>)
    | Repricing(user: UserId, id: nat)

  /** `published` lists the ids a publisher handed to ingestion, `shown` the
      rows the public listings table has, `issued` the addresses a token was
      ever made for, `crashed` the users one of whose requests died, and
      `history` the dealer approvals so far, the current ones last. */
  datatype World = World(
    db: Db, requests: map<RequestId, Request>, published: seq<nat>, shown: set<nat>,
    issued: set<(UserId, string)>, crashed: set<UserId>, history: seq<Approvals>)

  datatype Action =
    | Send(user: UserId, now: int, account: string, secret: string)
    | Bounce(secret: string)
    | Check(request: RequestId, user: UserId, now: int, account: string, secret: string)
    | Confirm(request: RequestId)
    | Create(request: RequestId, user: UserId, now: int, vin: string)
    | ReadPending(request: RequestId)
    | FlipNext(request: RequestId)
    | Ingest(request: RequestId)
    | Reprice(request: RequestId, user: UserId, id: nat)
    | Reingest(request: RequestId)
    | ChangeContact(user: UserId, email: string)
    | Remove(user: UserId, admin: bool, id: nat)
    | Crash(request: RequestId)
    | Approve(user: UserId, max: int)
    | RevokeDealer(user: UserId)

  predicate Enabled(w: World, a: Action) {
    match a
    case Check(r, _, _, _, _) => r !in w.requests
    case Create(r, _, _, _) => r !in w.requests
    case Confirm(r) => r in w.requests && w.requests[r].Confirming?
    case ReadPending(r) => r in w.requests && w.requests[r].Publish?
    case FlipNext(r) => r in w.requests && w.requests[r].Publishing?
    case Ingest(r) => r in w.requests && w.requests[r].Ingesting?
    case Reprice(r, _, _) => r !in w.requests
    case Reingest(r) => r in w.requests && w.requests[r].Repricing?
    case Crash(r) => r in w.requests
    case _ => true
  }

  function SendStep(w: World, user: UserId, now: int, account: string, secret: string): World {
    var r := StartVerification(w.db, now, user, account, secret);
    if r.Refused? then w
    else w.(db := r.value,
            issued := if r.value.tokens != w.db.tokens then w.issued + {(user, EmailOf(w.db, user, account))} else w.issued)
  }

  function CheckStep(w: World, r: RequestId, user: UserId, now: int, account: string, secret: string): World {
    var v := CheckToken(w.db, now, user, account, secret);
    w.(db := AfterCheck(w.db, now, user, v),
       requests := if v == Accepted then w.requests[r := Confirming(user, secret, EmailOf(w.db, user, account))] else w.requests)
  }

  /** A seller who is verified already goes on to publish. */
  function CreateStep(w: World, r: RequestId, user: UserId, now: int, vin: string): World {
    var made := InsertListing(w.db, now, user, vin);
    if made.Refused? then w
    else w.(db := made.value,
            requests := if IsVerified(made.value, user) then w.requests[r := Publish(user)] else w.requests)
  }

  function FlipStep(w: World, r: RequestId): World
    requires r in w.requests && w.requests[r].Publishing?
  {
    var p := w.requests[r];
    if p.ids == [] then w.(requests := w.requests - {r})
    else if PendingAt(w.db, p.ids[0]) then
      w.(db := Flip(w.db, p.ids[0]), requests := w.requests[r := Ingesting(p.user, p.ids[0], p.ids[1..])])
    else w.(requests := w.requests[r := Publishing(p.user, p.ids[1..])])
  }

  function Step(w: World, a: Action): World
    requires Enabled(w, a)
  {
    match a
    case Send(user, now, account, secret) => SendStep(w, user, now, account, secret)
    case Bounce(secret) => w.(db := WithdrawToken(w.db, secret))
    case Check(r, user, now, account, secret) => CheckStep(w, r, user, now, account, secret)
    case Confirm(r) =>
      var p := w.requests[r];
      w.(db := ConfirmContact(w.db, p.user, p.secret), requests := w.requests[r := Publish(p.user)])
    case Create(r, user, now, vin) => CreateStep(w, r, user, now, vin)
    case ReadPending(r) =>
      var user := w.requests[r].user;
      w.(requests := w.requests[r := Publishing(user, PendingFrom(w.db, user, 0))])
    case FlipNext(r) => FlipStep(w, r)
    case Ingest(r) =>
      var p := w.requests[r];
      w.(published := w.published + [p.id], shown := w.shown + {p.id}, requests := w.requests[r := Publishing(p.user, p.rest)])
    case Reprice(r, user, id) =>
      if MayRemove(w.db, user, false, id) && w.db.listings[id].status == Active && IsVerified(w.db, user)
      then w.(requests := w.requests[r := Repricing(user, id)]) else w
    case Reingest(r) => w.(shown := w.shown + {w.requests[r].id}, requests := w.requests - {r})
    case ChangeContact(user, email) => w.(db := SetContact(w.db, user, email))
    case Remove(user, admin, id) => 
      if MayRemove(w.db, user, admin, id) then w.(db := RemoveListing(w.db, id), shown := w.shown - {id}) else w
    case Crash(r) => w.(requests := w.requests - {r}, crashed := w.crashed + {w.requests[r].user})
    case Approve(user, max) => WithDealers(w, SetDealer(w.db.dealers, user, max))
    case RevokeDealer(user) => WithDealers(w, w.db.dealers - {user})
  }

  function WithDealers(w: World, dealers: Approvals): World {
    w.(db := w.db.(dealers := dealers), history := w.history + [dealers])
  }

  function Start(dealers: Approvals): World {
    World(Db([], map[], [], [], dealers), map[], [], {}, {}, {}, [dealers])
  }

  ghost predicate Reaches(start: World, run: seq<Action>, w: World)
    decreases |run|
  {
    if run == [] then w == start
    else
      var init, last := run[..|run| - 1], run[|run| - 1];
      exists before :: Reaches(start, init, before) && StepsTo(before, last, w)
  }

  ghost predicate StepsTo(before: World, a: Action, w: World) {
    Enabled(before, a) && w == Step(before, a)
  }

  lemma ReachOneMore(start: World, run: seq<Action>, w: World, a: Action)
    requires Reaches(start, run, w) && Enabled(w, a)
    ensures Reaches(start, run + [a], Step(w, a))
  {
    assert (run + [a])[..|run|] == run;
    assert StepsTo(w, a, Step(w, a));
  }

  // ---------- limits ----------------------------------------------------------------------

  ghost predicate SendsLimited(db: Db) {
    forall user :: Limited(TokenOf(user), SentAt(), DAY, MAX_SENDS_PER_DAY, db.tokens)
  }

  /** Emails to the same seller are a minute apart. */
  predicate MinuteApart(s: Token, t: Token) {
    s.user == t.user ==> t.created - s.created >= RESEND_MIN_GAP
  }

  ghost predicate FailuresLimited(db: Db) {
    forall user :: Limited(FailureOf(user), FailedAt(), HOUR, MAX_FAILED_VERIFY_PER_HOUR, db.failures)
  }

  /** The largest allowance among the approvals so far. */
  function Largest(of: Approvals -> nat, history: seq<Approvals>): nat {
    if history == [] then 0
    else
      var before, last := Largest(of, history[..|history| - 1]), of(history[|history| - 1]);
      if before > last then before else last
  }

  predicate NeverIn(history: seq<Approvals>, user: UserId) {
    forall k :: 0 <= k < |history| ==> user !in history[k]
  }

  /** The listing is of a seller who was self-serve all along. */
  function NeverApproved(history: seq<Approvals>): Listing -> bool {
    (l: Listing) => NeverIn(history, l.user)
  }

  ghost predicate NewListingsLimited(listings: seq<Listing>, history: seq<Approvals>) {
    && (forall user :: Limited(ListingOf(user), CreatedAt(), DAY, Largest(DailyOf(user), history), listings))
    && Limited(NeverApproved(history), CreatedAt(), DAY, MAX_NEW_PER_DAY, listings)
  }

  ghost predicate LiveLimited(listings: seq<Listing>, history: seq<Approvals>) {
    forall user :: Count(LiveOf(user), listings) <= Largest(ActiveOf(user), history)
  }

  predicate Current(db: Db, history: seq<Approvals>) {
    history != [] && history[|history| - 1] == db.dealers
  }

  ghost predicate Limits(db: Db, history: seq<Approvals>) {
    && SendsLimited(db) && Pairwise(MinuteApart, db.tokens) && FailuresLimited(db)
    && ListingsLimited(db.listings, history) && Current(db, history)
  }

  lemma TokenIssuedKeepsLimits(db: Db, now: int, user: UserId, email: string, secret: string)
    requires SendsLimited(db) && Pairwise(MinuteApart, db.tokens)
    requires IssueToken(db, now, user, email, secret).Ok?
    ensures var to := IssueToken(db, now, user, email, secret).value;
            SendsLimited(to) && Pairwise(MinuteApart, to.tokens)
  {
    var t := Token(user, email, secret, now, now + DAY, false);
    var sent := SentTimes(db, user, now - DAY);
    CountIsFilterLength(Since(TokenOf(user), SentAt(), now - DAY), db.tokens);
    forall u ensures Limited(TokenOf(u), SentAt(), DAY, MAX_SENDS_PER_DAY, db.tokens + [t]) {
      AdmittedKeepsLimit(TokenOf(u), SentAt(), DAY, MAX_SENDS_PER_DAY, db.tokens, t);
    }
    forall s | s in db.tokens ensures MinuteApart(s, t) {
      FilterMembers(Since(TokenOf(user), SentAt(), now - DAY), db.tokens, s);
    }
    PairwiseAppend(MinuteApart, db.tokens, t);
  }

  lemma SendKeepsLimits(w: World, user: UserId, now: int, account: string, secret: string)
    requires Limits(w.db, w.history)
    ensures Limits(SendStep(w, user, now, account, secret).db, w.history)
  {
    var email := EmailOf(w.db, user, account);
    var known := if user in w.db.contacts then w.db else w.db.(contacts := w.db.contacts[user := Contact(email, false)]);
    if IssueToken(known, now, user, email, secret).Ok? { TokenIssuedKeepsLimits(known, now, user, email, secret); }
  }

  lemma TokenWithdrawnKeepsLimits(db: Db, secret: string)
    requires SendsLimited(db) && Pairwise(MinuteApart, db.tokens)
    ensures var to := WithdrawToken(db, secret); SendsLimited(to) && Pairwise(MinuteApart, to.tokens)
  {
    forall u ensures Limited(TokenOf(u), SentAt(), DAY, MAX_SENDS_PER_DAY, Filter(OtherSecret(secret), db.tokens)) {
      WithdrawnKeepsLimit(TokenOf(u), SentAt(), DAY, MAX_SENDS_PER_DAY, db.tokens, OtherSecret(secret));
    }
    PairwiseFilter(MinuteApart, OtherSecret(secret), db.tokens);
  }

  lemma TokensMarkedKeepLimits(db: Db, mark: Token -> Token)
    requires SendsLimited(db) && Pairwise(MinuteApart, db.tokens)
    requires forall t :: mark(t).user == t.user && mark(t).created == t.created
    ensures var to := db.(tokens := Map(mark, db.tokens)); SendsLimited(to) && Pairwise(MinuteApart, to.tokens)
  {
    forall u ensures Limited(TokenOf(u), SentAt(), DAY, MAX_SENDS_PER_DAY, Map(mark, db.tokens)) {
      RewrittenKeepsLimit(TokenOf(u), SentAt(), DAY, MAX_SENDS_PER_DAY, db.tokens, mark);
    }
    var to := Map(mark, db.tokens);
    forall i, j | 0 <= i < j < |to| ensures MinuteApart(to[i], to[j]) {
      assert MinuteApart(db.tokens[i], db.tokens[j]);
    }
  }

  lemma FailureKeepsLimits(db: Db, now: int, user: UserId, account: string, secret: string)
    requires FailuresLimited(db)
    ensures FailuresLimited(AfterCheck(db, now, user, CheckToken(db, now, user, account, secret)))
  {
    if CheckToken(db, now, user, account, secret) == NoGood {
      forall u ensures Limited(FailureOf(u), FailedAt(), HOUR, MAX_FAILED_VERIFY_PER_HOUR, db.failures + [Failure(user, now)]) {
        AdmittedKeepsLimit(FailureOf(u), FailedAt(), HOUR, MAX_FAILED_VERIFY_PER_HOUR, db.failures, Failure(user, now));
      }
    }
  }

  ghost predicate ListingsLimited(listings: seq<Listing>, history: seq<Approvals>) {
    NewListingsLimited(listings, history) && LiveLimited(listings, history) && Pairwise(VinsApart, listings)
  }

  lemma InsertKeepsLimits(db: Db, history: seq<Approvals>, now: int, user: UserId, vin: string)
    requires ListingsLimited(db.listings, history) && Current(db, history) && InsertListing(db, now, user, vin).Ok?
    ensures ListingsLimited(InsertListing(db, now, user, vin).value.listings, history)
  {
    var l := Listing(user, vin, Pending, now);
    var to := db.listings + [l];
    forall u ensures Limited(ListingOf(u), CreatedAt(), DAY, Largest(DailyOf(u), history), to)
             ensures Count(LiveOf(u), to) <= Largest(ActiveOf(u), history) {
      AdmittedKeepsLimit(ListingOf(u), CreatedAt(), DAY, Largest(DailyOf(u), history), db.listings, l);
      CountAppend(LiveOf(u), db.listings, l);
    }
    var never, self := Since(NeverApproved(history), CreatedAt(), now - DAY), Since(SelfServe(db.dealers), CreatedAt(), now - DAY);
    CountImplies(never, self, db.listings);
    AdmittedKeepsLimit(NeverApproved(history), CreatedAt(), DAY, MAX_NEW_PER_DAY, db.listings, l);
    forall m | m in db.listings ensures VinsApart(m, l) {
      if vin != "" { NoneCounted(WithVin(vin), db.listings, m); }
    }
    PairwiseAppend(VinsApart, db.listings, l);
  }

  /** A listing's row may change status, or lose its VIN, but not come back. */
  lemma UpdateKeepsLimits(listings: seq<Listing>, history: seq<Approvals>, id: nat, l: Listing)
    requires ListingsLimited(listings, history) && id < |listings|
    requires l.user == listings[id].user && l.created == listings[id].created
    requires IsLive(l) ==> IsLive(listings[id]) && l.vin == listings[id].vin
    ensures ListingsLimited(listings[id := l], history)
  {
    var to := listings[id := l];
    forall u ensures Limited(ListingOf(u), CreatedAt(), DAY, Largest(DailyOf(u), history), to)
             ensures Count(LiveOf(u), to) <= Largest(ActiveOf(u), history) {
      UpdatedKeepsLimit(ListingOf(u), CreatedAt(), DAY, Largest(DailyOf(u), history), listings, id, l);
      CountUpdate(LiveOf(u), listings, id, l);
    }
    UpdatedKeepsLimit(NeverApproved(history), CreatedAt(), DAY, MAX_NEW_PER_DAY, listings, id, l);
    forall i, j | 0 <= i < j < |to| ensures VinsApart(to[i], to[j]) {
      assert VinsApart(listings[i], listings[j]);
    }
  }

  lemma LargestGrows(of: Approvals -> nat, history: seq<Approvals>, dealers: Approvals)
    ensures Largest(of, history + [dealers]) >= Largest(of, history)
  {
    assert (history + [dealers])[..|history|] == history;
  }

  /** New approvals never lower what was allowed so far. */
  lemma ApprovalsKeepLimits(listings: seq<Listing>, history: seq<Approvals>, dealers: Approvals)
    requires ListingsLimited(listings, history)
    ensures ListingsLimited(listings, history + [dealers])
  {
    var more := history + [dealers];
    forall u ensures Limited(ListingOf(u), CreatedAt(), DAY, Largest(DailyOf(u), more), listings)
             ensures Count(LiveOf(u), listings) <= Largest(ActiveOf(u), more) {
      LargestGrows(DailyOf(u), history, dealers);
      LargestGrows(ActiveOf(u), history, dealers);
      assert Limited(ListingOf(u), CreatedAt(), DAY, Largest(DailyOf(u), history), listings);
    }
    FewerKeepLimit(NeverApproved(more), NeverApproved(history), MAX_NEW_PER_DAY, listings);
  }

  lemma FewerKeepLimit(few: Listing -> bool, many: Listing -> bool, cap: nat, listings: seq<Listing>)
    requires forall l :: few(l) ==> many(l)
    requires Limited(many, CreatedAt(), DAY, cap, listings)
    ensures Limited(few, CreatedAt(), DAY, cap, listings)
  {
    forall from ensures Count(Window(few, CreatedAt(), DAY, from), listings) <= cap {
      CountImplies(Window(few, CreatedAt(), DAY, from), Window(many, CreatedAt(), DAY, from), listings);
    }
  }

  lemma StepKeepsLimits(w: World, a: Action)
    requires Limits(w.db, w.history) && Enabled(w, a)
    ensures Limits(Step(w, a).db, Step(w, a).history)
  {
    match a {
      case Send(user, now, account, secret) => SendKeepsLimits(w, user, now, account, secret);
      case Bounce(secret) => TokenWithdrawnKeepsLimits(w.db, secret);
      case Check(_, user, now, account, secret) => FailureKeepsLimits(w.db, now, user, account, secret);
      case Confirm(r) => TokensMarkedKeepLimits(w.db, Consume(w.requests[r].secret));
      case Create(_, user, now, vin) =>
        if InsertListing(w.db, now, user, vin).Ok? { InsertKeepsLimits(w.db, w.history, now, user, vin); }
      case FlipNext(r) =>
        var p := w.requests[r];
        if p.ids != [] && PendingAt(w.db, p.ids[0]) {
          UpdateKeepsLimits(w.db.listings, w.history, p.ids[0], w.db.listings[p.ids[0]].(status := Active));
        }
      case ChangeContact(user, email) => TokensMarkedKeepLimits(w.db, Revoke(user));
      case Remove(user, admin, id) =>
        if MayRemove(w.db, user, admin, id) {
          UpdateKeepsLimits(w.db.listings, w.history, id, w.db.listings[id].(status := Gone, vin := ""));
        }
      case Approve(user, max) => ApprovalsKeepLimits(w.db.listings, w.history, SetDealer(w.db.dealers, user, max));
      case RevokeDealer(user) => ApprovalsKeepLimits(w.db.listings, w.history, w.db.dealers - {user});
      case _ =>
    }
  }

  /** In every run: at most five unwithdrawn emails in any 24 hours and each a
      minute after the one before, at most ten recorded failures in any hour,
      no VIN live twice, daily and live listings within the largest allowance
      each seller had so far, and the cap on all sellers together for those who
      were self-serve all along. */
  lemma {:induction false} EveryRunIsLimited(dealers: Approvals, run: seq<Action>, w: World)
    requires Reaches(Start(dealers), run, w)
    ensures Limits(w.db, w.history)
    decreases |run|
  {
    if run != [] {
      var before :| Reaches(Start(dealers), run[..|run| - 1], before) && StepsTo(before, run[|run| - 1], w);
      EveryRunIsLimited(dealers, run[..|run| - 1], before);
      StepKeepsLimits(before, run[|run| - 1]);
    }
  }

  predicate NoApprovals(run: seq<Action>) {
    forall k :: 0 <= k < |run| ==> !run[k].Approve? && !run[k].RevokeDealer?
  }

  lemma {:induction false} ApprovalsStay(dealers: Approvals, run: seq<Action>, w: World)
    requires Reaches(Start(dealers), run, w) && NoApprovals(run)
    ensures w.history == [dealers]
    decreases |run|
  {
    if run != [] {
      var before :| Reaches(Start(dealers), run[..|run| - 1], before) && StepsTo(before, run[|run| - 1], w);
      ApprovalsStay(dealers, run[..|run| - 1], before);
    }
  }

  /** While no dealer is approved or revoked those are the current limits. */
  lemma CurrentLimitsHoldWithoutApprovals(dealers: Approvals, run: seq<Action>, w: World)
    requires Reaches(Start(dealers), run, w) && NoApprovals(run)
    ensures forall user :: Limited(ListingOf(user), CreatedAt(), DAY, DailyLimit(w.db, user), w.db.listings)
    ensures forall user :: Count(LiveOf(user), w.db.listings) <= ActiveLimit(w.db, user)
    ensures Limited(SelfServe(w.db.dealers), CreatedAt(), DAY, MAX_NEW_PER_DAY, w.db.listings)
  {
    EveryRunIsLimited(dealers, run, w);
    ApprovalsStay(dealers, run, w);
    forall user ensures Largest(DailyOf(user), w.history) == DailyLimit(w.db, user)
                ensures Largest(ActiveOf(user), w.history) == ActiveLimit(w.db, user) {
      assert w.history[..0] == [];
    }
    FewerKeepLimit(SelfServe(dealers), NeverApproved(w.history), MAX_NEW_PER_DAY, w.db.listings);
  }

  /** `n` cars of one seller, listed at once. */
  function Lot(user: UserId, n: nat): seq<Listing> {
    seq(n, i => Listing(user, "", Pending, 0))
  }

  lemma {:induction false} CountAll<T>(p: T -> bool, s: seq<T>)
    requires forall x :: x in s ==> p(x)
    ensures Count(p, s) == |s|
  {
    if s != [] { CountAll(p, s[1..]); }
  }

  lemma {:induction false} FillTheLot(user: UserId, m: nat, n: nat) returns (run: seq<Action>, w: World)
    requires 1 <= m <= MAX_APPROVED && n <= m
    ensures Reaches(Start(map[]), run, w) && w.db == Db(Lot(user, n), map[], [], [], map[user := m])
    ensures w.history == [map[], map[user := m]] && w.requests == map[]
  {
    var start := Start(map[]);
    if n == 0 {
      assert Reaches(start, [], start);
      ReachOneMore(start, [], start, Approve(user, m));
      run, w := [] + [Approve(user, m)], Step(start, Approve(user, m));
    } else {
      var before, v := FillTheLot(user, m, n - 1);
      var lot := Lot(user, n - 1);
      CountAll(LiveOf(user), lot);
      CountAll(Since(ListingOf(user), CreatedAt(), 0 - DAY), lot);
      assert InsertListing(v.db, 0, user, "").Ok?;
      assert Lot(user, n) == lot + [Listing(user, "", Pending, 0)];
      ReachOneMore(start, before, v, Create(1, user, 0, ""));
      run, w := before + [Create(1, user, 0, "")], Step(v, Create(1, user, 0, ""));
    }
  }

  /** The bound is reached, and the current allowance is not one: every dealer
      allowance can be used up and then revoked. */
  lemma RevokedDealersKeepTheirListings(user: UserId, m: nat) returns (run: seq<Action>, w: World)
    requires MAX_ACTIVE_PER_USER <= m <= MAX_APPROVED
    ensures Reaches(Start(map[]), run, w) && ActiveLimit(w.db, user) == MAX_ACTIVE_PER_USER
    ensures Count(LiveOf(user), w.db.listings) == m == Largest(ActiveOf(user), w.history)
  {
    var before, v := FillTheLot(user, m, m);
    CountAll(LiveOf(user), Lot(user, m));
    ReachOneMore(Start(map[]), before, v, RevokeDealer(user));
    run, w := before + [RevokeDealer(user)], Step(v, RevokeDealer(user));
    var none: seq<Approvals> := [map[]];
    var granted := none + [map[user := m]];
    assert w.history[..2] == granted && granted[..1] == none && none[..0] == [];
    assert Largest(ActiveOf(user), none) == MAX_ACTIVE_PER_USER;
    assert Largest(ActiveOf(user), granted) == m;
  }

  // ---------- publishing ---------------------------------------------------------------------

  /** The listing has this user and is past pending. */
  predicate Flipped(listings: seq<Listing>, user: UserId, id: nat) {
    id < |listings| && listings[id].user == user && listings[id].status != Pending
  }

  predicate Owns(listings: seq<Listing>, user: UserId, ids: seq<nat>) {
    forall id :: id in ids ==> id < |listings| && listings[id].user == user
  }

  /** What a request holds is its own user's, and what it is about to ingest
      was flipped and not ingested yet. */
  predicate Sound(listings: seq<Listing>, published: seq<nat>, q: Request) {
    match q
    case Publishing(user, ids) => Owns(listings, user, ids)
    case Ingesting(user, id, rest) => Owns(listings, user, rest) && Flipped(listings, user, id) && id !in published
    case _ => true
  }

  predicate NotSame(i: nat, j: nat) {
    i != j
  }

  predicate Ingests(q: Request, id: nat) {
    q.Ingesting? && q.id == id
  }

  ghost predicate Once(listings: seq<Listing>, requests: map<RequestId, Request>, published: seq<nat>) {
    && Pairwise(NotSame, published)
    && (forall id :: id in published ==> id < |listings| && listings[id].status != Pending)
    && (forall r :: r in requests ==> Sound(listings, published, requests[r]))
    && (forall r, q, id :: r in requests && q in requests && Ingests(requests[r], id) && Ingests(requests[q], id) ==> r == q)
  }

  ghost predicate BeingIngested(requests: map<RequestId, Request>, id: nat) {
    exists r :: r in requests && Ingests(requests[r], id)
  }

  /** Nothing that went active is forgotten, unless a request of its seller died. */
  ghost predicate Complete(listings: seq<Listing>, requests: map<RequestId, Request>, published: seq<nat>, crashed: set<UserId>) {
    forall id: nat :: id < |listings| && listings[id].status == Active && listings[id].user !in crashed
      ==> id in published || BeingIngested(requests, id)
  }

  /** This request will still look at the listing. */
  predicate Covers(q: Request, user: UserId, id: nat) {
    match q
    case Publish(u) => u == user
    case Publishing(u, ids) => u == user && id in ids
    case Ingesting(u, _, rest) => u == user && id in rest
    case _ => false
  }

  ghost predicate Covered(requests: map<RequestId, Request>, user: UserId, id: nat) {
    exists r :: r in requests && Covers(requests[r], user, id)
  }

  ghost predicate NoneLeft(db: Db, requests: map<RequestId, Request>, crashed: set<UserId>) {
    forall id: nat :: PendingAt(db, id) && db.listings[id].user !in crashed && IsVerified(db, db.listings[id].user)
      ==> Covered(requests, db.listings[id].user, id)
  }

  ghost predicate PublishInv(w: World) {
    && Once(w.db.listings, w.requests, w.published)
    && Complete(w.db.listings, w.requests, w.published, w.crashed)
    && NoneLeft(w.db, w.requests, w.crashed)
  }

  lemma {:induction false} PendingFromMembers(db: Db, user: UserId, from: nat, id: nat)
    ensures id in PendingFrom(db, user, from) <==> from <= id && PendingAt(db, id) && db.listings[id].user == user
    decreases |db.listings| - from
  {
    if from < |db.listings| { PendingFromMembers(db, user, from + 1, id); }
  }

  /** Changing one request keeps every cover and every ingestion it does not
      take part in. */
  lemma OthersStand(requests: map<RequestId, Request>, r: RequestId, q: Request, user: UserId, id: nat)
    requires Covered(requests, user, id) && (r in requests && Covers(requests[r], user, id) ==> Covers(q, user, id))
    ensures Covered(requests[r := q], user, id)
  {
    var o :| o in requests && Covers(requests[o], user, id);
    assert o in requests[r := q] && Covers(requests[r := q][o], user, id);
  }

  lemma IngestionsStand(requests: map<RequestId, Request>, r: RequestId, q: Request, id: nat)
    requires BeingIngested(requests, id) && (r in requests && Ingests(requests[r], id) ==> Ingests(q, id))
    ensures BeingIngested(requests[r := q], id)
  {
    var o :| o in requests && Ingests(requests[o], id);
    assert o in requests[r := q] && Ingests(requests[r := q][o], id);
  }

  /** A request moves on without touching a listing: it must not start an
      ingestion, nor drop one or a cover that still counts. */
  lemma MoveKeepsInv(w: World, r: RequestId, q: Request)
    requires PublishInv(w) && !q.Ingesting? && Sound(w.db.listings, w.published, q)
    requires r in w.requests ==> !w.requests[r].Ingesting?
    requires forall id: nat :: r in w.requests && PendingAt(w.db, id) && Covers(w.requests[r], w.db.listings[id].user, id)
               ==> Covers(q, w.db.listings[id].user, id)
    ensures PublishInv(w.(requests := w.requests[r := q]))
  {
    var to := w.requests[r := q];
    forall id: nat | id < |w.db.listings| && BeingIngested(w.requests, id) ensures BeingIngested(to, id) {
      IngestionsStand(w.requests, r, q, id);
    }
    forall id: nat | PendingAt(w.db, id) && Covered(w.requests, w.db.listings[id].user, id)
      ensures Covered(to, w.db.listings[id].user, id)
    {
      OthersStand(w.requests, r, q, w.db.listings[id].user, id);
    }
  }

  lemma ReadKeepsInv(w: World, r: RequestId)
    requires PublishInv(w) && r in w.requests && w.requests[r].Publish?
    ensures var user := w.requests[r].user;
            PublishInv(w.(requests := w.requests[r := Publishing(user, PendingFrom(w.db, user, 0))]))
  {
    var user := w.requests[r].user;
    forall id: nat ensures id in PendingFrom(w.db, user, 0) <==> PendingAt(w.db, id) && w.db.listings[id].user == user {
      PendingFromMembers(w.db, user, 0, id);
    }
    MoveKeepsInv(w, r, Publishing(user, PendingFrom(w.db, user, 0)));
  }

  lemma NoNewVerifiedKeepsInv(w: World, db: Db)
    requires PublishInv(w) && db.listings == w.db.listings
    requires forall u :: IsVerified(db, u) ==> IsVerified(w.db, u)
    ensures PublishInv(w.(db := db))
  {
    forall id: nat | PendingAt(db, id) && db.listings[id].user !in w.crashed && IsVerified(db, db.listings[id].user)
      ensures Covered(w.requests, db.listings[id].user, id)
    {
      assert PendingAt(w.db, id);
    }
  }

  lemma ConfirmKeepsInv(w: World, r: RequestId)
    requires PublishInv(w) && r in w.requests && w.requests[r].Confirming?
    ensures PublishInv(Step(w, Confirm(r)))
  {
    var p := w.requests[r];
    var v := w.(requests := w.requests[r := Publish(p.user)]);
    var to := Step(w, Confirm(r));
    MoveKeepsInv(w, r, Publish(p.user));
    forall id: nat | PendingAt(to.db, id) && to.db.listings[id].user !in to.crashed && IsVerified(to.db, to.db.listings[id].user)
      ensures Covered(to.requests, to.db.listings[id].user, id)
    {
      if to.db.listings[id].user == p.user {
        assert r in to.requests && Covers(to.requests[r], p.user, id);
      } else {
        assert PendingAt(v.db, id) && IsVerified(v.db, v.db.listings[id].user);
      }
    }
  }

  lemma GrownKeepsOnce(listings: seq<Listing>, l: Listing, requests: map<RequestId, Request>, published: seq<nat>)
    requires Once(listings, requests, published)
    ensures Once(listings + [l], requests, published)
  {
    forall r | r in requests ensures Sound(listings + [l], published, requests[r]) {
      assert Sound(listings, published, requests[r]);
    }
  }

  lemma CreateKeepsInv(w: World, r: RequestId, user: UserId, now: int, vin: string)
    requires PublishInv(w) && r !in w.requests
    ensures PublishInv(CreateStep(w, r, user, now, vin))
  {
    var made := InsertListing(w.db, now, user, vin);
    if made.Ok? {
      var to := CreateStep(w, r, user, now, vin);
      var l := Listing(user, vin, Pending, now);
      var mid := w.(requests := to.requests);
      if IsVerified(w.db, user) { MoveKeepsInv(w, r, Publish(user)); }
      assert PublishInv(mid);
      GrownKeepsOnce(w.db.listings, l, to.requests, w.published);
      forall id: nat | PendingAt(to.db, id) && to.db.listings[id].user !in to.crashed && IsVerified(to.db, to.db.listings[id].user)
        ensures Covered(to.requests, to.db.listings[id].user, id)
      {
        if id == |w.db.listings| {
          assert r in to.requests && Covers(to.requests[r], user, id);
        } else {
          assert PendingAt(mid.db, id) && IsVerified(mid.db, mid.db.listings[id].user);
        }
      }
      forall id: nat | id < |to.db.listings| && to.db.listings[id].status == Active && to.db.listings[id].user !in to.crashed
        ensures id in to.published || BeingIngested(to.requests, id)
      {
        assert mid.db.listings[id].status == Active;
      }
    }
  }

  lemma UpdatedKeepsOnce(listings: seq<Listing>, id: nat, l: Listing, requests: map<RequestId, Request>, published: seq<nat>)
    requires Once(listings, requests, published) && id < |listings|
    requires l.user == listings[id].user && l.status != Pending
    ensures Once(listings[id := l], requests, published)
  {
    forall r | r in requests ensures Sound(listings[id := l], published, requests[r]) {
      assert Sound(listings, published, requests[r]);
    }
  }

  lemma NewIngestionKeepsOnce(listings: seq<Listing>, requests: map<RequestId, Request>, published: seq<nat>,
                              r: RequestId, user: UserId, id: nat, rest: seq<nat>)
    requires Once(listings, requests, published) && r in requests && requests[r].Publishing?
    requires Flipped(listings, user, id) && Owns(listings, user, rest) && id !in published
    requires !BeingIngested(requests, id)
    ensures Once(listings, requests[r := Ingesting(user, id, rest)], published)
  {
    var to := requests[r := Ingesting(user, id, rest)];
    forall s, q, i | s in to && q in to && Ingests(to[s], i) && Ingests(to[q], i) ensures s == q {
      assert s != r ==> Ingests(requests[s], i);
      assert q != r ==> Ingests(requests[q], i);
    }
  }

  lemma FlipKeepsInv(w: World, r: RequestId)
    requires PublishInv(w) && r in w.requests && w.requests[r].Publishing?
    requires w.requests[r].ids != [] && PendingAt(w.db, w.requests[r].ids[0])
    ensures PublishInv(FlipStep(w, r))
  {
    var p := w.requests[r];
    var id, rest := p.ids[0], p.ids[1..];
    var q, to := Ingesting(p.user, id, rest), FlipStep(w, r);
    assert Sound(w.db.listings, w.published, p) && id in p.ids;
    forall x | x in rest ensures x in p.ids {}
    UpdatedKeepsOnce(w.db.listings, id, w.db.listings[id].(status := Active), w.requests, w.published);
    assert !BeingIngested(w.requests, id) by {
      forall o | o in w.requests ensures !Ingests(w.requests[o], id) {
        assert Sound(w.db.listings, w.published, w.requests[o]);
      }
    }
    NewIngestionKeepsOnce(to.db.listings, w.requests, w.published, r, p.user, id, rest);
    forall i: nat | i < |to.db.listings| && to.db.listings[i].status == Active && to.db.listings[i].user !in to.crashed
      ensures i in to.published || BeingIngested(to.requests, i)
    {
      if i == id {
        assert r in to.requests && Ingests(to.requests[r], id);
      } else if i !in w.published {
        assert w.db.listings[i].status == Active;
        IngestionsStand(w.requests, r, q, i);
      }
    }
    forall i: nat | PendingAt(to.db, i) && to.db.listings[i].user !in to.crashed && IsVerified(to.db, to.db.listings[i].user)
      ensures Covered(to.requests, to.db.listings[i].user, i)
    {
      assert PendingAt(w.db, i) && i != id;
      OthersStand(w.requests, r, q, w.db.listings[i].user, i);
    }
  }

  lemma IngestKeepsInv(w: World, r: RequestId)
    requires PublishInv(w) && r in w.requests && w.requests[r].Ingesting?
    ensures PublishInv(Step(w, Ingest(r)))
  {
    var p, to := w.requests[r], Step(w, Ingest(r));
    var q := Publishing(p.user, p.rest);
    assert Sound(w.db.listings, w.published, p);
    PairwiseAppend(NotSame, w.published, p.id);
    forall o | o in to.requests ensures Sound(to.db.listings, to.published, to.requests[o]) {
      if o != r {
        assert Sound(w.db.listings, w.published, w.requests[o]);
        assert Ingests(p, p.id);
      }
    }
    forall s, o, i | s in to.requests && o in to.requests && Ingests(to.requests[s], i) && Ingests(to.requests[o], i)
      ensures s == o
    {
      assert Ingests(w.requests[s], i) && Ingests(w.requests[o], i);
    }
    forall i: nat | i < |to.db.listings| && to.db.listings[i].status == Active && to.db.listings[i].user !in to.crashed
      ensures i in to.published || BeingIngested(to.requests, i)
    {
      if i !in to.published { IngestionsStand(w.requests, r, q, i); }
    }
    forall i: nat | PendingAt(to.db, i) && to.db.listings[i].user !in to.crashed && IsVerified(to.db, to.db.listings[i].user)
      ensures Covered(to.requests, to.db.listings[i].user, i)
    {
      OthersStand(w.requests, r, q, w.db.listings[i].user, i);
    }
  }

  lemma RemoveKeepsInv(w: World, id: nat)
    requires PublishInv(w) && id < |w.db.listings|
    ensures PublishInv(w.(db := RemoveListing(w.db, id)))
  {
    var to := w.(db := RemoveListing(w.db, id));
    UpdatedKeepsOnce(w.db.listings, id, w.db.listings[id].(status := Gone, vin := ""), w.requests, w.published);
    forall i: nat | PendingAt(to.db, i) && to.db.listings[i].user !in to.crashed && IsVerified(to.db, to.db.listings[i].user)
      ensures Covered(to.requests, to.db.listings[i].user, i)
    {
      assert PendingAt(w.db, i);
    }
  }

  /** A request ends: one that is done, or one that dies. */
  lemma EndKeepsInv(w: World, r: RequestId, crashed: set<UserId>)
    requires PublishInv(w) && r in w.requests && w.crashed <= crashed
    requires w.requests[r].user in crashed || w.requests[r].Repricing?
             || w.requests[r] == Publishing(w.requests[r].user, [])
    ensures PublishInv(w.(requests := w.requests - {r}, crashed := crashed))
  {
    var to := w.(requests := w.requests - {r}, crashed := crashed);
    var p := w.requests[r];
    assert Sound(w.db.listings, w.published, p);
    forall i: nat | i < |to.db.listings| && to.db.listings[i].status == Active && to.db.listings[i].user !in crashed
      ensures i in to.published || BeingIngested(to.requests, i)
    {
      if i !in w.published {
        var o :| o in w.requests && Ingests(w.requests[o], i);
        assert o in to.requests && Ingests(to.requests[o], i);
      }
    }
    forall i: nat | PendingAt(to.db, i) && to.db.listings[i].user !in crashed && IsVerified(to.db, to.db.listings[i].user)
      ensures Covered(to.requests, to.db.listings[i].user, i)
    {
      var u := to.db.listings[i].user;
      assert PendingAt(w.db, i) && IsVerified(w.db, u);
      var o :| o in w.requests && Covers(w.requests[o], u, i);
      assert o in to.requests && Covers(to.requests[o], u, i);
    }
  }

  lemma CheckKeepsInv(w: World, r: RequestId, user: UserId, now: int, account: string, secret: string)
    requires PublishInv(w) && r !in w.requests
    ensures PublishInv(CheckStep(w, r, user, now, account, secret))
  {
    var v := CheckToken(w.db, now, user, account, secret);
    var db := AfterCheck(w.db, now, user, v);
    NoNewVerifiedKeepsInv(w, db);
    if v == Accepted { MoveKeepsInv(w.(db := db), r, Confirming(user, secret, EmailOf(w.db, user, account))); }
  }

  lemma StepKeepsPublishing(w: World, a: Action)
    requires PublishInv(w) && Enabled(w, a)
    ensures PublishInv(Step(w, a))
  {
    match a {
      case Send(user, now, account, secret) => NoNewVerifiedKeepsInv(w, Step(w, a).db);
      case Bounce(secret) => NoNewVerifiedKeepsInv(w, Step(w, a).db);
      case Check(r, user, now, account, secret) => CheckKeepsInv(w, r, user, now, account, secret);
      case Confirm(r) => ConfirmKeepsInv(w, r);
      case Create(r, user, now, vin) => CreateKeepsInv(w, r, user, now, vin);
      case ReadPending(r) => ReadKeepsInv(w, r);
      case FlipNext(r) =>
        var p := w.requests[r];
        if p.ids == [] { EndKeepsInv(w, r, w.crashed); }
        else if PendingAt(w.db, p.ids[0]) { FlipKeepsInv(w, r); }
        else { SkipKeepsInv(w, r); }
      case Ingest(r) => IngestKeepsInv(w, r);
      case Reprice(r, user, id) => MoveKeepsInv(w, r, Repricing(user, id));
      case Reingest(r) => EndKeepsInv(w, r, w.crashed);
      case ChangeContact(user, email) => NoNewVerifiedKeepsInv(w, Step(w, a).db);
      case Remove(user, admin, id) => if MayRemove(w.db, user, admin, id) { RemoveKeepsInv(w, id); }
      case Crash(r) => EndKeepsInv(w, r, w.crashed + {w.requests[r].user});
      case Approve(user, max) => NoNewVerifiedKeepsInv(w, Step(w, a).db);
      case RevokeDealer(user) => NoNewVerifiedKeepsInv(w, Step(w, a).db);
    }
  }

  lemma SkipKeepsInv(w: World, r: RequestId)
    requires PublishInv(w) && r in w.requests && w.requests[r].Publishing?
    requires w.requests[r].ids != [] && !PendingAt(w.db, w.requests[r].ids[0])
    ensures PublishInv(FlipStep(w, r))
  {
    var p := w.requests[r];
    assert Sound(w.db.listings, w.published, p);
    forall x | x in p.ids[1..] ensures x in p.ids {}
    MoveKeepsInv(w, r, Publishing(p.user, p.ids[1..]));
  }

  lemma {:induction false} EveryRunPublishes(dealers: Approvals, run: seq<Action>, w: World)
    requires Reaches(Start(dealers), run, w)
    ensures PublishInv(w)
    decreases |run|
  {
    if run != [] {
      var before :| Reaches(Start(dealers), run[..|run| - 1], before) && StepsTo(before, run[|run| - 1], w);
      EveryRunPublishes(dealers, run[..|run| - 1], before);
      StepKeepsPublishing(before, run[|run| - 1]);
    }
  }

  /** However verifies and creates interleave, no listing is handed to
      ingestion twice; and once a verified seller's requests are over, and
      none of them died, nothing of theirs is left pending and every active
      listing was handed over. */
  lemma PublishedExactlyOnce(dealers: Approvals, run: seq<Action>, w: World, user: UserId)
    requires Reaches(Start(dealers), run, w)
    ensures Pairwise(NotSame, w.published)
    ensures IsVerified(w.db, user) && user !in w.crashed && Idle(w.requests, user)
            ==> forall id: nat :: id < |w.db.listings| && w.db.listings[id].user == user
                  ==> w.db.listings[id].status != Pending && (w.db.listings[id].status == Active ==> id in w.published)
  {
    EveryRunPublishes(dealers, run, w);
    if IsVerified(w.db, user) && user !in w.crashed && Idle(w.requests, user) {
      forall id: nat | id < |w.db.listings| && w.db.listings[id].user == user
        ensures w.db.listings[id].status != Pending && (w.db.listings[id].status == Active ==> id in w.published)
      {
        IdleHoldsNothing(w, user, id);
        assert !PendingAt(w.db, id);
      }
    }
  }

  ghost predicate Idle(requests: map<RequestId, Request>, user: UserId) {
    forall r :: r in requests ==> requests[r].user != user
  }

  lemma IdleHoldsNothing(w: World, user: UserId, id: nat)
    requires PublishInv(w) && Idle(w.requests, user) && id < |w.db.listings| && w.db.listings[id].user == user
    ensures !Covered(w.requests, user, id) && !BeingIngested(w.requests, id)
  {
    forall r | r in w.requests ensures !Covers(w.requests[r], user, id) && !Ingests(w.requests[r], id) {
      assert Sound(w.db.listings, w.published, w.requests[r]);
    }
  }
}

/** The seller requests of seller_listings.py, one after the other, over
    tables they change in place. */
module SellerService {
  import opened Options
  import opened Sequences
  import opened RollingLimit
  import opened SellerTables

  /** One line of a dealer's file: its cells without a formula, and what the
      price and the form validation would say. */
  datatype Row = Row(line: nat, vin: string, clean: bool, priceOk: bool, valid: bool)

  datatype Fault = FormulaCell | NoVin | TwiceInFile | Rejected(why: Refusal)

  datatype Outcome =
    | Removed(vin: string, id: nat)
    | Failed(line: nat, vin: string, fault: Fault)
    | Updated(line: nat, vin: string, id: nat)
    | Created(line: nat, vin: string, id: nat)

  datatype Counts = Counts(created: nat, updated: nat, removed: nat, errors: nat)

  function IsCreated(): Outcome -> bool {
    (o: Outcome) => o.Created?
  }

  function IsUpdated(): Outcome -> bool {
    (o: Outcome) => o.Updated?
  }

  function IsRemoved(): Outcome -> bool {
    (o: Outcome) => o.Removed?
  }

  function IsFailed(): Outcome -> bool {
    (o: Outcome) => o.Failed?
  }

  predicate Tallies(c: Counts, out: seq<Outcome>) {
    && c.created == Count(IsCreated(), out) && c.updated == Count(IsUpdated(), out)
    && c.removed == Count(IsRemoved(), out) && c.errors == Count(IsFailed(), out)
  }

  function Tally(c: Counts, o: Outcome): Counts {
    match o
    case Created(_, _, _) => c.(created := c.created + 1)
    case Updated(_, _, _) => c.(updated := c.updated + 1)
    case Removed(_, _) => c.(removed := c.removed + 1)
    case Failed(_, _, _) => c.(errors := c.errors + 1)
  }

  lemma TalliesAppend(c: Counts, out: seq<Outcome>, o: Outcome)
    requires Tallies(c, out)
    ensures Tallies(Tally(c, o), out + [o])
  {
    CountAppend(IsCreated(), out, o);
    CountAppend(IsUpdated(), out, o);
    CountAppend(IsRemoved(), out, o);
    CountAppend(IsFailed(), out, o);
  }

  /** The rows grow; each keeps its VIN and whether it is live. */
  predicate Kept(before: seq<Listing>, after: seq<Listing>) {
    && |before| <= |after|
    && forall i: nat :: i < |before| ==>
         after[i].user == before[i].user && after[i].vin == before[i].vin && IsLive(before[i]) == IsLive(after[i])
  }

  /** The ids a publisher flips, in order, and the table it leaves. */
  function FlipAll(db: Db, ids: seq<nat>): Db {
    if ids == [] then db
    else
      var rest := FlipAll(db, ids[..|ids| - 1]);
      if PendingAt(rest, ids[|ids| - 1]) then Flip(rest, ids[|ids| - 1]) else rest
  }

  lemma {:induction false} RemovedTally(out: seq<Outcome>)
    requires forall o :: o in out ==> o.Removed?
    ensures Tallies(Counts(0, 0, |out|, 0), out)
  {
    if out != [] {
      var init, last := out[..|out| - 1], out[|out| - 1];
      RemovedTally(init);
      TalliesAppend(Counts(0, 0, |init|, 0), init, last);
      assert init + [last] == out;
    }
  }

  lemma {:induction false} FlipAllKeeps(db: Db, ids: seq<nat>)
    ensures Kept(db.listings, FlipAll(db, ids).listings) && |FlipAll(db, ids).listings| == |db.listings|
    ensures FlipAll(db, ids) == db.(listings := FlipAll(db, ids).listings)
  {
    if ids != [] { FlipAllKeeps(db, ids[..|ids| - 1]); }
  }

  lemma {:induction false} PendingFromMember(db: Db, user: UserId, from: nat, id: nat)
    requires from <= id && PendingAt(db, id) && db.listings[id].user == user
    ensures id in PendingFrom(db, user, from)
    decreases |db.listings| - from
  {
    if from < id { PendingFromMember(db, user, from + 1, id); }
  }

  /** A flipped row differs in its status only. */
  lemma {:induction false} FlipAllFlips(db: Db, ids: seq<nat>, id: nat)
    requires PendingAt(db, id)
    ensures FlipAll(db, ids).listings[..] == FlipAll(db, ids).listings && id < |FlipAll(db, ids).listings|
    ensures FlipAll(db, ids).listings[id] == if id in ids then db.listings[id].(status := Active) else db.listings[id]
  {
    if ids != [] {
      var init, last := ids[..|ids| - 1], ids[|ids| - 1];
      assert ids == init + [last];
      FlipAllFlips(db, init, id);
    }
  }

  lemma {:induction false} FlipAllLeaves(db: Db, ids: seq<nat>, id: nat)
    requires id !in ids && PendingAt(db, id)
    ensures PendingAt(FlipAll(db, ids), id)
  {
    if ids != [] { FlipAllLeaves(db, ids[..|ids| - 1], id); }
  }

  lemma FlipAllStep(db: Db, done: seq<nat>, more: seq<nat>, id: nat)
    requires more == done + [id] && PendingAt(FlipAll(db, done), id)
    ensures FlipAll(db, more) == Flip(FlipAll(db, done), id)
  {
    assert more[..|more| - 1] == done;
  }

  lemma StillPending(db: Db, user: UserId, k: nat)
    requires k < |PendingFrom(db, user, 0)|
    ensures var ids := PendingFrom(db, user, 0); PendingAt(FlipAll(db, ids[..k]), ids[k])
  {
    var ids := PendingFrom(db, user, 0);
    PendingAscends(db, user, 0, k);
    forall j | 0 <= j < k ensures ids[j] != ids[k] { PendingAscends(db, user, 0, j); }
    FlipAllLeaves(db, ids[..k], ids[k]);
  }

  lemma FlipAllNext(db: Db, user: UserId, k: nat)
    requires k < |PendingFrom(db, user, 0)|
    ensures var ids := PendingFrom(db, user, 0);
            && PendingAt(FlipAll(db, ids[..k]), ids[k])
            && FlipAll(db, ids[..k + 1]) == Flip(FlipAll(db, ids[..k]), ids[k])
            && ids[..k + 1] == ids[..k] + [ids[k]]
  {
    var ids := PendingFrom(db, user, 0);
    var done, more := ids[..k], ids[..k + 1];
    assert more == done + [ids[k]];
    StillPending(db, user, k);
    FlipAllStep(db, done, more, ids[k]);
  }

  /** The row after the VINs that are not in the file were withdrawn. */
  function Withdrawn(l: Listing, id: nat, live: map<string, nat>, inFile: set<string>): Listing {
    if l.vin in live && live[l.vin] == id && l.vin !in inFile then l.(status := Gone, vin := "") else l
  }

  predicate AllWithdrawn(before: seq<Listing>, after: seq<Listing>, live: map<string, nat>, inFile: set<string>) {
    |after| == |before| && forall id: nat :: id < |after| ==> after[id] == Withdrawn(before[id], id, live, inFile)
  }

  /** `live` names live listings of the user by their VIN. */
  predicate NamesMine(listings: seq<Listing>, user: UserId, live: map<string, nat>) {
    forall vin :: vin in live ==>
      live[vin] < |listings| && IsMine(listings[live[vin]], user) && listings[live[vin]].vin == vin
  }

  /** Why a price update is refused, if it is. */
  function RefusesPrice(db: Db, user: UserId, id: nat, priceOk: bool): Option<Refusal> {
    if !priceOk then Some(InvalidRow)
    else if !(id < |db.listings| && IsLive(db.listings[id]) && db.listings[id].user == user) then Some(NotFound)
    else if db.listings[id].status == Active && !IsVerified(db, user) then Some(Unverified)
    else None
  }

  /** What becomes of one row, `live` being the dealer's live listings by VIN
      and `seen` the VINs of the clean rows before it. */
  function Fate(db: Db, now: int, user: UserId, row: Row, live: map<string, nat>, seen: set<string>): Outcome {
    if !row.clean then Failed(row.line, row.vin, FormulaCell)
    else if row.vin == "" then Failed(row.line, row.vin, NoVin)
    else if row.vin in seen then Failed(row.line, row.vin, TwiceInFile)
    else if row.vin in live then
      var refused := RefusesPrice(db, user, live[row.vin], row.priceOk);
      if refused.Some? then Failed(row.line, row.vin, Rejected(refused.value)) else Updated(row.line, row.vin, live[row.vin])
    else if !row.valid then Failed(row.line, row.vin, Rejected(InvalidRow))
    else
      var made := InsertListing(db, now, user, row.vin);
      if made.Refused? then Failed(row.line, row.vin, Rejected(made.why)) else Created(row.line, row.vin, |db.listings|)
  }

  function WithNew(db: Db, now: int, user: UserId, o: Outcome): Db {
    db.(listings := db.listings + [Listing(user, o.vin, Pending, now)])
  }

  /** Once the contact is confirmed, a new listing publishes all that are pending. */
  function RowPublishes(before: Db, now: int, user: UserId, o: Outcome): seq<nat> {
    if o.Created? && IsVerified(before, user) then PendingFrom(WithNew(before, now, user, o), user, 0) else []
  }

  /** What went to ingestion so far, in order, and what the public table has. */
  datatype Public = Public(ingested: seq<nat>, shown: set<nat>)

  predicate Publishes(before: Public, after: Public, ids: seq<nat>) {
    after.ingested == before.ingested + ids && after.shown == before.shown + set id | id in ids
  }

  lemma PublishOne(before: Public, after: Public, done: seq<nat>, more: seq<nat>, id: nat)
    requires Publishes(before, after, done) && more == done + [id]
    ensures Publishes(before, Public(after.ingested + [id], after.shown + {id}), more)
  {
  }

  /** `publics` is what was public before each row and after the last. */
  ghost predicate RowsPublish(publics: seq<Public>, tables: seq<Db>, out: seq<Outcome>, now: int, user: UserId) {
    && |publics| == |tables| == |out| + 1
    && forall i :: 0 <= i < |out| ==> Publishes(publics[i], publics[i + 1], RowPublishes(tables[i], now, user, out[i]))
  }

  lemma OneMorePublished(publics: seq<Public>, tables: seq<Db>, out: seq<Outcome>, now: int, user: UserId, o: Outcome,
                         after: Db, public: Public)
    requires RowsPublish(publics, tables, out, now, user)
    requires Publishes(publics[|out|], public, RowPublishes(tables[|out|], now, user, o))
    ensures RowsPublish(publics + [public], tables + [after], out + [o], now, user)
  {
    var ps, ts, os := publics + [public], tables + [after], out + [o];
    forall i | 0 <= i < |os| ensures Publishes(ps[i], ps[i + 1], RowPublishes(ts[i], now, user, os[i])) {
      if i < |out| { assert Publishes(publics[i], publics[i + 1], RowPublishes(tables[i], now, user, out[i])); }
    }
  }

  /** A row that created a listing left it there, with the rows before it as
      they were but for being published; any other row left the tables alone. */
  predicate RowLeaves(before: Db, after: Db, now: int, user: UserId, o: Outcome) {
    && Kept(before.listings, after.listings) && after.contacts == before.contacts && after.dealers == before.dealers
    && (if o.Created?
        then o.id == |before.listings| && |after.listings| == o.id + 1
             && after.listings[o.id] == Listing(user, o.vin, if IsVerified(before, user) then Active else Pending, now)
             && after == FlipAll(WithNew(before, now, user, o), RowPublishes(before, now, user, o))
        else after == before)
  }

  function SeenBefore(rows: seq<Row>, n: nat): set<string>
    requires n <= |rows|
  {
    set r | r in rows[..n] && r.clean && r.vin != "" :: r.vin
  }

  ghost predicate RowDone(before: Db, after: Db, now: int, user: UserId, row: Row, live: map<string, nat>, seen: set<string>,
                          o: Outcome) {
    o == Fate(before, now, user, row, live, seen) && RowLeaves(before, after, now, user, o)
  }

  /** `tables` are the tables before each row and after the last. */
  ghost predicate RowsDone(tables: seq<Db>, out: seq<Outcome>, now: int, user: UserId, rows: seq<Row>, live: map<string, nat>) {
    && |tables| == |out| + 1 && |out| <= |rows|
    && forall i :: 0 <= i < |out| ==> RowDone(tables[i], tables[i + 1], now, user, rows[i], live, SeenBefore(rows, i), out[i])
  }

  lemma KeptTwice(a: seq<Listing>, b: seq<Listing>, c: seq<Listing>)
    requires Kept(a, b) && Kept(b, c)
    ensures Kept(a, c)
  {
  }

  lemma {:induction false} RowsKeep(tables: seq<Db>, out: seq<Outcome>, now: int, user: UserId, rows: seq<Row>,
                                    live: map<string, nat>, i: nat, j: nat)
    requires RowsDone(tables, out, now, user, rows, live) && i <= j <= |out|
    ensures Kept(tables[i].listings, tables[j].listings)
    ensures tables[j].contacts == tables[i].contacts && tables[j].dealers == tables[i].dealers
    decreases j
  {
    if i < j {
      RowsKeep(tables, out, now, user, rows, live, i, j - 1);
      assert RowDone(tables[j - 1], tables[j], now, user, rows[j - 1], live, SeenBefore(rows, j - 1), out[j - 1]);
      KeptTwice(tables[i].listings, tables[j - 1].listings, tables[j].listings);
    }
  }

  lemma OneMoreRow(tables: seq<Db>, out: seq<Outcome>, now: int, user: UserId, rows: seq<Row>, live: map<string, nat>,
                   o: Outcome, after: Db)
    requires RowsDone(tables, out, now, user, rows, live) && |out| < |rows|
    requires RowDone(tables[|out|], after, now, user, rows[|out|], live, SeenBefore(rows, |out|), o)
    ensures RowsDone(tables + [after], out + [o], now, user, rows, live)
  {
    var ts, os := tables + [after], out + [o];
    forall i | 0 <= i < |os| ensures RowDone(ts[i], ts[i + 1], now, user, rows[i], live, SeenBefore(rows, i), os[i]) {
      if i < |out| { assert RowDone(tables[i], tables[i + 1], now, user, rows[i], live, SeenBefore(rows, i), out[i]); }
    }
  }

  /** The state of an import after some rows. */
  ghost predicate Imported(tables: seq<Db>, publics: seq<Public>, before: seq<Outcome>, results: seq<Outcome>, out: seq<Outcome>,
                           counts: Counts, now: int, user: UserId, rows: seq<Row>, live: map<string, nat>) {
    && out == before + results && Tallies(counts, out)
    && RowsDone(tables, results, now, user, rows, live) && RowsPublish(publics, tables, results, now, user)
  }

  lemma OneMoreImported(tables: seq<Db>, publics: seq<Public>, before: seq<Outcome>, results: seq<Outcome>, out: seq<Outcome>,
                        counts: Counts, now: int, user: UserId, rows: seq<Row>, live: map<string, nat>,
                        o: Outcome, after: Db, public: Public)
    requires Imported(tables, publics, before, results, out, counts, now, user, rows, live) && |results| < |rows|
    requires RowDone(tables[|results|], after, now, user, rows[|results|], live, SeenBefore(rows, |results|), o)
    requires Publishes(publics[|results|], public, RowPublishes(tables[|results|], now, user, o))
    ensures Imported(tables + [after], publics + [public], before, results + [o], out + [o], Tally(counts, o), now, user, rows, live)
  {
    TalliesAppend(counts, out, o);
    OneMoreRow(tables, results, now, user, rows, live, o, after);
    OneMorePublished(publics, tables, results, now, user, o, after, public);
    assert out + [o] == before + (results + [o]);
  }

  /** Rows are created, updated or failed, and none of them removes anything. */
  lemma {:induction false} RowsAddUp(before: seq<Outcome>, results: seq<Outcome>, start: Counts, counts: Counts)
    requires Tallies(start, before) && Tallies(counts, before + results)
    requires forall i :: 0 <= i < |results| ==> !results[i].Removed?
    ensures counts.removed == start.removed
    ensures counts.created + counts.updated + counts.errors == start.created + start.updated + start.errors + |results|
  {
    if results == [] {
      assert before + results == before;
    } else {
      var init, last := results[..|results| - 1], results[|results| - 1];
      assert before + results == before + init + [last];
      var c := Counts(Count(IsCreated(), before + init), Count(IsUpdated(), before + init), Count(IsRemoved(), before + init),
                      Count(IsFailed(), before + init));
      TalliesAppend(c, before + init, last);
      RowsAddUp(before, init, start, c);
    }
  }

  lemma RowsRemoveNothing(tables: seq<Db>, out: seq<Outcome>, now: int, user: UserId, rows: seq<Row>, live: map<string, nat>)
    requires RowsDone(tables, out, now, user, rows, live)
    ensures forall i :: 0 <= i < |out| ==> !out[i].Removed?
  {
    forall i | 0 <= i < |out| ensures !out[i].Removed? {
      assert RowDone(tables[i], tables[i + 1], now, user, rows[i], live, SeenBefore(rows, i), out[i]);
    }
  }

  lemma ImportEnds(tables: seq<Db>, publics: seq<Public>, before: seq<Outcome>, results: seq<Outcome>, out: seq<Outcome>,
                   start: Counts, counts: Counts, now: int, user: UserId, rows: seq<Row>, live: map<string, nat>)
    requires Imported(tables, publics, before, results, out, counts, now, user, rows, live) && Tallies(start, before)
    ensures before <= out && |out| == |before| + |results| && out[|before|..] == results
    ensures counts.removed == start.removed
    ensures counts.created + counts.updated + counts.errors == start.created + start.updated + start.errors + |results|
  {
    RowsRemoveNothing(tables, results, now, user, rows, live);
    RowsAddUp(before, results, start, counts);
  }

  lemma SeenGrows(rows: seq<Row>, n: nat)
    requires n < |rows|
    ensures SeenBefore(rows, n + 1)
         == if rows[n].clean && rows[n].vin != "" then SeenBefore(rows, n) + {rows[n].vin} else SeenBefore(rows, n)
  {
    assert rows[..n + 1] == rows[..n] + [rows[n]];
  }

  /** For the VINs of the file, `live` names the dealer's live listing with
      that VIN, where there is one. */
  ghost predicate LiveByVin(listings: seq<Listing>, user: UserId, rows: seq<Row>, live: map<string, nat>) {
    && NamesMine(listings, user, live)
    && forall vin :: vin != "" && Mentions(rows, vin)
         ==> (vin in live <==> exists id: nat :: id < |listings| && IsMine(listings[id], user) && listings[id].vin == vin)
  }

  predicate IsWithdrawn(listings: seq<Listing>, id: nat, live: map<string, nat>, inFile: set<string>) {
    && id < |listings| && listings[id].vin in live && live[listings[id].vin] == id && listings[id].vin !in inFile
  }

  /** The report of one of the first `n` listings as withdrawn. */
  predicate RemovedFor(listings: seq<Listing>, n: nat, o: Outcome, live: map<string, nat>, inFile: set<string>) {
    o.Removed? && o.id < n && IsWithdrawn(listings, o.id, live, inFile) && o.vin == listings[o.id].vin
  }

  predicate Ascends(out: seq<Outcome>) {
    forall i, j :: 0 <= i < j < |out| ==> out[i].Removed? && out[j].Removed? && out[i].id < out[j].id
  }

  /** Exactly the withdrawn ones of the first `n` listings, in their order. */
  ghost predicate Reports(listings: seq<Listing>, n: nat, out: seq<Outcome>, live: map<string, nat>, inFile: set<string>) {
    && (forall o :: o in out <==> RemovedFor(listings, n, o, live, inFile))
    && Ascends(out)
  }

  lemma NextReport(listings: seq<Listing>, n: nat, m: nat, out: seq<Outcome>, live: map<string, nat>, inFile: set<string>)
    requires m == n + 1 && n < |listings| && Reports(listings, n, out, live, inFile)
    ensures Reports(listings, m, if IsWithdrawn(listings, n, live, inFile) then out + [Removed(listings[n].vin, n)] else out,
                    live, inFile)
  {
    forall i | 0 <= i < |out| ensures out[i].Removed? && out[i].id < n { assert out[i] in out; }
    var x := Removed(listings[n].vin, n);
    forall o ensures RemovedFor(listings, m, o, live, inFile)
                <==> RemovedFor(listings, n, o, live, inFile) || (o == x && IsWithdrawn(listings, n, live, inFile)) {}
  }

  /** Whose listings the import withdraws. */
  predicate Missing(l: Listing, user: UserId, rows: seq<Row>, removeMissing: bool) {
    removeMissing && IsMine(l, user) && !Mentions(rows, l.vin)
  }

  /** The report of a withdrawn listing names its VIN and its id. */
  predicate ReportsMissing(before: seq<Listing>, o: Outcome, user: UserId, rows: seq<Row>, removeMissing: bool) {
    o.Removed? && o.id < |before| && o.vin == before[o.id].vin && Missing(before[o.id], user, rows, removeMissing)
  }

  lemma WithdrawnAreMissing(before: seq<Listing>, user: UserId, rows: seq<Row>, live: map<string, nat>, inFile: set<string>)
    requires NamesMine(before, user, live)
    requires forall id: nat :: id < |before| && IsMine(before[id], user) ==> before[id].vin in live && live[before[id].vin] == id
    requires forall vin :: vin in inFile <==> vin != "" && Mentions(rows, vin)
    ensures forall id: nat :: IsWithdrawn(before, id, live, inFile) <==> id < |before| && Missing(before[id], user, rows, true)
    ensures forall o :: RemovedFor(before, |before|, o, live, inFile) <==> ReportsMissing(before, o, user, rows, true)
  {
    forall id: nat ensures IsWithdrawn(before, id, live, inFile) <==> id < |before| && Missing(before[id], user, rows, true) {}
  }

  /** What became of each listing: withdrawn if missing, else as it was. */
  ghost predicate Fates(before: seq<Listing>, after: seq<Listing>, user: UserId, rows: seq<Row>, removeMissing: bool) {
    && |before| <= |after|
    && forall id: nat :: id < |before| ==>
         IsLive(after[id]) == (IsLive(before[id]) && !Missing(before[id], user, rows, removeMissing))
  }

  /** Exactly the missing ones are withdrawn, before any row is read. */
  ghost predicate Withdraws(before: seq<Listing>, after: seq<Listing>, user: UserId, rows: seq<Row>, removeMissing: bool) {
    && |after| == |before|
    && forall id: nat :: id < |before| ==>
         after[id] == if Missing(before[id], user, rows, removeMissing) then before[id].(status := Gone, vin := "") else before[id]
  }

  lemma WithdrawsOf(before: seq<Listing>, after: seq<Listing>, user: UserId, rows: seq<Row>, live: map<string, nat>,
                    inFile: set<string>, removeMissing: bool)
    requires if removeMissing then AllWithdrawn(before, after, live, inFile) else after == before
    requires NamesMine(before, user, live)
    requires forall id: nat :: id < |before| && IsMine(before[id], user) ==> before[id].vin in live && live[before[id].vin] == id
    requires forall vin :: vin in inFile <==> vin != "" && Mentions(rows, vin)
    ensures Withdraws(before, after, user, rows, removeMissing)
  {
  }

  lemma FatesOf(before: seq<Listing>, middle: seq<Listing>, after: seq<Listing>, user: UserId, rows: seq<Row>, removeMissing: bool)
    requires Withdraws(before, middle, user, rows, removeMissing) && Kept(middle, after)
    ensures Fates(before, after, user, rows, removeMissing)
  {
    forall id: nat | id < |before|
      ensures IsLive(after[id]) == (IsLive(before[id]) && !Missing(before[id], user, rows, removeMissing))
    {
      assert IsLive(after[id]) == IsLive(middle[id]);
    }
  }

  class Sellers {
    var listings: seq<Listing>
    var contacts: map<UserId, Contact>
    var tokens: seq<Token>
    var failures: seq<Failure>
    var dealers: map<UserId, nat>
    var ingested: seq<nat>
    /** The ids that have a row in the public listings table. */
    var shown: set<nat>

    function Rows(): Db
      reads this
    {
      Db(listings, contacts, tokens, failures, dealers)
    }

    function Shows(): Public
      reads this
    {
      Public(ingested, shown)
    }

    constructor (approved: map<UserId, nat>)
      ensures Rows() == Db([], map[], [], [], approved) && ingested == [] && shown == {}
    {
      listings, contacts, tokens, failures, dealers := [], map[], [], [], approved;
      ingested, shown := [], {};
    }

    /** Counts the emails of the last day and remembers the latest. */
    method SendLimits(now: int, user: UserId) returns (sent: nat, last: Option<int>)
      ensures sent == |SentTimes(Rows(), user, now - DAY)|
      ensures SentWithin(SentTimes(Rows(), user, now - DAY), now, RESEND_MIN_GAP)
         <==> last.Some? && now - last.value < RESEND_MIN_GAP
    {
      ghost var p := Since(TokenOf(user), SentAt(), now - DAY);
      sent, last := 0, None;
      for n := 0 to |tokens|
        invariant sent + |Filter(p, tokens[n..])| == |Filter(p, tokens)|
        invariant last.None? ==> forall i :: 0 <= i < n ==> !p(tokens[i])
        invariant last.Some? ==> exists i :: 0 <= i < n && p(tokens[i]) && tokens[i].created == last.value
        invariant last.Some? ==> forall i :: 0 <= i < n && p(tokens[i]) ==> tokens[i].created <= last.value
      {
        var t := tokens[n];
        assert tokens[n..][0] == t && tokens[n..][1..] == tokens[n + 1..];
        if t.user == user && t.created >= now - DAY {
          sent := sent + 1;
          if last.None? || t.created > last.value { last := Some(t.created); }
        }
      }
      assert tokens[|tokens|..] == [];
      forall t ensures t in Filter(p, tokens) <==> t in tokens && p(t) { FilterMembers(p, tokens, t); }
      if last.Some? && now - last.value < RESEND_MIN_GAP {
        ghost var i :| 0 <= i < |tokens| && p(tokens[i]) && tokens[i].created == last.value;
        assert tokens[i] in Filter(p, tokens);
      }
    }

    method IssueTokenTo(now: int, user: UserId, email: string, secret: string) returns (refused: Option<Refusal>)
      modifies this
      ensures var to := IssueToken(old(Rows()), now, user, email, secret);
              if to.Ok? then refused == None && Rows() == to.value
              else refused == Some(to.why) && Rows() == old(Rows())
      ensures ingested == old(ingested) && shown == old(shown)
    {
      var sent, last := SendLimits(now, user);
      if sent >= MAX_SENDS_PER_DAY { return Some(TooManyEmails); }
      if last.Some? && now - last.value < RESEND_MIN_GAP { return Some(TooSoon); }
      tokens := tokens + [Token(user, email, secret, now, now + DAY, false)];
      return None;
    }

    /** An email the mailer refused is withdrawn again. */
    method Withdraw(secret: string)
      modifies this`tokens
      ensures Rows() == WithdrawToken(old(Rows()), secret)
    {
      tokens := Filter(OtherSecret(secret), tokens);
    }

    method ChangeContact(user: UserId, email: string)
      modifies this`contacts, this`tokens
      ensures Rows() == SetContact(old(Rows()), user, email)
    {
      if user in contacts && SameAddress(contacts[user].email, email) { return; }
      contacts := contacts[user := Contact(email, false)];
      tokens := Map(Revoke(user), tokens);
    }

    /** Publishes what is pending when it starts, each listing once. */
    method PublishPending(user: UserId) returns (n: nat)
      modifies this
      ensures Rows() == FlipAll(old(Rows()), PendingFrom(old(Rows()), user, 0))
      ensures ingested == old(ingested) + PendingFrom(old(Rows()), user, 0)
      ensures shown == old(shown) + set id | id in PendingFrom(old(Rows()), user, 0)
      ensures n == |PendingFrom(old(Rows()), user, 0)|
    {
      var ids := PendingFrom(Rows(), user, 0);
      ghost var before := Rows();
      n := 0;
      for k := 0 to |ids|
        invariant n == k && Rows() == FlipAll(before, ids[..k])
        invariant Publishes(old(Shows()), Shows(), ids[..k])
      {
        var id := ids[k];
        FlipAllNext(before, user, k);
        PublishOne(old(Shows()), Shows(), ids[..k], ids[..k + 1], id);
        listings := listings[id := listings[id].(status := Active)];
        ingested, shown := ingested + [id], shown + {id};
        n := n + 1;
      }
      assert ids[..|ids|] == ids;
    }

    method Create(now: int, user: UserId, vin: string, valid: bool) returns (r: Result<nat>)
      modifies this
      ensures Kept(old(listings), listings)
      ensures r.Ok? ==> r.value == |old(listings)| && |listings| == |old(listings)| + 1
                        && listings[r.value] == Listing(user, vin, if IsVerified(old(Rows()), user) then Active else Pending, now)
      ensures r.Ok? ==> contacts == old(contacts) && tokens == old(tokens) && failures == old(failures)
                        && dealers == old(dealers)
      ensures r.Refused? ==> Rows() == old(Rows()) && ingested == old(ingested) && shown == old(shown)
      ensures r.Refused? ==> if !valid then r.why == InvalidRow
                              else var made := InsertListing(old(Rows()), now, user, vin); made.Refused? && r.why == made.why
      ensures r.Ok? <==> valid && InsertListing(old(Rows()), now, user, vin).Ok?
      ensures r.Ok? ==>
                var made := InsertListing(old(Rows()), now, user, vin).value;
                var ids := if IsVerified(made, user) then PendingFrom(made, user, 0) else [];
                Rows() == FlipAll(made, ids) && ingested == old(ingested) + ids && shown == old(shown) + set id | id in ids
    {
      if !valid { return Refused(InvalidRow); }
      var made := InsertListing(Rows(), now, user, vin);
      if made.Refused? { return Refused(made.why); }
      var id := |listings|;
      listings := listings + [Listing(user, vin, Pending, now)];
      if IsVerified(Rows(), user) {
        PendingFromMember(Rows(), user, 0, id);
        FlipAllKeeps(Rows(), PendingFrom(Rows(), user, 0));
        FlipAllFlips(Rows(), PendingFrom(Rows(), user, 0), id);
        var _ := PublishPending(user);
      }
      return Ok(id);
    }

    method Remove(user: UserId, admin: bool, id: nat) returns (refused: Option<Refusal>)
      modifies this`listings, this`shown
      ensures MayRemove(old(Rows()), user, admin, id)
              ==> refused == None && Rows() == RemoveListing(old(Rows()), id) && shown == old(shown) - {id}
      ensures !MayRemove(old(Rows()), user, admin, id)
              ==> refused == Some(NotFound) && Rows() == old(Rows()) && shown == old(shown)
    {
      if !MayRemove(Rows(), user, admin, id) { return Some(NotFound); }
      listings := listings[id := listings[id].(status := Gone, vin := "")];
      shown := shown - {id};
      return None;
    }

    /** update_price leaves the row where it is; a live listing's price needs
        a confirmed contact. */
    method UpdatePrice(user: UserId, id: nat, priceOk: bool) returns (refused: Option<Refusal>)
      ensures refused == RefusesPrice(Rows(), user, id, priceOk)
    {
      if !priceOk { return Some(InvalidRow); }
      if !MayRemove(Rows(), user, false, id) { return Some(NotFound); }
      if listings[id].status == Active && !IsVerified(Rows(), user) { return Some(Unverified); }
      return None;
    }

    /** verify: the check, the confirmation, and then what is pending. */
    method Verify(now: int, user: UserId, account: string, secret: string) returns (r: Result<nat>)
      modifies this
      ensures CheckToken(old(Rows()), now, user, account, secret) != Accepted
              ==> r == Refused(if CheckToken(old(Rows()), now, user, account, secret) == Throttled then TooManyAttempts else BadLink)
                  && Rows() == AfterCheck(old(Rows()), now, user, CheckToken(old(Rows()), now, user, account, secret))
                  && ingested == old(ingested) && shown == old(shown)
      ensures CheckToken(old(Rows()), now, user, account, secret) == Accepted
              ==> var db := ConfirmContact(old(Rows()), user, secret);
                  && r == Ok(|PendingFrom(db, user, 0)|) && Rows() == FlipAll(db, PendingFrom(db, user, 0))
                  && ingested == old(ingested) + PendingFrom(db, user, 0)
                  && shown == old(shown) + set id | id in PendingFrom(db, user, 0)
    {
      var v := CheckToken(Rows(), now, user, account, secret);
      if v == Throttled { return Refused(TooManyAttempts); }
      if v == NoGood {
        failures := failures + [Failure(user, now)];
        return Refused(BadLink);
      }
      tokens := Map(Consume(secret), tokens);
      if user in contacts { contacts := contacts[user := contacts[user].(verified := true)]; }
      var n := PublishPending(user);
      return Ok(n);
    }

    /** The dealer's live listings by VIN. */
    method LiveVins(user: UserId) returns (live: map<string, nat>)
      requires Pairwise(VinsApart, listings)
      ensures forall id: nat :: id < |listings| && IsMine(listings[id], user)
                ==> listings[id].vin in live && live[listings[id].vin] == id
      ensures NamesMine(listings, user, live)
    {
      live := map[];
      for n := 0 to |listings|
        invariant forall id: nat :: id < n && IsMine(listings[id], user)
                    ==> listings[id].vin in live && live[listings[id].vin] == id
        invariant NamesMine(listings[..n], user, live)
      {
        if IsMine(listings[n], user) {
          assert forall id: nat :: id < n ==> VinsApart(listings[id], listings[n]);
          live := live[listings[n].vin := n];
        }
      }
      assert listings[..|listings|] == listings;
    }

    /** Withdraws the live listings whose VIN the file does not mention. */
    method RemoveMissing(user: UserId, live: map<string, nat>, inFile: set<string>)
      returns (left: map<string, nat>, out: seq<Outcome>, counts: Counts)
      requires NamesMine(listings, user, live)
      modifies this`listings, this`shown
      ensures AllWithdrawn(old(listings), listings, live, inFile)
      ensures left == live - (live.Keys - inFile)
      ensures Reports(old(listings), |old(listings)|, out, live, inFile)
      ensures forall id :: id in shown <==> id in old(shown) && !IsWithdrawn(old(listings), id, live, inFile)
      ensures counts == Counts(0, 0, |out|, 0)
    {
      left, out, counts := live - (live.Keys - inFile), [], Counts(0, 0, 0, 0);
      for id := 0 to |listings|
        invariant |listings| == |old(listings)|
        invariant forall i: nat :: i < id ==> listings[i] == Withdrawn(old(listings)[i], i, live, inFile)
        invariant forall i: nat :: id <= i < |listings| ==> listings[i] == old(listings)[i]
        invariant Reports(old(listings), id, out, live, inFile)
        invariant forall i :: i in shown <==> i in old(shown) && !(i < id && IsWithdrawn(old(listings), i, live, inFile))
        invariant counts == Counts(0, 0, |out|, 0)
      {
        NextReport(old(listings), id, id + 1, out, live, inFile);
        var vin := listings[id].vin;
        if vin in live && live[vin] == id && vin !in inFile {
          var _ := Remove(user, false, id);
          out := out + [Removed(vin, id)];
          counts := counts.(removed := counts.removed + 1);
        }
      }
    }

    /** One row of the file: an error, an update or a new listing. */
    method ImportRow(now: int, user: UserId, row: Row, live: map<string, nat>, seen: set<string>)
      returns (o: Outcome, nowSeen: set<string>)
      modifies this
      ensures RowDone(old(Rows()), Rows(), now, user, row, live, seen, o)
      ensures nowSeen == if row.clean && row.vin != "" then seen + {row.vin} else seen
      ensures Publishes(old(Shows()), Shows(), RowPublishes(old(Rows()), now, user, o))
    {
      if !row.clean { return Failed(row.line, row.vin, FormulaCell), seen; }
      if row.vin == "" { return Failed(row.line, row.vin, NoVin), seen; }
      if row.vin in seen { return Failed(row.line, row.vin, TwiceInFile), seen + {row.vin}; }
      nowSeen := seen + {row.vin};
      if row.vin in live {
        var refused := UpdatePrice(user, live[row.vin], row.priceOk);
        o := if refused.None? then Updated(row.line, row.vin, live[row.vin])
             else Failed(row.line, row.vin, Rejected(refused.value));
      } else {
        var made := Create(now, user, row.vin, row.valid);
        o := if made.Ok? then Created(row.line, row.vin, made.value)
             else Failed(row.line, row.vin, Rejected(made.why));
      }
    }

    method ImportRows(now: int, user: UserId, rows: seq<Row>, live: map<string, nat>, before: seq<Outcome>, start: Counts)
      returns (out: seq<Outcome>, counts: Counts, ghost tables: seq<Db>, ghost publics: seq<Public>)
      requires Tallies(start, before)
      modifies this
      ensures Tallies(counts, out) && before <= out && |out| == |before| + |rows|
      ensures RowsDone(tables, out[|before|..], now, user, rows, live)
      ensures tables[0] == old(Rows()) && tables[|rows|] == Rows()
      ensures RowsPublish(publics, tables, out[|before|..], now, user) && publics[0] == old(Shows()) && publics[|rows|] == Shows()
      ensures counts.removed == start.removed
      ensures counts.created + counts.updated + counts.errors
           == start.created + start.updated + start.errors + |rows|
    {
      ghost var results := [];
      out, counts, tables, publics := before, start, [Rows()], [Shows()];
      var seen: set<string> := {};
      for n := 0 to |rows|
        invariant |results| == n && seen == SeenBefore(rows, n)
        invariant Imported(tables, publics, before, results, out, counts, now, user, rows, live)
        invariant tables[0] == old(Rows()) && tables[n] == Rows() && publics[0] == old(Shows()) && publics[n] == Shows()
      {
        var o;
        o, seen := ImportRow(now, user, rows[n], live, seen);
        SeenGrows(rows, n);
        OneMoreImported(tables, publics, before, results, out, counts, now, user, rows, live, o, Rows(), Shows());
        results, tables, publics := results + [o], tables + [Rows()], publics + [Shows()];
        out, counts := out + [o], Tally(counts, o);
      }
      ImportEnds(tables, publics, before, results, out, start, counts, now, user, rows, live);
    }

    /** What an import withdraws before it reads a row, and the dealer's live
        listings that are left, by VIN. */
    method Prepare(user: UserId, rows: seq<Row>, removeMissing: bool)
      returns (left: map<string, nat>, withdrawn: seq<Outcome>, counts: Counts)
      requires Pairwise(VinsApart, listings)
      modifies this`listings, this`shown
      ensures Withdraws(old(listings), listings, user, rows, removeMissing) && LiveByVin(old(listings), user, rows, left)
      ensures forall o :: o in withdrawn <==> ReportsMissing(old(listings), o, user, rows, removeMissing)
      ensures Ascends(withdrawn) && counts == Counts(0, 0, |withdrawn|, 0) && Tallies(counts, withdrawn)
      ensures forall id :: id in shown
                <==> id in old(shown) && !(id < |old(listings)| && Missing(old(listings)[id], user, rows, removeMissing))
    {
      var mine := LiveVins(user);
      var inFile := set r | r in rows && r.vin != "" :: r.vin;
      assert forall vin :: vin in inFile <==> vin != "" && Mentions(rows, vin);
      WithdrawnAreMissing(listings, user, rows, mine, inFile);
      left, withdrawn, counts := mine, [], Counts(0, 0, 0, 0);
      if removeMissing {
        left, withdrawn, counts := RemoveMissing(user, mine, inFile);
      }
      RemovedTally(withdrawn);
      WithdrawsOf(old(listings), listings, user, rows, mine, inFile, removeMissing);
    }

    /** import_inventory: every row of the file gets its outcome, the counts
        add up, and no listing whose VIN the file mentions is withdrawn, not
        even one on a rejected row. */
    method ImportInventory(now: int, user: UserId, rows: seq<Row>, removeMissing: bool)
      returns (out: seq<Outcome>, counts: Counts, ghost removed: nat, ghost tables: seq<Db>, ghost publics: seq<Public>,
               ghost live: map<string, nat>)
      requires Pairwise(VinsApart, listings)
      modifies this
      ensures Tallies(counts, out) && removed <= |out|
      ensures forall o :: o in out[..removed] <==> ReportsMissing(old(listings), o, user, rows, removeMissing)
      ensures Ascends(out[..removed])
      ensures |out| == removed + |rows| && RowsDone(tables, out[removed..], now, user, rows, live)
      ensures tables[|rows|] == Rows() && tables[0].contacts == old(contacts) && tables[0].dealers == old(dealers)
      ensures Withdraws(old(listings), tables[0].listings, user, rows, removeMissing)
      ensures LiveByVin(old(listings), user, rows, live)
      ensures RowsPublish(publics, tables, out[removed..], now, user) && publics[|rows|] == Shows()
      ensures publics[0].ingested == old(ingested)
      ensures forall id :: id in publics[0].shown
                <==> id in old(shown) && !(id < |old(listings)| && Missing(old(listings)[id], user, rows, removeMissing))
      ensures counts.removed == removed && counts.created + counts.updated + counts.errors == |rows|
      ensures Fates(old(listings), listings, user, rows, removeMissing)
    {
      var left, withdrawn, start := Prepare(user, rows, removeMissing);
      removed, live := |withdrawn|, left;
      out, counts, tables, publics := ImportRows(now, user, rows, left, withdrawn, start);
      RowsKeep(tables, out[removed..], now, user, rows, left, 0, |rows|);
      FatesOf(old(listings), tables[0].listings, listings, user, rows, removeMissing);
      assert out[..removed] == withdrawn;
    }
  }

  predicate IsMine(l: Listing, user: UserId) {
    l.user == user && l.vin != "" && IsLive(l)
  }

  predicate Mentions(rows: seq<Row>, vin: string) {
    exists r :: r in rows && r.vin == vin
  }

  lemma {:induction false} PendingAscends(db: Db, user: UserId, from: nat, k: nat)
    requires k < |PendingFrom(db, user, from)|
    ensures var ids := PendingFrom(db, user, from);
            && from <= ids[k] && PendingAt(db, ids[k])
            && forall j :: k < j < |ids| ==> ids[k] < ids[j]
    decreases |db.listings| - from
  {
    if from < |db.listings| {
      var rest := PendingFrom(db, user, from + 1);
      var head := if PendingAt(db, from) && db.listings[from].user == user then [from] else [];
      assert PendingFrom(db, user, from) == head + rest;
      if k >= |head| {
        PendingAscends(db, user, from + 1, k - |head|);
      } else {
        forall j | 0 <= j < |rest| ensures from < rest[j] { PendingAscends(db, user, from + 1, j); }
      }
    }
  }
}
