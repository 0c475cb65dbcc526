/** Who holds a paid plan, over every run of webhooks, reconciler corrections
    and the passing of time. */
module Entitlement {
  import opened Options
  import opened Billing
  import Reconcile

  /** Free below Starter below Pro. */
  predicate AtMost(p: Plan, q: Plan) {
    (p == Pro ==> q == Pro) && (p == Starter ==> q == Starter || q == Pro)
  }

  /** What the plan stored for `user` may be at time `now`: free, or carried
      by an active or trialing row of theirs, and never below what a fresh
      evaluation would grant, now or later. */
  ghost predicate Backed(db: Db, user: int, now: int)
    requires user in db.users
  {
    && (db.users[user] != Free ==>
          exists id :: id in db.subs && db.subs[id].user == user && db.subs[id].plan == db.users[user]
                       && (db.subs[id].status == "active" || db.subs[id].status == "trialing"))
    && forall t :: t >= now ==> AtMost(BestPlan(db.subs, user, t), db.users[user])
  }

  ghost predicate Inv(db: Db, now: int) {
    forall user :: user in db.users ==> Backed(db, user, now)
  }

  lemma EvaluationOnlyFalls(subs: map<string, Sub>, user: int, now: int, later: int)
    requires now <= later
    ensures AtMost(BestPlan(subs, user, later), BestPlan(subs, user, now))
  {
    forall p | Grants(subs, user, p, later) ensures Grants(subs, user, p, now) {
      var id :| id in subs && subs[id].user == user && subs[id].plan == p && Entitling(subs[id], later);
      assert Entitling(subs[id], now);
    }
  }

  lemma FreshPlanIsBacked(db: Db, user: int, now: int)
    requires user in db.users && db.users[user] == BestPlan(db.subs, user, now)
    ensures Backed(db, user, now)
  {
    var p := db.users[user];
    if p != Free {
      assert Grants(db.subs, user, p, now);
    }
    forall t | t >= now ensures AtMost(BestPlan(db.subs, user, t), p) {
      EvaluationOnlyFalls(db.subs, user, now, t);
    }
  }

  /** Rows of everyone but `owner` are the same. */
  ghost predicate OnlyOwnerMoved(a: map<string, Sub>, b: map<string, Sub>, owner: int) {
    forall id :: (id in a && a[id].user != owner) || (id in b && b[id].user != owner)
      ==> id in a && id in b && a[id] == b[id]
  }

  lemma OthersSeeTheSamePlan(a: map<string, Sub>, b: map<string, Sub>, owner: int, user: int, now: int)
    requires OnlyOwnerMoved(a, b, owner) && user != owner
    ensures BestPlan(a, user, now) == BestPlan(b, user, now)
  {
    forall p ensures Grants(a, user, p, now) <==> Grants(b, user, p, now) {
      if Grants(a, user, p, now) {
        var id :| id in a && a[id].user == user && a[id].plan == p && Entitling(a[id], now);
        assert id in b && b[id] == a[id];
      }
      if Grants(b, user, p, now) {
        var id :| id in b && b[id].user == user && b[id].plan == p && Entitling(b[id], now);
        assert id in a && b[id] == a[id];
      }
    }
  }

  /** A write to one owner's rows followed by that owner's refresh. */
  lemma WriteThenRefreshKeepsInv(db: Db, mid: Db, owner: int, before: int, now: int)
    requires Inv(db, before) && before <= now
    requires OnlyOwnerMoved(db.subs, mid.subs, owner) && mid.users == db.users
    ensures Inv(Refresh(mid, owner, now), now)
  {
    var end := Refresh(mid, owner, now);
    forall user | user in end.users ensures Backed(end, user, now) {
      if user == owner {
        FreshPlanIsBacked(end, user, now);
      } else {
        assert Backed(db, user, before);
        forall t | t >= now ensures AtMost(BestPlan(end.subs, user, t), end.users[user]) {
          OthersSeeTheSamePlan(db.subs, mid.subs, owner, user, t);
        }
        if end.users[user] != Free {
          var id :| id in db.subs && db.subs[id].user == user && db.subs[id].plan == db.users[user]
                    && (db.subs[id].status == "active" || db.subs[id].status == "trialing");
          assert id in end.subs && end.subs[id] == db.subs[id];
        }
      }
    }
  }

  /** Checkout puts the account's id on the Stripe subscription, so an event
      that names a user names the owner of the row it is about. */
  predicate Agrees(db: Db, e: Event) {
    match e.body
    case Changed(sub, meta, _) => NamesOwner(db, sub, meta)
    case Deleted(sub, meta) => NamesOwner(db, sub, meta)
    case Checkout(_, sub, meta, _, _) => NamesOwner(db, sub, meta)
    case InvoicePaid(sub, meta, _, _) => NamesOwner(db, sub, meta)
    case InvoiceFailed(sub, meta) => NamesOwner(db, sub, meta)
    case _ => true
  }

  predicate NamesOwner(db: Db, sub: string, meta: Option<int>) {
    sub in db.subs && meta.Some? && meta.value != 0 ==> db.subs[sub].user == meta.value
  }

  lemma RestatusKeepsInv(db: Db, e: Event, user: int, sub: string, status: string, before: int, now: int)
    requires Inv(db, before) && before <= now
    requires sub in db.subs ==> db.subs[sub].user == user
    ensures Inv(Restatus(db, e, user, sub, status, now), now)
  {
    WriteThenRefreshKeepsInv(db, Stamp(SetStatus(db, sub, status, now), sub, e), user, before, now);
  }

  lemma SnapshotKeepsInv(db: Db, prices: Prices, e: Event, user: int, customer: string, sub: string,
                         price: string, r: Remote, before: int, now: int)
    requires Inv(db, before) && before <= now
    requires sub in db.subs ==> db.subs[sub].user == user
    ensures Inv(MirrorSnapshot(db, prices, e, user, customer, sub, price, r, now), now)
  {
    var mid := Stamp(Upsert(db, prices, user, customer, sub, price, Or(r.status, "active"),
                            r.periodEnd, r.cancelAtEnd, now), sub, e);
    WriteThenRefreshKeepsInv(db, mid, user, before, now);
  }

  lemma WaitingKeepsInv(db: Db, before: int, now: int)
    requires Inv(db, before) && before <= now
    ensures Inv(db, now)
  {
    forall user | user in db.users ensures Backed(db, user, now) {
      assert Backed(db, user, before);
    }
  }

  lemma HandleKeepsInv(db: Db, prices: Prices, e: Event, before: int, now: int)
    requires Inv(db, before) && before <= now && Agrees(db, e)
    ensures Inv(Handle(db, prices, e, now), now)
  {
    WaitingKeepsInv(db, before, now);
    if Handle(db, prices, e, now) != db {
      match e.body {
        case Changed(sub, meta, r) =>
          SnapshotKeepsInv(db, prices, e, FindUser(db.subs, sub, meta).value, r.customer, sub, r.price.value, r, before, now);
        case Deleted(sub, meta) =>
          RestatusKeepsInv(db, e, FindUser(db.subs, sub, meta).value, sub, "canceled", before, now);
        case Checkout(_, sub, meta, customer, got) =>
          SnapshotKeepsInv(db, prices, e, meta.value, customer, sub, got.value.price.value, got.value, before, now);
        case InvoicePaid(sub, meta, customer, got) =>
          SnapshotKeepsInv(db, prices, e, FindUser(db.subs, sub, meta).value, Or(got.value.customer, customer), sub,
                           got.value.price.value, got.value, before, now);
        case InvoiceFailed(sub, meta) =>
          RestatusKeepsInv(db, e, FindUser(db.subs, sub, meta).value, sub, "past_due", before, now);
        case Refunded(linked, _, _) =>
          RestatusKeepsInv(db, e, db.subs[linked.value].user, linked.value, "canceled", before, now);
        case DisputeOpened(linked) =>
          RestatusKeepsInv(db, e, db.subs[linked.value].user, linked.value, "past_due", before, now);
        case _ =>
      }
    }
  }

  // ---------- runs -------------------------------------------------------------------

  /** One transaction at time `at`: a delivery, or one correction the
      reconciler makes from the row `local` it selected some time before. */
  datatype Step =
    | Webhook(at: int, prices: Prices, event: Event, raises: bool)
    | Correction(at: int, prices: Prices, sub: string, local: Sub, remote: Remote)

  function Take(db: Db, s: Step): Db {
    match s
    case Webhook(at, prices, e, raises) => Deliver(db, prices, e, raises, at)
    case Correction(at, prices, sub, local, r) => Reconcile.CorrectRow(db, prices, sub, local, r, at)
  }

  function Run(db: Db, steps: seq<Step>): Db {
    if steps == [] then db else Take(Run(db, steps[..|steps| - 1]), steps[|steps| - 1])
  }

  /** Time does not go back, every delivered event agrees with the mirror
      about whose subscription it is, and corrections work from rows that the
      mirror held at some earlier point of the run. */
  ghost predicate Plausible(db: Db, steps: seq<Step>, start: int) {
    && (steps != [] ==> start <= steps[0].at)
    && (forall k :: 0 < k < |steps| ==> steps[k - 1].at <= steps[k].at)
    && (forall k :: 0 <= k < |steps| ==> PlausibleStep(db, steps[..k], steps[k]))
  }

  ghost predicate PlausibleStep(db: Db, before: seq<Step>, s: Step) {
    match s
    case Webhook(_, _, e, _) => Agrees(Run(db, before), e)
    case Correction(_, _, sub, local, _) => exists j :: 0 <= j <= |before| && HeldAt(db, before, j, sub, local)
  }

  ghost predicate HeldAt(db: Db, before: seq<Step>, j: nat, sub: string, local: Sub)
    requires j <= |before|
  {
    sub in Run(db, before[..j]).subs && Run(db, before[..j]).subs[sub] == local
  }

  lemma PrefixIsPlausible(db: Db, steps: seq<Step>, start: int)
    requires Plausible(db, steps, start) && steps != []
    ensures Plausible(db, steps[..|steps| - 1], start)
    ensures PlausibleStep(db, steps[..|steps| - 1], steps[|steps| - 1])
  {
    var before := steps[..|steps| - 1];
    forall k | 0 <= k < |before| ensures PlausibleStep(db, before[..k], before[k]) {
      assert before[..k] == steps[..k];
      assert PlausibleStep(db, steps[..k], steps[k]);
    }
  }

  /** No step deletes a row or gives it to another account. */
  lemma {:induction false} OwnersNeverChange(db: Db, steps: seq<Step>, j: nat, sub: string)
    requires j <= |steps| && sub in Run(db, steps[..j]).subs
    ensures sub in Run(db, steps).subs && Run(db, steps).subs[sub].user == Run(db, steps[..j]).subs[sub].user
  {
    if j == |steps| {
      assert steps[..j] == steps;
    } else {
      var before := steps[..|steps| - 1];
      assert before[..j] == steps[..j];
      OwnersNeverChange(db, before, j, sub);
      OneStepKeepsOwner(Run(db, before), steps[|steps| - 1], sub);
    }
  }

  ghost predicate SameOwner(a: Db, b: Db, sub: string) {
    sub in a.subs && sub in b.subs && a.subs[sub].user == b.subs[sub].user
  }

  lemma SnapshotKeepsOwner(db: Db, prices: Prices, e: Event, user: int, customer: string, into: string,
                           price: string, r: Remote, now: int, sub: string)
    requires sub in db.subs
    ensures SameOwner(db, MirrorSnapshot(db, prices, e, user, customer, into, price, r, now), sub)
  {
  }

  lemma HandleKeepsOwner(db: Db, prices: Prices, e: Event, now: int, sub: string)
    requires sub in db.subs
    ensures SameOwner(db, Handle(db, prices, e, now), sub)
  {
    if Handle(db, prices, e, now) != db {
      match e.body {
        case Changed(s, meta, r) =>
          SnapshotKeepsOwner(db, prices, e, FindUser(db.subs, s, meta).value, r.customer, s, r.price.value, r, now, sub);
        case Checkout(_, s, meta, customer, got) =>
          SnapshotKeepsOwner(db, prices, e, meta.value, customer, s, got.value.price.value, got.value, now, sub);
        case InvoicePaid(s, meta, customer, got) =>
          SnapshotKeepsOwner(db, prices, e, FindUser(db.subs, s, meta).value, Or(got.value.customer, customer), s,
                             got.value.price.value, got.value, now, sub);
        case _ =>
      }
    }
  }

  lemma OneStepKeepsOwner(db: Db, s: Step, sub: string)
    requires sub in db.subs
    ensures SameOwner(db, Take(db, s), sub)
  {
    match s
    case Webhook(at, prices, e, raises) =>
      if e.id !in db.seen && !raises {
        HandleKeepsOwner(db.(seen := db.seen + {e.id}), prices, e, at, sub);
      }
    case Correction(_, _, _, _, _) =>
  }

  lemma WebhookKeepsInv(db: Db, prices: Prices, e: Event, raises: bool, before: int, at: int)
    requires Inv(db, before) && before <= at && Agrees(db, e)
    ensures Inv(Deliver(db, prices, e, raises, at), at)
  {
    WaitingKeepsInv(db, before, at);
    if e.id !in db.seen {
      var marked := db.(seen := db.seen + {e.id});
      forall u | u in marked.users ensures Backed(marked, u, at) { assert Backed(db, u, at); }
      HandleKeepsInv(marked, prices, e, at, at);
    }
  }

  lemma CorrectionKeepsInv(db: Db, prices: Prices, sub: string, local: Sub, r: Remote, before: int, at: int)
    requires Inv(db, before) && before <= at && sub in db.subs && db.subs[sub].user == local.user
    ensures Inv(Reconcile.CorrectRow(db, prices, sub, local, r, at), at)
  {
    var price := if !r.hasItems then local.price else if r.price.Some? then r.price.value else "";
    WriteThenRefreshKeepsInv(db, Upsert(db, prices, local.user, Or(r.customer, local.customer), sub, price,
                                        Or(r.status, local.status), r.periodEnd, r.cancelAtEnd, at),
                             local.user, before, at);
  }

  /** At the end of every such run nobody holds a paid plan that no active or
      trialing row of theirs carries, and no stored plan is below what their
      rows entitle them to, then or at any later time. */
  lemma {:induction false} PaidPlansAreBacked(db: Db, steps: seq<Step>, start: int)
    requires Inv(db, start) && Plausible(db, steps, start)
    ensures Inv(Run(db, steps), if steps == [] then start else steps[|steps| - 1].at)
  {
    if steps != [] {
      var before, s := steps[..|steps| - 1], steps[|steps| - 1];
      PrefixIsPlausible(db, steps, start);
      PaidPlansAreBacked(db, before, start);
      var t := if before == [] then start else before[|before| - 1].at;
      match s {
        case Webhook(at, prices, e, raises) =>
          WebhookKeepsInv(Run(db, before), prices, e, raises, t, at);
        case Correction(at, prices, sub, local, r) =>
          var j :| 0 <= j <= |before| && HeldAt(db, before, j, sub, local);
          OwnersNeverChange(db, before, j, sub);
          CorrectionKeepsInv(Run(db, before), prices, sub, local, r, t, at);
      }
    }
  }

  /** If the row changed, its owner's plan is a fresh evaluation. */
  ghost predicate OwnerRefreshed(db: Db, end: Db, sub: string, now: int) {
    sub in end.subs && (sub in db.subs ==> db.subs[sub] != end.subs[sub]) && end.subs[sub].user in end.users
    ==> end.users[end.subs[sub].user] == BestPlan(end.subs, end.subs[sub].user, now)
  }

  lemma RestatusRefreshes(db: Db, e: Event, user: int, into: string, status: string, now: int, sub: string)
    requires into in db.subs ==> db.subs[into].user == user
    ensures OwnerRefreshed(db, Restatus(db, e, user, into, status, now), sub, now)
  {
  }

  lemma SnapshotRefreshes(db: Db, prices: Prices, e: Event, user: int, customer: string, into: string,
                          price: string, r: Remote, now: int, sub: string)
    requires into in db.subs ==> db.subs[into].user == user
    ensures OwnerRefreshed(db, MirrorSnapshot(db, prices, e, user, customer, into, price, r, now), sub, now)
  {
  }

  /** Any handler that changes a row leaves its owner's plan equal to a fresh
      evaluation at that moment. */
  lemma HandlersRefreshTheOwner(db: Db, prices: Prices, e: Event, now: int, sub: string)
    requires Agrees(db, e)
    ensures OwnerRefreshed(db, Handle(db, prices, e, now), sub, now)
  {
    if Handle(db, prices, e, now) != db {
      match e.body {
        case Changed(s, meta, r) =>
          SnapshotRefreshes(db, prices, e, FindUser(db.subs, s, meta).value, r.customer, s, r.price.value, r, now, sub);
        case Deleted(s, meta) =>
          RestatusRefreshes(db, e, FindUser(db.subs, s, meta).value, s, "canceled", now, sub);
        case Checkout(_, s, meta, customer, got) =>
          SnapshotRefreshes(db, prices, e, meta.value, customer, s, got.value.price.value, got.value, now, sub);
        case InvoicePaid(s, meta, customer, got) =>
          SnapshotRefreshes(db, prices, e, FindUser(db.subs, s, meta).value, Or(got.value.customer, customer), s,
                            got.value.price.value, got.value, now, sub);
        case InvoiceFailed(s, meta) =>
          RestatusRefreshes(db, e, FindUser(db.subs, s, meta).value, s, "past_due", now, sub);
        case Refunded(linked, _, _) =>
          RestatusRefreshes(db, e, db.subs[linked.value].user, linked.value, "canceled", now, sub);
        case DisputeOpened(linked) =>
          RestatusRefreshes(db, e, db.subs[linked.value].user, linked.value, "past_due", now, sub);
        case _ =>
      }
    }
  }

  // ---------- what the agreement is needed for -----------------------------------------

  /** The event's own fields name an account and let its handler write. Never
      so for refunds and disputes, which go by the row's owner. */
  predicate WritesForNamed(prices: Prices, e: Event) {
    match e.body
    case Changed(_, meta, r) => Names(meta) && KnownPrice(prices, r)
    case Deleted(_, meta) => Names(meta)
    case Checkout(mode, sub, meta, customer, got) =>
      mode && Names(meta) && sub != "" && customer != "" && got.Some? && KnownPrice(prices, got.value)
    case InvoicePaid(sub, meta, _, got) => sub != "" && Names(meta) && got.Some? && KnownPrice(prices, got.value)
    case InvoiceFailed(sub, meta) => sub != "" && Names(meta)
    case _ => false
  }

  predicate Names(meta: Option<int>) {
    meta.Some? && meta.value != 0
  }

  /** The subscription and the account such an event is about. */
  function About(e: Event): (string, int)
    requires e.body.Changed? || e.body.Deleted? || e.body.Checkout? || e.body.InvoicePaid? || e.body.InvoiceFailed?
  {
    (e.body.sub, if e.body.meta.Some? then e.body.meta.value else 0)
  }

  /** A row of `owner` that carries `plan`, and its owner's plan. */
  function Holding(sub: string, owner: int, plan: Plan): Db {
    Db(map[sub := Sub(owner, "c", "p", plan, "active", None, false, 0, None, "")], map[owner := plan], {})
  }

  lemma HoldingIsBacked(sub: string, owner: int, plan: Plan, now: int)
    requires plan != Free
    ensures Inv(Holding(sub, owner, plan), now)
  {
    var db := Holding(sub, owner, plan);
    assert sub in db.subs && Entitling(db.subs[sub], now);
    assert Grants(db.subs, owner, plan, now);
    FreshPlanIsBacked(db, owner, now);
  }

  /** The plan an owner holds that the event takes away from the row. */
  function Lost(prices: Prices, e: Event): Plan
    requires WritesForNamed(prices, e)
  {
    match e.body
    case Changed(_, _, r) => if prices[r.price.value] == Pro then Starter else Pro
    case Checkout(_, _, _, _, got) => if prices[got.value.price.value] == Pro then Starter else Pro
    case InvoicePaid(_, _, _, got) => if prices[got.value.price.value] == Pro then Starter else Pro
    case _ => Pro
  }

  lemma RowNoLongerCarries(prices: Prices, e: Event, owner: int, now: int)
    requires WritesForNamed(prices, e) && owner != About(e).1
    ensures var sub, plan := About(e).0, Lost(prices, e);
            var end := Handle(Holding(sub, owner, plan), prices, e, now);
            && end.users == map[owner := plan] && end.subs.Keys == {sub}
            && (end.subs[sub].plan != plan || (end.subs[sub].status != "active" && end.subs[sub].status != "trialing"))
  {
    var db := Holding(About(e).0, owner, Lost(prices, e));
    assert db.subs.Keys == {About(e).0};
    match e.body
    case Changed(_, _, _) =>
    case Checkout(_, _, _, _, _) =>
    case InvoicePaid(_, _, _, _) =>
    case _ =>
  }

  /** Any event that names an account and writes breaks the invariant on some
      database, whoever else owns the row: the owner keeps a plan that no row
      carries any more. */
  lemma DisagreementBreaksInv(prices: Prices, e: Event, owner: int, now: int)
    requires WritesForNamed(prices, e) && owner != About(e).1
    ensures var db := Holding(About(e).0, owner, Lost(prices, e));
            Inv(db, now) && !Agrees(db, e) && !Inv(Handle(db, prices, e, now), now)
  {
    var sub, plan := About(e).0, Lost(prices, e);
    var db := Holding(sub, owner, plan);
    var end := Handle(db, prices, e, now);
    HoldingIsBacked(sub, owner, plan, now);
    RowNoLongerCarries(prices, e, owner, now);
    assert owner in end.users && !Backed(end, owner, now);
  }

  /** Over all databases: an event keeps the invariant on every one exactly
      when it does not write for an account it names; refunds, disputes and
      events without metadata cannot disagree. */
  lemma SafeOnEveryDatabase(prices: Prices, e: Event, now: int)
    ensures (forall db: Db :: Inv(db, now) ==> Inv(Handle(db, prices, e, now), now)) <==> !WritesForNamed(prices, e)
  {
    if WritesForNamed(prices, e) {
      var owner := About(e).1 + 1;
      DisagreementBreaksInv(prices, e, owner, now);
    } else {
      forall db: Db | Inv(db, now) ensures Inv(Handle(db, prices, e, now), now) {
        if Handle(db, prices, e, now) != db {
          UnnamedAgrees(db, prices, e, now);
          HandleKeepsInv(db, prices, e, now, now);
        }
      }
    }
  }

  lemma UnnamedAgrees(db: Db, prices: Prices, e: Event, now: int)
    requires !WritesForNamed(prices, e) && Handle(db, prices, e, now) != db
    ensures Agrees(db, e)
  {
  }
}
