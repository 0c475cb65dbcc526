/**
 * billing.py: the local mirror of Stripe subscriptions and the plan each user
 * holds. Every handler is a function from one database to the next; the
 * object at the end does the same step by step. What Stripe answers to a
 * retrieve call travels with the event. Epochs are seconds, `now` is in
 * microseconds, and the stored texts are compared as instants (Timestamps).
 */
module Billing {
  import opened Options

  datatype Plan = Free | Starter | Pro

  datatype Sub = Sub(
    user: int, customer: string, price: string, plan: Plan, status: string,
    periodEnd: Option<int>, cancelAtEnd: bool, updated: int,
    lastEventAt: Option<int>, lastEventId: string)

  /** `seen` holds the ids in stripe_webhook_events. */
  datatype Db = Db(subs: map<string, Sub>, users: map<int, Plan>, seen: set<string>)

  /** The parts of a Stripe subscription the mirror reads; no price id, or an
      empty one, is None. */
  datatype Remote = Remote(
    customer: string, status: string, hasItems: bool, price: Option<string>,
    periodEnd: Option<int>, cancelAtEnd: bool)

  datatype Body =
    | Changed(sub: string, meta: Option<int>, remote: Remote)
    | Deleted(sub: string, meta: Option<int>)
    | Checkout(subscriptionMode: bool, sub: string, meta: Option<int>, customer: string, retrieved: Option<Remote>)
    | InvoicePaid(sub: string, meta: Option<int>, customer: string, retrieved: Option<Remote>)
    | InvoiceFailed(sub: string, meta: Option<int>)
    | Refunded(linkedSub: Option<string>, total: int, refunded: int)
    | DisputeOpened(linkedSub: Option<string>)
    | DisputeClosed
    | UnknownType

  datatype Event = Event(id: string, created: Option<int>, body: Body)

  type Prices = map<string, Plan>

  /** The representable years 1 to 9999, as seconds since the epoch. */
  function EpochToIso(e: Option<int>): Option<int> {
    if e.Some? && -62_135_596_800 <= e.value <= 253_402_300_799 then e else None
  }

  predicate OutOfOrder(subs: map<string, Sub>, sub: string, created: Option<int>) {
    && sub != "" && created.Some? && created.value != 0
    && sub in subs && subs[sub].lastEventAt.Some?
    && EpochToIso(created).Some?
    && EpochToIso(created).value < subs[sub].lastEventAt.value
  }

  function Or(s: string, fallback: string): string {
    if s == "" then fallback else s
  }

  // ---------- writes -----------------------------------------------------------

  function PlanOf(prices: Prices, price: string): Plan {
    if price in prices then prices[price] else Free
  }

  /** On conflict the owner, the customer and the event stamp are kept. */
  function Upsert(db: Db, prices: Prices, user: int, customer: string, sub: string, price: string,
                  status: string, periodEnd: Option<int>, cancelAtEnd: bool, now: int): Db {
    var made := Sub(user, customer, price, PlanOf(prices, price), status,
                     EpochToIso(periodEnd), cancelAtEnd, now, None, "");
    var row := if sub !in db.subs then made
               else db.subs[sub].(price := made.price, plan := made.plan, status := status,
                                  periodEnd := made.periodEnd, cancelAtEnd := cancelAtEnd, updated := now);
    db.(subs := db.subs[sub := row])
  }

  function Stamp(db: Db, sub: string, e: Event): Db {
    if sub == "" || sub !in db.subs then db
    else db.(subs := db.subs[sub := db.subs[sub].(lastEventAt := EpochToIso(e.created), lastEventId := e.id)])
  }

  function SetStatus(db: Db, sub: string, status: string, now: int): Db {
    if sub !in db.subs then db
    else db.(subs := db.subs[sub := db.subs[sub].(status := status, updated := now)])
  }

  predicate Entitling(s: Sub, now: int) {
    && (s.status == "active" || s.status == "trialing")
    && !(s.cancelAtEnd && s.periodEnd.Some? && s.periodEnd.value * 1_000_000 < now)
  }

  predicate Grants(subs: map<string, Sub>, user: int, plan: Plan, now: int) {
    exists id | id in subs :: subs[id].user == user && subs[id].plan == plan && Entitling(subs[id], now)
  }

  function BestPlan(subs: map<string, Sub>, user: int, now: int): Plan {
    if Grants(subs, user, Pro, now) then Pro
    else if Grants(subs, user, Starter, now) then Starter
    else Free
  }

  function Refresh(db: Db, user: int, now: int): Db {
    if user !in db.users then db
    else db.(users := db.users[user := BestPlan(db.subs, user, now)])
  }

  // ---------- handlers ------------------------------------------------------------

  function FindUser(subs: map<string, Sub>, sub: string, meta: Option<int>): Option<int> {
    if meta.Some? && meta.value != 0 then meta
    else if sub in subs && sub != "" && subs[sub].user != 0 then Some(subs[sub].user)
    else None
  }

  /** Mirror one snapshot, stamp the row, re-evaluate the user. */
  function MirrorSnapshot(db: Db, prices: Prices, e: Event, user: int, customer: string, sub: string,
                          price: string, r: Remote, now: int): Db {
    Refresh(Stamp(Upsert(db, prices, user, customer, sub, price, Or(r.status, "active"),
                         r.periodEnd, r.cancelAtEnd, now), sub, e), user, now)
  }

  function Restatus(db: Db, e: Event, user: int, sub: string, status: string, now: int): Db {
    Refresh(Stamp(SetStatus(db, sub, status, now), sub, e), user, now)
  }

  predicate KnownPrice(prices: Prices, r: Remote) {
    r.hasItems && r.price.Some? && r.price.value in prices
  }

  function Handle(db: Db, prices: Prices, e: Event, now: int): Db {
    match e.body
    case Changed(sub, meta, r) =>
      var user := FindUser(db.subs, sub, meta);
      if user.None? || !KnownPrice(prices, r) || OutOfOrder(db.subs, sub, e.created) then db
      else MirrorSnapshot(db, prices, e, user.value, r.customer, sub, r.price.value, r, now)
    case Deleted(sub, meta) =>
      var user := FindUser(db.subs, sub, meta);
      if user.None? || OutOfOrder(db.subs, sub, e.created) then db
      else Restatus(db, e, user.value, sub, "canceled", now)
    case Checkout(mode, sub, meta, customer, retrieved) =>
      if !mode || meta.None? || meta.value == 0 || sub == "" || customer == "" || retrieved.None?
         || !KnownPrice(prices, retrieved.value) || OutOfOrder(db.subs, sub, e.created) then db
      else MirrorSnapshot(db, prices, e, meta.value, customer, sub, retrieved.value.price.value, retrieved.value, now)
    case InvoicePaid(sub, meta, customer, retrieved) =>
      var user := FindUser(db.subs, sub, meta);
      if sub == "" || user.None? || retrieved.None?
         || !KnownPrice(prices, retrieved.value) || OutOfOrder(db.subs, sub, e.created) then db
      else MirrorSnapshot(db, prices, e, user.value, Or(retrieved.value.customer, customer), sub,
                          retrieved.value.price.value, retrieved.value, now)
    case InvoiceFailed(sub, meta) =>
      var user := FindUser(db.subs, sub, meta);
      if sub == "" || user.None? || OutOfOrder(db.subs, sub, e.created) then db
      else Restatus(db, e, user.value, sub, "past_due", now)
    case Refunded(linked, total, refunded) =>
      if linked.None? || linked.value == "" || linked.value !in db.subs || refunded < total then db
      else Restatus(db, e, db.subs[linked.value].user, linked.value, "canceled", now)
    case DisputeOpened(linked) =>
      if linked.None? || linked.value == "" || linked.value !in db.subs then db
      else Restatus(db, e, db.subs[linked.value].user, linked.value, "past_due", now)
    case DisputeClosed => db
    case UnknownType => db
  }

  /** The webhook endpoint: dedup row and handler in one transaction. An
      exception in the handler is answered inside that transaction, which
      then commits. `raises` handlers are taken to raise before they write. */
  function Deliver(db: Db, prices: Prices, e: Event, raises: bool, now: int): Db {
    if e.id in db.seen then db
    else
      var marked := db.(seen := db.seen + {e.id});
      if raises then marked else Handle(marked, prices, e, now)
  }

  lemma HandleLeavesSeen(db: Db, prices: Prices, e: Event, now: int)
    ensures Handle(db, prices, e, now).seen == db.seen
  {
  }

  /** At most once: whatever happened to the first delivery, a later delivery
      of the same event changes nothing. So the retry that the endpoint asks
      for after a failed handler is discarded as a duplicate. */
  lemma SecondDeliveryIsIgnored(db: Db, prices: Prices, e: Event, raises: bool, again: bool, now: int, later: int)
    ensures Deliver(Deliver(db, prices, e, raises, now), prices, e, again, later)
         == Deliver(db, prices, e, raises, now)
    ensures e.id !in db.seen ==>
              Deliver(Deliver(db, prices, e, true, now), prices, e, false, later).subs == db.subs
  {
    HandleLeavesSeen(db.(seen := db.seen + {e.id}), prices, e, now);
  }

  // ---------- the mirror as an object ------------------------------------------------

  class Mirror {
    var subs: map<string, Sub>
    var users: map<int, Plan>
    var seen: set<string>
    const prices: Prices

    function State(): Db
      reads this
    {
      Db(subs, users, seen)
    }

    constructor (prices: Prices, users: map<int, Plan>)
      ensures this.prices == prices && State() == Db(map[], users, {})
    {
      this.prices, this.users, subs, seen := prices, users, map[], {};
    }

    method UpsertSubscription(user: int, customer: string, sub: string, price: string, status: string,
                              periodEnd: Option<int>, cancelAtEnd: bool, now: int)
      modifies this
      ensures State() == Upsert(old(State()), prices, user, customer, sub, price, status, periodEnd, cancelAtEnd, now)
    {
      var plan := if price in prices then prices[price] else Free;
      var end := EpochToIso(periodEnd);
      if sub in subs {
        subs := subs[sub := subs[sub].(price := price, plan := plan, status := status, periodEnd := end,
                                       cancelAtEnd := cancelAtEnd, updated := now)];
      } else {
        subs := subs[sub := Sub(user, customer, price, plan, status, end, cancelAtEnd, now, None, "")];
      }
    }

    method StampLastEvent(sub: string, e: Event)
      modifies this
      ensures State() == Stamp(old(State()), sub, e)
    {
      if sub != "" && sub in subs {
        subs := subs[sub := subs[sub].(lastEventAt := EpochToIso(e.created), lastEventId := e.id)];
      }
    }

    method UpdateStatus(sub: string, status: string, now: int)
      modifies this
      ensures State() == SetStatus(old(State()), sub, status, now)
    {
      if sub in subs { subs := subs[sub := subs[sub].(status := status, updated := now)]; }
    }

    /** Collects the plans of the entitling rows, keeps the best. */
    method RefreshEntitlement(user: int, now: int) returns (plan: Plan)
      modifies this
      ensures State() == Refresh(old(State()), user, now)
      ensures plan == BestPlan(old(subs), user, now)
    {
      var entitling: set<Plan> := {};
      var left := subs.Keys;
      while left != {}
        invariant left <= subs.Keys && State() == old(State())
        invariant forall p :: p in entitling <==>
                    exists id | id in subs.Keys - left ::
                      subs[id].user == user && subs[id].plan == p && Entitling(subs[id], now)
        decreases left
      {
        var id :| id in left;
        left := left - {id};
        if subs[id].user == user && Entitling(subs[id], now) {
          entitling := entitling + {subs[id].plan};
        }
      }
      assert forall p :: p in entitling <==> Grants(subs, user, p, now);
      plan := if Pro in entitling then Pro else if Starter in entitling then Starter else Free;
      if user in users && users[user] != plan {
        users := users[user := plan];
      }
    }

    method WriteSnapshot(e: Event, user: int, customer: string, sub: string, price: string, r: Remote, now: int)
      modifies this
      ensures State() == MirrorSnapshot(old(State()), prices, e, user, customer, sub, price, r, now)
    {
      UpsertSubscription(user, customer, sub, price, if r.status == "" then "active" else r.status,
                         r.periodEnd, r.cancelAtEnd, now);
      StampLastEvent(sub, e);
      var _ := RefreshEntitlement(user, now);
    }

    method WriteStatus(e: Event, user: int, sub: string, status: string, now: int)
      modifies this
      ensures State() == Restatus(old(State()), e, user, sub, status, now)
    {
      UpdateStatus(sub, status, now);
      StampLastEvent(sub, e);
      var _ := RefreshEntitlement(user, now);
    }

    method Dispatch(e: Event, now: int)
      modifies this
      ensures State() == Handle(old(State()), prices, e, now)
    {
      match e.body {
        case Changed(sub, meta, r) =>
          var user := FindUser(subs, sub, meta);
          if user.None? || !r.hasItems || r.price.None? || r.price.value !in prices { return; }
          if OutOfOrder(subs, sub, e.created) { return; }
          WriteSnapshot(e, user.value, r.customer, sub, r.price.value, r, now);
        case Deleted(sub, meta) =>
          var user := FindUser(subs, sub, meta);
          if user.None? || OutOfOrder(subs, sub, e.created) { return; }
          WriteStatus(e, user.value, sub, "canceled", now);
        case Checkout(mode, sub, meta, customer, retrieved) =>
          if !mode || meta.None? || meta.value == 0 || sub == "" || customer == "" { return; }
          if retrieved.None? { return; }
          var r := retrieved.value;
          if !r.hasItems || r.price.None? || r.price.value !in prices { return; }
          if OutOfOrder(subs, sub, e.created) { return; }
          WriteSnapshot(e, meta.value, customer, sub, r.price.value, r, now);
        case InvoicePaid(sub, meta, customer, retrieved) =>
          if sub == "" { return; }
          var user := FindUser(subs, sub, meta);
          if user.None? || retrieved.None? { return; }
          var r := retrieved.value;
          if !r.hasItems || r.price.None? || r.price.value !in prices { return; }
          if OutOfOrder(subs, sub, e.created) { return; }
          WriteSnapshot(e, user.value, Or(r.customer, customer), sub, r.price.value, r, now);
        case InvoiceFailed(sub, meta) =>
          if sub == "" { return; }
          var user := FindUser(subs, sub, meta);
          if user.None? || OutOfOrder(subs, sub, e.created) { return; }
          WriteStatus(e, user.value, sub, "past_due", now);
        case Refunded(linked, total, refunded) =>
          if linked.None? || linked.value == "" || linked.value !in subs || refunded < total { return; }
          WriteStatus(e, subs[linked.value].user, linked.value, "canceled", now);
        case DisputeOpened(linked) =>
          if linked.None? || linked.value == "" || linked.value !in subs { return; }
          WriteStatus(e, subs[linked.value].user, linked.value, "past_due", now);
        case DisputeClosed =>
        case UnknownType =>
      }
    }

    method Webhook(e: Event, raises: bool, now: int) returns (duplicate: bool)
      modifies this
      ensures State() == Deliver(old(State()), prices, e, raises, now)
      ensures duplicate <==> e.id in old(seen)
    {
      duplicate := e.id in seen;
      if duplicate { return; }
      seen := seen + {e.id};
      if !raises { Dispatch(e, now); }
    }
  }
}
