/** What each Stripe event leaves in the mirror, field by field, and which
    events leave it alone. */
module BillingLaws {
  import opened Options
  import opened Billing

  /** The account an event names, or else the owner of the row it is about. */
  ghost predicate Names(db: Db, sub: string, meta: Option<int>, user: int) {
    || (meta == Some(user) && user != 0)
    || ((meta.None? || meta.value == 0) && sub != "" && sub in db.subs && db.subs[sub].user == user && user != 0)
  }

  function Calendar(epoch: Option<int>): Option<int> {
    if epoch.Some? && epoch.value >= -62_135_596_800 && epoch.value <= 253_402_300_799 then epoch else None
  }

  /** The row carries a stamp of a later event. */
  ghost predicate Late(db: Db, sub: string, created: Option<int>) {
    && sub != "" && sub in db.subs && db.subs[sub].lastEventAt.Some?
    && Calendar(created).Some? && created != Some(0) && created.value < db.subs[sub].lastEventAt.value
  }

  ghost predicate Sold(prices: Prices, r: Remote) {
    r.hasItems && r.price.Some? && r.price.value in prices
  }

  /** Paid for now: active or on trial, and not past the end of a subscription
      that was cancelled for then. */
  ghost predicate Pays(s: Sub, now: int) {
    (s.status == "active" || s.status == "trialing")
    && (s.cancelAtEnd && s.periodEnd.Some? ==> now <= s.periodEnd.value * 1_000_000)
  }

  ghost predicate PaysFor(subs: map<string, Sub>, user: int, plan: Plan, now: int) {
    exists id :: id in subs && subs[id].user == user && subs[id].plan == plan && Pays(subs[id], now)
  }

  /** Only this user's plan may be another: the best one paid for. */
  ghost predicate PlanIsBest(before: Db, after: Db, user: int, now: int) {
    && after.users.Keys == before.users.Keys && after.seen == before.seen
    && (forall u :: u in before.users && u != user ==> after.users[u] == before.users[u])
    && (user in before.users ==>
          && (after.users[user] == Pro <==> PaysFor(after.subs, user, Pro, now))
          && (after.users[user] == Starter <==> PaysFor(after.subs, user, Starter, now) && !PaysFor(after.subs, user, Pro, now)))
  }

  ghost predicate OtherRowsStay(before: Db, after: Db, sub: string) {
    forall id :: id in before.subs && id != sub ==> id in after.subs && after.subs[id] == before.subs[id]
  }

  /** The row shows the snapshot and the event; an existing row keeps its owner
      and customer. */
  ghost predicate Mirrored(before: Db, after: Db, prices: Prices, e: Event, sub: string, user: int, customer: string,
                           r: Remote, now: int)
    requires Sold(prices, r)
  {
    && after.subs.Keys == before.subs.Keys + {sub} && OtherRowsStay(before, after, sub)
    && var row := after.subs[sub];
       && row.price == r.price.value && row.plan == prices[r.price.value]
       && row.status == (if r.status == "" then "active" else r.status)
       && row.periodEnd == Calendar(r.periodEnd) && row.cancelAtEnd == r.cancelAtEnd && row.updated == now
       && (sub != "" ==> row.lastEventAt == Calendar(e.created) && row.lastEventId == e.id)
       && row.user == (if sub in before.subs then before.subs[sub].user else user)
       && row.customer == (if sub in before.subs then before.subs[sub].customer else customer)
       && PlanIsBest(before, after, user, now)
  }

  /** An existing row has the status and the event, and all else as it was. */
  ghost predicate Marked(before: Db, after: Db, e: Event, sub: string, user: int, status: string, now: int) {
    && after.subs.Keys == before.subs.Keys && OtherRowsStay(before, after, sub)
    && (sub in before.subs ==>
          after.subs[sub] == before.subs[sub].(status := status, updated := now,
            lastEventAt := if sub == "" then before.subs[sub].lastEventAt else Calendar(e.created),
            lastEventId := if sub == "" then before.subs[sub].lastEventId else e.id))
    && PlanIsBest(before, after, user, now)
  }

  lemma RefreshIsBest(before: Db, written: Db, user: int, now: int)
    requires written.users == before.users && written.seen == before.seen
    ensures PlanIsBest(before, Refresh(written, user, now), user, now) && Refresh(written, user, now).subs == written.subs
  {
    forall s: Sub ensures Pays(s, now) <==> Entitling(s, now) {}
    forall plan ensures PaysFor(written.subs, user, plan, now) <==> Grants(written.subs, user, plan, now) {}
  }

  lemma NamesIsFound(db: Db, sub: string, meta: Option<int>, user: int)
    ensures Names(db, sub, meta, user) <==> FindUser(db.subs, sub, meta) == Some(user)
  {
  }

  lemma SnapshotIsMirrored(db: Db, prices: Prices, e: Event, user: int, customer: string, sub: string, r: Remote, now: int)
    requires Sold(prices, r)
    ensures Mirrored(db, MirrorSnapshot(db, prices, e, user, customer, sub, r.price.value, r, now), prices, e, sub, user,
                     customer, r, now)
  {
    var written := Stamp(Upsert(db, prices, user, customer, sub, r.price.value, Or(r.status, "active"), r.periodEnd,
                                r.cancelAtEnd, now), sub, e);
    RefreshIsBest(db, written, user, now);
  }

  lemma StatusIsMarked(db: Db, e: Event, user: int, sub: string, status: string, now: int)
    ensures Marked(db, Restatus(db, e, user, sub, status, now), e, sub, user, status, now)
  {
    RefreshIsBest(db, Stamp(SetStatus(db, sub, status, now), sub, e), user, now);
  }

  /** A created or updated subscription is mirrored exactly when an account is
      known for it, its price is on sale, and no later event came first. */
  lemma ChangesAreMirrored(db: Db, prices: Prices, e: Event, now: int, user: int)
    requires e.body.Changed?
    ensures var b := e.body;
            && (Names(db, b.sub, b.meta, user) && Sold(prices, b.remote) && !Late(db, b.sub, e.created)
                ==> Mirrored(db, Handle(db, prices, e, now), prices, e, b.sub, user, b.remote.customer, b.remote, now))
            && ((forall u :: !Names(db, b.sub, b.meta, u)) || !Sold(prices, b.remote) || Late(db, b.sub, e.created)
                ==> Handle(db, prices, e, now) == db)
  {
    var b := e.body;
    forall u ensures Names(db, b.sub, b.meta, u) <==> FindUser(db.subs, b.sub, b.meta) == Some(u) {
      NamesIsFound(db, b.sub, b.meta, u);
    }
    if Sold(prices, b.remote) { SnapshotIsMirrored(db, prices, e, user, b.remote.customer, b.sub, b.remote, now); }
    assert Late(db, b.sub, e.created) <==> OutOfOrder(db.subs, b.sub, e.created);
  }

  /** A deletion ends as canceled and a failed payment as past due, for the
      account known for it and unless a later event came first. */
  lemma EndsAreMarked(db: Db, prices: Prices, e: Event, now: int, user: int)
    requires e.body.Deleted? || e.body.InvoiceFailed?
    ensures var sub, meta := e.body.sub, e.body.meta;
            && (Names(db, sub, meta, user) && !Late(db, sub, e.created) && (e.body.InvoiceFailed? ==> sub != "")
                ==> Marked(db, Handle(db, prices, e, now), e, sub, user, if e.body.Deleted? then "canceled" else "past_due", now))
            && ((forall u :: !Names(db, sub, meta, u)) || Late(db, sub, e.created) || (e.body.InvoiceFailed? && sub == "")
                ==> Handle(db, prices, e, now) == db)
  {
    var sub, meta := e.body.sub, e.body.meta;
    forall u ensures Names(db, sub, meta, u) <==> FindUser(db.subs, sub, meta) == Some(u) { NamesIsFound(db, sub, meta, u); }
    StatusIsMarked(db, e, user, sub, if e.body.Deleted? then "canceled" else "past_due", now);
    assert Late(db, sub, e.created) <==> OutOfOrder(db.subs, sub, e.created);
  }

  /** A completed checkout for a subscription is mirrored for the account it
      names, with what Stripe then says. */
  lemma CheckoutsAreMirrored(db: Db, prices: Prices, e: Event, now: int)
    requires e.body.Checkout?
    ensures var b := e.body;
            if && b.subscriptionMode && b.meta.Some? && b.meta.value != 0 && b.sub != "" && b.customer != ""
               && b.retrieved.Some? && Sold(prices, b.retrieved.value) && !Late(db, b.sub, e.created)
            then Mirrored(db, Handle(db, prices, e, now), prices, e, b.sub, b.meta.value, b.customer, b.retrieved.value, now)
            else Handle(db, prices, e, now) == db
  {
    var b := e.body;
    if b.meta.Some? && b.retrieved.Some? && Sold(prices, b.retrieved.value) {
      SnapshotIsMirrored(db, prices, e, b.meta.value, b.customer, b.sub, b.retrieved.value, now);
    }
    assert Late(db, b.sub, e.created) <==> OutOfOrder(db.subs, b.sub, e.created);
  }

  /** And a paid invoice for the account known for it. */
  lemma PaymentsAreMirrored(db: Db, prices: Prices, e: Event, now: int, user: int)
    requires e.body.InvoicePaid?
    ensures var b := e.body;
            && (b.sub != "" && Names(db, b.sub, b.meta, user) && b.retrieved.Some? && Sold(prices, b.retrieved.value)
                && !Late(db, b.sub, e.created)
                ==> Mirrored(db, Handle(db, prices, e, now), prices, e, b.sub, user,
                             if b.retrieved.value.customer == "" then b.customer else b.retrieved.value.customer,
                             b.retrieved.value, now))
            && (b.sub == "" || (forall u :: !Names(db, b.sub, b.meta, u)) || b.retrieved.None?
                || !Sold(prices, b.retrieved.value) || Late(db, b.sub, e.created)
                ==> Handle(db, prices, e, now) == db)
  {
    var b := e.body;
    forall u ensures Names(db, b.sub, b.meta, u) <==> FindUser(db.subs, b.sub, b.meta) == Some(u) {
      NamesIsFound(db, b.sub, b.meta, u);
    }
    if b.retrieved.Some? && Sold(prices, b.retrieved.value) {
      SnapshotIsMirrored(db, prices, e, user, Or(b.retrieved.value.customer, b.customer), b.sub, b.retrieved.value, now);
    }
    assert Late(db, b.sub, e.created) <==> OutOfOrder(db.subs, b.sub, e.created);
  }

  /** A full refund cancels, and an opened dispute makes past due, the
      subscription the charge is linked to, for its owner, in any order of
      events; a partial refund, a closed dispute and any other event change
      nothing. */
  lemma MoneyBackIsMarked(db: Db, prices: Prices, e: Event, now: int)
    ensures e.body.Refunded? ==>
              var b := e.body;
              if b.linkedSub.Some? && b.linkedSub.value != "" && b.linkedSub.value in db.subs && b.refunded >= b.total
              then Marked(db, Handle(db, prices, e, now), e, b.linkedSub.value, db.subs[b.linkedSub.value].user, "canceled", now)
              else Handle(db, prices, e, now) == db
    ensures e.body.DisputeOpened? ==>
              var b := e.body;
              if b.linkedSub.Some? && b.linkedSub.value != "" && b.linkedSub.value in db.subs
              then Marked(db, Handle(db, prices, e, now), e, b.linkedSub.value, db.subs[b.linkedSub.value].user, "past_due", now)
              else Handle(db, prices, e, now) == db
    ensures e.body.DisputeClosed? || e.body.UnknownType? ==> Handle(db, prices, e, now) == db
  {
    if (e.body.Refunded? || e.body.DisputeOpened?) && e.body.linkedSub.Some? && e.body.linkedSub.value in db.subs {
      var sub := e.body.linkedSub.value;
      StatusIsMarked(db, e, db.subs[sub].user, sub, if e.body.Refunded? then "canceled" else "past_due", now);
    }
  }
}
