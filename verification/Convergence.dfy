/** Stripe delivers in any order and more than once; what the mirror then holds
    of one subscription, from any row it started with. */
module Convergence {
  import opened Options
  import opened Billing

  /** Events about `sub` that a correct checkout produced: they name the
      account, carry a usable creation time and, when snapshots, a known price. */
  predicate About(prices: Prices, sub: string, e: Event) {
    && sub != "" && EpochToIso(e.created).Some? && e.created.value != 0
    && match e.body
       case Changed(s, meta, r) => s == sub && meta.Some? && meta.value != 0 && KnownPrice(prices, r)
       case Deleted(s, meta) => s == sub && meta.Some? && meta.value != 0
       case InvoiceFailed(s, meta) => s == sub && meta.Some? && meta.value != 0
       case _ => false
  }

  ghost predicate AllAbout(prices: Prices, sub: string, es: seq<Event>) {
    forall k :: 0 <= k < |es| ==> About(prices, sub, es[k])
  }

  /** Repetitions allowed; two different events have different times. */
  ghost predicate DistinctTimes(es: seq<Event>) {
    forall i, j :: 0 <= i < |es| && 0 <= j < |es| && es[i].created == es[j].created ==> es[i] == es[j]
  }

  ghost predicate IsNewest(es: seq<Event>, e: Event) {
    && e in es && e.created.Some?
    && forall k :: 0 <= k < |es| ==> es[k].created.Some? && es[k].created.value <= e.created.value
  }

  // ---------- one row, replayed --------------------------------------------------------

  /** The fields an upsert writes, and the stamp. */
  datatype Fields = Fields(price: string, plan: Plan, status: string, periodEnd: Option<int>,
                           cancelAtEnd: bool, lastEventAt: Option<int>, lastEventId: string)

  function RowOf(subs: map<string, Sub>, sub: string): Option<Fields> {
    if sub !in subs then None
    else
      var s := subs[sub];
      Some(Fields(s.price, s.plan, s.status, s.periodEnd, s.cancelAtEnd, s.lastEventAt, s.lastEventId))
  }

  function StatusAfter(e: Event): string {
    match e.body
    case Changed(_, _, r) => Or(r.status, "active")
    case Deleted(_, _) => "canceled"
    case _ => "past_due"
  }

  function Snapshot(prices: Prices, e: Event): Fields
    requires e.body.Changed?
  {
    var r := e.body.remote;
    var price := if r.price.Some? then r.price.value else "";
    Fields(price, PlanOf(prices, price), StatusAfter(e), EpochToIso(r.periodEnd), r.cancelAtEnd, e.created, e.id)
  }

  /** The row was stamped by something newer than `e`. */
  predicate Newer(x: Option<Fields>, e: Event) {
    x.Some? && x.value.lastEventAt.Some? && e.created.Some? && e.created.value < x.value.lastEventAt.value
  }

  /** A delivery takes effect on a row that is not newer; only a snapshot
      makes a row. */
  predicate Takes(x: Option<Fields>, e: Event) {
    if x.None? then e.body.Changed? else !Newer(x, e)
  }

  function Apply(prices: Prices, x: Option<Fields>, e: Event): Option<Fields> {
    if !Takes(x, e) then x
    else if e.body.Changed? then Some(Snapshot(prices, e))
    else Some(x.value.(status := StatusAfter(e), lastEventAt := e.created, lastEventId := e.id))
  }

  function Replay(prices: Prices, x: Option<Fields>, es: seq<Event>): Option<Fields> {
    if es == [] then x else Apply(prices, Replay(prices, x, es[..|es| - 1]), es[|es| - 1])
  }

  /** Deliveries in arrival order; `at` gives each its wall-clock time. */
  function DeliverAll(db: Db, prices: Prices, es: seq<Event>, at: nat -> int): Db {
    if es == [] then db
    else Handle(DeliverAll(db, prices, es[..|es| - 1], at), prices, es[|es| - 1], at(|es| - 1))
  }

  lemma OneDelivery(db: Db, prices: Prices, sub: string, e: Event, now: int)
    requires About(prices, sub, e)
    ensures RowOf(Handle(db, prices, e, now).subs, sub) == Apply(prices, RowOf(db.subs, sub), e)
  {
  }

  /** The handlers, whatever else they write, do to the row of `sub` what the
      replay does. */
  lemma {:induction false} HandlersReplay(db: Db, prices: Prices, sub: string, es: seq<Event>, at: nat -> int)
    requires AllAbout(prices, sub, es)
    ensures RowOf(DeliverAll(db, prices, es, at).subs, sub) == Replay(prices, RowOf(db.subs, sub), es)
  {
    if es != [] {
      var before := es[..|es| - 1];
      HandlersReplay(db, prices, sub, before, at);
      OneDelivery(DeliverAll(db, prices, before, at), prices, sub, es[|es| - 1], at(|es| - 1));
    }
  }

  // ---------- the events that count -------------------------------------------------------

  /** Everything up to the first snapshot finds no row to write to. */
  function FromFirstSnapshot(es: seq<Event>): (r: seq<Event>)
    ensures |r| <= |es| && (r != [] ==> r[0].body.Changed?)
  {
    if es == [] || es[0].body.Changed? then es else FromFirstSnapshot(es[1..])
  }

  lemma {:induction false} FirstSnapshotOfAppend(es: seq<Event>, e: Event)
    ensures FromFirstSnapshot(es + [e])
         == if FromFirstSnapshot(es) != [] || e.body.Changed? then FromFirstSnapshot(es) + [e] else []
  {
    if es == [] {
      assert [] + [e] == [e];
      assert FromFirstSnapshot([e][1..]) == [];
    } else if !es[0].body.Changed? {
      assert (es + [e])[1..] == es[1..] + [e];
      FirstSnapshotOfAppend(es[1..], e);
    }
  }

  lemma {:induction false} FromFirstSnapshotMembers(es: seq<Event>, e: Event)
    ensures e in FromFirstSnapshot(es) ==> e in es
  {
    if es != [] && !es[0].body.Changed? { FromFirstSnapshotMembers(es[1..], e); }
  }

  /** The deliveries that find a row or make one. */
  function Kept(x: Option<Fields>, es: seq<Event>): seq<Event> {
    if x.Some? then es else FromFirstSnapshot(es)
  }

  lemma KeptOfAppend(x: Option<Fields>, es: seq<Event>, e: Event)
    ensures Kept(x, es + [e])
         == if x.Some? || Kept(x, es) != [] || e.body.Changed? then Kept(x, es) + [e] else []
  {
    FirstSnapshotOfAppend(es, e);
  }

  lemma KeptMembers(x: Option<Fields>, es: seq<Event>, e: Event)
    ensures e in Kept(x, es) ==> e in es
  {
    FromFirstSnapshotMembers(es, e);
  }

  ghost predicate Dated(es: seq<Event>) {
    forall k :: 0 <= k < |es| ==> es[k].created.Some?
  }

  lemma AboutIsDated(prices: Prices, sub: string, es: seq<Event>)
    requires AllAbout(prices, sub, es)
    ensures Dated(es)
  {
    forall k | 0 <= k < |es| ensures es[k].created.Some? { assert About(prices, sub, es[k]); }
  }

  // ---------- status and stamp: the newest event ----------------------------------------------

  ghost predicate Carries(y: Fields, e: Event) {
    y.status == StatusAfter(e) && y.lastEventAt == e.created
  }

  /** The row carries the newest of `kept`, or is as it was if that is older. */
  ghost predicate CarriesNewest(x: Option<Fields>, kept: seq<Event>, y: Option<Fields>) {
    if kept == [] then y == x
    else y.Some? && exists e :: IsNewest(kept, e) && if Newer(x, e) then y == x else Carries(y.value, e)
  }

  lemma CarryOn(prices: Prices, x: Option<Fields>, kept: seq<Event>, y: Option<Fields>, e: Event)
    requires Dated(kept) && e.created.Some? && CarriesNewest(x, kept, y)
    ensures CarriesNewest(x, if x.Some? || kept != [] || e.body.Changed? then kept + [e] else [], Apply(prices, y, e))
  {
    var z := Apply(prices, y, e);
    if kept == [] {
      if y.Some? || e.body.Changed? {
        assert kept + [e] == [e] && IsNewest([e], e);
      }
    } else {
      var p :| IsNewest(kept, p) && if Newer(x, p) then y == x else Carries(y.value, p);
      if e.created.value >= p.created.value {
        assert IsNewest(kept + [e], e);
        assert if Newer(x, e) then z == x else Carries(z.value, e);
      } else {
        assert IsNewest(kept + [e], p);
        assert if Newer(x, p) then z == x else Carries(z.value, p);
      }
    }
  }

  lemma {:induction false} ReplayCarriesNewest(prices: Prices, x: Option<Fields>, es: seq<Event>)
    requires Dated(es)
    ensures CarriesNewest(x, Kept(x, es), Replay(prices, x, es))
  {
    if es != [] {
      var before, last := es[..|es| - 1], es[|es| - 1];
      assert es == before + [last];
      ReplayCarriesNewest(prices, x, before);
      forall k | 0 <= k < |Kept(x, before)| ensures Kept(x, before)[k].created.Some? {
        KeptMembers(x, before, Kept(x, before)[k]);
      }
      CarryOn(prices, x, Kept(x, before), Replay(prices, x, before), last);
      KeptOfAppend(x, before, last);
    }
  }

  /** Snapshots, deletions and failed payments together: the row carries the
      status and the stamp of the newest event among those that found a row or
      made one, unless it was newer to begin with. */
  lemma NewestStatusWins(db: Db, prices: Prices, sub: string, es: seq<Event>, at: nat -> int)
    requires AllAbout(prices, sub, es)
    ensures var x := RowOf(db.subs, sub);
            CarriesNewest(x, Kept(x, es), RowOf(DeliverAll(db, prices, es, at).subs, sub))
  {
    HandlersReplay(db, prices, sub, es, at);
    AboutIsDated(prices, sub, es);
    ReplayCarriesNewest(prices, RowOf(db.subs, sub), es);
  }

  lemma SameTimeSameEvent(es: seq<Event>, a: Event, b: Event)
    requires DistinctTimes(es) && a in es && b in es && a.created == b.created
    ensures a == b
  {
    var i :| 0 <= i < |es| && es[i] == a;
    var j :| 0 <= j < |es| && es[j] == b;
    assert es[i].created == es[j].created;
  }

  /** From any row that is not newer: the overall newest event decides status
      and stamp exactly when it did not arrive before there was a row, which is
      always the case when the mirror has one to begin with. */
  lemma NewestEventDecidesStatus(db: Db, prices: Prices, sub: string, es: seq<Event>, at: nat -> int, newest: Event)
    requires AllAbout(prices, sub, es) && DistinctTimes(es) && IsNewest(es, newest)
    requires !Newer(RowOf(db.subs, sub), newest)
    ensures var x, y := RowOf(db.subs, sub), RowOf(DeliverAll(db, prices, es, at).subs, sub);
            && (y.Some? && y.value.lastEventAt == newest.created <==> newest in Kept(x, es))
            && (newest in Kept(x, es) ==> y.Some? && y.value.status == StatusAfter(newest))
            && (x.Some? ==> newest in Kept(x, es))
  {
    var x, y := RowOf(db.subs, sub), RowOf(DeliverAll(db, prices, es, at).subs, sub);
    NewestStatusWins(db, prices, sub, es, at);
    NewestDecides(x, es, y, newest);
  }

  lemma NewestDecides(x: Option<Fields>, es: seq<Event>, y: Option<Fields>, newest: Event)
    requires DistinctTimes(es) && IsNewest(es, newest) && !Newer(x, newest) && CarriesNewest(x, Kept(x, es), y)
    ensures y.Some? && y.value.lastEventAt == newest.created <==> newest in Kept(x, es)
    ensures newest in Kept(x, es) ==> y.Some? && y.value.status == StatusAfter(newest)
    ensures x.Some? ==> newest in Kept(x, es)
  {
    var kept := Kept(x, es);
    if kept != [] {
      var e :| IsNewest(kept, e) && if Newer(x, e) then y == x else Carries(y.value, e);
      KeptMembers(x, es, e);
      if newest in kept || e.created == newest.created { SameTimeSameEvent(es, e, newest); }
    }
  }

  // ---------- the other fields: the last snapshot written ----------------------------------------

  /** What only snapshots write. */
  datatype Billed = Billed(price: string, plan: Plan, periodEnd: Option<int>, cancelAtEnd: bool)

  function BilledIn(y: Fields): Billed {
    Billed(y.price, y.plan, y.periodEnd, y.cancelAtEnd)
  }

  /** The last delivery that was a snapshot and took effect. */
  function LastSnapshot(prices: Prices, x: Option<Fields>, es: seq<Event>): Option<Event> {
    if es == [] then None
    else
      var before, last := es[..|es| - 1], es[|es| - 1];
      if last.body.Changed? && Takes(Replay(prices, x, before), last) then Some(last)
      else LastSnapshot(prices, x, before)
  }

  lemma {:induction false} ReplayBills(prices: Prices, x: Option<Fields>, es: seq<Event>)
    ensures var y, s := Replay(prices, x, es), LastSnapshot(prices, x, es);
            && (y.Some? <==> x.Some? || s.Some?)
            && (s.Some? ==> s.value in es && s.value.body.Changed?)
            && (y.Some? && s.Some? ==> BilledIn(y.value) == BilledIn(Snapshot(prices, s.value)))
            && (y.Some? && s.None? ==> BilledIn(y.value) == BilledIn(x.value))
  {
    if es != [] { ReplayBills(prices, x, es[..|es| - 1]); }
  }

  /** `s` was delivered at position `k` of the deliveries that count, before
      anything newer. */
  ghost predicate TimelyAt(kept: seq<Event>, s: Event, k: nat) {
    && k < |kept| && kept[k] == s && s.created.Some?
    && forall i :: 0 <= i < k ==> kept[i].created.Some? && kept[i].created.value <= s.created.value
  }

  ghost predicate Timely(x: Option<Fields>, kept: seq<Event>, s: Event) {
    !Newer(x, s) && exists k: nat :: TimelyAt(kept, s, k)
  }

  ghost predicate NoneAfter(kept: seq<Event>, e: Event) {
    forall i :: 0 <= i < |kept| ==> e.created.Some? && kept[i].created.Some? && kept[i].created.value <= e.created.value
  }

  /** A delivery takes effect exactly when nothing newer counted before it. */
  lemma TakesWhenNoneAfter(prices: Prices, x: Option<Fields>, es: seq<Event>, e: Event)
    requires Dated(es) && e.created.Some?
    requires x.Some? || Kept(x, es) != [] || e.body.Changed?
    ensures Takes(Replay(prices, x, es), e) <==> !Newer(x, e) && NoneAfter(Kept(x, es), e)
  {
    var kept, y := Kept(x, es), Replay(prices, x, es);
    ReplayCarriesNewest(prices, x, es);
    if kept != [] {
      var p :| IsNewest(kept, p) && if Newer(x, p) then y == x else Carries(y.value, p);
      var i :| 0 <= i < |kept| && kept[i] == p;
      assert NoneAfter(kept, e) <==> p.created.value <= e.created.value;
    }
  }

  lemma TimelyOfAppend(kept: seq<Event>, e: Event, s: Event)
    requires Dated(kept) && s.created.Some?
    ensures (exists k: nat :: TimelyAt(kept + [e], s, k))
            <==> (exists k: nat :: TimelyAt(kept, s, k)) || (e == s && NoneAfter(kept, s))
  {
    var more := kept + [e];
    if exists k: nat :: TimelyAt(more, s, k) {
      var k: nat :| TimelyAt(more, s, k);
      forall i | 0 <= i < k ensures kept[i].created.value <= s.created.value { assert more[i] == kept[i]; }
      if k < |kept| { assert TimelyAt(kept, s, k); }
    }
    if exists k: nat :: TimelyAt(kept, s, k) {
      var k: nat :| TimelyAt(kept, s, k);
      forall i | 0 <= i < k ensures more[i].created.Some? && more[i].created.value <= s.created.value {
        assert more[i] == kept[i];
      }
      assert TimelyAt(more, s, k);
    }
    if e == s && NoneAfter(kept, s) { assert TimelyAt(more, s, |kept|); }
  }

  ghost predicate NoSnapshotAfter(es: seq<Event>, s: Event) {
    forall e :: e in es && e.body.Changed? ==> e.created.Some? && s.created.Some? && e.created.value <= s.created.value
  }

  lemma LastSnapshotOfAppend(prices: Prices, x: Option<Fields>, before: seq<Event>, last: Event)
    ensures LastSnapshot(prices, x, before + [last])
         == if last.body.Changed? && Takes(Replay(prices, x, before), last) then Some(last)
            else LastSnapshot(prices, x, before)
  {
    assert (before + [last])[..|before|] == before;
  }

  /** One more delivery, `taken` or not. */
  lemma TimelyStep(x: Option<Fields>, kept: seq<Event>, more: seq<Event>, last: Event, s: Event, taken: bool,
                   was: Option<Event>, all: seq<Event>)
    requires Dated(kept) && s.body.Changed? && s.created.Some? && last.created.Some?
    requires was == Some(s) <==> Timely(x, kept, s)
    requires more == if x.Some? || kept != [] || last.body.Changed? then kept + [last] else []
    requires taken <==> last.body.Changed? && !Newer(x, last) && NoneAfter(kept, last)
    requires last.body.Changed? ==> last.created.value <= s.created.value
    requires DistinctTimes(all) && s in all && last in all
    ensures (if taken then Some(last) else was) == Some(s) <==> Timely(x, more, s)
  {
    TimelyOfAppend(kept, last, s);
    if taken && Timely(x, kept, s) {
      var k: nat :| TimelyAt(kept, s, k);
      assert kept[k].created.value <= last.created.value;
      SameTimeSameEvent(all, last, s);
    }
  }

  /** A snapshot that no other is newer than is the last one written exactly
      when it arrived in time. */
  lemma {:induction false} WrittenExactlyWhenTimely(prices: Prices, x: Option<Fields>, es: seq<Event>, s: Event,
                                                    all: seq<Event>)
    requires Dated(es) && s.body.Changed? && s.created.Some? && NoSnapshotAfter(es, s)
    requires DistinctTimes(all) && s in all && forall e :: e in es ==> e in all
    ensures LastSnapshot(prices, x, es) == Some(s) <==> Timely(x, Kept(x, es), s)
  {
    if es != [] {
      var before, last := es[..|es| - 1], es[|es| - 1];
      assert es == before + [last];
      var kept := Kept(x, before);
      forall k | 0 <= k < |kept| ensures kept[k].created.Some? { KeptMembers(x, before, kept[k]); }
      WrittenExactlyWhenTimely(prices, x, before, s, all);
      KeptOfAppend(x, before, last);
      LastSnapshotOfAppend(prices, x, before, last);
      var taken := last.body.Changed? && Takes(Replay(prices, x, before), last);
      if last.body.Changed? { TakesWhenNoneAfter(prices, x, before, last); }
      TimelyStep(x, kept, Kept(x, es), last, s, taken, LastSnapshot(prices, x, before), all);
    }
  }

  /** Price, plan, period end and cancel flag, with deletions and failed
      payments in between: the row ends with the newest snapshot's exactly when
      that snapshot was the last one written, and that is so exactly when it
      was delivered before any newer event that counted. Otherwise it ends with
      those of the last snapshot that was. */
  lemma NewestSnapshotHoldsExactlyWhenTimely(db: Db, prices: Prices, sub: string, es: seq<Event>, at: nat -> int, s: Event)
    requires AllAbout(prices, sub, es) && DistinctTimes(es)
    requires s in es && s.body.Changed? && NoSnapshotAfter(es, s)
    ensures var x, y := RowOf(db.subs, sub), RowOf(DeliverAll(db, prices, es, at).subs, sub);
            var w := LastSnapshot(prices, x, es);
            && (w == Some(s) <==> Timely(x, Kept(x, es), s))
            && y.Some?
            && (w.Some? ==> w.value.body.Changed? && BilledIn(y.value) == BilledIn(Snapshot(prices, w.value)))
            && (w.None? ==> x.Some? && BilledIn(y.value) == BilledIn(x.value))
  {
    var x := RowOf(db.subs, sub);
    HandlersReplay(db, prices, sub, es, at);
    AboutIsDated(prices, sub, es);
    WrittenExactlyWhenTimely(prices, x, es, s, es);
    ReplayBills(prices, x, es);
    SnapshotMakesARow(prices, x, es, s);
  }

  lemma {:induction false} SnapshotMakesARow(prices: Prices, x: Option<Fields>, es: seq<Event>, s: Event)
    requires s in es && s.body.Changed?
    ensures Replay(prices, x, es).Some?
  {
    var before, last := es[..|es| - 1], es[|es| - 1];
    assert es == before + [last];
    if last != s { SnapshotMakesARow(prices, x, before, s); }
  }

  // ---------- snapshots alone -----------------------------------------------------------------------

  ghost predicate AllSnapshots(es: seq<Event>) {
    forall k :: 0 <= k < |es| ==> es[k].body.Changed?
  }

  lemma {:induction false} NewestOf(es: seq<Event>) returns (e: Event)
    requires es != [] && Dated(es)
    ensures IsNewest(es, e)
  {
    if |es| == 1 {
      e := es[0];
    } else {
      var p := NewestOf(es[..|es| - 1]);
      var last := es[|es| - 1];
      e := if last.created.value >= p.created.value then last else p;
    }
  }

  lemma ApplySnapshot(prices: Prices, x: Option<Fields>, y: Option<Fields>, p: Event, last: Event)
    requires p.body.Changed? && p.created.Some? && last.body.Changed? && last.created.Some?
    requires y == if Newer(x, p) then x else Some(Snapshot(prices, p))
    ensures Apply(prices, y, last)
         == if last.created.value < p.created.value then y
            else if Newer(x, last) then x else Some(Snapshot(prices, last))
  {
  }

  lemma NewestOfTwo(es: seq<Event>, p: Event, newest: Event)
    requires es != [] && DistinctTimes(es) && IsNewest(es, newest) && IsNewest(es[..|es| - 1], p)
    ensures var last := es[|es| - 1];
            last.created.Some? && newest == if last.created.value >= p.created.value then last else p
  {
    var last := es[|es| - 1];
    var i :| 0 <= i < |es| - 1 && es[i] == p;
    SameTimeSameEvent(es, if last.created.value >= p.created.value then last else p, newest);
  }

  lemma SnapshotsBefore(es: seq<Event>)
    requires es != [] && AllSnapshots(es) && Dated(es) && DistinctTimes(es)
    ensures AllSnapshots(es[..|es| - 1]) && Dated(es[..|es| - 1]) && DistinctTimes(es[..|es| - 1])
    ensures es[|es| - 1].body.Changed? && es[|es| - 1].created.Some?
  {
  }

  /** One more snapshot, where the newest before it is what counts. */
  lemma OneMoreSnapshot(prices: Prices, x: Option<Fields>, es: seq<Event>, p: Event, newest: Event)
    requires es != [] && es[|es| - 1].body.Changed? && p.body.Changed? && p.created.Some?
    requires DistinctTimes(es) && IsNewest(es, newest) && IsNewest(es[..|es| - 1], p)
    requires Replay(prices, x, es[..|es| - 1]) == if Newer(x, p) then x else Some(Snapshot(prices, p))
    ensures newest.body.Changed?
    ensures Replay(prices, x, es) == if Newer(x, newest) then x else Some(Snapshot(prices, newest))
  {
    var before, last := es[..|es| - 1], es[|es| - 1];
    NewestOfTwo(es, p, newest);
    ApplySnapshot(prices, x, Replay(prices, x, before), p, last);
  }

  lemma {:induction false} ReplayOfSnapshots(prices: Prices, x: Option<Fields>, es: seq<Event>, newest: Event)
    requires AllSnapshots(es) && Dated(es) && DistinctTimes(es) && IsNewest(es, newest)
    ensures newest.body.Changed?
    ensures Replay(prices, x, es) == if Newer(x, newest) then x else Some(Snapshot(prices, newest))
  {
    SnapshotsBefore(es);
    var before := es[..|es| - 1];
    if before == [] {
      assert newest == es[|es| - 1];
      assert Replay(prices, x, before) == x;
    } else {
      var p := NewestOf(before);
      ReplayOfSnapshots(prices, x, before, p);
      OneMoreSnapshot(prices, x, es, p, newest);
    }
  }

  /** Last writer wins: snapshots of one subscription, in any order and with
      any repetition, leave exactly the newest snapshot in the mirror, from any
      row that is not newer; a newer row stays as it is. */
  lemma NewestSnapshotWins(db: Db, prices: Prices, sub: string, es: seq<Event>, at: nat -> int, newest: Event)
    requires AllAbout(prices, sub, es) && AllSnapshots(es) && DistinctTimes(es) && IsNewest(es, newest)
    ensures newest.body.Changed?
    ensures var x := RowOf(db.subs, sub);
            RowOf(DeliverAll(db, prices, es, at).subs, sub)
            == if Newer(x, newest) then x else Some(Snapshot(prices, newest))
  {
    HandlersReplay(db, prices, sub, es, at);
    AboutIsDated(prices, sub, es);
    ReplayOfSnapshots(prices, RowOf(db.subs, sub), es, newest);
  }

  /** Some snapshot is not older than the row. */
  ghost predicate Behind(x: Option<Fields>, es: seq<Event>) {
    exists e :: e in es && !Newer(x, e)
  }

  /** Two mirrors that were sent the same snapshots agree on every mirrored
      field, however the deliveries were ordered or repeated, if they began
      with the same row or with none that is newer than all of them. */
  lemma MirrorsConverge(a: Db, b: Db, prices: Prices, sub: string, es: seq<Event>, fs: seq<Event>,
                        at: nat -> int, bt: nat -> int)
    requires es != [] && AllAbout(prices, sub, es) && AllSnapshots(es) && DistinctTimes(es)
    requires forall e :: e in es <==> e in fs
    requires RowOf(a.subs, sub) == RowOf(b.subs, sub)
             || (Behind(RowOf(a.subs, sub), es) && Behind(RowOf(b.subs, sub), es))
    ensures RowOf(DeliverAll(a, prices, es, at).subs, sub) == RowOf(DeliverAll(b, prices, fs, bt).subs, sub)
  {
    AboutIsDated(prices, sub, es);
    forall k | 0 <= k < |fs| ensures fs[k] in es { assert fs[k] in fs; }
    var newest := NewestOf(es);
    assert newest in fs;
    NewestSnapshotWins(a, prices, sub, es, at, newest);
    NewestSnapshotWins(b, prices, sub, fs, bt, newest);
  }

  // ---------- what the code does not promise ------------------------------------------

  const PRICES: Prices := map["p" := Pro, "q" := Starter]

  function Snap(id: string, created: int, price: string): Event {
    Event(id, Some(created), Changed("s", Some(1), Remote("c", "active", true, Some(price), None, false)))
  }

  function Deletion(created: int): Event {
    Event("d", Some(created), Deleted("s", Some(1)))
  }

  lemma ReplayOneMore(prices: Prices, x: Option<Fields>, es: seq<Event>, e: Event)
    ensures Replay(prices, x, es + [e]) == Apply(prices, Replay(prices, x, es), e)
  {
    assert (es + [e])[..|es|] == es;
  }

  /** A deletion that overtakes the creation is lost: the subscription stays
      active although the newest event deleted it. */
  lemma OvertakingDeletionIsLost(at: nat -> int)
    ensures var y := RowOf(DeliverAll(Db(map[], map[], {}), PRICES, [Deletion(5), Snap("a", 3, "p")], at).subs, "s");
            y.Some? && y.value.status == "active" && StatusAfter(Deletion(5)) == "canceled"
  {
    var a, d := Snap("a", 3, "p"), Deletion(5);
    HandlersReplay(Db(map[], map[], {}), PRICES, "s", [d, a], at);
    assert [] + [d] == [d] && [d] + [a] == [d, a];
    ReplayOneMore(PRICES, None, [], d);
    ReplayOneMore(PRICES, None, [d], a);
  }

  /** With a deletion in between, two orders of the same events end with
      different prices. */
  lemma OtherFieldsNeedNotConverge(at: nat -> int)
    ensures var db := Db(map[], map[], {});
            var a, b, d := Snap("a", 3, "p"), Snap("b", 4, "q"), Deletion(5);
            var y := RowOf(DeliverAll(db, PRICES, [a, b, d], at).subs, "s");
            var z := RowOf(DeliverAll(db, PRICES, [a, d, b], at).subs, "s");
            y.Some? && z.Some? && y.value.price == "q" && z.value.price == "p"
  {
    var a, b, d := Snap("a", 3, "p"), Snap("b", 4, "q"), Deletion(5);
    ThreeDelivered(a, b, d, at);
    ThreeDelivered(a, d, b, at);
  }

  lemma ThreeDelivered(a: Event, b: Event, c: Event, at: nat -> int)
    requires AllAbout(PRICES, "s", [a, b, c])
    ensures RowOf(DeliverAll(Db(map[], map[], {}), PRICES, [a, b, c], at).subs, "s")
         == Apply(PRICES, Apply(PRICES, Apply(PRICES, None, a), b), c)
  {
    HandlersReplay(Db(map[], map[], {}), PRICES, "s", [a, b, c], at);
    ReplayThree(PRICES, a, b, c);
  }

  lemma ReplayThree(prices: Prices, a: Event, b: Event, c: Event)
    ensures Replay(prices, None, [a, b, c]) == Apply(prices, Apply(prices, Apply(prices, None, a), b), c)
  {
    assert [] + [a] == [a] && [a] + [b] == [a, b] && [a, b] + [c] == [a, b, c];
    ReplayOneMore(prices, None, [], a);
    ReplayOneMore(prices, None, [a], b);
    ReplayOneMore(prices, None, [a, b], c);
  }
}
