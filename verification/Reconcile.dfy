/** reconcile_all and its dry run: walk the local rows, fetch each from
    Stripe, patch what differs. Stripe's answers are a map; an id outside it
    is a retrieve call that raises. */
module Reconcile {
  import opened Options
  import opened Sequences
  import opened Billing

  predicate HasItem(r: Remote) {
    r.hasItems && r.price.Some?
  }

  /** Any compared field differs. */
  predicate Differs(local: Sub, r: Remote) {
    || local.status != r.status
    || local.cancelAtEnd != r.cancelAtEnd
    || local.periodEnd != EpochToIso(r.periodEnd)
    || (HasItem(r) && local.price != r.price.value)
  }

  /** The row shows what Stripe says: status, cancel flag, period end when it
      is a date of the years 1 to 9999, and the price of the item if there is
      one. */
  ghost predicate Shows(local: Sub, r: Remote) {
    && local.status == r.status && local.cancelAtEnd == r.cancelAtEnd
    && local.periodEnd == (if r.periodEnd.Some? && -62_135_596_800 <= r.periodEnd.value <= 253_402_300_799
                           then r.periodEnd else None)
    && (r.hasItems && r.price.Some? ==> local.price == r.price.value)
  }

  lemma DiffersMeansNotShown(local: Sub, r: Remote)
    ensures Differs(local, r) <==> !Shows(local, r)
  {
  }

  /** The correction works from the row as it was selected. */
  function CorrectRow(db: Db, prices: Prices, sub: string, local: Sub, r: Remote, now: int): Db {
    var price := if !r.hasItems then local.price else if r.price.Some? then r.price.value else "";
    Refresh(Upsert(db, prices, local.user, Or(r.customer, local.customer), sub, price,
                           Or(r.status, local.status), r.periodEnd, r.cancelAtEnd, now), local.user, now)
  }

  /** `WHERE status NOT IN ('canceled') ORDER BY updated_at LIMIT max`. */
  ghost predicate Selected(subs: map<string, Sub>, rows: seq<string>, max: nat) {
    && (forall k :: 0 <= k < |rows| ==> rows[k] in subs && subs[rows[k]].status != "canceled")
    && (forall i, j :: 0 <= i < j < |rows| ==> rows[i] != rows[j] && subs[rows[i]].updated <= subs[rows[j]].updated)
    && |rows| <= max
    && (forall id :: id in subs && subs[id].status != "canceled" && id !in rows ==>
          |rows| == max && forall k :: 0 <= k < |rows| ==> subs[rows[k]].updated <= subs[id].updated)
  }

  ghost predicate CoversAll(subs: map<string, Sub>, rows: seq<string>) {
    forall id :: id in subs && subs[id].status != "canceled" ==> id in rows
  }

  // ---------- counting over the rows that were reached ---------------------------

  predicate Retrieved(remotes: map<string, Remote>, id: string) {
    id != "" && id in remotes
  }

  ghost predicate Mismatch(snap: map<string, Sub>, remotes: map<string, Remote>, id: string) {
    id != "" && id in remotes && id in snap && !Shows(snap[id], remotes[id])
  }

  function Checked(remotes: map<string, Remote>, rows: seq<string>): nat {
    Count(id => Retrieved(remotes, id), rows)
  }

  ghost function Mismatches(snap: map<string, Sub>, remotes: map<string, Remote>, rows: seq<string>): nat {
    Count(id => Mismatch(snap, remotes, id), rows)
  }

  ghost function FailedCorrections(snap: map<string, Sub>, remotes: map<string, Remote>, failing: set<string>,
                             rows: seq<string>): nat {
    Count(id => Mismatch(snap, remotes, id) && id in failing, rows)
  }

  function RetrieveErrors(remotes: map<string, Remote>, rows: seq<string>): nat {
    Count(id => id != "" && id !in remotes, rows)
  }

  /** The database after the corrections of `rows`, in order. */
  ghost function Corrected(db: Db, prices: Prices, snap: map<string, Sub>, remotes: map<string, Remote>,
                     failing: set<string>, rows: seq<string>, at: nat -> int): Db {
    if rows == [] then db
    else
      var n := |rows| - 1;
      var w := Corrected(db, prices, snap, remotes, failing, rows[..n], at);
      if Mismatch(snap, remotes, rows[n]) && rows[n] !in failing
      then CorrectRow(w, prices, rows[n], snap[rows[n]], remotes[rows[n]], at(n))
      else w
  }

  datatype Report = Report(checked: nat, mismatches: nat, corrections: nat, errors: nat)

  function Reached(rows: seq<string>, cut: nat): seq<string> {
    if cut < |rows| then rows[..cut] else rows
  }

  /** A run: `cut` is how many rows the time budget lets it reach, `failing`
      the rows whose correction transaction fails. */
  method ReconcileAll(m: Mirror, rows: seq<string>, remotes: map<string, Remote>, failing: set<string>,
                      cut: nat, at: nat -> int) returns (r: Report)
    requires forall k :: 0 <= k < |rows| ==> rows[k] in m.subs
    modifies m
    ensures m.State() == Corrected(old(m.State()), m.prices, old(m.subs), remotes, failing, Reached(rows, cut), at)
    ensures r.checked == Checked(remotes, Reached(rows, cut))
    ensures r.mismatches == Mismatches(old(m.subs), remotes, Reached(rows, cut))
    ensures r.mismatches == r.corrections + FailedCorrections(old(m.subs), remotes, failing, Reached(rows, cut))
    ensures r.errors == RetrieveErrors(remotes, Reached(rows, cut))
                        + FailedCorrections(old(m.subs), remotes, failing, Reached(rows, cut))
  {
    var snap := m.subs;
    var checked, mismatches, corrections, errors := 0, 0, 0, 0;
    var n := 0;
    while n < |rows| && n < cut
      invariant n <= |rows| && n <= cut
      invariant m.State() == Corrected(old(m.State()), m.prices, snap, remotes, failing, rows[..n], at)
      invariant checked == Checked(remotes, rows[..n])
      invariant mismatches == Mismatches(snap, remotes, rows[..n])
      invariant mismatches == corrections + FailedCorrections(snap, remotes, failing, rows[..n])
      invariant errors == RetrieveErrors(remotes, rows[..n]) + FailedCorrections(snap, remotes, failing, rows[..n])
    {
      var id := rows[n];
      CountsAppend(snap, remotes, failing, rows[..n], id);
      assert rows[..n + 1] == rows[..n] + [id];
      assert (rows[..n] + [id])[..n] == rows[..n];
      if id != "" {
        if id !in remotes {
          errors := errors + 1;
        } else {
          checked := checked + 1;
          DiffersMeansNotShown(snap[id], remotes[id]);
          var local, remote := snap[id], remotes[id];
          if Differs(local, remote) {
            mismatches := mismatches + 1;
            if id in failing {
              errors := errors + 1;
            } else {
              var price := if !remote.hasItems then local.price
                           else if remote.price.Some? then remote.price.value else "";
              m.UpsertSubscription(local.user, Or(remote.customer, local.customer), id, price,
                                   Or(remote.status, local.status), remote.periodEnd, remote.cancelAtEnd, at(n));
              var _ := m.RefreshEntitlement(local.user, at(n));
              corrections := corrections + 1;
            }
          }
        }
      }
      n := n + 1;
    }
    assert rows[..n] == Reached(rows, cut);
    r := Report(checked, mismatches, corrections, errors);
  }

  lemma CountsAppend(snap: map<string, Sub>, remotes: map<string, Remote>, failing: set<string>, rows: seq<string>, id: string)
    ensures Checked(remotes, rows + [id]) == Checked(remotes, rows) + (if Retrieved(remotes, id) then 1 else 0)
    ensures Mismatches(snap, remotes, rows + [id])
         == Mismatches(snap, remotes, rows) + (if Mismatch(snap, remotes, id) then 1 else 0)
    ensures FailedCorrections(snap, remotes, failing, rows + [id])
         == FailedCorrections(snap, remotes, failing, rows)
            + (if Mismatch(snap, remotes, id) && id in failing then 1 else 0)
    ensures RetrieveErrors(remotes, rows + [id])
         == RetrieveErrors(remotes, rows) + (if id != "" && id !in remotes then 1 else 0)
  {
    CountAppend(x => Retrieved(remotes, x), rows, id);
    CountAppend(x => Mismatch(snap, remotes, x), rows, id);
    CountAppend(x => Mismatch(snap, remotes, x) && x in failing, rows, id);
    CountAppend(x => x != "" && x !in remotes, rows, id);
  }

  /** The dry run writes nothing and reports the counts a real run over the
      same rows would. */
  method DryRun(m: Mirror, rows: seq<string>, remotes: map<string, Remote>, cut: nat) returns (r: Report)
    requires forall k :: 0 <= k < |rows| ==> rows[k] in m.subs
    ensures r.checked == Checked(remotes, Reached(rows, cut))
    ensures r.mismatches == Mismatches(m.subs, remotes, Reached(rows, cut))
    ensures r.corrections == 0 && r.errors == RetrieveErrors(remotes, Reached(rows, cut))
  {
    var checked, mismatches, errors := 0, 0, 0;
    var n := 0;
    while n < |rows| && n < cut
      invariant n <= |rows| && n <= cut
      invariant checked == Checked(remotes, rows[..n])
      invariant mismatches == Mismatches(m.subs, remotes, rows[..n])
      invariant errors == RetrieveErrors(remotes, rows[..n])
    {
      var id := rows[n];
      CountsAppend(m.subs, remotes, {}, rows[..n], id);
      assert rows[..n + 1] == rows[..n] + [id];
      if id != "" {
        if id !in remotes {
          errors := errors + 1;
        } else {
          checked := checked + 1;
          DiffersMeansNotShown(m.subs[id], remotes[id]);
          if Differs(m.subs[id], remotes[id]) { mismatches := mismatches + 1; }
        }
      }
      n := n + 1;
    }
    assert rows[..n] == Reached(rows, cut);
    r := Report(checked, mismatches, 0, errors);
  }

  // ---------- running it twice ------------------------------------------------------

  /** A correction leaves no difference, unless Stripe sends an empty status
      and the local row has one. */
  lemma CorrectionSettlesARow(db: Db, prices: Prices, sub: string, local: Sub, r: Remote, now: int)
    requires sub in db.subs
    ensures Shows(CorrectRow(db, prices, sub, local, r, now).subs[sub], r) <==> r.status != "" || local.status == ""
  {
  }

  ghost predicate Distinct(rows: seq<string>) {
    forall i, j :: 0 <= i < j < |rows| ==> rows[i] != rows[j]
  }

  /** What a pass leaves alone in a row it covers: whose it is, the event
      stamp, and the price when Stripe's subscription has no item; and what it
      derives, the plan of the price. A row that already showed it all is not
      touched. */
  ghost predicate Kept(was: Sub, after: Sub, r: Remote, prices: Prices) {
    && after.user == was.user && after.customer == was.customer
    && after.lastEventAt == was.lastEventAt && after.lastEventId == was.lastEventId
    && (!r.hasItems ==> after.price == was.price)
    && (r.hasItems && r.price.None? && !Shows(was, r) ==> after.price == "")
    && (Shows(was, r) ==> after == was)
    && (!Shows(was, r) ==> after.plan == if after.price in prices then prices[after.price] else Free)
  }

  /** One row of the pass: it is settled, and the others are left alone. */
  lemma RowSettles(w: Db, prices: Prices, snap: map<string, Sub>, remotes: map<string, Remote>, row: string, now: int)
    requires row in w.subs && row in snap && w.subs[row] == snap[row]
    requires row in remotes ==> remotes[row].status != ""
    ensures var end := if Mismatch(snap, remotes, row)
                       then CorrectRow(w, prices, row, snap[row], remotes[row], now).subs else w.subs;
            && end.Keys == w.subs.Keys
            && (Retrieved(remotes, row) ==> Shows(end[row], remotes[row]) && Kept(snap[row], end[row], remotes[row], prices))
            && (!Retrieved(remotes, row) ==> end[row] == snap[row])
            && (forall x :: x in w.subs && x != row ==> end[x] == w.subs[x])
  {
    if Mismatch(snap, remotes, row) { CorrectionSettlesARow(w, prices, row, snap[row], remotes[row], now); }
  }

  /** Every row covered matches Stripe and the others are as they were. */
  ghost predicate Settled(snap: map<string, Sub>, prices: Prices, remotes: map<string, Remote>, rows: seq<string>,
                          end: map<string, Sub>) {
    && end.Keys == snap.Keys
    && forall id :: id in snap ==>
         if id in rows && Retrieved(remotes, id)
         then Shows(end[id], remotes[id]) && Kept(snap[id], end[id], remotes[id], prices) else end[id] == snap[id]
  }

  lemma OneMoreSettles(db: Db, prices: Prices, remotes: map<string, Remote>, before: seq<string>, row: string,
                       w: Db, now: int)
    requires row in db.subs && row !in before && (row in remotes ==> remotes[row].status != "")
    requires Settled(db.subs, prices, remotes, before, w.subs)
    ensures Settled(db.subs, prices, remotes, before + [row],
                    if Mismatch(db.subs, remotes, row)
                    then CorrectRow(w, prices, row, db.subs[row], remotes[row], now).subs else w.subs)
  {
    RowSettles(w, prices, db.subs, remotes, row, now);
  }

  /** After an error-free pass every row it covered matches Stripe, and the
      others are as they were. */
  lemma {:induction false} PassSettlesRows(db: Db, prices: Prices, remotes: map<string, Remote>, rows: seq<string>,
                                           at: nat -> int)
    requires Distinct(rows) && (forall k :: 0 <= k < |rows| ==> rows[k] in db.subs)
    requires forall x :: x in remotes ==> remotes[x].status != ""
    ensures Settled(db.subs, prices, remotes, rows, Corrected(db, prices, db.subs, remotes, {}, rows, at).subs)
  {
    if rows != [] {
      var n := |rows| - 1;
      var before, row := rows[..n], rows[n];
      assert rows == before + [row];
      PassSettlesRows(db, prices, remotes, before, at);
      OneMoreSettles(db, prices, remotes, before, row, Corrected(db, prices, db.subs, remotes, {}, before, at), at(n));
    }
  }

  /** The same, field by field. */
  lemma PassLeavesStripesFields(db: Db, prices: Prices, remotes: map<string, Remote>, rows: seq<string>, at: nat -> int,
                                id: string)
    requires Distinct(rows) && (forall k :: 0 <= k < |rows| ==> rows[k] in db.subs)
    requires forall x :: x in remotes ==> remotes[x].status != ""
    requires id in rows && id != "" && id in remotes
    ensures var end, r := Corrected(db, prices, db.subs, remotes, {}, rows, at).subs, remotes[id];
            && id in end && end[id].status == r.status && end[id].cancelAtEnd == r.cancelAtEnd
            && end[id].periodEnd == (if r.periodEnd.Some? && -62_135_596_800 <= r.periodEnd.value <= 253_402_300_799
                                     then r.periodEnd else None)
            && (r.hasItems && r.price.Some? ==> end[id].price == r.price.value)
            && (!r.hasItems ==> end[id].price == db.subs[id].price)
            && end[id].user == db.subs[id].user && end[id].customer == db.subs[id].customer
  {
    PassSettlesRows(db, prices, remotes, rows, at);
  }

  /** A run and a dry run count a row as a mismatch exactly when one of these
      fields is not Stripe's. */
  lemma MismatchesAreFields(snap: map<string, Sub>, remotes: map<string, Remote>, id: string)
    requires id in snap
    ensures Mismatches(snap, remotes, [id])
         == if id != "" && id in remotes
               && (var s, r := snap[id], remotes[id];
                   || s.status != r.status || s.cancelAtEnd != r.cancelAtEnd
                   || (r.hasItems && r.price.Some? && s.price != r.price.value)
                   || s.periodEnd != if r.periodEnd.Some? && -62_135_596_800 <= r.periodEnd.value <= 253_402_300_799
                                     then r.periodEnd else None)
            then 1 else 0
  {
    CountAppend(x => Mismatch(snap, remotes, x), [], id);
    assert [] + [id] == [id];
  }

  lemma {:induction false} NoMismatchNoChange(db: Db, prices: Prices, remotes: map<string, Remote>, failing: set<string>,
                                              rows: seq<string>, at: nat -> int)
    requires forall k :: 0 <= k < |rows| ==> !Mismatch(db.subs, remotes, rows[k])
    ensures Corrected(db, prices, db.subs, remotes, failing, rows, at) == db
    ensures Mismatches(db.subs, remotes, rows) == 0
  {
    if rows != [] {
      var n := |rows| - 1;
      NoMismatchNoChange(db, prices, remotes, failing, rows[..n], at);
      CountAppend(x => Mismatch(db.subs, remotes, x), rows[..n], rows[n]);
      assert rows == rows[..n] + [rows[n]];
    }
  }

  /** Fixpoint: against unchanged Stripe subscriptions with a status, a pass
      without errors over all unfinished rows leaves nothing for a second
      one, which finds no mismatch and changes no row and no plan. */
  lemma SecondRunIsANoOp(db: Db, prices: Prices, remotes: map<string, Remote>, rows: seq<string>, max: nat, at: nat -> int,
                         again: seq<string>, failing: set<string>, later: nat -> int)
    requires Selected(db.subs, rows, max) && CoversAll(db.subs, rows)
    requires forall x :: x in remotes ==> remotes[x].status != ""
    requires forall k :: 0 <= k < |rows| && rows[k] != "" ==> rows[k] in remotes
    requires Selected(Corrected(db, prices, db.subs, remotes, {}, rows, at).subs, again, max)
    ensures var end := Corrected(db, prices, db.subs, remotes, {}, rows, at);
            && Corrected(end, prices, end.subs, remotes, failing, again, later) == end
            && Mismatches(end.subs, remotes, again) == 0
  {
    var end := Corrected(db, prices, db.subs, remotes, {}, rows, at);
    PassSettlesRows(db, prices, remotes, rows, at);
    forall k | 0 <= k < |again| ensures !Mismatch(end.subs, remotes, again[k]) {
      var id := again[k];
      assert id in db.subs;
    }
    NoMismatchNoChange(end, prices, remotes, failing, again, later);
  }
}
