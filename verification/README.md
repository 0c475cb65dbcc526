# Verified model of FlipFirst's core

This project models the parts of FlipFirst whose correctness is hardest to see
by reading: the durable job queue and its workers, the lease lock and the
scheduler that lives on it, the Stripe billing mirror with its reconciler, the
fixture probe, the valuation and profit arithmetic, saved-search alerts, and
seller listings. Every claim below is an `ensures` clause that Dafny 4.11
proves; `dafny verify dfyconfig.toml` checks the whole project.

## How the model is built

* A table is a `map` or a `seq` of records. A class with one method for each
  operation changes it in place (`Jobs`, `LockRow`, `Mirror`, `Budget`,
  `Poller`, `AlertTables`, `Sellers`), and each method is tied to a function on
  the table. Runs of many workers, processes or requests are state machines
  over those same functions, one transaction a step.
* Every database transaction is one atomic step. Times are whole microseconds
  (whole seconds in the scheduler). Job workers and schedulers may use a clock
  reading taken any time before their transaction.
* Floats are `real`, and Python's `round` is rounding half to even. Where a
  float picks a position in a list, it is rounded to 53 bits.
* What titles, free text, coordinates and provider extras parse to is a field
  of the record. What Stripe answers, what a job handler does, and which
  searches accept an opportunity are parameters.

## What is proved, and where the code and its documentation differ

* **Queue** (`JobTable.dfy`, `QueueProtocol.dfy`). A run records exactly what the
  handler answers about the job that was next in order. Leases are exclusive until
  their last written expiry, and a complete, fail or extend takes effect
  exactly when it belongs to the job's latest claim. Failures are bounded by
  the cap, finished rows stay, and `drain` stops with nothing ready. The module
  docstring says that a job which keeps crashing its worker is dead-lettered.
  It is not, because `claim` never looks at the attempt count:
  `CrashingJobIsNeverDeadLettered` exhibits runs with any number of crashes and
  `DeadOnlyByRecordedFailure` says exactly when a row becomes dead.
* **Lease lock and scheduler** (`LeaseLock.dfy`). A holder keeps the lock for
  its lease plus the smallest steal window. Two schedulers never tick at once
  while cycles fit in that time, a bound that shrinks by one cycle with each
  refresh lost to a database error, and is exact: past it, for every lease,
  window and cycle, some run has two schedulers in the loop. The loser leaves
  after its next refresh that returns, and its release leaves the thief alone.
  A refresh that raises may or may not have committed. `RunLoop` is the loop as
  the source writes it; `TurnMatchesTheLoop` shows that a turn of the machine's
  process ends as a turn of that loop does.
* **Billing** (`Billing.dfy`, `BillingLaws.dfy`, `Entitlement.dfy`,
  `Convergence.dfy`, `Reconcile.dfy`). What each event writes, and when, is said
  field by field. From any row, the handlers do to a subscription what a
  replay of its events does. Snapshots converge to the newest one. With
  deletions and failed payments in between, status and stamp are the newest
  event's exactly when it did not arrive before there was a row; the other
  fields are those of the last snapshot that was written, which is the newest
  one exactly when that arrived before any newer event that counted. Paid plans
  are always backed by an entitling row, and a second reconciliation is a
  no-op. An event keeps that invariant on every database exactly when it does
  not write for an account it names; for one that does, the agreement of named
  user and row owner is what is needed. A correction settles a row except when
  Stripe sends an empty status and the local one is not empty. A handler
  exception is caught inside the transaction, so the deduplication row commits
  and a retry is ignored, although the route's comment expects Stripe to retry.
* **Probe** (`ProbeBudget.dfy` to `ProbeTheorems.dfy`, `ProbeLaws.dfy`). The order of the
  fixture file never shows in the report when records that tie are
  interchangeable. That is exactly the case in which no record has a price or
  year of -1 where a tying record has none (`AmbiguousExactlyByMinusOne`);
  fixtures without negative numbers
  always qualify. With distinct segment ids and budget enough, neither does the
  order of the segments.
* **Valuation** (`Statistics.dfy`, `Valuation.dfy`, `ValuationLaws.dfy`). Which
  peers count, how they are narrowed, and how age, year, mileage, place and trim
  weigh are exact; a comparable with most of the weight is the middle. The valuation does not
  depend on the order of peers or sales. The cross-post collapse depends on it
  exactly when two different copies of one car tie for most recently seen.
  Outlier rejection never makes enough evidence insufficient. Reported ranges
  are in order, low to high, but for asking prices whose middle is negative and
  within three per cent of a quartile, which only a mileage adjustment can
  produce: that condition is exact, cents included, and a listing with 150,000
  miles and six comparables on one straight price line is valued from
  -17,266 down to -18,334 dollars.
* **Profit and maximum offer** (`Profit.dfy`, `ProfitLaws.dfy`). Merging settings is idempotent,
  scenarios are ordered for every setting, and the maximum offer inverts the
  model to within two dollars at every setting.
* **Alerts** (`Alerts.dfy`, `AlertLaws.dfy`). A subscriber is matched and alerted
  exactly when they should be. One match for each user and event and at most
  the plan's cap of notified rows a UTC day, in every run, and one match a car
  for plans without price-drop alerts. A match is notified exactly when a job
  was queued, and no job is queued twice even after pruning, in every run that
  evaluates no withdrawn car again. A price update or a publication in flight
  can bring a withdrawn car back (seller_listings.py:385-392, 462-483;
  sniper.py:192-198); whatever is evaluated then keeps those promises exactly
  when no message was queued for a match that is gone; a return at the same
  moment is enough to break them. The cap counts rows, not
  messages: a user can be sent more than the cap on a day exactly when a message
  of that day was withdrawn with its listing.
* **Seller listings** (`SellerListings.dfy`, `SellerLaws.dfy`,
  `SellerRaces.dfy`). Rolling limits
  on emails, failed attempts and new listings hold over every window of every
  run, owner commands that approve and revoke dealers included: each seller is
  held to the largest allowance they had so far. That bound is reached, since a
  revoked dealer keeps what was listed; while nobody is approved or revoked it
  is the current limit. Live VINs stay unique; concurrent verifies and creates
  publish each listing exactly once; and an import says for every row what becomes
  of it and withdraws no car its file mentions. A confirmed address is one a token was
  made for, in every run that leaves that seller's contact alone while one of
  their confirmations is in flight. A listing is on the public table only while
  active, in every run that does not remove it while a request is about to
  ingest it. Both conditions are exact: a change of contact can lead to an
  address no token was made for exactly when a confirmation of the seller is in
  flight, and a removed listing can be shown again, by any later steps, exactly
  when a request was about to ingest it. Concrete runs reach both.
* **Timestamps** (`Timestamps.dfy`). The text comparisons the queue and the
  out-of-order guard make agree with time (the property section 5.1 of RFC 3339
  describes) for years 1000 to 9999, each microsecond of which has its text.

## Model

| member | source | states |
|---|---|---|
| JobTable.BackoffBounds | jobqueue.py:64-67 | every draw waits between one second and the ceiling, which grows with the attempts and stops at half an hour |
| JobTable.DelayIsTheDraw | jobqueue.py:64-67 | the delay is the draw, or one second if that is more, to the nearest microsecond |
| JobTable.CeilingDoubles | jobqueue.py:64-67 | the ceiling starts at five seconds and doubles with each attempt up to half an hour |
| JobTable.NextInOrder | jobqueue.py:103-115 | the job that is claimed is due, or left with its lease over, and none such has a lower priority number, nor among those an earlier due time, nor among those a lower id |
| JobTable.PrunedExactlyPastRetention | jobqueue.py:287-297 | a row is deleted exactly when it is done or dead and finished more than its own number of days ago |
| JobTable.NoWorkExactlyWhenFinished | jobqueue.py:234-245 | no work is left over exactly when every job is done or dead |
| JobTable.FreshJobIsItsAttempts | jobqueue.py:234-245 | a new job is as much work as it has attempts |
| JobTable.Jobs.Enqueue | jobqueue.py:72-87 | adds exactly one pending row under a fresh id, or nothing when the dedupe key exists |
| JobTable.Jobs.Claim | jobqueue.py:103-154 | takes the ready or lease-expired row of the wanted kinds that is first by priority, due time and id, and counts the attempt; None exactly when there is none |
| JobTable.Jobs.ExtendLease | jobqueue.py:157-164 | moves the expiry only for the worker the running row names |
| JobTable.Jobs.Complete | jobqueue.py:167-177 | finishes the row only for the worker it names, and otherwise changes nothing |
| JobTable.Jobs.Fail | jobqueue.py:180-206 | dead-letters a permanent failure or a last attempt, reschedules any other with the backoff, and is refused to a superseded worker |
| JobTable.Jobs.RequeueDead | jobqueue.py:277-284 | makes a dead row pending with no attempts, and no other |
| JobTable.Jobs.Prune | jobqueue.py:287-297 | removes exactly the finished rows past their retention |
| JobTable.NoWorkNothingReady | jobqueue.py:234-245 | when no work is left over, nothing is ready |
| JobTable.RunOneMakesProgress | jobqueue.py:214-231 | a crash-free run of one job strictly lowers the sum of remaining attempts over unfinished jobs |
| JobTable.Jobs.RunOne | jobqueue.py:214-231 | the handler is asked about the job as it was claimed; its answer is the outcome and decides whether the row is done, dead, or pending again after the backoff |
| JobTable.Jobs.Drain | jobqueue.py:234-245 | each result is the handler's answer for the job that was next, each run lowers the remaining work by at least one, and a drain with a limit of that much work stops with nothing ready |
| QueueProtocol.EveryRunKeepsInv | jobqueue.py:103-206 | the row, retry and in-flight invariants hold after every interleaving of claims, extensions, results, crashes, requeues, prunes and withdrawals |
| QueueProtocol.KeysStayUnique | jobqueue.py:72-87 | no two rows ever share a dedupe key |
| QueueProtocol.LeaseIsExclusive | jobs/worker.py:74-94 | until the last expiry it wrote, an in-flight worker made the latest claim on its job, the row names it, and any other worker on that job has an expired lease |
| QueueProtocol.FenceAdmitsOnlyTheLatestClaim | jobqueue.py:157-206 | a complete, fail or extend takes effect exactly when it belongs to the latest claim, the row then carries the attempt it was handed, and otherwise the table does not change |
| QueueProtocol.RetriesAreBounded | jobqueue.py:180-206 | at most max_attempts - 1 failures reschedule a job since it was enqueued or requeued, and a pending job has an attempt left |
| QueueProtocol.FinishedRowsStay | jobqueue.py:277-297 | done rows never change until pruned; dead rows only by requeue or pruning |
| QueueProtocol.DeadOnlyByRecordedFailure | jobqueue.py:180-206 | a row becomes dead exactly by a failure of its latest claim that is permanent or on the last attempt |
| QueueProtocol.CrashingJobIsNeverDeadLettered | jobqueue.py:13-15 | the documented dead-lettering of crashing jobs fails: for every kind, lease and cap, after any number of crashes the job is still running |
| LeaseLock.LockRow.Acquire | joblock.py:31-50 | takes the row exactly when it is free or expired longer ago than the steal window |
| LeaseLock.LockRow.Refresh | joblock.py:53-67 | extends the lease exactly when the row still names the caller |
| LeaseLock.LockRow.Release | joblock.py:70-81 | frees the row exactly when it names the caller |
| Scheduler.RunLoop | jobs/scheduler.py:166-258 | exactly which turn the loop ends at and with which exit code: lost lock, once, tick limit or signal |
| Scheduler.TurnMatchesTheLoop | jobs/scheduler.py:203-240 | a turn of a process in the many-process machine goes on, or releases with the same exit code, as a turn of that loop does |
| Scheduler.StartOfALoop | jobs/scheduler.py:137-147 | a new process enters the loop holding the lock exactly when the lock is free or expired longer ago than its steal window, and else stops with code 2 |
| Scheduler.EndOfATurn | jobs/scheduler.py:219-240 | a refresh renews the lease exactly when the lock is still the process's own, ends the loop with code 2 when not, and counts as a miss when it raises |
| Scheduler.EveryRunKeepsInv | joblock.py:31-81 | whoever is in the loop holds the lock, or the clock is past its grant plus lease plus the smallest steal window |
| Scheduler.HolderIsSafeUntil | jobs/scheduler.py:137-258 | a process in the loop is the holder until its last grant plus its lease plus the smallest steal window, through any outage |
| Scheduler.PacedRunAccountsMisses | jobs/scheduler.py:206-245 | with cycles of bounded length, a process last passed its refresh at most one cycle after its grant for each refresh lost to an error |
| Scheduler.SchedulersNeverTickTogether | jobs/scheduler.py:137-258 | two processes whose cycles, missed refreshes included, fit in lease plus steal window are never in the loop at once |
| Scheduler.UncoveredSchedulersMayTickTogether | jobs/scheduler.py:219-240 | the bound is exact: past it, for every lease, window, cycle and number of lost refreshes, a run of that pace has two processes in the loop |
| Scheduler.LeavingForGood | jobs/scheduler.py:206-258 | a process that found its lock lost never ticks again, whatever happens |
| Scheduler.LoserLeavesTheThiefAlone | jobs/scheduler.py:206-258 | after losing the lock, the next refresh that returns ends the ticking, and no step of the loser, its release included, touches the new holder's row |
| Timestamps.TextOrderIsTimeOrder | jobqueue.py:53-57 | fixed-width stamps, and ISO stamps with or without a fraction, compare as text exactly as the instants do, for years 1000 to 9999 |
| Timestamps.EveryInstantHasItsMoment | jobqueue.py:53-57 | every microsecond of those years is the instant of exactly one calendar moment |
| Timestamps.DayAfterIsADayLater | jobqueue.py:53-57 | the instant those texts are compared by grows by 24 hours a calendar day, over the ends of months and of leap and common years |
| Timestamps.LessTextIsEarlier | jobqueue.py:53-57 | one text is strictly less than the other exactly when its instant is earlier |
| Timestamps.DigitsReadBack | jobqueue.py:53-57 | the digits written for a field, read back as decimal, are the field |
| Billing.Mirror.UpsertSubscription | billing.py:242-282 | writes the snapshot's fields, keeps the owner of an existing row, and leaves other rows alone |
| Billing.Mirror.StampLastEvent | billing.py:229-239 | stamps the row with the event's creation time when it has one |
| Billing.Mirror.RefreshEntitlement | billing.py:318-369 | stores the best plan among the user's entitling rows |
| Billing.Mirror.Dispatch | billing.py:793-802 | each event type changes the database as its handler says, guarded by the order of events where the handler is |
| Billing.Mirror.Webhook | billing.py:116-135 | a delivery is recorded once and its handler applied only then |
| Billing.HandleLeavesSeen | billing.py:409-776 | no handler touches the record of seen events |
| Billing.SecondDeliveryIsIgnored | server.py:1657-1668 | a second delivery of an event changes nothing, also when the first one's handler raised |
| BillingLaws.ChangesAreMirrored | billing.py:472-523 | a subscription event writes exactly Stripe's fields and its own stamp, exactly when an account is known, the price is on sale and no later event came first; the owner gets the best plan paid for |
| BillingLaws.EndsAreMarked | billing.py:526-616 | a deletion leaves canceled and a failed payment past due, under the same guards, with all else as it was |
| BillingLaws.CheckoutsAreMirrored | billing.py:409-469 | a completed checkout is mirrored for the account it names with what Stripe then says, or changes nothing |
| BillingLaws.PaymentsAreMirrored | billing.py:554-594 | a paid invoice is mirrored likewise for the account known for it |
| BillingLaws.MoneyBackIsMarked | billing.py:658-790 | a full refund cancels and an opened dispute makes past due the linked subscription for its owner; a partial refund and a closed dispute change nothing |
| Entitlement.EvaluationOnlyFalls | billing.py:318-369 | as time passes the evaluation of unchanged rows can only fall |
| Entitlement.FreshPlanIsBacked | billing.py:318-369 | right after a refresh the stored plan is backed by an entitling row |
| Entitlement.WriteThenRefreshKeepsInv | billing.py:242-282 | writing rows of one owner and refreshing that owner keeps the invariant for everyone |
| Entitlement.HandleKeepsInv | billing.py:409-776 | every handler keeps the invariant when the named user and the row's owner agree |
| Entitlement.OwnersNeverChange | billing.py:259-264 | a row keeps its owner through every run |
| Entitlement.PaidPlansAreBacked | billing.py:318-369 | after any run of webhooks and reconciler corrections, a paid plan is carried by an active or trialing row of its user, and no evaluation, then or later, exceeds the stored plan |
| Entitlement.HandlersRefreshTheOwner | billing.py:409-764 | if a handler changed a row, its owner's plan is a fresh evaluation at that moment |
| Entitlement.DisagreementBreaksInv | server.py:1597-1602 | an event that names an account and lets its handler write breaks the invariant on some database, whoever else owns the row |
| Entitlement.SafeOnEveryDatabase | billing.py:374-776 | an event keeps the invariant on every database exactly when it does not write for an account it names; refunds and disputes never do |
| Convergence.NewestSnapshotWins | billing.py:472-523 | from any row that is not newer, snapshots of a subscription in any order and repetition leave every mirrored field equal to the newest; a newer row stays |
| Convergence.HandlersReplay | billing.py:212-282 | whatever else the handlers write, the row of a subscription is the replay of its events on the row it was |
| Convergence.MirrorsConverge | billing.py:212-239 | two mirrors sent the same snapshots agree however the deliveries were ordered, from the same row or from rows that some snapshot is not older than |
| Convergence.NewestStatusWins | billing.py:526-551 | deletions and failed payments included, the row carries the status and stamp of the newest event that found a row or made one, unless it was newer to begin with |
| Convergence.NewestEventDecidesStatus | billing.py:597-616 | from any row that is not newer, the newest event decides status and stamp exactly when it did not arrive before there was a row, which is always so when the mirror has one |
| Convergence.NewestSnapshotHoldsExactlyWhenTimely | billing.py:472-523 | price, plan, period end and cancel flag are those of the last snapshot written, and that is the newest snapshot exactly when it was delivered before any newer event that counted |
| Convergence.OvertakingDeletionIsLost | billing.py:545-549 | a deletion before the row exists is lost: a concrete run that ends active |
| Convergence.OtherFieldsNeedNotConverge | billing.py:526-551 | with a deletion in between, two orders of the same events can end with different prices: a concrete pair |
| Reconcile.ReconcileAll | billing.py:853-977 | the database after the run, and every count: checked, mismatches = corrections + failed corrections, errors |
| Reconcile.DryRun | billing.py:1058-1119 | changes nothing and reports the same checked and mismatch counts |
| Reconcile.CorrectionSettlesARow | billing.py:919-945 | after a correction the row still differs exactly when Stripe sent an empty status and the local one was not empty |
| Reconcile.PassSettlesRows | billing.py:853-977 | after an error-free pass every covered row matches Stripe and every other row is as it was |
| Reconcile.PassLeavesStripesFields | billing.py:833-945 | after an error-free pass status, cancel flag, period end and price of a covered row equal Stripe's, and its owner and customer are kept |
| Reconcile.MismatchesAreFields | billing.py:833-850 | a run and a dry run count a row as a mismatch exactly when one of those fields is not Stripe's |
| Reconcile.SecondRunIsANoOp | billing.py:817-850 | against unchanged subscriptions with a status, a second run finds no mismatch and changes no row and no plan |
| ProbeBudget.Budget.Reserve | probe_tuscaloosa.py:287-299 | a reservation is accepted exactly when it fits under the cap, refusals are recorded and stop nothing else, and usage equals the accepted ledger calls |
| ProbeBudget.Budget.Load | probe_tuscaloosa.py:308-319 | a loaded budget keeps its usage, ledger and stop flag |
| ProbeBudget.Poller.PollOnce | probe_tuscaloosa.py:417-426 | a cached segment costs nothing; a failure caches nothing and stays charged |
| ProbeBudget.Poller.PollPaged | probe_tuscaloosa.py:428-467 | succeeds exactly when every page arrives within its retries and the calls fit, returns the pages joined, and charges every attempt |
| ProbeBudget.CostBounds | probe_tuscaloosa.py:428-467 | a complete poll costs between the page count and the page count times retries plus one |
| ProbeBudget.PagesJoinToTheRecords | probe_tuscaloosa.py:537-545 | the ceil-division pages, joined, are the original records |
| ProbeLaws.NoPageToSpare | probe_tuscaloosa.py:537-545 | the page count is the fewest pages that hold the records, and one for none |
| ProbeListing.TupleOrder | probe_tuscaloosa.py:349-376 | the canonical key orders records totally up to ties |
| ProbeListing.TieInterchangeable | probe_tuscaloosa.py:242-257 | records that tie are interchangeable for every segment exactly when they have price and year alike |
| ProbeLaws.SameVehicleExactly | probe_tuscaloosa.py:322-334 | two records are the same vehicle exactly by VIN, or without VINs by title, odometer and photo |
| ProbeLaws.ClaimedExactly | probe_tuscaloosa.py:242-257 | a segment claims a record exactly in its price and year bounds, of its makes, and with a model that starts with one of its models |
| ProbeLaws.TieExactly | probe_tuscaloosa.py:349-376 | two records tie in the canonical order exactly when dates, texts and numbers agree, a missing number counting as -1 |
| ProbeLaws.FromZeroOrderNeverShows | probe_tuscaloosa.py:349-376 | records without negative prices and years give one tally in any order |
| ProbeTally.Walk | probe_tuscaloosa.py:552-604 | the loop over a segment's sorted records computes the pass |
| ProbeTally.PassFindsFirsts | probe_tuscaloosa.py:576-604 | each key's observation is its first record in radius, and its match is that record's |
| ProbeTally.PassCounts | probe_tuscaloosa.py:576-604 | seen = out of radius + unique + relists + repeated, and relists are the later records of a key with another source id |
| ProbeTally.TallyIgnoresOrder | probe_tuscaloosa.py:552-604 | unambiguous records give the same tally in any order |
| ProbeTally.OrderShowsExactlyWhenAmbiguous | probe_tuscaloosa.py:349-376 | the order of a segment's records never shows, in any segment, exactly when they are unambiguous; non-negative records are |
| ProbeTally.AmbiguousExactlyByMinusOne | probe_tuscaloosa.py:349-376 | records are ambiguous exactly when two least sightings of a vehicle differ in a price, or a year, that is -1 on one and missing on the other |
| ProbeTally.AMinusOneShows | probe_tuscaloosa.py:242-257 | a concrete list: any record in radius without a price, and its copy with a price of -1 |
| ProbeTally.TallyAddsUp | probe_tuscaloosa.py:552-604 | the identities from the records alone, each vehicle's first being a least sighting |
| ProbeReport.LeastObservation | probe_tuscaloosa.py:379-394 | the canonical observation is the least, however the loop meets it |
| ProbeReport.CanonicalIgnoresOrder | probe_tuscaloosa.py:379-394 | the canonical observation does not depend on the order of observations |
| ProbeReport.DateVehicle | probe_tuscaloosa.py:625-642 | each vehicle is dated, unknown or invalid as its canonical observation says |
| ProbeLaws.DatedByTheEarliest | probe_tuscaloosa.py:379-394 | a vehicle is dated by its earliest known first day, then by source id |
| ProbeLaws.DatesAreCounted | probe_tuscaloosa.py:625-648 | invalid, unknown and daily counts are of vehicles: dated after the run or first seen before posted; missing a date; and first seen on that day |
| ProbeLaws.LagsAreCounted | probe_tuscaloosa.py:625-648 | each lag is reported as often as a validly dated vehicle was first seen that many days after it was posted |
| ProbeLaws.LagStatistics | probe_tuscaloosa.py:644-648 | count, least, greatest and middle of those lags |
| ProbeReport.RunProbe | probe_tuscaloosa.py:495-702 | a blocked source is refused first, then any bad argument, and otherwise the result is the report of the outcomes |
| ProbeReport.ReportIgnoresEnumeration | probe_tuscaloosa.py:617-648 | the report does not depend on the order in which vehicles are visited |
| ProbeTheorems.FixtureOrderNeverShows | probe_tuscaloosa.py:495-648 | permuting the fixture list changes nothing in the report, for unambiguous records |
| ProbeTheorems.NonNegativeFixturesQualify | probe_tuscaloosa.py:349-376 | fixtures without negative numbers are unambiguous |
| ProbeTheorems.EnoughBudget | probe_tuscaloosa.py:536-560 | with a budget for every page, every segment is polled for exactly its pages |
| ProbeTheorems.SegmentOrderNeverShows | probe_tuscaloosa.py:536-648 | with distinct ids and budget enough, permuting the segments changes nothing in the report |
| ProbeTheorems.ReportAddsUp | probe_tuscaloosa.py:650-702 | seen splits into out of radius, unique, relists and repeated, and unique vehicles into dated, unknown and invalid |
| Statistics.MedianOfPermutation | valuation.py:318-327 | the median does not depend on the order of the values |
| Rounding.RoundExactly | valuation.py:674-689 | reported amounts round to the nearest unit, to the even one at a tie |
| ValuationLaws.MedianOfSorted | valuation.py:318-327 | the median is the middle value or the mean of the two in the middle |
| ValuationLaws.OutliersExactly | valuation.py:318-327 | of four or more values, exactly those further from the median than three times 1.4826 times the median deviation are dropped, unless that is zero |
| Statistics.MadKeepsMajority | valuation.py:318-327 | rejection keeps at least half plus one of four or more values, and never turns three or more into fewer |
| Statistics.WQuantile | valuation.py:306-315 | the loop returns the weighted quantile |
| Statistics.QuantileSplitsWeight | valuation.py:306-315 | the quantile is one of the values, with less than its share of the weight strictly below it and at least that share at or below |
| Statistics.QuantileMonotone | valuation.py:306-315 | a larger share never gives a smaller quantile |
| Statistics.AllSlopes | valuation.py:338-344 | the double loop collects the slope of every pair at least a thousand miles apart |
| Statistics.TheilSenOfPermutation | valuation.py:330-344 | the slope does not depend on the order of the points, subsampling included |
| Comparables.KeepUsable | valuation.py:421-441 | the usability rules keep exactly the peers that meet them, in order |
| Comparables.CollapseCrossPosts | valuation.py:443-451 | the dictionary loop leaves the surviving copy of each car |
| Comparables.SurvivorIsLatest | valuation.py:443-451 | the copy that survives belongs to the key and no copy was seen later |
| ValuationLaws.UsableExactlyWhen | valuation.py:421-441 | a peer is usable exactly when it is another sound car for sale at a plausible price, of the listing's variant, within two years, and seen in forty-five days or at an unknown time |
| ValuationLaws.OneRowACar | valuation.py:347-359 | exactly one row of each physical car is left, said by vehicle key, by mileage band or by title |
| Comparables.OrderShowsExactlyWhenAmbiguous | valuation.py:347-359 | the collapse depends on the order of peers exactly when different copies of one car tie for most recently seen |
| Comparables.NotesAreTrue | valuation.py:459-502 | what is reported about region, sellers, years and trim is true of every comparable that later stages leave |
| ValuationLaws.StagesKeepThreeOrAll | valuation.py:459-502 | each narrowing by place, seller, year and trim keeps the peers that fit if three do, and otherwise all |
| ValuationLaws.NotesExactly | valuation.py:459-502 | the geography, dealer, year and trim notes say exactly which of those narrowings took place |
| ValuationLaws.LastStagesKeepThreeOrAll | valuation.py:504-513 | the same for drivetrain and engine |
| Comparables.ComparablesAreUsable | valuation.py:421-451 | every comparable is a usable peer, and no two are the same car |
| Valuations.PricePairs | valuation.py:527-536 | the loop prices and weighs each peer, dropping those an adjustment cannot use |
| Valuations.Quality | valuation.py:242-280 | a peer's similarity is above zero and at most one |
| ValuationLaws.WeightByAge | valuation.py:195-206 | comparables alike but for when they were seen weigh 10, 6, 3, 0 and 5 tenths: in a week, three weeks, forty-five days, before, unknown |
| ValuationLaws.StalerWeighsLess | valuation.py:195-206 | the staler of two weighs strictly less when one of those limits lies between them |
| ValuationLaws.TwinWeighsOne | valuation.py:242-280 | a comparable seen today that is like the listing in all that is known weighs one |
| ValuationLaws.WeightByYear | valuation.py:242-280 | one model year off leaves nine tenths of the weight, two three quarters |
| ValuationLaws.WeightByMiles | valuation.py:242-280 | 15,000 and 40,000 miles apart leave nine tenths and three quarters, and no odometer 85 hundredths |
| ValuationLaws.WeightByPlace | valuation.py:242-280 | fifty and 150 miles away leave 95 and 80 hundredths, and an unknown place nine tenths |
| ValuationLaws.WeightByTrim | valuation.py:242-280 | another trim leaves 85 hundredths and an unknown one nine tenths |
| ValuationLaws.UnknownsMakeNoDifference | valuation.py:242-280 | what the listing does not say of its mileage, place or trim makes no difference between comparables |
| ValuationLaws.PairsArePriced | valuation.py:527-536 | a comparable is priced at what is asked plus the slope for every mile the listing has more, and needs an odometer for that |
| ValuationLaws.EveryFitPeerIsPriced | valuation.py:527-536 | every comparable that can be priced is |
| ValuationLaws.MajorityIsReported | valuation.py:306-315 | a comparable with more than half of the weight is the reported middle |
| Valuations.SlopeFor | valuation.py:516-525 | an adjustment needs the listing's mileage and lies between -0.30 and zero dollars a mile |
| ValuationLaws.SlopeExactly | valuation.py:516-525 | the adjustment is the falling slope of at least six odometers, at most thirty cents a mile, and none otherwise |
| Valuations.ValueListing | valuation.py:404-671 | the whole cascade computes the valuation function |
| Valuations.Judge | valuation.py:541-671 | confirmed sales, then asking prices, then history decide, with points scored step by step |
| ValuationLaws.EvidenceInOrder | valuation.py:541-671 | three completed sales decide, else three comparables, else three historical records, else nothing |
| ValuationLaws.CountsAndSlope | valuation.py:541-671 | the count, slope and geography reported with each kind of evidence |
| ValuationLaws.DealersAreOfAskingPrices | valuation.py:662-665 | the dealer share is of asking prices only, and there is no label exactly without evidence |
| ValuationLaws.DealerShareIsClose | valuation.py:662-665 | that share counts dealers and sellers who do not say, to the cent |
| ValuationLaws.AskingIsReportedByQuartiles | valuation.py:674-689 | asking prices are reported by their weighted quartiles, three per cent of the middle wider on each side, to the cent |
| ValuationLaws.SalesAreReportedByQuartiles | valuation.py:674-689 | completed sales by theirs, and historical records widened too |
| ValuationLaws.SpreadCounts | valuation.py:541-671 | a spread of fifteen per cent of the middle counts for the label, one above thirty-five against it |
| ValuationLaws.ConflictExactly | valuation.py:562-565 | asking prices conflict with sales exactly when their middles differ by more than a quarter of the latter |
| ValuationLaws.GapExactly | valuation.py:643-653 | the mileage gap holds exactly beyond 40,000 miles from every one of at least three odometers, below only when adjusted |
| ValuationLaws.OtherTrimsExactly | valuation.py:623-630 | the label is capped for trim exactly when more than half are known to be another trim and none was matched |
| ValuationLaws.LabelsByPoints | valuation.py:400-401 | two points make medium, four make high with completed sales only, and historical records are always low |
| Valuations.ValuationIgnoresOrder | valuation.py:404-671 | permuting peers and sales changes neither evidence class, range, count, confidence, slope nor dealer share, unless copies of a car tie |
| Valuations.OutliersNeverMakeInsufficient | valuation.py:537-599 | the result is insufficient exactly when fewer than three priced comparables, sales and historical records exist before rejection, and otherwise reports at least three |
| Valuations.RangesAreOrdered | valuation.py:674-689 | low <= mid <= high in every reported range of sales, and in one of asking prices exactly when its quartiles leave three per cent of room below a negative middle, or fall on its cent |
| Valuations.RoomWithoutSteepAdjustment | valuation.py:516-536 | that room is there without a mileage adjustment, and with one that exceeds no comparable's price at thirty cents a mile |
| Valuations.FinishKeepsOrderExactly | valuation.py:674-689 | widening and rounding keep one ordered range in order exactly when it has that room |
| ReversedRanges.LineReverses | valuation.py:516-541 | six to two hundred comparables on one straight price line, and a listing valued a dollar or more below zero by it, give a range upside down |
| ReversedRanges.AReportedRangeIsReversed | valuation.py:404-689 | a concrete listing and six cars for which the reported range is reversed |
| Valuations.WideningNeedsNonNegativeMiddle | valuation.py:677-683 | widening keeps every ordered range ordered exactly when the middle is not negative |
| Valuations.FinishKeepsOrder | valuation.py:674-689 | widening and rounding to cents keep a range with non-negative middle in order |
| Valuations.HighConfidenceNeedsSales | valuation.py:546-681 | confidence is high exactly with ten agreeing completed sales, a tight spread and no wider-area penalty |
| Valuations.CapHoldsAtLow | valuation.py:668-671 | mostly different trims, or a large unadjusted mileage gap, hold asking evidence at low |
| Profit.CleanSettings | profit.py:80-95 | values are clamped to their bounds, blanks mean unset, and the rest is dropped |
| Profit.MergeSettings | profit.py:98-112 | the user's values over the defaults, with the pre-split repair rule and the zeroed blanks |
| ProfitLaws.DefaultAssumptions | profit.py:32-47 | every default |
| ProfitLaws.SettingsAreClamped | profit.py:54-62 | a number the user set is taken within the limits of its key, and at the nearer limit beyond them |
| ProfitLaws.BlanksAndGarbage | profit.py:77-112 | what is no number counts as not set; a blank is zero, unset for tax and title, and the default for days to sell |
| Profit.MergedIsIdempotent | profit.py:98-112 | merging what was merged changes nothing |
| Profit.OverlayKeepsTheRest | analyze.py:238-241 | costs overlaid on merged settings leave every other assumption as it was |
| Profit.OverlayOnRawLosesTheAllowance | analyze.py:238-241 | overlaid on raw settings, a lone cosmetic cost would drop the mechanical allowance |
| Profit.BuyCosts | profit.py:125-140 | which costs have an entry and what each is; together they are the tax on the purchase plus costs that do not depend on the price |
| Scenarios.ComputeOutlook | profit.py:158-214 | the three scenarios, or nothing without a price and a middle value |
| ProfitLaws.HaircutExactly | profit.py:189-193 | nothing is taken off sales and the user's own estimate, the asking gap off any other evidence, and off asking prices also the dealer gap in proportion to the dealers; the cap of nine tenths is never reached |
| ProfitLaws.ShapesAre | profit.py:173-176 | the discounts and days of the three scenarios, and the ends of the range they sell at |
| ProfitLaws.ScenariosAre | profit.py:198-214 | each scenario is reported in its own shape, at the merged settings and the haircut of its evidence |
| ProfitLaws.NothingWithoutAPrice | profit.py:166-167 | nothing is estimated exactly without a price or a middle value |
| ProfitLaws.ScenariosSellBuyAndHold | profit.py:198-214 | each sells at its value less the haircut, buys at its discount and holds at so much a day, to the dollar |
| ProfitLaws.CostsComeOffTheProfit | profit.py:125-140 | profit is resale less everything put in, cost by cost |
| Scenarios.CostBasisOf | profit.py:143-155 | money in equals the base scenario's, whatever the resale value |
| Scenarios.ScenariosAreOrdered | profit.py:178-214 | conservative <= base <= optimistic, profit and resale, for every setting |
| Scenarios.MaxOfferInvertsTheModel | analyze.py:256-267 | paying the maximum offer shows the target profit to within two dollars, and two dollars more never shows more than the target |
| Alerts.AlertTables.EnqueueUser | notifications.py:349-360 | one job for each channel whose key is new, in order |
| Alerts.AlertTables.MatchSubscriber | saved_search_alerts.py:183-272 | one subscriber's decision, match row, jobs and report |
| Alerts.AlertTables.Evaluate | saved_search_alerts.py:158-273 | every subscriber in turn, and exactly the reports of those matched, in order |
| AlertLaws.MatchedExactlyWhen | saved_search_alerts.py:183-252 | a match is made exactly when the plan alerts, some search among its oldest takes the event, the user has no match for it and no cross-post of a new car within fourteen days; otherwise nothing changes |
| AlertLaws.MatchedAndQueued | saved_search_alerts.py:236-270 | its search is the first that takes the event, and one job is queued for each channel that is on and has none, while the day has room |
| AlertLaws.ToldExactly | saved_search_alerts.py:254-272 | what is reported: the user, the event, that search, and exactly the channels on offer |
| AlertLaws.ToldAreTheNewMatches | saved_search_alerts.py:158-273 | one report for each new row, in order, with its user, event and search |
| AlertRuns.EveryRunKeepsBase | saved_search_alerts.py:241-253 | in every run, one match for each user and event, and none notified without a job queued for it |
| AlertRuns.PromisesHoldWithoutReturns | saved_search_alerts.py:254-270 | in every run that evaluates no withdrawn car again, a match is notified exactly when a job was queued for it and no job is created twice, even after pruning |
| AlertRuns.ReturnsAreHarmlessExactlyWhenNothingIsStale | seller_listings.py:502-521 | whatever is evaluated next keeps those promises exactly when no message was queued for a match that is gone |
| AlertRuns.AReturnBreaksPromisesAtOnce | seller_listings.py:385-392 | any car, new or cheaper, withdrawn after its alert and evaluated again at the same moment breaks them, its job deleted or not |
| AlertRuns.ReportedIsStored | saved_search_alerts.py:267-272 | in runs without such returns the reported flag agrees with the stored one: every offered channel was queued |
| AlertRuns.DailyCapHolds | saved_search_alerts.py:236-239 | notified matches of a user on one UTC day never exceed the plan's cap |
| AlertRuns.MessagesKeepTheCap | saved_search_alerts.py:236-239 | messages of a day exceed the cap by no more than were withdrawn, and keep it when none was |
| AlertRuns.CapOnMessagesExactlyWithoutWithdrawals | seller_listings.py:510-516 | at any moment of any run the day can go on to send a user more than the cap exactly when a message of that day was withdrawn |
| AlertRuns.AlertedThenWithdrawn | seller_listings.py:510-516 | such a moment is reached: one alert, then its listing withdrawn with its job waiting or done |
| AlertRuns.OneMatchPerCar | saved_search_alerts.py:190-197 | a user never on a plan with price-drop alerts has at most one match a car |
| AlertRuns.CrossPostsAreSpaced | saved_search_alerts.py:226-234 | the same car on another source makes no second first match within fourteen days |
| RollingLimit.AdmittedKeepsLimit | seller_listings.py:269-286 | admitting while fewer than the cap were admitted in the last window bounds every window, wherever it starts |
| SellerService.Sellers.IssueTokenTo | seller_listings.py:269-286 | refuses the sixth email of a day and one within a minute of the last, and otherwise adds one token |
| SellerLaws.EmailedExactlyWhen | seller_listings.py:269-286 | an email goes out exactly with fewer than five in the last day and none in the last minute, with a token of one day |
| SellerLaws.StartsExactly | seller_listings.py:294-309 | a confirmed contact gets no email; for anybody else the contact is made if there is none and the token is for its address |
| SellerLaws.WithdrawnExactly | seller_listings.py:319-325 | an email that could not be sent takes back its token, every copy of it and no other |
| SellerLaws.AcceptedExactlyWhen | seller_listings.py:331-352 | a link is accepted exactly with fewer than ten failures in the last hour and an unused, unexpired token of the user for that link and address |
| SellerLaws.ConfirmedExactly | seller_listings.py:358-363 | a confirmation marks its own token used, and no other, and the contact verified |
| SellerLaws.IssuedWithItsToken | seller_listings.py:269-286 | a step of a run counts an address as issued exactly when it did before or the step adds a token for it |
| SellerLaws.ContactExactly | seller_listings.py:241-266 | another address waits to be confirmed and voids the user's tokens; the same one in any case changes nothing |
| SellerLaws.SameAddressExactly | seller_listings.py:241-266 | two addresses are the same letter by letter, a capital A to Z as its small one |
| SellerService.Sellers.PublishPending | seller_listings.py:374-394 | what is pending when it starts is flipped and ingested, each listing once |
| SellerService.Sellers.Verify | seller_listings.py:331-371 | a good link confirms and publishes; a bad one is recorded; too many are refused unrecorded |
| SellerService.Sellers.Create | seller_listings.py:399-442 | adds exactly one row with its VIN, active when the contact is confirmed and pending otherwise, exactly when the form is valid and every limit and the VIN allow it |
| SellerLaws.InsertedExactlyWhen | seller_listings.py:409-423 | a listing is accepted exactly under the live limit, the daily limits and with no live listing of its VIN |
| SellerLaws.ApprovedExactly | seller_listings.py:706-728 | an approval takes exactly one to a thousand live listings and concerns nobody else |
| RollingLimit.SharedWindow | seller_listings.py:407-419 | two rows of one party fall in one window exactly when at most its width lies between them |
| SellerLaws.RefusedInOrder | seller_listings.py:409-423 | which refusal is answered, the live limit first, then the daily ones, then the VIN |
| SellerService.Sellers.Remove | seller_listings.py:502-521 | withdraws a live listing and its public row for its owner or an administrator, and refuses otherwise |
| SellerRuns.EveryRunIsLimited | seller_listings.py:269-442 | in every run, approvals and revocations included, the email and failure limits hold in every window, daily and live listings stay within each seller's largest allowance so far, the daily cap on all sellers holds for those never approved, emails are a minute apart, and no VIN is live twice |
| SellerRuns.CurrentLimitsHoldWithoutApprovals | seller_listings.py:403-423 | while no dealer is approved or revoked, daily and live limits and the cap on all sellers are the current ones |
| SellerRuns.RevokedDealersKeepTheirListings | seller_listings.py:706-728 | the bound is reached: for every allowance from three to a thousand a run ends with that many live listings of a seller whose current limit is three |
| SellerRuns.PublishedExactlyOnce | seller_listings.py:374-394 | however verifies and creates interleave, nothing is published twice, and nothing of a verified seller with no request in flight is left pending or unpublished |
| SellerRaces.ConfirmedAddressesWereSent | seller_listings.py:331-371 | in every run that does not change this seller's contact under one of their confirmations in flight, the confirmed address is one a token was made for |
| SellerRaces.ShownOnlyWhileActive | seller_listings.py:374-394 | in every run that does not remove this listing while a request is about to ingest it, it is shown only while active |
| SellerRaces.ConfirmationsMustNotBeOvertaken | seller_listings.py:331-371 | a change of the seller's contact can end, by any further steps that overtake no confirmation, in a confirmed address no token was made for exactly when a confirmation of theirs is in flight |
| SellerRaces.AnUnsentAddressIsConfirmed | seller_listings.py:352-359 | such a state is reached in four steps |
| SellerRaces.RemovalsMustNotOvertakeIngestion | seller_listings.py:502-521 | a listing removed by its seller or an administrator can be shown again, by any later steps, exactly when a request was about to ingest it, from a publication or a price update |
| SellerRaces.ARemovedListingIsShown | seller_listings.py:385-392 | such a state is reached, by a removal between the flip and the ingestion |
| SellerService.Sellers.ImportInventory | seller_listings.py:600-679 | one outcome for each row, made in the tables the rows before it left; exactly the dealer's live cars whose VIN the file never mentions withdrawn, each reported once with its VIN and id; what each row published; counts that add up |
| SellerLaws.BadRowsFail | seller_listings.py:654-667 | a formula cell, a missing VIN and a second mention are errors, exactly on those rows |
| SellerLaws.CountedByOutcome | seller_listings.py:641-681 | the counts of an import are those of its outcomes |
| SellerLaws.CreatedExactlyWhen | seller_listings.py:666-679 | a row lists a car exactly when it is the first clean mention of a VIN the dealer had no live listing of, the form is valid and every limit and the VIN rule allow it then; the listing is there at the end |
| SellerLaws.CreatedIsShown | seller_listings.py:432-441 | and, if the contact is confirmed, on the public table |
| SellerLaws.ShownAfterRows | seller_listings.py:374-396 | the public table has what it had once the missing cars were withdrawn, and what the rows published |
| SellerLaws.UpdatedExactlyWhen | seller_listings.py:462-476 | a row updates a price exactly when it is the first clean mention of a live VIN, the price is plausible, and the contact confirmed or the listing pending |
| SellerLaws.RepricedExactlyWhen | seller_listings.py:461-486 | in a run, a price change goes on to ingestion exactly for the own active listing with a confirmed contact |
| SellerLaws.RequestsEnd | seller_listings.py:478-486 | an ingestion shows its listing and ends the request; a crash ends it and is remembered |
| SellerLaws.RejectedOtherwise | seller_listings.py:666-679 | and otherwise which refusal is reported |
| SellerLaws.RemovedExactlyWhen | seller_listings.py:445-452 | a live listing is withdrawn by its seller or an administrator only |

## Left out

- HTTP routes, signatures, sessions, mail, push, text messages, web pages and provider clients: input and output.
- SQL text, dialects and isolation levels: each transaction is atomic. `fail` fences its SELECT and not its UPDATE, and that the two are one step is an assumption; so is that the cross-user daily listing cap is checked and written in one step.
- Exactly-once webhook effects, ordering across refund and dispute events, and fair coverage by the reconciler when rows exceed its limit: the code does not provide them.
- Billing.Mirror.Webhook: a handler that raises is taken to raise before it writes, as its lookups do; creation times outside the calendar, which overflow the conversion, are taken as unusable.
- Anomaly rows, audit rows, usage metering and report texts written beside the modelled rows: no later decision reads them.
- Reconcile.ReconcileAll: the PostgreSQL comparison of a stored timestamp with Stripe's text is taken as equality of times; the billing lock is the lock modelled in LeaseLock.
- ProbeBudget.Poller: threads are interleavings of whole calls, because each public method holds one lock throughout; saving the ledger to disk is not modelled.
- ProbeListing.TupleOrder: dedupe keys are structured values instead of joined text, and distances are a flag on the record.
- Title, trim, variant, damage and seller parsing, distances and timestamps in the past are fields of a peer; classify_sold_items is the range of a sale's price.
- Valuations.ValueListing: reason texts, comparable lists, segment medians and the mean match quality are not computed; floating-point rounding inside sums and products is not modelled, but for the positions the slope's points are taken from.
- Profit.CleanSettings: text that spells "nan" or "inf" is not modelled.
- Scenarios.ComputeOutlook: return on investment, explanation and assumption lists are not computed.
- analyze.run apart from the offer: flags, labels and the decision are thresholds on modelled numbers.
- AlertRuns.PromisesHoldWithoutReturns: assumes, as its predicate `NoReturn` says, that no withdrawn car is evaluated again; the code does not guarantee it, and the exact condition without it is a lemma of its own. What criteria_match checks is not modelled; a listing's vehicle does not change during a run.
- SellerService.Sellers.Create: form validation is a verdict; discoverability, prices and reports are not modelled.
- SellerService.Sellers.ImportInventory: a live listing whose ingestion died has no public row, and a price update fails on it with an error that is not modelled.
- SellerRaces.ConfirmedAddressesWereSent: addresses are compared in lower case for the letters A to Z only.
- SellerRuns.EveryRunIsLimited: deleting an account, which deletes the rows of its seller and of its matches, is not a step.
- SellerService.Sellers.Remove: of the rows derived from a listing only the public one is here; the matches and jobs it deletes are in AlertRuns and QueueProtocol, and saved copies, alerts and price history are not modelled.
- Scheduler.EveryRunKeepsInv: an acquire that commits and then raises, which ends the process with the lock held until it is stolen, is not a step of its own.
- SellerRuns.PublishedExactlyOnce: a request that dies between its transactions may leave its seller's listing pending or unpublished; the lemma says so.
- Accounts, plans, invites, evaluation, operations, economics and benchmarks: queries and counters.
