# A verified model of the accounts service

The service keeps interest-bearing accounts of creditors with debtors. Transfers between accounts
take two phases: an amount is locked on the sender's account (prepared), and later committed or
dismissed (finalized). The recipient is credited later, by a balance change that travels as a
signal through an unreliable network: it may be delivered late, more than once, and in any order.
Accounts are configured, deleted, purged and created again, also under the influence of messages
that arrive in any order.

The project models the database, every procedure that changes it, and the scanners that collect
garbage, and proves what every run keeps. It has two layers.

* **Steps** (`Models.dfy`, `Steps.dfy`): the whole database is one value `State`. Each procedure is
  a function from states to states, and a `Run` is a sequence of such steps from an empty database,
  with a clock that never goes backwards. The main results are about all runs.
* **Program** (`Records.dfy`, `Server.dfy`): the class `AccountRecord` is a row whose fields are
  assigned in place; the class `Database` holds the tables and the outgoing signals, and has one
  method for each procedure, with the loops of the batch procedures. Each method is proved to do
  what the corresponding step says. `Batches.dfy` shows that batches which are folds of several
  steps stay within the reachable states.

## How things are represented

* Time is an integer number of microseconds since 1970. A step reads the clock once.
* A yearly interest rate is represented by its real multiplier per microsecond, so the exponential
  becomes a power: 0% is `1.0`, and the floor rate is a constant between 0 and 1. Floats and
  decimals are reals; `Floor` is the floor. Principals, locks and ids are unbounded integers, and
  clipping, capping and wrapping are written out where the program has them.
* `Pow(q, t)` is defined by recursion, and its laws are proved in `Growth.dfy`.
* The network is the table `emitted`: a signal in it may be delivered at any moment, any number of
  times, in any order, or never.
* The rows that workers lock, and the order in which a query returns them, are arbitrary: a batch
  is any sequence of distinct queued rows of the account.
* Wrapped sequence numbers compare as in `protocol.rst:268-272`.
* Some fields record history and influence no step: `changes` in accounts and update signals
  (changes counted without wrapping), `checkedAt` in requests, prepared transfers and balance
  changes (when the recipient was found reachable), and in the state the applied changes, the
  scanner's greatest cutoff, the reachability checks and the configuration times of all purged rows.

## The other modules

| file | contents |
|---|---|
| `Growth.dfy`, `Totals.dfy` | powers, and sums over finite maps |
| `Frames.dfy`, `Writes.dfy`, `Rates.dfy` | what each step writes, and which columns it leaves alone |
| `Rows.dfy`, `Locks.dfy`, `Changes.dfy` | invariants of rows, of lock columns, of queues and registrations |
| `Money.dfy`, `Identity.dfy`, `Solvency.dfy` | conservation, transfer ids, reservations under demurrage |
| `Runs.dfy` | results over whole runs |
| `Columns.dfy`, `Outcomes.dfy`, `Requests.dfy`, `Finalizations.dfy`, `Credits.dfy` | what each operation does in every case, in terms of columns and signal fields only |
| `Stories.dfy` | the story of each prepared transfer |
| `Accrual.dfy`, `Moves.dfy`, `LateCredit.dfy`, `IdealLedger.dfy` | interest: path independence, what each event moves, the ideal ledger |
| `RateSpacing.dfy`, `Coalescing.dfy` | the distance between rate changes, confluence of batches |
| `Chain.dfy`, `Updates.dfy`, `Configs.dfy`, `PurgeTiming.dfy` | signals, clients, configuration messages, purges |
| `Guarantees.dfy`, `Batches.dfy`, `Scans.dfy` | promises about single operations, batches and scans as runs |
| `Witnesses.dfy` | runs in which the program departs from its intent |

## Premises

The results over runs name their premises as predicates on the run.

* `CutoffsAlwaysAgree`: the cutoff of the message handler is never behind the greatest cutoff the
  scanner has used. Both are the same configuration value in the program.
* `NeverOverflows`, and `Unclipped` in `Gentle`: no principal has been clipped, which the overflown
  flag shows.
* `AlwaysIdSpace`: no lifetime of an account has used up the 2^40 ids of a day.
* `AlwaysGentle` (solvency): besides no clipping, the balance fits in 64 bits, no payment other than
  interest takes money from the account, and no update of the debtor's info meets interest that is
  due at a positive rate (`KeepsAccrual`).
* `NeverClipped`, `NeverNegative` (late credits): the principal is never clipped, and the balance is
  never negative. Gentle runs meet both.
* `AlwaysFree` (late credits): no update of the debtor's info meets interest that is due, neither on
  the account nor on the ledger of prompt credits.
* `AlwaysTimely`, `AlwaysPrompt`, `AlwaysFresh`, `AlwaysDelivered`, `AlwaysPunctual`: how late
  credits, checks, signals and messages may be.

## Where the code departs from the intent

* `update_debtor_info` moves the time of the last change without folding the accrued interest into
  the row (`swpt_accounts/procedures.py:243-250`). It is modelled as written;
  `Accrual.DebtorInfoKeepsBalance` says exactly when it keeps the balance, and
  `Witnesses.DebtorInfoLosesInterest` gives a run to an account that loses interest, for every
  positive rate. Amounts on their way make it worse: `LateCredit.LateInfoIsExact` says exactly when
  late crediting still agrees with prompt crediting after such an update.
* In a finalization batch the reported principal ignores earlier commits of the same batch
  (`swpt_accounts/procedures.py:896`). It is modelled as written; `Chain.CommitReportIsRunning` says
  exactly when the report agrees with the running principal, and `Witnesses.SecondReportIsWrong`
  gives a run to a batch whose second report does not.

## Model

| member | source | states |
|---|---|---|
| Solvency.SolventStep | swpt_accounts/procedures.py:388-440 | every step that clips nothing and takes nothing from the account by a debtor payment keeps the balance at or above the sum of what all prepared transfers still reserve, whatever mix of commits a batch contains |
| Runs.AlwaysSolvent | swpt_accounts/procedures.py:757-911 | over every such run, a non-root balance covers its reservations now and at every later moment before the next step |
| Runs.BalanceIsNotNegative | swpt_accounts/models.py:327-369 | so no sequence of expendable or reserved commits makes the balance of a non-root account negative |
| Solvency.CapNeedsGreatBalance | swpt_accounts/procedures.py:779 | the cap on the total of the locks bites only when the balance itself exceeds 64 bits |
| IdealLedger.LateCreditsAreExact | swpt_accounts/procedures.py:467-490 | in every run a ledger that receives each amount in the moment of its commit, and whose moves are computed from the events, is worth the balance of the account with everything that is on its way, if no rate changes twice while an amount is on its way, and no interest is due on account or ledger when the debtor's info is updated |
| IdealLedger.CreditedAccountIsIdeal | swpt_accounts/models.py:210-239 | when everything has been credited, the account and that ledger agree at every later moment |
| IdealLedger.PromptCreditsAreExact | swpt_accounts/procedures.py:286-297 | the premise about rate changes holds by itself for amounts credited within the signal delay plus one day, because of the guard on rate changes |
| IdealLedger.GentleRunsAreNotNegative | swpt_accounts/procedures.py:388-440 | in a gentle run two of the premises hold by themselves: the balance is never negative and nothing is clipped |
| RateSpacing.RateChangesAreSpaced | swpt_accounts/procedures.py:286-297 | in every run two changes of the rate of an account are at least the signal delay plus one day apart, also when the account is purged and created again between them |
| RateSpacing.ConstrainedTransfersSeeOneChange | swpt_accounts/procedures.py:784-794 | in every run a transfer prepared under a real constraint on the rate sees at most one change of the rate of its account between its preparation and its deadline |
| LateCredit.LateStep | swpt_accounts/procedures.py:467-490 | every step keeps the ledger equal to the balance with everything that is on its way |
| LateCredit.WorthStep | swpt_accounts/procedures.py:467-490 | a step adds the event's own move and the amounts that are sent, and nothing else, to the grown balance with everything that is on its way |
| LateCredit.LateInfoIsExact | swpt_accounts/procedures.py:243-250 | when no interest is due on the account, late and prompt crediting still agree after an update of the debtor's info if and only if no interest is due on the ledger either |
| LateCredit.InfoKeepsLedger | swpt_accounts/procedures.py:243-250 | such an update keeps the value of the ledger if and only if no interest is due on it |
| Moves.BalanceMoves | swpt_accounts/procedures.py:388-754 | the balance of a non-root account moves by minus the amounts that finalized signals commit, plus payments other than interest, minus the balance on deletion, and otherwise not at all, apart from late credits and from an update of the debtor's info that meets due interest |
| LateCredit.ApplyWorth | swpt_accounts/models.py:210-239 | crediting a batch adds to the balance exactly the present worth that the batch takes off the way |
| LateCredit.EmittedWorth | swpt_accounts/procedures.py:860-911 | what a step sends is worth its amount at that moment, and nothing else on its way changes |
| Money.MoneyStep | swpt_accounts/procedures.py:317-339 | no step changes the total of all principals (root included) and unapplied changes of a debtor, unless it sets an overflown flag |
| Runs.MoneyIsConserved | swpt_accounts/procedures.py:388-494 | in every run without clipping that total is zero, across finalization, payments, capitalization, deletion, resurrection and purge |
| Changes.QueuesStep | swpt_accounts/procedures.py:533-577 | every step keeps a queued change registered as not applied, and applies no change twice if the cutoffs agree |
| Runs.AppliedAtMostOnce | swpt_accounts/table_scanners.py:387-402 | however often and in whatever order change signals are delivered, and whenever registrations are deleted, every change is applied at most once, if the handler's cutoff is never behind the scanner's |
| Changes.DeliverKeeps | swpt_accounts/procedures.py:550-577 | a change that is received before the cutoff has passed it is queued or has been applied; it is not lost |
| Identity.IdsStep | swpt_accounts/models.py:135-144 | no step gives a transfer id that was given before, or finalizes a transfer that was finalized before |
| Runs.FinalizedAtMostOnce | swpt_accounts/procedures.py:409-434 | in every run with less than 2^40 transfers per lifetime no id is given twice and no transfer is finalized twice, even across deletion, purge and re-creation |
| Finalizations.TransfersLeaveByFinalization | swpt_accounts/procedures.py:31-38 | in every run a prepared transfer stays as it is until a batch holds a request that repeats the kind, id and request id of its coordinator, and then it is always gone; nothing else removes it |
| Stories.StoriesHold | swpt_accounts/procedures.py:860-911 | in every run no prepared transfer is lost or altered, and each finalized signal is the end of an announced transfer for its own coordinator, with amounts committed in time only, and sent to the recipient in the moment of the commit |
| Stories.EveryTransferEndsOnce | swpt_accounts/procedures.py:409-434 | each announced transfer is either still prepared as announced, or has been finalized exactly once, and not both |
| Requests.EveryRequestIsAnsweredOnce | swpt_accounts/procedures.py:351-376 | in every run the waiting requests, the prepared transfers and the rejections together are as many as requests have been queued |
| Identity.DropRow | swpt_accounts/table_scanners.py:71-94 | a purge forgets an account only when its next lifetime will start with greater ids |
| Requests.AcceptedIff | swpt_accounts/procedures.py:757-857 | a request is prepared if and only if the sender is live, has room for another pending transfer, is not the recipient, has a sufficient rate, and can lock the minimum; the prepared transfer repeats the request under the next id; otherwise one rejection carries the code of the first condition that fails, and the row's locked total |
| Requests.BatchAnswersAll | swpt_accounts/procedures.py:352-376 | a batch of waiting requests answers each of them once, and no others |
| Finalizations.StrayRequestIsDropped | swpt_accounts/procedures.py:391-434 | a finalization request whose key, or whose coordinator's kind, id or request id, is not that of a prepared transfer is removed and changes nothing else |
| Finalizations.MatchedRequestFinalizes | swpt_accounts/procedures.py:860-911 | a matching request removes its transfer and its lock, tells the coordinator the status, and commits exactly if this is in time, at a sufficient rate, and covered; a commit is sent to the recipient and reported to the sender with recipient, coordinator, time and note |
| Finalizations.BatchSettles | swpt_accounts/procedures.py:388-434 | a batch removes exactly its requests, and exactly the prepared transfers that they match; without a live sender it removes only the requests |
| Finalizations.SenderIsCharged | swpt_accounts/procedures.py:436-438 | after a batch the principal is less by the committed total, clipped at the limits, with interest folded in and an update pending; if nothing is committed only the lock columns change |
| Credits.BatchIsCredited | swpt_accounts/procedures.py:452-494 | a credit batch opens the account if need be, adds all amounts and the interest due on them in one change of the row, and takes exactly its changes off the queue, registered as applied |
| Chain.ApplyOneReport | swpt_accounts/procedures.py:473-488 | one credit is reported with the party, reason, time, amount and note of its queued change under the next number, unless it is negligible, and changes no other column |
| Outcomes.ConfigureCreates | swpt_accounts/procedures.py:79-118 | a message creates a missing account if and only if it is recent and acceptable: the row has its configuration and is otherwise new, and one signal shows it; an unacceptable recent message is rejected, an old one ignored |
| Outcomes.ConfigureChanges | swpt_accounts/procedures.py:108-113 | a message changes an existing account if and only if it is later than the last one and acceptable; a deleted account comes to life, interest is folded in, all other columns stay, and one signal shows the row |
| Outcomes.RateChangesIff | swpt_accounts/procedures.py:253-299 | the rate changes if and only if a recent request finds a live account of a creditor, another rate within the limits, and a last change long enough ago; all columns and the signal |
| Outcomes.DebtorInfoChangesIff | swpt_accounts/procedures.py:216-250 | the debtor's info changes if and only if a recent request finds a live account of a creditor with another info; all columns and the signal |
| Outcomes.CapitalizesIff | swpt_accounts/procedures.py:302-314 | interest is capitalized if and only if the account is live, the last time is long enough ago, and the whole units accumulated are not zero; they are paid as interest, with signal and opposite change |
| Outcomes.DeletesIff | swpt_accounts/procedures.py:317-339 | an account is deleted if and only if it is live, not the debtor's, scheduled, without pending transfers, and its balance is negligible; the principal goes back to the debtor, the row is emptied, and a signal shows it; each attempt is noted |
| Outcomes.DebtorPays | swpt_accounts/procedures.py:517-530 | a payment opens the account if need be, moves the amount, reports it with the debtor as the other party, and sends the opposite amount to the debtor's own account |
| Outcomes.OpenedRow | swpt_accounts/procedures.py:631-643 | a missing account gets a new row and a deleted one comes to life, each shown by a signal; a live one is left alone |
| Outcomes.PaidRow | swpt_accounts/procedures.py:720-754 | a payment changes the row by its amount, takes interest payments out of the interest, and emits one opposite change under a new id |
| Outcomes.ReportedTransfer | swpt_accounts/procedures.py:656-692 | a transfer that is worth reporting is reported with the next number, its predecessor and the row's creation date, and counted in the row |
| Outcomes.UpdateShowsRow | swpt_accounts/procedures.py:580-605 | an update signal carries every visible field of the row |
| Outcomes.PurgesIff | swpt_accounts/table_scanners.py:71-103 | an account is purged if and only if it is deleted, unchanged for longer than the purge delay, and created more than three days ago |
| Outcomes.HeartbeatIff | swpt_accounts/table_scanners.py:105-159 | a row is announced if and only if it is live, and an update is pending or the last signal is older than both the heartbeat interval and the signal delay |
| Outcomes.DeliversIff | swpt_accounts/procedures.py:550-577 | a delivered change waits and is registered if and only if it is not older than the cutoff and not registered yet |
| Outcomes.UnregistersIff | swpt_accounts/table_scanners.py:398-402 | a registration is deleted if and only if it is applied and older than the cutoff |
| Outcomes.ReachableIff | swpt_accounts/procedures.py:195-205 | a recipient is reachable if and only if it is the debtor, or live and not scheduled for deletion |
| Outcomes.RequestWaits | swpt_accounts/procedures.py:137-160 | a request with a reachable recipient waits under a new id; one without is rejected at once |
| Outcomes.FinalizationWaits | swpt_accounts/procedures.py:176-192 | the first finalization request for a transfer waits, further ones are dropped while it does |
| Scans.ScanPurges | swpt_accounts/table_scanners.py:71-103 | a scan purges an account if and only if it was old when it was read and still is, and leaves all other rows as they are |
| Scans.ScanAnnounces | swpt_accounts/table_scanners.py:105-159 | a scan announces a row if and only if it was quiet when it was read and still is; the signal shows the row |
| Scans.ScanUnregisters | swpt_accounts/table_scanners.py:387-402 | a scan deletes exactly the registrations that were applied and older than the cutoff when they were read |
| Accrual.BalanceFollowsRate | swpt_accounts/models.py:59-80 | the balance is principal and interest at the time of the last change, and is multiplied by the rate in each moment after it, if positive; the debtor's own balance is its principal |
| Accrual.DueInterestFollowsRates | swpt_accounts/models.py:210-239 | an amount with its due interest starts as the amount at the commit, and is multiplied in each moment after it by the rate then in force |
| Accrual.AccrualIsPathIndependent | swpt_accounts/models.py:68-80 | folding interest any number of times, at any moments and in any order, by zero changes, rebasings at the same rate or new configurations, leaves the balance at every later moment unchanged |
| Accrual.DebtorInfoKeepsBalance | swpt_accounts/procedures.py:243-250 | an update of the debtor's info keeps the balance at a later moment if and only if no time has passed since the last change, or the balance is not positive, or the rate is zero |
| Witnesses.DebtorInfoLosesInterest | swpt_accounts/procedures.py:243-250 | for every valid configuration and every positive rate that it allows, a run reaches an account at this rate whose later balances are all lower after such an update |
| Accrual.InterestIsLost | swpt_accounts/procedures.py:243-250 | the update lowers every later balance of an account with a positive balance at a positive rate when time has passed since its last change |
| Accrual.CapitalizationIsExact | swpt_accounts/procedures.py:302-314 | capitalization keeps the balance at every later moment, leaves accumulated interest in [0, 1), posts the exact opposite amount to the root account, and does nothing when repeated at the same instant, absent overflow |
| Coalescing.CoalescingIsConfluent | swpt_accounts/procedures.py:452-494 | in every reachable state two ways of splitting the same queued changes of an account (live, deleted, missing, or the debtor's own) into batches, in any order, give the same principal, interest, last transfer number and later balances, if no batch clips the principal |
| Coalescing.BatchesAreTotals | swpt_accounts/procedures.py:467-490 | after any batches the principal, the interest and the last transfer number are given by sums over the set of credited changes, which do not mention batches or order |
| Runs.LockAccounting | swpt_accounts/procedures.py:779-781 | in every run the count of pending transfers is the number of prepared transfers; the locked total never exceeds the sum of the locks, and equals it while the cap has not bitten |
| Locks.LocksStep | swpt_accounts/procedures.py:867-868 | every step keeps the lock columns in agreement with the prepared transfers |
| Batches.PreparesNeverOverlock | swpt_accounts/procedures.py:844-857 | a batch of transfer requests, in any order, never raises the locked total above the greater of the old total and the floor of the balance minus the minimum balance |
| Batches.LockIsGreatest | swpt_accounts/procedures.py:844-846 | the locked amount is the greatest one that is requested and that the balance allows, or zero |
| PurgeTiming.PurgedAccountsAreCredited | swpt_accounts/table_scanners.py:67-88 | when a non-root account is purged, every amount sent to it and not credited has been delayed for longer than the extreme delay, and every transfer prepared to it is past its deadline; if recipients are checked at most two days before the preparation |
| PurgeTiming.NothingIsDueAtPurge | swpt_accounts/table_scanners.py:30-34 | so with signals no slower than the extreme delay nothing is on its way to an account when it is purged |
| PurgeTiming.CheckedStep | swpt_accounts/procedures.py:784-794 | every step keeps the deadline of each prepared transfer, and the commit time of each sent change, within the commit limit after the check of the recipient |
| PurgeTiming.PurgeChecks | swpt_accounts/table_scanners.py:67-74 | an account that was found reachable within the purge delay cannot be purged |
| Runs.DeletedAccountsAreEmpty | swpt_accounts/procedures.py:695-703 | in every reachable state a deleted account has no principal, no interest, no lock, no prepared transfer and the scheduled-for-deletion bit |
| Locks.PurgeLocks | swpt_accounts/models.py:310-315 | the cascade of a purge removes no prepared transfer |
| Runs.SenderIsLive | swpt_accounts/procedures.py:400-434 | a finalization request that matches a prepared transfer always finds a live sender, so none is dropped |
| Runs.AlwaysConsistent | swpt_accounts/models.py:180-198 | in every reachable state the table constraints of accounts, prepared transfers, transfer requests and finalization requests hold, and the queues agree with the registrations |
| Runs.RootHasNoInterest | swpt_accounts/procedures.py:260-261 | in every reachable state the debtor's own account has the zero rate, has never had another, and has no interest |
| Rows.RowsStep | swpt_accounts/models.py:180-198 | every step keeps the table constraints of accounts, prepared transfers and requests, and leaves the debtor's own account without interest |
| Updates.UpdatesAreVersions | protocol.rst:808-819 | in every run the update signals of an account are in the order of its versions; and if no update is pending, every field of the last signal is that of the current row |
| Updates.VisibleChangesAreNumbered | protocol.rst:814-819 | every step that changes a field carried by update signals numbers the change, wrapping around, and no step moves the time of the last change back |
| Updates.ClientsConverge | protocol.rst:976-983 | a client that keeps the newest update by creation date, time and wrapped number ends with the current row, field by field, under any reordering and duplication within half of the numbers |
| Updates.UpdatesStep | swpt_accounts/procedures.py:580-605 | every step keeps the order of the update signals and the agreement of the last one with the row |
| Updates.LastIsNewest | protocol.rst:976-983 | the last signal about an account compares as newer than every other signal about it |
| Configs.ConfigConverges | swpt_accounts/procedures.py:108-118 | while an account continues to exist, it ends in the configuration of the latest valid message delivered, in whatever order and however often messages arrive |
| Configs.LatestExists | protocol.rst:261-274 | messages numbered within half of the wrapped numbers have a latest one, so that the premise of the convergence can be met |
| Configs.ConfigEndsInLatest | protocol.rst:261-274 | if the valid messages delivered are numbered within half of the wrapped numbers, and the account begins in one of them, it ends in the one that is latest among all |
| Configs.InvalidConfigIsRejected | swpt_accounts/procedures.py:62-77 | an invalid message changes no account |
| Configs.SettingsStep | swpt_accounts/procedures.py:90-95 | nothing but a configuration message changes the configuration of an existing account, and no step moves the time of its last change back |
| Configs.PurgedAccountsStayPurged | swpt_accounts/procedures.py:114-117 | after a purge no message at most as new as the configuration of the purged account creates it again, however often it has been purged since, for messages not processed before their timestamps |
| Configs.PurgedStep | swpt_accounts/__init__.py:201-208 | every step keeps each configuration that has ever been purged older than the purge delay, which the configuration check keeps above the signal delay |
| Chain.TransfersAreChained | swpt_accounts/procedures.py:656-692 | in every run the transfer signals of each lifetime of an account are numbered from 1 without gaps, each naming its predecessor, and the row holds the last number |
| Chain.ChainStep | swpt_accounts/procedures.py:656-692 | every step keeps the chain of every account, also when a purge ends a lifetime |
| Chain.CreditsReportRunningPrincipal | swpt_accounts/procedures.py:475-484 | over any consecutive credit batches of an account (live, deleted or missing) every signal reports the other party, the reason, the time, the amount and the note of its queued change, and the running principal: the opening one plus everything credited up to then, negligible amounts included; the row ends with the last running principal |
| Chain.ConsecutiveReportsDiffer | swpt_accounts/procedures.py:475-484 | two consecutive reports differ by the amount acquired in the second and the negligible amounts credited between them |
| Chain.CommitsReportOpeningPrincipal | swpt_accounts/procedures.py:887-897 | each signal that a finalization batch emits about a commit reports the recipient, the coordinator's kind, the note of the request, and the opening principal minus the own amount of that commit |
| Chain.CommitReportIsRunning | swpt_accounts/procedures.py:896 | the report about a commit agrees with the running principal if and only if no earlier request of the batch commits a positive amount |
| Witnesses.SecondReportIsWrong | swpt_accounts/procedures.py:896 | for every valid configuration a run reaches a batch of two commits of 10 on an account of 1000 that reports 990 twice and leaves 980 |
| Rates.RatesStep | swpt_accounts/procedures.py:280-299 | no step but a recent request to change the rate changes the rate columns; the new rate is the requested one within limits, the previous one is kept, and the distance from the previous change is respected |
| Guarantees.CommitSucceeds | swpt_accounts/models.py:327-369 | a commit succeeds if and only if it is in time, the rate is sufficient, and the amount is reserved or expendable; a dismissal always succeeds |
| Guarantees.SmallerRequestSucceeds | swpt_accounts/procedures.py:848-855 | a request that is rejected for insufficient available amount is prepared when repeated for an amount that the account can lock, and only then |
| Guarantees.OnlyNegligibleIsDeleted | swpt_accounts/procedures.py:327-339 | an account is deleted only when scheduled, without prepared transfers, and with a negligible balance; the debtor's account never |
| Guarantees.PurgeIsAnnounced | swpt_accounts/table_scanners.py:71-103 | an account is purged only when deleted and created on an earlier day; the purge is announced with that day, and its configuration is recorded as purged |
| Guarantees.HeartbeatAnnounces | swpt_accounts/table_scanners.py:105-159 | after a heartbeat scan every field of the last signal about a live account is that of its current row; one signal is added if it is due, and none otherwise |
| Models.Contain | swpt_accounts/models.py:51-56 | a value is clipped exactly when it is outside the symmetric 64-bit range, to the nearer bound |
| Models.ReservedAtMostLocked | swpt_accounts/models.py:349-357 | a reservation never exceeds the locked amount |
| Growth.PowAdd | swpt_accounts/models.py:77-78 | growth over a period is the product of the growth over its parts |
| Growth.PowSign | swpt_accounts/models.py:77-78 | a positive period moves a positive balance down, keeps it, or moves it up exactly as the rate is below, at or above zero |
| Accrual.GrowsFrom | swpt_accounts/models.py:59-80 | the balance at a later moment is determined by the balance and the rate now |
| Accrual.FoldedBalance | swpt_accounts/procedures.py:706-717 | applying deltas changes the balance by exactly the deltas, unless the principal is clipped |
| Accrual.RateChangedBalance | swpt_accounts/procedures.py:292-297 | a change of the rate keeps the balance |
| Solvency.CommitIsCovered | swpt_accounts/procedures.py:412-417 | each commit of a batch is paid from what is not locked for others, or from its own reservation |
| Solvency.FinalizeAllCovered | swpt_accounts/procedures.py:400-434 | in the middle of a batch the balance less what the batch has taken covers the remaining reservations |
| Solvency.LockIsCovered | swpt_accounts/procedures.py:779-781 | a new lock is covered by what the account has beyond all its other reservations |
| Solvency.CreditIsPositive | swpt_accounts/models.py:210-239 | a late credit with its due interest is always worth more than nothing |
| Solvency.DebtorInfoBalance | swpt_accounts/procedures.py:243-250 | an update of the debtor's info takes nothing from the balance when the rate is not positive, or no time has passed, or the balance is not positive |
| Money.FinalizeAllMoney | swpt_accounts/procedures.py:400-440 | in the middle of a finalization batch what has been sent is what the sender still owes |
| Money.ApplyAllMoney | swpt_accounts/procedures.py:467-490 | in the middle of a credit batch what has been taken off the way is what the account still gets |
| LateCredit.GrowthAfterChange | swpt_accounts/models.py:226-239 | a rate change does not change what an amount has earned, if the rate had not changed since the commit |
| LateCredit.GrowthLater | swpt_accounts/models.py:226-239 | what an amount has earned goes on growing at the current rate |
| Frames.FinalizeOneFrame | swpt_accounts/procedures.py:860-911 | finalizing one transfer writes its sender's row, its prepared transfer and one finalized signal, and nothing else of these |
| Configs.LaterInWindow | protocol.rst:268-272 | within half of the wrapped numbers later is a linear order |
| Configs.NotBoth | protocol.rst:268-272 | two configuration messages are never both later than each other |
| PurgeTiming.CommitInTime | swpt_accounts/models.py:359-361 | a positive amount is committed only before the deadline |
| Batches.PrepareAllIsReachable | swpt_accounts/procedures.py:352-376 | a batch of transfer requests leaves the database in a state that some run of single requests reaches |
| Batches.PurgeAllIsReachable | swpt_accounts/table_scanners.py:65-103 | so does a scan that purges accounts |
| Batches.HeartbeatAllIsReachable | swpt_accounts/table_scanners.py:105-159 | so does a scan that sends heartbeats |
| Batches.DeleteAllIsReachable | swpt_accounts/table_scanners.py:387-402 | so does a scan that deletes registrations |
| Scans.ScanIsReachable | swpt_accounts/table_scanners.py:387-402 | if the rows of a scan have been read at any moments of a run, deleting them later without another check removes only applied registrations older than the cutoff, and leaves a reachable state |
| Scans.StaleStaysStale | swpt_accounts/table_scanners.py:398-402 | a registration that was applied when it was read is applied, or gone, at every later moment of the run |
| Server.Database.ConfigureAccount | swpt_accounts/procedures.py:41-120 | the state after the call is that of the configuration step; the result tells whether the account has just come to life |
| Server.Database.TryToConfigure | swpt_accounts/procedures.py:79-106 | a valid message is applied and announced, an invalid one is rejected with a signal |
| Server.Database.RequestTransfer | swpt_accounts/procedures.py:123-160 | the request is queued, or rejected when the recipient was not reachable |
| Server.Database.RequestFinalization | swpt_accounts/procedures.py:163-192 | the request is queued, unless one for the same transfer is queued already |
| Server.Database.IsReachableAccount | swpt_accounts/procedures.py:195-205 | the result is true exactly for the root account and for live accounts not scheduled for deletion |
| Server.Database.UpdateDebtorInfo | swpt_accounts/procedures.py:216-250 | the state after the call is that of the step that updates the debtor's info |
| Server.Database.ChangeInterestRate | swpt_accounts/procedures.py:253-299 | the state after the call is that of the step that changes the rate |
| Server.Database.CapitalizeInterest | swpt_accounts/procedures.py:302-314 | the state after the call is that of the capitalization step |
| Server.Database.TryToDeleteAccount | swpt_accounts/procedures.py:317-339 | the state after the call is that of the deletion step |
| Server.Database.ProcessTransferRequest | swpt_accounts/procedures.py:757-857 | one request is removed, and turned into a lock with a prepared transfer, or into a rejection |
| Server.Database.ProcessTransferRequests | swpt_accounts/procedures.py:351-376 | the loop, which collects its signals and saves them at the end, does what single requests one after the other do |
| Server.Database.FinalizePreparedTransfer | swpt_accounts/procedures.py:860-911 | one prepared transfer is unlocked and finalized, and the change to send is returned |
| Server.Database.FinalizeRequest | swpt_accounts/procedures.py:409-434 | one round of the loop removes the request and a matching prepared transfer |
| Server.Database.ProcessFinalizationRequests | swpt_accounts/procedures.py:388-440 | the loop, which changes the principal and sends the changes at the end, does what the batch step says; without a live sender it only removes the requests |
| Server.Database.CreditChange | swpt_accounts/procedures.py:473-488 | one round of the loop accumulates both deltas and announces the transfer |
| Server.Database.ProcessPendingBalanceChanges | swpt_accounts/procedures.py:452-494 | the loop, which changes the account and marks the registrations at the end, does what the batch step says |
| Server.Database.MakeDebtorPayment | swpt_accounts/procedures.py:517-530 | the state after the call is that of the payment step |
| Server.Database.PayFromDebtor | swpt_accounts/procedures.py:720-754 | a payment moves the amount on both sides, interest payments take it out of the accumulated interest |
| Server.Database.InsertPendingBalanceChange | swpt_accounts/procedures.py:533-577 | a change is queued and registered, unless it is too old or registered already |
| Server.Database.InsertUpdateSignal | swpt_accounts/procedures.py:580-605 | the current row is announced, and no update is pending any more |
| Server.Database.InsertTransferSignal | swpt_accounts/procedures.py:656-692 | a transfer that is announced gets the next number |
| Server.Database.LockOrCreateAccount | swpt_accounts/procedures.py:631-643 | a missing account is created and a deleted one resurrected, with an update signal |
| Server.Database.GetAccount | swpt_accounts/procedures.py:497-503 | an account is found exactly when it exists and is not deleted |
| Server.Database.PurgeAccounts | swpt_accounts/table_scanners.py:65-103 | the accounts that still can be purged are removed with an announcement, and no others |
| Server.Database.SendHeartbeats | swpt_accounts/table_scanners.py:105-159 | the live accounts that still need it announce their rows |
| Server.Database.DeleteStaleRegistrations | swpt_accounts/table_scanners.py:387-402 | the registrations that looked applied and older than the cutoff when they were read are removed, whatever has happened to them since |
| Records.AccountRecord.ApplyAccountChange | swpt_accounts/procedures.py:706-717 | the fields after the call are those of the row into which interest and deltas are folded |
| Records.AccountRecord.MarkAsDeleted | swpt_accounts/procedures.py:695-703 | the fields after the call are those of the emptied row |
| Records.AccountRecord.Configure | swpt_accounts/procedures.py:83-94 | the fields after the call are those of the configured row |
| Records.AccountRecord.ChangeRate | swpt_accounts/procedures.py:292-297 | the fields after the call are those of the row at the new rate |

## Left out

- SQL, row locks, transactions that are rolled back and retried, and the message broker: each procedure is one atomic step, and a batch is any selection of rows.
- Rounding of floats and loss of precision in stored columns: reals are exact, so statements such as an exact zero of a difference are about the ideal arithmetic.
- The moments between two readings of the clock inside one procedure: a created account gets the same time as the rest of its step.
- Flushing of the session: the program writes a changed account object back at once where the original leaves it to the session, which reads its own objects first.
- The contents of transfer notes, note formats, debtor infos and root configuration data: opaque values, and whether configuration data parses is a parameter of the message.
- `get_available_amount`, `get_account_config_data`, and the queries that only list accounts with work to do: they change nothing and would add easy members.
- The parts of the account scanner that only put chores into a queue (`_delete_accounts`, `_capitalize_interests`, `_change_debtor_settings`): the chores themselves are steps that may happen at any moment.
- Initialization of a new account from the root configuration: it is two further steps, a rate change and an update of the debtor's info.
- Reminders about prepared transfers: they repeat signals that were sent before.
- HTTP routes, the client of the configuration service, schemas, command line, configuration reading and migrations.
- The internals of the table scanner, of sequence number objects and of date conversion: the library is not part of this model; the documented behaviour is used.
- Several databases (shards): all accounts of a debtor are in one database.
- The client side of the protocol, apart from how a client keeps the newest update.
- Coalescing.CoalescingIsConfluent: says nothing about the time of the last announced transfer, which does depend on the order in which the changes are processed.
- Runs.AlwaysConsistent: says nothing about the length of the hash in the debtor's info, which is an opaque value here.
- IdealLedger.LateCreditsAreExact: an amount that the cutoff has discarded stays on its way for ever in this statement, and violates its premises some day.
