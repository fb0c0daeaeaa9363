/** Purge timing: an account is purged only when nothing can be on its way to it any more. */
module PurgeTiming {
  import opened Models
  import opened Steps
  import opened Frames
  import opened Rows
  import opened Locks
  import opened Changes
  import opened Runs
  import opened LateCredit
  import opened IdealLedger

  // ---- Rows survive, or are emptied now

  predicate RowSurvives(a: Account, b: Account, now: int) {
    b.deleted ==> (a.deleted && b.lastChangeTs == a.lastChangeTs) || now <= b.lastChangeTs
  }

  predicate Survive(before: map<AccountKey, Account>, after: map<AccountKey, Account>, now: int) {
    forall k :: k in before ==> k in after && RowSurvives(before[k], after[k], now)
  }

  lemma AccountSurvives(s: State, s': State, k: AccountKey)
    requires AccountStep(s, s', k)
    ensures Survive(s.accounts, s'.accounts, s.now)
  {
    AccountStepTables(s, s', k);
    hide AccountStep;
  }

  lemma PrepareSurvives(c: Settings, s: State, rk: RequestKey, commitPeriod: int)
    requires rk in s.requests
    ensures Survive(s.accounts, PrepareTransfer(c, s, rk, commitPeriod, s.now).accounts, s.now)
  {
    PrepareWrites(c, s, rk, commitPeriod);
    hide PrepareTransfer, LockableAmount, NewTransfer, RejectionCode;
  }

  lemma {:induction false} FinalizeAllSurvives(s: State, k: AccountKey, batch: seq<TransferKey>, opening: int)
    requires k in s.accounts && !s.accounts[k].deleted
    ensures var s' := FinalizeAll(s, k, batch, opening, s.now).state;
            && Survive(s.accounts, s'.accounts, s.now) && !s'.accounts[k].deleted && s'.accounts.Keys == s.accounts.Keys
            && forall j :: j in s.accounts && j != k ==> s'.accounts[j] == s.accounts[j]
  {
    hide FinalizeOne, CommittedAmount, Released;
    if batch != [] {
      var front, t := batch[..|batch| - 1], batch[|batch| - 1];
      var f := FinalizeAll(s, k, front, opening, s.now);
      FinalizeAllSurvives(s, k, front, opening);
      FinalizeOneFrame(f, k, t, opening, s.now);
      if Matches(f.state, t) {
        ReleasedFlags(k, f.state.accounts[k], f.state.prepared[t], CommittedAmount(f, k, t, opening, s.now), s.now);
      }
    }
  }

  lemma ReleasedFlags(k: AccountKey, a: Account, pt: PreparedTransfer, committed: int, now: int)
    ensures Released(k, a, pt, committed, now).deleted == a.deleted
  {
  }

  lemma FinalizeSurvives(s: State, k: AccountKey, batch: seq<TransferKey>)
    ensures Survive(s.accounts, FinalizeTransfers(s, k, batch, s.now).accounts, s.now)
  {
    hide FinalizeAll, Balance, AccumulatedInterest;
    if Live(s, k).Some? {
      FinalizeAllSurvives(s, k, batch, Balance(k, s.accounts[k], s.now).Floor);
    }
  }

  lemma ApplySurvives(s: State, k: AccountKey, batch: seq<ChangeKey>)
    ensures Survive(s.accounts, ApplyChanges(s, k, batch, s.now).accounts, s.now)
  {
    hide ApplyAll, AccumulatedInterest, LockOrCreate, AccountStep;
    if batch != [] {
      var s1 := LockOrCreate(s, k, s.now);
      LockOrCreateFrame(s, k);
      AccountStepTables(s, s1, k);
      ApplyAllLocks(s1, k, batch);
    }
  }

  /** Every step except a purge keeps all rows, and a row that it deletes has been changed now. */
  lemma StepSurvives(c: Settings, s: State, e: Event, now: int)
    requires c.Valid() && RowsOk(c, s) && s.now <= now && Enabled(s, e) && !e.EPurge?
    ensures Survive(s.accounts, Step(c, s, e, now).accounts, now)
  {
    hide *;
    var s0, s' := s.(now := now), Step(c, s, e, now);
    StepCases(c, s, e, now);
    EventKinds(e);
    if IsAccountEvent(e) {
      AccountEventFrame(c, s, e, now);
      AccountSurvives(s0, s', KeyOf(e));
    } else if IsQueueEvent(e) {
      QueueFrame(c, s, e, now);
      QueueSurvives(s0, s');
    } else {
      match e
      case EPrepare(rk, commitPeriod) => PrepareSurvives(c, s0, rk, commitPeriod);
      case EFinalize(k, batch) => FinalizeSurvives(s0, k, batch);
      case EApply(k, batch) => ApplySurvives(s0, k, batch);
    }
  }

  lemma QueueSurvives(s: State, s': State)
    requires QueueStep(s, s')
    ensures Survive(s.accounts, s'.accounts, s.now)
  {
  }

  // ---- Recipients that have been checked

  /** For as long as a purge takes, an account that has been found reachable exists; and if it has
      been deleted, then it was after the check. */
  predicate ChecksOk(c: Settings, accounts: map<AccountKey, Account>, checks: set<(AccountKey, int)>, now: int) {
    forall check <- checks ::
      && check.1 <= now
      && (check.0.creditor != ROOT_CREDITOR_ID && now <= check.1 + c.PurgeDelay() ==>
            check.0 in accounts && (accounts[check.0].deleted ==> check.1 <= accounts[check.0].lastChangeTs))
  }

  lemma ChecksLater(
    c: Settings, before: map<AccountKey, Account>, after: map<AccountKey, Account>, checks: set<(AccountKey, int)>,
    was: int, now: int)
    requires ChecksOk(c, before, checks, was) && was <= now && Survive(before, after, now)
    ensures ChecksOk(c, after, checks, now)
  {
  }

  lemma AddCheck(c: Settings, s: State, k: AccountKey)
    requires c.Valid() && ChecksOk(c, s.accounts, s.checks, s.now) && IsReachable(s, k)
    ensures ChecksOk(c, s.accounts, s.checks + {(k, s.now)}, s.now)
  {
  }

  /** A purge comes too late to remove an account that has been checked within the delay. */
  lemma PurgeChecks(
    c: Settings, accounts: map<AccountKey, Account>, k: AccountKey, checks: set<(AccountKey, int)>, now: int)
    requires ChecksOk(c, accounts, checks, now) && k in accounts && CanBePurged(c, accounts[k], now)
    ensures ChecksOk(c, accounts - {k}, checks, now)
    ensures forall check <- checks :: check.0 == k && k.creditor != ROOT_CREDITOR_ID ==> check.1 + c.PurgeDelay() < now
  {
  }

  // ---- From checks to credits

  predicate IsChecked(checks: set<(AccountKey, int)>, debtor: int, recipient: int, checkedAt: int) {
    recipient == ROOT_CREDITOR_ID || (AccountKey(debtor, recipient), checkedAt) in checks
  }

  /** How long after the check a transfer may be committed. */
  function CommitLimit(c: Settings): int {
    2 * DAY + c.preparedMaxDelay
  }

  predicate RequestsChecked(checks: set<(AccountKey, int)>, requests: map<RequestKey, TransferRequest>) {
    forall rk :: rk in requests ==>
      IsChecked(checks, rk.account.debtor, requests[rk].recipient, requests[rk].checkedAt)
  }

  predicate PreparedChecked(c: Settings, checks: set<(AccountKey, int)>, prepared: map<TransferKey, PreparedTransfer>) {
    forall t :: t in prepared ==>
      && IsChecked(checks, t.account.debtor, prepared[t].recipient, prepared[t].checkedAt)
      && prepared[t].deadline <= prepared[t].checkedAt + CommitLimit(c)
  }

  predicate EmittedChecked(c: Settings, checks: set<(AccountKey, int)>, emitted: map<ChangeKey, BalanceChange>) {
    forall ck :: ck in emitted && emitted[ck].creditor != ROOT_CREDITOR_ID ==>
      && IsChecked(checks, ck.debtor, emitted[ck].creditor, emitted[ck].checkedAt)
      && emitted[ck].committedAt <= emitted[ck].checkedAt + CommitLimit(c)
  }

  predicate CheckedOk(c: Settings, s: State) {
    && ChecksOk(c, s.accounts, s.checks, s.now)
    && RequestsChecked(s.checks, s.requests)
    && PreparedChecked(c, s.checks, s.prepared)
    && EmittedChecked(c, s.checks, s.emitted)
  }

  /** The premises about one step: a transfer is prepared at most two days after its recipient was
      checked, and with a commit period that the purge delay takes into account. */
  predicate IsFresh(c: Settings, s: State, e: Event, now: int) {
    e.EPrepare? && e.requestKey in s.requests ==>
      now <= s.requests[e.requestKey].checkedAt + 2 * DAY && e.commitPeriod <= c.preparedMaxDelay
  }

  lemma NewDeadline(c: Settings, r: TransferRequest, amount: int, commitPeriod: int, now: int)
    requires 0 <= commitPeriod <= c.preparedMaxDelay && now <= r.checkedAt + 2 * DAY
    ensures var pt := NewTransfer(c, r, amount, commitPeriod, now);
            && pt.deadline <= pt.checkedAt + CommitLimit(c) && pt.recipient == r.recipient && pt.checkedAt == r.checkedAt
  {
  }

  lemma PrepareChecked(c: Settings, s: State, rk: RequestKey, commitPeriod: int)
    requires CheckedOk(c, s) && rk in s.requests && 0 <= commitPeriod
    requires IsFresh(c, s, EPrepare(rk, commitPeriod), s.now)
    ensures CheckedOk(c, PrepareTransfer(c, s, rk, commitPeriod, s.now))
  {
    hide PrepareTransfer, Accepts, LockableAmount, NewTransfer, WithLock, ChecksOk, IsChecked;
    PrepareKeeps(c, s, rk, commitPeriod);
    PrepareWrites(c, s, rk, commitPeriod);
    PrepareSurvives(c, s, rk, commitPeriod);
    ChecksLater(c, s.accounts, PrepareTransfer(c, s, rk, commitPeriod, s.now).accounts, s.checks, s.now, s.now);
    if Accepts(s, rk, s.now) {
      NewDeadline(c, s.requests[rk], LockableAmount(rk.account, s.accounts[rk.account], s.requests[rk], s.now),
                  commitPeriod, s.now);
    }
  }

  lemma CommitInTime(f: Finalizing, k: AccountKey, t: TransferKey, opening: int, now: int)
    requires k in f.state.accounts && Matches(f.state, t)
    ensures CommittedAmount(f, k, t, opening, now) != 0 ==> now <= f.state.prepared[t].deadline
  {
    hide IsExpendable, IsReserved;
  }

  lemma FinalizeOneChecked(c: Settings, f: Finalizing, k: AccountKey, t: TransferKey, opening: int)
    requires k in f.state.accounts && t.account == k
    requires PreparedChecked(c, f.state.checks, f.state.prepared) && EmittedChecked(c, f.state.checks, f.state.emitted)
    ensures var s' := FinalizeOne(f, k, t, opening, f.state.now).state;
            && s'.checks == f.state.checks && s'.requests == f.state.requests
            && PreparedChecked(c, s'.checks, s'.prepared) && EmittedChecked(c, s'.checks, s'.emitted)
  {
    hide CommittedAmount, FinalStatus, TransferSignals, Release, IsChecked;
    if Matches(f.state, t) {
      ReleaseFrame(f.state, k, t, FinalStatus(f, k, t, opening, f.state.now),
                   CommittedAmount(f, k, t, opening, f.state.now), f.state.now);
      CommitInTime(f, k, t, opening, f.state.now);
    }
  }

  lemma {:induction false} FinalizeAllChecked(
    c: Settings, s: State, k: AccountKey, batch: seq<TransferKey>, opening: int)
    requires k in s.accounts && forall t <- batch :: t.account == k
    requires PreparedChecked(c, s.checks, s.prepared) && EmittedChecked(c, s.checks, s.emitted)
    ensures var s' := FinalizeAll(s, k, batch, opening, s.now).state;
            && s'.checks == s.checks && s'.requests == s.requests
            && PreparedChecked(c, s'.checks, s'.prepared) && EmittedChecked(c, s'.checks, s'.emitted)
  {
    hide FinalizeOne, PreparedChecked, EmittedChecked;
    if batch != [] {
      var front, t := batch[..|batch| - 1], batch[|batch| - 1];
      FinalizeAllChecked(c, s, k, front, opening);
      FinalizeOneChecked(c, FinalizeAll(s, k, front, opening, s.now), k, t, opening);
    }
  }

  lemma FinalizeChecked(c: Settings, s: State, k: AccountKey, batch: seq<TransferKey>)
    requires CheckedOk(c, s) && forall t <- batch :: t.account == k
    ensures CheckedOk(c, FinalizeTransfers(s, k, batch, s.now))
  {
    hide FinalizeAll, Balance, ApplyChange, PreparedChecked, EmittedChecked, RequestsChecked, ChecksOk, Survive;
    FinalizeSurvives(s, k, batch);
    ChecksLater(c, s.accounts, FinalizeTransfers(s, k, batch, s.now).accounts, s.checks, s.now, s.now);
    if Live(s, k).Some? {
      FinalizeAllChecked(c, s, k, batch, Balance(k, s.accounts[k], s.now).Floor);
    }
  }

  lemma AccountChecked(c: Settings, s: State, s': State, k: AccountKey)
    requires CheckedOk(c, s) && AccountStep(s, s', k)
    ensures CheckedOk(c, s')
  {
    hide AccountStep, ChecksOk, RequestsChecked, PreparedChecked, IsChecked, Survive;
    AccountStepTables(s, s', k);
    AccountSurvives(s, s', k);
    ChecksLater(c, s.accounts, s'.accounts, s.checks, s.now, s.now);
    if s'.nextChangeId != s.nextChangeId {
      PaymentEmission(s, s', k);
    } else {
      NoPaymentEmission(s, s', k);
    }
  }

  /** Crediting keeps everything that the checks are about. */
  lemma ApplyKeepsTables(s: State, k: AccountKey, batch: seq<ChangeKey>)
    ensures var s' := ApplyChanges(s, k, batch, s.now);
            s'.checks == s.checks && s'.requests == s.requests && s'.prepared == s.prepared && s'.emitted == s.emitted
  {
    hide ApplyAll, ApplyChange, LockOrCreate, AccountStep;
    if batch != [] {
      var s1 := LockOrCreate(s, k, s.now);
      LockOrCreateFrame(s, k);
      AccountStepTables(s, s1, k);
      NoPaymentEmission(s, s1, k);
      ApplyAllKeepsTables(s1, k, batch);
    }
  }

  lemma {:induction false} ApplyAllKeepsTables(s: State, k: AccountKey, batch: seq<ChangeKey>)
    requires k in s.accounts
    ensures var s' := ApplyAll(s, k, batch, s.now).state;
            s'.checks == s.checks && s'.requests == s.requests && s'.prepared == s.prepared && s'.emitted == s.emitted
  {
    hide DueInterest, TransferSignals, Contain, Numbered;
    if batch != [] {
      ApplyAllKeepsTables(s, k, batch[..|batch| - 1]);
    }
  }

  lemma ApplyChecked(c: Settings, s: State, k: AccountKey, batch: seq<ChangeKey>)
    requires CheckedOk(c, s)
    ensures CheckedOk(c, ApplyChanges(s, k, batch, s.now))
  {
    hide ApplyChanges, ChecksOk, RequestsChecked, PreparedChecked, EmittedChecked, Survive;
    ApplyKeepsTables(s, k, batch);
    ApplySurvives(s, k, batch);
    ChecksLater(c, s.accounts, ApplyChanges(s, k, batch, s.now).accounts, s.checks, s.now, s.now);
  }

  lemma PurgeChecked(c: Settings, s: State, k: AccountKey)
    requires CheckedOk(c, s) && LocksOk(s, {})
    ensures CheckedOk(c, PurgeAccount(c, s, k, s.now))
  {
    hide ChecksOk, RequestsChecked, PreparedChecked, EmittedChecked, CanBePurged, LocksOk;
    PurgeLocks(c, s, k, {});
    if k in s.accounts && CanBePurged(c, s.accounts[k], s.now) {
      PurgeChecks(c, s.accounts, k, s.checks, s.now);
    }
  }

  lemma RecipientChecked(c: Settings, s: State, k: AccountKey)
    requires c.Valid() && CheckedOk(c, s)
    ensures CheckedOk(c, CheckRecipient(s, k, s.now))
  {
    hide ChecksOk, IsReachable;
    if IsReachable(s, k) {
      AddCheck(c, s, k);
    }
  }

  lemma RequestChecked(
    c: Settings, s: State, k: AccountKey, request: Option<TransferRequest>, coordinator: Coordinator)
    requires CheckedOk(c, s) && Enabled(s, ERequestTransfer(k, request, coordinator))
    ensures CheckedOk(c, RequestTransfer(s, k, request, coordinator))
  {
    hide ChecksOk, PreparedChecked, EmittedChecked;
  }

  lemma SameChecked(c: Settings, s: State, s': State)
    requires CheckedOk(c, s) && QueueStep(s, s') && s'.checks == s.checks && s'.requests == s.requests
    ensures CheckedOk(c, s')
  {
    hide ChecksOk, RequestsChecked, PreparedChecked, EmittedChecked;
  }

  lemma KeepsChecks(s: State, e: Event)
    requires Enabled(s, e)
    ensures e.ERequestFinalization? ==>
              var s' := RequestFinalization(s, e.transfer, e.finalization); s'.checks == s.checks && s'.requests == s.requests
    ensures e.EDeliver? ==>
              var s' := DeliverChange(s, e.change, e.cutoff); s'.checks == s.checks && s'.requests == s.requests
    ensures e.EDeleteRegistered? ==>
              var s' := DeleteRegistered(s, e.change, e.cutoff); s'.checks == s.checks && s'.requests == s.requests
  {
    hide Distinct;
  }

  lemma CheckedLater(c: Settings, s: State, now: int)
    requires CheckedOk(c, s) && s.now <= now
    ensures CheckedOk(c, s.(now := now))
  {
    hide RequestsChecked, PreparedChecked, EmittedChecked;
  }

  lemma FreshLater(c: Settings, s: State, e: Event, now: int)
    requires Enabled(s, e) && IsFresh(c, s, e, now)
    ensures IsFresh(c, s.(now := now), e, now)
    ensures e.EPrepare? ==> 0 <= e.commitPeriod
    ensures e.EFinalize? ==> forall t <- e.transfers :: t.account == e.key
  {
  }

  /** Every fresh step keeps the connection between checks and credits. */
  lemma CheckedStep(c: Settings, s: State, e: Event, now: int)
    requires c.Valid() && RowsOk(c, s) && LocksOk(s, {}) && CheckedOk(c, s) && s.now <= now && Enabled(s, e)
    requires IsFresh(c, s, e, now)
    ensures CheckedOk(c, Step(c, s, e, now))
  {
    hide *;
    var s0, s' := s.(now := now), Step(c, s, e, now);
    EnabledLater(s, e, now);
    CheckedLater(c, s, now);
    FreshLater(c, s, e, now);
    LocksLater(s, e, now, {});
    StepCases(c, s, e, now);
    EventKinds(e);
    if IsAccountEvent(e) {
      AccountEventFrame(c, s, e, now);
      AccountChecked(c, s0, s', KeyOf(e));
    } else {
      NotAccountEvent(e);
      KeepsChecks(s0, e);
      match e
      case ECheckRecipient(k) => RecipientChecked(c, s0, k);
      case ERequestTransfer(k, request, coordinator) => RequestChecked(c, s0, k, request, coordinator);
      case EPrepare(rk, commitPeriod) => PrepareChecked(c, s0, rk, commitPeriod);
      case EFinalize(k, batch) => FinalizeChecked(c, s0, k, batch);
      case EApply(k, batch) => ApplyChecked(c, s0, k, batch);
      case EPurge(k) => PurgeChecked(c, s0, k);
      case _ => SameChecked(c, s0, s');
    }
  }

  lemma NotAccountEvent(e: Event)
    requires !IsAccountEvent(e)
    ensures !e.EConfigure? && !e.EChangeRate? && !e.EUpdateDebtorInfo? && !e.ECapitalize? && !e.ETryToDelete?
            && !e.EPay? && !e.EHeartbeat?
  {
  }

  // ---- Every run

  predicate AlwaysFresh(c: Settings, r: Run)
    requires |r.states| == |r.steps| + 1
  {
    forall i :: 0 <= i < |r.steps| ==> IsFresh(c, r.states[i], r.steps[i].event, r.steps[i].now)
  }

  lemma {:induction false} AlwaysChecked(c: Settings, r: Run)
    requires IsRun(c, r) && AlwaysFresh(c, r)
    ensures CheckedOk(c, r.states[|r.steps|])
    decreases |r.steps|
  {
    hide RowsOk, LocksOk, QueuesOk, CheckedOk, Step, Enabled, IsFresh;
    if r.steps == [] {
      NoChecksAtStart(c, r.states[0].now);
    } else {
      var n := |r.steps|;
      var front := Run(r.states[..n], r.steps[..n - 1]);
      Prefix(c, r);
      AlwaysChecked(c, front);
      AlwaysConsistent(c, front);
      CheckedStep(c, r.states[n - 1], r.steps[n - 1].event, r.steps[n - 1].now);
    }
  }

  lemma NoChecksAtStart(c: Settings, now: int)
    ensures CheckedOk(c, Start(now))
  {
  }

  /** Purge timing: when an account is purged, every amount that was sent to it has been credited,
      unless the network has delayed it for longer than the extreme delay; and no prepared transfer
      to it can be committed any more. */
  lemma PurgedAccountsAreCredited(c: Settings, r: Run, i: nat, k: AccountKey)
    requires IsRun(c, r) && AlwaysFresh(c, r) && i < |r.steps|
    requires k.creditor != ROOT_CREDITOR_ID && k in r.states[i].accounts && k !in r.states[i + 1].accounts
    ensures var s, now := r.states[i], r.steps[i].now;
            && r.steps[i].event == EPurge(k)
            && (forall ck :: ck in s.emitted && IsDue(s.emitted, s.applied, k, ck) ==>
                  s.emitted[ck].committedAt + c.extremeDelay < now)
            && (forall t :: t in s.prepared && AccountKey(t.account.debtor, s.prepared[t].recipient) == k ==>
                  s.prepared[t].deadline < now)
  {
    hide RowsOk, LocksOk, QueuesOk, Step, Enabled, IsFresh;
    var s, e, now := r.states[i], r.steps[i].event, r.steps[i].now;
    PrefixTo(c, r, i);
    var p := PrefixRun(r, i);
    AlwaysConsistent(c, p);
    AlwaysChecked(c, p);
    assert IsStep(c, s, r.steps[i], r.states[i + 1]);
    PurgeMeaning(c, s, e, now, k);
  }

  lemma PurgeMeaning(c: Settings, s: State, e: Event, now: int, k: AccountKey)
    requires c.Valid() && RowsOk(c, s) && CheckedOk(c, s) && s.now <= now && Enabled(s, e)
    requires k.creditor != ROOT_CREDITOR_ID && k in s.accounts && k !in Step(c, s, e, now).accounts
    ensures e == EPurge(k)
    ensures forall ck :: ck in s.emitted && IsDue(s.emitted, s.applied, k, ck) ==>
              s.emitted[ck].committedAt + c.extremeDelay < now
    ensures forall t :: t in s.prepared && AccountKey(t.account.debtor, s.prepared[t].recipient) == k ==>
              s.prepared[t].deadline < now
  {
    hide RowsOk, Step, Enabled, ChecksOk, RequestsChecked, Distinct;
    var s0 := s.(now := now);
    StepCases(c, s, e, now);
    if !e.EPurge? {
      StepSurvives(c, s, e, now);
    } else {
      CheckedLater(c, s, now);
      PurgeChecks(c, s.accounts, k, s.checks, now);
    }
  }

  /** The longest delay of a change signal: from the commit until it has been credited. */
  predicate AlwaysDelivered(c: Settings, r: Run, k: AccountKey)
    requires |r.states| == |r.steps| + 1
  {
    forall i, ck :: 0 <= i < |r.steps| && ck in r.states[i].emitted
                    && IsDue(r.states[i].emitted, r.states[i].applied, k, ck)
      ==> r.steps[i].now <= r.states[i].emitted[ck].committedAt + c.extremeDelay
  }

  /** So no late credit is ever lost with the account that it was sent to. */
  lemma NothingIsDueAtPurge(c: Settings, r: Run, k: AccountKey)
    requires IsRun(c, r) && AlwaysFresh(c, r) && AlwaysDelivered(c, r, k) && k.creditor != ROOT_CREDITOR_ID
    ensures NothingDueAtPurge(r, k)
  {
    hide IsStep, IsFresh, IsDue;
    forall i, ck | 0 <= i < |r.steps| && k in r.states[i].accounts && k !in r.states[i + 1].accounts
                   && ck in r.states[i].emitted
      ensures !IsDue(r.states[i].emitted, r.states[i].applied, k, ck)
    {
      PurgedAccountsAreCredited(c, r, i, k);
    }
  }
}
