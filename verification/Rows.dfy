/** What every row of the tables keeps, whatever happens to the other rows. */
module Rows {
  import opened Growth
  import opened Models
  import opened Steps
  import opened Frames

  /** The table constraints of an account row, and what the program relies on besides. */
  predicate RowOk(c: Settings, k: AccountKey, a: Account, now: int) {
    && -MAX_INT64 <= a.principal <= MAX_INT64
    && c.floor <= a.rate <= c.ceil && c.floor <= a.previousRate <= c.ceil
    && 0.0 <= a.negligible
    && a.rateChangeTs <= a.lastChangeTs <= now
    && T0 <= a.creationDate <= Date(now)
    && 0 <= a.totalLocked <= MAX_INT64
    && 0 <= a.pendingTransfers
    && a.creationDate * TRANSFERS_PER_DAY <= a.lastTransferId
    && 0 <= a.transferNumber
    && (a.deleted ==> IsEmpty(a) && k.creditor != ROOT_CREDITOR_ID)
    && (k.creditor == ROOT_CREDITOR_ID ==> HasNoInterest(a))
  }

  /** A deleted account has nothing left, and was scheduled for deletion. */
  predicate IsEmpty(a: Account) {
    && a.principal == 0 && a.interest == 0.0
    && a.totalLocked == 0 && a.pendingTransfers == 0
    && a.ScheduledForDeletion()
  }

  /** The rate of the debtor's own account never changes, and no interest is ever due on it. */
  predicate HasNoInterest(a: Account) {
    a.rate == 1.0 && a.previousRate == 1.0 && a.interest == 0.0
  }

  predicate PreparedOk(c: Settings, pt: PreparedTransfer, now: int) {
    && 0 <= pt.locked <= MAX_INT64 && pt.demurrage == c.floor && pt.preparedAt <= now && 0.0 <= pt.minRate
    && (pt.minRate > c.floor ==> pt.deadline <= pt.preparedAt + DAY)
  }

  predicate RequestOk(r: TransferRequest) {
    0 <= r.minLocked <= r.maxLocked <= MAX_INT64 && 0.0 <= r.minRate
  }

  predicate AccountsOk(c: Settings, accounts: map<AccountKey, Account>, now: int) {
    T0 <= now && forall k :: k in accounts ==> RowOk(c, k, accounts[k], now)
  }

  predicate TransfersOk(c: Settings, prepared: map<TransferKey, PreparedTransfer>, now: int) {
    forall t :: t in prepared ==> 0 < t.id && PreparedOk(c, prepared[t], now)
  }

  predicate RequestsOk(requests: map<RequestKey, TransferRequest>) {
    forall r :: r in requests ==> RequestOk(requests[r])
  }

  predicate FinalizationsOk(finalizations: map<TransferKey, FinalizationRequest>) {
    forall t :: t in finalizations ==> 0 <= finalizations[t].committed <= MAX_INT64
  }

  predicate RowsOk(c: Settings, s: State) {
    && AccountsOk(c, s.accounts, s.now)
    && TransfersOk(c, s.prepared, s.now)
    && RequestsOk(s.requests)
    && FinalizationsOk(s.finalizations)
  }

  // ---- Steps on one row

  lemma NewRow(c: Settings, k: AccountKey, now: int)
    requires c.Valid() && T0 <= now
    ensures RowOk(c, k, NewAccount(now), now)
  {
  }

  lemma BumpedRow(c: Settings, k: AccountKey, a: Account, now: int)
    requires RowOk(c, k, a, now)
    ensures RowOk(c, k, Bumped(a, now), now)
    ensures RowOk(c, k, Bumped(a, now).(deleted := false), now)
    ensures a.ScheduledForDeletion() && a.pendingTransfers == 0 && k.creditor != ROOT_CREDITOR_ID
            ==> RowOk(c, k, Deleted(a, now), now)
  {
  }

  lemma ApplyChangeRow(c: Settings, k: AccountKey, a: Account, principalDelta: int, interestDelta: real, now: int)
    requires RowOk(c, k, a, now) && !a.deleted && (k.creditor == ROOT_CREDITOR_ID ==> interestDelta == 0.0)
    ensures RowOk(c, k, ApplyChange(k, a, principalDelta, interestDelta, now), now)
  {
  }

  lemma ConfiguredRow(c: Settings, k: AccountKey, a: Account, m: Configuration, now: int)
    requires RowOk(c, k, a, now) && IsValidConfig(k.creditor, m)
    ensures RowOk(c, k, Configured(k, a, m, now), now)
  {
  }

  lemma RateChangedRow(c: Settings, k: AccountKey, a: Account, rate: real, now: int)
    requires c.Valid() && RowOk(c, k, a, now) && !a.deleted && k.creditor != ROOT_CREDITOR_ID
    ensures RowOk(c, k, RateChanged(k, a, Clamp(c, rate), now), now)
  {
  }

  lemma ReleasedRow(c: Settings, k: AccountKey, a: Account, pt: PreparedTransfer, committed: int, now: int)
    requires RowOk(c, k, a, now) && !a.deleted && PreparedOk(c, pt, now)
    ensures RowOk(c, k, Released(k, a, pt, committed, now), now)
    ensures !Released(k, a, pt, committed, now).deleted
  {
  }

  lemma PaidRow(c: Settings, k: AccountKey, a: Account, coordinatorType: string, amount: int, now: int)
    requires RowOk(c, k, a, now) && !a.deleted && k.creditor != ROOT_CREDITOR_ID
    ensures RowOk(c, k, Paid(k, a, coordinatorType, amount, now), now)
  {
    ApplyChangeRow(c, k, Numbered(k, a, amount, now), amount,
                   if coordinatorType == CT_INTEREST then -(amount as real) else 0.0, now);
  }

  lemma LockedRow(c: Settings, k: AccountKey, a: Account, r: TransferRequest, commitPeriod: int, now: int)
    requires RowOk(c, k, a, now) && !a.deleted && RequestOk(r)
    ensures var amount := LockableAmount(k, a, r, now);
            && RowOk(c, k, WithLock(a, amount), now) && 0 < a.lastTransferId + 1
            && PreparedOk(c, NewTransfer(c, r, amount, commitPeriod, now), now)
  {
    hide AvailableAmount;
  }

  // ---- Steps on the accounts

  lemma SetRow(c: Settings, s: State, k: AccountKey, a: Account)
    requires RowsOk(c, s) && RowOk(c, k, a, s.now)
    ensures RowsOk(c, SetAccount(s, k, a))
    ensures RowsOk(c, SendUpdate(s, k, a, s.now))
  {
    assert RowOk(c, k, Announced(a, s.now), s.now);
    hide RowOk, Announced, TransfersOk, RequestsOk, FinalizationsOk;
  }

  lemma PayRows(c: Settings, s: State, k: AccountKey, coordinatorType: string, note: string, amount: int)
    requires RowsOk(c, s) && k in s.accounts && !s.accounts[k].deleted
    ensures RowsOk(c, Pay(s, k, coordinatorType, note, amount, s.now))
  {
    if k.creditor != ROOT_CREDITOR_ID {
      PaidRow(c, k, s.accounts[k], coordinatorType, amount, s.now);
    }
    hide RowOk, Paid, TransfersOk, RequestsOk, FinalizationsOk;
  }

  lemma LockRows(c: Settings, s: State, k: AccountKey)
    requires c.Valid() && RowsOk(c, s)
    ensures var s' := LockOrCreate(s, k, s.now);
            RowsOk(c, s') && s'.now == s.now && k in s'.accounts && !s'.accounts[k].deleted
  {
    if k !in s.accounts {
      NewRow(c, k, s.now);
      SetRow(c, s, k, NewAccount(s.now));
    } else if s.accounts[k].deleted {
      BumpedRow(c, k, s.accounts[k], s.now);
      SetRow(c, s, k, Bumped(s.accounts[k], s.now).(deleted := false));
    }
  }

  lemma ConfigureRows(c: Settings, s: State, k: AccountKey, m: Configuration)
    requires c.Valid() && RowsOk(c, s)
    ensures RowsOk(c, ConfigureAccount(c, s, k, m, s.now))
  {
    NewRow(c, k, s.now);
    if IsValidConfig(k.creditor, m) {
      ConfiguredRow(c, k, RowOf(s, k), m, s.now);
      SetRow(c, s, k, Configured(k, RowOf(s, k), m, s.now));
    }
    hide AccountsOk, TransfersOk, RequestsOk, FinalizationsOk, Configured;
  }

  lemma ChangeRateRows(c: Settings, s: State, k: AccountKey, rate: real, ts: int)
    requires c.Valid() && RowsOk(c, s)
    ensures RowsOk(c, ChangeRate(c, s, k, rate, ts, s.now))
  {
    if Live(s, k).Some? && k.creditor != ROOT_CREDITOR_ID {
      RateChangedRow(c, k, s.accounts[k], rate, s.now);
      SetRow(c, s, k, RateChanged(k, s.accounts[k], Clamp(c, rate), s.now));
    }
  }

  lemma CapitalizeRows(c: Settings, s: State, k: AccountKey, minInterval: int)
    requires c.Valid() && RowsOk(c, s)
    ensures RowsOk(c, Capitalize(s, k, minInterval, s.now))
  {
    if Live(s, k).Some? {
      var a := s.accounts[k];
      var s1 := SetAccount(s, k, a.(capitalizationTs := s.now));
      SetRow(c, s, k, a.(capitalizationTs := s.now));
      PayRows(c, s1, k, CT_INTEREST, "", Contain(AccumulatedInterest(k, a, s.now).Floor));
    }
  }

  /** Paying the principal back does not unschedule the deletion. */
  lemma PaidBackRow(s: State, k: AccountKey)
    requires k in s.accounts && s.accounts[k].ScheduledForDeletion() && s.accounts[k].pendingTransfers == 0
    ensures var s' := Pay(s, k, CT_DELETE, "", -s.accounts[k].principal, s.now);
            && k in s'.accounts && s'.now == s.now
            && s'.accounts[k].ScheduledForDeletion() && s'.accounts[k].pendingTransfers == 0
  {
    hide AccumulatedInterest;
  }

  lemma DeleteRows(c: Settings, s: State, k: AccountKey)
    requires c.Valid() && RowsOk(c, s)
    ensures RowsOk(c, TryToDelete(s, k, s.now))
  {
    hide Pay, Balance, IsNegligibleBalance, Deleted;
    if Live(s, k).Some? && k.creditor != ROOT_CREDITOR_ID {
      var a := s.accounts[k];
      var s1 := SetAccount(s, k, a.(deletionAttemptTs := s.now));
      SetRow(c, s, k, a.(deletionAttemptTs := s.now));
      if CanBeDeleted(k, a, s.now) {
        var s2 := Pay(s1, k, CT_DELETE, "", -a.principal, s.now);
        PayRows(c, s1, k, CT_DELETE, "", -a.principal);
        PaidBackRow(s1, k);
        BumpedRow(c, k, s2.accounts[k], s.now);
        SetRow(c, s2, k, Deleted(s2.accounts[k], s.now));
      }
    }
    hide RowsOk, RowOk;
  }

  lemma PaymentRows(c: Settings, s: State, k: AccountKey, coordinatorType: string, note: string, amount: int)
    requires c.Valid() && RowsOk(c, s)
    ensures RowsOk(c, MakeDebtorPayment(s, k, coordinatorType, note, amount, s.now))
  {
    LockRows(c, s, k);
    PayRows(c, LockOrCreate(s, k, s.now), k, coordinatorType, note, amount);
    hide RowsOk, LockOrCreate, Pay;
  }

  lemma DebtorInfoRows(c: Settings, s: State, k: AccountKey, info: Option<string>, ts: int)
    requires RowsOk(c, s)
    ensures RowsOk(c, UpdateDebtorInfo(s, k, info, ts, s.now))
  {
    if Live(s, k).Some? {
      BumpedRow(c, k, s.accounts[k], s.now);
      SetRow(c, s, k, Bumped(s.accounts[k], s.now).(debtorInfo := info));
    }
  }

  lemma HeartbeatRows(c: Settings, s: State, k: AccountKey)
    requires RowsOk(c, s)
    ensures RowsOk(c, SendHeartbeat(c, s, k, s.now))
  {
    if k in s.accounts {
      SetRow(c, s, k, s.accounts[k]);
    }
  }

  // ---- Steps on transfers and changes

  lemma PrepareRows(c: Settings, s: State, rk: RequestKey, commitPeriod: int)
    requires RowsOk(c, s) && rk in s.requests
    ensures RowsOk(c, PrepareTransfer(c, s, rk, commitPeriod, s.now))
  {
    hide RowOk, PreparedOk, RequestOk, FinalizationsOk, WithLock, NewTransfer, LockableAmount, Accepts,
         PrepareTransfer;
    PrepareKeeps(c, s, rk, commitPeriod);
    PrepareWrites(c, s, rk, commitPeriod);
    var k := rk.account;
    if Accepts(s, rk, s.now) {
      LockedRow(c, k, s.accounts[k], s.requests[rk], commitPeriod, s.now);
    }
  }

  lemma FinalizeOneRows(c: Settings, f: Finalizing, k: AccountKey, t: TransferKey, opening: int)
    requires RowsOk(c, f.state) && k in f.state.accounts && !f.state.accounts[k].deleted
    ensures var s' := FinalizeOne(f, k, t, opening, f.state.now).state;
            RowsOk(c, s') && s'.now == f.state.now && !s'.accounts[k].deleted
  {
    var s := f.state;
    if Matches(s, t) {
      ReleasedRow(c, k, s.accounts[k], s.prepared[t], CommittedAmount(f, k, t, opening, s.now), s.now);
    }
    if Matches(s, t) {
      ReleaseFrame(s, k, t, FinalStatus(f, k, t, opening, s.now), CommittedAmount(f, k, t, opening, s.now), s.now);
    }
    hide RowOk, PreparedOk, RequestsOk, Release, Released, FinalStatus, CommittedAmount, TransferSignals;
  }

  lemma {:induction false} FinalizeRows(c: Settings, s: State, k: AccountKey, batch: seq<TransferKey>, opening: int)
    requires RowsOk(c, s) && k in s.accounts && !s.accounts[k].deleted
    ensures var s' := FinalizeAll(s, k, batch, opening, s.now).state;
            RowsOk(c, s') && s'.now == s.now && !s'.accounts[k].deleted
  {
    if batch != [] {
      FinalizeRows(c, s, k, batch[..|batch| - 1], opening);
      FinalizeOneRows(c, FinalizeAll(s, k, batch[..|batch| - 1], opening, s.now), k, batch[|batch| - 1], opening);
    }
    hide RowsOk, FinalizeOne;
  }

  lemma FinalizeTransfersRows(c: Settings, s: State, k: AccountKey, batch: seq<TransferKey>)
    requires RowsOk(c, s)
    ensures RowsOk(c, FinalizeTransfers(s, k, batch, s.now))
  {
    if Live(s, k).Some? {
      var opening := Balance(k, s.accounts[k], s.now).Floor;
      FinalizeRows(c, s, k, batch, opening);
      var f := FinalizeAll(s, k, batch, opening, s.now);
      ApplyChangeRow(c, k, f.state.accounts[k], f.delta, 0.0, s.now);
      SetRow(c, f.state, k, ApplyChange(k, f.state.accounts[k], f.delta, 0.0, s.now));
    }
  }

  lemma {:induction false} ApplyRows(c: Settings, s: State, k: AccountKey, batch: seq<ChangeKey>)
    requires RowsOk(c, s) && k in s.accounts && !s.accounts[k].deleted
    ensures var b := ApplyAll(s, k, batch, s.now);
            && RowsOk(c, b.state) && b.state.now == s.now && !b.state.accounts[k].deleted
            && (k.creditor == ROOT_CREDITOR_ID ==> b.interestDelta == 0.0)
  {
    if batch != [] {
      ApplyRows(c, s, k, batch[..|batch| - 1]);
      ApplyOneRows(c, ApplyAll(s, k, batch[..|batch| - 1], s.now), k, batch[|batch| - 1], s.now);
    }
    hide RowsOk, ApplyOne;
  }

  /** No interest is due on an amount that is credited late to the debtor's own account. */
  lemma NoDueInterest(a: Account, amount: int, due: int, now: int)
    requires HasNoInterest(a)
    ensures DueInterest(a, amount, due, now) == 0.0
  {
    var end := Max(due, now);
    var change := Min(a.rateChangeTs, end);
    PowOfOne(Elapsed(due, change));
    PowOfOne(Min(end - change, end - due));
  }

  lemma ApplyOneRows(c: Settings, b: Crediting, k: AccountKey, ck: ChangeKey, now: int)
    requires RowsOk(c, b.state) && b.state.now == now && k in b.state.accounts && !b.state.accounts[k].deleted
    requires k.creditor == ROOT_CREDITOR_ID ==> b.interestDelta == 0.0
    ensures var b' := ApplyOne(b, k, ck, now);
            && RowsOk(c, b'.state) && !b'.state.accounts[k].deleted
            && (k.creditor == ROOT_CREDITOR_ID ==> b'.interestDelta == 0.0)
  {
    var s := b.state;
    if ck in s.queued && k.creditor == ROOT_CREDITOR_ID {
      NoDueInterest(s.accounts[k], s.queued[ck].delta, s.queued[ck].committedAt, now);
    }
    hide DueInterest, TransferSignals, TransfersOk, RequestsOk, FinalizationsOk;
  }

  lemma ApplyChangesRows(c: Settings, s: State, k: AccountKey, batch: seq<ChangeKey>)
    requires c.Valid() && RowsOk(c, s)
    ensures RowsOk(c, ApplyChanges(s, k, batch, s.now))
  {
    if batch != [] {
      LockRows(c, s, k);
      ApplyRows(c, LockOrCreate(s, k, s.now), k, batch);
      var b := ApplyAll(LockOrCreate(s, k, s.now), k, batch, s.now);
      ApplyChangeRow(c, k, b.state.accounts[k], b.principalDelta, b.interestDelta, s.now);
      SetRow(c, b.state, k, ApplyChange(k, b.state.accounts[k], b.principalDelta, b.interestDelta, s.now));
    }
    hide LockOrCreate;
  }

  lemma PurgeRows(c: Settings, s: State, k: AccountKey)
    requires RowsOk(c, s)
    ensures RowsOk(c, PurgeAccount(c, s, k, s.now))
  {
    hide RowOk, PreparedOk, RequestOk;
  }

  lemma RequestRows(c: Settings, s: State, k: AccountKey, request: Option<TransferRequest>, coordinator: Coordinator)
    requires RowsOk(c, s) && (request.Some? ==> RequestOk(request.value))
    ensures RowsOk(c, RequestTransfer(s, k, request, coordinator))
  {
    hide AccountsOk, TransfersOk, FinalizationsOk, RequestOk;
  }

  lemma QueueRows(c: Settings, s: State, e: Event)
    requires RowsOk(c, s) && Enabled(s, e)
    ensures e.ECheckRecipient? ==> RowsOk(c, CheckRecipient(s, e.key, s.now))
    ensures e.ERequestFinalization? ==> RowsOk(c, RequestFinalization(s, e.transfer, e.finalization))
    ensures e.EDeliver? ==> RowsOk(c, DeliverChange(s, e.change, e.cutoff))
    ensures e.EDeleteRegistered? ==> RowsOk(c, DeleteRegistered(s, e.change, e.cutoff))
    ensures e.ERequestTransfer? && e.request.Some? ==> RequestOk(e.request.value)
  {
    hide AccountsOk, TransfersOk, RequestsOk, Distinct;
  }

  // ---- Every step

  lemma RowsLater(c: Settings, s: State, now: int)
    requires RowsOk(c, s) && s.now <= now
    ensures RowsOk(c, s.(now := now))
  {
    assert Date(s.now) <= Date(now);
  }

  /** Every step keeps all rows well-formed. */
  lemma RowsStep(c: Settings, s: State, e: Event, now: int)
    requires c.Valid() && RowsOk(c, s) && s.now <= now && Enabled(s, e)
    ensures RowsOk(c, Step(c, s, e, now))
  {
    hide *;
    var s0 := s.(now := now);
    RowsLater(c, s, now);
    StepCases(c, s, e, now);
    match e {
      case EConfigure(k, m) => ConfigureRows(c, s0, k, m);
      case EChangeRate(k, rate, ts) => ChangeRateRows(c, s0, k, rate, ts);
      case EUpdateDebtorInfo(k, info, ts) => DebtorInfoRows(c, s0, k, info, ts);
      case ECapitalize(k, minInterval) => CapitalizeRows(c, s0, k, minInterval);
      case ETryToDelete(k) => DeleteRows(c, s0, k);
      case EPrepare(rk, commitPeriod) => PrepareRows(c, s0, rk, commitPeriod);
      case EFinalize(k, batch) => FinalizeTransfersRows(c, s0, k, batch);
      case EApply(k, batch) => ApplyChangesRows(c, s0, k, batch);
      case EPay(k, coordinatorType, note, amount) => PaymentRows(c, s0, k, coordinatorType, note, amount);
      case EPurge(k) => PurgeRows(c, s0, k);
      case EHeartbeat(k) => HeartbeatRows(c, s0, k);
      case ERequestTransfer(k, request, coordinator) =>
        EnabledLater(s, e, now);
        QueueRows(c, s0, e);
        RequestRows(c, s0, k, request, coordinator);
      case _ =>
        EnabledLater(s, e, now);
        QueueRows(c, s0, e);
    }
  }

  lemma PrincipalOk(c: Settings, s: State, k: AccountKey)
    requires RowsOk(c, s)
    ensures -MAX_INT64 <= RowOf(s, k).principal <= MAX_INT64
  {
  }

  lemma AccountEventFrame(c: Settings, s: State, e: Event, now: int)
    requires RowsOk(c, s) && s.now <= now && Enabled(s, e) && IsAccountEvent(e)
    ensures AccountStep(s.(now := now), Step(c, s, e, now), KeyOf(e))
  {
    AccountEventKinds(e);
    hide *;
    var s0 := s.(now := now);
    StepCases(c, s, e, now);
    RowsLater(c, s, now);
    PrincipalOk(c, s0, e.key);
    match e {
      case EConfigure(k, m) => ConfigureFrame(c, s0, k, m);
      case EChangeRate(k, rate, ts) => ChangeRateFrame(c, s0, k, rate, ts);
      case EUpdateDebtorInfo(k, info, ts) => UpdateDebtorInfoFrame(s0, k, info, ts);
      case ECapitalize(k, minInterval) => CapitalizeFrame(s0, k, minInterval);
      case ETryToDelete(k) => TryToDeleteFrame(s0, k);
      case EPay(k, coordinatorType, note, amount) => MakeDebtorPaymentFrame(s0, k, coordinatorType, note, amount);
      case EHeartbeat(k) => HeartbeatFrame(c, s0, k);
    }
  }

  lemma DeletedIsEmpty(c: Settings, s: State, k: AccountKey)
    requires RowsOk(c, s) && k in s.accounts && s.accounts[k].deleted
    ensures IsEmpty(s.accounts[k]) && k.creditor != ROOT_CREDITOR_ID
  {
  }
}
