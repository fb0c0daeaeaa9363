/** What the steps change, and what they leave alone. */
module Frames {
  import opened Models
  import opened Steps

  /** How the procedures that work on one account may change its row. */
  predicate RowStep(a: Account, a': Account, now: int) {
    && a'.creationDate == a.creationDate
    && a'.lastTransferId == a.lastTransferId
    && a'.pendingTransfers == a.pendingTransfers
    && (a'.totalLocked == a.totalLocked || (a'.totalLocked == 0 && a'.deleted && a.pendingTransfers == 0))
    && (a.overflown ==> a'.overflown)
    && a.lastChangeTs <= a'.lastChangeTs
    && (a'.deleted && !a.deleted ==> now <= a'.lastChangeTs && a'.principal == 0 && a.pendingTransfers == 0)
    && (a'.deleted && a.deleted ==> a'.principal == a.principal && a'.lastChangeTs == a.lastChangeTs)
  }

  /** The balance change that is emitted to the root account for a payment. */
  function PaymentChange(k: AccountKey, coordinatorType: string, note: string, amount: int, now: int): BalanceChange {
    BalanceChange(ROOT_CREDITOR_ID, coordinatorType, note, now, -amount, now)
  }

  /** The amount that a step has paid to the account, as the emitted change tells. */
  function PaidAmount(s: State, s': State, k: AccountKey): int {
    var ck := ChangeKey(k.debtor, k.creditor, s.nextChangeId);
    if s'.nextChangeId == s.nextChangeId || ck !in s'.emitted then 0 else -s'.emitted[ck].delta
  }

  /** A step on one account: one row at most is written, and one change at most is emitted. */
  predicate AccountStep(s: State, s': State, k: AccountKey) {
    && s' == s.(accounts := s'.accounts, emitted := s'.emitted, nextChangeId := s'.nextChangeId,
                updates := s'.updates, transfers := s'.transfers, rejectedConfigs := s'.rejectedConfigs)
    && (s'.accounts == s.accounts
        || (k in s'.accounts && s'.accounts == s.accounts[k := s'.accounts[k]]
            && RowStep(RowOf(s, k), s'.accounts[k], s.now)))
    && PaymentStep(s, s', k)
  }

  predicate PaymentStep(s: State, s': State, k: AccountKey) {
    var amount := PaidAmount(s, s', k);
    if s'.nextChangeId == s.nextChangeId then
      && s'.emitted == s.emitted
      && (k in s'.accounts ==> s'.accounts[k].principal == RowOf(s, k).principal)
    else
      var ck := ChangeKey(k.debtor, k.creditor, s.nextChangeId);
      && amount != 0 && -MAX_INT64 <= amount <= MAX_INT64 && k.creditor != ROOT_CREDITOR_ID
      && s'.nextChangeId == s.nextChangeId + 1
      && ck in s'.emitted
      && s'.emitted == s.emitted[ck := s'.emitted[ck]]
      && s'.emitted[ck] == PaymentChange(k, s'.emitted[ck].coordinatorType, s'.emitted[ck].note, amount, s.now)
      && k in s'.accounts
      && s'.accounts[k].principal == Contain(RowOf(s, k).principal + amount)
      && (s'.accounts[k].principal != RowOf(s, k).principal + amount ==> s'.accounts[k].overflown)
  }

  /** Which events are steps on one account. */
  predicate IsAccountEvent(e: Event) {
    e.EConfigure? || e.EChangeRate? || e.EUpdateDebtorInfo? || e.ECapitalize? || e.ETryToDelete?
    || e.EPay? || e.EHeartbeat?
  }

  /** What a step on one account does to the tables, without the payment. */
  lemma AccountStepTables(s: State, s': State, k: AccountKey)
    requires AccountStep(s, s', k)
    ensures s'.now == s.now && s'.requests == s.requests && s'.finalizations == s.finalizations
    ensures s'.prepared == s.prepared && s'.queued == s.queued && s'.registered == s.registered
    ensures s'.applied == s.applied && s'.scannerCutoff == s.scannerCutoff && s'.finalized == s.finalized
    ensures s'.checks == s.checks && s'.purgedConfigs == s.purgedConfigs
    ensures s'.accounts != s.accounts ==>
              && k in s'.accounts
              && s'.accounts == s.accounts[k := s'.accounts[k]]
              && RowStep(RowOf(s, k), s'.accounts[k], s.now)
  {
    hide PaymentStep, RowStep;
  }

  function KeyOf(e: Event): AccountKey
    requires IsAccountEvent(e)
  {
    e.key
  }

  lemma AccountEventKinds(e: Event)
    requires IsAccountEvent(e)
    ensures e.EConfigure? || e.EChangeRate? || e.EUpdateDebtorInfo? || e.ECapitalize? || e.ETryToDelete?
            || e.EPay? || e.EHeartbeat?
    ensures KeyOf(e) == e.key
  {
  }

  /** Which events only work with queues and registers. */
  predicate IsQueueEvent(e: Event) {
    e.ECheckRecipient? || e.ERequestTransfer? || e.ERequestFinalization? || e.EDeliver? || e.EDeleteRegistered?
  }

  lemma EventKinds(e: Event)
    ensures IsAccountEvent(e) || IsQueueEvent(e) || e.EPrepare? || e.EFinalize? || e.EApply? || e.EPurge?
  {
  }

  // ---- Each procedure on one account

  lemma Stays(s: State, k: AccountKey)
    ensures AccountStep(s, s, k)
    ensures forall rejected :: AccountStep(s, s.(rejectedConfigs := rejected), k)
  {
  }

  lemma RowStays(a: Account, now: int)
    ensures RowStep(a, a, now)
  {
  }

  lemma RowTrans(a: Account, b: Account, d: Account, now: int)
    requires RowStep(a, b, now) && RowStep(b, d, now) && !b.deleted && (a.deleted ==> !d.deleted)
    ensures RowStep(a, d, now)
  {
  }

  /** Two steps on one account, with at most one payment, make one. */
  lemma AccountTrans(s: State, s1: State, s2: State, k: AccountKey)
    requires AccountStep(s, s1, k) && AccountStep(s1, s2, k)
    requires s1.nextChangeId == s.nextChangeId || s2.nextChangeId == s1.nextChangeId
    requires k in s1.accounts && !s1.accounts[k].deleted
    requires RowOf(s, k).deleted ==> !RowOf(s2, k).deleted
    ensures AccountStep(s, s2, k)
  {
    RowStays(RowOf(s, k), s.now);
    RowStays(RowOf(s1, k), s.now);
    RowTrans(RowOf(s, k), RowOf(s1, k), RowOf(s2, k), s.now);
    hide RowStep;
  }

  lemma SetAccountFrame(s: State, k: AccountKey, a: Account)
    requires RowStep(RowOf(s, k), a, s.now) && a.principal == RowOf(s, k).principal
    ensures AccountStep(s, SetAccount(s, k, a), k)
    ensures AccountStep(s, SendUpdate(s, k, a, s.now), k)
  {
  }

  lemma PayFrame(s: State, k: AccountKey, coordinatorType: string, note: string, amount: int)
    requires k in s.accounts && !s.accounts[k].deleted && -MAX_INT64 <= amount <= MAX_INT64
    ensures AccountStep(s, Pay(s, k, coordinatorType, note, amount, s.now), k)
  {
    hide AccumulatedInterest;
    assert RowStep(s.accounts[k], Paid(k, s.accounts[k], coordinatorType, amount, s.now), s.now);
    hide RowStep;
  }

  lemma ConfiguredStep(k: AccountKey, a: Account, m: Configuration, now: int)
    requires -MAX_INT64 <= a.principal <= MAX_INT64
    ensures RowStep(a, Configured(k, a, m, now), now) && Configured(k, a, m, now).principal == a.principal
  {
    hide AccumulatedInterest;
  }

  /** A configuration message is ignored, or rejected, or applied. */
  lemma ConfigureOutcomes(c: Settings, s: State, k: AccountKey, m: Configuration)
    ensures var s' := ConfigureAccount(c, s, k, m, s.now);
            || s' == s
            || s' == s.(rejectedConfigs := s'.rejectedConfigs)
            || s' == SendUpdate(s, k, Configured(k, RowOf(s, k), m, s.now), s.now)
  {
    hide Configured, RowOf, ConfigLater, IsValidConfig, SendUpdate;
  }

  lemma ConfigureFrame(c: Settings, s: State, k: AccountKey, m: Configuration)
    requires -MAX_INT64 <= RowOf(s, k).principal <= MAX_INT64
    ensures AccountStep(s, ConfigureAccount(c, s, k, m, s.now), k)
  {
    hide ConfigureAccount, Configured, RowOf, RowStep, AccountStep, SendUpdate;
    ConfigureOutcomes(c, s, k, m);
    ConfiguredStep(k, RowOf(s, k), m, s.now);
    SetAccountFrame(s, k, Configured(k, RowOf(s, k), m, s.now));
    Stays(s, k);
  }

  lemma ChangeRateFrame(c: Settings, s: State, k: AccountKey, rate: real, ts: int)
    ensures AccountStep(s, ChangeRate(c, s, k, rate, ts, s.now), k)
  {
    hide AccumulatedInterest;
    Stays(s, k);
    if Live(s, k).Some? {
      SetAccountFrame(s, k, RateChanged(k, s.accounts[k], Clamp(c, rate), s.now));
    }
    hide AccountStep, RateChanged;
  }

  lemma UpdateDebtorInfoFrame(s: State, k: AccountKey, info: Option<string>, ts: int)
    ensures AccountStep(s, UpdateDebtorInfo(s, k, info, ts, s.now), k)
  {
    Stays(s, k);
    if Live(s, k).Some? {
      SetAccountFrame(s, k, Bumped(s.accounts[k], s.now).(debtorInfo := info));
    }
    hide AccountStep, Bumped;
  }

  lemma HeartbeatFrame(c: Settings, s: State, k: AccountKey)
    ensures AccountStep(s, SendHeartbeat(c, s, k, s.now), k)
  {
    Stays(s, k);
    if Live(s, k).Some? {
      SetAccountFrame(s, k, s.accounts[k]);
    }
    hide AccountStep;
  }

  lemma CapitalizeFrame(s: State, k: AccountKey, minInterval: int)
    ensures AccountStep(s, Capitalize(s, k, minInterval, s.now), k)
  {
    hide AccumulatedInterest;
    Stays(s, k);
    if Live(s, k).Some? {
      var a := s.accounts[k].(capitalizationTs := s.now);
      var s1 := SetAccount(s, k, a);
      var amount := Contain(AccumulatedInterest(k, s.accounts[k], s.now).Floor);
      SetAccountFrame(s, k, a);
      PayFrame(s1, k, CT_INTEREST, "", amount);
      AccountTrans(s, s1, Pay(s1, k, CT_INTEREST, "", amount, s.now), k);
    }
    hide AccountStep, Pay;
  }

  lemma DeletedStep(a: Account, now: int)
    requires !a.deleted && a.pendingTransfers == 0 && a.principal == 0
    ensures RowStep(a, Deleted(a, now), now) && Deleted(a, now).principal == 0
  {
  }

  /** Paying the principal back leaves none. */
  lemma PaidBack(s: State, k: AccountKey)
    requires k in s.accounts && -MAX_INT64 <= s.accounts[k].principal <= MAX_INT64 && !s.accounts[k].deleted
    requires k.creditor != ROOT_CREDITOR_ID
    ensures var s' := Pay(s, k, CT_DELETE, "", -s.accounts[k].principal, s.now);
            && k in s'.accounts && s'.now == s.now && !s'.accounts[k].deleted
            && s'.accounts[k].principal == 0
            && s'.accounts[k].pendingTransfers == s.accounts[k].pendingTransfers
  {
    hide AccumulatedInterest;
  }

  lemma TryToDeleteFrame(s: State, k: AccountKey)
    requires -MAX_INT64 <= RowOf(s, k).principal <= MAX_INT64
    ensures AccountStep(s, TryToDelete(s, k, s.now), k)
  {
    hide Pay, Deleted, Balance, IsNegligibleBalance;
    Stays(s, k);
    if Live(s, k).Some? && k.creditor != ROOT_CREDITOR_ID {
      var a := s.accounts[k].(deletionAttemptTs := s.now);
      var s1 := SetAccount(s, k, a);
      SetAccountFrame(s, k, a);
      if CanBeDeleted(k, s.accounts[k], s.now) {
        var s2 := Pay(s1, k, CT_DELETE, "", -a.principal, s.now);
        PayFrame(s1, k, CT_DELETE, "", -a.principal);
        PaidBack(s1, k);
        AccountTrans(s, s1, s2, k);
        DeletedStep(s2.accounts[k], s.now);
        SetAccountFrame(s2, k, Deleted(s2.accounts[k], s.now));
        AccountTrans(s, s2, SendUpdate(s2, k, Deleted(s2.accounts[k], s.now), s.now), k);
      }
    }
    hide AccountStep;
  }

  lemma LockOrCreateFrame(s: State, k: AccountKey)
    ensures var s' := LockOrCreate(s, k, s.now);
            AccountStep(s, s', k) && s'.nextChangeId == s.nextChangeId
            && k in s'.accounts && !s'.accounts[k].deleted
            && s'.accounts[k].principal == RowOf(s, k).principal
  {
    Stays(s, k);
    RowStays(NewAccount(s.now), s.now);
    if k !in s.accounts {
      SetAccountFrame(s, k, NewAccount(s.now));
    } else {
      SetAccountFrame(s, k, Bumped(s.accounts[k], s.now).(deleted := false));
    }
    hide AccountStep;
  }

  lemma MakeDebtorPaymentFrame(s: State, k: AccountKey, coordinatorType: string, note: string, amount: int)
    requires -MAX_INT64 <= amount <= MAX_INT64
    ensures AccountStep(s, MakeDebtorPayment(s, k, coordinatorType, note, amount, s.now), k)
  {
    hide AccumulatedInterest;
    var s1 := LockOrCreate(s, k, s.now);
    LockOrCreateFrame(s, k);
    PayFrame(s1, k, coordinatorType, note, amount);
    AccountTrans(s, s1, Pay(s1, k, coordinatorType, note, amount, s.now), k);
  }

  // ---- One transfer request

  /** What processing one transfer request leaves alone. */
  lemma PrepareKeeps(c: Settings, s: State, rk: RequestKey, commitPeriod: int)
    requires rk in s.requests
    ensures var s' := PrepareTransfer(c, s, rk, commitPeriod, s.now);
            && KeepsChanges(s, s')
            && s'.requests == s.requests - {rk} && s'.finalizations == s.finalizations
            && s'.finalized == s.finalized && s'.transfers == s.transfers && s'.updates == s.updates
            && s'.checks == s.checks && s'.purgedConfigs == s.purgedConfigs
  {
    hide Accepts, LockableAmount, NewTransfer, WithLock, Rejection, KeepsChanges;
  }

  /** What processing one transfer request writes, apart from the rejections. */
  lemma PrepareWrites(c: Settings, s: State, rk: RequestKey, commitPeriod: int)
    requires rk in s.requests
    ensures var k, r, s' := rk.account, s.requests[rk], PrepareTransfer(c, s, rk, commitPeriod, s.now);
            if Accepts(s, rk, s.now) then
              var a, amount := s.accounts[k], LockableAmount(k, s.accounts[k], r, s.now);
              var t, pt := TransferKey(k, a.lastTransferId + 1), NewTransfer(c, r, amount, commitPeriod, s.now);
              && s'.accounts == s.accounts[k := WithLock(a, amount)]
              && s'.prepared == s.prepared[t := pt]
              && s'.preparations == s.preparations + [PreparedSignal(t, pt)]
            else s'.accounts == s.accounts && s'.prepared == s.prepared && s'.preparations == s.preparations
  {
    hide Accepts, LockableAmount, NewTransfer, WithLock, Rejection;
  }

  // ---- One finalization

  lemma ReleaseFrame(s: State, k: AccountKey, t: TransferKey, status: StatusCode, committed: int, now: int)
    requires k in s.accounts && Matches(s, t)
    ensures var s' := Release(s, k, t, status, committed, now);
            && s' == s.(accounts := s'.accounts, finalizations := s.finalizations - {t},
                        prepared := s.prepared - {t}, finalized := s'.finalized)
            && s'.accounts == s.accounts[k := Released(k, s.accounts[k], s.prepared[t], committed, now)]
            && |s'.finalized| == |s.finalized| + 1
            && s'.finalized == s.finalized + [s'.finalized[|s.finalized|]]
            && s'.finalized[|s.finalized|].key == t && s'.finalized[|s.finalized|].committed == committed
  {
    hide Released, Unlocked;
  }

  /** What finalizing one transfer writes, apart from the queues and the emitted change. */
  lemma FinalizeOneFrame(f: Finalizing, k: AccountKey, t: TransferKey, opening: int, now: int)
    requires k in f.state.accounts
    ensures var s, s' := f.state, FinalizeOne(f, k, t, opening, now).state;
            && s'.now == s.now && s'.preparations == s.preparations
            && if Matches(s, t) then
                 && s'.accounts == s.accounts[k := Released(k, s.accounts[k], s.prepared[t],
                                                            CommittedAmount(f, k, t, opening, now), now)]
                 && s'.prepared == s.prepared - {t}
                 && |s'.finalized| == |s.finalized| + 1
                 && s'.finalized == s.finalized + [s'.finalized[|s.finalized|]]
                 && s'.finalized[|s.finalized|].key == t
                 && s'.finalized[|s.finalized|].committed == CommittedAmount(f, k, t, opening, now)
               else s'.accounts == s.accounts && s'.prepared == s.prepared && s'.finalized == s.finalized
  {
    hide Release, Released, CommittedAmount, FinalStatus, TransferSignals;
    if Matches(f.state, t) {
      ReleaseFrame(f.state, k, t, FinalStatus(f, k, t, opening, now), CommittedAmount(f, k, t, opening, now), now);
    }
  }

  // ---- From events to procedures

  /** Which procedure each event runs.  It is the only place where the definition of a step is
      needed; everything else can hide it. */
  lemma StepCases(c: Settings, s: State, e: Event, now: int)
    requires Enabled(s, e)
    ensures
      var s0, s' := s.(now := now), Step(c, s, e, now);
      match e
      case EConfigure(k, m) => s' == ConfigureAccount(c, s0, k, m, now)
      case ECheckRecipient(k) => s' == CheckRecipient(s0, k, now)
      case ERequestTransfer(k, request, coordinator) => s' == RequestTransfer(s0, k, request, coordinator)
      case ERequestFinalization(t, r) => s' == RequestFinalization(s0, t, r)
      case EChangeRate(k, rate, ts) => s' == ChangeRate(c, s0, k, rate, ts, now)
      case EUpdateDebtorInfo(k, info, ts) => s' == UpdateDebtorInfo(s0, k, info, ts, now)
      case ECapitalize(k, minInterval) => s' == Capitalize(s0, k, minInterval, now)
      case ETryToDelete(k) => s' == TryToDelete(s0, k, now)
      case EPrepare(rk, commitPeriod) => rk in s.requests && s' == PrepareTransfer(c, s0, rk, commitPeriod, now)
      case EFinalize(k, batch) => s' == FinalizeTransfers(s0, k, batch, now)
      case EApply(k, batch) => s' == ApplyChanges(s0, k, batch, now)
      case EPay(k, coordinatorType, note, amount) =>
        -MAX_INT64 <= amount <= MAX_INT64 && s' == MakeDebtorPayment(s0, k, coordinatorType, note, amount, now)
      case EDeliver(ck, cutoff) => ck in s.emitted && s' == DeliverChange(s0, ck, cutoff)
      case EPurge(k) => s' == PurgeAccount(c, s0, k, now)
      case EHeartbeat(k) => s' == SendHeartbeat(c, s0, k, now)
      case EDeleteRegistered(ck, cutoff) => s' == DeleteRegistered(s0, ck, cutoff)
  {
    hide ConfigureAccount, CheckRecipient, RequestTransfer, RequestFinalization, ChangeRate, UpdateDebtorInfo,
         Capitalize, TryToDelete, PrepareTransfer, FinalizeTransfers, ApplyChanges, MakeDebtorPayment,
         DeliverChange, PurgeAccount, SendHeartbeat, DeleteRegistered, Distinct;
  }

  lemma EnabledLater(s: State, e: Event, now: int)
    requires Enabled(s, e)
    ensures Enabled(s.(now := now), e)
  {
  }

  lemma QueueFrame(c: Settings, s: State, e: Event, now: int)
    requires Enabled(s, e) && IsQueueEvent(e)
    ensures QueueStep(s.(now := now), Step(c, s, e, now))
  {
    hide Step, Enabled, Distinct, QueueStep, CheckRecipient, RequestTransfer, RequestFinalization, DeliverChange,
         DeleteRegistered;
    StepCases(c, s, e, now);
  }

  /** A step moves the clock to the time it has read. */
  lemma StepClock(c: Settings, s: State, e: Event, now: int)
    requires Enabled(s, e)
    ensures Step(c, s, e, now).now == now
  {
    hide *;
    StepCases(c, s, e, now);
    KeepsNow();
  }

  lemma KeepsNow()
    ensures forall s: State, s': State {:trigger QueueStep(s, s')} :: QueueStep(s, s') ==> s'.now == s.now
    ensures forall s: State, s': State {:trigger KeepsChanges(s, s')} :: KeepsChanges(s, s') ==> s'.now == s.now
  {
  }
}
