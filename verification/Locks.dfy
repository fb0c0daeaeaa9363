/** Lock accounting: the locks of an account against its prepared transfers. */
module Locks {
  import opened Totals
  import opened Models
  import opened Steps
  import opened Frames
  import opened Rows

  /** The prepared transfers of an account. */
  function TransfersOf(prepared: map<TransferKey, PreparedTransfer>, k: AccountKey): set<TransferKey> {
    set t | t in prepared && t.account == k
  }

  function LocksOf(prepared: map<TransferKey, PreparedTransfer>, k: AccountKey): map<TransferKey, real> {
    map t | t in prepared && t.account == k :: prepared[t].locked as real
  }

  ghost function LockTotal(prepared: map<TransferKey, PreparedTransfer>, k: AccountKey): real {
    Sum(LocksOf(prepared, k))
  }

  lemma LocksInsert(prepared: map<TransferKey, PreparedTransfer>, t: TransferKey, pt: PreparedTransfer, k: AccountKey)
    requires t !in prepared
    ensures var after := prepared[t := pt];
            if k == t.account
            then && |TransfersOf(after, k)| == |TransfersOf(prepared, k)| + 1
                 && LockTotal(after, k) == LockTotal(prepared, k) + pt.locked as real
            else TransfersOf(after, k) == TransfersOf(prepared, k) && LockTotal(after, k) == LockTotal(prepared, k)
  {
    var after := prepared[t := pt];
    if k == t.account {
      assert TransfersOf(after, k) == TransfersOf(prepared, k) + {t};
      assert LocksOf(after, k) == LocksOf(prepared, k)[t := pt.locked as real];
      SumInsert(LocksOf(prepared, k), t, pt.locked as real);
    } else {
      assert LocksOf(after, k) == LocksOf(prepared, k);
    }
  }

  lemma LocksRemove(prepared: map<TransferKey, PreparedTransfer>, t: TransferKey, k: AccountKey)
    requires t in prepared
    ensures var after := prepared - {t};
            if k == t.account
            then && |TransfersOf(after, k)| == |TransfersOf(prepared, k)| - 1
                 && LockTotal(after, k) == LockTotal(prepared, k) - prepared[t].locked as real
            else TransfersOf(after, k) == TransfersOf(prepared, k) && LockTotal(after, k) == LockTotal(prepared, k)
  {
    var after := prepared - {t};
    if k == t.account {
      assert TransfersOf(after, k) == TransfersOf(prepared, k) - {t};
      assert LocksOf(after, k) == LocksOf(prepared, k) - {t};
      SumWithout(LocksOf(prepared, k), t);
    } else {
      assert LocksOf(after, k) == LocksOf(prepared, k);
    }
  }

  lemma LockTotalNonNegative(c: Settings, prepared: map<TransferKey, PreparedTransfer>, k: AccountKey, now: int)
    requires TransfersOk(c, prepared, now)
    ensures 0.0 <= LockTotal(prepared, k)
  {
    SumNonNegative(LocksOf(prepared, k));
  }

  /** The lock columns of one account.  For the accounts in `exact` the total is the sum of the
      locks; for the others its cap may have bitten. */
  ghost predicate LockOk(
    prepared: map<TransferKey, PreparedTransfer>, k: AccountKey, a: Account, exact: set<AccountKey>)
  {
    && a.pendingTransfers == |TransfersOf(prepared, k)|
    && a.totalLocked as real <= LockTotal(prepared, k)
    && (k in exact ==> a.totalLocked as real == LockTotal(prepared, k))
  }

  ghost predicate ColumnsOk(
    accounts: map<AccountKey, Account>, prepared: map<TransferKey, PreparedTransfer>, exact: set<AccountKey>)
  {
    forall k :: k in accounts ==> LockOk(prepared, k, accounts[k], exact)
  }

  /** Every prepared transfer belongs to a live account, and its id is one of those given out. */
  predicate OwnersOk(accounts: map<AccountKey, Account>, prepared: map<TransferKey, PreparedTransfer>) {
    forall t :: t in prepared ==>
      && t.account in accounts && !accounts[t.account].deleted
      && t.id <= accounts[t.account].lastTransferId
      && prepared[t].recipient != t.account.creditor
  }

  ghost predicate LocksOk(s: State, exact: set<AccountKey>) {
    ColumnsOk(s.accounts, s.prepared, exact) && OwnersOk(s.accounts, s.prepared)
  }

  /** Whether the cap on the total of the locks changes what a step stores. */
  predicate CapBites(s: State, e: Event, now: int)
    ensures CapBites(s, e, now) ==> e.EPrepare?
  {
    e.EPrepare? && e.requestKey in s.requests && Accepts(s, e.requestKey, now) &&
    var k, a, r := e.requestKey.account, s.accounts[e.requestKey.account], s.requests[e.requestKey];
    a.totalLocked + LockableAmount(k, a, r, now) > MAX_INT64
  }

  // ---- Steps

  lemma NoTransfers(s: State, k: AccountKey, exact: set<AccountKey>)
    requires OwnersOk(s.accounts, s.prepared)
    requires k !in s.accounts || s.accounts[k].deleted
             || (LockOk(s.prepared, k, s.accounts[k], exact) && s.accounts[k].pendingTransfers == 0)
    ensures TransfersOf(s.prepared, k) == {} && LockTotal(s.prepared, k) == 0.0
  {
    assert TransfersOf(s.prepared, k) == {};
    assert LocksOf(s.prepared, k).Keys == {};
    assert LocksOf(s.prepared, k) == map[];
  }

  lemma OwnTransfers(prepared: map<TransferKey, PreparedTransfer>, k: AccountKey)
    ensures TransfersOf(prepared, k) == {} <==> forall t :: t in prepared ==> t.account != k
  {
    if TransfersOf(prepared, k) == {} {
      forall t | t in prepared ensures t.account != k {
        assert t !in TransfersOf(prepared, k);
      }
    }
  }

  /** Writing one row keeps the lock columns of all. */
  lemma RowLocks(
    accounts: map<AccountKey, Account>, prepared: map<TransferKey, PreparedTransfer>, k: AccountKey, a: Account,
    exact: set<AccountKey>)
    requires ColumnsOk(accounts, prepared, exact) && OwnersOk(accounts, prepared)
    requires LockOk(prepared, k, a, exact)
    requires a.deleted ==> TransfersOf(prepared, k) == {}
    requires k in accounts ==> accounts[k].lastTransferId <= a.lastTransferId
    ensures ColumnsOk(accounts[k := a], prepared, exact) && OwnersOk(accounts[k := a], prepared)
  {
    hide LockOk, TransfersOf;
    OwnTransfers(prepared, k);
  }

  lemma AccountLocks(c: Settings, s: State, s': State, k: AccountKey, exact: set<AccountKey>)
    requires LocksOk(s, exact) && RowsOk(c, s) && AccountStep(s, s', k)
    ensures LocksOk(s', exact)
  {
    if k in s.accounts && s.accounts[k].deleted {
      DeletedIsEmpty(c, s, k);
    }
    hide RowsOk;
    AccountStepTables(s, s', k);
    hide AccountStep;
    if s'.accounts != s.accounts {
      var a, a' := RowOf(s, k), s'.accounts[k];
      if k !in s.accounts || a.pendingTransfers == 0 {
        NoTransfers(s, k, exact);
      }
      RowLocks(s.accounts, s.prepared, k, a', exact);
    }
    hide ColumnsOk, OwnersOk;
  }

  lemma FreshId(s: State, k: AccountKey, id: int)
    requires OwnersOk(s.accounts, s.prepared)
    requires k in s.accounts && s.accounts[k].lastTransferId < id
    ensures TransferKey(k, id) !in s.prepared
  {
  }

  lemma WithLockSum(a: Account, amount: int)
    requires 0 <= amount
    ensures var b := WithLock(a, amount);
            && b.totalLocked <= a.totalLocked + amount
            && (a.totalLocked + amount <= MAX_INT64 ==> b.totalLocked == a.totalLocked + amount)
            && b.pendingTransfers == a.pendingTransfers + 1 && b.lastTransferId == a.lastTransferId + 1
            && b.deleted == a.deleted
  {
  }

  lemma PrepareLocks(c: Settings, s: State, rk: RequestKey, commitPeriod: int, exact: set<AccountKey>)
    requires LocksOk(s, exact) && rk in s.requests
    requires rk.account in exact ==> !CapBites(s, EPrepare(rk, commitPeriod), s.now)
    ensures LocksOk(PrepareTransfer(c, s, rk, commitPeriod, s.now), exact)
  {
    hide LockableAmount, ColumnsOk, OwnersOk, WithLock, PrepareTransfer, Accepts;
    PrepareKeeps(c, s, rk, commitPeriod);
    PrepareWrites(c, s, rk, commitPeriod);
    var k, r := rk.account, s.requests[rk];
    if Accepts(s, rk, s.now) {
      var a := s.accounts[k];
      var amount := LockableAmount(k, a, r, s.now);
      var t, pt := TransferKey(k, a.lastTransferId + 1), NewTransfer(c, r, amount, commitPeriod, s.now);
      FreshId(s, k, a.lastTransferId + 1);
      LockIsNatural(k, a, r, s.now);
      AcceptedRecipient(s, rk, s.now);
      WithLockSum(a, amount);
      InsertedLocks(s.accounts, s.prepared, t, pt, WithLock(a, amount), exact);
    }
  }

  lemma LockIsNatural(k: AccountKey, a: Account, r: TransferRequest, now: int)
    ensures 0 <= LockableAmount(k, a, r, now)
  {
    hide AvailableAmount;
  }

  lemma AcceptedRecipient(s: State, rk: RequestKey, now: int)
    requires rk in s.requests && Accepts(s, rk, now)
    ensures s.requests[rk].recipient != rk.account.creditor
  {
    hide LockableAmount;
  }

  lemma InsertedLocks(
    accounts: map<AccountKey, Account>, prepared: map<TransferKey, PreparedTransfer>,
    t: TransferKey, pt: PreparedTransfer, a: Account, exact: set<AccountKey>)
    requires ColumnsOk(accounts, prepared, exact) && OwnersOk(accounts, prepared) && t !in prepared
    requires t.account in accounts && !accounts[t.account].deleted && !a.deleted
    requires t.id <= a.lastTransferId && accounts[t.account].lastTransferId <= a.lastTransferId
    requires pt.recipient != t.account.creditor && 0 <= pt.locked
    requires a.pendingTransfers == accounts[t.account].pendingTransfers + 1
    requires a.totalLocked <= accounts[t.account].totalLocked + pt.locked
    requires t.account in exact ==> a.totalLocked == accounts[t.account].totalLocked + pt.locked
    ensures ColumnsOk(accounts[t.account := a], prepared[t := pt], exact)
    ensures OwnersOk(accounts[t.account := a], prepared[t := pt])
  {
    hide TransfersOf, LockTotal;
    var after := accounts[t.account := a];
    forall k | k in after
      ensures LockOk(prepared[t := pt], k, after[k], exact)
    {
      LocksInsert(prepared, t, pt, k);
    }
  }

  lemma RemovedLocks(
    accounts: map<AccountKey, Account>, prepared: map<TransferKey, PreparedTransfer>,
    t: TransferKey, a: Account, exact: set<AccountKey>)
    requires ColumnsOk(accounts, prepared, exact) && OwnersOk(accounts, prepared) && t in prepared && !a.deleted
    requires accounts[t.account].lastTransferId <= a.lastTransferId
    requires a.pendingTransfers == accounts[t.account].pendingTransfers - 1
    requires a.totalLocked == Max(0, accounts[t.account].totalLocked - prepared[t].locked)
    requires 0.0 <= LockTotal(prepared - {t}, t.account)
    ensures ColumnsOk(accounts[t.account := a], prepared - {t}, exact)
    ensures OwnersOk(accounts[t.account := a], prepared - {t})
  {
    hide TransfersOf, LockTotal;
    var after := accounts[t.account := a];
    forall k | k in after
      ensures LockOk(prepared - {t}, k, after[k], exact)
    {
      LocksRemove(prepared, t, k);
    }
  }

  lemma OneTransfer(prepared: map<TransferKey, PreparedTransfer>, t: TransferKey)
    requires t in prepared
    ensures |TransfersOf(prepared, t.account)| >= 1
  {
    assert t in TransfersOf(prepared, t.account);
  }

  lemma FinalizeOneLocks(
    c: Settings, f: Finalizing, k: AccountKey, t: TransferKey, opening: int, exact: set<AccountKey>)
    requires LocksOk(f.state, exact) && RowsOk(c, f.state)
    requires k in f.state.accounts && !f.state.accounts[k].deleted && t.account == k
    ensures LocksOk(FinalizeOne(f, k, t, opening, f.state.now).state, exact)
  {
    hide TransfersOf, LockTotal, CommittedAmount, FinalizeOne, ColumnsOk, OwnersOk, RowsOk, Released;
    FinalizeOneFrame(f, k, t, opening, f.state.now);
    var s := f.state;
    if Matches(s, t) {
      var pt, committed := s.prepared[t], CommittedAmount(f, k, t, opening, s.now);
      LockCount(s, k, exact);
      OneTransfer(s.prepared, t);
      ReleasedColumns(k, s.accounts[k], pt, committed, s.now);
      WithoutOne(c, s, t);
      LockTotalNonNegative(c, s.prepared - {t}, k, s.now);
      RemovedLocks(s.accounts, s.prepared, t, Released(k, s.accounts[k], pt, committed, s.now), exact);
    }
  }

  lemma LockCount(s: State, k: AccountKey, exact: set<AccountKey>)
    requires LocksOk(s, exact) && k in s.accounts
    ensures s.accounts[k].pendingTransfers == |TransfersOf(s.prepared, k)|
  {
    hide OwnersOk;
  }

  lemma ReleasedColumns(k: AccountKey, a: Account, pt: PreparedTransfer, committed: int, now: int)
    requires 1 <= a.pendingTransfers
    ensures var b := Released(k, a, pt, committed, now);
            && b.totalLocked == Max(0, a.totalLocked - pt.locked) && b.pendingTransfers == a.pendingTransfers - 1
            && b.lastTransferId == a.lastTransferId && b.deleted == a.deleted
  {
  }

  lemma WithoutOne(c: Settings, s: State, t: TransferKey)
    requires RowsOk(c, s) && t in s.prepared
    ensures TransfersOk(c, s.prepared - {t}, s.now)
  {
  }

  lemma {:induction false} FinalizeAllLocks(
    c: Settings, s: State, k: AccountKey, batch: seq<TransferKey>, opening: int, exact: set<AccountKey>)
    requires LocksOk(s, exact) && RowsOk(c, s)
    requires k in s.accounts && !s.accounts[k].deleted && forall t <- batch :: t.account == k
    ensures LocksOk(FinalizeAll(s, k, batch, opening, s.now).state, exact)
  {
    if batch != [] {
      var front := batch[..|batch| - 1];
      FinalizeAllLocks(c, s, k, front, opening, exact);
      FinalizeRows(c, s, k, front, opening);
      FinalizeOneLocks(c, FinalizeAll(s, k, front, opening, s.now), k, batch[|batch| - 1], opening, exact);
    }
    hide LocksOk, RowsOk, FinalizeOne;
  }

  lemma FoldedColumns(k: AccountKey, a: Account, principalDelta: int, interestDelta: real, now: int)
    ensures var b := ApplyChange(k, a, principalDelta, interestDelta, now);
            && b.totalLocked == a.totalLocked && b.pendingTransfers == a.pendingTransfers
            && b.lastTransferId == a.lastTransferId && b.deleted == a.deleted
  {
    hide AccumulatedInterest;
  }

  lemma FinalizeLocks(c: Settings, s: State, k: AccountKey, batch: seq<TransferKey>, exact: set<AccountKey>)
    requires LocksOk(s, exact) && RowsOk(c, s) && Enabled(s, EFinalize(k, batch))
    ensures LocksOk(FinalizeTransfers(s, k, batch, s.now), exact)
  {
    if Live(s, k).Some? {
      var opening := Balance(k, s.accounts[k], s.now).Floor;
      var f := FinalizeAll(s, k, batch, opening, s.now);
      FinalizeAllLocks(c, s, k, batch, opening, exact);
      FinalizeRows(c, s, k, batch, opening);
      FoldedColumns(k, f.state.accounts[k], f.delta, 0.0, s.now);
      RowLocks(f.state.accounts, f.state.prepared, k,
               ApplyChange(k, f.state.accounts[k], f.delta, 0.0, s.now), exact);
    }
    hide ColumnsOk, OwnersOk, RowsOk, FinalizeAll, ApplyChange, Balance, LockTotal, TransfersOf;
  }

  /** Crediting an account leaves its lock columns, and all prepared transfers, alone. */
  lemma {:induction false} ApplyAllLocks(s: State, k: AccountKey, batch: seq<ChangeKey>)
    requires k in s.accounts
    ensures var s' := ApplyAll(s, k, batch, s.now).state;
            && s'.prepared == s.prepared && s'.now == s.now
            && s'.accounts == s.accounts[k := s'.accounts[k]]
            && s'.accounts[k].totalLocked == s.accounts[k].totalLocked
            && s'.accounts[k].pendingTransfers == s.accounts[k].pendingTransfers
            && s'.accounts[k].lastTransferId == s.accounts[k].lastTransferId
            && s'.accounts[k].deleted == s.accounts[k].deleted
  {
    hide DueInterest, TransferSignals, Contain;
    if batch != [] {
      ApplyAllLocks(s, k, batch[..|batch| - 1]);
    }
  }

  lemma LockOkKept(s: State, k: AccountKey, a: Account, exact: set<AccountKey>)
    requires LocksOk(s, exact) && k in s.accounts
    requires a.totalLocked == s.accounts[k].totalLocked && a.pendingTransfers == s.accounts[k].pendingTransfers
    ensures LockOk(s.prepared, k, a, exact)
  {
    hide OwnersOk;
  }

  lemma ApplyLocks(c: Settings, s: State, k: AccountKey, batch: seq<ChangeKey>, exact: set<AccountKey>)
    requires LocksOk(s, exact) && RowsOk(c, s)
    ensures LocksOk(ApplyChanges(s, k, batch, s.now), exact)
  {
    hide ColumnsOk, OwnersOk, LockOrCreate, ApplyAll, AccountStep, RowsOk, ApplyChange, TransfersOf, LockTotal;
    if batch != [] {
      var s1 := LockOrCreate(s, k, s.now);
      LockOrCreateFrame(s, k);
      AccountLocks(c, s, s1, k, exact);
      AccountStepTables(s, s1, k);
      ApplyAllLocks(s1, k, batch);
      var b := ApplyAll(s1, k, batch, s.now);
      var a := ApplyChange(k, b.state.accounts[k], b.principalDelta, b.interestDelta, s.now);
      FoldedColumns(k, b.state.accounts[k], b.principalDelta, b.interestDelta, s.now);
      LockOkKept(s1, k, a, exact);
      RowLocks(s1.accounts, s.prepared, k, a, exact);
      assert s1.accounts[k := a] == b.state.accounts[k := a];
    }
  }

  lemma CascadeNothing(accounts: map<AccountKey, Account>, prepared: map<TransferKey, PreparedTransfer>, k: AccountKey)
    requires OwnersOk(accounts, prepared) && k in accounts && accounts[k].deleted
    ensures (map t | t in prepared && t.account != k :: prepared[t]) == prepared
  {
  }

  lemma RemovedRow(
    accounts: map<AccountKey, Account>, prepared: map<TransferKey, PreparedTransfer>, k: AccountKey, exact: set<AccountKey>)
    requires ColumnsOk(accounts, prepared, exact) && OwnersOk(accounts, prepared)
    requires k in accounts && accounts[k].deleted
    ensures ColumnsOk(accounts - {k}, prepared, exact) && OwnersOk(accounts - {k}, prepared)
  {
    hide LockOk;
  }

  /** Purging cascades to no prepared transfer: a deleted account has none. */
  lemma PurgeLocks(c: Settings, s: State, k: AccountKey, exact: set<AccountKey>)
    requires LocksOk(s, exact)
    ensures PurgeAccount(c, s, k, s.now).prepared == s.prepared
    ensures LocksOk(PurgeAccount(c, s, k, s.now), exact)
  {
    hide ColumnsOk, OwnersOk;
    if k in s.accounts && CanBePurged(c, s.accounts[k], s.now) {
      CascadeNothing(s.accounts, s.prepared, k);
      RemovedRow(s.accounts, s.prepared, k, exact);
    }
  }

  lemma LocksLater(s: State, e: Event, now: int, exact: set<AccountKey>)
    ensures LocksOk(s.(now := now), exact) == LocksOk(s, exact)
    ensures CapBites(s.(now := now), e, now) == CapBites(s, e, now)
  {
    hide ColumnsOk, OwnersOk, RejectionCode, LockableAmount;
  }

  lemma SameLocks(s: State, s': State, exact: set<AccountKey>)
    requires LocksOk(s, exact) && QueueStep(s, s')
    ensures LocksOk(s', exact)
  {
    hide ColumnsOk, OwnersOk;
  }

  /** Every step keeps the lock columns; they stay exact unless the cap bites. */
  lemma LocksStep(c: Settings, s: State, e: Event, now: int, exact: set<AccountKey>)
    requires c.Valid() && RowsOk(c, s) && LocksOk(s, exact) && s.now <= now && Enabled(s, e)
    requires CapBites(s, e, now) ==> e.requestKey.account !in exact
    ensures LocksOk(Step(c, s, e, now), exact)
  {
    hide *;
    var s0 := s.(now := now);
    RowsLater(c, s, now);
    LocksLater(s, e, now, exact);
    EnabledLater(s, e, now);
    StepCases(c, s, e, now);
    EventKinds(e);
    if IsAccountEvent(e) {
      AccountEventFrame(c, s, e, now);
      AccountLocks(c, s0, Step(c, s, e, now), KeyOf(e), exact);
    } else if IsQueueEvent(e) {
      QueueFrame(c, s, e, now);
      SameLocks(s0, Step(c, s, e, now), exact);
    } else {
      match e
      case EPrepare(rk, commitPeriod) => PrepareLocks(c, s0, rk, commitPeriod, exact);
      case EFinalize(k, batch) => FinalizeLocks(c, s0, k, batch, exact);
      case EApply(k, batch) => ApplyLocks(c, s0, k, batch, exact);
      case EPurge(k) => PurgeLocks(c, s0, k, exact);
    }
  }
}
