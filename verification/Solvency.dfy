/** Solvency: at every moment the balance of an account covers what its prepared transfers still
    reserve, under the worst demurrage.  So no mix of commits makes a balance negative. */
module Solvency {
  import opened Growth
  import opened Totals
  import opened Models
  import opened Steps
  import opened Frames
  import opened Rows
  import opened Locks
  import opened Changes
  import opened Accrual

  function ReservedOf(prepared: map<TransferKey, PreparedTransfer>, k: AccountKey, now: int): map<TransferKey, real> {
    map t | t in prepared && t.account == k :: Reserved(prepared[t], now)
  }

  ghost function ReservedTotal(prepared: map<TransferKey, PreparedTransfer>, k: AccountKey, now: int): real {
    Sum(ReservedOf(prepared, k, now))
  }

  /** The account, if it exists, can pay everything that is reserved on it. */
  ghost predicate Solvent(s: State, k: AccountKey, now: int) {
    k in s.accounts ==> ReservedTotal(s.prepared, k, now) <= Balance(k, s.accounts[k], now)
  }

  // ---- Reservations

  lemma ReservedBounds(c: Settings, prepared: map<TransferKey, PreparedTransfer>, k: AccountKey, now: int)
    requires c.Valid() && TransfersOk(c, prepared, now)
    ensures 0.0 <= ReservedTotal(prepared, k, now) <= LockTotal(prepared, k)
  {
    var m, n := ReservedOf(prepared, k, now), LocksOf(prepared, k);
    forall t | t in m
      ensures 0.0 <= m[t] <= n[t]
    {
      ReservedAtMostLocked(prepared[t], now);
    }
    SumNonNegative(m);
    SumAtMost(m, n);
  }

  lemma ReservedInsert(
    prepared: map<TransferKey, PreparedTransfer>, t: TransferKey, pt: PreparedTransfer, k: AccountKey, now: int)
    requires t !in prepared
    ensures ReservedTotal(prepared[t := pt], k, now)
            == ReservedTotal(prepared, k, now) + if t.account == k then Reserved(pt, now) else 0.0
  {
    var m := ReservedOf(prepared, k, now);
    if t.account == k {
      assert ReservedOf(prepared[t := pt], k, now) == m[t := Reserved(pt, now)];
      SumInsert(m, t, Reserved(pt, now));
    } else {
      assert ReservedOf(prepared[t := pt], k, now) == m;
    }
  }

  lemma ReservedRemove(prepared: map<TransferKey, PreparedTransfer>, t: TransferKey, k: AccountKey, now: int)
    requires t in prepared
    ensures ReservedTotal(prepared - {t}, k, now)
            == ReservedTotal(prepared, k, now) - if t.account == k then Reserved(prepared[t], now) else 0.0
  {
    var m := ReservedOf(prepared, k, now);
    if t.account == k {
      assert ReservedOf(prepared - {t}, k, now) == m - {t};
      SumWithout(m, t);
    } else {
      assert ReservedOf(prepared - {t}, k, now) == m;
    }
  }

  lemma NothingReserved(prepared: map<TransferKey, PreparedTransfer>, k: AccountKey, now: int)
    requires TransfersOf(prepared, k) == {}
    ensures ReservedTotal(prepared, k, now) == 0.0
  {
    OwnTransfers(prepared, k);
    assert ReservedOf(prepared, k, now).Keys == {};
    assert ReservedOf(prepared, k, now) == map[];
  }

  // ---- The passing of time

  /** Reservations shrink as the floor rate says. */
  lemma ReservedLater(c: Settings, prepared: map<TransferKey, PreparedTransfer>, k: AccountKey, now: int, later: int)
    requires c.Valid() && TransfersOk(c, prepared, now) && now <= later
    ensures Scaled(Pow(c.floor, later - now), ReservedTotal(prepared, k, now), ReservedTotal(prepared, k, later))
  {
    hide Scaled, Reserved, Pow;
    var m, n, ratio := ReservedOf(prepared, k, now), ReservedOf(prepared, k, later), Pow(c.floor, later - now);
    forall t | t in m
      ensures Scaled(ratio, m[t], n[t])
    {
      OneReservedLater(prepared[t], now, later);
    }
    SumScaled(m, n, ratio);
  }

  lemma OneReservedLater(pt: PreparedTransfer, now: int, later: int)
    requires pt.preparedAt <= now <= later
    ensures Scaled(Pow(pt.demurrage, later - now), Reserved(pt, now), Reserved(pt, later))
  {
    PowAdd(pt.demurrage, later - now, now - pt.preparedAt);
    Reassociate(pt.locked as real, Pow(pt.demurrage, later - now), Pow(pt.demurrage, now - pt.preparedAt));
  }

  lemma Reassociate(a: real, b: real, c: real)
    ensures a * (b * c) == b * (a * c)
  {
  }

  lemma GrowMore(start: real, g: real, q: real, d: real, balance: real, later: real)
    requires balance == start * g && later == start * (g * q) && d <= q && 0.0 <= balance
    ensures d * balance <= later
  {
    assert start * (g * q) == (start * g) * q;
    MulMonotone(d, q, balance);
  }

  /** A balance that is not negative shrinks at most as the floor rate says. */
  lemma BalanceLater(c: Settings, k: AccountKey, a: Account, now: int, later: int)
    requires c.Valid() && k.creditor != ROOT_CREDITOR_ID && c.floor <= a.rate && a.lastChangeTs <= now <= later
    requires 0.0 <= Balance(k, a, now)
    ensures Pow(c.floor, later - now) * Balance(k, a, now) <= Balance(k, a, later)
  {
    hide Pow;
    var start := a.principal as real + a.interest;
    if start > 0.0 {
      PowAdd(a.rate, now - a.lastChangeTs, later - now);
      PowMonotone(c.floor, a.rate, later - now);
      GrowMore(start, Pow(a.rate, now - a.lastChangeTs), Pow(a.rate, later - now), Pow(c.floor, later - now),
               Balance(k, a, now), Balance(k, a, later));
    } else {
      assert Balance(k, a, now) == start == 0.0 == Balance(k, a, later);
    }
  }

  /** A solvent account stays solvent while nothing happens to it. */
  lemma SolventLater(c: Settings, s: State, k: AccountKey, now: int)
    requires c.Valid() && RowsOk(c, s) && s.now <= now && k.creditor != ROOT_CREDITOR_ID
    requires Solvent(s, k, s.now)
    ensures Solvent(s, k, now)
  {
    hide ReservedTotal, Balance;
    if k in s.accounts {
      var ratio := Pow(c.floor, now - s.now);
      ReservedBounds(c, s.prepared, k, s.now);
      ReservedLater(c, s.prepared, k, s.now, now);
      BalanceLater(c, k, s.accounts[k], s.now, now);
      PowPositive(c.floor, now - s.now);
      MulMonotone(ReservedTotal(s.prepared, k, s.now), Balance(k, s.accounts[k], s.now), ratio);
    }
  }

  // ---- Changing the row

  /** Whether `update_debtor_info`, which moves the time of the last change without folding the
      interest, takes nothing from the balance. */
  predicate KeepsAccrual(a: Account, now: int) {
    a.rate <= 1.0 || now <= a.lastChangeTs || a.principal as real + a.interest <= 0.0
  }

  lemma Shrunk(start: real, growth: real)
    requires 0.0 < start && growth <= 1.0
    ensures start * growth <= start
  {
    MulMonotone(growth, 1.0, start);
  }

  lemma DebtorInfoBalance(c: Settings, k: AccountKey, a: Account, info: Option<string>, now: int)
    requires c.Valid() && RowOk(c, k, a, now) && KeepsAccrual(a, now)
    ensures Balance(k, a, now) <= Balance(k, Bumped(a, now).(debtorInfo := info), now)
  {
    hide Pow, HasNoInterest, IsEmpty;
    var b := Bumped(a, now).(debtorInfo := info);
    var start, passed := a.principal as real + a.interest, Elapsed(a.lastChangeTs, now);
    if k.creditor == ROOT_CREDITOR_ID {
      RootBalance(k, a, b, now);
    } else {
      NoTime(start, a.rate);
      assert Elapsed(b.lastChangeTs, now) == 0;
      if start > 0.0 && 0 < passed {
        PowAtMostOne(a.rate, passed);
        Shrunk(start, Pow(a.rate, passed));
        assert Balance(k, a, now) == start * Pow(a.rate, passed);
        assert Balance(k, b, now) == start * Pow(b.rate, 0) == start;
      }
    }
  }

  /** The principal of the account has never been clipped. */
  predicate Unclipped(s: State, k: AccountKey) {
    k in s.accounts ==> !s.accounts[k].overflown
  }

  /** What a run must avoid for one account: a clipped principal, a balance that does not fit, a
      payment taken from the account, and an update of the debtor's info that drops interest. */
  predicate Gentle(s: State, e: Event, now: int, s': State, k: AccountKey) {
    && Unclipped(s', k)
    && (k in s.accounts ==> Balance(k, s.accounts[k], now) <= MAX_INT64 as real)
    && (e.EPay? && e.key == k && e.coordinatorType != CT_INTEREST ==> 0 <= e.amount)
    && (e.EUpdateDebtorInfo? && e.key == k && k in s.accounts ==> KeepsAccrual(s.accounts[k], now))
  }

  /** A row is written so that the balance does not decrease; or the account is emptied, which is
      done only when nothing is prepared. */
  predicate RowNotWorse(k: AccountKey, a: Account, b: Account, now: int) {
    || Balance(k, a, now) <= Balance(k, b, now)
    || (a.pendingTransfers == 0 && 0.0 <= Balance(k, b, now))
  }

  predicate NotWorse(s: State, s': State, k: AccountKey) {
    && s'.prepared == s.prepared && s'.now == s.now
    && (k in s'.accounts ==> RowNotWorse(k, RowOf(s, k), s'.accounts[k], s.now))
  }

  lemma StaysNotWorse(s: State, k: AccountKey)
    ensures NotWorse(s, s, k)
    ensures forall rejected :: NotWorse(s, s.(rejectedConfigs := rejected), k)
  {
    hide Balance;
  }

  lemma SetNotWorse(s: State, k: AccountKey, b: Account)
    requires RowNotWorse(k, RowOf(s, k), b, s.now)
    ensures NotWorse(s, SetAccount(s, k, b), k) && NotWorse(s, SendUpdate(s, k, b, s.now), k)
  {
    hide Balance, UpdateOf;
    SameBalance(k, b, Announced(b, s.now), s.now);
  }

  lemma NotWorseSolvent(s: State, s': State, k: AccountKey)
    requires LocksOk(s, {k}) && NotWorse(s, s', k) && Solvent(s, k, s.now)
    ensures Solvent(s', k, s.now)
  {
    hide ColumnsOk, OwnersOk, Balance, ReservedTotal;
    if k in s'.accounts && (k !in s.accounts || RowOf(s, k).pendingTransfers == 0) {
      LockOkOf(s, k);
      NoTransfers(s, k, {k});
      NothingReserved(s.prepared, k, s.now);
      NewBalance(k, s.now);
    }
  }

  lemma LockOkOf(s: State, k: AccountKey)
    requires LocksOk(s, {k})
    ensures k in s.accounts ==> LockOk(s.prepared, k, s.accounts[k], {k})
  {
    hide LockOk;
  }

  lemma NewBalance(k: AccountKey, now: int)
    ensures Balance(k, NewAccount(now), now) == 0.0
  {
  }

  lemma OtherAccountSolvent(s: State, s': State, other: AccountKey, k: AccountKey)
    requires AccountStep(s, s', other) && other != k && Solvent(s, k, s.now)
    ensures Solvent(s', k, s.now)
  {
    hide AccountStep, ReservedTotal, Balance;
    AccountStepTables(s, s', other);
  }

  // ---- The procedures on one account

  lemma ConfiguredBalance(k: AccountKey, a: Account, m: Configuration, now: int)
    requires k.creditor != ROOT_CREDITOR_ID && a.lastChangeTs <= now && !Configured(k, a, m, now).overflown
    ensures RowNotWorse(k, a, Configured(k, a, m, now), now)
  {
    hide Balance, AccumulatedInterest;
    var a1 := a.(deleted := false, configFlags := m.flags, configData := m.data,
                 negligible := m.negligible, configTs := m.ts, configSeqnum := m.seqnum);
    SameBalance(k, a, a1, now);
    FoldedBalance(k, a1, 0, 0.0, now);
  }

  lemma ConfigureBalance(c: Settings, s: State, k: AccountKey, m: Configuration)
    requires RowsOk(c, s) && k.creditor != ROOT_CREDITOR_ID
    requires Unclipped(ConfigureAccount(c, s, k, m, s.now), k)
    ensures NotWorse(s, ConfigureAccount(c, s, k, m, s.now), k)
  {
    hide RowsOk, RowOk, NotWorse, RowNotWorse, ConfigureAccount, Configured, RowOf, SendUpdate, SetAccount;
    LastChange(c, s, k);
    ConfigureOutcomes(c, s, k, m);
    StaysNotWorse(s, k);
    var b := Configured(k, RowOf(s, k), m, s.now);
    if !b.overflown {
      ConfiguredBalance(k, RowOf(s, k), m, s.now);
      SetNotWorse(s, k, b);
    }
  }

  lemma LastChange(c: Settings, s: State, k: AccountKey)
    requires RowsOk(c, s)
    ensures RowOf(s, k).lastChangeTs <= s.now
    ensures k in s.accounts ==> RowOk(c, k, s.accounts[k], s.now)
  {
  }

  lemma ChangeRateBalance(c: Settings, s: State, k: AccountKey, rate: real, ts: int)
    requires RowsOk(c, s) && k.creditor != ROOT_CREDITOR_ID
    ensures NotWorse(s, ChangeRate(c, s, k, rate, ts, s.now), k)
  {
    hide RowsOk, RowOk, Balance, RateChanged;
    LastChange(c, s, k);
    var b := RateChanged(k, RowOf(s, k), Clamp(c, rate), s.now);
    RateChangedBalance(k, RowOf(s, k), Clamp(c, rate), s.now);
    SameBalance(k, b, Announced(b, s.now), s.now);
  }

  lemma DebtorInfoNotWorse(c: Settings, s: State, k: AccountKey, info: Option<string>, ts: int)
    requires c.Valid() && RowsOk(c, s) && (k in s.accounts ==> KeepsAccrual(s.accounts[k], s.now))
    ensures NotWorse(s, UpdateDebtorInfo(s, k, info, ts, s.now), k)
  {
    hide RowsOk, RowOk, Balance, KeepsAccrual;
    LastChange(c, s, k);
    if k in s.accounts {
      var b := Bumped(s.accounts[k], s.now).(debtorInfo := info);
      DebtorInfoBalance(c, k, s.accounts[k], info, s.now);
      SameBalance(k, b, Announced(b, s.now), s.now);
    }
  }

  lemma HeartbeatBalance(c: Settings, s: State, k: AccountKey)
    ensures NotWorse(s, SendHeartbeat(c, s, k, s.now), k)
  {
    hide Balance;
    SameBalance(k, RowOf(s, k), Announced(RowOf(s, k), s.now), s.now);
  }

  /** A payment to an account adds its amount to the balance; interest has been there already. */
  lemma PaidBalance(s: State, k: AccountKey, coordinatorType: string, note: string, amount: int)
    requires k in s.accounts && k.creditor != ROOT_CREDITOR_ID && s.accounts[k].lastChangeTs <= s.now
    requires Unclipped(Pay(s, k, coordinatorType, note, amount, s.now), k)
    ensures var s' := Pay(s, k, coordinatorType, note, amount, s.now);
            && s'.prepared == s.prepared && s'.now == s.now
            && Balance(k, s'.accounts[k], s.now)
               == Balance(k, s.accounts[k], s.now) + if coordinatorType == CT_INTEREST then 0.0 else amount as real
  {
    hide Balance, AccumulatedInterest, TransferSignals;
    if amount != 0 {
      var a, interestDelta := s.accounts[k], if coordinatorType == CT_INTEREST then -(amount as real) else 0.0;
      SameBalance(k, a, Numbered(k, a, amount, s.now), s.now);
      FoldedBalance(k, Numbered(k, a, amount, s.now), amount, interestDelta, s.now);
    }
  }

  lemma CapitalizeBalance(c: Settings, s: State, k: AccountKey, minInterval: int)
    requires RowsOk(c, s) && k.creditor != ROOT_CREDITOR_ID
    requires Unclipped(Capitalize(s, k, minInterval, s.now), k)
    ensures NotWorse(s, Capitalize(s, k, minInterval, s.now), k)
  {
    hide RowsOk, RowOk, Balance, AccumulatedInterest, Pay;
    LastChange(c, s, k);
    if Live(s, k).Some? {
      var a, amount := s.accounts[k], Contain(AccumulatedInterest(k, s.accounts[k], s.now).Floor);
      if a.capitalizationTs <= s.now - minInterval && amount != 0 {
        SameBalance(k, a, a.(capitalizationTs := s.now), s.now);
        PaidBalance(SetAccount(s, k, a.(capitalizationTs := s.now)), k, CT_INTEREST, "", amount);
      }
    }
  }

  lemma ResurrectedBalance(k: AccountKey, a: Account, now: int)
    requires IsEmpty(a)
    ensures Balance(k, Announced(Bumped(a, now).(deleted := false), now), now) == Balance(k, a, now)
  {
    hide Pow;
  }

  lemma LockBalance(c: Settings, s: State, k: AccountKey)
    requires RowsOk(c, s)
    ensures var s' := LockOrCreate(s, k, s.now);
            && Balance(k, s'.accounts[k], s.now) == Balance(k, RowOf(s, k), s.now)
            && s'.accounts[k].lastChangeTs <= s.now
            && RowOf(s, k).pendingTransfers == s'.accounts[k].pendingTransfers
  {
    hide RowsOk, RowOk, Balance, IsEmpty, SendUpdate, NewAccount;
    LastChange(c, s, k);
    if k !in s.accounts {
      SameBalance(k, NewAccount(s.now), Announced(NewAccount(s.now), s.now), s.now);
    } else if s.accounts[k].deleted {
      DeletedIsEmpty(c, s, k);
      ResurrectedBalance(k, s.accounts[k], s.now);
    }
  }

  lemma PaymentBalance(c: Settings, s: State, k: AccountKey, coordinatorType: string, note: string, amount: int)
    requires c.Valid() && RowsOk(c, s) && k.creditor != ROOT_CREDITOR_ID
    requires coordinatorType != CT_INTEREST ==> 0 <= amount
    requires Unclipped(MakeDebtorPayment(s, k, coordinatorType, note, amount, s.now), k)
    ensures NotWorse(s, MakeDebtorPayment(s, k, coordinatorType, note, amount, s.now), k)
  {
    hide RowsOk, Balance, Pay, LockOrCreate;
    LockBalance(c, s, k);
    PaidBalance(LockOrCreate(s, k, s.now), k, coordinatorType, note, amount);
  }

  lemma DeletedNotWorse(s: State, s': State, k: AccountKey, a: Account)
    requires s'.prepared == s.prepared && s'.now == s.now && RowOf(s, k).pendingTransfers == 0
    ensures NotWorse(s, SendUpdate(s', k, Deleted(a, s.now), s.now), k)
  {
    hide Balance, UpdateOf;
    EmptyBalance(k, Announced(Deleted(a, s.now), s.now), s.now);
  }

  lemma TryToDeleteBalance(s: State, k: AccountKey)
    requires k.creditor != ROOT_CREDITOR_ID
    ensures NotWorse(s, TryToDelete(s, k, s.now), k)
  {
    hide Pay, IsNegligibleBalance, Balance, SendUpdate, Deleted, NotWorse;
    StaysNotWorse(s, k);
    if Live(s, k).Some? {
      var a := s.accounts[k].(deletionAttemptTs := s.now);
      SameBalance(k, s.accounts[k], a, s.now);
      SetNotWorse(s, k, a);
      if CanBeDeleted(k, s.accounts[k], s.now) {
        var s2 := Pay(SetAccount(s, k, a), k, CT_DELETE, "", -a.principal, s.now);
        DeletedNotWorse(s, s2, k, s2.accounts[k]);
      }
    }
  }

  lemma AccountSolvent(c: Settings, s: State, e: Event, now: int, k: AccountKey)
    requires c.Valid() && RowsOk(c, s) && s.now == now && Enabled(s, e) && IsAccountEvent(e) && KeyOf(e) == k
    requires k.creditor != ROOT_CREDITOR_ID && Gentle(s, e, now, Step(c, s, e, now), k)
    ensures NotWorse(s, Step(c, s, e, now), k)
  {
    GentleEvent(s, e, now, Step(c, s, e, now), k);
    hide *;
    assert s.(now := now) == s;
    StepCases(c, s, e, now);
    match e {
      case EConfigure(_, m) => ConfigureBalance(c, s, k, m);
      case EChangeRate(_, rate, ts) => ChangeRateBalance(c, s, k, rate, ts);
      case EUpdateDebtorInfo(_, info, ts) => DebtorInfoNotWorse(c, s, k, info, ts);
      case ECapitalize(_, minInterval) => CapitalizeBalance(c, s, k, minInterval);
      case ETryToDelete(_) => TryToDeleteBalance(s, k);
      case EPay(_, coordinatorType, note, amount) =>
        PaymentBalance(c, s, k, coordinatorType, note, amount);
      case EHeartbeat(_) => HeartbeatBalance(c, s, k);
      case _ =>
    }
  }

  lemma GentleEvent(s: State, e: Event, now: int, s': State, k: AccountKey)
    requires IsAccountEvent(e) && KeyOf(e) == k && Gentle(s, e, now, s', k)
    ensures e.EConfigure? || e.EChangeRate? || e.EUpdateDebtorInfo? || e.ECapitalize? || e.ETryToDelete?
            || e.EPay? || e.EHeartbeat?
    ensures e.key == k && Unclipped(s', k)
    ensures e.EPay? && e.coordinatorType != CT_INTEREST ==> 0 <= e.amount
    ensures e.EUpdateDebtorInfo? && k in s.accounts ==> KeepsAccrual(s.accounts[k], now)
  {
    hide KeepsAccrual, Balance;
  }

  // ---- Preparing

  lemma LockFits(k: AccountKey, a: Account, r: TransferRequest, now: int)
    requires k.creditor != ROOT_CREDITOR_ID && Balance(k, a, now) <= MAX_INT64 as real
    requires 0 <= a.totalLocked
    ensures var amount := LockableAmount(k, a, r, now);
            && 0 <= amount
            && (0 < amount ==> (a.totalLocked + amount) as real <= Balance(k, a, now))
            && (a.totalLocked <= MAX_INT64 ==> a.totalLocked + amount <= MAX_INT64)
  {
    hide Balance;
  }

  lemma FreshReserved(c: Settings, r: TransferRequest, amount: int, commitPeriod: int, now: int)
    ensures Reserved(NewTransfer(c, r, amount, commitPeriod, now), now) == amount as real
  {
    assert Pow(c.floor, 0) == 1.0;
  }

  /** A new lock is covered by what the account has, beyond all its other locks. */
  lemma LockIsCovered(
    c: Settings, s: State, k: AccountKey, r: TransferRequest, commitPeriod: int)
    requires c.Valid() && RowsOk(c, s) && LocksOk(s, {k}) && k in s.accounts && k.creditor != ROOT_CREDITOR_ID
    requires Solvent(s, k, s.now) && Balance(k, s.accounts[k], s.now) <= MAX_INT64 as real
    ensures var a := s.accounts[k];
            var amount := LockableAmount(k, a, r, s.now);
            && ReservedTotal(s.prepared, k, s.now) + Reserved(NewTransfer(c, r, amount, commitPeriod, s.now), s.now)
               <= Balance(k, WithLock(a, amount), s.now)
  {
    hide RowsOk, ColumnsOk, OwnersOk, ReservedTotal, LockTotal, Balance, Reserved, LockableAmount, NewTransfer;
    var a := s.accounts[k];
    var amount := LockableAmount(k, a, r, s.now);
    LastChange(c, s, k);
    LockOkOf(s, k);
    FreshReserved(c, r, amount, commitPeriod, s.now);
    LockFits(k, a, r, s.now);
    SameBalance(k, a, WithLock(a, amount), s.now);
    TransfersOkOf(c, s);
    ReservedBounds(c, s.prepared, k, s.now);
  }

  lemma PrepareSolvent(c: Settings, s: State, rk: RequestKey, commitPeriod: int, k: AccountKey)
    requires c.Valid() && RowsOk(c, s) && LocksOk(s, {k}) && rk in s.requests
    requires k.creditor != ROOT_CREDITOR_ID && Solvent(s, k, s.now)
    requires k in s.accounts ==> Balance(k, s.accounts[k], s.now) <= MAX_INT64 as real
    ensures Solvent(PrepareTransfer(c, s, rk, commitPeriod, s.now), k, s.now)
  {
    hide RowsOk, ColumnsOk, OwnersOk, ReservedTotal, Balance, Reserved, LockableAmount, NewTransfer, PrepareTransfer,
         WithLock, Accepts;
    PrepareKeeps(c, s, rk, commitPeriod);
    PrepareWrites(c, s, rk, commitPeriod);
    var j, r := rk.account, s.requests[rk];
    if Accepts(s, rk, s.now) {
      var a := s.accounts[j];
      var amount := LockableAmount(j, a, r, s.now);
      var t, pt := TransferKey(j, a.lastTransferId + 1), NewTransfer(c, r, amount, commitPeriod, s.now);
      FreshId(s, j, a.lastTransferId + 1);
      ReservedInsert(s.prepared, t, pt, k, s.now);
      if j == k {
        LockIsCovered(c, s, k, r, commitPeriod);
      }
    }
  }

  lemma TransfersOkOf(c: Settings, s: State)
    requires RowsOk(c, s)
    ensures TransfersOk(c, s.prepared, s.now)
  {
  }

  // ---- Finalizing

  /** In the middle of a batch the balance, less what the batch has taken, covers the rest. */
  ghost predicate Covered(f: Finalizing, k: AccountKey, balance: real, now: int) {
    ReservedTotal(f.state.prepared, k, now) <= balance + f.delta as real
  }

  /** A commit is paid from what is not locked for others, or from its own reservation. */
  lemma CommitIsCovered(f: Finalizing, k: AccountKey, t: TransferKey, opening: int, now: int)
    requires k in f.state.accounts && Matches(f.state, t) && k.creditor != ROOT_CREDITOR_ID
    ensures var s := f.state;
            var committed := CommittedAmount(f, k, t, opening, now);
            || committed <= opening + f.delta - s.accounts[k].totalLocked + s.prepared[t].locked
            || committed as real <= Reserved(s.prepared[t], now)
            || committed == 0
  {
    hide Reserved;
  }

  lemma ReservedNonNegative(c: Settings, pt: PreparedTransfer, now: int)
    requires c.Valid() && PreparedOk(c, pt, now)
    ensures 0.0 <= Reserved(pt, now)
  {
    ReservedAtMostLocked(pt, now);
  }

  lemma TransferOkOf(c: Settings, s: State, t: TransferKey)
    requires RowsOk(c, s) && t in s.prepared
    ensures PreparedOk(c, s.prepared[t], s.now)
  {
  }

  lemma FinalizeOneCovered(
    c: Settings, f: Finalizing, k: AccountKey, t: TransferKey, balance: real)
    requires c.Valid() && RowsOk(c, f.state) && LocksOk(f.state, {k})
    requires k in f.state.accounts && t.account == k && k.creditor != ROOT_CREDITOR_ID
    requires Covered(f, k, balance, f.state.now)
    ensures Covered(FinalizeOne(f, k, t, balance.Floor, f.state.now), k, balance, f.state.now)
  {
    hide RowsOk, ColumnsOk, OwnersOk, ReservedTotal, LockTotal, Reserved, FinalStatus, CommittedAmount, Released,
         TransferSignals, TransfersOk, PreparedOk;
    var s, now := f.state, f.state.now;
    if Matches(s, t) {
      var pt := s.prepared[t];
      LockOkOf(s, k);
      CommitIsCovered(f, k, t, balance.Floor, now);
      ReservedRemove(s.prepared, t, k, now);
      LocksRemove(s.prepared, t, k);
      TransferOkOf(c, s, t);
      ReservedNonNegative(c, pt, now);
      WithoutOne(c, s, t);
      ReservedBounds(c, s.prepared - {t}, k, now);
    }
  }

  lemma FinalizeOneRow(f: Finalizing, k: AccountKey, t: TransferKey, opening: int, now: int)
    requires k in f.state.accounts
    ensures var s' := FinalizeOne(f, k, t, opening, now).state;
            && s'.now == f.state.now
            && Balance(k, s'.accounts[k], now) == Balance(k, f.state.accounts[k], now)
            && s'.accounts[k].lastChangeTs == f.state.accounts[k].lastChangeTs
            && forall j :: j != k ==> (j in s'.accounts <==> j in f.state.accounts)
                                      && (j in s'.accounts ==> s'.accounts[j] == f.state.accounts[j])
  {
    hide Balance, FinalStatus, CommittedAmount, TransferSignals;
    var s := f.state;
    if Matches(s, t) {
      var a := Released(k, s.accounts[k], s.prepared[t], CommittedAmount(f, k, t, opening, now), now);
      SameBalance(k, s.accounts[k], a, now);
    }
  }

  /** Every commit of a batch is covered, in whatever order the batch is processed. */
  lemma {:induction false} FinalizeAllCovered(
    c: Settings, s: State, k: AccountKey, batch: seq<TransferKey>, balance: real)
    requires c.Valid() && RowsOk(c, s) && LocksOk(s, {k}) && forall t <- batch :: t.account == k
    requires k in s.accounts && !s.accounts[k].deleted && k.creditor != ROOT_CREDITOR_ID
    requires balance == Balance(k, s.accounts[k], s.now) && ReservedTotal(s.prepared, k, s.now) <= balance
    ensures var f := FinalizeAll(s, k, batch, balance.Floor, s.now);
            && Covered(f, k, balance, s.now) && f.state.now == s.now
            && Balance(k, f.state.accounts[k], s.now) == balance
            && f.state.accounts[k].lastChangeTs == s.accounts[k].lastChangeTs
  {
    hide RowsOk, LocksOk, FinalizeOne, Balance, ReservedTotal;
    if batch != [] {
      var front, t := batch[..|batch| - 1], batch[|batch| - 1];
      var f := FinalizeAll(s, k, front, balance.Floor, s.now);
      FinalizeAllCovered(c, s, k, front, balance);
      FinalizeRows(c, s, k, front, balance.Floor);
      FinalizeAllLocks(c, s, k, front, balance.Floor, {k});
      FinalizeOneCovered(c, f, k, t, balance);
      FinalizeOneRow(f, k, t, balance.Floor, s.now);
    }
  }

  lemma FinalizeSolvent(c: Settings, s: State, k: AccountKey, batch: seq<TransferKey>)
    requires c.Valid() && RowsOk(c, s) && LocksOk(s, {k}) && forall t <- batch :: t.account == k
    requires k.creditor != ROOT_CREDITOR_ID && Solvent(s, k, s.now)
    requires Unclipped(FinalizeTransfers(s, k, batch, s.now), k)
    ensures Solvent(FinalizeTransfers(s, k, batch, s.now), k, s.now)
  {
    hide RowsOk, LocksOk, FinalizeAll, Balance, ReservedTotal, ApplyChange;
    LastChange(c, s, k);
    if Live(s, k).Some? {
      var balance := Balance(k, s.accounts[k], s.now);
      FinalizeAllCovered(c, s, k, batch, balance);
      var f := FinalizeAll(s, k, batch, balance.Floor, s.now);
      if f.delta != 0 {
        FoldedBalance(k, f.state.accounts[k], f.delta, 0.0, s.now);
      }
    }
  }

  // ---- Crediting

  /** A late credit, with the interest due on it, is never worth nothing or less. */
  lemma CreditIsPositive(c: Settings, k: AccountKey, a: Account, amount: int, due: int, now: int)
    requires c.Valid() && 0 < amount && RowOk(c, k, a, now)
    ensures 0.0 < amount as real + DueInterest(a, amount, due, now)
  {
    var end := Max(due, now);
    var change := Min(a.rateChangeTs, end);
    PowPositive(a.previousRate, Elapsed(due, change));
    PowPositive(a.rate, Min(end - change, end - due));
    MulPositive(Pow(a.previousRate, Elapsed(due, change)), Pow(a.rate, Min(end - change, end - due)));
    WorthIsPositive(amount as real, GrowthSince(a, due, now));
  }

  lemma WorthIsPositive(amount: real, growth: real)
    requires 0.0 < amount && 0.0 < growth
    ensures 0.0 < amount + amount * (growth - 1.0)
  {
    assert amount + amount * (growth - 1.0) == amount * growth;
  }

  lemma ApplyOneBalance(c: Settings, b: Crediting, k: AccountKey, ck: ChangeKey, now: int)
    requires c.Valid() && RowsOk(c, b.state) && QueuesOk(b.state) && b.state.now == now
    requires k in b.state.accounts && k.creditor != ROOT_CREDITOR_ID
    requires ck in b.state.queued ==> b.state.queued[ck].creditor == k.creditor
    ensures var b' := ApplyOne(b, k, ck, now);
            && b.principalDelta as real + b.interestDelta <= b'.principalDelta as real + b'.interestDelta
            && Balance(k, b'.state.accounts[k], now) == Balance(k, b.state.accounts[k], now)
            && b'.state.accounts[k].lastChangeTs == b.state.accounts[k].lastChangeTs
            && b'.state.prepared == b.state.prepared
            && b'.state.queued == b.state.queued - {ck}
            && b'.state.now == now
  {
    hide RowsOk, RowOk, QueuesOk, Balance, DueInterest, TransferSignals;
    var s := b.state;
    if ck in s.queued {
      var ch, a := s.queued[ck], s.accounts[k];
      LastChange(c, s, k);
      QueuedIsPositive(s, ck);
      CreditIsPositive(c, k, a, ch.delta, ch.committedAt, now);
      SameBalance(k, a, Numbered(k, a, ch.delta, ch.committedAt), now);
    }
  }

  lemma QueuedIsPositive(s: State, ck: ChangeKey)
    requires QueuesOk(s) && ck in s.queued && s.queued[ck].creditor != ROOT_CREDITOR_ID
    ensures 0 < s.queued[ck].delta
  {
    hide RegisteredOk;
  }

  lemma {:induction false} ApplyAllBalance(c: Settings, s: State, k: AccountKey, batch: seq<ChangeKey>)
    requires c.Valid() && RowsOk(c, s) && QueuesOk(s)
    requires k in s.accounts && !s.accounts[k].deleted && k.creditor != ROOT_CREDITOR_ID
    requires forall ck <- batch :: ck in s.queued && s.queued[ck].creditor == k.creditor
    ensures var b := ApplyAll(s, k, batch, s.now);
            && 0.0 <= b.principalDelta as real + b.interestDelta
            && Balance(k, b.state.accounts[k], s.now) == Balance(k, s.accounts[k], s.now)
            && b.state.accounts[k].lastChangeTs == s.accounts[k].lastChangeTs
            && b.state.prepared == s.prepared
            && b.state.now == s.now
            && (forall ck :: ck in b.state.queued ==> ck in s.queued && b.state.queued[ck] == s.queued[ck])
  {
    hide RowsOk, QueuesOk, ApplyOne, Balance;
    if batch != [] {
      var front, ck := batch[..|batch| - 1], batch[|batch| - 1];
      ApplyAllBalance(c, s, k, front);
      ApplyRows(c, s, k, front);
      ApplyAllQueues(s, k, front);
      ApplyOneBalance(c, ApplyAll(s, k, front, s.now), k, ck, s.now);
    }
  }

  lemma ApplySolvent(c: Settings, s: State, k: AccountKey, batch: seq<ChangeKey>)
    requires c.Valid() && RowsOk(c, s) && LocksOk(s, {k}) && QueuesOk(s) && k.creditor != ROOT_CREDITOR_ID
    requires Solvent(s, k, s.now) && forall ck <- batch :: ck in s.queued && s.queued[ck].creditor == k.creditor
    requires Unclipped(ApplyChanges(s, k, batch, s.now), k)
    ensures Solvent(ApplyChanges(s, k, batch, s.now), k, s.now)
  {
    hide RowsOk, LocksOk, QueuesOk, ApplyAll, LockOrCreate, Balance, ReservedTotal, ApplyChange, AccountStep;
    if batch != [] {
      var s1 := LockOrCreate(s, k, s.now);
      LockBalance(c, s, k);
      LockRows(c, s, k);
      LockOrCreateFrame(s, k);
      AccountStepTables(s, s1, k);
      AccountQueues(s, s1, k);
      NotWorseSolvent(s, s1, k);
      ApplyAllBalance(c, s1, k, batch);
      var b := ApplyAll(s1, k, batch, s.now);
      FoldedBalance(k, b.state.accounts[k], b.principalDelta, b.interestDelta, s.now);
    }
  }

  // ---- Other accounts

  lemma OtherFinalizeOne(f: Finalizing, other: AccountKey, t: TransferKey, opening: int, k: AccountKey)
    requires other in f.state.accounts && t.account == other && other != k && Solvent(f.state, k, f.state.now)
    ensures var s' := FinalizeOne(f, other, t, opening, f.state.now).state;
            Solvent(s', k, f.state.now) && s'.now == f.state.now
  {
    hide ReservedTotal, Balance, CommittedAmount, FinalizeOne, Released;
    FinalizeOneFrame(f, other, t, opening, f.state.now);
    if Matches(f.state, t) {
      ReservedRemove(f.state.prepared, t, k, f.state.now);
    }
  }

  lemma {:induction false} OtherFinalizeAll(
    s: State, other: AccountKey, batch: seq<TransferKey>, opening: int, k: AccountKey)
    requires other in s.accounts && other != k && Solvent(s, k, s.now) && forall t <- batch :: t.account == other
    ensures var s' := FinalizeAll(s, other, batch, opening, s.now).state; Solvent(s', k, s.now) && s'.now == s.now
  {
    hide Solvent, FinalizeOne;
    if batch != [] {
      var front := batch[..|batch| - 1];
      OtherFinalizeAll(s, other, front, opening, k);
      OtherFinalizeOne(FinalizeAll(s, other, front, opening, s.now), other, batch[|batch| - 1], opening, k);
    }
  }

  lemma OtherSet(s: State, other: AccountKey, a: Account, k: AccountKey)
    requires other != k && Solvent(s, k, s.now)
    ensures Solvent(SetAccount(s, other, a), k, s.now)
  {
    hide ReservedTotal, Balance;
  }

  lemma OtherFinalize(s: State, other: AccountKey, batch: seq<TransferKey>, k: AccountKey)
    requires other != k && Solvent(s, k, s.now) && forall t <- batch :: t.account == other
    ensures Solvent(FinalizeTransfers(s, other, batch, s.now), k, s.now)
  {
    hide ReservedTotal, Balance, FinalizeAll, ApplyChange, SetAccount;
    if Live(s, other).Some? {
      var opening := Balance(other, s.accounts[other], s.now).Floor;
      OtherFinalizeAll(s, other, batch, opening, k);
      var f := FinalizeAll(s, other, batch, opening, s.now);
      OtherSet(f.state, other, ApplyChange(other, f.state.accounts[other], f.delta, 0.0, s.now), k);
    }
  }

  lemma OtherApply(s: State, other: AccountKey, batch: seq<ChangeKey>, k: AccountKey)
    requires other != k && Solvent(s, k, s.now)
    ensures Solvent(ApplyChanges(s, other, batch, s.now), k, s.now)
  {
    hide ReservedTotal, Balance, ApplyAll, ApplyChange, LockOrCreate, AccountStep;
    if batch != [] {
      var s1 := LockOrCreate(s, other, s.now);
      LockOrCreateFrame(s, other);
      AccountStepTables(s, s1, other);
      ApplyAllLocks(s1, other, batch);
    }
  }

  lemma PurgeSolvent(c: Settings, s: State, purged: AccountKey, k: AccountKey)
    requires LocksOk(s, {k}) && Solvent(s, k, s.now)
    ensures Solvent(PurgeAccount(c, s, purged, s.now), k, s.now)
  {
    hide ReservedTotal, Balance, LocksOk, CanBePurged;
    PurgeLocks(c, s, purged, {k});
  }

  lemma QueueSolvent(s: State, s': State, k: AccountKey)
    requires QueueStep(s, s') && Solvent(s, k, s.now)
    ensures Solvent(s', k, s.now)
  {
    hide ReservedTotal, Balance;
  }

  lemma EventOf(s: State, e: Event, now: int, s': State, k: AccountKey)
    requires Enabled(s, e)
    ensures Gentle(s.(now := now), e, now, s', k) == Gentle(s, e, now, s', k)
    ensures Gentle(s, e, now, s', k) ==>
              Unclipped(s', k) && (k in s.accounts ==> Balance(k, s.accounts[k], now) <= MAX_INT64 as real)
    ensures e.EFinalize? ==> forall t <- e.transfers :: t.account == e.key
    ensures e.EApply? ==> forall ck <- e.changes :: ck in s.queued && s.queued[ck].creditor == e.key.creditor
  {
    hide Balance, KeepsAccrual;
  }

  /** Every gentle step keeps an account solvent. */
  lemma SolventStep(c: Settings, s: State, e: Event, now: int, k: AccountKey)
    requires c.Valid() && RowsOk(c, s) && LocksOk(s, {k}) && QueuesOk(s) && s.now <= now && Enabled(s, e)
    requires k.creditor != ROOT_CREDITOR_ID && Solvent(s, k, s.now) && Gentle(s, e, now, Step(c, s, e, now), k)
    ensures Solvent(Step(c, s, e, now), k, now)
  {
    hide *;
    var s0, s' := s.(now := now), Step(c, s, e, now);
    EventOf(s, e, now, s', k);
    SolventLater(c, s, k, now);
    RowsLater(c, s, now);
    QueuesLater(s, now);
    LocksLater(s, e, now, {k});
    EnabledLater(s, e, now);
    StepCases(c, s, e, now);
    EventKinds(e);
    SolventNow(s, k, now);
    if IsAccountEvent(e) {
      AccountEventFrame(c, s, e, now);
      if KeyOf(e) == k {
        StepNow(c, s, e, now);
        AccountSolvent(c, s0, e, now, k);
        NotWorseSolvent(s0, s', k);
      } else {
        OtherAccountSolvent(s0, s', KeyOf(e), k);
      }
    } else if IsQueueEvent(e) {
      QueueFrame(c, s, e, now);
      QueueSolvent(s0, s', k);
    } else {
      match e
      case EPrepare(rk, commitPeriod) => PrepareSolvent(c, s0, rk, commitPeriod, k);
      case EFinalize(j, batch) =>
        if j == k {
          FinalizeSolvent(c, s0, k, batch);
        } else {
          OtherFinalize(s0, j, batch, k);
        }
      case EApply(j, batch) =>
        if j == k {
          ApplySolvent(c, s0, k, batch);
        } else {
          OtherApply(s0, j, batch, k);
        }
      case EPurge(j) => PurgeSolvent(c, s0, j, k);
    }
  }

  lemma SolventNow(s: State, k: AccountKey, now: int)
    ensures Solvent(s.(now := now), k, now) == Solvent(s, k, now)
  {
    hide ReservedTotal, Balance;
  }

  lemma StepNow(c: Settings, s: State, e: Event, now: int)
    requires Enabled(s, e) && Enabled(s.(now := now), e)
    ensures Step(c, s.(now := now), e, now) == Step(c, s, e, now)
  {
    hide Step, Enabled;
    StepCases(c, s, e, now);
    StepCases(c, s.(now := now), e, now);
  }

  /** A balance that is too great to be locked is the only reason for the cap to bite. */
  lemma CapNeedsGreatBalance(c: Settings, s: State, e: Event, now: int)
    requires RowsOk(c, s) && CapBites(s, e, now) && e.requestKey.account.creditor != ROOT_CREDITOR_ID
    ensures var k := e.requestKey.account; k in s.accounts && Balance(k, s.accounts[k], now) > MAX_INT64 as real
  {
    hide Balance, RejectionCode;
    var k := e.requestKey.account;
    LastChange(c, s, k);
    if Balance(k, s.accounts[k], now) <= MAX_INT64 as real {
      LockFits(k, s.accounts[k], s.requests[e.requestKey], now);
    }
  }
}
