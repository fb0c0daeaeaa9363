/** How each event moves the balance of an account: by an amount that the event tells, and by nothing
    else. */
module Moves {
  import opened Growth
  import opened Models
  import opened Steps
  import opened Frames
  import opened Rows
  import opened Accrual
  import opened Rates
  import opened Solvency

  /** The sum of the amounts that finalized signals have taken from an account. */
  function TotalCommitted(finalized: seq<FinalizedSignal>, k: AccountKey): int {
    if finalized == [] then 0
    else
      var n := |finalized| - 1;
      TotalCommitted(finalized[..n], k) + if finalized[n].key.account == k then finalized[n].committed else 0
  }

  lemma AddCommitted(finalized: seq<FinalizedSignal>, f: FinalizedSignal, k: AccountKey)
    ensures TotalCommitted(finalized + [f], k)
            == TotalCommitted(finalized, k) + if f.key.account == k then f.committed else 0
  {
    assert (finalized + [f])[..|finalized|] == finalized;
  }

  /** What an event gives to an account or takes from it at once: committed amounts are taken, debtor
      payments are given, except for interest, which has been there already; and a deletion takes the
      balance.  Credits are not among them, because they come late. */
  function OwnMove(s: State, e: Event, s': State, k: AccountKey): real {
    match e
    case EFinalize(j, _) =>
      if j == k then (TotalCommitted(s.finalized, k) - TotalCommitted(s'.finalized, k)) as real else 0.0
    case EPay(j, coordinatorType, _, amount) => if j == k && coordinatorType != CT_INTEREST then amount as real else 0.0
    case ETryToDelete(j) =>
      if j == k && Live(s, k).Some? && Live(s', k).None? then -Balance(k, s.accounts[k], s'.now) else 0.0
    case _ => 0.0
  }

  /** Whether an update of the debtor's info changes the account. */
  predicate TakesInfo(s: State, e: Event, now: int, k: AccountKey) {
    && e.EUpdateDebtorInfo? && e.key == k && k.creditor != ROOT_CREDITOR_ID && now - e.ts <= DAY
    && Live(s, k).Some? && s.accounts[k].debtorInfo != e.info
  }

  // ---- Events on the account

  lemma MissingBalance(s: State, k: AccountKey, now: int)
    requires k !in s.accounts
    ensures Balance(k, RowOf(s, k), now) == 0.0
  {
    hide Pow;
  }

  lemma ConfigureMove(c: Settings, s: State, k: AccountKey, m: Configuration)
    requires RowsOk(c, s) && k.creditor != ROOT_CREDITOR_ID
    requires Unclipped(ConfigureAccount(c, s, k, m, s.now), k)
    ensures Balance(k, RowOf(ConfigureAccount(c, s, k, m, s.now), k), s.now) == Balance(k, RowOf(s, k), s.now)
  {
    hide RowsOk, RowOk, ConfigureAccount, Configured, NewAccount, SendUpdate, Balance;
    LastChange(c, s, k);
    ConfigureOutcomes(c, s, k, m);
    var b := Configured(k, RowOf(s, k), m, s.now);
    if !b.overflown {
      ConfiguredExactly(k, RowOf(s, k), m, s.now);
    }
    SameBalance(k, b, Announced(b, s.now), s.now);
  }

  lemma ConfiguredExactly(k: AccountKey, a: Account, m: Configuration, now: int)
    requires k.creditor != ROOT_CREDITOR_ID && a.lastChangeTs <= now && !Configured(k, a, m, now).overflown
    ensures Balance(k, Configured(k, a, m, now), now) == Balance(k, a, now)
  {
    hide Balance, AccumulatedInterest;
    var a1 := a.(deleted := false, configFlags := m.flags, configData := m.data,
                 negligible := m.negligible, configTs := m.ts, configSeqnum := m.seqnum);
    SameBalance(k, a, a1, now);
    FoldedBalance(k, a1, 0, 0.0, now);
  }

  lemma ChangeRateMove(c: Settings, s: State, k: AccountKey, rate: real, ts: int)
    requires RowsOk(c, s) && k.creditor != ROOT_CREDITOR_ID
    ensures Balance(k, RowOf(ChangeRate(c, s, k, rate, ts, s.now), k), s.now) == Balance(k, RowOf(s, k), s.now)
  {
    hide RowsOk, RowOk, Balance, RateChanged, NewAccount;
    LastChange(c, s, k);
    var b := RateChanged(k, RowOf(s, k), Clamp(c, rate), s.now);
    RateChangedBalance(k, RowOf(s, k), Clamp(c, rate), s.now);
    SameBalance(k, b, Announced(b, s.now), s.now);
  }

  lemma DebtorInfoMove(c: Settings, s: State, k: AccountKey, info: Option<string>, ts: int)
    requires c.Valid() && RowsOk(c, s) && k.creditor != ROOT_CREDITOR_ID
    requires TakesInfo(s, EUpdateDebtorInfo(k, info, ts), s.now, k) ==> NothingAccrued(s.accounts[k], s.now)
    ensures Balance(k, RowOf(UpdateDebtorInfo(s, k, info, ts, s.now), k), s.now) == Balance(k, RowOf(s, k), s.now)
  {
    hide RowsOk, Balance, NothingAccrued, NewAccount, UpdateOf;
    if TakesInfo(s, EUpdateDebtorInfo(k, info, ts), s.now, k) {
      RateIsPositive(c, s, k);
      DebtorInfoKeepsBalance(s, k, info, ts, s.now, s.now);
    }
  }

  lemma RateIsPositive(c: Settings, s: State, k: AccountKey)
    requires c.Valid() && RowsOk(c, s) && k in s.accounts
    ensures 0.0 < s.accounts[k].rate && s.accounts[k].lastChangeTs <= s.now
  {
  }

  lemma CapitalizeMove(c: Settings, s: State, k: AccountKey, minInterval: int)
    requires RowsOk(c, s) && k.creditor != ROOT_CREDITOR_ID
    requires Unclipped(Capitalize(s, k, minInterval, s.now), k)
    ensures Balance(k, RowOf(Capitalize(s, k, minInterval, s.now), k), s.now) == Balance(k, RowOf(s, k), s.now)
  {
    hide RowsOk, RowOk, Balance, AccumulatedInterest, Pay, NewAccount;
    LastChange(c, s, k);
    if Live(s, k).Some? {
      var a, amount := s.accounts[k], Contain(AccumulatedInterest(k, s.accounts[k], s.now).Floor);
      if a.capitalizationTs <= s.now - minInterval && amount != 0 {
        SameBalance(k, a, a.(capitalizationTs := s.now), s.now);
        PaidBalance(SetAccount(s, k, a.(capitalizationTs := s.now)), k, CT_INTEREST, "", amount);
      }
    }
  }

  lemma PaymentMove(c: Settings, s: State, k: AccountKey, coordinatorType: string, note: string, amount: int)
    requires c.Valid() && RowsOk(c, s) && k.creditor != ROOT_CREDITOR_ID
    requires Unclipped(MakeDebtorPayment(s, k, coordinatorType, note, amount, s.now), k)
    ensures Balance(k, RowOf(MakeDebtorPayment(s, k, coordinatorType, note, amount, s.now), k), s.now)
            == Balance(k, RowOf(s, k), s.now) + if coordinatorType == CT_INTEREST then 0.0 else amount as real
  {
    hide RowsOk, Balance, Pay, LockOrCreate, NewAccount;
    LockBalance(c, s, k);
    PaidBalance(LockOrCreate(s, k, s.now), k, coordinatorType, note, amount);
  }

  lemma DeleteMove(s: State, k: AccountKey)
    requires k.creditor != ROOT_CREDITOR_ID
    ensures var s' := TryToDelete(s, k, s.now);
            Balance(k, RowOf(s', k), s.now)
            == if Live(s, k).Some? && Live(s', k).None? then 0.0 else Balance(k, RowOf(s, k), s.now)
  {
    hide Pay, IsNegligibleBalance, Balance, SendUpdate, NewAccount;
    if Live(s, k).Some? {
      var a := s.accounts[k].(deletionAttemptTs := s.now);
      SameBalance(k, s.accounts[k], a, s.now);
      if CanBeDeleted(k, s.accounts[k], s.now) {
        var s2 := Pay(SetAccount(s, k, a), k, CT_DELETE, "", -a.principal, s.now);
        EmptyBalance(k, Announced(Deleted(s2.accounts[k], s.now), s.now), s.now);
      }
    }
  }

  lemma HeartbeatMove(c: Settings, s: State, k: AccountKey)
    ensures Balance(k, RowOf(SendHeartbeat(c, s, k, s.now), k), s.now) == Balance(k, RowOf(s, k), s.now)
  {
    hide Balance, NewAccount, UpdateOf;
    SameBalance(k, RowOf(s, k), Announced(RowOf(s, k), s.now), s.now);
  }

  // ---- Transfers

  lemma PrepareMove(c: Settings, s: State, rk: RequestKey, commitPeriod: int, k: AccountKey)
    requires rk in s.requests
    ensures Balance(k, RowOf(PrepareTransfer(c, s, rk, commitPeriod, s.now), k), s.now) == Balance(k, RowOf(s, k), s.now)
  {
    hide Balance, PrepareTransfer, Accepts, LockableAmount, NewTransfer, NewAccount;
    PrepareKeeps(c, s, rk, commitPeriod);
    PrepareWrites(c, s, rk, commitPeriod);
    if Accepts(s, rk, s.now) {
      var j := rk.account;
      SameBalance(j, s.accounts[j], WithLock(s.accounts[j], LockableAmount(j, s.accounts[j], s.requests[rk], s.now)),
                  s.now);
    }
  }

  lemma CommitNonNegative(c: Settings, f: Finalizing, k: AccountKey, t: TransferKey, opening: int, now: int)
    requires RowsOk(c, f.state) && k in f.state.accounts && Matches(f.state, t)
    ensures 0 <= CommittedAmount(f, k, t, opening, now)
  {
    hide AccountsOk, TransfersOk, RequestsOk, FinalStatus;
  }

  /** One finalization takes from the balance what its signal tells. */
  lemma FinalizeOneMove(c: Settings, f: Finalizing, k: AccountKey, t: TransferKey, opening: int)
    requires RowsOk(c, f.state) && k in f.state.accounts && t.account == k
    ensures var f' := FinalizeOne(f, k, t, opening, f.state.now);
            f'.delta == f.delta + TotalCommitted(f.state.finalized, k) - TotalCommitted(f'.state.finalized, k)
  {
    hide RowsOk, CommittedAmount, FinalStatus, TransferSignals, Release, Released, TotalCommitted;
    var s, now := f.state, f.state.now;
    if Matches(s, t) {
      var committed := CommittedAmount(f, k, t, opening, now);
      ReleaseFrame(s, k, t, FinalStatus(f, k, t, opening, now), committed, now);
      CommitNonNegative(c, f, k, t, opening, now);
      AddCommitted(s.finalized, FinalizeOne(f, k, t, opening, now).state.finalized[|s.finalized|], k);
    }
  }

  lemma {:induction false} FinalizeAllMove(c: Settings, s: State, k: AccountKey, batch: seq<TransferKey>, opening: int)
    requires RowsOk(c, s) && k in s.accounts && !s.accounts[k].deleted && forall t <- batch :: t.account == k
    ensures var f := FinalizeAll(s, k, batch, opening, s.now);
            && f.delta == TotalCommitted(s.finalized, k) - TotalCommitted(f.state.finalized, k)
            && Balance(k, f.state.accounts[k], s.now) == Balance(k, s.accounts[k], s.now)
            && f.state.accounts[k].lastChangeTs == s.accounts[k].lastChangeTs
  {
    hide RowsOk, FinalizeOne, Balance, TotalCommitted;
    if batch != [] {
      var front, t := batch[..|batch| - 1], batch[|batch| - 1];
      var f := FinalizeAll(s, k, front, opening, s.now);
      FinalizeAllMove(c, s, k, front, opening);
      FinalizeRows(c, s, k, front, opening);
      FinalizeOneMove(c, f, k, t, opening);
      FinalizeOneRow(f, k, t, opening, s.now);
    }
  }

  lemma FinalizeMove(c: Settings, s: State, k: AccountKey, batch: seq<TransferKey>)
    requires RowsOk(c, s) && k.creditor != ROOT_CREDITOR_ID && forall t <- batch :: t.account == k
    requires Unclipped(FinalizeTransfers(s, k, batch, s.now), k)
    ensures var s' := FinalizeTransfers(s, k, batch, s.now);
            Balance(k, RowOf(s', k), s.now)
            == Balance(k, RowOf(s, k), s.now)
               + (TotalCommitted(s.finalized, k) - TotalCommitted(s'.finalized, k)) as real
  {
    hide RowsOk, FinalizeAll, Balance, ApplyChange, TotalCommitted, NewAccount;
    LastChange(c, s, k);
    if Live(s, k).Some? {
      var opening := Balance(k, s.accounts[k], s.now).Floor;
      FinalizeAllMove(c, s, k, batch, opening);
      var f := FinalizeAll(s, k, batch, opening, s.now);
      if f.delta != 0 {
        FoldedBalance(k, f.state.accounts[k], f.delta, 0.0, s.now);
      }
    }
  }

  lemma PurgeMove(c: Settings, s: State, j: AccountKey, k: AccountKey)
    requires RowsOk(c, s)
    ensures Balance(k, RowOf(PurgeAccount(c, s, j, s.now), k), s.now) == Balance(k, RowOf(s, k), s.now)
  {
    hide Balance, RowsOk, NewAccount;
    if j == k && k in s.accounts && CanBePurged(c, s.accounts[k], s.now) {
      DeletedIsEmpty(c, s, k);
      EmptyBalance(k, s.accounts[k], s.now);
      MissingBalance(PurgeAccount(c, s, k, s.now), k, s.now);
    }
  }

  lemma QueueMove(s: State, s': State, k: AccountKey)
    requires QueueStep(s, s')
    ensures RowOf(s', k) == RowOf(s, k)
  {
    hide NewAccount;
  }

  // ---- Every event

  lemma AccountMove(c: Settings, s: State, e: Event, k: AccountKey)
    requires c.Valid() && RowsOk(c, s) && Enabled(s, e) && IsAccountEvent(e) && KeyOf(e) == k
    requires k.creditor != ROOT_CREDITOR_ID && Unclipped(Step(c, s, e, s.now), k)
    requires TakesInfo(s, e, s.now, k) ==> NothingAccrued(s.accounts[k], s.now)
    ensures Balance(k, RowOf(Step(c, s, e, s.now), k), s.now)
            == Balance(k, RowOf(s, k), s.now) + OwnMove(s, e, Step(c, s, e, s.now), k)
  {
    AccountEventKinds(e);
    var s' := Step(c, s, e, s.now);
    MoveOf(s, e, s', k);
    assert e.EUpdateDebtorInfo? ==> e == EUpdateDebtorInfo(k, e.info, e.ts);
    hide *;
    assert s.(now := s.now) == s;
    StepClock(c, s, e, s.now);
    StepCases(c, s, e, s.now);
    match e {
      case EConfigure(_, m) => ConfigureMove(c, s, k, m);
      case EChangeRate(_, rate, ts) => ChangeRateMove(c, s, k, rate, ts);
      case EUpdateDebtorInfo(_, info, ts) => DebtorInfoMove(c, s, k, info, ts);
      case ECapitalize(_, minInterval) => CapitalizeMove(c, s, k, minInterval);
      case ETryToDelete(_) => DeleteMove(s, k);
      case EPay(_, coordinatorType, note, amount) => PaymentMove(c, s, k, coordinatorType, note, amount);
      case EHeartbeat(_) => HeartbeatMove(c, s, k);
    }
  }

  /** The meaning of an own move, event by event. */
  lemma MoveOf(s: State, e: Event, s': State, k: AccountKey)
    ensures !e.EFinalize? && !e.EPay? && !e.ETryToDelete? ==> OwnMove(s, e, s', k) == 0.0
    ensures IsAccountEvent(e) && KeyOf(e) != k ==> OwnMove(s, e, s', k) == 0.0
    ensures e.EFinalize? ==>
              OwnMove(s, e, s', k) == if e.key == k
                                      then (TotalCommitted(s.finalized, k) - TotalCommitted(s'.finalized, k)) as real
                                      else 0.0
    ensures e.EPay? && e.key == k ==>
              OwnMove(s, e, s', k) == if e.coordinatorType == CT_INTEREST then 0.0 else e.amount as real
    ensures e.ETryToDelete? && e.key == k ==>
              OwnMove(s, e, s', k) == if Live(s, k).Some? && Live(s', k).None? then -Balance(k, s.accounts[k], s'.now)
                                      else 0.0
    ensures Live(s, k).Some? ==> RowOf(s, k) == s.accounts[k]
  {
    hide Balance, TotalCommitted;
  }

  lemma SameMove(s: State, e: Event, now: int, s': State, k: AccountKey)
    ensures OwnMove(s.(now := now), e, s', k) == OwnMove(s, e, s', k)
    ensures TakesInfo(s.(now := now), e, now, k) == TakesInfo(s, e, now, k)
  {
    hide Balance, TotalCommitted;
  }

  /** Every event moves the balance of a non-root account by its own move, and by nothing else; apart
      from late credits, and from an update of the debtor's info when interest is due. */
  lemma BalanceMoves(c: Settings, s: State, e: Event, now: int, k: AccountKey)
    requires c.Valid() && RowsOk(c, s) && s.now <= now && Enabled(s, e) && !(e.EApply? && e.key == k)
    requires k.creditor != ROOT_CREDITOR_ID && Unclipped(Step(c, s, e, now), k)
    requires TakesInfo(s, e, now, k) ==> NothingAccrued(s.accounts[k], now)
    ensures var s' := Step(c, s, e, now);
            Balance(k, RowOf(s', k), now) == Balance(k, RowOf(s.(now := now), k), now) + OwnMove(s, e, s', k)
  {
    BatchOwner(s, e);
    var s0, s' := s.(now := now), Step(c, s, e, now);
    MoveOf(s, e, s', k);
    hide *;
    SameMove(s, e, now, s', k);
    RowsLater(c, s, now);
    EnabledLater(s, e, now);
    StepCases(c, s, e, now);
    EventKinds(e);
    if IsAccountEvent(e) {
      if KeyOf(e) == k {
        StepNow(c, s, e, now);
        AccountMove(c, s0, e, k);
      } else {
        AccountRates(c, s, e, now, k);
      }
    } else if IsQueueEvent(e) {
      QueueFrame(c, s, e, now);
      QueueMove(s0, s', k);
      QueueOnly(e);
    } else {
      match e
      case EPrepare(rk, commitPeriod) => PrepareMove(c, s0, rk, commitPeriod, k);
      case EFinalize(j, batch) =>
        if j == k {
          FinalizeMove(c, s0, k, batch);
        } else {
          FinalizeRates(s0, j, batch, k);
        }
      case EApply(j, batch) => ApplyRates(c, s0, j, batch, k);
      case EPurge(j) => PurgeMove(c, s0, j, k);
    }
  }

  lemma BatchOwner(s: State, e: Event)
    requires Enabled(s, e)
    ensures e.EFinalize? ==> forall t <- e.transfers :: t.account == e.key
  {
  }

  lemma QueueOnly(e: Event)
    requires IsQueueEvent(e)
    ensures !e.EFinalize? && !e.EPay? && !e.ETryToDelete?
  {
  }
}
