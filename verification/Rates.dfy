/** What each procedure leaves alone in a row.  Only one procedure changes the interest rate, and not
    too often; only one changes the configuration; and the time of the last change never decreases. */
module Rates {
  import opened Models
  import opened Steps
  import opened Frames
  import opened Rows
  import opened Writes

  predicate SameRates(a: Account, b: Account) {
    b.rate == a.rate && b.previousRate == a.previousRate && b.rateChangeTs == a.rateChangeTs
  }

  predicate SameConfig(a: Account, b: Account) {
    && b.configTs == a.configTs && b.configSeqnum == a.configSeqnum
    && b.configFlags == a.configFlags && b.configData == a.configData && b.negligible == a.negligible
  }

  predicate IsOnward(a: Account, b: Account) {
    a.lastChangeTs <= b.lastChangeTs && b.creationDate == a.creationDate
  }

  predicate SameSettings(a: Account, b: Account) {
    SameRates(a, b) && SameConfig(a, b) && IsOnward(a, b)
  }

  predicate ConfigKept(a: Account, b: Account, e: Event) {
    (SameConfig(a, b) || e.EConfigure?) && IsOnward(a, b)
  }

  /** A change of the rate remembers the previous rate, and follows the previous change after the
      signal delay and one day more, at the earliest. */
  predicate IsRateChange(c: Settings, a: Account, b: Account, now: int) {
    && b.previousRate == a.rate && b.rateChangeTs == now
    && c.signalbusMaxDelay + DAY <= now - a.rateChangeTs
  }

  /** Only a recent request changes the rate, and the new rate is the requested one within limits. */
  predicate RatesKept(c: Settings, a: Account, b: Account, e: Event, now: int) {
    || SameRates(a, b)
    || (e.EChangeRate? && now - e.ts <= DAY && b.rate == Clamp(c, e.rate) && IsRateChange(c, a, b, now))
  }

  lemma RatesTrans(c: Settings, a: Account, b: Account, d: Account, e: Event, now: int)
    requires c.Valid() && RatesKept(c, a, b, e, now) && RatesKept(c, b, d, e, now)
    ensures RatesKept(c, a, d, e, now)
  {
  }

  lemma WriteRates(c: Settings, s: State, k: AccountKey, w: Write, e: Event)
    requires MayWrite(c, s, k, w, e)
    ensures RatesKept(c, RowOf(s, k), RowOf(WriteOne(s, k, w), k), e, s.now)
  {
    hide AccumulatedInterest, UpdateOf, TransferSignals, ConfigLater, IsValidConfig;
  }

  lemma {:induction false} WriteAllRates(c: Settings, s: State, k: AccountKey, ws: seq<Write>, e: Event)
    requires c.Valid() && MayWriteAll(c, s, k, ws, e)
    ensures RatesKept(c, RowOf(s, k), RowOf(WriteAll(s, k, ws), k), e, s.now)
    decreases |ws|
  {
    hide MayWrite, WriteOne, RowOf, IsRateChange;
    if ws != [] {
      var s1 := WriteOne(s, k, ws[0]);
      WriteRates(c, s, k, ws[0], e);
      WriteAllRates(c, s1, k, ws[1..], e);
      RatesTrans(c, RowOf(s, k), RowOf(s1, k), RowOf(WriteAll(s, k, ws), k), e, s.now);
    }
  }

  lemma WriteConfig(c: Settings, s: State, k: AccountKey, w: Write, e: Event)
    requires MayWrite(c, s, k, w, e)
    ensures ConfigKept(RowOf(s, k), RowOf(WriteOne(s, k, w), k), e)
  {
    hide UpdateOf, TransferSignals, MaySend, Paid, NewAccount;
    match w
    case Note(_, _) =>
    case Send(row) => SentConfig(c, s, k, row, e);
    case Money(coordinatorType, _, amount) => PaidConfig(k, s.accounts[k], coordinatorType, amount, s.now);
  }

  lemma SentConfig(c: Settings, s: State, k: AccountKey, row: Account, e: Event)
    requires MaySend(c, s, k, row, e)
    ensures ConfigKept(RowOf(s, k), row, e)
  {
    hide AccumulatedInterest, ConfigLater, IsValidConfig, Contain, Clamp, NewAccount;
  }

  lemma PaidConfig(k: AccountKey, a: Account, coordinatorType: string, amount: int, now: int)
    ensures SameConfig(a, Paid(k, a, coordinatorType, amount, now)) && IsOnward(a, Paid(k, a, coordinatorType, amount, now))
  {
    hide AccumulatedInterest, Contain;
  }

  lemma {:induction false} WriteAllConfig(c: Settings, s: State, k: AccountKey, ws: seq<Write>, e: Event)
    requires MayWriteAll(c, s, k, ws, e)
    ensures ConfigKept(RowOf(s, k), RowOf(WriteAll(s, k, ws), k), e)
    decreases |ws|
  {
    hide MayWrite, WriteOne, RowOf;
    if ws != [] {
      WriteConfig(c, s, k, ws[0], e);
      WriteAllConfig(c, WriteOne(s, k, ws[0]), k, ws[1..], e);
    }
  }

  lemma AccountRates(c: Settings, s: State, e: Event, now: int, k: AccountKey)
    requires c.Valid() && RowsOk(c, s) && s.now <= now && Enabled(s, e) && IsAccountEvent(e)
    ensures var s0, s' := s.(now := now), Step(c, s, e, now);
            RatesKept(c, RowOf(s0, k), RowOf(s', k), e, now)
            && (KeyOf(e) != k ==> RowOf(s', k) == RowOf(s0, k))
  {
    hide Step, Enabled, RowsOk, RatesKept, AccountStep, WriteAll, MayWriteAll, NewAccount, IsAccountEvent;
    var s0, s' := s.(now := now), Step(c, s, e, now);
    AccountEventFrame(c, s, e, now);
    AccountStepTables(s0, s', KeyOf(e));
    if KeyOf(e) == k {
      RowsLater(c, s, now);
      PrincipalOk(c, s0, k);
      var ws := AccountEventWrites(c, s, e, now);
      WriteAllRates(c, s0, k, ws, e);
    } else {
      SameRow(c, RowOf(s0, k), e, now);
    }
  }

  lemma SameRow(c: Settings, a: Account, e: Event, now: int)
    ensures RatesKept(c, a, a, e, now)
  {
  }

  // ---- Batches

  lemma {:induction false} FinalizeAllRates(
    s: State, k: AccountKey, batch: seq<TransferKey>, opening: int, j: AccountKey)
    requires k in s.accounts
    ensures var s' := FinalizeAll(s, k, batch, opening, s.now).state;
            && (j in s'.accounts <==> j in s.accounts) && SameSettings(RowOf(s, j), RowOf(s', j)) && s'.now == s.now
            && (j != k ==> RowOf(s', j) == RowOf(s, j))
  {
    hide FinalizeOne, CommittedAmount, NewAccount, Released;
    if batch != [] {
      var front, t := batch[..|batch| - 1], batch[|batch| - 1];
      var f := FinalizeAll(s, k, front, opening, s.now);
      FinalizeAllRates(s, k, front, opening, j);
      FinalizeOneFrame(f, k, t, opening, s.now);
      if Matches(f.state, t) {
        ReleasedRates(k, f.state.accounts[k], f.state.prepared[t], CommittedAmount(f, k, t, opening, s.now), s.now);
      }
    }
  }

  lemma ReleasedRates(k: AccountKey, a: Account, pt: PreparedTransfer, committed: int, now: int)
    ensures SameSettings(a, Released(k, a, pt, committed, now))
  {
  }

  lemma FoldedRates(k: AccountKey, a: Account, principalDelta: int, interestDelta: real, now: int)
    ensures SameSettings(a, ApplyChange(k, a, principalDelta, interestDelta, now))
  {
    hide AccumulatedInterest;
  }

  lemma FinalizeRates(s: State, k: AccountKey, batch: seq<TransferKey>, j: AccountKey)
    ensures var s' := FinalizeTransfers(s, k, batch, s.now);
            SameSettings(RowOf(s, j), RowOf(s', j)) && (j != k ==> RowOf(s', j) == RowOf(s, j))
  {
    hide FinalizeAll, Balance, ApplyChange, NewAccount;
    if Live(s, k).Some? {
      var opening := Balance(k, s.accounts[k], s.now).Floor;
      FinalizeAllRates(s, k, batch, opening, j);
      var f := FinalizeAll(s, k, batch, opening, s.now);
      FoldedRates(k, f.state.accounts[k], f.delta, 0.0, s.now);
    }
  }

  lemma {:induction false} ApplyAllRates(s: State, k: AccountKey, batch: seq<ChangeKey>, j: AccountKey)
    requires k in s.accounts
    ensures var s' := ApplyAll(s, k, batch, s.now).state;
            && (j in s'.accounts <==> j in s.accounts) && SameSettings(RowOf(s, j), RowOf(s', j)) && s'.now == s.now
            && (j != k ==> RowOf(s', j) == RowOf(s, j))
  {
    hide NewAccount, DueInterest, TransferSignals;
    if batch != [] {
      ApplyAllRates(s, k, batch[..|batch| - 1], j);
    }
  }

  lemma LockRates(c: Settings, s: State, k: AccountKey, j: AccountKey, e: Event)
    requires c.Valid() && !e.EChangeRate? && !e.EConfigure?
    ensures var s' := LockOrCreate(s, k, s.now);
            SameSettings(RowOf(s, j), RowOf(s', j)) && (j != k ==> RowOf(s', j) == RowOf(s, j))
  {
    hide WriteAll, MayWriteAll, NewAccount, LockOrCreate, AccountStep;
    LockOrCreateFrame(s, k);
    AccountStepTables(s, LockOrCreate(s, k, s.now), k);
    if j == k {
      var ws := LockWrites(c, s, k, e);
      WriteAllRates(c, s, k, ws, e);
      WriteAllConfig(c, s, k, ws, e);
    }
  }

  lemma ApplyRates(c: Settings, s: State, k: AccountKey, batch: seq<ChangeKey>, j: AccountKey)
    requires c.Valid()
    ensures var s' := ApplyChanges(s, k, batch, s.now);
            SameSettings(RowOf(s, j), RowOf(s', j)) && (j != k ==> RowOf(s', j) == RowOf(s, j))
  {
    hide ApplyAll, ApplyChange, NewAccount, LockOrCreate;
    if batch != [] {
      var s1 := LockOrCreate(s, k, s.now);
      LockRates(c, s, k, j, EApply(k, batch));
      ApplyAllRates(s1, k, batch, j);
      var b := ApplyAll(s1, k, batch, s.now);
      FoldedRates(k, b.state.accounts[k], b.principalDelta, b.interestDelta, s.now);
    }
  }

  lemma PrepareRates(c: Settings, s: State, rk: RequestKey, commitPeriod: int, j: AccountKey)
    requires rk in s.requests
    ensures SameSettings(RowOf(s, j), RowOf(PrepareTransfer(c, s, rk, commitPeriod, s.now), j))
  {
    hide PrepareTransfer, Accepts, LockableAmount, NewTransfer, NewAccount;
    PrepareKeeps(c, s, rk, commitPeriod);
    PrepareWrites(c, s, rk, commitPeriod);
  }

  // ---- Every step

  /** No step changes the rate of an account, except the one that is meant to; and that one keeps
      the distance from the previous change.  A purge forgets the rates with the row. */
  lemma RatesStep(c: Settings, s: State, e: Event, now: int, k: AccountKey)
    requires c.Valid() && RowsOk(c, s) && s.now <= now && Enabled(s, e) && e != EPurge(k)
    ensures RatesKept(c, RowOf(s, k), RowOf(Step(c, s, e, now), k), e, now)
    ensures e.EChangeRate? && e.key != k ==> SameRates(RowOf(s, k), RowOf(Step(c, s, e, now), k))
  {
    RatesLater(s, now, k);
    RatesMeaning(c, RowOf(s, k), e, now);
    hide *;
    var s0 := s.(now := now);
    EnabledLater(s, e, now);
    StepCases(c, s, e, now);
    EventKinds(e);
    if IsAccountEvent(e) {
      KeyMeaning(e);
      AccountRates(c, s, e, now, k);
      RatesFrom(c, RowOf(s, k), RowOf(s0, k), RowOf(Step(c, s, e, now), k), e, now);
      SameRow(c, RowOf(s0, k), e, now);
    } else if IsQueueEvent(e) {
      QueueFrame(c, s, e, now);
      QueueRates(s0, Step(c, s, e, now), k);
    } else {
      match e
      case EPrepare(rk, commitPeriod) => PrepareRates(c, s0, rk, commitPeriod, k);
      case EFinalize(j, batch) => FinalizeRates(s0, j, batch, k);
      case EApply(j, batch) => ApplyRates(c, s0, j, batch, k);
      case EPurge(j) => PurgeRates(c, s0, j, k);
    }
  }

  lemma KeyMeaning(e: Event)
    requires IsAccountEvent(e)
    ensures e.EChangeRate? ==> KeyOf(e) == e.key
  {
  }

  lemma RatesLater(s: State, now: int, k: AccountKey)
    ensures SameRates(RowOf(s, k), RowOf(s.(now := now), k))
    ensures forall b :: SameRates(RowOf(s.(now := now), k), b) ==> SameRates(RowOf(s, k), b)
    ensures forall b :: SameSettings(RowOf(s.(now := now), k), b) ==> SameRates(RowOf(s, k), b)
  {
  }

  lemma RatesMeaning(c: Settings, a: Account, e: Event, now: int)
    ensures forall b :: SameRates(a, b) ==> RatesKept(c, a, b, e, now)
  {
  }

  lemma RatesFrom(c: Settings, a: Account, a0: Account, b: Account, e: Event, now: int)
    requires SameRates(a, a0) && RatesKept(c, a0, b, e, now)
    ensures RatesKept(c, a, b, e, now)
    ensures a0 == b ==> SameRates(a, b)
  {
  }

  lemma QueueRates(s: State, s': State, k: AccountKey)
    requires QueueStep(s, s')
    ensures SameSettings(RowOf(s, k), RowOf(s', k))
  {
  }

  lemma PurgeRates(c: Settings, s: State, j: AccountKey, k: AccountKey)
    requires j != k
    ensures SameSettings(RowOf(s, k), RowOf(PurgeAccount(c, s, j, s.now), k))
  {
    hide NewAccount;
  }
}
