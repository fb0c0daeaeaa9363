/** Late credits: an amount that is credited late, with the interest due on it, is worth exactly
    what it would have been worth if it had been credited at the moment of the commit.

    The reference is an ideal ledger, which receives every amount at the moment of the commit. */
module LateCredit {
  import opened Growth
  import opened Totals
  import opened Models
  import opened Steps
  import opened Frames
  import opened Rows
  import opened Changes
  import opened Accrual
  import opened Rates
  import opened Solvency
  import opened Moves

  // ---- What is on its way to an account

  predicate IsDue(emitted: map<ChangeKey, BalanceChange>, applied: seq<ChangeKey>, k: AccountKey, ck: ChangeKey) {
    ck in emitted && ck.debtor == k.debtor && emitted[ck].creditor == k.creditor && ck !in applied
  }

  /** What an amount is worth now, if it is credited to the account. */
  function WorthOne(a: Account, ch: BalanceChange, now: int): real {
    ch.delta as real * GrowthSince(a, ch.committedAt, now)
  }

  /** What the changes that are on their way to the account are worth now. */
  function WorthOf(
    emitted: map<ChangeKey, BalanceChange>, applied: seq<ChangeKey>, k: AccountKey, a: Account, now: int):
    map<ChangeKey, real>
  {
    map ck | ck in emitted && IsDue(emitted, applied, k, ck) ::
      WorthOne(a, emitted[ck], now)
  }

  ghost function Worth(s: State, k: AccountKey, now: int): real {
    Sum(WorthOf(s.emitted, s.applied, k, RowOf(s, k), now))
  }

  /** The amounts that a step has sent to the account. */
  function SentTo(before: map<ChangeKey, BalanceChange>, after: map<ChangeKey, BalanceChange>, k: AccountKey):
    map<ChangeKey, real>
  {
    map ck | ck in after && ck !in before && ck.debtor == k.debtor && after[ck].creditor == k.creditor ::
      after[ck].delta as real
  }

  // ---- The growth of an amount

  lemma GrowthIsPositive(a: Account, due: int, now: int)
    requires 0.0 < a.rate && 0.0 < a.previousRate
    ensures 0.0 < GrowthSince(a, due, now)
  {
    var end := Max(due, now);
    var change := Min(a.rateChangeTs, end);
    PowPositive(a.previousRate, Elapsed(due, change));
    PowPositive(a.rate, Min(end - change, end - due));
    MulPositive(Pow(a.previousRate, Elapsed(due, change)), Pow(a.rate, Min(end - change, end - due)));
  }

  /** Growth goes on at the current rate. */
  lemma GrowthLater(a: Account, due: int, now: int, later: int)
    requires due <= now <= later && a.rateChangeTs <= now
    ensures GrowthSince(a, due, later) == Pow(a.rate, later - now) * GrowthSince(a, due, now)
  {
    hide Pow;
    var t := Min(now - a.rateChangeTs, now - due);
    PowAdd(a.rate, later - now, t);
    assert Min(later - a.rateChangeTs, later - due) == (later - now) + t;
    var p, q, g := Pow(a.previousRate, Elapsed(due, a.rateChangeTs)), Pow(a.rate, t), Pow(a.rate, later - now);
    assert p * (g * q) == g * (p * q);
  }

  lemma GrowthNow(a: Account, now: int)
    requires a.rateChangeTs <= now
    ensures GrowthSince(a, now, now) == 1.0
  {
    assert Pow(a.previousRate, 0) == 1.0 && Pow(a.rate, 0) == 1.0;
  }

  /** A change of the rate does not change what the amount has earned, if the rate had not been
      changed before since the amount was committed. */
  lemma GrowthAfterChange(a: Account, b: Account, due: int, now: int)
    requires due <= now && a.rateChangeTs <= due
    requires b.previousRate == a.rate && b.rateChangeTs == now
    ensures GrowthSince(b, due, now) == GrowthSince(a, due, now)
  {
    assert Pow(a.previousRate, 0) == 1.0 && Pow(b.rate, 0) == 1.0;
    assert Elapsed(due, a.rateChangeTs) == 0;
  }

  // ---- What a step does to the changes that are on their way

  /** The step emits changes that are committed now, and applies none. */
  predicate OnlyEmits(s: State, s': State) {
    && s'.applied == s.applied
    && (forall ck :: ck in s.emitted ==> ck in s'.emitted && s'.emitted[ck] == s.emitted[ck])
    && (forall ck :: ck in s'.emitted && ck !in s.emitted ==>
          s'.emitted[ck].committedAt == s.now && s.nextChangeId <= ck.id)
    && s.nextChangeId <= s'.nextChangeId
  }

  lemma OnlyEmitsTrans(s: State, s1: State, s2: State)
    requires OnlyEmits(s, s1) && OnlyEmits(s1, s2) && s1.now == s.now
    ensures OnlyEmits(s, s2)
  {
  }

  lemma AccountEmits(s: State, s': State, k: AccountKey)
    requires AccountStep(s, s', k) && QueuesOk(s)
    ensures OnlyEmits(s, s')
  {
    hide AccountStep, QueuedOk, RegisteredOk;
    AccountStepTables(s, s', k);
    if s'.nextChangeId != s.nextChangeId {
      PaymentEmission(s, s', k);
    } else {
      NoPaymentEmission(s, s', k);
    }
  }

  lemma FinalizeOneEmits(f: Finalizing, k: AccountKey, t: TransferKey, opening: int)
    requires k in f.state.accounts && QueuesOk(f.state)
    ensures OnlyEmits(f.state, FinalizeOne(f, k, t, opening, f.state.now).state)
  {
    hide CommittedAmount, FinalStatus, TransferSignals, QueuedOk, RegisteredOk, Release;
    if Matches(f.state, t) {
      ReleaseFrame(f.state, k, t, FinalStatus(f, k, t, opening, f.state.now),
                   CommittedAmount(f, k, t, opening, f.state.now), f.state.now);
    }
  }

  lemma {:induction false} FinalizeAllEmits(s: State, k: AccountKey, batch: seq<TransferKey>, opening: int)
    requires k in s.accounts && QueuesOk(s)
    ensures OnlyEmits(s, FinalizeAll(s, k, batch, opening, s.now).state)
  {
    hide OnlyEmits, FinalizeOne, QueuesOk;
    if batch == [] {
      StaysEmits(s);
    } else {
      var front := batch[..|batch| - 1];
      var f := FinalizeAll(s, k, front, opening, s.now);
      FinalizeAllEmits(s, k, front, opening);
      FinalizeAllQueues(s, k, front, opening);
      FinalizeOneEmits(f, k, batch[|batch| - 1], opening);
      OnlyEmitsTrans(s, f.state, FinalizeAll(s, k, batch, opening, s.now).state);
    }
  }

  lemma StaysEmits(s: State)
    ensures OnlyEmits(s, s)
  {
  }

  lemma FinalizeEmits(s: State, k: AccountKey, batch: seq<TransferKey>)
    requires QueuesOk(s)
    ensures OnlyEmits(s, FinalizeTransfers(s, k, batch, s.now))
  {
    hide FinalizeAll, Balance, ApplyChange, QueuesOk;
    if Live(s, k).Some? {
      FinalizeAllEmits(s, k, batch, Balance(k, s.accounts[k], s.now).Floor);
    }
  }

  lemma SameEmits(s: State, s': State)
    requires s'.emitted == s.emitted && s'.applied == s.applied && s'.nextChangeId == s.nextChangeId
    ensures OnlyEmits(s, s')
  {
  }

  lemma QueueEmits(s: State, s': State)
    requires QueueStep(s, s')
    ensures s'.emitted == s.emitted && s'.applied == s.applied && s'.nextChangeId == s.nextChangeId
  {
  }

  /** Every step except the crediting of changes only emits. */
  lemma StepEmits(c: Settings, s: State, e: Event, now: int)
    requires c.Valid() && RowsOk(c, s) && QueuesOk(s) && s.now <= now && Enabled(s, e) && !e.EApply?
    ensures OnlyEmits(s.(now := now), Step(c, s, e, now))
  {
    hide *;
    var s0, s' := s.(now := now), Step(c, s, e, now);
    QueuesLater(s, now);
    StepCases(c, s, e, now);
    EventKinds(e);
    if IsAccountEvent(e) {
      AccountEventFrame(c, s, e, now);
      AccountEmits(s0, s', KeyOf(e));
    } else if IsQueueEvent(e) {
      QueueFrame(c, s, e, now);
      QueueEmits(s0, s');
      SameEmits(s0, s');
    } else {
      match e
      case EFinalize(k, batch) => FinalizeEmits(s0, k, batch);
      case EPrepare(rk, commitPeriod) =>
        PrepareKeeps(c, s0, rk, commitPeriod);
        KeepsEmits(s0, s');
        SameEmits(s0, s');
      case EPurge(k) =>
        KeepsEmits(s0, s');
        SameEmits(s0, s');
    }
  }

  lemma KeepsEmits(s: State, s': State)
    requires KeepsChanges(s, s')
    ensures s'.emitted == s.emitted && s'.applied == s.applied && s'.nextChangeId == s.nextChangeId
  {
  }

  // ---- Sums

  lemma WorthNow(a: Account, ch: BalanceChange, now: int)
    requires ch.committedAt == now && a.rateChangeTs <= now
    ensures WorthOne(a, ch, now) == ch.delta as real
  {
    hide GrowthSince;
    GrowthNow(a, now);
  }

  lemma WorthOneLater(a: Account, ch: BalanceChange, now: int, later: int)
    requires ch.committedAt <= now <= later && a.rateChangeTs <= now
    ensures Scaled(Pow(a.rate, later - now), WorthOne(a, ch, now), WorthOne(a, ch, later))
  {
    hide GrowthSince, Pow;
    GrowthLater(a, ch.committedAt, now, later);
    var x, g, y := ch.delta as real, Pow(a.rate, later - now), GrowthSince(a, ch.committedAt, now);
    assert x * (g * y) == g * (x * y);
  }

  /** What is sent now is worth its amount. */
  lemma EmittedWorth(s: State, s': State, k: AccountKey, a: Account)
    requires OnlyEmits(s, s') && QueuesOk(s) && OnceOk(s) && a.rateChangeTs <= s.now
    ensures Sum(WorthOf(s'.emitted, s'.applied, k, a, s.now))
            == Sum(WorthOf(s.emitted, s.applied, k, a, s.now)) + Sum(SentTo(s.emitted, s'.emitted, k))
  {
    hide WorthOne, QueuedOk, RegisteredOk, Distinct;
    var m, n := WorthOf(s.emitted, s.applied, k, a, s.now), SentTo(s.emitted, s'.emitted, k);
    forall ck | ck in s'.emitted && ck !in s.emitted
      ensures WorthOne(a, s'.emitted[ck], s.now) == s'.emitted[ck].delta as real && ck !in s.applied
    {
      WorthNow(a, s'.emitted[ck], s.now);
    }
    SumUnion(m, n);
    assert WorthOf(s'.emitted, s'.applied, k, a, s.now) == m + n;
  }

  /** As time passes, everything on its way grows at the current rate of the account. */
  lemma WorthLater(s: State, k: AccountKey, a: Account, now: int, later: int)
    requires EmittedOk(s.emitted, s.nextChangeId, now) && a.rateChangeTs <= now <= later
    ensures Scaled(Pow(a.rate, later - now), Sum(WorthOf(s.emitted, s.applied, k, a, now)),
                   Sum(WorthOf(s.emitted, s.applied, k, a, later)))
  {
    hide WorthOne, Pow, Scaled;
    var m, n := WorthOf(s.emitted, s.applied, k, a, now), WorthOf(s.emitted, s.applied, k, a, later);
    forall ck | ck in m
      ensures Scaled(Pow(a.rate, later - now), m[ck], n[ck])
    {
      WorthOneLater(a, s.emitted[ck], now, later);
    }
    SumScaled(m, n, Pow(a.rate, later - now));
  }

  lemma WorthNonNegative(s: State, k: AccountKey, a: Account, now: int)
    requires EmittedOk(s.emitted, s.nextChangeId, now) && 0.0 < a.rate && 0.0 < a.previousRate
    requires k.creditor != ROOT_CREDITOR_ID
    ensures 0.0 <= Sum(WorthOf(s.emitted, s.applied, k, a, now))
  {
    hide GrowthSince;
    var m := WorthOf(s.emitted, s.applied, k, a, now);
    forall ck | ck in m
      ensures 0.0 <= m[ck]
    {
      GrowthIsPositive(a, s.emitted[ck].committedAt, now);
      MulPositive(s.emitted[ck].delta as real, GrowthSince(a, s.emitted[ck].committedAt, now));
    }
    SumNonNegative(m);
  }

  /** The premise: since each amount that is still on its way was committed, the rate has not been
      changed before. */
  predicate NoEarlierChange(s: State, k: AccountKey, a: Account) {
    forall ck :: ck in s.emitted && IsDue(s.emitted, s.applied, k, ck) ==> a.rateChangeTs <= s.emitted[ck].committedAt
  }

  lemma WorthAfterChange(c: Settings, s: State, k: AccountKey, a: Account, b: Account)
    requires EmittedOk(s.emitted, s.nextChangeId, s.now) && NoEarlierChange(s, k, a) && IsRateChange(c, a, b, s.now)
    ensures WorthOf(s.emitted, s.applied, k, b, s.now) == WorthOf(s.emitted, s.applied, k, a, s.now)
  {
    hide GrowthSince;
    forall ck | ck in s.emitted && IsDue(s.emitted, s.applied, k, ck)
      ensures WorthOne(b, s.emitted[ck], s.now) == WorthOne(a, s.emitted[ck], s.now)
    {
      GrowthAfterChange(a, b, s.emitted[ck].committedAt, s.now);
    }
  }

  lemma SameWorth(s: State, k: AccountKey, a: Account, b: Account, now: int)
    requires SameRates(a, b)
    ensures WorthOf(s.emitted, s.applied, k, a, now) == WorthOf(s.emitted, s.applied, k, b, now)
  {
    hide WorthOne, IsDue, SameRates;
    forall ck | ck in s.emitted
      ensures WorthOne(a, s.emitted[ck], now) == WorthOne(b, s.emitted[ck], now)
    {
      SameWorthOne(a, b, s.emitted[ck], now);
    }
  }

  lemma SameWorthOne(a: Account, b: Account, ch: BalanceChange, now: int)
    requires SameRates(a, b)
    ensures WorthOne(a, ch, now) == WorthOne(b, ch, now)
  {
  }

  // ---- Crediting a batch

  lemma OneIsWorth(s: State, k: AccountKey, ck: ChangeKey, a: Account, now: int)
    requires QueuesOk(s) && OnceOk(s) && ck in s.queued && ck.debtor == k.debtor && s.queued[ck].creditor == k.creditor
    ensures var ch := s.queued[ck];
            Sum(WorthOf(s.emitted, s.applied + [ck], k, a, now))
            == Sum(WorthOf(s.emitted, s.applied, k, a, now))
               - (ch.delta as real + DueInterest(a, ch.delta, ch.committedAt, now))
  {
    hide GrowthSince, EmittedOk, QueuedOk, RegisteredOk, AppliedOk;
    DequeueOne(s, ck);
    var m, after := WorthOf(s.emitted, s.applied, k, a, now), s.applied + [ck];
    assert forall x :: x in after <==> x in s.applied || x == ck;
    assert WorthOf(s.emitted, after, k, a, now) == m - {ck};
    SumWithout(m, ck);
    DueParts(s.queued[ck].delta as real, GrowthSince(a, s.queued[ck].committedAt, now));
  }

  lemma ApplyOneWorth(b: Crediting, k: AccountKey, ck: ChangeKey, now: int)
    requires QueuesOk(b.state) && OnceOk(b.state) && k in b.state.accounts
    requires ck in b.state.queued ==> ck.debtor == k.debtor && b.state.queued[ck].creditor == k.creditor
    ensures var b', a := ApplyOne(b, k, ck, now), b.state.accounts[k];
            && b'.principalDelta as real + b'.interestDelta + Sum(WorthOf(b'.state.emitted, b'.state.applied, k, a, now))
               == b.principalDelta as real + b.interestDelta + Sum(WorthOf(b.state.emitted, b.state.applied, k, a, now))
            && b'.state.emitted == b.state.emitted
            && SameRates(a, b'.state.accounts[k])
            && b'.state.queued == b.state.queued - {ck}
  {
    hide QueuesOk, OnceOk, DueInterest, WorthOf, TransferSignals;
    if ck in b.state.queued {
      OneIsWorth(b.state, k, ck, b.state.accounts[k], now);
    }
  }

  /** In the middle of a batch, what has been added to the deltas is what is no longer on its way. */
  lemma {:induction false} ApplyAllWorth(s: State, k: AccountKey, batch: seq<ChangeKey>)
    requires QueuesOk(s) && OnceOk(s) && k in s.accounts
    requires forall ck <- batch :: ck in s.queued && ck.debtor == k.debtor && s.queued[ck].creditor == k.creditor
    ensures var b, a := ApplyAll(s, k, batch, s.now), s.accounts[k];
            && b.principalDelta as real + b.interestDelta + Sum(WorthOf(s.emitted, b.state.applied, k, a, s.now))
               == Sum(WorthOf(s.emitted, s.applied, k, a, s.now))
            && b.state.emitted == s.emitted && SameRates(a, b.state.accounts[k])
            && forall ck :: ck in b.state.queued ==> ck in s.queued && b.state.queued[ck] == s.queued[ck]
  {
    hide QueuesOk, OnceOk, WorthOf, ApplyOne;
    if batch != [] {
      var front, ck := batch[..|batch| - 1], batch[|batch| - 1];
      var b := ApplyAll(s, k, front, s.now);
      ApplyAllWorth(s, k, front);
      ApplyAllQueues(s, k, front);
      SameWorth(b.state, k, s.accounts[k], b.state.accounts[k], s.now);
      ApplyOneWorth(b, k, ck, s.now);
      SameWorth(ApplyAll(s, k, batch, s.now).state, k, s.accounts[k], b.state.accounts[k], s.now);
    }
  }

  // ---- The ideal ledger

  /** A ledger balance grows at the rate of the account, if it is positive. */
  function Accrued(balance: real, rate: real, passed: nat): real {
    if balance > 0.0 then balance * Pow(rate, passed) else balance
  }

  /** The account as it would be if every amount were credited in the moment of its commit: a balance
      at the time of its last change, and the rate at which it grows.  The moves of the ledger are
      computed from the events and from what they send, not from the row of the account. */
  datatype Ledger = Ledger(balance: real, rate: real, since: int)

  function LedgerValue(l: Ledger, now: int): real {
    Accrued(l.balance, l.rate, Elapsed(l.since, now))
  }

  /** What a step adds to the ledger: its own move, and the amounts that are committed in it. */
  ghost function Received(s: State, e: Event, s': State, k: AccountKey): real {
    OwnMove(s, e, s', k) + Sum(SentTo(s.emitted, s'.emitted, k))
  }

  /** The ledger after a step.  Interest is folded in when something changes; but an update of the
      debtor's info moves the time of the last change without folding, as in the program. */
  ghost function NextLedger(l: Ledger, s: State, e: Event, s': State, k: AccountKey): Ledger {
    var now, amount, rate := s'.now, Received(s, e, s', k), RowOf(s', k).rate;
    if TakesInfo(s, e, now, k) then l.(since := Max(l.since, now))
    else if amount == 0.0 && rate == l.rate && !IsFolded(s, e, s', k) then l
    else Ledger(LedgerValue(l, now) + amount, rate, now)
  }

  /** Whether the step makes a new version of the row, other than by a late credit. */
  predicate IsFolded(s: State, e: Event, s': State, k: AccountKey) {
    RowOf(s', k).changes != RowOf(s, k).changes && !(e.EApply? && e.key == k)
  }

  /** No interest is due on the ledger. */
  predicate NothingAccruedIn(l: Ledger, now: int) {
    now <= l.since || l.balance <= 0.0 || l.rate == 1.0
  }

  /** The premise about an update of the debtor's info: no interest is due, neither on the account nor
      on the ledger. */
  predicate IsFree(l: Ledger, s: State, e: Event, now: int, k: AccountKey) {
    TakesInfo(s, e, now, k) ==> NothingAccrued(s.accounts[k], now) && NothingAccruedIn(l, now)
  }

  /** The premises about one step: nothing is on its way when the account is purged, and the rate
      is not changed twice while an amount is on its way. */
  predicate IsTimely(s: State, s': State, k: AccountKey) {
    && (k in s.accounts && k !in s'.accounts ==> forall ck :: ck in s.emitted ==> !IsDue(s.emitted, s.applied, k, ck))
    && (RowOf(s', k).rateChangeTs != RowOf(s, k).rateChangeTs ==> NoEarlierChange(s, k, RowOf(s, k)))
  }

  lemma AccruedSum(balance: real, worth: real, rate: real, passed: nat, later: real)
    requires 0.0 <= balance && 0.0 <= worth && Scaled(Pow(rate, passed), worth, later)
    ensures Accrued(balance + worth, rate, passed) == Accrued(balance, rate, passed) + later
  {
    hide Pow;
    var g := Pow(rate, passed);
    assert (balance + worth) * g == balance * g + worth * g;
    assert balance == 0.0 ==> balance * g == 0.0;
    assert worth == 0.0 ==> worth * g == 0.0;
  }

  lemma RowRates(c: Settings, s: State, k: AccountKey)
    requires c.Valid() && RowsOk(c, s)
    ensures var a := RowOf(s, k);
            && 0.0 < a.rate && 0.0 < a.previousRate && a.rateChangeTs <= s.now && a.lastChangeTs <= s.now
  {
  }

  /** Between two steps the account and what is on its way to it grow as the ideal ledger does. */
  lemma TimePasses(c: Settings, s: State, k: AccountKey, now: int)
    requires c.Valid() && RowsOk(c, s) && QueuesOk(s) && s.now <= now && k.creditor != ROOT_CREDITOR_ID
    requires 0.0 <= Balance(k, RowOf(s, k), s.now)
    ensures var a := RowOf(s, k);
            Accrued(Balance(k, a, s.now) + Worth(s, k, s.now), a.rate, Elapsed(s.now, now))
            == Balance(k, a, now) + Sum(WorthOf(s.emitted, s.applied, k, a, now))
  {
    hide RowsOk, QueuedOk, RegisteredOk, WorthOf, Balance, RowOf, Pow;
    var a := RowOf(s, k);
    RowRates(c, s, k);
    GrowsFrom(k, a, s.now, now);
    WorthNonNegative(s, k, a, s.now);
    WorthLater(s, k, a, s.now, now);
    AccruedSum(Balance(k, a, s.now), Worth(s, k, s.now), a.rate, Elapsed(s.now, now),
               Sum(WorthOf(s.emitted, s.applied, k, a, now)));
  }

  /** Crediting a batch late gives the account what was on its way. */
  lemma ApplyWorth(c: Settings, s: State, k: AccountKey, batch: seq<ChangeKey>)
    requires c.Valid() && RowsOk(c, s) && QueuesOk(s) && OnceOk(s) && k.creditor != ROOT_CREDITOR_ID
    requires forall ck <- batch :: ck in s.queued && ck.debtor == k.debtor && s.queued[ck].creditor == k.creditor
    requires Unclipped(ApplyChanges(s, k, batch, s.now), k)
    ensures var s' := ApplyChanges(s, k, batch, s.now);
            && Balance(k, RowOf(s', k), s.now) + Worth(s', k, s.now) == Balance(k, RowOf(s, k), s.now) + Worth(s, k, s.now)
            && s'.emitted == s.emitted
  {
    hide RowsOk, QueuesOk, OnceOk, WorthOf, Balance, ApplyAll, ApplyChange, LockOrCreate, AccountStep, NewAccount;
    if batch != [] {
      var s1 := LockOrCreate(s, k, s.now);
      LockBalance(c, s, k);
      LockOrCreateFrame(s, k);
      AccountStepTables(s, s1, k);
      NoPaymentEmission(s, s1, k);
      AccountQueues(s, s1, k);
      LockRates(c, s, k, k, EApply(k, batch));
      SameWorth(s, k, RowOf(s, k), RowOf(s1, k), s.now);
      LockRows(c, s, k);
      ApplyAllBalance(c, s1, k, batch);
      ApplyAllWorth(s1, k, batch);
      var b := ApplyAll(s1, k, batch, s.now);
      FoldedBalance(k, b.state.accounts[k], b.principalDelta, b.interestDelta, s.now);
      FoldedRates(k, b.state.accounts[k], b.principalDelta, b.interestDelta, s.now);
      SameWorth(b.state, k, s1.accounts[k], b.state.accounts[k], s.now);
      SameWorth(b.state, k, b.state.accounts[k], RowOf(ApplyChanges(s, k, batch, s.now), k), s.now);
    }
  }

  /** Crediting another account settles nothing that is on its way to this one. */
  lemma {:induction false} OtherApplied(s: State, j: AccountKey, batch: seq<ChangeKey>, k: AccountKey, a: Account)
    requires QueuesOk(s) && j in s.accounts && j != k
    requires forall ck <- batch :: ck in s.queued && ck.debtor == j.debtor && s.queued[ck].creditor == j.creditor
    ensures var s' := ApplyAll(s, j, batch, s.now).state;
            && s'.emitted == s.emitted
            && WorthOf(s.emitted, s'.applied, k, a, s.now) == WorthOf(s.emitted, s.applied, k, a, s.now)
            && forall ck :: ck in s'.queued ==> ck in s.queued && s'.queued[ck] == s.queued[ck]
  {
    hide QueuesOk, WorthOf, ApplyOne;
    if batch != [] {
      var front, ck := batch[..|batch| - 1], batch[|batch| - 1];
      OtherApplied(s, j, front, k, a);
      ApplyAllQueues(s, j, front);
      OtherAppliedOne(ApplyAll(s, j, front, s.now), j, ck, k, a);
    }
  }

  lemma OtherAppliedOne(b: Crediting, j: AccountKey, ck: ChangeKey, k: AccountKey, a: Account)
    requires QueuesOk(b.state) && j in b.state.accounts && j != k
    requires ck in b.state.queued ==> ck.debtor == j.debtor && b.state.queued[ck].creditor == j.creditor
    ensures var s, s' := b.state, ApplyOne(b, j, ck, b.state.now).state;
            && s'.emitted == s.emitted && s'.queued == s.queued - {ck}
            && WorthOf(s.emitted, s'.applied, k, a, s.now) == WorthOf(s.emitted, s.applied, k, a, s.now)
  {
    hide EmittedOk, QueuedOk, RegisteredOk, DueInterest, TransferSignals, WorthOne, Numbered;
    var s, s' := b.state, ApplyOne(b, j, ck, b.state.now).state;
    if ck in s.queued {
      DequeueOne(s, ck);
      assert forall x :: x in s'.applied <==> x in s.applied || x == ck;
    }
  }

  lemma OtherApplyWorth(c: Settings, s: State, j: AccountKey, batch: seq<ChangeKey>, k: AccountKey)
    requires c.Valid() && QueuesOk(s) && j != k
    requires forall ck <- batch :: ck in s.queued && ck.debtor == j.debtor && s.queued[ck].creditor == j.creditor
    ensures var s' := ApplyChanges(s, j, batch, s.now);
            && Worth(s', k, s.now) == Worth(s, k, s.now) && s'.emitted == s.emitted
  {
    hide QueuesOk, WorthOf, ApplyAll, ApplyChange, LockOrCreate, AccountStep, NewAccount;
    ApplyRates(c, s, j, batch, k);
    if batch != [] {
      var s1 := LockOrCreate(s, j, s.now);
      LockOrCreateFrame(s, j);
      AccountStepTables(s, s1, j);
      NoPaymentEmission(s, s1, j);
      AccountQueues(s, s1, j);
      OtherApplied(s1, j, batch, k, RowOf(s, k));
    }
  }

  lemma NothingSent(s: State, s': State, k: AccountKey)
    requires s'.emitted == s.emitted
    ensures Sum(SentTo(s.emitted, s'.emitted, k)) == 0.0
  {
    SumOfNone(SentTo(s.emitted, s'.emitted, k));
  }

  // ---- Every step

  lemma RowLater(c: Settings, s: State, k: AccountKey, now: int)
    ensures Balance(k, RowOf(s.(now := now), k), now) == Balance(k, RowOf(s, k), now)
    ensures SameRates(RowOf(s, k), RowOf(s.(now := now), k))
  {
    hide Pow;
  }

  /** What is on its way is worth the same under the new row, whatever the step has done to it. */
  lemma WorthOfNewRow(c: Settings, s: State, s': State, e: Event, k: AccountKey)
    requires c.Valid() && RowsOk(c, s) && QueuesOk(s) && IsTimely(s, s', k)
    requires !(k in s.accounts && k !in s'.accounts) ==> RatesKept(c, RowOf(s, k), RowOf(s', k), e, s.now)
    ensures WorthOf(s.emitted, s.applied, k, RowOf(s', k), s.now) == WorthOf(s.emitted, s.applied, k, RowOf(s, k), s.now)
  {
    hide RowsOk, QueuedOk, RegisteredOk, WorthOf, NewAccount;
    if k in s.accounts && k !in s'.accounts {
      NothingDue(s, k, RowOf(s, k), s.now);
      NothingDue(s, k, RowOf(s', k), s.now);
    } else if SameRates(RowOf(s, k), RowOf(s', k)) {
      SameWorth(s, k, RowOf(s, k), RowOf(s', k), s.now);
    } else {
      WorthAfterChange(c, s, k, RowOf(s, k), RowOf(s', k));
    }
  }

  lemma NothingDue(s: State, k: AccountKey, a: Account, now: int)
    requires forall ck :: ck in s.emitted ==> !IsDue(s.emitted, s.applied, k, ck)
    ensures WorthOf(s.emitted, s.applied, k, a, now) == map[]
  {
    hide WorthOne;
  }

  /** A step adds its own move, and what it sends, to the balance with all that is on its way. */
  lemma WorthStep(c: Settings, s: State, e: Event, now: int, k: AccountKey)
    requires c.Valid() && RowsOk(c, s) && QueuesOk(s) && OnceOk(s) && s.now <= now && Enabled(s, e)
    requires k.creditor != ROOT_CREDITOR_ID && 0.0 <= Balance(k, RowOf(s, k), s.now)
    requires Unclipped(Step(c, s, e, now), k) && IsTimely(s, Step(c, s, e, now), k)
    requires TakesInfo(s, e, now, k) ==> NothingAccrued(s.accounts[k], now)
    ensures var s' := Step(c, s, e, now);
            Balance(k, RowOf(s', k), now) + Worth(s', k, now)
            == Accrued(Balance(k, RowOf(s, k), s.now) + Worth(s, k, s.now), RowOf(s, k).rate, Elapsed(s.now, now))
               + Received(s, e, s', k)
  {
    hide RowsOk, QueuesOk, OnceOk, WorthOf, Balance, Step, Enabled, RowOf, Accrued, IsTimely, Unclipped, SentTo,
         OwnMove, TakesInfo, NothingAccrued;
    var s0, s' := s.(now := now), Step(c, s, e, now);
    StepClock(c, s, e, now);
    TimePasses(c, s, k, now);
    RowLater(c, s, k, now);
    SameWorth(s, k, RowOf(s, k), RowOf(s0, k), now);
    if e.EApply? {
      ApplyStep(c, s, e, now, k);
    } else {
      BalanceMoves(c, s, e, now, k);
      SendStep(c, s, e, now, k);
    }
  }

  /** What a step sends is on its way, and everything else there keeps its worth. */
  lemma SendStep(c: Settings, s: State, e: Event, now: int, k: AccountKey)
    requires c.Valid() && RowsOk(c, s) && QueuesOk(s) && OnceOk(s) && s.now <= now && Enabled(s, e) && !e.EApply?
    requires IsTimely(s, Step(c, s, e, now), k)
    ensures var s0, s' := s.(now := now), Step(c, s, e, now);
            Worth(s', k, now) == Worth(s0, k, now) + Sum(SentTo(s.emitted, s'.emitted, k))
  {
    hide RowsOk, QueuesOk, OnceOk, WorthOf, Step, Enabled, RowOf, IsTimely, SentTo;
    var s0, s' := s.(now := now), Step(c, s, e, now);
    StepClock(c, s, e, now);
    RowsLater(c, s, now);
    QueuesLater(s, now);
    TimelyLater(s, now, s', k);
    if !(k in s.accounts && k !in s'.accounts) {
      RatesUnlessPurged(c, s, e, now, k);
      RatesOfRow(c, s, e, now, k);
    }
    WorthOfNewRow(c, s0, s', e, k);
    StepEmits(c, s, e, now);
    NewRateTime(c, s, e, now, k);
    EmittedWorth(s0, s', k, RowOf(s', k));
  }

  lemma RatesUnlessPurged(c: Settings, s: State, e: Event, now: int, k: AccountKey)
    requires c.Valid() && RowsOk(c, s) && s.now <= now && Enabled(s, e)
    requires k in s.accounts ==> k in Step(c, s, e, now).accounts
    ensures RatesKept(c, RowOf(s, k), RowOf(Step(c, s, e, now), k), e, now)
  {
    hide Step, Enabled, RowsOk, RatesKept, CanBePurged;
    if e == EPurge(k) {
      StepCases(c, s, e, now);
      RatesLater(s, now, k);
      RatesMeaning(c, RowOf(s, k), e, now);
    } else {
      RatesStep(c, s, e, now, k);
    }
  }

  lemma RatesOfRow(c: Settings, s: State, e: Event, now: int, k: AccountKey)
    requires Enabled(s, e) && RatesKept(c, RowOf(s, k), RowOf(Step(c, s, e, now), k), e, now)
    ensures RatesKept(c, RowOf(s.(now := now), k), RowOf(Step(c, s, e, now), k), e, now)
  {
    hide Step, Enabled;
  }

  lemma TimelyLater(s: State, now: int, s': State, k: AccountKey)
    requires IsTimely(s, s', k)
    ensures IsTimely(s.(now := now), s', k)
  {
    assert SameRates(RowOf(s, k), RowOf(s.(now := now), k));
  }

  lemma NewRateTime(c: Settings, s: State, e: Event, now: int, k: AccountKey)
    requires c.Valid() && RowsOk(c, s) && s.now <= now && Enabled(s, e)
    ensures RowOf(Step(c, s, e, now), k).rateChangeTs <= now
  {
    hide Step, Enabled, RowsOk, RowOf;
    RowsStep(c, s, e, now);
    StepClock(c, s, e, now);
    RowRates(c, Step(c, s, e, now), k);
  }

  lemma ApplyStep(c: Settings, s: State, e: Event, now: int, k: AccountKey)
    requires c.Valid() && RowsOk(c, s) && QueuesOk(s) && OnceOk(s) && s.now <= now && Enabled(s, e) && e.EApply?
    requires k.creditor != ROOT_CREDITOR_ID && Unclipped(Step(c, s, e, now), k)
    ensures var s0, s' := s.(now := now), Step(c, s, e, now);
            && s'.now == now
            && Balance(k, RowOf(s', k), now) + Worth(s', k, now)
               == Balance(k, RowOf(s0, k), now) + Worth(s0, k, now) + Received(s, e, s', k)
  {
    BatchIsDue(s, e, now);
    var s0, s' := s.(now := now), Step(c, s, e, now);
    NothingReceived(s, e, s', k);
    hide *;
    StepCases(c, s, e, now);
    StepClock(c, s, e, now);
    RowsLater(c, s, now);
    QueuesLater(s, now);
    if e.key == k {
      ApplyWorth(c, s0, k, e.changes);
    } else {
      ApplyRates(c, s0, e.key, e.changes, k);
      OtherApplyWorth(c, s0, e.key, e.changes, k);
    }
  }

  lemma NothingReceived(s: State, e: Event, s': State, k: AccountKey)
    requires e.EApply?
    ensures s'.emitted == s.emitted ==> Received(s, e, s', k) == 0.0
  {
    if s'.emitted == s.emitted {
      NothingSent(s, s', k);
    }
    hide SentTo;
  }

  lemma BatchIsDue(s: State, e: Event, now: int)
    requires Enabled(s, e) && e.EApply?
    ensures var s0 := s.(now := now);
            forall ck <- e.changes :: ck in s0.queued && ck.debtor == e.key.debtor && s0.queued[ck].creditor == e.key.creditor
  {
  }

  // ---- The ledger and the account

  /** The ledger keeps up with the account: it is worth the balance with all that is on its way. */
  ghost predicate KeepsUp(l: Ledger, s: State, k: AccountKey) {
    && LedgerValue(l, s.now) == Balance(k, RowOf(s, k), s.now) + Worth(s, k, s.now)
    && l.rate == RowOf(s, k).rate && l.since <= s.now
  }

  lemma LedgerLater(l: Ledger, now: int, later: int)
    requires 0.0 < l.rate && l.since <= now <= later
    ensures LedgerValue(l, later) == Accrued(LedgerValue(l, now), l.rate, Elapsed(now, later))
  {
    hide Pow;
    PowAdd(l.rate, now - l.since, later - now);
    PowPositive(l.rate, now - l.since);
    Split(l.balance, Pow(l.rate, now - l.since), Pow(l.rate, later - now));
    SignKept(l.balance, Pow(l.rate, now - l.since));
  }

  lemma LedgerNow(balance: real, rate: real, now: int)
    ensures LedgerValue(Ledger(balance, rate, now), now) == balance
  {
    NoTime(balance, rate);
  }

  /** An update of the debtor's info keeps the value of the ledger exactly when no interest is due. */
  lemma InfoKeepsLedger(l: Ledger, now: int)
    requires 0.0 < l.rate
    ensures LedgerValue(l.(since := Max(l.since, now)), now) == LedgerValue(l, now) <==> NothingAccruedIn(l, now)
  {
    hide Pow;
    NoTime(l.balance, l.rate);
    if l.since < now && l.balance > 0.0 {
      PowSign(l.rate, now - l.since);
      GrowthIsOne(l.balance, Pow(l.rate, now - l.since), 1.0);
    }
  }

  /** Late crediting is exact in one step: the ledger keeps up with the account. */
  lemma LateStep(c: Settings, l: Ledger, s: State, e: Event, now: int, k: AccountKey)
    requires c.Valid() && RowsOk(c, s) && QueuesOk(s) && OnceOk(s) && s.now <= now && Enabled(s, e)
    requires k.creditor != ROOT_CREDITOR_ID && 0.0 <= Balance(k, RowOf(s, k), s.now)
    requires Unclipped(Step(c, s, e, now), k) && IsTimely(s, Step(c, s, e, now), k) && IsFree(l, s, e, now, k)
    requires KeepsUp(l, s, k)
    ensures KeepsUp(NextLedger(l, s, e, Step(c, s, e, now), k), Step(c, s, e, now), k)
  {
    hide RowsOk, QueuesOk, OnceOk, Worth, Balance, Step, Enabled, RowOf, Accrued, IsTimely, Unclipped, Received,
         TakesInfo, NothingAccrued, NothingAccruedIn, LedgerValue, IsFolded;
    var s' := Step(c, s, e, now);
    StepClock(c, s, e, now);
    WorthStep(c, s, e, now, k);
    RowRates(c, s, k);
    LedgerLater(l, s.now, now);
    LedgerNow(LedgerValue(l, now) + Received(s, e, s', k), RowOf(s', k).rate, now);
    if TakesInfo(s, e, now, k) {
      InfoKeepsLedger(l, now);
      InfoReceivesNothing(c, s, e, now, k);
    }
  }

  lemma InfoReceivesNothing(c: Settings, s: State, e: Event, now: int, k: AccountKey)
    requires c.Valid() && RowsOk(c, s) && s.now <= now && Enabled(s, e) && TakesInfo(s, e, now, k)
    ensures Received(s, e, Step(c, s, e, now), k) == 0.0
    ensures RowOf(Step(c, s, e, now), k).rate == RowOf(s, k).rate
  {
    hide Step, Enabled, RowsOk, UpdateDebtorInfo, NewAccount, SentTo, RatesKept;
    var s' := Step(c, s, e, now);
    StepCases(c, s, e, now);
    InfoSendsNothing(s.(now := now), k, e.info, e.ts);
    NothingSent(s, s', k);
    MoveOf(s, e, s', k);
  }

  lemma InfoSendsNothing(s: State, k: AccountKey, info: Option<string>, ts: int)
    requires k in s.accounts
    ensures var s' := UpdateDebtorInfo(s, k, info, ts, s.now);
            s'.emitted == s.emitted && k in s'.accounts && s'.accounts[k].rate == s.accounts[k].rate
  {
    hide UpdateOf;
  }

  /** If no interest is due on the account, then the ledger keeps up through an update of the debtor's
      info if and only if no interest is due on the ledger either: otherwise the amounts on their way
      make late crediting differ from prompt crediting. */
  lemma LateInfoIsExact(c: Settings, l: Ledger, s: State, e: Event, now: int, k: AccountKey)
    requires c.Valid() && RowsOk(c, s) && QueuesOk(s) && OnceOk(s) && s.now <= now && Enabled(s, e)
    requires k.creditor != ROOT_CREDITOR_ID && 0.0 <= Balance(k, RowOf(s, k), s.now)
    requires Unclipped(Step(c, s, e, now), k) && IsTimely(s, Step(c, s, e, now), k)
    requires TakesInfo(s, e, now, k) && NothingAccrued(s.accounts[k], now) && KeepsUp(l, s, k)
    ensures KeepsUp(NextLedger(l, s, e, Step(c, s, e, now), k), Step(c, s, e, now), k) <==> NothingAccruedIn(l, now)
  {
    hide RowsOk, QueuesOk, OnceOk, Worth, Balance, Step, Enabled, RowOf, Accrued, IsTimely, Unclipped, Received,
         TakesInfo, NothingAccrued, NothingAccruedIn, LedgerValue, IsFolded;
    StepClock(c, s, e, now);
    WorthStep(c, s, e, now, k);
    RowRates(c, s, k);
    LedgerLater(l, s.now, now);
    InfoKeepsLedger(l, now);
    InfoReceivesNothing(c, s, e, now, k);
  }
}
