/** How interest accrues on one account: folding it into the row, at whatever moments, does not
    change the balance at any later moment.  One procedure is an exception. */
module Accrual {
  import opened Growth
  import opened Models
  import opened Steps

  /** Folding deltas into a row changes its balance by the deltas, unless the principal is clipped. */
  lemma FittingBalance(k: AccountKey, a: Account, delta: int, interestDelta: real, now: int)
    requires k.creditor != ROOT_CREDITOR_ID && a.lastChangeTs <= now
    requires -MAX_INT64 <= a.principal + delta <= MAX_INT64
    ensures Balance(k, ApplyChange(k, a, delta, interestDelta, now), now)
            == Balance(k, a, now) + delta as real + interestDelta
  {
    var b := ApplyChange(k, a, delta, interestDelta, now);
    assert b.lastChangeTs == now && Pow(b.rate, 0) == 1.0;
    assert b.principal as real + b.interest == Balance(k, a, now) + delta as real + interestDelta;
  }

  lemma FoldedBalance(k: AccountKey, a: Account, delta: int, interestDelta: real, now: int)
    requires k.creditor != ROOT_CREDITOR_ID && a.lastChangeTs <= now
    requires !ApplyChange(k, a, delta, interestDelta, now).overflown
    ensures Balance(k, ApplyChange(k, a, delta, interestDelta, now), now)
            == Balance(k, a, now) + delta as real + interestDelta
  {
    hide Balance, AccumulatedInterest;
    FittingBalance(k, a, delta, interestDelta, now);
  }

  /** The balance depends only on these five columns. */
  lemma SameBalance(k: AccountKey, a: Account, b: Account, now: int)
    requires b.principal == a.principal && b.interest == a.interest && b.rate == a.rate
    requires b.lastChangeTs == a.lastChangeTs
    ensures Balance(k, b, now) == Balance(k, a, now)
  {
  }

  lemma RateChangedBalance(k: AccountKey, a: Account, rate: real, now: int)
    requires k.creditor != ROOT_CREDITOR_ID && a.lastChangeTs <= now
    ensures Balance(k, RateChanged(k, a, rate, now), now) == Balance(k, a, now)
  {
    var b := RateChanged(k, a, rate, now);
    assert b.lastChangeTs == now && Pow(b.rate, 0) == 1.0;
    assert b.principal as real + b.interest == Balance(k, a, now);
  }

  lemma EmptyBalance(k: AccountKey, a: Account, now: int)
    requires a.principal == 0 && a.interest == 0.0
    ensures Balance(k, a, now) == 0.0
  {
  }

  // ---- The balance at later moments

  lemma Split(start: real, g: real, h: real)
    ensures start * (g * h) == (start * g) * h
  {
  }

  lemma SignKept(start: real, g: real)
    requires 0.0 < g
    ensures start > 0.0 <==> start * g > 0.0
  {
  }

  /** The balance at a later moment is determined by the balance now. */
  lemma GrowsFrom(k: AccountKey, a: Account, now: int, later: int)
    requires k.creditor != ROOT_CREDITOR_ID && 0.0 < a.rate && a.lastChangeTs <= now <= later
    ensures Balance(k, a, later)
            == if Balance(k, a, now) > 0.0 then Balance(k, a, now) * Pow(a.rate, later - now) else Balance(k, a, now)
  {
    hide Pow;
    var start := a.principal as real + a.interest;
    PowAdd(a.rate, now - a.lastChangeTs, later - now);
    PowPositive(a.rate, now - a.lastChangeTs);
    Split(start, Pow(a.rate, now - a.lastChangeTs), Pow(a.rate, later - now));
    SignKept(start, Pow(a.rate, now - a.lastChangeTs));
  }

  /** What the balance is: the principal for the debtor's own account; and for all others the principal with
      the interest at the time of the last change, multiplied by the rate in each moment after it, if
      positive. */
  lemma BalanceFollowsRate(k: AccountKey, a: Account, now: int)
    requires 0.0 < a.rate
    ensures k.creditor == ROOT_CREDITOR_ID ==> Balance(k, a, now) == a.principal as real
    ensures k.creditor != ROOT_CREDITOR_ID && now <= a.lastChangeTs ==>
              Balance(k, a, now) == a.principal as real + a.interest
    ensures k.creditor != ROOT_CREDITOR_ID && a.lastChangeTs <= now ==>
              var balance := Balance(k, a, now);
              Balance(k, a, now + 1) == if balance > 0.0 then balance * a.rate else balance
  {
    NoTime(a.principal as real + a.interest, a.rate);
    if k.creditor != ROOT_CREDITOR_ID && a.lastChangeTs <= now {
      GrowsFrom(k, a, now, now + 1);
      OneTick(a.rate);
    }
    hide Pow;
  }

  lemma OneTick(q: real)
    ensures Pow(q, 1) == q && Pow(q, 0) == 1.0
  {
    assert Pow(q, 1) == q * Pow(q, 0);
  }

  /** What the interest due on an amount is: nothing in the moment of the commit; and in each moment after it
      the amount with its interest is multiplied by the rate, or by the previous rate before its change. */
  lemma DueInterestFollowsRates(a: Account, amount: int, due: int, now: int)
    ensures now <= due ==> DueInterest(a, amount, due, now) == 0.0
    ensures due <= now ==>
              var rate := if now < a.rateChangeTs then a.previousRate else a.rate;
              amount as real + DueInterest(a, amount, due, now + 1)
              == (amount as real + DueInterest(a, amount, due, now)) * rate
  {
    OneTick(a.rate);
    OneTick(a.previousRate);
    if due <= now {
      var x, y, z := amount as real, GrowthSince(a, due, now), if now < a.rateChangeTs then a.previousRate else a.rate;
      OneMoreTick(a, due, now);
      DueParts(x, y);
      DueParts(x, y * z);
      assert x * (y * z) == (x * y) * z;
    }
    hide Pow;
  }

  lemma DueParts(x: real, g: real)
    ensures x + x * (g - 1.0) == x * g
  {
  }

  lemma OneMoreTick(a: Account, due: int, now: int)
    requires due <= now
    ensures GrowthSince(a, due, now + 1)
            == GrowthSince(a, due, now) * if now < a.rateChangeTs then a.previousRate else a.rate
  {
    hide Pow;
    OneTick(a.rate);
    OneTick(a.previousRate);
    if now < a.rateChangeTs {
      PowAdd(a.previousRate, now - due, 1);
    } else if a.rateChangeTs <= due {
      PowAdd(a.rate, now - due, 1);
    } else {
      PowAdd(a.rate, now - a.rateChangeTs, 1);
      var x, y := Pow(a.previousRate, a.rateChangeTs - due), Pow(a.rate, now - a.rateChangeTs);
      assert x * (y * a.rate) == (x * y) * a.rate;
    }
  }

  lemma NoTime(start: real, q: real)
    ensures start * Pow(q, 0) == start
  {
  }

  /** A row into which the interest has been folded at `mid`. */
  predicate IsRebased(k: AccountKey, a: Account, b: Account, mid: int) {
    && b.principal as real + b.interest == Balance(k, a, mid)
    && b.rate == a.rate && b.lastChangeTs == Max(a.lastChangeTs, mid)
  }

  lemma RebasedBalance(k: AccountKey, a: Account, b: Account, mid: int, later: int)
    requires k.creditor != ROOT_CREDITOR_ID && 0.0 < a.rate && mid <= later && IsRebased(k, a, b, mid)
    ensures Balance(k, b, later) == Balance(k, a, later)
  {
    hide Pow;
    var start := a.principal as real + a.interest;
    NoTime(start, a.rate);
    if a.lastChangeTs <= mid {
      GrowsFrom(k, a, mid, later);
    } else {
      assert Balance(k, a, mid) == start;
    }
  }

  // ---- Path independence

  /** Occasions on which the interest is folded into the row, and nothing else happens to money. */
  datatype Touch =
    | ZeroChange(ts: int)
    | SameRate(ts: int)
    | NewConfig(message: Configuration, ts: int)

  function TouchOne(k: AccountKey, a: Account, t: Touch): Account {
    match t
    case ZeroChange(ts) => ApplyChange(k, a, 0, 0.0, ts)
    case SameRate(ts) => RateChanged(k, a, a.rate, ts)
    case NewConfig(m, ts) => Configured(k, a, m, ts)
  }

  function TouchAll(k: AccountKey, a: Account, touches: seq<Touch>): Account {
    if touches == [] then a
    else TouchOne(k, TouchAll(k, a, touches[..|touches| - 1]), touches[|touches| - 1])
  }

  lemma TouchIsRebase(k: AccountKey, a: Account, t: Touch)
    requires -MAX_INT64 <= a.principal <= MAX_INT64
    ensures IsRebased(k, a, TouchOne(k, a, t), t.ts)
    ensures TouchOne(k, a, t).principal == a.principal && TouchOne(k, a, t).rate == a.rate
  {
  }

  /** Accrual is path independent: folding the interest any number of times, at any moments,
      leaves the balance at every later moment unchanged, be it positive or not. */
  lemma {:induction false} AccrualIsPathIndependent(k: AccountKey, a: Account, touches: seq<Touch>, later: int)
    requires -MAX_INT64 <= a.principal <= MAX_INT64 && 0.0 < a.rate && forall t <- touches :: t.ts <= later
    ensures var b := TouchAll(k, a, touches);
            Balance(k, b, later) == Balance(k, a, later) && b.principal == a.principal && b.rate == a.rate
  {
    hide Balance, IsRebased, TouchOne;
    if touches != [] {
      var front, last := touches[..|touches| - 1], touches[|touches| - 1];
      AccrualIsPathIndependent(k, a, front, later);
      TouchIsRebase(k, TouchAll(k, a, front), last);
      if k.creditor == ROOT_CREDITOR_ID {
        RootBalance(k, TouchAll(k, a, front), TouchAll(k, a, touches), later);
      } else {
        RebasedBalance(k, TouchAll(k, a, front), TouchAll(k, a, touches), last.ts, later);
      }
    }
  }

  /** Interest on the debtor's own account has no effect. */
  lemma RootBalance(k: AccountKey, a: Account, b: Account, now: int)
    requires k.creditor == ROOT_CREDITOR_ID && b.principal == a.principal
    ensures Balance(k, a, now) == Balance(k, b, now) == a.principal as real
    ensures AccumulatedInterest(k, a, now) == 0.0
  {
  }

  // ---- The exception

  /** Whether no interest is due between the last change and now. */
  predicate NothingAccrued(a: Account, now: int) {
    now <= a.lastChangeTs || a.principal as real + a.interest <= 0.0 || a.rate == 1.0
  }

  lemma GrowthIsOne(start: real, g: real, h: real)
    requires 0.0 < start && 0.0 < h
    ensures start * h == start * (g * h) <==> g == 1.0
  {
    if g < 1.0 {
      MulLess(g, 1.0, h);
      MulLess(g * h, h, start);
    } else if g > 1.0 {
      MulLess(1.0, g, h);
      MulLess(h, g * h, start);
    }
  }

  lemma MulLess(x: real, y: real, z: real)
    requires x < y && 0.0 < z
    ensures x * z < y * z && z * x < z * y
  {
  }

  /** `update_debtor_info` moves the time of the last change, but folds no interest.  It keeps the
      balance at a later moment if and only if no interest is due: no time has passed, or the
      balance is not positive, or the rate is zero. */
  lemma DebtorInfoKeepsBalance(s: State, k: AccountKey, info: Option<string>, ts: int, now: int, later: int)
    requires k.creditor != ROOT_CREDITOR_ID && Live(s, k).Some? && 0.0 < s.accounts[k].rate
    requires now - ts <= DAY && s.accounts[k].debtorInfo != info && now <= later
    requires s.accounts[k].lastChangeTs <= later
    ensures var s' := UpdateDebtorInfo(s, k, info, ts, now);
            && k in s'.accounts
            && (Balance(k, s'.accounts[k], later) == Balance(k, s.accounts[k], later)
                <==> NothingAccrued(s.accounts[k], now))
  {
    hide Pow, UpdateOf;
    var a := s.accounts[k];
    var start := a.principal as real + a.interest;
    if now > a.lastChangeTs && start > 0.0 {
      var g, h := Pow(a.rate, now - a.lastChangeTs), Pow(a.rate, later - now);
      PowAdd(a.rate, now - a.lastChangeTs, later - now);
      PowPositive(a.rate, later - now);
      PowSign(a.rate, now - a.lastChangeTs);
      GrowthIsOne(start, g, h);
      assert Balance(k, a, later) == start * (g * h);
      assert Balance(k, UpdateDebtorInfo(s, k, info, ts, now).accounts[k], later) == start * h;
    }
  }

  /** At a positive rate the update takes from every later balance what has accrued before it. */
  lemma InterestIsLost(s: State, k: AccountKey, info: Option<string>, ts: int, now: int, later: int)
    requires k.creditor != ROOT_CREDITOR_ID && Live(s, k).Some? && 1.0 < s.accounts[k].rate
    requires now - ts <= DAY && s.accounts[k].debtorInfo != info && now <= later && s.accounts[k].lastChangeTs < now
    requires 0.0 < s.accounts[k].principal as real + s.accounts[k].interest
    ensures var s' := UpdateDebtorInfo(s, k, info, ts, now);
            k in s'.accounts && Balance(k, s'.accounts[k], later) < Balance(k, s.accounts[k], later)
  {
    hide Pow, UpdateOf;
    var a := s.accounts[k];
    var start, g, h := a.principal as real + a.interest, Pow(a.rate, now - a.lastChangeTs), Pow(a.rate, later - now);
    PowAdd(a.rate, now - a.lastChangeTs, later - now);
    PowPositive(a.rate, later - now);
    PowSign(a.rate, now - a.lastChangeTs);
    MulLess(1.0, g, h);
    MulLess(h, g * h, start);
    assert Balance(k, a, later) == start * (g * h);
    assert Balance(k, UpdateDebtorInfo(s, k, info, ts, now).accounts[k], later) == start * h;
  }

  // ---- Capitalization

  /** No clipping: the interest, and the principal with it, fit. */
  predicate Fits(k: AccountKey, a: Account, now: int) {
    var amount := AccumulatedInterest(k, a, now).Floor;
    -MAX_INT64 <= amount <= MAX_INT64 && -MAX_INT64 <= a.principal + amount <= MAX_INT64
  }

  lemma CapitalizedRow(k: AccountKey, a: Account, amount: int, now: int)
    requires k.creditor != ROOT_CREDITOR_ID && a.lastChangeTs <= now
    requires -MAX_INT64 <= a.principal + amount <= MAX_INT64
    ensures var b := Paid(k, a, CT_INTEREST, amount, now);
            && b.principal == a.principal + amount
            && b.interest == AccumulatedInterest(k, a, now) - amount as real
            && b.rate == a.rate && b.lastChangeTs == now && b.deleted == a.deleted
            && b.capitalizationTs == a.capitalizationTs
            && IsRebased(k, a, b, now)
  {
    hide Balance;
    SameBalance(k, a, Numbered(k, a, amount, now), now);
  }

  lemma FloorResidue(x: real)
    ensures 0.0 <= x - x.Floor as real < 1.0
  {
  }

  lemma CapitalizationStep(s: State, k: AccountKey, minInterval: int, now: int)
    requires k.creditor != ROOT_CREDITOR_ID && Live(s, k).Some? && Fits(k, s.accounts[k], now)
    requires AccumulatedInterest(k, s.accounts[k], now).Floor != 0
    requires s.accounts[k].capitalizationTs <= now - minInterval
    ensures var a, amount := s.accounts[k], AccumulatedInterest(k, s.accounts[k], now).Floor;
            var s' := Capitalize(s, k, minInterval, now);
            && k in s'.accounts
            && s'.accounts[k] == Paid(k, a.(capitalizationTs := now), CT_INTEREST, amount, now)
            && s'.nextChangeId == s.nextChangeId + 1
            && s'.emitted == s.emitted[ChangeKey(k.debtor, k.creditor, s.nextChangeId) :=
                               BalanceChange(ROOT_CREDITOR_ID, CT_INTEREST, "", now, -amount, now)]
  {
    hide AccumulatedInterest, Paid, TransferSignals;
  }

  /** Capitalization keeps the balance at every later moment, leaves a residual interest in [0, 1),
      and posts the exact opposite amount to the root account.  Repeated at the same instant it
      does nothing. */
  lemma CapitalizationIsExact(s: State, k: AccountKey, minInterval: int, now: int, later: int)
    requires k.creditor != ROOT_CREDITOR_ID && Live(s, k).Some? && Fits(k, s.accounts[k], now)
    requires 0.0 < s.accounts[k].rate && s.accounts[k].lastChangeTs <= now <= later
    requires s.accounts[k].capitalizationTs <= now - minInterval
    ensures var a, s' := s.accounts[k], Capitalize(s, k, minInterval, now);
            && Live(s', k).Some?
            && Balance(k, s'.accounts[k], later) == Balance(k, a, later)
            && 0.0 <= AccumulatedInterest(k, s'.accounts[k], now) < 1.0
            && Capitalize(s', k, 0, now) == s'
            && var ck, posted := ChangeKey(k.debtor, k.creditor, s.nextChangeId), s'.accounts[k].principal - a.principal;
               if posted == 0 then s' == s
               else ck in s'.emitted && s'.emitted == s.emitted[ck := s'.emitted[ck]]
                    && s'.emitted[ck].creditor == ROOT_CREDITOR_ID && s'.emitted[ck].delta == -posted
  {
    hide Balance, Fits, Paid, Pay, IsRebased;
    var a, interest := s.accounts[k], AccumulatedInterest(k, s.accounts[k], now);
    FloorResidue(interest);
    if interest.Floor != 0 {
      var a1 := a.(capitalizationTs := now);
      SameBalance(k, a, a1, now);
      SameBalance(k, a, a1, later);
      FitsOf(k, a, now);
      CapitalizationStep(s, k, minInterval, now);
      CapitalizedRow(k, a1, interest.Floor, now);
      var b := Capitalize(s, k, minInterval, now).accounts[k];
      RebasedBalance(k, a1, b, now, later);
      RebasedBalance(k, a1, b, now, now);
    }
  }

  lemma FitsOf(k: AccountKey, a: Account, now: int)
    requires Fits(k, a, now)
    ensures var amount := AccumulatedInterest(k, a, now).Floor;
            -MAX_INT64 <= amount <= MAX_INT64 && -MAX_INT64 <= a.principal + amount <= MAX_INT64
  {
    hide AccumulatedInterest;
  }
}
