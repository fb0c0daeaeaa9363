/** Late credits over whole runs: an account keeps up with an ideal ledger, which receives every
    amount in the moment of the commit. */
module IdealLedger {
  import opened Growth
  import opened Totals
  import opened Models
  import opened Steps
  import opened Rows
  import opened Changes
  import opened Accrual
  import opened Solvency
  import opened Locks
  import opened Runs
  import opened LateCredit

  // ---- Premises on a whole run

  predicate AlwaysTimely(r: Run, k: AccountKey)
    requires |r.states| == |r.steps| + 1
  {
    forall i :: 0 <= i < |r.steps| ==> IsTimely(r.states[i], r.states[i + 1], k)
  }

  /** The principal of the account has never been clipped. */
  predicate NeverClipped(r: Run, k: AccountKey) {
    forall i :: 0 <= i < |r.states| ==> Unclipped(r.states[i], k)
  }

  predicate NeverNegative(r: Run, k: AccountKey) {
    forall i :: 0 <= i < |r.states| ==> 0.0 <= Balance(k, RowOf(r.states[i], k), r.states[i].now)
  }

  /** The ideal ledger after the first `n` steps of a run. */
  ghost function LedgerOf(r: Run, k: AccountKey, n: nat): Ledger
    requires |r.states| == |r.steps| + 1 && n <= |r.steps|
  {
    if n == 0 then Ledger(0.0, 1.0, r.states[0].now)
    else NextLedger(LedgerOf(r, k, n - 1), r.states[n - 1], r.steps[n - 1].event, r.states[n], k)
  }

  /** No update of the debtor's info meets interest that is due. */
  ghost predicate AlwaysFree(r: Run, k: AccountKey)
    requires |r.states| == |r.steps| + 1
  {
    forall i :: 0 <= i < |r.steps| ==> IsFree(LedgerOf(r, k, i), r.states[i], r.steps[i].event, r.steps[i].now, k)
  }

  function PrefixRun(r: Run, n: nat): Run
    requires |r.states| == |r.steps| + 1 && n <= |r.steps|
  {
    Run(r.states[..n + 1], r.steps[..n])
  }

  /** What every prefix of a run inherits. */
  lemma PrefixPremises(c: Settings, r: Run, n: nat)
    requires IsRun(c, r) && CutoffsAlwaysAgree(r) && n <= |r.steps|
    ensures var p := PrefixRun(r, n);
            IsRun(c, p) && CutoffsAlwaysAgree(p) && |p.steps| == n && p.states[n] == r.states[n] && c.Valid()
  {
    hide IsStep, CutoffsAgree;
    PrefixTo(c, r, n);
  }

  /** Gentle runs meet two of the premises: no balance becomes negative, and nothing is clipped. */
  lemma GentleRunsAreNotNegative(c: Settings, r: Run, k: AccountKey)
    requires IsRun(c, r) && AlwaysGentle(r, k) && k.creditor != ROOT_CREDITOR_ID
    ensures NeverNegative(r, k) && NeverClipped(r, k)
  {
    hide IsStep, Balance, KeepsAccrual, NewAccount;
    forall i | 0 <= i < |r.states|
      ensures 0.0 <= Balance(k, RowOf(r.states[i], k), r.states[i].now) && Unclipped(r.states[i], k)
    {
      PrefixTo(c, r, i);
      var p, s := PrefixRun(r, i), r.states[i];
      if k in s.accounts {
        BalanceIsNotNegative(c, p, k, s.now);
      } else {
        NewBalance(k, s.now);
      }
      if i > 0 {
        assert Gentle(r.states[i - 1], r.steps[i - 1].event, r.steps[i - 1].now, r.states[i], k);
      }
    }
  }

  // ---- Every run

  /** Late credits are exact: at every point of a run, the ideal ledger is worth the balance of the
      account with all that is on its way to it. */
  lemma {:induction false} LateCreditsAreExact(c: Settings, r: Run, k: AccountKey, n: nat)
    requires IsRun(c, r) && CutoffsAlwaysAgree(r) && k.creditor != ROOT_CREDITOR_ID
    requires NeverClipped(r, k) && NeverNegative(r, k) && AlwaysFree(r, k) && AlwaysTimely(r, k) && n <= |r.steps|
    ensures KeepsUp(LedgerOf(r, k, n), r.states[n], k)
  {
    hide KeepsUp, NextLedger, IsStep, IsTimely, IsFree, CutoffsAgree, Balance, Unclipped;
    if n == 0 {
      NothingAtStart(r.states[0].now, k);
    } else {
      LateCreditsAreExact(c, r, k, n - 1);
      RunStep(c, r, k, n - 1);
    }
  }

  lemma NothingAtStart(now: int, k: AccountKey)
    ensures KeepsUp(Ledger(0.0, 1.0, now), Start(now), k)
  {
    NewBalance(k, now);
    LedgerNow(0.0, 1.0, now);
    SumOfNone(WorthOf(map[], [], k, RowOf(Start(now), k), now));
    hide Balance, LedgerValue;
  }

  lemma RunStep(c: Settings, r: Run, k: AccountKey, i: nat)
    requires IsRun(c, r) && CutoffsAlwaysAgree(r) && k.creditor != ROOT_CREDITOR_ID && i < |r.steps|
    requires NeverClipped(r, k) && NeverNegative(r, k) && AlwaysFree(r, k) && AlwaysTimely(r, k)
    requires KeepsUp(LedgerOf(r, k, i), r.states[i], k)
    ensures KeepsUp(LedgerOf(r, k, i + 1), r.states[i + 1], k)
  {
    hide KeepsUp, NextLedger, RowsOk, LocksOk, QueuesOk, OnceOk, Step, Enabled, IsTimely, IsFree, CutoffsAgree,
         PrefixRun, Balance, Unclipped, RowOf;
    PrefixPremises(c, r, i);
    AlwaysConsistent(c, PrefixRun(r, i));
    AppliedAtMostOnce(c, PrefixRun(r, i));
    assert IsStep(c, r.states[i], r.steps[i], r.states[i + 1]);
    LateStep(c, LedgerOf(r, k, i), r.states[i], r.steps[i].event, r.steps[i].now, k);
  }

  /** When everything has been credited, the account and the ideal ledger agree at every later
      moment. */
  lemma CreditedAccountIsIdeal(c: Settings, r: Run, k: AccountKey, later: int)
    requires IsRun(c, r) && CutoffsAlwaysAgree(r) && k.creditor != ROOT_CREDITOR_ID
    requires NeverClipped(r, k) && NeverNegative(r, k) && AlwaysFree(r, k) && AlwaysTimely(r, k)
    requires var s := r.states[|r.steps|];
             k in s.accounts && s.now <= later && forall ck :: ck in s.emitted ==> !IsDue(s.emitted, s.applied, k, ck)
    ensures Balance(k, r.states[|r.steps|].accounts[k], later) == LedgerValue(LedgerOf(r, k, |r.steps|), later)
  {
    hide Balance, WorthOf, IsStep, IsTimely, CutoffsAgree, RowsOk, LocksOk, QueuesOk, IsDue, LedgerOf, Pow, NewAccount,
         LedgerValue, AlwaysFree, NeverNegative, NeverClipped;
    var s := r.states[|r.steps|];
    LateCreditsAreExact(c, r, k, |r.steps|);
    NothingDue(s, k, RowOf(s, k), s.now);
    SumOfNone(WorthOf(s.emitted, s.applied, k, RowOf(s, k), s.now));
    AlwaysConsistent(c, r);
    RunSettings(c, r);
    RowRates(c, s, k);
    GrowsFrom(k, s.accounts[k], s.now, later);
    LedgerLater(LedgerOf(r, k, |r.steps|), s.now, later);
  }

  // ---- Amounts that are credited in time

  /** The age at which an amount must be credited, at the latest. */
  function CreditWindow(c: Settings): int {
    c.signalbusMaxDelay + DAY
  }

  /** No amount on its way to the account is older than the window at the time of the step. */
  predicate IsPrompt(c: Settings, s: State, now: int, k: AccountKey) {
    forall ck :: ck in s.emitted && IsDue(s.emitted, s.applied, k, ck) ==> now - s.emitted[ck].committedAt <= CreditWindow(c)
  }

  /** The spacing of the rate changes makes the premise of the calculation hold for every amount
      that is credited within the window. */
  lemma PromptIsTimely(c: Settings, s: State, e: Event, now: int, k: AccountKey)
    requires c.Valid() && RowsOk(c, s) && s.now <= now && Enabled(s, e) && IsPrompt(c, s, now, k)
    requires k in s.accounts && k !in Step(c, s, e, now).accounts ==>
               forall ck :: ck in s.emitted ==> !IsDue(s.emitted, s.applied, k, ck)
    ensures IsTimely(s, Step(c, s, e, now), k)
  {
    hide RowsOk, Step, Enabled, RowOf, IsDue, NewAccount;
    if k in s.accounts && k !in Step(c, s, e, now).accounts {
      NothingIsEarlier(s, k);
    } else {
      RatesUnlessPurged(c, s, e, now, k);
    }
  }

  lemma NothingIsEarlier(s: State, k: AccountKey)
    requires forall ck :: ck in s.emitted ==> !IsDue(s.emitted, s.applied, k, ck)
    ensures NoEarlierChange(s, k, RowOf(s, k))
  {
    hide IsDue;
  }

  predicate AlwaysPrompt(c: Settings, r: Run, k: AccountKey)
    requires |r.states| == |r.steps| + 1
  {
    forall i :: 0 <= i < |r.steps| ==> IsPrompt(c, r.states[i], r.steps[i].now, k)
  }

  predicate NothingDueAtPurge(r: Run, k: AccountKey)
    requires |r.states| == |r.steps| + 1
  {
    forall i, ck :: 0 <= i < |r.steps| && k in r.states[i].accounts && k !in r.states[i + 1].accounts
                    && ck in r.states[i].emitted
      ==> !IsDue(r.states[i].emitted, r.states[i].applied, k, ck)
  }

  lemma PromptRunIsTimely(c: Settings, r: Run, k: AccountKey)
    requires IsRun(c, r) && AlwaysPrompt(c, r, k) && NothingDueAtPurge(r, k)
    ensures AlwaysTimely(r, k)
  {
    hide IsTimely, Step, Enabled, IsPrompt, IsDue, RowsOk, LocksOk, QueuesOk;
    forall i | 0 <= i < |r.steps|
      ensures IsTimely(r.states[i], r.states[i + 1], k)
    {
      PrefixTo(c, r, i);
      AlwaysConsistent(c, PrefixRun(r, i));
      assert IsStep(c, r.states[i], r.steps[i], r.states[i + 1]);
      PromptIsTimely(c, r.states[i], r.steps[i].event, r.steps[i].now, k);
    }
  }

  /** Amounts that are credited within the window are credited exactly, in every run. */
  lemma PromptCreditsAreExact(c: Settings, r: Run, k: AccountKey, n: nat)
    requires IsRun(c, r) && CutoffsAlwaysAgree(r) && k.creditor != ROOT_CREDITOR_ID
    requires NeverClipped(r, k) && NeverNegative(r, k) && AlwaysFree(r, k)
    requires AlwaysPrompt(c, r, k) && NothingDueAtPurge(r, k) && n <= |r.steps|
    ensures KeepsUp(LedgerOf(r, k, n), r.states[n], k)
  {
    hide IsStep, KeepsUp, LedgerOf, AlwaysPrompt, NothingDueAtPurge, AlwaysTimely, NeverClipped, NeverNegative,
         AlwaysFree;
    PromptRunIsTimely(c, r, k);
    LateCreditsAreExact(c, r, k, n);
  }
}
