/** Rate changes: two changes of the rate of an account are far enough from each other, even if the
    account is deleted, purged and created again between them. */
module RateSpacing {
  import opened Models
  import opened Steps
  import opened Frames
  import opened Rows
  import opened Locks
  import opened Changes
  import opened Rates
  import opened Solvency
  import opened Runs
  import opened LateCredit
  import opened IdealLedger
  import opened PurgeTiming

  /** The step changes the rate of an account that exists before and after it. */
  predicate ChangesRate(r: Run, k: AccountKey, i: nat)
    requires |r.states| == |r.steps| + 1 && i < |r.steps|
  {
    && k in r.states[i].accounts && k in r.states[i + 1].accounts
    && r.states[i + 1].accounts[k].rateChangeTs != r.states[i].accounts[k].rateChangeTs
  }

  /** The row remembers a change of the rate at that time or later, or the window has passed. */
  predicate Remembers(c: Settings, s: State, k: AccountKey, ts: int) {
    (k in s.accounts && ts <= s.accounts[k].rateChangeTs) || ts + CreditWindow(c) <= s.now
  }

  lemma RatesOfAccount(c: Settings, s: State, e: Event, now: int, k: AccountKey)
    requires c.Valid() && RowsOk(c, s) && s.now <= now && Enabled(s, e)
    requires k in s.accounts && k in Step(c, s, e, now).accounts
    ensures RatesKept(c, s.accounts[k], Step(c, s, e, now).accounts[k], e, now)
    ensures s.accounts[k].rateChangeTs <= s.accounts[k].lastChangeTs <= s.now
  {
    hide Step, Enabled, RatesKept;
    RatesUnlessPurged(c, s, e, now, k);
  }

  /** A purge comes long after the last change of the account. */
  lemma PurgedLongAfter(c: Settings, s: State, e: Event, now: int, k: AccountKey)
    requires c.Valid() && RowsOk(c, s) && s.now <= now && Enabled(s, e)
    requires k in s.accounts && k !in Step(c, s, e, now).accounts
    ensures s.accounts[k].lastChangeTs + c.PurgeDelay() < now
    ensures s.accounts[k].rateChangeTs <= s.accounts[k].lastChangeTs
  {
    hide Step, Enabled;
    StepCases(c, s, e, now);
    if !e.EPurge? {
      StepSurvives(c, s, e, now);
    }
  }

  lemma RemembersStep(c: Settings, s: State, e: Event, now: int, k: AccountKey, ts: int)
    requires c.Valid() && RowsOk(c, s) && s.now <= now && Enabled(s, e) && Remembers(c, s, k, ts)
    ensures Remembers(c, Step(c, s, e, now), k, ts)
  {
    hide Step, Enabled, RowsOk;
    StepClock(c, s, e, now);
    if k in s.accounts {
      if k in Step(c, s, e, now).accounts {
        RatesOfAccount(c, s, e, now, k);
      } else {
        PurgedLongAfter(c, s, e, now, k);
      }
    }
  }

  lemma StepInRun(c: Settings, r: Run, i: nat)
    requires IsRun(c, r) && i < |r.steps|
    ensures var s, step := r.states[i], r.steps[i];
            && c.Valid() && RowsOk(c, s) && s.now <= step.now && Enabled(s, step.event)
            && r.states[i + 1] == Step(c, s, step.event, step.now) && r.states[i + 1].now == step.now
  {
    hide Step, Enabled, RowsOk, LocksOk, QueuesOk;
    PrefixTo(c, r, i);
    AlwaysConsistent(c, PrefixRun(r, i));
    assert IsStep(c, r.states[i], r.steps[i], r.states[i + 1]);
    StepClock(c, r.states[i], r.steps[i].event, r.steps[i].now);
  }

  lemma {:induction false} RemembersLater(c: Settings, r: Run, k: AccountKey, i: nat, j: nat)
    requires IsRun(c, r) && i < j <= |r.steps| && ChangesRate(r, k, i)
    ensures Remembers(c, r.states[j], k, r.steps[i].now)
  {
    hide Step, Enabled, RowsOk, Remembers, IsStep;
    StepInRun(c, r, j - 1);
    if i == j - 1 {
      RatesOfAccount(c, r.states[i], r.steps[i].event, r.steps[i].now, k);
      ChangeIsRemembered(c, r.states[i], r.states[j], r.steps[i].event, r.steps[i].now, k);
    } else {
      RemembersLater(c, r, k, i, j - 1);
      RemembersStep(c, r.states[j - 1], r.steps[j - 1].event, r.steps[j - 1].now, k, r.steps[i].now);
    }
  }

  lemma ChangeIsRemembered(c: Settings, s: State, s': State, e: Event, now: int, k: AccountKey)
    requires k in s.accounts && k in s'.accounts && RatesKept(c, s.accounts[k], s'.accounts[k], e, now)
    requires s'.accounts[k].rateChangeTs != s.accounts[k].rateChangeTs
    ensures Remembers(c, s', k, now)
  {
  }

  /** In every run, any two changes of the rate of an account are at least the signal delay plus one
      day apart. */
  lemma RateChangesAreSpaced(c: Settings, r: Run, k: AccountKey, i: nat, j: nat)
    requires IsRun(c, r) && i < j < |r.steps| && ChangesRate(r, k, i) && ChangesRate(r, k, j)
    ensures CreditWindow(c) <= r.steps[j].now - r.steps[i].now
  {
    hide Step, Enabled, RowsOk, IsStep;
    RemembersLater(c, r, k, i, j);
    StepInRun(c, r, j);
    RatesOfAccount(c, r.states[j], r.steps[j].event, r.steps[j].now, k);
  }

  /** A transfer that is prepared under a real constraint on the interest rate sees at most one change
      of the rate before its deadline: the second change after the preparation comes too late. */
  lemma ConstrainedTransfersSeeOneChange(
    c: Settings, r: Run, k: AccountKey, i: nat, j: nat, t: TransferKey, n: nat)
    requires IsRun(c, r) && i < j < |r.steps| && ChangesRate(r, k, i) && ChangesRate(r, k, j)
    requires n <= |r.steps| && t in r.states[n].prepared && t.account == k && r.states[n].prepared[t].minRate > c.floor
    requires r.states[n].prepared[t].preparedAt < r.steps[i].now
    ensures r.states[n].prepared[t].deadline < r.steps[j].now
  {
    hide IsStep, ChangesRate, RowOk, LocksOk, QueuesOk;
    PrefixTo(c, r, n);
    AlwaysConsistent(c, PrefixRun(r, n));
    TransferOkOf(c, r.states[n], t);
    RateChangesAreSpaced(c, r, k, i, j);
    RunSettings(c, r);
  }
}
