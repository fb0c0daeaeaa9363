/** The batches of the program against single steps: what a batch procedure or a scanner leaves in the
    database is what some run leaves there, so the results about runs hold for it. */
module Batches {
  import opened Models
  import opened Steps
  import opened Frames
  import opened Rows
  import opened Accrual
  import opened Server

  // ---- Reachable databases

  ghost predicate IsRunTo(c: Settings, r: Run, s: State) {
    IsRun(c, r) && r.states[|r.steps|] == s
  }

  /** The database is the result of a run; the clock may have moved since. */
  ghost predicate Reachable(c: Settings, s: State) {
    exists r, was :: IsRunTo(c, r, s.(now := was)) && was <= s.now
  }

  lemma ReachableStep(c: Settings, s: State, e: Event)
    requires Reachable(c, s) && Enabled(s, e)
    ensures Step(c, s, e, s.now).now == s.now
    ensures Reachable(c, Step(c, s, e, s.now))
  {
    hide Step, Enabled, IsStep;
    var r, was :| IsRunTo(c, r, s.(now := was)) && was <= s.now;
    var s' := Step(c, s, e, s.now);
    StepClock(c, s, e, s.now);
    SameStep(c, s, e, was);
    ExtendRun(c, r, Stamped(e, s.now), s');
    assert s'.(now := s.now) == s';
    assert IsRunTo(c, Run(r.states + [s'], r.steps + [Stamped(e, s.now)]), s'.(now := s.now));
  }

  /** A step does not depend on the time of the step before it. */
  lemma SameStep(c: Settings, s: State, e: Event, was: int)
    requires Enabled(s, e) && was <= s.now
    ensures IsStep(c, s.(now := was), Stamped(e, s.now), Step(c, s, e, s.now))
  {
    EnabledLater(s, e, was);
    StepCases(c, s, e, s.now);
    StepCases(c, s.(now := was), e, s.now);
    assert s.(now := was).(now := s.now) == s;
    hide Step, Enabled;
  }

  lemma ExtendRun(c: Settings, r: Run, step: Stamped, s': State)
    requires IsRun(c, r) && IsStep(c, r.states[|r.steps|], step, s')
    ensures IsRunTo(c, Run(r.states + [s'], r.steps + [step]), s')
  {
    hide IsStep;
  }

  // ---- The batches

  lemma {:induction false} PrepareAllIsReachable(c: Settings, s: State, batch: seq<RequestKey>, commitPeriod: int)
    requires Reachable(c, s) && 0 <= commitPeriod
    ensures var s' := PrepareAll(c, s, batch, commitPeriod, s.now); Reachable(c, s') && s'.now == s.now
  {
    hide Reachable, PrepareTransfer, Step;
    if batch != [] {
      var front, rk := batch[..|batch| - 1], batch[|batch| - 1];
      PrepareAllIsReachable(c, s, front, commitPeriod);
      var s1 := PrepareAll(c, s, front, commitPeriod, s.now);
      if rk in s1.requests {
        assert s1.(now := s.now) == s1;
        StepCases(c, s1, EPrepare(rk, commitPeriod), s.now);
        ReachableStep(c, s1, EPrepare(rk, commitPeriod));
      }
    }
  }

  lemma {:induction false} PurgeAllIsReachable(c: Settings, s: State, keys: seq<AccountKey>)
    requires Reachable(c, s)
    ensures var s' := PurgeAll(c, s, keys, s.now); Reachable(c, s') && s'.now == s.now
  {
    hide Reachable, PurgeAccount, Step;
    if keys != [] {
      var front, k := keys[..|keys| - 1], keys[|keys| - 1];
      PurgeAllIsReachable(c, s, front);
      var s1 := PurgeAll(c, s, front, s.now);
      assert s1.(now := s.now) == s1;
      StepCases(c, s1, EPurge(k), s.now);
      ReachableStep(c, s1, EPurge(k));
    }
  }

  lemma {:induction false} HeartbeatAllIsReachable(c: Settings, s: State, keys: seq<AccountKey>)
    requires Reachable(c, s)
    ensures var s' := HeartbeatAll(c, s, keys, s.now); Reachable(c, s') && s'.now == s.now
  {
    hide Reachable, SendHeartbeat, Step;
    if keys != [] {
      var front, k := keys[..|keys| - 1], keys[|keys| - 1];
      HeartbeatAllIsReachable(c, s, front);
      var s1 := HeartbeatAll(c, s, front, s.now);
      assert s1.(now := s.now) == s1;
      StepCases(c, s1, EHeartbeat(k), s.now);
      ReachableStep(c, s1, EHeartbeat(k));
    }
  }

  lemma {:induction false} DeleteAllIsReachable(c: Settings, s: State, keys: seq<ChangeKey>, cutoff: int)
    requires Reachable(c, s)
    ensures var s' := DeleteAllRegistered(s, keys, cutoff); Reachable(c, s') && s'.now == s.now
  {
    hide Reachable, DeleteRegistered, Step;
    if keys != [] {
      var front, ck := keys[..|keys| - 1], keys[|keys| - 1];
      DeleteAllIsReachable(c, s, front, cutoff);
      var s1 := DeleteAllRegistered(s, front, cutoff);
      assert s1.(now := s.now) == s1;
      StepCases(c, s1, EDeleteRegistered(ck, cutoff), s.now);
      ReachableStep(c, s1, EDeleteRegistered(ck, cutoff));
    }
  }

  // ---- Locks

  predicate CanLock(a: Account, r: TransferRequest, limit: int, amount: int) {
    0 <= amount <= r.maxLocked && a.totalLocked + amount <= limit
  }

  /** The amount is the greatest one that the request asks for, and that keeps the balance, less all
      locks, at or above the minimum; or it is zero. */
  lemma LockIsGreatest(c: Settings, k: AccountKey, a: Account, r: TransferRequest, now: int)
    requires RowOk(c, k, a, now) && RequestOk(r)
    ensures var amount, limit := LockableAmount(k, a, r, now), Balance(k, a, now).Floor - MinAccountBalance(k.creditor);
            && 0 <= amount <= r.maxLocked
            && (amount == 0 || a.totalLocked + amount <= limit)
            && forall other :: CanLock(a, r, limit, other) ==> other <= amount
  {
    if k.creditor == ROOT_CREDITOR_ID {
      RootBalance(k, a, a, now);
    }
    hide Balance;
  }

  lemma RequestAndRow(c: Settings, s: State, rk: RequestKey)
    requires RowsOk(c, s) && rk in s.requests
    ensures RequestOk(s.requests[rk])
    ensures rk.account in s.accounts ==> RowOk(c, rk.account, s.accounts[rk.account], s.now)
  {
    hide RowOk, RequestOk;
  }

  predicate IsWithin(k: AccountKey, a: Account, b: Account, now: int) {
    && b.totalLocked <= Max(a.totalLocked, Balance(k, a, now).Floor - MinAccountBalance(k.creditor))
    && Balance(k, b, now) == Balance(k, a, now) && a.totalLocked <= b.totalLocked
  }

  lemma LockIsWithin(c: Settings, k: AccountKey, a: Account, b: Account, r: TransferRequest, now: int)
    requires RowOk(c, k, b, now) && RequestOk(r) && IsWithin(k, a, b, now)
    ensures IsWithin(k, a, WithLock(b, LockableAmount(k, b, r, now)), now)
  {
    hide Balance, LockableAmount;
    LockIsGreatest(c, k, b, r, now);
    SameBalance(k, b, WithLock(b, LockableAmount(k, b, r, now)), now);
  }

  /** However many requests are in a batch, and in whatever order, they never raise the total of the
      locks above what the balance allows. */
  lemma {:induction false} PreparesNeverOverlock(
    c: Settings, s: State, k: AccountKey, batch: seq<RequestKey>, commitPeriod: int)
    requires RowsOk(c, s) && k in s.accounts && forall rk <- batch :: rk.account == k
    ensures var s' := PrepareAll(c, s, batch, commitPeriod, s.now);
            && RowsOk(c, s') && s'.now == s.now && k in s'.accounts
            && IsWithin(k, s.accounts[k], s'.accounts[k], s.now)
  {
    hide RowsOk, RowOk, RequestOk, PrepareTransfer, LockableAmount, WithLock, Accepts, NewTransfer, Balance;
    if batch != [] {
      var front, rk := batch[..|batch| - 1], batch[|batch| - 1];
      PreparesNeverOverlock(c, s, k, front, commitPeriod);
      var s1 := PrepareAll(c, s, front, commitPeriod, s.now);
      assert rk in batch;
      if rk in s1.requests {
        PrepareKeeps(c, s1, rk, commitPeriod);
        PrepareWrites(c, s1, rk, commitPeriod);
        PrepareRows(c, s1, rk, commitPeriod);
        RequestAndRow(c, s1, rk);
        if Accepts(s1, rk, s.now) {
          LockIsWithin(c, k, s.accounts[k], s1.accounts[k], s1.requests[rk], s.now);
        }
      }
    }
  }
}
