/** The main results: what holds after every run, from an empty database on. */
module Runs {
  import opened Models
  import opened Steps
  import opened Frames
  import opened Rows
  import opened Locks
  import opened Changes
  import opened Money
  import opened Identity
  import opened Solvency

  // ---- Premises on a whole run

  /** The message handler never accepts what the scanner may have forgotten. */
  predicate CutoffsAlwaysAgree(r: Run)
    requires |r.states| == |r.steps| + 1
  {
    forall i :: 0 <= i < |r.steps| ==> CutoffsAgree(r.states[i], r.steps[i].event)
  }

  /** No principal of the debtor is ever clipped. */
  predicate NeverOverflows(r: Run, debtor: int) {
    forall i :: 0 <= i < |r.states| ==> NoOverflow(r.states[i], debtor)
  }

  /** No account ever gives out more transfer ids than one day holds. */
  predicate AlwaysIdSpace(r: Run) {
    forall i :: 0 <= i < |r.states| ==> IdSpace(r.states[i])
  }

  predicate CapNeverBites(r: Run, k: AccountKey)
    requires |r.states| == |r.steps| + 1
  {
    forall i :: 0 <= i < |r.steps| && CapBites(r.states[i], r.steps[i].event, r.steps[i].now)
      ==> r.steps[i].event.requestKey.account != k
  }

  predicate AlwaysGentle(r: Run, k: AccountKey)
    requires |r.states| == |r.steps| + 1
  {
    forall i :: 0 <= i < |r.steps|
      ==> Gentle(r.states[i], r.steps[i].event, r.steps[i].now, r.states[i + 1], k)
  }

  lemma Prefix(c: Settings, r: Run)
    requires IsRun(c, r) && r.steps != []
    ensures var n := |r.steps|;
            var front := Run(r.states[..n], r.steps[..n - 1]);
            IsRun(c, front) && IsStep(c, r.states[n - 1], r.steps[n - 1], r.states[n])
  {
    hide IsStep;
  }

  // ---- Every reachable state

  ghost predicate Consistent(c: Settings, s: State) {
    RowsOk(c, s) && LocksOk(s, {}) && QueuesOk(s)
  }

  lemma StartIsConsistent(c: Settings, now: int, exact: set<AccountKey>)
    requires c.Valid() && T0 <= now
    ensures RowsOk(c, Start(now)) && LocksOk(Start(now), exact) && QueuesOk(Start(now)) && OnceOk(Start(now))
    ensures IdsOk(Start(now))
  {
  }

  /** In every reachable state the rows, the lock columns and the queues are in order. */
  lemma {:induction false} AlwaysConsistent(c: Settings, r: Run)
    requires IsRun(c, r)
    ensures Consistent(c, r.states[|r.steps|])
    decreases |r.steps|
  {
    hide RowsOk, LocksOk, QueuesOk, Step, Enabled;
    if r.steps == [] {
      StartIsConsistent(c, r.states[0].now, {});
    } else {
      var n := |r.steps|;
      Prefix(c, r);
      AlwaysConsistent(c, Run(r.states[..n], r.steps[..n - 1]));
      var s, e, now := r.states[n - 1], r.steps[n - 1].event, r.steps[n - 1].now;
      RowsStep(c, s, e, now);
      LocksStep(c, s, e, now, {});
      QueuesStep(c, s, e, now);
    }
  }

  /** Deleted accounts are empty: a deleted row has no money, no interest, no lock and no prepared
      transfer, and it has been scheduled for deletion.  So a purge destroys nothing. */
  lemma DeletedAccountsAreEmpty(c: Settings, r: Run, k: AccountKey)
    requires IsRun(c, r)
    requires var s := r.states[|r.steps|]; k in s.accounts && s.accounts[k].deleted
    ensures var s := r.states[|r.steps|]; IsEmpty(s.accounts[k]) && TransfersOf(s.prepared, k) == {}
    ensures k.creditor != ROOT_CREDITOR_ID
  {
    hide RowsOk, LocksOk, QueuesOk, IsStep, TransfersOf;
    AlwaysConsistent(c, r);
    var s := r.states[|r.steps|];
    DeletedIsEmpty(c, s, k);
    NoTransfersWhenDeleted(s, k);
  }

  lemma NoTransfersWhenDeleted(s: State, k: AccountKey)
    requires LocksOk(s, {}) && k in s.accounts && s.accounts[k].deleted
    ensures TransfersOf(s.prepared, k) == {}
  {
    hide ColumnsOk;
    NoTransfers(s, k, {});
  }

  /** In every reachable state the debtor's own account has the zero rate, has never had another, and
      has no interest. */
  lemma RootHasNoInterest(c: Settings, r: Run, k: AccountKey)
    requires IsRun(c, r) && k.creditor == ROOT_CREDITOR_ID && k in r.states[|r.steps|].accounts
    ensures HasNoInterest(r.states[|r.steps|].accounts[k])
  {
    hide IsStep, TransfersOk, RequestsOk, LocksOk, QueuesOk;
    AlwaysConsistent(c, r);
  }

  /** A finalization request that matches a prepared transfer always finds a live sender, so no
      matching transfer is ever dropped. */
  lemma SenderIsLive(c: Settings, r: Run, t: TransferKey)
    requires IsRun(c, r) && t in r.states[|r.steps|].prepared
    ensures Live(r.states[|r.steps|], t.account).Some?
  {
    hide RowsOk, ColumnsOk, QueuesOk, IsStep;
    AlwaysConsistent(c, r);
  }

  // ---- Lock accounting

  /** The count of the pending transfers is always right, and the locked total never exceeds the
      locks.  It equals them as long as its cap has not bitten. */
  lemma {:induction false} LockAccounting(c: Settings, r: Run, k: AccountKey)
    requires IsRun(c, r)
    ensures var s := r.states[|r.steps|];
            k in s.accounts ==>
              && s.accounts[k].pendingTransfers == |TransfersOf(s.prepared, k)|
              && s.accounts[k].totalLocked as real <= LockTotal(s.prepared, k)
              && (CapNeverBites(r, k) ==> s.accounts[k].totalLocked as real == LockTotal(s.prepared, k))
  {
    hide IsStep, RowsOk, OwnersOk, QueuesOk, CapNeverBites, TransfersOf, LockTotal;
    AlwaysConsistent(c, r);
    if CapNeverBites(r, k) {
      LocksAreExact(c, r, k);
    }
  }

  lemma {:induction false} LocksAreExact(c: Settings, r: Run, k: AccountKey)
    requires IsRun(c, r) && CapNeverBites(r, k)
    ensures LocksOk(r.states[|r.steps|], {k})
    decreases |r.steps|
  {
    hide RowsOk, LocksOk, QueuesOk, Step, Enabled, CapBites;
    if r.steps == [] {
      StartIsConsistent(c, r.states[0].now, {k});
    } else {
      var n := |r.steps|;
      var front := Run(r.states[..n], r.steps[..n - 1]);
      Prefix(c, r);
      LocksAreExact(c, front, k);
      AlwaysConsistent(c, front);
      LocksStep(c, r.states[n - 1], r.steps[n - 1].event, r.steps[n - 1].now, {k});
    }
  }

  // ---- Exactly once

  /** Exactly-once credit: however often and in whatever order the network delivers the emitted
      changes, and whenever the scanner deletes their registrations, no change is applied twice. */
  lemma {:induction false} AppliedAtMostOnce(c: Settings, r: Run)
    requires IsRun(c, r) && CutoffsAlwaysAgree(r)
    ensures OnceOk(r.states[|r.steps|])
    ensures Distinct(r.states[|r.steps|].applied)
    decreases |r.steps|
  {
    hide RowsOk, LocksOk, QueuesOk, Step, Enabled, CutoffsAgree;
    if r.steps == [] {
      StartIsConsistent(c, r.states[0].now, {});
    } else {
      var n := |r.steps|;
      var front := Run(r.states[..n], r.steps[..n - 1]);
      Prefix(c, r);
      AppliedAtMostOnce(c, front);
      AlwaysConsistent(c, front);
      QueuesStep(c, r.states[n - 1], r.steps[n - 1].event, r.steps[n - 1].now);
      OnceIsDistinct(r.states[n]);
    }
  }

  lemma OnceIsDistinct(s: State)
    requires OnceOk(s)
    ensures Distinct(s.applied)
  {
  }

  // ---- Conservation

  /** Conservation of money: for each debtor, the principals of all accounts (the root account
      included) and the changes that are not applied yet always sum to zero. */
  lemma {:induction false} MoneyIsConserved(c: Settings, r: Run, debtor: int)
    requires IsRun(c, r) && CutoffsAlwaysAgree(r) && NeverOverflows(r, debtor)
    ensures Total(r.states[|r.steps|], debtor) == 0.0
    decreases |r.steps|
  {
    hide RowsOk, LocksOk, QueuesOk, OnceOk, Step, Enabled, CutoffsAgree, NoOverflow, Total;
    if r.steps == [] {
      NoMoneyAtStart(r.states[0].now, debtor);
    } else {
      var n := |r.steps|;
      var front := Run(r.states[..n], r.steps[..n - 1]);
      Prefix(c, r);
      MoneyIsConserved(c, front, debtor);
      AlwaysConsistent(c, front);
      AppliedAtMostOnce(c, front);
      MoneyStep(c, r.states[n - 1], r.steps[n - 1].event, r.steps[n - 1].now, debtor);
    }
  }

  lemma NoMoneyAtStart(now: int, debtor: int)
    ensures Total(Start(now), debtor) == 0.0
  {
    var s := Start(now);
    assert Principals(s.accounts, debtor) == map[];
    assert Outstanding(s.emitted, s.applied, debtor) == map[];
  }

  // ---- At most one finalization

  /** Transfer ids identify transfers for ever: no id is given twice, and no transfer is finalized
      twice, despite duplicate and late requests, deletions, purges and re-creations. */
  lemma {:induction false} FinalizedAtMostOnce(c: Settings, r: Run)
    requires IsRun(c, r) && AlwaysIdSpace(r)
    ensures IdsOk(r.states[|r.steps|])
    ensures PreparedOnce(r.states[|r.steps|].preparations) && FinalizedOnce(r.states[|r.steps|].finalized)
    decreases |r.steps|
  {
    hide RowsOk, LocksOk, QueuesOk, Step, Enabled, IdSpace, PreparedOnce, FinalizedOnce, GivenOut;
    if r.steps == [] {
      StartIsConsistent(c, r.states[0].now, {});
    } else {
      var n := |r.steps|;
      var front := Run(r.states[..n], r.steps[..n - 1]);
      Prefix(c, r);
      FinalizedAtMostOnce(c, front);
      AlwaysConsistent(c, front);
      IdsStep(c, r.states[n - 1], r.steps[n - 1].event, r.steps[n - 1].now);
    }
  }

  // ---- Solvency

  /** Solvency: in a gentle run the balance of a non-root account always covers what is reserved
      on it, now and at every later moment before its next step. */
  lemma {:induction false} AlwaysSolvent(c: Settings, r: Run, k: AccountKey, later: int)
    requires IsRun(c, r) && AlwaysGentle(r, k) && k.creditor != ROOT_CREDITOR_ID
    requires r.states[|r.steps|].now <= later
    ensures Solvent(r.states[|r.steps|], k, later)
    decreases |r.steps|
  {
    hide RowsOk, LocksOk, QueuesOk, Step, Enabled, Gentle, Solvent, CapBites;
    AlwaysConsistent(c, r);
    var n := |r.steps|;
    if n == 0 {
      SolventAtStart(r.states[0].now, k);
    } else {
      var front := Run(r.states[..n], r.steps[..n - 1]);
      Prefix(c, r);
      AlwaysSolvent(c, front, k, r.states[n - 1].now);
      AlwaysConsistent(c, front);
      GentleCap(c, front, k);
      LocksAreExact(c, front, k);
      SolventStep(c, r.states[n - 1], r.steps[n - 1].event, r.steps[n - 1].now, k);
    }
    LaterState(c, r);
    SolventLater(c, r.states[n], k, later);
  }

  lemma PrefixTo(c: Settings, r: Run, i: nat)
    requires IsRun(c, r) && i <= |r.steps|
    ensures IsRun(c, Run(r.states[..i + 1], r.steps[..i]))
  {
    hide IsStep;
  }

  /** A gentle run gives the cap on the locked total no reason to bite. */
  lemma GentleCap(c: Settings, r: Run, k: AccountKey)
    requires IsRun(c, r) && AlwaysGentle(r, k) && k.creditor != ROOT_CREDITOR_ID
    ensures CapNeverBites(r, k)
  {
    hide IsStep, RowsOk, LocksOk, QueuesOk, CapBites, Balance;
    forall i | 0 <= i < |r.steps| && CapBites(r.states[i], r.steps[i].event, r.steps[i].now)
      ensures r.steps[i].event.requestKey.account != k
    {
      var s, e, now := r.states[i], r.steps[i].event, r.steps[i].now;
      PrefixTo(c, r, i);
      AlwaysConsistent(c, Run(r.states[..i + 1], r.steps[..i]));
      assert Gentle(s, e, now, r.states[i + 1], k);
      if e.requestKey.account == k {
        CapNeedsGreatBalance(c, s, e, now);
      }
    }
  }

  lemma LaterState(c: Settings, r: Run)
    requires IsRun(c, r)
    ensures r.steps != [] ==> r.states[|r.steps|].now == r.steps[|r.steps| - 1].now
  {
    if r.steps != [] {
      var n := |r.steps|;
      Prefix(c, r);
      StepClock(c, r.states[n - 1], r.steps[n - 1].event, r.steps[n - 1].now);
    }
  }

  lemma SolventAtStart(now: int, k: AccountKey)
    ensures Solvent(Start(now), k, now)
  {
    hide ReservedTotal, Balance;
  }

  /** The balance of an account never becomes negative in a gentle run, whatever is committed. */
  lemma BalanceIsNotNegative(c: Settings, r: Run, k: AccountKey, later: int)
    requires IsRun(c, r) && AlwaysGentle(r, k) && k.creditor != ROOT_CREDITOR_ID
    requires r.states[|r.steps|].now <= later && k in r.states[|r.steps|].accounts
    ensures 0.0 <= Balance(k, r.states[|r.steps|].accounts[k], later)
  {
    hide IsStep, RowsOk, LocksOk, QueuesOk, Balance, ReservedTotal, AlwaysGentle;
    var s := r.states[|r.steps|];
    AlwaysSolvent(c, r, k, later);
    AlwaysConsistent(c, r);
    RowsLater(c, s, later);
    TransfersOkOf(c, s.(now := later));
    RunSettings(c, r);
    ReservedBounds(c, s.prepared, k, later);
  }

  lemma RunSettings(c: Settings, r: Run)
    requires IsRun(c, r)
    ensures c.Valid()
  {
  }
}
