/** What users are promised about single operations, in every reachable state. */
module Guarantees {
  import opened Models
  import opened Steps
  import opened Frames
  import opened Rows
  import Locks
  import opened Writes
  import opened PurgeTiming
  import opened Updates
  import opened Columns
  import opened Outcomes
  import opened Requests

  // ---- Prepared transfers

  /** A prepared transfer is a guarantee: a commit before the deadline, at a sufficient interest
      rate, for no more than what the lock is worth after the worst demurrage, always succeeds.  In
      general a commit succeeds if and only if it is in time, the rate is sufficient, and the amount
      is reserved or expendable; and a dismissal always succeeds. */
  lemma CommitSucceeds(c: Settings, f: Finalizing, k: AccountKey, t: TransferKey, opening: int, now: int)
    requires c.Valid() && k in f.state.accounts && Matches(f.state, t) && PreparedOk(c, f.state.prepared[t], now)
    requires 0 <= f.state.finalizations[t].committed
    ensures var s := f.state;
            var pt, amount, a := s.prepared[t], s.finalizations[t].committed, s.accounts[k];
            var isReserved := if k.creditor == ROOT_CREDITOR_ID then amount <= pt.locked
                              else amount as real <= Reserved(pt, now);
            var isExpendable := amount <= opening + f.delta - (a.totalLocked - pt.locked) - MinAccountBalance(k.creditor);
            && (FinalStatus(f, k, t, opening, now) == Ok
                <==> amount == 0 || (now <= pt.deadline && pt.minRate <= a.rate && (isReserved || isExpendable)))
            && (CommittedAmount(f, k, t, opening, now) == if FinalStatus(f, k, t, opening, now) == Ok then amount else 0)
  {
    ReservedAtMostLocked(f.state.prepared[t], now);
    hide Reserved;
  }

  /** A request that is rejected because of the available amount succeeds when it is made again for a small
      enough amount, and only then. */
  lemma SmallerRequestSucceeds(c: Settings, s: State, rk: RequestKey, minLocked: int, commitPeriod: int)
    requires rk in s.requests && 0 <= s.requests[rk].maxLocked
    requires var s' := PrepareTransfer(c, s, rk, commitPeriod, s.now);
             |s'.rejections| > |s.rejections| && s'.rejections[|s.rejections|].status == InsufficientAvailableAmount
    ensures var r := s.requests[rk];
            var again := s.(requests := s.requests[rk := r.(minLocked := minLocked)]);
            var s' := PrepareTransfer(c, again, rk, commitPeriod, s.now);
            && rk.account in s.accounts
            && var possible := MostToLock(rk.account, s.accounts[rk.account], r.maxLocked, s.now);
               && possible < r.minLocked
               && (|s'.preparations| == |s.preparations| + 1 <==> minLocked <= possible)
               && (s'.preparations == s.preparations <==> minLocked > possible)
  {
    hide PrepareTransfer, MostToLock, IsAsRequested, Min;
    AcceptedIff(c, s, rk, commitPeriod);
    AcceptedIff(c, s.(requests := s.requests[rk := s.requests[rk].(minLocked := minLocked)]), rk, commitPeriod);
  }

  // ---- Deletion

  lemma WriteKeepsLife(c: Settings, s: State, k: AccountKey, w: Write, e: Event)
    requires MayWrite(c, s, k, w, e) && !e.ETryToDelete? && !RowOf(s, k).deleted
    ensures !RowOf(WriteOne(s, k, w), k).deleted
  {
    hide AccumulatedInterest, UpdateOf, TransferSignals, ConfigLater, IsValidConfig, Contain;
  }

  lemma {:induction false} WriteAllKeepsLife(c: Settings, s: State, k: AccountKey, ws: seq<Write>, e: Event)
    requires MayWriteAll(c, s, k, ws, e) && !e.ETryToDelete? && !RowOf(s, k).deleted
    ensures !RowOf(WriteAll(s, k, ws), k).deleted
    decreases |ws|
  {
    hide MayWrite, WriteOne, RowOf;
    if ws != [] {
      WriteKeepsLife(c, s, k, ws[0], e);
      WriteAllKeepsLife(c, WriteOne(s, k, ws[0]), k, ws[1..], e);
    }
  }

  lemma AccountEventKeepsLife(c: Settings, s: State, e: Event, now: int, k: AccountKey)
    requires c.Valid() && RowsOk(c, s) && s.now <= now && Enabled(s, e) && IsAccountEvent(e) && e != ETryToDelete(k)
    requires k in s.accounts && !s.accounts[k].deleted
    ensures var s' := Step(c, s, e, now); k in s'.accounts && !s'.accounts[k].deleted
  {
    hide Step, Enabled, RowsOk, AccountStep, WriteAll, MayWriteAll, NewAccount;
    AccountEventFrame(c, s, e, now);
    AccountStepTables(s.(now := now), Step(c, s, e, now), KeyOf(e));
    if KeyOf(e) == k {
      RowsLater(c, s, now);
      PrincipalOk(c, s.(now := now), k);
      var ws := AccountEventWrites(c, s, e, now);
      WriteAllKeepsLife(c, s.(now := now), k, ws, e);
    }
  }

  lemma BatchKeepsLife(c: Settings, s: State, e: Event, k: AccountKey)
    requires k in s.accounts && !s.accounts[k].deleted
    ensures e.EFinalize? ==>
              var s' := FinalizeTransfers(s, e.key, e.transfers, s.now); k in s'.accounts && !s'.accounts[k].deleted
    ensures e.EApply? ==>
              var s' := ApplyChanges(s, e.key, e.changes, s.now); k in s'.accounts && !s'.accounts[k].deleted
  {
    hide FinalizeAll, ApplyAll, Balance, AccumulatedInterest, LockOrCreate, AccountStep;
    if e.EFinalize? && Live(s, e.key).Some? {
      FinalizeAllSurvives(s, e.key, e.transfers, Balance(e.key, s.accounts[e.key], s.now).Floor);
    }
    if e.EApply? && e.changes != [] {
      var s1 := LockOrCreate(s, e.key, s.now);
      LockOrCreateFrame(s, e.key);
      AccountStepTables(s, s1, e.key);
      Locks.ApplyAllLocks(s1, e.key, e.changes);
    }
  }

  lemma DeletionAllowed(s: State, k: AccountKey)
    requires k in s.accounts && !s.accounts[k].deleted
    ensures var s' := TryToDelete(s, k, s.now);
            k in s'.accounts && s'.accounts[k].deleted ==>
              k.creditor != ROOT_CREDITOR_ID && CanBeDeleted(k, s.accounts[k], s.now)
  {
    hide Balance, IsNegligibleBalance, Pay, UpdateOf;
  }

  lemma OtherRowsLive(c: Settings, s: State, s': State, e: Event, k: AccountKey)
    requires k in s.accounts && !s.accounts[k].deleted
    ensures QueueStep(s, s') ==> s'.accounts == s.accounts
    ensures e.EPurge? ==>
              var s1 := PurgeAccount(c, s, e.key, s.now); k in s1.accounts && !s1.accounts[k].deleted
    ensures e.EPrepare? && e.requestKey in s.requests ==>
              var s1 := PrepareTransfer(c, s, e.requestKey, e.commitPeriod, s.now);
              k in s1.accounts && !s1.accounts[k].deleted
  {
    if e.EPrepare? && e.requestKey in s.requests {
      PrepareWrites(c, s, e.requestKey, e.commitPeriod);
    }
    hide PrepareTransfer, LockableAmount, NewTransfer, Accepts;
  }

  /** The only way in which an account is deleted or removed: its owner has scheduled it for
      deletion, it has no prepared transfers, and its balance is negligible to its owner, or at most
      two units.  The debtor's account is never deleted. */
  lemma OnlyNegligibleIsDeleted(c: Settings, s: State, e: Event, now: int, k: AccountKey)
    requires c.Valid() && RowsOk(c, s) && s.now <= now && Enabled(s, e)
    requires Live(s, k).Some?
    ensures Live(Step(c, s, e, now), k).None? ==>
              var a := s.accounts[k];
              && e == ETryToDelete(k) && k.creditor != ROOT_CREDITOR_ID
              && a.ScheduledForDeletion() && a.pendingTransfers == 0
              && (Balance(k, a, now) <= a.negligible || Balance(k, a, now) <= 2.0)
  {
    hide Step, Enabled, RowsOk, PrepareTransfer, PurgeAccount, FinalizeTransfers, ApplyChanges, TryToDelete, QueueStep;
    var s0, s' := s.(now := now), Step(c, s, e, now);
    EnabledLater(s, e, now);
    StepCases(c, s, e, now);
    EventKinds(e);
    if e == ETryToDelete(k) {
      DeletionAllowed(s0, k);
      RemainsThere(c, s, e, now, k);
    } else if IsAccountEvent(e) {
      AccountEventKeepsLife(c, s, e, now, k);
    } else if IsQueueEvent(e) {
      QueueFrame(c, s, e, now);
      OtherRowsLive(c, s0, s', e, k);
    } else {
      BatchKeepsLife(c, s0, e, k);
      OtherRowsLive(c, s0, s', e, k);
    }
  }

  lemma RemainsThere(c: Settings, s: State, e: Event, now: int, k: AccountKey)
    requires c.Valid() && RowsOk(c, s) && s.now <= now && Enabled(s, e) && !e.EPurge? && k in s.accounts
    ensures k in Step(c, s, e, now).accounts
  {
    hide Step, Enabled, RowsOk, RowSurvives;
    StepSurvives(c, s, e, now);
  }

  /** A purge is announced with the creation date of the lifetime that ends, and its configuration
      time is recorded. */
  lemma PurgeIsAnnounced(c: Settings, s: State, k: AccountKey)
    requires k in s.accounts && k !in PurgeAccount(c, s, k, s.now).accounts
    ensures PurgeAccount(c, s, k, s.now).purges == s.purges + [PurgeSignal(k, s.accounts[k].creationDate)]
    ensures PurgeAccount(c, s, k, s.now).purgedConfigs == s.purgedConfigs + {(k, s.accounts[k].configTs)}
    ensures s.accounts[k].deleted && s.accounts[k].creationDate < Date(s.now)
  {
    assert Date(s.now - 3 * DAY) <= Date(s.now);
  }

  /** After a heartbeat scan the last signal about a live account shows its current row, field by field,
      whether the scan has announced it or not. */
  lemma HeartbeatAnnounces(c: Settings, s: State, k: AccountKey)
    requires Live(s, k).Some? && UpdatesOk(s, k)
    ensures var s' := SendHeartbeat(c, s, k, s.now);
            && k in s'.accounts && !s'.accounts[k].pendingUpdate && LookSame(s.accounts[k], s'.accounts[k])
            && s.updates <= s'.updates
            && |s'.updates| == |s.updates| + (if IsQuiet(c, s.accounts[k], s.now) then 1 else 0)
            && LastOf(s'.updates, k).Some? && Shows(LastOf(s'.updates, k).value, k, s'.accounts[k])
  {
    hide InOrder, NoneNewer, AllEarlier, SendHeartbeat, Shows, LookSame, LastOf, UpdatesOk;
    HeartbeatIff(c, s, k);
    LiveRowShown(s, k);
    var s' := SendHeartbeat(c, s, k, s.now);
    var a, b := s.accounts[k], s'.accounts[k];
    LooksTheSame(a, b);
    if IsQuiet(c, a, s.now) {
      LastAppended(s.updates, s'.updates, k, b);
    }
  }

  lemma LiveRowShown(s: State, k: AccountKey)
    requires Live(s, k).Some? && UpdatesOk(s, k)
    ensures !s.accounts[k].pendingUpdate ==>
              LastOf(s.updates, k).Some? && Shows(LastOf(s.updates, k).value, k, s.accounts[k])
  {
  }

  lemma LooksTheSame(a: Account, b: Account)
    requires b == a || b == a.(heartbeatTs := b.heartbeatTs, pendingUpdate := b.pendingUpdate)
    ensures LookSame(a, b)
  {
  }

  lemma LastAppended(before: seq<UpdateSignal>, after: seq<UpdateSignal>, k: AccountKey, a: Account)
    requires |after| == |before| + 1 && after[..|before|] == before && Shows(after[|before|], k, a)
    ensures LastOf(after, k).Some? && Shows(LastOf(after, k).value, k, a)
  {
  }
}
