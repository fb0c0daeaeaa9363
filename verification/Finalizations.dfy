/** Finalization requests: which prepared transfer a request is about, what becomes of it, and that
    nothing else ever removes a prepared transfer. */
module Finalizations {
  import opened Growth
  import opened Models
  import opened Steps
  import opened Frames
  import opened Rows
  import opened Locks
  import opened Changes
  import opened Moves
  import opened Requests
  import opened Runs
  import opened Columns

  /** The request is about the prepared transfer with its key, if the very coordinator request that has
      prepared it is repeated. */
  predicate IsAbout(
    finalizations: map<TransferKey, FinalizationRequest>, prepared: map<TransferKey, PreparedTransfer>, t: TransferKey)
  {
    && t in finalizations && t in prepared
    && finalizations[t].coordinator.kind == prepared[t].coordinator.kind
    && finalizations[t].coordinator.id == prepared[t].coordinator.id
    && finalizations[t].coordinator.requestId == prepared[t].coordinator.requestId
  }

  // ---- One request

  /** Whether a commit is possible: in time, at a sufficient rate, and from what the lock is still worth, or
      from what is not locked for others. */
  predicate CanCommit(k: AccountKey, a: Account, pt: PreparedTransfer, amount: int, balance: int, now: int) {
    && now <= pt.deadline && pt.minRate <= a.rate
    && (|| amount <= balance - (a.totalLocked - pt.locked) - Bottom(k.creditor)
        || (amount <= pt.locked
            && (k.creditor == ROOT_CREDITOR_ID
                || amount as real <= pt.locked as real * Pow(pt.demurrage, Max(0, now - pt.preparedAt)))))
  }

  function StatusOf(k: AccountKey, a: Account, pt: PreparedTransfer, amount: int, balance: int, now: int): StatusCode {
    if amount == 0 || CanCommit(k, a, pt, amount, balance, now) then Ok
    else if pt.deadline < now || a.rate < pt.minRate then Terminated
    else InsufficientAvailableAmount
  }

  lemma StatusIs(f: Finalizing, k: AccountKey, t: TransferKey, opening: int, now: int)
    requires k in f.state.accounts && Matches(f.state, t)
    ensures FinalStatus(f, k, t, opening, now)
            == StatusOf(k, f.state.accounts[k], f.state.prepared[t], f.state.finalizations[t].committed,
                        opening + f.delta, now)
  {
    hide Pow;
  }

  /** The row after the transfer has been unlocked. */
  predicate IsUnlocked(a: Account, b: Account, locked: int) {
    && b.totalLocked == (if a.totalLocked <= locked then 0 else a.totalLocked - locked)
    && b.pendingTransfers == (if a.pendingTransfers <= 1 then 0 else a.pendingTransfers - 1)
    && b == a.(totalLocked := b.totalLocked, pendingTransfers := b.pendingTransfers,
               transferNumber := b.transferNumber, transferCommittedAt := b.transferCommittedAt)
  }

  /** The finalized signal tells what has become of the transfer. */
  predicate Tells(
    f: FinalizedSignal, t: TransferKey, pt: PreparedTransfer, b: Account, committed: int, status: StatusCode, now: int)
  {
    && f.key == t && f.coordinator == pt.coordinator && f.preparedAt == pt.preparedAt && f.finalizedAt == now
    && f.committed == committed && f.totalLocked == b.totalLocked && f.status == status
  }

  /** What finalizing one transfer writes: the row is unlocked, the transfer and the request are gone, and
      one finalized signal is sent.  If an amount is committed, it is sent to the recipient under a new id,
      and reported to the sender, with the coordinator and the note of the request. */
  predicate IsFinalized(f: Finalizing, f': Finalizing, k: AccountKey, t: TransferKey, opening: int, now: int)
    requires k in f.state.accounts && t in f.state.finalizations && t in f.state.prepared
  {
    var s, s', a, pt, r := f.state, f'.state, f.state.accounts[k], f.state.prepared[t], f.state.finalizations[t];
    var status := StatusOf(k, a, pt, r.committed, opening + f.delta, now);
    var committed := if status == Ok then r.committed else 0;
    && s' == s.(accounts := s'.accounts, finalizations := s.finalizations - {t}, prepared := s.prepared - {t},
                finalized := s'.finalized, emitted := s'.emitted, nextChangeId := s'.nextChangeId,
                transfers := s'.transfers)
    && f'.delta == f.delta - committed
    && k in s'.accounts && s'.accounts == s.accounts[k := s'.accounts[k]]
    && IsUnlocked(a, s'.accounts[k], pt.locked)
    && |s'.finalized| == |s.finalized| + 1 && s'.finalized[..|s.finalized|] == s.finalized
    && Tells(s'.finalized[|s.finalized|], t, pt, s'.accounts[k], committed, status, now)
    && IsCommitted(s, s', k, a, pt, r, committed, now)
  }

  /** What a commit sends. */
  predicate IsCommitted(
    s: State, s': State, k: AccountKey, a: Account, pt: PreparedTransfer, r: FinalizationRequest, committed: int,
    now: int)
    requires k in s'.accounts
  {
    if committed == 0 then
      && s'.emitted == s.emitted && s'.nextChangeId == s.nextChangeId && s'.transfers == s.transfers
      && s'.accounts[k].transferNumber == a.transferNumber
      && s'.accounts[k].transferCommittedAt == a.transferCommittedAt
    else
      && s'.nextChangeId == s.nextChangeId + 1
      && IsReported(s.transfers, s'.transfers, k, a, s'.accounts[k],
                    Report(pt.recipient, pt.coordinator.kind, now, -committed, r.note, Contain(a.principal - committed)))
      && var ck := ChangeKey(k.debtor, k.creditor, s.nextChangeId);
         && ck in s'.emitted && s'.emitted == s.emitted[ck := s'.emitted[ck]]
         && IsSent(s'.emitted[ck], pt.recipient, pt.coordinator.kind, r.note, now, committed)
         && s'.emitted[ck].checkedAt == pt.checkedAt
  }

  /** A request that is not about a prepared transfer is only removed. */
  lemma StrayRequestIsDropped(f: Finalizing, k: AccountKey, t: TransferKey, opening: int, now: int)
    requires k in f.state.accounts && !IsAbout(f.state.finalizations, f.state.prepared, t)
    ensures FinalizeOne(f, k, t, opening, now)
            == f.(state := f.state.(finalizations := f.state.finalizations - {t}))
  {
  }

  lemma ReleasedTransfer(s: State, k: AccountKey, t: TransferKey, status: StatusCode, committed: int, now: int)
    requires k in s.accounts && Matches(s, t)
    ensures var s', a, pt := Release(s, k, t, status, committed, now), s.accounts[k], s.prepared[t];
            && s' == s.(accounts := s.accounts[k := s'.accounts[k]], finalizations := s.finalizations - {t},
                        prepared := s.prepared - {t}, finalized := s'.finalized)
            && s'.accounts[k] == Released(k, a, pt, committed, now)
            && IsUnlocked(a, s'.accounts[k], pt.locked)
            && |s'.finalized| == |s.finalized| + 1 && s'.finalized[..|s.finalized|] == s.finalized
            && Tells(s'.finalized[|s.finalized|], t, pt, s'.accounts[k], committed, status, now)
  {
  }

  lemma CommitIsReported(
    transfers: seq<TransferSignal>, k: AccountKey, a: Account, pt: PreparedTransfer, note: string, committed: int, now: int)
    requires 0 < committed
    ensures var principal := Contain(a.principal - committed);
            IsReported(
              transfers,
              transfers + TransferSignals(k, a, pt.coordinator.kind, pt.recipient, now, -committed, note, principal),
              k, a, Released(k, a, pt, committed, now),
              Report(pt.recipient, pt.coordinator.kind, now, -committed, note, principal))
  {
    hide Contain;
  }

  lemma DismissalIsNotCounted(k: AccountKey, a: Account, pt: PreparedTransfer, now: int)
    ensures var b := Released(k, a, pt, 0, now);
            b.transferNumber == a.transferNumber && b.transferCommittedAt == a.transferCommittedAt
  {
  }

  /** A request about a prepared transfer finalizes it. */
  lemma MatchedRequestFinalizes(f: Finalizing, k: AccountKey, t: TransferKey, opening: int, now: int)
    requires k in f.state.accounts && IsAbout(f.state.finalizations, f.state.prepared, t)
    requires 0 <= f.state.finalizations[t].committed
    ensures IsFinalized(f, FinalizeOne(f, k, t, opening, now), k, t, opening, now)
  {
    var s, r := f.state, f.state.finalizations[t];
    assert Matches(s, t);
    StatusIs(f, k, t, opening, now);
    var committed := CommittedAmount(f, k, t, opening, now);
    assert committed == if FinalStatus(f, k, t, opening, now) == Ok then r.committed else 0;
    ReleasedTransfer(s, k, t, FinalStatus(f, k, t, opening, now), committed, now);
    if committed > 0 {
      CommitIsReported(s.transfers, k, s.accounts[k], s.prepared[t], r.note, committed, now);
    } else {
      DismissalIsNotCounted(k, s.accounts[k], s.prepared[t], now);
    }
    hide FinalStatus, StatusOf, Release, Released, CommittedAmount, TransferSignals, IsReported, IsUnlocked, Tells,
         Contain;
  }

  // ---- A batch

  /** The requests of the batch are gone, with the prepared transfers that they are about, and no others. */
  ghost predicate AreSettled(
    finalizations: map<TransferKey, FinalizationRequest>, prepared: map<TransferKey, PreparedTransfer>,
    batch: seq<TransferKey>, s': State)
  {
    && (forall t :: t in s'.finalizations <==> t in finalizations && t !in batch)
    && (forall t :: t in s'.finalizations ==> s'.finalizations[t] == finalizations[t])
    && (forall t :: t in s'.prepared <==> t in prepared && !(t in batch && IsAbout(finalizations, prepared, t)))
    && (forall t :: t in s'.prepared ==> s'.prepared[t] == prepared[t])
  }

  lemma FinalizeOneTables(f: Finalizing, k: AccountKey, t: TransferKey, opening: int, now: int)
    requires k in f.state.accounts
    ensures var s, s' := f.state, FinalizeOne(f, k, t, opening, now).state;
            && s'.finalizations == s.finalizations - {t}
            && s'.prepared == if IsAbout(s.finalizations, s.prepared, t) then s.prepared - {t} else s.prepared
  {
    hide CommittedAmount, FinalStatus, TransferSignals, Release;
    if IsAbout(f.state.finalizations, f.state.prepared, t) {
      assert Matches(f.state, t);
      ReleaseFrame(f.state, k, t, FinalStatus(f, k, t, opening, now), CommittedAmount(f, k, t, opening, now), now);
    } else {
      StrayRequestIsDropped(f, k, t, opening, now);
    }
  }

  lemma SettledOneMore(
    finalizations: map<TransferKey, FinalizationRequest>, prepared: map<TransferKey, PreparedTransfer>,
    front: seq<TransferKey>, t: TransferKey, s1: State, s': State)
    requires AreSettled(finalizations, prepared, front, s1) && t !in front && t in finalizations
    requires s'.finalizations == s1.finalizations - {t}
    requires s'.prepared == if IsAbout(s1.finalizations, s1.prepared, t) then s1.prepared - {t} else s1.prepared
    ensures AreSettled(finalizations, prepared, front + [t], s')
  {
    assert forall x :: x in front + [t] <==> x in front || x == t;
    assert IsAbout(s1.finalizations, s1.prepared, t) == IsAbout(finalizations, prepared, t);
  }

  lemma {:induction false} FinalizeAllSettles(s: State, k: AccountKey, batch: seq<TransferKey>, opening: int, now: int)
    requires k in s.accounts && Distinct(batch) && forall t <- batch :: t in s.finalizations
    ensures AreSettled(s.finalizations, s.prepared, batch, FinalizeAll(s, k, batch, opening, now).state)
  {
    hide AreSettled, FinalizeOne;
    if batch == [] {
      NothingSettled(s);
    } else {
      var n := |batch| - 1;
      var f := FinalizeAll(s, k, batch[..n], opening, now);
      FinalizeAllSettles(s, k, batch[..n], opening, now);
      FinalizeOneTables(f, k, batch[n], opening, now);
      assert batch == batch[..n] + [batch[n]] && batch[n] in batch;
      SettledOneMore(s.finalizations, s.prepared, batch[..n], batch[n], f.state,
                     FinalizeOne(f, k, batch[n], opening, now).state);
    }
  }

  lemma NothingSettled(s: State)
    ensures AreSettled(s.finalizations, s.prepared, [], s)
  {
  }

  /** A batch of a live sender settles its requests.  Without a live sender they are only removed. */
  lemma BatchSettles(s: State, k: AccountKey, batch: seq<TransferKey>)
    requires Distinct(batch) && forall t <- batch :: t in s.finalizations
    ensures var s' := FinalizeTransfers(s, k, batch, s.now);
            if k in s.accounts && !s.accounts[k].deleted then AreSettled(s.finalizations, s.prepared, batch, s')
            else s' == s.(finalizations := s'.finalizations)
                 && (forall t :: t in s'.finalizations <==> t in s.finalizations && t !in batch)
                 && (forall t :: t in s'.finalizations ==> s'.finalizations[t] == s.finalizations[t])
  {
    hide FinalizeAll, Balance, ApplyChange;
    if Live(s, k).Some? {
      FinalizeAllSettles(s, k, batch, Balance(k, s.accounts[k], s.now).Floor, s.now);
    }
  }

  /** In the middle of a batch: only the lock columns have changed, and the number of the last transfer
      if something has been committed. */
  predicate IsUnderway(a: Account, b: Account, delta: int) {
    && b == a.(totalLocked := b.totalLocked, pendingTransfers := b.pendingTransfers,
               transferNumber := b.transferNumber, transferCommittedAt := b.transferCommittedAt)
    && delta <= 0
    && (delta == 0 ==> b.transferNumber == a.transferNumber && b.transferCommittedAt == a.transferCommittedAt)
  }

  lemma ReleasedIsUnderway(
    a: Account, k: AccountKey, b: Account, delta: int, pt: PreparedTransfer, committed: int, now: int)
    requires IsUnderway(a, b, delta)
    ensures IsUnderway(a, Released(k, b, pt, committed, now), delta - Max(0, committed))
  {
  }

  lemma FinalizeOneUnderway(f: Finalizing, k: AccountKey, t: TransferKey, opening: int, now: int, a: Account)
    requires k in f.state.accounts && IsUnderway(a, f.state.accounts[k], f.delta)
    ensures var f' := FinalizeOne(f, k, t, opening, now);
            IsUnderway(a, f'.state.accounts[k], f'.delta) && f'.state.updates == f.state.updates
  {
    hide CommittedAmount, FinalStatus, TransferSignals, Release, Released, IsUnderway;
    if Matches(f.state, t) {
      var committed := CommittedAmount(f, k, t, opening, now);
      ReleaseFrame(f.state, k, t, FinalStatus(f, k, t, opening, now), committed, now);
      ReleasedIsUnderway(a, k, f.state.accounts[k], f.delta, f.state.prepared[t], committed, now);
    }
  }

  lemma {:induction false} FinalizeAllUnderway(s: State, k: AccountKey, batch: seq<TransferKey>, opening: int, now: int)
    requires k in s.accounts
    ensures var f := FinalizeAll(s, k, batch, opening, now);
            IsUnderway(s.accounts[k], f.state.accounts[k], f.delta) && f.state.updates == s.updates
  {
    hide FinalizeOne;
    if batch != [] {
      var n := |batch| - 1;
      FinalizeAllUnderway(s, k, batch[..n], opening, now);
      FinalizeOneUnderway(FinalizeAll(s, k, batch[..n], opening, now), k, batch[n], opening, now, s.accounts[k]);
    }
  }

  lemma ChargedRow(k: AccountKey, a: Account, b: Account, delta: int, now: int)
    requires IsUnderway(a, b, delta)
    ensures IsCharged(k, a, ApplyChange(k, b, delta, 0.0, now), -delta, now)
  {
    assert Balance(k, b, now) == Balance(k, a, now);
    hide Balance, Contain;
  }

  predicate IsCharged(k: AccountKey, a: Account, b: Account, taken: int, now: int) {
    && b.principal == Contain(a.principal - taken) && IsNext(a, b, now) && b.pendingUpdate
    && b.interest == Balance(k, a, now) - a.principal as real
    && (b.overflown <==> a.overflown || !(-MAX_INT64 <= a.principal - taken <= MAX_INT64))
    && b == a.(totalLocked := b.totalLocked, pendingTransfers := b.pendingTransfers, principal := b.principal,
               interest := b.interest, changes := b.changes, changeSeqnum := b.changeSeqnum, overflown := b.overflown,
               lastChangeTs := b.lastChangeTs, pendingUpdate := true, transferNumber := b.transferNumber,
               transferCommittedAt := b.transferCommittedAt)
  }

  /** The sender's row after a batch: if something is committed, then it is taken from the principal at
      once, the interest is folded in, and an update becomes pending; if not, no money moves. */
  lemma SenderIsCharged(c: Settings, s: State, k: AccountKey, batch: seq<TransferKey>)
    requires RowsOk(c, s) && k in s.accounts && !s.accounts[k].deleted && forall t <- batch :: t.account == k
    ensures var s' := FinalizeTransfers(s, k, batch, s.now);
            && k in s'.accounts
            && var a, b := s.accounts[k], s'.accounts[k];
               var taken := TotalCommitted(s'.finalized, k) - TotalCommitted(s.finalized, k);
               && s'.updates == s.updates && taken >= 0
               && if taken == 0 then b == a.(totalLocked := b.totalLocked, pendingTransfers := b.pendingTransfers)
                  else IsCharged(k, a, b, taken, s.now)
  {
    hide FinalizeAll, RowsOk, Balance, TotalCommitted, ApplyChange, IsCharged;
    var opening := Balance(k, s.accounts[k], s.now).Floor;
    var f := FinalizeAll(s, k, batch, opening, s.now);
    FinalizeAllMove(c, s, k, batch, opening);
    FinalizeAllUnderway(s, k, batch, opening, s.now);
    ChargedRow(k, s.accounts[k], f.state.accounts[k], f.delta, s.now);
  }

  // ---- Every run

  lemma BatchOfEvent(s: State, e: Event, now: int)
    requires Enabled(s, e) && e.EFinalize?
    ensures Distinct(e.transfers)
    ensures forall t <- e.transfers :: t in s.(now := now).finalizations && t.account == e.key
  {
  }

  lemma AppliesKeepPrepared(s: State, k: AccountKey, batch: seq<ChangeKey>)
    ensures ApplyChanges(s, k, batch, s.now).prepared == s.prepared
  {
    hide ApplyAll, ApplyChange, LockOrCreate;
    if batch != [] {
      ApplyAllLocks(LockOrCreate(s, k, s.now), k, batch);
    }
  }

  lemma PreparesKeepPrepared(c: Settings, s: State, rk: RequestKey, commitPeriod: int, t: TransferKey)
    requires OwnersOk(s.accounts, s.prepared) && rk in s.requests && t in s.prepared
    ensures var s' := PrepareTransfer(c, s, rk, commitPeriod, s.now); t in s'.prepared && s'.prepared[t] == s.prepared[t]
  {
    hide PrepareTransfer, Accepts, LockableAmount, NewTransfer, WithLock;
    PrepareWrites(c, s, rk, commitPeriod);
    if Accepts(s, rk, s.now) {
      FreshId(s, rk.account, s.accounts[rk.account].lastTransferId + 1);
    }
  }

  /** The prepared transfer stays as it is, unless the event is a batch with a request about it. */
  predicate LeavesOnRequest(s: State, e: Event, s': State, t: TransferKey) {
    && (t in s'.prepared ==> t in s.prepared && s'.prepared[t] == s.prepared[t])
    && (t !in s'.prepared <==> e.EFinalize? && t in e.transfers && IsAbout(s.finalizations, s.prepared, t))
  }

  lemma BatchRemoves(s: State, e: Event, now: int, t: TransferKey)
    requires OwnersOk(s.accounts, s.prepared) && t in s.prepared && Enabled(s, e) && e.EFinalize?
    ensures LeavesOnRequest(s, e, FinalizeTransfers(s.(now := now), e.key, e.transfers, now), t)
  {
    hide FinalizeTransfers, IsAbout, Enabled;
    BatchOfEvent(s, e, now);
    BatchSettles(s.(now := now), e.key, e.transfers);
  }

  lemma Stays(s: State, e: Event, s': State, t: TransferKey)
    requires !e.EFinalize? && t in s.prepared && t in s'.prepared && s'.prepared[t] == s.prepared[t]
    ensures LeavesOnRequest(s, e, s', t)
  {
  }

  lemma OwnersOf(s: State)
    requires LocksOk(s, {})
    ensures OwnersOk(s.accounts, s.prepared)
  {
  }

  /** Every step leaves a prepared transfer as it is, unless the step finalizes a request that repeats
      its coordinator exactly; and then the transfer is always gone. */
  lemma PreparedStep(c: Settings, s: State, e: Event, now: int, t: TransferKey)
    requires c.Valid() && RowsOk(c, s) && LocksOk(s, {}) && s.now <= now && Enabled(s, e) && t in s.prepared
    ensures LeavesOnRequest(s, e, Step(c, s, e, now), t)
  {
    OwnersOf(s);
    hide *;
    var s0, s' := s.(now := now), Step(c, s, e, now);
    LocksLater(s, e, now, {});
    StepCases(c, s, e, now);
    EventKinds(e);
    if e.EFinalize? {
      BatchRemoves(s, e, now, t);
    } else {
      if IsAccountEvent(e) {
        AccountEventFrame(c, s, e, now);
        AccountStepTables(s0, s', KeyOf(e));
      } else if IsQueueEvent(e) {
        QueueFrame(c, s, e, now);
        QueueKeepsPrepared(s0, s');
      } else {
        match e
        case EPrepare(rk, commitPeriod) => PreparesKeepPrepared(c, s0, rk, commitPeriod, t);
        case EApply(k, batch) => AppliesKeepPrepared(s0, k, batch);
        case EPurge(k) => PurgeLocks(c, s0, k, {});
      }
      Stays(s, e, s', t);
    }
  }

  lemma QueueKeepsPrepared(s: State, s': State)
    requires QueueStep(s, s')
    ensures s'.prepared == s.prepared
  {
  }

  /** In every run a prepared transfer stays as it is until a batch with a request of its own coordinator
      is processed; neither a purge, nor a deletion, nor a request of another coordinator removes it. */
  lemma TransfersLeaveByFinalization(c: Settings, r: Run, i: nat, t: TransferKey)
    requires IsRun(c, r) && i < |r.steps| && t in r.states[i].prepared
    ensures LeavesOnRequest(r.states[i], r.steps[i].event, r.states[i + 1], t)
  {
    hide Step, Enabled, RowsOk, LocksOk, QueuesOk, LeavesOnRequest;
    PrefixTo(c, r, i);
    AlwaysConsistent(c, Run(r.states[..i + 1], r.steps[..i]));
    assert IsStep(c, r.states[i], r.steps[i], r.states[i + 1]);
    PreparedStep(c, r.states[i], r.steps[i].event, r.steps[i].now, t);
  }
}
