/** Balance changes on their way: emitted, queued, registered, applied.  A change that the network
    delivers many times is applied once, although its registration is deleted some day. */
module Changes {
  import opened Models
  import opened Steps
  import opened Frames
  import opened Rows

  /** Only the root account can be charged by a change signal. */
  predicate EmittedOk(emitted: map<ChangeKey, BalanceChange>, nextChangeId: int, now: int) {
    forall ck :: ck in emitted ==>
      && ck.id < nextChangeId
      && emitted[ck].committedAt <= now
      && emitted[ck].delta != 0
      && (emitted[ck].creditor != ROOT_CREDITOR_ID ==> 0 < emitted[ck].delta)
  }

  /** A queued change has been emitted, and is registered as not applied yet. */
  predicate QueuedOk(
    queued: map<ChangeKey, BalanceChange>, registered: map<ChangeKey, RegisteredChange>,
    emitted: map<ChangeKey, BalanceChange>)
  {
    forall ck :: ck in queued ==>
      && ck in emitted && queued[ck] == emitted[ck]
      && ck in registered && !registered[ck].isApplied
  }

  predicate RegisteredOk(
    queued: map<ChangeKey, BalanceChange>, registered: map<ChangeKey, RegisteredChange>,
    emitted: map<ChangeKey, BalanceChange>)
  {
    forall ck :: ck in registered ==>
      && ck in emitted && registered[ck].committedAt == emitted[ck].committedAt
      && (!registered[ck].isApplied ==> ck in queued)
  }

  predicate QueuesOk(s: State) {
    && EmittedOk(s.emitted, s.nextChangeId, s.now)
    && QueuedOk(s.queued, s.registered, s.emitted)
    && RegisteredOk(s.queued, s.registered, s.emitted)
  }

  /** Every change has been applied at most once.  An applied change is still registered as such,
      or it is older than what the scanner could have deleted. */
  predicate AppliedOk(
    applied: seq<ChangeKey>, registered: map<ChangeKey, RegisteredChange>,
    emitted: map<ChangeKey, BalanceChange>, scannerCutoff: int)
  {
    && Distinct(applied)
    && (forall ck :: ck in applied ==>
         && ck in emitted
         && (if ck in registered then registered[ck].isApplied else emitted[ck].committedAt < scannerCutoff))
    && forall ck :: ck in registered && registered[ck].isApplied ==> ck in applied
  }

  predicate OnceOk(s: State) {
    AppliedOk(s.applied, s.registered, s.emitted, s.scannerCutoff)
  }

  /** The message handler never accepts what the scanner may have forgotten already. */
  predicate CutoffsAgree(s: State, e: Event) {
    e.EDeliver? ==> s.scannerCutoff <= e.cutoff
  }

  // ---- Emission

  lemma EmitOne(s: State, ck: ChangeKey, ch: BalanceChange, now: int)
    requires QueuesOk(s) && s.now <= now && ck.id == s.nextChangeId
    requires ch.committedAt == now && ch.delta != 0 && (ch.creditor != ROOT_CREDITOR_ID ==> 0 < ch.delta)
    ensures ck !in s.emitted
    ensures EmittedOk(s.emitted[ck := ch], s.nextChangeId + 1, now)
    ensures QueuedOk(s.queued, s.registered, s.emitted[ck := ch])
    ensures RegisteredOk(s.queued, s.registered, s.emitted[ck := ch])
    ensures OnceOk(s) ==> AppliedOk(s.applied, s.registered, s.emitted[ck := ch], s.scannerCutoff)
  {
    hide Distinct;
  }

  lemma QueuesLater(s: State, now: int)
    requires QueuesOk(s) && s.now <= now
    ensures QueuesOk(s.(now := now))
    ensures OnceOk(s.(now := now)) == OnceOk(s)
  {
    hide Distinct, QueuedOk, RegisteredOk;
  }

  lemma PaymentEmission(s: State, s': State, k: AccountKey)
    requires AccountStep(s, s', k) && s'.nextChangeId != s.nextChangeId
    ensures var ck := ChangeKey(k.debtor, k.creditor, s.nextChangeId);
            && ck in s'.emitted && s'.emitted == s.emitted[ck := s'.emitted[ck]]
            && s'.nextChangeId == s.nextChangeId + 1
            && s'.emitted[ck].creditor == ROOT_CREDITOR_ID && s'.emitted[ck].delta != 0
            && s'.emitted[ck].committedAt == s.now
  {
    hide RowStep;
  }

  lemma NoPaymentEmission(s: State, s': State, k: AccountKey)
    requires AccountStep(s, s', k) && s'.nextChangeId == s.nextChangeId
    ensures s'.emitted == s.emitted
  {
    hide RowStep;
  }

  lemma AccountQueues(s: State, s': State, k: AccountKey)
    requires QueuesOk(s) && AccountStep(s, s', k)
    ensures QueuesOk(s') && (OnceOk(s) ==> OnceOk(s'))
  {
    hide AccountStep, EmittedOk, QueuedOk, RegisteredOk, AppliedOk;
    AccountStepTables(s, s', k);
    if s'.nextChangeId != s.nextChangeId {
      PaymentEmission(s, s', k);
      var ck := ChangeKey(k.debtor, k.creditor, s.nextChangeId);
      EmitOne(s, ck, s'.emitted[ck], s.now);
    } else {
      NoPaymentEmission(s, s', k);
    }
  }

  lemma FinalizeOneQueues(f: Finalizing, k: AccountKey, t: TransferKey, opening: int)
    requires QueuesOk(f.state) && k in f.state.accounts
    ensures var s' := FinalizeOne(f, k, t, opening, f.state.now).state;
            && QueuesOk(s') && (OnceOk(f.state) ==> OnceOk(s')) && s'.now == f.state.now
            && s'.queued == f.state.queued && s'.registered == f.state.registered && s'.applied == f.state.applied
  {
    hide EmittedOk, QueuedOk, RegisteredOk, AppliedOk, FinalStatus, CommittedAmount, Released, TransferSignals;
    var s := f.state;
    if Matches(s, t) {
      var pt, fr, committed := s.prepared[t], s.finalizations[t], CommittedAmount(f, k, t, opening, s.now);
      if committed > 0 {
        EmitOne(s, ChangeKey(k.debtor, k.creditor, s.nextChangeId),
                BalanceChange(pt.recipient, pt.coordinator.kind, fr.note, s.now, committed, pt.checkedAt), s.now);
      }
    }
  }

  lemma {:induction false} FinalizeAllQueues(s: State, k: AccountKey, batch: seq<TransferKey>, opening: int)
    requires QueuesOk(s) && k in s.accounts
    ensures var s' := FinalizeAll(s, k, batch, opening, s.now).state;
            QueuesOk(s') && (OnceOk(s) ==> OnceOk(s')) && s'.now == s.now
  {
    hide QueuesOk, OnceOk, FinalizeOne;
    if batch != [] {
      var front := batch[..|batch| - 1];
      FinalizeAllQueues(s, k, front, opening);
      FinalizeOneQueues(FinalizeAll(s, k, front, opening, s.now), k, batch[|batch| - 1], opening);
    }
  }

  lemma SetAccountQueues(s: State, k: AccountKey, a: Account)
    requires QueuesOk(s)
    ensures QueuesOk(SetAccount(s, k, a)) && OnceOk(SetAccount(s, k, a)) == OnceOk(s)
    ensures SetAccount(s, k, a).now == s.now
  {
    hide EmittedOk, QueuedOk, RegisteredOk, AppliedOk;
  }

  lemma FinalizeQueues(s: State, k: AccountKey, batch: seq<TransferKey>)
    requires QueuesOk(s)
    ensures var s' := FinalizeTransfers(s, k, batch, s.now); QueuesOk(s') && (OnceOk(s) ==> OnceOk(s'))
  {
    hide EmittedOk, QueuedOk, RegisteredOk, AppliedOk, FinalizeAll, ApplyChange, Balance, SetAccount;
    if Live(s, k).Some? {
      var opening := Balance(k, s.accounts[k], s.now).Floor;
      FinalizeAllQueues(s, k, batch, opening);
      var f := FinalizeAll(s, k, batch, opening, s.now);
      SetAccountQueues(f.state, k, ApplyChange(k, f.state.accounts[k], f.delta, 0.0, s.now));
    }
  }

  // ---- Application

  lemma DequeueOne(s: State, ck: ChangeKey)
    requires QueuesOk(s) && ck in s.queued
    ensures ck in s.registered && ck in s.emitted && s.queued[ck] == s.emitted[ck]
    ensures QueuedOk(s.queued - {ck}, s.registered[ck := s.registered[ck].(isApplied := true)], s.emitted)
    ensures RegisteredOk(s.queued - {ck}, s.registered[ck := s.registered[ck].(isApplied := true)], s.emitted)
    ensures OnceOk(s) ==> ck !in s.applied
  {
    hide Distinct, EmittedOk;
  }

  /** Only a change that has not been applied before can be queued. */
  lemma MarkOne(s: State, ck: ChangeKey)
    requires OnceOk(s) && ck in s.registered && ck in s.emitted && ck !in s.applied
    ensures AppliedOk(s.applied + [ck], s.registered[ck := s.registered[ck].(isApplied := true)], s.emitted,
                      s.scannerCutoff)
  {
    var applied := s.applied + [ck];
    assert forall i :: 0 <= i < |s.applied| ==> s.applied[i] in s.applied;
    assert forall x :: x in applied <==> x in s.applied || x == ck;
  }

  lemma ApplyOneQueues(b: Crediting, k: AccountKey, ck: ChangeKey)
    requires QueuesOk(b.state) && k in b.state.accounts
    ensures var s' := ApplyOne(b, k, ck, b.state.now).state;
            QueuesOk(s') && (OnceOk(b.state) ==> OnceOk(s')) && s'.now == b.state.now
  {
    hide EmittedOk, QueuedOk, RegisteredOk, AppliedOk, DueInterest, TransferSignals, Numbered;
    var s := b.state;
    if ck in s.queued {
      DequeueOne(s, ck);
      if OnceOk(s) {
        MarkOne(s, ck);
      }
    }
  }

  lemma {:induction false} ApplyAllQueues(s: State, k: AccountKey, batch: seq<ChangeKey>)
    requires QueuesOk(s) && k in s.accounts
    ensures var s' := ApplyAll(s, k, batch, s.now).state;
            QueuesOk(s') && (OnceOk(s) ==> OnceOk(s')) && s'.now == s.now
  {
    hide QueuesOk, OnceOk, ApplyOne;
    if batch != [] {
      var front := batch[..|batch| - 1];
      ApplyAllQueues(s, k, front);
      ApplyOneQueues(ApplyAll(s, k, front, s.now), k, batch[|batch| - 1]);
    }
  }

  lemma ApplyQueues(s: State, k: AccountKey, batch: seq<ChangeKey>)
    requires QueuesOk(s)
    ensures var s' := ApplyChanges(s, k, batch, s.now); QueuesOk(s') && (OnceOk(s) ==> OnceOk(s'))
  {
    hide QueuesOk, OnceOk, AccountStep, LockOrCreate, ApplyAll, ApplyChange, SetAccount;
    if batch != [] {
      var s1 := LockOrCreate(s, k, s.now);
      LockOrCreateFrame(s, k);
      AccountStepTables(s, s1, k);
      AccountQueues(s, s1, k);
      ApplyAllQueues(s1, k, batch);
      var b := ApplyAll(s1, k, batch, s.now);
      SetAccountQueues(b.state, k, ApplyChange(k, b.state.accounts[k], b.principalDelta, b.interestDelta, s.now));
    }
  }

  // ---- Delivery and garbage collection

  lemma DeliverQueues(s: State, ck: ChangeKey, cutoff: int)
    requires QueuesOk(s) && ck in s.emitted
    ensures var s' := DeliverChange(s, ck, cutoff);
            QueuesOk(s') && (OnceOk(s) && s.scannerCutoff <= cutoff ==> OnceOk(s'))
  {
    hide Distinct, EmittedOk;
  }

  /** A change that is received in time is queued or has been applied; it is not lost. */
  lemma DeliverKeeps(s: State, ck: ChangeKey, cutoff: int)
    requires QueuesOk(s) && OnceOk(s) && ck in s.emitted && cutoff <= s.emitted[ck].committedAt
    ensures var s' := DeliverChange(s, ck, cutoff); ck in s'.queued || ck in s'.applied
  {
    hide Distinct, EmittedOk;
  }

  /** Forgetting an applied change that is older than the cutoff. */
  lemma Forget(s: State, ck: ChangeKey, cutoff: int)
    requires QueuesOk(s) && ck in s.registered && s.registered[ck].committedAt < cutoff && s.registered[ck].isApplied
    ensures QueuedOk(s.queued, s.registered - {ck}, s.emitted)
    ensures RegisteredOk(s.queued, s.registered - {ck}, s.emitted)
    ensures OnceOk(s) ==> AppliedOk(s.applied, s.registered - {ck}, s.emitted, Max(s.scannerCutoff, cutoff))
  {
    hide Distinct, EmittedOk;
  }

  lemma LaterCutoff(s: State, cutoff: int)
    requires OnceOk(s)
    ensures AppliedOk(s.applied, s.registered, s.emitted, Max(s.scannerCutoff, cutoff))
  {
    hide Distinct;
  }

  lemma DeleteRegisteredQueues(s: State, ck: ChangeKey, cutoff: int)
    requires QueuesOk(s)
    ensures var s' := DeleteRegistered(s, ck, cutoff); QueuesOk(s') && (OnceOk(s) ==> OnceOk(s'))
  {
    hide EmittedOk, QueuedOk, RegisteredOk, AppliedOk;
    if OnceOk(s) {
      LaterCutoff(s, cutoff);
    }
    if ck in s.registered && s.registered[ck].committedAt < cutoff && s.registered[ck].isApplied {
      Forget(s, ck, cutoff);
    }
  }

  lemma SameQueues(s: State, s': State)
    requires QueuesOk(s) && KeepsChanges(s, s')
    ensures QueuesOk(s') && OnceOk(s') == OnceOk(s)
  {
    hide EmittedOk, QueuedOk, RegisteredOk, AppliedOk;
  }

  /** Every step keeps the queues in order.  No step applies a change twice, as long as the message
      handler and the scanner agree on what is too old. */
  lemma QueuesStep(c: Settings, s: State, e: Event, now: int)
    requires c.Valid() && RowsOk(c, s) && QueuesOk(s) && s.now <= now && Enabled(s, e)
    ensures QueuesOk(Step(c, s, e, now))
    ensures OnceOk(s) && CutoffsAgree(s, e) ==> OnceOk(Step(c, s, e, now))
  {
    assert e.EDeliver? && CutoffsAgree(s, e) ==> s.scannerCutoff <= e.cutoff;
    hide *;
    var s0, s' := s.(now := now), Step(c, s, e, now);
    QueuesLater(s, now);
    StepCases(c, s, e, now);
    EventKinds(e);
    if IsAccountEvent(e) {
      AccountEventFrame(c, s, e, now);
      AccountQueues(s0, s', KeyOf(e));
    } else {
      match e
      case EFinalize(k, batch) => FinalizeQueues(s0, k, batch);
      case EApply(k, batch) => ApplyQueues(s0, k, batch);
      case EDeliver(ck, cutoff) => DeliverQueues(s0, ck, cutoff);
      case EDeleteRegistered(ck, cutoff) => DeleteRegisteredQueues(s0, ck, cutoff);
      case EPrepare(rk, commitPeriod) =>
        PrepareKeeps(c, s0, rk, commitPeriod);
        SameQueues(s0, s');
      case _ =>
        OtherEvents(e);
        SameQueues(s0, s');
    }
  }

  lemma OtherEvents(e: Event)
    requires !IsAccountEvent(e) && !e.EFinalize? && !e.EApply? && !e.EDeliver? && !e.EDeleteRegistered?
    requires !e.EPrepare?
    ensures e.ECheckRecipient? || e.ERequestTransfer? || e.ERequestFinalization? || e.EPurge?
  {
  }
}
