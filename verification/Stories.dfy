/** The story of each prepared transfer, from its preparation to its end: none is lost, none is finalized
    for another coordinator, and what is committed is sent to the recipient. */
module Stories {
  import opened Models
  import opened Steps
  import opened Frames
  import opened Rows
  import opened Locks
  import opened Changes
  import opened Identity
  import opened Runs
  import opened Requests
  import opened Columns
  import opened Finalizations
  import LateCredit

  /** The committed amount has been sent to the recipient, in the moment of the commit. */
  ghost predicate HasBeenSent(p: PreparedSignal, f: FinalizedSignal, emitted: map<ChangeKey, BalanceChange>) {
    exists ck :: ck in emitted && IsSentFor(p, f, ck, emitted[ck])
  }

  predicate IsSentFor(p: PreparedSignal, f: FinalizedSignal, ck: ChangeKey, ch: BalanceChange) {
    && ck.debtor == p.key.account.debtor && ck.other == p.key.account.creditor
    && IsSent(ch, p.transfer.recipient, p.transfer.coordinator.kind, ch.note, f.finalizedAt, f.committed)
  }

  /** The transfer has ended for the coordinator that asked for it; and an amount was committed in time only,
      and has been sent. */
  ghost predicate IsEndOf(p: PreparedSignal, f: FinalizedSignal, emitted: map<ChangeKey, BalanceChange>) {
    && f.key == p.key && f.coordinator == p.transfer.coordinator
    && f.preparedAt == p.transfer.preparedAt <= f.finalizedAt
    && 0 <= f.committed && (f.status != Ok ==> f.committed == 0)
    && (0 < f.committed ==> f.finalizedAt <= p.transfer.deadline && HasBeenSent(p, f, emitted))
  }

  ghost predicate HasStart(
    f: FinalizedSignal, preparations: seq<PreparedSignal>, emitted: map<ChangeKey, BalanceChange>)
  {
    exists p :: p in preparations && IsEndOf(p, f, emitted)
  }

  /** Each prepared transfer is as announced; each announced transfer is still prepared, or has been
      finalized; each finalized signal is the end of an announced transfer. */
  ghost predicate StoriesOk(s: State) {
    && (forall t :: t in s.prepared ==> PreparedSignal(t, s.prepared[t]) in s.preparations)
    && (forall p <- s.preparations :: p.key in s.prepared || p.key in FinalizedKeys(s.finalized))
    && (forall f <- s.finalized :: HasStart(f, s.preparations, s.emitted))
  }

  // ---- Steps that only send

  predicate AreSentOnly(s: State, s': State) {
    && s'.prepared == s.prepared && s'.preparations == s.preparations && s'.finalized == s.finalized
    && IsMore(s.emitted, s'.emitted)
  }

  predicate IsMore(emitted: map<ChangeKey, BalanceChange>, after: map<ChangeKey, BalanceChange>) {
    forall ck :: ck in emitted ==> ck in after && after[ck] == emitted[ck]
  }

  lemma StillHasStart(
    f: FinalizedSignal, preparations: seq<PreparedSignal>, emitted: map<ChangeKey, BalanceChange>,
    more: seq<PreparedSignal>, after: map<ChangeKey, BalanceChange>)
    requires HasStart(f, preparations, emitted) && preparations <= more && IsMore(emitted, after)
    ensures HasStart(f, more, after)
  {
    hide IsSentFor;
    var p :| p in preparations && IsEndOf(p, f, emitted);
    assert p in more && IsEndOf(p, f, after);
  }

  lemma SentOnly(s: State, s': State)
    requires StoriesOk(s) && AreSentOnly(s, s')
    ensures StoriesOk(s')
  {
    hide HasStart, IsMore;
    forall f | f in s'.finalized
      ensures HasStart(f, s'.preparations, s'.emitted)
    {
      StillHasStart(f, s.preparations, s.emitted, s'.preparations, s'.emitted);
    }
  }

  // ---- Preparation

  lemma PrepareStories(c: Settings, s: State, rk: RequestKey, commitPeriod: int)
    requires StoriesOk(s) && rk in s.requests && 0 <= s.requests[rk].maxLocked
    ensures StoriesOk(PrepareTransfer(c, s, rk, commitPeriod, s.now))
  {
    hide PrepareTransfer, CanBePrepared, MostToLock, IsAsRequested, HasStart, FinalizedKeys;
    AcceptedIff(c, s, rk, commitPeriod);
    var s' := PrepareTransfer(c, s, rk, commitPeriod, s.now);
    if s'.preparations != s.preparations {
      var p := s'.preparations[|s.preparations|];
      assert s'.preparations == s.preparations + [p];
      forall f | f in s'.finalized
        ensures HasStart(f, s'.preparations, s'.emitted)
      {
        NothingSent(s.emitted);
        StillHasStart(f, s.preparations, s.emitted, s'.preparations, s'.emitted);
      }
    }
  }

  lemma NothingSent(emitted: map<ChangeKey, BalanceChange>)
    ensures IsMore(emitted, emitted)
  {
  }

  // ---- Finalization

  lemma NewIsMore(s: State, k: AccountKey, after: map<ChangeKey, BalanceChange>)
    requires QueuesOk(s)
    requires var ck := ChangeKey(k.debtor, k.creditor, s.nextChangeId);
             after == s.emitted || (ck in after && after == s.emitted[ck := after[ck]])
    ensures IsMore(s.emitted, after)
  {
    hide QueuedOk, RegisteredOk;
  }

  /** The signal of a finalization is the end of the transfer that it removes. */
  lemma FinalizedIsEnd(c: Settings, f: Finalizing, f': Finalizing, k: AccountKey, t: TransferKey, opening: int)
    requires k in f.state.accounts && t in f.state.finalizations && t in f.state.prepared && t.account == k
    requires IsFinalized(f, f', k, t, opening, f.state.now)
    requires PreparedOk(c, f.state.prepared[t], f.state.now) && 0 <= f.state.finalizations[t].committed
    ensures IsEndOf(PreparedSignal(t, f.state.prepared[t]), f'.state.finalized[|f.state.finalized|], f'.state.emitted)
  {
    hide IsUnlocked, IsReported, Contain;
    var s, s' := f.state, f'.state;
    var p, signal := PreparedSignal(t, s.prepared[t]), s'.finalized[|s.finalized|];
    if 0 < signal.committed {
      var ck := ChangeKey(k.debtor, k.creditor, s.nextChangeId);
      assert ck in s'.emitted && IsSentFor(p, signal, ck, s'.emitted[ck]);
    }
  }

  lemma FinalizeOneStories(c: Settings, f: Finalizing, k: AccountKey, t: TransferKey, opening: int)
    requires StoriesOk(f.state) && RowsOk(c, f.state) && QueuesOk(f.state)
    requires k in f.state.accounts && t.account == k
    ensures StoriesOk(FinalizeOne(f, k, t, opening, f.state.now).state)
  {
    hide FinalizeOne, HasStart, IsEndOf, QueuesOk, AccountsOk, RequestsOk, StatusOf, IsUnlocked, Tells, IsReported,
         IsSent, Contain, FinalizedKeys, IsMore, IsFinalized, PreparedOk;
    var s, f' := f.state, FinalizeOne(f, k, t, opening, f.state.now);
    if IsAbout(s.finalizations, s.prepared, t) {
      MatchedRequestFinalizes(f, k, t, opening, s.now);
      FinalizedIsEnd(c, f, f', k, t, opening);
      FinalizedWrites(f, f', k, t, opening);
      NewIsMore(s, k, f'.state.emitted);
      EndedStories(s, f'.state, t);
    } else {
      StrayRequestIsDropped(f, k, t, opening, s.now);
      NothingSent(s.emitted);
      SentOnly(s, f'.state);
    }
  }

  lemma FinalizedWrites(f: Finalizing, f': Finalizing, k: AccountKey, t: TransferKey, opening: int)
    requires k in f.state.accounts && t in f.state.finalizations && t in f.state.prepared && t.account == k
    requires IsFinalized(f, f', k, t, opening, f.state.now)
    ensures var s, s' := f.state, f'.state;
            && s'.prepared == s.prepared - {t} && s'.preparations == s.preparations
            && |s'.finalized| == |s.finalized| + 1 && s'.finalized[..|s.finalized|] == s.finalized
            && s'.finalized[|s.finalized|].key == t
            && var ck := ChangeKey(k.debtor, k.creditor, s.nextChangeId);
               s'.emitted == s.emitted || (ck in s'.emitted && s'.emitted == s.emitted[ck := s'.emitted[ck]])
  {
    hide StatusOf, IsUnlocked, IsReported, IsSent, Contain;
  }

  lemma EndedStories(s: State, s': State, t: TransferKey)
    requires StoriesOk(s) && t in s.prepared && IsMore(s.emitted, s'.emitted)
    requires s'.prepared == s.prepared - {t} && s'.preparations == s.preparations
    requires |s'.finalized| == |s.finalized| + 1 && s'.finalized[..|s.finalized|] == s.finalized
    requires s'.finalized[|s.finalized|].key == t
    requires IsEndOf(PreparedSignal(t, s.prepared[t]), s'.finalized[|s.finalized|], s'.emitted)
    ensures StoriesOk(s')
  {
    hide IsEndOf, IsMore;
    var signal := s'.finalized[|s.finalized|];
    assert s'.finalized == s.finalized + [signal];
    assert HasStart(signal, s'.preparations, s'.emitted);
    hide HasStart;
    forall f | f in s.finalized
      ensures HasStart(f, s'.preparations, s'.emitted)
    {
      StillHasStart(f, s.preparations, s.emitted, s'.preparations, s'.emitted);
    }
    assert forall f :: f in s'.finalized <==> f in s.finalized || f == signal;
  }

  lemma {:induction false} FinalizeAllStories(
    c: Settings, s: State, k: AccountKey, batch: seq<TransferKey>, opening: int)
    requires StoriesOk(s) && RowsOk(c, s) && QueuesOk(s)
    requires k in s.accounts && !s.accounts[k].deleted && forall t <- batch :: t.account == k
    ensures StoriesOk(FinalizeAll(s, k, batch, opening, s.now).state)
  {
    hide StoriesOk, RowsOk, QueuesOk, FinalizeOne;
    if batch != [] {
      var n := |batch| - 1;
      FinalizeAllStories(c, s, k, batch[..n], opening);
      FinalizeRows(c, s, k, batch[..n], opening);
      FinalizeAllQueues(s, k, batch[..n], opening);
      FinalizeOneStories(c, FinalizeAll(s, k, batch[..n], opening, s.now), k, batch[n], opening);
    }
  }

  lemma FinalizeStories(c: Settings, s: State, k: AccountKey, batch: seq<TransferKey>)
    requires StoriesOk(s) && RowsOk(c, s) && QueuesOk(s) && forall t <- batch :: t.account == k
    ensures StoriesOk(FinalizeTransfers(s, k, batch, s.now))
  {
    hide HasStart, RowsOk, QueuesOk, FinalizeAll, Balance, ApplyChange, FinalizedKeys;
    if Live(s, k).Some? {
      FinalizeAllStories(c, s, k, batch, Balance(k, s.accounts[k], s.now).Floor);
    }
  }

  // ---- Every run

  lemma BatchOwners(s: State, e: Event)
    requires Enabled(s, e)
    ensures e.EFinalize? ==> forall t <- e.transfers :: t.account == e.key
  {
  }

  lemma AppliesKeepStories(s: State, k: AccountKey, batch: seq<ChangeKey>)
    ensures AreSentOnly(s, ApplyChanges(s, k, batch, s.now)) || !QueuesOk(s)
  {
    hide ApplyAll, ApplyChange, LockOrCreate, QueuesOk, AccountStep;
    if batch != [] && QueuesOk(s) {
      var s1 := LockOrCreate(s, k, s.now);
      LockOrCreateFrame(s, k);
      AccountStepTables(s, s1, k);
      NoPaymentEmission(s, s1, k);
      AccountsKeepAnswers(s, s1, k);
      ApplyAllKeepsSignals(s1, k, batch);
    }
  }

  lemma {:induction false} ApplyAllKeepsSignals(s: State, k: AccountKey, batch: seq<ChangeKey>)
    requires k in s.accounts
    ensures var s' := ApplyAll(s, k, batch, s.now).state;
            && s'.prepared == s.prepared && s'.preparations == s.preparations && s'.finalized == s.finalized
            && s'.emitted == s.emitted
  {
    hide DueInterest, TransferSignals, Contain, Numbered;
    if batch != [] {
      ApplyAllKeepsSignals(s, k, batch[..|batch| - 1]);
    }
  }

  lemma EventsKeepStories(c: Settings, s: State, s': State, e: Event)
    ensures QueueStep(s, s') ==>
              s'.prepared == s.prepared && s'.preparations == s.preparations && s'.finalized == s.finalized
    ensures e.EPurge? ==> var s1 := PurgeAccount(c, s, e.key, s.now);
                          s1.preparations == s.preparations && s1.finalized == s.finalized
  {
  }

  lemma SentMore(s: State, s': State)
    requires LateCredit.OnlyEmits(s, s')
    requires s'.prepared == s.prepared && s'.preparations == s.preparations && s'.finalized == s.finalized
    ensures AreSentOnly(s, s')
  {
  }

  lemma StoriesLater(s: State, now: int)
    requires StoriesOk(s)
    ensures StoriesOk(s.(now := now))
  {
    hide HasStart, FinalizedKeys;
  }

  lemma KeepsAnswersOf(s: State, s': State)
    requires KeepsAnswers(s, s')
    ensures s'.preparations == s.preparations
  {
  }

  /** Every step keeps the stories. */
  lemma StoriesStep(c: Settings, s: State, e: Event, now: int)
    requires c.Valid() && RowsOk(c, s) && LocksOk(s, {}) && QueuesOk(s) && StoriesOk(s)
    requires s.now <= now && Enabled(s, e)
    ensures StoriesOk(Step(c, s, e, now))
  {
    RequestBounds(c, s, e);
    BatchOwners(s, e);
    hide *;
    var s0, s' := s.(now := now), Step(c, s, e, now);
    StoriesLater(s, now);
    RowsLater(c, s, now);
    QueuesLater(s, now);
    LocksLater(s, e, now, {});
    StepCases(c, s, e, now);
    EventKinds(e);
    if e.EPrepare? {
      PrepareStories(c, s0, e.requestKey, e.commitPeriod);
    } else if e.EFinalize? {
      FinalizeStories(c, s0, e.key, e.transfers);
    } else if e.EApply? {
      AppliesKeepStories(s0, e.key, e.changes);
      SentOnly(s0, s');
    } else {
      OtherEventsSend(c, s, e, now);
      SentOnly(s0, s');
    }
  }

  lemma OtherEventsSend(c: Settings, s: State, e: Event, now: int)
    requires c.Valid() && RowsOk(c, s) && LocksOk(s, {}) && QueuesOk(s) && s.now <= now && Enabled(s, e)
    requires !e.EPrepare? && !e.EFinalize? && !e.EApply?
    ensures AreSentOnly(s.(now := now), Step(c, s, e, now))
  {
    hide *;
    var s0, s' := s.(now := now), Step(c, s, e, now);
    LocksLater(s, e, now, {});
    StepCases(c, s, e, now);
    EventKinds(e);
    EventsKeepStories(c, s0, s', e);
    if IsAccountEvent(e) {
      AccountEventFrame(c, s, e, now);
      AccountStepTables(s0, s', KeyOf(e));
      AccountsKeepAnswers(s0, s', KeyOf(e));
      KeepsAnswersOf(s0, s');
    } else if IsQueueEvent(e) {
      QueueFrame(c, s, e, now);
    } else {
      PurgeLocks(c, s0, e.key, {});
    }
    LateCredit.StepEmits(c, s, e, now);
    SentMore(s0, s');
  }

  /** In every run each prepared transfer is as it was announced, none is lost, and each finalized signal is
      the end of an announced transfer, for its own coordinator; committed amounts have been sent. */
  lemma {:induction false} StoriesHold(c: Settings, r: Run)
    requires IsRun(c, r)
    ensures StoriesOk(r.states[|r.steps|])
    decreases |r.steps|
  {
    hide RowsOk, LocksOk, QueuesOk, StoriesOk, Step, Enabled;
    if r.steps == [] {
      NoStoriesAtStart(r.states[0].now);
    } else {
      var n := |r.steps|;
      var front := Run(r.states[..n], r.steps[..n - 1]);
      Prefix(c, r);
      StoriesHold(c, front);
      AlwaysConsistent(c, front);
      StoriesStep(c, r.states[n - 1], r.steps[n - 1].event, r.steps[n - 1].now);
    }
  }

  lemma NoStoriesAtStart(now: int)
    ensures StoriesOk(Start(now))
  {
  }

  /** In every run each announced transfer is either still prepared, or has been finalized, and not both;
      and it is finalized once only. */
  lemma EveryTransferEndsOnce(c: Settings, r: Run, p: PreparedSignal)
    requires IsRun(c, r) && AlwaysIdSpace(r) && p in r.states[|r.steps|].preparations
    ensures var s := r.states[|r.steps|];
            && (p.key in s.prepared ==> s.prepared[p.key] == p.transfer)
            && (p.key in s.prepared <==> forall f <- s.finalized :: f.key != p.key)
            && forall i, j ::
                 (0 <= i < |s.finalized| && 0 <= j < |s.finalized| && s.finalized[i].key == p.key == s.finalized[j].key)
                 ==> i == j
  {
    hide IsStep, HasStart, GivenOut, IdSpace;
    var s := r.states[|r.steps|];
    StoriesHold(c, r);
    FinalizedAtMostOnce(c, r);
    if p.key in s.prepared {
      var q := PreparedSignal(p.key, s.prepared[p.key]);
      var i :| 0 <= i < |s.preparations| && s.preparations[i] == p;
      var j :| 0 <= j < |s.preparations| && s.preparations[j] == q;
      assert i == j;
    }
    assert (exists f :: f in s.finalized && f.key == p.key) ==> p.key in FinalizedKeys(s.finalized);
  }
}
