/** Transfer requests: which are accepted, what each gets as its answer, and that each gets exactly one. */
module Requests {
  import opened Models
  import opened Steps
  import opened Frames
  import opened Rows
  import opened Locks
  import opened Changes
  import opened Server
  import opened Runs
  import opened Outcomes

  /** The least balance that an account may be left with: the debtor's own account may go below zero. */
  function Bottom(creditor: int): int {
    if creditor == ROOT_CREDITOR_ID then -MAX_INT64 else 0
  }

  /** What an account can lock for a request: no more than is asked for, and than what is left above the
      least balance when all other locks are taken off. */
  function MostToLock(k: AccountKey, a: Account, maxLocked: int, now: int): int {
    var left := Contain(Balance(k, a, now).Floor - a.totalLocked) - Bottom(k.creditor);
    if left <= 0 then 0 else if left < maxLocked then left else maxLocked
  }

  /** The conditions of a request, in the order in which they are checked, in terms of columns only. */
  predicate CanBePrepared(s: State, k: AccountKey, r: TransferRequest, now: int) {
    && k in s.accounts && !s.accounts[k].deleted
    && s.accounts[k].pendingTransfers < MAX_INT32
    && r.recipient != k.creditor
    && r.minRate <= s.accounts[k].rate
    && r.minLocked <= MostToLock(k, s.accounts[k], r.maxLocked, now)
  }

  /** The code of the first condition that fails. */
  function FirstFailure(s: State, k: AccountKey, r: TransferRequest): StatusCode {
    if k !in s.accounts || s.accounts[k].deleted then SenderIsUnreachable
    else if s.accounts[k].pendingTransfers >= MAX_INT32 then TooManyTransfers
    else if r.recipient == k.creditor then RecipientSameAsSender
    else if r.minRate > s.accounts[k].rate then Terminated
    else InsufficientAvailableAmount
  }

  /** The prepared transfer repeats the request.  A real constraint on the rate limits the time to commit
      to one day. */
  predicate IsAsRequested(
    c: Settings, pt: PreparedTransfer, r: TransferRequest, locked: int, commitPeriod: int, now: int)
  {
    && pt.coordinator == r.coordinator && pt.recipient == r.recipient && pt.minRate == r.minRate
    && pt.locked == locked && pt.preparedAt == now && pt.demurrage == c.floor && pt.checkedAt == r.checkedAt
    && pt.deadline <= r.deadline && pt.deadline <= now + commitPeriod
    && (c.floor < r.minRate ==> pt.deadline <= now + DAY)
    && (|| pt.deadline == r.deadline || pt.deadline == now + commitPeriod
        || (c.floor < r.minRate && pt.deadline == now + DAY))
  }

  /** The request is answered by a prepared transfer under the next id, which is announced as it is. */
  predicate IsPrepared(c: Settings, s: State, s': State, k: AccountKey, r: TransferRequest, commitPeriod: int, now: int)
    requires k in s.accounts
  {
    var a, locked := s.accounts[k], MostToLock(k, s.accounts[k], r.maxLocked, now);
    var t := TransferKey(k, a.lastTransferId + 1);
    && s'.accounts == s.accounts[k := a.(totalLocked := Min(a.totalLocked + locked, MAX_INT64),
                                         pendingTransfers := a.pendingTransfers + 1,
                                         lastTransferId := a.lastTransferId + 1)]
    && t in s'.prepared && s'.prepared == s.prepared[t := s'.prepared[t]]
    && IsAsRequested(c, s'.prepared[t], r, locked, commitPeriod, now)
    && |s'.preparations| == |s.preparations| + 1 && s'.preparations[..|s.preparations|] == s.preparations
    && s'.preparations[|s.preparations|].key == t && s'.preparations[|s.preparations|].transfer == s'.prepared[t]
    && s'.rejections == s.rejections
  }

  /** The request is answered by a rejection. */
  predicate IsRejected(s: State, s': State, k: AccountKey, r: TransferRequest) {
    && s'.accounts == s.accounts && s'.prepared == s.prepared && s'.preparations == s.preparations
    && |s'.rejections| == |s.rejections| + 1 && s'.rejections[..|s.rejections|] == s.rejections
    && var rejection := s'.rejections[|s.rejections|];
       && rejection.account == k && rejection.coordinator == r.coordinator
       && rejection.status == FirstFailure(s, k, r)
       && rejection.totalLocked == if k in s.accounts && !s.accounts[k].deleted then s.accounts[k].totalLocked else 0
  }

  lemma LocksWhatItCan(k: AccountKey, a: Account, r: TransferRequest, now: int)
    requires 0 <= r.maxLocked
    ensures LockableAmount(k, a, r, now) == MostToLock(k, a, r.maxLocked, now)
  {
    hide Balance, Contain;
  }

  lemma NewIsAsRequested(c: Settings, r: TransferRequest, amount: int, commitPeriod: int, now: int)
    ensures IsAsRequested(c, NewTransfer(c, r, amount, commitPeriod, now), r, amount, commitPeriod, now)
  {
  }

  lemma CodesAreChecked(s: State, rk: RequestKey, now: int)
    requires rk in s.requests && 0 <= s.requests[rk].maxLocked
    ensures Accepts(s, rk, now) <==> CanBePrepared(s, rk.account, s.requests[rk], now)
    ensures !Accepts(s, rk, now) ==>
              var k, r, rejection := rk.account, s.requests[rk], Rejection(s, rk, now);
              && rejection.account == k && rejection.coordinator == r.coordinator
              && rejection.status == FirstFailure(s, k, r)
              && rejection.totalLocked == if k in s.accounts && !s.accounts[k].deleted then s.accounts[k].totalLocked else 0
  {
    if rk.account in s.accounts {
      LocksWhatItCan(rk.account, s.accounts[rk.account], s.requests[rk], now);
    }
    hide LockableAmount, MostToLock;
  }

  /** A request is accepted if and only if the sender is live, has room for another pending transfer, is not
      the recipient, has a sufficient rate, and can lock what is required; otherwise it is rejected with
      the code of the first condition that fails. */
  lemma AcceptedIff(c: Settings, s: State, rk: RequestKey, commitPeriod: int)
    requires rk in s.requests && 0 <= s.requests[rk].maxLocked
    ensures var k, r, s' := rk.account, s.requests[rk], PrepareTransfer(c, s, rk, commitPeriod, s.now);
            && s' == s.(requests := s.requests - {rk}, accounts := s'.accounts, prepared := s'.prepared,
                        preparations := s'.preparations, rejections := s'.rejections)
            && if CanBePrepared(s, k, r, s.now) then IsPrepared(c, s, s', k, r, commitPeriod, s.now)
               else IsRejected(s, s', k, r)
  {
    hide LockableAmount, MostToLock, CanBePrepared, IsAsRequested, FirstFailure, Accepts, Rejection, NewTransfer,
         KeepsChanges;
    CodesAreChecked(s, rk, s.now);
    if Accepts(s, rk, s.now) {
      var k, r := rk.account, s.requests[rk];
      LocksWhatItCan(k, s.accounts[k], r, s.now);
      NewIsAsRequested(c, r, MostToLock(k, s.accounts[k], r.maxLocked, s.now), commitPeriod, s.now);
    }
  }

  // ---- Every run

  /** How many requests have been answered by a rejection.  A request without a reachable recipient does not
      wait for an answer, and is not counted. */
  function CountAnswers(rejections: seq<RejectedTransferSignal>): nat {
    if rejections == [] then 0
    else
      var n := |rejections| - 1;
      CountAnswers(rejections[..n]) + if rejections[n].status == RecipientIsUnreachable then 0 else 1
  }

  /** Each request that has ever been queued either waits, or has been answered once. */
  ghost predicate AnswersOk(s: State) {
    && 1 <= s.nextRequestId
    && (forall rk :: rk in s.requests ==> rk.id < s.nextRequestId)
    && |s.requests| + |s.preparations| + CountAnswers(s.rejections) == s.nextRequestId - 1
  }

  lemma OneMoreAnswer(rejections: seq<RejectedTransferSignal>, after: seq<RejectedTransferSignal>)
    requires |after| == |rejections| + 1 && after[..|rejections|] == rejections
    ensures CountAnswers(after)
            == CountAnswers(rejections) + if after[|rejections|].status == RecipientIsUnreachable then 0 else 1
  {
  }

  lemma PrepareAnswers(c: Settings, s: State, rk: RequestKey, commitPeriod: int)
    requires AnswersOk(s) && rk in s.requests && 0 <= s.requests[rk].maxLocked
    ensures AnswersOk(PrepareTransfer(c, s, rk, commitPeriod, s.now))
  {
    hide PrepareTransfer, CanBePrepared, MostToLock, IsAsRequested, CountAnswers;
    AcceptedIff(c, s, rk, commitPeriod);
    var s' := PrepareTransfer(c, s, rk, commitPeriod, s.now);
    assert |s.requests - {rk}| == |s.requests| - 1 by { Fewer(s.requests, rk); }
    if |s'.rejections| > |s.rejections| {
      OneMoreAnswer(s.rejections, s'.rejections);
    }
  }

  lemma Fewer<K, V>(m: map<K, V>, k: K)
    requires k in m
    ensures |m - {k}| == |m| - 1
  {
    assert m == (m - {k})[k := m[k]];
  }

  lemma RequestAnswers(s: State, k: AccountKey, request: Option<TransferRequest>, coordinator: Coordinator)
    requires AnswersOk(s)
    ensures AnswersOk(RequestTransfer(s, k, request, coordinator))
  {
    RequestWaits(s, k, request, coordinator);
    var s' := RequestTransfer(s, k, request, coordinator);
    if request.None? {
      OneMoreAnswer(s.rejections, s'.rejections);
    } else {
      assert RequestKey(k, s.nextRequestId) !in s.requests;
    }
  }

  /** The step has to do with no transfer request. */
  predicate KeepsAnswers(s: State, s': State) {
    && s'.requests == s.requests && s'.nextRequestId == s.nextRequestId
    && s'.preparations == s.preparations && s'.rejections == s.rejections
  }

  lemma FinalizeOneKeepsAnswers(f: Finalizing, k: AccountKey, t: TransferKey, opening: int, now: int)
    requires k in f.state.accounts
    ensures KeepsAnswers(f.state, FinalizeOne(f, k, t, opening, now).state)
  {
    hide CommittedAmount, FinalStatus, TransferSignals, Release, Contain;
    if Matches(f.state, t) {
      ReleaseFrame(f.state, k, t, FinalStatus(f, k, t, opening, now), CommittedAmount(f, k, t, opening, now), now);
    }
  }

  lemma {:induction false} FinalizeAllKeepsAnswers(
    s: State, k: AccountKey, batch: seq<TransferKey>, opening: int, now: int)
    requires k in s.accounts
    ensures KeepsAnswers(s, FinalizeAll(s, k, batch, opening, now).state)
  {
    hide FinalizeOne;
    if batch != [] {
      var n := |batch| - 1;
      FinalizeAllKeepsAnswers(s, k, batch[..n], opening, now);
      FinalizeOneKeepsAnswers(FinalizeAll(s, k, batch[..n], opening, now), k, batch[n], opening, now);
    }
  }

  lemma {:induction false} ApplyAllKeepsAnswers(s: State, k: AccountKey, batch: seq<ChangeKey>, now: int)
    requires k in s.accounts
    ensures KeepsAnswers(s, ApplyAll(s, k, batch, now).state)
  {
    hide DueInterest, TransferSignals, Contain, Numbered;
    if batch != [] {
      ApplyAllKeepsAnswers(s, k, batch[..|batch| - 1], now);
    }
  }

  lemma BatchesKeepAnswers(c: Settings, s: State, e: Event)
    ensures e.EFinalize? ==> KeepsAnswers(s, FinalizeTransfers(s, e.key, e.transfers, s.now))
    ensures e.EApply? ==> KeepsAnswers(s, ApplyChanges(s, e.key, e.changes, s.now))
    ensures e.EPurge? ==> KeepsAnswers(s, PurgeAccount(c, s, e.key, s.now))
  {
    hide FinalizeAll, ApplyAll, ApplyChange, Balance, LockOrCreate;
    if e.EFinalize? && Live(s, e.key).Some? {
      FinalizeAllKeepsAnswers(s, e.key, e.transfers, Balance(e.key, s.accounts[e.key], s.now).Floor, s.now);
    }
    if e.EApply? && e.changes != [] {
      OpenedRow(s, e.key);
      ApplyAllKeepsAnswers(LockOrCreate(s, e.key, s.now), e.key, e.changes, s.now);
    }
  }

  lemma QueuesKeepAnswers(s: State, e: Event)
    ensures e.ECheckRecipient? ==> KeepsAnswers(s, CheckRecipient(s, e.key, s.now))
    ensures e.ERequestFinalization? ==> KeepsAnswers(s, RequestFinalization(s, e.transfer, e.finalization))
    ensures e.EDeliver? && e.change in s.emitted ==> KeepsAnswers(s, DeliverChange(s, e.change, e.cutoff))
    ensures e.EDeleteRegistered? ==> KeepsAnswers(s, DeleteRegistered(s, e.change, e.cutoff))
  {
  }

  lemma AccountsKeepAnswers(s: State, s': State, k: AccountKey)
    requires AccountStep(s, s', k)
    ensures KeepsAnswers(s, s')
  {
    hide PaymentStep, RowStep;
  }

  lemma SameAnswers(s: State, s': State)
    requires AnswersOk(s) && KeepsAnswers(s, s')
    ensures AnswersOk(s')
  {
  }

  lemma RequestBounds(c: Settings, s: State, e: Event)
    requires RowsOk(c, s) && Enabled(s, e)
    ensures e.EPrepare? ==> e.requestKey in s.requests && 0 <= s.requests[e.requestKey].maxLocked
  {
  }

  lemma AnswersStep(c: Settings, s: State, e: Event, now: int)
    requires c.Valid() && RowsOk(c, s) && AnswersOk(s) && s.now <= now && Enabled(s, e)
    ensures AnswersOk(Step(c, s, e, now))
  {
    RequestBounds(c, s, e);
    var s0, s' := s.(now := now), Step(c, s, e, now);
    assert AnswersOk(s0);
    hide *;
    StepCases(c, s, e, now);
    EventKinds(e);
    if e.EPrepare? {
      PrepareAnswers(c, s0, e.requestKey, e.commitPeriod);
    } else if e.ERequestTransfer? {
      RequestAnswers(s0, e.key, e.request, e.coordinator);
    } else {
      if IsAccountEvent(e) {
        AccountEventFrame(c, s, e, now);
        AccountsKeepAnswers(s0, s', KeyOf(e));
      } else if IsQueueEvent(e) {
        QueueKinds(e);
        QueuesKeepAnswers(s0, e);
      } else {
        BatchesKeepAnswers(c, s0, e);
      }
      SameAnswers(s0, s');
    }
  }

  lemma QueueKinds(e: Event)
    requires IsQueueEvent(e)
    ensures e.ECheckRecipient? || e.ERequestTransfer? || e.ERequestFinalization? || e.EDeliver? || e.EDeleteRegistered?
  {
  }

  /** In every run each queued request waits, or has been answered exactly once: the waiting requests, the
      prepared transfers and the rejections together are as many as have been queued. */
  lemma {:induction false} EveryRequestIsAnsweredOnce(c: Settings, r: Run)
    requires IsRun(c, r)
    ensures AnswersOk(r.states[|r.steps|])
    decreases |r.steps|
  {
    hide RowsOk, LocksOk, QueuesOk, AnswersOk, Step, Enabled;
    if r.steps == [] {
      NothingToAnswer(r.states[0].now);
    } else {
      var n := |r.steps|;
      var front := Run(r.states[..n], r.steps[..n - 1]);
      Prefix(c, r);
      EveryRequestIsAnsweredOnce(c, front);
      AlwaysConsistent(c, front);
      AnswersStep(c, r.states[n - 1], r.steps[n - 1].event, r.steps[n - 1].now);
    }
  }

  lemma NothingToAnswer(now: int)
    ensures AnswersOk(Start(now))
  {
  }

  // ---- A batch

  /** A batch of waiting requests answers each of them, and no others. */
  lemma {:induction false} BatchAnswersAll(c: Settings, s: State, batch: seq<RequestKey>, commitPeriod: int)
    requires Distinct(batch) && forall rk <- batch :: rk in s.requests && 0 <= s.requests[rk].maxLocked
    ensures var s' := PrepareAll(c, s, batch, commitPeriod, s.now);
            && (forall rk :: rk in s'.requests <==> rk in s.requests && rk !in batch)
            && (forall rk :: rk in s'.requests ==> s'.requests[rk] == s.requests[rk])
            && s.preparations <= s'.preparations && s.rejections <= s'.rejections
            && |s'.preparations| + |s'.rejections| == |s.preparations| + |s.rejections| + |batch|
            && s'.now == s.now
  {
    hide PrepareTransfer, CanBePrepared, MostToLock, IsAsRequested, FirstFailure;
    if batch != [] {
      var n := |batch| - 1;
      BatchAnswersAll(c, s, batch[..n], commitPeriod);
      assert batch == batch[..n] + [batch[n]] && batch[n] in batch;
      AcceptedIff(c, PrepareAll(c, s, batch[..n], commitPeriod, s.now), batch[n], commitPeriod);
    }
  }
}
