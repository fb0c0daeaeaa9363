/** Conservation: for each debtor, the principals of all accounts and the changes that are still
    on their way always add up to zero. */
module Money {
  import opened Totals
  import opened Models
  import opened Steps
  import opened Frames
  import opened Rows
  import opened Changes

  function Principals(accounts: map<AccountKey, Account>, debtor: int): map<AccountKey, real> {
    map k | k in accounts && k.debtor == debtor :: accounts[k].principal as real
  }

  /** The changes that have been emitted and not applied: sent, queued, or lost in the network. */
  function Outstanding(
    emitted: map<ChangeKey, BalanceChange>, applied: seq<ChangeKey>, debtor: int): map<ChangeKey, real>
  {
    map ck | ck in emitted && ck.debtor == debtor && ck !in applied :: emitted[ck].delta as real
  }

  ghost function Total(s: State, debtor: int): real {
    Sum(Principals(s.accounts, debtor)) + Sum(Outstanding(s.emitted, s.applied, debtor))
  }

  /** No account of the debtor carries the overflown flag. */
  predicate NoOverflow(s: State, debtor: int) {
    forall k :: k in s.accounts && k.debtor == debtor ==> !s.accounts[k].overflown
  }

  function Share(k: AccountKey, debtor: int, amount: int): real {
    if k.debtor == debtor then amount as real else 0.0
  }

  // ---- Sums

  lemma WritePrincipal(accounts: map<AccountKey, Account>, k: AccountKey, a: Account, debtor: int)
    ensures var was := if k in accounts then accounts[k].principal else 0;
            Sum(Principals(accounts[k := a], debtor))
            == Sum(Principals(accounts, debtor)) + Share(k, debtor, a.principal - was)
  {
    var m := Principals(accounts, debtor);
    if k.debtor != debtor {
      assert Principals(accounts[k := a], debtor) == m;
    } else {
      assert Principals(accounts[k := a], debtor) == m[k := a.principal as real];
      if k in accounts {
        SumUpdate(m, k, a.principal as real);
      } else {
        SumInsert(m, k, a.principal as real);
      }
    }
  }

  lemma DropPrincipal(accounts: map<AccountKey, Account>, k: AccountKey, debtor: int)
    requires k in accounts && accounts[k].principal == 0
    ensures Sum(Principals(accounts - {k}, debtor)) == Sum(Principals(accounts, debtor))
  {
    var m := Principals(accounts, debtor);
    if k.debtor != debtor {
      assert Principals(accounts - {k}, debtor) == m;
    } else {
      assert Principals(accounts - {k}, debtor) == m - {k};
      SumWithout(m, k);
    }
  }

  lemma AddOutstanding(
    emitted: map<ChangeKey, BalanceChange>, applied: seq<ChangeKey>, ck: ChangeKey, ch: BalanceChange, debtor: int)
    requires ck !in emitted && ck !in applied
    ensures Sum(Outstanding(emitted[ck := ch], applied, debtor))
            == Sum(Outstanding(emitted, applied, debtor))
               + if ck.debtor == debtor then ch.delta as real else 0.0
  {
    var m := Outstanding(emitted, applied, debtor);
    if ck.debtor != debtor {
      assert Outstanding(emitted[ck := ch], applied, debtor) == m;
    } else {
      assert Outstanding(emitted[ck := ch], applied, debtor) == m[ck := ch.delta as real];
      SumInsert(m, ck, ch.delta as real);
    }
  }

  lemma SettleOutstanding(emitted: map<ChangeKey, BalanceChange>, applied: seq<ChangeKey>, ck: ChangeKey, debtor: int)
    requires ck in emitted && ck !in applied
    ensures Sum(Outstanding(emitted, applied + [ck], debtor))
            == Sum(Outstanding(emitted, applied, debtor))
               - if ck.debtor == debtor then emitted[ck].delta as real else 0.0
  {
    var m, after := Outstanding(emitted, applied, debtor), applied + [ck];
    assert forall x :: x in after <==> x in applied || x == ck;
    if ck.debtor != debtor {
      assert Outstanding(emitted, after, debtor) == m;
    } else {
      assert Outstanding(emitted, after, debtor) == m - {ck};
      SumWithout(m, ck);
    }
  }

  /** A new change id has never been used. */
  lemma NewChange(s: State, ck: ChangeKey)
    requires QueuesOk(s) && OnceOk(s) && ck.id == s.nextChangeId
    ensures ck !in s.emitted && ck !in s.applied
  {
    hide Distinct;
  }

  // ---- Steps

  lemma PaymentBalances(s: State, s': State, k: AccountKey)
    requires AccountStep(s, s', k) && k in s'.accounts
    requires !s'.accounts[k].overflown
    ensures s'.accounts[k].principal == RowOf(s, k).principal + PaidAmount(s, s', k)
    ensures s'.nextChangeId == s.nextChangeId ==> s'.emitted == s.emitted && PaidAmount(s, s', k) == 0
    ensures s'.nextChangeId != s.nextChangeId ==>
              var ck := ChangeKey(k.debtor, k.creditor, s.nextChangeId);
              && ck in s'.emitted && s'.emitted == s.emitted[ck := s'.emitted[ck]]
              && s'.emitted[ck].delta == -PaidAmount(s, s', k)
    ensures s'.accounts == s.accounts[k := s'.accounts[k]]
  {
    hide RowStep, NewAccount;
  }

  lemma AccountMoney(s: State, s': State, k: AccountKey, debtor: int)
    requires QueuesOk(s) && OnceOk(s) && AccountStep(s, s', k) && NoOverflow(s', debtor)
    ensures Total(s', debtor) == Total(s, debtor)
  {
    hide AccountStep, QueuesOk, OnceOk, Principals, Outstanding, PaidAmount;
    AccountStepTables(s, s', k);
    if k in s'.accounts && !s'.accounts[k].overflown {
      PaymentBalances(s, s', k);
      WritePrincipal(s.accounts, k, s'.accounts[k], debtor);
      if s'.nextChangeId != s.nextChangeId {
        var ck := ChangeKey(k.debtor, k.creditor, s.nextChangeId);
        NewChange(s, ck);
        AddOutstanding(s.emitted, s.applied, ck, s'.emitted[ck], debtor);
      }
    } else {
      OtherDebtorMoney(s, s', k, debtor);
    }
  }

  lemma OtherDebtorMoney(s: State, s': State, k: AccountKey, debtor: int)
    requires QueuesOk(s) && OnceOk(s) && AccountStep(s, s', k)
    requires k !in s'.accounts || k.debtor != debtor
    ensures Total(s', debtor) == Total(s, debtor)
  {
    hide RowStep, QueuesOk, OnceOk, Principals, Outstanding;
    if s'.nextChangeId != s.nextChangeId {
      var ck := ChangeKey(k.debtor, k.creditor, s.nextChangeId);
      NewChange(s, ck);
      AddOutstanding(s.emitted, s.applied, ck, s'.emitted[ck], debtor);
    }
    if s'.accounts != s.accounts {
      WritePrincipal(s.accounts, k, s'.accounts[k], debtor);
    }
  }

  lemma FinalizeOneMoney(f: Finalizing, k: AccountKey, t: TransferKey, opening: int, debtor: int)
    requires QueuesOk(f.state) && OnceOk(f.state) && k in f.state.accounts
    ensures var f' := FinalizeOne(f, k, t, opening, f.state.now);
            && Total(f'.state, debtor) + Share(k, debtor, f'.delta)
               == Total(f.state, debtor) + Share(k, debtor, f.delta)
            && f'.state.accounts[k].principal == f.state.accounts[k].principal
  {
    hide QueuesOk, OnceOk, Principals, Outstanding, FinalStatus, CommittedAmount, TransferSignals;
    var s, f' := f.state, FinalizeOne(f, k, t, opening, f.state.now);
    if Matches(s, t) {
      var committed := CommittedAmount(f, k, t, opening, s.now);
      WritePrincipal(s.accounts, k, f'.state.accounts[k], debtor);
      if committed > 0 {
        var ck := ChangeKey(k.debtor, k.creditor, s.nextChangeId);
        NewChange(s, ck);
        AddOutstanding(s.emitted, s.applied, ck, f'.state.emitted[ck], debtor);
      }
    }
  }

  /** In the middle of a batch, what has been emitted is what the sender still owes. */
  lemma {:induction false} FinalizeAllMoney(
    s: State, k: AccountKey, batch: seq<TransferKey>, opening: int, debtor: int)
    requires QueuesOk(s) && OnceOk(s) && k in s.accounts
    ensures var f := FinalizeAll(s, k, batch, opening, s.now);
            && Total(f.state, debtor) + Share(k, debtor, f.delta) == Total(s, debtor)
            && f.state.accounts[k].principal == s.accounts[k].principal
  {
    hide QueuesOk, OnceOk, Total, FinalizeOne;
    if batch != [] {
      var front := batch[..|batch| - 1];
      FinalizeAllMoney(s, k, front, opening, debtor);
      FinalizeAllQueues(s, k, front, opening);
      FinalizeOneMoney(FinalizeAll(s, k, front, opening, s.now), k, batch[|batch| - 1], opening, debtor);
    }
  }

  /** Folding the deltas of a batch into the row. */
  lemma FoldMoney(s: State, k: AccountKey, delta: int, interestDelta: real, now: int, debtor: int)
    requires k in s.accounts
    requires var a := ApplyChange(k, s.accounts[k], delta, interestDelta, now); k.debtor == debtor ==> !a.overflown
    ensures Total(SetAccount(s, k, ApplyChange(k, s.accounts[k], delta, interestDelta, now)), debtor)
            == Total(s, debtor) + Share(k, debtor, delta)
  {
    hide Principals, Outstanding, AccumulatedInterest;
    WritePrincipal(s.accounts, k, ApplyChange(k, s.accounts[k], delta, interestDelta, now), debtor);
  }

  lemma FinalizeMoney(s: State, k: AccountKey, batch: seq<TransferKey>, debtor: int)
    requires QueuesOk(s) && OnceOk(s) && NoOverflow(FinalizeTransfers(s, k, batch, s.now), debtor)
    ensures Total(FinalizeTransfers(s, k, batch, s.now), debtor) == Total(s, debtor)
  {
    hide QueuesOk, OnceOk, Principals, Outstanding, FinalizeAll, Balance, ApplyChange;
    if Live(s, k).Some? {
      var opening := Balance(k, s.accounts[k], s.now).Floor;
      FinalizeAllMoney(s, k, batch, opening, debtor);
      var f := FinalizeAll(s, k, batch, opening, s.now);
      if f.delta != 0 {
        FoldMoney(f.state, k, f.delta, 0.0, s.now, debtor);
      }
    }
  }

  lemma ApplyOneMoney(b: Crediting, k: AccountKey, ck: ChangeKey, debtor: int)
    requires QueuesOk(b.state) && OnceOk(b.state) && k in b.state.accounts && ck.debtor == k.debtor
    ensures var b' := ApplyOne(b, k, ck, b.state.now);
            && Total(b'.state, debtor) + Share(k, debtor, b'.principalDelta)
               == Total(b.state, debtor) + Share(k, debtor, b.principalDelta)
            && b'.state.accounts[k].principal == b.state.accounts[k].principal
  {
    hide QueuesOk, OnceOk, Principals, Outstanding, TransferSignals, DueInterest;
    var s, b' := b.state, ApplyOne(b, k, ck, b.state.now);
    if ck in s.queued {
      DequeueOne(s, ck);
      WritePrincipal(s.accounts, k, b'.state.accounts[k], debtor);
      SettleOutstanding(s.emitted, s.applied, ck, debtor);
    }
  }

  lemma {:induction false} ApplyAllMoney(s: State, k: AccountKey, batch: seq<ChangeKey>, debtor: int)
    requires QueuesOk(s) && OnceOk(s) && k in s.accounts && forall ck <- batch :: ck.debtor == k.debtor
    ensures var b := ApplyAll(s, k, batch, s.now);
            && Total(b.state, debtor) + Share(k, debtor, b.principalDelta) == Total(s, debtor)
            && b.state.accounts[k].principal == s.accounts[k].principal
  {
    hide QueuesOk, OnceOk, Total, ApplyOne;
    if batch != [] {
      var front := batch[..|batch| - 1];
      ApplyAllMoney(s, k, front, debtor);
      ApplyAllQueues(s, k, front);
      ApplyOneMoney(ApplyAll(s, k, front, s.now), k, batch[|batch| - 1], debtor);
    }
  }

  lemma ApplyMoney(s: State, k: AccountKey, batch: seq<ChangeKey>, debtor: int)
    requires QueuesOk(s) && OnceOk(s) && forall ck <- batch :: ck.debtor == k.debtor
    requires NoOverflow(ApplyChanges(s, k, batch, s.now), debtor)
    ensures Total(ApplyChanges(s, k, batch, s.now), debtor) == Total(s, debtor)
  {
    hide QueuesOk, OnceOk, Total, ApplyAll, ApplyChange, LockOrCreate, AccountStep;
    if batch != [] {
      var s1 := LockOrCreate(s, k, s.now);
      LockOrCreateFrame(s, k);
      AccountStepTables(s, s1, k);
      AccountQueues(s, s1, k);
      LockMoney(s, k, debtor);
      ApplyAllMoney(s1, k, batch, debtor);
      var b := ApplyAll(s1, k, batch, s.now);
      FoldMoney(b.state, k, b.principalDelta, b.interestDelta, s.now, debtor);
    }
  }

  lemma LockMoney(s: State, k: AccountKey, debtor: int)
    ensures Total(LockOrCreate(s, k, s.now), debtor) == Total(s, debtor)
  {
    hide Principals, Outstanding, LockOrCreate, AccountStep;
    var s' := LockOrCreate(s, k, s.now);
    LockOrCreateFrame(s, k);
    AccountStepTables(s, s', k);
    NoPaymentEmission(s, s', k);
    if s'.accounts != s.accounts {
      WritePrincipal(s.accounts, k, s'.accounts[k], debtor);
    }
  }

  lemma PrepareMoney(c: Settings, s: State, rk: RequestKey, commitPeriod: int, debtor: int)
    requires rk in s.requests
    ensures Total(PrepareTransfer(c, s, rk, commitPeriod, s.now), debtor) == Total(s, debtor)
  {
    hide Principals, Outstanding, Accepts, LockableAmount, NewTransfer, PrepareTransfer;
    PrepareKeeps(c, s, rk, commitPeriod);
    PrepareWrites(c, s, rk, commitPeriod);
    var s', k := PrepareTransfer(c, s, rk, commitPeriod, s.now), rk.account;
    if Accepts(s, rk, s.now) {
      WritePrincipal(s.accounts, k, s'.accounts[k], debtor);
    }
  }

  lemma PurgeMoney(c: Settings, s: State, k: AccountKey, debtor: int)
    requires RowsOk(c, s)
    ensures Total(PurgeAccount(c, s, k, s.now), debtor) == Total(s, debtor)
  {
    hide Principals, Outstanding, RowsOk;
    if k in s.accounts && CanBePurged(c, s.accounts[k], s.now) {
      DeletedIsEmpty(c, s, k);
      DropPrincipal(s.accounts, k, debtor);
    }
  }

  lemma QueueMoney(s: State, s': State, debtor: int)
    requires QueueStep(s, s')
    ensures Total(s', debtor) == Total(s, debtor)
  {
    hide Principals, Outstanding;
  }

  lemma SameMoney(s: State, now: int, debtor: int)
    ensures Total(s.(now := now), debtor) == Total(s, debtor)
  {
    hide Principals, Outstanding;
  }

  /** No step makes or destroys money, unless it clips a principal and sets the overflown flag. */
  lemma MoneyStep(c: Settings, s: State, e: Event, now: int, debtor: int)
    requires c.Valid() && RowsOk(c, s) && QueuesOk(s) && OnceOk(s) && s.now <= now && Enabled(s, e)
    requires NoOverflow(Step(c, s, e, now), debtor)
    ensures Total(Step(c, s, e, now), debtor) == Total(s, debtor)
  {
    BatchDebtor(s, e);
    hide *;
    var s0, s' := s.(now := now), Step(c, s, e, now);
    QueuesLater(s, now);
    RowsLater(c, s, now);
    SameMoney(s, now, debtor);
    StepCases(c, s, e, now);
    EventKinds(e);
    if IsAccountEvent(e) {
      AccountEventFrame(c, s, e, now);
      AccountMoney(s0, s', KeyOf(e), debtor);
    } else if IsQueueEvent(e) {
      QueueFrame(c, s, e, now);
      QueueMoney(s0, s', debtor);
    } else {
      match e
      case EPrepare(rk, commitPeriod) => PrepareMoney(c, s0, rk, commitPeriod, debtor);
      case EFinalize(k, batch) => FinalizeMoney(s0, k, batch, debtor);
      case EApply(k, batch) => ApplyMoney(s0, k, batch, debtor);
      case EPurge(k) => PurgeMoney(c, s0, k, debtor);
    }
  }

  lemma BatchDebtor(s: State, e: Event)
    requires Enabled(s, e)
    ensures e.EApply? ==> forall ck <- e.changes :: ck.debtor == e.key.debtor
  {
  }
}
