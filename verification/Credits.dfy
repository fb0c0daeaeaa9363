/** Credit batches: each queued change of a batch is credited once, with the interest that is due on it,
    and leaves the queue as applied. */
module Credits {
  import opened Models
  import opened Steps
  import opened Columns
  import opened Outcomes
  import opened Chain

  /** The interest that is due on the changes of a batch. */
  function DueOf(a: Account, queued: map<ChangeKey, BalanceChange>, changes: seq<ChangeKey>, now: int): real {
    if changes == [] then 0.0
    else
      var n := |changes| - 1;
      DueOf(a, queued, changes[..n], now)
      + if changes[n] in queued then DueInterest(a, queued[changes[n]].delta, queued[changes[n]].committedAt, now) else 0.0
  }

  /** The changes have left the queue, and are registered as applied; all others are as they were. */
  ghost predicate AreTaken(s: State, changes: seq<ChangeKey>, s': State) {
    && (forall x :: x in s'.queued <==> x in s.queued && x !in changes)
    && (forall x :: x in s'.queued ==> s'.queued[x] == s.queued[x])
    && (forall x :: x in s'.registered <==> x in s.registered)
    && (forall x :: x in s'.registered ==>
          && s'.registered[x].committedAt == s.registered[x].committedAt
          && (s'.registered[x].isApplied <==> s.registered[x].isApplied || x in changes))
    && s'.applied == s.applied + changes
  }

  /** In the middle of a batch. */
  ghost predicate IsCrediting(s: State, k: AccountKey, a: Account, changes: seq<ChangeKey>, b: Crediting, now: int) {
    && k in b.state.accounts && AreTaken(s, changes, b.state)
    && b.principalDelta == SumOf(s.queued, changes) && b.interestDelta == DueOf(a, s.queued, changes, now)
    && var row := b.state.accounts[k];
       && row == a.(transferNumber := row.transferNumber, transferCommittedAt := row.transferCommittedAt)
       && b.state == s.(accounts := s.accounts[k := row], transfers := b.state.transfers, queued := b.state.queued,
                        registered := b.state.registered, applied := b.state.applied)
  }

  lemma TakenOneMore(s: State, changes: seq<ChangeKey>, s1: State, ck: ChangeKey, s': State)
    requires AreTaken(s, changes, s1)
    requires s'.queued == s1.queued - {ck} && s'.applied == s1.applied + [ck]
    requires forall x :: x in s'.registered <==> x in s1.registered
    requires forall x :: x in s'.registered ==>
               s'.registered[x] == if x == ck then RegisteredChange(s1.registered[x].committedAt, true) else s1.registered[x]
    ensures AreTaken(s, changes + [ck], s')
  {
    assert forall x :: x in changes + [ck] <==> x in changes || x == ck;
  }

  lemma SumsOneMore(a: Account, queued: map<ChangeKey, BalanceChange>, changes: seq<ChangeKey>, ck: ChangeKey, now: int)
    requires ck in queued
    ensures SumOf(queued, changes + [ck]) == SumOf(queued, changes) + queued[ck].delta
    ensures DueOf(a, queued, changes + [ck], now)
            == DueOf(a, queued, changes, now) + DueInterest(a, queued[ck].delta, queued[ck].committedAt, now)
  {
    hide DueInterest;
    assert (changes + [ck])[..|changes|] == changes;
  }

  lemma OneInterest(b: Crediting, k: AccountKey, ck: ChangeKey, now: int)
    requires k in b.state.accounts && ck in b.state.queued
    ensures ApplyOne(b, k, ck, now).interestDelta
            == b.interestDelta
               + DueInterest(b.state.accounts[k], b.state.queued[ck].delta, b.state.queued[ck].committedAt, now)
  {
    hide DueInterest, TransferSignals, Numbered;
  }

  lemma SameDue(a: Account, row: Account, amount: int, due: int, now: int)
    requires row == a.(transferNumber := row.transferNumber, transferCommittedAt := row.transferCommittedAt)
    ensures DueInterest(row, amount, due, now) == DueInterest(a, amount, due, now)
  {
  }

  lemma CreditOneMore(
    s: State, k: AccountKey, a: Account, changes: seq<ChangeKey>, b: Crediting, ck: ChangeKey, now: int)
    requires IsCrediting(s, k, a, changes, b, now) && ck in s.queued && ck !in changes
    ensures IsCrediting(s, k, a, changes + [ck], ApplyOne(b, k, ck, now), now)
  {
    hide ApplyOne, SumOf, DueOf, DueInterest, IsReported, AreTaken;
    TakenQueue(s, changes, b.state, ck);
    ApplyOneReport(b, k, ck, now);
    OneInterest(b, k, ck, now);
    SameDue(a, b.state.accounts[k], s.queued[ck].delta, s.queued[ck].committedAt, now);
    SumsOneMore(a, s.queued, changes, ck, now);
    TakenOneMore(s, changes, b.state, ck, ApplyOne(b, k, ck, now).state);
  }

  lemma TakenQueue(s: State, changes: seq<ChangeKey>, s1: State, ck: ChangeKey)
    requires AreTaken(s, changes, s1) && ck in s.queued && ck !in changes
    ensures ck in s1.queued && s1.queued[ck] == s.queued[ck]
  {
  }

  lemma {:induction false} CreditAllOf(s: State, k: AccountKey, batch: seq<ChangeKey>, now: int)
    requires k in s.accounts && Distinct(batch) && forall ck <- batch :: ck in s.queued
    ensures IsCrediting(s, k, s.accounts[k], batch, ApplyAll(s, k, batch, now), now)
  {
    hide IsCrediting, ApplyOne;
    if batch == [] {
      NothingCredited(s, k, now);
    } else {
      var n := |batch| - 1;
      CreditAllOf(s, k, batch[..n], now);
      assert batch == batch[..n] + [batch[n]] && batch[n] in batch;
      CreditOneMore(s, k, s.accounts[k], batch[..n], ApplyAll(s, k, batch[..n], now), batch[n], now);
    }
  }

  lemma NothingCredited(s: State, k: AccountKey, now: int)
    requires k in s.accounts
    ensures IsCrediting(s, k, s.accounts[k], [], Crediting(s, 0, 0.0), now)
  {
    assert s.applied + [] == s.applied;
    assert s.accounts == s.accounts[k := s.accounts[k]];
  }

  lemma CreditedRow(k: AccountKey, a: Account, row: Account, amount: int, interest: real, now: int)
    requires row == a.(transferNumber := row.transferNumber, transferCommittedAt := row.transferCommittedAt)
    ensures IsMoved(k, a, ApplyChange(k, row, amount, interest, now), amount, interest, now)
  {
    assert Balance(k, row, now) == Balance(k, a, now);
    hide Balance, Contain;
  }

  /** A credit batch opens the account if need be, adds all amounts with the interest that is due on them in
      one move, and takes exactly its changes off the queue. */
  lemma BatchIsCredited(s: State, k: AccountKey, batch: seq<ChangeKey>) returns (a: Account)
    requires batch != [] && Distinct(batch) && forall ck <- batch :: ck in s.queued
    ensures var s' := ApplyChanges(s, k, batch, s.now);
            && IsOpened(s, k, a, s'.updates, s.now) && AreTaken(s, batch, s')
            && k in s'.accounts
            && IsMoved(k, a, s'.accounts[k], SumOf(s.queued, batch), DueOf(a, s.queued, batch, s.now), s.now)
            && s' == s.(accounts := s.accounts[k := s'.accounts[k]], updates := s'.updates, transfers := s'.transfers,
                        queued := s'.queued, registered := s'.registered, applied := s'.applied)
  {
    hide LockOrCreate, ApplyAll, ApplyChange, IsOpened, IsMoved, SumOf, DueOf, AreTaken;
    var s1 := LockOrCreate(s, k, s.now);
    OpenedRow(s, k);
    a := s1.accounts[k];
    CreditAllOf(s1, k, batch, s.now);
    var b := ApplyAll(s1, k, batch, s.now);
    CreditedRow(k, a, b.state.accounts[k], b.principalDelta, b.interestDelta, s.now);
    TakenFrom(s, s1, batch, b.state);
    var row := ApplyChange(k, b.state.accounts[k], b.principalDelta, b.interestDelta, s.now);
    assert s.accounts[k := a][k := b.state.accounts[k]][k := row] == s.accounts[k := row];
  }

  lemma TakenFrom(s: State, s1: State, changes: seq<ChangeKey>, s2: State)
    requires AreTaken(s1, changes, s2)
    requires s1.queued == s.queued && s1.registered == s.registered && s1.applied == s.applied
    ensures forall s': State {:trigger AreTaken(s, changes, s')} ::
              s'.queued == s2.queued && s'.registered == s2.registered && s'.applied == s2.applied
              ==> AreTaken(s, changes, s')
  {
  }
}
