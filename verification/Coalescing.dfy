/** Coalescing is confluent: several workers may take the queued changes of an account in batches of
    any size and in any order; the result is the same. */
module Coalescing {
  import opened Totals
  import opened Models
  import opened Steps
  import opened Accrual
  import opened Rates
  import opened Frames
  import opened Rows
  import opened Runs
  import opened Locks
  import opened Changes

  function KeysOf(batch: seq<ChangeKey>): set<ChangeKey> {
    set ck | ck in batch
  }

  function KeysOfAll(batches: seq<seq<ChangeKey>>): set<ChangeKey> {
    if batches == [] then {}
    else KeysOfAll(batches[..|batches| - 1]) + KeysOf(batches[|batches| - 1])
  }

  /** No change is in two batches, or twice in one. */
  predicate AreDisjoint(batches: seq<seq<ChangeKey>>) {
    batches == [] ||
    var n := |batches| - 1;
    AreDisjoint(batches[..n]) && Distinct(batches[n]) && batches[n] != [] && KeysOfAll(batches[..n]) !! KeysOf(batches[n])
  }

  /** The batches are processed one after the other, at the same moment. */
  function CreditAll(s: State, k: AccountKey, batches: seq<seq<ChangeKey>>, now: int): State {
    if batches == [] then s
    else ApplyChanges(CreditAll(s, k, batches[..|batches| - 1], now), k, batches[|batches| - 1], now)
  }

  // ---- Totals over a set of changes, which do not know about batches

  function Deltas(queued: map<ChangeKey, BalanceChange>, keys: set<ChangeKey>): map<ChangeKey, real> {
    map ck | ck in keys && ck in queued :: queued[ck].delta as real
  }

  function Dues(queued: map<ChangeKey, BalanceChange>, a: Account, keys: set<ChangeKey>, now: int):
    map<ChangeKey, real>
  {
    map ck | ck in keys && ck in queued :: DueInterest(a, queued[ck].delta, queued[ck].committedAt, now)
  }

  function AnnouncedOf(queued: map<ChangeKey, BalanceChange>, k: AccountKey, a: Account, keys: set<ChangeKey>):
    set<ChangeKey>
  {
    set ck | ck in keys && ck in queued && IsAnnounced(k, a, queued[ck].delta)
  }

  /** The totals of a batch in the middle of its processing. */
  ghost predicate BatchTotals(
    k: AccountKey, a: Account, queued: map<ChangeKey, BalanceChange>, keys: set<ChangeKey>, b: Crediting, now: int)
    requires k in b.state.accounts
  {
    && b.principalDelta as real == Sum(Deltas(queued, keys))
    && b.interestDelta == Sum(Dues(queued, a, keys, now))
    && IsCounted(k, a, b.state.accounts[k], |AnnouncedOf(queued, k, a, keys)|)
  }

  /** The row differs only in the count of its announced transfers. */
  predicate IsCounted(k: AccountKey, a: Account, b: Account, count: nat) {
    b == a.(transferNumber := a.transferNumber + count, transferCommittedAt := b.transferCommittedAt)
  }

  lemma AddKey(
    queued: map<ChangeKey, BalanceChange>, k: AccountKey, a: Account, keys: set<ChangeKey>, ck: ChangeKey, now: int)
    requires ck in queued && ck !in keys
    ensures var ch := queued[ck];
            && Sum(Deltas(queued, keys + {ck})) == Sum(Deltas(queued, keys)) + ch.delta as real
            && Sum(Dues(queued, a, keys + {ck}, now))
               == Sum(Dues(queued, a, keys, now)) + DueInterest(a, ch.delta, ch.committedAt, now)
            && |AnnouncedOf(queued, k, a, keys + {ck})|
               == |AnnouncedOf(queued, k, a, keys)| + if IsAnnounced(k, a, ch.delta) then 1 else 0
  {
    hide DueInterest, IsAnnounced;
    var ch := queued[ck];
    assert Deltas(queued, keys + {ck}) == Deltas(queued, keys)[ck := ch.delta as real];
    SumInsert(Deltas(queued, keys), ck, ch.delta as real);
    var due := DueInterest(a, ch.delta, ch.committedAt, now);
    assert Dues(queued, a, keys + {ck}, now) == Dues(queued, a, keys, now)[ck := due];
    SumInsert(Dues(queued, a, keys, now), ck, due);
    AddAnnounced(queued, k, a, keys, ck);
  }

  lemma AddAnnounced(
    queued: map<ChangeKey, BalanceChange>, k: AccountKey, a: Account, keys: set<ChangeKey>, ck: ChangeKey)
    requires ck in queued && ck !in keys
    ensures |AnnouncedOf(queued, k, a, keys + {ck})|
            == |AnnouncedOf(queued, k, a, keys)| + if IsAnnounced(k, a, queued[ck].delta) then 1 else 0
  {
    hide IsAnnounced;
    var before, after := AnnouncedOf(queued, k, a, keys), AnnouncedOf(queued, k, a, keys + {ck});
    if IsAnnounced(k, a, queued[ck].delta) {
      assert after == before + {ck};
    } else {
      assert after == before;
    }
  }

  lemma CountOne(k: AccountKey, a: Account, b: Account, count: nat, acquired: int, committedAt: int)
    requires IsCounted(k, a, b, count)
    ensures IsCounted(k, a, Numbered(k, b, acquired, committedAt), count + if IsAnnounced(k, a, acquired) then 1 else 0)
    ensures forall amount, due, now :: DueInterest(b, amount, due, now) == DueInterest(a, amount, due, now)
  {
  }

  lemma NoTotals(k: AccountKey, a: Account, queued: map<ChangeKey, BalanceChange>, b: Crediting, now: int)
    requires k in b.state.accounts && b.state.accounts[k] == a && b.principalDelta == 0 && b.interestDelta == 0.0
    ensures BatchTotals(k, a, queued, {}, b, now)
  {
    SumOfNone(Deltas(queued, {}));
    SumOfNone(Dues(queued, a, {}, now));
    assert AnnouncedOf(queued, k, a, {}) == {};
  }

  lemma ApplyOneTotals(
    k: AccountKey, a: Account, queued: map<ChangeKey, BalanceChange>, keys: set<ChangeKey>, b: Crediting, ck: ChangeKey,
    now: int)
    requires k in b.state.accounts && BatchTotals(k, a, queued, keys, b, now)
    requires ck in queued && ck !in keys && b.state.queued == queued - keys
    ensures var b' := ApplyOne(b, k, ck, now);
            && BatchTotals(k, a, queued, keys + {ck}, b', now)
            && b'.state.queued == queued - (keys + {ck})
  {
    hide Deltas, Dues, AnnouncedOf, IsCounted, DueInterest, TransferSignals, Numbered, IsAnnounced;
    var ch, row := queued[ck], b.state.accounts[k];
    AddKey(queued, k, a, keys, ck, now);
    CountOne(k, a, row, |AnnouncedOf(queued, k, a, keys)|, ch.delta, ch.committedAt);
  }

  /** A batch adds up to totals over the set of its changes. */
  lemma {:induction false} ApplyAllTotals(s: State, k: AccountKey, batch: seq<ChangeKey>, now: int)
    requires k in s.accounts && Distinct(batch) && forall ck <- batch :: ck in s.queued
    ensures var b := ApplyAll(s, k, batch, now);
            && BatchTotals(k, s.accounts[k], s.queued, KeysOf(batch), b, now)
            && b.state.queued == s.queued - KeysOf(batch)
  {
    hide BatchTotals, ApplyOne;
    if batch == [] {
      NoTotals(k, s.accounts[k], s.queued, Crediting(s, 0, 0.0), now);
      assert KeysOf(batch) == {};
    } else {
      var front, ck := batch[..|batch| - 1], batch[|batch| - 1];
      ApplyAllTotals(s, k, front, now);
      assert KeysOf(batch) == KeysOf(front) + {ck};
      ApplyOneTotals(k, s.accounts[k], s.queued, KeysOf(front), ApplyAll(s, k, front, now), ck, now);
    }
  }

  // ---- Several batches

  /** The account after a set of changes has been credited.  It does not depend on how the changes
      were split into batches. */
  ghost predicate IsCredited(
    k: AccountKey, a: Account, b: Account, queued: map<ChangeKey, BalanceChange>, keys: set<ChangeKey>, now: int)
  {
    && b.principal as real == a.principal as real + Sum(Deltas(queued, keys))
    && b.transferNumber == a.transferNumber + |AnnouncedOf(queued, k, a, keys)|
    && AccumulatedInterest(k, b, now) == AccumulatedInterest(k, a, now) + Sum(Dues(queued, a, keys, now))
    && (keys != {} ==> b.lastChangeTs == now && b.interest == AccumulatedInterest(k, b, now))
    && SameRates(a, b) && b.negligible == a.negligible && b.deleted == a.deleted && b.lastChangeTs <= now
  }

  /** The debtor's own account has no interest, as in every reachable state. */
  predicate RootIsIdle(k: AccountKey, a: Account) {
    k.creditor == ROOT_CREDITOR_ID ==> HasNoInterest(a)
  }

  lemma NoDues(queued: map<ChangeKey, BalanceChange>, a: Account, keys: set<ChangeKey>, now: int)
    requires HasNoInterest(a)
    ensures Sum(Dues(queued, a, keys, now)) == 0.0
  {
    hide DueInterest;
    var m := Dues(queued, a, keys, now);
    forall ck | ck in m
      ensures m[ck] == 0.0
    {
      NoDueInterest(a, queued[ck].delta, queued[ck].committedAt, now);
    }
    SumOfZeros(m);
  }

  lemma NotCredited(k: AccountKey, a: Account, queued: map<ChangeKey, BalanceChange>, now: int)
    requires a.lastChangeTs <= now
    ensures IsCredited(k, a, a, queued, {}, now)
  {
    SumOfNone(Deltas(queued, {}));
    SumOfNone(Dues(queued, a, {}, now));
    assert AnnouncedOf(queued, k, a, {}) == {};
    hide AccumulatedInterest;
  }

  lemma FoldedInterest(k: AccountKey, a: Account, delta: int, interestDelta: real, now: int)
    requires a.lastChangeTs <= now && -MAX_INT64 <= a.principal + delta <= MAX_INT64
    requires k.creditor == ROOT_CREDITOR_ID ==> interestDelta == 0.0
    ensures var b := ApplyChange(k, a, delta, interestDelta, now);
            && b.principal == a.principal + delta && b.lastChangeTs == now && SameRates(a, b)
            && b.negligible == a.negligible && b.deleted == a.deleted && b.transferNumber == a.transferNumber
            && b.interest == AccumulatedInterest(k, a, now) + interestDelta
            && AccumulatedInterest(k, b, now) == b.interest
  {
    var b := ApplyChange(k, a, delta, interestDelta, now);
    if k.creditor == ROOT_CREDITOR_ID {
      RootBalance(k, a, a, now);
      RootBalance(k, b, b, now);
    } else {
      FittingBalance(k, a, delta, interestDelta, now);
    }
    hide Balance;
  }

  /** Totals over the changes of one more batch, in terms of a row whose rates are the same. */
  lemma MoreTotals(
    queued: map<ChangeKey, BalanceChange>, k: AccountKey, a: Account, b: Account, keys: set<ChangeKey>,
    more: set<ChangeKey>, now: int)
    requires keys !! more && SameRates(a, b) && a.negligible == b.negligible
    ensures Sum(Deltas(queued, keys + more)) == Sum(Deltas(queued, keys)) + Sum(Deltas(queued - keys, more))
    ensures Sum(Dues(queued, a, keys + more, now)) == Sum(Dues(queued, a, keys, now)) + Sum(Dues(queued - keys, b, more, now))
    ensures |AnnouncedOf(queued, k, a, keys + more)|
            == |AnnouncedOf(queued, k, a, keys)| + |AnnouncedOf(queued - keys, k, b, more)|
  {
    hide Deltas, Dues, AnnouncedOf, SameRates;
    MoreDeltas(queued, keys, more);
    SumUnion(Deltas(queued, keys), Deltas(queued - keys, more));
    MoreDues(queued, a, b, keys, more, now);
    SumUnion(Dues(queued, a, keys, now), Dues(queued - keys, b, more, now));
    MoreAnnounced(queued, k, a, b, keys, more);
  }

  lemma MoreDeltas(queued: map<ChangeKey, BalanceChange>, keys: set<ChangeKey>, more: set<ChangeKey>)
    requires keys !! more
    ensures Deltas(queued, keys).Keys !! Deltas(queued - keys, more).Keys
    ensures Deltas(queued, keys + more) == Deltas(queued, keys) + Deltas(queued - keys, more)
  {
  }

  lemma MoreAnnounced(
    queued: map<ChangeKey, BalanceChange>, k: AccountKey, a: Account, b: Account, keys: set<ChangeKey>,
    more: set<ChangeKey>)
    requires keys !! more && a.negligible == b.negligible
    ensures |AnnouncedOf(queued, k, a, keys + more)|
            == |AnnouncedOf(queued, k, a, keys)| + |AnnouncedOf(queued - keys, k, b, more)|
  {
    assert AnnouncedOf(queued, k, a, keys + more)
           == AnnouncedOf(queued, k, a, keys) + AnnouncedOf(queued - keys, k, b, more);
  }

  lemma MoreDues(
    queued: map<ChangeKey, BalanceChange>, a: Account, b: Account, keys: set<ChangeKey>, more: set<ChangeKey>, now: int)
    requires keys !! more && SameRates(a, b)
    ensures Dues(queued, a, keys, now).Keys !! Dues(queued - keys, b, more, now).Keys
    ensures Dues(queued, a, keys + more, now) == Dues(queued, a, keys, now) + Dues(queued - keys, b, more, now)
  {
    hide DueInterest, SameRates;
    forall ck | ck in queued
      ensures DueInterest(a, queued[ck].delta, queued[ck].committedAt, now)
              == DueInterest(b, queued[ck].delta, queued[ck].committedAt, now)
    {
      SameDue(a, b, queued[ck].delta, queued[ck].committedAt, now);
    }
  }

  lemma SameDue(a: Account, b: Account, amount: int, due: int, now: int)
    requires SameRates(a, b)
    ensures DueInterest(a, amount, due, now) == DueInterest(b, amount, due, now)
  {
  }

  lemma CountedColumns(k: AccountKey, a: Account, b: Account, count: nat, now: int)
    requires IsCounted(k, a, b, count)
    ensures b.principal == a.principal && SameRates(a, b) && b.negligible == a.negligible && b.deleted == a.deleted
    ensures b.lastChangeTs == a.lastChangeTs && b.transferNumber == a.transferNumber + count
    ensures b.overflown == a.overflown
    ensures AccumulatedInterest(k, b, now) == AccumulatedInterest(k, a, now)
  {
  }

  /** The principal fits after these changes. */
  ghost predicate PrincipalFits(a: Account, queued: map<ChangeKey, BalanceChange>, keys: set<ChangeKey>) {
    -MAX_INT64 as real <= a.principal as real + Sum(Deltas(queued, keys)) <= MAX_INT64 as real
  }

  /** One more batch. */
  lemma OneMoreBatch(
    s: State, k: AccountKey, a: Account, queued: map<ChangeKey, BalanceChange>, keys: set<ChangeKey>,
    batch: seq<ChangeKey>, now: int)
    requires k in s.accounts && !a.deleted && IsCredited(k, a, s.accounts[k], queued, keys, now)
    requires s.queued == queued - keys && Distinct(batch) && batch != []
    requires KeysOf(batch) <= queued.Keys && keys !! KeysOf(batch)
    requires RootIsIdle(k, a) && RootIsIdle(k, s.accounts[k]) && PrincipalFits(a, queued, keys + KeysOf(batch))
    ensures var s' := ApplyChanges(s, k, batch, now);
            && k in s'.accounts && RootIsIdle(k, s'.accounts[k])
            && IsCredited(k, a, s'.accounts[k], queued, keys + KeysOf(batch), now)
            && s'.queued == queued - (keys + KeysOf(batch))
  {
    hide Deltas, Dues, AnnouncedOf, AccumulatedInterest, ApplyAll, ApplyChange, IsCounted, SameRates;
    assert batch[0] in KeysOf(batch);
    ApplyAllTotals(s, k, batch, now);
    var b, a1 := ApplyAll(s, k, batch, now), s.accounts[k];
    CountedColumns(k, a1, b.state.accounts[k], |AnnouncedOf(s.queued, k, a1, KeysOf(batch))|, now);
    MoreTotals(queued, k, a, a1, keys, KeysOf(batch), now);
    if k.creditor == ROOT_CREDITOR_ID {
      NoDues(s.queued, a1, KeysOf(batch), now);
    }
    FoldedInterest(k, b.state.accounts[k], b.principalDelta, b.interestDelta, now);
    RatesChain(a, a1, b.state.accounts[k], ApplyChanges(s, k, batch, now).accounts[k]);
    if k.creditor == ROOT_CREDITOR_ID {
      RootInterest(k, a1, now);
      IdleRow(a1, ApplyChanges(s, k, batch, now).accounts[k], b.state.accounts[k]);
    }
  }

  lemma RootInterest(k: AccountKey, a: Account, now: int)
    requires k.creditor == ROOT_CREDITOR_ID
    ensures AccumulatedInterest(k, a, now) == 0.0
  {
  }

  lemma IdleRow(a: Account, b: Account, d: Account)
    requires HasNoInterest(a) && SameRates(a, d) && SameRates(d, b) && b.interest == 0.0
    ensures HasNoInterest(b)
  {
  }

  lemma RatesChain(a: Account, b: Account, d: Account, e: Account)
    requires SameRates(a, b) && SameRates(b, d) && SameRates(d, e)
    ensures SameRates(a, e)
  {
  }

  /** No batch clips the principal. */
  ghost predicate NothingClips(a: Account, queued: map<ChangeKey, BalanceChange>, batches: seq<seq<ChangeKey>>) {
    forall m :: 0 <= m <= |batches| ==> PrincipalFits(a, queued, KeysOfAll(batches[..m]))
  }

  lemma NothingClipsBefore(a: Account, queued: map<ChangeKey, BalanceChange>, batches: seq<seq<ChangeKey>>)
    requires NothingClips(a, queued, batches) && batches != []
    ensures NothingClips(a, queued, batches[..|batches| - 1]) && PrincipalFits(a, queued, KeysOfAll(batches))
  {
    hide PrincipalFits;
    var front := batches[..|batches| - 1];
    forall m | 0 <= m <= |front|
      ensures PrincipalFits(a, queued, KeysOfAll(front[..m]))
    {
      assert front[..m] == batches[..m];
    }
    assert batches[..|batches|] == batches;
  }

  /** After any batches the row is given by totals over the set of the credited changes. */
  lemma {:induction false} BatchesAreTotals(s: State, k: AccountKey, batches: seq<seq<ChangeKey>>, now: int)
    requires k in s.accounts && !s.accounts[k].deleted && s.accounts[k].lastChangeTs <= now
    requires AreDisjoint(batches) && KeysOfAll(batches) <= s.queued.Keys
    requires RootIsIdle(k, s.accounts[k]) && NothingClips(s.accounts[k], s.queued, batches)
    ensures var s' := CreditAll(s, k, batches, now);
            && k in s'.accounts && RootIsIdle(k, s'.accounts[k])
            && IsCredited(k, s.accounts[k], s'.accounts[k], s.queued, KeysOfAll(batches), now)
            && s'.queued == s.queued - KeysOfAll(batches)
  {
    hide IsCredited, ApplyChanges, RootIsIdle, PrincipalFits;
    if batches == [] {
      NotCredited(k, s.accounts[k], s.queued, now);
    } else {
      var n := |batches| - 1;
      NothingClipsBefore(s.accounts[k], s.queued, batches);
      BatchesAreTotals(s, k, batches[..n], now);
      OneMoreBatch(CreditAll(s, k, batches[..n], now), k, s.accounts[k], s.queued, KeysOfAll(batches[..n]), batches[n],
                   now);
    }
  }

  lemma ConfluentWhenLive(
    s: State, k: AccountKey, some: seq<seq<ChangeKey>>, others: seq<seq<ChangeKey>>, now: int)
    requires k in s.accounts && !s.accounts[k].deleted && s.accounts[k].lastChangeTs <= now
    requires AreDisjoint(some) && AreDisjoint(others) && some != [] && others != []
    requires KeysOfAll(some) == KeysOfAll(others) <= s.queued.Keys && RootIsIdle(k, s.accounts[k])
    requires NothingClips(s.accounts[k], s.queued, some) && NothingClips(s.accounts[k], s.queued, others)
    ensures IsSameCredit(k, CreditAll(s, k, some, now), CreditAll(s, k, others, now), now)
  {
    hide CreditAll, Balance, Deltas, Dues, AnnouncedOf, NothingClips, RootIsIdle;
    BatchesAreTotals(s, k, some, now);
    BatchesAreTotals(s, k, others, now);
    SomeKeys(some);
    var b, d := CreditAll(s, k, some, now).accounts[k], CreditAll(s, k, others, now).accounts[k];
    forall later | now <= later
      ensures Balance(k, b, later) == Balance(k, d, later)
    {
      SameBalance(k, b, d, later);
    }
  }

  /** The account has the same money and the same number of its last transfer in both states, now and
      at every later moment. */
  ghost predicate IsSameCredit(k: AccountKey, s1: State, s2: State, now: int) {
    && k in s1.accounts && k in s2.accounts && s1.queued == s2.queued
    && s1.accounts[k].principal == s2.accounts[k].principal
    && s1.accounts[k].interest == s2.accounts[k].interest
    && s1.accounts[k].transferNumber == s2.accounts[k].transferNumber
    && forall later :: now <= later ==> Balance(k, s1.accounts[k], later) == Balance(k, s2.accounts[k], later)
  }

  lemma SomeKeys(batches: seq<seq<ChangeKey>>)
    requires AreDisjoint(batches) && batches != []
    ensures KeysOfAll(batches) != {}
  {
    assert batches[|batches| - 1][0] in KeysOf(batches[|batches| - 1]);
  }

  // ---- Missing and deleted accounts

  /** An account that is missing or deleted comes to life with the first batch. */
  lemma LockTwice(s: State, k: AccountKey, now: int)
    ensures LockOrCreate(LockOrCreate(s, k, now), k, now) == LockOrCreate(s, k, now)
    ensures LockOrCreate(s, k, now).queued == s.queued
  {
    hide SendUpdate, NewAccount, Bumped;
  }

  lemma LockedRow(c: Settings, s: State, k: AccountKey)
    requires c.Valid() && RowsOk(c, s)
    ensures var a := LockOrCreate(s, k, s.now).accounts[k];
            a.lastChangeTs <= s.now && RootIsIdle(k, a) && a.principal == RowOf(s, k).principal
  {
    LockRows(c, s, k);
    LockOrCreateFrame(s, k);
    LockedRowOk(c, LockOrCreate(s, k, s.now), k);
    hide LockOrCreate, AccountStep, RowsOk, RootIsIdle;
  }

  lemma LockedRowOk(c: Settings, s: State, k: AccountKey)
    requires RowsOk(c, s) && k in s.accounts
    ensures s.accounts[k].lastChangeTs <= s.now && RootIsIdle(k, s.accounts[k])
  {
  }

  lemma {:induction false} LockFirst(s: State, k: AccountKey, batches: seq<seq<ChangeKey>>, now: int)
    requires AreDisjoint(batches) && batches != []
    ensures CreditAll(s, k, batches, now) == CreditAll(LockOrCreate(s, k, now), k, batches, now)
  {
    hide ApplyAll, ApplyChange, LockOrCreate;
    var n := |batches| - 1;
    if n == 0 {
      LockTwice(s, k, now);
      assert CreditAll(s, k, batches[..0], now) == s;
      assert CreditAll(LockOrCreate(s, k, now), k, batches[..0], now) == LockOrCreate(s, k, now);
    } else {
      LockFirst(s, k, batches[..n], now);
    }
  }

  lemma SamePrincipalFits(a: Account, b: Account, queued: map<ChangeKey, BalanceChange>, batches: seq<seq<ChangeKey>>)
    requires a.principal == b.principal && NothingClips(a, queued, batches)
    ensures NothingClips(b, queued, batches)
  {
    hide Deltas, KeysOfAll;
    forall m | 0 <= m <= |batches|
      ensures PrincipalFits(b, queued, KeysOfAll(batches[..m]))
    {
      assert PrincipalFits(a, queued, KeysOfAll(batches[..m]));
    }
  }

  lemma ConfluentRows(
    c: Settings, s: State, k: AccountKey, some: seq<seq<ChangeKey>>, others: seq<seq<ChangeKey>>)
    requires c.Valid() && RowsOk(c, s) && AreDisjoint(some) && AreDisjoint(others) && some != [] && others != []
    requires KeysOfAll(some) == KeysOfAll(others) <= s.queued.Keys
    requires NothingClips(RowOf(s, k), s.queued, some) && NothingClips(RowOf(s, k), s.queued, others)
    ensures IsSameCredit(k, CreditAll(s, k, some, s.now), CreditAll(s, k, others, s.now), s.now)
  {
    hide CreditAll, RowOf, LockOrCreate, NothingClips, RowsOk, RootIsIdle, IsSameCredit;
    var s1 := LockOrCreate(s, k, s.now);
    LockTwice(s, k, s.now);
    LockedRow(c, s, k);
    LockFirst(s, k, some, s.now);
    LockFirst(s, k, others, s.now);
    SamePrincipalFits(RowOf(s, k), s1.accounts[k], s.queued, some);
    SamePrincipalFits(RowOf(s, k), s1.accounts[k], s.queued, others);
    ConfluentWhenLive(s1, k, some, others, s.now);
  }

  /** Confluence: in every reachable state, two ways of splitting the same queued changes of an account
      into batches give the same principal, interest, last transfer number and later balances, if no
      batch clips the principal.  The account may be missing or deleted, or the debtor's own. */
  lemma CoalescingIsConfluent(
    c: Settings, r: Run, k: AccountKey, some: seq<seq<ChangeKey>>, others: seq<seq<ChangeKey>>, now: int)
    requires IsRun(c, r) && r.states[|r.steps|].now <= now
    requires AreDisjoint(some) && AreDisjoint(others) && some != [] && others != []
    requires var s := r.states[|r.steps|].(now := now);
             && KeysOfAll(some) == KeysOfAll(others) <= s.queued.Keys
             && NothingClips(RowOf(s, k), s.queued, some) && NothingClips(RowOf(s, k), s.queued, others)
    ensures var s := r.states[|r.steps|].(now := now);
            IsSameCredit(k, CreditAll(s, k, some, now), CreditAll(s, k, others, now), now)
  {
    hide IsStep, RowsOk, LocksOk, QueuesOk, NothingClips, AreDisjoint, CreditAll, IsSameCredit, RowOf;
    AlwaysConsistent(c, r);
    RunSettings(c, r);
    RowsLater(c, r.states[|r.steps|], now);
    ConfluentRows(c, r.states[|r.steps|].(now := now), k, some, others);
  }
}
