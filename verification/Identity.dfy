/** Transfer ids: a prepared transfer's id is never given again to the same sender, not even after
    the account has been deleted, purged and created again; so it is finalized once at most. */
module Identity {
  import opened Models
  import opened Steps
  import opened Frames
  import opened Rows

  function PreparedKeys(signals: seq<PreparedSignal>): set<TransferKey> {
    set p <- signals :: p.key
  }

  function FinalizedKeys(signals: seq<FinalizedSignal>): set<TransferKey> {
    set f <- signals :: f.key
  }

  /** No two signals about a prepared transfer have the same key. */
  predicate PreparedOnce(signals: seq<PreparedSignal>) {
    forall i, j :: 0 <= i < j < |signals| ==> signals[i].key != signals[j].key
  }

  predicate FinalizedOnce(signals: seq<FinalizedSignal>) {
    forall i, j :: 0 <= i < j < |signals| ==> signals[i].key != signals[j].key
  }

  /** The greatest id that can have been given out for an account.  A missing account will start
      with the ids of the day of its creation. */
  function GreatestId(accounts: map<AccountKey, Account>, k: AccountKey, now: int): int {
    if k in accounts then accounts[k].lastTransferId else Date(now) * TRANSFERS_PER_DAY
  }

  predicate GivenOut(keys: set<TransferKey>, accounts: map<AccountKey, Account>, now: int) {
    forall t :: t in keys ==> t.id <= GreatestId(accounts, t.account, now)
  }

  predicate IdsOk(s: State) {
    && PreparedOnce(s.preparations) && FinalizedOnce(s.finalized)
    && GivenOut(PreparedKeys(s.preparations), s.accounts, s.now)
    && s.prepared.Keys <= PreparedKeys(s.preparations)
    && FinalizedKeys(s.finalized) <= PreparedKeys(s.preparations)
    && s.prepared.Keys !! FinalizedKeys(s.finalized)
  }

  /** No account has given out more ids than one day holds. */
  predicate IdSpace(s: State) {
    forall k :: k in s.accounts ==> s.accounts[k].lastTransferId <= (s.accounts[k].creationDate + 1) * TRANSFERS_PER_DAY
  }

  // ---- Signals

  lemma AddPrepared(signals: seq<PreparedSignal>, p: PreparedSignal)
    requires PreparedOnce(signals) && p.key !in PreparedKeys(signals)
    ensures PreparedOnce(signals + [p]) && PreparedKeys(signals + [p]) == PreparedKeys(signals) + {p.key}
  {
    assert forall i :: 0 <= i < |signals| ==> signals[i] in signals && signals[i].key in PreparedKeys(signals);
    assert forall x :: x in signals + [p] <==> x in signals || x == p;
  }

  lemma AddFinalized(signals: seq<FinalizedSignal>, f: FinalizedSignal)
    requires FinalizedOnce(signals) && f.key !in FinalizedKeys(signals)
    ensures FinalizedOnce(signals + [f]) && FinalizedKeys(signals + [f]) == FinalizedKeys(signals) + {f.key}
  {
    assert forall i :: 0 <= i < |signals| ==> signals[i] in signals && signals[i].key in FinalizedKeys(signals);
    assert forall x :: x in signals + [f] <==> x in signals || x == f;
  }

  // ---- Steps

  lemma GivenOutLater(keys: set<TransferKey>, accounts: map<AccountKey, Account>, was: int, now: int)
    requires GivenOut(keys, accounts, was) && was <= now
    ensures GivenOut(keys, accounts, now)
  {
    assert Date(was) <= Date(now);
  }

  lemma WriteRow(keys: set<TransferKey>, accounts: map<AccountKey, Account>, k: AccountKey, a: Account, now: int)
    requires GivenOut(keys, accounts, now) && GreatestId(accounts, k, now) <= a.lastTransferId
    ensures GivenOut(keys, accounts[k := a], now)
  {
  }

  lemma AccountIds(s: State, s': State, k: AccountKey)
    requires IdsOk(s) && AccountStep(s, s', k)
    ensures IdsOk(s')
  {
    hide PaymentStep, PreparedOnce, FinalizedOnce, PreparedKeys, FinalizedKeys, GivenOut, RowStep;
    if s'.accounts != s.accounts {
      NewRowId(s, s', k);
      WriteRow(PreparedKeys(s.preparations), s.accounts, k, s'.accounts[k], s.now);
    }
  }

  lemma NewRowId(s: State, s': State, k: AccountKey)
    requires AccountStep(s, s', k) && s'.accounts != s.accounts
    ensures GreatestId(s.accounts, k, s.now) == s'.accounts[k].lastTransferId
  {
    hide PaymentStep;
  }

  lemma NewTransferId(s: State, k: AccountKey, id: int)
    requires IdsOk(s) && k in s.accounts && s.accounts[k].lastTransferId < id
    ensures TransferKey(k, id) !in PreparedKeys(s.preparations)
  {
    hide PreparedKeys, FinalizedKeys, PreparedOnce, FinalizedOnce;
  }

  lemma GiveOne(keys: set<TransferKey>, accounts: map<AccountKey, Account>, t: TransferKey, a: Account, now: int)
    requires GivenOut(keys, accounts, now) && t.account in accounts
    requires accounts[t.account].lastTransferId <= a.lastTransferId && t.id <= a.lastTransferId
    ensures GivenOut(keys + {t}, accounts[t.account := a], now)
  {
  }

  lemma PrepareIds(c: Settings, s: State, rk: RequestKey, commitPeriod: int)
    requires IdsOk(s) && rk in s.requests
    ensures IdsOk(PrepareTransfer(c, s, rk, commitPeriod, s.now))
  {
    hide PreparedOnce, FinalizedOnce, PreparedKeys, FinalizedKeys, GivenOut, LockableAmount, NewTransfer, Accepts,
         PrepareTransfer;
    PrepareKeeps(c, s, rk, commitPeriod);
    PrepareWrites(c, s, rk, commitPeriod);
    var k, s' := rk.account, PrepareTransfer(c, s, rk, commitPeriod, s.now);
    if Accepts(s, rk, s.now) {
      var t := TransferKey(k, s.accounts[k].lastTransferId + 1);
      NewTransferId(s, k, t.id);
      AddPrepared(s.preparations, PreparedSignal(t, s'.prepared[t]));
      GiveOne(PreparedKeys(s.preparations), s.accounts, t, s'.accounts[k], s.now);
    }
  }

  lemma FinalizeOneIds(f: Finalizing, k: AccountKey, t: TransferKey, opening: int)
    requires IdsOk(f.state) && k in f.state.accounts && t.account == k
    ensures var s' := FinalizeOne(f, k, t, opening, f.state.now).state;
            IdsOk(s') && s'.now == f.state.now
  {
    hide PreparedOnce, FinalizedOnce, PreparedKeys, FinalizedKeys, GivenOut, CommittedAmount, FinalizeOne, Released;
    FinalizeOneFrame(f, k, t, opening, f.state.now);
    var s, s' := f.state, FinalizeOne(f, k, t, opening, f.state.now).state;
    if Matches(s, t) {
      AddFinalized(s.finalized, s'.finalized[|s.finalized|]);
      ReleasedId(k, s.accounts[k], s.prepared[t], CommittedAmount(f, k, t, opening, s.now), s.now);
      WriteRow(PreparedKeys(s.preparations), s.accounts, k, s'.accounts[k], s.now);
    }
  }

  lemma ReleasedId(k: AccountKey, a: Account, pt: PreparedTransfer, committed: int, now: int)
    ensures Released(k, a, pt, committed, now).lastTransferId == a.lastTransferId
  {
  }

  lemma {:induction false} FinalizeAllIds(s: State, k: AccountKey, batch: seq<TransferKey>, opening: int)
    requires IdsOk(s) && k in s.accounts && forall t <- batch :: t.account == k
    ensures var s' := FinalizeAll(s, k, batch, opening, s.now).state; IdsOk(s') && s'.now == s.now
  {
    hide IdsOk, FinalizeOne;
    if batch != [] {
      var front := batch[..|batch| - 1];
      FinalizeAllIds(s, k, front, opening);
      FinalizeOneIds(FinalizeAll(s, k, front, opening, s.now), k, batch[|batch| - 1], opening);
    }
  }

  lemma SetIds(s: State, k: AccountKey, a: Account)
    requires IdsOk(s) && k in s.accounts && a.lastTransferId == s.accounts[k].lastTransferId
    ensures IdsOk(SetAccount(s, k, a))
  {
    hide PreparedOnce, FinalizedOnce, PreparedKeys, FinalizedKeys, GivenOut;
    WriteRow(PreparedKeys(s.preparations), s.accounts, k, a, s.now);
  }

  lemma FinalizeIds(s: State, k: AccountKey, batch: seq<TransferKey>)
    requires IdsOk(s) && Enabled(s, EFinalize(k, batch))
    ensures IdsOk(FinalizeTransfers(s, k, batch, s.now))
  {
    hide PreparedOnce, FinalizedOnce, PreparedKeys, FinalizedKeys, GivenOut, FinalizeAll, Balance,
         AccumulatedInterest;
    if Live(s, k).Some? {
      var opening := Balance(k, s.accounts[k], s.now).Floor;
      FinalizeAllIds(s, k, batch, opening);
      var f := FinalizeAll(s, k, batch, opening, s.now);
      SetIds(f.state, k, ApplyChange(k, f.state.accounts[k], f.delta, 0.0, s.now));
    }
  }

  lemma ApplyOneIds(b: Crediting, k: AccountKey, ck: ChangeKey)
    requires IdsOk(b.state) && k in b.state.accounts
    ensures var s' := ApplyOne(b, k, ck, b.state.now).state; IdsOk(s') && s'.now == b.state.now
  {
    hide PreparedOnce, FinalizedOnce, PreparedKeys, FinalizedKeys, GivenOut, TransferSignals, DueInterest;
    var s, s' := b.state, ApplyOne(b, k, ck, b.state.now).state;
    WriteRow(PreparedKeys(s.preparations), s.accounts, k, s'.accounts[k], s.now);
  }

  lemma {:induction false} ApplyAllIds(s: State, k: AccountKey, batch: seq<ChangeKey>)
    requires IdsOk(s) && k in s.accounts
    ensures var s' := ApplyAll(s, k, batch, s.now).state; IdsOk(s') && s'.now == s.now
  {
    hide IdsOk, ApplyOne;
    if batch != [] {
      var front := batch[..|batch| - 1];
      ApplyAllIds(s, k, front);
      ApplyOneIds(ApplyAll(s, k, front, s.now), k, batch[|batch| - 1]);
    }
  }

  lemma ApplyIds(s: State, k: AccountKey, batch: seq<ChangeKey>)
    requires IdsOk(s)
    ensures IdsOk(ApplyChanges(s, k, batch, s.now))
  {
    hide IdsOk, AccountStep, LockOrCreate, ApplyAll, AccumulatedInterest;
    if batch != [] {
      var s1 := LockOrCreate(s, k, s.now);
      LockOrCreateFrame(s, k);
      AccountStepTables(s, s1, k);
      AccountIds(s, s1, k);
      ApplyAllIds(s1, k, batch);
      var b := ApplyAll(s1, k, batch, s.now);
      SetIds(b.state, k, ApplyChange(k, b.state.accounts[k], b.principalDelta, b.interestDelta, s.now));
    }
  }

  /** An account that is created again after a purge starts with greater ids. */
  lemma DropRow(
    c: Settings, keys: set<TransferKey>, accounts: map<AccountKey, Account>, k: AccountKey, now: int)
    requires GivenOut(keys, accounts, now) && k in accounts && CanBePurged(c, accounts[k], now)
    requires accounts[k].lastTransferId <= (accounts[k].creationDate + 1) * TRANSFERS_PER_DAY
    ensures GivenOut(keys, accounts - {k}, now)
  {
    assert Date(now - 3 * DAY) <= Date(now);
    assert accounts[k].lastTransferId <= Date(now) * TRANSFERS_PER_DAY;
  }

  lemma PurgeIds(c: Settings, s: State, k: AccountKey)
    requires IdsOk(s) && IdSpace(s)
    ensures IdsOk(PurgeAccount(c, s, k, s.now))
  {
    hide PreparedOnce, FinalizedOnce, PreparedKeys, FinalizedKeys, GivenOut;
    if k in s.accounts && CanBePurged(c, s.accounts[k], s.now) {
      DropRow(c, PreparedKeys(s.preparations), s.accounts, k, s.now);
    }
  }

  lemma QueueIds(s: State, s': State)
    requires IdsOk(s) && QueueStep(s, s')
    ensures IdsOk(s')
  {
    hide PreparedOnce, FinalizedOnce, PreparedKeys, FinalizedKeys, GivenOut;
  }

  lemma IdsLater(s: State, now: int)
    requires IdsOk(s) && s.now <= now
    ensures IdsOk(s.(now := now)) && IdSpace(s.(now := now)) == IdSpace(s)
  {
    hide PreparedOnce, FinalizedOnce, PreparedKeys, FinalizedKeys, GivenOut;
    GivenOutLater(PreparedKeys(s.preparations), s.accounts, s.now, now);
  }

  /** No step gives an id twice, or finalizes a transfer that has been finalized. */
  lemma IdsStep(c: Settings, s: State, e: Event, now: int)
    requires c.Valid() && RowsOk(c, s) && IdsOk(s) && IdSpace(s) && s.now <= now && Enabled(s, e)
    ensures IdsOk(Step(c, s, e, now))
  {
    hide *;
    var s0, s' := s.(now := now), Step(c, s, e, now);
    IdsLater(s, now);
    EnabledLater(s, e, now);
    StepCases(c, s, e, now);
    EventKinds(e);
    if IsAccountEvent(e) {
      AccountEventFrame(c, s, e, now);
      AccountIds(s0, s', KeyOf(e));
    } else if IsQueueEvent(e) {
      QueueFrame(c, s, e, now);
      QueueIds(s0, s');
    } else {
      match e
      case EPrepare(rk, commitPeriod) => PrepareIds(c, s0, rk, commitPeriod);
      case EFinalize(k, batch) => FinalizeIds(s0, k, batch);
      case EApply(k, batch) => ApplyIds(s0, k, batch);
      case EPurge(k) => PurgeIds(c, s0, k);
    }
  }
}
