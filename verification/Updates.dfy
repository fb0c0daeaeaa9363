/** Account updates: the signals about an account are versions of its row, each later than the one
    before; so a client that keeps the newest signal ends with the current row. */
module Updates {
  import opened Models
  import opened Steps
  import opened Frames
  import opened Rows
  import opened Writes
  import opened Runs
  import opened Chain
  import opened Columns

  /** The wrapped number of a change. */
  function Wrapped(changes: nat): int {
    (changes + SEQNUM_SPAN / 2) % SEQNUM_SPAN - SEQNUM_SPAN / 2
  }

  lemma NextWrapped(changes: nat)
    ensures NextSeqnum(Wrapped(changes)) == Wrapped(changes + 1)
  {
  }

  // ---- Versions of one row

  /** The row has become a later version, or nothing that clients can see has changed. */
  predicate IsNextVersion(k: AccountKey, a: Account, b: Account) {
    && b.creationDate == a.creationDate
    && a.changes <= b.changes && a.lastChangeTs <= b.lastChangeTs
    && (b.changes == a.changes ==> LookSame(a, b))
    && (a.changeSeqnum == Wrapped(a.changes) ==> b.changeSeqnum == Wrapped(b.changes))
  }

  /** What has not been announced yet is going to be. */
  predicate IsFlagged(k: AccountKey, a: Account, b: Account) {
    b.pendingUpdate || (b.pendingUpdate == a.pendingUpdate && LookSame(a, b))
  }

  lemma VersionTrans(k: AccountKey, a: Account, b: Account, d: Account)
    requires IsNextVersion(k, a, b) && IsNextVersion(k, b, d)
    ensures IsNextVersion(k, a, d)
    ensures IsFlagged(k, a, b) && IsFlagged(k, b, d) && (b.pendingUpdate ==> d.pendingUpdate) ==> IsFlagged(k, a, d)
  {
    hide Wrapped;
  }

  // ---- The signals about one account

  /** The order of the signals of an account: a later signal is about a later lifetime, or about the
      same or a later version in the same lifetime. */
  predicate IsNotOlder(u: UpdateSignal, v: UpdateSignal) {
    || u.creationDate < v.creationDate
    || (&& u.creationDate == v.creationDate && u.changes <= v.changes && u.changeTs <= v.changeTs
        && (u.changes == v.changes ==> u == v))
  }

  predicate InOrder(updates: seq<UpdateSignal>, k: AccountKey) {
    && (forall i, j :: 0 <= i < j < |updates| && updates[i].account == k && updates[j].account == k ==>
          IsNotOlder(updates[i], updates[j]))
    && forall u <- updates :: u.account == k ==> u.changeSeqnum == Wrapped(u.changes)
  }

  /** No signal is newer than the row. */
  predicate NoneNewer(updates: seq<UpdateSignal>, k: AccountKey, a: Account) {
    forall u <- updates :: u.account == k ==> IsNotOlder(u, UpdateOf(k, a))
  }

  predicate AllEarlier(updates: seq<UpdateSignal>, k: AccountKey, creationDate: int) {
    forall u <- updates :: u.account == k ==> u.creationDate < creationDate
  }

  function LastOf(updates: seq<UpdateSignal>, k: AccountKey): Option<UpdateSignal> {
    if updates == [] then None
    else
      var n := |updates| - 1;
      if updates[n].account == k then Some(updates[n]) else LastOf(updates[..n], k)
  }

  predicate IsAnnouncedRow(updates: seq<UpdateSignal>, k: AccountKey, a: Account) {
    && InOrder(updates, k) && NoneNewer(updates, k, a)
    && a.changeSeqnum == Wrapped(a.changes)
    && (!a.pendingUpdate ==> LastOf(updates, k).Some? && Shows(LastOf(updates, k).value, k, a))
  }

  /** In a good state the signals are in order, none is newer than the row; and if no update is
      pending, then the last signal shows the current row, field by field. */
  predicate UpdatesOk(s: State, k: AccountKey) {
    if k in s.accounts then IsAnnouncedRow(s.updates, k, s.accounts[k])
    else InOrder(s.updates, k) && AllEarlier(s.updates, k, Date(s.now))
  }

  // ---- Changing a row, and sending a signal

  lemma NextRow(updates: seq<UpdateSignal>, k: AccountKey, a: Account, b: Account)
    requires IsAnnouncedRow(updates, k, a) && IsNextVersion(k, a, b) && IsFlagged(k, a, b)
    ensures IsAnnouncedRow(updates, k, b)
  {
    hide InOrder, LastOf, Wrapped;
  }

  lemma AppendUpdate(updates: seq<UpdateSignal>, k: AccountKey, u: UpdateSignal)
    requires InOrder(updates, k) && u.account == k && u.changeSeqnum == Wrapped(u.changes)
    requires forall v <- updates :: v.account == k ==> IsNotOlder(v, u)
    ensures InOrder(updates + [u], k) && LastOf(updates + [u], k) == Some(u)
    ensures forall v <- updates + [u] :: v.account == k ==> IsNotOlder(v, u)
  {
    hide IsNotOlder, Wrapped;
    assert IsNotOlder(u, u) by { SameIsNotOlder(u); }
    forall i | 0 <= i < |updates|
      ensures updates[i] in updates
    {
    }
  }

  lemma SameIsNotOlder(u: UpdateSignal)
    ensures IsNotOlder(u, u)
  {
  }

  lemma Sent(updates: seq<UpdateSignal>, k: AccountKey, a: Account, row: Account, now: int)
    requires IsAnnouncedRow(updates, k, a) && IsNextVersion(k, a, row)
    ensures IsAnnouncedRow(updates + [UpdateOf(k, row)], k, Announced(row, now))
  {
    hide InOrder, LastOf, Wrapped;
    AppendUpdate(updates, k, UpdateOf(k, row));
  }

  lemma SentFirst(updates: seq<UpdateSignal>, k: AccountKey, row: Account, now: int)
    requires InOrder(updates, k) && AllEarlier(updates, k, row.creationDate) && row.changeSeqnum == Wrapped(row.changes)
    ensures IsAnnouncedRow(updates + [UpdateOf(k, row)], k, Announced(row, now))
  {
    hide InOrder, LastOf, Wrapped;
    AppendUpdate(updates, k, UpdateOf(k, row));
  }

  lemma SentToOther(updates: seq<UpdateSignal>, u: UpdateSignal, j: AccountKey)
    requires u.account != j
    ensures InOrder(updates, j) ==> InOrder(updates + [u], j)
    ensures LastOf(updates + [u], j) == LastOf(updates, j)
    ensures forall a :: NoneNewer(updates, j, a) ==> NoneNewer(updates + [u], j, a)
    ensures forall d :: AllEarlier(updates, j, d) ==> AllEarlier(updates + [u], j, d)
  {
    assert (updates + [u])[..|updates|] == updates;
    forall i | 0 <= i < |updates|
      ensures updates[i] in updates
    {
    }
    hide IsNotOlder, Wrapped, UpdateOf;
  }

  // ---- Steps on one account

  lemma BumpedVersion(k: AccountKey, a: Account, now: int)
    ensures IsNextVersion(k, a, a)
    ensures a.changeSeqnum == Wrapped(a.changes) ==> Bumped(a, now).changeSeqnum == Wrapped(Bumped(a, now).changes)
  {
    NextWrapped(a.changes);
    hide Wrapped;
  }

  lemma SentVersion(c: Settings, s: State, k: AccountKey, row: Account, e: Event)
    requires MaySend(c, s, k, row, e)
    ensures IsNextVersion(k, RowOf(s, k), row)
  {
    BumpedVersion(k, RowOf(s, k), s.now);
    hide AccumulatedInterest, ConfigLater, IsValidConfig, Clamp, Contain, UpdateOf, LookSame, Wrapped, NextSeqnum, NewAccount;
    NextWrapped(RowOf(s, k).changes);
  }

  lemma PaidVersion(k: AccountKey, a: Account, coordinatorType: string, amount: int, now: int)
    ensures var b := Paid(k, a, coordinatorType, amount, now); IsNextVersion(k, a, b) && IsFlagged(k, a, b)
  {
    NextWrapped(a.changes);
    hide AccumulatedInterest, Contain, Wrapped, NextSeqnum;
  }

  lemma NotedVersion(k: AccountKey, a: Account, ct: int, dt: int)
    ensures var b := a.(capitalizationTs := ct, deletionAttemptTs := dt); IsNextVersion(k, a, b) && IsFlagged(k, a, b)
  {
    hide Wrapped;
  }

  lemma WriteUpdates(c: Settings, s: State, k: AccountKey, w: Write, e: Event, j: AccountKey)
    requires MayWrite(c, s, k, w, e) && UpdatesOk(s, j)
    ensures UpdatesOk(WriteOne(s, k, w), j)
  {
    hide InOrder, NoneNewer, AllEarlier, LastOf, MaySend, Paid, NewAccount, UpdateOf, LookSame, IsNextVersion, IsFlagged,
         IsAnnouncedRow, TransferSignals;
    match w
    case Note(ct, dt) =>
      if j == k {
        NotedVersion(k, s.accounts[k], ct, dt);
        NextRow(s.updates, k, s.accounts[k], s.accounts[k].(capitalizationTs := ct, deletionAttemptTs := dt));
      }
    case Send(row) =>
      if j == k {
        SendUpdates(c, s, k, row, e);
      } else {
        OtherUpdates(s, k, row, j);
      }
    case Money(coordinatorType, note, amount) =>
      if j == k && amount != 0 && k.creditor != ROOT_CREDITOR_ID {
        PaidVersion(k, s.accounts[k], coordinatorType, amount, s.now);
        NextRow(s.updates, k, s.accounts[k], Paid(k, s.accounts[k], coordinatorType, amount, s.now));
      }
  }

  lemma SendUpdates(c: Settings, s: State, k: AccountKey, row: Account, e: Event)
    requires MaySend(c, s, k, row, e) && UpdatesOk(s, k)
    ensures UpdatesOk(SendUpdate(s, k, row, s.now), k)
  {
    hide InOrder, NoneNewer, AllEarlier, LastOf, MaySend, UpdateOf, LookSame, IsAnnouncedRow, Wrapped, Announced;
    SentVersion(c, s, k, row, e);
    if k in s.accounts {
      Sent(s.updates, k, s.accounts[k], row, s.now);
    } else {
      NewNumber(s.now);
      SentFirst(s.updates, k, row, s.now);
    }
  }

  lemma NewNumber(now: int)
    ensures NewAccount(now).changeSeqnum == Wrapped(NewAccount(now).changes)
  {
  }

  lemma OtherUpdates(s: State, k: AccountKey, row: Account, j: AccountKey)
    requires j != k && UpdatesOk(s, j)
    ensures UpdatesOk(SendUpdate(s, k, row, s.now), j)
  {
    hide InOrder, NoneNewer, AllEarlier, LastOf, Wrapped;
    SentToOther(s.updates, UpdateOf(k, row), j);
  }

  lemma {:induction false} WriteAllUpdates(
    c: Settings, s: State, k: AccountKey, ws: seq<Write>, e: Event, j: AccountKey)
    requires MayWriteAll(c, s, k, ws, e) && UpdatesOk(s, j)
    ensures UpdatesOk(WriteAll(s, k, ws), j)
    decreases |ws|
  {
    hide MayWrite, WriteOne, UpdatesOk;
    if ws != [] {
      WriteUpdates(c, s, k, ws[0], e, j);
      WriteAllUpdates(c, WriteOne(s, k, ws[0]), k, ws[1..], e, j);
    }
  }

  lemma AccountUpdates(c: Settings, s: State, e: Event, now: int, j: AccountKey)
    requires c.Valid() && RowsOk(c, s) && s.now <= now && Enabled(s, e) && IsAccountEvent(e)
    requires UpdatesOk(s.(now := now), j)
    ensures UpdatesOk(Step(c, s, e, now), j)
  {
    hide Step, Enabled, RowsOk, IsAnnouncedRow, InOrder, AllEarlier, WriteAll, MayWriteAll, IsAccountEvent;
    RowsLater(c, s, now);
    PrincipalOk(c, s.(now := now), KeyOf(e));
    var ws := AccountEventWrites(c, s, e, now);
    WriteAllUpdates(c, s.(now := now), KeyOf(e), ws, e, j);
  }

  // ---- Batches

  /** In the middle of a finalization batch the row can be seen to change only after a commit, and
      the end of the batch will number that change. */
  predicate InFinalization(k: AccountKey, a: Account, f: Finalizing) {
    && k in f.state.accounts && f.delta <= 0
    && (f.delta == 0 ==> LookSame(a, f.state.accounts[k]))
    && InBatch(a, f.state.accounts[k])
  }

  predicate InBatch(a: Account, b: Account) {
    && b.creationDate == a.creationDate && b.changes == a.changes && b.changeSeqnum == a.changeSeqnum
    && b.lastChangeTs == a.lastChangeTs && b.pendingUpdate == a.pendingUpdate
  }

  lemma ReleasedVersion(k: AccountKey, a: Account, pt: PreparedTransfer, committed: int, now: int)
    ensures var b := Released(k, a, pt, committed, now);
            InBatch(a, b) && (committed <= 0 ==> LookSame(a, b))
  {
  }

  lemma FinalizeOneVersion(k: AccountKey, a: Account, f: Finalizing, t: TransferKey, opening: int, now: int)
    requires InFinalization(k, a, f)
    ensures var f' := FinalizeOne(f, k, t, opening, now);
            && InFinalization(k, a, f') && f'.state.updates == f.state.updates
            && forall j :: j != k ==> (j in f'.state.accounts <==> j in f.state.accounts)
                                      && (j in f'.state.accounts ==> f'.state.accounts[j] == f.state.accounts[j])
  {
    hide CommittedAmount, FinalStatus, TransferSignals, Release, Released, UpdateOf;
    if Matches(f.state, t) {
      var committed := CommittedAmount(f, k, t, opening, now);
      ReleaseFrame(f.state, k, t, FinalStatus(f, k, t, opening, now), committed, now);
      ReleasedVersion(k, f.state.accounts[k], f.state.prepared[t], committed, now);
    }
  }

  lemma {:induction false} FinalizeAllVersion(s: State, k: AccountKey, batch: seq<TransferKey>, opening: int, now: int)
    requires k in s.accounts
    ensures var f := FinalizeAll(s, k, batch, opening, now);
            && InFinalization(k, s.accounts[k], f) && f.state.updates == s.updates
            && forall j :: j != k ==> (j in f.state.accounts <==> j in s.accounts)
                                      && (j in f.state.accounts ==> f.state.accounts[j] == s.accounts[j])
  {
    hide FinalizeOne, UpdateOf;
    if batch != [] {
      var front := batch[..|batch| - 1];
      FinalizeAllVersion(s, k, front, opening, now);
      FinalizeOneVersion(k, s.accounts[k], FinalizeAll(s, k, front, opening, now), batch[|batch| - 1], opening, now);
    }
  }

  /** Folding the deltas of a batch numbers the change, and asks for an update. */
  lemma FoldedVersion(k: AccountKey, a: Account, b: Account, principalDelta: int, interestDelta: real, now: int)
    requires InBatch(a, b)
    ensures var d := ApplyChange(k, b, principalDelta, interestDelta, now);
            IsNextVersion(k, a, d) && IsFlagged(k, a, d)
  {
    NextWrapped(a.changes);
    hide AccumulatedInterest, Contain, Wrapped, NextSeqnum;
  }

  lemma UnchangedVersion(k: AccountKey, a: Account, b: Account)
    requires InBatch(a, b) && LookSame(a, b)
    ensures IsNextVersion(k, a, b) && IsFlagged(k, a, b)
  {
  }

  lemma FinalizeUpdates(s: State, k: AccountKey, batch: seq<TransferKey>, j: AccountKey)
    requires UpdatesOk(s, j)
    ensures UpdatesOk(FinalizeTransfers(s, k, batch, s.now), j)
  {
    hide FinalizeAll, Balance, ApplyChange, UpdateOf, LookSame, IsAnnouncedRow, InOrder, AllEarlier, IsNextVersion, IsFlagged;
    if Live(s, k).Some? {
      var opening := Balance(k, s.accounts[k], s.now).Floor;
      FinalizeAllVersion(s, k, batch, opening, s.now);
      var f := FinalizeAll(s, k, batch, opening, s.now);
      if j == k {
        if f.delta == 0 {
          UnchangedVersion(k, s.accounts[k], f.state.accounts[k]);
          NextRow(s.updates, k, s.accounts[k], f.state.accounts[k]);
        } else {
          FoldedVersion(k, s.accounts[k], f.state.accounts[k], f.delta, 0.0, s.now);
          NextRow(s.updates, k, s.accounts[k], ApplyChange(k, f.state.accounts[k], f.delta, 0.0, s.now));
        }
      }
    }
  }

  lemma {:induction false} ApplyAllVersion(s: State, k: AccountKey, batch: seq<ChangeKey>, now: int)
    requires k in s.accounts
    ensures var b := ApplyAll(s, k, batch, now);
            && InBatch(s.accounts[k], b.state.accounts[k]) && b.state.updates == s.updates
            && forall j :: j != k ==> (j in b.state.accounts <==> j in s.accounts)
                                      && (j in b.state.accounts ==> b.state.accounts[j] == s.accounts[j])
  {
    hide DueInterest, TransferSignals;
    if batch != [] {
      ApplyAllVersion(s, k, batch[..|batch| - 1], now);
    }
  }

  lemma ApplyUpdates(c: Settings, s: State, k: AccountKey, batch: seq<ChangeKey>, j: AccountKey)
    requires UpdatesOk(s, j)
    ensures UpdatesOk(ApplyChanges(s, k, batch, s.now), j)
  {
    hide ApplyAll, ApplyChange, LockOrCreate, WriteAll, MayWriteAll, IsAnnouncedRow, InOrder, AllEarlier,
         IsNextVersion, IsFlagged;
    if batch != [] {
      var s1 := LockOrCreate(s, k, s.now);
      var ws := LockWrites(c, s, k, EApply(k, batch));
      WriteAllUpdates(c, s, k, ws, EApply(k, batch), j);
      ApplyAllVersion(s1, k, batch, s.now);
      var b := ApplyAll(s1, k, batch, s.now);
      if j == k {
        FoldedVersion(k, s1.accounts[k], b.state.accounts[k], b.principalDelta, b.interestDelta, s.now);
        NextRow(s1.updates, k, s1.accounts[k],
                ApplyChange(k, b.state.accounts[k], b.principalDelta, b.interestDelta, s.now));
      }
    }
  }

  lemma LockedVersion(k: AccountKey, a: Account, amount: int)
    ensures IsNextVersion(k, a, WithLock(a, amount)) && IsFlagged(k, a, WithLock(a, amount))
  {
    hide Wrapped;
  }

  lemma PrepareUpdates(c: Settings, s: State, rk: RequestKey, commitPeriod: int, j: AccountKey)
    requires rk in s.requests && UpdatesOk(s, j)
    ensures UpdatesOk(PrepareTransfer(c, s, rk, commitPeriod, s.now), j)
  {
    hide PrepareTransfer, Accepts, LockableAmount, NewTransfer, WithLock, IsAnnouncedRow, InOrder, AllEarlier,
         IsNextVersion, IsFlagged;
    PrepareKeeps(c, s, rk, commitPeriod);
    PrepareWrites(c, s, rk, commitPeriod);
    if Accepts(s, rk, s.now) && j == rk.account {
      var amount := LockableAmount(j, s.accounts[j], s.requests[rk], s.now);
      LockedVersion(j, s.accounts[j], amount);
      NextRow(s.updates, j, s.accounts[j], WithLock(s.accounts[j], amount));
    }
  }

  lemma PurgeUpdates(c: Settings, s: State, k: AccountKey, j: AccountKey)
    requires UpdatesOk(s, j)
    ensures UpdatesOk(PurgeAccount(c, s, k, s.now), j)
  {
    hide InOrder, LastOf, Wrapped;
    assert Date(s.now - 3 * DAY) <= Date(s.now);
  }

  lemma QueueUpdates(s: State, s': State, j: AccountKey)
    requires QueueStep(s, s') && UpdatesOk(s, j)
    ensures UpdatesOk(s', j)
  {
    hide IsAnnouncedRow, InOrder, AllEarlier;
  }

  lemma UpdatesLater(s: State, now: int, j: AccountKey)
    requires UpdatesOk(s, j) && s.now <= now
    ensures UpdatesOk(s.(now := now), j)
  {
    hide IsAnnouncedRow, InOrder;
    assert Date(s.now) <= Date(now);
  }

  /** Every step keeps the order of the signals, and what they say about the row. */
  lemma UpdatesStep(c: Settings, s: State, e: Event, now: int, j: AccountKey)
    requires c.Valid() && RowsOk(c, s) && UpdatesOk(s, j) && s.now <= now && Enabled(s, e)
    ensures UpdatesOk(Step(c, s, e, now), j)
  {
    hide *;
    var s0, s' := s.(now := now), Step(c, s, e, now);
    UpdatesLater(s, now, j);
    StepCases(c, s, e, now);
    EventKinds(e);
    if IsAccountEvent(e) {
      AccountUpdates(c, s, e, now, j);
    } else if IsQueueEvent(e) {
      QueueFrame(c, s, e, now);
      QueueUpdates(s0, s', j);
    } else {
      match e
      case EPrepare(rk, commitPeriod) => PrepareUpdates(c, s0, rk, commitPeriod, j);
      case EFinalize(k, batch) => FinalizeUpdates(s0, k, batch, j);
      case EApply(k, batch) => ApplyUpdates(c, s0, k, batch, j);
      case EPurge(k) => PurgeUpdates(c, s0, k, j);
    }
  }

  lemma {:induction false} UpdatesAreVersions(c: Settings, r: Run, k: AccountKey)
    requires IsRun(c, r)
    ensures UpdatesOk(r.states[|r.steps|], k)
    decreases |r.steps|
  {
    hide RowsOk, UpdatesOk, Consistent, Step, Enabled;
    if r.steps == [] {
      NoUpdatesAtStart(r.states[0].now, k);
    } else {
      var n := |r.steps|;
      var front := Run(r.states[..n], r.steps[..n - 1]);
      Prefix(c, r);
      UpdatesAreVersions(c, front, k);
      AlwaysConsistent(c, front);
      ConsistentRows(c, r.states[n - 1]);
      UpdatesStep(c, r.states[n - 1], r.steps[n - 1].event, r.steps[n - 1].now, k);
    }
  }

  lemma NoUpdatesAtStart(now: int, k: AccountKey)
    ensures UpdatesOk(Start(now), k)
  {
  }

  // ---- Every visible change is numbered

  lemma AnnouncedVersion(k: AccountKey, a: Account, row: Account, now: int)
    requires IsNextVersion(k, a, row)
    ensures IsNextVersion(k, a, Announced(row, now))
  {
    hide Wrapped;
  }

  lemma WriteVersion(c: Settings, s: State, k: AccountKey, w: Write, e: Event)
    requires MayWrite(c, s, k, w, e)
    ensures IsNextVersion(k, RowOf(s, k), RowOf(WriteOne(s, k, w), k))
  {
    hide MaySend, Paid, NewAccount, UpdateOf, LookSame, IsNextVersion, IsFlagged, TransferSignals, Announced;
    BumpedVersion(k, RowOf(s, k), s.now);
    match w
    case Note(ct, dt) => NotedVersion(k, s.accounts[k], ct, dt);
    case Send(row) =>
      SentVersion(c, s, k, row, e);
      AnnouncedVersion(k, RowOf(s, k), row, s.now);
    case Money(coordinatorType, note, amount) => PaidVersion(k, s.accounts[k], coordinatorType, amount, s.now);
  }

  lemma {:induction false} WriteAllVersion(c: Settings, s: State, k: AccountKey, ws: seq<Write>, e: Event)
    requires MayWriteAll(c, s, k, ws, e)
    ensures IsNextVersion(k, RowOf(s, k), RowOf(WriteAll(s, k, ws), k))
    decreases |ws|
  {
    hide MayWrite, WriteOne, RowOf, IsNextVersion;
    BumpedVersion(k, RowOf(s, k), s.now);
    if ws != [] {
      var s1 := WriteOne(s, k, ws[0]);
      WriteVersion(c, s, k, ws[0], e);
      WriteAllVersion(c, s1, k, ws[1..], e);
      VersionTrans(k, RowOf(s, k), RowOf(s1, k), RowOf(WriteAll(s, k, ws), k));
    }
  }

  lemma AccountVersion(c: Settings, s: State, e: Event, now: int, k: AccountKey)
    requires c.Valid() && RowsOk(c, s) && s.now <= now && Enabled(s, e) && IsAccountEvent(e)
    ensures IsNextVersion(k, RowOf(s.(now := now), k), RowOf(Step(c, s, e, now), k))
  {
    hide Step, Enabled, RowsOk, AccountStep, WriteAll, MayWriteAll, NewAccount, IsNextVersion;
    var s0, s' := s.(now := now), Step(c, s, e, now);
    AccountEventFrame(c, s, e, now);
    AccountStepTables(s0, s', KeyOf(e));
    BumpedVersion(k, RowOf(s0, k), now);
    if KeyOf(e) == k {
      RowsLater(c, s, now);
      PrincipalOk(c, s0, k);
      var ws := AccountEventWrites(c, s, e, now);
      WriteAllVersion(c, s0, k, ws, e);
    }
  }

  lemma FinalizeVersion(s: State, k: AccountKey, batch: seq<TransferKey>, j: AccountKey)
    ensures IsNextVersion(j, RowOf(s, j), RowOf(FinalizeTransfers(s, k, batch, s.now), j))
  {
    hide FinalizeAll, Balance, ApplyChange, UpdateOf, LookSame, IsNextVersion, NewAccount;
    BumpedVersion(j, RowOf(s, j), s.now);
    if Live(s, k).Some? {
      var opening := Balance(k, s.accounts[k], s.now).Floor;
      FinalizeAllVersion(s, k, batch, opening, s.now);
      var f := FinalizeAll(s, k, batch, opening, s.now);
      if f.delta == 0 {
        UnchangedVersion(k, s.accounts[k], f.state.accounts[k]);
      }
      FoldedVersion(k, s.accounts[k], f.state.accounts[k], f.delta, 0.0, s.now);
    }
  }

  lemma ApplyVersion(c: Settings, s: State, k: AccountKey, batch: seq<ChangeKey>, j: AccountKey)
    ensures IsNextVersion(j, RowOf(s, j), RowOf(ApplyChanges(s, k, batch, s.now), j))
  {
    hide ApplyAll, ApplyChange, LockOrCreate, WriteAll, MayWriteAll, IsNextVersion, NewAccount, AccountStep;
    BumpedVersion(j, RowOf(s, j), s.now);
    if batch != [] {
      var s1 := LockOrCreate(s, k, s.now);
      LockOrCreateFrame(s, k);
      AccountStepTables(s, s1, k);
      ApplyAllVersion(s1, k, batch, s.now);
      var b := ApplyAll(s1, k, batch, s.now);
      if j == k {
        var ws := LockWrites(c, s, k, EApply(k, batch));
        WriteAllVersion(c, s, k, ws, EApply(k, batch));
        FoldedVersion(k, s1.accounts[k], b.state.accounts[k], b.principalDelta, b.interestDelta, s.now);
        VersionTrans(k, RowOf(s, k), s1.accounts[k], RowOf(ApplyChanges(s, k, batch, s.now), k));
      }
    }
  }

  lemma PrepareVersion(c: Settings, s: State, rk: RequestKey, commitPeriod: int, j: AccountKey)
    requires rk in s.requests
    ensures IsNextVersion(j, RowOf(s, j), RowOf(PrepareTransfer(c, s, rk, commitPeriod, s.now), j))
  {
    hide PrepareTransfer, Accepts, LockableAmount, NewTransfer, WithLock, IsNextVersion, NewAccount;
    PrepareKeeps(c, s, rk, commitPeriod);
    PrepareWrites(c, s, rk, commitPeriod);
    BumpedVersion(j, RowOf(s, j), s.now);
    if Accepts(s, rk, s.now) {
      LockedVersion(rk.account, s.accounts[rk.account],
                    LockableAmount(rk.account, s.accounts[rk.account], s.requests[rk], s.now));
    }
  }

  lemma OtherVersion(c: Settings, s: State, s': State, e: Event, k: AccountKey)
    requires k in s.accounts
    ensures RowOf(s, k) == s.accounts[k] && (k in s'.accounts ==> RowOf(s', k) == s'.accounts[k])
    ensures QueueStep(s, s') ==> s'.accounts == s.accounts
    ensures e.EPurge? && k in PurgeAccount(c, s, e.key, s.now).accounts ==>
              PurgeAccount(c, s, e.key, s.now).accounts[k] == s.accounts[k]
    ensures IsNextVersion(k, s.accounts[k], s.accounts[k])
  {
    hide UpdateOf, Wrapped;
  }

  /** Every step that changes something that an update signal would carry numbers the change, with a
      number that wraps around; and no step moves the time of the last change back. */
  lemma VisibleChangesAreNumbered(c: Settings, s: State, e: Event, now: int, k: AccountKey)
    requires c.Valid() && RowsOk(c, s) && s.now <= now && Enabled(s, e)
    requires k in s.accounts && k in Step(c, s, e, now).accounts
    ensures IsNextVersion(k, s.accounts[k], Step(c, s, e, now).accounts[k])
  {
    hide Step, Enabled, RowsOk, PrepareTransfer, PurgeAccount, FinalizeTransfers, ApplyChanges, QueueStep, IsNextVersion,
         NewAccount;
    var s0, s' := s.(now := now), Step(c, s, e, now);
    StepCases(c, s, e, now);
    EventKinds(e);
    OtherVersion(c, s0, s', e, k);
    if IsAccountEvent(e) {
      AccountVersion(c, s, e, now, k);
    } else if IsQueueEvent(e) {
      QueueFrame(c, s, e, now);
    } else {
      match e
      case EPrepare(rk, commitPeriod) => PrepareVersion(c, s0, rk, commitPeriod, k);
      case EFinalize(j, batch) => FinalizeVersion(s0, j, batch, k);
      case EApply(j, batch) => ApplyVersion(c, s0, j, batch, k);
      case EPurge(_) =>
    }
  }

  // ---- Clients

  /** How a client compares two updates. */
  predicate IsNewer(u: UpdateSignal, v: UpdateSignal) {
    || u.creationDate > v.creationDate
    || (u.creationDate == v.creationDate
        && (u.changeTs > v.changeTs || (u.changeTs == v.changeTs && SeqnumLater(u.changeSeqnum, v.changeSeqnum))))
  }

  function Receive(kept: Option<UpdateSignal>, u: UpdateSignal): Option<UpdateSignal> {
    if kept.None? || IsNewer(u, kept.value) then Some(u) else kept
  }

  /** What a client keeps after it has received the signals. */
  function ReceiveAll(received: seq<UpdateSignal>): Option<UpdateSignal> {
    if received == [] then None
    else Receive(ReceiveAll(received[..|received| - 1]), received[|received| - 1])
  }

  /** No two signals with the same timestamp are half of the sequence numbers apart. */
  predicate AreNear(updates: seq<UpdateSignal>, k: AccountKey) {
    forall u, v :: u in updates && v in updates && u.account == k && v.account == k
      && u.creationDate == v.creationDate && u.changeTs == v.changeTs && u.changes <= v.changes
      ==> v.changes - u.changes < SEQNUM_SPAN / 2
  }

  lemma LaterWrapped(x: nat, y: nat)
    requires 0 < y - x < SEQNUM_SPAN / 2
    ensures SeqnumLater(Wrapped(y), Wrapped(x)) && !SeqnumLater(Wrapped(x), Wrapped(y))
  {
    var half := SEQNUM_SPAN / 2;
    assert (Wrapped(y) - Wrapped(x)) % SEQNUM_SPAN == y - x;
    assert (Wrapped(x) - Wrapped(y)) % SEQNUM_SPAN == SEQNUM_SPAN - (y - x);
  }

  /** The order of the server is the order that clients see. */
  lemma VersionsCompare(u: UpdateSignal, v: UpdateSignal)
    requires IsNotOlder(u, v) && u != v
    requires u.changeSeqnum == Wrapped(u.changes) && v.changeSeqnum == Wrapped(v.changes)
    requires u.creationDate == v.creationDate && u.changeTs == v.changeTs ==> v.changes - u.changes < SEQNUM_SPAN / 2
    ensures IsNewer(v, u) && !IsNewer(u, v)
  {
    hide Wrapped, SeqnumLater;
    if u.creationDate == v.creationDate && u.changeTs == v.changeTs {
      LaterWrapped(u.changes, v.changes);
    }
  }

  lemma {:induction false} LastIsNewest(updates: seq<UpdateSignal>, k: AccountKey)
    requires InOrder(updates, k) && AreNear(updates, k) && LastOf(updates, k).Some?
    ensures var last := LastOf(updates, k).value;
            && last in updates && last.account == k
            && forall u <- updates :: u.account == k && u != last ==> IsNewer(last, u) && !IsNewer(u, last)
  {
    hide Wrapped, IsNotOlder, IsNewer;
    var n := |updates| - 1;
    if updates[n].account == k {
      forall u | u in updates && u.account == k && u != updates[n]
        ensures IsNewer(updates[n], u) && !IsNewer(u, updates[n])
      {
        var i :| 0 <= i < |updates| && updates[i] == u;
        OlderThanLast(updates, k, i);
      }
    } else {
      assert updates == updates[..n] + [updates[n]];
      LastIsNewest(updates[..n], k);
    }
  }

  lemma OlderThanLast(updates: seq<UpdateSignal>, k: AccountKey, i: nat)
    requires InOrder(updates, k) && AreNear(updates, k) && i < |updates|
    requires updates[i].account == k == updates[|updates| - 1].account && updates[i] != updates[|updates| - 1]
    ensures IsNewer(updates[|updates| - 1], updates[i]) && !IsNewer(updates[i], updates[|updates| - 1])
  {
    hide Wrapped, IsNewer;
    var u, v := updates[i], updates[|updates| - 1];
    assert u in updates && v in updates;
    assert IsNotOlder(u, v);
    VersionsCompare(u, v);
  }

  lemma {:induction false} KeepsNewest(received: seq<UpdateSignal>, last: UpdateSignal)
    requires forall u <- received :: u != last ==> IsNewer(last, u) && !IsNewer(u, last)
    ensures var kept := ReceiveAll(received);
            && (received != [] ==> kept.Some? && kept.value in received)
            && (last in received ==> kept == Some(last))
  {
    hide IsNewer;
    if received != [] {
      var n := |received| - 1;
      assert received == received[..n] + [received[n]];
      KeepsNewest(received[..n], last);
    }
  }

  /** Client convergence: a client that has received the last signal about an account, among any
      others, in any order and any number of times, keeps the last one.  When no update is pending, every
      field of it is that of the current row of the account. */
  lemma ClientsConverge(c: Settings, r: Run, k: AccountKey, received: seq<UpdateSignal>)
    requires IsRun(c, r) && k in r.states[|r.steps|].accounts && !r.states[|r.steps|].accounts[k].pendingUpdate
    requires AreNear(r.states[|r.steps|].updates, k)
    requires forall u <- received :: u in r.states[|r.steps|].updates && u.account == k
    requires LastOf(r.states[|r.steps|].updates, k).Some? && LastOf(r.states[|r.steps|].updates, k).value in received
    ensures ReceiveAll(received).Some? && Shows(ReceiveAll(received).value, k, r.states[|r.steps|].accounts[k])
  {
    hide IsStep, InOrder, NoneNewer, AreNear, IsNewer, Wrapped, UpdateOf;
    UpdatesAreVersions(c, r, k);
    LastIsNewest(r.states[|r.steps|].updates, k);
    KeepsNewest(received, LastOf(r.states[|r.steps|].updates, k).value);
  }
}
