/** The chain of transfer signals: in each lifetime of an account the signals are numbered one after
    the other, and each names its predecessor. */
module Chain {
  import opened Models
  import opened Steps
  import opened Frames
  import opened Rows
  import opened Writes
  import opened Runs
  import opened Columns
  import opened Outcomes

  /** The signals of one lifetime of an account, in the order in which they were sent. */
  function SignalsOf(transfers: seq<TransferSignal>, k: AccountKey, creationDate: int): seq<TransferSignal> {
    if transfers == [] then []
    else
      var n := |transfers| - 1;
      SignalsOf(transfers[..n], k, creationDate)
      + if transfers[n].account == k && transfers[n].creationDate == creationDate then [transfers[n]] else []
  }

  /** Numbered 1, 2, 3 and so on, without gaps, each naming its predecessor. */
  predicate IsChain(signals: seq<TransferSignal>) {
    forall i :: 0 <= i < |signals| ==> signals[i].number == i + 1 && signals[i].previousNumber == i
  }

  /** All lifetimes of the account are chains.  The last one ends with the account's last number, and
      no earlier lifetime had the same creation date. */
  ghost predicate Chained(transfers: seq<TransferSignal>, k: AccountKey, a: Account) {
    && (forall d :: IsChain(SignalsOf(transfers, k, d)))
    && |SignalsOf(transfers, k, a.creationDate)| == a.transferNumber
    && forall t <- transfers :: t.account == k ==> t.creationDate <= a.creationDate
  }

  ghost predicate ChainOk(s: State, k: AccountKey) {
    Chained(s.transfers, k, RowOf(s, k))
  }

  // ---- Appending signals

  lemma AppendOne(transfers: seq<TransferSignal>, t: TransferSignal, k: AccountKey, creationDate: int)
    ensures SignalsOf(transfers + [t], k, creationDate)
            == if t.account == k && t.creationDate == creationDate then SignalsOf(transfers, k, creationDate) + [t]
               else SignalsOf(transfers, k, creationDate)
  {
    assert (transfers + [t])[..|transfers|] == transfers;
  }

  lemma AppendOwn(
    transfers: seq<TransferSignal>, k: AccountKey, a: Account, b: Account, coordinatorType: string, other: int,
    committedAt: int, acquired: int, note: string, principal: int)
    requires Chained(transfers, k, a) && b.creationDate == a.creationDate
    requires b.transferNumber == Numbered(k, a, acquired, committedAt).transferNumber
    ensures Chained(transfers + TransferSignals(k, a, coordinatorType, other, committedAt, acquired, note, principal), k, b)
  {
    var added := TransferSignals(k, a, coordinatorType, other, committedAt, acquired, note, principal);
    if added == [] {
      assert transfers + added == transfers;
    } else {
      forall d
        ensures IsChain(SignalsOf(transfers + added, k, d))
      {
        AppendOne(transfers, added[0], k, d);
      }
      AppendOne(transfers, added[0], k, a.creationDate);
    }
  }

  lemma AppendOther(transfers: seq<TransferSignal>, added: seq<TransferSignal>, k: AccountKey, a: Account)
    requires Chained(transfers, k, a) && |added| <= 1 && forall t <- added :: t.account != k
    ensures Chained(transfers + added, k, a)
  {
    if added == [] {
      assert transfers + added == transfers;
    } else {
      forall d
        ensures SignalsOf(transfers + added, k, d) == SignalsOf(transfers, k, d)
      {
        AppendOne(transfers, added[0], k, d);
      }
      hide SignalsOf;
    }
  }

  lemma SameChain(transfers: seq<TransferSignal>, k: AccountKey, a: Account, b: Account)
    requires Chained(transfers, k, a) && b.creationDate == a.creationDate && b.transferNumber == a.transferNumber
    ensures Chained(transfers, k, b)
  {
    hide SignalsOf, IsChain;
  }

  /** A lifetime that starts on a later day starts a new chain. */
  lemma {:induction false} NoSignals(transfers: seq<TransferSignal>, k: AccountKey, creationDate: int)
    requires forall t <- transfers :: t.account == k ==> t.creationDate != creationDate
    ensures SignalsOf(transfers, k, creationDate) == []
  {
    if transfers != [] {
      NoSignals(transfers[..|transfers| - 1], k, creationDate);
      assert transfers[|transfers| - 1] in transfers;
    }
  }

  lemma NewLifetime(transfers: seq<TransferSignal>, k: AccountKey, a: Account, b: Account)
    requires Chained(transfers, k, a) && a.creationDate < b.creationDate && b.transferNumber == 0
    ensures Chained(transfers, k, b)
  {
    NoSignals(transfers, k, b.creationDate);
  }

  lemma {:induction false} OwnDate(transfers: seq<TransferSignal>, k: AccountKey, creationDate: int)
    requires SignalsOf(transfers, k, creationDate) == []
    ensures forall t <- transfers :: t.account == k ==> t.creationDate != creationDate
  {
    if transfers != [] {
      OwnDate(transfers[..|transfers| - 1], k, creationDate);
      assert transfers == transfers[..|transfers| - 1] + [transfers[|transfers| - 1]];
    }
  }

  // ---- Steps

  lemma AnnouncedBy(
    k: AccountKey, a: Account, coordinatorType: string, other: int, committedAt: int, acquired: int, note: string,
    principal: int)
    ensures var added := TransferSignals(k, a, coordinatorType, other, committedAt, acquired, note, principal);
            |added| <= 1 && forall t <- added :: t.account == k
    ensures Numbered(k, a, acquired, committedAt).creationDate == a.creationDate
  {
  }

  lemma SentChain(c: Settings, s: State, k: AccountKey, row: Account, e: Event)
    requires MaySend(c, s, k, row, e)
    ensures row.creationDate == RowOf(s, k).creationDate && row.transferNumber == RowOf(s, k).transferNumber
  {
    hide AccumulatedInterest, ConfigLater, IsValidConfig, Clamp, Contain;
  }

  lemma PaidChain(k: AccountKey, a: Account, coordinatorType: string, amount: int, now: int)
    ensures var b := Paid(k, a, coordinatorType, amount, now);
            && b.creationDate == a.creationDate && b.transferNumber == Numbered(k, a, amount, now).transferNumber
  {
    hide AccumulatedInterest, Contain;
  }

  lemma WriteChain(c: Settings, s: State, k: AccountKey, w: Write, e: Event, j: AccountKey)
    requires MayWrite(c, s, k, w, e) && ChainOk(s, j)
    ensures ChainOk(WriteOne(s, k, w), j)
  {
    hide Chained, MaySend, Paid, TransferSignals, NewAccount, UpdateOf;
    var s' := WriteOne(s, k, w);
    match w
    case Note(_, _) =>
      if j == k {
        SameChain(s.transfers, k, s.accounts[k], s'.accounts[k]);
      }
    case Send(row) =>
      SentChain(c, s, k, row, e);
      if j == k {
        SameChain(s.transfers, k, RowOf(s, k), s'.accounts[k]);
      }
    case Money(coordinatorType, note, amount) =>
      var a, principal := s.accounts[k], Contain(s.accounts[k].principal + amount);
      AnnouncedBy(k, a, coordinatorType, ROOT_CREDITOR_ID, s.now, amount, note, principal);
      PaidChain(k, a, coordinatorType, amount, s.now);
      if j == k {
        AppendOwn(s.transfers, k, a, Paid(k, a, coordinatorType, amount, s.now), coordinatorType, ROOT_CREDITOR_ID,
                  s.now, amount, note, principal);
      } else {
        AppendOther(s.transfers, TransferSignals(k, a, coordinatorType, ROOT_CREDITOR_ID, s.now, amount, note,
                                                 principal), j, RowOf(s, j));
      }
  }

  lemma {:induction false} WriteAllChain(c: Settings, s: State, k: AccountKey, ws: seq<Write>, e: Event, j: AccountKey)
    requires MayWriteAll(c, s, k, ws, e) && ChainOk(s, j)
    ensures ChainOk(WriteAll(s, k, ws), j)
    decreases |ws|
  {
    hide MayWrite, WriteOne, ChainOk;
    if ws != [] {
      WriteChain(c, s, k, ws[0], e, j);
      WriteAllChain(c, WriteOne(s, k, ws[0]), k, ws[1..], e, j);
    }
  }

  lemma AccountChain(c: Settings, s: State, e: Event, now: int, j: AccountKey)
    requires c.Valid() && RowsOk(c, s) && s.now <= now && Enabled(s, e) && IsAccountEvent(e)
    requires ChainOk(s.(now := now), j)
    ensures ChainOk(Step(c, s, e, now), j)
  {
    hide Step, Enabled, RowsOk, Chained, WriteAll, MayWriteAll, IsAccountEvent, NewAccount;
    RowsLater(c, s, now);
    PrincipalOk(c, s.(now := now), KeyOf(e));
    var ws := AccountEventWrites(c, s, e, now);
    WriteAllChain(c, s.(now := now), KeyOf(e), ws, e, j);
  }

  lemma ReleasedChain(k: AccountKey, a: Account, pt: PreparedTransfer, committed: int, now: int)
    ensures var b := Released(k, a, pt, committed, now);
            && b.creationDate == a.creationDate
            && b.transferNumber
               == if committed > 0 then Numbered(k, a, -committed, now).transferNumber else a.transferNumber
  {
  }

  lemma FinalizeOneChain(f: Finalizing, k: AccountKey, t: TransferKey, opening: int, j: AccountKey)
    requires k in f.state.accounts && ChainOk(f.state, j)
    ensures var s' := FinalizeOne(f, k, t, opening, f.state.now).state; ChainOk(s', j) && s'.now == f.state.now
  {
    hide Chained, CommittedAmount, FinalStatus, TransferSignals, Release, Released, Numbered, NewAccount;
    var s := f.state;
    if Matches(s, t) {
      var committed := CommittedAmount(f, k, t, opening, s.now);
      ReleaseFrame(s, k, t, FinalStatus(f, k, t, opening, s.now), committed, s.now);
      var a, pt, r := s.accounts[k], s.prepared[t], s.finalizations[t];
      var b := Released(k, a, pt, committed, s.now);
      ReleasedChain(k, a, pt, committed, s.now);
      if committed > 0 {
        AnnouncedBy(k, a, pt.coordinator.kind, pt.recipient, s.now, -committed, r.note, Contain(a.principal - committed));
        if j == k {
          AppendOwn(s.transfers, k, a, b, pt.coordinator.kind, pt.recipient, s.now, -committed, r.note,
                    Contain(a.principal - committed));
        } else {
          AppendOther(s.transfers, TransferSignals(k, a, pt.coordinator.kind, pt.recipient, s.now, -committed, r.note,
                                                   Contain(a.principal - committed)), j, RowOf(s, j));
        }
      } else if j == k {
        SameChain(s.transfers, k, a, b);
      }
    }
  }

  lemma {:induction false} FinalizeAllChain(
    s: State, k: AccountKey, batch: seq<TransferKey>, opening: int, j: AccountKey)
    requires k in s.accounts && ChainOk(s, j)
    ensures var s' := FinalizeAll(s, k, batch, opening, s.now).state; ChainOk(s', j) && s'.now == s.now
  {
    hide ChainOk, FinalizeOne;
    if batch != [] {
      var front := batch[..|batch| - 1];
      FinalizeAllChain(s, k, front, opening, j);
      FinalizeOneChain(FinalizeAll(s, k, front, opening, s.now), k, batch[|batch| - 1], opening, j);
    }
  }

  lemma SetChain(s: State, k: AccountKey, b: Account, j: AccountKey)
    requires ChainOk(s, j) && b.creationDate == RowOf(s, k).creationDate && b.transferNumber == RowOf(s, k).transferNumber
    ensures ChainOk(SetAccount(s, k, b), j)
  {
    hide Chained, NewAccount;
    if j == k {
      SameChain(s.transfers, k, RowOf(s, k), b);
    }
  }

  lemma FoldedChain(k: AccountKey, a: Account, principalDelta: int, interestDelta: real, now: int)
    ensures var b := ApplyChange(k, a, principalDelta, interestDelta, now);
            b.creationDate == a.creationDate && b.transferNumber == a.transferNumber
  {
    hide AccumulatedInterest;
  }

  lemma FinalizeChain(s: State, k: AccountKey, batch: seq<TransferKey>, j: AccountKey)
    requires ChainOk(s, j)
    ensures ChainOk(FinalizeTransfers(s, k, batch, s.now), j)
  {
    hide Chained, FinalizeAll, Balance, ApplyChange, SetAccount, NewAccount;
    if Live(s, k).Some? {
      var opening := Balance(k, s.accounts[k], s.now).Floor;
      FinalizeAllChain(s, k, batch, opening, j);
      var f := FinalizeAll(s, k, batch, opening, s.now);
      FoldedChain(k, f.state.accounts[k], f.delta, 0.0, s.now);
      SetChain(f.state, k, ApplyChange(k, f.state.accounts[k], f.delta, 0.0, s.now), j);
    }
  }

  lemma ApplyOneChain(b: Crediting, k: AccountKey, ck: ChangeKey, now: int, j: AccountKey)
    requires k in b.state.accounts && ChainOk(b.state, j)
    ensures ChainOk(ApplyOne(b, k, ck, now).state, j)
  {
    hide Chained, DueInterest, TransferSignals, Numbered, NewAccount;
    var s := b.state;
    if ck in s.queued {
      var ch, a := s.queued[ck], s.accounts[k];
      var principal := Contain(a.principal + (b.principalDelta + ch.delta));
      AnnouncedBy(k, a, ch.coordinatorType, ck.other, ch.committedAt, ch.delta, ch.note, principal);
      if j == k {
        AppendOwn(s.transfers, k, a, Numbered(k, a, ch.delta, ch.committedAt), ch.coordinatorType, ck.other,
                  ch.committedAt, ch.delta, ch.note, principal);
      } else {
        AppendOther(s.transfers, TransferSignals(k, a, ch.coordinatorType, ck.other, ch.committedAt, ch.delta, ch.note,
                                                 principal), j, RowOf(s, j));
      }
    }
  }

  lemma {:induction false} ApplyAllChain(s: State, k: AccountKey, batch: seq<ChangeKey>, j: AccountKey)
    requires k in s.accounts && ChainOk(s, j)
    ensures ChainOk(ApplyAll(s, k, batch, s.now).state, j)
  {
    hide ChainOk, ApplyOne;
    if batch != [] {
      var front := batch[..|batch| - 1];
      ApplyAllChain(s, k, front, j);
      ApplyOneChain(ApplyAll(s, k, front, s.now), k, batch[|batch| - 1], s.now, j);
    }
  }

  lemma ApplyChain(c: Settings, s: State, k: AccountKey, batch: seq<ChangeKey>, j: AccountKey)
    requires ChainOk(s, j)
    ensures ChainOk(ApplyChanges(s, k, batch, s.now), j)
  {
    hide ChainOk, ApplyAll, ApplyChange, SetAccount, LockOrCreate, WriteAll, MayWriteAll, NewAccount;
    if batch != [] {
      var s1 := LockOrCreate(s, k, s.now);
      var ws := LockWrites(c, s, k, EApply(k, batch));
      WriteAllChain(c, s, k, ws, EApply(k, batch), j);
      ApplyAllChain(s1, k, batch, j);
      var b := ApplyAll(s1, k, batch, s.now);
      FoldedChain(k, b.state.accounts[k], b.principalDelta, b.interestDelta, s.now);
      SetChain(b.state, k, ApplyChange(k, b.state.accounts[k], b.principalDelta, b.interestDelta, s.now), j);
    }
  }

  lemma PrepareChain(c: Settings, s: State, rk: RequestKey, commitPeriod: int, j: AccountKey)
    requires rk in s.requests && ChainOk(s, j)
    ensures ChainOk(PrepareTransfer(c, s, rk, commitPeriod, s.now), j)
  {
    hide Chained, PrepareTransfer, Accepts, LockableAmount, NewTransfer, NewAccount;
    PrepareKeeps(c, s, rk, commitPeriod);
    PrepareWrites(c, s, rk, commitPeriod);
    if Accepts(s, rk, s.now) && j == rk.account {
      SameChain(s.transfers, j, s.accounts[j], PrepareTransfer(c, s, rk, commitPeriod, s.now).accounts[j]);
    }
  }

  lemma PurgeChain(c: Settings, s: State, k: AccountKey, j: AccountKey)
    requires ChainOk(s, j)
    ensures ChainOk(PurgeAccount(c, s, k, s.now), j)
  {
    hide Chained;
    if k in s.accounts && CanBePurged(c, s.accounts[k], s.now) && j == k {
      assert Date(s.now - 3 * DAY) <= Date(s.now);
      NewLifetime(s.transfers, k, s.accounts[k], NewAccount(s.now));
    }
  }

  lemma QueueChain(s: State, s': State, j: AccountKey)
    requires QueueStep(s, s') && ChainOk(s, j)
    ensures ChainOk(s', j)
  {
    hide Chained;
  }

  lemma ChainLater(s: State, now: int, j: AccountKey)
    requires ChainOk(s, j) && s.now <= now
    ensures ChainOk(s.(now := now), j)
  {
    if j !in s.accounts && Date(s.now) != Date(now) {
      assert Date(s.now) <= Date(now);
      NewLifetime(s.transfers, j, NewAccount(s.now), NewAccount(now));
    } else {
      SameChain(s.transfers, j, RowOf(s, j), RowOf(s.(now := now), j));
    }
  }

  /** Every step keeps the chain of every account. */
  lemma ChainStep(c: Settings, s: State, e: Event, now: int, j: AccountKey)
    requires c.Valid() && RowsOk(c, s) && ChainOk(s, j) && s.now <= now && Enabled(s, e)
    ensures ChainOk(Step(c, s, e, now), j)
  {
    hide *;
    var s0, s' := s.(now := now), Step(c, s, e, now);
    ChainLater(s, now, j);
    StepCases(c, s, e, now);
    EventKinds(e);
    if IsAccountEvent(e) {
      AccountChain(c, s, e, now, j);
    } else if IsQueueEvent(e) {
      QueueFrame(c, s, e, now);
      QueueChain(s0, s', j);
    } else {
      match e
      case EPrepare(rk, commitPeriod) => PrepareChain(c, s0, rk, commitPeriod, j);
      case EFinalize(k, batch) => FinalizeChain(s0, k, batch, j);
      case EApply(k, batch) => ApplyChain(c, s0, k, batch, j);
      case EPurge(k) => PurgeChain(c, s0, k, j);
    }
  }

  /** In every run, the transfer signals of each lifetime of an account are numbered from 1 without
      gaps, each naming its predecessor; and the account knows the number of its last signal. */
  lemma {:induction false} TransfersAreChained(c: Settings, r: Run, k: AccountKey)
    requires IsRun(c, r)
    ensures ChainOk(r.states[|r.steps|], k)
    decreases |r.steps|
  {
    hide RowsOk, ChainOk, Consistent, Step, Enabled;
    if r.steps == [] {
      NoChainAtStart(r.states[0].now, k);
    } else {
      var n := |r.steps|;
      var front := Run(r.states[..n], r.steps[..n - 1]);
      Prefix(c, r);
      TransfersAreChained(c, front, k);
      AlwaysConsistent(c, front);
      ConsistentRows(c, r.states[n - 1]);
      ChainStep(c, r.states[n - 1], r.steps[n - 1].event, r.steps[n - 1].now, k);
    }
  }

  lemma ConsistentRows(c: Settings, s: State)
    requires Consistent(c, s)
    ensures RowsOk(c, s)
  {
    hide RowsOk;
  }

  lemma NoChainAtStart(now: int, k: AccountKey)
    ensures ChainOk(Start(now), k)
  {
  }

  // ---- Reported principals

  /** What must be reported about a credit: the party, the reason, the time, the amount and the note of the
      queued change. */
  function CreditReport(ck: ChangeKey, ch: BalanceChange, principal: int): Report {
    Report(ck.other, ch.coordinatorType, ch.committedAt, ch.delta, ch.note, principal)
  }

  /** The reports about an account, in the order in which they were sent. */
  function ReportsOf(transfers: seq<TransferSignal>, k: AccountKey): seq<Report> {
    if transfers == [] then []
    else
      var n := |transfers| - 1;
      ReportsOf(transfers[..n], k)
      + if transfers[n].account == k then [ReportOf(transfers[n])] else []
  }

  /** The sum of the amounts of some changes. */
  function SumOf(queued: map<ChangeKey, BalanceChange>, changes: seq<ChangeKey>): int {
    if changes == [] then 0
    else
      var n := |changes| - 1;
      SumOf(queued, changes[..n]) + if changes[n] in queued then queued[changes[n]].delta else 0
  }

  predicate IsTold(k: AccountKey, a: Account, queued: map<ChangeKey, BalanceChange>, ck: ChangeKey) {
    ck in queued && IsWorthReporting(k, a.negligible, queued[ck].delta)
  }

  /** What the reports about credited changes should be: each tells the principal to which all credits
      before it, and its own, have led.  Batches are not mentioned. */
  function RunningReports(
    k: AccountKey, a: Account, opening: int, queued: map<ChangeKey, BalanceChange>, changes: seq<ChangeKey>):
    (reports: seq<Report>)
    ensures |reports| <= |changes|
  {
    if changes == [] then []
    else
      var n := |changes| - 1;
      RunningReports(k, a, opening, queued, changes[..n])
      + if IsTold(k, a, queued, changes[n])
        then [CreditReport(changes[n], queued[changes[n]], opening + SumOf(queued, changes))] else []
  }

  /** No credit clips the principal. */
  predicate NothingClips(opening: int, queued: map<ChangeKey, BalanceChange>, changes: seq<ChangeKey>) {
    forall m :: 0 <= m <= |changes| ==> -MAX_INT64 <= opening + SumOf(queued, changes[..m]) <= MAX_INT64
  }

  // ---- Sequences of changes

  lemma {:induction false} SumOfBoth(queued: map<ChangeKey, BalanceChange>, x: seq<ChangeKey>, y: seq<ChangeKey>)
    ensures SumOf(queued, x + y) == SumOf(queued, x) + SumOf(queued, y)
  {
    if y == [] {
      assert x + y == x;
    } else {
      var n := |y| - 1;
      SumOfBoth(queued, x, y[..n]);
      assert (x + y)[..|x + y| - 1] == x + y[..n];
    }
  }

  lemma {:induction false} SumOfSame(
    queued: map<ChangeKey, BalanceChange>, later: map<ChangeKey, BalanceChange>, changes: seq<ChangeKey>)
    requires forall ck <- changes :: ck in queued && ck in later && later[ck] == queued[ck]
    ensures SumOf(later, changes) == SumOf(queued, changes)
  {
    if changes != [] {
      SumOfSame(queued, later, changes[..|changes| - 1]);
    }
  }

  lemma {:induction false} ReportsOfBoth(
    k: AccountKey, a: Account, b: Account, opening: int, queued: map<ChangeKey, BalanceChange>,
    later: map<ChangeKey, BalanceChange>, x: seq<ChangeKey>, y: seq<ChangeKey>)
    requires a.negligible == b.negligible
    requires forall ck <- y :: ck in queued && ck in later && later[ck] == queued[ck]
    ensures RunningReports(k, a, opening, queued, x + y)
            == RunningReports(k, a, opening, queued, x)
               + RunningReports(k, b, opening + SumOf(queued, x), later, y)
  {
    if y == [] {
      assert x + y == x;
    } else {
      var n := |y| - 1;
      ReportsOfBoth(k, a, b, opening, queued, later, x, y[..n]);
      assert (x + y)[..|x + y| - 1] == x + y[..n];
      SumOfBoth(queued, x, y);
      SumOfSame(queued, later, y);
    }
  }

  lemma AppendReport(transfers: seq<TransferSignal>, t: TransferSignal, k: AccountKey)
    ensures ReportsOf(transfers + [t], k)
            == ReportsOf(transfers, k) + if t.account == k then [ReportOf(t)] else []
  {
    assert (transfers + [t])[..|transfers|] == transfers;
  }

  // ---- One batch

  /** Where a credit batch stands after its first changes. */
  predicate IsAfter(
    s: State, k: AccountKey, a: Account, changes: seq<ChangeKey>, state: State, delta: int)
  {
    && k in state.accounts && delta == SumOf(s.queued, changes)
    && state.accounts[k].principal == a.principal && state.accounts[k].negligible == a.negligible
    && ReportsOf(state.transfers, k)
       == ReportsOf(s.transfers, k) + RunningReports(k, a, a.principal, s.queued, changes)
    && AreDated(s.transfers, state.transfers, k, a.creationDate)
    && state.accounts[k].creationDate == a.creationDate
    && (forall ck :: ck in s.queued && ck !in changes ==> ck in state.queued && state.queued[ck] == s.queued[ck])
  }

  /** Only signals about one lifetime of the account have been added. */
  predicate AreDated(before: seq<TransferSignal>, after: seq<TransferSignal>, k: AccountKey, creationDate: int) {
    && before <= after
    && forall i :: |before| <= i < |after| ==> after[i].account == k && after[i].creationDate == creationDate
  }

  /** One credit, in the middle of a batch: the queued change is reported to the account, with the number
      that follows; its amount is added, and the change is applied. */
  lemma ApplyOneReport(b: Crediting, k: AccountKey, ck: ChangeKey, now: int)
    requires k in b.state.accounts && ck in b.state.queued
    ensures var b', ch, row, s := ApplyOne(b, k, ck, now), b.state.queued[ck], b.state.accounts[k], b.state;
            var row', s' := b'.state.accounts[k], b'.state;
            && b'.principalDelta == b.principalDelta + ch.delta
            && IsReported(s.transfers, s'.transfers, k, row, row',
                          CreditReport(ck, ch, Contain(row.principal + b'.principalDelta)))
            && row' == row.(transferNumber := row'.transferNumber, transferCommittedAt := row'.transferCommittedAt)
            && s' == s.(accounts := s.accounts[k := row'], transfers := s'.transfers, queued := s.queued - {ck},
                        registered := s'.registered, applied := s.applied + [ck])
            && (forall x :: x in s'.registered <==> x in s.registered)
            && (forall x :: x in s'.registered ==>
                  s'.registered[x] == if x == ck then RegisteredChange(s.registered[x].committedAt, true) else s.registered[x])
  {
    hide DueInterest, Contain, TransferSignals, Numbered;
    var ch, row := b.state.queued[ck], b.state.accounts[k];
    ReportedTransfer(b.state.transfers, k, row,
                     CreditReport(ck, ch, Contain(row.principal + (b.principalDelta + ch.delta))));
  }

  lemma ReportedOnce(
    before: seq<TransferSignal>, after: seq<TransferSignal>, k: AccountKey, a: Account, b: Account, report: Report)
    requires IsReported(before, after, k, a, b, report)
    ensures ReportsOf(after, k)
            == ReportsOf(before, k) + if IsWorthReporting(k, a.negligible, report.acquired) then [report] else []
    ensures AreDated(before, after, k, a.creationDate)
  {
    hide IsWorthReporting;
    if IsWorthReporting(k, a.negligible, report.acquired) {
      AppendReport(before, after[|before|], k);
      assert after == before + [after[|before|]];
    }
  }

  lemma ApplyOneReports(
    s: State, k: AccountKey, a: Account, b: Crediting, changes: seq<ChangeKey>, ck: ChangeKey, now: int)
    requires IsAfter(s, k, a, changes, b.state, b.principalDelta) && ck in s.queued && ck !in changes
    requires -MAX_INT64 <= a.principal + SumOf(s.queued, changes + [ck]) <= MAX_INT64
    ensures var b' := ApplyOne(b, k, ck, now); IsAfter(s, k, a, changes + [ck], b'.state, b'.principalDelta)
  {
    hide ApplyOne, ReportsOf, RunningReports, SumOf, IsReported, IsWorthReporting;
    var b' := ApplyOne(b, k, ck, now);
    ApplyOneReport(b, k, ck, now);
    OneMoreReport(k, a, s.queued, changes, ck);
    ReportedOnce(b.state.transfers, b'.state.transfers, k, b.state.accounts[k], b'.state.accounts[k],
                 CreditReport(ck, b.state.queued[ck], a.principal + b'.principalDelta));
    assert forall x :: x !in changes + [ck] ==> x !in changes && x != ck;
  }

  lemma OneMoreReport(
    k: AccountKey, a: Account, queued: map<ChangeKey, BalanceChange>, changes: seq<ChangeKey>, ck: ChangeKey)
    requires ck in queued
    ensures RunningReports(k, a, a.principal, queued, changes + [ck])
            == RunningReports(k, a, a.principal, queued, changes)
               + if IsWorthReporting(k, a.negligible, queued[ck].delta)
                 then [CreditReport(ck, queued[ck], a.principal + SumOf(queued, changes + [ck]))] else []
    ensures SumOf(queued, changes + [ck]) == SumOf(queued, changes) + queued[ck].delta
  {
    assert (changes + [ck])[..|changes|] == changes;
  }

  lemma {:induction false} ApplyAllReports(s: State, k: AccountKey, batch: seq<ChangeKey>, now: int)
    requires k in s.accounts && Distinct(batch) && forall ck <- batch :: ck in s.queued
    requires NothingClips(s.accounts[k].principal, s.queued, batch)
    ensures var b := ApplyAll(s, k, batch, now); IsAfter(s, k, s.accounts[k], batch, b.state, b.principalDelta)
  {
    hide IsAfter, ApplyOne, SumOf;
    if batch == [] {
      NothingAfter(s, k, s.accounts[k]);
    } else {
      var n := |batch| - 1;
      FrontClips(s.accounts[k].principal, s.queued, batch);
      ApplyAllReports(s, k, batch[..n], now);
      assert batch == batch[..n] + [batch[n]];
      ApplyOneReports(s, k, s.accounts[k], ApplyAll(s, k, batch[..n], now), batch[..n], batch[n], now);
    }
  }

  lemma NothingAfter(s: State, k: AccountKey, a: Account)
    requires k in s.accounts && s.accounts[k] == a
    ensures IsAfter(s, k, a, [], s, 0)
  {
  }

  lemma FrontClips(opening: int, queued: map<ChangeKey, BalanceChange>, changes: seq<ChangeKey>)
    requires NothingClips(opening, queued, changes) && changes != []
    ensures NothingClips(opening, queued, changes[..|changes| - 1])
    ensures -MAX_INT64 <= opening + SumOf(queued, changes) <= MAX_INT64
  {
    hide SumOf;
    var front := changes[..|changes| - 1];
    forall m | 0 <= m <= |front|
      ensures -MAX_INT64 <= opening + SumOf(queued, front[..m]) <= MAX_INT64
    {
      assert front[..m] == changes[..m];
    }
    assert changes[..|changes|] == changes;
  }

  lemma LockKeepsReports(s: State, k: AccountKey, now: int)
    ensures var s' := LockOrCreate(s, k, now);
            && s'.transfers == s.transfers && s'.queued == s.queued
            && s'.accounts[k].principal == RowOf(s, k).principal && s'.accounts[k].negligible == RowOf(s, k).negligible
            && (k in s.accounts ==> s'.accounts[k].creationDate == s.accounts[k].creationDate)
  {
    hide UpdateOf;
  }

  lemma SameReports(
    k: AccountKey, a: Account, b: Account, queued: map<ChangeKey, BalanceChange>, changes: seq<ChangeKey>)
    requires a.principal == b.principal && a.negligible == b.negligible && forall ck <- changes :: ck in queued
    ensures RunningReports(k, a, a.principal, queued, changes) == RunningReports(k, b, b.principal, queued, changes)
  {
    ReportsOfBoth(k, a, b, a.principal, queued, queued, [], changes);
    assert [] + changes == changes;
  }

  /** After a credit batch the account has the running principal, and has reported it step by step. */
  predicate IsCreditedBy(s: State, k: AccountKey, changes: seq<ChangeKey>, s': State) {
    && RowOf(s', k).principal == RowOf(s, k).principal + SumOf(s.queued, changes)
    && RowOf(s', k).negligible == RowOf(s, k).negligible
    && ReportsOf(s'.transfers, k)
       == ReportsOf(s.transfers, k) + RunningReports(k, RowOf(s, k), RowOf(s, k).principal, s.queued, changes)
    && s.transfers <= s'.transfers
    && (k !in s'.accounts ==> s'.transfers == s.transfers)
    && (k in s'.accounts ==> AreDated(s.transfers, s'.transfers, k, s'.accounts[k].creationDate))
    && (k in s.accounts ==> k in s'.accounts && s'.accounts[k].creationDate == s.accounts[k].creationDate)
    && (forall ck :: ck in s.queued && ck !in changes ==> ck in s'.queued && s'.queued[ck] == s.queued[ck])
  }

  lemma BatchReports(s: State, k: AccountKey, batch: seq<ChangeKey>, now: int)
    requires Distinct(batch) && forall ck <- batch :: ck in s.queued
    requires NothingClips(RowOf(s, k).principal, s.queued, batch)
    ensures IsCreditedBy(s, k, batch, ApplyChanges(s, k, batch, now))
  {
    hide ApplyAll, AccumulatedInterest, RunningReports, ReportsOf, SumOf, LockOrCreate;
    if batch == [] {
      NoChanges(s, k);
    } else {
      var s1 := LockOrCreate(s, k, now);
      LockKeepsReports(s, k, now);
      ApplyAllReports(s1, k, batch, now);
      SameReports(k, RowOf(s, k), s1.accounts[k], s.queued, batch);
      assert batch[..|batch|] == batch;
    }
  }

  lemma NoChanges(s: State, k: AccountKey)
    ensures IsCreditedBy(s, k, [], s)
  {
  }

  // ---- Consecutive batches

  datatype Timed = Timed(batch: seq<ChangeKey>, now: int)

  /** Credit batches of the account, one after the other. */
  function CreditSteps(s: State, k: AccountKey, batches: seq<Timed>): State {
    if batches == [] then s
    else
      var last := batches[|batches| - 1];
      ApplyChanges(CreditSteps(s, k, batches[..|batches| - 1]), k, last.batch, last.now)
  }

  function Flatten(batches: seq<Timed>): seq<ChangeKey> {
    if batches == [] then [] else Flatten(batches[..|batches| - 1]) + batches[|batches| - 1].batch
  }

  lemma CreditedTwice(s: State, k: AccountKey, x: seq<ChangeKey>, s1: State, y: seq<ChangeKey>, s2: State)
    requires IsCreditedBy(s, k, x, s1) && IsCreditedBy(s1, k, y, s2)
    requires forall ck <- y :: ck in s.queued && ck !in x
    ensures IsCreditedBy(s, k, x + y, s2)
  {
    hide SumOf, RunningReports, ReportsOf, RowOf;
    SumOfBoth(s.queued, x, y);
    SumOfSame(s.queued, s1.queued, y);
    ReportsOfBoth(k, RowOf(s, k), RowOf(s1, k), RowOf(s, k).principal, s.queued, s1.queued, x, y);
    assert forall ck :: ck !in x + y ==> ck !in x && ck !in y;
  }

  lemma SplitClips(s: State, k: AccountKey, x: seq<ChangeKey>, s1: State, y: seq<ChangeKey>)
    requires NothingClips(RowOf(s, k).principal, s.queued, x + y) && IsCreditedBy(s, k, x, s1)
    requires forall ck <- y :: ck in s.queued && ck !in x
    ensures NothingClips(RowOf(s1, k).principal, s1.queued, y)
  {
    hide ReportsOf, RunningReports, SumOf, NewAccount;
    forall m | 0 <= m <= |y|
      ensures -MAX_INT64 <= RowOf(s1, k).principal + SumOf(s1.queued, y[..m]) <= MAX_INT64
    {
      assert (x + y)[..|x| + m] == x + y[..m];
      SumOfBoth(s.queued, x, y[..m]);
      SumOfSame(s.queued, s1.queued, y[..m]);
    }
  }

  lemma FrontClipsAll(opening: int, queued: map<ChangeKey, BalanceChange>, x: seq<ChangeKey>, y: seq<ChangeKey>)
    requires NothingClips(opening, queued, x + y)
    ensures NothingClips(opening, queued, x)
  {
    hide SumOf;
    forall m | 0 <= m <= |x|
      ensures -MAX_INT64 <= opening + SumOf(queued, x[..m]) <= MAX_INT64
    {
      assert (x + y)[..m] == x[..m];
    }
  }

  lemma DistinctParts(x: seq<ChangeKey>, y: seq<ChangeKey>)
    requires Distinct(x + y)
    ensures Distinct(x) && Distinct(y) && forall ck <- y :: ck !in x
  {
    assert forall i :: 0 <= i < |x| ==> (x + y)[i] == x[i];
    assert forall i :: 0 <= i < |y| ==> (x + y)[|x| + i] == y[i];
  }

  /** Credit batches report running principals.  Consecutive batches, at any times, on an account that
      may be missing or deleted at first, report each announced credit with the principal to which all
      credits so far have led, negligible ones included; and the account ends with the last one. */
  lemma {:induction false} CreditsReportRunningPrincipal(s: State, k: AccountKey, batches: seq<Timed>)
    requires Distinct(Flatten(batches)) && forall ck <- Flatten(batches) :: ck in s.queued
    requires NothingClips(RowOf(s, k).principal, s.queued, Flatten(batches))
    ensures IsCreditedBy(s, k, Flatten(batches), CreditSteps(s, k, batches))
  {
    hide IsCreditedBy, ApplyChanges, NothingClips, Distinct;
    if batches == [] {
      NoChanges(s, k);
    } else {
      var front, last := batches[..|batches| - 1], batches[|batches| - 1];
      var x, y, s1 := Flatten(front), last.batch, CreditSteps(s, k, front);
      DistinctParts(x, y);
      FrontClipsAll(RowOf(s, k).principal, s.queued, x, y);
      CreditsReportRunningPrincipal(s, k, front);
      SplitClips(s, k, x, s1, y);
      StillQueued(s, k, x, s1, y);
      BatchReports(s1, k, y, last.now);
      CreditedTwice(s, k, x, s1, y, CreditSteps(s, k, batches));
    }
  }

  lemma StillQueued(s: State, k: AccountKey, x: seq<ChangeKey>, s1: State, y: seq<ChangeKey>)
    requires IsCreditedBy(s, k, x, s1) && forall ck <- y :: ck in s.queued && ck !in x
    ensures forall ck <- y :: ck in s1.queued
  {
  }

  // ---- Differences

  lemma {:induction false} MoreReports(
    k: AccountKey, a: Account, opening: int, queued: map<ChangeKey, BalanceChange>, changes: seq<ChangeKey>, m: nat)
    requires m <= |changes|
    ensures RunningReports(k, a, opening, queued, changes[..m]) <= RunningReports(k, a, opening, queued, changes)
  {
    if m < |changes| {
      var n := |changes| - 1;
      MoreReports(k, a, opening, queued, changes[..n], m);
      assert changes[..n][..m] == changes[..m];
    } else {
      assert changes[..m] == changes;
    }
  }

  /** The change that a report is about. */
  lemma {:induction false} ReportAt(
    k: AccountKey, a: Account, opening: int, queued: map<ChangeKey, BalanceChange>, changes: seq<ChangeKey>, p: nat)
    returns (i: nat)
    requires p < |RunningReports(k, a, opening, queued, changes)|
    ensures i < |changes| && IsTold(k, a, queued, changes[i])
    ensures RunningReports(k, a, opening, queued, changes)[p]
            == CreditReport(changes[i], queued[changes[i]], opening + SumOf(queued, changes[..i + 1]))
    ensures |RunningReports(k, a, opening, queued, changes[..i])| == p
    ensures |RunningReports(k, a, opening, queued, changes[..i + 1])| == p + 1
  {
    var n := |changes| - 1;
    var front := RunningReports(k, a, opening, queued, changes[..n]);
    if p < |front| {
      i := ReportAt(k, a, opening, queued, changes[..n], p);
      assert changes[..n][..i] == changes[..i] && changes[..n][..i + 1] == changes[..i + 1];
    } else {
      i := n;
      assert changes[..n + 1] == changes;
    }
  }

  lemma MoreReportsLater(
    k: AccountKey, a: Account, opening: int, queued: map<ChangeKey, BalanceChange>, changes: seq<ChangeKey>, i: nat, j: nat)
    requires i < |changes| && j < |changes|
    ensures i <= j ==> |RunningReports(k, a, opening, queued, changes[..i + 1])|
                       <= |RunningReports(k, a, opening, queued, changes[..j + 1])|
  {
    if i <= j {
      MoreReports(k, a, opening, queued, changes[..j + 1], i + 1);
      assert changes[..j + 1][..i + 1] == changes[..i + 1];
    }
  }

  lemma NotReportedBetween(
    k: AccountKey, a: Account, opening: int, queued: map<ChangeKey, BalanceChange>, changes: seq<ChangeKey>,
    i: nat, j: nat, m: nat)
    requires i < m < j <= |changes|
    requires |RunningReports(k, a, opening, queued, changes[..i + 1])| == |RunningReports(k, a, opening, queued, changes[..j])|
    ensures !IsTold(k, a, queued, changes[m])
  {
    MoreReports(k, a, opening, queued, changes[..m], i + 1);
    MoreReports(k, a, opening, queued, changes[..j], m + 1);
    assert changes[..m][..i + 1] == changes[..i + 1] && changes[..j][..m + 1] == changes[..m + 1];
    assert changes[..m + 1][..m] == changes[..m];
  }

  lemma SumBetween(queued: map<ChangeKey, BalanceChange>, changes: seq<ChangeKey>, i: nat, j: nat)
    requires i < j < |changes| && changes[j] in queued
    ensures SumOf(queued, changes[..j + 1])
            == SumOf(queued, changes[..i + 1]) + SumOf(queued, changes[i + 1..j]) + queued[changes[j]].delta
  {
    assert changes[..j] == changes[..i + 1] + changes[i + 1..j];
    SumOfBoth(queued, changes[..i + 1], changes[i + 1..j]);
    assert changes[..j + 1][..j] == changes[..j];
  }

  /** Two consecutive reports, also across batches, differ by the acquired amount and the credits
      between them; and these are exactly negligible credits that were skipped. */
  lemma ConsecutiveReportsDiffer(
    k: AccountKey, a: Account, opening: int, queued: map<ChangeKey, BalanceChange>, changes: seq<ChangeKey>, p: nat)
    returns (i: nat, j: nat)
    requires k.creditor != ROOT_CREDITOR_ID && forall ck <- changes :: ck in queued
    requires p + 1 < |RunningReports(k, a, opening, queued, changes)|
    ensures var reports := RunningReports(k, a, opening, queued, changes);
            && i < j < |changes|
            && reports[p].acquired == queued[changes[i]].delta && reports[p + 1].acquired == queued[changes[j]].delta
            && reports[p + 1].principal - reports[p].principal
               == reports[p + 1].acquired + SumOf(queued, changes[i + 1..j])
    ensures forall m :: i < m < j ==> 0 < queued[changes[m]].delta && queued[changes[m]].delta as real <= a.negligible
  {
    i := ReportAt(k, a, opening, queued, changes, p);
    j := ReportAt(k, a, opening, queued, changes, p + 1);
    MoreReportsLater(k, a, opening, queued, changes, j, i);
    assert i < j;
    SumBetween(queued, changes, i, j);
    forall m | i < m < j
      ensures !IsTold(k, a, queued, changes[m]) && changes[m] in queued
    {
      NotReportedBetween(k, a, opening, queued, changes, i, j, m);
      assert changes[m] in changes;
    }
    hide RunningReports, SumOf;
  }

  // ---- Finalization batches

  lemma {:induction false} OpeningPrincipal(s: State, k: AccountKey, batch: seq<TransferKey>, opening: int, now: int)
    requires k in s.accounts
    ensures var f := FinalizeAll(s, k, batch, opening, now);
            && f.state.accounts[k].principal == s.accounts[k].principal
            && f.state.accounts[k].negligible == s.accounts[k].negligible
  {
    hide FinalStatus, CommittedAmount, TransferSignals;
    if batch != [] {
      OpeningPrincipal(s, k, batch[..|batch| - 1], opening, now);
    }
  }

  /** What must be reported about a commit: the recipient, the coordinator and the note of the request. */
  function CommitReport(s: State, t: TransferKey, committed: int, principal: int, now: int): Report
    requires t in s.prepared && t in s.finalizations
  {
    var pt := s.prepared[t];
    Report(pt.recipient, pt.coordinator.kind, now, -committed, s.finalizations[t].note, Contain(principal - committed))
  }

  lemma OneCommitReport(f: Finalizing, k: AccountKey, t: TransferKey, opening: int, now: int)
    requires k in f.state.accounts && k.creditor != ROOT_CREDITOR_ID
    requires Matches(f.state, t) && 0 < CommittedAmount(f, k, t, opening, now)
    ensures var f' := FinalizeOne(f, k, t, opening, now);
            var committed := CommittedAmount(f, k, t, opening, now);
            && ReportsOf(f'.state.transfers, k)
               == ReportsOf(f.state.transfers, k)
                  + [CommitReport(f.state, t, committed, f.state.accounts[k].principal, now)]
            && f'.delta == f.delta - committed
  {
    hide CommittedAmount, FinalStatus, Release, Contain, ReportsOf, IsReported, TransferSignals, Numbered;
    var s, committed := f.state, CommittedAmount(f, k, t, opening, now);
    var a, report := s.accounts[k], CommitReport(s, t, committed, s.accounts[k].principal, now);
    ReportedTransfer(s.transfers, k, a, report);
    ReportedOnce(s.transfers, FinalizeOne(f, k, t, opening, now).state.transfers, k, a,
                 Numbered(k, a, -committed, now), report);
  }

  /** Whether a request of a finalization batch commits a positive amount. */
  predicate Commits(s: State, k: AccountKey, batch: seq<TransferKey>, i: nat, opening: int, now: int)
    requires k in s.accounts && i < |batch|
  {
    var f := FinalizeAll(s, k, batch[..i], opening, now);
    Matches(f.state, batch[i]) && 0 < CommittedAmount(f, k, batch[i], opening, now)
  }

  /** A finalization batch does not report running principals: the report about each commit tells the
      principal before the batch, minus the own amount of that commit only. */
  lemma CommitsReportOpeningPrincipal(s: State, k: AccountKey, batch: seq<TransferKey>, i: nat, opening: int, now: int)
    requires k in s.accounts && k.creditor != ROOT_CREDITOR_ID
    requires i < |batch| && Commits(s, k, batch, i, opening, now)
    ensures var f, f' := FinalizeAll(s, k, batch[..i], opening, now), FinalizeAll(s, k, batch[..i + 1], opening, now);
            var committed := CommittedAmount(f, k, batch[i], opening, now);
            && ReportsOf(f'.state.transfers, k)
               == ReportsOf(f.state.transfers, k) + [CommitReport(f.state, batch[i], committed, s.accounts[k].principal, now)]
            && f'.delta == f.delta - committed
  {
    hide CommittedAmount, FinalizeOne, Contain, ReportsOf;
    assert batch[..i + 1][..i] == batch[..i];
    OpeningPrincipal(s, k, batch[..i], opening, now);
    OneCommitReport(FinalizeAll(s, k, batch[..i], opening, now), k, batch[i], opening, now);
  }

  lemma FinalizeOneDelta(f: Finalizing, k: AccountKey, t: TransferKey, opening: int, now: int)
    requires k in f.state.accounts
    ensures var f' := FinalizeOne(f, k, t, opening, now);
            f'.delta == f.delta - if Matches(f.state, t) then Max(0, CommittedAmount(f, k, t, opening, now)) else 0
  {
    hide CommittedAmount, FinalStatus, Release, TransferSignals;
  }

  /** A batch has taken something exactly when one of its requests commits a positive amount. */
  lemma {:induction false} NothingTaken(s: State, k: AccountKey, batch: seq<TransferKey>, opening: int, now: int)
    requires k in s.accounts
    ensures var f := FinalizeAll(s, k, batch, opening, now);
            f.delta <= 0 && (f.delta == 0 <==> forall i :: 0 <= i < |batch| ==> !Commits(s, k, batch, i, opening, now))
  {
    hide CommittedAmount, FinalizeOne;
    if batch != [] {
      var n := |batch| - 1;
      var front := batch[..n];
      NothingTaken(s, k, front, opening, now);
      FinalizeOneDelta(FinalizeAll(s, k, front, opening, now), k, batch[n], opening, now);
      forall i | 0 <= i < n
        ensures Commits(s, k, batch, i, opening, now) == Commits(s, k, front, i, opening, now)
      {
        assert front[..i] == batch[..i];
      }
      assert Commits(s, k, batch, n, opening, now)
             <==> FinalizeAll(s, k, batch, opening, now).delta != FinalizeAll(s, k, front, opening, now).delta;
    }
  }

  /** So the report about a commit agrees with the running principal exactly when no earlier request
      of the batch commits a positive amount. */
  lemma CommitReportIsRunning(s: State, k: AccountKey, batch: seq<TransferKey>, i: nat, opening: int, now: int)
    requires k in s.accounts && k.creditor != ROOT_CREDITOR_ID
    requires i < |batch| && Commits(s, k, batch, i, opening, now)
    requires var committed := CommittedAmount(FinalizeAll(s, k, batch[..i], opening, now), k, batch[i], opening, now);
             -MAX_INT64 <= s.accounts[k].principal - committed <= MAX_INT64
    ensures var f, f' := FinalizeAll(s, k, batch[..i], opening, now), FinalizeAll(s, k, batch[..i + 1], opening, now);
            var reports := ReportsOf(f'.state.transfers, k);
            && |reports| == |ReportsOf(f.state.transfers, k)| + 1
            && (reports[|reports| - 1].principal == s.accounts[k].principal + f'.delta
                <==> forall j :: 0 <= j < i ==> !Commits(s, k, batch, j, opening, now))
  {
    hide CommittedAmount, FinalizeAll, ReportsOf, FinalizeOne;
    CommitsReportOpeningPrincipal(s, k, batch, i, opening, now);
    NothingTaken(s, k, batch[..i], opening, now);
    forall j | 0 <= j < i
      ensures Commits(s, k, batch[..i], j, opening, now) == Commits(s, k, batch, j, opening, now)
    {
      assert batch[..i][..j] == batch[..j];
    }
  }
}
