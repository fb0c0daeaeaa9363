/** Runs in which the program departs from its intent, for every valid configuration. */
module Witnesses {
  import opened Models
  import opened Steps
  import opened Frames
  import opened Accrual
  import opened Chain
  import opened Batches

  /** When the runs take place: late enough for a first change of the rate. */
  function Moment(c: Settings): int {
    c.signalbusMaxDelay + DAY
  }

  lemma StartIsReachable(c: Settings, now: int)
    requires c.Valid() && T0 <= now
    ensures Reachable(c, Start(now))
  {
    var r := Run([Start(now)], []);
    assert Start(now).(now := now) == Start(now);
    assert IsRunTo(c, r, Start(now).(now := now));
  }

  /** A live account without interest, at the zero rate, that has been changed just now. */
  predicate IsFunded(s: State, k: AccountKey, principal: int) {
    && k in s.accounts
    && var a := s.accounts[k];
       && !a.deleted && a.principal == principal && a.interest == 0.0 && a.rate == 1.0 && a.rateChangeTs == T0
       && a.lastChangeTs == s.now && a.debtorInfo == None && a.negligible == 0.0
  }

  lemma FundedBalance(s: State, k: AccountKey, principal: int)
    requires IsFunded(s, k, principal)
    ensures Balance(k, s.accounts[k], s.now) == principal as real
    ensures AccumulatedInterest(k, s.accounts[k], s.now) == 0.0
  {
    NoTime(principal as real, 1.0);
  }

  /** The debtor issues money to a new account. */
  lemma Issued(now: int, k: AccountKey, amount: int)
    requires k.creditor != ROOT_CREDITOR_ID && 0 < amount <= MAX_INT64
    ensures var s := MakeDebtorPayment(Start(now), k, "issuing", "", amount, now);
            && IsFunded(s, k, amount) && s.now == now
            && s.accounts[k].totalLocked == 0 && s.accounts[k].pendingTransfers == 0
            && s.requests == map[] && s.prepared == map[] && s.finalizations == map[]
  {
    var s1 := LockOrCreate(Start(now), k, now);
    assert s1.accounts[k] == Announced(NewAccount(now), now);
    NoTime(0.0, 1.0);
    assert AccumulatedInterest(k, Numbered(k, s1.accounts[k], amount, now), now) == 0.0;
    hide AccumulatedInterest, UpdateOf;
  }

  lemma FundedRun(c: Settings, now: int, k: AccountKey, amount: int) returns (s: State)
    requires c.Valid() && T0 <= now && k.creditor != ROOT_CREDITOR_ID && 0 < amount <= MAX_INT64
    ensures Reachable(c, s) && IsFunded(s, k, amount) && s.now == now
    ensures s.accounts[k].totalLocked == 0 && s.accounts[k].pendingTransfers == 0
    ensures s.requests == map[] && s.prepared == map[] && s.finalizations == map[]
  {
    hide Reachable, Step, Start, IsFunded, MakeDebtorPayment;
    var e := EPay(k, "issuing", "", amount);
    StartIsReachable(c, now);
    StartTime(now);
    PayIsEnabled(Start(now), e);
    StepCases(c, Start(now), e, now);
    ReachableStep(c, Start(now), e);
    Issued(now, k, amount);
    s := MakeDebtorPayment(Start(now), k, "issuing", "", amount, now);
  }

  lemma StartTime(now: int)
    ensures Start(now).now == now && Start(now).(now := now) == Start(now)
  {
  }

  lemma PayIsEnabled(s: State, e: Event)
    requires e.EPay? && e.coordinatorType == "issuing" && -MAX_INT64 <= e.amount <= MAX_INT64
    ensures Enabled(s, e)
  {
    assert "issuing"[0] != CT_DIRECT[0];
  }

  // ---- Interest that is lost

  lemma RateTaken(c: Settings, s: State, k: AccountKey, rate: real, amount: int)
    requires c.Valid() && IsFunded(s, k, amount) && k.creditor != ROOT_CREDITOR_ID && s.now == Moment(c)
    requires 1.0 < rate <= c.ceil
    ensures var s' := ChangeRate(c, s, k, rate, s.now, s.now);
            && Live(s', k).Some? && s'.now == s.now && s'.accounts[k].rate == rate
            && s'.accounts[k].principal == amount && s'.accounts[k].interest == 0.0
            && s'.accounts[k].lastChangeTs == s.now && s'.accounts[k].debtorInfo == None
  {
    FundedBalance(s, k, amount);
    hide AccumulatedInterest, UpdateOf;
  }

  /** Every positive rate that the program allows is lost to an update of the debtor's info: a run
      reaches an account at this rate whose later balances are all lower after the update. */
  lemma DebtorInfoLosesInterest(c: Settings, rate: real, amount: int, info: string, later: int)
    returns (s: State, k: AccountKey)
    requires c.Valid() && 1.0 < rate <= c.ceil && 0 < amount <= MAX_INT64 && Moment(c) < later
    ensures Reachable(c, s) && s.now < later && Live(s, k).Some? && s.accounts[k].rate == rate
    ensures s.accounts[k].principal == amount
    ensures var e := EUpdateDebtorInfo(k, Some(info), s.now + 1);
            && Enabled(s, e)
            && var s' := Step(c, s, e, s.now + 1);
               k in s'.accounts && Balance(k, s'.accounts[k], later) < Balance(k, s.accounts[k], later)
  {
    hide Reachable, Step, ChangeRate, IsFunded, Balance, UpdateDebtorInfo;
    k := AccountKey(1, 1);
    var s1 := FundedRun(c, Moment(c), k, amount);
    var e := EChangeRate(k, rate, s1.now);
    assert s1.(now := s1.now) == s1;
    StepCases(c, s1, e, s1.now);
    ReachableStep(c, s1, e);
    RateTaken(c, s1, k, rate, amount);
    s := ChangeRate(c, s1, k, rate, s1.now, s1.now);
    StepCases(c, s, EUpdateDebtorInfo(k, Some(info), s.now + 1), s.now + 1);
    InterestIsLost(s.(now := s.now + 1), k, Some(info), s.now + 1, s.now + 1, later);
  }

  // ---- Reports that ignore earlier commits

  const COORDINATOR: Coordinator := Coordinator("direct", 1, 1)

  function Request(now: int): TransferRequest {
    TransferRequest(COORDINATOR, 10, 10, now, 0.0, ROOT_CREDITOR_ID, now)
  }

  /** An account with 1000 units, some of which are locked for pending transfers. */
  predicate IsLocked(s: State, k: AccountKey, count: nat, id: int) {
    && IsFunded(s, k, 1000)
    && s.accounts[k].totalLocked == 10 * count && s.accounts[k].pendingTransfers == count
    && s.accounts[k].lastTransferId == id
  }

  /** A prepared transfer of ten units to the debtor, to be finalized now. */
  predicate IsPending(s: State, t: TransferKey) {
    && t in s.prepared
    && var pt := s.prepared[t];
       && pt.coordinator == COORDINATOR && pt.locked == 10 && pt.deadline == s.now && pt.minRate == 0.0
  }

  lemma Requested(c: Settings, s: State, k: AccountKey, count: nat, id: int) returns (s': State, rk: RequestKey)
    requires Reachable(c, s) && IsLocked(s, k, count, id)
    ensures Reachable(c, s') && IsLocked(s', k, count, id) && s'.now == s.now
    ensures rk.account == k && rk in s'.requests && s'.requests[rk] == Request(s.now)
    ensures s'.prepared == s.prepared && s'.finalizations == s.finalizations
  {
    hide Reachable, Step;
    var e := ERequestTransfer(k, Some(Request(s.now)), COORDINATOR);
    assert s.(now := s.now) == s;
    StepCases(c, s, e, s.now);
    ReachableStep(c, s, e);
    s', rk := RequestTransfer(s, k, Some(Request(s.now)), COORDINATOR), RequestKey(k, s.nextRequestId);
  }

  lemma TenCanBeLocked(s: State, rk: RequestKey, count: nat, id: int)
    requires rk in s.requests && s.requests[rk] == Request(s.now) && IsLocked(s, rk.account, count, id) && count < 2
    requires rk.account.creditor != ROOT_CREDITOR_ID
    ensures Accepts(s, rk, s.now) && LockableAmount(rk.account, s.accounts[rk.account], s.requests[rk], s.now) == 10
  {
    FundedBalance(s, rk.account, 1000);
    hide Balance;
  }

  lemma PreparedOne(c: Settings, s: State, rk: RequestKey, count: nat, id: int) returns (s': State)
    requires c.Valid() && Reachable(c, s) && IsLocked(s, rk.account, count, id) && count < 2
    requires rk in s.requests && s.requests[rk] == Request(s.now) && rk.account.creditor != ROOT_CREDITOR_ID
    ensures var t := TransferKey(rk.account, id + 1);
            && Reachable(c, s') && IsLocked(s', rk.account, count + 1, id + 1) && s'.now == s.now && IsPending(s', t)
            && (forall u :: u != t && u in s.prepared ==> u in s'.prepared && s'.prepared[u] == s.prepared[u])
            && s'.finalizations == s.finalizations
  {
    hide Reachable, Step, PrepareTransfer, Accepts, LockableAmount;
    var e := EPrepare(rk, 0);
    assert s.(now := s.now) == s;
    StepCases(c, s, e, s.now);
    ReachableStep(c, s, e);
    TenCanBeLocked(s, rk, count, id);
    PrepareKeeps(c, s, rk, 0);
    PrepareWrites(c, s, rk, 0);
    s' := PrepareTransfer(c, s, rk, 0, s.now);
  }

  lemma FinalizationRequested(c: Settings, s: State, t: TransferKey) returns (s': State)
    requires Reachable(c, s) && t !in s.finalizations
    ensures Reachable(c, s') && s' == s.(finalizations := s.finalizations[t := FinalizationRequest(COORDINATOR, 10, "")])
  {
    hide Reachable, Step;
    var e := ERequestFinalization(t, FinalizationRequest(COORDINATOR, 10, ""));
    assert s.(now := s.now) == s;
    StepCases(c, s, e, s.now);
    ReachableStep(c, s, e);
    s' := RequestFinalization(s, t, FinalizationRequest(COORDINATOR, 10, ""));
  }

  /** A state with two pending transfers, both requested to be committed. */
  predicate IsReady(s: State, k: AccountKey, t: TransferKey, u: TransferKey) {
    && k.creditor != ROOT_CREDITOR_ID && t.account == k == u.account && t != u
    && IsFunded(s, k, 1000) && s.accounts[k].totalLocked == 20
    && IsPending(s, t) && IsPending(s, u)
    && t in s.finalizations && s.finalizations[t] == FinalizationRequest(COORDINATOR, 10, "")
    && u in s.finalizations && s.finalizations[u] == FinalizationRequest(COORDINATOR, 10, "")
  }

  lemma ReadyRun(c: Settings) returns (s: State, k: AccountKey, t: TransferKey, u: TransferKey)
    requires c.Valid()
    ensures Reachable(c, s) && IsReady(s, k, t, u)
  {
    hide Reachable;
    k := AccountKey(1, 1);
    var s0 := FundedRun(c, Moment(c), k, 1000);
    var id := s0.accounts[k].lastTransferId;
    var s1, r1 := Requested(c, s0, k, 0, id);
    var s2 := PreparedOne(c, s1, r1, 0, id);
    var s3, r2 := Requested(c, s2, k, 1, id + 1);
    var s4 := PreparedOne(c, s3, r2, 1, id + 1);
    t, u := TransferKey(k, id + 1), TransferKey(k, id + 2);
    var s5 := FinalizationRequested(c, s4, t);
    s := FinalizationRequested(c, s5, u);
  }

  /** Both commits of ten succeed. */
  lemma FirstCommits(s: State, k: AccountKey, t: TransferKey, u: TransferKey)
    requires IsReady(s, k, t, u)
    ensures Matches(s, t) && CommittedAmount(Finalizing(s, 0), k, t, 1000, s.now) == 10
  {
    hide IsReserved;
  }

  lemma AfterFirst(s: State, k: AccountKey, t: TransferKey, u: TransferKey)
    requires IsReady(s, k, t, u)
    ensures var f := FinalizeOne(Finalizing(s, 0), k, t, 1000, s.now);
            && f.delta == -10 && k in f.state.accounts && Matches(f.state, u)
            && CommittedAmount(f, k, u, 1000, s.now) == 10
  {
    FirstCommits(s, k, t, u);
    FirstState(s, k, t, u);
    hide IsReserved, FinalizeOne;
  }

  lemma FirstState(s: State, k: AccountKey, t: TransferKey, u: TransferKey)
    requires IsReady(s, k, t, u) && Matches(s, t) && CommittedAmount(Finalizing(s, 0), k, t, 1000, s.now) == 10
    ensures var f := FinalizeOne(Finalizing(s, 0), k, t, 1000, s.now);
            && f.delta == -10 && k in f.state.accounts && f.state.now == s.now
            && f.state.accounts[k].totalLocked == 10 && f.state.accounts[k].rate == 1.0
            && u in f.state.prepared && f.state.prepared[u] == s.prepared[u]
            && u in f.state.finalizations && f.state.finalizations[u] == s.finalizations[u]
  {
    hide CommittedAmount, FinalStatus, TransferSignals, Release;
    ReleaseFrame(s, k, t, FinalStatus(Finalizing(s, 0), k, t, 1000, s.now), 10, s.now);
  }

  lemma BothCommit(s: State, k: AccountKey, t: TransferKey, u: TransferKey)
    requires IsReady(s, k, t, u)
    ensures Commits(s, k, [t, u], 0, 1000, s.now) && Commits(s, k, [t, u], 1, 1000, s.now)
    ensures CommittedAmount(FinalizeAll(s, k, [t], 1000, s.now), k, u, 1000, s.now) == 10
    ensures FinalizeAll(s, k, [t], 1000, s.now).delta == -10
  {
    hide CommittedAmount, FinalizeOne;
    FirstCommits(s, k, t, u);
    AfterFirst(s, k, t, u);
    assert [t, u][..0] == [] && [t, u][..1] == [t] && [t][..0] == [];
    assert FinalizeAll(s, k, [], 1000, s.now) == Finalizing(s, 0);
  }

  /** A run reaches a batch of two committing requests whose second report is wrong: the account of
      1000 units sends 10 and 10, and reports 990 twice, although it has 980 after the batch. */
  lemma SecondReportIsWrong(c: Settings) returns (s: State, k: AccountKey, batch: seq<TransferKey>)
    requires c.Valid()
    ensures Reachable(c, s) && Enabled(s, EFinalize(k, batch)) && |batch| == 2 && k in s.accounts
    ensures s.accounts[k].principal == 1000 && Balance(k, s.accounts[k], s.now).Floor == 1000
    ensures var f := FinalizeAll(s, k, batch, 1000, s.now);
            var reports := ReportsOf(f.state.transfers, k);
            && f.delta == -20
            && |reports| >= 2 && reports[|reports| - 2].acquired == -10 == reports[|reports| - 1].acquired
            && reports[|reports| - 2].principal == 990 == reports[|reports| - 1].principal
    ensures var s' := FinalizeTransfers(s, k, batch, s.now); k in s'.accounts && s'.accounts[k].principal == 980
  {
    hide Reachable, CommittedAmount, FinalizeOne, ReportsOf, Balance, AccumulatedInterest;
    var t, u;
    s, k, t, u := ReadyRun(c);
    batch := [t, u];
    FundedBalance(s, k, 1000);
    BothCommit(s, k, t, u);
    FirstCommits(s, k, t, u);
    CommitsReportOpeningPrincipal(s, k, batch, 0, 1000, s.now);
    CommitsReportOpeningPrincipal(s, k, batch, 1, 1000, s.now);
    assert batch[..0] == [] && batch[..1] == [t] && batch[..2] == batch;
    assert FinalizeAll(s, k, [], 1000, s.now) == Finalizing(s, 0);
    OpeningPrincipal(s, k, batch, 1000, s.now);
  }
}
