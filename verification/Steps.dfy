/** The database as one value, and every procedure as one step on it.

    A step reads the clock once.  The tables come first, then the outgoing signals, which are
    kept for ever: the network may deliver an emitted signal any number of times. */
module Steps {
  import opened Models

  // ---- Signals

  datatype UpdateSignal = UpdateSignal(
    account: AccountKey, creationDate: int, changes: nat, changeSeqnum: int, changeTs: int, principal: int,
    interest: real, rate: real, rateChangeTs: int, transferNumber: int, transferCommittedAt: int,
    configTs: int, configSeqnum: int, configFlags: int, configData: string, negligible: real,
    debtorInfo: Option<string>)

  datatype TransferSignal = TransferSignal(
    account: AccountKey, creationDate: int, number: int, previousNumber: int,
    coordinatorType: string, other: int, committedAt: int, acquired: int, note: string, principal: int)

  datatype PreparedSignal = PreparedSignal(key: TransferKey, transfer: PreparedTransfer)

  datatype RejectedTransferSignal = RejectedTransferSignal(
    account: AccountKey, coordinator: Coordinator, status: StatusCode, totalLocked: int)

  datatype FinalizedSignal = FinalizedSignal(
    key: TransferKey, coordinator: Coordinator, preparedAt: int, finalizedAt: int, committed: int,
    totalLocked: int, status: StatusCode)

  datatype RejectedConfigSignal = RejectedConfigSignal(account: AccountKey, config: Configuration)

  datatype PurgeSignal = PurgeSignal(account: AccountKey, creationDate: int)

  /** A configuration message.  `dataParses` says whether the data is valid for a root account. */
  datatype Configuration = Configuration(
    ts: int, seqnum: int, negligible: real, flags: int, data: string, dataParses: bool)

  datatype State = State(
    now: int,
    accounts: map<AccountKey, Account>,
    requests: map<RequestKey, TransferRequest>,
    finalizations: map<TransferKey, FinalizationRequest>,
    prepared: map<TransferKey, PreparedTransfer>,
    queued: map<ChangeKey, BalanceChange>,
    registered: map<ChangeKey, RegisteredChange>,
    nextRequestId: int,
    nextChangeId: int,
    emitted: map<ChangeKey, BalanceChange>,
    updates: seq<UpdateSignal>,
    transfers: seq<TransferSignal>,
    preparations: seq<PreparedSignal>,
    rejections: seq<RejectedTransferSignal>,
    finalized: seq<FinalizedSignal>,
    rejectedConfigs: seq<RejectedConfigSignal>,
    purges: seq<PurgeSignal>,
    // Histories: they record what happened, and no step depends on them.
    applied: seq<ChangeKey>,
    scannerCutoff: int,
    checks: set<(AccountKey, int)>,
    purgedConfigs: set<(AccountKey, int)>)

  function Start(now: int): State {
    State(now, map[], map[], map[], map[], map[], map[], 1, 1, map[],
          [], [], [], [], [], [], [], [], T0, {}, {})
  }

  // ---- Steps on one account

  function NewAccount(now: int): Account {
    Account(
      creationDate := Date(now), changes := 0, changeSeqnum := 0, lastChangeTs := now,
      principal := 0, rate := 1.0, interest := 0.0, rateChangeTs := T0, previousRate := 1.0,
      configTs := T0, configSeqnum := 0, configFlags := 0, configData := "", negligible := 0.0,
      transferNumber := 0, transferCommittedAt := T0, debtorInfo := None,
      deleted := false, overflown := false,
      totalLocked := 0, pendingTransfers := 0, lastTransferId := Date(now) * TRANSFERS_PER_DAY,
      heartbeatTs := now, capitalizationTs := T0, deletionAttemptTs := T0, pendingUpdate := false)
  }

  function Bumped(a: Account, now: int): Account {
    a.(changes := a.changes + 1, changeSeqnum := NextSeqnum(a.changeSeqnum), lastChangeTs := Max(a.lastChangeTs, now))
  }

  /** Folds the accrued interest into the row, and adds the two deltas. */
  function ApplyChange(k: AccountKey, a: Account, principalDelta: int, interestDelta: real, now: int): Account {
    var principal := Contain(a.principal + principalDelta);
    Bumped(a, now).(
      interest := AccumulatedInterest(k, a, now) + interestDelta,
      principal := principal,
      overflown := a.overflown || principal != a.principal + principalDelta,
      pendingUpdate := true)
  }

  function UpdateOf(k: AccountKey, a: Account): UpdateSignal {
    UpdateSignal(
      k, a.creationDate, a.changes, a.changeSeqnum, a.lastChangeTs, a.principal, a.interest, a.rate, a.rateChangeTs,
      a.transferNumber, a.transferCommittedAt, a.configTs, a.configSeqnum, a.configFlags, a.configData,
      a.negligible, a.debtorInfo)
  }

  function Announced(a: Account, now: int): Account {
    a.(heartbeatTs := now, pendingUpdate := false)
  }

  /** Transfers on the root account and negligible credits are not announced. */
  predicate IsAnnounced(k: AccountKey, a: Account, acquired: int) {
    k.creditor != ROOT_CREDITOR_ID && !(0 < acquired && acquired as real <= a.negligible)
  }

  function Numbered(k: AccountKey, a: Account, acquired: int, committedAt: int): Account {
    if IsAnnounced(k, a, acquired)
    then a.(transferNumber := a.transferNumber + 1, transferCommittedAt := committedAt)
    else a
  }

  function TransferSignals(
    k: AccountKey, a: Account, coordinatorType: string, other: int, committedAt: int, acquired: int,
    note: string, principal: int): seq<TransferSignal>
  {
    if IsAnnounced(k, a, acquired)
    then [TransferSignal(k, a.creationDate, a.transferNumber + 1, a.transferNumber, coordinatorType, other,
                         committedAt, acquired, note, principal)]
    else []
  }

  function Deleted(a: Account, now: int): Account {
    Bumped(a, now).(principal := 0, interest := 0.0, totalLocked := 0, deleted := true)
  }

  predicate IsValidConfig(creditor: int, m: Configuration) {
    m.negligible >= 0.0 && (m.data == "" || (creditor == ROOT_CREDITOR_ID && m.dataParses))
  }

  function Configured(k: AccountKey, a: Account, m: Configuration, now: int): Account {
    ApplyChange(k, a.(deleted := false, configFlags := m.flags, configData := m.data,
                      negligible := m.negligible, configTs := m.ts, configSeqnum := m.seqnum), 0, 0.0, now)
  }

  function Clamp(c: Settings, rate: real): real {
    if rate > c.ceil then c.ceil else if rate < c.floor then c.floor else rate
  }

  function RateChanged(k: AccountKey, a: Account, rate: real, now: int): Account {
    Bumped(a, now).(interest := AccumulatedInterest(k, a, now), previousRate := a.rate,
                    rate := rate, rateChangeTs := now)
  }

  // ---- Steps on the tables

  function Live(s: State, k: AccountKey): Option<Account> {
    if k in s.accounts && !s.accounts[k].deleted then Some(s.accounts[k]) else None
  }

  /** The row of an account, or the row it would be created with. */
  function RowOf(s: State, k: AccountKey): Account {
    if k in s.accounts then s.accounts[k] else NewAccount(s.now)
  }

  function SetAccount(s: State, k: AccountKey, a: Account): State {
    s.(accounts := s.accounts[k := a])
  }

  function SendUpdate(s: State, k: AccountKey, a: Account, now: int): (s': State)
    ensures k in s'.accounts && s'.accounts[k] == Announced(a, now)
    ensures s'.prepared == s.prepared && s'.queued == s.queued && s'.now == s.now
  {
    s.(accounts := s.accounts[k := Announced(a, now)], updates := s.updates + [UpdateOf(k, a)])
  }

  /** The account after a payment from or to the root account. */
  function Paid(k: AccountKey, a: Account, coordinatorType: string, amount: int, now: int): Account {
    ApplyChange(k, Numbered(k, a, amount, now), amount,
                if coordinatorType == CT_INTEREST then -(amount as real) else 0.0, now)
  }

  /** Moves an amount between the root account and another account.  The other side of the
      payment travels to the root account as a signal. */
  function Pay(s: State, k: AccountKey, coordinatorType: string, note: string, amount: int, now: int): (s': State)
    requires k in s.accounts
    ensures k in s'.accounts && s'.prepared == s.prepared && s'.now == s.now
  {
    if amount == 0 || k.creditor == ROOT_CREDITOR_ID then s
    else
      var a := s.accounts[k];
      var change := BalanceChange(ROOT_CREDITOR_ID, coordinatorType, note, now, -amount, now);
      s.(accounts := s.accounts[k := Paid(k, a, coordinatorType, amount, now)],
         emitted := s.emitted[ChangeKey(k.debtor, k.creditor, s.nextChangeId) := change],
         nextChangeId := s.nextChangeId + 1,
         transfers := s.transfers + TransferSignals(k, a, coordinatorType, ROOT_CREDITOR_ID, now, amount, note,
                                                    Contain(a.principal + amount)))
  }

  /** Creates a missing account, and resurrects a deleted one. */
  function LockOrCreate(s: State, k: AccountKey, now: int): (s': State)
    ensures k in s'.accounts && !s'.accounts[k].deleted && s'.prepared == s.prepared && s'.now == s.now
  {
    if k !in s.accounts then SendUpdate(s, k, NewAccount(now), now)
    else if s.accounts[k].deleted then SendUpdate(s, k, Bumped(s.accounts[k], now).(deleted := false), now)
    else s
  }

  /** The step leaves all accounts and prepared transfers alone, and sends nothing to accounts. */
  predicate QueueStep(s: State, s': State) {
    s' == s.(requests := s'.requests, nextRequestId := s'.nextRequestId, finalizations := s'.finalizations,
             queued := s'.queued, registered := s'.registered, rejections := s'.rejections,
             scannerCutoff := s'.scannerCutoff, checks := s'.checks)
  }

  /** The step leaves the balance changes alone, wherever they are. */
  predicate KeepsChanges(s: State, s': State) {
    && s'.now == s.now && s'.emitted == s.emitted && s'.nextChangeId == s.nextChangeId
    && s'.queued == s.queued && s'.registered == s.registered && s'.applied == s.applied
    && s'.scannerCutoff == s.scannerCutoff
  }

  // ---- Procedures

  function ConfigureAccount(c: Settings, s: State, k: AccountKey, m: Configuration, now: int): (s': State)
    ensures s'.now == s.now
  {
    var isAccepted :=
      if k in s.accounts then ConfigLater(m.ts, m.seqnum, s.accounts[k].configTs, s.accounts[k].configSeqnum)
      else now - m.ts <= c.signalbusMaxDelay;
    if !isAccepted then s
    else if !IsValidConfig(k.creditor, m) then
      s.(rejectedConfigs := s.rejectedConfigs + [RejectedConfigSignal(k, m)])
    else
      SendUpdate(s, k, Configured(k, RowOf(s, k), m, now), now)
  }

  predicate IsReachable(s: State, k: AccountKey) {
    k.creditor == ROOT_CREDITOR_ID
    || (k in s.accounts && !s.accounts[k].deleted && !s.accounts[k].ScheduledForDeletion())
  }

  function CheckRecipient(s: State, k: AccountKey, now: int): (s': State)
    ensures QueueStep(s, s') && KeepsChanges(s, s')
  {
    if IsReachable(s, k) then s.(checks := s.checks + {(k, now)}) else s
  }

  /** Queues a request to prepare a transfer; no recipient means that it was not reachable. */
  function RequestTransfer(
    s: State, k: AccountKey, request: Option<TransferRequest>, coordinator: Coordinator): (s': State)
    ensures QueueStep(s, s') && KeepsChanges(s, s')
  {
    match request
    case None => s.(rejections := s.rejections + [RejectedTransferSignal(k, coordinator, RecipientIsUnreachable, 0)])
    case Some(r) => s.(requests := s.requests[RequestKey(k, s.nextRequestId) := r],
                       nextRequestId := s.nextRequestId + 1)
  }

  /** Queues a request to finalize a transfer; a second request for the same transfer is dropped. */
  function RequestFinalization(s: State, t: TransferKey, r: FinalizationRequest): (s': State)
    ensures QueueStep(s, s') && KeepsChanges(s, s')
  {
    if t in s.finalizations then s else s.(finalizations := s.finalizations[t := r])
  }

  function ChangeRate(c: Settings, s: State, k: AccountKey, rate: real, ts: int, now: int): (s': State)
    ensures s'.now == s.now
  {
    match Live(s, k)
    case None => s
    case Some(a) =>
      if k.creditor == ROOT_CREDITOR_ID || now - ts > DAY
         || a.rate == Clamp(c, rate) || now - a.rateChangeTs < c.signalbusMaxDelay + DAY
      then s
      else SendUpdate(s, k, RateChanged(k, a, Clamp(c, rate), now), now)
  }

  function UpdateDebtorInfo(s: State, k: AccountKey, info: Option<string>, ts: int, now: int): (s': State)
    ensures s'.now == s.now
  {
    match Live(s, k)
    case None => s
    case Some(a) =>
      if k.creditor == ROOT_CREDITOR_ID || now - ts > DAY || a.debtorInfo == info then s
      else SendUpdate(s, k, Bumped(a, now).(debtorInfo := info), now)
  }

  function Capitalize(s: State, k: AccountKey, minInterval: int, now: int): (s': State)
    ensures s'.now == s.now
  {
    match Live(s, k)
    case None => s
    case Some(a) =>
      var amount := Contain(AccumulatedInterest(k, a, now).Floor);
      if a.capitalizationTs > now - minInterval || amount == 0 then s
      else Pay(SetAccount(s, k, a.(capitalizationTs := now)), k, CT_INTEREST, "", amount, now)
  }

  predicate CanBeDeleted(k: AccountKey, a: Account, now: int) {
    a.ScheduledForDeletion() && a.pendingTransfers == 0 && IsNegligibleBalance(Balance(k, a, now), a.negligible)
  }

  function TryToDelete(s: State, k: AccountKey, now: int): (s': State)
    ensures s'.now == s.now
  {
    match Live(s, k)
    case None => s
    case Some(a) =>
      if k.creditor == ROOT_CREDITOR_ID then s
      else
        var s1 := SetAccount(s, k, a.(deletionAttemptTs := now));
        if !CanBeDeleted(k, a, now) then s1
        else
          var s2 := Pay(s1, k, CT_DELETE, "", -a.principal, now);
          SendUpdate(s2, k, Deleted(s2.accounts[k], now), now)
  }

  /** The amount that a request can lock. */
  function LockableAmount(k: AccountKey, a: Account, r: TransferRequest, now: int): int {
    Max(0, Min(AvailableAmount(k, a, now) - MinAccountBalance(k.creditor), r.maxLocked))
  }

  /** Why a request is rejected; `Ok` when it is not. */
  function RejectionCode(k: AccountKey, a: Account, r: TransferRequest, now: int): StatusCode {
    if a.pendingTransfers >= MAX_INT32 then TooManyTransfers
    else if k.creditor == r.recipient then RecipientSameAsSender
    else if a.rate < r.minRate then Terminated
    else if LockableAmount(k, a, r, now) < r.minLocked then InsufficientAvailableAmount
    else Ok
  }

  function WithLock(a: Account, amount: int): Account {
    a.(totalLocked := Min(a.totalLocked + amount, MAX_INT64),
       pendingTransfers := a.pendingTransfers + 1,
       lastTransferId := a.lastTransferId + 1)
  }

  function NewTransfer(c: Settings, r: TransferRequest, amount: int, commitPeriod: int, now: int): PreparedTransfer {
    var period := if r.minRate > c.floor then Min(commitPeriod, DAY) else commitPeriod;
    PreparedTransfer(r.coordinator, r.recipient, now, r.minRate, c.floor, Min(now + period, r.deadline), amount,
                     r.checkedAt)
  }

  /** Whether a queued request is going to be accepted. */
  predicate Accepts(s: State, rk: RequestKey, now: int)
    requires rk in s.requests
    ensures Accepts(s, rk, now) ==> rk.account in s.accounts && !s.accounts[rk.account].deleted
  {
    Live(s, rk.account).Some? && RejectionCode(rk.account, s.accounts[rk.account], s.requests[rk], now) == Ok
  }

  function Rejection(s: State, rk: RequestKey, now: int): RejectedTransferSignal
    requires rk in s.requests && !Accepts(s, rk, now)
  {
    var k, r := rk.account, s.requests[rk];
    match Live(s, k)
    case None => RejectedTransferSignal(k, r.coordinator, SenderIsUnreachable, 0)
    case Some(a) => RejectedTransferSignal(k, r.coordinator, RejectionCode(k, a, r, now), a.totalLocked)
  }

  function Reject(s: State, rk: RequestKey, now: int): (s': State)
    requires rk in s.requests && !Accepts(s, rk, now)
    ensures KeepsChanges(s, s')
  {
    s.(requests := s.requests - {rk}, rejections := s.rejections + [Rejection(s, rk, now)])
  }

  function Prepare(c: Settings, s: State, rk: RequestKey, commitPeriod: int, now: int): (s': State)
    requires rk in s.requests && Accepts(s, rk, now)
    ensures KeepsChanges(s, s')
  {
    var k, r := rk.account, s.requests[rk];
    var a, amount := s.accounts[k], LockableAmount(k, s.accounts[k], r, now);
    var t, pt := TransferKey(k, a.lastTransferId + 1), NewTransfer(c, r, amount, commitPeriod, now);
    s.(requests := s.requests - {rk},
       accounts := s.accounts[k := WithLock(a, amount)],
       prepared := s.prepared[t := pt],
       preparations := s.preparations + [PreparedSignal(t, pt)])
  }

  /** Processes one queued transfer request. */
  function PrepareTransfer(c: Settings, s: State, rk: RequestKey, commitPeriod: int, now: int): (s': State)
    requires rk in s.requests
    ensures KeepsChanges(s, s')
  {
    if Accepts(s, rk, now) then Prepare(c, s, rk, commitPeriod, now) else Reject(s, rk, now)
  }

  /** The state in the middle of a finalization batch, and what it has taken from the sender. */
  datatype Finalizing = Finalizing(state: State, delta: int)

  predicate Matches(s: State, t: TransferKey) {
    t in s.finalizations && t in s.prepared && s.finalizations[t].coordinator == s.prepared[t].coordinator
  }

  function Unlocked(a: Account, pt: PreparedTransfer): Account {
    a.(totalLocked := Max(0, a.totalLocked - pt.locked), pendingTransfers := Max(0, a.pendingTransfers - 1))
  }

  function FinalStatus(f: Finalizing, k: AccountKey, t: TransferKey, opening: int, now: int): StatusCode
    requires k in f.state.accounts && Matches(f.state, t)
  {
    var a, pt := f.state.accounts[k], f.state.prepared[t];
    var expendable := opening + f.delta - a.totalLocked - MinAccountBalance(k.creditor);
    CalcStatusCode(k.creditor, pt, f.state.finalizations[t].committed, expendable, a.rate, now)
  }

  function CommittedAmount(f: Finalizing, k: AccountKey, t: TransferKey, opening: int, now: int): int
    requires k in f.state.accounts && Matches(f.state, t)
  {
    if FinalStatus(f, k, t, opening, now) == Ok then f.state.finalizations[t].committed else 0
  }

  /** The sender's account after one finalization, before the batch changes its principal. */
  function Released(k: AccountKey, a: Account, pt: PreparedTransfer, committed: int, now: int): Account {
    if committed > 0 then Numbered(k, Unlocked(a, pt), -committed, now) else Unlocked(a, pt)
  }

  /** What one finalization writes, apart from the money that it sends. */
  function Release(s: State, k: AccountKey, t: TransferKey, status: StatusCode, committed: int, now: int): (s': State)
    requires k in s.accounts && Matches(s, t)
    ensures s'.now == s.now && k in s'.accounts
  {
    var pt, a := s.prepared[t], s.accounts[k];
    var signal := FinalizedSignal(t, pt.coordinator, pt.preparedAt, now, committed, Unlocked(a, pt).totalLocked, status);
    s.(accounts := s.accounts[k := Released(k, a, pt, committed, now)],
       finalizations := s.finalizations - {t},
       prepared := s.prepared - {t},
       finalized := s.finalized + [signal])
  }

  /** Finalizes one prepared transfer.  The opening balance of the batch is known, and the
      account's principal is not changed before the end of the batch. */
  function FinalizeOne(f: Finalizing, k: AccountKey, t: TransferKey, opening: int, now: int): (f': Finalizing)
    requires k in f.state.accounts
    ensures k in f'.state.accounts && f'.state.now == f.state.now
  {
    var s := f.state;
    if !Matches(s, t) then f.(state := s.(finalizations := s.finalizations - {t}))
    else
      var pt, fr, a := s.prepared[t], s.finalizations[t], s.accounts[k];
      var committed := CommittedAmount(f, k, t, opening, now);
      var released := Release(s, k, t, FinalStatus(f, k, t, opening, now), committed, now);
      if committed <= 0 then Finalizing(released, f.delta)
      else
        var change := BalanceChange(pt.recipient, pt.coordinator.kind, fr.note, now, committed, pt.checkedAt);
        Finalizing(
          released.(
            emitted := s.emitted[ChangeKey(k.debtor, k.creditor, s.nextChangeId) := change],
            nextChangeId := s.nextChangeId + 1,
            transfers := s.transfers + TransferSignals(k, a, pt.coordinator.kind, pt.recipient, now, -committed,
                                                       fr.note, Contain(a.principal - committed))),
          f.delta - committed)
  }

  function FinalizeAll(s: State, k: AccountKey, batch: seq<TransferKey>, opening: int, now: int): (f: Finalizing)
    requires k in s.accounts
    ensures k in f.state.accounts && f.state.now == s.now
  {
    if batch == [] then Finalizing(s, 0)
    else FinalizeOne(FinalizeAll(s, k, batch[..|batch| - 1], opening, now), k, batch[|batch| - 1], opening, now)
  }

  /** Processes a batch of finalization requests of one sender. */
  function FinalizeTransfers(s: State, k: AccountKey, batch: seq<TransferKey>, now: int): (s': State)
    ensures s'.now == s.now
  {
    match Live(s, k)
    case None => s.(finalizations := s.finalizations - set t | t in batch)
    case Some(a) =>
      var f := FinalizeAll(s, k, batch, Balance(k, a, now).Floor, now);
      if f.delta == 0 then f.state
      else SetAccount(f.state, k, ApplyChange(k, f.state.accounts[k], f.delta, 0.0, now))
  }

  /** The state in the middle of a batch of balance changes, and the deltas so far. */
  datatype Crediting = Crediting(state: State, principalDelta: int, interestDelta: real)

  function ApplyOne(b: Crediting, k: AccountKey, ck: ChangeKey, now: int): (b': Crediting)
    requires k in b.state.accounts
    ensures k in b'.state.accounts && b'.state.now == b.state.now
  {
    var s := b.state;
    if ck !in s.queued then b
    else
      var ch, a := s.queued[ck], s.accounts[k];
      var delta := b.principalDelta + ch.delta;
      var s' := s.(
        accounts := s.accounts[k := Numbered(k, a, ch.delta, ch.committedAt)],
        transfers := s.transfers + TransferSignals(k, a, ch.coordinatorType, ck.other, ch.committedAt, ch.delta,
                                                   ch.note, Contain(a.principal + delta)),
        queued := s.queued - {ck},
        registered := if ck in s.registered then s.registered[ck := s.registered[ck].(isApplied := true)]
                      else s.registered,
        applied := s.applied + [ck]);
      Crediting(s', delta, b.interestDelta + DueInterest(a, ch.delta, ch.committedAt, now))
  }

  function ApplyAll(s: State, k: AccountKey, batch: seq<ChangeKey>, now: int): (b: Crediting)
    requires k in s.accounts
    ensures k in b.state.accounts && b.state.now == s.now
  {
    if batch == [] then Crediting(s, 0, 0.0)
    else ApplyOne(ApplyAll(s, k, batch[..|batch| - 1], now), k, batch[|batch| - 1], now)
  }

  /** Processes a batch of queued balance changes of one account. */
  function ApplyChanges(s: State, k: AccountKey, batch: seq<ChangeKey>, now: int): (s': State)
    ensures s'.now == s.now
  {
    if batch == [] then s
    else
      var b := ApplyAll(LockOrCreate(s, k, now), k, batch, now);
      SetAccount(b.state, k, ApplyChange(k, b.state.accounts[k], b.principalDelta, b.interestDelta, now))
  }

  function MakeDebtorPayment(
    s: State, k: AccountKey, coordinatorType: string, note: string, amount: int, now: int): (s': State)
    ensures k in s'.accounts && s'.prepared == s.prepared && s'.now == s.now
  {
    Pay(LockOrCreate(s, k, now), k, coordinatorType, note, amount, now)
  }

  /** Receives an emitted change signal. */
  function DeliverChange(s: State, ck: ChangeKey, cutoff: int): (s': State)
    requires ck in s.emitted
    ensures QueueStep(s, s')
  {
    var ch := s.emitted[ck];
    if ch.committedAt < cutoff || ck in s.registered then s
    else s.(registered := s.registered[ck := RegisteredChange(ch.committedAt, false)],
            queued := s.queued[ck := ch])
  }

  predicate CanBePurged(c: Settings, a: Account, now: int) {
    a.deleted && a.lastChangeTs < now - c.PurgeDelay() && a.creationDate < Date(now - 3 * DAY)
  }

  function PurgeAccount(c: Settings, s: State, k: AccountKey, now: int): (s': State)
    ensures KeepsChanges(s, s')
  {
    if k !in s.accounts || !CanBePurged(c, s.accounts[k], now) then s
    else s.(accounts := s.accounts - {k},
            prepared := map t | t in s.prepared && t.account != k :: s.prepared[t],
            purges := s.purges + [PurgeSignal(k, s.accounts[k].creationDate)],
            purgedConfigs := s.purgedConfigs + {(k, s.accounts[k].configTs)})
  }

  function SendHeartbeat(c: Settings, s: State, k: AccountKey, now: int): (s': State)
    ensures s'.now == s.now
  {
    match Live(s, k)
    case None => s
    case Some(a) =>
      var interval := Max(c.heartbeatInterval, c.signalbusMaxDelay);
      if a.heartbeatTs < now - interval || a.pendingUpdate then SendUpdate(s, k, a, now) else s
  }

  function DeleteRegistered(s: State, ck: ChangeKey, cutoff: int): (s': State)
    ensures QueueStep(s, s')
  {
    var s1 := s.(scannerCutoff := Max(s.scannerCutoff, cutoff));
    if ck in s.registered && s.registered[ck].committedAt < cutoff && s.registered[ck].isApplied
    then s1.(registered := s.registered - {ck})
    else s1
  }

  // ---- Runs

  datatype Event =
    | EConfigure(key: AccountKey, message: Configuration)
    | ECheckRecipient(key: AccountKey)
    | ERequestTransfer(key: AccountKey, request: Option<TransferRequest>, coordinator: Coordinator)
    | ERequestFinalization(transfer: TransferKey, finalization: FinalizationRequest)
    | EChangeRate(key: AccountKey, rate: real, ts: int)
    | EUpdateDebtorInfo(key: AccountKey, info: Option<string>, ts: int)
    | ECapitalize(key: AccountKey, minInterval: int)
    | ETryToDelete(key: AccountKey)
    | EPrepare(requestKey: RequestKey, commitPeriod: int)
    | EFinalize(key: AccountKey, transfers: seq<TransferKey>)
    | EApply(key: AccountKey, changes: seq<ChangeKey>)
    | EPay(key: AccountKey, coordinatorType: string, note: string, amount: int)
    | EDeliver(change: ChangeKey, cutoff: int)
    | EPurge(key: AccountKey)
    | EHeartbeat(key: AccountKey)
    | EDeleteRegistered(change: ChangeKey, cutoff: int)

  predicate Distinct<T(==)>(items: seq<T>) {
    forall i, j :: 0 <= i < j < |items| ==> items[i] != items[j]
  }

  /** What the message handlers assert, and what the queries that collect a batch guarantee. */
  predicate Enabled(s: State, e: Event) {
    match e
    case EConfigure(_, m) => m.ts > T0 && MIN_INT32 <= m.seqnum <= MAX_INT32
    case ERequestTransfer(k, request, _) =>
      request.Some? ==>
        var r := request.value;
        && 0 <= r.minLocked <= r.maxLocked <= MAX_INT64
        && 0.0 <= r.minRate
        && (r.recipient == ROOT_CREDITOR_ID || (AccountKey(k.debtor, r.recipient), r.checkedAt) in s.checks)
    case ERequestFinalization(_, r) => 0 <= r.committed <= MAX_INT64
    case EPrepare(rk, commitPeriod) => rk in s.requests && 0 <= commitPeriod
    case EFinalize(k, batch) => Distinct(batch) && forall t <- batch :: t in s.finalizations && t.account == k
    case EApply(k, batch) =>
      && Distinct(batch)
      && forall ck <- batch :: ck in s.queued && ck.debtor == k.debtor && s.queued[ck].creditor == k.creditor
    case EPay(_, coordinatorType, _, amount) => coordinatorType != CT_DIRECT && -MAX_INT64 <= amount <= MAX_INT64
    case EDeliver(ck, _) => ck in s.emitted
    case _ => true
  }

  function Step(c: Settings, before: State, e: Event, now: int): State
    requires Enabled(before, e)
  {
    var s := before.(now := now);
    match e
    case EConfigure(k, m) => ConfigureAccount(c, s, k, m, now)
    case ECheckRecipient(k) => CheckRecipient(s, k, now)
    case ERequestTransfer(k, request, coordinator) => RequestTransfer(s, k, request, coordinator)
    case ERequestFinalization(t, r) => RequestFinalization(s, t, r)
    case EChangeRate(k, rate, ts) => ChangeRate(c, s, k, rate, ts, now)
    case EUpdateDebtorInfo(k, info, ts) => UpdateDebtorInfo(s, k, info, ts, now)
    case ECapitalize(k, minInterval) => Capitalize(s, k, minInterval, now)
    case ETryToDelete(k) => TryToDelete(s, k, now)
    case EPrepare(rk, commitPeriod) => PrepareTransfer(c, s, rk, commitPeriod, now)
    case EFinalize(k, batch) => FinalizeTransfers(s, k, batch, now)
    case EApply(k, batch) => ApplyChanges(s, k, batch, now)
    case EPay(k, coordinatorType, note, amount) => MakeDebtorPayment(s, k, coordinatorType, note, amount, now)
    case EDeliver(ck, cutoff) => DeliverChange(s, ck, cutoff)
    case EPurge(k) => PurgeAccount(c, s, k, now)
    case EHeartbeat(k) => SendHeartbeat(c, s, k, now)
    case EDeleteRegistered(ck, cutoff) => DeleteRegistered(s, ck, cutoff)
  }

  datatype Stamped = Stamped(event: Event, now: int)

  /** A run: the states it goes through, and the steps between them. */
  datatype Run = Run(states: seq<State>, steps: seq<Stamped>)

  predicate IsStep(c: Settings, s: State, step: Stamped, s': State) {
    s.now <= step.now && Enabled(s, step.event) && s' == Step(c, s, step.event, step.now)
  }

  /** A run starts with an empty database, and the clock never goes backwards. */
  predicate IsRun(c: Settings, r: Run) {
    && c.Valid()
    && |r.states| == |r.steps| + 1
    && T0 <= r.states[0].now
    && r.states[0] == Start(r.states[0].now)
    && forall i :: 0 <= i < |r.steps| ==> IsStep(c, r.states[i], r.steps[i], r.states[i + 1])
  }
}
