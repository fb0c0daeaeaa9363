/** What the columns of a row, and the fields of the signals about it, must be after an operation.
    These are descriptions, not definitions of what the procedures do. */
module Columns {
  import opened Models
  import opened Steps

  /** The update signal tells what is in the row, field by field. */
  predicate Shows(u: UpdateSignal, k: AccountKey, a: Account) {
    && u.account == k && u.creationDate == a.creationDate
    && u.changes == a.changes && u.changeSeqnum == a.changeSeqnum && u.changeTs == a.lastChangeTs
    && u.principal == a.principal && u.interest == a.interest
    && u.rate == a.rate && u.rateChangeTs == a.rateChangeTs
    && u.transferNumber == a.transferNumber && u.transferCommittedAt == a.transferCommittedAt
    && u.configTs == a.configTs && u.configSeqnum == a.configSeqnum
    && u.configFlags == a.configFlags && u.configData == a.configData
    && u.negligible == a.negligible && u.debtorInfo == a.debtorInfo
  }

  /** The rows look the same to clients. */
  predicate LookSame(a: Account, b: Account) {
    && a.creationDate == b.creationDate
    && a.changes == b.changes && a.changeSeqnum == b.changeSeqnum && a.lastChangeTs == b.lastChangeTs
    && a.principal == b.principal && a.interest == b.interest
    && a.rate == b.rate && a.rateChangeTs == b.rateChangeTs
    && a.transferNumber == b.transferNumber && a.transferCommittedAt == b.transferCommittedAt
    && a.configTs == b.configTs && a.configSeqnum == b.configSeqnum
    && a.configFlags == b.configFlags && a.configData == b.configData
    && a.negligible == b.negligible && a.debtorInfo == b.debtorInfo
  }

  /** One update signal has been sent, which shows the row; the row remembers that. */
  predicate IsShown(before: seq<UpdateSignal>, after: seq<UpdateSignal>, k: AccountKey, a: Account, now: int) {
    && |after| == |before| + 1 && after[..|before|] == before
    && Shows(after[|before|], k, a)
    && a.heartbeatTs == now && !a.pendingUpdate
  }

  /** The row has become the next version. */
  predicate IsNext(a: Account, b: Account, now: int) {
    && b.changes == a.changes + 1
    && b.changeSeqnum == (if a.changeSeqnum == MAX_INT32 then MIN_INT32 else a.changeSeqnum + 1)
    && b.lastChangeTs == if a.lastChangeTs < now then now else a.lastChangeTs
  }

  /** The row of an account that has just been created, apart from its version and its configuration. */
  predicate IsNew(a: Account, now: int) {
    && a.creationDate == now / DAY && a.lastTransferId == now / DAY * TRANSFERS_PER_DAY
    && a.principal == 0 && a.interest == 0.0 && a.rate == 1.0 && a.previousRate == 1.0 && a.rateChangeTs == T0
    && a.transferNumber == 0 && a.transferCommittedAt == T0 && a.debtorInfo == None
    && !a.deleted && !a.overflown && a.totalLocked == 0 && a.pendingTransfers == 0
    && a.capitalizationTs == T0 && a.deletionAttemptTs == T0 && a.lastChangeTs == now
  }

  predicate HasConfig(a: Account, m: Configuration) {
    && a.configTs == m.ts && a.configSeqnum == m.seqnum && a.configFlags == m.flags
    && a.configData == m.data && a.negligible == m.negligible
  }

  /** The row after a change of the principal: the interest that has accrued is folded in. */
  predicate IsMoved(k: AccountKey, a: Account, b: Account, amount: int, interest: real, now: int) {
    && IsNext(a, b, now) && b.pendingUpdate
    && b.principal == Contain(a.principal + amount)
    && b.interest == Balance(k, a, now) - a.principal as real + interest
    && (b.overflown <==> a.overflown || !(-MAX_INT64 <= a.principal + amount <= MAX_INT64))
    && b == a.(changes := b.changes, changeSeqnum := b.changeSeqnum, lastChangeTs := b.lastChangeTs,
               principal := b.principal, interest := b.interest, overflown := b.overflown, pendingUpdate := true,
               transferNumber := b.transferNumber, transferCommittedAt := b.transferCommittedAt)
  }

  /** What a transfer signal reports: who was on the other side, why, when, how much was acquired, with
      what note, and the principal after it. */
  datatype Report = Report(
    other: int, coordinatorType: string, committedAt: int, acquired: int, note: string, principal: int)

  function ReportOf(t: TransferSignal): Report {
    Report(t.other, t.coordinatorType, t.committedAt, t.acquired, t.note, t.principal)
  }

  /** Whether a transfer is reported: not on the debtor's own account, and not a negligible credit. */
  predicate IsWorthReporting(k: AccountKey, negligible: real, acquired: int) {
    k.creditor != ROOT_CREDITOR_ID && (acquired <= 0 || negligible < acquired as real)
  }

  /** One transfer signal has been sent if it is worth it; the row counts it. */
  predicate IsReported(
    before: seq<TransferSignal>, after: seq<TransferSignal>, k: AccountKey, a: Account, b: Account, report: Report)
  {
    if IsWorthReporting(k, a.negligible, report.acquired) then
      && |after| == |before| + 1 && after[..|before|] == before
      && var t := after[|before|];
         && t.account == k && t.creationDate == a.creationDate
         && t.number == a.transferNumber + 1 && t.previousNumber == a.transferNumber
         && ReportOf(t) == report
         && b.transferNumber == a.transferNumber + 1 && b.transferCommittedAt == report.committedAt
    else
      after == before && b.transferNumber == a.transferNumber && b.transferCommittedAt == a.transferCommittedAt
  }

  /** The row `a` is ready for a credit or a payment: a live row as it is; a deleted row that has come to
      life again, or a new row, which update signals show. */
  predicate IsOpened(s: State, k: AccountKey, a: Account, updates: seq<UpdateSignal>, now: int) {
    if k !in s.accounts then
      && IsNew(a, now) && a.changes == 0 && a.changeSeqnum == 0
      && a.configTs == T0 && a.configSeqnum == 0 && a.configFlags == 0 && a.configData == "" && a.negligible == 0.0
      && IsShown(s.updates, updates, k, a, now)
    else
      var was := s.accounts[k];
      if was.deleted then
        && IsNext(was, a, now) && IsShown(s.updates, updates, k, a, now)
        && a == was.(deleted := false, changes := a.changes, changeSeqnum := a.changeSeqnum,
                     lastChangeTs := a.lastChangeTs, heartbeatTs := now, pendingUpdate := false)
      else a == was && updates == s.updates
  }

  /** A payment between the debtor and an account whose row is `a`: the account moves at once, and the
      opposite amount is sent to the debtor's own account. */
  predicate IsPaid(
    s: State, s': State, k: AccountKey, a: Account, coordinatorType: string, note: string, amount: int, now: int)
  {
    if amount == 0 || k.creditor == ROOT_CREDITOR_ID then
      s'.accounts == s.accounts[k := a] && s'.emitted == s.emitted && s'.nextChangeId == s.nextChangeId
      && s'.transfers == s.transfers
    else
      && k in s'.accounts && s'.accounts == s.accounts[k := s'.accounts[k]]
      && IsMoved(k, a, s'.accounts[k], amount, if coordinatorType == "interest" then -(amount as real) else 0.0, now)
      && IsReported(s.transfers, s'.transfers, k, a, s'.accounts[k],
                    Report(ROOT_CREDITOR_ID, coordinatorType, now, amount, note, Contain(a.principal + amount)))
      && s'.nextChangeId == s.nextChangeId + 1
      && var ck := ChangeKey(k.debtor, k.creditor, s.nextChangeId);
         && ck in s'.emitted && s'.emitted == s.emitted[ck := s'.emitted[ck]]
         && IsSent(s'.emitted[ck], ROOT_CREDITOR_ID, coordinatorType, note, now, -amount)
  }

  predicate IsSent(
    ch: BalanceChange, creditor: int, coordinatorType: string, note: string, committedAt: int, delta: int)
  {
    && ch.creditor == creditor && ch.coordinatorType == coordinatorType && ch.note == note
    && ch.committedAt == committedAt && ch.delta == delta
  }
}
