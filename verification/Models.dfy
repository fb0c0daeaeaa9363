/** The tables of the service, and the calculations defined on their rows. */
module Models {
  import opened Growth

  datatype Option<+T> = None | Some(value: T)

  const MAX_INT32: int := 0x7FFF_FFFF
  const MIN_INT32: int := -0x8000_0000
  const MAX_INT64: int := 0x7FFF_FFFF_FFFF_FFFF
  const MIN_INT64: int := -0x8000_0000_0000_0000
  const ROOT_CREDITOR_ID: int := 0

  /** Timestamps are integer microseconds since the beginning of 1970. */
  const T0: int := 0
  const DAY: int := 86_400_000_000

  const CT_INTEREST: string := "interest"
  const CT_DELETE: string := "delete"
  const CT_DIRECT: string := "direct"

  const SEQNUM_SPAN: int := 0x1_0000_0000
  const TRANSFERS_PER_DAY: int := 0x100_0000_0000

  /** The days passed since the beginning of 1970. */
  function Date(ts: int): int {
    ts / DAY
  }

  /** What the deployment chooses: the two rate limits, as multipliers, and the delays. */
  datatype Settings = Settings(
    floor: real, ceil: real,
    signalbusMaxDelay: int, extremeDelay: int, preparedMaxDelay: int, heartbeatInterval: int)
  {
    predicate Valid() {
      && 0.0 < floor < 1.0 < ceil
      && 0 <= signalbusMaxDelay <= preparedMaxDelay
      && 0 <= extremeDelay
    }

    /** How long a deleted account is kept before it can be purged. */
    function PurgeDelay(): int {
      extremeDelay + preparedMaxDelay + 2 * DAY
    }
  }

  // ---- Primary keys

  datatype AccountKey = AccountKey(debtor: int, creditor: int)
  datatype RequestKey = RequestKey(account: AccountKey, id: int)
  datatype TransferKey = TransferKey(account: AccountKey, id: int)
  datatype ChangeKey = ChangeKey(debtor: int, other: int, id: int)

  // ---- Rows

  // `changes` is not a column: it counts the changes that `changeSeqnum` numbers, without wrapping,
  // and nothing in the program depends on it.
  datatype Account = Account(
    creationDate: int, changes: nat, changeSeqnum: int, lastChangeTs: int,
    principal: int, rate: real, interest: real, rateChangeTs: int, previousRate: real,
    configTs: int, configSeqnum: int, configFlags: int, configData: string, negligible: real,
    transferNumber: int, transferCommittedAt: int, debtorInfo: Option<string>,
    deleted: bool, overflown: bool,
    totalLocked: int, pendingTransfers: int, lastTransferId: int,
    heartbeatTs: int, capitalizationTs: int, deletionAttemptTs: int, pendingUpdate: bool)
  {
    /** Bit 0 of the configuration flags. */
    predicate ScheduledForDeletion() {
      configFlags % 2 == 1
    }
  }

  /** Who asked for a transfer; a finalization must repeat it exactly. */
  datatype Coordinator = Coordinator(kind: string, id: int, requestId: int)

  // In the next three rows `checkedAt` is not a column: it records when the recipient was
  // found reachable, and nothing in the program depends on it.
  datatype TransferRequest = TransferRequest(
    coordinator: Coordinator, minLocked: int, maxLocked: int, deadline: int, minRate: real,
    recipient: int, checkedAt: int)

  datatype PreparedTransfer = PreparedTransfer(
    coordinator: Coordinator, recipient: int, preparedAt: int, minRate: real, demurrage: real,
    deadline: int, locked: int, checkedAt: int)

  datatype BalanceChange = BalanceChange(
    creditor: int, coordinatorType: string, note: string, committedAt: int, delta: int, checkedAt: int)

  datatype FinalizationRequest = FinalizationRequest(coordinator: Coordinator, committed: int, note: string)

  datatype RegisteredChange = RegisteredChange(committedAt: int, isApplied: bool)

  // ---- Calculations

  function Min(a: int, b: int): int {
    if a < b then a else b
  }

  function Max(a: int, b: int): int {
    if a < b then b else a
  }

  /** Clips an amount to the range that the principal column may hold. */
  function Contain(value: int): (r: int)
    ensures -MAX_INT64 <= r <= MAX_INT64
    ensures r == value <==> -MAX_INT64 <= value <= MAX_INT64
    ensures r != value ==> r == (if value < 0 then -MAX_INT64 else MAX_INT64)
  {
    if value <= MIN_INT64 then -MAX_INT64
    else if value > MAX_INT64 then MAX_INT64
    else value
  }

  /** The balance, with the interest accrued since the last change.  Interest accrues only on
      positive balances, and never on the debtor's own account. */
  function CurrentBalance(
    creditor: int, principal: int, interest: real, rate: real, lastChangeTs: int, now: int): real
  {
    if creditor == ROOT_CREDITOR_ID then principal as real
    else
      var balance := principal as real + interest;
      if balance > 0.0 then balance * Pow(rate, Elapsed(lastChangeTs, now)) else balance
  }

  function Balance(k: AccountKey, a: Account, now: int): real {
    CurrentBalance(k.creditor, a.principal, a.interest, a.rate, a.lastChangeTs, now)
  }

  function AccumulatedInterest(k: AccountKey, a: Account, now: int): real {
    Balance(k, a, now) - a.principal as real
  }

  /** Growth between two moments, when the rate has changed at most once in between. */
  function GrowthSince(a: Account, due: int, now: int): real {
    var end := Max(due, now);
    var change := Min(a.rateChangeTs, end);
    Pow(a.previousRate, Elapsed(due, change)) * Pow(a.rate, Min(end - change, end - due))
  }

  /** What the amount would have earned between `due` and `now`. */
  function DueInterest(a: Account, amount: int, due: int, now: int): real {
    amount as real * (GrowthSince(a, due, now) - 1.0)
  }

  predicate IsNegligibleBalance(balance: real, negligible: real) {
    balance <= negligible || balance <= 2.0
  }

  function AvailableAmount(k: AccountKey, a: Account, now: int): int {
    Contain(Balance(k, a, now).Floor - a.totalLocked)
  }

  function MinAccountBalance(creditor: int): int {
    if creditor == ROOT_CREDITOR_ID then -MAX_INT64 else 0
  }

  datatype StatusCode = Ok | Terminated | SenderIsUnreachable | RecipientIsUnreachable
    | InsufficientAvailableAmount | RecipientSameAsSender | TooManyTransfers

  /** What the lock is worth after the worst demurrage that is possible. */
  function Reserved(pt: PreparedTransfer, now: int): real {
    pt.locked as real * Pow(pt.demurrage, Elapsed(pt.preparedAt, now))
  }

  predicate IsExpendable(pt: PreparedTransfer, committed: int, expendable: int) {
    committed <= expendable + pt.locked
  }

  predicate IsReserved(creditor: int, pt: PreparedTransfer, committed: int, now: int) {
    && committed <= pt.locked
    && (creditor == ROOT_CREDITOR_ID || committed as real <= Reserved(pt, now))
  }

  function CalcStatusCode(
    creditor: int, pt: PreparedTransfer, committed: int, expendable: int, rate: real, now: int): StatusCode
  {
    if committed != 0 && (now > pt.deadline || rate < pt.minRate) then Terminated
    else if committed != 0 && !IsExpendable(pt, committed, expendable)
            && !IsReserved(creditor, pt, committed, now) then InsufficientAvailableAmount
    else Ok
  }

  // ---- Sequence numbers

  /** The next 32-bit sequence number; it wraps around. */
  function NextSeqnum(n: int): int {
    if n == MAX_INT32 then MIN_INT32 else n + 1
  }

  /** Whether one wrapped sequence number is later than another. */
  predicate SeqnumLater(n: int, than: int) {
    0 < (n - than) % SEQNUM_SPAN < SEQNUM_SPAN / 2
  }

  /** Whether one configuration message is later than another: timestamps come first. */
  predicate ConfigLater(ts: int, seqnum: int, thanTs: int, thanSeqnum: int) {
    ts > thanTs || (ts == thanTs && SeqnumLater(seqnum, thanSeqnum))
  }

  // ---- Simple facts about the calculations

  /** The lock never reserves more than was locked, so a reservation check can never admit a
      commit above the locked amount. */
  lemma ReservedAtMostLocked(pt: PreparedTransfer, now: int)
    requires 0.0 < pt.demurrage <= 1.0 && 0 <= pt.locked
    ensures 0.0 <= Reserved(pt, now) <= pt.locked as real
  {
    var ratio, locked := Pow(pt.demurrage, Elapsed(pt.preparedAt, now)), pt.locked as real;
    PowAtMostOne(pt.demurrage, Elapsed(pt.preparedAt, now));
    MulMonotone(ratio, 1.0, locked);
    MulMonotone(0.0, ratio, locked);
    assert Reserved(pt, now) == locked * ratio <= locked * 1.0 == locked;
  }
}
