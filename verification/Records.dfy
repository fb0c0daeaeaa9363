/** One row of the `account` table as the object that the procedures work on: its fields are
    assigned in place, and the row is written back when the work is done. */
module Records {
  import opened Models
  import opened Steps

  class AccountRecord {
    const key: AccountKey
    const creationDate: int
    var changes: nat
    var changeSeqnum: int
    var lastChangeTs: int
    var principal: int
    var rate: real
    var interest: real
    var rateChangeTs: int
    var previousRate: real
    var configTs: int
    var configSeqnum: int
    var configFlags: int
    var configData: string
    var negligible: real
    var transferNumber: int
    var transferCommittedAt: int
    var debtorInfo: Option<string>
    var isDeleted: bool
    var isOverflown: bool
    var totalLocked: int
    var pendingTransfers: int
    var lastTransferId: int
    var heartbeatTs: int
    var capitalizationTs: int
    var deletionAttemptTs: int
    var pendingUpdate: bool

    /** The row that this object stands for. */
    function Row(): Account
      reads this
    {
      Account(creationDate, changes, changeSeqnum, lastChangeTs, principal, rate, interest, rateChangeTs, previousRate,
              configTs, configSeqnum, configFlags, configData, negligible, transferNumber, transferCommittedAt,
              debtorInfo, isDeleted, isOverflown, totalLocked, pendingTransfers, lastTransferId, heartbeatTs,
              capitalizationTs, deletionAttemptTs, pendingUpdate)
    }

    constructor Load(k: AccountKey, a: Account)
      ensures key == k && Row() == a
    {
      key := k;
      creationDate := a.creationDate;
      changes, changeSeqnum, lastChangeTs := a.changes, a.changeSeqnum, a.lastChangeTs;
      principal, rate, interest := a.principal, a.rate, a.interest;
      rateChangeTs, previousRate := a.rateChangeTs, a.previousRate;
      configTs, configSeqnum, configFlags := a.configTs, a.configSeqnum, a.configFlags;
      configData, negligible := a.configData, a.negligible;
      transferNumber, transferCommittedAt := a.transferNumber, a.transferCommittedAt;
      debtorInfo, isDeleted, isOverflown := a.debtorInfo, a.deleted, a.overflown;
      totalLocked, pendingTransfers, lastTransferId := a.totalLocked, a.pendingTransfers, a.lastTransferId;
      heartbeatTs, capitalizationTs := a.heartbeatTs, a.capitalizationTs;
      deletionAttemptTs, pendingUpdate := a.deletionAttemptTs, a.pendingUpdate;
    }

    // ---- Assignments to a few fields

    method SetMoney(newPrincipal: int, newInterest: real)
      modifies this
      ensures Row() == old(Row()).(principal := newPrincipal, interest := newInterest)
    {
      principal, interest := newPrincipal, newInterest;
    }

    method Bump(now: int)
      modifies this
      ensures Row() == Bumped(old(Row()), now)
    {
      changes := changes + 1;
      changeSeqnum := NextSeqnum(changeSeqnum);
      lastChangeTs := Max(lastChangeTs, now);
    }

    method FlagOverflow()
      modifies this
      ensures Row() == old(Row()).(overflown := true)
    {
      isOverflown := true;
    }

    method RequestUpdate()
      modifies this
      ensures Row() == old(Row()).(pendingUpdate := true)
    {
      pendingUpdate := true;
    }

    method ClearDeletedFlag()
      modifies this
      ensures Row() == old(Row()).(deleted := false)
    {
      isDeleted := false;
    }

    method SetConfig(flags: int, data: string, negligibleAmount: real)
      modifies this
      ensures Row() == old(Row()).(configFlags := flags, configData := data, negligible := negligibleAmount)
    {
      configFlags, configData, negligible := flags, data, negligibleAmount;
    }

    method SetConfigVersion(ts: int, seqnum: int)
      modifies this
      ensures Row() == old(Row()).(configTs := ts, configSeqnum := seqnum)
    {
      configTs, configSeqnum := ts, seqnum;
    }

    method SetRate(newRate: real, now: int)
      modifies this
      ensures Row() == old(Row()).(previousRate := old(Row().rate), rate := newRate, rateChangeTs := now)
    {
      previousRate := rate;
      rate := newRate;
      rateChangeTs := now;
    }

    method SetDebtorInfo(info: Option<string>)
      modifies this
      ensures Row() == old(Row()).(debtorInfo := info)
    {
      debtorInfo := info;
    }

    method NoteCapitalization(now: int)
      modifies this
      ensures Row() == old(Row()).(capitalizationTs := now)
    {
      capitalizationTs := now;
    }

    method NoteDeletionAttempt(now: int)
      modifies this
      ensures Row() == old(Row()).(deletionAttemptTs := now)
    {
      deletionAttemptTs := now;
    }

    /** An update signal has been sent. */
    method Announce(now: int)
      modifies this
      ensures Row() == Announced(old(Row()), now)
    {
      heartbeatTs := now;
      pendingUpdate := false;
    }

    /** A transfer signal has been sent. */
    method CountTransfer(committedAt: int)
      modifies this
      ensures Row() == old(Row()).(transferNumber := old(Row().transferNumber) + 1, transferCommittedAt := committedAt)
    {
      transferNumber := transferNumber + 1;
      transferCommittedAt := committedAt;
    }

    /** The part of `prepare` that works on the account. */
    method Lock(amount: int)
      modifies this
      ensures Row() == WithLock(old(Row()), amount)
    {
      totalLocked := Min(totalLocked + amount, MAX_INT64);
      pendingTransfers := pendingTransfers + 1;
      lastTransferId := lastTransferId + 1;
    }

    method Unlock(pt: PreparedTransfer)
      modifies this
      ensures Row() == Unlocked(old(Row()), pt)
    {
      totalLocked := Max(0, totalLocked - pt.locked);
      pendingTransfers := Max(0, pendingTransfers - 1);
    }

    method Empty()
      modifies this
      ensures Row() == old(Row()).(totalLocked := 0, deleted := true)
    {
      totalLocked := 0;
      isDeleted := true;
    }

    // ---- Procedures on the row

    /** `_apply_account_change` */
    method ApplyAccountChange(principalDelta: int, interestDelta: real, now: int)
      modifies this
      ensures Row() == ApplyChange(key, old(Row()), principalDelta, interestDelta, now)
    {
      hide Row, AccumulatedInterest;
      var possiblyOverflown := Row().principal + principalDelta;
      var contained := Contain(possiblyOverflown);
      SetMoney(contained, AccumulatedInterest(key, Row(), now) + interestDelta);
      if contained != possiblyOverflown {
        FlagOverflow();
      }
      Bump(now);
      RequestUpdate();
    }

    /** `_mark_account_as_deleted`, without the update signal */
    method MarkAsDeleted(now: int)
      modifies this
      ensures Row() == Deleted(old(Row()), now)
    {
      hide Row;
      SetMoney(0, 0.0);
      Empty();
      Bump(now);
    }

    /** The part of `try_to_configure` that works on the account. */
    method Configure(m: Configuration, now: int)
      modifies this
      ensures Row() == Configured(key, old(Row()), m, now)
    {
      hide Row, ApplyChange;
      ClearDeletedFlag();
      SetConfig(m.flags, m.data, m.negligible);
      SetConfigVersion(m.ts, m.seqnum);
      ApplyAccountChange(0, 0.0, now);
    }

    method ChangeRate(newRate: real, now: int)
      modifies this
      ensures Row() == RateChanged(key, old(Row()), newRate, now)
    {
      hide Row, AccumulatedInterest;
      SetMoney(Row().principal, AccumulatedInterest(key, Row(), now));
      SetRate(newRate, now);
      Bump(now);
    }
  }
}
