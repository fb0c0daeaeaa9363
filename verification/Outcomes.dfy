/** What each procedure on one account, and each procedure on the queues, does in every case: when it
    does something, when it does not, and all columns and signals that it writes. */
module Outcomes {
  import opened Models
  import opened Steps
  import opened Columns

  /** The signal that the procedures build shows the row. */
  lemma UpdateShowsRow(k: AccountKey, a: Account, now: int)
    ensures Shows(UpdateOf(k, a), k, a) && Shows(UpdateOf(k, a), k, Announced(a, now))
    ensures Announced(a, now) == a.(heartbeatTs := now, pendingUpdate := false)
  {
  }

  /** Sending an update writes the row, with the two columns that remember it. */
  lemma SentRow(s: State, k: AccountKey, a: Account, now: int)
    ensures var s' := SendUpdate(s, k, a, now);
            && s' == s.(accounts := s.accounts[k := a.(heartbeatTs := now, pendingUpdate := false)],
                        updates := s'.updates)
            && IsShown(s.updates, s'.updates, k, s'.accounts[k], now)
  {
    UpdateShowsRow(k, a, now);
  }

  lemma ReportedTransfer(transfers: seq<TransferSignal>, k: AccountKey, a: Account, report: Report)
    ensures IsReported(
              transfers,
              transfers + TransferSignals(k, a, report.coordinatorType, report.other, report.committedAt,
                                          report.acquired, report.note, report.principal),
              k, a, Numbered(k, a, report.acquired, report.committedAt), report)
    ensures var b := Numbered(k, a, report.acquired, report.committedAt);
            b == a.(transferNumber := b.transferNumber, transferCommittedAt := b.transferCommittedAt)
  {
  }

  // ---- Configuration

  /** Whether a configuration is acceptable: data is for the debtor's own account only. */
  predicate IsAcceptable(creditor: int, m: Configuration) {
    0.0 <= m.negligible && (m.data != "" ==> creditor == ROOT_CREDITOR_ID && m.dataParses)
  }

  /** A configuration message creates a missing account if and only if it is recent and acceptable.  A
      recent message that is not acceptable is rejected, an old one is ignored. */
  lemma ConfigureCreates(c: Settings, s: State, k: AccountKey, m: Configuration)
    requires k !in s.accounts
    ensures var s' := ConfigureAccount(c, s, k, m, s.now);
            if s.now - m.ts > c.signalbusMaxDelay then s' == s
            else if !IsAcceptable(k.creditor, m) then
              s' == s.(rejectedConfigs := s.rejectedConfigs + [RejectedConfigSignal(k, m)])
            else
              && k in s'.accounts && s' == s.(accounts := s.accounts[k := s'.accounts[k]], updates := s'.updates)
              && IsNew(s'.accounts[k], s.now) && HasConfig(s'.accounts[k], m)
              && s'.accounts[k].changes == 1 && s'.accounts[k].changeSeqnum == 1
              && IsShown(s.updates, s'.updates, k, s'.accounts[k], s.now)
  {
    var a := Configured(k, NewAccount(s.now), m, s.now);
    assert AccumulatedInterest(k, NewAccount(s.now), s.now) == 0.0;
    SentRow(s, k, a, s.now);
    hide UpdateOf, Balance, SendUpdate;
  }

  /** A configuration message changes an existing account if and only if it is later than the last one
      and acceptable; a deleted account comes to life again. */
  lemma ConfigureChanges(c: Settings, s: State, k: AccountKey, m: Configuration)
    requires k in s.accounts && -MAX_INT64 <= s.accounts[k].principal <= MAX_INT64
    ensures var a, s' := s.accounts[k], ConfigureAccount(c, s, k, m, s.now);
            var isLater := m.ts > a.configTs
                           || (m.ts == a.configTs && 0 < (m.seqnum - a.configSeqnum) % 0x1_0000_0000 < 0x8000_0000);
            if !isLater then s' == s
            else if !IsAcceptable(k.creditor, m) then
              s' == s.(rejectedConfigs := s.rejectedConfigs + [RejectedConfigSignal(k, m)])
            else
              && k in s'.accounts && s' == s.(accounts := s.accounts[k := s'.accounts[k]], updates := s'.updates)
              && var b := s'.accounts[k];
                 && HasConfig(b, m) && !b.deleted && IsNext(a, b, s.now)
                 && b.interest == Balance(k, a, s.now) - a.principal as real
                 && b == a.(configTs := b.configTs, configSeqnum := b.configSeqnum, configFlags := b.configFlags,
                            configData := b.configData, negligible := b.negligible, deleted := false,
                            changes := b.changes, changeSeqnum := b.changeSeqnum, lastChangeTs := b.lastChangeTs,
                            interest := b.interest, heartbeatTs := s.now, pendingUpdate := false)
                 && IsShown(s.updates, s'.updates, k, b, s.now)
  {
    SentRow(s, k, Configured(k, s.accounts[k], m, s.now), s.now);
    hide UpdateOf, SendUpdate;
  }

  // ---- Rate and debtor info

  /** The rate changes if and only if a recent request finds a live account of a creditor, the requested
      rate within the limits is another one, and the last change is long enough ago. */
  lemma RateChangesIff(c: Settings, s: State, k: AccountKey, rate: real, ts: int)
    requires c.Valid()
    ensures var s' := ChangeRate(c, s, k, rate, ts, s.now);
            var wanted := if rate > c.ceil then c.ceil else if rate < c.floor then c.floor else rate;
            if && k.creditor != ROOT_CREDITOR_ID && s.now - ts <= DAY
               && k in s.accounts && !s.accounts[k].deleted && s.accounts[k].rate != wanted
               && c.signalbusMaxDelay + DAY <= s.now - s.accounts[k].rateChangeTs
            then
              var a := s.accounts[k];
              && k in s'.accounts && s' == s.(accounts := s.accounts[k := s'.accounts[k]], updates := s'.updates)
              && var b := s'.accounts[k];
                 && b.rate == wanted && b.previousRate == a.rate && b.rateChangeTs == s.now && IsNext(a, b, s.now)
                 && b.interest == Balance(k, a, s.now) - a.principal as real
                 && b == a.(rate := b.rate, previousRate := b.previousRate, rateChangeTs := b.rateChangeTs,
                            changes := b.changes, changeSeqnum := b.changeSeqnum, lastChangeTs := b.lastChangeTs,
                            interest := b.interest, heartbeatTs := s.now, pendingUpdate := false)
                 && IsShown(s.updates, s'.updates, k, b, s.now)
            else s' == s
  {
    if k in s.accounts {
      SentRow(s, k, RateChanged(k, s.accounts[k], Clamp(c, rate), s.now), s.now);
    }
    hide UpdateOf, SendUpdate;
  }

  /** The debtor's info changes if and only if a recent request finds a live account of a creditor with
      another info.  No interest is folded in. */
  lemma DebtorInfoChangesIff(s: State, k: AccountKey, info: Option<string>, ts: int)
    ensures var s' := UpdateDebtorInfo(s, k, info, ts, s.now);
            if && k.creditor != ROOT_CREDITOR_ID && s.now - ts <= DAY
               && k in s.accounts && !s.accounts[k].deleted && s.accounts[k].debtorInfo != info
            then
              var a := s.accounts[k];
              && k in s'.accounts && s' == s.(accounts := s.accounts[k := s'.accounts[k]], updates := s'.updates)
              && var b := s'.accounts[k];
                 && b.debtorInfo == info && IsNext(a, b, s.now)
                 && b == a.(debtorInfo := b.debtorInfo, changes := b.changes, changeSeqnum := b.changeSeqnum,
                            lastChangeTs := b.lastChangeTs, heartbeatTs := s.now, pendingUpdate := false)
                 && IsShown(s.updates, s'.updates, k, b, s.now)
            else s' == s
  {
    if k in s.accounts {
      SentRow(s, k, Bumped(s.accounts[k], s.now).(debtorInfo := info), s.now);
    }
    hide UpdateOf, SendUpdate;
  }

  // ---- Money

  lemma OpenedRow(s: State, k: AccountKey)
    ensures var s' := LockOrCreate(s, k, s.now);
            && k in s'.accounts && IsOpened(s, k, s'.accounts[k], s'.updates, s.now)
            && s' == s.(accounts := s.accounts[k := s'.accounts[k]], updates := s'.updates)
  {
    SentRow(s, k, NewAccount(s.now), s.now);
    if k in s.accounts {
      SentRow(s, k, Bumped(s.accounts[k], s.now).(deleted := false), s.now);
      assert s.accounts == s.accounts[k := s.accounts[k]];
    }
    hide SendUpdate, UpdateOf;
  }

  lemma PaidRow(s: State, k: AccountKey, coordinatorType: string, note: string, amount: int)
    requires k in s.accounts
    ensures var s' := Pay(s, k, coordinatorType, note, amount, s.now);
            && IsPaid(s, s', k, s.accounts[k], coordinatorType, note, amount, s.now)
            && s' == s.(accounts := s'.accounts, emitted := s'.emitted, nextChangeId := s'.nextChangeId,
                        transfers := s'.transfers)
  {
    hide IsMoved, IsReported, Numbered, ApplyChange, TransferSignals, Balance;
    var a := s.accounts[k];
    assert s.accounts == s.accounts[k := a];
    if amount != 0 && k.creditor != ROOT_CREDITOR_ID {
      var interest := if coordinatorType == CT_INTEREST then -(amount as real) else 0.0;
      var report := Report(ROOT_CREDITOR_ID, coordinatorType, s.now, amount, note, Contain(a.principal + amount));
      var after := s.transfers + TransferSignals(k, a, coordinatorType, ROOT_CREDITOR_ID, s.now, amount, note,
                                                 Contain(a.principal + amount));
      ReportedTransfer(s.transfers, k, a, report);
      NumberedMoves(k, a, amount, interest, s.now);
      SameReported(k, a, amount, interest, s.now, s.transfers, after, report);
    }
  }

  lemma NumberedMoves(k: AccountKey, a: Account, amount: int, interest: real, now: int)
    ensures IsMoved(k, a, ApplyChange(k, Numbered(k, a, amount, now), amount, interest, now), amount, interest, now)
  {
  }

  lemma SameReported(
    k: AccountKey, a: Account, amount: int, interest: real, now: int, before: seq<TransferSignal>,
    after: seq<TransferSignal>, report: Report)
    requires IsReported(before, after, k, a, Numbered(k, a, amount, now), report)
    ensures IsReported(before, after, k, a, ApplyChange(k, Numbered(k, a, amount, now), amount, interest, now), report)
  {
    hide AccumulatedInterest, Contain, Numbered;
  }

  /** A debtor's payment opens the account if need be, and moves the amount. */
  lemma DebtorPays(s: State, k: AccountKey, coordinatorType: string, note: string, amount: int) returns (a: Account)
    ensures var s' := MakeDebtorPayment(s, k, coordinatorType, note, amount, s.now);
            && IsOpened(s, k, a, s'.updates, s.now)
            && IsPaid(s, s', k, a, coordinatorType, note, amount, s.now)
            && s' == s.(accounts := s'.accounts, updates := s'.updates, emitted := s'.emitted,
                        nextChangeId := s'.nextChangeId, transfers := s'.transfers)
  {
    hide LockOrCreate, Pay, IsOpened, IsMoved, IsReported;
    var s1 := LockOrCreate(s, k, s.now);
    OpenedRow(s, k);
    PaidRow(s1, k, coordinatorType, note, amount);
    a := s1.accounts[k];
    var b := Pay(s1, k, coordinatorType, note, amount, s.now).accounts[k];
    assert s.accounts[k := a][k := b] == s.accounts[k := b];
  }

  /** Interest is capitalized if and only if a live account has accumulated at least one unit, or owes at
      least a part of one, and the last capitalization is long enough ago. */
  lemma CapitalizesIff(s: State, k: AccountKey, minInterval: int)
    ensures var s' := Capitalize(s, k, minInterval, s.now);
            if k in s.accounts && !s.accounts[k].deleted && minInterval <= s.now - s.accounts[k].capitalizationTs
               && Contain((Balance(k, s.accounts[k], s.now) - s.accounts[k].principal as real).Floor) != 0
            then
              var a := s.accounts[k].(capitalizationTs := s.now);
              && IsPaid(s, s', k, a, "interest", "",
                        Contain((Balance(k, a, s.now) - a.principal as real).Floor), s.now)
              && s' == s.(accounts := s'.accounts, emitted := s'.emitted, nextChangeId := s'.nextChangeId,
                          transfers := s'.transfers)
            else s' == s
  {
    hide Pay, IsMoved, IsReported;
    if k in s.accounts {
      var a := s.accounts[k].(capitalizationTs := s.now);
      var s1 := SetAccount(s, k, a);
      var amount := Contain(AccumulatedInterest(k, s.accounts[k], s.now).Floor);
      PaidRow(s1, k, "interest", "", amount);
      var b := Pay(s1, k, "interest", "", amount, s.now).accounts[k];
      assert s.accounts[k := a][k := b] == s.accounts[k := b];
    }
  }

  // ---- Deletion

  /** The row of a deleted account: what is left of it is empty. */
  predicate IsEmptied(a: Account, b: Account, now: int) {
    && IsNext(a, b, now) && b.deleted && b.principal == 0 && b.interest == 0.0 && b.totalLocked == 0
    && b == a.(changes := b.changes, changeSeqnum := b.changeSeqnum, lastChangeTs := b.lastChangeTs, principal := 0,
               interest := 0.0, totalLocked := 0, deleted := true, heartbeatTs := now, pendingUpdate := false)
  }
  lemma EmptiedRow(a: Account, now: int)
    ensures IsEmptied(a, Announced(Deleted(a, now), now), now)
  {
  }

  /** A live account of a creditor remembers each attempt to delete it.  It is deleted if and only if its
      owner has scheduled it for deletion, it has no pending transfers, and its balance is at most
      two units, or negligible to the owner.  What is left goes back to the debtor before that. */
  lemma DeletesIff(s: State, k: AccountKey)
    ensures var s' := TryToDelete(s, k, s.now);
            if k.creditor == ROOT_CREDITOR_ID || k !in s.accounts || s.accounts[k].deleted then s' == s
            else
              var a := s.accounts[k].(deletionAttemptTs := s.now);
              var balance := Balance(k, s.accounts[k], s.now);
              if a.configFlags % 2 == 1 && a.pendingTransfers == 0 && (balance <= a.negligible || balance <= 2.0) then
                exists s1: State ::
                  && IsPaid(s, s1, k, a, "delete", "", -a.principal, s.now)
                  && s' == s.(accounts := s'.accounts, updates := s'.updates, emitted := s1.emitted,
                              nextChangeId := s1.nextChangeId, transfers := s1.transfers)
                  && k in s1.accounts && k in s'.accounts && s'.accounts == s.accounts[k := s'.accounts[k]]
                  && IsEmptied(s1.accounts[k], s'.accounts[k], s.now)
                  && IsShown(s.updates, s'.updates, k, s'.accounts[k], s.now)
              else s' == s.(accounts := s.accounts[k := a])
  {
    hide Pay, IsMoved, IsReported, Balance, UpdateOf, SendUpdate, IsEmptied, Deleted;
    if Live(s, k).Some? && k.creditor != ROOT_CREDITOR_ID && CanBeDeleted(k, s.accounts[k], s.now) {
      var a := s.accounts[k].(deletionAttemptTs := s.now);
      var s0 := SetAccount(s, k, a);
      var s1 := Pay(s0, k, CT_DELETE, "", -a.principal, s.now);
      PaidRow(s0, k, CT_DELETE, "", -a.principal);
      assert s.accounts[k := a][k := s1.accounts[k]] == s.accounts[k := s1.accounts[k]];
      EmptiedRow(s1.accounts[k], s.now);
      SentRow(s1, k, Deleted(s1.accounts[k], s.now), s.now);
      var s' := TryToDelete(s, k, s.now);
      assert s' == SendUpdate(s1, k, Deleted(s1.accounts[k], s.now), s.now);
      assert s'.accounts == s.accounts[k := s'.accounts[k]];
      assert IsPaid(s, s1, k, a, "delete", "", -a.principal, s.now);
    }
  }

  // ---- Scanners

  /** A deleted account that can be purged, in terms of columns. */
  predicate IsOld(c: Settings, a: Account, now: int) {
    && a.deleted && a.lastChangeTs < now - (c.extremeDelay + c.preparedMaxDelay + 2 * DAY)
    && a.creationDate < (now - 3 * DAY) / DAY
  }

  /** A live account that must be announced, in terms of columns. */
  predicate IsQuiet(c: Settings, a: Account, now: int) {
    && !a.deleted
    && (a.pendingUpdate || (a.heartbeatTs < now - c.heartbeatInterval && a.heartbeatTs < now - c.signalbusMaxDelay))
  }

  /** A scan removes an account if and only if it has been deleted, its last change is older than the
      purge delay, and it was created more than three days ago.  Its prepared transfers go with it. */
  lemma PurgesIff(c: Settings, s: State, k: AccountKey)
    ensures var s' := PurgeAccount(c, s, k, s.now);
            if k in s.accounts && IsOld(c, s.accounts[k], s.now) then
              && s' == s.(accounts := s.accounts - {k}, prepared := s'.prepared, purges := s'.purges,
                          purgedConfigs := s.purgedConfigs + {(k, s.accounts[k].configTs)})
              && (forall t :: t in s'.prepared <==> t in s.prepared && t.account != k)
              && (forall t :: t in s'.prepared ==> s'.prepared[t] == s.prepared[t])
              && |s'.purges| == |s.purges| + 1 && s'.purges[..|s.purges|] == s.purges
              && s'.purges[|s.purges|].account == k && s'.purges[|s.purges|].creationDate == s.accounts[k].creationDate
            else s' == s
  {
  }

  /** A scan announces the row of a live account if and only if an update is pending, or the last signal is
      older than the heartbeat interval, which is not shorter than the delay of signals. */
  lemma HeartbeatIff(c: Settings, s: State, k: AccountKey)
    ensures var s' := SendHeartbeat(c, s, k, s.now);
            if k in s.accounts && IsQuiet(c, s.accounts[k], s.now) then
              && k in s'.accounts
              && s' == s.(accounts := s.accounts[k := s'.accounts[k]], updates := s'.updates)
              && s'.accounts[k] == s.accounts[k].(heartbeatTs := s.now, pendingUpdate := false)
              && IsShown(s.updates, s'.updates, k, s'.accounts[k], s.now)
            else s' == s
  {
    if k in s.accounts {
      SentRow(s, k, s.accounts[k], s.now);
    }
    hide UpdateOf;
  }

  /** The registration of a change is deleted if and only if the change has been applied, and was
      committed before the cutoff. */
  lemma UnregistersIff(s: State, ck: ChangeKey, cutoff: int)
    ensures var s' := DeleteRegistered(s, ck, cutoff);
            && s' == s.(registered := s'.registered, scannerCutoff := Max(s.scannerCutoff, cutoff))
            && (forall x :: x in s'.registered ==> x in s.registered && s'.registered[x] == s.registered[x])
            && (forall x :: x in s.registered && x !in s'.registered <==>
                  x == ck && ck in s.registered && s.registered[ck].isApplied && s.registered[ck].committedAt < cutoff)
  {
  }

  // ---- Queues

  /** A recipient is reachable if and only if it is the debtor, or a live account whose owner has not
      scheduled it for deletion. */
  lemma ReachableIff(s: State, k: AccountKey)
    ensures IsReachable(s, k)
            <==> k.creditor == ROOT_CREDITOR_ID
                 || (k in s.accounts && !s.accounts[k].deleted && s.accounts[k].configFlags % 2 == 0)
    ensures CheckRecipient(s, k, s.now) == s.(checks := s.checks + if IsReachable(s, k) then {(k, s.now)} else {})
  {
    assert s.checks + {} == s.checks;
  }

  /** A transfer request with a reachable recipient waits under a new id; without one it is rejected at
      once. */
  lemma RequestWaits(s: State, k: AccountKey, request: Option<TransferRequest>, coordinator: Coordinator)
    ensures var s' := RequestTransfer(s, k, request, coordinator);
            if request.Some? then
              s' == s.(requests := s.requests[RequestKey(k, s.nextRequestId) := request.value],
                       nextRequestId := s.nextRequestId + 1)
            else
              && s' == s.(rejections := s'.rejections)
              && |s'.rejections| == |s.rejections| + 1 && s'.rejections[..|s.rejections|] == s.rejections
              && var rejection := s'.rejections[|s.rejections|];
                 && rejection.account == k && rejection.coordinator == coordinator
                 && rejection.status == RecipientIsUnreachable && rejection.totalLocked == 0
  {
  }

  /** The first finalization request for a transfer waits; a second one is dropped while it does. */
  lemma FinalizationWaits(s: State, t: TransferKey, r: FinalizationRequest)
    ensures var s' := RequestFinalization(s, t, r);
            && s' == s.(finalizations := s'.finalizations)
            && s'.finalizations == if t in s.finalizations then s.finalizations else s.finalizations[t := r]
  {
  }

  /** A change that is delivered waits to be credited, and is registered, if and only if it is not too
      old and has not been registered before. */
  lemma DeliversIff(s: State, ck: ChangeKey, cutoff: int)
    requires ck in s.emitted
    ensures var s' := DeliverChange(s, ck, cutoff);
            if cutoff <= s.emitted[ck].committedAt && ck !in s.registered then
              && s' == s.(queued := s.queued[ck := s.emitted[ck]], registered := s'.registered)
              && ck in s'.registered && s'.registered == s.registered[ck := s'.registered[ck]]
              && s'.registered[ck].committedAt == s.emitted[ck].committedAt && !s'.registered[ck].isApplied
            else s' == s
  {
  }
}
