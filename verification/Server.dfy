/** The service as a program that changes its database in place.  Every procedure is proved to do
    what the corresponding step says; the main results about runs are about those steps.

    A procedure loads an account into an object, works on the object, and writes it back. */
module Server {
  import opened Models
  import opened Steps
  import opened Frames
  import opened Records
  import opened Outcomes

  // ---- What the batch procedures do, as folds of steps

  function PrepareOne(c: Settings, s: State, rk: RequestKey, commitPeriod: int, now: int): State {
    if rk in s.requests then PrepareTransfer(c, s, rk, commitPeriod, now) else s
  }

  function PrepareAll(c: Settings, s: State, batch: seq<RequestKey>, commitPeriod: int, now: int): State {
    if batch == [] then s
    else PrepareOne(c, PrepareAll(c, s, batch[..|batch| - 1], commitPeriod, now), batch[|batch| - 1], commitPeriod, now)
  }

  function PurgeAll(c: Settings, s: State, keys: seq<AccountKey>, now: int): State {
    if keys == [] then s else PurgeAccount(c, PurgeAll(c, s, keys[..|keys| - 1], now), keys[|keys| - 1], now)
  }

  function HeartbeatAll(c: Settings, s: State, keys: seq<AccountKey>, now: int): State {
    if keys == [] then s else SendHeartbeat(c, HeartbeatAll(c, s, keys[..|keys| - 1], now), keys[|keys| - 1], now)
  }

  function DeleteAllRegistered(s: State, keys: seq<ChangeKey>, cutoff: int): State {
    if keys == [] then s
    else DeleteRegistered(DeleteAllRegistered(s, keys[..|keys| - 1], cutoff), keys[|keys| - 1], cutoff)
  }

  /** Inserts change signals, which get consecutive ids. */
  function EmitAll(
    emitted: map<ChangeKey, BalanceChange>, nextId: int, k: AccountKey, changes: seq<BalanceChange>):
    map<ChangeKey, BalanceChange>
  {
    if changes == [] then emitted
    else
      var n := |changes| - 1;
      EmitAll(emitted, nextId, k, changes[..n])[ChangeKey(k.debtor, k.creditor, nextId + n) := changes[n]]
  }

  function MarkApplied(registered: map<ChangeKey, RegisteredChange>, keys: seq<ChangeKey>):
    map<ChangeKey, RegisteredChange>
  {
    map ck | ck in registered ::
      if ck in keys then registered[ck].(isApplied := true) else registered[ck]
  }

  predicate NeedsHeartbeat(c: Settings, a: Account, now: int) {
    a.heartbeatTs < now - Max(c.heartbeatInterval, c.signalbusMaxDelay) || a.pendingUpdate
  }

  /** The scanned accounts that look as if they could be purged. */
  function Purgeable(c: Settings, rows: seq<(AccountKey, Account)>, now: int): seq<AccountKey> {
    if rows == [] then []
    else
      var n := |rows| - 1;
      Purgeable(c, rows[..n], now) + if CanBePurged(c, rows[n].1, now) then [rows[n].0] else []
  }

  /** The scanned accounts that look as if they needed a heartbeat. */
  function Silent(c: Settings, rows: seq<(AccountKey, Account)>, now: int): seq<AccountKey> {
    if rows == [] then []
    else
      var n := |rows| - 1;
      Silent(c, rows[..n], now)
      + if !rows[n].1.deleted && NeedsHeartbeat(c, rows[n].1, now) then [rows[n].0] else []
  }

  /** The registration, if it still exists, can be deleted. */
  predicate IsStale(registered: map<ChangeKey, RegisteredChange>, ck: ChangeKey, cutoff: int) {
    ck in registered ==> registered[ck].committedAt < cutoff && registered[ck].isApplied
  }

  /** The scanned registrations that are applied and older than the cutoff. */
  function Stale(rows: seq<(ChangeKey, RegisteredChange)>, cutoff: int): seq<ChangeKey> {
    if rows == [] then []
    else
      var n := |rows| - 1;
      Stale(rows[..n], cutoff) + if rows[n].1.committedAt < cutoff && rows[n].1.isApplied then [rows[n].0] else []
  }

  /** The state after the registrations with these keys, whatever they hold, are deleted. */
  function Unregistered(s: State, keys: seq<ChangeKey>, cutoff: int): State {
    if keys == [] then s
    else s.(registered := s.registered - (set ck <- keys), scannerCutoff := Max(s.scannerCutoff, cutoff))
  }

  lemma FrontOf<T>(items: seq<T>, i: nat)
    requires i < |items|
    ensures |items[..i + 1]| == i + 1 && items[..i + 1][..i] == items[..i] && items[..i + 1][i] == items[i]
  {
  }

  datatype Outcome = Prepared(prepared: PreparedSignal) | Rejected(rejected: RejectedTransferSignal)

  class Database {
    var accounts: map<AccountKey, Account>
    var requests: map<RequestKey, TransferRequest>
    var finalizations: map<TransferKey, FinalizationRequest>
    var prepared: map<TransferKey, PreparedTransfer>
    var queued: map<ChangeKey, BalanceChange>
    var registered: map<ChangeKey, RegisteredChange>
    var nextRequestId: int
    var nextChangeId: int
    var emitted: map<ChangeKey, BalanceChange>
    var updates: seq<UpdateSignal>
    var transfers: seq<TransferSignal>
    var preparations: seq<PreparedSignal>
    var rejections: seq<RejectedTransferSignal>
    var finalized: seq<FinalizedSignal>
    var rejectedConfigs: seq<RejectedConfigSignal>
    var purges: seq<PurgeSignal>
    ghost var applied: seq<ChangeKey>
    ghost var scannerCutoff: int
    ghost var checks: set<(AccountKey, int)>
    ghost var purgedConfigs: set<(AccountKey, int)>

    /** The whole database, at the time of the last clock reading. */
    ghost function View(now: int): (s: State)
      reads this
      ensures s.now == now
    {
      State(now, accounts, requests, finalizations, prepared, queued, registered, nextRequestId, nextChangeId,
            emitted, updates, transfers, preparations, rejections, finalized, rejectedConfigs, purges,
            applied, scannerCutoff, checks, purgedConfigs)
    }

    /** The object, if there is one, stands for the row of a live account. */
    ghost predicate IsLoaded(k: AccountKey, account: AccountRecord?, now: int)
      reads this, account
    {
      if account == null then Live(View(now), k).None?
      else account.key == k && Live(View(now), k) == Some(account.Row())
    }

    constructor (now: int)
      ensures View(now) == Start(now)
    {
      accounts, requests, finalizations, prepared := map[], map[], map[], map[];
      queued, registered, nextRequestId, nextChangeId, emitted := map[], map[], 1, 1, map[];
      updates, transfers, preparations, rejections := [], [], [], [];
      finalized, rejectedConfigs, purges := [], [], [];
      applied, scannerCutoff, checks, purgedConfigs := [], T0, {}, {};
    }

    // ---- Rows and signals

    method Save(account: AccountRecord, ghost now: int)
      modifies this
      ensures View(now) == SetAccount(old(View(now)), account.key, account.Row())
    {
      accounts := accounts[account.key := account.Row()];
    }

    method AddUpdateSignal(signal: UpdateSignal, ghost now: int)
      modifies this
      ensures View(now) == old(View(now)).(updates := old(View(now)).updates + [signal])
    {
      updates := updates + [signal];
    }

    method AddTransferSignal(signal: TransferSignal, ghost now: int)
      modifies this
      ensures View(now) == old(View(now)).(transfers := old(View(now)).transfers + [signal])
    {
      transfers := transfers + [signal];
    }

    method AddChangeSignal(k: AccountKey, change: BalanceChange, ghost now: int)
      modifies this
      ensures var s := old(View(now));
              View(now) == s.(emitted := s.emitted[ChangeKey(k.debtor, k.creditor, s.nextChangeId) := change],
                              nextChangeId := s.nextChangeId + 1)
    {
      emitted := emitted[ChangeKey(k.debtor, k.creditor, nextChangeId) := change];
      nextChangeId := nextChangeId + 1;
    }

    method AddRejections(signals: seq<RejectedTransferSignal>, ghost now: int)
      modifies this
      ensures View(now) == old(View(now)).(rejections := old(View(now)).rejections + signals)
    {
      rejections := rejections + signals;
    }

    method AddPreparations(signals: seq<PreparedSignal>, ghost now: int)
      modifies this
      ensures View(now) == old(View(now)).(preparations := old(View(now)).preparations + signals)
    {
      preparations := preparations + signals;
    }

    method DeleteRequest(rk: RequestKey, ghost now: int) returns (r: TransferRequest)
      requires rk in View(now).requests
      modifies this
      ensures View(now) == old(View(now)).(requests := old(View(now)).requests - {rk})
      ensures r == old(View(now)).requests[rk]
    {
      r := requests[rk];
      requests := requests - {rk};
    }

    method AddPreparedTransfer(t: TransferKey, pt: PreparedTransfer, ghost now: int)
      modifies this
      ensures View(now) == old(View(now)).(prepared := old(View(now)).prepared[t := pt])
    {
      prepared := prepared[t := pt];
    }

    method GetPrepared(t: TransferKey, ghost now: int) returns (pt: PreparedTransfer)
      requires t in View(now).prepared
      ensures pt == View(now).prepared[t]
    {
      pt := prepared[t];
    }

    method GetFinalization(t: TransferKey, ghost now: int) returns (r: FinalizationRequest)
      requires t in View(now).finalizations
      ensures r == View(now).finalizations[t]
    {
      r := finalizations[t];
    }

    /** Whether the join finds a prepared transfer for the request. */
    method HasMatch(t: TransferKey, ghost now: int) returns (isMatched: bool)
      ensures isMatched <==> Matches(View(now), t)
    {
      isMatched := t in finalizations && t in prepared && finalizations[t].coordinator == prepared[t].coordinator;
    }

    method DeletePrepared(t: TransferKey, ghost now: int)
      modifies this
      ensures View(now) == old(View(now)).(prepared := old(View(now)).prepared - {t})
    {
      prepared := prepared - {t};
    }

    method DeleteFinalization(t: TransferKey, ghost now: int)
      modifies this
      ensures View(now) == old(View(now)).(finalizations := old(View(now)).finalizations - {t})
    {
      finalizations := finalizations - {t};
    }

    method SendChanges(k: AccountKey, pending: seq<BalanceChange>, ghost now: int)
      modifies this
      ensures View(now) == Sending(old(View(now)), k, pending)
    {
      hide View;
      ghost var s := View(now);
      for i := 0 to |pending|
        invariant View(now) == Sending(s, k, pending[..i])
      {
        AddChangeSignal(k, pending[i], now);
        FrontOf(pending, i);
      }
      assert pending[..|pending|] == pending;
    }

    method TakeQueued(ck: ChangeKey, ghost now: int) returns (change: BalanceChange)
      requires ck in View(now).queued
      modifies this
      ensures change == old(View(now)).queued[ck]
      ensures var s := old(View(now)); View(now) == s.(queued := s.queued - {ck}, applied := s.applied + [ck])
    {
      change := queued[ck];
      queued := queued - {ck};
      applied := applied + [ck];
    }

    method MarkAsApplied(credited: seq<ChangeKey>, ghost now: int)
      modifies this
      ensures View(now) == Marked(old(View(now)), credited)
    {
      registered := MarkApplied(registered, credited);
    }

    /** Deletes the row of an account; the deletion cascades to its prepared transfers. */
    method DeleteAccount(k: AccountKey, ghost now: int)
      modifies this
      ensures var s := old(View(now));
              View(now) == s.(accounts := s.accounts - {k},
                              prepared := map t | t in s.prepared && t.account != k :: s.prepared[t])
    {
      accounts := accounts - {k};
      prepared := map t | t in prepared && t.account != k :: prepared[t];
    }

    method AddPurgeSignal(signal: PurgeSignal, ghost configTs: int, ghost now: int)
      modifies this
      ensures var s := old(View(now));
              View(now) == s.(purges := s.purges + [signal],
                              purgedConfigs := s.purgedConfigs + {(signal.account, configTs)})
    {
      purges := purges + [signal];
      purgedConfigs := purgedConfigs + {(signal.account, configTs)};
    }

    method AddFinalizedSignal(signal: FinalizedSignal, ghost now: int)
      modifies this
      ensures View(now) == old(View(now)).(finalized := old(View(now)).finalized + [signal])
    {
      finalized := finalized + [signal];
    }

    method AddRejectedConfig(signal: RejectedConfigSignal, ghost now: int)
      modifies this
      ensures View(now) == old(View(now)).(rejectedConfigs := old(View(now)).rejectedConfigs + [signal])
    {
      rejectedConfigs := rejectedConfigs + [signal];
    }

    /** `_get_account_instance` */
    method GetAccountInstance(k: AccountKey, ghost now: int) returns (account: AccountRecord?)
      ensures account != null <==> k in View(now).accounts
      ensures account != null ==> fresh(account) && account.key == k && account.Row() == View(now).accounts[k]
      ensures View(now) == old(View(now))
    {
      if k in accounts {
        account := new AccountRecord.Load(k, accounts[k]);
      } else {
        account := null;
      }
    }

    /** `get_account`: deleted accounts are not found. */
    method GetAccount(k: AccountKey, ghost now: int) returns (account: AccountRecord?)
      ensures account != null <==> Live(View(now), k).Some?
      ensures account != null ==> fresh(account) && account.key == k && account.Row() == View(now).accounts[k]
      ensures View(now) == old(View(now))
    {
      hide View, AccountRecord.Row;
      account := GetAccountInstance(k, now);
      if account != null && account.Row().deleted {
        account := null;
      }
    }

    method LoadAccount(k: AccountKey, ghost now: int) returns (account: AccountRecord?)
      ensures IsLoaded(k, account, now) && (account != null ==> fresh(account))
      ensures View(now) == old(View(now))
    {
      hide View, AccountRecord.Row;
      account := GetAccount(k, now);
    }

    /** `_insert_account_update_signal` */
    method InsertUpdateSignal(account: AccountRecord, now: int)
      modifies this, account
      ensures View(now) == SendUpdate(old(View(now)), account.key, old(account.Row()), now)
      ensures account.Row() == Announced(old(account.Row()), now)
    {
      hide View, AccountRecord.Row, UpdateOf;
      AddUpdateSignal(UpdateOf(account.key, account.Row()), now);
      account.Announce(now);
      Save(account, now);
    }

    /** `_lock_or_create_account` */
    method LockOrCreateAccount(k: AccountKey, now: int) returns (account: AccountRecord)
      modifies this
      ensures View(now) == LockOrCreate(old(View(now)), k, now)
      ensures fresh(account) && account.key == k && account.Row() == View(now).accounts[k]
    {
      hide View, AccountRecord.Row, SendUpdate, NewAccount;
      var found := GetAccountInstance(k, now);
      if found == null {
        account := new AccountRecord.Load(k, NewAccount(now));
        InsertUpdateSignal(account, now);
      } else {
        account := found;
        if account.Row().deleted {
          account.ClearDeletedFlag();
          account.Bump(now);
          InsertUpdateSignal(account, now);
        }
      }
    }

    /** `_insert_account_transfer_signal`: it counts the transfer on the account object, which is
        written back later. */
    method InsertTransferSignal(
      account: AccountRecord, coordinatorType: string, other: int, committedAt: int, acquired: int, note: string,
      principal: int, ghost now: int)
      modifies this, account
      ensures var k, a, s := account.key, old(account.Row()), old(View(now));
              && View(now) == s.(transfers := s.transfers + TransferSignals(k, a, coordinatorType, other, committedAt,
                                                                           acquired, note, principal))
              && account.Row() == Numbered(k, a, acquired, committedAt)
    {
      hide View, AccountRecord.Row;
      var isNegligible := 0 < acquired && acquired as real <= account.Row().negligible;
      if account.key.creditor != ROOT_CREDITOR_ID && !isNegligible {
        var previous := account.Row().transferNumber;
        account.CountTransfer(committedAt);
        AddTransferSignal(TransferSignal(account.key, account.Row().creationDate, account.Row().transferNumber, previous,
                                         coordinatorType, other, committedAt, acquired, note, principal), now);
      }
    }

    /** `_make_debtor_payment` */
    method PayFromDebtor(account: AccountRecord, coordinatorType: string, note: string, amount: int, now: int)
      modifies this, account
      ensures var s := SetAccount(old(View(now)), account.key, old(account.Row()));
              View(now) == Pay(s, account.key, coordinatorType, note, amount, now)
      ensures account.Row() == View(now).accounts[account.key]
    {
      hide View, AccountRecord.Row, ApplyChange, TransferSignals, Numbered;
      var k, a := account.key, account.Row();
      if amount != 0 && k.creditor != ROOT_CREDITOR_ID {
        AddChangeSignal(k, BalanceChange(ROOT_CREDITOR_ID, coordinatorType, note, now, -amount, now), now);
        InsertTransferSignal(account, coordinatorType, ROOT_CREDITOR_ID, now, amount, note,
                             Contain(a.principal + amount), now);
        account.ApplyAccountChange(amount, if coordinatorType == CT_INTEREST then -(amount as real) else 0.0, now);
      }
      Save(account, now);
    }

    // ---- Requests that are queued

    /** `prepare_transfer` */
    method RequestTransfer(k: AccountKey, request: Option<TransferRequest>, coordinator: Coordinator, ghost now: int)
      modifies this
      ensures View(now) == Steps.RequestTransfer(old(View(now)), k, request, coordinator)
    {
      match request
      case None =>
        rejections := rejections + [RejectedTransferSignal(k, coordinator, RecipientIsUnreachable, 0)];
      case Some(r) =>
        requests := requests[RequestKey(k, nextRequestId) := r];
        nextRequestId := nextRequestId + 1;
    }

    /** `finalize_transfer`: a second request with the same primary key is rolled back. */
    method RequestFinalization(t: TransferKey, r: FinalizationRequest, ghost now: int)
      modifies this
      ensures View(now) == Steps.RequestFinalization(old(View(now)), t, r)
    {
      if t !in finalizations {
        finalizations := finalizations[t := r];
      }
    }

    /** `is_reachable_account` */
    method IsReachableAccount(k: AccountKey, ghost now: int) returns (isReachable: bool)
      modifies this`checks
      ensures isReachable
              <==> k.creditor == ROOT_CREDITOR_ID
                   || (k in old(accounts) && !old(accounts)[k].deleted && old(accounts)[k].configFlags % 2 == 0)
      ensures View(now) == CheckRecipient(old(View(now)), k, now)
    {
      isReachable := k.creditor == ROOT_CREDITOR_ID
                     || (k in accounts && !accounts[k].deleted && !accounts[k].ScheduledForDeletion());
      if isReachable {
        checks := checks + {(k, now)};
      }
    }

    /** `insert_pending_balance_change` */
    method InsertPendingBalanceChange(ck: ChangeKey, change: BalanceChange, cutoff: int, ghost now: int)
      requires ck in emitted && emitted[ck] == change
      modifies this
      ensures View(now) == DeliverChange(old(View(now)), ck, cutoff)
    {
      if change.committedAt < cutoff {
        return;
      }
      if ck !in registered {
        registered := registered[ck := RegisteredChange(change.committedAt, false)];
        queued := queued[ck := change];
      }
    }

    // ---- Procedures on one account

    /** `try_to_configure` */
    method TryToConfigure(k: AccountKey, account: AccountRecord?, m: Configuration, now: int)
      returns (shouldBeInitialized: bool)
      requires account != null ==> account.key == k && k in View(now).accounts && account.Row() == View(now).accounts[k]
      requires account == null ==> k !in View(now).accounts
      modifies this, account
      ensures var s := old(View(now));
              View(now) == if IsValidConfig(k.creditor, m) then SendUpdate(s, k, Configured(k, RowOf(s, k), m, now), now)
                           else s.(rejectedConfigs := s.rejectedConfigs + [RejectedConfigSignal(k, m)])
      ensures shouldBeInitialized <==> IsValidConfig(k.creditor, m) && Live(old(View(now)), k).None?
    {
      hide View, AccountRecord.Row, Configured, SendUpdate, NewAccount, IsValidConfig;
      shouldBeInitialized := false;
      if IsValidConfig(k.creditor, m) {
        if account == null {
          var created := new AccountRecord.Load(k, NewAccount(now));
          shouldBeInitialized := true;
          created.Configure(m, now);
          InsertUpdateSignal(created, now);
        } else {
          shouldBeInitialized := account.Row().deleted;
          account.Configure(m, now);
          InsertUpdateSignal(account, now);
        }
      } else {
        AddRejectedConfig(RejectedConfigSignal(k, m), now);
      }
    }

    /** `configure_account`: an account must be initialized when it has just come to life. */
    method ConfigureAccount(c: Settings, k: AccountKey, m: Configuration, now: int) returns (shouldBeInitialized: bool)
      modifies this
      ensures View(now) == Steps.ConfigureAccount(c, old(View(now)), k, m, now)
      ensures shouldBeInitialized <==> Live(old(View(now)), k).None? && Live(View(now), k).Some?
      ensures k !in old(accounts) ==>
                (shouldBeInitialized <==>
                   && now - m.ts <= c.signalbusMaxDelay && m.negligible >= 0.0
                   && (m.data == "" || (k.creditor == ROOT_CREDITOR_ID && m.dataParses)))
    {
      ghost var s := View(now);
      if k !in accounts {
        ConfigureCreates(c, s, k, m);
      }
      hide View, AccountRecord.Row, AccumulatedInterest, UpdateOf, NewAccount, ConfigLater, IsValidConfig;
      var account := GetAccountInstance(k, now);
      shouldBeInitialized := false;
      if account != null {
        if ConfigLater(m.ts, m.seqnum, account.Row().configTs, account.Row().configSeqnum) {
          shouldBeInitialized := TryToConfigure(k, account, m, now);
        }
      } else if now - m.ts <= c.signalbusMaxDelay {
        shouldBeInitialized := TryToConfigure(k, null, m, now);
      }
    }

    /** `change_interest_rate` */
    method ChangeInterestRate(c: Settings, k: AccountKey, rate: real, ts: int, now: int)
      requires c.Valid()
      modifies this
      ensures View(now) == Steps.ChangeRate(c, old(View(now)), k, rate, ts, now)
    {
      hide View, AccountRecord.Row, RateChanged, SendUpdate;
      if k.creditor == ROOT_CREDITOR_ID || now - ts > DAY {
        return;
      }
      var account := GetAccount(k, now);
      if account != null {
        var contained := if rate > c.ceil then c.ceil else rate;
        contained := if contained < c.floor then c.floor else contained;
        if account.Row().rate != contained && now - account.Row().rateChangeTs >= c.signalbusMaxDelay + DAY {
          account.ChangeRate(contained, now);
          InsertUpdateSignal(account, now);
        }
      }
    }

    /** `update_debtor_info` */
    method UpdateDebtorInfo(k: AccountKey, info: Option<string>, ts: int, now: int)
      modifies this
      ensures View(now) == Steps.UpdateDebtorInfo(old(View(now)), k, info, ts, now)
    {
      hide View, AccountRecord.Row, SendUpdate;
      if k.creditor == ROOT_CREDITOR_ID || now - ts > DAY {
        return;
      }
      var account := GetAccount(k, now);
      if account != null && account.Row().debtorInfo != info {
        account.SetDebtorInfo(info);
        account.Bump(now);
        InsertUpdateSignal(account, now);
      }
    }

    /** `capitalize_interest` */
    method CapitalizeInterest(k: AccountKey, minInterval: int, now: int)
      modifies this
      ensures View(now) == Capitalize(old(View(now)), k, minInterval, now)
    {
      hide View, AccountRecord.Row, AccumulatedInterest, Pay;
      var account := GetAccount(k, now);
      if account != null && account.Row().capitalizationTs <= now - minInterval {
        var accumulated := Contain(AccumulatedInterest(k, account.Row(), now).Floor);
        if accumulated != 0 {
          account.NoteCapitalization(now);
          PayFromDebtor(account, CT_INTEREST, "", accumulated, now);
        }
      }
    }

    /** `try_to_delete_account` */
    method TryToDeleteAccount(k: AccountKey, now: int)
      modifies this
      ensures View(now) == TryToDelete(old(View(now)), k, now)
    {
      hide View, AccountRecord.Row, Balance, IsNegligibleBalance, Pay, SendUpdate, Deleted;
      if k.creditor == ROOT_CREDITOR_ID {
        return;
      }
      var account := GetAccount(k, now);
      if account != null {
        var canBeDeleted := CanBeDeleted(k, account.Row(), now);
        account.NoteDeletionAttempt(now);
        if canBeDeleted {
          PayFromDebtor(account, CT_DELETE, "", -account.Row().principal, now);
          account.MarkAsDeleted(now);
          InsertUpdateSignal(account, now);
        } else {
          Save(account, now);
        }
      }
    }

    /** `make_debtor_payment` */
    method MakeDebtorPayment(k: AccountKey, coordinatorType: string, note: string, amount: int, now: int)
      modifies this
      ensures View(now) == Steps.MakeDebtorPayment(old(View(now)), k, coordinatorType, note, amount, now)
    {
      hide AccountRecord.Row, LockOrCreate, Pay;
      var account := LockOrCreateAccount(k, now);
      assert SetAccount(View(now), k, account.Row()) == View(now);
      PayFromDebtor(account, coordinatorType, note, amount, now);
    }

    // ---- Batches of transfer requests

    /** `_process_transfer_request` */
    method ProcessTransferRequest(c: Settings, rk: RequestKey, sender: AccountRecord?, commitPeriod: int, now: int)
      returns (outcome: Outcome)
      requires rk in View(now).requests && IsLoaded(rk.account, sender, now)
      modifies this, sender
      ensures
        var s := old(View(now));
        var s1 := PrepareTransfer(c, s, rk, commitPeriod, now);
        && View(now) == s1.(rejections := s.rejections, preparations := s.preparations)
        && s1.rejections == s.rejections + (if outcome.Rejected? then [outcome.rejected] else [])
        && s1.preparations == s.preparations + (if outcome.Prepared? then [outcome.prepared] else [])
      ensures IsLoaded(rk.account, sender, now)
    {
      hide View, AccountRecord.Row, WithLock, NewTransfer, LockableAmount, KeepsChanges;
      ghost var s := View(now);
      var r := DeleteRequest(rk, now);
      var k := rk.account;
      if sender == null {
        return Rejected(RejectedTransferSignal(k, r.coordinator, SenderIsUnreachable, 0));
      }
      var code := RejectionCode(k, sender.Row(), r, now);
      if code != Ok {
        return Rejected(RejectedTransferSignal(k, r.coordinator, code, sender.Row().totalLocked));
      }
      LockedColumns(sender.Row(), LockableAmount(k, sender.Row(), r, now));
      var amount := LockableAmount(k, sender.Row(), r, now);
      sender.Lock(amount);
      var t, pt := TransferKey(k, sender.Row().lastTransferId), NewTransfer(c, r, amount, commitPeriod, now);
      AddPreparedTransfer(t, pt, now);
      Save(sender, now);
      return Prepared(PreparedSignal(t, pt));
    }

    /** `process_transfer_requests`: the signals are collected, and saved at the end. */
    method ProcessTransferRequests(c: Settings, k: AccountKey, batch: seq<RequestKey>, commitPeriod: int, now: int)
      requires Distinct(batch) && forall rk <- batch :: rk in View(now).requests && rk.account == k
      modifies this
      ensures View(now) == PrepareAll(c, old(View(now)), batch, commitPeriod, now)
    {
      hide View, AccountRecord.Row, PrepareTransfer, IsLoaded;
      ghost var s := View(now);
      var sender := LoadAccount(k, now);
      var rejected, preparedSignals := [], [];
      WithSignals(s);
      for i := 0 to |batch|
        invariant IsLoaded(k, sender, now) && (sender == null || fresh(sender))
        invariant PrepareAll(c, s, batch[..i], commitPeriod, now)
                  == Collecting(View(now), rejected, preparedSignals)
        invariant forall j :: i <= j < |batch| ==> batch[j] in View(now).requests
      {
        ghost var before, wasRejected, wasPrepared := View(now), rejected, preparedSignals;
        var outcome := ProcessTransferRequest(c, batch[i], sender, commitPeriod, now);
        match outcome {
          case Rejected(signal) => rejected := rejected + [signal];
          case Prepared(signal) => preparedSignals := preparedSignals + [signal];
        }
        PrepareCollecting(c, before, batch[i], commitPeriod, now, wasRejected, wasPrepared, outcome);
        FrontOf(batch, i);
      }
      assert batch[..|batch|] == batch;
      AddRejections(rejected, now);
      AddPreparations(preparedSignals, now);
    }

    // ---- Batches of finalization requests

    /** `_finalize_prepared_transfer`: it returns the balance change to send to the recipient. */
    method FinalizePreparedTransfer(
      t: TransferKey, sender: AccountRecord, expendable: int, now: int, ghost delta: int, ghost opening: int)
      returns (signal: Option<BalanceChange>)
      requires Matches(View(now), t) && IsLoaded(t.account, sender, now)
      requires expendable == opening + delta - sender.Row().totalLocked - MinAccountBalance(t.account.creditor)
      modifies this, sender
      ensures
        var s := old(View(now));
        var f' := FinalizeOne(Finalizing(s, delta), t.account, t, opening, now);
        && View(now) == s.(accounts := f'.state.accounts, finalized := f'.state.finalized,
                           transfers := f'.state.transfers)
        && IsSent(s, f', t.account, signal, delta)
      ensures IsLoaded(t.account, sender, now)
    {
      hide View, AccountRecord.Row, Unlocked, CalcStatusCode, TransferSignals, FinalizeOne, IsSent, Numbered, Contain,
           MinAccountBalance, RowOf;
      FinalizeOutcome(View(now), t, delta, opening, now);
      var k := t.account;
      var pt := GetPrepared(t, now);
      var fr := GetFinalization(t, now);
      UnlockedColumns(k, sender.Row(), pt, fr, fr.committed, Contain(sender.Row().principal - fr.committed), now);
      var status := CalcStatusCode(k.creditor, pt, fr.committed, expendable, sender.Row().rate, now);
      sender.Unlock(pt);
      var committed := if status == Ok then fr.committed else 0;
      AddFinalizedSignal(FinalizedSignal(t, pt.coordinator, pt.preparedAt, now, committed, sender.Row().totalLocked,
                                         status), now);
      signal := None;
      if committed > 0 {
        InsertTransferSignal(sender, pt.coordinator.kind, pt.recipient, now, -committed, fr.note,
                             Contain(sender.Row().principal - committed), now);
        signal := Some(BalanceChange(pt.recipient, pt.coordinator.kind, fr.note, now, committed, pt.checkedAt));
      }
      Save(sender, now);
    }

    /** One round of `process_finalization_requests`. */
    method FinalizeRequest(
      t: TransferKey, sender: AccountRecord?, startingBalance: int, principalDelta: int, now: int)
      returns (signal: Option<BalanceChange>)
      requires t in View(now).finalizations && IsLoaded(t.account, sender, now)
      modifies this, sender
      ensures sender != null ==>
                var s := old(View(now));
                var f' := FinalizeOne(Finalizing(s, principalDelta), t.account, t, startingBalance, now);
                && View(now) == f'.state.(emitted := s.emitted, nextChangeId := s.nextChangeId)
                && IsSent(s, f', t.account, signal, principalDelta)
      ensures sender == null ==>
                && View(now) == old(View(now)).(finalizations := old(View(now)).finalizations - {t})
                && signal == None
      ensures IsLoaded(t.account, sender, now)
    {
      hide View, AccountRecord.Row, Unlocked, FinalStatus, CommittedAmount, TransferSignals, Released;
      var isMatched := HasMatch(t, now);
      signal := None;
      if sender != null && isMatched {
        var expendable := startingBalance + principalDelta - sender.Row().totalLocked
                          - MinAccountBalance(t.account.creditor);
        signal := FinalizePreparedTransfer(t, sender, expendable, now, principalDelta, startingBalance);
        DeletePrepared(t, now);
      }
      DeleteFinalization(t, now);
    }

    /** The end of `process_finalization_requests`. */
    method ChargeSender(sender: AccountRecord, principalDelta: int, pending: seq<BalanceChange>, now: int)
      requires IsLoaded(sender.key, sender, now)
      modifies this, sender
      ensures var k, s := sender.key, Sending(old(View(now)), sender.key, pending);
              && k in s.accounts
              && View(now) == if principalDelta == 0 then s
                              else SetAccount(s, k, ApplyChange(k, s.accounts[k], principalDelta, 0.0, now))
    {
      hide View, AccountRecord.Row, ApplyChange, Sending, SetAccount;
      SendingSet(View(now), sender.key, pending);
      ghost var s := View(now);
      if principalDelta != 0 {
        sender.ApplyAccountChange(principalDelta, 0.0, now);
        Save(sender, now);
        assert View(now) == SetAccount(s, sender.key, ApplyChange(sender.key, s.accounts[sender.key], principalDelta, 0.0, now));
      }
      SendChanges(sender.key, pending, now);
    }

    /** `process_finalization_requests`: the principal of the sender changes after the last request,
        and then the balance changes are sent. */
    method ProcessFinalizationRequests(k: AccountKey, batch: seq<TransferKey>, now: int)
      requires Distinct(batch) && forall t <- batch :: t in View(now).finalizations && t.account == k
      modifies this
      ensures View(now) == FinalizeTransfers(old(View(now)), k, batch, now)
    {
      hide View, AccountRecord.Row, FinalizeOne, Balance, ApplyChange, Sending, SetAccount, IsSent, WithoutRequests;
      ghost var s := View(now);
      var principalDelta, pending := 0, [];
      var sender := LoadAccount(k, now);
      var startingBalance := if sender != null then Balance(k, sender.Row(), now).Floor else 0;
      NothingToSend(s, k);
      if sender == null {
        FinalizeWithoutSender(s, k, batch, now);
      }
      for i := 0 to |batch|
        invariant IsLoaded(k, sender, now) && (sender == null || fresh(sender))
        invariant sender != null ==> k in s.accounts
        invariant sender != null ==>
                    FinalizeAll(s, k, batch[..i], startingBalance, now)
                    == Finalizing(Sending(View(now), k, pending), principalDelta)
        invariant sender == null ==> View(now) == WithoutRequests(s, batch[..i]) && principalDelta == 0 && pending == []
        invariant forall j :: i <= j < |batch| ==> batch[j] in View(now).finalizations
      {
        ghost var before, delta, waiting := View(now), principalDelta, pending;
        var signal := FinalizeRequest(batch[i], sender, startingBalance, principalDelta, now);
        if signal.Some? {
          pending := pending + [signal.value];
          principalDelta := principalDelta - signal.value.delta;
        }
        if sender != null {
          FinalizeSending(before, k, batch[i], waiting, delta, startingBalance, now, signal);
        } else {
          WithoutOneMore(s, batch[..i + 1]);
        }
        FrontOf(batch, i);
      }
      assert batch[..|batch|] == batch;
      if sender != null {
        ChargeSender(sender, principalDelta, pending, now);
      }
    }

    // ---- Batches of balance changes

    /** One round of `process_pending_balance_changes`. */
    method CreditChange(
      ck: ChangeKey, account: AccountRecord, principalDelta: int, interestDelta: real, now: int)
      returns (newPrincipalDelta: int, newInterestDelta: real)
      requires ck in View(now).queued && account.key in View(now).accounts
      requires account.Row() == View(now).accounts[account.key]
      modifies this, account
      ensures var s := old(View(now));
              var b := ApplyOne(Crediting(s, principalDelta, interestDelta), account.key, ck, now);
              && View(now) == b.state.(registered := s.registered)
              && newPrincipalDelta == b.principalDelta && newInterestDelta == b.interestDelta
      ensures account.key in View(now).accounts && account.Row() == View(now).accounts[account.key]
    {
      hide View, AccountRecord.Row, DueInterest, TransferSignals, Numbered;
      var change := TakeQueued(ck, now);
      newPrincipalDelta := principalDelta + change.delta;
      newInterestDelta := interestDelta + DueInterest(account.Row(), change.delta, change.committedAt, now);
      InsertTransferSignal(account, change.coordinatorType, ck.other, change.committedAt, change.delta, change.note,
                           Contain(account.Row().principal + newPrincipalDelta), now);
      Save(account, now);
    }

    /** `process_pending_balance_changes`: the principal and the interest of the account change after
        the last credit. */
    method ProcessPendingBalanceChanges(k: AccountKey, batch: seq<ChangeKey>, now: int)
      requires Distinct(batch) && forall ck <- batch :: ck in View(now).queued
      modifies this
      ensures View(now) == ApplyChanges(old(View(now)), k, batch, now)
    {
      hide View, AccountRecord.Row, LockOrCreate, ApplyOne, ApplyChange, Marked;
      if batch == [] {
        return;
      }
      ghost var s := View(now);
      var principalDelta, interestDelta, applied := 0, 0.0, [];
      var account := LockOrCreateAccount(k, now);
      ghost var s1 := View(now);
      LockKeepsQueued(s, k, now);
      NothingMarked(s1);
      for i := 0 to |batch|
        invariant fresh(account) && account.key == k
        invariant k in View(now).accounts && account.Row() == View(now).accounts[k]
        invariant applied == batch[..i]
        invariant ApplyAll(s1, k, batch[..i], now)
                  == Crediting(Marked(View(now), applied), principalDelta, interestDelta)
        invariant forall j :: i <= j < |batch| ==> batch[j] in View(now).queued
      {
        ghost var before, oldPrincipal, oldInterest := View(now), principalDelta, interestDelta;
        principalDelta, interestDelta := CreditChange(batch[i], account, principalDelta, interestDelta, now);
        ApplyMarked(before, k, batch[i], applied, oldPrincipal, oldInterest, now);
        applied := applied + [batch[i]];
        FrontOf(batch, i);
      }
      assert batch[..|batch|] == batch;
      CreditAccount(account, principalDelta, interestDelta, applied, now);
    }

    /** The end of `process_pending_balance_changes`. */
    method CreditAccount(
      account: AccountRecord, principalDelta: int, interestDelta: real, credited: seq<ChangeKey>, now: int)
      requires account.key in View(now).accounts && account.Row() == View(now).accounts[account.key]
      modifies this, account
      ensures var k, s := account.key, Marked(old(View(now)), credited);
              && k in s.accounts
              && View(now) == SetAccount(s, k, ApplyChange(k, s.accounts[k], principalDelta, interestDelta, now))
    {
      hide View, AccountRecord.Row, ApplyChange;
      account.ApplyAccountChange(principalDelta, interestDelta, now);
      Save(account, now);
      MarkAsApplied(credited, now);
    }

    // ---- Scanners

    /** `_purge_accounts`: the scanned rows may be stale, and are checked again. */
    method PurgeAccounts(c: Settings, rows: seq<(AccountKey, Account)>, now: int)
      modifies this
      ensures View(now) == PurgeAll(c, old(View(now)), Purgeable(c, rows, now), now)
    {
      hide View, AccountRecord.Row, CanBePurged, PurgeAccount;
      ghost var s := View(now);
      var keys := [];
      for i := 0 to |rows|
        invariant View(now) == s && keys == Purgeable(c, rows[..i], now)
      {
        if CanBePurged(c, rows[i].1, now) {
          keys := keys + [rows[i].0];
        }
        FrontOf(rows, i);
      }
      assert rows[..|rows|] == rows;
      for i := 0 to |keys|
        invariant View(now) == PurgeAll(c, s, keys[..i], now)
      {
        PurgeIfPossible(c, keys[i], now);
        FrontOf(keys, i);
      }
      assert keys[..|keys|] == keys;
    }

    method PurgeIfPossible(c: Settings, k: AccountKey, now: int)
      modifies this
      ensures View(now) == PurgeAccount(c, old(View(now)), k, now)
    {
      hide View, AccountRecord.Row, CanBePurged, KeepsChanges;
      var account := GetAccountInstance(k, now);
      if account != null && CanBePurged(c, account.Row(), now) {
        DeleteAccount(k, now);
        AddPurgeSignal(PurgeSignal(k, account.Row().creationDate), account.Row().configTs, now);
      }
    }

    /** `_send_heartbeats` */
    method SendHeartbeats(c: Settings, rows: seq<(AccountKey, Account)>, now: int)
      modifies this
      ensures View(now) == HeartbeatAll(c, old(View(now)), Silent(c, rows, now), now)
    {
      hide View, AccountRecord.Row, NeedsHeartbeat, SendHeartbeat;
      ghost var s := View(now);
      var keys := [];
      for i := 0 to |rows|
        invariant View(now) == s && keys == Silent(c, rows[..i], now)
      {
        if !rows[i].1.deleted && NeedsHeartbeat(c, rows[i].1, now) {
          keys := keys + [rows[i].0];
        }
        FrontOf(rows, i);
      }
      assert rows[..|rows|] == rows;
      for i := 0 to |keys|
        invariant View(now) == HeartbeatAll(c, s, keys[..i], now)
      {
        HeartbeatIfNeeded(c, keys[i], now);
        FrontOf(keys, i);
      }
      assert keys[..|keys|] == keys;
    }

    method HeartbeatIfNeeded(c: Settings, k: AccountKey, now: int)
      modifies this
      ensures View(now) == SendHeartbeat(c, old(View(now)), k, now)
    {
      hide View, AccountRecord.Row, SendUpdate;
      var account := GetAccount(k, now);
      if account != null && NeedsHeartbeat(c, account.Row(), now) {
        InsertUpdateSignal(account, now);
      }
    }

    /** `process_rows` of the scanner of registered changes: one statement deletes what looked stale when
        it was read, without checking again. */
    method DeleteStaleRegistrations(rows: seq<(ChangeKey, RegisteredChange)>, cutoff: int, ghost now: int)
      modifies this
      ensures View(now) == Unregistered(old(View(now)), Stale(rows, cutoff), cutoff)
    {
      var keys := [];
      for i := 0 to |rows|
        invariant View(now) == old(View(now)) && keys == Stale(rows[..i], cutoff)
      {
        if rows[i].1.committedAt < cutoff && rows[i].1.isApplied {
          keys := keys + [rows[i].0];
        }
        FrontOf(rows, i);
      }
      assert rows[..|rows|] == rows;
      if keys != [] {
        registered := registered - (set ck <- keys);
        scannerCutoff := Max(scannerCutoff, cutoff);
      }
    }
  }

  /** The state after the registrations of credited changes are marked. */
  function Marked(s: State, credited: seq<ChangeKey>): State {
    s.(registered := MarkApplied(s.registered, credited))
  }

  lemma NothingMarked(s: State)
    ensures Marked(s, []) == s
  {
  }

  lemma LockKeepsQueued(s: State, k: AccountKey, now: int)
    ensures LockOrCreate(s, k, now).queued == s.queued
  {
    hide Bumped, NewAccount, SendUpdate;
  }

  lemma MarkOneMore(registered: map<ChangeKey, RegisteredChange>, credited: seq<ChangeKey>, ck: ChangeKey)
    ensures MarkApplied(registered, credited + [ck])
            == var m := MarkApplied(registered, credited); if ck in m then m[ck := m[ck].(isApplied := true)] else m
  {
  }

  /** Registrations that wait to be marked do not influence how a change is credited. */
  lemma ApplyMarked(
    s: State, k: AccountKey, ck: ChangeKey, credited: seq<ChangeKey>, principalDelta: int, interestDelta: real, now: int)
    requires k in s.accounts && ck in s.queued
    ensures var b := ApplyOne(Crediting(s, principalDelta, interestDelta), k, ck, now);
            && ApplyOne(Crediting(Marked(s, credited), principalDelta, interestDelta), k, ck, now)
               == Crediting(Marked(b.state.(registered := s.registered), credited + [ck]), b.principalDelta,
                            b.interestDelta)
            && b.state.queued == s.queued - {ck}
  {
    hide DueInterest, TransferSignals, Numbered, MarkApplied;
    MarkOneMore(s.registered, credited, ck);
  }

  /** The state after the waiting balance changes are sent. */
  function Sending(s: State, k: AccountKey, pending: seq<BalanceChange>): State {
    s.(emitted := EmitAll(s.emitted, s.nextChangeId, k, pending), nextChangeId := s.nextChangeId + |pending|)
  }

  lemma NothingToSend(s: State, k: AccountKey)
    ensures Sending(s, k, []) == s && WithoutRequests(s, []) == s
  {
  }

  function WithoutRequests(s: State, batch: seq<TransferKey>): State {
    s.(finalizations := s.finalizations - set t | t in batch)
  }

  lemma FinalizeWithoutSender(s: State, k: AccountKey, batch: seq<TransferKey>, now: int)
    requires Live(s, k).None?
    ensures FinalizeTransfers(s, k, batch, now) == WithoutRequests(s, batch)
  {
  }

  lemma WithoutOneMore(s: State, batch: seq<TransferKey>)
    requires batch != []
    ensures var n := |batch| - 1;
            var s1 := WithoutRequests(s, batch[..n]);
            WithoutRequests(s, batch) == s1.(finalizations := s1.finalizations - {batch[n]})
  {
  }

  lemma SameStatus(
    s: State, k: AccountKey, t: TransferKey, pending: seq<BalanceChange>, delta: int, opening: int, now: int)
    requires k in s.accounts && Matches(s, t)
    ensures Matches(Sending(s, k, pending), t)
    ensures FinalStatus(Finalizing(Sending(s, k, pending), delta), k, t, opening, now)
            == FinalStatus(Finalizing(s, delta), k, t, opening, now)
    ensures CommittedAmount(Finalizing(Sending(s, k, pending), delta), k, t, opening, now)
            == CommittedAmount(Finalizing(s, delta), k, t, opening, now)
  {
    hide CalcStatusCode;
  }

  lemma EmitOneMore(
    emitted: map<ChangeKey, BalanceChange>, nextId: int, k: AccountKey, pending: seq<BalanceChange>, change: BalanceChange)
    ensures EmitAll(emitted, nextId, k, pending + [change])
            == EmitAll(emitted, nextId, k, pending)[ChangeKey(k.debtor, k.creditor, nextId + |pending|) := change]
  {
    assert (pending + [change])[..|pending|] == pending;
  }

  lemma ReleaseSending(
    s: State, k: AccountKey, t: TransferKey, pending: seq<BalanceChange>, status: StatusCode, committed: int, now: int)
    requires k in s.accounts && Matches(s, t)
    ensures Matches(Sending(s, k, pending), t)
    ensures Release(Sending(s, k, pending), k, t, status, committed, now)
            == Release(s, k, t, status, committed, now).(
                 emitted := Sending(s, k, pending).emitted, nextChangeId := s.nextChangeId + |pending|)
  {
    hide Released, Unlocked, EmitAll;
  }

  lemma FinalizeSendingOne(
    s: State, k: AccountKey, t: TransferKey, pending: seq<BalanceChange>, delta: int, opening: int, now: int,
    change: BalanceChange)
    requires k in s.accounts
    requires IsSent(s, FinalizeOne(Finalizing(s, delta), k, t, opening, now), k, Some(change), delta)
    ensures var f1 := FinalizeOne(Finalizing(s, delta), k, t, opening, now);
            && FinalizeOne(Finalizing(Sending(s, k, pending), delta), k, t, opening, now)
               == Finalizing(
                    Sending(f1.state.(emitted := s.emitted, nextChangeId := s.nextChangeId), k, pending + [change]),
                    delta - change.delta)
            && f1.state.finalizations == s.finalizations - {t}
  {
    hide FinalStatus, CommittedAmount, TransferSignals, Release, EmitAll;
    var status, committed := FinalStatus(Finalizing(s, delta), k, t, opening, now),
        CommittedAmount(Finalizing(s, delta), k, t, opening, now);
    ReleaseFrame(s, k, t, status, committed, now);
    ReleaseSending(s, k, t, pending, status, committed, now);
    SameStatus(s, k, t, pending, delta, opening, now);
    var f1 := FinalizeOne(Finalizing(s, delta), k, t, opening, now);
    assert f1.state.emitted[ChangeKey(k.debtor, k.creditor, s.nextChangeId)] == change;
    EmitOneMore(s.emitted, s.nextChangeId, k, pending, change);
  }

  lemma FinalizeSendingNone(
    s: State, k: AccountKey, t: TransferKey, pending: seq<BalanceChange>, delta: int, opening: int, now: int)
    requires k in s.accounts
    requires IsSent(s, FinalizeOne(Finalizing(s, delta), k, t, opening, now), k, None, delta)
    ensures var f1 := FinalizeOne(Finalizing(s, delta), k, t, opening, now);
            && FinalizeOne(Finalizing(Sending(s, k, pending), delta), k, t, opening, now)
               == Finalizing(Sending(f1.state, k, pending), delta)
            && f1.state == f1.state.(emitted := s.emitted, nextChangeId := s.nextChangeId)
            && f1.state.finalizations == s.finalizations - {t}
  {
    hide FinalStatus, CommittedAmount, TransferSignals, Released, EmitAll;
    if Matches(s, t) {
      SameStatus(s, k, t, pending, delta, opening, now);
    }
  }

  /** Balance changes that wait to be sent do not influence how a request is processed. */
  lemma FinalizeSending(
    s: State, k: AccountKey, t: TransferKey, pending: seq<BalanceChange>, delta: int, opening: int, now: int,
    signal: Option<BalanceChange>)
    requires k in s.accounts
    requires IsSent(s, FinalizeOne(Finalizing(s, delta), k, t, opening, now), k, signal, delta)
    ensures var f1 := FinalizeOne(Finalizing(s, delta), k, t, opening, now);
            && FinalizeOne(Finalizing(Sending(s, k, pending), delta), k, t, opening, now)
               == Finalizing(
                    Sending(f1.state.(emitted := s.emitted, nextChangeId := s.nextChangeId), k,
                            if signal.Some? then pending + [signal.value] else pending),
                    delta - if signal.Some? then signal.value.delta else 0)
            && f1.state.finalizations == s.finalizations - {t}
  {
    hide FinalizeOne, IsSent, Sending;
    match signal
    case None => FinalizeSendingNone(s, k, t, pending, delta, opening, now);
    case Some(change) => FinalizeSendingOne(s, k, t, pending, delta, opening, now, change);
  }

  lemma SendingSet(s: State, k: AccountKey, pending: seq<BalanceChange>)
    ensures Sending(s, k, pending).accounts == s.accounts
    ensures forall a :: SetAccount(Sending(s, k, pending), k, a) == Sending(SetAccount(s, k, a), k, pending)
  {
    hide EmitAll;
  }

  function Collecting(s: State, rejected: seq<RejectedTransferSignal>, preparedSignals: seq<PreparedSignal>): State {
    s.(rejections := s.rejections + rejected, preparations := s.preparations + preparedSignals)
  }

  lemma WithSignals(s: State)
    ensures Collecting(s, [], []) == s
  {
  }

  lemma PreparePart(
    c: Settings, s: State, rk: RequestKey, commitPeriod: int, now: int,
    rejected: seq<RejectedTransferSignal>, preparedSignals: seq<PreparedSignal>)
    requires rk in s.requests && Accepts(s, rk, now)
    ensures var s1, s2 := Prepare(c, s, rk, commitPeriod, now), Collecting(s, rejected, preparedSignals);
            && s1.requests == s.requests - {rk}
            && |s1.preparations| == |s.preparations| + 1
            && Accepts(s2, rk, now)
            && Prepare(c, s2, rk, commitPeriod, now)
               == Collecting(s1.(preparations := s.preparations), rejected,
                             preparedSignals + [s1.preparations[|s.preparations|]])
  {
    hide LockableAmount, NewTransfer, WithLock, RejectionCode, KeepsChanges;
  }

  lemma RejectPart(
    s: State, rk: RequestKey, now: int, rejected: seq<RejectedTransferSignal>, preparedSignals: seq<PreparedSignal>)
    requires rk in s.requests && !Accepts(s, rk, now)
    ensures var s1, s2 := Reject(s, rk, now), Collecting(s, rejected, preparedSignals);
            && s1.requests == s.requests - {rk}
            && |s1.rejections| == |s.rejections| + 1
            && !Accepts(s2, rk, now)
            && Reject(s2, rk, now)
               == Collecting(s1.(rejections := s.rejections), rejected + [s1.rejections[|s.rejections|]],
                             preparedSignals)
  {
    hide LockableAmount, RejectionCode, KeepsChanges;
  }

  /** Signals that wait to be saved do not influence how a request is processed. */
  lemma PrepareCollecting(
    c: Settings, s: State, rk: RequestKey, commitPeriod: int, now: int,
    rejected: seq<RejectedTransferSignal>, preparedSignals: seq<PreparedSignal>, outcome: Outcome)
    requires rk in s.requests
    requires var s1 := PrepareTransfer(c, s, rk, commitPeriod, now);
             && s1.rejections == s.rejections + (if outcome.Rejected? then [outcome.rejected] else [])
             && s1.preparations == s.preparations + (if outcome.Prepared? then [outcome.prepared] else [])
    ensures PrepareTransfer(c, Collecting(s, rejected, preparedSignals), rk, commitPeriod, now)
            == Collecting(
                 PrepareTransfer(c, s, rk, commitPeriod, now).(rejections := s.rejections, preparations := s.preparations),
                 rejected + (if outcome.Rejected? then [outcome.rejected] else []),
                 preparedSignals + (if outcome.Prepared? then [outcome.prepared] else []))
    ensures PrepareTransfer(c, s, rk, commitPeriod, now).requests == s.requests - {rk}
  {
    hide Accepts, KeepsChanges, Prepare, Reject;
    if Accepts(s, rk, now) {
      PreparePart(c, s, rk, commitPeriod, now, rejected, preparedSignals);
      KeptRejections(c, s, rk, commitPeriod, now);
    } else {
      RejectPart(s, rk, now, rejected, preparedSignals);
      KeptPreparations(s, rk, now);
    }
  }

  lemma KeptRejections(c: Settings, s: State, rk: RequestKey, commitPeriod: int, now: int)
    requires rk in s.requests && Accepts(s, rk, now)
    ensures Prepare(c, s, rk, commitPeriod, now).rejections == s.rejections
  {
    hide LockableAmount, NewTransfer, WithLock, RejectionCode;
  }

  lemma KeptPreparations(s: State, rk: RequestKey, now: int)
    requires rk in s.requests && !Accepts(s, rk, now)
    ensures Reject(s, rk, now).preparations == s.preparations
  {
    hide LockableAmount, RejectionCode;
  }

  /** The balance change that a finalization sends is the one that is returned. */
  predicate IsSent(s: State, f': Finalizing, k: AccountKey, signal: Option<BalanceChange>, delta: int) {
    match signal
    case None => f'.delta == delta && f'.state.emitted == s.emitted && f'.state.nextChangeId == s.nextChangeId
    case Some(change) =>
      && 0 < change.delta && f'.delta == delta - change.delta
      && f'.state.emitted == s.emitted[ChangeKey(k.debtor, k.creditor, s.nextChangeId) := change]
      && f'.state.nextChangeId == s.nextChangeId + 1
  }

  /** What finalizing a matching transfer writes, in terms of its status. */
  lemma FinalizeOutcome(s: State, t: TransferKey, delta: int, opening: int, now: int)
    requires t.account in s.accounts && Matches(s, t)
    ensures
      var k, pt, r, a := t.account, s.prepared[t], s.finalizations[t], s.accounts[t.account];
      var expendable := opening + delta - a.totalLocked - MinAccountBalance(k.creditor);
      var status := CalcStatusCode(k.creditor, pt, r.committed, expendable, a.rate, now);
      var committed := if status == Ok then r.committed else 0;
      var f' := FinalizeOne(Finalizing(s, delta), k, t, opening, now);
      && f'.state.accounts == s.accounts[k := Released(k, a, pt, committed, now)]
      && f'.state.finalized == s.finalized + [FinalizedSignal(t, pt.coordinator, pt.preparedAt, now, committed,
                                                              Unlocked(a, pt).totalLocked, status)]
      && f'.state.transfers == s.transfers
           + (if committed > 0 then TransferSignals(k, a, pt.coordinator.kind, pt.recipient, now, -committed, r.note,
                                                    Contain(a.principal - committed)) else [])
      && IsSent(s, f', k,
                if committed > 0
                then Some(BalanceChange(pt.recipient, pt.coordinator.kind, r.note, now, committed, pt.checkedAt))
                else None,
                delta)
  {
    hide CalcStatusCode, TransferSignals, Released, Unlocked;
  }

  /** Unlocking does not change what the account announces. */
  lemma UnlockedColumns(
    k: AccountKey, a: Account, pt: PreparedTransfer, r: FinalizationRequest, committed: int, principal: int, now: int)
    ensures var b := Unlocked(a, pt);
            && b.deleted == a.deleted && b.rate == a.rate && b.principal == a.principal
            && Numbered(k, b, -committed, now).deleted == a.deleted
            && TransferSignals(k, b, pt.coordinator.kind, pt.recipient, now, -committed, r.note, principal)
               == TransferSignals(k, a, pt.coordinator.kind, pt.recipient, now, -committed, r.note, principal)
  {
  }

  lemma LockedColumns(a: Account, amount: int)
    ensures WithLock(a, amount).lastTransferId == a.lastTransferId + 1 && WithLock(a, amount).deleted == a.deleted
  {
  }
}
