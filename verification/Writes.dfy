/** Every procedure that works on one account is a short sequence of writes of three kinds.  What a
    write may do to a row is said once, here; results about columns argue about single writes. */
module Writes {
  import opened Models
  import opened Steps
  import opened Frames

  datatype Write =
    | Note(capitalizationTs: int, deletionAttemptTs: int)
    | Send(row: Account)
    | Money(coordinatorType: string, note: string, amount: int)

  function WriteOne(s: State, k: AccountKey, w: Write): (s': State)
    ensures s'.now == s.now && (k in s.accounts ==> k in s'.accounts)
  {
    match w
    case Note(ct, dt) =>
      if k in s.accounts then SetAccount(s, k, s.accounts[k].(capitalizationTs := ct, deletionAttemptTs := dt)) else s
    case Send(row) => SendUpdate(s, k, row, s.now)
    case Money(coordinatorType, note, amount) =>
      if k in s.accounts then Pay(s, k, coordinatorType, note, amount, s.now) else s
  }

  function WriteAll(s: State, k: AccountKey, ws: seq<Write>): (s': State)
    ensures s'.now == s.now
    decreases |ws|
  {
    if ws == [] then s else WriteAll(WriteOne(s, k, ws[0]), k, ws[1..])
  }

  /** The rows that an update signal may announce, and the event that makes each of them. */
  predicate MaySend(c: Settings, s: State, k: AccountKey, row: Account, e: Event) {
    var a := RowOf(s, k);
    || row == a
    || (a.deleted && row == Bumped(a, s.now).(deleted := false))
    || (e.EConfigure? && row == Configured(k, a, e.message, s.now) && IsValidConfig(k.creditor, e.message)
        && (k in s.accounts ==> ConfigLater(e.message.ts, e.message.seqnum, a.configTs, a.configSeqnum)))
    || (e.EChangeRate? && !a.deleted && row == RateChanged(k, a, Clamp(c, e.rate), s.now)
        && c.signalbusMaxDelay + DAY <= s.now - a.rateChangeTs && s.now - e.ts <= DAY)
    || (e.EUpdateDebtorInfo? && !a.deleted && row == Bumped(a, s.now).(debtorInfo := e.info))
    || (e.ETryToDelete? && !a.deleted && a.ScheduledForDeletion() && row == Deleted(a, s.now))
  }

  predicate MayWrite(c: Settings, s: State, k: AccountKey, w: Write, e: Event) {
    match w
    case Note(_, _) => k in s.accounts && !s.accounts[k].deleted
    case Send(row) => MaySend(c, s, k, row, e)
    case Money(_, _, _) => k in s.accounts && !s.accounts[k].deleted
  }

  predicate MayWriteAll(c: Settings, s: State, k: AccountKey, ws: seq<Write>, e: Event)
    decreases |ws|
  {
    ws == [] || (MayWrite(c, s, k, ws[0], e) && MayWriteAll(c, WriteOne(s, k, ws[0]), k, ws[1..], e))
  }

  // ---- Writing

  lemma OneWrite(c: Settings, s: State, k: AccountKey, w: Write, e: Event)
    requires MayWrite(c, s, k, w, e)
    ensures WriteAll(s, k, [w]) == WriteOne(s, k, w) && MayWriteAll(c, s, k, [w], e)
  {
    hide WriteOne, MayWrite;
    assert WriteAll(WriteOne(s, k, w), k, []) == WriteOne(s, k, w);
    assert MayWriteAll(c, WriteOne(s, k, w), k, [], e);
    assert [w][1..] == [];
  }

  lemma TwoWrites(c: Settings, s: State, k: AccountKey, w: Write, x: Write, e: Event)
    requires MayWrite(c, s, k, w, e) && MayWrite(c, WriteOne(s, k, w), k, x, e)
    ensures WriteAll(s, k, [w, x]) == WriteOne(WriteOne(s, k, w), k, x) && MayWriteAll(c, s, k, [w, x], e)
  {
    hide WriteOne, MayWrite;
    OneWrite(c, WriteOne(s, k, w), k, x, e);
    assert [w, x][1..] == [x];
  }

  lemma ThreeWrites(c: Settings, s: State, k: AccountKey, w: Write, x: Write, y: Write, e: Event)
    requires MayWrite(c, s, k, w, e) && MayWrite(c, WriteOne(s, k, w), k, x, e)
    requires MayWrite(c, WriteOne(WriteOne(s, k, w), k, x), k, y, e)
    ensures WriteAll(s, k, [w, x, y]) == WriteOne(WriteOne(WriteOne(s, k, w), k, x), k, y)
    ensures MayWriteAll(c, s, k, [w, x, y], e)
  {
    hide WriteOne, MayWrite;
    TwoWrites(c, WriteOne(s, k, w), k, x, y, e);
    assert [w, x, y][1..] == [x, y];
  }

  // ---- Procedures as writes

  lemma ConfigureWrites(c: Settings, s: State, k: AccountKey, m: Configuration) returns (ws: seq<Write>)
    ensures var s' := ConfigureAccount(c, s, k, m, s.now);
            WriteAll(s, k, ws).(rejectedConfigs := s'.rejectedConfigs) == s'
    ensures MayWriteAll(c, s, k, ws, EConfigure(k, m))
  {
    hide Configured, SendUpdate, NewAccount;
    if ConfigureAccount(c, s, k, m, s.now) == SendUpdate(s, k, Configured(k, RowOf(s, k), m, s.now), s.now)
       && IsValidConfig(k.creditor, m)
       && (k in s.accounts ==> ConfigLater(m.ts, m.seqnum, s.accounts[k].configTs, s.accounts[k].configSeqnum)) {
      ws := [Send(Configured(k, RowOf(s, k), m, s.now))];
      OneWrite(c, s, k, ws[0], EConfigure(k, m));
      SentConfigs(s, k, ws[0].row);
    } else {
      ws := [];
    }
  }

  lemma SentConfigs(s: State, k: AccountKey, row: Account)
    ensures SendUpdate(s, k, row, s.now).rejectedConfigs == s.rejectedConfigs
  {
  }

  lemma ChangeRateWrites(c: Settings, s: State, k: AccountKey, rate: real, ts: int) returns (ws: seq<Write>)
    ensures WriteAll(s, k, ws) == ChangeRate(c, s, k, rate, ts, s.now)
    ensures MayWriteAll(c, s, k, ws, EChangeRate(k, rate, ts))
  {
    hide RateChanged, SendUpdate, Clamp;
    ws := [];
    if ChangeRate(c, s, k, rate, ts, s.now) != s {
      ws := [Send(RateChanged(k, s.accounts[k], Clamp(c, rate), s.now))];
      OneWrite(c, s, k, ws[0], EChangeRate(k, rate, ts));
    }
  }

  lemma DebtorInfoWrites(c: Settings, s: State, k: AccountKey, info: Option<string>, ts: int) returns (ws: seq<Write>)
    ensures WriteAll(s, k, ws) == UpdateDebtorInfo(s, k, info, ts, s.now)
    ensures MayWriteAll(c, s, k, ws, EUpdateDebtorInfo(k, info, ts))
  {
    hide Bumped, SendUpdate;
    ws := [];
    if UpdateDebtorInfo(s, k, info, ts, s.now) != s {
      ws := [Send(Bumped(s.accounts[k], s.now).(debtorInfo := info))];
      OneWrite(c, s, k, ws[0], EUpdateDebtorInfo(k, info, ts));
    }
  }

  lemma HeartbeatWrites(c: Settings, s: State, k: AccountKey) returns (ws: seq<Write>)
    ensures WriteAll(s, k, ws) == SendHeartbeat(c, s, k, s.now)
    ensures MayWriteAll(c, s, k, ws, EHeartbeat(k))
  {
    hide SendUpdate;
    ws := [];
    if SendHeartbeat(c, s, k, s.now) != s {
      ws := [Send(s.accounts[k])];
      OneWrite(c, s, k, ws[0], EHeartbeat(k));
    }
  }

  lemma CapitalizeWrites(c: Settings, s: State, k: AccountKey, minInterval: int) returns (ws: seq<Write>)
    ensures WriteAll(s, k, ws) == Capitalize(s, k, minInterval, s.now)
    ensures MayWriteAll(c, s, k, ws, ECapitalize(k, minInterval))
  {
    hide AccumulatedInterest, Pay;
    ws := [];
    if Capitalize(s, k, minInterval, s.now) != s {
      var a := s.accounts[k];
      var amount := Contain(AccumulatedInterest(k, a, s.now).Floor);
      ws := [Note(s.now, a.deletionAttemptTs), Money(CT_INTEREST, "", amount)];
      assert SetAccount(s, k, a.(capitalizationTs := s.now)) == WriteOne(s, k, ws[0]);
      TwoWrites(c, s, k, ws[0], ws[1], ECapitalize(k, minInterval));
    }
  }

  lemma DeleteWrites(c: Settings, s: State, k: AccountKey) returns (ws: seq<Write>)
    requires -MAX_INT64 <= RowOf(s, k).principal <= MAX_INT64
    ensures WriteAll(s, k, ws) == TryToDelete(s, k, s.now)
    ensures MayWriteAll(c, s, k, ws, ETryToDelete(k))
  {
    hide Balance, IsNegligibleBalance, Pay, SendUpdate, Deleted;
    ws := [];
    if Live(s, k).Some? && k.creditor != ROOT_CREDITOR_ID {
      var a := s.accounts[k];
      var note := Note(a.capitalizationTs, s.now);
      var s1 := SetAccount(s, k, a.(deletionAttemptTs := s.now));
      assert s1 == WriteOne(s, k, note);
      if CanBeDeleted(k, a, s.now) {
        PaidBack(s1, k);
        PaidBackFlags(s1, k);
        var s2 := Pay(s1, k, CT_DELETE, "", -a.principal, s.now);
        ws := [note, Money(CT_DELETE, "", -a.principal), Send(Deleted(s2.accounts[k], s.now))];
        ThreeWrites(c, s, k, ws[0], ws[1], ws[2], ETryToDelete(k));
      } else {
        ws := [note];
        OneWrite(c, s, k, note, ETryToDelete(k));
      }
    }
  }

  lemma PaidBackFlags(s: State, k: AccountKey)
    requires k in s.accounts && s.accounts[k].ScheduledForDeletion()
    ensures Pay(s, k, CT_DELETE, "", -s.accounts[k].principal, s.now).accounts[k].ScheduledForDeletion()
  {
    hide AccumulatedInterest, TransferSignals;
  }

  lemma LockWrites(c: Settings, s: State, k: AccountKey, e: Event) returns (ws: seq<Write>)
    ensures WriteAll(s, k, ws) == LockOrCreate(s, k, s.now)
    ensures MayWriteAll(c, s, k, ws, e)
  {
    hide SendUpdate, Bumped, NewAccount;
    ws := [];
    if k !in s.accounts {
      ws := [Send(NewAccount(s.now))];
      OneWrite(c, s, k, ws[0], e);
    } else if s.accounts[k].deleted {
      ws := [Send(Bumped(s.accounts[k], s.now).(deleted := false))];
      OneWrite(c, s, k, ws[0], e);
    }
  }

  lemma PaymentWrites(c: Settings, s: State, k: AccountKey, coordinatorType: string, note: string, amount: int)
    returns (ws: seq<Write>)
    ensures WriteAll(s, k, ws) == MakeDebtorPayment(s, k, coordinatorType, note, amount, s.now)
    ensures MayWriteAll(c, s, k, ws, EPay(k, coordinatorType, note, amount))
  {
    hide LockOrCreate, Pay, WriteAll, MayWriteAll;
    var e, money := EPay(k, coordinatorType, note, amount), Money(coordinatorType, note, amount);
    var first := LockWrites(c, s, k, e);
    ws := first + [money];
    OneWrite(c, LockOrCreate(s, k, s.now), k, money, e);
    Append(c, s, k, first, [money], e);
  }

  lemma {:induction false} Append(c: Settings, s: State, k: AccountKey, ws: seq<Write>, xs: seq<Write>, e: Event)
    requires MayWriteAll(c, s, k, ws, e) && MayWriteAll(c, WriteAll(s, k, ws), k, xs, e)
    ensures WriteAll(s, k, ws + xs) == WriteAll(WriteAll(s, k, ws), k, xs)
    ensures MayWriteAll(c, s, k, ws + xs, e)
    decreases |ws|
  {
    hide WriteOne, MayWrite;
    if ws == [] {
      assert ws + xs == xs;
    } else {
      Append(c, WriteOne(s, k, ws[0]), k, ws[1..], xs, e);
      assert (ws + xs)[1..] == ws[1..] + xs;
    }
  }

  /** Every event on one account is a sequence of such writes, apart from rejected configurations. */
  lemma AccountEventWrites(c: Settings, s: State, e: Event, now: int) returns (ws: seq<Write>)
    requires Enabled(s, e) && IsAccountEvent(e)
    requires -MAX_INT64 <= RowOf(s.(now := now), KeyOf(e)).principal <= MAX_INT64
    ensures var s' := Step(c, s, e, now);
            WriteAll(s.(now := now), KeyOf(e), ws).(rejectedConfigs := s'.rejectedConfigs) == s'
    ensures MayWriteAll(c, s.(now := now), KeyOf(e), ws, e)
  {
    AccountEventKinds(e);
    hide *;
    var s0 := s.(now := now);
    StepCases(c, s, e, now);
    match e {
      case EConfigure(k, m) => ws := ConfigureWrites(c, s0, k, m);
      case EChangeRate(k, rate, ts) => ws := ChangeRateWrites(c, s0, k, rate, ts);
      case EUpdateDebtorInfo(k, info, ts) => ws := DebtorInfoWrites(c, s0, k, info, ts);
      case ECapitalize(k, minInterval) => ws := CapitalizeWrites(c, s0, k, minInterval);
      case ETryToDelete(k) => ws := DeleteWrites(c, s0, k);
      case EPay(k, coordinatorType, note, amount) => ws := PaymentWrites(c, s0, k, coordinatorType, note, amount);
      case EHeartbeat(k) => ws := HeartbeatWrites(c, s0, k);
    }
  }
}
