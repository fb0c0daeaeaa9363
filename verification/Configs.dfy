/** Configuration messages: whatever the network does with them, an account ends in the latest one;
    and no old message brings a purged account back. */
module Configs {
  import opened Models
  import opened Steps
  import opened Frames
  import opened Rows
  import opened Locks
  import opened Changes
  import opened Writes
  import opened Rates
  import opened Runs
  import opened IdealLedger

  // ---- One step

  /** The account is configured as the message says. */
  predicate HasConfig(a: Account, m: Configuration) {
    && a.configTs == m.ts && a.configSeqnum == m.seqnum
    && a.configFlags == m.flags && a.configData == m.data && a.negligible == m.negligible
  }

  /** A message takes effect when it is valid and later than the configuration of the account. */
  predicate TakesEffect(k: AccountKey, a: Account, m: Configuration) {
    IsValidConfig(k.creditor, m) && ConfigLater(m.ts, m.seqnum, a.configTs, a.configSeqnum)
  }

  lemma ConfigureExisting(c: Settings, s: State, k: AccountKey, m: Configuration)
    requires k in s.accounts
    ensures var s' := ConfigureAccount(c, s, k, m, s.now);
            && k in s'.accounts
            && (TakesEffect(k, s.accounts[k], m) ==> HasConfig(s'.accounts[k], m) && !s'.accounts[k].deleted)
            && (!TakesEffect(k, s.accounts[k], m) ==> s'.accounts == s.accounts)
  {
    hide AccumulatedInterest, UpdateOf, IsValidConfig, ConfigLater;
  }

  lemma AccountSettings(c: Settings, s: State, e: Event, now: int, k: AccountKey)
    requires c.Valid() && RowsOk(c, s) && s.now <= now && Enabled(s, e) && IsAccountEvent(e)
    requires !(e.EConfigure? && e.key == k)
    ensures var s0, s' := s.(now := now), Step(c, s, e, now);
            SameConfig(RowOf(s0, k), RowOf(s', k)) && IsOnward(RowOf(s0, k), RowOf(s', k))
  {
    hide Step, Enabled, RowsOk, AccountStep, WriteAll, MayWriteAll, NewAccount;
    var s0, s' := s.(now := now), Step(c, s, e, now);
    AccountEventFrame(c, s, e, now);
    AccountStepTables(s0, s', KeyOf(e));
    if KeyOf(e) == k {
      RowsLater(c, s, now);
      PrincipalOk(c, s0, k);
      var ws := AccountEventWrites(c, s, e, now);
      WriteAllConfig(c, s0, k, ws, e);
    }
  }

  /** Only a configuration message changes the configuration of an account that continues to exist,
      and nothing moves the time of its last change back. */
  lemma SettingsStep(c: Settings, s: State, e: Event, now: int, k: AccountKey)
    requires c.Valid() && RowsOk(c, s) && s.now <= now && Enabled(s, e) && !(e.EConfigure? && e.key == k)
    requires k in s.accounts && k in Step(c, s, e, now).accounts
    ensures var s' := Step(c, s, e, now);
            SameConfig(s.accounts[k], s'.accounts[k]) && IsOnward(s.accounts[k], s'.accounts[k])
  {
    RowMeaning(s, now, k);
    var s' := Step(c, s, e, now);
    RowFound(s', k);
    hide *;
    var s0 := s.(now := now);
    StepCases(c, s, e, now);
    EventKinds(e);
    if IsAccountEvent(e) {
      AccountSettings(c, s, e, now, k);
    } else if IsQueueEvent(e) {
      QueueFrame(c, s, e, now);
      QueueRates(s0, s', k);
    } else {
      match e
      case EPrepare(rk, commitPeriod) => PrepareRates(c, s0, rk, commitPeriod, k);
      case EFinalize(j, batch) => FinalizeRates(s0, j, batch, k);
      case EApply(j, batch) => ApplyRates(c, s0, j, batch, k);
      case EPurge(j) => NotPurged(c, s0, j, k);
    }
  }

  lemma RowFound(s: State, k: AccountKey)
    requires k in s.accounts
    ensures RowOf(s, k) == s.accounts[k]
  {
  }

  lemma RowMeaning(s: State, now: int, k: AccountKey)
    requires k in s.accounts
    ensures RowOf(s.(now := now), k) == s.accounts[k]
    ensures forall b :: SameSettings(s.accounts[k], b) ==> SameConfig(s.accounts[k], b) && IsOnward(s.accounts[k], b)
  {
  }

  lemma NotPurged(c: Settings, s: State, j: AccountKey, k: AccountKey)
    requires k in s.accounts && k in PurgeAccount(c, s, j, s.now).accounts
    ensures SameSettings(RowOf(s, k), RowOf(PurgeAccount(c, s, j, s.now), k))
  {
  }

  // ---- Convergence

  /** A configuration message that is delivered to the account by a step of the run. */
  predicate Delivers(r: Run, k: AccountKey, i: nat, m: Configuration)
    requires i < |r.steps|
  {
    r.steps[i].event == EConfigure(k, m) && IsValidConfig(k.creditor, m)
  }

  predicate Exists(r: Run, k: AccountKey, i: nat, n: nat)
    requires i <= n < |r.states|
  {
    forall t :: i <= t <= n ==> k in r.states[t].accounts
  }

  /** The message is not earlier than what the account has. */
  predicate IsUpToDate(a: Account, m: Configuration) {
    HasConfig(a, m) || ConfigLater(m.ts, m.seqnum, a.configTs, a.configSeqnum)
  }

  /** Two copies of a message; whether the data parses is a property of the data. */
  predicate SameContent(m: Configuration, other: Configuration) {
    && m.ts == other.ts && m.seqnum == other.seqnum
    && m.flags == other.flags && m.data == other.data && m.negligible == other.negligible
  }

  /** Every other valid message that is delivered in this part of the run is earlier. */
  ghost predicate IsLatest(r: Run, k: AccountKey, i: nat, n: nat, m: Configuration)
    requires i <= n <= |r.steps|
  {
    forall t, other :: i <= t < n && Delivers(r, k, t, other) ==>
      SameContent(m, other) || ConfigLater(m.ts, m.seqnum, other.ts, other.seqnum)
  }

  lemma NotBoth(m: Configuration, other: Configuration)
    requires ConfigLater(m.ts, m.seqnum, other.ts, other.seqnum)
    ensures !ConfigLater(other.ts, other.seqnum, m.ts, m.seqnum)
  {
    var d := m.seqnum - other.seqnum;
    assert (-d) % SEQNUM_SPAN == if d % SEQNUM_SPAN == 0 then 0 else SEQNUM_SPAN - d % SEQNUM_SPAN;
  }

  /** One step brings the account to the latest message, or keeps it there, or leaves it behind. */
  lemma ConvergenceStep(c: Settings, r: Run, k: AccountKey, i: nat, n: nat, m: Configuration, t: nat)
    requires IsRun(c, r) && i <= t < n <= |r.steps| && Exists(r, k, i, n) && IsLatest(r, k, i, n, m)
    requires IsUpToDate(r.states[t].accounts[k], m)
    ensures IsUpToDate(r.states[t + 1].accounts[k], m)
    ensures HasConfig(r.states[t].accounts[k], m) || Delivers(r, k, t, m) ==> HasConfig(r.states[t + 1].accounts[k], m)
  {
    hide Step, Enabled, RowsOk, LocksOk, QueuesOk, IsValidConfig;
    PrefixTo(c, r, t);
    AlwaysConsistent(c, PrefixRun(r, t));
    var s, e, now := r.states[t], r.steps[t].event, r.steps[t].now;
    assert IsStep(c, s, r.steps[t], r.states[t + 1]);
    if e.EConfigure? && e.key == k {
      StepCases(c, s, e, now);
      ConfigureExisting(c, s.(now := now), k, e.message);
      if IsValidConfig(k.creditor, e.message) {
        assert Delivers(r, k, t, e.message);
        if !SameContent(m, e.message) {
          NotBoth(m, e.message);
        }
      }
    } else {
      SettingsStep(c, s, e, now, k);
    }
  }

  /** Configuration convergence: while an account continues to exist, it ends in the configuration
      of the latest valid message, in whatever order and however often the messages are delivered. */
  lemma {:induction false} ConfigConverges(
    c: Settings, r: Run, k: AccountKey, i: nat, n: nat, m: Configuration, delivered: nat)
    requires IsRun(c, r) && i <= delivered < n <= |r.steps| && Exists(r, k, i, n) && IsLatest(r, k, i, n, m)
    requires Delivers(r, k, delivered, m) && IsUpToDate(r.states[i].accounts[k], m)
    ensures HasConfig(r.states[n].accounts[k], m)
  {
    hide IsRun, IsLatest, Delivers, HasConfig, IsUpToDate;
    UpToDate(c, r, k, i, n, m, delivered);
    StaysThere(c, r, k, i, n, m, delivered + 1, n);
  }

  lemma {:induction false} UpToDate(c: Settings, r: Run, k: AccountKey, i: nat, n: nat, m: Configuration, t: nat)
    requires IsRun(c, r) && i <= t < n <= |r.steps| && Exists(r, k, i, n) && IsLatest(r, k, i, n, m)
    requires IsUpToDate(r.states[i].accounts[k], m)
    ensures IsUpToDate(r.states[t].accounts[k], m)
    ensures Delivers(r, k, t, m) ==> HasConfig(r.states[t + 1].accounts[k], m)
  {
    hide IsRun, IsLatest, Delivers, HasConfig, IsUpToDate;
    if i < t {
      UpToDate(c, r, k, i, n, m, t - 1);
      ConvergenceStep(c, r, k, i, n, m, t - 1);
    }
    ConvergenceStep(c, r, k, i, n, m, t);
  }

  lemma {:induction false} StaysThere(
    c: Settings, r: Run, k: AccountKey, i: nat, n: nat, m: Configuration, from: nat, t: nat)
    requires IsRun(c, r) && i <= from <= t <= n <= |r.steps| && Exists(r, k, i, n) && IsLatest(r, k, i, n, m)
    requires HasConfig(r.states[from].accounts[k], m)
    ensures HasConfig(r.states[t].accounts[k], m)
    decreases t
  {
    hide IsRun, IsLatest, Delivers, HasConfig;
    if from < t {
      StaysThere(c, r, k, i, n, m, from, t - 1);
      ConvergenceStep(c, r, k, i, n, m, t - 1);
    }
  }

  /** Messages that are not valid never change any account. */
  lemma InvalidConfigIsRejected(c: Settings, s: State, k: AccountKey, m: Configuration)
    requires !IsValidConfig(k.creditor, m)
    ensures var s' := ConfigureAccount(c, s, k, m, s.now);
            s'.accounts == s.accounts && s'.updates == s.updates
            && (s' == s || s'.rejectedConfigs == s.rejectedConfigs + [RejectedConfigSignal(k, m)])
  {
    hide ConfigLater, IsValidConfig, Configured, SendUpdate;
  }

  // ---- The latest message exists within half of the sequence numbers

  predicate InWindow(base: int, seqnum: int) {
    (seqnum - base) % SEQNUM_SPAN < SEQNUM_SPAN / 2
  }

  /** Within half of the wrapped numbers, later is a linear order. */
  lemma LaterInWindow(base: int, x: int, y: int)
    requires InWindow(base, x) && InWindow(base, y)
    ensures SeqnumLater(x, y) <==> (x - base) % SEQNUM_SPAN > (y - base) % SEQNUM_SPAN
  {
    var dx, dy := (x - base) % SEQNUM_SPAN, (y - base) % SEQNUM_SPAN;
    assert (x - y) % SEQNUM_SPAN == (dx - dy) % SEQNUM_SPAN by {
      assert x - y == (dx - dy) + SEQNUM_SPAN * ((x - base) / SEQNUM_SPAN - (y - base) / SEQNUM_SPAN);
      ModShift(dx - dy, (x - base) / SEQNUM_SPAN - (y - base) / SEQNUM_SPAN);
    }
  }

  lemma ModShift(d: int, n: int)
    ensures (d + SEQNUM_SPAN * n) % SEQNUM_SPAN == d % SEQNUM_SPAN
  {
    var q, p := (d + SEQNUM_SPAN * n) / SEQNUM_SPAN, d / SEQNUM_SPAN;
    assert d + SEQNUM_SPAN * n - SEQNUM_SPAN * q == d - SEQNUM_SPAN * p + SEQNUM_SPAN * (n - q + p);
  }

  /** Messages with the same timestamp are numbered within half of the sequence numbers, and no two
      different messages have the same number. */
  predicate AreOrdered(ms: seq<Configuration>, bases: int -> int) {
    && (forall i :: 0 <= i < |ms| ==> InWindow(bases(ms[i].ts), ms[i].seqnum))
    && forall i, j :: 0 <= i < j < |ms| && ms[i].ts == ms[j].ts
         && (ms[i].seqnum - bases(ms[i].ts)) % SEQNUM_SPAN == (ms[j].seqnum - bases(ms[j].ts)) % SEQNUM_SPAN
         ==> SameContent(ms[i], ms[j])
  }

  /** Of such messages one is the latest, so the premise of the convergence can be met. */
  lemma {:induction false} LatestExists(ms: seq<Configuration>, bases: int -> int) returns (latest: nat)
    requires ms != [] && AreOrdered(ms, bases)
    ensures latest < |ms|
    ensures forall i :: 0 <= i < |ms| ==>
              SameContent(ms[latest], ms[i]) || ConfigLater(ms[latest].ts, ms[latest].seqnum, ms[i].ts, ms[i].seqnum)
  {
    hide InWindow, SeqnumLater;
    var n := |ms| - 1;
    latest := n;
    if n > 0 {
      latest := LatestExists(ms[..n], bases);
      var m, other := ms[latest], ms[n];
      if m.ts == other.ts {
        LaterInWindow(bases(m.ts), m.seqnum, other.seqnum);
        LaterInWindow(bases(m.ts), other.seqnum, m.seqnum);
      }
      if !SameContent(m, other) && !ConfigLater(m.ts, m.seqnum, other.ts, other.seqnum) {
        forall i | 0 <= i < n
          ensures ConfigLater(other.ts, other.seqnum, ms[i].ts, ms[i].seqnum)
        {
          assert ms[..n][i] == ms[i];
          if SameContent(m, ms[i]) {
            LaterThanCopy(other, m, ms[i]);
          } else if m.ts == other.ts == ms[i].ts {
            LaterInWindow(bases(m.ts), m.seqnum, ms[i].seqnum);
            LaterInWindow(bases(m.ts), other.seqnum, ms[i].seqnum);
          }
        }
        latest := n;
      }
    }
  }

  lemma LaterThanCopy(other: Configuration, m: Configuration, copy: Configuration)
    requires SameContent(m, copy) && ConfigLater(other.ts, other.seqnum, m.ts, m.seqnum)
    ensures ConfigLater(other.ts, other.seqnum, copy.ts, copy.seqnum)
  {
  }

  // ---- Convergence to the latest message

  /** The valid messages that are delivered to the account in this part of the run. */
  function Delivered(r: Run, k: AccountKey, i: nat, n: nat): seq<Configuration>
    requires i <= n <= |r.steps|
    decreases n
  {
    if i == n then []
    else
      var e := r.steps[n - 1].event;
      Delivered(r, k, i, n - 1)
      + if e.EConfigure? && e.key == k && IsValidConfig(k.creditor, e.message) then [e.message] else []
  }

  lemma {:induction false} DeliveredMessages(r: Run, k: AccountKey, i: nat, n: nat)
    requires i <= n <= |r.steps|
    ensures forall t, m :: i <= t < n && Delivers(r, k, t, m) ==> m in Delivered(r, k, i, n)
    ensures forall m <- Delivered(r, k, i, n) :: exists t :: i <= t < n && Delivers(r, k, t, m)
    decreases n
  {
    hide IsValidConfig;
    if i < n {
      DeliveredMessages(r, k, i, n - 1);
      forall m | m in Delivered(r, k, i, n)
        ensures exists t :: i <= t < n && Delivers(r, k, t, m)
      {
        if m !in Delivered(r, k, i, n - 1) {
          assert Delivers(r, k, n - 1, m);
        }
      }
    }
  }

  /** What the account has, as a message. */
  function ConfigOf(a: Account): Configuration {
    Configuration(a.configTs, a.configSeqnum, a.negligible, a.configFlags, a.configData, true)
  }

  /** Configuration convergence in one statement: if what the account has, and the valid messages
      delivered while it exists, are numbered within half of the wrapped numbers, then the account
      ends in the latest of them. */
  lemma ConfigEndsInLatest(c: Settings, r: Run, k: AccountKey, i: nat, n: nat, bases: int -> int)
    returns (m: Configuration)
    requires IsRun(c, r) && i <= n <= |r.steps| && Exists(r, k, i, n)
    requires AreOrdered([ConfigOf(r.states[i].accounts[k])] + Delivered(r, k, i, n), bases)
    ensures m == ConfigOf(r.states[i].accounts[k]) || m in Delivered(r, k, i, n)
    ensures forall other <- [ConfigOf(r.states[i].accounts[k])] + Delivered(r, k, i, n) ::
              SameContent(m, other) || ConfigLater(m.ts, m.seqnum, other.ts, other.seqnum)
    ensures HasConfig(r.states[n].accounts[k], m)
  {
    hide IsStep, AreOrdered, ConfigLater, Delivers;
    var first := ConfigOf(r.states[i].accounts[k]);
    var ms := [first] + Delivered(r, k, i, n);
    var latest := LatestExists(ms, bases);
    m := ms[latest];
    DeliveredMessages(r, k, i, n);
    assert forall other :: other in ms <==> other == first || other in Delivered(r, k, i, n);
    assert ms[0] == first;
    if latest == 0 {
      StaysThere(c, r, k, i, n, m, i, n);
    } else {
      assert m == Delivered(r, k, i, n)[latest - 1];
      assert m in Delivered(r, k, i, n);
      var t :| i <= t < n && Delivers(r, k, t, m);
      ConfigConverges(c, r, k, i, n, m, t);
    }
  }

  // ---- Purged accounts

  /** A configuration message is never processed before its timestamp. */
  predicate IsPunctual(e: Event, now: int) {
    e.EConfigure? ==> e.message.ts <= now
  }

  /** The configuration of an account is not newer than its last change; and whatever has been
      purged was configured long before. */
  predicate PurgedOk(c: Settings, s: State) {
    && (forall k :: k in s.accounts ==> s.accounts[k].configTs <= s.accounts[k].lastChangeTs)
    && (forall purged <- s.purgedConfigs :: purged.1 + c.PurgeDelay() < s.now)
  }

  lemma NewAccountConfig(c: Settings, s: State, e: Event, now: int, k: AccountKey)
    requires c.Valid() && RowsOk(c, s) && s.now <= now && Enabled(s, e) && IsPunctual(e, now)
    requires k in Step(c, s, e, now).accounts
    requires k in s.accounts ==> s.accounts[k].configTs <= s.accounts[k].lastChangeTs
    ensures var a := Step(c, s, e, now).accounts[k]; a.configTs <= a.lastChangeTs
  {
    hide Step, Enabled, RowsOk, ConfigureAccount;
    StepCases(c, s, e, now);
    if e.EConfigure? && e.key == k {
      ConfiguredInTime(c, s.(now := now), k, e.message);
    } else if k in s.accounts {
      SettingsStep(c, s, e, now, k);
    } else {
      CreatedInTime(c, s, e, now, k);
    }
    Clock(c, s);
  }

  lemma Clock(c: Settings, s: State)
    requires RowsOk(c, s)
    ensures T0 <= s.now
  {
  }

  lemma ConfiguredInTime(c: Settings, s: State, k: AccountKey, m: Configuration)
    requires m.ts <= s.now && (k in s.accounts ==> s.accounts[k].configTs <= s.accounts[k].lastChangeTs)
    requires k in ConfigureAccount(c, s, k, m, s.now).accounts
    ensures var a := ConfigureAccount(c, s, k, m, s.now).accounts[k]; a.configTs <= a.lastChangeTs
  {
    hide AccumulatedInterest, UpdateOf, ConfigLater, IsValidConfig;
  }

  /** An account that is created by something else than a message is not configured yet. */
  lemma CreatedInTime(c: Settings, s: State, e: Event, now: int, k: AccountKey)
    requires c.Valid() && RowsOk(c, s) && s.now <= now && Enabled(s, e) && !(e.EConfigure? && e.key == k)
    requires k !in s.accounts && k in Step(c, s, e, now).accounts
    ensures var a := Step(c, s, e, now).accounts[k]; a.configTs == T0 && now <= a.lastChangeTs
  {
    MissingRow(s, now, k);
    var s' := Step(c, s, e, now);
    RowFound(s', k);
    hide *;
    var s0 := s.(now := now);
    StepCases(c, s, e, now);
    EventKinds(e);
    if IsAccountEvent(e) {
      AccountSettings(c, s, e, now, k);
      MissingConfig(s0, s', k);
    } else if IsQueueEvent(e) {
      QueueFrame(c, s, e, now);
      QueueRates(s0, s', k);
      MissingConfig(s0, s', k);
    } else {
      match e
      case EPrepare(rk, commitPeriod) =>
        PrepareRates(c, s0, rk, commitPeriod, k);
        MissingConfig(s0, s', k);
      case EFinalize(j, batch) =>
        FinalizeRates(s0, j, batch, k);
        MissingConfig(s0, s', k);
      case EApply(j, batch) =>
        ApplyRates(c, s0, j, batch, k);
        MissingConfig(s0, s', k);
      case EPurge(j) => StillMissing(c, s0, j, k);
    }
  }

  lemma MissingRow(s: State, now: int, k: AccountKey)
    requires k !in s.accounts
    ensures k !in s.(now := now).accounts && s.(now := now).now == now
  {
  }

  lemma MissingConfig(s: State, s': State, k: AccountKey)
    requires k !in s.accounts && k in s'.accounts
    requires SameSettings(RowOf(s, k), RowOf(s', k))
             || (SameConfig(RowOf(s, k), RowOf(s', k)) && IsOnward(RowOf(s, k), RowOf(s', k)))
    ensures s'.accounts[k].configTs == T0 && s.now <= s'.accounts[k].lastChangeTs
  {
  }

  lemma StillMissing(c: Settings, s: State, j: AccountKey, k: AccountKey)
    requires k !in s.accounts
    ensures k !in PurgeAccount(c, s, j, s.now).accounts
  {
  }

  lemma PurgedStep(c: Settings, s: State, e: Event, now: int)
    requires c.Valid() && RowsOk(c, s) && PurgedOk(c, s) && s.now <= now && Enabled(s, e) && IsPunctual(e, now)
    ensures PurgedOk(c, Step(c, s, e, now))
  {
    hide Step, Enabled, RowsOk, IsPunctual;
    var s' := Step(c, s, e, now);
    StepClock(c, s, e, now);
    forall k | k in s'.accounts
      ensures s'.accounts[k].configTs <= s'.accounts[k].lastChangeTs
    {
      NewAccountConfig(c, s, e, now, k);
    }
    PurgeRecords(c, s, e, now);
  }

  lemma PurgeRecords(c: Settings, s: State, e: Event, now: int)
    requires c.Valid() && RowsOk(c, s) && PurgedOk(c, s) && s.now <= now && Enabled(s, e)
    ensures var s' := Step(c, s, e, now);
            forall purged <- s'.purgedConfigs :: purged.1 + c.PurgeDelay() < now
  {
    hide Step, Enabled, RowsOk, AccountStep;
    StepCases(c, s, e, now);
    if !e.EPurge? {
      KeepsRecords(c, s, e, now);
    }
  }

  lemma KeepsRecords(c: Settings, s: State, e: Event, now: int)
    requires c.Valid() && RowsOk(c, s) && s.now <= now && Enabled(s, e) && !e.EPurge?
    ensures Step(c, s, e, now).purgedConfigs == s.purgedConfigs
  {
    hide *;
    var s0, s' := s.(now := now), Step(c, s, e, now);
    StepCases(c, s, e, now);
    EventKinds(e);
    if IsAccountEvent(e) {
      AccountEventFrame(c, s, e, now);
      AccountStepTables(s0, s', KeyOf(e));
    } else if IsQueueEvent(e) {
      QueueFrame(c, s, e, now);
      QueueRecords(s0, s');
    } else {
      match e
      case EPrepare(rk, commitPeriod) => PrepareKeeps(c, s0, rk, commitPeriod);
      case EFinalize(k, batch) => FinalizeRecords(s0, k, batch);
      case EApply(k, batch) => ApplyRecords(s0, k, batch);
    }
  }

  lemma QueueRecords(s: State, s': State)
    requires QueueStep(s, s')
    ensures s'.purgedConfigs == s.purgedConfigs
  {
  }

  lemma {:induction false} FinalizeAllRecords(s: State, k: AccountKey, batch: seq<TransferKey>, opening: int)
    requires k in s.accounts
    ensures FinalizeAll(s, k, batch, opening, s.now).state.purgedConfigs == s.purgedConfigs
  {
    hide CommittedAmount, FinalStatus, TransferSignals, Released;
    if batch != [] {
      FinalizeAllRecords(s, k, batch[..|batch| - 1], opening);
    }
  }

  lemma FinalizeRecords(s: State, k: AccountKey, batch: seq<TransferKey>)
    ensures FinalizeTransfers(s, k, batch, s.now).purgedConfigs == s.purgedConfigs
  {
    hide FinalizeAll, Balance, ApplyChange;
    if Live(s, k).Some? {
      FinalizeAllRecords(s, k, batch, Balance(k, s.accounts[k], s.now).Floor);
    }
  }

  lemma {:induction false} ApplyAllRecords(s: State, k: AccountKey, batch: seq<ChangeKey>)
    requires k in s.accounts
    ensures ApplyAll(s, k, batch, s.now).state.purgedConfigs == s.purgedConfigs
  {
    hide DueInterest, TransferSignals, Contain, Numbered;
    if batch != [] {
      ApplyAllRecords(s, k, batch[..|batch| - 1]);
    }
  }

  lemma ApplyRecords(s: State, k: AccountKey, batch: seq<ChangeKey>)
    ensures ApplyChanges(s, k, batch, s.now).purgedConfigs == s.purgedConfigs
  {
    hide ApplyAll, ApplyChange, LockOrCreate, AccountStep;
    if batch != [] {
      LockOrCreateFrame(s, k);
      AccountStepTables(s, LockOrCreate(s, k, s.now), k);
      ApplyAllRecords(LockOrCreate(s, k, s.now), k, batch);
    }
  }

  predicate AlwaysPunctual(r: Run) {
    forall i :: 0 <= i < |r.steps| ==> IsPunctual(r.steps[i].event, r.steps[i].now)
  }

  lemma {:induction false} AlwaysPurgedOk(c: Settings, r: Run)
    requires IsRun(c, r) && AlwaysPunctual(r)
    ensures PurgedOk(c, r.states[|r.steps|])
    decreases |r.steps|
  {
    hide RowsOk, LocksOk, QueuesOk, PurgedOk, Step, Enabled, IsPunctual;
    if r.steps == [] {
      NothingPurgedAtStart(c, r.states[0].now);
    } else {
      var n := |r.steps|;
      var front := Run(r.states[..n], r.steps[..n - 1]);
      Prefix(c, r);
      AlwaysPurgedOk(c, front);
      AlwaysConsistent(c, front);
      PurgedStep(c, r.states[n - 1], r.steps[n - 1].event, r.steps[n - 1].now);
    }
  }

  lemma NothingPurgedAtStart(c: Settings, now: int)
    ensures PurgedOk(c, Start(now))
  {
  }

  /** No zombies: no message that is at most as new as the configuration of any purged lifetime of the
      account can create the account again. */
  lemma PurgedAccountsStayPurged(c: Settings, r: Run, k: AccountKey, m: Configuration, now: int, configTs: int)
    requires IsRun(c, r) && AlwaysPunctual(r)
    requires var s := r.states[|r.steps|];
             && s.now <= now && k !in s.accounts && (k, configTs) in s.purgedConfigs && m.ts <= configTs
             && Enabled(s, EConfigure(k, m))
    ensures var s := r.states[|r.steps|];
            Step(c, s, EConfigure(k, m), now) == s.(now := now)
  {
    hide IsStep, RowsOk, Step, Enabled, NewAccount, IsValidConfig, AlwaysPunctual;
    AlwaysPurgedOk(c, r);
    RunSettings(c, r);
    StepCases(c, r.states[|r.steps|], EConfigure(k, m), now);
  }
}
