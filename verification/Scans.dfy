/** The scanner of registered changes deletes what it has read before, without checking again.  What it
    has found applied is still applied when it is deleted, or gone, so nothing else is lost. */
module Scans {
  import opened Models
  import opened Steps
  import opened Frames
  import opened Rows
  import opened Locks
  import opened Changes
  import opened Runs
  import opened Server
  import opened Batches
  import opened Columns
  import opened Outcomes
  import LateCredit

  // ---- What has been applied stays applied

  /** The change has been applied, and this is what was sent. */
  predicate IsApplied(s: State, ck: ChangeKey, ch: BalanceChange) {
    ck in s.emitted && s.emitted[ck] == ch && ck in s.applied
  }

  lemma ApplyOneStays(b: Crediting, k: AccountKey, ck: ChangeKey, now: int, other: ChangeKey, ch: BalanceChange)
    requires k in b.state.accounts && IsApplied(b.state, other, ch)
    ensures IsApplied(ApplyOne(b, k, ck, now).state, other, ch)
  {
    hide DueInterest, TransferSignals, Numbered;
  }

  lemma {:induction false} ApplyAllStays(
    s: State, k: AccountKey, batch: seq<ChangeKey>, ck: ChangeKey, ch: BalanceChange)
    requires k in s.accounts && IsApplied(s, ck, ch)
    ensures IsApplied(ApplyAll(s, k, batch, s.now).state, ck, ch)
  {
    hide ApplyOne, IsApplied;
    if batch != [] {
      var front := batch[..|batch| - 1];
      ApplyAllStays(s, k, front, ck, ch);
      ApplyOneStays(ApplyAll(s, k, front, s.now), k, batch[|batch| - 1], s.now, ck, ch);
    }
  }

  lemma ApplyStays(s: State, k: AccountKey, batch: seq<ChangeKey>, ck: ChangeKey, ch: BalanceChange)
    requires IsApplied(s, ck, ch) && QueuesOk(s)
    ensures IsApplied(ApplyChanges(s, k, batch, s.now), ck, ch)
  {
    hide QueuesOk, AccountStep, LockOrCreate, ApplyAll, ApplyChange;
    if batch != [] {
      var s1 := LockOrCreate(s, k, s.now);
      LockOrCreateFrame(s, k);
      LateCredit.AccountEmits(s, s1, k);
      AccountStepTables(s, s1, k);
      ApplyAllStays(s1, k, batch, ck, ch);
    }
  }

  lemma AppliedStep(c: Settings, s: State, e: Event, now: int, ck: ChangeKey, ch: BalanceChange)
    requires c.Valid() && RowsOk(c, s) && QueuesOk(s) && s.now <= now && Enabled(s, e) && IsApplied(s, ck, ch)
    ensures IsApplied(Step(c, s, e, now), ck, ch)
  {
    hide RowsOk, QueuesOk, Step, Enabled, ApplyChanges;
    if e.EApply? {
      StepCases(c, s, e, now);
      QueuesLater(s, now);
      ApplyStays(s.(now := now), e.key, e.changes, ck, ch);
    } else {
      LateCredit.StepEmits(c, s, e, now);
    }
  }

  /** In every run a change that has been applied at some moment has been applied ever after. */
  lemma {:induction false} AppliedForGood(c: Settings, r: Run, i: nat, ck: ChangeKey, ch: BalanceChange)
    requires IsRun(c, r) && i < |r.states| && IsApplied(r.states[i], ck, ch)
    ensures IsApplied(r.states[|r.steps|], ck, ch)
    decreases |r.steps|
  {
    hide IsStep, RowsOk, LocksOk, QueuesOk, IsApplied;
    var n := |r.steps|;
    if i < n {
      var front := Run(r.states[..n], r.steps[..n - 1]);
      Prefix(c, r);
      AppliedForGood(c, front, i, ck, ch);
      AlwaysConsistent(c, front);
      LastStep(c, r, ck, ch);
    }
  }

  lemma LastStep(c: Settings, r: Run, ck: ChangeKey, ch: BalanceChange)
    requires IsRun(c, r) && r.steps != []
    requires var s := r.states[|r.steps| - 1]; RowsOk(c, s) && QueuesOk(s) && IsApplied(s, ck, ch)
    ensures IsApplied(r.states[|r.steps|], ck, ch)
  {
    hide RowsOk, LocksOk, QueuesOk, IsApplied, Step, Enabled;
    var n := |r.steps|;
    Prefix(c, r);
    AppliedStep(c, r.states[n - 1], r.steps[n - 1].event, r.steps[n - 1].now, ck, ch);
  }

  // ---- Stale registrations

  /** The scanner has read the row from the table in this state. */
  predicate IsReadFrom(s: State, row: (ChangeKey, RegisteredChange)) {
    row.0 in s.registered && s.registered[row.0] == row.1
  }

  /** The scanner has read the row at some moment of the run. */
  predicate WasRead(r: Run, row: (ChangeKey, RegisteredChange)) {
    exists i :: 0 <= i < |r.states| && IsReadFrom(r.states[i], row)
  }

  lemma ReadIsApplied(s: State, row: (ChangeKey, RegisteredChange))
    requires QueuesOk(s) && OnceOk(s) && IsReadFrom(s, row) && row.1.isApplied
    ensures row.0 in s.emitted && s.emitted[row.0].committedAt == row.1.committedAt
    ensures IsApplied(s, row.0, s.emitted[row.0])
  {
    hide Distinct, EmittedOk, QueuedOk;
  }

  lemma AppliedIsStale(s: State, ck: ChangeKey, ch: BalanceChange, cutoff: int)
    requires QueuesOk(s) && OnceOk(s) && IsApplied(s, ck, ch) && ch.committedAt < cutoff
    ensures IsStale(s.registered, ck, cutoff)
  {
    hide Distinct, EmittedOk, QueuedOk;
  }

  /** A registration that looked stale when it was read is stale, or gone, whenever it is deleted. */
  lemma StaleStaysStale(c: Settings, r: Run, row: (ChangeKey, RegisteredChange), cutoff: int)
    requires IsRun(c, r) && CutoffsAlwaysAgree(r)
    requires WasRead(r, row) && row.1.isApplied && row.1.committedAt < cutoff
    ensures IsStale(r.states[|r.steps|].registered, row.0, cutoff)
  {
    hide IsStep, RowsOk, LocksOk, QueuesOk, OnceOk, IsApplied, IsStale, CutoffsAgree, IsReadFrom;
    var i :| 0 <= i < |r.states| && IsReadFrom(r.states[i], row);
    var past := Run(r.states[..i + 1], r.steps[..i]);
    PrefixTo(c, r, i);
    AlwaysConsistent(c, past);
    AppliedAtMostOnce(c, past);
    ReadIsApplied(r.states[i], row);
    var ch := r.states[i].emitted[row.0];
    AppliedForGood(c, r, i, row.0, ch);
    AlwaysConsistent(c, r);
    AppliedAtMostOnce(c, r);
    AppliedIsStale(r.states[|r.steps|], row.0, ch, cutoff);
  }

  lemma WithoutOneMore<K, V>(m: map<K, V>, front: seq<K>, k: K)
    ensures m - (set x <- front + [k]) == (m - (set x <- front)) - {k}
    ensures m - (set x <- []) == m
  {
    assert (set x <- front + [k]) == (set x <- front) + {k};
    assert (set x: K <- []) == {};
  }

  lemma UnregisterOneMore(s: State, front: seq<ChangeKey>, ck: ChangeKey, cutoff: int)
    requires IsStale(s.registered, ck, cutoff)
    ensures DeleteRegistered(Unregistered(s, front, cutoff), ck, cutoff) == Unregistered(s, front + [ck], cutoff)
  {
    var before := s.registered - (set x <- front);
    WithoutOneMore(s.registered, front, ck);
    assert ck !in before ==> before - {ck} == before;
    var s1 := Unregistered(s, front, cutoff);
    assert s1 == s.(registered := before, scannerCutoff := s1.scannerCutoff);
  }

  /** Without checking again, the statement deletes what a check would delete. */
  lemma {:induction false} UnregisteredIsChecked(s: State, keys: seq<ChangeKey>, cutoff: int)
    requires forall ck <- keys :: IsStale(s.registered, ck, cutoff)
    ensures Unregistered(s, keys, cutoff) == DeleteAllRegistered(s, keys, cutoff)
  {
    hide DeleteRegistered, IsStale;
    if keys != [] {
      var front, ck := keys[..|keys| - 1], keys[|keys| - 1];
      UnregisteredIsChecked(s, front, cutoff);
      UnregisterOneMore(s, front, ck, cutoff);
      assert keys == front + [ck];
    }
  }

  /** A scan of rows that have been read at any moments of a run deletes what a check would delete, and
      leaves a reachable state: no change that has not been applied is forgotten. */
  lemma ScanIsReachable(c: Settings, r: Run, rows: seq<(ChangeKey, RegisteredChange)>, cutoff: int)
    requires IsRun(c, r) && CutoffsAlwaysAgree(r) && forall row <- rows :: WasRead(r, row)
    ensures var s := r.states[|r.steps|];
            && Unregistered(s, Stale(rows, cutoff), cutoff) == DeleteAllRegistered(s, Stale(rows, cutoff), cutoff)
            && Reachable(c, Unregistered(s, Stale(rows, cutoff), cutoff))
  {
    hide IsStep, IsStale, CutoffsAlwaysAgree, WasRead, Unregistered, Stale;
    var s, keys := r.states[|r.steps|], Stale(rows, cutoff);
    forall ck <- keys ensures IsStale(s.registered, ck, cutoff) {
      StaleIff(rows, cutoff, ck);
      var row :| row in rows && row.0 == ck && row.1.isApplied && row.1.committedAt < cutoff;
      StaleStaysStale(c, r, row, cutoff);
    }
    UnregisteredIsChecked(s, keys, cutoff);
    assert IsRunTo(c, r, s.(now := s.now));
    DeleteAllIsReachable(c, s, keys, cutoff);
  }

  // ---- Purges and heartbeats

  lemma {:induction false} PurgeableIff(c: Settings, rows: seq<(AccountKey, Account)>, now: int, k: AccountKey)
    ensures k in Purgeable(c, rows, now) <==> exists row :: row in rows && row.0 == k && IsOld(c, row.1, now)
  {
    if rows != [] {
      var n := |rows| - 1;
      PurgeableIff(c, rows[..n], now, k);
      assert rows == rows[..n] + [rows[n]];
    }
  }

  lemma {:induction false} SilentIff(c: Settings, rows: seq<(AccountKey, Account)>, now: int, k: AccountKey)
    ensures k in Silent(c, rows, now) <==> exists row :: row in rows && row.0 == k && IsQuiet(c, row.1, now)
  {
    if rows != [] {
      var n := |rows| - 1;
      SilentIff(c, rows[..n], now, k);
      assert rows == rows[..n] + [rows[n]];
    }
  }

  lemma {:induction false} PurgeAllRemoves(c: Settings, s: State, keys: seq<AccountKey>, k: AccountKey)
    ensures var s' := PurgeAll(c, s, keys, s.now);
            && s'.now == s.now
            && (k in s'.accounts <==> k in s.accounts && !(k in keys && IsOld(c, s.accounts[k], s.now)))
            && (k in s'.accounts ==> s'.accounts[k] == s.accounts[k])
  {
    hide PurgeAccount;
    if keys != [] {
      var n := |keys| - 1;
      var s1 := PurgeAll(c, s, keys[..n], s.now);
      PurgeAllRemoves(c, s, keys[..n], k);
      PurgesIff(c, s1, keys[n]);
      assert keys == keys[..n] + [keys[n]];
    }
  }

  /** A scan purges an account if and only if it looked old when it was read, and still is. */
  lemma ScanPurges(c: Settings, s: State, rows: seq<(AccountKey, Account)>, k: AccountKey)
    ensures var s' := PurgeAll(c, s, Purgeable(c, rows, s.now), s.now);
            && (k in s'.accounts <==>
                  k in s.accounts
                  && !(IsOld(c, s.accounts[k], s.now)
                       && exists row :: row in rows && row.0 == k && IsOld(c, row.1, s.now)))
            && (k in s'.accounts ==> s'.accounts[k] == s.accounts[k])
  {
    hide IsOld;
    PurgeAllRemoves(c, s, Purgeable(c, rows, s.now), k);
    PurgeableIff(c, rows, s.now, k);
  }

  lemma {:induction false} HeartbeatAllAnnounces(c: Settings, s: State, keys: seq<AccountKey>, k: AccountKey)
    requires 0 <= c.signalbusMaxDelay
    ensures var s' := HeartbeatAll(c, s, keys, s.now);
            && s'.now == s.now && s.updates <= s'.updates
            && (k in s'.accounts <==> k in s.accounts)
            && (k in s.accounts ==>
                  s'.accounts[k] == if k in keys && IsQuiet(c, s.accounts[k], s.now)
                                    then s.accounts[k].(heartbeatTs := s.now, pendingUpdate := false) else s.accounts[k])
            && (k in s.accounts && k in keys && IsQuiet(c, s.accounts[k], s.now) ==>
                  IsAmong(s'.updates, |s.updates|, k, s'.accounts[k]))
  {
    hide SendHeartbeat, Shows, IsQuiet, IsAmong;
    if keys != [] {
      var n := |keys| - 1;
      var s1 := HeartbeatAll(c, s, keys[..n], s.now);
      HeartbeatAllAnnounces(c, s, keys[..n], k);
      assert keys == keys[..n] + [keys[n]];
      HeartbeatOne(c, s, s1, keys[n], k);
    }
  }

  /** One of the later signals shows the row. */
  ghost predicate IsAmong(updates: seq<UpdateSignal>, from: nat, k: AccountKey, a: Account) {
    exists i :: from <= i < |updates| && Shows(updates[i], k, a)
  }

  lemma HeartbeatOne(c: Settings, s: State, s1: State, j: AccountKey, k: AccountKey)
    requires s.updates <= s1.updates && 0 <= c.signalbusMaxDelay
    ensures var s' := SendHeartbeat(c, s1, j, s1.now);
            && s'.now == s1.now && s.updates <= s'.updates
            && (k in s'.accounts <==> k in s1.accounts)
            && (k in s1.accounts ==>
                  s'.accounts[k] == if k == j && IsQuiet(c, s1.accounts[k], s1.now)
                                    then s1.accounts[k].(heartbeatTs := s1.now, pendingUpdate := false)
                                    else s1.accounts[k])
            && (k in s1.accounts && k == j && IsQuiet(c, s1.accounts[k], s1.now) ==>
                  IsAmong(s'.updates, |s.updates|, k, s'.accounts[k]))
            && (forall a :: IsAmong(s1.updates, |s.updates|, k, a) ==> IsAmong(s'.updates, |s.updates|, k, a))
    ensures k in s1.accounts && IsQuiet(c, s1.accounts[k], s1.now) ==>
              !IsQuiet(c, s1.accounts[k].(heartbeatTs := s1.now, pendingUpdate := false), s1.now)
  {
    hide SendHeartbeat, Shows;
    HeartbeatIff(c, s1, j);
    var s' := SendHeartbeat(c, s1, j, s1.now);
    assert forall i :: 0 <= i < |s1.updates| ==> s'.updates[i] == s1.updates[i];
  }

  /** A scan announces an account if and only if it looked quiet when it was read, and still is. */
  lemma ScanAnnounces(c: Settings, s: State, rows: seq<(AccountKey, Account)>, k: AccountKey)
    requires 0 <= c.signalbusMaxDelay && k in s.accounts
    ensures var s' := HeartbeatAll(c, s, Silent(c, rows, s.now), s.now);
            && k in s'.accounts
            && if IsQuiet(c, s.accounts[k], s.now) && exists row :: row in rows && row.0 == k && IsQuiet(c, row.1, s.now)
               then && s'.accounts[k] == s.accounts[k].(heartbeatTs := s.now, pendingUpdate := false)
                    && IsAmong(s'.updates, |s.updates|, k, s'.accounts[k])
               else s'.accounts[k] == s.accounts[k]
  {
    hide IsQuiet, IsAmong;
    HeartbeatAllAnnounces(c, s, Silent(c, rows, s.now), k);
    SilentIff(c, rows, s.now, k);
  }

  /** The statement of the other scanner deletes what looked applied and old when it was read. */
  lemma {:induction false} StaleIff(rows: seq<(ChangeKey, RegisteredChange)>, cutoff: int, ck: ChangeKey)
    ensures ck in Stale(rows, cutoff)
            <==> exists row :: row in rows && row.0 == ck && row.1.isApplied && row.1.committedAt < cutoff
  {
    if rows != [] {
      var n := |rows| - 1;
      StaleIff(rows[..n], cutoff, ck);
      assert rows == rows[..n] + [rows[n]];
    }
  }

  lemma ScanUnregisters(s: State, rows: seq<(ChangeKey, RegisteredChange)>, cutoff: int, ck: ChangeKey)
    ensures var s' := Unregistered(s, Stale(rows, cutoff), cutoff);
            && (ck in s'.registered <==>
                  ck in s.registered
                  && !exists row :: row in rows && row.0 == ck && row.1.isApplied && row.1.committedAt < cutoff)
            && (ck in s'.registered ==> s'.registered[ck] == s.registered[ck])
            && s' == s.(registered := s'.registered, scannerCutoff := s'.scannerCutoff)
  {
    hide Stale;
    StaleIff(rows, cutoff, ck);
  }
}
