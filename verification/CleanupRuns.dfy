/** The permanent duties of cleanup, over whole runs. */
module CleanupRuns {
  import opened Types
  import opened Schema
  import opened Backoff
  import opened Transactions
  import opened DbInvariant
  import opened World
  import opened Invariant
  import opened WorldInvariant

  /** When an attempt was made, the next one is due a day later if it left the key absent, an hour later if it
      failed for good, and otherwise after the doubling wait of the streak. */
  lemma NextAttemptIsExact(env: Env, worlds: seq<World>, events: seq<Event>, n: nat, k: Key)
    requires Run(env, worlds, events) && n < |worlds| && k in worlds[n].s.db.tombstones
    ensures var t := worlds[n].s.db.tombstones[k];
            && (t.lastAttemptAt.Some? <==> t.lastResult.Some?)
            && (t.failureStreak > 0 <==> t.lastResult.Some? && t.lastResult.value.DeleteError?)
            && (t.lastAttemptAt.Some? ==>
                  t.nextAttemptAt == t.lastAttemptAt.value +
                    match t.lastResult.value
                    case DeleteSucceeded => DAY
                    case ConfirmedAbsent => DAY
                    case DeleteError(kind) =>
                      if kind.Transient? || kind.Ambiguous? then MINUTE * Min(Pow2(t.failureStreak - 1), 60) else HOUR)
  {
    var t := worlds[n].s.db.tombstones[k];
    TombstoneAt(env, worlds, events, n, k);
    if t.lastResult.Some? && t.lastResult.value.DeleteError? {
      DelaysAreClippedPowers(t.failureStreak, t.lastResult.value.kind);
    }
  }

  lemma TombstoneAt(env: Env, worlds: seq<World>, events: seq<Event>, n: nat, k: Key)
    requires Run(env, worlds, events) && n < |worlds| && k in worlds[n].s.db.tombstones
    ensures TombstoneInv(worlds[n].s.db, worlds[n].s.now, k)
  {
    RunKeeps(env, worlds, events, n);
  }

  /** A staging key may be deleted from the write horizon on, a candidate from the moment its upload closed. */
  lemma EarliestDelete(env: Env, worlds: seq<World>, events: seq<Event>, n: nat, k: Key)
    requires Run(env, worlds, events) && n < |worlds| && k in worlds[n].s.db.tombstones
    ensures Owner(k) in worlds[n].s.db.uploads
    ensures var t, u := worlds[n].s.db.tombstones[k], worlds[n].s.db.uploads[Owner(k)];
            u.terminalAt.Some? && t.deleteNotBefore == if k.Staging? then u.horizon else u.terminalAt.value
  {
    RunKeeps(env, worlds, events, n);
    assert TombstoneInv(worlds[n].s.db, worlds[n].s.now, k) && Retired(worlds[n].s.db, k);
    assert UploadRowOk(Owner(k), worlds[n].s.db.uploads[Owner(k)]);
  }

  /** The next attempt is never before the key may be deleted, never more than a day after the last one, and a
      reserved tombstone is due. */
  lemma DutyBounds(env: Env, worlds: seq<World>, events: seq<Event>, n: nat, k: Key)
    requires Run(env, worlds, events) && n < |worlds| && k in worlds[n].s.db.tombstones
    ensures var t, now := worlds[n].s.db.tombstones[k], worlds[n].s.now;
            && t.upload == Owner(k) && t.nextAttemptAt >= t.deleteNotBefore
            && (t.lastAttemptAt.None? ==> t.nextAttemptAt == t.deleteNotBefore)
            && (t.lastAttemptAt.Some? ==>
                  t.nextAttemptAt <= t.lastAttemptAt.value + DAY && t.lastAttemptAt.value <= now)
            && (t.reservationToken.Some? ==> t.deleteNotBefore <= t.nextAttemptAt <= now)
  {
    TombstoneAt(env, worlds, events, n, k);
  }

  predicate Failing(w: World, k: Key) {
    k in w.s.db.tombstones && w.s.db.tombstones[k].failureStreak > 0
  }

  /** This step turns a streak of zero into a streak of one, at the clock of the attempt. */
  predicate FirstFailure(w: World, w': World, k: Key) {
    && k in w.s.db.tombstones && w.s.db.tombstones[k].failureStreak == 0
    && k in w'.s.db.tombstones && w'.s.db.tombstones[k].failureStreak == 1
    && w'.s.db.tombstones[k].lastAttemptAt == Some(w.s.now)
  }

  /** What one more failure does to a due tombstone. */
  lemma FailureApplied(db: Db, now: Time, k: Key, v: Tombstone)
    requires k in db.tombstones && TombstoneInv(db, now, k) && TombstoneStep(db.tombstones[k], v, now)
    requires v.failureStreak > 0
    ensures var t := db.tombstones[k];
            || (v.failureStreak == t.failureStreak && v.nextAttemptAt == t.nextAttemptAt)
            || (&& v.failureStreak == t.failureStreak + 1 && t.failureStreak >= 0
                && v.lastAttemptAt == Some(now)
                && t.nextAttemptAt <= now
                && v.nextAttemptAt >= now + MINUTE * Min(Pow2(v.failureStreak - 1), 60))
  {
  }

  /** A tombstone as it was one event earlier; one that is failing already existed. */
  lemma TombstoneBefore(env: Env, worlds: seq<World>, events: seq<Event>, n: nat, k: Key)
    requires Run(env, worlds, events) && n < |events| && Failing(worlds[n + 1], k)
    ensures k in worlds[n].s.db.tombstones && TombstoneInv(worlds[n].s.db, worlds[n].s.now, k)
    ensures TombstoneStep(worlds[n].s.db.tombstones[k], worlds[n + 1].s.db.tombstones[k], worlds[n].s.now)
  {
    RunKeeps(env, worlds, events, n);
    RunStep(env, worlds, events, n);
    assert k in worlds[n].s.db.tombstones;
  }

  /** Backoff over runs: after s consecutive failures of any classes the next attempt is at least FailureWait(s)
      minutes after the first of them; module Backoff has the closed form of FailureWait. */
  lemma {:induction false} BackoffOverRuns(env: Env, worlds: seq<World>, events: seq<Event>, n: nat, k: Key)
    returns (j: nat)
    requires Run(env, worlds, events) && n < |worlds| && Failing(worlds[n], k)
    ensures j < n && FirstFailure(worlds[j], worlds[j + 1], k)
    ensures forall i | j < i <= n :: Failing(worlds[i], k)
    ensures worlds[n].s.db.tombstones[k].nextAttemptAt >=
            worlds[j].s.now + MINUTE * FailureWait(worlds[n].s.db.tombstones[k].failureStreak)
    decreases n
  {
    if n == 0 {
      assert false;
    } else {
      TombstoneBefore(env, worlds, events, n - 1, k);
      FailureApplied(worlds[n - 1].s.db, worlds[n - 1].s.now, k, worlds[n].s.db.tombstones[k]);
      var t, v := worlds[n - 1].s.db.tombstones[k], worlds[n].s.db.tombstones[k];
      if v.failureStreak == t.failureStreak + 1 && t.failureStreak == 0 {
        j := n - 1;
        assert FailureWait(1) == 1;
      } else {
        j := BackoffOverRuns(env, worlds, events, n - 1, k);
      }
    }
  }

  /** This event applies the result held for reservation (k, token). */
  predicate AppliesResult(w: World, ev: Event, k: Key, token: Uuid) {
    && ev.Clean? && ev.clean.ApplyResult? && Applied(ev.clean.fate)
    && ev.i in w.cleaners && w.cleaners[ev.i].Applying?
    && w.cleaners[ev.i].key == k && w.cleaners[ev.i].token == token
    && k in w.s.db.tombstones && w.s.db.tombstones[k].reservationToken == Some(token)
  }

  lemma ApplyingReleases(env: Env, worlds: seq<World>, events: seq<Event>, n: nat, k: Key, token: Uuid)
    requires Run(env, worlds, events) && n < |events| && AppliesResult(worlds[n], events[n], k, token)
    ensures k in worlds[n + 1].s.db.tombstones && worlds[n + 1].s.db.tombstones[k].reservationToken == None
    ensures token in worlds[n + 1].s.issued
  {
    var w, ev, w' := worlds[n], events[n], worlds[n + 1];
    ApplierAt(env, worlds, events, n, k, token);
    Releases(w.s, w.cleaners[ev.i], ev.clean, w'.s, w'.cleaners[ev.i]);
  }

  lemma Releases(s: Shared, l: Cleaner, e: CleanEvent, s': Shared, l': Cleaner)
    requires CleanStep(s, l, e, s', l') && e.ApplyResult? && Applied(e.fate)
    requires l.key in s.db.tombstones && s.db.tombstones[l.key].reservationToken == Some(l.token)
    ensures l.key in s'.db.tombstones && s'.db.tombstones[l.key].reservationToken == None && s'.issued == s.issued
  {
  }

  lemma ApplierAt(env: Env, worlds: seq<World>, events: seq<Event>, n: nat, k: Key, token: Uuid)
    requires Run(env, worlds, events) && n < |events| && AppliesResult(worlds[n], events[n], k, token)
    ensures token in worlds[n].s.issued
    ensures var w, ev, w' := worlds[n], events[n], worlds[n + 1];
            ev.i in w'.cleaners && CleanStep(w.s, w.cleaners[ev.i], ev.clean, w'.s, w'.cleaners[ev.i])
  {
    RunKeeps(env, worlds, events, n);
    StepAt(env, worlds, events, n);
    assert CleanInv(worlds[n].s, worlds[n].cleaners[events[n].i]);
  }

  lemma UnreservedStays(env: Env, worlds: seq<World>, events: seq<Event>, n: nat, k: Key, token: Uuid)
    requires Run(env, worlds, events) && n < |events| && token in worlds[n].s.issued
    requires k in worlds[n].s.db.tombstones && worlds[n].s.db.tombstones[k].reservationToken != Some(token)
    ensures k in worlds[n + 1].s.db.tombstones && worlds[n + 1].s.db.tombstones[k].reservationToken != Some(token)
    ensures token in worlds[n + 1].s.issued
  {
    RunStep(env, worlds, events, n);
  }

  /** A reservation's result is applied at most once: afterwards its token is never stored again, so every later
      attempt to apply under it does nothing. */
  lemma {:induction false} ResultAppliedOnce(env: Env, worlds: seq<World>, events: seq<Event>, m: nat, n: nat, k: Key,
                                             token: Uuid)
    requires Run(env, worlds, events) && m < n < |worlds| && AppliesResult(worlds[m], events[m], k, token)
    ensures token in worlds[n].s.issued
    ensures k in worlds[n].s.db.tombstones && worlds[n].s.db.tombstones[k].reservationToken != Some(token)
    ensures forall result :: TxApply(worlds[n].s.db, worlds[n].s.now, k, token, result) == None
    decreases n
  {
    if m == n - 1 {
      ApplyingReleases(env, worlds, events, m, k, token);
    } else {
      ResultAppliedOnce(env, worlds, events, m, n - 1, k, token);
      UnreservedStays(env, worlds, events, n - 1, k, token);
    }
  }

  lemma AttemptsOnlyWhenApplied(env: Env, worlds: seq<World>, events: seq<Event>, n: nat, k: Key)
    requires Run(env, worlds, events) && n < |events| && k in worlds[n].s.db.tombstones
    ensures k in worlds[n + 1].s.db.tombstones
    ensures worlds[n + 1].s.db.tombstones[k].nextAttemptAt >= worlds[n].s.db.tombstones[k].nextAttemptAt
  {
    TombstoneKept(env, worlds, events, n, k);
    var t, v := worlds[n].s.db.tombstones[k], worlds[n + 1].s.db.tombstones[k];
    if v.nextAttemptAt != t.nextAttemptAt {
      AttemptPushesOn(t, worlds[n].s.now, v.lastResult.value);
    }
  }

  lemma TombstoneKept(env: Env, worlds: seq<World>, events: seq<Event>, n: nat, k: Key)
    requires Run(env, worlds, events) && n < |events| && k in worlds[n].s.db.tombstones
    ensures k in worlds[n + 1].s.db.tombstones && worlds[n].s.now <= worlds[n + 1].s.now
    ensures TombstoneStep(worlds[n].s.db.tombstones[k], worlds[n + 1].s.db.tombstones[k], worlds[n].s.now)
    ensures TombstoneInv(worlds[n].s.db, worlds[n].s.now, k)
  {
    RunKeeps(env, worlds, events, n);
    RunStep(env, worlds, events, n);
  }

  lemma AttemptPushesOn(t: Tombstone, now: Time, result: CleanupResult)
    requires t.nextAttemptAt <= now && t.failureStreak >= 0
    ensures Attempted(t, now, result).nextAttemptAt >= t.nextAttemptAt
  {
    if result.DeleteError? {
      DelaysAreClippedPowers(t.failureStreak + 1, result.kind);
      Pow2Positive(t.failureStreak);
    }
  }

  lemma {:induction false} NextAttemptNeverRecedes(env: Env, worlds: seq<World>, events: seq<Event>, m: nat, n: nat,
                                                   k: Key)
    requires Run(env, worlds, events) && m <= n < |worlds| && k in worlds[m].s.db.tombstones
    ensures k in worlds[n].s.db.tombstones
    ensures worlds[m].s.db.tombstones[k].nextAttemptAt <= worlds[n].s.db.tombstones[k].nextAttemptAt
    decreases n
  {
    if m < n {
      NextAttemptNeverRecedes(env, worlds, events, m, n - 1, k);
      AttemptsOnlyWhenApplied(env, worlds, events, n - 1, k);
    }
  }

  /** After a delete that left the key absent was recorded, the key is not reserved again for a day. */
  lemma RestAfterSuccess(env: Env, worlds: seq<World>, events: seq<Event>, m: nat, n: nat, k: Key, token: Uuid)
    requires Run(env, worlds, events) && m < n < |events| && AppliesResult(worlds[m], events[m], k, token)
    requires !worlds[m].cleaners[events[m].i].result.DeleteError?
    requires events[n].Clean? && events[n].clean.Reserve? && events[n].clean.key == k
    ensures worlds[n].s.now >= worlds[m].s.now + DAY
  {
    SuccessIsRecorded(env, worlds, events, m, k, token);
    NextAttemptNeverRecedes(env, worlds, events, m + 1, n, k);
    ReservedIsDue(env, worlds, events, n, k);
  }

  lemma SuccessIsRecorded(env: Env, worlds: seq<World>, events: seq<Event>, m: nat, k: Key, token: Uuid)
    requires Run(env, worlds, events) && m < |events| && AppliesResult(worlds[m], events[m], k, token)
    requires !worlds[m].cleaners[events[m].i].result.DeleteError?
    ensures k in worlds[m + 1].s.db.tombstones
    ensures worlds[m + 1].s.db.tombstones[k].nextAttemptAt == worlds[m].s.now + DAY
  {
    ApplierAt(env, worlds, events, m, k, token);
  }

  lemma ReservedIsDue(env: Env, worlds: seq<World>, events: seq<Event>, n: nat, k: Key)
    requires Run(env, worlds, events) && n < |events|
    requires events[n].Clean? && events[n].clean.Reserve? && events[n].clean.key == k
    ensures k in worlds[n].s.db.tombstones && worlds[n].s.db.tombstones[k].nextAttemptAt <= worlds[n].s.now
  {
    StepAt(env, worlds, events, n);
  }
}
