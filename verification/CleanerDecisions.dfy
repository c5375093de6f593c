/** What each decision of the cleaner comes to, said of tombstones and clocks. */
module CleanerDecisions {
  import opened Types
  import opened Backoff
  import opened Transactions
  import opened DbInvariant
  import opened World
  import opened WorldInvariant
  import opened Queues

  // ------------------------------------------------------------ reservations

  lemma {:induction false} FirstKey(db: Db, keys: set<Key>, k: Key) returns (j: Key)
    requires k in keys && forall i | i in keys :: i in db.tombstones
    ensures j in keys
    ensures forall i | i in keys && i != j ::
              EarlierKey(db.tombstones[j].nextAttemptAt, j, db.tombstones[i].nextAttemptAt, i)
    decreases keys
  {
    if keys == {k} {
      j := k;
    } else {
      var y :| y in keys && y != k;
      j := FirstKey(db, keys - {y}, k);
      if EarlierKey(db.tombstones[y].nextAttemptAt, y, db.tombstones[j].nextAttemptAt, j) {
        j := y;
      }
    }
  }

  /** While a tombstone is due, without a running reservation and not locked elsewhere, the query returns one: this
      one or one that comes earlier. In particular a reservation whose holder died is taken over once it has run
      out. */
  lemma SomethingIsReserved(db: Db, now: Time, skipped: set<Key>, k: Key) returns (j: Key)
    requires DbInv(db, now) && k in db.tombstones && Owed(db.tombstones[k], now) && k !in skipped
    ensures NextCleanup(db, now, skipped, j) && Owed(db.tombstones[j], now)
    ensures j == k || EarlierKey(db.tombstones[j].nextAttemptAt, j, db.tombstones[k].nextAttemptAt, k)
  {
    var keys := set i | i in db.tombstones && Owed(db.tombstones[i], now) && i !in skipped;
    j := FirstKey(db, keys, k);
    OwedAreDue(db, now);
  }

  /** So a resting cleaner with a new token can always reserve something when a tombstone is owed. */
  lemma RestingCleanersCanReserve(env: Env, w: World, i: nat, k: Key, token: Uuid) returns (e: CleanEvent, w': World)
    requires WorldInv(env, w) && i in w.cleaners && w.cleaners[i].Resting? && token !in w.s.issued
    requires k in w.s.db.tombstones && Owed(w.s.db.tombstones[k], w.s.now)
    ensures Next(env, w, Clean(i, e), w') && e.Reserve? && e == Reserve(e.key, token, {}, Acked)
    ensures e.key in w.s.db.tombstones && w'.cleaners[i] == Deleting(e.key, token)
    ensures e.key == k
            || EarlierKey(w.s.db.tombstones[e.key].nextAttemptAt, e.key, w.s.db.tombstones[k].nextAttemptAt, k)
  {
    var j := SomethingIsReserved(w.s.db, w.s.now, {}, k);
    e, w' := ReserveNext(env, w, i, j, token);
  }

  lemma ReserveNext(env: Env, w: World, i: nat, j: Key, token: Uuid) returns (e: CleanEvent, w': World)
    requires i in w.cleaners && w.cleaners[i].Resting? && token !in w.s.issued
    requires NextCleanup(w.s.db, w.s.now, {}, j)
    ensures e == Reserve(j, token, {}, Acked) && Next(env, w, Clean(i, e), w')
    ensures w'.cleaners[i] == Deleting(j, token)
  {
    e := Reserve(j, token, {}, Acked);
    var s' := w.s.(issued := w.s.issued + {token}, db := TxReserve(w.s.db, w.s.now, j, token));
    w' := w.(s := s', cleaners := w.cleaners[i := Deleting(j, token)]);
    assert CleanNext(w, i, e, w');
  }

  /** A reservation stores a new token for half a minute and nothing else; what is reserved may be deleted and is not
      published, and is the first of what is owed and not locked elsewhere, by time and then by key. */
  lemma ReservationWrites(s: Shared, l: Cleaner, e: CleanEvent, s': Shared, l': Cleaner)
    requires DbInv(s.db, s.now) && CleanStep(s, l, e, s', l') && e.Reserve?
    ensures e.key in s.db.tombstones && Owed(s.db.tombstones[e.key], s.now) && e.token !in s.issued
    ensures s.db.tombstones[e.key].deleteNotBefore <= s.now
    ensures forall id | id in s.db.uploads :: s.db.uploads[id].finalKey != Some(e.key)
    ensures s'.db == if !Applied(e.fate) then s.db
                     else s.db.(tombstones := s.db.tombstones[e.key := s.db.tombstones[e.key].(
                       reservationToken := Some(e.token), reservationExpiresAt := Some(s.now + 30 * SECOND))])
    ensures l' == if e.fate.Acked? then Deleting(e.key, e.token) else ConfirmReserve(e.key, e.token)
    ensures s'.objects == s.objects && s'.deletes == s.deletes
    ensures forall j | j in s.db.tombstones && j !in e.skipped && Owed(s.db.tombstones[j], s.now) && j != e.key ::
              var due, dueJ := s.db.tombstones[e.key].nextAttemptAt, s.db.tombstones[j].nextAttemptAt;
              due <= dueJ && (due == dueJ ==> KeyLess(e.key, j))
  {
    OwedAreDue(s.db, s.now);
    OwedIsUnpublished(s.db, s.now, e.key);
  }

  lemma OwedAreDue(db: Db, now: Time)
    requires DbInv(db, now)
    ensures forall j | j in db.tombstones :: Owed(db.tombstones[j], now) <==> CleanupDue(db, now, j)
  {
    forall j | j in db.tombstones ensures Owed(db.tombstones[j], now) <==> CleanupDue(db, now, j) {
      OwedIsDue(db, now, j);
    }
  }

  lemma OwedIsUnpublished(db: Db, now: Time, k: Key)
    requires DbInv(db, now) && k in db.tombstones
    ensures forall id | id in db.uploads :: db.uploads[id].finalKey != Some(k)
  {
    assert Retired(db, k);
    forall id | id in db.uploads ensures db.uploads[id].finalKey != Some(k) {
      assert FinalTracked(db, id, db.uploads[id]);
    }
  }

  /** After a COMMIT without an answer the cleaner goes on exactly when its token is stored and its reservation runs. */
  lemma ReservationIsConfirmed(s: Shared, k: Key, token: Uuid, s': Shared, l': Cleaner)
    requires DbInv(s.db, s.now) && CleanStep(s, ConfirmReserve(k, token), ConfirmReservation, s', l')
    ensures s' == s
    ensures l' == if k in s.db.tombstones && s.db.tombstones[k].reservationToken == Some(token)
                     && !Owed(s.db.tombstones[k], s.now)
                  then Deleting(k, token) else Resting
  {
    if k in s.db.tombstones {
      assert TombstoneInv(s.db, s.now, k) && Retired(s.db, k);
    }
  }

  // ----------------------------------------------------- deletes and results

  /** One delete of the reserved key is sent; an answer of success means that the object is gone, an answer that it was
      absent is true. */
  lemma DeleteSends(s: Shared, l: Cleaner, result: CleanupResult, s': Shared, l': Cleaner)
    requires CleanStep(s, l, SendDelete(result), s', l')
    ensures l.Deleting? && l' == Applying(l.key, l.token, result)
    ensures s'.db == s.db && s'.puts == s.puts && s'.deletes == s.deletes + {l.key}
    ensures !result.DeleteError? ==> l.key !in s'.objects
    ensures forall k | k != l.key || !result.DeleteSucceeded? ::
              (k in s'.objects <==> k in s.objects) && (k in s.objects ==> s'.objects[k] == s.objects[k])
  {
  }

  /** What a result stores when its reservation token is still the stored one: the reservation is released, the attempt
      and its result are recorded, failures are counted and successes end the count; the next attempt is due a day after
      a success, an hour after an error that will not go away, and otherwise after a doubling wait of minutes. */
  lemma ResultWrites(s: Shared, k: Key, token: Uuid, result: CleanupResult, fate: Fate, s': Shared, l': Cleaner)
    requires TombstonesInv(s.db, s.now) && CleanStep(s, Applying(k, token, result), ApplyResult(fate), s', l')
    ensures l' == Resting
    ensures if k in s.db.tombstones && s.db.tombstones[k].reservationToken == Some(token) && Applied(fate) then
              var t := s.db.tombstones[k];
              && t.failureStreak >= 0
              && var wait := match result
                             case DeleteSucceeded => DAY
                             case ConfirmedAbsent => DAY
                             case DeleteError(kind) =>
                               if kind.Transient? || kind.Ambiguous? then MINUTE * Min(Pow2(t.failureStreak), 60)
                               else HOUR;
                 s' == s.(db := s.db.(tombstones := s.db.tombstones[k := t.(
                   nextAttemptAt := s.now + wait,
                   reservationToken := None,
                   reservationExpiresAt := None,
                   failureStreak := if result.DeleteError? then t.failureStreak + 1 else 0,
                   lastAttemptAt := Some(s.now),
                   lastResult := Some(result))]))
            else s' == s
  {
    if k in s.db.tombstones {
      StreakIsCount(s.db, s.now, k);
      AttemptedColumns(s.db.tombstones[k], s.now, result);
    }
  }

  lemma StreakIsCount(db: Db, now: Time, k: Key)
    requires TombstonesInv(db, now) && k in db.tombstones
    ensures db.tombstones[k].failureStreak >= 0
  {
    assert TombstoneInv(db, now, k);
  }

  lemma AttemptedColumns(t: Tombstone, now: Time, result: CleanupResult)
    requires t.failureStreak >= 0
    ensures var wait := match result
                        case DeleteSucceeded => DAY
                        case ConfirmedAbsent => DAY
                        case DeleteError(kind) =>
                          if kind.Transient? || kind.Ambiguous? then MINUTE * Min(Pow2(t.failureStreak), 60) else HOUR;
            Attempted(t, now, result) == t.(
              nextAttemptAt := now + wait,
              reservationToken := None,
              reservationExpiresAt := None,
              failureStreak := if result.DeleteError? then t.failureStreak + 1 else 0,
              lastAttemptAt := Some(now),
              lastResult := Some(result))
  {
    if result.DeleteError? {
      DelaysAreClippedPowers(t.failureStreak + 1, result.kind);
    }
  }
}
