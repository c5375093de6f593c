/** Starvation freedom of the two work queues, as measures over arbitrary runs. */
module Queues {
  import opened Types
  import opened Schema
  import opened Transactions
  import opened DbInvariant
  import opened World
  import opened Invariant
  import opened WorldInvariant
  import opened Backoff

  lemma {:induction false} SubsetSize<T>(a: set<T>, b: set<T>)
    requires a <= b
    ensures |a| <= |b|
  {
    if a != {} {
      var x :| x in a;
      SubsetSize(a - {x}, b - {x});
    }
  }

  // -------------------------------------------------------------- cleanup

  /** Tombstones ordered before k, were k due at t. */
  function Ahead(db: Db, t: Time, k: Key): set<Key> {
    set j | j in db.tombstones && EarlierKey(db.tombstones[j].nextAttemptAt, j, t, k)
  }

  /** Open uploads whose staging tombstone may still be inserted at t or before: back-dated into the queue. */
  function OpenBy(db: Db, t: Time): set<Uuid> {
    set id | id in db.uploads && !Terminal(db.uploads[id].state) && db.uploads[id].horizon <= t
  }

  function CleanupMeasure(db: Db, t: Time, k: Key): nat {
    |Ahead(db, t, k)| + |OpenBy(db, t)|
  }

  function StagingKeys(ids: set<Uuid>): set<Key> {
    set id | id in ids :: Staging(id)
  }

  lemma {:induction false} StagingKeysSize(ids: set<Uuid>)
    ensures |StagingKeys(ids)| == |ids|
  {
    if ids != {} {
      var x :| x in ids;
      StagingKeysSize(ids - {x});
      assert StagingKeys(ids) == StagingKeys(ids - {x}) + {Staging(x)};
    } else {
      assert StagingKeys(ids) == {};
    }
  }

  lemma TradeKeepsSize(ahead': set<Key>, ahead: set<Key>, open': set<Uuid>, open: set<Uuid>)
    requires open' <= open && ahead' <= ahead + StagingKeys(open - open')
    ensures |ahead'| + |open'| <= |ahead| + |open|
  {
    var gone := open - open';
    StagingKeysSize(gone);
    SubsetSize(ahead', ahead + StagingKeys(gone));
    assert open == open' + gone;
  }

  lemma OpenByShrinks(s: Shared, s': Shared, byToken: Option<Uuid>, byUpload: Option<Uuid>, t: Time)
    requires Guarantee(s, s', byToken, byUpload) && t < s.now
    ensures OpenBy(s'.db, t) <= OpenBy(s.db, t)
  {
  }

  /** What joins the queue ahead of a due tombstone is a staging key, and pays for it by closing its upload. */
  lemma AheadGrowsOnlyByClosing(env: Env, s: Shared, s': Shared, byToken: Option<Uuid>, byUpload: Option<Uuid>,
                                t: Time, k: Key)
    requires SharedInv(env, s) && SharedInv(env, s') && Guarantee(s, s', byToken, byUpload) && t < s.now
    ensures Ahead(s'.db, t, k) <= Ahead(s.db, t, k) + StagingKeys(OpenBy(s.db, t) - OpenBy(s'.db, t))
  {
    forall j | j in Ahead(s'.db, t, k)
      ensures j in Ahead(s.db, t, k) + StagingKeys(OpenBy(s.db, t) - OpenBy(s'.db, t))
    {
      if j in s.db.tombstones {
        StepKeepsDue(s, s', byToken, byUpload, t, j);
      } else {
        NewcomerPays(s, s', byToken, byUpload, t, j);
      }
    }
  }

  lemma StepKeepsDue(s: Shared, s': Shared, byToken: Option<Uuid>, byUpload: Option<Uuid>, t: Time, j: Key)
    requires Guarantee(s, s', byToken, byUpload) && t < s.now
    requires j in s.db.tombstones && j in s'.db.tombstones && s'.db.tombstones[j].nextAttemptAt <= t
    ensures s'.db.tombstones[j].nextAttemptAt == s.db.tombstones[j].nextAttemptAt
  {
  }

  lemma AttemptIsLater(a: Tombstone, now: Time, result: CleanupResult)
    ensures now < Attempted(a, now, result).nextAttemptAt
  {
    if result.DeleteError? {
      var streak := a.failureStreak + 1;
      if streak >= 1 {
        DelaysAreClippedPowers(streak, result.kind);
        Pow2Positive(streak - 1);
      }
    }
  }

  lemma NewcomerPays(s: Shared, s': Shared, byToken: Option<Uuid>, byUpload: Option<Uuid>, t: Time, j: Key)
    requires DutiesExact(s'.db) && Guarantee(s, s', byToken, byUpload) && t < s.now
    requires j !in s.db.tombstones && j in s'.db.tombstones && s'.db.tombstones[j].nextAttemptAt <= t
    ensures j.Staging? && j.upload in OpenBy(s.db, t) - OpenBy(s'.db, t)
    ensures j in StagingKeys(OpenBy(s.db, t) - OpenBy(s'.db, t))
  {
  }

  /** Behind a tombstone that is overdue, the queue never grows. */
  lemma CleanupNeverGrows(env: Env, s: Shared, s': Shared, byToken: Option<Uuid>, byUpload: Option<Uuid>, t: Time,
                          k: Key)
    requires SharedInv(env, s) && SharedInv(env, s') && Guarantee(s, s', byToken, byUpload) && t < s.now
    ensures CleanupMeasure(s'.db, t, k) <= CleanupMeasure(s.db, t, k)
  {
    OpenByShrinks(s, s', byToken, byUpload, t);
    AheadGrowsOnlyByClosing(env, s, s', byToken, byUpload, t, k);
    TradeKeepsSize(Ahead(s'.db, t, k), Ahead(s.db, t, k), OpenBy(s'.db, t), OpenBy(s.db, t));
  }

  /** This event applies a result to a tombstone ahead of k. */
  predicate Serves(w: World, ev: Event, t: Time, k: Key) {
    && ev.Clean? && ev.clean.ApplyResult? && Applied(ev.clean.fate)
    && ev.i in w.cleaners && w.cleaners[ev.i].Applying?
    && w.cleaners[ev.i].key in Ahead(w.s.db, t, k)
    && TxApply(w.s.db, w.s.now, w.cleaners[ev.i].key, w.cleaners[ev.i].token, w.cleaners[ev.i].result).Some?
  }

  lemma ServingShrinks(env: Env, w: World, ev: Event, w': World, t: Time, k: Key)
    requires Next(env, w, ev, w') && t < w.s.now && Serves(w, ev, t, k)
    ensures CleanupMeasure(w'.s.db, t, k) < CleanupMeasure(w.s.db, t, k)
  {
    var l := w.cleaners[ev.i];
    assert CleanStep(w.s, l, ev.clean, w'.s, w'.cleaners[ev.i]);
    var j := l.key;
    AttemptIsLater(w.s.db.tombstones[j], w.s.now, l.result);
    assert Ahead(w'.s.db, t, k) <= Ahead(w.s.db, t, k) - {j};
    SubsetSize(Ahead(w'.s.db, t, k), Ahead(w.s.db, t, k) - {j});
    assert OpenBy(w'.s.db, t) == OpenBy(w.s.db, t);
  }

  /** How many of the events m..n-1 applied a result ahead of k. */
  ghost function Served(worlds: seq<World>, events: seq<Event>, m: nat, n: nat, t: Time, k: Key): nat
    requires m <= n <= |events| && |worlds| == |events| + 1
    decreases n
  {
    if m == n then 0
    else Served(worlds, events, m, n - 1, t, k) + if Serves(worlds[n - 1], events[n - 1], t, k) then 1 else 0
  }

  lemma MeasureStep(env: Env, worlds: seq<World>, events: seq<Event>, n: nat, t: Time, k: Key)
    requires Run(env, worlds, events) && n < |events| && t < worlds[n].s.now
    ensures CleanupMeasure(worlds[n + 1].s.db, t, k) + (if Serves(worlds[n], events[n], t, k) then 1 else 0)
            <= CleanupMeasure(worlds[n].s.db, t, k)
  {
    if Serves(worlds[n], events[n], t, k) {
      StepAt(env, worlds, events, n);
      ServingShrinks(env, worlds[n], events[n], worlds[n + 1], t, k);
    } else {
      SharedInvAt(env, worlds, events, n);
      SharedInvAt(env, worlds, events, n + 1);
      RunStep(env, worlds, events, n);
      CleanupNeverGrows(env, worlds[n].s, worlds[n + 1].s, TokenBy(worlds[n], events[n]),
          UploadBy(worlds[n], events[n]), t, k);
    }
  }

  lemma SharedInvAt(env: Env, worlds: seq<World>, events: seq<Event>, n: nat)
    requires Run(env, worlds, events) && n < |worlds|
    ensures SharedInv(env, worlds[n].s)
  {
    RunKeeps(env, worlds, events, n);
  }

  lemma ClockAt(env: Env, worlds: seq<World>, events: seq<Event>, n: nat)
    requires Run(env, worlds, events) && n < |events|
    ensures worlds[n].s.now <= worlds[n + 1].s.now
  {
    RunStep(env, worlds, events, n);
  }

  /** From any moment after t, over any number of events: the results applied ahead of k, plus what is still ahead
      or may yet be back-dated ahead, never exceed what was there at that moment. */
  lemma {:induction false} CleanupWorkAheadIsBounded(env: Env, worlds: seq<World>, events: seq<Event>, m: nat, n: nat,
                                                     t: Time, k: Key)
    requires Run(env, worlds, events) && m <= n <= |events| && t < worlds[m].s.now
    ensures Served(worlds, events, m, n, t, k) + CleanupMeasure(worlds[n].s.db, t, k)
            <= CleanupMeasure(worlds[m].s.db, t, k)
    ensures t < worlds[n].s.now
    decreases n
  {
    if m < n {
      CleanupWorkAheadIsBounded(env, worlds, events, m, n - 1, t, k);
      MeasureStep(env, worlds, events, n - 1, t, k);
      ClockAt(env, worlds, events, n - 1);
    }
  }

  /** A reservation never passes over k while k is due, unlocked and not reserved, or its reservation has run out: it
      takes k itself or a tombstone ahead of it. So once as many results were applied as the measure allowed, the next
      reservation that finds k in this state takes k. */
  lemma CleanupIsStarvationFree(env: Env, worlds: seq<World>, events: seq<Event>, m: nat, n: nat, t: Time, k: Key)
    requires Run(env, worlds, events) && m <= n < |events| && t < worlds[m].s.now
    requires k in worlds[n].s.db.tombstones && worlds[n].s.db.tombstones[k].nextAttemptAt == t
    requires Owed(worlds[n].s.db.tombstones[k], worlds[n].s.now)
    requires events[n].Clean? && events[n].clean.Reserve? && k !in events[n].clean.skipped
    ensures events[n].clean.key == k || events[n].clean.key in Ahead(worlds[n].s.db, t, k)
    ensures Served(worlds, events, m, n, t, k) >= CleanupMeasure(worlds[m].s.db, t, k) ==> events[n].clean.key == k
  {
    CleanupWorkAheadIsBounded(env, worlds, events, m, n, t, k);
    SharedInvAt(env, worlds, events, n);
    OwedIsDue(worlds[n].s.db, worlds[n].s.now, k);
    ReservesNext(env, worlds, events, n);
    if events[n].clean.key != k {
      SubsetSize({events[n].clean.key}, Ahead(worlds[n].s.db, t, k));
    }
  }

  lemma OwedIsDue(db: Db, now: Time, k: Key)
    requires DutiesExact(db) && TombstonesInv(db, now) && k in db.tombstones
    ensures Owed(db.tombstones[k], now) <==> CleanupDue(db, now, k)
  {
    assert TombstoneInv(db, now, k) && Retired(db, k);
  }

  lemma ReservesNext(env: Env, worlds: seq<World>, events: seq<Event>, n: nat)
    requires Run(env, worlds, events) && n < |events| && events[n].Clean? && events[n].clean.Reserve?
    ensures NextCleanup(worlds[n].s.db, worlds[n].s.now, events[n].clean.skipped, events[n].clean.key)
  {
    StepAt(env, worlds, events, n);
  }

  // ------------------------------------------------------------- finalizing

  /** Finalizing uploads ordered before x, were x due at t. */
  function AheadOf(db: Db, t: Time, x: Uuid): set<Uuid> {
    set id | id in db.uploads && db.uploads[id].state.Finalizing? && db.uploads[id].reconcileAfter.Some?
             && Earlier(db.uploads[id].reconcileAfter.value, id, t, x)
  }

  /** Neither a new completion nor a replayed one jumps ahead of an overdue upload. */
  lemma AheadOfNeverGrows(s: Shared, s': Shared, byToken: Option<Uuid>, byUpload: Option<Uuid>, t: Time, x: Uuid)
    requires Guarantee(s, s', byToken, byUpload) && t < s.now
    ensures AheadOf(s'.db, t, x) <= AheadOf(s.db, t, x)
  {
  }

  /** This event ends a claim on an upload ahead of x: a retry or a terminal commit is applied. */
  predicate Resolves(w: World, ev: Event, t: Time, x: Uuid) {
    && ev.Fin? && ev.i in w.finalizers && w.finalizers[ev.i].Working?
    && var l := w.finalizers[ev.i];
       && l.claim.upload in AheadOf(w.s.db, t, x)
       && Live(w.s.db, w.s.now, l.claim.upload, l.claim.token)
       && (|| (ev.fin.Reschedule? && l.pc.ScheduleRetry? && Applied(ev.fin.fate))
           || (ev.fin.Commit? && (l.pc.CommitReady? || l.pc.CommitReject? || l.pc.CommitExpire?)
               && TxTerminal(w.s, l.claim, l.pc).Changed? && Applied(ev.fin.fate)))
  }

  lemma ResolvedLeaves(env: Env, s: Shared, l: Finalizer, e: FinEvent, s': Shared, l': Finalizer, t: Time, x: Uuid)
    requires FinStep(env, s, l, e, s', l') && l.Working? && t < s.now
    requires l.claim.upload in s.db.uploads && s.db.uploads[l.claim.upload].failureStreak >= 0
    requires Live(s.db, s.now, l.claim.upload, l.claim.token)
    requires (e.Reschedule? && l.pc.ScheduleRetry? && Applied(e.fate))
             || (e.Commit? && (l.pc.CommitReady? || l.pc.CommitReject? || l.pc.CommitExpire?)
                 && TxTerminal(s, l.claim, l.pc).Changed? && Applied(e.fate))
    ensures l.claim.upload !in AheadOf(s'.db, t, x)
  {
  }

  lemma ResolvingStep(env: Env, worlds: seq<World>, events: seq<Event>, n: nat, t: Time, x: Uuid)
    requires Run(env, worlds, events) && n < |events| && t < worlds[n].s.now
    ensures |AheadOf(worlds[n + 1].s.db, t, x)| + (if Resolves(worlds[n], events[n], t, x) then 1 else 0)
            <= |AheadOf(worlds[n].s.db, t, x)|
  {
    AheadOfShrinks(env, worlds, events, n, t, x);
    var after, before := AheadOf(worlds[n + 1].s.db, t, x), AheadOf(worlds[n].s.db, t, x);
    if Resolves(worlds[n], events[n], t, x) {
      ResolvingRemoves(env, worlds, events, n, t, x);
      SubsetSize(after, before - {worlds[n].finalizers[events[n].i].claim.upload});
    } else {
      SubsetSize(after, before);
    }
  }

  lemma AheadOfShrinks(env: Env, worlds: seq<World>, events: seq<Event>, n: nat, t: Time, x: Uuid)
    requires Run(env, worlds, events) && n < |events| && t < worlds[n].s.now
    ensures AheadOf(worlds[n + 1].s.db, t, x) <= AheadOf(worlds[n].s.db, t, x)
  {
    var w, w' := worlds[n], worlds[n + 1];
    RunStep(env, worlds, events, n);
    AheadOfNeverGrows(w.s, w'.s, TokenBy(w, events[n]), UploadBy(w, events[n]), t, x);
  }

  lemma ResolvingRemoves(env: Env, worlds: seq<World>, events: seq<Event>, n: nat, t: Time, x: Uuid)
    requires Run(env, worlds, events) && n < |events| && t < worlds[n].s.now && Resolves(worlds[n], events[n], t, x)
    ensures worlds[n].finalizers[events[n].i].claim.upload !in AheadOf(worlds[n + 1].s.db, t, x)
  {
    var w, w' := worlds[n], worlds[n + 1];
    FinalizersMoveAt(env, worlds, events, n);
    StreakAt(env, worlds, events, n);
    var l := w.finalizers[events[n].i];
    ResolvedLeaves(env, w.s, l, events[n].fin, w'.s, w'.finalizers[events[n].i], t, x);
  }

  lemma StreakAt(env: Env, worlds: seq<World>, events: seq<Event>, n: nat)
    requires Run(env, worlds, events) && n < |worlds|
    ensures forall id | id in worlds[n].s.db.uploads :: worlds[n].s.db.uploads[id].failureStreak >= 0
  {
    SharedInvAt(env, worlds, events, n);
    forall id | id in worlds[n].s.db.uploads ensures worlds[n].s.db.uploads[id].failureStreak >= 0 {
      assert UploadRowOk(id, worlds[n].s.db.uploads[id]);
    }
  }

  ghost function Resolved(worlds: seq<World>, events: seq<Event>, m: nat, n: nat, t: Time, x: Uuid): nat
    requires m <= n <= |events| && |worlds| == |events| + 1
    decreases n
  {
    if m == n then 0
    else Resolved(worlds, events, m, n - 1, t, x) + if Resolves(worlds[n - 1], events[n - 1], t, x) then 1 else 0
  }

  /** From any moment after t: claims resolved ahead of x, plus uploads still ahead, never exceed those ahead at
      that moment. */
  lemma {:induction false} FinalizerWorkAheadIsBounded(env: Env, worlds: seq<World>, events: seq<Event>, m: nat,
                                                       n: nat, t: Time, x: Uuid)
    requires Run(env, worlds, events) && m <= n <= |events| && t < worlds[m].s.now
    ensures Resolved(worlds, events, m, n, t, x) + |AheadOf(worlds[n].s.db, t, x)| <= |AheadOf(worlds[m].s.db, t, x)|
    ensures t < worlds[n].s.now
    decreases n
  {
    if m < n {
      FinalizerWorkAheadIsBounded(env, worlds, events, m, n - 1, t, x);
      ResolvingStep(env, worlds, events, n - 1, t, x);
      ClockAt(env, worlds, events, n - 1);
    }
  }

  /** A claim never passes over x while x is due, unlocked and without a lease, or with one that has run out; and
      once as many claims were resolved ahead of x as there were uploads ahead, the next claim that finds x so takes
      x. */
  lemma FinalizingIsStarvationFree(env: Env, worlds: seq<World>, events: seq<Event>, m: nat, n: nat, t: Time, x: Uuid)
    requires Run(env, worlds, events) && m <= n < |events| && t < worlds[m].s.now
    requires x in worlds[n].s.db.uploads && worlds[n].s.db.uploads[x].reconcileAfter == Some(t)
    requires Waiting(worlds[n].s.db.uploads[x], worlds[n].s.now)
    requires events[n].Fin? && events[n].fin.TakeClaim? && x !in events[n].fin.skipped
    ensures events[n].fin.id == x || events[n].fin.id in AheadOf(worlds[n].s.db, t, x)
    ensures Resolved(worlds, events, m, n, t, x) >= |AheadOf(worlds[m].s.db, t, x)| ==> events[n].fin.id == x
  {
    FinalizerWorkAheadIsBounded(env, worlds, events, m, n, t, x);
    SharedInvAt(env, worlds, events, n);
    WaitingIsDue(worlds[n].s.db, worlds[n].s.now, x);
    ClaimsNext(env, worlds, events, n);
    if events[n].fin.id != x {
      SubsetSize({events[n].fin.id}, AheadOf(worlds[n].s.db, t, x));
    }
  }

  lemma WaitingIsDue(db: Db, now: Time, id: Uuid)
    requires UploadsInv(db, now) && id in db.uploads
    ensures Waiting(db.uploads[id], now) <==> ClaimDue(db.uploads[id], now)
  {
    assert UploadRowOk(id, db.uploads[id]);
  }

  lemma ClaimsNext(env: Env, worlds: seq<World>, events: seq<Event>, n: nat)
    requires Run(env, worlds, events) && n < |events| && events[n].Fin? && events[n].fin.TakeClaim?
    ensures NextClaim(worlds[n].s.db, worlds[n].s.now, events[n].fin.skipped, events[n].fin.id)
  {
    FinalizersMoveAt(env, worlds, events, n);
  }
}
