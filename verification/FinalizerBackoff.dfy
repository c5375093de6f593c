/** Backoff of the finalizer. A repeated completion wakes an upload at once, so the schedule holds over a run exactly
    as long as no such completion cuts it short. */
module FinalizerBackoff {
  import opened Types
  import opened Schema
  import opened Backoff
  import opened Transactions
  import opened DbInvariant
  import opened World
  import opened Invariant
  import opened WorldInvariant
  import opened Lifecycle

  predicate FinalizingIn(w: World, id: Uuid) {
    id in w.s.db.uploads && w.s.db.uploads[id].state.Finalizing? && w.s.db.uploads[id].reconcileAfter.Some?
  }

  /** This event is an applied completion of an upload that is still waiting for its retry. */
  predicate CutsShort(w: World, ev: Event, id: Uuid) {
    && ev.Complete? && ev.complete.TryComplete? && Applied(ev.complete.fate)
    && ev.i in w.completers && w.completers[ev.i].Attempt? && w.completers[ev.i].upload == id
    && FinalizingIn(w, id) && w.s.now < w.s.db.uploads[id].reconcileAfter.value
  }

  /** What a finalizer's step does to the schedule of a row that stays finalizing. */
  predicate RetryStep(u: Upload, v: Upload, now: Time) {
    || (v.reconcileAfter == u.reconcileAfter && v.failureStreak == u.failureStreak)
    || (exists kind :: HasLease(u, now) && v == Retried(u, now, kind))
  }

  lemma FinSchedules(env: Env, s: Shared, l: Finalizer, e: FinEvent, s': Shared, l': Finalizer, id: Uuid)
    requires FinStep(env, s, l, e, s', l') && id in s.db.uploads && id in s'.db.uploads
    requires s.db.uploads[id].state.Finalizing? && s'.db.uploads[id].state.Finalizing?
    ensures RetryStep(s.db.uploads[id], s'.db.uploads[id], s.now)
  {
    if e.Reschedule? && s'.db != s.db && l.claim.upload == id {
      assert s'.db.uploads[id] == Retried(s.db.uploads[id], s.now, l.pc.kind);
    }
  }

  lemma CleanSchedules(s: Shared, l: Cleaner, e: CleanEvent, s': Shared, l': Cleaner, id: Uuid)
    requires CleanStep(s, l, e, s', l') && id in s.db.uploads && id in s'.db.uploads
    ensures s'.db.uploads[id] == s.db.uploads[id]
  {
  }

  lemma CreateSchedules(s: Shared, l: Creator, e: CreateEvent, s': Shared, l': Creator, ret: Option<CreateReturn>,
                        id: Uuid)
    requires CreatorInv(s, l) && CreateStep(s, l, e, s', l', ret) && id in s.db.uploads && id in s'.db.uploads
    ensures s'.db.uploads[id].reconcileAfter == s.db.uploads[id].reconcileAfter
    ensures s'.db.uploads[id].failureStreak == s.db.uploads[id].failureStreak
  {
  }

  lemma CompleteSchedules(s: Shared, l: Completer, e: CompleteEvent, s': Shared, l': Completer,
                          ret: Option<CompleteReturn>, id: Uuid)
    requires CompleteStep(s, l, e, s', l', ret) && id in s.db.uploads && id in s'.db.uploads
    requires s.db.uploads[id].state.Finalizing? && s.db.uploads[id].reconcileAfter.Some?
    ensures s'.db.uploads[id].failureStreak == s.db.uploads[id].failureStreak
    ensures s'.db.uploads[id].reconcileAfter ==
            if e.TryComplete? && Applied(e.fate) && l.Attempt? && l.upload == id
                && s.now < s.db.uploads[id].reconcileAfter.value
            then Some(s.now) else s.db.uploads[id].reconcileAfter
  {
  }

  lemma OtherSchedules(s: Shared, e: EnvEvent, s': Shared, id: Uuid)
    requires EnvStep(s, e, s') && id in s.db.uploads && id in s'.db.uploads && s.db.uploads[id].state.Finalizing?
    ensures s'.db.uploads[id] == s.db.uploads[id]
  {
  }

  /** One event: a row that stays finalizing is rescheduled by a retry of the worker that holds its lease, is woken by a
      repeated completion, or keeps its schedule. */
  lemma ScheduleStep(env: Env, w: World, ev: Event, w': World, id: Uuid)
    requires CreatorsInv(w.s, w.creators) && Next(env, w, ev, w')
    requires FinalizingIn(w, id) && FinalizingIn(w', id)
    ensures CutsShort(w, ev, id) ==>
              w'.s.db.uploads[id] == w.s.db.uploads[id].(reconcileAfter := Some(w.s.now))
    ensures !CutsShort(w, ev, id) ==> RetryStep(w.s.db.uploads[id], w'.s.db.uploads[id], w.s.now)
  {
    match ev
    case Fin(i, e) => FinSchedules(env, w.s, w.finalizers[i], e, w'.s, w'.finalizers[i], id);
    case Clean(i, e) => CleanSchedules(w.s, w.cleaners[i], e, w'.s, w'.cleaners[i], id);
    case Create(i, e) =>
      var ret :| CreateNext(w, i, e, ret, w');
      CreateSchedules(w.s, w.creators[i], e, w'.s, w'.creators[i], ret, id);
    case Complete(i, e) =>
      var ret :| CompleteNext(w, i, e, ret, w');
      CompleteSchedules(w.s, w.completers[i], e, w'.s, w'.completers[i], ret, id);
    case Other(e) => OtherSchedules(w.s, e, w'.s, id);
  }

  /** A retry waits from the moment it is stored, and it is stored only when the previous wait is over. */
  lemma RetryWaits(id: Uuid, u: Upload, v: Upload, now: Time)
    requires UploadRowOk(id, u) && UploadTimely(u, now) && u.state.Finalizing? && v.state.Finalizing?
    requires v.reconcileAfter.Some? && RetryStep(u, v, now)
    ensures u.failureStreak >= 0
    ensures || (v.failureStreak == u.failureStreak && v.reconcileAfter == u.reconcileAfter)
            || (&& v.failureStreak == u.failureStreak + 1 && v.lastFailureAt == Some(now)
                && u.reconcileAfter.value <= now
                && v.reconcileAfter.value >= now + SECOND * Min(Pow2(v.failureStreak - 1), 60))
  {
  }

  predicate FailingUpload(w: World, id: Uuid) {
    FinalizingIn(w, id) && w.s.db.uploads[id].failureStreak > 0
  }

  /** This step stores the upload's first failure, at the clock of the attempt. */
  predicate FirstRetry(w: World, w': World, id: Uuid) {
    && FinalizingIn(w, id) && w.s.db.uploads[id].failureStreak == 0
    && FinalizingIn(w', id) && w'.s.db.uploads[id].failureStreak == 1
    && w'.s.db.uploads[id].lastFailureAt == Some(w.s.now)
  }

  lemma WasFinalizing(env: Env, worlds: seq<World>, events: seq<Event>, n: nat, id: Uuid)
    requires Run(env, worlds, events) && n < |events| && FailingUpload(worlds[n + 1], id)
    ensures FinalizingIn(worlds[n], id)
    ensures UploadRowOk(id, worlds[n].s.db.uploads[id]) && UploadTimely(worlds[n].s.db.uploads[id], worlds[n].s.now)
    ensures CreatorsInv(worlds[n].s, worlds[n].creators)
  {
    RunKeeps(env, worlds, events, n);
    RunStep(env, worlds, events, n);
    var s, s' := worlds[n].s, worlds[n + 1].s;
    assert id in s.db.uploads;
    assert UploadStep(s.db.uploads[id], s'.db.uploads[id], s.now, TokenBy(worlds[n], events[n]));
    assert UploadRowOk(id, s.db.uploads[id]);
  }

  lemma UploadBefore(env: Env, worlds: seq<World>, events: seq<Event>, n: nat, id: Uuid)
    requires Run(env, worlds, events) && n < |events| && FailingUpload(worlds[n + 1], id)
    ensures FinalizingIn(worlds[n], id)
    ensures UploadRowOk(id, worlds[n].s.db.uploads[id]) && UploadTimely(worlds[n].s.db.uploads[id], worlds[n].s.now)
    ensures CutsShort(worlds[n], events[n], id) ==>
              worlds[n + 1].s.db.uploads[id] == worlds[n].s.db.uploads[id].(reconcileAfter := Some(worlds[n].s.now))
    ensures !CutsShort(worlds[n], events[n], id) ==>
              RetryStep(worlds[n].s.db.uploads[id], worlds[n + 1].s.db.uploads[id], worlds[n].s.now)
  {
    WasFinalizing(env, worlds, events, n, id);
    StepAt(env, worlds, events, n);
    ScheduleStep(env, worlds[n], events[n], worlds[n + 1], id);
  }

  /** After s consecutive failures of any classes the next attempt is at least FailureWait(s) seconds after the first of
      them, if no completion cut a wait short in between. */
  lemma {:induction false} RetryBackoffOverRuns(env: Env, worlds: seq<World>, events: seq<Event>, n: nat, id: Uuid)
    returns (j: nat)
    requires Run(env, worlds, events) && n < |worlds| && FailingUpload(worlds[n], id)
    ensures j < n && FirstRetry(worlds[j], worlds[j + 1], id)
    ensures forall i | j < i <= n :: FailingUpload(worlds[i], id)
    ensures (forall i | j < i < n :: !CutsShort(worlds[i], events[i], id)) ==>
              worlds[n].s.db.uploads[id].reconcileAfter.value >=
              worlds[j].s.now + SECOND * FailureWait(worlds[n].s.db.uploads[id].failureStreak)
    decreases n
  {
    if n == 0 {
      assert false;
    } else {
      UploadBefore(env, worlds, events, n - 1, id);
      var u, v := worlds[n - 1].s.db.uploads[id], worlds[n].s.db.uploads[id];
      if !CutsShort(worlds[n - 1], events[n - 1], id) {
        RetryWaits(id, u, v, worlds[n - 1].s.now);
      }
      if u.failureStreak == 0 {
        j := n - 1;
        assert FailureWait(1) == 1;
      } else {
        j := RetryBackoffOverRuns(env, worlds, events, n - 1, id);
      }
    }
  }

  /** One event: among those that keep the failure streak, the ones that keep the wait are those that do not cut it
      short. */
  lemma WaitKeptUnlessCutShort(env: Env, worlds: seq<World>, events: seq<Event>, n: nat, id: Uuid)
    requires Run(env, worlds, events) && n < |events| && FailingUpload(worlds[n + 1], id) && FinalizingIn(worlds[n], id)
    requires worlds[n + 1].s.db.uploads[id].failureStreak == worlds[n].s.db.uploads[id].failureStreak
    ensures worlds[n + 1].s.db.uploads[id].reconcileAfter.value >= worlds[n].s.db.uploads[id].reconcileAfter.value
            <==> !CutsShort(worlds[n], events[n], id)
  {
    UploadBefore(env, worlds, events, n, id);
    if !CutsShort(worlds[n], events[n], id) {
      RetryWaits(id, worlds[n].s.db.uploads[id], worlds[n + 1].s.db.uploads[id], worlds[n].s.now);
    }
  }

  // ---------------------------------------------- the exact condition on a run

  /** Where the schedule of the failures since event j would put the next attempt of a row with this streak. */
  function Scheduled(w: World, streak: nat): Time {
    w.s.now + SECOND * FailureWait(streak)
  }

  predicate Waits(worlds: seq<World>, j: nat, i: nat, id: Uuid)
    requires j < |worlds| && i < |worlds|
  {
    FailingUpload(worlds[i], id) &&
    worlds[i].s.db.uploads[id].reconcileAfter.value >= Scheduled(worlds[j], worlds[i].s.db.uploads[id].failureStreak)
  }

  /** A completion applied before the schedule of the failures since event j lets the upload be tried again. */
  predicate CutsEarly(worlds: seq<World>, events: seq<Event>, j: nat, i: nat, id: Uuid)
    requires j < |worlds| && i < |worlds| && i < |events|
  {
    && CutsShort(worlds[i], events[i], id) && worlds[i].s.db.uploads[id].failureStreak >= 0
    && worlds[i].s.now < Scheduled(worlds[j], worlds[i].s.db.uploads[id].failureStreak)
  }

  lemma StaysFinalizing(env: Env, worlds: seq<World>, events: seq<Event>, l: nat, m: nat, n: nat, id: Uuid)
    requires Run(env, worlds, events) && l <= m <= n < |worlds|
    requires FinalizingIn(worlds[l], id) && FinalizingIn(worlds[n], id)
    ensures FinalizingIn(worlds[m], id)
  {
    LifecycleIsBounded(env, worlds, events, l, m, id);
    LifecycleIsBounded(env, worlds, events, m, n, id);
    RowOkAt(env, worlds, events, m, id);
  }

  lemma ScheduleStepAt(env: Env, worlds: seq<World>, events: seq<Event>, n: nat, id: Uuid)
    requires Run(env, worlds, events) && n < |events| && FinalizingIn(worlds[n], id) && FinalizingIn(worlds[n + 1], id)
    ensures var u, v, now := worlds[n].s.db.uploads[id], worlds[n + 1].s.db.uploads[id], worlds[n].s.now;
            if CutsShort(worlds[n], events[n], id) then v == u.(reconcileAfter := Some(now)) else RetryStep(u, v, now)
  {
    RunKeeps(env, worlds, events, n);
    StepAt(env, worlds, events, n);
    ScheduleStep(env, worlds[n], events[n], worlds[n + 1], id);
  }

  lemma {:induction false} StillFailing(env: Env, worlds: seq<World>, events: seq<Event>, m: nat, n: nat, id: Uuid)
    requires Run(env, worlds, events) && m <= n < |worlds|
    requires FailingUpload(worlds[m], id) && FinalizingIn(worlds[n], id)
    ensures FailingUpload(worlds[n], id)
    decreases n
  {
    if m < n {
      StaysFinalizing(env, worlds, events, m, n - 1, n, id);
      StillFailing(env, worlds, events, m, n - 1, id);
      ScheduleStepAt(env, worlds, events, n - 1, id);
    }
  }

  lemma FailingBetween(env: Env, worlds: seq<World>, events: seq<Event>, m: nat, n: nat, id: Uuid)
    requires Run(env, worlds, events) && m <= n < |worlds|
    requires FailingUpload(worlds[m], id) && FailingUpload(worlds[n], id)
    ensures forall i | m <= i <= n :: FailingUpload(worlds[i], id)
  {
    forall i | m <= i <= n ensures FailingUpload(worlds[i], id) {
      StaysFinalizing(env, worlds, events, m, i, n, id);
      StillFailing(env, worlds, events, m, i, id);
    }
  }

  lemma FirstWait(env: Env, worlds: seq<World>, events: seq<Event>, j: nat, id: Uuid)
    requires Run(env, worlds, events) && j < |events| && FirstRetry(worlds[j], worlds[j + 1], id)
    ensures Waits(worlds, j, j + 1, id)
  {
    UploadBefore(env, worlds, events, j, id);
    RetryWaits(id, worlds[j].s.db.uploads[id], worlds[j + 1].s.db.uploads[id], worlds[j].s.now);
    assert FailureWait(1) == 1;
  }

  lemma NextWait(env: Env, worlds: seq<World>, events: seq<Event>, j: nat, n: nat, id: Uuid)
    requires Run(env, worlds, events) && j < n < |events| && Waits(worlds, j, n, id) && FailingUpload(worlds[n + 1], id)
    ensures Waits(worlds, j, n + 1, id) <==> !CutsEarly(worlds, events, j, n, id)
  {
    UploadBefore(env, worlds, events, n, id);
    if !CutsShort(worlds[n], events[n], id) {
      RetryWaits(id, worlds[n].s.db.uploads[id], worlds[n + 1].s.db.uploads[id], worlds[n].s.now);
    }
  }

  /** The schedule holds at every moment since the first failure exactly when no completion since then came before the
      time it puts the next attempt at. Of a single moment only one direction is true (RetryBackoffOverRuns): after an
      early completion the next attempt may itself come late, and its failure puts the row back on schedule. */
  lemma {:induction false} BackoffHoldsExactly(env: Env, worlds: seq<World>, events: seq<Event>, j: nat, n: nat,
                                               id: Uuid)
    requires Run(env, worlds, events) && j < n < |worlds|
    requires FirstRetry(worlds[j], worlds[j + 1], id) && FailingUpload(worlds[n], id)
    ensures (forall i | j < i <= n :: Waits(worlds, j, i, id)) <==>
              (forall i | j < i < n :: !CutsEarly(worlds, events, j, i, id))
    decreases n
  {
    FirstWait(env, worlds, events, j, id);
    if j + 1 < n {
      FailingBetween(env, worlds, events, j + 1, n, id);
      BackoffHoldsExactly(env, worlds, events, j, n - 1, id);
      if Waits(worlds, j, n - 1, id) {
        NextWait(env, worlds, events, j, n - 1, id);
      }
    }
  }
}
