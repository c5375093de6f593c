/** Leases are exclusive: a row has one worker at a time and a key one cleaner, as long as the lease runs. */
module Leases {
  import opened Types
  import opened Transactions
  import opened DbInvariant
  import opened World
  import opened WorldInvariant
  import opened Safety
  import opened Queues
  import opened CleanupRuns

  // ------------------------------------------------------------------ claims

  /** The row is finalizing under this token, and its lease runs until then or longer. */
  predicate HeldUntil(s: Shared, id: Uuid, token: Uuid, until: Time) {
    && id in s.db.uploads && s.db.uploads[id].state.Finalizing? && s.db.uploads[id].claimToken == Some(token)
    && s.db.uploads[id].claimExpiresAt.Some? && s.db.uploads[id].claimExpiresAt.value >= until
  }

  predicate ClosedRow(s: Shared, id: Uuid) {
    id in s.db.uploads && Terminal(s.db.uploads[id].state)
  }

  /** The worker that holds this token stores a retry. */
  predicate StoresRetry(w: World, ev: Event, id: Uuid, token: Uuid) {
    && ev.Fin? && ev.fin.Reschedule? && Applied(ev.fin.fate)
    && ev.i in w.finalizers && w.finalizers[ev.i].Working? && w.finalizers[ev.i].pc.ScheduleRetry?
    && w.finalizers[ev.i].claim.upload == id && w.finalizers[ev.i].claim.token == token
  }

  lemma FinKeepsHeld(env: Env, w: World, i: nat, e: FinEvent, w': World, id: Uuid, token: Uuid, until: Time)
    requires FinNext(env, w, i, e, w') && HeldUntil(w.s, id, token, until) && w.s.now < until <= w.s.now + env.lease
    requires !StoresRetry(w, Fin(i, e), id, token)
    ensures HeldUntil(w'.s, id, token, until) || ClosedRow(w'.s, id)
  {
    var l := w.finalizers[i];
    if e.Commit? && Live(w.s.db, w.s.now, l.claim.upload, l.claim.token) {
      assert CommitStep(w.s, l.claim, l.pc, e.fate, w'.s, w'.finalizers[i]);
    }
  }

  lemma HeldKept(env: Env, worlds: seq<World>, events: seq<Event>, n: nat, id: Uuid, token: Uuid, until: Time)
    requires Run(env, worlds, events) && n < |events| && HeldUntil(worlds[n].s, id, token, until)
    requires worlds[n].s.now < until <= worlds[n].s.now + env.lease && !StoresRetry(worlds[n], events[n], id, token)
    ensures HeldUntil(worlds[n + 1].s, id, token, until) || ClosedRow(worlds[n + 1].s, id)
  {
    if events[n].Fin? {
      StepAt(env, worlds, events, n);
      FinKeepsHeld(env, worlds[n], events[n].i, events[n].fin, worlds[n + 1], id, token, until);
    } else {
      RunStep(env, worlds, events, n);
      assert UploadStep(worlds[n].s.db.uploads[id], worlds[n + 1].s.db.uploads[id], worlds[n].s.now, None);
    }
  }

  /** While its lease runs, a claim stays stored until its worker stores a retry or closes the row. */
  lemma {:induction false} ClaimStands(env: Env, worlds: seq<World>, events: seq<Event>, m: nat, n: nat)
    requires Run(env, worlds, events) && m < n < |worlds|
    requires events[m].Fin? && events[m].fin.TakeClaim? && Applied(events[m].fin.fate)
    requires forall j | m < j < n :: !StoresRetry(worlds[j], events[j], events[m].fin.id, events[m].fin.token)
    requires worlds[n].s.now < worlds[m].s.now + env.lease
    ensures worlds[m].s.now <= worlds[n].s.now
    ensures HeldUntil(worlds[n].s, events[m].fin.id, events[m].fin.token, worlds[m].s.now + env.lease)
            || ClosedRow(worlds[n].s, events[m].fin.id)
    decreases n
  {
    ClockAt(env, worlds, events, n - 1);
    if m == n - 1 {
      FinalizersMoveAt(env, worlds, events, m);
    } else {
      ClaimStands(env, worlds, events, m, n - 1);
      if ClosedRow(worlds[n - 1].s, events[m].fin.id) {
        PermanentRun(env, worlds, events, n - 1, n);
      } else {
        HeldKept(env, worlds, events, n - 1, events[m].fin.id, events[m].fin.token, worlds[m].s.now + env.lease);
      }
    }
  }

  /** A claimed row is claimed again only after the lease, or after the worker stored its retry: two workers do not work
      on one row at the same time. */
  lemma ClaimIsExclusive(env: Env, worlds: seq<World>, events: seq<Event>, m: nat, n: nat)
    requires Run(env, worlds, events) && m < n < |events|
    requires events[m].Fin? && events[m].fin.TakeClaim? && Applied(events[m].fin.fate)
    requires events[n].Fin? && events[n].fin.TakeClaim? && events[n].fin.id == events[m].fin.id
    requires forall j | m < j < n :: !StoresRetry(worlds[j], events[j], events[m].fin.id, events[m].fin.token)
    ensures worlds[n].s.now >= worlds[m].s.now + env.lease
  {
    if worlds[n].s.now < worlds[m].s.now + env.lease {
      ClaimStands(env, worlds, events, m, n);
      ClaimsNext(env, worlds, events, n);
    }
  }

  // ------------------------------------------------------------ reservations

  /** This event stores or releases a reservation of k. */
  predicate TouchesReservation(w: World, ev: Event, k: Key) {
    && ev.Clean? && ev.i in w.cleaners
    && (|| (ev.clean.Reserve? && ev.clean.key == k)
        || (ev.clean.ApplyResult? && w.cleaners[ev.i].Applying? && w.cleaners[ev.i].key == k))
  }

  lemma ClosingKeepsReservation(s: Shared, c: Claim, pc: Pc, fate: Fate, s': Shared, l': Finalizer, k: Key)
    requires CommitStep(s, c, pc, fate, s', l') && k in s.db.tombstones
    ensures k in s'.db.tombstones && s'.db.tombstones[k] == s.db.tombstones[k]
  {
  }

  lemma FinKeepsReservation(env: Env, s: Shared, l: Finalizer, e: FinEvent, s': Shared, l': Finalizer, k: Key)
    requires FinStep(env, s, l, e, s', l') && k in s.db.tombstones
    ensures k in s'.db.tombstones && s'.db.tombstones[k] == s.db.tombstones[k]
  {
    if e.Commit? { ClosingKeepsReservation(s, l.claim, l.pc, e.fate, s', l', k); }
  }

  lemma ReservationKept(env: Env, w: World, ev: Event, w': World, k: Key)
    requires Next(env, w, ev, w') && k in w.s.db.tombstones && !TouchesReservation(w, ev, k)
    ensures k in w'.s.db.tombstones && w'.s.db.tombstones[k] == w.s.db.tombstones[k]
  {
    match ev
    case Fin(i, e) => FinKeepsReservation(env, w.s, w.finalizers[i], e, w'.s, w'.finalizers[i], k);
    case Complete(i, e) =>
      var ret :| CompleteNext(w, i, e, ret, w');
      CompleteKeepsReservation(w.s, w.completers[i], e, w'.s, w'.completers[i], ret, k);
    case Create(i, e) => var ret :| CreateNext(w, i, e, ret, w');
    case _ =>
  }

  lemma CompleteKeepsReservation(s: Shared, l: Completer, e: CompleteEvent, s': Shared, l': Completer,
                                 ret: Option<CompleteReturn>, k: Key)
    requires CompleteStep(s, l, e, s', l', ret) && k in s.db.tombstones
    ensures k in s'.db.tombstones && s'.db.tombstones[k] == s.db.tombstones[k]
  {
  }

  predicate Reserved(w: World, k: Key, token: Uuid, until: Time) {
    && k in w.s.db.tombstones && w.s.db.tombstones[k].reservationToken == Some(token)
    && w.s.db.tombstones[k].reservationExpiresAt == Some(until)
  }

  lemma TouchKeepsReserved(w: World, i: nat, e: CleanEvent, w': World, k: Key, token: Uuid, until: Time)
    requires CleanNext(w, i, e, w') && Reserved(w, k, token, until) && w.s.now < until
    requires !AppliesResult(w, Clean(i, e), k, token)
    ensures Reserved(w', k, token, until)
  {
  }

  lemma StaysReserved(env: Env, worlds: seq<World>, events: seq<Event>, n: nat, k: Key, token: Uuid, until: Time)
    requires Run(env, worlds, events) && n < |events| && Reserved(worlds[n], k, token, until) && worlds[n].s.now < until
    requires !AppliesResult(worlds[n], events[n], k, token)
    ensures Reserved(worlds[n + 1], k, token, until)
  {
    StepAt(env, worlds, events, n);
    if TouchesReservation(worlds[n], events[n], k) {
      TouchKeepsReserved(worlds[n], events[n].i, events[n].clean, worlds[n + 1], k, token, until);
    } else {
      ReservationKept(env, worlds[n], events[n], worlds[n + 1], k);
    }
  }

  /** While its half minute runs, a reservation stays stored until its result is applied. */
  lemma {:induction false} ReservationStands(env: Env, worlds: seq<World>, events: seq<Event>, m: nat, n: nat)
    requires Run(env, worlds, events) && m < n < |worlds|
    requires events[m].Clean? && events[m].clean.Reserve? && Applied(events[m].clean.fate)
    requires forall j | m < j < n :: !AppliesResult(worlds[j], events[j], events[m].clean.key, events[m].clean.token)
    requires worlds[n].s.now < worlds[m].s.now + 30 * SECOND
    ensures Reserved(worlds[n], events[m].clean.key, events[m].clean.token, worlds[m].s.now + 30 * SECOND)
    decreases n
  {
    StepAt(env, worlds, events, n - 1);
    if m < n - 1 {
      ClockAt(env, worlds, events, n - 1);
      ReservationStands(env, worlds, events, m, n - 1);
      StaysReserved(env, worlds, events, n - 1, events[m].clean.key, events[m].clean.token,
                    worlds[m].s.now + 30 * SECOND);
    }
  }

  /** A reserved key is reserved again only after half a minute, or after the result of the reservation was applied: two
      cleaners do not work on one key at the same time. */
  lemma ReservationIsExclusive(env: Env, worlds: seq<World>, events: seq<Event>, m: nat, n: nat)
    requires Run(env, worlds, events) && m < n < |events|
    requires events[m].Clean? && events[m].clean.Reserve? && Applied(events[m].clean.fate)
    requires events[n].Clean? && events[n].clean.Reserve? && events[n].clean.key == events[m].clean.key
    requires forall j | m < j < n :: !AppliesResult(worlds[j], events[j], events[m].clean.key, events[m].clean.token)
    ensures worlds[n].s.now >= worlds[m].s.now + 30 * SECOND
  {
    if worlds[n].s.now < worlds[m].s.now + 30 * SECOND {
      ReservationStands(env, worlds, events, m, n);
      ReservesNext(env, worlds, events, n);
    }
  }
}
