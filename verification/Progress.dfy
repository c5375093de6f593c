/** No reachable state strands a row or a key: from each one some continuation closes any given upload, and deletes any
    key that is owed. */
module Progress {
  import opened Types
  import opened Transactions
  import opened Validation
  import opened DbInvariant
  import opened TransactionProofs
  import opened World
  import opened WorldInvariant
  import opened RunBuilding
  import opened FinalizerDecisions
  import opened Queues

  /** The run ws, es goes on from the run worlds, events. */
  ghost predicate GoesOn(env: Env, worlds: seq<World>, events: seq<Event>, ws: seq<World>, es: seq<Event>) {
    Run(env, ws, es) && worlds <= ws && events <= es
  }

  /** At the end of the run worker i stands at pc, under a live claim. */
  ghost predicate Stands(env: Env, worlds: seq<World>, events: seq<Event>, i: nat, c: Claim, pc: Pc) {
    && Run(env, worlds, events)
    && i in worlds[|events|].finalizers && worlds[|events|].finalizers[i] == Working(c, pc)
    && Live(worlds[|events|].s.db, worlds[|events|].s.now, c.upload, c.token)
  }

  ghost predicate Ends(env: Env, worlds: seq<World>, events: seq<Event>, id: Uuid) {
    && Run(env, worlds, events)
    && id in worlds[|events|].s.db.uploads && Terminal(worlds[|events|].s.db.uploads[id].state)
  }

  /** The deadline and the horizon of the upload have passed. */
  predicate Past(s: Shared, id: Uuid) {
    id in s.db.uploads && s.db.uploads[id].deadline <= s.now && s.db.uploads[id].horizon <= s.now
  }

  // ------------------------------------------------------------- the worker

  lemma Works(env: Env, worlds: seq<World>, events: seq<Event>, i: nat, e: FinEvent, s': Shared, l': Finalizer)
    returns (ws: seq<World>, es: seq<Event>)
    requires Run(env, worlds, events) && i in worlds[|events|].finalizers
    requires FinStep(env, worlds[|events|].s, worlds[|events|].finalizers[i], e, s', l')
    ensures GoesOn(env, worlds, events, ws, es)
    ensures ws[|es|].s == s' && i in ws[|es|].finalizers && ws[|es|].finalizers[i] == l'
  {
    var w := worlds[|events|];
    var w' := w.(s := s', finalizers := w.finalizers[i := l']);
    assert FinNext(env, w, i, e, w');
    ws, es := Move(env, worlds, events, w, Fin(i, e), w');
  }

  lemma FromCommit(env: Env, worlds: seq<World>, events: seq<Event>, i: nat, c: Claim, pc: Pc)
    returns (ws: seq<World>, es: seq<Event>)
    requires Stands(env, worlds, events, i, c, pc) && (pc.CommitReady? || pc.CommitReject? || pc.CommitExpire?)
    ensures GoesOn(env, worlds, events, ws, es) && Ends(env, ws, es, c.upload)
  {
    CommitAt(env, worlds, events, |events|, i);
    var s := worlds[|events|].s;
    CommitCloses(s, c, pc);
    ws, es := Works(env, worlds, events, i, Commit(Acked), WithDb(s, TxTerminal(s, c, pc).db), Idle);
  }

  lemma FromPublished(env: Env, worlds: seq<World>, events: seq<Event>, i: nat, c: Claim, t: TrackedCandidate)
    returns (ws: seq<World>, es: seq<Event>)
    requires Stands(env, worlds, events, i, c, VerifyPublished(t)) && t.objectKey in worlds[|events|].s.objects
    ensures GoesOn(env, worlds, events, ws, es) && Ends(env, ws, es, c.upload)
  {
    var s := worlds[|events|].s;
    var pc := Compare(env, t, Reply(s, t.objectKey, Got(true)));
    ws, es := Works(env, worlds, events, i, Get(Got(true)), s, Working(c, pc));
    ws, es := FromCommit(env, ws, es, i, c, pc);
  }

  lemma FromRenew(env: Env, worlds: seq<World>, events: seq<Event>, i: nat, c: Claim, next: Pc)
    returns (ws: seq<World>, es: seq<Event>)
    requires Stands(env, worlds, events, i, c, Renew(next)) && env.lease > 0
    ensures GoesOn(env, worlds, events, ws, es) && Stands(env, ws, es, i, c, next)
    ensures ws[|es|].s.objects == worlds[|events|].s.objects
    ensures Past(worlds[|events|].s, c.upload) ==> Past(ws[|es|].s, c.upload)
  {
    var s := worlds[|events|].s;
    var s' := WithDb(s, TxRenew(s.db, s.now, c.upload, c.token, env.lease));
    ws, es := Works(env, worlds, events, i, RenewClaim(Acked), s', Working(c, next));
  }

  lemma FromPut(env: Env, worlds: seq<World>, events: seq<Event>, i: nat, c: Claim, t: TrackedCandidate, b: Bytes)
    returns (ws: seq<World>, es: seq<Event>)
    requires Stands(env, worlds, events, i, c, Renew(PutCandidate(t, b))) && env.lease > 0
    ensures GoesOn(env, worlds, events, ws, es) && Ends(env, ws, es, c.upload)
  {
    ws, es := FromRenew(env, worlds, events, i, c, PutCandidate(t, b));
    var s := ws[|es|].s;
    var s' := s.(puts := s.puts + {Put(t.objectKey, b)}, objects := s.objects[t.objectKey := b]);
    ws, es := Works(env, ws, es, i, SendPut(true), s', Working(c, Renew(VerifyPublished(t))));
    ws, es := FromRenew(env, ws, es, i, c, VerifyPublished(t));
    ws, es := FromPublished(env, ws, es, i, c, t);
  }

  lemma FromTrack(env: Env, worlds: seq<World>, events: seq<Event>, i: nat, c: Claim, t: TrackedCandidate, b: Bytes)
    returns (ws: seq<World>, es: seq<Event>)
    requires Stands(env, worlds, events, i, c, Track(t, b)) && env.lease > 0
    ensures GoesOn(env, worlds, events, ws, es) && Ends(env, ws, es, c.upload)
  {
    var s := worlds[|events|].s;
    match TxRegister(s.db, s.now, c.upload, c.token, t)
    case Mismatch =>
      ws, es := Works(env, worlds, events, i, Register(Acked), s, Working(c, CommitReject(RegistrationMismatch)));
      ws, es := FromCommit(env, ws, es, i, c, CommitReject(RegistrationMismatch));
    case Stored(db) =>
      ws, es := Works(env, worlds, events, i, Register(Acked), WithDb(s, db), Working(c, Renew(PutCandidate(t, b))));
      ws, es := FromPut(env, ws, es, i, c, t, b);
  }

  /** Whatever lies under the staging key, and if nothing does. */
  lemma FromCapture(env: Env, worlds: seq<World>, events: seq<Event>, i: nat, c: Claim, all: seq<TrackedCandidate>,
                    h: Time)
    returns (ws: seq<World>, es: seq<Event>)
    requires Stands(env, worlds, events, i, c, CaptureStaging(all, h, true)) && env.lease > 0
    ensures GoesOn(env, worlds, events, ws, es) && Ends(env, ws, es, c.upload)
  {
    var s := worlds[|events|].s;
    if c.stagingKey in s.objects {
      var pc := Judge(env, c, Reply(s, c.stagingKey, Got(true)));
      ws, es := Works(env, worlds, events, i, Get(Got(true)), s, Working(c, pc));
      RefusalsBlameTheDefect(env, s.objects[c.stagingKey], true, c.declaredSize, c.declaredType);
      if pc.Track? {
        ws, es := FromTrack(env, ws, es, i, c, pc.candidate, pc.body);
      } else {
        ws, es := FromCommit(env, ws, es, i, c, pc);
      }
    } else {
      ws, es := Works(env, worlds, events, i, Get(Missing), s, Working(c, CommitExpire(all, h)));
      ws, es := FromCommit(env, ws, es, i, c, CommitExpire(all, h));
    }
  }

  lemma FromPrepare(env: Env, worlds: seq<World>, events: seq<Event>, i: nat, c: Claim, all: seq<TrackedCandidate>)
    returns (ws: seq<World>, es: seq<Event>)
    requires Stands(env, worlds, events, i, c, Renew(Prepare(all))) && env.lease > 0
    requires Past(worlds[|events|].s, c.upload)
    ensures GoesOn(env, worlds, events, ws, es) && Ends(env, ws, es, c.upload)
  {
    ws, es := FromRenew(env, worlds, events, i, c, Prepare(all));
    var s := ws[|es|].s;
    var h := s.db.uploads[c.upload].horizon;
    ws, es := Works(env, ws, es, i, Observe, s, Working(c, CaptureStaging(all, h, true)));
    ws, es := FromCapture(env, ws, es, i, c, all, h);
  }

  lemma {:induction false} FromScan(env: Env, worlds: seq<World>, events: seq<Event>, i: nat, c: Claim,
                                    all: seq<TrackedCandidate>, at: nat)
    returns (ws: seq<World>, es: seq<Event>)
    requires Stands(env, worlds, events, i, c, Scan(all, at)) && env.lease > 0 && at <= |all|
    requires Past(worlds[|events|].s, c.upload)
    ensures GoesOn(env, worlds, events, ws, es) && Ends(env, ws, es, c.upload)
    decreases |all| - at
  {
    if at == |all| {
      ws, es := FromPrepare(env, worlds, events, i, c, all);
    } else {
      ws, es := FromRenew(env, worlds, events, i, c, VerifyTracked(all, at));
      var s, k := ws[|es|].s, all[at].objectKey;
      if k in s.objects {
        var pc := Compare(env, all[at], Reply(s, k, Got(true)));
        ws, es := Works(env, ws, es, i, Get(Got(true)), s, Working(c, pc));
        ws, es := FromCommit(env, ws, es, i, c, pc);
      } else {
        ws, es := Works(env, ws, es, i, Get(Missing), s, Working(c, Scan(all, at + 1)));
        ws, es := FromScan(env, ws, es, i, c, all, at + 1);
      }
    }
  }

  lemma FromClaim(env: Env, worlds: seq<World>, events: seq<Event>, i: nat, c: Claim)
    returns (ws: seq<World>, es: seq<Event>)
    requires Stands(env, worlds, events, i, c, LoadCandidates) && env.lease > 0 && Past(worlds[|events|].s, c.upload)
    ensures GoesOn(env, worlds, events, ws, es) && Ends(env, ws, es, c.upload)
  {
    var s := worlds[|events|].s;
    var all := CandidateList(s.db, c.upload);
    ws, es := Works(env, worlds, events, i, Load, s, Working(c, Scan(all, 0)));
    ws, es := FromScan(env, ws, es, i, c, all, 0);
  }

  // -------------------------------------------------------------- the uploads

  lemma Waits(env: Env, worlds: seq<World>, events: seq<Event>, d: nat) returns (ws: seq<World>, es: seq<Event>)
    requires Run(env, worlds, events)
    ensures GoesOn(env, worlds, events, ws, es)
    ensures ws[|es|] == worlds[|events|].(s := worlds[|events|].s.(now := worlds[|events|].s.now + d))
  {
    var w := worlds[|events|];
    ws, es := Move(env, worlds, events, w, Other(Tick(d)), w.(s := w.s.(now := w.s.now + d)));
  }

  /** However a worker was stopped and whoever holds the claim: in the end worker i holds it, after the deadline and the
      horizon. */
  lemma TakesOver(env: Env, worlds: seq<World>, events: seq<Event>, i: nat, id: Uuid, token: Uuid)
    returns (ws: seq<World>, es: seq<Event>, c: Claim)
    requires Run(env, worlds, events) && env.lease > 0
    requires i in worlds[|events|].finalizers && worlds[|events|].finalizers[i].Idle?
    requires token !in worlds[|events|].s.issued
    requires id in worlds[|events|].s.db.uploads && worlds[|events|].s.db.uploads[id].state.Finalizing?
    ensures GoesOn(env, worlds, events, ws, es) && Stands(env, ws, es, i, c, LoadCandidates)
    ensures c.upload == id && Past(ws[|es|].s, id)
  {
    var s := worlds[|events|].s;
    var d := Wait(s.db.uploads[id], s.now);
    ws, es := Waits(env, worlds, events, d);
    RowsAt(env, ws, es, |es|);
    WaitingIsDue(s.db, s.now + d, id);
    s := ws[|es|].s;
    var others := s.db.uploads.Keys - {id};
    var s' := s.(issued := s.issued + {token}, db := TxClaim(s.db, s.now, id, token, env.lease));
    c := ClaimOf(id, s.db.uploads[id], token);
    ws, es := Works(env, ws, es, i, TakeClaim(id, token, others, Acked), s', Working(c, LoadCandidates));
  }

  lemma RowsAt(env: Env, worlds: seq<World>, events: seq<Event>, n: nat)
    requires Run(env, worlds, events) && n < |worlds|
    ensures UploadsInv(worlds[n].s.db, worlds[n].s.now)
  {
    RunKeeps(env, worlds, events, n);
  }

  /** Long enough for the deadline, the horizon, the wake-up and the lease of a row. */
  function Wait(u: Upload, now: Time): (d: nat)
    ensures u.deadline <= now + d && u.horizon <= now + d && !HasLease(u, now + d)
    ensures u.reconcileAfter.Some? ==> u.reconcileAfter.value <= now + d
  {
    var wake := if u.reconcileAfter.Some? then u.reconcileAfter.value else now;
    var lease := if u.claimExpiresAt.Some? then u.claimExpiresAt.value else now;
    Later(now, Later(Later(u.deadline, u.horizon), Later(wake, lease))) - now
  }

  /** In every reachable state every finalizing upload can still be closed, by any worker: whatever was stored, whatever
      was read, and wherever a worker was stopped. */
  lemma FinalizingUploadsCanBeClosed(env: Env, worlds: seq<World>, events: seq<Event>, i: nat, id: Uuid, token: Uuid)
    returns (ws: seq<World>, es: seq<Event>)
    requires Run(env, worlds, events) && env.lease > 0 && i in worlds[|events|].finalizers
    requires token !in worlds[|events|].s.issued
    requires id in worlds[|events|].s.db.uploads && worlds[|events|].s.db.uploads[id].state.Finalizing?
    ensures Run(env, ws, es) && worlds <= ws && events <= es
    ensures id in ws[|es|].s.db.uploads && Terminal(ws[|es|].s.db.uploads[id].state)
  {
    ws, es := worlds, events;
    if worlds[|events|].finalizers[i].Working? {
      ws, es := Works(env, worlds, events, i, Crash, worlds[|events|].s, Idle);
    }
    var c: Claim;
    ws, es, c := TakesOver(env, ws, es, i, id, token);
    ws, es := FromClaim(env, ws, es, i, c);
  }

  /** Every pending upload can still be expired. */
  lemma PendingUploadsCanExpire(env: Env, worlds: seq<World>, events: seq<Event>, id: Uuid)
    returns (ws: seq<World>, es: seq<Event>)
    requires Run(env, worlds, events)
    requires id in worlds[|events|].s.db.uploads && worlds[|events|].s.db.uploads[id].state.Pending?
    ensures Run(env, ws, es) && worlds <= ws && events <= es
    ensures id in ws[|es|].s.db.uploads && ws[|es|].s.db.uploads[id].state.Expired?
  {
    var u := worlds[|events|].s.db.uploads[id];
    ws, es := Waits(env, worlds, events, Wait(u, worlds[|events|].s.now));
    RunKeeps(env, ws, es, |es|);
    var w := ws[|es|];
    ExpirePendingKeeps(w.s.db, w.s.now, id);
    var w' := w.(s := WithDb(w.s, TxExpirePending(w.s.db, w.s.now, id).db));
    ws, es := Move(env, ws, es, w, Other(ExpirySweep(id, true)), w');
  }

  // ----------------------------------------------------------------- the keys

  lemma Cleans(env: Env, worlds: seq<World>, events: seq<Event>, i: nat, e: CleanEvent, s': Shared, l': Cleaner)
    returns (ws: seq<World>, es: seq<Event>)
    requires Run(env, worlds, events) && i in worlds[|events|].cleaners
    requires CleanStep(worlds[|events|].s, worlds[|events|].cleaners[i], e, s', l')
    ensures GoesOn(env, worlds, events, ws, es)
    ensures ws[|es|].s == s' && i in ws[|es|].cleaners && ws[|es|].cleaners[i] == l'
  {
    var w := worlds[|events|];
    var w' := w.(s := s', cleaners := w.cleaners[i := l']);
    assert CleanNext(w, i, e, w');
    ws, es := Move(env, worlds, events, w, Clean(i, e), w');
  }

  lemma Reserves(env: Env, worlds: seq<World>, events: seq<Event>, i: nat, k: Key, token: Uuid)
    returns (ws: seq<World>, es: seq<Event>)
    requires Run(env, worlds, events) && i in worlds[|events|].cleaners && worlds[|events|].cleaners[i].Resting?
    requires token !in worlds[|events|].s.issued && k in worlds[|events|].s.db.tombstones
    ensures GoesOn(env, worlds, events, ws, es)
    ensures i in ws[|es|].cleaners && ws[|es|].cleaners[i] == Deleting(k, token)
    ensures k in ws[|es|].s.db.tombstones && ws[|es|].s.db.tombstones[k].reservationToken == Some(token)
  {
    var t, now := worlds[|events|].s.db.tombstones[k], worlds[|events|].s.now;
    var free := if t.reservationExpiresAt.Some? then t.reservationExpiresAt.value else now;
    var d: nat := Later(now, Later(t.nextAttemptAt, free)) - now;
    ws, es := Waits(env, worlds, events, d);
    var s := ws[|es|].s;
    KeyIsDue(env, ws, es, k);
    var others := s.db.tombstones.Keys - {k};
    var s' := s.(issued := s.issued + {token}, db := TxReserve(s.db, s.now, k, token));
    ws, es := Cleans(env, ws, es, i, Reserve(k, token, others, Acked), s', Deleting(k, token));
  }

  lemma KeyIsDue(env: Env, worlds: seq<World>, events: seq<Event>, k: Key)
    requires Run(env, worlds, events) && k in worlds[|events|].s.db.tombstones
    requires Owed(worlds[|events|].s.db.tombstones[k], worlds[|events|].s.now)
    ensures CleanupDue(worlds[|events|].s.db, worlds[|events|].s.now, k)
  {
    SharedInvAt(env, worlds, events, |events|);
    OwedIsDue(worlds[|events|].s.db, worlds[|events|].s.now, k);
  }

  /** In every reachable state every owed key can still be deleted, by any cleaner, and the deletion recorded. */
  lemma OwedKeysCanBeDeleted(env: Env, worlds: seq<World>, events: seq<Event>, i: nat, k: Key, token: Uuid)
    returns (ws: seq<World>, es: seq<Event>)
    requires Run(env, worlds, events) && i in worlds[|events|].cleaners
    requires token !in worlds[|events|].s.issued && k in worlds[|events|].s.db.tombstones
    ensures Run(env, ws, es) && worlds <= ws && events <= es
    ensures k !in ws[|es|].s.objects && k in ws[|es|].s.db.tombstones
    ensures ws[|es|].s.db.tombstones[k].lastResult == Some(DeleteSucceeded)
    ensures ws[|es|].s.db.tombstones[k].lastAttemptAt == Some(ws[|es|].s.now)
  {
    ws, es := Cleans(env, worlds, events, i, CleanFail, worlds[|events|].s, Resting);
    ws, es := Reserves(env, ws, es, i, k, token);
    var s := ws[|es|].s;
    var s1 := s.(deletes := s.deletes + {k}, objects := s.objects - {k});
    ws, es := Cleans(env, ws, es, i, SendDelete(DeleteSucceeded), s1, Applying(k, token, DeleteSucceeded));
    var s2 := WithDb(s1, TxApply(s1.db, s1.now, k, token, DeleteSucceeded).value);
    ws, es := Cleans(env, ws, es, i, ApplyResult(Acked), s2, Resting);
  }
}
