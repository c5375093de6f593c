/** Every transaction keeps the table invariant and stays within the step relation. */
module TransactionProofs {
  import opened Types
  import opened Schema
  import opened Backoff
  import opened Transactions
  import opened DbInvariant
  import opened Validation

  // ------------------------------------------------------------ claimed rows

  lemma ClaimKeeps(db: Db, now: Time, id: Uuid, token: Uuid, lease: int)
    requires DbInv(db, now) && id in db.uploads && ClaimDue(db.uploads[id], now)
    ensures DbInv(TxClaim(db, now, id, token, lease), now)
    ensures DbStep(db, now, TxClaim(db, now, id, token, lease), Some(token), None)
  {
    OpenRowUpdate(db, now, id, Claimed(db.uploads[id], token, now + lease), Some(token));
  }

  lemma RenewKeeps(db: Db, now: Time, id: Uuid, token: Uuid, lease: int)
    requires DbInv(db, now) && Live(db, now, id, token)
    ensures DbInv(TxRenew(db, now, id, token, lease), now)
    ensures DbStep(db, now, TxRenew(db, now, id, token, lease), Some(token), None)
  {
    OpenRowUpdate(db, now, id, db.uploads[id].(claimExpiresAt := Some(now + lease)), Some(token));
  }

  lemma RetryKeeps(db: Db, now: Time, id: Uuid, token: Uuid, kind: ErrorClass)
    requires DbInv(db, now) && Live(db, now, id, token)
    ensures DbInv(TxRetry(db, now, id, token, kind), now)
    ensures DbStep(db, now, TxRetry(db, now, id, token, kind), Some(token), None)
  {
    assert UploadRowOk(id, db.uploads[id]);
    DelaysAreClippedPowers(db.uploads[id].failureStreak + 1, kind);
    OpenRowUpdate(db, now, id, Retried(db.uploads[id], now, kind), Some(token));
  }

  lemma ReplayKeeps(db: Db, now: Time, id: Uuid, expiresAt: Time)
    requires DbInv(db, now) && id in db.uploads && AcceptsWrites(db.uploads[id], now)
    requires expiresAt <= now + CAPABILITY_LIFE
    ensures DbInv(TxReplay(db, id, expiresAt), now)
    ensures DbStep(db, now, TxReplay(db, id, expiresAt), None, None)
  {
    OpenRowUpdate(db, now, id, db.uploads[id].(horizon := Later(db.uploads[id].horizon, expiresAt)), None);
  }

  // -------------------------------------------------------------- candidates

  /** A new candidate row of an upload that is being finalized. */
  ghost predicate NewCandidate(db: Db, c: CandidateId, t: TrackedCandidate, now: Time, e: Db) {
    && c !in db.candidates && c.upload in db.uploads && db.uploads[c.upload].state.Finalizing?
    && CandidateRowOk(c, t) && Agrees(t, db.uploads[c.upload])
    && e == db.(candidates := db.candidates[c := CandidateRow(t, now)])
  }

  lemma NewCandidateRows(db: Db, now: Time, c: CandidateId, t: TrackedCandidate, e: Db)
    requires UploadsInv(db, now) && CandidatesInv(db) && NewCandidate(db, c, t, now, e)
    ensures UploadsInv(e, now) && CandidatesInv(e)
  {
    forall d | d in e.candidates ensures CandidateInv(e, d) {
      assert d != c ==> CandidateInv(db, d);
    }
    forall j | j in e.uploads
      ensures UploadRowOk(j, e.uploads[j]) && UploadTimely(e.uploads[j], now) && FinalTracked(e, j, e.uploads[j])
    {
      assert FinalTracked(db, j, db.uploads[j]);
    }
  }

  lemma NewCandidateDuties(db: Db, now: Time, c: CandidateId, t: TrackedCandidate, e: Db)
    requires DutiesExact(db) && TombstonesInv(db, now) && NewCandidate(db, c, t, now, e)
    ensures DutiesExact(e) && TombstonesInv(e, now)
  {
  }

  lemma NewCandidateStep(db: Db, now: Time, c: CandidateId, t: TrackedCandidate, e: Db, token: Uuid)
    requires UploadsInv(db, now) && NewCandidate(db, c, t, now, e) && Live(db, now, c.upload, token)
    ensures DbStep(db, now, e, Some(token), None)
  {
  }

  lemma RegisterKeeps(db: Db, now: Time, id: Uuid, token: Uuid, t: TrackedCandidate)
    requires DbInv(db, now)
    requires id in db.uploads ==> CandidateRowOk(CandidateId(id, t.sha256), t) && Agrees(t, db.uploads[id])
    requires TxRegister(db, now, id, token, t).Stored?
    ensures DbInv(TxRegister(db, now, id, token, t).db, now)
    ensures DbStep(db, now, TxRegister(db, now, id, token, t).db, Some(token), None)
  {
    var c, e := CandidateId(id, t.sha256), TxRegister(db, now, id, token, t).db;
    if c in db.candidates {
      NothingHappens(db, now, Some(token), None);
    } else {
      NewCandidateRows(db, now, c, t, e);
      NewCandidateDuties(db, now, c, t, e);
      NewCandidateStep(db, now, c, t, e, token);
    }
  }

  // -------------------------------------------------------- terminal commits

  /** While an upload is open it owns no tombstone, so a terminal commit never meets a conflicting one. */
  lemma OpenUploadHasNoTombstones(db: Db, now: Time, id: Uuid, k: Key)
    requires DbInv(db, now) && id in db.uploads && !Terminal(db.uploads[id].state) && Owner(k) == id
    ensures k !in db.tombstones
  {
  }

  lemma NoConflicts(db: Db, now: Time, id: Uuid, keys: set<Key>)
    requires DbInv(db, now) && id in db.uploads && !Terminal(db.uploads[id].state)
    requires forall k | k in keys :: Owner(k) == id
    ensures !Conflicts(db, id, db.uploads[id].horizon, now, keys)
  {
  }

  /** Row `id` closes as v and exactly the keys it owes become tombstones. */
  ghost predicate ClosingUpdate(db: Db, now: Time, id: Uuid, v: Upload, keys: set<Key>, e: Db) {
    && id in db.uploads
    && !Terminal(db.uploads[id].state) && Terminal(v.state) && v.terminalAt == Some(now)
    && UploadRowOk(id, v) && UploadTimely(v, now) && FinalTracked(db, id, v)
    && SameIdentity(db.uploads[id], v) && v.horizon == db.uploads[id].horizon
    && (forall k: Key :: k in keys <==>
          Owner(k) == id && (k.Media? ==> k.candidate in db.candidates) && v.finalKey != Some(k))
    && e == Db(db.uploads[id := v], db.candidates,
               WithTombstones(db.tombstones, id, db.uploads[id].horizon, now, keys))
  }

  lemma ClosingUploads(db: Db, now: Time, id: Uuid, v: Upload, keys: set<Key>, e: Db)
    requires DbInv(db, now) && ClosingUpdate(db, now, id, v, keys, e)
    ensures UploadsInv(e, now) && IdempotencyInv(e) && CandidatesInv(e)
  {
  }

  lemma ClosingDuties(db: Db, now: Time, id: Uuid, v: Upload, keys: set<Key>, e: Db)
    requires DbInv(db, now) && ClosingUpdate(db, now, id, v, keys, e)
    ensures DutiesExact(e)
  {
  }

  lemma ClosingTombstones(db: Db, now: Time, id: Uuid, v: Upload, keys: set<Key>, e: Db)
    requires DbInv(db, now) && ClosingUpdate(db, now, id, v, keys, e)
    ensures TombstonesInv(e, now)
  {
    forall k | k in e.tombstones ensures TombstoneInv(e, now, k) {
      if k in db.tombstones {
        assert TombstoneInv(db, now, k) && Retired(db, k);
        assert e.tombstones[k] == db.tombstones[k];
      } else {
        assert k in keys;
        assert e.tombstones[k] == NewTombstone(k, id, v.horizon, now);
      }
    }
  }

  lemma ClosingStep(db: Db, now: Time, id: Uuid, v: Upload, keys: set<Key>, e: Db, actor: Option<Uuid>)
    requires DbInv(db, now) && ClosingUpdate(db, now, id, v, keys, e)
    requires UploadStep(db.uploads[id], v, now, actor)
    ensures DbStep(db, now, e, actor, None)
  {
    NothingHappens(db, now, actor, None);
    forall j | j in db.uploads ensures UploadStep(db.uploads[j], e.uploads[j], now, actor) {
    }
    forall k | k in db.tombstones ensures k in e.tombstones && TombstoneStep(db.tombstones[k], e.tombstones[k], now) {
      assert e.tombstones[k] == db.tombstones[k];
    }
  }

  lemma ClosingKeeps(db: Db, now: Time, id: Uuid, v: Upload, keys: set<Key>, e: Db, actor: Option<Uuid>)
    requires DbInv(db, now) && ClosingUpdate(db, now, id, v, keys, e)
    requires UploadStep(db.uploads[id], v, now, actor)
    ensures DbInv(e, now) && DbStep(db, now, e, actor, None)
  {
    ClosingUploads(db, now, id, v, keys, e);
    ClosingDuties(db, now, id, v, keys, e);
    ClosingTombstones(db, now, id, v, keys, e);
    ClosingStep(db, now, id, v, keys, e, actor);
  }

  lemma TargetsAreTheDuties(db: Db, id: Uuid, selected: Option<Key>)
    requires selected != Some(Staging(id))
    ensures forall k: Key :: k in TargetKeys(db, id, selected) <==>
              Owner(k) == id && (k.Media? ==> k.candidate in db.candidates) && selected != Some(k)
  {
  }

  /** Close goes through whenever the row it writes is a well-formed closed row. */
  lemma CloseKeeps(db: Db, now: Time, id: Uuid, selected: Option<Key>, v: Upload, actor: Option<Uuid>)
    requires DbInv(db, now) && id in db.uploads && !Terminal(db.uploads[id].state) && Terminal(v.state)
    requires UploadRowOk(id, v) && UploadTimely(v, now) && FinalTracked(db, id, v) && v.finalKey == selected
    requires UploadStep(db.uploads[id], v, now, actor) && v.horizon == db.uploads[id].horizon
    ensures Close(db, now, id, selected, v).Changed?
    ensures DbInv(Close(db, now, id, selected, v).db, now)
    ensures DbStep(db, now, Close(db, now, id, selected, v).db, actor, None)
  {
    TargetsAreTheDuties(db, id, selected);
    var keys := TargetKeys(db, id, selected);
    NoConflicts(db, now, id, keys);
    ClosingKeeps(db, now, id, v, keys, Close(db, now, id, selected, v).db, actor);
  }

  /** What a live finalizer may make of its row. */
  lemma ClosedRow(id: Uuid, u: Upload, v: Upload, now: Time, token: Uuid)
    requires UploadRowOk(id, u) && UploadTimely(u, now)
    requires u.state.Finalizing? && u.claimToken == Some(token) && HasLease(u, now)
    requires || (exists k :: v == MadeReady(u, now, k))
             || (exists f :: FailureOk(f) && v == MadeRejected(u, now, f))
             || (v == MadeMissing(u, now) && u.deadline <= now && u.horizon <= now)
    ensures UploadRowOk(id, v) && UploadTimely(v, now) && UploadStep(u, v, now, Some(token))
  {
  }

  /** A live finalizer that selects a tracked candidate always gets its commit: none of the three defensive
      errors can arise. */
  lemma ReadyKeeps(db: Db, now: Time, id: Uuid, token: Uuid, t: TrackedCandidate)
    requires DbInv(db, now) && Live(db, now, id, token)
    requires TrackedRow(db, id, t)
    ensures TxReady(db, now, id, token, t).Changed?
    ensures DbInv(TxReady(db, now, id, token, t).db, now)
    ensures DbStep(db, now, TxReady(db, now, id, token, t).db, Some(token), None)
  {
    assert CandidateInv(db, CandidateId(id, t.sha256)) && UploadRowOk(id, db.uploads[id]);
    assert Tracked(db, id, t);
    OpenUploadHasNoTombstones(db, now, id, t.objectKey);
    var v := MadeReady(db.uploads[id], now, t.objectKey);
    ClosedRow(id, db.uploads[id], v, now, token);
    CloseKeeps(db, now, id, Some(t.objectKey), v, Some(token));
  }

  lemma RejectKeeps(db: Db, now: Time, id: Uuid, token: Uuid, f: Failure)
    requires DbInv(db, now) && Live(db, now, id, token) && FailureOk(f)
    ensures TxReject(db, now, id, token, f).Changed?
    ensures DbInv(TxReject(db, now, id, token, f).db, now)
    ensures DbStep(db, now, TxReject(db, now, id, token, f).db, Some(token), None)
  {
    var v := MadeRejected(db.uploads[id], now, f);
    assert UploadRowOk(id, db.uploads[id]);
    ClosedRow(id, db.uploads[id], v, now, token);
    CloseKeeps(db, now, id, None, v, Some(token));
  }

  lemma ExpireMissingKeeps(db: Db, now: Time, id: Uuid, token: Uuid, horizon: Time, observed: seq<TrackedCandidate>)
    requires DbInv(db, now) && Live(db, now, id, token) && StillMissing(db, now, id, horizon, observed)
    ensures TxExpireMissing(db, now, id, token, horizon, observed).Changed?
    ensures DbInv(TxExpireMissing(db, now, id, token, horizon, observed).db, now)
    ensures DbStep(db, now, TxExpireMissing(db, now, id, token, horizon, observed).db, Some(token), None)
  {
    var v := MadeMissing(db.uploads[id], now);
    assert UploadRowOk(id, db.uploads[id]);
    ClosedRow(id, db.uploads[id], v, now, token);
    CloseKeeps(db, now, id, None, v, Some(token));
  }

  lemma ExpirePendingKeeps(db: Db, now: Time, id: Uuid)
    requires DbInv(db, now) && id in db.uploads && ExpiryDue(db.uploads[id], now)
    ensures TxExpirePending(db, now, id).Changed?
    ensures DbInv(TxExpirePending(db, now, id).db, now)
    ensures DbStep(db, now, TxExpirePending(db, now, id).db, None, None)
  {
    var keys := {Staging(id)};
    NoConflicts(db, now, id, keys);
    assert UploadRowOk(id, db.uploads[id]);
    var v := MadeElapsed(db.uploads[id], now);
    forall k: Key
      ensures k in keys <==> Owner(k) == id && (k.Media? ==> k.candidate in db.candidates) && v.finalKey != Some(k)
    {
      if k.Media? && k.candidate in db.candidates { assert CandidateInv(db, k.candidate); }
    }
    ClosingKeeps(db, now, id, v, keys, TxExpirePending(db, now, id).db, None);
  }

  // --------------------------------------------------------------- API calls

  /** A new pending upload under a fresh id and a free idempotency key. */
  ghost predicate NewRow(db: Db, now: Time, id: Uuid, u: Upload, e: Db) {
    && id !in db.uploads && !Taken(db, u.idempotencyKey)
    && UploadRowOk(id, u) && UploadTimely(u, now) && u.state.Pending?
    && e == WithUpload(db, id, u)
  }

  lemma NewRowUploads(db: Db, now: Time, id: Uuid, u: Upload, e: Db)
    requires UploadsInv(db, now) && IdempotencyInv(db) && CandidatesInv(db) && NewRow(db, now, id, u, e)
    ensures UploadsInv(e, now) && IdempotencyInv(e) && CandidatesInv(e)
  {
  }

  lemma NewRowDuties(db: Db, now: Time, id: Uuid, u: Upload, e: Db)
    requires CandidatesInv(db) && DutiesExact(db) && TombstonesInv(db, now) && NewRow(db, now, id, u, e)
    ensures DutiesExact(e) && TombstonesInv(e, now)
  {
  }

  lemma InsertKeeps(db: Db, now: Time, cmd: Command, id: Uuid, expiresAt: Time)
    requires DbInv(db, now) && id !in db.uploads && CommandOk(cmd)
    requires now < expiresAt <= now + CAPABILITY_LIFE
    requires TxInsert(db, now, cmd, id, expiresAt).Some?
    ensures DbInv(TxInsert(db, now, cmd, id, expiresAt).value, now)
    ensures DbStep(db, now, TxInsert(db, now, cmd, id, expiresAt).value, None, Some(id))
  {
    var u, e := NewUpload(cmd, id, now, expiresAt), TxInsert(db, now, cmd, id, expiresAt).value;
    NewRowUploads(db, now, id, u, e);
    NewRowDuties(db, now, id, u, e);
    NothingHappens(db, now, None, Some(id));
  }

  lemma RequestKeeps(db: Db, now: Time, id: Uuid)
    requires DbInv(db, now) && id in db.uploads && db.uploads[id].state.Pending? && now < db.uploads[id].deadline
    ensures DbInv(WithUpload(db, id, Requested(db.uploads[id], now)), now)
    ensures DbStep(db, now, WithUpload(db, id, Requested(db.uploads[id], now)), None, None)
  {
    OpenRowUpdate(db, now, id, Requested(db.uploads[id], now), None);
  }

  lemma WakeKeeps(db: Db, now: Time, id: Uuid, sooner: Time)
    requires DbInv(db, now) && id in db.uploads && db.uploads[id].state.Finalizing?
    requires sooner == now || (sooner < now && db.uploads[id].reconcileAfter == Some(sooner))
    ensures DbInv(WithUpload(db, id, db.uploads[id].(reconcileAfter := Some(sooner))), now)
    ensures DbStep(db, now, WithUpload(db, id, db.uploads[id].(reconcileAfter := Some(sooner))), None, None)
  {
    OpenRowUpdate(db, now, id, db.uploads[id].(reconcileAfter := Some(sooner)), None);
  }

  lemma CompleteKeeps(db: Db, now: Time, id: Uuid)
    requires DbInv(db, now) && id in db.uploads
    ensures !TxComplete(db, now, id).Failed?
    ensures TxComplete(db, now, id).Moved? ==>
              DbInv(TxComplete(db, now, id).db, now) && DbStep(db, now, TxComplete(db, now, id).db, None, None)
  {
    match db.uploads[id].state
    case Pending => PendingCompletes(db, now, id);
    case Finalizing => FinalizingCompletes(db, now, id);
    case _ =>
  }

  lemma PendingCompletes(db: Db, now: Time, id: Uuid)
    requires DbInv(db, now) && id in db.uploads && db.uploads[id].state.Pending?
    ensures TxComplete(db, now, id).Moved?
    ensures DbInv(TxComplete(db, now, id).db, now) && DbStep(db, now, TxComplete(db, now, id).db, None, None)
  {
    PendingOutcome(db, now, id);
    if now < db.uploads[id].deadline {
      RequestKeeps(db, now, id);
    } else {
      ExpirePendingKeeps(db, now, id);
    }
  }

  lemma PendingOutcome(db: Db, now: Time, id: Uuid)
    requires id in db.uploads && db.uploads[id].state.Pending?
    ensures now < db.uploads[id].deadline ==>
              TxComplete(db, now, id) ==
                  Moved(WithUpload(db, id, Requested(db.uploads[id], now)), Some(PendingToFinalizing))
    ensures db.uploads[id].deadline <= now && TxExpirePending(db, now, id).Changed? ==>
              TxComplete(db, now, id) == Moved(TxExpirePending(db, now, id).db, Some(PendingToExpired))
  {
  }

  lemma FinalizingCompletes(db: Db, now: Time, id: Uuid)
    requires DbInv(db, now) && id in db.uploads && db.uploads[id].state.Finalizing?
    ensures TxComplete(db, now, id).Moved?
    ensures DbInv(TxComplete(db, now, id).db, now) && DbStep(db, now, TxComplete(db, now, id).db, None, None)
  {
    var u := db.uploads[id];
    var sooner := if u.reconcileAfter.Some? && u.reconcileAfter.value < now then u.reconcileAfter.value else now;
    WakeKeeps(db, now, id, sooner);
  }

  // ----------------------------------------------------------------- cleanup

  lemma TombstoneUpdateStep(db: Db, now: Time, k: Key, t: Tombstone, e: Db, actor: Option<Uuid>)
    requires UploadsInv(db, now) && k in db.tombstones && e == WithTombstone(db, k, t)
    requires TombstoneStep(db.tombstones[k], t, now)
    ensures DbStep(db, now, e, actor, None)
  {
  }

  lemma TombstoneUpdate(db: Db, now: Time, k: Key, t: Tombstone, actor: Option<Uuid>)
    requires DbInv(db, now) && k in db.tombstones
    requires TombstoneInv(WithTombstone(db, k, t), now, k) && TombstoneStep(db.tombstones[k], t, now)
    ensures DbInv(WithTombstone(db, k, t), now)
    ensures DbStep(db, now, WithTombstone(db, k, t), actor, None)
  {
    TombstoneUpdateInv(db, now, k, t, WithTombstone(db, k, t));
    TombstoneUpdateStep(db, now, k, t, WithTombstone(db, k, t), actor);
  }

  lemma TombstoneUpdateInv(db: Db, now: Time, k: Key, t: Tombstone, e: Db)
    requires DbInv(db, now) && k in db.tombstones && e == WithTombstone(db, k, t)
    requires TombstoneInv(e, now, k)
    ensures DbInv(e, now)
  {
    forall c | c in e.candidates ensures CandidateInv(e, c) {
      assert CandidateInv(db, c);
    }
    forall j | j in e.uploads
      ensures UploadRowOk(j, e.uploads[j]) && UploadTimely(e.uploads[j], now) && FinalTracked(e, j, e.uploads[j])
    {
      assert FinalTracked(db, j, db.uploads[j]);
    }
    forall j: Key ensures j in e.tombstones <==> Retired(e, j) {
      assert j in db.tombstones <==> Retired(db, j);
    }
    forall j | j in e.tombstones ensures TombstoneInv(e, now, j) {
      assert TombstoneInv(db, now, j);
    }
  }

  lemma ReserveKeeps(db: Db, now: Time, k: Key, token: Uuid)
    requires DbInv(db, now) && k in db.tombstones && CleanupDue(db, now, k)
    ensures DbInv(TxReserve(db, now, k, token), now)
    ensures DbStep(db, now, TxReserve(db, now, k, token), None, None)
  {
    assert TombstoneInv(db, now, k);
    TombstoneUpdate(db, now, k, TxReserve(db, now, k, token).tombstones[k], None);
  }

  lemma ApplyKeeps(db: Db, now: Time, k: Key, token: Uuid, result: CleanupResult)
    requires DbInv(db, now) && TxApply(db, now, k, token, result).Some?
    ensures DbInv(TxApply(db, now, k, token, result).value, now)
    ensures DbStep(db, now, TxApply(db, now, k, token, result).value, None, None)
  {
    assert TombstoneInv(db, now, k);
    var t := db.tombstones[k];
    if result.DeleteError? { DelaysAreClippedPowers(t.failureStreak + 1, result.kind); Pow2Positive(t.failureStreak); }
    TombstoneUpdate(db, now, k, Attempted(t, now, result), None);
  }
}
