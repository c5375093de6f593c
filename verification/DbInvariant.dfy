/** What the tables always satisfy, and what one transaction may do to them. */
module DbInvariant {
  import opened Types
  import opened Schema
  import opened Backoff
  import opened Transactions

  // -------------------------------------------------------------- one state

  predicate UploadTimely(u: Upload, now: Time) {
    && u.createdAt <= now
    && (u.completionRequestedAt.Some? ==> u.completionRequestedAt.value <= now)
    && (u.terminalAt.Some? ==> u.terminalAt.value <= now)
    && (u.claimToken.Some? ==> u.reconcileAfter.Some? && u.reconcileAfter.value <= now)
  }

  /** A tracked candidate describes an image of exactly the declared size, in the format of the declared type. */
  predicate Agrees(t: TrackedCandidate, u: Upload) {
    && t.encodedSize == u.declaredSize
    && (t.format.Jpeg? <==> u.declaredType.ImageJpeg?)
    && (t.format.Png? <==> u.declaredType.ImagePng?)
  }

  predicate CandidateInv(db: Db, c: CandidateId)
    requires c in db.candidates
  {
    && c.upload in db.uploads
    && !db.uploads[c.upload].state.Pending?
    && CandidateRowOk(c, db.candidates[c].tracked)
    && Agrees(db.candidates[c].tracked, db.uploads[c.upload])
  }

  predicate FinalTracked(db: Db, id: Uuid, u: Upload) {
    u.finalKey.Some? ==>
      && u.finalKey.value.Media?
      && u.finalKey.value.candidate.upload == id
      && u.finalKey.value.candidate in db.candidates
  }

  /** The keys that cleanup owes: everything a terminal upload wrote, except what it published. */
  predicate Retired(db: Db, k: Key) {
    && Owner(k) in db.uploads
    && Terminal(db.uploads[Owner(k)].state)
    && (k.Media? ==> k.candidate in db.candidates)
    && db.uploads[Owner(k)].finalKey != Some(k)
  }

  predicate TombstoneInv(db: Db, now: Time, k: Key)
    requires k in db.tombstones
  {
    var t := db.tombstones[k];
    && TombstoneRowOk(k, t)
    && t.upload == Owner(k)
    && t.createdAt <= now
    && (t.reservationToken.Some? ==> t.nextAttemptAt <= now)
    && (t.lastAttemptAt.None? ==> t.nextAttemptAt == t.deleteNotBefore)
    && (t.lastAttemptAt.Some? ==> t.lastAttemptAt.value <= now && t.nextAttemptAt <= t.lastAttemptAt.value + DAY)
    && (k.Staging? ==> Owner(k) in db.uploads && t.deleteNotBefore == db.uploads[Owner(k)].horizon)
    && (k.Media? ==> Owner(k) in db.uploads && db.uploads[Owner(k)].terminalAt == Some(t.deleteNotBefore))
    && (t.lastResult.Some? ==>
          && t.lastAttemptAt.Some?
          && t.nextAttemptAt == t.lastAttemptAt.value +
               if t.lastResult.value.DeleteError? then CleanupRetryDelay(t.failureStreak, t.lastResult.value.kind)
               else DAY)
  }

  ghost predicate UploadsInv(db: Db, now: Time) {
    forall id | id in db.uploads ::
      UploadRowOk(id, db.uploads[id]) && UploadTimely(db.uploads[id], now) && FinalTracked(db, id, db.uploads[id])
  }

  ghost predicate IdempotencyInv(db: Db) {
    forall i, j | i in db.uploads && j in db.uploads
      && db.uploads[i].idempotencyKey == db.uploads[j].idempotencyKey :: i == j
  }

  ghost predicate CandidatesInv(db: Db) {
    forall c | c in db.candidates :: CandidateInv(db, c)
  }

  ghost predicate DutiesExact(db: Db) {
    forall k: Key :: k in db.tombstones <==> Retired(db, k)
  }

  ghost predicate TombstonesInv(db: Db, now: Time) {
    forall k | k in db.tombstones :: TombstoneInv(db, now, k)
  }

  ghost predicate DbInv(db: Db, now: Time) {
    && UploadsInv(db, now)
    && IdempotencyInv(db)
    && CandidatesInv(db)
    && DutiesExact(db)
    && TombstonesInv(db, now)
  }

  // -------------------------------------------------------------- two states

  predicate HasLease(u: Upload, now: Time) {
    u.claimToken.Some? && u.claimExpiresAt.Some? && now < u.claimExpiresAt.value
  }

  /** A row that waits for a worker: it is due and nobody holds its lease, because there is none or it has run out. */
  predicate Waiting(u: Upload, now: Time) {
    u.state.Finalizing? && u.reconcileAfter.Some? && u.reconcileAfter.value <= now && !HasLease(u, now)
  }

  /** A tombstone that waits for a cleaner: its next attempt is due and no reservation of it runs. */
  predicate Owed(t: Tombstone, now: Time) {
    t.nextAttemptAt <= now && !(t.reservationExpiresAt.Some? && now < t.reservationExpiresAt.value)
  }

  predicate SameIdentity(u: Upload, v: Upload) {
    && v.idempotencyKey == u.idempotencyKey && v.stagingKey == u.stagingKey
    && v.declaredSize == u.declaredSize && v.declaredType == u.declaredType
    && v.createdAt == u.createdAt && v.deadline == u.deadline
  }

  /** The lifecycle: the only state changes, and when each may happen. */
  predicate Edge(u: Upload, v: Upload, now: Time) {
    || (u.state.Pending? && v.state.Finalizing? && now < u.deadline && v.failureStreak == u.failureStreak
        && v.completionRequestedAt == Some(now))
    || (u.state.Pending? && v.state.Expired? && u.deadline <= now
        && v.expiryReason == Some(UploadDeadlineElapsed) && v.terminalAt == Some(now) && v.horizon == u.horizon)
    || (u.state.Finalizing? && Terminal(v.state) && HasLease(u, now) && v.terminalAt == Some(now)
          && v.horizon == u.horizon
        && (v.state.Expired? ==> v.expiryReason == Some(StagingMissingAfterWriteWindow)
                                 && u.deadline <= now && u.horizon <= now))
  }

  /** How one transaction of `actor` may change a finalizing row: an API call touches only the wake-up
      time and the horizon, the holder of the lease anything, and anyone may take over a lease that ran out. */
  predicate Fenced(u: Upload, v: Upload, now: Time, actor: Option<Uuid>) {
    || v == u.(reconcileAfter := v.reconcileAfter, horizon := v.horizon)
    || (actor.Some? && u.claimToken == actor && HasLease(u, now) && (v.claimToken == actor || v.claimToken == None))
    || (actor.Some? && !HasLease(u, now) && v == u.(claimToken := actor, claimExpiresAt := v.claimExpiresAt))
  }

  /** A wake-up time is never moved to before the clock that writes it. */
  predicate WakeStep(u: Upload, v: Upload, now: Time) {
    v.state.Finalizing? ==>
      || (u.state.Finalizing? && v.reconcileAfter == u.reconcileAfter)
      || (v.reconcileAfter.Some? && now <= v.reconcileAfter.value)
  }

  predicate UploadStep(u: Upload, v: Upload, now: Time, actor: Option<Uuid>) {
    && WakeStep(u, v, now)
    && SameIdentity(u, v)
    && (Terminal(u.state) ==> v == u)
    && u.horizon <= v.horizon
    && (u.deadline <= now ==> v.horizon == u.horizon)
    && (v.state == u.state || Edge(u, v, now))
    && (u.state.Pending? ==> v.claimToken.None?)
    && (u.state.Finalizing? ==> Fenced(u, v, now, actor))
  }

  /** A tombstone keeps its target for ever; its attempt columns change only when the result of a reservation is
      applied. */
  predicate TombstoneStep(t: Tombstone, v: Tombstone, now: Time) {
    && v.upload == t.upload && v.candidateSha == t.candidateSha
    && v.createdAt == t.createdAt && v.deleteNotBefore == t.deleteNotBefore
    && (|| (v.nextAttemptAt == t.nextAttemptAt && v.failureStreak == t.failureStreak
            && v.lastAttemptAt == t.lastAttemptAt && v.lastResult == t.lastResult)
        || (t.reservationToken.Some? && v.lastResult.Some? && v == Attempted(t, now, v.lastResult.value)))
  }

  ghost predicate UploadsStep(d: Db, now: Time, e: Db, byToken: Option<Uuid>, byUpload: Option<Uuid>) {
    && (forall id | id in d.uploads :: id in e.uploads && UploadStep(d.uploads[id], e.uploads[id], now, byToken))
    && (forall id | id in e.uploads && id !in d.uploads ::
          byUpload == Some(id) && e.uploads[id].state.Pending? && now < e.uploads[id].horizon)
  }

  ghost predicate CandidatesStep(d: Db, now: Time, e: Db, byToken: Option<Uuid>) {
    && (forall c | c in d.candidates :: c in e.candidates && e.candidates[c] == d.candidates[c])
    && (forall c | c in e.candidates && c !in d.candidates :: byToken.Some? && Live(d, now, c.upload, byToken.value))
  }

  /** No tombstone is dropped; a new one belongs to an upload that was open and is due when its key may be deleted. */
  ghost predicate TombstonesStep(d: Db, now: Time, e: Db) {
    && (forall k | k in d.tombstones :: k in e.tombstones && TombstoneStep(d.tombstones[k], e.tombstones[k], now))
    && (forall k | k in e.tombstones && k !in d.tombstones ::
          && Owner(k) in d.uploads && !Terminal(d.uploads[Owner(k)].state)
          && e.tombstones[k] == NewTombstone(k, Owner(k), d.uploads[Owner(k)].horizon, now))
  }

  /** One transaction at clock `now`, by the holder of a token, the creator of an upload, or neither. */
  ghost predicate DbStep(d: Db, now: Time, e: Db, byToken: Option<Uuid>, byUpload: Option<Uuid>) {
    && UploadsStep(d, now, e, byToken, byUpload)
    && CandidatesStep(d, now, e, byToken)
    && TombstonesStep(d, now, e)
  }

  // ------------------------------------------------------------ consequences

  /** Every constraint of the schema follows, so no transaction relies on the database refusing it. */
  lemma SchemaFollows(db: Db, now: Time)
    requires DbInv(db, now)
    ensures SchemaOk(db)
  {
  }

  lemma ClockAdvances(db: Db, now: Time, later: Time)
    requires DbInv(db, now) && now <= later
    ensures DbInv(db, later)
  {
  }

  lemma NothingHappens(db: Db, now: Time, byToken: Option<Uuid>, byUpload: Option<Uuid>)
    requires UploadsInv(db, now)
    ensures DbStep(db, now, db, byToken, byUpload)
  {
  }

  // --------------------------------------------------- updates of one open row

  /** Row `id` is open before and after, keeps its identity, and nothing else changes. */
  ghost predicate OpenUpdate(db: Db, now: Time, id: Uuid, v: Upload, e: Db) {
    && id in db.uploads
    && UploadRowOk(id, v) && UploadTimely(v, now)
    && !Terminal(db.uploads[id].state) && !Terminal(v.state)
    && SameIdentity(db.uploads[id], v)
    && (v.state.Pending? ==> db.uploads[id].state.Pending?)
    && e == WithUpload(db, id, v)
  }

  lemma OpenUpdateUploads(db: Db, now: Time, id: Uuid, v: Upload, e: Db)
    requires DbInv(db, now) && OpenUpdate(db, now, id, v, e)
    ensures UploadsInv(e, now) && IdempotencyInv(e)
  {
  }

  lemma OpenUpdateCandidates(db: Db, now: Time, id: Uuid, v: Upload, e: Db)
    requires DbInv(db, now) && OpenUpdate(db, now, id, v, e)
    ensures CandidatesInv(e)
  {
  }

  lemma OpenUpdateTombstones(db: Db, now: Time, id: Uuid, v: Upload, e: Db)
    requires DbInv(db, now) && OpenUpdate(db, now, id, v, e)
    ensures DutiesExact(e) && TombstonesInv(e, now)
  {
    forall k: Key ensures k in e.tombstones <==> Retired(e, k) {
      assert k in db.tombstones <==> Retired(db, k);
    }
    forall k | k in e.tombstones ensures TombstoneInv(e, now, k) {
      assert TombstoneInv(db, now, k) && Retired(db, k);
    }
  }

  lemma OpenUpdateStep(db: Db, now: Time, id: Uuid, v: Upload, e: Db, actor: Option<Uuid>)
    requires DbInv(db, now) && OpenUpdate(db, now, id, v, e)
    requires UploadStep(db.uploads[id], v, now, actor)
    ensures DbStep(db, now, e, actor, None)
  {
    NothingHappens(db, now, actor, None);
    assert UploadsStep(db, now, e, actor, None);
  }

  lemma OpenRowUpdate(db: Db, now: Time, id: Uuid, v: Upload, actor: Option<Uuid>)
    requires DbInv(db, now) && OpenUpdate(db, now, id, v, WithUpload(db, id, v))
    requires UploadStep(db.uploads[id], v, now, actor)
    ensures DbInv(WithUpload(db, id, v), now)
    ensures DbStep(db, now, WithUpload(db, id, v), actor, None)
  {
    var e := WithUpload(db, id, v);
    OpenUpdateUploads(db, now, id, v, e);
    OpenUpdateCandidates(db, now, id, v, e);
    OpenUpdateTombstones(db, now, id, v, e);
    OpenUpdateStep(db, now, id, v, e, actor);
  }
}
