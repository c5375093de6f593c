/** The constraints of migrations/0001_initial.sql, as predicates over rows and tables. */
module Schema {
  import opened Types

  predicate FailureColumnsOk(u: Upload) {
    if u.failureStreak == 0 then u.lastFailureClass.None? && u.lastFailureAt.None?
    else u.failureStreak > 0 && u.lastFailureClass.Some? && u.lastFailureAt.Some?
  }

  /** uploads_rejection_reason_check, for a class that is present. */
  predicate ReasonFits(kind: RejectionClass, reason: Reason) {
    match kind
    case InvalidInput => !reason.DecoderInvariantMismatch? && !reason.CandidateIntegrityMismatch?
    case InternalInvariant => reason.DecoderInvariantMismatch? || reason.CandidateIntegrityMismatch?
  }

  predicate NoRejection(u: Upload) {
    && u.rejectionClass.None? && u.rejectionReason.None? && u.rejectionPolicy.None?
    && u.rejectionPhase.None? && u.rejectionEvidence.None?
  }

  predicate FullRejection(u: Upload) {
    && u.rejectionClass.Some? && u.rejectionReason.Some? && u.rejectionPolicy == Some(1)
    && u.rejectionPhase.Some? && u.rejectionEvidence.Some? && u.rejectionEvidence.value != {}
  }

  /** uploads_state_shape_check. */
  predicate StateShapeOk(u: Upload) {
    match u.state
    case Pending =>
      && u.completionRequestedAt.None? && u.reconcileAfter.None? && u.failureStreak == 0
      && u.claimToken.None? && u.terminalAt.None? && u.finalKey.None?
      && NoRejection(u) && u.expiryReason.None?
    case Finalizing =>
      && u.completionRequestedAt.Some? && u.reconcileAfter.Some?
      && u.terminalAt.None? && u.finalKey.None?
      && NoRejection(u) && u.expiryReason.None?
    case Ready =>
      && u.completionRequestedAt.Some? && u.reconcileAfter.None?
      && u.claimToken.None? && u.terminalAt.Some? && u.finalKey.Some?
      && NoRejection(u) && u.expiryReason.None?
    case Rejected =>
      && u.completionRequestedAt.Some? && u.reconcileAfter.None?
      && u.claimToken.None? && u.terminalAt.Some? && u.finalKey.None?
      && FullRejection(u) && u.expiryReason.None?
    case Expired =>
      && u.reconcileAfter.None?
      && u.claimToken.None? && u.terminalAt.Some? && u.finalKey.None?
      && NoRejection(u) && u.expiryReason.Some?
      && match u.expiryReason.value {
         case UploadDeadlineElapsed => u.completionRequestedAt.None?
         case StagingMissingAfterWriteWindow =>
           && u.completionRequestedAt.Some?
           && u.terminalAt.value >= u.deadline && u.terminalAt.value >= u.horizon
         }
  }

  /** Every CHECK of table uploads. */
  predicate UploadRowOk(id: Uuid, u: Upload) {
    && u.stagingKey == Staging(id)
    && 1 <= u.declaredSize <= MAX_UPLOAD_BYTES
    && u.deadline == u.createdAt + DAY
    && u.createdAt < u.horizon <= u.deadline + CAPABILITY_LIFE
    && (u.completionRequestedAt.Some? ==> u.completionRequestedAt.value < u.deadline)
    && FailureColumnsOk(u)
    && (u.claimToken.None? <==> u.claimExpiresAt.None?)
    && (u.claimToken.Some? ==> u.state.Finalizing?)
    && (u.finalKey.Some? <==> u.state.Ready?)
    && (u.rejectionClass.Some? ==>
          u.rejectionReason.Some? && ReasonFits(u.rejectionClass.value, u.rejectionReason.value))
    && StateShapeOk(u)
  }

  /** Every CHECK of table upload_candidates; octet_length(sha256) = 32 is the range of Digest. */
  predicate CandidateRowOk(c: CandidateId, t: TrackedCandidate) {
    && t.sha256 == c.sha256
    && t.objectKey == Media(c)
    && 1 <= t.encodedSize <= MAX_UPLOAD_BYTES
    && t.policyVersion == 1
    && !t.format.OtherFormat?
    && 1 <= t.width <= MAX_AXIS && 1 <= t.height <= MAX_AXIS
    && t.width * t.height <= MAX_PIXELS
  }

  /** Every CHECK of table cleanup_tombstones. */
  predicate TombstoneRowOk(k: Key, t: Tombstone) {
    && (match t.candidateSha
        case None => k == Staging(t.upload)
        case Some(d) => k == Media(CandidateId(t.upload, d)))
    && t.nextAttemptAt >= t.deleteNotBefore
    && (t.reservationToken.None? <==> t.reservationExpiresAt.None?)
    && (t.lastAttemptAt.None? <==> t.lastResult.None?)
    && t.failureStreak >= 0
    && (t.lastResult.None? ==> t.failureStreak == 0)
    && (t.lastResult.Some? ==> (t.failureStreak > 0 <==> t.lastResult.value.DeleteError?))
  }

  /** PRIMARY KEY, UNIQUE and FOREIGN KEY constraints that relate rows. */
  ghost predicate KeysOk(db: Db) {
    && (forall i, j | i in db.uploads && j in db.uploads
          && db.uploads[i].idempotencyKey == db.uploads[j].idempotencyKey :: i == j)
    && (forall i | i in db.uploads && db.uploads[i].finalKey.Some? ::
          && db.uploads[i].finalKey.value.Media?
          && db.uploads[i].finalKey.value.candidate.upload == i
          && db.uploads[i].finalKey.value.candidate in db.candidates)
    && (forall c, d | c in db.candidates && d in db.candidates && c.upload == d.upload
          && db.candidates[c].tracked.objectKey == db.candidates[d].tracked.objectKey :: c == d)
    && (forall c | c in db.candidates :: c.upload in db.uploads)
    && (forall k | k in db.tombstones :: db.tombstones[k].upload in db.uploads)
    && (forall k | k in db.tombstones && db.tombstones[k].candidateSha.Some? ::
          CandidateId(db.tombstones[k].upload, db.tombstones[k].candidateSha.value) in db.candidates)
  }

  ghost predicate SchemaOk(db: Db) {
    && (forall i | i in db.uploads :: UploadRowOk(i, db.uploads[i]))
    && (forall c | c in db.candidates :: CandidateRowOk(c, db.candidates[c].tracked))
    && (forall k | k in db.tombstones :: TombstoneRowOk(k, db.tombstones[k]))
    && KeysOk(db)
  }
}
