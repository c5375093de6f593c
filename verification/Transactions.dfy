/** What each database transaction computes, as a function of the tables and of the clock it samples
    while it holds its row lock. Database.dfy has the statements that compute it in place. */
module Transactions {
  import opened Types
  import opened Backoff

  // ---------------------------------------------------------------- commits

  /** How a COMMIT ends for its caller: acknowledged, without an answer (and then applied or not), or with a
      serialization failure that PostgreSQL guarantees to have rolled back. */
  datatype Fate = Acked | Lost(applied: bool) | RolledBack

  predicate Applied(f: Fate) {
    f.Acked? || (f.Lost? && f.applied)
  }

  // ---------------------------------------------------------------- claims

  /** lockFinalizeParent succeeds: the row is finalizing under this token and the lease has not run out. */
  predicate Live(db: Db, now: Time, id: Uuid, token: Uuid) {
    && id in db.uploads
    && db.uploads[id].state.Finalizing?
    && db.uploads[id].claimToken == Some(token)
    && db.uploads[id].claimExpiresAt.Some?
    && now < db.uploads[id].claimExpiresAt.value
  }

  predicate ClaimDue(u: Upload, now: Time) {
    && u.state.Finalizing?
    && u.reconcileAfter.Some? && u.reconcileAfter.value <= now
    && (u.claimToken.None? || (u.claimExpiresAt.Some? && u.claimExpiresAt.value <= now))
  }

  predicate Earlier(t: Time, a: nat, s: Time, b: nat) {
    t < s || (t == s && a < b)
  }

  /** The row that ORDER BY reconcile_after, upload_id FOR UPDATE SKIP LOCKED LIMIT 1 returns
      while the rows of `skipped` are locked elsewhere. */
  ghost predicate NextClaim(db: Db, now: Time, skipped: set<Uuid>, id: Uuid) {
    && id in db.uploads && ClaimDue(db.uploads[id], now) && id !in skipped
    && forall j | j in db.uploads && ClaimDue(db.uploads[j], now) && j !in skipped && j != id ::
         Earlier(db.uploads[id].reconcileAfter.value, id, db.uploads[j].reconcileAfter.value, j)
  }

  function WithUpload(db: Db, id: Uuid, u: Upload): Db {
    db.(uploads := db.uploads[id := u])
  }

  function Claimed(u: Upload, token: Uuid, expiry: Time): Upload {
    u.(claimToken := Some(token), claimExpiresAt := Some(expiry))
  }

  function TxClaim(db: Db, now: Time, id: Uuid, token: Uuid, lease: int): Db
    requires id in db.uploads
  {
    WithUpload(db, id, Claimed(db.uploads[id], token, now + lease))
  }

  function TxRenew(db: Db, now: Time, id: Uuid, token: Uuid, lease: int): Db
    requires Live(db, now, id, token)
  {
    WithUpload(db, id, db.uploads[id].(claimExpiresAt := Some(now + lease)))
  }

  function Retried(u: Upload, now: Time, kind: ErrorClass): Upload {
    u.(reconcileAfter := Some(now + FinalizerRetryDelay(u.failureStreak + 1, kind)),
       failureStreak := u.failureStreak + 1,
       lastFailureClass := Some(kind),
       lastFailureAt := Some(now),
       claimToken := None,
       claimExpiresAt := None)
  }

  function TxRetry(db: Db, now: Time, id: Uuid, token: Uuid, kind: ErrorClass): Db
    requires Live(db, now, id, token)
  {
    WithUpload(db, id, Retried(db.uploads[id], now, kind))
  }

  // ------------------------------------------------------------ candidates

  function OwnShas(db: Db, id: Uuid): (r: set<Digest>)
    ensures forall d: Digest :: d in r <==> CandidateId(id, d) in db.candidates
  {
    var r := set c | c in db.candidates && c.upload == id :: c.sha256;
    assert forall d: Digest | CandidateId(id, d) in db.candidates :: CandidateId(id, d).sha256 in r;
    r
  }

  lemma {:induction false} LeastOf(s: set<Digest>) returns (m: Digest)
    requires s != {}
    ensures m in s && forall x | x in s :: m <= x
  {
    var any :| any in s;
    m := any;
    if exists x :: x in s && x < any {
      var below := set x | x in s && x < any;
      assert below < s;
      var y :| y in s && y < any;
      assert y in below;
      m := LeastOf(below);
      forall x | x in s ensures m <= x {
        assert x in below || any <= x;
      }
    }
  }

  function Least(s: set<Digest>): (m: Digest)
    requires s != {}
    ensures m in s && forall x | x in s :: m <= x
  {
    assert exists m :: m in s && forall x | x in s :: m <= x by {
      var m := LeastOf(s);
    }
    var m :| m in s && forall x | x in s :: m <= x;
    m
  }

  function Ascending(s: set<Digest>): (q: seq<Digest>)
    ensures forall x :: x in q <==> x in s
    ensures forall i, j | 0 <= i < j < |q| :: q[i] < q[j]
  {
    if s == {} then [] else [Least(s)] + Ascending(s - {Least(s)})
  }

  /** All candidates of one upload ORDER BY object_key. */
  function CandidateList(db: Db, id: Uuid): (q: seq<TrackedCandidate>)
    ensures |q| == |Ascending(OwnShas(db, id))|
    ensures forall i | 0 <= i < |q| ::
              var c := CandidateId(id, Ascending(OwnShas(db, id))[i]);
              c in db.candidates && q[i] == db.candidates[c].tracked
  {
    var shas := Ascending(OwnShas(db, id));
    assert forall i | 0 <= i < |shas| :: shas[i] in OwnShas(db, id);
    seq(|shas|, i requires 0 <= i < |shas| => db.candidates[CandidateId(id, shas[i])].tracked)
  }

  /** candidateTracked: the row stored under this digest is exactly t. */
  predicate TrackedRow(db: Db, id: Uuid, t: TrackedCandidate) {
    CandidateId(id, t.sha256) in db.candidates && db.candidates[CandidateId(id, t.sha256)].tracked == t
  }

  datatype Registration = NotActive | Mismatch | Stored(db: Db)

  function TxRegister(db: Db, now: Time, id: Uuid, token: Uuid, t: TrackedCandidate): Registration {
    var c := CandidateId(id, t.sha256);
    if !Live(db, now, id, token) then NotActive
    else if c !in db.candidates then Stored(db.(candidates := db.candidates[c := CandidateRow(t, now)]))
    else if db.candidates[c].tracked == t then Stored(db)
    else Mismatch
  }

  // ------------------------------------------------------- terminal commits

  function DigestOf(k: Key): Option<Digest> {
    match k
    case Staging(_) => None
    case Media(c) => Some(c.sha256)
  }

  function NotBefore(k: Key, horizon: Time, now: Time): Time {
    if k.Staging? then horizon else now
  }

  function NewTombstone(k: Key, id: Uuid, horizon: Time, now: Time): Tombstone {
    var due := NotBefore(k, horizon, now);
    Tombstone(id, DigestOf(k), now, due, due, None, None, 0, None, None)
  }

  /** Staging and every candidate of the upload except the selected one. */
  function TargetKeys(db: Db, id: Uuid, selected: Option<Key>): set<Key> {
    {Staging(id)} + set c | c in db.candidates && c.upload == id && Some(Media(c)) != selected :: Media(c)
  }

  /** A stored tombstone stands where a target would go and does not cover it. */
  predicate Conflicts(db: Db, id: Uuid, horizon: Time, now: Time, keys: set<Key>) {
    exists k | k in keys && k in db.tombstones ::
      || db.tombstones[k].upload != id
      || db.tombstones[k].candidateSha != DigestOf(k)
      || db.tombstones[k].deleteNotBefore < NotBefore(k, horizon, now)
  }

  function WithTombstones(ts: map<Key, Tombstone>, id: Uuid, horizon: Time, now: Time, keys: set<Key>)
    : map<Key, Tombstone>
  {
    (map k | k in keys :: NewTombstone(k, id, horizon, now)) + ts
  }

  datatype Defect = CandidateNotTracked | SelectedTombstoned | ConflictingTombstone
  datatype Outcome = Inactive | Broken(why: Defect) | Changed(db: Db)

  function Close(db: Db, now: Time, id: Uuid, selected: Option<Key>, u: Upload): Outcome
    requires id in db.uploads
  {
    var keys := TargetKeys(db, id, selected);
    var horizon := db.uploads[id].horizon;
    if Conflicts(db, id, horizon, now, keys) then Broken(ConflictingTombstone)
    else Changed(Db(db.uploads[id := u], db.candidates, WithTombstones(db.tombstones, id, horizon, now, keys)))
  }

  function MadeReady(u: Upload, now: Time, k: Key): Upload {
    u.(state := Ready, reconcileAfter := None, claimToken := None, claimExpiresAt := None,
       terminalAt := Some(now), finalKey := Some(k))
  }

  function MadeRejected(u: Upload, now: Time, f: Failure): Upload {
    u.(state := Rejected, reconcileAfter := None, claimToken := None, claimExpiresAt := None,
       terminalAt := Some(now), rejectionClass := Some(f.kind), rejectionReason := Some(f.reason),
       rejectionPolicy := Some(1), rejectionPhase := Some(f.phase), rejectionEvidence := Some(f.evidence))
  }

  function MadeMissing(u: Upload, now: Time): Upload {
    u.(state := Expired, reconcileAfter := None, claimToken := None, claimExpiresAt := None,
       terminalAt := Some(now), expiryReason := Some(StagingMissingAfterWriteWindow))
  }

  /** The columns transitionPendingExpiredLocked writes. */
  function MadeElapsed(u: Upload, now: Time): Upload {
    u.(state := Expired, terminalAt := Some(now), expiryReason := Some(UploadDeadlineElapsed))
  }

  predicate Tracked(db: Db, id: Uuid, t: TrackedCandidate) {
    exists c | c in db.candidates :: c.upload == id && db.candidates[c].tracked == t
  }

  function TxReady(db: Db, now: Time, id: Uuid, token: Uuid, t: TrackedCandidate): Outcome {
    if !Live(db, now, id, token) then Inactive
    else if !Tracked(db, id, t) then Broken(CandidateNotTracked)
    else if t.objectKey in db.tombstones then Broken(SelectedTombstoned)
    else Close(db, now, id, Some(t.objectKey), MadeReady(db.uploads[id], now, t.objectKey))
  }

  function TxReject(db: Db, now: Time, id: Uuid, token: Uuid, f: Failure): Outcome {
    if !Live(db, now, id, token) then Inactive
    else Close(db, now, id, None, MadeRejected(db.uploads[id], now, f))
  }

  /** The re-checks that guard a missing-staging expiry, beyond the live claim. */
  predicate StillMissing(db: Db, now: Time, id: Uuid, horizon: Time, observed: seq<TrackedCandidate>)
    requires id in db.uploads
  {
    && db.uploads[id].horizon == horizon
    && db.uploads[id].deadline <= now
    && db.uploads[id].horizon <= now
    && CandidateList(db, id) == observed
  }

  function TxExpireMissing(db: Db, now: Time, id: Uuid, token: Uuid, horizon: Time,
                           observed: seq<TrackedCandidate>): Outcome {
    if !Live(db, now, id, token) then Inactive
    else if !StillMissing(db, now, id, horizon, observed) then Inactive
    else Close(db, now, id, None, MadeMissing(db.uploads[id], now))
  }

  predicate ExpiryDue(u: Upload, now: Time) {
    u.state.Pending? && u.deadline <= now
  }

  /** transitionPendingExpiredLocked: only staging is retired, because a pending upload has no candidates. */
  function TxExpirePending(db: Db, now: Time, id: Uuid): Outcome
    requires id in db.uploads
  {
    if !ExpiryDue(db.uploads[id], now) then Inactive
    else
      var keys := {Staging(id)};
      var horizon := db.uploads[id].horizon;
      if Conflicts(db, id, horizon, now, keys) then Broken(ConflictingTombstone)
      else Changed(Db(db.uploads[id := MadeElapsed(db.uploads[id], now)], db.candidates,
                      WithTombstones(db.tombstones, id, horizon, now, keys)))
  }

  // ------------------------------------------------------------ API calls

  datatype Command = Command(idempotencyKey: Uuid, size: int, contentType: ContentType)

  predicate CommandOk(cmd: Command) {
    1 <= cmd.size <= MAX_UPLOAD_BYTES
  }

  predicate Matches(u: Upload, cmd: Command) {
    u.declaredSize == cmd.size && u.declaredType == cmd.contentType
  }

  predicate AcceptsWrites(u: Upload, now: Time) {
    (u.state.Pending? || u.state.Finalizing?) && now < u.deadline
  }

  predicate Taken(db: Db, key: Uuid) {
    exists i | i in db.uploads :: db.uploads[i].idempotencyKey == key
  }

  function NewUpload(cmd: Command, id: Uuid, now: Time, expiresAt: Time): Upload {
    Upload(cmd.idempotencyKey, Staging(id), cmd.size, cmd.contentType, Pending, now, now + DAY, expiresAt,
           None, None, 0, None, None, None, None, None, None, None, None, None, None, None, None)
  }

  /** INSERT ... ON CONFLICT (idempotency_key) DO NOTHING. */
  function TxInsert(db: Db, now: Time, cmd: Command, id: Uuid, expiresAt: Time): Option<Db> {
    if Taken(db, cmd.idempotencyKey) then None
    else Some(WithUpload(db, id, NewUpload(cmd, id, now, expiresAt)))
  }

  function Later(a: Time, b: Time): Time {
    if a < b then b else a
  }

  function TxReplay(db: Db, id: Uuid, expiresAt: Time): Db
    requires id in db.uploads
  {
    WithUpload(db, id, db.uploads[id].(horizon := Later(db.uploads[id].horizon, expiresAt)))
  }

  datatype Transition = PendingToFinalizing | PendingToExpired
  datatype Completion = Settled | Moved(db: Db, transition: Option<Transition>) | Failed

  function Requested(u: Upload, now: Time): Upload {
    u.(state := Finalizing, completionRequestedAt := Some(now), reconcileAfter := Some(now))
  }

  /** completeUploadAttempt, once the row is locked. */
  function TxComplete(db: Db, now: Time, id: Uuid): Completion
    requires id in db.uploads
  {
    var u := db.uploads[id];
    match u.state
    case Pending =>
      if now < u.deadline then
        Moved(WithUpload(db, id, Requested(u, now)), Some(PendingToFinalizing))
      else (match TxExpirePending(db, now, id)
            case Changed(db') => Moved(db', Some(PendingToExpired))
            case _ => Failed)
    case Finalizing =>
      var sooner := if u.reconcileAfter.Some? && u.reconcileAfter.value < now then u.reconcileAfter.value else now;
      Moved(WithUpload(db, id, u.(reconcileAfter := Some(sooner))), None)
    case _ => Settled
  }

  // -------------------------------------------------------------- cleanup

  predicate CleanupDue(db: Db, now: Time, k: Key)
    requires k in db.tombstones
  {
    var t := db.tombstones[k];
    && t.deleteNotBefore <= now
    && t.nextAttemptAt <= now
    && (t.reservationToken.None? || (t.reservationExpiresAt.Some? && t.reservationExpiresAt.value <= now))
    && !(t.upload in db.uploads && db.uploads[t.upload].finalKey == Some(k))
  }

  predicate EarlierKey(t: Time, a: Key, s: Time, b: Key) {
    t < s || (t == s && KeyLess(a, b))
  }

  ghost predicate NextCleanup(db: Db, now: Time, skipped: set<Key>, k: Key) {
    && k in db.tombstones && CleanupDue(db, now, k) && k !in skipped
    && forall j | j in db.tombstones && CleanupDue(db, now, j) && j !in skipped && j != k ::
         EarlierKey(db.tombstones[k].nextAttemptAt, k, db.tombstones[j].nextAttemptAt, j)
  }

  function WithTombstone(db: Db, k: Key, t: Tombstone): Db {
    db.(tombstones := db.tombstones[k := t])
  }

  function TxReserve(db: Db, now: Time, k: Key, token: Uuid): Db
    requires k in db.tombstones
  {
    WithTombstone(db, k, db.tombstones[k].(reservationToken := Some(token),
                                           reservationExpiresAt := Some(now + RESERVATION_LEASE)))
  }

  function Attempted(t: Tombstone, now: Time, result: CleanupResult): Tombstone {
    var streak := if result.DeleteError? then t.failureStreak + 1 else 0;
    var delay := if result.DeleteError? then CleanupRetryDelay(streak, result.kind) else DAY;
    t.(nextAttemptAt := now + delay, reservationToken := None, reservationExpiresAt := None,
       failureStreak := streak, lastAttemptAt := Some(now), lastResult := Some(result))
  }

  /** None when the reservation is no longer the stored one. */
  function TxApply(db: Db, now: Time, k: Key, token: Uuid, result: CleanupResult): Option<Db> {
    if k in db.tombstones && db.tombstones[k].reservationToken == Some(token)
    then Some(WithTombstone(db, k, Attempted(db.tombstones[k], now, result)))
    else None
  }
}
