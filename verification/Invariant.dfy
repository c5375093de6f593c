/** The global invariant, and the relation (rely/guarantee) that every step of every actor satisfies. */
module Invariant {
  import opened Types
  import opened Schema
  import opened Transactions
  import opened Validation
  import opened DbInvariant
  import opened World

  // ------------------------------------------------------------ shared state

  /** The database accounts for this key. */
  predicate Known(db: Db, k: Key) {
    Owner(k) in db.uploads && (k.Media? ==> k.candidate in db.candidates)
  }

  /** Bytes that are, or can come to be, under this key. */
  predicate Accounted(env: Env, db: Db, k: Key, b: Bytes) {
    && Known(db, k)
    && (k.Media? ==> env.sha256(b) == k.candidate.sha256 && |b| == db.uploads[Owner(k)].declaredSize)
  }

  ghost predicate StorageInv(env: Env, s: Shared) {
    && (forall k | k in s.objects :: Accounted(env, s.db, k, s.objects[k]))
    && (forall p | p in s.puts :: Accounted(env, s.db, p.key, p.body))
    && (forall k | k in s.deletes :: k in s.db.tombstones)
    && (forall id | id in s.db.uploads && s.db.uploads[id].finalKey.Some? ::
          s.db.uploads[id].finalKey.value in s.objects)
  }

  ghost predicate CapsInv(s: Shared) {
    forall c | c in s.caps :: c.upload in s.db.uploads && c.expiresAt <= s.db.uploads[c.upload].horizon
  }

  ghost predicate IssuedInv(s: Shared) {
    && (forall id | id in s.db.uploads :: id in s.issued)
    && (forall id | id in s.db.uploads && s.db.uploads[id].claimToken.Some? ::
          s.db.uploads[id].claimToken.value in s.issued)
    && (forall k | k in s.db.tombstones && s.db.tombstones[k].reservationToken.Some? ::
          s.db.tombstones[k].reservationToken.value in s.issued)
  }

  ghost predicate SharedInv(env: Env, s: Shared) {
    DbInv(s.db, s.now) && StorageInv(env, s) && CapsInv(s) && IssuedInv(s)
  }

  // -------------------------------------------------------------- one step

  /** A token issued before this step takes nothing over: only a fresh one can. */
  ghost predicate OnlyHolders(s: Shared, s': Shared, byToken: Option<Uuid>) {
    byToken.Some? && byToken.value in s.issued ==>
      forall id | id in s.db.uploads && id in s'.db.uploads && !HasLease(s.db.uploads[id], s.now) ::
        && s'.db.uploads[id].claimToken == s.db.uploads[id].claimToken
        && s'.db.uploads[id].claimExpiresAt == s.db.uploads[id].claimExpiresAt
  }

  /** A reservation token issued before this step is stored after it only where it was stored before. */
  ghost predicate OldReservations(d: Db, issued: set<Uuid>, e: Db) {
    forall k | k in e.tombstones && e.tombstones[k].reservationToken.Some?
        && e.tombstones[k].reservationToken.value in issued ::
      k in d.tombstones && d.tombstones[k].reservationToken == e.tombstones[k].reservationToken
  }

  ghost predicate Guarantee(s: Shared, s': Shared, byToken: Option<Uuid>, byUpload: Option<Uuid>) {
    && s.now <= s'.now
    && DbStep(s.db, s.now, s'.db, byToken, byUpload)
    && OnlyHolders(s, s', byToken)
    && OldReservations(s.db, s.issued, s'.db)
    && s.issued <= s'.issued
    && (forall k | k in s.objects && k !in s'.objects :: k in s.db.tombstones)
    && s.puts <= s'.puts && s.deletes <= s'.deletes && s.caps <= s'.caps
  }

  /** What every step must achieve. */
  ghost predicate Good(env: Env, s: Shared, s': Shared, byToken: Option<Uuid>, byUpload: Option<Uuid>) {
    SharedInv(env, s') && Guarantee(s, s', byToken, byUpload)
  }

  /** A token that is not live now is never live again. */
  lemma NoRevival(s: Shared, s': Shared, byToken: Option<Uuid>, byUpload: Option<Uuid>, id: Uuid, t: Uuid)
    requires Guarantee(s, s', byToken, byUpload)
    requires t in s.issued && id in s.db.uploads && !Live(s.db, s.now, id, t)
    ensures !Live(s'.db, s'.now, id, t)
  {
  }

  /** While one token is live, a step by anyone else leaves the candidate list alone. */
  lemma ListFrozen(s: Shared, s': Shared, byToken: Option<Uuid>, byUpload: Option<Uuid>, id: Uuid, t: Uuid)
    requires Guarantee(s, s', byToken, byUpload)
    requires Live(s.db, s.now, id, t) && byToken != Some(t)
    ensures CandidateList(s'.db, id) == CandidateList(s.db, id)
  {
    assert OwnShas(s'.db, id) == OwnShas(s.db, id);
    var p, q := CandidateList(s.db, id), CandidateList(s'.db, id);
    forall i | 0 <= i < |p| ensures p[i] == q[i] {
      var c := CandidateId(id, Ascending(OwnShas(s.db, id))[i]);
      assert c in s.db.candidates;
    }
  }

  // ------------------------------------------------------------- finalizers

  ghost predicate Loaded(s: Shared, c: Claim, all: seq<TrackedCandidate>) {
    && (forall i | 0 <= i < |all| :: TrackedRow(s.db, c.upload, all[i]))
    && (Live(s.db, s.now, c.upload, c.token) ==> all == CandidateList(s.db, c.upload))
  }

  /** The deadline and every capability handed out are behind us, and the horizon is frozen at h. */
  predicate WindowClosed(s: Shared, c: Claim, h: Time) {
    && c.upload in s.db.uploads
    && s.db.uploads[c.upload].deadline <= s.now
    && s.db.uploads[c.upload].horizon == h <= s.now
  }

  predicate Fits(env: Env, s: Shared, c: Claim, t: TrackedCandidate, b: Bytes) {
    && c.upload in s.db.uploads
    && CandidateRowOk(CandidateId(c.upload, t.sha256), t)
    && Agrees(t, s.db.uploads[c.upload])
    && env.sha256(b) == t.sha256 && |b| == t.encodedSize
  }

  predicate ClaimInv(s: Shared, c: Claim) {
    && c.upload in s.db.uploads
    && c.token in s.issued
    && c.stagingKey == Staging(c.upload)
    && c.declaredSize == s.db.uploads[c.upload].declaredSize
    && c.declaredType == s.db.uploads[c.upload].declaredType
  }

  /** The four places where processNext renews its claim first. */
  predicate Renewable(pc: Pc) {
    pc.VerifyTracked? || pc.Prepare? || pc.PutCandidate? || pc.VerifyPublished?
  }

  ghost predicate PcInv(env: Env, s: Shared, c: Claim, pc: Pc)
    requires ClaimInv(s, c)
  {
    match pc
    case Renew(next) => Renewable(next) && PcInv(env, s, c, next)
    case ConfirmRenew(_, next) => Renewable(next) && PcInv(env, s, c, next)
    case VerifyTracked(all, at) => at < |all| && Loaded(s, c, all)
    case Prepare(all) => Loaded(s, c, all)
    case CaptureStaging(all, h, eligible) => Loaded(s, c, all) && (eligible ==> WindowClosed(s, c, h))
    case CommitExpire(all, h) => Loaded(s, c, all) && WindowClosed(s, c, h)
    case Track(t, b) => Fits(env, s, c, t, b)
    case ConfirmTrack(t, b) => Fits(env, s, c, t, b)
    case PutCandidate(t, b) => Fits(env, s, c, t, b) && TrackedRow(s.db, c.upload, t)
    case VerifyPublished(t) => TrackedRow(s.db, c.upload, t)
    case CommitReady(t) =>
      TrackedRow(s.db, c.upload, t) && (s.db.uploads[c.upload].state.Finalizing? ==> t.objectKey in s.objects)
    case CommitReject(f) => FailureOk(f)
    case _ => true
  }

  ghost predicate FinInv(env: Env, s: Shared, l: Finalizer) {
    l.Working? ==> ClaimInv(s, l.claim) && PcInv(env, s, l.claim, l.pc)
  }

  lemma StableLoaded(env: Env, s: Shared, s': Shared, byToken: Option<Uuid>, byUpload: Option<Uuid>, c: Claim,
                     all: seq<TrackedCandidate>)
    requires SharedInv(env, s) && Guarantee(s, s', byToken, byUpload)
    requires ClaimInv(s, c) && Loaded(s, c, all)
    requires byToken != Some(c.token) || s'.db.candidates == s.db.candidates
    ensures Loaded(s', c, all)
  {
    if Live(s'.db, s'.now, c.upload, c.token) {
      if !Live(s.db, s.now, c.upload, c.token) { NoRevival(s, s', byToken, byUpload, c.upload, c.token); }
      if byToken != Some(c.token) { ListFrozen(s, s', byToken, byUpload, c.upload, c.token); }
    }
  }

  lemma StableWindow(s: Shared, s': Shared, byToken: Option<Uuid>, byUpload: Option<Uuid>, c: Claim, h: Time)
    requires Guarantee(s, s', byToken, byUpload) && WindowClosed(s, c, h)
    ensures WindowClosed(s', c, h)
  {
  }

  lemma StableFits(env: Env, s: Shared, s': Shared, byToken: Option<Uuid>, byUpload: Option<Uuid>, c: Claim,
                   t: TrackedCandidate, b: Bytes)
    requires Guarantee(s, s', byToken, byUpload) && Fits(env, s, c, t, b)
    ensures Fits(env, s', c, t, b)
  {
  }

  /** No delete can reach a candidate of an upload that is still open. */
  lemma StablePresent(s: Shared, s': Shared, byToken: Option<Uuid>, byUpload: Option<Uuid>, c: Claim,
                      t: TrackedCandidate)
    requires CandidatesInv(s.db) && DutiesExact(s.db) && Guarantee(s, s', byToken, byUpload)
    requires c.upload in s.db.uploads && TrackedRow(s.db, c.upload, t)
    requires s.db.uploads[c.upload].state.Finalizing? ==> t.objectKey in s.objects
    ensures TrackedRow(s'.db, c.upload, t)
    ensures c.upload in s'.db.uploads
    ensures s'.db.uploads[c.upload].state.Finalizing? ==> t.objectKey in s'.objects
  {
    var u, v := s.db.uploads[c.upload], s'.db.uploads[c.upload];
    assert UploadStep(u, v, s.now, byToken);
    assert CandidateInv(s.db, CandidateId(c.upload, t.sha256));
    if v.state.Finalizing? {
      assert !Retired(s.db, t.objectKey);
    }
  }

  lemma StableClaim(s: Shared, s': Shared, byToken: Option<Uuid>, byUpload: Option<Uuid>, c: Claim)
    requires Guarantee(s, s', byToken, byUpload) && ClaimInv(s, c)
    ensures ClaimInv(s', c)
  {
  }

  /** A finalizer's own facts survive every step of everybody else, and its own steps that add no candidate. */
  lemma {:induction false} StablePc(env: Env, s: Shared, s': Shared, byToken: Option<Uuid>, byUpload: Option<Uuid>,
                                    c: Claim, pc: Pc)
    requires SharedInv(env, s) && Guarantee(s, s', byToken, byUpload)
    requires ClaimInv(s, c) && ClaimInv(s', c) && PcInv(env, s, c, pc)
    requires byToken != Some(c.token) || s'.db.candidates == s.db.candidates
    ensures PcInv(env, s', c, pc)
    decreases pc
  {
    match pc
    case Renew(next) => StablePc(env, s, s', byToken, byUpload, c, next);
    case ConfirmRenew(_, next) => StablePc(env, s, s', byToken, byUpload, c, next);
    case VerifyTracked(all, _) => StableLoaded(env, s, s', byToken, byUpload, c, all);
    case Prepare(all) => StableLoaded(env, s, s', byToken, byUpload, c, all);
    case CaptureStaging(all, h, eligible) =>
      StableLoaded(env, s, s', byToken, byUpload, c, all);
      if eligible { StableWindow(s, s', byToken, byUpload, c, h); }
    case CommitExpire(all, h) =>
      StableLoaded(env, s, s', byToken, byUpload, c, all);
      StableWindow(s, s', byToken, byUpload, c, h);
    case Track(t, b) => StableFits(env, s, s', byToken, byUpload, c, t, b);
    case ConfirmTrack(t, b) => StableFits(env, s, s', byToken, byUpload, c, t, b);
    case PutCandidate(t, b) => StableFits(env, s, s', byToken, byUpload, c, t, b);
    case CommitReady(t) => StablePresent(s, s', byToken, byUpload, c, t);
    case _ =>
  }

  lemma StableFinalizer(env: Env, s: Shared, s': Shared, byToken: Option<Uuid>, byUpload: Option<Uuid>, l: Finalizer)
    requires SharedInv(env, s) && Guarantee(s, s', byToken, byUpload) && FinInv(env, s, l)
    requires l.Working? ==> byToken != Some(l.claim.token)
    ensures FinInv(env, s', l)
  {
    if l.Working? {
      StableClaim(s, s', byToken, byUpload, l.claim);
      StablePc(env, s, s', byToken, byUpload, l.claim, l.pc);
    }
  }

  // ---------------------------------------------------- cleaners and creators

  predicate CleanInv(s: Shared, l: Cleaner) {
    !l.Resting? ==> l.key in s.db.tombstones && l.token in s.issued
  }

  predicate CreatorInv(s: Shared, l: Creator) {
    match l
    case NoCreate => true
    case Insert(cmd, id, expiresAt) =>
      CommandOk(cmd) && id in s.issued && id !in s.db.uploads && expiresAt <= s.now + CAPABILITY_LIFE
    case Replay(cmd, id, expiresAt) => expiresAt <= s.now + CAPABILITY_LIFE
    case Recover(cmd, id, expiresAt, created) => created ==> id in s.issued
    case HandOut(cmd, id, expiresAt, created) =>
      && id in s.issued
      && Holds(s.db, cmd.idempotencyKey, id) && Matches(s.db.uploads[id], cmd)
      && expiresAt <= s.db.uploads[id].horizon
  }

  /** The upload id a create call generated for itself, while it may still report it as created. */
  function OwnId(l: Creator): Option<Uuid> {
    match l
    case Insert(_, id, _) => Some(id)
    case Recover(_, id, _, true) => Some(id)
    case HandOut(_, id, _, true) => Some(id)
    case _ => None
  }

  lemma StableCreator(env: Env, s: Shared, s': Shared, byToken: Option<Uuid>, byUpload: Option<Uuid>, l: Creator)
    requires SharedInv(env, s) && Guarantee(s, s', byToken, byUpload) && CreatorInv(s, l)
    requires OwnId(l).Some? ==> byUpload != OwnId(l)
    ensures CreatorInv(s', l)
  {
    if l.HandOut? {
      assert UploadStep(s.db.uploads[l.id], s'.db.uploads[l.id], s.now, byToken);
    }
  }

  // ------------------------------------------------------ changes of one part

  /** A database step keeps the rest of the shared invariant, if it issues its tokens and publishes only what is
      stored. */
  lemma DbChange(env: Env, s: Shared, db: Db, issued: set<Uuid>, byToken: Option<Uuid>, byUpload: Option<Uuid>)
    requires SharedInv(env, s) && s.issued <= issued
    requires DbInv(db, s.now) && DbStep(s.db, s.now, db, byToken, byUpload)
    requires IssuedInv(s.(db := db, issued := issued))
    requires forall id | id in db.uploads && db.uploads[id].finalKey.Some? :: db.uploads[id].finalKey.value in s.objects
    ensures SharedInv(env, s.(db := db, issued := issued))
  {
    var s' := s.(db := db, issued := issued);
    forall k, b | Accounted(env, s.db, k, b) ensures Accounted(env, db, k, b) {
      assert UploadStep(s.db.uploads[Owner(k)], db.uploads[Owner(k)], s.now, byToken);
    }
    assert StorageInv(env, s');
    forall c | c in s'.caps ensures c.upload in db.uploads && c.expiresAt <= db.uploads[c.upload].horizon {
      assert UploadStep(s.db.uploads[c.upload], db.uploads[c.upload], s.now, byToken);
    }
  }

  /** A storage step: what appears is accounted for, what disappears is a tombstone. */
  ghost predicate StorageStep(env: Env, s: Shared, s': Shared) {
    && s' == s.(objects := s'.objects, puts := s'.puts, deletes := s'.deletes)
    && (forall k | k in s'.objects :: Accounted(env, s.db, k, s'.objects[k]))
    && (forall p | p in s'.puts :: Accounted(env, s.db, p.key, p.body))
    && (forall k | k in s'.deletes :: k in s.db.tombstones)
    && (forall k | k in s.objects && k !in s'.objects :: k in s.db.tombstones)
    && s.puts <= s'.puts && s.deletes <= s'.deletes
  }

  lemma StorageChange(env: Env, s: Shared, s': Shared, byToken: Option<Uuid>)
    requires SharedInv(env, s) && StorageStep(env, s, s')
    ensures SharedInv(env, s') && Guarantee(s, s', byToken, None)
  {
    NothingHappens(s.db, s.now, byToken, None);
    forall id | id in s.db.uploads && s.db.uploads[id].finalKey.Some?
      ensures s.db.uploads[id].finalKey.value in s'.objects
    {
      var k := s.db.uploads[id].finalKey.value;
      assert FinalTracked(s.db, id, s.db.uploads[id]);
      assert !Retired(s.db, k);
    }
    assert StorageInv(env, s');
    assert CapsInv(s') && IssuedInv(s');
  }

  lemma Quiet(env: Env, s: Shared, byToken: Option<Uuid>, byUpload: Option<Uuid>)
    requires SharedInv(env, s)
    ensures Guarantee(s, s, byToken, byUpload)
  {
    NothingHappens(s.db, s.now, byToken, byUpload);
  }
}
