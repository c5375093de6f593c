/** What each decision of the finalizer comes to, said of stored bytes, rows and clocks. */
module FinalizerDecisions {
  import opened Types
  import opened Schema
  import opened Backoff
  import opened Transactions
  import opened Validation
  import opened DbInvariant
  import opened World
  import opened Invariant
  import opened FinalizerProofs
  import opened WorldInvariant

  // ------------------------------------------------------------------- claims

  function DueAt(u: Upload): Time {
    if u.reconcileAfter.Some? then u.reconcileAfter.value else 0
  }

  lemma {:induction false} FirstOf(db: Db, ids: set<Uuid>, x: Uuid) returns (id: Uuid)
    requires x in ids && forall j | j in ids :: j in db.uploads
    ensures id in ids
    ensures forall j | j in ids && j != id :: Earlier(DueAt(db.uploads[id]), id, DueAt(db.uploads[j]), j)
    decreases ids
  {
    if ids == {x} {
      id := x;
    } else {
      var y :| y in ids && y != x;
      id := FirstOf(db, ids - {y}, x);
      if Earlier(DueAt(db.uploads[y]), y, DueAt(db.uploads[id]), id) {
        id := y;
      }
    }
  }

  /** While a row waits and is not locked elsewhere, the claim query returns a row: this one or one that is due earlier.
      In particular a row whose worker died is taken over once the lease has run out. */
  lemma SomebodyIsClaimed(db: Db, now: Time, skipped: set<Uuid>, x: Uuid) returns (id: Uuid)
    requires UploadsInv(db, now) && x in db.uploads && Waiting(db.uploads[x], now) && x !in skipped
    ensures NextClaim(db, now, skipped, id) && Waiting(db.uploads[id], now)
    ensures id == x || Earlier(DueAt(db.uploads[id]), id, DueAt(db.uploads[x]), x)
  {
    var ids := set j | j in db.uploads && Waiting(db.uploads[j], now) && j !in skipped;
    id := FirstOf(db, ids, x);
    forall j | j in db.uploads ensures ClaimDue(db.uploads[j], now) <==> Waiting(db.uploads[j], now) {
      assert UploadRowOk(j, db.uploads[j]);
    }
  }

  /** So an idle worker with a new token can always take a row when one waits. */
  lemma IdleWorkersCanClaim(env: Env, w: World, i: nat, x: Uuid, token: Uuid) returns (e: FinEvent, w': World)
    requires WorldInv(env, w) && i in w.finalizers && w.finalizers[i].Idle? && token !in w.s.issued
    requires x in w.s.db.uploads && Waiting(w.s.db.uploads[x], w.s.now)
    ensures Next(env, w, Fin(i, e), w') && e == TakeClaim(e.id, token, {}, Acked)
    ensures e.id == x || Earlier(DueAt(w.s.db.uploads[e.id]), e.id, DueAt(w.s.db.uploads[x]), x)
    ensures w'.finalizers[i].Working? && w'.finalizers[i].pc == LoadCandidates && w'.finalizers[i].claim.upload == e.id
  {
    var id := SomebodyIsClaimed(w.s.db, w.s.now, {}, x);
    e := TakeClaim(id, token, {}, Acked);
    var s' := w.s.(issued := w.s.issued + {token}, db := TxClaim(w.s.db, w.s.now, id, token, env.lease));
    var l' := Working(ClaimOf(id, w.s.db.uploads[id], token), LoadCandidates);
    w' := w.(s := s', finalizers := w.finalizers[i := l']);
    assert FinNext(env, w, i, e, w');
  }

  /** Taking a claim writes token and expiry of a waiting row and nothing else; the row is the first of those that wait
      and are not locked elsewhere, by wake-up time and then by id. */
  lemma ClaimWrites(env: Env, s: Shared, l: Finalizer, e: FinEvent, s': Shared, l': Finalizer)
    requires UploadsInv(s.db, s.now) && FinStep(env, s, l, e, s', l') && e.TakeClaim?
    ensures e.id in s.db.uploads && Waiting(s.db.uploads[e.id], s.now) && e.token !in s.issued && e.token in s'.issued
    ensures s'.db == if !Applied(e.fate) then s.db
                     else WithUpload(s.db, e.id, s.db.uploads[e.id].(claimToken := Some(e.token),
                                                                     claimExpiresAt := Some(s.now + env.lease)))
    ensures l'.Working? && l'.claim.upload == e.id && l'.claim.token == e.token
    ensures l'.claim.stagingKey == Staging(e.id) && l'.claim.declaredSize == s.db.uploads[e.id].declaredSize
    ensures l'.claim.declaredType == s.db.uploads[e.id].declaredType
    ensures l'.pc == if e.fate.Acked? then LoadCandidates else ConfirmClaim
    ensures forall j | j in s.db.uploads && j !in e.skipped && Waiting(s.db.uploads[j], s.now) ::
              var due, dueJ := s.db.uploads[e.id].reconcileAfter.value, s.db.uploads[j].reconcileAfter.value;
              due <= dueJ && (due == dueJ ==> e.id <= j)
  {
    assert UploadRowOk(e.id, s.db.uploads[e.id]);
    forall j | j in s.db.uploads ensures Waiting(s.db.uploads[j], s.now) <==> ClaimDue(s.db.uploads[j], s.now) {
      assert UploadRowOk(j, s.db.uploads[j]);
    }
  }

  /** A claim is live exactly while its token is stored and its lease runs. */
  lemma LiveIsHoldingTheLease(db: Db, now: Time, id: Uuid, token: Uuid)
    ensures Live(db, now, id, token) <==>
              && id in db.uploads && db.uploads[id].state.Finalizing?
              && db.uploads[id].claimToken == Some(token) && HasLease(db.uploads[id], now)
  {
  }

  /** A renewal moves the expiry of a live claim and nothing else; the worker goes on, or reads back, or stops when the
      claim is lost. */
  lemma RenewalWrites(env: Env, s: Shared, c: Claim, next: Pc, fate: Fate, s': Shared, l': Finalizer)
    requires FinStep(env, s, Working(c, Renew(next)), RenewClaim(fate), s', l')
    ensures !Live(s.db, s.now, c.upload, c.token) ==> s' == s && l' == Idle
    ensures Live(s.db, s.now, c.upload, c.token) ==>
              && l' == Working(c, if fate.Acked? then next else ConfirmRenew(s.now + env.lease, next))
              && s'.db == if !Applied(fate) then s.db
                          else WithUpload(s.db, c.upload,
                                          s.db.uploads[c.upload].(claimExpiresAt := Some(s.now + env.lease)))
  {
  }

  /** What the read after a COMMIT without an answer decides. */
  lemma ConfirmationDecides(env: Env, s: Shared, c: Claim, pc: Pc, s': Shared, l': Finalizer)
    requires FinStep(env, s, Working(c, pc), Confirm, s', l')
    ensures s' == s && (pc.ConfirmClaim? || pc.ConfirmRenew? || pc.ConfirmTrack? || pc.ConfirmTerminal?)
    ensures pc.ConfirmClaim? ==>
              l' == if Live(s.db, s.now, c.upload, c.token) then Working(c, LoadCandidates) else Idle
    ensures pc.ConfirmRenew? ==>
              (l' == Working(c, pc.next) <==>
                 Live(s.db, s.now, c.upload, c.token) && s.db.uploads[c.upload].claimExpiresAt.value >= pc.expected)
              && (l' == Working(c, pc.next) || l' == Idle)
    ensures pc.ConfirmTrack? ==>
              var id := CandidateId(c.upload, pc.candidate.sha256);
              l' == if id in s.db.candidates && s.db.candidates[id].tracked == pc.candidate
                    then Working(c, Renew(PutCandidate(pc.candidate, pc.body)))
                    else Working(c, ScheduleRetry(Ambiguous))
    ensures pc.ConfirmTerminal? ==> l' == Idle || (l'.Working? && l'.claim == c && l'.pc.ScheduleRetry?)
    ensures pc.ConfirmTerminal? && pc.commit.CommitReady? ==>
              (l' == Idle <==> && c.upload in s.db.uploads && s.db.uploads[c.upload].state.Ready?
                               && s.db.uploads[c.upload].finalKey == Some(pc.commit.candidate.objectKey))
    ensures pc.ConfirmTerminal? && pc.commit.CommitReject? ==>
              (l' == Idle <==> && c.upload in s.db.uploads && s.db.uploads[c.upload].state.Rejected?
                               && s.db.uploads[c.upload].rejectionReason == Some(pc.commit.failure.reason))
  {
    match pc case _ =>
  }

  /** The read after a missing-staging expiry without an answer finds what that commit stored, and only an expiry of
      this kind. */
  lemma MissingConfirmationDecides(env: Env, s: Shared, c: Claim, all: seq<TrackedCandidate>, h: Time, s': Shared,
                                   l': Finalizer)
    requires DbInv(s.db, s.now)
    requires FinStep(env, s, Working(c, ConfirmTerminal(CommitExpire(all, h))), Confirm, s', l')
    ensures l' == Idle <==>
              && c.upload in s.db.uploads && s.db.uploads[c.upload].state.Expired?
              && s.db.uploads[c.upload].expiryReason == Some(StagingMissingAfterWriteWindow)
              && s.db.uploads[c.upload].horizon == h && |CandidateList(s.db, c.upload)| == |all|
  {
    if c.upload in s.db.uploads && Terminal(s.db.uploads[c.upload].state) {
      ClosedDuties(s.db, s.now, c.upload);
    }
  }

  lemma ClosedDuties(db: Db, now: Time, id: Uuid)
    requires DbInv(db, now) && id in db.uploads && Terminal(db.uploads[id].state)
    ensures UploadRowOk(id, db.uploads[id])
    ensures db.uploads[id].finalKey.None? ==>
              && Staging(id) in db.tombstones && db.tombstones[Staging(id)].upload == id
              && db.tombstones[Staging(id)].candidateSha == None
              && db.tombstones[Staging(id)].deleteNotBefore == db.uploads[id].horizon
              && forall d | d in db.candidates && d.upload == id ::
                   && Media(d) in db.tombstones && db.tombstones[Media(d)].upload == id
                   && db.tombstones[Media(d)].candidateSha == Some(d.sha256)
  {
    if db.uploads[id].finalKey.None? {
      assert Retired(db, Staging(id)) && TombstoneInv(db, now, Staging(id));
      forall d | d in db.candidates && d.upload == id
        ensures Media(d) in db.tombstones && db.tombstones[Media(d)].upload == id
                && db.tombstones[Media(d)].candidateSha == Some(d.sha256)
      {
        assert Retired(db, Media(d)) && TombstoneInv(db, now, Media(d));
      }
    }
  }

  // -------------------------------------------------------------------- reads

  /** A staging object that is read: either it meets the policy and the worker goes on to track exactly its bytes,
      or the worker goes on to reject the upload for the defect the object has. */
  lemma StagingIsJudged(env: Env, worlds: seq<World>, events: seq<Event>, n: nat, i: nat)
    requires Run(env, worlds, events) && n < |events| && events[n].Fin? && events[n].i == i
    requires events[n].fin.Get? && events[n].fin.outcome.Got?
    requires i in worlds[n].finalizers && worlds[n].finalizers[i].Working? && worlds[n].finalizers[i].pc.CaptureStaging?
    ensures var s, id := worlds[n].s, worlds[n].finalizers[i].claim.upload;
            id in s.db.uploads && Staging(id) in s.objects
    ensures i in worlds[n + 1].finalizers && worlds[n + 1].finalizers[i].Working?
    ensures worlds[n + 1].finalizers[i].claim == worlds[n].finalizers[i].claim
    ensures var s, id, pc := worlds[n].s, worlds[n].finalizers[i].claim.upload, worlds[n + 1].finalizers[i].pc;
            var u, b := s.db.uploads[id], s.objects[Staging(id)];
            if MeetsPolicy(env, b, u.declaredSize, u.declaredType) then
              && pc.Track? && pc.body == b && Describes(env, id, pc.candidate, b)
            else
              pc.CommitReject? && Blames(env, b, u.declaredSize, u.declaredType, pc.failure)
  {
    FinInvAt(env, worlds, events, n, i);
    FinalizersMoveAt(env, worlds, events, n);
    JudgedAt(env, worlds[n].s, worlds[n].finalizers[i].claim, worlds[n].finalizers[i].pc, events[n].fin.outcome,
             worlds[n + 1].s, worlds[n + 1].finalizers[i]);
  }

  /** The candidate that is tracked for an accepted object. */
  predicate Describes(env: Env, id: Uuid, t: TrackedCandidate, b: Bytes) {
    && t.sha256 == env.sha256(b) && t.objectKey == Media(CandidateId(id, t.sha256)) && t.encodedSize == |b|
    && t.policyVersion == 1 && env.decodeConfig(b) == Some(ImageConfig(t.format, t.width, t.height))
  }

  lemma JudgedAt(env: Env, s: Shared, c: Claim, pc: Pc, outcome: GetOutcome, s': Shared, l': Finalizer)
    requires FinStep(env, s, Working(c, pc), Get(outcome), s', l') && pc.CaptureStaging? && outcome.Got?
    ensures c.stagingKey in s.objects && l'.Working? && l'.claim == c
    ensures var b := s.objects[c.stagingKey];
            if MeetsPolicy(env, b, c.declaredSize, c.declaredType) then
              && l'.pc.Track? && l'.pc.body == b && Describes(env, c.upload, l'.pc.candidate, b)
            else
              l'.pc.CommitReject? && Blames(env, b, c.declaredSize, c.declaredType, l'.pc.failure)
  {
    var b := s.objects[c.stagingKey];
    RefusalsBlameTheDefect(env, b, outcome.lengthKnown, c.declaredSize, c.declaredType);
    VerdictMatchesPolicy(env, HonestSnapshot(b, outcome.lengthKnown, MAX_UPLOAD_BYTES), c.declaredSize, c.declaredType);
    CaptureThenValidate(env, b, outcome.lengthKnown, c.declaredSize, c.declaredType);
  }

  /** A candidate object that is read is published exactly when it has the tracked size and digest, and otherwise the
      upload is rejected for a broken candidate. */
  lemma CandidateIsCompared(env: Env, s: Shared, c: Claim, pc: Pc, t: TrackedCandidate, known: bool, s': Shared,
                            l': Finalizer)
    requires FinStep(env, s, Working(c, pc), Get(Got(known)), s', l')
    requires pc == VerifyPublished(t) || (pc.VerifyTracked? && pc.at < |pc.all| && pc.all[pc.at] == t)
    requires CandidateRowOk(CandidateId(c.upload, t.sha256), t)
    ensures s' == s && t.objectKey in s.objects && l'.Working? && l'.claim == c
    ensures if |s.objects[t.objectKey]| == t.encodedSize && env.sha256(s.objects[t.objectKey]) == t.sha256
            then l'.pc == CommitReady(t)
            else && l'.pc.CommitReject? && l'.pc.failure.kind.InternalInvariant?
                 && l'.pc.failure.reason.CandidateIntegrityMismatch? && l'.pc.failure.phase.CandidateVerify?
  {
    var b := s.objects[t.objectKey];
    if |b| <= MAX_UPLOAD_BYTES {
      assert Content(HonestSnapshot(b, known, MAX_UPLOAD_BYTES)) == b;
    }
  }

  /** In a run the comparison never fails: a worker that finds a candidate object goes on to publish it. */
  lemma CandidatesAreIntact(env: Env, worlds: seq<World>, events: seq<Event>, n: nat, i: nat, t: TrackedCandidate,
                            known: bool)
    requires Run(env, worlds, events) && n < |events| && events[n] == Fin(i, Get(Got(known)))
    requires i in worlds[n].finalizers && worlds[n].finalizers[i].Working?
    requires var pc := worlds[n].finalizers[i].pc;
             pc == VerifyPublished(t) || (pc.VerifyTracked? && pc.at < |pc.all| && pc.all[pc.at] == t)
    ensures i in worlds[n + 1].finalizers
    ensures worlds[n + 1].finalizers[i] == Working(worlds[n].finalizers[i].claim, CommitReady(t))
  {
    IntactAt(env, worlds, events, n, i, t);
    FinalizersMoveAt(env, worlds, events, n);
    var l := worlds[n].finalizers[i];
    CandidateIsCompared(env, worlds[n].s, l.claim, l.pc, t, known, worlds[n + 1].s, worlds[n + 1].finalizers[i]);
  }

  lemma IntactAt(env: Env, worlds: seq<World>, events: seq<Event>, n: nat, i: nat, t: TrackedCandidate)
    requires Run(env, worlds, events) && n < |worlds| && i in worlds[n].finalizers && worlds[n].finalizers[i].Working?
    requires var pc := worlds[n].finalizers[i].pc;
             pc == VerifyPublished(t) || (pc.VerifyTracked? && pc.at < |pc.all| && pc.all[pc.at] == t)
    ensures CandidateRowOk(CandidateId(worlds[n].finalizers[i].claim.upload, t.sha256), t)
    ensures t.objectKey in worlds[n].s.objects ==>
              && |worlds[n].s.objects[t.objectKey]| == t.encodedSize
              && env.sha256(worlds[n].s.objects[t.objectKey]) == t.sha256
  {
    FinInvAt(env, worlds, events, n, i);
    StorageAt(env, worlds, events, n);
    TrackedBytes(env, worlds[n].s, worlds[n].finalizers[i].claim.upload, t);
  }

  lemma StorageAt(env: Env, worlds: seq<World>, events: seq<Event>, n: nat)
    requires Run(env, worlds, events) && n < |worlds|
    ensures CandidatesInv(worlds[n].s.db) && StorageInv(env, worlds[n].s)
  {
    RunKeeps(env, worlds, events, n);
  }

  lemma TrackedBytes(env: Env, s: Shared, id: Uuid, t: TrackedCandidate)
    requires CandidatesInv(s.db) && StorageInv(env, s) && TrackedRow(s.db, id, t)
    ensures CandidateRowOk(CandidateId(id, t.sha256), t)
    ensures t.objectKey in s.objects ==>
              |s.objects[t.objectKey]| == t.encodedSize && env.sha256(s.objects[t.objectKey]) == t.sha256
  {
    assert CandidateInv(s.db, CandidateId(id, t.sha256));
    if t.objectKey in s.objects {
      assert Accounted(env, s.db, t.objectKey, s.objects[t.objectKey]);
    }
  }

  // ------------------------------------------------------------------- writes

  /** Registration: the row is stored as given, or is already there as given; another row under the digest rejects the
      upload; a lost claim ends the call. */
  lemma RegistrationWrites(env: Env, s: Shared, c: Claim, t: TrackedCandidate, b: Bytes, fate: Fate, s': Shared,
                           l': Finalizer)
    requires FinStep(env, s, Working(c, Track(t, b)), Register(fate), s', l')
    ensures var id := CandidateId(c.upload, t.sha256);
            if !Live(s.db, s.now, c.upload, c.token) then s' == s && l' == Idle
            else if id in s.db.candidates && s.db.candidates[id].tracked != t then
              && s' == s && l'.Working? && l'.claim == c && l'.pc.CommitReject?
              && l'.pc.failure.kind.InternalInvariant? && l'.pc.failure.reason.DecoderInvariantMismatch?
              && l'.pc.failure.phase.Decode?
            else
              && s'.db == (if id in s.db.candidates || !Applied(fate) then s.db
                           else s.db.(candidates := s.db.candidates[id := CandidateRow(t, s.now)]))
              && l' == Working(c, match fate
                                  case Acked => Renew(PutCandidate(t, b))
                                  case Lost(_) => ConfirmTrack(t, b)
                                  case RolledBack => Track(t, b))
  {
  }

  /** The columns a terminal commit writes. */
  predicate Closed(u: Upload, v: Upload, now: Time, state: State) {
    && v.state == state && v.terminalAt == Some(now)
    && v.reconcileAfter.None? && v.claimToken.None? && v.claimExpiresAt.None?
    && SameIdentity(u, v) && v.horizon == u.horizon && v.completionRequestedAt == u.completionRequestedAt
    && v.failureStreak == u.failureStreak
    && v.lastFailureClass == u.lastFailureClass && v.lastFailureAt == u.lastFailureAt
  }

  predicate Unrejected(v: Upload) {
    && v.rejectionClass.None? && v.rejectionReason.None? && v.rejectionPolicy.None? && v.rejectionPhase.None?
    && v.rejectionEvidence.None?
  }

  /** What the row says after the commit `pc`. */
  predicate ClosedBy(u: Upload, v: Upload, now: Time, pc: Pc) {
    match pc
    case CommitReady(t) =>
      Closed(u, v, now, Ready) && v.finalKey == Some(t.objectKey) && Unrejected(v) && v.expiryReason.None?
    case CommitReject(f) =>
      && Closed(u, v, now, Rejected) && v.finalKey.None? && v.expiryReason.None?
      && v.rejectionClass == Some(f.kind) && v.rejectionReason == Some(f.reason) && v.rejectionPolicy == Some(1)
      && v.rejectionPhase == Some(f.phase) && v.rejectionEvidence == Some(f.evidence)
    case CommitExpire(_, _) =>
      && Closed(u, v, now, Expired) && v.finalKey.None? && Unrejected(v)
      && v.expiryReason == Some(StagingMissingAfterWriteWindow)
    case _ => false
  }

  /** A terminal commit in a run. Under a live claim the applied commit closes the row; without one nothing is
      written. */
  lemma TerminalCommitWrites(env: Env, worlds: seq<World>, events: seq<Event>, n: nat, i: nat)
    requires Run(env, worlds, events) && n < |events| && events[n].Fin? && events[n].i == i && events[n].fin.Commit?
    requires i in worlds[n].finalizers && worlds[n].finalizers[i].Working?
    ensures i in worlds[n + 1].finalizers
    ensures var s, c, pc := worlds[n].s, worlds[n].finalizers[i].claim, worlds[n].finalizers[i].pc;
            var fate, s', l' := events[n].fin.fate, worlds[n + 1].s, worlds[n + 1].finalizers[i];
            if Live(s.db, s.now, c.upload, c.token) then
              && (Applied(fate) ==> c.upload in s'.db.uploads
                                    && ClosedBy(s.db.uploads[c.upload], s'.db.uploads[c.upload], s.now, pc))
              && (!Applied(fate) ==> s'.db == s.db)
              && l' == (match fate
                        case Acked => Idle
                        case Lost(_) => Working(c, ConfirmTerminal(pc))
                        case RolledBack => Working(c, pc))
            else s'.db == s.db && l' == if pc.CommitExpire? then Working(c, ScheduleRetry(Transient)) else Idle
  {
    CommitAt(env, worlds, events, n, i);
    FinalizersMoveAt(env, worlds, events, n);
    var l := worlds[n].finalizers[i];
    CommitWrites(env, worlds[n].s, l.claim, l.pc, events[n].fin.fate, worlds[n + 1].s, worlds[n + 1].finalizers[i]);
  }

  /** A live commit goes through, and its row holds no outcome yet. */
  predicate CanClose(s: Shared, c: Claim, pc: Pc) {
    Live(s.db, s.now, c.upload, c.token) && (pc.CommitReady? || pc.CommitReject? || pc.CommitExpire?) ==>
      && TxTerminal(s, c, pc).Changed? && Unrejected(s.db.uploads[c.upload])
      && s.db.uploads[c.upload].finalKey.None? && s.db.uploads[c.upload].expiryReason.None?
  }

  lemma LiveCommits(env: Env, s: Shared, c: Claim, pc: Pc)
    requires SharedInv(env, s) && ClaimInv(s, c) && PcInv(env, s, c, pc)
    ensures CanClose(s, c, pc)
  {
    if Live(s.db, s.now, c.upload, c.token) && (pc.CommitReady? || pc.CommitReject? || pc.CommitExpire?) {
      LiveTerminalChanges(env, s, c, pc);
      OpenRow(s.db, s.now, c.upload);
    }
  }

  lemma CommitWrites(env: Env, s: Shared, c: Claim, pc: Pc, fate: Fate, s': Shared, l': Finalizer)
    requires FinStep(env, s, Working(c, pc), Commit(fate), s', l') && CanClose(s, c, pc)
    ensures if Live(s.db, s.now, c.upload, c.token) then
              && (Applied(fate) ==> c.upload in s'.db.uploads
                                    && ClosedBy(s.db.uploads[c.upload], s'.db.uploads[c.upload], s.now, pc))
              && (!Applied(fate) ==> s'.db == s.db)
              && l' == (match fate
                        case Acked => Idle
                        case Lost(_) => Working(c, ConfirmTerminal(pc))
                        case RolledBack => Working(c, pc))
            else s'.db == s.db && l' == if pc.CommitExpire? then Working(c, ScheduleRetry(Transient)) else Idle
  {
    if Live(s.db, s.now, c.upload, c.token) {
      CommitCloses(s, c, pc);
    }
  }

  lemma CommitAt(env: Env, worlds: seq<World>, events: seq<Event>, n: nat, i: nat)
    requires Run(env, worlds, events) && n < |worlds| && i in worlds[n].finalizers && worlds[n].finalizers[i].Working?
    ensures CanClose(worlds[n].s, worlds[n].finalizers[i].claim, worlds[n].finalizers[i].pc)
  {
    RunKeeps(env, worlds, events, n);
    assert FinInv(env, worlds[n].s, worlds[n].finalizers[i]);
    LiveCommits(env, worlds[n].s, worlds[n].finalizers[i].claim, worlds[n].finalizers[i].pc);
  }

  lemma CommitCloses(s: Shared, c: Claim, pc: Pc)
    requires pc.CommitReady? || pc.CommitReject? || pc.CommitExpire?
    requires Live(s.db, s.now, c.upload, c.token) && TxTerminal(s, c, pc).Changed?
    requires var u := s.db.uploads[c.upload]; Unrejected(u) && u.finalKey.None? && u.expiryReason.None?
    ensures c.upload in TxTerminal(s, c, pc).db.uploads
    ensures ClosedBy(s.db.uploads[c.upload], TxTerminal(s, c, pc).db.uploads[c.upload], s.now, pc)
  {
  }

  lemma OpenRow(db: Db, now: Time, id: Uuid)
    requires UploadsInv(db, now) && id in db.uploads && db.uploads[id].state.Finalizing?
    ensures Unrejected(db.uploads[id]) && db.uploads[id].finalKey.None? && db.uploads[id].expiryReason.None?
  {
    assert UploadRowOk(id, db.uploads[id]);
  }

  /** A retry under a live claim releases the row, counts the failure and records its class and time; the next
      attempt is due after a doubling wait of seconds, or a minute when the error will not go away. */
  lemma RetryWrites(env: Env, s: Shared, c: Claim, kind: ErrorClass, fate: Fate, s': Shared, l': Finalizer)
    requires UploadsInv(s.db, s.now)
    requires FinStep(env, s, Working(c, ScheduleRetry(kind)), Reschedule(fate), s', l')
    ensures l' == Idle
    ensures !Live(s.db, s.now, c.upload, c.token) || !Applied(fate) ==> s' == s
    ensures Live(s.db, s.now, c.upload, c.token) && Applied(fate) ==>
              var u := s.db.uploads[c.upload];
              && u.failureStreak >= 0
              && var wait := if kind.Transient? || kind.Ambiguous? then SECOND * Min(Pow2(u.failureStreak), 60)
                  else MINUTE;
                 s'.db == WithUpload(s.db, c.upload, u.(
                   reconcileAfter := Some(s.now + wait),
                   failureStreak := u.failureStreak + 1,
                   lastFailureClass := Some(kind),
                   lastFailureAt := Some(s.now),
                   claimToken := None,
                   claimExpiresAt := None))
  {
    if Live(s.db, s.now, c.upload, c.token) {
      assert UploadRowOk(c.upload, s.db.uploads[c.upload]);
      DelaysAreClippedPowers(s.db.uploads[c.upload].failureStreak + 1, kind);
    }
  }
}
