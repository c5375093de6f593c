/** Every step of a finalizer keeps the shared invariant and its own facts, and stays within the guarantee. */
module FinalizerProofs {
  import opened Types
  import opened Schema
  import opened Transactions
  import opened Validation
  import opened DbInvariant
  import opened TransactionProofs
  import opened World
  import opened Invariant

  // ------------------------------------------- steps that change no shared state

  lemma ConfirmFacts(env: Env, s: Shared, c: Claim, pc: Pc, l': Finalizer)
    requires ClaimInv(s, c) && PcInv(env, s, c, pc)
    requires ConfirmStep(s, c, pc, s, l')
    ensures FinInv(env, s, l') && (l'.Working? ==> l'.claim == c)
  {
  }

  lemma ScanFacts(env: Env, s: Shared, c: Claim, all: seq<TrackedCandidate>, at: nat)
    requires ClaimInv(s, c) && Loaded(s, c, all)
    ensures PcInv(env, s, c, Scan(all, at))
  {
  }

  lemma LoadFacts(env: Env, s: Shared, c: Claim, pc: Pc, l': Finalizer)
    requires CandidatesInv(s.db) && ClaimInv(s, c)
    requires LoadStep(s, c, pc, s, l')
    ensures FinInv(env, s, l') && (l'.Working? ==> l'.claim == c)
  {
  }

  lemma ObserveFacts(env: Env, s: Shared, c: Claim, pc: Pc, l': Finalizer)
    requires ClaimInv(s, c) && PcInv(env, s, c, pc)
    requires ObserveStep(s, c, pc, s, l')
    ensures FinInv(env, s, l') && (l'.Working? ==> l'.claim == c)
  {
  }

  lemma CompareFacts(env: Env, s: Shared, c: Claim, t: TrackedCandidate, snapshot: Snapshot)
    requires ClaimInv(s, c) && TrackedRow(s.db, c.upload, t) && t.objectKey in s.objects
    ensures PcInv(env, s, c, Compare(env, t, snapshot))
  {
  }

  lemma JudgeFacts(env: Env, s: Shared, c: Claim, data: Bytes, lengthKnown: bool)
    requires ClaimInv(s, c) && UploadRowOk(c.upload, s.db.uploads[c.upload])
    ensures PcInv(env, s, c, Judge(env, c, HonestSnapshot(data, lengthKnown, MAX_UPLOAD_BYTES)))
  {
  }

  lemma GetFacts(env: Env, s: Shared, c: Claim, pc: Pc, outcome: GetOutcome, l': Finalizer)
    requires ClaimInv(s, c) && UploadRowOk(c.upload, s.db.uploads[c.upload]) && PcInv(env, s, c, pc)
    requires GetStep(env, s, c, pc, outcome, s, l')
    ensures FinInv(env, s, l') && (l'.Working? ==> l'.claim == c)
  {
    match pc
    case VerifyTracked(all, at) =>
      assert TrackedRow(s.db, c.upload, all[at]);
      match outcome {
        case Missing => ScanFacts(env, s, c, all, at + 1);
        case Got(_) => CompareFacts(env, s, c, all[at], Reply(s, all[at].objectKey, outcome));
        case _ =>
      }
    case CaptureStaging(all, h, eligible) =>
      if outcome.Got? { JudgeFacts(env, s, c, s.objects[c.stagingKey], outcome.lengthKnown); }
    case VerifyPublished(t) =>
      if outcome.Got? { CompareFacts(env, s, c, t, Reply(s, t.objectKey, outcome)); }
    case _ =>
  }

  // ------------------------------------------------- steps that change the tables

  lemma ClaimIssues(env: Env, s: Shared, id: Uuid, token: Uuid, db: Db, issued: set<Uuid>)
    requires SharedInv(env, s) && id in s.db.uploads && s.db.uploads[id].state.Finalizing?
    requires issued == s.issued + {token}
    requires db == s.db || db == TxClaim(s.db, s.now, id, token, env.lease)
    ensures IssuedInv(s.(db := db, issued := issued))
    ensures forall j | j in db.uploads && db.uploads[j].finalKey.Some? :: db.uploads[j].finalKey.value in s.objects
  {
  }

  lemma TakeClaimKeeps(env: Env, s: Shared, l: Finalizer, id: Uuid, token: Uuid, skipped: set<Uuid>, fate: Fate,
                       s': Shared, l': Finalizer)
    requires SharedInv(env, s) && TakeClaimStep(env, s, l, id, token, skipped, fate, s', l')
    ensures Good(env, s, s', Some(token), None)
  {
    if Applied(fate) {
      ClaimKeeps(s.db, s.now, id, token, env.lease);
    } else {
      NothingHappens(s.db, s.now, Some(token), None);
    }
    ClaimIssues(env, s, id, token, s'.db, s'.issued);
    DbChange(env, s, s'.db, s'.issued, Some(token), None);
  }

  lemma TakeClaimFacts(env: Env, s: Shared, l: Finalizer, id: Uuid, token: Uuid, skipped: set<Uuid>, fate: Fate,
                       s': Shared, l': Finalizer)
    requires UploadsInv(s.db, s.now) && TakeClaimStep(env, s, l, id, token, skipped, fate, s', l')
    ensures FinInv(env, s', l') && l'.Working? && l'.claim.token == token
  {
  }

  /** What the holder of a live claim may write besides its own upload row: candidates and unreserved tombstones. */
  ghost predicate HolderWrites(s: Shared, c: Claim, db: Db) {
    && c.upload in db.uploads
    && (forall id | id in db.uploads && id != c.upload :: id in s.db.uploads && db.uploads[id] == s.db.uploads[id])
    && (forall k | k in db.tombstones && db.tombstones[k].reservationToken.Some? ::
          k in s.db.tombstones && db.tombstones[k] == s.db.tombstones[k])
    && (db.uploads[c.upload].finalKey.Some? ==> db.uploads[c.upload].finalKey.value in s.objects)
  }

  lemma HolderIssues(env: Env, s: Shared, c: Claim, db: Db)
    requires IssuedInv(s) && StorageInv(env, s) && ClaimInv(s, c) && Live(s.db, s.now, c.upload, c.token)
    requires UploadsStep(s.db, s.now, db, Some(c.token), None) && HolderWrites(s, c, db)
    ensures IssuedInv(s.(db := db))
    ensures forall j | j in db.uploads && db.uploads[j].finalKey.Some? :: db.uploads[j].finalKey.value in s.objects
    ensures OnlyHolders(s, s.(db := db), Some(c.token)) && OldReservations(s.db, s.issued, db)
  {
  }

  lemma HolderChange(env: Env, s: Shared, c: Claim, db: Db)
    requires SharedInv(env, s) && ClaimInv(s, c) && Live(s.db, s.now, c.upload, c.token)
    requires DbInv(db, s.now) && DbStep(s.db, s.now, db, Some(c.token), None)
    requires HolderWrites(s, c, db)
    ensures Good(env, s, WithDb(s, db), Some(c.token), None)
  {
    HolderIssues(env, s, c, db);
    DbChange(env, s, db, s.issued, Some(c.token), None);
    assert WithDb(s, db) == s.(db := db, issued := s.issued);
  }

  lemma RenewStepKeeps(env: Env, s: Shared, c: Claim, pc: Pc, fate: Fate, s': Shared, l': Finalizer)
    requires SharedInv(env, s) && ClaimInv(s, c)
    requires RenewStep(env, s, c, pc, fate, s', l')
    ensures Good(env, s, s', Some(c.token), None)
    ensures s'.db.candidates == s.db.candidates
  {
    if Live(s.db, s.now, c.upload, c.token) && Applied(fate) {
      RenewKeeps(s.db, s.now, c.upload, c.token, env.lease);
      assert UploadRowOk(c.upload, s.db.uploads[c.upload]);
      HolderChange(env, s, c, s'.db);
    } else {
      Quiet(env, s, Some(c.token), None);
    }
  }

  lemma RegisterWrites(s: Shared, c: Claim, t: TrackedCandidate)
    requires TxRegister(s.db, s.now, c.upload, c.token, t).Stored? && s.db.uploads[c.upload].finalKey.None?
    ensures HolderWrites(s, c, TxRegister(s.db, s.now, c.upload, c.token, t).db)
  {
  }

  lemma RegisterChange(env: Env, s: Shared, c: Claim, t: TrackedCandidate)
    requires SharedInv(env, s) && ClaimInv(s, c)
    requires CandidateRowOk(CandidateId(c.upload, t.sha256), t) && Agrees(t, s.db.uploads[c.upload])
    requires TxRegister(s.db, s.now, c.upload, c.token, t).Stored?
    ensures Good(env, s, WithDb(s, TxRegister(s.db, s.now, c.upload, c.token, t).db), Some(c.token), None)
  {
    assert UploadRowOk(c.upload, s.db.uploads[c.upload]);
    RegisterKeeps(s.db, s.now, c.upload, c.token, t);
    RegisterWrites(s, c, t);
    HolderChange(env, s, c, TxRegister(s.db, s.now, c.upload, c.token, t).db);
  }

  lemma RegisterStepKeeps(env: Env, s: Shared, c: Claim, pc: Pc, fate: Fate, s': Shared, l': Finalizer)
    requires SharedInv(env, s) && ClaimInv(s, c)
    requires pc.Track? ==> Fits(env, s, c, pc.candidate, pc.body)
    requires RegisterStep(s, c, pc, fate, s', l')
    ensures Good(env, s, s', Some(c.token), None)
  {
    if TxRegister(s.db, s.now, c.upload, c.token, pc.candidate).Stored? && Applied(fate) {
      RegisterChange(env, s, c, pc.candidate);
    } else {
      Quiet(env, s, Some(c.token), None);
    }
  }

  lemma RegisterFacts(env: Env, s: Shared, c: Claim, pc: Pc, fate: Fate, s': Shared, l': Finalizer)
    requires ClaimInv(s, c) && PcInv(env, s, c, pc)
    requires RegisterStep(s, c, pc, fate, s', l') && Guarantee(s, s', Some(c.token), None)
    ensures FinInv(env, s', l') && (l'.Working? ==> l'.claim == c)
  {
    StableClaim(s, s', Some(c.token), None, c);
    StableFits(env, s, s', Some(c.token), None, c, pc.candidate, pc.body);
    assert "policy_version" in RegistrationMismatch.evidence;
    var r := TxRegister(s.db, s.now, c.upload, c.token, pc.candidate);
    if r.Stored? && fate.Acked? {
      assert PcInv(env, s', c, PutCandidate(pc.candidate, pc.body));
    }
  }

  lemma SendPutStores(env: Env, s: Shared, c: Claim, pc: Pc, stored: bool, s': Shared, l': Finalizer)
    requires StorageInv(env, s) && SendPutStep(s, c, pc, stored, s', l')
    requires Fits(env, s, c, pc.candidate, pc.body) && TrackedRow(s.db, c.upload, pc.candidate)
    ensures StorageStep(env, s, s')
  {
  }

  lemma SendPutKeeps(env: Env, s: Shared, c: Claim, pc: Pc, stored: bool, s': Shared, l': Finalizer)
    requires SharedInv(env, s) && SendPutStep(s, c, pc, stored, s', l')
    requires Fits(env, s, c, pc.candidate, pc.body) && TrackedRow(s.db, c.upload, pc.candidate)
    ensures Good(env, s, s', Some(c.token), None)
  {
    SendPutStores(env, s, c, pc, stored, s', l');
    StorageChange(env, s, s', Some(c.token));
  }

  lemma SendPutFacts(env: Env, s: Shared, c: Claim, pc: Pc, stored: bool, s': Shared, l': Finalizer)
    requires ClaimInv(s, c) && PcInv(env, s, c, pc)
    requires SendPutStep(s, c, pc, stored, s', l')
    ensures FinInv(env, s', l') && (l'.Working? ==> l'.claim == c)
  {
  }

  lemma ReadyWrites(s: Shared, c: Claim, t: TrackedCandidate)
    requires Live(s.db, s.now, c.upload, c.token) && TxReady(s.db, s.now, c.upload, c.token, t).Changed?
    requires t.objectKey in s.objects
    ensures HolderWrites(s, c, TxReady(s.db, s.now, c.upload, c.token, t).db)
  {
  }

  lemma RejectWrites(s: Shared, c: Claim, f: Failure)
    requires Live(s.db, s.now, c.upload, c.token) && TxReject(s.db, s.now, c.upload, c.token, f).Changed?
    requires s.db.uploads[c.upload].finalKey.None?
    ensures HolderWrites(s, c, TxReject(s.db, s.now, c.upload, c.token, f).db)
  {
  }

  lemma ExpireWrites(s: Shared, c: Claim, all: seq<TrackedCandidate>, h: Time)
    requires Live(s.db, s.now, c.upload, c.token) && TxExpireMissing(s.db, s.now, c.upload, c.token, h, all).Changed?
    requires s.db.uploads[c.upload].finalKey.None?
    ensures HolderWrites(s, c, TxExpireMissing(s.db, s.now, c.upload, c.token, h, all).db)
  {
  }

  lemma ReadyChange(env: Env, s: Shared, c: Claim, t: TrackedCandidate)
    requires SharedInv(env, s) && ClaimInv(s, c) && TrackedRow(s.db, c.upload, t) && t.objectKey in s.objects
    requires TxReady(s.db, s.now, c.upload, c.token, t).Changed?
    ensures Good(env, s, WithDb(s, TxReady(s.db, s.now, c.upload, c.token, t).db), Some(c.token), None)
  {
    ReadyKeeps(s.db, s.now, c.upload, c.token, t);
    ReadyWrites(s, c, t);
    HolderChange(env, s, c, TxReady(s.db, s.now, c.upload, c.token, t).db);
  }

  lemma RejectChange(env: Env, s: Shared, c: Claim, f: Failure)
    requires SharedInv(env, s) && ClaimInv(s, c) && FailureOk(f)
    requires TxReject(s.db, s.now, c.upload, c.token, f).Changed?
    ensures Good(env, s, WithDb(s, TxReject(s.db, s.now, c.upload, c.token, f).db), Some(c.token), None)
  {
    assert UploadRowOk(c.upload, s.db.uploads[c.upload]);
    RejectKeeps(s.db, s.now, c.upload, c.token, f);
    RejectWrites(s, c, f);
    HolderChange(env, s, c, TxReject(s.db, s.now, c.upload, c.token, f).db);
  }

  lemma ExpireChange(env: Env, s: Shared, c: Claim, all: seq<TrackedCandidate>, h: Time)
    requires SharedInv(env, s) && ClaimInv(s, c)
    requires TxExpireMissing(s.db, s.now, c.upload, c.token, h, all).Changed?
    ensures Good(env, s, WithDb(s, TxExpireMissing(s.db, s.now, c.upload, c.token, h, all).db), Some(c.token), None)
  {
    assert UploadRowOk(c.upload, s.db.uploads[c.upload]);
    ExpireMissingKeeps(s.db, s.now, c.upload, c.token, h, all);
    ExpireWrites(s, c, all, h);
    HolderChange(env, s, c, TxExpireMissing(s.db, s.now, c.upload, c.token, h, all).db);
  }

  lemma TerminalChange(env: Env, s: Shared, c: Claim, pc: Pc)
    requires SharedInv(env, s) && ClaimInv(s, c) && PcInv(env, s, c, pc)
    requires pc.CommitReady? || pc.CommitReject? || pc.CommitExpire?
    requires TxTerminal(s, c, pc).Changed?
    ensures Good(env, s, WithDb(s, TxTerminal(s, c, pc).db), Some(c.token), None)
  {
    match pc
    case CommitReady(t) => ReadyChange(env, s, c, t);
    case CommitReject(f) => RejectChange(env, s, c, f);
    case CommitExpire(all, h) => ExpireChange(env, s, c, all, h);
  }

  lemma LiveTerminalChanges(env: Env, s: Shared, c: Claim, pc: Pc)
    requires SharedInv(env, s) && ClaimInv(s, c) && PcInv(env, s, c, pc)
    requires pc.CommitReady? || pc.CommitReject? || pc.CommitExpire?
    requires Live(s.db, s.now, c.upload, c.token)
    ensures TxTerminal(s, c, pc).Changed?
  {
    match pc
    case CommitReady(t) => ReadyKeeps(s.db, s.now, c.upload, c.token, t);
    case CommitReject(f) => RejectKeeps(s.db, s.now, c.upload, c.token, f);
    case CommitExpire(all, h) => ExpireMissingKeeps(s.db, s.now, c.upload, c.token, h, all);
  }

  lemma CommitStepKeeps(env: Env, s: Shared, c: Claim, pc: Pc, fate: Fate, s': Shared, l': Finalizer)
    requires SharedInv(env, s) && ClaimInv(s, c) && PcInv(env, s, c, pc)
    requires CommitStep(s, c, pc, fate, s', l')
    ensures Good(env, s, s', Some(c.token), None)
  {
    if TxTerminal(s, c, pc).Changed? && Applied(fate) {
      TerminalChange(env, s, c, pc);
    } else {
      Quiet(env, s, Some(c.token), None);
    }
  }

  lemma CommitAddsNoCandidate(s: Shared, c: Claim, pc: Pc, fate: Fate, s': Shared, l': Finalizer)
    requires CommitStep(s, c, pc, fate, s', l')
    ensures s'.db.candidates == s.db.candidates
  {
  }

  lemma RescheduleKeeps(env: Env, s: Shared, c: Claim, pc: Pc, fate: Fate, s': Shared, l': Finalizer)
    requires SharedInv(env, s) && ClaimInv(s, c)
    requires RescheduleStep(s, c, pc, fate, s', l')
    ensures Good(env, s, s', Some(c.token), None)
  {
    if Live(s.db, s.now, c.upload, c.token) && Applied(fate) {
      RetryKeeps(s.db, s.now, c.upload, c.token, pc.kind);
      assert UploadRowOk(c.upload, s.db.uploads[c.upload]);
      HolderChange(env, s, c, s'.db);
    } else {
      Quiet(env, s, Some(c.token), None);
    }
  }

  // ----------------------------------------------------------------- any step

  function TokenOf(l: Finalizer, ev: FinEvent): Option<Uuid> {
    if ev.TakeClaim? then Some(ev.token) else if l.Working? then Some(l.claim.token) else None
  }

  lemma FinStepShared(env: Env, s: Shared, l: Finalizer, ev: FinEvent, s': Shared, l': Finalizer)
    requires SharedInv(env, s) && FinInv(env, s, l) && FinStep(env, s, l, ev, s', l')
    ensures SharedInv(env, s') && Guarantee(s, s', TokenOf(l, ev), None)
  {
    if ev.TakeClaim? {
      TakeClaimKeeps(env, s, l, ev.id, ev.token, ev.skipped, ev.fate, s', l');
    } else if s' == s {
      Quiet(env, s, TokenOf(l, ev), None);
    } else {
      WritingStep(env, s, l.claim, l.pc, ev, s', l');
    }
  }

  lemma WritingStep(env: Env, s: Shared, c: Claim, pc: Pc, ev: FinEvent, s': Shared, l': Finalizer)
    requires SharedInv(env, s) && ClaimInv(s, c) && PcInv(env, s, c, pc)
    requires !ev.TakeClaim? && FinStep(env, s, Working(c, pc), ev, s', l') && s' != s
    ensures Good(env, s, s', Some(c.token), None)
  {
    match ev
    case RenewClaim(fate) => RenewStepKeeps(env, s, c, pc, fate, s', l');
    case Register(fate) => RegisterStepKeeps(env, s, c, pc, fate, s', l');
    case SendPut(stored) => SendPutKeeps(env, s, c, pc, stored, s', l');
    case Commit(fate) => CommitStepKeeps(env, s, c, pc, fate, s', l');
    case Reschedule(fate) => RescheduleKeeps(env, s, c, pc, fate, s', l');
    case _ =>
  }

  lemma FinStepFacts(env: Env, s: Shared, l: Finalizer, ev: FinEvent, s': Shared, l': Finalizer)
    requires SharedInv(env, s) && FinInv(env, s, l) && FinStep(env, s, l, ev, s', l')
    requires Guarantee(s, s', TokenOf(l, ev), None)
    ensures FinInv(env, s', l')
    ensures l'.Working? ==> TokenOf(l, ev) == Some(l'.claim.token)
  {
    if ev.TakeClaim? {
      TakeClaimFacts(env, s, l, ev.id, ev.token, ev.skipped, ev.fate, s', l');
    } else {
      WorkingStepFacts(env, s, l.claim, l.pc, ev, s', l');
    }
  }

  lemma WorkingStepFacts(env: Env, s: Shared, c: Claim, pc: Pc, ev: FinEvent, s': Shared, l': Finalizer)
    requires SharedInv(env, s) && ClaimInv(s, c) && PcInv(env, s, c, pc) && !ev.TakeClaim?
    requires FinStep(env, s, Working(c, pc), ev, s', l')
    requires Guarantee(s, s', Some(c.token), None)
    ensures FinInv(env, s', l') && (l'.Working? ==> l'.claim == c)
  {
    StableClaim(s, s', Some(c.token), None, c);
    match ev
    case RenewClaim(fate) => RenewFacts(env, s, c, pc, fate, s', l');
    case Register(fate) => RegisterFacts(env, s, c, pc, fate, s', l');
    case SendPut(stored) => SendPutFacts(env, s, c, pc, stored, s', l');
    case Commit(fate) => CommitFacts(env, s, c, pc, fate, s', l');
    case Reschedule(_) =>
    case _ => ReadingStepFacts(env, s, c, pc, ev, s', l');
  }

  lemma RenewFacts(env: Env, s: Shared, c: Claim, pc: Pc, fate: Fate, s': Shared, l': Finalizer)
    requires SharedInv(env, s) && ClaimInv(s, c) && ClaimInv(s', c) && PcInv(env, s, c, pc)
    requires RenewStep(env, s, c, pc, fate, s', l') && Guarantee(s, s', Some(c.token), None)
    ensures FinInv(env, s', l') && (l'.Working? ==> l'.claim == c)
  {
    RenewStepKeeps(env, s, c, pc, fate, s', l');
    StablePc(env, s, s', Some(c.token), None, c, pc.next);
  }

  lemma CommitFacts(env: Env, s: Shared, c: Claim, pc: Pc, fate: Fate, s': Shared, l': Finalizer)
    requires SharedInv(env, s) && ClaimInv(s, c) && ClaimInv(s', c) && PcInv(env, s, c, pc)
    requires CommitStep(s, c, pc, fate, s', l') && Guarantee(s, s', Some(c.token), None)
    ensures FinInv(env, s', l') && (l'.Working? ==> l'.claim == c)
  {
    CommitAddsNoCandidate(s, c, pc, fate, s', l');
    StablePc(env, s, s', Some(c.token), None, c, pc);
  }

  lemma ReadingStepFacts(env: Env, s: Shared, c: Claim, pc: Pc, ev: FinEvent, s': Shared, l': Finalizer)
    requires SharedInv(env, s) && ClaimInv(s, c) && PcInv(env, s, c, pc)
    requires ev.Confirm? || ev.Load? || ev.Observe? || ev.Get? || ev.Fail? || ev.Crash?
    requires FinStep(env, s, Working(c, pc), ev, s', l')
    ensures s' == s && FinInv(env, s, l') && (l'.Working? ==> l'.claim == c)
  {
    match ev
    case Confirm => ConfirmFacts(env, s, c, pc, l');
    case Load => LoadFacts(env, s, c, pc, l');
    case Observe => ObserveFacts(env, s, c, pc, l');
    case Get(outcome) => GetFacts(env, s, c, pc, outcome, l');
    case _ =>
  }

  lemma FinStepKeeps(env: Env, s: Shared, l: Finalizer, ev: FinEvent, s': Shared, l': Finalizer)
    requires SharedInv(env, s) && FinInv(env, s, l) && FinStep(env, s, l, ev, s', l')
    ensures SharedInv(env, s') && Guarantee(s, s', TokenOf(l, ev), None) && FinInv(env, s', l')
    ensures l'.Working? ==> TokenOf(l, ev) == Some(l'.claim.token)
  {
    FinStepShared(env, s, l, ev, s', l');
    FinStepFacts(env, s, l, ev, s', l');
  }
}
