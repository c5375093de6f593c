/** The whole system as a state machine: the tables, the object store, every request in flight and every
    actor's program counter. An actor takes one database transaction or one storage request at a time, so
    every gap between two of them is an interleaving point. */
module World {
  import opened Types
  import opened Transactions
  import opened Validation

  // ------------------------------------------------------------ shared state

  datatype Put = Put(key: Key, body: Bytes)
  datatype Capability = Capability(upload: Uuid, expiresAt: Time)

  /** `puts` and `deletes` only grow: a request that was ever sent may land at any later time, any number of times.
      `issued` holds every generated upload id, claim token and reservation token. */
  datatype Shared = Shared(
    now: Time,
    db: Db,
    objects: map<Key, Bytes>,
    puts: set<Put>,
    deletes: set<Key>,
    caps: set<Capability>,
    issued: set<Uuid>)

  // --------------------------------------------------------------- finalizers

  datatype Claim = Claim(
    upload: Uuid,
    stagingKey: Key,
    declaredSize: int,
    declaredType: ContentType,
    token: Uuid)

  function ClaimOf(id: Uuid, u: Upload, token: Uuid): Claim {
    Claim(id, u.stagingKey, u.declaredSize, u.declaredType, token)
  }

  /** Where processNext stands. Renew(next) is about to renew the claim and go on to `next`. */
  datatype Pc =
    | ConfirmClaim
    | LoadCandidates
    | Renew(next: Pc)
    | ConfirmRenew(expected: Time, next: Pc)
    | VerifyTracked(all: seq<TrackedCandidate>, at: nat)
    | Prepare(all: seq<TrackedCandidate>)
    | CaptureStaging(all: seq<TrackedCandidate>, horizon: Time, eligible: bool)
    | Track(candidate: TrackedCandidate, body: Bytes)
    | ConfirmTrack(candidate: TrackedCandidate, body: Bytes)
    | PutCandidate(candidate: TrackedCandidate, body: Bytes)
    | VerifyPublished(candidate: TrackedCandidate)
    | CommitReady(candidate: TrackedCandidate)
    | CommitReject(failure: Failure)
    | CommitExpire(all: seq<TrackedCandidate>, horizon: Time)
    | ConfirmTerminal(commit: Pc)
    | ScheduleRetry(kind: ErrorClass)

  datatype Finalizer = Idle | Working(claim: Claim, pc: Pc)

  datatype GetOutcome = Missing | GetError(kind: ErrorClass) | Got(lengthKnown: bool)

  datatype FinEvent =
    | TakeClaim(id: Uuid, token: Uuid, skipped: set<Uuid>, fate: Fate)
    | Confirm
    | Load
    | RenewClaim(fate: Fate)
    | Observe
    | Get(outcome: GetOutcome)
    | Register(fate: Fate)
    | SendPut(stored: bool)
    | Commit(fate: Fate)
    | Reschedule(fate: Fate)
    | Fail(kind: ErrorClass)
    | Crash

  /** The object store answers a GET from the object it holds. */
  predicate Answers(s: Shared, k: Key, outcome: GetOutcome) {
    && (outcome.Missing? ==> k !in s.objects)
    && (outcome.Got? ==> k in s.objects)
  }

  function Reply(s: Shared, k: Key, outcome: GetOutcome): Snapshot
    requires Answers(s, k, outcome) && outcome.Got?
  {
    HonestSnapshot(s.objects[k], outcome.lengthKnown, MAX_UPLOAD_BYTES)
  }

  /** The loop over tracked candidates, at index `at`. */
  function Scan(all: seq<TrackedCandidate>, at: nat): Pc {
    if at < |all| then Renew(VerifyTracked(all, at)) else Renew(Prepare(all))
  }

  function WithDb(s: Shared, db: Db): Shared {
    s.(db := db)
  }

  function TxTerminal(s: Shared, c: Claim, pc: Pc): Outcome
    requires pc.CommitReady? || pc.CommitReject? || pc.CommitExpire?
  {
    match pc
    case CommitReady(t) => TxReady(s.db, s.now, c.upload, c.token, t)
    case CommitReject(f) => TxReject(s.db, s.now, c.upload, c.token, f)
    case CommitExpire(all, horizon) => TxExpireMissing(s.db, s.now, c.upload, c.token, horizon, all)
  }

  /** confirmReady, confirmRejected and confirmFinalizeExpiredMissing. */
  predicate Confirmed(s: Shared, c: Claim, commit: Pc) {
    c.upload in s.db.uploads &&
    var u := s.db.uploads[c.upload];
    match commit
    case CommitReady(t) => u.state.Ready? && u.finalKey == Some(t.objectKey)
    case CommitReject(f) => u.state.Rejected? && u.rejectionReason == Some(f.reason)
    case CommitExpire(all, horizon) =>
      && u.state.Expired? && u.expiryReason == Some(StagingMissingAfterWriteWindow)
      && u.completionRequestedAt.Some? && u.horizon == horizon
      && u.terminalAt.Some? && u.terminalAt.value >= u.deadline && u.terminalAt.value >= u.horizon
      && |CandidateList(s.db, c.upload)| == |all|
      && u.stagingKey in s.db.tombstones && s.db.tombstones[u.stagingKey].upload == c.upload
      && s.db.tombstones[u.stagingKey].candidateSha == None && s.db.tombstones[u.stagingKey].deleteNotBefore == horizon
      && forall d | d in s.db.candidates && d.upload == c.upload ::
           && Media(d) in s.db.tombstones && s.db.tombstones[Media(d)].upload == c.upload
           && s.db.tombstones[Media(d)].candidateSha == Some(d.sha256)
    case _ => false
  }

  ghost predicate TakeClaimStep(env: Env, s: Shared, l: Finalizer, id: Uuid, token: Uuid, skipped: set<Uuid>,
                                fate: Fate,
                                s': Shared, l': Finalizer)
  {
    && l.Idle? && token !in s.issued && !fate.RolledBack?
    && NextClaim(s.db, s.now, skipped, id)
    && s' == s.(issued := s.issued + {token},
                db := if Applied(fate) then TxClaim(s.db, s.now, id, token, env.lease) else s.db)
    && l' == Working(ClaimOf(id, s.db.uploads[id], token), if fate.Acked? then LoadCandidates else ConfirmClaim)
  }

  /** The read that follows a COMMIT without an answer; its own failure is event Fail. */
  predicate ConfirmStep(s: Shared, c: Claim, pc: Pc, s': Shared, l': Finalizer) {
    && s' == s
    && match pc {
       case ConfirmClaim =>
         l' == if Live(s.db, s.now, c.upload, c.token) then Working(c, LoadCandidates) else Idle
       case ConfirmRenew(expected, next) =>
         l' == if Live(s.db, s.now, c.upload, c.token) && s.db.uploads[c.upload].claimExpiresAt.value >= expected
               then Working(c, next) else Idle
       case ConfirmTrack(t, b) =>
         l' == if TrackedRow(s.db, c.upload, t)
               then Working(c, Renew(PutCandidate(t, b))) else Working(c, ScheduleRetry(Ambiguous))
       case ConfirmTerminal(commit) =>
         if Confirmed(s, c, commit) then l' == Idle else l'.Working? && l'.claim == c && l'.pc.ScheduleRetry?
       case _ => false
       }
  }

  predicate LoadStep(s: Shared, c: Claim, pc: Pc, s': Shared, l': Finalizer) {
    && pc.LoadCandidates? && s' == s
    && l' == Working(c, Scan(if Live(s.db, s.now, c.upload, c.token) then CandidateList(s.db, c.upload) else [], 0))
  }

  predicate RenewStep(env: Env, s: Shared, c: Claim, pc: Pc, fate: Fate, s': Shared, l': Finalizer) {
    && pc.Renew? && !fate.RolledBack?
    && if !Live(s.db, s.now, c.upload, c.token) then s' == s && l' == Idle
       else
         && s' == (if Applied(fate) then WithDb(s, TxRenew(s.db, s.now, c.upload, c.token, env.lease)) else s)
         && l' == Working(c, if fate.Acked? then pc.next else ConfirmRenew(s.now + env.lease, pc.next))
  }

  /** prepareMissingObservation: nothing is written, so nothing is committed. */
  predicate ObserveStep(s: Shared, c: Claim, pc: Pc, s': Shared, l': Finalizer) {
    && pc.Prepare? && s' == s
    && if !Live(s.db, s.now, c.upload, c.token) then l' == Idle
       else var u := s.db.uploads[c.upload];
            l' == Working(c, CaptureStaging(pc.all, u.horizon, u.deadline <= s.now && u.horizon <= s.now))
  }

  predicate GetStep(env: Env, s: Shared, c: Claim, pc: Pc, outcome: GetOutcome, s': Shared, l': Finalizer) {
    && s' == s
    && match pc {
       case VerifyTracked(all, at) =>
         && at < |all| && Answers(s, all[at].objectKey, outcome)
         && l' == Working(c, match outcome
                             case Missing => Scan(all, at + 1)
                             case GetError(kind) => ScheduleRetry(kind)
                             case Got(_) => Compare(env, all[at], Reply(s, all[at].objectKey, outcome)))
       case CaptureStaging(all, horizon, eligible) =>
         && Answers(s, c.stagingKey, outcome)
         && l' == Working(c, match outcome
                             case Missing => if eligible then CommitExpire(all, horizon) else ScheduleRetry(Transient)
                             case GetError(kind) => ScheduleRetry(kind)
                             case Got(_) => Judge(env, c, Reply(s, c.stagingKey, outcome)))
       case VerifyPublished(t) =>
         && Answers(s, t.objectKey, outcome)
         && match outcome {
            case Got(_) => l' == Working(c, Compare(env, t, Reply(s, t.objectKey, outcome)))
            case _ => l'.Working? && l'.claim == c && l'.pc.ScheduleRetry?
            }
       case _ => false
       }
  }

  function Compare(env: Env, t: TrackedCandidate, snapshot: Snapshot): Pc {
    if CandidateMatches(env, t, snapshot) then CommitReady(t) else CommitReject(CandidateMismatchFailure(snapshot))
  }

  function Judge(env: Env, c: Claim, snapshot: Snapshot): Pc {
    match ValidateImageBytes(env, snapshot, c.declaredSize, c.declaredType)
    case Unreadable => ScheduleRetry(Transient)
    case Refused(f) => CommitReject(f)
    case Accepted(image) => Track(CandidateOf(c.upload, image), image.bytes)
  }

  predicate RegisterStep(s: Shared, c: Claim, pc: Pc, fate: Fate, s': Shared, l': Finalizer) {
    && pc.Track?
    && match TxRegister(s.db, s.now, c.upload, c.token, pc.candidate) {
       case NotActive => s' == s && l' == Idle
       case Mismatch => s' == s && l' == Working(c, CommitReject(RegistrationMismatch))
       case Stored(db) =>
         && s' == (if Applied(fate) then WithDb(s, db) else s)
         && l' == Working(c, match fate
                             case Acked => Renew(PutCandidate(pc.candidate, pc.body))
                             case Lost(_) => ConfirmTrack(pc.candidate, pc.body)
                             case RolledBack => pc)
       }
  }

  predicate SendPutStep(s: Shared, c: Claim, pc: Pc, stored: bool, s': Shared, l': Finalizer) {
    && pc.PutCandidate?
    && s' == s.(puts := s.puts + {Put(pc.candidate.objectKey, pc.body)},
                objects := if stored then s.objects[pc.candidate.objectKey := pc.body] else s.objects)
    && l' == Working(c, Renew(VerifyPublished(pc.candidate)))
  }

  predicate CommitStep(s: Shared, c: Claim, pc: Pc, fate: Fate, s': Shared, l': Finalizer) {
    && (pc.CommitReady? || pc.CommitReject? || pc.CommitExpire?)
    && match TxTerminal(s, c, pc) {
       case Inactive => s' == s && l' == if pc.CommitExpire? then Working(c, ScheduleRetry(Transient)) else Idle
       case Broken(_) => s' == s && l'.Working? && l'.claim == c && l'.pc.ScheduleRetry?
       case Changed(db) =>
         && s' == (if Applied(fate) then WithDb(s, db) else s)
         && l' == match fate {
                  case Acked => Idle
                  case Lost(_) => Working(c, ConfirmTerminal(pc))
                  case RolledBack => Working(c, pc)
                  }
       }
  }

  predicate RescheduleStep(s: Shared, c: Claim, pc: Pc, fate: Fate, s': Shared, l': Finalizer) {
    && pc.ScheduleRetry? && l' == Idle
    && s' == if Live(s.db, s.now, c.upload, c.token) && Applied(fate)
             then WithDb(s, TxRetry(s.db, s.now, c.upload, c.token, pc.kind)) else s
  }

  ghost predicate FinStep(env: Env, s: Shared, l: Finalizer, ev: FinEvent, s': Shared, l': Finalizer) {
    if ev.TakeClaim? then TakeClaimStep(env, s, l, ev.id, ev.token, ev.skipped, ev.fate, s', l')
    else l.Working? &&
         match ev
         case Confirm => ConfirmStep(s, l.claim, l.pc, s', l')
         case Load => LoadStep(s, l.claim, l.pc, s', l')
         case RenewClaim(fate) => RenewStep(env, s, l.claim, l.pc, fate, s', l')
         case Observe => ObserveStep(s, l.claim, l.pc, s', l')
         case Get(outcome) => GetStep(env, s, l.claim, l.pc, outcome, s', l')
         case Register(fate) => RegisterStep(s, l.claim, l.pc, fate, s', l')
         case SendPut(stored) => SendPutStep(s, l.claim, l.pc, stored, s', l')
         case Commit(fate) => CommitStep(s, l.claim, l.pc, fate, s', l')
         case Reschedule(fate) => RescheduleStep(s, l.claim, l.pc, fate, s', l')
         case Fail(kind) =>
           && s' == s
           && l' == if l.pc.ConfirmClaim? || l.pc.ScheduleRetry? then Idle else Working(l.claim, ScheduleRetry(kind))
         case Crash => s' == s && l' == Idle
  }

  // ----------------------------------------------------------------- cleaners

  datatype Cleaner =
    | Resting
    | ConfirmReserve(key: Key, token: Uuid)
    | Deleting(key: Key, token: Uuid)
    | Applying(key: Key, token: Uuid, result: CleanupResult)

  datatype CleanEvent =
    | Reserve(key: Key, token: Uuid, skipped: set<Key>, fate: Fate)
    | ConfirmReservation
    | SendDelete(result: CleanupResult)
    | ApplyResult(fate: Fate)
    | CleanFail

  ghost predicate CleanStep(s: Shared, l: Cleaner, ev: CleanEvent, s': Shared, l': Cleaner) {
    match ev
    case Reserve(k, token, skipped, fate) =>
      && l.Resting? && token !in s.issued && !fate.RolledBack?
      && NextCleanup(s.db, s.now, skipped, k)
      && s' == s.(issued := s.issued + {token}, db := if Applied(fate) then TxReserve(s.db, s.now, k, token) else s.db)
      && l' == if fate.Acked? then Deleting(k, token) else ConfirmReserve(k, token)
    case ConfirmReservation =>
      && l.ConfirmReserve? && s' == s
      && l' == if l.key in s.db.tombstones
                  && s.db.tombstones[l.key].reservationToken == Some(l.token)
                  && s.db.tombstones[l.key].reservationExpiresAt.Some?
                  && s.now < s.db.tombstones[l.key].reservationExpiresAt.value
                  && !(s.db.tombstones[l.key].upload in s.db.uploads
                       && s.db.uploads[s.db.tombstones[l.key].upload].finalKey == Some(l.key))
               then Deleting(l.key, l.token) else Resting
    case SendDelete(result) =>
      && l.Deleting?
      && (result.ConfirmedAbsent? ==> l.key !in s.objects)
      && s' == s.(deletes := s.deletes + {l.key},
                  objects := if result.DeleteSucceeded? then s.objects - {l.key} else s.objects)
      && l' == Applying(l.key, l.token, result)
    case ApplyResult(fate) =>
      && l.Applying? && l' == Resting
      && (var applied := TxApply(s.db, s.now, l.key, l.token, l.result);
          s' == if applied.Some? && Applied(fate) then WithDb(s, applied.value) else s)
    case CleanFail => s' == s && l' == Resting
  }

  // ------------------------------------------------------- create and replay

  /** Create: presign, insert, and either hand out the capability or replay the existing upload. */
  datatype Creator =
    | NoCreate
    | Insert(cmd: Command, id: Uuid, expiresAt: Time)
    | Replay(cmd: Command, id: Uuid, expiresAt: Time)
    | Recover(cmd: Command, id: Uuid, expiresAt: Time, created: bool)
    | HandOut(cmd: Command, id: Uuid, expiresAt: Time, created: bool)

  /** A successful answer to a create call. */
  datatype CreateReturn = CreateReturn(cmd: Command, upload: Uuid, created: bool, capability: Option<Time>)

  datatype CreateEvent =
    | Sign(cmd: Command, id: Uuid, expiresAt: Time)
    | InsertRow(fate: Fate)
    | SignReplay(existing: Uuid, expiresAt: Time)
    | AnswerExisting(existing: Uuid)
    | LockReplay(existing: Uuid, fate: Fate)
    | RecoverRead(existing: Uuid)
    | HandOver
    | CreateFail

  predicate Holds(db: Db, key: Uuid, id: Uuid) {
    id in db.uploads && db.uploads[id].idempotencyKey == key
  }

  /** The clock that signs and the clock of the database are one; signing truncates to the second. */
  predicate SignedNow(s: Shared, expiresAt: Time) {
    s.now + CAPABILITY_LIFE - SECOND < expiresAt <= s.now + CAPABILITY_LIFE
  }

  ghost predicate InsertRowStep(s: Shared, l: Creator, fate: Fate, s': Shared, l': Creator) {
    && l.Insert? && !fate.RolledBack?
    && s.now < l.expiresAt
    && TxInsert(s.db, s.now, l.cmd, l.id, l.expiresAt).Some?
    && s' == (if Applied(fate) then WithDb(s, TxInsert(s.db, s.now, l.cmd, l.id, l.expiresAt).value) else s)
    && l' == if fate.Acked? then HandOut(l.cmd, l.id, l.expiresAt, true) else Recover(l.cmd, l.id, l.expiresAt, true)
  }

  predicate LockReplayStep(s: Shared, l: Creator, existing: Uuid, fate: Fate, s': Shared, l': Creator,
                           ret: Option<CreateReturn>) {
    && l.Replay? && !fate.RolledBack? && Holds(s.db, l.cmd.idempotencyKey, existing)
    && var u := s.db.uploads[existing];
       if !Matches(u, l.cmd) then s' == s && l' == NoCreate && ret == None
       else if existing != l.id || !AcceptsWrites(u, s.now) then
         s' == s && l' == NoCreate && ret == Some(CreateReturn(l.cmd, existing, false, None))
       else
         && s' == (if Applied(fate) then WithDb(s, TxReplay(s.db, existing, l.expiresAt)) else s)
         && l' == (if fate.Acked? then HandOut(l.cmd, existing, l.expiresAt, false)
             else Recover(l.cmd, existing, l.expiresAt, false))
         && ret == None
  }

  predicate RecoverStep(s: Shared, l: Creator, existing: Uuid, s': Shared, l': Creator, ret: Option<CreateReturn>) {
    && l.Recover? && Holds(s.db, l.cmd.idempotencyKey, existing) && l' == NoCreate
    && var u := s.db.uploads[existing];
       var made := l.created && existing == l.id;
       if !Matches(u, l.cmd) then s' == s && ret == None
       else if !AcceptsWrites(u, s.now) then s' == s && ret == Some(CreateReturn(l.cmd, existing, made, None))
       else if existing != l.id || u.horizon < l.expiresAt || l.expiresAt <= s.now then s' == s && ret == None
       else
         && s' == s.(caps := s.caps + {Capability(existing, l.expiresAt)})
         && ret == Some(CreateReturn(l.cmd, existing, made, Some(l.expiresAt)))
  }

  ghost predicate CreateStep(s: Shared, l: Creator, ev: CreateEvent, s': Shared, l': Creator,
                             ret: Option<CreateReturn>) {
    match ev
    case Sign(cmd, id, expiresAt) =>
      && l.NoCreate? && CommandOk(cmd) && id !in s.issued && SignedNow(s, expiresAt)
      && s' == s.(issued := s.issued + {id}) && l' == Insert(cmd, id, expiresAt) && ret == None
    case InsertRow(fate) => InsertRowStep(s, l, fate, s', l') && ret == None
    case SignReplay(existing, expiresAt) =>
      && l.Insert? && Holds(s.db, l.cmd.idempotencyKey, existing)
      && Matches(s.db.uploads[existing], l.cmd) && AcceptsWrites(s.db.uploads[existing], s.now)
      && SignedNow(s, expiresAt)
      && s' == s && l' == Replay(l.cmd, existing, expiresAt) && ret == None
    case AnswerExisting(existing) =>
      && l.Insert? && Holds(s.db, l.cmd.idempotencyKey, existing)
      && Matches(s.db.uploads[existing], l.cmd) && !AcceptsWrites(s.db.uploads[existing], s.now)
      && s' == s && l' == NoCreate && ret == Some(CreateReturn(l.cmd, existing, false, None))
    case LockReplay(existing, fate) => LockReplayStep(s, l, existing, fate, s', l', ret)
    case RecoverRead(existing) => RecoverStep(s, l, existing, s', l', ret)
    case HandOver =>
      && l.HandOut? && s.now < l.expiresAt
      && s' == s.(caps := s.caps + {Capability(l.id, l.expiresAt)}) && l' == NoCreate
      && ret == Some(CreateReturn(l.cmd, l.id, l.created, Some(l.expiresAt)))
    case CreateFail => s' == s && l' == NoCreate && ret == None
  }

  // --------------------------------------------------------------- completion

  /** `dueBy` is the wake-up time a repeated completion tried to store. */
  datatype Completer =
    | NoComplete
    | Attempt(upload: Uuid, second: bool)
    | ReadBack(upload: Uuid, dueBy: Option<Time>, second: bool)

  datatype CompleteReturn = CompleteReturn(upload: Uuid, transition: Option<Transition>)

  datatype CompleteEvent =
    | BeginComplete(upload: Uuid)
    | TryComplete(fate: Fate)
    | ReadOutcome
    | CompleteFail

  /** completionOutcomeIsDurable. */
  predicate OutcomeDurable(u: Upload, dueBy: Option<Time>) {
    match u.state
    case Pending => false
    case Finalizing => dueBy.None? || (u.reconcileAfter.Some? && u.reconcileAfter.value <= dueBy.value)
    case _ => true
  }

  predicate CompleteStep(s: Shared, l: Completer, ev: CompleteEvent, s': Shared, l': Completer,
                         ret: Option<CompleteReturn>) {
    match ev
    case BeginComplete(id) => l.NoComplete? && s' == s && l' == Attempt(id, false) && ret == None
    case TryComplete(fate) =>
      && l.Attempt? && !fate.RolledBack?
      && if l.upload !in s.db.uploads then s' == s && l' == NoComplete && ret == None
         else (match TxComplete(s.db, s.now, l.upload)
               case Settled => s' == s && l' == NoComplete && ret == Some(CompleteReturn(l.upload, None))
               case Failed => s' == s && l' == NoComplete && ret == None
               case Moved(db, transition) =>
                 && s' == (if Applied(fate) then WithDb(s, db) else s)
                 && if fate.Acked? then l' == NoComplete && ret == Some(CompleteReturn(l.upload, transition))
                    else l' == ReadBack(l.upload, if s.db.uploads[l.upload].state.Finalizing? then Some(s.now)
                        else None, l.second)
                         && ret == None)
    case ReadOutcome =>
      && l.ReadBack? && s' == s
      && if l.upload in s.db.uploads && OutcomeDurable(s.db.uploads[l.upload], l.dueBy)
         then l' == NoComplete && ret == Some(CompleteReturn(l.upload, None))
         else l' == (if l.second then NoComplete else Attempt(l.upload, true)) && ret == None
    case CompleteFail => s' == s && l' == NoComplete && ret == None
  }

  // ---------------------------------------------------- environment and sweep

  datatype EnvEvent =
    | Tick(d: nat)
    | ExpirySweep(id: Uuid, applied: bool)
    | ClientPut(cap: Capability, body: Bytes)
    | LandPut(put: Put)
    | LandDelete(key: Key)

  predicate EnvStep(s: Shared, ev: EnvEvent, s': Shared) {
    match ev
    case Tick(d) => s' == s.(now := s.now + d)
    case ExpirySweep(id, applied) =>
      && id in s.db.uploads
      && (match TxExpirePending(s.db, s.now, id)
          case Changed(db) => s' == if applied then WithDb(s, db) else s
          case _ => s' == s)
    case ClientPut(cap, body) =>
      && cap in s.caps && s.now < cap.expiresAt
      && s' == s.(puts := s.puts + {Put(Staging(cap.upload), body)})
    case LandPut(put) => put in s.puts && s' == s.(objects := s.objects[put.key := put.body])
    case LandDelete(k) => k in s.deletes && s' == s.(objects := s.objects - {k})
  }

  // -------------------------------------------------------------------- world

  datatype World = World(
    s: Shared,
    finalizers: map<nat, Finalizer>,
    cleaners: map<nat, Cleaner>,
    creators: map<nat, Creator>,
    completers: map<nat, Completer>,
    created: seq<CreateReturn>,
    completed: seq<CompleteReturn>)

  datatype Event =
    | Fin(i: nat, fin: FinEvent)
    | Clean(i: nat, clean: CleanEvent)
    | Create(i: nat, create: CreateEvent)
    | Complete(i: nat, complete: CompleteEvent)
    | Other(env: EnvEvent)

  function Logged<T>(log: seq<T>, ret: Option<T>): seq<T> {
    if ret.Some? then log + [ret.value] else log
  }

  ghost predicate FinNext(env: Env, w: World, i: nat, ev: FinEvent, w': World) {
    && i in w.finalizers && i in w'.finalizers
    && FinStep(env, w.s, w.finalizers[i], ev, w'.s, w'.finalizers[i])
    && w' == w.(s := w'.s, finalizers := w.finalizers[i := w'.finalizers[i]])
  }

  ghost predicate CleanNext(w: World, i: nat, ev: CleanEvent, w': World) {
    && i in w.cleaners && i in w'.cleaners
    && CleanStep(w.s, w.cleaners[i], ev, w'.s, w'.cleaners[i])
    && w' == w.(s := w'.s, cleaners := w.cleaners[i := w'.cleaners[i]])
  }

  ghost predicate CreateNext(w: World, i: nat, ev: CreateEvent, ret: Option<CreateReturn>, w': World) {
    && i in w.creators && i in w'.creators
    && CreateStep(w.s, w.creators[i], ev, w'.s, w'.creators[i], ret)
    && w' == w.(s := w'.s, creators := w.creators[i := w'.creators[i]], created := Logged(w.created, ret))
  }

  ghost predicate CompleteNext(w: World, i: nat, ev: CompleteEvent, ret: Option<CompleteReturn>, w': World) {
    && i in w.completers && i in w'.completers
    && CompleteStep(w.s, w.completers[i], ev, w'.s, w'.completers[i], ret)
    && w' == w.(s := w'.s, completers := w.completers[i := w'.completers[i]], completed := Logged(w.completed, ret))
  }

  ghost predicate Next(env: Env, w: World, ev: Event, w': World) {
    match ev
    case Fin(i, e) => FinNext(env, w, i, e, w')
    case Clean(i, e) => CleanNext(w, i, e, w')
    case Create(i, e) => exists ret :: CreateNext(w, i, e, ret, w')
    case Complete(i, e) => exists ret :: CompleteNext(w, i, e, ret, w')
    case Other(e) => EnvStep(w.s, e, w'.s) && w' == w.(s := w'.s)
  }

  /** Empty tables, an empty bucket and idle actors: any number of each. */
  ghost predicate Init(w: World) {
    && w.s.db == Db(map[], map[], map[]) && w.s.objects == map[]
    && w.s.puts == {} && w.s.deletes == {} && w.s.caps == {} && w.s.issued == {}
    && (forall i | i in w.finalizers :: w.finalizers[i].Idle?)
    && (forall i | i in w.cleaners :: w.cleaners[i].Resting?)
    && (forall i | i in w.creators :: w.creators[i].NoCreate?)
    && (forall i | i in w.completers :: w.completers[i].NoComplete?)
    && w.created == [] && w.completed == []
  }

  /** An event of one finalizer is one step of its program; every other event leaves all finalizers where they are. */
  lemma FinalizersMove(env: Env, w: World, ev: Event, w': World)
    requires Next(env, w, ev, w')
    ensures if ev.Fin? then
              && ev.i in w.finalizers && ev.i in w'.finalizers
              && FinStep(env, w.s, w.finalizers[ev.i], ev.fin, w'.s, w'.finalizers[ev.i])
              && w'.finalizers == w.finalizers[ev.i := w'.finalizers[ev.i]]
            else w'.finalizers == w.finalizers
  {
  }

  ghost predicate Follows(env: Env, worlds: seq<World>, events: seq<Event>, m: nat)
    requires m < |events| && |worlds| == |events| + 1
  {
    Next(env, worlds[m], events[m], worlds[m + 1])
  }

  /** A run: worlds[m + 1] follows worlds[m] by events[m]. */
  ghost predicate Run(env: Env, worlds: seq<World>, events: seq<Event>) {
    && |worlds| == |events| + 1
    && Init(worlds[0])
    && forall m: nat | m < |events| :: Follows(env, worlds, events, m)
  }

  lemma StepAt(env: Env, worlds: seq<World>, events: seq<Event>, m: nat)
    requires Run(env, worlds, events) && m < |events|
    ensures Next(env, worlds[m], events[m], worlds[m + 1])
  {
    assert Follows(env, worlds, events, m);
  }
}
