/** processNext as the program it is: calls in sequence, a loop over the tracked candidates, a claim renewed in place.
    Between any two of its calls everybody else may do anything. Every execution is a path of the finalizer's part of
    the state machine, so what is proved of the machine holds of the program. */
module FinalizerProgram {
  import opened Types
  import opened Transactions
  import opened Validation
  import opened World
  import opened Programs

  const ATTEMPTS: nat := 2

  type FinPath = Trail<Finalizer, FinEvent>

  function FinStage(p: FinPath): Finalizer {
    if p.Start? then Idle else p.step.next
  }

  /** How many attempts at the transaction the worker stands at were rolled back. */
  function TurnedBack(p: FinPath): nat {
    if p.Then? && (p.step.ev.Commit? || p.step.ev.Register?) && p.step.at == p.step.next
        then 1 + TurnedBack(p.path) else 0
  }

  /** How many times the path tried a terminal commit. */
  ghost function Commits(p: FinPath): nat {
    if p.Start? then 0 else Commits(p.path) + if p.step.ev.Commit? then 1 else 0
  }

  /** The read of one object, as the oracle and the bucket answer it. */
  function Answer(o: Oracle, n: nat, met: Shared, k: Key): (outcome: GetOutcome)
    ensures Answers(met, k, outcome)
  {
    if o.storageError(n).Some? then GetError(o.storageError(n).value)
    else if k in met.objects then Got(o.lengthKnown(n)) else Missing
  }

  /** The call to the object store that the program makes at this stage. */
  function StorageCall(o: Oracle, n: nat, met: Shared, c: Claim, pc: Pc): Option<FinEvent> {
    match pc
    case VerifyTracked(all, at) => if at < |all| then Some(Get(Answer(o, n, met, all[at].objectKey))) else None
    case CaptureStaging(_, _, _) => Some(Get(Answer(o, n, met, c.stagingKey)))
    case VerifyPublished(t) => Some(Get(Answer(o, n, met, t.objectKey)))
    case PutCandidate(_, _) => Some(SendPut(o.putStored(n)))
    case _ => None
  }

  /** The call to the database that it makes there, when the database answers. */
  function DatabaseCall(o: Oracle, n: nat, pc: Pc): FinEvent {
    match pc
    case LoadCandidates => Load
    case Renew(_) => RenewClaim(Unsorted(o, n))
    case Prepare(_) => Observe
    case Track(_, _) => Register(o.commit(n))
    case ScheduleRetry(_) => Reschedule(o.commit(n))
    case CommitReady(_) => Commit(o.commit(n))
    case CommitReject(_) => Commit(o.commit(n))
    case CommitExpire(_, _) => Commit(o.commit(n))
    case _ => Confirm
  }

  /** The one event that can follow p when the next call meets the state `met`: a worker at work never stops of itself,
      gives up a transaction only after two refusals, and fails only when the database does. */
  predicate FinPrompted(o: Oracle, token: Uuid, p: FinPath, met: Shared, ev: FinEvent) {
    var n := Length(p);
    match FinStage(p)
    case Idle => ev.TakeClaim? && ev.token == token && ev.fate == Unsorted(o, n) && o.databaseError(n).None?
    case Working(c, pc) =>
      if StorageCall(o, n, met, c, pc).Some? then Some(ev) == StorageCall(o, n, met, c, pc)
      else if o.databaseError(n).Some? then ev == Fail(o.databaseError(n).value)
      else if TurnedBack(p) >= ATTEMPTS then ev == Fail(o.unknownAs(n))
      else ev == DatabaseCall(o, n, pc)
  }

  /** Each step is one of the machine's, taken where the previous one ended, after some interference, and is the one the
      program takes there. */
  ghost predicate FinLegal(env: Env, o: Oracle, token: Uuid, p: FinPath) {
    p.Then? ==>
      && FinLegal(env, o, token, p.path)
      && p.step.before == o.meanwhile(Length(p.path), Last(p.path))
      && p.step.at == FinStage(p.path)
      && FinPrompted(o, token, p.path, p.step.before, p.step.ev)
      && FinStep(env, p.step.before, p.step.at, p.step.ev, p.step.after, p.step.next)
  }

  /** The last step was taken with a claim in hand. */
  predicate AtWork(p: FinPath) {
    p.Then? && p.step.at.Working? && !p.step.at.pc.ConfirmClaim?
  }

  /** A terminal commit is over: by the commit itself, by the read that confirms it, or by a retry. */
  predicate Finished(step: Step<Finalizer, FinEvent>, c: Claim, commit: Pc) {
    || (step.ev.Commit? && step.at == Working(c, commit))
    || (step.ev.Confirm? && step.at == Working(c, ConfirmTerminal(commit)))
    || (step.at.Working? && step.at.claim == c && step.at.pc.ScheduleRetry?)
  }

  /** How a call of processNext can end. */
  datatype Ending = Retried | Committed | FoundCommitted | ClaimLost | NeverHeld

  ghost predicate Ends(step: Step<Finalizer, FinEvent>, how: Ending)
    requires step.at.Working?
  {
    var c, pc, s := step.at.claim, step.at.pc, step.before;
    match how
    case Retried => step.ev.Reschedule? || (step.ev.Fail? && pc.ScheduleRetry?)
    case Committed =>
      && step.ev == Commit(Acked) && (pc.CommitReady? || pc.CommitReject? || pc.CommitExpire?)
      && TxTerminal(s, c, pc).Changed? && step.after == WithDb(s, TxTerminal(s, c, pc).db)
    case FoundCommitted => step.ev == Confirm && pc.ConfirmTerminal? && Confirmed(s, c, pc.commit)
    case ClaimLost =>
      && step.after == s && !pc.ConfirmClaim?
      && (|| !Live(s.db, s.now, c.upload, c.token)
          || (pc.ConfirmRenew? && s.db.uploads[c.upload].claimExpiresAt.value < pc.expected))
    case NeverHeld => pc.ConfirmClaim? && step.after == s
  }

  lemma CommitEnds(s: Shared, c: Claim, pc: Pc, fate: Fate, s': Shared) returns (how: Ending)
    requires CommitStep(s, c, pc, fate, s', Idle)
    ensures how.Committed? || how.ClaimLost?
    ensures Ends(Step(s, Working(c, pc), Commit(fate), s', Idle), how)
  {
    how := if TxTerminal(s, c, pc).Changed? then Committed else ClaimLost;
  }

  lemma OtherEnds(env: Env, step: Step<Finalizer, FinEvent>) returns (how: Ending)
    requires FinStep(env, step.before, step.at, step.ev, step.after, step.next)
    requires step.at.Working? && step.next == Idle && !step.ev.Crash? && !step.ev.Commit?
    ensures Ends(step, how)
  {
    var pc := step.at.pc;
    how := if step.ev.Reschedule? || pc.ScheduleRetry? then Retried
           else if pc.ConfirmClaim? then NeverHeld
           else if pc.ConfirmTerminal? then FoundCommitted else ClaimLost;
  }

  /** A call ends in one of five ways; in particular it never stops halfway. */
  lemma CallEnds(env: Env, o: Oracle, token: Uuid, p: FinPath) returns (how: Ending)
    requires FinLegal(env, o, token, p) && p.Then? && p.step.at.Working? && FinStage(p) == Idle
    ensures Ends(p.step, how)
  {
    if p.step.ev.Commit? {
      how := CommitEnds(p.step.before, p.step.at.claim, p.step.at.pc, p.step.ev.fate, p.step.after);
    } else {
      how := OtherEnds(env, p.step);
    }
  }

  class FinWorker {
    const env: Env
    const o: Oracle
    const token: Uuid
    var s: Shared
    var steps: nat
    var expiresAt: Time
    ghost var path: FinPath

    ghost predicate Valid()
      reads this
    {
      FinLegal(env, o, token, path) && s == Last(path) && steps == Length(path)
    }

    constructor (env: Env, o: Oracle, token: Uuid, s: Shared)
      ensures Valid() && path == Start(s) && this.env == env && this.o == o && this.token == token
    {
      this.env, this.o, this.token, this.s, steps, expiresAt, path := env, o, token, s, 0, 0, Start(s);
    }

    /** The worker stands at l, at its first attempt there. */
    ghost predicate At(l: Finalizer)
      reads this
    {
      Valid() && FinStage(path) == l && TurnedBack(path) == 0
    }

    /** The state that the next call meets. */
    function Met(): Shared
      reads this
    {
      o.meanwhile(steps, s)
    }

    method Record(ghost ev: FinEvent, after: Shared, ghost next: Finalizer)
      requires Valid() && FinStep(env, Met(), FinStage(path), ev, after, next) && FinPrompted(o, token, path, Met(), ev)
      modifies this`s, this`steps, this`path
      ensures Valid() && s == after
      ensures path == Then(old(path), Step(old(Met()), old(FinStage(path)), ev, after, next))
    {
      path := Then(path, Step(Met(), FinStage(path), ev, after, next));
      s, steps := after, steps + 1;
    }

    /** A call that ends in an error sends the worker to its retry. */
    method Failed(ghost c: Claim, kind: ErrorClass)
      requires Valid() && FinStage(path).Working? && FinStage(path).claim == c
      requires !FinStage(path).pc.ConfirmClaim? && !FinStage(path).pc.ScheduleRetry?
      requires FinPrompted(o, token, path, Met(), Fail(kind))
      modifies this`s, this`steps, this`path
      ensures At(Working(c, ScheduleRetry(kind)))
      ensures path.Then? && path.path == old(path) && path.step.at == old(FinStage(path)) && path.step.ev == Fail(kind)
    {
      Record(Fail(kind), Met(), Working(c, ScheduleRetry(kind)));
    }

    /** f.retry over scheduleFinalizeRetry: whatever comes of it, the worker is done. */
    method Retry(c: Claim, kind: ErrorClass)
      requires At(Working(c, ScheduleRetry(kind)))
      modifies this`s, this`steps, this`path
      ensures At(Idle) && path.Then? && path.path == old(path) && path.step.at.Working? && Ends(path.step, Retried)
    {
      var met := Met();
      if o.databaseError(steps).Some? {
        Record(Fail(o.databaseError(steps).value), met, Idle);
        return;
      }
      var fate := o.commit(steps);
      var after := if Live(met.db, met.now, c.upload, c.token) && Applied(fate)
                   then WithDb(met, TxRetry(met.db, met.now, c.upload, c.token, kind)) else met;
      Record(Reschedule(fate), after, Idle);
    }

    /** Inactive means that the claim was lost, an error that the database failed; otherwise the claim's expiry here is
        the stored one. */
    method RenewFinalizeClaim(c: Claim, ghost next: Pc) returns (active: bool, err: Option<ErrorClass>)
      requires At(Working(c, Renew(next)))
      modifies this
      ensures Within(old(path), path, Idle) && AtWork(path)
      ensures err.Some? ==> !active && At(Working(c, ScheduleRetry(err.value))) && path.step.ev == Fail(err.value)
      ensures err.None? && !active ==> At(Idle) && Ends(path.step, ClaimLost)
      ensures active ==> err.None? && At(Working(c, next))
      ensures active ==> c.upload in s.db.uploads && s.db.uploads[c.upload].claimExpiresAt == Some(expiresAt)
    {
      active, err := false, o.databaseError(steps);
      if err.Some? {
        Failed(c, err.value);
        return;
      }
      var met := Met();
      if !Live(met.db, met.now, c.upload, c.token) {
        Record(RenewClaim(Unsorted(o, steps)), met, Idle);
        return;
      }
      active, err := StoreRenewal(c, next);
    }

    /** The UPDATE and COMMIT of a renewal. */
    method StoreRenewal(c: Claim, ghost next: Pc) returns (active: bool, err: Option<ErrorClass>)
      requires At(Working(c, Renew(next))) && o.databaseError(steps).None?
      requires Live(Met().db, Met().now, c.upload, c.token)
      modifies this
      ensures Within(old(path), path, Idle) && AtWork(path)
      ensures err.Some? ==> !active && At(Working(c, ScheduleRetry(err.value))) && path.step.ev == Fail(err.value)
      ensures err.None? && !active ==> At(Idle) && Ends(path.step, ClaimLost)
      ensures active ==> err.None? && At(Working(c, next))
      ensures active ==> c.upload in s.db.uploads && s.db.uploads[c.upload].claimExpiresAt == Some(expiresAt)
    {
      var met, fate := Met(), Unsorted(o, steps);
      var nextExpiry := met.now + env.lease;
      var after := if Applied(fate) then WithDb(met, TxRenew(met.db, met.now, c.upload, c.token, env.lease)) else met;
      if fate.Acked? {
        Record(RenewClaim(fate), after, Working(c, next));
        expiresAt := nextExpiry;
        return true, None;
      }
      Record(RenewClaim(fate), after, Working(c, ConfirmRenew(nextExpiry, next)));
      ghost var mid := path;
      active, err := ConfirmFinalizeRenewal(c, nextExpiry, next);
      WithinChain(old(path), mid, path, Idle);
    }

    method ConfirmFinalizeRenewal(c: Claim, expected: Time, ghost next: Pc)
      returns (active: bool, err: Option<ErrorClass>)
      requires At(Working(c, ConfirmRenew(expected, next)))
      modifies this
      ensures path.Then? && path.path == old(path) && path.step.at == old(FinStage(path))
      ensures err.Some? ==> !active && At(Working(c, ScheduleRetry(err.value))) && path.step.ev == Fail(err.value)
      ensures err.None? && !active ==> At(Idle) && Ends(path.step, ClaimLost)
      ensures active ==> err.None? && At(Working(c, next)) && Live(s.db, s.now, c.upload, c.token)
      ensures active ==> expected <= expiresAt && s.db.uploads[c.upload].claimExpiresAt == Some(expiresAt)
    {
      active, err := false, o.databaseError(steps);
      if err.Some? {
        Failed(c, err.value);
        return;
      }
      var met := Met();
      if Live(met.db, met.now, c.upload, c.token) && met.db.uploads[c.upload].claimExpiresAt.value >= expected {
        expiresAt := met.db.uploads[c.upload].claimExpiresAt.value;
        active := true;
      }
      Record(Confirm, met, if active then Working(c, next) else Idle);
    }

    // ------------------------------------------------------ terminal commits

    /** f.ready, f.reject and f.expireMissing: up to two attempts, a confirming read when the outcome is unknown, and a
        retry on any error. */
    method Finish(c: Claim, commit: Pc)
      requires At(Working(c, commit)) && (commit.CommitReady? || commit.CommitReject? || commit.CommitExpire?)
      modifies this`s, this`steps, this`path
      ensures At(Idle) && Within(old(path), path, Idle) && path != old(path) && AtWork(path)
      ensures Commits(old(path)) <= Commits(path) <= Commits(old(path)) + ATTEMPTS
      ensures Commits(path) == Commits(old(path)) ==> o.databaseError(old(steps)).Some?
      ensures Finished(path.step, c, commit)
    {
      for attempt := 0 to ATTEMPTS
        invariant Valid() && FinStage(path) == Working(c, commit) && TurnedBack(path) == attempt
        invariant Within(old(path), path, Idle) && Commits(path) == Commits(old(path)) + attempt
        invariant attempt == 0 ==> path == old(path)
      {
        var again := TryToFinish(c, commit, old(path));
        if !again {
          return;
        }
      }
      var kind := if o.databaseError(steps).Some? then o.databaseError(steps).value else o.unknownAs(steps);
      GiveUp(c, commit, kind, old(path));
    }

    /** One attempt; `again` says that it was rolled back. */
    method TryToFinish(c: Claim, commit: Pc, ghost start: FinPath) returns (again: bool)
      requires Valid() && FinStage(path) == Working(c, commit) && Within(start, path, Idle)
      requires commit.CommitReady? || commit.CommitReject? || commit.CommitExpire?
      requires TurnedBack(path) < ATTEMPTS
      modifies this`s, this`steps, this`path
      ensures Within(start, path, Idle)
      ensures again ==>
                && Valid() && FinStage(path) == Working(c, commit) && TurnedBack(path) == TurnedBack(old(path)) + 1
                && Commits(path) == Commits(old(path)) + 1
      ensures !again ==>
                && At(Idle) && path != start && AtWork(path)
                && Commits(path) == Commits(old(path)) + (if o.databaseError(old(steps)).None? then 1 else 0)
                && Finished(path.step, c, commit)
    {
      if o.databaseError(steps).Some? {
        GiveUp(c, commit, o.databaseError(steps).value, start);
        return false;
      }
      var met, fate := Met(), o.commit(steps);
      var outcome := TxTerminal(met, c, commit);
      if !outcome.Changed? {
        Refuse(c, commit, outcome, start);
        return false;
      }
      if fate.RolledBack? {
        Record(Commit(fate), met, Working(c, commit));
        return true;
      }
      StoreTerminal(c, commit, outcome.db, start);
      return false;
    }

    /** A COMMIT that was acknowledged or got no answer. */
    method StoreTerminal(c: Claim, commit: Pc, db: Db, ghost start: FinPath)
      requires Valid() && FinStage(path) == Working(c, commit) && Within(start, path, Idle)
      requires commit.CommitReady? || commit.CommitReject? || commit.CommitExpire?
      requires TxTerminal(Met(), c, commit) == Changed(db) && !o.commit(steps).RolledBack?
      requires o.databaseError(steps).None? && TurnedBack(path) < ATTEMPTS
      modifies this`s, this`steps, this`path
      ensures At(Idle) && Within(start, path, Idle) && path != start && AtWork(path)
      ensures Commits(path) == Commits(old(path)) + 1 && Finished(path.step, c, commit)
    {
      if o.commit(steps).Acked? {
        WithinLength(start, path, Idle);
        Record(Commit(Acked), WithDb(Met(), db), Idle);
      } else {
        LoseAnswer(c, commit, db, start);
      }
    }

    /** A COMMIT that got no answer is confirmed by a read. */
    method LoseAnswer(c: Claim, commit: Pc, db: Db, ghost start: FinPath)
      requires Valid() && FinStage(path) == Working(c, commit) && Within(start, path, Idle)
      requires commit.CommitReady? || commit.CommitReject? || commit.CommitExpire?
      requires TxTerminal(Met(), c, commit) == Changed(db) && o.commit(steps).Lost?
      requires o.databaseError(steps).None? && TurnedBack(path) < ATTEMPTS
      modifies this`s, this`steps, this`path
      ensures At(Idle) && Within(start, path, Idle) && path != start && AtWork(path)
      ensures Commits(path) == Commits(old(path)) + 1 && Finished(path.step, c, commit)
    {
      var met, fate := Met(), o.commit(steps);
      Record(Commit(fate), if Applied(fate) then WithDb(met, db) else met, Working(c, ConfirmTerminal(commit)));
      assert At(Working(c, ConfirmTerminal(commit))) && Within(start, path, Idle);
      assert Commits(path) == Commits(old(path)) + 1;
      ConfirmFinish(c, commit, start);
    }

    /** An error that is not tried again. */
    method GiveUp(c: Claim, commit: Pc, kind: ErrorClass, ghost start: FinPath)
      requires Valid() && FinStage(path) == Working(c, commit) && Within(start, path, Idle)
      requires commit.CommitReady? || commit.CommitReject? || commit.CommitExpire?
      requires FinPrompted(o, token, path, Met(), Fail(kind))
      modifies this`s, this`steps, this`path
      ensures At(Idle) && Within(start, path, Idle) && path != start && AtWork(path)
      ensures Commits(path) == Commits(old(path)) && Finished(path.step, c, commit)
    {
      Failed(c, kind);
      ghost var mid := path;
      Retry(c, kind);
      WithinLength(start, mid.path, Idle);
    }

    /** A transaction that changes nothing: the claim is lost, a re-check fails, or a defect is reported. */
    method Refuse(c: Claim, commit: Pc, outcome: Outcome, ghost start: FinPath)
      requires Valid() && FinStage(path) == Working(c, commit) && Within(start, path, Idle)
      requires commit.CommitReady? || commit.CommitReject? || commit.CommitExpire?
      requires outcome == TxTerminal(Met(), c, commit) && !outcome.Changed?
      requires o.databaseError(steps).None? && TurnedBack(path) < ATTEMPTS
      modifies this`s, this`steps, this`path
      ensures At(Idle) && Within(start, path, Idle) && path != start && AtWork(path)
      ensures Commits(path) == Commits(old(path)) + 1 && Finished(path.step, c, commit)
    {
      var met, fate, kind := Met(), o.commit(steps), o.unknownAs(steps);
      WithinLength(start, path, Idle);
      if outcome.Inactive? && !commit.CommitExpire? {
        Record(Commit(fate), met, Idle);
        return;
      }
      if outcome.Inactive? {
        kind := Transient;
      }
      Record(Commit(fate), met, Working(c, ScheduleRetry(kind)));
      Retry(c, kind);
    }

    method ConfirmFinish(c: Claim, commit: Pc, ghost start: FinPath)
      requires At(Working(c, ConfirmTerminal(commit))) && Within(start, path, Idle)
      modifies this`s, this`steps, this`path
      ensures At(Idle) && Within(start, path, Idle) && path != start && AtWork(path)
      ensures Commits(path) == Commits(old(path)) && Finished(path.step, c, commit)
    {
      WithinLength(start, path, Idle);
      var confirmed, kind := ReadConfirmation(c, commit);
      if !confirmed {
        Retry(c, kind);
      }
    }

    /** confirmReady, confirmRejected or confirmFinalizeExpiredMissing. */
    method ReadConfirmation(c: Claim, commit: Pc) returns (confirmed: bool, kind: ErrorClass)
      requires At(Working(c, ConfirmTerminal(commit)))
      modifies this`s, this`steps, this`path
      ensures path.Then? && path.path == old(path) && path.step.at == old(FinStage(path)) && !path.step.ev.Commit?
      ensures confirmed ==> At(Idle) && path.step.ev == Confirm && Confirmed(s, c, commit)
      ensures !confirmed ==> At(Working(c, ScheduleRetry(kind)))
    {
      var met := Met();
      kind := o.unknownAs(steps);
      if o.databaseError(steps).Some? {
        kind := o.databaseError(steps).value;
        Failed(c, kind);
        return false, kind;
      }
      confirmed := Confirmed(met, c, commit);
      Record(Confirm, met, if confirmed then Idle else Working(c, ScheduleRetry(kind)));
    }

    // --------------------------------------------------------- registration

    /** Active without mismatch means that this very row is stored, with mismatch that another one is, inactive that the
        claim is lost; an error leaves the worker at its retry. */
    method RegisterCandidate(c: Claim, t: TrackedCandidate, ghost body: Bytes)
      returns (active: bool, mismatch: bool, err: Option<ErrorClass>)
      requires At(Working(c, Track(t, body)))
      modifies this`s, this`steps, this`path
      ensures Within(old(path), path, Idle) && path != old(path) && AtWork(path)
      ensures err.Some? ==> At(Working(c, ScheduleRetry(err.value)))
      ensures err.None? && !active ==> At(Idle) && Ends(path.step, ClaimLost)
      ensures err.None? && active && mismatch ==>
                && At(Working(c, CommitReject(RegistrationMismatch)))
                && CandidateId(c.upload, t.sha256) in s.db.candidates && !TrackedRow(s.db, c.upload, t)
      ensures err.None? && active && !mismatch ==>
                At(Working(c, Renew(PutCandidate(t, body)))) && TrackedRow(s.db, c.upload, t)
    {
      for attempt := 0 to ATTEMPTS
        invariant Valid() && FinStage(path) == Working(c, Track(t, body)) && TurnedBack(path) == attempt
        invariant Within(old(path), path, Idle)
      {
        var again: bool;
        again, active, mismatch, err := TryToRegister(c, t, body, old(path));
        if !again {
          return;
        }
      }
      WithinLength(old(path), path, Idle);
      err := if o.databaseError(steps).Some? then o.databaseError(steps) else Some(o.unknownAs(steps));
      Failed(c, err.value);
      return false, false, err;
    }

    /** One attempt; `again` says that it was rolled back. */
    method TryToRegister(c: Claim, t: TrackedCandidate, ghost body: Bytes, ghost start: FinPath)
      returns (again: bool, active: bool, mismatch: bool, err: Option<ErrorClass>)
      requires Valid() && FinStage(path) == Working(c, Track(t, body)) && Within(start, path, Idle)
      requires TurnedBack(path) < ATTEMPTS
      modifies this`s, this`steps, this`path
      ensures Within(start, path, Idle)
      ensures again ==>
                Valid() && FinStage(path) == Working(c, Track(t, body)) && TurnedBack(path) == TurnedBack(old(path)) + 1
      ensures !again ==> path != start && AtWork(path)
      ensures !again && err.Some? ==> At(Working(c, ScheduleRetry(err.value)))
      ensures !again && err.None? && !active ==> At(Idle) && Ends(path.step, ClaimLost)
      ensures !again && err.None? && active && mismatch ==>
                && At(Working(c, CommitReject(RegistrationMismatch)))
                && CandidateId(c.upload, t.sha256) in s.db.candidates && !TrackedRow(s.db, c.upload, t)
      ensures !again && err.None? && active && !mismatch ==>
                At(Working(c, Renew(PutCandidate(t, body)))) && TrackedRow(s.db, c.upload, t)
    {
      WithinLength(start, path, Idle);
      again, active, mismatch, err := false, false, false, o.databaseError(steps);
      if err.Some? {
        Failed(c, err.value);
        return;
      }
      var met, fate := Met(), o.commit(steps);
      match TxRegister(met.db, met.now, c.upload, c.token, t)
      case NotActive =>
        Record(Register(fate), met, Idle);
      case Mismatch =>
        Record(Register(fate), met, Working(c, CommitReject(RegistrationMismatch)));
        active, mismatch := true, true;
      case Stored(db) =>
        if fate.RolledBack? {
          Record(Register(fate), met, Working(c, Track(t, body)));
          again := true;
        } else {
          active, err := StoreCandidate(c, t, body, db, start);
        }
    }

    /** A COMMIT that was acknowledged or got no answer. */
    method StoreCandidate(c: Claim, t: TrackedCandidate, ghost body: Bytes, db: Db, ghost start: FinPath)
      returns (active: bool, err: Option<ErrorClass>)
      requires Valid() && FinStage(path) == Working(c, Track(t, body)) && Within(start, path, Idle)
      requires TurnedBack(path) < ATTEMPTS && o.databaseError(steps).None? && !o.commit(steps).RolledBack?
      requires TxRegister(Met().db, Met().now, c.upload, c.token, t) == Stored(db)
      modifies this`s, this`steps, this`path
      ensures Within(start, path, Idle) && path != start && AtWork(path)
      ensures err.Some? ==> At(Working(c, ScheduleRetry(err.value)))
      ensures err.None? ==> active && At(Working(c, Renew(PutCandidate(t, body)))) && TrackedRow(s.db, c.upload, t)
    {
      var met, fate := Met(), o.commit(steps);
      var after := if Applied(fate) then WithDb(met, db) else met;
      WithinLength(start, path, Idle);
      if fate.Acked? {
        Record(Register(fate), after, Working(c, Renew(PutCandidate(t, body))));
        return true, None;
      }
      Record(Register(fate), after, Working(c, ConfirmTrack(t, body)));
      active, err := CandidateTracked(c, t, body);
    }

    method CandidateTracked(c: Claim, t: TrackedCandidate, ghost body: Bytes)
      returns (active: bool, err: Option<ErrorClass>)
      requires At(Working(c, ConfirmTrack(t, body)))
      modifies this`s, this`steps, this`path
      ensures path.Then? && path.path == old(path) && path.step.at == old(FinStage(path))
      ensures err.Some? ==> At(Working(c, ScheduleRetry(err.value)))
      ensures err.None? ==> active && At(Working(c, Renew(PutCandidate(t, body)))) && TrackedRow(s.db, c.upload, t)
    {
      active, err := false, o.databaseError(steps);
      if err.Some? {
        Failed(c, err.value);
        return;
      }
      var met := Met();
      if TrackedRow(met.db, c.upload, t) {
        Record(Confirm, met, Working(c, Renew(PutCandidate(t, body))));
        return true, None;
      }
      Record(Confirm, met, Working(c, ScheduleRetry(Ambiguous)));
      return false, Some(Ambiguous);
    }

    // ------------------------------------------------------------- the program

    /** `row` is the answer of the ordered SELECT that skips the locked rows. A claim is held when the stored row
        carries this call's token. */
    method ClaimNextFinalizing(row: Option<Uuid>, ghost skipped: set<Uuid>) returns (claim: Option<Claim>)
      requires At(Idle)
      requires row.Some? ==> NextClaim(Met().db, Met().now, skipped, row.value) && token !in Met().issued
      modifies this`s, this`steps, this`path
      ensures row.None? || o.databaseError(old(steps)).Some? ==> claim.None? && path == old(path)
      ensures row.Some? && o.databaseError(old(steps)).None? ==> Call(old(path), path, Idle)
      ensures claim.None? ==> At(Idle)
      ensures claim.None? && path != old(path) ==> path.Then? && path.step.at.Working? && Ends(path.step, NeverHeld)
      ensures claim.Some? ==>
                && At(Working(claim.value, LoadCandidates)) && claim.value.token == token
                    && row == Some(claim.value.upload)
                && row.value in s.db.uploads && s.db.uploads[row.value].claimToken == Some(token)
    {
      if row.None? || o.databaseError(steps).Some? {
        return None;
      }
      var met, fate := Met(), Unsorted(o, steps);
      var c := ClaimOf(row.value, met.db.uploads[row.value], token);
      var after := met.(issued := met.issued + {token},
                        db := if Applied(fate) then TxClaim(met.db, met.now, row.value, token, env.lease) else met.db);
      if fate.Acked? {
        Record(TakeClaim(row.value, token, skipped, fate), after, Working(c, LoadCandidates));
        return Some(c);
      }
      Record(TakeClaim(row.value, token, skipped, fate), after, Working(c, ConfirmClaim));
      ghost var mid := path;
      var held := ConfirmFinalizeClaim(c);
      CallChain(old(path), mid, path, Idle);
      return if held then Some(c) else None;
    }

    method ConfirmFinalizeClaim(c: Claim) returns (held: bool)
      requires At(Working(c, ConfirmClaim))
      modifies this`s, this`steps, this`path
      ensures path.Then? && path.path == old(path) && path.step.at == old(FinStage(path))
      ensures held ==> At(Working(c, LoadCandidates)) && Live(s.db, s.now, c.upload, c.token)
      ensures !held ==> At(Idle) && Ends(path.step, NeverHeld)
    {
      var met := Met();
      if o.databaseError(steps).Some? {
        Record(Fail(o.databaseError(steps).value), met, Idle);
        return false;
      }
      held := Live(met.db, met.now, c.upload, c.token);
      Record(Confirm, met, if held then Working(c, LoadCandidates) else Idle);
    }

    method LoadTrackedCandidates(c: Claim) returns (candidates: seq<TrackedCandidate>, err: Option<ErrorClass>)
      requires At(Working(c, LoadCandidates))
      modifies this`s, this`steps, this`path
      ensures path.Then? && path.path == old(path) && path.step.at == old(FinStage(path))
      ensures err.Some? ==> At(Working(c, ScheduleRetry(err.value)))
      ensures err.None? ==>
                && At(Working(c, Scan(candidates, 0)))
                && candidates == if Live(s.db, s.now, c.upload, c.token) then CandidateList(s.db, c.upload) else []
    {
      candidates, err := [], o.databaseError(steps);
      if err.Some? {
        Failed(c, err.value);
        return;
      }
      var met := Met();
      if Live(met.db, met.now, c.upload, c.token) {
        candidates := CandidateList(met.db, c.upload);
      }
      Record(Load, met, Working(c, Scan(candidates, 0)));
    }

    /** One turn of the loop over tracked candidates: it goes on exactly when the candidate's object is missing, and
        otherwise it ends the call. */
    method VerifyCandidate(c: Claim, candidates: seq<TrackedCandidate>, index: nat) returns (done: bool)
      requires index < |candidates| && At(Working(c, Scan(candidates, index)))
      modifies this
      ensures Within(old(path), path, Idle) && path != old(path) && AtWork(path)
      ensures done ==> At(Idle)
      ensures !done ==>
                && At(Working(c, Scan(candidates, index + 1)))
                && path.step.at == Working(c, VerifyTracked(candidates, index)) && path.step.ev == Get(Missing)
                && candidates[index].objectKey !in path.step.before.objects
    {
      var candidate := candidates[index];
      var active, err := RenewFinalizeClaim(c, VerifyTracked(candidates, index));
      ghost var mid := path;
      WithinLength(old(path), mid, Idle);
      if err.Some? {
        Retry(c, err.value);
        return true;
      }
      if !active {
        return true;
      }
      done := ReadCandidate(c, candidates, index, old(path));
    }

    method ReadCandidate(c: Claim, candidates: seq<TrackedCandidate>, index: nat, ghost start: FinPath)
      returns (done: bool)
      requires index < |candidates| && At(Working(c, VerifyTracked(candidates, index))) && Within(start, path, Idle)
      modifies this`s, this`steps, this`path
      ensures Within(start, path, Idle) && path != start && AtWork(path)
      ensures done ==> At(Idle)
      ensures !done ==>
                && At(Working(c, Scan(candidates, index + 1)))
                && path.step.at == Working(c, VerifyTracked(candidates, index)) && path.step.ev == Get(Missing)
                && candidates[index].objectKey !in path.step.before.objects
    {
      var candidate := candidates[index];
      var met, outcome := Met(), Answer(o, steps, Met(), candidate.objectKey);
      WithinLength(start, path, Idle);
      match outcome
      case Missing =>
        Record(Get(outcome), met, Working(c, Scan(candidates, index + 1)));
        return false;
      case GetError(kind) =>
        Record(Get(outcome), met, Working(c, ScheduleRetry(kind)));
        Retry(c, kind);
        return true;
      case Got(_) =>
        Conclude(c, candidate, start);
        return true;
    }

    /** A candidate's object was read: compare, and commit one way or the other. */
    method Conclude(c: Claim, t: TrackedCandidate, ghost start: FinPath)
      requires Valid() && TurnedBack(path) == 0 && FinStage(path).Working? && FinStage(path).claim == c
                && Within(start, path, Idle)
      requires || FinStage(path).pc == VerifyPublished(t)
               || (FinStage(path).pc.VerifyTracked? && FinStage(path).pc.at < |FinStage(path).pc.all|
                   && FinStage(path).pc.all[FinStage(path).pc.at] == t)
      requires Answer(o, steps, Met(), t.objectKey).Got?
      modifies this`s, this`steps, this`path
      ensures At(Idle) && Within(start, path, Idle) && path != start && AtWork(path)
    {
      var met, outcome := Met(), Answer(o, steps, Met(), t.objectKey);
      var compared := Compare(env, t, Reply(met, t.objectKey, outcome));
      Record(Get(outcome), met, Working(c, compared));
      ghost var mid := path;
      WithinLength(start, mid.path, Idle);
      Finish(c, compared);
      WithinLength(mid, path, Idle);
      WithinChain(start, mid, path, Idle);
    }

    /** prepareMissingObservation, after the renewal that precedes it. */
    method PrepareMissingObservation(c: Claim, candidates: seq<TrackedCandidate>)
      returns (active: bool, horizon: Time, eligible: bool)
      requires At(Working(c, Renew(Prepare(candidates))))
      modifies this
      ensures Within(old(path), path, Idle) && path != old(path) && AtWork(path)
      ensures !active ==> At(Idle)
      ensures active ==>
                && At(Working(c, CaptureStaging(candidates, horizon, eligible)))
                && Live(s.db, s.now, c.upload, c.token) && s.db.uploads[c.upload].horizon == horizon
                && (eligible <==> s.db.uploads[c.upload].deadline <= s.now && horizon <= s.now)
    {
      var renewed, err := RenewFinalizeClaim(c, Prepare(candidates));
      ghost var mid := path;
      WithinLength(old(path), mid, Idle);
      active, horizon, eligible := false, 0, false;
      if err.None? && !renewed {
        return;
      }
      if err.None? && o.databaseError(steps).Some? {
        err := o.databaseError(steps);
        Failed(c, err.value);
      }
      if err.Some? {
        Retry(c, err.value);
        return;
      }
      var met := Met();
      if !Live(met.db, met.now, c.upload, c.token) {
        Record(Observe, met, Idle);
        return;
      }
      var u := met.db.uploads[c.upload];
      active, horizon, eligible := true, u.horizon, u.deadline <= met.now && u.horizon <= met.now;
      Record(Observe, met, Working(c, CaptureStaging(candidates, horizon, eligible)));
    }

    /** The part of processNext between the staging read and the registration. It begins with that read. An object that
        meets the policy comes out as the image; one that does not sends the worker to reject the upload for the defect
        the object has. A missing object expires the upload when the earlier observation allows it. */
    method JudgeStaging(c: Claim, candidates: seq<TrackedCandidate>, horizon: Time, eligible: bool)
      returns (image: Option<ValidatedImage>)
      requires At(Working(c, CaptureStaging(candidates, horizon, eligible)))
      modifies this`s, this`steps, this`path
      ensures Within(old(path), path, Idle) && path != old(path) && AtWork(path)
      ensures image.None? ==> At(Idle)
      ensures image.Some? ==>
                && At(Working(c, Track(CandidateOf(c.upload, image.value), image.value.bytes)))
                && c.stagingKey in s.objects && image.value.bytes == s.objects[c.stagingKey]
                && MeetsPolicy(env, image.value.bytes, c.declaredSize, c.declaredType)
      ensures var read := FirstStep(old(path), path);
              && read.before == old(Met()) && read.at == old(FinStage(path)) && read.ev.Get?
              && read.next.Working? && read.next.claim == c
              && match read.ev.outcome
                 case Missing =>
                   && c.stagingKey !in read.before.objects
                   && read.next.pc == if eligible then CommitExpire(candidates, horizon) else ScheduleRetry(Transient)
                 case GetError(kind) => read.next.pc == ScheduleRetry(kind)
                 case Got(_) =>
                   && c.stagingKey in read.before.objects
                   && var b := read.before.objects[c.stagingKey];
                      if MeetsPolicy(env, b, c.declaredSize, c.declaredType) then image.Some? && image.value.bytes == b
                      else && read.next.pc.CommitReject?
                           && Blames(env, b, c.declaredSize, c.declaredType, read.next.pc.failure)
    {
      image := None;
      var met, outcome := Met(), Answer(o, steps, Met(), c.stagingKey);
      match outcome
      case Missing =>
        StagingMissing(c, candidates, horizon, eligible);
      case GetError(kind) =>
        Record(Get(outcome), met, Working(c, ScheduleRetry(kind)));
        ghost var mid := path;
        Retry(c, kind);
        FirstStepStays(mid, path, Idle);
      case Got(_) =>
        image := StagingFound(c);
    }

    method StagingFound(c: Claim) returns (image: Option<ValidatedImage>)
      requires TurnedBack(path) == 0 && Valid() && FinStage(path).Working? && FinStage(path).claim == c
                && FinStage(path).pc.CaptureStaging?
      requires Answer(o, steps, Met(), c.stagingKey).Got?
      modifies this`s, this`steps, this`path
      ensures Within(old(path), path, Idle) && path != old(path) && AtWork(path)
      ensures image.None? ==> At(Idle)
      ensures image.Some? ==>
                && At(Working(c, Track(CandidateOf(c.upload, image.value), image.value.bytes)))
                && c.stagingKey in s.objects && image.value.bytes == s.objects[c.stagingKey]
                && MeetsPolicy(env, image.value.bytes, c.declaredSize, c.declaredType)
      ensures var b, read := old(Met().objects[c.stagingKey]), FirstStep(old(path), path);
              && read.before == old(Met()) && read.at == old(FinStage(path))
              && read.ev == Get(old(Answer(o, steps, Met(), c.stagingKey)))
              && read.next.Working? && read.next.claim == c
              && if MeetsPolicy(env, b, c.declaredSize, c.declaredType) then image.Some? && image.value.bytes == b
                 else && read.next.pc.CommitReject?
                      && Blames(env, b, c.declaredSize, c.declaredType, read.next.pc.failure)
    {
      var met, outcome := Met(), Answer(o, steps, Met(), c.stagingKey);
      var staging := Reply(met, c.stagingKey, outcome);
      CaptureThenValidate(env, met.objects[c.stagingKey], outcome.lengthKnown, c.declaredSize, c.declaredType);
      RefusalsBlameTheDefect(env, met.objects[c.stagingKey], outcome.lengthKnown, c.declaredSize, c.declaredType);
      Record(Get(outcome), met, Working(c, Judge(env, c, staging)));
      ghost var mid := path;
      image := Settle(c, staging);
      FirstStepStays(mid, path, Idle);
      WithinLength(mid, path, Idle);
      WithinChain(old(path), mid, path, Idle);
    }

    method StagingMissing(c: Claim, candidates: seq<TrackedCandidate>, horizon: Time, eligible: bool)
      requires At(Working(c, CaptureStaging(candidates, horizon, eligible)))
      requires Answer(o, steps, Met(), c.stagingKey).Missing?
      modifies this`s, this`steps, this`path
      ensures At(Idle) && Within(old(path), path, Idle) && path != old(path) && AtWork(path)
      ensures var read := FirstStep(old(path), path);
              && read.before == old(Met()) && read.at == old(FinStage(path)) && read.ev == Get(Missing)
              && read.next == Working(c, if eligible then CommitExpire(candidates, horizon)
                                         else ScheduleRetry(Transient))
    {
      ghost var mid: FinPath;
      if eligible {
        Record(Get(Missing), Met(), Working(c, CommitExpire(candidates, horizon)));
        mid := path;
        Finish(c, CommitExpire(candidates, horizon));
        WithinLength(mid, path, Idle);
        WithinChain(old(path), mid, path, Idle);
      } else {
        Record(Get(Missing), Met(), Working(c, ScheduleRetry(Transient)));
        mid := path;
        Retry(c, Transient);
      }
      FirstStepStays(mid, path, Idle);
    }

    /** The verdict on the staging object. */
    method Settle(c: Claim, staging: Snapshot) returns (image: Option<ValidatedImage>)
      requires At(Working(c, Judge(env, c, staging)))
      modifies this`s, this`steps, this`path
      ensures Within(old(path), path, Idle)
      ensures image.None? ==> At(Idle) && AtWork(path)
      ensures image.Some? <==> ValidateImageBytes(env, staging, c.declaredSize, c.declaredType).Accepted?
      ensures image.Some? ==>
                && path == old(path) && s == old(s) && steps == old(steps)
                && ValidateImageBytes(env, staging, c.declaredSize, c.declaredType).image == image.value
    {
      match ValidateImageBytes(env, staging, c.declaredSize, c.declaredType)
      case Unreadable =>
        Retry(c, Transient);
        return None;
      case Refused(failure) =>
        Finish(c, CommitReject(failure));
        return None;
      case Accepted(validated) =>
        return Some(validated);
    }

    /** The part of processNext after the registration: PUT, read back, commit. */
    method Publish(c: Claim, t: TrackedCandidate, body: Bytes)
      requires At(Working(c, Renew(PutCandidate(t, body))))
      modifies this
      ensures At(Idle) && Within(old(path), path, Idle) && path != old(path) && AtWork(path)
    {
      var active, err := RenewFinalizeClaim(c, PutCandidate(t, body));
      ghost var mid := path;
      WithinLength(old(path), mid, Idle);
      if active {
        var met, stored := Met(), o.putStored(steps);
        var after := met.(puts := met.puts + {Put(t.objectKey, body)},
                          objects := if stored then met.objects[t.objectKey := body] else met.objects);
        Record(SendPut(stored), after, Working(c, Renew(VerifyPublished(t))));
        mid := path;
        active, err := RenewFinalizeClaim(c, VerifyPublished(t));
        WithinLength(mid, path, Idle);
        WithinChain(old(path), mid, path, Idle);
      }
      if err.Some? {
        Retry(c, err.value);
        return;
      }
      if !active {
        return;
      }
      VerifyPublication(c, t, old(path));
    }

    method VerifyPublication(c: Claim, t: TrackedCandidate, ghost start: FinPath)
      requires At(Working(c, VerifyPublished(t))) && Within(start, path, Idle)
      modifies this`s, this`steps, this`path
      ensures At(Idle) && Within(start, path, Idle) && path != start && AtWork(path)
    {
      var met, kind, outcome := Met(), o.unknownAs(steps), Answer(o, steps, Met(), t.objectKey);
      if outcome.Got? {
        Conclude(c, t, start);
      } else {
        WithinLength(start, path, Idle);
        Record(Get(outcome), met, Working(c, ScheduleRetry(kind)));
        Retry(c, kind);
      }
    }

    /** One call: with a row to claim and a database that answers, the path goes on by exactly one call, from taking
        that claim to one of the endings of CallEnds; otherwise nothing happens. The call counts as processed when
        the claim was held. */
    method ProcessNext(row: Option<Uuid>, ghost skipped: set<Uuid>) returns (processed: bool)
      requires At(Idle)
      requires row.Some? ==> NextClaim(Met().db, Met().now, skipped, row.value) && token !in Met().issued
      modifies this
      ensures At(Idle)
      ensures row.None? || o.databaseError(old(steps)).Some? ==> !processed && path == old(path)
      ensures row.Some? && o.databaseError(old(steps)).None? ==> Call(old(path), path, Idle) && path.step.at.Working?
      ensures path != old(path) ==>
                path.Then? && path.step.at.Working? && (processed <==> !path.step.at.pc.ConfirmClaim?)
    {
      var claim := ClaimNextFinalizing(row, skipped);
      if claim.None? {
        return false;
      }
      Proceed(claim.value, old(path));
      return true;
    }

    /** processNext with a claim in hand. */
    method Proceed(c: Claim, ghost start: FinPath)
      requires At(Working(c, LoadCandidates)) && Call(start, path, Idle)
      modifies this
      ensures At(Idle) && Call(start, path, Idle) && AtWork(path)
    {
      var candidates, err := LoadTrackedCandidates(c);
      CallLonger(start, path.path, Idle);
      if err.Some? {
        CallLonger(start, path, Idle);
        Retry(c, err.value);
        return;
      }
      ghost var mid := path;
      var done := VerifyTrackedCandidates(c, candidates);
      CallChain(start, mid, path, Idle);
      if !done {
        Examine(c, candidates, start);
      }
    }

    /** The loop over tracked candidates. */
    method VerifyTrackedCandidates(c: Claim, candidates: seq<TrackedCandidate>) returns (done: bool)
      requires At(Working(c, Scan(candidates, 0)))
      modifies this
      ensures Within(old(path), path, Idle)
      ensures done ==> At(Idle) && AtWork(path)
      ensures !done ==> At(Working(c, Renew(Prepare(candidates))))
    {
      for index := 0 to |candidates|
        invariant At(Working(c, Scan(candidates, index))) && Within(old(path), path, Idle)
      {
        ghost var mid := path;
        done := VerifyCandidate(c, candidates, index);
        WithinChain(old(path), mid, path, Idle);
        if done {
          return;
        }
      }
      done := false;
    }

    /** processNext when no tracked candidate is stored. */
    method Examine(c: Claim, candidates: seq<TrackedCandidate>, ghost start: FinPath)
      requires At(Working(c, Renew(Prepare(candidates)))) && Call(start, path, Idle)
      modifies this
      ensures At(Idle) && Call(start, path, Idle) && AtWork(path)
    {
      ghost var mid := path;
      var active, horizon, eligible := PrepareMissingObservation(c, candidates);
      CallChain(start, mid, path, Idle);
      if !active {
        return;
      }
      mid := path;
      var image := JudgeStaging(c, candidates, horizon, eligible);
      CallChain(start, mid, path, Idle);
      if image.None? {
        return;
      }
      mid := path;
      var t, body := CandidateOf(c.upload, image.value), image.value.bytes;
      var tracked, mismatch, failure := RegisterCandidate(c, t, body);
      CallChain(start, mid, path, Idle);
      mid := path;
      if failure.Some? {
        Retry(c, failure.value);
        CallLonger(start, mid, Idle);
      } else if tracked && mismatch {
        Finish(c, CommitReject(RegistrationMismatch));
        CallChain(start, mid, path, Idle);
      } else if tracked {
        Publish(c, t, body);
        CallChain(start, mid, path, Idle);
      }
    }
  }
}
