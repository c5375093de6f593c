/** The cleaner's processNext and the sweep around it, as programs. Each execution is a path of the cleaner's part
    of the state machine, and the sweep's count is the number of deletes it sent. */
module CleanerProgram {
  import opened Types
  import opened Transactions
  import opened World
  import opened Programs

  const CLEANUP_BATCH: nat := 10

  type CleanPath = Trail<Cleaner, CleanEvent>

  function CleanStage(p: CleanPath): Cleaner {
    if p.Start? then Resting else p.step.next
  }

  /** The SELECT over due tombstones, the rows it skips, and the token generator, in the state each call meets. The
      generator may fail. */
  datatype Queue = Queue(pick: Shared -> Option<Key>, skipped: Shared -> set<Key>, mint: Shared -> Option<Uuid>)

  ghost predicate InOrder(q: Queue) {
    forall s ::
      && (q.mint(s).Some? ==> q.mint(s).value !in s.issued)
      && (q.pick(s).Some? ==> NextCleanup(s.db, s.now, q.skipped(s), q.pick(s).value))
  }

  /** deleteS3Object and its classification: only an absent object is reported absent. */
  function DeleteAnswer(o: Oracle, n: nat, met: Shared, k: Key): CleanupResult {
    if o.storageError(n).Some? then DeleteError(o.storageError(n).value)
    else if k !in met.objects && o.reportsAbsent(n) then ConfirmedAbsent else DeleteSucceeded
  }

  /** The one event that can follow p when the next call meets the state `met`. */
  predicate CleanPrompted(o: Oracle, q: Queue, p: CleanPath, met: Shared, ev: CleanEvent) {
    var n := Length(p);
    match CleanStage(p)
    case Resting =>
      && o.databaseError(n).None? && q.pick(met).Some? && q.mint(met).Some?
      && ev == Reserve(q.pick(met).value, q.mint(met).value, q.skipped(met), Unsorted(o, n))
    case ConfirmReserve(_, _) => ev == if o.databaseError(n).Some? then CleanFail else ConfirmReservation
    case Deleting(k, _) => ev == SendDelete(DeleteAnswer(o, n, met, k))
    case Applying(_, _, _) => ev == if o.databaseError(n).Some? then CleanFail else ApplyResult(Unsorted(o, n))
  }

  ghost predicate CleanLegal(o: Oracle, q: Queue, p: CleanPath) {
    p.Then? ==>
      && CleanLegal(o, q, p.path)
      && p.step.before == o.meanwhile(Length(p.path), Last(p.path))
      && p.step.at == CleanStage(p.path)
      && CleanPrompted(o, q, p.path, p.step.before, p.step.ev)
      && CleanStep(p.step.before, p.step.at, p.step.ev, p.step.after, p.step.next)
  }

  /** How many deletes the path sent, and how many of them were answered with an error. */
  ghost function Deletes(p: CleanPath): nat {
    if p.Start? then 0 else Deletes(p.path) + if p.step.ev.SendDelete? then 1 else 0
  }

  ghost function FailedDeletes(p: CleanPath): nat {
    if p.Start? then 0
    else FailedDeletes(p.path) + if p.step.ev.SendDelete? && p.step.ev.result.DeleteError? then 1 else 0
  }

  /** The reservation was not there when it was read back. */
  predicate NotReserved(p: CleanPath) {
    p.Then? && p.step.ev.ConfirmReservation? && p.step.next == Resting
  }

  class CleanWorker {
    const o: Oracle
    const q: Queue
    var s: Shared
    var steps: nat
    ghost var path: CleanPath

    ghost predicate Valid()
      reads this
    {
      CleanLegal(o, q, path) && s == Last(path) && steps == Length(path) && InOrder(q)
    }

    ghost predicate At(l: Cleaner)
      reads this
    {
      Valid() && CleanStage(path) == l
    }

    constructor (o: Oracle, q: Queue, s: Shared)
      requires InOrder(q)
      ensures At(Resting) && path == Start(s) && this.o == o && this.q == q
    {
      this.o, this.q, this.s, steps, path := o, q, s, 0, Start(s);
    }

    function Met(): Shared
      reads this
    {
      o.meanwhile(steps, s)
    }

    /** A database call failed, or the token generator did. */
    predicate OutOfService()
      reads this
    {
      o.databaseError(steps).Some? || q.mint(Met()).None?
    }

    method Record(ghost ev: CleanEvent, after: Shared, ghost next: Cleaner)
      requires Valid() && CleanStep(Met(), CleanStage(path), ev, after, next) && CleanPrompted(o, q, path, Met(), ev)
      modifies this
      ensures Valid() && s == after
      ensures path == Then(old(path), Step(old(Met()), old(CleanStage(path)), ev, after, next))
    {
      path := Then(path, Step(Met(), CleanStage(path), ev, after, next));
      s, steps := after, steps + 1;
    }

    /** A reservation is held when the stored tombstone carries the token. */
    method ReserveNextCleanup() returns (reserved: Option<Key>, token: Uuid, err: bool)
      requires At(Resting)
      modifies this
      ensures old(OutOfService()) || old(q.pick(Met())).None? ==>
                reserved.None? && path == old(path) && s == old(s) && steps == old(steps)
                    && (err <==> old(OutOfService()))
      ensures !old(OutOfService()) && old(q.pick(Met())).Some? ==> Call(old(path), path, Resting)
      ensures Deletes(path) == Deletes(old(path)) && FailedDeletes(path) == FailedDeletes(old(path))
      ensures reserved.None? ==> At(Resting)
      ensures reserved.None? && path != old(path) ==>
                path.Then? && path.step.at.ConfirmReserve?
                    && (if err then path.step.ev.CleanFail? else NotReserved(path))
      ensures reserved.Some? ==>
                && !err && At(Deleting(reserved.value, token))
                && reserved.value in s.db.tombstones && s.db.tombstones[reserved.value].reservationToken == Some(token)
    {
      var met, fate := Met(), Unsorted(o, steps);
      reserved, token, err := None, 0, OutOfService();
      if err || q.pick(met).None? {
        return;
      }
      var k := q.pick(met).value;
      token := q.mint(met).value;
      var after := met.(issued := met.issued + {token},
                        db := if Applied(fate) then TxReserve(met.db, met.now, k, token) else met.db);
      if fate.Acked? {
        Record(Reserve(k, token, q.skipped(met), fate), after, Deleting(k, token));
        return Some(k), token, false;
      }
      Record(Reserve(k, token, q.skipped(met), fate), after, ConfirmReserve(k, token));
      ghost var mid := path;
      var held, failed := ConfirmCleanupReservation(k, token);
      CallChain(old(path), mid, path, Resting);
      return if held then Some(k) else None, token, failed;
    }

    method ConfirmCleanupReservation(k: Key, token: Uuid) returns (held: bool, err: bool)
      requires At(ConfirmReserve(k, token))
      modifies this
      ensures path.Then? && path.path == old(path) && path.step.at == old(CleanStage(path)) && !path.step.ev.SendDelete?
      ensures held ==> !err && At(Deleting(k, token))
      ensures held ==> k in s.db.tombstones && s.db.tombstones[k].reservationToken == Some(token)
      ensures !held ==> At(Resting) && if err then path.step.ev.CleanFail? else NotReserved(path)
    {
      var met := Met();
      if o.databaseError(steps).Some? {
        Record(CleanFail, met, Resting);
        return false, true;
      }
      held, err := k in met.db.tombstones
              && met.db.tombstones[k].reservationToken == Some(token)
              && met.db.tombstones[k].reservationExpiresAt.Some?
              && met.now < met.db.tombstones[k].reservationExpiresAt.value
              && !(met.db.tombstones[k].upload in met.db.uploads
                   && met.db.uploads[met.db.tombstones[k].upload].finalKey == Some(k)), false;
      Record(ConfirmReservation, met, if held then Deleting(k, token) else Resting);
    }

    method DeleteObject(k: Key, token: Uuid) returns (result: CleanupResult)
      requires At(Deleting(k, token))
      modifies this
      ensures At(Applying(k, token, result)) && path.Then? && path.path == old(path)
      ensures path.step.at == old(CleanStage(path)) && path.step.ev == SendDelete(result)
      ensures result.DeleteSucceeded? ==> k !in s.objects
      ensures result.ConfirmedAbsent? ==> k !in s.objects
    {
      var met := Met();
      result := DeleteAnswer(o, steps, met, k);
      var after := met.(deletes := met.deletes + {k},
                        objects := if result.DeleteSucceeded? then met.objects - {k} else met.objects);
      Record(SendDelete(result), after, Applying(k, token, result));
    }

    /** The stored result is that of the transaction; after a COMMIT without an answer a read tells, and may fail. */
    method ApplyCleanupResult(k: Key, token: Uuid, result: CleanupResult) returns (err: bool)
      requires At(Applying(k, token, result))
      modifies this
      ensures At(Resting) && path.Then? && path.path == old(path) && path.step.at == old(CleanStage(path))
      ensures !path.step.ev.SendDelete?
      ensures err <==>
                || path.step.ev.CleanFail?
                || (path.step.ev.ApplyResult? && path.step.ev.fate.Lost? && o.databaseError(steps).Some?)
    {
      var met, fate := Met(), Unsorted(o, steps);
      if o.databaseError(steps).Some? {
        Record(CleanFail, met, Resting);
        return true;
      }
      var applied := TxApply(met.db, met.now, k, token, result);
      var after := if applied.Some? && Applied(fate) then WithDb(met, applied.value) else met;
      Record(ApplyResult(fate), after, Resting);
      err := fate.Lost? && o.databaseError(steps).Some?;
    }

    /** What a call of processNext reports, read off its last step. */
    ghost predicate Reports(attempted: bool, failed: bool, err: bool)
      reads this
    {
      && path.Then? && path.step.at != Resting
      && (attempted <==> path.step.at.Applying?)
      && (failed <==> attempted && path.step.at.result.DeleteError?)
      && (err <==> path.step.ev.CleanFail?
                   || (path.step.ev.ApplyResult? && path.step.ev.fate.Lost? && o.databaseError(steps).Some?))
      && (!attempted && !err ==> NotReserved(path))
    }

    /** `attempted` says that a delete was sent, `failed` that it was answered with an error, `err` that the database or
        the token generator failed. With something to reserve and everything in service the path goes on by exactly one
        call; otherwise nothing happens. */
    method ProcessNext() returns (attempted: bool, failed: bool, err: bool)
      requires At(Resting)
      modifies this
      ensures At(Resting)
      ensures old(OutOfService()) || old(q.pick(Met())).None? ==>
                !attempted && !failed && path == old(path) && (err <==> old(OutOfService()))
                && s == old(s) && steps == old(steps)
      ensures !old(OutOfService()) && old(q.pick(Met())).Some? ==>
                Call(old(path), path, Resting) && Reports(attempted, failed, err)
      ensures Deletes(path) == Deletes(old(path)) + if attempted then 1 else 0
      ensures FailedDeletes(path) == FailedDeletes(old(path)) + if failed then 1 else 0
    {
      var reserved, token, reserveFailed := ReserveNextCleanup();
      if reserved.None? {
        if !old(OutOfService()) && old(q.pick(Met())).Some? { CallLonger(old(path), path, Resting); }
        return false, false, reserveFailed;
      }
      ghost var mid := path;
      var result := DeleteObject(reserved.value, token);
      err := ApplyCleanupResult(reserved.value, token, result);
      CallChain(old(path), mid, path, Resting);
      return true, result.DeleteError?, err;
    }

    /** sweepCleanup: the sweep goes on past failed deletes; it stops early only when nothing is due, a reservation was
        not there when it was read back, or something is out of service. */
    method SweepCleanup() returns (processed: nat, errors: nat)
      requires At(Resting)
      modifies this
      ensures At(Resting) && Extends(old(path), path)
      ensures processed <= CLEANUP_BATCH && Deletes(path) == Deletes(old(path)) + processed
      ensures FailedDeletes(path) <= FailedDeletes(old(path)) + errors <= FailedDeletes(path) + 1
      ensures processed < CLEANUP_BATCH && errors == 0 ==>
                q.pick(Met()).None? || (path != old(path) && NotReserved(path))
      ensures processed < CLEANUP_BATCH ==>
                || q.pick(Met()).None? || OutOfService()
                || (path != old(path) && (NotReserved(path) || path.step.ev.CleanFail?))
    {
      processed, errors := 0, 0;
      while processed < CLEANUP_BATCH
        invariant At(Resting) && Extends(old(path), path)
        invariant processed <= CLEANUP_BATCH && Deletes(path) == Deletes(old(path)) + processed
        invariant FailedDeletes(path) == FailedDeletes(old(path)) + errors
      {
        ghost var mid := path;
        ghost var idle := OutOfService() || q.pick(Met()).None?;
        var attempted, failed, err := ProcessNext();
        if !idle {
          CallLonger(mid, path, Resting);
          ExtendsChain(old(path), mid, path);
          ExtendsLength(old(path), mid);
        }
        if attempted {
          processed := processed + 1;
        }
        if failed {
          errors := errors + 1;
        }
        if err {
          if !failed {
            errors := errors + 1;
          }
          break;
        }
        if !attempted {
          break;
        }
      }
    }
  }
}
