/** The bounded retry around a transaction, under every schedule of faults, and candidate registration built on it. */
module RetryTransaction {
  import opened Types
  import opened Transactions

  const DATABASE_TX_ATTEMPTS: nat := 2

  datatype TxError = SerializationFailure | DeadlockDetected | OtherFailure

  predicate Retryable(e: TxError) {
    e.SerializationFailure? || e.DeadlockDetected?
  }

  /** What the body of a transaction does with the state it sees. */
  datatype Attempt<S, R> = Commit(next: S, result: R) | Skip(result: R) | Fail(error: TxError, result: R)

  /** The faults of one attempt: BEGIN may fail, COMMIT may fail, and a failed COMMIT may have been applied unless its
      error is one that PostgreSQL reports only after rolling back. Before the attempt, others change the state. */
  datatype Round<!S> = Round(meanwhile: S -> S, beginFails: Option<TxError>, commitFails: Option<TxError>,
      applied: bool)

  function Lands<S>(r: Round<S>): bool {
    r.commitFails.None? || (r.applied && !Retryable(r.commitFails.value))
  }

  /** The state after the interference of the first n rounds, when no attempt took effect. */
  function Interfered<S>(start: S, rounds: seq<Round<S>>, n: nat): S
    requires n <= |rounds|
  {
    if n == 0 then start else rounds[n - 1].meanwhile(Interfered(start, rounds, n - 1))
  }

  /** retryUploadTransaction. `effects` lists every state the transaction made durable and `used` counts the rounds. */
  method RetryUploadTransaction<S, R>(start: S, apply: S -> Attempt<S, R>, rounds: seq<Round<S>>)
    returns (committed: bool, unknown: bool, err: Option<TxError>, last: Option<R>, final: S, effects: seq<S>,
        used: nat)
    requires |rounds| == DATABASE_TX_ATTEMPTS
    ensures 1 <= used <= DATABASE_TX_ATTEMPTS
    ensures committed ==> !unknown && err.None? && |effects| == 1
    ensures !committed && !unknown ==> effects == []
    ensures unknown ==> !committed && |effects| <= 1 && err.Some? && !Retryable(err.value)
    ensures err.Some? && Retryable(err.value) ==> used == DATABASE_TX_ATTEMPTS
    ensures effects == [] ==> final == Interfered(start, rounds, used)
    ensures effects != [] ==>
              && apply(Interfered(start, rounds, used)).Commit?
              && final == effects[0] == apply(Interfered(start, rounds, used)).next
    ensures committed ==> last == Some(apply(Interfered(start, rounds, used)).result)
    ensures !committed && !unknown && err.None? ==>
              && apply(Interfered(start, rounds, used)).Skip?
              && last == Some(apply(Interfered(start, rounds, used)).result)
  {
    committed, unknown, err, last, effects, used := false, false, None, None, [], 0;
    final := start;
    var attempt := 0;
    while attempt < DATABASE_TX_ATTEMPTS
      invariant attempt == used < DATABASE_TX_ATTEMPTS
      invariant !committed && !unknown && effects == [] && err.None?
      invariant final == Interfered(start, rounds, used)
      decreases DATABASE_TX_ATTEMPTS - attempt
    {
      var round := rounds[attempt];
      final := round.meanwhile(final);
      used := used + 1;
      if round.beginFails.Some? {
        if Retryable(round.beginFails.value) && attempt + 1 < DATABASE_TX_ATTEMPTS {
          attempt := attempt + 1;
          continue;
        }
        err := round.beginFails;
        return;
      }
      var body := apply(final);
      last := Some(body.result);
      match body {
        case Skip(_) => return;
        case Fail(e, _) =>
          if Retryable(e) && attempt + 1 < DATABASE_TX_ATTEMPTS {
            attempt := attempt + 1;
            continue;
          }
          err := Some(e);
          return;
        case Commit(next, _) =>
          if Lands(round) {
            final, effects := next, [next];
          }
          if round.commitFails.None? {
            committed := true;
            return;
          }
          if Retryable(round.commitFails.value) && attempt + 1 < DATABASE_TX_ATTEMPTS {
            attempt := attempt + 1;
            continue;
          }
          unknown, err := !Retryable(round.commitFails.value), round.commitFails;
          return;
      }
    }
    // "database transaction retry exhausted" is never returned: the last attempt always returns.
    assert false;
  }

  // ------------------------------------------------------------ registration

  /** The tables at the clock a transaction samples. */
  datatype Moment = Moment(db: Db, now: Time)

  datatype RegisterFlags = RegisterFlags(active: bool, mismatch: bool)

  function RegisterBody(m: Moment, id: Uuid, token: Uuid, t: TrackedCandidate): Attempt<Moment, RegisterFlags> {
    match TxRegister(m.db, m.now, id, token, t)
    case NotActive => Skip(RegisterFlags(false, false))
    case Mismatch => Skip(RegisterFlags(true, true))
    case Stored(db) => Commit(Moment(db, m.now), RegisterFlags(true, false))
  }

  datatype RegisterError = TransactionFailed(error: TxError) | ConfirmFailed | OutcomeUnknown

  /** registerCandidate: when the outcome of the commit is unknown the stored row decides. `confirm` is None when that
      read fails, and otherwise what others do before it. */
  method RegisterCandidate(start: Moment, id: Uuid, token: Uuid, t: TrackedCandidate, rounds: seq<Round<Moment>>,
                           confirm: Option<Moment -> Moment>)
    returns (active: bool, mismatch: bool, err: Option<RegisterError>, final: Moment)
    requires |rounds| == DATABASE_TX_ATTEMPTS
    ensures err.None? && active && !mismatch ==> TrackedRow(final.db, id, t)
    ensures err.None? && active && mismatch ==>
              CandidateId(id, t.sha256) in final.db.candidates
                  && final.db.candidates[CandidateId(id, t.sha256)].tracked != t
    ensures err == Some(OutcomeUnknown) ==> !TrackedRow(final.db, id, t)
    ensures err.Some? || !active ==> !mismatch
    ensures err.None? && !active ==> !Live(final.db, final.now, id, token)
  {
    var apply := (m: Moment) => RegisterBody(m, id, token, t);
    var committed, unknown, txError, last, state, effects, used := RetryUploadTransaction(start, apply, rounds);
    final := state;
    active, mismatch, err := false, false, None;
    if unknown {
      if confirm.None? {
        err := Some(ConfirmFailed);
        return;
      }
      final := confirm.value(final);
      if !TrackedRow(final.db, id, t) {
        err := Some(OutcomeUnknown);
        return;
      }
      active := true;
      return;
    }
    if txError.Some? {
      err := Some(TransactionFailed(txError.value));
      return;
    }
    if last.value.mismatch {
      return true, true, None, final;
    }
    active := last.value.active && committed;
  }
}
