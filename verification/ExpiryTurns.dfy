/** The turns of an expiry sweep, as values: what each of them met, stored and counted. A COMMIT without an answer
    makes the count differ from what the sweep did, in either direction; the laws here say by how much. */
module ExpiryTurns {
  import opened Types
  import opened Transactions

  /** What a turn reports to the sweep: a processed row, or an error, which ends the sweep. */
  datatype Report = NoneDue | Processed | Errored

  /** One turn: the tables its SELECT met, the row it locked, whether its transaction was applied and acknowledged, the
      tables after the COMMIT, and the tables when the turn was over (later, if it had to read back). */
  datatype Turn = Turn(now: Time, met: Db, row: Option<Uuid>, applied: bool, acked: bool, stored: Db, over: Db,
      report: Report)

  /** confirmPendingExpired. */
  predicate ExpiryConfirmed(db: Db, id: Uuid, horizon: Time) {
    && id in db.uploads
    && var u := db.uploads[id];
       && u.state.Expired? && u.expiryReason == Some(UploadDeadlineElapsed) && u.completionRequestedAt.None?
       && u.horizon == horizon
       && u.stagingKey in db.tombstones && db.tombstones[u.stagingKey].upload == id
       && db.tombstones[u.stagingKey].candidateSha.None? && db.tombstones[u.stagingKey].deleteNotBefore == horizon
  }

  /** What expireNextPendingUpload makes of a turn. */
  predicate TurnOk(t: Turn) {
    match t.row
    case None => !t.applied && t.stored == t.met && t.over == t.met && !t.report.Processed?
    case Some(id) =>
      && id in t.met.uploads && ExpiryDue(t.met.uploads[id], t.now)
      && (if t.applied then TxExpirePending(t.met, t.now, id) == Changed(t.stored) else t.stored == t.met)
      && (t.acked ==> t.applied && t.over == t.stored && t.report.Processed?)
      && (!t.acked ==>
            && !t.report.NoneDue?
            && (t.report.Processed? ==> ExpiryConfirmed(t.over, id, t.met.uploads[id].horizon)))
  }

  /** By turn: the clock it samples, the rows locked elsewhere, whether the database fails it, how its COMMIT ends, what
      others do before it and before its confirming read, and whether that read fails. */
  datatype SweepOracle = SweepOracle(
    clock: nat -> Time,
    locked: nat -> set<Uuid>,
    fails: nat -> bool,
    fate: nat -> Fate,
    beforeTurn: (nat, Db) -> Db,
    beforeRead: (nat, Db) -> Db,
    readFails: nat -> bool)

  /** ORDER BY upload_deadline, upload_id over the due rows that are not locked. */
  ghost predicate NextExpiry(db: Db, now: Time, locked: set<Uuid>, id: Uuid) {
    && id in db.uploads && id !in locked && ExpiryDue(db.uploads[id], now)
    && forall j | j in db.uploads && j !in locked && ExpiryDue(db.uploads[j], now) && j != id ::
         Earlier(db.uploads[id].deadline, id, db.uploads[j].deadline, j)
  }

  predicate NothingDue(db: Db, now: Time, locked: set<Uuid>) {
    forall id | id in db.uploads && id !in locked :: !ExpiryDue(db.uploads[id], now)
  }

  /** The turn the oracle prescribes: everything in it follows from the tables it met. */
  ghost predicate Prescribed(o: SweepOracle, n: nat, t: Turn) {
    && t.now == o.clock(n)
    && (t.row.None? <==> o.fails(n) || NothingDue(t.met, t.now, o.locked(n)))
    && (t.row.None? ==> t.report == if o.fails(n) then Errored else NoneDue)
    && (t.row.Some? ==>
          && NextExpiry(t.met, t.now, o.locked(n), t.row.value)
          && if !TxExpirePending(t.met, t.now, t.row.value).Changed? then !t.applied && !t.acked && t.report.Errored?
             else
               && t.applied == Applied(o.fate(n)) && t.acked == o.fate(n).Acked?
               && (!t.acked ==>
                     && t.over == o.beforeRead(n, t.stored)
                     && (t.report.Processed? <==>
                           && !o.readFails(n)
                           && ExpiryConfirmed(t.over, t.row.value, t.met.uploads[t.row.value].horizon))))
  }

  /** Turn i is as prescribed and meets what others made of the tables after the one before it. */
  ghost predicate InSequence(o: SweepOracle, start: Db, log: seq<Turn>, i: nat)
    requires i < |log|
  {
    TurnOk(log[i]) && Prescribed(o, i, log[i]) && log[i].met == o.beforeTurn(i, EndOf(start, log[..i]))
  }

  ghost predicate Sequence(o: SweepOracle, start: Db, log: seq<Turn>) {
    forall i: nat | i < |log| :: InSequence(o, start, log, i)
  }

  function EndOf(start: Db, log: seq<Turn>): Db {
    if log == [] then start else log[|log| - 1].over
  }

  lemma SequencePrefix(o: SweepOracle, start: Db, log: seq<Turn>, n: nat)
    requires Sequence(o, start, log) && n <= |log|
    ensures Sequence(o, start, log[..n])
  {
    forall i: nat | i < n ensures InSequence(o, start, log[..n], i) {
      assert InSequence(o, start, log, i) && log[..n][..i] == log[..i];
    }
  }

  lemma OneMore(o: SweepOracle, start: Db, log: seq<Turn>, t: Turn)
    requires Sequence(o, start, log) && TurnOk(t) && Prescribed(o, |log|, t)
              && t.met == o.beforeTurn(|log|, EndOf(start, log))
    ensures Sequence(o, start, log + [t]) && EndOf(start, log + [t]) == t.over
    ensures CountedIn(log + [t]) == CountedIn(log) + if t.report.Processed? then 1 else 0
    ensures FailedIn(log + [t]) == FailedIn(log) + if t.report.Errored? then 1 else 0
  {
    var more := log + [t];
    assert more[..|log|] == log;
    forall i: nat | i < |more| ensures InSequence(o, start, more, i) {
      assert more[..i] == log[..i];
      if i < |log| { assert InSequence(o, start, log, i); }
    }
  }

  ghost predicate AllOk(log: seq<Turn>) {
    log != [] ==> AllOk(log[..|log| - 1]) && TurnOk(log[|log| - 1])
  }

  lemma {:induction false} SequenceIsOk(o: SweepOracle, start: Db, log: seq<Turn>)
    requires Sequence(o, start, log)
    ensures AllOk(log)
  {
    if log != [] {
      SequencePrefix(o, start, log, |log| - 1);
      assert InSequence(o, start, log, |log| - 1);
      SequenceIsOk(o, start, log[..|log| - 1]);
    }
  }

  predicate Unseen(t: Turn) { t.applied && !t.report.Processed? }
  predicate Borrowed(t: Turn) { !t.applied && t.report.Processed? }

  function CountedIn(log: seq<Turn>): nat {
    if log == [] then 0 else CountedIn(log[..|log| - 1]) + if log[|log| - 1].report.Processed? then 1 else 0
  }

  function FailedIn(log: seq<Turn>): nat {
    if log == [] then 0 else FailedIn(log[..|log| - 1]) + if log[|log| - 1].report.Errored? then 1 else 0
  }

  function AppliedIn(log: seq<Turn>): nat {
    if log == [] then 0 else AppliedIn(log[..|log| - 1]) + if log[|log| - 1].applied then 1 else 0
  }

  function UnseenIn(log: seq<Turn>): nat {
    if log == [] then 0 else UnseenIn(log[..|log| - 1]) + if Unseen(log[|log| - 1]) then 1 else 0
  }

  function BorrowedIn(log: seq<Turn>): nat {
    if log == [] then 0 else BorrowedIn(log[..|log| - 1]) + if Borrowed(log[|log| - 1]) then 1 else 0
  }

  /** The count is what the sweep did, less what it could not confirm, plus what it confirmed although somebody else did
      it; and what it could not confirm it reported as an error. */
  lemma {:induction false} CountBalances(log: seq<Turn>)
    requires AllOk(log)
    ensures CountedIn(log) + UnseenIn(log) == AppliedIn(log) + BorrowedIn(log)
    ensures UnseenIn(log) <= FailedIn(log)
  {
    if log != [] {
      CountBalances(log[..|log| - 1]);
    }
  }

  /** A turn counts a row it did not expire only if somebody else expired it between its COMMIT and its read. */
  lemma BorrowedFromSomebody(t: Turn)
    requires TurnOk(t) && Borrowed(t)
    ensures t.row.Some? && t.row.value in t.stored.uploads && t.stored.uploads[t.row.value].state.Pending?
    ensures t.row.value in t.over.uploads && t.over.uploads[t.row.value].state.Expired?
  {
  }

  /** The turns follow one another, from `start` to `end`, and nobody else writes. */
  ghost predicate Alone(log: seq<Turn>, start: Db, end: Db) {
    if log == [] then start == end
    else
      var t := log[|log| - 1];
      t.over == end && t.stored == t.over && Alone(log[..|log| - 1], start, t.met)
  }

  function PendingIds(uploads: map<Uuid, Upload>): set<Uuid> {
    set id | id in uploads && uploads[id].state.Pending?
  }

  /** The row is untouched, or was due at the clock of a turn and expired at it. */
  ghost predicate Swept(u: Upload, v: Upload, log: seq<Turn>) {
    v == u || exists i :: 0 <= i < |log| && ExpiryDue(u, log[i].now) && v == MadeElapsed(u, log[i].now)
  }

  lemma TurnShrinks(t: Turn)
    requires TurnOk(t) && t.stored == t.over
    ensures |PendingIds(t.over.uploads)| + (if t.applied then 1 else 0) == |PendingIds(t.met.uploads)|
    ensures t.over.uploads.Keys == t.met.uploads.Keys
    ensures !Borrowed(t)
  {
    if t.applied {
      assert PendingIds(t.over.uploads) == PendingIds(t.met.uploads) - {t.row.value};
    }
  }

  /** A sweep that nobody interferes with: the pending rows shrink by what it applied, which is at least what it
      counted and at most that plus its errors; the two are equal exactly when no commit it could not confirm was
      applied. */
  lemma {:induction false} AloneTheCountIsClose(log: seq<Turn>, start: Db, end: Db)
    requires AllOk(log) && Alone(log, start, end)
    ensures |PendingIds(end.uploads)| + AppliedIn(log) == |PendingIds(start.uploads)|
    ensures BorrowedIn(log) == 0
    ensures CountedIn(log) <= AppliedIn(log) <= CountedIn(log) + FailedIn(log)
    ensures CountedIn(log) == AppliedIn(log) <==> UnseenIn(log) == 0
  {
    CountBalances(log);
    if log != [] {
      var rest, t := log[..|log| - 1], log[|log| - 1];
      AloneTheCountIsClose(rest, start, t.met);
      TurnShrinks(t);
    }
  }

  /** And each row is untouched, or was due at the clock of a turn and expired at it. */
  lemma {:induction false} AloneRowsExpire(log: seq<Turn>, start: Db, end: Db)
    requires AllOk(log) && Alone(log, start, end)
    ensures end.uploads.Keys == start.uploads.Keys
    ensures forall id | id in start.uploads :: Swept(start.uploads[id], end.uploads[id], log)
  {
    if log != [] {
      var rest, t := log[..|log| - 1], log[|log| - 1];
      AloneRowsExpire(rest, start, t.met);
      assert TurnOk(t);
      forall id | id in start.uploads ensures Swept(start.uploads[id], end.uploads[id], log) {
        OneMoreTurn(start.uploads[id], t.met.uploads[id], rest, t);
        if t.applied && t.row == Some(id) {
          assert t.met.uploads[id] == start.uploads[id];
          assert log[|log| - 1].now == t.now;
        }
      }
    }
  }

  lemma OneMoreTurn(u: Upload, v: Upload, rest: seq<Turn>, t: Turn)
    requires Swept(u, v, rest)
    ensures Swept(u, v, rest + [t])
    ensures v.state.Pending? ==> v == u
  {
    if v != u {
      var i :| 0 <= i < |rest| && ExpiryDue(u, rest[i].now) && v == MadeElapsed(u, rest[i].now);
      assert (rest + [t])[i] == rest[i];
    }
  }
}
