/** The expiry sweep among others that keep to the guarantee: an expiry it stored is confirmed by every later read,
    so it goes uncounted only when the read itself fails, and then it is an error. */
module ExpirySweep {
  import opened Types
  import opened Schema
  import opened Transactions
  import opened DbInvariant
  import opened TransactionProofs
  import opened Safety
  import opened ExpiryTurns

  lemma StoredIsConfirmed(t: Turn)
    requires TurnOk(t) && t.applied && DbInv(t.met, t.now) && Permanent(t.stored, t.over)
    ensures ExpiryConfirmed(t.over, t.row.value, t.met.uploads[t.row.value].horizon)
  {
    var id := t.row.value;
    assert UploadRowOk(id, t.met.uploads[id]);
    OpenUploadHasNoTombstones(t.met, t.now, id, Staging(id));
  }

  /** Each turn meets tables that keep the invariant, and what others write within it is permanent in the same sense. */
  ghost predicate AmongOthers(log: seq<Turn>) {
    log != [] ==>
      var t := log[|log| - 1];
      AmongOthers(log[..|log| - 1]) && DbInv(t.met, t.now) && Permanent(t.stored, t.over)
  }

  function ReadsFailed(o: SweepOracle, log: seq<Turn>): nat {
    if log == [] then 0
    else ReadsFailed(o, log[..|log| - 1]) + if Unseen(log[|log| - 1]) && o.readFails(|log| - 1) then 1 else 0
  }

  /** Every expiry the sweep stored is counted, or its confirming read failed. */
  lemma {:induction false} NothingElseIsLost(o: SweepOracle, start: Db, log: seq<Turn>)
    requires Sequence(o, start, log) && AmongOthers(log)
    ensures AppliedIn(log) + BorrowedIn(log) == CountedIn(log) + ReadsFailed(o, log)
  {
    if log != [] {
      var rest, t := log[..|log| - 1], log[|log| - 1];
      SequencePrefix(o, start, log, |log| - 1);
      assert InSequence(o, start, log, |log| - 1);
      NothingElseIsLost(o, start, rest);
      if t.applied && !t.acked { StoredIsConfirmed(t); }
    }
  }

  /** No row of a run is ever due and beyond expiring: the transaction of a turn meets no conflicting tombstone. */
  lemma TurnsNeverConflict(t: Turn)
    requires TurnOk(t) && t.row.Some? && DbInv(t.met, t.now)
    ensures TxExpirePending(t.met, t.now, t.row.value).Changed?
  {
    ExpirePendingKeeps(t.met, t.now, t.row.value);
  }
}
