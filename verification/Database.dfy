/** The transactions as they run: statement by statement over the three tables, in place, with rollback.
    `now` is the clock sampled under the row lock; what a SELECT ... LIMIT 1 returned is a parameter. */
module Database {
  import opened Types
  import opened Transactions
  import opened ExpiryTurns
  import Backoff

  const EXPIRY_BATCH: nat := 100

  datatype Target = Target(key: Key, candidateSha: Option<Digest>, deleteNotBefore: Time)

  function Keys(targets: seq<Target>): set<Key> {
    set t | t in targets :: t.key
  }

  /** A target says what its key and the commit clock determine. */
  predicate Targeted(targets: seq<Target>, horizon: Time, now: Time) {
    forall t | t in targets :: t.candidateSha == DigestOf(t.key) && t.deleteNotBefore == NotBefore(t.key, horizon, now)
  }

  predicate SortedByKey(targets: seq<Target>) {
    forall i, j | 0 <= i < j < |targets| :: targets[i].key == targets[j].key || KeyLess(targets[i].key, targets[j].key)
  }

  function InsertSorted(t: Target, rest: seq<Target>): (r: seq<Target>)
    requires SortedByKey(rest)
    ensures SortedByKey(r) && |r| == |rest| + 1
    ensures forall x :: x in r <==> x == t || x in rest
  {
    if rest == [] || t.key == rest[0].key || KeyLess(t.key, rest[0].key) then
      var r := [t] + rest;
      assert forall j | 0 < j < |r| :: r[j] == rest[j - 1];
      r
    else
      var tail := InsertSorted(t, rest[1..]);
      assert forall j | 0 <= j < |tail| :: tail[j] in tail;
      assert forall j | 0 < j < |rest| ::
          rest[j] == rest[1..][j - 1] && (KeyLess(rest[0].key, rest[j].key) || rest[0].key == rest[j].key);
      [rest[0]] + tail
  }

  /** sort.Slice by object key. */
  function Sorted(targets: seq<Target>): (r: seq<Target>)
    ensures SortedByKey(r) && |r| == |targets|
    ensures forall x :: x in r <==> x in targets
  {
    if targets == [] then [] else InsertSorted(targets[0], Sorted(targets[1..]))
  }

  /** sameCandidateList: the index loop with its early return decides equality of the two lists. */
  method SameCandidateList(left: seq<TrackedCandidate>, right: seq<TrackedCandidate>) returns (same: bool)
    ensures same <==> left == right
  {
    if |left| != |right| {
      return false;
    }
    for index := 0 to |left|
      invariant left[..index] == right[..index]
    {
      if left[index] != right[index] {
        return false;
      }
    }
    return true;
  }

  /** The search of transitionFinalizeReady for its selected candidate. */
  method Contains(rows: seq<TrackedCandidate>, selected: TrackedCandidate) returns (found: bool)
    ensures found <==> selected in rows
  {
    found := false;
    for i := 0 to |rows|
      invariant found <==> selected in rows[..i]
    {
      if rows[i] == selected {
        found := true;
      }
    }
  }

  /** The loop of terminalTombstones over the candidate rows, then its sort. */
  method UnselectedTargets(now: Time, id: Uuid, parent: Upload, rows: seq<TrackedCandidate>, selected: Option<Key>,
                           ghost shas: seq<Digest>)
    returns (targets: seq<Target>)
    requires parent.stagingKey == Staging(id) && |shas| == |rows|
    requires forall i | 0 <= i < |rows| ::
              rows[i].objectKey == Media(CandidateId(id, shas[i])) && rows[i].sha256 == shas[i]
    ensures Keys(targets) == Listed(id, shas, selected)
    ensures Targeted(targets, parent.horizon, now) && SortedByKey(targets)
  {
    targets := [Target(parent.stagingKey, None, parent.horizon)];
    assert Keys(targets) == Listed(id, [], selected);
    for i := 0 to |rows|
      invariant Targeted(targets, parent.horizon, now)
      invariant Keys(targets) == Listed(id, shas[..i], selected)
    {
      ListedMore(id, shas, i, selected);
      if Some(rows[i].objectKey) != selected {
        var target := Target(rows[i].objectKey, Some(rows[i].sha256), now);
        KeysMore(targets, target);
        targets := targets + [target];
      }
    }
    assert shas[..|rows|] == shas;
    targets := Sorted(targets);
  }

  /** A finalizer's claim; renewal moves its expiry in place. */
  class FinalizeClaim {
    const upload: Uuid
    const token: Uuid
    var expiresAt: Time

    constructor (upload: Uuid, token: Uuid, expiresAt: Time)
      ensures this.upload == upload && this.token == token && this.expiresAt == expiresAt
    {
      this.upload, this.token, this.expiresAt := upload, token, expiresAt;
    }
  }

  class Tables {
    var uploads: map<Uuid, Upload>
    var candidates: map<CandidateId, CandidateRow>
    var tombstones: map<Key, Tombstone>

    function Db(): Db
      reads this
    {
      Types.Db.Db(uploads, candidates, tombstones)
    }

    constructor ()
      ensures Db() == Types.Db.Db(map[], map[], map[])
    {
      uploads, candidates, tombstones := map[], map[], map[];
    }

    ghost predicate KeyChecks()
      reads this
    {
      KeysFit(Db())
    }

    method Rollback(saved: Db)
      modifies this
      ensures Db() == saved
    {
      uploads, candidates, tombstones := saved.uploads, saved.candidates, saved.tombstones;
    }

    // ------------------------------------------------------------- claims

    /** `row` is the answer of the ordered, lock-skipping SELECT. */
    method ClaimNextFinalizing(now: Time, token: Uuid, lease: int, row: Option<Uuid>) returns (claim: FinalizeClaim?)
      requires row.Some? ==> row.value in uploads && ClaimDue(uploads[row.value], now)
      modifies this`uploads
      ensures row.None? <==> claim == null
      ensures row.None? ==> Db() == old(Db())
      ensures row.Some? ==> Db() == TxClaim(old(Db()), now, row.value, token, lease)
      ensures row.Some? ==> fresh(claim) && claim.upload == row.value && claim.token == token
      ensures row.Some? ==>
                (Live(Db(), now, claim.upload, token) <==> now < claim.expiresAt) && claim.expiresAt == now + lease
    {
      if row.None? {
        return null;
      }
      claim := new FinalizeClaim(row.value, token, now + lease);
      var u := uploads[claim.upload];
      uploads := uploads[claim.upload := u.(claimToken := Some(token), claimExpiresAt := Some(claim.expiresAt))];
    }

    /** lockFinalizeParent. */
    method LockFinalizeParent(now: Time, id: Uuid, token: Uuid) returns (parent: Option<Upload>)
      ensures parent.Some? <==> Live(Db(), now, id, token)
      ensures parent.Some? ==> parent.value == uploads[id]
    {
      if id !in uploads || !uploads[id].state.Finalizing? || uploads[id].claimToken != Some(token) {
        return None;
      }
      var claimExpiresAt := uploads[id].claimExpiresAt;
      if claimExpiresAt.None? || claimExpiresAt.value <= now {
        return None;
      }
      return Some(uploads[id]);
    }

    method RenewFinalizeClaim(now: Time, claim: FinalizeClaim, lease: int) returns (active: bool)
      modifies this`uploads, claim
      ensures active <==> Live(old(Db()), now, claim.upload, claim.token)
      ensures active ==>
                Db() == TxRenew(old(Db()), now, claim.upload, claim.token, lease) && claim.expiresAt == now + lease
      ensures !active ==> Db() == old(Db()) && claim.expiresAt == old(claim.expiresAt)
    {
      var parent := LockFinalizeParent(now, claim.upload, claim.token);
      if parent.None? {
        return false;
      }
      uploads := uploads[claim.upload := parent.value.(claimExpiresAt := Some(now + lease))];
      claim.expiresAt := now + lease;
      return true;
    }

    method ScheduleFinalizeRetry(now: Time, id: Uuid, token: Uuid, kind: ErrorClass) returns (applied: bool)
      modifies this`uploads
      ensures applied <==> Live(old(Db()), now, id, token)
      ensures Db() == if applied then TxRetry(old(Db()), now, id, token, kind) else old(Db())
    {
      var parent := LockFinalizeParent(now, id, token);
      if parent.None? {
        return false;
      }
      var streak := parent.value.failureStreak + 1;
      uploads := uploads[id := parent.value.(
        reconcileAfter := Some(now + Backoff.FinalizerRetryDelay(streak, kind)),
        failureStreak := streak,
        lastFailureClass := Some(kind),
        lastFailureAt := Some(now),
        claimToken := None,
        claimExpiresAt := None)];
      return true;
    }

    // --------------------------------------------------------- candidates

    /** The body of registerCandidate: INSERT ... ON CONFLICT DO NOTHING, read back, compare. */
    method InsertCandidate(now: Time, id: Uuid, token: Uuid, t: TrackedCandidate) returns (active: bool, mismatch: bool)
      modifies this`candidates
      ensures match TxRegister(old(Db()), now, id, token, t)
              case NotActive => !active && !mismatch && Db() == old(Db())
              case Mismatch => active && mismatch && Db() == old(Db())
              case Stored(db) => active && !mismatch && Db() == db
    {
      var parent := LockFinalizeParent(now, id, token);
      if parent.None? {
        return false, false;
      }
      var c := CandidateId(id, t.sha256);
      if c !in candidates {
        candidates := candidates[c := CandidateRow(t, now)];
      }
      return true, candidates[c].tracked != t;
    }

    // --------------------------------------------------- terminal commits

    /** terminalTombstones: staging and every candidate but the selected one, sorted by key. */
    method TerminalTombstones(now: Time, id: Uuid, parent: Upload, selected: Option<Key>) returns (targets: seq<Target>)
      requires KeyChecks() && parent.stagingKey == Staging(id)
      ensures Keys(targets) == TargetKeys(Db(), id, selected)
      ensures Targeted(targets, parent.horizon, now) && SortedByKey(targets)
    {
      var rows := CandidateList(Db(), id);
      ghost var shas := Ascending(OwnShas(Db(), id));
      forall i | 0 <= i < |rows| ensures rows[i].objectKey == Media(CandidateId(id, shas[i]))
          && rows[i].sha256 == shas[i] {
        assert CandidateId(id, shas[i]) in candidates;
      }
      targets := UnselectedTargets(now, id, parent, rows, selected, shas);
      ListedAll(Db(), id, selected);
    }

    /** ensureTombstones: each target is inserted unless its key exists, and then the stored row must cover it. */
    method EnsureTombstones(now: Time, id: Uuid, horizon: Time, targets: seq<Target>) returns (ok: bool)
      requires Targeted(targets, horizon, now)
      modifies this`tombstones
      ensures ok <==> !Conflicts(old(Db()), id, horizon, now, Keys(targets))
      ensures ok ==> tombstones == WithTombstones(old(tombstones), id, horizon, now, Keys(targets))
    {
      ghost var before := Db();
      for i := 0 to |targets|
        invariant uploads == old(uploads) && candidates == old(candidates)
        invariant tombstones == WithTombstones(before.tombstones, id, horizon, now, Keys(targets[..i]))
        invariant !Conflicts(before, id, horizon, now, Keys(targets[..i]))
      {
        var target := targets[i];
        OneMoreTarget(before, id, horizon, now, targets, i);
        OneMoreKey(before.tombstones, id, horizon, now, Keys(targets[..i]), target.key);
        if target.key !in tombstones {
          tombstones := tombstones[target.key :=
            Tombstone(id, target.candidateSha, now, target.deleteNotBefore, target.deleteNotBefore, None, None, 0,
                None, None)];
        }
        var stored := tombstones[target.key];
        if stored.upload != id || stored.candidateSha != target.candidateSha
            || stored.deleteNotBefore < target.deleteNotBefore {
          assert target in targets && target.key in Keys(targets) && target.key in before.tombstones;
          return false;
        }
      }
      assert targets[..|targets|] == targets;
      return true;
    }

    /** Both steps of retiring keys in one transaction; a conflict undoes what was inserted. */
    method RetireKeys(now: Time, id: Uuid, parent: Upload, selected: Option<Key>) returns (ok: bool)
      requires KeyChecks() && parent.stagingKey == Staging(id)
      modifies this`tombstones
      ensures ok <==> !Conflicts(old(Db()), id, parent.horizon, now, TargetKeys(old(Db()), id, selected))
      ensures tombstones == if ok
                            then WithTombstones(old(tombstones), id, parent.horizon, now,
                                TargetKeys(old(Db()), id, selected))
                            else old(tombstones)
    {
      ghost var before := Db();
      var saved := tombstones;
      var targets := TerminalTombstones(now, id, parent, selected);
      ok := EnsureTombstones(now, id, parent.horizon, targets);
      if !ok {
        tombstones := saved;
      }
    }

    method TransitionFinalizeReady(now: Time, id: Uuid, token: Uuid, selected: TrackedCandidate)
      returns (committed: bool, defect: Option<Defect>)
      requires KeyChecks()
      modifies this
      ensures match TxReady(old(Db()), now, id, token, selected)
              case Inactive => !committed && defect == None && Db() == old(Db())
              case Broken(why) => !committed && defect == Some(why) && Db() == old(Db())
              case Changed(db) => committed && defect == None && Db() == db
      ensures committed ==> selected in CandidateList(old(Db()), id) && selected.objectKey !in old(tombstones)
      ensures defect == Some(CandidateNotTracked) <==>
                Live(old(Db()), now, id, token) && selected !in CandidateList(old(Db()), id)
    {
      var parent := LockFinalizeParent(now, id, token);
      if parent.None? {
        return false, None;
      }
      ListShowsTracked(Db(), id, selected);
      var found := Contains(CandidateList(Db(), id), selected);
      if !found {
        return false, Some(CandidateNotTracked);
      }
      if selected.objectKey in tombstones {
        return false, Some(SelectedTombstoned);
      }
      var ok := RetireKeys(now, id, parent.value, Some(selected.objectKey));
      if !ok {
        return false, Some(ConflictingTombstone);
      }
      uploads := uploads[id := parent.value.(state := Ready, reconcileAfter := None, claimToken := None,
                                             claimExpiresAt := None, terminalAt := Some(now),
                                             finalKey := Some(selected.objectKey))];
      return true, None;
    }

    method TransitionFinalizeRejected(now: Time, id: Uuid, token: Uuid, f: Failure)
      returns (committed: bool, defect: Option<Defect>)
      requires KeyChecks()
      modifies this
      ensures match TxReject(old(Db()), now, id, token, f)
              case Inactive => !committed && defect == None && Db() == old(Db())
              case Broken(why) => !committed && defect == Some(why) && Db() == old(Db())
              case Changed(db) => committed && defect == None && Db() == db
    {
      var parent := LockFinalizeParent(now, id, token);
      if parent.None? {
        return false, None;
      }
      var ok := RetireKeys(now, id, parent.value, None);
      if !ok {
        return false, Some(ConflictingTombstone);
      }
      uploads := uploads[id := parent.value.(state := Rejected, reconcileAfter := None, claimToken := None,
                                             claimExpiresAt := None, terminalAt := Some(now),
                                             rejectionClass := Some(f.kind), rejectionReason := Some(f.reason),
                                             rejectionPolicy := Some(1), rejectionPhase := Some(f.phase),
                                             rejectionEvidence := Some(f.evidence))];
      return true, None;
    }

    method TransitionFinalizeExpiredMissing(now: Time, id: Uuid, token: Uuid, horizon: Time,
                                            observed: seq<TrackedCandidate>)
      returns (committed: bool, defect: Option<Defect>)
      requires KeyChecks()
      modifies this
      ensures match TxExpireMissing(old(Db()), now, id, token, horizon, observed)
              case Inactive => !committed && defect == None && Db() == old(Db())
              case Broken(why) => !committed && defect == Some(why) && Db() == old(Db())
              case Changed(db) => committed && defect == None && Db() == db
      ensures committed || defect.Some? <==>
                && Live(old(Db()), now, id, token) && old(uploads)[id].horizon == horizon <= now
                && old(uploads)[id].deadline <= now && CandidateList(old(Db()), id) == observed
    {
      var parent := LockFinalizeParent(now, id, token);
      if parent.None? {
        return false, None;
      }
      if parent.value.horizon != horizon || now < parent.value.deadline || now < parent.value.horizon {
        return false, None;
      }
      var same := SameCandidateList(CandidateList(Db(), id), observed);
      if !same {
        return false, None;
      }
      var ok := RetireKeys(now, id, parent.value, None);
      if !ok {
        return false, Some(ConflictingTombstone);
      }
      uploads := uploads[id := parent.value.(state := Expired, reconcileAfter := None, claimToken := None,
                                             claimExpiresAt := None, terminalAt := Some(now),
                                             expiryReason := Some(StagingMissingAfterWriteWindow))];
      return true, None;
    }

    /** transitionPendingExpiredLocked: the row first, then its staging tombstone. */
    method TransitionPendingExpired(now: Time, id: Uuid) returns (applied: bool, defect: Option<Defect>)
      requires id in uploads && KeyChecks()
      modifies this
      ensures match TxExpirePending(old(Db()), now, id)
              case Inactive => !applied && defect == None && Db() == old(Db())
              case Broken(why) => !applied && defect == Some(why) && Db() == old(Db())
              case Changed(db) => applied && defect == None && Db() == db
    {
      var saved := Db();
      var u := uploads[id];
      if !u.state.Pending? || now < u.deadline {
        return false, None;
      }
      uploads := uploads[id := u.(state := Expired, terminalAt := Some(now),
          expiryReason := Some(UploadDeadlineElapsed))];
      var targets := [Target(u.stagingKey, None, u.horizon)];
      assert Keys(targets) == {Staging(id)};
      var ok := EnsureTombstones(now, id, u.horizon, targets);
      if !ok {
        Rollback(saved);
        return false, Some(ConflictingTombstone);
      }
      return true, None;
    }

    /** SELECT ... ORDER BY upload_deadline, upload_id FOR UPDATE SKIP LOCKED LIMIT 1. */
    method NextPendingExpiry(now: Time, locked: set<Uuid>) returns (row: Option<Uuid>)
      ensures row.None? <==> NothingDue(Db(), now, locked)
      ensures row.Some? ==> NextExpiry(Db(), now, locked, row.value)
      ensures row.Some? ==> uploads[row.value].state.Pending? && uploads[row.value].deadline <= now
      ensures forall j | j in uploads && j !in locked && uploads[j].state.Pending? && uploads[j].deadline <= now ::
                && row.Some? && uploads[row.value].deadline <= uploads[j].deadline
                && (uploads[row.value].deadline == uploads[j].deadline ==> row.value <= j)
    {
      row := None;
      var rest := set id | id in uploads && id !in locked && ExpiryDue(uploads[id], now);
      ghost var due := rest;
      while rest != {}
        invariant rest <= due && (row.Some? ==> row.value in due - rest) && (row.None? ==> rest == due)
        invariant row.Some? ==> forall j | j in due - rest && j != row.value ::
                    Earlier(uploads[row.value].deadline, row.value, uploads[j].deadline, j)
        decreases rest
      {
        var id :| id in rest;
        rest := rest - {id};
        if row.None? || Earlier(uploads[id].deadline, id, uploads[row.value].deadline, row.value) {
          row := Some(id);
        }
      }
      assert forall id | id in uploads && id !in locked && ExpiryDue(uploads[id], now) :: id in due;
    }

    /** expireNextPendingUpload, as turn n of a sweep. An unanswered COMMIT is followed by a read, before which
        others may write, and which may fail. */
    method ExpireNextPendingUpload(o: SweepOracle, n: nat) returns (report: Report, ghost turn: Turn)
      requires KeyChecks() && PreservesKeys(o)
      modifies this
      ensures KeyChecks() && TurnOk(turn) && Prescribed(o, n, turn)
      ensures turn.met == old(Db()) && turn.over == Db() && turn.report == report
    {
      ghost var met, now := Db(), o.clock(n);
      if o.fails(n) {
        return Errored, Turn(now, met, None, false, false, met, met, Errored);
      }
      var row := NextPendingExpiry(o.clock(n), o.locked(n));
      if row.None? {
        return NoneDue, Turn(now, met, None, false, false, met, met, NoneDue);
      }
      report, turn := ExpireRow(o, n, row.value);
    }

    method ExpireRow(o: SweepOracle, n: nat, id: Uuid) returns (report: Report, ghost turn: Turn)
      requires KeyChecks() && PreservesKeys(o) && !o.fails(n) && NextExpiry(Db(), o.clock(n), o.locked(n), id)
      modifies this
      ensures KeyChecks() && TurnOk(turn) && Prescribed(o, n, turn)
      ensures turn.met == old(Db()) && turn.over == Db() && turn.report == report
    {
      var saved, horizon, fate := Db(), uploads[id].horizon, o.fate(n);
      ghost var now := o.clock(n);
      var applied, why := TransitionPendingExpired(o.clock(n), id);
      if !applied {
        return Errored, Turn(now, saved, Some(id), false, false, saved, saved, Errored);
      }
      if fate.Acked? {
        return Processed, Turn(now, saved, Some(id), true, true, Db(), Db(), Processed);
      }
      if !Applied(fate) {
        Rollback(saved);
      }
      ghost var stored := Db();
      Rollback(o.beforeRead(n, Db()));
      report := if !o.readFails(n) && ExpiryConfirmed(Db(), id, horizon) then Processed else Errored;
      turn := Turn(now, saved, Some(id), Applied(fate), false, stored, Db(), report);
    }

    /** Others write, and then comes the next turn of the sweep. */
    method NextTurn(o: SweepOracle, n: nat, ghost start: Db, ghost log: seq<Turn>)
      returns (report: Report, ghost more: seq<Turn>)
      requires KeyChecks() && PreservesKeys(o)
      requires Sequence(o, start, log) && Db() == EndOf(start, log) && |log| == n
      modifies this
      ensures KeyChecks() && Sequence(o, start, more) && Db() == EndOf(start, more) && |more| == n + 1
      ensures more[n].report == report
      ensures CountedIn(more) == CountedIn(log) + if report.Processed? then 1 else 0
      ensures FailedIn(more) == FailedIn(log) + if report.Errored? then 1 else 0
      ensures report.NoneDue? ==> NothingDue(Db(), o.clock(n), o.locked(n))
    {
      Rollback(o.beforeTurn(n, Db()));
      ghost var turn: Turn;
      report, turn := ExpireNextPendingUpload(o, n);
      OneMore(o, start, log, turn);
      more := log + [turn];
    }

    /** sweepPendingExpiries, with everybody else writing between its turns and within them. The log tells its
        turns; how its count relates to what it did is CountBalances and AloneTheCountIsClose. */
    method SweepPendingExpiries(o: SweepOracle) returns (processed: nat, errors: nat, ghost log: seq<Turn>)
      requires KeyChecks() && PreservesKeys(o)
      modifies this
      ensures KeyChecks() && 1 <= |log| <= EXPIRY_BATCH && Sequence(o, old(Db()), log) && Db() == EndOf(old(Db()), log)
      ensures processed == CountedIn(log) && errors == FailedIn(log) <= 1 && |log| <= processed + 1
      ensures log[|log| - 1].report.Processed? ==> |log| == EXPIRY_BATCH
      ensures processed < EXPIRY_BATCH && errors == 0 ==> NothingDue(Db(), o.clock(|log| - 1), o.locked(|log| - 1))
    {
      processed, errors, log := 0, 0, [];
      while processed < EXPIRY_BATCH
        invariant KeyChecks() && processed <= EXPIRY_BATCH && errors == 0 && |log| == processed
        invariant Sequence(o, old(Db()), log) && Db() == EndOf(old(Db()), log)
        invariant processed == CountedIn(log) && errors == FailedIn(log)
      {
        var report: Report;
        report, log := NextTurn(o, processed, old(Db()), log);
        if report.Errored? {
          errors := errors + 1;
          break;
        }
        if report.NoneDue? {
          break;
        }
        processed := processed + 1;
      }
    }

    // ---------------------------------------------------------- API calls

    /** `taken` is whether the insert met its idempotency key. */
    method InsertUpload(now: Time, cmd: Command, id: Uuid, expiresAt: Time) returns (inserted: bool)
      requires id !in uploads
      modifies this`uploads
      ensures inserted <==> !Taken(old(Db()), cmd.idempotencyKey)
      ensures inserted ==> TxInsert(old(Db()), now, cmd, id, expiresAt) == Some(Db())
      ensures !inserted ==> Db() == old(Db())
    {
      if exists i | i in uploads :: uploads[i].idempotencyKey == cmd.idempotencyKey {
        return false;
      }
      uploads := uploads[id := NewUpload(cmd, id, now, expiresAt)];
      return true;
    }

    /** authorizeReplay up to its COMMIT: `id` is the row the idempotency key locked, `expected` and `expectedKey`
        what the caller had read before. GREATEST(max_write_expires_at, expiry). */
    method AuthorizeReplay(now: Time, id: Uuid, cmd: Command, expected: Uuid, expectedKey: Key, expiresAt: Time)
      returns (authorized: bool)
      requires id in uploads
      modifies this`uploads
      ensures authorized <==>
                && old(uploads)[id].declaredSize == cmd.size && old(uploads)[id].declaredType == cmd.contentType
                && id == expected && old(uploads)[id].stagingKey == expectedKey
                && !Terminal(old(uploads)[id].state) && now < old(uploads)[id].deadline
      ensures authorized ==> Db() == TxReplay(old(Db()), id, expiresAt) && uploads[id].horizon >= expiresAt
      ensures !authorized ==> Db() == old(Db())
    {
      var u := uploads[id];
      if u.declaredSize != cmd.size || u.declaredType != cmd.contentType {
        return false;
      }
      if id != expected || u.stagingKey != expectedKey || !(u.state.Pending? || u.state.Finalizing?)
          || u.deadline <= now {
        return false;
      }
      uploads := uploads[id := u.(horizon := if u.horizon < expiresAt then expiresAt else u.horizon)];
      return true;
    }

    /** The switch of completeUploadAttempt over the locked row. */
    method CompleteUpload(now: Time, id: Uuid)
      returns (moved: bool, transition: Option<Transition>, defect: Option<Defect>)
      requires id in uploads && KeyChecks()
      modifies this
      ensures match TxComplete(old(Db()), now, id)
              case Settled => !moved && transition == None && defect == None && Db() == old(Db())
              case Failed => !moved && transition == None && defect.Some? && Db() == old(Db())
              case Moved(db, t) => moved && transition == t && defect == None && Db() == db
    {
      var u := uploads[id];
      moved, transition, defect := false, None, None;
      match u.state
      case Pending =>
        if now < u.deadline {
          uploads := uploads[id := u.(state := Finalizing, completionRequestedAt := Some(now),
              reconcileAfter := Some(now))];
          return true, Some(PendingToFinalizing), None;
        }
        var applied, why := TransitionPendingExpired(now, id);
        return applied, if applied then Some(PendingToExpired) else None, why;
      case Finalizing =>
        var due := if u.reconcileAfter.Some? && u.reconcileAfter.value < now then u.reconcileAfter.value else now;
        uploads := uploads[id := u.(reconcileAfter := Some(due))];
        return true, None, None;
      case _ =>
    }

    // ------------------------------------------------------------ cleanup

    /** `row` is the answer of the ordered, lock-skipping SELECT over due tombstones. */
    method ReserveNextCleanup(now: Time, token: Uuid, row: Option<Key>) returns (reserved: bool)
      requires row.Some? ==> row.value in tombstones && CleanupDue(Db(), now, row.value)
      modifies this`tombstones
      ensures reserved <==> row.Some?
      ensures Db() == if row.Some? then TxReserve(old(Db()), now, row.value, token) else old(Db())
      ensures row.Some? ==>
                tombstones == old(tombstones)[row.value := old(tombstones)[row.value].(
                  reservationToken := Some(token), reservationExpiresAt := Some(now + 30 * SECOND))]
    {
      if row.None? {
        return false;
      }
      var t := tombstones[row.value];
      tombstones := tombstones[row.value := t.(reservationToken := Some(token),
          reservationExpiresAt := Some(now + RESERVATION_LEASE))];
      return true;
    }

    method ApplyCleanupResult(now: Time, k: Key, token: Uuid, result: CleanupResult) returns (applied: bool)
      modifies this`tombstones
      ensures applied <==> TxApply(old(Db()), now, k, token, result).Some?
      ensures Db() == if applied then TxApply(old(Db()), now, k, token, result).value else old(Db())
      ensures applied ==>
                var t, u := old(tombstones)[k], tombstones[k];
                && u.lastAttemptAt == Some(now) && u.lastResult == Some(result)
                && u.reservationToken == None && u.reservationExpiresAt == None
                && u.failureStreak == (if result.DeleteError? then t.failureStreak + 1 else 0)
                && (!result.DeleteError? ==> u.nextAttemptAt == now + DAY)
    {
      if k !in tombstones || tombstones[k].reservationToken != Some(token) {
        return false;
      }
      var t := tombstones[k];
      var streak, delay := 0, DAY;
      if result.DeleteError? {
        streak := t.failureStreak + 1;
        delay := Backoff.CleanupRetryDelay(streak, result.kind);
      }
      tombstones := tombstones[k := t.(
        nextAttemptAt := now + delay,
        reservationToken := None,
        reservationExpiresAt := None,
        failureStreak := streak,
        lastAttemptAt := Some(now),
        lastResult := Some(result))];
      return true;
    }
  }

  /** Others keep the two CHECK constraints as well: the database enforces them. */
  ghost predicate PreservesKeys(o: SweepOracle) {
    forall n: nat, d | KeysFit(d) :: KeysFit(o.beforeTurn(n, d)) && KeysFit(o.beforeRead(n, d))
  }

  /** The two CHECK constraints that tie an object key to its row. */
  ghost predicate KeysFit(d: Db) {
    && (forall id | id in d.uploads :: d.uploads[id].stagingKey == Staging(id))
    && (forall c | c in d.candidates ::
          d.candidates[c].tracked.sha256 == c.sha256 && d.candidates[c].tracked.objectKey == Media(c))
  }

  /** Adding one key to the tombstones already ensured. */
  lemma OneMoreKey(ts: map<Key, Tombstone>, id: Uuid, horizon: Time, now: Time, keys: set<Key>, k: Key)
    ensures var done := WithTombstones(ts, id, horizon, now, keys);
            && (k in done && k !in ts ==> done[k] == NewTombstone(k, id, horizon, now))
            && (k in ts ==> k in done && done[k] == ts[k])
            && WithTombstones(ts, id, horizon, now, keys + {k}) ==
               if k in done then done else done[k := NewTombstone(k, id, horizon, now)]
  {
  }

  /** Nothing conflicts exactly when every stored tombstone under a target's key covers that target; what is stored
      stays as it is. */
  lemma CoveredOrConflicting(db: Db, id: Uuid, horizon: Time, now: Time, targets: seq<Target>)
    requires Targeted(targets, horizon, now)
    ensures !Conflicts(db, id, horizon, now, Keys(targets)) <==>
              forall t | t in targets && t.key in db.tombstones ::
                && db.tombstones[t.key].upload == id && db.tombstones[t.key].candidateSha == t.candidateSha
                && db.tombstones[t.key].deleteNotBefore >= t.deleteNotBefore
    ensures var after := WithTombstones(db.tombstones, id, horizon, now, Keys(targets));
            && after.Keys == db.tombstones.Keys + Keys(targets)
            && forall k | k in db.tombstones :: after[k] == db.tombstones[k]
  {
  }

  /** One turn of the ensureTombstones loop, on values. */
  lemma OneMoreTarget(db: Db, id: Uuid, horizon: Time, now: Time, targets: seq<Target>, i: nat)
    requires i < |targets| && Targeted(targets, horizon, now)
    ensures Keys(targets[..i + 1]) == Keys(targets[..i]) + {targets[i].key}
    ensures targets[i].candidateSha == DigestOf(targets[i].key)
              && targets[i].deleteNotBefore == NotBefore(targets[i].key, horizon, now)
  {
  }

  lemma ListShowsTracked(db: Db, id: Uuid, t: TrackedCandidate)
    ensures Tracked(db, id, t) <==> t in CandidateList(db, id)
  {
  }

  /** Staging and the unselected ones of the listed candidates. */
  function Listed(id: Uuid, shas: seq<Digest>, selected: Option<Key>): set<Key> {
    {Staging(id)} + set d | d in shas && Some(Media(CandidateId(id, d))) != selected :: Media(CandidateId(id, d))
  }

  lemma ListedMore(id: Uuid, shas: seq<Digest>, i: nat, selected: Option<Key>)
    requires i < |shas|
    ensures var k := Media(CandidateId(id, shas[i]));
            Listed(id, shas[..i + 1], selected) ==
            Listed(id, shas[..i], selected) + if Some(k) != selected then {k} else {}
  {
  }

  lemma KeysMore(targets: seq<Target>, t: Target)
    ensures Keys(targets + [t]) == Keys(targets) + {t.key}
  {
  }

  lemma ListedAll(db: Db, id: Uuid, selected: Option<Key>)
    ensures Listed(id, Ascending(OwnShas(db, id)), selected) == TargetKeys(db, id, selected)
  {
  }
}
