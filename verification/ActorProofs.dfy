/** Every step of a cleaner, a create or complete call, a client or the network keeps the shared invariant
    and stays within the guarantee. */
module ActorProofs {
  import opened Types
  import opened Schema
  import opened Transactions
  import opened DbInvariant
  import opened TransactionProofs
  import opened World
  import opened Invariant

  /** No claim is taken, nothing is published, and every reservation and upload id was issued. */
  ghost predicate Unclaimed(s: Shared, db: Db, issued: set<Uuid>) {
    && s.issued <= issued
    && (forall id | id in db.uploads :: id in issued)
    && (forall id | id in db.uploads && db.uploads[id].claimToken.Some? ::
          id in s.db.uploads && s.db.uploads[id].claimToken == db.uploads[id].claimToken)
    && (forall id | id in db.uploads && db.uploads[id].finalKey.Some? ::
          id in s.db.uploads && s.db.uploads[id].finalKey == db.uploads[id].finalKey)
    && (forall k | k in db.tombstones && db.tombstones[k].reservationToken.Some? ::
          db.tombstones[k].reservationToken.value in issued)
    && OldReservations(s.db, s.issued, db)
  }

  lemma UnclaimedChange(env: Env, s: Shared, db: Db, issued: set<Uuid>, byUpload: Option<Uuid>)
    requires SharedInv(env, s) && DbInv(db, s.now) && DbStep(s.db, s.now, db, None, byUpload)
    requires Unclaimed(s, db, issued)
    ensures Good(env, s, s.(db := db, issued := issued), None, byUpload)
  {
    DbChange(env, s, db, issued, None, byUpload);
  }

  // ---------------------------------------------------------------- cleaners

  lemma ReserveIssues(env: Env, s: Shared, k: Key, token: Uuid, db: Db)
    requires IssuedInv(s) && k in s.db.tombstones && token !in s.issued
    requires db == s.db || db == TxReserve(s.db, s.now, k, token)
    ensures Unclaimed(s, db, s.issued + {token})
  {
  }

  lemma ReserveChange(env: Env, s: Shared, k: Key, token: Uuid, applied: bool, s': Shared)
    requires SharedInv(env, s) && k in s.db.tombstones && CleanupDue(s.db, s.now, k) && token !in s.issued
    requires s' == s.(issued := s.issued + {token}, db := if applied then TxReserve(s.db, s.now, k, token) else s.db)
    ensures Good(env, s, s', None, None)
  {
    if applied { ReserveKeeps(s.db, s.now, k, token); } else { NothingHappens(s.db, s.now, None, None); }
    ReserveIssues(env, s, k, token, s'.db);
    UnclaimedChange(env, s, s'.db, s'.issued, None);
  }

  lemma ApplyIssues(s: Shared, k: Key, token: Uuid, result: CleanupResult)
    requires IssuedInv(s) && TxApply(s.db, s.now, k, token, result).Some?
    ensures Unclaimed(s, TxApply(s.db, s.now, k, token, result).value, s.issued)
  {
  }

  lemma ApplyChange(env: Env, s: Shared, k: Key, token: Uuid, result: CleanupResult)
    requires SharedInv(env, s) && TxApply(s.db, s.now, k, token, result).Some?
    ensures Good(env, s, WithDb(s, TxApply(s.db, s.now, k, token, result).value), None, None)
  {
    var db := TxApply(s.db, s.now, k, token, result).value;
    ApplyKeeps(s.db, s.now, k, token, result);
    ApplyIssues(s, k, token, result);
    UnclaimedChange(env, s, db, s.issued, None);
    assert WithDb(s, db) == s.(db := db, issued := s.issued);
  }

  lemma DeleteStores(env: Env, s: Shared, l: Cleaner, result: CleanupResult, s': Shared, l': Cleaner)
    requires StorageInv(env, s) && CleanInv(s, l) && CleanStep(s, l, SendDelete(result), s', l')
    ensures StorageStep(env, s, s')
  {
  }

  lemma DeleteChange(env: Env, s: Shared, l: Cleaner, result: CleanupResult, s': Shared, l': Cleaner)
    requires SharedInv(env, s) && CleanInv(s, l) && CleanStep(s, l, SendDelete(result), s', l')
    ensures Good(env, s, s', None, None)
  {
    DeleteStores(env, s, l, result, s', l');
    StorageChange(env, s, s', None);
  }

  lemma CleanStepKeeps(env: Env, s: Shared, l: Cleaner, ev: CleanEvent, s': Shared, l': Cleaner)
    requires SharedInv(env, s) && CleanInv(s, l) && CleanStep(s, l, ev, s', l')
    ensures Good(env, s, s', None, None) && CleanInv(s', l')
  {
    match ev
    case Reserve(k, token, skipped, fate) => ReserveChange(env, s, k, token, Applied(fate), s');
    case SendDelete(result) => DeleteChange(env, s, l, result, s', l');
    case ApplyResult(fate) =>
      if TxApply(s.db, s.now, l.key, l.token, l.result).Some? && Applied(fate) {
        ApplyChange(env, s, l.key, l.token, l.result);
      } else {
        Quiet(env, s, None, None);
      }
    case _ => Quiet(env, s, None, None);
  }

  // ------------------------------------------------------------ create calls

  lemma InsertIssues(s: Shared, cmd: Command, id: Uuid, expiresAt: Time)
    requires IssuedInv(s) && id in s.issued && id !in s.db.uploads && TxInsert(s.db, s.now, cmd, id, expiresAt).Some?
    ensures Unclaimed(s, TxInsert(s.db, s.now, cmd, id, expiresAt).value, s.issued)
  {
  }

  lemma InsertChange(env: Env, s: Shared, cmd: Command, id: Uuid, expiresAt: Time)
    requires SharedInv(env, s) && CommandOk(cmd) && id in s.issued && id !in s.db.uploads
    requires s.now < expiresAt <= s.now + CAPABILITY_LIFE && TxInsert(s.db, s.now, cmd, id, expiresAt).Some?
    ensures Good(env, s, WithDb(s, TxInsert(s.db, s.now, cmd, id, expiresAt).value), None, Some(id))
  {
    var db := TxInsert(s.db, s.now, cmd, id, expiresAt).value;
    InsertKeeps(s.db, s.now, cmd, id, expiresAt);
    InsertIssues(s, cmd, id, expiresAt);
    UnclaimedChange(env, s, db, s.issued, Some(id));
    assert WithDb(s, db) == s.(db := db, issued := s.issued);
  }

  lemma ReplayIssues(s: Shared, id: Uuid, expiresAt: Time)
    requires IssuedInv(s) && id in s.db.uploads
    ensures Unclaimed(s, TxReplay(s.db, id, expiresAt), s.issued)
  {
  }

  lemma ReplayChange(env: Env, s: Shared, id: Uuid, expiresAt: Time)
    requires SharedInv(env, s) && id in s.db.uploads && AcceptsWrites(s.db.uploads[id], s.now)
    requires expiresAt <= s.now + CAPABILITY_LIFE
    ensures Good(env, s, WithDb(s, TxReplay(s.db, id, expiresAt)), None, None)
  {
    var db := TxReplay(s.db, id, expiresAt);
    ReplayKeeps(s.db, s.now, id, expiresAt);
    ReplayIssues(s, id, expiresAt);
    UnclaimedChange(env, s, db, s.issued, None);
    assert WithDb(s, db) == s.(db := db, issued := s.issued);
  }

  lemma HandOutChange(env: Env, s: Shared, id: Uuid, expiresAt: Time)
    requires SharedInv(env, s) && id in s.db.uploads && expiresAt <= s.db.uploads[id].horizon
    ensures Good(env, s, s.(caps := s.caps + {Capability(id, expiresAt)}), None, None)
  {
    NothingHappens(s.db, s.now, None, None);
    var s' := s.(caps := s.caps + {Capability(id, expiresAt)});
    assert StorageInv(env, s') && IssuedInv(s');
  }

  lemma SignChange(env: Env, s: Shared, id: Uuid)
    requires SharedInv(env, s)
    ensures Good(env, s, s.(issued := s.issued + {id}), None, None)
  {
    NothingHappens(s.db, s.now, None, None);
    assert StorageInv(env, s.(issued := s.issued + {id}));
  }

  /** The upload id, if any, that this step can bring into being. */
  function Creating(l: Creator, ev: CreateEvent): Option<Uuid> {
    if ev.InsertRow? && l.Insert? then Some(l.id) else None
  }

  lemma CreateStepShared(env: Env, s: Shared, l: Creator, ev: CreateEvent, s': Shared, l': Creator,
                         ret: Option<CreateReturn>)
    requires SharedInv(env, s) && CreatorInv(s, l) && CreateStep(s, l, ev, s', l', ret)
    ensures Good(env, s, s', None, Creating(l, ev))
  {
    match ev
    case Sign(cmd, id, expiresAt) => SignChange(env, s, id);
    case InsertRow(fate) =>
      if Applied(fate) {
        InsertChange(env, s, l.cmd, l.id, l.expiresAt);
      } else {
        Quiet(env, s, None, Creating(l, ev));
      }
    case LockReplay(existing, fate) =>
      if s' == s { Quiet(env, s, None, None); } else { ReplayChange(env, s, existing, l.expiresAt); }
    case RecoverRead(existing) =>
      if s' == s { Quiet(env, s, None, None); } else { HandOutChange(env, s, existing, l.expiresAt); }
    case HandOver => HandOutChange(env, s, l.id, l.expiresAt);
    case _ => Quiet(env, s, None, None);
  }

  lemma CreateStepFacts(env: Env, s: Shared, l: Creator, ev: CreateEvent, s': Shared, l': Creator,
                        ret: Option<CreateReturn>)
    requires SharedInv(env, s) && CreatorInv(s, l) && CreateStep(s, l, ev, s', l', ret)
    ensures CreatorInv(s', l')
    ensures OwnId(l') == OwnId(l) || OwnId(l') == None || (ev.Sign? && OwnId(l') == Some(ev.id) && ev.id !in s.issued)
  {
  }

  // -------------------------------------------------- completion, environment

  lemma ExpireIssues(s: Shared, id: Uuid)
    requires IssuedInv(s) && id in s.db.uploads && TxExpirePending(s.db, s.now, id).Changed?
    requires s.db.uploads[id].finalKey.None?
    ensures Unclaimed(s, TxExpirePending(s.db, s.now, id).db, s.issued)
  {
  }

  lemma CompleteIssues(s: Shared, id: Uuid)
    requires IssuedInv(s) && id in s.db.uploads && TxComplete(s.db, s.now, id).Moved?
    requires s.db.uploads[id].finalKey.None?
    ensures Unclaimed(s, TxComplete(s.db, s.now, id).db, s.issued)
  {
    if s.db.uploads[id].state.Pending? && s.db.uploads[id].deadline <= s.now {
      ExpireIssues(s, id);
    }
  }

  lemma CompleteChange(env: Env, s: Shared, id: Uuid)
    requires SharedInv(env, s) && id in s.db.uploads && TxComplete(s.db, s.now, id).Moved?
    ensures Good(env, s, WithDb(s, TxComplete(s.db, s.now, id).db), None, None)
  {
    var db := TxComplete(s.db, s.now, id).db;
    CompleteKeeps(s.db, s.now, id);
    assert UploadRowOk(id, s.db.uploads[id]);
    CompleteIssues(s, id);
    UnclaimedChange(env, s, db, s.issued, None);
    assert WithDb(s, db) == s.(db := db, issued := s.issued);
  }

  lemma CompleteStepKeeps(env: Env, s: Shared, l: Completer, ev: CompleteEvent, s': Shared, l': Completer,
                          ret: Option<CompleteReturn>)
    requires SharedInv(env, s) && CompleteStep(s, l, ev, s', l', ret)
    ensures Good(env, s, s', None, None)
  {
    if s' == s { Quiet(env, s, None, None); } else { CompleteChange(env, s, l.upload); }
  }

  lemma ExpireChange(env: Env, s: Shared, id: Uuid)
    requires SharedInv(env, s) && id in s.db.uploads && TxExpirePending(s.db, s.now, id).Changed?
    ensures Good(env, s, WithDb(s, TxExpirePending(s.db, s.now, id).db), None, None)
  {
    var db := TxExpirePending(s.db, s.now, id).db;
    ExpirePendingKeeps(s.db, s.now, id);
    assert UploadRowOk(id, s.db.uploads[id]);
    ExpireIssues(s, id);
    UnclaimedChange(env, s, db, s.issued, None);
    assert WithDb(s, db) == s.(db := db, issued := s.issued);
  }

  lemma TickChange(env: Env, s: Shared, d: nat)
    requires SharedInv(env, s)
    ensures Good(env, s, s.(now := s.now + d), None, None)
  {
    ClockAdvances(s.db, s.now, s.now + d);
    NothingHappens(s.db, s.now, None, None);
    var s' := s.(now := s.now + d);
    assert StorageInv(env, s') && CapsInv(s') && IssuedInv(s');
  }

  lemma SweepChange(env: Env, s: Shared, id: Uuid, applied: bool, s': Shared)
    requires SharedInv(env, s) && EnvStep(s, ExpirySweep(id, applied), s')
    ensures Good(env, s, s', None, None)
  {
    if s' == s { Quiet(env, s, None, None); } else { ExpireChange(env, s, id); }
  }

  lemma RequestStores(env: Env, s: Shared, ev: EnvEvent, s': Shared)
    requires StorageInv(env, s) && CapsInv(s) && EnvStep(s, ev, s') && (ev.ClientPut? || ev.LandPut? || ev.LandDelete?)
    ensures StorageStep(env, s, s')
  {
  }

  lemma RequestChange(env: Env, s: Shared, ev: EnvEvent, s': Shared)
    requires SharedInv(env, s) && EnvStep(s, ev, s') && (ev.ClientPut? || ev.LandPut? || ev.LandDelete?)
    ensures Good(env, s, s', None, None)
  {
    RequestStores(env, s, ev, s');
    StorageChange(env, s, s', None);
  }

  lemma EnvStepKeeps(env: Env, s: Shared, ev: EnvEvent, s': Shared)
    requires SharedInv(env, s) && EnvStep(s, ev, s')
    ensures Good(env, s, s', None, None)
  {
    match ev
    case Tick(d) => TickChange(env, s, d);
    case ExpirySweep(id, applied) => SweepChange(env, s, id, applied, s');
    case _ => RequestChange(env, s, ev, s');
  }
}
