/** The machine is not safe by standing still: every image that meets the policy can be published. The run is the
    sequence of calls a client and one worker make when nothing fails. */
module Publication {
  import opened Types
  import opened Transactions
  import opened Validation
  import opened World
  import opened RunBuilding

  const ID: Uuid := 1
  const TOKEN: Uuid := 2
  const EXPIRY: Time := CAPABILITY_LIFE

  function Around(s: Shared): World {
    World(s, map[0 := Idle, 1 := Idle], map[], map[0 := NoCreate], map[0 := NoComplete], [], [])
  }

  // ------------------------------------------------------------- the client

  function Bucket(data: Bytes): map<Key, Bytes> {
    map[Staging(ID) := data]
  }

  /** After create, the client's PUT and complete: the row waits for a worker. */
  function Asked(cmd: Command): Upload {
    Fresh(cmd).(state := Finalizing, completionRequestedAt := Some(0), reconcileAfter := Some(0))
  }

  function Uploaded(data: Bytes, u: Upload, issued: set<Uuid>): Shared {
    Shared(0, Db(map[ID := u], map[], map[]), Bucket(data), {Put(Staging(ID), data)}, {}, {Capability(ID, EXPIRY)},
        issued)
  }

  function Served(s: Shared, cmd: Command, completer: Completer,
                  completed: seq<CompleteReturn>): World {
    Around(s).(created := [CreateReturn(cmd, ID, true, Some(EXPIRY))], completed := completed,
              completers := map[0 := completer])
  }

  function Fresh(cmd: Command): Upload {
    NewUpload(cmd, ID, 0, EXPIRY)
  }

  function Empty(): Shared {
    Shared(0, Db(map[], map[], map[]), map[], {}, {}, {}, {})
  }

  lemma ClientInserts(env: Env, cmd: Command) returns (ws: seq<World>, es: seq<Event>)
    requires CommandOk(cmd)
    ensures Reaches(env, ws, es, Around(Empty().(issued := {ID}, db := Db(map[ID := Fresh(cmd)], map[], map[])))
                                 .(creators := map[0 := HandOut(cmd, ID, EXPIRY, true)]))
  {
    var w0 := Around(Empty());
    ws, es := [w0], [];
    var s1 := Empty().(issued := {ID});
    var w1 := Around(s1).(creators := map[0 := Insert(cmd, ID, EXPIRY)]);
    assert CreateNext(w0, 0, Sign(cmd, ID, EXPIRY), None, w1);
    ws, es := Move(env, ws, es, w0, Create(0, Sign(cmd, ID, EXPIRY)), w1);
    var s2 := s1.(db := Db(map[ID := Fresh(cmd)], map[], map[]));
    var w2 := Around(s2).(creators := map[0 := HandOut(cmd, ID, EXPIRY, true)]);
    assert CreateNext(w1, 0, InsertRow(Acked), None, w2);
    ws, es := Move(env, ws, es, w1, Create(0, InsertRow(Acked)), w2);
  }

  lemma ClientPuts(env: Env, data: Bytes, cmd: Command) returns (ws: seq<World>, es: seq<Event>)
    requires CommandOk(cmd)
    ensures Reaches(env, ws, es, Served(Uploaded(data, Fresh(cmd), {ID}), cmd, NoComplete, []))
  {
    var s5 := Uploaded(data, Fresh(cmd), {ID});
    ws, es := ClientInserts(env, cmd);
    var s2 := Empty().(issued := {ID}, db := s5.db);
    var w2 := Around(s2).(creators := map[0 := HandOut(cmd, ID, EXPIRY, true)]);
    var w3 := Served(s5.(objects := map[], puts := {}), cmd, NoComplete, []);
    assert CreateNext(w2, 0, HandOver, Some(CreateReturn(cmd, ID, true, Some(EXPIRY))), w3);
    ws, es := Move(env, ws, es, w2, Create(0, HandOver), w3);
    var w4 := Served(s5.(objects := map[]), cmd, NoComplete, []);
    ws, es := Move(env, ws, es, w3, Other(ClientPut(Capability(ID, EXPIRY), data)), w4);
    ws, es := Move(env, ws, es, w4, Other(LandPut(Put(Staging(ID), data))), Served(s5, cmd, NoComplete, []));
  }

  lemma ClientCompletes(env: Env, data: Bytes, cmd: Command) returns (ws: seq<World>, es: seq<Event>)
    requires CommandOk(cmd)
    ensures Reaches(env, ws, es, Waiting(data, cmd))
  {
    var s5, s7 := Uploaded(data, Fresh(cmd), {ID}), Uploaded(data, Asked(cmd), {ID});
    ws, es := ClientPuts(env, data, cmd);
    var w5, w6 := Served(s5, cmd, NoComplete, []), Served(s5, cmd, Attempt(ID, false), []);
    assert CompleteNext(w5, 0, BeginComplete(ID), None, w6);
    ws, es := Move(env, ws, es, w5, Complete(0, BeginComplete(ID)), w6);
    assert s7.db == WithUpload(s5.db, ID, Asked(cmd));
    assert CompleteNext(w6, 0, TryComplete(Acked), Some(CompleteReturn(ID, Some(PendingToFinalizing))),
        Waiting(data, cmd));
    ws, es := Move(env, ws, es, w6, Complete(0, TryComplete(Acked)), Waiting(data, cmd));
  }

  // ------------------------------------------------------------- the worker

  function Held(cmd: Command): Claim {
    Claim(ID, Staging(ID), cmd.size, cmd.contentType, TOKEN)
  }

  function At(w: World, s: Shared, cmd: Command, pc: Pc): World {
    w.(s := s, finalizers := map[0 := Working(Held(cmd), pc), 1 := Idle])
  }

  function InClaim(env: Env, cmd: Command): Upload {
    Claimed(Asked(cmd), TOKEN, env.lease)
  }

  function Waiting(data: Bytes, cmd: Command): World {
    Served(Uploaded(data, Asked(cmd), {ID}), cmd, NoComplete,
           [CompleteReturn(ID, Some(PendingToFinalizing))])
  }

  lemma NoCandidates(db: Db, id: Uuid)
    requires db.candidates == map[]
    ensures CandidateList(db, id) == []
  {
  }

  lemma WorkAt(env: Env, worlds: seq<World>, events: seq<Event>, data: Bytes, cmd: Command, s: Shared, pc: Pc,
               e: FinEvent,
               s': Shared, pc': Pc)
    returns (ws: seq<World>, es: seq<Event>)
    requires Reaches(env, worlds, events, At(Waiting(data, cmd), s, cmd, pc))
    requires FinStep(env, s, Working(Held(cmd), pc), e, s', Working(Held(cmd), pc'))
    ensures Reaches(env, ws, es, At(Waiting(data, cmd), s', cmd, pc'))
  {
    var w := At(Waiting(data, cmd), s, cmd, pc);
    ws, es := Work(env, worlds, events, w, e, s', Working(Held(cmd), pc'));
    assert w.finalizers[0 := Working(Held(cmd), pc')] == map[0 := Working(Held(cmd), pc'), 1 := Idle];
  }

  function InHand(env: Env, data: Bytes, cmd: Command): Shared {
    Uploaded(data, InClaim(env, cmd), {ID, TOKEN})
  }

  lemma WorkerTakes(env: Env, data: Bytes, cmd: Command) returns (ws: seq<World>, es: seq<Event>)
    requires CommandOk(cmd) && env.lease > 0
    ensures Reaches(env, ws, es, At(Waiting(data, cmd), InHand(env, data, cmd), cmd, Renew(Prepare([]))))
  {
    ws, es := ClientCompletes(env, data, cmd);
    var w, c, s := Waiting(data, cmd), Held(cmd), InHand(env, data, cmd);
    assert s.db == TxClaim(w.s.db, 0, ID, TOKEN, env.lease);
    ws, es := Work(env, ws, es, w, TakeClaim(ID, TOKEN, {}, Acked), s, Working(c, LoadCandidates));
    NoCandidates(s.db, ID);
    ws, es := WorkAt(env, ws, es, data, cmd, s, LoadCandidates, Load, s, Renew(Prepare([])));
  }

  lemma WorkerReadsStaging(env: Env, data: Bytes, cmd: Command) returns (ws: seq<World>, es: seq<Event>)
    requires CommandOk(cmd) && env.lease > 0
    ensures Reaches(env, ws, es, At(Waiting(data, cmd), InHand(env, data, cmd), cmd,
                                    Judge(env, Held(cmd), HonestSnapshot(data, true, MAX_UPLOAD_BYTES))))
  {
    var c, s := Held(cmd), InHand(env, data, cmd);
    ws, es := WorkerTakes(env, data, cmd);
    RenewsInPlace(env, s, c);
    ws, es := WorkAt(env, ws, es, data, cmd, s, Renew(Prepare([])), RenewClaim(Acked), s, Prepare([]));
    ws, es := WorkAt(env, ws, es, data, cmd, s, Prepare([]), Observe, s, CaptureStaging([], EXPIRY, false));
    ws, es := WorkAt(env, ws, es, data, cmd, s, CaptureStaging([], EXPIRY, false), Get(Got(true)), s,
                     Judge(env, c, HonestSnapshot(data, true, MAX_UPLOAD_BYTES)));
  }

  /** At the clock of the claim a renewal writes the expiry that is already there. */
  lemma RenewsInPlace(env: Env, s: Shared, c: Claim)
    requires Live(s.db, s.now, c.upload, c.token) && s.db.uploads[c.upload].claimExpiresAt == Some(s.now + env.lease)
    ensures WithDb(s, TxRenew(s.db, s.now, c.upload, c.token, env.lease)) == s
  {
  }

  function Candidate(env: Env, data: Bytes): TrackedCandidate
    requires env.decodeConfig(data).Some?
  {
    var config := env.decodeConfig(data).value;
    TrackedCandidate(env.sha256(data), Media(CandidateId(ID, env.sha256(data))), |data|, 1, config.format,
        config.width, config.height)
  }

  function Registered(env: Env, data: Bytes, cmd: Command): Shared
    requires env.decodeConfig(data).Some?
  {
    var s := InHand(env, data, cmd);
    s.(db := s.db.(candidates := map[CandidateId(ID, env.sha256(data)) := CandidateRow(Candidate(env, data), 0)]))
  }

  function Stored(env: Env, data: Bytes, cmd: Command): Shared
    requires env.decodeConfig(data).Some?
  {
    var s, k := Registered(env, data, cmd), Candidate(env, data).objectKey;
    s.(puts := s.puts + {Put(k, data)}, objects := s.objects[k := data])
  }

  lemma WorkerTracks(env: Env, data: Bytes, cmd: Command) returns (ws: seq<World>, es: seq<Event>)
    requires CommandOk(cmd) && env.lease > 0 && MeetsPolicy(env, data, cmd.size, cmd.contentType)
    ensures Reaches(env, ws, es, At(Waiting(data, cmd), Registered(env, data, cmd), cmd,
                                    Renew(PutCandidate(Candidate(env, data), data))))
  {
    var c, t, s, r := Held(cmd), Candidate(env, data), InHand(env, data, cmd), Registered(env, data, cmd);
    ws, es := WorkerReadsStaging(env, data, cmd);
    assert Judge(env, c, HonestSnapshot(data, true, MAX_UPLOAD_BYTES)) == Track(t, data);
    ws, es := WorkAt(env, ws, es, data, cmd, s, Track(t, data), Register(Acked), r, Renew(PutCandidate(t, data)));
  }

  lemma WorkerPuts(env: Env, data: Bytes, cmd: Command) returns (ws: seq<World>, es: seq<Event>)
    requires CommandOk(cmd) && env.lease > 0 && MeetsPolicy(env, data, cmd.size, cmd.contentType)
    ensures Reaches(env, ws, es, At(Waiting(data, cmd), Stored(env, data, cmd), cmd,
                                    Renew(VerifyPublished(Candidate(env, data)))))
  {
    var t, r, p := Candidate(env, data), Registered(env, data, cmd), Stored(env, data, cmd);
    ws, es := WorkerTracks(env, data, cmd);
    RenewsInPlace(env, r, Held(cmd));
    ws, es := WorkAt(env, ws, es, data, cmd, r, Renew(PutCandidate(t, data)), RenewClaim(Acked), r,
        PutCandidate(t, data));
    ws, es := WorkAt(env, ws, es, data, cmd, r, PutCandidate(t, data), SendPut(true), p, Renew(VerifyPublished(t)));
  }

  lemma WorkerVerifies(env: Env, data: Bytes, cmd: Command) returns (ws: seq<World>, es: seq<Event>)
    requires CommandOk(cmd) && env.lease > 0 && MeetsPolicy(env, data, cmd.size, cmd.contentType)
    ensures Reaches(env, ws, es,
              At(Waiting(data, cmd), Stored(env, data, cmd), cmd, CommitReady(Candidate(env, data))))
  {
    var t, p := Candidate(env, data), Stored(env, data, cmd);
    ws, es := WorkerPuts(env, data, cmd);
    RenewsInPlace(env, p, Held(cmd));
    ws, es := WorkAt(env, ws, es, data, cmd, p, Renew(VerifyPublished(t)), RenewClaim(Acked), p, VerifyPublished(t));
    ws, es := WorkAt(env, ws, es, data, cmd, p, VerifyPublished(t), Get(Got(true)), p, CommitReady(t));
  }

  /** Every image that meets the policy is published, byte for byte, by some run. */
  lemma AcceptableImagesCanBePublished(env: Env, data: Bytes, cmd: Command)
    returns (ws: seq<World>, es: seq<Event>)
    requires CommandOk(cmd) && env.lease > 0 && MeetsPolicy(env, data, cmd.size, cmd.contentType)
    ensures Run(env, ws, es)
    ensures var s := ws[|es|].s;
            && ID in s.db.uploads && s.db.uploads[ID].state.Ready? && s.db.uploads[ID].finalKey.Some?
            && s.db.uploads[ID].finalKey.value in s.objects && s.objects[s.db.uploads[ID].finalKey.value] == data
            && s.db.uploads[ID].declaredType == cmd.contentType
  {
    var w, c, t, p := Waiting(data, cmd), Held(cmd), Candidate(env, data), Stored(env, data, cmd);
    ws, es := WorkerVerifies(env, data, cmd);
    assert Tracked(p.db, ID, t);
    var outcome := TxReady(p.db, 0, ID, TOKEN, t);
    assert !Conflicts(p.db, ID, EXPIRY, 0, TargetKeys(p.db, ID, Some(t.objectKey)));
    ws, es := Work(env, ws, es, At(w, p, cmd, CommitReady(t)), Commit(Acked), WithDb(p, outcome.db), Idle);
  }

  // -------------------------------------------------------- the other endings

  /** Every object that fails the policy gets its upload rejected, for the defect it has, by some run; its staging
      key is then owed a delete. */
  lemma OtherObjectsAreRejected(env: Env, data: Bytes, cmd: Command) returns (ws: seq<World>, es: seq<Event>)
    requires CommandOk(cmd) && env.lease > 0 && !MeetsPolicy(env, data, cmd.size, cmd.contentType)
    ensures Run(env, ws, es)
    ensures var db := ws[|es|].s.db;
            && ID in db.uploads && db.uploads[ID].state.Rejected? && db.uploads[ID].finalKey.None?
            && db.uploads[ID].rejectionReason.Some?
            && HasDefect(env, data, cmd.size, cmd.contentType, db.uploads[ID].rejectionReason.value)
            && db.tombstones.Keys == {Staging(ID)}
    ensures ws[|es|].s.objects == map[Staging(ID) := data]
  {
    var w, s := Waiting(data, cmd), InHand(env, data, cmd);
    ws, es := WorkerReadsStaging(env, data, cmd);
    var f := VerdictBlames(env, data, cmd);
    var outcome := RejectionGoesThrough(env, data, cmd, f);
    ws, es := Work(env, ws, es, At(w, s, cmd, CommitReject(f)), Commit(Acked), WithDb(s, outcome.db), Idle);
  }

  lemma VerdictBlames(env: Env, data: Bytes, cmd: Command) returns (f: Failure)
    requires !MeetsPolicy(env, data, cmd.size, cmd.contentType)
    ensures Judge(env, Held(cmd), HonestSnapshot(data, true, MAX_UPLOAD_BYTES)) == CommitReject(f)
    ensures HasDefect(env, data, cmd.size, cmd.contentType, f.reason)
  {
    RefusalsBlameTheDefect(env, data, true, cmd.size, cmd.contentType);
    CaptureThenValidate(env, data, true, cmd.size, cmd.contentType);
    f := ValidateImageBytes(env, HonestSnapshot(data, true, MAX_UPLOAD_BYTES), cmd.size, cmd.contentType).failure;
  }

  lemma RejectionGoesThrough(env: Env, data: Bytes, cmd: Command, f: Failure) returns (outcome: Outcome)
    requires env.lease > 0
    ensures outcome.Changed? && outcome == TxReject(InHand(env, data, cmd).db, 0, ID, TOKEN, f)
    ensures ID in outcome.db.uploads && outcome.db.uploads[ID] == MadeRejected(InClaim(env, cmd), 0, f)
    ensures outcome.db.tombstones.Keys == {Staging(ID)}
  {
    var s := InHand(env, data, cmd);
    assert !Conflicts(s.db, ID, EXPIRY, 0, TargetKeys(s.db, ID, None));
    outcome := TxReject(s.db, 0, ID, TOKEN, f);
  }
}
