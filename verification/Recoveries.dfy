/** Runs in which something goes wrong and the service recovers. */
module Recoveries {
  import opened Types
  import opened Transactions
  import opened World
  import opened RunBuilding
  import opened Publication

  // ----------------------------------------------------------- lost answers

  const AGAIN: Uuid := 3
  const LATER: Time := MINUTE + CAPABILITY_LIFE

  function Answer(cmd: Command): CreateReturn {
    CreateReturn(cmd, ID, true, Some(EXPIRY))
  }

  /** The row is pending, its first capability was handed out, and a minute has passed. */
  function MinuteLater(cmd: Command, issued: set<Uuid>): Shared {
    Shared(MINUTE, Db(map[ID := Fresh(cmd)], map[], map[]), map[], {}, {}, {Capability(ID, EXPIRY)}, issued)
  }

  lemma AnswerIsLost(env: Env, cmd: Command) returns (ws: seq<World>, es: seq<Event>)
    requires CommandOk(cmd)
    ensures Reaches(env, ws, es, Served(MinuteLater(cmd, {ID}), cmd, NoComplete, []))
  {
    ws, es := ClientInserts(env, cmd);
    var w2 := ws[|es|];
    var s3 := MinuteLater(cmd, {ID}).(now := 0);
    assert CreateNext(w2, 0, HandOver, Some(Answer(cmd)), Served(s3, cmd, NoComplete, []));
    ws, es := Move(env, ws, es, w2, Create(0, HandOver), Served(s3, cmd, NoComplete, []));
    ws, es := Move(env, ws, es, Served(s3, cmd, NoComplete, []), Other(Tick(MINUTE)),
                   Served(MinuteLater(cmd, {ID}), cmd, NoComplete, []));
  }

  function Standing(cmd: Command, s: Shared, l: Creator): World {
    Served(s, cmd, NoComplete, []).(creators := map[0 := l])
  }

  lemma CallIsRepeated(env: Env, cmd: Command) returns (ws: seq<World>, es: seq<Event>)
    requires CommandOk(cmd)
    ensures Reaches(env, ws, es, Standing(cmd, MinuteLater(cmd, {ID, AGAIN}), Replay(cmd, ID, LATER)))
  {
    ws, es := AnswerIsLost(env, cmd);
    var s, w := MinuteLater(cmd, {ID, AGAIN}), Served(MinuteLater(cmd, {ID}), cmd, NoComplete, []);
    assert w.s.issued + {AGAIN} == s.issued;
    var w1, w2 := Standing(cmd, s, Insert(cmd, AGAIN, LATER)), Standing(cmd, s, Replay(cmd, ID, LATER));
    assert CreateNext(w, 0, Sign(cmd, AGAIN, LATER), None, w1);
    ws, es := Move(env, ws, es, w, Create(0, Sign(cmd, AGAIN, LATER)), w1);
    assert CreateNext(w1, 0, SignReplay(ID, LATER), None, w2);
    ws, es := Move(env, ws, es, w1, Create(0, SignReplay(ID, LATER)), w2);
  }

  /** A client that lost the answer to its create call and repeats the call a minute later, while the upload is pending,
      is handed a second capability for the same upload; the horizon has moved to cover it. */
  lemma LostAnswerIsReplayed(env: Env, cmd: Command) returns (ws: seq<World>, es: seq<Event>)
    requires CommandOk(cmd)
    ensures Run(env, ws, es)
    ensures ws[|es|].created == [CreateReturn(cmd, ID, true, Some(CAPABILITY_LIFE)),
                                 CreateReturn(cmd, ID, false, Some(MINUTE + CAPABILITY_LIFE))]
    ensures ws[|es|].s.caps == {Capability(ID, CAPABILITY_LIFE), Capability(ID, MINUTE + CAPABILITY_LIFE)}
    ensures var db := ws[|es|].s.db;
            db.uploads.Keys == {ID} && db.uploads[ID].state.Pending?
            && db.uploads[ID].horizon == MINUTE + CAPABILITY_LIFE
  {
    ws, es := CallIsRepeated(env, cmd);
    var s := MinuteLater(cmd, {ID, AGAIN});
    var w2, s3 := Standing(cmd, s, Replay(cmd, ID, LATER)), WithDb(s, TxReplay(s.db, ID, LATER));
    var w3 := Standing(cmd, s3, HandOut(cmd, ID, LATER, false));
    assert CreateNext(w2, 0, LockReplay(ID, Acked), None, w3);
    ws, es := Move(env, ws, es, w2, Create(0, LockReplay(ID, Acked)), w3);
    var s4, r := s3.(caps := s3.caps + {Capability(ID, LATER)}), CreateReturn(cmd, ID, false, Some(LATER));
    var w4 := Standing(cmd, s4, NoCreate).(created := [Answer(cmd), r]);
    assert CreateNext(w3, 0, HandOver, Some(r), w4);
    ws, es := Move(env, ws, es, w3, Create(0, HandOver), w4);
  }

  // ---------------------------------------------------------- crashed workers

  lemma WorkerCrashes(env: Env, data: Bytes, cmd: Command) returns (ws: seq<World>, es: seq<Event>)
    requires CommandOk(cmd) && env.lease > 0
    ensures Reaches(env, ws, es, Waiting(data, cmd).(s := InHand(env, data, cmd)))
    ensures |es| >= 2 && es[|es| - 2..] == [Fin(0, TakeClaim(ID, TOKEN, {}, Acked)), Fin(0, Crash)]
  {
    ws, es := ClientCompletes(env, data, cmd);
    var w, c, s := Waiting(data, cmd), Held(cmd), InHand(env, data, cmd);
    assert s.db == TxClaim(w.s.db, 0, ID, TOKEN, env.lease);
    ws, es := Work(env, ws, es, w, TakeClaim(ID, TOKEN, {}, Acked), s, Working(c, LoadCandidates));
    var w1 := w.(s := s, finalizers := w.finalizers[0 := Working(c, LoadCandidates)]);
    ws, es := Work(env, ws, es, w1, Crash, s, Idle);
    assert w1.finalizers[0 := Idle] == w.finalizers;
  }

  /** The claim of the second worker. */
  function TakenOver(env: Env, data: Bytes, cmd: Command): World {
    var s := InHand(env, data, cmd);
    var w := Waiting(data, cmd);
    w.(s := s.(now := env.lease, issued := s.issued + {AGAIN},
               db := TxClaim(s.db, env.lease, ID, AGAIN, env.lease)),
       finalizers := w.finalizers[1 := Working(Held(cmd).(token := AGAIN), LoadCandidates)])
  }

  lemma SecondClaim(env: Env, data: Bytes, cmd: Command)
    requires env.lease > 0
    ensures var w := Waiting(data, cmd);
            Next(env, w.(s := InHand(env, data, cmd).(now := env.lease)), Fin(1, TakeClaim(ID, AGAIN, {}, Acked)),
                 TakenOver(env, data, cmd))
  {
    var w := Waiting(data, cmd).(s := InHand(env, data, cmd).(now := env.lease));
    assert FinNext(env, w, 1, TakeClaim(ID, AGAIN, {}, Acked), TakenOver(env, data, cmd));
  }

  /** A worker takes a claim and crashes; when the lease has run out another worker takes the row. */
  lemma CrashedWorkerIsReplaced(env: Env, data: Bytes, cmd: Command) returns (ws: seq<World>, es: seq<Event>)
    requires CommandOk(cmd) && env.lease > 0
    ensures Run(env, ws, es) && |es| >= 4
    ensures es[|es| - 4..] == [Fin(0, TakeClaim(ID, TOKEN, {}, Acked)), Fin(0, Crash), Other(Tick(env.lease)),
                               Fin(1, TakeClaim(ID, AGAIN, {}, Acked))]
    ensures 1 in ws[|es|].finalizers && ws[|es|].finalizers[1].Working? && ws[|es|].finalizers[1].claim.upload == ID
    ensures ID in ws[|es|].s.db.uploads && ws[|es|].s.db.uploads[ID].claimToken == Some(AGAIN)
  {
    ws, es := WorkerCrashes(env, data, cmd);
    var w := Waiting(data, cmd).(s := InHand(env, data, cmd));
    var w' := w.(s := w.s.(now := env.lease));
    ws, es := Move(env, ws, es, w, Other(Tick(env.lease)), w');
    SecondClaim(env, data, cmd);
    ws, es := Move(env, ws, es, w', Fin(1, TakeClaim(ID, AGAIN, {}, Acked)), TakenOver(env, data, cmd));
  }
}
