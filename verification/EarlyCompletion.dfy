/** A run in which the finalizer's backoff fails: three failures, and a completion that is repeated before the wait
    of the third is over. */
module EarlyCompletion {
  import opened Types
  import opened Backoff
  import opened Transactions
  import opened World
  import opened RunBuilding
  import opened FinalizerBackoff

  const ID: Uuid := 1

  function Fresh(): Upload {
    NewUpload(Command(0, 10, ImagePng), ID, 0, CAPABILITY_LIFE)
  }

  function Asked(): Upload {
    Fresh().(state := Finalizing, completionRequestedAt := Some(0), reconcileAfter := Some(0))
  }

  function At(now: Time, u: Upload, issued: set<Uuid>): Shared {
    Shared(now, Db(map[ID := u], map[], map[]), map[], {}, {}, {}, issued)
  }

  /** One worker, a create call that has not handed anything out yet, and completion calls. */
  function Around(s: Shared, completed: seq<CompleteReturn>): World {
    World(s, map[0 := Idle], map[], map[0 := HandOut(Command(0, 10, ImagePng), ID, CAPABILITY_LIFE, true)],
          map[0 := NoComplete], [], completed)
  }

  const ASKED: seq<CompleteReturn> := [CompleteReturn(ID, Some(PendingToFinalizing))]

  lemma Begins(env: Env) returns (ws: seq<World>, es: seq<Event>)
    ensures Reaches(env, ws, es, Around(At(0, Fresh(), {ID}), []))
  {
    var cmd, s0 := Command(0, 10, ImagePng), Shared(0, Db(map[], map[], map[]), map[], {}, {}, {}, {});
    var w0 := Around(s0, []).(creators := map[0 := NoCreate]);
    ws, es := [w0], [];
    var w1 := Around(s0.(issued := {ID}), []).(creators := map[0 := Insert(cmd, ID, CAPABILITY_LIFE)]);
    assert CreateNext(w0, 0, Sign(cmd, ID, CAPABILITY_LIFE), None, w1);
    ws, es := Move(env, ws, es, w0, Create(0, Sign(cmd, ID, CAPABILITY_LIFE)), w1);
    var w2 := Around(At(0, Fresh(), {ID}), []);
    assert CreateNext(w1, 0, InsertRow(Acked), None, w2);
    ws, es := Move(env, ws, es, w1, Create(0, InsertRow(Acked)), w2);
  }

  /** A completion call that is acknowledged. */
  lemma Completes(env: Env, worlds: seq<World>, events: seq<Event>, s: Shared, log: seq<CompleteReturn>, u: Upload,
                  t: Option<Transition>)
    returns (ws: seq<World>, es: seq<Event>)
    requires Reaches(env, worlds, events, Around(s, log)) && ID in s.db.uploads
    requires TxComplete(s.db, s.now, ID) == Moved(WithUpload(s.db, ID, u), t)
    ensures Reaches(env, ws, es, Around(WithDb(s, WithUpload(s.db, ID, u)), log + [CompleteReturn(ID, t)]))
    ensures worlds <= ws
  {
    var w := Around(s, log);
    var w1 := w.(completers := map[0 := Attempt(ID, false)]);
    assert CompleteNext(w, 0, BeginComplete(ID), None, w1);
    ws, es := Move(env, worlds, events, w, Complete(0, BeginComplete(ID)), w1);
    var w2 := Around(WithDb(s, WithUpload(s.db, ID, u)), log + [CompleteReturn(ID, t)]);
    assert CompleteNext(w1, 0, TryComplete(Acked), Some(CompleteReturn(ID, t)), w2);
    ws, es := Move(env, ws, es, w1, Complete(0, TryComplete(Acked)), w2);
  }

  function Stuck(now: Time, u: Upload, issued: set<Uuid>, token: Uuid, lease: int): World {
    var s := At(now, Claimed(u, token, now + lease), issued + {token});
    Around(s, ASKED).(finalizers := map[0 := Working(ClaimOf(ID, u, token), ScheduleRetry(Transient))])
  }

  /** The worker takes the due upload and fails at its first read. */
  lemma Sticks(env: Env, worlds: seq<World>, events: seq<Event>, now: Time, u: Upload, issued: set<Uuid>, token: Uuid)
    returns (ws: seq<World>, es: seq<Event>)
    requires Reaches(env, worlds, events, Around(At(now, u, issued), ASKED))
    requires ClaimDue(u, now) && env.lease > 0 && token !in issued
    ensures Reaches(env, ws, es, Stuck(now, u, issued, token, env.lease)) && worlds <= ws
  {
    var w, s := Around(At(now, u, issued), ASKED), At(now, Claimed(u, token, now + env.lease), issued + {token});
    var c := ClaimOf(ID, u, token);
    assert s.db == TxClaim(w.s.db, now, ID, token, env.lease);
    ws, es := Work(env, worlds, events, w, TakeClaim(ID, token, {}, Acked), s, Working(c, LoadCandidates));
    var w1 := w.(s := s, finalizers := w.finalizers[0 := Working(c, LoadCandidates)]);
    ws, es := Work(env, ws, es, w1, Fail(Transient), s, Working(c, ScheduleRetry(Transient)));
    assert w1.finalizers[0 := Working(c, ScheduleRetry(Transient))] == map[0 := Working(c, ScheduleRetry(Transient))];
  }

  /** It stores the retry; `j` is the storing event. */
  lemma Fails(env: Env, worlds: seq<World>, events: seq<Event>, now: Time, u: Upload, issued: set<Uuid>, token: Uuid)
    returns (ws: seq<World>, es: seq<Event>, j: nat)
    requires Reaches(env, worlds, events, Around(At(now, u, issued), ASKED))
    requires ClaimDue(u, now) && env.lease > 0 && token !in issued
    ensures Reaches(env, ws, es, Around(At(now, Retried(u, now, Transient), issued + {token}), ASKED))
    ensures worlds <= ws && j + 1 == |es| && FinalizingIn(ws[j], ID) && ws[j].s.now == now
    ensures ws[j].s.db.uploads[ID].failureStreak == u.failureStreak
  {
    ws, es := Sticks(env, worlds, events, now, u, issued, token);
    j := |es|;
    var w, after := Stuck(now, u, issued, token, env.lease), At(now, Retried(u, now, Transient), issued + {token});
    assert WithDb(w.s, TxRetry(w.s.db, now, ID, token, Transient)) == after;
    ws, es := Work(env, ws, es, w, Reschedule(Acked), after, Idle);
    assert w.finalizers[0 := Idle] == map[0 := Idle];
  }

  lemma Later(env: Env, worlds: seq<World>, events: seq<Event>, s: Shared, log: seq<CompleteReturn>, d: nat)
    returns (ws: seq<World>, es: seq<Event>)
    requires Reaches(env, worlds, events, Around(s, log))
    ensures Reaches(env, ws, es, Around(s.(now := s.now + d), log)) && worlds <= ws
  {
    ws, es := Move(env, worlds, events, Around(s, log), Other(Tick(d)), Around(s.(now := s.now + d), log));
  }

  function Failed(u: Upload, now: Time, streak: int, due: Time): Upload {
    u.(reconcileAfter := Some(due), failureStreak := streak, lastFailureClass := Some(Transient),
        lastFailureAt := Some(now))
  }

  lemma Delays()
    ensures Retried(Asked(), 0, Transient) == Failed(Asked(), 0, 1, SECOND)
    ensures Retried(Failed(Asked(), 0, 1, SECOND), SECOND, Transient) == Failed(Asked(), SECOND, 2, 3 * SECOND)
    ensures Retried(Failed(Asked(), SECOND, 2, 3 * SECOND), 3 * SECOND, Transient) ==
              Failed(Asked(), 3 * SECOND, 3, 7 * SECOND)
    ensures FailureWait(3) == 7
  {
    assert Pow2(0) == 1 && Pow2(1) == 2 && Pow2(2) == 4;
    assert FailureWait(2) == 3;
  }

  function After(streak: nat): Upload {
    match streak
    case 0 => Asked()
    case 1 => Failed(Asked(), 0, 1, SECOND)
    case 2 => Failed(Asked(), SECOND, 2, 3 * SECOND)
    case _ => Failed(Asked(), 3 * SECOND, 3, 7 * SECOND)
  }

  lemma OneFailure(env: Env) returns (ws: seq<World>, es: seq<Event>, j: nat)
    requires env.lease > 0
    ensures Reaches(env, ws, es, Around(At(0, After(1), {ID} + {2}), ASKED))
    ensures j < |es| && FirstRetry(ws[j], ws[j + 1], ID) && ws[j].s.now == 0
  {
    Delays();
    ws, es := Begins(env);
    assert WithUpload(At(0, Fresh(), {ID}).db, ID, Asked()) == At(0, Asked(), {ID}).db;
    ws, es := Completes(env, ws, es, At(0, Fresh(), {ID}), [], Asked(), Some(PendingToFinalizing));
    ws, es, j := Fails(env, ws, es, 0, Asked(), {ID}, 2);
  }

  lemma AnotherFailure(env: Env, worlds: seq<World>, events: seq<Event>, streak: nat, now: Time, d: nat,
                       issued: set<Uuid>,
                       token: Uuid)
    returns (ws: seq<World>, es: seq<Event>)
    requires Reaches(env, worlds, events, Around(At(now, After(streak), issued), ASKED)) && env.lease > 0
    requires token !in issued && ((streak, now, d) == (1, 0, SECOND) || (streak, now, d) == (2, SECOND, 2 * SECOND))
    ensures Reaches(env, ws, es, Around(At(now + d, After(streak + 1), issued + {token}), ASKED)) && worlds <= ws
  {
    Delays();
    ws, es := Later(env, worlds, events, At(now, After(streak), issued), ASKED, d);
    var j: nat;
    ws, es, j := Fails(env, ws, es, now + d, After(streak), issued, token);
  }

  lemma ThreeFailures(env: Env) returns (ws: seq<World>, es: seq<Event>, j: nat)
    requires env.lease > 0
    ensures Reaches(env, ws, es, Around(At(3 * SECOND, After(3), {ID} + {2} + {3} + {4}), ASKED))
    ensures j < |es| && FirstRetry(ws[j], ws[j + 1], ID) && ws[j].s.now == 0
  {
    ws, es, j := OneFailure(env);
    var first := ws;
    ws, es := AnotherFailure(env, ws, es, 1, 0, SECOND, {ID} + {2}, 3);
    ws, es := AnotherFailure(env, ws, es, 2, SECOND, 2 * SECOND, {ID} + {2} + {3}, 4);
    assert first <= ws && first[j] == ws[j] && first[j + 1] == ws[j + 1];
  }

  /** Failures at 0, 1 and 3 seconds; the fourth attempt should wait until 7 seconds after the first failure; the
      upload is completed again at 4 seconds and is due at once. */
  lemma RepeatedCompletionBreaksBackoff(env: Env) returns (ws: seq<World>, es: seq<Event>, j: nat)
    requires env.lease > 0
    ensures Run(env, ws, es) && j < |es| && FirstRetry(ws[j], ws[j + 1], ID)
    ensures FailingUpload(ws[|es|], ID) && ws[|es|].s.db.uploads[ID].failureStreak == 3
    ensures ws[|es|].s.db.uploads[ID].reconcileAfter.value < ws[j].s.now + SECOND * FailureWait(3)
    ensures ClaimDue(ws[|es|].s.db.uploads[ID], ws[|es|].s.now)
    ensures !Waits(ws, j, |es|, ID)
  {
    Delays();
    var before: seq<World>;
    before, es, j := ThreeFailures(env);
    var issued := {ID} + {2} + {3} + {4};
    ws, es := Later(env, before, es, At(3 * SECOND, After(3), issued), ASKED, SECOND);
    var late := At(4 * SECOND, After(3), issued);
    ws, es := Completes(env, ws, es, late, ASKED, After(3).(reconcileAfter := Some(4 * SECOND)), None);
    assert before[j] == ws[j] && before[j + 1] == ws[j + 1];
  }
}
