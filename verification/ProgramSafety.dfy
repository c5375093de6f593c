/** The programs among others: as long as everybody else keeps to the guarantee of the machine, and acts under other
    claim tokens, a program keeps the global invariant and gives the guarantee at every one of its steps. */
module ProgramSafety {
  import opened Types
  import opened Transactions
  import opened DbInvariant
  import opened World
  import opened Invariant
  import opened FinalizerProofs
  import A = ActorProofs
  import opened Programs
  import opened FinalizerProgram
  import opened CleanerProgram

  /** A step of anybody who does not act under the barred token. */
  ghost predicate OthersStep(env: Env, barred: Option<Uuid>, s: Shared, t: Shared) {
    SharedInv(env, t) && exists byToken, byUpload :: Unbarred(barred, byToken) && Guarantee(s, t, byToken, byUpload)
  }

  predicate Unbarred(barred: Option<Uuid>, byToken: Option<Uuid>) {
    byToken.Some? ==> byToken != barred
  }

  /** Any number of steps by others lead from s to the end of `states`. */
  ghost predicate Others(env: Env, barred: Option<Uuid>, s: Shared, states: seq<Shared>)
    decreases |states|
  {
    states == [] || (OthersStep(env, barred, s, states[0]) && Others(env, barred, states[0], states[1..]))
  }

  function EndOf(s: Shared, states: seq<Shared>): Shared
    decreases |states|
  {
    if states == [] then s else EndOf(states[0], states[1..])
  }

  /** Between two calls, the oracle lets others take steps of the machine and nothing else. */
  ghost predicate Polite(env: Env, o: Oracle, barred: Option<Uuid>) {
    forall n: nat, s | SharedInv(env, s) ::
      exists states :: Others(env, barred, s, states) && o.meanwhile(n, s) == EndOf(s, states)
  }

  /** Every step of the path starts and ends in a state that keeps the invariant, and gives the guarantee. */
  ghost predicate Kept<L, E>(env: Env, p: Trail<L, E>) {
    p.Then? ==>
      && Kept(env, p.path)
      && SharedInv(env, p.step.before) && SharedInv(env, p.step.after)
      && exists byToken, byUpload :: Guarantee(p.step.before, p.step.after, byToken, byUpload)
  }

  // --------------------------------------------------------------- finalizers

  predicate Own(l: Finalizer, token: Uuid) {
    l.Working? ==> l.claim.token == token
  }

  lemma OneOtherKeeps(env: Env, token: Uuid, s: Shared, t: Shared, l: Finalizer)
    requires SharedInv(env, s) && FinInv(env, s, l) && Own(l, token) && OthersStep(env, Some(token), s, t)
    ensures SharedInv(env, t) && FinInv(env, t, l)
  {
    var byToken, byUpload :| Unbarred(Some(token), byToken) && Guarantee(s, t, byToken, byUpload);
    StableFinalizer(env, s, t, byToken, byUpload, l);
  }

  lemma {:induction false} OthersKeep(env: Env, token: Uuid, s: Shared, states: seq<Shared>, l: Finalizer)
    requires SharedInv(env, s) && FinInv(env, s, l) && Own(l, token) && Others(env, Some(token), s, states)
    ensures SharedInv(env, EndOf(s, states)) && FinInv(env, EndOf(s, states), l)
    decreases |states|
  {
    if states != [] {
      OneOtherKeeps(env, token, s, states[0], l);
      OthersKeep(env, token, states[0], states[1..], l);
    }
  }

  lemma MeanwhileKeeps(env: Env, o: Oracle, token: Uuid, n: nat, s: Shared, l: Finalizer)
    requires SharedInv(env, s) && FinInv(env, s, l) && Own(l, token) && Polite(env, o, Some(token))
    ensures SharedInv(env, o.meanwhile(n, s)) && FinInv(env, o.meanwhile(n, s), l)
  {
    var states :| Others(env, Some(token), s, states) && o.meanwhile(n, s) == EndOf(s, states);
    OthersKeep(env, token, s, states, l);
  }

  lemma StepKeeps(env: Env, token: Uuid, step: Step<Finalizer, FinEvent>)
    requires SharedInv(env, step.before) && FinInv(env, step.before, step.at) && Own(step.at, token)
    requires FinStep(env, step.before, step.at, step.ev, step.after, step.next)
    requires step.ev.TakeClaim? ==> step.ev.token == token
    ensures SharedInv(env, step.after) && FinInv(env, step.after, step.next) && Own(step.next, token)
    ensures Guarantee(step.before, step.after, TokenOf(step.at, step.ev), None)
  {
    FinStepKeeps(env, step.before, step.at, step.ev, step.after, step.next);
  }

  lemma OwnTokens(env: Env, o: Oracle, token: Uuid, p: FinPath)
    requires FinLegal(env, o, token, p) && p.Then?
    ensures p.step.ev.TakeClaim? ==> p.step.ev.token == token
  {
  }

  /** The invariant, and what the worker knows at the point it has reached, hold all along every legal path. */
  lemma {:induction false} ProgramKeeps(env: Env, o: Oracle, token: Uuid, p: FinPath)
    requires FinLegal(env, o, token, p) && Polite(env, o, Some(token)) && SharedInv(env, First(p))
    ensures Kept(env, p) && SharedInv(env, Last(p)) && FinInv(env, Last(p), FinStage(p)) && Own(FinStage(p), token)
    decreases p
  {
    if p.Then? {
      ProgramKeeps(env, o, token, p.path);
      MeanwhileKeeps(env, o, token, Length(p.path), Last(p.path), FinStage(p.path));
      OwnTokens(env, o, token, p);
      StepKeeps(env, token, p.step);
    }
  }

  /** A terminal commit the program attempts under a live claim always goes through: none of the errors that guard it
      can occur, at any attempt of any call. */
  lemma ProgramCommitsGoThrough(env: Env, o: Oracle, token: Uuid, p: FinPath, commit: Pc, c: Claim)
    requires FinLegal(env, o, token, p) && Polite(env, o, Some(token)) && SharedInv(env, First(p))
    requires FinStage(p) == Working(c, commit) && (commit.CommitReady? || commit.CommitReject? || commit.CommitExpire?)
    ensures var met := o.meanwhile(Length(p), Last(p));
            TxTerminal(met, c, commit).Changed? <==> Live(met.db, met.now, c.upload, token)
  {
    ProgramKeeps(env, o, token, p);
    var met := o.meanwhile(Length(p), Last(p));
    MeanwhileKeeps(env, o, token, Length(p), Last(p), FinStage(p));
    if Live(met.db, met.now, c.upload, c.token) {
      LiveTerminalChanges(env, met, c, commit);
    }
  }

  /** One call of the finalizer's processNext, from any state that keeps the invariant, among others that keep to the
      guarantee: the invariant holds at its every step and where it leaves off, and it ends in one of five ways. */
  method FinalizeOnce(env: Env, o: Oracle, token: Uuid, start: Shared, row: Option<Uuid>, ghost skipped: set<Uuid>)
    returns (w: FinWorker, processed: bool)
    requires SharedInv(env, start) && Polite(env, o, Some(token))
    requires row.Some? ==>
               && NextClaim(o.meanwhile(0, start).db, o.meanwhile(0, start).now, skipped, row.value)
               && token !in o.meanwhile(0, start).issued
    ensures First(w.path) == start && Kept(env, w.path) && SharedInv(env, w.s) && w.s == Last(w.path)
    ensures row.Some? && o.databaseError(0).None? ==>
              Call(Start(start), w.path, Idle) && w.path.step.at.Working? && exists how :: Ends(w.path.step, how)
    ensures row.None? || o.databaseError(0).Some? ==> w.path == Start(start)
  {
    w := new FinWorker(env, o, token, start);
    processed := w.ProcessNext(row, skipped);
    if w.path != Start(start) {
      CallLonger(Start(start), w.path, Idle);
      ghost var how := CallEnds(env, o, token, w.path);
    }
    ProgramKeeps(env, o, token, w.path);
  }

  // ----------------------------------------------------------------- cleaners

  lemma {:induction false} OthersKeepCleaner(env: Env, s: Shared, states: seq<Shared>, l: Cleaner)
    requires SharedInv(env, s) && CleanInv(s, l) && Others(env, None, s, states)
    ensures SharedInv(env, EndOf(s, states)) && CleanInv(EndOf(s, states), l)
    decreases |states|
  {
    if states != [] {
      OneOtherKeepsCleaner(env, s, states[0], l);
      OthersKeepCleaner(env, states[0], states[1..], l);
    }
  }

  lemma OneOtherKeepsCleaner(env: Env, s: Shared, t: Shared, l: Cleaner)
    requires CleanInv(s, l) && OthersStep(env, None, s, t)
    ensures SharedInv(env, t) && CleanInv(t, l)
  {
  }

  lemma {:induction false} CleanerKeeps(env: Env, o: Oracle, q: Queue, p: CleanPath)
    requires CleanLegal(o, q, p) && Polite(env, o, None) && SharedInv(env, First(p))
    ensures Kept(env, p) && SharedInv(env, Last(p)) && CleanInv(Last(p), CleanStage(p))
    decreases p
  {
    if p.Then? {
      CleanerKeeps(env, o, q, p.path);
      var s := Last(p.path);
      var states :| Others(env, None, s, states) && o.meanwhile(Length(p.path), s) == EndOf(s, states);
      OthersKeepCleaner(env, s, states, CleanStage(p.path));
      A.CleanStepKeeps(env, p.step.before, p.step.at, p.step.ev, p.step.after, p.step.next);
    }
  }

  /** One cleanup sweep, likewise. No delete it sends names the key of a ready upload. */
  method SweepOnce(env: Env, o: Oracle, q: Queue, start: Shared) returns (w: CleanWorker, processed: nat, errors: nat)
    requires SharedInv(env, start) && Polite(env, o, None) && InOrder(q)
    ensures First(w.path) == start && Kept(env, w.path) && SharedInv(env, w.s) && w.s == Last(w.path)
    ensures Deletes(w.path) == processed <= CLEANUP_BATCH
    ensures FailedDeletes(w.path) <= errors <= FailedDeletes(w.path) + 1
    ensures SparesReady(w.path)
  {
    w := new CleanWorker(o, q, start);
    processed, errors := w.SweepCleanup();
    ExtendsFirst(Start(start), w.path);
    CleanerKeeps(env, o, q, w.path);
    DeletesSpareReady(env, o, q, w.path);
  }

  /** No delete of the path was sent for a key that an upload published. */
  ghost predicate SparesReady(p: CleanPath) {
    p.Then? ==>
      && SparesReady(p.path)
      && (p.step.ev.SendDelete? && p.step.at.Deleting? ==>
            forall id | id in p.step.before.db.uploads :: p.step.before.db.uploads[id].finalKey != Some(p.step.at.key))
  }

  lemma {:induction false} DeletesSpareReady(env: Env, o: Oracle, q: Queue, p: CleanPath)
    requires CleanLegal(o, q, p) && Polite(env, o, None) && SharedInv(env, First(p))
    ensures SparesReady(p)
    decreases p
  {
    if p.Then? {
      DeletesSpareReady(env, o, q, p.path);
      CleanerKeeps(env, o, q, p.path);
      var s := Last(p.path);
      var states :| Others(env, None, s, states) && o.meanwhile(Length(p.path), s) == EndOf(s, states);
      OthersKeepCleaner(env, s, states, CleanStage(p.path));
      if p.step.at.Deleting? { TombstonesArePrivate(env, p.step.before, p.step.at.key); }
    }
  }

  lemma TombstonesArePrivate(env: Env, s: Shared, k: Key)
    requires SharedInv(env, s) && k in s.db.tombstones
    ensures forall id | id in s.db.uploads :: s.db.uploads[id].finalKey != Some(k)
  {
    forall id | id in s.db.uploads ensures s.db.uploads[id].finalKey != Some(k) {
      assert Retired(s.db, k) && FinalTracked(s.db, id, s.db.uploads[id]);
    }
  }
}
