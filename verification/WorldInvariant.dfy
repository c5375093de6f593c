/** The invariant of the whole system and its preservation by every event. */
module WorldInvariant {
  import opened Types
  import opened Transactions
  import opened World
  import opened Invariant
  import opened FinalizerProofs
  import opened ActorProofs

  ghost predicate FinalizersInv(env: Env, s: Shared, fs: map<nat, Finalizer>) {
    && (forall i | i in fs :: FinInv(env, s, fs[i]))
    && (forall i, j | i in fs && j in fs && i != j && fs[i].Working? && fs[j].Working? ::
          fs[i].claim.token != fs[j].claim.token)
  }

  ghost predicate CleanersInv(s: Shared, cs: map<nat, Cleaner>) {
    forall i | i in cs :: CleanInv(s, cs[i])
  }

  ghost predicate CreatorsInv(s: Shared, cs: map<nat, Creator>) {
    && (forall i | i in cs :: CreatorInv(s, cs[i]))
    && (forall i | i in cs && OwnId(cs[i]).Some? :: OwnId(cs[i]).value in s.issued)
    && (forall i, j | i in cs && j in cs && i != j && OwnId(cs[i]).Some? :: OwnId(cs[i]) != OwnId(cs[j]))
  }

  /** An answered create call names the one upload that holds its key and its declarations. */
  predicate Answered(s: Shared, r: CreateReturn) {
    && Holds(s.db, r.cmd.idempotencyKey, r.upload)
    && Matches(s.db.uploads[r.upload], r.cmd)
    && (r.capability.Some? ==> Capability(r.upload, r.capability.value) in s.caps)
  }

  ghost predicate CreatedInv(s: Shared, cs: map<nat, Creator>, log: seq<CreateReturn>) {
    && (forall n | 0 <= n < |log| :: Answered(s, log[n]))
    && (forall m, n | 0 <= m < n < |log| && log[m].created && log[n].created :: log[m].upload != log[n].upload)
    && (forall n, i | 0 <= n < |log| && log[n].created && i in cs :: OwnId(cs[i]) != Some(log[n].upload))
  }

  /** A completion that was answered left the upload out of `pending`, and at most one answer per upload reports the
      change. */
  ghost predicate CompletedInv(s: Shared, log: seq<CompleteReturn>) {
    && (forall n | 0 <= n < |log| :: log[n].upload in s.db.uploads && !s.db.uploads[log[n].upload].state.Pending?)
    && (forall m, n | 0 <= m < n < |log| && log[m].transition.Some? && log[n].transition.Some? ::
          log[m].upload != log[n].upload)
  }

  ghost predicate WorldInv(env: Env, w: World) {
    && SharedInv(env, w.s)
    && FinalizersInv(env, w.s, w.finalizers)
    && CleanersInv(w.s, w.cleaners)
    && CreatorsInv(w.s, w.creators)
    && CreatedInv(w.s, w.creators, w.created)
    && CompletedInv(w.s, w.completed)
  }

  lemma InitKeeps(env: Env, w: World)
    requires Init(w)
    ensures WorldInv(env, w)
  {
  }

  /** The claim token under which an event acts. */
  function TokenBy(w: World, ev: Event): Option<Uuid> {
    if ev.Fin? && ev.i in w.finalizers then TokenOf(w.finalizers[ev.i], ev.fin) else None
  }

  /** The upload an event can create. */
  function UploadBy(w: World, ev: Event): Option<Uuid> {
    if ev.Create? && ev.i in w.creators then Creating(w.creators[ev.i], ev.create) else None
  }

  // -------------------------------------------------- everybody else's facts

  lemma OthersFinalizers(env: Env, s: Shared, s': Shared, byToken: Option<Uuid>, byUpload: Option<Uuid>, fs: map<nat,
                         Finalizer>)
    requires SharedInv(env, s) && Guarantee(s, s', byToken, byUpload) && FinalizersInv(env, s, fs)
    requires forall i | i in fs && fs[i].Working? :: byToken != Some(fs[i].claim.token)
    ensures FinalizersInv(env, s', fs)
  {
    forall i | i in fs ensures FinInv(env, s', fs[i]) {
      StableFinalizer(env, s, s', byToken, byUpload, fs[i]);
    }
  }

  lemma OthersCleaners(s: Shared, s': Shared, byToken: Option<Uuid>, byUpload: Option<Uuid>, cs: map<nat, Cleaner>)
    requires Guarantee(s, s', byToken, byUpload) && CleanersInv(s, cs)
    ensures CleanersInv(s', cs)
  {
  }

  lemma OthersCreators(env: Env, s: Shared, s': Shared, byToken: Option<Uuid>, byUpload: Option<Uuid>, cs: map<nat,
                       Creator>)
    requires SharedInv(env, s) && Guarantee(s, s', byToken, byUpload) && CreatorsInv(s, cs)
    requires forall i | i in cs && OwnId(cs[i]).Some? :: byUpload != OwnId(cs[i])
    ensures CreatorsInv(s', cs)
  {
  }

  lemma OldAnswers(s: Shared, s': Shared, byToken: Option<Uuid>, byUpload: Option<Uuid>, cs: map<nat, Creator>,
                   log: seq<CreateReturn>)
    requires Guarantee(s, s', byToken, byUpload) && CreatedInv(s, cs, log)
    ensures CreatedInv(s', cs, log)
  {
  }

  lemma OldCompletions(s: Shared, s': Shared, byToken: Option<Uuid>, byUpload: Option<Uuid>, log: seq<CompleteReturn>)
    requires Guarantee(s, s', byToken, byUpload) && CompletedInv(s, log)
    ensures CompletedInv(s', log)
  {
  }

  // ---------------------------------------------------------- the five kinds

  lemma ActingFinalizer(env: Env, s: Shared, s': Shared, fs: map<nat, Finalizer>, i: nat, l': Finalizer,
                        token: Option<Uuid>)
    requires SharedInv(env, s) && Guarantee(s, s', token, None) && FinalizersInv(env, s, fs) && i in fs
    requires FinInv(env, s', l') && (l'.Working? ==> token == Some(l'.claim.token))
    requires token.Some? ==> token.value !in s.issued || (fs[i].Working? && token == Some(fs[i].claim.token))
    ensures FinalizersInv(env, s', fs[i := l'])
  {
    var gs := fs[i := l'];
    forall j | j in gs ensures FinInv(env, s', gs[j]) {
      if j != i { StableFinalizer(env, s, s', token, None, fs[j]); }
    }
    forall j | j in fs && j != i && fs[j].Working? ensures token != Some(fs[j].claim.token) {
      assert FinInv(env, s, fs[j]);
    }
  }

  lemma FinNextKeeps(env: Env, w: World, i: nat, ev: FinEvent, w': World)
    requires WorldInv(env, w) && FinNext(env, w, i, ev, w')
    ensures WorldInv(env, w') && Guarantee(w.s, w'.s, TokenOf(w.finalizers[i], ev), None)
  {
    var l, l' := w.finalizers[i], w'.finalizers[i];
    var token := TokenOf(l, ev);
    FinStepKeeps(env, w.s, l, ev, w'.s, l');
    ActingFinalizer(env, w.s, w'.s, w.finalizers, i, l', token);
    OthersCleaners(w.s, w'.s, token, None, w.cleaners);
    OthersCreators(env, w.s, w'.s, token, None, w.creators);
    OldAnswers(w.s, w'.s, token, None, w.creators, w.created);
    OldCompletions(w.s, w'.s, token, None, w.completed);
  }

  lemma CleanNextKeeps(env: Env, w: World, i: nat, ev: CleanEvent, w': World)
    requires WorldInv(env, w) && CleanNext(w, i, ev, w')
    ensures WorldInv(env, w') && Guarantee(w.s, w'.s, None, None)
  {
    CleanStepKeeps(env, w.s, w.cleaners[i], ev, w'.s, w'.cleaners[i]);
    OthersFinalizers(env, w.s, w'.s, None, None, w.finalizers);
    OthersCleaners(w.s, w'.s, None, None, w.cleaners);
    OthersCreators(env, w.s, w'.s, None, None, w.creators);
    OldAnswers(w.s, w'.s, None, None, w.creators, w.created);
    OldCompletions(w.s, w'.s, None, None, w.completed);
  }

  lemma ActingCreator(env: Env, s: Shared, s': Shared, cs: map<nat, Creator>, i: nat, ev: CreateEvent, l': Creator)
    requires SharedInv(env, s) && CreatorsInv(s, cs) && i in cs && CreatorInv(s', l')
    requires OwnId(l') == OwnId(cs[i]) || OwnId(l') == None
              || (ev.Sign? && OwnId(l') == Some(ev.id) && ev.id !in s.issued)
    requires OwnId(l').Some? ==> OwnId(l').value in s'.issued
    requires Guarantee(s, s', None, Creating(cs[i], ev))
    ensures CreatorsInv(s', cs[i := l'])
  {
    OwnIdsApart(s, s', cs, i, ev, l');
    forall j | j in cs && j != i ensures CreatorInv(s', cs[j]) {
      assert OwnId(cs[j]).Some? ==> Creating(cs[i], ev) != OwnId(cs[j]);
      StableCreator(env, s, s', None, Creating(cs[i], ev), cs[j]);
    }
  }

  lemma OwnIdsApart(s: Shared, s': Shared, cs: map<nat, Creator>, i: nat, ev: CreateEvent, l': Creator)
    requires CreatorsInv(s, cs) && i in cs && s.issued <= s'.issued
    requires OwnId(l') == OwnId(cs[i]) || OwnId(l') == None
              || (ev.Sign? && OwnId(l') == Some(ev.id) && ev.id !in s.issued)
    requires OwnId(l').Some? ==> OwnId(l').value in s'.issued
    ensures var ds := cs[i := l'];
            && (forall j | j in ds && OwnId(ds[j]).Some? :: OwnId(ds[j]).value in s'.issued)
            && (forall j, k | j in ds && k in ds && j != k && OwnId(ds[j]).Some? :: OwnId(ds[j]) != OwnId(ds[k]))
  {
  }

  lemma NewAnswer(env: Env, s: Shared, s': Shared, l: Creator, ev: CreateEvent, l': Creator, ret: Option<CreateReturn>)
    requires CreatorInv(s, l) && CreateStep(s, l, ev, s', l', ret) && ret.Some?
    ensures Answered(s', ret.value) && l'.NoCreate?
    ensures ret.value.created ==> OwnId(l) == Some(ret.value.upload)
  {
  }

  lemma OldAnswersUnowned(s: Shared, s': Shared, cs: map<nat, Creator>, i: nat, ev: CreateEvent, l': Creator,
                          log: seq<CreateReturn>)
    requires IssuedInv(s) && CreatedInv(s, cs, log) && CreatedInv(s', cs, log) && i in cs
    requires OwnId(l') == OwnId(cs[i]) || OwnId(l') == None
              || (ev.Sign? && OwnId(l') == Some(ev.id) && ev.id !in s.issued)
    ensures CreatedInv(s', cs[i := l'], log)
  {
  }

  lemma AnswersLogged(env: Env, s: Shared, s': Shared, cs: map<nat, Creator>, i: nat, ev: CreateEvent, l': Creator,
                      ret: Option<CreateReturn>, log: seq<CreateReturn>)
    requires SharedInv(env, s) && CreatorsInv(s, cs) && CreatedInv(s, cs, log) && i in cs
    requires CreateStep(s, cs[i], ev, s', l', ret) && Guarantee(s, s', None, Creating(cs[i], ev))
    ensures CreatedInv(s', cs[i := l'], Logged(log, ret))
  {
    OldAnswers(s, s', None, Creating(cs[i], ev), cs, log);
    CreateStepFacts(env, s, cs[i], ev, s', l', ret);
    OldAnswersUnowned(s, s', cs, i, ev, l', log);
    if ret.Some? {
      NewAnswer(env, s, s', cs[i], ev, l', ret);
      AnswerAppended(s, s', cs, i, l', ret.value, log);
    }
  }

  lemma AnswerAppended(s: Shared, s': Shared, cs: map<nat, Creator>, i: nat, l': Creator, r: CreateReturn,
                       log: seq<CreateReturn>)
    requires CreatorsInv(s, cs) && CreatedInv(s, cs, log) && CreatedInv(s', cs[i := l'], log) && i in cs
    requires Answered(s', r) && l'.NoCreate? && (r.created ==> OwnId(cs[i]) == Some(r.upload))
    ensures CreatedInv(s', cs[i := l'], log + [r])
  {
  }

  lemma CreateNextKeeps(env: Env, w: World, i: nat, ev: CreateEvent, ret: Option<CreateReturn>, w': World)
    requires WorldInv(env, w) && CreateNext(w, i, ev, ret, w')
    ensures WorldInv(env, w') && Guarantee(w.s, w'.s, None, Creating(w.creators[i], ev))
  {
    var id := Creating(w.creators[i], ev);
    CreateStepShared(env, w.s, w.creators[i], ev, w'.s, w'.creators[i], ret);
    CreateStepFacts(env, w.s, w.creators[i], ev, w'.s, w'.creators[i], ret);
    ActingCreator(env, w.s, w'.s, w.creators, i, ev, w'.creators[i]);
    AnswersLogged(env, w.s, w'.s, w.creators, i, ev, w'.creators[i], ret, w.created);
    OthersFinalizers(env, w.s, w'.s, None, id, w.finalizers);
    OthersCleaners(w.s, w'.s, None, id, w.cleaners);
    OldCompletions(w.s, w'.s, None, id, w.completed);
  }

  lemma CompletionsLogged(s: Shared, s': Shared, l: Completer, ev: CompleteEvent, l': Completer,
                          ret: Option<CompleteReturn>, log: seq<CompleteReturn>)
    requires CompletedInv(s, log) && CompletedInv(s', log)
    requires CompleteStep(s, l, ev, s', l', ret)
    ensures CompletedInv(s', Logged(log, ret))
  {
  }

  lemma CompleteNextKeeps(env: Env, w: World, i: nat, ev: CompleteEvent, ret: Option<CompleteReturn>, w': World)
    requires WorldInv(env, w) && CompleteNext(w, i, ev, ret, w')
    ensures WorldInv(env, w') && Guarantee(w.s, w'.s, None, None)
  {
    CompleteStepKeeps(env, w.s, w.completers[i], ev, w'.s, w'.completers[i], ret);
    OldCompletions(w.s, w'.s, None, None, w.completed);
    CompletionsLogged(w.s, w'.s, w.completers[i], ev, w'.completers[i], ret, w.completed);
    OthersFinalizers(env, w.s, w'.s, None, None, w.finalizers);
    OthersCleaners(w.s, w'.s, None, None, w.cleaners);
    OthersCreators(env, w.s, w'.s, None, None, w.creators);
    OldAnswers(w.s, w'.s, None, None, w.creators, w.created);
  }

  lemma OtherNextKeeps(env: Env, w: World, ev: EnvEvent, w': World)
    requires WorldInv(env, w) && EnvStep(w.s, ev, w'.s) && w' == w.(s := w'.s)
    ensures WorldInv(env, w') && Guarantee(w.s, w'.s, None, None)
  {
    EnvStepKeeps(env, w.s, ev, w'.s);
    OthersFinalizers(env, w.s, w'.s, None, None, w.finalizers);
    OthersCleaners(w.s, w'.s, None, None, w.cleaners);
    OthersCreators(env, w.s, w'.s, None, None, w.creators);
    OldAnswers(w.s, w'.s, None, None, w.creators, w.created);
    OldCompletions(w.s, w'.s, None, None, w.completed);
  }

  /** Every event keeps the invariant and obeys the step relation. */
  lemma NextKeeps(env: Env, w: World, ev: Event, w': World)
    requires WorldInv(env, w) && Next(env, w, ev, w')
    ensures WorldInv(env, w')
    ensures Guarantee(w.s, w'.s, TokenBy(w, ev), UploadBy(w, ev))
  {
    match ev
    case Fin(i, e) => FinNextKeeps(env, w, i, e, w');
    case Clean(i, e) => CleanNextKeeps(env, w, i, e, w');
    case Create(i, e) =>
      var ret :| CreateNext(w, i, e, ret, w');
      CreateNextKeeps(env, w, i, e, ret, w');
    case Complete(i, e) =>
      var ret :| CompleteNext(w, i, e, ret, w');
      CompleteNextKeeps(env, w, i, e, ret, w');
    case Other(e) => OtherNextKeeps(env, w, e, w');
  }

  lemma StartKeeps(env: Env, worlds: seq<World>, events: seq<Event>)
    requires Run(env, worlds, events)
    ensures WorldInv(env, worlds[0])
  {
    InitKeeps(env, worlds[0]);
  }

  lemma StaysAt(env: Env, worlds: seq<World>, events: seq<Event>, n: nat)
    requires Run(env, worlds, events) && 0 < n < |worlds| && WorldInv(env, worlds[n - 1])
    ensures WorldInv(env, worlds[n])
  {
    StepAt(env, worlds, events, n - 1);
    NextKeeps(env, worlds[n - 1], events[n - 1], worlds[n]);
  }

  lemma GuaranteeAt(env: Env, worlds: seq<World>, events: seq<Event>, n: nat)
    requires Run(env, worlds, events) && n < |events| && WorldInv(env, worlds[n])
    ensures Guarantee(worlds[n].s, worlds[n + 1].s, TokenBy(worlds[n], events[n]), UploadBy(worlds[n], events[n]))
  {
    StepAt(env, worlds, events, n);
    NextKeeps(env, worlds[n], events[n], worlds[n + 1]);
  }

  /** The invariant holds in every state of every run. */
  lemma {:induction false} RunKeeps(env: Env, worlds: seq<World>, events: seq<Event>, n: nat)
    requires Run(env, worlds, events) && n < |worlds|
    ensures WorldInv(env, worlds[n])
  {
    if n == 0 {
      StartKeeps(env, worlds, events);
    } else {
      RunKeeps(env, worlds, events, n - 1);
      StaysAt(env, worlds, events, n);
    }
  }

  lemma RunStep(env: Env, worlds: seq<World>, events: seq<Event>, n: nat)
    requires Run(env, worlds, events) && n < |events|
    ensures Guarantee(worlds[n].s, worlds[n + 1].s, TokenBy(worlds[n], events[n]), UploadBy(worlds[n], events[n]))
  {
    RunKeeps(env, worlds, events, n);
    GuaranteeAt(env, worlds, events, n);
  }

  lemma FinInvAt(env: Env, worlds: seq<World>, events: seq<Event>, n: nat, i: nat)
    requires Run(env, worlds, events) && n < |worlds| && i in worlds[n].finalizers
    ensures FinInv(env, worlds[n].s, worlds[n].finalizers[i])
  {
    RunKeeps(env, worlds, events, n);
  }

  lemma FinalizersMoveAt(env: Env, worlds: seq<World>, events: seq<Event>, n: nat)
    requires Run(env, worlds, events) && n < |events|
    ensures var w, ev, w' := worlds[n], events[n], worlds[n + 1];
            if ev.Fin? then
              && ev.i in w.finalizers && ev.i in w'.finalizers
              && FinStep(env, w.s, w.finalizers[ev.i], ev.fin, w'.s, w'.finalizers[ev.i])
              && w'.finalizers == w.finalizers[ev.i := w'.finalizers[ev.i]]
            else w'.finalizers == w.finalizers
  {
    StepAt(env, worlds, events, n);
    FinalizersMove(env, worlds[n], events[n], worlds[n + 1]);
  }
}
