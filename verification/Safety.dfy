/** What holds in every state of every run, and between any two of them. */
module Safety {
  import opened Types
  import opened Schema
  import opened Transactions
  import opened Validation
  import opened DbInvariant
  import opened World
  import opened Invariant
  import opened FinalizerProofs
  import opened WorldInvariant

  // ------------------------------------------------------- published bytes

  /** Nothing that exists, or is on its way, can remove the bytes under k or replace them by others. */
  ghost predicate Untouchable(env: Env, w: World, k: Key, t: TrackedCandidate) {
    && k in w.s.objects
    && |w.s.objects[k]| == t.encodedSize && env.sha256(w.s.objects[k]) == t.sha256
    && k !in w.s.db.tombstones
    && k !in w.s.deletes
    && (forall i | i in w.cleaners && !w.cleaners[i].Resting? :: w.cleaners[i].key != k)
    && (forall p | p in w.s.puts && p.key == k :: |p.body| == t.encodedSize && env.sha256(p.body) == t.sha256)
  }

  lemma ReadyIsUntouchable(env: Env, w: World, id: Uuid)
    requires WorldInv(env, w) && id in w.s.db.uploads && w.s.db.uploads[id].state.Ready?
    ensures w.s.db.uploads[id].finalKey.Some? && w.s.db.uploads[id].finalKey.value.Media?
    ensures w.s.db.uploads[id].finalKey.value.candidate in w.s.db.candidates
    ensures Untouchable(env, w, w.s.db.uploads[id].finalKey.value,
                        w.s.db.candidates[w.s.db.uploads[id].finalKey.value.candidate].tracked)
  {
    var db := w.s.db;
    var u := db.uploads[id];
    assert UploadRowOk(id, u) && FinalTracked(db, id, u);
    var k := u.finalKey.value;
    assert CandidateInv(db, k.candidate);
    assert !Retired(db, k);
    assert Accounted(env, db, k, w.s.objects[k]);
    forall i | i in w.cleaners && !w.cleaners[i].Resting? ensures w.cleaners[i].key != k {
      assert CleanInv(w.s, w.cleaners[i]);
    }
    forall p | p in w.s.puts && p.key == k
      ensures |p.body| == u.declaredSize && env.sha256(p.body) == k.candidate.sha256
    {
      assert Accounted(env, db, p.key, p.body);
    }
  }

  // ------------------------------------------------------- between two states

  /** A closed row never changes again, a tracked candidate never changes, a tombstone keeps its target for ever. */
  ghost predicate Permanent(d: Db, e: Db) {
    && (forall id | id in d.uploads ::
          && id in e.uploads && SameIdentity(d.uploads[id], e.uploads[id])
          && d.uploads[id].horizon <= e.uploads[id].horizon
          && (Terminal(d.uploads[id].state) ==> e.uploads[id] == d.uploads[id]))
    && (forall c | c in d.candidates :: c in e.candidates && e.candidates[c] == d.candidates[c])
    && (forall k | k in d.tombstones ::
          && k in e.tombstones && e.tombstones[k].upload == d.tombstones[k].upload
          && e.tombstones[k].candidateSha == d.tombstones[k].candidateSha
          && e.tombstones[k].deleteNotBefore == d.tombstones[k].deleteNotBefore)
  }

  lemma PermanentStep(s: Shared, s': Shared, byToken: Option<Uuid>, byUpload: Option<Uuid>)
    requires Guarantee(s, s', byToken, byUpload)
    ensures Permanent(s.db, s'.db)
  {
  }

  lemma {:induction false} PermanentRun(env: Env, worlds: seq<World>, events: seq<Event>, m: nat, n: nat)
    requires Run(env, worlds, events) && m <= n < |worlds|
    ensures Permanent(worlds[m].s.db, worlds[n].s.db)
    ensures worlds[m].s.now <= worlds[n].s.now && worlds[m].s.issued <= worlds[n].s.issued
    ensures worlds[m].s.caps <= worlds[n].s.caps && worlds[m].s.deletes <= worlds[n].s.deletes
    decreases n
  {
    if m < n {
      PermanentRun(env, worlds, events, m, n - 1);
      RunStep(env, worlds, events, n - 1);
      PermanentStep(worlds[n - 1].s, worlds[n].s, TokenBy(worlds[n - 1], events[n - 1]),
          UploadBy(worlds[n - 1], events[n - 1]));
    }
  }

  /** A ready upload's bytes: once published they are stored, whole, in every later state of every interleaving. */
  lemma PublishedBytesAreSafe(env: Env, worlds: seq<World>, events: seq<Event>, m: nat, n: nat, id: Uuid)
    requires Run(env, worlds, events) && m <= n < |worlds|
    requires id in worlds[m].s.db.uploads && worlds[m].s.db.uploads[id].state.Ready?
    ensures id in worlds[n].s.db.uploads && worlds[n].s.db.uploads[id] == worlds[m].s.db.uploads[id]
    ensures worlds[m].s.db.uploads[id].finalKey.Some? && worlds[m].s.db.uploads[id].finalKey.value.Media?
    ensures worlds[m].s.db.uploads[id].finalKey.value.candidate in worlds[m].s.db.candidates
    ensures Untouchable(env, worlds[n], worlds[m].s.db.uploads[id].finalKey.value,
                        worlds[m].s.db.candidates[worlds[m].s.db.uploads[id].finalKey.value.candidate].tracked)
  {
    PermanentRun(env, worlds, events, m, n);
    RunKeeps(env, worlds, events, m);
    RunKeeps(env, worlds, events, n);
    ReadyIsUntouchable(env, worlds[m], id);
    ReadyIsUntouchable(env, worlds[n], id);
  }

  // --------------------------------------------------------------- no orphans

  /** The keys an upload may have written. */
  function Written(db: Db, id: Uuid): set<Key> {
    {Staging(id)} + set c | c in db.candidates && c.upload == id :: Media(c)
  }

  function OwnTombstones(db: Db, id: Uuid): set<Key> {
    set k | k in db.tombstones && Owner(k) == id
  }

  /** Every stored key, and every key a request in flight can still create, belongs to a durable upload: its staging
      key or an already tracked candidate. A closed upload owes the deletion of exactly what it wrote and did not
      publish; an open one owes nothing yet. */
  lemma NoOrphans(env: Env, worlds: seq<World>, events: seq<Event>, n: nat)
    requires Run(env, worlds, events) && n < |worlds|
    ensures forall k | k in worlds[n].s.objects :: Known(worlds[n].s.db, k)
    ensures forall p | p in worlds[n].s.puts :: Known(worlds[n].s.db, p.key)
    ensures forall c | c in worlds[n].s.caps :: c.upload in worlds[n].s.db.uploads
    ensures forall k | k in worlds[n].s.deletes :: k in worlds[n].s.db.tombstones
    ensures forall id | id in worlds[n].s.db.uploads ::
              OwnTombstones(worlds[n].s.db, id) ==
              if !Terminal(worlds[n].s.db.uploads[id].state) then {}
              else Written(worlds[n].s.db, id) - FinalSet(worlds[n].s.db.uploads[id])
  {
    RunKeeps(env, worlds, events, n);
    var db := worlds[n].s.db;
    forall k | k in worlds[n].s.objects ensures Known(db, k) {
      assert Accounted(env, db, k, worlds[n].s.objects[k]);
    }
    forall p | p in worlds[n].s.puts ensures Known(db, p.key) {
      assert Accounted(env, db, p.key, p.body);
    }
    forall id | id in db.uploads
      ensures OwnTombstones(db, id) ==
              if !Terminal(db.uploads[id].state) then {} else Written(db, id) - FinalSet(db.uploads[id])
    {
      ExactDuties(db, worlds[n].s.now, id);
    }
  }

  function FinalSet(u: Upload): set<Key> {
    if u.finalKey.Some? then {u.finalKey.value} else {}
  }

  lemma ExactDuties(db: Db, now: Time, id: Uuid)
    requires DbInv(db, now) && id in db.uploads
    ensures OwnTombstones(db, id) ==
            if !Terminal(db.uploads[id].state) then {} else Written(db, id) - FinalSet(db.uploads[id])
  {
  }

  /** If nothing is put under k from event m on, a delete that succeeds at m leaves k absent for good. */
  lemma {:induction false} DeletedStaysDeleted(env: Env, worlds: seq<World>, events: seq<Event>, m: nat, n: nat, k: Key)
    requires Run(env, worlds, events) && m < n < |worlds|
    requires events[m].Clean? && events[m].clean == SendDelete(DeleteSucceeded)
    requires events[m].i in worlds[m].cleaners && worlds[m].cleaners[events[m].i].Deleting?
              && worlds[m].cleaners[events[m].i].key == k
    requires forall j | m < j < n :: !Puts(worlds[j], events[j], k)
    ensures k !in worlds[n].s.objects
    decreases n
  {
    StepAt(env, worlds, events, n - 1);
    if n - 1 > m {
      DeletedStaysDeleted(env, worlds, events, m, n - 1, k);
      OnlyPutsStore(env, worlds[n - 1], events[n - 1], worlds[n], k);
    } else {
      DeleteRemoves(env, worlds[m], events[m], worlds[n], k);
    }
  }

  lemma DeleteRemoves(env: Env, w: World, ev: Event, w': World, k: Key)
    requires Next(env, w, ev, w') && ev.Clean? && ev.clean == SendDelete(DeleteSucceeded)
    requires ev.i in w.cleaners && w.cleaners[ev.i].Deleting? && w.cleaners[ev.i].key == k
    ensures k !in w'.s.objects
  {
  }

  /** This event stores bytes under k: a PUT of k lands, or a finalizer's PUT of k is answered with success. */
  predicate Puts(w: World, ev: Event, k: Key) {
    || (ev.Other? && ev.env.LandPut? && ev.env.put.key == k)
    || (ev.Fin? && ev.fin == SendPut(true) && ev.i in w.finalizers && w.finalizers[ev.i].Working?
        && w.finalizers[ev.i].pc.PutCandidate? && w.finalizers[ev.i].pc.candidate.objectKey == k)
  }

  lemma OnlyPutsStore(env: Env, w: World, ev: Event, w': World, k: Key)
    requires Next(env, w, ev, w') && k !in w.s.objects && !Puts(w, ev, k)
    ensures k !in w'.s.objects
  {
    match ev
    case Fin(i, e) => assert FinStep(env, w.s, w.finalizers[i], e, w'.s, w'.finalizers[i]);
    case Clean(i, e) => assert CleanStep(w.s, w.cleaners[i], e, w'.s, w'.cleaners[i]);
    case Create(i, e) =>
      var ret :| CreateNext(w, i, e, ret, w');
      assert CreateStep(w.s, w.creators[i], e, w'.s, w'.creators[i], ret);
    case Complete(i, e) =>
      var ret :| CompleteNext(w, i, e, ret, w');
      assert CompleteStep(w.s, w.completers[i], e, w'.s, w'.completers[i], ret);
    case Other(e) => assert EnvStep(w.s, e, w'.s);
  }

  // --------------------------------------------------------- write horizons

  /** Every capability ever handed out ends by the stored horizon, whichever path handed it out. */
  lemma HorizonCoversCapabilities(env: Env, worlds: seq<World>, events: seq<Event>, m: nat, n: nat, cap: Capability)
    requires Run(env, worlds, events) && m <= n < |worlds| && cap in worlds[m].s.caps
    ensures cap.upload in worlds[n].s.db.uploads && cap.expiresAt <= worlds[n].s.db.uploads[cap.upload].horizon
  {
    PermanentRun(env, worlds, events, m, n);
    RunKeeps(env, worlds, events, n);
  }

  /** A staging delete is reserved only when every capability for that upload, including any handed out later, has
      expired. */
  lemma StagingDeleteWaitsForCapabilities(env: Env, worlds: seq<World>, events: seq<Event>, m: nat, n: nat, id: Uuid,
                                          cap: Capability)
    requires Run(env, worlds, events) && m < |events| && n < |worlds|
    requires events[m].Clean? && events[m].clean.Reserve? && events[m].clean.key == Staging(id)
    requires cap in worlds[n].s.caps && cap.upload == id
    ensures cap.expiresAt <= worlds[m].s.now
    ensures id in worlds[m].s.db.uploads && Terminal(worlds[m].s.db.uploads[id].state)
    ensures Staging(id) in worlds[m].s.db.tombstones
    ensures worlds[m].s.db.tombstones[Staging(id)].deleteNotBefore == worlds[m].s.db.uploads[id].horizon
  {
    RunKeeps(env, worlds, events, m);
    StepAt(env, worlds, events, m);
    var k := Staging(id);
    var db := worlds[m].s.db;
    assert CleanStep(worlds[m].s, worlds[m].cleaners[events[m].i], events[m].clean, worlds[m + 1].s,
        worlds[m + 1].cleaners[events[m].i]);
    assert TombstoneInv(db, worlds[m].s.now, k) && Retired(db, k);
    var last := if m < n then n else m;
    if n <= m {
      PermanentRun(env, worlds, events, n, m);
    }
    HorizonCoversCapabilities(env, worlds, events, n, last, cap);
    PermanentRun(env, worlds, events, m, last);
  }

  // ------------------------------------------------------------ claim fencing

  lemma {:induction false} DeadTokensStayDead(env: Env, worlds: seq<World>, events: seq<Event>, m: nat, n: nat,
                                              id: Uuid, t: Uuid)
    requires Run(env, worlds, events) && m <= n < |worlds|
    requires id in worlds[m].s.db.uploads && t in worlds[m].s.issued && !Live(worlds[m].s.db, worlds[m].s.now, id, t)
    ensures !Live(worlds[n].s.db, worlds[n].s.now, id, t)
    decreases n
  {
    if m < n {
      DeadTokensStayDead(env, worlds, events, m, n - 1, id, t);
      PermanentRun(env, worlds, events, m, n - 1);
      RunStep(env, worlds, events, n - 1);
      NoRevival(worlds[n - 1].s, worlds[n].s, TokenBy(worlds[n - 1], events[n - 1]),
          UploadBy(worlds[n - 1], events[n - 1]), id, t);
    }
  }

  /** A claim is live during one interval only: once lost, by expiry, release or takeover, it never comes back. */
  lemma ClaimsAreLiveOnce(env: Env, worlds: seq<World>, events: seq<Event>, l: nat, m: nat, n: nat, id: Uuid, t: Uuid)
    requires Run(env, worlds, events) && l <= m <= n < |worlds|
    requires Live(worlds[l].s.db, worlds[l].s.now, id, t) && Live(worlds[n].s.db, worlds[n].s.now, id, t)
    ensures Live(worlds[m].s.db, worlds[m].s.now, id, t)
  {
    RunKeeps(env, worlds, events, l);
    PermanentRun(env, worlds, events, l, m);
    if !Live(worlds[m].s.db, worlds[m].s.now, id, t) {
      DeadTokensStayDead(env, worlds, events, m, n, id, t);
    }
  }

  /** A worker whose claim is not live changes no table, whatever it does next (short of claiming anew). */
  lemma StaleWorkerChangesNothing(env: Env, w: World, i: nat, e: FinEvent, w': World)
    requires Next(env, w, Fin(i, e), w') && !e.TakeClaim?
    requires w.finalizers[i].Working? ==>
               !Live(w.s.db, w.s.now, w.finalizers[i].claim.upload, w.finalizers[i].claim.token)
    ensures w'.s.db == w.s.db
  {
  }

  predicate ClaimsIn(ev: Event, i: nat) {
    ev.Fin? && ev.i == i && ev.fin.TakeClaim?
  }

  lemma KeepsItsClaim(env: Env, s: Shared, l: Finalizer, e: FinEvent, s': Shared, l': Finalizer, c: Claim)
    requires FinStep(env, s, l, e, s', l') && !e.TakeClaim? && (l.Working? ==> l.claim == c)
    ensures l'.Working? ==> l'.claim == c
  {
  }

  lemma {:induction false} SameClaim(env: Env, worlds: seq<World>, events: seq<Event>, m: nat, n: nat, i: nat, c: Claim)
    requires Run(env, worlds, events) && m <= n < |worlds|
    requires i in worlds[m].finalizers && (worlds[m].finalizers[i].Working? ==> worlds[m].finalizers[i].claim == c)
    requires forall k | m <= k < n :: !ClaimsIn(events[k], i)
    ensures i in worlds[n].finalizers && (worlds[n].finalizers[i].Working? ==> worlds[n].finalizers[i].claim == c)
    decreases n
  {
    if m < n {
      SameClaim(env, worlds, events, m, n - 1, i, c);
      FinalizersMoveAt(env, worlds, events, n - 1);
      var w, ev, w' := worlds[n - 1], events[n - 1], worlds[n];
      if ev.Fin? && ev.i == i {
        KeepsItsClaim(env, w.s, w.finalizers[i], ev.fin, w'.s, w'.finalizers[i], c);
      }
    }
  }

  /** Once a worker's claim is not live, nothing that worker does before it claims anew changes any table. */
  lemma StaleCallChangesNothing(env: Env, worlds: seq<World>, events: seq<Event>, m: nat, n: nat, i: nat)
    requires Run(env, worlds, events) && m <= n < |events|
    requires i in worlds[m].finalizers && worlds[m].finalizers[i].Working?
    requires var c := worlds[m].finalizers[i].claim; !Live(worlds[m].s.db, worlds[m].s.now, c.upload, c.token)
    requires forall k | m <= k <= n :: !ClaimsIn(events[k], i)
    requires events[n].Fin? && events[n].i == i
    ensures worlds[n + 1].s.db == worlds[n].s.db
  {
    var c := worlds[m].finalizers[i].claim;
    FinInvAt(env, worlds, events, m, i);
    SameClaim(env, worlds, events, m, n, i, c);
    DeadTokensStayDead(env, worlds, events, m, n, c.upload, c.token);
    StepAt(env, worlds, events, n);
    StaleWorkerChangesNothing(env, worlds[n], i, events[n].fin, worlds[n + 1]);
  }

  /** The claim under which a finalizer's event runs. */
  function ActingClaim(w: World, ev: Event): Option<Claim> {
    if ev.Fin? && ev.i in w.finalizers && w.finalizers[ev.i].Working? then Some(w.finalizers[ev.i].claim) else None
  }

  /** How a finalizing row can change in one event: an API call moves only the wake-up time and the horizon; a
      worker under the stored, unexpired token; or a new claim over a lease that has run out. A candidate row
      appears only under the live token. */
  lemma FinalizingRowsAreFenced(env: Env, worlds: seq<World>, events: seq<Event>, n: nat, id: Uuid)
    requires Run(env, worlds, events) && n < |events|
    requires id in worlds[n].s.db.uploads && worlds[n].s.db.uploads[id].state.Finalizing?
    ensures id in worlds[n + 1].s.db.uploads
    ensures var u, v := worlds[n].s.db.uploads[id], worlds[n + 1].s.db.uploads[id];
            || v == u.(reconcileAfter := v.reconcileAfter, horizon := v.horizon)
            || (&& ActingClaim(worlds[n], events[n]).Some? && !events[n].fin.TakeClaim?
                && Live(worlds[n].s.db, worlds[n].s.now, id, ActingClaim(worlds[n], events[n]).value.token))
            || (&& events[n].Fin? && events[n].fin.TakeClaim? && events[n].fin.token !in worlds[n].s.issued
                && !HasLease(u, worlds[n].s.now)
                && v == u.(claimToken := Some(events[n].fin.token), claimExpiresAt := v.claimExpiresAt))
    ensures forall c | c in worlds[n + 1].s.db.candidates && c !in worlds[n].s.db.candidates ::
              && ActingClaim(worlds[n], events[n]).Some?
              && Live(worlds[n].s.db, worlds[n].s.now, c.upload, ActingClaim(worlds[n], events[n]).value.token)
  {
    RunKeeps(env, worlds, events, n);
    StepAt(env, worlds, events, n);
    RunStep(env, worlds, events, n);
    var w, ev := worlds[n], events[n];
    assert UploadStep(w.s.db.uploads[id], worlds[n + 1].s.db.uploads[id], w.s.now, TokenBy(w, ev));
    assert UploadRowOk(id, w.s.db.uploads[id]);
    if ev.Fin? {
      assert FinStep(env, w.s, w.finalizers[ev.i], ev.fin, worlds[n + 1].s, worlds[n + 1].finalizers[ev.i]);
      if ev.fin.TakeClaim? { FreshTokenHoldsNothing(env, w, ev.fin.token); }
    }
  }

  lemma FreshTokenHoldsNothing(env: Env, w: World, t: Uuid)
    requires WorldInv(env, w) && t !in w.s.issued
    ensures forall id :: !Live(w.s.db, w.s.now, id, t)
  {
  }

  // -------------------------------------------------------- well-formed rows

  /** The schema holds in every state, so no committed transaction relied on the database refusing it. */
  lemma SchemaHolds(env: Env, worlds: seq<World>, events: seq<Event>, n: nat)
    requires Run(env, worlds, events) && n < |worlds|
    ensures SchemaOk(worlds[n].s.db)
  {
    RunKeeps(env, worlds, events, n);
    SchemaFollows(worlds[n].s.db, worlds[n].s.now);
  }

  /** What getUploadByID needs of a row: a published image of the declared size in the declared format, or a
      public failure code. */
  lemma StatusReadsAreWellFormed(env: Env, worlds: seq<World>, events: seq<Event>, n: nat, id: Uuid)
    requires Run(env, worlds, events) && n < |worlds| && id in worlds[n].s.db.uploads
    ensures var db := worlds[n].s.db;
            var u := db.uploads[id];
            && (u.state.Ready? ==>
                  && u.finalKey.Some? && u.finalKey.value.Media? && u.finalKey.value.candidate.upload == id
                  && u.finalKey.value.candidate in db.candidates)
            && (u.state.Rejected? ==>
                  && u.rejectionClass.Some? && u.rejectionReason.Some?
                  && PublicFailureCode(u.rejectionClass.value, u.rejectionReason.value) != "")
    ensures forall c | c in worlds[n].s.db.candidates && c.upload == id ::
              var t, u := worlds[n].s.db.candidates[c].tracked, worlds[n].s.db.uploads[id];
              && t.encodedSize == u.declaredSize && CandidateRowOk(c, t)
              && (t.format.Jpeg? <==> u.declaredType.ImageJpeg?) && (t.format.Png? <==> u.declaredType.ImagePng?)
  {
    RunKeeps(env, worlds, events, n);
    var db := worlds[n].s.db;
    var u := db.uploads[id];
    assert UploadRowOk(id, u) && FinalTracked(db, id, u);
    if u.rejectionClass.Some? { PublicCodesCoverTheSchema(u.rejectionClass.value, u.rejectionReason.value); }
    forall c | c in db.candidates && c.upload == id ensures CandidateInv(db, c) {
    }
  }

  /** The three errors that guard a terminal commit, and the impossible verdict, never occur: the commit of a live
      worker always goes through, and a missing-staging expiry passes both of its re-checks. */
  lemma LiveCommitsGoThrough(env: Env, worlds: seq<World>, events: seq<Event>, n: nat, i: nat)
    requires Run(env, worlds, events) && n < |worlds|
    requires i in worlds[n].finalizers && worlds[n].finalizers[i].Working?
    requires var pc := worlds[n].finalizers[i].pc; pc.CommitReady? || pc.CommitReject? || pc.CommitExpire?
    ensures var c := worlds[n].finalizers[i].claim;
            TxTerminal(worlds[n].s, c, worlds[n].finalizers[i].pc).Changed? <==>
                Live(worlds[n].s.db, worlds[n].s.now, c.upload, c.token)
    ensures !TxTerminal(worlds[n].s, worlds[n].finalizers[i].claim, worlds[n].finalizers[i].pc).Broken?
  {
    RunKeeps(env, worlds, events, n);
    var s, l := worlds[n].s, worlds[n].finalizers[i];
    assert FinInv(env, s, l);
    if Live(s.db, s.now, l.claim.upload, l.claim.token) {
      LiveTerminalChanges(env, s, l.claim, l.pc);
    }
  }
}
