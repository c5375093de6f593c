/** A finalizing upload expires only after its staging object was seen to be absent, at a moment when no
    capability could start another write, under one claim that stayed live from that moment to the commit. */
module MissingExpiry {
  import opened Types
  import opened Transactions
  import opened DbInvariant
  import opened World
  import opened Invariant
  import opened WorldInvariant
  import opened Safety

  predicate AboutToExpire(w: World, i: nat) {
    i in w.finalizers && w.finalizers[i].Working? && w.finalizers[i].pc.CommitExpire?
  }

  /** This event is the GET of staging that found nothing, after the write window had closed. */
  predicate SawNothing(w: World, ev: Event, i: nat, c: Claim) {
    && ev == Fin(i, Get(Missing))
    && i in w.finalizers && w.finalizers[i].Working? && w.finalizers[i].claim == c
    && w.finalizers[i].pc.CaptureStaging? && w.finalizers[i].pc.eligible
    && c.stagingKey !in w.s.objects
  }

  lemma StepToExpire(env: Env, s: Shared, l: Finalizer, e: FinEvent, s': Shared, l': Finalizer)
    requires FinInv(env, s, l) && FinStep(env, s, l, e, s', l') && l'.Working? && l'.pc.CommitExpire?
    ensures l == l' || (e == Get(Missing) && l.Working? && l.claim == l'.claim && l.pc.CaptureStaging? && l.pc.eligible
                        && l.claim.stagingKey !in s.objects)
  {
  }

  lemma ArrivedAt(env: Env, worlds: seq<World>, events: seq<Event>, n: nat, i: nat)
    requires Run(env, worlds, events) && 0 < n < |worlds| && AboutToExpire(worlds[n], i)
    ensures i in worlds[n - 1].finalizers
    ensures worlds[n - 1].finalizers[i] == worlds[n].finalizers[i]
            || SawNothing(worlds[n - 1], events[n - 1], i, worlds[n].finalizers[i].claim)
  {
    var w, ev, w' := worlds[n - 1], events[n - 1], worlds[n];
    FinalizersMoveAt(env, worlds, events, n - 1);
    if ev.Fin? && ev.i == i {
      FinInvAt(env, worlds, events, n - 1, i);
      StepToExpire(env, w.s, w.finalizers[i], ev.fin, w'.s, w'.finalizers[i]);
    }
  }

  lemma {:induction false} ObservationExists(env: Env, worlds: seq<World>, events: seq<Event>, n: nat, i: nat)
    returns (j: nat)
    requires Run(env, worlds, events) && n < |worlds| && AboutToExpire(worlds[n], i)
    ensures j < n && SawNothing(worlds[j], events[j], i, worlds[n].finalizers[i].claim)
    decreases n
  {
    if n == 0 {
      assert false;
    } else {
      ArrivedAt(env, worlds, events, n, i);
      if SawNothing(worlds[n - 1], events[n - 1], i, worlds[n].finalizers[i].claim) {
        j := n - 1;
      } else {
        j := ObservationExists(env, worlds, events, n - 1, i);
      }
    }
  }

  predicate ExpiresMissing(d: Db, e: Db, id: Uuid) {
    && id in d.uploads && id in e.uploads
    && d.uploads[id].state.Finalizing? && e.uploads[id].state.Expired?
  }

  lemma CommitThatExpires(env: Env, s: Shared, l: Finalizer, e: FinEvent, s': Shared, l': Finalizer, id: Uuid)
    requires FinStep(env, s, l, e, s', l') && ExpiresMissing(s.db, s'.db, id)
    ensures l.Working? && l.pc.CommitExpire? && l.claim.upload == id && Live(s.db, s.now, id, l.claim.token)
  {
  }

  lemma ExpirerOf(env: Env, worlds: seq<World>, events: seq<Event>, n: nat, id: Uuid) returns (i: nat)
    requires Run(env, worlds, events) && n < |events|
    requires ExpiresMissing(worlds[n].s.db, worlds[n + 1].s.db, id)
    ensures AboutToExpire(worlds[n], i) && worlds[n].finalizers[i].claim.upload == id
    ensures Live(worlds[n].s.db, worlds[n].s.now, id, worlds[n].finalizers[i].claim.token)
  {
    var w, ev, w' := worlds[n], events[n], worlds[n + 1];
    RunStep(env, worlds, events, n);
    assert UploadStep(w.s.db.uploads[id], w'.s.db.uploads[id], w.s.now, TokenBy(w, ev));
    assert ev.Fin?;
    i := ev.i;
    FinalizersMoveAt(env, worlds, events, n);
    CommitThatExpires(env, w.s, w.finalizers[i], ev.fin, w'.s, w'.finalizers[i], id);
  }

  /** The capstone. `j` is the moment of the observation. */
  lemma MissingExpiryIsSound(env: Env, worlds: seq<World>, events: seq<Event>, n: nat, id: Uuid)
    returns (j: nat, token: Uuid)
    requires Run(env, worlds, events) && n < |events|
    requires ExpiresMissing(worlds[n].s.db, worlds[n + 1].s.db, id)
    ensures j <= n && Staging(id) !in worlds[j].s.objects
    ensures id in worlds[j].s.db.uploads && worlds[j].s.db.uploads[id].deadline <= worlds[j].s.now
    ensures forall z, cap | n < z < |worlds| && cap in worlds[z].s.caps && cap.upload == id ::
              cap.expiresAt <= worlds[j].s.now
    ensures forall k | j <= k <= n :: Live(worlds[k].s.db, worlds[k].s.now, id, token)
  {
    var i := ExpirerOf(env, worlds, events, n, id);
    j := ObservationExists(env, worlds, events, n, i);
    var c := worlds[n].finalizers[i].claim;
    token := c.token;
    WindowAt(env, worlds, events, j, n + 1, i, c);
    forall z, cap | n < z < |worlds| && cap in worlds[z].s.caps && cap.upload == id
      ensures cap.expiresAt <= worlds[j].s.now
    {
      WindowAt(env, worlds, events, j, z, i, c);
    }
    forall k | j <= k <= n ensures Live(worlds[k].s.db, worlds[k].s.now, id, token) {
      LiveBetween(env, worlds, events, j, k, n, c);
    }
  }

  /** At the observation the deadline has passed, and so has every capability handed out by any later time. */
  lemma WindowAt(env: Env, worlds: seq<World>, events: seq<Event>, j: nat, n: nat, i: nat, c: Claim)
    requires Run(env, worlds, events) && j <= n < |worlds| && j < |events|
    requires SawNothing(worlds[j], events[j], i, c)
    ensures Staging(c.upload) !in worlds[j].s.objects
    ensures c.upload in worlds[j].s.db.uploads && worlds[j].s.db.uploads[c.upload].deadline <= worlds[j].s.now
    ensures c.token in worlds[j].s.issued
    ensures forall cap | cap in worlds[n].s.caps && cap.upload == c.upload :: cap.expiresAt <= worlds[j].s.now
  {
    FinInvAt(env, worlds, events, j, i);
    var h := worlds[j].finalizers[i].pc.horizon;
    assert WindowClosed(worlds[j].s, c, h);
    HorizonFrozen(env, worlds, events, j, n, c, h);
    RunKeeps(env, worlds, events, n);
  }

  lemma {:induction false} HorizonFrozen(env: Env, worlds: seq<World>, events: seq<Event>, j: nat, n: nat, c: Claim,
                                         h: Time)
    requires Run(env, worlds, events) && j <= n < |worlds| && WindowClosed(worlds[j].s, c, h)
    ensures WindowClosed(worlds[n].s, c, h)
    decreases n
  {
    if j < n {
      HorizonFrozen(env, worlds, events, j, n - 1, c, h);
      RunStep(env, worlds, events, n - 1);
      StableWindow(worlds[n - 1].s, worlds[n].s, TokenBy(worlds[n - 1], events[n - 1]),
          UploadBy(worlds[n - 1], events[n - 1]), c, h);
    }
  }

  lemma LiveBetween(env: Env, worlds: seq<World>, events: seq<Event>, j: nat, k: nat, n: nat, c: Claim)
    requires Run(env, worlds, events) && j <= k <= n < |worlds|
    requires c.upload in worlds[j].s.db.uploads && c.token in worlds[j].s.issued
    requires Live(worlds[n].s.db, worlds[n].s.now, c.upload, c.token)
    ensures Live(worlds[k].s.db, worlds[k].s.now, c.upload, c.token)
  {
    PermanentRun(env, worlds, events, j, k);
    if !Live(worlds[k].s.db, worlds[k].s.now, c.upload, c.token) {
      DeadTokensStayDead(env, worlds, events, k, n, c.upload, c.token);
    }
  }
}
