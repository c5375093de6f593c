/** What the callers of create and complete are told, under any concurrency and any lost commit. */
module Calls {
  import opened Types
  import opened Transactions
  import opened DbInvariant
  import opened World
  import opened Invariant
  import opened WorldInvariant
  import opened Safety

  /** Two successful answers for one idempotency key name one upload with the declarations of both callers, at most
      one of them says it was created, and every capability they carry ends by the stored horizon. */
  lemma CreateIsIdempotent(env: Env, worlds: seq<World>, events: seq<Event>, n: nat, a: nat, b: nat)
    requires Run(env, worlds, events) && n < |worlds| && a < b < |worlds[n].created|
    requires worlds[n].created[a].cmd.idempotencyKey == worlds[n].created[b].cmd.idempotencyKey
    ensures worlds[n].created[a].upload == worlds[n].created[b].upload
    ensures worlds[n].created[a].cmd == worlds[n].created[b].cmd
    ensures !(worlds[n].created[a].created && worlds[n].created[b].created)
    ensures var r := worlds[n].created[a];
            && Holds(worlds[n].s.db, r.cmd.idempotencyKey, r.upload) && Matches(worlds[n].s.db.uploads[r.upload], r.cmd)
            && (r.capability.Some? ==> r.capability.value <= worlds[n].s.db.uploads[r.upload].horizon)
  {
    RunKeeps(env, worlds, events, n);
    var w := worlds[n];
    assert Answered(w.s, w.created[a]) && Answered(w.s, w.created[b]);
  }

  /** A call that carries `cmd` and has not got as far as handing out a capability, or that is over. */
  predicate CarriesOnly(l: Creator, cmd: Command) {
    l.NoCreate? || (!l.HandOut? && l.cmd == cmd)
  }

  predicate Differs(db: Db, cmd: Command, id: Uuid) {
    Holds(db, cmd.idempotencyKey, id) && !Matches(db.uploads[id], cmd)
  }

  lemma DifferingStep(w: World, i: nat, e: CreateEvent, ret: Option<CreateReturn>, w': World, cmd: Command, id: Uuid)
    requires CreateNext(w, i, e, ret, w') && !e.Sign? && CarriesOnly(w.creators[i], cmd)
    requires Differs(w.s.db, cmd, id) && IdempotencyInv(w.s.db)
    ensures w'.s.db == w.s.db && w'.s.caps == w.s.caps && ret == None && CarriesOnly(w'.creators[i], cmd)
  {
    assert Taken(w.s.db, cmd.idempotencyKey);
  }

  predicate SignsIn(ev: Event, i: nat) {
    ev.Create? && ev.i == i && ev.create.Sign?
  }

  /** One event of a run, seen by a call whose declarations differ from the stored ones. */
  lemma DifferingAt(env: Env, worlds: seq<World>, events: seq<Event>, n: nat, i: nat, cmd: Command, id: Uuid)
    requires Run(env, worlds, events) && n < |events| && !SignsIn(events[n], i)
    requires i in worlds[n].creators && CarriesOnly(worlds[n].creators[i], cmd) && Differs(worlds[n].s.db, cmd, id)
    ensures i in worlds[n + 1].creators && CarriesOnly(worlds[n + 1].creators[i], cmd)
    ensures events[n].Create? && events[n].i == i ==>
              && worlds[n + 1].s.db == worlds[n].s.db && worlds[n + 1].s.caps == worlds[n].s.caps
              && worlds[n + 1].created == worlds[n].created
  {
    KeysAreUnique(env, worlds, events, n);
    StepAt(env, worlds, events, n);
    if events[n].Create? {
      DifferingEvent(env, worlds[n], events[n], worlds[n + 1], i, cmd, id);
    } else {
      CreatorsStay(env, worlds[n], events[n], worlds[n + 1]);
    }
  }

  lemma KeysAreUnique(env: Env, worlds: seq<World>, events: seq<Event>, n: nat)
    requires Run(env, worlds, events) && n < |worlds|
    ensures IdempotencyInv(worlds[n].s.db)
  {
    RunKeeps(env, worlds, events, n);
  }

  lemma DifferingEvent(env: Env, w: World, ev: Event, w': World, i: nat, cmd: Command, id: Uuid)
    requires Next(env, w, ev, w') && ev.Create? && !SignsIn(ev, i) && IdempotencyInv(w.s.db)
    requires i in w.creators && CarriesOnly(w.creators[i], cmd) && Differs(w.s.db, cmd, id)
    ensures i in w'.creators && CarriesOnly(w'.creators[i], cmd)
    ensures ev.i == i ==> w'.s.db == w.s.db && w'.s.caps == w.s.caps && w'.created == w.created
  {
    var ret :| CreateNext(w, ev.i, ev.create, ret, w');
    if ev.i == i { DifferingStep(w, i, ev.create, ret, w', cmd, id); }
  }

  lemma CreatorsStay(env: Env, w: World, ev: Event, w': World)
    requires Next(env, w, ev, w') && !ev.Create?
    ensures w'.creators == w.creators
  {
    if ev.Complete? { var ret :| CompleteNext(w, ev.i, ev.complete, ret, w'); }
  }

  lemma {:induction false} StillDiffers(env: Env, worlds: seq<World>, events: seq<Event>, m: nat, n: nat, i: nat,
                                        cmd: Command, id: Uuid)
    requires Run(env, worlds, events) && m <= n < |worlds|
    requires i in worlds[m].creators && CarriesOnly(worlds[m].creators[i], cmd) && Differs(worlds[m].s.db, cmd, id)
    requires forall k | m <= k < n :: !SignsIn(events[k], i)
    ensures i in worlds[n].creators && CarriesOnly(worlds[n].creators[i], cmd) && Differs(worlds[n].s.db, cmd, id)
    decreases n
  {
    if m < n {
      StillDiffers(env, worlds, events, m, n - 1, i, cmd, id);
      DifferingAt(env, worlds, events, n - 1, i, cmd, id);
      PermanentRun(env, worlds, events, n - 1, n);
    }
  }

  /** Once the stored declarations differ from those of a call, no later event of that call changes a table, hands out
      a capability or is answered with an upload. */
  lemma DifferingDeclarationChangesNothing(env: Env, worlds: seq<World>, events: seq<Event>, m: nat, n: nat, i: nat,
                                           cmd: Command, id: Uuid)
    requires Run(env, worlds, events) && m <= n < |events|
    requires i in worlds[m].creators && CarriesOnly(worlds[m].creators[i], cmd) && Differs(worlds[m].s.db, cmd, id)
    requires forall k | m <= k <= n :: !SignsIn(events[k], i)
    requires events[n].Create? && events[n].i == i
    ensures worlds[n + 1].s.db == worlds[n].s.db && worlds[n + 1].s.caps == worlds[n].s.caps
    ensures worlds[n + 1].created == worlds[n].created
  {
    StillDiffers(env, worlds, events, m, n, i, cmd, id);
    DifferingAt(env, worlds, events, n, i, cmd, id);
  }

  /** A hand-out in progress never belongs to a differing declaration. */
  lemma HandOutMatches(env: Env, worlds: seq<World>, events: seq<Event>, n: nat, i: nat)
    requires Run(env, worlds, events) && n < |worlds|
    requires i in worlds[n].creators && worlds[n].creators[i].HandOut?
    ensures var l := worlds[n].creators[i];
            && Holds(worlds[n].s.db, l.cmd.idempotencyKey, l.id) && Matches(worlds[n].s.db.uploads[l.id], l.cmd)
            && l.expiresAt <= worlds[n].s.db.uploads[l.id].horizon
  {
    RunKeeps(env, worlds, events, n);
    assert CreatorInv(worlds[n].s, worlds[n].creators[i]);
  }

  /** Every completion that was answered left a durable row that is finalizing or terminal, and at most one answer per
      upload reports the change of state. */
  lemma CompletionIsDurable(env: Env, worlds: seq<World>, events: seq<Event>, n: nat)
    requires Run(env, worlds, events) && n < |worlds|
    ensures forall a | 0 <= a < |worlds[n].completed| ::
              && worlds[n].completed[a].upload in worlds[n].s.db.uploads
              && !worlds[n].s.db.uploads[worlds[n].completed[a].upload].state.Pending?
    ensures forall a, b | 0 <= a < b < |worlds[n].completed|
              && worlds[n].completed[a].transition.Some? && worlds[n].completed[b].transition.Some? ::
              worlds[n].completed[a].upload != worlds[n].completed[b].upload
  {
    RunKeeps(env, worlds, events, n);
  }

  /** A reported transition is the one this very call committed, with an acknowledgement. */
  lemma TransitionIsOwnCommit(env: Env, w: World, i: nat, e: CompleteEvent, ret: Option<CompleteReturn>, w': World)
    requires SharedInv(env, w.s) && CompleteNext(w, i, e, ret, w') && ret.Some? && ret.value.transition.Some?
    ensures e == TryComplete(Acked) && w.completers[i].Attempt? && ret.value.upload == w.completers[i].upload
    ensures var id := ret.value.upload;
            && id in w.s.db.uploads && w.s.db.uploads[id].state.Pending? && id in w'.s.db.uploads
            && (if ret.value.transition.value.PendingToFinalizing?
                then w'.s.db.uploads[id].state.Finalizing? else w'.s.db.uploads[id].state.Expired?)
  {
  }
}
