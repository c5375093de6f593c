/** Runs made by hand, one event at a time. */
module RunBuilding {
  import opened Types
  import opened World

  /** One more event at the end of a run. */
  lemma Extend(env: Env, worlds: seq<World>, events: seq<Event>, ev: Event, w: World)
    requires Run(env, worlds, events) && Next(env, worlds[|events|], ev, w)
    ensures Run(env, worlds + [w], events + [ev])
  {
    var ws, es := worlds + [w], events + [ev];
    forall m: nat | m < |es| ensures Follows(env, ws, es, m) {
      if m < |events| {
        assert Follows(env, worlds, events, m);
        assert ws[m] == worlds[m] && es[m] == events[m] && ws[m + 1] == worlds[m + 1];
      }
    }
  }

  ghost predicate Reaches(env: Env, worlds: seq<World>, events: seq<Event>, w: World) {
    Run(env, worlds, events) && worlds[|events|] == w
  }

  lemma Move(env: Env, worlds: seq<World>, events: seq<Event>, w: World, ev: Event, w': World)
    returns (ws: seq<World>, es: seq<Event>)
    requires Reaches(env, worlds, events, w) && Next(env, w, ev, w')
    ensures Reaches(env, ws, es, w') && ws == worlds + [w'] && es == events + [ev]
  {
    ws, es := worlds + [w'], events + [ev];
    Extend(env, worlds, events, ev, w');
  }

  /** One step of the only worker. */
  lemma Work(env: Env, worlds: seq<World>, events: seq<Event>, w: World, e: FinEvent, s': Shared, l': Finalizer)
    returns (ws: seq<World>, es: seq<Event>)
    requires Reaches(env, worlds, events, w) && 0 in w.finalizers
    requires FinStep(env, w.s, w.finalizers[0], e, s', l')
    ensures Reaches(env, ws, es, w.(s := s', finalizers := w.finalizers[0 := l']))
    ensures ws == worlds + [w.(s := s', finalizers := w.finalizers[0 := l'])] && es == events + [Fin(0, e)]
  {
    var w' := w.(s := s', finalizers := w.finalizers[0 := l']);
    assert FinNext(env, w, 0, e, w');
    ws, es := Move(env, worlds, events, w, Fin(0, e), w');
  }
}
