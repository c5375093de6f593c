/** The whole system refines a small machine per upload: absent, pending, finalizing, closed. */
module Lifecycle {
  import opened Types
  import opened Schema
  import opened Transactions
  import opened DbInvariant
  import opened World
  import opened Invariant
  import opened WorldInvariant

  datatype Abstract =
    | Absent
    | AwaitingUpload
    | Deciding
    | Closed(state: State, at: Option<Time>, finalKey: Option<Key>, kind: Option<RejectionClass>,
        reason: Option<Reason>,
             why: Option<ExpiryReason>, horizon: Time)

  function Abs(db: Db, id: Uuid): Abstract {
    if id !in db.uploads then Absent else AbsRow(db.uploads[id])
  }

  function AbsRow(u: Upload): Abstract {
    match u.state
    case Pending => AwaitingUpload
    case Finalizing => Deciding
    case _ => Closed(u.state, u.terminalAt, u.finalKey, u.rejectionClass, u.rejectionReason, u.expiryReason, u.horizon)
  }

  /** The legal moves of one upload. */
  predicate Moves(a: Abstract, b: Abstract) {
    match (a, b)
    case (Absent, AwaitingUpload) => true
    case (AwaitingUpload, Deciding) => true
    case (AwaitingUpload, Closed(Expired, Some(_), None, None, None, Some(UploadDeadlineElapsed), _)) => true
    case (Deciding, Closed(Ready, Some(_), Some(_), None, None, None, _)) => true
    case (Deciding, Closed(Rejected, Some(_), None, Some(k), Some(r), None, _)) => ReasonFits(k, r)
    case (Deciding, Closed(Expired, Some(_), None, None, None, Some(StagingMissingAfterWriteWindow), _)) => true
    case _ => false
  }

  lemma RowRefines(id: Uuid, u: Upload, v: Upload, now: Time, actor: Option<Uuid>)
    requires UploadStep(u, v, now, actor) && UploadRowOk(id, v)
    ensures AbsRow(u) == AbsRow(v) || Moves(AbsRow(u), AbsRow(v))
  {
  }

  /** Every event of the system is, for every upload, no move or one legal move. */
  lemma EveryEventRefines(env: Env, worlds: seq<World>, events: seq<Event>, n: nat, id: Uuid)
    requires Run(env, worlds, events) && n < |events|
    ensures var a, b := Abs(worlds[n].s.db, id), Abs(worlds[n + 1].s.db, id); a == b || Moves(a, b)
  {
    RunStep(env, worlds, events, n);
    RowOkAt(env, worlds, events, n + 1, id);
    var s, s' := worlds[n].s, worlds[n + 1].s;
    if id in s.db.uploads {
      RowRefines(id, s.db.uploads[id], s'.db.uploads[id], s.now, TokenBy(worlds[n], events[n]));
    }
  }

  lemma RowOkAt(env: Env, worlds: seq<World>, events: seq<Event>, n: nat, id: Uuid)
    requires Run(env, worlds, events) && n < |worlds|
    ensures id in worlds[n].s.db.uploads ==> UploadRowOk(id, worlds[n].s.db.uploads[id])
  {
    RunKeeps(env, worlds, events, n);
  }

  function Rank(a: Abstract): nat {
    match a
    case Absent => 0
    case AwaitingUpload => 1
    case Deciding => 2
    case Closed(_, _, _, _, _, _, _) => 3
  }

  /** How often the upload moved during the first n events. */
  ghost function Changes(worlds: seq<World>, id: Uuid, n: nat): nat
    requires n < |worlds|
  {
    if n == 0 then 0
    else Changes(worlds, id, n - 1) + if Abs(worlds[n].s.db, id) == Abs(worlds[n - 1].s.db, id) then 0 else 1
  }

  lemma MovesRaiseRank(a: Abstract, b: Abstract)
    requires Moves(a, b)
    ensures Rank(a) < Rank(b)
  {
  }

  lemma RankRises(env: Env, worlds: seq<World>, events: seq<Event>, n: nat, id: Uuid)
    requires Run(env, worlds, events) && n < |events|
    ensures Abs(worlds[n].s.db, id) == Abs(worlds[n + 1].s.db, id)
            || Rank(Abs(worlds[n].s.db, id)) < Rank(Abs(worlds[n + 1].s.db, id))
  {
    EveryEventRefines(env, worlds, events, n, id);
    if Abs(worlds[n].s.db, id) != Abs(worlds[n + 1].s.db, id) {
      MovesRaiseRank(Abs(worlds[n].s.db, id), Abs(worlds[n + 1].s.db, id));
    }
  }

  /** At most three moves in any run, however long; and once closed, closed with the same outcome for ever. */
  lemma {:induction false} LifecycleIsBounded(env: Env, worlds: seq<World>, events: seq<Event>, m: nat, n: nat,
                                              id: Uuid)
    requires Run(env, worlds, events) && m <= n < |worlds|
    ensures Changes(worlds, id, n) <= Rank(Abs(worlds[n].s.db, id)) <= 3
    ensures Rank(Abs(worlds[m].s.db, id)) <= Rank(Abs(worlds[n].s.db, id))
    ensures Rank(Abs(worlds[m].s.db, id)) == Rank(Abs(worlds[n].s.db, id)) ==>
              Abs(worlds[m].s.db, id) == Abs(worlds[n].s.db, id)
    decreases n
  {
    if n > 0 {
      RankRises(env, worlds, events, n - 1, id);
      LifecycleIsBounded(env, worlds, events, if m < n then m else n - 1, n - 1, id);
    }
  }

  // -------------------------------------------------- who may move an upload

  lemma FinMoves(env: Env, s: Shared, l: Finalizer, e: FinEvent, s': Shared, l': Finalizer, id: Uuid)
    requires FinStep(env, s, l, e, s', l') && Abs(s'.db, id) != Abs(s.db, id)
    ensures e.Commit? && l.Working? && l.claim.upload == id && Live(s.db, s.now, id, l.claim.token)
  {
  }

  lemma CleanMoves(s: Shared, l: Cleaner, e: CleanEvent, s': Shared, l': Cleaner, id: Uuid)
    requires CleanStep(s, l, e, s', l')
    ensures Abs(s'.db, id) == Abs(s.db, id)
  {
  }

  lemma CreateMoves(s: Shared, l: Creator, e: CreateEvent, s': Shared, l': Creator, ret: Option<CreateReturn>, id: Uuid)
    requires CreatorInv(s, l) && CreateStep(s, l, e, s', l', ret) && Abs(s'.db, id) != Abs(s.db, id)
    ensures e.InsertRow? && l.Insert? && l.id == id
  {
  }

  lemma CompleteMoves(s: Shared, l: Completer, e: CompleteEvent, s': Shared, l': Completer,
                      ret: Option<CompleteReturn>, id: Uuid)
    requires CompleteStep(s, l, e, s', l', ret) && Abs(s'.db, id) != Abs(s.db, id)
    ensures e.TryComplete? && l.Attempt? && l.upload == id && id in s.db.uploads && s.db.uploads[id].state.Pending?
  {
  }

  lemma OtherMoves(s: Shared, e: EnvEvent, s': Shared, id: Uuid)
    requires EnvStep(s, e, s') && Abs(s'.db, id) != Abs(s.db, id)
    ensures e.ExpirySweep? && e.id == id && id in s.db.uploads && ExpiryDue(s.db.uploads[id], s.now)
  {
  }

  /** The event that moves upload `id`: its own insert, a completion or sweep of its pending row, or the terminal
      commit of the worker that holds its live claim. Claims, renewals, retries, replays, cleanup and faults move
      nothing. */
  predicate MayMove(w: World, ev: Event, id: Uuid) {
    match ev
    case Fin(i, e) =>
      && e.Commit? && i in w.finalizers && w.finalizers[i].Working? && w.finalizers[i].claim.upload == id
      && Live(w.s.db, w.s.now, id, w.finalizers[i].claim.token)
    case Clean(_, _) => false
    case Create(i, e) => e.InsertRow? && i in w.creators && w.creators[i].Insert? && w.creators[i].id == id
    case Complete(i, e) =>
      && e.TryComplete? && i in w.completers && w.completers[i].Attempt? && w.completers[i].upload == id
      && id in w.s.db.uploads && w.s.db.uploads[id].state.Pending?
    case Other(e) => e.ExpirySweep? && e.id == id && id in w.s.db.uploads && ExpiryDue(w.s.db.uploads[id], w.s.now)
  }

  lemma OnlyTheseEventsMove(env: Env, w: World, ev: Event, w': World, id: Uuid)
    requires CreatorsInv(w.s, w.creators) && Next(env, w, ev, w') && Abs(w'.s.db, id) != Abs(w.s.db, id)
    ensures MayMove(w, ev, id)
  {
    match ev
    case Fin(i, e) => FinMoves(env, w.s, w.finalizers[i], e, w'.s, w'.finalizers[i], id);
    case Clean(i, e) => CleanMoves(w.s, w.cleaners[i], e, w'.s, w'.cleaners[i], id);
    case Create(i, e) =>
      var ret :| CreateNext(w, i, e, ret, w');
      CreateMoves(w.s, w.creators[i], e, w'.s, w'.creators[i], ret, id);
    case Complete(i, e) =>
      var ret :| CompleteNext(w, i, e, ret, w');
      CompleteMoves(w.s, w.completers[i], e, w'.s, w'.completers[i], ret, id);
    case Other(e) => OtherMoves(w.s, e, w'.s, id);
  }

  // ------------------------------------------------- completion versus expiry

  /** A pending upload is completed only before its deadline and expired only at or after it, by the clock of the
      transaction that does it. */
  lemma CompletionBeforeExpiryAfter(env: Env, worlds: seq<World>, events: seq<Event>, n: nat, id: Uuid)
    requires Run(env, worlds, events) && n < |events|
    requires id in worlds[n].s.db.uploads && worlds[n].s.db.uploads[id].state.Pending?
    ensures id in worlds[n + 1].s.db.uploads
    ensures var u, v, now := worlds[n].s.db.uploads[id], worlds[n + 1].s.db.uploads[id], worlds[n].s.now;
            || v.state.Pending?
            || (v.state.Finalizing? && now < u.deadline && v.completionRequestedAt == Some(now))
            || (v.state.Expired? && u.deadline <= now && v.terminalAt == Some(now)
                  && v.expiryReason == Some(UploadDeadlineElapsed))
  {
    RunStep(env, worlds, events, n);
    var s, s' := worlds[n].s, worlds[n + 1].s;
    assert UploadStep(s.db.uploads[id], s'.db.uploads[id], s.now, TokenBy(worlds[n], events[n]));
  }
}
