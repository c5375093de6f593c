/** What each decision of the create and complete calls and of the expiry sweep comes to, said of rows and clocks. */
module CallDecisions {
  import opened Types
  import opened Transactions
  import opened DbInvariant
  import opened World

  // ------------------------------------------------------------------ create

  /** The row still takes writes: nothing has closed it, and its deadline is ahead. */
  predicate TakesWrites(u: Upload, now: Time) {
    !Terminal(u.state) && now < u.deadline
  }

  /** Size and type as the call declares them. */
  predicate Declares(u: Upload, cmd: Command) {
    u.declaredSize == cmd.size && u.declaredType == cmd.contentType
  }

  /** The insert of a create call under a free key: a pending row with the declarations of the call, a deadline a day
      ahead, and a horizon that covers the signed capability. */
  lemma InsertIsStored(s: Shared, l: Creator, fate: Fate, s': Shared, l': Creator, ret: Option<CreateReturn>)
    requires CreateStep(s, l, InsertRow(fate), s', l', ret)
    ensures l.Insert? && ret == None && forall i | i in s.db.uploads ::
              s.db.uploads[i].idempotencyKey != l.cmd.idempotencyKey
    ensures l' == if fate.Acked? then HandOut(l.cmd, l.id, l.expiresAt, true)
              else Recover(l.cmd, l.id, l.expiresAt, true)
    ensures if !Applied(fate) then s' == s
            else && s'.db == WithUpload(s.db, l.id, s'.db.uploads[l.id])
                 && var u := s'.db.uploads[l.id];
                    && u.idempotencyKey == l.cmd.idempotencyKey && u.stagingKey == Staging(l.id) && Declares(u, l.cmd)
                    && u.state.Pending? && u.createdAt == s.now && u.deadline == s.now + DAY && u.horizon == l.expiresAt
  {
  }

  /** A create call whose key is taken by a row with the same declarations: it signs anew while the row takes writes,
      and otherwise it is answered without a capability. One of the two is always possible, the other never. */
  lemma RepeatIsServed(env: Env, w: World, i: nat, existing: Uuid) returns (e: CreateEvent, w': World)
    requires i in w.creators && w.creators[i].Insert? && Holds(w.s.db, w.creators[i].cmd.idempotencyKey, existing)
    requires Declares(w.s.db.uploads[existing], w.creators[i].cmd)
    ensures Next(env, w, Create(i, e), w') && w'.s == w.s
    ensures var cmd := w.creators[i].cmd;
            if TakesWrites(w.s.db.uploads[existing], w.s.now)
            then && e == SignReplay(existing, w.s.now + CAPABILITY_LIFE)
                 && w'.creators[i] == Replay(cmd, existing, w.s.now + CAPABILITY_LIFE) && w'.created == w.created
            else && e == AnswerExisting(existing) && w'.creators[i] == NoCreate
                 && w'.created == w.created + [CreateReturn(cmd, existing, false, None)]
  {
    var l := w.creators[i];
    var ret: Option<CreateReturn>;
    if TakesWrites(w.s.db.uploads[existing], w.s.now) {
      e, ret := SignReplay(existing, w.s.now + CAPABILITY_LIFE), None;
      w' := w.(creators := w.creators[i := Replay(l.cmd, existing, w.s.now + CAPABILITY_LIFE)]);
    } else {
      e, ret := AnswerExisting(existing), Some(CreateReturn(l.cmd, existing, false, None));
      w' := w.(creators := w.creators[i := NoCreate], created := w.created + [ret.value]);
    }
    assert CreateNext(w, i, e, ret, w');
  }

  lemma RepeatIsServedOnlySo(s: Shared, l: Creator, e: CreateEvent, s': Shared, l': Creator, ret: Option<CreateReturn>)
    requires CreateStep(s, l, e, s', l', ret) && (e.SignReplay? || e.AnswerExisting?)
    ensures e.existing in s.db.uploads && Declares(s.db.uploads[e.existing], l.cmd) && s' == s
    ensures e.SignReplay? <==> TakesWrites(s.db.uploads[e.existing], s.now)
    ensures e.SignReplay? ==> l'.Replay? && s.now < l'.expiresAt <= s.now + CAPABILITY_LIFE && ret == None
  {
  }

  /** The locked row of a replay: while it takes writes and is the row that was read before, the acknowledged replay
      goes on to hand out its capability; any other row with the same declarations is answered without one. */
  lemma ReplayIsAnswered(s: Shared, l: Creator, existing: Uuid, fate: Fate, s': Shared, l': Creator,
                         ret: Option<CreateReturn>)
    requires CreateStep(s, l, LockReplay(existing, fate), s', l', ret)
    ensures l.Replay? && Holds(s.db, l.cmd.idempotencyKey, existing)
    ensures var u := s.db.uploads[existing];
            if !Declares(u, l.cmd) then s' == s && l' == NoCreate && ret == None
            else if existing == l.id && TakesWrites(u, s.now) then
              && l' == (if fate.Acked? then HandOut(l.cmd, existing, l.expiresAt, false)
                        else Recover(l.cmd, existing, l.expiresAt, false))
              && ret == None
              && s'.db == if !Applied(fate) then s.db
                          else WithUpload(s.db, existing, u.(horizon := s'.db.uploads[existing].horizon))
            else s' == s && l' == NoCreate && ret == Some(CreateReturn(l.cmd, existing, false, None))
    ensures l'.HandOut? || (l'.Recover? && Applied(fate)) ==>
              && s'.db.uploads[existing].horizon >= l.expiresAt
              && s'.db.uploads[existing].horizon >= s.db.uploads[existing].horizon
              && s'.db.uploads[existing].horizon in {l.expiresAt, s.db.uploads[existing].horizon}
  {
  }

  /** The read after a COMMIT without an answer: the capability is handed out exactly when the stored row has the
      declarations of the call, is the one it signed for, takes writes and covers a capability that has not run out. */
  lemma RecoverDecides(s: Shared, l: Creator, existing: Uuid, s': Shared, l': Creator, ret: Option<CreateReturn>)
    requires CreateStep(s, l, RecoverRead(existing), s', l', ret)
    ensures l.Recover? && Holds(s.db, l.cmd.idempotencyKey, existing) && l' == NoCreate && s'.db == s.db
    ensures var u := s.db.uploads[existing];
            && (ret.Some? && ret.value.capability.Some? <==>
                  && Declares(u, l.cmd) && TakesWrites(u, s.now)
                  && existing == l.id && l.expiresAt <= u.horizon && s.now < l.expiresAt)
            && (ret.Some? && ret.value.capability.None? <==> Declares(u, l.cmd) && !TakesWrites(u, s.now))
            && (ret.Some? ==>
                  && ret.value.upload == existing && ret.value.cmd == l.cmd
                  && (ret.value.created <==> l.created && existing == l.id)
                  && (ret.value.capability.Some? ==> ret.value.capability.value == l.expiresAt))
            && s'.caps == if ret.Some? && ret.value.capability.Some? then s.caps + {Capability(existing, l.expiresAt)}
                          else s.caps
  {
  }

  // ---------------------------------------------------------------- complete

  /** One attempt at a completion, by the state of the locked row. */
  lemma CompletionDecides(s: Shared, l: Completer, fate: Fate, s': Shared, l': Completer, ret: Option<CompleteReturn>)
    requires DbInv(s.db, s.now) && CompleteStep(s, l, TryComplete(fate), s', l', ret)
    ensures l.Attempt? && (l.upload !in s.db.uploads ==> s' == s && l' == NoComplete && ret == None)
    ensures l.upload in s.db.uploads ==>
              var id, u := l.upload, s.db.uploads[l.upload];
              if Terminal(u.state) then s' == s && l' == NoComplete && ret == Some(CompleteReturn(id, None))
              else
                && (!Applied(fate) ==> s' == s)
                && (Applied(fate) ==> id in s'.db.uploads && CompletedAs(u, s'.db.uploads[id], s.now))
                && (if fate.Acked? then
                      && l' == NoComplete
                      && ret == Some(CompleteReturn(id, if u.state.Finalizing? then None
                                                        else if s.now < u.deadline then Some(PendingToFinalizing)
                                                        else Some(PendingToExpired)))
                    else
                      l' == ReadBack(id, if u.state.Finalizing? then Some(s.now) else None, l.second) && ret == None)
  {
    if l.upload in s.db.uploads {
      assert !Retired(s.db, Staging(l.upload)) || Terminal(s.db.uploads[l.upload].state);
    }
  }

  /** A pending row begins to finalize before its deadline and expires from it on; a finalizing row is woken, at once or
      at the time stored before if that is earlier. */
  predicate CompletedAs(u: Upload, v: Upload, now: Time) {
    if u.state.Finalizing? then
      v == u.(reconcileAfter := v.reconcileAfter) && v.reconcileAfter.Some?
      && v.reconcileAfter.value <= now && (u.reconcileAfter.Some? ==> v.reconcileAfter.value <= u.reconcileAfter.value)
      && (v.reconcileAfter == Some(now) || v.reconcileAfter == u.reconcileAfter)
    else if now < u.deadline then
      v == u.(state := Finalizing, completionRequestedAt := Some(now), reconcileAfter := Some(now))
    else
      v == u.(state := Expired, terminalAt := Some(now), expiryReason := Some(UploadDeadlineElapsed))
  }

  /** The read after a completion without an answer. */
  lemma OutcomeDecides(s: Shared, l: Completer, s': Shared, l': Completer, ret: Option<CompleteReturn>)
    requires CompleteStep(s, l, ReadOutcome, s', l', ret)
    ensures l.ReadBack? && s' == s
    ensures ret.Some? <==>
              && l.upload in s.db.uploads && !s.db.uploads[l.upload].state.Pending?
              && (l.dueBy.Some? && s.db.uploads[l.upload].state.Finalizing? ==>
                    && s.db.uploads[l.upload].reconcileAfter.Some?
                    && s.db.uploads[l.upload].reconcileAfter.value <= l.dueBy.value)
    ensures ret.Some? ==> ret.value == CompleteReturn(l.upload, None) && l' == NoComplete
    ensures ret.None? ==> l' == if l.second then NoComplete else Attempt(l.upload, true)
  {
  }

  /** An event of one completion call is one step of it; every other event leaves all of them where they are. */
  lemma CompletersMove(env: Env, worlds: seq<World>, events: seq<Event>, n: nat) returns (ret: Option<CompleteReturn>)
    requires Run(env, worlds, events) && n < |events|
    ensures var w, ev, w' := worlds[n], events[n], worlds[n + 1];
            if ev.Complete? then
              && ev.i in w.completers && ev.i in w'.completers
              && CompleteStep(w.s, w.completers[ev.i], ev.complete, w'.s, w'.completers[ev.i], ret)
              && w'.completers == w.completers[ev.i := w'.completers[ev.i]]
              && w'.completed == Logged(w.completed, ret)
            else w'.completers == w.completers
  {
    StepAt(env, worlds, events, n);
    var w, ev, w' := worlds[n], events[n], worlds[n + 1];
    ret := None;
    match ev
    case Complete(i, e) => ret :| CompleteNext(w, i, e, ret, w');
    case Create(i, e) => var r :| CreateNext(w, i, e, r, w');
    case _ =>
  }

  /** A call that reads back has made its attempt at event j. */
  lemma {:induction false} AttemptBefore(env: Env, worlds: seq<World>, events: seq<Event>, n: nat, i: nat)
    returns (j: nat)
    requires Run(env, worlds, events) && n < |worlds| && i in worlds[n].completers && worlds[n].completers[i].ReadBack?
    ensures j < n && events[j].Complete? && events[j].i == i && events[j].complete.TryComplete?
    ensures i in worlds[j].completers && worlds[j].completers[i].Attempt?
    ensures var id := worlds[n].completers[i].upload;
            && worlds[j].completers[i].upload == id && id in worlds[j].s.db.uploads
            && worlds[n].completers[i].dueBy ==
               if worlds[j].s.db.uploads[id].state.Finalizing? then Some(worlds[j].s.now) else None
    decreases n
  {
    if n == 0 {
      assert false;
    } else {
      var ret := CompletersMove(env, worlds, events, n - 1);
      if events[n - 1].Complete? && events[n - 1].i == i {
        j := n - 1;
      } else {
        j := AttemptBefore(env, worlds, events, n - 1, i);
      }
    }
  }

  /** When a read-back answers a completion, the row had left `pending`; and if the attempt found the row finalizing and
      it still is, its stored wake-up is no later than the clock of that attempt. */
  lemma AnsweredWakeUpIsStored(env: Env, worlds: seq<World>, events: seq<Event>, n: nat, i: nat) returns (j: nat)
    requires Run(env, worlds, events) && n < |events| && events[n] == Complete(i, ReadOutcome)
    requires worlds[n + 1].completed != worlds[n].completed
    ensures i in worlds[n].completers && worlds[n].completers[i].ReadBack?
    ensures j < n && events[j].Complete? && events[j].i == i && events[j].complete.TryComplete?
    ensures var id := worlds[n].completers[i].upload;
            && id in worlds[j].s.db.uploads && id in worlds[n].s.db.uploads
            && !worlds[n].s.db.uploads[id].state.Pending?
            && (worlds[j].s.db.uploads[id].state.Finalizing? && worlds[n].s.db.uploads[id].state.Finalizing? ==>
                  && worlds[n].s.db.uploads[id].reconcileAfter.Some?
                  && worlds[n].s.db.uploads[id].reconcileAfter.value <= worlds[j].s.now)
  {
    var ret := CompletersMove(env, worlds, events, n);
    OutcomeDecides(worlds[n].s, worlds[n].completers[i], worlds[n + 1].s, worlds[n + 1].completers[i], ret);
    j := AttemptBefore(env, worlds, events, n, i);
  }

  // ------------------------------------------------------------- expiry sweep

  /** The sweep expires a row exactly when it is pending and its deadline has come; it writes the outcome, and owes the
      staging key a delete from the horizon on. */
  lemma SweepDecides(s: Shared, id: Uuid, applied: bool, s': Shared)
    requires DbInv(s.db, s.now) && EnvStep(s, ExpirySweep(id, applied), s')
    ensures id in s.db.uploads
    ensures if s.db.uploads[id].state.Pending? && s.db.uploads[id].deadline <= s.now && applied then
              var u := s.db.uploads[id];
              && Staging(id) !in s.db.tombstones && s'.db.candidates == s.db.candidates
              && s'.db.uploads == s.db.uploads[id := u.(
                   state := Expired, terminalAt := Some(s.now), expiryReason := Some(UploadDeadlineElapsed))]
              && s'.db.tombstones == s.db.tombstones[Staging(id) :=
                   Tombstone(id, None, s.now, u.horizon, u.horizon, None, None, 0, None, None)]
            else s' == s
  {
    assert Staging(id) in s.db.tombstones <==> Retired(s.db, Staging(id));
  }
}
