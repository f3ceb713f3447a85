/** When the leave of an earlier session can remove the membership of a later session of the same
    id: exactly when a refused login has unregistered the id of a session that serves a client. */
module EpochSafety {
  import opened Wrappers
  import opened Events
  import opened RoomCore
  import opened PlayerCore
  import opened Protocol
  import opened Rooms
  import opened Login
  import opened Scenarios

  // ---------- Violations ----------

  /** No refused login attempt unregisters anything on the way. */
  ghost predicate NoRefusal(steps: seq<Step>) {
    forall k :: 0 <= k < |steps| ==> !steps[k].RejectUnregister?
  }

  /** The room is about to handle a leave that removes the membership of a session that logged in
      after the one that sent it. */
  ghost predicate Violates(st: State, i: IncId, order: seq<PlayerId>) {
    && Enabled(st, RoomTake(i, order))
    && var env, players := st.rooms[i].queue[0], st.rooms[i].room.players;
    && env.event.InputLeave? && env.event.playerId in players
    && var member := players[env.event.playerId].sender;
    && env.from < |st.sessions| && member < |st.sessions|
    && st.sessions[env.from].epoch < st.sessions[member].epoch
  }

  ghost predicate ViolatesAfter(bearer: string, run: seq<Step>, more: seq<Step>, i: IncId, order: seq<PlayerId>) {
    NoRefusal(more) && Valid(bearer, run + more) && Violates(Exec(bearer, run + more), i, order)
  }

  /** The run has a continuation, without further refusals, to a violation. */
  ghost predicate CanViolate(bearer: string, run: seq<Step>) {
    exists more, i, order :: ViolatesAfter(bearer, run, more, i, order)
  }

  // ---------- Sparing runs cannot ----------

  lemma {:induction false} SparingGoesOn(bearer: string, run: seq<Step>, more: seq<Step>)
    requires Valid(bearer, run) && Sparing(bearer, run) && NoRefusal(more) && Valid(bearer, run + more)
    ensures Sparing(bearer, run + more)
  {
    hide Apply, Enabled;
    if more == [] {
      assert run + more == run;
    } else {
      var front := more[..|more| - 1];
      assert (run + more)[..|run + more| - 1] == run + front;
      SparingGoesOn(bearer, run, front);
    }
  }

  lemma SparingCannotViolate(bearer: string, run: seq<Step>)
    requires Valid(bearer, run) && Sparing(bearer, run)
    ensures !CanViolate(bearer, run)
  {
    hide Exec, Valid, Sparing, NoRefusal;
    forall more, i: IncId, order | ViolatesAfter(bearer, run, more, i, order) ensures false {
      SparingGoesOn(bearer, run, more);
      NoViolation(bearer, run + more, i, order);
    }
  }

  lemma NoViolation(bearer: string, run: seq<Step>, i: IncId, order: seq<PlayerId>)
    requires Valid(bearer, run) && Sparing(bearer, run)
    ensures !Violates(Exec(bearer, run), i, order)
  {
    var st := Exec(bearer, run);
    if Violates(st, i, order) {
      var env := st.rooms[i].queue[0];
      var member := st.rooms[i].room.players[env.event.playerId].sender;
      assert member != env.from;
      hide Exec, Valid, Sparing;
      LeavesSpareLaterSessions(bearer, run, i, order);
    }
  }

  // ---------- Reaching a state ----------

  ghost predicate Reaches(st: State, st': State) {
    exists steps :: NoRefusal(steps) && Leads(st, steps, st')
  }

  lemma ReachesBy(st: State, steps: seq<Step>, st': State)
    requires NoRefusal(steps) && Leads(st, steps, st')
    ensures Reaches(st, st')
  {
  }

  lemma ReachesItself(st: State)
    ensures Reaches(st, st)
  {
    assert NoRefusal([]) && Leads(st, [], st);
  }

  lemma ReachesStep(st: State, step: Step)
    requires Enabled(st, step) && !step.RejectUnregister?
    ensures Reaches(st, Apply(st, step))
  {
    hide Apply, Enabled;
    LeadsOne(st, step, Apply(st, step));
    ReachesBy(st, [step], Apply(st, step));
  }

  lemma ReachesOn(st: State, mid: State, st': State)
    requires Reaches(st, mid) && Reaches(mid, st')
    ensures Reaches(st, st')
  {
    hide Leads;
    var steps :| NoRefusal(steps) && Leads(st, steps, mid);
    var more :| NoRefusal(more) && Leads(mid, more, st');
    LeadsOn(st, steps, mid, more, st');
    assert NoRefusal(steps + more);
  }

  // ---------- Bringing a session to the end of its farewells ----------

  /** The session is still the one it was, and nothing about logins has changed. */
  predicate SameLogins(st: State, st': State, t: SessionId) {
    && t < |st.sessions| == |st'.sessions|
    && st'.bearer == st.bearer && st'.players == st.players
    && st'.sessions[t].id == st.sessions[t].id
  }

  lemma OwnMove(st: State, step: Step, t: SessionId)
    requires Inv(st) && t < |st.sessions| && Serving(st.sessions[t].pc) && Enabled(st, step)
    requires step == SendRequest(t) || step == InsertJoined(t) || step == ClientClose(t) || step == Disconnect(t)
             || (step.SendLeave? && step.s == t)
    ensures Inv(Apply(st, step)) && Reaches(st, Apply(st, step)) && SameLogins(st, Apply(st, step), t)
    ensures Serving(Apply(st, step).sessions[t].pc)
  {
    hide Inv, Reaches;
    InvStep(st, step);
    ReachesStep(st, step);
    if step.SendRequest? {
      RequestMove(st, t);
    } else {
      hide RequestStep, InputStep, LoginStep, EventStep, ApplyRoom, Enqueue, JoinAnswer;
    }
  }

  lemma RequestMove(st: State, t: SessionId)
    requires Enabled(st, SendRequest(t))
    ensures SameLogins(st, Apply(st, SendRequest(t)), t) && Serving(Apply(st, SendRequest(t)).sessions[t].pc)
  {
    hide Enqueue, RequestEvent;
  }

  /** The step that ends what a looping session is in the middle of. */
  function Concluding(pc: Pc, t: SessionId): Step {
    if pc.JoinedHalf? then InsertJoined(t) else SendRequest(t)
  }

  lemma Concludes(st: State, t: SessionId)
    requires t < |st.sessions| && SessionOk(st.sessions[t], st.rooms)
    requires Looping(st.sessions[t].pc) && !st.sessions[t].pc.Idle?
    ensures Enabled(st, Concluding(st.sessions[t].pc, t))
    ensures t < |Apply(st, Concluding(st.sessions[t].pc, t)).sessions|
    ensures Apply(st, Concluding(st.sessions[t].pc, t)).sessions[t].pc.Idle?
  {
    hide HandlesOk, Enqueue, RequestEvent, JoinAnswer;
  }

  lemma ToIdle(st: State, t: SessionId) returns (st': State)
    requires Inv(st) && t < |st.sessions| && Looping(st.sessions[t].pc)
    ensures Inv(st') && Reaches(st, st') && SameLogins(st, st', t) && st'.sessions[t].pc.Idle?
  {
    hide Inv, Reaches, Apply, Enabled, SessionOk;
    if st.sessions[t].pc.Idle? {
      st' := st;
      ReachesItself(st);
    } else {
      SessionFact(st, t);
      Concludes(st, t);
      st' := Apply(st, Concluding(st.sessions[t].pc, t));
      OwnMove(st, Concluding(st.sessions[t].pc, t), t);
    }
  }

  lemma ToLeaving(st: State, t: SessionId) returns (st': State)
    requires Inv(st) && t < |st.sessions| && st.sessions[t].pc.Idle?
    ensures Inv(st') && Reaches(st, st') && SameLogins(st, st', t) && st'.sessions[t].pc.LeavingRooms?
  {
    hide Inv, Reaches;
    var gone := st;
    if st.sessions[t].clientGone {
      ReachesItself(st);
    } else {
      gone := Apply(st, ClientClose(t));
      OwnMove(st, ClientClose(t), t);
    }
    st' := Apply(gone, Disconnect(t));
    OwnMove(gone, Disconnect(t), t);
    ReachesOn(st, gone, st');
  }

  lemma {:induction false} ToLastLeave(st: State, t: SessionId) returns (st': State)
    requires Inv(st) && t < |st.sessions| && st.sessions[t].pc.LeavingRooms?
    ensures Inv(st') && Reaches(st, st') && SameLogins(st, st', t) && st'.sessions[t].pc == LeavingRooms(map[])
    decreases st.sessions[t].pc.remaining.Keys
  {
    hide Inv, Reaches;
    var remaining := st.sessions[t].pc.remaining;
    if remaining == map[] {
      st' := st;
      ReachesItself(st);
    } else {
      SessionFact(st, t);
      var rid :| rid in remaining;
      var next := Apply(st, SendLeave(t, rid));
      OwnMove(st, SendLeave(t, rid), t);
      assert next.sessions[t].pc == LeavingRooms(remaining - {rid});
      assert rid in remaining.Keys && rid !in (remaining - {rid}).Keys;
      st' := ToLastLeave(next, t);
      ReachesOn(st, next, st');
    }
  }

  /** A serving session can get to the point where all that is left to it is to unregister. */
  lemma Retires(st: State, t: SessionId) returns (st': State)
    requires Inv(st) && t < |st.sessions| && Serving(st.sessions[t].pc)
    ensures Inv(st') && Reaches(st, st') && SameLogins(st, st', t) && st'.sessions[t].pc == LeavingRooms(map[])
  {
    hide Inv, Reaches;
    if st.sessions[t].pc.LeavingRooms? {
      st' := ToLastLeave(st, t);
    } else {
      var idle := ToIdle(st, t);
      var leaving := ToLeaving(idle, t);
      st' := ToLastLeave(leaving, t);
      ReachesOn(st, idle, leaving);
      ReachesOn(st, leaving, st');
    }
  }

  // ---------- Two sessions of one id ----------

  lemma {:induction false} UnusedName(keys: set<RoomId>) returns (rid: RoomId)
    ensures rid !in keys && forall k :: k in keys ==> |k| < |rid|
  {
    if keys == {} {
      rid := "";
    } else {
      var k :| k in keys;
      var shorter := UnusedName(keys - {k});
      rid := shorter + k + "r";
      assert forall j :: j in keys ==> j == k || j in keys - {k};
    }
  }

  lemma LogsInAgain(st: State, id: PlayerId)
    requires id !in st.players
    ensures Reaches(st, WithLogin(st, id))
  {
    LogsIn(st, id);
    ReachesBy(st, LoginRun(|st.sessions|, id, st.bearer), WithLogin(st, id));
  }

  /** Two logins under one id, once the id is not registered while a session of that id is about to
      unregister it. */
  function TwoLogins(st: State, t: SessionId): State
    requires t < |st.sessions|
  {
    var id := st.sessions[t].id;
    var one := WithLogin(st, id);
    WithLogin(one.(players := one.players - {id}, sessions := one.sessions[t := one.sessions[t].(pc := Finished)]), id)
  }

  lemma UnregistersLast(st: State, t: SessionId)
    requires t < |st.sessions| && st.sessions[t].pc == LeavingRooms(map[])
    ensures Enabled(st, Unregister(t))
    ensures Apply(st, Unregister(t))
         == st.(players := st.players - {st.sessions[t].id},
           sessions := st.sessions[t := st.sessions[t].(pc := Finished)])
  {
  }

  lemma LogsInTwice(st: State, t: SessionId)
    requires t < |st.sessions| && st.sessions[t].pc == LeavingRooms(map[]) && st.sessions[t].id !in st.players
    ensures Reaches(st, TwoLogins(st, t))
  {
    var id := st.sessions[t].id;
    var one := WithLogin(st, id);
    var left := one.(players := one.players - {id}, sessions := one.sessions[t := one.sessions[t].(pc := Finished)]);
    hide Reaches;
    LogsInAgain(st, id);
    UnregistersLast(one, t);
    ReachesStep(one, Unregister(t));
    LogsInAgain(left, id);
    hide Apply, Enabled, WithLogin;
    ReachesOn(st, one, left);
    ReachesOn(st, left, TwoLogins(st, t));
  }

  /** Session `v` creates a room and is its member, and session `u` asks that room to leave. */
  function LeaveAsked(st: State, u: SessionId, v: SessionId, rid: RoomId): State
    requires u < |st.sessions| && v < |st.sessions|
  {
    WithAsk(WithMember(st, v, rid, DEFAULT_ROOM_CONFIG), u, |st.rooms|, Leaving(rid))
  }

  lemma MakesRoom(st: State, v: SessionId, rid: RoomId)
    requires v < |st.sessions| && Waiting(st.sessions[v]) && rid !in st.registry
    ensures Reaches(st, WithMember(st, v, rid, DEFAULT_ROOM_CONFIG))
  {
    hide Leads, Reaches, WithMember, WithRoom;
    var made, admitted := WithRoom(st, v, rid, DEFAULT_ROOM_CONFIG), WithMember(st, v, rid, DEFAULT_ROOM_CONFIG);
    CreatesRoom(st, v, rid, None);
    Admits(st, v, rid, DEFAULT_ROOM_CONFIG);
    ReachesBy(st, AskRun(v, Joining(rid, None)), made);
    ReachesBy(made, AdmitRun(|st.rooms|, st.sessions[v].id), admitted);
    ReachesOn(st, made, admitted);
  }

  lemma AsksForOther(st: State, u: SessionId, v: SessionId, rid: RoomId)
    requires u < |st.sessions| && v < |st.sessions| && u != v && rid !in st.registry
    requires Waiting(st.sessions[u]) && Waiting(st.sessions[v])
    ensures Reaches(st, LeaveAsked(st, u, v, rid))
  {
    hide Leads, Reaches, WithAsk;
    var admitted := WithMember(st, v, rid, DEFAULT_ROOM_CONFIG);
    MakesRoom(st, v, rid);
    AsksRegistered(admitted, u, rid, Leaving(rid));
    hide WithMember;
    ReachesBy(admitted, AskRun(u, Leaving(rid)), LeaveAsked(st, u, v, rid));
    ReachesOn(st, admitted, LeaveAsked(st, u, v, rid));
  }

  lemma LeaveAskedViolates(st: State, u: SessionId, v: SessionId, rid: RoomId)
    requires u < |st.sessions| && v < |st.sessions| && u != v
    requires st.sessions[u].id == st.sessions[v].id && st.sessions[u].epoch < st.sessions[v].epoch
    ensures Violates(LeaveAsked(st, u, v, rid), |st.rooms|, [st.sessions[v].id])
  {
    var i, id := |st.rooms|, st.sessions[v].id;
    var r := LeaveAsked(st, u, v, rid).rooms[i];
    assert r.room.players.Keys == {id};
    assert Enumerates([id], r.room.players.Keys);
    assert r.queue == [Envelope(u, st.sessions[u].sends, InputLeave(id))];
  }

  /** From any state in which a serving session's id is not registered, a violation can be reached. */
  lemma UnregisteredCanViolate(st: State, t: SessionId) returns (st': State, i: IncId, order: seq<PlayerId>)
    requires Inv(st) && t < |st.sessions| && Serving(st.sessions[t].pc) && st.sessions[t].id !in st.players
    ensures Reaches(st, st') && Violates(st', i, order)
  {
    hide Inv, Reaches, Violates;
    var last := Retires(st, t);
    LogsInTwice(last, t);
    var twice, u, v := TwoLogins(last, t), |last.sessions|, |last.sessions| + 1;
    var rid := UnusedName(twice.registry.Keys);
    AsksForOther(twice, u, v, rid);
    LeaveAskedViolates(twice, u, v, rid);
    st', i, order := LeaveAsked(twice, u, v, rid), |twice.rooms|, [twice.sessions[v].id];
    ReachesOn(st, last, twice);
    ReachesOn(st, twice, st');
  }

  // ---------- Exactly when ----------

  lemma HarmUnregisters(st: State, step: Step)
    requires Enabled(st, step) && Harms(st, step)
    ensures exists t: SessionId :: t < |Apply(st, step).sessions| && Serving(Apply(st, step).sessions[t].pc)
                                   && Apply(st, step).sessions[t].id !in Apply(st, step).players
  {
    var t :| 0 <= t < |st.sessions| && t != step.s && Serving(st.sessions[t].pc) &&
      st.sessions[t].id == st.sessions[step.s].id;
    assert Apply(st, step).sessions[t] == st.sessions[t];
  }

  lemma HarmCanViolate(bearer: string, steps: seq<Step>, step: Step)
    requires Valid(bearer, steps) && Enabled(Exec(bearer, steps), step) && Harms(Exec(bearer, steps), step)
    ensures CanViolate(bearer, steps + [step])
  {
    hide Inv, Apply, Enabled, Harms, Violates, Exec, Valid, Leads, NoRefusal;
    var run := steps + [step];
    OneMore(bearer, steps, step);
    HarmUnregisters(Exec(bearer, steps), step);
    var t: SessionId :| t < |Exec(bearer, run).sessions| && Serving(Exec(bearer, run).sessions[t].pc)
                        && Exec(bearer, run).sessions[t].id !in Exec(bearer, run).players;
    InvHolds(bearer, run);
    var st', i, order := UnregisteredCanViolate(Exec(bearer, run), t);
    var more :| NoRefusal(more) && Leads(Exec(bearer, run), more, st');
    LeadsIsRun(bearer, run, more, st');
    assert ViolatesAfter(bearer, run, more, i, order);
  }

  /** Session-epoch safety, exactly, step by step: as long as a run has spared those who serve, a
      step opens the way to a violation if and only if it unregisters the id of a serving session
      by refusing another. */
  lemma CanViolateIffHarmed(bearer: string, steps: seq<Step>, step: Step)
    requires Valid(bearer, steps) && Sparing(bearer, steps) && Enabled(Exec(bearer, steps), step)
    ensures CanViolate(bearer, steps + [step]) <==> Harms(Exec(bearer, steps), step)
  {
    hide Harms, CanViolate, Apply, Enabled;
    OneMore(bearer, steps, step);
    if Harms(Exec(bearer, steps), step) {
      HarmCanViolate(bearer, steps, step);
    } else {
      assert (steps + [step])[..|steps + [step]| - 1] == steps;
      SparingCannotViolate(bearer, steps + [step]);
    }
  }

  /** No prefix of the run can be continued to a violation. */
  ghost predicate NeverCanViolate(bearer: string, steps: seq<Step>) {
    !CanViolate(bearer, steps) && (steps == [] || NeverCanViolate(bearer, steps[..|steps| - 1]))
  }

  /** Session-epoch safety, exactly, for whole runs: a run spares those who serve if and only if
      none of its prefixes can be continued, without further refusals, to a violation. */
  lemma {:induction false} SparingIffNeverCanViolate(bearer: string, steps: seq<Step>)
    requires Valid(bearer, steps)
    ensures Sparing(bearer, steps) <==> NeverCanViolate(bearer, steps)
  {
    hide Harms, CanViolate, Apply, Enabled;
    if steps == [] {
      SparingCannotViolate(bearer, steps);
    } else {
      var front, step := steps[..|steps| - 1], steps[|steps| - 1];
      assert front + [step] == steps;
      SparingIffNeverCanViolate(bearer, front);
      if Sparing(bearer, front) {
        CanViolateIffHarmed(bearer, front, step);
      }
    }
  }
}
