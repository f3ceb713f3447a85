/** What a disconnecting session leaves behind. */
module Disconnecting {
  import opened Wrappers
  import opened Events
  import opened RoomCore
  import opened PlayerCore
  import opened Protocol
  import opened Rooms
  import opened Membership
  import opened Cache
  import opened Coherence
  import opened Quiescence

  // ---------- What will become of a room ----------

  /** The room once it has worked through the queue: it handles the events in order, and stops
      when one leaves it empty. */
  function Drain(room: RoomState<SessionId>, queue: seq<Envelope>): RoomState<SessionId>
    decreases |queue|
  {
    if queue == [] then room
    else
      var next := Handle(room, queue[0].event, []).room;
      if NumPlayers(next) == 0 then next else Drain(next, queue[1..])
  }

  /** The task is not on its way out: it will handle at least the next event. */
  predicate GoesOn(r: Incarnation) {
    r.phase.Running? || (r.phase.Sending? && NumPlayers(r.room) != 0)
  }

  /** What the incarnation comes to with what is queued now; one on its way out handles nothing. */
  function Fate(r: Incarnation): RoomState<SessionId> {
    if GoesOn(r) then Drain(r.room, r.queue) else r.room
  }

  /** The session will be in incarnation `i` once what is queued there has been handled. */
  predicate Stays(st: State, s: SessionId, i: IncId)
    requires s < |st.sessions| && i < |st.rooms|
  {
    HasMember(Fate(st.rooms[i]).players, s, st.sessions[s].id)
  }

  predicate Caches(st: State, s: SessionId, rid: RoomId, i: IncId)
    requires s < |st.sessions|
  {
    rid in st.sessions[s].joined && st.sessions[s].joined[rid] == i
  }

  /** A session about to disconnect will be in incarnation `i`, to which it will send no leave. */
  predicate Forgotten(st: State, s: SessionId, i: IncId) {
    s < |st.sessions| && i < |st.rooms| && Stays(st, s, i) && !Caches(st, s, st.rooms[i].room.id, i)
  }

  ghost predicate LeaveQueued(r: Incarnation, id: PlayerId) {
    exists k :: 0 <= k < |r.queue| && r.queue[k].event == InputLeave(id)
  }

  /** The disconnecting session is about to send incarnation `i` its leave. */
  predicate LeaveDue(x: Session, rid: RoomId, i: IncId) {
    x.pc.LeavingRooms? && rid in x.pc.remaining && x.pc.remaining[rid] == i
  }

  /** A session that disconnects or has disconnected will be in incarnation `i`, with no leave of
      its own to come. */
  predicate LeftBehind(st: State, s: SessionId, i: IncId)
    requires s < |st.sessions| && i < |st.rooms|
  {
    Stays(st, s, i) && !LeaveDue(st.sessions[s], st.rooms[i].room.id, i)
  }

  /** The step is another session's: it sends incarnation `i` a leave for the id of session `s`. */
  predicate OtherLeaves(st: State, step: Step, s: SessionId, i: IncId)
    requires Enabled(st, step)
  {
    var d := Dispatched(st, step);
    d.Some? && d.value.inc == i && d.value.env.from != s
    && s < |st.sessions| && d.value.env.event == InputLeave(st.sessions[s].id)
  }

  /** From step `n` on, no other session sends incarnation `i` a leave for the id of `s`. */
  predicate NoOtherLeaves(bearer: string, steps: seq<Step>, n: nat, s: SessionId, i: IncId)
    requires Valid(bearer, steps)
    decreases |steps|
  {
    |steps| <= n ||
    (NoOtherLeaves(bearer, steps[..|steps| - 1], n, s, i)
     && !OtherLeaves(Exec(bearer, steps[..|steps| - 1]), steps[|steps| - 1], s, i))
  }

  // ---------- Draining ----------

  predicate Within(room: RoomState<SessionId>) {
    |room.players| <= room.config.maxPlayers
  }

  /** Handling stops before the queue's end, or at it, because the room is empty. */
  predicate Stops(room: RoomState<SessionId>, queue: seq<Envelope>)
    decreases |queue|
  {
    queue != [] &&
    var next := Handle(room, queue[0].event, []).room;
    NumPlayers(next) == 0 || Stops(next, queue[1..])
  }

  lemma {:induction false} DrainAppend(room: RoomState<SessionId>, queue: seq<Envelope>, env: Envelope)
    requires Within(room)
    ensures Within(Drain(room, queue))
    ensures if Stops(room, queue) then Drain(room, queue + [env]) == Drain(room, queue) &&
      Drain(room, queue).players == map[]
            else Drain(room, queue + [env]) == Handle(Drain(room, queue), env.event, []).room
    decreases |queue|
  {
    hide Handle, NumPlayers;
    if queue == [] {
      assert queue + [env] == [env] && [env][1..] == [];
    } else {
      var next := Handle(room, queue[0].event, []).room;
      HandleKeepsCapacity(room, queue[0].event, []);
      CountIsExact(next);
      assert (queue + [env])[1..] == queue[1..] + [env];
      if NumPlayers(next) != 0 {
        DrainAppend(next, queue[1..], env);
      }
    }
  }

  /** One event changes a session's membership only if it is a join of its own or a leave of its
      id. */
  lemma HandleMember(room: RoomState<SessionId>, event: InputEvent<SessionId>, s: SessionId, id: PlayerId)
    ensures event == InputLeave(id) ==> !HasMember(Handle(room, event, []).room.players, s, id)
    ensures event != InputLeave(id) && (event.InputJoin? ==> event.player.sender != s) ==>
      (HasMember(Handle(room, event, []).room.players, s, id) <==> HasMember(room.players, s, id))
    ensures event != InputLeave(id) && HasMember(room.players, s, id) ==>
      HasMember(Handle(room, event, []).room.players, s, id)
  {
  }

  /** A member whose leave is not queued stays. */
  lemma {:induction false} NoLeaveStays(room: RoomState<SessionId>, queue: seq<Envelope>, s: SessionId, id: PlayerId)
    requires Within(room) && HasMember(room.players, s, id)
    requires forall k :: 0 <= k < |queue| ==> queue[k].event != InputLeave(id)
    ensures HasMember(Drain(room, queue).players, s, id)
    decreases |queue|
  {
    hide Handle, NumPlayers;
    if queue != [] {
      var next := Handle(room, queue[0].event, []).room;
      HandleMember(room, queue[0].event, s, id);
      HandleKeepsCapacity(room, queue[0].event, []);
      CountIsExact(next);
      NoLeaveStays(next, queue[1..], s, id);
    }
  }

  ghost predicate NoJoinOf(queue: seq<Envelope>, s: SessionId) {
    forall k :: 0 <= k < |queue| && queue[k].event.InputJoin? ==> queue[k].event.player.sender != s
  }

  /** Whoever is not a member and has no join queued stays out. */
  lemma {:induction false} NoJoinStaysOut(room: RoomState<SessionId>, queue: seq<Envelope>, s: SessionId, id: PlayerId)
    requires NoJoinOf(queue, s) && !HasMember(room.players, s, id)
    ensures !HasMember(Drain(room, queue).players, s, id)
    decreases |queue|
  {
    hide Handle, NumPlayers;
    if queue != [] {
      HandleMember(room, queue[0].event, s, id);
      NoJoinStaysOut(Handle(room, queue[0].event, []).room, queue[1..], s, id);
    }
  }

  /** A leave queued behind the last join takes the session out. */
  lemma {:induction false} LeaveBehindJoins(room: RoomState<SessionId>, queue: seq<Envelope>, k: nat, s: SessionId,
      id: PlayerId)
    requires Within(room) && k < |queue| && queue[k].event == InputLeave(id) && NoJoinOf(queue[k..], s)
    ensures !HasMember(Drain(room, queue).players, s, id)
    decreases |queue|
  {
    hide Handle, NumPlayers;
    var next := Handle(room, queue[0].event, []).room;
    HandleMember(room, queue[0].event, s, id);
    HandleKeepsCapacity(room, queue[0].event, []);
    CountIsExact(next);
    if NumPlayers(next) != 0 {
      if k == 0 {
        assert NoJoinOf(queue[1..], s) by { assert queue[0..] == queue; }
        NoJoinStaysOut(next, queue[1..], s, id);
      } else {
        assert queue[1..][k - 1..] == queue[k..];
        LeaveBehindJoins(next, queue[1..], k - 1, s, id);
      }
    }
  }

  // ---------- Being left behind is decided at the disconnect ----------

  /** A room task's own steps do not change what its incarnation comes to. */
  lemma FateKept(r: Incarnation, i: IncId, step: Step)
    requires RoomStep(step) && RoomReady(r, step)
    ensures Fate(RoomAfter(r, i, step)).players == Fate(r).players
  {
    if step.RoomTake? {
      OrderIrrelevant(r.room, r.queue[0].event, step.order);
    }
    hide Handle, NumPlayers, Enumerates, Iterated;
  }

  lemma OrderIrrelevant<C>(room: RoomState<C>, event: InputEvent<C>, order: seq<PlayerId>)
    ensures Handle(room, event, order).room == Handle(room, event, []).room
  {
  }

  /** What a send to a room changes for a session: only its own joins and leaves of its id count. */
  lemma EnqueueFate(r: Incarnation, r': Incarnation, env: Envelope, s: SessionId, id: PlayerId)
    requires RoomOk(r) && r' == r.(queue := r.queue + [env], sent := r'.sent)
    ensures env.event == InputLeave(id) ==> !HasMember(Fate(r').players, s, id)
    ensures env.event != InputLeave(id) && (env.event.InputJoin? ==> env.event.player.sender != s) ==>
      (HasMember(Fate(r').players, s, id) <==> HasMember(Fate(r).players, s, id))
  {
    CountIsExact(r.room);
    hide Handle, NumPlayers, FoldLog, RoomAt;
    DrainAppend(r.room, r.queue, env);
    HandleMember(Drain(r.room, r.queue), env.event, s, id);
  }

  lemma DroppedHasNobody(r: Incarnation)
    requires RoomOk(r) && r.phase.Dropped?
    ensures Fate(r).players == map[]
  {
  }

  lemma LeftBehindRoomStep(st: State, step: Step, s: SessionId, i: IncId)
    requires Enabled(st, step) && RoomStep(step) && s < |st.sessions| && i < |st.rooms|
    ensures s < |Apply(st, step).sessions| && |Apply(st, step).rooms| == |st.rooms|
    ensures LeftBehind(Apply(st, step), s, i) <==> LeftBehind(st, s, i)
  {
    hide RoomAfter, RoomReady, Fate;
    OthersUntouched(st, step, s);
    RoomIdentity(st, step);
    if step.i == i {
      FateKept(st.rooms[i], i, step);
    }
  }

  /** The leave that is due to incarnation `i` stops being due only when it is sent. */
  lemma DueStep(st: State, step: Step, s: SessionId, i: IncId)
    requires Enabled(st, step) && !RoomStep(step) && s < |st.sessions| && i < |st.rooms| &&
      SessionOk(st.sessions[s], st.rooms)
    requires Departing(st.sessions[s].pc)
    ensures s < |Apply(st, step).sessions| && Departing(Apply(st, step).sessions[s].pc)
    ensures Apply(st, step).sessions[s].id == st.sessions[s].id
    ensures var rid := st.rooms[i].room.id;
            var due, due' := LeaveDue(st.sessions[s], rid, i), LeaveDue(Apply(st, step).sessions[s], rid, i);
            if step == SendLeave(s, rid) && due then !due' else due' == due
  {
    hide HandlesOk;
    if step.Connect? || step.s != s {
      OthersUntouched(st, step, s);
    }
  }

  /** A departing session sends nothing but the leaves that are due. */
  lemma OwnDispatch(st: State, step: Step, s: SessionId)
    requires Enabled(st, step) && s < |st.sessions| && SessionOk(st.sessions[s], st.rooms)
    requires Departing(st.sessions[s].pc)
    requires Dispatched(st, step).Some? && Dispatched(st, step).value.env.from == s
    ensures var i := Dispatched(st, step).value.inc;
            && i < |st.rooms| && step == SendLeave(s, st.rooms[i].room.id)
            && LeaveDue(st.sessions[s], st.rooms[i].room.id, i)
            && Dispatched(st, step).value.env.event == InputLeave(st.sessions[s].id)
  {
  }

  lemma OtherDispatch(st: State, step: Step, s: SessionId)
    requires SessionsOk(st) && Enabled(st, step) && Dispatched(st, step).Some? &&
      Dispatched(st, step).value.env.from != s
    ensures var event := Dispatched(st, step).value.env.event;
            event.InputJoin? ==> event.player.sender != s
    ensures step.SendLeave? ==> step.s != s
  {
    DispatchedIsSpoken(st, step);
  }

  lemma LeftBehindSessionStep(st: State, step: Step, s: SessionId, i: IncId)
    requires Inv(st) && Enabled(st, step) && !RoomStep(step) && s < |st.sessions| && i < |st.rooms|
    requires Departing(st.sessions[s].pc)
    ensures s < |Apply(st, step).sessions| && i < |Apply(st, step).rooms|
    ensures LeftBehind(Apply(st, step), s, i) ==> LeftBehind(st, s, i)
    ensures !OtherLeaves(st, step, s, i) ==> (LeftBehind(Apply(st, step), s, i) <==> LeftBehind(st, s, i))
  {
    hide RoomOk, SentOk, MembersOk, RegistryOk, FirstEventDue, SessionOk, Apply, Enabled, Fate, Dispatched, LeaveDue;
    SessionFact(st, s);
    DueStep(st, step, s, i);
    QueueAfter(st, step, i);
    var d := Dispatched(st, step);
    if d.Some? && d.value.inc == i {
      EnqueueFate(st.rooms[i], Apply(st, step).rooms[i], d.value.env, s, st.sessions[s].id);
      if d.value.env.from == s {
        OwnDispatch(st, step, s);
      } else {
        OtherDispatch(st, step, s);
      }
    } else if step == SendLeave(s, st.rooms[i].room.id) && LeaveDue(st.sessions[s], st.rooms[i].room.id, i) {
      UnsentMeansDropped(st, s, i);
      DroppedHasNobody(st.rooms[i]);
    }
  }

  lemma QueueAfter(st: State, step: Step, i: IncId)
    requires Enabled(st, step) && !RoomStep(step) && i < |st.rooms|
    ensures i < |Apply(st, step).rooms|
    ensures var r, r', d := st.rooms[i], Apply(st, step).rooms[i], Dispatched(st, step);
            if d.Some? && d.value.inc == i then r' == r.(queue := r.queue + [d.value.env], sent := r'.sent) else r' == r
  {
    if Creates(st, step) {
      CreateKeepsOthers(st, step);
    } else {
      SessionStepRooms(st, step);
    }
    hide Apply, Enabled;
  }

  lemma UnsentMeansDropped(st: State, s: SessionId, i: IncId)
    requires s < |st.sessions| && i < |st.rooms| && Enabled(st, SendLeave(s, st.rooms[i].room.id))
    requires LeaveDue(st.sessions[s], st.rooms[i].room.id, i)
    requires var d := Dispatched(st, SendLeave(s, st.rooms[i].room.id)); !(d.Some? && d.value.inc == i)
    ensures st.rooms[i].phase.Dropped?
  {
  }

  lemma NewRoomForgets(st: State, step: Step, s: SessionId)
    requires Enabled(st, step) && |Apply(st, step).rooms| > |st.rooms| && s < |Apply(st, step).sessions|
    ensures |Apply(st, step).rooms| == |st.rooms| + 1
    ensures !LeftBehind(Apply(st, step), s, |st.rooms|)
  {
    assert Creates(st, step);
    CreateKeepsOthers(st, step);
    hide Apply;
  }

  lemma DisconnectForgets(st: State, s: SessionId, i: IncId)
    requires Enabled(st, Disconnect(s))
    ensures Apply(st, Disconnect(s)).rooms == st.rooms && |Apply(st, Disconnect(s)).sessions| == |st.sessions|
    ensures i < |st.rooms| ==> (LeftBehind(Apply(st, Disconnect(s)), s, i) <==> Forgotten(st, s, i))
  {
    hide Fate;
  }

  lemma LeftBehindStep(st: State, step: Step, s: SessionId, i: IncId)
    requires Inv(st) && Enabled(st, step) && s < |st.sessions| && i < |st.rooms|
    requires Departing(st.sessions[s].pc)
    ensures s < |Apply(st, step).sessions| && i < |Apply(st, step).rooms|
    ensures LeftBehind(Apply(st, step), s, i) ==> LeftBehind(st, s, i)
    ensures !OtherLeaves(st, step, s, i) ==> (LeftBehind(Apply(st, step), s, i) <==> LeftBehind(st, s, i))
  {
    hide Apply, Enabled, LeftBehind, Inv, OtherLeaves;
    if RoomStep(step) {
      LeftBehindRoomStep(st, step, s, i);
    } else {
      LeftBehindSessionStep(st, step, s, i);
    }
  }

  lemma DepartingStep(st: State, step: Step, s: SessionId)
    requires Enabled(st, step) && s < |st.sessions|
    requires Departing(st.sessions[s].pc) || step == Disconnect(s)
    ensures s < |Apply(st, step).sessions| && Departing(Apply(st, step).sessions[s].pc)
    ensures |st.rooms| <= |Apply(st, step).rooms| <= |st.rooms| + 1
  {
    RoomIdentity(st, step);
    if RoomStep(step) || step.Connect? || step.s != s {
      OthersUntouched(st, step, s);
    }
  }

  lemma {:induction false} DepartureGoesOn(bearer: string, steps: seq<Step>, n: nat, s: SessionId)
    requires Valid(bearer, steps) && n < |steps| && steps[n] == Disconnect(s)
    ensures s < |StateAt(bearer, steps, n).sessions|
    ensures s < |Exec(bearer, steps).sessions| && Departing(Exec(bearer, steps).sessions[s].pc)
    ensures |StateAt(bearer, steps, n).rooms| <= |Exec(bearer, steps).rooms|
  {
    hide Apply, Enabled;
    var front, step := steps[..|steps| - 1], steps[|steps| - 1];
    if n == |front| {
      assert StateAt(bearer, steps, n) == Exec(bearer, front);
      DisconnectInRange(Exec(bearer, front), s);
    } else {
      assert front[n] == steps[n];
      DepartureGoesOn(bearer, front, n, s);
    }
    DepartingStep(Exec(bearer, front), step, s);
  }

  lemma DisconnectInRange(st: State, s: SessionId)
    requires Enabled(st, Disconnect(s))
    ensures s < |st.sessions|
  {
  }

  /** Whether a disconnecting session is left behind is settled when it starts to disconnect: it
      will be in a room for good if the room, left to work through what is queued, keeps it, and
      the session does not cache the room. Nothing later can leave it behind, and only another
      session's leave for its id can still take it out. */
  lemma {:induction false} LeftBehindIffForgotten(bearer: string, steps: seq<Step>, n: nat, s: SessionId, i: IncId)
    requires Valid(bearer, steps) && n < |steps| && steps[n] == Disconnect(s)
    requires i < |Exec(bearer, steps).rooms|
    ensures s < |Exec(bearer, steps).sessions|
    ensures LeftBehind(Exec(bearer, steps), s, i) ==> Forgotten(StateAt(bearer, steps, n), s, i)
    ensures NoOtherLeaves(bearer, steps, n + 1, s, i) ==>
      (LeftBehind(Exec(bearer, steps), s, i) <==> Forgotten(StateAt(bearer, steps, n), s, i))
  {
    hide Apply, Enabled, LeftBehind, Inv, OtherLeaves, Stays;
    DepartureGoesOn(bearer, steps, n, s);
    var front, step := steps[..|steps| - 1], steps[|steps| - 1];
    var st := Exec(bearer, front);
    if n == |front| {
      assert StateAt(bearer, steps, n) == st;
      DisconnectForgets(st, s, i);
    } else {
      assert front[n] == steps[n];
      DepartureGoesOn(bearer, front, n, s);
      if i < |st.rooms| {
        InvHolds(bearer, front);
        LeftBehindIffForgotten(bearer, front, n, s, i);
        LeftBehindStep(st, step, s, i);
      } else {
        DepartingStep(st, step, s);
        NewRoomForgets(st, step, s);
      }
    }
  }

  // ---------- What it means to be left behind ----------

  /** The session is gone and the room has nothing left to handle. */
  predicate Settled(st: State, s: SessionId, i: IncId)
    requires s < |st.sessions| && i < |st.rooms|
  {
    st.sessions[s].pc.Finished? && st.rooms[i].queue == []
  }

  /** Once all is settled, being left behind is being a member. */
  lemma SettledMeans(st: State, s: SessionId, i: IncId)
    requires s < |st.sessions| && i < |st.rooms| && RoomOk(st.rooms[i]) && Settled(st, s, i)
    ensures MemberOf(st, s, i) <==> LeftBehind(st, s, i)
  {
  }

  /** A member that is not left behind has its leave due or queued. */
  lemma LeaveToCome(st: State, s: SessionId, i: IncId)
    requires s < |st.sessions| && i < |st.rooms| && RoomOk(st.rooms[i])
    requires MemberOf(st, s, i) && !LeftBehind(st, s, i)
    ensures LeaveDue(st.sessions[s], st.rooms[i].room.id, i) || LeaveQueued(st.rooms[i], st.sessions[s].id)
  {
    var r := st.rooms[i];
    CountIsExact(r.room);
    hide FoldLog, RoomAt, Handle, NumPlayers;
    if !LeaveQueued(r, st.sessions[s].id) && !LeaveDue(st.sessions[s], r.room.id, i) {
      NoLeaveStays(r.room, r.queue, s, st.sessions[s].id);
    }
  }

  /** No orphans: a room that does not forget a session at its disconnect never keeps it. In every
      later state in which the room still holds the session, it is running, not stopping, and has
      a leave for the session queued or about to be sent; once the session has finished and the
      queue is empty, the session is gone. */
  lemma NoOrphan(bearer: string, steps: seq<Step>, n: nat, s: SessionId, i: IncId)
    requires Valid(bearer, steps) && n < |steps| && steps[n] == Disconnect(s)
    requires !Forgotten(StateAt(bearer, steps, n), s, i)
    requires i < |Exec(bearer, steps).rooms|
    ensures var st := Exec(bearer, steps);
            && s < |st.sessions|
            && (MemberOf(st, s, i) ==>
                  && (st.rooms[i].phase.Running? || st.rooms[i].phase.Sending?)
                  && (LeaveDue(st.sessions[s], st.rooms[i].room.id, i) || LeaveQueued(st.rooms[i], st.sessions[s].id)))
            && (st.sessions[s].pc.Finished? && st.rooms[i].queue == [] ==> !MemberOf(st, s, i))
  {
    hide Inv, Apply, Forgotten, LeftBehind, MemberOf, Exec, Valid, RoomOk;
    LeftBehindIffForgotten(bearer, steps, n, s, i);
    InvHolds(bearer, steps);
    RoomHolds(bearer, steps, i);
    var st := Exec(bearer, steps);
    if MemberOf(st, s, i) {
      MembersAreRegistered(st, s, i);
      LeaveToCome(st, s, i);
    }
    if Settled(st, s, i) {
      SettledMeans(st, s, i);
    }
  }

  /** Orphans, exactly: when the session has finished and the room has handled all it was sent, the
      session is a member if and only if the room forgot it at the disconnect, unless another
      session sent the room a leave for its id since. */
  lemma OrphanIffForgotten(bearer: string, steps: seq<Step>, n: nat, s: SessionId, i: IncId)
    requires Valid(bearer, steps) && n < |steps| && steps[n] == Disconnect(s)
    requires i < |Exec(bearer, steps).rooms| && s < |Exec(bearer, steps).sessions| && Settled(Exec(bearer, steps), s, i)
    requires NoOtherLeaves(bearer, steps, n + 1, s, i)
    ensures MemberOf(Exec(bearer, steps), s, i) <==> Forgotten(StateAt(bearer, steps, n), s, i)
  {
    hide Inv, Apply, Forgotten, LeftBehind, MemberOf, Exec, Valid, RoomOk, NoOtherLeaves, Settled;
    LeftBehindIffForgotten(bearer, steps, n, s, i);
    RoomHolds(bearer, steps, i);
    SettledMeans(Exec(bearer, steps), s, i);
  }

  // ---------- The session and the room can always settle ----------

  /** A step of the session's own departure or of the room's task. */
  predicate Settling(step: Step, s: SessionId, i: IncId) {
    if RoomStep(step) then step.i == i else (step.SendLeave? || step.Unregister?) && step.s == s
  }

  lemma SettlingAlone(st: State, step: Step, s: SessionId, i: IncId)
    requires Enabled(st, step) && Settling(step, s, i)
    ensures !OtherLeaves(st, step, s, i) && Internal(step)
  {
  }

  lemma CanSettle(st: State, s: SessionId, i: IncId)
    requires s < |st.sessions| && i < |st.rooms| && RoomOk(st.rooms[i]) && SessionOk(st.sessions[s], st.rooms)
    requires Departing(st.sessions[s].pc) && !Settled(st, s, i)
    ensures exists step :: Settling(step, s, i) && Enabled(st, step)
  {
    hide FoldLog, RoomAt, HandlesOk;
    var r, x := st.rooms[i], st.sessions[s];
    if x.pc.LeavingRooms? {
      if x.pc.remaining == map[] {
        assert Settling(Unregister(s), s, i) && Enabled(st, Unregister(s));
      } else {
        CanSendLeave(st, s);
        var rid :| Enabled(st, SendLeave(s, rid));
        assert Settling(SendLeave(s, rid), s, i);
      }
    } else {
      match r.phase {
        case Running =>
          CanTake(st, i);
          var order :| Enabled(st, RoomTake(i, order));
          assert Settling(RoomTake(i, order), s, i);
        case Sending =>
          assert Settling(RoomDeliver(i), s, i) && Settling(RoomSettle(i), s, i);
          assert Enabled(st, RoomDeliver(i)) || Enabled(st, RoomSettle(i));
        case Stopping =>
          assert Settling(RoomDeregister(i), s, i) && Enabled(st, RoomDeregister(i));
        case Deregistered =>
          assert Settling(RoomDrop(i), s, i) && Enabled(st, RoomDrop(i));
        case Dropped =>
      }
    }
  }

  /** From any point of a departure on, the session can finish and the room handle all it was sent
      without another session taking part. */
  lemma {:induction false} Settles(bearer: string, steps: seq<Step>, n: nat, s: SessionId, i: IncId)
    requires Valid(bearer, steps) && n < |steps| && steps[n] == Disconnect(s)
    requires i < |Exec(bearer, steps).rooms| && NoOtherLeaves(bearer, steps, n + 1, s, i)
    ensures exists more: seq<Step> ::
      && Valid(bearer, steps + more) && NoOtherLeaves(bearer, steps + more, n + 1, s, i)
      && i < |Exec(bearer, steps + more).rooms| && s < |Exec(bearer, steps + more).sessions|
      && Settled(Exec(bearer, steps + more), s, i)
    decreases MeasureOf(Exec(bearer, steps)).connected, MeasureOf(Exec(bearer, steps)).requests,
      MeasureOf(Exec(bearer, steps)).roomWork,
              MeasureOf(Exec(bearer, steps)).outgoing, MeasureOf(Exec(bearer, steps)).incoming
  {
    hide Apply, Enabled, Internal, MeasureOf, Exec, Valid, Settled, Settling, OtherLeaves, Inv, RoomOk, SessionOk;
    var st := Exec(bearer, steps);
    DepartureGoesOn(bearer, steps, n, s);
    if Settled(st, s, i) {
      assert steps + [] == steps;
    } else {
      RoomHolds(bearer, steps, i);
      InvHolds(bearer, steps);
      SessionFact(st, s);
      CanSettle(st, s, i);
      var step :| Settling(step, s, i) && Enabled(st, step);
      var next := steps + [step];
      OneMore(bearer, steps, step);
      assert next[..|next| - 1] == steps;
      SettlingAlone(st, step, s, i);
      InternalProgress(st, step);
      DepartingStep(st, step, s);
      Settles(bearer, next, n, s, i);
      var more: seq<Step> :|
        && Valid(bearer, next + more) && NoOtherLeaves(bearer, next + more, n + 1, s, i)
        && i < |Exec(bearer, next + more).rooms| && s < |Exec(bearer, next + more).sessions|
        && Settled(Exec(bearer, next + more), s, i);
      assert next + more == steps + ([step] + more);
    }
  }

  /** The run goes on to a state in which the session has finished, room `i` has nothing left to
      handle, and the session is still in it. */
  ghost predicate Leaves(bearer: string, steps: seq<Step>, more: seq<Step>, s: SessionId, i: IncId) {
    && Valid(bearer, steps + more)
    && s < |Exec(bearer, steps + more).sessions| && i < |Exec(bearer, steps + more).rooms|
    && Settled(Exec(bearer, steps + more), s, i) && MemberOf(Exec(bearer, steps + more), s, i)
  }

  /** A disconnect leaves nobody behind, exactly: however the run goes on, no room that has handled
      all it was sent still holds the finished session, if and only if at the disconnect every
      room that would keep the session after what is queued is one the session caches. */
  lemma NobodyLeftIffNoneForgotten(bearer: string, steps: seq<Step>, s: SessionId)
    requires Valid(bearer, steps) && Enabled(Exec(bearer, steps), Disconnect(s))
    ensures (forall more, i: IncId :: !Leaves(bearer, steps + [Disconnect(s)], more, s, i))
            <==> (forall i: IncId :: !Forgotten(Exec(bearer, steps), s, i))
  {
    hide Apply, Enabled, Forgotten, Leaves, Exec, Valid;
    var st := Exec(bearer, steps);
    DisconnectInRange(st, s);
    forall more, i: IncId | Leaves(bearer, steps + [Disconnect(s)], more, s, i) ensures Forgotten(st, s, i) {
      LeftMeansForgotten(bearer, steps, more, s, i);
    }
    forall i: IncId | Forgotten(st, s, i)
      ensures exists more :: Leaves(bearer, steps + [Disconnect(s)], more, s, i)
    {
      ForgottenCanBeLeft(bearer, steps, s, i);
    }
  }

  lemma LeftMeansForgotten(bearer: string, steps: seq<Step>, more: seq<Step>, s: SessionId, i: IncId)
    requires Valid(bearer, steps)
    requires Leaves(bearer, steps + [Disconnect(s)], more, s, i)
    ensures Forgotten(Exec(bearer, steps), s, i)
  {
    hide Stays, Caches, Settled, MemberOf, Exec, Valid, RoomOk, LeftBehind;
    var run := steps + [Disconnect(s)] + more;
    assert run[..|steps|] == steps && run[|steps|] == Disconnect(s);
    PrefixRuns(bearer, run, |steps|);
    LeftBehindIffForgotten(bearer, run, |steps|, s, i);
    RoomHolds(bearer, run, i);
    SettledMeans(Exec(bearer, run), s, i);
  }

  lemma ForgottenCanBeLeft(bearer: string, steps: seq<Step>, s: SessionId, i: IncId)
    requires Valid(bearer, steps) && Enabled(Exec(bearer, steps), Disconnect(s))
    requires Forgotten(Exec(bearer, steps), s, i)
    ensures exists more :: Leaves(bearer, steps + [Disconnect(s)], more, s, i)
  {
    hide Stays, Caches, Settled, MemberOf, Exec, Valid, Apply, Enabled;
    var begun := steps + [Disconnect(s)];
    OneMore(bearer, steps, Disconnect(s));
    DisconnectForgets(Exec(bearer, steps), s, i);
    Settles(bearer, begun, |steps|, s, i);
    var more: seq<Step> :|
      && Valid(bearer, begun + more) && NoOtherLeaves(bearer, begun + more, |steps| + 1, s, i)
      && i < |Exec(bearer, begun + more).rooms| && s < |Exec(bearer, begun + more).sessions|
      && Settled(Exec(bearer, begun + more), s, i);
    var run := begun + more;
    assert run[..|steps|] == steps && run[|steps|] == Disconnect(s);
    PrefixRuns(bearer, run, |steps|);
    OrphanIffForgotten(bearer, run, |steps|, s, i);
    assert Leaves(bearer, begun, more, s, i);
  }

  // ---------- When a room keeps a session ----------

  /** A leave is queued with no join of the session behind it. */
  ghost predicate LeaveBehindJoin(queue: seq<Envelope>, s: SessionId, id: PlayerId) {
    exists k :: 0 <= k < |queue| && queue[k].event == InputLeave(id) && NoJoinOf(queue[k..], s)
  }

  /** A room does not keep a session whose leave is queued behind its last join. With no join of
      the session queued, it keeps the session exactly if the session is in and no leave for it is
      queued. */
  lemma StaysWhen(st: State, s: SessionId, i: IncId)
    requires s < |st.sessions| && i < |st.rooms| && RoomOk(st.rooms[i])
    ensures LeaveBehindJoin(st.rooms[i].queue, s, st.sessions[s].id) ==> !Stays(st, s, i)
    ensures NoJoinOf(st.rooms[i].queue, s) ==>
      (Stays(st, s, i) <==> MemberOf(st, s, i) && !LeaveQueued(st.rooms[i], st.sessions[s].id))
  {
    var r, id := st.rooms[i], st.sessions[s].id;
    CountIsExact(r.room);
    hide FoldLog, RoomAt, Handle, NumPlayers;
    if LeaveBehindJoin(r.queue, s, id) {
      var k :| 0 <= k < |r.queue| && r.queue[k].event == InputLeave(id) && NoJoinOf(r.queue[k..], s);
      LeaveBehindJoins(r.room, r.queue, k, s, id);
    }
    if NoJoinOf(r.queue, s) {
      if LeaveQueued(r, id) {
        var k :| 0 <= k < |r.queue| && r.queue[k].event == InputLeave(id);
        LeaveBehindJoins(r.room, r.queue, k, s, id);
      } else if MemberOf(st, s, i) {
        NoLeaveStays(r.room, r.queue, s, id);
      } else {
        NoJoinStaysOut(r.room, r.queue, s, id);
      }
    }
  }

  /** A room that neither holds the session nor has a join of it queued, or that has its leave
      queued behind its last join, or that the session caches, does not forget it. */
  lemma CoveredIsNotForgotten(st: State, s: SessionId, i: IncId)
    requires s < |st.sessions| && i < |st.rooms| && RoomOk(st.rooms[i])
    requires MemberOf(st, s, i) || !NoJoinOf(st.rooms[i].queue, s) ==>
      Caches(st, s, st.rooms[i].room.id, i) || LeaveBehindJoin(st.rooms[i].queue, s, st.sessions[s].id)
    ensures !Forgotten(st, s, i)
  {
    hide RoomOk, Stays, NoJoinOf;
    StaysWhen(st, s, i);
  }

  /** No join by the session waits in a room's queue. */
  ghost predicate NoJoinQueued(st: State, s: SessionId) {
    forall i, k :: 0 <= i < |st.rooms| && 0 <= k < |st.rooms[i].queue| && st.rooms[i].queue[k].from == s ==>
      !st.rooms[i].queue[k].event.InputJoin?
  }

  /** No join answer of the session is still on its way. */
  ghost predicate NoJoinComing(st: State, s: SessionId)
    requires s < |st.sessions|
  {
    forall rid, k :: 0 <= k < |Rest(st, s, rid)| ==> !IsOwnJoin(Rest(st, s, rid)[k].event, st.sessions[s].id)
  }

  lemma {:induction false} InsideWithoutJoinIsQuiet(v: Standing, stream: seq<Delivery>, rid: RoomId, id: PlayerId)
    requires Follow(v, stream, rid, id).Inside?
    requires forall k :: 0 <= k < |stream| ==> !IsOwnJoin(stream[k].event, id)
    ensures v.Inside? && Quiet(stream, rid, id)
  {
    if stream != [] {
      assert !IsOwnJoin(stream[|stream| - 1].event, id);
      InsideWithoutJoinIsQuiet(v, stream[..|stream| - 1], rid, id);
    }
  }

  /** An idle session whose join answers have all arrived caches every room it is in. */
  lemma MembershipsCached(st: State, s: SessionId, i: IncId)
    requires Inv(st) && s < |st.sessions| && i < |st.rooms| && MemberOf(st, s, i)
    requires Coherent(st, s, st.rooms[i].room.id) && CacheOk(st, s, st.rooms[i].room.id)
    requires st.sessions[s].pc.Idle? && NoJoinComing(st, s)
    ensures var rid := st.rooms[i].room.id;
            rid in st.sessions[s].joined && st.sessions[s].joined[rid] == i
  {
    hide RoomOk, SentOk, MembersOk, SessionsOk, RegistryOk, FirstEventDue;
    var rid := st.rooms[i].room.id;
    TruthIsMembership(st, s, rid);
    LearntIsTrue(st, s, rid);
    InsideWithoutJoinIsQuiet(Learnt(st.sessions[s], rid), Rest(st, s, rid), rid, st.sessions[s].id);
  }

  /** A session none of whose joins is queued in a room or on its way back is forgotten nowhere. */
  lemma NoJoinPendingIsNotForgotten(bearer: string, steps: seq<Step>, s: SessionId, i: IncId)
    requires Valid(bearer, steps) && Enabled(Exec(bearer, steps), Disconnect(s))
    requires s < |Exec(bearer, steps).sessions| && i < |Exec(bearer, steps).rooms|
    requires NoJoinQueued(Exec(bearer, steps), s) && NoJoinComing(Exec(bearer, steps), s)
    ensures !Forgotten(Exec(bearer, steps), s, i)
  {
    hide *;
    var st := Exec(bearer, steps);
    RoomHolds(bearer, steps, i);
    QueuedJoins(st, s, i);
    if MemberOf(st, s, i) {
      MemberIsCached(bearer, steps, s, i);
    }
    CoveredIsNotForgotten(st, s, i);
  }

  lemma MemberIsCached(bearer: string, steps: seq<Step>, s: SessionId, i: IncId)
    requires Valid(bearer, steps) && Enabled(Exec(bearer, steps), Disconnect(s))
    requires s < |Exec(bearer, steps).sessions| && i < |Exec(bearer, steps).rooms|
    requires MemberOf(Exec(bearer, steps), s, i) && NoJoinComing(Exec(bearer, steps), s)
    ensures Caches(Exec(bearer, steps), s, Exec(bearer, steps).rooms[i].room.id, i)
  {
    hide Inv, NoJoinComing, CacheOk, ClientOk, Coherent, Exec, Valid, Apply, Enabled, MemberOf;
    var st := Exec(bearer, steps);
    IdleKnows(st, s, st.rooms[i].room.id);
    InvHolds(bearer, steps);
    ViewHolds(bearer, steps);
    CacheHolds(bearer, steps);
    assert Coherent(st, s, st.rooms[i].room.id) && CacheOk(st, s, st.rooms[i].room.id);
    MembershipsCached(st, s, i);
  }

  lemma QueuedJoins(st: State, s: SessionId, i: IncId)
    requires i < |st.rooms| && RoomOk(st.rooms[i]) && SentOk(st.sessions, st.rooms[i]) && NoJoinQueued(st, s)
    ensures NoJoinOf(st.rooms[i].queue, s)
  {
    hide FoldLog, RoomAt;
    var r := st.rooms[i];
    forall k | 0 <= k < |r.queue| && r.queue[k].event.InputJoin? ensures r.queue[k].event.player.sender != s {
      var env := r.sent[|r.log| + k];
      assert env == r.queue[k];
      assert SpokenBy(env, st.sessions[env.from].id);
    }
  }

  // ---------- When a session caches the rooms it is in ----------

  lemma CachedOrComing(bearer: string, steps: seq<Step>, s: SessionId, i: IncId)
    requires Valid(bearer, steps) && Enabled(Exec(bearer, steps), Disconnect(s))
    requires i < |Exec(bearer, steps).rooms| && MemberOf(Exec(bearer, steps), s, i)
    ensures var st := Exec(bearer, steps);
            var rid := st.rooms[i].room.id;
            && rid in st.registry && st.registry[rid] == i
            && (Caches(st, s, rid, i) || LastOwnIs(Rest(st, s, rid), true, rid, st.sessions[s].id))
  {
    hide Inv, Quiet, Rest, Exec, Valid, Apply, Enabled, Own, MemberOf, Known, Caches, IsOwnJoin;
    var st := Exec(bearer, steps);
    var rid := st.rooms[i].room.id;
    IdleKnows(st, s, rid);
    InvHolds(bearer, steps);
    MembersAreRegistered(st, s, i);
    CacheCoherence(bearer, steps, s, rid);
    QuietOrLast(Rest(st, s, rid), rid, st.sessions[s].id);
    assert IsMember(st, s, rid);
  }

  lemma IdleKnows(st: State, s: SessionId, rid: RoomId)
    requires Enabled(st, Disconnect(s))
    ensures s < |st.sessions| && st.sessions[s].pc.Idle? && Alive(st.sessions[s].pc)
    ensures forall i: IncId :: Known(st.sessions[s], rid) == Some(i) <==> Caches(st, s, rid, i)
  {
  }

  lemma JoinComingMeansMember(bearer: string, steps: seq<Step>, s: SessionId, rid: RoomId)
    requires Valid(bearer, steps) && Enabled(Exec(bearer, steps), Disconnect(s))
    requires LastOwnIs(Rest(Exec(bearer, steps), s, rid), true, rid, Exec(bearer, steps).sessions[s].id)
    ensures var st := Exec(bearer, steps);
            && rid in st.registry && st.registry[rid] < |st.rooms|
            && st.rooms[st.registry[rid]].room.id == rid && MemberOf(st, s, st.registry[rid])
  {
    hide Quiet, Rest, Inv;
    var st := Exec(bearer, steps);
    InvHolds(bearer, steps);
    CacheCoherence(bearer, steps, s, rid);
    var i :| 0 <= i < |st.rooms| && st.rooms[i].room.id == rid && MemberOf(st, s, i);
    MembersAreRegistered(st, s, i);
  }

  /** A disconnecting session caches every room it is in at that moment if and only if, for each
      room id whose last own event on its way is a join, it already caches the registered
      incarnation of that id. */
  lemma LeavesReachAllRooms(bearer: string, steps: seq<Step>, s: SessionId)
    requires Valid(bearer, steps) && Enabled(Exec(bearer, steps), Disconnect(s))
    ensures var st := Exec(bearer, steps);
            (forall i :: 0 <= i < |st.rooms| && MemberOf(st, s, i) ==> Caches(st, s, st.rooms[i].room.id, i))
            <==>
            (forall rid :: LastOwnIs(Rest(st, s, rid), true, rid, st.sessions[s].id) ==>
               rid in st.registry && Caches(st, s, rid, st.registry[rid]))
  {
    var st := Exec(bearer, steps);
    assert s < |st.sessions|;
    hide LastOwnIs, Rest, MemberOf, Apply, Enabled;
    forall i | 0 <= i < |st.rooms| && MemberOf(st, s, i)
      ensures var rid := st.rooms[i].room.id;
              && rid in st.registry && st.registry[rid] == i
              && (Caches(st, s, rid, i) || LastOwnIs(Rest(st, s, rid), true, rid, st.sessions[s].id))
    {
      CachedOrComing(bearer, steps, s, i);
    }
    forall rid | LastOwnIs(Rest(st, s, rid), true, rid, st.sessions[s].id)
      ensures && rid in st.registry && st.registry[rid] < |st.rooms|
              && st.rooms[st.registry[rid]].room.id == rid && MemberOf(st, s, st.registry[rid])
    {
      JoinComingMeansMember(bearer, steps, s, rid);
    }
  }

  // ---------- Orphans stay ----------

  /** An orphan stays: a finished session that is in a room with no leave for its id queued remains
      there, and the room remains, in every later state, until another session sends the room a
      leave for that id. */
  lemma {:induction false} OrphanStays(bearer: string, steps: seq<Step>, n: nat, s: SessionId, i: IncId)
    requires Valid(bearer, steps) && n <= |steps|
    requires var st := StateAt(bearer, steps, n);
             && s < |st.sessions| && i < |st.rooms| && st.sessions[s].pc.Finished?
             && MemberOf(st, s, i) && !LeaveQueued(st.rooms[i], st.sessions[s].id)
    requires NoOtherLeaves(bearer, steps, n, s, i)
    ensures var st := Exec(bearer, steps);
            && s < |st.sessions| && i < |st.rooms| && st.sessions[s].pc.Finished?
            && MemberOf(st, s, i) && !LeaveQueued(st.rooms[i], st.sessions[s].id)
            && (st.rooms[i].phase.Running? || st.rooms[i].phase.Sending?)
  {
    hide Apply, Enabled, MemberOf, LeaveQueued, Inv;
    InvHolds(bearer, steps);
    if n < |steps| {
      var front, step := steps[..|steps| - 1], steps[|steps| - 1];
      OrphanStays(bearer, front, n, s, i);
      InvHolds(bearer, front);
      OrphanStep(Exec(bearer, front), step, s, i);
    }
    MembersAreRegistered(Exec(bearer, steps), s, i);
  }

  lemma OrphanStep(st: State, step: Step, s: SessionId, i: IncId)
    requires Inv(st) && Enabled(st, step) && s < |st.sessions| && i < |st.rooms|
    requires st.sessions[s].pc.Finished? && MemberOf(st, s, i) && !LeaveQueued(st.rooms[i], st.sessions[s].id)
    ensures s < |Apply(st, step).sessions| && i < |Apply(st, step).rooms|
    ensures Apply(st, step).sessions[s].pc.Finished? && MemberOf(Apply(st, step), s, i)
    ensures Apply(st, step).sessions[s].id == st.sessions[s].id
    ensures LeaveQueued(Apply(st, step).rooms[i], st.sessions[s].id) ==>
      && Dispatched(st, step).Some?
      && Dispatched(st, step).value.inc == i
      && Dispatched(st, step).value.env.event == InputLeave(st.sessions[s].id)
      && Dispatched(st, step).value.env.from != s
  {
    hide RoomOk, SentOk, MembersOk, SessionsOk, RegistryOk, FirstEventDue, LeaveQueued, Apply, Enabled;
    FinishedStays(st, step, s);
    OrphanQueue(st, step, s, i);
    if step.RoomTake? && step.i == i {
      OrphanSurvivesTake(st, step, s);
    } else {
      TableKept(st, step, i);
    }
  }

  lemma TableKept(st: State, step: Step, i: IncId)
    requires Enabled(st, step) && i < |st.rooms| && !(step.RoomTake? && step.i == i)
    ensures i < |Apply(st, step).rooms| && Apply(st, step).rooms[i].room == st.rooms[i].room
  {
    if !RoomStep(step) && !Creates(st, step) {
      SessionStepKeepsRooms(st, step);
      hide Apply;
    }
  }

  lemma QueueShrinks(st: State, step: Step)
    requires Enabled(st, step) && RoomStep(step)
    ensures |Apply(st, step).rooms| == |st.rooms|
    ensures forall i :: 0 <= i < |st.rooms| ==>
      Apply(st, step).rooms[i].queue == (
        if i != step.i then st.rooms[i].queue
        else if step.RoomTake? then st.rooms[i].queue[1..]
        else if step.RoomDrop? then []
        else st.rooms[i].queue)
  {
  }

  lemma FinishedStays(st: State, step: Step, s: SessionId)
    requires Enabled(st, step) && s < |st.sessions| && st.sessions[s].pc.Finished?
    ensures s < |Apply(st, step).sessions|
    ensures Apply(st, step).sessions[s].pc.Finished? && Apply(st, step).sessions[s].id == st.sessions[s].id
  {
    if RoomStep(step) || step.Connect? || step.s != s {
      OthersUntouched(st, step, s);
    }
  }

  lemma OrphanSurvivesTake(st: State, step: Step, s: SessionId)
    requires Enabled(st, step) && step.RoomTake? && s < |st.sessions|
    requires MemberOf(st, s, step.i) && !LeaveQueued(st.rooms[step.i], st.sessions[s].id)
    requires s < |Apply(st, step).sessions| && Apply(st, step).sessions[s].id == st.sessions[s].id
    ensures MemberOf(Apply(st, step), s, step.i)
  {
    assert st.rooms[step.i].queue[0].event != InputLeave(st.sessions[s].id);
  }

  lemma OrphanQueue(st: State, step: Step, s: SessionId, i: IncId)
    requires Enabled(st, step) && s < |st.sessions| && i < |st.rooms| && st.sessions[s].pc.Finished?
    requires !LeaveQueued(st.rooms[i], st.sessions[s].id)
    ensures i < |Apply(st, step).rooms|
    ensures LeaveQueued(Apply(st, step).rooms[i], st.sessions[s].id) ==>
      && Dispatched(st, step).Some?
      && Dispatched(st, step).value.inc == i
      && Dispatched(st, step).value.env.event == InputLeave(st.sessions[s].id)
      && Dispatched(st, step).value.env.from != s
  {
    if RoomStep(step) {
      QueueShrinks(st, step);
    } else if Creates(st, step) {
      CreateKeepsOthers(st, step);
    } else {
      SessionStepRooms(st, step);
    }
    hide Apply;
  }
}
