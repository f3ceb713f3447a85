/** Facts about the rooms and the registry that hold in every reachable state. */
module Rooms {
  import opened Wrappers
  import opened Events
  import opened RoomCore
  import opened PlayerCore
  import opened Protocol
  import opened Logs

  /** A log without its history. */
  function Plain(log: seq<Entry>): seq<Handled<SessionId>> {
    seq(|log|, k requires 0 <= k < |log| => Handled(log[k].env.event, log[k].order))
  }

  /** The member table as a pure fold of the events handled. */
  function FoldLog(id: RoomId, config: RoomConfig, log: seq<Entry>): RoomState<SessionId> {
    Fold(NewRoom(id, config), Plain(log))
  }

  lemma FoldLogStep(id: RoomId, config: RoomConfig, log: seq<Entry>)
    ensures FoldLog(id, config, []) == NewRoom(id, config)
    ensures log != [] ==>
      var front, last := log[..|log| - 1], log[|log| - 1];
      FoldLog(id, config, log) == Handle(FoldLog(id, config, front), last.env.event, last.order).room
  {
    if log != [] {
      assert Plain(log)[..|log| - 1] == Plain(log[..|log| - 1]);
    }
  }

  function Envelopes(log: seq<Entry>): seq<Envelope> {
    seq(|log|, k requires 0 <= k < |log| => log[k].env)
  }

  /** The room as it stood before the log's event at `pos`. */
  function RoomAt(r: Incarnation, pos: nat): RoomState<SessionId>
    requires pos <= |r.log|
  {
    FoldLog(r.room.id, r.room.config, r.log[..pos])
  }

  // ---------- The registry ----------

  /** Registered incarnations and registry entries correspond one to one, and only the newest
      incarnation of an id can be registered. */
  ghost predicate RegistryOk(st: State) {
    && (forall rid :: rid in st.registry ==>
          st.registry[rid] < |st.rooms| && st.rooms[st.registry[rid]].room.id == rid &&
            Registered(st.rooms[st.registry[rid]].phase))
    && (forall i :: 0 <= i < |st.rooms| && Registered(st.rooms[i].phase) ==>
          st.rooms[i].room.id in st.registry && st.registry[st.rooms[i].room.id] == i)
    && (forall i, j :: 0 <= i < j < |st.rooms| && st.rooms[i].room.id == st.rooms[j].room.id ==>
      !Registered(st.rooms[i].phase))
  }

  // ---------- One incarnation ----------

  /** Table, log, phases and queues of one incarnation fit together. */
  ghost predicate RoomOk(r: Incarnation) {
    && r.room == FoldLog(r.room.id, r.room.config, r.log)
    && |r.room.players| <= r.room.config.maxPlayers
    && (r.phase.Running? ==> r.outbox == [] && (r.log == [] || r.room.players != map[]))
    && (r.phase.Sending? ==> r.log != [])
    && (!r.phase.Running? && !r.phase.Sending? ==> r.outbox == [] && r.room.players == map[])
    && r.sent == Envelopes(r.log) + r.queue + r.discarded
    && (!r.phase.Dropped? ==> r.discarded == [])
    && (r.phase.Dropped? ==> r.queue == [])
    && (forall k :: 0 < k < |r.log| ==> RoomAt(r, k).players != map[])
  }

  // ---------- Who stands behind the entries ----------

  predicate SpokenBy(env: Envelope, id: PlayerId) {
    match env.event
    case InputJoin(player, _) => player == Player(id, env.from)
    case InputLeave(playerId) => playerId == id
    case InputMessage(senderId, _, _) => senderId == id
  }

  predicate LoggedIn(sessions: seq<Session>, s: SessionId) {
    s < |sessions| && sessions[s].epoch > 0
  }

  ghost predicate SentOk(sessions: seq<Session>, r: Incarnation) {
    && (forall k :: 0 <= k < |r.sent| ==>
          && LoggedIn(sessions, r.sent[k].from)
          && SpokenBy(r.sent[k], sessions[r.sent[k].from].id)
          && r.sent[k].no < sessions[r.sent[k].from].sends)
    && (forall k :: 0 <= k < |r.outbox| ==> LoggedIn(sessions, r.outbox[k].to))
  }

  ghost predicate MembersOk(sessions: seq<Session>, r: Incarnation) {
    forall p :: p in r.room.players ==>
      && r.room.players[p].id == p
      && LoggedIn(sessions, r.room.players[p].sender)
      && sessions[r.room.players[p].sender].id == p
  }

  ghost predicate HandlesOk(handles: map<RoomId, IncId>, rooms: seq<Incarnation>) {
    forall rid :: rid in handles ==> handles[rid] < |rooms| && rooms[handles[rid]].room.id == rid
  }

  ghost predicate SessionOk(x: Session, rooms: seq<Incarnation>) {
    && HandlesOk(x.joined, rooms)
    && (x.pc.AwaitLogin? || x.pc.RejectingDuplicate? || x.pc.RejectingDenied? ==>
          x.epoch == 0 && x.inbox == [] && x.handled == [] && x.joined == map[])
    && (Looping(x.pc) || x.pc.LeavingRooms? || x.pc.Panicked? ==> x.epoch > 0)
    && (RequestHalf(x.pc) ==> x.pc.inc < |rooms|)
    && (x.pc.JoinHalf? ==> rooms[x.pc.inc].room.id == x.pc.roomId)
    && (x.pc.JoinedHalf? && x.pc.found.Some? ==>
      x.pc.found.value < |rooms| && rooms[x.pc.found.value].room.id == x.pc.info.roomId)
    && (x.pc.LeavingRooms? ==> HandlesOk(x.pc.remaining, rooms))
  }

  ghost predicate SessionsOk(st: State) {
    forall s :: 0 <= s < |st.sessions| ==> SessionOk(st.sessions[s], st.rooms)
  }

  /** An empty room still waiting for its first event has that event queued or its creator about
      to send it. */
  ghost predicate FirstEventDue(st: State, i: IncId)
    requires i < |st.rooms|
  {
    var r := st.rooms[i];
    r.phase.Running? && r.room.players == map[] && r.queue == [] ==>
      && r.log == []
      && r.creator < |st.sessions|
      && st.sessions[r.creator].pc == JoinHalf(i, r.room.id, r.room.config)
  }

  ghost predicate Inv(st: State) {
    && RegistryOk(st)
    && (forall i :: 0 <= i < |st.rooms| ==>
          && RoomOk(st.rooms[i])
          && SentOk(st.sessions, st.rooms[i])
          && MembersOk(st.sessions, st.rooms[i])
          && FirstEventDue(st, i))
    && SessionsOk(st)
  }

  // ---------- What kinds of steps do to the rooms ----------

  /** The step is a join request for an id without a registered room. */
  predicate Creates(st: State, step: Step)
    requires Enabled(st, step)
  {
    && step.TakeInput?
    && st.sessions[step.s].input[0].data.Some?
    && st.sessions[step.s].input[0].data.value.JoinRequest?
    && st.sessions[step.s].input[0].data.value.roomId !in st.registry
  }

  /** Apart from what was sent to them, rooms and registry are as before. */
  ghost predicate RoomsKept(st: State, st': State) {
    && st'.registry == st.registry
    && |st'.rooms| == |st.rooms|
    && forall i :: 0 <= i < |st.rooms| ==>
         st'.rooms[i] == st.rooms[i].(queue := st'.rooms[i].queue, sent := st'.rooms[i].sent)
  }

  datatype Dispatch = Dispatch(inc: IncId, env: Envelope)

  /** What a step puts on a room's channel, when it does and the receiver is there. */
  function Dispatched(st: State, step: Step): Option<Dispatch>
    requires Enabled(st, step)
  {
    match step
    case SendRequest(s) =>
      var x := st.sessions[s];
      if st.rooms[x.pc.inc].phase.Dropped? then None
      else Some(Dispatch(x.pc.inc, Envelope(s, x.sends, RequestEvent(x, s))))
    case SendLeave(s, rid) =>
      var x := st.sessions[s];
      if st.rooms[x.pc.remaining[rid]].phase.Dropped? then None
      else Some(Dispatch(x.pc.remaining[rid], Envelope(s, x.sends, InputLeave(x.id))))
    case _ => None
  }

  lemma CreateKeepsOthers(st: State, step: Step)
    requires Enabled(st, step) && Creates(st, step)
    ensures var data := st.sessions[step.s].input[0].data.value;
            && Apply(st, step).registry == st.registry[data.roomId := |st.rooms|]
            && Apply(st, step).rooms == st.rooms + [NewIncarnation(data.roomId, RequestedConfig(data.config), step.s)]
  {
  }

  lemma SessionStepRooms(st: State, step: Step)
    requires Enabled(st, step) && !RoomStep(step) && !Creates(st, step)
    ensures Apply(st, step).registry == st.registry
    ensures var d := Dispatched(st, step);
            if d.None? then Apply(st, step).rooms == st.rooms
            else d.value.inc < |st.rooms| && !st.rooms[d.value.inc].phase.Dropped?
                 && Apply(st, step).rooms == Enqueue(st.rooms, d.value.inc, d.value.env)
  {
  }

  lemma SessionStepKeepsRooms(st: State, step: Step)
    requires Enabled(st, step) && !RoomStep(step) && !Creates(st, step)
    ensures RoomsKept(st, Apply(st, step))
  {
    SessionStepRooms(st, step);
  }

  lemma RegistryKept(st: State, st': State)
    requires RegistryOk(st)
    requires st'.registry == st.registry && |st'.rooms| == |st.rooms|
    requires forall i :: 0 <= i < |st.rooms| ==>
      st'.rooms[i].room.id == st.rooms[i].room.id && Registered(st'.rooms[i].phase) == Registered(st.rooms[i].phase)
    ensures RegistryOk(st')
  {
  }

  /** Deregistering by id removes the remover's own entry, because it is the one registered. */
  lemma DeregisterKeepsRegistry(st: State, i: IncId)
    requires RegistryOk(st) && Enabled(st, RoomDeregister(i))
    ensures RegistryOk(Apply(st, RoomDeregister(i)))
  {
  }

  lemma CreateKeepsRegistry(st: State, step: Step)
    requires RegistryOk(st) && Enabled(st, step) && Creates(st, step)
    ensures RegistryOk(Apply(st, step))
  {
    CreateKeepsOthers(st, step);
    var data := st.sessions[step.s].input[0].data.value;
    RegistryExtended(st, Apply(st, step), NewIncarnation(data.roomId, RequestedConfig(data.config), step.s));
  }

  lemma RegistryExtended(st: State, st': State, r: Incarnation)
    requires RegistryOk(st) && r.room.id !in st.registry && Registered(r.phase)
    requires st'.registry == st.registry[r.room.id := |st.rooms|] && st'.rooms == st.rooms + [r]
    ensures RegistryOk(st')
  {
  }

  lemma RegistryStep(st: State, step: Step)
    requires RegistryOk(st) && Enabled(st, step) && !step.RoomStarve?
    ensures RegistryOk(Apply(st, step))
  {
    if Creates(st, step) {
      CreateKeepsRegistry(st, step);
    } else if !RoomStep(step) {
      SessionStepKeepsRooms(st, step);
      RegistryKept(st, Apply(st, step));
    } else if step.RoomDeregister? {
      DeregisterKeepsRegistry(st, step.i);
    } else {
      RegistryKept(st, Apply(st, step));
    }
  }

  /** Ids and configurations of rooms never change, and no room is forgotten. */
  lemma RoomIdentity(st: State, step: Step)
    requires Enabled(st, step)
    ensures |st.rooms| <= |Apply(st, step).rooms|
    ensures forall i :: 0 <= i < |st.rooms| ==>
      && Apply(st, step).rooms[i].room.id == st.rooms[i].room.id
      && Apply(st, step).rooms[i].room.config == st.rooms[i].room.config
  {
    if RoomStep(step) {
      assert Apply(st, step).rooms == st.rooms[step.i := RoomAfter(st.rooms[step.i], step.i, step)];
      hide Apply, Enabled;
    } else if Creates(st, step) {
      CreateKeepsOthers(st, step);
      hide Apply, Enabled, Creates;
    } else {
      SessionStepKeepsRooms(st, step);
      hide Apply, Enabled, Creates;
    }
  }

  /** The receive loop never ends for want of senders: a running room is registered, and the
      registry holds a sender. */
  lemma NeverStarves(st: State, i: IncId)
    requires RegistryOk(st)
    ensures !Enabled(st, RoomStarve(i))
  {
    if i < |st.rooms| && st.rooms[i].phase.Running? {
      assert st.registry[st.rooms[i].room.id] == i;
    }
  }

  // ---------- Each room stays consistent ----------

  lemma EnqueueOk(r: Incarnation, env: Envelope)
    requires RoomOk(r) && !r.phase.Dropped?
    ensures RoomOk(r.(queue := r.queue + [env], sent := r.sent + [env]))
  {
    var r' := r.(queue := r.queue + [env], sent := r.sent + [env]);
    assert r'.sent == Envelopes(r'.log) + r'.queue + r'.discarded;
    forall k | 0 < k < |r'.log| ensures RoomAt(r', k).players != map[] {
      assert RoomAt(r', k) == RoomAt(r, k);
    }
  }

  lemma HandleKeepsCapacity<C>(room: RoomState<C>, event: InputEvent<C>, order: seq<PlayerId>)
    requires |room.players| <= room.config.maxPlayers
    ensures var room' := Handle(room, event, order).room;
            room'.id == room.id && room'.config == room.config && |room'.players| <= room'.config.maxPlayers
  {
    if event.InputLeave? {
      assert RemovePlayer(room, event.playerId).players.Keys == room.players.Keys - {event.playerId};
      assert |room.players.Keys - {event.playerId}| <= |room.players.Keys|;
      assert |RemovePlayer(room, event.playerId).players| == |RemovePlayer(room, event.playerId).players.Keys|;
    }
  }

  lemma TakeOk(r: Incarnation, i: IncId, order: seq<PlayerId>)
    requires RoomOk(r) && r.phase.Running? && r.queue != []
    ensures RoomOk(r.(room := Handle(r.room, r.queue[0].event, order).room,
                      phase := Sending,
                      queue := r.queue[1..],
                      outbox := Tag(Handle(r.room, r.queue[0].event, order).sends, i, |r.log|),
                      log := r.log + [Entry(r.queue[0], order)]))
  {
    var result := Handle(r.room, r.queue[0].event, order);
    var entry := Entry(r.queue[0], order);
    var r' := r.(room := result.room, phase := Sending, queue := r.queue[1..],
                 outbox := Tag(result.sends, i, |r.log|), log := r.log + [entry]);
    HandleKeepsCapacity(r.room, r.queue[0].event, order);
    FoldLogStep(r.room.id, r.room.config, r'.log);
    assert r'.log[..|r'.log| - 1] == r.log;
    assert Envelopes(r'.log) == Envelopes(r.log) + [r.queue[0]];
    assert r'.sent == Envelopes(r'.log) + r'.queue + r'.discarded;
    forall k | 0 < k < |r'.log| ensures RoomAt(r', k).players != map[] {
      assert r'.log[..k] == r.log[..k];
      if k == |r.log| {
        assert r.log[..k] == r.log;
      } else {
        assert RoomAt(r', k) == RoomAt(r, k);
      }
    }
  }

  lemma SamePast(r: Incarnation, r': Incarnation)
    requires RoomOk(r)
    requires r'.room == r.room && r'.log == r.log
    ensures forall k :: 0 < k < |r'.log| ==> RoomAt(r', k).players != map[]
  {
    forall k | 0 < k < |r'.log| ensures RoomAt(r', k).players != map[] {
      assert RoomAt(r', k) == RoomAt(r, k);
    }
  }

  /** The truncated count is exact, so a settled room is empty iff it stops. */
  lemma CountIsExact<C>(room: RoomState<C>)
    requires |room.players| <= room.config.maxPlayers
    ensures NumPlayers(room) == |room.players|
    ensures NumPlayers(room) == 0 <==> room.players == map[]
  {
  }

  lemma NewRoomOk(roomId: RoomId, config: RoomConfig, creator: SessionId)
    ensures RoomOk(NewIncarnation(roomId, config, creator))
  {
  }

  lemma DeliverOk(r: Incarnation)
    requires RoomOk(r) && r.phase.Sending? && r.outbox != []
    ensures RoomOk(r.(outbox := r.outbox[1..]))
  {
    SamePast(r, r.(outbox := r.outbox[1..]));
  }

  lemma SettleOk(r: Incarnation)
    requires RoomOk(r) && r.phase.Sending? && r.outbox == []
    ensures RoomOk(r.(phase := if NumPlayers(r.room) == 0 then Stopping else Running))
  {
    CountIsExact(r.room);
    SamePast(r, r.(phase := if NumPlayers(r.room) == 0 then Stopping else Running));
  }

  lemma StopOk(r: Incarnation)
    requires RoomOk(r)
    ensures r.phase.Stopping? ==> RoomOk(r.(phase := Deregistered))
    ensures r.phase.Deregistered? ==> RoomOk(r.(phase := Dropped, queue := [], discarded := r.queue))
  {
    SamePast(r, r.(phase := Deregistered));
    SamePast(r, r.(phase := Dropped, queue := [], discarded := r.queue));
    if r.phase.Deregistered? {
      assert r.sent == Envelopes(r.log) + [] + r.queue;
    }
  }

  lemma RoomStepOk(st: State, step: Step, i: IncId)
    requires RegistryOk(st) && Enabled(st, step) && RoomStep(step)
    requires i < |st.rooms| && RoomOk(st.rooms[i])
    ensures RoomOk(Apply(st, step).rooms[i])
  {
    if i == step.i {
      match step {
        case RoomTake(_, order) => TakeOk(st.rooms[i], i, order);
        case RoomDeliver(_) => DeliverOk(st.rooms[i]);
        case RoomSettle(_) => SettleOk(st.rooms[i]);
        case RoomDeregister(_) => StopOk(st.rooms[i]);
        case RoomDrop(_) => StopOk(st.rooms[i]);
        case RoomStarve(_) => NeverStarves(st, i);
      }
    } else {
      assert Apply(st, step).rooms[i] == st.rooms[i];
    }
  }

  lemma RoomOkStep(st: State, step: Step, i: IncId)
    requires RegistryOk(st) && Enabled(st, step)
    requires i < |Apply(st, step).rooms|
    requires forall k :: 0 <= k < |st.rooms| ==> RoomOk(st.rooms[k])
    ensures RoomOk(Apply(st, step).rooms[i])
  {
    if RoomStep(step) {
      RoomStepOk(st, step, i);
    } else if Creates(st, step) {
      if i == |st.rooms| {
        var data := st.sessions[step.s].input[0].data.value;
        NewRoomOk(data.roomId, RequestedConfig(data.config), step.s);
      }
    } else {
      SessionStepRooms(st, step);
      var d := Dispatched(st, step);
      if d.Some? && i == d.value.inc {
        EnqueueOk(st.rooms[i], d.value.env);
      }
    }
  }

  // ---------- Entries keep their owners ----------

  /** No session is forgotten; ids and stamps of logged-in sessions are final. */
  ghost predicate SessionsGrow(before: seq<Session>, after: seq<Session>) {
    && |before| <= |after|
    && forall s :: 0 <= s < |before| && before[s].epoch > 0 ==>
         after[s].epoch == before[s].epoch && after[s].id == before[s].id && before[s].sends <= after[s].sends
  }

  lemma SessionGrows(st: State, step: Step, s: SessionId)
    requires Enabled(st, step) && s < |st.sessions|
    requires SessionOk(st.sessions[s], st.rooms) && st.sessions[s].epoch > 0
    ensures s < |Apply(st, step).sessions|
    ensures var x' := Apply(st, step).sessions[s];
            x'.epoch == st.sessions[s].epoch && x'.id == st.sessions[s].id && st.sessions[s].sends <= x'.sends
  {
    hide HandlesOk;
    if RoomStep(step) || step.Connect? || step.s != s {
      OthersUntouched(st, step, s);
    }
  }

  lemma SessionsGrowStep(st: State, step: Step)
    requires Enabled(st, step) && SessionsOk(st)
    ensures SessionsGrow(st.sessions, Apply(st, step).sessions)
  {
    hide SessionOk, Apply;
    assert |st.sessions| <= |Apply(st, step).sessions| by { SessionCount(st, step); }
    forall s | 0 <= s < |st.sessions| && st.sessions[s].epoch > 0
      ensures var x' := Apply(st, step).sessions[s];
              x'.epoch == st.sessions[s].epoch && x'.id == st.sessions[s].id && st.sessions[s].sends <= x'.sends
    {
      SessionGrows(st, step, s);
    }
  }

  lemma SessionCount(st: State, step: Step)
    requires Enabled(st, step)
    ensures |st.sessions| <= |Apply(st, step).sessions| <= |st.sessions| + 1
    ensures |st.sessions| < |Apply(st, step).sessions| ==> step.Connect?
  {
  }

  lemma {:induction false} BroadcastTargets<C>(players: map<PlayerId, Player<C>>, names: seq<PlayerId>,
      event: OutputEvent, allowed: iset<C>)
    requires forall p :: p in players ==> players[p].sender in allowed
    ensures forall k :: 0 <= k < |Broadcast(players, names, event)| ==>
      Broadcast(players, names, event)[k].to in allowed
  {
    if names != [] {
      BroadcastTargets(players, names[1..], event, allowed);
    }
  }

  /** Only members and the joiner are ever sent to. */
  lemma HandleTargets<C>(room: RoomState<C>, event: InputEvent<C>, order: seq<PlayerId>, allowed: iset<C>)
    requires forall p :: p in room.players ==> room.players[p].sender in allowed
    requires event.InputJoin? ==> event.player.sender in allowed
    ensures forall k :: 0 <= k < |Handle(room, event, order).sends| ==>
      Handle(room, event, order).sends[k].to in allowed
  {
    match event {
      case InputJoin(player, config) =>
        var added := AddPlayer(room, player, config);
        if added.Success? {
          BroadcastTargets(added.value.players, order,
            OutputJoin(Success(JoinInfo(room.id, player.id, order, room.config))), allowed);
        }
      case InputLeave(playerId) =>
        BroadcastTargets(room.players, order, OutputLeave(Success(LeaveInfo(room.id, playerId))), allowed);
      case InputMessage(senderId, targetIds, body) =>
        BroadcastTargets(room.players, if targetIds == [] then order else targetIds,
          OutputMessage(MessageInfo(room.id, senderId, body)), allowed);
    }
  }

  lemma HeadIsSent(r: Incarnation)
    requires RoomOk(r) && r.queue != []
    ensures |r.log| < |r.sent| && r.sent[|r.log|] == r.queue[0]
  {
  }

  lemma TakeOwners(sessions: seq<Session>, r: Incarnation, i: IncId, order: seq<PlayerId>)
    requires RoomOk(r) && r.queue != [] && SentOk(sessions, r) && MembersOk(sessions, r)
    ensures var result := Handle(r.room, r.queue[0].event, order);
            forall p :: p in result.room.players ==>
              && result.room.players[p].id == p
              && LoggedIn(sessions, result.room.players[p].sender)
              && sessions[result.room.players[p].sender].id == p
    ensures var posts := Tag(Handle(r.room, r.queue[0].event, order).sends, i, |r.log|);
            forall k :: 0 <= k < |posts| ==> LoggedIn(sessions, posts[k].to)
  {
    HeadIsSent(r);
    assert SpokenBy(r.queue[0], sessions[r.queue[0].from].id);
    HandleTargets(r.room, r.queue[0].event, order, iset c | LoggedIn(sessions, c));
  }

  lemma OwnersGrow(before: seq<Session>, after: seq<Session>, r: Incarnation)
    requires SessionsGrow(before, after)
    ensures SentOk(before, r) ==> SentOk(after, r)
    ensures MembersOk(before, r) ==> MembersOk(after, r)
  {
    if SentOk(before, r) {
      forall k | 0 <= k < |r.sent|
        ensures LoggedIn(after, r.sent[k].from) && SpokenBy(r.sent[k], after[r.sent[k].from].id)
             && r.sent[k].no < after[r.sent[k].from].sends
      {
        assert LoggedIn(before, r.sent[k].from);
      }
      forall k | 0 <= k < |r.outbox| ensures LoggedIn(after, r.outbox[k].to) {
        assert LoggedIn(before, r.outbox[k].to);
      }
    }
    if MembersOk(before, r) {
      forall p | p in r.room.players
        ensures r.room.players[p].id == p && LoggedIn(after, r.room.players[p].sender) &&
          after[r.room.players[p].sender].id == p
      {
        assert LoggedIn(before, r.room.players[p].sender);
      }
    }
  }

  lemma DispatchedIsSpoken(st: State, step: Step)
    requires SessionsOk(st) && Enabled(st, step) && Dispatched(st, step).Some?
    ensures var env := Dispatched(st, step).value.env;
            && LoggedIn(st.sessions, env.from)
            && SpokenBy(env, st.sessions[env.from].id)
            && env.no == st.sessions[env.from].sends
            && env.no < Apply(st, step).sessions[env.from].sends
  {
    assert SessionOk(st.sessions[step.s], st.rooms);
  }

  lemma EnqueueOwners(sessions: seq<Session>, r: Incarnation, env: Envelope)
    requires SentOk(sessions, r) && MembersOk(sessions, r)
    requires LoggedIn(sessions, env.from) && SpokenBy(env, sessions[env.from].id) && env.no < sessions[env.from].sends
    ensures var r' := r.(queue := r.queue + [env], sent := r.sent + [env]);
            SentOk(sessions, r') && MembersOk(sessions, r')
  {
  }

  lemma OwnersSessionStep(st: State, step: Step, i: IncId)
    requires Enabled(st, step) && !RoomStep(step)
    requires i < |st.rooms| && SentOk(st.sessions, st.rooms[i]) && MembersOk(st.sessions, st.rooms[i])
    requires SessionsOk(st)
    ensures SentOk(Apply(st, step).sessions, Apply(st, step).rooms[i])
    ensures MembersOk(Apply(st, step).sessions, Apply(st, step).rooms[i])
  {
    hide SentOk, MembersOk, SessionsOk, SessionsGrow, Apply, Dispatched, Enabled;
    var after := Apply(st, step).sessions;
    SessionsGrowStep(st, step);
    OwnersGrow(st.sessions, after, st.rooms[i]);
    if Creates(st, step) {
      CreateKeepsOthers(st, step);
    } else {
      SessionStepRooms(st, step);
      var d := Dispatched(st, step);
      if d.Some? {
        DispatchedGrown(st, step);
        if d.value.inc == i {
          EnqueueOwners(after, st.rooms[i], d.value.env);
        }
      }
    }
  }

  lemma DispatchedGrown(st: State, step: Step)
    requires SessionsOk(st) && Enabled(st, step) && Dispatched(st, step).Some?
    ensures var env := Dispatched(st, step).value.env;
            && LoggedIn(Apply(st, step).sessions, env.from)
            && SpokenBy(env, Apply(st, step).sessions[env.from].id)
            && env.no < Apply(st, step).sessions[env.from].sends
  {
    DispatchedIsSpoken(st, step);
    SessionsGrowStep(st, step);
  }

  lemma OwnersRoomStep(st: State, step: Step, i: IncId)
    requires Enabled(st, step) && RoomStep(step)
    requires i < |st.rooms|
    requires RoomOk(st.rooms[i]) && SentOk(st.sessions, st.rooms[i]) && MembersOk(st.sessions, st.rooms[i])
    ensures SentOk(st.sessions, Apply(st, step).rooms[i])
    ensures MembersOk(st.sessions, Apply(st, step).rooms[i])
  {
    if step.RoomTake? && i == step.i {
      TakeOwners(st.sessions, st.rooms[i], i, step.order);
    }
  }

  lemma NewRoomOwners(sessions: seq<Session>, roomId: RoomId, config: RoomConfig, creator: SessionId)
    ensures SentOk(sessions, NewIncarnation(roomId, config, creator))
    ensures MembersOk(sessions, NewIncarnation(roomId, config, creator))
  {
  }

  lemma OwnersStep(st: State, step: Step, i: IncId)
    requires Inv(st) && Enabled(st, step)
    requires i < |Apply(st, step).rooms|
    ensures SentOk(Apply(st, step).sessions, Apply(st, step).rooms[i])
    ensures MembersOk(Apply(st, step).sessions, Apply(st, step).rooms[i])
  {
    hide RoomOk, SentOk, MembersOk, SessionOk, RegistryOk, FirstEventDue;
    if RoomStep(step) {
      OwnersRoomStep(st, step, i);
      SessionsGrowStep(st, step);
      OwnersGrow(st.sessions, Apply(st, step).sessions, Apply(st, step).rooms[i]);
    } else if i < |st.rooms| {
      OwnersSessionStep(st, step, i);
    } else {
      var data := st.sessions[step.s].input[0].data.value;
      NewRoomOwners(Apply(st, step).sessions, data.roomId, RequestedConfig(data.config), step.s);
    }
  }

  // ---------- Each session stays consistent ----------

  /** A session changes only by its own steps or by a delivery to it. */
  lemma OthersUntouched(st: State, step: Step, s: SessionId)
    requires Enabled(st, step) && s < |st.sessions|
    requires RoomStep(step) || step.Connect? || step.s != s
    ensures s < |Apply(st, step).sessions|
    ensures var x' := Apply(st, step).sessions[s];
            x' == st.sessions[s].(inbox := x'.inbox)
    ensures !step.RoomDeliver? ==> Apply(st, step).sessions[s] == st.sessions[s]
    ensures step.RoomDeliver? ==>
      Apply(st, step).sessions[s].inbox == st.sessions[s].inbox +
        if st.rooms[step.i].outbox[0].to == s && Alive(st.sessions[s].pc) then [st.rooms[step.i].outbox[0].delivery]
          else []
  {
    if RoomStep(step) {
      assert Apply(st, step) == ApplyRoom(st, step);
      hide Apply, Enabled, RoomAfter, RoomReady;
    } else {
      assert Apply(st, step) == ApplySession(st, step);
      OnlyActorMoves(st, step);
      hide Apply, Enabled, ApplySession, SessionReady;
    }
  }

  lemma OnlyActorMoves(st: State, step: Step)
    requires !RoomStep(step) && SessionReady(st, step)
    ensures var after := ApplySession(st, step).sessions;
            if step.Connect? then after == st.sessions + [NEW_SESSION]
            else step.s < |st.sessions| && step.s < |after| && after == st.sessions[step.s := after[step.s]]
  {
    hide Enqueue, RequestEvent, Notice, JoinAnswer, Judge, NewIncarnation, RequestedConfig;
  }

  lemma DepartureLasts(st: State, step: Step, s: SessionId)
    requires Enabled(st, step) && s < |st.sessions| && Departing(st.sessions[s].pc)
    ensures s < |Apply(st, step).sessions| && Departing(Apply(st, step).sessions[s].pc)
  {
    if RoomStep(step) || step.Connect? || step.s != s {
      OthersUntouched(st, step, s);
      hide Apply, Enabled;
    }
  }

  lemma HandlesGrow(handles: map<RoomId, IncId>, before: seq<Incarnation>, after: seq<Incarnation>)
    requires HandlesOk(handles, before)
    requires |before| <= |after| && forall i :: 0 <= i < |before| ==> after[i].room.id == before[i].room.id
    ensures HandlesOk(handles, after)
  {
  }

  /** What a session has received, handled and cached is as before. */
  ghost predicate EventsUntouched(x: Session, x': Session) {
    && x'.handled == x.handled && x'.joined == x.joined && x'.id == x.id && x'.inbox == x.inbox
    && (x'.pc.JoinedHalf? || x.pc.JoinedHalf? ==> x'.pc == x.pc)
  }

  lemma InputFacts(st: State, s: SessionId)
    requires Enabled(st, TakeInput(s))
    ensures s < |Apply(st, TakeInput(s)).sessions|
    ensures EventsUntouched(st.sessions[s], Apply(st, TakeInput(s)).sessions[s])
  {
  }

  lemma RequestFacts(st: State, s: SessionId)
    requires Enabled(st, SendRequest(s))
    ensures s < |Apply(st, SendRequest(s)).sessions|
    ensures EventsUntouched(st.sessions[s], Apply(st, SendRequest(s)).sessions[s])
  {
  }

  lemma SessionOkGrow(x: Session, before: seq<Incarnation>, after: seq<Incarnation>)
    requires SessionOk(x, before)
    requires |before| <= |after| && forall i :: 0 <= i < |before| ==> after[i].room.id == before[i].room.id
    ensures SessionOk(x, after)
  {
  }

  /** The shape of a successful login. */
  lemma LoginSucceeds(st: State, step: Step)
    requires Enabled(st, step) && step.TryLogin?
    requires step.s < |Apply(st, step).sessions| && Looping(Apply(st, step).sessions[step.s].pc)
    ensures var x := st.sessions[step.s];
            var data := x.input[0].data;
            && data.Some? && data.value.LoginRequest?
            && data.value.playerId !in st.players
            && Apply(st, step) == st.(
                 players := st.players + {data.value.playerId},
                 logins := st.logins + 1,
                 sessions := st.sessions[step.s := Say(x.(input := x.input[1..]), LoginResponse(NoError))
                               .(pc := Idle, id := data.value.playerId, epoch := st.logins + 1)])
  {
  }

  lemma LoginStepOk(st: State, step: Step)
    requires Enabled(st, step)
    requires step.ClientSend? || step.ClientClose? || step.TryLogin? || step.LoginClosed? || step.RejectUnregister?
    requires SessionOk(st.sessions[step.s], st.rooms)
    ensures SessionOk(Apply(st, step).sessions[step.s], st.rooms)
  {
    hide HandlesOk, Judge;
    if step.TryLogin? {
      assert Apply(st, step) == LoginStep(st, step.s);
      hide Apply, Enabled;
    } else {
      hide LoginStep;
    }
  }

  lemma TakeInputOk(st: State, step: Step)
    requires RegistryOk(st) && Enabled(st, step) && step.TakeInput?
    requires SessionOk(st.sessions[step.s], st.rooms)
    ensures SessionOk(Apply(st, step).sessions[step.s], Apply(st, step).rooms)
  {
    if Creates(st, step) {
      CreateKeepsOthers(st, step);
      HandlesGrow(st.sessions[step.s].joined, st.rooms, Apply(st, step).rooms);
    } else {
      SessionStepRooms(st, step);
    }
    hide HandlesOk;
  }

  lemma SendRequestOk(st: State, step: Step)
    requires Enabled(st, step) && step.SendRequest?
    requires SessionOk(st.sessions[step.s], st.rooms)
    ensures SessionOk(Apply(st, step).sessions[step.s], Apply(st, step).rooms)
  {
    hide HandlesOk;
    HandlesGrow(st.sessions[step.s].joined, st.rooms, Apply(st, step).rooms);
  }

  lemma EventStepOk(st: State, step: Step)
    requires RegistryOk(st) && Enabled(st, step)
    requires step.TakeEvent? || step.InsertJoined?
    requires SessionOk(st.sessions[step.s], st.rooms)
    ensures SessionOk(Apply(st, step).sessions[step.s], st.rooms)
  {
    if step.TakeEvent? {
      TakeEventOk(st, step.s);
    } else {
      InsertOk(st, step.s);
    }
    hide SessionOk, EventStep, InsertStep;
  }

  lemma TakeEventOk(st: State, s: SessionId)
    requires RegistryOk(st) && s < |st.sessions| && st.sessions[s].pc.Idle? && st.sessions[s].inbox != []
    requires SessionOk(st.sessions[s], st.rooms)
    ensures s < |EventStep(st, s).sessions| && SessionOk(EventStep(st, s).sessions[s], st.rooms)
  {
  }

  lemma InsertOk(st: State, s: SessionId)
    requires s < |st.sessions| && st.sessions[s].pc.JoinedHalf?
    requires SessionOk(st.sessions[s], st.rooms)
    ensures s < |InsertStep(st, s).sessions| && SessionOk(InsertStep(st, s).sessions[s], st.rooms)
  {
  }

  lemma DisconnectStepOk(st: State, step: Step)
    requires Enabled(st, step)
    requires step.Disconnect? || step.SendLeave? || step.Unregister?
    requires SessionOk(st.sessions[step.s], st.rooms)
    ensures SessionOk(Apply(st, step).sessions[step.s], st.rooms)
  {
  }

  lemma DeliveryKeepsOk(st: State, i: IncId, s: SessionId)
    requires Enabled(st, RoomDeliver(i)) && s < |st.sessions|
    requires SentOk(st.sessions, st.rooms[i]) && SessionOk(st.sessions[s], st.rooms)
    ensures SessionOk(Apply(st, RoomDeliver(i)).sessions[s], st.rooms)
  {
    if st.rooms[i].outbox[0].to == s {
      assert LoggedIn(st.sessions, s);
    }
  }

  lemma OwnStepOk(st: State, step: Step)
    requires RegistryOk(st) && Enabled(st, step) && !RoomStep(step) && !step.Connect?
    requires SessionOk(st.sessions[step.s], st.rooms)
    ensures SessionOk(Apply(st, step).sessions[step.s], Apply(st, step).rooms)
  {
    hide SessionOk, RegistryOk;
    RoomIdentity(st, step);
    if step.TakeInput? {
      TakeInputOk(st, step);
    } else if step.SendRequest? {
      SendRequestOk(st, step);
    } else {
      if step.TakeEvent? || step.InsertJoined? {
        EventStepOk(st, step);
      } else if step.Disconnect? || step.SendLeave? || step.Unregister? {
        DisconnectStepOk(st, step);
      } else {
        LoginStepOk(st, step);
      }
      SessionOkGrow(Apply(st, step).sessions[step.s], st.rooms, Apply(st, step).rooms);
    }
  }

  lemma SessionOkStep(st: State, step: Step, s: SessionId)
    requires Inv(st) && Enabled(st, step)
    requires s < |Apply(st, step).sessions|
    ensures SessionOk(Apply(st, step).sessions[s], Apply(st, step).rooms)
  {
    hide RoomOk, SentOk, MembersOk, SessionOk, RegistryOk, FirstEventDue;
    var st' := Apply(st, step);
    if s == |st.sessions| {
      assert SessionOk(NEW_SESSION, st.rooms) by { NewSessionOk(st.rooms); }
    } else if RoomStep(step) || step.Connect? || step.s != s {
      OthersUntouched(st, step, s);
      RoomIdentity(st, step);
      if step.RoomDeliver? {
        DeliveryKeepsOk(st, step.i, s);
      }
      SessionOkGrow(st'.sessions[s], st.rooms, st'.rooms);
    } else {
      OwnStepOk(st, step);
    }
  }

  lemma NewSessionOk(rooms: seq<Incarnation>)
    ensures SessionOk(NEW_SESSION, rooms)
  {
  }

  // ---------- The first event ----------

  lemma FirstEventDueStep(st: State, step: Step, i: IncId)
    requires Inv(st) && Enabled(st, step)
    requires i < |Apply(st, step).rooms|
    ensures FirstEventDue(Apply(st, step), i)
  {
    hide RoomOk, SentOk, MembersOk, SessionOk, RegistryOk, FirstEventDue;
    if i == |st.rooms| {
      FirstEventDueNew(st, step);
    } else if RoomStep(step) {
      FirstEventDueRoomStep(st, step, i);
    } else {
      FirstEventDueSessionStep(st, step, i);
    }
  }

  lemma FirstEventDueNew(st: State, step: Step)
    requires Enabled(st, step) && |Apply(st, step).rooms| > |st.rooms|
    ensures FirstEventDue(Apply(st, step), |st.rooms|)
  {
    assert Creates(st, step);
  }

  lemma FirstEventDueRoomStep(st: State, step: Step, i: IncId)
    requires Enabled(st, step) && RoomStep(step) && i < |st.rooms|
    requires FirstEventDue(st, i) && RoomOk(st.rooms[i])
    ensures FirstEventDue(Apply(st, step), i)
  {
    var r := Apply(st, step).rooms[i];
    if r.phase.Running? && r.room.players == map[] && r.queue == [] {
      if i == step.i {
        assert step.RoomSettle?;
        CountIsExact(st.rooms[i].room);
        assert false;
      } else {
        OthersUntouched(st, step, r.creator);
      }
    }
  }

  lemma FirstEventDueSessionStep(st: State, step: Step, i: IncId)
    requires Enabled(st, step) && !RoomStep(step) && i < |st.rooms|
    requires FirstEventDue(st, i)
    ensures FirstEventDue(Apply(st, step), i)
  {
    var r := Apply(st, step).rooms[i];
    if r.phase.Running? && r.room.players == map[] && r.queue == [] {
      assert r == st.rooms[i];
      if step.Connect? || step.s != r.creator {
        OthersUntouched(st, step, r.creator);
      } else {
        assert !step.SendRequest?;
      }
    }
  }

  // ---------- Together ----------

  lemma InvInit(bearer: string)
    ensures Inv(Init(bearer))
  {
  }

  lemma InvStep(st: State, step: Step)
    requires Inv(st) && Enabled(st, step)
    ensures Inv(Apply(st, step))
  {
    hide RoomOk, SentOk, MembersOk, SessionOk, RegistryOk, FirstEventDue;
    var st' := Apply(st, step);
    assert !step.RoomStarve? by {
      if step.RoomStarve? { NeverStarves(st, step.i); }
    }
    RegistryStep(st, step);
    forall i | 0 <= i < |st'.rooms|
      ensures RoomOk(st'.rooms[i]) && SentOk(st'.sessions, st'.rooms[i]) && MembersOk(st'.sessions, st'.rooms[i])
           && FirstEventDue(st', i)
    {
      RoomOkStep(st, step, i);
      OwnersStep(st, step, i);
      FirstEventDueStep(st, step, i);
    }
    forall s | 0 <= s < |st'.sessions| ensures SessionOk(st'.sessions[s], st'.rooms) {
      SessionOkStep(st, step, s);
    }
  }

  lemma OneMore(bearer: string, steps: seq<Step>, step: Step)
    requires Valid(bearer, steps) && Enabled(Exec(bearer, steps), step)
    ensures Valid(bearer, steps + [step]) && Exec(bearer, steps + [step]) == Apply(Exec(bearer, steps), step)
  {
    hide Apply, Enabled;
    var next := steps + [step];
    assert next[..|next| - 1] == steps;
  }

  /** The states along a run are those of its prefixes, each of which is a run. */
  lemma {:induction false} PrefixRuns(bearer: string, steps: seq<Step>, n: nat)
    requires Valid(bearer, steps) && n <= |steps|
    ensures Valid(bearer, steps[..n]) && Exec(bearer, steps[..n]) == StateAt(bearer, steps, n)
    ensures n < |steps| ==> Enabled(StateAt(bearer, steps, n), steps[n])
  {
    hide Apply, Enabled;
    if n == |steps| {
      assert steps[..n] == steps;
    } else {
      var front := steps[..|steps| - 1];
      PrefixRuns(bearer, front, n);
      assert front[..n] == steps[..n];
      if n < |front| {
        assert front[n] == steps[n];
      }
    }
  }

  lemma {:induction false} InvHolds(bearer: string, steps: seq<Step>)
    requires Valid(bearer, steps)
    ensures Inv(Exec(bearer, steps))
  {
    if steps == [] {
      InvInit(bearer);
    } else {
      InvHolds(bearer, steps[..|steps| - 1]);
      InvStep(Exec(bearer, steps[..|steps| - 1]), steps[|steps| - 1]);
    }
  }

  lemma SessionFact(st: State, s: SessionId)
    requires Inv(st) && s < |st.sessions|
    ensures SessionOk(st.sessions[s], st.rooms)
  {
    hide RoomOk, SentOk, MembersOk, RegistryOk, FirstEventDue, SessionOk;
  }

  lemma RoomHolds(bearer: string, steps: seq<Step>, i: IncId)
    requires Valid(bearer, steps) && i < |Exec(bearer, steps).rooms|
    ensures RoomOk(Exec(bearer, steps).rooms[i])
    ensures SentOk(Exec(bearer, steps).sessions, Exec(bearer, steps).rooms[i])
    ensures MembersOk(Exec(bearer, steps).sessions, Exec(bearer, steps).rooms[i])
    ensures FirstEventDue(Exec(bearer, steps), i)
  {
    hide RoomOk, SentOk, MembersOk, SessionsOk, RegistryOk, FirstEventDue, Exec;
    InvHolds(bearer, steps);
  }
}
