/** The set of logged-in ids and the task that serves one connection: login, then client requests
    and room events, and the farewells of a disconnect. */
module PlayerTask {
  import opened Wrappers
  import opened Events
  import opened Channels
  import opened RoomTask
  import opened PlayerCore

  class PlayerSet {
    var ids: set<PlayerId>

    constructor ()
      ensures ids == {}
    {
      ids := {};
    }

    /** Registers the id; true if it was unused. */
    method Register(id: PlayerId) returns (unused: bool)
      modifies this
      ensures unused == (id !in old(ids))
      ensures ids == old(ids) + {id}
    {
      unused := id !in ids;
      ids := ids + {id};
    }

    method Unregister(id: PlayerId)
      modifies this
      ensures ids == old(ids) - {id}
    {
      ids := ids - {id};
    }
  }

  lemma LeaveIsAsked<C>(message: Option<ClientMessage>, id: PlayerId, sender: C)
    ensures AsksRoom(message) && message.value.data.value.LeaveRequest? ==>
      Asks(message.value.data.value, id, sender, InputLeave(id))
  {
  }

  lemma MessageIsAsked<C>(message: Option<ClientMessage>, id: PlayerId, sender: C)
    ensures AsksRoom(message) && message.value.data.value.SendMessage? ==>
      var data := message.value.data.value;
      Asks(data, id, sender, InputMessage(id, data.targetIds, data.body))
  {
  }

  function Heard(open: bool, message: Option<ServerMessage>): seq<ServerMessage> {
    if open && message.Some? then [message.value] else []
  }

  class Session {
    var id: PlayerId
    const input: Channel<ClientMessage>
    const output: Channel<ServerMessage>
    const events: PlayerChannel
    var joined: map<RoomId, RoomChannel>

    constructor (input: Channel<ClientMessage>, output: Channel<ServerMessage>)
      ensures this.input == input && this.output == output && fresh(events)
      ensures events.queue == [] && events.open && joined == map[]
    {
      this.input, this.output := input, output;
      events := new Channel<OutputEvent>();
      joined, id := map[], "";
    }

    method Tell(message: ServerMessage)
      modifies output
      ensures output.open == old(output.open)
      ensures output.queue == old(output.queue) + Heard(output.open, Some(message))
    {
      var _ := output.Send(message);
    }

    /** Skips messages without data; the first payload decides. Only a login request for an unused
        id with the expected token succeeds, and a client that asks for a login is told how it
        went. A duplicate login, though refused, unregisters the id. */
    method WaitLogin(players: PlayerSet, expected: string) returns (loggedIn: bool)
      modifies this, input, output, players
      ensures joined == old(joined) && output.open == old(output.open)
      ensures (forall k :: 0 <= k < |old(input.queue)| ==> old(input.queue)[k].data.None?) ==>
        !loggedIn && players.ids == old(players.ids) && output.queue == old(output.queue) && input.queue == []
      ensures forall k: nat :: FirstData(old(input.queue), k) ==>
        var data := old(input.queue)[k].data.value;
        && input.queue == old(input.queue)[k + 1..]
        && (loggedIn <==>
              data.LoginRequest? && data.bearer == Some(expected) && data.playerId !in old(players.ids))
        && (loggedIn ==> id == data.playerId)
        && (if !data.LoginRequest? then
              players.ids == old(players.ids) && output.queue == old(output.queue)
            else if data.playerId in old(players.ids) then
              && players.ids == old(players.ids) - {data.playerId}
              && output.queue == old(output.queue) + Heard(output.open, Some(LoginResponse(AlreadyLoggedIn)))
            else if data.bearer != Some(expected) then
              && players.ids == old(players.ids)
              && output.queue == old(output.queue) + Heard(output.open, Some(LoginResponse(Unauthorized)))
            else
              && players.ids == old(players.ids) + {data.playerId}
              && output.queue == old(output.queue) + Heard(output.open, Some(LoginResponse(NoError))))
    {
      ghost var n: nat := 0;
      while input.queue != []
        invariant players.ids == old(players.ids) && joined == old(joined)
        invariant output.queue == old(output.queue) && output.open == old(output.open)
        invariant n <= |old(input.queue)| && input.queue == old(input.queue)[n..]
        invariant forall k :: 0 <= k < n ==> old(input.queue)[k].data.None?
        decreases |input.queue|
      {
        var message := input.Receive();
        assert message == old(input.queue)[n];
        if message.data.Some? {
          match message.data.value {
            case LoginRequest(playerId, bearer) =>
              loggedIn := TryLogin(players, playerId, bearer, expected);
            case _ =>
              loggedIn := false;
          }
          return;
        }
        n := n + 1;
      }
      loggedIn := false;
    }

    method TryLogin(players: PlayerSet, playerId: PlayerId, bearer: Option<string>, expected: string)
      returns (loggedIn: bool)
      modifies this, output, players
      ensures joined == old(joined) && output.open == old(output.open)
      ensures loggedIn <==> playerId !in old(players.ids) && bearer == Some(expected)
      ensures loggedIn ==> id == playerId
      ensures if playerId in old(players.ids) then
                && players.ids == old(players.ids) - {playerId}
                && output.queue == old(output.queue) + Heard(output.open, Some(LoginResponse(AlreadyLoggedIn)))
              else if bearer != Some(expected) then
                && players.ids == old(players.ids)
                && output.queue == old(output.queue) + Heard(output.open, Some(LoginResponse(Unauthorized)))
              else
                && players.ids == old(players.ids) + {playerId}
                && output.queue == old(output.queue) + Heard(output.open, Some(LoginResponse(NoError)))
    {
      var unused := players.Register(playerId);
      if !unused {
        RejectLogin(players, playerId, AlreadyLoggedIn);
        return false;
      }
      match bearer {
        case None =>
          RejectLogin(players, playerId, Unauthorized);
          loggedIn := false;
        case Some(token) =>
          if token != expected {
            RejectLogin(players, playerId, Unauthorized);
            return false;
          }
          Tell(LoginResponse(NoError));
          id := playerId;
          loggedIn := true;
      }
    }

    /** Every refusal unregisters the id. */
    method RejectLogin(players: PlayerSet, playerId: PlayerId, code: ErrorCode)
      modifies output, players
      ensures output.open == old(output.open)
      ensures output.queue == old(output.queue) + Heard(output.open, Some(LoginResponse(code)))
      ensures players.ids == old(players.ids) - {playerId}
    {
      Tell(LoginResponse(code));
      players.Unregister(playerId);
    }

    // ---------- Client requests ----------

    /** One client message in the select loop. At most one channel gets one event, the channel
        registered for the room addressed; the reply, if any, depends only on whether the room was
        registered and its receiver still there. A closed input or a message without data does
        nothing. */
    method OnClientMessage(registry: Registry, message: Option<ClientMessage>) returns (spawned: Task?)
      requires forall r :: r in registry.channels ==> registry.channels[r] as object != output
      modifies registry, output, registry.channels.Values
      ensures output.open == old(output.open)
      ensures forall c :: c in old(registry.channels.Values) ==>
        c.open == old(c.open)
        && if c.open && Some(c) == Addressee(old(registry.channels), message) then
             |c.queue| == |old(c.queue)| + 1 && c.queue[..|old(c.queue)|] == old(c.queue)
             && Asks(message.value.data.value, id, events, c.queue[|old(c.queue)|])
           else
             c.queue == old(c.queue)
      ensures var c := Addressee(old(registry.channels), message);
        output.queue == old(output.queue) + Heard(output.open, Reply(message, c.Some?, c.Some? && old(c.value.open)))
      ensures (spawned != null) == (AsksToJoin(message) && message.value.data.value.roomId !in old(registry.channels))
      ensures spawned == null ==> registry.channels == old(registry.channels)
      ensures spawned != null ==>
        && fresh(spawned) && fresh(spawned.rx) && spawned.rx.open
        && |spawned.rx.queue| == 1 && Asks(message.value.data.value, id, events, spawned.rx.queue[0])
        && Wants(message.value.data.value.config, spawned.room.config)
        && registry.channels == old(registry.channels)[message.value.data.value.roomId := spawned.rx]
    {
      hide Asks;
      LeaveIsAsked(message, id, events);
      MessageIsAsked(message, id, events);
      spawned := null;
      if message.Some? && message.value.data.Some? {
        match message.value.data.value {
          case LoginRequest(_, _) => Tell(LoginResponse(AlreadyLoggedIn));
          case JoinRequest(roomId, requested) => spawned := RequestJoin(registry, roomId, requested);
          case LeaveRequest(roomId) => RequestLeave(registry, roomId);
          case SendMessage(targetIds, roomId, body) => RequestMessage(registry, targetIds, roomId, body);
        }
      }
    }

    /** A join goes to the registered or a new room; if that room's receiver is gone the client is
        told at once. */
    method RequestJoin(registry: Registry, roomId: RoomId, requested: Option<RoomConfig>) returns (spawned: Task?)
      requires roomId in registry.channels ==> registry.channels[roomId] as object != output
      modifies registry, output, if roomId in registry.channels then {registry.channels[roomId]} else {}
      ensures roomId in registry.channels &&
        registry.channels == old(registry.channels)[roomId := registry.channels[roomId]]
      ensures if roomId in old(registry.channels) then
                spawned == null && registry.channels == old(registry.channels)
                && registry.channels[roomId].open == old(registry.channels[roomId].open)
              else
                spawned != null && fresh(spawned) && fresh(spawned.rx) && spawned.rx.open
                && spawned.rx == registry.channels[roomId]
                && Wants(requested, spawned.room.config)
                && spawned.room.State() == RoomCore.NewRoom(roomId, spawned.room.config)
      ensures output.open == old(output.open)
      ensures var c := registry.channels[roomId];
              var before := if roomId in old(registry.channels) then old(registry.channels[roomId].queue) else [];
              && (if c.open then
                    |c.queue| == |before| + 1 && c.queue[..|before|] == before
                    && Asks(JoinRequest(roomId, requested), id, events, c.queue[|before|])
                  else
                    c.queue == before)
              && output.queue == old(output.queue)
                 + Heard(output.open, if c.open then None else Some(JoinResponse(roomId, [], None, RoomNotFound)))
    {
      var config := RequestedConfig(requested);
      var c;
      c, spawned := registry.GetOrCreate(roomId, config);
      var ok := c.Send(InputJoin(Player(id, events), config));
      if !ok {
        Tell(JoinResponse(roomId, [], None, RoomNotFound));
      }
    }

    /** A leave goes to the registered room, whether or not the session is in it. */
    method RequestLeave(registry: Registry, roomId: RoomId)
      requires roomId in registry.channels ==> registry.channels[roomId] as object != output
      modifies output, if roomId in registry.channels then {registry.channels[roomId]} else {}
      ensures output.open == old(output.open)
      ensures roomId in registry.channels ==>
        var c := registry.channels[roomId];
        && c.open == old(c.open)
        && c.queue == old(c.queue) + (if c.open then [InputLeave(id)] else [])
        && output.queue == old(output.queue)
      ensures roomId !in registry.channels ==>
        output.queue == old(output.queue) + Heard(output.open, Some(LeaveResponse(roomId, FailedPrecondition)))
    {
      var c := registry.Get(roomId);
      match c {
        case Some(channel) =>
          var _ := channel.Send(InputLeave(id));
        case None =>
          Tell(LeaveResponse(roomId, FailedPrecondition));
      }
    }

    /** A message goes to the registered room, member or not, and is never answered. */
    method RequestMessage(registry: Registry, targetIds: seq<PlayerId>, roomId: RoomId, body: Bytes)
      modifies if roomId in registry.channels then {registry.channels[roomId]} else {}
      ensures roomId in registry.channels ==>
        var c := registry.channels[roomId];
        && c.open == old(c.open)
        && c.queue == old(c.queue) + if c.open then [InputMessage(id, targetIds, body)] else []
    {
      var c := registry.Get(roomId);
      if c.Some? {
        var _ := c.value.Send(InputMessage(id, targetIds, body));
      }
    }

    // ---------- Room events ----------

    /** Handles one room event: an own join looks the room up again and caches its channel if it
        is still registered; anything else is passed on to the client, and an own leave forgets
        the room. A refusal for lack of space is not handled: the task panics. */
    method OnOutputEvent(registry: Registry) returns (panicked: bool)
      requires events.queue != [] && events as object != output
      modifies this, events, output
      ensures id == old(id) && output.open == old(output.open)
      ensures events.queue == old(events.queue)[1..]
      ensures var e := old(events.queue)[0];
              && panicked == Panics(e)
              && (panicked ==> joined == old(joined) && output.queue == old(output.queue))
              && (IsOwnJoin(e, id) ==>
                    var info := e.join.value;
                    var found := info.roomId in registry.channels;
                    && output.queue == old(output.queue) + Heard(output.open, Some(JoinAnswer(info, found)))
                    && joined == if found then old(joined)[info.roomId := registry.channels[info.roomId]]
                      else old(joined))
              && (!panicked && !IsOwnJoin(e, id) ==>
                    && output.queue == old(output.queue) + Heard(output.open, Some(Notice(e, id)))
                    && joined == Uncache(old(joined), e, id))
    {
      var e := events.Receive();
      panicked := false;
      match e {
        case OutputJoin(Success(info)) =>
          if info.playerId == id {
            var c := registry.Get(info.roomId);
            match c {
              case Some(channel) =>
                joined := joined[info.roomId := channel];
                Tell(JoinResponse(info.roomId, info.roomPlayerIds, Some(info.roomConfig), NoError));
              case None =>
                Tell(JoinResponse(info.roomId, [], None, RoomNotFound));
            }
          } else {
            Tell(JoinNotification(info.roomId, info.playerId));
          }
        case OutputJoin(Failure(error)) =>
          match error {
            case AlreadyJoinedRoom(roomId, _) => Tell(JoinResponse(roomId, [], None, AlreadyJoinedTheRoom));
            case RoomConfigDoesNotMatch(roomId, _) => Tell(JoinResponse(roomId, [], None, RoomConfigMismatch));
            case RoomIsFull(_, _) => panicked := true;
          }
        case OutputLeave(Success(info)) =>
          if info.playerId == id {
            joined := joined - {info.roomId};
            Tell(LeaveResponse(info.roomId, NoError));
          } else {
            Tell(LeaveNotification(info.roomId, info.playerId));
          }
        case OutputLeave(Failure(_)) =>
          panicked := true;
        case OutputMessage(info) =>
          Tell(MessageNotification(info.senderId, info.roomId, info.body));
      }
    }

    // ---------- Disconnecting ----------

    /** Sends a leave to every cached room, once each, and only then unregisters the id. Events
        still waiting for the session are not looked at. */
    method Disconnect(players: PlayerSet)
      requires forall r, q :: r in joined && q in joined && joined[r] == joined[q] ==> r == q
      modifies joined.Values, players
      ensures forall r :: r in joined ==>
        joined[r].open == old(joined[r].open)
        && joined[r].queue == old(joined[r].queue) + if joined[r].open then [InputLeave(id)] else []
      ensures players.ids == old(players.ids) - {id}
    {
      var rest := joined.Keys;
      while rest != {}
        invariant rest <= joined.Keys && players.ids == old(players.ids)
        invariant forall r :: r in joined ==>
          joined[r].open == old(joined[r].open)
          && joined[r].queue == old(joined[r].queue) + if r !in rest && joined[r].open then [InputLeave(id)] else []
      {
        var r :| r in rest;
        var _ := joined[r].Send(InputLeave(id));
        rest := rest - {r};
      }
      players.Unregister(id);
    }
  }
}
