/** The room registry and the task that runs a room: an event loop that handles what is queued
    and deregisters the room when it is empty. */
module RoomTask {
  import opened Wrappers
  import opened Events
  import opened Channels
  import opened RoomEntity
  import RoomCore
  import opened Logs

  type PlayerChannel = Channel<OutputEvent>
  type RoomInput = InputEvent<PlayerChannel>
  type RoomChannel = Channel<RoomInput>

  /** The channels a room may send to while it handles `queue`. */
  ghost predicate Covers(audience: set<PlayerChannel>, players: map<PlayerId, Player<PlayerChannel>>,
      queue: seq<RoomInput>) {
    && Senders(players) <= audience
    && forall e :: e in queue && e.InputJoin? ==> e.player.sender in audience
  }

  class Registry {
    var channels: map<RoomId, RoomChannel>

    constructor ()
      ensures channels == map[]
    {
      channels := map[];
    }

    method Get(id: RoomId) returns (c: Option<RoomChannel>)
      ensures c == if id in channels then Some(channels[id]) else None
    {
      c := if id in channels then Some(channels[id]) else None;
    }

    /** The registered channel of the id, or that of a new task registered in the same step. */
    method GetOrCreate(id: RoomId, config: RoomConfig) returns (c: RoomChannel, spawned: Task?)
      modifies this
      ensures channels == old(channels)[id := c]
      ensures id in old(channels) ==> spawned == null && c == old(channels)[id]
      ensures id !in old(channels) ==>
        && spawned != null && fresh(spawned) && fresh(spawned.room) && fresh(c)
        && spawned.rx == c && c.queue == [] && c.open
        && spawned.room.State() == RoomCore.NewRoom(id, config)
    {
      if id in channels {
        return channels[id], null;
      }
      c := new Channel<RoomInput>();
      var room := new Room<OutputEvent>(id, config);
      spawned := new Task(room, c);
      channels := channels[id := c];
    }

    method Remove(id: RoomId)
      modifies this
      ensures channels == old(channels) - {id}
    {
      channels := channels - {id};
    }
  }

  /** The sends of one event, channel by channel: `c` gets what is sent to it while it is open. */
  twostate predicate Delivered(audience: set<PlayerChannel>, sends: seq<RoomCore.Send<PlayerChannel, OutputEvent>>)
    reads audience
  {
    forall c :: c in audience ==>
      c.open == old(c.open) && c.queue == old(c.queue) + Got(c.open, RoomCore.To(sends, c))
  }

  class Task {
    const room: Room<OutputEvent>
    const rx: RoomChannel

    constructor (room: Room<OutputEvent>, rx: RoomChannel)
      ensures this.room == room && this.rx == rx
    {
      this.room, this.rx := room, rx;
    }

    method HandleJoin(player: Player<PlayerChannel>, config: RoomConfig,
        ghost audience: set<PlayerChannel>) returns (ghost order: seq<PlayerId>)
      requires room.Valid() && Senders(room.players) <= audience && player.sender in audience
      modifies room, audience
      ensures room.Valid() && Senders(room.players) <= audience
      ensures RoomCore.Enumerates(order, RoomCore.Iterated(old(room.State()), InputJoin(player, config)).Keys)
      ensures room.State() == RoomCore.Handle(old(room.State()), InputJoin(player, config), order).room
      ensures Delivered(audience, RoomCore.Handle(old(room.State()), InputJoin(player, config), order).sends)
    {
      hide RoomCore.AddPlayer, RoomCore.Enumerates, RoomCore.To, RoomCore.Broadcast, Senders;
      AddedSenders(room.State(), player, config);
      var error := room.AddPlayer(player, config);
      order := room.order;
      match error {
        case None =>
          ghost var event := OutputJoin(Success(JoinInfo(room.id, player.id, room.order, room.config)));
          room.Broadcast(OutputJoin(Success(JoinInfo(room.id, player.id, room.order, room.config))));
          OnlyMembersHear(audience, room.players, order, event);
        case Some(e) =>
          var _ := player.sender.Send(OutputJoin(Failure(e)));
          OneSend(audience, player.sender, OutputJoin(Failure(e)));
      }
    }

    method HandleLeave(playerId: PlayerId, ghost audience: set<PlayerChannel>) returns (ghost order: seq<PlayerId>)
      requires room.Valid() && Senders(room.players) <= audience
      modifies room, audience
      ensures room.Valid() && Senders(room.players) <= audience
      ensures RoomCore.Enumerates(order, old(room.players).Keys)
      ensures room.State() == RoomCore.Handle(old(room.State()), InputLeave(playerId), order).room
      ensures Delivered(audience, RoomCore.Handle(old(room.State()), InputLeave(playerId), order).sends)
    {
      order := room.order;
      if room.IsJoined(playerId) {
        ghost var event := OutputLeave(Success(LeaveInfo(room.id, playerId)));
        room.Broadcast(OutputLeave(Success(LeaveInfo(room.id, playerId))));
        OnlyMembersHear(audience, room.players, order, event);
        var ok := room.RemovePlayer(playerId);
        assert ok;
      }
    }

    method HandleMessage(senderId: PlayerId, targetIds: seq<PlayerId>, body: Bytes, ghost audience: set<PlayerChannel>)
      requires room.Valid() && Senders(room.players) <= audience
      modifies audience
      ensures Delivered(audience,
        RoomCore.Handle(room.State(), InputMessage(senderId, targetIds, body), room.order).sends)
    {
      var event := OutputMessage(MessageInfo(room.id, senderId, body));
      if targetIds == [] {
        room.Broadcast(event);
        OnlyMembersHear(audience, room.players, room.order, event);
      } else {
        SendToTargets(targetIds, event, audience);
      }
    }

    /** One send per mention of a member; other names are skipped. */
    method SendToTargets(targetIds: seq<PlayerId>, event: OutputEvent, ghost audience: set<PlayerChannel>)
      requires Senders(room.players) <= audience
      modifies audience
      ensures forall c :: c in audience ==>
        c.open == old(c.open) && c.queue == old(c.queue) + Got(c.open, Share(room.players, targetIds, event, c))
    {
      hide Share;
      assert targetIds[..0] == [];
      forall c | c in audience ensures Share(room.players, targetIds[..0], event, c) == [] {
        NoShare(room.players, event, c);
      }
      for k := 0 to |targetIds|
        invariant forall c :: c in audience ==>
          c.open == old(c.open) && c.queue == old(c.queue) + Got(c.open, Share(room.players, targetIds[..k], event, c))
      {
        var id := targetIds[k];
        assert targetIds[..k + 1] == targetIds[..k] + [id];
        forall c | c in audience
          ensures Share(room.players, targetIds[..k + 1], event, c)
               == Share(room.players, targetIds[..k], event, c) + if id in room.players &&
                 room.players[id].sender == c then [event] else []
        {
          if id in room.players {
            ToAppend(room.players, targetIds[..k], id, event, c);
          } else {
            AbsentTarget(room.players, targetIds[..k], id, event, c);
          }
        }
        if room.IsJoined(id) {
          room.Send(id, event);
        }
      }
      assert targetIds[..|targetIds|] == targetIds;
    }

    method HandleEvent(event: RoomInput, ghost audience: set<PlayerChannel>) returns (ghost order: seq<PlayerId>)
      requires room.Valid() && Senders(room.players) <= audience
      requires event.InputJoin? ==> event.player.sender in audience
      modifies room, audience
      ensures room.Valid() && Senders(room.players) <= audience
      ensures RoomCore.Enumerates(order, RoomCore.Iterated(old(room.State()), event).Keys)
      ensures room.State() == RoomCore.Handle(old(room.State()), event, order).room
      ensures Delivered(audience, RoomCore.Handle(old(room.State()), event, order).sends)
    {
      match event {
        case InputJoin(player, config) =>
          order := HandleJoin(player, config, audience);
        case InputLeave(playerId) =>
          order := HandleLeave(playerId, audience);
        case InputMessage(senderId, targetIds, body) =>
          order := room.order;
          HandleMessage(senderId, targetIds, body, audience);
      }
    }

    /** One round of the event loop: take an event and handle it; stop if that left the room
        empty. */
    method Round(ghost audience: set<PlayerChannel>) returns (stopped: bool, ghost done: Handled<PlayerChannel>)
      requires room.Valid() && Covers(audience, room.players, rx.queue) && rx.queue != []
      modifies room, rx, audience
      ensures room.Valid() && Covers(audience, room.players, rx.queue)
      ensures old(rx.queue) == [done.event] + rx.queue && rx.open == old(rx.open)
      ensures RoomCore.Enumerates(done.order, RoomCore.Iterated(old(room.State()), done.event).Keys)
      ensures room.State() == RoomCore.Handle(old(room.State()), done.event, done.order).room
      ensures Delivered(audience, RoomCore.Handle(old(room.State()), done.event, done.order).sends)
      ensures stopped == !Occupied(room.State())
    {
      hide RoomCore.Handle, RoomCore.To, RoomCore.Enumerates, RoomCore.Iterated, RoomCore.NumPlayers, Covers, Senders;
      CoversHead(audience, room.players, rx.queue);
      ghost var rest := rx.queue[1..];
      var event := rx.Receive();
      ghost var order := HandleEvent(event, audience);
      CoversOn(audience, room.players, rest);
      done := Handled(event, order);
      stopped := IsVacant();
    }

    method IsVacant() returns (vacant: bool)
      ensures vacant == !Occupied(room.State())
    {
      vacant := room.NumPlayers() == 0;
    }

    /** The stop path: deregister the id, then drop the receiver; what is queued is lost. */
    method Stop(registry: Registry)
      modifies registry, rx
      ensures registry.channels == old(registry.channels) - {room.id}
      ensures !rx.open && rx.queue == []
    {
      registry.Remove(room.id);
      rx.Close();
    }

    /** The event loop, up to the point where it stops or waits with nothing queued. It handles
        the queue in order: `log` is what it handled, with the orders its handlers met. It stops
        after the first event that leaves the room empty; then the id is deregistered, the receiver
        dropped and what was still queued lost. */
    method Run(registry: Registry, ghost audience: set<PlayerChannel>)
      returns (stopped: bool, ghost log: seq<Handled<PlayerChannel>>, ghost discarded: seq<RoomInput>)
      requires room.Valid() && Covers(audience, room.players, rx.queue)
      modifies room, rx, registry, audience
      ensures room.Valid()
      ensures EventsOf(log) + discarded == old(rx.queue) && rx.queue == []
      ensures rx.open == (old(rx.open) && !stopped) && (discarded != [] ==> stopped)
      ensures MetOrders(old(room.State()), log)
      ensures room.State() == Fold(old(room.State()), log)
      ensures forall c :: c in audience ==>
        c.open == old(c.open) && c.queue == old(c.queue) + Got(c.open, SentTo(old(room.State()), log, c))
      ensures forall k :: 0 < k < |log| ==> Occupied(Fold(old(room.State()), log[..k]))
      ensures stopped <==> log != [] && !Occupied(room.State())
      ensures registry.channels == if stopped then old(registry.channels) - {room.id} else old(registry.channels)
    {
      stopped, log := HandleAll(audience);
      discarded := rx.queue;
      if stopped {
        Stop(registry);
      }
    }

    method HandleAll(ghost audience: set<PlayerChannel>) returns (stopped: bool, ghost log: seq<Handled<PlayerChannel>>)
      requires room.Valid() && Covers(audience, room.players, rx.queue)
      modifies room, rx, audience
      ensures room.Valid()
      ensures EventsOf(log) + rx.queue == old(rx.queue) && rx.open == old(rx.open) && (rx.queue != [] ==> stopped)
      ensures MetOrders(old(room.State()), log)
      ensures room.State() == Fold(old(room.State()), log)
      ensures forall c :: c in audience ==>
        c.open == old(c.open) && c.queue == old(c.queue) + Got(c.open, SentTo(old(room.State()), log, c))
      ensures forall k :: 0 < k < |log| ==> Occupied(Fold(old(room.State()), log[..k]))
      ensures stopped <==> log != [] && !Occupied(room.State())
    {
      hide RoomCore.Handle, RoomCore.To, RoomCore.Enumerates, RoomCore.Iterated, Fold, SentTo, EventsOf, Covers,
        MetOrders, Occupied, Got, Senders;
      ghost var start := room.State();
      stopped, log := false, [];
      LogEmpty(start, audience);
      while !stopped && rx.queue != []
        invariant room.Valid() && Covers(audience, room.players, rx.queue)
        invariant EventsOf(log) + rx.queue == old(rx.queue) && rx.open == old(rx.open)
        invariant MetOrders(start, log)
        invariant room.State() == Fold(start, log)
        invariant forall c :: c in audience ==>
          c.open == old(c.open) && c.queue == old(c.queue) + Got(c.open, SentTo(start, log, c))
        invariant forall k :: 0 < k < |log| ==> Occupied(Fold(start, log[..k]))
        invariant stopped <==> log != [] && !Occupied(room.State())
        decreases !stopped, |rx.queue|
      {
        ghost var done;
        stopped, done := Round(audience);
        LogGrows(start, log, done, audience);
        MoreOrders(start, log, done);
        log := log + [done];
      }
    }
  }

  /** Logs compose: going on from where an earlier call of the loop waited is the same as handling
      all of it in one call, for the table and for every channel. */
  lemma {:induction false} LogsCompose<C>(r: RoomCore.RoomState<C>, a: seq<Handled<C>>, b: seq<Handled<C>>, c: C)
    ensures Fold(r, a + b) == Fold(Fold(r, a), b)
    ensures SentTo(r, a + b, c) == SentTo(r, a, c) + SentTo(Fold(r, a), b, c)
  {
    hide RoomCore.Handle, RoomCore.To;
    if b == [] {
      assert a + b == a;
    } else {
      var front, last := b[..|b| - 1], b[|b| - 1];
      LogsCompose(r, a, front, c);
      assert (a + b)[..|a + b| - 1] == a + front && (a + b)[|a + b| - 1] == last;
    }
  }

  /** Every handler met an iteration order of the table it iterated. */
  ghost predicate MetOrders<C>(start: RoomCore.RoomState<C>, log: seq<Handled<C>>) {
    forall k :: 0 <= k < |log| ==>
      RoomCore.Enumerates(log[k].order, RoomCore.Iterated(Fold(start, log[..k]), log[k].event).Keys)
  }

  lemma MoreOrders<C>(start: RoomCore.RoomState<C>, log: seq<Handled<C>>, done: Handled<C>)
    requires MetOrders(start, log)
    requires RoomCore.Enumerates(done.order, RoomCore.Iterated(Fold(start, log), done.event).Keys)
    ensures MetOrders(start, log + [done])
  {
    hide Fold, RoomCore.Enumerates, RoomCore.Iterated;
    var log' := log + [done];
    forall k | 0 <= k < |log'|
      ensures RoomCore.Enumerates(log'[k].order, RoomCore.Iterated(Fold(start, log'[..k]), log'[k].event).Keys)
    {
      assert log'[..k] == log[..k];
      assert log[..|log|] == log;
    }
  }

  predicate Occupied<C>(r: RoomCore.RoomState<C>) {
    RoomCore.NumPlayers(r) != 0
  }

  lemma AddedSenders(r: RoomCore.RoomState<PlayerChannel>, player: Player<PlayerChannel>, config: RoomConfig)
    ensures var added := RoomCore.AddPlayer(r, player, config);
            added.Success? ==> Senders(added.value.players) <= Senders(r.players) + {player.sender}
  {
  }

  lemma CoversHead(audience: set<PlayerChannel>, players: map<PlayerId, Player<PlayerChannel>>, queue: seq<RoomInput>)
    requires Covers(audience, players, queue) && queue != []
    ensures Senders(players) <= audience
    ensures queue[0].InputJoin? ==> queue[0].player.sender in audience
    ensures Covers(audience, map[], queue[1..])
  {
  }

  lemma CoversOn(audience: set<PlayerChannel>, players: map<PlayerId, Player<PlayerChannel>>, queue: seq<RoomInput>)
    requires Covers(audience, map[], queue) && Senders(players) <= audience
    ensures Covers(audience, players, queue)
  {
  }

  lemma LogEmpty(start: RoomCore.RoomState<PlayerChannel>, audience: set<PlayerChannel>)
    ensures EventsOf<PlayerChannel>([]) == [] && Fold(start, []) == start && MetOrders(start, [])
    ensures forall c, open :: c in audience ==> Got(open, SentTo(start, [], c)) == []
  {
  }

  lemma LogGrows(start: RoomCore.RoomState<PlayerChannel>, log: seq<Handled<PlayerChannel>>,
      done: Handled<PlayerChannel>, audience: set<PlayerChannel>)
    ensures EventsOf(log + [done]) == EventsOf(log) + [done.event]
    ensures Fold(start, log + [done]) == RoomCore.Handle(Fold(start, log), done.event, done.order).room
    ensures forall c, open :: c in audience ==>
      Got(open, SentTo(start, log + [done], c))
      == Got(open, SentTo(start, log, c)) +
        Got(open, RoomCore.To(RoomCore.Handle(Fold(start, log), done.event, done.order).sends, c))
    ensures forall k :: 0 <= k < |log| ==> (log + [done])[..k] == log[..k]
    ensures (log + [done])[..|log|] == log
  {
    assert (log + [done])[..|log + [done]| - 1] == log;
  }

  /** A broadcast reaches no channel but the members'. */
  lemma {:induction false} OnlyMembersHear(audience: set<PlayerChannel>, players: map<PlayerId,
      Player<PlayerChannel>>, names: seq<PlayerId>, event: OutputEvent)
    ensures forall c :: c in audience && c !in Senders(players) ==>
      RoomCore.To(RoomCore.Broadcast(players, names, event), c) == []
  {
    if names != [] {
      OnlyMembersHear(audience, players, names[1..], event);
      if names[0] in players {
        var rest := RoomCore.Broadcast(players, names[1..], event);
        assert ([RoomCore.Send(players[names[0]].sender, event)] + rest)[1..] == rest;
      } else {
        assert RoomCore.Broadcast(players, names, event) == RoomCore.Broadcast(players, names[1..], event);
      }
    }
  }

  lemma OneSend(audience: set<PlayerChannel>, to: PlayerChannel, event: OutputEvent)
    ensures forall c :: c in audience ==> RoomCore.To([RoomCore.Send(to, event)], c) == if to == c then [event] else []
  {
    assert [RoomCore.Send(to, event)][1..] == [];
  }

  lemma {:induction false} AbsentTarget<C>(players: map<PlayerId, Player<C>>, names: seq<PlayerId>, id: PlayerId,
      event: OutputEvent, c: C)
    requires id !in players
    ensures Share(players, names + [id], event, c) == Share(players, names, event, c)
    ensures RoomCore.Broadcast(players, names + [id], event) == RoomCore.Broadcast(players, names, event)
  {
    if names == [] {
      assert names + [id] == [id] && [id][1..] == [];
      assert RoomCore.Broadcast(players, [], event) == [];
    } else {
      AbsentTarget(players, names[1..], id, event, c);
      assert (names + [id])[1..] == names[1..] + [id];
    }
  }
}
