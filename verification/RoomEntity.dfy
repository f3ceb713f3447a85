/** The room entity: a bounded member table that puts messages on its members' channels. */
module RoomEntity {
  import opened Wrappers
  import opened Events
  import opened Channels
  import RoomCore

  /** What a channel gets of the events sent to it. */
  function Got<M>(open: bool, events: seq<M>): seq<M> {
    if open then events else []
  }

  function Senders<M>(players: map<PlayerId, Player<Channel<M>>>): set<Channel<M>> {
    set p | p in players :: players[p].sender
  }

  lemma ToCons<C, M>(a: seq<RoomCore.Send<C, M>>, c: C)
    requires a != []
    ensures RoomCore.To(a, c) == (if a[0].to == c then [a[0].event] else []) + RoomCore.To(a[1..], c)
  {
  }

  lemma {:induction false} ToConcat<C, M>(a: seq<RoomCore.Send<C, M>>, b: seq<RoomCore.Send<C, M>>, c: C)
    ensures RoomCore.To(a + b, c) == RoomCore.To(a, c) + RoomCore.To(b, c)
  {
    if a == [] {
      assert a + b == b && RoomCore.To(a, c) == [];
    } else {
      hide RoomCore.To;
      var first := if a[0].to == c then [a[0].event] else [];
      calc {
        RoomCore.To(a + b, c);
        { ToCons(a + b, c); assert (a + b)[1..] == a[1..] + b; }
        first + RoomCore.To(a[1..] + b, c);
        { ToConcat(a[1..], b, c); }
        first + (RoomCore.To(a[1..], c) + RoomCore.To(b, c));
        (first + RoomCore.To(a[1..], c)) + RoomCore.To(b, c);
        { ToCons(a, c); }
        RoomCore.To(a, c) + RoomCore.To(b, c);
      }
    }
  }

  lemma {:induction false} BroadcastAppend<C,
      M>(players: map<PlayerId, Player<C>>, names: seq<PlayerId>, p: PlayerId, event: M)
    requires p in players
    ensures RoomCore.Broadcast(players, names + [p], event)
         == RoomCore.Broadcast(players, names, event) + [RoomCore.Send(players[p].sender, event)]
  {
    if names == [] {
      assert names + [p] == [p] && [p][1..] == [];
      assert RoomCore.Broadcast(players, [], event) == [];
    } else {
      BroadcastAppend(players, names[1..], p, event);
      assert (names + [p])[1..] == names[1..] + [p];
    }
  }

  /** One more name in a broadcast is one more event on that member's channel. */
  lemma ToAppend<C, M>(players: map<PlayerId, Player<C>>, names: seq<PlayerId>, p: PlayerId, event: M, c: C)
    requires p in players
    ensures Share(players, names + [p], event, c) == Share(players, names, event, c) + if players[p].sender == c
      then [event] else []
  {
    var one := RoomCore.Send(players[p].sender, event);
    BroadcastAppend(players, names, p, event);
    ToConcat(RoomCore.Broadcast(players, names, event), [one], c);
    assert [one][1..] == [];
    assert RoomCore.To<C, M>([], c) == [];
  }

  /** What a broadcast to the names puts on channel `c`. */
  function Share<C(==), M>(players: map<PlayerId, Player<C>>, names: seq<PlayerId>, event: M, c: C): seq<M> {
    RoomCore.To(RoomCore.Broadcast(players, names, event), c)
  }

  lemma NoShare<C, M>(players: map<PlayerId, Player<C>>, event: M, c: C)
    ensures Share(players, [], event, c) == []
  {
  }

  /** Some iteration order of a set of keys. */
  method SomeOrder(keys: set<PlayerId>) returns (order: seq<PlayerId>)
    ensures RoomCore.Enumerates(order, keys)
  {
    order := [];
    var rest := keys;
    while rest != {}
      invariant rest <= keys
      invariant RoomCore.Enumerates(order, keys - rest)
    {
      var p :| p in rest;
      order := order + [p];
      rest := rest - {p};
    }
  }

  class Room<M> {
    const id: RoomId
    const config: RoomConfig
    var players: map<PlayerId, Player<Channel<M>>>
    /** The table's iteration order, arbitrary after every insertion or removal. */
    var order: seq<PlayerId>

    predicate Valid()
      reads this
    {
      RoomCore.Enumerates(order, players.Keys)
    }

    constructor (id: RoomId, config: RoomConfig)
      ensures Valid() && State() == RoomCore.NewRoom(id, config)
    {
      this.id, this.config := id, config;
      players, order := map[], [];
    }

    function State(): RoomCore.RoomState<Channel<M>>
      reads this
    {
      RoomCore.RoomState(id, config, players)
    }

    function NumPlayers(): U32
      reads this
    {
      |players| % U32_SIZE
    }

    predicate IsJoined(playerId: PlayerId)
      reads this
    {
      playerId in players
    }

    /** Refusals in the order of the checks: configuration, presence, space. */
    method AddPlayer(player: Player<Channel<M>>, config: RoomConfig) returns (error: Option<RoomError>)
      requires Valid()
      modifies this
      ensures Valid()
      ensures var added := RoomCore.AddPlayer(old(State()), player, config);
              match error
              case None => added == Success(State())
              case Some(e) => added == Failure(e) && State() == old(State()) && order == old(order)
    {
      if this.config != config {
        return Some(RoomConfigDoesNotMatch(id, player.id));
      }
      if player.id in players {
        return Some(AlreadyJoinedRoom(id, player.id));
      }
      if NumPlayers() >= this.config.maxPlayers {
        return Some(RoomIsFull(id, player.id));
      }
      players := players[player.id := player];
      order := SomeOrder(players.Keys);
      error := None;
    }

    method RemovePlayer(playerId: PlayerId) returns (removed: bool)
      requires Valid()
      modifies this
      ensures Valid()
      ensures removed == (playerId in old(players))
      ensures State() == RoomCore.RemovePlayer(old(State()), playerId)
    {
      removed := playerId in players;
      players := players - {playerId};
      order := SomeOrder(players.Keys);
    }

    /** Sends to every entry in iteration order; disconnected receivers are skipped. */
    method Broadcast(event: M)
      requires Valid()
      modifies Senders(players)
      ensures forall c :: c in Senders(players) ==>
        c.open == old(c.open) && c.queue == old(c.queue) + Got(c.open, Share(players, order, event, c))
    {
      hide Share, RoomCore.To, RoomCore.Broadcast;
      forall c | c in Senders(players) ensures Share(players, order[..0], event, c) == [] {
        assert order[..0] == [];
        NoShare(players, event, c);
      }
      for k := 0 to |order|
        invariant forall c :: c in Senders(players) ==>
          c.open == old(c.open) && c.queue == old(c.queue) + Got(c.open, Share(players, order[..k], event, c))
      {
        assert order[..k + 1] == order[..k] + [order[k]];
        forall c | c in Senders(players)
          ensures Share(players, order[..k + 1], event, c)
               == Share(players, order[..k], event, c) + if players[order[k]].sender == c then [event] else []
        {
          ToAppend(players, order[..k], order[k], event, c);
        }
        var _ := players[order[k]].sender.Send(event);
      }
      assert order[..|order|] == order;
    }

    /** Sends to one member; nothing happens for others. */
    method Send(playerId: PlayerId, event: M)
      modifies if playerId in players then {players[playerId].sender} else {}
      ensures playerId in players ==>
        var c := players[playerId].sender;
        c.open == old(c.open) && c.queue == old(c.queue) + Got(c.open, [event])
    {
      if playerId in players {
        var _ := players[playerId].sender.Send(event);
      }
    }
  }
}
