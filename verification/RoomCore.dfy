/** The room as a value: what each event does to the member table and which sends it causes.
    Both the imperative room and the concurrent system are specified by these functions. */
module RoomCore {
  import opened Wrappers
  import opened Events

  datatype RoomState<+C> = RoomState(id: RoomId, config: RoomConfig, players: map<PlayerId, Player<C>>)

  /** One message put on one channel. */
  datatype Send<+C, +M> = Send(to: C, event: M)

  datatype Handling<+C> = Handling(room: RoomState<C>, sends: seq<Send<C, OutputEvent>>)

  function NewRoom<C>(id: RoomId, config: RoomConfig): RoomState<C> {
    RoomState(id, config, map[])
  }

  /** The member count as the code computes it: the table size truncated to 32 bits. */
  function NumPlayers<C>(r: RoomState<C>): U32 {
    |r.players| % U32_SIZE
  }

  function AddPlayer<C>(r: RoomState<C>, player: Player<C>, config: RoomConfig): Result<RoomState<C>, RoomError> {
    if r.config != config then Failure(RoomConfigDoesNotMatch(r.id, player.id))
    else if player.id in r.players then Failure(AlreadyJoinedRoom(r.id, player.id))
    else if NumPlayers(r) >= r.config.maxPlayers then Failure(RoomIsFull(r.id, player.id))
    else Success(r.(players := r.players[player.id := player]))
  }

  function RemovePlayer<C>(r: RoomState<C>, playerId: PlayerId): RoomState<C> {
    r.(players := r.players - {playerId})
  }

  /** `order` lists `keys` once each: an iteration order of the member table. */
  predicate Enumerates(order: seq<PlayerId>, keys: set<PlayerId>) {
    && (forall p :: p in order ==> p in keys)
    && (forall p :: p in keys ==> p in order)
    && (forall j, k :: 0 <= j < k < |order| ==> order[j] != order[k])
  }

  /** The member table as it stands when the handler of `e` iterates it. */
  function Iterated<C>(r: RoomState<C>, e: InputEvent<C>): map<PlayerId, Player<C>> {
    match e
    case InputJoin(player, config) =>
      (match AddPlayer(r, player, config)
       case Success(added) => added.players
       case Failure(_) => r.players)
    case _ => r.players
  }

  function Broadcast<C, M>(players: map<PlayerId, Player<C>>, order: seq<PlayerId>, event: M): seq<Send<C, M>> {
    if order == [] then []
    else (if order[0] in players then [Send(players[order[0]].sender, event)] else [])
         + Broadcast(players, order[1..], event)
  }

  /** Handling one event when the table is iterated in the order `order`. A message to named
      targets is sent once per name, members only. */
  function Handle<C>(r: RoomState<C>, e: InputEvent<C>, order: seq<PlayerId>): Handling<C> {
    match e
    case InputJoin(player, config) =>
      (match AddPlayer(r, player, config)
       case Success(added) =>
         Handling(added, Broadcast(added.players, order,
           OutputJoin(Success(JoinInfo(r.id, player.id, order, r.config)))))
       case Failure(error) =>
         Handling(r, [Send(player.sender, OutputJoin(Failure(error)))]))
    case InputLeave(playerId) =>
      if playerId in r.players then
        Handling(RemovePlayer(r, playerId),
          Broadcast(r.players, order, OutputLeave(Success(LeaveInfo(r.id, playerId)))))
      else
        Handling(r, [])
    case InputMessage(senderId, targetIds, body) =>
      Handling(r, Broadcast(r.players, if targetIds == [] then order else targetIds,
        OutputMessage(MessageInfo(r.id, senderId, body))))
  }

  /** The events among `sends` that go to channel `c`, in order. */
  function To<C(==), M>(sends: seq<Send<C, M>>, c: C): seq<M> {
    if sends == [] then []
    else (if sends[0].to == c then [sends[0].event] else []) + To(sends[1..], c)
  }

  function Copies<M>(event: M, n: nat): (s: seq<M>)
    ensures |s| == n && forall k :: 0 <= k < n ==> s[k] == event
  {
    if n == 0 then [] else [event] + Copies(event, n - 1)
  }

  /** How often `x` occurs in `xs`. */
  function Occurrences(xs: seq<PlayerId>, x: PlayerId): nat {
    if xs == [] then 0 else (if xs[0] == x then 1 else 0) + Occurrences(xs[1..], x)
  }

  /** Entries are stored under their own id, and distinct entries have distinct channels. */
  ghost predicate WellKeyed<C>(players: map<PlayerId, Player<C>>) {
    && (forall p :: p in players ==> players[p].id == p)
    && (forall p, q :: p in players && q in players && players[p].sender == players[q].sender ==> p == q)
  }

  ghost predicate SpeaksFor<C>(players: map<PlayerId, Player<C>>, c: C, id: PlayerId) {
    forall p :: p in players && players[p].sender == c ==> p == id
  }

  predicate HasMember<C(==)>(players: map<PlayerId, Player<C>>, c: C, id: PlayerId) {
    id in players && players[id].sender == c
  }

  // ---------- Where the sends of one event go ----------

  /** A broadcast over any list of names puts on a member's channel one copy per mention of
      that member, and nothing on any other channel. */
  lemma {:induction false} BroadcastTo<C,
      M>(players: map<PlayerId, Player<C>>, names: seq<PlayerId>, event: M, c: C, id: PlayerId)
    requires SpeaksFor(players, c, id)
    ensures To(Broadcast(players, names, event), c)
         == Copies(event, if HasMember(players, c, id) then Occurrences(names, id) else 0)
  {
    if names != [] {
      BroadcastTo(players, names[1..], event, c, id);
      var rest := Broadcast(players, names[1..], event);
      if names[0] in players {
        var first := Send(players[names[0]].sender, event);
        assert Broadcast(players, names, event) == [first] + rest;
        assert ([first] + rest)[1..] == rest;
      } else {
        assert Broadcast(players, names, event) == rest;
      }
    }
  }

  lemma {:induction false} OccurrencesOfAbsent(names: seq<PlayerId>, id: PlayerId)
    requires id !in names
    ensures Occurrences(names, id) == 0
  {
    if names != [] {
      OccurrencesOfAbsent(names[1..], id);
    }
  }

  lemma {:induction false} OccurrencesInEnumeration(names: seq<PlayerId>, id: PlayerId)
    requires forall j, k :: 0 <= j < k < |names| ==> names[j] != names[k]
    ensures Occurrences(names, id) == if id in names then 1 else 0
  {
    if names != [] {
      if names[0] == id {
        OccurrencesOfAbsent(names[1..], id);
      } else {
        OccurrencesInEnumeration(names[1..], id);
      }
    }
  }

  /** What a channel `c` speaking for player `id` is owed by one event: the room's own account of
      who hears what, independent of iteration order apart from the player list a join carries. */
  function Owed<C(==)>(r: RoomState<C>, e: InputEvent<C>, order: seq<PlayerId>, c: C, id: PlayerId): seq<OutputEvent> {
    match e
    case InputJoin(player, config) =>
      (match AddPlayer(r, player, config)
       case Success(added) =>
         if HasMember(added.players, c, id) then [OutputJoin(Success(JoinInfo(r.id, player.id, order, r.config)))]
           else []
       case Failure(error) =>
         if player.sender == c then [OutputJoin(Failure(error))] else [])
    case InputLeave(playerId) =>
      if playerId in r.players && HasMember(r.players, c, id) then [OutputLeave(Success(LeaveInfo(r.id, playerId)))]
        else []
    case InputMessage(senderId, targetIds, body) =>
      Copies(OutputMessage(MessageInfo(r.id, senderId, body)),
             if !HasMember(r.players, c, id) then 0 else if targetIds == [] then 1 else Occurrences(targetIds, id))
  }

  /** Every channel receives exactly what it is owed, in every iteration order: one copy of a
      broadcast per member, one copy of a targeted message per mention, nothing for others. */
  lemma HandleTo<C>(r: RoomState<C>, e: InputEvent<C>, order: seq<PlayerId>, c: C, id: PlayerId)
    requires Enumerates(order, Iterated(r, e).Keys)
    requires SpeaksFor(r.players, c, id)
    requires e.InputJoin? && e.player.sender == c ==> e.player.id == id
    ensures To(Handle(r, e, order).sends, c) == Owed(r, e, order, c, id)
  {
    OccurrencesInEnumeration(order, id);
    match e {
      case InputJoin(player, config) =>
        var added := AddPlayer(r, player, config);
        if added.Success? {
          BroadcastTo(added.value.players, order, OutputJoin(Success(JoinInfo(r.id, player.id, order, r.config))), c,
            id);
        }
      case InputLeave(playerId) =>
        BroadcastTo(r.players, order, OutputLeave(Success(LeaveInfo(r.id, playerId))), c, id);
      case InputMessage(senderId, targetIds, body) =>
        var names := if targetIds == [] then order else targetIds;
        BroadcastTo(r.players, names, OutputMessage(MessageInfo(r.id, senderId, body)), c, id);
    }
  }
}
