/** The replicated view: folding the events of a room out of a session's stream tells, in every
    reachable state, whether the session is a member and who else is. */
module Membership {
  import opened Wrappers
  import opened Events
  import opened RoomCore
  import opened Protocol
  import opened Rooms
  import opened Streams

  /** A session's standing in a room as its events tell it. Broken records a history that no
      well-behaved room produces: a second own join, a leave without a join, a notice about a
      room one is not in, a join of a present player, a leave of an absent one. */
  datatype Standing = Outside | Inside(keys: set<PlayerId>) | Broken

  function Advance(v: Standing, e: OutputEvent, rid: RoomId, id: PlayerId): Standing {
    match e
    case OutputJoin(Success(info)) =>
      if info.roomId != rid then v
      else if info.playerId == id then
        if v.Outside? then Inside(set p | p in info.roomPlayerIds) else Broken
      else if v.Inside? && info.playerId !in v.keys then Inside(v.keys + {info.playerId})
      else Broken
    case OutputJoin(Failure(_)) => v
    case OutputLeave(Success(info)) =>
      if info.roomId != rid then v
      else if info.playerId == id then
        if v.Inside? then Outside else Broken
      else if v.Inside? && info.playerId in v.keys then Inside(v.keys - {info.playerId})
      else Broken
    case OutputLeave(Failure(_)) => Broken
    case OutputMessage(info) => if info.roomId != rid || v.Inside? then v else Broken
  }

  function Follow(v: Standing, stream: seq<Delivery>, rid: RoomId, id: PlayerId): Standing {
    if stream == [] then v
    else Advance(Follow(v, stream[..|stream| - 1], rid, id), stream[|stream| - 1].event, rid, id)
  }

  /** A session's true standing in a room. */
  function StandingIn(players: map<PlayerId, Player<SessionId>>, s: SessionId, id: PlayerId): Standing {
    if HasMember(players, s, id) then Inside(players.Keys) else Outside
  }

  /** A session's true standing under a room id: that in the registered incarnation, if any. */
  function Truth(st: State, s: SessionId, rid: RoomId): Standing
    requires s < |st.sessions|
  {
    if rid in st.registry && st.registry[rid] < |st.rooms|
      then StandingIn(st.rooms[st.registry[rid]].room.players, s, st.sessions[s].id) else Outside
  }

  /** Events of the room id still to be put on the session's channel. */
  function Pending(st: State, s: SessionId, rid: RoomId): seq<Delivery> {
    if rid in st.registry && st.registry[rid] < |st.rooms| then PostsTo(st.rooms[st.registry[rid]].outbox, s) else []
  }

  function Feed(st: State, s: SessionId, rid: RoomId): seq<Delivery>
    requires s < |st.sessions|
  {
    Stream(st.sessions[s]) + Pending(st, s, rid)
  }

  ghost predicate Coherent(st: State, s: SessionId, rid: RoomId)
    requires s < |st.sessions|
  {
    Follow(Outside, Feed(st, s, rid), rid, st.sessions[s].id) == Truth(st, s, rid)
  }

  // ---------- Folding ----------

  lemma {:induction false} FollowConcat(v: Standing, a: seq<Delivery>, b: seq<Delivery>, rid: RoomId, id: PlayerId)
    ensures Follow(v, a + b, rid, id) == Follow(Follow(v, a, rid, id), b, rid, id)
  {
    if b == [] {
      assert a + b == a;
    } else {
      FollowConcat(v, a, b[..|b| - 1], rid, id);
      assert (a + b)[..|a + b| - 1] == a + b[..|b| - 1];
    }
  }

  lemma FollowOne(v: Standing, d: Delivery, rid: RoomId, id: PlayerId)
    ensures Follow(v, [d], rid, id) == Advance(v, d.event, rid, id)
  {
    assert [d][..0] == [];
  }

  lemma FollowAppend(v: Standing, a: seq<Delivery>, d: Delivery, rid: RoomId, id: PlayerId)
    ensures Follow(v, a + [d], rid, id) == Advance(Follow(v, a, rid, id), d.event, rid, id)
  {
    assert (a + [d])[..|a + [d]| - 1] == a;
  }

  lemma {:induction false} BrokenStaysBroken(stream: seq<Delivery>, rid: RoomId, id: PlayerId)
    ensures Follow(Broken, stream, rid, id).Broken?
  {
    if stream != [] {
      BrokenStaysBroken(stream[..|stream| - 1], rid, id);
    }
  }

  lemma {:induction false} FollowCopies(v: Standing, message: OutputEvent, n: nat, i: IncId, pos: nat, rid: RoomId,
      id: PlayerId)
    requires message.OutputMessage? && (v.Inside? || n == 0)
    ensures Follow(v, Marked(Copies(message, n), i, pos), rid, id) == v
  {
    if n != 0 {
      FollowCopies(v, message, n - 1, i, pos, rid, id);
      var marked := Marked(Copies(message, n), i, pos);
      assert marked[..|marked| - 1] == Marked(Copies(message, n - 1), i, pos);
    }
  }

  // ---------- One handled event ----------

  /** The central step: what a session receives from one handled event takes its standing before
      the event to its standing after it. */
  lemma HandleAdvances(r: RoomState<SessionId>, e: InputEvent<SessionId>, order: seq<PlayerId>, s: SessionId,
      id: PlayerId, i: IncId, pos: nat)
    requires Enumerates(order, Iterated(r, e).Keys)
    requires SpeaksFor(r.players, s, id)
    requires e.InputJoin? && e.player.sender == s ==> e.player.id == id
    ensures Follow(StandingIn(r.players, s, id), PostsTo(Tag(Handle(r, e, order).sends, i, pos), s), r.id, id)
         == StandingIn(Handle(r, e, order).room.players, s, id)
  {
    OwedAdvances(r, e, order, s, id, i, pos);
    hide Enumerates, Owed, Follow, StandingIn, Handle, SpeaksFor;
    HandleTo(r, e, order, s, id);
    PostsToTag(Handle(r, e, order).sends, i, pos, s);
  }

  lemma OwedAdvances(r: RoomState<SessionId>, e: InputEvent<SessionId>, order: seq<PlayerId>, s: SessionId,
      id: PlayerId, i: IncId, pos: nat)
    requires Enumerates(order, Iterated(r, e).Keys)
    requires e.InputJoin? && e.player.sender == s ==> e.player.id == id
    ensures Follow(StandingIn(r.players, s, id), Marked(Owed(r, e, order, s, id), i, pos), r.id, id)
         == StandingIn(Handle(r, e, order).room.players, s, id)
  {
    hide Enumerates;
    var owed := Owed(r, e, order, s, id);
    var v := StandingIn(r.players, s, id);
    if |owed| == 1 {
      assert Marked(owed, i, pos) == [Delivery(i, pos, owed[0])];
      FollowOne(v, Delivery(i, pos, owed[0]), r.id, id);
    } else if |owed| == 0 {
      assert Marked(owed, i, pos) == [];
    }
    match e {
      case InputJoin(player, config) =>
        var added := AddPlayer(r, player, config);
        if added.Success? {
          OrderIsKeys(order, added.value.players.Keys);
          JoinAdvances(r, player, order, s, id);
        }
      case InputLeave(playerId) =>
        if playerId in r.players {
          LeaveAdvances(r, playerId, s, id);
        }
      case InputMessage(senderId, targetIds, body) =>
        FollowCopies(v, OutputMessage(MessageInfo(r.id, senderId, body)), |owed|, i, pos, r.id, id);
    }
  }

  lemma OrderIsKeys(order: seq<PlayerId>, keys: set<PlayerId>)
    requires Enumerates(order, keys)
    ensures (set p | p in order) == keys
  {
  }

  lemma JoinAdvances(r: RoomState<SessionId>, player: Player<SessionId>, order: seq<PlayerId>, s: SessionId,
      id: PlayerId)
    requires player.id !in r.players
    requires (set p | p in order) == r.players.Keys + {player.id}
    requires player.sender == s ==> player.id == id
    ensures var after := r.players[player.id := player];
            StandingIn(after, s, id) ==
              if HasMember(after, s, id)
              then Advance(StandingIn(r.players, s, id),
                OutputJoin(Success(JoinInfo(r.id, player.id, order, r.config))), r.id, id)
              else StandingIn(r.players, s, id)
  {
    assert r.players[player.id := player].Keys == r.players.Keys + {player.id};
  }

  lemma LeaveAdvances(r: RoomState<SessionId>, playerId: PlayerId, s: SessionId, id: PlayerId)
    requires playerId in r.players
    ensures StandingIn(RemovePlayer(r, playerId).players, s, id) ==
              if HasMember(r.players, s, id)
              then Advance(StandingIn(r.players, s, id), OutputLeave(Success(LeaveInfo(r.id, playerId))), r.id, id)
              else StandingIn(r.players, s, id)
  {
    assert RemovePlayer(r, playerId).players.Keys == r.players.Keys - {playerId};
  }

  // ---------- The invariant, step by step ----------

  lemma SpeaksForMembers(sessions: seq<Session>, r: Incarnation, s: SessionId)
    requires MembersOk(sessions, r) && s < |sessions|
    ensures SpeaksFor(r.room.players, s, sessions[s].id)
  {
  }

  /** A session that has not logged in is nobody to any room. */
  lemma StrangerIsNobody(sessions: seq<Session>, r: Incarnation, s: SessionId)
    requires SentOk(sessions, r) && MembersOk(sessions, r) && !LoggedIn(sessions, s)
    ensures PostsTo(r.outbox, s) == []
    ensures forall id :: !HasMember(r.room.players, s, id)
  {
    PostsToNobody(r.outbox, s);
  }

  lemma StrangerCoherent(st: State, s: SessionId, rid: RoomId)
    requires Inv(st) && s < |st.sessions| && st.sessions[s].epoch == 0
    requires Stream(st.sessions[s]) == []
    ensures Coherent(st, s, rid)
  {
    hide RoomOk, SentOk, MembersOk, SessionsOk, FirstEventDue;
    if rid in st.registry {
      StrangerIsNobody(st.sessions, st.rooms[st.registry[rid]], s);
    }
  }

  /** Logging in changes nothing about rooms that never heard of the session. */
  lemma LoginCoherent(st: State, st': State, s: SessionId, rid: RoomId)
    requires RegistryOk(st) && RegistryOk(st')
    requires st'.registry == st.registry && st'.rooms == st.rooms
    requires s < |st.sessions| && st.sessions[s].epoch == 0
    requires s < |st'.sessions| && Stream(st'.sessions[s]) == []
    requires forall i :: 0 <= i < |st.rooms| ==> SentOk(st.sessions, st.rooms[i]) && MembersOk(st.sessions, st.rooms[i])
    ensures Coherent(st', s, rid)
  {
    hide SentOk, MembersOk;
    if rid in st.registry {
      StrangerIsNobody(st.sessions, st.rooms[st.registry[rid]], s);
    }
  }

  lemma SameCoherent(st: State, st': State, s: SessionId, rid: RoomId)
    requires RegistryOk(st) && RegistryOk(st') && s < |st.sessions| && s < |st'.sessions|
    requires Coherent(st, s, rid)
    requires Stream(st'.sessions[s]) == Stream(st.sessions[s]) && st'.sessions[s].id == st.sessions[s].id
    requires rid in st.registry <==> rid in st'.registry
    requires rid in st.registry ==>
      && st'.registry[rid] == st.registry[rid]
      && st'.rooms[st.registry[rid]].room == st.rooms[st.registry[rid]].room
      && st'.rooms[st.registry[rid]].outbox == st.rooms[st.registry[rid]].outbox
    ensures Coherent(st', s, rid)
  {
  }

  lemma SessionStepCoherent(st: State, step: Step, s: SessionId, rid: RoomId)
    requires Enabled(st, step) && !RoomStep(step) && s < |st.sessions|
    requires RegistryOk(st) && RegistryOk(Apply(st, step)) && s < |Apply(st, step).sessions|
    requires Coherent(st, s, rid)
    requires Apply(st, step).sessions[s].id == st.sessions[s].id
    ensures Coherent(Apply(st, step), s, rid)
  {
    hide Coherent;
    var st' := Apply(st, step);
    StreamStep(st, step, s);
    if Creates(st, step) {
      CreateKeepsOthers(st, step);
      if rid == st.sessions[step.s].input[0].data.value.roomId {
        CreateCoherent(st, st', s, rid);
      } else {
        SameCoherent(st, st', s, rid);
      }
    } else {
      SessionStepKeepsRooms(st, step);
      SameCoherent(st, st', s, rid);
    }
  }

  lemma CreateCoherent(st: State, st': State, s: SessionId, rid: RoomId)
    requires RegistryOk(st) && RegistryOk(st') && s < |st.sessions| && s < |st'.sessions|
    requires Coherent(st, s, rid) && rid !in st.registry
    requires rid in st'.registry && st'.rooms[st'.registry[rid]].room.players == map[] &&
      st'.rooms[st'.registry[rid]].outbox == []
    requires Stream(st'.sessions[s]) == Stream(st.sessions[s]) && st'.sessions[s].id == st.sessions[s].id
    ensures Coherent(st', s, rid)
  {
  }

  lemma TakeAdvances(sessions: seq<Session>, r: Incarnation, i: IncId, order: seq<PlayerId>, s: SessionId)
    requires RoomOk(r) && SentOk(sessions, r) && MembersOk(sessions, r) && s < |sessions|
    requires r.queue != [] && Enumerates(order, Iterated(r.room, r.queue[0].event).Keys)
    ensures Follow(StandingIn(r.room.players, s, sessions[s].id),
                   PostsTo(Tag(Handle(r.room, r.queue[0].event, order).sends, i, |r.log|), s), r.room.id,
                     sessions[s].id)
         == StandingIn(Handle(r.room, r.queue[0].event, order).room.players, s, sessions[s].id)
  {
    hide Enumerates, Handle, Follow, Iterated;
    HeadIsSent(r);
    SpeaksForMembers(sessions, r, s);
    HandleAdvances(r.room, r.queue[0].event, order, s, sessions[s].id, i, |r.log|);
  }

  lemma TakeCoherent(st: State, i: IncId, order: seq<PlayerId>, s: SessionId)
    requires Enabled(st, RoomTake(i, order)) && s < |st.sessions|
    requires RegistryOk(st) && RegistryOk(Apply(st, RoomTake(i, order)))
    requires RoomOk(st.rooms[i]) && SentOk(st.sessions, st.rooms[i]) && MembersOk(st.sessions, st.rooms[i])
    requires Coherent(st, s, st.rooms[i].room.id)
    ensures Coherent(Apply(st, RoomTake(i, order)), s, st.rooms[i].room.id)
  {
    hide SentOk, MembersOk, Enumerates, Handle, Follow, Iterated, StandingIn;
    var r, id := st.rooms[i], st.sessions[s].id;
    assert st.registry[r.room.id] == i;
    var posts := Tag(Handle(r.room, r.queue[0].event, order).sends, i, |r.log|);
    TakeAdvances(st.sessions, r, i, order, s);
    assert Feed(st, s, r.room.id) == Stream(st.sessions[s]);
    FollowConcat(Outside, Stream(st.sessions[s]), PostsTo(posts, s), r.room.id, id);
    HandleIdentity(r.room, r.queue[0].event, order);
  }

  lemma HandleIdentity<C>(room: RoomState<C>, event: InputEvent<C>, order: seq<PlayerId>)
    ensures Handle(room, event, order).room.id == room.id
  {
  }

  // ---------- Events concern the room that sent them ----------

  predicate About(e: OutputEvent, rid: RoomId) {
    match e
    case OutputJoin(Success(info)) => info.roomId == rid
    case OutputJoin(Failure(error)) => error.roomId == rid
    case OutputLeave(Success(info)) => info.roomId == rid
    case OutputLeave(Failure(_)) => false
    case OutputMessage(info) => info.roomId == rid
  }

  lemma {:induction false} BroadcastEvent<C>(players: map<PlayerId, Player<C>>, names: seq<PlayerId>,
      event: OutputEvent, send: Send<C, OutputEvent>)
    requires send in Broadcast(players, names, event)
    ensures send.event == event
  {
    if names != [] && send in Broadcast(players, names[1..], event) {
      BroadcastEvent(players, names[1..], event, send);
    }
  }

  /** A room sends only events about itself, and never a leave error. */
  lemma HandleAbout<C>(r: RoomState<C>, e: InputEvent<C>, order: seq<PlayerId>, send: Send<C, OutputEvent>)
    requires send in Handle(r, e, order).sends
    ensures About(send.event, r.id)
  {
    match e {
      case InputJoin(player, config) =>
        var added := AddPlayer(r, player, config);
        if added.Success? {
          BroadcastEvent(added.value.players, order, OutputJoin(Success(JoinInfo(r.id, player.id, order, r.config))),
            send);
        }
      case InputLeave(playerId) =>
        if playerId in r.players {
          BroadcastEvent(r.players, order, OutputLeave(Success(LeaveInfo(r.id, playerId))), send);
        }
      case InputMessage(senderId, targetIds, body) =>
        BroadcastEvent(r.players, if targetIds == [] then order else targetIds,
          OutputMessage(MessageInfo(r.id, senderId, body)), send);
    }
  }

  lemma {:induction false} FoldLogIdentity(id: RoomId, config: RoomConfig, log: seq<Entry>)
    ensures FoldLog(id, config, log).id == id && FoldLog(id, config, log).config == config
  {
    FoldLogStep(id, config, log);
    hide FoldLog;
    if log != [] {
      FoldLogIdentity(id, config, log[..|log| - 1]);
    }
  }

  lemma OriginAbout(rooms: seq<Incarnation>, post: Post)
    requires Origin(rooms, post)
    ensures About(post.delivery.event, rooms[post.delivery.inc].room.id)
  {
    var d := post.delivery;
    var r := rooms[d.inc];
    FoldLogIdentity(r.room.id, r.room.config, r.log[..d.pos]);
    HandleAbout(RoomAt(r, d.pos), r.log[d.pos].env.event, r.log[d.pos].order, Send(post.to, d.event));
  }

  // ---------- Deliveries ----------

  lemma DeliverPending(st: State, i: IncId, s: SessionId, rid: RoomId)
    requires Enabled(st, RoomDeliver(i)) && s < |st.sessions| && s < |Apply(st, RoomDeliver(i)).sessions|
    requires Alive(st.sessions[s].pc)
    ensures var st' := Apply(st, RoomDeliver(i));
            var post := st.rooms[i].outbox[0];
            var more := if post.to == s then [post.delivery] else [];
            && st'.sessions[s].inbox == st.sessions[s].inbox + more
            && Pending(st, s, rid) ==
              (if rid in st.registry && st.registry[rid] == i then more else []) + Pending(st', s, rid)
  {
    OthersUntouched(st, RoomDeliver(i), s);
    var outbox := st.rooms[i].outbox;
    assert PostsTo(outbox, s) == (if outbox[0].to == s then [outbox[0].delivery] else []) + PostsTo(outbox[1..], s);
    assert Apply(st, RoomDeliver(i)).rooms == st.rooms[i := st.rooms[i].(outbox := outbox[1..])];
    hide PostsTo;
  }

  lemma DeliverCoherent(st: State, i: IncId, s: SessionId, rid: RoomId)
    requires Enabled(st, RoomDeliver(i)) && s < |st.sessions| && s < |Apply(st, RoomDeliver(i)).sessions|
    requires RegistryOk(st) && Alive(st.sessions[s].pc)
    requires OutboxOrigin(st.rooms, i)
    requires Coherent(st, s, rid)
    ensures Coherent(Apply(st, RoomDeliver(i)), s, rid)
  {
    DeliverTruth(st, i, s, rid);
    DeliverPending(st, i, s, rid);
    StreamStep(st, RoomDeliver(i), s);
    var post := st.rooms[i].outbox[0];
    var more := if post.to == s then [post.delivery] else [];
    if st.rooms[i].room.id != rid && post.to == s {
      OriginAbout(st.rooms, post);
    }
    DeliverFolds(Stream(st.sessions[s]), more, Pending(Apply(st, RoomDeliver(i)), s, rid), st.rooms[i].room.id, rid,
      st.sessions[s].id);
    hide Origin, Follow, Apply, Pending, Truth, RegistryOk, About;
    assert st.rooms[i].room.id != rid ==>
      [] + Pending(Apply(st, RoomDeliver(i)), s, rid) == Pending(Apply(st, RoomDeliver(i)), s, rid);
  }

  /** A delivery moved from a room's outbox to the stream changes the fold for no room id. */
  lemma DeliverFolds(stream: seq<Delivery>, more: seq<Delivery>, pending: seq<Delivery>, at: RoomId, rid: RoomId,
      id: PlayerId)
    requires |more| <= 1
    requires at != rid && more != [] ==> About(more[0].event, at)
    ensures Follow(Outside, (stream + more) + pending, rid, id)
         == Follow(Outside, stream + (if at == rid then more + pending else pending), rid, id)
  {
    if at == rid {
      assert (stream + more) + pending == stream + (more + pending);
    } else if more == [] {
      assert stream + more == stream;
    } else {
      hide Follow;
      assert more == [more[0]];
      FollowAppend(Outside, stream, more[0], rid, id);
      AdvanceElsewhere(Follow(Outside, stream, rid, id), more[0].event, at, rid, id);
      FollowConcat(Outside, stream, pending, rid, id);
      FollowConcat(Outside, stream + more, pending, rid, id);
    }
  }

  lemma DeliverTruth(st: State, i: IncId, s: SessionId, rid: RoomId)
    requires Enabled(st, RoomDeliver(i)) && s < |st.sessions| && s < |Apply(st, RoomDeliver(i)).sessions|
    requires RegistryOk(st)
    ensures Truth(Apply(st, RoomDeliver(i)), s, rid) == Truth(st, s, rid)
    ensures Apply(st, RoomDeliver(i)).sessions[s].id == st.sessions[s].id
    ensures rid in st.registry && st.registry[rid] == i <==> rid == st.rooms[i].room.id
  {
    OthersUntouched(st, RoomDeliver(i), s);
    assert st.registry[st.rooms[i].room.id] == i;
  }

  lemma AdvanceElsewhere(v: Standing, e: OutputEvent, at: RoomId, rid: RoomId, id: PlayerId)
    requires About(e, at) && at != rid
    ensures Advance(v, e, rid, id) == v
  {
  }

  // ---------- The end of a room ----------

  lemma DeregisterCoherent(st: State, i: IncId, s: SessionId)
    requires Enabled(st, RoomDeregister(i)) && s < |st.sessions|
    requires RegistryOk(st) && RegistryOk(Apply(st, RoomDeregister(i)))
    requires RoomOk(st.rooms[i])
    requires Coherent(st, s, st.rooms[i].room.id)
    ensures Coherent(Apply(st, RoomDeregister(i)), s, st.rooms[i].room.id)
  {
    assert st.registry[st.rooms[i].room.id] == i;
  }

  lemma RoomStepCoherent(st: State, step: Step, s: SessionId, rid: RoomId)
    requires Inv(st) && Enabled(st, step) && RoomStep(step)
    requires RegistryOk(Apply(st, step)) && s < |st.sessions| && s < |Apply(st, step).sessions|
    requires Alive(st.sessions[s].pc)
    requires OutboxOrigin(st.rooms, step.i)
    requires Coherent(st, s, rid)
    ensures Coherent(Apply(st, step), s, rid)
  {
    hide RoomOk, SentOk, MembersOk, SessionsOk, FirstEventDue, Coherent, OutboxOrigin;
    var st' := Apply(st, step);
    if step.RoomDeliver? {
      DeliverCoherent(st, step.i, s, rid);
    } else if step.RoomStarve? {
      NeverStarves(st, step.i);
    } else if step.RoomTake? && rid == st.rooms[step.i].room.id {
      TakeCoherent(st, step.i, step.order, s);
    } else if step.RoomDeregister? && rid == st.rooms[step.i].room.id {
      DeregisterCoherent(st, step.i, s);
    } else {
      StreamStep(st, step, s);
      OthersUntouched(st, step, s);
      SameCoherent(st, st', s, rid);
    }
  }

  /** Every live session's events, folded, give its true standing under every room id. */
  ghost predicate ViewInv(st: State) {
    forall s, rid :: 0 <= s < |st.sessions| && Alive(st.sessions[s].pc) ==> Coherent(st, s, rid)
  }

  lemma CoherentStep(st: State, step: Step, s: SessionId, rid: RoomId)
    requires Inv(st) && OriginInv(st) && ViewInv(st) && Enabled(st, step)
    requires RegistryOk(Apply(st, step)) && Inv(Apply(st, step))
    requires s < |Apply(st, step).sessions| && Alive(Apply(st, step).sessions[s].pc)
    ensures Coherent(Apply(st, step), s, rid)
  {
    hide RoomOk, SentOk, MembersOk, SessionsOk, FirstEventDue, Coherent, OutboxOrigin, StreamOrigin, RegistryOk;
    var st' := Apply(st, step);
    if s == |st.sessions| {
      NewcomerStranger(st, step);
      StrangerCoherent(st', s, rid);
    } else {
      StillAlive(st, step, s);
      if step.TryLogin? && step.s == s {
        LoginFacts(st, step);
        LoginCoherent(st, st', s, rid);
      } else if RoomStep(step) {
        RoomStepCoherent(st, step, s, rid);
      } else {
        SameId(st, step, s);
        SessionStepCoherent(st, step, s, rid);
      }
    }
  }

  lemma NewcomerStranger(st: State, step: Step)
    requires Enabled(st, step) && |Apply(st, step).sessions| > |st.sessions|
    ensures var x := Apply(st, step).sessions[|st.sessions|];
            x.epoch == 0 && Stream(x) == []
  {
    SessionCount(st, step);
  }

  lemma LoginFacts(st: State, step: Step)
    requires SessionsOk(st) && Enabled(st, step) && step.TryLogin?
    ensures st.sessions[step.s].epoch == 0
    ensures Apply(st, step).registry == st.registry && Apply(st, step).rooms == st.rooms
    ensures step.s < |Apply(st, step).sessions| && Stream(Apply(st, step).sessions[step.s]) == []
  {
    assert SessionOk(st.sessions[step.s], st.rooms);
  }

  lemma StillAlive(st: State, step: Step, s: SessionId)
    requires Enabled(st, step) && s < |st.sessions|
    requires s < |Apply(st, step).sessions| && Alive(Apply(st, step).sessions[s].pc)
    ensures Alive(st.sessions[s].pc)
  {
    if RoomStep(step) || step.Connect? || step.s != s {
      OthersUntouched(st, step, s);
    }
  }

  lemma SameId(st: State, step: Step, s: SessionId)
    requires Enabled(st, step) && s < |st.sessions| && !(step.TryLogin? && step.s == s)
    ensures s < |Apply(st, step).sessions|
    ensures Apply(st, step).sessions[s].id == st.sessions[s].id
    ensures Apply(st, step).sessions[s].epoch == st.sessions[s].epoch
  {
    if RoomStep(step) || step.Connect? || step.s != s {
      OthersUntouched(st, step, s);
    }
  }

  lemma {:induction false} ViewHolds(bearer: string, steps: seq<Step>)
    requires Valid(bearer, steps)
    ensures ViewInv(Exec(bearer, steps))
  {
    hide RoomOk, SentOk, MembersOk, SessionsOk, FirstEventDue, Coherent, OutboxOrigin, StreamOrigin;
    InvHolds(bearer, steps);
    if steps != [] {
      var before, step := Exec(bearer, steps[..|steps| - 1]), steps[|steps| - 1];
      ViewHolds(bearer, steps[..|steps| - 1]);
      InvHolds(bearer, steps[..|steps| - 1]);
      OriginHolds(bearer, steps[..|steps| - 1]);
      var st' := Exec(bearer, steps);
      forall s, rid | 0 <= s < |st'.sessions| && Alive(st'.sessions[s].pc) ensures Coherent(st', s, rid) {
        CoherentStep(before, step, s, rid);
      }
    }
  }
}
