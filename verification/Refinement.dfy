/** Steps taken without interruption do what the methods of the imperative tasks promise: the
    functions that specify `RoomTask` and `PlayerTask` describe the concurrent system as well. */
module Refinement {
  import opened Wrappers
  import opened Events
  import opened RoomCore
  import opened PlayerCore
  import opened Protocol
  import opened Rooms
  import opened Streams
  import opened Projection
  import opened Logs
  import PlayerTask

  // ---------- The room's log ----------

  /** What an incarnation posts to a session is what the room task sends for the same log. */
  lemma {:induction false} SendsAgree(i: IncId, id: RoomId, config: RoomConfig, log: seq<Entry>, s: SessionId)
    ensures EventsIn(Posted(i, id, config, log, s)) == SentTo(NewRoom(id, config), Plain(log), s)
  {
    hide Handle, To, PostsTo, Tag, Fold;
    if log != [] {
      var front, last := log[..|log| - 1], log[|log| - 1];
      SendsAgree(i, id, config, front, s);
      assert Plain(log)[..|log| - 1] == Plain(front);
      var sends := Handle(FoldLog(id, config, front), last.env.event, last.order).sends;
      PostsToTag(sends, i, |front|, s);
      EventsInMarked(To(sends, s), i, |front|);
      var tail := PostsTo(Tag(sends, i, |front|), s);
      assert EventsIn(Posted(i, id, config, front, s) + tail) ==
        EventsIn(Posted(i, id, config, front, s)) + EventsIn(tail);
    }
  }

  // ---------- One round of the room task ----------

  /** The state once incarnation `i` has worked through its outbox. */
  ghost function Drained(st: State, i: IncId): State
    requires i < |st.rooms| && st.rooms[i].phase.Sending?
    decreases |st.rooms[i].outbox|
  {
    if st.rooms[i].outbox == [] then st else Drained(Apply(st, RoomDeliver(i)), i)
  }

  /** `after` is `before` once the posts are on the channels of the sessions still alive. */
  ghost predicate Reached(before: seq<Session>, posts: seq<Post>, after: seq<Session>) {
    && |after| == |before|
    && forall s :: 0 <= s < |before| ==>
         after[s] == before[s].(inbox := before[s].inbox + if Alive(before[s].pc) then PostsTo(posts, s) else [])
  }

  lemma DeliverReaches(sessions: seq<Session>, posts: seq<Post>, after: seq<Session>)
    requires posts != [] && Reached(Deliver(sessions, posts[0]), posts[1..], after)
    ensures Reached(sessions, posts, after)
  {
    hide PostsTo;
    forall s | 0 <= s < |sessions|
      ensures after[s] == sessions[s].(inbox := sessions[s].inbox + if Alive(sessions[s].pc) then PostsTo(posts, s)
        else [])
    {
      PostsToFirst(posts, s);
      var x := sessions[s];
      var first := if posts[0].to == s then [posts[0].delivery] else [];
      assert (x.inbox + first) + PostsTo(posts[1..], s) == x.inbox + (first + PostsTo(posts[1..], s));
    }
  }

  lemma {:induction false} DrainedIs(st: State, i: IncId)
    requires i < |st.rooms| && st.rooms[i].phase.Sending?
    ensures Drained(st, i).rooms == st.rooms[i := st.rooms[i].(outbox := [])]
    ensures Drained(st, i).registry == st.registry && Drained(st, i).players == st.players
    ensures Reached(st.sessions, st.rooms[i].outbox, Drained(st, i).sessions)
    decreases |st.rooms[i].outbox|
  {
    if st.rooms[i].outbox == [] {
      assert st.rooms[i].(outbox := []) == st.rooms[i];
    } else {
      hide Reached, Deliver;
      DrainedIs(Apply(st, RoomDeliver(i)), i);
      DeliverReaches(st.sessions, st.rooms[i].outbox, Drained(st, i).sessions);
    }
  }

  /** A round changes the room and puts events on the sessions' channels as one call of the event
      handler does; it ends on the stop path exactly when no member is left. */
  lemma RoundAtOnce(st: State, i: IncId, order: seq<PlayerId>)
    requires Enabled(st, RoomTake(i, order))
    ensures Apply(st, RoomTake(i, order)).rooms[i].phase.Sending?
    ensures Enabled(Drained(Apply(st, RoomTake(i, order)), i), RoomSettle(i))
    ensures var done := Handle(st.rooms[i].room, st.rooms[i].queue[0].event, order);
            var st' := Apply(Drained(Apply(st, RoomTake(i, order)), i), RoomSettle(i));
            && (exists r :: st'.rooms == st.rooms[i := r] && r.room == done.room && r.queue == st.rooms[i].queue[1..]
                  && if NumPlayers(done.room) == 0 then r.phase.Stopping? else r.phase.Running?)
            && |st'.sessions| == |st.sessions|
            && forall s: SessionId :: 0 <= s < |st.sessions| ==>
                 EventsIn(st'.sessions[s].inbox) == EventsIn(st.sessions[s].inbox)
                   + if Alive(st.sessions[s].pc) then To(done.sends, s) else []
  {
    hide Handle, Drained, Enumerates, Iterated, NumPlayers, Tag, Reached, EventsIn, To;
    var taken := Apply(st, RoomTake(i, order));
    var sends := Handle(st.rooms[i].room, st.rooms[i].queue[0].event, order).sends;
    DrainedIs(taken, i);
    var drained := Drained(taken, i);
    var st' := Apply(drained, RoomSettle(i));
    assert st'.rooms == st.rooms[i := st'.rooms[i]];
    ReachedEvents(st.sessions, sends, i, |st.rooms[i].log|, st'.sessions);
  }

  lemma ReachedEvents(before: seq<Session>, sends: seq<Send<SessionId, OutputEvent>>, i: IncId, pos: nat,
      after: seq<Session>)
    requires Reached(before, Tag(sends, i, pos), after)
    ensures |after| == |before|
    ensures forall s: SessionId :: 0 <= s < |before| ==>
      EventsIn(after[s].inbox) == EventsIn(before[s].inbox) + if Alive(before[s].pc) then To(sends, s) else []
  {
    forall s: SessionId | 0 <= s < |before|
      ensures EventsIn(after[s].inbox) == EventsIn(before[s].inbox) + if Alive(before[s].pc) then To(sends, s) else []
    {
      PostsToTag(sends, i, pos, s);
      var sent := PostsTo(Tag(sends, i, pos), s);
      EventsInMarked(To(sends, s), i, pos);
      var reached := if Alive(before[s].pc) then sent else [];
      assert after[s].inbox == before[s].inbox + reached;
      EventsInConcat(before[s].inbox, reached);
    }
  }

  // ---------- One handler of the player task ----------

  /** The state once a login attempt that is being refused has been undone. */
  ghost function LoginUndone(st: State, s: SessionId): State {
    if Enabled(st, RejectUnregister(s)) then Apply(st, RejectUnregister(s)) else st
  }

  lemma LoginAtOnce(st: State, s: SessionId)
    requires Enabled(st, TryLogin(s)) && st.sessions[s].input[0].data.Some?
    ensures var x, data := st.sessions[s], st.sessions[s].input[0].data.value;
            var st' := LoginUndone(Apply(st, TryLogin(s)), s);
            && |st'.sessions| == |st.sessions|
            && var x' := st'.sessions[s];
            && (x'.pc.Idle? <==>
                  data.LoginRequest? && data.bearer == Some(st.bearer) && data.playerId !in st.players)
            && (x'.pc.Idle? ==> x'.id == data.playerId)
            && (!x'.pc.Idle? ==> x'.pc.Finished?)
            && if !data.LoginRequest? then
                 st'.players == st.players && x'.out == x.out
               else if data.playerId in st.players then
                 && st'.players == st.players - {data.playerId}
                 && x'.out == x.out + PlayerTask.Heard(!x.clientGone, Some(LoginResponse(AlreadyLoggedIn)))
               else if data.bearer != Some(st.bearer) then
                 && st'.players == st.players
                 && x'.out == x.out + PlayerTask.Heard(!x.clientGone, Some(LoginResponse(Unauthorized)))
               else
                 && st'.players == st.players + {data.playerId}
                 && x'.out == x.out + PlayerTask.Heard(!x.clientGone, Some(LoginResponse(NoError)))
  {
  }

  ghost function Requested(st: State, s: SessionId): State {
    if Enabled(st, SendRequest(s)) then Apply(st, SendRequest(s)) else st
  }

  /** Taking up a message opens a request exactly when a room is addressed that is registered or
      asked to be joined. */
  lemma TakenUp(st: State, s: SessionId)
    requires RegistryOk(st) && Enabled(st, TakeInput(s))
    ensures var x, message := st.sessions[s], Some(st.sessions[s].input[0]);
            var st', to := Apply(st, TakeInput(s)), Addressee(st.registry, message);
            var x' := st'.sessions[s];
            && |st'.sessions| == |st.sessions| && x'.sends == x.sends && x'.id == x.id && x'.clientGone == x.clientGone
            && (if to.None? && !AsksToJoin(message) then
                  && st'.rooms == st.rooms && st'.registry == st.registry && x'.pc.Idle?
                  && x'.out == x.out + PlayerTask.Heard(!x.clientGone, Reply(message, false, false))
                else
                  var inc := if to.Some? then to.value else |st.rooms|;
                  && RequestHalf(x'.pc) && x'.pc.inc == inc && RequestEvent(x', s) == Request(message, x.id, s) &&
                    x'.out == x.out
                  && if to.Some? then
                       st'.rooms == st.rooms && st'.registry == st.registry && inc < |st.rooms| &&
                         Registered(st.rooms[inc].phase)
                     else
                       && st'.registry == st.registry[message.value.data.value.roomId := inc]
                       && |st'.rooms| == inc + 1 && st'.rooms[..inc] == st.rooms && st'.rooms[inc].queue == [] &&
                         st'.rooms[inc].phase.Running?)
  {
    assert forall rid :: rid in st.registry ==>
      st.registry[rid] < |st.rooms| && Registered(st.rooms[st.registry[rid]].phase);
    hide RegistryOk;
    assert Apply(st, TakeInput(s)) == InputStep(st, s);
    hide Apply;
  }

  /** A request in progress on a channel whose receiver is there puts one event on it. */
  lemma SentOff(st: State, s: SessionId)
    requires s < |st.sessions| && RequestHalf(st.sessions[s].pc) && st.sessions[s].pc.inc < |st.rooms|
    requires !st.rooms[st.sessions[s].pc.inc].phase.Dropped?
    ensures Enabled(st, SendRequest(s))
    ensures var x, st' := st.sessions[s], Apply(st, SendRequest(s));
            && |st'.sessions| == |st.sessions| && st'.sessions[s].pc.Idle? && st'.sessions[s].out == x.out
            && st'.registry == st.registry && |st'.rooms| == |st.rooms|
            && forall i :: 0 <= i < |st.rooms| ==>
                 st'.rooms[i].queue == st.rooms[i].queue + if i == x.pc.inc
                   then [Envelope(s, x.sends, RequestEvent(x, s))] else []
  {
  }

  /** What a session sends on behalf of a client message is what the message asks for. */
  lemma RequestAsks<C>(message: Option<ClientMessage>, id: PlayerId, sender: C)
    requires AsksRoom(message)
    ensures Asks(message.value.data.value, id, sender, Request(message, id, sender))
  {
  }

  /** A client message handled at once puts one event on the channel registered for the room it
      addresses, or on that of the room it creates, and is answered as that finding demands. */
  lemma RequestAtOnce(st: State, s: SessionId)
    requires RegistryOk(st) && Enabled(st, TakeInput(s))
    ensures var x, message := st.sessions[s], Some(st.sessions[s].input[0]);
            var st', to := Requested(Apply(st, TakeInput(s)), s), Addressee(st.registry, message);
            && |st'.sessions| == |st.sessions| && st'.sessions[s].pc.Idle?
            && st'.sessions[s].out == x.out + PlayerTask.Heard(!x.clientGone, Reply(message, to.Some?, to.Some?))
            && |st.rooms| <= |st'.rooms|
            && (AsksRoom(message) ==> Asks(message.value.data.value, x.id, s, Request(message, x.id, s)))
            && (forall i :: 0 <= i < |st.rooms| ==>
                  st'.rooms[i].queue == st.rooms[i].queue
                    + if Some(i) == to then [Envelope(s, x.sends, Request(message, x.id, s))] else [])
            && (if AsksToJoin(message) && to.None? then
                  && |st'.rooms| == |st.rooms| + 1
                  && st'.registry == st.registry[message.value.data.value.roomId := |st.rooms|]
                  && st'.rooms[|st.rooms|].queue == [Envelope(s, x.sends, Request(message, x.id, s))]
                else
                  |st'.rooms| == |st.rooms| && st'.registry == st.registry)
  {
    TakenUp(st, s);
    var taken, message := Apply(st, TakeInput(s)), Some(st.sessions[s].input[0]);
    NoReplyYet(st.registry, message);
    if AsksRoom(message) {
      RequestAsks(message, st.sessions[s].id, s);
    }
    hide Asks, RegistryOk, Apply, RequestEvent, Request, Reply, RequestedConfig, Addressee, AsksToJoin;
    if RequestHalf(taken.sessions[s].pc) {
      SentOff(taken, s);
      hide Enabled;
      assert forall i :: 0 <= i < |st.rooms| ==> taken.rooms[i] == taken.rooms[..|st.rooms|][i];
    } else {
      NotSending(taken, s);
      hide Enabled;
    }
  }

  /** A message that opens a request is not answered while its room is there. */
  lemma NoReplyYet(registry: map<RoomId, IncId>, message: Option<ClientMessage>)
    ensures var to := Addressee(registry, message); to.Some? ==> Reply(message, true, true) == None
    ensures AsksToJoin(message) ==> Reply(message, false, false) == None
  {
  }

  lemma NotSending(st: State, s: SessionId)
    requires s < |st.sessions| && !RequestHalf(st.sessions[s].pc)
    ensures !Enabled(st, SendRequest(s))
  {
  }

  ghost function Inserted(st: State, s: SessionId): State {
    if Enabled(st, InsertJoined(s)) then Apply(st, InsertJoined(s)) else st
  }

  /** A room event handled at once: what the client hears and what the cache holds afterwards. */
  lemma EventAtOnce(st: State, s: SessionId)
    requires Enabled(st, TakeEvent(s))
    ensures var x, e := st.sessions[s], st.sessions[s].inbox[0].event;
            var st' := Inserted(Apply(st, TakeEvent(s)), s);
            && |st'.sessions| == |st.sessions|
            && st'.sessions[s].inbox == x.inbox[1..]
            && st'.sessions[s].pc.Panicked? == Panics(e)
            && (IsOwnJoin(e, x.id) ==>
                  var info, found := e.join.value, e.join.value.roomId in st.registry;
                  && st'.sessions[s].out == x.out + PlayerTask.Heard(!x.clientGone, Some(JoinAnswer(info, found)))
                  && st'.sessions[s].joined == if found then x.joined[info.roomId := st.registry[info.roomId]]
                    else x.joined)
            && (!Panics(e) && !IsOwnJoin(e, x.id) ==>
                  && st'.sessions[s].out == x.out + PlayerTask.Heard(!x.clientGone, Some(Notice(e, x.id)))
                  && st'.sessions[s].joined == Uncache(x.joined, e, x.id))
  {
  }

  /** The state once a departing session has sent the leaves to the rooms in `order`. */
  ghost function LeavesSent(st: State, s: SessionId, order: seq<RoomId>): State
    decreases |order|
  {
    if order == [] || !Enabled(st, SendLeave(s, order[0])) then st
    else LeavesSent(Apply(st, SendLeave(s, order[0])), s, order[1..])
  }

  /** The incarnation has been sent the session's leave, if its receiver is there and the handles
      name it; otherwise it is as before. */
  ghost predicate GotLeave(r: Incarnation, r': Incarnation, i: IncId, handles: map<RoomId, IncId>, s: SessionId,
      id: PlayerId) {
    if r.room.id in handles && handles[r.room.id] == i && !r.phase.Dropped? then
      exists no :: r' == r.(queue := r.queue + [Envelope(s, no, InputLeave(id))],
        sent := r.sent + [Envelope(s, no, InputLeave(id))])
    else
      r' == r
  }

  lemma {:induction false} LeavesSentIs(st: State, s: SessionId, order: seq<RoomId>)
    requires s < |st.sessions| && st.sessions[s].pc.LeavingRooms?
    requires HandlesOk(st.sessions[s].pc.remaining, st.rooms) && Enumerates(order, st.sessions[s].pc.remaining.Keys)
    ensures var x, st' := st.sessions[s], LeavesSent(st, s, order);
            && st'.players == st.players && st'.registry == st.registry
            && |st'.sessions| == |st.sessions| && st'.sessions[s].pc == LeavingRooms(map[]) &&
              st'.sessions[s].id == x.id
            && |st'.rooms| == |st.rooms|
            && forall i :: 0 <= i < |st.rooms| ==> GotLeave(st.rooms[i], st'.rooms[i], i, x.pc.remaining, s, x.id)
    decreases |order|
  {
    hide GotLeave, Apply, Enabled, Enumerates, HandlesOk;
    var x := st.sessions[s];
    var remaining := x.pc.remaining;
    if order == [] {
      NothingRemains(remaining);
      forall i | 0 <= i < |st.rooms| ensures GotLeave(st.rooms[i], st.rooms[i], i, remaining, s, x.id) {
        NoHandleNoLeave(st.rooms[i], i, s, x.id);
      }
    } else {
      var rid := order[0];
      FirstAndRest(order, remaining);
      OneLeaveSent(st, s, rid);
      var next := Apply(st, SendLeave(s, rid));
      LeavesSentIs(next, s, order[1..]);
      var st' := LeavesSent(st, s, order);
      forall i | 0 <= i < |st.rooms| ensures GotLeave(st.rooms[i], st'.rooms[i], i, remaining, s, x.id) {
        GotLeaveOf(st.rooms[i], next.rooms[i], st'.rooms[i], i, remaining, rid, s, x.id);
      }
    }
  }

  lemma NothingRemains(remaining: map<RoomId, IncId>)
    requires Enumerates([], remaining.Keys)
    ensures remaining == map[]
  {
    assert remaining.Keys == {};
  }

  lemma FirstAndRest(order: seq<RoomId>, remaining: map<RoomId, IncId>)
    requires order != [] && Enumerates(order, remaining.Keys)
    ensures order[0] in remaining && Enumerates(order[1..], (remaining - {order[0]}).Keys)
  {
    assert order[0] in order;
  }

  lemma NoHandleNoLeave(r: Incarnation, i: IncId, s: SessionId, id: PlayerId)
    ensures GotLeave(r, r, i, map[], s, id)
  {
  }

  lemma GotLeaveOf(r: Incarnation, r1: Incarnation, r2: Incarnation, i: IncId, remaining: map<RoomId, IncId>,
      rid: RoomId, s: SessionId, id: PlayerId)
    requires rid in remaining
    requires GotLeave(r, r1, i, map[rid := remaining[rid]], s, id) && GotLeave(r1, r2, i, remaining - {rid}, s, id)
    ensures GotLeave(r, r2, i, remaining, s, id)
  {
  }

  lemma OneLeaveSent(st: State, s: SessionId, rid: RoomId)
    requires s < |st.sessions| && st.sessions[s].pc.LeavingRooms?
    requires HandlesOk(st.sessions[s].pc.remaining, st.rooms) && rid in st.sessions[s].pc.remaining
    ensures Enabled(st, SendLeave(s, rid))
    ensures var x, st' := st.sessions[s], Apply(st, SendLeave(s, rid));
            && st'.players == st.players && st'.registry == st.registry
            && |st'.sessions| == |st.sessions| && st'.sessions[s].pc == LeavingRooms(x.pc.remaining - {rid}) &&
              st'.sessions[s].id == x.id
            && |st'.rooms| == |st.rooms|
            && HandlesOk(x.pc.remaining - {rid}, st'.rooms)
            && forall i :: 0 <= i < |st.rooms| ==>
              GotLeave(st.rooms[i], st'.rooms[i], i, map[rid := x.pc.remaining[rid]], s, x.id)
  {
    var x, st' := st.sessions[s], Apply(st, SendLeave(s, rid));
    var env := Envelope(s, x.sends, InputLeave(x.id));
    assert st'.rooms == Enqueue(st.rooms, x.pc.remaining[rid], env);
    hide Apply, Enabled;
    forall i | 0 <= i < |st.rooms| ensures GotLeave(st.rooms[i], st'.rooms[i], i, map[rid := x.pc.remaining[rid]], s,
      x.id) {
      assert i == x.pc.remaining[rid] ==> st.rooms[i].room.id == rid;
    }
  }

  /** A disconnect without interruption, whatever the order in which the cached rooms are visited,
      puts one leave on the channel of each of them that is still there and nothing on any other,
      and unregisters the id. */
  lemma DisconnectAtOnce(st: State, s: SessionId, order: seq<RoomId>)
    requires Enabled(st, Disconnect(s)) && SessionOk(st.sessions[s], st.rooms)
    requires Enumerates(order, st.sessions[s].joined.Keys)
    ensures Enabled(LeavesSent(Apply(st, Disconnect(s)), s, order), Unregister(s))
    ensures var x, st' := st.sessions[s], Apply(LeavesSent(Apply(st, Disconnect(s)), s, order), Unregister(s));
            && st'.players == st.players - {x.id} && st'.registry == st.registry
            && |st'.sessions| == |st.sessions| && st'.sessions[s].pc.Finished?
            && |st'.rooms| == |st.rooms|
            && forall i :: 0 <= i < |st.rooms| ==> GotLeave(st.rooms[i], st'.rooms[i], i, x.joined, s, x.id)
  {
    hide Enumerates, GotLeave, LeavesSent, HandlesOk;
    LeavesSentIs(Apply(st, Disconnect(s)), s, order);
  }
}
