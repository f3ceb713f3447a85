/** The joined-rooms cache and the client's own picture of its rooms, against true membership. */
module Cache {
  import opened Wrappers
  import opened Events
  import opened RoomCore
  import opened PlayerCore
  import opened Protocol
  import opened Rooms
  import opened Membership

  /** An own join or own leave of the room. */
  predicate Own(e: OutputEvent, rid: RoomId, id: PlayerId) {
    || (IsOwnJoin(e, id) && e.join.value.roomId == rid)
    || (IsOwnLeave(e, id) && e.leave.value.roomId == rid)
  }

  ghost predicate Quiet(stream: seq<Delivery>, rid: RoomId, id: PlayerId) {
    forall k :: 0 <= k < |stream| ==> !Own(stream[k].event, rid, id)
  }

  /** Events of the room id on their way to the session, received or not. */
  function Rest(st: State, s: SessionId, rid: RoomId): seq<Delivery>
    requires s < |st.sessions|
  {
    st.sessions[s].inbox + Pending(st, s, rid)
  }

  /** The standing the session has learnt of so far. */
  function Learnt(x: Session, rid: RoomId): Standing {
    Follow(Outside, x.handled, rid, x.id)
  }

  predicate Inserting(x: Session, rid: RoomId) {
    x.pc.JoinedHalf? && x.pc.info.roomId == rid
  }

  /** The channel a session caches for the room, or has just looked up and is about to cache. */
  function Known(x: Session, rid: RoomId): Option<IncId> {
    if Inserting(x, rid) then x.pc.found else LookUp(x.joined, rid)
  }

  /** A live session caches a room only if the last own event it handled was a join; and if no
      own event is on its way, the handle it caches, or is about to cache, is the registered one. */
  ghost predicate CacheOk(st: State, s: SessionId, rid: RoomId)
    requires s < |st.sessions|
  {
    var x := st.sessions[s];
    var learnt := Learnt(x, rid);
    && (!learnt.Inside? ==> rid !in x.joined)
    && (Inserting(x, rid) ==>
          && rid !in x.joined
          && learnt == Inside(set p | p in x.pc.info.roomPlayerIds)
          && (Quiet(Rest(st, s, rid), rid, x.id) ==> x.pc.found.Some? && x.pc.found == LookUp(st.registry, rid)))
    && (learnt.Inside? && !Inserting(x, rid) && Quiet(Rest(st, s, rid), rid, x.id) ==>
          rid in x.joined && rid in st.registry && x.joined[rid] == st.registry[rid])
  }

  /** The client's picture of a room, folded from the messages it was sent. */
  function ClientAdvance(v: Standing, m: ServerMessage, rid: RoomId): Standing {
    match m
    case JoinResponse(r, players, _, code) => if r == rid && code == NoError then Inside(set p | p in players) else v
    case JoinNotification(r, p) => if r == rid && v.Inside? then Inside(v.keys + {p}) else v
    case LeaveResponse(r, code) => if r == rid && code == NoError then Outside else v
    case LeaveNotification(r, p) => if r == rid && v.Inside? then Inside(v.keys - {p}) else v
    case _ => v
  }

  function ClientView(out: seq<ServerMessage>, rid: RoomId): Standing {
    if out == [] then Outside else ClientAdvance(ClientView(out[..|out| - 1], rid), out[|out| - 1], rid)
  }

  /** A client still connected sees what its session has learnt of the rooms it caches. */
  ghost predicate ClientOk(x: Session, rid: RoomId) {
    !x.clientGone ==> ClientView(x.out, rid) == if rid in x.joined then Learnt(x, rid) else Outside
  }

  // ---------- Folding ----------

  lemma {:induction false} QuietKeepsStanding(v: Standing, stream: seq<Delivery>, rid: RoomId, id: PlayerId)
    requires Quiet(stream, rid, id) && !Follow(v, stream, rid, id).Broken?
    ensures v.Inside? <==> Follow(v, stream, rid, id).Inside?
  {
    if stream != [] {
      var front := stream[..|stream| - 1];
      assert !Own(stream[|stream| - 1].event, rid, id);
      QuietKeepsStanding(v, front, rid, id);
    }
  }

  lemma SayView(x: Session, m: ServerMessage, rid: RoomId)
    ensures !x.clientGone ==> ClientView(Say(x, m).out, rid) == ClientAdvance(ClientView(x.out, rid), m, rid)
  {
    if !x.clientGone {
      assert (x.out + [m])[..|x.out + [m]| - 1] == x.out;
    }
  }

  /** With no own event on its way, what the session has learnt is the truth. */
  lemma LearntIsTrue(st: State, s: SessionId, rid: RoomId)
    requires s < |st.sessions| && Coherent(st, s, rid)
    ensures !Learnt(st.sessions[s], rid).Broken?
    ensures Follow(Learnt(st.sessions[s], rid), Rest(st, s, rid), rid, st.sessions[s].id) == Truth(st, s, rid)
    ensures Quiet(Rest(st, s, rid), rid, st.sessions[s].id) ==>
      (Learnt(st.sessions[s], rid).Inside? <==> Truth(st, s, rid).Inside?)
  {
    var x := st.sessions[s];
    assert Feed(st, s, rid) == x.handled + Rest(st, s, rid);
    FollowConcat(Outside, x.handled, Rest(st, s, rid), rid, x.id);
    if Learnt(x, rid).Broken? {
      BrokenStaysBroken(Rest(st, s, rid), rid, x.id);
    }
    if Quiet(Rest(st, s, rid), rid, x.id) {
      QuietKeepsStanding(Learnt(x, rid), Rest(st, s, rid), rid, x.id);
    }
  }

  // ---------- Steps that leave handled events and cache alone ----------

  lemma CacheKept(st: State, st': State, s: SessionId, rid: RoomId)
    requires RegistryOk(st) && RegistryOk(st') && s < |st.sessions| && s < |st'.sessions|
    requires CacheOk(st, s, rid) && Coherent(st', s, rid)
    requires var x, x' := st.sessions[s], st'.sessions[s];
             x'.handled == x.handled && x'.joined == x.joined && x'.id == x.id
             && (Inserting(x', rid) || Inserting(x, rid) ==> x'.pc == x.pc)
    requires rid in st.registry && rid in st'.registry ==> st'.registry[rid] == st.registry[rid]
    requires Quiet(Rest(st', s, rid), rid, st.sessions[s].id) ==> Quiet(Rest(st, s, rid), rid, st.sessions[s].id)
    ensures CacheOk(st', s, rid)
  {
    hide RegistryOk, Quiet, Coherent, Follow;
    LearntIsTrue(st', s, rid);
  }

  lemma QuietParts(a: seq<Delivery>, b: seq<Delivery>, rid: RoomId, id: PlayerId)
    ensures Quiet(a + b, rid, id) <==> Quiet(a, rid, id) && Quiet(b, rid, id)
  {
    if Quiet(a + b, rid, id) {
      forall k | 0 <= k < |a| ensures !Own(a[k].event, rid, id) { assert (a + b)[k] == a[k]; }
      forall k | 0 <= k < |b| ensures !Own(b[k].event, rid, id) { assert (a + b)[|a| + k] == b[k]; }
    }
  }

  /** Room steps only add to what is on its way. */
  lemma RoomStepRest(st: State, step: Step, s: SessionId, rid: RoomId)
    requires Enabled(st, step) && RoomStep(step) && s < |st.sessions| && s < |Apply(st, step).sessions|
    requires RegistryOk(st) && RegistryOk(Apply(st, step))
    requires RoomOk(st.rooms[step.i]) && Alive(st.sessions[s].pc)
    ensures var id := st.sessions[s].id;
            Quiet(Rest(Apply(st, step), s, rid), rid, id) ==> Quiet(Rest(st, s, rid), rid, id)
    ensures rid in st.registry && rid in Apply(st, step).registry ==> Apply(st, step).registry[rid] == st.registry[rid]
  {
    hide RoomOk, Quiet, Handle;
    var st', id := Apply(st, step), st.sessions[s].id;
    OthersUntouched(st, step, s);
    QuietParts(st.sessions[s].inbox, Pending(st, s, rid), rid, id);
    QuietParts(st'.sessions[s].inbox, Pending(st', s, rid), rid, id);
    if step.RoomDeliver? {
      DeliverRest(st, step.i, s, rid);
    } else {
      assert st'.sessions[s].inbox == st.sessions[s].inbox;
      RoomStepPending(st, step, s, rid);
      assert Quiet([], rid, id) by { NothingIsQuiet(rid, id); }
    }
  }

  lemma NothingIsQuiet(rid: RoomId, id: PlayerId)
    ensures Quiet([], rid, id)
  {
  }

  lemma RoomStepPending(st: State, step: Step, s: SessionId, rid: RoomId)
    requires Enabled(st, step) && RoomStep(step) && !step.RoomDeliver?
    requires RegistryOk(st) && RegistryOk(Apply(st, step))
    requires RoomOk(st.rooms[step.i])
    ensures Pending(st, s, rid) == [] || Pending(Apply(st, step), s, rid) == Pending(st, s, rid)
  {
    hide Handle, FoldLog;
  }

  lemma DeliverRest(st: State, i: IncId, s: SessionId, rid: RoomId)
    requires Enabled(st, RoomDeliver(i)) && s < |st.sessions| && s < |Apply(st, RoomDeliver(i)).sessions|
    requires Alive(st.sessions[s].pc)
    ensures var id := st.sessions[s].id;
            Quiet(Rest(Apply(st, RoomDeliver(i)), s, rid), rid, id) ==> Quiet(Rest(st, s, rid), rid, id)
  {
    DeliverPending(st, i, s, rid);
    hide Quiet, Apply, Pending;
    var st', id := Apply(st, RoomDeliver(i)), st.sessions[s].id;
    var post := st.rooms[i].outbox[0];
    var more := if post.to == s then [post.delivery] else [];
    QuietParts(st.sessions[s].inbox, more, rid, id);
    QuietParts(st'.sessions[s].inbox, Pending(st', s, rid), rid, id);
    QuietParts(st.sessions[s].inbox, Pending(st, s, rid), rid, id);
    QuietParts(more, Pending(st', s, rid), rid, id);
  }

  // ---------- A session's own steps ----------

  /** Own steps outside the handling of events. */
  lemma OwnStepKeepsCache(st: State, step: Step, s: SessionId, rid: RoomId)
    requires Enabled(st, step) && !RoomStep(step) && s < |st.sessions| && s < |Apply(st, step).sessions|
    requires RegistryOk(st) && RegistryOk(Apply(st, step))
    requires Serving(st.sessions[s].pc) && Serving(Apply(st, step).sessions[s].pc)
    requires !step.Connect? && step.s == s ==> !step.TakeEvent? && !step.InsertJoined?
    requires CacheOk(st, s, rid) && Coherent(Apply(st, step), s, rid)
    ensures CacheOk(Apply(st, step), s, rid)
  {
    SessionStepFacts(st, step, s, rid);
    hide RegistryOk, Quiet, Coherent, Follow, Apply, Enabled, CacheOk, Pending;
    CacheKept(st, Apply(st, step), s, rid);
  }

  lemma SessionStepFacts(st: State, step: Step, s: SessionId, rid: RoomId)
    requires Enabled(st, step) && !RoomStep(step) && s < |st.sessions| && s < |Apply(st, step).sessions|
    requires RegistryOk(st) && RegistryOk(Apply(st, step))
    requires Serving(st.sessions[s].pc) && Serving(Apply(st, step).sessions[s].pc)
    requires !step.Connect? && step.s == s ==> !step.TakeEvent? && !step.InsertJoined?
    ensures EventsUntouched(st.sessions[s], Apply(st, step).sessions[s])
    ensures rid in st.registry && rid in Apply(st, step).registry ==> Apply(st, step).registry[rid] == st.registry[rid]
    ensures Pending(Apply(st, step), s, rid) == Pending(st, s, rid)
  {
    SessionStepPending(st, step, s, rid);
    hide Pending, RegistryOk, Apply;
    if step.Connect? || step.s != s {
      OthersUntouched(st, step, s);
    } else {
      OwnStepFacts(st, step);
    }
  }

  lemma OwnStepFacts(st: State, step: Step)
    requires Enabled(st, step) && !RoomStep(step) && !step.Connect? && !step.TakeEvent? && !step.InsertJoined?
    requires Serving(st.sessions[step.s].pc)
    requires step.s < |Apply(st, step).sessions| && Serving(Apply(st, step).sessions[step.s].pc)
    ensures EventsUntouched(st.sessions[step.s], Apply(st, step).sessions[step.s])
  {
    hide InputStep, RequestStep;
    if step.TakeInput? {
      InputFacts(st, step.s);
    } else if step.SendRequest? {
      RequestFacts(st, step.s);
    }
  }

  lemma SessionStepPending(st: State, step: Step, s: SessionId, rid: RoomId)
    requires Enabled(st, step) && !RoomStep(step)
    requires RegistryOk(st) && RegistryOk(Apply(st, step))
    ensures rid in st.registry && rid in Apply(st, step).registry ==> Apply(st, step).registry[rid] == st.registry[rid]
    ensures Pending(Apply(st, step), s, rid) == Pending(st, s, rid)
  {
    if Creates(st, step) {
      CreateKeepsOthers(st, step);
    } else {
      SessionStepKeepsRooms(st, step);
    }
    hide Apply;
  }

  /** Handling an event that is not an own event of the room. */
  lemma TakeOtherEvent(st: State, s: SessionId, rid: RoomId)
    requires Enabled(st, TakeEvent(s)) && Serving(Apply(st, TakeEvent(s)).sessions[s].pc)
    requires RegistryOk(st) && RegistryOk(Apply(st, TakeEvent(s)))
    requires CacheOk(st, s, rid) && Coherent(Apply(st, TakeEvent(s)), s, rid)
    requires !Own(st.sessions[s].inbox[0].event, rid, st.sessions[s].id)
    ensures CacheOk(Apply(st, TakeEvent(s)), s, rid)
  {
    TakeEventFacts(st, s, rid);
    var st', x := Apply(st, TakeEvent(s)), st.sessions[s];
    LearntIsTrue(st', s, rid);
    QuietParts([x.inbox[0]], Rest(st', s, rid), rid, x.id);
    QuietKeepsStanding(Learnt(x, rid), [x.inbox[0]], rid, x.id);
  }

  lemma TakeEventFacts(st: State, s: SessionId, rid: RoomId)
    requires Enabled(st, TakeEvent(s))
    requires RegistryOk(st) && RegistryOk(Apply(st, TakeEvent(s)))
    ensures var x, x' := st.sessions[s], Apply(st, TakeEvent(s)).sessions[s];
            && x'.handled == x.handled + [x.inbox[0]]
            && x'.id == x.id
            && Apply(st, TakeEvent(s)).registry == st.registry
            && Rest(st, s, rid) == [x.inbox[0]] + Rest(Apply(st, TakeEvent(s)), s, rid)
            && Learnt(x', rid) == Advance(Learnt(x, rid), x.inbox[0].event, rid, x.id)
            && Follow(Learnt(x, rid), [x.inbox[0]], rid, x.id) == Learnt(x', rid)
  {
    hide RegistryOk, Follow, Advance;
    TakeEventSession(st, s);
    var x, x' := st.sessions[s], Apply(st, TakeEvent(s)).sessions[s];
    assert Pending(Apply(st, TakeEvent(s)), s, rid) == Pending(st, s, rid);
    assert Rest(st, s, rid) == [x.inbox[0]] + Rest(Apply(st, TakeEvent(s)), s, rid);
    FollowAppend(Outside, x.handled, x.inbox[0], rid, x.id);
    FollowOne(Learnt(x, rid), x.inbox[0], rid, x.id);
  }

  lemma TakeEventSession(st: State, s: SessionId)
    requires Enabled(st, TakeEvent(s))
    ensures var x, x' := st.sessions[s], Apply(st, TakeEvent(s)).sessions[s];
            && x.inbox == [x.inbox[0]] + x'.inbox
            && x'.handled == x.handled + [x.inbox[0]]
            && x'.id == x.id
            && Apply(st, TakeEvent(s)).registry == st.registry
            && Apply(st, TakeEvent(s)).rooms == st.rooms
  {
  }

  lemma TakeOwnLeave(st: State, s: SessionId, rid: RoomId)
    requires Enabled(st, TakeEvent(s))
    requires RegistryOk(st) && RegistryOk(Apply(st, TakeEvent(s)))
    requires CacheOk(st, s, rid) && Coherent(Apply(st, TakeEvent(s)), s, rid)
    requires var e := st.sessions[s].inbox[0].event;
             IsOwnLeave(e, st.sessions[s].id) && e.leave.value.roomId == rid
    ensures CacheOk(Apply(st, TakeEvent(s)), s, rid)
  {
    TakeEventFacts(st, s, rid);
    LearntIsTrue(Apply(st, TakeEvent(s)), s, rid);
  }

  /** Taking an own join: if no own event follows, the lookup finds the session's own room. */
  lemma TakeOwnJoin(st: State, s: SessionId, rid: RoomId)
    requires Enabled(st, TakeEvent(s))
    requires RegistryOk(st) && RegistryOk(Apply(st, TakeEvent(s)))
    requires CacheOk(st, s, rid) && Coherent(Apply(st, TakeEvent(s)), s, rid)
    requires var e := st.sessions[s].inbox[0].event;
             IsOwnJoin(e, st.sessions[s].id) && e.join.value.roomId == rid
    ensures CacheOk(Apply(st, TakeEvent(s)), s, rid)
  {
    TakeEventFacts(st, s, rid);
    LearntIsTrue(Apply(st, TakeEvent(s)), s, rid);
  }

  lemma InsertCache(st: State, s: SessionId, rid: RoomId)
    requires Enabled(st, InsertJoined(s))
    requires RegistryOk(st) && RegistryOk(Apply(st, InsertJoined(s)))
    requires CacheOk(st, s, rid)
    ensures CacheOk(Apply(st, InsertJoined(s)), s, rid)
  {
    var st' := Apply(st, InsertJoined(s));
    assert Rest(st', s, rid) == Rest(st, s, rid);
    assert Learnt(st'.sessions[s], rid) == Learnt(st.sessions[s], rid);
  }

  /** The cache of a session that has just logged in is empty, as is what it has learnt. */
  lemma LoginCache(st: State, step: Step, rid: RoomId)
    requires Enabled(st, step) && step.TryLogin? && SessionsOk(st)
    requires step.s < |Apply(st, step).sessions| && Looping(Apply(st, step).sessions[step.s].pc)
    ensures CacheOk(Apply(st, step), step.s, rid)
    ensures Apply(st, step).sessions[step.s].joined == map[]
  {
    assert SessionOk(st.sessions[step.s], st.rooms);
    LoginSucceeds(st, step);
    hide Apply, Enabled, SessionsOk;
    assert Learnt(Apply(st, step).sessions[step.s], rid) == Outside;
  }

  // ---------- The client's picture ----------

  /** Saying something that is no successful join or leave answer leaves the picture alone. */
  predicate Neutral(m: ServerMessage) {
    match m
    case LoginResponse(_) => true
    case JoinResponse(_, _, _, code) => code != NoError
    case LeaveResponse(_, code) => code != NoError
    case _ => false
  }

  lemma OwnStepKeepsClient(st: State, step: Step, rid: RoomId)
    requires Enabled(st, step) && !RoomStep(step) && !step.Connect? && !step.TakeEvent? && !step.InsertJoined?
    requires Looping(st.sessions[step.s].pc) && ClientOk(st.sessions[step.s], rid)
    requires step.s < |Apply(st, step).sessions| && Looping(Apply(st, step).sessions[step.s].pc)
    ensures ClientOk(Apply(st, step).sessions[step.s], rid)
  {
    hide Follow, ClientView;
    var x, x' := st.sessions[step.s], Apply(st, step).sessions[step.s];
    OwnStepFacts(st, step);
    if x'.out != x.out {
      OwnStepSays(st, step);
      SayView(x, x'.out[|x.out|], rid);
    }
  }

  lemma OwnStepSays(st: State, step: Step)
    requires Enabled(st, step) && !RoomStep(step) && !step.Connect? && !step.TakeEvent? && !step.InsertJoined?
    requires Looping(st.sessions[step.s].pc)
    requires step.s < |Apply(st, step).sessions| && Looping(Apply(st, step).sessions[step.s].pc)
    requires Apply(st, step).sessions[step.s].out != st.sessions[step.s].out
    ensures var x, x' := st.sessions[step.s], Apply(st, step).sessions[step.s];
            && |x'.out| == |x.out| + 1
            && x'.clientGone == x.clientGone
            && x'.out == Say(x, x'.out[|x.out|]).out
            && Neutral(x'.out[|x.out|])
  {
    if step.TakeInput? {
      InputSays(st, step.s);
      assert Apply(st, step) == InputStep(st, step.s);
    } else {
      assert step.SendRequest? && Apply(st, step) == RequestStep(st, step.s);
      RequestSays(st, step.s);
    }
    hide Apply, Enabled, InputStep, RequestStep;
  }

  ghost predicate SaysNeutral(x: Session, x': Session) {
    x'.out != x.out ==>
      && |x'.out| == |x.out| + 1
      && x'.clientGone == x.clientGone
      && x'.out == Say(x, x'.out[|x.out|]).out
      && Neutral(x'.out[|x.out|])
  }

  lemma InputSays(st: State, s: SessionId)
    requires s < |st.sessions| && st.sessions[s].input != []
    ensures SaysNeutral(st.sessions[s], InputStep(st, s).sessions[s])
  {
  }

  lemma RequestSays(st: State, s: SessionId)
    requires s < |st.sessions| && RequestHalf(st.sessions[s].pc) && st.sessions[s].pc.inc < |st.rooms|
    ensures SaysNeutral(st.sessions[s], RequestStep(st, s).sessions[s])
  {
    hide Enqueue, RequestEvent;
  }

  /** The notice about an event changes the client's picture as the event changes the standing. */
  lemma NoticeTracks(v: Standing, e: OutputEvent, rid: RoomId, id: PlayerId)
    requires !Panics(e) && !IsOwnJoin(e, id) && !Advance(v, e, rid, id).Broken?
    ensures v.Inside? ==> ClientAdvance(v, Notice(e, id), rid) == Advance(v, e, rid, id)
    ensures ClientAdvance(Outside, Notice(e, id), rid) == Outside
    ensures v.Inside? && !(IsOwnLeave(e, id) && e.leave.value.roomId == rid) ==> Advance(v, e, rid, id).Inside?
  {
  }

  lemma OwnJoinAdvance(v: Standing, e: OutputEvent, rid: RoomId, id: PlayerId)
    requires IsOwnJoin(e, id) && !Advance(v, e, rid, id).Broken?
    ensures if e.join.value.roomId == rid then v.Outside? else Advance(v, e, rid, id) == v
  {
  }

  lemma NoticeClient(x: Session, e: OutputEvent, rid: RoomId, v: Standing)
    requires !Panics(e) && !IsOwnJoin(e, x.id) && !Advance(v, e, rid, x.id).Broken?
    requires !v.Inside? ==> rid !in x.joined
    requires !x.clientGone && ClientView(x.out, rid) == if rid in x.joined then v else Outside
    ensures ClientView(Say(x, Notice(e, x.id)).out, rid) == if rid in Uncache(x.joined, e, x.id)
      then Advance(v, e, rid, x.id) else Outside
  {
    SayView(x, Notice(e, x.id), rid);
    NoticeTracks(v, e, rid, x.id);
    UncachedIsOutside(x.joined, v, e, rid, x.id);
    hide ClientView, ClientAdvance, Notice, Advance, Uncache;
  }

  lemma UncachedIsOutside(joined: map<RoomId, IncId>, v: Standing, e: OutputEvent, rid: RoomId, id: PlayerId)
    requires !Advance(v, e, rid, id).Broken?
    ensures rid in joined && v.Inside? && rid !in Uncache(joined, e, id) ==> Advance(v, e, rid, id) == Outside
  {
  }

  lemma TakeEventTells(st: State, s: SessionId)
    requires Enabled(st, TakeEvent(s)) && Looping(Apply(st, TakeEvent(s)).sessions[s].pc)
    ensures var x, x' := st.sessions[s], Apply(st, TakeEvent(s)).sessions[s];
            var e := x.inbox[0].event;
            && !Panics(e) && x'.clientGone == x.clientGone
            && if IsOwnJoin(e, x.id) then x'.out == x.out && x'.joined == x.joined
               else x'.out == Say(x, Notice(e, x.id)).out && x'.joined == Uncache(x.joined, e, x.id)
  {
    hide Notice, Uncache;
  }

  lemma TakeEventClient(st: State, s: SessionId, rid: RoomId)
    requires Enabled(st, TakeEvent(s)) && Looping(Apply(st, TakeEvent(s)).sessions[s].pc)
    requires RegistryOk(st) && RegistryOk(Apply(st, TakeEvent(s)))
    requires CacheOk(st, s, rid) && Coherent(Apply(st, TakeEvent(s)), s, rid)
    requires ClientOk(st.sessions[s], rid)
    ensures ClientOk(Apply(st, TakeEvent(s)).sessions[s], rid)
  {
    var x := st.sessions[s];
    var e := x.inbox[0].event;
    TakeEventFacts(st, s, rid);
    LearntIsTrue(Apply(st, TakeEvent(s)), s, rid);
    hide Follow, ClientView, Coherent, RegistryOk, Rest, Quiet, ClientAdvance, Notice, Advance, Learnt, Uncache;
    TakeEventTells(st, s);
    hide Apply, Enabled;
    if IsOwnJoin(e, x.id) {
      OwnJoinAdvance(Learnt(x, rid), e, rid, x.id);
    } else if !x.clientGone {
      NoticeClient(x, e, rid, Learnt(x, rid));
    }
  }

  lemma InsertClient(st: State, s: SessionId, rid: RoomId)
    requires Enabled(st, InsertJoined(s)) && RegistryOk(st)
    requires CacheOk(st, s, rid) && ClientOk(st.sessions[s], rid)
    ensures ClientOk(Apply(st, InsertJoined(s)).sessions[s], rid)
  {
    hide Follow, ClientView, RegistryOk, Rest, Quiet;
    var x := st.sessions[s];
    SayView(x, JoinAnswer(x.pc.info, x.pc.found.Some?), rid);
  }

  lemma LoginClient(st: State, step: Step, rid: RoomId)
    requires Enabled(st, step) && step.TryLogin? && SessionsOk(st)
    requires ClientView(st.sessions[step.s].out, rid) == Outside
    requires step.s < |Apply(st, step).sessions| && Looping(Apply(st, step).sessions[step.s].pc)
    ensures ClientOk(Apply(st, step).sessions[step.s], rid)
  {
    assert SessionOk(st.sessions[step.s], st.rooms);
    LoginSucceeds(st, step);
    hide Apply, Enabled, SessionsOk;
    SayView(st.sessions[step.s], LoginResponse(NoError), rid);
    assert Learnt(Apply(st, step).sessions[step.s], rid) == Outside;
  }

  // ---------- Together ----------

  ghost predicate CacheInv(st: State) {
    && (forall s, rid :: 0 <= s < |st.sessions| && Alive(st.sessions[s].pc) ==> CacheOk(st, s, rid))
    && (forall s, rid :: 0 <= s < |st.sessions| && Looping(st.sessions[s].pc) ==> ClientOk(st.sessions[s], rid))
    && (forall s :: 0 <= s < |st.sessions| && st.sessions[s].pc.AwaitLogin? ==> st.sessions[s].out == [])
  }

  lemma LoopingBefore(st: State, step: Step, s: SessionId)
    requires Enabled(st, step) && s < |Apply(st, step).sessions| && Looping(Apply(st, step).sessions[s].pc)
    ensures s < |st.sessions|
    ensures !(step.TryLogin? && step.s == s) ==> Looping(st.sessions[s].pc)
    ensures step.TryLogin? && step.s == s ==> st.sessions[s].pc.AwaitLogin?
  {
    SessionCount(st, step);
    if s < |st.sessions| && (RoomStep(step) || step.Connect? || step.s != s) {
      OthersUntouched(st, step, s);
    }
  }

  lemma ServingBefore(st: State, step: Step, s: SessionId)
    requires Enabled(st, step) && s < |Apply(st, step).sessions| && Serving(Apply(st, step).sessions[s].pc)
    ensures s < |st.sessions|
    ensures !(step.TryLogin? && step.s == s) ==> Serving(st.sessions[s].pc)
    ensures step.TryLogin? && step.s == s ==> Looping(Apply(st, step).sessions[s].pc)
  {
    SessionCount(st, step);
    if s < |st.sessions| && (RoomStep(step) || step.Connect? || step.s != s) {
      OthersUntouched(st, step, s);
    }
  }

  /** A session that has not logged in has heard and cached nothing. */
  lemma StrangerCache(st: State, s: SessionId, rid: RoomId)
    requires SessionsOk(st) && s < |st.sessions| && Alive(st.sessions[s].pc) && !Serving(st.sessions[s].pc)
    ensures CacheOk(st, s, rid)
  {
    assert SessionOk(st.sessions[s], st.rooms);
    hide SessionsOk, SessionOk, Quiet, Rest;
    assert Learnt(st.sessions[s], rid) == Outside;
  }

  lemma CacheStep(st: State, step: Step, s: SessionId, rid: RoomId)
    requires Inv(st) && CacheInv(st) && Enabled(st, step)
    requires RegistryOk(Apply(st, step)) && SessionsOk(Apply(st, step)) && ViewInv(Apply(st, step))
    requires s < |Apply(st, step).sessions| && Alive(Apply(st, step).sessions[s].pc)
    ensures CacheOk(Apply(st, step), s, rid)
  {
    hide RoomOk, SentOk, MembersOk, SessionsOk, FirstEventDue, Coherent, RegistryOk, CacheOk, ClientOk, Apply, Enabled;
    assert Coherent(Apply(st, step), s, rid);
    if Serving(Apply(st, step).sessions[s].pc) {
      ServingBefore(st, step, s);
      ServingStep(st, step, s, rid);
    } else {
      StrangerCache(Apply(st, step), s, rid);
    }
  }

  lemma ServingStep(st: State, step: Step, s: SessionId, rid: RoomId)
    requires Inv(st) && CacheInv(st) && Enabled(st, step)
    requires RegistryOk(Apply(st, step))
    requires s < |Apply(st, step).sessions| && Serving(Apply(st, step).sessions[s].pc) && s < |st.sessions|
    requires if step.TryLogin? && step.s == s then Looping(Apply(st, step).sessions[s].pc)
      else Serving(st.sessions[s].pc)
    requires Coherent(Apply(st, step), s, rid)
    ensures CacheOk(Apply(st, step), s, rid)
  {
    hide RoomOk, SentOk, MembersOk, SessionsOk, FirstEventDue, Coherent, RegistryOk, CacheOk, ClientOk, Apply, Enabled;
    if step.TryLogin? && step.s == s {
      LoginCache(st, step, rid);
    } else if RoomStep(step) {
      RoomStepInRange(st, step);
      RoomStepRest(st, step, s, rid);
      OthersUntouched(st, step, s);
      CacheKept(st, Apply(st, step), s, rid);
    } else if step.InsertJoined? && step.s == s {
      InsertCache(st, s, rid);
    } else if step.TakeEvent? && step.s == s {
      TakeEventCache(st, s, rid);
    } else {
      OwnStepKeepsCache(st, step, s, rid);
    }
  }

  lemma RoomStepInRange(st: State, step: Step)
    requires Enabled(st, step) && RoomStep(step)
    ensures step.i < |st.rooms|
  {
  }

  lemma TakeEventCache(st: State, s: SessionId, rid: RoomId)
    requires Enabled(st, TakeEvent(s)) && Serving(Apply(st, TakeEvent(s)).sessions[s].pc)
    requires RegistryOk(st) && RegistryOk(Apply(st, TakeEvent(s)))
    requires CacheOk(st, s, rid) && Coherent(Apply(st, TakeEvent(s)), s, rid)
    ensures CacheOk(Apply(st, TakeEvent(s)), s, rid)
  {
    hide RegistryOk, CacheOk, Coherent, Apply;
    var e, id := st.sessions[s].inbox[0].event, st.sessions[s].id;
    if !Own(e, rid, id) {
      TakeOtherEvent(st, s, rid);
    } else if IsOwnLeave(e, id) {
      TakeOwnLeave(st, s, rid);
    } else {
      TakeOwnJoin(st, s, rid);
    }
  }

  lemma ClientStep(st: State, step: Step, s: SessionId, rid: RoomId)
    requires Inv(st) && CacheInv(st) && Enabled(st, step)
    requires RegistryOk(Apply(st, step)) && ViewInv(Apply(st, step))
    requires s < |Apply(st, step).sessions| && Looping(Apply(st, step).sessions[s].pc)
    ensures ClientOk(Apply(st, step).sessions[s], rid)
  {
    hide RoomOk, SentOk, MembersOk, SessionsOk, FirstEventDue, Coherent, RegistryOk, CacheOk, ClientOk, Apply, Enabled;
    LoopingBefore(st, step, s);
    assert Coherent(Apply(st, step), s, rid);
    if step.TryLogin? && step.s == s {
      LoginClient(st, step, rid);
    } else if RoomStep(step) || step.Connect? || step.s != s {
      OthersUntouched(st, step, s);
      SameClient(st.sessions[s], Apply(st, step).sessions[s], rid);
    } else if step.InsertJoined? {
      InsertClient(st, s, rid);
    } else if step.TakeEvent? {
      TakeEventClient(st, s, rid);
    } else {
      OwnStepKeepsClient(st, step, rid);
    }
  }

  lemma SameClient(x: Session, x': Session, rid: RoomId)
    requires ClientOk(x, rid) && x' == x.(inbox := x'.inbox)
    ensures ClientOk(x', rid)
  {
  }

  lemma StillAwaiting(st: State, step: Step)
    requires Enabled(st, step) && !RoomStep(step) && !step.Connect?
    requires step.s < |Apply(st, step).sessions| && Apply(st, step).sessions[step.s].pc.AwaitLogin?
    ensures st.sessions[step.s].pc.AwaitLogin? && Apply(st, step).sessions[step.s].out == st.sessions[step.s].out
  {
    hide Judge;
    if step.TryLogin? {
      assert Apply(st, step) == LoginStep(st, step.s);
      hide Apply;
    } else if !step.ClientSend? && !step.ClientClose? {
      LoopingAwaitsNothing(st, step);
      hide Apply, Enabled;
    }
  }

  lemma LoopingAwaitsNothing(st: State, step: Step)
    requires Enabled(st, step) && !RoomStep(step) && !step.Connect?
    requires !step.TryLogin? && !step.ClientSend? && !step.ClientClose?
    ensures step.s < |Apply(st, step).sessions| && !Apply(st, step).sessions[step.s].pc.AwaitLogin?
  {
    hide Enqueue, RequestEvent, Notice, JoinAnswer;
  }

  lemma NewSessions(st: State, step: Step, s: SessionId)
    requires Enabled(st, step) && |st.sessions| <= s < |Apply(st, step).sessions|
    ensures Apply(st, step).sessions[s].out == []
  {
    SessionCount(st, step);
    if step.Connect? {
      assert Apply(st, step).sessions[s] == NEW_SESSION;
    }
    hide Apply, Enabled;
  }

  lemma SilentBeforeLogin(st: State, step: Step, s: SessionId)
    requires CacheInv(st) && Enabled(st, step)
    requires s < |Apply(st, step).sessions| && Apply(st, step).sessions[s].pc.AwaitLogin?
    ensures Apply(st, step).sessions[s].out == []
  {
    assert s < |st.sessions| && st.sessions[s].pc.AwaitLogin? ==> st.sessions[s].out == [];
    hide CacheInv;
    if s < |st.sessions| && (RoomStep(step) || step.Connect? || step.s != s) {
      OthersUntouched(st, step, s);
      hide Apply, Enabled;
    } else if s < |st.sessions| {
      StillAwaiting(st, step);
      hide Apply, Enabled;
    } else {
      NewSessions(st, step, s);
      hide Apply, Enabled;
    }
  }

  lemma {:induction false} CacheHolds(bearer: string, steps: seq<Step>)
    requires Valid(bearer, steps)
    ensures CacheInv(Exec(bearer, steps))
  {
    hide RoomOk, SentOk, MembersOk, SessionsOk, FirstEventDue, CacheOk, ClientOk, Coherent, Apply;
    InvHolds(bearer, steps);
    if steps != [] {
      var before, step := Exec(bearer, steps[..|steps| - 1]), steps[|steps| - 1];
      CacheHolds(bearer, steps[..|steps| - 1]);
      InvHolds(bearer, steps[..|steps| - 1]);
      ViewHolds(bearer, steps);
      var st' := Exec(bearer, steps);
      forall s, rid | 0 <= s < |st'.sessions| && Alive(st'.sessions[s].pc) ensures CacheOk(st', s, rid) {
        CacheStep(before, step, s, rid);
      }
      forall s, rid | 0 <= s < |st'.sessions| && Looping(st'.sessions[s].pc) ensures ClientOk(st'.sessions[s], rid) {
        ClientStep(before, step, s, rid);
      }
      forall s | 0 <= s < |st'.sessions| && st'.sessions[s].pc.AwaitLogin? ensures st'.sessions[s].out == [] {
        SilentBeforeLogin(before, step, s);
      }
    }
  }
}
