/** Each handled event is answered exactly as owed, each request sent to a room is accounted
    for, rooms keep their capacity and are not leaked, and sessions crash for one reason only. */
module Accounting {
  import opened Wrappers
  import opened Events
  import opened RoomCore
  import opened PlayerCore
  import opened Protocol
  import opened Rooms
  import opened Streams
  import opened Membership
  import opened Projection
  import opened Ordering

  /** The part of a stream that answers the event at `pos` of incarnation `i`'s log. */
  function Answers(stream: seq<Delivery>, i: IncId, pos: nat): seq<Delivery> {
    if stream == [] then []
    else
      var last := stream[|stream| - 1];
      Answers(stream[..|stream| - 1], i, pos) + if last.inc == i && last.pos == pos then [last] else []
  }

  lemma {:induction false} AnswersConcat(a: seq<Delivery>, b: seq<Delivery>, i: IncId, pos: nat)
    ensures Answers(a + b, i, pos) == Answers(a, i, pos) + Answers(b, i, pos)
  {
    if b == [] {
      assert a + b == a;
    } else {
      AnswersConcat(a, b[..|b| - 1], i, pos);
      assert (a + b)[..|a + b| - 1] == a + b[..|b| - 1];
    }
  }

  lemma {:induction false} AnswersFromInc(stream: seq<Delivery>, i: IncId, pos: nat)
    ensures Answers(FromInc(stream, i), i, pos) == Answers(stream, i, pos)
  {
    if stream != [] {
      var front, last := stream[..|stream| - 1], stream[|stream| - 1];
      AnswersFromInc(front, i, pos);
      AnswersConcat(FromInc(front, i), if last.inc == i then [last] else [], i, pos);
      AnswersOne(last, i, pos);
    }
  }

  lemma AnswersOne(d: Delivery, i: IncId, pos: nat)
    ensures Answers([d], i, pos) == if d.inc == i && d.pos == pos then [d] else []
  {
    assert [d][..0] == [];
  }

  lemma {:induction false} AnswersMarked(events: seq<OutputEvent>, i: IncId, p: nat, pos: nat)
    ensures Answers(Marked(events, i, p), i, pos) == if p == pos then Marked(events, i, p) else []
  {
    if events != [] {
      var marked := Marked(events, i, p);
      AnswersMarked(events[..|events| - 1], i, p, pos);
      assert marked[..|marked| - 1] == Marked(events[..|events| - 1], i, p);
      assert marked == marked[..|marked| - 1] + [marked[|marked| - 1]];
    }
  }

  lemma {:induction false} AnswersProject(i: IncId, id: RoomId, config: RoomConfig, log: seq<Entry>, s: SessionId,
      player: PlayerId, pos: nat)
    ensures Answers(Project(i, id, config, log, s, player), i, pos) ==
      if pos < |log|
      then Marked(Owed(FoldLog(id, config, log[..pos]), log[pos].env.event, log[pos].order, s, player), i, pos)
      else []
  {
    hide Owed, FoldLog, Marked;
    if log != [] {
      var front, last := log[..|log| - 1], log[|log| - 1];
      AnswersProject(i, id, config, front, s, player, pos);
      var chunk := Owed(FoldLog(id, config, front), last.env.event, last.order, s, player);
      AnswersConcat(Project(i, id, config, front, s, player), Marked(chunk, i, |front|), i, pos);
      AnswersMarked(chunk, i, |front|, pos);
      if pos < |front| {
        assert front[..pos] == log[..pos];
      } else if pos == |front| {
        assert log[..pos] == front;
      }
    }
  }

  /** Every handled event is answered to every live session exactly as owed: nothing is lost or
      repeated, in whatever order rooms and sessions run. */
  lemma AnsweredAsOwed(bearer: string, steps: seq<Step>, s: SessionId, i: IncId, pos: nat)
    requires Valid(bearer, steps)
    requires s < |Exec(bearer, steps).sessions| && Alive(Exec(bearer, steps).sessions[s].pc)
    requires i < |Exec(bearer, steps).rooms| && pos < |Exec(bearer, steps).rooms[i].log|
    ensures var st := Exec(bearer, steps);
            var r, x := st.rooms[i], st.sessions[s];
            Answers(Stream(x), i, pos) + Answers(PostsTo(r.outbox, s), i, pos)
            == Marked(Owed(RoomAt(r, pos), r.log[pos].env.event, r.log[pos].order, s, x.id), i, pos)
  {
    hide Owed, FoldLog, Marked;
    StreamIsProjection(bearer, steps, s, i);
    var st := Exec(bearer, steps);
    var r, x := st.rooms[i], st.sessions[s];
    AnswersProject(i, r.room.id, r.room.config, r.log, s, x.id, pos);
    AnswersConcat(FromInc(Stream(x), i), PostsTo(r.outbox, s), i, pos);
    AnswersFromInc(Stream(x), i, pos);
  }

  // ---------- Requests ----------

  /** The answer `e` to a join of `id` is the one the room owes in the state it is in: refused for
      another configuration, for being a member already, for lack of space, or granted. */
  ghost predicate JoinAnswered(e: OutputEvent, id: PlayerId, room: RoomState<SessionId>, config: RoomConfig) {
    && (e == OutputJoin(Failure(RoomConfigDoesNotMatch(room.id, id))) <==> config != room.config)
    && (e == OutputJoin(Failure(AlreadyJoinedRoom(room.id, id))) <==> config == room.config && id in room.players)
    && (e == OutputJoin(Failure(RoomIsFull(room.id, id))) <==>
          config == room.config && id !in room.players && |room.players| == room.config.maxPlayers)
    && (IsOwnJoin(e, id) <==> config == room.config && id !in room.players && |room.players| < room.config.maxPlayers)
  }

  lemma OwedToJoiner(r: RoomState<SessionId>, e: InputEvent<SessionId>, order: seq<PlayerId>, s: SessionId,
      id: PlayerId)
    requires e.InputJoin? && e.player == Player(id, s) && |r.players| <= r.config.maxPlayers
    ensures |Owed(r, e, order, s, id)| == 1 && JoinAnswered(Owed(r, e, order, s, id)[0], id, r, e.config)
  {
    CountIsExact(r);
  }

  lemma OwedToLeaver(r: RoomState<SessionId>, e: InputEvent<SessionId>, order: seq<PlayerId>, s: SessionId,
      id: PlayerId)
    requires e.InputLeave? && e.playerId == id && HasMember(r.players, s, id)
    ensures |Owed(r, e, order, s, id)| == 1 && IsOwnLeave(Owed(r, e, order, s, id)[0], id)
  {
  }

  /** Conservation of requests: what was sent to a room is handled, queued or discarded with a
      dropped receiver, exactly one of these, and handled in the order sent. */
  lemma RequestsConserved(bearer: string, steps: seq<Step>, i: IncId, k: nat)
    requires Valid(bearer, steps)
    requires i < |Exec(bearer, steps).rooms| && k < |Exec(bearer, steps).rooms[i].sent|
    ensures var r := Exec(bearer, steps).rooms[i];
            var env, done := r.sent[k], |r.log|;
            && |r.sent| == done + |r.queue| + |r.discarded|
            && (k < done ==> r.log[k].env == env)
            && (done <= k < done + |r.queue| ==> r.queue[k - done] == env)
            && (done + |r.queue| <= k ==> r.phase.Dropped? && r.queue == [] && r.discarded[k - done] == env)
  {
    hide *;
    RoomHolds(bearer, steps, i);
    SentSplit(Exec(bearer, steps).rooms[i], k);
  }

  lemma SentSplit(r: Incarnation, k: nat)
    requires RoomOk(r) && k < |r.sent|
    ensures |r.sent| == |r.log| + |r.queue| + |r.discarded|
    ensures k < |r.log| ==> r.log[k].env == r.sent[k]
    ensures |r.log| <= k < |r.log| + |r.queue| ==> r.queue[k - |r.log|] == r.sent[k]
    ensures |r.log| + |r.queue| <= k ==> r.phase.Dropped? && r.queue == [] && r.discarded[k - |r.log|] == r.sent[k]
  {
    hide FoldLog, RoomAt;
  }

  lemma LoggedIsSpoken(bearer: string, steps: seq<Step>, i: IncId, pos: nat)
    requires Valid(bearer, steps)
    requires i < |Exec(bearer, steps).rooms| && pos < |Exec(bearer, steps).rooms[i].log|
    ensures var st := Exec(bearer, steps);
            var env := st.rooms[i].log[pos].env;
            LoggedIn(st.sessions, env.from) && SpokenBy(env, st.sessions[env.from].id)
  {
    InvHolds(bearer, steps);
    hide MembersOk, SessionsOk, FirstEventDue, RegistryOk, FoldLog, RoomAt, RoomOk, SentOk;
    var st := Exec(bearer, steps);
    assert RoomOk(st.rooms[i]) && SentOk(st.sessions, st.rooms[i]);
    LogIsSpoken(st.sessions, st.rooms[i]);
  }

  /** What the handling of the log's event at `pos` sent to the session that had sent the event. */
  function Issued(r: Incarnation, pos: nat): seq<OutputEvent>
    requires pos < |r.log|
  {
    To(SendsAt(r, pos), r.log[pos].env.from)
  }

  /** A handled join is answered by exactly one event to its sender, its own join or the refusal
      that the room's state calls for, and a handled leave of a member by exactly one own leave. A
      sender that is still alive has got just that, or is about to. */
  lemma RequestsAnswered(bearer: string, steps: seq<Step>, i: IncId, pos: nat)
    requires Valid(bearer, steps)
    requires i < |Exec(bearer, steps).rooms| && pos < |Exec(bearer, steps).rooms[i].log|
    ensures var st := Exec(bearer, steps);
            var r := st.rooms[i];
            var env, s, issued := r.log[pos].env, r.log[pos].env.from, Issued(r, pos);
            && s < |st.sessions|
            && var id := st.sessions[s].id;
            && (env.event.InputJoin? ==>
                  |issued| == 1 && JoinAnswered(issued[0], id, RoomAt(r, pos), env.event.config))
            && (env.event.InputLeave? && HasMember(RoomAt(r, pos).players, s, id) ==>
                  |issued| == 1 && IsOwnLeave(issued[0], id))
            && (Alive(st.sessions[s].pc) ==>
                  Answers(Stream(st.sessions[s]), i, pos) + Answers(PostsTo(r.outbox, s), i, pos) ==
                    Marked(issued, i, pos))
  {
    hide FoldLog, Owed, Answers, AddPlayer, JoinAnswered, SendsAt, To, Marked;
    var st := Exec(bearer, steps);
    var r := st.rooms[i];
    var env, s := r.log[pos].env, r.log[pos].env.from;
    LoggedIsSpoken(bearer, steps, i, pos);
    IssuedAsOwed(bearer, steps, i, pos);
    if Alive(st.sessions[s].pc) {
      AnsweredAsOwed(bearer, steps, s, i, pos);
    }
    if env.event.InputJoin? {
      FoldCapacity(r.room.id, r.room.config, r.log[..pos]);
      OwedToJoiner(RoomAt(r, pos), env.event, r.log[pos].order, s, st.sessions[s].id);
    } else if env.event.InputLeave? && HasMember(RoomAt(r, pos).players, s, st.sessions[s].id) {
      OwedToLeaver(RoomAt(r, pos), env.event, r.log[pos].order, s, st.sessions[s].id);
    }
  }

  lemma IssuedAsOwed(bearer: string, steps: seq<Step>, i: IncId, pos: nat)
    requires Valid(bearer, steps)
    requires i < |Exec(bearer, steps).rooms| && pos < |Exec(bearer, steps).rooms[i].log|
    requires Exec(bearer, steps).rooms[i].log[pos].env.from < |Exec(bearer, steps).sessions|
    ensures var st := Exec(bearer, steps);
            var r := st.rooms[i];
            var env := r.log[pos].env;
            Issued(r, pos) == Owed(RoomAt(r, pos), env.event, r.log[pos].order, env.from, st.sessions[env.from].id)
  {
    hide Exec, Valid, FoldLog, Handle, To, Owed, RoomOk, SentOk, MembersOk, FirstEventDue, Projected, OrdersOk;
    var st := Exec(bearer, steps);
    var r := st.rooms[i];
    RoomHolds(bearer, steps, i);
    ProjectionHolds(bearer, steps);
    assert OrdersOk(r);
    IssuedInRoom(st.sessions, r, pos);
  }

  lemma IssuedInRoom(sessions: seq<Session>, r: Incarnation, pos: nat)
    requires RoomOk(r) && SentOk(sessions, r) && OrdersOk(r) && pos < |r.log| && r.log[pos].env.from < |sessions|
    ensures var env := r.log[pos].env;
            Issued(r, pos) == Owed(RoomAt(r, pos), env.event, r.log[pos].order, env.from, sessions[env.from].id)
  {
    var env, room := r.log[pos].env, RoomAt(r, pos);
    LogIsSpoken(sessions, r);
    assert LogSpoken(sessions, r.log[..pos]);
    FoldSpeaks(sessions, r.room.id, r.room.config, r.log[..pos]);
    hide RoomOk, SentOk, FoldLog, RoomAt, Handle, To, Owed, Enumerates, Iterated;
    HandleTo(room, env.event, r.log[pos].order, env.from, sessions[env.from].id);
  }

  lemma {:induction false} NoAnswers(stream: seq<Delivery>, i: IncId, pos: nat)
    requires forall k :: 0 <= k < |stream| ==> !(stream[k].inc == i && stream[k].pos == pos)
    ensures Answers(stream, i, pos) == []
  {
    if stream != [] {
      NoAnswers(stream[..|stream| - 1], i, pos);
    }
  }

  /** Nothing answers an event that has not been handled. */
  lemma UnhandledIsUnanswered(bearer: string, steps: seq<Step>, s: SessionId, i: IncId, k: nat)
    requires Valid(bearer, steps) && s < |Exec(bearer, steps).sessions|
    requires i < |Exec(bearer, steps).rooms| && |Exec(bearer, steps).rooms[i].log| <= k
    ensures Answers(Stream(Exec(bearer, steps).sessions[s]), i, k) == []
  {
    hide Exec, Valid, OutboxOrigin, Answers;
    OriginHolds(bearer, steps);
    var st := Exec(bearer, steps);
    assert StreamOrigin(st.rooms, st.sessions[s], s);
    NoAnswers(Stream(st.sessions[s]), i, k);
  }

  /** An incarnation whose receiver is gone does not change any more. */
  lemma {:induction false} DroppedIsFinal(bearer: string, steps: seq<Step>, n: nat, i: IncId)
    requires Valid(bearer, steps) && n <= |steps|
    requires i < |StateAt(bearer, steps, n).rooms| && StateAt(bearer, steps, n).rooms[i].phase.Dropped?
    ensures i < |Exec(bearer, steps).rooms| && Exec(bearer, steps).rooms[i] == StateAt(bearer, steps, n).rooms[i]
  {
    hide Apply, Enabled;
    if n < |steps| {
      DroppedIsFinal(bearer, steps[..|steps| - 1], n, i);
      DroppedStep(Exec(bearer, steps[..|steps| - 1]), steps[|steps| - 1], i);
    }
  }

  lemma DroppedStep(st: State, step: Step, i: IncId)
    requires Enabled(st, step) && i < |st.rooms| && st.rooms[i].phase.Dropped?
    ensures i < |Apply(st, step).rooms| && Apply(st, step).rooms[i] == st.rooms[i]
  {
    if !RoomStep(step) {
      if Creates(st, step) {
        CreateKeepsOthers(st, step);
      } else {
        SessionStepRooms(st, step);
      }
      hide Apply, Enabled;
    }
  }

  /** How long a room is registered, exactly: until its task deregisters it, and at no other
      point, in particular not when its last member is told of its leave. */
  lemma {:induction false} RegisteredUntilDeregistered(bearer: string, steps: seq<Step>, i: IncId)
    requires Valid(bearer, steps)
    ensures var st := Exec(bearer, steps);
            && (RoomDeregister(i) in steps ==> i < |st.rooms|)
            && (i < |st.rooms| ==>
                  (st.rooms[i].room.id in st.registry && st.registry[st.rooms[i].room.id] == i <==>
                    RoomDeregister(i) !in steps))
  {
    hide Apply, Enabled, RoomOk, SentOk, MembersOk, SessionsOk, FirstEventDue;
    InvHolds(bearer, steps);
    if steps != [] {
      var front, step := steps[..|steps| - 1], steps[|steps| - 1];
      assert steps == front + [step];
      RegisteredUntilDeregistered(bearer, front, i);
      InvHolds(bearer, front);
      PhaseStep(Exec(bearer, front), step, i);
    }
  }

  lemma PhaseStep(st: State, step: Step, i: IncId)
    requires RegistryOk(st) && Enabled(st, step)
    ensures |st.rooms| <= |Apply(st, step).rooms| && (step == RoomDeregister(i) ==> i < |st.rooms|)
    ensures i < |st.rooms| ==>
      (Registered(Apply(st, step).rooms[i].phase) <==> Registered(st.rooms[i].phase) && step != RoomDeregister(i))
    ensures |st.rooms| <= i < |Apply(st, step).rooms| ==> Registered(Apply(st, step).rooms[i].phase)
  {
    NeverStarves(st, i);
    RoomIdentity(st, step);
    hide RegistryOk;
    if !RoomStep(step) {
      if Creates(st, step) {
        CreateKeepsOthers(st, step);
      } else {
        SessionStepKeepsRooms(st, step);
      }
      hide Apply, Enabled;
    }
  }

  /** Delivery multiplicity: a handled message reaches a live member once if it names no targets
      and once per mention otherwise, and a non-member not at all. */
  lemma MessageCopies(bearer: string, steps: seq<Step>, s: SessionId, i: IncId, pos: nat)
    requires Valid(bearer, steps)
    requires s < |Exec(bearer, steps).sessions| && Alive(Exec(bearer, steps).sessions[s].pc)
    requires i < |Exec(bearer, steps).rooms| && pos < |Exec(bearer, steps).rooms[i].log|
    requires Exec(bearer, steps).rooms[i].log[pos].env.event.InputMessage?
    ensures var st := Exec(bearer, steps);
            var r, x := st.rooms[i], st.sessions[s];
            var e := r.log[pos].env.event;
            var answers := Answers(Stream(x), i, pos) + Answers(PostsTo(r.outbox, s), i, pos);
            && |answers| == (if !HasMember(RoomAt(r, pos).players, s, x.id) then 0
                             else if e.targetIds == [] then 1 else Occurrences(e.targetIds, x.id))
            && forall k :: 0 <= k < |answers| ==>
              answers[k].event == OutputMessage(MessageInfo(r.room.id, e.senderId, e.body))
  {
    hide FoldLog;
    AnsweredAsOwed(bearer, steps, s, i, pos);
    var r := Exec(bearer, steps).rooms[i];
    FoldLogIdentity(r.room.id, r.room.config, r.log[..pos]);
  }

  // ---------- Capacity ----------

  lemma {:induction false} FoldCapacity(id: RoomId, config: RoomConfig, log: seq<Entry>)
    ensures var room := FoldLog(id, config, log);
            room.config == config && |room.players| <= config.maxPlayers
  {
    FoldLogStep(id, config, log);
    hide FoldLog;
    if log != [] {
      var last := log[|log| - 1];
      FoldCapacity(id, config, log[..|log| - 1]);
      HandleKeepsCapacity(FoldLog(id, config, log[..|log| - 1]), last.env.event, last.order);
    }
  }

  /** In every reachable state a room holds at most `maxPlayers` players, so the 32-bit count is
      exact; players are stored under their own ids, and no two entries share a session. */
  lemma CapacityKept(bearer: string, steps: seq<Step>, i: IncId)
    requires Valid(bearer, steps) && i < |Exec(bearer, steps).rooms|
    ensures var room := Exec(bearer, steps).rooms[i].room;
            && |room.players| <= room.config.maxPlayers
            && NumPlayers(room) == |room.players|
            && WellKeyed(room.players)
  {
    InvHolds(bearer, steps);
    hide SentOk, SessionsOk, FirstEventDue, RegistryOk, FoldLog;
    var st := Exec(bearer, steps);
    assert RoomOk(st.rooms[i]) && MembersOk(st.sessions, st.rooms[i]);
    CountIsExact(st.rooms[i].room);
  }

  /** A room's configuration is fixed when it is created: later states of a run agree on it. */
  lemma {:induction false} ConfigFixed(bearer: string, steps: seq<Step>, n: nat, i: IncId)
    requires Valid(bearer, steps) && n <= |steps|
    requires i < |StateAt(bearer, steps, n).rooms|
    ensures i < |Exec(bearer, steps).rooms|
    ensures Exec(bearer, steps).rooms[i].room.config == StateAt(bearer, steps, n).rooms[i].room.config
    ensures Exec(bearer, steps).rooms[i].room.id == StateAt(bearer, steps, n).rooms[i].room.id
  {
    hide Apply, Enabled;
    if n < |steps| {
      var front := steps[..|steps| - 1];
      ConfigFixed(bearer, front, n, i);
      RoomIdentity(Exec(bearer, front), steps[|steps| - 1]);
    }
  }

  // ---------- No leaked room ----------

  /** A registered incarnation without members is on its way to one or out: it is stopping or
      inside a handler, or has an event queued, or its creator is about to send it a join. One
      that waits for a further event has members, and its first event was a join with its own
      configuration, which allows at least one player. */
  lemma NoLeakedRoom(bearer: string, steps: seq<Step>, i: IncId)
    requires Valid(bearer, steps) && i < |Exec(bearer, steps).rooms|
    requires Registered(Exec(bearer, steps).rooms[i].phase)
    ensures var st := Exec(bearer, steps);
            var r := st.rooms[i];
            && (r.room.players == map[] ==>
                  || r.phase.Stopping?
                  || r.phase.Sending?
                  || r.queue != []
                  || (r.creator < |st.sessions| && st.sessions[r.creator].pc == JoinHalf(i, r.room.id, r.room.config)))
            && (r.phase.Running? && r.log != [] ==>
                  && r.room.players != map[]
                  && r.log[0].env.event.InputJoin?
                  && r.log[0].env.event.config == r.room.config
                  && r.room.config.maxPlayers > 0)
  {
    RoomHolds(bearer, steps, i);
    hide RoomOk, SentOk, MembersOk, Exec, Valid;
    WaitingRoom(Exec(bearer, steps).rooms[i]);
  }

  lemma WaitingRoom(r: Incarnation)
    requires RoomOk(r)
    ensures r.phase.Running? && r.log != [] ==>
      && r.room.players != map[]
      && r.log[0].env.event.InputJoin?
      && r.log[0].env.event.config == r.room.config
      && r.room.config.maxPlayers > 0
  {
    if r.phase.Running? && r.log != [] {
      if |r.log| == 1 {
        assert r.log[..1] == r.log;
      }
      assert RoomAt(r, 1).players != map[];
      FirstEventJoins(r);
    }
  }

  lemma FirstEventJoins(r: Incarnation)
    requires r.log != [] && RoomAt(r, 1).players != map[]
    ensures r.log[0].env.event.InputJoin?
    ensures r.log[0].env.event.config == r.room.config && r.room.config.maxPlayers > 0
  {
    assert r.log[..1][..0] == [] && r.log[..1][0] == r.log[0];
    assert RoomAt(r, 1) == Handle(FoldLog(r.room.id, r.room.config, []), r.log[0].env.event, r.log[0].order).room;
    assert FoldLog(r.room.id, r.room.config, []) == NewRoom(r.room.id, r.room.config);
  }

  // ---------- Crashes ----------

  ghost predicate PanicOk(x: Session) {
    && (x.pc.Panicked? ==> x.handled != [] && Panics(x.handled[|x.handled| - 1].event))
    && (forall k :: 0 <= k < |x.handled| && Panics(x.handled[k].event) ==> x.pc.Panicked?)
  }

  lemma PanicStep(st: State, step: Step, s: SessionId)
    requires Enabled(st, step) && s < |st.sessions| && PanicOk(st.sessions[s])
    ensures s < |Apply(st, step).sessions| && PanicOk(Apply(st, step).sessions[s])
  {
    hide InputStep, RequestStep, Enqueue, Notice, Panics, IsOwnJoin;
    if RoomStep(step) || step.Connect? || step.s != s {
      OthersUntouched(st, step, s);
    } else if step.TakeInput? {
      InputFacts(st, s);
      NoPanicHere(st, step);
    } else if step.SendRequest? {
      RequestFacts(st, s);
      NoPanicHere(st, step);
    }
  }

  lemma NoPanicHere(st: State, step: Step)
    requires Enabled(st, step) && (step.TakeInput? || step.SendRequest?)
    ensures step.s < |Apply(st, step).sessions| && !Apply(st, step).sessions[step.s].pc.Panicked?
    ensures !st.sessions[step.s].pc.Panicked?
  {
  }

  lemma {:induction false} PanicHolds(bearer: string, steps: seq<Step>)
    requires Valid(bearer, steps)
    ensures forall s :: 0 <= s < |Exec(bearer, steps).sessions| ==> PanicOk(Exec(bearer, steps).sessions[s])
  {
    hide Apply, Enabled, PanicOk;
    if steps != [] {
      var before, step := Exec(bearer, steps[..|steps| - 1]), steps[|steps| - 1];
      PanicHolds(bearer, steps[..|steps| - 1]);
      var st' := Exec(bearer, steps);
      forall s | 0 <= s < |st'.sessions| ensures PanicOk(st'.sessions[s]) {
        SessionCount(before, step);
        if s < |before.sessions| {
          PanicStep(before, step, s);
        } else {
          NewcomerCalm(before, step);
        }
      }
    }
  }

  lemma NewcomerCalm(st: State, step: Step)
    requires Enabled(st, step) && |Apply(st, step).sessions| > |st.sessions|
    ensures PanicOk(Apply(st, step).sessions[|st.sessions|])
  {
    SessionCount(st, step);
  }

  lemma FullRefusal(r: RoomState<SessionId>, e: InputEvent<SessionId>, order: seq<PlayerId>, s: SessionId,
      event: OutputEvent)
    requires Send(s, event) in Handle(r, e, order).sends
    requires event.OutputJoin? && event.join.Failure? && event.join.error.RoomIsFull?
    requires |r.players| <= r.config.maxPlayers
    ensures e.InputJoin? && e.player.sender == s && e.config == r.config
    ensures e.player.id !in r.players && |r.players| == r.config.maxPlayers
  {
    match e {
      case InputJoin(player, config) =>
        var added := AddPlayer(r, player, config);
        if added.Success? {
          BroadcastEvent(added.value.players, order, OutputJoin(Success(JoinInfo(r.id, player.id, order, r.config))),
            Send(s, event));
        }
        CountIsExact(r);
      case InputLeave(playerId) =>
        if playerId in r.players {
          BroadcastEvent(r.players, order, OutputLeave(Success(LeaveInfo(r.id, playerId))), Send(s, event));
        }
      case InputMessage(senderId, targetIds, body) =>
        BroadcastEvent(r.players, if targetIds == [] then order else targetIds,
          OutputMessage(MessageInfo(r.id, senderId, body)), Send(s, event));
    }
  }

  /** A session has crashed exactly if it handled a refusal for lack of space, and its last event
      was such a refusal: of its own join, to a room of the requested configuration that was full
      and did not contain it. No session is ever sent a leave error. */
  lemma CrashMeansRoomIsFull(bearer: string, steps: seq<Step>, s: SessionId)
    requires Valid(bearer, steps) && s < |Exec(bearer, steps).sessions|
    ensures var st := Exec(bearer, steps);
            var x := st.sessions[s];
            && (x.pc.Panicked? <==>
                  exists k :: 0 <= k < |x.handled| && x.handled[k].event.OutputJoin?
                              && x.handled[k].event.join.Failure? && x.handled[k].event.join.error.RoomIsFull?)
            && (forall k :: 0 <= k < |Stream(x)| ==>
              !(Stream(x)[k].event.OutputLeave? && Stream(x)[k].event.leave.Failure?))
            && (x.pc.Panicked? ==>
                  && x.handled != []
                  && var d := x.handled[|x.handled| - 1];
                  && d.inc < |st.rooms| && d.pos < |st.rooms[d.inc].log|
                  && var r := st.rooms[d.inc];
                  && var room, e := RoomAt(r, d.pos), r.log[d.pos].env.event;
                  && d.event.OutputJoin? && d.event.join.Failure? && d.event.join.error.RoomIsFull?
                  && e.InputJoin? && e.player.sender == s && e.config == r.room.config
                  && e.player.id !in room.players && |room.players| == r.room.config.maxPlayers)
  {
    hide RoomAt, Origin, About;
    var st := Exec(bearer, steps);
    var x := st.sessions[s];
    PanicHolds(bearer, steps);
    assert PanicOk(x);
    forall k | 0 <= k < |Stream(x)| ensures !(Stream(x)[k].event.OutputLeave? && Stream(x)[k].event.leave.Failure?) {
      NoLeaveError(bearer, steps, s, k);
    }
    forall k | 0 <= k < |x.handled| ensures !(x.handled[k].event.OutputLeave? && x.handled[k].event.leave.Failure?) {
      assert x.handled[k] == Stream(x)[k];
    }
    if x.pc.Panicked? {
      var k := |x.handled| - 1;
      assert x.handled[k] == Stream(x)[k];
      RefusalAtCapacity(bearer, steps, s, k);
    }
  }

  lemma NoLeaveError(bearer: string, steps: seq<Step>, s: SessionId, k: nat)
    requires Valid(bearer, steps) && s < |Exec(bearer, steps).sessions| && k < |Stream(Exec(bearer, steps).sessions[s])|
    ensures var e := Stream(Exec(bearer, steps).sessions[s])[k].event;
            !(e.OutputLeave? && e.leave.Failure?)
  {
    OriginOfDelivery(bearer, steps, s, k);
  }

  lemma RefusalAtCapacity(bearer: string, steps: seq<Step>, s: SessionId, k: nat)
    requires Valid(bearer, steps) && s < |Exec(bearer, steps).sessions| && k < |Stream(Exec(bearer, steps).sessions[s])|
    requires var e := Stream(Exec(bearer, steps).sessions[s])[k].event;
             e.OutputJoin? && e.join.Failure? && e.join.error.RoomIsFull?
    ensures var st := Exec(bearer, steps);
            var d := Stream(st.sessions[s])[k];
            && d.inc < |st.rooms| && d.pos < |st.rooms[d.inc].log|
            && var r := st.rooms[d.inc];
            && var room, e := RoomAt(r, d.pos), r.log[d.pos].env.event;
            && e.InputJoin? && e.player.sender == s && e.config == r.room.config
            && e.player.id !in room.players && |room.players| == r.room.config.maxPlayers
  {
    hide Handle, FoldLog;
    OriginOfDelivery(bearer, steps, s, k);
    var st := Exec(bearer, steps);
    var d := Stream(st.sessions[s])[k];
    var r := st.rooms[d.inc];
    FoldCapacity(r.room.id, r.room.config, r.log[..d.pos]);
    FullRefusal(RoomAt(r, d.pos), r.log[d.pos].env.event, r.log[d.pos].order, s, d.event);
  }

  /** Messages are genuine: a message notice shows the id of the session that sent it and the body
      it sent, to the same room id, and reaches only players who were members of the room when
      it was handled and were targeted, if anyone was. */
  lemma MessagesAreGenuine(bearer: string, steps: seq<Step>, s: SessionId, k: nat)
    requires Valid(bearer, steps) && s < |Exec(bearer, steps).sessions| && k < |Stream(Exec(bearer, steps).sessions[s])|
    requires Stream(Exec(bearer, steps).sessions[s])[k].event.OutputMessage?
    ensures var st := Exec(bearer, steps);
            var x, d := st.sessions[s], Stream(st.sessions[s])[k];
            && d.inc < |st.rooms| && d.pos < |st.rooms[d.inc].log|
            && var r := st.rooms[d.inc];
            && var env, info := r.log[d.pos].env, d.event.message;
            && env in r.sent && LoggedIn(st.sessions, env.from)
            && env.event.InputMessage? && env.event.senderId == st.sessions[env.from].id
            && info == MessageInfo(r.room.id, st.sessions[env.from].id, env.event.body)
            && HasMember(RoomAt(r, d.pos).players, s, x.id)
            && (env.event.targetIds == [] || x.id in env.event.targetIds)
  {
    OriginOfDelivery(bearer, steps, s, k);
    InvHolds(bearer, steps);
    var st := Exec(bearer, steps);
    var d := Stream(st.sessions[s])[k];
    var r := st.rooms[d.inc];
    assert RoomOk(r) && SentOk(st.sessions, r);
    hide Inv, Exec, Valid, Origin;
    GenuineMessage(st.sessions, r, d.pos, s, d.event);
  }

  lemma GenuineMessage(sessions: seq<Session>, r: Incarnation, pos: nat, s: SessionId, event: OutputEvent)
    requires RoomOk(r) && SentOk(sessions, r) && pos < |r.log| && s < |sessions|
    requires Send(s, event) in SendsAt(r, pos) && event.OutputMessage?
    ensures var env := r.log[pos].env;
            && env in r.sent && LoggedIn(sessions, env.from)
            && env.event.InputMessage? && env.event.senderId == sessions[env.from].id
            && event.message == MessageInfo(r.room.id, sessions[env.from].id, env.event.body)
            && HasMember(RoomAt(r, pos).players, s, sessions[s].id)
            && (env.event.targetIds == [] || sessions[s].id in env.event.targetIds)
  {
    var env, order, room := r.log[pos].env, r.log[pos].order, RoomAt(r, pos);
    assert r.sent[pos] == env;
    LogIsSpoken(sessions, r);
    assert LogSpoken(sessions, r.log[..pos]);
    FoldSpeaks(sessions, r.room.id, r.room.config, r.log[..pos]);
    FoldLogIdentity(r.room.id, r.room.config, r.log[..pos]);
    hide RoomOk, SentOk, FoldLog, RoomAt;
    MessageFromMessage(room, env.event, order, Send(s, event));
    var names := if env.event.targetIds == [] then order else env.event.targetIds;
    BroadcastReaches(room.players, names, OutputMessage(MessageInfo(room.id, env.event.senderId, env.event.body)),
      Send(s, event));
  }

  lemma {:induction false} BroadcastReaches<C>(players: map<PlayerId, Player<C>>, names: seq<PlayerId>,
      event: OutputEvent, send: Send<C, OutputEvent>)
    requires send in Broadcast(players, names, event)
    ensures send.event == event
    ensures exists p :: p in names && p in players && players[p].sender == send.to
  {
    if names[0] in players && send == Send(players[names[0]].sender, event) {
      assert names[0] in names;
    } else {
      BroadcastReaches(players, names[1..], event, send);
    }
  }

  /** The registry: at most one registered incarnation per id, each entry naming a registered
      incarnation of its id, and every running or stopping incarnation reachable through it, so
      that its channel has a sender. */
  lemma RegistryUnique(bearer: string, steps: seq<Step>)
    requires Valid(bearer, steps)
    ensures var st := Exec(bearer, steps);
            && (forall rid :: rid in st.registry ==>
                  st.registry[rid] < |st.rooms| && st.rooms[st.registry[rid]].room.id == rid &&
                    Registered(st.rooms[st.registry[rid]].phase))
            && (forall i, j ::
                  (0 <= i < |st.rooms| && 0 <= j < |st.rooms| && Registered(st.rooms[i].phase)
                   && Registered(st.rooms[j].phase) && st.rooms[i].room.id == st.rooms[j].room.id)
                  ==> i == j)
            && (forall i :: 0 <= i < |st.rooms| && Registered(st.rooms[i].phase) ==>
                  st.rooms[i].room.id in st.registry && st.registry[st.rooms[i].room.id] == i
                  && HasSender(st, i) && !Enabled(st, RoomStarve(i)))
  {
    InvHolds(bearer, steps);
    hide SentOk, SessionsOk, MembersOk, FirstEventDue, RoomOk;
    var st := Exec(bearer, steps);
    forall i | 0 <= i < |st.rooms| && Registered(st.rooms[i].phase) 
      ensures st.rooms[i].room.id in st.registry && st.registry[st.rooms[i].room.id] == i
      ensures HasSender(st, i) && !Enabled(st, RoomStarve(i))
    {
      assert st.registry[st.rooms[i].room.id] == i;
      NeverStarves(st, i);
    }
  }
}
