/** What a client hears: everything it is told has one occasion, and everything that happens to its
    session is an occasion to tell it something. */
module ClientHears {
  import opened Wrappers
  import opened Events
  import opened PlayerCore
  import opened Protocol
  import opened Rooms
  import opened Streams
  import opened Login
  import Accounting
  import opened ClientLog

  // ---------- Occasions ----------

  /** What makes a session say something: an attempt to log in, a login request when it is logged in
      already, a leave for a room id that is not registered, a join whose room is gone, or an
      event from a room, for an own join with what the lookup found. */
  datatype Occasion =
    | LoginTried(id: PlayerId, bearer: Option<string>, unused: bool)
    | LoginAgain
    | NoRoomToLeave(roomId: RoomId)
    | JoinNotSent(roomId: RoomId)
    | EventHandled(event: OutputEvent, found: bool)

  function OccasionOf(st: State, step: Step, s: SessionId): seq<Occasion>
    requires Enabled(st, step)
  {
    if RoomStep(step) || step.Connect? || step.s != s then []
    else
      var x := st.sessions[s];
      match step
      case TryLogin(_) =>
        var data := x.input[0].data;
        if data.Some? && data.value.LoginRequest?
        then [LoginTried(data.value.playerId, data.value.bearer, data.value.playerId !in st.players)] else []
      case TakeInput(_) =>
        var data := x.input[0].data;
        if data.None? then []
        else if data.value.LoginRequest? then [LoginAgain]
        else if data.value.LeaveRequest? && data.value.roomId !in st.registry then [NoRoomToLeave(data.value.roomId)]
        else []
      case SendRequest(_) =>
        if x.pc.JoinHalf? && st.rooms[x.pc.inc].phase.Dropped? then [JoinNotSent(x.pc.roomId)] else []
      case TakeEvent(_) =>
        var e := x.inbox[0].event;
        if Panics(e) || IsOwnJoin(e, x.id) then [] else [EventHandled(e, false)]
      case InsertJoined(_) => [EventHandled(OutputJoin(Success(x.pc.info)), x.pc.found.Some?)]
      case _ => []
  }

  /** The occasions of a run, in order. */
  function Occasions(bearer: string, steps: seq<Step>, s: SessionId): seq<Occasion>
    requires Valid(bearer, steps)
  {
    if steps == [] then []
    else
      Occasions(bearer, steps[..|steps| - 1], s) + OccasionOf(Exec(bearer, steps[..|steps| - 1]), steps[|steps| - 1], s)
  }

  /** What the client of player `id` is to be told on an occasion. */
  predicate Tells(o: Occasion, id: PlayerId, expected: string, m: ServerMessage) {
    match o
    case LoginTried(_, bearer, unused) =>
      m == LoginResponse(if !unused then AlreadyLoggedIn else if bearer == Some(expected) then NoError
        else Unauthorized)
    case LoginAgain => m == LoginResponse(AlreadyLoggedIn)
    case NoRoomToLeave(rid) => m == LeaveResponse(rid, FailedPrecondition)
    case JoinNotSent(rid) => m == JoinResponse(rid, [], None, RoomNotFound)
    case EventHandled(OutputJoin(Success(info)), found) =>
      if info.playerId != id then m == JoinNotification(info.roomId, info.playerId)
      else if found then m == JoinResponse(info.roomId, info.roomPlayerIds, Some(info.roomConfig), NoError)
      else m == JoinResponse(info.roomId, [], None, RoomNotFound)
    case EventHandled(OutputJoin(Failure(AlreadyJoinedRoom(rid, _))), _) =>
      m == JoinResponse(rid, [], None, AlreadyJoinedTheRoom)
    case EventHandled(OutputJoin(Failure(RoomConfigDoesNotMatch(rid, _))), _) =>
      m == JoinResponse(rid, [], None, RoomConfigMismatch)
    case EventHandled(OutputJoin(Failure(RoomIsFull(_, _))), _) => false
    case EventHandled(OutputLeave(Success(info)), _) =>
      if info.playerId == id then m == LeaveResponse(info.roomId, NoError)
      else m == LeaveNotification(info.roomId, info.playerId)
    case EventHandled(OutputLeave(Failure(_)), _) => false
    case EventHandled(OutputMessage(info), _) => m == MessageNotification(info.senderId, info.roomId, info.body)
  }

  // ---------- One step ----------

  /** The session says to a client that is there what the occasions call for. */
  ghost predicate SaysOn(x: Session, x': Session, os: seq<Occasion>, expected: string) {
    && x.out <= x'.out
    && (x.clientGone ==> x'.clientGone && x'.out == x.out)
    && (!x.clientGone ==> |x'.out| == |x.out| + |os|)
    && forall k :: 0 <= k < |os| && |x.out| + k < |x'.out| ==> Tells(os[k], x'.id, expected, x'.out[|x.out| + k])
  }

  lemma LoginSays(st: State, s: SessionId)
    requires Enabled(st, TryLogin(s))
    ensures s < |Apply(st, TryLogin(s)).sessions|
    ensures SaysOn(st.sessions[s], Apply(st, TryLogin(s)).sessions[s], OccasionOf(st, TryLogin(s), s), st.bearer)
  {
  }

  lemma InputSaysOn(st: State, s: SessionId)
    requires Enabled(st, TakeInput(s))
    ensures s < |Apply(st, TakeInput(s)).sessions|
    ensures SaysOn(st.sessions[s], Apply(st, TakeInput(s)).sessions[s], OccasionOf(st, TakeInput(s), s), st.bearer)
  {
  }

  lemma RequestSaysOn(st: State, s: SessionId)
    requires Enabled(st, SendRequest(s))
    ensures s < |Apply(st, SendRequest(s)).sessions|
    ensures SaysOn(st.sessions[s], Apply(st, SendRequest(s)).sessions[s], OccasionOf(st, SendRequest(s), s), st.bearer)
  {
    hide Enqueue, RequestEvent;
  }

  lemma EventSays(st: State, s: SessionId)
    requires Enabled(st, TakeEvent(s))
    ensures s < |Apply(st, TakeEvent(s)).sessions|
    ensures SaysOn(st.sessions[s], Apply(st, TakeEvent(s)).sessions[s], OccasionOf(st, TakeEvent(s), s), st.bearer)
  {
    hide LookUp;
  }

  lemma InsertSays(st: State, s: SessionId)
    requires Enabled(st, InsertJoined(s)) && st.sessions[s].pc.info.playerId == st.sessions[s].id
    ensures s < |Apply(st, InsertJoined(s)).sessions|
    ensures SaysOn(st.sessions[s], Apply(st, InsertJoined(s)).sessions[s], OccasionOf(st, InsertJoined(s), s),
      st.bearer)
  {
  }

  lemma SaysStep(st: State, step: Step, s: SessionId)
    requires Enabled(st, step) && s < |st.sessions|
    requires st.sessions[s].pc.JoinedHalf? ==> st.sessions[s].pc.info.playerId == st.sessions[s].id
    ensures s < |Apply(st, step).sessions|
    ensures SaysOn(st.sessions[s], Apply(st, step).sessions[s], OccasionOf(st, step, s), st.bearer)
  {
    hide SaysOn;
    if RoomStep(step) || step.Connect? || step.s != s {
      OthersUntouched(st, step, s);
      Silent(st.sessions[s], Apply(st, step).sessions[s], st.bearer);
    } else {
      if step.TryLogin? {
        LoginSays(st, s);
      } else if step.TakeInput? {
        InputSaysOn(st, s);
      } else if step.SendRequest? {
        RequestSaysOn(st, s);
      } else if step.TakeEvent? {
        EventSays(st, s);
      } else if step.InsertJoined? {
        InsertSays(st, s);
      } else {
        QuietStep(st, step);
        Silent(st.sessions[s], Apply(st, step).sessions[s], st.bearer);
      }
    }
  }

  lemma Silent(x: Session, x': Session, expected: string)
    requires x'.out == x.out && (x.clientGone ==> x'.clientGone)
    ensures SaysOn(x, x', [], expected)
  {
  }

  lemma QuietStep(st: State, step: Step)
    requires Enabled(st, step) && !RoomStep(step) && !step.Connect?
    requires !step.TryLogin? && !step.TakeInput? && !step.SendRequest? && !step.TakeEvent? && !step.InsertJoined?
    ensures step.s < |Apply(st, step).sessions|
    ensures Apply(st, step).sessions[step.s].out == st.sessions[step.s].out
    ensures st.sessions[step.s].clientGone ==> Apply(st, step).sessions[step.s].clientGone
  {
    hide Enqueue;
  }

  lemma IdKept(st: State, step: Step, s: SessionId)
    requires Enabled(st, step) && s < |st.sessions| && step != TryLogin(s)
    ensures s < |Apply(st, step).sessions| && Apply(st, step).sessions[s].id == st.sessions[s].id
    ensures Apply(st, step).sessions[s].pc.AwaitLogin? ==> st.sessions[s].pc.AwaitLogin?
    ensures var x' := Apply(st, step).sessions[s];
            x'.pc.JoinedHalf? ==> if st.sessions[s].pc.JoinedHalf? then x'.pc == st.sessions[s].pc
                                  else x'.pc.info.playerId == x'.id
  {
    hide InputStep, RequestStep, LoginStep, EventStep, Enqueue;
    if RoomStep(step) || step.Connect? || step.s != s {
      OthersUntouched(st, step, s);
      hide Apply, Enabled;
    } else if step.TakeInput? {
      InputKeepsId(st, s);
    } else if step.SendRequest? {
      RequestKeepsIdle(st, s);
    } else if step.TakeEvent? {
      EventKeepsId(st, s);
    }
  }

  lemma InputKeepsId(st: State, s: SessionId)
    requires s < |st.sessions| && st.sessions[s].input != [] && st.sessions[s].pc.Idle?
    ensures s < |InputStep(st, s).sessions|
    ensures var x' := InputStep(st, s).sessions[s];
            x'.id == st.sessions[s].id && !x'.pc.AwaitLogin? && !x'.pc.JoinedHalf?
  {
  }

  lemma RequestKeepsIdle(st: State, s: SessionId)
    requires s < |st.sessions| && RequestHalf(st.sessions[s].pc) && st.sessions[s].pc.inc < |st.rooms|
    ensures s < |RequestStep(st, s).sessions|
    ensures RequestStep(st, s).sessions[s].id == st.sessions[s].id && RequestStep(st, s).sessions[s].pc.Idle?
  {
    hide Enqueue, RequestEvent;
  }

  lemma EventKeepsId(st: State, s: SessionId)
    requires s < |st.sessions| && st.sessions[s].inbox != [] && st.sessions[s].pc.Idle?
    ensures s < |EventStep(st, s).sessions|
    ensures var x' := EventStep(st, s).sessions[s];
            && x'.id == st.sessions[s].id && !x'.pc.AwaitLogin?
            && (x'.pc.JoinedHalf? ==> x'.pc.info.playerId == x'.id)
  {
    hide Notice, Uncache, LookUp;
  }

  lemma LoginIsNoJoin(st: State, s: SessionId)
    requires Enabled(st, TryLogin(s))
    ensures s < |Apply(st, TryLogin(s)).sessions| && !Apply(st, TryLogin(s)).sessions[s].pc.JoinedHalf?
    ensures Apply(st, TryLogin(s)).sessions[s].pc.AwaitLogin? ==> OccasionOf(st, TryLogin(s), s) == []
  {
  }

  // ---------- Everything said has its occasion ----------

  /** What a session has said so far is told on the occasions it had, one by one, up to the point
      where its client left. */
  ghost predicate Said(x: Session, os: seq<Occasion>, expected: string) {
    && |x.out| <= |os|
    && (!x.clientGone ==> |x.out| == |os|)
    && (forall k :: 0 <= k < |x.out| ==> Tells(os[k], x.id, expected, x.out[k]))
    && (x.pc.AwaitLogin? ==> os == [])
    && (x.pc.JoinedHalf? ==> x.pc.info.playerId == x.id)
  }

  lemma SaidGrows(x: Session, x': Session, os: seq<Occasion>, more: seq<Occasion>, expected: string)
    requires Said(x, os, expected) && SaysOn(x, x', more, expected)
    requires os != [] ==> x'.id == x.id
    requires x'.pc.AwaitLogin? ==> x.pc.AwaitLogin? && more == []
    requires x'.pc.JoinedHalf? ==> x'.pc.info.playerId == x'.id
    ensures Said(x', os + more, expected)
  {
    hide Tells;
    forall k | 0 <= k < |x'.out| ensures Tells((os + more)[k], x'.id, expected, x'.out[k]) {
      if k < |x.out| {
        assert x'.out[k] == x.out[k];
      } else {
        assert x'.out[|x.out| + (k - |x.out|)] == x'.out[k];
      }
    }
  }

  /** A client is told exactly what happened to it: the messages it was sent are, one by one and in
      order, those that the occasions of its session call for, all of them as long as it is
      there. */
  lemma {:induction false} ToldAsOccasioned(bearer: string, steps: seq<Step>, s: SessionId)
    requires Valid(bearer, steps) && s < |Exec(bearer, steps).sessions|
    ensures Said(Exec(bearer, steps).sessions[s], Occasions(bearer, steps, s), bearer)
  {
    hide Apply, Enabled, Said, SaysOn;
    if steps != [] {
      var front, step := steps[..|steps| - 1], steps[|steps| - 1];
      var st := Exec(bearer, front);
      if s < |st.sessions| {
        ToldAsOccasioned(bearer, front, s);
        BearerFixed(bearer, front);
        SaidStep(st, step, s, Occasions(bearer, front, s), bearer);
      } else {
        NoOccasionYet(bearer, front, s);
        Newborn(st, step, s);
        NoOccasion(st, step, s);
        assert Occasions(bearer, steps, s) == [] + [];
        NothingSaid(bearer);
      }
    }
  }

  lemma NothingSaid(expected: string)
    ensures Said(NEW_SESSION, [], expected)
  {
  }

  lemma NoOccasion(st: State, step: Step, s: SessionId)
    requires Enabled(st, step) && |st.sessions| <= s
    ensures OccasionOf(st, step, s) == []
  {
    ActsInRange(st, step);
    hide Enabled;
  }

  lemma {:induction false} NoOccasionYet(bearer: string, steps: seq<Step>, s: SessionId)
    requires Valid(bearer, steps) && |Exec(bearer, steps).sessions| <= s
    ensures Occasions(bearer, steps, s) == []
  {
    hide Apply, Enabled, OccasionOf;
    if steps != [] {
      var front, step := steps[..|steps| - 1], steps[|steps| - 1];
      SessionCount(Exec(bearer, front), step);
      NoOccasionYet(bearer, front, s);
      NoOccasion(Exec(bearer, front), step, s);
    }
  }

  lemma SaidStep(st: State, step: Step, s: SessionId, os: seq<Occasion>, expected: string)
    requires Enabled(st, step) && s < |st.sessions| && Said(st.sessions[s], os, expected) && st.bearer == expected
    ensures s < |Apply(st, step).sessions|
    ensures Said(Apply(st, step).sessions[s], os + OccasionOf(st, step, s), expected)
  {
    hide Apply, Tells, SaysOn;
    SaysStep(st, step, s);
    if step == TryLogin(s) {
      LoginIsNoJoin(st, s);
    } else {
      IdKept(st, step, s);
      if st.sessions[s].pc.AwaitLogin? {
        AwaitsInSilence(st, step, s);
      }
    }
    hide Enabled, OccasionOf;
    SaidGrows(st.sessions[s], Apply(st, step).sessions[s], os, OccasionOf(st, step, s), expected);
  }

  lemma AwaitsInSilence(st: State, step: Step, s: SessionId)
    requires Enabled(st, step) && s < |st.sessions| && step != TryLogin(s) && st.sessions[s].pc.AwaitLogin?
    ensures OccasionOf(st, step, s) == []
  {
  }

  // ---------- One for every event ----------

  function EventsSaid(os: seq<Occasion>): seq<OutputEvent> {
    if os == [] then []
    else
      var last := os[|os| - 1];
      EventsSaid(os[..|os| - 1]) + if last.EventHandled? then [last.event] else []
  }

  /** The event a session is still working on, or has crashed on. */
  function Unsaid(x: Session): seq<OutputEvent> {
    if x.pc.JoinedHalf? then [OutputJoin(Success(x.pc.info))]
    else if x.pc.Panicked? && x.handled != [] then [x.handled[|x.handled| - 1].event]
    else []
  }

  ghost predicate EventsTold(x: Session, os: seq<Occasion>) {
    EventsIn(x.handled) == EventsSaid(os) + Unsaid(x)
  }

  lemma EventsSaidOne(os: seq<Occasion>, more: seq<Occasion>)
    requires |more| <= 1
    ensures EventsSaid(os + more) == EventsSaid(os) + if more != [] && more[0].EventHandled? then [more[0].event]
      else []
  {
    if more == [] {
      assert os + more == os;
    } else {
      assert (os + more)[..|os + more| - 1] == os;
    }
  }

  /** What a step does to what has been handled, and which event it is an occasion for. */
  ghost predicate HandlingEffect(x: Session, x': Session, os: seq<Occasion>) {
    && |os| <= 1 && x.handled <= x'.handled
    && var said := if os != [] && os[0].EventHandled? then [os[0].event] else [];
    EventsIn(x.handled) + (if x'.handled == x.handled then [] else EventsIn(x'.handled[|x.handled|..]))
      == EventsIn(x'.handled)
    && Unsaid(x) + (if x'.handled == x.handled then [] else EventsIn(x'.handled[|x.handled|..])) == said + Unsaid(x')
  }

  lemma TakeHandles(st: State, s: SessionId)
    requires Enabled(st, TakeEvent(s))
    ensures s < |Apply(st, TakeEvent(s)).sessions|
    ensures HandlingEffect(st.sessions[s], Apply(st, TakeEvent(s)).sessions[s], OccasionOf(st, TakeEvent(s), s))
  {
    var x, x' := st.sessions[s], Apply(st, TakeEvent(s)).sessions[s];
    var d := x.inbox[0];
    EventTaken(st, s);
    EventsInConcat(x.handled, [d]);
    assert x'.handled[|x.handled|..] == [d] && EventsIn([d]) == [d.event];
    hide Apply, Enabled, Notice, Uncache, LookUp;
  }

  lemma EventTaken(st: State, s: SessionId)
    requires Enabled(st, TakeEvent(s))
    ensures s < |Apply(st, TakeEvent(s)).sessions| && st.sessions[s].pc.Idle? && st.sessions[s].inbox != []
    ensures var x, x' := st.sessions[s], Apply(st, TakeEvent(s)).sessions[s];
            var d := x.inbox[0];
            && x'.handled == x.handled + [d]
            && (if Panics(d.event) then x'.pc.Panicked?
                else if IsOwnJoin(d.event, x.id) then x'.pc.JoinedHalf? && x'.pc.info == d.event.join.value
                else x'.pc.Idle?)
  {
    hide Notice, Uncache, LookUp;
  }

  lemma OtherHandles(st: State, step: Step, s: SessionId)
    requires Enabled(st, step) && s < |st.sessions| && step != TakeEvent(s)
    ensures s < |Apply(st, step).sessions|
    ensures HandlingEffect(st.sessions[s], Apply(st, step).sessions[s], OccasionOf(st, step, s))
  {
    HandledKept(st, step, s);
    assert OccasionOf(st, step, s) != [] && OccasionOf(st, step, s)[0].EventHandled? ==> step == InsertJoined(s);
    hide Apply;
    assert EventsIn(st.sessions[s].handled) + [] == EventsIn(st.sessions[s].handled);
  }

  lemma HandledKept(st: State, step: Step, s: SessionId)
    requires Enabled(st, step) && s < |st.sessions| && step != TakeEvent(s)
    ensures s < |Apply(st, step).sessions|
    ensures var x, x' := st.sessions[s], Apply(st, step).sessions[s];
            && x'.handled == x.handled
            && (step != InsertJoined(s) ==> Unsaid(x') == Unsaid(x))
            && (step == InsertJoined(s) ==> Unsaid(x') == [])
  {
    hide InputStep, RequestStep, LoginStep, EventStep, SendLeaveStep, Enqueue;
    if RoomStep(step) || step.Connect? || step.s != s {
      OthersUntouched(st, step, s);
      hide Apply, Enabled;
    } else if step.TryLogin? {
      LoginHandles(st, s);
    } else if step.TakeInput? {
      InputHandles(st, s);
    } else if step.SendRequest? {
      RequestHandles(st, s);
    } else if step.SendLeave? {
      LeaveHandles(st, s, step.roomId);
    }
  }

  lemma LeaveHandles(st: State, s: SessionId, rid: RoomId)
    requires Enabled(st, SendLeave(s, rid))
    ensures s < |SendLeaveStep(st, s, rid).sessions|
    ensures var x, x' := st.sessions[s], SendLeaveStep(st, s, rid).sessions[s];
            x'.handled == x.handled && Unsaid(x') == Unsaid(x)
  {
    hide Enqueue;
  }

  lemma LoginHandles(st: State, s: SessionId)
    requires s < |st.sessions| && st.sessions[s].input != [] && st.sessions[s].pc.AwaitLogin?
    ensures s < |LoginStep(st, s).sessions|
    ensures LoginStep(st, s).sessions[s].handled == st.sessions[s].handled && Unsaid(LoginStep(st, s).sessions[s]) == []
  {
  }

  lemma InputHandles(st: State, s: SessionId)
    requires s < |st.sessions| && st.sessions[s].input != [] && st.sessions[s].pc.Idle?
    ensures s < |InputStep(st, s).sessions|
    ensures InputStep(st, s).sessions[s].handled == st.sessions[s].handled && Unsaid(InputStep(st, s).sessions[s]) == []
  {
  }

  lemma RequestHandles(st: State, s: SessionId)
    requires s < |st.sessions| && RequestHalf(st.sessions[s].pc) && st.sessions[s].pc.inc < |st.rooms|
    ensures s < |RequestStep(st, s).sessions|
    ensures RequestStep(st, s).sessions[s].handled == st.sessions[s].handled &&
      Unsaid(RequestStep(st, s).sessions[s]) == []
  {
    hide Enqueue, RequestEvent;
  }

  lemma EventsToldStep(x: Session, x': Session, os: seq<Occasion>, more: seq<Occasion>)
    requires EventsTold(x, os) && HandlingEffect(x, x', more)
    ensures EventsTold(x', os + more)
  {
    hide EventsIn, EventsSaid, Unsaid;
    EventsSaidOne(os, more);
    var news := if x'.handled == x.handled then [] else EventsIn(x'.handled[|x.handled|..]);
    var said := if more != [] && more[0].EventHandled? then [more[0].event] else [];
    Regroup(EventsSaid(os), Unsaid(x), news, said, Unsaid(x'));
  }

  lemma Regroup<T>(a: seq<T>, b: seq<T>, c: seq<T>, d: seq<T>, e: seq<T>)
    requires b + c == d + e
    ensures (a + b) + c == (a + d) + e
  {
    assert (a + b) + c == a + (b + c) && (a + d) + e == a + (d + e);
  }

  /** Every event a session has handled is an occasion to tell its client, each once and in order, but
      for a join whose lookup is done and not yet answered, and for the event it crashed on. */
  lemma {:induction false} EveryEventTold(bearer: string, steps: seq<Step>, s: SessionId)
    requires Valid(bearer, steps) && s < |Exec(bearer, steps).sessions|
    ensures EventsTold(Exec(bearer, steps).sessions[s], Occasions(bearer, steps, s))
  {
    hide Apply, Enabled, EventsTold, HandlingEffect, OccasionOf;
    if steps != [] {
      var front, step := steps[..|steps| - 1], steps[|steps| - 1];
      var st := Exec(bearer, front);
      if s < |st.sessions| {
        EveryEventTold(bearer, front, s);
        if step == TakeEvent(s) {
          TakeHandles(st, s);
        } else {
          OtherHandles(st, step, s);
        }
        EventsToldStep(st.sessions[s], Exec(bearer, steps).sessions[s], Occasions(bearer, front, s),
          OccasionOf(st, step, s));
      } else {
        NoOccasionYet(bearer, front, s);
        Newborn(st, step, s);
        NoOccasion(st, step, s);
        assert Occasions(bearer, steps, s) == [] + [];
        NothingHandled();
      }
    }
  }

  lemma NothingHandled()
    ensures EventsTold(NEW_SESSION, [])
  {
  }

  // ---------- Messages and refusals, as told ----------

  /** The message notifications among what a client was told, read as who said what where. */
  function MessagesTold(out: seq<ServerMessage>): seq<MessageInfo> {
    if out == [] then []
    else
      var m := out[|out| - 1];
      MessagesTold(out[..|out| - 1])
      + match m
        case MessageNotification(senderId, roomId, body) => [MessageInfo(roomId, senderId, body)]
        case _ => []
  }

  function MessagesIn(events: seq<OutputEvent>): seq<MessageInfo> {
    if events == [] then []
    else
      var e := events[|events| - 1];
      MessagesIn(events[..|events| - 1]) + if e.OutputMessage? then [e.message] else []
  }

  /** The refused joins among what a client was told, with room id and reason. */
  function RefusalsTold(out: seq<ServerMessage>): seq<(RoomId, ErrorCode)> {
    if out == [] then []
    else
      var m := out[|out| - 1];
      RefusalsTold(out[..|out| - 1])
      + match m
        case JoinResponse(roomId, _, _, code) =>
          if code == AlreadyJoinedTheRoom || code == RoomConfigMismatch then [(roomId, code)] else []
        case _ => []
  }

  function RefusalsIn(events: seq<OutputEvent>): seq<(RoomId, ErrorCode)> {
    if events == [] then []
    else
      var e := events[|events| - 1];
      RefusalsIn(events[..|events| - 1])
      + match e
        case OutputJoin(Failure(AlreadyJoinedRoom(roomId, _))) => [(roomId, AlreadyJoinedTheRoom)]
        case OutputJoin(Failure(RoomConfigDoesNotMatch(roomId, _))) => [(roomId, RoomConfigMismatch)]
        case _ => []
  }

  lemma {:induction false} ToldAsSaid(out: seq<ServerMessage>, os: seq<Occasion>, id: PlayerId, expected: string)
    requires |out| == |os| && forall k :: 0 <= k < |out| ==> Tells(os[k], id, expected, out[k])
    ensures MessagesTold(out) == MessagesIn(EventsSaid(os))
    ensures RefusalsTold(out) == RefusalsIn(EventsSaid(os))
  {
    if out != [] {
      var n := |out| - 1;
      ToldAsSaid(out[..n], os[..n], id, expected);
      ToldOne(out[n], os[n], id, expected);
      hide Tells;
      var before := EventsSaid(os[..n]);
      if os[n].EventHandled? {
        var events := before + [os[n].event];
        assert EventsSaid(os) == events && events[..|events| - 1] == before;
      } else {
        assert EventsSaid(os) == before + [] == before;
      }
    }
  }

  lemma ToldOne(m: ServerMessage, o: Occasion, id: PlayerId, expected: string)
    requires Tells(o, id, expected, m)
    ensures m.MessageNotification? <==> o.EventHandled? && o.event.OutputMessage?
    ensures m.MessageNotification? ==> o.event.message == MessageInfo(m.roomId, m.senderId, m.body)
    ensures m.JoinResponse? && (m.code == AlreadyJoinedTheRoom || m.code == RoomConfigMismatch) <==>
      o.EventHandled? && o.event.OutputJoin? && o.event.join.Failure? && !o.event.join.error.RoomIsFull?
    ensures m.JoinResponse? && m.code == AlreadyJoinedTheRoom ==>
      o.event.join.error.AlreadyJoinedRoom? && o.event.join.error.roomId == m.roomId
    ensures m.JoinResponse? && m.code == RoomConfigMismatch ==>
      o.event.join.error.RoomConfigDoesNotMatch? && o.event.join.error.roomId == m.roomId
  {
  }

  /** A connected client has been told of exactly the messages and the refusals that its session has
      handled, in the order in which it handled them: each message with its room, sender and body,
      each refusal with its room and its reason. */
  lemma ToldAllMessagesAndRefusals(bearer: string, steps: seq<Step>, s: SessionId)
    requires Valid(bearer, steps) && s < |Exec(bearer, steps).sessions| && !Exec(bearer, steps).sessions[s].clientGone
    ensures var x := Exec(bearer, steps).sessions[s];
            && MessagesTold(x.out) == MessagesIn(EventsIn(x.handled))
            && RefusalsTold(x.out) == RefusalsIn(EventsIn(x.handled))
  {
    hide Exec, Valid, EventsIn, MessagesTold, RefusalsTold, EventsSaid, Tells, Occasions;
    ToldAsOccasioned(bearer, steps, s);
    EveryEventTold(bearer, steps, s);
    var x := Exec(bearer, steps).sessions[s];
    ToldAsSaid(x.out, Occasions(bearer, steps, s), x.id, bearer);
    UnsaidIsNeither(bearer, steps, s);
    var said := EventsSaid(Occasions(bearer, steps, s));
    if Unsaid(x) == [] {
      assert said + [] == said;
    } else {
      assert (said + Unsaid(x))[..|said + Unsaid(x)| - 1] == said;
    }
  }

  /** What a session is still working on, or has crashed on, is an own join, or a panic. */
  lemma UnsaidIsNeither(bearer: string, steps: seq<Step>, s: SessionId)
    requires Valid(bearer, steps) && s < |Exec(bearer, steps).sessions|
    ensures var unsaid := Unsaid(Exec(bearer, steps).sessions[s]);
            |unsaid| <= 1 && (unsaid != [] ==> (unsaid[0].OutputJoin? && unsaid[0].join.Success?) || Panics(unsaid[0]))
  {
    hide Exec, Valid;
    Accounting.PanicHolds(bearer, steps);
    assert Accounting.PanicOk(Exec(bearer, steps).sessions[s]);
  }
}
