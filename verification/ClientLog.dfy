/** What clients send and what becomes of it: client messages are taken in the order they were
    sent, and rooms are sent exactly what they ask for, in that order. */
module ClientLog {
  import opened Wrappers
  import opened Events
  import opened PlayerCore
  import opened Protocol
  import opened Rooms
  import opened Ordering

  // ---------- Read off a run ----------

  /** The messages that the client of session `s` sent, in order. */
  function ClientSent(steps: seq<Step>, s: SessionId): seq<ClientMessage> {
    if steps == [] then []
    else
      var last := steps[|steps| - 1];
      ClientSent(steps[..|steps| - 1], s) + if last.ClientSend? && last.s == s then [last.message] else []
  }

  predicate Takes(step: Step, s: SessionId) {
    step == TryLogin(s) || step == TakeInput(s)
  }

  /** How many messages session `s` has taken from its client. */
  function TakenCount(steps: seq<Step>, s: SessionId): nat {
    if steps == [] then 0
    else TakenCount(steps[..|steps| - 1], s) + if Takes(steps[|steps| - 1], s) then 1 else 0
  }

  /** For each request that session `s` has sent to a room, how many client messages it had taken:
      the last of them is the one the request is about. */
  function TakenAtSends(steps: seq<Step>, s: SessionId): seq<nat> {
    if steps == [] then []
    else
      var front := steps[..|steps| - 1];
      TakenAtSends(front, s) + if steps[|steps| - 1] == SendRequest(s) then [TakenCount(front, s)] else []
  }

  // ---------- One step ----------

  /** What a step does to the input, the send count and the control point of session `s`. */
  ghost predicate InputEffect(x: Session, x': Session, step: Step, s: SessionId) {
    if step.ClientSend? && step.s == s then
      x'.input == x.input + [step.message] && x'.sends == x.sends && x'.pc == x.pc
    else if Takes(step, s) then
      x.input != [] && x'.input == x.input[1..] && x'.sends == x.sends && !Departing(x.pc)
    else if step == SendRequest(s) then
      x'.input == x.input && x'.sends == x.sends + 1 && RequestHalf(x.pc) && x'.pc.Idle?
    else
      && x'.input == x.input
      && (if x'.sends == x.sends then x'.pc == x.pc || !RequestHalf(x'.pc)
          else x'.sends == x.sends + 1 && Departing(x.pc) && Departing(x'.pc))
  }

  lemma EffectOf(st: State, step: Step, s: SessionId)
    requires Enabled(st, step) && s < |st.sessions|
    ensures s < |Apply(st, step).sessions|
    ensures InputEffect(st.sessions[s], Apply(st, step).sessions[s], step, s)
  {
    hide LoginStep, InputStep, RequestStep, EventStep, SendLeaveStep, InsertStep;
    if RoomStep(step) || step.Connect? || step.s != s {
      OthersUntouched(st, step, s);
      hide Apply, Enabled;
    } else if step.TryLogin? {
      LoginTakes(st, s);
    } else if step.TakeInput? {
      InputTakes(st, s);
    } else if step.SendRequest? {
      RequestSends(st, s);
    } else if step.TakeEvent? {
      EventLeavesInput(st, s);
    } else if step.SendLeave? {
      FarewellSends(st, s, step.roomId);
    } else if step.InsertJoined? {
      InsertLeavesInput(st, s);
    }
  }

  lemma FarewellSends(st: State, s: SessionId, rid: RoomId)
    requires Enabled(st, SendLeave(s, rid))
    ensures s < |SendLeaveStep(st, s, rid).sessions|
    ensures var x, x' := st.sessions[s], SendLeaveStep(st, s, rid).sessions[s];
            x'.input == x.input && x'.sends == x.sends + 1 && Departing(x.pc) && Departing(x'.pc)
  {
    hide Enqueue;
  }

  lemma InsertLeavesInput(st: State, s: SessionId)
    requires s < |st.sessions| && st.sessions[s].pc.JoinedHalf?
    ensures s < |InsertStep(st, s).sessions|
    ensures var x, x' := st.sessions[s], InsertStep(st, s).sessions[s];
            x'.input == x.input && x'.sends == x.sends && x'.pc.Idle?
  {
    hide JoinAnswer;
  }

  lemma LoginTakes(st: State, s: SessionId)
    requires s < |st.sessions| && st.sessions[s].input != []
    ensures s < |LoginStep(st, s).sessions|
    ensures var x, x' := st.sessions[s], LoginStep(st, s).sessions[s];
            x'.input == x.input[1..] && x'.sends == x.sends
  {
  }

  lemma InputTakes(st: State, s: SessionId)
    requires s < |st.sessions| && st.sessions[s].input != []
    ensures s < |InputStep(st, s).sessions|
    ensures var x, x' := st.sessions[s], InputStep(st, s).sessions[s];
            x'.input == x.input[1..] && x'.sends == x.sends
  {
  }

  lemma RequestSends(st: State, s: SessionId)
    requires s < |st.sessions| && RequestHalf(st.sessions[s].pc) && st.sessions[s].pc.inc < |st.rooms|
    ensures s < |RequestStep(st, s).sessions|
    ensures var x, x' := st.sessions[s], RequestStep(st, s).sessions[s];
            x'.input == x.input && x'.sends == x.sends + 1 && x'.pc.Idle?
  {
    hide Enqueue, RequestEvent;
  }

  lemma EventLeavesInput(st: State, s: SessionId)
    requires s < |st.sessions| && st.sessions[s].inbox != []
    ensures s < |EventStep(st, s).sessions|
    ensures var x, x' := st.sessions[s], EventStep(st, s).sessions[s];
            x'.input == x.input && x'.sends == x.sends && (x'.pc == x.pc || !RequestHalf(x'.pc))
  {
    hide Notice, Uncache, LookUp;
  }

  // ---------- First in, first out ----------

  /** A session that does not exist has no client. */
  lemma {:induction false} NoClientYet(bearer: string, steps: seq<Step>, s: SessionId)
    requires Valid(bearer, steps) && |Exec(bearer, steps).sessions| <= s
    ensures ClientSent(steps, s) == [] && TakenCount(steps, s) == 0 && TakenAtSends(steps, s) == []
  {
    hide Apply, Enabled;
    if steps != [] {
      var front, step := steps[..|steps| - 1], steps[|steps| - 1];
      SessionCount(Exec(bearer, front), step);
      NoClientYet(bearer, front, s);
      ActsInRange(Exec(bearer, front), step);
    }
  }

  lemma ActsInRange(st: State, step: Step)
    requires Enabled(st, step)
    ensures !RoomStep(step) && !step.Connect? ==> step.s < |st.sessions|
  {
  }

  /** A session takes its client's messages in the order they were sent: what was sent is what has
      been taken, followed by what is waiting. */
  lemma {:induction false} InputIsFifo(bearer: string, steps: seq<Step>, s: SessionId)
    requires Valid(bearer, steps) && s < |Exec(bearer, steps).sessions|
    ensures TakenCount(steps, s) <= |ClientSent(steps, s)|
    ensures Exec(bearer, steps).sessions[s].input == ClientSent(steps, s)[TakenCount(steps, s)..]
  {
    hide Apply, Enabled, InputEffect, ClientSent, TakenCount;
    if steps != [] {
      var front, step := steps[..|steps| - 1], steps[|steps| - 1];
      var st := Exec(bearer, front);
      assert front + [step] == steps;
      if s < |st.sessions| {
        InputIsFifo(bearer, front, s);
        EffectOf(st, step, s);
        FifoStep(front, step, st.sessions[s], Exec(bearer, steps).sessions[s], s);
      } else {
        NoClientYet(bearer, front, s);
        Newborn(st, step, s);
        StillNoClient(front, st, step, s);
      }
    }
  }

  lemma StillNoClient(steps: seq<Step>, st: State, step: Step, s: SessionId)
    requires ClientSent(steps, s) == [] && TakenCount(steps, s) == 0 && TakenAtSends(steps, s) == []
    requires Enabled(st, step) && |st.sessions| <= s
    ensures ClientSent(steps + [step], s) == [] && TakenCount(steps + [step], s) == 0
    ensures TakenAtSends(steps + [step], s) == []
  {
    var next := steps + [step];
    assert next[..|next| - 1] == steps;
    ActsInRange(st, step);
    hide Enabled;
  }

  lemma FifoStep(steps: seq<Step>, step: Step, x: Session, x': Session, s: SessionId)
    requires TakenCount(steps, s) <= |ClientSent(steps, s)| && x.input == ClientSent(steps, s)[TakenCount(steps, s)..]
    requires InputEffect(x, x', step, s)
    ensures TakenCount(steps + [step], s) <= |ClientSent(steps + [step], s)|
    ensures x'.input == ClientSent(steps + [step], s)[TakenCount(steps + [step], s)..]
  {
    var next := steps + [step];
    assert next[..|next| - 1] == steps;
    assert ClientSent(next, s) == ClientSent(steps, s) + if step.ClientSend? && step.s == s then [step.message] else [];
    assert TakenCount(next, s) == TakenCount(steps, s) + if Takes(step, s) then 1 else 0;
    hide ClientSent, TakenCount, RequestHalf;
  }

  lemma Newborn(st: State, step: Step, s: SessionId)
    requires Enabled(st, step) && |st.sessions| <= s < |Apply(st, step).sessions|
    ensures Apply(st, step).sessions[s] == NEW_SESSION
  {
    SessionCount(st, step);
  }

  // ---------- Every send is what a client message asks for ----------

  /** The client message that a request with send number `no` is about. */
  function Subject(steps: seq<Step>, s: SessionId, no: nat): Option<ClientData> {
    if no < |TakenAtSends(steps, s)| && 0 < TakenAtSends(steps, s)[no] <= |ClientSent(steps, s)|
    then ClientSent(steps, s)[TakenAtSends(steps, s)[no] - 1].data
    else None
  }

  /** The data names the room and asks for the event. */
  predicate Names(data: Option<ClientData>, rid: RoomId, id: PlayerId, s: SessionId, event: InputEvent<SessionId>) {
    && data.Some? && !data.value.LoginRequest? && data.value.roomId == rid
    && Asks(data.value, id, s, event)
  }

  /** A request in progress is about the message taken last. */
  ghost predicate HalfAsked(st: State, s: SessionId, data: Option<ClientData>)
    requires s < |st.sessions|
  {
    var x := st.sessions[s];
    RequestHalf(x.pc) ==> x.pc.inc < |st.rooms| && Names(data, st.rooms[x.pc.inc].room.id, x.id, s, RequestEvent(x, s))
  }

  function LastTaken(steps: seq<Step>, s: SessionId): Option<ClientData> {
    if 0 < TakenCount(steps, s) <= |ClientSent(steps, s)| then ClientSent(steps, s)[TakenCount(steps, s) - 1].data
    else None
  }

  lemma InputHalf(st: State, s: SessionId)
    requires RegistryOk(st) && Enabled(st, TakeInput(s)) && s < |Apply(st, TakeInput(s)).sessions|
    ensures HalfAsked(Apply(st, TakeInput(s)), s, st.sessions[s].input[0].data)
  {
    assert forall rid :: rid in st.registry ==>
      st.registry[rid] < |st.rooms| && st.rooms[st.registry[rid]].room.id == rid;
    hide RegistryOk;
    assert Apply(st, TakeInput(s)) == InputStep(st, s);
    hide Apply;
  }

  lemma LoginIsNoHalf(st: State, s: SessionId)
    requires Enabled(st, TryLogin(s))
    ensures s < |Apply(st, TryLogin(s)).sessions| && !RequestHalf(Apply(st, TryLogin(s)).sessions[s].pc)
  {
  }

  lemma HalfKept(st: State, step: Step, s: SessionId, data: Option<ClientData>)
    requires Enabled(st, step) && s < |st.sessions| && HalfAsked(st, s, data) && SessionOk(st.sessions[s], st.rooms)
    requires !Takes(step, s)
    ensures s < |Apply(st, step).sessions| && HalfAsked(Apply(st, step), s, data)
  {
    EffectOf(st, step, s);
    RoomIdentity(st, step);
    var x, x' := st.sessions[s], Apply(st, step).sessions[s];
    if RequestHalf(x'.pc) {
      assert x'.pc == x.pc;
      SessionGrows(st, step, s);
    }
    hide Apply, Enabled, Names;
  }

  /** Sends of session `s` are numbered as the requests it has made, its farewells behind them. */
  ghost predicate Numbered(steps: seq<Step>, x: Session, s: SessionId) {
    var at := TakenAtSends(steps, s);
    && (if Departing(x.pc) then |at| <= x.sends else |at| == x.sends)
    && (forall k :: 0 <= k < |at| ==> 0 < at[k] <= TakenCount(steps, s))
    && (forall k, m :: 0 <= k < m < |at| ==> at[k] < at[m])
    && (RequestHalf(x.pc) ==> 0 < TakenCount(steps, s) && forall k :: 0 <= k < |at| ==> at[k] < TakenCount(steps, s))
  }

  ghost predicate Traced(bearer: string, steps: seq<Step>, s: SessionId)
    requires Valid(bearer, steps) && s < |Exec(bearer, steps).sessions|
  {
    && Numbered(steps, Exec(bearer, steps).sessions[s], s)
    && HalfAsked(Exec(bearer, steps), s, LastTaken(steps, s))
  }

  lemma NumberedStep(steps: seq<Step>, step: Step, x: Session, x': Session, s: SessionId)
    requires Numbered(steps, x, s) && InputEffect(x, x', step, s)
    requires Departing(x.pc) ==> Departing(x'.pc)
    requires x'.sends > x.sends && step != SendRequest(s) ==> Departing(x'.pc)
    ensures Numbered(steps + [step], x', s)
  {
    var next := steps + [step];
    assert next[..|next| - 1] == steps;
    assert TakenCount(next, s) == TakenCount(steps, s) + if Takes(step, s) then 1 else 0;
    assert TakenAtSends(next, s) == TakenAtSends(steps, s) + if step == SendRequest(s) then [TakenCount(steps, s)]
      else [];
    hide TakenCount, TakenAtSends;
  }

  lemma LastTakenStep(bearer: string, steps: seq<Step>, step: Step, s: SessionId)
    requires Valid(bearer, steps) && s < |Exec(bearer, steps).sessions| && Enabled(Exec(bearer, steps), step)
    ensures Takes(step, s) ==> Exec(bearer, steps).sessions[s].input != []
    ensures LastTaken(steps + [step], s)
         == if Takes(step, s) then Exec(bearer, steps).sessions[s].input[0].data else LastTaken(steps, s)
  {
    var next := steps + [step];
    assert next[..|next| - 1] == steps;
    InputIsFifo(bearer, steps, s);
    EffectOf(Exec(bearer, steps), step, s);
    assert TakenCount(next, s) == TakenCount(steps, s) + if Takes(step, s) then 1 else 0;
    assert ClientSent(next, s) == ClientSent(steps, s) + if step.ClientSend? && step.s == s then [step.message] else [];
    hide Exec, Valid, TakenCount, ClientSent;
  }

  lemma {:induction false} TraceHolds(bearer: string, steps: seq<Step>, s: SessionId)
    requires Valid(bearer, steps) && s < |Exec(bearer, steps).sessions|
    ensures Traced(bearer, steps, s)
  {
    hide Apply, Enabled, Inv, Numbered, HalfAsked, SessionOk, LastTaken;
    if steps != [] {
      var front, step := steps[..|steps| - 1], steps[|steps| - 1];
      assert front + [step] == steps;
      var st := Exec(bearer, front);
      if s < |st.sessions| {
        TraceHolds(bearer, front, s);
        InvHolds(bearer, front);
        SessionFact(st, s);
        EffectOf(st, step, s);
        if Departing(st.sessions[s].pc) {
          DepartureLasts(st, step, s);
        }
        NumberedStep(front, step, st.sessions[s], Exec(bearer, steps).sessions[s], s);
        LastTakenStep(bearer, front, step, s);
        HalfStep(st, step, s, LastTaken(front, s));
      } else {
        NoClientYet(bearer, front, s);
        Newborn(st, step, s);
        NewbornTraced(bearer, front, step, s);
        NoHalf(Exec(bearer, steps), s, LastTaken(steps, s));
      }
    }
  }

  lemma HalfStep(st: State, step: Step, s: SessionId, data: Option<ClientData>)
    requires Inv(st) && Enabled(st, step) && s < |st.sessions| && s < |Apply(st, step).sessions|
    requires HalfAsked(st, s, data)
    requires Takes(step, s) ==> st.sessions[s].input != []
    ensures HalfAsked(Apply(st, step), s, if Takes(step, s) then st.sessions[s].input[0].data else data)
  {
    hide RoomOk, SentOk, MembersOk, FirstEventDue, SessionOk, RegistryOk, Apply, Enabled, HalfAsked;
    SessionFact(st, s);
    if step == TakeInput(s) {
      InputHalf(st, s);
    } else if step == TryLogin(s) {
      LoginIsNoHalf(st, s);
      NoHalf(Apply(st, step), s, st.sessions[s].input[0].data);
    } else {
      HalfKept(st, step, s, data);
    }
  }

  lemma NoHalf(st: State, s: SessionId, data: Option<ClientData>)
    requires s < |st.sessions| && !RequestHalf(st.sessions[s].pc)
    ensures HalfAsked(st, s, data)
  {
  }

  lemma NewbornTraced(bearer: string, steps: seq<Step>, step: Step, s: SessionId)
    requires ClientSent(steps, s) == [] && TakenCount(steps, s) == 0 && TakenAtSends(steps, s) == []
    requires Valid(bearer, steps) && Enabled(Exec(bearer, steps), step) && |Exec(bearer, steps).sessions| <= s
    ensures Numbered(steps + [step], NEW_SESSION, s)
  {
    StillNoClient(steps, Exec(bearer, steps), step, s);
    hide Exec, Valid, Enabled, TakenAtSends, TakenCount, ClientSent;
  }

  /** The send carries what a message of its sender's client asks of that room; only the farewells of
      a departing session are not asked for. */
  ghost predicate Carries(steps: seq<Step>, sessions: seq<Session>, env: Envelope, rid: RoomId) {
    && env.from < |sessions|
    && var x := sessions[env.from];
    if env.no < |TakenAtSends(steps, env.from)|
      then Names(Subject(steps, env.from, env.no), rid, x.id, env.from, env.event)
    else env.event == InputLeave(x.id) && Departing(x.pc)
  }

  lemma SubjectKept(steps: seq<Step>, step: Step, s: SessionId, no: nat)
    requires no < |TakenAtSends(steps, s)| && Subject(steps, s, no).Some?
    ensures no < |TakenAtSends(steps + [step], s)| && Subject(steps + [step], s, no) == Subject(steps, s, no)
  {
    var next := steps + [step];
    assert next[..|next| - 1] == steps;
    assert ClientSent(next, s) == ClientSent(steps, s) + if step.ClientSend? && step.s == s then [step.message] else [];
    assert TakenAtSends(next, s) == TakenAtSends(steps, s) + if step == SendRequest(s) then [TakenCount(steps, s)]
      else [];
    hide ClientSent, TakenCount, TakenAtSends;
  }

  lemma NoMoreRequests(steps: seq<Step>, st: State, step: Step, s: SessionId)
    requires Enabled(st, step) && s < |st.sessions| && Departing(st.sessions[s].pc)
    ensures TakenAtSends(steps + [step], s) == TakenAtSends(steps, s)
  {
    var next := steps + [step];
    assert next[..|next| - 1] == steps;
    EffectOf(st, step, s);
    hide Apply, Enabled;
  }

  lemma CarriesKept(steps: seq<Step>, st: State, step: Step, env: Envelope, rid: RoomId)
    requires Inv(st) && Enabled(st, step) && LoggedIn(st.sessions, env.from) && Carries(steps, st.sessions, env, rid)
    ensures Carries(steps + [step], Apply(st, step).sessions, env, rid)
  {
    hide RoomOk, SentOk, MembersOk, FirstEventDue, SessionOk, RegistryOk, Apply, Enabled, Asks;
    SessionFact(st, env.from);
    SessionGrows(st, step, env.from);
    if env.no < |TakenAtSends(steps, env.from)| {
      SubjectKept(steps, step, env.from, env.no);
      hide Subject, TakenAtSends;
    } else {
      NoMoreRequests(steps, st, step, env.from);
      DepartureLasts(st, step, env.from);
      hide Subject, TakenAtSends;
    }
  }

  /** The send that a step makes carries what was asked. */
  lemma DispatchCarries(bearer: string, steps: seq<Step>, step: Step)
    requires Valid(bearer, steps) && Enabled(Exec(bearer, steps), step) && Dispatched(Exec(bearer, steps), step).Some?
    ensures var st, d := Exec(bearer, steps), Dispatched(Exec(bearer, steps), step).value;
            d.inc < |st.rooms| && Carries(steps + [step], Apply(st, step).sessions, d.env, st.rooms[d.inc].room.id)
  {
    hide Inv, Exec, Valid, Apply, Numbered, Asks, LastTaken, Subject;
    var st := Exec(bearer, steps);
    var s := step.s;
    InvHolds(bearer, steps);
    ActsInRange(st, step);
    SessionFact(st, s);
    TraceHolds(bearer, steps, s);
    if step.SendRequest? {
      RequestCarries(bearer, steps, s);
    } else {
      FarewellCarries(bearer, steps, step);
    }
  }

  lemma RequestCarries(bearer: string, steps: seq<Step>, s: SessionId)
    requires Valid(bearer, steps) && Enabled(Exec(bearer, steps), SendRequest(s))
    ensures var st := Exec(bearer, steps);
            var x := st.sessions[s];
            var env := Envelope(s, x.sends, RequestEvent(x, s));
            Carries(steps + [SendRequest(s)], Apply(st, SendRequest(s)).sessions, env, st.rooms[x.pc.inc].room.id)
  {
    hide Exec, Valid, Apply, Asks, Subject, LastTaken, TakenAtSends, RequestEvent, Numbered, ClientSent;
    var st := Exec(bearer, steps);
    var x := st.sessions[s];
    TraceHolds(bearer, steps, s);
    InputIsFifo(bearer, steps, s);
    SendIsLast(steps, x, s);
    RequestKeepsId(st, s);
    hide Enabled;
  }

  lemma RequestKeepsId(st: State, s: SessionId)
    requires Enabled(st, SendRequest(s))
    ensures s < |Apply(st, SendRequest(s)).sessions| && Apply(st, SendRequest(s)).sessions[s].id == st.sessions[s].id
  {
    hide Enqueue, RequestEvent;
  }

  lemma SendIsLast(steps: seq<Step>, x: Session, s: SessionId)
    requires Numbered(steps, x, s) && RequestHalf(x.pc) && TakenCount(steps, s) <= |ClientSent(steps, s)|
    ensures x.sends < |TakenAtSends(steps + [SendRequest(s)], s)|
    ensures Subject(steps + [SendRequest(s)], s, x.sends) == LastTaken(steps, s)
  {
    var next := steps + [SendRequest(s)];
    assert next[..|next| - 1] == steps;
    assert TakenAtSends(next, s) == TakenAtSends(steps, s) + [TakenCount(steps, s)];
    assert ClientSent(next, s) == ClientSent(steps, s);
    hide TakenAtSends, ClientSent, TakenCount;
  }

  lemma FarewellCarries(bearer: string, steps: seq<Step>, step: Step)
    requires Valid(bearer, steps) && Enabled(Exec(bearer, steps), step) && step.SendLeave?
    requires step.s < |Exec(bearer, steps).sessions| && Numbered(steps, Exec(bearer, steps).sessions[step.s], step.s)
    ensures var st := Exec(bearer, steps);
            var x := st.sessions[step.s];
            Carries(steps + [step], Apply(st, step).sessions, Envelope(step.s, x.sends, InputLeave(x.id)),
              st.rooms[x.pc.remaining[step.roomId]].room.id)
  {
    var st := Exec(bearer, steps);
    NoMoreRequests(steps, st, step, step.s);
    hide Exec, Valid, TakenAtSends, TakenCount, Enqueue;
  }

  lemma {:induction false} CarriesHolds(bearer: string, steps: seq<Step>, i: IncId, k: nat)
    requires Valid(bearer, steps) && i < |Exec(bearer, steps).rooms| && k < |Exec(bearer, steps).rooms[i].sent|
    ensures var st := Exec(bearer, steps);
            Carries(steps, st.sessions, st.rooms[i].sent[k], st.rooms[i].room.id)
  {
    hide Apply, Enabled, RoomOk, SentOk, MembersOk, SessionsOk, RegistryOk, FirstEventDue, Carries, Dispatched;
    var front, step := steps[..|steps| - 1], steps[|steps| - 1];
    assert front + [step] == steps;
    var st := Exec(bearer, front);
    SentStep(st, step);
    RoomIdentity(st, step);
    if i < |st.rooms| && k < |st.rooms[i].sent| {
      CarriesHolds(bearer, front, i, k);
      InvHolds(bearer, front);
      SentByLoggedIn(st, i, k);
      CarriesKept(front, st, step, st.rooms[i].sent[k], st.rooms[i].room.id);
    } else {
      DispatchCarries(bearer, front, step);
    }
  }

  lemma SentByLoggedIn(st: State, i: IncId, k: nat)
    requires Inv(st) && i < |st.rooms| && k < |st.rooms[i].sent|
    ensures LoggedIn(st.sessions, st.rooms[i].sent[k].from)
  {
    hide RoomOk, MembersOk, SessionsOk, RegistryOk, FirstEventDue;
    assert SentOk(st.sessions, st.rooms[i]);
  }
}
