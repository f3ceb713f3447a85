/** Without new connections or client messages the server comes to rest, and at rest every cache
    and every client's picture is the truth. */
module Quiescence {
  import opened Events
  import opened RoomCore
  import opened PlayerCore
  import opened Protocol
  import opened Rooms
  import opened Membership
  import opened Cache
  import opened Coherence

  // ---------- Sums ----------

  function Total<T>(weight: T -> nat, xs: seq<T>): nat {
    if xs == [] then 0 else weight(xs[0]) + Total(weight, xs[1..])
  }

  lemma {:induction false} TotalUpdate<T>(weight: T -> nat, xs: seq<T>, i: nat, x: T)
    requires i < |xs|
    ensures Total(weight, xs[i := x]) + weight(xs[i]) == Total(weight, xs) + weight(x)
  {
    if i == 0 {
      assert xs[0 := x][1..] == xs[1..];
    } else {
      TotalUpdate(weight, xs[1..], i - 1, x);
      assert xs[i := x][1..] == xs[1..][i - 1 := x];
    }
  }

  // ---------- The measure ----------

  /** Sessions still connected: awaiting login or in the select loop. */
  function Connected(x: Session): nat {
    if x.pc.AwaitLogin? || Looping(x.pc) then 1 else 0
  }

  /** Client requests and half-done operations a session still has to work through. */
  function Requests(x: Session): nat {
    match x.pc
    case LeavingRooms(remaining) => |remaining| + 1
    case RejectingDuplicate => 1
    case RejectingDenied => 1
    case Finished => 0
    case Panicked => 0
    case _ => 2 * |x.input| + if RequestHalf(x.pc) then 1 else 0
  }

  /** Events and phases a room still has to work through. */
  function RoomWork(r: Incarnation): nat {
    match r.phase
    case Running => 2 * |r.queue| + 3
    case Sending => 2 * |r.queue| + 4
    case Stopping => 2
    case Deregistered => 1
    case Dropped => 0
  }

  function Outgoing(r: Incarnation): nat {
    |r.outbox|
  }

  /** Events a session in the select loop still has to handle. */
  function Incoming(x: Session): nat {
    if Looping(x.pc) then 2 * |x.inbox| + (if x.pc.JoinedHalf? then 1 else 0) else 0
  }

  datatype Measure = Measure(connected: nat, requests: nat, roomWork: nat, outgoing: nat, incoming: nat)

  function MeasureOf(st: State): Measure {
    Measure(Total(Connected, st.sessions), Total(Requests, st.sessions),
            Total(RoomWork, st.rooms), Total(Outgoing, st.rooms), Total(Incoming, st.sessions))
  }

  predicate Less(m: Measure, n: Measure) {
    m.connected < n.connected || (m.connected == n.connected && (
    m.requests < n.requests || (m.requests == n.requests && (
    m.roomWork < n.roomWork || (m.roomWork == n.roomWork && (
    m.outgoing < n.outgoing || (m.outgoing == n.outgoing && m.incoming < n.incoming)))))))
  }

  /** Steps of the server itself. */
  predicate Internal(step: Step) {
    !step.Connect? && !step.ClientSend? && !step.ClientClose?
  }

  // ---------- Every internal step makes progress ----------

  /** Progress of the acting session: it disconnects, works off a request, or handles an event. */
  ghost predicate Advances(x: Session, x': Session) {
    || Connected(x') < Connected(x)
    || (Connected(x') == Connected(x) && Requests(x') < Requests(x))
    || (Connected(x') == Connected(x) && Requests(x') == Requests(x) && Incoming(x') < Incoming(x))
  }

  lemma LoginAdvances(st: State, s: SessionId)
    requires Enabled(st, TryLogin(s))
    ensures |Apply(st, TryLogin(s)).sessions| == |st.sessions|
    ensures Advances(st.sessions[s], Apply(st, TryLogin(s)).sessions[s])
    ensures Requests(Apply(st, TryLogin(s)).sessions[s]) < Requests(st.sessions[s]) ||
      Connected(Apply(st, TryLogin(s)).sessions[s]) < Connected(st.sessions[s])
  {
  }

  lemma InputAdvances(st: State, s: SessionId)
    requires Enabled(st, TakeInput(s))
    ensures |Apply(st, TakeInput(s)).sessions| == |st.sessions|
    ensures Connected(Apply(st, TakeInput(s)).sessions[s]) == Connected(st.sessions[s])
    ensures Requests(Apply(st, TakeInput(s)).sessions[s]) < Requests(st.sessions[s])
  {
  }

  lemma RequestAdvances(st: State, s: SessionId)
    requires Enabled(st, SendRequest(s))
    ensures |Apply(st, SendRequest(s)).sessions| == |st.sessions|
    ensures Connected(Apply(st, SendRequest(s)).sessions[s]) == Connected(st.sessions[s])
    ensures Requests(Apply(st, SendRequest(s)).sessions[s]) < Requests(st.sessions[s])
  {
  }

  lemma SendLeaveAdvances(st: State, s: SessionId, rid: RoomId)
    requires Enabled(st, SendLeave(s, rid))
    ensures |Apply(st, SendLeave(s, rid)).sessions| == |st.sessions|
    ensures Connected(Apply(st, SendLeave(s, rid)).sessions[s]) == Connected(st.sessions[s])
    ensures Requests(Apply(st, SendLeave(s, rid)).sessions[s]) < Requests(st.sessions[s])
  {
    hide Enqueue;
    var remaining := st.sessions[s].pc.remaining;
    assert (remaining - {rid}).Keys == remaining.Keys - {rid};
    assert |remaining.Keys - {rid}| == |remaining.Keys| - 1;
    assert |remaining - {rid}| == |(remaining - {rid}).Keys| && |remaining| == |remaining.Keys|;
  }

  lemma EventAdvances(st: State, step: Step)
    requires Enabled(st, step) && (step.TakeEvent? || step.InsertJoined?)
    ensures Apply(st, step).rooms == st.rooms && |Apply(st, step).sessions| == |st.sessions|
    ensures Advances(st.sessions[step.s], Apply(st, step).sessions[step.s])
  {
    hide Notice, Panics, IsOwnJoin;
  }

  /** What the session does next disconnects it or works off requests. */
  ghost predicate WorksOff(x: Session, x': Session) {
    Connected(x') < Connected(x) || (Connected(x') == Connected(x) && Requests(x') < Requests(x))
  }

  lemma SessionAdvances(st: State, step: Step)
    requires Enabled(st, step) && Internal(step) && !RoomStep(step) && !step.TakeEvent? && !step.InsertJoined?
    ensures |Apply(st, step).sessions| == |st.sessions|
    ensures WorksOff(st.sessions[step.s], Apply(st, step).sessions[step.s])
  {
    hide LoginStep, InputStep, RequestStep, SendLeaveStep;
    match step {
      case TryLogin(s) => LoginAdvances(st, s);
      case TakeInput(s) => InputAdvances(st, s);
      case SendRequest(s) => RequestAdvances(st, s);
      case SendLeave(s, rid) => SendLeaveAdvances(st, s, rid);
      case _ =>
    }
  }

  lemma OnlyOneChanges(st: State, step: Step)
    requires Enabled(st, step) && Internal(step) && !RoomStep(step)
    requires |Apply(st, step).sessions| == |st.sessions|
    ensures step.s < |st.sessions|
    ensures Apply(st, step).sessions == st.sessions[step.s := Apply(st, step).sessions[step.s]]
  {
    assert step.s < |st.sessions|;
    forall t | 0 <= t < |st.sessions| && t != step.s ensures Apply(st, step).sessions[t] == st.sessions[t] {
      OthersUntouched(st, step, t);
    }
  }

  lemma SessionTotals(before: seq<Session>, after: seq<Session>, s: SessionId)
    requires s < |before| && |after| == |before| && after == before[s := after[s]]
    ensures Total(Connected, after) + Connected(before[s]) == Total(Connected, before) + Connected(after[s])
    ensures Total(Requests, after) + Requests(before[s]) == Total(Requests, before) + Requests(after[s])
    ensures Total(Incoming, after) + Incoming(before[s]) == Total(Incoming, before) + Incoming(after[s])
  {
    TotalUpdate(Connected, before, s, after[s]);
    TotalUpdate(Requests, before, s, after[s]);
    TotalUpdate(Incoming, before, s, after[s]);
  }

  lemma SessionStepProgress(st: State, step: Step)
    requires Enabled(st, step) && Internal(step) && !RoomStep(step)
    ensures Less(MeasureOf(Apply(st, step)), MeasureOf(st))
  {
    hide Apply, Enabled, Connected, Requests, Incoming, RoomWork, Outgoing, Total;
    if step.TakeEvent? || step.InsertJoined? {
      EventAdvances(st, step);
    } else {
      SessionAdvances(st, step);
    }
    OnlyOneChanges(st, step);
    SessionTotals(st.sessions, Apply(st, step).sessions, step.s);
  }

  lemma RoomTotals(before: seq<Incarnation>, i: IncId, r: Incarnation)
    requires i < |before|
    ensures Total(RoomWork, before[i := r]) + RoomWork(before[i]) == Total(RoomWork, before) + RoomWork(r)
    ensures Total(Outgoing, before[i := r]) + Outgoing(before[i]) == Total(Outgoing, before) + Outgoing(r)
  {
    TotalUpdate(RoomWork, before, i, r);
    TotalUpdate(Outgoing, before, i, r);
  }

  lemma RoomAdvances(r: Incarnation, i: IncId, step: Step)
    requires RoomStep(step) && RoomReady(r, step)
    ensures if step.RoomDeliver? then RoomWork(RoomAfter(r, i, step)) == RoomWork(r) &&
      Outgoing(RoomAfter(r, i, step)) < Outgoing(r)
            else RoomWork(RoomAfter(r, i, step)) < RoomWork(r)
  {
    hide Handle, Enumerates, Iterated;
  }

  lemma DeliverKeepsRequests(sessions: seq<Session>, post: Post)
    ensures Total(Connected, Deliver(sessions, post)) == Total(Connected, sessions)
    ensures Total(Requests, Deliver(sessions, post)) == Total(Requests, sessions)
  {
    if post.to < |sessions| && Alive(sessions[post.to].pc) {
      var x := sessions[post.to];
      SessionTotals(sessions, Deliver(sessions, post), post.to);
      assert Deliver(sessions, post)[post.to] == x.(inbox := x.inbox + [post.delivery]);
    }
  }

  lemma RoomStepProgress(st: State, step: Step)
    requires Enabled(st, step) && RoomStep(step)
    ensures Less(MeasureOf(Apply(st, step)), MeasureOf(st))
  {
    hide RoomAfter, Connected, Requests, Incoming, RoomWork, Outgoing, Total, Deliver, RoomReady;
    var r := st.rooms[step.i];
    RoomAdvances(r, step.i, step);
    RoomTotals(st.rooms, step.i, RoomAfter(r, step.i, step));
    if step.RoomDeliver? {
      assert r.outbox != [] by { DeliverReady(r, step); }
      DeliverKeepsRequests(st.sessions, r.outbox[0]);
    }
  }

  lemma DeliverReady(r: Incarnation, step: Step)
    requires RoomReady(r, step) && step.RoomDeliver?
    ensures r.outbox != []
  {
  }

  /** Every internal step makes the measure smaller. */
  lemma InternalProgress(st: State, step: Step)
    requires Enabled(st, step) && Internal(step)
    ensures Less(MeasureOf(Apply(st, step)), MeasureOf(st))
  {
    if RoomStep(step) {
      RoomStepProgress(st, step);
    } else {
      SessionStepProgress(st, step);
    }
  }

  // ---------- Every internal run ends ----------

  /** However steps are chosen, a run of the server without new input stops: somewhere along any
      infinite sequence of states, the chosen step is not an internal step that is enabled. */
  lemma {:induction false} InternalRunsEnd(states: nat -> State, choice: nat -> Step, n: nat)
    requires forall k :: k >= n && Internal(choice(k)) && Enabled(states(k), choice(k)) ==>
      states(k + 1) == Apply(states(k), choice(k))
    ensures exists k :: k >= n && !(Internal(choice(k)) && Enabled(states(k), choice(k)))
    decreases MeasureOf(states(n)).connected, MeasureOf(states(n)).requests, MeasureOf(states(n)).roomWork,
              MeasureOf(states(n)).outgoing, MeasureOf(states(n)).incoming
  {
    hide Apply, Enabled, Internal, MeasureOf;
    if Internal(choice(n)) && Enabled(states(n), choice(n)) {
      InternalProgress(states(n), choice(n));
      InternalRunsEnd(states, choice, n + 1);
    }
  }

  ghost predicate AtRest(st: State) {
    forall step :: Internal(step) ==> !Enabled(st, step)
  }

  /** From any reachable state the server can come to rest by its own steps. */
  lemma {:induction false} ComesToRest(bearer: string, steps: seq<Step>)
    requires Valid(bearer, steps)
    ensures exists more: seq<Step> ::
      && (forall k :: 0 <= k < |more| ==> Internal(more[k]))
      && Valid(bearer, steps + more) && AtRest(Exec(bearer, steps + more))
    decreases MeasureOf(Exec(bearer, steps)).connected, MeasureOf(Exec(bearer, steps)).requests,
      MeasureOf(Exec(bearer, steps)).roomWork,
              MeasureOf(Exec(bearer, steps)).outgoing, MeasureOf(Exec(bearer, steps)).incoming
  {
    hide Apply, Enabled, Internal, MeasureOf, Exec, Valid;
    if AtRest(Exec(bearer, steps)) {
      assert steps + [] == steps;
    } else {
      var step :| Internal(step) && Enabled(Exec(bearer, steps), step);
      hide AtRest;
      var next := steps + [step];
      OneMore(bearer, steps, step);
      InternalProgress(Exec(bearer, steps), step);
      ComesToRest(bearer, next);
      var more: seq<Step> :|
        && (forall k :: 0 <= k < |more| ==> Internal(more[k]))
        && Valid(bearer, next + more) && AtRest(Exec(bearer, next + more));
      assert next + more == steps + ([step] + more);
    }
  }

  // ---------- The state at rest ----------

  lemma {:induction false} EnumerationExists(keys: set<PlayerId>)
    ensures exists order :: Enumerates(order, keys)
  {
    if keys == {} {
      assert Enumerates([], keys);
    } else {
      var p :| p in keys;
      EnumerationExists(keys - {p});
      var order :| Enumerates(order, keys - {p});
      assert Enumerates([p] + order, keys);
    }
  }

  lemma CanTake(st: State, i: IncId)
    requires i < |st.rooms| && st.rooms[i].phase.Running? && st.rooms[i].queue != []
    ensures exists order :: Enabled(st, RoomTake(i, order))
  {
    var keys := Iterated(st.rooms[i].room, st.rooms[i].queue[0].event).Keys;
    EnumerationExists(keys);
    var order :| Enumerates(order, keys);
    assert Enabled(st, RoomTake(i, order));
  }

  lemma CanSendLeave(st: State, s: SessionId)
    requires s < |st.sessions| && SessionOk(st.sessions[s], st.rooms)
    requires st.sessions[s].pc.LeavingRooms? && st.sessions[s].pc.remaining != map[]
    ensures exists rid :: Enabled(st, SendLeave(s, rid))
  {
    var rid :| rid in st.sessions[s].pc.remaining;
    assert Enabled(st, SendLeave(s, rid));
  }

  lemma RoomAtRest(st: State, i: IncId)
    requires AtRest(st) && i < |st.rooms| && RoomOk(st.rooms[i]) && FirstEventDue(st, i)
    requires forall s :: 0 <= s < |st.sessions| ==> !RequestHalf(st.sessions[s].pc)
    ensures st.rooms[i].phase.Dropped? ||
      (st.rooms[i].phase.Running? && st.rooms[i].queue == [] && st.rooms[i].room.players != map[])
    ensures st.rooms[i].outbox == []
  {
    var r := st.rooms[i];
    hide FoldLog;
    assert !Enabled(st, RoomDeliver(i)) && !Enabled(st, RoomSettle(i)) && !Enabled(st, RoomDeregister(i)) &&
      !Enabled(st, RoomDrop(i));
    if r.phase.Running? && r.queue != [] {
      CanTake(st, i);
    }
  }

  lemma SessionAtRest(st: State, s: SessionId)
    requires AtRest(st) && s < |st.sessions| && SessionOk(st.sessions[s], st.rooms)
    ensures var x := st.sessions[s];
            && (x.pc.AwaitLogin? || x.pc.Idle? || x.pc.Finished? || x.pc.Panicked?)
            && (x.pc.AwaitLogin? || x.pc.Idle? ==> !x.clientGone && x.input == [] && x.inbox == [])
  {
    WaitingAtRest(st, s);
    DrainedAtRest(st, s);
    hide AtRest, HandlesOk;
  }

  lemma WaitingAtRest(st: State, s: SessionId)
    requires AtRest(st) && s < |st.sessions| && SessionOk(st.sessions[s], st.rooms)
    ensures var pc := st.sessions[s].pc; pc.AwaitLogin? || pc.Idle? || pc.Finished? || pc.Panicked?
  {
    var x := st.sessions[s];
    assert !Enabled(st, RejectUnregister(s)) && !Enabled(st, SendRequest(s)) && !Enabled(st, InsertJoined(s)) &&
      !Enabled(st, Unregister(s));
    if x.pc.LeavingRooms? && x.pc.remaining != map[] {
      CanSendLeave(st, s);
    }
  }

  lemma DrainedAtRest(st: State, s: SessionId)
    requires AtRest(st) && s < |st.sessions|
    ensures var x := st.sessions[s];
            x.pc.AwaitLogin? || x.pc.Idle? ==> !x.clientGone && x.input == [] && (x.pc.Idle? ==> x.inbox == [])
  {
    assert !Enabled(st, TryLogin(s)) && !Enabled(st, LoginClosed(s)) && !Enabled(st, TakeInput(s)) &&
      !Enabled(st, TakeEvent(s)) && !Enabled(st, Disconnect(s));
  }

  /** At rest every session is waiting for its client, finished or crashed; a session in its
      select loop caches exactly the rooms it is in; its client's player list for each room is the
      room's member table; and the rooms that remain are waiting and have members. */
  lemma TruthAtRest(bearer: string, steps: seq<Step>, s: SessionId, rid: RoomId)
    requires Valid(bearer, steps) && AtRest(Exec(bearer, steps))
    requires s < |Exec(bearer, steps).sessions| && Looping(Exec(bearer, steps).sessions[s].pc)
    ensures var st := Exec(bearer, steps);
            var x := st.sessions[s];
            && x.pc.Idle? && x.inbox == [] && !x.clientGone
            && (rid in x.joined <==> IsMember(st, s, rid))
            && (forall i :: 0 <= i < |st.rooms| && st.rooms[i].room.id == rid && MemberOf(st, s, i) ==>
                  x.joined[rid] == i && ClientView(x.out, rid) == Inside(st.rooms[i].room.players.Keys))
            && (!IsMember(st, s, rid) ==> ClientView(x.out, rid) == Outside)
  {
    var st := Exec(bearer, steps);
    RoomsAtRest(bearer, steps);
    InvHolds(bearer, steps);
    hide RoomOk, SentOk, MembersOk, RegistryOk, FirstEventDue, SessionsOk, AtRest, ClientView, Enabled, Apply;
    assert SessionOk(st.sessions[s], st.rooms) by { SessionFact(st, s); }
    SessionAtRest(st, s);
    assert Rest(st, s, rid) == [];
    CacheCoherence(bearer, steps, s, rid);
    ClientSeesTruth(bearer, steps, s, rid);
  }

  lemma RoomsAtRest(bearer: string, steps: seq<Step>)
    requires Valid(bearer, steps) && AtRest(Exec(bearer, steps))
    ensures var st := Exec(bearer, steps);
            && (forall i :: 0 <= i < |st.rooms| ==>
                  && st.rooms[i].outbox == []
                  && (st.rooms[i].phase.Dropped? ||
                    (st.rooms[i].phase.Running? && st.rooms[i].queue == [] && st.rooms[i].room.players != map[])))
            && (forall s :: 0 <= s < |st.sessions| ==>
                  st.sessions[s].pc.AwaitLogin? || st.sessions[s].pc.Idle? || st.sessions[s].pc.Finished? ||
                    st.sessions[s].pc.Panicked?)
  {
    var st := Exec(bearer, steps);
    InvHolds(bearer, steps);
    hide RoomOk, SentOk, MembersOk, RegistryOk, FirstEventDue, SessionOk, AtRest, Enabled, Apply;
    forall s | 0 <= s < |st.sessions|
      ensures st.sessions[s].pc.AwaitLogin? || st.sessions[s].pc.Idle? || st.sessions[s].pc.Finished? ||
        st.sessions[s].pc.Panicked?
    {
      SessionAtRest(st, s);
    }
    forall i | 0 <= i < |st.rooms|
      ensures st.rooms[i].outbox == []
      ensures st.rooms[i].phase.Dropped? ||
        (st.rooms[i].phase.Running? && st.rooms[i].queue == [] && st.rooms[i].room.players != map[])
    {
      RoomHolds(bearer, steps, i);
      RoomAtRest(st, i);
    }
  }
}
