/** Orders that survive the destruction and recreation of rooms: who sent first, and what is
    seen first. */
module Ordering {
  import opened Wrappers
  import opened Events
  import opened RoomCore
  import opened Protocol
  import opened Rooms
  import opened Streams
  import opened Membership

  /** `d` was handled before, or together with, `e`. */
  predicate NotAfter(d: Delivery, e: Delivery) {
    d.inc < e.inc || (d.inc == e.inc && d.pos <= e.pos)
  }

  predicate SameTag(d: Delivery, e: Delivery) {
    d.inc == e.inc && d.pos == e.pos
  }

  predicate SameRoomId(rooms: seq<Incarnation>, i: IncId, j: IncId) {
    i < |rooms| && j < |rooms| && rooms[i].room.id == rooms[j].room.id
  }

  /** A stream shows the events of one room id in the order in which they were handled. */
  ghost predicate Sorted(rooms: seq<Incarnation>, stream: seq<Delivery>) {
    forall k, m :: 0 <= k < m < |stream| && SameRoomId(rooms, stream[k].inc, stream[m].inc) ==>
      NotAfter(stream[k], stream[m])
  }

  ghost predicate SortedInv(st: State) {
    forall s :: 0 <= s < |st.sessions| ==> Sorted(st.rooms, Stream(st.sessions[s]))
  }

  // ---------- Streams stay sorted ----------

  lemma SortedGrows(before: seq<Incarnation>, after: seq<Incarnation>, stream: seq<Delivery>)
    requires Sorted(before, stream) && LogsGrow(before, after)
    requires forall k :: 0 <= k < |stream| ==> stream[k].inc < |before|
    ensures Sorted(after, stream)
  {
  }

  /** What a room is sending comes after everything its members heard from the same room id. */
  lemma DeliverSorted(st: State, i: IncId, s: SessionId)
    requires RegistryOk(st) && Enabled(st, RoomDeliver(i)) && s < |st.sessions|
    requires Sorted(st.rooms, Stream(st.sessions[s])) && StreamOrigin(st.rooms, st.sessions[s], s)
    requires OutboxOrigin(st.rooms, i)
    ensures Sorted(st.rooms, Stream(st.sessions[s]) + [st.rooms[i].outbox[0].delivery])
  {
    var stream, d := Stream(st.sessions[s]), st.rooms[i].outbox[0].delivery;
    assert Origin(st.rooms, st.rooms[i].outbox[0]) && d.inc == i && d.pos == |st.rooms[i].log| - 1;
    forall k | 0 <= k < |stream| && SameRoomId(st.rooms, stream[k].inc, i) ensures NotAfter(stream[k], d) {
      assert Origin(st.rooms, Post(s, stream[k]));
      RegisteredIsNewest(st, st.rooms[i].room.id, stream[k].inc);
    }
  }

  lemma SortedStep(st: State, step: Step, s: SessionId)
    requires Inv(st) && OriginInv(st) && Enabled(st, step) && s < |st.sessions|
    requires Sorted(st.rooms, Stream(st.sessions[s]))
    ensures s < |Apply(st, step).sessions| && Sorted(Apply(st, step).rooms, Stream(Apply(st, step).sessions[s]))
  {
    hide RoomOk, SentOk, MembersOk, SessionsOk, FirstEventDue, RegistryOk, Sorted, OutboxOrigin, Apply;
    LogsGrowStep(st, step);
    StreamStep(st, step, s);
    var stream := Stream(st.sessions[s]);
    assert StreamOrigin(st.rooms, st.sessions[s], s);
    forall k | 0 <= k < |stream| ensures stream[k].inc < |st.rooms| {
      assert Origin(st.rooms, Post(s, stream[k]));
    }
    if Stream(Apply(st, step).sessions[s]) == stream {
      SortedGrows(st.rooms, Apply(st, step).rooms, stream);
    } else {
      DeliverSorted(st, step.i, s);
      assert OutboxOrigin(st.rooms, step.i);
      HeadOrigin(st.rooms, step.i);
      SortedGrows(st.rooms, Apply(st, step).rooms, Stream(Apply(st, step).sessions[s]));
    }
  }

  lemma HeadOrigin(rooms: seq<Incarnation>, i: IncId)
    requires i < |rooms| && OutboxOrigin(rooms, i) && rooms[i].outbox != []
    ensures Origin(rooms, rooms[i].outbox[0])
  {
  }

  lemma {:induction false} SortedHolds(bearer: string, steps: seq<Step>)
    requires Valid(bearer, steps)
    ensures SortedInv(Exec(bearer, steps))
  {
    hide Inv, OriginInv, Sorted, Apply, Enabled;
    if steps != [] {
      var before, step := Exec(bearer, steps[..|steps| - 1]), steps[|steps| - 1];
      SortedHolds(bearer, steps[..|steps| - 1]);
      InvHolds(bearer, steps[..|steps| - 1]);
      OriginHolds(bearer, steps[..|steps| - 1]);
      var st' := Exec(bearer, steps);
      forall s | 0 <= s < |st'.sessions| ensures Sorted(st'.rooms, Stream(st'.sessions[s])) {
        if s < |before.sessions| {
          SortedStep(before, step, s);
        } else {
          NewcomerStranger(before, step);
          SessionCount(before, step);
          NothingSorted(st'.rooms);
        }
      }
    }
  }

  lemma NothingSorted(rooms: seq<Incarnation>)
    ensures Sorted(rooms, [])
  {
  }

  // ---------- Senders' order ----------

  /** Within one queue a session's sends are in the order it made them. */
  ghost predicate QueueOrder(r: Incarnation) {
    forall a, b :: 0 <= a < b < |r.sent| && r.sent[a].from == r.sent[b].from ==> r.sent[a].no < r.sent[b].no
  }

  /** The send may be a farewell: a leave of a session that has started to disconnect, which goes
      to the channel the session had cached. */
  predicate Farewell(sessions: seq<Session>, env: Envelope) {
    env.event.InputLeave? && env.from < |sessions| && Departing(sessions[env.from].pc)
  }

  /** Across incarnations of an id a session's sends are in the order it made them, but for its
      farewells, which may go to an old incarnation. */
  ghost predicate EarlierSent(sessions: seq<Session>, r: Incarnation, r': Incarnation) {
    forall a, b ::
      (0 <= a < |r.sent| && 0 <= b < |r'.sent| && r'.sent[b].from == r.sent[a].from && !Farewell(sessions, r.sent[a]))
      ==> r.sent[a].no < r'.sent[b].no
  }

  /** A session about to send a request has sent nothing to a newer incarnation of the id. */
  ghost predicate AimsAtNewest(rooms: seq<Incarnation>, x: Session, s: SessionId) {
    RequestHalf(x.pc) ==>
      forall j, b :: x.pc.inc < j < |rooms| && SameRoomId(rooms, x.pc.inc, j) && 0 <= b < |rooms[j].sent| ==>
        rooms[j].sent[b].from != s
  }

  ghost predicate SendOrderInv(st: State) {
    && (forall i :: 0 <= i < |st.rooms| ==> QueueOrder(st.rooms[i]))
    && (forall i, j :: 0 <= i < j < |st.rooms| && SameRoomId(st.rooms, i, j) ==>
      EarlierSent(st.sessions, st.rooms[i], st.rooms[j]))
    && (forall s :: 0 <= s < |st.sessions| ==> AimsAtNewest(st.rooms, st.sessions[s], s))
  }

  /** What each kind of step does to the histories of sends. */
  ghost predicate SentKept(before: seq<Incarnation>, after: seq<Incarnation>) {
    && |before| <= |after|
    && (forall i :: 0 <= i < |before| ==> after[i].sent == before[i].sent && after[i].room.id == before[i].room.id)
    && (forall i :: |before| <= i < |after| ==> after[i].sent == [])
  }

  ghost predicate SentOne(before: seq<Incarnation>, after: seq<Incarnation>, d: Dispatch) {
    && |before| == |after| && d.inc < |before|
    && after[d.inc].sent == before[d.inc].sent + [d.env]
    && (forall i :: 0 <= i < |before| && i != d.inc ==> after[i].sent == before[i].sent)
    && (forall i :: 0 <= i < |before| ==> after[i].room.id == before[i].room.id)
  }

  lemma SentStep(st: State, step: Step)
    requires Enabled(st, step)
    ensures var d := Dispatched(st, step);
            if d.Some? then SentOne(st.rooms, Apply(st, step).rooms, d.value)
              else SentKept(st.rooms, Apply(st, step).rooms)
  {
    RoomIdentity(st, step);
    if RoomStep(step) {
      RoomStepSent(st, step);
    } else if Creates(st, step) {
      CreateKeepsOthers(st, step);
    } else {
      SessionStepRooms(st, step);
    }
    hide Apply;
  }

  lemma RoomStepSent(st: State, step: Step)
    requires Enabled(st, step) && RoomStep(step)
    ensures |Apply(st, step).rooms| == |st.rooms|
    ensures forall i :: 0 <= i < |st.rooms| ==> Apply(st, step).rooms[i].sent == st.rooms[i].sent
  {
  }

  lemma OrderStepRooms(st: State, step: Step)
    requires SendOrderInv(st) && Enabled(st, step) && SessionsOk(st)
    requires forall i :: 0 <= i < |st.rooms| ==> SentOk(st.sessions, st.rooms[i])
    ensures var rooms, sessions := Apply(st, step).rooms, Apply(st, step).sessions;
            && (forall i :: 0 <= i < |rooms| ==> QueueOrder(rooms[i]))
            && (forall i, j :: 0 <= i < j < |rooms| && SameRoomId(rooms, i, j) ==>
              EarlierSent(sessions, rooms[i], rooms[j]))
  {
    hide QueueOrder, EarlierSent, AimsAtNewest, SentOk, Apply, SessionOk;
    var rooms, d := Apply(st, step).rooms, Dispatched(st, step);
    SentStep(st, step);
    forall i | 0 <= i < |rooms| ensures QueueOrder(rooms[i]) {
      if d.Some? && i == d.value.inc {
        DispatchedIsSpoken(st, step);
        NewestNumber(st.sessions, st.rooms[i], rooms[i], d.value.env);
      } else if i < |st.rooms| {
        SameSent(st.rooms[i], rooms[i]);
      } else {
        NoneSent(st.sessions, rooms[i], rooms[i]);
      }
    }
    forall i, j | 0 <= i < j < |rooms| &&
      SameRoomId(rooms, i, j) ensures EarlierSent(Apply(st, step).sessions, rooms[i], rooms[j]) {
      if j >= |st.rooms| {
        NoneSent(Apply(st, step).sessions, rooms[i], rooms[j]);
      } else {
        assert SameRoomId(st.rooms, i, j);
        EarlierStep(st, step, i, j);
      }
    }
  }

  lemma NewestNumber(sessions: seq<Session>, r: Incarnation, r': Incarnation, env: Envelope)
    requires QueueOrder(r) && SentOk(sessions, r) && r'.sent == r.sent + [env]
    requires LoggedIn(sessions, env.from) && env.no == sessions[env.from].sends
    ensures QueueOrder(r')
  {
  }

  lemma SameSent(r: Incarnation, r': Incarnation)
    requires QueueOrder(r) && r'.sent == r.sent
    ensures QueueOrder(r')
  {
  }

  lemma NoneSent(sessions: seq<Session>, r: Incarnation, r': Incarnation)
    requires r'.sent == []
    ensures QueueOrder(r') && EarlierSent(sessions, r, r')
  {
  }

  lemma EarlierStep(st: State, step: Step, i: IncId, j: IncId)
    requires Enabled(st, step) && SessionsOk(st)
    requires i < j < |st.rooms| && SameRoomId(st.rooms, i, j) && EarlierSent(st.sessions, st.rooms[i], st.rooms[j])
    requires SentOk(st.sessions, st.rooms[i])
    requires forall s :: 0 <= s < |st.sessions| ==> AimsAtNewest(st.rooms, st.sessions[s], s)
    ensures j < |Apply(st, step).rooms| &&
      EarlierSent(Apply(st, step).sessions, Apply(st, step).rooms[i], Apply(st, step).rooms[j])
  {
    hide SessionsOk, SessionOk, Apply, Enabled, Dispatched, SentOk, AimsAtNewest, EarlierSent;
    var st', d := Apply(st, step), Dispatched(st, step);
    SentStep(st, step);
    FarewellsLast(st, step, st.rooms[i], st.rooms[j]);
    if d.Some? {
      DispatchedIsSpoken(st, step);
      if d.value.inc == i {
        OlderReceives(st, step, i, j);
        SendToOlder(st'.sessions, st.rooms[i], st'.rooms[i], st.rooms[j], st'.rooms[j], d.value.env);
      } else if d.value.inc == j {
        SendToNewer(st.sessions, st'.sessions, st.rooms[i], st'.rooms[i], st.rooms[j], st'.rooms[j], d.value.env);
      } else {
        SameSends(st'.sessions, st.rooms[i], st'.rooms[i], st.rooms[j], st'.rooms[j]);
      }
    } else {
      SameSends(st'.sessions, st.rooms[i], st'.rooms[i], st.rooms[j], st'.rooms[j]);
    }
  }

  lemma SameSends(sessions: seq<Session>, r: Incarnation, r': Incarnation, q: Incarnation, q': Incarnation)
    requires EarlierSent(sessions, r, q) && r'.sent == r.sent && q'.sent == q.sent
    ensures EarlierSent(sessions, r', q')
  {
  }

  /** What is excepted stays excepted. */
  lemma FarewellsLast(st: State, step: Step, r: Incarnation, r': Incarnation)
    requires Enabled(st, step) && EarlierSent(st.sessions, r, r')
    ensures EarlierSent(Apply(st, step).sessions, r, r')
  {
    hide Apply, Enabled;
    forall a | 0 <= a < |r.sent| &&
      Farewell(st.sessions, r.sent[a]) ensures Farewell(Apply(st, step).sessions, r.sent[a]) {
      DepartureLasts(st, step, r.sent[a].from);
    }
  }

  /** Only a farewell goes to an incarnation of which a newer one has heard from the session. */
  lemma OlderReceives(st: State, step: Step, i: IncId, j: IncId)
    requires Enabled(st, step) && SessionsOk(st)
    requires Dispatched(st, step).Some? && Dispatched(st, step).value.inc == i < j < |st.rooms| &&
      SameRoomId(st.rooms, i, j)
    requires forall s :: 0 <= s < |st.sessions| ==> AimsAtNewest(st.rooms, st.sessions[s], s)
    ensures var env := Dispatched(st, step).value.env;
            Farewell(Apply(st, step).sessions, env) || forall b :: 0 <= b < |st.rooms[j].sent| ==>
              st.rooms[j].sent[b].from != env.from
  {
    if step.SendRequest? {
      assert AimsAtNewest(st.rooms, st.sessions[step.s], step.s);
    }
    hide SessionsOk;
  }

  lemma SendToOlder(sessions: seq<Session>, r: Incarnation, r': Incarnation, q: Incarnation, q': Incarnation,
      env: Envelope)
    requires EarlierSent(sessions, r, q) && r'.sent == r.sent + [env] && q'.sent == q.sent
    requires Farewell(sessions, env) || forall b :: 0 <= b < |q.sent| ==> q.sent[b].from != env.from
    ensures EarlierSent(sessions, r', q')
  {
  }

  lemma SendToNewer(before: seq<Session>, sessions: seq<Session>, r: Incarnation, r': Incarnation, q: Incarnation,
      q': Incarnation, env: Envelope)
    requires EarlierSent(sessions, r, q) && r'.sent == r.sent && q'.sent == q.sent + [env]
    requires SentOk(before, r) && env.from < |before| && env.no == before[env.from].sends
    ensures EarlierSent(sessions, r', q')
  {
  }

  /** Lookups find the newest incarnation of an id. */
  lemma RegisteredIsNewest(st: State, rid: RoomId, j: IncId)
    requires RegistryOk(st) && rid in st.registry && j < |st.rooms| && st.rooms[j].room.id == rid
    ensures j <= st.registry[rid]
  {
  }

  lemma AimStep(st: State, step: Step, s: SessionId)
    requires SendOrderInv(st) && RegistryOk(st) && Enabled(st, step) && SessionsOk(st)
    requires s < |Apply(st, step).sessions|
    ensures AimsAtNewest(Apply(st, step).rooms, Apply(st, step).sessions[s], s)
  {
    hide QueueOrder, EarlierSent, RegistryOk, SessionOk;
    var st' := Apply(st, step);
    SentStep(st, step);
    if RequestHalf(st'.sessions[s].pc) {
      AimSource(st, step, s);
      var i := st'.sessions[s].pc.inc;
      forall j, b | i < j < |st'.rooms| && SameRoomId(st'.rooms, i, j) && 0 <= b < |st'.rooms[j].sent|
        ensures st'.rooms[j].sent[b].from != s
      {
        if st.sessions[s].pc == st'.sessions[s].pc {
          assert AimsAtNewest(st.rooms, st.sessions[s], s);
        } else {
          RegisteredIsNewest(st, st.rooms[i].room.id, j);
        }
      }
    }
  }

  /** The channel a request is aimed at: chosen before, or just created, or just looked up. */
  lemma AimSource(st: State, step: Step, s: SessionId)
    requires RegistryOk(st) && Enabled(st, step) && SessionsOk(st)
    requires s < |Apply(st, step).sessions| && RequestHalf(Apply(st, step).sessions[s].pc)
    ensures s < |st.sessions|
    ensures var pc, i := Apply(st, step).sessions[s].pc, Apply(st, step).sessions[s].pc.inc;
            if st.sessions[s].pc == pc then
              i < |st.rooms| && (Dispatched(st, step).Some? ==> Dispatched(st, step).value.env.from != s)
            else
              && Dispatched(st, step).None?
              && if i < |st.rooms| then
                   |Apply(st, step).rooms| == |st.rooms| && st.rooms[i].room.id in st.registry &&
                     st.registry[st.rooms[i].room.id] == i
                 else |Apply(st, step).rooms| == i + 1
  {
    SessionCount(st, step);
    if s < |st.sessions| {
      assert SessionOk(st.sessions[s], st.rooms);
      hide SessionsOk;
      if RoomStep(step) || step.Connect? || step.s != s {
        OthersUntouched(st, step, s);
      } else {
        OwnAimSource(st, step);
      }
      hide Apply;
    }
  }

  lemma OwnAimSource(st: State, step: Step)
    requires RegistryOk(st) && Enabled(st, step) && !RoomStep(step) && !step.Connect?
    requires SessionOk(st.sessions[step.s], st.rooms)
    requires step.s < |Apply(st, step).sessions| && RequestHalf(Apply(st, step).sessions[step.s].pc)
    ensures Dispatched(st, step).None?
    ensures st.sessions[step.s].pc == Apply(st, step).sessions[step.s].pc || step.TakeInput?
    ensures st.sessions[step.s].pc == Apply(st, step).sessions[step.s].pc ==>
      Apply(st, step).sessions[step.s].pc.inc < |st.rooms|
    ensures step.TakeInput? ==>
      var i := Apply(st, step).sessions[step.s].pc.inc;
      if i < |st.rooms| then
        |Apply(st, step).rooms| == |st.rooms| && st.rooms[i].room.id in st.registry &&
          st.registry[st.rooms[i].room.id] == i
      else |Apply(st, step).rooms| == i + 1
  {
    hide Enqueue, HandlesOk, LoginStep, InputStep, RegistryOk, EventStep;
    if step.TryLogin? {
      LoginNotHalf(st, step.s);
    } else if step.TakeInput? {
      InputAims(st, step.s);
    } else if step.TakeEvent? {
      EventNotHalf(st, step.s);
    }
  }

  lemma InputAims(st: State, s: SessionId)
    requires RegistryOk(st) && s < |st.sessions| && st.sessions[s].input != [] && st.sessions[s].pc.Idle?
    ensures s < |InputStep(st, s).sessions|
    ensures RequestHalf(InputStep(st, s).sessions[s].pc) ==>
      var i := InputStep(st, s).sessions[s].pc.inc;
      if i < |st.rooms| then
        |InputStep(st, s).rooms| == |st.rooms| && st.rooms[i].room.id in st.registry &&
          st.registry[st.rooms[i].room.id] == i
      else |InputStep(st, s).rooms| == i + 1
  {
  }

  lemma EventNotHalf(st: State, s: SessionId)
    requires s < |st.sessions| && st.sessions[s].pc.Idle? && st.sessions[s].inbox != []
    ensures s < |EventStep(st, s).sessions| && !RequestHalf(EventStep(st, s).sessions[s].pc)
  {
  }

  lemma LoginNotHalf(st: State, s: SessionId)
    requires s < |st.sessions| && st.sessions[s].pc.AwaitLogin? && st.sessions[s].input != []
    ensures s < |LoginStep(st, s).sessions| && !RequestHalf(LoginStep(st, s).sessions[s].pc)
  {
  }

  lemma {:induction false} SendOrderHolds(bearer: string, steps: seq<Step>)
    requires Valid(bearer, steps)
    ensures SendOrderInv(Exec(bearer, steps))
  {
    hide RoomOk, SentOk, MembersOk, SessionsOk, FirstEventDue, RegistryOk, QueueOrder, EarlierSent, AimsAtNewest,
      Apply, Enabled;
    if steps != [] {
      var before, step := Exec(bearer, steps[..|steps| - 1]), steps[|steps| - 1];
      SendOrderHolds(bearer, steps[..|steps| - 1]);
      InvHolds(bearer, steps[..|steps| - 1]);
      OrderStepRooms(before, step);
      var st' := Exec(bearer, steps);
      forall s | 0 <= s < |st'.sessions| ensures AimsAtNewest(st'.rooms, st'.sessions[s], s) {
        AimStep(before, step, s);
      }
    }
  }

  // ---------- The order theorems ----------

  /** The envelope a delivery answers to. */
  function Cause(st: State, d: Delivery): Envelope
    requires d.inc < |st.rooms| && d.pos < |st.rooms[d.inc].log|
  {
    st.rooms[d.inc].log[d.pos].env
  }

  ghost predicate Caused(st: State, d: Delivery) {
    d.inc < |st.rooms| && d.pos < |st.rooms[d.inc].log|
  }

  lemma DeliveriesAreCaused(bearer: string, steps: seq<Step>, s: SessionId, k: nat)
    requires Valid(bearer, steps)
    requires s < |Exec(bearer, steps).sessions| && k < |Stream(Exec(bearer, steps).sessions[s])|
    ensures var st := Exec(bearer, steps);
            var d := Stream(st.sessions[s])[k];
            && Caused(st, d)
            && About(d.event, st.rooms[d.inc].room.id)
            && (d.event.OutputMessage? ==> Cause(st, d).event.InputMessage?)
            && d.pos < |st.rooms[d.inc].sent| && st.rooms[d.inc].sent[d.pos] == Cause(st, d)
  {
    OriginHolds(bearer, steps);
    InvHolds(bearer, steps);
    var st := Exec(bearer, steps);
    var d := Stream(st.sessions[s])[k];
    hide SentOk, MembersOk, SessionsOk, FirstEventDue, RegistryOk, OutboxOrigin;
    assert StreamOrigin(st.rooms, st.sessions[s], s);
    assert Origin(st.rooms, Post(s, d));
    OriginAbout(st.rooms, Post(s, d));
    var r := st.rooms[d.inc];
    assert RoomOk(r);
    if d.event.OutputMessage? {
      MessageFromMessage(RoomAt(r, d.pos), r.log[d.pos].env.event, r.log[d.pos].order, Send(s, d.event));
    }
  }

  lemma MessageFromMessage<C>(r: RoomState<C>, e: InputEvent<C>, order: seq<PlayerId>, send: Send<C, OutputEvent>)
    requires send in Handle(r, e, order).sends && send.event.OutputMessage?
    ensures e.InputMessage?
  {
    match e {
      case InputJoin(player, config) =>
        var added := AddPlayer(r, player, config);
        if added.Success? {
          BroadcastEvent(added.value.players, order, OutputJoin(Success(JoinInfo(r.id, player.id, order, r.config))),
            send);
        }
      case InputLeave(playerId) =>
        if playerId in r.players {
          BroadcastEvent(r.players, order, OutputLeave(Success(LeaveInfo(r.id, playerId))), send);
        }
      case InputMessage(_, _, _) =>
    }
  }

  /** What any receiver hears of one session's requests to one room id, joins, leaves and messages,
      is in the order in which the session made them, even if the room was destroyed and recreated
      in between; equal numbers mean effects of the same request. Only a farewell may be heard
      before what was sent earlier. */
  lemma RequestsInSendingOrder(bearer: string, steps: seq<Step>, s: SessionId, k: nat, m: nat)
    requires Valid(bearer, steps)
    requires s < |Exec(bearer, steps).sessions| && k < m < |Stream(Exec(bearer, steps).sessions[s])|
    requires var st := Exec(bearer, steps);
             SameRoomId(st.rooms, Stream(st.sessions[s])[k].inc, Stream(st.sessions[s])[m].inc)
    ensures var st := Exec(bearer, steps);
            var d, e := Stream(st.sessions[s])[k], Stream(st.sessions[s])[m];
            && Caused(st, d) && Caused(st, e)
            && (Cause(st, d).from == Cause(st, e).from && !Farewell(st.sessions, Cause(st, d)) ==>
                  if SameTag(d, e) then Cause(st, d) == Cause(st, e) else Cause(st, d).no < Cause(st, e).no)
  {
    hide QueueOrder, EarlierSent, AimsAtNewest, Farewell;
    var st := Exec(bearer, steps);
    var d, e := Stream(st.sessions[s])[k], Stream(st.sessions[s])[m];
    DeliveriesAreCaused(bearer, steps, s, k);
    DeliveriesAreCaused(bearer, steps, s, m);
    SortedHolds(bearer, steps);
    SendOrderHolds(bearer, steps);
    assert Sorted(st.rooms, Stream(st.sessions[s]));
    assert NotAfter(d, e);
    hide Exec, Valid, Sorted;
    if Cause(st, d).from == Cause(st, e).from && !SameTag(d, e) && !Farewell(st.sessions, Cause(st, d)) {
      if d.inc == e.inc {
        assert QueueOrder(st.rooms[d.inc]);
        SameQueue(st.rooms[d.inc], d.pos, e.pos);
      } else {
        assert EarlierSent(st.sessions, st.rooms[d.inc], st.rooms[e.inc]);
        AcrossQueues(st.sessions, st.rooms[d.inc], st.rooms[e.inc], d.pos, e.pos);
      }
    }
  }

  /** Two messages of one session to one room id reach any receiver in the order they were sent,
      even if the room was destroyed and recreated in between; equal numbers mean copies of the
      same message. */
  lemma MessagesInSendingOrder(bearer: string, steps: seq<Step>, s: SessionId, k: nat, m: nat)
    requires Valid(bearer, steps)
    requires s < |Exec(bearer, steps).sessions| && k < m < |Stream(Exec(bearer, steps).sessions[s])|
    requires var stream := Stream(Exec(bearer, steps).sessions[s]);
             && stream[k].event.OutputMessage? && stream[m].event.OutputMessage?
             && stream[k].event.message.roomId == stream[m].event.message.roomId
    ensures var st := Exec(bearer, steps);
            var d, e := Stream(st.sessions[s])[k], Stream(st.sessions[s])[m];
            && Caused(st, d) && Caused(st, e)
            && (Cause(st, d).from == Cause(st, e).from ==>
                  if SameTag(d, e) then Cause(st, d) == Cause(st, e) else Cause(st, d).no < Cause(st, e).no)
  {
    hide Exec, Valid;
    DeliveriesAreCaused(bearer, steps, s, k);
    DeliveriesAreCaused(bearer, steps, s, m);
    RequestsInSendingOrder(bearer, steps, s, k, m);
  }

  lemma SameQueue(r: Incarnation, a: nat, b: nat)
    requires QueueOrder(r) && a < b < |r.sent| && r.sent[a].from == r.sent[b].from
    ensures r.sent[a].no < r.sent[b].no
  {
  }

  lemma AcrossQueues(sessions: seq<Session>, r: Incarnation, r': Incarnation, a: nat, b: nat)
    requires EarlierSent(sessions, r, r') && a < |r.sent| && b < |r'.sent| && r.sent[a].from == r'.sent[b].from
    requires !Farewell(sessions, r.sent[a])
    ensures r.sent[a].no < r'.sent[b].no
  {
  }

  /** Any two receivers see any two events of a room id in the same order, across incarnations. */
  lemma ReceiversAgree(bearer: string, steps: seq<Step>, s: SessionId, t: SessionId, k: nat, m: nat, k': nat, m': nat)
    requires Valid(bearer, steps)
    requires s < |Exec(bearer, steps).sessions| && t < |Exec(bearer, steps).sessions|
    requires k < m < |Stream(Exec(bearer, steps).sessions[s])|
    requires k' < |Stream(Exec(bearer, steps).sessions[t])| && m' < |Stream(Exec(bearer, steps).sessions[t])|
    requires var st := Exec(bearer, steps);
             var a, b := Stream(st.sessions[s]), Stream(st.sessions[t]);
             && SameTag(a[k], b[k']) && SameTag(a[m], b[m']) && !SameTag(a[k], a[m])
             && SameRoomId(st.rooms, a[k].inc, a[m].inc)
    ensures k' < m'
  {
    SortedHolds(bearer, steps);
    var st := Exec(bearer, steps);
    assert Sorted(st.rooms, Stream(st.sessions[s])) && Sorted(st.rooms, Stream(st.sessions[t]));
    assert NotAfter(Stream(st.sessions[s])[k], Stream(st.sessions[s])[m]);
  }
}
