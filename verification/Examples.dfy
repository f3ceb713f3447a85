/** Concrete runs that show which guarantees the server does not give. */
module Examples {
  import opened Wrappers
  import opened Events
  import opened RoomCore
  import opened PlayerCore
  import opened Protocol
  import opened Cache
  import opened Coherence
  import opened Login
  import opened Disconnecting
  import opened Scenarios

  // ---------- Building blocks ----------

  const TOKEN := "t"
  const LOGIN := LoginAs("p", TOKEN)
  const LEAVING := Leaving("r")
  /** An idle session of player "p" that has just logged in. */
  function LoggedInSession(epoch: nat): Session {
    Newcomer("p", epoch)
  }

  function LoginSteps(s: SessionId): seq<Step> {
    LoginRun(s, "p", TOKEN)
  }

  /** A second login as "p" while "p" is registered is rejected, with the unregistration to come. */
  lemma IsRejected(st: State)
    requires "p" in st.players
    ensures Leads(st, LoginSteps(|st.sessions|), st.(sessions := st.sessions + [RejectedSession(RejectingDuplicate)]))
  {
    var s := |st.sessions|;
    var st1 := st.(sessions := st.sessions + [NEW_SESSION]);
    var st2 := st.(sessions := st.sessions + [NEW_SESSION.(input := [LOGIN])]);
    var st3 := st.(sessions := st.sessions + [RejectedSession(RejectingDuplicate)]);
    Enters(st, LOGIN);
    assert [LOGIN][1..] == [];
    assert [] + [LoginResponse(AlreadyLoggedIn)] == [LoginResponse(AlreadyLoggedIn)];
    assert st2.sessions[s := RejectedSession(RejectingDuplicate)] == st3.sessions;
    Three(st, Connect, st1, ClientSend(s, LOGIN), st2, TryLogin(s), st3);
  }

  function RejectedSession(pc: Pc): Session {
    Session(pc, "p", [], false, map[], [], [LoginResponse(AlreadyLoggedIn)], 0, [], 0)
  }

  function FirstJoin(s: SessionId, config: RoomConfig): Envelope {
    Envelope(s, 0, InputJoin(Player("p", s), config))
  }

  function Answer(config: RoomConfig): Delivery {
    Welcome(0, "r", "p", config)
  }

  /** The server with session `s` new to it and no room yet. */
  ghost predicate BeforeRooms(st: State, s: SessionId) {
    st.registry == map[] && st.rooms == [] && s < |st.sessions| && exists e :: st.sessions[s] == LoggedInSession(e)
  }

  /** After an idle session's join of room "r", which it creates: a member, not yet told so. */
  function JoinedState(st: State, s: SessionId, config: RoomConfig): State
    requires s < |st.sessions|
  {
    st.(registry := map["r" := 0],
        rooms := [Incarnation(RoomState("r", config, map["p" := Player("p", s)]), Running, [], [], s,
                              [Entry(FirstJoin(s, config), ["p"])], [FirstJoin(s, config)], [])],
        sessions := st.sessions[s := st.sessions[s].(inbox := [Answer(config)], sends := 1)])
  }

  function RequestSteps(s: SessionId, requested: Option<RoomConfig>): seq<Step> {
    AskRun(s, Joining("r", requested))
  }

  function RequestedState(st: State, s: SessionId, config: RoomConfig): State
    requires s < |st.sessions|
  {
    st.(registry := map["r" := 0],
        rooms := [NewIncarnation("r", config, s).(queue := [FirstJoin(s, config)], sent := [FirstJoin(s, config)])],
        sessions := st.sessions[s := st.sessions[s].(sends := 1)])
  }

  lemma FirstRoomIs(st: State, s: SessionId, config: RoomConfig)
    requires BeforeRooms(st, s)
    ensures WithRoom(st, s, "r", config) == RequestedState(st, s, config)
    ensures WithMember(st, s, "r", config) == JoinedState(st, s, config)
  {
    var x := st.sessions[s];
    assert map[]["r" := 0] == map["r" := 0];
    assert [] + [NewIncarnation("r", config, s).(queue := [FirstJoin(s, config)], sent := [FirstJoin(s, config)])]
        == [NewIncarnation("r", config, s).(queue := [FirstJoin(s, config)], sent := [FirstJoin(s, config)])];
    assert [] + [FirstRoom(x, s, "r", config, Running, [])] == [FirstRoom(x, s, "r", config, Running, [])];
    assert [] + [Answer(config)] == [Answer(config)];
  }

  lemma RequestsRoom(st: State, s: SessionId, requested: Option<RoomConfig>)
    requires BeforeRooms(st, s)
    ensures Leads(st, RequestSteps(s, requested), RequestedState(st, s, RequestedConfig(requested)))
  {
    CreatesRoom(st, s, "r", requested);
    FirstRoomIs(st, s, RequestedConfig(requested));
  }

  lemma AdmitsCreator(st: State, s: SessionId, config: RoomConfig)
    requires BeforeRooms(st, s) && config.maxPlayers > 0
    ensures Leads(RequestedState(st, s, config), AdmitRun(0, "p"), JoinedState(st, s, config))
  {
    Admits(st, s, "r", config);
    FirstRoomIs(st, s, config);
  }

  // ---------- Double logins ----------

  function RejectionRun(): seq<Step> {
    LoginSteps(0) + LoginSteps(1) + [RejectUnregister(1)]
  }

  /** After one rejected duplicate login as "p", session 0 is still live but unregistered. */
  function AfterRejection(): State {
    State(TOKEN, {}, map[], [], [LoggedInSession(1), RejectedSession(Finished)], 1)
  }

  lemma RejectionLeads()
    ensures Leads(Init(TOKEN), RejectionRun(), AfterRejection())
  {
    var st1 := State(TOKEN, {"p"}, map[], [], [LoggedInSession(1)], 1);
    var st2 := st1.(sessions := [LoggedInSession(1), RejectedSession(RejectingDuplicate)]);
    LogsIn(Init(TOKEN), "p");
    assert {} + {"p"} == {"p"} && [] + [LoggedInSession(1)] == [LoggedInSession(1)];
    IsRejected(st1);
    assert st1.sessions + [RejectedSession(RejectingDuplicate)] == st2.sessions;
    assert st2.sessions[1 := RejectedSession(Finished)] == AfterRejection().sessions;
    assert {"p"} - {"p"} == {};
    LeadsOne(st2, RejectUnregister(1), AfterRejection());
    LeadsOn(Init(TOKEN), LoginSteps(0), st1, LoginSteps(1), st2);
    LeadsOn(Init(TOKEN), LoginSteps(0) + LoginSteps(1), st2, [RejectUnregister(1)], AfterRejection());
  }

  lemma InitRun(more: seq<Step>, st': State)
    requires Leads(Init(TOKEN), more, st')
    ensures Valid(TOKEN, more) && Exec(TOKEN, more) == st'
  {
    LeadsIsRun(TOKEN, [], more, st');
    assert [] + more == more;
  }

  /** One rejected duplicate login suffices to break exclusion: the live session's id is no longer
      registered. */
  lemma OneRejectionBreaksExclusion()
    ensures Valid(TOKEN, RejectionRun())
    ensures Exec(TOKEN, RejectionRun()).sessions[0].pc.Idle?
    ensures Exec(TOKEN, RejectionRun()).sessions[0].id !in Exec(TOKEN, RejectionRun()).players
    ensures !Exclusive(Exec(TOKEN, RejectionRun()))
  {
    RejectionLeads();
    InitRun(RejectionRun(), AfterRejection());
    hide Exec, Valid;
    assert Owner(AfterRejection().sessions[0]);
  }

  function SecondLoginRun(): seq<Step> {
    RejectionRun() + LoginSteps(2)
  }

  function AfterSecondLogin(): State {
    State(TOKEN, {"p"}, map[], [], [LoggedInSession(1), RejectedSession(Finished), LoggedInSession(2)], 2)
  }

  lemma SecondLoginLeads()
    ensures Leads(Init(TOKEN), SecondLoginRun(), AfterSecondLogin())
  {
    RejectionLeads();
    LogsIn(AfterRejection(), "p");
    assert AfterRejection().sessions + [LoggedInSession(2)] == AfterSecondLogin().sessions;
    assert {} + {"p"} == {"p"};
    LeadsOn(Init(TOKEN), RejectionRun(), AfterRejection(), LoginSteps(2), AfterSecondLogin());
  }

  function EarlierLeaveRun(): seq<Step> {
    SecondLoginRun() + RequestSteps(2, None) + AdmitRun(0, "p")
    + AskRun(0, LEAVING)
  }

  function BeforeEarlierLeave(): State {
    var joined := JoinedState(AfterSecondLogin(), 2, DEFAULT_ROOM_CONFIG);
    var leave := Envelope(0, 0, InputLeave("p"));
    joined.(rooms := [joined.rooms[0].(queue := [leave], sent := joined.rooms[0].sent + [leave])],
            sessions := joined.sessions[0 := LoggedInSession(1).(sends := 1)])
  }

  lemma EarlierLeaveLeads()
    ensures Leads(Init(TOKEN), EarlierLeaveRun(), BeforeEarlierLeave())
  {
    var st0 := AfterSecondLogin();
    var st1, st2 := RequestedState(st0, 2, DEFAULT_ROOM_CONFIG), JoinedState(st0, 2, DEFAULT_ROOM_CONFIG);
    SecondLoginLeads();
    RequestsRoom(st0, 2, None);
    AdmitsCreator(st0, 2, DEFAULT_ROOM_CONFIG);
    AsksToLeave(st2);
    LeadsOn(Init(TOKEN), SecondLoginRun(), st0, RequestSteps(2, None), st1);
    LeadsOn(Init(TOKEN), SecondLoginRun() + RequestSteps(2, None), st1, AdmitRun(0, "p"), st2);
    LeadsOn(Init(TOKEN), SecondLoginRun() + RequestSteps(2, None) + AdmitRun(0, "p"), st2,
            AskRun(0, LEAVING), BeforeEarlierLeave());
  }

  lemma AsksToLeave(st: State)
    requires st == JoinedState(AfterSecondLogin(), 2, DEFAULT_ROOM_CONFIG)
    ensures Leads(st, AskRun(0, LEAVING), BeforeEarlierLeave())
  {
    AsksRegistered(st, 0, "r", LEAVING);
    assert [] + [Envelope(0, 0, InputLeave("p"))] == [Envelope(0, 0, InputLeave("p"))];
    assert WithAsk(st, 0, 0, LEAVING) == BeforeEarlierLeave() by {
      assert st.rooms[0 := BeforeEarlierLeave().rooms[0]] == BeforeEarlierLeave().rooms;
    }
  }

  /** After a rejected duplicate login, the leave of an earlier session of "p" is about to remove
      the membership of a later one that is live. */
  lemma EarlierLeaveHitsLaterSession()
    ensures Valid(TOKEN, EarlierLeaveRun()) && Exec(TOKEN, EarlierLeaveRun()) == BeforeEarlierLeave()
    ensures var st := BeforeEarlierLeave();
            && st.rooms[0].queue[0] == Envelope(0, 0, InputLeave("p"))
            && st.rooms[0].room.players["p"].sender == 2
            && st.sessions[0].epoch < st.sessions[2].epoch && st.sessions[2].pc.Idle?
    ensures Enabled(BeforeEarlierLeave(), RoomTake(0, ["p"]))
    ensures !MemberOf(Apply(BeforeEarlierLeave(), RoomTake(0, ["p"])), 2, 0)
  {
    EarlierLeaveLeads();
    InitRun(EarlierLeaveRun(), BeforeEarlierLeave());
    LeaveRemoves(BeforeEarlierLeave(), 2);
    hide Exec, Valid;
  }

  lemma LeaveRemoves(st: State, s: SessionId)
    requires s < |st.sessions| && st.sessions[s].id == "p"
    requires |st.rooms| == 1 && st.rooms[0].phase.Running? && |st.rooms[0].queue| == 1
    requires st.rooms[0].queue[0].event == InputLeave("p") && st.rooms[0].room.players.Keys == {"p"}
    ensures Enabled(st, RoomTake(0, ["p"])) && !MemberOf(Apply(st, RoomTake(0, ["p"])), s, 0)
  {
    assert Enumerates(["p"], st.rooms[0].room.players.Keys);
  }

  // ---------- Orphans ----------

  function JoinRun(): seq<Step> {
    LoginSteps(0) + RequestSteps(0, None) + AdmitRun(0, "p")
  }

  lemma JoinLeads()
    ensures Leads(Init(TOKEN), JoinRun(),
      JoinedState(State(TOKEN, {"p"}, map[], [], [LoggedInSession(1)], 1), 0, DEFAULT_ROOM_CONFIG))
  {
    var st0 := State(TOKEN, {"p"}, map[], [], [LoggedInSession(1)], 1);
    var st1, st2 := RequestedState(st0, 0, DEFAULT_ROOM_CONFIG), JoinedState(st0, 0, DEFAULT_ROOM_CONFIG);
    LogsIn(Init(TOKEN), "p");
    assert {} + {"p"} == {"p"} && [] + [LoggedInSession(1)] == [LoggedInSession(1)];
    RequestsRoom(st0, 0, None);
    AdmitsCreator(st0, 0, DEFAULT_ROOM_CONFIG);
    hide Leads;
    LeadsOn(Init(TOKEN), LoginSteps(0), st0, RequestSteps(0, None), st1);
    LeadsOn(Init(TOKEN), LoginSteps(0) + RequestSteps(0, None), st1, AdmitRun(0, "p"), st2);
  }

  function OrphanRun(): seq<Step> {
    JoinRun() + [ClientClose(0), Disconnect(0), Unregister(0)]
  }

  function OrphanState(): State {
    var joined := JoinedState(State(TOKEN, {"p"}, map[], [], [LoggedInSession(1)], 1), 0, DEFAULT_ROOM_CONFIG);
    joined.(players := {}, sessions := [joined.sessions[0].(clientGone := true, pc := Finished)])
  }

  lemma OrphanLeads()
    ensures Leads(Init(TOKEN), OrphanRun(), OrphanState())
  {
    var st := JoinedState(State(TOKEN, {"p"}, map[], [], [LoggedInSession(1)], 1), 0, DEFAULT_ROOM_CONFIG);
    JoinLeads();
    Departs(st);
    hide Leads;
    LeadsOn(Init(TOKEN), JoinRun(), st, [ClientClose(0), Disconnect(0), Unregister(0)], OrphanState());
  }

  lemma Departs(st: State)
    requires st == JoinedState(State(TOKEN, {"p"}, map[], [], [LoggedInSession(1)], 1), 0, DEFAULT_ROOM_CONFIG)
    ensures Leads(st, [ClientClose(0), Disconnect(0), Unregister(0)], OrphanState())
  {
    var x := st.sessions[0];
    var st1 := st.(sessions := [x.(clientGone := true)]);
    var st2 := st.(sessions := [x.(clientGone := true, pc := LeavingRooms(map[]))]);
    assert st.sessions[0 := x.(clientGone := true)] == st1.sessions;
    assert st1.sessions[0 := st2.sessions[0]] == st2.sessions;
    assert st2.sessions[0 := OrphanState().sessions[0]] == OrphanState().sessions;
    assert {"p"} - {"p"} == {};
    Three(st, ClientClose(0), st1, Disconnect(0), st2, Unregister(0), OrphanState());
  }

  /** A session that disconnects before handling its own join stays in the room for good: it has
      finished, and no leave is queued for it. */
  lemma UnhandledJoinLeavesOrphan()
    ensures Valid(TOKEN, OrphanRun()) && Exec(TOKEN, OrphanRun()) == OrphanState()
    ensures var st := OrphanState();
            && st.sessions[0].pc.Finished? && MemberOf(st, 0, 0)
            && st.rooms[0].phase.Running? && st.rooms[0].queue == []
            && !LeaveQueued(st.rooms[0], "p")
  {
    OrphanLeads();
    InitRun(OrphanRun(), OrphanState());
    hide Exec, Valid;
  }

  // ---------- Crashes ----------

  const NO_ROOM := RoomConfig(0)

  function CrashRun(): seq<Step> {
    LoginSteps(0) + RequestSteps(0, Some(NO_ROOM)) + [RoomTake(0, []), RoomDeliver(0), TakeEvent(0)]
  }

  function CrashState(): State {
    var st := RequestedState(State(TOKEN, {"p"}, map[], [], [LoggedInSession(1)], 1), 0, NO_ROOM);
    var refusal := Delivery(0, 0, OutputJoin(Failure(RoomIsFull("r", "p"))));
    st.(rooms := [st.rooms[0].(phase := Sending, queue := [], log := [Entry(FirstJoin(0, NO_ROOM), [])])],
        sessions := [st.sessions[0].(pc := Panicked, handled := [refusal])])
  }

  lemma TakesRefused(st: State, st1: State, refusal: Delivery)
    requires st == RequestedState(State(TOKEN, {"p"}, map[], [], [LoggedInSession(1)], 1), 0, NO_ROOM)
    requires refusal == Delivery(0, 0, OutputJoin(Failure(RoomIsFull("r", "p"))))
    requires st1 == st.(rooms := [CrashState().rooms[0].(outbox := [Post(0, refusal)])])
    ensures Enabled(st, RoomTake(0, [])) && Apply(st, RoomTake(0, [])) == st1
  {
    assert Handle(st.rooms[0].room, FirstJoin(0, NO_ROOM).event, []) ==
      Handling(st.rooms[0].room, [Send(0, refusal.event)]);
    assert Tag([Send(0, refusal.event)], 0, 0) == [Post(0, refusal)];
    assert [FirstJoin(0, NO_ROOM)][1..] == [] &&
      [] + [Entry(FirstJoin(0, NO_ROOM), [])] == [Entry(FirstJoin(0, NO_ROOM), [])];
    assert st.rooms[0 := st1.rooms[0]] == st1.rooms;
  }

  lemma Crashes(st: State)
    requires st == RequestedState(State(TOKEN, {"p"}, map[], [], [LoggedInSession(1)], 1), 0, NO_ROOM)
    ensures Leads(st, [RoomTake(0, []), RoomDeliver(0), TakeEvent(0)], CrashState())
  {
    var refusal := Delivery(0, 0, OutputJoin(Failure(RoomIsFull("r", "p"))));
    var st2 := CrashState().(sessions := [st.sessions[0].(inbox := [refusal])]);
    var st1 := st.(rooms := [CrashState().rooms[0].(outbox := [Post(0, refusal)])]);
    TakesRefused(st, st1, refusal);
    hide Handle, Tag;
    assert [] + [refusal] == [refusal] && [refusal][1..] == [] && [Post(0, refusal)][1..] == [];
    assert st1.rooms[0 := st2.rooms[0]] == st2.rooms;
    assert Deliver(st1.sessions, Post(0, refusal)) == st2.sessions;
    assert st2.sessions[0 := CrashState().sessions[0]] == CrashState().sessions;
    Three(st, RoomTake(0, []), st1, RoomDeliver(0), st2, TakeEvent(0), CrashState());
  }

  /** A join that finds the room full crashes the session instead of being refused: asking for a
      room without places suffices. The player stays registered. */
  lemma FullRoomCrashesSession()
    ensures Valid(TOKEN, CrashRun()) && Exec(TOKEN, CrashRun()) == CrashState()
    ensures CrashState().sessions[0].pc.Panicked? && CrashState().sessions[0].id in CrashState().players
  {
    var st0 := State(TOKEN, {"p"}, map[], [], [LoggedInSession(1)], 1);
    LogsIn(Init(TOKEN), "p");
    assert {} + {"p"} == {"p"} && [] + [LoggedInSession(1)] == [LoggedInSession(1)];
    RequestsRoom(st0, 0, Some(NO_ROOM));
    Crashes(RequestedState(st0, 0, NO_ROOM));
    LeadsOn(Init(TOKEN), LoginSteps(0), st0, RequestSteps(0, Some(NO_ROOM)), RequestedState(st0, 0, NO_ROOM));
    LeadsOn(Init(TOKEN), LoginSteps(0) + RequestSteps(0, Some(NO_ROOM)), RequestedState(st0, 0, NO_ROOM),
            [RoomTake(0, []), RoomDeliver(0), TakeEvent(0)], CrashState());
    InitRun(CrashRun(), CrashState());
    hide Exec, Valid;
  }

  // ---------- A room that ends while a join is queued ----------

  const LEAVE := Envelope(0, 1, InputLeave("p"))
  const REJOIN := Envelope(0, 2, InputJoin(Player("p", 0), DEFAULT_ROOM_CONFIG))
  const FAREWELL := Delivery(0, 1, OutputLeave(Success(LeaveInfo("r", "p"))))

  /** The server with one session, logged in as "p", and one room. */
  function Alone(registry: map<RoomId, IncId>, r: Incarnation, x: Session): State {
    State(TOKEN, {"p"}, registry, [r], [x], 1)
  }

  const REGISTERED: map<RoomId, IncId> := map["r" := 0]

  /** The room with "p" in it, the session not yet told; a leave and another join are queued. */
  function LeavingRoom(): Incarnation {
    Incarnation(RoomState("r", DEFAULT_ROOM_CONFIG, map["p" := Player("p", 0)]), Running, [LEAVE, REJOIN], [], 0,
                [Entry(FirstJoin(0, DEFAULT_ROOM_CONFIG), ["p"])], [FirstJoin(0, DEFAULT_ROOM_CONFIG), LEAVE, REJOIN],
                  [])
  }

  /** The room once it has handled the leave and told its member. */
  function LeftRoom(): Incarnation {
    LeavingRoom().(room := RoomState("r", DEFAULT_ROOM_CONFIG, map[]), phase := Sending, queue := [REJOIN],
                   log := [Entry(FirstJoin(0, DEFAULT_ROOM_CONFIG), ["p"]), Entry(LEAVE, ["p"])])
  }

  function AskedSession(): Session {
    LoggedInSession(1).(inbox := [Answer(DEFAULT_ROOM_CONFIG)], sends := 3)
  }

  /** The session once it has handled its join and its leave. */
  function ToldSession(): Session {
    AskedSession().(inbox := [], handled := [Answer(DEFAULT_ROOM_CONFIG), FAREWELL],
                    out := [LoginResponse(NoError), JoinResponse("r", ["p"], Some(DEFAULT_ROOM_CONFIG), NoError),
                      LeaveResponse("r", NoError)])
  }

  function ChurnRun(): seq<Step> {
    JoinRun() + (AskRun(0, LEAVING) + RequestSteps(0, None))
    + [RoomTake(0, ["p"]), RoomDeliver(0)] + [TakeEvent(0), InsertJoined(0), TakeEvent(0)]
  }

  function StopRun(): seq<Step> {
    ChurnRun() + [RoomSettle(0), RoomDeregister(0), RoomDrop(0)]
  }

  function StoppedRoom(): Incarnation {
    LeftRoom().(phase := Dropped, queue := [], discarded := [REJOIN])
  }

  /** A request of an idle session about the room, which is registered. */
  lemma AsksAlone(r: Incarnation, x: Session, m: ClientMessage)
    requires Waiting(x) && !r.phase.Dropped? && (m == LEAVING || m == Joining("r", None))
    ensures var env := Envelope(0, x.sends, Request(Some(m), x.id, 0));
            Leads(Alone(REGISTERED, r, x), AskRun(0, m),
                  Alone(REGISTERED, r.(queue := r.queue + [env], sent := r.sent + [env]), x.(sends := x.sends + 1)))
  {
    AsksRegistered(Alone(REGISTERED, r, x), 0, "r", m);
  }

  lemma AsksToReturn()
    ensures Leads(JoinedState(State(TOKEN, {"p"}, map[], [], [LoggedInSession(1)], 1), 0, DEFAULT_ROOM_CONFIG),
                  AskRun(0, LEAVING) + RequestSteps(0, None),
                  Alone(REGISTERED, LeavingRoom(), AskedSession()))
  {
    var st := JoinedState(State(TOKEN, {"p"}, map[], [], [LoggedInSession(1)], 1), 0, DEFAULT_ROOM_CONFIG);
    var r, x := st.rooms[0], st.sessions[0];
    var r' := r.(queue := [LEAVE], sent := [FirstJoin(0, DEFAULT_ROOM_CONFIG), LEAVE]);
    assert st == Alone(REGISTERED, r, x);
    assert r.queue + [LEAVE] == [LEAVE] && r.sent + [LEAVE] == r'.sent;
    AsksAlone(r, x, LEAVING);
    assert r'.queue + [REJOIN] == LeavingRoom().queue && r'.sent + [REJOIN] == LeavingRoom().sent;
    AsksAlone(r', x.(sends := 2), Joining("r", None));
    hide Leads;
    LeadsOn(st, AskRun(0, LEAVING), Alone(REGISTERED, r', x.(sends := 2)),
            RequestSteps(0, None), Alone(REGISTERED, LeavingRoom(), AskedSession()));
  }

  lemma TakesLeave()
    ensures Leads(Alone(REGISTERED, LeavingRoom(), AskedSession()), [RoomTake(0, ["p"]), RoomDeliver(0)],
                  Alone(REGISTERED, LeftRoom(), AskedSession().(inbox := [Answer(DEFAULT_ROOM_CONFIG), FAREWELL])))
  {
    var st := Alone(REGISTERED, LeavingRoom(), AskedSession());
    var st1 := Alone(REGISTERED, LeftRoom().(outbox := [Post(0, FAREWELL)]), AskedSession());
    var st2 := Alone(REGISTERED, LeftRoom(), AskedSession().(inbox := [Answer(DEFAULT_ROOM_CONFIG), FAREWELL]));
    HandlesLeave();
    assert st.rooms[0 := st1.rooms[0]] == st1.rooms;
    assert st1.rooms[0 := st2.rooms[0]] == st2.rooms;
    assert [Answer(DEFAULT_ROOM_CONFIG)] + [FAREWELL] == [Answer(DEFAULT_ROOM_CONFIG), FAREWELL] &&
      [Post(0, FAREWELL)][1..] == [];
    assert Deliver(st1.sessions, Post(0, FAREWELL)) == st2.sessions;
    LeadsOne(st, RoomTake(0, ["p"]), st1);
    LeadsOne(st1, RoomDeliver(0), st2);
    LeadsOn(st, [RoomTake(0, ["p"])], st1, [RoomDeliver(0)], st2);
    assert [RoomTake(0, ["p"])] + [RoomDeliver(0)] == [RoomTake(0, ["p"]), RoomDeliver(0)];
  }

  lemma HandlesLeave()
    ensures RoomReady(LeavingRoom(), RoomTake(0, ["p"]))
    ensures RoomAfter(LeavingRoom(), 0, RoomTake(0, ["p"])) == LeftRoom().(outbox := [Post(0, FAREWELL)])
  {
    var players := map["p" := Player("p", 0)];
    assert Broadcast(players, ["p"], FAREWELL.event) == [Send(0, FAREWELL.event)] by {
      assert ["p"][1..] == [];
      assert Broadcast(players, [], FAREWELL.event) == [];
    }
    assert players - {"p"} == map[];
    assert Tag([Send(0, FAREWELL.event)], 0, 1) == [Post(0, FAREWELL)];
    assert [LEAVE, REJOIN][1..] == [REJOIN];
    assert LeavingRoom().log + [Entry(LEAVE, ["p"])] == LeftRoom().log;
  }

  lemma TakesOwnJoin(r: Incarnation, x: Session, x1: Session)
    requires x.pc.Idle? && x.id == "p" && x.inbox == [Answer(DEFAULT_ROOM_CONFIG), FAREWELL] && x.handled == []
    requires x1 == x.(inbox := [FAREWELL], handled := [Answer(DEFAULT_ROOM_CONFIG)],
                      pc := JoinedHalf(Answer(DEFAULT_ROOM_CONFIG).event.join.value, Some(0)))
    ensures Enabled(Alone(REGISTERED, r, x), TakeEvent(0)) &&
      Apply(Alone(REGISTERED, r, x), TakeEvent(0)) == Alone(REGISTERED, r, x1)
  {
    assert [Answer(DEFAULT_ROOM_CONFIG), FAREWELL][1..] == [FAREWELL];
    assert [] + [Answer(DEFAULT_ROOM_CONFIG)] == [Answer(DEFAULT_ROOM_CONFIG)];
  }

  lemma TakesOwnLeave(r: Incarnation, x: Session, x1: Session)
    requires x.pc.Idle? && x.id == "p" && x.inbox == [FAREWELL] && x.joined == REGISTERED && !x.clientGone
    requires x1 == x.(inbox := [], handled := x.handled + [FAREWELL], joined := map[],
      out := x.out + [LeaveResponse("r", NoError)])
    ensures Enabled(Alone(REGISTERED, r, x), TakeEvent(0)) &&
      Apply(Alone(REGISTERED, r, x), TakeEvent(0)) == Alone(REGISTERED, r, x1)
  {
    assert [FAREWELL][1..] == [] && REGISTERED - {"r"} == map[];
  }

  lemma IsTold()
    ensures Leads(Alone(REGISTERED, LeftRoom(), AskedSession().(inbox := [Answer(DEFAULT_ROOM_CONFIG), FAREWELL])),
                  [TakeEvent(0), InsertJoined(0), TakeEvent(0)], Alone(REGISTERED, LeftRoom(), ToldSession()))
  {
    var answer := Answer(DEFAULT_ROOM_CONFIG);
    var x := AskedSession().(inbox := [answer, FAREWELL]);
    var x1 := x.(inbox := [FAREWELL], handled := [answer], pc := JoinedHalf(answer.event.join.value, Some(0)));
    var x2 := x1.(pc := Idle, joined := REGISTERED, out := ToldSession().out[..2]);
    assert [answer, FAREWELL][1..] == [FAREWELL] && [] + [answer] == [answer] && [FAREWELL][1..] == [] &&
      [answer] + [FAREWELL] == ToldSession().handled;
    assert x1.out + [JoinAnswer(answer.event.join.value, true)] == x2.out;
    assert x2.out + [LeaveResponse("r", NoError)] == ToldSession().out;
    assert map[]["r" := 0] == REGISTERED && REGISTERED - {"r"} == map[];
    var r := LeftRoom();
    TakesOwnJoin(r, x, x1);
    assert Apply(Alone(REGISTERED, r, x1), InsertJoined(0)) == Alone(REGISTERED, r, x2);
    TakesOwnLeave(r, x2, ToldSession());
    hide Apply, Enabled;
    Three(Alone(REGISTERED, LeftRoom(), x), TakeEvent(0), Alone(REGISTERED, LeftRoom(), x1), InsertJoined(0),
          Alone(REGISTERED, LeftRoom(), x2), TakeEvent(0), Alone(REGISTERED, LeftRoom(), ToldSession()));
  }

  /** A step of the room task that sends nothing. */
  lemma RoomMoves(registry: map<RoomId, IncId>, r: Incarnation, x: Session, step: Step)
    requires RoomStep(step) && step.i == 0 && RoomReady(r, step) && !step.RoomDeliver? && !step.RoomStarve?
    ensures Enabled(Alone(registry, r, x), step)
    ensures Apply(Alone(registry, r, x), step)
         == Alone(if step.RoomDeregister? then registry - {r.room.id} else registry, RoomAfter(r, 0, step), x)
  {
    hide RoomAfter, RoomReady;
  }

  lemma StopsRoom()
    ensures Leads(Alone(REGISTERED, LeftRoom(), ToldSession()), [RoomSettle(0), RoomDeregister(0), RoomDrop(0)],
                  Alone(map[], StoppedRoom(), ToldSession()))
  {
    var x := ToldSession();
    var stopping, gone := LeftRoom().(phase := Stopping), LeftRoom().(phase := Deregistered);
    assert REGISTERED - {"r"} == map[];
    assert RoomReady(LeftRoom(), RoomSettle(0)) && RoomAfter(LeftRoom(), 0, RoomSettle(0)) == stopping;
    assert RoomReady(stopping, RoomDeregister(0)) && RoomAfter(stopping, 0, RoomDeregister(0)) == gone;
    assert RoomReady(gone, RoomDrop(0)) && RoomAfter(gone, 0, RoomDrop(0)) == StoppedRoom();
    assert stopping.room.id == "r";
    hide Apply, Enabled, RoomReady, RoomAfter, LeftRoom, StoppedRoom, ToldSession, Alone;
    RoomMoves(REGISTERED, LeftRoom(), x, RoomSettle(0));
    RoomMoves(REGISTERED, stopping, x, RoomDeregister(0));
    RoomMoves(map[], gone, x, RoomDrop(0));
    Three(Alone(REGISTERED, LeftRoom(), x), RoomSettle(0), Alone(REGISTERED, stopping, x), RoomDeregister(0),
          Alone(map[], gone, x), RoomDrop(0), Alone(map[], StoppedRoom(), x));
  }

  lemma ChurnLeads()
    ensures Leads(Init(TOKEN), ChurnRun(), Alone(REGISTERED, LeftRoom(), ToldSession()))
  {
    hide Leads, LoginSteps, RequestSteps, JoinedState, LeavingRoom, LeftRoom, AskedSession, ToldSession,
      LoggedInSession, Answer;
    var st2 := JoinedState(State(TOKEN, {"p"}, map[], [], [LoggedInSession(1)], 1), 0, DEFAULT_ROOM_CONFIG);
    var st3 := Alone(REGISTERED, LeavingRoom(), AskedSession());
    var st4 := Alone(REGISTERED, LeftRoom(), AskedSession().(inbox := [Answer(DEFAULT_ROOM_CONFIG), FAREWELL]));
    var asks := AskRun(0, LEAVING) + RequestSteps(0, None);
    JoinLeads();
    AsksToReturn();
    TakesLeave();
    IsTold();
    LeadsOn(Init(TOKEN), JoinRun(), st2, asks, st3);
    LeadsOn(Init(TOKEN), JoinRun() + asks, st3, [RoomTake(0, ["p"]), RoomDeliver(0)], st4);
    LeadsOn(Init(TOKEN), JoinRun() + asks + [RoomTake(0, ["p"]), RoomDeliver(0)], st4,
      [TakeEvent(0), InsertJoined(0), TakeEvent(0)],
            Alone(REGISTERED, LeftRoom(), ToldSession()));
  }

  /** The client is told that it left while the room, with no member left, is still registered. */
  lemma LeaveToldBeforeDeregistration()
    ensures Valid(TOKEN, ChurnRun()) && Exec(TOKEN, ChurnRun()) == Alone(REGISTERED, LeftRoom(), ToldSession())
    ensures ToldSession().pc.Idle? && LeaveResponse("r", NoError) in ToldSession().out
    ensures LeftRoom().room == RoomState("r", DEFAULT_ROOM_CONFIG, map[]) && REGISTERED["r"] == 0
  {
    ChurnLeads();
    InitRun(ChurnRun(), Alone(REGISTERED, LeftRoom(), ToldSession()));
    hide Exec, Valid;
    assert ToldSession().out[2] == LeaveResponse("r", NoError);
  }

  /** A join queued when the room stops is lost: the session that sent it is live and has nothing
      to come, and is not told of it. */
  lemma QueuedJoinIsNeverAnswered()
    ensures Valid(TOKEN, StopRun()) && Exec(TOKEN, StopRun()) == Alone(map[], StoppedRoom(), ToldSession())
    ensures StoppedRoom().phase.Dropped? && StoppedRoom().discarded == [REJOIN]
    ensures REJOIN.from == 0 && REJOIN.event.InputJoin?
    ensures ToldSession().pc.Idle? && ToldSession().input == [] && ToldSession().inbox == []
    ensures |ToldSession().out| == 3 && ToldSession().out[2] == LeaveResponse("r", NoError)
  {
    ChurnLeads();
    StopsRoom();
    hide Leads;
    LeadsOn(Init(TOKEN), ChurnRun(), Alone(REGISTERED, LeftRoom(), ToldSession()),
      [RoomSettle(0), RoomDeregister(0), RoomDrop(0)],
            Alone(map[], StoppedRoom(), ToldSession()));
    InitRun(StopRun(), Alone(map[], StoppedRoom(), ToldSession()));
    hide Exec, Valid;
  }

  // ---------- A join still queued at the disconnect ----------

  function HurryRun(): seq<Step> {
    LoginSteps(0) + RequestSteps(0, None) + [ClientClose(0)]
  }

  function HurryState(): State {
    var st := RequestedState(State(TOKEN, {"p"}, map[], [], [LoggedInSession(1)], 1), 0, DEFAULT_ROOM_CONFIG);
    st.(sessions := [st.sessions[0].(clientGone := true)])
  }

  lemma HurryCloses(st: State)
    requires st == RequestedState(State(TOKEN, {"p"}, map[], [], [LoggedInSession(1)], 1), 0, DEFAULT_ROOM_CONFIG)
    ensures Leads(st, [ClientClose(0)], HurryState())
  {
    assert st.sessions[0 := HurryState().sessions[0]] == HurryState().sessions;
    LeadsOne(st, ClientClose(0), HurryState());
  }

  lemma HurryLeads()
    ensures Leads(Init(TOKEN), HurryRun(), HurryState())
  {
    var st0 := State(TOKEN, {"p"}, map[], [], [LoggedInSession(1)], 1);
    var st1 := RequestedState(st0, 0, DEFAULT_ROOM_CONFIG);
    LogsIn(Init(TOKEN), "p");
    assert {} + {"p"} == {"p"} && [] + [LoggedInSession(1)] == [LoggedInSession(1)];
    RequestsRoom(st0, 0, None);
    HurryCloses(st1);
    hide Leads, Apply, Enabled, RequestedState, LoggedInSession;
    LeadsOn(Init(TOKEN), LoginSteps(0), st0, RequestSteps(0, None), st1);
    LeadsOn(Init(TOKEN), LoginSteps(0) + RequestSteps(0, None), st1, [ClientClose(0)], HurryState());
  }

  lemma HurryForgotten()
    ensures Forgotten(HurryState(), 0, 0)
  {
    var room, event := NewRoom("r", DEFAULT_ROOM_CONFIG), FirstJoin(0, DEFAULT_ROOM_CONFIG).event;
    var next := Handle(room, event, []).room;
    assert next.players == map["p" := Player("p", 0)];
    assert |next.players.Keys| == 1 by { assert next.players.Keys == {"p"}; }
    assert NumPlayers(next) == 1;
    assert HurryState().rooms[0].queue[1..] == [];
    assert Drain(next, []) == next;
  }

  lemma NobodyYet()
    ensures Enabled(HurryState(), Disconnect(0)) && !MemberOf(HurryState(), 0, 0)
    ensures Rest(HurryState(), 0, "r") == []
  {
  }

  /** A session that disconnects while its join is queued, when it is in no room and none of its
      events is on its way, can stay behind in the room as well. */
  lemma QueuedJoinLeavesOrphan()
    ensures Valid(TOKEN, HurryRun()) && Exec(TOKEN, HurryRun()) == HurryState() && Enabled(HurryState(), Disconnect(0))
    ensures !MemberOf(HurryState(), 0, 0) && Rest(HurryState(), 0, "r") == []
    ensures exists more :: Leaves(TOKEN, HurryRun() + [Disconnect(0)], more, 0, 0)
  {
    hide *;
    HurryLeads();
    InitRun(HurryRun(), HurryState());
    HurryForgotten();
    NobodyYet();
    ForgottenCanBeLeft(TOKEN, HurryRun(), 0, 0);
  }
}
