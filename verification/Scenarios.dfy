/** Stretches of runs that can be taken from any state: logging in, creating a room, being admitted
    to it, and asking a room for something. */
module Scenarios {
  import opened Wrappers
  import opened Events
  import opened RoomCore
  import opened PlayerCore
  import opened Protocol
  import opened Rooms

  /** The steps, each enabled in turn, lead from one state to the other. */
  ghost predicate Leads(st: State, steps: seq<Step>, st': State)
    decreases |steps|
  {
    if steps == [] then st == st'
    else Enabled(st, steps[0]) && Leads(Apply(st, steps[0]), steps[1..], st')
  }

  lemma LeadsOne(st: State, step: Step, st': State)
    requires Enabled(st, step) && Apply(st, step) == st'
    ensures Leads(st, [step], st')
  {
    assert [step][1..] == [];
  }

  lemma {:induction false} LeadsOn(st: State, steps: seq<Step>, mid: State, more: seq<Step>, st': State)
    requires Leads(st, steps, mid) && Leads(mid, more, st')
    ensures Leads(st, steps + more, st')
    decreases |steps|
  {
    hide Apply, Enabled;
    if steps == [] {
      assert steps + more == more;
    } else {
      LeadsOn(Apply(st, steps[0]), steps[1..], mid, more, st');
      assert (steps + more)[1..] == steps[1..] + more;
    }
  }

  lemma {:induction false} LeadsIsRun(bearer: string, steps: seq<Step>, more: seq<Step>, st': State)
    requires Valid(bearer, steps) && Leads(Exec(bearer, steps), more, st')
    ensures Valid(bearer, steps + more) && Exec(bearer, steps + more) == st'
    decreases |more|
  {
    hide Apply, Enabled;
    if more == [] {
      assert steps + more == steps;
    } else {
      OneMore(bearer, steps, more[0]);
      LeadsIsRun(bearer, steps + [more[0]], more[1..], st');
      assert steps + [more[0]] + more[1..] == steps + more;
    }
  }

  lemma Three(st: State, a: Step, st1: State, b: Step, st2: State, c: Step, st3: State)
    requires Enabled(st, a) && Apply(st, a) == st1
    requires Enabled(st1, b) && Apply(st1, b) == st2
    requires Enabled(st2, c) && Apply(st2, c) == st3
    ensures Leads(st, [a, b, c], st3)
  {
    hide Apply, Enabled;
    LeadsOne(st, a, st1);
    LeadsOne(st1, b, st2);
    LeadsOne(st2, c, st3);
    LeadsOn(st, [a], st1, [b], st2);
    LeadsOn(st, [a] + [b], st2, [c], st3);
    assert [a] + [b] + [c] == [a, b, c];
  }

  // ---------- Logging in ----------

  function LoginAs(id: PlayerId, token: string): ClientMessage {
    ClientMessage(Some(LoginRequest(id, Some(token))))
  }

  /** An idle session that has just logged in. */
  function Newcomer(id: PlayerId, epoch: nat): Session {
    Session(Idle, id, [], false, map[], [], [LoginResponse(NoError)], epoch, [], 0)
  }

  function LoginRun(s: SessionId, id: PlayerId, token: string): seq<Step> {
    [Connect, ClientSend(s, LoginAs(id, token)), TryLogin(s)]
  }

  function WithLogin(st: State, id: PlayerId): State {
    st.(players := st.players + {id}, logins := st.logins + 1, sessions := st.sessions + [Newcomer(id, st.logins + 1)])
  }

  /** Connecting and sending a first message. */
  lemma Enters(st: State, m: ClientMessage)
    ensures var s, st1 := |st.sessions|, st.(sessions := st.sessions + [NEW_SESSION]);
            var st2 := st.(sessions := st.sessions + [NEW_SESSION.(input := [m])]);
            && Enabled(st, Connect) && Apply(st, Connect) == st1
            && Enabled(st1, ClientSend(s, m)) && Apply(st1, ClientSend(s, m)) == st2
  {
    var st1 := st.(sessions := st.sessions + [NEW_SESSION]);
    assert [] + [m] == [m];
    assert st1.sessions[|st.sessions| := NEW_SESSION.(input := [m])] == st.sessions + [NEW_SESSION.(input := [m])];
  }

  lemma LoginResult(st2: State, s: SessionId, id: PlayerId, st3: State)
    requires id !in st2.players && s < |st2.sessions|
    requires st2.sessions[s] == NEW_SESSION.(input := [LoginAs(id, st2.bearer)])
    requires st3 == st2.(players := st2.players + {id}, logins := st2.logins + 1,
                         sessions := st2.sessions[s := Newcomer(id, st2.logins + 1)])
    ensures Enabled(st2, TryLogin(s)) && Apply(st2, TryLogin(s)) == st3
  {
    assert [] + [LoginResponse(NoError)] == [LoginResponse(NoError)];
    assert [LoginAs(id, st2.bearer)][1..] == [];
  }

  /** Connecting and logging in under an id that is not registered. */
  lemma LogsIn(st: State, id: PlayerId)
    requires id !in st.players
    ensures Leads(st, LoginRun(|st.sessions|, id, st.bearer), WithLogin(st, id))
  {
    var s, m := |st.sessions|, LoginAs(id, st.bearer);
    var st1 := st.(sessions := st.sessions + [NEW_SESSION]);
    var st2 := st.(sessions := st.sessions + [NEW_SESSION.(input := [m])]);
    Enters(st, m);
    assert st2.sessions[s := Newcomer(id, st.logins + 1)] == WithLogin(st, id).sessions;
    LoginResult(st2, s, id, WithLogin(st, id));
    hide Apply, Enabled;
    Three(st, Connect, st1, ClientSend(s, m), st2, TryLogin(s), WithLogin(st, id));
  }

  // ---------- Asking ----------

  /** In the select loop with a client that is there and has asked for nothing. */
  predicate Waiting(x: Session) {
    x.pc.Idle? && x.input == [] && !x.clientGone
  }

  function Joining(rid: RoomId, config: Option<RoomConfig>): ClientMessage {
    ClientMessage(Some(JoinRequest(rid, config)))
  }

  function Leaving(rid: RoomId): ClientMessage {
    ClientMessage(Some(LeaveRequest(rid)))
  }

  function AskRun(s: SessionId, m: ClientMessage): seq<Step> {
    [ClientSend(s, m), TakeInput(s), SendRequest(s)]
  }

  lemma Arrives(st: State, s: SessionId, m: ClientMessage)
    requires s < |st.sessions| && Waiting(st.sessions[s])
    ensures Enabled(st, ClientSend(s, m))
    ensures Apply(st, ClientSend(s, m)) == st.(sessions := st.sessions[s := st.sessions[s].(input := [m])])
  {
    assert [] + [m] == [m];
  }

  lemma SendsOff(st: State, s: SessionId, half: Pc)
    requires s < |st.sessions| && RequestHalf(half) && half.inc < |st.rooms| && !st.rooms[half.inc].phase.Dropped?
    ensures var x, half_st := st.sessions[s], st.(sessions := st.sessions[s := st.sessions[s].(pc := half)]);
            var r, env := st.rooms[half.inc], Envelope(s, x.sends, RequestEvent(x.(pc := half), s));
            && Enabled(half_st, SendRequest(s))
            && Apply(half_st, SendRequest(s))
               == st.(rooms := st.rooms[half.inc := r.(queue := r.queue + [env], sent := r.sent + [env])],
                      sessions := st.sessions[s := x.(pc := Idle, sends := x.sends + 1)])
  {
  }

  /** The state once session `s` has asked the room registered for a room id. */
  function WithAsk(st: State, s: SessionId, i: IncId, m: ClientMessage): State
    requires s < |st.sessions| && i < |st.rooms| && AsksRoom(Some(m))
  {
    var x, r := st.sessions[s], st.rooms[i];
    var env := Envelope(s, x.sends, Request(Some(m), x.id, s));
    st.(rooms := st.rooms[i := r.(queue := r.queue + [env], sent := r.sent + [env])],
        sessions := st.sessions[s := x.(sends := x.sends + 1)])
  }

  /** A waiting session asks a registered room to join or to leave. */
  lemma AsksRegistered(st: State, s: SessionId, rid: RoomId, m: ClientMessage)
    requires s < |st.sessions| && Waiting(st.sessions[s])
    requires rid in st.registry && st.registry[rid] < |st.rooms| && !st.rooms[st.registry[rid]].phase.Dropped?
    requires m == Leaving(rid) || m == Joining(rid, None)
    ensures Leads(st, AskRun(s, m), WithAsk(st, s, st.registry[rid], m))
  {
    var x, i := st.sessions[s], st.registry[rid];
    var half := if m == Leaving(rid) then LeaveHalf(i) else JoinHalf(i, rid, DEFAULT_ROOM_CONFIG);
    var st1 := st.(sessions := st.sessions[s := x.(input := [m])]);
    var st2 := st.(sessions := st.sessions[s := x.(pc := half)]);
    assert x.(pc := Idle, sends := x.sends + 1) == x.(sends := x.sends + 1);
    assert RequestEvent(x.(pc := half), s) == Request(Some(m), x.id, s);
    hide Apply, Enabled, RequestEvent, Request;
    Arrives(st, s, m);
    TakenToHalf(st, s, rid, m, half);
    SendsOff(st, s, half);
    Three(st, ClientSend(s, m), st1, TakeInput(s), st2, SendRequest(s), WithAsk(st, s, i, m));
  }

  lemma TakenToHalf(st: State, s: SessionId, rid: RoomId, m: ClientMessage, half: Pc)
    requires s < |st.sessions| && Waiting(st.sessions[s]) && rid in st.registry
    requires m == Leaving(rid) || m == Joining(rid, None)
    requires half == if m == Leaving(rid) then LeaveHalf(st.registry[rid])
      else JoinHalf(st.registry[rid], rid, DEFAULT_ROOM_CONFIG)
    ensures var asked := st.(sessions := st.sessions[s := st.sessions[s].(input := [m])]);
            && Enabled(asked, TakeInput(s))
            && Apply(asked, TakeInput(s)) == st.(sessions := st.sessions[s := st.sessions[s].(pc := half)])
  {
    assert [m][1..] == [];
  }

  // ---------- Creating a room ----------

  function JoinOf(x: Session, s: SessionId, config: RoomConfig): Envelope {
    Envelope(s, x.sends, InputJoin(Player(x.id, s), config))
  }

  /** The state once session `s` has asked to join a room that it creates. */
  function WithRoom(st: State, s: SessionId, rid: RoomId, config: RoomConfig): State
    requires s < |st.sessions|
  {
    var x := st.sessions[s];
    var env := JoinOf(x, s, config);
    st.(registry := st.registry[rid := |st.rooms|],
        rooms := st.rooms + [NewIncarnation(rid, config, s).(queue := [env], sent := [env])],
        sessions := st.sessions[s := x.(sends := x.sends + 1)])
  }

  lemma CreatesRoom(st: State, s: SessionId, rid: RoomId, requested: Option<RoomConfig>)
    requires s < |st.sessions| && Waiting(st.sessions[s]) && rid !in st.registry
    ensures Leads(st, AskRun(s, Joining(rid, requested)), WithRoom(st, s, rid, RequestedConfig(requested)))
  {
    var config, x, i, m := RequestedConfig(requested), st.sessions[s], |st.rooms|, Joining(rid, requested);
    var half := JoinHalf(i, rid, config);
    var made := st.(registry := st.registry[rid := i], rooms := st.rooms + [NewIncarnation(rid, config, s)]);
    var st1 := st.(sessions := st.sessions[s := x.(input := [m])]);
    var st2 := made.(sessions := st.sessions[s := x.(pc := half)]);
    var st3 := WithRoom(st, s, rid, config);
    assert [] + [JoinOf(x, s, config)] == [JoinOf(x, s, config)];
    assert made.rooms[i := st3.rooms[i]] == st3.rooms;
    assert x.(pc := Idle, sends := x.sends + 1) == x.(sends := x.sends + 1);
    hide Apply, Enabled;
    Arrives(st, s, m);
    TakenToCreate(st, s, rid, requested, st2);
    SendsOff(made, s, half);
    Three(st, ClientSend(s, m), st1, TakeInput(s), st2, SendRequest(s), st3);
  }

  lemma TakenToCreate(st: State, s: SessionId, rid: RoomId, requested: Option<RoomConfig>, st2: State)
    requires s < |st.sessions| && Waiting(st.sessions[s]) && rid !in st.registry
    requires var config := RequestedConfig(requested);
             st2 == st.(registry := st.registry[rid := |st.rooms|],
               rooms := st.rooms + [NewIncarnation(rid, config, s)],
                        sessions := st.sessions[s := st.sessions[s].(pc := JoinHalf(|st.rooms|, rid, config))])
    ensures var asked := st.(sessions := st.sessions[s := st.sessions[s].(input := [Joining(rid, requested)])]);
            Enabled(asked, TakeInput(s)) && Apply(asked, TakeInput(s)) == st2
  {
    assert [Joining(rid, requested)][1..] == [];
  }

  // ---------- Being admitted ----------

  function AdmitRun(i: IncId, id: PlayerId): seq<Step> {
    [RoomTake(i, [id]), RoomDeliver(i), RoomSettle(i)]
  }

  function Welcome(i: IncId, rid: RoomId, id: PlayerId, config: RoomConfig): Delivery {
    Delivery(i, 0, OutputJoin(Success(JoinInfo(rid, id, [id], config))))
  }

  /** A room that has admitted its creator, in some phase and with something to send. */
  function FirstRoom(x: Session, s: SessionId, rid: RoomId, config: RoomConfig, phase: Phase,
      outbox: seq<Post>): Incarnation {
    Incarnation(RoomState(rid, config, map[x.id := Player(x.id, s)]), phase, [], outbox, s,
                [Entry(JoinOf(x, s, config), [x.id])], [JoinOf(x, s, config)], [])
  }

  /** The state once the creator of a new room is its member, not yet told so. */
  function WithMember(st: State, s: SessionId, rid: RoomId, config: RoomConfig): State
    requires s < |st.sessions|
  {
    var x := st.sessions[s];
    st.(registry := st.registry[rid := |st.rooms|],
        rooms := st.rooms + [FirstRoom(x, s, rid, config, Running, [])],
        sessions := st.sessions[s := x.(inbox := x.inbox + [Welcome(|st.rooms|, rid, x.id, config)],
          sends := x.sends + 1)])
  }

  lemma Admits(st: State, s: SessionId, rid: RoomId, config: RoomConfig)
    requires s < |st.sessions| && Alive(st.sessions[s].pc) && config.maxPlayers > 0
    ensures Leads(WithRoom(st, s, rid, config), AdmitRun(|st.rooms|, st.sessions[s].id), WithMember(st, s, rid, config))
  {
    var x, i := st.sessions[s], |st.rooms|;
    var post := Post(s, Welcome(i, rid, x.id, config));
    var st0, st3 := WithRoom(st, s, rid, config), WithMember(st, s, rid, config);
    var st1 := st0.(rooms := st.rooms + [FirstRoom(x, s, rid, config, Sending, [post])]);
    var st2 := st3.(rooms := st.rooms + [FirstRoom(x, s, rid, config, Sending, [])]);
    TakesFirst(st, s, rid, config, st1);
    Welcomes(st1, i, post, st2);
    OneMember(st3.rooms[i].room, x.id);
    assert Apply(st2, RoomSettle(i)) == st3 by { assert st2.rooms[i := st3.rooms[i]] == st3.rooms; }
    hide Apply;
    Three(st0, RoomTake(i, [x.id]), st1, RoomDeliver(i), st2, RoomSettle(i), st3);
  }

  lemma TakesFirst(st: State, s: SessionId, rid: RoomId, config: RoomConfig, st1: State)
    requires s < |st.sessions| && config.maxPlayers > 0
    requires var x, post := st.sessions[s], Post(s, Welcome(|st.rooms|, rid, st.sessions[s].id, config));
             st1 == WithRoom(st, s, rid, config).(rooms := st.rooms + [FirstRoom(x, s, rid, config, Sending, [post])])
    ensures Enabled(WithRoom(st, s, rid, config), RoomTake(|st.rooms|, [st.sessions[s].id]))
    ensures Apply(WithRoom(st, s, rid, config), RoomTake(|st.rooms|, [st.sessions[s].id])) == st1
  {
    var st0, i := WithRoom(st, s, rid, config), |st.rooms|;
    AdmitsFirst(st.sessions[s], s, i, rid, config);
    hide RoomAfter, RoomReady, FirstRoom;
    assert st0.rooms[i := st1.rooms[i]] == st1.rooms;
  }

  lemma Welcomes(st1: State, i: IncId, post: Post, st2: State)
    requires i < |st1.rooms| && st1.rooms[i].phase.Sending? && st1.rooms[i].outbox == [post]
    requires st2 == st1.(rooms := st1.rooms[i := st1.rooms[i].(outbox := [])], sessions := Deliver(st1.sessions, post))
    ensures Enabled(st1, RoomDeliver(i)) && Apply(st1, RoomDeliver(i)) == st2
  {
    assert [post][1..] == [];
  }

  lemma OneMember(room: RoomState<SessionId>, id: PlayerId)
    requires room.players.Keys == {id}
    ensures NumPlayers(room) == 1
  {
    assert |room.players| == |room.players.Keys|;
  }

  lemma AdmitsFirst(x: Session, s: SessionId, i: IncId, rid: RoomId, config: RoomConfig)
    requires config.maxPlayers > 0
    ensures var r := NewIncarnation(rid, config, s).(queue := [JoinOf(x, s, config)], sent := [JoinOf(x, s, config)]);
            && RoomReady(r, RoomTake(i, [x.id]))
            && RoomAfter(r, i, RoomTake(i, [x.id])) ==
              FirstRoom(x, s, rid, config, Sending, [Post(s, Welcome(i, rid, x.id, config))])
  {
    var env := JoinOf(x, s, config);
    var r := NewIncarnation(rid, config, s).(queue := [env], sent := [env]);
    var players := map[x.id := Player(x.id, s)];
    var event := Welcome(i, rid, x.id, config).event;
    assert map[][x.id := Player(x.id, s)] == players;
    assert AddPlayer(r.room, Player(x.id, s), config) == Success(RoomState(rid, config, players));
    assert Broadcast(players, [x.id], event) == [Send(s, event)] by {
      assert [x.id][1..] == [];
      assert Broadcast(players, [], event) == [];
    }
    assert Handle(r.room, env.event, [x.id]) == Handling(RoomState(rid, config, players), [Send(s, event)]);
    assert Tag([Send(s, event)], i, 0) == [Post(s, Welcome(i, rid, x.id, config))];
    assert [env][1..] == [] && [] + [Entry(env, [x.id])] == [Entry(env, [x.id])];
  }
}
