/** The whole server as a concurrent system. Rooms (one incarnation per spawned room task) and
    player sessions are numbered; channels are queues inside them. A step is what one task does
    between two points where another task can interfere, so every run of tasks is a sequence of
    steps. Fields marked history record the past and never influence a step. */
module Protocol {
  import opened Wrappers
  import opened Events
  import opened RoomCore
  import opened PlayerCore

  type SessionId = nat
  type IncId = nat

  /** A room event in a room's queue; who sent it and the sender's send count are history. */
  datatype Envelope = Envelope(from: SessionId, no: nat, event: InputEvent<SessionId>)

  /** History: a handled event and the iteration order its handler met. */
  datatype Entry = Entry(env: Envelope, order: seq<PlayerId>)

  /** An event for a player; the incarnation and log position it stems from are history. */
  datatype Delivery = Delivery(inc: IncId, pos: nat, event: OutputEvent)

  datatype Post = Post(to: SessionId, delivery: Delivery)

  /** Running: waiting for an event. Sending: inside a handler, working through `outbox`.
      Stopping: found empty, not yet deregistered. Dropped: the receiver is gone. */
  datatype Phase = Running | Sending | Stopping | Deregistered | Dropped

  datatype Incarnation = Incarnation(
    room: RoomState<SessionId>,
    phase: Phase,
    queue: seq<Envelope>,
    outbox: seq<Post>,
    creator: SessionId,       // history
    log: seq<Entry>,          // history: events handled
    sent: seq<Envelope>,      // history: every successful send to the queue
    discarded: seq<Envelope>  // history: events lost with the receiver
  )

  datatype Pc =
    | AwaitLogin
    | RejectingDuplicate
    | RejectingDenied
    | Idle
    | JoinHalf(inc: IncId, roomId: RoomId, config: RoomConfig)
    | LeaveHalf(inc: IncId)
    | MessageHalf(inc: IncId, targetIds: seq<PlayerId>, body: Bytes)
    | JoinedHalf(info: JoinInfo, found: Option<IncId>)
    | LeavingRooms(remaining: map<RoomId, IncId>)
    | Finished
    | Panicked

  datatype Session = Session(
    pc: Pc,
    id: PlayerId,
    input: seq<ClientMessage>,
    clientGone: bool,
    joined: map<RoomId, IncId>,
    inbox: seq<Delivery>,
    out: seq<ServerMessage>,
    epoch: nat,              // history: login stamp, 0 before a successful login
    handled: seq<Delivery>,  // history: events taken from the inbox
    sends: nat               // history: number of sends to rooms
  )

  datatype State = State(
    bearer: string,
    players: set<PlayerId>,
    registry: map<RoomId, IncId>,
    rooms: seq<Incarnation>,
    sessions: seq<Session>,
    logins: nat  // history
  )

  const NEW_SESSION := Session(AwaitLogin, "", [], false, map[], [], [], 0, [], 0)

  function Init(bearer: string): State {
    State(bearer, {}, map[], [], [], 0)
  }

  datatype Step =
    // the environment
    | Connect
    | ClientSend(s: SessionId, message: ClientMessage)
    | ClientClose(s: SessionId)
    // the player task
    | TryLogin(s: SessionId)
    | LoginClosed(s: SessionId)
    | RejectUnregister(s: SessionId)
    | TakeInput(s: SessionId)
    | SendRequest(s: SessionId)
    | TakeEvent(s: SessionId)
    | InsertJoined(s: SessionId)
    | Disconnect(s: SessionId)
    | SendLeave(s: SessionId, roomId: RoomId)
    | Unregister(s: SessionId)
    // the room task
    | RoomTake(i: IncId, order: seq<PlayerId>)
    | RoomDeliver(i: IncId)
    | RoomSettle(i: IncId)
    | RoomDeregister(i: IncId)
    | RoomDrop(i: IncId)
    | RoomStarve(i: IncId)

  // ---------- Reading the state ----------

  predicate Alive(pc: Pc) {
    !pc.Finished? && !pc.Panicked?
  }

  predicate RequestHalf(pc: Pc) {
    pc.JoinHalf? || pc.LeaveHalf? || pc.MessageHalf?
  }

  /** In the select loop or one of its handlers. */
  predicate Looping(pc: Pc) {
    pc.Idle? || RequestHalf(pc) || pc.JoinedHalf?
  }

  /** Logged in, and neither crashed nor gone: in the select loop or sending its farewells. */
  predicate Serving(pc: Pc) {
    Looping(pc) || pc.LeavingRooms?
  }

  /** Sending its farewells, or gone. */
  predicate Departing(pc: Pc) {
    pc.LeavingRooms? || pc.Finished?
  }

  predicate Registered(phase: Phase) {
    phase.Running? || phase.Sending? || phase.Stopping?
  }

  function LookUp(registry: map<RoomId, IncId>, roomId: RoomId): Option<IncId> {
    if roomId in registry then Some(registry[roomId]) else None
  }

  /** Session `x` holds a sending half of incarnation `i`'s channel. */
  predicate Holds(x: Session, i: IncId) {
    && Alive(x.pc)
    && (|| (exists r :: r in x.joined && x.joined[r] == i)
        || (RequestHalf(x.pc) && x.pc.inc == i)
        || (x.pc.JoinedHalf? && x.pc.found == Some(i)))
  }

  predicate HasSender(st: State, i: IncId) {
    || (exists r :: r in st.registry && st.registry[r] == i)
    || (exists s :: 0 <= s < |st.sessions| && Holds(st.sessions[s], i))
  }

  // ---------- Parts of steps ----------

  function Say(x: Session, m: ServerMessage): Session {
    if x.clientGone then x else x.(out := x.out + [m])
  }

  function NewIncarnation(roomId: RoomId, config: RoomConfig, creator: SessionId): Incarnation {
    Incarnation(NewRoom(roomId, config), Running, [], [], creator, [], [], [])
  }

  /** A send on a room's channel: it fails exactly when the receiver is gone. */
  function Enqueue(rooms: seq<Incarnation>, i: IncId, env: Envelope): seq<Incarnation>
    requires i < |rooms|
  {
    if rooms[i].phase.Dropped? then rooms
    else rooms[i := rooms[i].(queue := rooms[i].queue + [env], sent := rooms[i].sent + [env])]
  }

  function Tag(sends: seq<Send<SessionId, OutputEvent>>, i: IncId, pos: nat): seq<Post> {
    seq(|sends|, k requires 0 <= k < |sends| => Post(sends[k].to, Delivery(i, pos, sends[k].event)))
  }

  function LoginStep(st: State, s: SessionId): State
    requires s < |st.sessions| && st.sessions[s].input != []
  {
    var x := st.sessions[s].(input := st.sessions[s].input[1..]);
    var data := st.sessions[s].input[0].data;
    if data.None? then st.(sessions := st.sessions[s := x])
    else if !data.value.LoginRequest? then st.(sessions := st.sessions[s := x.(pc := Finished)])
    else
      var id := data.value.playerId;
      match Judge(id !in st.players, data.value.bearer, st.bearer)
      case Duplicate =>
        st.(sessions := st.sessions[s := Say(x, LoginResponse(AlreadyLoggedIn)).(pc := RejectingDuplicate, id := id)])
      case Denied =>
        st.(players := st.players + {id},
            sessions := st.sessions[s := Say(x, LoginResponse(Unauthorized)).(pc := RejectingDenied, id := id)])
      case Accepted =>
        st.(players := st.players + {id},
            logins := st.logins + 1,
            sessions := st.sessions[s := Say(x, LoginResponse(NoError)).(pc := Idle, id := id, epoch := st.logins + 1)])
  }

  /** One client request in the select loop, up to and including the room lookup. */
  function InputStep(st: State, s: SessionId): State
    requires s < |st.sessions| && st.sessions[s].input != []
  {
    var x := st.sessions[s].(input := st.sessions[s].input[1..]);
    var data := st.sessions[s].input[0].data;
    if data.None? then st.(sessions := st.sessions[s := x])
    else
      match data.value
      case LoginRequest(_, _) =>
        st.(sessions := st.sessions[s := Say(x, LoginResponse(AlreadyLoggedIn))])
      case JoinRequest(roomId, requested) =>
        var config := RequestedConfig(requested);
        if roomId in st.registry then
          st.(sessions := st.sessions[s := x.(pc := JoinHalf(st.registry[roomId], roomId, config))])
        else
          st.(registry := st.registry[roomId := |st.rooms|],
              rooms := st.rooms + [NewIncarnation(roomId, config, s)],
              sessions := st.sessions[s := x.(pc := JoinHalf(|st.rooms|, roomId, config))])
      case LeaveRequest(roomId) =>
        if roomId in st.registry then
          st.(sessions := st.sessions[s := x.(pc := LeaveHalf(st.registry[roomId]))])
        else
          st.(sessions := st.sessions[s := Say(x, LeaveResponse(roomId, FailedPrecondition))])
      case SendMessage(targetIds, roomId, body) =>
        if roomId in st.registry then
          st.(sessions := st.sessions[s := x.(pc := MessageHalf(st.registry[roomId], targetIds, body))])
        else
          st.(sessions := st.sessions[s := x])
  }

  /** The event a request in progress is about to send. */
  function RequestEvent(x: Session, s: SessionId): InputEvent<SessionId>
    requires RequestHalf(x.pc)
  {
    match x.pc
    case JoinHalf(_, _, config) => InputJoin(Player(x.id, s), config)
    case LeaveHalf(_) => InputLeave(x.id)
    case MessageHalf(_, targetIds, body) => InputMessage(x.id, targetIds, body)
  }

  function RequestStep(st: State, s: SessionId): State
    requires s < |st.sessions| && RequestHalf(st.sessions[s].pc) && st.sessions[s].pc.inc < |st.rooms|
  {
    var x := st.sessions[s];
    var i := x.pc.inc;
    var y := x.(pc := Idle, sends := x.sends + 1);
    st.(rooms := Enqueue(st.rooms, i, Envelope(s, x.sends, RequestEvent(x, s))),
        sessions := st.sessions[s :=
          if st.rooms[i].phase.Dropped? && x.pc.JoinHalf?
          then Say(y, JoinResponse(x.pc.roomId, [], None, RoomNotFound)) else y])
  }

  /** One room event in the select loop; for an own join, up to and including the lookup. */
  function EventStep(st: State, s: SessionId): State
    requires s < |st.sessions| && st.sessions[s].inbox != []
  {
    var d := st.sessions[s].inbox[0];
    var x := st.sessions[s].(inbox := st.sessions[s].inbox[1..], handled := st.sessions[s].handled + [d]);
    var y :=
      if Panics(d.event) then x.(pc := Panicked)
      else if IsOwnJoin(d.event, x.id) then
        x.(pc := JoinedHalf(d.event.join.value, LookUp(st.registry, d.event.join.value.roomId)))
      else Say(x, Notice(d.event, x.id)).(joined := Uncache(x.joined, d.event, x.id));
    st.(sessions := st.sessions[s := y])
  }

  function InsertStep(st: State, s: SessionId): State
    requires s < |st.sessions| && st.sessions[s].pc.JoinedHalf?
  {
    var x := st.sessions[s];
    var info := x.pc.info;
    var y := Say(x, JoinAnswer(info, x.pc.found.Some?)).(pc := Idle);
    st.(sessions := st.sessions[s :=
      if x.pc.found.Some? then y.(joined := x.joined[info.roomId := x.pc.found.value]) else y])
  }

  function SendLeaveStep(st: State, s: SessionId, roomId: RoomId): State
    requires s < |st.sessions| && st.sessions[s].pc.LeavingRooms?
    requires roomId in st.sessions[s].pc.remaining && st.sessions[s].pc.remaining[roomId] < |st.rooms|
  {
    var x := st.sessions[s];
    st.(rooms := Enqueue(st.rooms, x.pc.remaining[roomId], Envelope(s, x.sends, InputLeave(x.id))),
        sessions := st.sessions[s := x.(pc := LeavingRooms(x.pc.remaining - {roomId}), sends := x.sends + 1)])
  }

  /** The effect of a room task's step on its own incarnation `i`. */
  function RoomAfter(r: Incarnation, i: IncId, step: Step): Incarnation
    requires RoomReady(r, step)
  {
    match step
    case RoomTake(_, order) =>
      var result := Handle(r.room, r.queue[0].event, order);
      r.(room := result.room,
         phase := Sending,
         queue := r.queue[1..],
         outbox := Tag(result.sends, i, |r.log|),
         log := r.log + [Entry(r.queue[0], order)])
    case RoomDeliver(_) => r.(outbox := r.outbox[1..])
    case RoomSettle(_) => r.(phase := if NumPlayers(r.room) == 0 then Stopping else Running)
    case RoomDeregister(_) => r.(phase := Deregistered)
    case RoomDrop(_) => r.(phase := Dropped, queue := [], discarded := r.queue)
    case RoomStarve(_) => r.(phase := Dropped)
  }

  /** One send on a player's channel: it fails silently when the receiver is gone. */
  function Deliver(sessions: seq<Session>, post: Post): seq<Session> {
    if post.to < |sessions| && Alive(sessions[post.to].pc) then
      var x := sessions[post.to];
      sessions[post.to := x.(inbox := x.inbox + [post.delivery])]
    else sessions
  }

  // ---------- The step relation ----------

  predicate RoomStep(step: Step) {
    || step.RoomTake? || step.RoomDeliver? || step.RoomSettle?
    || step.RoomDeregister? || step.RoomDrop? || step.RoomStarve?
  }

  /** What a room task's step needs of its incarnation. */
  predicate RoomReady(r: Incarnation, step: Step) {
    match step
    case RoomTake(_, order) =>
      r.phase.Running? && r.queue != [] && Enumerates(order, Iterated(r.room, r.queue[0].event).Keys)
    case RoomDeliver(_) => r.phase.Sending? && r.outbox != []
    case RoomSettle(_) => r.phase.Sending? && r.outbox == []
    case RoomDeregister(_) => r.phase.Stopping?
    case RoomDrop(_) => r.phase.Deregistered?
    case RoomStarve(_) => r.phase.Running? && r.queue == []
    case _ => false
  }

  predicate SessionReady(st: State, step: Step) {
    match step
    case Connect => true
    case ClientSend(s, _) => s < |st.sessions| && !st.sessions[s].clientGone && Alive(st.sessions[s].pc)
    case ClientClose(s) => s < |st.sessions| && !st.sessions[s].clientGone
    case TryLogin(s) => s < |st.sessions| && st.sessions[s].pc.AwaitLogin? && st.sessions[s].input != []
    case LoginClosed(s) =>
      s < |st.sessions| && st.sessions[s].pc.AwaitLogin? && st.sessions[s].input == [] && st.sessions[s].clientGone
    case RejectUnregister(s) =>
      s < |st.sessions| && (st.sessions[s].pc.RejectingDuplicate? || st.sessions[s].pc.RejectingDenied?)
    case TakeInput(s) => s < |st.sessions| && st.sessions[s].pc.Idle? && st.sessions[s].input != []
    case SendRequest(s) =>
      s < |st.sessions| && RequestHalf(st.sessions[s].pc) && st.sessions[s].pc.inc < |st.rooms|
    case TakeEvent(s) => s < |st.sessions| && st.sessions[s].pc.Idle? && st.sessions[s].inbox != []
    case InsertJoined(s) => s < |st.sessions| && st.sessions[s].pc.JoinedHalf?
    case Disconnect(s) => s < |st.sessions| && st.sessions[s].pc.Idle? && st.sessions[s].clientGone
    case SendLeave(s, roomId) =>
      && s < |st.sessions| && st.sessions[s].pc.LeavingRooms?
      && roomId in st.sessions[s].pc.remaining && st.sessions[s].pc.remaining[roomId] < |st.rooms|
    case Unregister(s) => s < |st.sessions| && st.sessions[s].pc == LeavingRooms(map[])
    case _ => false
  }

  predicate Enabled(st: State, step: Step) {
    if RoomStep(step) then
      step.i < |st.rooms| && RoomReady(st.rooms[step.i], step) && (step.RoomStarve? ==> !HasSender(st, step.i))
    else SessionReady(st, step)
  }

  function ApplyRoom(st: State, step: Step): State
    requires RoomStep(step) && step.i < |st.rooms| && RoomReady(st.rooms[step.i], step)
  {
    var r := st.rooms[step.i];
    st.(rooms := st.rooms[step.i := RoomAfter(r, step.i, step)],
        registry := if step.RoomDeregister? then st.registry - {r.room.id} else st.registry,
        sessions := if step.RoomDeliver? then Deliver(st.sessions, r.outbox[0]) else st.sessions)
  }

  function ApplySession(st: State, step: Step): State
    requires SessionReady(st, step)
  {
    match step
    case Connect => st.(sessions := st.sessions + [NEW_SESSION])
    case ClientSend(s, message) =>
      st.(sessions := st.sessions[s := st.sessions[s].(input := st.sessions[s].input + [message])])
    case ClientClose(s) => st.(sessions := st.sessions[s := st.sessions[s].(clientGone := true)])
    case TryLogin(s) => LoginStep(st, s)
    case LoginClosed(s) => st.(sessions := st.sessions[s := st.sessions[s].(pc := Finished)])
    case RejectUnregister(s) =>
      st.(players := st.players - {st.sessions[s].id},
          sessions := st.sessions[s := st.sessions[s].(pc := Finished)])
    case TakeInput(s) => InputStep(st, s)
    case SendRequest(s) => RequestStep(st, s)
    case TakeEvent(s) => EventStep(st, s)
    case InsertJoined(s) => InsertStep(st, s)
    case Disconnect(s) =>
      st.(sessions := st.sessions[s := st.sessions[s].(pc := LeavingRooms(st.sessions[s].joined))])
    case SendLeave(s, roomId) => SendLeaveStep(st, s, roomId)
    case Unregister(s) =>
      st.(players := st.players - {st.sessions[s].id},
          sessions := st.sessions[s := st.sessions[s].(pc := Finished)])
  }

  function Apply(st: State, step: Step): State
    requires Enabled(st, step)
  {
    if RoomStep(step) then ApplyRoom(st, step) else ApplySession(st, step)
  }

  /** The runs of the server: sequences of steps, each enabled where it is taken. */
  predicate Valid(bearer: string, steps: seq<Step>)
    decreases |steps|, 0
  {
    steps == [] ||
    (Valid(bearer, steps[..|steps| - 1]) && Enabled(Exec(bearer, steps[..|steps| - 1]), steps[|steps| - 1]))
  }

  function Exec(bearer: string, steps: seq<Step>): State
    requires Valid(bearer, steps)
    decreases |steps|, 1
  {
    if steps == [] then Init(bearer)
    else Apply(Exec(bearer, steps[..|steps| - 1]), steps[|steps| - 1])
  }

  /** The state of a run after its first `n` steps. */
  function StateAt(bearer: string, steps: seq<Step>, n: nat): State
    requires Valid(bearer, steps) && n <= |steps|
    decreases |steps|
  {
    if n == |steps| then Exec(bearer, steps) else StateAt(bearer, steps[..|steps| - 1], n)
  }
}
