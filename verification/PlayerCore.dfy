/** The decisions of the player actor as pure functions: login, and the answer to each event a
    room sends. Shared by the imperative player actor and the concurrent system. */
module PlayerCore {
  import opened Wrappers
  import opened Events

  datatype LoginVerdict = Duplicate | Denied | Accepted

  /** `unused` says that registering the id found it unused. */
  function Judge(unused: bool, bearer: Option<string>, expected: string): LoginVerdict {
    if !unused then Duplicate
    else if bearer == Some(expected) then Accepted
    else Denied
  }

  function RequestedConfig(config: Option<RoomConfig>): RoomConfig {
    if config.Some? then config.value else DEFAULT_ROOM_CONFIG
  }

  /** The configuration is the one a join request names, or allows two players if it names none. */
  predicate Wants(requested: Option<RoomConfig>, config: RoomConfig) {
    if requested.Some? then config == requested.value else config.maxPlayers == 2
  }

  /** The event is what a client's payload asks of a room, on behalf of player `id`. */
  predicate Asks<C(==)>(data: ClientData, id: PlayerId, sender: C, event: InputEvent<C>) {
    match data
    case LoginRequest(_, _) => false
    case JoinRequest(_, requested) =>
      event.InputJoin? && event.player.id == id && event.player.sender == sender && Wants(requested, event.config)
    case LeaveRequest(_) => event.InputLeave? && event.playerId == id
    case SendMessage(targetIds, _, body) =>
      event.InputMessage? && event.senderId == id && event.targetIds == targetIds && event.body == body
  }

  /** The first of the messages that carries data is number `k`. */
  predicate FirstData(messages: seq<ClientMessage>, k: nat) {
    k < |messages| && messages[k].data.Some? && forall i :: 0 <= i < k ==> messages[i].data.None?
  }

  predicate AsksRoom(message: Option<ClientMessage>) {
    message.Some? && message.value.data.Some? && !message.value.data.value.LoginRequest?
  }

  predicate AsksToJoin(message: Option<ClientMessage>) {
    AsksRoom(message) && message.value.data.value.JoinRequest?
  }

  /** The channel of the room that a client message is about, if that room is registered. */
  function Addressee<H>(channels: map<RoomId, H>, message: Option<ClientMessage>): Option<H> {
    if AsksRoom(message) && message.value.data.value.roomId in channels
    then Some(channels[message.value.data.value.roomId]) else None
  }

  function Request<C>(message: Option<ClientMessage>, id: PlayerId, sender: C): InputEvent<C>
    requires AsksRoom(message)
  {
    match message.value.data.value
    case JoinRequest(_, requested) => InputJoin(Player(id, sender), RequestedConfig(requested))
    case LeaveRequest(_) => InputLeave(id)
    case SendMessage(targetIds, _, body) => InputMessage(id, targetIds, body)
  }

  /** What the client is told at once. */
  function Reply(message: Option<ClientMessage>, registered: bool, open: bool): Option<ServerMessage> {
    if message.None? || message.value.data.None? then None
    else
      match message.value.data.value
      case LoginRequest(_, _) => Some(LoginResponse(AlreadyLoggedIn))
      case JoinRequest(roomId, _) => if registered && !open then Some(JoinResponse(roomId, [], None, RoomNotFound))
        else None
      case LeaveRequest(roomId) => if registered then None else Some(LeaveResponse(roomId, FailedPrecondition))
      case SendMessage(_, _, _) => None
  }

  predicate IsOwnJoin(e: OutputEvent, id: PlayerId) {
    e.OutputJoin? && e.join.Success? && e.join.value.playerId == id
  }

  predicate IsOwnLeave(e: OutputEvent, id: PlayerId) {
    e.OutputLeave? && e.leave.Success? && e.leave.value.playerId == id
  }

  /** The events that reach an unreachable-marked arm: a join refused for lack of space, and a
      leave error. */
  predicate Panics(e: OutputEvent) {
    || (e.OutputJoin? && e.join.Failure? && e.join.error.RoomIsFull?)
    || (e.OutputLeave? && e.leave.Failure?)
  }

  /** The client's answer to its own successful join, once the room has been looked up again. */
  function JoinAnswer(info: JoinInfo, found: bool): ServerMessage {
    if found then JoinResponse(info.roomId, info.roomPlayerIds, Some(info.roomConfig), NoError)
    else JoinResponse(info.roomId, [], None, RoomNotFound)
  }

  /** What the client is told about any other event. */
  function Notice(e: OutputEvent, id: PlayerId): ServerMessage
    requires !Panics(e) && !IsOwnJoin(e, id)
  {
    match e
    case OutputJoin(Success(info)) => JoinNotification(info.roomId, info.playerId)
    case OutputJoin(Failure(error)) =>
      JoinResponse(error.roomId, [], None, if error.AlreadyJoinedRoom? then AlreadyJoinedTheRoom
        else RoomConfigMismatch)
    case OutputLeave(Success(info)) =>
      if info.playerId == id then LeaveResponse(info.roomId, NoError) else LeaveNotification(info.roomId, info.playerId)
    case OutputMessage(info) => MessageNotification(info.senderId, info.roomId, info.body)
  }

  /** The joined-rooms cache after any event but an own join: an own leave forgets the room. */
  function Uncache<H>(joined: map<RoomId, H>, e: OutputEvent, id: PlayerId): map<RoomId, H> {
    if IsOwnLeave(e, id) then joined - {e.leave.value.roomId} else joined
  }
}
