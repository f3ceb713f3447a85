/** The values that travel through the server's channels: the room actor's input and
    output events, and the client and server messages of the wire protocol. */
module Events {
  import opened Wrappers

  type PlayerId = string
  type RoomId = string
  type Byte = b: int | 0 <= b < 256
  type Bytes = seq<Byte>

  const U32_SIZE := 0x1_0000_0000
  type U32 = n: int | 0 <= n < 0x1_0000_0000

  datatype RoomConfig = RoomConfig(maxPlayers: U32)

  const DEFAULT_ROOM_CONFIG := RoomConfig(2)

  datatype RoomError =
    | AlreadyJoinedRoom(roomId: RoomId, playerId: PlayerId)
    | RoomConfigDoesNotMatch(roomId: RoomId, playerId: PlayerId)
    | RoomIsFull(roomId: RoomId, playerId: PlayerId)

  /** A player is an id and the sending half of its session's event channel. The type `C` of
      channel handles is a channel object in the imperative model and a session number in the
      concurrent one. */
  datatype Player<+C> = Player(id: PlayerId, sender: C)

  datatype InputEvent<+C> =
    | InputJoin(player: Player<C>, config: RoomConfig)
    | InputLeave(playerId: PlayerId)
    | InputMessage(senderId: PlayerId, targetIds: seq<PlayerId>, body: Bytes)

  datatype JoinInfo = JoinInfo(roomId: RoomId, playerId: PlayerId, roomPlayerIds: seq<PlayerId>, roomConfig: RoomConfig)
  datatype LeaveInfo = LeaveInfo(roomId: RoomId, playerId: PlayerId)
  datatype MessageInfo = MessageInfo(roomId: RoomId, senderId: PlayerId, body: Bytes)

  datatype OutputEvent =
    | OutputJoin(join: Result<JoinInfo, RoomError>)
    | OutputLeave(leave: Result<LeaveInfo, RoomError>)
    | OutputMessage(message: MessageInfo)

  datatype ErrorCode =
    | NoError
    | FailedPrecondition
    | Unauthorized
    | AlreadyLoggedIn
    | AlreadyJoinedTheRoom
    | RoomIsFullCode
    | RoomNotFound
    | RoomConfigMismatch

  /** What a client may send; the bearer token is optional and so is the whole payload. */
  datatype ClientData =
    | LoginRequest(playerId: PlayerId, bearer: Option<string>)
    | JoinRequest(roomId: RoomId, config: Option<RoomConfig>)
    | LeaveRequest(roomId: RoomId)
    | SendMessage(targetIds: seq<PlayerId>, roomId: RoomId, body: Bytes)

  datatype ClientMessage = ClientMessage(data: Option<ClientData>)

  datatype ServerMessage =
    | LoginResponse(code: ErrorCode)
    | JoinResponse(roomId: RoomId, currentPlayers: seq<PlayerId>, roomConfig: Option<RoomConfig>, code: ErrorCode)
    | JoinNotification(roomId: RoomId, playerId: PlayerId)
    | LeaveResponse(roomId: RoomId, code: ErrorCode)
    | LeaveNotification(roomId: RoomId, playerId: PlayerId)
    | MessageNotification(senderId: PlayerId, roomId: RoomId, body: Bytes)
}
