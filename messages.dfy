/** The `Message` record exchanged on the channel, and what the page emits on it. */
module Messages {
  import opened Wrappers

  /** The single room the page joins. */
  const ROOM_ID: string := "test-room-id"
  /** The sender tag of locally composed messages, also the username sent with `typing`. */
  const LOCAL_SENDER: string := "user"

  /**
   * A chat message. The optional fields `file`, `fileName` and `roomId`
   * are `None` when null or absent; `timestamp` is an ISO-8601 instant
   * kept as text.
   */
  datatype Message = Message(
    id: int,
    text: Option<string>,
    sender: string,
    file: Option<string>,
    fileName: Option<string>,
    roomId: Option<string>,
    timestamp: string)

  /** One `socket.emit` call, with its event name and payload. */
  datatype Emission =
    | JoinRoom(room: string)
    | LeaveRoom(room: string)
    | PostMessage(message: Message)
    | Typing(room: string, username: string)
    | StopTyping(room: string)
}
