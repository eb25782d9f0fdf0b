/**
 * The state of the chat page and its event handlers as pure transitions.
 * Inbound socket events, user input and timer expiry are events applied in
 * any order; `socket.emit` calls are appended to an emission log, and every
 * `setTimeout` of the typing handler becomes a pending timer that only its
 * own expiry removes.
 */
module ChatMachine {
  import opened Wrappers
  import opened Text
  import opened Messages
  import MessageStore

  /** A browser `File` picked by the user; the page only reads its name. */
  datatype LocalFile = LocalFile(name: string)

  datatype ChatState = ChatState(
    messages: seq<Message>,     // rendered messages, in insertion order
    input: string,              // the textarea's value
    attached: Option<LocalFile>,
    emojiPickerOpen: bool,
    typing: bool,               // local user announced as typing
    isTyping: Option<string>,   // remote presence value, kept but never rendered
    subscribed: bool,           // the socket handlers are registered
    pending: seq<nat>,          // ids of the scheduled stop-typing timers, oldest first
    nextTimer: nat,             // id of the next timer to be scheduled
    emitted: seq<Emission>)     // every socket emission so far

  /** The first render followed by the mount effect: join the room and register the handlers. */
  function Mount(): ChatState {
    ChatState([], "", None, false, false, None, true, [], 0, [JoinRoom(ROOM_ID)])
  }

  /** The inbound `message` handler: insert unless the id is known. */
  function OnMessage(s: ChatState, m: Message): ChatState {
    if s.subscribed then s.(messages := MessageStore.Insert(s.messages, m)) else s
  }

  /** The presence value a remote `typing` event stores. */
  function TypingLine(username: string): string {
    username + " is typing..."
  }

  /** The inbound `typing` handler. */
  function OnTyping(s: ChatState, username: string): ChatState {
    if s.subscribed then s.(isTyping := Some(TypingLine(username))) else s
  }

  /** The inbound `stop typing` handler. */
  function OnStopTyping(s: ChatState): ChatState {
    if s.subscribed then s.(isTyping := None) else s
  }

  /** The effect's cleanup: leave the room and remove the handlers. Pending timers stay scheduled. */
  function Unmount(s: ChatState): ChatState {
    s.(subscribed := false, emitted := s.emitted + [LeaveRoom(ROOM_ID)])
  }

  /**
   * `handleTyping`: announce typing once while the flag is down, and
   * schedule a fresh stop timer on every call. The cleanup closure it
   * returns is dropped by its caller, so no timer is ever cancelled.
   */
  function HandleTyping(s: ChatState): ChatState {
    var s' := if s.typing then s
              else s.(typing := true, emitted := s.emitted + [Typing(ROOM_ID, LOCAL_SENDER)]);
    s'.(pending := s'.pending + [s'.nextTimer], nextTimer := s'.nextTimer + 1)
  }

  /** `handleInputChange`: store the new text, then `handleTyping`. */
  function InputChange(s: ChatState, value: string): ChatState {
    HandleTyping(s.(input := value))
  }

  /** Expiry of the oldest pending timer: lower the flag and emit `stop typing`. */
  function FireTimer(s: ChatState): ChatState
    requires s.pending != []
  {
    s.(pending := s.pending[1..], typing := false, emitted := s.emitted + [StopTyping(ROOM_ID)])
  }

  /** `handleEmojiClick`: append the emoji and close the picker. */
  function EmojiClick(s: ChatState, emoji: string): ChatState {
    s.(input := s.input + emoji, emojiPickerOpen := false)
  }

  /** The smiley button flips the picker. */
  function ToggleEmojiPicker(s: ChatState): ChatState {
    s.(emojiPickerOpen := !s.emojiPickerOpen)
  }

  /** `handleFileChange`: attach the first picked file, if any. */
  function FileChange(s: ChatState, files: seq<LocalFile>): ChatState {
    if |files| > 0 then s.(attached := Some(files[0])) else s
  }

  /**
   * The message record `sendMessage` builds, or `None` when it refuses.
   * `now` stands for `Date.now()`, `timestamp` for the ISO text of the
   * current instant and `objectUrl` for `URL.createObjectURL(file)`.
   */
  function Compose(input: string, attached: Option<LocalFile>, now: int, timestamp: string, objectUrl: string)
    : (r: Option<Message>)
    ensures r.None? <==> AllWhitespace(input) && attached.None?
    ensures r.Some? ==>
      var m := r.value;
      m.id == now && m.sender == LOCAL_SENDER && m.roomId == Some(ROOM_ID) && m.timestamp == timestamp
      && (m.text.None? <==> AllWhitespace(input))
      && (m.text.Some? ==> m.text.value == Trim(input)
                           && !IsWhitespace(m.text.value[0])
                           && !IsWhitespace(m.text.value[|m.text.value| - 1]))
      && (m.file.Some? <==> attached.Some?) && (m.fileName.Some? <==> attached.Some?)
      && (attached.Some? ==> m.file == Some(objectUrl) && m.fileName == Some(attached.value.name))
      && (m.text.Some? || m.file.Some?)
  {
    var trimmed := Trim(input);
    if trimmed == [] && attached.None? then None
    else
      Some(Message(
        now,
        if trimmed == [] then None else Some(trimmed),
        LOCAL_SENDER,
        if attached.Some? then Some(objectUrl) else None,
        if attached.Some? then Some(attached.value.name) else None,
        Some(ROOM_ID),
        timestamp))
  }

  /**
   * `sendMessage`: when `Compose` accepts, emit the message, append it
   * without an id check, clear the input and the attachment, and emit
   * `stop typing`; otherwise change nothing.
   */
  function Send(s: ChatState, now: int, timestamp: string, objectUrl: string): ChatState {
    match Compose(s.input, s.attached, now, timestamp, objectUrl)
    case None => s
    case Some(m) =>
      s.(messages := s.messages + [m], input := "", attached := None,
         emitted := s.emitted + [PostMessage(m), StopTyping(ROOM_ID)])
  }

  /** `handleKeyDown`: Enter without Shift sends; any other key is left to the textarea. */
  function KeyDown(s: ChatState, key: string, shift: bool, now: int, timestamp: string, objectUrl: string)
    : ChatState
  {
    if key == "Enter" && !shift then Send(s, now, timestamp, objectUrl) else s
  }

  /** Everything that can happen to a mounted page. */
  datatype Event =
    | Inbound(message: Message)
    | RemoteTyping(username: string)
    | RemoteStopTyping
    | Input(value: string)
    | TimerExpires
    | Emoji(emoji: string)
    | ToggleEmoji
    | PickFiles(files: seq<LocalFile>)
    | SendClick(now: int, timestamp: string, objectUrl: string)
    | Key(key: string, shift: bool, now: int, timestamp: string, objectUrl: string)
    | Teardown

  /** One event; a timer cannot expire when none is pending, so that case leaves the state alone. */
  function Step(s: ChatState, e: Event): ChatState {
    match e
    case Inbound(m) => OnMessage(s, m)
    case RemoteTyping(u) => OnTyping(s, u)
    case RemoteStopTyping => OnStopTyping(s)
    case Input(v) => InputChange(s, v)
    case TimerExpires => if s.pending == [] then s else FireTimer(s)
    case Emoji(x) => EmojiClick(s, x)
    case ToggleEmoji => ToggleEmojiPicker(s)
    case PickFiles(fs) => FileChange(s, fs)
    case SendClick(now, ts, url) => Send(s, now, ts, url)
    case Key(k, sh, now, ts, url) => KeyDown(s, k, sh, now, ts, url)
    case Teardown => Unmount(s)
  }

  /** The events in order. */
  function Run(s: ChatState, evs: seq<Event>): ChatState
    decreases |evs|
  {
    if evs == [] then s else Run(Step(s, evs[0]), evs[1..])
  }

  lemma {:induction false} RunAppend(s: ChatState, a: seq<Event>, b: seq<Event>)
    ensures Run(s, a + b) == Run(Run(s, a), b)
    decreases |a|
  {
    if a != [] {
      assert (a + b)[0] == a[0] && (a + b)[1..] == a[1..] + b;
      RunAppend(Step(s, a[0]), a[1..], b);
    } else {
      assert a + b == b;
    }
  }
}
