/**
 * The `ChatApp` component as an object: its React state variables are
 * fields, each handler is a method that updates them step by step, and
 * every method is proved to perform the matching transition of
 * `ChatMachine` on the whole state.
 */
module ChatApp {
  import opened Wrappers
  import opened Text
  import opened Messages
  import MessageStore
  import ChatMachine

  class ChatPage {
    var messages: seq<Message>
    var inputValue: string
    var attachedFile: Option<ChatMachine.LocalFile>
    var showEmojiPicker: bool
    var typing: bool
    var isTyping: Option<string>
    var subscribed: bool
    var pendingTimers: seq<nat>
    var nextTimerId: nat
    var emitted: seq<Emission>

    /** The whole component state as a value. */
    function State(): ChatMachine.ChatState
      reads this
    {
      ChatMachine.ChatState(messages, inputValue, attachedFile, showEmojiPicker, typing, isTyping,
                            subscribed, pendingTimers, nextTimerId, emitted)
    }

    /** Initial state, then the mount effect joins the room and registers the handlers. */
    constructor ()
      ensures State() == ChatMachine.Mount()
    {
      messages := [];
      inputValue := "";
      attachedFile := None;
      showEmojiPicker := false;
      typing := false;
      isTyping := None;
      pendingTimers := [];
      nextTimerId := 0;
      emitted := [JoinRoom(ROOM_ID)];
      subscribed := true;
    }

    /** `handleNewMessage`. */
    method OnMessage(m: Message)
      modifies this
      ensures State() == ChatMachine.OnMessage(old(State()), m)
    {
      if subscribed {
        var messageExists := MessageStore.ContainsId(messages, m.id);
        if !messageExists {
          messages := messages + [m];
        }
      }
    }

    /** The `typing` handler. */
    method OnTyping(username: string)
      modifies this
      ensures State() == ChatMachine.OnTyping(old(State()), username)
    {
      if subscribed {
        isTyping := Some(ChatMachine.TypingLine(username));
      }
    }

    /** The `stop typing` handler. */
    method OnStopTyping()
      modifies this
      ensures State() == ChatMachine.OnStopTyping(old(State()))
    {
      if subscribed {
        isTyping := None;
      }
    }

    /** The mount effect's cleanup. */
    method Unmount()
      modifies this
      ensures State() == ChatMachine.Unmount(old(State()))
    {
      emitted := emitted + [LeaveRoom(ROOM_ID)];
      subscribed := false;
    }

    /** `handleTyping`; the timer it schedules is appended to the pending ones. */
    method HandleTyping()
      modifies this
      ensures State() == ChatMachine.HandleTyping(old(State()))
    {
      if !typing {
        typing := true;
        emitted := emitted + [Typing(ROOM_ID, LOCAL_SENDER)];
      }
      pendingTimers := pendingTimers + [nextTimerId];
      nextTimerId := nextTimerId + 1;
    }

    /** `handleInputChange`. */
    method InputChange(value: string)
      modifies this
      ensures State() == ChatMachine.InputChange(old(State()), value)
    {
      inputValue := value;
      HandleTyping();
    }

    /** The callback of the oldest pending timer. */
    method FireTimer()
      requires pendingTimers != []
      modifies this
      ensures State() == ChatMachine.FireTimer(old(State()))
    {
      pendingTimers := pendingTimers[1..];
      typing := false;
      emitted := emitted + [StopTyping(ROOM_ID)];
    }

    /** `handleEmojiClick`. */
    method EmojiClick(emoji: string)
      modifies this
      ensures State() == ChatMachine.EmojiClick(old(State()), emoji)
    {
      inputValue := inputValue + emoji;
      showEmojiPicker := false;
    }

    /** The smiley button's click handler. */
    method ToggleEmojiPicker()
      modifies this
      ensures State() == ChatMachine.ToggleEmojiPicker(old(State()))
    {
      showEmojiPicker := !showEmojiPicker;
    }

    /** `handleFileChange`. */
    method FileChange(files: seq<ChatMachine.LocalFile>)
      modifies this
      ensures State() == ChatMachine.FileChange(old(State()), files)
    {
      if |files| > 0 {
        attachedFile := Some(files[0]);
      }
    }

    /**
     * `sendMessage`, with `Date.now()`, the current ISO instant and the
     * attachment's object URL passed in. `sent` tells whether it went out.
     */
    method Send(now: int, timestamp: string, objectUrl: string) returns (sent: bool)
      modifies this
      ensures sent <==> !AllWhitespace(old(inputValue)) || old(attachedFile).Some?
      ensures State() == ChatMachine.Send(old(State()), now, timestamp, objectUrl)
    {
      ghost var s0 := State();
      ghost var composed := ChatMachine.Compose(inputValue, attachedFile, now, timestamp, objectUrl);
      var trimmedMessage := Trim(inputValue);
      if trimmedMessage == [] && attachedFile.None? {
        assert composed == None;
        return false;
      }
      var messageData := Message(
        now,
        if trimmedMessage == [] then None else Some(trimmedMessage),
        LOCAL_SENDER,
        if attachedFile.Some? then Some(objectUrl) else None,
        if attachedFile.Some? then Some(attachedFile.value.name) else None,
        Some(ROOM_ID),
        timestamp);
      assert composed == Some(messageData);
      emitted := emitted + [PostMessage(messageData)];
      messages := messages + [messageData];
      inputValue := "";
      attachedFile := None;
      emitted := emitted + [StopTyping(ROOM_ID)];
      sent := true;
      assert State() == s0.(messages := s0.messages + [messageData], input := "", attached := None,
                            emitted := s0.emitted + [PostMessage(messageData), StopTyping(ROOM_ID)]);
    }

    /** `handleKeyDown`; `sent` tells whether the key sent a message. */
    method KeyDown(key: string, shift: bool, now: int, timestamp: string, objectUrl: string)
      returns (sent: bool)
      modifies this
      ensures sent <==> key == "Enter" && !shift && (!AllWhitespace(old(inputValue)) || old(attachedFile).Some?)
      ensures State() == ChatMachine.KeyDown(old(State()), key, shift, now, timestamp, objectUrl)
    {
      sent := false;
      if key == "Enter" && !shift {
        sent := Send(now, timestamp, objectUrl);
      }
    }
  }
}
