# Chat page synchronisation core, in Dafny

This project models the chat page `app/page.tsx` of a Next.js chat client.
The page joins one fixed room (`test-room-id`) on a socket.io connection. It
shows the room's messages with date separators, sends text and file messages,
and keeps in its state which other participant is typing (that value is never
rendered). The model covers the page's state and its event handlers:

- **Message store** (`message_store.dfy`). The inbound `message` handler
  appends a message only when no stored message has the same `id`. The local
  send appends without that check (an optimistic insert). No event removes a
  stored message, so the server echo of a sent message is absorbed by the id
  check whenever it arrives.
- **Composer** (`chat_machine.dfy`, `Compose` and `Send`). It trims the
  input and refuses when both the text and the attachment are empty.
  Otherwise it builds the `Message`, emits `message`, appends it, clears the
  input and the attachment, and emits `stop typing`. Emoji clicks append to
  the input. Enter without Shift sends.
- **Presence**. The remote presence value held in state is
  `"<u> is typing..."` after `typing(u)` and nothing after `stop typing`, and
  the last event wins. Nothing displays it. Locally, every
  keystroke schedules a 2000 ms stop timer that is never cancelled. The
  `typing` event is emitted only while the local flag is down.
- **Date separators** (`grouping.dfy`). A separator is shown above the first
  message, and above any message whose day differs from the day of the
  message before it. The day of a timestamp is a function parameter `dayKey`.
- **File icons** (`file_icon.dfy`). The icon category comes from the
  lower-cased text after the last dot of the file name. A null, absent or
  empty name gets no icon.
- **Mount and teardown**. Mounting emits `join room`. Teardown emits
  `leave room` and removes the handlers, so later inbound events change
  nothing. Pending timers still expire after teardown; they emit `stop
  typing` but leave the messages and the presence value alone.

Layout:

- `text.dfy`: JavaScript `trim`, `toLowerCase` and `split('.').pop()`.
- `messages.dfy`: the `Message` record and the emissions.
- `chat_machine.dfy`: the page state `ChatState` and one pure transition per
  handler, plus `Event`/`Run` for sequences of events.
- `chat_properties.dfy`: the lemmas about those transitions.
- `chat_app.dfy`: the component as a class `ChatPage`. Its fields are the
  React state variables and its methods are the handlers. Each method is
  proved to perform its `ChatMachine` transition on the whole state.

The model follows the code where the component's intended design says otherwise:

- Typing is not debounced. The cleanup closure returned by `handleTyping` is
  dropped by `handleInputChange`, so n keystrokes give n `stop typing`
  emissions once their timers expire (`TypingRound`, `ThreeKeystrokesThreeStops`).
- Sending does not lower the local typing flag and does not disarm the pending
  timers. It emits `stop typing` whatever the flag is, and the keystroke's
  timer still emits another one later (`SendDoesNotDisarmTimer`).
- Teardown does not clear the pending timers. They still expire and emit
  `stop typing` on the module-level socket (`NoEventCancelsTimer`).
- Inbound messages are not checked for missing fields.
- The local send does not check ids. Two sends in the same millisecond store
  one id twice (`LocalAppendCanDuplicateId`).
- Messages stay in arrival order and are never sorted by timestamp.
- The remote presence value is set and cleared (app/page.tsx:77-83) but never
  shown: its only render site (app/page.tsx:203) is commented out.

## Model

| member | source | states |
|---|---|---|
| Text.Trim | app/page.tsx:117 | the trimmed input is empty exactly when the input is all whitespace; otherwise it neither starts nor ends with whitespace |
| Text.TrimIsInfix | app/page.tsx:117 | `trim` keeps a contiguous part of the input and removes only whitespace on each side of it |
| Text.TrimIdempotent | app/page.tsx:117 | trimming an already trimmed string changes nothing |
| Text.ToLower | app/page.tsx:28 | lower-casing keeps the length and maps every character on its own |
| Text.ToLowerIdempotent | app/page.tsx:28 | lower-casing an already lower-cased string changes nothing |
| Text.JoinSplit | app/page.tsx:28 | joining the pieces of `split('.')` with dots gives back the name |
| Text.SplitJoin | app/page.tsx:28 | splitting dot-free pieces joined with dots gives back the pieces |
| Text.ExtensionIsLastDotSuffix | app/page.tsx:28 | `split('.').pop()` is the dot-free suffix after the last dot, or the whole name when it has no dot; it is shorter than the name exactly when the name has a dot |
| Text.ExtensionToLower | app/page.tsx:28 | taking the extension commutes with lower-casing |
| FileIcon.GetFileIcon | app/page.tsx:26-50 | no icon exactly for a null, absent or empty name |
| FileIcon.CategoryOf | app/page.tsx:30-49 | the `default` branch is taken exactly for an extension the `switch` does not list |
| FileIcon.UnlistedIsOther | app/page.tsx:30-49 | the default icon is chosen exactly when the lower-cased extension is none of the listed ones |
| FileIcon.IconIgnoresCase | app/page.tsx:28 | names equal up to letter case get the same icon |
| FileIcon.IconUsesLastExtension | app/page.tsx:28 | only the text after the last dot decides the icon |
| FileIcon.ExampleMixedCase | app/page.tsx:33-37 | `photo.JPeG` gets the image icon |
| FileIcon.NoDotIsWholeName | app/page.tsx:28 | a name without a dot is classified by the whole lower-cased name |
| FileIcon.TrailingDotIsOther | app/page.tsx:28-48 | a name ending in a dot has an empty extension and gets the default icon |
| MessageStore.ContainsId | app/page.tsx:67 | `some` finds a stored message with the id exactly when one exists |
| MessageStore.Insert | app/page.tsx:66-71 | the list is unchanged exactly when the id is stored; otherwise the message is appended after the untouched old list; afterwards the id is stored |
| MessageStore.InsertIdempotent | app/page.tsx:66-71 | inserting the same message twice equals inserting it once |
| MessageStore.InsertDropsKnownId | app/page.tsx:67-69 | a later message with a stored id is dropped whatever its content |
| MessageStore.InsertKeepsUniqueIds | app/page.tsx:66-71 | the inbound insert never stores an id twice |
| MessageStore.EchoAbsorbed | app/page.tsx:65-72 | after the local append, the echo of the same message changes nothing |
| MessageStore.LocalAppendCanDuplicateId | app/page.tsx:124-135 | the local append stores an id twice when it is already stored |
| Grouping.DateFlags | app/page.tsx:195-199 | one flag per message; flag i is whether a separator shows above message i |
| Grouping.FlagsByDay | app/page.tsx:196-199 | the first message has a separator; a later one has one exactly when its day differs from the previous message's |
| Grouping.AppendKeepsFlags | app/page.tsx:195-199 | appending a message leaves the earlier messages' flags unchanged |
| Grouping.ThreeMessagesTwoDays | app/page.tsx:196-199 | days D1, D1, D2 give the flags true, false, true |
| ChatMachine.Compose | app/page.tsx:117-132 | refused exactly when the input is blank and nothing is attached; otherwise the record has id `now`, sender `user`, room `test-room-id`, the given timestamp, the trimmed text or null when it is blank, and `file` and `fileName` both set exactly when a file is attached; text or file is always present |
| ChatProperties.BlankSendChangesNothing | app/page.tsx:117-122 | a blank send with no attachment emits nothing and changes no state |
| ChatProperties.SendAppendsOnce | app/page.tsx:124-143 | an accepted send appends exactly the composed message after the untouched old list, clears input and attachment, emits `message` then `stop typing`, and keeps the typing flag, the timers, the presence value, the emoji picker and the subscription |
| ChatProperties.EchoOfSentMessageIsAbsorbed | app/page.tsx:134-135 | the echo of a sent message arriving right afterwards changes nothing |
| ChatProperties.StepKeepsMessages | app/page.tsx:65-71 | no event removes or rewrites a stored message; the list only grows at its end |
| ChatProperties.RunKeepsMessages | app/page.tsx:65-71 | over any run of events the old message list stays a prefix of the new one |
| ChatProperties.LaterEchoAbsorbed | app/page.tsx:65-71 | the echo of a sent message changes nothing whatever events came between the send and the echo |
| ChatProperties.SendAndEchoKeepIdsUnique | app/page.tsx:124-135 | with a fresh id, the send and any inbound message after it keep every id stored once |
| ChatProperties.KeyPressEffect | app/page.tsx:152-157 | any key other than Enter without Shift changes nothing; Enter without Shift with text or a file appends the composed message once, clears the input and the attachment, and emits `message` then `stop typing`; it keeps the typing flag, the timers, the presence value, the emoji picker and the subscription; with blank input and no file it changes nothing |
| ChatProperties.StepFrame | app/page.tsx:77-83 | only remote presence events change the presence value; on a mounted page `typing(u)` sets the presence value to `u is typing...` and `stop typing` clears it; only teardown unsubscribes |
| ChatProperties.PresenceLastEventWins | app/page.tsx:77-83 | on a mounted page, the presence value after any run of events is set by the last presence event of the run |
| ChatProperties.SecondTyperOverwrites | app/page.tsx:77-83 | a second typer's value replaces the first's; a stop after a typing event clears it |
| ChatProperties.TeardownIgnoresInbound | app/page.tsx:85-90 | after teardown, any run of inbound events leaves the whole state unchanged |
| ChatProperties.TornDownPageKeepsView | app/page.tsx:85-90 | after teardown, inbound events mixed with timer expiries keep the page unsubscribed and leave its messages and presence value unchanged |
| ChatProperties.NoEventCancelsTimer | app/page.tsx:103-108 | every event but a timer's own expiry keeps the pending timers as a prefix, teardown included |
| ChatProperties.StepKeepsTimersInOrder | app/page.tsx:103-106 | every event keeps the pending timers equal to the most recently scheduled ones, oldest first |
| ChatProperties.RunKeepsTimersInOrder | app/page.tsx:103-106 | after mounting, any run of events keeps the pending timers in scheduling order |
| ChatProperties.InputChangeArmsTimer | app/page.tsx:97-109 | a keystroke emits `typing` only when the flag was down, raises it, stores the value and adds one pending timer; messages, attachment, picker, presence value and subscription are kept |
| ChatProperties.KeystrokesArmTimers | app/page.tsx:97-109 | n keystrokes emit `typing` at most once and add n pending timers in order; the input ends as the last value; messages, attachment, picker, presence value and subscription are kept |
| ChatProperties.ExpiriesDrainTimers | app/page.tsx:103-106 | each expiry removes the oldest timer, lowers the flag and emits `stop typing`; nothing else changes |
| ChatProperties.TypingRound | app/page.tsx:97-109 | from no pending timers, n keystrokes and their n expiries emit `typing` at most once and `stop typing` n times |
| ChatProperties.ThreeKeystrokesThreeStops | app/page.tsx:97-109 | three keystrokes give one `typing` and three `stop typing` emissions |
| ChatProperties.SendDoesNotDisarmTimer | app/page.tsx:143 | a keystroke, a send and the timer's expiry emit `typing`, `message`, then `stop typing` twice |
| ChatApp.ChatPage.constructor | app/page.tsx:53-63 | the initial state plus the mount effect: no messages, `join room` emitted, handlers registered |
| ChatApp.ChatPage.OnMessage | app/page.tsx:65-72 | performs the inbound insert on the component state |
| ChatApp.ChatPage.OnTyping | app/page.tsx:77-79 | sets the presence value while subscribed |
| ChatApp.ChatPage.OnStopTyping | app/page.tsx:81-83 | clears the presence value while subscribed |
| ChatApp.ChatPage.Unmount | app/page.tsx:85-90 | emits `leave room` and unsubscribes, leaving the timers pending |
| ChatApp.ChatPage.HandleTyping | app/page.tsx:97-109 | emits `typing` when the flag is down and schedules one more timer |
| ChatApp.ChatPage.InputChange | app/page.tsx:159-161 | stores the new text, then runs `handleTyping` |
| ChatApp.ChatPage.FireTimer | app/page.tsx:103-106 | the oldest timer expires: flag down, `stop typing` emitted |
| ChatApp.ChatPage.EmojiClick | app/page.tsx:111-114 | appends the emoji to the input and closes the picker |
| ChatApp.ChatPage.ToggleEmojiPicker | app/page.tsx:246 | flips the picker |
| ChatApp.ChatPage.FileChange | app/page.tsx:146-150 | attaches the first picked file, if any |
| ChatApp.ChatPage.Send | app/page.tsx:116-144 | sends exactly when the input is not blank or a file is attached, and performs the composer's transition |
| ChatApp.ChatPage.KeyDown | app/page.tsx:152-157 | a message goes out exactly when the key is Enter without Shift and there is text or a file |

## Left out

- `components/Sidebar.tsx`: tab toggling and static markup, with no state the chat logic depends on.
- JSX layout, CSS classes, `scrollIntoView` (app/page.tsx:93-95), textarea height (app/page.tsx:139-141, 163-165), the message body and download link markup (app/page.tsx:202-222) and the `console.log` on a refused send.
- socket.io transport, reconnection and delivery: emissions are an appended log and inbound events are calls in any order.
- `Date.now()`, `DateTime.now().toISO()` and `URL.createObjectURL` are parameters of the send; a JavaScript number id is an unbounded `int`.
- Luxon date and time formatting (app/page.tsx:168-176): the day of a timestamp is the parameter `dayKey`; the time label is not modelled.
- Elapsed time: timers are pending entries that expire oldest first, since all share the same 2000 ms delay. A timer cannot expire when none is pending, so `Step` leaves the state alone for that event.
- React scheduling: each handler sees the state left by the previous event. React's silent drop of state updates after unmount is not modelled; `FireTimer` still lowers the flag then, which nothing can observe.
- React Strict Mode's second mount: the page is mounted once.
- Text.ToLower: maps only the ASCII letters, not the full Unicode case mapping. Icon categories are unaffected, because the only non-ASCII character that lower-cases to an ASCII letter is the Kelvin sign (to `k`), and no listed extension contains `k`.
- Text.IsWhitespace: the whitespace that `trim` removes is enumerated from the ECMAScript WhiteSpace and LineTerminator sets for the Unicode version current at the time of writing.
