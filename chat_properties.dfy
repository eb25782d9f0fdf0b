/** What the chat page's handlers promise, over single events and over runs of events. */
module ChatProperties {
  import opened Wrappers
  import opened Text
  import opened Messages
  import opened ChatMachine
  import MessageStore

  // ---------------------------------------------------------------- composer

  /** A send with blank input and no attachment emits nothing and changes nothing. */
  lemma BlankSendChangesNothing(s: ChatState, now: int, timestamp: string, objectUrl: string)
    requires AllWhitespace(s.input) && s.attached.None?
    ensures Send(s, now, timestamp, objectUrl) == s
  {
  }

  /**
   * An accepted send appends exactly one message, the composed one, at the
   * end; clears the input and the attachment; emits `message` then `stop
   * typing`; and leaves the typing flag, the pending timers, the presence
   * value and the subscription as they were.
   */
  lemma SendAppendsOnce(s: ChatState, now: int, timestamp: string, objectUrl: string)
    requires !AllWhitespace(s.input) || s.attached.Some?
    ensures var r, n := Send(s, now, timestamp, objectUrl), |s.messages|;
      var m := Compose(s.input, s.attached, now, timestamp, objectUrl).value;
      |r.messages| == n + 1 && r.messages[..n] == s.messages && r.messages[n] == m
      && r.input == "" && r.attached == None
      && r.emitted == s.emitted + [PostMessage(m), StopTyping(ROOM_ID)]
      && r.typing == s.typing && r.pending == s.pending && r.nextTimer == s.nextTimer
      && r.isTyping == s.isTyping && r.subscribed == s.subscribed && r.emojiPickerOpen == s.emojiPickerOpen
  {
    var m := Compose(s.input, s.attached, now, timestamp, objectUrl).value;
    assert (s.messages + [m])[..|s.messages|] == s.messages;
  }

  /** The server echo of a sent message, delivered afterwards, leaves the state as it was. */
  lemma EchoOfSentMessageIsAbsorbed(s: ChatState, now: int, timestamp: string, objectUrl: string)
    requires !AllWhitespace(s.input) || s.attached.Some?
    ensures var r := Send(s, now, timestamp, objectUrl);
      OnMessage(r, Compose(s.input, s.attached, now, timestamp, objectUrl).value) == r
  {
    var m := Compose(s.input, s.attached, now, timestamp, objectUrl).value;
    MessageStore.EchoAbsorbed(s.messages, m);
  }

  /** No event removes or rewrites a stored message: the list only grows at its end. */
  lemma StepKeepsMessages(s: ChatState, e: Event)
    ensures s.messages <= Step(s, e).messages
  {
  }

  lemma {:induction false} RunKeepsMessages(s: ChatState, evs: seq<Event>)
    ensures s.messages <= Run(s, evs).messages
    decreases |evs|
  {
    if evs != [] {
      StepKeepsMessages(s, evs[0]);
      RunKeepsMessages(Step(s, evs[0]), evs[1..]);
    }
  }

  /**
   * The server echo of a sent message is absorbed whatever happened in
   * between: keystrokes, timer expiries, other inbound messages or teardown.
   */
  lemma LaterEchoAbsorbed(s: ChatState, now: int, timestamp: string, objectUrl: string, evs: seq<Event>)
    requires !AllWhitespace(s.input) || s.attached.Some?
    ensures var r := Run(Send(s, now, timestamp, objectUrl), evs);
      OnMessage(r, Compose(s.input, s.attached, now, timestamp, objectUrl).value) == r
  {
    var s1 := Send(s, now, timestamp, objectUrl);
    var m := Compose(s.input, s.attached, now, timestamp, objectUrl).value;
    assert s1.messages[|s.messages|] == m;
    RunKeepsMessages(s1, evs);
  }

  /** With a fresh `Date.now()` id, sending and then receiving the echo keeps every id stored once. */
  lemma SendAndEchoKeepIdsUnique(s: ChatState, now: int, timestamp: string, objectUrl: string)
    requires MessageStore.UniqueIds(s.messages) && !MessageStore.ContainsId(s.messages, now)
    ensures var r := Send(s, now, timestamp, objectUrl);
      MessageStore.UniqueIds(r.messages)
      && forall m :: MessageStore.UniqueIds(OnMessage(r, m).messages)
  {
    var r := Send(s, now, timestamp, objectUrl);
    var c := Compose(s.input, s.attached, now, timestamp, objectUrl);
    if c.Some? {
      var ms := s.messages;
      assert r.messages == ms + [c.value];
      forall i, j | 0 <= i < j < |r.messages| ensures r.messages[i].id != r.messages[j].id {
        if j == |ms| {
          assert r.messages[i] == ms[i];
        } else {
          assert r.messages[i] == ms[i] && r.messages[j] == ms[j];
        }
      }
    }
    forall m ensures MessageStore.UniqueIds(OnMessage(r, m).messages) {
      MessageStore.InsertKeepsUniqueIds(r.messages, m);
    }
  }

  /**
   * A key press: any key but Enter without Shift leaves the page alone;
   * Enter without Shift sends when there is text or a file, appending the
   * composed message once, clearing the composer and emitting `message` then
   * `stop typing`; and with blank input and no file it changes nothing.
   */
  lemma KeyPressEffect(s: ChatState, key: string, shift: bool, now: int, timestamp: string, objectUrl: string)
    ensures !(key == "Enter" && !shift) ==> KeyDown(s, key, shift, now, timestamp, objectUrl) == s
    ensures key == "Enter" && !shift && (!AllWhitespace(s.input) || s.attached.Some?) ==>
      var r, n := KeyDown(s, key, shift, now, timestamp, objectUrl), |s.messages|;
      var m := Compose(s.input, s.attached, now, timestamp, objectUrl).value;
      |r.messages| == n + 1 && r.messages[..n] == s.messages && r.messages[n] == m
      && r.input == "" && r.attached == None
      && r.emitted == s.emitted + [PostMessage(m), StopTyping(ROOM_ID)]
      && r.typing == s.typing && r.pending == s.pending && r.nextTimer == s.nextTimer
      && r.isTyping == s.isTyping && r.subscribed == s.subscribed && r.emojiPickerOpen == s.emojiPickerOpen
    ensures key == "Enter" && !shift && AllWhitespace(s.input) && s.attached.None? ==>
      KeyDown(s, key, shift, now, timestamp, objectUrl) == s
  {
    if key == "Enter" && !shift {
      if !AllWhitespace(s.input) || s.attached.Some? {
        SendAppendsOnce(s, now, timestamp, objectUrl);
      } else {
        BlankSendChangesNothing(s, now, timestamp, objectUrl);
      }
    }
  }

  // ---------------------------------------------------------------- remote presence

  predicate IsPresence(e: Event) {
    e.RemoteTyping? || e.RemoteStopTyping?
  }

  /** The presence value a remote presence event leaves on a subscribed page. */
  function Shown(e: Event): Option<string>
    requires IsPresence(e)
  {
    if e.RemoteTyping? then Some(TypingLine(e.username)) else None
  }

  lemma StepFrame(s: ChatState, e: Event)
    ensures !e.Teardown? ==> Step(s, e).subscribed == s.subscribed
    ensures !IsPresence(e) ==> Step(s, e).isTyping == s.isTyping
    ensures IsPresence(e) && s.subscribed ==> Step(s, e).isTyping == Shown(e)
  {
  }

  lemma {:induction false} NoPresenceKeepsLine(s: ChatState, evs: seq<Event>)
    requires forall i :: 0 <= i < |evs| ==> !IsPresence(evs[i])
    ensures Run(s, evs).isTyping == s.isTyping
    decreases |evs|
  {
    if evs != [] {
      StepFrame(s, evs[0]);
      NoPresenceKeepsLine(Step(s, evs[0]), evs[1..]);
    }
  }

  /**
   * On a page that stays mounted, the presence value after any run of
   * events is the one set by the last remote presence event of the run,
   * whatever came before it.
   */
  lemma {:induction false} PresenceLastEventWins(s: ChatState, evs: seq<Event>, k: nat)
    requires s.subscribed
    requires forall i :: 0 <= i < |evs| ==> !evs[i].Teardown?
    requires k < |evs| && IsPresence(evs[k])
    requires forall i :: k < i < |evs| ==> !IsPresence(evs[i])
    ensures Run(s, evs).isTyping == Shown(evs[k])
    decreases |evs|
  {
    StepFrame(s, evs[0]);
    if k == 0 {
      NoPresenceKeepsLine(Step(s, evs[0]), evs[1..]);
    } else {
      PresenceLastEventWins(Step(s, evs[0]), evs[1..], k - 1);
    }
  }

  /** Two typers: the second one's value replaces the first one's. */
  lemma SecondTyperOverwrites(s: ChatState, u1: string, u2: string)
    requires s.subscribed
    ensures Run(s, [RemoteTyping(u1), RemoteTyping(u2)]).isTyping == Some(TypingLine(u2))
    ensures Run(s, [RemoteTyping(u1), RemoteStopTyping]).isTyping == None
  {
    PresenceLastEventWins(s, [RemoteTyping(u1), RemoteTyping(u2)], 1);
    PresenceLastEventWins(s, [RemoteTyping(u1), RemoteStopTyping], 1);
  }

  // ---------------------------------------------------------------- teardown

  predicate IsInbound(e: Event) {
    e.Inbound? || IsPresence(e)
  }

  /** After the cleanup has run, inbound socket events change nothing at all. */
  lemma {:induction false} TeardownIgnoresInbound(s: ChatState, evs: seq<Event>)
    requires forall i :: 0 <= i < |evs| ==> IsInbound(evs[i])
    ensures Run(Unmount(s), evs) == Unmount(s)
    decreases |evs|
  {
    if evs != [] {
      assert Step(Unmount(s), evs[0]) == Unmount(s);
      TeardownIgnoresInbound(s, evs[1..]);
    }
  }

  /**
   * After teardown, inbound events and the timers still pending leave the
   * subscription, the messages and the presence value as they were.
   */
  lemma {:induction false} TornDownPageKeepsView(s: ChatState, evs: seq<Event>)
    requires !s.subscribed
    requires forall i :: 0 <= i < |evs| ==> IsInbound(evs[i]) || evs[i].TimerExpires?
    ensures var r := Run(s, evs);
      !r.subscribed && r.messages == s.messages && r.isTyping == s.isTyping
    decreases |evs|
  {
    if evs != [] {
      var s' := Step(s, evs[0]);
      assert !s'.subscribed && s'.messages == s.messages && s'.isTyping == s.isTyping;
      TornDownPageKeepsView(s', evs[1..]);
    }
  }

  // ---------------------------------------------------------------- local typing timers

  /** No event but a timer's own expiry removes or reorders a pending timer; teardown does not clear them. */
  lemma NoEventCancelsTimer(s: ChatState, e: Event)
    requires !e.TimerExpires?
    ensures s.pending <= Step(s, e).pending
  {
  }

  /** The pending timers are the most recently scheduled ones, oldest first. */
  predicate TimersInOrder(s: ChatState) {
    |s.pending| <= s.nextTimer
    && forall k :: 0 <= k < |s.pending| ==> s.pending[k] == s.nextTimer - |s.pending| + k
  }

  lemma {:induction false} StepKeepsTimersInOrder(s: ChatState, e: Event)
    requires TimersInOrder(s)
    ensures TimersInOrder(Step(s, e))
  {
    var r := Step(s, e);
    if e.Input? {
      assert forall k :: 0 <= k < |s.pending| ==> r.pending[k] == s.pending[k];
    }
  }

  lemma {:induction false} RunKeepsTimersInOrder(evs: seq<Event>)
    ensures TimersInOrder(Run(Mount(), evs))
  {
    RunFromKeepsTimersInOrder(Mount(), evs);
  }

  lemma {:induction false} RunFromKeepsTimersInOrder(s: ChatState, evs: seq<Event>)
    requires TimersInOrder(s)
    ensures TimersInOrder(Run(s, evs))
    decreases |evs|
  {
    if evs != [] {
      StepKeepsTimersInOrder(s, evs[0]);
      RunFromKeepsTimersInOrder(Step(s, evs[0]), evs[1..]);
    }
  }

  /** One keystroke per value. */
  function Keystrokes(vs: seq<string>): (evs: seq<Event>)
    ensures |evs| == |vs|
  {
    if vs == [] then [] else [Input(vs[0])] + Keystrokes(vs[1..])
  }

  /** `n` timer expiries. */
  function Expiries(n: nat): (evs: seq<Event>)
    ensures |evs| == n
  {
    if n == 0 then [] else [TimerExpires] + Expiries(n - 1)
  }

  /** `n` `stop typing` emissions. */
  function Stops(n: nat): (es: seq<Emission>)
    ensures |es| == n && forall i :: 0 <= i < n ==> es[i] == StopTyping(ROOM_ID)
  {
    if n == 0 then [] else [StopTyping(ROOM_ID)] + Stops(n - 1)
  }

  /** The timer ids `a`, `a + 1`, ..., `a + n - 1`. */
  function Tickets(a: nat, n: nat): (ts: seq<nat>)
    ensures |ts| == n && forall i :: 0 <= i < n ==> ts[i] == a + i
    decreases n
  {
    if n == 0 then [] else [a] + Tickets(a + 1, n - 1)
  }

  /** One keystroke: announce typing if the flag was down, and schedule one more stop timer. */
  lemma InputChangeArmsTimer(s: ChatState, v: string)
    ensures var r := InputChange(s, v);
      r.pending == s.pending + [s.nextTimer] && r.nextTimer == s.nextTimer + 1
      && r.typing && r.input == v
      && r.emitted == s.emitted + (if s.typing then [] else [Typing(ROOM_ID, LOCAL_SENDER)])
      && r.messages == s.messages && r.isTyping == s.isTyping
      && r.attached == s.attached && r.emojiPickerOpen == s.emojiPickerOpen && r.subscribed == s.subscribed
  {
  }

  /**
   * Keystrokes announce typing at most once (only when the flag was down)
   * and each schedules one more stop timer.
   */
  lemma {:induction false} KeystrokesArmTimers(s: ChatState, vs: seq<string>)
    ensures var r := Run(s, Keystrokes(vs));
      r.pending == s.pending + Tickets(s.nextTimer, |vs|)
      && r.nextTimer == s.nextTimer + |vs|
      && r.typing == (s.typing || vs != [])
      && r.emitted == s.emitted + (if s.typing || vs == [] then [] else [Typing(ROOM_ID, LOCAL_SENDER)])
      && (vs != [] ==> r.input == vs[|vs| - 1])
      && r.messages == s.messages && r.isTyping == s.isTyping
      && r.attached == s.attached && r.emojiPickerOpen == s.emojiPickerOpen && r.subscribed == s.subscribed
    decreases |vs|
  {
    if vs == [] {
      assert s.pending + Tickets(s.nextTimer, 0) == s.pending;
    } else {
      var s' := InputChange(s, vs[0]);
      InputChangeArmsTimer(s, vs[0]);
      RunCons(s, Input(vs[0]), Keystrokes(vs[1..]));
      KeystrokesArmTimers(s', vs[1..]);
      TicketsCons(s.pending, s.nextTimer, |vs|);
      if |vs| > 1 {
        assert vs[1..][|vs| - 2] == vs[|vs| - 1];
      }
    }
  }

  lemma RunCons(s: ChatState, e: Event, rest: seq<Event>)
    ensures Run(s, [e] + rest) == Run(Step(s, e), rest)
  {
    assert ([e] + rest)[0] == e && ([e] + rest)[1..] == rest;
  }

  lemma TicketsCons(p: seq<nat>, a: nat, n: nat)
    requires n > 0
    ensures p + Tickets(a, n) == (p + [a]) + Tickets(a + 1, n - 1)
  {
  }

  /** Each expiry emits `stop typing` and removes the oldest pending timer. */
  lemma {:induction false} ExpiriesDrainTimers(s: ChatState, n: nat)
    requires n <= |s.pending|
    ensures var r := Run(s, Expiries(n));
      r.pending == s.pending[n..]
      && r.emitted == s.emitted + Stops(n)
      && r.typing == (n == 0 && s.typing)
      && r.messages == s.messages && r.isTyping == s.isTyping
      && r.input == s.input && r.nextTimer == s.nextTimer
      && r.attached == s.attached && r.emojiPickerOpen == s.emojiPickerOpen && r.subscribed == s.subscribed
    decreases n
  {
    if n > 0 {
      var s' := FireTimer(s);
      assert Expiries(n)[1..] == Expiries(n - 1);
      ExpiriesDrainTimers(s', n - 1);
      assert s'.pending[n - 1..] == s.pending[n..];
      assert s.emitted + Stops(n) == (s.emitted + [StopTyping(ROOM_ID)]) + Stops(n - 1);
    }
  }

  /**
   * From no pending timers, `n >= 1` keystrokes followed by the expiry of
   * every timer they scheduled emit `typing` at most once but `stop
   * typing` `n` times, and leave the flag down with nothing pending.
   */
  lemma TypingRound(s: ChatState, vs: seq<string>)
    requires s.pending == [] && vs != []
    ensures var r := Run(s, Keystrokes(vs) + Expiries(|vs|));
      r.emitted == s.emitted + (if s.typing then [] else [Typing(ROOM_ID, LOCAL_SENDER)]) + Stops(|vs|)
      && r.pending == [] && !r.typing
  {
    RunAppend(s, Keystrokes(vs), Expiries(|vs|));
    KeystrokesArmTimers(s, vs);
    ExpiriesDrainTimers(Run(s, Keystrokes(vs)), |vs|);
  }

  /** Three keystrokes whose timers all expire: one `typing`, three `stop typing`. */
  lemma ThreeKeystrokesThreeStops(s: ChatState, v1: string, v2: string, v3: string)
    requires s.pending == [] && !s.typing
    ensures Run(s, [Input(v1), Input(v2), Input(v3), TimerExpires, TimerExpires, TimerExpires]).emitted
      == s.emitted + [Typing(ROOM_ID, LOCAL_SENDER), StopTyping(ROOM_ID), StopTyping(ROOM_ID), StopTyping(ROOM_ID)]
  {
    var vs := [v1, v2, v3];
    TypingRound(s, vs);
    assert vs[1..] == [v2, v3] && [v2, v3][1..] == [v3] && [v3][1..] == [];
    assert Keystrokes([v3]) == [Input(v3)];
    assert Keystrokes([v2, v3]) == [Input(v2)] + Keystrokes([v3]);
    assert Keystrokes(vs) == [Input(v1)] + Keystrokes([v2, v3]);
    assert Expiries(3) == [TimerExpires, TimerExpires, TimerExpires];
    assert Keystrokes(vs) + Expiries(3)
      == [Input(v1), Input(v2), Input(v3), TimerExpires, TimerExpires, TimerExpires];
    assert Stops(3) == [StopTyping(ROOM_ID), StopTyping(ROOM_ID), StopTyping(ROOM_ID)];
  }

  /**
   * Typing then sending emits `stop typing` twice: once from the send,
   * once more when the timer armed by the keystroke expires.
   */
  lemma SendDoesNotDisarmTimer(s: ChatState, v: string, now: int, timestamp: string, objectUrl: string, m: Message)
    requires s.pending == [] && !s.typing && s.attached.None?
    requires Compose(v, None, now, timestamp, objectUrl) == Some(m)
    ensures Run(s, [Input(v), SendClick(now, timestamp, objectUrl), TimerExpires]).emitted
      == s.emitted + [Typing(ROOM_ID, LOCAL_SENDER), PostMessage(m), StopTyping(ROOM_ID), StopTyping(ROOM_ID)]
  {
    var s1 := InputChange(s, v);
    InputChangeArmsTimer(s, v);
    var s2 := Send(s1, now, timestamp, objectUrl);
    SendAppendsOnce(s1, now, timestamp, objectUrl);
    RunThree(s, Input(v), SendClick(now, timestamp, objectUrl), TimerExpires);
  }

  lemma RunThree(s: ChatState, a: Event, b: Event, c: Event)
    ensures Run(s, [a, b, c]) == Step(Step(Step(s, a), b), c)
  {
    assert [a, b, c][1..] == [b, c] && [b, c][1..] == [c] && [c][1..] == [];
    var s1 := Step(s, a);
    var s2 := Step(s1, b);
    assert Run(s, [a, b, c]) == Run(s1, [b, c]);
    assert Run(s1, [b, c]) == Run(s2, [c]);
    assert Run(s2, [c]) == Run(Step(s2, c), []);
  }
}
