/**
 * Date separators of the message list. The calendar day of a timestamp is
 * an arbitrary function `dayKey` (the locale date label of the timestamp).
 */
module Grouping {
  import opened Messages

  /** Whether a date separator is rendered above message `i`. */
  function ShowDate(ms: seq<Message>, i: nat, dayKey: string -> string): bool
    requires i < |ms|
  {
    i == 0 || dayKey(ms[i].timestamp) != dayKey(ms[i - 1].timestamp)
  }

  /** The separator flags of the whole list, one per message. */
  function DateFlags(ms: seq<Message>, dayKey: string -> string): (flags: seq<bool>)
    ensures |flags| == |ms|
    ensures forall i :: 0 <= i < |ms| ==> flags[i] == ShowDate(ms, i, dayKey)
  {
    if ms == [] then []
    else
      var init := ms[..|ms| - 1];
      assert forall i :: 0 <= i < |init| ==> ShowDate(init, i, dayKey) == ShowDate(ms, i, dayKey);
      DateFlags(init, dayKey) + [ShowDate(ms, |ms| - 1, dayKey)]
  }

  /** The first message always has a separator; any later one exactly when its day differs from its predecessor's. */
  lemma {:induction false} FlagsByDay(ms: seq<Message>, dayKey: string -> string)
    requires ms != []
    ensures DateFlags(ms, dayKey)[0]
    ensures forall i :: 0 < i < |ms| ==>
      (DateFlags(ms, dayKey)[i] <==> dayKey(ms[i].timestamp) != dayKey(ms[i - 1].timestamp))
  {
  }

  /** Appending a message leaves the flags of the earlier messages as they were. */
  lemma AppendKeepsFlags(ms: seq<Message>, m: Message, dayKey: string -> string)
    ensures DateFlags(ms + [m], dayKey)[..|ms|] == DateFlags(ms, dayKey)
  {
    var ms' := ms + [m];
    assert forall i :: 0 <= i < |ms| ==> ShowDate(ms', i, dayKey) == ShowDate(ms, i, dayKey);
  }

  /** Three messages on days D1, D1, D2: separators above the first and the third only. */
  lemma ThreeMessagesTwoDays(a: Message, b: Message, c: Message, dayKey: string -> string)
    requires dayKey(a.timestamp) == dayKey(b.timestamp) != dayKey(c.timestamp)
    ensures DateFlags([a, b, c], dayKey) == [true, false, true]
  {
  }
}
