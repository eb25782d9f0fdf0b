/**
 * The message list: inbound messages are appended only when no stored
 * message has the same id; the local send appends without looking.
 */
module MessageStore {
  import opened Messages

  /** `messages.some((msg) => msg.id === id)`, scanning from the front. */
  function ContainsId(ms: seq<Message>, id: int): (b: bool)
    ensures b <==> exists i :: 0 <= i < |ms| && ms[i].id == id
  {
    if ms == [] then false else ms[0].id == id || ContainsId(ms[1..], id)
  }

  /**
   * The update of the inbound `message` handler. The old list is always a
   * prefix of the new one; the message is appended exactly when its id is
   * new, and afterwards the list holds that id.
   */
  function Insert(ms: seq<Message>, m: Message): (r: seq<Message>)
    ensures r == ms <==> exists i :: 0 <= i < |ms| && ms[i].id == m.id
    ensures r != ms ==> r == ms + [m]
    ensures exists i :: 0 <= i < |r| && r[i].id == m.id
  {
    if ContainsId(ms, m.id) then ms
    else
      assert (ms + [m])[|ms|] == m;
      ms + [m]
  }

  /** No two stored messages share an id. */
  predicate UniqueIds(ms: seq<Message>) {
    forall i, j :: 0 <= i < j < |ms| ==> ms[i].id != ms[j].id
  }

  lemma InsertIdempotent(ms: seq<Message>, m: Message)
    ensures Insert(Insert(ms, m), m) == Insert(ms, m)
  {
  }

  /** A second delivery of a message with a stored id, whatever its content, is dropped. */
  lemma InsertDropsKnownId(ms: seq<Message>, m: Message, m': Message)
    requires m'.id == m.id
    ensures Insert(Insert(ms, m), m') == Insert(ms, m)
  {
  }

  lemma InsertKeepsUniqueIds(ms: seq<Message>, m: Message)
    requires UniqueIds(ms)
    ensures UniqueIds(Insert(ms, m))
  {
  }

  /** The server echo of a locally appended message is absorbed by the id check. */
  lemma EchoAbsorbed(ms: seq<Message>, m: Message)
    ensures Insert(ms + [m], m) == ms + [m]
  {
    assert (ms + [m])[|ms|].id == m.id;
  }

  /**
   * The local append does not check ids: when a stored message already has
   * the new message's id (two sends in the same millisecond), the list ends
   * up holding that id twice.
   */
  lemma LocalAppendCanDuplicateId(ms: seq<Message>, m: Message)
    requires ContainsId(ms, m.id)
    ensures !UniqueIds(ms + [m])
  {
    var i :| 0 <= i < |ms| && ms[i].id == m.id;
    assert (ms + [m])[i].id == (ms + [m])[|ms|].id;
  }
}
