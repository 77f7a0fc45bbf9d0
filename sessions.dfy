/** Saved conversations: the title a transcript is saved under, and the insert-or-replace of a session. */
module Sessions {

  import opened Types
  import opened Text
  import opened Seqs

  const NewChatTitle: string := "New Chat"
  const TitleLength: nat := 30

  predicate IsUserMessage(m: Message)
  {
    m.role == User
  }

  /**
   * The first user message's content cut to 30 characters, or "New Chat" when there is no user
   * message or its content is empty.
   */
  function SessionTitle(ms: seq<Message>): (t: string)
    ensures t != ""
    ensures |t| <= TitleLength
    ensures t == NewChatTitle <==> (forall i :: 0 <= i < |ms| ==> ms[i].role != User) || ms[FirstIndex(ms, IsUserMessage)].content == "" || ms[FirstIndex(ms, IsUserMessage)].content == NewChatTitle
    ensures t != NewChatTitle ==> var first := ms[FirstIndex(ms, IsUserMessage)].content;
      first != "" && |t| == (if |first| < TitleLength then |first| else TitleLength) && t == first[..|t|]
  {
    match Find(ms, IsUserMessage)
    case None => NewChatTitle
    case Some(m) =>
      var cut := SliceTo(m.content, TitleLength);
      if cut == "" then NewChatTitle else cut
  }

  /** Once a transcript has a user message, later messages never change its title. */
  lemma SessionTitleStable(ms: seq<Message>, later: seq<Message>)
    requires exists i :: 0 <= i < |ms| && ms[i].role == User
    ensures SessionTitle(ms + later) == SessionTitle(ms)
  {
    FirstIndexAppend(ms, later, IsUserMessage);
    var k := FirstIndex(ms, IsUserMessage);
    assert (ms + later)[k] == ms[k];
  }

  /** A transcript holding only the greeting is titled "New Chat". */
  lemma GreetingOnlyTitle(welcome: Message)
    requires welcome.role == Model
    ensures SessionTitle([welcome]) == NewChatTitle
  {
  }

  predicate DistinctIds(ss: seq<ChatSession>)
  {
    forall i, j :: 0 <= i < j < |ss| ==> ss[i].id != ss[j].id
  }

  /** The position of the session with this id, or -1. */
  function SessionIndex(ss: seq<ChatSession>, id: string): int
  {
    FindIndex(ss, (s: ChatSession) => s.id == id)
  }

  /**
   * The list after saving `s`: the entry carrying the same id is overwritten in place, or, when the
   * id is new, `s` goes in front of all the others.
   */
  function Upserted(prev: seq<ChatSession>, s: ChatSession): seq<ChatSession>
  {
    var k := SessionIndex(prev, s.id);
    if k >= 0 then prev[k := s] else [s] + prev
  }

  /**
   * A known id keeps its position and the length is unchanged; a new id lands at the front and
   * shifts every other session by one; ids stay distinct either way.
   */
  lemma UpsertedPositions(prev: seq<ChatSession>, s: ChatSession)
    ensures s in Upserted(prev, s)
    ensures SessionIndex(prev, s.id) >= 0 ==>
      var k := SessionIndex(prev, s.id);
      |Upserted(prev, s)| == |prev| && Upserted(prev, s)[k] == s &&
      forall j :: 0 <= j < |prev| && j != k ==> Upserted(prev, s)[j] == prev[j]
    ensures SessionIndex(prev, s.id) == -1 ==>
      |Upserted(prev, s)| == |prev| + 1 && Upserted(prev, s)[0] == s &&
      forall j :: 0 <= j < |prev| ==> Upserted(prev, s)[j + 1] == prev[j]
    ensures DistinctIds(prev) ==> DistinctIds(Upserted(prev, s))
  {
    var k := SessionIndex(prev, s.id);
    var r := Upserted(prev, s);
    if k >= 0 {
      assert r[k] == s;
    } else {
      assert r[0] == s;
    }
  }

  /** Saving the same session twice leaves the list as saving it once. */
  lemma UpsertedTwice(prev: seq<ChatSession>, s: ChatSession, t: ChatSession)
    requires t.id == s.id
    ensures Upserted(Upserted(prev, s), t) == Upserted(prev, t)
  {
    var k := SessionIndex(prev, s.id);
    var r := Upserted(prev, s);
    var sameId := (x: ChatSession) => x.id == t.id;
    if k >= 0 {
      assert r == prev[k := s];
      FindIndexAt(r, sameId, k);
      assert r[k := t] == prev[k := t];
    } else {
      assert r == [s] + prev;
      FindIndexAt(r, sameId, 0);
      assert r[0 := t] == [t] + prev;
    }
  }

  /** Copies the list into a fresh array, overwrites the entry with the same id, or prepends a new one. */
  method UpsertSession(prev: seq<ChatSession>, s: ChatSession) returns (updated: seq<ChatSession>)
    ensures updated == Upserted(prev, s)
  {
    var existingIndex := SessionIndex(prev, s.id);
    if existingIndex >= 0 {
      var copy := new ChatSession[|prev|](i requires 0 <= i < |prev| => prev[i]);
      copy[existingIndex] := s;
      updated := copy[..];
    } else {
      updated := [s] + prev;
    }
  }
}
