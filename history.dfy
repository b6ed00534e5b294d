/**
 * The per-chat conversation history as a value: a list of role/content
 * entries kept to at most `bound` entries, oldest evicted first.
 */
module History {

  datatype Role = System | User | Assistant

  /** One `{"role": ..., "content": ...}` message. */
  datatype Entry = Entry(role: Role, content: string)

  /** `h[-n:]` for `n > 0`, and `h` itself when it is no longer than `n`: the last `n` entries. */
  function Keep(h: seq<Entry>, n: nat): (r: seq<Entry>)
    ensures |r| == if |h| <= n then |h| else n
    ensures r == h[|h| - |r|..]
  {
    if |h| <= n then h else h[|h| - n..]
  }

  /** Every history of a table respects the bound and holds no empty content. */
  predicate WellFormed(h: seq<Entry>, bound: nat) {
    |h| <= bound && forall k :: 0 <= k < |h| ==> h[k].content != []
  }

  /**
   * The history after `append_chat_history_entry`: unchanged when the bound
   * is 0 or the content is empty; otherwise the entry is appended and the
   * oldest entries beyond the bound are dropped.
   */
  function Appended(h: seq<Entry>, e: Entry, bound: nat): seq<Entry> {
    if bound == 0 || e.content == [] then h
    else Keep(h + [e], bound)
  }

  /** The history after `record_conversation_turn`: the user entry, then the assistant entry. */
  function Turn(h: seq<Entry>, userText: string, botText: string, bound: nat): seq<Entry> {
    if bound == 0 then h
    else Appended(Appended(h, Entry(User, userText), bound), Entry(Assistant, botText), bound)
  }

  /** What `get_chat_history_messages` hands out: nothing when the bound is 0, else the last `bound` entries. */
  function Recent(h: seq<Entry>, bound: nat): (r: seq<Entry>)
    ensures |r| <= bound && |r| <= |h|
    ensures bound == 0 ==> r == []
    ensures r == h[|h| - |r|..]
    ensures bound > 0 && |h| <= bound ==> r == h
  {
    if bound == 0 then [] else Keep(h, bound)
  }

  /**
   * Appending is FIFO eviction: the new entry is last, the bound holds, and
   * what comes before it is the newest `bound - 1` entries of the old history.
   */
  lemma {:induction false} AppendedFifo(h: seq<Entry>, e: Entry, bound: nat)
    requires WellFormed(h, bound) && bound > 0 && e.content != []
    ensures var r := Appended(h, e, bound);
      && WellFormed(r, bound)
      && r[|r| - 1] == e
      && r == Keep(h, bound - 1) + [e]
  {
    var r := Appended(h, e, bound);
    if |h| == bound {
      assert r == (h + [e])[1..];
      assert (h + [e])[1..] == h[1..] + [e];
    }
  }

  /** Appending never breaks the bound, whatever the entry. */
  lemma AppendedWellFormed(h: seq<Entry>, e: Entry, bound: nat)
    requires WellFormed(h, bound)
    ensures WellFormed(Appended(h, e, bound), bound)
  {
    if bound > 0 && e.content != [] {
      AppendedFifo(h, e, bound);
    }
  }

  /**
   * A turn with both sides present and room for two entries ends with the
   * user entry followed by the assistant entry; empty sides are skipped.
   */
  lemma TurnOrder(h: seq<Entry>, userText: string, botText: string, bound: nat)
    requires WellFormed(h, bound)
    ensures WellFormed(Turn(h, userText, botText, bound), bound)
    ensures var r := Turn(h, userText, botText, bound);
      && (userText != [] && botText != [] && bound >= 2 ==>
            |r| >= 2 && r[|r| - 2] == Entry(User, userText) && r[|r| - 1] == Entry(Assistant, botText))
      && (userText == [] ==> r == Appended(h, Entry(Assistant, botText), bound))
      && (botText == [] ==> r == Appended(h, Entry(User, userText), bound))
  {
    if bound > 0 {
      var h1 := Appended(h, Entry(User, userText), bound);
      AppendedWellFormed(h, Entry(User, userText), bound);
      AppendedWellFormed(h1, Entry(Assistant, botText), bound);
      if userText != [] && botText != [] && bound >= 2 {
        TurnEnds(h, userText, botText, bound);
      }
    }
  }

  /** `TurnOrder` when both sides are present and the bound leaves room for both. */
  lemma TurnEnds(h: seq<Entry>, userText: string, botText: string, bound: nat)
    requires WellFormed(h, bound) && userText != [] && botText != [] && bound >= 2
    ensures var r := Turn(h, userText, botText, bound);
      |r| >= 2 && r[|r| - 2] == Entry(User, userText) && r[|r| - 1] == Entry(Assistant, botText)
  {
    var h1 := Appended(h, Entry(User, userText), bound);
    AppendedFifo(h, Entry(User, userText), bound);
    AppendedFifo(h1, Entry(Assistant, botText), bound);
    var r := Appended(h1, Entry(Assistant, botText), bound);
    assert Turn(h, userText, botText, bound) == r;
    var k := Keep(h1, bound - 1);
    assert r == k + [Entry(Assistant, botText)];
    assert |h1| >= 1 && h1[|h1| - 1] == Entry(User, userText);
    assert |k| >= 1 && k[|k| - 1] == h1[|h1| - 1];
  }
}
