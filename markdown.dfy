/**
 * `escape_markdown`: protect the characters that break Telegram Markdown
 * links by putting a backslash in front of each of them.
 */
module Markdown {
  import opened Text

  /** The characters escaped, in the order the source replaces them (backslash first). */
  const Replacements: seq<char> := ['\\', '*', '_', '[', ']', '(', ')', '`']

  /** One character after escaping the characters of `cs`. */
  function EscapeChar(c: char, cs: seq<char>): string {
    if c in cs then ['\\', c] else [c]
  }

  /** `s` with exactly one backslash put before each character that is in `cs`. */
  function EscapeWith(s: string, cs: seq<char>): string {
    if s == [] then [] else EscapeChar(s[0], cs) + EscapeWith(s[1..], cs)
  }

  /** The reference meaning of `escape_markdown`: every special character gets one backslash. */
  function Escaped(s: string): string {
    EscapeWith(s, Replacements)
  }

  /** Drops the backslash in front of each escaped special character. */
  function Unescape(t: string): string {
    if |t| >= 2 && t[0] == '\\' && t[1] in Replacements then [t[1]] + Unescape(t[2..])
    else if t == [] then []
    else [t[0]] + Unescape(t[1..])
  }

  lemma {:induction false} EscapeWithNothing(s: string)
    ensures EscapeWith(s, []) == s
  {
    if s != [] {
      EscapeWithNothing(s[1..]);
    }
  }

  /**
   * One round of the source's loop: replacing `c` by backslash-`c` in a text
   * whose characters of `cs` are already escaped escapes `c` as well, provided
   * `c` is new and, if `c` is the backslash, nothing was escaped before (so no
   * inserted backslash is doubled).
   */
  lemma {:induction false} ReplaceRound(s: string, cs: seq<char>, c: char)
    requires c !in cs
    requires c == '\\' ==> cs == []
    ensures ReplaceChar(EscapeWith(s, cs), c, ['\\', c]) == EscapeWith(s, cs + [c])
  {
    if s != [] {
      var head := EscapeChar(s[0], cs);
      ReplaceCharConcat(head, EscapeWith(s[1..], cs), c, ['\\', c]);
      ReplaceRound(s[1..], cs, c);
      if s[0] in cs {
        assert ReplaceChar(head, c, ['\\', c]) == head;
      }
    }
  }

  /**
   * `escape_markdown(text)`: the empty text is returned as is; otherwise each
   * special character is replaced, one character kind at a time, backslash first.
   */
  method EscapeMarkdown(text: string) returns (r: string)
    ensures r == Escaped(text)
  {
    if text == [] {
      return text;
    }
    r := text;
    EscapeWithNothing(text);
    for k := 0 to |Replacements|
      invariant r == EscapeWith(text, Replacements[..k])
    {
      var c := Replacements[k];
      assert c !in Replacements[..k];
      ReplaceRound(text, Replacements[..k], c);
      r := ReplaceChar(r, c, ['\\', c]);
      assert Replacements[..k + 1] == Replacements[..k] + [c];
    }
    assert Replacements[..|Replacements|] == Replacements;
  }

  /** Removing the inserted backslashes gives back the original text. */
  lemma {:induction false} UnescapeEscaped(s: string)
    ensures Unescape(Escaped(s)) == s
  {
    if s != [] {
      var rest := Escaped(s[1..]);
      if s[0] in Replacements {
        assert Escaped(s) == ['\\', s[0]] + rest;
        assert (['\\', s[0]] + rest)[2..] == rest;
      } else {
        assert Escaped(s) == [s[0]] + rest;
        assert ([s[0]] + rest)[1..] == rest;
      }
      UnescapeEscaped(s[1..]);
    }
  }

  /** A text without special characters passes through unchanged. */
  lemma {:induction false} EscapedPlain(s: string)
    requires forall i :: 0 <= i < |s| ==> s[i] !in Replacements
    ensures Escaped(s) == s
  {
    if s != [] {
      EscapedPlain(s[1..]);
    }
  }
}
