/**
 * `extract_text_without_mention`: find `@<bot username>` in a message,
 * case-insensitively, replace every occurrence by one space and strip the ends.
 */
module Mention {
  import opened Text

  /** The mention pattern for a configured bot username. */
  function MentionPattern(botUsername: string): string {
    "@" + botUsername
  }

  /** `p` occurs at position `i` of `s`, ignoring letter case. */
  predicate MatchesAt(s: string, i: nat, p: string) {
    i + |p| <= |s| && Lower(s[i..i + |p|]) == Lower(p)
  }

  /** `p` occurs somewhere in `s`, ignoring letter case: what `pattern.search(s)` finds. */
  ghost predicate Mentions(s: string, p: string) {
    exists i: nat :: MatchesAt(s, i, p)
  }

  /**
   * `pattern.subn(' ', s)`: scanning left to right, each non-overlapping
   * occurrence of `p` is replaced by a single space; the count of
   * replacements comes with the new text.
   */
  function SubMentions(s: string, p: string): (string, nat)
    requires p != []
    decreases |s|
  {
    if |s| < |p| then (s, 0)
    else if MatchesAt(s, 0, p) then
      var (rest, n) := SubMentions(s[|p|..], p);
      ([' '] + rest, n + 1)
    else
      var (rest, n) := SubMentions(s[1..], p);
      ([s[0]] + rest, n)
  }

  /** The scan replaces something exactly when the pattern occurs somewhere. */
  lemma {:induction false} SubMentionsCountIff(s: string, p: string)
    requires p != []
    ensures SubMentions(s, p).1 > 0 <==> Mentions(s, p)
    decreases |s|
  {
    if |s| < |p| {
      assert !Mentions(s, p) by {
        forall i: nat ensures !MatchesAt(s, i, p) {
        }
      }
    } else if MatchesAt(s, 0, p) {
      assert SubMentions(s, p).1 > 0;
      assert MatchesAt(s, 0, p);
    } else {
      assert SubMentions(s, p).1 == SubMentions(s[1..], p).1;
      SubMentionsCountIff(s[1..], p);
      if Mentions(s, p) {
        var i: nat :| MatchesAt(s, i, p);
        MatchShift(s, i - 1, p);
      }
      if Mentions(s[1..], p) {
        var j: nat :| MatchesAt(s[1..], j, p);
        MatchShift(s, j, p);
      }
    }
  }

  /** An occurrence in the text without its first character is one position further on in the text. */
  lemma MatchShift(s: string, j: nat, p: string)
    requires s != []
    ensures MatchesAt(s[1..], j, p) <==> MatchesAt(s, j + 1, p)
  {
    if j + 1 + |p| <= |s| {
      assert s[1..][j..j + |p|] == s[j + 1..j + 1 + |p|];
    }
  }

  /** A text in which the pattern does not occur comes back unchanged, with no replacement. */
  lemma {:induction false} SubMentionsNone(s: string, p: string)
    requires p != [] && !Mentions(s, p)
    ensures SubMentions(s, p) == (s, 0)
    decreases |s|
  {
    if |s| >= |p| {
      assert !MatchesAt(s, 0, p);
      assert !Mentions(s[1..], p) by {
        forall j: nat ensures !MatchesAt(s[1..], j, p) {
          MatchShift(s, j, p);
        }
      }
      SubMentionsNone(s[1..], p);
      assert [s[0]] + s[1..] == s;
    }
  }

  /**
   * The leftmost occurrence: a prefix in which no occurrence starts is copied,
   * the occurrence after it becomes one space, and the scan goes on behind it.
   */
  lemma {:induction false} SubMentionsFirst(a: string, x: string, b: string, p: string)
    requires p != [] && |x| == |p| && MatchesAt(x, 0, p)
    requires forall j :: 0 <= j < |a| ==> !MatchesAt(a + x + b, j, p)
    ensures SubMentions(a + x + b, p) == (a + [' '] + SubMentions(b, p).0, SubMentions(b, p).1 + 1)
    decreases |a|
  {
    var s := a + x + b;
    if a == [] {
      assert s == x + b;
      SubMentionsAtMatch(x, b, p);
      assert a + [' '] + SubMentions(b, p).0 == [' '] + SubMentions(b, p).0;
    } else {
      assert !MatchesAt(s, 0, p);
      assert s[1..] == a[1..] + x + b;
      forall j | 0 <= j < |a| - 1 ensures !MatchesAt(a[1..] + x + b, j, p) {
        MatchShift(s, j, p);
      }
      SubMentionsFirst(a[1..], x, b, p);
      SubMentionsSkip(s, p);
      var r := SubMentions(b, p).0;
      assert [s[0]] + (a[1..] + [' '] + r) == a + [' '] + r;
    }
  }

  /** Without an occurrence at the start, the first character is kept and the scan moves on by one. */
  lemma SubMentionsSkip(s: string, p: string)
    requires p != [] && |s| >= |p| && !MatchesAt(s, 0, p)
    ensures SubMentions(s, p) == ([s[0]] + SubMentions(s[1..], p).0, SubMentions(s[1..], p).1)
  {
  }

  /** An occurrence at the start becomes one space and the scan goes on behind it. */
  lemma SubMentionsAtMatch(x: string, b: string, p: string)
    requires p != [] && |x| == |p| && MatchesAt(x, 0, p)
    ensures SubMentions(x + b, p) == ([' '] + SubMentions(b, p).0, SubMentions(b, p).1 + 1)
  {
    var s := x + b;
    assert s[0..|p|] == x;
    assert s[|p|..] == b;
  }

  /** Each replacement turns `|p|` characters into one, so the text shrinks by `|p| - 1` per replacement. */
  lemma {:induction false} SubMentionsLength(s: string, p: string)
    requires p != []
    ensures |SubMentions(s, p).0| + SubMentions(s, p).1 * (|p| - 1) == |s|
    decreases |s|
  {
    if |s| < |p| {
    } else if MatchesAt(s, 0, p) {
      SubMentionsLength(s[|p|..], p);
      MulStep(SubMentions(s[|p|..], p).1, |p| - 1);
    } else {
      SubMentionsLength(s[1..], p);
    }
  }

  /** `(m + 1) * k` by distribution. */
  lemma MulStep(m: nat, k: int)
    ensures (m + 1) * k == m * k + k
  {
  }

  /** A window that holds a space cannot match a pattern without one. */
  lemma SpaceBlocks(t: string, i: nat, q: nat, p: string)
    requires ' ' !in p && q < |p| && i + q < |t| && t[i + q] == ' '
    ensures !MatchesAt(t, i, p)
  {
    if i + |p| <= |t| {
      assert t[i..i + |p|][q] == ' ';
      assert Lower(t[i..i + |p|])[q] == ' ';
      assert p[q] in p;
      assert Lower(p)[q] != ' ';
    }
  }

  /**
   * The first `k` characters of the scan's result are the text's own, unless
   * a space shows up among them.
   */
  lemma {:induction false} ScanPrefix(t: string, p: string, k: nat)
    requires p != [] && k <= |t|
    ensures var out := SubMentions(t, p).0;
      k <= |out| ==> out[..k] == t[..k] || exists q :: 0 <= q < k && out[q] == ' '
    decreases k
  {
    var out := SubMentions(t, p).0;
    if k == 0 || |t| < |p| {
    } else if MatchesAt(t, 0, p) {
      assert out[0] == ' ';
    } else {
      var rest := SubMentions(t[1..], p).0;
      ScanPrefix(t[1..], p, k - 1);
      if k <= |out| {
        assert out == [t[0]] + rest;
        if rest[..k - 1] == t[1..][..k - 1] {
          assert out[..k] == t[..k];
        } else {
          var q :| 0 <= q < k - 1 && rest[q] == ' ';
          assert out[q + 1] == ' ';
        }
      }
    }
  }

  /** The first window of a scan that did not match at its start does not match either. */
  lemma FirstWindowClear(s: string, p: string)
    requires p != [] && ' ' !in p && |s| >= |p| && !MatchesAt(s, 0, p)
    ensures !MatchesAt(SubMentions(s, p).0, 0, p)
  {
    var rest := SubMentions(s[1..], p).0;
    SubMentionsSkip(s, p);
    var out := [s[0]] + rest;
    if |out| >= |p| {
      ScanPrefix(s[1..], p, |p| - 1);
      if rest[..|p| - 1] == s[1..][..|p| - 1] {
        SameFirstWindow(s, rest, p);
      } else {
        var q :| 0 <= q < |p| - 1 && rest[q] == ' ';
        assert out[q + 1] == ' ';
        SpaceBlocks(out, 0, q + 1, p);
      }
    }
  }

  /** Keeping the first character and the next `|p| - 1` keeps the first window. */
  lemma SameFirstWindow(s: string, rest: string, p: string)
    requires p != [] && |s| >= |p| && |rest| >= |p| - 1 && rest[..|p| - 1] == s[1..][..|p| - 1]
    ensures MatchesAt([s[0]] + rest, 0, p) == MatchesAt(s, 0, p)
  {
    var out := [s[0]] + rest;
    assert out[..|p|] == [s[0]] + rest[..|p| - 1];
    assert s[..|p|] == [s[0]] + s[1..][..|p| - 1];
  }

  /**
   * When the pattern holds no space, the scan leaves no occurrence behind: a
   * window of the result is either one the scan already passed over or one
   * that holds an inserted space.
   */
  lemma {:induction false} SubMentionsLeavesNone(s: string, p: string)
    requires p != [] && ' ' !in p
    ensures !Mentions(SubMentions(s, p).0, p)
    decreases |s|
  {
    var out := SubMentions(s, p).0;
    if |s| < |p| {
      forall i: nat ensures !MatchesAt(out, i, p) {
      }
    } else {
      var tail := if MatchesAt(s, 0, p) then s[|p|..] else s[1..];
      var rest := SubMentions(tail, p).0;
      SubMentionsLeavesNone(tail, p);
      assert out[1..] == rest;
      forall i: nat ensures !MatchesAt(out, i, p) {
        if i == 0 {
          if MatchesAt(s, 0, p) {
            SpaceBlocks(out, 0, 0, p);
          } else {
            FirstWindowClear(s, p);
          }
        } else {
          MatchShift(out, i - 1, p);
        }
      }
    }
  }

  /**
   * `extract_text_without_mention(text)`: the text with every mention replaced
   * by a space and the ends stripped, and whether a mention was found. Without
   * a configured username nothing is ever reported as a mention.
   */
  function ExtractTextWithoutMention(text: string, botUsername: string): (r: (string, bool))
    ensures botUsername == [] || text == [] ==> r == (Strip(text), false)
  {
    if text == [] || botUsername == [] then (Strip(text), false)
    else
      var (cleaned, count) := SubMentions(text, MentionPattern(botUsername));
      (Strip(cleaned), count > 0)
  }

  /** A mention is reported exactly when a username is configured and `@<username>` occurs in the text. */
  lemma MentionFlagIff(text: string, botUsername: string)
    ensures ExtractTextWithoutMention(text, botUsername).1 <==> botUsername != [] && Mentions(text, MentionPattern(botUsername))
  {
    var p := MentionPattern(botUsername);
    if text == [] && botUsername != [] {
      assert !Mentions(text, p) by {
        forall i: nat ensures !MatchesAt(text, i, p) {
          assert |p| > 0;
        }
      }
    } else if botUsername != [] {
      SubMentionsCountIff(text, p);
    }
  }

  /** A text without a mention of the bot is only stripped. */
  lemma NoMentionOnlyStrips(text: string, botUsername: string)
    requires !Mentions(text, MentionPattern(botUsername))
    ensures ExtractTextWithoutMention(text, botUsername) == (Strip(text), false)
  {
    if text != [] && botUsername != [] {
      SubMentionsNone(text, MentionPattern(botUsername));
    }
  }

  /**
   * The first mention in a text becomes one space: the text before it is kept
   * as it is, and the text after it is cleaned in turn; then the ends are stripped.
   */
  lemma FirstMentionReplaced(a: string, x: string, b: string, botUsername: string)
    requires botUsername != [] && MatchesAt(x, 0, MentionPattern(botUsername)) && |x| == |MentionPattern(botUsername)|
    requires forall j :: 0 <= j < |a| ==> !MatchesAt(a + x + b, j, MentionPattern(botUsername))
    ensures ExtractTextWithoutMention(a + x + b, botUsername)
      == (Strip(a + [' '] + SubMentions(b, MentionPattern(botUsername)).0), true)
  {
    SubMentionsFirst(a, x, b, MentionPattern(botUsername));
  }

  /** An occurrence inside a slice of a text is an occurrence in the text. */
  lemma MatchInSlice(c: string, lo: nat, hi: nat, i: nat, p: string)
    requires lo <= hi <= |c| && MatchesAt(c[lo..hi], i, p)
    ensures MatchesAt(c, lo + i, p)
  {
    var w := c[lo..hi];
    assert i + |p| <= |w| == hi - lo;
    var u, v := w[i..i + |p|], c[lo + i..lo + i + |p|];
    forall k | 0 <= k < |p| ensures u[k] == v[k] {
      assert w[i + k] == c[lo + i + k];
    }
    assert u == v;
  }

  /**
   * With a username that holds no space, no mention of the bot is left in
   * the cleaned text.
   */
  lemma MentionsRemoved(text: string, botUsername: string)
    requires botUsername != [] && ' ' !in botUsername
    ensures !Mentions(ExtractTextWithoutMention(text, botUsername).0, MentionPattern(botUsername))
  {
    var p := MentionPattern(botUsername);
    assert ' ' !in p by {
      assert p == ['@'] + botUsername;
    }
    var c := if text == [] then text else SubMentions(text, p).0;
    assert ExtractTextWithoutMention(text, botUsername).0 == Strip(c);
    if text == [] {
      SubMentionsNone(text, p);
    }
    SubMentionsLeavesNone(text, p);
    NoneInStrip(c, p);
  }

  /** Stripping cannot create an occurrence. */
  lemma NoneInStrip(c: string, p: string)
    requires !Mentions(c, p)
    ensures !Mentions(Strip(c), p)
  {
    var l := LStrip(c);
    var lo := |c| - |l|;
    var r := RStrip(l);
    assert Strip(c) == c[lo..lo + |r|];
    forall i: nat ensures !MatchesAt(Strip(c), i, p) {
      if MatchesAt(c[lo..lo + |r|], i, p) {
        MatchInSlice(c, lo, lo + |r|, i, p);
      }
    }
  }

  /** A message in which a mention was found has visible text before cleaning. */
  lemma MentionIsVisible(text: string, botUsername: string)
    requires ExtractTextWithoutMention(text, botUsername).1
    ensures Strip(text) != []
  {
    var p := MentionPattern(botUsername);
    MentionFlagIff(text, botUsername);
    var i: nat :| MatchesAt(text, i, p);
    assert Lower(text[i..i + |p|])[0] == Lower(p)[0] == '@';
    assert text[i..i + |p|][0] == text[i];
    assert text[i] == '@';
    StripEmptyIff(text);
  }

  /** Whitespace around a removed mention is kept: only the ends are stripped. */
  lemma InteriorWhitespaceKept()
    ensures ExtractTextWithoutMention("a @Bot c", "bot") == ("a   c", true)
  {
    var p := MentionPattern("bot");
    assert p == "@bot";
    ScanExample();
    var t := "a   c";
    assert !IsSpace(t[0]) && !IsSpace(t[|t| - 1]);
    assert Strip(t) == t;
    assert ExtractTextWithoutMention("a @Bot c", "bot") == (Strip(t), true);
  }

  lemma ScanExample()
    ensures SubMentions("a @Bot c", "@bot") == ("a   c", 1)
  {
    var p := "@bot";
    assert SubMentions(" c", p) == (" c", 0);
    assert MatchesAt("@Bot c", 0, p) by {
      assert "@Bot c"[0..4] == "@Bot";
      assert Lower("@Bot") == "@bot";
    }
    assert "@Bot c"[4..] == " c";
    assert SubMentions("@Bot c", p) == ("  c", 1) by {
      assert [' '] + " c" == "  c";
    }
    assert !MatchesAt(" @Bot c", 0, p) by {
      assert " @Bot c"[0..4][0] == ' ';
    }
    assert " @Bot c"[1..] == "@Bot c";
    assert SubMentions(" @Bot c", p) == ("   c", 1) by {
      assert [' '] + "  c" == "   c";
    }
    assert !MatchesAt("a @Bot c", 0, p) by {
      assert "a @Bot c"[0..4][0] == 'a';
    }
    assert "a @Bot c"[1..] == " @Bot c";
    assert ['a'] + "   c" == "a   c";
  }
}
