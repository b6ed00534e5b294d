/**
 * The few Python `str` operations the bot relies on: `strip`, `split`,
 * `lower`, `startswith`, `in`, `replace`, `join`, `str(int)` and `int(str)`.
 */
module Text {
  import opened Wrappers

  /** The characters Python's `str.isspace()` accepts (what `strip` and `split` remove). */
  predicate IsSpace(c: char) {
    || c == ' ' || c == '\t' || c == '\n' || c == '\r' || c == '\U{B}' || c == '\U{C}'
    || ('\U{1C}' <= c <= '\U{1F}') || c == '\U{85}' || c == '\U{A0}' || c == '\U{1680}'
    || ('\U{2000}' <= c <= '\U{200A}') || c == '\U{2028}' || c == '\U{2029}'
    || c == '\U{202F}' || c == '\U{205F}' || c == '\U{3000}'
  }

  predicate AllSpace(s: string) {
    forall i :: 0 <= i < |s| ==> IsSpace(s[i])
  }

  /** `s.lstrip()`: the suffix left after dropping leading whitespace. */
  function LStrip(s: string): (r: string)
    ensures |r| <= |s| && r == s[|s| - |r|..]
    ensures AllSpace(s[..|s| - |r|])
    ensures r == [] || !IsSpace(r[0])
  {
    if s != [] && IsSpace(s[0]) then LStrip(s[1..]) else s
  }

  /** `s.rstrip()`: the prefix left after dropping trailing whitespace. */
  function RStrip(s: string): (r: string)
    ensures |r| <= |s| && r == s[..|r|]
    ensures AllSpace(s[|r|..])
    ensures r == [] || !IsSpace(r[|r| - 1])
  {
    if s != [] && IsSpace(s[|s| - 1]) then RStrip(s[..|s| - 1]) else s
  }

  /** `s.strip()` */
  function Strip(s: string): string {
    RStrip(LStrip(s))
  }

  /** `s.strip()` is empty exactly when `s` holds nothing but whitespace. */
  lemma StripEmptyIff(s: string)
    ensures Strip(s) == [] <==> AllSpace(s)
  {
    var l := LStrip(s);
    var k := |s| - |l|;
    if Strip(s) == [] {
      assert AllSpace(l[0..]);
      forall i | 0 <= i < |s| ensures IsSpace(s[i]) {
        if i < k {
          assert s[..k][i] == s[i];
        } else {
          assert l[i - k] == s[i];
        }
      }
    } else {
      var r := Strip(s);
      assert !IsSpace(r[0]) && r[0] == l[0] == s[k];
    }
  }

  /** A text with visible characters at both ends is its own strip. */
  lemma StripUnchanged(s: string)
    requires s != [] && !IsSpace(s[0]) && !IsSpace(s[|s| - 1])
    ensures Strip(s) == s
  {
    assert LStrip(s) == s;
  }

  /** Trailing whitespace after a visible last character is exactly what `rstrip` removes. */
  lemma {:induction false} RStripTrailingSpace(r: string, ws: string)
    requires r != [] && !IsSpace(r[|r| - 1])
    requires AllSpace(ws)
    ensures RStrip(r + ws) == r
    decreases |ws|
  {
    if ws == [] {
      assert r + ws == r;
    } else {
      var t := r + ws;
      var w' := ws[..|ws| - 1];
      assert t[..|t| - 1] == r + w';
      assert IsSpace(t[|t| - 1]);
      RStripTrailingSpace(r, w');
    }
  }

  /** Stripping a visible text followed by whitespace gives the text back. */
  lemma StripTrailingSpace(r: string, ws: string)
    requires r != [] && !IsSpace(r[0]) && !IsSpace(r[|r| - 1])
    requires ws != [] && AllSpace(ws)
    ensures Strip(r + ws) == r
  {
    var t := r + ws;
    assert LStrip(t) == t;
    RStripTrailingSpace(r, ws);
  }

  /** Length of the run of non-whitespace characters that starts `s`. */
  function WordLength(s: string): (n: nat)
    ensures n <= |s|
    ensures forall i :: 0 <= i < n ==> !IsSpace(s[i])
    ensures n < |s| ==> IsSpace(s[n])
  {
    if s == [] || IsSpace(s[0]) then 0 else 1 + WordLength(s[1..])
  }

  /** `s.split()`: the maximal runs of non-whitespace characters, in order. */
  function Words(s: string): (ws: seq<string>)
    ensures forall k :: 0 <= k < |ws| ==> ws[k] != []
    decreases |s|
  {
    var t := LStrip(s);
    if t == [] then []
    else
      var n := WordLength(t);
      [t[..n]] + Words(t[n..])
  }

  /** Whitespace followed by a visible character: `lstrip` keeps exactly the part from that character on. */
  lemma {:induction false} LStripOf(p: string, r: string)
    requires AllSpace(p) && r != [] && !IsSpace(r[0])
    ensures LStrip(p + r) == r
    decreases |p|
  {
    if p == [] {
      assert p + r == r;
    } else {
      var s := p + r;
      assert s[0] == p[0];
      assert s[1..] == p[1..] + r;
      assert AllSpace(p[1..]) by {
        forall i | 0 <= i < |p| - 1 ensures IsSpace(p[1..][i]) {
          assert p[1..][i] == p[i + 1];
        }
      }
      LStripOf(p[1..], r);
    }
  }

  /** Leading whitespace in front of a visible character is all `lstrip` drops, whatever follows. */
  lemma LStripConcat(a: string, b: string)
    requires LStrip(a) != []
    ensures LStrip(a + b) == LStrip(a) + b
  {
    var l := LStrip(a);
    var k := |a| - |l|;
    SplitAt(a, k);
    AppendAssoc(a[..k], l, b);
    LStripOf(a[..k], l + b);
  }

  /** Concatenation is associative. */
  lemma AppendAssoc(x: string, y: string, z: string)
    ensures (x + y) + z == x + (y + z)
  {
  }

  /** A text made of whitespace only has no words. */
  lemma AllSpaceNoWords(s: string)
    requires AllSpace(s)
    ensures LStrip(s) == [] && Words(s) == []
  {
  }

  /** Two whitespace runs make one. */
  lemma AllSpaceConcat(a: string, b: string)
    requires AllSpace(a) && AllSpace(b)
    ensures AllSpace(a + b)
  {
    var u := a + b;
    forall i | 0 <= i < |u| ensures IsSpace(u[i]) {
      if i < |a| {
        assert u[i] == a[i];
      } else {
        assert u[i] == b[i - |a|];
      }
    }
  }

  /** Whitespace appended after a word does not lengthen the word. */
  lemma WordLengthTrailing(t: string, ws: string)
    requires AllSpace(ws)
    ensures WordLength(t + ws) == WordLength(t)
  {
    var n := WordLength(t);
    var u := t + ws;
    assert forall i :: 0 <= i < n ==> u[i] == t[i];
    assert n == |u| || IsSpace(u[n]) by {
      if n < |t| {
        assert u[n] == t[n];
      } else if ws != [] {
        assert u[n] == ws[0];
      }
    }
  }

  /** A blank text followed by whitespace is still blank. */
  lemma BlankThenSpace(s: string, ws: string)
    requires LStrip(s) == [] && AllSpace(ws)
    ensures Words(s + ws) == []
  {
    assert s[..|s|] == s;
    AllSpaceConcat(s, ws);
    AllSpaceNoWords(s + ws);
  }

  /** A text with a visible character: its first word, then the words of what follows that word. */
  lemma WordsUnfold(s: string)
    requires LStrip(s) != []
    ensures var t := LStrip(s);
      Words(s) == [t[..WordLength(t)]] + Words(t[WordLength(t)..])
  {
  }

  /** The inductive step of `WordsTrailing`: the first word is split off the same way. */
  lemma WordsTrailingStep(s: string, ws: string)
    requires AllSpace(ws) && LStrip(s) != []
    requires var t := LStrip(s); var n := WordLength(t);
      Words(t[n..] + ws) == Words(t[n..])
    ensures Words(s + ws) == Words(s)
  {
    var t := LStrip(s);
    var n := WordLength(t);
    LStripConcat(s, ws);
    WordLengthTrailing(t, ws);
    WordsUnfold(s);
    WordsUnfold(s + ws);
    SplitConcat(t, ws, n);
  }

  /** Cutting `a + b` inside `a`. */
  lemma SplitConcat(a: string, b: string, n: nat)
    requires n <= |a|
    ensures (a + b)[..n] == a[..n] && (a + b)[n..] == a[n..] + b
  {
  }

  /** Whitespace at the end of a text does not change `split()`. */
  lemma {:induction false} WordsTrailing(s: string, ws: string)
    requires AllSpace(ws)
    ensures Words(s + ws) == Words(s)
    decreases |s|
  {
    var t := LStrip(s);
    if t == [] {
      BlankThenSpace(s, ws);
    } else {
      var n := WordLength(t);
      WordsTrailing(t[n..], ws);
      WordsTrailingStep(s, ws);
    }
  }

  /** `s.strip().split() == s.split()` */
  lemma WordsOfStrip(s: string)
    ensures Words(Strip(s)) == Words(s)
  {
    var l := LStrip(s);
    var r := RStrip(l);
    SplitAt(l, |r|);
    WordsTrailing(r, l[|r|..]);
    assert LStrip(l) == l;
  }

  /** A text is its prefix followed by its suffix. */
  lemma SplitAt(s: string, k: nat)
    requires k <= |s|
    ensures s == s[..k] + s[k..]
  {
  }

  /** A text that starts with a visible character has a first word, and it starts the text. */
  lemma WordsOfVisible(s: string)
    requires s != [] && !IsSpace(s[0])
    ensures Words(s) != [] && Words(s)[0] == s[..WordLength(s)]
  {
    assert LStrip(s) == s;
  }

  /** A word, a space, then more text: the word is split off and the rest splits on its own. */
  lemma WordsOfWordThenRest(w: string, rest: string)
    requires w != [] && forall i :: 0 <= i < |w| ==> !IsSpace(w[i])
    ensures Words(w + " " + rest) == [w] + Words(rest)
  {
    var s := w + " " + rest;
    assert s[0] == w[0];
    assert LStrip(s) == s;
    var n := WordLength(s);
    assert s[|w|] == ' ';
    assert n == |w|;
    assert s[..n] == w;
    assert s[n..] == " " + rest;
    assert (" " + rest)[1..] == rest;
    assert LStrip(" " + rest) == LStrip(rest);
  }

  /** `sep.join(ws)` */
  function Join(ws: seq<string>, sep: string): string {
    if |ws| == 0 then []
    else if |ws| == 1 then ws[0]
    else ws[0] + sep + Join(ws[1..], sep)
  }

  /** `c.lower()` for ASCII letters; every other character is left as it is. */
  function LowerChar(c: char): char {
    if 'A' <= c <= 'Z' then (c as int - 'A' as int + 'a' as int) as char else c
  }

  /** `s.lower()`, character by character. */
  function Lower(s: string): (r: string)
    ensures |r| == |s|
    ensures forall i :: 0 <= i < |s| ==> r[i] == LowerChar(s[i])
  {
    seq(|s|, i requires 0 <= i < |s| => LowerChar(s[i]))
  }

  /** `s.startswith(p)` */
  predicate StartsWith(s: string, p: string) {
    |p| <= |s| && s[..|p|] == p
  }

  /** `s.endswith(p)` */
  predicate EndsWith(s: string, p: string) {
    |p| <= |s| && s[|s| - |p|..] == p
  }

  /** `p in s` for strings: `p` occurs somewhere in `s`. */
  predicate Contains(s: string, p: string)
    decreases |s|
  {
    StartsWith(s, p) || (s != [] && Contains(s[1..], p))
  }

  /** `s.replace(c, rep)` for a one-character pattern `c`. */
  function ReplaceChar(s: string, c: char, rep: string): string {
    if s == [] then []
    else (if s[0] == c then rep else [s[0]]) + ReplaceChar(s[1..], c, rep)
  }

  lemma {:induction false} ReplaceCharConcat(a: string, b: string, c: char, rep: string)
    ensures ReplaceChar(a + b, c, rep) == ReplaceChar(a, c, rep) + ReplaceChar(b, c, rep)
  {
    if a != [] {
      assert (a + b)[1..] == a[1..] + b;
      ReplaceCharConcat(a[1..], b, c, rep);
    } else {
      assert a + b == b;
    }
  }

  /** Replacing a character that does not occur changes nothing. */
  lemma {:induction false} ReplaceCharAbsent(s: string, c: char, rep: string)
    requires c !in s
    ensures ReplaceChar(s, c, rep) == s
  {
    if s != [] {
      ReplaceCharAbsent(s[1..], c, rep);
    }
  }

  /** Lower-casing works piecewise on a concatenation. */
  lemma LowerConcat(a: string, b: string)
    ensures Lower(a + b) == Lower(a) + Lower(b)
  {
  }

  /** Replacing the one space between two space-free texts. */
  lemma ReplaceSeparator(x: string, y: string, rep: string)
    requires ' ' !in x && ' ' !in y
    ensures ReplaceChar(x + " " + y, ' ', rep) == x + rep + y
  {
    ReplaceCharConcat(x + " ", y, ' ', rep);
    ReplaceCharConcat(x, " ", ' ', rep);
    ReplaceCharAbsent(x, ' ', rep);
    ReplaceCharAbsent(y, ' ', rep);
  }

  /** Lower-casing two texts joined by a character that is not an upper-case letter. */
  lemma LowerAround(a: string, sep: char, b: string)
    requires !('A' <= sep <= 'Z')
    ensures Lower(a + [sep] + b) == Lower(a) + [sep] + Lower(b)
  {
    LowerConcat(a + [sep], b);
    LowerConcat(a, [sep]);
  }

  /** Lower-casing never introduces a character that is not a lower-case letter. */
  lemma LowerKeepsAbsent(s: string, c: char)
    requires c !in s && !('a' <= c <= 'z')
    ensures c !in Lower(s)
  {
    forall i | 0 <= i < |s| ensures Lower(s)[i] != c {
      assert s[i] != c;
    }
  }

  /** Joining two whitespace-free texts with a visible character keeps them whitespace-free. */
  lemma VisibleAround(a: string, sep: char, b: string)
    requires !IsSpace(sep)
    requires forall i :: 0 <= i < |a| ==> !IsSpace(a[i])
    requires forall i :: 0 <= i < |b| ==> !IsSpace(b[i])
    ensures var w := a + [sep] + b; forall i :: 0 <= i < |w| ==> !IsSpace(w[i])
  {
    var w := a + [sep] + b;
    forall i | 0 <= i < |w| ensures !IsSpace(w[i]) {
      if i < |a| { assert w[i] == a[i]; }
      else if i > |a| { assert w[i] == b[i - |a| - 1]; }
    }
  }

  /** Lower-casing never introduces whitespace. */
  lemma LowerKeepsVisible(s: string)
    requires forall i :: 0 <= i < |s| ==> !IsSpace(s[i])
    ensures forall i :: 0 <= i < |s| ==> !IsSpace(Lower(s)[i])
  {
  }

  /** Two words joined by a space, lower-cased, with the space replaced by `rep`. */
  lemma LowerReplaceSpaced(a: string, b: string, rep: string)
    requires forall i :: 0 <= i < |a| ==> !IsSpace(a[i])
    requires forall i :: 0 <= i < |b| ==> !IsSpace(b[i])
    ensures ReplaceChar(Lower(a + " " + b), ' ', rep) == Lower(a) + rep + Lower(b)
  {
    LowerAround(a, ' ', b);
    LowerKeepsVisible(a);
    LowerKeepsVisible(b);
    assert ' ' !in Lower(a) && ' ' !in Lower(b);
    ReplaceSeparator(Lower(a), Lower(b), rep);
  }

  /** A non-empty word without whitespace is its own strip and splits into itself alone. */
  lemma {:induction false} SingleWord(w: string)
    requires w != [] && forall i :: 0 <= i < |w| ==> !IsSpace(w[i])
    ensures Strip(w) == w
    ensures Words(w) == [w]
  {
    assert LStrip(w) == w;
    assert WordLength(w) == |w|;
    assert w[|w|..] == [];
    assert Words(w) == [w[..|w|]] + Words([]);
  }

  /** `s.split(c, 1)[0]`: everything before the first `c`, or all of `s`. */
  function BeforeFirst(s: string, c: char): (r: string)
    ensures |r| <= |s| && r == s[..|r|]
    ensures c !in r
    ensures |r| < |s| ==> s[|r|] == c
  {
    if s == [] || s[0] == c then [] else [s[0]] + BeforeFirst(s[1..], c)
  }

  lemma {:induction false} BeforeFirstOfConcat(p: string, c: char, rest: string)
    requires c !in p
    ensures BeforeFirst(p + [c] + rest, c) == p
  {
    if p != [] {
      assert (p + [c] + rest)[1..] == p[1..] + [c] + rest;
      BeforeFirstOfConcat(p[1..], c, rest);
    }
  }

  predicate IsDigit(c: char) {
    '0' <= c <= '9'
  }

  predicate AllDigits(s: string) {
    forall i :: 0 <= i < |s| ==> IsDigit(s[i])
  }

  function DigitChar(d: nat): (c: char)
    requires d < 10
    ensures IsDigit(c)
  {
    ('0' as int + d) as char
  }

  /** `str(n)` for a natural number: decimal digits, no leading zero. */
  function NatToString(n: nat): (s: string)
    ensures s != [] && AllDigits(s)
  {
    if n < 10 then [DigitChar(n)] else NatToString(n / 10) + [DigitChar(n % 10)]
  }

  /** `str(n)`: an optional minus sign, then decimal digits. */
  function IntToString(n: int): (s: string)
    ensures s != [] && forall i :: 0 <= i < |s| ==> IsDigit(s[i]) || s[i] == '-'
  {
    if n < 0 then "-" + NatToString(-n) else NatToString(n)
  }

  /** The number a string of decimal digits denotes (most significant first). */
  function DigitsValue(s: string): nat
    requires AllDigits(s)
  {
    if s == [] then 0 else DigitsValue(s[..|s| - 1]) * 10 + (s[|s| - 1] as int - '0' as int)
  }

  /**
   * `int(s)` on a string without surrounding whitespace: an optional sign
   * followed by at least one ASCII digit; anything else is a ValueError (None).
   */
  function ParseInt(s: string): Option<int> {
    if s != [] && (s[0] == '+' || s[0] == '-') then
      var ds := s[1..];
      if ds != [] && AllDigits(ds) then
        Some(if s[0] == '-' then 0 - DigitsValue(ds) as int else DigitsValue(ds))
      else None
    else if s != [] && AllDigits(s) then Some(DigitsValue(s))
    else None
  }

  /** `int(s)`, which also ignores surrounding whitespace. */
  function PyInt(s: string): Option<int> {
    ParseInt(Strip(s))
  }

  lemma {:induction false} DigitsRoundTrip(n: nat)
    ensures DigitsValue(NatToString(n)) == n
  {
    if n >= 10 {
      var s := NatToString(n);
      assert s[..|s| - 1] == NatToString(n / 10);
      DigitsRoundTrip(n / 10);
    }
  }

  /** Printing an integer and parsing it back gives the same integer. */
  lemma IntRoundTrip(n: int)
    ensures ParseInt(IntToString(n)) == Some(n)
  {
    if n < 0 {
      var s := IntToString(n);
      assert s[1..] == NatToString(-n);
      DigitsRoundTrip(-n);
    } else {
      DigitsRoundTrip(n);
    }
  }
}
