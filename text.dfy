/**
 * String helpers shared by the browser scripts and the server: prefix and
 * suffix tests, ASCII case folding, whitespace trimming and splitting, and
 * the decimal rendering of the millisecond timestamps used in file names.
 */
module Text {
  import opened Sequences

  type String = seq<char>

  predicate StartsWith(s: String, prefix: String) {
    |prefix| <= |s| && s[..|prefix|] == prefix
  }

  predicate EndsWith(s: String, suffix: String) {
    |suffix| <= |s| && s[|s| - |suffix|..] == suffix
  }

  /** A concatenation starts with its front and ends with its back. */
  lemma ConcatEnds(a: String, b: String)
    ensures StartsWith(a + b, a) && EndsWith(a + b, b)
  {
    assert (a + b)[..|a|] == a;
    assert (a + b)[|a|..] == b;
  }

  /** `s` holds `t` at position `i`. */
  predicate OccursAt(s: String, t: String, i: nat) {
    i + |t| <= |s| && s[i..i + |t|] == t
  }

  /** JavaScript's `s.includes(t)`; the empty string occurs everywhere. */
  predicate Contains(s: String, t: String) {
    exists i: nat | i <= |s| :: OccursAt(s, t, i)
  }

  // ---------------------------------------------------------------------
  // Case folding (ASCII letters only)

  function LowerChar(c: char): char {
    if 'A' <= c <= 'Z' then (c as int + 32) as char else c
  }

  function Lower(s: String): (r: String)
    ensures |r| == |s|
    ensures forall i :: 0 <= i < |s| ==> r[i] == LowerChar(s[i])
  {
    if s == [] then [] else [LowerChar(s[0])] + Lower(s[1..])
  }

  /** Equal up to ASCII case, as a regular expression with the `i` flag compares. */
  predicate SameIgnoringCase(a: String, b: String) {
    Lower(a) == Lower(b)
  }

  /** `s.toLowerCase().includes(t.toLowerCase())`. */
  predicate ContainsIgnoringCase(s: String, t: String) {
    Contains(Lower(s), Lower(t))
  }

  function Repeat(s: String, n: nat): String {
    if n == 0 then [] else s + Repeat(s, n - 1)
  }

  // ---------------------------------------------------------------------
  // Whitespace

  /**
   * The ASCII whitespace of JavaScript's `\s`. Python's `str.split()` and
   * `strip()` also count U+001C to U+001F, which this set leaves out.
   */
  predicate IsSpace(c: char) {
    c == ' ' || c == '\t' || c == '\n' || c == '\r' || c == '\U{B}' || c == '\U{C}'
  }

  function TrimStart(s: String): (r: String)
    ensures |r| <= |s| && r == s[|s| - |r|..]
    ensures r == [] || !IsSpace(r[0])
    ensures forall i :: 0 <= i < |s| - |r| ==> IsSpace(s[i])
  {
    if |s| > 0 && IsSpace(s[0]) then TrimStart(s[1..]) else s
  }

  function TrimEnd(s: String): (r: String)
    ensures |r| <= |s| && r == s[..|r|]
    ensures r == [] || !IsSpace(r[|r| - 1])
    ensures forall i :: |r| <= i < |s| ==> IsSpace(s[i])
  {
    if |s| > 0 && IsSpace(s[|s| - 1]) then TrimEnd(s[..|s| - 1]) else s
  }

  /** JavaScript's `trim()`, and Python's `strip()` over the same whitespace. */
  function Strip(s: String): String {
    TrimEnd(TrimStart(s))
  }

  predicate AllSpace(s: String) {
    forall i :: 0 <= i < |s| ==> IsSpace(s[i])
  }

  predicate NoSpace(s: String) {
    forall i :: 0 <= i < |s| ==> !IsSpace(s[i])
  }

  /** Stripping leaves nothing exactly when the string is all whitespace. */
  lemma StripEmptyIff(s: String)
    ensures Strip(s) == [] <==> AllSpace(s)
  {

  }

  /** Stripping never leaves whitespace at either end. */
  lemma StripEnds(s: String)
    ensures Strip(s) == [] || (!IsSpace(Strip(s)[0]) && !IsSpace(Strip(s)[|Strip(s)| - 1]))
  {
    var t := TrimStart(s);
    var r := TrimEnd(t);
    if r != [] {
      assert r[0] == t[0];
    }
  }

  /** Length of the run of non-whitespace characters at the front of `s`. */
  function WordLength(s: String): (n: nat)
    ensures n <= |s|
    ensures NoSpace(s[..n])
    ensures n < |s| ==> IsSpace(s[n])
    ensures |s| > 0 && !IsSpace(s[0]) ==> n >= 1
  {
    if |s| == 0 || IsSpace(s[0]) then 0
    else
      var m := WordLength(s[1..]);
      assert s[..m + 1] == [s[0]] + s[1..][..m];
      m + 1
  }

  /** Python's `str.split()` with no argument, over `IsSpace`: the maximal runs of non-whitespace. */
  function Words(s: String): (ws: seq<String>)
    ensures AllWords(ws)
    decreases |s|
  {
    var t := TrimStart(s);
    if t == [] then []
    else
      var n := WordLength(t);
      var rest := Words(t[n..]);
      AllWordsCons(t[..n], rest);
      [t[..n]] + rest
  }

  lemma AllWordsCons(w: String, rest: seq<String>)
    requires w != [] && NoSpace(w) && AllWords(rest)
    ensures AllWords([w] + rest)
  {
    assert forall k :: 1 <= k < |rest| + 1 ==> ([w] + rest)[k] == rest[k - 1];
  }

  /** Every element is a non-empty run without whitespace. */
  predicate AllWords(ws: seq<String>) {
    forall k :: 0 <= k < |ws| ==> ws[k] != [] && NoSpace(ws[k])
  }

  function Join(ws: seq<String>, sep: String): String {
    if |ws| == 0 then []
    else if |ws| == 1 then ws[0]
    else ws[0] + sep + Join(ws[1..], sep)
  }

  /** Python's `' '.join(s.split())`: words separated by single spaces. */
  function NormalizeSpace(s: String): String {
    Join(Words(s), " ")
  }

  lemma TrimStartOfWordFirst(w: String, rest: String)
    requires w != [] && !IsSpace(w[0])
    ensures TrimStart(w + rest) == w + rest
  {
  }

  lemma {:induction false} WordLengthOfWord(w: String, rest: String)
    requires NoSpace(w)
    requires rest == [] || IsSpace(rest[0])
    ensures WordLength(w + rest) == |w|
    decreases |w|
  {
    if w != [] {
      assert (w + rest)[1..] == w[1..] + rest;
      WordLengthOfWord(w[1..], rest);
    }
  }

  lemma {:induction false} WordsAfterSpace(c: char, s: String)
    requires IsSpace(c)
    ensures Words([c] + s) == Words(s)
  {
    assert ([c] + s)[1..] == s;
  }

  /** Splitting words that were joined with single spaces gives them back. */
  lemma {:induction false} WordsOfJoin(ws: seq<String>)
    requires AllWords(ws)
    ensures Words(Join(ws, " ")) == ws
  {
    if |ws| == 1 {
      WordsOfWord(ws[0]);
    } else if |ws| > 1 {
      assert AllWords(ws[1..]) by {
        forall k | 0 <= k < |ws[1..]|
          ensures ws[1..][k] != [] && NoSpace(ws[1..][k])
        {
          assert ws[1..][k] == ws[k + 1];
        }
      }
      WordsOfJoin(ws[1..]);
      WordThenSpace(ws[0], Join(ws[1..], " "));
      HeadAndTail(ws);
    }
  }

  /** A single word splits into itself. */
  lemma WordsOfWord(w: String)
    requires w != [] && NoSpace(w)
    ensures Words(w) == [w]
  {
    TrimStartOfWordFirst(w, []);
    assert w + [] == w;
    WordLengthOfWord(w, []);
    assert w[|w|..] == [];
  }

  /** A word, a space, then more text: the word comes first, then the words of the rest. */
  lemma WordThenSpace(w: String, rest: String)
    requires w != [] && NoSpace(w)
    ensures Words(w + " " + rest) == [w] + Words(rest)
  {
    var s := w + " " + rest;
    assert s == w + (" " + rest);
    TrimStartOfWordFirst(w, " " + rest);
    WordLengthOfWord(w, " " + rest);
    assert s[..|w|] == w;
    assert s[|w|..] == [' '] + rest;
    WordsAfterSpace(' ', rest);
  }

  /** Normalising whitespace keeps the words and is idempotent. */
  lemma NormalizeSpaceKeepsWords(s: String)
    ensures Words(NormalizeSpace(s)) == Words(s)
    ensures NormalizeSpace(NormalizeSpace(s)) == NormalizeSpace(s)
  {
    WordsOfJoin(Words(s));
  }

  // ---------------------------------------------------------------------
  // Decimal numbers

  predicate IsDigit(c: char) {
    '0' <= c <= '9'
  }

  function DigitChar(d: nat): (c: char)
    requires d < 10
    ensures IsDigit(c) && c as int - '0' as int == d
  {
    ('0' as int + d) as char
  }

  /** `String(n)` for a non-negative integer, e.g. a `Date.getTime()` value. */
  function NatToString(n: nat): (r: String)
    ensures r != []
    ensures forall i :: 0 <= i < |r| ==> IsDigit(r[i])
  {
    if n < 10 then [DigitChar(n)] else NatToString(n / 10) + [DigitChar(n % 10)]
  }

  function ParseDigits(s: String): nat
    requires forall i :: 0 <= i < |s| ==> IsDigit(s[i])
  {
    if s == [] then 0
    else
      assert IsDigit(s[|s| - 1]);
      10 * ParseDigits(s[..|s| - 1]) + (s[|s| - 1] as int - '0' as int)
  }

  /** Reading the decimal rendering back gives the number. */
  lemma {:induction false} ParseNatToString(n: nat)
    ensures ParseDigits(NatToString(n)) == n
  {
    if n >= 10 {
      var r := NatToString(n);
      assert r[..|r| - 1] == NatToString(n / 10);
      ParseNatToString(n / 10);
    }
  }

  /** Different numbers render differently. */
  lemma NatToStringInjective(a: nat, b: nat)
    ensures NatToString(a) == NatToString(b) ==> a == b
  {
    ParseNatToString(a);
    ParseNatToString(b);
  }

  /** The length of the run of digits that `s` starts with. */
  function LeadingDigits(s: String): nat {
    if s == [] || !IsDigit(s[0]) then 0 else 1 + LeadingDigits(s[1..])
  }

  lemma {:induction false} LeadingDigitsOf(x: String, rest: String)
    requires forall i :: 0 <= i < |x| ==> IsDigit(x[i])
    requires rest != [] && !IsDigit(rest[0])
    ensures LeadingDigits(x + rest) == |x|
  {
    if x != [] {
      assert (x + rest)[1..] == x[1..] + rest;
      LeadingDigitsOf(x[1..], rest);
    }
  }

  /**
   * A number written between a fixed prefix and a non-digit separator can be
   * read back: equal names carry equal numbers and equal tails.
   */
  lemma NumberBeforeSeparator(prefix: String, a: nat, b: nat, sep: char, ta: String, tb: String)
    requires !IsDigit(sep)
    requires prefix + NatToString(a) + [sep] + ta == prefix + NatToString(b) + [sep] + tb
    ensures a == b && ta == tb
  {
    var x, y := NatToString(a), NatToString(b);
    var u, v := x + ([sep] + ta), y + ([sep] + tb);
    assert prefix + x + [sep] + ta == prefix + u;
    assert prefix + y + [sep] + tb == prefix + v;
    assert u == (prefix + u)[|prefix|..];
    assert v == (prefix + v)[|prefix|..];
    DigitsThenRest(x, y, [sep] + ta, [sep] + tb);
    NatToStringInjective(a, b);
    assert ta == ([sep] + ta)[1..];
  }

  /** Two strings that each start with a run of digits followed by a non-digit split alike. */
  lemma DigitsThenRest(x: String, y: String, rx: String, ry: String)
    requires forall i :: 0 <= i < |x| ==> IsDigit(x[i])
    requires forall i :: 0 <= i < |y| ==> IsDigit(y[i])
    requires rx != [] && !IsDigit(rx[0]) && ry != [] && !IsDigit(ry[0])
    requires x + rx == y + ry
    ensures x == y && rx == ry
  {
    LeadingDigitsOf(x, rx);
    LeadingDigitsOf(y, ry);
    assert x == (x + rx)[..|x|];
    assert y == (y + ry)[..|y|];
    assert rx == (x + rx)[|x|..];
    assert ry == (y + ry)[|y|..];
  }
}
