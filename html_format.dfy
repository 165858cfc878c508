/**
 * The HTML pretty-printer behind the "Format HTML" button.  The markup is cut
 * into tokens by splitting on the regular expression `<[^>]*>` with a
 * capturing group, so the tags are kept, and every token is written on a
 * line of its own, indented two spaces per open element.  The counter of
 * open elements drops before a closing tag is written and rises after an
 * opening tag; it may go negative on unbalanced markup, but a line is never
 * indented by a negative amount.  The two copies of the script differ in
 * one rule: the templates copy does not count `<!…>` tokens as openings.
 */
module HtmlFormat {
  import opened Wrappers
  import opened Text
  import opened Sequences

  /** Which copy of the script is being modelled. */
  datatype Flavor = Static | Templates

  // ---------------------------------------------------------------------
  // Tokenising: `html.split(/(<[^>]*>)/)`

  /** A match of `<[^>]*>`: `<`, anything but `>`, then `>`. */
  predicate IsTag(t: String) {
    |t| >= 2 && t[0] == '<' && t[|t| - 1] == '>' && '>' !in t[1..|t| - 1]
  }

  /** No `<` is followed, anywhere later, by a `>`: the expression does not match. */
  predicate NoTag(s: String) {
    forall i, j :: 0 <= i < j < |s| ==> s[i] != '<' || s[j] != '>'
  }

  function IndexOf(s: String, c: char): (r: Option<nat>)
    ensures r.Some? ==> r.value < |s| && s[r.value] == c && c !in s[..r.value]
    ensures r.None? ==> c !in s
  {
    if s == [] then None
    else if s[0] == c then Some(0)
    else match IndexOf(s[1..], c)
      case None => None
      case Some(k) =>
        assert s[..k + 1] == [s[0]] + s[1..][..k];
        Some(k + 1)
  }

  lemma {:induction false} IndexOfIs(s: String, c: char, i: nat)
    requires i < |s| && s[i] == c && c !in s[..i]
    ensures IndexOf(s, c) == Some(i)
  {
    if i > 0 {
      assert s[0] == s[..i][0];
      assert s[1..][..i - 1] == s[..i][1..];
      IndexOfIs(s[1..], c, i - 1);
    }
  }

  /** Start and end (exclusive) of the leftmost match of `<[^>]*>` in `s`. */
  function NextTag(s: String): (r: Option<(nat, nat)>)
    ensures r.Some? ==> r.value.0 < r.value.1 <= |s| && IsTag(s[r.value.0..r.value.1])
                        && '<' !in s[..r.value.0]
    ensures r.None? <==> NoTag(s)
  {
    match IndexOf(s, '<')
    case None => None
    case Some(i) =>
      match IndexOf(s[i + 1..], '>')
      case None =>
        NoCloseAfter(s, i);
        None
      case Some(j) =>
        TagFrom(s, i, j);
        Some((i, i + j + 2))
  }

  /** With no `<` before position `i` and no `>` after it, nothing matches. */
  lemma NoCloseAfter(s: String, i: nat)
    requires i < |s| && '<' !in s[..i] && '>' !in s[i + 1..]
    ensures NoTag(s)
  {
    forall k | 0 <= k < i
      ensures s[k] != '<'
    {
      assert s[..i][k] == s[k];
    }
    forall k | i < k < |s|
      ensures s[k] != '>'
    {
      assert s[i + 1..][k - i - 1] == s[k];
    }
  }

  /** A `<` at `i` followed by the first `>` at `i + 1 + j` delimits a match. */
  lemma TagFrom(s: String, i: nat, j: nat)
    requires i < |s| && s[i] == '<'
    requires j < |s[i + 1..]| && s[i + 1..][j] == '>' && '>' !in s[i + 1..][..j]
    ensures i + j + 2 <= |s| && IsTag(s[i..i + j + 2]) && !NoTag(s)
  {
    var u := s[i + 1..];
    var t := s[i..i + j + 2];
    assert t[0] == s[i];
    assert t[|t| - 1] == u[j] == s[i + j + 1];
    forall k | 0 <= k < j
      ensures t[1..|t| - 1][k] == u[..j][k]
    {
      assert t[1 + k] == s[i + 1 + k] == u[k];
    }
    assert t[1..|t| - 1] == u[..j];
  }

  function Concat(ts: seq<String>): String {
    if ts == [] then [] else ts[0] + Concat(ts[1..])
  }

  /**
   * The tokens of `s`: text, tag, text, …, text.  Text tokens may be empty;
   * nothing is dropped.
   */
  function Split(s: String): (tokens: seq<String>)
    ensures Concat(tokens) == s
    decreases |s|
  {
    match NextTag(s)
    case None =>
      assert Concat([s]) == s + Concat([]);
      [s]
    case Some((i, j)) =>
      var rest := Split(s[j..]);
      ConcatTwoMore(s[..i], s[i..j], rest);
      Rejoin(s, i, j);
      [s[..i], s[i..j]] + rest
  }

  lemma ConcatTwoMore(a: String, b: String, rest: seq<String>)
    ensures Concat([a, b] + rest) == a + (b + Concat(rest))
  {
    var ts := [a, b] + rest;
    assert ts[1..][1..] == rest;
  }

  lemma Rejoin(s: String, i: nat, j: nat)
    requires i <= j <= |s|
    ensures s[..i] + (s[i..j] + s[j..]) == s
    ensures s[..i] + s[i..j] + s[j..] == s
  {
  }

  /** The split has the shape that `SplitShape` describes. */
  lemma {:induction false} SplitHasShape(s: String)
    ensures SplitShape(s, Split(s))
    decreases |s|
  {
    match NextTag(s)
    case None =>
    case Some((i, j)) =>
      SplitHasShape(s[j..]);
      Rejoin(s, i, j);
      ShapeExtend(s[..i], s[i..j], s[j..], Split(s[j..]));
  }

  /**
   * What a capturing split on `<[^>]*>` produces: the tokens put back
   * together are the input; they alternate text and tag, starting and ending
   * with text; no text token before a tag holds a `<`, and the last one holds
   * no further match.
   */
  predicate SplitShape(s: String, tokens: seq<String>) {
    && Concat(tokens) == s
    && |tokens| % 2 == 1
    && (forall k :: 0 <= k < |tokens| && k % 2 == 1 ==> IsTag(tokens[k]))
    && (forall k :: 0 <= k < |tokens| - 1 && k % 2 == 0 ==> '<' !in tokens[k])
    && NoTag(tokens[|tokens| - 1])
  }

  lemma ShapeExtend(t0: String, t1: String, s: String, rest: seq<String>)
    requires '<' !in t0 && IsTag(t1)
    requires SplitShape(s, rest)
    ensures SplitShape(t0 + t1 + s, [t0, t1] + rest)
  {
    var tokens := [t0, t1] + rest;
    assert tokens[1..][1..] == rest;
    assert Concat(tokens) == t0 + (t1 + Concat(rest));
    forall k | 2 <= k < |tokens| ensures tokens[k] == rest[k - 2] { }
  }

  lemma NextTagOfShape(t0: String, t1: String, rest: String)
    requires '<' !in t0 && IsTag(t1)
    ensures NextTag(t0 + t1 + rest) == Some((|t0|, |t0| + |t1|))
  {
    var s := t0 + t1 + rest;
    var i := |t0|;
    assert s[..i] == t0 && s[i] == '<';
    IndexOfIs(s, '<', i);
    var u := s[i + 1..];
    var j := |t1| - 2;
    assert u[..j] == t1[1..|t1| - 1] && u[j] == '>';
    IndexOfIs(u, '>', j);
  }

  /** The split is the only token sequence of that shape: `SplitShape` specifies it. */
  lemma {:induction false} SplitUnique(s: String, tokens: seq<String>)
    requires SplitShape(s, tokens)
    ensures tokens == Split(s)
    decreases |tokens|
  {
    if |tokens| == 1 {
      assert Concat(tokens) == tokens[0] + Concat([]);
      assert tokens[0] + [] == tokens[0];
      assert tokens == [s];
    } else {
      var t0, t1, more := ShapeTail(s, tokens);
      var rest := Concat(more);
      NextTagOfShape(t0, t1, rest);
      SplitUnique(rest, more);
      assert s[..|t0|] == t0 && s[|t0|..|t0| + |t1|] == t1 && s[|t0| + |t1|..] == rest;
    }
  }

  lemma ShapeTail(s: String, tokens: seq<String>) returns (t0: String, t1: String, more: seq<String>)
    requires SplitShape(s, tokens) && |tokens| > 1
    ensures tokens == [t0, t1] + more
    ensures '<' !in t0 && IsTag(t1) && SplitShape(Concat(more), more)
    ensures s == t0 + t1 + Concat(more)
  {
    t0, t1, more := tokens[0], tokens[1], tokens[2..];
    assert tokens[1..][1..] == more;
    assert Concat(tokens) == t0 + (t1 + Concat(more));
    assert '<' !in tokens[0] && IsTag(tokens[1]);
    forall k | 0 <= k < |more| && k % 2 == 1 ensures IsTag(more[k]) {
      assert more[k] == tokens[k + 2];
    }
    forall k | 0 <= k < |more| - 1 && k % 2 == 0 ensures '<' !in more[k] {
      assert more[k] == tokens[k + 2];
    }
    assert more[|more| - 1] == tokens[|tokens| - 1];
  }

  // ---------------------------------------------------------------------
  // Indentation

  predicate Closes(t: String) {
    StartsWith(t, "</")
  }

  /** A token after which the indent counter rises. */
  predicate Opens(t: String, f: Flavor) {
    && StartsWith(t, "<") && !StartsWith(t, "</") && !EndsWith(t, "/>")
    && (f == Templates ==> !StartsWith(t, "<!"))
  }

  function Step(t: String, f: Flavor): int {
    (if Opens(t, f) then 1 else 0) - (if Closes(t) then 1 else 0)
  }

  /** The indent counter after the tokens have been handled, from 0. */
  function Counter(tokens: seq<String>, f: Flavor): int {
    if tokens == [] then 0
    else Counter(tokens[..|tokens| - 1], f) + Step(tokens[|tokens| - 1], f)
  }

  function Clamp(n: int): nat {
    if n < 0 then 0 else n
  }

  /** One output line: how many two-space units, then the token. */
  datatype Line = Line(depth: nat, token: String)

  /** The depth of a token's line, given the counter before it. */
  function DepthAt(counter: int, t: String): nat {
    Clamp(counter - (if Closes(t) then 1 else 0))
  }

  /**
   * The lines of the formatted output.  Line `k` carries token `k`, indented
   * by the counter of the tokens before it, minus one for a closing tag,
   * clamped at zero.
   */
  function Layout(tokens: seq<String>, f: Flavor): (lines: seq<Line>)
    ensures |lines| == |tokens|
  {
    if tokens == [] then []
    else
      var n := |tokens| - 1;
      Layout(tokens[..n], f) + [Line(DepthAt(Counter(tokens[..n], f), tokens[n]), tokens[n])]
  }

  /**
   * Line `k` carries token `k`, indented by the counter of the tokens before
   * it, less one for a closing tag, and never by a negative amount.
   */
  lemma {:induction false} LayoutAt(tokens: seq<String>, f: Flavor, k: nat)
    requires k < |tokens|
    ensures Layout(tokens, f)[k] == Line(DepthAt(Counter(tokens[..k], f), tokens[k]), tokens[k])
  {
    var n := |tokens| - 1;
    if k < n {
      LayoutAt(tokens[..n], f, k);
      assert tokens[..n][..k] == tokens[..k];
    }
  }

  function Render(lines: seq<Line>): String {
    if lines == [] then []
    else
      var last := lines[|lines| - 1];
      Render(lines[..|lines| - 1]) + Repeat("  ", last.depth) + last.token + "\n"
  }

  /** `formatHtml`: split the markup, then lay the tokens out. */
  method FormatHtml(html: String, f: Flavor) returns (formatted: String)
    ensures formatted == Render(Layout(Split(html), f))
  {
    formatted := FormatTokens(Split(html), f);
  }

  /**
   * The `forEach` loop of `formatHtml`: it keeps the output so far and the
   * indent counter, which drops before a closing tag is written and rises
   * after an opening tag is written.
   */
  method FormatTokens(tokens: seq<String>, f: Flavor) returns (formatted: String)
    ensures formatted == Render(Layout(tokens, f))
  {
    formatted := "";
    var indent := 0;
    var i := 0;
    while i < |tokens|
      invariant 0 <= i <= |tokens|
      invariant indent == Counter(tokens[..i], f)
      invariant formatted == Render(Layout(tokens[..i], f))
    {
      var token := tokens[i];
      ghost var before := indent;
      if Closes(token) {
        indent := indent - 1;
      }
      var pad := if indent < 0 then 0 else indent;
      formatted := formatted + Repeat("  ", pad) + token + "\n";
      if Opens(token, f) {
        indent := indent + 1;
      }
      assert pad == DepthAt(before, token) && indent == before + Step(token, f);
      LayoutStep(tokens, i, f);
      i := i + 1;
    }
    assert tokens[..|tokens|] == tokens;
  }

  /** One more token adds its step to the counter and one line to the output. */
  lemma LayoutStep(tokens: seq<String>, i: nat, f: Flavor)
    requires i < |tokens|
    ensures Counter(tokens[..i + 1], f) == Counter(tokens[..i], f) + Step(tokens[i], f)
    ensures Render(Layout(tokens[..i + 1], f)) ==
      Render(Layout(tokens[..i], f)) + Repeat("  ", DepthAt(Counter(tokens[..i], f), tokens[i])) + tokens[i] + "\n"
  {
    TakeOneMore(tokens, i);
    var line := Line(DepthAt(Counter(tokens[..i], f), tokens[i]), tokens[i]);
    var lines := Layout(tokens[..i + 1], f);
    assert lines == Layout(tokens[..i], f) + [line];
    AppendLast(Layout(tokens[..i], f), line);
  }

  // ---------------------------------------------------------------------
  // Properties of the layout

  function Tokens(lines: seq<Line>): (ts: seq<String>)
    ensures |ts| == |lines|
    ensures forall k :: 0 <= k < |lines| ==> ts[k] == lines[k].token
  {
    if lines == [] then [] else [lines[0].token] + Tokens(lines[1..])
  }

  /**
   * Removing the indentation and the line breaks gives the markup back: the
   * formatter emits every token, in order, once.
   */
  lemma FormatKeepsMarkup(html: String, f: Flavor)
    ensures Concat(Tokens(Layout(Split(html), f))) == html
  {
    var tokens := Split(html);
    forall k | 0 <= k < |tokens| ensures Layout(tokens, f)[k].token == tokens[k] {
      LayoutAt(tokens, f, k);
    }
    assert Tokens(Layout(tokens, f)) == tokens;
  }

  lemma {:induction false} CounterAppend(a: seq<String>, b: seq<String>, f: Flavor)
    ensures Counter(a + b, f) == Counter(a, f) + Counter(b, f)
    decreases |b|
  {
    if b == [] {
      assert a + b == a;
    } else {
      var n := |b| - 1;
      assert (a + b)[..|a + b| - 1] == a + b[..n];
      CounterAppend(a, b[..n], f);
    }
  }

  /**
   * A closing tag lines up with the opening tag it closes: when the tokens
   * between them leave the counter where it was, and the counter was not
   * negative before the opening tag, both lines get the same depth.
   */
  lemma MatchingTagsAlign(tokens: seq<String>, i: nat, j: nat, f: Flavor)
    requires i < j < |tokens|
    requires Opens(tokens[i], f) && Closes(tokens[j])
    requires Counter(tokens[i + 1..j], f) == 0
    requires Counter(tokens[..i], f) >= 0
    ensures Layout(tokens, f)[i].depth == Layout(tokens, f)[j].depth
  {
    assert tokens[..j] == tokens[..i] + [tokens[i]] + tokens[i + 1..j];
    CounterAppend(tokens[..i] + [tokens[i]], tokens[i + 1..j], f);
    CounterAppend(tokens[..i], [tokens[i]], f);
    assert Counter([tokens[i]], f) == 1 by {
      assert [tokens[i]][..0] == [];
    }
    LayoutAt(tokens, f, i);
    LayoutAt(tokens, f, j);
  }

  /**
   * The two copies format alike unless some token starts with `<!`: the
   * templates copy then leaves the counter alone where the static copy
   * raises it (for `<!DOCTYPE …>` and comments not ending in `/>`).
   */
  lemma {:induction false} TemplatesMatchesStaticWithoutDeclarations(tokens: seq<String>)
    requires forall k :: 0 <= k < |tokens| ==> !StartsWith(tokens[k], "<!")
    ensures Layout(tokens, Templates) == Layout(tokens, Static)
  {
    forall k | 0 <= k < |tokens|
      ensures Layout(tokens, Templates)[k] == Layout(tokens, Static)[k]
    {
      CounterFlavors(tokens[..k]);
      LayoutAt(tokens, Templates, k);
      LayoutAt(tokens, Static, k);
    }
  }

  lemma {:induction false} CounterFlavors(tokens: seq<String>)
    requires forall k :: 0 <= k < |tokens| ==> !StartsWith(tokens[k], "<!")
    ensures Counter(tokens, Templates) == Counter(tokens, Static)
  {
    if tokens != [] {
      CounterFlavors(tokens[..|tokens| - 1]);
    }
  }
}
