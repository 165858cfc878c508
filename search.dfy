/**
 * Text search on the "Text" tab: the search term is lower-cased, escaped
 * with `escapeRegExp`, wrapped in a capturing group and applied with the
 * `gi` flags, so every case-insensitive, non-overlapping, leftmost occurrence
 * of the literal term is wrapped in `<mark>…</mark>` with its own casing
 * kept.  An empty term puts the original text back.
 */
module Search {
  import opened Wrappers
  import opened Text

  // ---------------------------------------------------------------------
  // escapeRegExp

  /** The characters of the class `[.*+?^${}()|[\]\\]`. */
  predicate IsMeta(c: char) {
    c in ".*+?^${}()|[]\\"
  }

  function CountMeta(s: String): nat {
    if s == [] then 0 else (if IsMeta(s[0]) then 1 else 0) + CountMeta(s[1..])
  }

  function EscapeChar(c: char): String {
    if IsMeta(c) then ['\\', c] else [c]
  }

  /** `escapeRegExp`: a backslash before every metacharacter, nothing else changed. */
  function Escape(s: String): (r: String)
    ensures |r| == |s| + CountMeta(s)
  {
    if s == [] then [] else EscapeChar(s[0]) + Escape(s[1..])
  }

  /**
   * The string a regular expression built only from ordinary characters and
   * backslash-escaped metacharacters matches; None when it holds an
   * unescaped metacharacter (it would then be read as an operator).
   */
  function LiteralOf(pattern: String): Option<String>
  {
    if pattern == [] then Some([])
    else if pattern[0] == '\\' then
      if |pattern| >= 2 && IsMeta(pattern[1]) then
        match LiteralOf(pattern[2..])
        case Some(rest) => Some([pattern[1]] + rest)
        case None => None
      else None
    else if IsMeta(pattern[0]) then None
    else
      match LiteralOf(pattern[1..])
      case Some(rest) => Some([pattern[0]] + rest)
      case None => None
  }

  /**
   * The escaped term, read as a regular expression, matches exactly the
   * literal term: deleting the inserted backslashes gives it back.
   */
  lemma {:induction false} EscapeIsLiteral(s: String)
    ensures LiteralOf(Escape(s)) == Some(s)
  {
    if s != [] {
      EscapeIsLiteral(s[1..]);
      var e := Escape(s[1..]);
      if IsMeta(s[0]) {
        assert Escape(s) == ['\\', s[0]] + e;
        assert (['\\', s[0]] + e)[2..] == e;
      } else {
        assert Escape(s) == [s[0]] + e;
        assert ([s[0]] + e)[1..] == e;
      }
      assert [s[0]] + s[1..] == s;
    }
  }

  /** Escaping changes nothing in a term without metacharacters. */
  lemma {:induction false} EscapeWithoutMeta(s: String)
    requires CountMeta(s) == 0
    ensures Escape(s) == s
  {
    if s != [] {
      EscapeWithoutMeta(s[1..]);
      assert [s[0]] + s[1..] == s;
    }
  }

  /** A term whose regular expression is not literal: `.` stands for any character. */
  lemma RawDotIsNotLiteral()
    ensures LiteralOf("a.b") == None
    ensures LiteralOf(Escape("a.b")) == Some("a.b")
  {
    assert "a.b"[1..] == ".b";
    EscapeIsLiteral("a.b");
  }

  // ---------------------------------------------------------------------
  // Highlighting

  /** Does the term occur, ignoring case, at position `i` of the text? */
  predicate MatchAt(text: String, term: String, i: nat) {
    i + |term| <= |text| && SameIgnoringCase(text[i..i + |term|], term)
  }

  /** A piece of the scanned text: a character left alone, or an occurrence to mark. */
  datatype Piece = Plain(c: char) | Hit(s: String)

  function PieceText(p: Piece): String {
    match p
    case Plain(c) => [c]
    case Hit(s) => s
  }

  function PieceMarkup(p: Piece): String {
    match p
    case Plain(c) => [c]
    case Hit(s) => "<mark>" + s + "</mark>"
  }

  /** The text the pieces cover. */
  function Flatten(pieces: seq<Piece>): String {
    if pieces == [] then [] else PieceText(pieces[0]) + Flatten(pieces[1..])
  }

  function Markup(pieces: seq<Piece>): String {
    if pieces == [] then [] else PieceMarkup(pieces[0]) + Markup(pieces[1..])
  }

  predicate HasHit(pieces: seq<Piece>) {
    exists k :: 0 <= k < |pieces| && pieces[k].Hit?
  }

  /**
   * The global, case-insensitive scan of `String.replace`: at each position
   * an occurrence of the term is taken whole and the scan resumes after it;
   * otherwise one character is passed over.
   */
  function Scan(text: String, term: String): (pieces: seq<Piece>)
    requires term != []
    ensures Flatten(pieces) == text
    ensures |pieces| <= |text|
    decreases |text|
  {
    if text == [] then []
    else if MatchAt(text, term, 0) then
      var rest := Scan(text[|term|..], term);
      assert text == text[..|term|] + text[|term|..];
      [Hit(text[..|term|])] + rest
    else
      var rest := Scan(text[1..], term);
      assert text == [text[0]] + text[1..];
      [Plain(text[0])] + rest
  }

  /** The text with every occurrence of the term wrapped in `<mark>…</mark>`. */
  function Highlight(text: String, term: String): String
    requires term != []
  {
    Markup(Scan(text, term))
  }

  lemma MatchAtShift(text: String, term: String, d: nat, i: nat)
    requires d <= |text|
    ensures MatchAt(text, term, d + i) == MatchAt(text[d..], term, i)
  {
    if d + i + |term| <= |text| {
      assert text[d + i..d + i + |term|] == text[d..][i..i + |term|];
    }
  }

  /** The first piece of a scan covers `d` characters, and the rest is scanned after them. */
  lemma ScanStep(text: String, term: String) returns (d: nat)
    requires term != [] && text != []
    ensures 1 <= d <= |text|
    ensures |PieceText(Scan(text, term)[0])| == d
    ensures Scan(text, term) == [Scan(text, term)[0]] + Scan(text[d..], term)
    ensures Scan(text, term)[0].Hit? <==> MatchAt(text, term, 0)
    ensures Scan(text, term)[0].Hit? ==> Scan(text, term)[0].s == text[..d]
  {
    d := if MatchAt(text, term, 0) then |term| else 1;
  }

  /** Every marked piece is an occurrence of the term, case ignored. */
  lemma {:induction false} ScanHitsMatch(text: String, term: String)
    requires term != []
    ensures forall k :: 0 <= k < |Scan(text, term)| && Scan(text, term)[k].Hit? ==> SameIgnoringCase(Scan(text, term)[k].s, term)
    decreases |text|
  {
    if text != [] {
      var d := ScanStep(text, term);
      ScanHitsMatch(text[d..], term);
      var pieces, rest := Scan(text, term), Scan(text[d..], term);
      forall k | 0 <= k < |pieces| && pieces[k].Hit?
        ensures SameIgnoringCase(pieces[k].s, term)
      {
        if k == 0 {
          assert text[0..|term|] == text[..d];
        } else {
          assert pieces[k] == rest[k - 1];
        }
      }
    }
  }

  lemma {:induction false} HitMeansOccurrence(text: String, term: String)
    requires term != [] && HasHit(Scan(text, term))
    ensures exists i: nat | i <= |text| :: MatchAt(text, term, i)
    decreases |text|
  {
    var pieces := Scan(text, term);
    var d := ScanStep(text, term);
    HasHitCons(pieces);
    if pieces[0].Hit? {
      assert MatchAt(text, term, 0);
    } else {
      assert pieces[1..] == Scan(text[d..], term);
      HitMeansOccurrence(text[d..], term);
      var i: nat :| i <= |text[d..]| && MatchAt(text[d..], term, i);
      MatchAtShift(text, term, d, i);
      assert MatchAt(text, term, d + i);
    }
  }

  lemma {:induction false} OccurrenceMeansHit(text: String, term: String, i: nat)
    requires term != [] && i <= |text| && MatchAt(text, term, i)
    ensures HasHit(Scan(text, term))
    decreases |text|
  {
    var pieces := Scan(text, term);
    var d := ScanStep(text, term);
    HasHitCons(pieces);
    if !pieces[0].Hit? {
      assert d == |PieceText(pieces[0])| == 1;
      MatchAtShift(text, term, 1, i - 1);
      assert pieces[1..] == Scan(text[1..], term);
      OccurrenceMeansHit(text[1..], term, i - 1);
    }
  }

  lemma HasHitCons(pieces: seq<Piece>)
    requires pieces != []
    ensures HasHit(pieces) <==> pieces[0].Hit? || HasHit(pieces[1..])
  {
    if HasHit(pieces) && !pieces[0].Hit? {
      var k :| 0 <= k < |pieces| && pieces[k].Hit?;
      assert pieces[1..][k - 1] == pieces[k];
    }
    if HasHit(pieces[1..]) {
      var k :| 0 <= k < |pieces[1..]| && pieces[1..][k].Hit?;
      assert pieces[k + 1] == pieces[1..][k];
    }
  }

  /**
   * A piece is marked exactly when the text holds the term: the scan finds
   * an occurrence whenever there is one.
   */
  lemma {:induction false} ScanFindsOccurrence(text: String, term: String)
    requires term != []
    ensures HasHit(Scan(text, term)) <==> exists i: nat | i <= |text| :: MatchAt(text, term, i)
  {
    if HasHit(Scan(text, term)) {
      HitMeansOccurrence(text, term);
    }
    if exists i: nat | i <= |text| :: MatchAt(text, term, i) {
      var i: nat :| i <= |text| && MatchAt(text, term, i);
      OccurrenceMeansHit(text, term, i);
    }
  }

  /** Where piece `k` starts in the text. */
  function Offset(pieces: seq<Piece>, k: nat): nat
    requires k <= |pieces|
  {
    |Flatten(pieces[..k])|
  }

  lemma FlattenCons(p: Piece, rest: seq<Piece>, k: nat)
    requires k <= |rest|
    ensures Flatten(([p] + rest)[..k + 1]) == PieceText(p) + Flatten(rest[..k])
  {
    assert ([p] + rest)[..k + 1] == [p] + rest[..k];
    assert ([p] + rest[..k])[1..] == rest[..k];
  }

  /** Piece k of a scan is piece k - 1 of the scan after the first piece, `d` characters further on. */
  lemma OffsetStep(text: String, term: String, k: nat) returns (d: nat)
    requires term != [] && 0 < k < |Scan(text, term)|
    ensures 1 <= d <= |text| && k - 1 < |Scan(text[d..], term)|
    ensures Scan(text[d..], term)[k - 1] == Scan(text, term)[k]
    ensures Offset(Scan(text, term), k) == d + Offset(Scan(text[d..], term), k - 1)
  {
    d := ScanStep(text, term);
    var pieces, rest := Scan(text, term), Scan(text[d..], term);
    FlattenCons(pieces[0], rest, k - 1);
  }

  /**
   * Leftmost and complete: no occurrence of the term starts at a character
   * the scan left unmarked.  With the pieces covering the text and every
   * marked piece being an occurrence, this pins down the scan.
   */
  lemma {:induction false} ScanIsLeftmost(text: String, term: String, k: nat)
    requires term != []
    requires k < |Scan(text, term)| && Scan(text, term)[k].Plain?
    ensures !MatchAt(text, term, Offset(Scan(text, term), k))
    decreases |text|
  {
    if k == 0 {
      FirstPlainNoMatch(text, term);
    } else {
      var d := OffsetStep(text, term, k);
      ScanIsLeftmost(text[d..], term, k - 1);
      NoMatchShifted(text, term, d, Offset(Scan(text[d..], term), k - 1), Offset(Scan(text, term), k));
    }
  }

  /** No match `j` characters into `text[d..]` means none at position `d + j` of `text`. */
  lemma NoMatchShifted(text: String, term: String, d: nat, j: nat, o: nat)
    requires d <= |text| && o == d + j && !MatchAt(text[d..], term, j)
    ensures !MatchAt(text, term, o)
  {
    MatchAtShift(text, term, d, j);
  }

  /** A scan that starts with an unmarked character has no occurrence at position 0. */
  lemma FirstPlainNoMatch(text: String, term: String)
    requires term != [] && |Scan(text, term)| > 0 && Scan(text, term)[0].Plain?
    ensures !MatchAt(text, term, Offset(Scan(text, term), 0))
  {
    var d := ScanStep(text, term);
    assert Scan(text, term)[..0] == [];
  }

  // ---------------------------------------------------------------------
  // The text-search input handlers

  /** What the text panel shows: plain text, or markup with `<mark>` elements. */
  datatype TextView = PlainText(text: String) | MarkedUp(html: String)

  /**
   * The original text: the `data-original` attribute, or, when that is
   * empty, what the panel currently shows.
   */
  function OriginalText(dataOriginal: String, shown: String): String {
    if dataOriginal != [] then dataOriginal else shown
  }

  /** The static script's handler: an escaped, case-insensitive search. */
  function SearchText(dataOriginal: String, shown: String, input: String): TextView {
    var term := Lower(input);
    var original := OriginalText(dataOriginal, shown);
    if term == [] then PlainText(original)
    else
      EscapeIsLiteral(term);
      MarkedUp(Highlight(original, term))
  }

  /**
   * The templates script's handler builds the regular expression from the
   * raw term.  The model reads it only when the term has no metacharacter;
   * otherwise it answers None (a general regular expression, not modelled).
   */
  function TemplatesSearchText(dataOriginal: String, shown: String, input: String): Option<TextView> {
    var term := Lower(input);
    var original := OriginalText(dataOriginal, shown);
    if term == [] then Some(PlainText(original))
    else if LiteralOf(term) == Some(term) then Some(MarkedUp(Highlight(original, term)))
    else None
  }

  /** An empty search restores the original text. */
  lemma EmptySearchRestores(dataOriginal: String, shown: String)
    ensures SearchText(dataOriginal, shown, "") == PlainText(OriginalText(dataOriginal, shown))
  {
  }

  /**
   * A non-empty search shows the original text, with the occurrences of the
   * term (case ignored) marked and nothing else changed.
   */
  lemma SearchMarksOccurrences(dataOriginal: String, shown: String, input: String)
    requires input != []
    ensures var term := Lower(input);
            var pieces := Scan(OriginalText(dataOriginal, shown), term);
            && SearchText(dataOriginal, shown, input) == MarkedUp(Markup(pieces))
            && Flatten(pieces) == OriginalText(dataOriginal, shown)
            && forall k :: 0 <= k < |pieces| && pieces[k].Hit? ==> SameIgnoringCase(pieces[k].s, term)
  {
    assert |Lower(input)| == |input|;
    ScanHitsMatch(OriginalText(dataOriginal, shown), Lower(input));
  }

  /**
   * For a term without metacharacters the two scripts show the same thing;
   * escaping matters only when the term has them.
   */
  lemma {:induction false} TemplatesAgreesOnPlainTerms(dataOriginal: String, shown: String, input: String)
    requires CountMeta(Lower(input)) == 0
    ensures TemplatesSearchText(dataOriginal, shown, input) == Some(SearchText(dataOriginal, shown, input))
  {
    var term := Lower(input);
    EscapeWithoutMeta(term);
    EscapeIsLiteral(term);
  }
}
