/**
 * The results panels of the template-served script (templates/script.js).
 * Its link test treats root-relative and fragment links as internal and
 * otherwise compares hosts through `new URL`, which may throw; its text
 * filters skip a missing text or alt instead of throwing.
 *
 * A filter returns None where the panel is left as it was: the early
 * return on an empty list, or an exception thrown before anything is
 * re-rendered.
 */
module TemplatesResults {
  import opened Wrappers
  import opened Text
  import opened Sequences
  import opened ScrapeModel
  import StaticResults

  /**
   * The internal test of populateLinksTable and filterLinks: Some(true) for
   * an internal link, Some(false) for an external one, None where the test
   * throws — the link or the page URL does not parse, or there is no
   * current result (`origin` None).
   */
  function IsInternal(parse: UrlParser, origin: Option<String>, url: String): (r: Option<bool>)
    ensures r.None? <==> (!StartsWith(url, "/") && !StartsWith(url, "#") &&
      (parse(url).None? || origin.None? || parse(origin.value).None?))
    ensures r == Some(true) <==> (StartsWith(url, "/") || StartsWith(url, "#") ||
      (parse(url).Some? && origin.Some? && parse(origin.value).Some? &&
       parse(url).value.hostname == parse(origin.value).value.hostname))
  {
    if StartsWith(url, "/") || StartsWith(url, "#") then Some(true)
    else if parse(url).None? || origin.None? || parse(origin.value).None? then None
    else Some(parse(url).value.hostname == parse(origin.value).value.hostname)
  }

  function Classifier(parse: UrlParser, origin: Option<String>): Link -> Option<bool> {
    (l: Link) => IsInternal(parse, origin, l.url)
  }

  /** Some link of the list makes the internal test throw. */
  predicate AnyThrows(parse: UrlParser, origin: Option<String>, links: seq<Link>) {
    exists i :: 0 <= i < |links| && IsInternal(parse, origin, links[i].url).None?
  }

  /**
   * filterLinks(type): 'internal' keeps the links that pass the test,
   * 'external' those that fail it (its condition is the exact negation);
   * any other type shows every link.
   */
  function FilterLinks(parse: UrlParser, origin: Option<String>, links: seq<Link>, mode: String): (r: Option<seq<Link>>)
    ensures r.None? <==> links == [] || ((mode == "internal" || mode == "external") && AnyThrows(parse, origin, links))
    ensures r.Some? && (mode == "internal" || mode == "external") ==>
      forall i :: 0 <= i < |r.value| ==> IsInternal(parse, origin, r.value[i].url) == Some(mode == "internal")
    ensures r.Some? && (mode == "internal" || mode == "external") ==>
      forall i :: 0 <= i < |links| && IsInternal(parse, origin, links[i].url) == Some(mode == "internal") ==>
        links[i] in r.value
    ensures r.Some? && (mode == "internal" || mode == "external") ==>
      Filtered(r.value, links, Is(Classifier(parse, origin), Some(mode == "internal")))
    ensures r.Some? && mode != "internal" && mode != "external" ==> r.value == links
  {
    if links == [] then None
    else if mode == "internal" || mode == "external" then
      if AnyThrows(parse, origin, links) then None
      else
        KeepMembers(links, Is(Classifier(parse, origin), Some(mode == "internal")));
        KeepIsFiltered(links, Is(Classifier(parse, origin), Some(mode == "internal")));
        Some(Keep(links, Is(Classifier(parse, origin), Some(mode == "internal"))))
    else Some(links)
  }

  /**
   * When the test throws for no link, the internal and the external views
   * together hold every link exactly as often as the full list.
   */
  lemma FilterLinksPartition(parse: UrlParser, origin: Option<String>, links: seq<Link>)
    requires links != [] && !AnyThrows(parse, origin, links)
    ensures multiset(FilterLinks(parse, origin, links, "internal").value)
          + multiset(FilterLinks(parse, origin, links, "external").value) == multiset(links)
  {
    var f := Classifier(parse, origin);
    assert forall i :: 0 <= i < |links| ==> f(links[i]) == Some(true) || f(links[i]) == Some(false) || f(links[i]) == None;
    KeepPartition3(links, f, Some(true), Some(false), None);
    KeepNone(links, Is(f, None));
    FilterLinksKeeps(parse, origin, links, "internal");
    FilterLinksKeeps(parse, origin, links, "external");
  }

  lemma FilterLinksKeeps(parse: UrlParser, origin: Option<String>, links: seq<Link>, mode: String)
    requires links != [] && !AnyThrows(parse, origin, links) && (mode == "internal" || mode == "external")
    ensures FilterLinks(parse, origin, links, mode).value == Keep(links, Is(Classifier(parse, origin), Some(mode == "internal")))
  {
  }

  /**
   * On absolute links that parse, next to a page URL that parses, the two
   * scripts classify alike: internal here exactly when internal there.
   */
  lemma AgreesWithStaticOnAbsoluteLinks(parse: UrlParser, origin: String, url: String)
    requires origin != [] && parse(origin).Some? && parse(url).Some?
    requires !StartsWith(url, "/") && !StartsWith(url, "#")
    ensures IsInternal(parse, Some(origin), url).Some?
    ensures IsInternal(parse, Some(origin), url).value <==>
      StaticResults.ClassifyLink(parse, origin, url) == StaticResults.Internal
  {
  }

  // ---------------------------------------------------------------------
  // Free-text filters

  /** `(field && field.toLowerCase().includes(term.toLowerCase()))`: a missing or empty field never matches. */
  predicate FieldMatches(field: Option<String>, term: String) {
    field.Some? && field.value != [] && ContainsIgnoringCase(field.value, term)
  }

  function LinkMatches(term: String): Link -> bool {
    (l: Link) => FieldMatches(l.text, term) || ContainsIgnoringCase(l.url, term)
  }

  function ImageMatches(term: String): Image -> bool {
    (im: Image) => FieldMatches(im.alt, term) || ContainsIgnoringCase(im.src, term)
  }

  /** filterLinksBySearch: never throws; a link without text can still match on its url. */
  function FilterLinksBySearch(links: seq<Link>, term: String): (r: Option<seq<Link>>)
    ensures r.None? <==> links == []
    ensures r.Some? ==> forall i :: 0 <= i < |r.value| ==> r.value[i] in links && LinkMatches(term)(r.value[i])
    ensures r.Some? ==> forall i :: 0 <= i < |links| && LinkMatches(term)(links[i]) ==> links[i] in r.value
    ensures r.Some? ==> Filtered(r.value, links, LinkMatches(term))
  {
    if links == [] then None
    else
      KeepMembers(links, LinkMatches(term));
      KeepIsFiltered(links, LinkMatches(term));
      Some(Keep(links, LinkMatches(term)))
  }

  /** filterImagesBySearch: never throws; an image without alt can still match on its source. */
  function FilterImagesBySearch(images: seq<Image>, term: String): (r: Option<seq<Image>>)
    ensures r.None? <==> images == []
    ensures r.Some? ==> forall i :: 0 <= i < |r.value| ==> r.value[i] in images && ImageMatches(term)(r.value[i])
    ensures r.Some? ==> forall i :: 0 <= i < |images| && ImageMatches(term)(images[i]) ==> images[i] in r.value
    ensures r.Some? ==> Filtered(r.value, images, ImageMatches(term))
  {
    if images == [] then None
    else
      KeepMembers(images, ImageMatches(term));
      KeepIsFiltered(images, ImageMatches(term));
      Some(Keep(images, ImageMatches(term)))
  }

  lemma EmptyContainsOnlyEmpty(t: String)
    requires ContainsIgnoringCase([], t)
    ensures t == []
  {
    var i: nat :| i <= 0 && OccursAt(Lower([]), Lower(t), i);
  }

  /** Wherever a field is present it matches here exactly when it matches in the static script. */
  lemma FieldMatchesLikeStatic(s: String, other: String, term: String)
    ensures (FieldMatches(Some(s), term) || ContainsIgnoringCase(other, term)) ==
            (ContainsIgnoringCase(s, term) || ContainsIgnoringCase(other, term))
  {
    if s == [] && ContainsIgnoringCase(s, term) {
      EmptyContainsOnlyEmpty(term);
      StaticResults.EverythingContainsEmpty(other);
    }
  }

  /**
   * Where every link has a text, both scripts' link searches show the same
   * list: the null guard only matters for links without text.
   */
  lemma LinkSearchAgreesWithStatic(links: seq<Link>, term: String)
    requires forall i :: 0 <= i < |links| ==> links[i].text.Some?
    ensures FilterLinksBySearch(links, term) == StaticResults.FilterLinksBySearch(links, term)
  {
    forall i | 0 <= i < |links|
      ensures LinkMatches(term)(links[i]) == StaticResults.LinkMatches(term)(links[i])
    {
      FieldMatchesLikeStatic(links[i].text.value, links[i].url, term);
    }
    KeepCongruent(links, LinkMatches(term), StaticResults.LinkMatches(term));
  }

  /** The same agreement for image searches where every image has alt text. */
  lemma ImageSearchAgreesWithStatic(images: seq<Image>, term: String)
    requires forall i :: 0 <= i < |images| ==> images[i].alt.Some?
    ensures FilterImagesBySearch(images, term) == StaticResults.FilterImagesBySearch(images, term)
  {
    forall i | 0 <= i < |images|
      ensures ImageMatches(term)(images[i]) == StaticResults.ImageMatches(term)(images[i])
    {
      FieldMatchesLikeStatic(images[i].alt.value, images[i].src, term);
    }
    KeepCongruent(images, ImageMatches(term), StaticResults.ImageMatches(term));
  }

  // ---------------------------------------------------------------------
  // The links table

  datatype Row =
    | LinkRow(text: String, url: String, internal: bool)
    | MoreRow(hidden: nat)
    | NoLinksRow

  /** The rows a render appended, and whether it ran to the end without throwing. */
  datatype Table = Table(rows: seq<Row>, complete: bool)

  /** `link.text || 'No text'`. */
  function TextCell(text: Option<String>): String {
    if text.Some? && text.value != [] then text.value else "No text"
  }

  /** The forEach over the shown links: rows are appended until the first link whose test throws. */
  function ShownRows(parse: UrlParser, origin: Option<String>, links: seq<Link>): Table {
    if links == [] then Table([], true)
    else match IsInternal(parse, origin, links[0].url)
      case None => Table([], false)
      case Some(internal) =>
        var rest := ShownRows(parse, origin, links[1..]);
        Table([LinkRow(TextCell(links[0].text), links[0].url, internal)] + rest.rows, rest.complete)
  }

  /** populateLinksTable: at most 100 link rows, then a row counting the rest. */
  function LinksTable(parse: UrlParser, origin: Option<String>, links: seq<Link>): Table {
    if links == [] then Table([NoLinksRow], true)
    else
      var shown := ShownRows(parse, origin, links[..Min(|links|, 100)]);
      if shown.complete && |links| > 100 then Table(shown.rows + [MoreRow(|links| - 100)], true)
      else shown
  }

  /**
   * The render stops exactly at the first link whose test throws: the rows
   * before it are the links in order, and it completes exactly when no
   * link throws.
   */
  lemma {:induction false} ShownRowsStopAtFirstThrow(parse: UrlParser, origin: Option<String>, links: seq<Link>)
    ensures var t := ShownRows(parse, origin, links);
      |t.rows| <= |links| &&
      (t.complete <==> !AnyThrows(parse, origin, links)) &&
      (t.complete ==> |t.rows| == |links|) &&
      (!t.complete ==> |t.rows| < |links| && IsInternal(parse, origin, links[|t.rows|].url).None?) &&
      RowsOfLinks(parse, origin, links, t.rows)
  {
    if links != [] {
      var rest := links[1..];
      ShownRowsStopAtFirstThrow(parse, origin, rest);
      AnyThrowsCons(parse, origin, links);
      if IsInternal(parse, origin, links[0].url).Some? {
        var r := ShownRows(parse, origin, rest);
        var row := LinkRow(TextCell(links[0].text), links[0].url, IsInternal(parse, origin, links[0].url).value);
        assert ShownRows(parse, origin, links) == Table([row] + r.rows, r.complete);
        RowsOfLinksCons(parse, origin, links, row, r.rows);
      }
    }
  }

  /**
   * The table is complete exactly when the link test throws for none of
   * the first 100 links; an empty list completes with its placeholder row.
   */
  lemma LinksTableCompletes(parse: UrlParser, origin: Option<String>, links: seq<Link>)
    ensures LinksTable(parse, origin, links).complete <==> !AnyThrows(parse, origin, links[..Min(|links|, 100)])
  {
    if links != [] {
      ShownRowsStopAtFirstThrow(parse, origin, links[..Min(|links|, 100)]);
    }
  }

  /** Row k shows link k, whose classification did not throw. */
  predicate RowsOfLinks(parse: UrlParser, origin: Option<String>, links: seq<Link>, rows: seq<Row>) {
    |rows| <= |links| &&
    forall k :: 0 <= k < |rows| ==>
      IsInternal(parse, origin, links[k].url).Some? &&
      rows[k] == LinkRow(TextCell(links[k].text), links[k].url, IsInternal(parse, origin, links[k].url).value)
  }

  lemma RowsOfLinksCons(parse: UrlParser, origin: Option<String>, links: seq<Link>, row: Row, rows: seq<Row>)
    requires links != [] && IsInternal(parse, origin, links[0].url).Some?
    requires row == LinkRow(TextCell(links[0].text), links[0].url, IsInternal(parse, origin, links[0].url).value)
    requires RowsOfLinks(parse, origin, links[1..], rows)
    ensures RowsOfLinks(parse, origin, links, [row] + rows)
  {
    var all := [row] + rows;
    forall k | 0 <= k < |all|
      ensures IsInternal(parse, origin, links[k].url).Some? &&
        all[k] == LinkRow(TextCell(links[k].text), links[k].url, IsInternal(parse, origin, links[k].url).value)
    {
      if k > 0 {
        assert all[k] == rows[k - 1];
        assert links[k] == links[1..][k - 1];
      }
    }
  }

  lemma AnyThrowsCons(parse: UrlParser, origin: Option<String>, links: seq<Link>)
    requires links != []
    ensures AnyThrows(parse, origin, links) <==>
      IsInternal(parse, origin, links[0].url).None? || AnyThrows(parse, origin, links[1..])
  {
    if AnyThrows(parse, origin, links) && IsInternal(parse, origin, links[0].url).Some? {
      var i :| 0 <= i < |links| && IsInternal(parse, origin, links[i].url).None?;
      assert links[1..][i - 1] == links[i];
    }
    if AnyThrows(parse, origin, links[1..]) {
      var i :| 0 <= i < |links[1..]| && IsInternal(parse, origin, links[1..][i].url).None?;
      assert links[i + 1] == links[1..][i];
    }
  }

  /** A table that completes shows the first hundred links and counts the others. */
  lemma LinksTableWhenNothingThrows(parse: UrlParser, origin: Option<String>, links: seq<Link>)
    requires links != []
    requires !AnyThrows(parse, origin, links[..Min(|links|, 100)])
    ensures var t := LinksTable(parse, origin, links);
      t.complete &&
      |t.rows| == Min(|links|, 100) + (if |links| > 100 then 1 else 0) &&
      (forall k :: 0 <= k < Min(|links|, 100) ==> t.rows[k].LinkRow? && t.rows[k].url == links[k].url) &&
      (|links| > 100 ==> t.rows[100] == MoreRow(|links| - 100))
  {
    ShownRowsStopAtFirstThrow(parse, origin, links[..Min(|links|, 100)]);
  }
}
