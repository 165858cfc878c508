/**
 * The results panels of the flat single-page script (static/script.js):
 * link classification, the links table with its 100-row cap, the
 * internal/external filter and the free-text filters over links and images.
 *
 * A filter returns None where the panel is left as it was: the early
 * return on an empty list, or a TypeError thrown before anything is
 * re-rendered (a link without text, an image without alt).
 */
module StaticResults {
  import opened Wrappers
  import opened Text
  import opened Sequences
  import opened ScrapeModel

  datatype LinkType = Internal | External | Anchor

  /** The label and CSS class of the type column. */
  function LinkTypeName(t: LinkType): String {
    match t
    case Internal => "internal"
    case External => "external"
    case Anchor => "anchor"
  }

  /**
   * classifyLink. `origin` is the url of the current result, "" when there
   * is no current result (the optional chain yields a falsy value).
   */
  function ClassifyLink(parse: UrlParser, origin: String, url: String): (r: LinkType)
    ensures origin == [] ==> r == External
    ensures r == Internal <==> (origin != [] && parse(origin).Some? && parse(url).Some? &&
      parse(url).value.hostname == parse(origin).value.hostname)
    ensures r == Anchor <==> origin != [] && (parse(origin).None? || parse(url).None?) && StartsWith(url, "#")
  {
    if origin == [] then External
    else if parse(origin).Some? && parse(url).Some? then
      if parse(url).value.hostname == parse(origin).value.hostname then Internal else External
    else if StartsWith(url, "#") then Anchor
    else External
  }

  function Classifier(parse: UrlParser, origin: String): Link -> LinkType {
    (l: Link) => ClassifyLink(parse, origin, l.url)
  }

  function OfType(parse: UrlParser, origin: String, t: LinkType): Link -> bool {
    Is(Classifier(parse, origin), t)
  }

  /**
   * filterLinks(type): 'internal' and 'external' keep the links of that
   * class; any other type shows every link, anchors included.
   */
  function FilterLinks(parse: UrlParser, origin: String, links: seq<Link>, mode: String): (r: Option<seq<Link>>)
    ensures r.None? <==> links == []
    ensures r.Some? && mode == "internal" ==>
      forall i :: 0 <= i < |r.value| ==> ClassifyLink(parse, origin, r.value[i].url) == Internal
    ensures r.Some? && mode == "external" ==>
      forall i :: 0 <= i < |r.value| ==> ClassifyLink(parse, origin, r.value[i].url) == External
    ensures r.Some? && mode == "internal" ==>
      forall i :: 0 <= i < |links| && ClassifyLink(parse, origin, links[i].url) == Internal ==> links[i] in r.value
    ensures r.Some? && mode == "external" ==>
      forall i :: 0 <= i < |links| && ClassifyLink(parse, origin, links[i].url) == External ==> links[i] in r.value
    ensures r.Some? && mode == "internal" ==> Filtered(r.value, links, OfType(parse, origin, Internal))
    ensures r.Some? && mode == "external" ==> Filtered(r.value, links, OfType(parse, origin, External))
    ensures r.Some? && mode != "internal" && mode != "external" ==> r.value == links
  {
    if links == [] then None
    else if mode == "internal" then
      KeepMembers(links, OfType(parse, origin, Internal));
      KeepIsFiltered(links, OfType(parse, origin, Internal));
      Some(Keep(links, OfType(parse, origin, Internal)))
    else if mode == "external" then
      KeepMembers(links, OfType(parse, origin, External));
      KeepIsFiltered(links, OfType(parse, origin, External));
      Some(Keep(links, OfType(parse, origin, External)))
    else Some(links)
  }

  /**
   * The internal view, the external view and the anchors between them hold
   * every link exactly as often as the full list does: anchors are the links
   * that only the "all" view shows.
   */
  lemma FilterLinksPartition(parse: UrlParser, origin: String, links: seq<Link>)
    ensures multiset(Keep(links, OfType(parse, origin, Internal)))
          + multiset(Keep(links, OfType(parse, origin, External)))
          + multiset(Keep(links, OfType(parse, origin, Anchor))) == multiset(links)
  {
    KeepPartition3(links, Classifier(parse, origin), Internal, External, Anchor);
  }

  /** Every filtered view lists its links in their original order. */
  lemma FilterLinksKeepsOrder(parse: UrlParser, origin: String, links: seq<Link>, mode: String)
    requires links != []
    ensures IsSubsequence(FilterLinks(parse, origin, links, mode).value, links)
  {
    if mode == "internal" {
      KeepIsSubsequence(links, OfType(parse, origin, Internal));
    } else if mode == "external" {
      KeepIsSubsequence(links, OfType(parse, origin, External));
    } else {
      SubsequenceOfItself(links);
    }
  }

  lemma {:induction false} SubsequenceOfItself<T>(xs: seq<T>)
    ensures IsSubsequence(xs, xs)
  {
    if xs != [] {
      SubsequenceOfItself(xs[1..]);
    }
  }

  // ---------------------------------------------------------------------
  // Free-text filters

  function LinkMatches(term: String): Link -> bool {
    (l: Link) => l.text.Some? && (ContainsIgnoringCase(l.text.value, term) || ContainsIgnoringCase(l.url, term))
  }

  /**
   * filterLinksBySearch: the links whose text or url contains the term, case
   * aside. A link without text makes the filter throw.
   */
  function FilterLinksBySearch(links: seq<Link>, term: String): (r: Option<seq<Link>>)
    ensures r.None? <==> links == [] || exists i :: 0 <= i < |links| && links[i].text.None?
    ensures r.Some? ==> forall i :: 0 <= i < |r.value| ==>
      r.value[i] in links &&
      (ContainsIgnoringCase(r.value[i].text.value, term) || ContainsIgnoringCase(r.value[i].url, term))
    ensures r.Some? ==> forall i ::
      (0 <= i < |links| && (ContainsIgnoringCase(links[i].text.value, term) || ContainsIgnoringCase(links[i].url, term)))
      ==> links[i] in r.value
    ensures r.Some? ==> Filtered(r.value, links, LinkMatches(term))
  {
    if links == [] || exists i :: 0 <= i < |links| && links[i].text.None? then None
    else
      KeepMembers(links, LinkMatches(term));
      KeepIsFiltered(links, LinkMatches(term));
      Some(Keep(links, LinkMatches(term)))
  }

  function ImageMatches(term: String): Image -> bool {
    (im: Image) => im.alt.Some? && (ContainsIgnoringCase(im.alt.value, term) || ContainsIgnoringCase(im.src, term))
  }

  /**
   * filterImagesBySearch: the images whose alt text or source contains the
   * term, case aside. An image without alt text makes the filter throw.
   */
  function FilterImagesBySearch(images: seq<Image>, term: String): (r: Option<seq<Image>>)
    ensures r.None? <==> images == [] || exists i :: 0 <= i < |images| && images[i].alt.None?
    ensures r.Some? ==> forall i :: 0 <= i < |r.value| ==>
      r.value[i] in images &&
      (ContainsIgnoringCase(r.value[i].alt.value, term) || ContainsIgnoringCase(r.value[i].src, term))
    ensures r.Some? ==> forall i ::
      (0 <= i < |images| && (ContainsIgnoringCase(images[i].alt.value, term) || ContainsIgnoringCase(images[i].src, term)))
      ==> images[i] in r.value
    ensures r.Some? ==> Filtered(r.value, images, ImageMatches(term))
  {
    if images == [] || exists i :: 0 <= i < |images| && images[i].alt.None? then None
    else
      KeepMembers(images, ImageMatches(term));
      KeepIsFiltered(images, ImageMatches(term));
      Some(Keep(images, ImageMatches(term)))
  }

  lemma EverythingContainsEmpty(s: String)
    ensures ContainsIgnoringCase(s, [])
  {
    assert OccursAt(Lower(s), Lower([]), 0);
  }

  /** Clearing the search box lists every link again. */
  lemma EmptyLinkSearchShowsAll(links: seq<Link>)
    requires links != [] && forall i :: 0 <= i < |links| ==> links[i].text.Some?
    ensures FilterLinksBySearch(links, []) == Some(links)
  {
    forall l | l in links
      ensures LinkMatches([])(l)
    {
      EverythingContainsEmpty(l.url);
    }
    KeepAll(links, LinkMatches([]));
  }

  /** Clearing the search box lists every image again. */
  lemma EmptyImageSearchShowsAll(images: seq<Image>)
    requires images != [] && forall i :: 0 <= i < |images| ==> images[i].alt.Some?
    ensures FilterImagesBySearch(images, []) == Some(images)
  {
    forall im | im in images
      ensures ImageMatches([])(im)
    {
      EverythingContainsEmpty(im.src);
    }
    KeepAll(images, ImageMatches([]));
  }

  // ---------------------------------------------------------------------
  // The links table

  datatype Row =
    | LinkRow(text: String, url: String, kind: LinkType)
    | MoreRow(hidden: nat)
    | NoLinksRow

  /** `${link.text}` prints a missing text as "undefined". */
  function TextCell(text: Option<String>): String {
    text.GetOr("undefined")
  }

  function RowOf(parse: UrlParser, origin: String, l: Link): Row {
    LinkRow(TextCell(l.text), l.url, ClassifyLink(parse, origin, l.url))
  }

  /** populateLinksTable: at most 100 link rows, then a row counting the rest. */
  function LinksTable(parse: UrlParser, origin: String, links: seq<Link>): (rows: seq<Row>)
    ensures links == [] ==> rows == [NoLinksRow]
    ensures links != [] ==> |rows| == Min(|links|, 100) + (if |links| > 100 then 1 else 0)
    ensures links != [] ==> forall k :: 0 <= k < Min(|links|, 100) ==> rows[k] == RowOf(parse, origin, links[k])
    ensures |links| > 100 ==> rows[100] == MoreRow(|links| - 100) && rows[100].hidden + 100 == |links|
  {
    if links == [] then [NoLinksRow]
    else
      var shown := seq(Min(|links|, 100), k requires 0 <= k < Min(|links|, 100) => RowOf(parse, origin, links[k]));
      if |links| > 100 then shown + [MoreRow(|links| - 100)] else shown
  }
}
