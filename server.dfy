/**
 * The Flask server's `POST /scrape` handler: request validation, the
 * scheme defaulting of `fetch_static`, and the rules by which `parse_html`
 * turns the parsed document into the records of a scrape result.
 *
 * The HTML parser is not modelled: a `Document` holds what the parser
 * finds (the `<title>` string, the `<meta>`, `<h1>`–`<h6>`, `<a href>` and
 * `<img src>` elements in document order, and the page text with scripts
 * and styles removed). The network request, `urljoin` and the exception
 * texts are parameters.
 */
module Server {
  import opened Wrappers
  import opened Text
  import opened Sequences
  import opened ScrapeModel
  import TemplatesPage

  // ---------------------------------------------------------------------
  // Parsed elements

  /** A `<meta>` element; None is an absent attribute. */
  datatype MetaElement = MetaElement(name: Option<String>, property: Option<String>, httpEquiv: Option<String>, content: Option<String>)

  /** An `<hN>` element: `level` is N, `text` is `get_text(strip=True)`. */
  datatype HeadingElement = HeadingElement(level: nat, text: String, id: Option<String>, classes: seq<String>)

  /** An `<a>` element that has an `href`; `text` is `get_text(strip=True)`. */
  datatype AnchorElement = AnchorElement(href: String, text: String)

  /** An `<img>` element that has a `src`. */
  datatype ImgElement = ImgElement(src: String, alt: Option<String>, width: Option<String>, height: Option<String>)

  /**
   * What the parser finds in a page. `title` is the string of the first
   * `<title>` (None when there is none or it has no single string);
   * `text` is the document text with `script`, `style` and `noscript` removed.
   */
  datatype Document = Document(
    title: Option<String>,
    metas: seq<MetaElement>,
    headings: seq<HeadingElement>,
    anchors: seq<AnchorElement>,
    imgs: seq<ImgElement>,
    text: String)

  /** `urljoin(base, ref)`, or None where it raises. */
  type UrlJoiner = (String, String) -> Option<String>

  /** Python truthiness of an optional attribute value. */
  predicate Present(v: Option<String>) {
    v.Some? && v.value != []
  }

  // ---------------------------------------------------------------------
  // Scheme defaulting (fetch_static)

  /** The URL that is requested: `https://` is put in front unless a scheme is there. */
  function WithScheme(url: String): (r: String)
    ensures StartsWith(r, "http://") || StartsWith(r, "https://")
    ensures EndsWith(r, url)
    ensures r == url <==> StartsWith(url, "http://") || StartsWith(url, "https://")
  {
    if StartsWith(url, "http://") || StartsWith(url, "https://") then url
    else
      var r := "https://" + url;
      assert r[..8] == "https://";
      assert r[|r| - |url|..] == url;
      r
  }

  /**
   * The page fetch together with BeautifulSoup's parse of it: the response
   * body, final URL and parsed document; or a `requests` exception (a
   * failed request or an error status); or a page that was fetched but
   * whose parsing raised. The messages are the exceptions' texts.
   */
  datatype Fetch =
    | Fetched(html: String, finalUrl: String, doc: Document)
    | RequestFailed(detail: String)
    | ParseFailed(detail: String)

  /** `fetch_static`: the URL gets its scheme, then `get` performs the request. */
  method FetchStatic(url: String, get: String -> Fetch) returns (outcome: Fetch)
    ensures outcome == get(WithScheme(url))
  {
    var u := url;
    if !(StartsWith(u, "http://") || StartsWith(u, "https://")) {
      u := "https://" + u;
    }
    outcome := get(u);
  }

  // ---------------------------------------------------------------------
  // Title and description

  /** The stripped title string, or "No title" when there is none or it is empty. */
  function Title(title: Option<String>): (r: String)
    ensures !Present(title) ==> r == "No title"
    ensures Present(title) ==> r == Strip(title.value)
    ensures r == [] <==> Present(title) && AllSpace(title.value)
    ensures r == [] || (!IsSpace(r[0]) && !IsSpace(r[|r| - 1]))
  {
    if Present(title) then
      StripEnds(title.value);
      StripEmptyIff(title.value);
      Strip(title.value)
    else "No title"
  }

  /** `soup.find`: the index of the first element satisfying `p`. */
  function Find(ms: seq<MetaElement>, p: MetaElement -> bool): (r: Option<nat>)
    ensures r.Some? ==> r.value < |ms| && p(ms[r.value]) && forall k :: 0 <= k < r.value ==> !p(ms[k])
    ensures r.None? ==> forall k :: 0 <= k < |ms| ==> !p(ms[k])
  {
    if ms == [] then None
    else if p(ms[0]) then Some(0)
    else
      var r := Find(ms[1..], p);
      if r.Some? then Some(r.value + 1) else None
  }

  predicate NamedDescription(m: MetaElement) {
    m.name == Some("description")
  }

  predicate OgDescription(m: MetaElement) {
    m.property == Some("og:description")
  }

  /**
   * The content of the first `name="description"` meta when that is
   * non-empty, else of the first `property="og:description"` meta when
   * that is non-empty, else "".
   */
  function Description(ms: seq<MetaElement>): (r: String)
    ensures r == [] || exists i :: 0 <= i < |ms| && ms[i].content == Some(r) && (NamedDescription(ms[i]) || OgDescription(ms[i]))
    ensures var d := Find(ms, NamedDescription);
      d.Some? && Present(ms[d.value].content) ==> r == ms[d.value].content.value
    ensures var d := Find(ms, NamedDescription); var o := Find(ms, OgDescription);
      !(d.Some? && Present(ms[d.value].content)) && o.Some? && Present(ms[o.value].content) ==>
      r == ms[o.value].content.value
    ensures r == [] <==>
      (var d := Find(ms, NamedDescription);
       var o := Find(ms, OgDescription);
       !(d.Some? && Present(ms[d.value].content)) && !(o.Some? && Present(ms[o.value].content)))
  {
    var d := Find(ms, NamedDescription);
    if d.Some? && Present(ms[d.value].content) then ms[d.value].content.value
    else
      var o := Find(ms, OgDescription);
      if o.Some? && Present(ms[o.value].content) then ms[o.value].content.value else ""
  }

  // ---------------------------------------------------------------------
  // Meta records

  /** The record name: `name`, else `property`, else `http-equiv`, as Python's `or` picks. */
  function MetaName(m: MetaElement): (r: Option<String>)
    ensures Present(m.name) ==> r == m.name
    ensures !Present(m.name) && Present(m.property) ==> r == m.property
    ensures !Present(m.name) && !Present(m.property) ==> r == m.httpEquiv
  {
    if Present(m.name) then m.name else if Present(m.property) then m.property else m.httpEquiv
  }

  /** The record a meta element contributes, kept only when name and content are non-empty. */
  function MetaRecord(m: MetaElement): (r: Option<MetaTag>)
    ensures r.Some? <==> Present(MetaName(m)) && Present(m.content)
    ensures r.Some? ==> r.value.name != [] && r.value.content != []
    ensures r.Some? ==> Some(r.value.name) == MetaName(m) && Some(r.value.content) == m.content
  {
    var name := MetaName(m);
    if Present(name) && Present(m.content) then Some(MetaTag(name.value, m.content.value)) else None
  }

  /** The meta-tag loop. */
  method BuildMetas(ms: seq<MetaElement>) returns (metas: seq<MetaTag>)
    ensures metas == FilterMap(ms, MetaRecord)
  {
    metas := [];
    for i := 0 to |ms|
      invariant metas == FilterMap(ms[..i], MetaRecord)
    {
      assert ms[..i + 1][..i] == ms[..i];
      var name := MetaName(ms[i]);
      var content := ms[i].content;
      if Present(name) && Present(content) {
        metas := metas + [MetaTag(name.value, content.value)];
      }
    }
    assert ms[..|ms|] == ms;
  }

  /**
   * Every meta record has a non-empty name and content, every element
   * with both yields its record, and nothing else is listed.
   */
  lemma MetasKept(ms: seq<MetaElement>)
    ensures forall k :: 0 <= k < |FilterMap(ms, MetaRecord)| ==>
      FilterMap(ms, MetaRecord)[k].name != [] && FilterMap(ms, MetaRecord)[k].content != []
    ensures forall i :: 0 <= i < |ms| && Present(MetaName(ms[i])) && Present(ms[i].content) ==>
      MetaTag(MetaName(ms[i]).value, ms[i].content.value) in FilterMap(ms, MetaRecord)
    ensures forall k :: 0 <= k < |FilterMap(ms, MetaRecord)| ==>
      exists i :: 0 <= i < |ms| && MetaRecord(ms[i]) == Some(FilterMap(ms, MetaRecord)[k])
  {
    FilterMapMembers(ms, MetaRecord);
    var out := FilterMap(ms, MetaRecord);
    forall k | 0 <= k < |out|
      ensures out[k].name != [] && out[k].content != []
    {
      var i :| 0 <= i < |ms| && MetaRecord(ms[i]) == Some(out[k]);
    }
  }

  // ---------------------------------------------------------------------
  // Open Graph records

  /** A meta whose property starts with "og:" gives a record; content defaults to "". */
  function OgRecord(m: MetaElement): (r: Option<OgTag>)
    ensures r.Some? <==> m.property.Some? && StartsWith(m.property.value, "og:")
    ensures r.Some? ==> r.value.property == m.property.value
    ensures r.Some? ==> r.value.content == m.content.GetOr("")
  {
    if m.property.Some? && StartsWith(m.property.value, "og:") then
      Some(OgTag(m.property.value, m.content.GetOr("")))
    else None
  }

  /** The Open Graph loop over the metas that have a `property`. */
  method BuildOpenGraph(ms: seq<MetaElement>) returns (og: seq<OgTag>)
    ensures og == FilterMap(ms, OgRecord)
  {
    og := [];
    for i := 0 to |ms|
      invariant og == FilterMap(ms[..i], OgRecord)
    {
      assert ms[..i + 1][..i] == ms[..i];
      var m := ms[i];
      if m.property.Some? {
        if StartsWith(m.property.value, "og:") {
          og := og + [OgTag(m.property.value, m.content.GetOr(""))];
        }
      }
    }
    assert ms[..|ms|] == ms;
  }

  /** Every Open Graph record names an "og:" property, and every such meta is listed. */
  lemma OpenGraphOnlyOg(ms: seq<MetaElement>)
    ensures forall k :: 0 <= k < |FilterMap(ms, OgRecord)| ==> StartsWith(FilterMap(ms, OgRecord)[k].property, "og:")
    ensures forall i :: 0 <= i < |ms| && ms[i].property.Some? && StartsWith(ms[i].property.value, "og:") ==>
      OgTag(ms[i].property.value, ms[i].content.GetOr("")) in FilterMap(ms, OgRecord)
  {
    FilterMapMembers(ms, OgRecord);
    var out := FilterMap(ms, OgRecord);
    forall k | 0 <= k < |out|
      ensures StartsWith(out[k].property, "og:")
    {
      var i :| 0 <= i < |ms| && OgRecord(ms[i]) == Some(out[k]);
    }
  }

  // ---------------------------------------------------------------------
  // Headings

  /** `tag.upper()` for the tag `hN`. */
  function LevelName(level: nat): String {
    "H" + NatToString(level)
  }

  /** The N of a level name "HN" with one digit; 0 for anything else. */
  function LevelNumber(name: String): nat {
    if |name| == 2 && IsDigit(name[1]) then name[1] as int - '0' as int else 0
  }

  lemma LevelNumberOfName(level: nat)
    requires 1 <= level <= 6
    ensures LevelNumber(LevelName(level)) == level
  {
    assert NatToString(level) == [DigitChar(level)];
  }

  /** The heading record of an element met while looking for `<hN>`, N = `level`. */
  function AtLevel(level: nat): HeadingElement -> Option<Heading> {
    (h: HeadingElement) => if h.level == level then Some(HeadingRecord(h)) else None
  }

  /** The record of one heading element; empty text reads "No text". */
  function HeadingRecord(h: HeadingElement): Heading {
    Heading(LevelName(h.level), if h.text != [] then h.text else "No text", h.id.GetOr(""), Join(h.classes, " "))
  }

  /** The records for levels 1 to `upTo`, all of level 1 first, then level 2, and so on. */
  function HeadingsUpTo(hs: seq<HeadingElement>, upTo: nat): seq<Heading> {
    if upTo == 0 then [] else HeadingsUpTo(hs, upTo - 1) + FilterMap(hs, AtLevel(upTo))
  }

  function Headings(hs: seq<HeadingElement>): seq<Heading> {
    HeadingsUpTo(hs, 6)
  }

  /** The heading loops: for each tag h1 … h6, every element with that tag. */
  method BuildHeadings(hs: seq<HeadingElement>) returns (headings: seq<Heading>)
    ensures headings == Headings(hs)
  {
    headings := [];
    for level := 1 to 7
      invariant headings == HeadingsUpTo(hs, level - 1)
    {
      for i := 0 to |hs|
        invariant headings == HeadingsUpTo(hs, level - 1) + FilterMap(hs[..i], AtLevel(level))
      {
        var h := hs[i];
        ghost var found := FilterMap(hs[..i], AtLevel(level));
        assert hs[..i + 1][..i] == hs[..i];
        assert FilterMap(hs[..i + 1], AtLevel(level)) == found + (if h.level == level then [HeadingRecord(h)] else []);
        if h.level == level {
          var text := if h.text != [] then h.text else "No text";
          headings := headings + [Heading(LevelName(level), text, h.id.GetOr(""), Join(h.classes, " "))];
        }
      }
      assert hs[..|hs|] == hs;
    }
  }

  predicate GroupedByLevel(out: seq<Heading>) {
    forall i, j :: 0 <= i < j < |out| ==> LevelNumber(out[i].level) <= LevelNumber(out[j].level)
  }

  /** Every record found at level N is named "HN" and has non-empty text. */
  lemma AtLevelRecords(hs: seq<HeadingElement>, level: nat)
    requires 1 <= level <= 6
    ensures forall k :: 0 <= k < |FilterMap(hs, AtLevel(level))| ==>
      FilterMap(hs, AtLevel(level))[k].level == LevelName(level) && FilterMap(hs, AtLevel(level))[k].text != []
  {
    FilterMapMembers(hs, AtLevel(level));
    var out := FilterMap(hs, AtLevel(level));
    forall k | 0 <= k < |out|
      ensures out[k].level == LevelName(level) && out[k].text != []
    {
      var i :| 0 <= i < |hs| && AtLevel(level)(hs[i]) == Some(out[k]);
    }
  }

  /**
   * The heading list is grouped by level, h1 first: each record's level is
   * one of H1 … H6 and the levels never decrease along the list; every
   * heading text is non-empty.
   */
  lemma {:induction false} HeadingsGrouped(hs: seq<HeadingElement>, upTo: nat)
    requires upTo <= 6
    ensures forall k :: 0 <= k < |HeadingsUpTo(hs, upTo)| ==>
      1 <= LevelNumber(HeadingsUpTo(hs, upTo)[k].level) <= upTo && HeadingsUpTo(hs, upTo)[k].text != []
    ensures GroupedByLevel(HeadingsUpTo(hs, upTo))
  {
    if upTo > 0 {
      HeadingsGrouped(hs, upTo - 1);
      AtLevelRecords(hs, upTo);
      LevelNumberOfName(upTo);
      var a, b := HeadingsUpTo(hs, upTo - 1), FilterMap(hs, AtLevel(upTo));
      var out := a + b;
      assert HeadingsUpTo(hs, upTo) == out;
      forall k | 0 <= k < |out|
        ensures 1 <= LevelNumber(out[k].level) <= upTo && out[k].text != []
      {
        if k >= |a| {
          assert out[k] == b[k - |a|];
        }
      }
      forall i, j | 0 <= i < j < |out|
        ensures LevelNumber(out[i].level) <= LevelNumber(out[j].level)
      {
        if j >= |a| {
          assert out[j] == b[j - |a|];
          if i >= |a| {
            assert out[i] == b[i - |a|];
          }
        }
      }
    }
  }

  /** Every `<h1>` … `<h6>` element is listed, under its own level. */
  lemma HeadingsComplete(hs: seq<HeadingElement>)
    ensures forall i :: 0 <= i < |hs| && 1 <= hs[i].level <= 6 ==>
      HeadingRecord(hs[i]) in Headings(hs)
  {
    forall i | 0 <= i < |hs| && 1 <= hs[i].level <= 6
      ensures HeadingRecord(hs[i]) in Headings(hs)
    {
      InOwnLevel(hs, hs[i].level, i);
      InHeadingsUpTo(hs, hs[i].level, 6, HeadingRecord(hs[i]));
    }
  }

  /** A record listed once the loop has reached `level` stays listed through level `upTo`. */
  lemma {:induction false} InHeadingsUpTo(hs: seq<HeadingElement>, level: nat, upTo: nat, x: Heading)
    requires level <= upTo && x in HeadingsUpTo(hs, level)
    ensures x in HeadingsUpTo(hs, upTo)
    decreases upTo
  {
    if upTo > level {
      InHeadingsUpTo(hs, level, upTo - 1, x);
      InLaterLevels(hs, upTo, x);
    }
  }

  lemma InOwnLevel(hs: seq<HeadingElement>, level: nat, i: nat)
    requires 1 <= level && i < |hs| && hs[i].level == level
    ensures HeadingRecord(hs[i]) in HeadingsUpTo(hs, level)
  {
    var here := FilterMap(hs, AtLevel(level));
    FilterMapMembers(hs, AtLevel(level));
    assert AtLevel(level)(hs[i]) == Some(HeadingRecord(hs[i]));
    assert HeadingsUpTo(hs, level) == HeadingsUpTo(hs, level - 1) + here;
  }

  lemma InLaterLevels(hs: seq<HeadingElement>, upTo: nat, x: Heading)
    requires 1 <= upTo && x in HeadingsUpTo(hs, upTo - 1)
    ensures x in HeadingsUpTo(hs, upTo)
  {
    assert HeadingsUpTo(hs, upTo) == HeadingsUpTo(hs, upTo - 1) + FilterMap(hs, AtLevel(upTo));
  }

  // ---------------------------------------------------------------------
  // Links and images

  /** A link record for each anchor whose `href` resolves; empty text reads "No text". */
  function LinkRecord(join: UrlJoiner, base: String): AnchorElement -> Option<Link> {
    (a: AnchorElement) =>
      var full := join(base, a.href);
      if full.Some? then Some(Link(Some(if a.text != [] then a.text else "No text"), full.value)) else None
  }

  /** The link loop; an anchor whose `urljoin` raises is skipped. */
  method BuildLinks(anchors: seq<AnchorElement>, base: String, join: UrlJoiner) returns (links: seq<Link>)
    ensures links == FilterMap(anchors, LinkRecord(join, base))
  {
    links := [];
    for i := 0 to |anchors|
      invariant links == FilterMap(anchors[..i], LinkRecord(join, base))
    {
      assert anchors[..i + 1][..i] == anchors[..i];
      var full := join(base, anchors[i].href);
      if full.Some? {
        var text := if anchors[i].text != [] then anchors[i].text else "No text";
        links := links + [Link(Some(text), full.value)];
      }
    }
    assert anchors[..|anchors|] == anchors;
  }

  /**
   * Every link record has non-empty text and the resolved URL of some
   * anchor; every anchor that resolves is listed.
   */
  lemma LinksResolved(anchors: seq<AnchorElement>, base: String, join: UrlJoiner)
    ensures forall k :: 0 <= k < |FilterMap(anchors, LinkRecord(join, base))| ==>
      var l := FilterMap(anchors, LinkRecord(join, base))[k];
      l.text.Some? && l.text.value != [] &&
      exists i :: 0 <= i < |anchors| && join(base, anchors[i].href) == Some(l.url)
    ensures forall i :: 0 <= i < |anchors| && join(base, anchors[i].href).Some? ==>
      LinkRecord(join, base)(anchors[i]).value in FilterMap(anchors, LinkRecord(join, base))
  {
    var f := LinkRecord(join, base);
    FilterMapMembers(anchors, f);
    var out := FilterMap(anchors, f);
    forall k | 0 <= k < |out|
      ensures out[k].text.Some? && out[k].text.value != [] &&
        exists i :: 0 <= i < |anchors| && join(base, anchors[i].href) == Some(out[k].url)
    {
      var i :| 0 <= i < |anchors| && f(anchors[i]) == Some(out[k]);
    }
  }

  /** `img.get("alt", "") or "No alt text"`. */
  function AltText(alt: Option<String>): (r: String)
    ensures r != []
    ensures Present(alt) ==> r == alt.value
    ensures !Present(alt) ==> r == "No alt text"
  {
    if Present(alt) then alt.value else "No alt text"
  }

  function ImageRecord(join: UrlJoiner, base: String): ImgElement -> Option<Image> {
    (img: ImgElement) =>
      var full := join(base, img.src);
      if full.Some? then Some(Image(full.value, Some(AltText(img.alt)), img.width, img.height)) else None
  }

  /** The image loop; an image whose `urljoin` raises is skipped. */
  method BuildImages(imgs: seq<ImgElement>, base: String, join: UrlJoiner) returns (images: seq<Image>)
    ensures images == FilterMap(imgs, ImageRecord(join, base))
  {
    images := [];
    for i := 0 to |imgs|
      invariant images == FilterMap(imgs[..i], ImageRecord(join, base))
    {
      assert imgs[..i + 1][..i] == imgs[..i];
      var img := imgs[i];
      var full := join(base, img.src);
      if full.Some? {
        var alt := if img.alt.Some? && img.alt.value != [] then img.alt.value else "No alt text";
        images := images + [Image(full.value, Some(alt), img.width, img.height)];
      }
    }
    assert imgs[..|imgs|] == imgs;
  }

  /**
   * Every image record has a non-empty alt text, which is the element's
   * own alt when that is non-empty; width and height are copied as found.
   */
  lemma ImagesHaveAlt(imgs: seq<ImgElement>, base: String, join: UrlJoiner)
    ensures forall k :: 0 <= k < |FilterMap(imgs, ImageRecord(join, base))| ==>
      var m := FilterMap(imgs, ImageRecord(join, base))[k];
      m.alt.Some? && m.alt.value != [] &&
      exists i :: 0 <= i < |imgs| && join(base, imgs[i].src) == Some(m.src) &&
        m.alt.value == AltText(imgs[i].alt) && m.width == imgs[i].width && m.height == imgs[i].height
  {
    var f := ImageRecord(join, base);
    FilterMapMembers(imgs, f);
    var out := FilterMap(imgs, f);
    forall k | 0 <= k < |out|
      ensures out[k].alt.Some? && out[k].alt.value != [] &&
        exists i :: 0 <= i < |imgs| && join(base, imgs[i].src) == Some(out[k].src) &&
          out[k].alt.value == AltText(imgs[i].alt) && out[k].width == imgs[i].width && out[k].height == imgs[i].height
    {
      var i :| 0 <= i < |imgs| && f(imgs[i]) == Some(out[k]);
      var full := join(base, imgs[i].src);
      assert full.Some? && out[k] == Image(full.value, Some(AltText(imgs[i].alt)), imgs[i].width, imgs[i].height);
    }
  }

  // ---------------------------------------------------------------------
  // parse_html and the response

  datatype Parsed = Parsed(
    title: String,
    description: String,
    metadata: seq<MetaTag>,
    headings: seq<Heading>,
    links: seq<Link>,
    images: seq<Image>,
    openGraph: seq<OgTag>,
    textContent: String,
    html: String)

  method ParseHtml(html: String, doc: Document, base: String, join: UrlJoiner) returns (p: Parsed)
    ensures p.title == Title(doc.title) && p.description == Description(doc.metas)
    ensures p.metadata == FilterMap(doc.metas, MetaRecord)
    ensures p.headings == Headings(doc.headings)
    ensures p.links == FilterMap(doc.anchors, LinkRecord(join, base))
    ensures p.images == FilterMap(doc.imgs, ImageRecord(join, base))
    ensures p.openGraph == FilterMap(doc.metas, OgRecord)
    ensures p.textContent == NormalizeSpace(doc.text) && p.html == html
  {
    var metas := BuildMetas(doc.metas);
    var headings := BuildHeadings(doc.headings);
    var links := BuildLinks(doc.anchors, base, join);
    var images := BuildImages(doc.imgs, base, join);
    var og := BuildOpenGraph(doc.metas);
    p := Parsed(Title(doc.title), Description(doc.metas), metas, headings, links, images, og, NormalizeSpace(doc.text), html);
  }

  /** The counters agree with what they count; wordCount counts the words of the page text. */
  predicate CountersAgree(r: ScrapeResult) {
    r.wordCount == |Words(r.textContent)| && r.titleLength == |r.title| &&
    r.linksCount == |r.links| && r.imagesCount == |r.images| && r.headingsCount == |r.headings|
  }

  /** The response body: the parsed record plus the counters. */
  function Respond(finalUrl: String, p: Parsed, fetchTime: String, contentSize: String): (r: ScrapeResult)
    ensures CountersAgree(r)
    ensures r.url == finalUrl && r.textContent == p.textContent && r.links == p.links
  {
    ScrapeResult(finalUrl, p.title, p.description, p.textContent, p.html, p.headings, p.links, p.images,
      p.metadata, p.openGraph, fetchTime, contentSize,
      |Words(p.textContent)|, |p.title|, |p.links|, |p.images|, |p.headings|)
  }

  /**
   * A whitespace-normalised text has as many words as the raw text, so the
   * word count is that of the page, and the browser's statistics show
   * exactly the server's counters.
   */
  lemma WordCountOfPage(raw: String)
    ensures |Words(NormalizeSpace(raw))| == |Words(raw)|
  {
    NormalizeSpaceKeepsWords(raw);
  }

  /**
   * The statistics block of the page shows a server response's counters
   * as they are: every one agrees with the list or text it counts.
   */
  lemma PageShowsServerCounters(r: ScrapeResult, raw: String)
    requires CountersAgree(r) && r.textContent == NormalizeSpace(raw)
    ensures TemplatesPage.StatsOf(r) == TemplatesPage.Stats(|r.title|, |r.links|, |r.images|, |r.headings|, |Words(raw)|)
  {
    WordCountOfPage(raw);
    TemplatesPage.StatsOfConsistentResult(r, raw);
  }

  // ---------------------------------------------------------------------
  // The request

  /** A JSON value as `request.get_json()` yields it. */
  datatype Json = JNull | JBool(b: bool) | JNum(n: int) | JStr(s: String) | JArr(items: seq<Json>) | JObj(fields: map<String, Json>)

  /** Python truthiness of a JSON value. */
  predicate Truthy(j: Json) {
    match j
    case JNull => false
    case JBool(b) => b
    case JNum(n) => n != 0
    case JStr(s) => s != []
    case JArr(items) => items != []
    case JObj(fields) => fields != map[]
  }

  datatype Body = NoBody | Error(error: String) | Result(result: ScrapeResult)

  datatype Reply = Reply(status: nat, body: Body)

  /**
   * How the handler reads `url` from the body: `data.get('url', '')`
   * stripped, or None where `get` or `strip` raises (the body is not an
   * object, or its url is not a string).
   */
  function RequestedUrl(data: Json): (r: Option<String>)
    ensures r.Some? <==> data.JObj? && ("url" in data.fields ==> data.fields["url"].JStr?)
    ensures r.Some? && "url" in data.fields ==> r.value == Strip(data.fields["url"].s)
    ensures r.Some? && "url" !in data.fields ==> r.value == []
  {
    if !data.JObj? then None
    else if "url" !in data.fields then Some(Strip(""))
    else if data.fields["url"].JStr? then Some(Strip(data.fields["url"].s))
    else None
  }

  /**
   * `POST /scrape` (and its `OPTIONS` preflight). `body` is what
   * `get_json` returns; `get` performs the page request; `fetchTime` and
   * `contentSize` are the formatted timing and size; `errorText` is the
   * text of an exception raised while reading the body.
   */
  method Scrape(httpMethod: String, body: Option<Json>, get: String -> Fetch, join: UrlJoiner,
                fetchTime: String, contentSize: String, errorText: String) returns (reply: Reply)
    ensures httpMethod == "OPTIONS" ==> reply == Reply(200, NoBody)
    ensures httpMethod != "OPTIONS" && !(body.Some? && Truthy(body.value)) ==>
      reply == Reply(400, Error("No JSON data provided"))
    ensures httpMethod != "OPTIONS" && body.Some? && Truthy(body.value) && RequestedUrl(body.value).None? ==>
      reply == Reply(500, Error("Server error: " + errorText))
    ensures httpMethod != "OPTIONS" && body.Some? && Truthy(body.value) && RequestedUrl(body.value) == Some("") ==>
      reply == Reply(400, Error("URL is required"))
    ensures reply.status == 200 && reply.body.Result? <==>
      httpMethod != "OPTIONS" && body.Some? && Truthy(body.value) &&
      RequestedUrl(body.value).Some? && RequestedUrl(body.value).value != [] &&
      get(WithScheme(RequestedUrl(body.value).value)).Fetched?
    ensures (httpMethod != "OPTIONS" && body.Some? && Truthy(body.value) &&
      RequestedUrl(body.value).Some? && RequestedUrl(body.value).value != [] &&
      get(WithScheme(RequestedUrl(body.value).value)).RequestFailed?) ==>
      reply == Reply(500, Error("Failed to fetch URL: " + get(WithScheme(RequestedUrl(body.value).value)).detail))
    ensures (httpMethod != "OPTIONS" && body.Some? && Truthy(body.value) &&
      RequestedUrl(body.value).Some? && RequestedUrl(body.value).value != [] &&
      get(WithScheme(RequestedUrl(body.value).value)).ParseFailed?) ==>
      reply == Reply(500, Error("Error parsing content: " + get(WithScheme(RequestedUrl(body.value).value)).detail))
    ensures reply.body.Result? ==>
      var f := get(WithScheme(RequestedUrl(body.value).value));
      var r := reply.body.result;
      CountersAgree(r) && r.url == f.finalUrl && r.html == f.html &&
      r.title == Title(f.doc.title) && r.description == Description(f.doc.metas) &&
      r.textContent == NormalizeSpace(f.doc.text) && r.wordCount == |Words(f.doc.text)| &&
      r.metadata == FilterMap(f.doc.metas, MetaRecord) && r.openGraph == FilterMap(f.doc.metas, OgRecord) &&
      r.headings == Headings(f.doc.headings) &&
      r.links == FilterMap(f.doc.anchors, LinkRecord(join, f.finalUrl)) &&
      r.images == FilterMap(f.doc.imgs, ImageRecord(join, f.finalUrl))
  {
    if httpMethod == "OPTIONS" {
      return Reply(200, NoBody);
    }
    if body.None? || !Truthy(body.value) {
      return Reply(400, Error("No JSON data provided"));
    }
    var url := RequestedUrl(body.value);
    if url.None? {
      return Reply(500, Error("Server error: " + errorText));
    }
    if url.value == [] {
      return Reply(400, Error("URL is required"));
    }
    var outcome := FetchStatic(url.value, get);
    match outcome {
      case RequestFailed(detail) =>
        reply := Reply(500, Error("Failed to fetch URL: " + detail));
      case ParseFailed(detail) =>
        reply := Reply(500, Error("Error parsing content: " + detail));
      case Fetched(html, finalUrl, doc) =>
        var parsed := ParseHtml(html, doc, finalUrl, join);
        WordCountOfPage(doc.text);
        reply := Reply(200, Result(Respond(finalUrl, parsed, fetchTime, contentSize)));
    }
  }
}
