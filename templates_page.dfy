/**
 * The page state of the template-served script (templates/script.js): URL
 * validation on submit, the statistics with their fallbacks, the content
 * summary, and the same selection handlers and filters as the static page
 * over this script's own results panels.
 */
module TemplatesPage {
  import opened Wrappers
  import opened Text
  import opened Sequences
  import opened ScrapeModel
  import opened Selection
  import TemplatesResults
  import Search
  import StaticPage

  // ---------------------------------------------------------------------
  // Statistics

  /**
   * `s.split(/\s+/).length - 1`: the number of maximal runs of whitespace
   * in `s`.
   */
  function SpaceRuns(s: String): nat
    decreases |s|
  {
    if s == [] then 0
    else if IsSpace(s[0]) then
      assert |TrimStart(s)| < |s|;
      1 + SpaceRuns(TrimStart(s))
    else SpaceRuns(s[1..])
  }

  /** JavaScript's `s.split(/\s+/).length`. */
  function SplitCount(s: String): nat {
    SpaceRuns(s) + 1
  }

  lemma {:induction false} SpaceRunsAfterWord(w: String, rest: String)
    requires NoSpace(w)
    ensures SpaceRuns(w + rest) == SpaceRuns(rest)
  {
    if w != [] {
      assert !IsSpace(w[0]);
      assert (w + rest)[0] == w[0];
      assert (w + rest)[1..] == w[1..] + rest;
      SpaceRunsAfterWord(w[1..], rest);
      assert SpaceRuns(w + rest) == SpaceRuns((w + rest)[1..]);
    } else {
      assert w + rest == rest;
    }
  }

  lemma {:induction false} SpaceRunsOfJoin(ws: seq<String>)
    requires AllWords(ws) && ws != []
    ensures SpaceRuns(Join(ws, " ")) == |ws| - 1
    ensures Join(ws, " ") != [] && !IsSpace(Join(ws, " ")[0])
  {
    if |ws| == 1 {
      SpaceRunsAfterWord(ws[0], []);
      assert ws[0] + [] == ws[0];
    } else {
      var j := Join(ws[1..], " ");
      assert AllWords(ws[1..]) by {
        assert forall k :: 0 <= k < |ws[1..]| ==> ws[1..][k] == ws[k + 1];
      }
      SpaceRunsOfJoin(ws[1..]);
      assert Join(ws, " ") == ws[0] + (" " + j);
      SpaceRunsAfterWord(ws[0], " " + j);
      assert (" " + j)[1..] == j;
      assert TrimStart(" " + j) == j;
      assert ws[0][0] == Join(ws, " ")[0];
    }
  }

  /**
   * On text the server has normalised, the split fallback counts exactly
   * the server's words: the fallback and the counter agree.
   */
  lemma SplitCountOfNormalized(raw: String)
    requires NormalizeSpace(raw) != []
    ensures SplitCount(NormalizeSpace(raw)) == |Words(raw)|
  {
    SpaceRunsOfJoin(Words(raw));
  }

  /** `counter || fallback || 0` for whole numbers: the counter unless it is 0. */
  function Stat(counter: nat, fallback: nat): nat {
    if counter != 0 then counter else fallback
  }

  datatype Stats = Stats(titleLength: nat, links: nat, images: nat, headings: nat, words: nat)

  /** The statistics block of populateResults. */
  function StatsOf(data: ScrapeResult): Stats {
    Stats(
      Stat(data.titleLength, |data.title|),
      Stat(data.linksCount, |data.links|),
      Stat(data.imagesCount, |data.images|),
      Stat(data.headingsCount, |data.headings|),
      Stat(data.wordCount, if data.textContent != [] then SplitCount(data.textContent) else 0))
  }

  /**
   * Each statistic is the server's counter when that is non-zero, the
   * length of the list or string otherwise; it is 0 only when both are.
   */
  lemma StatsFallBack(data: ScrapeResult)
    ensures var s := StatsOf(data);
      (s.links == 0 <==> data.linksCount == 0 && |data.links| == 0) &&
      (s.images == 0 <==> data.imagesCount == 0 && |data.images| == 0) &&
      (s.headings == 0 <==> data.headingsCount == 0 && |data.headings| == 0) &&
      (s.titleLength == 0 <==> data.titleLength == 0 && |data.title| == 0) &&
      (s.words == 0 <==> data.wordCount == 0 && data.textContent == []) &&
      (data.titleLength != 0 ==> s.titleLength == data.titleLength) &&
      (data.titleLength == 0 ==> s.titleLength == |data.title|) &&
      (data.linksCount != 0 ==> s.links == data.linksCount) &&
      (data.linksCount == 0 ==> s.links == |data.links|) &&
      (data.imagesCount != 0 ==> s.images == data.imagesCount) &&
      (data.imagesCount == 0 ==> s.images == |data.images|) &&
      (data.headingsCount != 0 ==> s.headings == data.headingsCount) &&
      (data.headingsCount == 0 ==> s.headings == |data.headings|) &&
      (data.wordCount != 0 ==> s.words == data.wordCount) &&
      (data.wordCount == 0 ==> s.words == if data.textContent != [] then SplitCount(data.textContent) else 0)
  {
  }

  /**
   * For a result whose counters are the lengths and whose text is the
   * normalised form of some page text, every statistic is that length and
   * the word statistic is the page's word count, whichever branch is taken.
   */
  lemma StatsOfConsistentResult(data: ScrapeResult, raw: String)
    requires data.titleLength == |data.title| && data.linksCount == |data.links|
    requires data.imagesCount == |data.images| && data.headingsCount == |data.headings|
    requires data.textContent == NormalizeSpace(raw) && data.wordCount == |Words(raw)|
    ensures StatsOf(data) == Stats(|data.title|, |data.links|, |data.images|, |data.headings|, |Words(raw)|)
  {
    if data.textContent != [] {
      SplitCountOfNormalized(raw);
    } else {
      assert Words(raw) == [] by {
        if Words(raw) != [] {
          SpaceRunsOfJoin(Words(raw));
        }
      }
    }
  }

  /** The summary: the text, or a placeholder, cut to 500 characters with "..." when longer. */
  function Summary(text: String): String {
    var s := if text != [] then text else "No content available";
    s[..Min(|s|, 500)] + (if |s| > 500 then "..." else "")
  }

  /** The two scripts summarise every text alike, though they apply the placeholder at different points. */
  lemma SummaryMatchesStatic(text: String)
    ensures Summary(text) == StaticPage.Summary(text)
  {
  }

  // ---------------------------------------------------------------------
  // The page

  datatype Submission = Rejected(message: String) | Sent(url: String, usePlaywright: bool)

  /** Every field of a page that its handlers assign, as one value. */
  datatype PageState = PageState(
    current: Option<ScrapeResult>,
    currentLinks: seq<Link>,
    currentImages: seq<Image>,
    linksTable: TemplatesResults.Table,
    cards: seq<StaticPage.Card>,
    stats: Stats,
    summary: String,
    dataOriginal: String,
    textView: Option<Search.TextView>)

  class Page {
    const parse: UrlParser
    const selection: SelectedImages
    var current: Option<ScrapeResult>
    var currentLinks: seq<Link>
    var currentImages: seq<Image>
    var linksTable: TemplatesResults.Table
    var cards: seq<StaticPage.Card>
    var stats: Stats
    var summary: String
    var dataOriginal: String
    /** The text panel; None after a search whose term the model does not read. */
    var textView: Option<Search.TextView>

    ghost predicate Valid()
      reads this, selection
    {
      selection.Valid()
    }

    constructor(parse: UrlParser)
      ensures Valid() && fresh(selection)
      ensures this.parse == parse && current.None? && currentLinks == [] && currentImages == []
      ensures selection.items == [] && cards == []
    {
      this.parse := parse;
      selection := new SelectedImages();
      current := None;
      currentLinks := [];
      currentImages := [];
      linksTable := TemplatesResults.Table([], true);
      cards := [];
      stats := Stats(0, 0, 0, 0, 0);
      summary := [];
      dataOriginal := [];
      textView := Some(Search.PlainText([]));
    }

    function State(): PageState
      reads this
    {
      PageState(current, currentLinks, currentImages, linksTable, cards, stats, summary, dataOriginal, textView)
    }

    /** The page URL the link test compares against; None with no current result. */
    function Origin(): Option<String>
      reads this
    {
      if current.Some? then Some(current.value.url) else None
    }

    function ShownText(): String
      reads this
    {
      if textView.Some? && textView.value.PlainText? then textView.value.text else StaticPage.NoExtractedText
    }

    /**
     * The submit handler: the raw input, untrimmed. An empty input and one
     * the URL parser rejects are refused with their messages and change
     * nothing; only a parsable URL empties the selection and is sent.
     */
    method Submit(input: String, usePlaywright: bool) returns (s: Submission)
      requires Valid()
      modifies selection
      ensures Valid()
      ensures input == [] ==> s == Rejected("Please enter a URL")
      ensures input != [] && parse(input).None? ==> s == Rejected("Please enter a valid URL (e.g., https://example.com)")
      ensures s.Rejected? ==> selection.items == old(selection.items)
      ensures s.Sent? <==> input != [] && parse(input).Some?
      ensures s.Sent? ==> s.url == input && s.usePlaywright == usePlaywright && selection.items == []
    {
      if input == [] {
        return Rejected("Please enter a URL");
      }
      if parse(input).None? {
        return Rejected("Please enter a valid URL (e.g., https://example.com)");
      }
      selection.Clear();
      s := Sent(input, usePlaywright);
    }

    /**
     * populateResults. The links table is built before the image grid, so
     * when the link test throws on one of the first 100 links the table
     * keeps the rows before it and the rest of populateResults does not
     * run: the image list and grid stay as they were and the exception
     * reaches the caller's catch, which shows "Failed to scrape website".
     * `completed` tells the two apart.
     */
    method Populate(data: ScrapeResult) returns (completed: bool)
      modifies this
      ensures current == Some(data) && currentLinks == data.links
      ensures stats == StatsOf(data) && summary == Summary(data.textContent)
      ensures dataOriginal == data.textContent
      ensures textView == Some(Search.PlainText(if data.textContent != [] then data.textContent else StaticPage.NoExtractedText))
      ensures linksTable == TemplatesResults.LinksTable(parse, Some(data.url), data.links)
      ensures completed <==> !TemplatesResults.AnyThrows(parse, Some(data.url), data.links[..Min(|data.links|, 100)])
      ensures completed ==> currentImages == data.images && cards == StaticPage.CardsFor(data.images)
      ensures !completed ==> currentImages == old(currentImages) && cards == old(cards)
    {
      var table := TemplatesResults.LinksTable(parse, Some(data.url), data.links);
      TemplatesResults.LinksTableCompletes(parse, Some(data.url), data.links);
      current := Some(data);
      stats := StatsOf(data);
      summary := Summary(data.textContent);
      dataOriginal := data.textContent;
      textView := Some(Search.PlainText(if data.textContent != [] then data.textContent else StaticPage.NoExtractedText));
      currentLinks := data.links;
      linksTable := table;
      completed := table.complete;
      if completed {
        currentImages := data.images;
        cards := StaticPage.CardsFor(data.images);
      }
    }

    /** The clear-results button. */
    method ClearResults()
      requires Valid()
      modifies this, selection
      ensures Valid()
      ensures current.None? && selection.items == []
      ensures State() == old(State()).(current := None)
    {
      current := None;
      selection.Clear();
    }

    /** A checkbox change. */
    method Toggle(k: nat, checked: bool)
      requires Valid() && k < |cards|
      modifies this, selection
      ensures Valid()
      ensures cards == old(cards)[k := StaticPage.Card(old(cards)[k].src, checked)]
      ensures checked ==> selection.items == Insert(old(selection.items), old(cards)[k].src)
      ensures !checked ==> selection.items == Remove(old(selection.items), old(cards)[k].src)
      ensures State() == old(State()).(cards := cards)
    {
      var src := cards[k].src;
      cards := cards[k := StaticPage.Card(src, checked)];
      if checked {
        selection.Add(src);
      } else {
        selection.Delete(src);
      }
    }

    method SelectAll()
      requires Valid()
      modifies this, selection
      ensures Valid()
      ensures cards == StaticPage.WithChecks(old(cards), true)
      ensures selection.items == InsertAll(old(selection.items), StaticPage.Sources(old(cards)))
      ensures State() == old(State()).(cards := cards)
    {
      selection.AddAll(StaticPage.Sources(cards));
      cards := StaticPage.WithChecks(cards, true);
    }

    method DeselectAll()
      requires Valid()
      modifies this, selection
      ensures Valid()
      ensures cards == StaticPage.WithChecks(old(cards), false)
      ensures selection.items == []
      ensures State() == old(State()).(cards := cards)
    {
      cards := StaticPage.WithChecks(cards, false);
      selection.Clear();
    }

    /** The internal/external/all buttons. */
    method FilterLinks(mode: String)
      modifies this
      ensures var r := TemplatesResults.FilterLinks(parse, old(Origin()), old(currentLinks), mode);
        linksTable == (if r.Some? then TemplatesResults.LinksTable(parse, old(Origin()), r.value) else old(linksTable))
      ensures State() == old(State()).(linksTable := linksTable)
    {
      var r := TemplatesResults.FilterLinks(parse, Origin(), currentLinks, mode);
      if r.Some? {
        linksTable := TemplatesResults.LinksTable(parse, Origin(), r.value);
      }
    }

    method SearchLinks(term: String)
      modifies this
      ensures var r := TemplatesResults.FilterLinksBySearch(old(currentLinks), term);
        linksTable == (if r.Some? then TemplatesResults.LinksTable(parse, old(Origin()), r.value) else old(linksTable))
      ensures State() == old(State()).(linksTable := linksTable)
    {
      var r := TemplatesResults.FilterLinksBySearch(currentLinks, term);
      if r.Some? {
        linksTable := TemplatesResults.LinksTable(parse, Origin(), r.value);
      }
    }

    /** The images search box: hides cards, never deselects. */
    method SearchImages(term: String)
      modifies this
      ensures var r := TemplatesResults.FilterImagesBySearch(old(currentImages), term);
        cards == (if r.Some? then StaticPage.CardsFor(r.value) else old(cards))
      ensures State() == old(State()).(cards := cards)
    {
      var r := TemplatesResults.FilterImagesBySearch(currentImages, term);
      if r.Some? {
        cards := StaticPage.CardsFor(r.value);
      }
    }

    /** The text search box, read for terms without regular-expression metacharacters. */
    method SearchText(input: String)
      modifies this
      ensures textView == Search.TemplatesSearchText(old(dataOriginal), old(ShownText()), input)
      ensures State() == old(State()).(textView := textView)
    {
      textView := Search.TemplatesSearchText(dataOriginal, ShownText(), input);
    }
  }
}
