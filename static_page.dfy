/**
 * The page state of the flat single-page script (static/script.js) and the
 * handlers that change it: showing a result, submitting, clearing, the
 * image checkboxes, select-all and deselect-all, and the filters and
 * searches that re-render the links table, the image grid and the text.
 */
module StaticPage {
  import opened Wrappers
  import opened Text
  import opened Sequences
  import opened ScrapeModel
  import opened Selection
  import StaticResults
  import Search

  /** An image card as rendered: its source and whether its checkbox is ticked. */
  datatype Card = Card(src: String, checked: bool)

  /** populateImages: a fresh, unticked card per image, whatever is selected. */
  function CardsFor(images: seq<Image>): (cards: seq<Card>)
    ensures |cards| == |images|
    ensures forall i :: 0 <= i < |images| ==> cards[i] == Card(images[i].src, false)
  {
    seq(|images|, i requires 0 <= i < |images| => Card(images[i].src, false))
  }

  function Sources(cards: seq<Card>): (srcs: seq<String>)
    ensures |srcs| == |cards|
    ensures forall i :: 0 <= i < |cards| ==> srcs[i] == cards[i].src
  {
    seq(|cards|, i requires 0 <= i < |cards| => cards[i].src)
  }

  function WithChecks(cards: seq<Card>, checked: bool): (r: seq<Card>)
    ensures |r| == |cards|
    ensures forall i :: 0 <= i < |cards| ==> r[i] == Card(cards[i].src, checked)
  {
    seq(|cards|, i requires 0 <= i < |cards| => Card(cards[i].src, checked))
  }

  /**
   * The content summary: the first 500 characters, with "..." appended
   * exactly when something was cut, or a placeholder for an empty text.
   */
  function Summary(text: String): (r: String)
    ensures text == [] ==> r == "No content available"
    ensures 0 < |text| <= 500 ==> r == text
    ensures |text| > 500 ==> |r| == 503 && r[..500] == text[..500] && r[500..] == "..."
  {
    if text != [] then text[..Min(|text|, 500)] + (if |text| > 500 then "..." else "")
    else "No content available"
  }

  datatype Submission = Rejected(message: String) | Sent(url: String, usePlaywright: bool)

  const NoExtractedText: String := "No text content extracted."

  /** Every field of a page that its handlers assign, as one value. */
  datatype PageState = PageState(
    current: Option<ScrapeResult>,
    currentLinks: seq<Link>,
    currentImages: seq<Image>,
    linksTable: seq<StaticResults.Row>,
    cards: seq<Card>,
    dataOriginal: String,
    textView: Search.TextView)

  class Page {
    const parse: UrlParser
    const selection: SelectedImages
    var current: Option<ScrapeResult>
    var currentLinks: seq<Link>
    var currentImages: seq<Image>
    var linksTable: seq<StaticResults.Row>
    var cards: seq<Card>
    /** The `data-original` attribute of the text panel. */
    var dataOriginal: String
    /** The text panel as the page last set it. */
    var textView: Search.TextView

    ghost predicate Valid()
      reads this, selection
    {
      selection.Valid()
    }

    constructor(parse: UrlParser)
      ensures Valid() && fresh(selection)
      ensures this.parse == parse && current.None? && currentLinks == [] && currentImages == []
      ensures selection.items == [] && cards == []
    {
      this.parse := parse;
      selection := new SelectedImages();
      current := None;
      currentLinks := [];
      currentImages := [];
      linksTable := [];
      cards := [];
      dataOriginal := [];
      textView := Search.PlainText([]);
    }

    function State(): PageState
      reads this
    {
      PageState(current, currentLinks, currentImages, linksTable, cards, dataOriginal, textView)
    }

    /** The page URL that classifyLink compares against; "" with no current result. */
    function Origin(): String
      reads this
    {
      if current.Some? then current.value.url else []
    }

    /** The text the panel shows when no search is active. */
    function ShownText(): String
      reads this
    {
      if textView.PlainText? then textView.text else NoExtractedText
    }

    /** populateResults: the result becomes current; tables, grid and text are rebuilt; the selection is kept. */
    method Populate(data: ScrapeResult)
      modifies this
      ensures current == Some(data) && currentLinks == data.links && currentImages == data.images
      ensures linksTable == StaticResults.LinksTable(parse, data.url, data.links)
      ensures cards == CardsFor(data.images)
      ensures dataOriginal == data.textContent
      ensures textView == Search.PlainText(if data.textContent != [] then data.textContent else NoExtractedText)
    {
      current := Some(data);
      dataOriginal := data.textContent;
      textView := Search.PlainText(if data.textContent != [] then data.textContent else NoExtractedText);
      currentLinks := data.links;
      linksTable := StaticResults.LinksTable(parse, data.url, currentLinks);
      currentImages := data.images;
      cards := CardsFor(currentImages);
    }

    /**
     * The form's submit handler: a URL that is empty once trimmed is
     * refused and nothing changes; otherwise the selection is emptied and
     * the trimmed URL is sent.
     */
    method Submit(input: String, usePlaywright: bool) returns (s: Submission)
      requires Valid()
      modifies selection
      ensures Valid()
      ensures Strip(input) == [] ==> s == Rejected("Please enter a URL") && selection.items == old(selection.items)
      ensures Strip(input) != [] ==> s == Sent(Strip(input), usePlaywright) && selection.items == []
    {
      var url := Strip(input);
      if url == [] {
        return Rejected("Please enter a URL");
      }
      selection.Clear();
      s := Sent(url, usePlaywright);
    }

    /** The retry button: the trimmed URL is sent again when there is one; the selection is kept. */
    method Retry(input: String, usePlaywright: bool) returns (s: Option<Submission>)
      ensures s.None? <==> Strip(input) == []
      ensures s.Some? ==> s.value == Sent(Strip(input), usePlaywright)
    {
      var url := Strip(input);
      if url != [] {
        s := Some(Sent(url, usePlaywright));
      } else {
        s := None;
      }
    }

    /** The clear-results button: no current result and an empty selection; the link and image lists stay. */
    method ClearResults()
      requires Valid()
      modifies this, selection
      ensures Valid()
      ensures current.None? && selection.items == []
      ensures State() == old(State()).(current := None)
    {
      current := None;
      selection.Clear();
    }

    /** A checkbox change: ticking adds the card's source, unticking deletes it. */
    method Toggle(k: nat, checked: bool)
      requires Valid() && k < |cards|
      modifies this, selection
      ensures Valid()
      ensures cards == old(cards)[k := Card(old(cards)[k].src, checked)]
      ensures checked ==> selection.items == Insert(old(selection.items), old(cards)[k].src)
      ensures !checked ==> selection.items == Remove(old(selection.items), old(cards)[k].src)
      ensures State() == old(State()).(cards := cards)
    {
      var src := cards[k].src;
      cards := cards[k := Card(src, checked)];
      if checked {
        selection.Add(src);
      } else {
        selection.Delete(src);
      }
    }

    /** Select all: every rendered card is ticked and its source added, in card order. */
    method SelectAll()
      requires Valid()
      modifies this, selection
      ensures Valid()
      ensures cards == WithChecks(old(cards), true)
      ensures selection.items == InsertAll(old(selection.items), Sources(old(cards)))
      ensures State() == old(State()).(cards := cards)
    {
      selection.AddAll(Sources(cards));
      cards := WithChecks(cards, true);
    }

    /** Deselect all: every rendered card is unticked and the whole selection emptied, hidden images included. */
    method DeselectAll()
      requires Valid()
      modifies this, selection
      ensures Valid()
      ensures cards == WithChecks(old(cards), false)
      ensures selection.items == []
      ensures State() == old(State()).(cards := cards)
    {
      cards := WithChecks(cards, false);
      selection.Clear();
    }

    /** The internal/external/all buttons: the table shows the filtered list, or is left as it was. */
    method FilterLinks(mode: String)
      modifies this
      ensures var r := StaticResults.FilterLinks(parse, old(Origin()), old(currentLinks), mode);
        linksTable == (if r.Some? then StaticResults.LinksTable(parse, old(Origin()), r.value) else old(linksTable))
      ensures State() == old(State()).(linksTable := linksTable)
    {
      var r := StaticResults.FilterLinks(parse, Origin(), currentLinks, mode);
      if r.Some? {
        linksTable := StaticResults.LinksTable(parse, Origin(), r.value);
      }
    }

    /** The links search box. */
    method SearchLinks(term: String)
      modifies this
      ensures var r := StaticResults.FilterLinksBySearch(old(currentLinks), term);
        linksTable == (if r.Some? then StaticResults.LinksTable(parse, old(Origin()), r.value) else old(linksTable))
      ensures State() == old(State()).(linksTable := linksTable)
    {
      var r := StaticResults.FilterLinksBySearch(currentLinks, term);
      if r.Some? {
        linksTable := StaticResults.LinksTable(parse, Origin(), r.value);
      }
    }

    /**
     * The images search box: the grid is rebuilt from the matching images
     * with every box unticked, and the selection is not touched — an image
     * the search hides stays selected.
     */
    method SearchImages(term: String)
      modifies this
      ensures var r := StaticResults.FilterImagesBySearch(old(currentImages), term);
        cards == (if r.Some? then CardsFor(r.value) else old(cards))
      ensures State() == old(State()).(cards := cards)
    {
      var r := StaticResults.FilterImagesBySearch(currentImages, term);
      if r.Some? {
        cards := CardsFor(r.value);
      }
    }

    /** The text search box. */
    method SearchText(input: String)
      modifies this
      ensures textView == Search.SearchText(old(dataOriginal), old(ShownText()), input)
      ensures State() == old(State()).(textView := textView)
    {
      textView := Search.SearchText(dataOriginal, ShownText(), input);
    }
  }

  /** Ticking a box and unticking it again leaves a selection that lacked it as it was. */
  method CheckThenUncheck(page: Page, k: nat)
    requires page.Valid() && k < |page.cards| && page.cards[k].src !in page.selection.items
    modifies page, page.selection
    ensures page.Valid() && page.selection.items == old(page.selection.items)
    ensures k < |page.cards| && !page.cards[k].checked
  {
    page.Toggle(k, true);
    page.Toggle(k, false);
    CheckThenUncheckRestores(old(page.selection.items), old(page.cards)[k].src);
  }

  /** Searching never deselects: whatever the term, the selection is the same set afterwards. */
  method SearchKeepsSelection(page: Page, term: String)
    requires page.Valid()
    modifies page
    ensures page.Valid() && page.selection.items == old(page.selection.items)
  {
    page.SearchImages(term);
  }
}
