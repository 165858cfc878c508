/**
 * The scrape result as the browser receives it from `POST /scrape`, and the
 * abstraction of the WHATWG URL parser that the scripts call through
 * `new URL(…)`.
 */
module ScrapeModel {
  import opened Wrappers
  import opened Text

  /** The parts of a parsed URL the scripts read. */
  datatype Url = Url(hostname: String, pathname: String)

  /**
   * `new URL(s)`: the parsed URL, or None where the constructor throws.
   * URL parsing itself is not modelled; every operation that needs it takes
   * the parser as a parameter.
   */
  type UrlParser = String -> Option<Url>

  datatype Heading = Heading(level: String, text: String, id: String, classes: String)

  /** A link; `text` is None where the JSON record has no text field. */
  datatype Link = Link(text: Option<String>, url: String)

  /** An image; `alt` is None where the JSON record has no alt field. */
  datatype Image = Image(src: String, alt: Option<String>, width: Option<String>, height: Option<String>)

  datatype MetaTag = MetaTag(name: String, content: String)

  datatype OgTag = OgTag(property: String, content: String)

  /** The response body of a successful scrape. */
  datatype ScrapeResult = ScrapeResult(
    url: String,
    title: String,
    description: String,
    textContent: String,
    html: String,
    headings: seq<Heading>,
    links: seq<Link>,
    images: seq<Image>,
    metadata: seq<MetaTag>,
    openGraph: seq<OgTag>,
    fetchTime: String,
    contentSize: String,
    wordCount: nat,
    titleLength: nat,
    linksCount: nat,
    imagesCount: nat,
    headingsCount: nat)
}
