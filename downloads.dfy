/**
 * What an export hands to the browser. Blobs, object URLs and anchor
 * clicks are not modelled: a download is a record of its file name and
 * content, and a ZIP archive is its list of entries.
 */
module Downloads {
  import opened Text
  import opened ScrapeModel

  /** The `content` object of the single-file JSON bundle. */
  datatype BundleContent = BundleContent(
    text: String,
    html: String,
    headings: seq<Heading>,
    links: seq<Link>,
    images: seq<Image>,
    metadata: seq<MetaTag>,
    openGraph: seq<OgTag>)

  /** The object the template-served script serialises as its "zip" export. */
  datatype Bundle = Bundle(url: String, title: String, description: String, scrapedAt: String, content: BundleContent)

  /**
   * File contents. `JSON.stringify` is not modelled: a serialised value is
   * the value itself. A fetched image body is named by its source and the
   * media type the response reported.
   */
  datatype Payload =
    | Text(text: String)
    | Json(data: ScrapeResult)
    | BundleJson(bundle: Bundle)
    | ImageBody(src: String, mediaType: String)
    | Folder

  datatype Entry = Entry(path: String, content: Payload)

  datatype Download =
    | File(filename: String, mime: String, content: Payload)
    | Archive(filename: String, entries: seq<Entry>)
    | ImageLink(filename: String, href: String)

  /** A button press either alerts or starts a download. */
  datatype Action = Alert(message: String) | Save(download: Download)
}
