/**
 * Export of the template-served script (templates/script.js): single files
 * under fixed names, a single JSON bundle in place of an archive, and
 * selected images saved one by one straight from their sources.
 */
module TemplatesExport {
  import opened Wrappers
  import opened Text
  import opened ScrapeModel
  import opened Downloads
  import StaticExport

  /** The HTML button: `page.html`, with the same placeholder as the static script. */
  function DownloadHtml(current: Option<ScrapeResult>): (a: Action)
    ensures current.None? <==> a == Alert("No HTML content to download")
    ensures current.Some? ==> (a.Save? && a.download.File? && a.download.filename == "page.html" &&
      a.download.content.Text? && a.download.content.text != [] &&
      (current.value.html != [] ==> a.download.content.text == current.value.html))
    ensures current.Some? ==> a.Save? && a.download.File? && a.download.mime == "text/html"
    ensures current.Some? && current.value.html == [] ==>
      a.Save? && a.download.File? && a.download.content == Text("<html><body>No HTML content</body></html>")
  {
    if current.None? then Alert("No HTML content to download")
    else
      var html := if current.value.html != [] then current.value.html else StaticExport.NoHtmlPlaceholder;
      Save(File("page.html", "text/html", Text(html)))
  }

  /** The text button: `content.txt`. */
  function DownloadText(current: Option<ScrapeResult>): (a: Action)
    ensures current.None? <==> a == Alert("No text content to download")
    ensures current.Some? ==> (a.Save? && a.download.File? && a.download.filename == "content.txt" &&
      a.download.content.Text? && a.download.content.text != [] &&
      (current.value.textContent != [] ==> a.download.content.text == current.value.textContent))
    ensures current.Some? ==> a.Save? && a.download.File? && a.download.mime == "text/plain"
    ensures current.Some? && current.value.textContent == [] ==>
      a.Save? && a.download.File? && a.download.content == Text("No text content")
  {
    if current.None? then Alert("No text content to download")
    else
      var text := if current.value.textContent != [] then current.value.textContent else StaticExport.NoTextPlaceholder;
      Save(File("content.txt", "text/plain", Text(text)))
  }

  /** The JSON button: `scraped-data.json`. */
  function DownloadJson(current: Option<ScrapeResult>): (a: Action)
    ensures current.None? <==> a == Alert("No data to download")
    ensures current.Some? ==> a == Save(File("scraped-data.json", "application/json", Json(current.value)))
  {
    if current.None? then Alert("No data to download")
    else Save(File("scraped-data.json", "application/json", Json(current.value)))
  }

  /**
   * The two scripts save the same content from the same result; only the
   * file names differ (fixed here, timestamped there).
   */
  lemma SingleFilesMatchStatic(current: Option<ScrapeResult>, ts: nat)
    requires current.Some?
    ensures DownloadHtml(current).download.content == StaticExport.DownloadHtml(current, ts).download.content
    ensures DownloadText(current).download.content == StaticExport.DownloadText(current, ts).download.content
    ensures DownloadJson(current).download.content == StaticExport.DownloadJson(current, ts).download.content
    ensures DownloadHtml(current).download.filename != StaticExport.DownloadHtml(current, ts).download.filename
  {
    var f := StaticExport.DownloadHtml(current, ts).download.filename;
    assert f[4] == '-';
    assert "page.html"[4] == '.';
  }

  /** downloadAsZip: the result's fields gathered into one object, `scrapedAt` supplied by the caller. */
  function BundleOf(data: ScrapeResult, scrapedAt: String): (b: Bundle)
    ensures b.url == data.url && b.title == data.title && b.description == data.description
    ensures b.scrapedAt == scrapedAt
    ensures b.content == BundleContent(data.textContent, data.html, data.headings, data.links, data.images, data.metadata, data.openGraph)
  {
    Bundle(data.url, data.title, data.description, scrapedAt,
      BundleContent(data.textContent, data.html, data.headings, data.links, data.images, data.metadata, data.openGraph))
  }

  /** The "download all" button: one JSON file, `scraped-website-data.json`, however much was scraped. */
  function DownloadAll(current: Option<ScrapeResult>, scrapedAt: String): (a: Action)
    ensures current.None? <==> a == Alert("No data to download")
    ensures current.Some? ==> a == Save(File("scraped-website-data.json", "application/json", BundleJson(BundleOf(current.value, scrapedAt))))
  {
    if current.None? then Alert("No data to download")
    else Save(File("scraped-website-data.json", "application/json", BundleJson(BundleOf(current.value, scrapedAt))))
  }

  /**
   * The image modal's download button: the file is named by the alt text
   * as shown, without sanitising or extension, or "image" when it is empty.
   */
  function SingleImageName(alt: String): (r: String)
    ensures r != []
    ensures alt != [] ==> r == alt
    ensures alt == [] ==> r == "image"
  {
    if alt != [] then alt else "image"
  }

  /** The name `image-<now>-<count>` of the count-th download (from 0), read at clock value `now`. */
  function SelectedImageName(now: nat, count: nat): String {
    "image-" + NatToString(now) + "-" + NatToString(count)
  }

  /** Different positions give different names, whatever the clock reads. */
  lemma SelectedImageNamesDistinct(t1: nat, c1: nat, t2: nat, c2: nat)
    requires SelectedImageName(t1, c1) == SelectedImageName(t2, c2)
    ensures c1 == c2 && t1 == t2
  {
    NumberBeforeSeparator("image-", t1, t2, '-', NatToString(c1), NatToString(c2));
    NatToStringInjective(c1, c2);
  }

  /**
   * downloadSelectedImages: one link per selected source, in insertion
   * order; `clock[i]` is what `Date.now()` returned for the i-th. The
   * alert counts the whole selection.
   */
  method DownloadSelectedImages(selected: seq<String>, clock: seq<nat>) returns (downloads: seq<Download>, alert: Option<String>)
    requires |clock| == |selected|
    ensures selected == [] ==> downloads == [] && alert.None?
    ensures selected != [] ==> alert == Some("Downloaded " + NatToString(|selected|) + " images")
    ensures |downloads| == |selected|
    ensures forall i :: 0 <= i < |selected| ==> downloads[i] == ImageLink(SelectedImageName(clock[i], i), selected[i])
    ensures forall i, j :: 0 <= i < j < |downloads| ==> downloads[i].filename != downloads[j].filename
  {
    if |selected| == 0 {
      return [], None;
    }
    downloads := [];
    var count := 0;
    while count < |selected|
      invariant 0 <= count <= |selected|
      invariant |downloads| == count
      invariant forall i :: 0 <= i < count ==> downloads[i] == ImageLink(SelectedImageName(clock[i], i), selected[i])
    {
      downloads := downloads + [ImageLink(SelectedImageName(clock[count], count), selected[count])];
      count := count + 1;
    }
    forall i, j | 0 <= i < j < |downloads|
      ensures downloads[i].filename != downloads[j].filename
    {
      if downloads[i].filename == downloads[j].filename {
        SelectedImageNamesDistinct(clock[i], i, clock[j], j);
      }
    }
    alert := Some("Downloaded " + NatToString(|selected|) + " images");
  }

  /** The "download images" button. */
  method DownloadImagesButton(selected: seq<String>, clock: seq<nat>) returns (downloads: seq<Download>, alert: Option<String>)
    requires |clock| == |selected|
    ensures selected == [] ==> downloads == [] && alert == Some("Please select at least one image to download")
    ensures selected != [] ==> |downloads| == |selected| && alert == Some("Downloaded " + NatToString(|selected|) + " images")
    ensures forall i :: 0 <= i < |downloads| ==> downloads[i] == ImageLink(SelectedImageName(clock[i], i), selected[i])
    ensures forall i, j :: 0 <= i < j < |downloads| ==> downloads[i].filename != downloads[j].filename
  {
    if |selected| == 0 {
      return [], Some("Please select at least one image to download");
    }
    downloads, alert := DownloadSelectedImages(selected, clock);
  }
}
