/**
 * Export planning of the flat single-page script (static/script.js): file
 * extensions, file names, the selected-images archive with its one-by-one
 * fallback, the full-dataset archive with its JSON-only fallback, and the
 * single-file download buttons.
 *
 * The network is an input: `fetches[i]` is what fetching the i-th selected
 * image yields. The JSZip library is an input too: absent, or present and
 * either able or unable to generate the archive. Timestamps are parameters.
 */
module StaticExport {
  import opened Wrappers
  import opened Text
  import opened Sequences
  import opened ScrapeModel
  import opened Downloads

  /** The outcome of `fetch(src)` for one image. */
  datatype Fetch =
    | Fetched(mediaType: String)   // a response with `ok` set and a blob of this type
    | NotOk                        // a response without `ok`
    | Threw                        // the fetch or the blob read threw

  datatype ZipLibrary = Missing | Loaded(generateFails: bool)

  // ---------------------------------------------------------------------
  // Extensions

  const ImageExtensions: seq<String> := ["jpg", "jpeg", "png", "gif", "webp", "bmp", "svg"]

  /** getImageExtensionFromBlob: the probes in their order; "jpeg" yields "jpg". */
  function ExtFromMediaType(mediaType: String): (r: Option<String>)
    ensures r.Some? ==> r.value in ImageExtensions && r.value != "jpeg"
    ensures Contains(mediaType, "jpeg") ==> r == Some("jpg")
    ensures (!Contains(mediaType, "jpeg") && Contains(mediaType, "png")) ==> r == Some("png")
    ensures (!Contains(mediaType, "jpeg") && !Contains(mediaType, "png") && Contains(mediaType, "gif")) ==> r == Some("gif")
    ensures (!Contains(mediaType, "jpeg") && !Contains(mediaType, "png") && !Contains(mediaType, "gif") &&
      Contains(mediaType, "webp")) ==> r == Some("webp")
    ensures (!Contains(mediaType, "jpeg") && !Contains(mediaType, "png") && !Contains(mediaType, "gif") &&
      !Contains(mediaType, "webp") && Contains(mediaType, "bmp")) ==> r == Some("bmp")
    ensures (!Contains(mediaType, "jpeg") && !Contains(mediaType, "png") && !Contains(mediaType, "gif") &&
      !Contains(mediaType, "webp") && !Contains(mediaType, "bmp") && Contains(mediaType, "svg")) ==> r == Some("svg")
    ensures r.None? <==>
      !Contains(mediaType, "jpeg") && !Contains(mediaType, "png") && !Contains(mediaType, "gif") &&
      !Contains(mediaType, "webp") && !Contains(mediaType, "bmp") && !Contains(mediaType, "svg")
  {
    if Contains(mediaType, "jpeg") then Some("jpg")
    else if Contains(mediaType, "png") then Some("png")
    else if Contains(mediaType, "gif") then Some("gif")
    else if Contains(mediaType, "webp") then Some("webp")
    else if Contains(mediaType, "bmp") then Some("bmp")
    else if Contains(mediaType, "svg") then Some("svg")
    else None
  }

  /** The first of `exts` that ends `path` after a dot. */
  function SuffixAmong(path: String, exts: seq<String>): (r: Option<String>)
    ensures r.Some? ==> r.value in exts && EndsWith(path, "." + r.value)
    ensures r.None? ==> forall e :: e in exts ==> !EndsWith(path, "." + e)
  {
    if exts == [] then None
    else if EndsWith(path, "." + exts[0]) then Some(exts[0])
    else SuffixAmong(path, exts[1..])
  }

  /**
   * getImageExtensionFromUrl: the known extension that ends the URL's path,
   * compared without case and returned in lower case; None where the URL
   * does not parse or its path ends otherwise.
   */
  function ExtFromUrl(parse: UrlParser, url: String): (r: Option<String>)
    ensures r.Some? ==> (parse(url).Some? && r.value in ImageExtensions &&
      EndsWith(Lower(parse(url).value.pathname), "." + r.value))
    ensures r.None? <==> (parse(url).None? ||
      forall e :: e in ImageExtensions ==> !EndsWith(Lower(parse(url).value.pathname), "." + e))
  {
    if parse(url).None? then None
    else SuffixAmong(Lower(parse(url).value.pathname), ImageExtensions)
  }

  /** `getImageExtensionFromBlob(blob) || getImageExtensionFromUrl(src) || 'jpg'`. */
  function ImageExtension(mediaType: String, parse: UrlParser, src: String): (r: String)
    ensures r in ImageExtensions
    ensures ExtFromMediaType(mediaType).Some? ==> r == ExtFromMediaType(mediaType).value
    ensures ExtFromMediaType(mediaType).None? && ExtFromUrl(parse, src).Some? ==> r == ExtFromUrl(parse, src).value
    ensures ExtFromMediaType(mediaType).None? && ExtFromUrl(parse, src).None? ==> r == "jpg"
  {
    ExtFromMediaType(mediaType).GetOr(ExtFromUrl(parse, src).GetOr("jpg"))
  }

  /** `getImageExtensionFromUrl(src) || 'jpg'`, where no blob is at hand. */
  function UrlExtension(parse: UrlParser, src: String): (r: String)
    ensures r in ImageExtensions
    ensures ExtFromUrl(parse, src).Some? ==> r == ExtFromUrl(parse, src).value
    ensures ExtFromUrl(parse, src).None? ==> r == "jpg"
  {
    ExtFromUrl(parse, src).GetOr("jpg")
  }

  // ---------------------------------------------------------------------
  // File names

  /** generateFilename: `base-timestamp.extension`. */
  function GenerateFilename(base: String, ext: String, ts: nat): (r: String)
    ensures StartsWith(r, base + "-") && EndsWith(r, "." + ext)
  {
    base + "-" + NatToString(ts) + "." + ext
  }

  /** Names generated at different instants differ. */
  lemma GenerateFilenameDistinct(base: String, ext: String, t1: nat, t2: nat)
    requires GenerateFilename(base, ext, t1) == GenerateFilename(base, ext, t2)
    ensures t1 == t2
  {
    NumberBeforeSeparator(base + "-", t1, t2, '.', ext, ext);
  }

  predicate IsAlnum(c: char) {
    'a' <= c <= 'z' || 'A' <= c <= 'Z' || '0' <= c <= '9'
  }

  /** `replace(/[^a-z0-9]/gi, '_')`. */
  function Sanitize(s: String): (r: String)
    ensures |r| == |s|
    ensures forall i :: 0 <= i < |s| ==> r[i] == if IsAlnum(s[i]) then s[i] else '_'
  {
    seq(|s|, i requires 0 <= i < |s| => if IsAlnum(s[i]) then s[i] else '_')
  }

  /** The stem of generateImageFilename: the sanitised alt text cut to 50, or "image". */
  function ImageStem(alt: String): (r: String)
    ensures 1 <= |r| <= 50
    ensures forall i :: 0 <= i < |r| ==> IsAlnum(r[i]) || r[i] == '_'
    ensures alt == [] || alt == "No alt text" ==> r == "image"
    ensures alt != [] && alt != "No alt text" ==>
      |r| == Min(|alt|, 50) && forall i :: 0 <= i < |r| ==> r[i] == if IsAlnum(alt[i]) then alt[i] else '_'
  {
    if alt != [] && alt != "No alt text" then Sanitize(alt)[..Min(|alt|, 50)] else "image"
  }

  /** generateImageFilename: `stem-timestamp.extension`, the extension from the URL or "jpg". */
  function GenerateImageFilename(alt: String, parse: UrlParser, src: String, ts: nat): (r: String)
    ensures StartsWith(r, ImageStem(alt) + "-" + NatToString(ts) + ".")
    ensures exists e :: e in ImageExtensions && r == ImageStem(alt) + "-" + NatToString(ts) + "." + e
    ensures EndsWith(r, "." + UrlExtension(parse, src))
  {
    var e := UrlExtension(parse, src);
    var front := ImageStem(alt) + "-" + NatToString(ts);
    DottedNameParts(front, e);
    front + "." + e
  }

  /** `front.ext` starts with `front.` and ends with `.ext`. */
  lemma DottedNameParts(front: String, ext: String)
    ensures StartsWith(front + "." + ext, front + ".") && EndsWith(front + "." + ext, "." + ext)
  {
    ConcatEnds(front + ".", ext);
    ConcatEnds(front, "." + ext);
    assert front + ("." + ext) == front + "." + ext;
  }

  // ---------------------------------------------------------------------
  // The selected-images archive

  /** The path of the archive entry numbered `number`. */
  function ImagePath(number: nat, ext: String): String {
    "images/image-" + NatToString(number) + "." + ext
  }

  /** Entry paths with different numbers differ, whatever their extensions. */
  lemma ImagePathsDistinct(a: nat, b: nat, ea: String, eb: String)
    requires ImagePath(a, ea) == ImagePath(b, eb)
    ensures a == b
  {
    NumberBeforeSeparator("images/image-", a, b, '.', ea, eb);
  }

  /** The entry that the i-th selected image (from 0) adds when its fetch succeeded. */
  function EntryFor(src: String, mediaType: String, number: nat, parse: UrlParser): Entry {
    Entry(ImagePath(number, ImageExtension(mediaType, parse, src)), ImageBody(src, mediaType))
  }

  function ErrorFor(src: String, f: Fetch): String {
    if f.NotOk? then "Failed to fetch: " + src else "Failed: " + src
  }

  /** The entries of the loop over the selection: numbered by position, so a failure leaves a gap. */
  function SelectedEntries(srcs: seq<String>, fetches: seq<Fetch>, parse: UrlParser): seq<Entry>
    requires |fetches| == |srcs|
    decreases |srcs|
  {
    if srcs == [] then []
    else
      var n := |srcs|;
      SelectedEntries(srcs[..n - 1], fetches[..n - 1], parse) +
        (if fetches[n - 1].Fetched? then [EntryFor(srcs[n - 1], fetches[n - 1].mediaType, n, parse)] else [])
  }

  /** The number of successful fetches. */
  function Succeeded(fetches: seq<Fetch>): nat {
    if fetches == [] then 0
    else Succeeded(fetches[..|fetches| - 1]) + (if fetches[|fetches| - 1].Fetched? then 1 else 0)
  }

  /** The messages collected for failed fetches, in selection order. */
  function FetchErrors(srcs: seq<String>, fetches: seq<Fetch>): seq<String>
    requires |fetches| == |srcs|
    decreases |srcs|
  {
    if srcs == [] then []
    else
      var n := |srcs|;
      FetchErrors(srcs[..n - 1], fetches[..n - 1]) +
        (if fetches[n - 1].Fetched? then [] else [ErrorFor(srcs[n - 1], fetches[n - 1])])
  }

  /**
   * Every selected image is counted once: as an archive entry when its fetch
   * succeeded, as an error otherwise.
   */
  lemma {:induction false} CountsAddUp(srcs: seq<String>, fetches: seq<Fetch>, parse: UrlParser)
    requires |fetches| == |srcs|
    ensures |SelectedEntries(srcs, fetches, parse)| == Succeeded(fetches)
    ensures Succeeded(fetches) + |FetchErrors(srcs, fetches)| == |srcs|
  {
    SelectedEntriesCount(srcs, fetches, parse);
    FetchErrorsCount(srcs, fetches);
  }

  lemma {:induction false} SelectedEntriesCount(srcs: seq<String>, fetches: seq<Fetch>, parse: UrlParser)
    requires |fetches| == |srcs|
    ensures |SelectedEntries(srcs, fetches, parse)| == Succeeded(fetches)
    decreases |srcs|
  {
    if srcs != [] {
      var n := |srcs|;
      var s', f' := srcs[..n - 1], fetches[..n - 1];
      SelectedEntriesCount(s', f', parse);
      assert Succeeded(fetches) == Succeeded(f') + (if fetches[n - 1].Fetched? then 1 else 0);
    }
  }

  lemma {:induction false} FetchErrorsCount(srcs: seq<String>, fetches: seq<Fetch>)
    requires |fetches| == |srcs|
    ensures Succeeded(fetches) + |FetchErrors(srcs, fetches)| == |srcs|
    decreases |srcs|
  {
    if srcs != [] {
      var n := |srcs|;
      var s', f' := srcs[..n - 1], fetches[..n - 1];
      FetchErrorsCount(s', f');
      assert Succeeded(fetches) == Succeeded(f') + (if fetches[n - 1].Fetched? then 1 else 0);
    }
  }

  /**
   * The archive holds, for each position whose fetch succeeded, the entry
   * numbered by that position, and nothing else.
   */
  lemma SelectedEntriesByPosition(srcs: seq<String>, fetches: seq<Fetch>, parse: UrlParser)
    requires |fetches| == |srcs|
    ensures forall i :: 0 <= i < |srcs| && fetches[i].Fetched? ==>
      EntryFor(srcs[i], fetches[i].mediaType, i + 1, parse) in SelectedEntries(srcs, fetches, parse)
    ensures forall e :: e in SelectedEntries(srcs, fetches, parse) ==>
      exists i :: 0 <= i < |srcs| && fetches[i].Fetched? && e == EntryFor(srcs[i], fetches[i].mediaType, i + 1, parse)
  {
    SuccessesHaveEntries(srcs, fetches, parse);
    EntriesAreSuccesses(srcs, fetches, parse);
  }

  lemma {:induction false} SuccessesHaveEntries(srcs: seq<String>, fetches: seq<Fetch>, parse: UrlParser)
    requires |fetches| == |srcs|
    ensures forall i :: 0 <= i < |srcs| && fetches[i].Fetched? ==>
      EntryFor(srcs[i], fetches[i].mediaType, i + 1, parse) in SelectedEntries(srcs, fetches, parse)
    decreases |srcs|
  {
    if srcs != [] {
      var n := |srcs|;
      var s', f' := srcs[..n - 1], fetches[..n - 1];
      SuccessesHaveEntries(s', f', parse);
      var prev := SelectedEntries(s', f', parse);
      var last := if fetches[n - 1].Fetched? then [EntryFor(srcs[n - 1], fetches[n - 1].mediaType, n, parse)] else [];
      assert SelectedEntries(srcs, fetches, parse) == prev + last;
      forall i | 0 <= i < n && fetches[i].Fetched?
        ensures EntryFor(srcs[i], fetches[i].mediaType, i + 1, parse) in prev + last
      {
        if i < n - 1 {
          assert s'[i] == srcs[i] && f'[i] == fetches[i];
        }
      }
    }
  }

  lemma {:induction false} EntriesAreSuccesses(srcs: seq<String>, fetches: seq<Fetch>, parse: UrlParser)
    requires |fetches| == |srcs|
    ensures forall e :: e in SelectedEntries(srcs, fetches, parse) ==>
      exists i :: 0 <= i < |srcs| && fetches[i].Fetched? && e == EntryFor(srcs[i], fetches[i].mediaType, i + 1, parse)
    decreases |srcs|
  {
    if srcs != [] {
      var n := |srcs|;
      var s', f' := srcs[..n - 1], fetches[..n - 1];
      EntriesAreSuccesses(s', f', parse);
      var prev := SelectedEntries(s', f', parse);
      var last := if fetches[n - 1].Fetched? then [EntryFor(srcs[n - 1], fetches[n - 1].mediaType, n, parse)] else [];
      assert SelectedEntries(srcs, fetches, parse) == prev + last;
      forall e | e in prev + last
        ensures exists i :: 0 <= i < n && fetches[i].Fetched? && e == EntryFor(srcs[i], fetches[i].mediaType, i + 1, parse)
      {
        if e in prev {
          var i :| 0 <= i < n - 1 && f'[i].Fetched? && e == EntryFor(s'[i], f'[i].mediaType, i + 1, parse);
          assert s'[i] == srcs[i] && f'[i] == fetches[i];
        } else {
          assert e == EntryFor(srcs[n - 1], fetches[n - 1].mediaType, n, parse);
        }
      }
    }
  }

  /** A failed fetch leaves its number unused: no entry has the path number of a failed position. */
  lemma FailureLeavesGap(srcs: seq<String>, fetches: seq<Fetch>, parse: UrlParser, i: nat, ext: String)
    requires |fetches| == |srcs| && i < |srcs| && !fetches[i].Fetched?
    ensures forall e :: e in SelectedEntries(srcs, fetches, parse) ==> e.path != ImagePath(i + 1, ext)
  {
    SelectedEntriesByPosition(srcs, fetches, parse);
    forall e | e in SelectedEntries(srcs, fetches, parse)
      ensures e.path != ImagePath(i + 1, ext)
    {
      var j :| 0 <= j < |srcs| && fetches[j].Fetched? && e == EntryFor(srcs[j], fetches[j].mediaType, j + 1, parse);
      if e.path == ImagePath(i + 1, ext) {
        ImagePathsDistinct(j + 1, i + 1, ImageExtension(fetches[j].mediaType, parse, srcs[j]), ext);
      }
    }
  }

  /** The fetch loop of downloadSelectedImagesAsZip. */
  method FetchSelected(srcs: seq<String>, fetches: seq<Fetch>, parse: UrlParser)
    returns (entries: seq<Entry>, completed: nat, errors: seq<String>)
    requires |fetches| == |srcs|
    ensures entries == SelectedEntries(srcs, fetches, parse)
    ensures completed == Succeeded(fetches)
    ensures errors == FetchErrors(srcs, fetches)
  {
    entries, completed, errors := [], 0, [];
    var i := 0;
    while i < |srcs|
      invariant 0 <= i <= |srcs|
      invariant entries == SelectedEntries(srcs[..i], fetches[..i], parse)
      invariant completed == Succeeded(fetches[..i])
      invariant errors == FetchErrors(srcs[..i], fetches[..i])
    {
      assert srcs[..i + 1][..i] == srcs[..i];
      assert fetches[..i + 1][..i] == fetches[..i];
      match fetches[i] {
        case NotOk =>
          errors := errors + ["Failed to fetch: " + srcs[i]];
        case Threw =>
          errors := errors + ["Failed: " + srcs[i]];
        case Fetched(mediaType) =>
          var ext := ImageExtension(mediaType, parse, srcs[i]);
          entries := entries + [Entry(ImagePath(i + 1, ext), ImageBody(srcs[i], mediaType))];
          completed := completed + 1;
      }
      i := i + 1;
    }
    assert srcs[..i] == srcs;
    assert fetches[..i] == fetches;
  }

  /** A download scheduled with setTimeout. */
  datatype Timed = Timed(delay: nat, download: Download)

  /** The name every timer of the one-by-one fallback computes: the counter has reached the selection size by then. */
  function IndividualName(count: nat, ext: String): String {
    "image-" + NatToString(count + 1) + "." + ext
  }

  /**
   * downloadSelectedImagesIndividually. The i-th download waits 300·i ms;
   * its name is computed when the timer fires, after the loop has run to
   * the end, so every file is numbered one past the selection size.
   */
  method DownloadIndividually(srcs: seq<String>, parse: UrlParser) returns (downloads: seq<Timed>)
    ensures |downloads| == |srcs|
    ensures forall i :: 0 <= i < |srcs| ==> downloads[i].delay == 300 * i
    ensures forall i :: 0 <= i < |srcs| ==>
      downloads[i].download == ImageLink(IndividualName(|srcs|, UrlExtension(parse, srcs[i])), srcs[i])
  {
    var count := 0;
    var scheduled: seq<(nat, String)> := [];
    while count < |srcs|
      invariant 0 <= count <= |srcs|
      invariant |scheduled| == count
      invariant forall i :: 0 <= i < count ==> scheduled[i] == (300 * i, srcs[i])
    {
      scheduled := scheduled + [(count * 300, srcs[count])];
      count := count + 1;
    }
    downloads := seq(|scheduled|, i requires 0 <= i < |scheduled| =>
      Timed(scheduled[i].0, ImageLink(IndividualName(count, UrlExtension(parse, scheduled[i].1)), scheduled[i].1)));
  }

  datatype ImagesExport =
    | Refused(alert: String)                   // the button found nothing selected
    | Skipped                                  // the early return on an empty selection
    | Zipped(archive: Download, notice: String)
    | NoArchive(notice: String)                // every fetch failed
    | OneByOne(downloads: seq<Timed>)          // the fallback

  /** The notice shown after the archive was saved. */
  function ZippedNotice(completed: nat, failed: nat): String {
    if failed > 0 then "Downloaded " + NatToString(completed) + " images (" + NatToString(failed) + " failed)"
    else "Successfully downloaded " + NatToString(completed) + " images as ZIP"
  }

  /**
   * downloadSelectedImagesAsZip over the selection in insertion order. The
   * archive `images-<ts>.zip` is saved exactly when some fetch succeeded
   * and the library can generate it; a missing library, or one that fails
   * to generate, falls back to one-by-one downloads.
   */
  method DownloadSelectedImagesAsZip(selected: seq<String>, fetches: seq<Fetch>, zip: ZipLibrary, parse: UrlParser, ts: nat)
    returns (r: ImagesExport)
    requires |fetches| == |selected|
    ensures selected == [] <==> r.Skipped?
    ensures r.Zipped? <==> selected != [] && zip == Loaded(false) && Succeeded(fetches) > 0
    ensures r.NoArchive? <==> selected != [] && zip.Loaded? && Succeeded(fetches) == 0
    ensures r.Zipped? ==> r.archive == Archive("images-" + NatToString(ts) + ".zip",
      [Entry("images/", Folder)] + SelectedEntries(selected, fetches, parse))
    ensures r.Zipped? ==> r.notice == ZippedNotice(Succeeded(fetches), |FetchErrors(selected, fetches)|)
    ensures r.NoArchive? ==> r.notice == "No images could be downloaded"
    ensures r.OneByOne? ==> (|r.downloads| == |selected| &&
      forall i :: 0 <= i < |selected| ==> r.downloads[i].download == ImageLink(IndividualName(|selected|, UrlExtension(parse, selected[i])), selected[i]))
    ensures r.OneByOne? ==> forall i :: 0 <= i < |selected| ==> r.downloads[i].delay == 300 * i
    ensures !r.Refused?
  {
    if selected == [] {
      return Skipped;
    }
    if zip.Missing? {
      var d := DownloadIndividually(selected, parse);
      return OneByOne(d);
    }
    var entries, completed, errors := FetchSelected(selected, fetches, parse);
    CountsAddUp(selected, fetches, parse);
    if completed > 0 {
      if zip.generateFails {
        var d := DownloadIndividually(selected, parse);
        return OneByOne(d);
      }
      var archive := Archive("images-" + NatToString(ts) + ".zip", [Entry("images/", Folder)] + entries);
      r := Zipped(archive, ZippedNotice(completed, |errors|));
    } else {
      r := NoArchive("No images could be downloaded");
    }
  }

  /** The "download images" button: an alert on an empty selection, the archive otherwise. */
  method DownloadImagesButton(selected: seq<String>, fetches: seq<Fetch>, zip: ZipLibrary, parse: UrlParser, ts: nat)
    returns (r: ImagesExport)
    requires |fetches| == |selected|
    ensures selected == [] <==> r == Refused("Please select at least one image to download")
    ensures !r.Skipped?
    ensures r.Zipped? <==> selected != [] && zip == Loaded(false) && Succeeded(fetches) > 0
    ensures r.NoArchive? <==> selected != [] && zip.Loaded? && Succeeded(fetches) == 0
    ensures r.OneByOne? <==> selected != [] && (zip.Missing? || (zip == Loaded(true) && Succeeded(fetches) > 0))
    ensures r.Zipped? ==> r.archive == Archive("images-" + NatToString(ts) + ".zip",
      [Entry("images/", Folder)] + SelectedEntries(selected, fetches, parse))
    ensures r.Zipped? ==> r.notice == ZippedNotice(Succeeded(fetches), |FetchErrors(selected, fetches)|)
    ensures r.NoArchive? ==> r.notice == "No images could be downloaded"
    ensures r.OneByOne? ==> (|r.downloads| == |selected| && forall i :: 0 <= i < |selected| ==>
      r.downloads[i] == Timed(300 * i, ImageLink(IndividualName(|selected|, UrlExtension(parse, selected[i])), selected[i])))
  {
    if |selected| == 0 {
      return Refused("Please select at least one image to download");
    }
    r := DownloadSelectedImagesAsZip(selected, fetches, zip, parse, ts);
  }

  // ---------------------------------------------------------------------
  // The full-dataset archive

  /** The images of the dataset archive, numbered 1, 2, … over the successful fetches only. */
  function DatasetImageEntries(srcs: seq<String>, fetches: seq<Fetch>, parse: UrlParser): seq<Entry>
    requires |fetches| == |srcs|
    decreases |srcs|
  {
    if srcs == [] then []
    else
      var n := |srcs|;
      var before := DatasetImageEntries(srcs[..n - 1], fetches[..n - 1], parse);
      before + (if fetches[n - 1].Fetched? then [EntryFor(srcs[n - 1], fetches[n - 1].mediaType, |before| + 1, parse)] else [])
  }

  /** The path prefix of the entry numbered `number`. */
  function NumberedPrefix(number: nat): String {
    "images/image-" + NatToString(number) + "."
  }

  /** The k-th entry (from 0) is numbered k + 1. */
  predicate NumberedFromOne(entries: seq<Entry>) {
    forall k :: 0 <= k < |entries| ==> StartsWith(entries[k].path, NumberedPrefix(k + 1))
  }

  lemma PathHasNumberedPrefix(number: nat, ext: String)
    ensures StartsWith(ImagePath(number, ext), NumberedPrefix(number))
  {
    assert ImagePath(number, ext) == NumberedPrefix(number) + ext;
  }

  /** Consecutive numbering: one entry per success, the k-th (from 0) numbered k + 1. */
  lemma {:induction false} DatasetImagesNumbered(srcs: seq<String>, fetches: seq<Fetch>, parse: UrlParser)
    requires |fetches| == |srcs|
    ensures |DatasetImageEntries(srcs, fetches, parse)| == Succeeded(fetches) <= |srcs|
    ensures NumberedFromOne(DatasetImageEntries(srcs, fetches, parse))
    decreases |srcs|
  {
    if srcs != [] {
      var n := |srcs|;
      var s', f' := srcs[..n - 1], fetches[..n - 1];
      DatasetImagesNumbered(s', f', parse);
      var before := DatasetImageEntries(s', f', parse);
      assert Succeeded(fetches) == Succeeded(f') + (if fetches[n - 1].Fetched? then 1 else 0);
      if fetches[n - 1].Fetched? {
        var x := EntryFor(srcs[n - 1], fetches[n - 1].mediaType, |before| + 1, parse);
        assert DatasetImageEntries(srcs, fetches, parse) == before + [x];
        PathHasNumberedPrefix(|before| + 1, ImageExtension(fetches[n - 1].mediaType, parse, srcs[n - 1]));
        NumberedAppend(before, x);
      } else {
        assert DatasetImageEntries(srcs, fetches, parse) == before + [];
      }
    }
  }

  lemma NumberedAppend(before: seq<Entry>, x: Entry)
    requires NumberedFromOne(before)
    requires StartsWith(x.path, NumberedPrefix(|before| + 1))
    ensures NumberedFromOne(before + [x])
  {
    assert forall k :: 0 <= k < |before| ==> (before + [x])[k] == before[k];
  }

  function Cap(n: nat): nat {
    Min(n, 20)
  }

  /** The entries of the `web-scraper-data-<ts>.zip` archive. */
  function DatasetEntries(data: ScrapeResult, selected: seq<String>, fetches: seq<Fetch>, parse: UrlParser): seq<Entry>
    requires |fetches| == |selected|
  {
    DatasetHead(data) + DatasetImages(selected, fetches, parse)
  }

  /** The JSON dump, then the page and the text when they are non-empty. */
  function DatasetHead(data: ScrapeResult): seq<Entry> {
    [Entry("scraped-data.json", Json(data))]
    + (if data.html != [] then [Entry("page.html", Text(data.html))] else [])
    + (if data.textContent != [] then [Entry("content.txt", Text(data.textContent))] else [])
  }

  /** The `images/` folder and the first 20 selected images, when any are selected. */
  function DatasetImages(selected: seq<String>, fetches: seq<Fetch>, parse: UrlParser): seq<Entry>
    requires |fetches| == |selected|
  {
    if selected != [] then
      [Entry("images/", Folder)] + DatasetImageEntries(selected[..Cap(|selected|)], fetches[..Cap(|selected|)], parse)
    else []
  }

  /** The predicate "some entry has this path". */
  predicate HasPath(entries: seq<Entry>, path: String) {
    exists i :: 0 <= i < |entries| && entries[i].path == path
  }

  lemma HasPathAppend(a: seq<Entry>, b: seq<Entry>, path: String)
    ensures HasPath(a + b, path) <==> HasPath(a, path) || HasPath(b, path)
  {
    if HasPath(a + b, path) {
      var i :| 0 <= i < |a + b| && (a + b)[i].path == path;
      if i >= |a| {
        assert b[i - |a|] == (a + b)[i];
      }
    }
    if HasPath(a, path) {
      var i :| 0 <= i < |a| && a[i].path == path;
      assert (a + b)[i] == a[i];
    }
    if HasPath(b, path) {
      var i :| 0 <= i < |b| && b[i].path == path;
      assert (a + b)[|a| + i] == b[i];
    }
  }

  lemma HeadPaths(data: ScrapeResult)
    ensures var h := DatasetHead(data);
      h[0] == Entry("scraped-data.json", Json(data)) && |h| <= 3 &&
      (HasPath(h, "page.html") <==> data.html != []) &&
      (HasPath(h, "content.txt") <==> data.textContent != [])
  {
    var h := DatasetHead(data);
    if data.html != [] {
      assert h[1].path == "page.html";
    }
    if data.textContent != [] {
      assert h[|h| - 1].path == "content.txt";
    }
  }

  lemma ImagesPaths(selected: seq<String>, fetches: seq<Fetch>, parse: UrlParser)
    requires |fetches| == |selected|
    ensures var t := DatasetImages(selected, fetches, parse);
      !HasPath(t, "page.html") && !HasPath(t, "content.txt") &&
      |t| <= (if selected == [] then 0 else 1 + 20)
  {
    if selected != [] {
      var c := Cap(|selected|);
      var imgs := DatasetImageEntries(selected[..c], fetches[..c], parse);
      DatasetImagesNumbered(selected[..c], fetches[..c], parse);
      var t := [Entry("images/", Folder)] + imgs;
      forall k | 0 <= k < |t|
        ensures t[k].path != "page.html" && t[k].path != "content.txt"
      {
        if k > 0 {
          assert t[k] == imgs[k - 1];
          assert StartsWith(imgs[k - 1].path, NumberedPrefix(k));
          assert imgs[k - 1].path[0] == 'i';
        }
      }
    }
  }

  /**
   * The dataset archive always holds the JSON dump first, the page exactly
   * when the HTML is non-empty, the text exactly when it is non-empty, and
   * at most 20 images.
   */
  lemma DatasetArchiveContents(data: ScrapeResult, selected: seq<String>, fetches: seq<Fetch>, parse: UrlParser)
    requires |fetches| == |selected|
    ensures var es := DatasetEntries(data, selected, fetches, parse);
      es[0] == Entry("scraped-data.json", Json(data)) &&
      (HasPath(es, "page.html") <==> data.html != []) &&
      (HasPath(es, "content.txt") <==> data.textContent != []) &&
      |es| <= 3 + (if selected == [] then 0 else 1 + 20)
  {
    var h, t := DatasetHead(data), DatasetImages(selected, fetches, parse);
    HeadPaths(data);
    ImagesPaths(selected, fetches, parse);
    HasPathAppend(h, t, "page.html");
    HasPathAppend(h, t, "content.txt");
  }

  /** The image loop of downloadAsZip: the first 20 of the selection, counting successes only. */
  method FetchDatasetImages(srcs: seq<String>, fetches: seq<Fetch>, parse: UrlParser) returns (entries: seq<Entry>)
    requires |fetches| == |srcs|
    ensures entries == DatasetImageEntries(srcs, fetches, parse)
  {
    entries := [];
    var imageCount := 0;
    var i := 0;
    while i < |srcs|
      invariant 0 <= i <= |srcs|
      invariant entries == DatasetImageEntries(srcs[..i], fetches[..i], parse)
      invariant imageCount == |entries|
    {
      assert srcs[..i + 1][..i] == srcs[..i];
      assert fetches[..i + 1][..i] == fetches[..i];
      if fetches[i].Fetched? {
        imageCount := imageCount + 1;
        var ext := ImageExtension(fetches[i].mediaType, parse, srcs[i]);
        entries := entries + [Entry(ImagePath(imageCount, ext), ImageBody(srcs[i], fetches[i].mediaType))];
      }
      i := i + 1;
    }
    assert srcs[..i] == srcs;
    assert fetches[..i] == fetches;
  }

  /** downloadAsJson: the whole result as `scraped-data-<ts>.json`. */
  function DownloadAsJson(data: ScrapeResult, ts: nat): (d: Download)
    ensures d.File? && d.content == Json(data) && d.mime == "application/json"
    ensures d.filename == GenerateFilename("scraped-data", "json", ts)
    ensures StartsWith(d.filename, "scraped-data-") && EndsWith(d.filename, ".json")
  {
    File(GenerateFilename("scraped-data", "json", ts), "application/json", Json(data))
  }

  /**
   * downloadAsZip: the dataset archive, or the JSON dump alone when the
   * library is missing or fails to generate the archive.
   */
  method DownloadAsZip(data: ScrapeResult, selected: seq<String>, fetches: seq<Fetch>, zip: ZipLibrary, parse: UrlParser, ts: nat)
    returns (d: Download)
    requires |fetches| == |selected|
    ensures zip == Loaded(false) ==>
      d == Archive("web-scraper-data-" + NatToString(ts) + ".zip", DatasetEntries(data, selected, fetches, parse))
    ensures zip != Loaded(false) ==> d == DownloadAsJson(data, ts)
  {
    if zip.Missing? {
      return DownloadAsJson(data, ts);
    }
    var entries := [Entry("scraped-data.json", Json(data))];
    if data.html != [] {
      entries := entries + [Entry("page.html", Text(data.html))];
    }
    if data.textContent != [] {
      entries := entries + [Entry("content.txt", Text(data.textContent))];
    }
    assert entries == DatasetHead(data);
    var folder: seq<Entry> := [];
    if |selected| > 0 {
      var c := Cap(|selected|);
      var images := FetchDatasetImages(selected[..c], fetches[..c], parse);
      folder := [Entry("images/", Folder)] + images;
    }
    assert folder == DatasetImages(selected, fetches, parse);
    entries := entries + folder;
    if zip.generateFails {
      return DownloadAsJson(data, ts);
    }
    d := Archive("web-scraper-data-" + NatToString(ts) + ".zip", entries);
  }

  // ---------------------------------------------------------------------
  // The download buttons

  const NoHtmlPlaceholder: String := "<html><body>No HTML content</body></html>"
  const NoTextPlaceholder: String := "No text content"

  /** The HTML button: `page-<ts>.html` holding the page, or a placeholder page when it is empty. */
  function DownloadHtml(current: Option<ScrapeResult>, ts: nat): (a: Action)
    ensures current.None? <==> a == Alert("No HTML content to download")
    ensures current.Some? ==> (a.Save? && a.download.File? &&
      a.download.filename == GenerateFilename("page", "html", ts) &&
      a.download.content.Text? && a.download.content.text != [] &&
      (current.value.html != [] ==> a.download.content.text == current.value.html))
    ensures current.Some? ==> a.Save? && a.download.File? && a.download.mime == "text/html"
    ensures current.Some? && current.value.html == [] ==>
      a.Save? && a.download.File? && a.download.content == Text("<html><body>No HTML content</body></html>")
  {
    if current.None? then Alert("No HTML content to download")
    else
      var html := if current.value.html != [] then current.value.html else NoHtmlPlaceholder;
      Save(File(GenerateFilename("page", "html", ts), "text/html", Text(html)))
  }

  /** The text button: `content-<ts>.txt` holding the text, or a placeholder when it is empty. */
  function DownloadText(current: Option<ScrapeResult>, ts: nat): (a: Action)
    ensures current.None? <==> a == Alert("No text content to download")
    ensures current.Some? ==> (a.Save? && a.download.File? &&
      a.download.filename == GenerateFilename("content", "txt", ts) &&
      a.download.content.Text? && a.download.content.text != [] &&
      (current.value.textContent != [] ==> a.download.content.text == current.value.textContent))
    ensures current.Some? ==> a.Save? && a.download.File? && a.download.mime == "text/plain"
    ensures current.Some? && current.value.textContent == [] ==>
      a.Save? && a.download.File? && a.download.content == Text("No text content")
  {
    if current.None? then Alert("No text content to download")
    else
      var text := if current.value.textContent != [] then current.value.textContent else NoTextPlaceholder;
      Save(File(GenerateFilename("content", "txt", ts), "text/plain", Text(text)))
  }

  /** The JSON button: the whole result as `scraped-data-<ts>.json`. */
  function DownloadJson(current: Option<ScrapeResult>, ts: nat): (a: Action)
    ensures current.None? <==> a == Alert("No data to download")
    ensures current.Some? ==> a == Save(DownloadAsJson(current.value, ts))
  {
    if current.None? then Alert("No data to download") else Save(DownloadAsJson(current.value, ts))
  }

  /** The "download all" button. */
  method DownloadAll(current: Option<ScrapeResult>, selected: seq<String>, fetches: seq<Fetch>, zip: ZipLibrary, parse: UrlParser, ts: nat)
    returns (a: Action)
    requires |fetches| == |selected|
    ensures current.None? <==> a == Alert("No data to download")
    ensures current.Some? && zip != Loaded(false) ==> a == Save(DownloadAsJson(current.value, ts))
    ensures current.Some? && zip == Loaded(false) ==>
      a == Save(Archive("web-scraper-data-" + NatToString(ts) + ".zip", DatasetEntries(current.value, selected, fetches, parse)))
  {
    if current.None? {
      return Alert("No data to download");
    }
    var d := DownloadAsZip(current.value, selected, fetches, zip, parse, ts);
    a := Save(d);
  }
}
