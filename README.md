# Scraper app: presentation, export and result-shaping rules in Dafny

The scraper app has a Flask server (`app.py`) and two browser scripts.
The server fetches a page, parses it and returns a JSON scrape result.
The scripts show that result and export it:
- `static/script.js` is the flat single-page version;
- `templates/script.js` is an older copy that has drifted from it.

This project models the logic of the three files and proves properties
about it. The modelled logic covers:
- the HTML pretty-printer;
- the text search and its highlighting;
- link classification and the link filters;
- the link and image searches;
- the links table;
- the image selection set and the page handlers that change it;
- the file names, archives and fallbacks of every download button;
- the statistics and summary blocks;
- on the server: the request validation, the scheme defaulting, and the
  rules that turn parsed elements into the records of the result.

The two scripts are modelled separately where they differ, and lemmas
state where they agree and where they do not.

Modules, one per file:
- `wrappers.dfy`: `Option`.
- `text.dfy`: string helpers. Prefixes, ASCII case folding, whitespace
  stripping, Python's `split()`/`' '.join`, and the decimal rendering of
  timestamps with its read-back.
- `sequences.dfy`: `filter` (`Keep`), subsequences, partitions, and the
  filter-map shape of the record-building loops.
- `scrape_model.dfy`: the scrape result and the URL-parser parameter.
- `html_format.dfy`: `formatHtml` in both flavours.
- `search.dfy`: `escapeRegExp`, and case-insensitive `<mark>` highlighting.
- `static_results.dfy`, `templates_results.dfy`: classification, filters,
  searches and the links table of each script.
- `selection.dfy`: the `selectedImages` set, as a class over an
  insertion-ordered duplicate-free sequence.
- `static_page.dfy`, `templates_page.dfy`: each script's page state as a
  class, whose handlers update it.
- `downloads.dfy`, `static_export.dfy`, `templates_export.dfy`: downloads
  and archives as data, and the export rules of each script.
- `server.dfy`: `fetch_static`, `parse_html` and the `/scrape` handler.

## Model

| member | source | states |
|---|---|---|
| HtmlFormat.Split | static/script.js:697 | the tokens of `split(/(<[^>]*>)/)` concatenate back to the input |
| HtmlFormat.SplitUnique | static/script.js:697 | any alternation of tag-free text and `<…>` tags that concatenates to the input is the split (the split is determined) |
| HtmlFormat.LayoutAt | static/script.js:698-700 | line k holds token k at depth max(0, opens minus closes before it, minus one if it closes) |
| HtmlFormat.FormatHtml | static/script.js:693-704 | the loop's output is the rendered layout of the split: one line per token, two spaces per level, then the token and a newline |
| HtmlFormat.FormatTokens | static/script.js:697-701 | the per-token loop keeps the counter and appends exactly the layout's lines |
| HtmlFormat.FormatKeepsMarkup | static/script.js:693-704 | the tokens of the formatted lines, concatenated, give back the input |
| HtmlFormat.MatchingTagsAlign | static/script.js:698-700 | an opening tag and the closing tag that balances it are indented alike |
| HtmlFormat.TemplatesMatchesStaticWithoutDeclarations | templates/script.js:606-625 | without `<!` tokens the templates formatter lays out exactly as the static one |
| HtmlFormat.CounterFlavors | templates/script.js:619 | the two flavours' indent counters differ only through `<!` tokens |
| Search.Escape | static/script.js:980-982 | one backslash is added per regular-expression metacharacter |
| Search.EscapeIsLiteral | static/script.js:980-982 | the escaped term, read as a pattern, matches exactly the term itself |
| Search.EscapeWithoutMeta | static/script.js:980-982 | a term without metacharacters is unchanged |
| Search.RawDotIsNotLiteral | templates/script.js:147 | the unescaped term `a.b` is not a literal pattern, its escape is |
| Search.Scan | static/script.js:167-168 | the pieces concatenate back to the text and there are no more pieces than characters |
| Search.ScanHitsMatch | static/script.js:167-168 | every marked piece equals the term ignoring ASCII case |
| Search.ScanFindsOccurrence | static/script.js:167-168 | some piece is marked iff the term occurs in the text ignoring case |
| Search.ScanIsLeftmost | static/script.js:168 | no occurrence starts at an unmarked piece: matches are leftmost and non-overlapping |
| Search.EmptySearchRestores | static/script.js:170-172 | an empty search shows the original text again |
| Search.SearchMarksOccurrences | static/script.js:161-173 | a non-empty search marks the lower-cased term in the original text, which it keeps |
| Search.TemplatesAgreesOnPlainTerms | templates/script.js:141-153 | the unescaped templates search equals the static one for terms without metacharacters |
| StaticResults.FilterLinks | static/script.js:613-624 | an empty list changes nothing; internal/external give the links so classified, in list order, each as often as in the list; any other mode keeps all |
| StaticResults.ClassifyLink | static/script.js:511-521 | external without a current result; internal iff both URLs parse and the hosts agree; anchor iff parsing fails and the URL starts with "#" |
| StaticResults.FilterLinksPartition | static/script.js:511-521 | internal, external and anchor links together are a permutation of the list |
| StaticResults.FilterLinksKeepsOrder | static/script.js:613-624 | every filter result is a subsequence of the list |
| StaticResults.FilterLinksBySearch | static/script.js:626-635 | nothing changes for an empty list or a link without text (TypeError); otherwise the links whose text or URL contains the term ignoring case, in list order, each as often as in the list |
| StaticResults.FilterImagesBySearch | static/script.js:637-646 | as above for alt text and source |
| StaticResults.EmptyLinkSearchShowsAll | static/script.js:626-635 | an empty term shows every link |
| StaticResults.EmptyImageSearchShowsAll | static/script.js:637-646 | an empty term shows every image |
| StaticResults.LinksTable | static/script.js:480-509 | "No links found" for none; otherwise one row per link for the first 100, then one row counting the rest |
| TemplatesResults.FilterLinks | templates/script.js:454-473 | nothing changes for an empty list or when classifying some link throws; otherwise the links so classified, in list order, each as often as in the list |
| TemplatesResults.IsInternal | templates/script.js:435-437 | internal for "/" and "#" links; otherwise throws unless there is a current result and both URLs parse, and internal iff the hosts agree |
| TemplatesResults.FilterLinksPartition | templates/script.js:454-473 | when nothing throws, internal and external links are a permutation of the list |
| TemplatesResults.AgreesWithStaticOnAbsoluteLinks | templates/script.js:435-437 | for absolute URLs the templates test and the static classifier agree on internal |
| TemplatesResults.FilterLinksBySearch | templates/script.js:475-484 | nothing changes only for an empty list; otherwise the matching links, in list order, each as often as in the list |
| TemplatesResults.FilterImagesBySearch | templates/script.js:540-549 | as above for images |
| TemplatesResults.FieldMatchesLikeStatic | templates/script.js:478-480 | the `text &&` guard changes the outcome only for empty text |
| TemplatesResults.LinkSearchAgreesWithStatic | templates/script.js:475-484 | when every link has text, both scripts' link searches agree |
| TemplatesResults.ImageSearchAgreesWithStatic | templates/script.js:540-549 | when every image has alt text, both image searches agree |
| TemplatesResults.LinksTableCompletes | templates/script.js:422-445 | the table is complete iff the link test throws for none of the first 100 links |
| TemplatesResults.ShownRowsStopAtFirstThrow | templates/script.js:433-445 | rows are built up to the first link whose classification throws and the table is complete iff none throws |
| TemplatesResults.LinksTableWhenNothingThrows | templates/script.js:422-452 | with no throw: first 100 rows, then the row counting the rest |
| Selection.Insert | static/script.js:133 | `Set.add`: membership gains the source, duplicates never appear, insertion order is kept |
| Selection.Remove | static/script.js:565 | `Set.delete`: membership loses the source, size drops by one iff present |
| Selection.InsertAll | static/script.js:129-141 | adding many sources: membership is the union, the old order is a prefix |
| Selection.InsertIdempotent | static/script.js:133 | adding twice is adding once |
| Selection.RemoveKeepsOrder | static/script.js:565 | deleting keeps the others in order |
| Selection.CheckThenUncheckRestores | static/script.js:560-569 | ticking then unticking an unselected image restores the set |
| Selection.InsertAllSnoc | static/script.js:130-139 | select-all adds one source per step |
| Selection.SelectedImages.constructor | static/script.js:82 | the set starts empty |
| Selection.SelectedImages.Add | static/script.js:562 | the set becomes Insert of the old set |
| Selection.SelectedImages.Delete | static/script.js:565 | the set becomes Remove of the old set |
| Selection.SelectedImages.Clear | static/script.js:105 | the set becomes empty |
| Selection.SelectedImages.AddAll | static/script.js:129-141 | the loop leaves InsertAll of the old set |
| StaticExport.ExtFromMediaType | static/script.js:937-946 | the first of jpeg→jpg, png, gif, webp, bmp, svg that the type contains; none otherwise |
| StaticExport.SuffixAmong | static/script.js:930 | the extension the path ends with, or none |
| StaticExport.ExtFromUrl | static/script.js:927-935 | the lower-cased extension ending the path, or none when parsing throws or no extension matches |
| StaticExport.ImageExtension | static/script.js:784 | type first, then URL, then "jpg"; always one of the seven |
| StaticExport.UrlExtension | static/script.js:826 | the extension found in the URL path, else "jpg" |
| StaticExport.GenerateFilename | static/script.js:909-912 | `base-<timestamp>.ext` |
| StaticExport.GenerateFilenameDistinct | static/script.js:909-912 | different timestamps give different names |
| StaticExport.Sanitize | static/script.js:918 | each non-alphanumeric character becomes `_` |
| StaticExport.ImageStem | static/script.js:915-919 | "image" for an empty alt or "No alt text"; otherwise the first 50 characters of the alt with every non-alphanumeric replaced by `_` |
| StaticExport.GenerateImageFilename | static/script.js:914-925 | `stem-<timestamp>.` followed by an image extension, which is the URL's extension or "jpg" |
| StaticExport.ImagePathsDistinct | static/script.js:785 | different positions give different archive paths |
| StaticExport.CountsAddUp | static/script.js:775-793 | entries equal successes, and successes plus errors equal the selection |
| StaticExport.SelectedEntriesByPosition | static/script.js:775-793 | the i-th source, when fetched, is stored as `images/image-(i+1).ext` |
| StaticExport.FailureLeavesGap | static/script.js:778-780 | a failed fetch leaves its number unused |
| StaticExport.FetchSelected | static/script.js:775-793 | the loop yields those entries, the success count and the error messages |
| StaticExport.DownloadIndividually | static/script.js:821-837 | one download per source, delayed 300 ms times its position |
| StaticExport.DownloadSelectedImagesAsZip | static/script.js:754-819 | skipped when nothing is selected; `images-<ts>.zip` with the fetched entries iff the library works and something succeeded; the final notices as written; otherwise the one-by-one fallback with 300 ms steps |
| StaticExport.DownloadImagesButton | static/script.js:267-273 | alerts iff nothing is selected; otherwise exactly the outcome of downloadSelectedImagesAsZip: archive, no-archive notice or one-by-one downloads |
| StaticExport.DatasetImagesNumbered | static/script.js:867-876 | successful images are numbered 1, 2, … without gaps |
| StaticExport.DatasetArchiveContents | static/script.js:849-882 | the JSON file first; page.html iff there is HTML; content.txt iff there is text; at most 20 images |
| StaticExport.FetchDatasetImages | static/script.js:869-881 | the loop yields the numbered image entries |
| StaticExport.DownloadAsJson | static/script.js:902-906 | a file `scraped-data-<timestamp>.json` of type application/json holding the result |
| StaticExport.DownloadAsZip | static/script.js:839-900 | the archive `web-scraper-data-<timestamp>.zip` when the library works, the JSON fallback otherwise |
| StaticExport.DownloadHtml | static/script.js:247-255 | alert with no result; otherwise `page-<ts>.html` of type text/html holding the HTML, or `<html><body>No HTML content</body></html>` when it is empty |
| StaticExport.DownloadText | static/script.js:257-265 | alert with no result; otherwise `content-<ts>.txt` of type text/plain holding the text, or "No text content" when it is empty |
| StaticExport.DownloadJson | static/script.js:275-283 | alert with no result; otherwise the JSON file |
| StaticExport.DownloadAll | static/script.js:239-245 | alert with no result; otherwise `web-scraper-data-<ts>.zip` with the dataset entries, or the JSON fallback |
| TemplatesExport.DownloadHtml | templates/script.js:215-221 | as static, type text/html and the same placeholder page, under the fixed name page.html |
| TemplatesExport.DownloadText | templates/script.js:223-229 | as static, type text/plain and the same "No text content" placeholder, under the fixed name content.txt |
| TemplatesExport.DownloadJson | templates/script.js:239-245 | as static, under the fixed name scraped-data.json |
| TemplatesExport.SingleFilesMatchStatic | templates/script.js:215-245 | same contents as the static downloads, different names |
| TemplatesExport.SingleImageName | templates/script.js:247-252 | the alt text as shown, or "image" |
| TemplatesExport.BundleOf | templates/script.js:669-683 | the bundle carries the result's fields and the timestamp |
| TemplatesExport.DownloadAll | templates/script.js:207-213 | alert with no result; otherwise one JSON file `scraped-website-data.json` |
| TemplatesExport.SelectedImageNamesDistinct | templates/script.js:656 | names differ by position |
| TemplatesExport.DownloadSelectedImages | templates/script.js:648-665 | one link per source with pairwise different names; the alert counts the selection |
| TemplatesExport.DownloadImagesButton | templates/script.js:231-237 | alerts iff nothing is selected; otherwise one link per selected source named `image-<now>-<i>`, names pairwise distinct, and the count alert |
| StaticPage.CardsFor | static/script.js:523-549 | one unticked card per image |
| StaticPage.Summary | static/script.js:418-424 | placeholder for empty text; up to 500 characters, then "..." iff cut |
| StaticPage.Page.Populate | static/script.js:394-443 | the result becomes current; the table, cards and text are rebuilt; the selection is kept |
| StaticPage.Page.Submit | static/script.js:65-86 | a blank trimmed URL is refused and changes nothing; otherwise the selection is emptied and the trimmed URL is sent |
| StaticPage.Page.Retry | static/script.js:89-98 | resends the trimmed URL iff it is non-blank |
| StaticPage.Page.ClearResults | static/script.js:101-107 | no current result and an empty selection; every other field as it was |
| StaticPage.Page.Toggle | static/script.js:560-569 | a tick adds the card's source, an untick deletes it; only that card changes |
| StaticPage.Page.SelectAll | static/script.js:129-141 | every card ticked, every source added in card order; no other field changes |
| StaticPage.Page.DeselectAll | static/script.js:143-153 | every card unticked, the whole selection emptied; no other field changes |
| StaticPage.Page.FilterLinks | static/script.js:176-189 | the table shows the filtered list, or stays; no other field changes |
| StaticPage.Page.SearchLinks | static/script.js:201-204 | the table shows the searched list, or stays; no other field changes |
| StaticPage.Page.SearchImages | static/script.js:206-209 | the grid is rebuilt unticked, or stays; the selection and every other field are untouched |
| StaticPage.Page.SearchText | static/script.js:161-173 | the text panel per the search; no other field changes |
| StaticPage.CheckThenUncheck | static/script.js:560-569 | ticking and unticking a card restores the selection |
| StaticPage.SearchKeepsSelection | static/script.js:206-209 | a search never changes the selection |
| TemplatesPage.SpaceRunsOfJoin | templates/script.js:335 | `split(/\s+/)` of words joined by single spaces has one piece per word |
| TemplatesPage.SplitCountOfNormalized | templates/script.js:335 | on a normalised text the fallback word count equals the server's |
| TemplatesPage.StatsFallBack | templates/script.js:331-335 | each statistic is the counter when non-zero, else the length (for words, the `split(/\s+/)` count of a non-empty text, else 0); 0 only when both are |
| TemplatesPage.StatsOfConsistentResult | templates/script.js:331-335 | with consistent counters the statistics are exactly the lengths |
| TemplatesPage.SummaryMatchesStatic | templates/script.js:346-348 | the summary equals the static one |
| TemplatesPage.Page.Submit | templates/script.js:58-85 | empty input or unparsable URL refused; otherwise selection cleared and the raw input sent |
| TemplatesPage.Page.Populate | templates/script.js:327-420 | result current; stats, summary, text panel and table rebuilt; when the link test throws on one of the first 100 links the images and grid stay as they were, otherwise they are rebuilt |
| TemplatesPage.Page.ClearResults | templates/script.js:88-93 | no current result and an empty selection; every other field as it was |
| TemplatesPage.Page.Toggle | templates/script.js:520-526 | a tick adds the card's source, an untick deletes it; only that card changes |
| TemplatesPage.Page.SelectAll | templates/script.js:109-116 | every card ticked, every source added in card order; no other field changes |
| TemplatesPage.Page.DeselectAll | templates/script.js:118-125 | every card unticked, the whole selection emptied; no other field changes |
| TemplatesPage.Page.FilterLinks | templates/script.js:156-166 | the table shows the filtered list, or stays; no other field changes |
| TemplatesPage.Page.SearchLinks | templates/script.js:168-170 | the table shows the searched list, or stays; no other field changes |
| TemplatesPage.Page.SearchImages | templates/script.js:173-175 | the grid is rebuilt unticked, or stays; the selection and every other field are untouched |
| TemplatesPage.Page.SearchText | templates/script.js:141-153 | the text panel per the unescaped search; no other field changes |
| Server.WithScheme | app.py:31-32 | the URL always starts with a scheme and ends with the input; unchanged iff it already had one |
| Server.FetchStatic | app.py:30-34 | the request goes to the URL with its scheme |
| Server.Title | app.py:42 | "No title" without a title string; otherwise it is stripped, and empty iff all whitespace |
| Server.Find | app.py:46 | the first matching element |
| Server.Description | app.py:45-52 | the first description meta's content when non-empty, else the first og:description meta's content when non-empty, else ""; never another meta's content |
| Server.MetaName | app.py:57 | name, else property, else http-equiv |
| Server.MetaRecord | app.py:57-60 | a record iff name and content are non-empty |
| Server.BuildMetas | app.py:55-60 | the loop builds the meta records in order |
| Server.MetasKept | app.py:55-60 | each record is non-empty; each qualifying meta is listed; nothing else is |
| Server.OgRecord | app.py:104-108 | a record iff the property starts with "og:"; content defaults to "" |
| Server.BuildOpenGraph | app.py:102-108 | the loop builds the Open Graph records in order |
| Server.OpenGraphOnlyOg | app.py:102-108 | only "og:" properties, and all of them |
| Server.LevelNumberOfName | app.py:67 | the level name `H<N>` reads back as N |
| Server.BuildHeadings | app.py:63-71 | the nested loops build the headings grouped by level |
| Server.AtLevelRecords | app.py:66-71 | records found at level N are named `HN` and have non-empty text |
| Server.HeadingsGrouped | app.py:63-71 | levels run H1…H6 in non-decreasing order, each text non-empty |
| Server.HeadingsComplete | app.py:64-65 | every h1–h6 element is listed |
| Server.BuildLinks | app.py:74-84 | the loop builds link records, skipping anchors whose join fails |
| Server.LinksResolved | app.py:74-84 | each link has non-empty text and a resolved URL; every resolvable anchor is listed |
| Server.AltText | app.py:94 | the alt text, or "No alt text"; never empty |
| Server.BuildImages | app.py:87-99 | the loop builds image records, skipping sources whose join fails |
| Server.ImagesHaveAlt | app.py:87-99 | each image has non-empty alt and copies width and height |
| Server.ParseHtml | app.py:38-127 | every field is built by its rule; the text is whitespace-normalised |
| Server.Respond | app.py:161-182 | the counters agree with what they count |
| Server.WordCountOfPage | app.py:161 | the word count of the normalised text is that of the raw text |
| Server.PageShowsServerCounters | app.py:177-181 | the browser's statistics equal the server's counts |
| Server.RequestedUrl | app.py:147 | the stripped `url` field, "" if absent, none if it cannot be read |
| Server.Scrape | app.py:137-200 | OPTIONS 200; 400 "No JSON data provided"; 400 "URL is required"; 500 "Server error", "Failed to fetch URL" or "Error parsing content" with the exception text; 200 with consistent counters iff the page is fetched and parsed |
| Text.NormalizeSpaceKeepsWords | app.py:114-115 | normalising keeps the words and is idempotent |

## Left out

- Case folding is ASCII only. `toLowerCase` also covers the rest of Unicode.
- Whitespace is the six ASCII characters that JavaScript's `\s` and `trim` treat as whitespace: space, tab, line feed, vertical tab, form feed and carriage return. Python's `str.split` and `strip`, which the server uses, also treat U+001C to U+001F as whitespace. The server model does not, so a page text holding those characters is split and stripped differently. Non-ASCII whitespace is not modelled for either language.
- Strings are sequences of characters. JavaScript's UTF-16 code units are not modelled, nor Python's code points (`substring(0, 500)`, `len`).
- The WHATWG URL parser and `urljoin` are parameters. Only the hostname and pathname are used.
- The templates text search builds an unescaped regular expression. It is modelled for terms without metacharacters, and the unescaped `a.b` is shown not to be literal. General regular expressions are not modelled.
- `formatFileSize`, `fetchTime` and `contentSize` use floating point and are not modelled. The two strings are parameters.
- The network is not modelled: the `/scrape` request, image fetches, HEAD size probes and `requests.get`. Their outcomes are inputs.
- `Date.now()`, `new Date().toISOString()` and `time.time()` are parameters.
- The timers are not modelled, except for the 300 ms download stagger. The exception texts are also not modelled.
- Clipboard copying and its fallback are not modelled.
- The progress notifications "Preparing N images for download...", "Downloading N images individually..." and "Preparing complete dataset for download..." are not modelled. Only the final notices of the image export are.
- `JSON.stringify` is opaque. A download holds the value it serialises.
- The archive MIME type and JSZip's binary output are not modelled. An archive is its list of entries.
- DOM plumbing is not modelled: tabs, modal, grid/list view, notification removal, `updateImageCardsView`, and the headings, metadata and Open Graph tables.
- BeautifulSoup is not modelled. A `Document` holds what it finds. `get_text(strip=True)` and the removal of scripts and styles happen inside the parser.
- Server.Scrape: when `get_json` itself raises, the handler's response is not modelled. Neither are the unused `usePlaywright` flag and the `/health` route.
- StaticPage.Page.SearchText: after a search the panel's `textContent` is the marked-up text with its tags removed. The model keeps the marked-up value and, like the script, reads `data-original` first.
