# NewCrawl image scraper and processor, modelled in Dafny

NewCrawl collects images for a search term from Picjumbo, Wikimedia Commons and
Yahoo Images, and runs them through a chain of OpenCV preprocessing steps. This
project models its two sequential cores: the acquisition cascade and the transform
pipeline.

**Acquisition** (`scraperMain.py`, and the older standalone `picjumbo4.py`, `yahoo.py` and `wikimedia.py`).
- Each site adapter runs a discovery loop over what the browser shows, round by round. A round is a result page or the thumbnails after a scroll.
- The URLs found go into a de-duplicating set, and `min(quota, len(set))` of them are downloaded under numbered file names.
- `imageScraper` asks Picjumbo for the whole request, then Wikimedia and then Yahoo for whatever is still missing. It numbers the files on from where the previous source stopped.

**Processing** (`newProcessor.py`, driven by the server's `step_map`, and the interactive `processor.py`).
- Every readable image in a folder is copied as `<stem>_original.jpg`.
- The caller's step ids are then folded over the image. Ids the registry does not know are skipped.
- Each known step is applied to the image the previous steps produced and writes `<stem>_<names so far joined by "_">.jpg`.
- A step whose parameter is missing raises.

Modules, one concept each:
- **Wrappers**: `Option` and `Result`.
- **Strings**: the Python string and `os.path` operations the code relies on.
- **Fetching**: network replies, saved files, and `list(set)[:n]`.
- **Discovery**: the four discovery loops, shared by the cascade and the scripts.
- **ScraperMain**: the cascade.
- **Picjumbo4, ScriptDownload, YahooScript and WikimediaScript**: the standalone scripts.
- **Imaging**: the image term and the eight transforms.
- **Pipeline**: the step chain.
- **Batch**: what both processors do with one file.
- **NewProcessor** and **ProcessorScript**: the two processors.

Stand-ins for the outside world:
- What the browser shows, page heights and HTTP replies are inputs. A `Web` value or a `rounds` sequence stands for the browser, and a function `net: string -> Reply` stands for the network.
- An image is a term recording the calls that made it, from `Decoded(path)` through each OpenCV call with its arguments.
- `readable: string -> bool` says which paths `cv2.imread` can decode.
- `listing` stands for `os.listdir`, and an `Answers` value for the parsed answers to the parameter prompts.

Behaviour of the code worth knowing, which the model follows:
- Each adapter reports the number of downloads it attempted, not the number that succeeded.
- An unreadable image gets no `_original` copy, because the copy happens after the decode.
- The copy is always named `.jpg`.
- The server passes an even blur kernel through unchanged.
- The standalone `yahoo.py` and `wikimedia.py` write the reply body whatever the status code.

## Model

| member | source | states |
|---|---|---|
| Strings.Split | server/processor.py:56 | `split(",")` always gives at least one part, and no part contains the separator |
| Strings.SplitJoin | server/processor.py:56 | joining the parts of a split with the separator gives back the original string |
| Strings.StripTrims | server/processor.py:140 | a stripped id has no white space at either end |
| Strings.LastIndexOf | server/picjumbo4.py:69 | the index found holds the character, and no later position does (or -1 when absent) |
| Strings.SplitExtShape | server/picjumbo4.py:69 | `splitext` cuts the path into root and extension; the extension is empty or starts with its only dot and holds no slash |
| Strings.BeforeFirstFacts | server/picjumbo4.py:69 | `split('?')[0]` is the prefix before the first `?`, cut exactly there when there is one |
| Strings.IntToStringInjective | server/scraperMain.py:191 | different numbers are printed differently |
| Strings.PathJoinInjective | server/scraperMain.py:192 | joining different relative names onto one folder gives different paths |
| Strings.NumberedNameInjective | server/yahoo.py:81 | `prefix + str(n) + suffix` never collides for different `n` |
| Fetching.ListPrefix | server/scraperMain.py:71 | `list(set)[:n]` yields exactly the slice length of distinct members of the set, and the whole set when the slice is as long as the set |
| Discovery.CollectCapped | server/scraperMain.py:43-58 | one Picjumbo page loop adds the offered URLs until the set is full; `new_images_found` counts the URLs it added |
| Discovery.FillFacts | server/scraperMain.py:53-58 | within one page the set keeps what it had, takes only offered URLs, never passes the quota, and takes everything offered while short |
| Discovery.GatheredFacts | server/scraperMain.py:34 | the Picjumbo set holds only offered URLs and at most the quota; while short of it, it holds every URL offered so far |
| Discovery.GatheredMonotone | server/scraperMain.py:53-54 | the set only grows from page to page |
| Discovery.CrawlPages | server/scraperMain.py:34-64 | the page loop ends with the set gathered from the pages it loaded, having stopped for a full set or a page with no new URL, and for no earlier reason |
| Discovery.CrawlStep | server/scraperMain.py:57-64 | one page turns the gathered set of n pages into that of n + 1 pages; a page with no new URL halts the loop |
| Discovery.CrawlPageBound | server/scraperMain.py:34 | with no images requested no page is loaded, and at most one page more than the URLs gathered is loaded, so at most `total_images + 1` pages |
| Discovery.CrawlEachPageNew | server/scraperMain.py:60-62 | every page before the last offered a URL no earlier page offered |
| Discovery.CrawlPageAdded | server/scraperMain.py:53-60 | every page before the last grew the set while it stayed short of the quota |
| Discovery.CrawlShortfall | server/scraperMain.py:60-62 | a crawl that ends short of the quota has taken everything offered, and its last page offered nothing new |
| Discovery.VisitedPages | server/scraperMain.py:35 | a crawl of n pages loads exactly n page URLs |
| Discovery.VisitedPagesAt | server/scraperMain.py:35 | the k-th page loaded is page number k + 1: the listing itself first, then `.../page/n/` |
| Discovery.PageUrlsDiffer | server/scraperMain.py:35 | pages 2, 3, ... have pairwise different URLs |
| Discovery.NormalizedSrcShape | server/scraperMain.py:49-52 | a normalised src is never site-relative, ends with the original src, gets `https:` when the src started with `/`, and is a fixed point of normalisation |
| Discovery.UnsetSrcIgnored | server/scraperMain.py:111 | an unset src adds nothing on any site, and any URL the Wikimedia filter keeps also passes the Yahoo filter |
| Discovery.CollectUntilFull | server/scraperMain.py:105-114 | the thumbnail loop stops adding as soon as the set is full, checking before each thumbnail |
| Discovery.ScrollCapped | server/scraperMain.py:84-116 | at most 50 scrolls are made, each while the set was short; an early stop means the set is full |
| Discovery.ScrollUncapped | server/wikimedia.py:29-52 | one to 30 scrolls, each adding everything offered; every scroll but the last left the set short, and an early stop means the target was reached |
| Discovery.CollectAll | server/yahoo.py:53-60 | one scroll adds every offered URL to the set |
| Discovery.ScrollYahoo | server/scraperMain.py:137-171 | the loop ends with a full set or three unchanged heights in a row; every scroll was made while both conditions allowed it; `retry_count` is the number of unchanged heights in a row |
| Discovery.YahooHeightStep | server/scraperMain.py:166-171 | an unchanged height increments `retry_count`, a changed one resets it to 0, and `last_height` becomes the new height |
| ScraperMain.DownloadAll | server/scraperMain.py:71-72 | the i-th chosen URL is downloaded as number `start_num + i` |
| ScraperMain.DownloadSome | server/scraperMain.py:68-74 | the count is `min(quota, len(urls))`; as many distinct collected URLs as `[:count]` gives are tried, numbered from the start |
| ScraperMain.NumberedAppend | server/scraperMain.py:210-223 | two batches numbered on from each other form one batch numbered from the first start |
| ScraperMain.CountOfEmpty | server/scraperMain.py:68 | a source asked for nothing reports a count that fits its quota and tries as many files as it reports |
| ScraperMain.ScrapePicjumbo | server/scraperMain.py:26-74 | the crawl's URLs and pages, a count of `min(quota, len(urls))` that fits the quota, and that many attempts at distinct collected URLs, numbered from the start |
| ScraperMain.ScrapeWikimedia | server/scraperMain.py:77-126 | at most 50 scrolls with the gathered set, every scroll made while the set was short, fewer only once it is full; then the count and the numbered attempts at distinct collected URLs, as for every source |
| ScraperMain.ScrapeYahoo | server/scraperMain.py:129-181 | the set after the scrolls, stopped for a full set or stagnation, with the loop condition holding before every scroll made; then the count and the numbered attempts at distinct collected URLs |
| ScraperMain.CascadeAppend | server/scraperMain.py:213-223 | a next call asked for what is missing, numbered on, keeps the calls in cascade order and adds its count |
| ScraperMain.RunSource | server/scraperMain.py:210-222 | the URLs are what the named source's own loop collected for the quota (`Discovered`), the count is `min(quota, len(urls))`, and that many distinct URLs of those are tried, numbered from its start |
| ScraperMain.DistinctAppend | server/scraperMain.py:213-223 | a new call that repeats no URL, numbered after all earlier ones, keeps every call free of repeated downloads |
| ScraperMain.DrawnAppend | server/scraperMain.py:213-223 | a new call's attempts, numbered after all earlier ones, keep every attempt drawn from the URLs of the call that numbered it |
| ScraperMain.CallsBelowNext | server/scraperMain.py:207-223 | every call of the cascade numbers its files below where the next call starts |
| ScraperMain.CascadeTurn | server/scraperMain.py:213-223 | one more turn of the cascade keeps its state: order, running total, each call's count as `min(quota, len(urls))` of its own source's URLs, and contiguous numbering with every file drawn from its call's URLs and no URL downloaded twice within a call |
| ScraperMain.FollowUp | server/scraperMain.py:213-223 | while short, the next source is asked for `total - downloaded_so_far` from `downloaded_so_far + 1`; otherwise nothing changes |
| ScraperMain.ImageScraper | server/scraperMain.py:200-226 | returns `./images_<query>`; Picjumbo is always asked, and fewer than three sources are asked only when the request was met; every call reports `min(quota, len(urls))` of what its source's loop collected; the files are numbered 1, 2, ... without gaps, each from the URLs of the call that numbered it, and no call downloads a URL twice |
| ScraperMain.CascadeNeverOvershoots | server/scraperMain.py:207-223 | for a non-negative request, `downloaded_so_far` stays between 0 and the request |
| ScraperMain.SavedPathsDiffer | server/scraperMain.py:191-192 | different numbers write different paths; the URL's extension is not used |
| ScraperMain.CascadePathsDistinct | server/scraperMain.py:186-195 | no two downloads of a cascade overwrite each other |
| Picjumbo4.UrlExtension | server/picjumbo4.py:69-71 | the default `.jpg` is used exactly when the URL has no extension (its extension cut at the first `?` is then empty); otherwise the result is the URL's extension cut at its first `?`; it starts with its only dot |
| Picjumbo4.ImageFileNameInjective | server/picjumbo4.py:72 | `image_{n}{ext}` names determine `n`, whatever the extensions |
| Picjumbo4.SavedPathsDiffer | server/picjumbo4.py:72-73 | different numbers write different paths |
| Picjumbo4.GetAllImageSrcs | server/picjumbo4.py:23-63 | the crawl's set, which never exceeds the request, comes out whole as distinct URLs |
| Picjumbo4.NumberedStep | server/picjumbo4.py:96-100 | trying the next URL as the next number extends the numbering |
| Picjumbo4.ScrapePicjumboImages | server/picjumbo4.py:80-102 | the folder is `picjumbo_<query>_images`; the pages crawled are `PageUrl(search URL of the query, n)` for n = 1, 2, ...; the listed URLs are exactly, without repeats, the set the crawl gathered, which stopped at its first halting page; no URL means no download; otherwise every URL is tried once, numbered 1, 2, ..., and `downloaded` counts the attempts, at most the request |
| Picjumbo4.RunPathsDistinct | server/picjumbo4.py:96-100 | no two files of one run overwrite each other |
| ScriptDownload.SaveReply | server/yahoo.py:79-84 | a file is written exactly when a reply came back, whatever its status, with the reply's body under `<query>_<n>.jpg` in `images_<query>` |
| ScriptDownload.SaveAll | server/yahoo.py:78-84 | the i-th chosen URL is fetched as number i + 1, and a failure does not stop the loop |
| ScriptDownload.DownloadCollected | server/yahoo.py:75-84 | the count is `min(num_images, len(urls))`, and as many distinct collected URLs as `[:count]` gives are fetched in order |
| ScriptDownload.ScriptPathsDiffer | server/yahoo.py:81 | different numbers write different paths |
| ScriptDownload.SavedPathsDistinct | server/wikimedia.py:60-63 | no two files of one run overwrite each other |
| YahooScript.Run | server/yahoo.py:15-84 | the set after the scrolls, stopped for a full set or three unchanged heights; nothing scrolled when nothing is asked; then the capped, numbered download |
| WikimediaScript.Run | server/wikimedia.py:15-66 | one to 30 scrolls, the target checked after each; the set may pass the request but at most the request is fetched, numbered from 1 |
| Imaging.AdjustSaturationGuarded | server/newProcessor.py:32-39 | a single-channel image comes back unchanged; any other image is converted and has three channels |
| Imaging.BrightnessIsContrast | server/processor.py:24-28 | brightness and contrast are the same operation |
| Imaging.GreyDefeatsSaturation | server/newProcessor.py:33-34 | after a grey conversion the server's saturation does nothing, while in the model, where the colour conversion is total, the script's still converts |
| Imaging.RegistryNamesNormal | server/newServer.py:191-200 | the registry's names survive `strip().lower()`, so the server's normalisation changes no name |
| Pipeline.RunSteps | server/newProcessor.py:65-101 | the chain writes one file per known step up to the first that raises, holding the result of the steps so far, and reports that failure; with no failure, one file per known step |
| Pipeline.ChainStarts | server/newProcessor.py:59-60 | the chain starts with no names, no files and the decoded image |
| Pipeline.ChainApplies | server/newProcessor.py:75-101 | a known step that succeeds appends its name, applies to the current image and writes the file named after the names so far |
| Pipeline.ChainSkips | server/newProcessor.py:73-74 | an unknown id changes neither names, image nor files |
| Pipeline.ChainEnds | server/newProcessor.py:65 | after the last id every known step has its file and nothing failed |
| Pipeline.ChainStops | server/newProcessor.py:80-95 | a step that raises leaves exactly the files of the steps before it |
| Pipeline.CumulativeSnoc | server/newProcessor.py:80-95 | each step is applied to the image the earlier steps made |
| Pipeline.ArtifactsSnoc | server/newProcessor.py:97-101 | a successful step adds the file named after all names so far, holding their result |
| Pipeline.ArtifactsPrefix | server/newProcessor.py:97-101 | the files of a chain are also the first files of any longer chain starting with it |
| Pipeline.KnownNamesStepKnown | server/newProcessor.py:75-77 | a known id appends its name to `suffix_list` |
| Pipeline.OutcomeOnFailure | server/newProcessor.py:80-101 | a step that raises after some names keeps their files and reports the failure |
| Pipeline.PickedPrefix | server/newProcessor.py:77 | the names known after j ids start the names known after k >= j ids |
| Pipeline.PickedAgree | server/newProcessor.py:65 | id lists that agree on a prefix give the same names for it |
| Pipeline.PickedFrom | server/newProcessor.py:75-77 | every name in `suffix_list` is the registry's name for one of the ids |
| Pipeline.PickedPastUnknown | server/newProcessor.py:73-74 | an unknown id inserted anywhere does not change the names |
| Pipeline.UnknownIdTransparent | server/newProcessor.py:73-74 | removing or inserting an unknown id anywhere gives the same known steps, so the same files |
| Pipeline.ComposeSnoc | server/newProcessor.py:60 | the composition of the steps unfolds from the first step, applied to the decoded image |
| Pipeline.CumulativeIsComposition | server/newProcessor.py:80-95 | file k holds the first k known operations composed in order, applied to the decoded image |
| Pipeline.FailureIsFinal | server/newProcessor.py:80-95 | once a step has raised, no later step changes the outcome |
| Pipeline.ChainSucceeds | server/processor.py:147-162 | when every step finds its parameter and the resize parameter has two items, no step raises |
| Pipeline.MissingParamRaises | server/newProcessor.py:80-95 | every registered step raises KeyError when its parameter is missing |
| Pipeline.VariantsAgreeOnStrippedIds | server/processor.py:140-143 | on ids without surrounding white space the script's stripped lookup and the server's lookup agree |
| Pipeline.SuffixesExtend | server/newProcessor.py:97-99 | each step's file name extends every earlier step's name and is longer, so file names are strict prefixes of each other |
| Batch.ImageFiles | server/newProcessor.py:108 | the kept names are exactly the listed names ending in `.jpg`, `.jpeg` or `.png`, case-insensitively |
| Batch.ImageFilesAppend | server/newProcessor.py:108 | the filter keeps listing order and repeats: filtering a concatenation concatenates the filtered parts |
| Batch.ProcessImage | server/newProcessor.py:46-101 | an unreadable file leaves nothing; a readable one is copied to `<stem>_original.jpg` and then runs the chain |
| Batch.SameStemCollides | server/newProcessor.py:54-57 | `a.jpg` and `a.png` are different names with the same stem, and both are copied to the same `a_original.jpg` |
| Batch.StemOfSimpleName | server/newProcessor.py:54 | a dot-free, slash-free name followed by a dot-led extension has that name as its stem |
| Batch.OriginalAlwaysCopied | server/newProcessor.py:54-57 | a readable file is copied even when no id is known, and then nothing else is written |
| NewProcessor.CoreProcessor | server/newProcessor.py:105-123 | returns `./processedimg`, and every image file of the listing has the outcome of its own chain, whatever happened to the others |
| ProcessorScript.SelectedSteps | server/processor.py:56 | at least one id, none holding a comma, and joined with commas they give back the stripped answer |
| ProcessorScript.ColorCode | server/processor.py:70-72 | answer "1" means grey and is the only answer that does; every other answer means HSV |
| ProcessorScript.OddKernel | server/processor.py:75-79 | the stored kernel is odd, the answer or one more, and an odd answer is kept |
| ProcessorScript.PreparedParams | server/processor.py:59-103 | the `if` blocks store each parameter exactly when its id was typed as it is, with its value, and nothing else |
| ProcessorScript.PreparedSizeAndColour | server/processor.py:61-83 | the size, colour, kernel and angle parameters are stored as above |
| ProcessorScript.PreparedAdjustments | server/processor.py:85-103 | the brightness, contrast, saturation and flip parameters are stored as above, and no other name |
| ProcessorScript.PrepareParams | server/processor.py:59-103 | the parameters the `if` blocks fill |
| ProcessorScript.ProcessFiles | server/processor.py:123-168 | the images are processed in order; an unreadable one is skipped; the first step that raises ends the script with its failure |
| ProcessorScript.Run | server/processor.py:41-168 | the folders are the stripped answers, the ids are the comma split, the parameters are prepared, and the image files are processed until one raises |
| ProcessorScript.ResizeTakesWidthThenHeight | server/processor.py:62-64 | the resize step gets the width first and the height second |
| ProcessorScript.CleanIdsNeverRaise | server/processor.py:139-162 | ids typed without surrounding white space never make a step raise |
| ProcessorScript.SpaceAfterCommaMissesParameter | server/processor.py:56-72 | after "1, 2" the script knows steps resize and colorconvert but stores no `colorconvert` parameter, so the second step raises |
| ProcessorScript.SpacedNames | server/processor.py:139-144 | the ids of "1, 2" select resize and then colorconvert |
| ProcessorScript.SpacedIds | server/processor.py:56 | "1, 2" splits into "1" and " 2", which strip to "1" and "2" |
| ProcessorScript.SecondStepRaises | server/processor.py:147-168 | a chain whose second step raises writes one file and reports that failure |
| ProcessorScript.SpacedChainRaises | server/processor.py:139-168 | after "1, 2" every readable image writes its resize file and then raises |
| ProcessorScript.SpaceAfterCommaStopsScript | server/processor.py:123-168 | after "1, 2" the script stops at the first readable image, with the missing `colorconvert` |

## Left out

- Browser automation: Selenium, BeautifulSoup, the "Load more" and "Show more" clicks, and `time.sleep`. They are replaced by what each round shows, given as input. Browser errors outside the `try` blocks are not modelled either: `init_driver()` (server/scraperMain.py:27), `driver.get` (:37, :80) and the `execute_script` calls (:93, :135, :142) can raise. Nothing in `scrape_*` or `imageScraper` (:200-226) catches that, so the whole cascade would stop with no later source asked and no folder returned. In the model every source call returns.
- The network, file writes, `os.makedirs`, `shutil.copy` and `cv2.imwrite`. Replies are an input function; the model records the files and copies it would write.
- Printing, tqdm progress bars and the `input()` prompts. Their `int(...)` and `float(...)` parsing is left out too: the answers come already parsed in `Answers`.
- `urljoin("https://picjumbo.com", src)`: modelled as plain concatenation, which is what it gives for a src starting with a single `/` without dot segments.
- `str.lower()`: modelled for ASCII letters only.
- `quote(query)` in the Wikimedia and Yahoo search URLs: not modelled, because the rounds stand for what the search shows, so the URL affects no outcome.
- Python's set iteration order in `list(image_urls)[:n]`: `Fetching.ListPrefix` may pick any distinct members of the set.
- The pixel operations of OpenCV: the transforms are uninterpreted terms. OpenCV's own errors are not modelled, so every call is total:
  - `cvtColor` on a one-channel image;
  - an even blur kernel;
  - resize arguments that are not integers.
- Channel counts: colour code 6 (`COLOR_BGR2GRAY`) is the only conversion treated as leaving one channel. Any other code is treated as leaving three.
- Parameter values: only ints, floats and lists of them are modelled, not arbitrary JSON.
- The `scroll_num` NameError at server/scraperMain.py:100: it is raised inside the `try` and caught there, so it changes no collected URL. The same holds for the undefined `img` in the fallback at server/wikimedia.py:43, which is why an unset src counts for nothing.
- The thread pool of `coreProcessor`: it is modelled as a loop over the files in listing order. Its futures' results are never read, so one image's failure affects no other.
- Files of images with the same stem: `a.jpg` and `a.png` write the same `a_original.jpg` (`Batch.SameStemCollides`), and their chains, named from the stem alone, write the same step files. The later write wins; under the thread pool it is a race whose winner the model does not decide, since files on disk are not modelled.
- `ProcessorScript.PrepareParams`: the colour code and the kernel size are worked out before the `if` blocks rather than inside them. Since the answers are given, the stored parameters are the same.
- `ScraperMain.ImageScraper`: besides the destination folder that the source returns, it also returns the running count, the calls made and the download attempts, to state the cascade's properties.
- `ScraperMain.ScrapePicjumbo`, `ScraperMain.ScrapeWikimedia`, `ScraperMain.ScrapeYahoo` and `ScraperMain.RunSource`: besides the `download_count` the source returns (server/scraperMain.py:74, :126, :181), they return the attempts, the collected URLs and the pages or scrolls taken.
- `Picjumbo4.ScrapePicjumboImages`: the source returns nothing (server/picjumbo4.py:80-102). The model returns the folder, the listed and collected URLs, the pages visited, the count and the attempts.
- The unbounded Yahoo scroll loops (server/scraperMain.py:141, server/yahoo.py:36): the code has no scroll limit and never stops on a page that keeps growing while offering fewer `http` srcs than requested. The model's heights are a finite input, unchanged past their end, so that page is not modelled. `Discovery.ScrollYahoo` and `YahooScript.Run` end within `|heights| + 3` scrolls because of the input, not the code.
- The FastAPI server itself (routes, zip archives, delayed deletion) and the React client are not part of this model. Only the server's `step_map` registry is used.
