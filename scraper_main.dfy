/**
 * The acquisition cascade of scraperMain.py: Picjumbo is asked for the whole
 * request, Wikimedia for what is still missing, Yahoo for what is missing
 * after that. Every source collects a set of URLs, downloads
 * `min(quota, len(urls))` of them and numbers the files on from where the
 * previous source stopped, all into one folder.
 */
module ScraperMain {
  import opened Wrappers
  import opened Strings
  import opened Fetching
  import opened Discovery

  /**
   * What the three sites and the network show for one run: the Picjumbo
   * result pages, the Wikimedia thumbnails after each scroll, the Yahoo
   * thumbnails after each scroll with the page height before the first
   * and after each scroll, and the reply to every download.
   */
  datatype Web = Web(
    picjumboPages: seq<seq<Picture>>,
    wikimediaRounds: seq<seq<string>>,
    yahooRounds: seq<seq<string>>,
    yahooStartHeight: int,
    yahooHeights: seq<int>,
    net: string -> Reply)

  datatype Source = Picjumbo | Wikimedia | Yahoo

  /**
   * One call of a source: its quota, the first file number it was given,
   * the count it reported, the URLs it collected and the number of pages
   * or scrolls it took to collect them.
   */
  datatype Call = Call(source: Source, quota: int, start: int, count: int, urls: set<string>, rounds: nat)

  /** The folder every source writes into: `./images_<query with spaces as underscores>`. */
  function DestFolder(query: string): string {
    "./images_" + ReplaceChar(query, ' ', '_')
  }

  /** The file name of image number `num`; the extension computed from the URL is never used. */
  function ImageFileName(num: int): string {
    IntToString(num) + ".jpg"
  }

  /** `download_image`: a file is written only for a reply with status 200; a raised request writes nothing. */
  function DownloadImage(url: string, folder: string, num: int, net: string -> Reply): Option<SavedFile> {
    match net(url)
    case Raised => None
    case Response(status, body) =>
      if status == 200 then Some(SavedFile(PathJoin(folder, ImageFileName(num)), body)) else None
  }

  /** `for i, url in enumerate(chosen): download_image(url, dest_folder, start_num + i)`. */
  method DownloadAll(chosen: seq<string>, folder: string, startNum: int, net: string -> Reply)
    returns (attempts: seq<Attempt>)
    ensures |attempts| == |chosen|
    ensures forall i :: 0 <= i < |chosen| ==>
      attempts[i] == Attempt(chosen[i], startNum + i, DownloadImage(chosen[i], folder, startNum + i, net))
  {
    attempts := [];
    var i := 0;
    while i < |chosen|
      invariant 0 <= i <= |chosen|
      invariant |attempts| == i
      invariant forall k :: 0 <= k < i ==>
        attempts[k] == Attempt(chosen[k], startNum + k, DownloadImage(chosen[k], folder, startNum + k, net))
    {
      var url := chosen[i];
      attempts := attempts + [Attempt(url, startNum + i, DownloadImage(url, folder, startNum + i, net))];
      i := i + 1;
    }
  }

  /** The attempts carry the numbers `start`, `start + 1`, ... and each wrote what `download_image` writes for its URL and number. */
  predicate NumberedFrom(attempts: seq<Attempt>, start: int, folder: string, net: string -> Reply) {
    forall i :: 0 <= i < |attempts| ==>
      attempts[i].num == start + i && attempts[i].file == DownloadImage(attempts[i].url, folder, start + i, net)
  }

  /** Numbering runs on across two batches when the second starts where the first stopped. */
  lemma NumberedAppend(a: seq<Attempt>, b: seq<Attempt>, start: int, folder: string, net: string -> Reply)
    requires NumberedFrom(a, start, folder, net)
    requires NumberedFrom(b, start + |a|, folder, net)
    ensures NumberedFrom(a + b, start, folder, net)
  {
    forall i | 0 <= i < |a + b|
      ensures (a + b)[i].num == start + i
      ensures (a + b)[i].file == DownloadImage((a + b)[i].url, folder, start + i, net)
    {
      if i >= |a| {
        assert (a + b)[i] == b[i - |a|];
      }
    }
  }

  /**
   * What a source reports against what it was asked for: between none and
   * all of a positive quota, and the quota itself when that is negative.
   */
  predicate CountFits(quota: int, count: int) {
    (quota >= 0 ==> 0 <= count <= quota) && (quota < 0 ==> count == quota)
  }

  /** Asked for nothing, a source collects nothing; then it reports that count and tries as many files as it reports. */
  lemma CountOfEmpty(urls: set<string>, quota: int)
    requires quota <= 0 ==> urls == {}
    ensures CountFits(quota, Min(quota, |urls|))
    ensures SliceLength(|urls|, Min(quota, |urls|)) == Max(Min(quota, |urls|), 0)
  {
  }

  /** `download_count = min(total_images, len(image_urls))`, then the download loop over `list(image_urls)[:download_count]`. */
  method DownloadSome(urls: set<string>, quota: int, folder: string, startNum: int, net: string -> Reply)
    returns (count: int, attempts: seq<Attempt>)
    ensures count == Min(quota, |urls|)
    ensures |attempts| == SliceLength(|urls|, count)
    ensures forall i :: 0 <= i < |attempts| ==> attempts[i].url in urls
    ensures NumberedFrom(attempts, startNum, folder, net)
    ensures forall i, j :: 0 <= i < j < |attempts| ==> attempts[i].url != attempts[j].url
  {
    count := Min(quota, |urls|);
    var chosen := ListPrefix(urls, count);
    attempts := DownloadAll(chosen, folder, startNum, net);
  }

  /** `scrape_picjumbo`: crawl the result pages, then download. */
  method ScrapePicjumbo(query: string, quota: int, folder: string, startNum: int, web: Web)
    returns (count: int, attempts: seq<Attempt>, urls: set<string>, visited: seq<string>)
    ensures urls == Gathered(PicjumboOffers(web.picjumboPages), quota, |visited|)
    ensures CrawlContinues(PicjumboOffers(web.picjumboPages), quota, |visited|)
    ensures CrawlHalts(PicjumboOffers(web.picjumboPages), quota, |visited|)
    ensures visited == VisitedPages(PicjumboSearchUrl(query), |visited|)
    ensures count == Min(quota, |urls|)
    ensures quota <= 0 ==> urls == {}
    ensures CountFits(quota, count)
    ensures |attempts| == Max(count, 0)
    ensures forall i :: 0 <= i < |attempts| ==> attempts[i].url in urls
    ensures NumberedFrom(attempts, startNum, folder, web.net)
    ensures forall i, j :: 0 <= i < j < |attempts| ==> attempts[i].url != attempts[j].url
  {
    var loaded;
    urls, loaded := CrawlPages(PicjumboOffers(web.picjumboPages), quota);
    CrawlPageBound(PicjumboOffers(web.picjumboPages), quota, loaded);
    visited := VisitedPages(PicjumboSearchUrl(query), loaded);
    count, attempts := DownloadSome(urls, quota, folder, startNum, web.net);
    CountOfEmpty(urls, quota);
  }

  /** `scrape_wikimedia`: up to 50 scrolls, then download. */
  method ScrapeWikimedia(quota: int, folder: string, startNum: int, web: Web)
    returns (count: int, attempts: seq<Attempt>, urls: set<string>, scrolls: nat)
    ensures scrolls <= WikimediaMaxScrolls
    ensures urls == Gathered(WikimediaOffers(web.wikimediaRounds), quota, scrolls)
    ensures scrolls < WikimediaMaxScrolls ==> |urls| >= quota
    ensures forall k :: 0 <= k < scrolls ==> |Gathered(WikimediaOffers(web.wikimediaRounds), quota, k)| < quota
    ensures count == Min(quota, |urls|)
    ensures quota <= 0 ==> urls == {}
    ensures CountFits(quota, count)
    ensures |attempts| == Max(count, 0)
    ensures forall i :: 0 <= i < |attempts| ==> attempts[i].url in urls
    ensures NumberedFrom(attempts, startNum, folder, web.net)
    ensures forall i, j :: 0 <= i < j < |attempts| ==> attempts[i].url != attempts[j].url
  {
    urls, scrolls := ScrollCapped(WikimediaOffers(web.wikimediaRounds), quota);
    count, attempts := DownloadSome(urls, quota, folder, startNum, web.net);
    CountOfEmpty(urls, quota);
  }

  /** `scrape_yahoo`: scroll until enough or the page stops growing, then download. */
  method ScrapeYahoo(quota: int, folder: string, startNum: int, web: Web)
    returns (count: int, attempts: seq<Attempt>, urls: set<string>, scrolls: nat)
    ensures urls == OfferedInRounds(YahooOffers(web.yahooRounds), scrolls)
    ensures |urls| >= quota || Stagnation(web.yahooStartHeight, web.yahooHeights, scrolls) >= YahooRetryLimit
    ensures YahooContinues(YahooOffers(web.yahooRounds), web.yahooStartHeight, web.yahooHeights, quota, scrolls)
    ensures count == Min(quota, |urls|)
    ensures quota <= 0 ==> urls == {}
    ensures CountFits(quota, count)
    ensures |attempts| == Max(count, 0)
    ensures forall i :: 0 <= i < |attempts| ==> attempts[i].url in urls
    ensures NumberedFrom(attempts, startNum, folder, web.net)
    ensures forall i, j :: 0 <= i < j < |attempts| ==> attempts[i].url != attempts[j].url
  {
    var retries;
    urls, scrolls, retries := ScrollYahoo(YahooOffers(web.yahooRounds), web.yahooStartHeight, web.yahooHeights, quota);
    count, attempts := DownloadSome(urls, quota, folder, startNum, web.net);
    CountOfEmpty(urls, quota);
  }

  /** The sum of the counts the calls reported. */
  function Downloaded(calls: seq<Call>): int {
    if |calls| == 0 then 0 else Downloaded(calls[..|calls| - 1]) + calls[|calls| - 1].count
  }

  /** The order in which the cascade tries the sources. */
  const SourceOrder := [Picjumbo, Wikimedia, Yahoo]

  /**
   * The calls follow the cascade order: the sources in turn, the first asked
   * for everything, each later one asked for exactly what is still missing,
   * numbering on from the files already counted, and only called while the
   * ones before it fell short.
   */
  predicate InCascadeOrder(total: int, calls: seq<Call>)
    requires |calls| <= |SourceOrder|
  {
    if |calls| == 0 then true
    else
      var before := calls[..|calls| - 1];
      var last := calls[|calls| - 1];
      InCascadeOrder(total, before)
      && last.source == SourceOrder[|calls| - 1]
      && last.quota == total - Downloaded(before)
      && last.start == Downloaded(before) + 1
      && (|before| > 0 ==> Downloaded(before) < total)
  }

  /** Appending the next source's call to a run in cascade order keeps it in cascade order and adds its count. */
  lemma CascadeAppend(total: int, calls: seq<Call>, c: Call)
    requires |calls| < |SourceOrder|
    requires InCascadeOrder(total, calls)
    requires c.source == SourceOrder[|calls|]
    requires c.quota == total - Downloaded(calls)
    requires c.start == Downloaded(calls) + 1
    requires |calls| > 0 ==> Downloaded(calls) < total
    ensures InCascadeOrder(total, calls + [c])
    ensures Downloaded(calls + [c]) == Downloaded(calls) + c.count
  {
    assert (calls + [c])[..|calls|] == calls;
  }

  /**
   * What a source's own loop collected for `quota` images in `rounds`
   * pages or scrolls: Picjumbo's page crawl, Wikimedia's capped scrolling
   * and Yahoo's scrolling until full or stagnant, each as its scraper
   * states it.
   */
  ghost predicate Discovered(source: Source, web: Web, quota: int, urls: set<string>, rounds: nat) {
    match source
    case Picjumbo =>
      var offers := PicjumboOffers(web.picjumboPages);
      urls == Gathered(offers, quota, rounds) && CrawlContinues(offers, quota, rounds) && CrawlHalts(offers, quota, rounds)
    case Wikimedia =>
      var offers := WikimediaOffers(web.wikimediaRounds);
      rounds <= WikimediaMaxScrolls
      && urls == Gathered(offers, quota, rounds)
      && (rounds < WikimediaMaxScrolls ==> |urls| >= quota)
      && (forall k :: 0 <= k < rounds ==> |Gathered(offers, quota, k)| < quota)
    case Yahoo =>
      var offers := YahooOffers(web.yahooRounds);
      urls == OfferedInRounds(offers, rounds)
      && (|urls| >= quota || Stagnation(web.yahooStartHeight, web.yahooHeights, rounds) >= YahooRetryLimit)
      && YahooContinues(offers, web.yahooStartHeight, web.yahooHeights, quota, rounds)
  }

  /**
   * One turn of the cascade: the named source is scraped for `quota`
   * images, numbered from `startNum`; it reports `min(quota, len(urls))`
   * for the URLs its loop collected and tries that many of them.
   */
  method RunSource(source: Source, query: string, quota: int, folder: string, startNum: int, web: Web)
    returns (count: int, attempts: seq<Attempt>, urls: set<string>, rounds: nat)
    ensures Discovered(source, web, quota, urls, rounds)
    ensures count == Min(quota, |urls|)
    ensures CountFits(quota, count)
    ensures |attempts| == Max(count, 0)
    ensures forall i :: 0 <= i < |attempts| ==> attempts[i].url in urls
    ensures NumberedFrom(attempts, startNum, folder, web.net)
    ensures forall i, j :: 0 <= i < j < |attempts| ==> attempts[i].url != attempts[j].url
  {
    match source
    case Picjumbo =>
      var visited;
      count, attempts, urls, visited := ScrapePicjumbo(query, quota, folder, startNum, web);
      rounds := |visited|;
    case Wikimedia =>
      count, attempts, urls, rounds := ScrapeWikimedia(quota, folder, startNum, web);
    case Yahoo =>
      count, attempts, urls, rounds := ScrapeYahoo(quota, folder, startNum, web);
  }

  /** Each call's count is `min(quota, len(urls))` of what its source's loop collected. */
  ghost predicate CallsDiscovered(web: Web, calls: seq<Call>) {
    forall k :: 0 <= k < |calls| ==>
      Discovered(calls[k].source, web, calls[k].quota, calls[k].urls, calls[k].rounds)
      && calls[k].count == Min(calls[k].quota, |calls[k].urls|)
      && CountFits(calls[k].quota, calls[k].count)
  }

  /** File number `i + 1` was downloaded from a URL the call whose numbers it falls in collected. */
  predicate DrawnFromCalls(calls: seq<Call>, attempts: seq<Attempt>) {
    forall k, i :: 0 <= k < |calls| && 0 <= i < |attempts| && calls[k].start <= i + 1 < calls[k].start + calls[k].count ==>
      attempts[i].url in calls[k].urls
  }

  /** Within the numbers one call gave out, no URL was downloaded twice. */
  predicate DistinctWithinCalls(calls: seq<Call>, attempts: seq<Attempt>) {
    forall k, i, j :: 0 <= k < |calls| && 0 <= i < j < |attempts| && calls[k].start <= i + 1 && j + 1 < calls[k].start + calls[k].count ==>
      attempts[i].url != attempts[j].url
  }

  /**
   * Where the cascade stands after some turns: the calls so far are in
   * cascade order, `downloaded` is their total (negative only when the
   * request itself is), every call reports what its source collected, and
   * the attempts made are numbered 1, 2, ... into the folder, each from
   * the URLs of the call that numbered it and none repeated within a call.
   */
  ghost predicate CascadeState(total: int, folder: string, web: Web,
                               calls: seq<Call>, attempts: seq<Attempt>, downloaded: int)
  {
    |calls| <= |SourceOrder|
    && InCascadeOrder(total, calls)
    && downloaded == Downloaded(calls)
    && (downloaded >= 0 || downloaded == total)
    && CallsDiscovered(web, calls)
    && |attempts| == Max(downloaded, 0)
    && NumberedFrom(attempts, 1, folder, web.net)
    && DrawnFromCalls(calls, attempts)
    && DistinctWithinCalls(calls, attempts)
  }

  /** A new call's URLs, drawn on for the numbers after the attempts so far, keep every attempt drawn from its call. */
  lemma DrawnAppend(calls: seq<Call>, attempts: seq<Attempt>, c: Call, got: seq<Attempt>)
    requires DrawnFromCalls(calls, attempts)
    requires c.start == |attempts| + 1
    requires forall k :: 0 <= k < |calls| ==> calls[k].start + calls[k].count <= c.start
    requires forall i :: 0 <= i < |got| ==> got[i].url in c.urls
    ensures DrawnFromCalls(calls + [c], attempts + got)
  {
    forall k, i | 0 <= k < |calls + [c]| && 0 <= i < |attempts + got| && (calls + [c])[k].start <= i + 1 < (calls + [c])[k].start + (calls + [c])[k].count
      ensures (attempts + got)[i].url in (calls + [c])[k].urls
    {
      if k < |calls| {
        assert (calls + [c])[k] == calls[k];
        assert (attempts + got)[i] == attempts[i];
      } else {
        assert (attempts + got)[i] == got[i - |attempts|];
      }
    }
  }

  /** A new call that repeats no URL among its own attempts, numbered after all earlier ones, keeps every call free of repeats. */
  lemma DistinctAppend(calls: seq<Call>, attempts: seq<Attempt>, c: Call, got: seq<Attempt>)
    requires DistinctWithinCalls(calls, attempts)
    requires c.start == |attempts| + 1
    requires forall k :: 0 <= k < |calls| ==> calls[k].start + calls[k].count <= c.start
    requires forall i, j :: 0 <= i < j < |got| ==> got[i].url != got[j].url
    ensures DistinctWithinCalls(calls + [c], attempts + got)
  {
    forall k, i, j | 0 <= k < |calls + [c]| && 0 <= i < j < |attempts + got|
                     && (calls + [c])[k].start <= i + 1 && j + 1 < (calls + [c])[k].start + (calls + [c])[k].count
      ensures (attempts + got)[i].url != (attempts + got)[j].url
    {
      if k < |calls| {
        assert (calls + [c])[k] == calls[k];
        assert (attempts + got)[i] == attempts[i];
        assert (attempts + got)[j] == attempts[j];
      } else {
        assert (attempts + got)[i] == got[i - |attempts|];
        assert (attempts + got)[j] == got[j - |attempts|];
      }
    }
  }

  /** The calls of a cascade number their files below where the next call starts. */
  lemma {:induction false} CallsBelowNext(total: int, calls: seq<Call>, k: nat)
    requires |calls| <= |SourceOrder|
    requires InCascadeOrder(total, calls)
    requires forall j :: 0 <= j < |calls| ==> CountFits(calls[j].quota, calls[j].count)
    requires k < |calls|
    ensures calls[k].start + calls[k].count <= Downloaded(calls) + 1
  {
    var before := calls[..|calls| - 1];
    if k < |before| {
      assert forall j :: 0 <= j < |before| ==> before[j] == calls[j];
      CallsBelowNext(total, before, k);
      assert calls[k] == before[k];
      var last := calls[|calls| - 1];
      assert Downloaded(calls) == Downloaded(before) + last.count;
      assert last.quota == total - Downloaded(before) > 0;
    }
  }

  /** One more turn, for what is still missing and numbered on from what was counted, keeps the cascade's state. */
  lemma CascadeTurn(total: int, folder: string, web: Web,
                    calls: seq<Call>, attempts: seq<Attempt>, downloaded: int, c: Call, got: seq<Attempt>)
    requires CascadeState(total, folder, web, calls, attempts, downloaded)
    requires |calls| < |SourceOrder|
    requires |calls| > 0 ==> downloaded < total
    requires c.source == SourceOrder[|calls|]
    requires c.quota == total - downloaded && c.start == downloaded + 1
    requires Discovered(c.source, web, c.quota, c.urls, c.rounds)
    requires c.count == Min(c.quota, |c.urls|)
    requires CountFits(c.quota, c.count)
    requires |got| == Max(c.count, 0)
    requires forall i :: 0 <= i < |got| ==> got[i].url in c.urls
    requires NumberedFrom(got, downloaded + 1, folder, web.net)
    requires forall i, j :: 0 <= i < j < |got| ==> got[i].url != got[j].url
    ensures CascadeState(total, folder, web, calls + [c], attempts + got, downloaded + c.count)
  {
    CascadeAppend(total, calls, c);
    if |calls| > 0 {
      assert |attempts| == downloaded;
    } else {
      assert attempts == [];
    }
    NumberedAppend(attempts, got, 1, folder, web.net);
    assert forall k :: 0 <= k < |calls| ==> (calls + [c])[k] == calls[k];
    forall k | 0 <= k < |calls|
      ensures calls[k].start + calls[k].count <= c.start
    {
      CallsBelowNext(total, calls, k);
    }
    DrawnAppend(calls, attempts, c, got);
    DistinctAppend(calls, attempts, c, got);
  }

  /**
   * `if downloaded_so_far < total_images:` ask the next source for what is
   * still missing, numbering on from the files counted so far; otherwise
   * the state stays as it is.
   */
  method FollowUp(source: Source, query: string, total: int, web: Web, folder: string,
                  calls: seq<Call>, attempts: seq<Attempt>, downloaded: int)
    returns (calls': seq<Call>, attempts': seq<Attempt>, downloaded': int)
    requires 1 <= |calls| <= |SourceOrder|
    requires downloaded < total ==> |calls| < |SourceOrder| && source == SourceOrder[|calls|]
    requires CascadeState(total, folder, web, calls, attempts, downloaded)
    ensures CascadeState(total, folder, web, calls', attempts', downloaded')
    ensures downloaded < total ==> |calls'| == |calls| + 1
    ensures downloaded >= total ==> calls' == calls
    ensures downloaded >= total ==> attempts' == attempts
    ensures downloaded >= total ==> downloaded' == downloaded
  {
    calls', attempts', downloaded' := calls, attempts, downloaded;
    if downloaded < total {
      var remaining := total - downloaded;
      var count, got, urls, rounds := RunSource(source, query, remaining, folder, downloaded + 1, web);
      var c := Call(source, remaining, downloaded + 1, count, urls, rounds);
      CascadeTurn(total, folder, web, calls, attempts, downloaded, c, got);
      calls', attempts', downloaded' := calls + [c], attempts + got, downloaded + count;
    }
  }

  /** `imageScraper`: the three sources in turn until the request is met. */
  method ImageScraper(query: string, total: int, web: Web)
    returns (folder: string, downloaded: int, calls: seq<Call>, attempts: seq<Attempt>)
    ensures folder == DestFolder(query)
    ensures CascadeState(total, folder, web, calls, attempts, downloaded)
    ensures 1 <= |calls|
    ensures |calls| < |SourceOrder| ==> downloaded >= total
  {
    folder := DestFolder(query);
    calls, attempts, downloaded := [], [], 0;
    var count, got, urls, rounds := RunSource(Picjumbo, query, total, folder, downloaded + 1, web);
    var c := Call(Picjumbo, total, downloaded + 1, count, urls, rounds);
    CascadeTurn(total, folder, web, calls, attempts, downloaded, c, got);
    calls, attempts, downloaded := calls + [c], attempts + got, downloaded + count;
    calls, attempts, downloaded := FollowUp(Wikimedia, query, total, web, folder, calls, attempts, downloaded);
    calls, attempts, downloaded := FollowUp(Yahoo, query, total, web, folder, calls, attempts, downloaded);
  }

  /** The cascade never downloads more than requested: each source is asked only for what is still missing. */
  lemma {:induction false} CascadeNeverOvershoots(total: int, calls: seq<Call>)
    requires |calls| <= |SourceOrder|
    requires InCascadeOrder(total, calls)
    requires forall k :: 0 <= k < |calls| ==> CountFits(calls[k].quota, calls[k].count)
    requires total >= 0
    ensures 0 <= Downloaded(calls) <= total
  {
    if |calls| > 0 {
      var before := calls[..|calls| - 1];
      assert forall k :: 0 <= k < |before| ==> before[k] == calls[k];
      CascadeNeverOvershoots(total, before);
    }
  }

  /** Different numbers name different files in the same folder. */
  lemma SavedPathsDiffer(folder: string, a: int, b: int)
    requires a != b
    ensures PathJoin(folder, ImageFileName(a)) != PathJoin(folder, ImageFileName(b))
  {
    if PathJoin(folder, ImageFileName(a)) == PathJoin(folder, ImageFileName(b)) {
      IntToStringChars(a);
      IntToStringChars(b);
      IntToStringSign(a);
      IntToStringSign(b);
      PathJoinInjective(folder, ImageFileName(a), ImageFileName(b));
      CancelSuffix(IntToString(a), IntToString(b), ".jpg");
      IntToStringInjective(a, b);
    }
  }

  /** No two downloads of a whole cascade overwrite each other: the numbering never repeats a file name. */
  lemma CascadePathsDistinct(attempts: seq<Attempt>, folder: string, net: string -> Reply, i: int, j: int)
    requires NumberedFrom(attempts, 1, folder, net)
    requires 0 <= i < j < |attempts|
    requires attempts[i].file.Some? && attempts[j].file.Some?
    ensures attempts[i].file.value.path != attempts[j].file.value.path
  {
    SavedPathsDiffer(folder, 1 + i, 1 + j);
  }
}
