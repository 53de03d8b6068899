/**
 * picjumbo4.py, the standalone Picjumbo downloader: the same page crawl as
 * the cascade, but the whole collected list is downloaded, numbered from 1,
 * into `picjumbo_<query>_images`, and each file keeps the extension of its
 * URL.
 */
module Picjumbo4 {
  import opened Wrappers
  import opened Strings
  import opened Fetching
  import opened Discovery

  /** `picjumbo_<query with spaces as underscores>_images`. */
  function ImagesFolder(query: string): string {
    "picjumbo_" + ReplaceChar(query, ' ', '_') + "_images"
  }

  /**
   * `os.path.splitext(url)[1].split('?')[0]`, or `.jpg` when that is empty:
   * a dot and then neither dots, slashes nor question marks. The default
   * `.jpg` is used exactly when the URL has no extension; otherwise the
   * result is the URL's extension cut at its first `?`.
   */
  function UrlExtension(url: string): (ext: string)
    ensures |ext| > 0 && ext[0] == '.'
    ensures forall k :: 0 < k < |ext| ==> ext[k] != '.' && ext[k] != '/' && ext[k] != '?'
    ensures SplitExt(url).1 == "" ==> ext == ".jpg"
    ensures SplitExt(url).1 != "" ==> |ext| <= |SplitExt(url).1| && ext == SplitExt(url).1[..|ext|]
    ensures SplitExt(url).1 != "" && |ext| < |SplitExt(url).1| ==> SplitExt(url).1[|ext|] == '?'
  {
    var full := SplitExt(url).1;
    SplitExtShape(url);
    BeforeFirstFacts(full, '?');
    var cut := BeforeFirst(full, '?');
    if cut == "" then ".jpg" else cut
  }

  /** `image_{img_num}{file_ext}`. */
  function ImageFileName(num: int, url: string): string {
    "image_" + (IntToString(num) + UrlExtension(url))
  }

  /** `download_image`: a file is written only for a reply with status 200. */
  function DownloadImage(url: string, folder: string, num: int, net: string -> Reply): Option<SavedFile> {
    match net(url)
    case Raised => None
    case Response(status, body) =>
      if status == 200 then Some(SavedFile(PathJoin(folder, ImageFileName(num, url)), body)) else None
  }

  /** Different numbers give different file names, whatever the URLs' extensions. */
  lemma ImageFileNameInjective(a: int, b: int, u: string, v: string)
    requires ImageFileName(a, u) == ImageFileName(b, v)
    ensures a == b
  {
    var x, y := IntToString(a), IntToString(b);
    var s, t := UrlExtension(u), UrlExtension(v);
    CancelPrefix("image_", x + s, y + t);
    IntToStringChars(a);
    IntToStringChars(b);
    CancelBeforeDot(x, s, y, t);
    IntToStringInjective(a, b);
  }

  /** Two downloads with different numbers never write the same path. */
  lemma SavedPathsDiffer(folder: string, a: int, b: int, u: string, v: string)
    requires a != b
    ensures PathJoin(folder, ImageFileName(a, u)) != PathJoin(folder, ImageFileName(b, v))
  {
    if PathJoin(folder, ImageFileName(a, u)) == PathJoin(folder, ImageFileName(b, v)) {
      PathJoinInjective(folder, ImageFileName(a, u), ImageFileName(b, v));
      ImageFileNameInjective(a, b, u, v);
    }
  }

  /**
   * `get_all_image_srcs`: crawl the result pages, then `list(image_urls)[:total_images]`.
   * The crawl never gathers more than requested, so the whole set comes out.
   */
  method GetAllImageSrcs(baseUrl: string, pages: seq<seq<Picture>>, total: int)
    returns (srcs: seq<string>, urls: set<string>, visited: seq<string>)
    ensures urls == Gathered(PicjumboOffers(pages), total, |visited|)
    ensures CrawlContinues(PicjumboOffers(pages), total, |visited|)
    ensures CrawlHalts(PicjumboOffers(pages), total, |visited|)
    ensures visited == VisitedPages(baseUrl, |visited|)
    ensures |srcs| == |urls|
    ensures |urls| <= Max(total, 0)
    ensures forall u :: u in srcs <==> u in urls
    ensures Distinct(srcs)
  {
    var loaded;
    urls, loaded := CrawlPages(PicjumboOffers(pages), total);
    GatheredFacts(PicjumboOffers(pages), total, loaded);
    visited := VisitedPages(baseUrl, loaded);
    srcs := ListPrefix(urls, total);
  }

  /** The first `n` listed URLs have been tried, the i-th as image number i + 1. */
  predicate NumberedUpTo(attempts: seq<Attempt>, srcs: seq<string>, folder: string, net: string -> Reply, n: nat) {
    |attempts| == n <= |srcs|
    && forall i :: 0 <= i < n ==>
      attempts[i] == Attempt(srcs[i], i + 1, DownloadImage(srcs[i], folder, i + 1, net))
  }

  /** The i-th attempt downloads the i-th listed URL as image number i + 1, for every listed URL. */
  predicate NumberedFromOne(attempts: seq<Attempt>, srcs: seq<string>, folder: string, net: string -> Reply) {
    NumberedUpTo(attempts, srcs, folder, net, |srcs|)
  }

  /** Trying the next URL as the next number extends the numbering by one. */
  lemma NumberedStep(attempts: seq<Attempt>, srcs: seq<string>, folder: string, net: string -> Reply, n: nat, a: Attempt)
    requires NumberedUpTo(attempts, srcs, folder, net, n)
    requires n < |srcs|
    requires a == Attempt(srcs[n], n + 1, DownloadImage(srcs[n], folder, n + 1, net))
    ensures NumberedUpTo(attempts + [a], srcs, folder, net, n + 1)
  {
  }

  /**
   * `scrape_picjumbo_images`: crawl the result pages of the query's search
   * listing, then try every URL found once, numbered 1, 2, ...; with no URL
   * found nothing is downloaded. `downloaded` counts the attempts, never
   * more than requested.
   */
  method ScrapePicjumboImages(query: string, total: int, pages: seq<seq<Picture>>, net: string -> Reply)
    returns (folder: string, srcs: seq<string>, urls: set<string>, visited: seq<string>, downloaded: int, attempts: seq<Attempt>)
    ensures folder == ImagesFolder(query)
    ensures visited == VisitedPages(PicjumboSearchUrl(query), |visited|)
    ensures urls == Gathered(PicjumboOffers(pages), total, |visited|)
    ensures CrawlContinues(PicjumboOffers(pages), total, |visited|)
    ensures CrawlHalts(PicjumboOffers(pages), total, |visited|)
    ensures forall u :: u in srcs <==> u in urls
    ensures Distinct(srcs)
    ensures |srcs| <= Max(total, 0)
    ensures srcs == [] ==> attempts == []
    ensures downloaded == |srcs|
    ensures NumberedFromOne(attempts, srcs, folder, net)
  {
    folder := ImagesFolder(query);
    srcs, urls, visited := GetAllImageSrcs(PicjumboSearchUrl(query), pages, total);
    attempts := [];
    downloaded := 0;
    if srcs == [] {
      return;
    }
    var i := 0;
    while i < |srcs|
      invariant 0 <= i <= |srcs| <= total
      invariant downloaded == i
      invariant NumberedUpTo(attempts, srcs, folder, net, i)
    {
      var url := srcs[i];
      if downloaded >= total {
        break;
      }
      var a := Attempt(url, downloaded + 1, DownloadImage(url, folder, downloaded + 1, net));
      NumberedStep(attempts, srcs, folder, net, i, a);
      attempts := attempts + [a];
      downloaded := downloaded + 1;
      i := i + 1;
    }
  }

  /** No two files of one run overwrite each other. */
  lemma RunPathsDistinct(attempts: seq<Attempt>, srcs: seq<string>, folder: string, net: string -> Reply, i: int, j: int)
    requires NumberedFromOne(attempts, srcs, folder, net)
    requires 0 <= i < j < |attempts|
    requires attempts[i].file.Some? && attempts[j].file.Some?
    ensures attempts[i].file.value.path != attempts[j].file.value.path
  {
    SavedPathsDiffer(folder, i + 1, j + 1, srcs[i], srcs[j]);
  }
}
