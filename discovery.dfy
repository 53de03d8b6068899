/**
 * The URL-discovery loops of the three image sources.
 *
 * The browser is abstracted into what each round shows. A round is a
 * Picjumbo result page, or the thumbnails present after one Wikimedia or
 * Yahoo scroll. Each element of a round yields the URL the source would
 * add to its set, or nothing; which elements yield what is decided per
 * source by a pure filter (`PictureUrl`, `UploadUrl`, `YahooUrl`). Round n
 * (counted from 1) of an input `rounds` is `rounds[n - 1]`. A round past
 * the end of the input shows nothing.
 *
 * The loops only ever compare URLs for equality, so they are stated for an
 * arbitrary element type `T`; the scrapers use them with `T = string`.
 */
module Discovery {
  import opened Wrappers
  import opened Strings
  import opened Fetching

  /** What round `n` (from 1) shows; empty past the end of the input. */
  function RoundAt<X>(rounds: seq<seq<X>>, n: nat): seq<X> {
    if 1 <= n <= |rounds| then rounds[n - 1] else []
  }

  /** The set holding the value of an option, if any. */
  function Elements<T>(o: Option<T>): set<T> {
    if o.Some? then {o.value} else {}
  }

  // =====================================================================
  // What the rounds offer
  // =====================================================================

  /** The URLs offered by the first `j` elements of a round. */
  function OfferedBy<T>(round: seq<Option<T>>, j: nat): set<T>
    requires j <= |round|
  {
    if j == 0 then {} else OfferedBy(round, j - 1) + Elements(round[j - 1])
  }

  /** Every URL a round offers. */
  function Offered<T>(round: seq<Option<T>>): set<T> {
    OfferedBy(round, |round|)
  }

  /** Every URL offered by rounds 1..n. */
  function OfferedInRounds<T>(rounds: seq<seq<Option<T>>>, n: nat): set<T> {
    if n == 0 then {} else OfferedInRounds(rounds, n - 1) + Offered(RoundAt(rounds, n))
  }

  lemma {:induction false} OfferedByMonotone<T>(round: seq<Option<T>>, j: nat, k: nat)
    requires j <= k <= |round|
    ensures OfferedBy(round, j) <= OfferedBy(round, k)
    decreases k
  {
    if j < k {
      OfferedByMonotone(round, j, k - 1);
    }
  }

  lemma {:induction false} OfferedInRoundsMonotone<T>(rounds: seq<seq<Option<T>>>, j: nat, k: nat)
    requires j <= k
    ensures OfferedInRounds(rounds, j) <= OfferedInRounds(rounds, k)
    decreases k
  {
    if j < k {
      OfferedInRoundsMonotone(rounds, j, k - 1);
    }
  }

  /** Rounds past the end of the input add nothing. */
  lemma {:induction false} OfferedInRoundsSaturates<T>(rounds: seq<seq<Option<T>>>, n: nat)
    requires n >= |rounds|
    ensures OfferedInRounds(rounds, n) == OfferedInRounds(rounds, |rounds|)
    decreases n
  {
    if n > |rounds| {
      OfferedInRoundsSaturates(rounds, n - 1);
    }
  }

  /** A set grown from `a` that has not grown in size is `a` itself. */
  lemma SameSizeSubset<T>(a: set<T>, b: set<T>)
    requires a <= b && |b| <= |a|
    ensures a == b
  {
    assert |b - a| == |b| - |a|;
  }

  // =====================================================================
  // Collecting with a cap: add offered URLs until the set holds `total`
  // =====================================================================

  /**
   * The set after the first `j` elements of a round have been looked at,
   * starting from `urls`, when nothing more is added once the set holds
   * `total` URLs.
   */
  function Fill<T>(urls: set<T>, round: seq<Option<T>>, j: nat, total: int): set<T>
    requires j <= |round|
  {
    if j == 0 then urls
    else
      var s := Fill(urls, round, j - 1, total);
      if |s| >= total then s else s + Elements(round[j - 1])
  }

  /** Once the set is full, later elements change nothing. */
  lemma {:induction false} FillSaturates<T>(urls: set<T>, round: seq<Option<T>>, j: nat, k: nat, total: int)
    requires j <= k <= |round|
    requires |Fill(urls, round, j, total)| >= total
    ensures Fill(urls, round, k, total) == Fill(urls, round, j, total)
    decreases k
  {
    if j < k {
      FillSaturates(urls, round, j, k - 1, total);
    }
  }

  /** The capped set keeps what it started with and takes only offered URLs. */
  lemma {:induction false} FillWithin<T>(urls: set<T>, round: seq<Option<T>>, j: nat, total: int)
    requires j <= |round|
    ensures urls <= Fill(urls, round, j, total)
    ensures Fill(urls, round, j, total) <= urls + OfferedBy(round, j)
    decreases j
  {
    if j > 0 {
      FillWithin(urls, round, j - 1, total);
    }
  }

  /** The capped set never passes the cap unless it started past it. */
  lemma {:induction false} FillBounded<T>(urls: set<T>, round: seq<Option<T>>, j: nat, total: int)
    requires j <= |round|
    ensures |Fill(urls, round, j, total)| <= Max(total, |urls|)
    decreases j
  {
    if j > 0 {
      FillBounded(urls, round, j - 1, total);
      var s := Fill(urls, round, j - 1, total);
      if |s| < total {
        assert |s + Elements(round[j - 1])| <= |s| + 1;
      }
    }
  }

  /** While the capped set is below the cap, it has taken everything offered so far. */
  lemma {:induction false} FillShort<T>(urls: set<T>, round: seq<Option<T>>, j: nat, total: int)
    requires j <= |round|
    requires |Fill(urls, round, j, total)| < total
    ensures Fill(urls, round, j, total) == urls + OfferedBy(round, j)
    decreases j
  {
    if j > 0 {
      var s := Fill(urls, round, j - 1, total);
      assert s <= Fill(urls, round, j, total);
      SubsetCard(s, Fill(urls, round, j, total));
      FillShort(urls, round, j - 1, total);
    }
  }

  /** Everything known about one capped pass over a round. */
  lemma FillFacts<T>(urls: set<T>, round: seq<Option<T>>, j: nat, total: int)
    requires j <= |round|
    ensures urls <= Fill(urls, round, j, total) <= urls + OfferedBy(round, j)
    ensures |Fill(urls, round, j, total)| <= Max(total, |urls|)
    ensures |Fill(urls, round, j, total)| < total ==> Fill(urls, round, j, total) == urls + OfferedBy(round, j)
  {
    FillWithin(urls, round, j, total);
    FillBounded(urls, round, j, total);
    if |Fill(urls, round, j, total)| < total {
      FillShort(urls, round, j, total);
    }
  }

  /**
   * The set after rounds 1..n when every round, and every element within a
   * round, is skipped once the set holds `total` URLs.
   */
  function Gathered<T>(rounds: seq<seq<Option<T>>>, total: int, n: nat): set<T> {
    if n == 0 then {}
    else
      var round := RoundAt(rounds, n);
      Fill(Gathered(rounds, total, n - 1), round, |round|, total)
  }

  /**
   * The gathered set holds only offered URLs and never more than requested;
   * while it is short of the request it holds every URL offered so far.
   */
  lemma {:induction false} GatheredFacts<T>(rounds: seq<seq<Option<T>>>, total: int, n: nat)
    ensures Gathered(rounds, total, n) <= OfferedInRounds(rounds, n)
    ensures |Gathered(rounds, total, n)| <= Max(total, 0)
    ensures |Gathered(rounds, total, n)| < total ==> Gathered(rounds, total, n) == OfferedInRounds(rounds, n)
    decreases n
  {
    if n > 0 {
      GatheredFacts(rounds, total, n - 1);
      var round := RoundAt(rounds, n);
      var before := Gathered(rounds, total, n - 1);
      FillFacts(before, round, |round|, total);
      if |Gathered(rounds, total, n)| < total {
        if |before| >= total {
          FillSaturates(before, round, 0, |round|, total);
        }
      }
    }
  }

  /** While short of the request, the gathered set is everything offered so far. */
  lemma GatheredShort<T>(rounds: seq<seq<Option<T>>>, total: int, n: nat)
    requires |Gathered(rounds, total, n)| < total
    ensures Gathered(rounds, total, n) == OfferedInRounds(rounds, n)
  {
    GatheredFacts(rounds, total, n);
  }

  /** Gathering only grows the set. */
  lemma {:induction false} GatheredMonotone<T>(rounds: seq<seq<Option<T>>>, total: int, j: nat, k: nat)
    requires j <= k
    ensures Gathered(rounds, total, j) <= Gathered(rounds, total, k)
    decreases k
  {
    if j < k {
      GatheredMonotone(rounds, total, j, k - 1);
      var round := RoundAt(rounds, k);
      FillFacts(Gathered(rounds, total, k - 1), round, |round|, total);
    }
  }

  /** The loop over a Picjumbo page's <picture> tags: add offered URLs, counting the new ones, until the set is full. */
  method CollectCapped<T>(round: seq<Option<T>>, urls: set<T>, total: int)
    returns (next: set<T>, newFound: nat)
    requires |urls| < total
    ensures next == Fill(urls, round, |round|, total)
    ensures newFound == |next| - |urls|
  {
    next, newFound := urls, 0;
    var j := 0;
    while j < |round|
      invariant 0 <= j <= |round|
      invariant next == Fill(urls, round, j, total)
      invariant newFound + |urls| == |next| < total
    {
      var src := round[j];
      if src.Some? && src.value !in next {
        next := next + {src.value};
        newFound := newFound + 1;
      }
      assert next == Fill(urls, round, j + 1, total);
      j := j + 1;
      if |next| >= total {
        FillSaturates(urls, round, j, |round|, total);
        break;
      }
    }
  }

  /** The inner loop of Yahoo and of the 30-scroll Wikimedia script: add every offered URL. */
  method CollectAll<T>(round: seq<Option<T>>, urls: set<T>) returns (next: set<T>)
    ensures next == urls + Offered(round)
  {
    next := urls;
    var j := 0;
    while j < |round|
      invariant 0 <= j <= |round|
      invariant next == urls + OfferedBy(round, j)
    {
      var src := round[j];
      if src.Some? {
        next := next + {src.value};
      }
      j := j + 1;
    }
  }

  // =====================================================================
  // Picjumbo: numbered result pages, stop on a page that adds nothing
  // =====================================================================

  /** A <picture> tag: either it has no <img>, or its first <img> with its classes and src. */
  datatype Picture = NoImg | Img(classes: seq<string>, src: string)

  const PicjumboHome := "https://picjumbo.com"

  /** The search listing for a query: lower-cased, spaces turned into dashes. */
  function PicjumboSearchUrl(query: string): string {
    PicjumboHome + "/search/" + ReplaceChar(Lower(query), ' ', '-') + "/"
  }

  /** Page 1 is the listing itself, page n > 1 is `<listing without trailing slashes>/page/n/`. */
  function PageUrl(baseUrl: string, n: nat): string {
    if n == 1 then baseUrl else RStrip(baseUrl, '/') + "/page/" + Decimal(n) + "/"
  }

  /** The result pages a crawl of `n` pages loads, in order: `baseUrl` itself, then `.../page/2/`, `.../page/3/`, and so on. */
  function VisitedPages(baseUrl: string, n: nat): (v: seq<string>)
    ensures |v| == n
  {
    if n == 0 then [] else VisitedPages(baseUrl, n - 1) + [PageUrl(baseUrl, n)]
  }

  /** Page `k + 1` of the crawl is the `k`-th page loaded. */
  lemma {:induction false} VisitedPagesAt(baseUrl: string, n: nat, k: nat)
    requires k < n
    ensures VisitedPages(baseUrl, n)[k] == PageUrl(baseUrl, k + 1)
  {
    if k < n - 1 {
      VisitedPagesAt(baseUrl, n - 1, k);
    }
  }

  /** Protocol-relative srcs get `https:`, site-relative ones the site root, others stay. */
  function NormalizePicjumboSrc(src: string): string {
    if StartsWith(src, "//") then "https:" + src
    else if StartsWith(src, "/") then PicjumboHome + src
    else src
  }

  /** The URL a tag contributes: only an <img> whose class list is exactly ["image"] and whose src is set. */
  function PictureUrl(p: Picture): Option<string> {
    if p.Img? && p.classes == ["image"] && p.src != "" then Some(NormalizePicjumboSrc(p.src)) else None
  }

  /** The URL each tag of each numbered result page contributes, in document order. */
  function PicjumboOffers(pages: seq<seq<Picture>>): seq<seq<Option<string>>> {
    seq(|pages|, k requires 0 <= k < |pages| =>
      seq(|pages[k]|, i requires 0 <= i < |pages[k]| => PictureUrl(pages[k][i])))
  }

  /** Pages after the first are loaded from different URLs, so the crawl never loads a result page twice. */
  lemma PageUrlsDiffer(baseUrl: string, j: nat, k: nat)
    requires 2 <= j < k
    ensures PageUrl(baseUrl, j) != PageUrl(baseUrl, k)
  {
    var front := RStrip(baseUrl, '/') + "/page/";
    if PageUrl(baseUrl, j) == PageUrl(baseUrl, k) {
      assert PageUrl(baseUrl, j) == front + (Decimal(j) + "/");
      assert PageUrl(baseUrl, k) == front + (Decimal(k) + "/");
      CancelPrefix(front, Decimal(j) + "/", Decimal(k) + "/");
      CancelSuffix(Decimal(j), Decimal(k), "/");
      DecimalInjective(j, k);
    }
  }

  /**
   * A normalised src is never site-relative, keeps the src as its tail,
   * gets the `https:` scheme when the src started with a slash, and is
   * left alone by a second normalisation.
   */
  lemma NormalizedSrcShape(src: string)
    ensures !StartsWith(NormalizePicjumboSrc(src), "/")
    ensures EndsWith(NormalizePicjumboSrc(src), src)
    ensures StartsWith(src, "/") ==> StartsWith(NormalizePicjumboSrc(src), "https:")
    ensures NormalizePicjumboSrc(NormalizePicjumboSrc(src)) == NormalizePicjumboSrc(src)
  {
    var n := NormalizePicjumboSrc(src);
    if StartsWith(src, "//") {
      assert n == "https:" + src;
      assert n[..6] == "https:";
      assert n[..1] == [n[0]] == "h";
    } else if StartsWith(src, "/") {
      assert n == "https://picjumbo.com" + src;
      assert n[..6] == "https:";
      assert n[..1] == [n[0]] == "h";
    }
    assert n[|n| - |src|..] == src;
  }

  /**
   * An unset src adds nothing on any of the three sites, and every URL the
   * Wikimedia filter keeps the Yahoo filter keeps as well.
   */
  lemma UnsetSrcIgnored(src: string)
    ensures PictureUrl(Img(["image"], "")) == None
    ensures UploadUrl("") == None && YahooUrl("") == None
    ensures UploadUrl(src).Some? ==> YahooUrl(src) == UploadUrl(src)
  {
  }

  /**
   * The page loop stops after `n` pages: the set is full, or page `n`
   * found no new image (`new_images_found == 0`).
   */
  predicate CrawlHalts<T(==)>(pages: seq<seq<Option<T>>>, total: int, n: nat) {
    |Gathered(pages, total, n)| >= total
    || (n >= 1 && |Gathered(pages, total, n)| == |Gathered(pages, total, n - 1)|)
  }

  /** The page loop did not halt after any of 0, 1, ..., n - 1 pages. */
  predicate CrawlContinues<T(==)>(pages: seq<seq<Option<T>>>, total: int, n: nat) {
    n == 0 || (CrawlContinues(pages, total, n - 1) && !CrawlHalts(pages, total, n - 1))
  }

  /**
   * `while len(image_urls) < total_images`: load page after page until the
   * set is full or a page adds nothing. The loop stops at the first page
   * count at which it halts; it returns the set and the number of pages
   * loaded (page n is loaded from `PageUrl(base_url, n)`).
   */
  method CrawlPages<T(==)>(pages: seq<seq<Option<T>>>, total: int)
    returns (urls: set<T>, loaded: nat)
    ensures urls == Gathered(pages, total, loaded)
    ensures CrawlContinues(pages, total, loaded)
    ensures CrawlHalts(pages, total, loaded)
  {
    urls, loaded := {}, 0;
    var pageNumber := 1;
    while |urls| < total
      invariant pageNumber == loaded + 1
      invariant CrawlAt(pages, total, loaded, urls)
      decreases |pages| + 1 - loaded
    {
      var page := RoundAt(pages, pageNumber);
      var newImagesFound;
      ghost var before := urls;
      urls, newImagesFound := CollectCapped(page, urls, total);
      CrawlStep(pages, total, loaded, before, urls, newImagesFound);
      loaded := loaded + 1;
      if newImagesFound == 0 {
        break;
      }
      pageNumber := pageNumber + 1;
    }
  }

  /** The state at the head of the page loop after `n` pages: the set gathered so far, and no halt yet before page n + 1. */
  ghost predicate CrawlAt<T>(pages: seq<seq<Option<T>>>, total: int, n: nat, urls: set<T>) {
    urls == Gathered(pages, total, n)
    && CrawlContinues(pages, total, n)
    && (n >= 1 ==> |urls| != |Gathered(pages, total, n - 1)|)
  }

  /** One pass of the page loop: the set grows from `Gathered` after n pages to `Gathered` after n + 1. */
  lemma CrawlStep<T>(pages: seq<seq<Option<T>>>, total: int, n: nat, before: set<T>, after: set<T>, newFound: int)
    requires CrawlAt(pages, total, n, before)
    requires |before| < total
    requires after == Fill(before, RoundAt(pages, n + 1), |RoundAt(pages, n + 1)|, total)
    requires newFound == |after| - |before|
    ensures after == Gathered(pages, total, n + 1)
    ensures CrawlContinues(pages, total, n + 1)
    ensures newFound == 0 ==> CrawlHalts(pages, total, n + 1)
    ensures newFound != 0 ==> CrawlAt(pages, total, n + 1, after)
    ensures newFound != 0 ==> n < |pages|
  {
  }

  /** A subset is no larger. */
  lemma SubsetCard<T>(a: set<T>, b: set<T>)
    requires a <= b
    ensures |a| <= |b|
  {
    assert b == a + (b - a);
  }

  lemma {:induction false} CrawlContinuesPrefix<T>(pages: seq<seq<Option<T>>>, total: int, n: nat, k: nat)
    requires CrawlContinues(pages, total, n)
    requires k < n
    ensures CrawlContinues(pages, total, k) && !CrawlHalts(pages, total, k)
    decreases n
  {
    if k < n - 1 {
      CrawlContinuesPrefix(pages, total, n - 1, k);
    }
  }

  /** Each page loaded before the last added a URL: the set holds at least one URL per such page. */
  lemma {:induction false} CrawlGrowth<T>(pages: seq<seq<Option<T>>>, total: int, n: nat)
    requires CrawlContinues(pages, total, n + 1)
    ensures n <= |Gathered(pages, total, n)|
    decreases n
  {
    if n >= 1 {
      CrawlGrowth(pages, total, n - 1);
      var a := Gathered(pages, total, n - 1);
      var b := Gathered(pages, total, n);
      GatheredMonotone(pages, total, n - 1, n);
      SubsetCard(a, b);
    }
  }

  /**
   * No page is loaded when nothing is wanted, and at most `|urls| + 1` pages
   * are loaded in all.
   */
  lemma CrawlPageBound<T>(pages: seq<seq<Option<T>>>, total: int, n: nat)
    requires CrawlContinues(pages, total, n)
    ensures total <= 0 ==> n == 0
    ensures n <= |Gathered(pages, total, n)| + 1
  {
    if n >= 1 {
      CrawlGrowth(pages, total, n - 1);
      GatheredMonotone(pages, total, n - 1, n);
      SubsetCard(Gathered(pages, total, n - 1), Gathered(pages, total, n));
      CrawlContinuesPrefix(pages, total, n, 0);
    }
  }

  /** Each page loaded before the last offered a URL that no earlier page offered. */
  lemma CrawlEachPageNew<T>(pages: seq<seq<Option<T>>>, total: int, n: nat, k: nat)
    requires CrawlContinues(pages, total, n)
    requires 1 <= k < n
    ensures !(Offered(RoundAt(pages, k)) <= OfferedInRounds(pages, k - 1))
  {
    CrawlPageAdded(pages, total, n, k);
    GrowingRoundIsNew(pages, total, k);
  }

  /** A round that grew a set still short of the request offered a URL no earlier round offered. */
  lemma GrowingRoundIsNew<T>(rounds: seq<seq<Option<T>>>, total: int, k: nat)
    requires 1 <= k
    requires |Gathered(rounds, total, k - 1)| < |Gathered(rounds, total, k)| < total
    ensures !(Offered(RoundAt(rounds, k)) <= OfferedInRounds(rounds, k - 1))
  {
    GatheredShort(rounds, total, k);
    GatheredShort(rounds, total, k - 1);
    NewOffer(Gathered(rounds, total, k - 1), Gathered(rounds, total, k), OfferedInRounds(rounds, k - 1), Offered(RoundAt(rounds, k)));
  }

  /** Each page loaded before the last grew the set, which stayed short of the request. */
  lemma CrawlPageAdded<T>(pages: seq<seq<Option<T>>>, total: int, n: nat, k: nat)
    requires CrawlContinues(pages, total, n)
    requires 1 <= k < n
    ensures |Gathered(pages, total, k - 1)| < |Gathered(pages, total, k)| < total
  {
    CrawlContinuesPrefix(pages, total, n, k);
    GatheredMonotone(pages, total, k - 1, k);
    SubsetCard(Gathered(pages, total, k - 1), Gathered(pages, total, k));
  }

  /** A set that grew by a union got something the union added. */
  lemma NewOffer<T>(a: set<T>, b: set<T>, x: set<T>, y: set<T>)
    requires a == x && b == x + y
    requires |a| != |b|
    ensures !(y <= x)
  {
    assert x + y != x;
  }

  /**
   * When the page loop halts short of the request, it holds every URL the
   * loaded pages offered, and the last page offered nothing new.
   */
  lemma CrawlShortfall<T>(pages: seq<seq<Option<T>>>, total: int, n: nat)
    requires CrawlContinues(pages, total, n) && CrawlHalts(pages, total, n)
    requires |Gathered(pages, total, n)| < total
    ensures n >= 1
    ensures Gathered(pages, total, n) == OfferedInRounds(pages, n)
    ensures Offered(RoundAt(pages, n)) <= OfferedInRounds(pages, n - 1)
  {
    GatheredFacts(pages, total, n);
    var a := Gathered(pages, total, n - 1);
    GatheredMonotone(pages, total, n - 1, n);
    SubsetCard(a, Gathered(pages, total, n));
    SameSizeSubset(a, Gathered(pages, total, n));
    GatheredFacts(pages, total, n - 1);
  }

  // =====================================================================
  // Wikimedia, as searched by the cascade: at most 50 scrolls, each round
  // and each thumbnail skipped once the set is full
  // =====================================================================

  const WikimediaMaxScrolls := 50

  /** A thumbnail's src is taken when it is set, starts with `http` and points into upload.wikimedia.org. */
  function UploadUrl(src: string): Option<string> {
    if StartsWith(src, "http") && Contains(src, "upload.wikimedia.org") then Some(src) else None
  }

  /** The URL each thumbnail of each scroll contributes. */
  function WikimediaOffers(rounds: seq<seq<string>>): seq<seq<Option<string>>> {
    seq(|rounds|, k requires 0 <= k < |rounds| =>
      seq(|rounds[k]|, i requires 0 <= i < |rounds[k]| => UploadUrl(rounds[k][i])))
  }

  /** The thumbnail loop: stop collecting as soon as the set is full, checking before each thumbnail. */
  method CollectUntilFull<T>(round: seq<Option<T>>, urls: set<T>, total: int) returns (next: set<T>)
    ensures next == Fill(urls, round, |round|, total)
  {
    next := urls;
    var j := 0;
    while j < |round|
      invariant 0 <= j <= |round|
      invariant next == Fill(urls, round, j, total)
    {
      if |next| >= total {
        FillSaturates(urls, round, j, |round|, total);
        break;
      }
      next := next + Elements(round[j]);
      j := j + 1;
    }
  }

  /**
   * `for _ in range(max_scrolls)`, checking first whether the set is full:
   * every scroll made was made while the set was short, and the loop stops
   * early only when the set is full.
   */
  method ScrollCapped<T>(rounds: seq<seq<Option<T>>>, total: int) returns (urls: set<T>, scrolls: nat)
    ensures scrolls <= WikimediaMaxScrolls
    ensures urls == Gathered(rounds, total, scrolls)
    ensures scrolls < WikimediaMaxScrolls ==> |urls| >= total
    ensures forall k :: 0 <= k < scrolls ==> |Gathered(rounds, total, k)| < total
  {
    urls, scrolls := {}, 0;
    while scrolls < WikimediaMaxScrolls
      invariant scrolls <= WikimediaMaxScrolls
      invariant urls == Gathered(rounds, total, scrolls)
      invariant forall k :: 0 <= k < scrolls ==> |Gathered(rounds, total, k)| < total
    {
      if |urls| >= total {
        break;
      }
      urls := CollectUntilFull(RoundAt(rounds, scrolls + 1), urls, total);
      scrolls := scrolls + 1;
    }
  }

  // =====================================================================
  // Wikimedia, as searched by the standalone script: at most 30 scrolls,
  // everything offered is taken, the check comes after each scroll
  // =====================================================================

  const WikimediaScriptMaxScrolls := 30

  /**
   * `for _ in range(max_scrolls)` with the check last: at least one scroll
   * is always made, every scroll but the last left the set short, and the
   * loop stops early only when the set is full.
   */
  method ScrollUncapped<T>(rounds: seq<seq<Option<T>>>, total: int) returns (urls: set<T>, scrolls: nat)
    ensures 1 <= scrolls <= WikimediaScriptMaxScrolls
    ensures urls == OfferedInRounds(rounds, scrolls)
    ensures scrolls < WikimediaScriptMaxScrolls ==> |urls| >= total
    ensures forall k :: 1 <= k < scrolls ==> |OfferedInRounds(rounds, k)| < total
  {
    urls, scrolls := {}, 0;
    while scrolls < WikimediaScriptMaxScrolls
      invariant scrolls <= WikimediaScriptMaxScrolls
      invariant urls == OfferedInRounds(rounds, scrolls)
      invariant forall k :: 1 <= k <= scrolls ==> |OfferedInRounds(rounds, k)| < total
    {
      urls := CollectAll(RoundAt(rounds, scrolls + 1), urls);
      assert urls == OfferedInRounds(rounds, scrolls + 1);
      scrolls := scrolls + 1;
      if |urls| >= total {
        break;
      }
    }
  }

  // =====================================================================
  // Yahoo: scroll until the set is full or the page stops growing three
  // times in a row
  // =====================================================================

  const YahooRetryLimit := 3

  /** A thumbnail's src is taken when it is set and starts with `http`. */
  function YahooUrl(src: string): Option<string> {
    if StartsWith(src, "http") then Some(src) else None
  }

  /** The URL each thumbnail of each scroll contributes. */
  function YahooOffers(rounds: seq<seq<string>>): seq<seq<Option<string>>> {
    seq(|rounds|, k requires 0 <= k < |rounds| =>
      seq(|rounds[k]|, i requires 0 <= i < |rounds[k]| => YahooUrl(rounds[k][i])))
  }

  /**
   * The page height after `n` scrolls: `start` before any, `heights[n - 1]`
   * after the n-th; past the end of the input the page has stopped growing.
   */
  function HeightAfter(start: int, heights: seq<int>, n: nat): int {
    if n == 0 then start
    else if n <= |heights| then heights[n - 1]
    else HeightAfter(start, heights, |heights|)
  }

  /** `retry_count` after `n` scrolls: how many scrolls in a row, up to the n-th, left the height unchanged. */
  function Stagnation(start: int, heights: seq<int>, n: nat): nat {
    if n == 0 then 0
    else if HeightAfter(start, heights, n) == HeightAfter(start, heights, n - 1) then Stagnation(start, heights, n - 1) + 1
    else 0
  }

  /** The loop condition held before each of the first `n` scrolls. */
  ghost predicate YahooContinues<T>(rounds: seq<seq<Option<T>>>, startHeight: int, heights: seq<int>, total: int, n: nat) {
    if n == 0 then true
    else
      YahooContinues(rounds, startHeight, heights, total, n - 1)
      && |OfferedInRounds(rounds, n - 1)| < total
      && Stagnation(startHeight, heights, n - 1) < YahooRetryLimit
  }

  /**
   * `while len(image_urls) < total and retry_count < retry_limit`: the loop
   * ends with the set full or three unchanged heights in a row, the
   * condition held before every scroll made, and the set is everything
   * offered. Past the end of the input every scroll counts as unchanged,
   * so at most three scrolls are made beyond it.
   */
  method ScrollYahoo<T>(rounds: seq<seq<Option<T>>>, startHeight: int, heights: seq<int>, total: int)
    returns (urls: set<T>, scrolls: nat, retries: nat)
    ensures urls == OfferedInRounds(rounds, scrolls)
    ensures retries == Stagnation(startHeight, heights, scrolls)
    ensures |urls| >= total || retries >= YahooRetryLimit
    ensures YahooContinues(rounds, startHeight, heights, total, scrolls)
    ensures scrolls <= |heights| + YahooRetryLimit
  {
    urls, scrolls, retries := {}, 0, 0;
    var lastHeight := startHeight;
    while |urls| < total && retries < YahooRetryLimit
      invariant urls == OfferedInRounds(rounds, scrolls)
      invariant lastHeight == HeightAfter(startHeight, heights, scrolls)
      invariant retries == Stagnation(startHeight, heights, scrolls)
      invariant YahooContinues(rounds, startHeight, heights, total, scrolls)
      invariant scrolls <= |heights| + retries
      decreases |heights| + YahooRetryLimit - scrolls
    {
      assert YahooContinues(rounds, startHeight, heights, total, scrolls + 1);
      var round := RoundAt(rounds, scrolls + 1);
      urls := CollectAll(round, urls);
      assert urls == OfferedInRounds(rounds, scrolls + 1);
      var newHeight := if scrolls < |heights| then heights[scrolls] else lastHeight;
      YahooHeightStep(startHeight, heights, scrolls, lastHeight, newHeight);
      if newHeight == lastHeight {
        retries := retries + 1;
      } else {
        retries := 0;
      }
      lastHeight := newHeight;
      scrolls := scrolls + 1;
    }
  }

  /** One scroll reads the next height, and `retry_count` grows on an unchanged height and resets otherwise. */
  lemma YahooHeightStep(start: int, heights: seq<int>, n: nat, lastHeight: int, newHeight: int)
    requires lastHeight == HeightAfter(start, heights, n)
    requires newHeight == if n < |heights| then heights[n] else lastHeight
    ensures newHeight == HeightAfter(start, heights, n + 1)
    ensures Stagnation(start, heights, n + 1) == if newHeight == lastHeight then Stagnation(start, heights, n) + 1 else 0
  {
  }
}
