/**
 * yahoo.py, the standalone Yahoo downloader: scroll the result page until
 * enough URLs are collected or the page height stops changing three times
 * in a row, then download.
 */
module YahooScript {
  import opened Strings
  import opened Fetching
  import opened Discovery
  import opened ScriptDownload

  /**
   * The whole script for one query and request: the collected set is
   * everything the scrolls made offered, the loop stopped for one of its
   * two reasons, and `min(num_images, len(image_urls))` URLs of the set
   * were fetched, numbered from 1. Nothing is collected when nothing is
   * asked for.
   */
  method Run(query: string, numImages: int, rounds: seq<seq<string>>, startHeight: int, heights: seq<int>, net: string -> Reply)
    returns (folder: string, urls: set<string>, scrolls: nat, retries: nat, count: int, chosen: seq<string>, attempts: seq<Attempt>)
    ensures folder == OutputDir(query)
    ensures urls == OfferedInRounds(YahooOffers(rounds), scrolls)
    ensures retries == Stagnation(startHeight, heights, scrolls)
    ensures |urls| >= numImages || retries >= YahooRetryLimit
    ensures YahooContinues(YahooOffers(rounds), startHeight, heights, numImages, scrolls)
    ensures scrolls <= |heights| + YahooRetryLimit
    ensures numImages <= 0 ==> scrolls == 0 && urls == {}
    ensures count == Min(numImages, |urls|)
    ensures |chosen| == SliceLength(|urls|, count)
    ensures forall i :: 0 <= i < |chosen| ==> chosen[i] in urls
    ensures Distinct(chosen)
    ensures SavedInOrder(attempts, chosen, query, net)
  {
    folder := OutputDir(query);
    urls, scrolls, retries := ScrollYahoo(YahooOffers(rounds), startHeight, heights, numImages);
    count, chosen, attempts := DownloadCollected(urls, numImages, query, net);
  }
}
