/**
 * wikimedia.py, the standalone Wikimedia downloader: up to 30 scrolls of
 * the media search, each adding every upload.wikimedia.org thumbnail, the
 * target checked only after a whole scroll; then download.
 */
module WikimediaScript {
  import opened Strings
  import opened Fetching
  import opened Discovery
  import opened ScriptDownload

  /**
   * The whole script for one query and request: at least one and at most
   * 30 scrolls, the set is everything they offered, every scroll but the
   * last left it short, and `min(num_images, len(image_urls))` URLs of the
   * set were fetched, numbered from 1. The set may exceed the request, but
   * no more than the request is fetched.
   */
  method Run(query: string, numImages: int, rounds: seq<seq<string>>, net: string -> Reply)
    returns (folder: string, urls: set<string>, scrolls: nat, count: int, chosen: seq<string>, attempts: seq<Attempt>)
    ensures folder == OutputDir(query)
    ensures 1 <= scrolls <= WikimediaScriptMaxScrolls
    ensures urls == OfferedInRounds(WikimediaOffers(rounds), scrolls)
    ensures scrolls < WikimediaScriptMaxScrolls ==> |urls| >= numImages
    ensures forall k :: 1 <= k < scrolls ==> |OfferedInRounds(WikimediaOffers(rounds), k)| < numImages
    ensures count == Min(numImages, |urls|)
    ensures numImages >= 0 ==> |chosen| <= numImages
    ensures |chosen| == SliceLength(|urls|, count)
    ensures forall i :: 0 <= i < |chosen| ==> chosen[i] in urls
    ensures Distinct(chosen)
    ensures SavedInOrder(attempts, chosen, query, net)
  {
    folder := OutputDir(query);
    urls, scrolls := ScrollUncapped(WikimediaOffers(rounds), numImages);
    count, chosen, attempts := DownloadCollected(urls, numImages, query, net);
  }
}
