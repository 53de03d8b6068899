/**
 * The download half shared word for word by the standalone yahoo.py and
 * wikimedia.py scripts: `min(num_images, len(image_urls))` URLs of the
 * collected set are fetched, and the i-th is saved as
 * `<query>_<i + 1>.jpg` in `images_<query>`, spaces in the query turned
 * into underscores. Unlike the cascade, the reply body is written whatever
 * the status code.
 */
module ScriptDownload {
  import opened Wrappers
  import opened Strings
  import opened Fetching

  function Underscored(query: string): string {
    ReplaceChar(query, ' ', '_')
  }

  /** `output_dir`: `images_<query with spaces as underscores>`. */
  function OutputDir(query: string): string {
    "images_" + Underscored(query)
  }

  /** `f"{query.replace(' ', '_')}_{n}.jpg"`. */
  function ScriptFileName(query: string, n: int): string {
    Underscored(query) + "_" + IntToString(n) + ".jpg"
  }

  /**
   * One iteration of the download loop: a request that raised writes
   * nothing, any reply that came back is written, status ignored, body
   * unchanged, under its number's name.
   */
  function SaveReply(url: string, query: string, n: int, net: string -> Reply): (r: Option<SavedFile>)
    ensures r.Some? <==> net(url).Response?
    ensures r.Some? ==> r.value.body == net(url).body
    ensures r.Some? ==> r.value.path == PathJoin(OutputDir(query), ScriptFileName(query, n))
  {
    match net(url)
    case Raised => None
    case Response(_, body) => Some(SavedFile(PathJoin(OutputDir(query), ScriptFileName(query, n)), body))
  }

  /** The i-th chosen URL was fetched as number i + 1, for every chosen URL. */
  predicate SavedInOrder(attempts: seq<Attempt>, chosen: seq<string>, query: string, net: string -> Reply) {
    |attempts| == |chosen|
    && forall i :: 0 <= i < |chosen| ==>
      attempts[i] == Attempt(chosen[i], i + 1, SaveReply(chosen[i], query, i + 1, net))
  }

  /** `for i, url in enumerate(chosen)`: a failed request is logged and the loop goes on. */
  method SaveAll(chosen: seq<string>, query: string, net: string -> Reply) returns (attempts: seq<Attempt>)
    ensures SavedInOrder(attempts, chosen, query, net)
  {
    attempts := [];
    var i := 0;
    while i < |chosen|
      invariant 0 <= i <= |chosen|
      invariant |attempts| == i
      invariant forall k :: 0 <= k < i ==>
        attempts[k] == Attempt(chosen[k], k + 1, SaveReply(chosen[k], query, k + 1, net))
    {
      var url := chosen[i];
      attempts := attempts + [Attempt(url, i + 1, SaveReply(url, query, i + 1, net))];
      i := i + 1;
    }
  }

  /**
   * `download_count = min(num_images, len(image_urls))`, then the loop over
   * `list(image_urls)[:download_count]`; a negative count drops that many
   * URLs from the end of the list instead.
   */
  method DownloadCollected(urls: set<string>, numImages: int, query: string, net: string -> Reply)
    returns (count: int, chosen: seq<string>, attempts: seq<Attempt>)
    ensures count == Min(numImages, |urls|)
    ensures |chosen| == SliceLength(|urls|, count)
    ensures forall i :: 0 <= i < |chosen| ==> chosen[i] in urls
    ensures Distinct(chosen)
    ensures SavedInOrder(attempts, chosen, query, net)
  {
    count := Min(numImages, |urls|);
    chosen := ListPrefix(urls, count);
    attempts := SaveAll(chosen, query, net);
  }

  /** Different numbers give different paths. */
  lemma ScriptPathsDiffer(query: string, a: int, b: int)
    requires a != b
    ensures PathJoin(OutputDir(query), ScriptFileName(query, a)) != PathJoin(OutputDir(query), ScriptFileName(query, b))
  {
    var prefix := Underscored(query) + "_";
    var x, y := ScriptFileName(query, a), ScriptFileName(query, b);
    if PathJoin(OutputDir(query), x) == PathJoin(OutputDir(query), y) {
      assert x[0] == prefix[0] && y[0] == prefix[0];
      PathJoinInjective(OutputDir(query), x, y);
      NumberedNameInjective(prefix, a, b, ".jpg");
    }
  }

  /** No two files of one run overwrite each other. */
  lemma SavedPathsDistinct(attempts: seq<Attempt>, chosen: seq<string>, query: string, net: string -> Reply, i: int, j: int)
    requires SavedInOrder(attempts, chosen, query, net)
    requires 0 <= i < j < |attempts|
    requires attempts[i].file.Some? && attempts[j].file.Some?
    ensures attempts[i].file.value.path != attempts[j].file.value.path
  {
    ScriptPathsDiffer(query, i + 1, j + 1);
  }
}
