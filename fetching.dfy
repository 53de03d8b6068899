/**
 * What the scrapers see of the network and of Python's unordered sets:
 * the reply `requests.get` gives for a URL, the file a download writes,
 * and `list(image_urls)[:n]`.
 */
module Fetching {
  import opened Wrappers

  type Bytes = seq<bv8>

  /** What `requests.get(url, ...)` produced: it raised, or a reply came back. */
  datatype Reply = Raised | Response(status: int, body: Bytes)

  /** A file written to disk: its path and its bytes. */
  datatype SavedFile = SavedFile(path: string, body: Bytes)

  /** One attempted download: the URL, the number it was given and the file written, if any. */
  datatype Attempt = Attempt(url: string, num: int, file: Option<SavedFile>)

  function Min(a: int, b: int): int {
    if a <= b then a else b
  }

  function Max(a: int, b: int): int {
    if a >= b then a else b
  }

  /** The length of Python's `xs[:n]` for a list of length `len`. */
  function SliceLength(len: nat, n: int): nat {
    if n >= 0 then Min(n, len) else Max(len + n, 0)
  }

  /** The elements of a list are pairwise different. */
  predicate Distinct(xs: seq<string>) {
    forall i, j :: 0 <= i < j < |xs| ==> xs[i] != xs[j]
  }

  /**
   * `list(urls)[:n]`: Python lists a set in hash order, which the model does
   * not fix, so any `SliceLength(|urls|, n)` distinct members may come out;
   * a slice as long as the set lists all of it.
   */
  method ListPrefix(urls: set<string>, n: int) returns (chosen: seq<string>)
    ensures |chosen| == SliceLength(|urls|, n)
    ensures forall i :: 0 <= i < |chosen| ==> chosen[i] in urls
    ensures Distinct(chosen)
    ensures SliceLength(|urls|, n) == |urls| ==> forall u :: u in urls ==> u in chosen
  {
    var want := SliceLength(|urls|, n);
    var rest := urls;
    chosen := [];
    while |chosen| < want
      invariant |chosen| <= want <= |urls|
      invariant rest <= urls
      invariant |rest| + |chosen| == |urls|
      invariant forall i :: 0 <= i < |chosen| ==> chosen[i] in urls && chosen[i] !in rest
      invariant Distinct(chosen)
      invariant forall u :: u in urls ==> u in rest || u in chosen
    {
      var u :| u in rest;
      rest := rest - {u};
      chosen := chosen + [u];
    }
    if want == |urls| {
      assert rest == {};
    }
  }
}
