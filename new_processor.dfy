/**
 * newProcessor.py's `coreProcessor`, run by the server on the scraped
 * folder: every image name of the listing is processed with the server's
 * step chain into the fixed folder `./processedimg`. The thread pool is
 * modelled as a loop over the files in listing order; since the futures'
 * results are never read, a step that raises on one image ends that
 * image's chain and nothing else.
 */
module NewProcessor {
  import opened Imaging
  import opened Pipeline
  import opened Batch

  const OutputFolder := "./processedimg"

  /** Every image of the listing has the outcome the server's chain gives it, whatever happened to the others. */
  method CoreProcessor(inputFolder: string, listing: seq<string>, selected: seq<string>, params: map<string, Value>,
                       readable: string -> bool)
    returns (outputFolder: string, outcomes: seq<FileOutcome>)
    ensures outputFolder == OutputFolder
    ensures |outcomes| == |ImageFiles(listing)|
    ensures forall i :: 0 <= i < |outcomes| ==>
      ProcessedAs(Server, ImageFiles(listing)[i], inputFolder, outputFolder, selected, params, readable, outcomes[i])
  {
    outputFolder := OutputFolder;
    var imageFiles := ImageFiles(listing);
    outcomes := [];
    for i := 0 to |imageFiles|
      invariant |outcomes| == i
      invariant forall k :: 0 <= k < i ==>
        ProcessedAs(Server, imageFiles[k], inputFolder, outputFolder, selected, params, readable, outcomes[k])
    {
      var outcome := ProcessImage(Server, imageFiles[i], inputFolder, outputFolder, selected, params, readable);
      outcomes := outcomes + [outcome];
    }
  }
}
