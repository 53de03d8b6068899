/**
 * What both processors do with one folder listing: keep the image names,
 * and for each readable image copy the original next to the step files and
 * run the step chain on it.
 */
module Batch {
  import opened Wrappers
  import opened Strings
  import opened Imaging
  import opened Pipeline

  /** `f.lower().endswith(('.jpg', '.jpeg', '.png'))`. */
  predicate IsImageName(f: string) {
    var l := Lower(f);
    EndsWith(l, ".jpg") || EndsWith(l, ".jpeg") || EndsWith(l, ".png")
  }

  /** The list comprehension over `os.listdir`: the image names, in listing order. */
  function ImageFiles(listing: seq<string>): (files: seq<string>)
    ensures |files| <= |listing|
    ensures forall f :: f in files <==> f in listing && IsImageName(f)
  {
    if listing == [] then []
    else (if IsImageName(listing[0]) then [listing[0]] else []) + ImageFiles(listing[1..])
  }

  /** Listing two parts one after the other lists their image names one after the other: the filter keeps order and repeats. */
  lemma {:induction false} ImageFilesAppend(a: seq<string>, b: seq<string>)
    ensures ImageFiles(a + b) == ImageFiles(a) + ImageFiles(b)
  {
    if a == [] {
      assert a + b == b;
    } else {
      assert (a + b)[0] == a[0];
      assert (a + b)[1..] == a[1..] + b;
      ImageFilesAppend(a[1..], b);
    }
  }

  /** `shutil.copy(source, dest)`. */
  datatype Copy = Copy(source: string, dest: string)

  /** What one listed image leaves behind: nothing when `cv2.imread` fails, else its copied original and the chain's files. */
  datatype FileOutcome =
    | Unreadable(file: string)
    | Processed(file: string, original: Copy, written: seq<Artifact>, failure: Option<Failure>)

  /** `os.path.splitext(img_file)[0]`. */
  function Stem(imgFile: string): string {
    SplitExt(imgFile).0
  }

  /** `<stem>_original.jpg` in the output folder. */
  function OriginalPath(outputFolder: string, imgFile: string): string {
    PathJoin(outputFolder, Stem(imgFile) + "_original.jpg")
  }

  /**
   * The outcome for `imgFile`: an unreadable file produces nothing; a
   * readable one is copied to `<stem>_original.jpg` whatever the steps, and
   * the chain then runs on the decoded file and writes its files beside it.
   */
  predicate ProcessedAs(variant: Variant, imgFile: string, inputFolder: string, outputFolder: string,
                        selected: seq<string>, params: map<string, Value>, readable: string -> bool, outcome: FileOutcome) {
    var imgPath := PathJoin(inputFolder, imgFile);
    if !readable(imgPath) then outcome == Unreadable(imgFile)
    else
      outcome.Processed?
      && outcome.file == imgFile
      && outcome.original == Copy(imgPath, OriginalPath(outputFolder, imgFile))
      && ChainOutcome(variant, KnownNames(variant, selected), params, Decoded(imgPath), Stem(imgFile), outputFolder,
                      outcome.written, outcome.failure)
  }

  /**
   * newProcessor.py's `process_single_image`, and the body of processor.py's
   * loop over the image files; `readable` says which paths `cv2.imread` can
   * decode.
   */
  method ProcessImage(variant: Variant, imgFile: string, inputFolder: string, outputFolder: string,
                      selected: seq<string>, params: map<string, Value>, readable: string -> bool)
    returns (outcome: FileOutcome)
    ensures ProcessedAs(variant, imgFile, inputFolder, outputFolder, selected, params, readable, outcome)
  {
    var imgPath := PathJoin(inputFolder, imgFile);
    if !readable(imgPath) {
      return Unreadable(imgFile);
    }
    var stem := Stem(imgFile);
    var original := Copy(imgPath, PathJoin(outputFolder, stem + "_original.jpg"));
    var written, failure := RunSteps(variant, selected, params, Decoded(imgPath), stem, outputFolder);
    outcome := Processed(imgFile, original, written, failure);
  }

  /** A readable image is copied even when no selected id is known, and then nothing else is written. */
  lemma OriginalAlwaysCopied(variant: Variant, imgFile: string, inputFolder: string, outputFolder: string,
                             selected: seq<string>, params: map<string, Value>, readable: string -> bool, outcome: FileOutcome)
    requires ProcessedAs(variant, imgFile, inputFolder, outputFolder, selected, params, readable, outcome)
    requires readable(PathJoin(inputFolder, imgFile))
    requires KnownNames(variant, selected) == []
    ensures outcome == Processed(imgFile, Copy(PathJoin(inputFolder, imgFile), OriginalPath(outputFolder, imgFile)), [], None)
  {
  }

  /**
   * Names are told apart by their stem only: `a.jpg` and `a.png` are
   * different files copied to the same `a_original.jpg`, so whichever is
   * processed later overwrites the other's copy.
   */
  lemma SameStemCollides(outputFolder: string)
    ensures "a.jpg" != "a.png"
    ensures Stem("a.jpg") == Stem("a.png") == "a"
    ensures OriginalPath(outputFolder, "a.jpg") == OriginalPath(outputFolder, "a.png")
  {
    assert "a" + ".jpg" == "a.jpg";
    assert "a" + ".png" == "a.png";
    StemOfSimpleName("a", ".jpg");
    StemOfSimpleName("a", ".png");
  }

  /** A name without dots or slashes followed by a dot and an extension without either has that name as its stem. */
  lemma StemOfSimpleName(name: string, ext: string)
    requires |name| > 0 && |ext| > 0 && ext[0] == '.'
    requires forall k :: 0 <= k < |name| ==> name[k] != '.' && name[k] != '/'
    requires forall k :: 0 < k < |ext| ==> ext[k] != '.' && ext[k] != '/'
    ensures Stem(name + ext) == name
  {
    var p := name + ext;
    assert forall k :: 0 <= k < |p| ==> p[k] != '/';
    assert LastIndexOf(p, '/') == -1;
    assert p[|name|] == '.';
    assert LastIndexOf(p, '.') == |name|;
    assert p[0] != '.';
    assert p[..|name|] == name;
  }
}
