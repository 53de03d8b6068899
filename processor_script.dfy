/**
 * processor.py, the interactive processor: the folders and the step ids
 * are read from prompts, `params` is filled by one `if` block per step id,
 * and every image of the input folder runs through the script's step
 * chain. An unreadable image is skipped; a step that raises is not caught,
 * so it ends the whole script.
 */
module ProcessorScript {
  import opened Wrappers
  import opened Strings
  import opened Imaging
  import opened Pipeline
  import opened Batch

  /** `input(...).strip().split(",")`: the ids between the commas, each keeping its own white space. */
  function SelectedSteps(raw: string): (ids: seq<string>)
    ensures |ids| >= 1
    ensures forall i :: 0 <= i < |ids| ==> ',' !in ids[i]
    ensures Join(ids, ",") == Strip(raw)
  {
    SplitJoin(Strip(raw), ',');
    Split(Strip(raw), ',')
  }

  /** The answers to the parameter prompts, already parsed by `int(...)` or `float(...)`. */
  datatype Answers = Answers(width: int, height: int, colorChoice: string, kernel: int, angle: int,
                             brightness: real, contrast: real, saturation: real, flip: int)

  /** Grey for colour option "1", HSV for any other answer. */
  function ColorCode(choice: string): (code: int)
    ensures code == ColorBgr2Gray <==> choice == "1"
    ensures code == ColorBgr2Gray || code == ColorBgr2Hsv
  {
    if choice == "1" then ColorBgr2Gray else ColorBgr2Hsv
  }

  /** The kernel size made odd: the answer itself when odd, one more when even. */
  function OddKernel(k: int): (r: int)
    ensures r % 2 == 1
    ensures r == k || r == k + 1
    ensures k % 2 == 1 ==> r == k
  {
    if k % 2 == 0 then k + 1 else k
  }

  /** `params[name]` is stored exactly when `id` was typed as it is, and then holds `v`. */
  predicate Stored(selected: seq<string>, id: string, params: map<string, Value>, name: string, v: Value) {
    (name in params <==> id in selected) && (id in selected ==> params[name] == v)
  }

  /**
   * The parameters the `if` blocks store: each name exactly when its id was
   * typed as it is, the size as the pair (width, height), the colour code
   * of the chosen option and the kernel size made odd; no other name.
   */
  predicate ParamsFor(selected: seq<string>, a: Answers, params: map<string, Value>) {
    && Stored(selected, "1", params, "resize", Items([Int(a.width), Int(a.height)]))
    && Stored(selected, "2", params, "colorconvert", Int(ColorCode(a.colorChoice)))
    && Stored(selected, "3", params, "gaussianblur", Int(OddKernel(a.kernel)))
    && Stored(selected, "4", params, "rotate", Int(a.angle))
    && Stored(selected, "5", params, "brightness", Real(a.brightness))
    && Stored(selected, "6", params, "contrast", Real(a.contrast))
    && Stored(selected, "7", params, "saturation", Real(a.saturation))
    && Stored(selected, "8", params, "flip", Int(a.flip))
    && params.Keys <= Transforms
  }

  /** One `if "<id>" in selected_steps: params[name] = ...` block. */
  function Add(params: map<string, Value>, selected: seq<string>, id: string, name: string, v: Value): map<string, Value> {
    if id in selected then params[name := v] else params
  }

  /** The dictionary the eight blocks build, one after the other. */
  function Prepared(selected: seq<string>, a: Answers): map<string, Value> {
    var p1 := Add(map[], selected, "1", "resize", Items([Int(a.width), Int(a.height)]));
    var p2 := Add(p1, selected, "2", "colorconvert", Int(ColorCode(a.colorChoice)));
    var p3 := Add(p2, selected, "3", "gaussianblur", Int(OddKernel(a.kernel)));
    var p4 := Add(p3, selected, "4", "rotate", Int(a.angle));
    var p5 := Add(p4, selected, "5", "brightness", Real(a.brightness));
    var p6 := Add(p5, selected, "6", "contrast", Real(a.contrast));
    var p7 := Add(p6, selected, "7", "saturation", Real(a.saturation));
    Add(p7, selected, "8", "flip", Int(a.flip))
  }

  /** The blocks store what `ParamsFor` describes. */
  lemma PreparedParams(selected: seq<string>, a: Answers)
    ensures ParamsFor(selected, a, Prepared(selected, a))
  {
    PreparedSizeAndColour(selected, a);
    PreparedAdjustments(selected, a);
  }

  /** What the first four blocks store, and that the later ones leave it alone. */
  lemma PreparedSizeAndColour(selected: seq<string>, a: Answers)
    ensures Stored(selected, "1", Prepared(selected, a), "resize", Items([Int(a.width), Int(a.height)]))
    ensures Stored(selected, "2", Prepared(selected, a), "colorconvert", Int(ColorCode(a.colorChoice)))
    ensures Stored(selected, "3", Prepared(selected, a), "gaussianblur", Int(OddKernel(a.kernel)))
    ensures Stored(selected, "4", Prepared(selected, a), "rotate", Int(a.angle))
  {
  }

  /** What the last four blocks store, and that no block stores any other name. */
  lemma PreparedAdjustments(selected: seq<string>, a: Answers)
    ensures Stored(selected, "5", Prepared(selected, a), "brightness", Real(a.brightness))
    ensures Stored(selected, "6", Prepared(selected, a), "contrast", Real(a.contrast))
    ensures Stored(selected, "7", Prepared(selected, a), "saturation", Real(a.saturation))
    ensures Stored(selected, "8", Prepared(selected, a), "flip", Int(a.flip))
    ensures Prepared(selected, a).Keys <= Transforms
  {
  }

  /**
   * The `if "<id>" in selected_steps` blocks, in order, each an `Add`. The
   * answers are given up front, so the colour code and the kernel size are
   * worked out whether or not their block stores them. The kernel test is
   * Python's `kernel_size % 2 == 0`, which agrees with Dafny's `%` for the
   * divisor 2.
   */
  method PrepareParams(selected: seq<string>, a: Answers) returns (params: map<string, Value>)
    ensures ParamsFor(selected, a, params)
  {
    params := map[];
    params := Add(params, selected, "1", "resize", Items([Int(a.width), Int(a.height)]));
    var colorCode := if a.colorChoice == "1" then ColorBgr2Gray else ColorBgr2Hsv;
    params := Add(params, selected, "2", "colorconvert", Int(colorCode));
    var kernelSize := a.kernel;
    if kernelSize % 2 == 0 {
      kernelSize := kernelSize + 1;
    }
    params := Add(params, selected, "3", "gaussianblur", Int(kernelSize));
    params := Add(params, selected, "4", "rotate", Int(a.angle));
    params := Add(params, selected, "5", "brightness", Real(a.brightness));
    params := Add(params, selected, "6", "contrast", Real(a.contrast));
    params := Add(params, selected, "7", "saturation", Real(a.saturation));
    params := Add(params, selected, "8", "flip", Int(a.flip));
    assert kernelSize == OddKernel(a.kernel);
    assert params == Prepared(selected, a);
    PreparedParams(selected, a);
  }

  /** An image whose chain raised. */
  predicate Failed(o: FileOutcome) {
    o.Processed? && o.failure.Some?
  }

  /**
   * The images are processed in order until one raises: every image before
   * it has its outcome and none of them raised, that one is the last, and
   * its failure is the script's; with no failure every image is processed.
   */
  predicate ScriptOutcome(inputFolder: string, outputFolder: string, files: seq<string>, selected: seq<string>,
                          params: map<string, Value>, readable: string -> bool, outcomes: seq<FileOutcome>, failure: Option<Failure>) {
    && |outcomes| <= |files|
    && (forall i :: 0 <= i < |outcomes| ==>
          ProcessedAs(Script, files[i], inputFolder, outputFolder, selected, params, readable, outcomes[i]))
    && (failure.None? ==> |outcomes| == |files| && forall i :: 0 <= i < |outcomes| ==> !Failed(outcomes[i]))
    && (failure.Some? ==>
          && |outcomes| > 0
          && Failed(outcomes[|outcomes| - 1])
          && outcomes[|outcomes| - 1].failure == failure
          && forall i :: 0 <= i < |outcomes| - 1 ==> !Failed(outcomes[i]))
  }

  /** The `for img_file in tqdm(image_files)` loop, left by the first exception a step raises. */
  method ProcessFiles(inputFolder: string, outputFolder: string, files: seq<string>, selected: seq<string>,
                      params: map<string, Value>, readable: string -> bool)
    returns (outcomes: seq<FileOutcome>, failure: Option<Failure>)
    ensures ScriptOutcome(inputFolder, outputFolder, files, selected, params, readable, outcomes, failure)
  {
    outcomes, failure := [], None;
    for i := 0 to |files|
      invariant |outcomes| == i
      invariant forall k :: 0 <= k < i ==>
        ProcessedAs(Script, files[k], inputFolder, outputFolder, selected, params, readable, outcomes[k])
      invariant forall k :: 0 <= k < i ==> !Failed(outcomes[k])
    {
      var outcome := ProcessImage(Script, files[i], inputFolder, outputFolder, selected, params, readable);
      outcomes := outcomes + [outcome];
      if outcome.Processed? && outcome.failure.Some? {
        failure := outcome.failure;
        return;
      }
    }
  }

  /**
   * The whole script: the two folder prompts are stripped, the step ids are
   * split at the commas, the parameters are prepared, and the images of
   * `listing` (what `os.listdir(input_folder)` returns) are processed.
   */
  method Run(rawInputFolder: string, rawOutputFolder: string, rawSteps: string, answers: Answers,
             listing: seq<string>, readable: string -> bool)
    returns (inputFolder: string, outputFolder: string, selected: seq<string>, params: map<string, Value>,
             outcomes: seq<FileOutcome>, failure: Option<Failure>)
    ensures inputFolder == Strip(rawInputFolder) && outputFolder == Strip(rawOutputFolder)
    ensures selected == SelectedSteps(rawSteps)
    ensures ParamsFor(selected, answers, params)
    ensures ScriptOutcome(inputFolder, outputFolder, ImageFiles(listing), selected, params, readable, outcomes, failure)
  {
    inputFolder := Strip(rawInputFolder);
    outputFolder := Strip(rawOutputFolder);
    selected := SelectedSteps(rawSteps);
    params := PrepareParams(selected, answers);
    outcomes, failure := ProcessFiles(inputFolder, outputFolder, ImageFiles(listing), selected, params, readable);
  }

  // ---------------------------------------------------------------------
  // Properties of the script
  // ---------------------------------------------------------------------

  /** The resize step gets the width first and the height second. */
  lemma ResizeTakesWidthThenHeight(selected: seq<string>, a: Answers, params: map<string, Value>, img: Image)
    requires ParamsFor(selected, a, params)
    requires "1" in selected
    ensures Dispatch(Script, "resize", params, img) == Ok(ResizeImage(img, Int(a.width), Int(a.height)))
  {
  }

  /** Ids typed without surrounding white space never make a step raise. */
  lemma CleanIdsNeverRaise(selected: seq<string>, a: Answers, params: map<string, Value>, img: Image)
    requires forall i :: 0 <= i < |selected| ==> Strip(selected[i]) == selected[i]
    requires ParamsFor(selected, a, params)
    ensures Cumulative(Script, KnownNames(Script, selected), params, img).Ok?
  {
    var names := KnownNames(Script, selected);
    forall k | 0 <= k < |names|
      ensures names[k] in params
    {
      PickedFrom(StepNames(Script), selected, |selected|, names[k]);
      var i :| 0 <= i < |selected| && StepNames(Script)(selected[i]) == Some(names[k]);
      assert selected[i] in StepMap && names[k] == StepMap[selected[i]];
    }
    ChainSucceeds(Script, names, params, img);
  }

  /**
   * The `if` blocks test the ids as typed and the loop tests them
   * stripped: after "1, 2" the loop finds step 2 but no `colorconvert`
   * parameter, so the resize file is written and the next step raises.
   */
  lemma SpaceAfterCommaMissesParameter(a: Answers, params: map<string, Value>, img: Image)
    requires ParamsFor(SelectedSteps("1, 2"), a, params)
    ensures SelectedSteps("1, 2") == ["1", " 2"]
    ensures "colorconvert" !in params
    ensures KnownNames(Script, SelectedSteps("1, 2")) == ["resize", "colorconvert"]
    ensures Cumulative(Script, ["resize"], params, img) == Ok(ResizeImage(img, Int(a.width), Int(a.height)))
    ensures Cumulative(Script, ["resize", "colorconvert"], params, img) == Err(MissingParam("colorconvert"))
  {
    SpacedIds();
    SpacedNames();
    var size := Items([Int(a.width), Int(a.height)]);
    assert "1" in SelectedSteps("1, 2");
    assert "resize" in params && params["resize"] == size;
    ResizeThenMissing(params, img, size);
  }

  /** The known names of "1, 2". */
  lemma SpacedNames()
    ensures KnownNames(Script, SelectedSteps("1, 2")) == ["resize", "colorconvert"]
  {
    var ids := SelectedSteps("1, 2");
    SpacedIds();
    assert StepName(Script, ids[0]) == Some("resize");
    assert StepName(Script, ids[1]) == Some("colorconvert");
    assert KnownNames(Script, ids) == Picked(StepNames(Script), ids, 1) + ["colorconvert"];
  }

  /** A resize with a two-item size followed by a colour step with no parameter. */
  lemma ResizeThenMissing(params: map<string, Value>, img: Image, size: Value)
    requires "resize" in params && params["resize"] == size
    requires size.Items? && |size.xs| == 2
    requires "colorconvert" !in params
    ensures Cumulative(Script, ["resize"], params, img) == Ok(ResizeImage(img, size.xs[0], size.xs[1]))
    ensures Cumulative(Script, ["resize", "colorconvert"], params, img) == Err(MissingParam("colorconvert"))
  {
    assert ["resize", "colorconvert"][..1] == ["resize"];
    assert ["resize"][..0] == [];
  }

  /** "1, 2" splits into "1" and " 2", and the second strips to "2". */
  lemma SpacedIds()
    ensures SelectedSteps("1, 2") == ["1", " 2"]
    ensures Strip("1") == "1" && Strip(" 2") == "2"
    ensures "2" !in SelectedSteps("1, 2")
  {
    var raw := "1, 2";
    assert LStripSpace(raw) == raw && RStripSpace(raw) == raw;
    assert Split("", ',') == [""];
    assert "2"[1..] == "" && ['2'] + "" == "2";
    assert Split("2", ',') == [['2'] + ""] + [""][1..];
    assert " 2"[1..] == "2" && [' '] + "2" == " 2";
    assert Split(" 2", ',') == [[' '] + "2"] + ["2"][1..];
    assert ", 2"[1..] == " 2";
    assert Split(", 2", ',') == [""] + [" 2"];
    assert raw[1..] == ", 2" && ['1'] + "" == "1";
    assert Split(raw, ',') == [['1'] + ""] + ["", " 2"][1..];
    assert LStripSpace("1") == "1" && RStripSpace("1") == "1";
    assert " 2"[1..] == "2" && LStripSpace(" 2") == LStripSpace("2") == "2";
    assert RStripSpace("2") == "2";
  }

  /** With "1, 2" every chain writes the resize file and then raises for the missing `colorconvert`. */
  lemma SpacedChainRaises(a: Answers, params: map<string, Value>, img: Image, stem: string, folder: string,
                          written: seq<Artifact>, failure: Option<Failure>)
    requires ParamsFor(SelectedSteps("1, 2"), a, params)
    requires ChainOutcome(Script, KnownNames(Script, SelectedSteps("1, 2")), params, img, stem, folder, written, failure)
    ensures failure == Some(MissingParam("colorconvert"))
    ensures |written| == 1
  {
    SpaceAfterCommaMissesParameter(a, params, img);
    var names := KnownNames(Script, SelectedSteps("1, 2"));
    assert names[..1] == ["resize"];
    SecondStepRaises(names, params, img, stem, folder, written, failure, MissingParam("colorconvert"));
  }

  /** A two-step chain whose first step succeeds and whose second raises writes one file and reports that failure. */
  lemma SecondStepRaises(names: seq<string>, params: map<string, Value>, img: Image, stem: string, folder: string,
                         written: seq<Artifact>, failure: Option<Failure>, e: Failure)
    requires |names| == 2
    requires Cumulative(Script, names[..1], params, img).Ok?
    requires Cumulative(Script, names, params, img) == Err(e)
    requires ChainOutcome(Script, names, params, img, stem, folder, written, failure)
    ensures failure == Some(e)
    ensures |written| == 1
  {
    assert names[..2] == names;
    assert |written| == 2 ==> ArtifactAt(Script, names, params, img, stem, folder, written, 1);
  }

  /** With "1, 2" the script stops at the first readable image, with the missing `colorconvert`. */
  lemma SpaceAfterCommaStopsScript(inputFolder: string, outputFolder: string, files: seq<string>, a: Answers,
                                   params: map<string, Value>, readable: string -> bool,
                                   outcomes: seq<FileOutcome>, failure: Option<Failure>, j: int)
    requires ParamsFor(SelectedSteps("1, 2"), a, params)
    requires ScriptOutcome(inputFolder, outputFolder, files, SelectedSteps("1, 2"), params, readable, outcomes, failure)
    requires 0 <= j < |files| && readable(PathJoin(inputFolder, files[j]))
    ensures failure == Some(MissingParam("colorconvert"))
    ensures |outcomes| <= j + 1
  {
    var selected := SelectedSteps("1, 2");
    forall k | 0 <= k < |outcomes| && outcomes[k].Processed?
      ensures outcomes[k].failure == Some(MissingParam("colorconvert"))
    {
      assert ProcessedAs(Script, files[k], inputFolder, outputFolder, selected, params, readable, outcomes[k]);
      SpacedChainRaises(a, params, Decoded(PathJoin(inputFolder, files[k])), Stem(files[k]), outputFolder,
                        outcomes[k].written, outcomes[k].failure);
    }
    assert |outcomes| > j ==> ProcessedAs(Script, files[j], inputFolder, outputFolder, selected, params, readable, outcomes[j]);
  }
}
