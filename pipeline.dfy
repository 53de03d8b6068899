/**
 * The step chain both processors run over each readable image: the
 * caller's step ids are visited in order, ids the registry does not know
 * are skipped, and each known step adds its name to `suffix_list`, is
 * applied to the image the previous steps produced and writes
 * `<stem>_<suffix_list joined by "_">.jpg`. A step whose parameter is
 * missing raises, which ends the chain. newProcessor.py (the server) and
 * processor.py (the script) differ in three places, chosen by `Variant`:
 * the script strips each id before the lookup, the server normalises the
 * registry's name, and only the server guards saturation; the resize
 * parameter is indexed by the server and unpacked by the script.
 */
module Pipeline {
  import opened Wrappers
  import opened Strings
  import opened Imaging

  datatype Variant = Server | Script

  /** The key looked up for a step id: the script strips it first, the server uses it as given. */
  function StepKey(variant: Variant, id: string): string {
    if variant == Script then Strip(id) else id
  }

  /** The name found under a known key: the server strips and lower-cases it, the script uses it as it is. */
  function RegistryName(variant: Variant, key: string): string
    requires key in StepMap
  {
    if variant == Server then Lower(Strip(StepMap[key])) else StepMap[key]
  }

  /** The name a step id selects, if the registry knows it. */
  function StepName(variant: Variant, id: string): Option<string> {
    var key := StepKey(variant, id);
    if key in StepMap then Some(RegistryName(variant, key)) else None
  }

  function NameList(o: Option<string>): seq<string> {
    if o.Some? then [o.value] else []
  }

  /** The registry lookup of the given processor, as a function of the id. */
  function StepNames(variant: Variant): string -> Option<string> {
    id => StepName(variant, id)
  }

  /** The names `lookup` finds for the first `n` ids of `selected`, in order, repeats kept; ids it does not know add nothing. */
  function Picked(lookup: string -> Option<string>, selected: seq<string>, n: nat): seq<string>
    requires n <= |selected|
  {
    if n == 0 then [] else Picked(lookup, selected, n - 1) + NameList(lookup(selected[n - 1]))
  }

  /** The names of the known steps among `selected`: the final `suffix_list`. */
  function KnownNames(variant: Variant, selected: seq<string>): seq<string> {
    Picked(StepNames(variant), selected, |selected|)
  }

  /** `params[key]`, which raises KeyError when the key is missing. */
  function Param(params: map<string, Value>, key: string): Result<Value, Failure> {
    if key in params then Ok(params[key]) else Err(MissingParam(key))
  }

  /** The names the `if step_name == ...` chain has a branch for; each reads `params[name]`. */
  const Transforms: set<string> := {"resize", "colorconvert", "gaussianblur", "rotate", "brightness", "contrast", "saturation", "flip"}

  /**
   * One pass of the `if step_name == ...` chain: a name without a branch
   * leaves the image as it is, and a name with one reads its parameter
   * first, which raises when the parameter is missing.
   */
  function Dispatch(variant: Variant, name: string, params: map<string, Value>, img: Image): Result<Image, Failure> {
    if name !in Transforms then Ok(img)
    else if name !in params then Err(MissingParam(name))
    else Transform(variant, name, params[name], img)
  }

  /**
   * The branch for `name` applied to its parameter value. Resize is the
   * one branch that looks inside the value: the server indexes `[0]` and
   * `[1]`, the script unpacks exactly two items.
   */
  function Transform(variant: Variant, name: string, v: Value, img: Image): Result<Image, Failure> {
    if name == "resize" then
      if variant == Server then
        if v.Items? && |v.xs| >= 2 then Ok(ResizeImage(img, v.xs[0], v.xs[1])) else Err(BadParam("resize"))
      else
        if v.Items? && |v.xs| == 2 then Ok(ResizeImage(img, v.xs[0], v.xs[1])) else Err(BadParam("resize"))
    else if name == "colorconvert" then Ok(ColorConvert(img, v))
    else if name == "gaussianblur" then Ok(GaussianBlurImage(img, v))
    else if name == "rotate" then Ok(RotateImage(img, v))
    else if name == "brightness" then Ok(AdjustBrightness(img, v))
    else if name == "contrast" then Ok(AdjustContrast(img, v))
    else if name == "saturation" then Ok(if variant == Server then AdjustSaturationGuarded(img, v) else AdjustSaturation(img, v))
    else Ok(FlipImage(img, v))
  }

  /** The image after the steps `names`, each applied to what the previous ones made, or the first failure. */
  function Cumulative(variant: Variant, names: seq<string>, params: map<string, Value>, img: Image): Result<Image, Failure> {
    if names == [] then Ok(img)
    else
      match Cumulative(variant, names[..|names| - 1], params, img)
      case Err(e) => Err(e)
      case Ok(prev) => Dispatch(variant, names[|names| - 1], params, prev)
  }

  /** `f"{filename_no_ext}_{'_'.join(suffix_list)}.jpg"`. */
  function StepFileName(stem: string, suffixes: seq<string>): string {
    stem + "_" + Join(suffixes, "_") + ".jpg"
  }

  /** One file written by `cv2.imwrite`. */
  datatype Artifact = Artifact(path: string, image: Image)

  /** File k is the result of the first k + 1 known steps, named after them. */
  predicate ArtifactAt(variant: Variant, names: seq<string>, params: map<string, Value>, img: Image,
                       stem: string, folder: string, written: seq<Artifact>, k: nat)
    requires k < |written| <= |names|
  {
    Cumulative(variant, names[..k + 1], params, img).Ok?
    && written[k] == Artifact(PathJoin(folder, StepFileName(stem, names[..k + 1])), Cumulative(variant, names[..k + 1], params, img).value)
  }

  /** Every file written so far is the result of the known steps up to it. */
  predicate StepArtifacts(variant: Variant, names: seq<string>, params: map<string, Value>, img: Image,
                          stem: string, folder: string, written: seq<Artifact>) {
    |written| <= |names|
    && forall k :: 0 <= k < |written| ==> ArtifactAt(variant, names, params, img, stem, folder, written, k)
  }

  /**
   * What the chain leaves behind: one file per known step up to the first
   * that raised, and that step's failure; all of them when none raised.
   */
  predicate ChainOutcome(variant: Variant, names: seq<string>, params: map<string, Value>, img: Image,
                         stem: string, folder: string, written: seq<Artifact>, failure: Option<Failure>) {
    StepArtifacts(variant, names, params, img, stem, folder, written)
    && (failure.None? ==> |written| == |names|)
    && (failure.Some? ==> |written| < |names| && Cumulative(variant, names[..|written| + 1], params, img) == Err(failure.value))
  }

  /** The chain's state before the id at position `i`. */
  ghost predicate ChainAt(variant: Variant, selected: seq<string>, params: map<string, Value>, img: Image,
                          stem: string, folder: string, i: nat, suffixList: seq<string>, processed: Image, written: seq<Artifact>) {
    i <= |selected|
    && suffixList == Picked(StepNames(variant), selected, i)
    && Cumulative(variant, suffixList, params, img) == Ok(processed)
    && |written| == |suffixList|
    && StepArtifacts(variant, suffixList, params, img, stem, folder, written)
  }

  /**
   * The loop over `selected_steps` for one image: the script strips each id,
   * the server looks it up as given and normalises the name it finds.
   */
  method RunSteps(variant: Variant, selected: seq<string>, params: map<string, Value>, img: Image, stem: string, folder: string)
    returns (written: seq<Artifact>, failure: Option<Failure>)
    ensures ChainOutcome(variant, KnownNames(variant, selected), params, img, stem, folder, written, failure)
  {
    var suffixList: seq<string> := [];
    var processed := img;
    written, failure := [], None;
    var i := 0;
    ChainStarts(variant, selected, params, img, stem, folder);
    while i < |selected|
      invariant ChainAt(variant, selected, params, img, stem, folder, i, suffixList, processed, written)
      decreases |selected| - i
    {
      var stepNum := StepKey(variant, selected[i]);
      if stepNum in StepMap {
        var stepName := RegistryName(variant, stepNum);
        var r := Dispatch(variant, stepName, params, processed);
        if r.Err? {
          ChainStops(variant, selected, params, img, stem, folder, i, suffixList, processed, written, stepName, r.error);
          suffixList := suffixList + [stepName];
          failure := Some(r.error);
          return;
        }
        var next := r.value;
        ChainApplies(variant, selected, params, img, stem, folder, i, suffixList, processed, written, stepName, next);
        suffixList := suffixList + [stepName];
        processed := next;
        written := written + [Artifact(PathJoin(folder, StepFileName(stem, suffixList)), processed)];
      } else {
        ChainSkips(variant, selected, params, img, stem, folder, i, suffixList, processed, written);
      }
      i := i + 1;
    }
    ChainEnds(variant, selected, params, img, stem, folder, i, suffixList, processed, written);
  }

  lemma ChainStarts(variant: Variant, selected: seq<string>, params: map<string, Value>, img: Image, stem: string, folder: string)
    ensures ChainAt(variant, selected, params, img, stem, folder, 0, [], img, [])
  {
    assert selected[..0] == [];
  }

  /** A known step that succeeds adds its name and its file, and its result is the image the next step sees. */
  lemma ChainApplies(variant: Variant, selected: seq<string>, params: map<string, Value>, img: Image, stem: string, folder: string,
                     i: nat, suffixList: seq<string>, processed: Image, written: seq<Artifact>, stepName: string, next: Image)
    requires ChainAt(variant, selected, params, img, stem, folder, i, suffixList, processed, written)
    requires i < |selected|
    requires StepKey(variant, selected[i]) in StepMap
    requires stepName == RegistryName(variant, StepKey(variant, selected[i]))
    requires Dispatch(variant, stepName, params, processed) == Ok(next)
    ensures ChainAt(variant, selected, params, img, stem, folder, i + 1, suffixList + [stepName], next,
                    written + [Artifact(PathJoin(folder, StepFileName(stem, suffixList + [stepName])), next)])
  {
    CumulativeSnoc(variant, suffixList, stepName, params, img, processed);
    ArtifactsSnoc(variant, suffixList, stepName, params, img, stem, folder, written, next);
  }

  /** An id the registry does not know leaves the whole state as it was. */
  lemma ChainSkips(variant: Variant, selected: seq<string>, params: map<string, Value>, img: Image, stem: string, folder: string,
                   i: nat, suffixList: seq<string>, processed: Image, written: seq<Artifact>)
    requires ChainAt(variant, selected, params, img, stem, folder, i, suffixList, processed, written)
    requires i < |selected|
    requires StepKey(variant, selected[i]) !in StepMap
    ensures ChainAt(variant, selected, params, img, stem, folder, i + 1, suffixList, processed, written)
  {
  }

  /** After the last id, the state holds every known step. */
  lemma ChainEnds(variant: Variant, selected: seq<string>, params: map<string, Value>, img: Image, stem: string, folder: string,
                  i: nat, suffixList: seq<string>, processed: Image, written: seq<Artifact>)
    requires ChainAt(variant, selected, params, img, stem, folder, i, suffixList, processed, written)
    requires i >= |selected|
    ensures ChainOutcome(variant, KnownNames(variant, selected), params, img, stem, folder, written, None)
  {
  }

  /** One more step applies to the image the earlier steps made. */
  lemma CumulativeSnoc(variant: Variant, names: seq<string>, name: string, params: map<string, Value>, img: Image, prev: Image)
    requires Cumulative(variant, names, params, img) == Ok(prev)
    ensures Cumulative(variant, names + [name], params, img) == Dispatch(variant, name, params, prev)
  {
    assert (names + [name])[..|names|] == names;
  }

  /** A successful step adds the file named after all steps so far, holding their result. */
  lemma ArtifactsSnoc(variant: Variant, names: seq<string>, name: string, params: map<string, Value>, img: Image,
                      stem: string, folder: string, written: seq<Artifact>, next: Image)
    requires |written| == |names|
    requires StepArtifacts(variant, names, params, img, stem, folder, written)
    requires Cumulative(variant, names + [name], params, img) == Ok(next)
    ensures StepArtifacts(variant, names + [name], params, img, stem, folder,
                          written + [Artifact(PathJoin(folder, StepFileName(stem, names + [name])), next)])
  {
    var longer := names + [name];
    var more := written + [Artifact(PathJoin(folder, StepFileName(stem, longer)), next)];
    assert longer[..|names| + 1] == longer;
    forall k | 0 <= k < |more|
      ensures ArtifactAt(variant, longer, params, img, stem, folder, more, k)
    {
      if k < |names| {
        assert longer[..k + 1] == names[..k + 1];
        assert ArtifactAt(variant, names, params, img, stem, folder, written, k);
      }
    }
  }

  /** The files for a list of steps are the files for any longer list that starts with it. */
  lemma ArtifactsPrefix(variant: Variant, names: seq<string>, longer: seq<string>, params: map<string, Value>, img: Image,
                        stem: string, folder: string, written: seq<Artifact>)
    requires StepArtifacts(variant, names, params, img, stem, folder, written)
    requires |names| <= |longer| && longer[..|names|] == names
    ensures StepArtifacts(variant, longer, params, img, stem, folder, written)
  {
    forall k | 0 <= k < |written|
      ensures ArtifactAt(variant, longer, params, img, stem, folder, written, k)
    {
      assert longer[..k + 1] == longer[..|names|][..k + 1];
      assert ArtifactAt(variant, names, params, img, stem, folder, written, k);
    }
  }

  /** When the known step at position `i` raises, the files written so far are those the whole chain promises. */
  lemma ChainStops(variant: Variant, selected: seq<string>, params: map<string, Value>, img: Image, stem: string, folder: string,
                   i: nat, suffixList: seq<string>, processed: Image, written: seq<Artifact>, stepName: string, e: Failure)
    requires ChainAt(variant, selected, params, img, stem, folder, i, suffixList, processed, written)
    requires i < |selected|
    requires StepKey(variant, selected[i]) in StepMap
    requires stepName == RegistryName(variant, StepKey(variant, selected[i]))
    requires Dispatch(variant, stepName, params, processed) == Err(e)
    ensures ChainOutcome(variant, KnownNames(variant, selected), params, img, stem, folder, written, Some(e))
  {
    KnownNamesStepKnown(variant, selected, i, stepName);
    CumulativeSnoc(variant, suffixList, stepName, params, img, processed);
    PickedPrefix(StepNames(variant), selected, i + 1, |selected|);
    OutcomeOnFailure(variant, suffixList, stepName, KnownNames(variant, selected), params, img, stem, folder, written, e);
  }

  /** An id the registry knows adds its name. */
  lemma KnownNamesStepKnown(variant: Variant, selected: seq<string>, i: nat, stepName: string)
    requires i < |selected|
    requires StepKey(variant, selected[i]) in StepMap
    requires stepName == RegistryName(variant, StepKey(variant, selected[i]))
    ensures Picked(StepNames(variant), selected, i + 1) == Picked(StepNames(variant), selected, i) + [stepName]
  {
    assert StepNames(variant)(selected[i]) == Some(stepName);
  }

  /** A chain whose step after `names` raises keeps the files for `names` and reports that failure. */
  lemma OutcomeOnFailure(variant: Variant, names: seq<string>, name: string, all: seq<string>, params: map<string, Value>, img: Image,
                         stem: string, folder: string, written: seq<Artifact>, e: Failure)
    requires StepArtifacts(variant, names, params, img, stem, folder, written)
    requires |written| == |names|
    requires |names + [name]| <= |all| && all[..|names + [name]|] == names + [name]
    requires Cumulative(variant, names + [name], params, img) == Err(e)
    ensures ChainOutcome(variant, all, params, img, stem, folder, written, Some(e))
  {
    assert all[..|names|] == names;
    ArtifactsPrefix(variant, names, all, params, img, stem, folder, written);
  }

  /** The names picked among the first `j` ids start the names picked among the first `k`. */
  lemma {:induction false} PickedPrefix(lookup: string -> Option<string>, selected: seq<string>, j: nat, k: nat)
    requires j <= k <= |selected|
    ensures |Picked(lookup, selected, j)| <= |Picked(lookup, selected, k)|
    ensures Picked(lookup, selected, k)[..|Picked(lookup, selected, j)|] == Picked(lookup, selected, j)
    decreases k
  {
    if j < k {
      PickedPrefix(lookup, selected, j, k - 1);
      var shorter := Picked(lookup, selected, k - 1);
      var n := |Picked(lookup, selected, j)|;
      assert Picked(lookup, selected, k)[..n] == shorter[..n];
    }
  }

  /** Lists that agree on their first `n` ids agree on the names picked among them. */
  lemma {:induction false} PickedAgree(lookup: string -> Option<string>, x: seq<string>, y: seq<string>, n: nat)
    requires n <= |x| && n <= |y|
    requires forall i :: 0 <= i < n ==> x[i] == y[i]
    ensures Picked(lookup, x, n) == Picked(lookup, y, n)
  {
    if n > 0 {
      PickedAgree(lookup, x, y, n - 1);
    }
  }

  /** Every picked name is what the lookup found for one of the ids. */
  lemma {:induction false} PickedFrom(lookup: string -> Option<string>, selected: seq<string>, n: nat, name: string)
    requires n <= |selected|
    requires name in Picked(lookup, selected, n)
    ensures exists i :: 0 <= i < n && lookup(selected[i]) == Some(name)
  {
    var front := Picked(lookup, selected, n - 1);
    if name in front {
      PickedFrom(lookup, selected, n - 1, name);
    } else {
      assert lookup(selected[n - 1]) == Some(name);
    }
  }

  /** Past an id the lookup does not know, inserted at position `|a|`, the names are those of the list without it. */
  lemma {:induction false} PickedPastUnknown(lookup: string -> Option<string>, a: seq<string>, id: string, b: seq<string>, k: nat)
    requires lookup(id) == None
    requires k <= |b|
    ensures Picked(lookup, a + [id] + b, |a| + 1 + k) == Picked(lookup, a + b, |a| + k)
  {
    var x, y := a + [id] + b, a + b;
    if k == 0 {
      assert x[|a|] == id;
      PickedAgree(lookup, x, y, |a|);
    } else {
      PickedPastUnknown(lookup, a, id, b, k - 1);
      assert x[|a| + k] == b[k - 1] == y[|a| + k - 1];
    }
  }

  // ---------------------------------------------------------------------
  // Properties of the chain
  // ---------------------------------------------------------------------

  /** An id the registry does not know changes nothing, wherever it stands. */
  lemma UnknownIdTransparent(variant: Variant, a: seq<string>, id: string, b: seq<string>)
    requires StepName(variant, id) == None
    ensures KnownNames(variant, a + [id] + b) == KnownNames(variant, a + b)
  {
    assert StepNames(variant)(id) == None;
    PickedPastUnknown(StepNames(variant), a, id, b, |b|);
  }

  /**
   * The same chain written front to back: the first step is applied to
   * the decoded image and the rest to what it made.
   */
  function Compose(variant: Variant, names: seq<string>, params: map<string, Value>, img: Image): Result<Image, Failure>
    decreases |names|
  {
    if names == [] then Ok(img)
    else
      match Dispatch(variant, names[0], params, img)
      case Err(e) => Err(e)
      case Ok(next) => Compose(variant, names[1..], params, next)
  }

  lemma {:induction false} ComposeSnoc(variant: Variant, names: seq<string>, name: string, params: map<string, Value>, img: Image)
    ensures Compose(variant, names + [name], params, img)
      == match Compose(variant, names, params, img)
         case Err(e) => Err(e)
         case Ok(prev) => Dispatch(variant, name, params, prev)
    decreases |names|
  {
    if names != [] {
      match Dispatch(variant, names[0], params, img)
      case Err(e) =>
      case Ok(next) =>
        assert (names + [name])[1..] == names[1..] + [name];
        ComposeSnoc(variant, names[1..], name, params, next);
    }
  }

  /** Each file holds the composition of the known steps up to it, applied in order to the decoded image. */
  lemma {:induction false} CumulativeIsComposition(variant: Variant, names: seq<string>, params: map<string, Value>, img: Image)
    ensures Cumulative(variant, names, params, img) == Compose(variant, names, params, img)
    decreases |names|
  {
    if names != [] {
      var front := names[..|names| - 1];
      CumulativeIsComposition(variant, front, params, img);
      ComposeSnoc(variant, front, names[|names| - 1], params, img);
      assert front + [names[|names| - 1]] == names;
    }
  }

  /** Once a step has raised, no later step is reached. */
  lemma {:induction false} FailureIsFinal(variant: Variant, names: seq<string>, more: seq<string>, params: map<string, Value>, img: Image)
    requires Cumulative(variant, names, params, img).Err?
    ensures Cumulative(variant, names + more, params, img) == Cumulative(variant, names, params, img)
    decreases |more|
  {
    if more == [] {
      assert names + more == names;
    } else {
      var front := more[..|more| - 1];
      FailureIsFinal(variant, names, front, params, img);
      assert (names + more)[..|names + more| - 1] == names + front;
    }
  }

  /** A chain whose every step finds its parameter, with a two-item resize parameter, raises nowhere. */
  lemma {:induction false} ChainSucceeds(variant: Variant, names: seq<string>, params: map<string, Value>, img: Image)
    requires forall k :: 0 <= k < |names| ==> names[k] in params
    requires "resize" in params ==> params["resize"].Items? && |params["resize"].xs| == 2
    ensures Cumulative(variant, names, params, img).Ok?
    decreases |names|
  {
    if names != [] {
      var front := names[..|names| - 1];
      assert forall k :: 0 <= k < |front| ==> front[k] == names[k];
      ChainSucceeds(variant, front, params, img);
    }
  }

  /** Every registered step reads `params[name]` and raises KeyError when it is missing. */
  lemma MissingParamRaises(variant: Variant, id: string, params: map<string, Value>, img: Image)
    requires id in StepMap
    requires StepMap[id] !in params
    ensures Dispatch(variant, StepMap[id], params, img) == Err(MissingParam(StepMap[id]))
  {
  }

  /** On ids without surrounding white space the server and the script pick the same steps. */
  lemma VariantsAgreeOnStrippedIds(id: string)
    requires Strip(id) == id
    ensures StepName(Server, id) == StepName(Script, id)
  {
    if id in StepMap {
      RegistryNamesNormal(id);
    }
  }

  /** A step's file name extends the name of every earlier step's file. */
  lemma {:induction false} SuffixesExtend(names: seq<string>, j: nat, k: nat)
    requires 1 <= j <= k <= |names|
    ensures StartsWith(Join(names[..k], "_"), Join(names[..j], "_"))
    ensures j < k ==> |Join(names[..k], "_")| > |Join(names[..j], "_")|
    decreases k
  {
    if j < k {
      SuffixesExtend(names, j, k - 1);
      assert names[..k] == names[..k - 1] + [names[k - 1]];
      JoinSnoc(names[..k - 1], "_", names[k - 1]);
    }
  }
}
