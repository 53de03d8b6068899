/**
 * The image values and the eight transforms both processors share. Pixels
 * are not modelled: an image is the term recording how it was made, from
 * the file it was decoded from through each OpenCV call with its
 * arguments. Two images are equal exactly when they were made by the same
 * calls. The one thing tracked about an image besides its history is
 * whether it has a single channel, which is what the saturation guard of
 * newProcessor.py looks at.
 */
module Imaging {
  import opened Strings

  /** A parameter value as the request or the prompts supply it: an int, a float or a list. */
  datatype Value = Int(i: int) | Real(r: real) | Items(xs: seq<Value>)

  /** The OpenCV call behind each transform. */
  datatype Op = Resize | CvtColor | GaussianBlur | WarpRotate | ConvertScaleAbs | HsvSaturation | Flip

  /** `cv2.imread` of a file (always three channels), or one call applied to an earlier image. */
  datatype Image = Decoded(path: string) | Applied(op: Op, args: seq<Value>, input: Image)

  /** Why a step raised: `params[name]` was missing (KeyError), or its value could not be indexed or unpacked. */
  datatype Failure = MissingParam(key: string) | BadParam(key: string)

  /** `cv2.COLOR_BGR2GRAY` and `cv2.COLOR_BGR2HSV`. */
  const ColorBgr2Gray := 6
  const ColorBgr2Hsv := 40

  /**
   * `len(img.shape) == 2 or img.shape[2] == 1`: a decoded image has three
   * channels, a grey conversion leaves one, the saturation round trip
   * through HSV gives three, and every other call keeps what it was given.
   */
  predicate SingleChannel(img: Image) {
    match img
    case Decoded(_) => false
    case Applied(op, args, input) =>
      if op == CvtColor then args == [Int(ColorBgr2Gray)]
      else if op == HsvSaturation then false
      else SingleChannel(input)
  }

  /** `cv2.resize(img, (width, height))`. */
  function ResizeImage(img: Image, width: Value, height: Value): Image {
    Applied(Resize, [width, height], img)
  }

  /** `cv2.cvtColor(img, code)`. */
  function ColorConvert(img: Image, code: Value): Image {
    Applied(CvtColor, [code], img)
  }

  /** `cv2.GaussianBlur(img, (kernel_size, kernel_size), 0)`. */
  function GaussianBlurImage(img: Image, kernelSize: Value): Image {
    Applied(GaussianBlur, [Items([kernelSize, kernelSize]), Int(0)], img)
  }

  /** `cv2.warpAffine` by the rotation matrix about the centre; the centre and size come from the image itself. */
  function RotateImage(img: Image, angle: Value): Image {
    Applied(WarpRotate, [angle], img)
  }

  /** `cv2.convertScaleAbs(img, alpha=factor, beta=0)`. */
  function AdjustBrightness(img: Image, factor: Value): Image {
    Applied(ConvertScaleAbs, [factor, Int(0)], img)
  }

  /** The very same call as `AdjustBrightness`. */
  function AdjustContrast(img: Image, factor: Value): Image {
    Applied(ConvertScaleAbs, [factor, Int(0)], img)
  }

  /** processor.py's `adjust_saturation`: to HSV, scale and clip channel 1, back to BGR. */
  function AdjustSaturation(img: Image, factor: Value): Image {
    Applied(HsvSaturation, [factor], img)
  }

  /** newProcessor.py's `adjust_saturation`: a single-channel image is returned as it is. */
  function AdjustSaturationGuarded(img: Image, factor: Value): (r: Image)
    ensures SingleChannel(img) ==> r == img
    ensures !SingleChannel(img) ==> r == AdjustSaturation(img, factor) && !SingleChannel(r)
  {
    if SingleChannel(img) then img else AdjustSaturation(img, factor)
  }

  /** `cv2.flip(img, flip_code)`. */
  function FlipImage(img: Image, flipCode: Value): Image {
    Applied(Flip, [flipCode], img)
  }

  /** `step_map`: the step ids and the names of their transforms, the same in the server and the script. */
  const StepMap: map<string, string> := map[
    "1" := "resize",
    "2" := "colorconvert",
    "3" := "gaussianblur",
    "4" := "rotate",
    "5" := "brightness",
    "6" := "contrast",
    "7" := "saturation",
    "8" := "flip"]

  /** Brightness and contrast are one and the same operation. */
  lemma BrightnessIsContrast(img: Image, factor: Value)
    ensures AdjustBrightness(img, factor) == AdjustContrast(img, factor)
  {
  }

  /** After a grey conversion the guarded saturation changes nothing; the unguarded one, with the colour conversion total here, still converts. */
  lemma GreyDefeatsSaturation(img: Image, factor: Value)
    ensures AdjustSaturationGuarded(ColorConvert(img, Int(ColorBgr2Gray)), factor) == ColorConvert(img, Int(ColorBgr2Gray))
    ensures AdjustSaturation(ColorConvert(img, Int(ColorBgr2Gray)), factor) != ColorConvert(img, Int(ColorBgr2Gray))
  {
  }

  /** A name of lower-case ASCII letters only is kept by `strip().lower()`. */
  lemma LettersNormal(name: string)
    requires forall k :: 0 <= k < |name| ==> 'a' <= name[k] <= 'z'
    ensures Lower(Strip(name)) == name
  {
    if |name| > 0 {
      assert LStripSpace(name) == name;
      assert RStripSpace(name) == name;
    }
  }

  /** The registry's names are already stripped and lower-case, so newProcessor.py's `strip().lower()` keeps them. */
  lemma RegistryNamesNormal(id: string)
    requires id in StepMap
    ensures Lower(Strip(StepMap[id])) == StepMap[id]
  {
    LettersNormal(StepMap[id]);
  }
}
