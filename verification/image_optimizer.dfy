/**
 * The image optimiser hook: it checks that the file is an image, reads the
 * image's dimensions, waits, and returns the file unchanged together with
 * its metadata. Two state fields, `isProcessing` and `progress`, follow the
 * run.
 *
 * Decoding the image and the object URL are browser work; their outcome is
 * an input of the model.
 */
module ImageOptimizer {
  import opened Wrappers
  import opened Text
  import opened Sequences

  datatype File = File(name: string, mimeType: string, size: nat)

  /** How reading the dimensions goes. */
  datatype Decode =
    | Loaded(width: nat, height: nat)  // the image's load event fires
    | LoadError                        // the image's error event fires instead
    | UrlFailed(message: string)       // creating the object URL throws

  datatype OptimizedImage = OptimizedImage(
    file: File,
    dimensions: string,
    sizeReductionPercent: int,
    originalSize: nat,
    optimizedSize: nat)

  /** How the returned promise ends; `Pending` is a promise that never settles. */
  datatype Outcome = Resolved(image: OptimizedImage) | Rejected(message: string) | Pending

  /** The hook's state, with the progress values the latest run set. */
  datatype OptimizerState = OptimizerState(isProcessing: bool, progress: int, checkpoints: seq<int>)

  /** The state after a call, and how the call ends. */
  datatype Step = Step(state: OptimizerState, outcome: Outcome)

  const ImagePrefix: string := "image/"
  const InvalidFileType: string := "Invalid file type. Please provide an image file."
  const ImageLoadFailed: string := "Failed to load image."

  /** The argument is a file whose type starts with "image/". */
  predicate ValidImage(file: Option<File>) {
    file.Some? && StartsWith(file.value.mimeType, ImagePrefix)
  }

  /** `${width}x${height}`. */
  function Dimensions(width: nat, height: nat): (s: string)
    ensures 'x' in s
    ensures |s| >= 3
    ensures forall i :: 0 <= i < |s| ==> (s[i] == 'x' <==> i == |Decimal(width)|)
  {
    Decimal(width) + "x" + Decimal(height)
  }

  /** Splits a dimensions string at its first "x" and reads both numbers. */
  function ParseDimensions(s: string): (nat, nat) {
    var k := IndexOf(s, 'x');
    if k < |s| then (ParseDecimal(s[..k]), ParseDecimal(s[k + 1..])) else (0, 0)
  }

  /** The dimensions string determines the width and height it was made from. */
  lemma DimensionsRoundTrip(width: nat, height: nat)
    ensures ParseDimensions(Dimensions(width, height)) == (width, height)
  {
    var w, h := Decimal(width), Decimal(height);
    var s := Dimensions(width, height);
    assert s == w + "x" + h;
    assert forall j :: 0 <= j < |w| ==> s[j] == w[j] && IsDigit(s[j]);
    assert s[|w|] == 'x';
    assert IndexOf(s, 'x') == |w|;
    assert s[..|w|] == w;
    assert s[|w| + 1..] == h;
    DecimalRoundTrip(width);
    DecimalRoundTrip(height);
  }

  /** The metadata the hook returns for a decoded image. */
  function Optimized(file: File, width: nat, height: nat): (r: OptimizedImage)
    ensures r.file == file
    ensures r.originalSize == r.optimizedSize == file.size
    ensures r.sizeReductionPercent == 0
    ensures ParseDimensions(r.dimensions) == (width, height)
  {
    DimensionsRoundTrip(width, height);
    OptimizedImage(file, Dimensions(width, height), 0, file.size, file.size)
  }

  /**
   * A call as the hook is written: the dimensions promise settles only on the
   * load event, so an image that fails to load leaves the call pending with
   * `isProcessing` still set.
   */
  function OptimizeAsWritten(file: Option<File>, decode: Decode, before: OptimizerState): (r: Step)
    ensures !ValidImage(file) ==> r == Step(before, Rejected(InvalidFileType))
    ensures r.outcome.Resolved? <==> ValidImage(file) && decode.Loaded?
    ensures r.outcome.Pending? <==> ValidImage(file) && decode.LoadError?
    ensures r.outcome.Pending? ==> r.state.isProcessing
  {
    if !ValidImage(file) then Step(before, Rejected(InvalidFileType))
    else match decode
      case Loaded(w, h) => Step(OptimizerState(false, 100, [10, 30, 70, 100]), Resolved(Optimized(file.value, w, h)))
      case UrlFailed(m) => Step(OptimizerState(false, 30, [10, 30]), Rejected(m))
      case LoadError => Step(OptimizerState(true, 30, [10, 30]), Pending)
  }

  /** A call with a load error rejecting the dimensions promise, as an object URL failure does. */
  function Optimize(file: Option<File>, decode: Decode, before: OptimizerState): (r: Step)
    ensures !ValidImage(file) ==> r == Step(before, Rejected(InvalidFileType))
    ensures r.outcome.Resolved? <==> ValidImage(file) && decode.Loaded?
    ensures !r.outcome.Pending?
    ensures ValidImage(file) ==> !r.state.isProcessing
  {
    if !ValidImage(file) then Step(before, Rejected(InvalidFileType))
    else match decode
      case Loaded(w, h) => Step(OptimizerState(false, 100, [10, 30, 70, 100]), Resolved(Optimized(file.value, w, h)))
      case UrlFailed(m) => Step(OptimizerState(false, 30, [10, 30]), Rejected(m))
      case LoadError => Step(OptimizerState(false, 30, [10, 30]), Rejected(ImageLoadFailed))
  }

  /**
   * A missing file or a non-image type is rejected before any state changes;
   * an image always gets past the check and sets progress 10 and then 30.
   */
  lemma InvalidFileUntouched(file: Option<File>, decode: Decode, before: OptimizerState)
    ensures !ValidImage(file) ==>
              Optimize(file, decode, before) == Step(before, Rejected(InvalidFileType))
    ensures ValidImage(file) ==> Optimize(file, decode, before).state.checkpoints[..2] == [10, 30]
  {
  }

  /**
   * A decoded image resolves with the file unchanged and its metadata, after
   * progress 10, 30, 70, 100; processing is over.
   */
  lemma OptimizeSuccess(file: File, width: nat, height: nat, before: OptimizerState)
    requires ValidImage(Some(file))
    ensures var step := Optimize(Some(file), Loaded(width, height), before);
            step.state == OptimizerState(false, 100, [10, 30, 70, 100]) &&
            NonDecreasing(step.state.checkpoints) &&
            step.outcome.Resolved? && step.outcome.image.file == file &&
            step.outcome.image.originalSize == step.outcome.image.optimizedSize == file.size &&
            step.outcome.image.sizeReductionPercent == 0 &&
            ParseDimensions(step.outcome.image.dimensions) == (width, height)
  {
  }

  /** Every call to a valid image settles with processing over, and progress never goes back. */
  lemma OptimizeSettles(file: Option<File>, decode: Decode, before: OptimizerState)
    requires ValidImage(file)
    ensures var step := Optimize(file, decode, before);
            !step.outcome.Pending? && !step.state.isProcessing &&
            NonDecreasing(step.state.checkpoints) &&
            step.state.progress == step.state.checkpoints[|step.state.checkpoints| - 1]
    ensures Optimize(file, decode, before).outcome.Resolved? <==> decode.Loaded?
  {
  }

  /** As written, an image that fails to load leaves the call pending and the hook processing forever. */
  lemma AsWrittenHangsOnLoadError(file: File, before: OptimizerState)
    requires ValidImage(Some(file))
    ensures OptimizeAsWritten(Some(file), LoadError, before).outcome == Pending
    ensures OptimizeAsWritten(Some(file), LoadError, before).state.isProcessing
  {
  }

  /** The correction changes nothing but the load-error case. */
  lemma CorrectionOnlyTouchesLoadError(file: Option<File>, decode: Decode, before: OptimizerState)
    ensures OptimizeAsWritten(file, decode, before) == Optimize(file, decode, before) <==>
              !ValidImage(file) || !decode.LoadError?
  {
  }

  /** The hook's two state fields, with the progress values of the latest run as a ghost record. */
  class Optimizer {
    var isProcessing: bool
    var progress: int
    ghost var checkpoints: seq<int>

    constructor ()
      ensures !isProcessing && progress == 0 && checkpoints == []
    {
      isProcessing, progress := false, 0;
      checkpoints := [];
    }

    ghost function State(): OptimizerState reads this {
      OptimizerState(isProcessing, progress, checkpoints)
    }

    method SetProgress(value: int)
      modifies this
      ensures progress == value && checkpoints == old(checkpoints) + [value]
      ensures isProcessing == old(isProcessing)
    {
      progress := value;
      checkpoints := checkpoints + [value];
    }

    /** One call, step by step, on the given outcome of reading the dimensions. */
    method OptimizeImage(file: Option<File>, decode: Decode) returns (outcome: Outcome)
      modifies this
      ensures State() == Optimize(file, decode, old(State())).state
      ensures outcome == Optimize(file, decode, old(State())).outcome
    {
      if file.None? || !StartsWith(file.value.mimeType, ImagePrefix) {
        return Rejected(InvalidFileType);
      }
      isProcessing := true;
      checkpoints := [];
      SetProgress(10);
      SetProgress(30);
      match decode {
        case UrlFailed(m) =>
          isProcessing := false;
          return Rejected(m);
        case LoadError =>
          isProcessing := false;
          return Rejected(ImageLoadFailed);
        case Loaded(w, h) =>
          SetProgress(70);
          SetProgress(100);
          isProcessing := false;
          outcome := Resolved(OptimizedImage(file.value, Dimensions(w, h), 0, file.value.size, file.value.size));
      }
    }
  }
}
