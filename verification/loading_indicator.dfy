/**
 * The progress indicator: a bar whose width follows the progress and a
 * status message picked from bands of progress values, one set of bands per
 * operation.
 */
module LoadingIndicator {
  import opened Wrappers
  import opened Palette

  const UploadOperation: string := "upload"
  const DefaultOperation: string := "analysis"

  /** The component's props; an absent prop takes its default. */
  datatype Props = Props(progress: Option<int>, isVisible: Option<bool>, operation: Option<string>)

  /** What a visible indicator shows. */
  datatype View = View(barColor: Color, barWidth: int, message: string, percent: int)

  const UploadMessages: seq<string> := [
    "\U{1F4F8} Preparing image...",
    "\U{2699}\U{FE0F} Optimizing image size...",
    "\U{1F4E4} Uploading image...",
    "\U{2705} Upload complete!"
  ]

  const AnalysisMessages: seq<string> := [
    "\U{23F3} Extracting text from image...",
    "\U{1F50D} Identifying menu items...",
    "\U{1F9E0} Analyzing nutritional content...",
    "\U{1F4CA} Generating recommendations...",
    "\U{2728} Finalizing results..."
  ]

  const UploadThresholds: seq<int> := [30, 60, 90]
  const AnalysisThresholds: seq<int> := [25, 50, 75, 95]

  /** The status message, as the chain of `if`s picks it. */
  function Message(operation: string, progress: int): (m: string)
    ensures m in Messages(operation)
    ensures progress < 0 ==> m == Messages(operation)[0]
    ensures progress >= 100 ==> m == Messages(operation)[|Messages(operation)| - 1]
  {
    if operation == UploadOperation then
      if progress < 30 then UploadMessages[0]
      else if progress < 60 then UploadMessages[1]
      else if progress < 90 then UploadMessages[2]
      else UploadMessages[3]
    else
      if progress < 25 then AnalysisMessages[0]
      else if progress < 50 then AnalysisMessages[1]
      else if progress < 75 then AnalysisMessages[2]
      else if progress < 95 then AnalysisMessages[3]
      else AnalysisMessages[4]
  }

  /** The thresholds and messages an operation uses; anything but "upload" is an analysis. */
  function Thresholds(operation: string): seq<int> {
    if operation == UploadOperation then UploadThresholds else AnalysisThresholds
  }

  function Messages(operation: string): seq<string> {
    if operation == UploadOperation then UploadMessages else AnalysisMessages
  }

  /** How many thresholds `progress` has reached. */
  function Band(thresholds: seq<int>, progress: int): (b: nat)
    ensures b <= |thresholds|
  {
    if thresholds == [] then 0
    else (if thresholds[0] <= progress then 1 else 0) + Band(thresholds[1..], progress)
  }

  /**
   * The message is the one of the band the progress falls in: the number of
   * thresholds it has reached picks the message.
   */
  lemma MessageIsBand(operation: string, progress: int)
    ensures Band(Thresholds(operation), progress) < |Messages(operation)|
    ensures Message(operation, progress) == Messages(operation)[Band(Thresholds(operation), progress)]
  {
    if operation == UploadOperation {
      var ts := UploadThresholds;
      assert ts[1..] == [60, 90] && ts[1..][1..] == [90] && ts[1..][1..][1..] == [];
      var b2 := Band(ts[1..][1..], progress);
      assert b2 == (if 90 <= progress then 1 else 0);
      var b1 := Band(ts[1..], progress);
      assert b1 == (if 60 <= progress then 1 else 0) + b2;
      assert Band(ts, progress) == (if 30 <= progress then 1 else 0) + b1;
    } else {
      var ts := AnalysisThresholds;
      assert ts[1..] == [50, 75, 95] && ts[1..][1..] == [75, 95];
      assert ts[1..][1..][1..] == [95] && ts[1..][1..][1..][1..] == [];
      var b3 := Band(ts[1..][1..][1..], progress);
      assert b3 == (if 95 <= progress then 1 else 0);
      var b2 := Band(ts[1..][1..], progress);
      assert b2 == (if 75 <= progress then 1 else 0) + b3;
      var b1 := Band(ts[1..], progress);
      assert b1 == (if 50 <= progress then 1 else 0) + b2;
      assert Band(ts, progress) == (if 25 <= progress then 1 else 0) + b1;
    }
  }

  /** Within one operation, more progress never moves the message to an earlier band. */
  lemma {:induction false} BandMonotone(thresholds: seq<int>, p: int, q: int)
    requires p <= q
    ensures Band(thresholds, p) <= Band(thresholds, q)
  {
    if thresholds != [] {
      BandMonotone(thresholds[1..], p, q);
    }
  }

  /** `Math.max(5, progress)`: never below 5, never below the progress. */
  function BarWidth(progress: int): (w: int)
    ensures w >= 5 && w >= progress
    ensures w == 5 || w == progress
  {
    if progress > 5 then progress else 5
  }

  /** The bar colour depends on the operation only. */
  function BarColor(operation: string): (c: Color)
    ensures c == Blue <==> operation == UploadOperation
    ensures c == Green <==> operation != UploadOperation
  {
    if operation == UploadOperation then Blue else Green
  }

  /** The indicator: nothing while invisible, otherwise bar and message for the progress. */
  function Render(props: Props): (v: Option<View>)
    ensures v.None? <==> !props.isVisible.GetOr(false)
    ensures v.Some? ==>
              var progress := props.progress.GetOr(0);
              var operation := props.operation.GetOr(DefaultOperation);
              v.value.message in Messages(operation) &&
              Band(Thresholds(operation), progress) < |Messages(operation)| &&
              v.value.message == Messages(operation)[Band(Thresholds(operation), progress)] &&
              v.value.barWidth >= 5 && v.value.barWidth >= progress &&
              (v.value.barWidth == 5 || v.value.barWidth == progress) &&
              v.value.percent == progress &&
              (v.value.barColor == Blue <==> operation == UploadOperation) &&
              (v.value.barColor == Green <==> operation != UploadOperation)
  {
    if !props.isVisible.GetOr(false) then None
    else
      var progress := props.progress.GetOr(0);
      var operation := props.operation.GetOr(DefaultOperation);
      MessageIsBand(operation, progress);
      Some(View(BarColor(operation), BarWidth(progress), Message(operation, progress), progress))
  }

  /** With no props at all the indicator renders nothing; made visible alone, it starts the analysis bands at 0. */
  lemma RenderDefaults()
    ensures Render(Props(None, None, None)).None?
    ensures Render(Props(None, Some(true), None)) ==
              Some(View(Green, 5, "\U{23F3} Extracting text from image...", 0))
  {
  }
}
