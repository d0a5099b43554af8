/**
 * The menu analysis hook: one run reads the image, asks the text-recognition
 * endpoint for the menu text, turns it into items, asks the analysis endpoint
 * to score them, and records the result. Progress is set at fixed
 * checkpoints; any failure records an error message and the sample items.
 *
 * The outcomes of the file read and of the two requests are inputs of the
 * model; the requests themselves are not part of it.
 */
module MenuAnalysis {
  import opened Wrappers
  import opened Menu
  import AnalyzeMenu
  import opened Sequences

  /** What the text-recognition request yields. */
  datatype OcrReply =
    | OcrFailed                      // the response is not ok, or its body is not JSON
    | OcrNullBody                    // the body is JSON `null`, so reading its `text` throws
    | OcrBody(text: Option<string>)  // any other JSON value, with or without `text`

  /** What the analysis request yields. */
  datatype AnalysisReply =
    | ReplyFailed                                // the response is not ok, or its body is not JSON
    | ReplyNullBody                              // the body is JSON `null`, so reading its `results` throws
    | Reply(results: Option<seq<AnalyzedItem>>)  // any other JSON value; `results` missing or falsy is None

  const FailureMessage: string := "Failed to analyze menu. Please try again."

  /** The profile every run sends with its items. */
  const AnalysisProfile: Profile := Profile(
    ["Balanced diet", "Moderate alcohol"],
    ["Weight maintenance", "Energy optimization"],
    "Moderate",
    ["None"],
    ["None"])

  /**
   * The item "parser": it ignores the recognised text and always yields the
   * same three items.
   */
  function ParseMenuItems(text: string): (items: seq<MenuItem>)
    ensures |items| == 3
    ensures items[0].id == "1" && items[1].id == "2" && items[2].id == "3"
  {
    [
      MenuItem("1", "Picante De La Casa", Some("Cazadores Reposado, lime, chili, cilantro"), "$19", "HOUSE TONICS"),
      MenuItem("2", "Eastern Standard", Some("42 Below or Bombay Sapphire, lime, cucumber, mint"), "$19", "HOUSE TONICS"),
      MenuItem("3", "Bitburger non-alcoholic pilsner", Some("Non-alcoholic beer from Germany"), "$9", "BOTTLES & CAN")
    ]
  }

  /** The parsed list does not depend on the recognised text. */
  lemma ParseIgnoresText(a: string, b: string)
    ensures ParseMenuItems(a) == ParseMenuItems(b)
  {
  }

  const AlcoholWarning: string := "Contains alcohol - not suitable during pregnancy or when driving"

  const SamplePicante: AnalyzedItem := AnalyzedItem(
    MenuItem("1", "Picante De La Casa", Some("Cazadores Reposado, lime, chili, cilantro"), "$19", "HOUSE TONICS"),
    45, BalancedLabel,
    NutritionalInfo("0-2g", "5-8g", "0-1g", "120-150"),
    ["Moderate alcohol content may cause mild relaxation",
     "Chili can boost metabolism temporarily",
     "May cause mild dehydration due to alcohol content"],
    ["Regular consumption may contribute to increased alcohol tolerance",
     "Moderate impact on liver health if consumed regularly",
     "Neutral impact on weight management goals"],
    ["Ask for less alcohol for a lighter option",
     "Request extra lime for vitamin C boost",
     "Ask for mild chili if you're sensitive to spice"],
    [AlcoholWarning],
    ["Contains alcohol", "Gluten-free", "Low calorie"])

  const SampleEastern: AnalyzedItem := AnalyzedItem(
    MenuItem("2", "Eastern Standard", Some("42 Below or Bombay Sapphire, lime, cucumber, mint"), "$19", "HOUSE TONICS"),
    48, BalancedLabel,
    NutritionalInfo("0-1g", "6-9g", "0-1g", "130-160"),
    ["Cucumber and mint provide refreshing hydration",
     "Moderate alcohol content may cause mild relaxation",
     "Mint may aid digestion"],
    ["Regular consumption may contribute to increased alcohol tolerance",
     "Moderate impact on liver health if consumed regularly",
     "Neutral impact on weight management goals"],
    ["Ask for extra cucumber for added hydration",
     "Request less alcohol for a lighter option",
     "Add a splash of soda water to dilute alcohol content"],
    [AlcoholWarning],
    ["Contains alcohol", "Gluten-free", "Low calorie"])

  const SampleBitburger: AnalyzedItem := AnalyzedItem(
    MenuItem("3", "Bitburger non-alcoholic pilsner", Some("Non-alcoholic beer from Germany"), "$9", "BOTTLES & CAN"),
    78, HealthiestLabel,
    NutritionalInfo("0-1g", "10-15g", "0g", "50-80"),
    ["No alcohol means no impairment or relaxation effects",
     "Provides hydration similar to other non-alcoholic beverages",
     "Beer flavor without alcohol-related side effects"],
    ["No impact on liver health from alcohol",
     "Lower calorie content supports weight management goals",
     "Suitable for those avoiding alcohol for health, religious, or personal reasons"],
    ["None needed - already a healthier alternative"],
    ["May contain trace amounts of alcohol (typically <0.5%)",
     "Still contains calories and carbs despite being non-alcoholic"],
    ["Non-alcoholic", "Low calorie"])

  /** The fixed fallback list shown when a run fails or the reply has no results. */
  const SampleMenuItems: seq<AnalyzedItem> := [SamplePicante, SampleEastern, SampleBitburger]

  /**
   * The fallback list describes the parsed items, in order, and each stored
   * category is the one its stored score falls in.
   */
  lemma SampleItemsConsistent(text: string)
    ensures |SampleMenuItems| == |ParseMenuItems(text)| == 3
    ensures forall i :: 0 <= i < 3 ==> SampleMenuItems[i].item == ParseMenuItems(text)[i]
    ensures forall i :: 0 <= i < 3 ==>
              SampleMenuItems[i].healthCategory == CategoryFor(SampleMenuItems[i].healthScore)
  {
    assert CategoryFor(45) == BalancedLabel;
    assert CategoryFor(48) == BalancedLabel;
    assert CategoryFor(78) == HealthiestLabel;
  }

  /** The request a run sends to the analysis endpoint. */
  function AnalysisRequest(text: string): AnalyzeMenu.Request {
    AnalyzeMenu.Request(
      "POST",
      AnalyzeMenu.Items(ParseMenuItems(text)),
      Some(AnalyzeMenu.RequestProfile(Some(AnalysisProfile.allergies))))
  }

  /**
   * Served by the analysis endpoint, the request of a run is always accepted:
   * three results, one per parsed item in order, none with an allergy warning
   * (the profile's only allergy is the "None" sentinel).
   */
  lemma AnalysisRequestAccepted(text: string)
    ensures AnalyzeMenu.Handle(AnalysisRequest(text)).status == 200
    ensures var results := AnalyzeMenu.Handle(AnalysisRequest(text)).body.results;
            |results| == 3 &&
            (forall i :: 0 <= i < 3 ==> results[i].item == ParseMenuItems(text)[i]) &&
            (forall i :: 0 <= i < 3 ==> results[i].warnings == [AnalyzeMenu.NoWarnings])
  {
    var items := ParseMenuItems(text);
    var results := AnalyzeMenu.Handle(AnalysisRequest(text)).body.results;
    forall i | 0 <= i < 3 ensures results[i].warnings == [AnalyzeMenu.NoWarnings] {
      AnalyzeMenu.SentinelNeverWarns(AnalyzeMenu.ItemText(items[i]));
    }
  }

  /** How a run ended. */
  datatype Ending = Succeeded | Failed

  /** The observable state after a run, and the list the run returns. */
  datatype RunState = RunState(
    menuItems: seq<AnalyzedItem>,
    isLoading: bool,
    progress: int,
    error: string,
    checkpoints: seq<int>,
    returned: seq<AnalyzedItem>,
    ending: Ending)

  /** The state a run leaves when it fails after setting `checkpoints`. */
  function FailedRun(checkpoints: seq<int>): RunState
    requires checkpoints != []
  {
    RunState(SampleMenuItems, false, checkpoints[|checkpoints| - 1], FailureMessage,
             checkpoints, SampleMenuItems, Failed)
  }

  /**
   * The run as a function of the outcomes of its steps: the file read, the
   * text-recognition reply and the analysis reply. A failure keeps the
   * checkpoints set before the step that threw.
   */
  function Run(fileRead: bool, ocr: OcrReply, reply: AnalysisReply): (r: RunState)
    ensures !r.isLoading && r.returned == r.menuItems
    ensures r.ending == Succeeded <==> fileRead && ocr.OcrBody? && reply.Reply?
    ensures r.ending == Failed <==> r.error != ""
    ensures r.ending == Failed ==> r.error == FailureMessage && r.menuItems == SampleMenuItems
  {
    if !fileRead then FailedRun([0])
    else if ocr.OcrFailed? then FailedRun([0, 20])
    else if ocr.OcrNullBody? then FailedRun([0, 20, 50])
    else if reply.ReplyFailed? then FailedRun([0, 20, 50])
    else if reply.ReplyNullBody? then FailedRun([0, 20, 50, 90])
    else
      var items := if reply.results.Some? then reply.results.value else SampleMenuItems;
      RunState(items, false, 100, "", [0, 20, 50, 90, 100], items, Succeeded)
  }

  /**
   * Every run ends not loading, with progress at the last checkpoint it set;
   * checkpoints start at 0 and never decrease; the returned list is the
   * stored list.
   */
  lemma RunInvariants(fileRead: bool, ocr: OcrReply, reply: AnalysisReply)
    ensures var s := Run(fileRead, ocr, reply);
            !s.isLoading && s.checkpoints != [] && s.checkpoints[0] == 0 &&
            NonDecreasing(s.checkpoints) &&
            s.progress == s.checkpoints[|s.checkpoints| - 1] &&
            s.returned == s.menuItems
  {
  }

  /** A run succeeds exactly when every step does, and then passes 0, 20, 50, 90, 100. */
  lemma RunSuccess(fileRead: bool, ocr: OcrReply, reply: AnalysisReply)
    ensures Run(fileRead, ocr, reply).ending == Succeeded <==>
              fileRead && ocr.OcrBody? && reply.Reply?
    ensures Run(fileRead, ocr, reply).ending == Succeeded ==>
              var s := Run(fileRead, ocr, reply);
              s.checkpoints == [0, 20, 50, 90, 100] && s.progress == 100 && s.error == "" &&
              s.menuItems == (if reply.results.Some? then reply.results.value else SampleMenuItems)
  {
  }

  /**
   * A failed run shows the error message and the sample items, and keeps the
   * checkpoints set before the failing step: 0 for the file read, 20 for the
   * text-recognition response, 50 for its body or the analysis response, 90
   * for a `null` analysis body.
   */
  lemma RunFailure(fileRead: bool, ocr: OcrReply, reply: AnalysisReply)
    ensures Run(fileRead, ocr, reply).ending == Failed ==>
              var s := Run(fileRead, ocr, reply);
              s.error == FailureMessage && s.menuItems == SampleMenuItems &&
              s.returned == SampleMenuItems && s.progress < 100
    ensures !fileRead ==> Run(fileRead, ocr, reply).checkpoints == [0]
    ensures fileRead && ocr.OcrFailed? ==> Run(fileRead, ocr, reply).checkpoints == [0, 20]
    ensures fileRead && ocr.OcrNullBody? ==> Run(fileRead, ocr, reply).checkpoints == [0, 20, 50]
    ensures fileRead && ocr.OcrBody? && reply.ReplyFailed? ==>
              Run(fileRead, ocr, reply).checkpoints == [0, 20, 50]
    ensures fileRead && ocr.OcrBody? && reply.ReplyNullBody? ==>
              Run(fileRead, ocr, reply).checkpoints == [0, 20, 50, 90]
  {
  }

  /** The hook's four state fields, with the checkpoints of the latest run as a ghost record. */
  class MenuAnalyzer {
    var menuItems: seq<AnalyzedItem>
    var isLoading: bool
    var progress: int
    var error: string
    ghost var checkpoints: seq<int>

    constructor ()
      ensures menuItems == [] && !isLoading && progress == 0 && error == "" && checkpoints == []
    {
      menuItems, isLoading, progress, error := [], false, 0, "";
      checkpoints := [];
    }

    method SetProgress(value: int)
      modifies this
      ensures progress == value && checkpoints == old(checkpoints) + [value]
      ensures menuItems == old(menuItems) && isLoading == old(isLoading) && error == old(error)
    {
      progress := value;
      checkpoints := checkpoints + [value];
    }

    /** The start of a run: loading, progress 0, no error; the shown items stay until the run ends. */
    method Begin()
      modifies this
      ensures isLoading && progress == 0 && error == "" && checkpoints == [0]
      ensures menuItems == old(menuItems)
    {
      isLoading := true;
      checkpoints := [];
      SetProgress(0);
      error := "";
    }

    /** The state now, read as a run's outcome. */
    ghost predicate Shows(s: RunState) reads this {
      menuItems == s.menuItems && isLoading == s.isLoading && progress == s.progress &&
      error == s.error && checkpoints == s.checkpoints
    }

    /** Records the failure of a run (the `catch` block). */
    method Fail() returns (items: seq<AnalyzedItem>)
      requires checkpoints != [] && progress == checkpoints[|checkpoints| - 1]
      modifies this
      ensures Shows(FailedRun(old(checkpoints))) && items == SampleMenuItems
    {
      error := FailureMessage;
      isLoading := false;
      menuItems := SampleMenuItems;
      items := SampleMenuItems;
    }

    /** One run, step by step, on the given outcomes of its steps. */
    method AnalyzeMenu(fileRead: bool, ocr: OcrReply, reply: AnalysisReply)
      returns (items: seq<AnalyzedItem>)
      modifies this
      ensures Shows(Run(fileRead, ocr, reply))
      ensures items == Run(fileRead, ocr, reply).returned
    {
      Begin();

      if !fileRead {
        items := Fail();
        return;
      }
      SetProgress(20);

      if ocr.OcrFailed? {
        items := Fail();
        return;
      }
      SetProgress(50);
      if ocr.OcrNullBody? {
        items := Fail();
        return;
      }
      var parsed := ParseMenuItems(ocr.text.GetOr(""));

      if reply.ReplyFailed? {
        items := Fail();
        return;
      }
      SetProgress(90);
      if reply.ReplyNullBody? {
        items := Fail();
        return;
      }

      menuItems := if reply.results.Some? then reply.results.value else SampleMenuItems;
      SetProgress(100);
      isLoading := false;
      items := if reply.results.Some? then reply.results.value else SampleMenuItems;
    }
  }
}
