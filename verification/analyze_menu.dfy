/**
 * The menu analysis endpoint: a request check (method and `menuItems`)
 * followed by a keyword health scorer applied to every item.
 */
module AnalyzeMenu {
  import opened Wrappers
  import opened Text
  import opened Menu

  const HealthyKeywords: seq<string> :=
    ["salad", "grilled", "steamed", "baked", "vegetable", "fruit", "lean"]
  const UnhealthyKeywords: seq<string> :=
    ["fried", "cream", "butter", "sugar", "sweet", "chocolate", "bacon"]

  const BaseScore: int := 50
  const KeywordWeight: int := 5

  const HighProteinTag: string := "High-Protein"
  const NutrientDenseTag: string := "Nutrient-Dense"
  const LowCarbTag: string := "Low-Carb"
  const NoAllergySentinel: string := "None"
  const NoWarnings: string := "No specific warnings for your profile"

  /** The fixed nutrition placeholder attached to every analysed item. */
  const DefaultNutrition: NutritionalInfo := NutritionalInfo("15-20g", "30-40g", "10-15g", "300-400")
  const DefaultShortTermEffects: seq<string> := ["Provides moderate energy", "Typical digestion time"]
  const DefaultLongTermEffects: seq<string> := ["Neutral impact on health goals", "Balanced nutrient profile"]
  const DefaultModifications: seq<string> :=
    ["Ask for dressing on the side to reduce calories", "Request less salt if watching sodium"]

  /** The text every rule searches: lower-cased `name + " " + (description || "")`. */
  function ItemText(item: MenuItem): (t: string)
    ensures |t| == |item.name| + 1 + |item.description.GetOr("")|
    ensures t[..|item.name|] == Lower(item.name)
    ensures t[|item.name|] == ' '
    ensures t[|item.name| + 1..] == Lower(item.description.GetOr(""))
    ensures forall i :: 0 <= i < |t| ==> !('A' <= t[i] <= 'Z')
  {
    Lower(item.name + " " + item.description.GetOr(""))
  }

  // ---------------------------------------------------------------- score

  /** How many entries of `keywords` occur in `text`. */
  function CountPresent(text: string, keywords: seq<string>): nat
    decreases |keywords|
  {
    if keywords == [] then 0
    else
      CountPresent(text, keywords[..|keywords| - 1])
        + (if Contains(text, keywords[|keywords| - 1]) then 1 else 0)
  }

  /** Counting one more keyword adds one exactly when it occurs. */
  lemma CountPresentStep(text: string, keywords: seq<string>, i: nat)
    requires i < |keywords|
    ensures CountPresent(text, keywords[..i + 1])
              == CountPresent(text, keywords[..i]) + (if Contains(text, keywords[i]) then 1 else 0)
  {
    assert keywords[..i + 1][..i] == keywords[..i];
  }

  /** The set of distinct keywords that occur in `text`. */
  function PresentSet(text: string, keywords: seq<string>): set<string> {
    set k | k in keywords && Contains(text, k)
  }

  function Clamp(lo: int, hi: int, x: int): int
    requires lo <= hi
  {
    if x < lo then lo else if x > hi then hi else x
  }

  /** The score before clamping: 50, plus 5 per healthy and minus 5 per unhealthy keyword present. */
  function RawScore(text: string): int {
    BaseScore + KeywordWeight * CountPresent(text, HealthyKeywords)
      - KeywordWeight * CountPresent(text, UnhealthyKeywords)
  }

  /** The health score of a search text: the raw score clamped to [0, 100]. */
  function HealthScore(text: string): (s: int)
    ensures 0 <= s <= 100
  {
    Clamp(0, 100, RawScore(text))
  }

  lemma {:induction false} CountPresentBound(text: string, keywords: seq<string>)
    ensures CountPresent(text, keywords) <= |keywords|
    decreases |keywords|
  {
    if keywords != [] {
      CountPresentBound(text, keywords[..|keywords| - 1]);
    }
  }

  /**
   * For a keyword list without repeats, the count equals the number of
   * distinct keywords present: each keyword counts at most once.
   */
  lemma {:induction false} CountPresentIsDistinctCount(text: string, keywords: seq<string>)
    requires forall i, j :: 0 <= i < j < |keywords| ==> keywords[i] != keywords[j]
    ensures CountPresent(text, keywords) == |PresentSet(text, keywords)|
    decreases |keywords|
  {
    if keywords != [] {
      var init := keywords[..|keywords| - 1];
      var last := keywords[|keywords| - 1];
      CountPresentIsDistinctCount(text, init);
      assert last !in init by {
        forall i | 0 <= i < |init| ensures init[i] != last {
          assert keywords[i] == init[i];
        }
      }
      assert keywords == init + [last];
      if Contains(text, last) {
        assert PresentSet(text, keywords) == PresentSet(text, init) + {last};
      } else {
        assert PresentSet(text, keywords) == PresentSet(text, init);
      }
    }
  }

  /**
   * With seven keywords on each side the raw score is a multiple of 5 in
   * [15, 85], so the clamp never changes it; it counts distinct keywords.
   */
  lemma ScoreShape(text: string)
    ensures HealthScore(text) == RawScore(text)
    ensures 15 <= HealthScore(text) <= 85
    ensures HealthScore(text) % 5 == 0
    ensures HealthScore(text) == 50 + 5 * |PresentSet(text, HealthyKeywords)|
                                    - 5 * |PresentSet(text, UnhealthyKeywords)|
  {
    CountPresentBound(text, HealthyKeywords);
    CountPresentBound(text, UnhealthyKeywords);
    CountPresentIsDistinctCount(text, HealthyKeywords);
    CountPresentIsDistinctCount(text, UnhealthyKeywords);
  }

  /** A score the scorer can produce is never 48 (the score of one of the sample items). */
  lemma SampleScoreUnreachable(text: string)
    ensures HealthScore(text) != 48
  {
    ScoreShape(text);
  }

  /** The two `forEach` loops of the scorer and its clamp. */
  method ScoreText(text: string) returns (score: int)
    ensures score == HealthScore(text)
  {
    score := BaseScore;
    for i := 0 to |HealthyKeywords|
      invariant score == BaseScore + KeywordWeight * CountPresent(text, HealthyKeywords[..i])
    {
      assert HealthyKeywords[..i + 1][..i] == HealthyKeywords[..i];
      if Contains(text, HealthyKeywords[i]) {
        score := score + KeywordWeight;
      }
    }
    assert HealthyKeywords[..|HealthyKeywords|] == HealthyKeywords;
    ghost var afterHealthy := score;
    for i := 0 to |UnhealthyKeywords|
      invariant score == afterHealthy - KeywordWeight * CountPresent(text, UnhealthyKeywords[..i])
    {
      assert UnhealthyKeywords[..i + 1][..i] == UnhealthyKeywords[..i];
      if Contains(text, UnhealthyKeywords[i]) {
        score := score - KeywordWeight;
      }
    }
    assert UnhealthyKeywords[..|UnhealthyKeywords|] == UnhealthyKeywords;
    score := if score < 100 then score else 100;
    score := if 0 < score then score else 0;
  }

  // ---------------------------------------------------------------- tags

  predicate ProteinRule(text: string) {
    Contains(text, "protein") || Contains(text, "chicken") || Contains(text, "beef") || Contains(text, "fish")
  }

  predicate NutrientRule(text: string) {
    Contains(text, "salad") || Contains(text, "vegetable")
  }

  predicate LowCarbRule(text: string) {
    Contains(text, "low") && (Contains(text, "carb") || Contains(text, "calorie"))
  }

  /** Position of a tag in the order the rules are applied. */
  function TagRank(tag: string): nat {
    if tag == HighProteinTag then 0 else if tag == NutrientDenseTag then 1 else 2
  }

  /**
   * The dietary tags: one per rule that fires, in rule order, and
   * `["Balanced"]` when none fires.
   */
  function DietaryTags(text: string): (tags: seq<string>)
    ensures tags != []
    ensures HighProteinTag in tags <==> ProteinRule(text)
    ensures NutrientDenseTag in tags <==> NutrientRule(text)
    ensures LowCarbTag in tags <==> LowCarbRule(text)
    ensures tags == [BalancedLabel] <==> !ProteinRule(text) && !NutrientRule(text) && !LowCarbRule(text)
    ensures tags != [BalancedLabel] ==>
              forall t :: t in tags ==> t in {HighProteinTag, NutrientDenseTag, LowCarbTag}
    ensures tags != [BalancedLabel] ==>
              forall i, j :: 0 <= i < j < |tags| ==> TagRank(tags[i]) < TagRank(tags[j])
  {
    var fired :=
      (if ProteinRule(text) then [HighProteinTag] else [])
      + (if NutrientRule(text) then [NutrientDenseTag] else [])
      + (if LowCarbRule(text) then [LowCarbTag] else []);
    if fired == [] then [BalancedLabel] else fired
  }

  // ---------------------------------------------------------------- warnings

  /** An allergy yields a warning when it is not the "None" sentinel and its lower-case form occurs. */
  predicate Triggers(text: string, allergy: string): (b: bool)
    ensures allergy == NoAllergySentinel ==> !b
    ensures b ==> |allergy| <= |text|
  {
    allergy != NoAllergySentinel && Contains(text, Lower(allergy))
  }

  function WarningFor(allergy: string): string {
    "Contains " + allergy + ", which you are allergic to"
  }

  /** One warning per triggering allergy, in profile order. */
  function AllergyMatches(text: string, allergies: seq<string>): (m: seq<string>)
    ensures |m| <= |allergies|
    ensures NoWarnings !in m
    decreases |allergies|
  {
    if allergies == [] then []
    else
      var last := allergies[|allergies| - 1];
      assert WarningFor(last)[0] != NoWarnings[0];
      AllergyMatches(text, allergies[..|allergies| - 1])
        + (if Triggers(text, last) then [WarningFor(last)] else [])
  }

  /**
   * The warnings list: the allergy warnings, or the single default entry
   * when there are none (or when the profile gives no allergies).
   */
  function Warnings(text: string, allergies: Option<seq<string>>): (w: seq<string>)
    ensures w != []
    ensures allergies.Some? && AllergyMatches(text, allergies.value) != [] ==>
              w == AllergyMatches(text, allergies.value)
    ensures allergies.None? ==> w == [NoWarnings]
  {
    var found := if allergies.Some? then AllergyMatches(text, allergies.value) else [];
    if found == [] then [NoWarnings] else found
  }

  /**
   * `AllergyMatches` is exactly the triggering allergies' warnings: no more
   * entries than allergies, each one for a triggering allergy, and one for
   * every triggering allergy.
   */
  lemma {:induction false} AllergyMatchesExact(text: string, allergies: seq<string>)
    ensures |AllergyMatches(text, allergies)| <= |allergies|
    ensures forall w :: w in AllergyMatches(text, allergies) <==>
              exists a :: a in allergies && Triggers(text, a) && w == WarningFor(a)
    decreases |allergies|
  {
    if allergies != [] {
      var init := allergies[..|allergies| - 1];
      var last := allergies[|allergies| - 1];
      AllergyMatchesExact(text, init);
      assert allergies == init + [last];
      forall w ensures w in AllergyMatches(text, allergies) <==>
                       exists a :: a in allergies && Triggers(text, a) && w == WarningFor(a)
      {
        if w in AllergyMatches(text, init) {
          var a :| a in init && Triggers(text, a) && w == WarningFor(a);
          assert a in allergies;
        }
      }
    }
  }

  /**
   * The warnings follow the profile: the warnings of a list are those of its
   * first part followed by those of the rest, and one entry yields its own
   * warning exactly when it triggers. So there is one warning per triggering
   * entry, in profile order.
   */
  lemma {:induction false} AllergyMatchesInOrder(text: string, a: seq<string>, b: seq<string>)
    ensures AllergyMatches(text, a + b) == AllergyMatches(text, a) + AllergyMatches(text, b)
    ensures |b| == 1 ==>
              AllergyMatches(text, b) == (if Triggers(text, b[0]) then [WarningFor(b[0])] else [])
    decreases |b|
  {
    if b == [] {
      assert a + b == a;
    } else {
      var init, last := b[..|b| - 1], b[|b| - 1];
      var step := if Triggers(text, last) then [WarningFor(last)] else [];
      assert (a + b)[..|a + b| - 1] == a + init;
      assert (a + b)[|a + b| - 1] == last;
      assert AllergyMatches(text, a + b) == AllergyMatches(text, a + init) + step;
      assert AllergyMatches(text, b) == AllergyMatches(text, init) + step;
      AllergyMatchesInOrder(text, a, init);
      if |b| == 1 {
        assert init == [];
      }
    }
  }

  /** The number of warnings is the number of triggering entries. */
  lemma {:induction false} AllergyMatchesCount(text: string, allergies: seq<string>)
    ensures |AllergyMatches(text, allergies)| == |TriggeringEntries(text, allergies)|
    decreases |allergies|
  {
    if allergies != [] {
      AllergyMatchesCount(text, allergies[..|allergies| - 1]);
    }
  }

  /** The entries of a profile's allergy list that trigger, in order (a `filter`). */
  function TriggeringEntries(text: string, allergies: seq<string>): seq<string>
    decreases |allergies|
  {
    if allergies == [] then []
    else
      var last := allergies[|allergies| - 1];
      TriggeringEntries(text, allergies[..|allergies| - 1]) + (if Triggers(text, last) then [last] else [])
  }

  /** The default entry appears exactly when no allergy triggers. */
  lemma WarningsDefault(text: string, allergies: seq<string>)
    ensures Warnings(text, Some(allergies)) == [NoWarnings] <==>
              forall a :: a in allergies ==> !Triggers(text, a)
  {
    AllergyMatchesExact(text, allergies);
    var found := AllergyMatches(text, allergies);
    if found != [] {
      assert found[0] in found;
      assert found[0] != NoWarnings by {
        var a :| a in allergies && Triggers(text, a) && found[0] == WarningFor(a);
        assert WarningFor(a)[0] != NoWarnings[0];
      }
    } else {
      forall a | a in allergies ensures !Triggers(text, a) {
        assert WarningFor(a) !in found;
      }
    }
  }

  /** The "None" sentinel, or an absent allergy list, never produces a warning. */
  lemma SentinelNeverWarns(text: string)
    ensures Warnings(text, None) == [NoWarnings]
    ensures Warnings(text, Some([NoAllergySentinel])) == [NoWarnings]
  {
    var list := [NoAllergySentinel];
    assert list[..0] == [];
    assert !Triggers(text, list[0]);
    assert AllergyMatches(text, list) == AllergyMatches(text, []) + [];
  }

  /** The allergy `forEach` loop of the scorer and its default entry. */
  method CollectWarnings(text: string, allergies: Option<seq<string>>) returns (warnings: seq<string>)
    ensures warnings == Warnings(text, allergies)
  {
    warnings := [];
    if allergies.Some? {
      var list := allergies.value;
      for i := 0 to |list|
        invariant warnings == AllergyMatches(text, list[..i])
      {
        assert list[..i + 1][..i] == list[..i];
        if list[i] != NoAllergySentinel && Contains(text, Lower(list[i])) {
          warnings := warnings + [WarningFor(list[i])];
        }
      }
      assert list[..|list|] == list;
    }
    if |warnings| == 0 {
      warnings := [NoWarnings];
    }
  }

  // ---------------------------------------------------------------- one item

  /** The analysed form of one item for a profile whose allergies are `allergies`. */
  function Analysis(item: MenuItem, allergies: Option<seq<string>>): (r: AnalyzedItem)
    ensures r.item == item
    ensures 0 <= r.healthScore <= 100
    ensures r.healthCategory == CategoryFor(r.healthScore)
    ensures r.dietaryTags != [] && r.warnings != []
    ensures r.nutritionalInfo == DefaultNutrition
    ensures r.healthScore == HealthScore(ItemText(item))
    ensures r.dietaryTags == DietaryTags(ItemText(item))
    ensures r.warnings == Warnings(ItemText(item), allergies)
    ensures r.shortTermEffects == DefaultShortTermEffects
    ensures r.longTermEffects == DefaultLongTermEffects
    ensures r.modifications == DefaultModifications
  {
    var text := ItemText(item);
    var score := HealthScore(text);
    AnalyzedItem(
      item, score, CategoryFor(score), DefaultNutrition,
      DefaultShortTermEffects, DefaultLongTermEffects, DefaultModifications,
      Warnings(text, allergies), DietaryTags(text))
  }

  /** The body of the scorer's `map` callback, step by step. */
  method AnalyzeItem(item: MenuItem, allergies: Option<seq<string>>) returns (r: AnalyzedItem)
    ensures r == Analysis(item, allergies)
  {
    var text := ItemText(item);
    var score := ScoreText(text);
    var category := BalancedLabel;
    if score >= 70 {
      category := HealthiestLabel;
    } else if score <= 30 {
      category := IndulgentLabel;
    }
    var warnings := CollectWarnings(text, allergies);
    r := AnalyzedItem(
      item, score, category, DefaultNutrition,
      DefaultShortTermEffects, DefaultLongTermEffects, DefaultModifications,
      warnings, DietaryTags(text));
  }

  // ---------------------------------------------------------------- endpoint

  /** The `menuItems` field of a request body. */
  datatype ItemsField = Absent | NotAnArray | Items(items: seq<MenuItem>)

  /** The part of the request's `userProfile` the scorer reads. */
  datatype RequestProfile = RequestProfile(allergies: Option<seq<string>>)

  datatype Request = Request(httpMethod: string, menuItems: ItemsField, userProfile: Option<RequestProfile>)

  datatype Body = ErrorBody(error: string) | ResultsBody(results: seq<AnalyzedItem>)

  datatype Response = Response(status: int, body: Body)

  const MethodNotAllowed: string := "Method not allowed"
  const ItemsRequired: string := "Valid menu items are required"

  /** `userProfile && userProfile.allergies`. */
  function AllergiesOf(profile: Option<RequestProfile>): Option<seq<string>> {
    if profile.Some? then profile.value.allergies else None
  }

  /** The scorer over a whole list: same length, same order, each item kept. */
  function AnalyzeMenuItems(items: seq<MenuItem>, profile: Option<RequestProfile>): (rs: seq<AnalyzedItem>)
    ensures |rs| == |items|
    ensures forall i :: 0 <= i < |items| ==> rs[i].item == items[i]
    ensures forall i :: 0 <= i < |items| ==> rs[i] == Analysis(items[i], AllergiesOf(profile))
  {
    seq(|items|, i requires 0 <= i < |items| => Analysis(items[i], AllergiesOf(profile)))
  }

  /** The request handler: 405 for a non-POST, 400 without a non-empty item list, else 200. */
  function Handle(req: Request): (res: Response)
    ensures res.status == 405 <==> req.httpMethod != "POST"
    ensures res.status == 400 <==>
              req.httpMethod == "POST" && (!req.menuItems.Items? || req.menuItems.items == [])
    ensures res.status in {200, 400, 405}
    ensures res.status == 405 ==> res.body == ErrorBody(MethodNotAllowed)
    ensures res.status == 400 ==> res.body == ErrorBody(ItemsRequired)
    ensures res.status == 200 ==>
              req.menuItems.Items? && res.body.ResultsBody? &&
              res.body.results == AnalyzeMenuItems(req.menuItems.items, req.userProfile)
  {
    if req.httpMethod != "POST" then
      Response(405, ErrorBody(MethodNotAllowed))
    else if !req.menuItems.Items? || |req.menuItems.items| == 0 then
      Response(400, ErrorBody(ItemsRequired))
    else
      Response(200, ResultsBody(AnalyzeMenuItems(req.menuItems.items, req.userProfile)))
  }
}
