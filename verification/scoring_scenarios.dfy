/**
 * Worked examples of the keyword scorer: two menu items and one allergy
 * check, each computed from the scoring rules.
 */
module ScoringScenarios {
  import opened Wrappers
  import opened Text
  import opened Menu
  import opened AnalyzeMenu

  /** The searched text of an item, character by character. */
  lemma ItemTextIs(item: MenuItem, text: string)
    requires |item.name + " " + item.description.GetOr("")| == |text|
    requires forall i :: 0 <= i < |text| ==>
               LowerChar((item.name + " " + item.description.GetOr(""))[i]) == text[i]
    ensures ItemText(item) == text
  {
  }

  const SaladItem: MenuItem := MenuItem("1", "Grilled Salad with Lean Chicken", None, "$12", "MAINS")
  const SaladText: string := "grilled salad with lean chicken "

  lemma SaladItemText()
    ensures ItemText(SaladItem) == SaladText
  {
    ItemTextIs(SaladItem, SaladText);
  }

  lemma SaladPresent()
    ensures Contains(SaladText, "salad") && Contains(SaladText, "grilled")
    ensures Contains(SaladText, "lean") && Contains(SaladText, "chicken")
  {
    OccursAt(SaladText, "salad", 8);
    OccursAt(SaladText, "grilled", 0);
    OccursAt(SaladText, "lean", 19);
    OccursAt(SaladText, "chicken", 24);
  }

  lemma SaladLacksLettersA()
    ensures 'm' !in SaladText && 'b' !in SaladText && 'v' !in SaladText
  {
  }

  lemma SaladLacksLettersB()
    ensures 'f' !in SaladText && 'u' !in SaladText && 'o' !in SaladText
  {
  }

  /** Healthy keywords one of whose letters is missing from the text. */
  lemma SaladAbsentHealthy()
    ensures !Contains(SaladText, "steamed") && !Contains(SaladText, "baked")
    ensures !Contains(SaladText, "vegetable") && !Contains(SaladText, "fruit")
  {
    SaladLacksLettersA();
    SaladLacksLettersB();
    AbsentLetter(SaladText, "steamed", 'm');
    AbsentLetter(SaladText, "baked", 'b');
    AbsentLetter(SaladText, "vegetable", 'v');
    AbsentLetter(SaladText, "fruit", 'f');
  }

  /** Unhealthy keywords one of whose letters is missing from the text. */
  lemma SaladAbsentUnhealthy()
    ensures !Contains(SaladText, "fried") && !Contains(SaladText, "cream")
    ensures !Contains(SaladText, "butter") && !Contains(SaladText, "sugar")
    ensures !Contains(SaladText, "chocolate") && !Contains(SaladText, "bacon")
    ensures !Contains(SaladText, "low")
  {
    SaladLacksLettersA();
    SaladLacksLettersB();
    AbsentLetter(SaladText, "fried", 'f');
    AbsentLetter(SaladText, "cream", 'm');
    AbsentLetter(SaladText, "butter", 'b');
    AbsentLetter(SaladText, "sugar", 'u');
    AbsentLetter(SaladText, "chocolate", 'o');
    AbsentLetter(SaladText, "bacon", 'b');
    AbsentLetter(SaladText, "low", 'o');
  }

  /** "sweet": its 'w' occurs only in "with", which is too short to hold it. */
  lemma SaladNotSweet()
    ensures !Contains(SaladText, "sweet")
  {
    var rest := "with lean chicken ";
    assert SaladText == "grilled salad" + " " + rest;
    assert rest == "with" + " " + "lean chicken ";
    assert !Contains("with", "sweet");
    ContainsAcrossSpace("with", "lean chicken ", "sweet");
    AbsentLetter("lean chicken ", "sweet", 'w');
    ContainsAcrossSpace("grilled salad", rest, "sweet");
    AbsentLetter("grilled salad", "sweet", 'w');
  }

  lemma SaladCounts()
    ensures CountPresent(SaladText, HealthyKeywords) == 3
    ensures CountPresent(SaladText, UnhealthyKeywords) == 0
  {
    var t := SaladText;
    SaladPresent();
    SaladAbsentHealthy();
    SaladAbsentUnhealthy();
    SaladNotSweet();
    var H := HealthyKeywords;
    CountPresentStep(t, H, 0); CountPresentStep(t, H, 1); CountPresentStep(t, H, 2);
    CountPresentStep(t, H, 3); CountPresentStep(t, H, 4); CountPresentStep(t, H, 5);
    CountPresentStep(t, H, 6);
    assert H[..0] == [] && H[..7] == H;
    var U := UnhealthyKeywords;
    CountPresentStep(t, U, 0); CountPresentStep(t, U, 1); CountPresentStep(t, U, 2);
    CountPresentStep(t, U, 3); CountPresentStep(t, U, 4); CountPresentStep(t, U, 5);
    CountPresentStep(t, U, 6);
    assert U[..0] == [] && U[..7] == U;
  }

  /** "Grilled Salad with Lean Chicken" scores 50 + 15 = 65, Balanced, High-Protein and Nutrient-Dense. */
  lemma GrilledSaladScenario()
    ensures Analysis(SaladItem, None).healthScore == 65
    ensures Analysis(SaladItem, None).healthCategory == BalancedLabel
    ensures Analysis(SaladItem, None).dietaryTags == [HighProteinTag, NutrientDenseTag]
    ensures Analysis(SaladItem, None).warnings == [NoWarnings]
  {
    SaladItemText();
    SaladCounts();
    SaladPresent();
    SaladAbsentUnhealthy();
    assert HealthScore(SaladText) == 65;
    assert DietaryTags(SaladText) == [HighProteinTag, NutrientDenseTag];
  }

  const FriedItem: MenuItem := MenuItem("2", "Deep Fried Bacon with Chocolate Sauce", None, "$9", "SIDES")
  const FriedText: string := "deep fried bacon with chocolate sauce "

  lemma FriedItemText()
    ensures ItemText(FriedItem) == FriedText
  {
    ItemTextIs(FriedItem, FriedText);
  }

  lemma FriedPresent()
    ensures Contains(FriedText, "fried") && Contains(FriedText, "bacon") && Contains(FriedText, "chocolate")
  {
    OccursAt(FriedText, "fried", 5);
    OccursAt(FriedText, "bacon", 11);
    OccursAt(FriedText, "chocolate", 22);
  }

  lemma FriedLacksLettersA()
    ensures 'g' !in FriedText && 'm' !in FriedText
  {
  }

  lemma FriedLacksLettersB()
    ensures 'k' !in FriedText && 'v' !in FriedText
  {
  }

  /** Keywords one of whose letters is missing from the text. */
  lemma FriedAbsentByLetter()
    ensures !Contains(FriedText, "grilled") && !Contains(FriedText, "steamed")
    ensures !Contains(FriedText, "baked") && !Contains(FriedText, "vegetable")
    ensures !Contains(FriedText, "cream") && !Contains(FriedText, "sugar")
  {
    FriedLacksLettersA();
    FriedLacksLettersB();
    AbsentLetter(FriedText, "grilled", 'g');
    AbsentLetter(FriedText, "steamed", 'm');
    AbsentLetter(FriedText, "baked", 'k');
    AbsentLetter(FriedText, "vegetable", 'v');
    AbsentLetter(FriedText, "cream", 'm');
    AbsentLetter(FriedText, "sugar", 'g');
  }

  const FriedLeft: string := "deep fried bacon with"
  const FriedRight: string := "chocolate sauce "

  lemma FriedSides()
    ensures FriedText == FriedLeft + " " + FriedRight
    ensures 'l' !in FriedLeft && 'u' !in FriedLeft
  {
  }

  lemma FriedRightLacks()
    ensures 'd' !in FriedRight && 'f' !in FriedRight && 'n' !in FriedRight
    ensures 'b' !in FriedRight && 'w' !in FriedRight
  {
  }

  /** Healthy keywords whose letters all occur, but never on the same side of the space after "with". */
  lemma FriedAbsentBySplitHealthy()
    ensures !Contains(FriedText, "salad") && !Contains(FriedText, "fruit") && !Contains(FriedText, "lean")
  {
    FriedSides();
    FriedRightLacks();
    AbsentOnBothSides(FriedLeft, FriedRight, "salad", 'l', 'd');
    AbsentOnBothSides(FriedLeft, FriedRight, "fruit", 'u', 'f');
    AbsentOnBothSides(FriedLeft, FriedRight, "lean", 'l', 'n');
  }

  /** "butter" and "sweet" likewise; the 'w' of "sweet" is only in "with", too short to hold it. */
  lemma FriedAbsentBySplitUnhealthy()
    ensures !Contains(FriedText, "butter") && !Contains(FriedText, "sweet")
  {
    FriedSides();
    FriedRightLacks();
    AbsentOnBothSides(FriedLeft, FriedRight, "butter", 'u', 'b');
    assert FriedLeft == "deep fried bacon" + " " + "with";
    assert !Contains("with", "sweet");
    AbsentLetter("deep fried bacon", "sweet", 'w');
    ContainsAcrossSpace("deep fried bacon", "with", "sweet");
    ContainsAcrossSpace(FriedLeft, FriedRight, "sweet");
    AbsentLetter(FriedRight, "sweet", 'w');
  }

  lemma FriedCounts()
    ensures CountPresent(FriedText, HealthyKeywords) == 0
    ensures CountPresent(FriedText, UnhealthyKeywords) == 3
  {
    var t := FriedText;
    FriedPresent();
    FriedAbsentByLetter();
    FriedAbsentBySplitHealthy();
    FriedAbsentBySplitUnhealthy();
    var H := HealthyKeywords;
    CountPresentStep(t, H, 0); CountPresentStep(t, H, 1); CountPresentStep(t, H, 2);
    CountPresentStep(t, H, 3); CountPresentStep(t, H, 4); CountPresentStep(t, H, 5);
    CountPresentStep(t, H, 6);
    assert H[..0] == [] && H[..7] == H;
    var U := UnhealthyKeywords;
    CountPresentStep(t, U, 0); CountPresentStep(t, U, 1); CountPresentStep(t, U, 2);
    CountPresentStep(t, U, 3); CountPresentStep(t, U, 4); CountPresentStep(t, U, 5);
    CountPresentStep(t, U, 6);
    assert U[..0] == [] && U[..7] == U;
  }

  /**
   * "Deep Fried Bacon with Chocolate Sauce" scores 50 - 15 = 35: above 30,
   * so Balanced rather than Indulgent.
   */
  lemma DeepFriedScenario()
    ensures Analysis(FriedItem, None).healthScore == 35
    ensures Analysis(FriedItem, None).healthCategory == BalancedLabel
  {
    FriedItemText();
    FriedCounts();
    assert HealthScore(FriedText) == 35;
  }

  const PeanutItem: MenuItem := MenuItem("3", "Satay", Some("Peanuts"), "$11", "STARTERS")
  const PeanutText: string := "satay peanuts"

  lemma PeanutItemText()
    ensures ItemText(PeanutItem) == PeanutText
  {
    ItemTextIs(PeanutItem, PeanutText);
  }

  lemma PeanutTriggers()
    ensures Triggers(PeanutText, "Peanuts")
  {
    assert Lower("Peanuts") == "peanuts";
    OccursAt(PeanutText, "peanuts", 6);
  }

  /** An allergy to "Peanuts" and a description mentioning peanuts give exactly one warning. */
  lemma PeanutScenario()
    ensures Analysis(PeanutItem, Some(["Peanuts"])).warnings == ["Contains Peanuts, which you are allergic to"]
  {
    PeanutItemText();
    PeanutTriggers();
    var allergies := ["Peanuts"];
    assert allergies[..0] == [];
    assert AllergyMatches(PeanutText, allergies) == [WarningFor("Peanuts")];
    PeanutWarningText();
    assert Warnings(PeanutText, Some(allergies)) == [WarningFor("Peanuts")];
  }

  lemma PeanutWarningText()
    ensures WarningFor("Peanuts") == "Contains Peanuts, which you are allergic to"
  {
  }

  const PeanutSauceItem: MenuItem := MenuItem("4", "Satay", Some("Peanut sauce"), "$11", "STARTERS")
  const PeanutSauceText: string := "satay peanut sauce"

  lemma PeanutSauceItemText()
    ensures ItemText(PeanutSauceItem) == PeanutSauceText
  {
    ItemTextIs(PeanutSauceItem, PeanutSauceText);
  }

  /** "peanuts" is not a substring of "satay peanut sauce": no part of the text around a space holds it. */
  lemma PeanutsAbsentFromSauce()
    ensures !Contains(PeanutSauceText, "peanuts")
  {
    assert PeanutSauceText == "satay peanut" + " " + "sauce";
    assert "satay peanut" == "satay" + " " + "peanut";
    ContainsAcrossSpace("satay", "peanut", "peanuts");
    AbsentLetter("satay", "peanuts", 'p');
    AbsentLetter("peanut", "peanuts", 's');
    ContainsAcrossSpace("satay peanut", "sauce", "peanuts");
    AbsentLetter("sauce", "peanuts", 'p');
  }

  lemma PluralMisses()
    ensures !Triggers(PeanutSauceText, "Peanuts")
  {
    PeanutsAbsentFromSauce();
    assert Lower("Peanuts") == "peanuts";
  }

  lemma SingularTriggers()
    ensures Triggers(PeanutSauceText, "Peanut")
  {
    assert Lower("Peanut") == "peanut";
    OccursAt(PeanutSauceText, "peanut", 6);
  }

  lemma SingularWarningText()
    ensures WarningFor("Peanut") == "Contains Peanut, which you are allergic to"
  {
  }

  /**
   * The allergy test is a literal substring test with no plural handling: an
   * allergy to "Peanuts" gives no warning for a "Peanut sauce", while an
   * allergy to "Peanut" does.
   */
  lemma PluralAllergyMissesSingular()
    ensures Analysis(PeanutSauceItem, Some(["Peanuts"])).warnings == [NoWarnings]
    ensures Analysis(PeanutSauceItem, Some(["Peanut"])).warnings == ["Contains Peanut, which you are allergic to"]
  {
    PeanutSauceItemText();
    PluralMisses();
    var plural := ["Peanuts"];
    assert plural[..0] == [];
    assert AllergyMatches(PeanutSauceText, plural) == [];
    SingularTriggers();
    var singular := ["Peanut"];
    assert singular[..0] == [];
    assert AllergyMatches(PeanutSauceText, singular) == [WarningFor("Peanut")];
    SingularWarningText();
  }
}
