/**
 * The records that travel between the hooks, the analysis endpoint and the
 * result card: a raw menu item, its analysed form, and a user profile.
 */
module Menu {
  import opened Wrappers

  /** A menu item as the parser produces it. */
  datatype MenuItem = MenuItem(
    id: string,
    name: string,
    description: Option<string>,
    price: string,
    category: string)

  /** Free-form range strings such as "15-20g". */
  datatype NutritionalInfo = NutritionalInfo(
    protein: string,
    carbs: string,
    fat: string,
    calories: string)

  /**
   * A menu item with its assessment. The original item's fields are kept
   * whole in `item` (the object spread `...item` of the endpoint).
   */
  datatype AnalyzedItem = AnalyzedItem(
    item: MenuItem,
    healthScore: int,
    healthCategory: string,
    nutritionalInfo: NutritionalInfo,
    shortTermEffects: seq<string>,
    longTermEffects: seq<string>,
    modifications: seq<string>,
    warnings: seq<string>,
    dietaryTags: seq<string>)

  /** The user profile record kept by the profile hook. */
  datatype Profile = Profile(
    dietaryPreferences: seq<string>,
    healthGoals: seq<string>,
    activityLevel: string,
    allergies: seq<string>,
    medicalConditions: seq<string>)

  const HealthiestLabel: string := "Healthiest"
  const BalancedLabel: string := "Balanced"
  const IndulgentLabel: string := "Indulgent"

  /**
   * The category a score falls in: 70 and above is Healthiest, 30 and below
   * is Indulgent, everything between is Balanced.
   */
  function CategoryFor(score: int): (c: string)
    ensures c == HealthiestLabel <==> score >= 70
    ensures c == IndulgentLabel <==> score <= 30
    ensures c == BalancedLabel <==> 30 < score < 70
  {
    if score >= 70 then HealthiestLabel
    else if score <= 30 then IndulgentLabel
    else BalancedLabel
  }
}
