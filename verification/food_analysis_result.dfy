/**
 * The result card for one analysed item: a category badge, a score bar, four
 * nutrient values with an "Unknown" fallback, the description and the tags
 * when there are any. A click hands the whole item to the page.
 */
module FoodAnalysisResult {
  import opened Wrappers
  import opened Palette
  import opened Menu
  import AnalyzeMenu

  const UnknownValue: string := "Unknown"

  /**
   * The item as the card receives it: any object with these keys, so the
   * description, the nutrition record and the tag list may be missing.
   */
  datatype CardItem = CardItem(
    name: string,
    description: Option<string>,
    healthScore: int,
    healthCategory: string,
    nutritionalInfo: Option<NutritionalInfo>,
    dietaryTags: Option<seq<string>>)

  /** The four nutrient cells of the card. */
  datatype NutrientCells = NutrientCells(protein: string, carbs: string, fat: string, calories: string)

  /** What the card shows, and what a click on it passes on. */
  datatype Card = Card(
    title: string,
    badge: string,
    badgeColor: Color,
    description: Option<string>,
    barColor: Color,
    barWidth: int,
    scoreLabel: int,
    nutrients: NutrientCells,
    tags: Option<seq<string>>,
    clickPayload: CardItem)

  /** The badge colour: one family per known category, gray for anything else. */
  function CategoryColor(category: string): (c: Color)
    ensures c == Green <==> category == HealthiestLabel
    ensures c == Blue <==> category == BalancedLabel
    ensures c == Orange <==> category == IndulgentLabel
    ensures c == Gray <==> category !in {HealthiestLabel, BalancedLabel, IndulgentLabel}
  {
    if category == HealthiestLabel then Green
    else if category == BalancedLabel then Blue
    else if category == IndulgentLabel then Orange
    else Gray
  }

  /** The score bar colour: green above 70, blue above 40, orange otherwise. */
  function ScoreBarColor(score: int): (c: Color)
    ensures c == Green <==> score > 70
    ensures c == Blue <==> 40 < score <= 70
    ensures c == Orange <==> score <= 40
  {
    if score > 70 then Green else if score > 40 then Blue else Orange
  }

  /** `value || 'Unknown'` for a string value. */
  function OrUnknown(value: string): (shown: string)
    ensures shown == UnknownValue <==> value == "" || value == UnknownValue
    ensures value != "" ==> shown == value
  {
    if value == "" then UnknownValue else value
  }

  /** The nutrient cells: each value, or "Unknown" when the record is missing or the value empty. */
  function Nutrients(info: Option<NutritionalInfo>): (cells: NutrientCells)
    ensures cells.protein == UnknownValue <==> info.None? || info.value.protein in {"", UnknownValue}
    ensures cells.carbs == UnknownValue <==> info.None? || info.value.carbs in {"", UnknownValue}
    ensures cells.fat == UnknownValue <==> info.None? || info.value.fat in {"", UnknownValue}
    ensures cells.calories == UnknownValue <==> info.None? || info.value.calories in {"", UnknownValue}
    ensures info.Some? && info.value.protein != "" ==> cells.protein == info.value.protein
    ensures info.Some? && info.value.carbs != "" ==> cells.carbs == info.value.carbs
    ensures info.Some? && info.value.fat != "" ==> cells.fat == info.value.fat
    ensures info.Some? && info.value.calories != "" ==> cells.calories == info.value.calories
  {
    match info
    case None => NutrientCells(UnknownValue, UnknownValue, UnknownValue, UnknownValue)
    case Some(n) => NutrientCells(OrUnknown(n.protein), OrUnknown(n.carbs), OrUnknown(n.fat), OrUnknown(n.calories))
  }

  /** The card for an item. */
  function Render(item: CardItem): (card: Card)
    ensures card.clickPayload == item
    ensures card.title == item.name && card.badge == item.healthCategory
    ensures card.badgeColor == CategoryColor(item.healthCategory)
    ensures card.barColor == ScoreBarColor(item.healthScore)
    ensures card.barWidth == item.healthScore && card.scoreLabel == item.healthScore
    ensures card.description.Some? <==> item.description.Some? && item.description.value != ""
    ensures card.description.Some? ==> card.description == item.description
    ensures card.tags.Some? <==> item.dietaryTags.Some? && item.dietaryTags.value != []
    ensures card.tags.Some? ==> card.tags == item.dietaryTags
    ensures card.nutrients.protein == UnknownValue <==>
              item.nutritionalInfo.None? || item.nutritionalInfo.value.protein in {"", UnknownValue}
    ensures card.nutrients.carbs == UnknownValue <==>
              item.nutritionalInfo.None? || item.nutritionalInfo.value.carbs in {"", UnknownValue}
    ensures card.nutrients.fat == UnknownValue <==>
              item.nutritionalInfo.None? || item.nutritionalInfo.value.fat in {"", UnknownValue}
    ensures card.nutrients.calories == UnknownValue <==>
              item.nutritionalInfo.None? || item.nutritionalInfo.value.calories in {"", UnknownValue}
    ensures item.nutritionalInfo.Some? && item.nutritionalInfo.value.protein != "" ==>
              card.nutrients.protein == item.nutritionalInfo.value.protein
    ensures item.nutritionalInfo.Some? && item.nutritionalInfo.value.carbs != "" ==>
              card.nutrients.carbs == item.nutritionalInfo.value.carbs
    ensures item.nutritionalInfo.Some? && item.nutritionalInfo.value.fat != "" ==>
              card.nutrients.fat == item.nutritionalInfo.value.fat
    ensures item.nutritionalInfo.Some? && item.nutritionalInfo.value.calories != "" ==>
              card.nutrients.calories == item.nutritionalInfo.value.calories
  {
    Card(
      item.name,
      item.healthCategory,
      CategoryColor(item.healthCategory),
      if item.description.Some? && item.description.value != "" then item.description else None,
      ScoreBarColor(item.healthScore),
      item.healthScore,
      item.healthScore,
      Nutrients(item.nutritionalInfo),
      if item.dietaryTags.Some? && item.dietaryTags.value != [] then item.dietaryTags else None,
      item)
  }

  /** An analysed item as handed to the card. */
  function CardOf(a: AnalyzedItem): CardItem {
    CardItem(a.item.name, a.item.description, a.healthScore, a.healthCategory,
             Some(a.nutritionalInfo), Some(a.dietaryTags))
  }

  /**
   * A card for an item the endpoint analysed never falls back to "Unknown"
   * and always shows its tags, in the endpoint's order.
   */
  lemma AnalysedCardIsComplete(item: MenuItem, allergies: Option<seq<string>>)
    ensures var card := Render(CardOf(AnalyzeMenu.Analysis(item, allergies)));
            card.nutrients == NutrientCells("15-20g", "30-40g", "10-15g", "300-400") &&
            card.tags == Some(AnalyzeMenu.Analysis(item, allergies).dietaryTags) &&
            card.badgeColor != Gray
  {
  }

  /**
   * The badge and the bar disagree on two score ranges: a score of exactly 70
   * gets a green badge and a blue bar, and a Balanced score from 31 to 40
   * gets a blue badge and an orange bar. Everywhere else they agree.
   */
  lemma BarMatchesBadge(score: int)
    ensures ScoreBarColor(score) == CategoryColor(CategoryFor(score)) <==>
              score != 70 && !(30 < score <= 40)
  {
  }

  /** One score from each disagreeing range; the deep-fried example item scores 35. */
  lemma BadgeBarMismatchReachable()
    ensures CategoryColor(CategoryFor(70)) == Green && ScoreBarColor(70) == Blue
    ensures CategoryColor(CategoryFor(35)) == Blue && ScoreBarColor(35) == Orange
  {
  }
}
