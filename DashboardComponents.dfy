/** The shared dashboard widgets' logic: the nutrient ring's energy figure and
    over-target flag, the calorie box's warning, the BMR badge colour, what the recipe
    sheet shows and the meal request its cook button sends, and the meal-time text. */
module Components {
  import opened KotlinText
  import opened Models

  /** A JVM `Int` result: the value wrapped into [IntMin, IntMax]. */
  function Wrap32(x: int): (r: int)
    ensures IntMin <= r <= IntMax
    ensures IntMin <= x <= IntMax ==> r == x
    ensures (r - x) % 0x1_0000_0000 == 0
  {
    (x - IntMin) % 0x1_0000_0000 + IntMin
  }

  /** The ring's energy line: 9 kcal per gram for "Lemak" and 4 per gram for the other
      rings, in Int arithmetic. */
  function Kcal(ringLabel: string, grams: int): (kcal: int)
    requires IntMin <= grams <= IntMax
    ensures ringLabel == "Lemak" && IntMin <= 9 * grams <= IntMax ==> kcal == 9 * grams
    ensures ringLabel != "Lemak" && IntMin <= 4 * grams <= IntMax ==> kcal == 4 * grams
    ensures IntMin <= kcal <= IntMax
    ensures (kcal - (if ringLabel == "Lemak" then 9 else 4) * grams) % 0x1_0000_0000 == 0
  {
    Wrap32(if ringLabel == "Lemak" then grams * 9 else grams * 4)
  }

  /** The ring's fill: `current / target` when the target is positive, else 0. */
  function Progress(current: int, target: int): (p: real)
    ensures target > 0 ==> p * target as real == current as real
    ensures target <= 0 ==> p == 0.0
  {
    if target > 0 then current as real / target as real else 0.0
  }

  /** `isOver = progress > 1`: over exactly when the target is positive and the amount is
      strictly above it. */
  function RingIsOver(current: int, target: int): (over: bool)
    ensures over <==> target > 0 && current > target
    ensures target <= 0 ==> Progress(current, target) == 0.0 && !over
  {
    DivAboveOne(current, target);
    Progress(current, target) > 1.0
  }

  /** For a positive target, the ratio exceeds 1 exactly when the amount exceeds it. */
  lemma DivAboveOne(current: int, target: int)
    ensures target > 0 ==> (current as real / target as real > 1.0 <==> current > target)
  {
    if target <= 0 { return; }
    var q := current as real / target as real;
    assert q * target as real == current as real;
    if current > target {
      assert q > 1.0;
    } else {
      assert q <= 1.0;
    }
  }

  /** The calorie box's warning badge: shown exactly when the calorie target is positive
      and today's total is above it. */
  function CalorieWarning(summary: NutritionSummary, target: NutritionalNeeds): (shown: bool)
    ensures shown <==> target.calories > 0 && summary.totalCalories > target.calories
  {
    DivAboveOne(summary.totalCalories, target.calories);
    Progress(summary.totalCalories, target.calories) > 1.0
  }

  // ---- BMR badge ----

  /** ARGB colours: the badge palette for scores 0..5 and the gray fallback. */
  const BmrPalette: seq<nat> := [0xFF2196F3, 0xFF00BCD4, 0xFF4CAF50, 0xFFFBC02D, 0xFFF57C00, 0xFFD32F2F]
  const Gray: nat := 0xFF888888

  /** `colors.getOrElse(score) { Color.Gray }`. */
  function BmrColor(score: int): (c: nat)
    ensures 0 <= score < 6 ==> c == BmrPalette[score]
    ensures c == Gray <==> !(0 <= score < 6)
  {
    if 0 <= score < |BmrPalette| then BmrPalette[score] else Gray
  }

  // ---- Recipe sheet ----

  /** What the recipe sheet shows besides the fixed parts. */
  datatype SheetView = SheetView(
    cuisineBadge: Option<string>,
    timeBadge: bool,
    weightBadge: bool,
    mealTimeText: Option<string>,
    mealTypeLine: bool,
    ingredientsList: bool,
    sourceButton: bool)

  /** `firstOrNull()`. */
  function FirstOrNull(s: seq<string>): (r: Option<string>)
    ensures r.None? <==> s == []
    ensures r.Some? ==> r.value == s[0]
  {
    if s == [] then None else Some(s[0])
  }

  /** The sheet for `recipe`, with the meal time the history tab passes (`parsed` is the
      java.time rendering of it, when that parse succeeds). */
  function Sheet(recipe: Recipe, mealTime: Option<string>, parsed: Option<string>): (v: SheetView)
    ensures v.cuisineBadge.Some? <==> recipe.cuisineType.Some? && recipe.cuisineType.value != []
    ensures v.cuisineBadge.Some? ==> v.cuisineBadge.value == recipe.cuisineType.value[0]
    ensures v.timeBadge <==> recipe.time > 0
    ensures v.weightBadge <==> recipe.totalWeight > 0.0
    ensures v.mealTimeText.Some? <==> !IsNullOrBlank(mealTime)
    ensures v.mealTimeText.Some? ==> v.mealTimeText.value == FormatMealTime(mealTime, parsed)
    ensures v.mealTypeLine <==> recipe.mealType.Some?
    ensures v.ingredientsList <==> recipe.ingredients.Some? && recipe.ingredients.value != []
    ensures v.sourceButton <==> recipe.sourceUrl.Some? && !IsBlank(recipe.sourceUrl.value)
  {
    SheetView(
      if recipe.cuisineType.Some? then FirstOrNull(recipe.cuisineType.value) else None,
      recipe.time > 0,
      recipe.totalWeight > 0.0,
      if IsNullOrBlank(mealTime) then None else Some(FormatMealTime(mealTime, parsed)),
      recipe.mealType.Some?,
      recipe.ingredients.Some? && recipe.ingredients.value != [],
      !IsNullOrBlank(recipe.sourceUrl))
  }

  /** The cook button's request: the recipe's own name, energy, macros, image and
      source, unchanged. */
  function CookRequest(recipe: Recipe): (req: MealRequest)
    ensures req.foodName == recipe.title && req.calories == recipe.calories
    ensures req.carbs == recipe.nutrients.carbs && req.protein == recipe.nutrients.protein && req.fat == recipe.nutrients.fat
    ensures req.imageUrl == recipe.image && req.sourceUrl == recipe.sourceUrl
  {
    MealRequest(recipe.title, recipe.calories, recipe.nutrients.carbs, recipe.nutrients.protein,
                recipe.nutrients.fat, recipe.image, recipe.sourceUrl)
  }

  // ---- Meal time ----

  /** `formatMealTime(rawTime)`. `parsed` is what the java.time parse and `HH:mm`
      formatting give, or `None` when the parse throws. */
  function FormatMealTime(rawTime: Option<string>, parsed: Option<string>): (r: string)
    ensures IsNullOrBlank(rawTime) ==> r == "-"
    ensures !IsNullOrBlank(rawTime) && parsed.Some? ==> r == parsed.value
    ensures !IsNullOrBlank(rawTime) && parsed.None? && 'T' !in rawTime.value ==> r == "-"
    ensures !IsNullOrBlank(rawTime) && parsed.None? && 'T' in rawTime.value ==>
              |r| <= 5
              && (exists i :: 0 <= i < |rawTime.value| && rawTime.value[i] == 'T' && 'T' !in rawTime.value[..i]
                             && r == Take(rawTime.value[i + 1..], 5))
  {
    if IsNullOrBlank(rawTime) then "-"
    else match parsed
      case Some(hhmm) => hhmm
      case None => if 'T' in rawTime.value then Take(SubstringAfter(rawTime.value, 'T'), 5) else "-"
  }
}
