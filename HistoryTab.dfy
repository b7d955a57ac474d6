/** The history tab: today's meals newest first, the daily summary figures, and the
    recipe sheet reused for a logged meal. */
module History {
  import opened KotlinText
  import opened Models
  import Home
  import Components

  /** `historyData?.meals?.reversed() ?: emptyList()`: the meals are logged oldest
      first, so the list shows the newest on top. */
  function DisplayedMeals(h: Option<HistoryData>): (meals: seq<Meal>)
    ensures h.None? ==> meals == []
    ensures h.Some? ==> |meals| == |h.value.meals|
    ensures h.Some? ==> forall i :: 0 <= i < |meals| ==> meals[i] == h.value.meals[|meals| - 1 - i]
    ensures h.Some? ==> multiset(meals) == multiset(h.value.meals)
  {
    match h
    case None => []
    case Some(d) => Reversed(d.meals)
  }

  /** The first row shown is the meal logged last. */
  lemma NewestFirst(h: HistoryData)
    requires h.meals != []
    ensures DisplayedMeals(Some(h))[0] == h.meals[|h.meals| - 1]
  {
  }

  /** The summary header's four figures, each `summary?.field ?: 0`. */
  function SummaryFigures(h: Option<HistoryData>): (f: (int, int, int, int))
    ensures var s := Home.SummaryOrZero(h); f == (s.totalCalories, s.totalCarbs, s.totalProtein, s.totalFat)
  {
    (if h.Some? then h.value.summary.totalCalories else 0,
     if h.Some? then h.value.summary.totalCarbs else 0,
     if h.Some? then h.value.summary.totalProtein else 0,
     if h.Some? then h.value.summary.totalFat else 0)
  }

  /** "Belum ada riwayat makan hari ini" replaces the list exactly when there is nothing
      to list. */
  function ShowsEmptyState(h: Option<HistoryData>): (empty: bool)
    ensures empty <==> DisplayedMeals(h) == []
    ensures empty <==> h.None? || h.value.meals == []
  {
    |DisplayedMeals(h)| == 0
  }

  /** The selected meal dressed as a recipe so that the recipe sheet can show it. */
  function MealAsRecipe(m: Meal): (r: Recipe)
    ensures r.title == m.foodName && r.calories == m.calories
    ensures r.nutrients == MacroNutrients(m.carbs, m.protein, m.fat)
    ensures r.image == m.imageUrl.GetOr("") && r.sourceUrl == Some(m.sourceUrl.GetOr(""))
    ensures r.time == 0 && r.totalWeight == 0.0
    ensures r.cuisineType.None? && r.mealType.None? && r.ingredients.None?
  {
    Recipe(m.foodName, m.imageUrl.GetOr(""), m.calories, MacroNutrients(m.carbs, m.protein, m.fat),
           Some(m.sourceUrl.GetOr("")), 0, 0.0, None, None, None)
  }

  /** Cooking a logged meal again sends the meal's own figures, with a missing image or
      source sent as the empty string. */
  lemma RecookedMealRequest(m: Meal)
    ensures Components.CookRequest(MealAsRecipe(m))
            == MealRequest(m.foodName, m.calories, m.carbs, m.protein, m.fat, m.imageUrl.GetOr(""), Some(m.sourceUrl.GetOr("")))
  {
  }

  /** The sheet for a logged meal has no time, weight, cuisine, meal-type or ingredient
      parts, shows the meal time when there is one, and offers the source link only
      for a non-blank source URL. */
  lemma MealSheet(m: Meal, parsed: Option<string>)
    ensures var v := Components.Sheet(MealAsRecipe(m), m.mealTime, parsed);
            !v.timeBadge && !v.weightBadge && v.cuisineBadge.None? && !v.mealTypeLine && !v.ingredientsList
            && (v.mealTimeText.Some? <==> !IsNullOrBlank(m.mealTime))
            && (v.sourceButton <==> m.sourceUrl.Some? && !IsBlank(m.sourceUrl.value))
  {
    var r := MealAsRecipe(m);
    if m.sourceUrl.None? {
      assert r.sourceUrl == Some("");
      assert IsBlank("");
    }
  }

  class HistoryTabState {
    var selectedMeal: Option<Meal>
    var isRefreshing: bool

    constructor ()
      ensures selectedMeal.None? && !isRefreshing
    {
      selectedMeal := None;
      isRefreshing := false;
    }

    method SelectMeal(meal: Meal)
      modifies this`selectedMeal
      ensures selectedMeal == Some(meal)
    {
      selectedMeal := Some(meal);
    }

    /** The sheet's cook action forwards the request; unlike the home tab, the sheet
        stays open. */
    method CookFromSheet(req: MealRequest) returns (onCookMeal: MealRequest)
      ensures onCookMeal == req
    {
      onCookMeal := req;
    }

    method DismissSheet()
      modifies this`selectedMeal
      ensures selectedMeal.None?
    {
      selectedMeal := None;
    }

    method StartRefresh()
      modifies this`isRefreshing
      ensures isRefreshing
    {
      isRefreshing := true;
    }

    method RefreshFinished(value: bool)
      modifies this`isRefreshing
      ensures isRefreshing == value
    {
      isRefreshing := value;
    }
  }
}
