/** The home tab: today's summary against the targets and its over-limit alert, the
    activity label and dropdown, the chip layout of the allergy list, and the
    recommendation sheet's selection. */
module Home {
  import opened KotlinText
  import opened Models
  import PhysicalDataForm

  /** `historyData?.summary ?: NutritionSummary(0, 0, 0, 0)`. */
  function SummaryOrZero(h: Option<HistoryData>): (s: NutritionSummary)
    ensures h.None? ==> s == NutritionSummary(0, 0, 0, 0)
    ensures h.Some? ==> s == h.value.summary
  {
    match h
    case None => NutritionSummary(0, 0, 0, 0)
    case Some(d) => d.summary
  }

  // ---- The over-limit alert ----

  /** The four nutrient names in the order they are checked. */
  const NutrientNames: seq<string> := ["Kalori", "Karbohidrat", "Protein", "Lemak"]

  /** The position of a name in `NutrientNames`. */
  function Rank(name: string): int {
    if name == "Kalori" then 0
    else if name == "Karbohidrat" then 1
    else if name == "Protein" then 2
    else if name == "Lemak" then 3
    else 4
  }

  /** Whether the nutrient at position `k` is strictly over its target. */
  predicate Exceeded(k: int, s: NutritionSummary, t: NutritionalNeeds) {
    if k == 0 then s.totalCalories > t.calories
    else if k == 1 then s.totalCarbs > t.carbs
    else if k == 2 then s.totalProtein > t.protein
    else if k == 3 then s.totalFat > t.fat
    else false
  }

  /** The names the alert lists: exactly the nutrients whose total is strictly greater
      than the target, each once, in the fixed order. */
  function OverLimits(s: NutritionSummary, t: NutritionalNeeds): (r: seq<string>)
    ensures forall name :: name in r <==> name in NutrientNames && Exceeded(Rank(name), s, t)
    ensures forall i, j :: 0 <= i < j < |r| ==> Rank(r[i]) < Rank(r[j])
    ensures |r| <= 4
  {
    (if s.totalCalories > t.calories then ["Kalori"] else [])
    + (if s.totalCarbs > t.carbs then ["Karbohidrat"] else [])
    + (if s.totalProtein > t.protein then ["Protein"] else [])
    + (if s.totalFat > t.fat then ["Lemak"] else [])
  }

  /** The alert text: the names joined by ", " inside the fixed Indonesian sentence. */
  function OverLimitMessage(names: seq<string>): (m: string)
    ensures |m| >= 42 && m[..7] == "Asupan " && m[|m| - 35..] == " Anda telah melebihi target harian."
    ensures m[7..|m| - 35] == JoinToString(names, ", ")
  {
    "Asupan " + JoinToString(names, ", ") + " Anda telah melebihi target harian."
  }

  // ---- Activity ----

  /** The label shown for the profile's multiplier. */
  function ActivityLabel(a: real): (r: string)
    ensures r == "Sedentary" <==> a == 1.2
    ensures r == "Lightly Active" <==> a == 1.375
    ensures r == "Moderately Active" <==> a == 1.55
    ensures r == "Very Active" <==> a == 1.725
    ensures r == "Extra Active" <==> a == 1.9
    ensures r == "Custom" <==> a !in {1.2, 1.375, 1.55, 1.725, 1.9}
  {
    if a == 1.2 then "Sedentary"
    else if a == 1.375 then "Lightly Active"
    else if a == 1.55 then "Moderately Active"
    else if a == 1.725 then "Very Active"
    else if a == 1.9 then "Extra Active"
    else "Custom"
  }

  /** The TDEE dropdown of the home tab. */
  const TdeeOptions: seq<(string, real)> := [
    ("Sedentary (Kantoran)", 1.2),
    ("Lightly Active (1-3 hari/mgg)", 1.375),
    ("Moderately Active (3-5 hari/mgg)", 1.55),
    ("Very Active (6-7 hari/mgg)", 1.725),
    ("Extra Active (Atletis)", 1.9)]

  /** Every multiplier either dropdown offers (this tab's, and the onboarding form's)
      shows as a named label, and the option's text starts with that label. */
  lemma OfferedMultipliersAreNamed(i: nat)
    requires i < 5
    ensures ActivityLabel(TdeeOptions[i].1) != "Custom"
    ensures ActivityLabel(PhysicalDataForm.ActivityOptions[i].1) != "Custom"
    ensures TdeeOptions[i].1 == PhysicalDataForm.ActivityOptions[i].1
    ensures var l := ActivityLabel(TdeeOptions[i].1); |l| <= |TdeeOptions[i].0| && TdeeOptions[i].0[..|l|] == l
  {
  }

  // ---- Allergy chips ----

  /** `chunked(2)`: consecutive rows of two, the last one shorter when the length is odd. */
  function Chunked(s: seq<string>): (rows: seq<seq<string>>)
    ensures Flatten(rows) == s
    ensures forall k :: 0 <= k < |rows| ==> 1 <= |rows[k]| <= 2
    ensures |s| % 2 == 0 ==> forall k :: 0 <= k < |rows| ==> |rows[k]| == 2
    ensures |rows| == (|s| + 1) / 2
    decreases |s|
  {
    if |s| == 0 then []
    else if |s| <= 2 then [s]
    else [s[..2]] + Chunked(s[2..])
  }

  /** For an odd length, every row but the last is full and the last holds one item. */
  lemma {:induction false} ChunkedOdd(s: seq<string>)
    requires |s| % 2 == 1
    ensures var rows := Chunked(s);
            |rows[|rows| - 1]| == 1 && forall k :: 0 <= k < |rows| - 1 ==> |rows[k]| == 2
    decreases |s|
  {
    if |s| > 2 {
      ChunkedOdd(s[2..]);
      var rows := Chunked(s);
      assert rows[1..] == Chunked(s[2..]);
    }
  }

  function Flatten(rows: seq<seq<string>>): seq<string> {
    if rows == [] then [] else rows[0] + Flatten(rows[1..])
  }

  /** A chip row: a full-width chip (the "none" chip when `isNone`), or a row of chips
      of equal weight. */
  datatype ChipRow = FullWidth(text: string, isNone: bool) | Split(items: seq<string>)

  const NoAllergyText: string := "Tidak ada alergi terdeteksi (Aman!)"

  /** The allergy texts a layout shows, the "none" chip aside. */
  function ChipTexts(rows: seq<ChipRow>): seq<string> {
    if rows == [] then []
    else
      (match rows[0]
       case FullWidth(t, isNone) => if isNone then [] else [t]
       case Split(items) => items)
      + ChipTexts(rows[1..])
  }

  function Splits(rows: seq<seq<string>>): (r: seq<ChipRow>)
    ensures |r| == |rows| && forall k :: 0 <= k < |r| ==> r[k] == Split(rows[k])
    ensures ChipTexts(r) == Flatten(rows)
  {
    if rows == [] then [] else [Split(rows[0])] + Splits(rows[1..])
  }

  /** The `when` over the allergy count. */
  function AllergyLayout(allergies: seq<string>): (rows: seq<ChipRow>)
    ensures ChipTexts(rows) == allergies
    ensures |allergies| <= 1 ==> |rows| == 1 && rows[0].FullWidth? && (rows[0].isNone <==> allergies == [])
    ensures allergies == [] ==> rows == [FullWidth(NoAllergyText, true)]
    ensures |allergies| >= 2 && |allergies| % 2 == 0 ==>
              forall k :: 0 <= k < |rows| ==> rows[k].Split? && |rows[k].items| == 2
    ensures |allergies| >= 3 && |allergies| % 2 == 1 ==>
              rows[0] == FullWidth(allergies[0], false)
              && forall k :: 1 <= k < |rows| ==> rows[k].Split? && |rows[k].items| == 2
    ensures forall k :: 0 <= k < |rows| && rows[k].Split? ==> 1 <= |rows[k].items| <= 2
  {
    if |allergies| <= 1 then
      [FullWidth(if allergies == [] then NoAllergyText else allergies[0], allergies == [])]
    else if |allergies| % 2 == 0 then
      Splits(Chunked(allergies))
    else
      var rest := Splits(Chunked(allergies[1..]));
      assert ChipTexts([FullWidth(allergies[0], false)] + rest) == [allergies[0]] + ChipTexts(rest) by {
        assert ([FullWidth(allergies[0], false)] + rest)[1..] == rest;
      }
      [FullWidth(allergies[0], false)] + rest
  }

  // ---- The tab's state ----

  class HomeTabState {
    var showOverLimitDialog: bool
    var overLimitMessage: string
    var selectedRecipe: Option<Recipe>
    var expandedTdee: bool
    var isRefreshing: bool

    constructor ()
      ensures !showOverLimitDialog && overLimitMessage == "" && selectedRecipe.None?
      ensures !expandedTdee && !isRefreshing
    {
      showOverLimitDialog, overLimitMessage, selectedRecipe := false, "", None;
      expandedTdee, isRefreshing := false, false;
    }

    /** The `LaunchedEffect(summary)`: collect the exceeded nutrients; when there is one,
        set the message and raise the dialog. An empty list leaves both as they were. */
    method OnSummaryChanged(summary: NutritionSummary, target: NutritionalNeeds) returns (overLimits: seq<string>)
      modifies this`showOverLimitDialog, this`overLimitMessage
      ensures overLimits == OverLimits(summary, target)
      ensures overLimits != [] ==> showOverLimitDialog && overLimitMessage == OverLimitMessage(overLimits)
      ensures overLimits == [] ==> showOverLimitDialog == old(showOverLimitDialog) && overLimitMessage == old(overLimitMessage)
    {
      overLimits := [];
      if summary.totalCalories > target.calories { overLimits := overLimits + ["Kalori"]; }
      if summary.totalCarbs > target.carbs { overLimits := overLimits + ["Karbohidrat"]; }
      if summary.totalProtein > target.protein { overLimits := overLimits + ["Protein"]; }
      if summary.totalFat > target.fat { overLimits := overLimits + ["Lemak"]; }
      if overLimits != [] {
        overLimitMessage := OverLimitMessage(overLimits);
        showOverLimitDialog := true;
      }
    }

    method DismissOverLimitDialog()
      modifies this`showOverLimitDialog
      ensures !showOverLimitDialog
    {
      showOverLimitDialog := false;
    }

    method OpenTdeeMenu()
      modifies this`expandedTdee
      ensures expandedTdee
    {
      expandedTdee := true;
    }

    /** A dropdown item: forwards its multiplier to `onUpdateTdee` and closes the menu. */
    method PickTdee(index: nat) returns (onUpdateTdee: real)
      requires index < |TdeeOptions|
      modifies this`expandedTdee
      ensures onUpdateTdee == TdeeOptions[index].1 && ActivityLabel(onUpdateTdee) != "Custom"
      ensures !expandedTdee
    {
      OfferedMultipliersAreNamed(index);
      onUpdateTdee := TdeeOptions[index].1;
      expandedTdee := false;
    }

    /** Pull to refresh: the indicator turns on, and the callback handed to `onRefresh`
        sets it to the value it is invoked with. */
    method StartRefresh()
      modifies this`isRefreshing
      ensures isRefreshing
    {
      isRefreshing := true;
    }

    method RefreshFinished(value: bool)
      modifies this`isRefreshing
      ensures isRefreshing == value
    {
      isRefreshing := value;
    }

    method SelectRecipe(recipe: Recipe)
      modifies this`selectedRecipe
      ensures selectedRecipe == Some(recipe)
    {
      selectedRecipe := Some(recipe);
    }

    /** The sheet's cook action: the request goes to `onCookMeal`, then the sheet closes. */
    method CookFromSheet(req: MealRequest) returns (onCookMeal: MealRequest)
      modifies this`selectedRecipe
      ensures onCookMeal == req && selectedRecipe.None?
    {
      onCookMeal := req;
      selectedRecipe := None;
    }

    method DismissSheet()
      modifies this`selectedRecipe
      ensures selectedRecipe.None?
    {
      selectedRecipe := None;
    }
  }
}
