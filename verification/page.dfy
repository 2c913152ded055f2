/** The planner's home page: the weekly progress tracker, the icon chosen
    for a shopping-list category, the effects of clicking a day, and the
    page state that the three generate buttons update. */
module Page {
  import opened Wrappers
  import opened JsString
  import opened Json
  import opened DietPlanFlow
  import opened FlowShapes
  import opened Actions

  // ---- Progress tracker ----

  const DaysInWeek := 7

  /** `s.filter(x => x !== d)`: every occurrence of `d` removed, the rest in
      order. */
  function Without(s: seq<int>, d: int): (r: seq<int>)
    ensures forall x :: x in r <==> x in s && x != d
    ensures |r| <= |s|
  {
    if s == [] then [] else (if s[0] == d then [] else [s[0]]) + Without(s[1..], d)
  }

  /** The day toggle: a day that is present is removed, one that is absent
      is appended. Either way exactly `d` changes membership. */
  function Toggled(s: seq<int>, d: int): (r: seq<int>)
    ensures forall x :: x in r <==> (x in s) != (x == d)
  {
    if d in s then Without(s, d) else s + [d]
  }

  predicate NoDuplicates(s: seq<int>) {
    forall i, j :: 0 <= i < j < |s| ==> s[i] != s[j]
  }

  /** What the tracker's checkboxes can produce: distinct day indices 0 to 6. */
  predicate DaysWellFormed(s: seq<int>) {
    NoDuplicates(s) && forall x <- s :: 0 <= x < DaysInWeek
  }

  /** The share of the week's days checked, as a percentage: 100 exactly
      when all seven are checked, never above it while at most seven are. */
  function ProgressPercent(completed: seq<int>): (percent: real)
    ensures percent >= 0.0
    ensures percent <= 100.0 <==> |completed| <= DaysInWeek
    ensures percent == 100.0 <==> |completed| == DaysInWeek
  {
    (|completed| as real / DaysInWeek as real) * 100.0
  }

  lemma {:induction false} WithoutAbsent(s: seq<int>, d: int)
    requires d !in s
    ensures Without(s, d) == s
  {
    if s != [] {
      WithoutAbsent(s[1..], d);
      assert [s[0]] + s[1..] == s;
    }
  }

  lemma {:induction false} WithoutAppend(s: seq<int>, t: seq<int>, d: int)
    ensures Without(s + t, d) == Without(s, d) + Without(t, d)
  {
    if s == [] {
      assert s + t == t;
    } else {
      assert (s + t)[0] == s[0] && (s + t)[1..] == s[1..] + t;
      WithoutAppend(s[1..], t, d);
    }
  }

  lemma {:induction false} WithoutKeepsDistinct(s: seq<int>, d: int)
    requires NoDuplicates(s)
    ensures NoDuplicates(Without(s, d))
  {
    if s != [] {
      WithoutKeepsDistinct(s[1..], d);
      var rest := Without(s[1..], d);
      assert s[0] !in s[1..];
      assert s[0] !in rest;
      if s[0] != d {
        assert Without(s, d) == [s[0]] + rest;
        forall i, j | 0 <= i < j < |Without(s, d)|
          ensures Without(s, d)[i] != Without(s, d)[j]
        {
          if i > 0 {
            assert Without(s, d)[i] == rest[i - 1] && Without(s, d)[j] == rest[j - 1];
          } else {
            assert Without(s, d)[j] == rest[j - 1];
          }
        }
      }
    }
  }

  /** Removing a day that occurs once shortens the list by one. */
  lemma {:induction false} WithoutDistinctLength(s: seq<int>, d: int)
    requires NoDuplicates(s) && d in s
    ensures |Without(s, d)| == |s| - 1
  {
    if s[0] == d {
      assert d !in s[1..];
      WithoutAbsent(s[1..], d);
    } else {
      assert d in s[1..];
      WithoutDistinctLength(s[1..], d);
    }
  }

  /** Distinct indices below `n` number at most `n`. */
  lemma {:induction false} DistinctBelow(s: seq<int>, n: nat)
    requires NoDuplicates(s) && forall x <- s :: 0 <= x < n
    ensures |s| <= n
    decreases n
  {
    if s != [] {
      assert s[0] in s;
      var rest := Without(s, n - 1);
      WithoutKeepsDistinct(s, n - 1);
      DistinctBelow(rest, n - 1);
      if n - 1 in s {
        WithoutDistinctLength(s, n - 1);
      } else {
        WithoutAbsent(s, n - 1);
      }
    }
  }

  /** A toggle of a checkbox index keeps the days distinct and in range. */
  lemma ToggleKeepsWellFormed(s: seq<int>, d: int)
    requires DaysWellFormed(s) && 0 <= d < DaysInWeek
    ensures DaysWellFormed(Toggled(s, d))
  {
    if d in s {
      WithoutKeepsDistinct(s, d);
    } else {
      assert forall i :: 0 <= i < |s| ==> (s + [d])[i] == s[i];
    }
  }

  /** With well-formed days the progress lies between 0 and 100. */
  lemma ProgressInRange(s: seq<int>)
    requires DaysWellFormed(s)
    ensures 0.0 <= ProgressPercent(s) <= 100.0
  {
    DistinctBelow(s, DaysInWeek);
  }

  /** Toggling the same day twice restores the days checked; when the day
      was not checked the list itself comes back unchanged, and when it was,
      it comes back with that day moved to the end. */
  lemma ToggleTwice(s: seq<int>, d: int)
    ensures forall x :: x in Toggled(Toggled(s, d), d) <==> x in s
    ensures d !in s ==> Toggled(Toggled(s, d), d) == s
    ensures d in s ==> Toggled(Toggled(s, d), d) == Without(s, d) + [d]
  {
    if d !in s {
      WithoutAppend(s, [d], d);
      WithoutAbsent(s, d);
      assert Without([d], d) == [];
    }
  }

  /** The tracker's state: the checked day indices, and the percentage the
      effect derives from them. */
  class ProgressTracker {
    var completedDays: seq<int>
    var progress: real

    ghost predicate Valid()
      reads this
    {
      DaysWellFormed(completedDays) && progress == ProgressPercent(completedDays)
    }

    constructor()
      ensures Valid()
      ensures completedDays == [] && progress == 0.0
    {
      completedDays := [];
      progress := 0.0;
    }

    /** `handleDayToggle(dayIndex)` and the effect that recomputes the
        progress when the days change. */
    method HandleDayToggle(dayIndex: int)
      requires Valid()
      modifies this
      ensures completedDays == Toggled(old(completedDays), dayIndex)
      ensures progress == ProgressPercent(completedDays)
      ensures 0 <= dayIndex < DaysInWeek ==> Valid() && 0.0 <= progress <= 100.0
    {
      completedDays := Toggled(completedDays, dayIndex);
      progress := ProgressPercent(completedDays);
      if 0 <= dayIndex < DaysInWeek {
        ToggleKeepsWellFormed(old(completedDays), dayIndex);
        ProgressInRange(completedDays);
      }
    }
  }

  // ---- Shopping-list category icons ----

  datatype Icon = Carrot | Beef | Milk | Wheat | ShoppingCart

  /** `getCategoryIcon(category)`: the icon for the category's lower-cased
      name, the cart for any name it does not know. */
  function CategoryIcon(category: string): (icon: Icon)
    ensures icon == Carrot <==> ToLower(category) == "produce"
    ensures icon == Beef <==> ToLower(category) in ["protein", "meat"]
    ensures icon == Milk <==> ToLower(category) in ["dairy & alternatives", "dairy"]
    ensures icon == Wheat <==> ToLower(category) in ["grains", "pantry staples"]
  {
    match ToLower(category)
    case "produce" => Carrot
    case "protein" => Beef
    case "meat" => Beef
    case "dairy & alternatives" => Milk
    case "dairy" => Milk
    case "grains" => Wheat
    case "pantry staples" => Wheat
    case _ => ShoppingCart
  }

  /** The icon does not depend on the category's letter case. */
  lemma CategoryIconIgnoresCase(category: string)
    ensures CategoryIcon(ToLower(category)) == CategoryIcon(category)
  {
    ToLowerIdempotent(category);
  }

  /** A category named as the flow describes it gets its icon. */
  lemma ProduceIcon()
    ensures CategoryIcon("Produce") == Carrot
  {
    assert ToLower("Produce") == "produce";
  }

  /** Upper case makes no difference. */
  lemma UpperCaseMeatIcon()
    ensures CategoryIcon("MEAT") == Beef
  {
    assert ToLower("MEAT") == "meat";
  }

  /** A category the page does not know gets the cart. */
  lemma UnknownCategoryIcon()
    ensures CategoryIcon("Fruit") == ShoppingCart
  {
    assert ToLower("Fruit") == "fruit";
  }

  // ---- Clicking a day ----

  /** What a click asks of the browser. */
  datatype Effect = StoreSession(key: string, value: string) | Navigate(path: string)

  /** The text the page stores and sends for a plan: `JSON.stringify(plan)`. */
  function PlanText(plan: DietPlan): (text: string)
    ensures text != [] && text[0] == '{'
  {
    Stringify(PlanToJson(plan))
  }

  /** `handleDayClick(day)`: store the plan under "dietPlan", then open the
      day's page at "/plan/" followed by the day's lower-cased name. */
  function DayClick(plan: DietPlan, day: string): (effects: seq<Effect>)
    ensures |effects| == 2
    ensures effects[0] == StoreSession("dietPlan", PlanText(plan))
    ensures effects[1].Navigate? && |effects[1].path| == 6 + |day|
    ensures effects[1].path[..6] == "/plan/" && effects[1].path[6..] == ToLower(day)
  {
    [StoreSession("dietPlan", PlanText(plan)), Navigate("/plan/" + ToLower(day))]
  }

  // ---- The page's generate handlers ----

  /** Which of the three requests is running. */
  datatype LoadingState = LoadingState(diet: bool, list: bool, recipes: bool)

  /** The page's state: the loading flags and the three results. */
  class NutriGeniusPage {
    var isLoading: LoadingState
    var dietPlan: Option<DietPlan>
    var shoppingList: Option<GenerateShoppingListOutput>
    var recipes: Option<seq<string>>

    constructor()
      ensures isLoading == LoadingState(false, false, false)
      ensures dietPlan == None && shoppingList == None && recipes == None
    {
      isLoading := LoadingState(false, false, false);
      dietPlan := None;
      shoppingList := None;
      recipes := None;
    }

    /** The start of `handleGenerateDietPlan`: every earlier result is
        cleared and only the diet flag is raised. */
    method BeginDietPlan()
      modifies this
      ensures isLoading == LoadingState(true, false, false)
      ensures dietPlan == None && shoppingList == None && recipes == None
    {
      isLoading := LoadingState(true, false, false);
      dietPlan := None;
      shoppingList := None;
      recipes := None;
    }

    /** The end of `handleGenerateDietPlan`: an error leaves the plan as it
        was, otherwise the plan becomes the returned data; the diet flag
        drops and the other flags stay. */
    method FinishDietPlan(result: ActionResult<DietPlan>)
      modifies this
      ensures result.error.Some? && Truthy(result.error.value) ==> dietPlan == old(dietPlan)
      ensures !(result.error.Some? && Truthy(result.error.value)) ==> dietPlan == result.data
      ensures isLoading == old(isLoading).(diet := false)
      ensures shoppingList == old(shoppingList) && recipes == old(recipes)
    {
      if !(result.error.Some? && Truthy(result.error.value)) {
        dietPlan := result.data;
      }
      isLoading := isLoading.(diet := false);
    }

    /** The whole diet-plan request, its two steps run back to back: the
        page ends up showing exactly the action's data, or nothing. */
    method HandleGenerateDietPlan(model: GenerateDietPlanInput -> Outcome<Json>, values: ProfileSchema.ProfileValues)
      modifies this
      ensures dietPlan == GenerateDietPlanAction(model, values).data
      ensures shoppingList == None && recipes == None
      ensures isLoading == LoadingState(false, false, false)
    {
      BeginDietPlan();
      var result := GenerateDietPlanAction(model, values);
      FinishDietPlan(result);
    }

    /** The start of `handleGenerateShoppingList`: without a plan nothing
        happens; with one the list flag is raised and the plan's text is
        the request. */
    method BeginShoppingList() returns (request: Option<string>)
      modifies this
      ensures old(dietPlan).None? ==> request.None? && isLoading == old(isLoading)
      ensures old(dietPlan).Some? ==> request == Some(PlanText(old(dietPlan).value)) &&
                                      isLoading == old(isLoading).(list := true)
      ensures dietPlan == old(dietPlan) && shoppingList == old(shoppingList) && recipes == old(recipes)
    {
      if dietPlan.None? {
        return None;
      }
      isLoading := isLoading.(list := true);
      request := Some(PlanText(dietPlan.value));
    }

    /** The end of `handleGenerateShoppingList`: an error keeps the old list,
        otherwise the list becomes the returned data; only the list flag
        drops. */
    method FinishShoppingList(result: ActionResult<GenerateShoppingListOutput>)
      modifies this
      ensures result.error.Some? && Truthy(result.error.value) ==> shoppingList == old(shoppingList)
      ensures !(result.error.Some? && Truthy(result.error.value)) ==> shoppingList == result.data
      ensures isLoading == old(isLoading).(list := false)
      ensures dietPlan == old(dietPlan) && recipes == old(recipes)
    {
      if !(result.error.Some? && Truthy(result.error.value)) {
        shoppingList := result.data;
      }
      isLoading := isLoading.(list := false);
    }

    /** The start of `handleSuggestRecipes`, like the shopping list's. */
    method BeginRecipes() returns (request: Option<string>)
      modifies this
      ensures old(dietPlan).None? ==> request.None? && isLoading == old(isLoading)
      ensures old(dietPlan).Some? ==> request == Some(PlanText(old(dietPlan).value)) &&
                                      isLoading == old(isLoading).(recipes := true)
      ensures dietPlan == old(dietPlan) && shoppingList == old(shoppingList) && recipes == old(recipes)
    {
      if dietPlan.None? {
        return None;
      }
      isLoading := isLoading.(recipes := true);
      request := Some(PlanText(dietPlan.value));
    }

    /** The end of `handleSuggestRecipes`: an error keeps the old recipes,
        otherwise they become the returned data; only the recipes flag drops. */
    method FinishRecipes(result: ActionResult<seq<string>>)
      modifies this
      ensures result.error.Some? && Truthy(result.error.value) ==> recipes == old(recipes)
      ensures !(result.error.Some? && Truthy(result.error.value)) ==> recipes == result.data
      ensures isLoading == old(isLoading).(recipes := false)
      ensures dietPlan == old(dietPlan) && shoppingList == old(shoppingList)
    {
      if !(result.error.Some? && Truthy(result.error.value)) {
        recipes := result.data;
      }
      isLoading := isLoading.(recipes := false);
    }

    /** The whole shopping-list request: without a plan nothing changes; with
        one, a failed generator keeps the old list and anything else shows
        the generated list, and the list flag ends where it started. */
    method HandleGenerateShoppingList(generate: string -> Outcome<GenerateShoppingListOutput>)
      modifies this
      ensures dietPlan == old(dietPlan) && recipes == old(recipes)
      ensures old(dietPlan).None? ==> shoppingList == old(shoppingList) && isLoading == old(isLoading)
      ensures old(dietPlan).Some? ==> isLoading == old(isLoading).(list := false)
      ensures old(dietPlan).Some? ==>
        var sent := PlanText(old(dietPlan).value);
        shoppingList == if generate(sent).Ok? then Some(generate(sent).value) else old(shoppingList)
    {
      var request := BeginShoppingList();
      if request.Some? {
        var result := GenerateShoppingListAction(generate, request.value);
        FinishShoppingList(result);
      }
    }

    /** The whole recipe request, like the shopping list's: the recipe names
        of a successful generator are shown, a failure keeps the old ones. */
    method HandleSuggestRecipes(generate: string -> Outcome<SuggestRecipesOutput>)
      modifies this
      ensures dietPlan == old(dietPlan) && shoppingList == old(shoppingList)
      ensures old(dietPlan).None? ==> recipes == old(recipes) && isLoading == old(isLoading)
      ensures old(dietPlan).Some? ==> isLoading == old(isLoading).(recipes := false)
      ensures old(dietPlan).Some? ==>
        var sent := PlanText(old(dietPlan).value);
        recipes == if generate(sent).Ok? then Some(generate(sent).value.recipes) else old(recipes)
    {
      var request := BeginRecipes();
      if request.Some? {
        var result := SuggestRecipesAction(generate, request.value);
        FinishRecipes(result);
      }
    }
  }

  /** The plan's text is never empty, so the shopping-list and recipe
      actions never answer a page request with their "required" message. */
  lemma PageRequestsAreNeverEmpty(
    plan: DietPlan,
    lists: string -> Outcome<GenerateShoppingListOutput>,
    ideas: string -> Outcome<SuggestRecipesOutput>)
    ensures GenerateShoppingListAction(lists, PlanText(plan)).error != Some(ShoppingListRequired)
    ensures SuggestRecipesAction(ideas, PlanText(plan)).error != Some(RecipesRequired)
  {
    MessagesDistinct();
  }
}
