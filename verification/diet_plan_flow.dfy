/** The diet-plan generation flow: the profile it sends to the language
    model, and the shape the model's answer must have to be accepted (a
    summary, three macronutrient numbers, and a plan of exactly seven days,
    each with breakfast, lunch, dinner, optional snacks and a daily total). */
module DietPlanFlow {
  import opened Wrappers
  import opened Json

  /** The flow's input. Unlike the form schema it has no ranges: any numbers
      and any text pass, and the preferences may be absent. */
  datatype GenerateDietPlanInput = GenerateDietPlanInput(
    bmi: real, age: real, medicalHistory: string, dietaryPreferences: Option<string>)

  datatype Meals = Meals(breakfast: string, lunch: string, dinner: string, snacks: Option<string>)

  datatype DailyPlan = DailyPlan(day: string, meals: Meals, dailyTotal: string)

  /** Percentages of carbohydrates, protein and fat. Nothing makes them add
      up to 100: only the prompt asks for that. */
  datatype MacronutrientDistribution = MacronutrientDistribution(carbs: real, protein: real, fat: real)

  datatype DietPlan = DietPlan(
    summary: string, macronutrientDistribution: MacronutrientDistribution, weeklyPlan: seq<DailyPlan>)

  const DaysInPlan := 7

  /** The one rule of the output schema beyond the types: seven days. */
  predicate ValidPlan(p: DietPlan) {
    |p.weeklyPlan| == DaysInPlan
  }

  // ---- Reading the model's answer against the output schema ----

  /** A required string member. */
  function StringMember(members: seq<Member>, key: string): (r: Option<string>)
    ensures r.Some? <==> Get(members, key).Some? && Get(members, key).value.JStr?
    ensures r.Some? ==> Get(members, key) == Some(JStr(r.value))
  {
    match Get(members, key)
    case Some(JStr(s)) => Some(s)
    case _ => None
  }

  /** A required number member. */
  function NumberMember(members: seq<Member>, key: string): (r: Option<real>)
    ensures r.Some? <==> Get(members, key).Some? && Get(members, key).value.JNum?
    ensures r.Some? ==> Get(members, key) == Some(JNum(r.value))
  {
    match Get(members, key)
    case Some(JNum(n)) => Some(n)
    case _ => None
  }

  /** An optional string member: absent is fine, present must be a string
      (`null` is not absent). */
  function OptionalStringMember(members: seq<Member>, key: string): (r: Option<Option<string>>)
    ensures Get(members, key).None? ==> r == Some(None)
    ensures r.Some? && r.value.Some? ==> Get(members, key) == Some(JStr(r.value.value))
    ensures Get(members, key).Some? && !Get(members, key).value.JStr? ==> r.None?
  {
    match Get(members, key)
    case None => Some(None)
    case Some(JStr(s)) => Some(Some(s))
    case Some(_) => None
  }

  function ParseMeals(j: Json): (r: Option<Meals>)
    ensures r.Some? ==> j.JObj?
    ensures r.Some? ==> Get(j.members, "breakfast") == Some(JStr(r.value.breakfast))
    ensures r.Some? ==> Get(j.members, "lunch") == Some(JStr(r.value.lunch))
    ensures r.Some? ==> Get(j.members, "dinner") == Some(JStr(r.value.dinner))
    ensures r.Some? ==> (r.value.snacks.None? <==> Get(j.members, "snacks").None?)
    ensures r.Some? && r.value.snacks.Some? ==> Get(j.members, "snacks") == Some(JStr(r.value.snacks.value))
  {
    if !j.JObj? then None
    else
      var m := j.members;
      match (StringMember(m, "breakfast"), StringMember(m, "lunch"), StringMember(m, "dinner"),
             OptionalStringMember(m, "snacks"))
      case (Some(b), Some(l), Some(d), Some(s)) => Some(Meals(b, l, d, s))
      case _ => None
  }

  function ParseDailyPlan(j: Json): (r: Option<DailyPlan>)
    ensures r.Some? ==> j.JObj?
    ensures r.Some? ==> Get(j.members, "day") == Some(JStr(r.value.day))
    ensures r.Some? ==> Get(j.members, "dailyTotal") == Some(JStr(r.value.dailyTotal))
    ensures r.Some? ==> Get(j.members, "meals").Some? && ParseMeals(Get(j.members, "meals").value) == Some(r.value.meals)
  {
    if !j.JObj? then None
    else
      var m := j.members;
      match (StringMember(m, "day"), Get(m, "meals"), StringMember(m, "dailyTotal"))
      case (Some(day), Some(meals), Some(total)) =>
        (match ParseMeals(meals)
         case Some(ms) => Some(DailyPlan(day, ms, total))
         case None => None)
      case _ => None
  }

  /** `z.array(schema)`: every element must pass `parse`; one bad element
      rejects the list. */
  function ParseEach<T>(items: seq<Json>, parse: Json -> Option<T>): (r: Option<seq<T>>)
    ensures r.Some? ==> |r.value| == |items| &&
                        forall i :: 0 <= i < |items| ==> parse(items[i]) == Some(r.value[i])
  {
    if items == [] then Some([])
    else
      match parse(items[0])
      case None => None
      case Some(x) =>
        match ParseEach(items[1..], parse)
        case None => None
        case Some(xs) => Some([x] + xs)
  }

  /** A list is accepted exactly when each of its elements is. */
  lemma {:induction false} ParseEachAll<T>(items: seq<Json>, parse: Json -> Option<T>)
    ensures ParseEach(items, parse).Some? <==> forall i :: 0 <= i < |items| ==> parse(items[i]).Some?
  {
    if items != [] {
      ParseEachAll(items[1..], parse);
      assert forall i :: 1 <= i < |items| ==> items[i] == items[1..][i - 1];
    }
  }

  /** Elements that each read as the matching value read as the list of
      those values. */
  lemma {:induction false} ParseEachPointwise<T>(items: seq<Json>, parse: Json -> Option<T>, values: seq<T>)
    requires |items| == |values|
    requires forall i :: 0 <= i < |items| ==> parse(items[i]) == Some(values[i])
    ensures ParseEach(items, parse) == Some(values)
  {
    if items != [] {
      assert parse(items[0]) == Some(values[0]);
      assert forall i :: 0 <= i < |items| - 1 ==> items[1..][i] == items[i + 1] && values[1..][i] == values[i + 1];
      ParseEachPointwise(items[1..], parse, values[1..]);
      assert [values[0]] + values[1..] == values;
    }
  }

  function ParseMacros(j: Json): (r: Option<MacronutrientDistribution>)
    ensures r.Some? ==> j.JObj? && Get(j.members, "carbs") == Some(JNum(r.value.carbs)) &&
                        Get(j.members, "protein") == Some(JNum(r.value.protein)) &&
                        Get(j.members, "fat") == Some(JNum(r.value.fat))
  {
    if !j.JObj? then None
    else
      var m := j.members;
      match (NumberMember(m, "carbs"), NumberMember(m, "protein"), NumberMember(m, "fat"))
      case (Some(c), Some(p), Some(f)) => Some(MacronutrientDistribution(c, p, f))
      case _ => None
  }

  /** The output schema's check of the model's answer: the plan it accepts
      has exactly seven days, each read from the answer's `weeklyPlan`. */
  function ParsePlan(j: Json): (r: Option<DietPlan>)
    ensures r.Some? ==> ValidPlan(r.value)
    ensures r.Some? ==> j.JObj? && Get(j.members, "weeklyPlan").Some? &&
                        Get(j.members, "weeklyPlan").value.JArr? &&
                        |Get(j.members, "weeklyPlan").value.items| == DaysInPlan
    ensures r.Some? ==> Get(j.members, "summary") == Some(JStr(r.value.summary))
    ensures r.Some? ==> Get(j.members, "macronutrientDistribution").Some? &&
                        ParseMacros(Get(j.members, "macronutrientDistribution").value) ==
                          Some(r.value.macronutrientDistribution)
    ensures r.Some? ==> ParseEach(Get(j.members, "weeklyPlan").value.items, ParseDailyPlan) ==
                          Some(r.value.weeklyPlan)
  {
    if !j.JObj? then None
    else
      var m := j.members;
      match (StringMember(m, "summary"), Get(m, "macronutrientDistribution"), Get(m, "weeklyPlan"))
      case (Some(summary), Some(macros), Some(JArr(items))) =>
        if |items| != DaysInPlan then None
        else
          (match (ParseMacros(macros), ParseEach(items, ParseDailyPlan))
           case (Some(md), Some(days)) => Some(DietPlan(summary, md, days))
           case _ => None)
      case _ => None
  }

  // ---- Writing a plan as JSON, in the schema's key order ----

  function MealsToJson(m: Meals): Json {
    var required := [Member("breakfast", JStr(m.breakfast)), Member("lunch", JStr(m.lunch)),
                     Member("dinner", JStr(m.dinner))];
    JObj(if m.snacks.Some? then required + [Member("snacks", JStr(m.snacks.value))] else required)
  }

  function DailyPlanToJson(d: DailyPlan): Json {
    JObj([Member("day", JStr(d.day)), Member("meals", MealsToJson(d.meals)),
          Member("dailyTotal", JStr(d.dailyTotal))])
  }

  function MacrosToJson(md: MacronutrientDistribution): Json {
    JObj([Member("carbs", JNum(md.carbs)), Member("protein", JNum(md.protein)), Member("fat", JNum(md.fat))])
  }

  function DaysToJson(days: seq<DailyPlan>): (items: seq<Json>)
    ensures |items| == |days|
    ensures forall i :: 0 <= i < |days| ==> items[i] == DailyPlanToJson(days[i])
  {
    if days == [] then [] else [DailyPlanToJson(days[0])] + DaysToJson(days[1..])
  }

  function PlanToJson(p: DietPlan): Json {
    JObj([Member("summary", JStr(p.summary)),
          Member("macronutrientDistribution", MacrosToJson(p.macronutrientDistribution)),
          Member("weeklyPlan", JArr(DaysToJson(p.weeklyPlan)))])
  }

  /** The three required meals read back from the members written for them. */
  lemma RequiredMealsRead(m: Meals)
    ensures var required := [Member("breakfast", JStr(m.breakfast)), Member("lunch", JStr(m.lunch)),
                             Member("dinner", JStr(m.dinner))];
      && Get(required, "breakfast") == Some(JStr(m.breakfast))
      && Get(required, "lunch") == Some(JStr(m.lunch))
      && Get(required, "dinner") == Some(JStr(m.dinner))
      && Get(required, "snacks") == None
  {
    assert "breakfast" != "lunch" && "breakfast" != "dinner" && "lunch" != "dinner" by {
      assert |"breakfast"| == 9 && |"lunch"| == 5 && |"dinner"| == 6;
    }
    assert "snacks" != "breakfast" && "snacks" != "lunch" && "snacks" != "dinner" by {
      assert "snacks"[0] != "dinner"[0] && |"snacks"| == 6;
    }
    GetThree(Member("breakfast", JStr(m.breakfast)), Member("lunch", JStr(m.lunch)), Member("dinner", JStr(m.dinner)));
  }

  /** With snacks written last, each meal still reads back as written. */
  lemma AllMealsRead(m: Meals)
    requires m.snacks.Some?
    ensures var members := MealsToJson(m).members;
      && Get(members, "breakfast") == Some(JStr(m.breakfast))
      && Get(members, "lunch") == Some(JStr(m.lunch))
      && Get(members, "dinner") == Some(JStr(m.dinner))
      && Get(members, "snacks") == Some(JStr(m.snacks.value))
  {
    var required := [Member("breakfast", JStr(m.breakfast)), Member("lunch", JStr(m.lunch)),
                     Member("dinner", JStr(m.dinner))];
    var snack := Member("snacks", JStr(m.snacks.value));
    assert MealsToJson(m).members == required + [snack];
    RequiredMealsRead(m);
    assert "snacks" != "breakfast" && "snacks" != "lunch" && "snacks" != "dinner" by {
      assert "snacks"[0] != "dinner"[0] && |"snacks"| == 6;
    }
    GetAppended(required, snack, "breakfast");
    GetAppended(required, snack, "lunch");
    GetAppended(required, snack, "dinner");
    GetAppended(required, snack, "snacks");
  }

  /** Meals written as JSON read back unchanged, with or without snacks. */
  lemma MealsRoundTrip(m: Meals)
    ensures ParseMeals(MealsToJson(m)) == Some(m)
  {
    if m.snacks.Some? {
      AllMealsRead(m);
    } else {
      RequiredMealsRead(m);
    }
  }

  lemma DailyPlanRoundTrip(d: DailyPlan)
    ensures ParseDailyPlan(DailyPlanToJson(d)) == Some(d)
  {
    MealsRoundTrip(d.meals);
    assert "day" != "meals" && "day" != "dailyTotal" && "meals" != "dailyTotal" by {
      assert |"day"| == 3 && |"meals"| == 5 && |"dailyTotal"| == 10;
    }
    var members := DailyPlanToJson(d).members;
    GetThree(members[0], members[1], members[2]);
  }

  lemma DaysRoundTrip(days: seq<DailyPlan>)
    ensures ParseEach(DaysToJson(days), ParseDailyPlan) == Some(days)
  {
    var items := DaysToJson(days);
    forall i | 0 <= i < |items|
      ensures ParseDailyPlan(items[i]) == Some(days[i])
    {
      DailyPlanRoundTrip(days[i]);
    }
    ParseEachPointwise(items, ParseDailyPlan, days);
  }

  lemma MacrosRoundTrip(md: MacronutrientDistribution)
    ensures ParseMacros(MacrosToJson(md)) == Some(md)
  {
    assert "carbs" != "protein" && "carbs" != "fat" && "protein" != "fat" by {
      assert |"carbs"| == 5 && |"protein"| == 7 && |"fat"| == 3;
    }
    var members := MacrosToJson(md).members;
    GetThree(members[0], members[1], members[2]);
  }

  /** A plan written as JSON is accepted back unchanged exactly when it has
      seven days; with six or eight it is rejected. */
  lemma PlanRoundTrip(p: DietPlan)
    ensures ParsePlan(PlanToJson(p)) == if ValidPlan(p) then Some(p) else None
  {
    assert "summary" != "macronutrientDistribution" && "summary" != "weeklyPlan" &&
           "macronutrientDistribution" != "weeklyPlan" by {
      assert |"summary"| == 7 && |"macronutrientDistribution"| == 25 && |"weeklyPlan"| == 10;
    }
    var members := PlanToJson(p).members;
    GetThree(members[0], members[1], members[2]);
    MacrosRoundTrip(p.macronutrientDistribution);
    DaysRoundTrip(p.weeklyPlan);
  }

  /** The macronutrient percentages are not required to add up to 100. */
  lemma MacroSumNotEnforced(p: DietPlan)
    requires ValidPlan(p)
    requires p.macronutrientDistribution == MacronutrientDistribution(50.0, 30.0, 30.0)
    ensures ParsePlan(PlanToJson(p)) == Some(p)
    ensures p.macronutrientDistribution.carbs + p.macronutrientDistribution.protein +
            p.macronutrientDistribution.fat != 100.0
  {
    PlanRoundTrip(p);
  }

  /** A day without a `day` string is rejected whatever else it holds. */
  lemma DayNameRequired(meals: Json, total: Json)
    ensures ParseDailyPlan(JObj([Member("meals", meals), Member("dailyTotal", total)])) == None
  {
    assert Get([Member("meals", meals), Member("dailyTotal", total)], "day") == None;
  }

  /** Snacks may be left out, but `null` snacks are rejected. */
  lemma NullSnacksRejected(b: string, l: string, d: string)
    ensures ParseMeals(JObj([Member("breakfast", JStr(b)), Member("lunch", JStr(l)),
                             Member("dinner", JStr(d)), Member("snacks", JNull)])) == None
  {
    var members := [Member("breakfast", JStr(b)), Member("lunch", JStr(l)),
                    Member("dinner", JStr(d)), Member("snacks", JNull)];
    assert Get(members, "snacks") == Some(JNull);
  }

  /** `generateDietPlan`: ask the model, then check its answer against the
      output schema. A failed call, a missing answer or an answer of the wrong
      shape is a failure; an accepted answer is returned unchanged. */
  function GenerateDietPlan(model: GenerateDietPlanInput -> Outcome<Json>, input: GenerateDietPlanInput): (r: Outcome<DietPlan>)
    ensures r.Ok? <==> model(input).Ok? && ParsePlan(model(input).value).Some?
    ensures r.Ok? ==> ValidPlan(r.value) && Some(r.value) == ParsePlan(model(input).value)
  {
    match model(input)
    case Fail => Fail
    case Ok(answer) =>
      match ParsePlan(answer)
      case Some(plan) => Ok(plan)
      case None => Fail
  }

  /** When the model answers with a seven-day plan, that plan is the result. */
  lemma GenerateDietPlanPassesThrough(model: GenerateDietPlanInput -> Outcome<Json>, input: GenerateDietPlanInput, p: DietPlan)
    requires ValidPlan(p) && model(input) == Ok(PlanToJson(p))
    ensures GenerateDietPlan(model, input) == Ok(p)
  {
    PlanRoundTrip(p);
  }
}
