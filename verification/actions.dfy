/** The four server actions the pages call. Each rejects missing input with
    its own message before any generator is asked, fills in defaults, asks
    its generator, and turns a failed call into a fixed message. A generator
    is a function parameter whose answer is `Ok(value)` or `Fail` (a thrown
    error). */
module Actions {
  import opened Wrappers
  import opened JsString
  import opened JsNumber
  import opened ProfileSchema
  import opened DietPlanFlow
  import opened Json
  import opened FlowShapes

  /** The `{ data?, error? }` object an action returns. */
  datatype ActionResult<+T> = ActionResult(data: Option<T>, error: Option<string>)

  /** The result carries data or an error message, never both, never neither. */
  predicate ExactlyOne<T>(r: ActionResult<T>) {
    r.data.Some? != r.error.Some?
  }

  function Data<T>(value: T): ActionResult<T> {
    ActionResult(Some(value), None)
  }

  function Error<T>(message: string): ActionResult<T> {
    ActionResult(None, Some(message))
  }

  const InvalidInput := "Invalid input. Please check your entries and try again."
  const DietPlanUnavailable :=
    "Failed to generate diet plan. The AI service may be temporarily unavailable. Please try again later."
  const ShoppingListRequired := "A diet plan is required to generate a shopping list."
  const ShoppingListFailed := "Failed to generate shopping list. Please try again."
  const RecipesRequired := "A diet plan is required to suggest recipes."
  const RecipesFailed := "Failed to suggest recipes. Please try again."
  const QuestionRequired := "Please enter a question."
  const ChatbotUnavailable := "The chatbot is currently unavailable. Please try again later."

  /** The `try { ... } catch` around a generator call: its answer, or the
      given part of it, becomes the data; a failure becomes `failure`. */
  function Guarded<I, T, U>(generate: I -> Outcome<T>, input: I, project: T -> U, failure: string): (r: ActionResult<U>)
    ensures ExactlyOne(r)
    ensures r.data.Some? <==> generate(input).Ok?
    ensures r.data.Some? ==> r.data.value == project(generate(input).value)
    ensures r.error.Some? ==> r.error.value == failure
  {
    match generate(input)
    case Ok(v) => Data(project(v))
    case Fail => Error(failure)
  }

  /** The flow input built from a validated profile: the values as they are,
      except that absent or empty preferences become "None". */
  function ToFlowInput(p: HealthProfile): (input: GenerateDietPlanInput)
    ensures input.bmi == p.bmi && input.age == p.age as real && input.medicalHistory == p.medicalHistory
    ensures input.dietaryPreferences.Some?
    ensures p.dietaryPreferences.Some? && Truthy(p.dietaryPreferences.value) ==>
              input.dietaryPreferences == p.dietaryPreferences
    ensures p.dietaryPreferences == None || p.dietaryPreferences == Some("") ==>
              input.dietaryPreferences == Some("None")
  {
    var prefs := if p.dietaryPreferences.Some? && Truthy(p.dietaryPreferences.value)
                 then p.dietaryPreferences.value else "None";
    GenerateDietPlanInput(p.bmi, p.age as real, p.medicalHistory, Some(prefs))
  }

  /** `generateDietPlanAction(values)`: an invalid profile is refused; a
      valid one is sent through the diet-plan flow, whose failure, for any
      reason, is reported with one fixed message. */
  function GenerateDietPlanAction(model: GenerateDietPlanInput -> Outcome<Json>, values: ProfileValues): (r: ActionResult<DietPlan>)
    ensures ExactlyOne(r)
    ensures !ProfileAccepted(values) ==> r == Error(InvalidInput)
    ensures r.data.Some? ==> ValidPlan(r.data.value)
    ensures r.error.Some? ==> r.error.value == InvalidInput || r.error.value == DietPlanUnavailable
    ensures r.error == Some(DietPlanUnavailable) ==> ProfileAccepted(values)
    ensures ProfileAccepted(values) ==>
              ValidateProfile(values).Success? &&
              r == match GenerateDietPlan(model, ToFlowInput(ValidateProfile(values).value))
                   case Ok(plan) => Data(plan)
                   case Fail => Error(DietPlanUnavailable)
  {
    ValidateProfileAccepts(values);
    match ValidateProfile(values)
    case Failure(_) => Error(InvalidInput)
    case Success(profile) =>
      Guarded((input: GenerateDietPlanInput) => GenerateDietPlan(model, input), ToFlowInput(profile),
              (plan: DietPlan) => plan, DietPlanUnavailable)
  }

  /** `generateShoppingListAction(dietPlan)`: only the empty string is
      refused; any other text, white space included, is sent as it is. */
  function GenerateShoppingListAction(generate: string -> Outcome<GenerateShoppingListOutput>, dietPlan: string): (r: ActionResult<GenerateShoppingListOutput>)
    ensures ExactlyOne(r)
    ensures dietPlan == "" ==> r == Error(ShoppingListRequired)
    ensures r.data.Some? <==> dietPlan != "" && generate(dietPlan).Ok?
    ensures r.data.Some? ==> r.data.value == generate(dietPlan).value
    ensures dietPlan != "" && generate(dietPlan).Fail? ==> r == Error(ShoppingListFailed)
  {
    if !Truthy(dietPlan) then Error(ShoppingListRequired)
    else Guarded(generate, dietPlan, (list: GenerateShoppingListOutput) => list, ShoppingListFailed)
  }

  /** `suggestRecipesAction(dietPlan)`: the data is the list of recipe names. */
  function SuggestRecipesAction(generate: string -> Outcome<SuggestRecipesOutput>, dietPlan: string): (r: ActionResult<seq<string>>)
    ensures ExactlyOne(r)
    ensures dietPlan == "" ==> r == Error(RecipesRequired)
    ensures r.data.Some? <==> dietPlan != "" && generate(dietPlan).Ok?
    ensures r.data.Some? ==> r.data.value == generate(dietPlan).value.recipes
    ensures dietPlan != "" && generate(dietPlan).Fail? ==> r == Error(RecipesFailed)
  {
    if !Truthy(dietPlan) then Error(RecipesRequired)
    else Guarded(generate, dietPlan, (out: SuggestRecipesOutput) => out.recipes, RecipesFailed)
  }

  /** `askChatbotAction(question)`: the data is the answer text. */
  function AskChatbotAction(generate: string -> Outcome<ChatbotOutput>, question: string): (r: ActionResult<string>)
    ensures ExactlyOne(r)
    ensures question == "" ==> r == Error(QuestionRequired)
    ensures r.data.Some? <==> question != "" && generate(question).Ok?
    ensures r.data.Some? ==> r.data.value == generate(question).value.answer
    ensures question != "" && generate(question).Fail? ==> r == Error(ChatbotUnavailable)
  {
    if !Truthy(question) then Error(QuestionRequired)
    else Guarded(generate, question, (out: ChatbotOutput) => out.answer, ChatbotUnavailable)
  }

  // ---- What the actions promise across generators ----

  /** For a valid profile the model is asked with the submitted values, the
      coerced numbers included, and with "None" for absent or empty
      preferences. */
  lemma ModelSeesSubmittedProfile(values: ProfileValues)
    requires ProfileAccepted(values)
    ensures ValidateProfile(values).Success?
    ensures var input := ToFlowInput(ValidateProfile(values).value);
      && Some(input.bmi) == ToNumber(values.bmi)
      && Some(input.age) == ToNumber(values.age)
      && values.medicalHistory == Str(input.medicalHistory)
      && (values.dietaryPreferences == Undefined || values.dietaryPreferences == Str("") ==>
            input.dietaryPreferences == Some("None"))
      && (values.dietaryPreferences.Str? && values.dietaryPreferences.s != "" ==>
            input.dietaryPreferences == Some(values.dietaryPreferences.s))
  {
    ValidateProfileAccepts(values);
  }

  /** A failed call for this profile, or an answer to it that does not have
      the plan's shape (six days, say), reaches the user as the fixed
      unavailability message, whatever the model does for other profiles. */
  lemma MalformedAnswerIsUnavailable(model: GenerateDietPlanInput -> Outcome<Json>, values: ProfileValues)
    requires ValidateProfile(values).Success?
    requires var answer := model(ToFlowInput(ValidateProfile(values).value));
             answer.Ok? ==> ParsePlan(answer.value).None?
    ensures GenerateDietPlanAction(model, values) == Error(DietPlanUnavailable)
  {
    ValidateProfileAccepts(values);
  }

  /** A well-formed seven-day answer to this profile reaches the user
      unchanged. */
  lemma WellFormedAnswerIsReturned(model: GenerateDietPlanInput -> Outcome<Json>, values: ProfileValues, p: DietPlan)
    requires ValidateProfile(values).Success? && ValidPlan(p)
    requires model(ToFlowInput(ValidateProfile(values).value)) == Ok(PlanToJson(p))
    ensures GenerateDietPlanAction(model, values) == Data(p)
  {
    ValidateProfileAccepts(values);
    PlanRoundTrip(p);
  }

  /** For the typical profile the model is asked with "None" filled in for
      the preferences, and a model that fails on that one request alone
      makes the action report the service as unavailable. */
  lemma TypicalProfileUnavailable(model: GenerateDietPlanInput -> Outcome<Json>)
    requires model(GenerateDietPlanInput(22.5, 30.0, "None", Some("None"))) == Fail
    ensures GenerateDietPlanAction(model, ProfileValues(Num(22.5), Num(30.0), Str("None"), Undefined)) ==
            Error(DietPlanUnavailable)
  {
    var values := ProfileValues(Num(22.5), Num(30.0), Str("None"), Undefined);
    TypicalProfileAccepted();
    assert ToFlowInput(ValidateProfile(values).value) == GenerateDietPlanInput(22.5, 30.0, "None", Some("None"));
    MalformedAnswerIsUnavailable(model, values);
  }

  /** No two failure paths share a message, so each message tells which
      action failed and why. */
  lemma MessagesDistinct()
    ensures var messages := [InvalidInput, DietPlanUnavailable, ShoppingListRequired, ShoppingListFailed,
                             RecipesRequired, RecipesFailed, QuestionRequired, ChatbotUnavailable];
      forall i, j :: 0 <= i < j < |messages| ==> messages[i] != messages[j]
  {
    var messages := [InvalidInput, DietPlanUnavailable, ShoppingListRequired, ShoppingListFailed,
                     RecipesRequired, RecipesFailed, QuestionRequired, ChatbotUnavailable];
    var lengths := [55, 100, 52, 51, 43, 44, 24, 61];
    assert forall i :: 0 <= i < |messages| ==> |messages[i]| == lengths[i];
  }
}
