# NutriGenius diet planner — a Dafny model

NutriGenius is a diet-planner web application. A user enters a health profile:
BMI, age, medical history and dietary preferences. A language model then
writes a seven-day meal plan from it, and later a shopping list, recipe ideas
and chat answers. The text generation happens outside the application. The
application's own logic is what this project models:

- **Profile validation** (`ProfileSchema`). These are the form schema's
  coercion, range and length rules and the messages they report.
- **Server actions** (`Actions`). Each action checks its input, fills in
  defaults, calls its generator and turns a failure into a fixed message.
- **Diet-plan contract** (`DietPlanFlow`). This is the shape a generated plan
  must have to be accepted, and the flow that returns it unchanged.
- **Home page** (`Page`):
  - the weekly progress tracker;
  - the shopping-list category icons;
  - what clicking a day does;
  - the state that the three generate buttons update.
- **Chat widget** (`ChatbotWidget`).
- **Login page** (`Login`). This is its password rule and its mapping from
  authentication errors to messages, together with its loading and error
  state.

Supporting modules model the JavaScript behaviour the application relies on:

- `JsString`: `trim`, ASCII `toLowerCase`, string truthiness, and `length`
  in UTF-16 code units;
- `JsNumber`: `Number(value)` coercion of strings;
- `Json`: JSON values and `JSON.stringify`;
- `FlowShapes`: the result shapes of the other flows;
- `Wrappers`: option and result types.

Generators, meaning the language-model calls, are function parameters.
Each returns `Ok(value)` or `Fail`, and `Fail` stands for a thrown error. The
same goes for the authentication service and the e-mail syntax check.
Asynchronous handlers are split into a first step that starts the request and
a second step that receives its result. Each page also has a method that runs
the two steps back to back against a given generator.

## Model

| member | source | states |
|---|---|---|
| ProfileSchema.FailedMessages | src/lib/types.ts:4-17 | The rules broken by a value, in declaration order. There are none exactly when every rule passes, and there are never more messages than rules. |
| ProfileSchema.FailedMessagesExact | src/lib/types.ts:4-17 | Every broken rule's message is reported, and every reported message comes from a broken rule. |
| ProfileSchema.AllPassEach | src/lib/types.ts:4-17 | Passing the chained rules one after another is the same as passing each rule. |
| ProfileSchema.ParseNumber | src/lib/types.ts:4-12 | A coerced number succeeds exactly when `Number(v)` is not NaN and every rule passes, and the result is the coerced value. NaN fails with the schema's own type message and nothing else. |
| ProfileSchema.ParseString | src/lib/types.ts:13-17 | A string succeeds exactly when its UTF-16 length passes every rule, and the result is the string itself. A non-string fails with zod's type message only. |
| ProfileSchema.ParseOptionalString | src/lib/types.ts:17 | A missing value is accepted as absent. Anything else, `null` included, goes through the string rules. |
| ProfileSchema.BmiMessages | src/lib/types.ts:6-7 | A BMI below 10 reports the "too low" message and a BMI above 60 reports the "too high" message. |
| ProfileSchema.BmiRule | src/lib/types.ts:4-7 | BMI is accepted iff it coerces to a number in [10, 60], both ends included. |
| ProfileSchema.AgeMessages | src/lib/types.ts:8-12 | A fractional age, an age below 12 and an age above 120 each report a message, in that order. A fractional age gets the schema's type message, "Age must be a number.", because the `invalid_type_error` map also rewrites the type issue that `.int()` raises. |
| ProfileSchema.AgeRule | src/lib/types.ts:8-12 | Age is accepted iff it coerces to an integer in [12, 120]. |
| ProfileSchema.MedicalHistoryMessages | src/lib/types.ts:15-16 | A length below 2 or above 500 reports the matching message. |
| ProfileSchema.MedicalHistoryRule | src/lib/types.ts:13-16 | The medical history is accepted iff it is a string of 2 to 500 code units. |
| ProfileSchema.PreferencesMessages | src/lib/types.ts:17 | A length above 500 reports the "too long" message. |
| ProfileSchema.DietaryPreferencesRule | src/lib/types.ts:17 | The preferences are accepted iff they are absent or a string of at most 500 code units. |
| ProfileSchema.FieldRule | src/lib/types.ts:3-18 | A field reports no message iff its own rule accepts its value. |
| ProfileSchema.ValidateProfileAccepts | src/lib/types.ts:3-18 | `safeParse` succeeds iff every field is accepted on its own. On failure it reports all four fields' issues. |
| ProfileSchema.ValidateProfile | src/lib/types.ts:3-18 | `safeParse` fails exactly when some field reports an issue, and then carries all of them. A parsed profile holds the coerced BMI and age (the age as an integer) and the strings as given. Absent preferences stay absent. |
| ProfileSchema.IssuesFor | src/lib/types.ts:3-18 | The issues on one field: every one of them is on that field and comes from the list, and none on that field is dropped. |
| ProfileSchema.Tag | src/lib/types.ts:3-18 | Each message becomes one issue on the given field, in the same order. |
| ProfileSchema.TaggedPaths | src/lib/types.ts:3-18 | A field's tagged messages all belong to that field. |
| ProfileSchema.IssuesForConcat | src/lib/types.ts:3-18 | Selecting one field's issues commutes with concatenation. |
| ProfileSchema.FourPartsSelect | src/lib/types.ts:3-18 | When four parts each hold issues on their own field only, the issues on a field are exactly that field's part. |
| ProfileSchema.FieldIssuesPaths | src/lib/types.ts:3-18 | A field's own issues are reported on that field and on no other. |
| ProfileSchema.IssuesOnField | src/lib/types.ts:3-18 | The issues on a field are exactly that field's own messages. |
| ProfileSchema.FieldsIndependent | src/lib/types.ts:3-18 | A field's issues depend only on that field's value. |
| ProfileSchema.BmiBoundsInclusive | src/lib/types.ts:6-7 | 10 and 60 are accepted; 9.9 and 60.1 are rejected, each with its own message. |
| ProfileSchema.BmiNotANumber | src/lib/types.ts:4-5 | "abc" and a missing BMI report only "BMI must be a number.". |
| ProfileSchema.FractionalAgeRejected | src/lib/types.ts:8-10 | The text "30.5" coerces to a number but fails the integer rule, and it reports the same message as "abc". |
| ProfileSchema.YoungFractionalAge | src/lib/types.ts:8-11 | 11.5 reports the age's type message (from the integer rule), then the minimum-age message. |
| ProfileSchema.MedicalHistoryExamples | src/lib/types.ts:13-16 | "None" is accepted. "a" is too short. A missing value is "Required" and a number is the wrong type. |
| ProfileSchema.DietaryPreferencesExamples | src/lib/types.ts:17 | Missing preferences and the empty string are accepted; `null` is rejected. |
| ProfileSchema.TypicalProfileAccepted | src/lib/types.ts:3-18 | BMI 22.5, age 30, history "None" and no preferences are accepted, and the profile holds exactly those values. |
| JsNumber.ToNumber | src/lib/types.ts:4-5 | `Number(v)` for numbers, booleans, `null` and `undefined`. Strings go through StringToNumber. |
| JsNumber.StringToNumber | src/lib/types.ts:4-5 | String coercion: an empty or all-white-space string reads as 0. The numeral lemmas below give its other values. |
| JsNumber.BlankStringIsZero | src/lib/types.ts:4-5 | An empty or all-space string coerces to 0. |
| JsNumber.IntTextRoundTrip | src/lib/types.ts:4-5 | The decimal numeral of any integer coerces back to that integer. |
| JsNumber.NatTextValue | src/lib/types.ts:4-5 | The digits written for a natural number read back as that number. |
| JsNumber.DecimalStringExample | src/lib/types.ts:8-9 | The text "30.5" coerces to exactly 30.5. |
| JsNumber.ExponentStringExample | src/lib/types.ts:4-5 | "1e1" coerces to 10. |
| JsNumber.WordStringExample | src/lib/types.ts:4-5 | "abc" coerces to NaN. |
| JsString.TrimEmptyIffBlank | src/components/chatbot.tsx:29 | `trim()` gives the empty string exactly when the text is all white space. |
| JsString.ToLowerIdempotent | src/app/page.tsx:192 | Lower-casing twice is lower-casing once. |
| Actions.Guarded | src/app/actions.ts:27-33 | The `try`/`catch` around a generator gives exactly one of data and error. Data is present iff the generator succeeds, and it is the projected answer; an error is the given fixed message. |
| Actions.ToFlowInput | src/app/actions.ts:22-25 | The validated values pass unchanged. Absent or empty preferences become "None", and other preferences are kept. |
| Actions.GenerateDietPlanAction | src/app/actions.ts:14-34 | An invalid profile gives the invalid-input message, whatever the model does. For a valid profile the flow is called with the validated values: its plan is the data, and its failure gives the unavailability message. Data is always a seven-day plan, and the only errors are the two fixed messages. |
| Actions.GenerateShoppingListAction | src/app/actions.ts:36-50 | Only "" is refused, with its own message, whatever the generator does. Data is present iff the text is non-empty and the generator succeeds, and it is the generator's list. A failure gives its fixed message. |
| Actions.SuggestRecipesAction | src/app/actions.ts:52-65 | The same as the shopping-list action, with `recipes` of the answer as the data. |
| Actions.AskChatbotAction | src/app/actions.ts:67-80 | The same as the shopping-list action, with `answer` of the answer as the data. |
| Actions.ModelSeesSubmittedProfile | src/app/actions.ts:17-25 | For a valid profile, the model receives the coerced BMI and age, the medical history as given, and the preferences or "None". |
| Actions.MalformedAnswerIsUnavailable | src/app/actions.ts:27-33 | For a valid profile, a failed model call or an answer the output schema rejects reaches the user as the unavailability message. Only the model's behaviour on this profile matters. |
| Actions.WellFormedAnswerIsReturned | src/app/actions.ts:27-29 | For a valid profile, a seven-day plan the model gives for it reaches the user unchanged. |
| Actions.TypicalProfileUnavailable | src/app/actions.ts:22-33 | For the typical profile the model is asked with "None" as the preferences, and a model that fails on that one request gives the unavailability message. |
| Actions.MessagesDistinct | src/app/actions.ts:19 | The eight failure messages are pairwise different. |
| DietPlanFlow.ParseMeals | src/ai/flows/generate-diet-plan.ts:28-33 | Accepted meals come from an object whose breakfast, lunch and dinner members are those strings. Snacks are absent exactly when the object has no snacks member, and present snacks are that member's string. |
| DietPlanFlow.ParseDailyPlan | src/ai/flows/generate-diet-plan.ts:35-39 | An accepted day comes from an object with a `day` string, a `dailyTotal` string and a `meals` member that is accepted as the day's meals. |
| DietPlanFlow.ParseEach | src/ai/flows/generate-diet-plan.ts:48 | An accepted array has one value per element, each the element read by the element schema, in order. |
| DietPlanFlow.ParseEachAll | src/ai/flows/generate-diet-plan.ts:48 | An array is accepted exactly when each of its elements is. |
| DietPlanFlow.ParseEachPointwise | src/ai/flows/generate-diet-plan.ts:48 | Elements that each read as the matching value read as the list of those values. |
| DietPlanFlow.ParseMacros | src/ai/flows/generate-diet-plan.ts:43-47 | Accepted macronutrients are the numbers stored under carbs, protein and fat. |
| DietPlanFlow.ValidPlan | src/ai/flows/generate-diet-plan.ts:48 | The output schema's `.length(7)`: a plan has exactly seven days. |
| DietPlanFlow.ParsePlan | src/ai/flows/generate-diet-plan.ts:41-49 | An accepted plan has seven days, read from a `weeklyPlan` array of exactly seven entries. Its summary is the `summary` string, its macronutrients are read from `macronutrientDistribution`, and its days are the array's elements read as days. |
| DietPlanFlow.RequiredMealsRead | src/ai/flows/generate-diet-plan.ts:28-31 | The three required meals read back from the members written for them. |
| DietPlanFlow.AllMealsRead | src/ai/flows/generate-diet-plan.ts:28-32 | With snacks written after the three meals, every meal and the snacks read back as written. |
| DietPlanFlow.MealsRoundTrip | src/ai/flows/generate-diet-plan.ts:28-33 | Meals written as JSON, with or without snacks, read back unchanged. |
| DietPlanFlow.DailyPlanRoundTrip | src/ai/flows/generate-diet-plan.ts:35-39 | A day written as JSON reads back unchanged. |
| DietPlanFlow.DaysRoundTrip | src/ai/flows/generate-diet-plan.ts:48 | Any list of days written as JSON reads back unchanged. |
| DietPlanFlow.MacrosRoundTrip | src/ai/flows/generate-diet-plan.ts:43-47 | The macronutrients written as JSON read back unchanged. |
| DietPlanFlow.PlanRoundTrip | src/ai/flows/generate-diet-plan.ts:41-49 | A plan written as JSON is accepted back unchanged iff it has seven days. With six or eight days it is rejected. |
| DietPlanFlow.MacroSumNotEnforced | src/ai/flows/generate-diet-plan.ts:43-47 | A plan whose percentages add up to 110 is still accepted. |
| DietPlanFlow.DayNameRequired | src/ai/flows/generate-diet-plan.ts:36 | A day without a `day` member is rejected. |
| DietPlanFlow.NullSnacksRejected | src/ai/flows/generate-diet-plan.ts:32 | Snacks may be left out, but `null` snacks are rejected. |
| DietPlanFlow.GenerateDietPlan | src/ai/flows/generate-diet-plan.ts:52-54 | The flow succeeds iff the model answers and the answer meets the output schema. The result is then the parsed answer, a seven-day plan. |
| DietPlanFlow.GenerateDietPlanPassesThrough | src/ai/flows/generate-diet-plan.ts:82-91 | An answer that is a seven-day plan is returned unchanged. |
| Json.Get | src/ai/flows/generate-diet-plan.ts:41-49 | A key's value in an object: absent iff no member has the key, otherwise the last member with that key. |
| Json.GetDistinct | src/ai/flows/generate-diet-plan.ts:41-49 | When keys are distinct, each key reads as the value written with it. |
| Json.Stringify | src/app/page.tsx:146 | `JSON.stringify` gives non-empty text, with braces around an object, brackets around an array and quotes around a string. |
| Page.Without | src/app/page.tsx:59 | `filter(d => d !== x)` keeps exactly the other elements and never lengthens the list. |
| Page.Toggled | src/app/page.tsx:57-61 | A toggle changes the membership of exactly the toggled day. |
| Page.WithoutKeepsDistinct | src/app/page.tsx:59 | Filtering keeps a list free of duplicates. |
| Page.WithoutDistinctLength | src/app/page.tsx:59 | Removing a day that occurs once shortens the list by one. |
| Page.DistinctBelow | src/app/page.tsx:51-54 | Distinct indices below n number at most n. |
| Page.ToggleKeepsWellFormed | src/app/page.tsx:57-61 | Toggling an index in 0..6 keeps the days distinct and in range. |
| Page.ProgressPercent | src/app/page.tsx:54 | Progress is never negative. It is at most 100 iff at most seven days are checked, and exactly 100 iff all seven are. |
| Page.ProgressInRange | src/app/page.tsx:53-55 | With well-formed days the progress is between 0 and 100. |
| Page.ToggleTwice | src/app/page.tsx:57-61 | Toggling twice restores the set of days. An unchecked day brings back the same list; a checked one moves to the end. |
| Page.ProgressTracker.constructor | src/app/page.tsx:48-49 | The tracker starts with no day checked and progress 0, which is well formed. |
| Page.ProgressTracker.HandleDayToggle | src/app/page.tsx:53-61 | The days become the toggled list and progress is `\|days\| / 7 * 100`. For an index in 0..6 the tracker stays well formed and progress stays in [0, 100]. |
| Page.CategoryIcon | src/app/page.tsx:191-207 | Carrot, beef, milk or wheat iff the lower-cased name is one of that icon's names; anything else gets the cart. |
| Page.CategoryIconIgnoresCase | src/app/page.tsx:192 | The icon does not depend on letter case. |
| Page.ProduceIcon | src/app/page.tsx:193-194 | "Produce" gets the carrot. |
| Page.UpperCaseMeatIcon | src/app/page.tsx:196-197 | "MEAT" gets the beef icon. |
| Page.UnknownCategoryIcon | src/app/page.tsx:204-205 | "Fruit" gets the cart. |
| Page.PlanText | src/app/page.tsx:146 | The stored plan text is non-empty and starts with `{`. |
| Page.DayClick | src/app/page.tsx:145-148 | Store the plan text under "dietPlan", then go to "/plan/" followed by the lower-cased day. |
| Page.NutriGeniusPage.constructor | src/app/page.tsx:244-247 | The page starts with no flag raised and no plan, list or recipes. |
| Page.NutriGeniusPage.BeginDietPlan | src/app/page.tsx:262-266 | Clears the plan, the list and the recipes. Only the diet flag is raised. |
| Page.NutriGeniusPage.FinishDietPlan | src/app/page.tsx:268-279 | An error keeps the plan; otherwise the plan becomes the data. The diet flag drops, and the other flags and results stay. |
| Page.NutriGeniusPage.HandleGenerateDietPlan | src/app/page.tsx:262-280 | After a request the page shows exactly the action's data, with no list, no recipes and no flag raised. |
| Page.NutriGeniusPage.BeginShoppingList | src/app/page.tsx:282-286 | Without a plan nothing changes. With one, only the list flag is raised and the plan's JSON text is the request. |
| Page.NutriGeniusPage.FinishShoppingList | src/app/page.tsx:286-297 | An error keeps the old list; otherwise the list becomes the data. Only the list flag drops. |
| Page.NutriGeniusPage.HandleGenerateShoppingList | src/app/page.tsx:282-298 | Without a plan nothing changes. With one, a failed generator keeps the old list and a successful one shows its list; the plan and the recipes are untouched. |
| Page.NutriGeniusPage.BeginRecipes | src/app/page.tsx:300-304 | The same as the list start, for the recipes flag. |
| Page.NutriGeniusPage.FinishRecipes | src/app/page.tsx:304-315 | The same as the list end, for the recipes. |
| Page.NutriGeniusPage.HandleSuggestRecipes | src/app/page.tsx:300-316 | The same as the shopping-list request, showing the recipe names. |
| Page.PageRequestsAreNeverEmpty | src/app/page.tsx:286 | The plan text is never empty, so the page never receives the "plan required" messages. |
| ChatbotWidget.BotReply | src/components/chatbot.tsx:37-48 | The bot's line is never empty. An error gives the apology; otherwise a non-empty answer is the line, and a missing or empty one gives the fallback. |
| ChatbotWidget.AlternatingCounts | src/components/chatbot.tsx:31-47 | In a log where questions and replies take turns, starting with a question, there is one more question than replies when the length is odd and as many when it is even. |
| ChatbotWidget.LogLength | src/components/chatbot.tsx:31-47 | In a log the widget keeps, lines alternate question, reply, question, and so on. So every question but the pending one has exactly one reply, the one right after it. The log has twice as many lines as replies, plus the pending question, which is then the last line. |
| ChatbotWidget.QuestionKeepsLogValid | src/components/chatbot.tsx:31-33 | Logging an accepted question after a complete exchange keeps every line well formed and the turns alternating. The question is then pending. |
| ChatbotWidget.ReplyKeepsLogValid | src/components/chatbot.tsx:43-47 | Logging the reply right after the pending question keeps the turns alternating, and nothing is pending afterwards. |
| ChatbotWidget.Chatbot.constructor | src/components/chatbot.tsx:20-23 | The widget starts closed, with an empty log and input and nothing pending. That log is valid. |
| ChatbotWidget.Chatbot.SetInput | src/components/chatbot.tsx:140 | Typing replaces the input field and changes nothing else. |
| ChatbotWidget.Chatbot.Toggle | src/components/chatbot.tsx:64 | The button flips `isOpen` and changes nothing else. |
| ChatbotWidget.Chatbot.Submit | src/components/chatbot.tsx:28-36 | A blank input or a pending question is ignored. Otherwise the raw input is appended as the user's line, the field is cleared, a question is pending, and the question sent is the input as typed. |
| ChatbotWidget.Chatbot.Resolve | src/components/chatbot.tsx:37-49 | Exactly one bot line is appended after the existing log: the apology on an error, otherwise the answer or the fallback. Nothing is pending afterwards. |
| ChatbotWidget.Chatbot.HandleSubmit | src/components/chatbot.tsx:27-50 | An accepted submit appends the question and then the reply to the existing log. An ignored one changes nothing. |
| ChatbotWidget.ReplyToSubmittedQuestion | src/components/chatbot.tsx:29-47 | A question that passes the blank check never gets the "enter a question" error. The reply is the answer, the fallback for an empty answer, or the apology when the generator fails. |
| Login.ValidateLogin | src/app/login/page.tsx:17-20 | No issue iff the e-mail passes its check and the password has at least 6 code units. Each issue is the message of a broken rule. |
| Login.PasswordLengthBounds | src/app/login/page.tsx:19 | Six characters always pass the password rule; fewer than three never do. |
| Login.PasswordExamples | src/app/login/page.tsx:19 | "secret" passes; "12345" does not. |
| Login.MessageOr | src/app/login/page.tsx:62 | The error's own message when it is non-empty, otherwise the fallback. |
| Login.LoginErrorMessage | src/app/login/page.tsx:56-63 | The login message is never empty. |
| Login.LoginErrorCases | src/app/login/page.tsx:57-62 | Unknown user first, even when its code is also the wrong-password code. Wrong password next. Then the error's message or the login fallback. |
| Login.UncodedLoginError | src/app/login/page.tsx:61-62 | An error without a code shows its message, or the fallback when it has none. |
| Login.RegisterErrorMessage | src/app/login/page.tsx:80-85 | The registration message is never empty. |
| Login.RegisterErrorCases | src/app/login/page.tsx:81-85 | An address in use first, then the error's message or the registration fallback. |
| Login.LoginPage.constructor | src/app/login/page.tsx:25-26 | The page starts not loading and with no error. |
| Login.LoginPage.Begin | src/app/login/page.tsx:47-48 | Loading, with the error cleared. |
| Login.LoginPage.FinishLogin | src/app/login/page.tsx:49-67 | Loading stops. Success goes to "/" and leaves the error unchanged; a failure shows the mapped message. |
| Login.LoginPage.FinishRegister | src/app/login/page.tsx:73-89 | The same, with the registration messages. |
| Login.LoginPage.HandleLogin | src/app/login/page.tsx:46-68 | A form that breaks a rule changes nothing. Otherwise the page ends not loading: success goes home with no error, and a failure shows the mapped message. |
| Login.LoginPage.HandleRegister | src/app/login/page.tsx:70-90 | The same, for registration. |

## Left out

- Floating point. Numbers are exact reals. So the progress formula, the
  BMI bounds and the macronutrient values are exact, and rounding is not
  modelled.
- JsNumber.StringToNumber: "Infinity", "+Infinity" and "-Infinity" read as
  NaN. Such a value fails validation either way, but with a different
  message: the type message rather than a range message.
- Json.Stringify writes integers exactly. Other numbers are written as their
  integer part and up to 20 fraction digits, not in JavaScript's
  shortest-round-trip form or in exponent notation.
- JsString.ToLower lower-cases only ASCII letters. No category name the
  page knows contains a character whose full Unicode lower case is ASCII
  (such as the Kelvin sign), so the icon choice is unaffected.
- Page.DayClick: the route lower-cases only ASCII letters, while
  `toLowerCase` lowers every capital. For a day name holding a non-ASCII
  capital ("Ä") the modelled route keeps it where the page writes "ä".
  The day page that reads the route is not part of this model.
- The language-model prompts and the generation flows' machinery. Every
  generator is a parameter. The shopping-list, recipe and chat flows are
  represented only by their result shapes. src/ai/flows/suggest-recipes is
  not part of this model; its result shape is taken from its use in the
  action.
- Extra members in a model answer. The plan reader ignores them, and what
  the flow's output check does with them is not modelled.
- Page.PlanText: the text is written from the plan in the output schema's
  member order (summary, macronutrient distribution, weekly plan), without
  extra members. The page stringifies the object the flow returned, so its
  text keeps the member order of the model's answer and any extra members
  the output check lets through. A generator that reads that text may
  therefore answer differently from what the shopping-list and recipe
  handlers state.
- `sessionStorage`, the router and the day page that reads the stored plan.
  They are recorded as effect values (`Page.Effect`). Reading the stored JSON
  text back is not modelled.
- Toasts, console logging, the JSX rendering, the pie chart and the chat
  widget's scroll-to-bottom effect.
- Concurrency from `useTransition`. Each handler is split into a start step
  and a result step that run in sequence. The button disabling tied to the
  pending flag is not modelled.
- The authentication service calls and the values of its error codes. These
  are parameters (`Login.AuthCodes`, `signIn`, `signUp`). The redirect of a
  user who is already signed in is also left out.
- The e-mail syntax check of the login form. It is a parameter predicate.
- Login.LoginErrorMessage and Login.RegisterErrorMessage: their own
  contracts say only that the message is non-empty. The priority order is
  stated by Login.LoginErrorCases and Login.RegisterErrorCases.
