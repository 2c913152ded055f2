/** The health-profile form schema (`dietPlanSchema`): BMI and age are coerced
    to numbers and range-checked, the medical history and the optional dietary
    preferences are length-checked strings. Validation collects one issue per
    failed rule, field by field, and succeeds only when there are none. */
module ProfileSchema {
  import opened Wrappers
  import opened JsString
  import opened JsNumber

  /** One rule attached to a number, or to a string's length: an inclusive
      lower or upper bound, or "is an integer". */
  datatype Check = Min(bound: real, message: string)
                 | Max(bound: real, message: string)
                 | IsInt(message: string)

  predicate IsInteger(x: real) {
    x == x.Floor as real
  }

  predicate Passes(c: Check, x: real) {
    match c
    case Min(b, _) => x >= b
    case Max(b, _) => x <= b
    case IsInt(_) => IsInteger(x)
  }

  /** `x` meets every rule in `checks`. */
  predicate AllPass(checks: seq<Check>, x: real) {
    checks == [] || (Passes(checks[0], x) && AllPass(checks[1..], x))
  }

  /** Meeting the rules one after the other is meeting each of them. */
  lemma {:induction false} AllPassEach(checks: seq<Check>, x: real)
    ensures AllPass(checks, x) <==> forall c <- checks :: Passes(c, x)
  {
    if checks != [] {
      AllPassEach(checks[1..], x);
      assert forall c <- checks :: c == checks[0] || c in checks[1..];
    }
  }

  /** The messages of the rules `x` breaks, in the order the rules are
      declared. Every rule is tried: a broken bound does not hide a later one. */
  function FailedMessages(checks: seq<Check>, x: real): (msgs: seq<string>)
    ensures |msgs| <= |checks|
    ensures msgs == [] <==> AllPass(checks, x)
  {
    if checks == [] then []
    else
      var rest := FailedMessages(checks[1..], x);
      if Passes(checks[0], x) then rest else [checks[0].message] + rest
  }

  /** Every broken rule's message is reported, and every reported message
      belongs to a broken rule. */
  lemma {:induction false} FailedMessagesExact(checks: seq<Check>, x: real)
    ensures forall c <- checks :: !Passes(c, x) ==> c.message in FailedMessages(checks, x)
    ensures forall m <- FailedMessages(checks, x) :: exists c <- checks :: !Passes(c, x) && c.message == m
  {
    if checks != [] {
      FailedMessagesExact(checks[1..], x);
      assert forall c <- checks :: c == checks[0] || c in checks[1..];
    }
  }

  /** A coerced number: the message for input that is not a number, and the
      rules the number must then meet. */
  datatype NumberSchema = NumberSchema(invalidType: string, checks: seq<Check>)

  /** A string whose length (in UTF-16 code units) must meet `checks`;
      `optional` lets the field be absent. */
  datatype StringSchema = StringSchema(checks: seq<Check>, optional: bool)

  /** zod's message for a value that is not a string: "Required" when the
      value is missing, otherwise the type it expected and the one it got. */
  function NotAStringMessage(v: JsValue): string
    requires !v.Str?
  {
    match v
    case Undefined => "Required"
    case Num(_) => "Expected string, received number"
    case NaN => "Expected string, received nan"
    case Bool(_) => "Expected string, received boolean"
    case Null => "Expected string, received null"
  }

  /** `z.coerce.number(...)` followed by its rules: the value is converted
      with `Number`; `NaN` stops with the schema's own message, any other
      number is checked against every rule. */
  function ParseNumber(schema: NumberSchema, v: JsValue): (r: Result<real, seq<string>>)
    ensures r.Success? <==> ToNumber(v).Some? && AllPass(schema.checks, ToNumber(v).value)
    ensures r.Success? ==> r.value == ToNumber(v).value
    ensures ToNumber(v).None? ==> r == Failure([schema.invalidType])
    ensures r.Failure? ==> r.error != []
  {
    match ToNumber(v)
    case None => Failure([schema.invalidType])
    case Some(x) =>
      var msgs := FailedMessages(schema.checks, x);
      if msgs == [] then Success(x) else Failure(msgs)
  }

  /** `z.string()` followed by its length rules; a value that is not a string
      fails with zod's type message and is not measured. */
  function ParseString(schema: StringSchema, v: JsValue): (r: Result<string, seq<string>>)
    ensures r.Success? <==> v.Str? && AllPass(schema.checks, Utf16Length(v.s) as real)
    ensures r.Success? ==> r.value == v.s
    ensures !v.Str? ==> r == Failure([NotAStringMessage(v)])
    ensures r.Failure? ==> r.error != []
  {
    match v
    case Str(s) =>
      var msgs := FailedMessages(schema.checks, Utf16Length(s) as real);
      if msgs == [] then Success(s) else Failure(msgs)
    case _ => Failure([NotAStringMessage(v)])
  }

  /** `.optional()`: a missing value is accepted as absent; anything else
      must pass the string schema. */
  function ParseOptionalString(schema: StringSchema, v: JsValue): (r: Result<Option<string>, seq<string>>)
    ensures v.Undefined? ==> r == Success(None)
    ensures !v.Undefined? ==> match ParseString(schema, v)
      case Success(s) => r == Success(Some(s))
      case Failure(e) => r == Failure(e)
  {
    if v.Undefined? then Success(None)
    else match ParseString(schema, v)
      case Success(s) => Success(Some(s))
      case Failure(e) => Failure(e)
  }

  const BmiSchema := NumberSchema("BMI must be a number.", [
    Min(10.0, BmiTooLow),
    Max(60.0, BmiTooHigh)])

  /** zod reports a failed `.int()` as a type issue (expected integer,
      received float), and the error map that `invalid_type_error` installs
      on the schema rewrites every type issue on a defined value, so a
      fractional age gets the age's type message too. */
  const AgeSchema := NumberSchema(AgeNotANumber, [
    IsInt(AgeNotANumber),
    Min(12.0, TooYoung),
    Max(120.0, TooOld)])

  const MedicalHistorySchema := StringSchema([
    Min(2.0, HistoryTooShort),
    Max(500.0, HistoryTooLong)], false)

  const DietaryPreferencesSchema := StringSchema([
    Max(500.0, PreferencesTooLong)], true)

  /** The form's fields, in the schema's order. */
  datatype Field = Bmi | Age | MedicalHistory | DietaryPreferences

  /** One validation message and the field it is reported on. */
  datatype Issue = Issue(path: Field, message: string)

  /** The values submitted for the four fields, as they arrive. */
  datatype ProfileValues = ProfileValues(bmi: JsValue, age: JsValue, medicalHistory: JsValue, dietaryPreferences: JsValue)

  /** A profile that passed validation, with BMI and age already numbers. */
  datatype HealthProfile = HealthProfile(bmi: real, age: int, medicalHistory: string, dietaryPreferences: Option<string>)

  function FieldValue(values: ProfileValues, f: Field): JsValue {
    match f
    case Bmi => values.bmi
    case Age => values.age
    case MedicalHistory => values.medicalHistory
    case DietaryPreferences => values.dietaryPreferences
  }

  /** The messages one field's value produces, or none when it is accepted. */
  function FieldMessages(f: Field, v: JsValue): seq<string> {
    match f
    case Bmi => (match ParseNumber(BmiSchema, v) case Success(_) => [] case Failure(e) => e)
    case Age => (match ParseNumber(AgeSchema, v) case Success(_) => [] case Failure(e) => e)
    case MedicalHistory => (match ParseString(MedicalHistorySchema, v) case Success(_) => [] case Failure(e) => e)
    case DietaryPreferences => (match ParseOptionalString(DietaryPreferencesSchema, v) case Success(_) => [] case Failure(e) => e)
  }

  function Tag(f: Field, msgs: seq<string>): (issues: seq<Issue>)
    ensures |issues| == |msgs|
    ensures forall i :: 0 <= i < |msgs| ==> issues[i] == Issue(f, msgs[i])
  {
    if msgs == [] then [] else [Issue(f, msgs[0])] + Tag(f, msgs[1..])
  }

  function FieldIssues(values: ProfileValues, f: Field): seq<Issue> {
    Tag(f, FieldMessages(f, FieldValue(values, f)))
  }

  /** Every issue the schema reports for `values`, field by field. */
  function AllIssues(values: ProfileValues): seq<Issue> {
    FieldIssues(values, Bmi) + FieldIssues(values, Age) +
    FieldIssues(values, MedicalHistory) + FieldIssues(values, DietaryPreferences)
  }

  /** The issues reported on field `f`. */
  function IssuesFor(issues: seq<Issue>, f: Field): (r: seq<Issue>)
    ensures forall i <- r :: i in issues && i.path == f
    ensures forall i <- issues :: i.path == f ==> i in r
  {
    if issues == [] then []
    else
      var rest := IssuesFor(issues[1..], f);
      assert forall i <- issues :: i == issues[0] || i in issues[1..];
      if issues[0].path == f then [issues[0]] + rest else rest
  }

  /** `dietPlanSchema.safeParse(values)`: every field's issues, or the
      profile holding the coerced BMI, the age as an integer and the strings
      as they were given, absent preferences staying absent. */
  function ValidateProfile(values: ProfileValues): (r: Result<HealthProfile, seq<Issue>>)
    ensures r.Failure? <==> AllIssues(values) != []
    ensures r.Failure? ==> r.error == AllIssues(values)
    ensures r.Success? ==>
      && ToNumber(values.bmi) == Some(r.value.bmi)
      && ToNumber(values.age) == Some(r.value.age as real)
      && values.medicalHistory == Str(r.value.medicalHistory)
      && (values.dietaryPreferences.Undefined? <==> r.value.dietaryPreferences.None?)
      && (r.value.dietaryPreferences.Some? ==> values.dietaryPreferences == Str(r.value.dietaryPreferences.value))
  {
    var issues := AllIssues(values);
    if issues != [] then Failure(issues)
    else
      var b := FieldMessages(Bmi, values.bmi);
      var a := FieldMessages(Age, values.age);
      var m := FieldMessages(MedicalHistory, values.medicalHistory);
      var d := FieldMessages(DietaryPreferences, values.dietaryPreferences);
      assert b == [] && a == [] && m == [] && d == [] by {
        assert |issues| == |b| + |a| + |m| + |d|;
      }
      var bmi := ToNumber(values.bmi).value;
      var age := ToNumber(values.age).value;
      assert age.Floor as real == age by {
        assert AllPass(AgeSchema.checks, age);
      }
      var history := values.medicalHistory.s;
      var prefs := if values.dietaryPreferences.Str? then Some(values.dietaryPreferences.s) else None;
      Success(HealthProfile(bmi, age.Floor, history, prefs))
  }

  // ---- The rules, stated directly ----

  predicate BmiAccepted(v: JsValue) {
    ToNumber(v).Some? && 10.0 <= ToNumber(v).value <= 60.0
  }

  predicate AgeAccepted(v: JsValue) {
    ToNumber(v).Some? && IsInteger(ToNumber(v).value) && 12.0 <= ToNumber(v).value <= 120.0
  }

  predicate MedicalHistoryAccepted(v: JsValue) {
    v.Str? && 2 <= Utf16Length(v.s) <= 500
  }

  predicate DietaryPreferencesAccepted(v: JsValue) {
    v.Undefined? || (v.Str? && Utf16Length(v.s) <= 500)
  }

  predicate FieldAccepted(f: Field, v: JsValue) {
    match f
    case Bmi => BmiAccepted(v)
    case Age => AgeAccepted(v)
    case MedicalHistory => MedicalHistoryAccepted(v)
    case DietaryPreferences => DietaryPreferencesAccepted(v)
  }

  const BmiTooLow := "BMI seems too low. Please check the value."
  const BmiTooHigh := "BMI seems too high. Please check the value."
  const AgeNotANumber := "Age must be a number."
  const TooYoung := "You must be at least 12 years old."
  const TooOld := "Age seems too high. Please check the value."
  const HistoryTooShort := "Please provide some information about your medical history (or \"None\")."
  const HistoryTooLong := "Medical history is too long."
  const PreferencesTooLong := "Dietary preferences are too long."

  /** A BMI below 10 and a BMI above 60 each report their own message. */
  lemma BmiMessages(x: real)
    ensures FailedMessages(BmiSchema.checks, x) ==
      (if x < 10.0 then [BmiTooLow] else []) + (if x > 60.0 then [BmiTooHigh] else [])
  {
    var rest := BmiSchema.checks[1..];
    assert rest == [Max(60.0, BmiTooHigh)];
    assert FailedMessages(rest, x) == (if x > 60.0 then [BmiTooHigh] else []) by {
      assert rest[1..] == [];
    }
  }

  /** BMI is accepted exactly when it coerces to a number in [10, 60]. */
  lemma BmiRule(v: JsValue)
    ensures ParseNumber(BmiSchema, v).Success? <==> BmiAccepted(v)
  {
    if ToNumber(v).Some? {
      BmiMessages(ToNumber(v).value);
    }
  }

  /** A fractional age, an age below 12 and an age above 120 each report
      their own message, in that order. */
  lemma AgeMessages(x: real)
    ensures FailedMessages(AgeSchema.checks, x) ==
      (if !IsInteger(x) then [AgeNotANumber] else []) +
      (if x < 12.0 then [TooYoung] else []) + (if x > 120.0 then [TooOld] else [])
  {
    var rest := AgeSchema.checks[1..];
    var last := rest[1..];
    assert rest[0] == Min(12.0, TooYoung);
    assert last == [Max(120.0, TooOld)];
    assert FailedMessages(last, x) == (if x > 120.0 then [TooOld] else []) by {
      assert last[1..] == [];
    }
  }

  /** Age is accepted exactly when it coerces to an integer in [12, 120]. */
  lemma AgeRule(v: JsValue)
    ensures ParseNumber(AgeSchema, v).Success? <==> AgeAccepted(v)
  {
    if ToNumber(v).Some? {
      AgeMessages(ToNumber(v).value);
    }
  }

  /** A medical history shorter than 2 or longer than 500 code units reports
      the matching message. */
  lemma MedicalHistoryMessages(n: real)
    ensures FailedMessages(MedicalHistorySchema.checks, n) ==
      (if n < 2.0 then [HistoryTooShort] else []) + (if n > 500.0 then [HistoryTooLong] else [])
  {
    var rest := MedicalHistorySchema.checks[1..];
    assert rest == [Max(500.0, HistoryTooLong)];
    assert FailedMessages(rest, n) == (if n > 500.0 then [HistoryTooLong] else []) by {
      assert rest[1..] == [];
    }
  }

  /** The medical history is accepted exactly when it is a string of 2 to 500
      code units. */
  lemma MedicalHistoryRule(v: JsValue)
    ensures ParseString(MedicalHistorySchema, v).Success? <==> MedicalHistoryAccepted(v)
  {
    if v.Str? {
      MedicalHistoryMessages(Utf16Length(v.s) as real);
    }
  }

  /** Dietary preferences longer than 500 code units report their message. */
  lemma PreferencesMessages(n: real)
    ensures FailedMessages(DietaryPreferencesSchema.checks, n) == if n > 500.0 then [PreferencesTooLong] else []
  {
    assert DietaryPreferencesSchema.checks[1..] == [];
  }

  /** The dietary preferences are accepted exactly when absent or a string of
      at most 500 code units. */
  lemma DietaryPreferencesRule(v: JsValue)
    ensures ParseOptionalString(DietaryPreferencesSchema, v).Success? <==> DietaryPreferencesAccepted(v)
  {
    if v.Str? {
      PreferencesMessages(Utf16Length(v.s) as real);
    }
  }

  /** A field reports no message exactly when its own rule accepts it. */
  lemma FieldRule(f: Field, v: JsValue)
    ensures FieldMessages(f, v) == [] <==> FieldAccepted(f, v)
  {
    match f
    case Bmi => BmiRule(v);
    case Age => AgeRule(v);
    case MedicalHistory => MedicalHistoryRule(v);
    case DietaryPreferences => DietaryPreferencesRule(v);
  }

  /** The profile is valid exactly when each field is valid on its own. */
  predicate ProfileAccepted(values: ProfileValues) {
    BmiAccepted(values.bmi) && AgeAccepted(values.age) &&
    MedicalHistoryAccepted(values.medicalHistory) && DietaryPreferencesAccepted(values.dietaryPreferences)
  }

  /** Validation succeeds exactly when every field meets its rule; otherwise
      it reports all the fields' issues. */
  lemma ValidateProfileAccepts(values: ProfileValues)
    ensures ValidateProfile(values).Success? <==> ProfileAccepted(values)
    ensures ValidateProfile(values).Failure? ==> ValidateProfile(values).error == AllIssues(values)
  {
    var b := FieldMessages(Bmi, values.bmi);
    var a := FieldMessages(Age, values.age);
    var m := FieldMessages(MedicalHistory, values.medicalHistory);
    var d := FieldMessages(DietaryPreferences, values.dietaryPreferences);
    assert |AllIssues(values)| == |b| + |a| + |m| + |d|;
    FieldRule(Bmi, values.bmi);
    FieldRule(Age, values.age);
    FieldRule(MedicalHistory, values.medicalHistory);
    FieldRule(DietaryPreferences, values.dietaryPreferences);
    assert ProfileAccepted(values) <==> b == [] && a == [] && m == [] && d == [];
  }

  lemma {:induction false} TaggedPaths(f: Field, msgs: seq<string>, g: Field)
    ensures IssuesFor(Tag(f, msgs), g) == if f == g then Tag(f, msgs) else []
  {
    if msgs != [] {
      assert Tag(f, msgs)[1..] == Tag(f, msgs[1..]);
      TaggedPaths(f, msgs[1..], g);
    }
  }

  lemma {:induction false} IssuesForConcat(a: seq<Issue>, b: seq<Issue>, f: Field)
    ensures IssuesFor(a + b, f) == IssuesFor(a, f) + IssuesFor(b, f)
  {
    if a == [] {
      assert a + b == b;
    } else {
      assert (a + b)[0] == a[0];
      assert (a + b)[1..] == a[1..] + b;
      IssuesForConcat(a[1..], b, f);
    }
  }

  /** A field's own issues are all reported on that field. */
  lemma FieldIssuesPaths(values: ProfileValues, g: Field, f: Field)
    ensures IssuesFor(FieldIssues(values, g), f) == if g == f then FieldIssues(values, g) else []
  {
    TaggedPaths(g, FieldMessages(g, FieldValue(values, g)), f);
  }

  /** Four parts, each holding issues on its own field only: the issues on
      a field are that field's part. */
  lemma FourPartsSelect(b: seq<Issue>, a: seq<Issue>, m: seq<Issue>, d: seq<Issue>, f: Field)
    requires IssuesFor(b, f) == (if f == Bmi then b else [])
    requires IssuesFor(a, f) == (if f == Age then a else [])
    requires IssuesFor(m, f) == (if f == MedicalHistory then m else [])
    requires IssuesFor(d, f) == (if f == DietaryPreferences then d else [])
    ensures IssuesFor(b + a + m + d, f) ==
      match f
      case Bmi => b
      case Age => a
      case MedicalHistory => m
      case DietaryPreferences => d
  {
    IssuesForConcat(b + a + m, d, f);
    IssuesForConcat(b + a, m, f);
    IssuesForConcat(b, a, f);
    match f
    case Bmi => assert b + [] + [] + [] == b;
    case Age => assert [] + a + [] + [] == a;
    case MedicalHistory => assert [] + [] + m + [] == m;
    case DietaryPreferences => assert [] + [] + [] + d == d;
  }

  /** The issues reported on a field are exactly that field's own messages,
      computed from that field's value alone. */
  lemma IssuesOnField(values: ProfileValues, f: Field)
    ensures IssuesFor(AllIssues(values), f) == FieldIssues(values, f)
  {
    FieldIssuesPaths(values, Bmi, f);
    FieldIssuesPaths(values, Age, f);
    FieldIssuesPaths(values, MedicalHistory, f);
    FieldIssuesPaths(values, DietaryPreferences, f);
    FourPartsSelect(FieldIssues(values, Bmi), FieldIssues(values, Age),
                    FieldIssues(values, MedicalHistory), FieldIssues(values, DietaryPreferences), f);
  }

  /** One field's issues do not depend on the other fields' values. */
  lemma FieldsIndependent(a: ProfileValues, b: ProfileValues, f: Field)
    requires FieldValue(a, f) == FieldValue(b, f)
    ensures IssuesFor(AllIssues(a), f) == IssuesFor(AllIssues(b), f)
  {
    IssuesOnField(a, f);
    IssuesOnField(b, f);
  }

  // ---- Cases the form meets ----

  /** Both ends of the BMI range are accepted, and just outside them is not. */
  lemma BmiBoundsInclusive()
    ensures ParseNumber(BmiSchema, Num(10.0)) == Success(10.0)
    ensures ParseNumber(BmiSchema, Num(60.0)) == Success(60.0)
    ensures ParseNumber(BmiSchema, Num(9.9)) == Failure([BmiTooLow])
    ensures ParseNumber(BmiSchema, Num(60.1)) == Failure([BmiTooHigh])
  {
    BmiMessages(10.0);
    BmiMessages(60.0);
    BmiMessages(9.9);
    assert FailedMessages(BmiSchema.checks, 9.9) == [BmiTooLow];
    BmiMessages(60.1);
    assert FailedMessages(BmiSchema.checks, 60.1) == [BmiTooHigh];
  }

  /** A BMI that is not a number reports only the type message. */
  lemma BmiNotANumber()
    ensures ParseNumber(BmiSchema, Str("abc")) == Failure(["BMI must be a number."])
    ensures ParseNumber(BmiSchema, Undefined) == Failure(["BMI must be a number."])
  {
    WordStringExample();
  }

  /** An age of "30.5" coerces to a number in range but is not an integer,
      and is reported with the same message as text that is no number. */
  lemma FractionalAgeRejected()
    ensures ParseNumber(AgeSchema, Str("30.5")) == Failure([AgeNotANumber])
    ensures ParseNumber(AgeSchema, Str("abc")) == ParseNumber(AgeSchema, Str("30.5"))
  {
    WordStringExample();
    DecimalStringExample();
    assert !IsInteger(30.5) by { assert 30.5.Floor == 30; }
    AgeMessages(30.5);
    assert FailedMessages(AgeSchema.checks, 30.5) == [AgeNotANumber];
  }

  /** A fractional age below the minimum breaks two rules, reported in order. */
  lemma YoungFractionalAge()
    ensures ParseNumber(AgeSchema, Num(11.5)) == Failure([AgeNotANumber, TooYoung])
  {
    assert !IsInteger(11.5) by { assert 11.5.Floor == 11; }
    AgeMessages(11.5);
    assert FailedMessages(AgeSchema.checks, 11.5) == [AgeNotANumber, TooYoung];
  }

  /** "None" is a medical history; one character and a missing value are not. */
  lemma MedicalHistoryExamples()
    ensures ParseString(MedicalHistorySchema, Str("None")) == Success("None")
    ensures ParseString(MedicalHistorySchema, Str("a")) == Failure([HistoryTooShort])
    ensures ParseString(MedicalHistorySchema, Undefined) == Failure(["Required"])
    ensures ParseString(MedicalHistorySchema, Num(5.0)) == Failure(["Expected string, received number"])
  {
    assert Utf16Length("None") == 4;
    MedicalHistoryMessages(4.0);
    assert Utf16Length("a") == 1;
    MedicalHistoryMessages(1.0);
    assert FailedMessages(MedicalHistorySchema.checks, 1.0) == [HistoryTooShort];
  }

  /** Missing dietary preferences are fine; `null` is not a missing value. */
  lemma DietaryPreferencesExamples()
    ensures ParseOptionalString(DietaryPreferencesSchema, Undefined) == Success(None)
    ensures ParseOptionalString(DietaryPreferencesSchema, Str("")) == Success(Some(""))
    ensures ParseOptionalString(DietaryPreferencesSchema, Null) == Failure(["Expected string, received null"])
  {
    PreferencesMessages(0.0);
  }

  /** A typical form (BMI 22.5, age 30, "None", no preferences) is
      accepted, and the profile holds those values. */
  lemma TypicalProfileAccepted()
    ensures var values := ProfileValues(Num(22.5), Num(30.0), Str("None"), Undefined);
      && ProfileAccepted(values)
      && ValidateProfile(values) == Success(HealthProfile(22.5, 30, "None", None))
  {
    var values := ProfileValues(Num(22.5), Num(30.0), Str("None"), Undefined);
    assert 30.0.Floor == 30;
    assert Utf16Length("None") == 4;
    assert ProfileAccepted(values);
    ValidateProfileAccepts(values);
  }
}
