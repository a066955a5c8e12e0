/** The planner form: each field's `onChange` turns the input into a profile
    value and hands it, with the field it belongs to, to `onProfileChange`.
    The number inputs coerce their text with `parseInt(text, 10) || 0`; the
    selects pass the chosen option's value as it is. */
module PlannerForm {
  import opened Types
  import EcmaScript
  import PlannerScreen

  /** The option values each select offers. */
  const GenderOptions: seq<string> := ["male", "female", "other"]
  const ActivityLevelOptions: seq<string> := ["sedentary", "light", "moderate", "active", "very_active"]
  const GoalOptions: seq<string> := ["lose_weight", "maintain_weight", "gain_muscle"]

  /** `parseInt(text, 10) || 0`: NaN and zero are both falsy, so they give 0;
      any other parsed integer is kept, negatives included. */
  function NumericValue(text: string): (v: int)
    ensures EcmaScript.ParseInt(text) == EcmaScript.NaN ==> v == 0
    ensures v != 0 ==> EcmaScript.ParseInt(text) == EcmaScript.Int(v)
    ensures EcmaScript.ParseInt(text).Int? ==> v == EcmaScript.ParseInt(text).value
  {
    match EcmaScript.ParseInt(text)
    case NaN => 0
    case Int(v) => v
  }

  /** A change event of one of the six form fields. */
  datatype FormEvent =
    | AgeInput(text: string) | WeightInput(text: string) | HeightInput(text: string)
    | GenderSelect(option: string) | ActivityLevelSelect(option: string) | GoalSelect(option: string)

  /** The arguments one `onChange` passes to `onProfileChange`. */
  datatype Change = Change(field: ProfileField, value: JsValue)

  /** The field an event belongs to: the number inputs edit age, weight and
      height, and no input edits the dietary preference. */
  function FieldOfEvent(e: FormEvent): (f: ProfileField)
    ensures f != DietaryPreference
    ensures f in {Age, Weight, Height} <==> e.AgeInput? || e.WeightInput? || e.HeightInput?
  {
    match e
    case AgeInput(_) => Age
    case WeightInput(_) => Weight
    case HeightInput(_) => Height
    case GenderSelect(_) => Gender
    case ActivityLevelSelect(_) => ActivityLevel
    case GoalSelect(_) => Goal
  }

  /** The handlers: each passes its own key; number inputs always pass an
      integer, selects always pass their option's string unchanged. */
  function Route(e: FormEvent): (c: Change)
    ensures c.field == FieldOfEvent(e) && c.field != DietaryPreference
    ensures e.AgeInput? || e.WeightInput? || e.HeightInput? ==> c.value == Num(NumericValue(e.text))
    ensures e.GenderSelect? || e.ActivityLevelSelect? || e.GoalSelect? ==> c.value == Str(e.option)
  {
    match e
    case AgeInput(t) => Change(Age, Num(NumericValue(t)))
    case WeightInput(t) => Change(Weight, Num(NumericValue(t)))
    case HeightInput(t) => Change(Height, Num(NumericValue(t)))
    case GenderSelect(o) => Change(Gender, Str(o))
    case ActivityLevelSelect(o) => Change(ActivityLevel, Str(o))
    case GoalSelect(o) => Change(Goal, Str(o))
  }

  /** An event as it reaches the screen's `handleProfileChange`. */
  function Apply(p: UserProfile, e: FormEvent): UserProfile
  {
    var c := Route(e);
    PlannerScreen.ChangeField(p, c.field, c.value)
  }

  /** A form event changes its own field and no other. */
  lemma ApplyTargetsOwnField(p: UserProfile, e: FormEvent)
    ensures FieldOf(Apply(p, e), FieldOfEvent(e)) == Route(e).value
    ensures forall g :: g != FieldOfEvent(e) ==> FieldOf(Apply(p, e), g) == FieldOf(p, g)
  {
  }

  /** Repeating an event changes nothing more, and events on different
      fields can arrive in either order. */
  lemma ApplyAlgebra(p: UserProfile, e: FormEvent, e2: FormEvent)
    ensures Apply(Apply(p, e), e) == Apply(p, e)
    ensures FieldOfEvent(e) != FieldOfEvent(e2) ==> Apply(Apply(p, e), e2) == Apply(Apply(p, e2), e)
  {
    var c, c2 := Route(e), Route(e2);
    PlannerScreen.ChangeFieldAlgebra(p, c.field, c.field, c.value, c.value);
    PlannerScreen.ChangeFieldAlgebra(p, c.field, c2.field, c.value, c2.value);
  }

  /** The written form of any integer is passed as that integer, also when
      followed by text that does not start with a digit (a fraction, an
      exponent, a unit), and a minus sign is kept rather than clamped. */
  lemma NumericValueOfDecimal(n: int, rest: string)
    requires rest == [] || !EcmaScript.IsDigit(rest[0])
    ensures NumericValue(EcmaScript.Decimal(n) + rest) == n
    ensures n < 0 ==> NumericValue(EcmaScript.Decimal(n) + rest) < 0
  {
    EcmaScript.ParseIntOfDecimal(n, rest);
  }

  /** Any digit string is passed as its base-10 value, leading zeros
      included, also when followed by text that does not start with a digit;
      after a minus sign, as the negated value, and after a plus sign, as
      the value itself. */
  lemma NumericValueOfDigits(d: string, rest: string)
    requires d != [] && EcmaScript.AllDigits(d)
    requires rest == [] || !EcmaScript.IsDigit(rest[0])
    ensures NumericValue(d + rest) == EcmaScript.DigitsValue(d)
    ensures NumericValue(['-'] + (d + rest)) == 0 - EcmaScript.DigitsValue(d)
    ensures NumericValue(['+'] + (d + rest)) == EcmaScript.DigitsValue(d)
  {
    EcmaScript.ParseIntOfDigits(d, rest);
    EcmaScript.ParseIntOfNegativeDigits(d, rest);
    EcmaScript.ParseIntOfPlusDigits(d, rest);
  }

  /** "007" gives 7 and "0070" gives 70: leading zeros are read past. */
  lemma NumericValueOfLeadingZeros()
    ensures NumericValue("007") == 7 && NumericValue("0070") == 70
  {
    LeadingZerosValue();
    NumericValueOfDigits("007", "");
    assert "007" + "" == "007";
    NumericValueOfDigits("0070", "");
    assert "0070" + "" == "0070";
  }

  /** The base-10 values of the two sample digit strings. */
  lemma LeadingZerosValue()
    ensures EcmaScript.AllDigits("007") && EcmaScript.DigitsValue("007") == 7
    ensures EcmaScript.AllDigits("0070") && EcmaScript.DigitsValue("0070") == 70
  {
    assert "0070"[..3] == "007";
    assert "007"[..2] == "00";
    assert "00"[..1] == "0";
    assert "0"[..0] == "";
  }

  /** Text without any digit (the empty input, a lone sign, letters) gives 0. */
  lemma NumericValueWithoutDigits(text: string)
    requires forall i :: 0 <= i < |text| ==> !EcmaScript.IsDigit(text[i])
    ensures NumericValue(text) == 0
  {
    EcmaScript.ParseIntWithoutDigits(text);
  }

  /** Leading white space is skipped. */
  lemma NumericValueSkipsWhiteSpace(w: string, text: string)
    requires EcmaScript.IsBlank(w)
    ensures NumericValue(w + text) == NumericValue(text)
  {
    EcmaScript.ParseIntSkipsWhiteSpace(w, text);
  }

  /** An empty field and a lone sign give 0. */
  lemma NumericValueOfEmpty()
    ensures NumericValue("") == 0 && NumericValue("-") == 0
  {
    EmptyTextIsZero();
    LoneSignIsZero();
  }

  lemma EmptyTextIsZero()
    ensures NumericValue("") == 0
  {
    NumericValueWithoutDigits("");
  }

  lemma LoneSignIsZero()
    ensures NumericValue("-") == 0
  {
    NumericValueWithoutDigits("-");
  }

  /** "70" gives 70 and "-5" gives -5. */
  lemma NumericValueOfWhole()
    ensures NumericValue("70") == 70 && NumericValue("-5") == -5
  {
    DecimalOfSmall(70);
    NumericValueOfDecimal(70, "");
    assert "70" + "" == "70";
    DecimalOfSmall(-5);
    NumericValueOfDecimal(-5, "");
    assert "-5" + "" == "-5";
  }

  /** "72.5" gives 72 and "1e3" gives 1: parsing stops at the first non-digit. */
  lemma NumericValueOfFraction()
    ensures NumericValue("72.5") == 72 && NumericValue("1e3") == 1
  {
    FractionIsTruncated();
    ExponentIsIgnored();
  }

  lemma FractionIsTruncated()
    ensures NumericValue("72.5") == 72
  {
    DecimalOfSmall(72);
    assert EcmaScript.Decimal(72) + ".5" == "72.5";
    NumericValueOfDecimal(72, ".5");
  }

  lemma ExponentIsIgnored()
    ensures NumericValue("1e3") == 1
  {
    DecimalOfSmall(1);
    assert EcmaScript.Decimal(1) + "e3" == "1e3";
    NumericValueOfDecimal(1, "e3");
  }

  lemma DecimalOfSmall(n: int)
    requires n in {-5, 1, 70, 72}
    ensures n == -5 ==> EcmaScript.Decimal(n) == "-5"
    ensures n == 1 ==> EcmaScript.Decimal(n) == "1"
    ensures n == 70 ==> EcmaScript.Decimal(n) == "70"
    ensures n == 72 ==> EcmaScript.Decimal(n) == "72"
  {
    if n == 70 || n == 72 {
      assert EcmaScript.NatDigits(n) == EcmaScript.NatDigits(7) + [EcmaScript.DigitChar(n % 10)];
    }
  }

  /** The goal select offers three of the four goals the profile type admits
      ("gain_strength" is not offered); the activity select offers exactly the
      admitted levels; the gender select also offers "other", which the
      profile type does not admit. */
  lemma SelectOptions()
    ensures forall o :: o in GoalOptions ==> o in GoalValues
    ensures "gain_strength" in GoalValues && "gain_strength" !in GoalOptions
    ensures ActivityLevelOptions == ActivityLevelValues
    ensures forall o :: o in GenderValues ==> o in GenderOptions
    ensures "other" in GenderOptions && "other" !in GenderValues
  {
  }
}
