/**
 * Per-field validation of form components: a list of rules checked in order,
 * reporting the message of the first rule that fails, and the stock rules.
 */
module FieldValidation {
  import opened Wrappers
  import opened JsonValues
  import SchemaValidation

  /**
   * A MIN or MAX `value` that compares as a number: that number, and the text
   * `${rule.value}` writes for it in the default message.
   */
  datatype Bound = Bound(number: real, text: string)

  /** A whole-number bound, printed as `String(n)` prints it (see `IntTextValue`). */
  function WholeBound(n: int): (b: Bound)
    ensures b.number == n as real && b.text == IntText(n)
  {
    Bound(n as real, IntText(n))
  }

  /**
   * A validation rule: its type, its `value` where the type reads one, and an
   * optional `message`. A pattern rule carries the matcher of its regular
   * expression (not interpreted here); a custom rule carries its function when
   * `value` is one. A MIN or MAX rule whose `value` is absent, or does not
   * compare as a number, has no bound: every comparison with it is false.
   * Rules of any other type are `Unrecognised`.
   */
  datatype ValidationRule =
    | Required(message: Option<string>)
    | Min(bound: Option<Bound>, message: Option<string>)
    | Max(bound: Option<Bound>, message: Option<string>)
    | Pattern(matches: string -> bool, message: Option<string>)
    | Custom(check: Option<Json -> bool>, message: Option<string>)
    | Unrecognised(message: Option<string>)

  /** `rule.message || fallback`: an absent or empty message gives way to the default. */
  function MessageOr(message: Option<string>, fallback: string): (r: string)
    ensures fallback != "" ==> r != ""
    ensures message.Some? && message.value != "" ==> r == message.value
  {
    if message.Some? && message.value != "" then message.value else fallback
  }

  /** The error of one rule for one value, or `None` when the value passes. */
  function ValidateRule(value: Json, rule: ValidationRule): (r: Option<string>)
    ensures r.Some? ==> r.value != ""
  {
    match rule
    case Required(message) =>
      if value.Null? || value.Undefined? || value == Str("") then Some(MessageOr(message, "This field is required"))
      else None
    case Min(bound, message) =>
      if bound.None? then None
      else if value.Num? && value.n < bound.value.number then Some(MessageOr(message, "Value must be at least " + bound.value.text))
      else if value.Str? && (Utf16Length(value.s) as real) < bound.value.number then
        Some(MessageOr(message, "Must be at least " + bound.value.text + " characters"))
      else None
    case Max(bound, message) =>
      if bound.None? then None
      else if value.Num? && value.n > bound.value.number then Some(MessageOr(message, "Value must be at most " + bound.value.text))
      else if value.Str? && (Utf16Length(value.s) as real) > bound.value.number then
        Some(MessageOr(message, "Must be at most " + bound.value.text + " characters"))
      else None
    case Pattern(matches, message) =>
      if value.Str? && !matches(value.s) then Some(MessageOr(message, "Invalid format")) else None
    case Custom(check, message) =>
      if check.Some? && !check.value(value) then Some(MessageOr(message, "Invalid value")) else None
    case Unrecognised(_) => None
  }

  /** `validateField`: the first error in rule order, or `None` when every rule passes. */
  function ValidateField(value: Json, rules: seq<ValidationRule>): (r: Option<string>)
    ensures r.Some? ==> r.value != ""
    ensures r.Some? ==> exists i :: 0 <= i < |rules| && ValidateRule(value, rules[i]) == r
    decreases |rules|
  {
    if rules == [] then None
    else
      var error := ValidateRule(value, rules[0]);
      if error.Some? && error.value != "" then error else ValidateField(value, rules[1..])
  }

  /** A value passes the field exactly when it passes every rule; in particular an empty list passes. */
  lemma {:induction false} PassesIffEveryRulePasses(value: Json, rules: seq<ValidationRule>)
    ensures ValidateField(value, rules).None? <==> forall i :: 0 <= i < |rules| ==> ValidateRule(value, rules[i]).None?
    decreases |rules|
  {
    if rules != [] {
      PassesIffEveryRulePasses(value, rules[1..]);
      assert forall i :: 1 <= i < |rules| ==> rules[i] == rules[1..][i - 1];
    }
  }

  /** The reported error is the one of the first failing rule; later rules are not consulted. */
  lemma {:induction false} FirstFailureWins(value: Json, rules: seq<ValidationRule>, i: nat)
    requires i < |rules| && ValidateRule(value, rules[i]).Some?
    requires forall j :: 0 <= j < i ==> ValidateRule(value, rules[j]).None?
    ensures ValidateField(value, rules) == ValidateRule(value, rules[i])
    decreases i
  {
    if i > 0 {
      assert ValidateRule(value, rules[0]).None?;
      assert forall j :: 0 <= j < i - 1 ==> rules[1..][j] == rules[j + 1];
      FirstFailureWins(value, rules[1..], i - 1);
    }
  }

  /** A reported error is the message of some rule that fails while every rule before it passes. */
  lemma {:induction false} ErrorComesFromFirstFailingRule(value: Json, rules: seq<ValidationRule>)
    requires ValidateField(value, rules).Some?
    ensures exists i :: (&& 0 <= i < |rules|
                         && ValidateRule(value, rules[i]) == ValidateField(value, rules)
                         && forall j :: 0 <= j < i ==> ValidateRule(value, rules[j]).None?)
    decreases |rules|
  {
    if ValidateRule(value, rules[0]).Some? {
      assert ValidateRule(value, rules[0]) == ValidateField(value, rules);
    } else {
      ErrorComesFromFirstFailingRule(value, rules[1..]);
      var i :| (&& 0 <= i < |rules[1..]|
                && ValidateRule(value, rules[1..][i]) == ValidateField(value, rules[1..])
                && forall j :: 0 <= j < i ==> ValidateRule(value, rules[1..][j]).None?);
      assert rules[1..][i] == rules[i + 1];
      forall j | 0 <= j < i + 1 ensures ValidateRule(value, rules[j]).None? {
        if j > 0 { assert rules[j] == rules[1..][j - 1]; }
      }
    }
  }

  /** REQUIRED fails exactly for null, undefined and ''; 0 and false pass. */
  lemma RequiredFailsExactly(value: Json, message: Option<string>)
    ensures ValidateRule(value, Required(message)).Some? <==> value in {Null, Undefined, Str("")}
    ensures ValidateRule(Num(0.0), Required(message)).None? && ValidateRule(Bool(false), Required(message)).None?
  {
  }

  /** The REQUIRED rule and the schema module's required check agree. */
  lemma RequiredAgreesWithRequiredCheck(value: Json, message: Option<string>)
    ensures ValidateRule(value, Required(message)).None? <==> SchemaValidation.ValidateRequired(value)
  {
  }

  /**
   * MIN fails for a number below the bound or a string with fewer UTF-16 code
   * units than it; the bound itself passes, and so does everything when there is no bound.
   */
  lemma MinFailsExactly(value: Json, bound: Option<Bound>, message: Option<string>)
    ensures ValidateRule(value, Min(bound, message)).Some? <==>
      bound.Some? && ((value.Num? && value.n < bound.value.number) ||
                      (value.Str? && (Utf16Length(value.s) as real) < bound.value.number))
  {
  }

  /**
   * MAX fails for a number above the bound or a string with more UTF-16 code
   * units than it; the bound itself passes, and so does everything when there is no bound.
   */
  lemma MaxFailsExactly(value: Json, bound: Option<Bound>, message: Option<string>)
    ensures ValidateRule(value, Max(bound, message)).Some? <==>
      bound.Some? && ((value.Num? && value.n > bound.value.number) ||
                      (value.Str? && (Utf16Length(value.s) as real) > bound.value.number))
  {
  }

  /**
   * A fractional bound compares as a fraction and is printed as written; an
   * emoji counts as two code units against a length bound.
   */
  lemma BoundExamples()
    ensures ValidateRule(Num(35.2), Min(Some(Bound(35.5, "35.5")), None)) == Some("Value must be at least 35.5")
    ensures ValidateRule(Num(35.5), Min(Some(Bound(35.5, "35.5")), None)).None?
    ensures ValidateRule(Str("\U{1F600}"), Min(Some(WholeBound(2)), None)).None?
    ensures ValidateRule(Str("\U{1F600}"), Max(Some(WholeBound(1)), None)).Some?
  {
    assert "Value must be at least " + "35.5" == "Value must be at least 35.5";
    Utf16LengthExamples();
  }

  /** MIN, MAX and PATTERN only ever reject numbers or strings; an unrecognised rule always passes. */
  lemma TypedRulesIgnoreOtherValues(value: Json, rule: ValidationRule)
    requires rule.Min? || rule.Max? || rule.Pattern?
    requires !value.Str? && !(value.Num? && !rule.Pattern?)
    ensures ValidateRule(value, rule).None?
    ensures ValidateRule(value, Unrecognised(rule.message)).None?
  {
  }

  /** A non-empty `message` replaces the default text of a failing rule. */
  lemma MessageOverridesDefault(value: Json, rule: ValidationRule)
    requires rule.message.Some? && rule.message.value != ""
    requires ValidateRule(value, rule).Some?
    ensures ValidateRule(value, rule) == Some(rule.message.value)
  {
  }

  /** `CommonValidationRules.required()`. */
  function RequiredRule(): (r: ValidationRule)
    ensures r.Required? && r.message == Some("This field is required")
  {
    Required(Some("This field is required"))
  }

  /** `CommonValidationRules.minLength(min)`: its message is the default a string below the bound gets. */
  function MinLength(min: Bound): (r: ValidationRule)
    ensures r.Min? && r.bound == Some(min) && r.message == Some("Must be at least " + min.text + " characters")
    ensures forall s :: ValidateRule(Str(s), r) == ValidateRule(Str(s), Min(Some(min), None))
  {
    Min(Some(min), Some("Must be at least " + min.text + " characters"))
  }

  /** `CommonValidationRules.maxLength(max)`: its message is the default a string above the bound gets. */
  function MaxLength(max: Bound): (r: ValidationRule)
    ensures r.Max? && r.bound == Some(max) && r.message == Some("Must be at most " + max.text + " characters")
    ensures forall s :: ValidateRule(Str(s), r) == ValidateRule(Str(s), Max(Some(max), None))
  {
    Max(Some(max), Some("Must be at most " + max.text + " characters"))
  }

  /** `CommonValidationRules.phone()`: the same pattern as the schema's `phone` format. */
  function PhoneRule(): (r: ValidationRule)
    ensures r.Pattern? && r.message == Some("Invalid phone number")
  {
    Pattern(SchemaValidation.IsPhone, Some("Invalid phone number"))
  }

  /** `CommonValidationRules.email()`, with the matcher of its regular expression. */
  function EmailRule(matches: string -> bool): (r: ValidationRule)
    ensures r.Pattern? && r.message == Some("Invalid email address")
  {
    Pattern(matches, Some("Invalid email address"))
  }

  /** The `numeric` pattern `^\d+$`: one or more decimal digits. */
  predicate IsNumericText(s: string): (r: bool)
    ensures r ==> '.' !in s
  {
    |s| >= 1 && forall i :: 0 <= i < |s| ==> SchemaValidation.IsDigit(s[i])
  }

  /**
   * The `decimal` pattern `^\d*\.?\d+$`: digits with at most one '.', ending in
   * a digit (so a '.' is always followed by a digit).
   */
  predicate IsDecimalText(s: string): (r: bool)
    ensures r ==> forall i :: 0 <= i < |s| && s[i] == '.' ==> i + 1 < |s| && SchemaValidation.IsDigit(s[i + 1])
  {
    && |s| >= 1
    && SchemaValidation.IsDigit(s[|s| - 1])
    && (forall i :: 0 <= i < |s| ==> SchemaValidation.IsDigit(s[i]) || s[i] == '.')
    && (forall i, j :: 0 <= i < j < |s| && s[i] == '.' ==> s[j] != '.')
  }

  /** Every numeric text is a decimal text; a decimal text without '.' is numeric. */
  lemma NumericIsDecimalWithoutPoint(s: string)
    ensures IsNumericText(s) <==> IsDecimalText(s) && '.' !in s
  {
    if IsDecimalText(s) && '.' !in s {
      forall i | 0 <= i < |s| ensures SchemaValidation.IsDigit(s[i]) {
        assert s[i] != '.';
      }
    }
  }

  lemma DecimalExamples()
    ensures IsDecimalText("3.14") && IsDecimalText(".5") && IsDecimalText("42")
    ensures !IsDecimalText("3.") && !IsDecimalText("1.2.3") && !IsDecimalText("") && !IsDecimalText("-1")
  {
    assert "1.2.3"[1] == '.' && "1.2.3"[3] == '.';
    assert "-1"[0] == '-';
  }

  /** `CommonValidationRules.numeric()`. */
  function NumericRule(): (r: ValidationRule)
    ensures r.Pattern? && r.message == Some("Must be a number")
  {
    Pattern(IsNumericText, Some("Must be a number"))
  }

  /** `CommonValidationRules.decimal()`. */
  function DecimalRule(): (r: ValidationRule)
    ensures r.Pattern? && r.message == Some("Must be a decimal number")
  {
    Pattern(IsDecimalText, Some("Must be a decimal number"))
  }

  /** A string fails `[minLength(n)]` exactly when it has fewer than n UTF-16 code units. */
  lemma MinLengthFailsExactlyWhenShort(s: string, n: Bound)
    ensures ValidateField(Str(s), [MinLength(n)]).Some? <==> (Utf16Length(s) as real) < n.number
  {
    assert [MinLength(n)][1..] == [];
  }

  /** A string fails `[maxLength(n)]` exactly when it has more than n UTF-16 code units. */
  lemma MaxLengthFailsExactlyWhenLong(s: string, n: Bound)
    ensures ValidateField(Str(s), [MaxLength(n)]).Some? <==> (Utf16Length(s) as real) > n.number
  {
    assert [MaxLength(n)][1..] == [];
  }

  /** A string passes `[numeric()]` exactly when it is all digits; a non-string always passes. */
  lemma NumericRuleAcceptsDigits(v: Json)
    ensures ValidateField(v, [NumericRule()]).None? <==> !v.Str? || IsNumericText(v.s)
  {
    assert [NumericRule()][1..] == [];
  }

  /** A string passes `[decimal()]` exactly when it is a decimal text. */
  lemma DecimalRuleAcceptsDecimals(s: string)
    ensures ValidateField(Str(s), [DecimalRule()]).None? <==> IsDecimalText(s)
  {
    assert [DecimalRule()][1..] == [];
  }

  /**
   * A string passes `[phone()]` exactly when it is a phone number in the
   * schema's sense; otherwise the error is 'Invalid phone number'.
   */
  lemma PhoneRuleIsPhoneFormat(s: string)
    ensures ValidateField(Str(s), [PhoneRule()]) ==
      if SchemaValidation.IsPhone(s) then None else Some("Invalid phone number")
  {
    assert [PhoneRule()][1..] == [];
  }
}
