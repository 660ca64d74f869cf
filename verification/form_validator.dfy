/**
 * Schema validation of submitted form data: the two custom string formats
 * registered with the schema validator, the lazily built validator itself
 * (JSON Schema checking is an oracle the model does not interpret) and the
 * small required and range predicates.
 */
module SchemaValidation {
  import opened Wrappers
  import opened JsonValues

  predicate IsDigit(c: char) {
    '0' <= c <= '9'
  }

  /** The `time` format `^([0-1][0-9]|2[0-3]):[0-5][0-9]$`. */
  predicate IsTime(s: string): (r: bool)
    ensures r ==> |s| == 5 && s[2] == ':' && IsDigit(s[0]) && IsDigit(s[1]) && IsDigit(s[3]) && IsDigit(s[4])
  {
    && |s| == 5
    && (('0' <= s[0] <= '1' && IsDigit(s[1])) || (s[0] == '2' && '0' <= s[1] <= '3'))
    && s[2] == ':'
    && '0' <= s[3] <= '5' && IsDigit(s[4])
  }

  /** The decimal digit of a number below ten. */
  function DigitChar(d: nat): (c: char)
    requires d < 10
    ensures IsDigit(c) && c as int - '0' as int == d
  {
    (d + '0' as int) as char
  }

  /** A number below 100 written with exactly two digits. */
  function TwoDigits(n: nat): (r: string)
    requires n < 100
    ensures |r| == 2
  {
    [DigitChar(n / 10), DigitChar(n % 10)]
  }

  /** Two digits read back as the number they write. */
  lemma TwoDigitsValue(a: nat, b: nat)
    requires a < 10 && b < 10
    ensures (10 * a + b) / 10 == a && (10 * a + b) % 10 == b
  {
  }

  /** A clock reading written with two-digit hours and minutes is a `time`. */
  lemma ClockReadingIsTime(h: nat, m: nat)
    requires h < 24 && m < 60
    ensures IsTime(TwoDigits(h) + ":" + TwoDigits(m))
  {
    var s := TwoDigits(h) + ":" + TwoDigits(m);
    assert s[0] == DigitChar(h / 10) && s[1] == DigitChar(h % 10);
    assert s[3] == DigitChar(m / 10) && s[4] == DigitChar(m % 10);
  }

  /** A `time` is the two-digit writing of the hours and minutes it reads. */
  lemma TimeIsWrittenReading(s: string)
    requires IsTime(s)
    ensures var h := 10 * (s[0] as int - '0' as int) + (s[1] as int - '0' as int);
            var m := 10 * (s[3] as int - '0' as int) + (s[4] as int - '0' as int);
            0 <= h < 24 && 0 <= m < 60 && s == TwoDigits(h) + ":" + TwoDigits(m)
  {
    var h1, h0 := s[0] as int - '0' as int, s[1] as int - '0' as int;
    var m1, m0 := s[3] as int - '0' as int, s[4] as int - '0' as int;
    TwoDigitsValue(h1, h0);
    TwoDigitsValue(m1, m0);
  }

  /** The `time` format accepts exactly the 24-hour clock readings `HH:MM`. */
  lemma TimeIsClockReading(s: string)
    ensures IsTime(s) <==> exists h: nat, m: nat :: h < 24 && m < 60 && s == TwoDigits(h) + ":" + TwoDigits(m)
  {
    if IsTime(s) {
      TimeIsWrittenReading(s);
      var h: nat := 10 * (s[0] as int - '0' as int) + (s[1] as int - '0' as int);
      var m: nat := 10 * (s[3] as int - '0' as int) + (s[4] as int - '0' as int);
      assert s == TwoDigits(h) + ":" + TwoDigits(m);
    }
    if exists h: nat, m: nat :: h < 24 && m < 60 && s == TwoDigits(h) + ":" + TwoDigits(m) {
      var h: nat, m: nat :| h < 24 && m < 60 && s == TwoDigits(h) + ":" + TwoDigits(m);
      ClockReadingIsTime(h, m);
    }
  }

  lemma TimeExamples()
    ensures IsTime("23:59") && IsTime("00:00") && IsTime("19:05")
    ensures !IsTime("24:00") && !IsTime("9:30") && !IsTime("12:60") && !IsTime("12:30 ")
  {
  }

  /** A character of the `phone` body class `[\d\s-]`. */
  predicate IsPhoneChar(c: char) {
    IsDigit(c) || IsJsWhitespace(c) || c == '-'
  }

  predicate AllPhoneChars(s: string) {
    forall i :: 0 <= i < |s| ==> IsPhoneChar(s[i])
  }

  /**
   * The `phone` format `^\+?[\d\s-]{10,}$`: an optional leading '+' and then at
   * least ten digits, whitespace characters or hyphens ('+' is not in the class,
   * so a leading '+' can only be the optional one).
   */
  predicate IsPhone(s: string): (r: bool)
    ensures r ==> |s| >= 10
    ensures r && s[0] != '+' ==> AllPhoneChars(s)
  {
    (|s| >= 10 && AllPhoneChars(s)) || (|s| >= 11 && s[0] == '+' && AllPhoneChars(s[1..]))
  }

  /** A phone number has at most one '+', and only in front. */
  lemma PlusOnlyInFront(s: string, i: nat)
    requires IsPhone(s) && 0 < i < |s|
    ensures s[i] != '+'
  {
    if s[0] == '+' {
      assert s[i] == s[1..][i - 1];
    }
  }

  lemma PhoneExamples()
    ensures IsPhone("+2348012345678") && IsPhone("080-1234-5678") && IsPhone("0801 234 5678")
    ensures !IsPhone("12345") && !IsPhone("+123456789") && !IsPhone("0801234567x")
  {
    assert !IsPhoneChar('x');
    assert "0801234567x"[10] == 'x';
    assert !IsPhoneChar('+');
    assert "+123456789"[0] == '+';
  }

  /** The custom formats registered with the validator. */
  datatype CustomFormat = TimeFormat | PhoneFormat

  /** Whether a registered custom format accepts a string. */
  function FormatAccepts(f: CustomFormat, s: string): bool {
    match f
    case TimeFormat => IsTime(s)
    case PhoneFormat => IsPhone(s)
  }

  /** The options of the schema validator instance. */
  datatype ValidatorOptions = ValidatorOptions(allErrors: bool, strict: bool, validateFormats: bool)

  /** A configured schema validator: options, the standard formats, the custom formats by name. */
  datatype Ajv = Ajv(options: ValidatorOptions, standardFormats: bool, customFormats: map<string, CustomFormat>)

  /** The validator the core builds: all errors collected, non-strict, formats checked. */
  function ConfiguredAjv(): (a: Ajv)
    ensures a.options.allErrors && a.options.validateFormats && !a.options.strict
    ensures a.customFormats.Keys == {"time", "phone"}
    ensures forall s :: FormatAccepts(a.customFormats["time"], s) <==> IsTime(s)
    ensures forall s :: FormatAccepts(a.customFormats["phone"], s) <==> IsPhone(s)
  {
    Ajv(ValidatorOptions(true, false, true), true, map["time" := TimeFormat, "phone" := PhoneFormat])
  }

  /** One schema violation: where, which keyword, and the message. */
  datatype SchemaError = SchemaError(instancePath: string, keyword: string, message: string)

  /** `{ isValid, errors }`; `errors` is null when the validator reports none. */
  datatype ValidationResult = ValidationResult(isValid: bool, errors: Option<seq<SchemaError>>)

  /** Compiling a schema with a validator and running it on data: not interpreted by the model. */
  type SchemaOracle = (Ajv, Json, Json) -> ValidationResult

  /** The holder of the validator instance, built on first use and reused afterwards. */
  class FormValidator {
    var ajv: Option<Ajv>

    ghost predicate Valid()
      reads this
    {
      ajv.None? || ajv.value == ConfiguredAjv()
    }

    constructor ()
      ensures Valid() && ajv.None?
    {
      ajv := None;
    }

    /** Builds the validator the first time and returns the same one on every later call. */
    method GetValidator() returns (v: Ajv)
      requires Valid()
      modifies this
      ensures Valid() && ajv == Some(v) && v == ConfiguredAjv()
      ensures old(ajv).Some? ==> v == old(ajv).value
    {
      if ajv.None? {
        ajv := Some(ConfiguredAjv());
      }
      v := ajv.value;
    }

    /** `validateFormData`: passes through the verdict and error list of the configured validator. */
    method ValidateFormData(data: Json, schema: Json, oracle: SchemaOracle) returns (r: ValidationResult)
      requires Valid()
      modifies this
      ensures Valid() && ajv == Some(ConfiguredAjv())
      ensures r == oracle(ConfiguredAjv(), schema, data)
    {
      var validator := GetValidator();
      r := oracle(validator, schema, data);
    }
  }

  /** `validateRequired`: false exactly for null, undefined and the empty string. */
  predicate ValidateRequired(value: Json): (r: bool)
    ensures Truthy(value) ==> r
    ensures r && !Truthy(value) <==> value == Num(0.0) || value == Bool(false)
  {
    !value.Null? && !value.Undefined? && value != Str("")
  }

  /** `validateNumericRange`: each bound, when given, is inclusive. */
  function ValidateNumericRange(value: real, min: Option<real>, max: Option<real>): (ok: bool)
    ensures ok <==> (min.None? || min.value <= value) && (max.None? || value <= max.value)
  {
    if min.Some? && value < min.value then false
    else if max.Some? && value > max.value then false
    else true
  }

  /** A bound pair with min above max admits no value. */
  lemma InvertedRangeRejectsAll(value: real, min: real, max: real)
    requires min > max
    ensures !ValidateNumericRange(value, Some(min), Some(max))
  {
  }

  /** Without bounds every value passes; each bound itself is inside the range. */
  lemma RangeBoundsInclusive(min: real, max: real, value: real)
    requires min <= max
    ensures ValidateNumericRange(value, None, None)
    ensures ValidateNumericRange(min, Some(min), Some(max)) && ValidateNumericRange(max, Some(min), Some(max))
  {
  }

  /** `validateDateRange` over timestamps: each bound, when given, is inclusive. */
  function ValidateDateRange(date: int, minDate: Option<int>, maxDate: Option<int>): (ok: bool)
    ensures ok <==> (minDate.None? || minDate.value <= date) && (maxDate.None? || date <= maxDate.value)
  {
    if minDate.Some? && date < minDate.value then false
    else if maxDate.Some? && date > maxDate.value then false
    else true
  }

  /** The date range check is the numeric range check on timestamps. */
  lemma DateRangeIsNumericRange(date: int, minDate: Option<int>, maxDate: Option<int>)
    ensures ValidateDateRange(date, minDate, maxDate) ==
      ValidateNumericRange(date as real,
        if minDate.Some? then Some(minDate.value as real) else None,
        if maxDate.Some? then Some(maxDate.value as real) else None)
  {
  }
}
