/**
 * The processing pipeline applied to validated form data: an ordered list of
 * transform, calculate and validate rules, each producing a new snapshot of
 * the data from the previous one, and the standalone sanitizer.
 */
module FormProcessor {
  import opened Wrappers
  import opened JsonValues

  /**
   * The JavaScript conversions the transforms call, which the model leaves
   * uninterpreted: `String(v)` of a value that is not a string,
   * `toUpperCase`, `toLowerCase`, `Number(v)` and the timestamp of `new Date(v)`.
   */
  datatype Host = Host(
    toText: Json -> string,
    toUpperCase: string -> string,
    toLowerCase: string -> string,
    toNumber: Json -> real,
    toDate: Json -> int)

  /** `String(v)`: a string is itself; anything else goes through the host. */
  function Stringify(host: Host, v: Json): string {
    if v.Str? then v.s else host.toText(v)
  }

  /**
   * The `type` of a transform rule's `rule` object. A custom transform carries
   * its `function` when the rule has one (`typeof transform.function === 'function'`).
   */
  datatype Transformation =
    | Uppercase
    | Lowercase
    | TrimText
    | ToNumber
    | ToBoolean
    | ToDate
    | CustomTransform(fn: Option<Json -> Json>)
    | UnknownTransformation

  /**
   * A processing rule: the field it names and, per rule type, the operation.
   * Calculate and validate rules carry their function when the rule has one;
   * a rule of any other type is kept as `UnknownRule`.
   */
  datatype ProcessingRule =
    | Transform(field: string, transformation: Transformation)
    | Calculate(field: string, calculation: Option<Record -> Json>)
    | Validate(field: string, check: Option<(Json, Record) -> bool>)
    | UnknownRule(field: string)

  /** The error a failing validate rule raises. */
  datatype ProcessingError = FieldValidationFailed(field: string) {
    function Message(): string {
      "Validation failed for field " + field
    }
  }

  /** `b` agrees with `a` on every key except `field`: same presence, same value. */
  ghost predicate SameExcept(a: Record, b: Record, field: string) {
    forall k :: k != field ==> (k in a <==> k in b) && (k in a ==> a[k] == b[k])
  }

  /** The value a transform writes into its field, given the field's current value. */
  function TransformedValue(host: Host, value: Json, t: Transformation): (r: Json)
    requires !t.UnknownTransformation? && !(t.CustomTransform? && t.fn.None?)
    ensures t.Uppercase? || t.Lowercase? || t.TrimText? ==> r.Str?
    ensures t.TrimText? ==> Trim(r.s) == r.s
    ensures t.ToNumber? ==> r.Num?
    ensures t.ToBoolean? ==> r.Bool? && (r.b <==> Truthy(value))
    ensures t.ToDate? ==> r.Date?
  {
    TrimIdempotent(Stringify(host, value));
    match t
    case Uppercase => Str(host.toUpperCase(Stringify(host, value)))
    case Lowercase => Str(host.toLowerCase(Stringify(host, value)))
    case TrimText => Str(Trim(Stringify(host, value)))
    case ToNumber => Num(host.toNumber(value))
    case ToBoolean => Bool(Truthy(value))
    case ToDate => Date(host.toDate(value))
    case CustomTransform(fn) => fn.value(value)
  }

  /** A transform rule: rewrites one field from its own value; an undefined field is left alone. */
  function ApplyTransformation(host: Host, data: Record, field: string, t: Transformation): (r: Record)
    ensures Get(data, field).Undefined? ==> r == data
    ensures SameExcept(data, r, field)
    ensures t.UnknownTransformation? || (t.CustomTransform? && t.fn.None?) ==> r == data
    ensures !Get(data, field).Undefined? && !t.UnknownTransformation? && !(t.CustomTransform? && t.fn.None?) ==>
      r == data[field := TransformedValue(host, Get(data, field), t)]
  {
    var value := Get(data, field);
    if value.Undefined? then data
    else if t.UnknownTransformation? || (t.CustomTransform? && t.fn.None?) then data
    else data[field := TransformedValue(host, value, t)]
  }

  /** A calculate rule: sets one field from the whole snapshot taken before the rule. */
  function ApplyCalculation(data: Record, field: string, calculation: Option<Record -> Json>): (r: Record)
    ensures SameExcept(data, r, field)
    ensures calculation.None? ==> r == data
    ensures calculation.Some? ==> Get(r, field) == calculation.value(data)
  {
    if calculation.Some? then data[field := calculation.value(data)] else data
  }

  /** A validate rule: checks the field's value against the snapshot; it never changes the data. */
  function ApplyValidation(data: Record, field: string, check: Option<(Json, Record) -> bool>): (r: Result<(), ProcessingError>)
    ensures r.Failure? <==> check.Some? && !check.value(Get(data, field), data)
    ensures r.Failure? ==> r.error.field == field
  {
    if check.Some? && !check.value(Get(data, field), data) then Failure(FieldValidationFailed(field))
    else Success(())
  }

  /** One rule applied to one snapshot. */
  function Step(host: Host, data: Record, rule: ProcessingRule): (r: Result<Record, ProcessingError>)
    ensures r.Success? ==> SameExcept(data, r.value, rule.field)
    ensures r.Failure? ==> rule.Validate? && r.error.field == rule.field
  {
    match rule
    case Transform(field, t) => Success(ApplyTransformation(host, data, field, t))
    case Calculate(field, c) => Success(ApplyCalculation(data, field, c))
    case Validate(field, c) =>
      var outcome := ApplyValidation(data, field, c);
      if outcome.Failure? then Failure(outcome.error) else Success(data)
    case UnknownRule(_) => Success(data)
  }

  /** The pipeline: a left fold of `Step` over the rules, stopping at the first failure. */
  function Process(host: Host, data: Record, rules: seq<ProcessingRule>): Result<Record, ProcessingError>
    decreases |rules|
  {
    if rules == [] then Success(data)
    else match Step(host, data, rules[0])
      case Failure(e) => Failure(e)
      case Success(next) => Process(host, next, rules[1..])
  }

  /** Continue a pipeline outcome with more rules. */
  function Then(host: Host, outcome: Result<Record, ProcessingError>, rules: seq<ProcessingRule>): Result<Record, ProcessingError> {
    match outcome
    case Failure(e) => Failure(e)
    case Success(data) => Process(host, data, rules)
  }

  /**
   * `processFormData`: starts from a copy of the data, applies the rules in
   * order (an absent rule list is empty) and returns the final snapshot, or the
   * error of the first failing validate rule.
   */
  method ProcessFormData(host: Host, data: Record, rules: Option<seq<ProcessingRule>>) returns (r: Result<Record, ProcessingError>)
    ensures r == Process(host, data, rules.GetOr([]))
  {
    var rs := rules.GetOr([]);
    var processed := data;
    var i := 0;
    while i < |rs|
      invariant 0 <= i <= |rs|
      invariant Process(host, data, rs) == Process(host, processed, rs[i..])
    {
      assert rs[i..][1..] == rs[i + 1..];
      match rs[i] {
        case Transform(field, t) =>
          processed := ApplyTransformation(host, processed, field, t);
        case Calculate(field, c) =>
          processed := ApplyCalculation(processed, field, c);
        case Validate(field, c) =>
          var outcome := ApplyValidation(processed, field, c);
          if outcome.Failure? {
            return Failure(outcome.error);
          }
        case UnknownRule(_) =>
      }
      i := i + 1;
    }
    return Success(processed);
  }

  /** With no rules the result equals the input. */
  lemma ProcessEmpty(host: Host, data: Record)
    ensures Process(host, data, []) == Success(data)
  {
  }

  /** Running `first + rest` is running `first`, then `rest` on its result: rules apply strictly in order. */
  lemma {:induction false} ProcessConcat(host: Host, data: Record, first: seq<ProcessingRule>, rest: seq<ProcessingRule>)
    ensures Process(host, data, first + rest) == Then(host, Process(host, data, first), rest)
    decreases |first|
  {
    if first == [] {
      assert first + rest == rest;
    } else {
      assert (first + rest)[0] == first[0];
      assert (first + rest)[1..] == first[1..] + rest;
      match Step(host, data, first[0])
      case Failure(e) =>
      case Success(next) =>
        ProcessConcat(host, next, first[1..], rest);
    }
  }

  /** Appending one rule applies it to the snapshot the earlier rules produced. */
  lemma ProcessSnoc(host: Host, data: Record, rules: seq<ProcessingRule>, rule: ProcessingRule)
    ensures Process(host, data, rules + [rule]) ==
      match Process(host, data, rules)
      case Failure(e) => Failure(e)
      case Success(d) => Step(host, d, rule)
  {
    ProcessConcat(host, data, rules, [rule]);
    match Process(host, data, rules)
    case Failure(e) =>
    case Success(d) =>
      assert [rule][1..] == [];
      match Step(host, d, rule)
      case Failure(e) =>
      case Success(next) =>
        assert Process(host, next, []) == Success(next);
  }

  /** A field that no rule names keeps its presence and its value. */
  lemma {:induction false} ProcessKeepsUnnamedFields(host: Host, data: Record, rules: seq<ProcessingRule>, key: string)
    requires forall i :: 0 <= i < |rules| ==> rules[i].field != key
    requires Process(host, data, rules).Success?
    ensures var out := Process(host, data, rules).value;
      (key in out <==> key in data) && Get(out, key) == Get(data, key)
    decreases |rules|
  {
    if rules != [] {
      var next := Step(host, data, rules[0]).value;
      assert rules[0].field != key;
      assert forall i :: 0 <= i < |rules[1..]| ==> rules[1..][i].field != key by {
        forall i | 0 <= i < |rules[1..]| ensures rules[1..][i].field != key {
          assert rules[1..][i] == rules[i + 1];
        }
      }
      ProcessKeepsUnnamedFields(host, next, rules[1..], key);
    }
  }

  /** A pipeline of validate rules alone either fails or returns the data unchanged. */
  lemma {:induction false} ValidationOnlyKeepsData(host: Host, data: Record, rules: seq<ProcessingRule>)
    requires forall i :: 0 <= i < |rules| ==> rules[i].Validate?
    ensures Process(host, data, rules).Success? ==> Process(host, data, rules).value == data
    decreases |rules|
  {
    if rules != [] {
      assert rules[0].Validate?;
      assert forall i :: 0 <= i < |rules[1..]| ==> rules[1..][i].Validate? by {
        forall i | 0 <= i < |rules[1..]| ensures rules[1..][i].Validate? {
          assert rules[1..][i] == rules[i + 1];
        }
      }
      ValidationOnlyKeepsData(host, data, rules[1..]);
    }
  }

  /** A failed pipeline names the field of one of its validate rules that has a check function. */
  lemma {:induction false} FailureNamesValidateRule(host: Host, data: Record, rules: seq<ProcessingRule>)
    requires Process(host, data, rules).Failure?
    ensures exists i :: (0 <= i < |rules| && rules[i].Validate? && rules[i].check.Some? &&
                         rules[i].field == Process(host, data, rules).error.field)
    decreases |rules|
  {
    var e := Process(host, data, rules).error;
    match Step(host, data, rules[0])
    case Failure(e0) =>
      assert rules[0].Validate? && rules[0].check.Some?;
    case Success(next) =>
      FailureNamesValidateRule(host, next, rules[1..]);
      var i :| 0 <= i < |rules[1..]| && rules[1..][i].Validate? && rules[1..][i].check.Some? &&
        rules[1..][i].field == e.field;
      assert rules[i + 1] == rules[1..][i];
  }

  /** Transforming an undefined field, an unknown transform and an unknown rule type change nothing. */
  lemma NoOpRules(host: Host, data: Record, field: string, t: Transformation)
    ensures Get(data, field).Undefined? ==> Step(host, data, Transform(field, t)) == Success(data)
    ensures Step(host, data, Transform(field, UnknownTransformation)) == Success(data)
    ensures Step(host, data, UnknownRule(field)) == Success(data)
  {
  }

  /** The boolean transform stores the field's JavaScript truthiness. */
  lemma BooleanTransformIsTruthiness(host: Host, data: Record, field: string)
    requires !Get(data, field).Undefined?
    ensures Step(host, data, Transform(field, ToBoolean)) == Success(data[field := Bool(Truthy(data[field]))])
  {
  }

  /** The text transforms store the upper-cased, lower-cased or trimmed `String(v)` of the field's value. */
  lemma TextTransformsStoreText(host: Host, data: Record, field: string)
    requires !Get(data, field).Undefined?
    ensures Step(host, data, Transform(field, Uppercase)) == Success(data[field := Str(host.toUpperCase(Stringify(host, data[field])))])
    ensures Step(host, data, Transform(field, Lowercase)) == Success(data[field := Str(host.toLowerCase(Stringify(host, data[field])))])
    ensures Step(host, data, Transform(field, TrimText)) == Success(data[field := Str(Trim(Stringify(host, data[field])))])
  {
  }

  /** Trimming a field a second time changes nothing: the trim transform is idempotent. */
  lemma TrimTransformIdempotent(host: Host, data: Record, field: string)
    ensures var once := Step(host, data, Transform(field, TrimText)).value;
      Step(host, once, Transform(field, TrimText)) == Success(once)
  {
    if !Get(data, field).Undefined? {
      var trimmed := Trim(Stringify(host, Get(data, field)));
      TrimIdempotent(Stringify(host, Get(data, field)));
      TrimKeepsTrimmedField(host, data[field := Str(trimmed)], field, trimmed);
    }
  }

  /** A field that already holds its own trim is left as it is by the trim transform. */
  lemma TrimKeepsTrimmedField(host: Host, data: Record, field: string, trimmed: string)
    requires Get(data, field) == Str(trimmed) && Trim(trimmed) == trimmed
    ensures ApplyTransformation(host, data, field, TrimText) == data
  {
    assert data[field := Str(trimmed)] == data;
  }

  /** An array item after sanitizing: strings are trimmed, anything else is kept. */
  function SanitizeItem(item: Json): (r: Json)
    ensures item.Str? <==> r.Str?
  {
    if item.Str? then Str(Trim(item.s)) else item
  }

  /**
   * The sanitized form of a value that is not null or undefined: strings
   * trimmed, string items of arrays trimmed, objects sanitized recursively
   * (a `Date` is an object without own entries, so it becomes `{}`), and
   * every other value kept.
   */
  function SanitizeValue(v: Json): (r: Json)
    ensures IsNullish(r) <==> IsNullish(v)
    ensures v.Obj? ==> r.Obj? && r.fields.Keys <= v.fields.Keys
  {
    match v
    case Str(s) => Str(Trim(s))
    case Arr(items) => Arr(seq(|items|, i requires 0 <= i < |items| => SanitizeItem(items[i])))
    case Obj(m) => Obj(map k | k in m && !IsNullish(m[k]) :: SanitizeValue(m[k]))
    case Date(_) => Obj(map[])
    case _ => v
  }

  /** `sanitizeFormData`: drops null and undefined entries and sanitizes the rest. */
  function Sanitize(data: Record): (r: Record)
    ensures forall k :: k in r <==> k in data && !IsNullish(data[k])
    ensures forall k :: k in r ==> !IsNullish(r[k]) && r[k] == SanitizeValue(data[k])
  {
    SanitizeValue(Obj(data)).fields
  }

  /** Sanitizing twice is sanitizing once. */
  lemma {:induction false} SanitizeValueIdempotent(v: Json)
    ensures SanitizeValue(SanitizeValue(v)) == SanitizeValue(v)
    decreases v
  {
    match v
    case Str(s) =>
      TrimIdempotent(s);
    case Arr(items) =>
      var once := seq(|items|, i requires 0 <= i < |items| => SanitizeItem(items[i]));
      var twice := seq(|once|, i requires 0 <= i < |once| => SanitizeItem(once[i]));
      forall i | 0 <= i < |items| ensures twice[i] == once[i] {
        if items[i].Str? { TrimIdempotent(items[i].s); }
      }
      assert twice == once;
    case Obj(m) =>
      var once := map k | k in m && !IsNullish(m[k]) :: SanitizeValue(m[k]);
      var twice := map k | k in once && !IsNullish(once[k]) :: SanitizeValue(once[k]);
      forall k | k in once ensures k in twice && twice[k] == once[k] {
        SanitizeValueIdempotent(m[k]);
      }
      assert twice == once;
    case Date(_) =>
    case _ =>
  }

  /** `sanitizeFormData` is idempotent. */
  lemma SanitizeIdempotent(data: Record)
    ensures Sanitize(Sanitize(data)) == Sanitize(data)
  {
    SanitizeValueIdempotent(Obj(data));
  }

  /** The sanitized entries of the keys in `done`. */
  ghost function SanitizedPart(data: Record, done: set<string>): Record {
    map k | k in done && k in data && !IsNullish(data[k]) :: SanitizeValue(data[k])
  }

  /** Taking one more key into account adds its sanitized entry, unless the value is null or undefined. */
  lemma SanitizedPartStep(data: Record, done: set<string>, key: string)
    requires key in data && key !in done
    ensures SanitizedPart(data, done + {key}) ==
      if IsNullish(data[key]) then SanitizedPart(data, done) else SanitizedPart(data, done)[key := SanitizeValue(data[key])]
  {
  }

  /**
   * `sanitizeFormData` as the source runs it: fills a fresh record entry by
   * entry, recursing into nested objects.
   */
  method SanitizeFormData(data: Record) returns (sanitized: Record)
    ensures sanitized == Sanitize(data)
    decreases Obj(data)
  {
    sanitized := map[];
    var pending := data.Keys;
    while pending != {}
      invariant pending <= data.Keys
      invariant sanitized == SanitizedPart(data, data.Keys - pending)
      decreases pending
    {
      var key :| key in pending;
      var value := data[key];
      SanitizedPartStep(data, data.Keys - pending, key);
      assert data.Keys - (pending - {key}) == (data.Keys - pending) + {key};
      if !IsNullish(value) {
        var cleaned: Json;
        if value.Str? {
          cleaned := Str(Trim(value.s));
        } else if value.Arr? {
          var items := value.items;
          cleaned := Arr(seq(|items|, i requires 0 <= i < |items| => SanitizeItem(items[i])));
        } else if value.Obj? {
          assert Obj(value.fields) == value;
          var inner := SanitizeFormData(value.fields);
          cleaned := Obj(inner);
        } else if value.Date? {
          cleaned := Obj(map[]);
        } else {
          cleaned := value;
        }
        assert cleaned == SanitizeValue(value);
        sanitized := sanitized[key := cleaned];
      }
      pending := pending - {key};
    }
    assert data.Keys - pending == data.Keys;
  }
}
