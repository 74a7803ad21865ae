// The validation utilities: the rule combinators, field and object validation
// over a schema, API-response guarding and input sanitising. The regular
// expressions for e-mail and `new URL`, `Number()` on strings, arrays and
// objects, and `String()` on numbers, arrays and objects are host
// operations, passed in as a `Host` record.

module Validation {
  import opened JsCore

  /** The host operations the rules call but this model does not define.
      `toNumber` is `Number(v)` on a string, array or object (None for NaN);
      `show` is `String(v)` on a number, array or object. */
  datatype Host = Host(toNumber: JsValue -> Option<real>, show: JsValue -> string,
                       isEmail: string -> bool, isUrl: string -> bool)

  /** One rule of `validationRules`, with the message it reports. */
  datatype Rule =
    | Required(message: string)
    | MinLength(min: int, message: string)
    | MaxLength(max: int, message: string)
    | Email(message: string)
    | Numeric(message: string)
    | Positive(message: string)
    | Range(low: int, high: int, message: string)
    | TeamCode(message: string)
    | Position(message: string)
    | Url(message: string)

  // ---------------------------------------------------------------- rule builders

  /** A default parameter (`message = '...'`) replaces only a missing argument. */
  function DefaultParam(message: Option<string>, default: string): (r: string)
    ensures message.Some? ==> r == message.value
    ensures message.None? ==> r == default
  {
    if message.Some? then message.value else default
  }

  /** `message || '...'` replaces a missing or empty argument. */
  function OrDefault(message: Option<string>, default: string): (r: string)
    ensures message.Some? && message.value != "" ==> r == message.value
    ensures message.None? || message == Some("") ==> r == default
  {
    if message.Some? && message.value != "" then message.value else default
  }

  function RequiredRule(message: Option<string>): Rule
  {
    Required(DefaultParam(message, "This field is required"))
  }

  function MinLengthRule(min: int, message: Option<string>): Rule
  {
    MinLength(min, OrDefault(message, "Minimum length is " + IntToString(min) + " characters"))
  }

  function MaxLengthRule(max: int, message: Option<string>): Rule
  {
    MaxLength(max, OrDefault(message, "Maximum length is " + IntToString(max) + " characters"))
  }

  function EmailRule(message: Option<string>): Rule
  {
    Email(DefaultParam(message, "Invalid email format"))
  }

  function NumericRule(message: Option<string>): Rule
  {
    Numeric(DefaultParam(message, "Must be a number"))
  }

  function PositiveRule(message: Option<string>): Rule
  {
    Positive(DefaultParam(message, "Must be a positive number"))
  }

  function RangeRule(min: int, max: int, message: Option<string>): Rule
  {
    Range(min, max, OrDefault(message, "Value must be between " + IntToString(min) + " and " + IntToString(max)))
  }

  function TeamCodeRule(message: Option<string>): Rule
  {
    TeamCode(DefaultParam(message, "Invalid team code"))
  }

  function PositionRule(message: Option<string>): Rule
  {
    Position(DefaultParam(message, "Invalid position"))
  }

  function UrlRule(message: Option<string>): Rule
  {
    Url(DefaultParam(message, "Invalid URL format"))
  }

  /** Without a message every builder carries its own default text. */
  lemma RuleDefaults(min: int, max: int)
    ensures RequiredRule(None) == Required("This field is required")
    ensures MinLengthRule(min, None) == MinLength(min, "Minimum length is " + IntToString(min) + " characters")
    ensures MaxLengthRule(max, None) == MaxLength(max, "Maximum length is " + IntToString(max) + " characters")
    ensures EmailRule(None) == Email("Invalid email format")
    ensures NumericRule(None) == Numeric("Must be a number")
    ensures PositiveRule(None) == Positive("Must be a positive number")
    ensures RangeRule(min, max, None) == Range(min, max, "Value must be between " + IntToString(min) + " and " + IntToString(max))
    ensures TeamCodeRule(None) == TeamCode("Invalid team code")
    ensures PositionRule(None) == Position("Invalid position")
    ensures UrlRule(None) == Url("Invalid URL format")
  {
  }

  /** A given message is kept, even an empty one, by the builders with a
      default parameter; the length and range builders replace an empty one
      by their default text. */
  lemma ExplicitMessages(min: int, max: int, m: string)
    ensures RequiredRule(Some(m)).message == m && EmailRule(Some(m)).message == m
    ensures NumericRule(Some(m)).message == m && PositiveRule(Some(m)).message == m
    ensures TeamCodeRule(Some(m)).message == m && PositionRule(Some(m)).message == m
    ensures UrlRule(Some(m)).message == m
    ensures m != "" ==> MinLengthRule(min, Some(m)).message == m && MaxLengthRule(max, Some(m)).message == m
                        && RangeRule(min, max, Some(m)).message == m
    ensures m == "" ==> MinLengthRule(min, Some(m)) == MinLengthRule(min, None)
                        && MaxLengthRule(max, Some(m)) == MaxLengthRule(max, None)
                        && RangeRule(min, max, Some(m)) == RangeRule(min, max, None)
  {
  }

  // ---------------------------------------------------------------- coercions

  /** `Number(v)`: None stands for NaN. */
  function ToNumber(v: JsValue, host: Host): (r: Option<real>)
    ensures v.Undefined? || v.NaN? ==> r.None?
    ensures v.Null? || v == Bool(false) ==> r == Some(0.0)
    ensures v == Bool(true) ==> r == Some(1.0)
    ensures v.Num? ==> r == Some(v.n)
  {
    match v
    case Undefined => None
    case Null => Some(0.0)
    case Bool(b) => Some(if b then 1.0 else 0.0)
    case Num(n) => Some(n)
    case NaN => None
    case _ => host.toNumber(v)
  }

  /** `String(v)`, as a regular expression's `test` applies it. */
  function ToJsString(v: JsValue, host: Host): (r: string)
    ensures v.Str? ==> r == v.s
    ensures v.Undefined? ==> r == "undefined"
    ensures v.Null? ==> r == "null"
    ensures v.Bool? ==> r == (if v.b then "true" else "false")
  {
    match v
    case Undefined => "undefined"
    case Null => "null"
    case Bool(b) => if b then "true" else "false"
    case NaN => "NaN"
    case Str(s) => s
    case _ => host.show(v)
  }

  /** `v.length`: a TypeError (None) on null and undefined, the length of a
      string or array, an object's own `length` field, and undefined for any
      other value. */
  function LengthOf(v: JsValue): (r: Option<JsValue>)
    ensures r.None? <==> v.Undefined? || v.Null?
    ensures v.Str? ==> r == Some(Num(|v.s| as real))
    ensures v.Arr? ==> r == Some(Num(|v.items| as real))
  {
    match v
    case Str(s) => Some(Num(|s| as real))
    case Arr(items) => Some(Num(|items| as real))
    case _ => Get(v, "length")
  }

  /** `x >= bound` and `x <= bound` against a number: false whenever the
      left side is NaN after conversion. */
  predicate AtLeast(x: JsValue, bound: real, host: Host)
  {
    var n := ToNumber(x, host);
    n.Some? && n.value >= bound
  }

  predicate AtMost(x: JsValue, bound: real, host: Host)
  {
    var n := ToNumber(x, host);
    n.Some? && n.value <= bound
  }

  /** `/^[A-Z]{2,3}$/`. */
  predicate IsTeamCode(s: string)
  {
    2 <= |s| <= 3 && forall i :: 0 <= i < |s| ==> IsUpperAscii(s[i])
  }

  const Positions: seq<string> := ["QB", "RB", "WR", "TE", "K", "DEF"]

  /** `rule.validate(value)`: Some(verdict), or None when it throws. */
  function Accepts(rule: Rule, v: JsValue, host: Host): (r: Option<bool>)
    ensures r.None? <==> (rule.MinLength? || rule.MaxLength?) && (v.Undefined? || v.Null?)
  {
    match rule
    case Required(_) => Some(v != Null && v != Undefined && v != Str(""))
    case MinLength(min, _) =>
      (match LengthOf(v) case None => None case Some(n) => Some(AtLeast(n, min as real, host)))
    case MaxLength(max, _) =>
      (match LengthOf(v) case None => None case Some(n) => Some(AtMost(n, max as real, host)))
    case Email(_) => Some(host.isEmail(ToJsString(v, host)))
    case Numeric(_) => Some(ToNumber(v, host).Some?)
    case Positive(_) => Some(var n := ToNumber(v, host); n.Some? && n.value > 0.0)
    case Range(low, high, _) => Some(AtLeast(v, low as real, host) && AtMost(v, high as real, host))
    case TeamCode(_) => Some(IsTeamCode(ToJsString(v, host)))
    case Position(_) => Some(v.Str? && v.s in Positions)
    case Url(_) => Some(host.isUrl(ToJsString(v, host)))
  }

  /** `required` rejects exactly null, undefined and the empty string; zero
      and false pass. */
  lemma RequiredRejectsOnlyEmpty(v: JsValue, message: string, host: Host)
    ensures Accepts(Required(message), v, host) == Some(false) <==> v == Null || v == Undefined || v == Str("")
    ensures Accepts(Required(message), Num(0.0), host) == Some(true)
    ensures Accepts(Required(message), Bool(false), host) == Some(true)
  {
  }

  /** The length and range bounds are inclusive. */
  lemma BoundsInclusive(s: string, x: real, min: int, max: int, message: string, host: Host)
    ensures Accepts(MinLength(min, message), Str(s), host) == Some(|s| >= min)
    ensures Accepts(MaxLength(max, message), Str(s), host) == Some(|s| <= max)
    ensures Accepts(Range(min, max, message), Num(x), host) == Some(min as real <= x <= max as real)
  {
  }

  /** A team code is two or three capital letters, and a position is one of
      the six listed. */
  lemma TeamCodeAndPosition(s: string, message: string, host: Host)
    ensures Accepts(TeamCode(message), Str(s), host) == Some(2 <= |s| <= 3 && forall i :: 0 <= i < |s| ==> 'A' <= s[i] <= 'Z')
    ensures Accepts(Position(message), Str(s), host) == Some(s == "QB" || s == "RB" || s == "WR" || s == "TE" || s == "K" || s == "DEF")
    ensures Accepts(TeamCode(message), Str("KC"), host) == Some(true)
    ensures Accepts(TeamCode(message), Str("kc"), host) == Some(false)
    ensures Accepts(TeamCode(message), Str("ABCD"), host) == Some(false)
  {
    assert !IsUpperAscii("kc"[0]);
  }

  // ---------------------------------------------------------------- validateField

  datatype ValidationResult = ValidationResult(isValid: bool, errors: seq<string>)

  /** The messages of the failing rules in rule order, or None when a rule
      throws (the exception leaves `validateField`). */
  function FieldErrors(v: JsValue, rules: seq<Rule>, host: Host): (r: Option<seq<string>>)
    ensures r.Some? ==> |r.value| <= |rules|
    decreases |rules|
  {
    if rules == [] then Some([])
    else
      var init, last := rules[..|rules| - 1], rules[|rules| - 1];
      assert forall i :: 0 <= i < |init| ==> init[i] == rules[i];
      var prev, verdict := FieldErrors(v, init, host), Accepts(last, v, host);
      if prev.None? || verdict.None? then None
      else if verdict.value then prev
      else Some(prev.value + [last.message])
  }

  /** The errors are missing exactly when some rule throws. */
  lemma {:induction false} FieldErrorsThrows(v: JsValue, rules: seq<Rule>, host: Host)
    ensures FieldErrors(v, rules, host).None? <==> exists i :: 0 <= i < |rules| && Accepts(rules[i], v, host).None?
    decreases |rules|
  {
    if rules != [] {
      var init, last := rules[..|rules| - 1], rules[|rules| - 1];
      FieldErrorsThrows(v, init, host);
      assert forall i :: 0 <= i < |init| ==> init[i] == rules[i];
      if exists i :: 0 <= i < |rules| && Accepts(rules[i], v, host).None? {
        var i :| 0 <= i < |rules| && Accepts(rules[i], v, host).None?;
        if i < |init| {
          assert Accepts(init[i], v, host).None?;
        }
      }
    }
  }

  predicate Fails(rule: Rule, v: JsValue, host: Host)
  {
    Accepts(rule, v, host) == Some(false)
  }

  /** Rule order is kept: validating against `a + b` reports a's errors, then b's. */
  lemma {:induction false} FieldErrorsAppend(v: JsValue, a: seq<Rule>, b: seq<Rule>, host: Host)
    requires FieldErrors(v, a, host).Some? && FieldErrors(v, b, host).Some?
    ensures FieldErrors(v, a + b, host) == Some(FieldErrors(v, a, host).value + FieldErrors(v, b, host).value)
    decreases |b|
  {
    if b == [] {
      assert a + b == a;
      assert FieldErrors(v, a, host).value + [] == FieldErrors(v, a, host).value;
    } else {
      var b', x := b[..|b| - 1], b[|b| - 1];
      assert b == b' + [x];
      assert a + b == (a + b') + [x];
      FieldErrorsSnoc(v, b', x, host);
      FieldErrorsSnoc(v, a + b', x, host);
      FieldErrorsAppend(v, a, b', host);
      var pa, pb := FieldErrors(v, a, host).value, FieldErrors(v, b', host).value;
      if !Accepts(x, v, host).value {
        assert pa + (pb + [x.message]) == pa + pb + [x.message];
      }
    }
  }

  /** One more rule at the end adds its message when it fails. */
  lemma FieldErrorsSnoc(v: JsValue, rules: seq<Rule>, x: Rule, host: Host)
    ensures FieldErrors(v, rules + [x], host) == Step(FieldErrors(v, rules, host), x, v, host)
  {
    var t := rules + [x];
    assert t[..|t| - 1] == rules && t[|t| - 1] == x;
  }

  /** When no rule throws, the errors are empty exactly when every rule
      accepts, and each failing rule contributes its message. */
  lemma {:induction false} FieldErrorsExact(v: JsValue, rules: seq<Rule>, host: Host)
    requires FieldErrors(v, rules, host).Some?
    ensures FieldErrors(v, rules, host).value == [] <==> forall i :: 0 <= i < |rules| ==> !Fails(rules[i], v, host)
    ensures forall i :: 0 <= i < |rules| && Fails(rules[i], v, host) ==> rules[i].message in FieldErrors(v, rules, host).value
    ensures forall m :: m in FieldErrors(v, rules, host).value ==>
              exists i :: 0 <= i < |rules| && Fails(rules[i], v, host) && rules[i].message == m
    decreases |rules|
  {
    if rules != [] {
      var init, last := rules[..|rules| - 1], rules[|rules| - 1];
      FieldErrorsExact(v, init, host);
      assert forall i :: 0 <= i < |init| ==> init[i] == rules[i];
      var prev := FieldErrors(v, init, host).value;
      assert FieldErrors(v, rules, host).value == prev + (if Fails(last, v, host) then [last.message] else []);
      forall m | m in FieldErrors(v, rules, host).value
        ensures exists i :: 0 <= i < |rules| && Fails(rules[i], v, host) && rules[i].message == m
      {
        if m !in prev {
          assert Fails(rules[|rules| - 1], v, host) && rules[|rules| - 1].message == m;
        } else {
          var j :| 0 <= j < |init| && Fails(init[j], v, host) && init[j].message == m;
          assert rules[j] == init[j];
        }
      }
    }
  }

  lemma FieldErrorsStep(v: JsValue, rules: seq<Rule>, k: nat, host: Host)
    requires k < |rules|
    ensures var prev, verdict := FieldErrors(v, rules[..k], host), Accepts(rules[k], v, host);
            FieldErrors(v, rules[..k + 1], host) ==
              if prev.None? || verdict.None? then None
              else if verdict.value then prev
              else Some(prev.value + [rules[k].message])
  {
    var pre := rules[..k + 1];
    assert pre[..|pre| - 1] == rules[..k];
    assert pre[|pre| - 1] == rules[k];
  }

  /** `validateField`: run every rule in order and collect the failing rules'
      messages. None when a rule throws. */
  method ValidateField(v: JsValue, rules: seq<Rule>, host: Host) returns (r: Option<ValidationResult>)
    ensures r.None? <==> FieldErrors(v, rules, host).None?
    ensures r.Some? ==> r.value.errors == FieldErrors(v, rules, host).value
    ensures r.Some? ==> (r.value.isValid <==> r.value.errors == [])
  {
    var errors: seq<string> := [];
    var k := 0;
    while k < |rules|
      invariant 0 <= k <= |rules|
      invariant FieldErrors(v, rules[..k], host) == Some(errors)
    {
      var verdict := Accepts(rules[k], v, host);
      FieldErrorsStep(v, rules, k, host);
      if verdict.None? {
        FieldErrorsThrows(v, rules, host);
        return None;
      }
      if !verdict.value {
        errors := errors + [rules[k].message];
      }
      k := k + 1;
    }
    assert rules[..k] == rules;
    return Some(ValidationResult(|errors| == 0, errors));
  }

  // ---------------------------------------------------------------- validateObject

  /** A schema as `Object.entries` yields it: each field name once, with its
      rules or None where the entry is not an array. */
  type Schema = seq<(string, Option<seq<Rule>>)>

  predicate DistinctFields(schema: Schema)
  {
    forall i, j :: 0 <= i < j < |schema| ==> schema[i].0 != schema[j].0
  }

  datatype ObjectResult = ObjectResult(isValid: bool, errors: seq<string>, fieldErrors: map<string, seq<string>>)

  /** `data[field]` on a plain record. */
  function FieldValue(data: map<string, JsValue>, field: string): JsValue
  {
    if field in data then data[field] else Undefined
  }

  /** What `validateObject` computes over the schema entries in order; None
      when a rule throws. */
  function ObjectErrors(data: map<string, JsValue>, schema: Schema, host: Host): (r: Option<ObjectResult>)
    decreases |schema|
  {
    if schema == [] then Some(ObjectResult(true, [], map[]))
    else
      var prefix := ObjectErrors(data, schema[..|schema| - 1], host);
      var (field, rules) := schema[|schema| - 1];
      if prefix.None? then None
      else if rules.None? then prefix
      else match FieldErrors(FieldValue(data, field), rules.value, host)
        case None => None
        case Some(errs) =>
          if errs == [] then prefix
          else Some(ObjectResult(false, prefix.value.errors + errs, prefix.value.fieldErrors[field := errs]))
  }

  /** A field passes when it has no rules or its rules report no error. */
  predicate FieldPasses(data: map<string, JsValue>, entry: (string, Option<seq<Rule>>), host: Host)
  {
    entry.1.None? || FieldErrors(FieldValue(data, entry.0), entry.1.value, host) == Some([])
  }

  /** The concatenation, in schema order, of every field's errors. */
  function AllErrors(data: map<string, JsValue>, schema: Schema, host: Host): seq<string>
    decreases |schema|
  {
    if schema == [] then []
    else
      var (field, rules) := schema[|schema| - 1];
      var tail := if rules.None? then [] else
        match FieldErrors(FieldValue(data, field), rules.value, host)
        case None => []
        case Some(errs) => errs;
      AllErrors(data, schema[..|schema| - 1], host) + tail
  }

  lemma InitDistinct(schema: Schema)
    requires schema != [] && DistinctFields(schema)
    ensures DistinctFields(schema[..|schema| - 1])
    ensures forall i :: 0 <= i < |schema| - 1 ==> schema[i].0 != schema[|schema| - 1].0
  {
    var init := schema[..|schema| - 1];
    forall i, j | 0 <= i < j < |init| ensures init[i].0 != init[j].0 {
      assert init[i] == schema[i] && init[j] == schema[j];
    }
  }

  /** When no rule throws, the object is valid exactly when every field passes. */
  lemma {:induction false} ObjectValidity(data: map<string, JsValue>, schema: Schema, host: Host)
    requires ObjectErrors(data, schema, host).Some?
    ensures ObjectErrors(data, schema, host).value.isValid <==>
              forall i :: 0 <= i < |schema| ==> FieldPasses(data, schema[i], host)
    decreases |schema|
  {
    if schema != [] {
      var init := schema[..|schema| - 1];
      ObjectValidity(data, init, host);
      assert forall i :: 0 <= i < |init| ==> init[i] == schema[i];
    }
  }

  /** `errors` concatenates the field errors in schema order. */
  lemma {:induction false} ObjectErrorList(data: map<string, JsValue>, schema: Schema, host: Host)
    requires ObjectErrors(data, schema, host).Some?
    ensures ObjectErrors(data, schema, host).value.errors == AllErrors(data, schema, host)
    decreases |schema|
  {
    if schema != [] {
      ObjectErrorList(data, schema[..|schema| - 1], host);
    }
  }

  /** One step of `ObjectErrors`: a passing last field changes nothing, a
      failing one records its errors under its name. */
  lemma ObjectErrorsUnfold(data: map<string, JsValue>, schema: Schema, host: Host)
    requires schema != [] && ObjectErrors(data, schema, host).Some?
    ensures var init, last := schema[..|schema| - 1], schema[|schema| - 1];
            var prev := ObjectErrors(data, init, host);
            && prev.Some?
            && (FieldPasses(data, last, host) ==> ObjectErrors(data, schema, host) == prev)
            && (!FieldPasses(data, last, host) ==>
                  && FieldErrors(FieldValue(data, last.0), last.1.value, host).Some?
                  && ObjectErrors(data, schema, host).value.fieldErrors ==
                       prev.value.fieldErrors[last.0 := FieldErrors(FieldValue(data, last.0), last.1.value, host).value])
  {
  }

  /** `fieldErrors` has a key exactly for each failing field. */
  lemma ObjectFieldErrorKeys(data: map<string, JsValue>, schema: Schema, host: Host)
    requires ObjectErrors(data, schema, host).Some?
    ensures forall f :: f in ObjectErrors(data, schema, host).value.fieldErrors <==>
              exists i :: 0 <= i < |schema| && schema[i].0 == f && !FieldPasses(data, schema[i], host)
  {
    FieldErrorKeysSound(data, schema, host);
    FieldErrorKeysComplete(data, schema, host);
  }

  /** Every key of `fieldErrors` names a failing field. */
  lemma {:induction false} FieldErrorKeysSound(data: map<string, JsValue>, schema: Schema, host: Host)
    requires ObjectErrors(data, schema, host).Some?
    ensures forall f :: f in ObjectErrors(data, schema, host).value.fieldErrors ==>
              exists i :: 0 <= i < |schema| && schema[i].0 == f && !FieldPasses(data, schema[i], host)
    decreases |schema|
  {
    if schema != [] {
      var init, last := schema[..|schema| - 1], schema[|schema| - 1];
      ObjectErrorsUnfold(data, schema, host);
      FieldErrorKeysSound(data, init, host);
      var fe := ObjectErrors(data, schema, host).value.fieldErrors;
      forall f | f in fe ensures exists i :: 0 <= i < |schema| && schema[i].0 == f && !FieldPasses(data, schema[i], host) {
        if !FieldPasses(data, last, host) && f == last.0 {
          assert schema[|schema| - 1].0 == f;
        } else {
          var j :| 0 <= j < |init| && init[j].0 == f && !FieldPasses(data, init[j], host);
          assert schema[j] == init[j];
        }
      }
    }
  }

  /** Every failing field has a key in `fieldErrors`. */
  lemma {:induction false} FieldErrorKeysComplete(data: map<string, JsValue>, schema: Schema, host: Host)
    requires ObjectErrors(data, schema, host).Some?
    ensures forall i :: 0 <= i < |schema| && !FieldPasses(data, schema[i], host) ==>
              schema[i].0 in ObjectErrors(data, schema, host).value.fieldErrors
    decreases |schema|
  {
    if schema != [] {
      var init, last := schema[..|schema| - 1], schema[|schema| - 1];
      ObjectErrorsUnfold(data, schema, host);
      FieldErrorKeysComplete(data, init, host);
      forall i | 0 <= i < |schema| && !FieldPasses(data, schema[i], host)
        ensures schema[i].0 in ObjectErrors(data, schema, host).value.fieldErrors
      {
        if i < |init| {
          assert init[i] == schema[i];
        }
      }
    }
  }


  /** With distinct field names, each failing field's entry in `fieldErrors`
      is that field's own error list. */
  lemma {:induction false} ObjectFieldErrorValues(data: map<string, JsValue>, schema: Schema, host: Host)
    requires DistinctFields(schema)
    requires ObjectErrors(data, schema, host).Some?
    ensures var fe := ObjectErrors(data, schema, host).value.fieldErrors;
            forall i :: 0 <= i < |schema| && !FieldPasses(data, schema[i], host) ==>
              schema[i].0 in fe &&
              Some(fe[schema[i].0]) == FieldErrors(FieldValue(data, schema[i].0), schema[i].1.value, host)
    decreases |schema|
  {
    if schema != [] {
      var init, last := schema[..|schema| - 1], schema[|schema| - 1];
      InitDistinct(schema);
      ObjectErrorsUnfold(data, schema, host);
      ObjectFieldErrorValues(data, init, host);
      var fe := ObjectErrors(data, schema, host).value.fieldErrors;
      forall i | 0 <= i < |schema| && !FieldPasses(data, schema[i], host)
        ensures schema[i].0 in fe
        ensures Some(fe[schema[i].0]) == FieldErrors(FieldValue(data, schema[i].0), schema[i].1.value, host)
      {
        if i < |init| {
          assert init[i] == schema[i];
        }
      }
    }
  }

  lemma {:induction false} ObjectErrorsThrowExtends(data: map<string, JsValue>, schema: Schema, k: nat, host: Host)
    requires k <= |schema| && ObjectErrors(data, schema[..k], host).None?
    ensures ObjectErrors(data, schema, host).None?
    decreases |schema| - k
  {
    if k < |schema| {
      assert schema[..k + 1][..k] == schema[..k];
      ObjectErrorsThrowExtends(data, schema, k + 1, host);
    } else {
      assert schema[..k] == schema;
    }
  }

  /** `validateObject`. None when a rule throws. */
  method ValidateObject(data: map<string, JsValue>, schema: Schema, host: Host) returns (r: Option<ObjectResult>)
    ensures r == ObjectErrors(data, schema, host)
  {
    var fieldErrors: map<string, seq<string>> := map[];
    var isValid := true;
    var allErrors: seq<string> := [];
    var k := 0;
    while k < |schema|
      invariant 0 <= k <= |schema|
      invariant ObjectErrors(data, schema[..k], host) == Some(ObjectResult(isValid, allErrors, fieldErrors))
    {
      var (field, rules) := schema[k];
      assert schema[..k + 1][..k] == schema[..k];
      if rules.Some? {
        var result := ValidateField(FieldValue(data, field), rules.value, host);
        if result.None? {
          ObjectErrorsThrowExtends(data, schema, k + 1, host);
          return None;
        }
        if !result.value.isValid {
          isValid := false;
          fieldErrors := fieldErrors[field := result.value.errors];
          allErrors := allErrors + result.value.errors;
        }
      }
      k := k + 1;
    }
    assert schema[..k] == schema;
    return Some(ObjectResult(isValid, allErrors, fieldErrors));
  }

  // ---------------------------------------------------------------- the two schemas

  const FantasyPlayerSchema: Schema := [
    ("id", Some([RequiredRule(Some("Player ID is required"))])),
    ("name", Some([RequiredRule(Some("Player name is required")),
                   MinLengthRule(2, Some("Name must be at least 2 characters")),
                   MaxLengthRule(50, Some("Name must be less than 50 characters"))])),
    ("position", Some([RequiredRule(Some("Position is required")), PositionRule(Some("Invalid position"))])),
    ("team", Some([RequiredRule(Some("Team is required")), TeamCodeRule(Some("Invalid team code"))])),
    ("projectedPoints", Some([RequiredRule(Some("Projected points is required")),
                              NumericRule(Some("Projected points must be a number")),
                              PositiveRule(Some("Projected points must be positive"))])),
    ("actualPoints", Some([NumericRule(Some("Actual points must be a number")),
                           RangeRule(0, 100, Some("Actual points must be between 0 and 100"))]))
  ]

  const WeekRules: seq<Rule> := [RequiredRule(Some("Week is required")),
                                 NumericRule(Some("Week must be a number")),
                                 RangeRule(1, 18, Some("Week must be between 1 and 18"))]

  const GameSchema: Schema := [
    ("id", Some([RequiredRule(Some("Game ID is required"))])),
    ("homeTeam", Some([RequiredRule(Some("Home team is required")), TeamCodeRule(Some("Invalid home team code"))])),
    ("awayTeam", Some([RequiredRule(Some("Away team is required")), TeamCodeRule(Some("Invalid away team code"))])),
    ("date", Some([RequiredRule(Some("Game date is required"))])),
    ("week", Some(WeekRules))
  ]

  /** In the game schema a week of 19 fails only the range rule, and a
      missing week fails the required and the number rules. */
  lemma WeekExamples(host: Host)
    ensures FieldErrors(Num(19.0), WeekRules, host) == Some(["Week must be between 1 and 18"])
    ensures FieldErrors(Undefined, WeekRules, host) == Some(["Week is required", "Week must be a number", "Week must be between 1 and 18"])
  {
    WeekRulesInSteps(Num(19.0), host);
    WeekRulesInSteps(Undefined, host);
    assert [] + ["Week must be between 1 and 18"] == ["Week must be between 1 and 18"];
    assert [] + ["Week is required"] + ["Week must be a number"] + ["Week must be between 1 and 18"]
        == ["Week is required", "Week must be a number", "Week must be between 1 and 18"];
  }

  /** The week rules' errors, one rule at a time. */
  lemma WeekRulesInSteps(v: JsValue, host: Host)
    ensures var w := WeekRules;
            FieldErrors(v, w, host) == Step(Step(Step(Some([]), w[0], v, host), w[1], v, host), w[2], v, host)
  {
    var w := WeekRules;
    var w0, w01 := [w[0]], [w[0], w[1]];
    assert [] + [w[0]] == w0 && w0 + [w[1]] == w01 && w01 + [w[2]] == w;
    FieldErrorsSnoc(v, [], w[0], host);
    FieldErrorsSnoc(v, w0, w[1], host);
    FieldErrorsSnoc(v, w01, w[2], host);
  }

  /** The errors after one more rule, as `validateField`'s loop adds them. */
  function Step(prev: Option<seq<string>>, x: Rule, v: JsValue, host: Host): Option<seq<string>>
  {
    var verdict := Accepts(x, v, host);
    if prev.None? || verdict.None? then None
    else if verdict.value then prev
    else Some(prev.value + [x.message])
  }

  // ---------------------------------------------------------------- API responses

  /** `validateApiResponse`: the data when the validator accepts it; null
      when it rejects it or throws (validator result None). */
  function ValidateApiResponse(data: JsValue, validator: JsValue -> Option<bool>): (r: Option<JsValue>)
    ensures r.Some? <==> validator(data) == Some(true)
    ensures r.Some? ==> r.value == data
  {
    if validator(data) == Some(true) then Some(data) else None
  }

  // ---------------------------------------------------------------- sanitizeInput

  /** `.replace(/[<>]/g, '')`. */
  function RemoveAngles(s: string): (r: string)
    ensures forall c :: c in r <==> c in s && c != '<' && c != '>'
  {
    Without(Without(s, '<'), '>')
  }

  /** The characters of s other than white space, in order. */
  function Visible(s: string): (r: string)
    ensures forall c :: c in r <==> c in s && !IsJsSpace(c)
    decreases |s|
  {
    if s == [] then []
    else if IsJsSpace(s[0]) then Visible(s[1..])
    else [s[0]] + Visible(s[1..])
  }

  lemma {:induction false} VisibleAppend(a: string, b: string)
    ensures Visible(a + b) == Visible(a) + Visible(b)
    decreases |a|
  {
    if a == [] {
      assert a + b == b;
    } else {
      assert (a + b)[0] == a[0] && (a + b)[1..] == a[1..] + b;
      VisibleAppend(a[1..], b);
    }
  }

  lemma {:induction false} VisibleTrimStart(s: string)
    ensures Visible(TrimStart(s)) == Visible(s)
    decreases |s|
  {
    if s != [] && IsJsSpace(s[0]) {
      VisibleTrimStart(s[1..]);
    }
  }

  lemma {:induction false} VisibleTrimEnd(s: string)
    ensures Visible(TrimEnd(s)) == Visible(s)
    decreases |s|
  {
    if s != [] && IsJsSpace(s[|s| - 1]) {
      var p, x := s[..|s| - 1], s[|s| - 1];
      VisibleTrimEnd(p);
      assert s == p + [x];
      VisibleAppend(p, [x]);
      assert [x][1..] == [];
    }
  }

  /** `trim()` drops white space only. */
  lemma VisibleTrim(s: string)
    ensures Visible(Trim(s)) == Visible(s)
  {
    VisibleTrimEnd(TrimStart(s));
    VisibleTrimStart(s);
  }

  /** Removing a visible character commutes with keeping the visible ones. */
  lemma {:induction false} VisibleWithout(s: string, x: char)
    requires !IsJsSpace(x)
    ensures Visible(Without(s, x)) == Without(Visible(s), x)
    decreases |s|
  {
    if s != [] {
      VisibleWithout(s[1..], x);
      if s[0] != x {
        assert ([s[0]] + Without(s[1..], x))[1..] == Without(s[1..], x);
        if !IsJsSpace(s[0]) {
          assert ([s[0]] + Visible(s[1..]))[1..] == Visible(s[1..]);
        }
      }
    }
  }

  /** Every white-space character replaced by a plain space, position by
      position. */
  function Blanked(s: string): (r: string)
    ensures |r| == |s|
    decreases |s|
  {
    if s == [] then [] else [if IsJsSpace(s[0]) then ' ' else s[0]] + Blanked(s[1..])
  }

  /** Drop every space that directly follows a space. */
  function Squeeze(t: string): string
    decreases |t|
  {
    if |t| <= 1 then t
    else if t[0] == ' ' && t[1] == ' ' then Squeeze(t[1..])
    else [t[0]] + Squeeze(t[1..])
  }

  /** A space followed by the blanked text squeezes to that space followed by
      the squeezed text without its leading white space. */
  lemma {:induction false} SqueezeAfterSpace(u: string)
    ensures Squeeze([' '] + Blanked(u)) == [' '] + Squeeze(Blanked(TrimStart(u)))
    decreases |u|
  {
    var t := [' '] + Blanked(u);
    if u == [] {
      assert t == [' '];
    } else if IsJsSpace(u[0]) {
      assert t[1] == ' ' && t[1..] == [' '] + Blanked(u[1..]);
      SqueezeAfterSpace(u[1..]);
    } else {
      assert t[1] == u[0] && t[1..] == Blanked(u) && TrimStart(u) == u;
    }
  }

  /** `.replace(/\s+/g, ' ')`: each run of white space becomes one space;
      the other characters are kept, in order. */
  function CollapseSpace(s: string): (r: string)
    ensures r == Squeeze(Blanked(s))
    ensures forall c :: c in r ==> c == ' ' || (c in s && !IsJsSpace(c))
    ensures forall c :: c in s && !IsJsSpace(c) ==> c in r
    ensures Visible(r) == Visible(s)
    ensures r != [] && IsJsSpace(r[0]) <==> s != [] && IsJsSpace(s[0])
    decreases |s|
  {
    if s == [] then []
    else if IsJsSpace(s[0]) then
      VisibleTrimStart(s[1..]);
      SqueezeAfterSpace(s[1..]);
      var t := CollapseSpace(TrimStart(s[1..]));
      assert ([' '] + t)[1..] == t;
      [' '] + t
    else
      var t := CollapseSpace(s[1..]);
      assert ([s[0]] + t)[1..] == t;
      var b := Blanked(s);
      assert b == [s[0]] + Blanked(s[1..]) && b[0] == s[0] && b[1..] == Blanked(s[1..]);
      assert |b| > 1 ==> b[0] != ' ';
      [s[0]] + t
  }

  /** An interior run of several white-space characters leaves one space. */
  lemma CollapseInteriorRun()
    ensures CollapseSpace("a \t b") == "a b"
  {
    assert Blanked("b") == "b";
    assert Blanked(" b") == " b";
    assert Blanked("\t b") == "  b";
    assert Blanked(" \t b") == "   b";
    assert Blanked("a \t b") == "a   b";
    assert Squeeze("b") == "b";
    assert Squeeze(" b") == " b";
    assert Squeeze("  b") == " b";
    assert Squeeze("   b") == " b";
    assert Squeeze("a   b") == "a b";
  }

  /** `sanitizeInput`: no angle bracket survives, and every other character
      of the input apart from white space is kept, in order. */
  function SanitizeInput(input: string): (r: string)
    ensures '<' !in r && '>' !in r
    ensures Visible(r) == Without(Without(Visible(input), '<'), '>')
    ensures r == Squeeze(Blanked(RemoveAngles(Trim(input))))
  {
    var t := Trim(input);
    VisibleTrim(input);
    VisibleWithout(t, '<');
    VisibleWithout(Without(t, '<'), '>');
    CollapseSpace(RemoveAngles(t))
  }

  predicate NoAdjacentSpace(s: string)
  {
    forall i :: 0 <= i < |s| - 1 ==> !(IsJsSpace(s[i]) && IsJsSpace(s[i + 1]))
  }

  lemma ConsNoAdjacent(c: char, t: string)
    requires NoAdjacentSpace(t)
    requires IsJsSpace(c) ==> t == [] || !IsJsSpace(t[0])
    ensures NoAdjacentSpace([c] + t)
  {
    var r := [c] + t;
    forall i | 1 <= i < |r| - 1 ensures !(IsJsSpace(r[i]) && IsJsSpace(r[i + 1])) {
      assert r[i] == t[i - 1] && r[i + 1] == t[i];
    }
  }

  lemma {:induction false} CollapseNoAdjacent(s: string)
    ensures NoAdjacentSpace(CollapseSpace(s))
    decreases |s|
  {
    if s != [] {
      if IsJsSpace(s[0]) {
        var t := TrimStart(s[1..]);
        CollapseNoAdjacent(t);
        ConsNoAdjacent(' ', CollapseSpace(t));
      } else {
        CollapseNoAdjacent(s[1..]);
        ConsNoAdjacent(s[0], CollapseSpace(s[1..]));
      }
    }
  }

  /** The sanitised text holds no angle bracket, no white space other than a
      plain space, and never two white-space characters in a row. */
  lemma SanitizeInputClean(input: string)
    ensures '<' !in SanitizeInput(input) && '>' !in SanitizeInput(input)
    ensures forall i :: 0 <= i < |SanitizeInput(input)| && IsJsSpace(SanitizeInput(input)[i]) ==> SanitizeInput(input)[i] == ' '
    ensures NoAdjacentSpace(SanitizeInput(input))
  {
    var r := SanitizeInput(input);
    CollapseNoAdjacent(RemoveAngles(Trim(input)));
    forall i | 0 <= i < |r| && IsJsSpace(r[i]) ensures r[i] == ' ' {
      assert r[i] in r;
    }
  }

  /** Sanitising is not idempotent: removing a bracket can expose white space
      that the earlier trim had already passed. */
  lemma SanitizeNotIdempotent()
    ensures SanitizeInput("a <") == "a "
    ensures SanitizeInput("a ") == "a"
  {
    SanitizeExposesSpace('a');
    SanitizeTrimsExposedSpace('a');
  }

  /** The bracket goes after the trim, leaving the space before it. */
  lemma SanitizeExposesSpace(c: char)
    requires !IsJsSpace(c) && c != '<' && c != '>'
    ensures SanitizeInput([c, ' ', '<']) == [c, ' ']
  {
    TrimKeepsBracket(c);
    BracketRemoved(c);
    SingleSpaceKept(c);
  }

  lemma TrimKeepsBracket(c: char)
    requires !IsJsSpace(c)
    ensures Trim([c, ' ', '<']) == [c, ' ', '<']
  {
    var s := [c, ' ', '<'];
    assert TrimStart(s) == s;
    assert TrimEnd(s) == s;
  }

  lemma BracketRemoved(c: char)
    requires c != '<' && c != '>'
    ensures RemoveAngles([c, ' ', '<']) == [c, ' ']
  {
    var s := [c, ' ', '<'];
    assert Without(['<'], '<') == [] by {
      assert ['<'][1..] == [];
    }
    assert Without([' ', '<'], '<') == [' '] by {
      assert [' ', '<'][1..] == ['<'];
    }
    assert s[1..] == [' ', '<'];
    assert Without(s, '<') == [c] + [' '];
    WithoutAbsent([c, ' '], '>');
  }

  lemma SingleSpaceKept(c: char)
    requires !IsJsSpace(c)
    ensures CollapseSpace([c, ' ']) == [c, ' ']
  {
    assert [c, ' '][1..] == [' '];
    assert [' '][1..] == [] && TrimStart([]) == [];
    assert CollapseSpace([]) == [];
    assert CollapseSpace([' ']) == [' '] + CollapseSpace([]);
    assert CollapseSpace([c, ' ']) == [c] + CollapseSpace([' ']);
  }

  /** A second pass trims the exposed space. */
  lemma SanitizeTrimsExposedSpace(c: char)
    requires !IsJsSpace(c) && c != '<' && c != '>'
    ensures SanitizeInput([c, ' ']) == [c]
  {
    TrimTrailingSpace(c);
    SingleCharKept(c);
  }

  lemma TrimTrailingSpace(c: char)
    requires !IsJsSpace(c)
    ensures Trim([c, ' ']) == [c]
  {
    var s := [c, ' '];
    assert TrimStart(s) == s;
    assert TrimEnd([c]) == [c];
    assert s[..1] == [c];
  }

  lemma SingleCharKept(c: char)
    requires !IsJsSpace(c) && c != '<' && c != '>'
    ensures CollapseSpace(RemoveAngles([c])) == [c]
  {
    WithoutAbsent([c], '<');
    WithoutAbsent([c], '>');
    assert [c][1..] == [];
  }
}
