// The form provider: per-field state (value, error, touched, focused), the
// rule check that yields at most one error per field, and the field updates
// the inputs trigger. A rule's regular expression and custom validator are
// opaque functions supplied with the rule.

module Form {
  import opened JsCore

  datatype ErrorType = RequiredError | MinLengthError | MaxLengthError | PatternError | CustomError

  datatype FieldError = FieldError(message: string, kind: ErrorType)

  /** A field's state. A field first created by spreading a missing entry
      has `touched` and `focused` undefined; every reader tests them for
      truthiness, so undefined is kept as false. */
  datatype FieldState = FieldState(value: JsValue, error: Option<FieldError>, touched: bool, focused: bool)

  type FormState = map<string, FieldState>

  /** A field's rules. `minLength`/`maxLength` are None when absent;
      `pattern` is `pattern.test`, `validate` returns None for undefined. */
  datatype FieldRules = FieldRules(required: bool, minLength: Option<int>, maxLength: Option<int>,
                                   pattern: Option<JsValue -> bool>, validate: Option<JsValue -> Option<string>>)

  /** A field as `{...prev[name]}` sees it: an absent entry spreads to nothing. */
  function Entry(state: FormState, name: string): FieldState
  {
    if name in state then state[name] else FieldState(Undefined, None, false, false)
  }

  predicate DistinctKeys(entries: seq<(string, JsValue)>)
  {
    forall i, j :: 0 <= i < j < |entries| ==> entries[i].0 != entries[j].0
  }

  /** The initial state: one untouched, unfocused, error-free field per
      initial value, built entry by entry as the source's `forEach` does. */
  method InitialState(initialValues: seq<(string, JsValue)>) returns (state: FormState)
    requires DistinctKeys(initialValues)
    ensures state.Keys == set i | 0 <= i < |initialValues| :: initialValues[i].0
    ensures forall i :: 0 <= i < |initialValues| ==>
              state[initialValues[i].0] == FieldState(initialValues[i].1, None, false, false)
  {
    state := map[];
    var k := 0;
    while k < |initialValues|
      invariant 0 <= k <= |initialValues|
      invariant state.Keys == set i | 0 <= i < k :: initialValues[i].0
      invariant forall i :: 0 <= i < k ==> state[initialValues[i].0] == FieldState(initialValues[i].1, None, false, false)
    {
      var (key, value) := initialValues[k];
      state := state[key := FieldState(value, None, false, false)];
      k := k + 1;
    }
  }

  /** `value.length < n` (or `>` when `below` is false) for the value the
      checks see: the length of a string or array, an object's numeric
      `length` field, and false for anything else. */
  predicate LengthBeyond(value: JsValue, n: int, below: bool)
  {
    var len: Option<real> :=
      match value
      case Str(s) => Some(|s| as real)
      case Arr(items) => Some(|items| as real)
      case Obj(fields) => if "length" in fields && fields["length"].Num? then Some(fields["length"].n) else None
      case _ => None;
    len.Some? && (if below then len.value < n as real else len.value > n as real)
  }

  /** The length checks fail for a truthy (non-zero) bound the value's
      length falls short of or exceeds. */
  predicate MinLengthFails(rules: FieldRules, value: JsValue)
  {
    rules.minLength.Some? && rules.minLength.value != 0 && LengthBeyond(value, rules.minLength.value, true)
  }

  predicate MaxLengthFails(rules: FieldRules, value: JsValue)
  {
    rules.maxLength.Some? && rules.maxLength.value != 0 && LengthBeyond(value, rules.maxLength.value, false)
  }

  predicate PatternFails(rules: FieldRules, value: JsValue)
  {
    rules.pattern.Some? && !rules.pattern.value(value)
  }

  /** The custom validator fails when it returns a non-empty message. */
  predicate CustomFails(rules: FieldRules, value: JsValue)
  {
    rules.validate.Some? && rules.validate.value(value).Some? && rules.validate.value(value).value != ""
  }

  /** The error the rules give a value: the first failing check in the order
      required, minLength, maxLength, pattern, custom; None when all pass.
      Every check after `required` applies only to a truthy value. */
  function CheckValue(rules: FieldRules, value: JsValue): (r: Option<FieldError>)
    ensures rules.required && !Truthy(value) ==> r == Some(FieldError("This field is required", RequiredError))
    ensures !Truthy(value) && !rules.required ==> r.None?
    ensures Truthy(value) && MinLengthFails(rules, value) ==>
              r == Some(FieldError("Minimum length is " + IntToString(rules.minLength.value), MinLengthError))
    ensures Truthy(value) && !MinLengthFails(rules, value) && MaxLengthFails(rules, value) ==>
              r == Some(FieldError("Maximum length is " + IntToString(rules.maxLength.value), MaxLengthError))
    ensures Truthy(value) && !MinLengthFails(rules, value) && !MaxLengthFails(rules, value)
            && PatternFails(rules, value) ==>
              r == Some(FieldError("Invalid format", PatternError))
    ensures Truthy(value) && !MinLengthFails(rules, value) && !MaxLengthFails(rules, value)
            && !PatternFails(rules, value) && CustomFails(rules, value) ==>
              r == Some(FieldError(rules.validate.value(value).value, CustomError))
    ensures r.None? <==>
              if Truthy(value) then
                !MinLengthFails(rules, value) && !MaxLengthFails(rules, value)
                && !PatternFails(rules, value) && !CustomFails(rules, value)
              else !rules.required
  {
    if rules.required && !Truthy(value) then Some(FieldError("This field is required", RequiredError))
    else if Truthy(value) && MinLengthFails(rules, value) then
      Some(FieldError("Minimum length is " + IntToString(rules.minLength.value), MinLengthError))
    else if Truthy(value) && MaxLengthFails(rules, value) then
      Some(FieldError("Maximum length is " + IntToString(rules.maxLength.value), MaxLengthError))
    else if Truthy(value) && PatternFails(rules, value) then
      Some(FieldError("Invalid format", PatternError))
    else if Truthy(value) && CustomFails(rules, value) then
      Some(FieldError(rules.validate.value(value).value, CustomError))
    else None
  }

  /** `validateField(name, rules)`: the explicit rules, else the form's rules
      for that name; with neither the state is left alone. Otherwise the
      field keeps everything but its error, which becomes the check's result. */
  function ValidateField(state: FormState, name: string, rules: Option<FieldRules>,
                         formRules: map<string, FieldRules>): (r: FormState)
    ensures rules.None? && name !in formRules ==> r == state
    ensures rules.Some? || name in formRules ==>
              && r.Keys == state.Keys + {name}
              && r[name] == Entry(state, name).(error := CheckValue(if rules.Some? then rules.value else formRules[name], Entry(state, name).value))
              && forall other :: other in state && other != name ==> r[other] == state[other]
  {
    if rules.None? && name !in formRules then state
    else
      var fieldRules := if rules.Some? then rules.value else formRules[name];
      var field := Entry(state, name);
      state[name := field.(error := CheckValue(fieldRules, field.value))]
  }

  /** `updateField`: set the value and clear the error. */
  function UpdateField(state: FormState, name: string, value: JsValue): (r: FormState)
    ensures r.Keys == state.Keys + {name}
    ensures r[name] == FieldState(value, None, Entry(state, name).touched, Entry(state, name).focused)
    ensures forall other :: other in state && other != name ==> r[other] == state[other]
  {
    state[name := Entry(state, name).(value := value, error := None)]
  }

  /** `setFieldTouched`: the new state, and whether a validation of the field
      is scheduled (when touched and the form has rules for it). */
  function SetFieldTouched(state: FormState, name: string, touched: bool,
                           formRules: map<string, FieldRules>): (r: (FormState, bool))
    ensures r.0.Keys == state.Keys + {name}
    ensures r.0[name] == Entry(state, name).(touched := touched)
    ensures forall other :: other in state && other != name ==> r.0[other] == state[other]
    ensures r.1 <==> touched && name in formRules
  {
    (state[name := Entry(state, name).(touched := touched)], touched && name in formRules)
  }

  /** `setFieldFocused`. */
  function SetFieldFocused(state: FormState, name: string, focused: bool): (r: FormState)
    ensures r.Keys == state.Keys + {name}
    ensures r[name] == Entry(state, name).(focused := focused)
    ensures forall other :: other in state && other != name ==> r[other] == state[other]
  {
    state[name := Entry(state, name).(focused := focused)]
  }

  /** `isValid`: no field has an error; a form without fields is valid,
      and a valid form shows no error on any field. */
  function IsValid(state: FormState): (b: bool)
    ensures state == map[] ==> b
    ensures b ==> forall name :: name in state ==> !(state[name].touched && state[name].error.Some?)
  {
    forall name :: name in state ==> state[name].error.None?
  }

  /** `hasErrors`: some touched field has an error, so a form nobody has
      touched shows none, and one that shows errors is not valid. */
  function HasErrors(state: FormState): (b: bool)
    ensures (forall name :: name in state ==> !state[name].touched) ==> !b
    ensures b ==> !IsValid(state)
  {
    exists name :: name in state && state[name].error.Some? && state[name].touched
  }

  /** The submitted data: each field name mapped to its value. */
  function FormData(state: FormState): (r: map<string, JsValue>)
    ensures r.Keys == state.Keys
    ensures forall name :: name in state ==> r[name] == state[name].value
  {
    map name | name in state :: state[name].value
  }

  /** Typing into a field clears its error and no other: a valid form stays
      valid, and the submitted value for that field is the typed one. */
  lemma UpdateFieldKeepsValid(state: FormState, name: string, value: JsValue)
    ensures IsValid(state) ==> IsValid(UpdateField(state, name, value))
    ensures FormData(UpdateField(state, name, value))[name] == value
  {
  }

  /** A field without a value: an error only when it is required, whatever
      the other rules say; a validation that passes clears an earlier error. */
  lemma ValidateEmptyField(state: FormState, name: string, rules: FieldRules)
    requires !Truthy(Entry(state, name).value)
    ensures ValidateField(state, name, Some(rules), map[])[name].error.Some? <==> rules.required
  {
  }

  /** Touching and focusing change neither values nor errors, so they keep
      `isValid` and the submitted data. */
  lemma TouchAndFocusKeepData(state: FormState, name: string, b: bool, formRules: map<string, FieldRules>)
    requires name in state
    ensures FormData(SetFieldTouched(state, name, b, formRules).0) == FormData(state)
    ensures FormData(SetFieldFocused(state, name, b)) == FormData(state)
    ensures IsValid(SetFieldTouched(state, name, b, formRules).0) == IsValid(state)
    ensures IsValid(SetFieldFocused(state, name, b)) == IsValid(state)
  {
    var t := SetFieldTouched(state, name, b, formRules).0;
    var f := SetFieldFocused(state, name, b);
    assert FormData(t) == FormData(state) by {
      forall k | k in state ensures FormData(t)[k] == FormData(state)[k] {
      }
    }
    assert FormData(f) == FormData(state) by {
      forall k | k in state ensures FormData(f)[k] == FormData(state)[k] {
      }
    }
  }
}
