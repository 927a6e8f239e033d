/**
 * The generic form validator: per-field rules (required, minimum trimmed length, email),
 * consulted in a fixed order, and the error map a validation pass leaves behind.
 */
module FormValidation {
  import opened Wrappers
  import opened Text
  import opened Constants
  import ImportUtils

  /** `ValidationRules`; an absent rule is `false` / `None`. */
  datatype ValidationRules = ValidationRules(required: bool, isEmail: bool, minLength: Option<nat>)

  const RequiredMessage: string := "Required"
  const EmailMessage: string := "Must be a valid email address"

  function MinLengthMessage(n: nat): (m: string)
    ensures m != ""
  {
    "Must be at least " + NatToString(n) + " characters"
  }

  /** One rule applied to a value: whether it fails, and what it reports then. */
  datatype Check = Check(fails: bool, message: string)

  /** The three rules in the order they are consulted; a rule that is absent never fails. */
  ghost function Checks(value: string, rules: ValidationRules): seq<Check> {
    var t := Trim(value);
    [ Check(rules.required && t == "", RequiredMessage),
      Check(rules.minLength.Some? && |t| < rules.minLength.value,
            if rules.minLength.Some? then MinLengthMessage(rules.minLength.value) else ""),
      Check(rules.isEmail && t != "" && !MatchesEmailRegex(t), EmailMessage) ]
  }

  /** The message of the first failing check, or "" when none fails. */
  ghost function FirstFailure(checks: seq<Check>): string {
    if checks == [] then ""
    else if checks[0].fails then checks[0].message
    else FirstFailure(checks[1..])
  }

  lemma FirstFailureOfThree(a: Check, b: Check, c: Check)
    ensures FirstFailure([a, b, c]) ==
      if a.fails then a.message else if b.fails then b.message else if c.fails then c.message else ""
  {
    assert [a, b, c][1..] == [b, c];
    assert [b, c][1..] == [c];
    assert [c][1..] == [];
    assert FirstFailure([c]) == if c.fails then c.message else "";
    assert FirstFailure([b, c]) == if b.fails then b.message else FirstFailure([c]);
  }

  /** Every rule that is present accepts the value. */
  ghost predicate Passes(value: string, rules: ValidationRules) {
    var t := Trim(value);
    && (rules.required ==> t != "")
    && (rules.minLength.Some? ==> |t| >= rules.minLength.value)
    && (rules.isEmail && t != "" ==> MatchesEmailRegex(t))
  }

  /** `validateField`: the first failing rule's message, or "" when the value passes. */
  function ValidateField(value: string, rules: ValidationRules): (msg: string)
    ensures msg == FirstFailure(Checks(value, rules))
    ensures msg == "" <==> Passes(value, rules)
  {
    var t := Trim(value);
    var checks := Checks(value, rules);
    FirstFailureOfThree(checks[0], checks[1], checks[2]);
    assert checks == [checks[0], checks[1], checks[2]];
    if rules.required && t == "" then RequiredMessage
    else if rules.minLength.Some? && |t| < rules.minLength.value then MinLengthMessage(rules.minLength.value)
    else if rules.isEmail && t != "" && !ImportUtils.ValidateEmail(t) then EmailMessage
    else ""
  }

  /** The rules object: field names in key order, each with its rules or undefined. */
  type RuleTable = seq<(string, Option<ValidationRules>)>

  /** An object's keys are distinct. */
  predicate DistinctKeys(table: RuleTable) {
    forall i, j :: 0 <= i < j < |table| ==> table[i].0 != table[j].0
  }

  /** `String(form[field] ?? '')` */
  function FormValue(form: map<string, string>, f: string): string {
    if f in form then form[f] else ""
  }

  /** A field validator, `validateField` or any other. */
  type FieldValidator = (string, ValidationRules) -> string

  /** The entry at `i` has rules that the form's value for its field does not pass. */
  predicate FailsAt(table: RuleTable, form: map<string, string>, i: int, validate: FieldValidator)
    requires 0 <= i < |table|
  {
    table[i].1.Some? && validate(FormValue(form, table[i].0), table[i].1.value) != ""
  }

  /** The error map a validation pass builds: one entry per field whose rules reject its value. */
  function ErrorMapBy(table: RuleTable, form: map<string, string>, validate: FieldValidator): (m: map<string, string>)
    ensures forall i :: 0 <= i < |table| && FailsAt(table, form, i, validate) ==> table[i].0 in m
    ensures forall f :: f in m ==> m[f] != ""
    decreases |table|
  {
    if table == [] then map[]
    else
      var n := |table| - 1;
      var m := ErrorMapBy(table[..n], form, validate);
      assert forall i :: 0 <= i < n ==> table[..n][i] == table[i];
      var (f, rules) := table[n];
      if rules.Some? && validate(FormValue(form, f), rules.value) != "" then
        m[f := validate(FormValue(form, f), rules.value)]
      else m
  }

  /** Only fields whose rules fail are reported. */
  lemma {:induction false} ErrorMapKeysFail(table: RuleTable, form: map<string, string>, validate: FieldValidator)
    ensures forall f :: f in ErrorMapBy(table, form, validate) ==>
      exists i :: 0 <= i < |table| && table[i].0 == f && FailsAt(table, form, i, validate)
    decreases |table|
  {
    if table != [] {
      var n := |table| - 1;
      ErrorMapKeysFail(table[..n], form, validate);
      assert forall i :: 0 <= i < n ==> table[..n][i] == table[i];
    }
  }

  /** The error map `validate` builds with `validateField`. */
  function ErrorMap(table: RuleTable, form: map<string, string>): map<string, string> {
    ErrorMapBy(table, form, ValidateField)
  }

  /** With distinct keys, each reported field carries its own rules' message. */
  lemma {:induction false} ErrorMapMessages(table: RuleTable, form: map<string, string>, validate: FieldValidator)
    requires DistinctKeys(table)
    ensures forall i :: 0 <= i < |table| && FailsAt(table, form, i, validate) ==>
      ErrorMapBy(table, form, validate)[table[i].0] == validate(FormValue(form, table[i].0), table[i].1.value)
    decreases |table|
  {
    if table != [] {
      var n := |table| - 1;
      assert forall i :: 0 <= i < n ==> table[..n][i] == table[i];
      ErrorMapMessages(table[..n], form, validate);
    }
  }

  /** The error map is empty exactly when no field with rules fails them. */
  lemma ErrorMapByEmpty(table: RuleTable, form: map<string, string>, validate: FieldValidator)
    ensures ErrorMapBy(table, form, validate) == map[] <==>
      forall i :: 0 <= i < |table| ==> !FailsAt(table, form, i, validate)
  {
    var m := ErrorMapBy(table, form, validate);
    forall i | 0 <= i < |table| && FailsAt(table, form, i, validate)
      ensures table[i].0 in m
    {
    }
    if m != map[] {
      var f :| f in m;
      ErrorMapKeysFail(table, form, validate);
    }
  }

  /** A form validates exactly when every field that has rules passes them. */
  lemma ErrorMapEmptyIffAllPass(table: RuleTable, form: map<string, string>)
    ensures ErrorMap(table, form) == map[] <==>
      forall i :: 0 <= i < |table| && table[i].1.Some? ==> Passes(FormValue(form, table[i].0), table[i].1.value)
  {
    ErrorMapByEmpty(table, form, ValidateField);
    forall i | 0 <= i < |table|
      ensures FailsAt(table, form, i, ValidateField) <==>
        table[i].1.Some? && !Passes(FormValue(form, table[i].0), table[i].1.value)
    {
    }
  }

  /** `useFormValidation(rules)`: the rule table and the current error map. */
  class FormValidator {
    const rules: RuleTable
    var errors: map<string, string>

    constructor(rules: RuleTable)
      ensures this.rules == rules && errors == map[]
    {
      this.rules := rules;
      errors := map[];
    }

    /** `validate`: rebuild the error map from scratch, and report whether it is empty. */
    method Validate(form: map<string, string>) returns (ok: bool)
      modifies this
      ensures errors == ErrorMap(rules, form)
      ensures ok <==> errors == map[]
    {
      var newErrors: map<string, string> := map[];
      for i := 0 to |rules|
        invariant newErrors == ErrorMap(rules[..i], form)
      {
        assert rules[..i + 1][..i] == rules[..i];
        var (field, fieldRules) := rules[i];
        if fieldRules.Some? {
          var error := ValidateField(FormValue(form, field), fieldRules.value);
          if error != "" {
            newErrors := newErrors[field := error];
          }
        }
      }
      assert rules[..|rules|] == rules;
      errors := newErrors;
      ok := |newErrors| == 0;
    }

    /** `clearErrors` */
    method ClearErrors()
      modifies this
      ensures errors == map[]
    {
      errors := map[];
    }
  }
}
