/** The ticket form: its five text fields, its fixed rule table and the edits it accepts. */
module TicketForm {
  import opened Wrappers
  import opened Text
  import opened Constants
  import opened FormValidation

  /** `initialTicketForm` */
  const InitialTicketForm: map<string, string> :=
    map["name" := "", "surname" := "", "company" := "", "email" := "", "description" := ""]

  const RequiredOnly: ValidationRules := ValidationRules(true, false, None)
  const EmailRules: ValidationRules := ValidationRules(true, true, None)
  const DescriptionRules: ValidationRules := ValidationRules(true, false, Some(10))

  /** The rule table, in key order. */
  const TicketRules: RuleTable := [
    ("name", Some(RequiredOnly)),
    ("surname", Some(RequiredOnly)),
    ("company", Some(RequiredOnly)),
    ("email", Some(EmailRules)),
    ("description", Some(DescriptionRules))
  ]

  /** What a ticket form must hold to validate, field by field. */
  ghost predicate TicketFormAcceptable(form: map<string, string>) {
    && Trim(FormValue(form, "name")) != ""
    && Trim(FormValue(form, "surname")) != ""
    && Trim(FormValue(form, "company")) != ""
    && Trim(FormValue(form, "email")) != "" && MatchesEmailRegex(Trim(FormValue(form, "email")))
    && |Trim(FormValue(form, "description"))| >= 10
  }

  lemma RequiredOnlyPasses(value: string)
    ensures Passes(value, RequiredOnly) <==> Trim(value) != ""
  {
  }

  lemma EmailRulesPass(value: string)
    ensures Passes(value, EmailRules) <==> Trim(value) != "" && MatchesEmailRegex(Trim(value))
  {
  }

  lemma DescriptionRulesPass(value: string)
    ensures Passes(value, DescriptionRules) <==> |Trim(value)| >= 10
  {
    if |Trim(value)| >= 10 {
      assert Trim(value) != "";
    }
  }

  /** Every entry of the rule table passes, field by field. */
  lemma TablePassesIff(form: map<string, string>)
    ensures (forall i :: 0 <= i < |TicketRules| && TicketRules[i].1.Some? ==>
               Passes(FormValue(form, TicketRules[i].0), TicketRules[i].1.value)) <==>
      && Passes(FormValue(form, "name"), RequiredOnly)
      && Passes(FormValue(form, "surname"), RequiredOnly)
      && Passes(FormValue(form, "company"), RequiredOnly)
      && Passes(FormValue(form, "email"), EmailRules)
      && Passes(FormValue(form, "description"), DescriptionRules)
  {
    TableAllIff(form, (v: string, r: ValidationRules) => Passes(v, r));
  }

  /** The same for any per-field verdict. */
  lemma TableAllIff(form: map<string, string>, P: (string, ValidationRules) -> bool)
    ensures (forall i :: 0 <= i < |TicketRules| && TicketRules[i].1.Some? ==>
               P(FormValue(form, TicketRules[i].0), TicketRules[i].1.value)) <==>
      && P(FormValue(form, "name"), RequiredOnly)
      && P(FormValue(form, "surname"), RequiredOnly)
      && P(FormValue(form, "company"), RequiredOnly)
      && P(FormValue(form, "email"), EmailRules)
      && P(FormValue(form, "description"), DescriptionRules)
  {
    var t := TicketRules;
    assert t[0] == ("name", Some(RequiredOnly)) && t[1] == ("surname", Some(RequiredOnly));
    assert t[2] == ("company", Some(RequiredOnly)) && t[3] == ("email", Some(EmailRules));
    assert t[4] == ("description", Some(DescriptionRules));
    var ok := (e: (string, Option<ValidationRules>)) => e.1.Some? ==> P(FormValue(form, e.0), e.1.value);
    AllOfFive(t, ok);
  }

  /** A property holds of all five entries iff it holds of each. */
  lemma AllOfFive<T>(t: seq<T>, ok: T -> bool)
    requires |t| == 5
    ensures (forall i :: 0 <= i < |t| ==> ok(t[i])) <==> ok(t[0]) && ok(t[1]) && ok(t[2]) && ok(t[3]) && ok(t[4])
  {
    if ok(t[0]) && ok(t[1]) && ok(t[2]) && ok(t[3]) && ok(t[4]) {
      forall i | 0 <= i < |t| ensures ok(t[i]) {
        if i == 0 {
        } else if i == 1 {
        } else if i == 2 {
        } else if i == 3 {
        } else {
          assert i == 4;
        }
      }
    }
  }

  /** The ticket form validates exactly when the five fields meet their rules. */
  lemma TicketFormValidIff(form: map<string, string>)
    ensures ErrorMap(TicketRules, form) == map[] <==> TicketFormAcceptable(form)
  {
    ErrorMapEmptyIffAllPass(TicketRules, form);
    TablePassesIff(form);
    RequiredOnlyPasses(FormValue(form, "name"));
    RequiredOnlyPasses(FormValue(form, "surname"));
    RequiredOnlyPasses(FormValue(form, "company"));
    EmailRulesPass(FormValue(form, "email"));
    DescriptionRulesPass(FormValue(form, "description"));
  }

  /** A description that is only whitespace is reported as missing, not as too short. */
  lemma BlankDescriptionIsRequired(value: string)
    requires Trim(value) == ""
    ensures ValidateField(value, DescriptionRules) == RequiredMessage
    ensures ValidateField(value, DescriptionRules) != MinLengthMessage(10)
  {
    assert RequiredMessage[0] == 'R';
    assert MinLengthMessage(10)[0] == 'M';
  }

  /** Ten characters after trimming pass the description rules; nine fail them on length. */
  lemma DescriptionLengthBoundary(value: string)
    ensures |Trim(value)| == 10 ==> ValidateField(value, DescriptionRules) == ""
    ensures |Trim(value)| == 9 ==> ValidateField(value, DescriptionRules) == "Must be at least 10 characters"
  {
    assert NatToString(10) == "10" by {
      assert NatToString(1) == [DigitChar(1)];
    }
  }

  /** `useTicketForm`: the form record and the validator over the ticket rules. */
  class TicketForm {
    var form: map<string, string>
    const validation: FormValidator

    /** The validator is the one built over the ticket rules. */
    predicate Valid() {
      validation.rules == TicketRules
    }

    constructor(initialData: map<string, string>)
      ensures Valid() && form == initialData
      ensures fresh(validation) && validation.errors == map[]
    {
      form := initialData;
      validation := new FormValidator(TicketRules);
    }

    /** `handleChange`: the named field takes the new value; nothing else changes. */
    method HandleChange(name: string, value: string)
      modifies this
      ensures form == old(form)[name := value]
    {
      form := form[name := value];
    }

    /** `resetForm`: every field back to "" and no errors. */
    method ResetForm()
      modifies this, validation
      ensures form == InitialTicketForm && validation.errors == map[]
    {
      form := InitialTicketForm;
      validation.ClearErrors();
    }

    /** `updateForm`: the supplied fields overwrite, the others stay. */
    method UpdateForm(data: map<string, string>)
      modifies this
      ensures form == old(form) + data
    {
      form := form + data;
    }

    /** `validate(form)` on the current record. */
    method Validate() returns (ok: bool)
      requires Valid()
      modifies validation
      ensures validation.errors == ErrorMap(TicketRules, form)
      ensures ok <==> TicketFormAcceptable(form)
    {
      ok := validation.Validate(form);
      TicketFormValidIff(form);
    }
  }
}
