/** The per-field validation state machine of `useFormValidation`: one state
    per declared field, the operations that change it, and the three derived
    booleans. The reactive store becomes an immutable map from field name to
    state; the live form data becomes an explicit argument of every operation
    that reads it; the deep watcher becomes the explicit `Revalidate` step. */
module FormValidation {
  import opened Wrappers
  import opened FormRules

  /** The state of one field. */
  datatype FieldState = FieldState(isValid: bool, errors: seq<string>, touched: bool) {

    /** The per-field invariant: valid exactly when no error is recorded. */
    predicate Consistent() {
      isValid <==> errors == []
    }
  }

  /** The state every field starts in and returns to on reset. */
  const Pristine := FieldState(true, [], false)

  /** Per-field states, keyed by field name. */
  type States = map<string, FieldState>

  /** The value a validator sees: `None` when the form data has no such key. */
  function Lookup<V>(data: map<string, V>, name: string): Option<V> {
    if name in data then Some(data[name]) else None
  }

  /** The error list `validateField` computes for `name` against `data`. */
  function FieldErrors<V>(rules: map<string, seq<Rule<V>>>, data: map<string, V>, name: string): seq<string>
    requires name in rules
  {
    Errors(name, rules[name], Lookup(data, name))
  }

  /** The instance invariant: exactly the declared fields have a state, and
      every state is consistent. */
  ghost predicate Wf<V>(rules: map<string, seq<Rule<V>>>, s: States) {
    && s.Keys == rules.Keys
    && forall f :: f in s ==> s[f].Consistent()
  }

  /** The states right after construction: one pristine state per declared field. */
  function Init<V>(rules: map<string, seq<Rule<V>>>): (s: States)
    ensures s.Keys == rules.Keys
    ensures forall f :: f in s ==> s[f] == Pristine
    ensures Wf(rules, s)
    ensures IsValid(s) && !HasErrors(s)
    ensures rules != map[] ==> !IsTouched(s)
  {
    var s := map f | f in rules :: Pristine;
    assert rules != map[] ==> exists f :: f in s && !s[f].touched;
    s
  }

  /** Derived: every field is valid (vacuously true with no fields, as
      `every` is on an empty list); when every state is consistent it is
      exactly the absence of errors. */
  predicate IsValid(s: States)
    ensures s == map[] ==> IsValid(s)
    ensures (forall f :: f in s ==> s[f].Consistent()) ==> (IsValid(s) <==> !HasErrors(s))
  {
    forall f :: f in s ==> s[f].isValid
  }

  /** Derived: some field has at least one error; never for a form without
      fields (`some` on an empty list). */
  predicate HasErrors(s: States)
    ensures HasErrors(s) ==> s != map[]
    ensures forall f :: f in s && s[f].errors != [] ==> HasErrors(s)
  {
    exists f :: f in s && |s[f].errors| > 0
  }

  /** Derived: every field has been touched; a form without fields reads as
      touched (`every` on an empty list). */
  predicate IsTouched(s: States)
    ensures s == map[] ==> IsTouched(s)
    ensures forall f :: f in s && !s[f].touched ==> !IsTouched(s)
  {
    forall f :: f in s ==> s[f].touched
  }

  /** Runs every rule of `name` against its current value and records the
      messages; returns whether the field is now valid. */
  function ValidateField<V>(rules: map<string, seq<Rule<V>>>, s: States, data: map<string, V>, name: string)
    : (r: (States, bool))
    requires name in rules && name in s
    ensures r.0.Keys == s.Keys
    ensures r.0[name].errors == FieldErrors(rules, data, name)
    ensures r.0[name].isValid == (r.0[name].errors == []) == r.1
    ensures r.0[name].touched == s[name].touched
    ensures forall f :: f in s && f != name ==> r.0[f] == s[f]
    ensures rules[name] == [] ==> r.1 && r.0[name].errors == []
  {
    var st := s[name];
    if |rules[name]| == 0 then
      (s[name := st.(isValid := true, errors := [])], true)
    else
      var errs := Errors(name, rules[name], Lookup(data, name));
      var valid := |errs| == 0;
      (s[name := st.(isValid := valid, errors := errs)], valid)
  }

  /** Validates every declared field; the result is true exactly when each
      field's own validation succeeded, that is, when no declared field
      records an error. */
  method ValidateForm<V>(rules: map<string, seq<Rule<V>>>, s: States, data: map<string, V>)
    returns (s': States, valid: bool)
    requires rules.Keys <= s.Keys
    ensures s'.Keys == s.Keys
    ensures forall f :: f in rules ==>
      && s'[f].errors == FieldErrors(rules, data, f)
      && s'[f].isValid == (s'[f].errors == [])
      && s'[f].touched == s[f].touched
    ensures forall f :: f in s && f !in rules ==> s'[f] == s[f]
    ensures valid <==> forall f :: f in rules ==> FieldErrors(rules, data, f) == []
    ensures Wf(rules, s) ==> Wf(rules, s')
  {
    s', valid := s, true;
    var todo := rules.Keys;
    while todo != {}
      invariant todo <= rules.Keys
      invariant s'.Keys == s.Keys
      invariant forall f :: f in rules && f !in todo ==>
        && s'[f].errors == FieldErrors(rules, data, f)
        && s'[f].isValid == (s'[f].errors == [])
        && s'[f].touched == s[f].touched
      invariant forall f :: f in s && (f in todo || f !in rules) ==> s'[f] == s[f]
      invariant valid <==> forall f :: f in rules && f !in todo ==> FieldErrors(rules, data, f) == []
      invariant Wf(rules, s) ==> Wf(rules, s')
      decreases todo
    {
      var f :| f in todo;
      var r := ValidateField(rules, s', data, f);
      assert r.1 <==> FieldErrors(rules, data, f) == [];
      s' := r.0;
      valid := valid && r.1;
      todo := todo - {f};
    }
  }

  /** Marks a declared field touched and re-validates it; an undeclared name
      changes nothing. */
  function TouchField<V>(rules: map<string, seq<Rule<V>>>, s: States, data: map<string, V>, name: string)
    : (r: States)
    requires name in s ==> name in rules
    ensures name !in s ==> r == s
    ensures r.Keys == s.Keys
    ensures name in s ==> r[name].touched && r[name].errors == FieldErrors(rules, data, name)
    ensures name in s ==> r[name].Consistent()
    ensures forall f :: f in s && f != name ==> r[f] == s[f]
  {
    if name in s then ValidateField(rules, s[name := s[name].(touched := true)], data, name).0
    else s
  }

  /** Restores a declared field to the pristine state; an undeclared name
      changes nothing. */
  function ResetField(s: States, name: string): (r: States)
    ensures r.Keys == s.Keys
    ensures name in s ==> r[name] == Pristine
    ensures forall f :: f in s && f != name ==> r[f] == s[f]
  {
    if name in s then s[name := Pristine] else s
  }

  /** Restores every declared field to the pristine state. */
  function ResetForm<V>(rules: map<string, seq<Rule<V>>>, s: States): (r: States)
    ensures r.Keys == s.Keys
    ensures forall f :: f in s && f in rules ==> r[f] == Pristine
    ensures forall f :: f in s && f !in rules ==> r[f] == s[f]
  {
    map f | f in s :: if f in rules then Pristine else s[f]
  }

  /** After `resetForm` the derived flags read valid, error-free and (with at
      least one field declared) untouched, whatever the prior state. */
  lemma ResetFormClears<V>(rules: map<string, seq<Rule<V>>>, s: States)
    requires s.Keys == rules.Keys
    ensures var r := ResetForm(rules, s);
      Wf(rules, r) && IsValid(r) && !HasErrors(r) && (rules != map[] ==> !IsTouched(r))
  {
  }

  /** The re-validation the deep watcher runs when the form data changes:
      only fields that currently show an error are validated again; all
      other fields keep their state exactly. */
  function Revalidate<V>(rules: map<string, seq<Rule<V>>>, s: States, data: map<string, V>): (r: States)
    ensures r.Keys == s.Keys
    ensures forall f :: f in s && (f !in rules || s[f].errors == []) ==> r[f] == s[f]
    ensures forall f :: f in s && f in rules && s[f].errors != [] ==>
      && r[f].errors == FieldErrors(rules, data, f)
      && r[f].Consistent()
      && r[f].touched == s[f].touched
  {
    map f | f in s :: if f in rules && s[f].errors != [] then ValidateField(rules, s, data, f).0[f] else s[f]
  }

  /** A second re-validation against the same data changes nothing more. */
  lemma RevalidateIdempotent<V>(rules: map<string, seq<Rule<V>>>, s: States, data: map<string, V>)
    ensures Revalidate(rules, Revalidate(rules, s, data), data) == Revalidate(rules, s, data)
  {
    var r := Revalidate(rules, s, data);
    var r2 := Revalidate(rules, r, data);
    forall f | f in r
      ensures r2[f] == r[f]
    {
      if f in rules && r[f].errors != [] {
        assert r[f].errors == FieldErrors(rules, data, f);
      }
    }
  }

  /** A form whose fields are all valid is left exactly as it is by the
      watcher: no field is live-validated before it has failed once. */
  lemma RevalidateValidFormUnchanged<V>(rules: map<string, seq<Rule<V>>>, s: States, data: map<string, V>)
    requires Wf(rules, s) && IsValid(s)
    ensures Revalidate(rules, s, data) == s
  {
  }

  /** Every operation keeps the instance invariant. */
  lemma OperationsPreserveWf<V>(rules: map<string, seq<Rule<V>>>, s: States, data: map<string, V>, name: string)
    requires Wf(rules, s)
    ensures name in rules ==> Wf(rules, ValidateField(rules, s, data, name).0)
    ensures Wf(rules, TouchField(rules, s, data, name))
    ensures Wf(rules, ResetField(s, name))
    ensures Wf(rules, ResetForm(rules, s))
    ensures Wf(rules, Revalidate(rules, s, data))
  {
  }

  /** Validators for the examples below. */
  function NonEmpty(v: Option<string>): RuleResult {
    if v.Some? && v.value != "" then Pass else Fail
  }

  function Rejects(v: Option<int>): RuleResult { Fail }

  function Accepts(v: Option<int>): RuleResult { Pass }

  function SaysNothing(v: Option<int>): RuleResult { Msg("") }

  /** A required-field rule on an empty value: validation fails with the
      rule's own message. */
  lemma RequiredFieldExample()
    ensures var r := ValidateField(map["name" := [Rule(NonEmpty, Some("required"))]], map["name" := Pristine],
                                   map["name" := ""], "name");
      !r.1 && r.0["name"].errors == ["required"]
  {
  }

  /** A failing rule followed by a passing one records only the first rule's
      message; a rule returning the empty string still invalidates the field. */
  lemma OrderAndEmptyMessageExample()
    ensures var rules := [Rule(Rejects, Some("first")), Rule(Accepts, None)];
      ValidateField(map["f" := rules], map["f" := Pristine], map[], "f").0["f"].errors == ["first"]
    ensures ValidateField(map["f" := [Rule(SaysNothing, None)]], map["f" := Pristine], map[], "f")
      == (map["f" := FieldState(false, [""], false)], false)
  {
    var rules := [Rule(Rejects, Some("first")), Rule(Accepts, None)];
    assert rules[..1] == [Rule(Rejects, Some("first"))];
    assert rules[..1][..0] == [];
    assert Errors("f", rules[..1], None) == ["first"];
    assert Errors("f", rules, None) == ["first"];
    var silent := [Rule(SaysNothing, None)];
    assert silent[..0] == [];
    assert Errors("f", silent, None) == [""];
    var r := ValidateField(map["f" := silent], map["f" := Pristine], map[], "f");
    assert r.0.Keys == {"f"} && r.0["f"] == FieldState(false, [""], false);
    assert r.0 == map["f" := FieldState(false, [""], false)];
  }
}
