/** Evaluation of one field's ordered rule list: the loop at the heart of
    `validateField` in useFormValidation.ts. */
module FormRules {
  import opened Wrappers

  /** What a validator returned: `true`, `false`, or a string used as a custom message. */
  datatype RuleResult = Pass | Fail | Msg(text: string)

  /** A validation rule: an opaque, total validator over the field's current
      value (`None` when the form data has no such key) and an optional message. */
  datatype Rule<!V> = Rule(validator: Option<V> -> RuleResult, message: Option<string>)

  /** The message used for a failing rule that has no (or an empty) message of its own. */
  function DefaultMessage(name: string): string {
    "Поле \"" + name + "\" не прошло валидацию"
  }

  /** True when the rule does not pass, that is, when it contributes a message. */
  predicate Objects<V>(rule: Rule<V>, value: Option<V>) {
    rule.validator(value) != Pass
  }

  /** The message one rule contributes for `value`, if any. A `false` result
      falls back to the default message when the rule's own message is absent
      or empty (JavaScript's `rule.message || default`); a string result is
      used as is, even when it is empty. */
  function Contribution<V>(name: string, rule: Rule<V>, value: Option<V>): Option<string> {
    match rule.validator(value)
    case Pass => None
    case Fail =>
      if rule.message.Some? && rule.message.value != "" then rule.message
      else Some(DefaultMessage(name))
    case Msg(s) => Some(s)
  }

  /** The error list `validateField` accumulates: every rule is run, in order,
      and each non-passing rule appends its message. */
  function Errors<V>(name: string, rules: seq<Rule<V>>, value: Option<V>): (errs: seq<string>)
    ensures |errs| <= |rules|
    ensures errs == [] <==> forall i :: 0 <= i < |rules| ==> !Objects(rules[i], value)
  {
    if |rules| == 0 then []
    else
      var init := rules[..|rules| - 1];
      assert forall i :: 0 <= i < |init| ==> init[i] == rules[i];
      var prefix := Errors(name, init, value);
      match Contribution(name, rules[|rules| - 1], value)
      case None => prefix
      case Some(m) => prefix + [m]
  }

  /** `idx` lists, in increasing order, exactly the positions of the rules
      that object to `value`. */
  ghost predicate ListsObjections<V>(rules: seq<Rule<V>>, value: Option<V>, idx: seq<nat>) {
    && (forall k :: 0 <= k < |idx| ==> idx[k] < |rules| && Objects(rules[idx[k]], value))
    && (forall k, l :: 0 <= k < l < |idx| ==> idx[k] < idx[l])
    && (forall i :: 0 <= i < |rules| && Objects(rules[i], value) ==> i in idx)
  }

  /** `errs[k]` is the message of the `k`-th objecting rule: a declarative
      description of the error list, independent of the loop that builds it. */
  ghost predicate Enumerates<V>(name: string, rules: seq<Rule<V>>, value: Option<V>,
                                idx: seq<nat>, errs: seq<string>)
  {
    && ListsObjections(rules, value, idx)
    && |idx| == |errs|
    && (forall k :: 0 <= k < |idx| ==> Contribution(name, rules[idx[k]], value) == Some(errs[k]))
  }

  /** The positions of the objecting rules, in increasing order. */
  function ObjectingPositions<V>(rules: seq<Rule<V>>, value: Option<V>): (idx: seq<nat>)
    ensures ListsObjections(rules, value, idx)
  {
    if |rules| == 0 then []
    else
      var init := rules[..|rules| - 1];
      var prefix := ObjectingPositions(init, value);
      assert forall i :: 0 <= i < |init| ==> init[i] == rules[i];
      if Objects(rules[|rules| - 1], value) then prefix + [|rules| - 1] else prefix
  }

  /** The error list holds one message per objecting rule, in declaration
      order: no rule is skipped and nothing short-circuits. */
  lemma {:induction false} ErrorsEnumerateObjections<V>(name: string, rules: seq<Rule<V>>, value: Option<V>)
    ensures Enumerates(name, rules, value, ObjectingPositions(rules, value), Errors(name, rules, value))
  {
    if |rules| > 0 {
      var n := |rules| - 1;
      var init := rules[..n];
      ErrorsEnumerateObjections(name, init, value);
      var idx, errs := ObjectingPositions(init, value), Errors(name, init, value);
      forall k | 0 <= k < |idx|
        ensures Contribution(name, rules[idx[k]], value) == Some(errs[k])
      {
        assert rules[idx[k]] == init[idx[k]];
      }
      if Objects(rules[n], value) {
        var m := Contribution(name, rules[n], value).value;
        assert ObjectingPositions(rules, value) == idx + [n];
        assert Errors(name, rules, value) == errs + [m];
        assert (idx + [n])[|idx|] == n && (errs + [m])[|errs|] == m;
        assert Enumerates(name, rules, value, idx + [n], errs + [m]);
      } else {
        assert ObjectingPositions(rules, value) == idx;
        assert Errors(name, rules, value) == errs;
        assert Enumerates(name, rules, value, idx, errs);
      }
    }
  }

  /** Dropping an objecting last rule drops the last position. */
  lemma DropObjectingLast<V>(rules: seq<Rule<V>>, value: Option<V>, idx: seq<nat>)
    requires ListsObjections(rules, value, idx)
    requires |rules| > 0 && Objects(rules[|rules| - 1], value)
    ensures |idx| > 0 && idx[|idx| - 1] == |rules| - 1
    ensures ListsObjections(rules[..|rules| - 1], value, idx[..|idx| - 1])
  {
  }

  /** Dropping a passing last rule leaves the positions as they are. */
  lemma DropPassingLast<V>(rules: seq<Rule<V>>, value: Option<V>, idx: seq<nat>)
    requires ListsObjections(rules, value, idx)
    requires |rules| > 0 && !Objects(rules[|rules| - 1], value)
    ensures ListsObjections(rules[..|rules| - 1], value, idx)
  {
  }

  /** There is only one increasing list of the objecting positions. */
  lemma {:induction false} ObjectionListUnique<V>(rules: seq<Rule<V>>, value: Option<V>, idx: seq<nat>)
    requires ListsObjections(rules, value, idx)
    ensures idx == ObjectingPositions(rules, value)
  {
    if |rules| == 0 {
      assert |idx| == 0;
    } else if Objects(rules[|rules| - 1], value) {
      DropObjectingLast(rules, value, idx);
      ObjectionListUnique(rules[..|rules| - 1], value, idx[..|idx| - 1]);
      assert idx == idx[..|idx| - 1] + [|rules| - 1];
    } else {
      DropPassingLast(rules, value, idx);
      ObjectionListUnique(rules[..|rules| - 1], value, idx);
    }
  }

  /** Conversely, any list that enumerates the objections is the error list:
      the declarative description pins `Errors` down completely. */
  lemma EnumerationDeterminesErrors<V>(name: string, rules: seq<Rule<V>>, value: Option<V>,
                                       idx: seq<nat>, errs: seq<string>)
    requires Enumerates(name, rules, value, idx, errs)
    ensures errs == Errors(name, rules, value)
  {
    ObjectionListUnique(rules, value, idx);
    ErrorsEnumerateObjections(name, rules, value);
    var errs' := Errors(name, rules, value);
    assert forall k :: 0 <= k < |errs| ==> Some(errs[k]) == Some(errs'[k]);
  }
}
