/** The rule registry and its evaluation (SwiftFluent/Validator/Validator.swift). */
module Validators {
  import opened Wrappers
  import opened KeyPaths
  import opened ValidationRules
  import opened ValidationResults

  /** Reported for a failing rule whose message is empty. */
  const DefaultErrorMessage: string := "Invalid result"

  /** Message of a `validate(_:errorMessage:)` rule registered without one. */
  const ValidationFailed: string := "Validation failed."

  // ---- The pure pipeline of `validate` ----

  /** The `(propertyKey, message)` pair a failing rule contributes. */
  function Report<M>(rule: Rule<M>): (pair: (string, string))
    ensures pair.1 != ""
    ensures rule.msg != "" ==> pair == (rule.key, rule.msg)
    ensures rule.msg == "" ==> pair == ("", DefaultErrorMessage)
  {
    if rule.msg != "" then (rule.key, rule.msg) else ("", DefaultErrorMessage)
  }

  /** `invalidErrors`: the reports of the rules that fail on `model`, in registration order. */
  function Failures<M>(rules: seq<Rule<M>>, model: M): (failures: seq<(string, string)>)
    ensures |failures| <= |rules|
    ensures failures == [] <==> forall i :: 0 <= i < |rules| ==> rules[i].pred(model)
    ensures forall i :: 0 <= i < |failures| ==> failures[i].1 != ""
  {
    if rules == [] then []
    else
      var last := rules[|rules| - 1];
      Failures(rules[..|rules| - 1], model) + (if last.pred(model) then [] else [Report(last)])
  }

  /** `map { $0.1 }`. */
  function Messages(pairs: seq<(string, string)>): (messages: seq<string>)
    ensures |messages| == |pairs|
    ensures forall i :: 0 <= i < |pairs| ==> messages[i] == pairs[i].1
  {
    seq(|pairs|, i requires 0 <= i < |pairs| => pairs[i].1)
  }

  /** The result `validate` returns for a list of failures. */
  function Outcome(failures: seq<(string, string)>): (result: ValidationResult)
    ensures result.IsValid() <==> failures == []
    ensures result.Invalid? ==> result.errors == Messages(failures)
  {
    if failures == [] then Valid else Invalid(Messages(failures))
  }

  /** The map's list for `key`, empty when the key is absent. */
  function Lookup(m: map<string, seq<string>>, key: string): seq<string> {
    if key in m then m[key] else []
  }

  /** One pass of the loop body: append `pair.1` to the list under `pair.0`. */
  function Step(m: map<string, seq<string>>, pair: (string, string)): (m': map<string, seq<string>>)
    ensures m'.Keys == m.Keys + {pair.0}
    ensures m'[pair.0] == Lookup(m, pair.0) + [pair.1]
    ensures forall k :: k in m && k != pair.0 ==> m'[k] == m[k]
  {
    if pair.0 in m then m[pair.0 := m[pair.0] + [pair.1]] else m[pair.0 := [pair.1]]
  }

  /** The whole loop over `pairs`, starting from `m`. */
  function Accumulate(m: map<string, seq<string>>, pairs: seq<(string, string)>): map<string, seq<string>> {
    if pairs == [] then m else Step(Accumulate(m, pairs[..|pairs| - 1]), pairs[|pairs| - 1])
  }

  /** The messages of `pairs` filed under `key`, in order. */
  function MessagesFor(pairs: seq<(string, string)>, key: string): (messages: seq<string>)
    ensures |messages| <= |pairs|
  {
    if pairs == [] then []
    else
      var last := pairs[|pairs| - 1];
      MessagesFor(pairs[..|pairs| - 1], key) + (if last.0 == key then [last.1] else [])
  }

  /** The rules whose reports are filed under `key`. */
  function RulesFor<M>(rules: seq<Rule<M>>, key: string): (selected: seq<Rule<M>>)
    ensures |selected| <= |rules|
    ensures forall i :: 0 <= i < |selected| ==> Report(selected[i]).0 == key
  {
    if rules == [] then []
    else
      var last := rules[|rules| - 1];
      RulesFor(rules[..|rules| - 1], key) + (if Report(last).0 == key then [last] else [])
  }

  predicate NonEmptyLists(m: map<string, seq<string>>) {
    forall k :: k in m ==> m[k] != []
  }

  // ---- Properties of the pipeline ----

  lemma AppendAssoc<T>(x: seq<T>, y: seq<T>, z: seq<T>)
    ensures (x + y) + z == x + (y + z)
  {
  }

  /** Evaluating one more rule adds its report, if it fails, at the end. */
  lemma FailuresSnoc<M>(rules: seq<Rule<M>>, rule: Rule<M>, model: M)
    ensures Failures(rules + [rule], model) == Failures(rules, model) + (if rule.pred(model) then [] else [Report(rule)])
  {
    assert (rules + [rule])[..|rules|] == rules;
  }

  /** Evaluating two batches of rules reports the first batch's failures, then the second's. */
  lemma {:induction false} FailuresConcat<M>(a: seq<Rule<M>>, b: seq<Rule<M>>, model: M)
    ensures Failures(a + b, model) == Failures(a, model) + Failures(b, model)
    decreases |b|
  {
    if b == [] {
      assert a + b == a;
    } else {
      var init, last := b[..|b| - 1], b[|b| - 1];
      assert b == init + [last];
      assert a + b == (a + init) + [last];
      FailuresConcat(a, init, model);
      FailuresSnoc(a + init, last, model);
      FailuresSnoc(init, last, model);
      var added := if last.pred(model) then [] else [Report(last)];
      AppendAssoc(Failures(a, model), Failures(init, model), added);
    }
  }

  /** A single rule fails exactly when its predicate is false, and then reports itself. */
  lemma FailuresOfOne<M>(rule: Rule<M>, model: M)
    ensures Failures([rule], model) == if rule.pred(model) then [] else [Report(rule)]
  {
    assert [rule][..0] == [];
  }

  /** A failing rule with an empty message is reported under key "" as "Invalid result". */
  lemma EmptyMessageReportsDefault<M>(rule: Rule<M>, model: M)
    requires !rule.pred(model) && rule.msg == ""
    ensures Failures([rule], model) == [("", DefaultErrorMessage)]
  {
    FailuresOfOne(rule, model);
  }

  /** `validate` returns `.valid` iff every registered predicate holds. */
  lemma ValidIffAllPass<M>(rules: seq<Rule<M>>, model: M)
    ensures Outcome(Failures(rules, model)).IsValid() <==> forall i :: 0 <= i < |rules| ==> rules[i].pred(model)
  {
  }

  /** A validator with no rules accepts any model. */
  lemma NoRulesAcceptsAll<M>(model: M)
    ensures Outcome(Failures([], model)) == Valid
  {
  }

  lemma {:induction false} MessagesForConcat(a: seq<(string, string)>, b: seq<(string, string)>, key: string)
    ensures MessagesFor(a + b, key) == MessagesFor(a, key) + MessagesFor(b, key)
    decreases |b|
  {
    if b == [] {
      assert a + b == a;
    } else {
      var ab := a + b;
      assert ab[..|ab| - 1] == a + b[..|b| - 1];
      assert ab[|ab| - 1] == b[|b| - 1];
      MessagesForConcat(a, b[..|b| - 1], key);
    }
  }

  /** The loop's effect on one key: its old list followed by that key's messages, in order; a key
      with no message keeps its old entry, or stays absent. */
  lemma {:induction false} AccumulateLookup(m: map<string, seq<string>>, pairs: seq<(string, string)>, key: string)
    ensures key in Accumulate(m, pairs) <==> key in m || MessagesFor(pairs, key) != []
    ensures Lookup(Accumulate(m, pairs), key) == Lookup(m, key) + MessagesFor(pairs, key)
    decreases |pairs|
  {
    if pairs != [] {
      AccumulateLookup(m, pairs[..|pairs| - 1], key);
    }
  }

  /** The map only grows: no key is removed and every old list is a prefix of the new one. */
  lemma AccumulateGrows(m: map<string, seq<string>>, pairs: seq<(string, string)>, key: string)
    requires key in m
    ensures key in Accumulate(m, pairs)
    ensures m[key] <= Accumulate(m, pairs)[key]
  {
    AccumulateLookup(m, pairs, key);
  }

  /** No list in the map is ever empty once the loop has written it. */
  lemma {:induction false} AccumulateKeepsListsNonEmpty(m: map<string, seq<string>>, pairs: seq<(string, string)>)
    requires NonEmptyLists(m)
    ensures NonEmptyLists(Accumulate(m, pairs))
    decreases |pairs|
  {
    if pairs != [] {
      AccumulateKeepsListsNonEmpty(m, pairs[..|pairs| - 1]);
    }
  }

  /** Validating the same failing model twice files each message twice. */
  lemma RevalidateDuplicates(m: map<string, seq<string>>, pairs: seq<(string, string)>, key: string)
    ensures Lookup(Accumulate(Accumulate(m, pairs), pairs), key)
         == Lookup(m, key) + MessagesFor(pairs, key) + MessagesFor(pairs, key)
  {
    AccumulateLookup(m, pairs, key);
    AccumulateLookup(Accumulate(m, pairs), pairs, key);
  }

  lemma MessagesConcat(a: seq<(string, string)>, b: seq<(string, string)>)
    ensures Messages(a + b) == Messages(a) + Messages(b)
  {
  }

  /** The one-rule case of `InterleavedRulesIgnored`. */
  lemma OneRuleFor<M>(rule: Rule<M>, model: M, key: string)
    ensures MessagesFor(Failures([rule], model), key)
         == Messages(Failures(if Report(rule).0 == key then [rule] else [], model))
  {
    FailuresOfOne(rule, model);
    var own := Failures([rule], model);
    if own != [] {
      assert own[..0] == [];
    }
  }

  /** The messages filed under a key are those of the rules reporting under that key, in
      registration order, whatever rules for other keys are interleaved with them. */
  lemma {:induction false} InterleavedRulesIgnored<M>(rules: seq<Rule<M>>, model: M, key: string)
    ensures MessagesFor(Failures(rules, model), key) == Messages(Failures(RulesFor(rules, key), model))
    decreases |rules|
  {
    if rules != [] {
      var init, last := rules[..|rules| - 1], rules[|rules| - 1];
      var selected := if Report(last).0 == key then [last] else [];
      assert Failures(rules, model) == Failures(init, model) + Failures([last], model) by {
        FailuresOfOne(last, model);
      }
      assert RulesFor(rules, key) == RulesFor(init, key) + selected;
      calc {
        MessagesFor(Failures(rules, model), key);
        { MessagesForConcat(Failures(init, model), Failures([last], model), key); }
        MessagesFor(Failures(init, model), key) + MessagesFor(Failures([last], model), key);
        { InterleavedRulesIgnored(init, model, key); OneRuleFor(last, model, key); }
        Messages(Failures(RulesFor(init, key), model)) + Messages(Failures(selected, model));
        { MessagesConcat(Failures(RulesFor(init, key), model), Failures(selected, model)); }
        Messages(Failures(RulesFor(init, key), model) + Failures(selected, model));
        { FailuresConcat(RulesFor(init, key), selected, model); }
        Messages(Failures(RulesFor(rules, key), model));
      }
    }
  }

  /** The messages the rules carry, in registration order. */
  function RuleMessages<M>(rules: seq<Rule<M>>): (messages: seq<string>)
    ensures |messages| == |rules|
    ensures forall i :: 0 <= i < |rules| ==> messages[i] == rules[i].msg
  {
    if rules == [] then [] else RuleMessages(rules[..|rules| - 1]) + [rules[|rules| - 1].msg]
  }

  /** The rule fails on `model`, reporting under `key` with a message of its own. */
  predicate FailsUnder<M>(rule: Rule<M>, model: M, key: string) {
    !rule.pred(model) && rule.key == key && rule.msg != ""
  }

  /** Every rule fails on `model`, reporting under `key` with a message of its own. */
  predicate AllFailUnder<M>(rules: seq<Rule<M>>, model: M, key: string) {
    forall i :: 0 <= i < |rules| ==> FailsUnder(rules[i], model, key)
  }

  /** Appending one more failing rule for the same key keeps the batch failing, and adds its
      message at the end. */
  lemma FailingStep<M>(before: seq<Rule<M>>, rule: Rule<M>, model: M, key: string)
    requires AllFailUnder(before, model, key)
    requires FailsUnder(rule, model, key)
    ensures AllFailUnder(before + [rule], model, key)
    ensures RuleMessages(before + [rule]) == RuleMessages(before) + [rule.msg]
  {
    assert (before + [rule])[..|before|] == before;
  }

  lemma AllFailUnderConcat<M>(a: seq<Rule<M>>, b: seq<Rule<M>>, model: M, key: string)
    requires AllFailUnder(a, model, key) && AllFailUnder(b, model, key)
    ensures AllFailUnder(a + b, model, key)
  {
    forall i | 0 <= i < |a + b|
      ensures FailsUnder((a + b)[i], model, key)
    {
      if i >= |a| {
        assert (a + b)[i] == b[i - |a|];
      }
    }
  }

  lemma {:induction false} RuleMessagesConcat<M>(a: seq<Rule<M>>, b: seq<Rule<M>>)
    ensures RuleMessages(a + b) == RuleMessages(a) + RuleMessages(b)
    decreases |b|
  {
    if b == [] {
      assert a + b == a;
    } else {
      var ab := a + b;
      assert ab[..|ab| - 1] == a + b[..|b| - 1];
      assert ab[|ab| - 1] == b[|b| - 1];
      RuleMessagesConcat(a, b[..|b| - 1]);
    }
  }

  /** Filing one more message under `key`. */
  lemma ReportStep(before: seq<(string, string)>, key: string, msg: string, other: string)
    ensures Messages(before + [(key, msg)]) == Messages(before) + [msg]
    ensures MessagesFor(before + [(key, msg)], key) == MessagesFor(before, key) + [msg]
    ensures other != key ==> MessagesFor(before + [(key, msg)], other) == MessagesFor(before, other)
  {
    assert (before + [(key, msg)])[..|before|] == before;
  }

  lemma AllFailUnderInit<M>(rules: seq<Rule<M>>, model: M, key: string)
    requires rules != [] && AllFailUnder(rules, model, key)
    ensures AllFailUnder(rules[..|rules| - 1], model, key)
    ensures FailsUnder(rules[|rules| - 1], model, key)
  {
    var init := rules[..|rules| - 1];
    forall i | 0 <= i < |init| ensures FailsUnder(init[i], model, key) {
      assert init[i] == rules[i];
    }
  }

  /** A batch of rules for one key that all fail with non-empty messages files exactly its own
      messages under that key, in order, and nothing under any other key. */
  lemma {:induction false} FailingBatch<M>(rules: seq<Rule<M>>, model: M, key: string, other: string)
    requires AllFailUnder(rules, model, key)
    ensures Messages(Failures(rules, model)) == RuleMessages(rules)
    ensures MessagesFor(Failures(rules, model), key) == RuleMessages(rules)
    ensures other != key ==> MessagesFor(Failures(rules, model), other) == []
    decreases |rules|
  {
    if rules != [] {
      var init, last := rules[..|rules| - 1], rules[|rules| - 1];
      AllFailUnderInit(rules, model, key);
      FailingBatch(init, model, key, other);
      assert Failures(rules, model) == Failures(init, model) + [(key, last.msg)];
      ReportStep(Failures(init, model), key, last.msg, other);
    }
  }

  // ---- The validator object ----

  class Validator<M> {
    /** `String(describing: Model.self)`, the key of whole-model rules. */
    const typeName: string
    /** `validationRules`: append-only. */
    var rules: seq<Rule<M>>
    /** `validationErrors`: the messages of the latest `validate`. */
    var errors: seq<string>
    /** `validationErrorsMap`: messages per property key, accumulated over every `validate`. */
    var errorsMap: map<string, seq<string>>

    constructor(typeName: string)
      ensures this.typeName == typeName
      ensures rules == [] && errors == [] && errorsMap == map[]
    {
      this.typeName := typeName;
      rules := [];
      errors := [];
      errorsMap := map[];
    }

    /** `addRule`: append at the end, leaving every earlier rule and both error fields alone. */
    method AddRule(rule: Rule<M>)
      modifies this
      ensures rules == old(rules) + [rule]
      ensures errors == old(errors) && errorsMap == old(errorsMap)
    {
      rules := rules + [rule];
    }

    /** `validate(_ model:)`: `validationErrors` is overwritten with the failures' messages, the
        loop appends them to `validationErrorsMap`, and the rules are left unchanged. */
    method Validate(model: M) returns (result: ValidationResult)
      modifies this
      ensures rules == old(rules)
      ensures errors == Messages(Failures(rules, model))
      ensures errorsMap == Accumulate(old(errorsMap), Failures(rules, model))
      ensures result == Outcome(Failures(rules, model))
    {
      var invalidErrors := Failures(rules, model);
      errors := Messages(invalidErrors);
      var i := 0;
      while i < |invalidErrors|
        invariant 0 <= i <= |invalidErrors|
        invariant rules == old(rules) && errors == Messages(invalidErrors)
        invariant errorsMap == Accumulate(old(errorsMap), invalidErrors[..i])
      {
        var (propertyKey, errorMessage) := invalidErrors[i];
        assert invalidErrors[..i + 1][..i] == invalidErrors[..i];
        if propertyKey in errorsMap {
          var existing := errorsMap[propertyKey];
          existing := existing + [errorMessage];
          errorsMap := errorsMap[propertyKey := existing];
        } else {
          errorsMap := errorsMap[propertyKey := [errorMessage]];
        }
        i := i + 1;
      }
      assert invalidErrors[..i] == invalidErrors;
      result := if invalidErrors == [] then Valid else Invalid(Messages(invalidErrors));
    }

    /** `errorFor(keyPath:)`: the list filed under the property's name, or nil. */
    function ErrorFor<V>(keyPath: KeyPath<M, V>): (found: Option<seq<string>>)
      reads this
      ensures found.Some? <==> keyPath.PropertyName() in errorsMap
      ensures found.Some? ==> found.value == errorsMap[keyPath.PropertyName()]
    {
      var name := keyPath.PropertyName();
      if name in errorsMap then Some(errorsMap[name]) else None
    }

    /** `errorFor(keyPath:assign:)`: the first message filed under the property's name, or "" when
        there is none; returns the validator itself for chaining. */
    method ErrorForAssign<V>(keyPath: KeyPath<M, V>) returns (assign: string, self: Validator<M>)
      ensures self == this
      ensures ErrorFor(keyPath).None? ==> assign == ""
      ensures ErrorFor(keyPath).Some? ==>
                assign == (if ErrorFor(keyPath).value == [] then "" else ErrorFor(keyPath).value[0])
    {
      var name := keyPath.PropertyName();
      if name !in errorsMap {
        assign := "";
        return assign, this;
      }
      var found := errorsMap[name];
      assign := if |found| > 0 then found[0] else "";
      self := this;
    }

    /** `validate(_ condition:errorMessage:)`: one whole-model rule keyed by the type name. */
    method ValidateCondition(condition: M -> bool, errorMessage: Option<string>) returns (self: Validator<M>)
      modifies this
      ensures self == this
      ensures rules == old(rules) + [ConditionRule(typeName, condition, errorMessage)]
      ensures errors == old(errors) && errorsMap == old(errorsMap)
    {
      AddRule(ConditionRule(typeName, condition, errorMessage));
      self := this;
    }
  }

  /** The rule `validate(_ condition:errorMessage:)` registers. */
  function ConditionRule<M>(typeName: string, condition: M -> bool, errorMessage: Option<string>): (rule: Rule<M>)
    ensures rule.key == typeName
    ensures rule.msg == errorMessage.GetOr(ValidationFailed)
    ensures rule.pred == condition
  {
    Rule(condition, typeName, errorMessage.GetOr(ValidationFailed))
  }
}
