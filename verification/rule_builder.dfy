/** The per-property rule builder (SwiftFluent/Validator/RuleBuilder/ValidationRuleBuilder.swift)
    and `Validator.ruleFor`, which creates it here. (The source's `ruleFor` returns a separate
    `RuleForBuilder` type; the model has it open a `ValidationRuleBuilder` instead.) Every check of the builder comes in two Swift
    overloads that register the same rule and return either the builder or its validator; here
    each check is one method returning the builder, and `Build` gives the validator. */
module RuleBuilders {
  import opened Wrappers
  import opened KeyPaths
  import opened ValidationRules
  import opened ErrorMessages
  import opened Validators

  /** `ValidationRuleBuilder<Model, Value>`: the property's key path and the validator that
      receives the rules. Both are constants, so a chain of calls keeps targeting the same
      property of the same validator. */
  datatype Builder<!M, !V> = Builder(keyPath: KeyPath<M, V>, validator: Validator<M>) {

    /** `build()`: the owning validator. */
    function Build(): Validator<M> {
      validator
    }
  }

  /** `ruleFor(_:)`: a builder for `keyPath` over this validator; no rule is registered. It yields
      the `ValidationRuleBuilder` model, not the source's `RuleForBuilder`. */
  function RuleFor<M, V>(validator: Validator<M>, keyPath: KeyPath<M, V>): Builder<M, V> {
    Builder(keyPath, validator)
  }

  /** `build()` on a builder from `ruleFor` hands back the validator it was created on, and the
      builder targets the property it was given, so either chaining style reaches the same
      validator. */
  lemma BuildReturnsOwner<M, V>(validator: Validator<M>, keyPath: KeyPath<M, V>)
    ensures RuleFor(validator, keyPath).Build() == validator
    ensures RuleFor(validator, keyPath).keyPath == keyPath
  {
  }

  /** A rule on one property: `test` applied to the property's value, reported under the
      property's name. */
  function PropertyCheck<M(!new), V>(keyPath: KeyPath<M, V>, test: V -> bool, message: string): (rule: Rule<M>)
    ensures rule.key == keyPath.PropertyName() && rule.msg == message
    ensures forall model :: rule.pred(model) == test(keyPath.get(model))
  {
    Rule(model => test(keyPath.get(model)), keyPath.PropertyName(), message)
  }

  /** The rule `validate(_:condition:)` registers: `condition` on the property value, with the
      given message or "Invalid property". */
  function ConditionOnProperty<M(!new), V>(keyPath: KeyPath<M, V>, condition: V -> bool, errorMessage: Option<string>)
    : (rule: Rule<M>)
    ensures rule.key == keyPath.PropertyName()
    ensures rule.msg == errorMessage.GetOr(ErrorDescription(DefaultError))
    ensures forall model :: rule.pred(model) == condition(keyPath.get(model))
  {
    PropertyCheck(keyPath, condition, errorMessage.GetOr(ErrorDescription(DefaultError)))
  }

  /** Registering a rule through a builder: exactly one rule is appended to the validator, the
      errors are untouched, and the same builder is returned. */
  method Register<M, V>(b: Builder<M, V>, rule: Rule<M>) returns (b': Builder<M, V>)
    modifies b.validator
    ensures b' == b
    ensures b.validator.rules == old(b.validator.rules) + [rule]
    ensures b.validator.errors == old(b.validator.errors)
    ensures b.validator.errorsMap == old(b.validator.errorsMap)
  {
    b.validator.AddRule(rule);
    b' := b;
  }

  /** `validate(_:condition:)`. */
  method Validate<M(!new), V>(b: Builder<M, V>, errorMessage: Option<string>, condition: V -> bool)
    returns (b': Builder<M, V>)
    modifies b.validator
    ensures b' == b
    ensures b.validator.rules == old(b.validator.rules) + [ConditionOnProperty(b.keyPath, condition, errorMessage)]
    ensures b.validator.errors == old(b.validator.errors)
    ensures b.validator.errorsMap == old(b.validator.errorsMap)
  {
    b' := Register(b, ConditionOnProperty(b.keyPath, condition, errorMessage));
  }
}
