/** The equality checks on `Equatable` properties
    (SwiftFluent/Validator/RuleBuilder/ValidationRuleBuilder+Equatable.swift). A conformance
    to `Equatable` is its `==`, passed as `equals` (for `String` that is canonical equivalence,
    for a type with a hand-written `==` whatever it compares); `!=` is always `!(==)`.
    `String(describing:)` of the operand is `describe`. */
module EquatableRules {
  import opened Wrappers
  import opened KeyPaths
  import opened ValidationRules
  import opened ErrorMessages
  import opened Validators
  import opened RuleBuilders

  /** `buildEqual`: passes iff the property equals `value`. */
  function EqualRule<M(!new), V>(keyPath: KeyPath<M, V>, equals: (V, V) -> bool, describe: V -> string, value: V,
                                     errorMessage: Option<string>)
    : (rule: Rule<M>)
    ensures rule.key == keyPath.PropertyName()
    ensures rule.msg == errorMessage.GetOr(ErrorDescription(EqualError(keyPath.PropertyName(), describe(value))))
    ensures forall model :: rule.pred(model) <==> equals(keyPath.get(model), value)
  {
    PropertyCheck(keyPath, (propertyValue: V) => equals(propertyValue, value),
      errorMessage.GetOr(ErrorDescription(EqualError(keyPath.PropertyName(), describe(value)))))
  }

  /** `buildNotEqual`: passes iff the property differs from `value`. */
  function NotEqualRule<M(!new), V>(keyPath: KeyPath<M, V>, equals: (V, V) -> bool, describe: V -> string, value: V,
                                        errorMessage: Option<string>)
    : (rule: Rule<M>)
    ensures rule.key == keyPath.PropertyName()
    ensures rule.msg == errorMessage.GetOr(ErrorDescription(NotEqualError(keyPath.PropertyName(), describe(value))))
    ensures forall model :: rule.pred(model) <==> !equals(keyPath.get(model), value)
  {
    PropertyCheck(keyPath, (propertyValue: V) => !equals(propertyValue, value),
      errorMessage.GetOr(ErrorDescription(NotEqualError(keyPath.PropertyName(), describe(value)))))
  }

  /** `equal(_:errorMessage:)`. */
  method Equal<M(!new), V>(b: Builder<M, V>, equals: (V, V) -> bool, describe: V -> string, value: V, errorMessage: Option<string>)
    returns (b': Builder<M, V>)
    modifies b.validator
    ensures b' == b
    ensures b.validator.rules == old(b.validator.rules) + [EqualRule(b.keyPath, equals, describe, value, errorMessage)]
    ensures b.validator.errors == old(b.validator.errors) && b.validator.errorsMap == old(b.validator.errorsMap)
  {
    b' := Register(b, EqualRule(b.keyPath, equals, describe, value, errorMessage));
  }

  /** `notEqual(_:errorMessage:)`. */
  method NotEqual<M(!new), V>(b: Builder<M, V>, equals: (V, V) -> bool, describe: V -> string, value: V, errorMessage: Option<string>)
    returns (b': Builder<M, V>)
    modifies b.validator
    ensures b' == b
    ensures b.validator.rules == old(b.validator.rules) + [NotEqualRule(b.keyPath, equals, describe, value, errorMessage)]
    ensures b.validator.errors == old(b.validator.errors) && b.validator.errorsMap == old(b.validator.errorsMap)
  {
    b' := Register(b, NotEqualRule(b.keyPath, equals, describe, value, errorMessage));
  }

  /** For the same operand, exactly one of `equal` and `notEqual` fails. */
  lemma EqualComplementsNotEqual<M(!new), V>(keyPath: KeyPath<M, V>, equals: (V, V) -> bool, describe: V -> string,
                                             value: V, m1: Option<string>, m2: Option<string>, model: M)
    ensures EqualRule(keyPath, equals, describe, value, m1).pred(model)
         != NotEqualRule(keyPath, equals, describe, value, m2).pred(model)
  {
  }
}
