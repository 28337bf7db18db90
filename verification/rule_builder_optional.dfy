/** The presence check on optional properties
    (SwiftFluent/Validator/RuleBuilder/ValidationRuleBuilder+OptionalType.swift). */
module OptionalRules {
  import opened Wrappers
  import opened KeyPaths
  import opened ValidationRules
  import opened ErrorMessages
  import opened Validators
  import opened RuleBuilders
  import OptionalValidators

  /** `buildNotNil`: passes iff the property value is present. */
  function NotNilRule<M(!new), T>(keyPath: KeyPath<M, Option<T>>, errorMessage: Option<string>): (rule: Rule<M>)
    ensures rule.key == keyPath.PropertyName()
    ensures rule.msg == errorMessage.GetOr(ErrorDescription(NotNilError(keyPath.PropertyName())))
    ensures forall model :: rule.pred(model) <==> keyPath.get(model).Some?
  {
    PropertyCheck(keyPath, (value: Option<T>) => OptionalValidators.IsNotNil(value),
      errorMessage.GetOr(ErrorDescription(NotNilError(keyPath.PropertyName()))))
  }

  /** `notNil(errorMessage:)`. */
  method NotNil<M(!new), T>(b: Builder<M, Option<T>>, errorMessage: Option<string>) returns (b': Builder<M, Option<T>>)
    modifies b.validator
    ensures b' == b
    ensures b.validator.rules == old(b.validator.rules) + [NotNilRule(b.keyPath, errorMessage)]
    ensures b.validator.errors == old(b.validator.errors) && b.validator.errorsMap == old(b.validator.errorsMap)
  {
    b' := Register(b, NotNilRule(b.keyPath, errorMessage));
  }
}
