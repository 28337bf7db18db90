/** Whole-model equality checks on a `Validator` whose model is `Equatable`
    (SwiftFluent/Validator/Validator+Equatable.swift). The rules are keyed by the type name.
    The model type's `==` is `equals` and its `!=` is `!(==)`; `String(describing:)` of the
    operand is `describe`. */
module EquatableValidators {
  import opened Wrappers
  import opened ValidationRules
  import opened ErrorMessages
  import opened Validators

  /** The rule `notEqual(_:errorMessage:)` registers: passes iff the model differs from `value`. */
  function NotEqualModelRule<M(!new)>(typeName: string, equals: (M, M) -> bool, describe: M -> string, value: M, errorMessage: Option<string>)
    : (rule: Rule<M>)
    ensures rule.key == typeName
    ensures rule.msg == errorMessage.GetOr(ErrorDescription(NotEqualError(typeName, describe(value))))
    ensures forall model :: rule.pred(model) <==> !equals(model, value)
  {
    Rule((model: M) => !equals(model, value), typeName, errorMessage.GetOr(ErrorDescription(NotEqualError(typeName, describe(value)))))
  }

  /** The rule `equal(_:errorMessage:)` registers: passes iff the model equals `value`. */
  function EqualModelRule<M(!new)>(typeName: string, equals: (M, M) -> bool, describe: M -> string, value: M, errorMessage: Option<string>)
    : (rule: Rule<M>)
    ensures rule.key == typeName
    ensures rule.msg == errorMessage.GetOr(ErrorDescription(EqualError(typeName, describe(value))))
    ensures forall model :: rule.pred(model) <==> equals(model, value)
  {
    Rule((model: M) => equals(model, value), typeName, errorMessage.GetOr(ErrorDescription(EqualError(typeName, describe(value)))))
  }

  /** `notEqual(_:errorMessage:)`. */
  method NotEqual<M(!new)>(v: Validator<M>, equals: (M, M) -> bool, describe: M -> string, value: M, errorMessage: Option<string>)
    returns (self: Validator<M>)
    modifies v
    ensures self == v
    ensures v.rules == old(v.rules) + [NotEqualModelRule(v.typeName, equals, describe, value, errorMessage)]
    ensures v.errors == old(v.errors) && v.errorsMap == old(v.errorsMap)
  {
    v.AddRule(NotEqualModelRule(v.typeName, equals, describe, value, errorMessage));
    self := v;
  }

  /** `equal(_:errorMessage:)`. */
  method Equal<M(!new)>(v: Validator<M>, equals: (M, M) -> bool, describe: M -> string, value: M, errorMessage: Option<string>)
    returns (self: Validator<M>)
    modifies v
    ensures self == v
    ensures v.rules == old(v.rules) + [EqualModelRule(v.typeName, equals, describe, value, errorMessage)]
    ensures v.errors == old(v.errors) && v.errorsMap == old(v.errorsMap)
  {
    v.AddRule(EqualModelRule(v.typeName, equals, describe, value, errorMessage));
    self := v;
  }

  /** `Optional`'s `==` for a wrapped `Equatable` type: two nils are equal, nil differs from
      every present value, and present values compare by the wrapped type's `==`. */
  predicate OptionalEquals<T>(equals: (T, T) -> bool, a: Option<T>, b: Option<T>) {
    match (a, b)
    case (None, None) => true
    case (Some(x), Some(y)) => equals(x, y)
    case _ => false
  }

  /** On an optional model, `equal(nil)` passes for a nil model and fails for a present one,
      whatever the wrapped type's `==`. */
  lemma EqualNilExample<T(!new)>(typeName: string, equals: (T, T) -> bool, describe: Option<T> -> string,
                                 errorMessage: Option<string>, x: T)
    ensures EqualModelRule(typeName, (a, b) => OptionalEquals(equals, a, b), describe, None, errorMessage).pred(None)
    ensures !EqualModelRule(typeName, (a, b) => OptionalEquals(equals, a, b), describe, None, errorMessage).pred(Some(x))
  {
  }

  /** For the same operand, exactly one of `equal` and `notEqual` fails. */
  lemma EqualComplementsNotEqual<M(!new)>(typeName: string, equals: (M, M) -> bool, describe: M -> string, value: M,
                                          model: M, m1: Option<string>, m2: Option<string>)
    ensures EqualModelRule(typeName, equals, describe, value, m1).pred(model)
         != NotEqualModelRule(typeName, equals, describe, value, m2).pred(model)
  {
  }
}
