/** Whole-model checks on a `Validator<Optional>` and the `OptionalType` protocol
    (SwiftFluent/Validator/Validator+OptionalType.swift). Swift's `Optional` is `Option`. */
module OptionalValidators {
  import opened Wrappers
  import opened ValidationRules
  import opened ErrorMessages
  import opened Validators

  /** `isNotNil`: `self != nil`. */
  predicate IsNotNil<T>(o: Option<T>) {
    o != None
  }

  /** `value`: the optional itself. */
  function Value<T>(o: Option<T>): Option<T> {
    o
  }

  /** `isNotNil` is presence, and agrees with `value` being non-nil. */
  lemma IsNotNilIffSome<T>(o: Option<T>)
    ensures IsNotNil(o) <==> o.Some?
    ensures IsNotNil(o) <==> Value(o) != None
    ensures !IsNotNil<T>(None)
  {
  }

  /** The rule `notNil(errorMessage:)` registers: keyed by the type name, passing iff the model
      is present. */
  function NotNilModelRule<T(!new)>(typeName: string, errorMessage: Option<string>): (rule: Rule<Option<T>>)
    ensures rule.key == typeName
    ensures rule.msg == errorMessage.GetOr(ErrorDescription(NotNilError(typeName)))
    ensures forall model: Option<T> :: rule.pred(model) <==> model.Some?
  {
    Rule((model: Option<T>) => IsNotNil(model), typeName, errorMessage.GetOr(ErrorDescription(NotNilError(typeName))))
  }

  /** `notNil(errorMessage:)`. */
  method NotNil<T(!new)>(v: Validator<Option<T>>, errorMessage: Option<string>) returns (self: Validator<Option<T>>)
    modifies v
    ensures self == v
    ensures v.rules == old(v.rules) + [NotNilModelRule(v.typeName, errorMessage)]
    ensures v.errors == old(v.errors) && v.errorsMap == old(v.errorsMap)
  {
    v.AddRule(NotNilModelRule(v.typeName, errorMessage));
    self := v;
  }
}
