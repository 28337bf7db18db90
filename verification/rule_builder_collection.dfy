/** The emptiness check on `Collection` properties
    (SwiftFluent/Validator/RuleBuilder/ValidationRuleBuilder+Collection.swift). A collection is
    a sequence; a `String` property is a sequence of characters. */
module CollectionRules {
  import opened Wrappers
  import opened KeyPaths
  import opened ValidationRules
  import opened ErrorMessages
  import opened Validators
  import opened RuleBuilders

  /** `buildNotEmpty`: passes iff the collection has an element; only `isEmpty` is consulted. */
  function NotEmptyRule<M(!new), T>(keyPath: KeyPath<M, seq<T>>, errorMessage: Option<string>): (rule: Rule<M>)
    ensures rule.key == keyPath.PropertyName()
    ensures rule.msg == errorMessage.GetOr(ErrorDescription(NotEmptyError(keyPath.PropertyName())))
    ensures forall model :: rule.pred(model) <==> |keyPath.get(model)| > 0
  {
    PropertyCheck(keyPath, (value: seq<T>) => |value| != 0,
      errorMessage.GetOr(ErrorDescription(NotEmptyError(keyPath.PropertyName()))))
  }

  /** `notEmpty(_:)`. */
  method NotEmpty<M(!new), T>(b: Builder<M, seq<T>>, errorMessage: Option<string>) returns (b': Builder<M, seq<T>>)
    modifies b.validator
    ensures b' == b
    ensures b.validator.rules == old(b.validator.rules) + [NotEmptyRule(b.keyPath, errorMessage)]
    ensures b.validator.errors == old(b.validator.errors) && b.validator.errorsMap == old(b.validator.errorsMap)
  {
    b' := Register(b, NotEmptyRule(b.keyPath, errorMessage));
  }

  /** A string of spaces passes this check: whitespace is not looked at. */
  lemma WhitespaceStringPasses<M(!new)>(keyPath: KeyPath<M, string>, errorMessage: Option<string>, model: M)
    requires keyPath.get(model) == "    "
    ensures NotEmptyRule(keyPath, errorMessage).pred(model)
  {
  }
}
