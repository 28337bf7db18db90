/** The checks on `String` properties
    (SwiftFluent/Validator/RuleBuilder/ValidationRuleBuilder+String.swift). The length of a
    string is its number of characters. The email, number and URL checks delegate to predicates
    outside the library (a regular-expression engine, a locale-aware number parser and
    `URL(string:)`), which are parameters here. */
module StringRules {
  import opened Wrappers
  import opened KeyPaths
  import opened ValidationRules
  import opened ErrorMessages
  import opened Validators
  import opened RuleBuilders
  import StringExtensions
  import CreditCard

  // ---- The rules each check registers ----

  /** `buildLength`: passes iff `min <= count <= max`, both ends included. */
  function LengthRule<M(!new)>(keyPath: KeyPath<M, string>, min: int, max: int, errorMessage: Option<string>)
    : (rule: Rule<M>)
    ensures rule.key == keyPath.PropertyName()
    ensures rule.msg == errorMessage.GetOr(ErrorDescription(LengthError(keyPath.PropertyName(), min, max)))
    ensures forall model :: rule.pred(model) <==> min <= |keyPath.get(model)| <= max
  {
    PropertyCheck(keyPath, (value: string) => |value| >= min && |value| <= max,
      errorMessage.GetOr(ErrorDescription(LengthError(keyPath.PropertyName(), min, max))))
  }

  /** `buildMaxLength`: passes iff `count <= max`. */
  function MaxLengthRule<M(!new)>(keyPath: KeyPath<M, string>, max: int, errorMessage: Option<string>)
    : (rule: Rule<M>)
    ensures rule.key == keyPath.PropertyName()
    ensures rule.msg == errorMessage.GetOr(ErrorDescription(MaxLengthError(keyPath.PropertyName(), max)))
    ensures forall model :: rule.pred(model) <==> |keyPath.get(model)| <= max
  {
    PropertyCheck(keyPath, (value: string) => |value| <= max,
      errorMessage.GetOr(ErrorDescription(MaxLengthError(keyPath.PropertyName(), max))))
  }

  /** `buildMinLength`: passes iff `count >= min`. */
  function MinLengthRule<M(!new)>(keyPath: KeyPath<M, string>, min: int, errorMessage: Option<string>)
    : (rule: Rule<M>)
    ensures rule.key == keyPath.PropertyName()
    ensures rule.msg == errorMessage.GetOr(ErrorDescription(MinLengthError(keyPath.PropertyName(), min)))
    ensures forall model :: rule.pred(model) <==> |keyPath.get(model)| >= min
  {
    PropertyCheck(keyPath, (value: string) => |value| >= min,
      errorMessage.GetOr(ErrorDescription(MinLengthError(keyPath.PropertyName(), min))))
  }

  /** `buildEmail`: passes iff the value matches the custom pattern, or the default one. */
  function EmailRule<M(!new)>(keyPath: KeyPath<M, string>, matches: (string, string) -> bool,
                              customRegex: Option<string>, errorMessage: Option<string>)
    : (rule: Rule<M>)
    ensures rule.key == keyPath.PropertyName()
    ensures rule.msg == errorMessage.GetOr(ErrorDescription(EmailError(keyPath.PropertyName())))
    ensures forall model :: rule.pred(model) <==> StringExtensions.IsValidEmail(matches, keyPath.get(model), customRegex)
  {
    PropertyCheck(keyPath, (value: string) => StringExtensions.IsValidEmail(matches, value, customRegex),
      errorMessage.GetOr(ErrorDescription(EmailError(keyPath.PropertyName()))))
  }

  /** `buildCreditCard`: passes iff `CreditCardValidator.isValid` does. */
  function CreditCardRule<M(!new)>(keyPath: KeyPath<M, string>, errorMessage: Option<string>): (rule: Rule<M>)
    ensures rule.key == keyPath.PropertyName()
    ensures rule.msg == errorMessage.GetOr(ErrorDescription(CreditCardError(keyPath.PropertyName())))
    ensures forall model :: rule.pred(model) <==> CreditCard.IsValid(keyPath.get(model))
  {
    PropertyCheck(keyPath, (value: string) => CreditCard.IsValid(value),
      errorMessage.GetOr(ErrorDescription(CreditCardError(keyPath.PropertyName()))))
  }

  /** `buildNumber`: passes iff the number parser accepts the value. */
  function NumberRule<M(!new)>(keyPath: KeyPath<M, string>, isNumber: string -> bool, errorMessage: Option<string>)
    : (rule: Rule<M>)
    ensures rule.key == keyPath.PropertyName()
    ensures rule.msg == errorMessage.GetOr(ErrorDescription(NumberError(keyPath.PropertyName())))
    ensures forall model :: rule.pred(model) <==> isNumber(keyPath.get(model))
  {
    PropertyCheck(keyPath, isNumber, errorMessage.GetOr(ErrorDescription(NumberError(keyPath.PropertyName()))))
  }

  /** `buildURL` on a `String` property: passes iff `URL(string:)` yields a URL. */
  function UrlRule<M(!new)>(keyPath: KeyPath<M, string>, parsesAsUrl: string -> bool, errorMessage: Option<string>)
    : (rule: Rule<M>)
    ensures rule.key == keyPath.PropertyName()
    ensures rule.msg == errorMessage.GetOr(ErrorDescription(UrlError(keyPath.PropertyName())))
    ensures forall model :: rule.pred(model) <==> parsesAsUrl(keyPath.get(model))
  {
    PropertyCheck(keyPath, parsesAsUrl, errorMessage.GetOr(ErrorDescription(UrlError(keyPath.PropertyName()))))
  }

  /** `buildURL` on a `String?` property: a nil value fails; a present one passes iff
      `URL(string:)` yields a URL. */
  function OptionalUrlRule<M(!new)>(keyPath: KeyPath<M, Option<string>>, parsesAsUrl: string -> bool,
                                    errorMessage: Option<string>)
    : (rule: Rule<M>)
    ensures rule.key == keyPath.PropertyName()
    ensures rule.msg == errorMessage.GetOr(ErrorDescription(UrlError(keyPath.PropertyName())))
    ensures forall model :: keyPath.get(model).None? ==> !rule.pred(model)
    ensures forall model :: keyPath.get(model).Some? ==> (rule.pred(model) <==> parsesAsUrl(keyPath.get(model).value))
  {
    PropertyCheck(keyPath,
      (value: Option<string>) => match value case None => false case Some(urlString) => parsesAsUrl(urlString),
      errorMessage.GetOr(ErrorDescription(UrlError(keyPath.PropertyName()))))
  }

  // ---- The checks ----

  /** `range(_:errorMessage:)`: the same rule as `length` over the bounds of the closed range
      (a `ClosedRange` cannot have its lower bound above its upper bound). */
  method Range<M(!new)>(b: Builder<M, string>, lower: int, upper: int, errorMessage: Option<string>)
    returns (b': Builder<M, string>)
    requires lower <= upper
    modifies b.validator
    ensures b' == b
    ensures b.validator.rules == old(b.validator.rules) + [LengthRule(b.keyPath, lower, upper, errorMessage)]
    ensures b.validator.errors == old(b.validator.errors) && b.validator.errorsMap == old(b.validator.errorsMap)
  {
    b' := Register(b, LengthRule(b.keyPath, lower, upper, errorMessage));
  }

  /** `length(_:_:errorMessage:)`. */
  method Length<M(!new)>(b: Builder<M, string>, min: int, max: int, errorMessage: Option<string>)
    returns (b': Builder<M, string>)
    modifies b.validator
    ensures b' == b
    ensures b.validator.rules == old(b.validator.rules) + [LengthRule(b.keyPath, min, max, errorMessage)]
    ensures b.validator.errors == old(b.validator.errors) && b.validator.errorsMap == old(b.validator.errorsMap)
  {
    b' := Register(b, LengthRule(b.keyPath, min, max, errorMessage));
  }

  /** `maxLength(_:errorMessage:)`. */
  method MaxLength<M(!new)>(b: Builder<M, string>, max: int, errorMessage: Option<string>)
    returns (b': Builder<M, string>)
    modifies b.validator
    ensures b' == b
    ensures b.validator.rules == old(b.validator.rules) + [MaxLengthRule(b.keyPath, max, errorMessage)]
    ensures b.validator.errors == old(b.validator.errors) && b.validator.errorsMap == old(b.validator.errorsMap)
  {
    b' := Register(b, MaxLengthRule(b.keyPath, max, errorMessage));
  }

  /** `minLength(_:errorMessage:)`. */
  method MinLength<M(!new)>(b: Builder<M, string>, min: int, errorMessage: Option<string>)
    returns (b': Builder<M, string>)
    modifies b.validator
    ensures b' == b
    ensures b.validator.rules == old(b.validator.rules) + [MinLengthRule(b.keyPath, min, errorMessage)]
    ensures b.validator.errors == old(b.validator.errors) && b.validator.errorsMap == old(b.validator.errorsMap)
  {
    b' := Register(b, MinLengthRule(b.keyPath, min, errorMessage));
  }

  /** `email(_:errorMessage:)`. */
  method Email<M(!new)>(b: Builder<M, string>, matches: (string, string) -> bool, customRegex: Option<string>,
                        errorMessage: Option<string>)
    returns (b': Builder<M, string>)
    modifies b.validator
    ensures b' == b
    ensures b.validator.rules == old(b.validator.rules) + [EmailRule(b.keyPath, matches, customRegex, errorMessage)]
    ensures b.validator.errors == old(b.validator.errors) && b.validator.errorsMap == old(b.validator.errorsMap)
  {
    b' := Register(b, EmailRule(b.keyPath, matches, customRegex, errorMessage));
  }

  /** `creditCard(_:)`. */
  method CreditCardNumber<M(!new)>(b: Builder<M, string>, errorMessage: Option<string>)
    returns (b': Builder<M, string>)
    modifies b.validator
    ensures b' == b
    ensures b.validator.rules == old(b.validator.rules) + [CreditCardRule(b.keyPath, errorMessage)]
    ensures b.validator.errors == old(b.validator.errors) && b.validator.errorsMap == old(b.validator.errorsMap)
  {
    b' := Register(b, CreditCardRule(b.keyPath, errorMessage));
  }

  /** `number(errorMessage:)`. */
  method Number<M(!new)>(b: Builder<M, string>, isNumber: string -> bool, errorMessage: Option<string>)
    returns (b': Builder<M, string>)
    modifies b.validator
    ensures b' == b
    ensures b.validator.rules == old(b.validator.rules) + [NumberRule(b.keyPath, isNumber, errorMessage)]
    ensures b.validator.errors == old(b.validator.errors) && b.validator.errorsMap == old(b.validator.errorsMap)
  {
    b' := Register(b, NumberRule(b.keyPath, isNumber, errorMessage));
  }

  /** `url(errorMessage:)` on a `String` property. */
  method Url<M(!new)>(b: Builder<M, string>, parsesAsUrl: string -> bool, errorMessage: Option<string>)
    returns (b': Builder<M, string>)
    modifies b.validator
    ensures b' == b
    ensures b.validator.rules == old(b.validator.rules) + [UrlRule(b.keyPath, parsesAsUrl, errorMessage)]
    ensures b.validator.errors == old(b.validator.errors) && b.validator.errorsMap == old(b.validator.errorsMap)
  {
    b' := Register(b, UrlRule(b.keyPath, parsesAsUrl, errorMessage));
  }

  /** `url(errorMessage:)` on a `String?` property. */
  method OptionalUrl<M(!new)>(b: Builder<M, Option<string>>, parsesAsUrl: string -> bool, errorMessage: Option<string>)
    returns (b': Builder<M, Option<string>>)
    modifies b.validator
    ensures b' == b
    ensures b.validator.rules == old(b.validator.rules) + [OptionalUrlRule(b.keyPath, parsesAsUrl, errorMessage)]
    ensures b.validator.errors == old(b.validator.errors) && b.validator.errorsMap == old(b.validator.errorsMap)
  {
    b' := Register(b, OptionalUrlRule(b.keyPath, parsesAsUrl, errorMessage));
  }

  // ---- Properties ----

  /** `length(min, max)` passes exactly when both `minLength(min)` and `maxLength(max)` pass. */
  lemma LengthIsMinAndMax<M(!new)>(keyPath: KeyPath<M, string>, min: int, max: int, model: M,
                                   m1: Option<string>, m2: Option<string>, m3: Option<string>)
    ensures LengthRule(keyPath, min, max, m1).pred(model)
        <==> MinLengthRule(keyPath, min, m2).pred(model) && MaxLengthRule(keyPath, max, m3).pred(model)
  {
  }

  /** Bounds in the wrong order make `length` reject every value. */
  lemma InvertedLengthRejectsAll<M(!new)>(keyPath: KeyPath<M, string>, min: int, max: int, model: M,
                                          errorMessage: Option<string>)
    requires max < min
    ensures !LengthRule(keyPath, min, max, errorMessage).pred(model)
  {
  }
}
