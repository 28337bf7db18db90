/** Whole-model checks on a `Validator<String>` (SwiftFluent/Validator/Validator+String.swift).
    Each rule is keyed by the validator's type name, which also names the property in the
    default messages. */
module StringValidators {
  import opened Wrappers
  import opened KeyPaths
  import opened ValidationRules
  import opened ErrorMessages
  import opened Validators
  import StringExtensions
  import CreditCard
  import StringRules
  import CollectionRules

  // ---- The rules ----

  /** The rule `email(customRegex:errorMessage:)` registers. */
  function EmailModelRule(typeName: string, matches: (string, string) -> bool, customRegex: Option<string>,
                          errorMessage: Option<string>)
    : (rule: Rule<string>)
    ensures rule.key == typeName
    ensures rule.msg == errorMessage.GetOr(ErrorDescription(EmailError(typeName)))
    ensures forall s :: rule.pred(s) <==> StringExtensions.IsValidEmail(matches, s, customRegex)
  {
    Rule((s: string) => StringExtensions.IsValidEmail(matches, s, customRegex), typeName,
      errorMessage.GetOr(ErrorDescription(EmailError(typeName))))
  }

  /** The rule `creditCard(errorMessage:)` registers. */
  function CreditCardModelRule(typeName: string, errorMessage: Option<string>): (rule: Rule<string>)
    ensures rule.key == typeName
    ensures rule.msg == errorMessage.GetOr(ErrorDescription(CreditCardError(typeName)))
    ensures forall s :: rule.pred(s) <==> CreditCard.IsValid(s)
  {
    Rule((s: string) => CreditCard.IsValid(s), typeName, errorMessage.GetOr(ErrorDescription(CreditCardError(typeName))))
  }

  /** The rule `number(errorMessage:)` registers. */
  function NumberModelRule(typeName: string, isNumber: string -> bool, errorMessage: Option<string>): (rule: Rule<string>)
    ensures rule.key == typeName
    ensures rule.msg == errorMessage.GetOr(ErrorDescription(NumberError(typeName)))
    ensures forall s :: rule.pred(s) <==> isNumber(s)
  {
    Rule(isNumber, typeName, errorMessage.GetOr(ErrorDescription(NumberError(typeName))))
  }

  /** The rule `notEmpty(errorMessage:)` registers: the whitespace-aware `isNotEmpty`. */
  function NotEmptyModelRule(typeName: string, errorMessage: Option<string>): (rule: Rule<string>)
    ensures rule.key == typeName
    ensures rule.msg == errorMessage.GetOr(ErrorDescription(NotEmptyError(typeName)))
    ensures forall s :: rule.pred(s) <==> exists i :: 0 <= i < |s| && !StringExtensions.IsWhitespace(s[i])
  {
    var rule := Rule((s: string) => StringExtensions.IsNotEmpty(s), typeName,
      errorMessage.GetOr(ErrorDescription(NotEmptyError(typeName))));
    assert forall s :: rule.pred(s) <==> exists i :: 0 <= i < |s| && !StringExtensions.IsWhitespace(s[i]) by {
      forall s {
        StringExtensions.IsNotEmptyIff(s);
      }
    }
    rule
  }

  /** The rule `length(_:_:errorMessage:)` registers: passes iff `min <= count < max`, the upper
      bound excluded. */
  function LengthModelRule(typeName: string, min: int, max: int, errorMessage: Option<string>): (rule: Rule<string>)
    ensures rule.key == typeName
    ensures rule.msg == errorMessage.GetOr(ErrorDescription(LengthError(typeName, min, max)))
    ensures forall s :: rule.pred(s) <==> min <= |s| < max
  {
    Rule((s: string) => |s| >= min && |s| < max, typeName,
      errorMessage.GetOr(ErrorDescription(LengthError(typeName, min, max))))
  }

  /** The rule `minLength(_:errorMessage:)` registers. */
  function MinLengthModelRule(typeName: string, length: int, errorMessage: Option<string>): (rule: Rule<string>)
    ensures rule.key == typeName
    ensures rule.msg == errorMessage.GetOr(ErrorDescription(MinLengthError(typeName, length)))
    ensures forall s :: rule.pred(s) <==> |s| >= length
  {
    Rule((s: string) => |s| >= length, typeName, errorMessage.GetOr(ErrorDescription(MinLengthError(typeName, length))))
  }

  /** The rule `maxLength(_:errorMessage:)` registers. */
  function MaxLengthModelRule(typeName: string, length: int, errorMessage: Option<string>): (rule: Rule<string>)
    ensures rule.key == typeName
    ensures rule.msg == errorMessage.GetOr(ErrorDescription(MaxLengthError(typeName, length)))
    ensures forall s :: rule.pred(s) <==> |s| <= length
  {
    Rule((s: string) => |s| <= length, typeName, errorMessage.GetOr(ErrorDescription(MaxLengthError(typeName, length))))
  }

  // ---- The checks: each appends one rule and returns the validator ----

  method Email(v: Validator<string>, matches: (string, string) -> bool, customRegex: Option<string>,
               errorMessage: Option<string>)
    returns (self: Validator<string>)
    modifies v
    ensures self == v
    ensures v.rules == old(v.rules) + [EmailModelRule(v.typeName, matches, customRegex, errorMessage)]
    ensures v.errors == old(v.errors) && v.errorsMap == old(v.errorsMap)
  {
    v.AddRule(EmailModelRule(v.typeName, matches, customRegex, errorMessage));
    self := v;
  }

  method CreditCardNumber(v: Validator<string>, errorMessage: Option<string>) returns (self: Validator<string>)
    modifies v
    ensures self == v
    ensures v.rules == old(v.rules) + [CreditCardModelRule(v.typeName, errorMessage)]
    ensures v.errors == old(v.errors) && v.errorsMap == old(v.errorsMap)
  {
    v.AddRule(CreditCardModelRule(v.typeName, errorMessage));
    self := v;
  }

  method Number(v: Validator<string>, isNumber: string -> bool, errorMessage: Option<string>)
    returns (self: Validator<string>)
    modifies v
    ensures self == v
    ensures v.rules == old(v.rules) + [NumberModelRule(v.typeName, isNumber, errorMessage)]
    ensures v.errors == old(v.errors) && v.errorsMap == old(v.errorsMap)
  {
    v.AddRule(NumberModelRule(v.typeName, isNumber, errorMessage));
    self := v;
  }

  method NotEmpty(v: Validator<string>, errorMessage: Option<string>) returns (self: Validator<string>)
    modifies v
    ensures self == v
    ensures v.rules == old(v.rules) + [NotEmptyModelRule(v.typeName, errorMessage)]
    ensures v.errors == old(v.errors) && v.errorsMap == old(v.errorsMap)
  {
    v.AddRule(NotEmptyModelRule(v.typeName, errorMessage));
    self := v;
  }

  method Length(v: Validator<string>, min: int, max: int, errorMessage: Option<string>) returns (self: Validator<string>)
    modifies v
    ensures self == v
    ensures v.rules == old(v.rules) + [LengthModelRule(v.typeName, min, max, errorMessage)]
    ensures v.errors == old(v.errors) && v.errorsMap == old(v.errorsMap)
  {
    v.AddRule(LengthModelRule(v.typeName, min, max, errorMessage));
    self := v;
  }

  method MinLength(v: Validator<string>, length: int, errorMessage: Option<string>) returns (self: Validator<string>)
    modifies v
    ensures self == v
    ensures v.rules == old(v.rules) + [MinLengthModelRule(v.typeName, length, errorMessage)]
    ensures v.errors == old(v.errors) && v.errorsMap == old(v.errorsMap)
  {
    v.AddRule(MinLengthModelRule(v.typeName, length, errorMessage));
    self := v;
  }

  method MaxLength(v: Validator<string>, length: int, errorMessage: Option<string>) returns (self: Validator<string>)
    modifies v
    ensures self == v
    ensures v.rules == old(v.rules) + [MaxLengthModelRule(v.typeName, length, errorMessage)]
    ensures v.errors == old(v.errors) && v.errorsMap == old(v.errorsMap)
  {
    v.AddRule(MaxLengthModelRule(v.typeName, length, errorMessage));
    self := v;
  }

  // ---- The two divergences from the property checks ----

  /** The whole-string `length` excludes its upper bound where the property `length` includes
      it: on the same string they disagree exactly when the count equals `max` (and `min <= max`). */
  lemma LengthUpperBoundDiffers<M(!new)>(keyPath: KeyPath<M, string>, model: M, typeName: string, min: int, max: int,
                                         m1: Option<string>, m2: Option<string>)
    ensures var s := keyPath.get(model);
            StringRules.LengthRule(keyPath, min, max, m1).pred(model) != LengthModelRule(typeName, min, max, m2).pred(s)
            <==> |s| == max && min <= max
  {
  }

  /** The whole-string `notEmpty` rejects strings of whitespace that the collection `notEmpty`
      accepts: on the same string they disagree exactly when it is non-empty and all whitespace. */
  lemma NotEmptyDiffers<M(!new)>(keyPath: KeyPath<M, string>, model: M, typeName: string,
                                 m1: Option<string>, m2: Option<string>)
    ensures var s := keyPath.get(model);
            CollectionRules.NotEmptyRule(keyPath, m1).pred(model) != NotEmptyModelRule(typeName, m2).pred(s)
            <==> |s| > 0 && forall i :: 0 <= i < |s| ==> StringExtensions.IsWhitespace(s[i])
  {
  }

  /** `notEmpty` fails on "" and on "    ". */
  lemma NotEmptyRejectsBlank(typeName: string, errorMessage: Option<string>)
    ensures !NotEmptyModelRule(typeName, errorMessage).pred("")
    ensures !NotEmptyModelRule(typeName, errorMessage).pred("    ")
  {
    assert forall i :: 0 <= i < |"    "| ==> StringExtensions.IsWhitespace("    "[i]);
  }
}
