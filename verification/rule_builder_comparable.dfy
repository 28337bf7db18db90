/** The ordering checks on `Comparable` properties
    (SwiftFluent/Validator/RuleBuilder/ValidationRuleBuilder+Comparable.swift). A conformance
    to `Comparable` is its `<`, passed as `less`; `<=`, `>` and `>=` are derived from it as
    `Comparable`'s default implementations derive them, so a type with operators of its own
    (`Double` and NaN) is outside this model. `String(describing:)` of the bound is
    `describe`. */
module ComparableRules {
  import opened Wrappers
  import opened KeyPaths
  import opened ValidationRules
  import opened ErrorMessages
  import opened Validators
  import opened RuleBuilders

  /** `a <= b` is `!(b < a)`. */
  predicate AtMost<V>(less: (V, V) -> bool, a: V, b: V) {
    !less(b, a)
  }

  /** `a > b` is `b < a`. */
  predicate Above<V>(less: (V, V) -> bool, a: V, b: V) {
    less(b, a)
  }

  /** `a >= b` is `!(a < b)`. */
  predicate AtLeast<V>(less: (V, V) -> bool, a: V, b: V) {
    !less(a, b)
  }

  /** `String`'s `<` on the characters modelled here: lexicographic by character code, with a
      proper prefix ordered before its extensions. */
  predicate StringLess(a: string, b: string)
    decreases |a|
  {
    if a == [] then b != []
    else if b == [] then false
    else if a[0] != b[0] then a[0] < b[0]
    else StringLess(a[1..], b[1..])
  }

  /** `StringLess` is a strict total order: of two different strings exactly one is below the
      other, and no string is below itself. */
  lemma {:induction false} StringLessTrichotomy(a: string, b: string)
    ensures !StringLess(a, a)
    ensures !(StringLess(a, b) && StringLess(b, a))
    ensures a != b ==> StringLess(a, b) || StringLess(b, a)
    decreases |a|
  {
    if a != [] && b != [] && a[0] == b[0] {
      StringLessTrichotomy(a[1..], b[1..]);
      assert a != b ==> a[1..] != b[1..] by {
        if a[1..] == b[1..] {
          assert a == [a[0]] + a[1..] && b == [b[0]] + b[1..];
        }
      }
    } else if a != [] {
      StringLessTrichotomy(a[1..], a[1..]);
    }
  }

  // ---- The rules ----

  /** `buildLessthan`: passes iff `value < max`. */
  function LessThanRule<M(!new), V>(keyPath: KeyPath<M, V>, less: (V, V) -> bool, describe: V -> string,
                                    max: V, errorMessage: Option<string>)
    : (rule: Rule<M>)
    ensures rule.key == keyPath.PropertyName()
    ensures rule.msg == errorMessage.GetOr(ErrorDescription(LessThanError(keyPath.PropertyName(), describe(max))))
    ensures forall model :: rule.pred(model) <==> less(keyPath.get(model), max)
  {
    PropertyCheck(keyPath, (value: V) => less(value, max),
      errorMessage.GetOr(ErrorDescription(LessThanError(keyPath.PropertyName(), describe(max)))))
  }

  /** `buildLessThanOrEqualTo`: passes iff `value <= max`. */
  function LessThanOrEqualToRule<M(!new), V>(keyPath: KeyPath<M, V>, less: (V, V) -> bool, describe: V -> string,
                                             max: V, errorMessage: Option<string>)
    : (rule: Rule<M>)
    ensures rule.key == keyPath.PropertyName()
    ensures rule.msg == errorMessage.GetOr(ErrorDescription(LessThanOrEqualToError(keyPath.PropertyName(), describe(max))))
    ensures forall model :: rule.pred(model) <==> AtMost(less, keyPath.get(model), max)
  {
    PropertyCheck(keyPath, (value: V) => AtMost(less, value, max),
      errorMessage.GetOr(ErrorDescription(LessThanOrEqualToError(keyPath.PropertyName(), describe(max)))))
  }

  /** `buildGreaterthan`: passes iff `value > min`. */
  function GreaterThanRule<M(!new), V>(keyPath: KeyPath<M, V>, less: (V, V) -> bool, describe: V -> string,
                                       min: V, errorMessage: Option<string>)
    : (rule: Rule<M>)
    ensures rule.key == keyPath.PropertyName()
    ensures rule.msg == errorMessage.GetOr(ErrorDescription(GreaterThanError(keyPath.PropertyName(), describe(min))))
    ensures forall model :: rule.pred(model) <==> Above(less, keyPath.get(model), min)
  {
    PropertyCheck(keyPath, (value: V) => Above(less, value, min),
      errorMessage.GetOr(ErrorDescription(GreaterThanError(keyPath.PropertyName(), describe(min)))))
  }

  /** `buildgreaterThanOrEqualTo`: passes iff `value >= min`. */
  function GreaterThanOrEqualToRule<M(!new), V>(keyPath: KeyPath<M, V>, less: (V, V) -> bool, describe: V -> string,
                                                min: V, errorMessage: Option<string>)
    : (rule: Rule<M>)
    ensures rule.key == keyPath.PropertyName()
    ensures rule.msg == errorMessage.GetOr(ErrorDescription(GreaterThanOrEqualToError(keyPath.PropertyName(), describe(min))))
    ensures forall model :: rule.pred(model) <==> AtLeast(less, keyPath.get(model), min)
  {
    PropertyCheck(keyPath, (value: V) => AtLeast(less, value, min),
      errorMessage.GetOr(ErrorDescription(GreaterThanOrEqualToError(keyPath.PropertyName(), describe(min)))))
  }

  // ---- The checks ----

  /** `lessThan(_:errorMessage:)`. */
  method LessThan<M(!new), V>(b: Builder<M, V>, less: (V, V) -> bool, describe: V -> string, maxValue: V,
                              errorMessage: Option<string>)
    returns (b': Builder<M, V>)
    modifies b.validator
    ensures b' == b
    ensures b.validator.rules == old(b.validator.rules) + [LessThanRule(b.keyPath, less, describe, maxValue, errorMessage)]
    ensures b.validator.errors == old(b.validator.errors) && b.validator.errorsMap == old(b.validator.errorsMap)
  {
    b' := Register(b, LessThanRule(b.keyPath, less, describe, maxValue, errorMessage));
  }

  /** `lessThanOrEqualTo(_:errorMessage:)`. */
  method LessThanOrEqualTo<M(!new), V>(b: Builder<M, V>, less: (V, V) -> bool, describe: V -> string, maxValue: V,
                                       errorMessage: Option<string>)
    returns (b': Builder<M, V>)
    modifies b.validator
    ensures b' == b
    ensures b.validator.rules
         == old(b.validator.rules) + [LessThanOrEqualToRule(b.keyPath, less, describe, maxValue, errorMessage)]
    ensures b.validator.errors == old(b.validator.errors) && b.validator.errorsMap == old(b.validator.errorsMap)
  {
    b' := Register(b, LessThanOrEqualToRule(b.keyPath, less, describe, maxValue, errorMessage));
  }

  /** `greaterThan(_:errorMessage:)`. */
  method GreaterThan<M(!new), V>(b: Builder<M, V>, less: (V, V) -> bool, describe: V -> string, minValue: V,
                                 errorMessage: Option<string>)
    returns (b': Builder<M, V>)
    modifies b.validator
    ensures b' == b
    ensures b.validator.rules == old(b.validator.rules) + [GreaterThanRule(b.keyPath, less, describe, minValue, errorMessage)]
    ensures b.validator.errors == old(b.validator.errors) && b.validator.errorsMap == old(b.validator.errorsMap)
  {
    b' := Register(b, GreaterThanRule(b.keyPath, less, describe, minValue, errorMessage));
  }

  /** `greaterThanOrEqualTo(_:errorMessage:)`. */
  method GreaterThanOrEqualTo<M(!new), V>(b: Builder<M, V>, less: (V, V) -> bool, describe: V -> string, minValue: V,
                                          errorMessage: Option<string>)
    returns (b': Builder<M, V>)
    modifies b.validator
    ensures b' == b
    ensures b.validator.rules
         == old(b.validator.rules) + [GreaterThanOrEqualToRule(b.keyPath, less, describe, minValue, errorMessage)]
    ensures b.validator.errors == old(b.validator.errors) && b.validator.errorsMap == old(b.validator.errorsMap)
  {
    b' := Register(b, GreaterThanOrEqualToRule(b.keyPath, less, describe, minValue, errorMessage));
  }

  // ---- Properties ----

  /** For the same bound, exactly one of `lessThan` and `greaterThanOrEqualTo` passes. */
  lemma LessThanComplementsAtLeast<M(!new), V>(keyPath: KeyPath<M, V>, less: (V, V) -> bool, describe: V -> string,
                                               bound: V, m1: Option<string>, m2: Option<string>, model: M)
    ensures LessThanRule(keyPath, less, describe, bound, m1).pred(model)
        != GreaterThanOrEqualToRule(keyPath, less, describe, bound, m2).pred(model)
  {
  }

  /** For the same bound, exactly one of `lessThanOrEqualTo` and `greaterThan` passes. */
  lemma AtMostComplementsGreaterThan<M(!new), V>(keyPath: KeyPath<M, V>, less: (V, V) -> bool, describe: V -> string,
                                                 bound: V, m1: Option<string>, m2: Option<string>, model: M)
    ensures LessThanOrEqualToRule(keyPath, less, describe, bound, m1).pred(model)
        != GreaterThanRule(keyPath, less, describe, bound, m2).pred(model)
  {
  }

  /** `Int`'s conformance: the derived operators are the integer ones. */
  lemma IntOperators(a: int, b: int)
    ensures AtMost((x: int, y: int) => x < y, a, b) <==> a <= b
    ensures Above((x: int, y: int) => x < y, a, b) <==> a > b
    ensures AtLeast((x: int, y: int) => x < y, a, b) <==> a >= b
  {
  }

  /** The test's `lessThan(0)` on an age of 20 fails with the default message for bound "0". */
  lemma AgeLessThanZeroExample<M(!new)>(keyPath: KeyPath<M, int>, model: M)
    requires keyPath.get(model) == 20
    ensures var rule := LessThanRule(keyPath, (x: int, y: int) => x < y, (x: int) => ErrorMessages.IntToString(x), 0, None);
            !rule.pred(model) && rule.msg == ErrorDescription(LessThanError(keyPath.PropertyName(), "0"))
  {
    assert ErrorMessages.IntToString(0) == "0";
  }
}
