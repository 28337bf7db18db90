/** The library's own usage scenarios (SwiftFluentTests/BaseTypeDefaultErrorMessageTests.swift and
    SwiftFluentTests/RuleForBuilderErrorTests.swift), as client methods of the model: rules are
    registered, the model is validated, and the errors are those the tests expect. */
module Scenarios {
  import opened Wrappers
  import opened KeyPaths
  import opened ValidationRules
  import opened ValidationResults
  import opened ErrorMessages
  import opened Validators
  import opened RuleBuilders
  import StringExtensions
  import CreditCard
  import StringValidators
  import EquatableValidators
  import OptionalValidators
  import StringRules
  import ComparableRules
  import EquatableRules
  import CollectionRules
  import OptionalRules

  /** `String(describing:)` of a `String` is the string itself. */
  /** `String`'s `==` on the operands used here: for these ASCII strings canonical equivalence
      is equality of the characters. */
  function StringEquals(a: string, b: string): bool {
    a == b
  }

  function Identity(s: string): string {
    s
  }

  // ---- Batches of literal rules, reasoned about through their positions ----

  lemma EmptyPrefix<T>(s: seq<T>)
    ensures [] + s == s
  {
  }

  lemma Snoc5<T>(before: seq<T>, a0: T, a1: T, a2: T, a3: T, a4: T)
    ensures before + [a0] + [a1] + [a2] + [a3] + [a4] == before + [a0, a1, a2, a3, a4]
  {
  }

  lemma Snoc6<T>(before: seq<T>, a0: T, a1: T, a2: T, a3: T, a4: T, a5: T)
    ensures before + [a0] + [a1] + [a2] + [a3] + [a4] + [a5] == before + [a0, a1, a2, a3, a4, a5]
  {
  }

  lemma Snoc7<T>(before: seq<T>, a0: T, a1: T, a2: T, a3: T, a4: T, a5: T, a6: T)
    ensures before + [a0] + [a1] + [a2] + [a3] + [a4] + [a5] + [a6] == before + [a0, a1, a2, a3, a4, a5, a6]
  {
  }

  lemma Concat5And6<T>(a0: T, a1: T, a2: T, a3: T, a4: T, b0: T, b1: T, b2: T, b3: T, b4: T, b5: T)
    ensures [a0, a1, a2, a3, a4] + [b0, b1, b2, b3, b4, b5] == [a0, a1, a2, a3, a4, b0, b1, b2, b3, b4, b5]
  {
  }

  /** Rules that each fail under `key` form a failing batch, whose messages are theirs in order. */
  lemma AllFailFive<M>(r0: Rule<M>, r1: Rule<M>, r2: Rule<M>, r3: Rule<M>, r4: Rule<M>, model: M, key: string)
    requires FailsUnder(r0, model, key) && FailsUnder(r1, model, key) && FailsUnder(r2, model, key)
    requires FailsUnder(r3, model, key) && FailsUnder(r4, model, key)
    ensures AllFailUnder([r0, r1, r2, r3, r4], model, key)
    ensures RuleMessages([r0, r1, r2, r3, r4]) == [r0.msg, r1.msg, r2.msg, r3.msg, r4.msg]
  {
  }

  lemma AllFailSix<M>(r0: Rule<M>, r1: Rule<M>, r2: Rule<M>, r3: Rule<M>, r4: Rule<M>, r5: Rule<M>, model: M, key: string)
    requires FailsUnder(r0, model, key) && FailsUnder(r1, model, key) && FailsUnder(r2, model, key)
    requires FailsUnder(r3, model, key) && FailsUnder(r4, model, key) && FailsUnder(r5, model, key)
    ensures AllFailUnder([r0, r1, r2, r3, r4, r5], model, key)
    ensures RuleMessages([r0, r1, r2, r3, r4, r5]) == [r0.msg, r1.msg, r2.msg, r3.msg, r4.msg, r5.msg]
  {
  }

  lemma AllFailSeven<M>(r0: Rule<M>, r1: Rule<M>, r2: Rule<M>, r3: Rule<M>, r4: Rule<M>, r5: Rule<M>, r6: Rule<M>, model: M, key: string)
    requires FailsUnder(r0, model, key) && FailsUnder(r1, model, key) && FailsUnder(r2, model, key)
    requires FailsUnder(r3, model, key) && FailsUnder(r4, model, key) && FailsUnder(r5, model, key)
    requires FailsUnder(r6, model, key)
    ensures AllFailUnder([r0, r1, r2, r3, r4, r5, r6], model, key)
    ensures RuleMessages([r0, r1, r2, r3, r4, r5, r6]) == [r0.msg, r1.msg, r2.msg, r3.msg, r4.msg, r5.msg, r6.msg]
  {
  }

  lemma AllFailOne<M>(rule: Rule<M>, model: M, key: string)
    requires FailsUnder(rule, model, key)
    ensures AllFailUnder([] + [rule], model, key)
    ensures RuleMessages([] + [rule]) == [rule.msg]
  {
    FailingStep([], rule, model, key);
  }

  // ---- Default messages of whole-model rules ----

  /** The seven checks the test registers on a `Validator<String>`; `value` is the operand of
      `notEqual`. */
  function StringChecks(typeName: string, matches: (string, string) -> bool, value: string): seq<Rule<string>> {
    [StringValidators.EmailModelRule(typeName, matches, None, None),
     StringValidators.MinLengthModelRule(typeName, 100, None),
     StringValidators.MaxLengthModelRule(typeName, 0, None),
     StringValidators.LengthModelRule(typeName, 0, 0, None),
     EquatableValidators.NotEqualModelRule(typeName, StringEquals, Identity, value, None),
     StringValidators.CreditCardModelRule(typeName, None),
     EquatableValidators.EqualModelRule(typeName, StringEquals, Identity, "", None)]
  }

  /** All seven fail on a non-empty string of under 100 characters that is not an email
      address, has fewer than 13 digits, and is the `notEqual` operand; each reports its default
      message naming the type. */
  lemma StringChecksFail(typeName: string, matches: (string, string) -> bool, value: string)
    requires 0 < |value| < 100 && |CreditCard.Digits(value)| < 13
    requires !StringExtensions.IsValidEmail(matches, value, None)
    ensures AllFailUnder(StringChecks(typeName, matches, value), value, typeName)
    ensures RuleMessages(StringChecks(typeName, matches, value))
         == [ErrorDescription(EmailError(typeName)), ErrorDescription(MinLengthError(typeName, 100)),
             ErrorDescription(MaxLengthError(typeName, 0)), ErrorDescription(LengthError(typeName, 0, 0)),
             ErrorDescription(NotEqualError(typeName, value)),
             ErrorDescription(CreditCardError(typeName)), ErrorDescription(EqualError(typeName, ""))]
  {
    CreditCard.TooFewDigits(value);
    AllFailSeven(StringValidators.EmailModelRule(typeName, matches, None, None),
                 StringValidators.MinLengthModelRule(typeName, 100, None),
                 StringValidators.MaxLengthModelRule(typeName, 0, None),
                 StringValidators.LengthModelRule(typeName, 0, 0, None),
                 EquatableValidators.NotEqualModelRule(typeName, StringEquals, Identity, value, None),
                 StringValidators.CreditCardModelRule(typeName, None),
                 EquatableValidators.EqualModelRule(typeName, StringEquals, Identity, "", None), value, typeName);
  }

  /** Registers the seven checks in the test's order. */
  method AddStringChecks(v: Validator<string>, matches: (string, string) -> bool, value: string)
    modifies v
    ensures v.rules == old(v.rules) + StringChecks(v.typeName, matches, value)
    ensures v.errors == old(v.errors) && v.errorsMap == old(v.errorsMap)
  {
    ghost var before := v.rules;
    var w := StringValidators.Email(v, matches, None, None);
    w := StringValidators.MinLength(v, 100, None);
    w := StringValidators.MaxLength(v, 0, None);
    w := StringValidators.Length(v, 0, 0, None);
    w := EquatableValidators.NotEqual(v, StringEquals, Identity, value, None);
    w := StringValidators.CreditCardNumber(v, None);
    w := EquatableValidators.Equal(v, StringEquals, Identity, "", None);
    Snoc7(before, StringValidators.EmailModelRule(v.typeName, matches, None, None),
          StringValidators.MinLengthModelRule(v.typeName, 100, None),
          StringValidators.MaxLengthModelRule(v.typeName, 0, None),
          StringValidators.LengthModelRule(v.typeName, 0, 0, None),
          EquatableValidators.NotEqualModelRule(v.typeName, StringEquals, Identity, value, None),
          StringValidators.CreditCardModelRule(v.typeName, None),
          EquatableValidators.EqualModelRule(v.typeName, StringEquals, Identity, "", None));
  }

  /** Seven String checks on "some value" all fail, and `validationErrors` lists their default
      messages in registration order, each naming the type `String`. */
  method StringTypeDefaults(matches: (string, string) -> bool) returns (errors: seq<string>, result: ValidationResult)
    requires !StringExtensions.IsValidEmail(matches, "some value", None)
    ensures errors == [ErrorDescription(EmailError("String")), ErrorDescription(MinLengthError("String", 100)),
                       ErrorDescription(MaxLengthError("String", 0)), ErrorDescription(LengthError("String", 0, 0)),
                       ErrorDescription(NotEqualError("String", "some value")),
                       ErrorDescription(CreditCardError("String")), ErrorDescription(EqualError("String", ""))]
    ensures result == Invalid(errors)
  {
    var model := "some value";
    var v := new Validator<string>("String");
    AddStringChecks(v, matches, model);
    EmptyPrefix(StringChecks("String", matches, model));
    StringChecksFail("String", matches, model);
    FailingBatch(v.rules, model, "String", "");
    result := v.Validate(model);
    errors := v.errors;
  }

  /** `notEmpty` on "" reports exactly its default message. */
  method BlankStringDefault() returns (errors: seq<string>)
    ensures errors == [ErrorDescription(NotEmptyError("String"))]
  {
    var v := new Validator<string>("String");
    var w := StringValidators.NotEmpty(v, None);
    StringValidators.NotEmptyRejectsBlank("String", None);
    AllFailOne(StringValidators.NotEmptyModelRule("String", None), "", "String");
    FailingBatch(v.rules, "", "String", "");
    var result := v.Validate("");
    errors := v.errors;
  }

  /** `notNil` on nil reports exactly its default message, naming `Optional<String>`. */
  method NilDefault() returns (errors: seq<string>)
    ensures errors == [ErrorDescription(NotNilError("Optional<String>"))]
  {
    var v := new Validator<Option<string>>("Optional<String>");
    var w := OptionalValidators.NotNil(v, None);
    AllFailOne(OptionalValidators.NotNilModelRule<string>("Optional<String>", None), None, "Optional<String>");
    FailingBatch(v.rules, None, "Optional<String>", "");
    var result := v.Validate(None);
    errors := v.errors;
  }

  /** A validator without rules accepts the model and records no error. */
  method EmptyValidatorAccepts(model: string) returns (result: ValidationResult, errors: seq<string>)
    ensures result == Valid && errors == []
  {
    var v := new Validator<string>("String");
    result := v.Validate(model);
    errors := v.errors;
  }

  // ---- Property rules on a user record ----

  /** The test model. */
  datatype User = User(name: string, age: int, email: string, creditCardNumber: string,
                       favoriteBooks: seq<string>, profileImageURL: Option<string>)

  /** `makeSUT(email: "")`: the defaults with an empty email. */
  const Sut: User := User("a name", 20, "", "", [], None)

  const NameKey: KeyPath<User, string> := KeyPath((u: User) => u.name, "\\User" + "." + "name")
  const AgeKey: KeyPath<User, int> := KeyPath((u: User) => u.age, "\\User" + "." + "age")
  const EmailKey: KeyPath<User, string> := KeyPath((u: User) => u.email, "\\User" + "." + "email")
  const CardKey: KeyPath<User, string> := KeyPath((u: User) => u.creditCardNumber, "\\User" + "." + "creditCardNumber")
  const UrlKey: KeyPath<User, Option<string>> := KeyPath((u: User) => u.profileImageURL, "\\User" + "." + "profileImageURL")

  /** The property names of the key paths: the text after `\User.`. */
  lemma NameKeyName()
    ensures NameKey.PropertyName() == "name"
  {
    NameAfterLastDot("\\User", "name");
  }

  lemma AgeKeyName()
    ensures AgeKey.PropertyName() == "age"
  {
    NameAfterLastDot("\\User", "age");
  }

  lemma EmailKeyName()
    ensures EmailKey.PropertyName() == "email"
  {
    NameAfterLastDot("\\User", "email");
  }

  lemma CardKeyName()
    ensures CardKey.PropertyName() == "creditCardNumber"
  {
    NameAfterLastDot("\\User", "creditCardNumber");
  }

  lemma UrlKeyName()
    ensures UrlKey.PropertyName() == "profileImageURL"
  {
    NameAfterLastDot("\\User", "profileImageURL");
  }

  /** `Int`'s `==`. */
  function IntEquals(x: int, y: int): bool {
    x == y
  }

  function IntLess(x: int, y: int): bool {
    x < y
  }

  /** The eleven checks the test chains on `name`: five on its text, then six comparisons. */
  function NameRules(name: KeyPath<User, string>, matches: (string, string) -> bool): seq<Rule<User>> {
    NameTextRules(name, matches) + NameOrderRules(name)
  }

  function NameTextRules(name: KeyPath<User, string>, matches: (string, string) -> bool): seq<Rule<User>> {
    [StringRules.LengthRule(name, 0, 0, None), StringRules.MinLengthRule(name, 100, None),
     StringRules.EmailRule(name, matches, None, None), StringRules.CreditCardRule(name, None),
     StringRules.MaxLengthRule(name, 0, None)]
  }

  function NameOrderRules(name: KeyPath<User, string>): seq<Rule<User>> {
    [ComparableRules.LessThanRule(name, ComparableRules.StringLess, Identity, "0", None),
     ComparableRules.LessThanOrEqualToRule(name, ComparableRules.StringLess, Identity, "0", None),
     ComparableRules.GreaterThanRule(name, ComparableRules.StringLess, Identity, "zzz", None),
     ComparableRules.GreaterThanOrEqualToRule(name, ComparableRules.StringLess, Identity, "zzz", None),
     EquatableRules.EqualRule(name, StringEquals, Identity, "", None),
     EquatableRules.NotEqualRule(name, StringEquals, Identity, "a name", None)]
  }

  /** The five checks the test chains on `age`. */
  function AgeRules(age: KeyPath<User, int>): seq<Rule<User>> {
    [ComparableRules.LessThanRule(age, IntLess, IntToString, 0, None),
     ComparableRules.LessThanOrEqualToRule(age, IntLess, IntToString, 0, None),
     ComparableRules.GreaterThanRule(age, IntLess, IntToString, 100, None),
     ComparableRules.GreaterThanOrEqualToRule(age, IntLess, IntToString, 100, None),
     EquatableRules.EqualRule(age, IntEquals, IntToString, 0, None)]
  }

  /** The decimal renderings of the test's integer bounds. */
  lemma IntBoundsRendered()
    ensures IntToString(0) == "0" && IntToString(100) == "100"
  {
    assert NatToString(10) == NatToString(1) + [DigitChar(0)];
    assert NatToString(100) == NatToString(10) + [DigitChar(0)];
  }

  /** The five text checks fail on "a name", each with its default message. */
  lemma NameTextRulesFail(name: KeyPath<User, string>, matches: (string, string) -> bool)
    requires name.PropertyName() == "name" && name.get(Sut) == "a name"
    requires !StringExtensions.IsValidEmail(matches, "a name", None)
    ensures AllFailUnder(NameTextRules(name, matches), Sut, "name")
    ensures RuleMessages(NameTextRules(name, matches))
         == [ErrorDescription(LengthError("name", 0, 0)), ErrorDescription(MinLengthError("name", 100)),
             ErrorDescription(EmailError("name")), ErrorDescription(CreditCardError("name")),
             ErrorDescription(MaxLengthError("name", 0))]
  {
    CreditCard.TooFewDigits("a name");
    AllFailFive(StringRules.LengthRule(name, 0, 0, None), StringRules.MinLengthRule(name, 100, None),
                StringRules.EmailRule(name, matches, None, None), StringRules.CreditCardRule(name, None),
                StringRules.MaxLengthRule(name, 0, None), Sut, "name");
  }

  /** The six comparisons fail on "a name", each with its default message. */
  lemma NameOrderRulesFail(name: KeyPath<User, string>)
    requires name.PropertyName() == "name" && name.get(Sut) == "a name"
    ensures AllFailUnder(NameOrderRules(name), Sut, "name")
    ensures RuleMessages(NameOrderRules(name))
         == [ErrorDescription(LessThanError("name", "0")), ErrorDescription(LessThanOrEqualToError("name", "0")),
             ErrorDescription(GreaterThanError("name", "zzz")), ErrorDescription(GreaterThanOrEqualToError("name", "zzz")),
             ErrorDescription(EqualError("name", "")), ErrorDescription(NotEqualError("name", "a name"))]
  {
    assert !ComparableRules.StringLess("a name", "0") && ComparableRules.StringLess("0", "a name");
    assert !ComparableRules.StringLess("zzz", "a name") && ComparableRules.StringLess("a name", "zzz");
    AllFailSix(ComparableRules.LessThanRule(name, ComparableRules.StringLess, Identity, "0", None),
               ComparableRules.LessThanOrEqualToRule(name, ComparableRules.StringLess, Identity, "0", None),
               ComparableRules.GreaterThanRule(name, ComparableRules.StringLess, Identity, "zzz", None),
               ComparableRules.GreaterThanOrEqualToRule(name, ComparableRules.StringLess, Identity, "zzz", None),
               EquatableRules.EqualRule(name, StringEquals, Identity, "", None),
               EquatableRules.NotEqualRule(name, StringEquals, Identity, "a name", None), Sut, "name");
  }

  /** Every `name` check fails on "a name", and the messages are the test's expected list. */
  lemma NameRulesFail(name: KeyPath<User, string>, matches: (string, string) -> bool)
    requires name.PropertyName() == "name" && name.get(Sut) == "a name"
    requires !StringExtensions.IsValidEmail(matches, "a name", None)
    ensures AllFailUnder(NameRules(name, matches), Sut, "name")
    ensures RuleMessages(NameRules(name, matches))
         == [ErrorDescription(LengthError("name", 0, 0)), ErrorDescription(MinLengthError("name", 100)),
             ErrorDescription(EmailError("name")), ErrorDescription(CreditCardError("name")),
             ErrorDescription(MaxLengthError("name", 0)), ErrorDescription(LessThanError("name", "0")),
             ErrorDescription(LessThanOrEqualToError("name", "0")), ErrorDescription(GreaterThanError("name", "zzz")),
             ErrorDescription(GreaterThanOrEqualToError("name", "zzz")), ErrorDescription(EqualError("name", "")),
             ErrorDescription(NotEqualError("name", "a name"))]
  {
    NameTextRulesFail(name, matches);
    NameOrderRulesFail(name);
    AllFailUnderConcat(NameTextRules(name, matches), NameOrderRules(name), Sut, "name");
    RuleMessagesConcat(NameTextRules(name, matches), NameOrderRules(name));
    Concat5And6(ErrorDescription(LengthError("name", 0, 0)), ErrorDescription(MinLengthError("name", 100)),
                ErrorDescription(EmailError("name")), ErrorDescription(CreditCardError("name")),
                ErrorDescription(MaxLengthError("name", 0)), ErrorDescription(LessThanError("name", "0")),
                ErrorDescription(LessThanOrEqualToError("name", "0")), ErrorDescription(GreaterThanError("name", "zzz")),
                ErrorDescription(GreaterThanOrEqualToError("name", "zzz")), ErrorDescription(EqualError("name", "")),
                ErrorDescription(NotEqualError("name", "a name")));
  }

  /** Every `age` check fails on 20, and the messages are the test's expected list. */
  lemma AgeRulesFail(age: KeyPath<User, int>)
    requires age.PropertyName() == "age" && age.get(Sut) == 20
    ensures AllFailUnder(AgeRules(age), Sut, "age")
    ensures RuleMessages(AgeRules(age))
         == [ErrorDescription(LessThanError("age", "0")), ErrorDescription(LessThanOrEqualToError("age", "0")),
             ErrorDescription(GreaterThanError("age", "100")), ErrorDescription(GreaterThanOrEqualToError("age", "100")),
             ErrorDescription(EqualError("age", "0"))]
  {
    IntBoundsRendered();
    AllFailFive(ComparableRules.LessThanRule(age, IntLess, IntToString, 0, None),
                ComparableRules.LessThanOrEqualToRule(age, IntLess, IntToString, 0, None),
                ComparableRules.GreaterThanRule(age, IntLess, IntToString, 100, None),
                ComparableRules.GreaterThanOrEqualToRule(age, IntLess, IntToString, 100, None),
                EquatableRules.EqualRule(age, IntEquals, IntToString, 0, None), Sut, "age");
  }

  /** The `name` chain: eleven rules appended through one builder. */
  method ChainNameRules(b: Builder<User, string>, matches: (string, string) -> bool) returns (b': Builder<User, string>)
    modifies b.validator
    ensures b' == b
    ensures b.validator.rules == old(b.validator.rules) + NameRules(b.keyPath, matches)
    ensures b.validator.errors == old(b.validator.errors) && b.validator.errorsMap == old(b.validator.errorsMap)
  {
    b' := ChainNameTextRules(b, matches);
    b' := ChainNameOrderRules(b');
    AppendAssoc(old(b.validator.rules), NameTextRules(b.keyPath, matches), NameOrderRules(b.keyPath));
  }

  method ChainNameTextRules(b: Builder<User, string>, matches: (string, string) -> bool)
    returns (b': Builder<User, string>)
    modifies b.validator
    ensures b' == b
    ensures b.validator.rules == old(b.validator.rules) + NameTextRules(b.keyPath, matches)
    ensures b.validator.errors == old(b.validator.errors) && b.validator.errorsMap == old(b.validator.errorsMap)
  {
    b' := StringRules.Length(b, 0, 0, None);
    b' := StringRules.MinLength(b', 100, None);
    b' := StringRules.Email(b', matches, None, None);
    b' := StringRules.CreditCardNumber(b', None);
    b' := StringRules.MaxLength(b', 0, None);
    Snoc5(old(b.validator.rules), StringRules.LengthRule(b.keyPath, 0, 0, None), StringRules.MinLengthRule(b.keyPath, 100, None),
          StringRules.EmailRule(b.keyPath, matches, None, None), StringRules.CreditCardRule(b.keyPath, None),
          StringRules.MaxLengthRule(b.keyPath, 0, None));
  }

  method ChainNameOrderRules(b: Builder<User, string>) returns (b': Builder<User, string>)
    modifies b.validator
    ensures b' == b
    ensures b.validator.rules == old(b.validator.rules) + NameOrderRules(b.keyPath)
    ensures b.validator.errors == old(b.validator.errors) && b.validator.errorsMap == old(b.validator.errorsMap)
  {
    b' := ComparableRules.LessThan(b, ComparableRules.StringLess, Identity, "0", None);
    b' := ComparableRules.LessThanOrEqualTo(b', ComparableRules.StringLess, Identity, "0", None);
    b' := ComparableRules.GreaterThan(b', ComparableRules.StringLess, Identity, "zzz", None);
    b' := ComparableRules.GreaterThanOrEqualTo(b', ComparableRules.StringLess, Identity, "zzz", None);
    b' := EquatableRules.Equal(b', StringEquals, Identity, "", None);
    b' := EquatableRules.NotEqual(b', StringEquals, Identity, "a name", None);
    Snoc6(old(b.validator.rules), ComparableRules.LessThanRule(b.keyPath, ComparableRules.StringLess, Identity, "0", None),
          ComparableRules.LessThanOrEqualToRule(b.keyPath, ComparableRules.StringLess, Identity, "0", None),
          ComparableRules.GreaterThanRule(b.keyPath, ComparableRules.StringLess, Identity, "zzz", None),
          ComparableRules.GreaterThanOrEqualToRule(b.keyPath, ComparableRules.StringLess, Identity, "zzz", None),
          EquatableRules.EqualRule(b.keyPath, StringEquals, Identity, "", None),
          EquatableRules.NotEqualRule(b.keyPath, StringEquals, Identity, "a name", None));
  }

  /** The `age` chain: five rules appended through one builder. */
  method ChainAgeRules(b: Builder<User, int>) returns (b': Builder<User, int>)
    modifies b.validator
    ensures b' == b
    ensures b.validator.rules == old(b.validator.rules) + AgeRules(b.keyPath)
    ensures b.validator.errors == old(b.validator.errors) && b.validator.errorsMap == old(b.validator.errorsMap)
  {
    b' := ComparableRules.LessThan(b, IntLess, IntToString, 0, None);
    b' := ComparableRules.LessThanOrEqualTo(b', IntLess, IntToString, 0, None);
    b' := ComparableRules.GreaterThan(b', IntLess, IntToString, 100, None);
    b' := ComparableRules.GreaterThanOrEqualTo(b', IntLess, IntToString, 100, None);
    b' := EquatableRules.Equal(b', IntEquals, IntToString, 0, None);
    Snoc5(old(b.validator.rules), ComparableRules.LessThanRule(b.keyPath, IntLess, IntToString, 0, None),
          ComparableRules.LessThanOrEqualToRule(b.keyPath, IntLess, IntToString, 0, None),
          ComparableRules.GreaterThanRule(b.keyPath, IntLess, IntToString, 100, None),
          ComparableRules.GreaterThanOrEqualToRule(b.keyPath, IntLess, IntToString, 100, None),
          EquatableRules.EqualRule(b.keyPath, IntEquals, IntToString, 0, None));
  }

  /** The messages filed under `key` by evaluating two batches one after the other. */
  lemma FiledConcat<M>(x: seq<Rule<M>>, y: seq<Rule<M>>, model: M, key: string)
    ensures MessagesFor(Failures(x + y, model), key)
         == MessagesFor(Failures(x, model), key) + MessagesFor(Failures(y, model), key)
  {
    FailuresConcat(x, y, model);
    MessagesForConcat(Failures(x, model), Failures(y, model), key);
  }

  /** A failing batch for `own` files its messages under `own`... */
  lemma FiledOwn<M>(rules: seq<Rule<M>>, model: M, own: string)
    requires AllFailUnder(rules, model, own)
    ensures MessagesFor(Failures(rules, model), own) == RuleMessages(rules)
  {
    FailingBatch(rules, model, own, own);
  }

  /** ... and nothing under any other key. */
  lemma FiledOther<M>(rules: seq<Rule<M>>, model: M, own: string, key: string)
    requires AllFailUnder(rules, model, own) && key != own
    ensures MessagesFor(Failures(rules, model), key) == []
  {
    FailingBatch(rules, model, own, key);
  }

  /** The rules of several batches, registered one batch after the other. */
  function ConcatBatches<M>(batches: seq<seq<Rule<M>>>): seq<Rule<M>> {
    if batches == [] then [] else ConcatBatches(batches[..|batches| - 1]) + batches[|batches| - 1]
  }

  /** Batch `j` fails entirely under `keys[j]`, and the keys are pairwise different. */
  predicate KeyedBatches<M>(batches: seq<seq<Rule<M>>>, keys: seq<string>, model: M) {
    && |batches| == |keys|
    && (forall j :: 0 <= j < |batches| ==> AllFailUnder(batches[j], model, keys[j]))
    && (forall j, k :: 0 <= j < k < |keys| ==> keys[j] != keys[k])
  }

  lemma ConcatFour<M>(n: seq<Rule<M>>, a: seq<Rule<M>>, e: seq<Rule<M>>, u: seq<Rule<M>>)
    ensures ConcatBatches([n, a, e, u]) == n + a + e + u
  {
    assert [n, a, e, u][..3] == [n, a, e] && [n, a, e][..2] == [n, a] && [n, a][..1] == [n];
    assert ConcatBatches([n]) == n by {
      EmptyPrefix(n);
    }
    assert ConcatBatches([n, a]) == n + a;
    assert ConcatBatches([n, a, e]) == n + a + e;
  }

  lemma KeyedFour<M>(n: seq<Rule<M>>, a: seq<Rule<M>>, e: seq<Rule<M>>, u: seq<Rule<M>>,
                     kn: string, ka: string, ke: string, ku: string, model: M)
    requires AllFailUnder(n, model, kn) && AllFailUnder(a, model, ka)
    requires AllFailUnder(e, model, ke) && AllFailUnder(u, model, ku)
    requires kn != ka && kn != ke && kn != ku && ka != ke && ka != ku && ke != ku
    ensures KeyedBatches([n, a, e, u], [kn, ka, ke, ku], model)
  {
  }

  /** Dropping the last batch keeps the rest keyed, and the last key is none of the others. */
  lemma KeyedPrefix<M>(batches: seq<seq<Rule<M>>>, keys: seq<string>, model: M)
    requires KeyedBatches(batches, keys, model) && batches != []
    ensures KeyedBatches(batches[..|batches| - 1], keys[..|keys| - 1], model)
    ensures forall j :: 0 <= j < |keys| - 1 ==> keys[j] != keys[|keys| - 1]
    ensures AllFailUnder(batches[|batches| - 1], model, keys[|keys| - 1])
  {
  }

  /** A key that no batch reports under receives no message. */
  lemma {:induction false} FiledInNoBatch<M>(batches: seq<seq<Rule<M>>>, keys: seq<string>, model: M, other: string)
    requires KeyedBatches(batches, keys, model)
    requires forall j :: 0 <= j < |keys| ==> keys[j] != other
    ensures MessagesFor(Failures(ConcatBatches(batches), model), other) == []
    decreases |batches|
  {
    if batches != [] {
      var last := |batches| - 1;
      KeyedPrefix(batches, keys, model);
      FiledInNoBatch(batches[..last], keys[..last], model, other);
      FiledConcat(ConcatBatches(batches[..last]), batches[last], model, other);
      FiledOther(batches[last], model, keys[last], other);
    }
  }

  /** Batch `i`'s key receives exactly batch `i`'s messages, in order. */
  lemma {:induction false} FiledInOwnBatch<M>(batches: seq<seq<Rule<M>>>, keys: seq<string>, model: M, i: nat)
    requires KeyedBatches(batches, keys, model) && i < |batches|
    ensures MessagesFor(Failures(ConcatBatches(batches), model), keys[i]) == RuleMessages(batches[i])
    decreases |batches|
  {
    var last := |batches| - 1;
    KeyedPrefix(batches, keys, model);
    FiledConcat(ConcatBatches(batches[..last]), batches[last], model, keys[i]);
    if i == last {
      FiledInNoBatch(batches[..last], keys[..last], model, keys[i]);
      FiledOwn(batches[last], model, keys[i]);
      EmptyPrefix(RuleMessages(batches[last]));
    } else {
      FiledInOwnBatch(batches[..last], keys[..last], model, i);
      FiledOther(batches[last], model, keys[last], keys[i]);
    }
  }

  /** The test's registrations: the `name` chain, the `age` chain, `notEmpty` on `email` and
      `notNil` on `profileImageURL`, each through a builder that `build()` hands on. */
  method BuildUserValidator(matches: (string, string) -> bool) returns (validator: Validator<User>)
    ensures fresh(validator)
    ensures validator.rules == NameRules(NameKey, matches) + AgeRules(AgeKey)
                             + [CollectionRules.NotEmptyRule(EmailKey, None)] + [OptionalRules.NotNilRule(UrlKey, None)]
    ensures validator.errorsMap == map[]
  {
    var v := new Validator<User>("User");
    var names := RuleFor(v, NameKey);
    names := ChainNameRules(names, matches);
    var ages := RuleFor(names.Build(), AgeKey);
    ages := ChainAgeRules(ages);
    var emails := RuleFor(ages.Build(), EmailKey);
    emails := CollectionRules.NotEmpty(emails, None);
    var urls := RuleFor(emails.Build(), UrlKey);
    urls := OptionalRules.NotNil(urls, None);
    validator := urls.Build();
    EmptyPrefix(NameRules(NameKey, matches));
  }

  /** The whole test: rules for four properties of a user, one `validate`, and `errorFor` per
      property returns that property's default messages in registration order; a property
      without rules has no entry. */
  method UserDefaults(matches: (string, string) -> bool)
    returns (forName: Option<seq<string>>, forAge: Option<seq<string>>, forEmail: Option<seq<string>>,
             forUrl: Option<seq<string>>, forCard: Option<seq<string>>, firstForEmail: string)
    requires !StringExtensions.IsValidEmail(matches, "a name", None)
    ensures forName == Some([ErrorDescription(LengthError("name", 0, 0)), ErrorDescription(MinLengthError("name", 100)),
             ErrorDescription(EmailError("name")), ErrorDescription(CreditCardError("name")),
             ErrorDescription(MaxLengthError("name", 0)), ErrorDescription(LessThanError("name", "0")),
             ErrorDescription(LessThanOrEqualToError("name", "0")), ErrorDescription(GreaterThanError("name", "zzz")),
             ErrorDescription(GreaterThanOrEqualToError("name", "zzz")), ErrorDescription(EqualError("name", "")),
             ErrorDescription(NotEqualError("name", "a name"))])
    ensures forAge == Some([ErrorDescription(LessThanError("age", "0")), ErrorDescription(LessThanOrEqualToError("age", "0")),
                            ErrorDescription(GreaterThanError("age", "100")),
                            ErrorDescription(GreaterThanOrEqualToError("age", "100")), ErrorDescription(EqualError("age", "0"))])
    ensures forEmail == Some([ErrorDescription(NotEmptyError("email"))])
    ensures forUrl == Some([ErrorDescription(NotNilError("profileImageURL"))])
    ensures forCard == None
    ensures firstForEmail == ErrorDescription(NotEmptyError("email"))
  {
    var validator := BuildUserValidator(matches);
    ghost var n, a := NameRules(NameKey, matches), AgeRules(AgeKey);
    ghost var e, u := [CollectionRules.NotEmptyRule(EmailKey, None)], [OptionalRules.NotNilRule(UrlKey, None)];
    NameKeyName();
    AgeKeyName();
    EmailKeyName();
    CardKeyName();
    UrlKeyName();
    NameRulesFail(NameKey, matches);
    AgeRulesFail(AgeKey);
    AllFailOne(CollectionRules.NotEmptyRule(EmailKey, None), Sut, "email");
    AllFailOne(OptionalRules.NotNilRule(UrlKey, None), Sut, "profileImageURL");
    EmptyPrefix(e);
    EmptyPrefix(u);
    var result := validator.Validate(Sut);
    PropertyNamesDiffer();
    FilesPerKey(n, a, e, u, "name", "age", "email", "profileImageURL", "creditCardNumber");
    forName := validator.ErrorFor(NameKey);
    forAge := validator.ErrorFor(AgeKey);
    forEmail := validator.ErrorFor(EmailKey);
    forUrl := validator.ErrorFor(UrlKey);
    forCard := validator.ErrorFor(CardKey);
    var self;
    firstForEmail, self := validator.ErrorForAssign(EmailKey);
  }

  /** What the map holds after one `validate` of four failing batches for four different
      keys: each key's own messages, and no entry for a fifth key. */
  lemma FilesPerKey(n: seq<Rule<User>>, a: seq<Rule<User>>, e: seq<Rule<User>>, u: seq<Rule<User>>,
                    kn: string, ka: string, ke: string, ku: string, other: string)
    requires AllFailUnder(n, Sut, kn) && AllFailUnder(a, Sut, ka)
    requires AllFailUnder(e, Sut, ke) && AllFailUnder(u, Sut, ku)
    requires n != [] && a != [] && e != [] && u != []
    requires kn != ka && kn != ke && kn != ku && ka != ke && ka != ku && ke != ku
    requires other != kn && other != ka && other != ke && other != ku
    ensures var m := Accumulate(map[], Failures(n + a + e + u, Sut));
            kn in m && m[kn] == RuleMessages(n) && ka in m && m[ka] == RuleMessages(a)
            && ke in m && m[ke] == RuleMessages(e) && ku in m && m[ku] == RuleMessages(u) && other !in m
  {
    var batches, keys := [n, a, e, u], [kn, ka, ke, ku];
    ConcatFour(n, a, e, u);
    KeyedFour(n, a, e, u, kn, ka, ke, ku, Sut);
    FiledInOwnBatch(batches, keys, Sut, 0);
    FiledInOwnBatch(batches, keys, Sut, 1);
    FiledInOwnBatch(batches, keys, Sut, 2);
    FiledInOwnBatch(batches, keys, Sut, 3);
    FiledInNoBatch(batches, keys, Sut, other);
    FiveKeysFiled(Failures(n + a + e + u, Sut), kn, ka, ke, ku, other,
                  RuleMessages(n), RuleMessages(a), RuleMessages(e), RuleMessages(u));
  }

  lemma FiveKeysFiled(failures: seq<(string, string)>, kn: string, ka: string, ke: string, ku: string, other: string,
                      mn: seq<string>, ma: seq<string>, me: seq<string>, mu: seq<string>)
    requires MessagesFor(failures, kn) == mn && MessagesFor(failures, ka) == ma
    requires MessagesFor(failures, ke) == me && MessagesFor(failures, ku) == mu
    requires MessagesFor(failures, other) == []
    requires mn != [] && ma != [] && me != [] && mu != []
    ensures var m := Accumulate(map[], failures);
            kn in m && m[kn] == mn && ka in m && m[ka] == ma && ke in m && m[ke] == me && ku in m && m[ku] == mu
            && other !in m
  {
    KeyFiled(failures, kn, mn);
    KeyFiled(failures, ka, ma);
    KeyFiled(failures, ke, me);
    KeyFiled(failures, ku, mu);
    KeyFiled(failures, other, []);
  }

  /** After one `validate` from an empty map, a key holds the messages filed under it, and is
      absent when there are none. */
  lemma KeyFiled(failures: seq<(string, string)>, key: string, messages: seq<string>)
    requires MessagesFor(failures, key) == messages
    ensures messages != [] ==> key in Accumulate(map[], failures) && Accumulate(map[], failures)[key] == messages
    ensures messages == [] ==> key !in Accumulate(map[], failures)
  {
    LookupAfterValidate(failures, key);
  }

  /** After one `validate` from an empty map, a key's list is the messages filed under it. */
  lemma LookupAfterValidate(failures: seq<(string, string)>, key: string)
    ensures Lookup(Accumulate(map[], failures), key) == MessagesFor(failures, key)
    ensures key in Accumulate(map[], failures) <==> MessagesFor(failures, key) != []
  {
    AccumulateLookup(map[], failures, key);
    EmptyPrefix(MessagesFor(failures, key));
  }

  /** The five property names differ (their lengths do). */
  lemma PropertyNamesDiffer()
    ensures "name" != "age" && "name" != "email" && "name" != "profileImageURL" && "age" != "email"
    ensures "age" != "profileImageURL" && "email" != "profileImageURL"
    ensures "creditCardNumber" != "name" && "creditCardNumber" != "age" && "creditCardNumber" != "email"
    ensures "creditCardNumber" != "profileImageURL"
  {
    assert |"name"| == 4 && |"age"| == 3 && |"email"| == 5 && |"profileImageURL"| == 15 && |"creditCardNumber"| == 16;
  }
}
