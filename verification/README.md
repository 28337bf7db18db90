# SwiftFluent in Dafny

SwiftFluent is a fluent validation library for Swift. A `Validator<Model>` holds an ordered list
of rules. A `ValidationRuleBuilder` holds one property's key path and the validator; its
checks (`length`, `email`, `lessThan`, `equal`, `notNil`, ...) append rules to the validator,
and `build()` hands the validator back. Whole-model checks on a `Validator<String>`,
`Validator<Equatable>` or `Validator<Optional>` append rules keyed by the model's type name.
`validate(model)` evaluates every rule in registration order. It overwrites `validationErrors`
with the messages of the failing rules, appends each message to `validationErrorsMap` under
the rule's property key, and returns `.valid` or `.invalid(errors:)`. `errorFor(keyPath:)`
reads the map back. Messages the caller does not supply come from the `ErrorMessage`
templates. The credit-card check keeps the digits, requires at least 13 of them, and applies
the Luhn formula. A property key is the last `.`-separated component of the key path's
description.

The model has one Dafny module per source file.
- `Validators.Validator` is a class. Its fields are the rule list, the error list and the
  error map. Its methods are `AddRule`, `Validate` (the loop of `validate`, proved against
  the functions `Failures`, `Messages`, `Outcome` and `Accumulate`), `ErrorFor`,
  `ErrorForAssign` and `ValidateCondition`.
- Each builder check is a method. It appends exactly one rule, which a function of the check's
  arguments describes: its key, its message and the values it accepts.
- The `Scenarios` module replays the library's default-message tests as client methods. It
  proves the exact error lists the tests expect.

## Model

| member | source | states |
|---|---|---|
| Wrappers.Last | SwiftFluent/Utilities/KeyPath+Extensions.swift:12 | `last` is present exactly when the sequence is non-empty, and is then its final element |
| KeyPaths.Split | SwiftFluent/Utilities/KeyPath+Extensions.swift:12 | `components(separatedBy:)` always yields at least one component |
| KeyPaths.SplitPartsHaveNoSeparator | SwiftFluent/Utilities/KeyPath+Extensions.swift:12 | no component contains the separator |
| KeyPaths.SplitLastIsSuffix | SwiftFluent/Utilities/KeyPath+Extensions.swift:12 | the last component is the whole string when it is the only one, otherwise the suffix that follows a separator |
| KeyPaths.SplitJoin | SwiftFluent/Utilities/KeyPath+Extensions.swift:12 | joining the components with the separator gives back the original string |
| KeyPaths.PropertyNameOf | SwiftFluent/Utilities/KeyPath+Extensions.swift:10-13 | `propertyName` holds no `.`, is a suffix of the description preceded by a `.` or the whole description, and is the last component; the `?? "Unknown"` branch is never taken |
| KeyPaths.NoDotIsWhole | SwiftFluent/Utilities/KeyPath+Extensions.swift:11-13 | a description without `.` is its own property name |
| KeyPaths.NameFollowsLastDot | SwiftFluent/Utilities/KeyPath+Extensions.swift:11-13 | the property name is everything after the last `.` |
| KeyPaths.NameAfterLastDot | SwiftFluent/Utilities/KeyPath+Extensions.swift:11-13 | `owner.name` yields `name` whatever the owner part holds |
| KeyPaths.UserNameExample | SwiftFluentTests/RuleForBuilderErrorTests.swift:19 | `\User.name` yields "name" |
| ValidationResults.IsValidIffValid | SwiftFluent/Validator/ValidationResult.swift:14-19 | `isValid` is true for `.valid` and false for every `.invalid`, even one with no messages |
| ValidationResults.IsValidIgnoresErrors | SwiftFluent/Validator/ValidationResult.swift:14-19 | `isValid` of an invalid result does not depend on its messages |
| ErrorMessages.DigitChar | SwiftFluent/Validator/ErrorMessage.swift:35-40 | a digit's character is the one whose code is `'0'` plus the digit |
| ErrorMessages.NatToString | SwiftFluent/Validator/ErrorMessage.swift:35-40 | the interpolated `Int` is a non-empty decimal numeral without leading zeros |
| ErrorMessages.IntToString | SwiftFluent/Validator/ErrorMessage.swift:35-40 | the interpolation starts with `-` exactly for negative values |
| ErrorMessages.NatToStringRoundTrip | SwiftFluent/Validator/ErrorMessage.swift:35-40 | reading the numeral back gives the number |
| ErrorMessages.IntToStringRoundTrip | SwiftFluent/Validator/ErrorMessage.swift:35-40 | reading the signed numeral back gives the integer |
| ErrorMessages.IntToStringInjective | SwiftFluent/Validator/ErrorMessage.swift:35-40 | different length bounds render differently |
| ErrorMessages.Tail | SwiftFluent/Validator/ErrorMessage.swift:35-64 | the text after each quoted name is non-empty and ends in a full stop |
| ErrorMessages.ErrorDescription | SwiftFluent/Validator/ErrorMessage.swift:33-67 | every message is non-empty, and ends in `.` exactly when it is not the default "Invalid property" |
| ErrorMessages.UpToQuoteOf | SwiftFluent/Validator/ErrorMessage.swift:35-64 | the text before a quote mark reads back as the quote-free name that precedes it |
| ErrorMessages.QuotedNameOf | SwiftFluent/Validator/ErrorMessage.swift:35-64 | the first quoted text of a message is the name between its two quote marks |
| ErrorMessages.QuoteFreeHasNoName | SwiftFluent/Validator/ErrorMessage.swift:65-66 | text without quote marks quotes no name |
| ErrorMessages.DescriptionNamesProperty | SwiftFluent/Validator/ErrorMessage.swift:35-64 | every non-default message quotes exactly its property name, so the name can be read back |
| ErrorMessages.DefaultNamesNothing | SwiftFluent/Validator/ErrorMessage.swift:65-66 | the default message quotes no property |
| ErrorMessages.DescriptionNameInjective | SwiftFluent/Validator/ErrorMessage.swift:33-67 | messages about differently named properties differ, whatever their kinds |
| ErrorMessages.LengthErrorExample | SwiftFluent/Validator/ErrorMessage.swift:35-36 | the length template with `name`, 2, 10 is "The length of ‘name’ must be between 2 and 10 characters." |
| StringExtensions.IsValidEmail | SwiftFluent/Utilities/String+Extensions.swift:13-18 | a custom pattern replaces the default email pattern; without one the default pattern decides |
| StringExtensions.TrimLeading | SwiftFluent/Utilities/String+Extensions.swift:29 | the result is a suffix, every removed character is whitespace, and the result does not start with whitespace |
| StringExtensions.TrimTrailing | SwiftFluent/Utilities/String+Extensions.swift:29 | the result is a prefix, every removed character is whitespace, and the result does not end with whitespace |
| StringExtensions.TrimEmptyIff | SwiftFluent/Utilities/String+Extensions.swift:29 | trimming `.whitespaces` leaves nothing exactly when every character is whitespace |
| StringExtensions.IsNotEmptyIff | SwiftFluent/Utilities/String+Extensions.swift:28-30 | `isNotEmpty` holds exactly when some character is not whitespace |
| StringExtensions.EmptyExample | SwiftFluent/Utilities/String+Extensions.swift:28-30 | "" is empty |
| StringExtensions.SpacesExample | SwiftFluentTests/SwiftFluentTests.swift:115-126 | "    " counts as empty |
| StringExtensions.NewlineExample | SwiftFluent/Utilities/String+Extensions.swift:28-30 | "\n" is not empty, because line breaks are not in `.whitespaces` |
| StringExtensions.TextExample | SwiftFluentTests/SwiftFluentTests.swift:128-139 | "not empty string" is not empty |
| KeyPaths.KeyPath.PropertyName | SwiftFluent/Utilities/KeyPath+Extensions.swift:11-13 | `propertyName` of a key path is `PropertyNameOf` its description; its properties are the `PropertyNameOf` lemmas |
| ValidationResults.ValidationResult.IsValid | SwiftFluent/Validator/ValidationResult.swift:14-19 | `isValid` is the `.valid` case test; `IsValidIffValid` and `IsValidIgnoresErrors` state it |
| StringExtensions.IsWhitespace | SwiftFluent/Utilities/String+Extensions.swift:29 | membership in `.whitespaces`: tab and the Unicode space separators (Zs) |
| StringExtensions.Trim | SwiftFluent/Utilities/String+Extensions.swift:29 | `trimmingCharacters(in: .whitespaces)` is trailing trimming after leading trimming; `TrimEmptyIff` states when it leaves nothing |
| StringExtensions.IsNotEmpty | SwiftFluent/Utilities/String+Extensions.swift:28-30 | `isEmpty == false` and the trimmed string not empty; `IsNotEmptyIff` states it as "some character is not whitespace" |
| CreditCard.IsValid | SwiftFluent/Validator/CreditCardValidator.swift:11-17 | at least 13 sanitised digits that pass the Luhn check; `ValidDigitsIff`, `IsValidIsAnnexB` and `CheckNumber` state it against the Annex B reference |
| CreditCard.PassesLuhn | SwiftFluent/Validator/CreditCardValidator.swift:19-31 | the loop's sum is a multiple of 10; `PassesLuhnIsAnnexB` proves it equal to the Annex B check |
| CreditCard.AnnexBSum | SwiftFluent/Validator/CreditCardValidator.swift:19-31 | the independent reference: the ISO/IEC 7812-1 Annex B sum read from the left, doubling every second digit from the right; `LuhnSumIsAnnexB` ties the loop to it |
| CreditCard.DigitValue | SwiftFluent/Validator/CreditCardValidator.swift:20 | a digit's value is at most 9 |
| CreditCard.Digits | SwiftFluent/Validator/CreditCardValidator.swift:13 | the sanitised number is no longer than the input and holds only digits |
| CreditCard.DigitsConcat | SwiftFluent/Validator/CreditCardValidator.swift:13 | sanitising distributes over concatenation |
| CreditCard.DigitsOfDigits | SwiftFluent/Validator/CreditCardValidator.swift:13 | a string of digits is left unchanged |
| CreditCard.Contribution | SwiftFluent/Validator/CreditCardValidator.swift:22-29 | each digit adds at most 9 to the sum, doubled or not |
| CreditCard.ReversedValues | SwiftFluent/Validator/CreditCardValidator.swift:20 | there is one value per digit, each at most 9 |
| CreditCard.LuhnSum | SwiftFluent/Validator/CreditCardValidator.swift:21-29 | the sum is at most 9 per digit |
| CreditCard.PassesLuhnAlgorithm | SwiftFluent/Validator/CreditCardValidator.swift:19-31 | the loop's verdict is the Luhn predicate on the digits |
| CreditCard.CheckNumber | SwiftFluent/Validator/CreditCardValidator.swift:11-17 | sanitise, count and loop agree with `IsValid` |
| CreditCard.Values | SwiftFluent/Validator/CreditCardValidator.swift:20 | there is one value per digit, each at most 9 |
| CreditCard.Reverse | SwiftFluent/Validator/CreditCardValidator.swift:20 | reversal keeps the length |
| CreditCard.LuhnSumIsAnnexB | SwiftFluent/Validator/CreditCardValidator.swift:19-31 | the right-to-left loop computes the ISO/IEC 7812-1 Annex B sum read from the left |
| CreditCard.ReversedValuesIsReverse | SwiftFluent/Validator/CreditCardValidator.swift:20 | `reversed().map` is the reverse of the digit values |
| CreditCard.PassesLuhnIsAnnexB | SwiftFluent/Validator/CreditCardValidator.swift:19-31 | the library's check is the Annex B check |
| CreditCard.ValidDigitsIff | SwiftFluent/Validator/CreditCardValidator.swift:11-17 | a string of digits is valid exactly when it has at least 13 digits and its Annex B sum is a multiple of 10 |
| CreditCard.SeparatorIgnored | SwiftFluent/Validator/CreditCardValidator.swift:13 | inserting a non-digit never changes the verdict |
| CreditCard.TooFewDigits | SwiftFluent/Validator/CreditCardValidator.swift:16 | fewer than 13 digits always fail |
| CreditCard.SingleDigitErrorDetected | SwiftFluent/Validator/CreditCardValidator.swift:19-31 | changing one digit of a passing number makes it fail |
| CreditCard.AnnexBDifference | SwiftFluent/Validator/CreditCardValidator.swift:22-29 | sums of numbers that differ in one digit differ by that digit's change in contribution |
| CreditCard.AmexExample | SwiftFluentTests/SwiftFluentTests.swift:474-485 | "374245455400126" is a valid card number |
| CreditCard.VisaExample | SwiftFluent/Validator/CreditCardValidator.swift:11-31 | "4111111111111111" is a valid card number |
| CreditCard.ThirteenDigitsFail | SwiftFluent/Validator/CreditCardValidator.swift:11-31 | "1234567890123" has 13 digits but fails the checksum |
| CreditCard.EmptyFails | SwiftFluentTests/SwiftFluentTests.swift:487-500 | "" is not a valid card number |
| CreditCard.IsValidIsAnnexB | SwiftFluent/Validator/CreditCardValidator.swift:11-31 | any string is valid exactly when it has at least 13 ASCII digits whose Annex B sum is a multiple of 10 |
| CreditCard.IntOfCharacter | SwiftFluent/Validator/CreditCardValidator.swift:20 | `Int(String(c))` converts exactly the characters '0' to '9', to a value at most 9 |
| CreditCard.NumericChars | SwiftFluent/Validator/CreditCardValidator.swift:13 | the filter keeps only characters `isNumber` accepts and never lengthens the input |
| CreditCard.IsValidAsWritten | SwiftFluent/Validator/CreditCardValidator.swift:11-31 | the check as written traps exactly when at least 13 characters are kept and one of them does not convert |
| CreditCard.NumericCharsOfAscii | SwiftFluent/Validator/CreditCardValidator.swift:13 | with an ASCII-only `isNumber`, the filter is the digit filter |
| CreditCard.AsWrittenAgreesOnAscii | SwiftFluent/Validator/CreditCardValidator.swift:11-31 | with an ASCII-only `isNumber`, the check as written never traps and agrees with `IsValid` |
| CreditCard.ArabicIndicZerosTrap | SwiftFluent/Validator/CreditCardValidator.swift:13-20 | thirteen U+0660 characters pass the count and trap in the conversion, where the corrected check rejects them |
| Validators.Report | SwiftFluent/Validator/Validator.swift:28-34 | a failing rule reports its own key and message, or `("", "Invalid result")` when its message is empty; a reported message is never empty |
| Validators.Failures | SwiftFluent/Validator/Validator.swift:25-34 | there is at most one report per rule, none exactly when every predicate holds, and no report has an empty message |
| Validators.Messages | SwiftFluent/Validator/Validator.swift:36 | the messages of the reports, position by position |
| Validators.Outcome | SwiftFluent/Validator/Validator.swift:47 | the result is valid exactly when nothing failed, and otherwise carries the failures' messages |
| Validators.Step | SwiftFluent/Validator/Validator.swift:39-44 | one pass of the loop appends the message to its key's list, adds the key if missing, and leaves every other key alone |
| Validators.MessagesFor | SwiftFluent/Validator/Validator.swift:38-45 | the messages filed under one key are no more than the reports |
| Validators.RulesFor | SwiftFluent/Validator/Validator.swift:38-45 | the rules selected for a key all report under that key |
| Validators.RuleMessages | SwiftFluent/Validator/ValidationRule.swift:11 | the messages of the rules, position by position |
| Validators.FailuresConcat | SwiftFluent/Validator/Validator.swift:25-34 | evaluating two batches reports the first batch's failures followed by the second's |
| Validators.FailuresOfOne | SwiftFluent/Validator/Validator.swift:25-34 | a single rule reports itself exactly when its predicate is false |
| Validators.EmptyMessageReportsDefault | SwiftFluent/Validator/Validator.swift:29-33 | a failing rule with an empty message is reported under key "" as "Invalid result" |
| Validators.ValidIffAllPass | SwiftFluent/Validator/Validator.swift:24-48 | `validate` returns `.valid` exactly when every registered predicate holds |
| Validators.NoRulesAcceptsAll | SwiftFluentTests/SwiftFluentTests.swift:12-17 | a validator without rules is valid for any model |
| Validators.Accumulate | SwiftFluent/Validator/Validator.swift:38-45 | the map after the loop over the failures, one `Step` per pair in order; `AccumulateLookup` states each key's list |
| Validators.AccumulateLookup | SwiftFluent/Validator/Validator.swift:38-45 | after the loop a key holds its old list followed by its new messages in order, and is present exactly when it was before or received a message |
| Validators.AccumulateGrows | SwiftFluent/Validator/Validator.swift:38-45 | the loop removes no key and only extends each existing list |
| Validators.AccumulateKeepsListsNonEmpty | SwiftFluent/Validator/Validator.swift:38-45 | the map never holds an empty list |
| Validators.RevalidateDuplicates | SwiftFluent/Validator/Validator.swift:38-45 | validating the same model twice files every message twice, because the map is never cleared |
| Validators.InterleavedRulesIgnored | SwiftFluent/Validator/Validator.swift:24-48 | a key's messages are those of the rules reporting under it, in registration order, whatever other rules are interleaved |
| Validators.AllFailUnderConcat | SwiftFluent/Validator/Validator.swift:25-34 | two batches that fail under one key fail together |
| Validators.FailingBatch | SwiftFluent/Validator/Validator.swift:24-48 | a batch that fails under one key yields its own messages in order, files them under that key, and files nothing under any other key |
| Validators.Validator.constructor | SwiftFluent/Validator/Validator.swift:10-17 | a new validator has no rules, no errors and an empty map |
| Validators.Validator.AddRule | SwiftFluent/Validator/Validator.swift:19-21 | the rule is appended at the end; the errors and the map are unchanged |
| Validators.Validator.Validate | SwiftFluent/Validator/Validator.swift:24-48 | the rules are unchanged, `validationErrors` holds the failures' messages, the map is the old map with the failures appended per key, and the result is the outcome of the failures |
| Validators.Validator.ErrorFor | SwiftFluent/Validator/Validator.swift:54-58 | there is a list exactly when the property's name is a key of the map, and it is that key's list |
| Validators.Validator.ErrorForAssign | SwiftFluent/Validator/Validator.swift:68-76 | the assigned text is the first message for the property, or "" when there is none; the validator itself is returned |
| Validators.Validator.ValidateCondition | SwiftFluent/Validator/Validator.swift:124-132 | appends one rule keyed by the type name, with the condition as its predicate and the given message or "Validation failed." |
| Validators.ConditionRule | SwiftFluent/Validator/Validator.swift:125-129 | the custom rule's key is the type name, its message the given one or "Validation failed.", and its predicate the condition |
| RuleBuilders.RuleFor | SwiftFluent/Validator/Validator.swift:98-100 | a builder on the given validator and key path; `BuildReturnsOwner` states what `build()` then returns |
| RuleBuilders.Builder.Build | SwiftFluent/Validator/RuleBuilder/ValidationRuleBuilder.swift:19-22 | `build()` hands back the builder's validator; `BuildReturnsOwner` states it for a builder from `RuleFor` |
| RuleBuilders.BuildReturnsOwner | SwiftFluent/Validator/RuleBuilder/ValidationRuleBuilder.swift:10-22 | `build()` on a builder from `ruleFor` returns the validator it was made on, and the builder targets the given key path |
| RuleBuilders.PropertyCheck | SwiftFluent/Validator/RuleBuilder/ValidationRuleBuilder.swift:32-35 | a property rule is keyed by the property name and applies its test to the property's value |
| RuleBuilders.ConditionOnProperty | SwiftFluent/Validator/RuleBuilder/ValidationRuleBuilder.swift:30-38 | the rule of `validate(_:condition:)` tests the property value, with the given message or "Invalid property" |
| RuleBuilders.Register | SwiftFluent/Validator/RuleBuilder/ValidationRuleBuilder.swift:36-37 | registering through a builder appends exactly that rule, leaves the errors alone and returns the same builder |
| RuleBuilders.Validate | SwiftFluent/Validator/RuleBuilder/ValidationRuleBuilder.swift:30-38 | appends the condition rule for the builder's property |
| StringRules.LengthRule | SwiftFluent/Validator/RuleBuilder/ValidationRuleBuilder+String.swift:105-115 | passes exactly when `min <= count <= max`, both ends included, with the length template as default message |
| StringRules.MaxLengthRule | SwiftFluent/Validator/RuleBuilder/ValidationRuleBuilder+String.swift:172-182 | passes exactly when `count <= max` |
| StringRules.MinLengthRule | SwiftFluent/Validator/RuleBuilder/ValidationRuleBuilder+String.swift:239-249 | passes exactly when `count >= min` |
| StringRules.EmailRule | SwiftFluent/Validator/RuleBuilder/ValidationRuleBuilder+String.swift:300-310 | passes exactly when `isValidEmail(customRegex:)` holds for the value |
| StringRules.CreditCardRule | SwiftFluent/Validator/RuleBuilder/ValidationRuleBuilder+String.swift:356-366 | passes exactly when `CreditCardValidator.isValid` holds for the value |
| StringRules.NumberRule | SwiftFluent/Validator/RuleBuilder/ValidationRuleBuilder+String.swift:419-429 | passes exactly when the number parser accepts the value |
| StringRules.UrlRule | SwiftFluent/Validator/RuleBuilder/ValidationRuleBuilder+String.swift:512-524 | passes exactly when `URL(string:)` accepts the value |
| StringRules.OptionalUrlRule | SwiftFluent/Validator/RuleBuilder/ValidationRuleBuilder+String.swift:465-478 | a nil value fails; a present one passes exactly when `URL(string:)` accepts it |
| StringRules.Range | SwiftFluent/Validator/RuleBuilder/ValidationRuleBuilder+String.swift:27-49 | appends the length rule over the closed range's bounds |
| StringRules.Length | SwiftFluent/Validator/RuleBuilder/ValidationRuleBuilder+String.swift:69-103 | appends the length rule |
| StringRules.MaxLength | SwiftFluent/Validator/RuleBuilder/ValidationRuleBuilder+String.swift:139-170 | appends the maximum-length rule |
| StringRules.MinLength | SwiftFluent/Validator/RuleBuilder/ValidationRuleBuilder+String.swift:206-237 | appends the minimum-length rule |
| StringRules.Email | SwiftFluent/Validator/RuleBuilder/ValidationRuleBuilder+String.swift:273-298 | appends the email rule |
| StringRules.CreditCardNumber | SwiftFluent/Validator/RuleBuilder/ValidationRuleBuilder+String.swift:331-354 | appends the credit-card rule |
| StringRules.Number | SwiftFluent/Validator/RuleBuilder/ValidationRuleBuilder+String.swift:389-417 | appends the number rule |
| StringRules.Url | SwiftFluent/Validator/RuleBuilder/ValidationRuleBuilder+String.swift:490-510 | appends the URL rule for a `String` property |
| StringRules.OptionalUrl | SwiftFluent/Validator/RuleBuilder/ValidationRuleBuilder+String.swift:443-463 | appends the URL rule for a `String?` property |
| StringRules.LengthIsMinAndMax | SwiftFluent/Validator/RuleBuilder/ValidationRuleBuilder+String.swift:105-249 | `length(min, max)` passes exactly when both `minLength(min)` and `maxLength(max)` pass |
| StringRules.InvertedLengthRejectsAll | SwiftFluent/Validator/RuleBuilder/ValidationRuleBuilder+String.swift:105-115 | bounds in the wrong order reject every value |
| ComparableRules.StringLess | SwiftFluent/Validator/RuleBuilder/ValidationRuleBuilder+Comparable.swift:64 | `String`'s `<`: lexicographic by character code, a proper prefix first; `StringLessTrichotomy` proves it a strict total order |
| ComparableRules.AtMost | SwiftFluent/Validator/RuleBuilder/ValidationRuleBuilder+Comparable.swift:123 | `a <= b` as `Comparable` derives it, `!(b < a)`; `LessThanComplementsAtLeast` and `IntOperators` use it |
| ComparableRules.Above | SwiftFluent/Validator/RuleBuilder/ValidationRuleBuilder+Comparable.swift:181 | `a > b` as `Comparable` derives it, `b < a`; `IntOperators` states it for `Int` |
| ComparableRules.AtLeast | SwiftFluent/Validator/RuleBuilder/ValidationRuleBuilder+Comparable.swift:240 | `a >= b` as `Comparable` derives it, `!(a < b)`; `IntOperators` states it for `Int` |
| ComparableRules.StringLessTrichotomy | SwiftFluent/Validator/RuleBuilder/ValidationRuleBuilder+Comparable.swift:64 | `String`'s `<` is irreflexive, asymmetric and total on different strings |
| ComparableRules.LessThanRule | SwiftFluent/Validator/RuleBuilder/ValidationRuleBuilder+Comparable.swift:59-67 | passes exactly when `value < max`, with the bound rendered in the default message |
| ComparableRules.LessThanOrEqualToRule | SwiftFluent/Validator/RuleBuilder/ValidationRuleBuilder+Comparable.swift:118-126 | passes exactly when `value <= max` |
| ComparableRules.GreaterThanRule | SwiftFluent/Validator/RuleBuilder/ValidationRuleBuilder+Comparable.swift:176-184 | passes exactly when `value > min` |
| ComparableRules.GreaterThanOrEqualToRule | SwiftFluent/Validator/RuleBuilder/ValidationRuleBuilder+Comparable.swift:235-243 | passes exactly when `value >= min` |
| ComparableRules.LessThan | SwiftFluent/Validator/RuleBuilder/ValidationRuleBuilder+Comparable.swift:32-57 | appends the less-than rule |
| ComparableRules.LessThanOrEqualTo | SwiftFluent/Validator/RuleBuilder/ValidationRuleBuilder+Comparable.swift:91-116 | appends the at-most rule |
| ComparableRules.GreaterThan | SwiftFluent/Validator/RuleBuilder/ValidationRuleBuilder+Comparable.swift:149-174 | appends the greater-than rule |
| ComparableRules.GreaterThanOrEqualTo | SwiftFluent/Validator/RuleBuilder/ValidationRuleBuilder+Comparable.swift:208-233 | appends the at-least rule |
| ComparableRules.LessThanComplementsAtLeast | SwiftFluent/Validator/RuleBuilder/ValidationRuleBuilder+Comparable.swift:59-67 | for one bound exactly one of `lessThan` and `greaterThanOrEqualTo` passes |
| ComparableRules.AtMostComplementsGreaterThan | SwiftFluent/Validator/RuleBuilder/ValidationRuleBuilder+Comparable.swift:118-126 | for one bound exactly one of `lessThanOrEqualTo` and `greaterThan` passes |
| ComparableRules.IntOperators | SwiftFluent/Validator/RuleBuilder/ValidationRuleBuilder+Comparable.swift:123 | for `Int` the derived `<=`, `>` and `>=` are the integer ones |
| ComparableRules.AgeLessThanZeroExample | SwiftFluentTests/RuleForBuilderErrorTests.swift:31-32 | `lessThan(0)` on age 20 fails with "‘age’ must be less than 0." |
| EquatableRules.EqualRule | SwiftFluent/Validator/RuleBuilder/ValidationRuleBuilder+Equatable.swift:57-65 | passes exactly when the type's `==` (the `equals` parameter) holds between the property and the operand |
| EquatableRules.NotEqualRule | SwiftFluent/Validator/RuleBuilder/ValidationRuleBuilder+Equatable.swift:116-124 | passes exactly when the type's `==` does not hold between the property and the operand, `!=` being `!(==)` |
| EquatableRules.Equal | SwiftFluent/Validator/RuleBuilder/ValidationRuleBuilder+Equatable.swift:30-55 | appends the equality rule |
| EquatableRules.NotEqual | SwiftFluent/Validator/RuleBuilder/ValidationRuleBuilder+Equatable.swift:89-114 | appends the inequality rule |
| EquatableRules.EqualComplementsNotEqual | SwiftFluent/Validator/RuleBuilder/ValidationRuleBuilder+Equatable.swift:57-124 | for one operand and any `==`, exactly one of `equal` and `notEqual` passes |
| CollectionRules.NotEmptyRule | SwiftFluent/Validator/RuleBuilder/ValidationRuleBuilder+Collection.swift:56-64 | passes exactly when the collection has an element |
| CollectionRules.NotEmpty | SwiftFluent/Validator/RuleBuilder/ValidationRuleBuilder+Collection.swift:30-54 | appends the non-empty rule |
| CollectionRules.WhitespaceStringPasses | SwiftFluent/Validator/RuleBuilder/ValidationRuleBuilder+Collection.swift:61 | a property holding "    " passes, because only `isEmpty` is consulted |
| OptionalRules.NotNilRule | SwiftFluent/Validator/RuleBuilder/ValidationRuleBuilder+OptionalType.swift:56-64 | passes exactly when the property value is present |
| OptionalRules.NotNil | SwiftFluent/Validator/RuleBuilder/ValidationRuleBuilder+OptionalType.swift:30-54 | appends the presence rule |
| StringValidators.EmailModelRule | SwiftFluent/Validator/Validator+String.swift:22-30 | keyed by the type name; passes exactly when `isValidEmail(customRegex:)` holds |
| StringValidators.CreditCardModelRule | SwiftFluent/Validator/Validator+String.swift:48-56 | keyed by the type name; passes exactly when the credit-card check holds |
| StringValidators.NumberModelRule | SwiftFluent/Validator/Validator+String.swift:59-67 | keyed by the type name; passes exactly when the number parser accepts the string |
| StringValidators.NotEmptyModelRule | SwiftFluent/Validator/Validator+String.swift:84-92 | keyed by the type name; passes exactly when some character is not whitespace |
| StringValidators.LengthModelRule | SwiftFluent/Validator/Validator+String.swift:109-117 | keyed by the type name; passes exactly when `min <= count < max`, the upper bound excluded |
| StringValidators.MinLengthModelRule | SwiftFluent/Validator/Validator+String.swift:133-141 | keyed by the type name; passes exactly when `count >= length` |
| StringValidators.MaxLengthModelRule | SwiftFluent/Validator/Validator+String.swift:157-165 | keyed by the type name; passes exactly when `count <= length` |
| StringValidators.Email | SwiftFluent/Validator/Validator+String.swift:22-30 | appends the email rule to the validator |
| StringValidators.CreditCardNumber | SwiftFluent/Validator/Validator+String.swift:48-56 | appends the credit-card rule |
| StringValidators.Number | SwiftFluent/Validator/Validator+String.swift:59-67 | appends the number rule |
| StringValidators.NotEmpty | SwiftFluent/Validator/Validator+String.swift:84-92 | appends the whitespace-aware non-empty rule |
| StringValidators.Length | SwiftFluent/Validator/Validator+String.swift:109-117 | appends the exclusive-upper-bound length rule |
| StringValidators.MinLength | SwiftFluent/Validator/Validator+String.swift:133-141 | appends the minimum-length rule |
| StringValidators.MaxLength | SwiftFluent/Validator/Validator+String.swift:157-165 | appends the maximum-length rule |
| StringValidators.LengthUpperBoundDiffers | SwiftFluent/Validator/Validator+String.swift:113 | the whole-string and property `length` checks disagree exactly when the count equals `max` and `min <= max` |
| StringValidators.NotEmptyDiffers | SwiftFluent/Validator/Validator+String.swift:88 | the whole-string and collection `notEmpty` checks disagree exactly on non-empty all-whitespace strings |
| StringValidators.NotEmptyRejectsBlank | SwiftFluentTests/SwiftFluentTests.swift:115-126 | `notEmpty` fails on "" and on "    " |
| EquatableValidators.NotEqualModelRule | SwiftFluent/Validator/Validator+Equatable.swift:23-31 | keyed by the type name; passes exactly when the model type's `==` does not hold between the model and the operand |
| EquatableValidators.EqualModelRule | SwiftFluent/Validator/Validator+Equatable.swift:45-53 | keyed by the type name; passes exactly when the model type's `==` holds between the model and the operand |
| EquatableValidators.NotEqual | SwiftFluent/Validator/Validator+Equatable.swift:23-31 | appends the inequality rule |
| EquatableValidators.Equal | SwiftFluent/Validator/Validator+Equatable.swift:45-53 | appends the equality rule |
| EquatableValidators.EqualNilExample | SwiftFluentTests/SwiftFluentTests.swift:284-295 | on an optional model, under `Optional`'s `==`, `equal(nil)` passes for nil and fails for a present value whatever the wrapped type's `==` |
| EquatableValidators.EqualComplementsNotEqual | SwiftFluent/Validator/Validator+Equatable.swift:23-53 | for one operand and any `==`, exactly one of `equal` and `notEqual` passes |
| OptionalValidators.IsNotNil | SwiftFluent/Validator/Validator+OptionalType.swift:50-52 | `isNotNil` is `self != nil`; `IsNotNilIffSome` states it |
| OptionalValidators.Value | SwiftFluent/Validator/Validator+OptionalType.swift:54-56 | `value` is the optional itself; `IsNotNilIffSome` relates it to `isNotNil` |
| OptionalValidators.IsNotNilIffSome | SwiftFluent/Validator/Validator+OptionalType.swift:42-56 | `isNotNil` is presence and agrees with `value` being non-nil |
| OptionalValidators.NotNilModelRule | SwiftFluent/Validator/Validator+OptionalType.swift:30-38 | keyed by the type name; passes exactly when the model is present |
| OptionalValidators.NotNil | SwiftFluent/Validator/Validator+OptionalType.swift:30-38 | appends the presence rule |
| Scenarios.StringChecksFail | SwiftFluentTests/BaseTypeDefaultErrorMessageTests.swift:19-26 | the seven `String` checks all fail on a short non-email value with few digits, each with its default message naming the type |
| Scenarios.AddStringChecks | SwiftFluentTests/BaseTypeDefaultErrorMessageTests.swift:19-26 | registers the seven checks in the test's order |
| Scenarios.StringTypeDefaults | SwiftFluentTests/BaseTypeDefaultErrorMessageTests.swift:41-80 | validating "some value" gives the seven default messages for `String` in registration order, and an invalid result carrying them |
| Scenarios.BlankStringDefault | SwiftFluentTests/BaseTypeDefaultErrorMessageTests.swift:28-81 | `notEmpty` on "" gives exactly its default message |
| Scenarios.NilDefault | SwiftFluentTests/BaseTypeDefaultErrorMessageTests.swift:38-83 | `notNil` on nil gives exactly the default message naming `Optional<String>` |
| Scenarios.EmptyValidatorAccepts | SwiftFluentTests/SwiftFluentTests.swift:12-17 | a validator without rules returns `.valid` and records no error |
| Scenarios.NameRulesFail | SwiftFluentTests/RuleForBuilderErrorTests.swift:18-30 | the eleven `name` checks all fail on "a name", and their messages are the test's expected list |
| Scenarios.AgeRulesFail | SwiftFluentTests/RuleForBuilderErrorTests.swift:31-36 | the five `age` checks all fail on 20, and their messages are the test's expected list |
| Scenarios.ChainNameRules | SwiftFluentTests/RuleForBuilderErrorTests.swift:18-30 | the `name` chain appends its eleven rules in order |
| Scenarios.ChainAgeRules | SwiftFluentTests/RuleForBuilderErrorTests.swift:31-36 | the `age` chain appends its five rules in order |
| Scenarios.BuildUserValidator | SwiftFluentTests/RuleForBuilderErrorTests.swift:16-41 | the chained registrations leave the name, age, email and URL rules in order, and an empty map |
| Scenarios.UserDefaults | SwiftFluentTests/RuleForBuilderErrorTests.swift:13-106 | after one `validate`, `errorFor` returns each property's default messages in registration order, nil for a property without rules, and the email's first message through `assign` |
| Scenarios.FiledInOwnBatch | SwiftFluent/Validator/Validator.swift:38-45 | when each batch fails entirely under its own, distinct key, batch `i`'s key receives exactly batch `i`'s messages in order |
| Scenarios.FiledInNoBatch | SwiftFluent/Validator/Validator.swift:38-45 | a key that none of the batches reports under receives no message |
| Scenarios.FilesPerKey | SwiftFluent/Validator/Validator.swift:38-45 | four failing batches for four distinct keys file each batch's messages under its key, and nothing under a fifth key |
| Scenarios.LookupAfterValidate | SwiftFluent/Validator/Validator.swift:38-45 | after one `validate` from an empty map, a key holds exactly the messages filed under it, and is present exactly when there are some |

## Left out

- `validationErrorsMap` is appended to and never cleared
  (SwiftFluent/Validator/Validator.swift:38-45), so repeated `validate` calls accumulate
  entries; `Validators.RevalidateDuplicates` states the consequence.
- The whole-string `length` on `Validator<String>` excludes its upper bound, as its doc remark
  says (SwiftFluent/Validator/Validator+String.swift:106, 113), while the builder's `length`
  includes it (SwiftFluent/Validator/RuleBuilder/ValidationRuleBuilder+String.swift:105-115).
  The model keeps both; `StringValidators.LengthUpperBoundDiffers` states the difference.
- The message templates quote names with ‘ ’, with ' on both sides for email, and with ‘ on
  both sides for the credit-card, number and URL templates
  (SwiftFluent/Validator/ErrorMessage.swift:35-66). The model keeps each template's marks.
- The regular-expression match behind `isValidEmail`, the locale-dependent `NumberFormatter`
  behind `isNumber` (SwiftFluent/Utilities/String+Extensions.swift:20-24) and `URL(string:)`
  are Foundation code outside the library. They are parameters (`matches`, `isNumber`,
  `parsesAsUrl`). The scenarios take the non-match of "a name" and "some value" against the
  default email pattern as a hypothesis.
- `NSLocalizedString` is the identity: messages are the English templates.
- `String(describing:)` of a type, of a bound or of an operand is an input: the validator's
  `typeName` and the `describe` parameters. A key path's description is a field of `KeyPath`.
- `Character.isNumber` in the credit-card filter also accepts non-ASCII numerals, on which
  the source's `Int(String($0))!` traps (see "## Findings"). `CreditCard.IsValid` and the
  validators built on it keep only '0' to '9'; `CreditCard.IsValidAsWritten` models the
  filter as written, with `isNumber` as a parameter.
- `String.count` counts grapheme clusters. Here a string is a sequence of `char`, so `count`
  is the number of Unicode scalars.
- An `Equatable` conformance is its `==`, passed as `equals`, so `String`'s canonical
  equivalence and hand-written `==` implementations are covered. The scenarios pass
  `Scenarios.StringEquals`, character-by-character equality, which agrees with canonical
  equivalence on the ASCII operands the tests use.
- `String`'s `<` is modelled as lexicographic order by character code, without Unicode
  canonical equivalence.
- `Int` is unbounded here. No bound or value in the modelled code is combined arithmetically
  except the Luhn sum, which cannot overflow for a string the filter produces.
- Each check's two Swift overloads (one returning the builder, one returning the validator)
  register the same rule. Each is one method returning the builder; `Builder.Build` gives the
  validator.
- The `errorMessage` thunk of `ValidationRule` becomes the constant pair it always returns.
- `StringRules.Range` requires `lower <= upper`, which Swift's `ClosedRange` enforces before
  the call.
- RuleBuilders.RuleFor: the source's `ruleFor` (SwiftFluent/Validator/Validator.swift:98-100)
  returns a `RuleForBuilder`; the model returns the `ValidationRuleBuilder` model instead,
  because the `RuleForBuilder` lineage is inconsistent with the rest of the code and lacks the
  `minLength`, `creditCard` and `greaterThanOrEqualTo` checks the tests chain on it.
- ComparableRules.LessThanOrEqualToRule, ComparableRules.GreaterThanRule,
  ComparableRules.GreaterThanOrEqualToRule, ComparableRules.LessThanComplementsAtLeast and
  ComparableRules.AtMostComplementsGreaterThan assume the conformance's `<=`, `>` and `>=`
  are `Comparable`'s default ones derived from `<` (`AtMost`, `Above`, `AtLeast`). Types that
  implement their own operators, such as `Double` with NaN (where `NaN >= 5` and `NaN < 5`
  are both false), are not modelled, and for them the complement lemmas would not hold.
- The `RuleForBuilder` family, `Validator+RuleFor.swift` and `Validator+Comparable.swift` are
  not part of this model. The `intValidator` part of the default-message test depends on
  `Validator+Comparable.swift`, so only its `String` and `String?` parts are modelled.

## Findings

| source | as written | input that shows it | evidently intended | confidence | as-written member | corrected member |
|---|---|---|---|---|---|---|
| SwiftFluent/Validator/CreditCardValidator.swift:13-20 | the number is sanitised with `filter { $0.isNumber }`, which keeps every Unicode numeral, and each kept character is then force-converted with `Int(String($0))!`, which is nil for all but '0' to '9' | thirteen ARABIC-INDIC DIGIT ZERO characters (U+0660) | keep only the ASCII digits, so such input is simply rejected | high, not executed | CreditCard.ArabicIndicZerosTrap | CreditCard.IsValidIsAnnexB |
