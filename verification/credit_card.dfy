/** The credit-card check (SwiftFluent/Validator/CreditCardValidator.swift): keep the digits,
    require at least 13 of them, and apply the Luhn check-digit formula of ISO/IEC 7812-1,
    Annex B. */
module CreditCard {
  import opened Wrappers

  /** The characters the sanitising filter keeps. Only '0'..'9' are modelled. */
  predicate IsDigit(c: char) {
    '0' <= c <= '9'
  }

  predicate AllDigits(s: string) {
    forall i :: 0 <= i < |s| ==> IsDigit(s[i])
  }

  /** `Int(String(c))!` for a digit. */
  function DigitValue(c: char): (d: nat)
    requires IsDigit(c)
    ensures d <= 9
  {
    c as int - '0' as int
  }

  /** `filter { $0.isNumber }`: the digits of `s`, in order. */
  function Digits(s: string): (r: string)
    ensures |r| <= |s|
    ensures AllDigits(r)
  {
    if s == [] then [] else (if IsDigit(s[0]) then [s[0]] else []) + Digits(s[1..])
  }

  lemma {:induction false} DigitsConcat(a: string, b: string)
    ensures Digits(a + b) == Digits(a) + Digits(b)
    decreases |a|
  {
    if a != [] {
      assert (a + b)[1..] == a[1..] + b;
      DigitsConcat(a[1..], b);
    } else {
      assert a + b == b;
    }
  }

  /** A string of digits is its own sanitised form. */
  lemma {:induction false} DigitsOfDigits(s: string)
    requires AllDigits(s)
    ensures Digits(s) == s
  {
    if s != [] {
      DigitsOfDigits(s[1..]);
    }
  }

  predicate SmallDigits(ds: seq<nat>) {
    forall i :: 0 <= i < |ds| ==> ds[i] <= 9
  }

  /** What a digit adds to the sum when it sits `index` places from the right: digits at odd
      index are doubled, less 9 when the double exceeds 9. */
  function Contribution(digit: nat, index: nat): (r: nat)
    ensures digit <= 9 ==> r <= 9
  {
    if index % 2 == 1 then
      var doubled := digit * 2;
      if doubled > 9 then doubled - 9 else doubled
    else
      digit
  }

  /** `reversed().map { Int(String($0))! }`: element `i` is the digit `i` places from the right. */
  function ReversedValues(s: string): (ds: seq<nat>)
    requires AllDigits(s)
    ensures |ds| == |s| && SmallDigits(ds)
  {
    seq(|s|, i requires 0 <= i < |s| => DigitValue(s[|s| - 1 - i]))
  }

  /** The loop's sum over the first `|ds|` positions of the reversed digits. */
  function LuhnSum(ds: seq<nat>): (sum: nat)
    requires SmallDigits(ds)
    ensures sum <= 9 * |ds|
  {
    if ds == [] then 0 else LuhnSum(ds[..|ds| - 1]) + Contribution(ds[|ds| - 1], |ds| - 1)
  }

  /** `passesLuhnAlgorithm` as a value: the sum is a multiple of 10. */
  predicate PassesLuhn(s: string)
    requires AllDigits(s)
  {
    LuhnSum(ReversedValues(s)) % 10 == 0
  }

  /** `CreditCardValidator.isValid`. */
  predicate IsValid(creditCardNumber: string) {
    var sanitized := Digits(creditCardNumber);
    |sanitized| >= 13 && PassesLuhn(sanitized)
  }

  /** `passesLuhnAlgorithm`, with its loop. */
  method PassesLuhnAlgorithm(creditCardNumber: string) returns (ok: bool)
    requires AllDigits(creditCardNumber)
    ensures ok == PassesLuhn(creditCardNumber)
  {
    var reversedDigits := ReversedValues(creditCardNumber);
    var sum := 0;
    for index := 0 to |reversedDigits|
      invariant sum == LuhnSum(reversedDigits[..index])
    {
      var digit := reversedDigits[index];
      assert reversedDigits[..index + 1][..index] == reversedDigits[..index];
      if index % 2 == 1 {
        var doubledDigit := digit * 2;
        sum := sum + if doubledDigit > 9 then doubledDigit - 9 else doubledDigit;
      } else {
        sum := sum + digit;
      }
    }
    assert reversedDigits[..|reversedDigits|] == reversedDigits;
    ok := sum % 10 == 0;
  }

  /** `isValid` run as the source runs it: sanitise, count, then the Luhn loop. */
  method CheckNumber(creditCardNumber: string) returns (ok: bool)
    ensures ok == IsValid(creditCardNumber)
  {
    var sanitized := Digits(creditCardNumber);
    if |sanitized| >= 13 {
      ok := PassesLuhnAlgorithm(sanitized);
    } else {
      ok := false;
    }
  }

  // ---- The formula as ISO/IEC 7812-1, Annex B states it, from the left ----

  function Values(s: string): (ds: seq<nat>)
    requires AllDigits(s)
    ensures |ds| == |s| && SmallDigits(ds)
  {
    seq(|s|, i requires 0 <= i < |s| => DigitValue(s[i]))
  }

  /** The Annex B sum over digits read from the left: the digit at position `j` of `n` digits
      is weighted by its distance `n - 1 - j` from the check digit. */
  function AnnexBSum(ds: seq<nat>): nat
  {
    if ds == [] then 0 else Contribution(ds[0], |ds| - 1) + AnnexBSum(ds[1..])
  }

  function Reverse(ds: seq<nat>): (r: seq<nat>)
    ensures |r| == |ds|
  {
    seq(|ds|, i requires 0 <= i < |ds| => ds[|ds| - 1 - i])
  }

  /** The right-to-left loop computes the Annex B sum. */
  lemma {:induction false} LuhnSumIsAnnexB(ds: seq<nat>)
    requires SmallDigits(ds)
    ensures SmallDigits(Reverse(ds)) && LuhnSum(Reverse(ds)) == AnnexBSum(ds)
    decreases |ds|
  {
    if ds != [] {
      var rest := ds[1..];
      LuhnSumIsAnnexB(rest);
      var r := Reverse(ds);
      assert r[..|r| - 1] == Reverse(rest);
      assert r[|r| - 1] == ds[0];
    }
  }

  lemma ReversedValuesIsReverse(s: string)
    requires AllDigits(s)
    ensures ReversedValues(s) == Reverse(Values(s))
  {
  }

  /** `PassesLuhn` agrees with the Annex B formulation. */
  lemma PassesLuhnIsAnnexB(s: string)
    requires AllDigits(s)
    ensures PassesLuhn(s) <==> AnnexBSum(Values(s)) % 10 == 0
  {
    ReversedValuesIsReverse(s);
    LuhnSumIsAnnexB(Values(s));
  }

  // ---- Properties ----

  /** For a string of digits, validity is the length bound and the Annex B sum. */
  lemma ValidDigitsIff(s: string)
    requires AllDigits(s)
    ensures IsValid(s) <==> |s| >= 13 && AnnexBSum(Values(s)) % 10 == 0
  {
    DigitsOfDigits(s);
    PassesLuhnIsAnnexB(s);
  }

  /** Separators (any non-digit) never change the verdict. */
  lemma SeparatorIgnored(a: string, c: char, b: string)
    requires !IsDigit(c)
    ensures IsValid(a + [c] + b) == IsValid(a + b)
  {
    assert [c][1..] == [];
    assert Digits([c]) == [];
    DigitsConcat(a, [c]);
    assert Digits(a + [c]) == Digits(a);
    DigitsConcat(a + [c], b);
    DigitsConcat(a, b);
  }

  /** Fewer than 13 digits always fail, whatever the checksum. */
  lemma TooFewDigits(s: string)
    requires |Digits(s)| < 13
    ensures !IsValid(s)
  {
  }

  /** Changing a single digit of a number that passes makes it fail: the Luhn formula detects
      every single-digit error. */
  lemma {:induction false} SingleDigitErrorDetected(a: seq<nat>, b: seq<nat>, j: nat)
    requires SmallDigits(a) && SmallDigits(b) && |a| == |b| && j < |a|
    requires a[j] != b[j]
    requires forall i :: 0 <= i < |a| && i != j ==> a[i] == b[i]
    ensures AnnexBSum(a) % 10 == 0 ==> AnnexBSum(b) % 10 != 0
  {
    var w := |a| - 1 - j;
    AnnexBDifference(a, b, j);
    ContributionInjective(a[j], b[j], w);
    var x: int, y: int := AnnexBSum(a), AnnexBSum(b);
    var d: int := Contribution(a[j], w) - Contribution(b[j], w);
    assert a[j] <= 9 && b[j] <= 9;
    assert x - y == d && -9 <= d <= 9 && d != 0;
    NoTwoMultiplesOfTenThatClose(x, y);
  }

  lemma NoTwoMultiplesOfTenThatClose(x: int, y: int)
    requires x != y && -9 <= x - y <= 9
    ensures x % 10 == 0 ==> y % 10 != 0
  {
    assert x == 10 * (x / 10) + x % 10;
    assert y == 10 * (y / 10) + y % 10;
  }

  lemma {:induction false} AnnexBDifference(a: seq<nat>, b: seq<nat>, j: nat)
    requires SmallDigits(a) && SmallDigits(b) && |a| == |b| && j < |a|
    requires forall i :: 0 <= i < |a| && i != j ==> a[i] == b[i]
    ensures AnnexBSum(a) - AnnexBSum(b)
         == Contribution(a[j], |a| - 1 - j) - Contribution(b[j], |a| - 1 - j)
    decreases |a|
  {
    if j == 0 {
      assert a[1..] == b[1..];
    } else {
      AnnexBDifference(a[1..], b[1..], j - 1);
    }
  }

  lemma ContributionInjective(d: nat, e: nat, index: nat)
    requires d <= 9 && e <= 9 && d != e
    ensures Contribution(d, index) != Contribution(e, index)
  {
  }

  // ---- Examples ----

  /** One step of the Annex B sum over a suffix. */
  lemma AnnexBStep(ds: seq<nat>, k: nat)
    requires k < |ds|
    ensures AnnexBSum(ds[k..]) == Contribution(ds[k], |ds| - 1 - k) + AnnexBSum(ds[k + 1..])
  {
    assert ds[k..][1..] == ds[k + 1..];
  }

  lemma AmexExampleSumOf(ds: seq<nat>)
    requires |ds| == 15
    requires ds[0] == 3 && ds[1] == 7 && ds[2] == 4 && ds[3] == 2 && ds[4] == 4 && ds[5] == 5 && ds[6] == 4 && ds[7] == 5 && ds[8] == 5 && ds[9] == 4 && ds[10] == 0 && ds[11] == 0 && ds[12] == 1 && ds[13] == 2 && ds[14] == 6
    ensures AnnexBSum(ds) == 50
  {
    assert ds[15..] == [];
    AnnexBStep(ds, 14);
    AnnexBStep(ds, 13);
    AnnexBStep(ds, 12);
    AnnexBStep(ds, 11);
    AnnexBStep(ds, 10);
    AnnexBStep(ds, 9);
    AnnexBStep(ds, 8);
    AnnexBStep(ds, 7);
    AnnexBStep(ds, 6);
    AnnexBStep(ds, 5);
    AnnexBStep(ds, 4);
    AnnexBStep(ds, 3);
    AnnexBStep(ds, 2);
    AnnexBStep(ds, 1);
    AnnexBStep(ds, 0);
    assert ds[0..] == ds;
  }

  lemma AmexExampleSum()
    ensures AnnexBSum([3, 7, 4, 2, 4, 5, 4, 5, 5, 4, 0, 0, 1, 2, 6]) == 50
  {
    AmexExampleSumOf([3, 7, 4, 2, 4, 5, 4, 5, 5, 4, 0, 0, 1, 2, 6]);
  }

  lemma AmexExampleDigits()
    ensures AllDigits("374245455400126") && Values("374245455400126") == [3, 7, 4, 2, 4, 5, 4, 5, 5, 4, 0, 0, 1, 2, 6]
  {
  }

  lemma AmexExample()
    ensures IsValid("374245455400126")
  {
    var s := "374245455400126";
    AmexExampleDigits();
    ValidDigitsIff(s);
    AmexExampleSum();
  }

  lemma VisaExampleSumOf(ds: seq<nat>)
    requires |ds| == 16
    requires ds[0] == 4 && ds[1] == 1 && ds[2] == 1 && ds[3] == 1 && ds[4] == 1 && ds[5] == 1 && ds[6] == 1 && ds[7] == 1 && ds[8] == 1 && ds[9] == 1 && ds[10] == 1 && ds[11] == 1 && ds[12] == 1 && ds[13] == 1 && ds[14] == 1 && ds[15] == 1
    ensures AnnexBSum(ds) == 30
  {
    assert ds[16..] == [];
    AnnexBStep(ds, 15);
    AnnexBStep(ds, 14);
    AnnexBStep(ds, 13);
    AnnexBStep(ds, 12);
    AnnexBStep(ds, 11);
    AnnexBStep(ds, 10);
    AnnexBStep(ds, 9);
    AnnexBStep(ds, 8);
    AnnexBStep(ds, 7);
    AnnexBStep(ds, 6);
    AnnexBStep(ds, 5);
    AnnexBStep(ds, 4);
    AnnexBStep(ds, 3);
    AnnexBStep(ds, 2);
    AnnexBStep(ds, 1);
    AnnexBStep(ds, 0);
    assert ds[0..] == ds;
  }

  lemma VisaExampleSum()
    ensures AnnexBSum([4, 1, 1, 1, 1, 1, 1, 1, 1, 1, 1, 1, 1, 1, 1, 1]) == 30
  {
    VisaExampleSumOf([4, 1, 1, 1, 1, 1, 1, 1, 1, 1, 1, 1, 1, 1, 1, 1]);
  }

  lemma VisaExampleDigits()
    ensures AllDigits("4111111111111111") && Values("4111111111111111") == [4, 1, 1, 1, 1, 1, 1, 1, 1, 1, 1, 1, 1, 1, 1, 1]
  {
  }

  lemma VisaExample()
    ensures IsValid("4111111111111111")
  {
    var s := "4111111111111111";
    VisaExampleDigits();
    ValidDigitsIff(s);
    VisaExampleSum();
  }

  lemma ThirteenDigitsFailSumOf(ds: seq<nat>)
    requires |ds| == 13
    requires ds[0] == 1 && ds[1] == 2 && ds[2] == 3 && ds[3] == 4 && ds[4] == 5 && ds[5] == 6 && ds[6] == 7 && ds[7] == 8 && ds[8] == 9 && ds[9] == 0 && ds[10] == 1 && ds[11] == 2 && ds[12] == 3
    ensures AnnexBSum(ds) == 55
  {
    assert ds[13..] == [];
    AnnexBStep(ds, 12);
    AnnexBStep(ds, 11);
    AnnexBStep(ds, 10);
    AnnexBStep(ds, 9);
    AnnexBStep(ds, 8);
    AnnexBStep(ds, 7);
    AnnexBStep(ds, 6);
    AnnexBStep(ds, 5);
    AnnexBStep(ds, 4);
    AnnexBStep(ds, 3);
    AnnexBStep(ds, 2);
    AnnexBStep(ds, 1);
    AnnexBStep(ds, 0);
    assert ds[0..] == ds;
  }

  lemma ThirteenDigitsFailSum()
    ensures AnnexBSum([1, 2, 3, 4, 5, 6, 7, 8, 9, 0, 1, 2, 3]) == 55
  {
    ThirteenDigitsFailSumOf([1, 2, 3, 4, 5, 6, 7, 8, 9, 0, 1, 2, 3]);
  }

  lemma ThirteenDigitsFailDigits()
    ensures AllDigits("1234567890123") && Values("1234567890123") == [1, 2, 3, 4, 5, 6, 7, 8, 9, 0, 1, 2, 3]
  {
  }

  lemma ThirteenDigitsFail()
    ensures !IsValid("1234567890123")
  {
    var s := "1234567890123";
    ThirteenDigitsFailDigits();
    ThirteenDigitsFailSum();
    assert AnnexBSum(Values(s)) % 10 == 5;
    ValidDigitsIff(s);
  }

  lemma EmptyFails()
    ensures !IsValid("")
  {
  }

  /** Every string is judged by its ASCII digits alone: at least 13 of them, with an Annex B sum
      that is a multiple of 10. */
  lemma IsValidIsAnnexB(s: string)
    ensures IsValid(s) <==> |Digits(s)| >= 13 && AnnexBSum(Values(Digits(s))) % 10 == 0
  {
    PassesLuhnIsAnnexB(Digits(s));
  }

  // ---- The check as written, with `Character.isNumber` as the filter ----

  /** What the source's `isValid` does: answer, or trap on a failed force-unwrap. */
  datatype CheckOutcome = Verdict(valid: bool) | Trap

  /** `Int(String(c))`: only '0'..'9' convert; any other character gives nil. */
  function IntOfCharacter(c: char): (r: Option<nat>)
    ensures r.Some? <==> IsDigit(c)
    ensures r.Some? ==> r.value <= 9
  {
    if IsDigit(c) then Some(DigitValue(c)) else None
  }

  /** `filter { $0.isNumber }`, for the Unicode property `Character.isNumber` given as
      `isNumber`. */
  function NumericChars(isNumber: char -> bool, s: string): (r: string)
    ensures |r| <= |s|
    ensures forall i :: 0 <= i < |r| ==> isNumber(r[i])
  {
    if s == [] then [] else (if isNumber(s[0]) then [s[0]] else []) + NumericChars(isNumber, s[1..])
  }

  /** `isValid` as written: the count test, then the Luhn loop, whose `Int(String($0))!` traps on
      a kept character that does not convert. */
  function IsValidAsWritten(isNumber: char -> bool, s: string): (r: CheckOutcome)
    ensures r.Verdict? ==> (r.valid <==> |NumericChars(isNumber, s)| >= 13 && AllDigits(NumericChars(isNumber, s))
                                         && PassesLuhn(NumericChars(isNumber, s)))
    ensures r.Trap? <==> |NumericChars(isNumber, s)| >= 13
                         && exists i :: 0 <= i < |NumericChars(isNumber, s)| && IntOfCharacter(NumericChars(isNumber, s)[i]).None?
  {
    var sanitized := NumericChars(isNumber, s);
    if |sanitized| < 13 then Verdict(false)
    else if !AllDigits(sanitized) then Trap
    else Verdict(PassesLuhn(sanitized))
  }

  lemma {:induction false} NumericCharsOfAscii(isNumber: char -> bool, s: string)
    requires forall c :: isNumber(c) <==> IsDigit(c)
    ensures NumericChars(isNumber, s) == Digits(s)
    decreases |s|
  {
    if s != [] {
      NumericCharsOfAscii(isNumber, s[1..]);
    }
  }

  /** Where `isNumber` accepts exactly the ASCII digits, the source never traps and agrees with
      `IsValid`. */
  lemma AsWrittenAgreesOnAscii(isNumber: char -> bool, s: string)
    requires forall c :: isNumber(c) <==> IsDigit(c)
    ensures IsValidAsWritten(isNumber, s) == Verdict(IsValid(s))
  {
    NumericCharsOfAscii(isNumber, s);
  }

  lemma {:induction false} AllKept(isNumber: char -> bool, s: string)
    requires forall i :: 0 <= i < |s| ==> isNumber(s[i])
    ensures NumericChars(isNumber, s) == s
    decreases |s|
  {
    if s != [] {
      AllKept(isNumber, s[1..]);
      assert [s[0]] + s[1..] == s;
    }
  }

  lemma {:induction false} NoAsciiDigits(s: string)
    requires forall i :: 0 <= i < |s| ==> !IsDigit(s[i])
    ensures Digits(s) == []
    decreases |s|
  {
    if s != [] {
      NoAsciiDigits(s[1..]);
    }
  }

  /** Thirteen ARABIC-INDIC DIGIT ZERO characters (U+0660), a decimal digit that
      `Character.isNumber` accepts: the source traps on them, the corrected check rejects them. */
  lemma ArabicIndicZerosTrap(isNumber: char -> bool, s: string)
    requires isNumber('\U{0660}')
    requires |s| == 13 && forall i :: 0 <= i < |s| ==> s[i] == '\U{0660}'
    ensures IsValidAsWritten(isNumber, s) == Trap
    ensures !IsValid(s)
  {
    AllKept(isNumber, s);
    assert !IsDigit(s[0]);
    NoAsciiDigits(s);
  }
}
