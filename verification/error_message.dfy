/** The message templates of SwiftFluent/Validator/ErrorMessage.swift. Localisation is the
    identity, so `errorDescription` is the interpolated English text itself. */
module ErrorMessages {
  import opened Wrappers

  /** The opening and closing typographic quotes of the templates (U+2018, U+2019). */
  const Open: char := '\U{2018}'
  const Close: char := '\U{2019}'

  /** One case per kind of failed check. The bounds of the comparison cases and the operands
      of the equality cases arrive already rendered as text (`String(describing:)`). */
  datatype ErrorMessage =
    | LengthError(name: string, min: int, max: int)
    | MinLengthError(name: string, min: int)
    | MaxLengthError(name: string, max: int)
    | EmailError(name: string)
    | CreditCardError(name: string)
    | NumberError(name: string)
    | UrlError(name: string)
    | LessThanError(name: string, bound: string)
    | LessThanOrEqualToError(name: string, bound: string)
    | GreaterThanError(name: string, bound: string)
    | GreaterThanOrEqualToError(name: string, bound: string)
    | NotEmptyError(name: string)
    | NotNilError(name: string)
    | EqualError(name: string, value: string)
    | NotEqualError(name: string, value: string)
    | DefaultError

  // ---- Decimal rendering of the integers in the length templates ----

  predicate IsDecimal(s: string) {
    forall i :: 0 <= i < |s| ==> '0' <= s[i] <= '9'
  }

  function DigitChar(d: nat): (c: char)
    requires d < 10
    ensures '0' <= c <= '9' && c as int - '0' as int == d
  {
    ('0' as int + d) as char
  }

  /** String interpolation of a non-negative `Int`: decimal, no leading zeros. */
  function NatToString(n: nat): (s: string)
    ensures |s| >= 1 && IsDecimal(s)
    ensures |s| > 1 ==> s[0] != '0'
  {
    if n < 10 then [DigitChar(n)] else NatToString(n / 10) + [DigitChar(n % 10)]
  }

  /** String interpolation of an `Int`: a minus sign before negative values. */
  function IntToString(i: int): (s: string)
    ensures |s| >= 1
    ensures s[0] == '-' <==> i < 0
  {
    if i < 0 then "-" + NatToString(-i) else NatToString(i)
  }

  /** Reading a decimal numeral back, the partner of `NatToString`. */
  function DecimalValue(s: string): nat
    requires IsDecimal(s)
  {
    if s == [] then 0 else 10 * DecimalValue(s[..|s| - 1]) + (s[|s| - 1] as int - '0' as int)
  }

  function IntValue(s: string): int
    requires |s| >= 1
    requires s[0] == '-' ==> IsDecimal(s[1..])
    requires s[0] != '-' ==> IsDecimal(s)
  {
    if s[0] == '-' then -(DecimalValue(s[1..]) as int) else DecimalValue(s)
  }

  lemma {:induction false} NatToStringRoundTrip(n: nat)
    ensures DecimalValue(NatToString(n)) == n
    decreases n
  {
    if n >= 10 {
      NatToStringRoundTrip(n / 10);
      var s := NatToString(n);
      assert s[..|s| - 1] == NatToString(n / 10);
    }
  }

  lemma IntToStringRoundTrip(i: int)
    ensures var s := IntToString(i); (s[0] == '-' ==> IsDecimal(s[1..])) && (s[0] != '-' ==> IsDecimal(s))
    ensures IntValue(IntToString(i)) == i
  {
    if i < 0 {
      NatToStringRoundTrip(-i);
      assert IntToString(i)[1..] == NatToString(-i);
    } else {
      NatToStringRoundTrip(i);
    }
  }

  /** Different integers are rendered differently. */
  lemma IntToStringInjective(i: int, j: int)
    requires i != j
    ensures IntToString(i) != IntToString(j)
  {
    IntToStringRoundTrip(i);
    IntToStringRoundTrip(j);
  }

  // ---- The templates ----

  /** Every template but the default one is a lead-in, the property name between two quote marks,
      and a tail; the three length templates have the lead-in "The length of ". */
  function Lead(e: ErrorMessage): string {
    if e.LengthError? || e.MinLengthError? || e.MaxLengthError? then "The length of " else ""
  }

  /** The email template quotes with ASCII apostrophes; the credit-card, number and URL templates
      open and close with U+2018; all others open with U+2018 and close with U+2019. */
  function OpeningMark(e: ErrorMessage): char {
    if e.EmailError? then '\'' else Open
  }

  function ClosingMark(e: ErrorMessage): char {
    if e.EmailError? then '\''
    else if e.CreditCardError? || e.NumberError? || e.UrlError? then Open
    else Close
  }

  /** What follows the quoted name. Each tail is a sentence end. */
  function Tail(e: ErrorMessage): (t: string)
    requires !e.DefaultError?
    ensures |t| > 0 && t[|t| - 1] == '.'
  {
    match e
    case LengthError(_, min, max) =>
      " must be between " + IntToString(min) + " and " + IntToString(max) + " characters."
    case MinLengthError(_, min) => " must be " + IntToString(min) + " characters or more."
    case MaxLengthError(_, max) => " must be " + IntToString(max) + " characters or fewer."
    case EmailError(_) => " is not a valid email address."
    case CreditCardError(_) => " is not a valid credit card number."
    case NumberError(_) => " is not a valid number."
    case UrlError(_) => " is not a valid URL."
    case LessThanError(_, bound) => " must be less than " + bound + "."
    case LessThanOrEqualToError(_, bound) => " must be less than or equal to " + bound + "."
    case GreaterThanError(_, bound) => " must be greater than " + bound + "."
    case GreaterThanOrEqualToError(_, bound) => " must be greater than or equal to " + bound + "."
    case NotEmptyError(_) => " should not be empty."
    case NotNilError(_) => " must not be nil."
    case EqualError(_, value) => " should be equal to " + value + "."
    case NotEqualError(_, value) => " should not be equal to " + value + "."
  }

  /** `errorDescription`. Every message is non-empty, and it ends in a full stop exactly when it
      is not the default message. */
  function ErrorDescription(e: ErrorMessage): (r: string)
    ensures |r| > 0
    ensures r[|r| - 1] == '.' <==> !e.DefaultError?
  {
    if e.DefaultError? then "Invalid property"
    else Lead(e) + [OpeningMark(e)] + e.name + [ClosingMark(e)] + Tail(e)
  }

  // ---- Reading the property name back out of a message ----

  predicate IsQuote(c: char) {
    c == '\'' || c == Open || c == Close
  }

  predicate QuoteFree(s: string) {
    forall i :: 0 <= i < |s| ==> !IsQuote(s[i])
  }

  /** The text between the first quote mark of a message and the quote mark after it. */
  function QuotedName(message: string): Option<string> {
    if message == [] then None
    else if IsQuote(message[0]) then UpToQuote(message[1..])
    else QuotedName(message[1..])
  }

  /** The text before the first quote mark, if there is one. */
  function UpToQuote(s: string): Option<string> {
    if s == [] then None
    else if IsQuote(s[0]) then Some([])
    else match UpToQuote(s[1..])
      case None => None
      case Some(t) => Some([s[0]] + t)
  }

  lemma {:induction false} UpToQuoteOf(name: string, q: char, rest: string)
    requires QuoteFree(name) && IsQuote(q)
    ensures UpToQuote(name + [q] + rest) == Some(name)
    decreases |name|
  {
    var s := name + [q] + rest;
    if name == [] {
      assert s[0] == q;
    } else {
      assert s[0] == name[0];
      assert s[1..] == name[1..] + [q] + rest;
      UpToQuoteOf(name[1..], q, rest);
      assert [name[0]] + name[1..] == name;
    }
  }

  lemma {:induction false} QuotedNameOf(before: string, q: char, name: string, q': char, rest: string)
    requires QuoteFree(before) && IsQuote(q) && QuoteFree(name) && IsQuote(q')
    ensures QuotedName(before + [q] + name + [q'] + rest) == Some(name)
    decreases |before|
  {
    var s := before + [q] + name + [q'] + rest;
    if before == [] {
      assert s[0] == q;
      assert s[1..] == name + [q'] + rest;
      UpToQuoteOf(name, q', rest);
    } else {
      assert s[1..] == before[1..] + [q] + name + [q'] + rest;
      QuotedNameOf(before[1..], q, name, q', rest);
    }
  }

  lemma {:induction false} QuoteFreeHasNoName(s: string)
    requires QuoteFree(s)
    ensures QuotedName(s) == None
    decreases |s|
  {
    if s != [] {
      QuoteFreeHasNoName(s[1..]);
    }
  }

  /** Every message but the default one names its property between quote marks, so the name can
      be read back from the text (for names that themselves hold no quote mark). */
  lemma DescriptionNamesProperty(e: ErrorMessage)
    requires !e.DefaultError? && QuoteFree(e.name)
    ensures QuotedName(ErrorDescription(e)) == Some(e.name)
  {
    assert QuoteFree(Lead(e));
    QuotedNameOf(Lead(e), OpeningMark(e), e.name, ClosingMark(e), Tail(e));
  }

  /** The default message names no property. */
  lemma DefaultNamesNothing()
    ensures QuotedName(ErrorDescription(DefaultError)) == None
  {
    assert QuoteFree("Invalid property");
    QuoteFreeHasNoName("Invalid property");
  }

  /** Messages about differently named properties differ, whatever their kinds. */
  lemma DescriptionNameInjective(e1: ErrorMessage, e2: ErrorMessage)
    requires !e1.DefaultError? && !e2.DefaultError?
    requires QuoteFree(e1.name) && QuoteFree(e2.name) && e1.name != e2.name
    ensures ErrorDescription(e1) != ErrorDescription(e2)
  {
    DescriptionNamesProperty(e1);
    DescriptionNamesProperty(e2);
  }

  /** A rendering of the length template with its two integers. */
  lemma LengthErrorExample()
    ensures ErrorDescription(LengthError("name", 2, 10))
         == "The length of \U{2018}name\U{2019}" + " must be between 2 and 10 characters."
  {
    var e := LengthError("name", 2, 10);
    assert IntToString(2) == "2";
    assert IntToString(10) == "10" by {
      assert NatToString(10) == NatToString(1) + [DigitChar(0)];
    }
    assert Tail(e) == " must be between 2 and 10 characters.";
    assert Lead(e) + [OpeningMark(e)] + e.name + [ClosingMark(e)] == "The length of \U{2018}name\U{2019}";
  }
}
