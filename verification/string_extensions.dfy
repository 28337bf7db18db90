/** The `String` helpers of SwiftFluent/Utilities/String+Extensions.swift. `isNotEmpty` is
    modelled in full; `isValidEmail` is modelled down to the regular-expression match, which is
    a parameter, and `isNumber` (a locale-dependent `NumberFormatter`) is a parameter of the
    rules that use it. */
module StringExtensions {
  import opened Wrappers

  /** The pattern `isValidEmail` matches when it is given no custom one. */
  const DefaultEmailRegex: string := "[A-Z0-9a-z._%+-]+@[A-Za-z0-9.-]+\\.[A-Za-z]{2,}"

  /** `isValidEmail(customRegex:)`, for a regular-expression engine `matches(text, pattern)`:
      the custom pattern when there is one, the default pattern otherwise. */
  function IsValidEmail(matches: (string, string) -> bool, s: string, customRegex: Option<string>): (ok: bool)
    ensures customRegex.Some? ==> ok == matches(s, customRegex.value)
    ensures customRegex.None? ==> ok == matches(s, DefaultEmailRegex)
  {
    matches(s, customRegex.GetOr(DefaultEmailRegex))
  }

  /** Membership in Foundation's `CharacterSet.whitespaces`: the Unicode space separators
      (general category Zs) and the horizontal tab. Line breaks are not in this set. */
  predicate IsWhitespace(c: char) {
    || c == '\t'
    || c == ' '
    || c == '\U{00A0}'
    || c == '\U{1680}'
    || ('\U{2000}' <= c <= '\U{200A}')
    || c == '\U{202F}'
    || c == '\U{205F}'
    || c == '\U{3000}'
  }

  /** `s` with its leading whitespace removed. */
  function TrimLeading(s: string): (r: string)
    ensures |r| <= |s| && r == s[|s| - |r|..]
    ensures forall i :: 0 <= i < |s| - |r| ==> IsWhitespace(s[i])
    ensures r == [] || !IsWhitespace(r[0])
  {
    if s != [] && IsWhitespace(s[0]) then TrimLeading(s[1..]) else s
  }

  /** `s` with its trailing whitespace removed. */
  function TrimTrailing(s: string): (r: string)
    ensures |r| <= |s| && r == s[..|r|]
    ensures forall i :: |r| <= i < |s| ==> IsWhitespace(s[i])
    ensures r == [] || !IsWhitespace(r[|r| - 1])
  {
    if s != [] && IsWhitespace(s[|s| - 1]) then TrimTrailing(s[..|s| - 1]) else s
  }

  /** `trimmingCharacters(in: .whitespaces)`. */
  function Trim(s: string): string {
    TrimTrailing(TrimLeading(s))
  }

  /** `isEmpty == false && trimmingCharacters(in: .whitespaces).isEmpty == false`. */
  predicate IsNotEmpty(s: string) {
    s != [] && Trim(s) != []
  }

  /** Trimming leaves nothing exactly when every character is whitespace. */
  lemma TrimEmptyIff(s: string)
    ensures Trim(s) == [] <==> forall i :: 0 <= i < |s| ==> IsWhitespace(s[i])
  {
    var l := TrimLeading(s);
    if Trim(s) == [] {
      assert l == [];
    } else {
      var r := Trim(s);
      assert r[0] == l[0] == s[|s| - |l|];
    }
  }

  /** `isNotEmpty` holds exactly when some character lies outside `.whitespaces`. */
  lemma IsNotEmptyIff(s: string)
    ensures IsNotEmpty(s) <==> exists i :: 0 <= i < |s| && !IsWhitespace(s[i])
  {
    TrimEmptyIff(s);
  }

  lemma EmptyExample()
    ensures !IsNotEmpty("")
  {
  }

  lemma SpacesExample()
    ensures !IsNotEmpty("    ")
  {
    IsNotEmptyIff("    ");
  }

  lemma NewlineExample()
    ensures IsNotEmpty("\n")
  {
    IsNotEmptyIff("\n");
    assert !IsWhitespace("\n"[0]);
  }

  lemma TextExample()
    ensures IsNotEmpty("not empty string")
  {
    IsNotEmptyIff("not empty string");
    assert !IsWhitespace("not empty string"[0]);
  }
}
