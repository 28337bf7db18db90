/** The outcome of `validate` (SwiftFluent/Validator/ValidationResult.swift). */
module ValidationResults {

  /** Exactly one of the two cases; only the invalid case carries messages. */
  datatype ValidationResult = Valid | Invalid(errors: seq<string>) {

    /** `isValid`: decided by the case alone. */
    predicate IsValid() {
      match this
      case Valid => true
      case Invalid(_) => false
    }
  }

  /** `isValid` holds for `.valid` and for no `.invalid`, whatever its messages, even none. */
  lemma IsValidIffValid(r: ValidationResult)
    ensures r.IsValid() <==> r == Valid
    ensures r.Invalid? ==> !r.IsValid()
  {
  }

  /** Two invalid results agree on `isValid` whatever their messages. */
  lemma IsValidIgnoresErrors(a: seq<string>, b: seq<string>)
    ensures Invalid(a).IsValid() == Invalid(b).IsValid()
    ensures !Invalid([]).IsValid()
  {
  }
}
