/** A registered check (SwiftFluent/Validator/ValidationRule.swift): a predicate over the model
    and the `(propertyKey, message)` pair it reports. The builders compute that pair when the
    rule is registered, so here it is a pair of constants rather than a thunk, and it cannot
    depend on the model being validated. */
module ValidationRules {

  datatype Rule<-M> = Rule(pred: M -> bool, key: string, msg: string)
}
