/**
 * The result every rule returns (RuleResult): allowed, or denied with the
 * rule's message, written as one constructor of a per-rule reason type.
 */
module RuleBase {
  datatype Decision<R> = Allow | Deny(reason: R)

  /** A rule that compares a None rating with a number raises TypeError instead of deciding. */
  datatype RuleError = TypeError

  const Hour := 3600
  const Day := 86400
}
