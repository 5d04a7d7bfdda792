/** The validation errors raised when a record is built from out-of-domain
    field values. A record constructor reports every failing field at once, in
    field order, rather than stopping at the first one. */
module Validation {

  /** One rejected field value. */
  datatype Issue =
    | UnknownCategory(category: string)
    | ScoreOutOfRange(score: real)
    | UnknownVerdict(verdict: string)
    | TopicCountMismatch(declared: int, actual: nat)

  datatype ValidationError = ValidationError(issues: seq<Issue>)
}
