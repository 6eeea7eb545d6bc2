/** The issues a zod schema reports: where, and with which message. */
module ZodIssues {
  /** A schema's own message text, or one of zod's built-in messages. */
  datatype Message =
    | Custom(text: string)
    | Required          // built-in: a required field is absent
    | InvalidEnumValue  // built-in: a value outside an enum, when no message is given

  datatype Issue = Issue(path: seq<string>, message: Message)

  /** A check on field `field`: no issue when it holds, its message when it fails. */
  function Check(holds: bool, field: string, text: string): seq<Issue> {
    if holds then [] else [Issue([field], Custom(text))]
  }

  /** Every issue in `issues` is reported at the single-segment path `[field]`. */
  predicate AllAt(issues: seq<Issue>, field: string) {
    forall i :: 0 <= i < |issues| ==> issues[i].path == [field]
  }
}
