/** What the two enquiry forms have in common: the status line under the
    buttons, the "required" test and how a field's error is shown. */
module Forms {
  import opened Text

  /** The `{ ok, msg }` pair behind the alert; an empty message shows nothing. */
  datatype Status = Status(ok: bool, msg: string)

  const NoStatus := Status(false, "")
  const FailureMsg := "Something went wrong. Please try again."

  /** `!value.trim()`: the field is empty once trimmed. */
  predicate Blank(v: string) {
    Trim(v) == []
  }

  /** A field is blank exactly when it holds nothing but whitespace. */
  lemma BlankIff(v: string)
    ensures Blank(v) <==> AllWhitespace(v)
  {
    TrimEmptyIff(v);
  }

  /** The helper text under a field: its error once it has been touched, and
      a single space otherwise (which keeps the line height). */
  function HelperText<F>(touched: set<F>, errors: map<F, string>, f: F): (t: string)
    ensures f in touched && f in errors ==> t == errors[f]
    ensures !(f in touched && f in errors) ==> t == " "
  {
    if f in touched then (if f in errors then errors[f] else " ") else " "
  }

  /** The field is drawn in its error colour: touched and failing. */
  predicate ShowsError<F>(touched: set<F>, errors: map<F, string>, f: F) {
    f in touched && f in errors
  }
}
