/** The part of Angular's reactive forms the two components rely on: the
    built-in validators, which report nothing on an empty value except
    `required`, and the getters that show one error message at a time. */
module Forms {
  import opened Text

  datatype ValidationError = Required | MinLength | Pattern | EmailFormat

  /** `Validators.required` on a text control. */
  function RequiredErrors(value: string): set<ValidationError> {
    if value == "" then {Required} else {}
  }

  /** `Validators.minLength(n)`: an empty value is left to `required`; the
      length is JavaScript's, in UTF-16 code units. */
  function MinLengthErrors(value: string, n: nat): set<ValidationError> {
    if value != "" && Utf16Length(value) < n then {MinLength} else {}
  }

  /** `Validators.pattern`, given whether the expression matches the value. */
  function PatternErrors(value: string, matches: bool): set<ValidationError> {
    if value != "" && !matches then {Pattern} else {}
  }

  /** `Validators.email`, given whether its expression matches the value. */
  function EmailErrors(value: string, wellFormed: bool): set<ValidationError> {
    if value != "" && !wellFormed then {EmailFormat} else {}
  }

  /** The messages a getter checks, in the order it checks them. */
  predicate Messages(order: seq<(ValidationError, string)>) {
    forall i :: 0 <= i < |order| ==> order[i].1 != ""
  }

  /** An if-chain of `hasError` checks: the message of the first error in
      `order` that the control has, or "" when it has none of them. */
  function FirstMessage(errors: set<ValidationError>, order: seq<(ValidationError, string)>): (r: string)
    requires Messages(order)
    ensures r == "" <==> forall i :: 0 <= i < |order| ==> order[i].0 !in errors
    ensures r != "" ==> exists i :: 0 <= i < |order| && order[i].0 in errors && r == order[i].1
                                    && forall j :: 0 <= j < i ==> order[j].0 !in errors
  {
    if order == [] then ""
    else if order[0].0 in errors then order[0].1
    else
      var r := FirstMessage(errors, order[1..]);
      assert forall i :: 1 <= i < |order| ==> order[i] == order[1..][i - 1];
      r
  }
}
