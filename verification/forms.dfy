/**
  The vocabulary shared by every form of the application: optional field
  values, validation issues attached to a field (as the schema validator
  reports them), and what a submit leads to.
*/
module Forms {

  /** A field value that may be missing (`undefined` in the form state). */
  datatype Option<T> = None | Some(value: T)

  /** One validation message, attached to the form field `path`; each form
      names its fields with a datatype of its own. */
  datatype Issue<F> = Issue(path: F, message: string)

  /** The message a required field reports when its value is missing. */
  const RequiredMessage: string := "Required"

  /** One rule of a schema: nothing when it holds, its issue otherwise. */
  function Rule<F>(holds: bool, issue: Issue<F>): (r: seq<Issue<F>>)
    ensures holds <==> r == []
    ensures !holds ==> r == [issue]
  {
    if holds then [] else [issue]
  }

  /** A numeric field with an inclusive range: the lower bound's issue below
      it, the upper bound's issue above it, nothing inside it. */
  function RangeRule<F>(v: int, lo: int, hi: int, tooLow: Issue<F>, tooHigh: Issue<F>): (r: seq<Issue<F>>)
    requires lo <= hi
    requires tooLow != tooHigh
    ensures r == [] <==> lo <= v <= hi
    ensures tooLow in r <==> v < lo
    ensures tooHigh in r <==> v > hi
    ensures |r| <= 1 && forall x :: x in r ==> x == tooLow || x == tooHigh
  {
    Rule(v >= lo, tooLow) + Rule(v <= hi, tooHigh)
  }

  /** The account kind picked on the login and registration tabs
      (`"user"` or `"admin"`). */
  datatype AccountRole = UserRole | AdminRole

  /** What submitting a form leads to: the values pass validation and the
      page moves to `route`, or they fail and the form shows `issues`. */
  datatype Submission<F> = Navigate(route: string) | Rejected(issues: seq<Issue<F>>)
}
