/**
 * The part of the forms' schemas that this application uses: length bounds
 * on text fields, checked the way the schema library checks them. Every
 * failed bound gives one issue naming the field and its message; a form is
 * submitted only when there are no issues.
 */
module Validation {
  import opened Wrappers

  /** One failed check; a None message is the library's own wording. */
  datatype Issue = Issue(field: string, message: Option<string>)

  /** `.min(n, msg)`: too short. */
  function AtLeast(field: string, v: string, n: int, msg: string): (r: seq<Issue>)
    ensures r == [] <==> |v| >= n
    ensures forall i :: 0 <= i < |r| ==> r[i].field == field
  {
    if |v| < n then [Issue(field, Some(msg))] else []
  }

  /** `.max(n, msg)`: too long. */
  function AtMost(field: string, v: string, n: int, msg: string): (r: seq<Issue>)
    ensures r == [] <==> |v| <= n
    ensures forall i :: 0 <= i < |r| ==> r[i].field == field
  {
    if |v| > n then [Issue(field, Some(msg))] else []
  }

  /** `.max(n, msg).optional()`: a missing value passes. */
  function OptionalAtMost(field: string, v: Option<string>, n: int, msg: string): (r: seq<Issue>)
    ensures r == [] <==> v.None? || |v.value| <= n
    ensures forall i :: 0 <= i < |r| ==> r[i].field == field
  {
    if v.Some? then AtMost(field, v.value, n, msg) else []
  }
}
