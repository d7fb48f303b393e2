/**
 * The part of zod's object validation that the forms rely on, and what react-hook-form's zod
 * resolver shows of it.
 *
 * An object schema checks its fields in declaration order and collects every issue. A string
 * that is too short, or not an email, makes the result invalid but lets checking go on. A
 * missing value, `NaN` where a number is expected, or a value outside an enum aborts the
 * object, and a `.refine` on an aborted object is not run. Under a field the form shows the
 * first issue whose path is that field.
 */
module Validation {
  import opened Wrappers

  datatype IssueKind =
    | TooShort(minLength: nat, message: string) // `z.string().min(n, message)`
    | TooSmall(minimum: int)                    // `z.number().min(n)`, zod's own message
    | TooBig(maximum: int)                      // `z.number().max(n)`, zod's own message
    | Required                                  // undefined where a value is expected
    | NotANumber                                // `NaN` from an empty number input
    | InvalidEnum                               // a string outside `z.enum([...])`
    | InvalidEmail(message: string)             // `z.string().email(message)`
    | RefineFailed(message: string)             // a failed `.refine(..., { message, path })`

  datatype Issue = Issue(path: string, kind: IssueKind)

  /** The outcome of `safeParse`. */
  datatype Parsed<T> = Ok(data: T) | Invalid(issues: seq<Issue>)

  /** Issues after which zod stops checking the object. */
  predicate Fatal(k: IssueKind)
  {
    k.Required? || k.NotANumber? || k.InvalidEnum?
  }

  predicate Aborted(issues: seq<Issue>)
  {
    exists i :: 0 <= i < |issues| && Fatal(issues[i].kind)
  }

  /** `z.string().min(n, message)` on a present string. */
  function StringMin(path: string, s: string, n: nat, message: string): (r: seq<Issue>)
    ensures r == [] <==> |s| >= n
    ensures !Aborted(r)
  {
    if |s| < n then [Issue(path, TooShort(n, message))] else []
  }

  /** `z.string().min(n, message)` on a value that may be undefined. */
  function OptionalStringMin(path: string, v: Option<string>, n: nat, message: string): (r: seq<Issue>)
    ensures r == [] <==> v.Some? && |v.value| >= n
    ensures Aborted(r) <==> v.None?
  {
    match v
    case None =>
      var r := [Issue(path, Required)];
      assert Fatal(r[0].kind);
      r
    case Some(s) => StringMin(path, s, n, message)
  }

  /** `z.string().email(message)`; the address pattern itself is zod's and is a parameter here. */
  function Email(path: string, s: string, isEmail: string -> bool, message: string): (r: seq<Issue>)
    ensures r == [] <==> isEmail(s)
    ensures !Aborted(r)
  {
    if isEmail(s) then [] else [Issue(path, InvalidEmail(message))]
  }

  /** `z.number().min(lo)`, and `.max(hi)` when `hi` is given, on a number input (`None` is `NaN`). */
  function NumberRange(path: string, v: Option<int>, lo: int, hi: Option<int>): (r: seq<Issue>)
    ensures r == [] <==> v.Some? && lo <= v.value && (hi.Some? ==> v.value <= hi.value)
    ensures Aborted(r) <==> v.None?
  {
    match v
    case None =>
      var r := [Issue(path, NotANumber)];
      assert Fatal(r[0].kind);
      r
    case Some(x) =>
      (if x < lo then [Issue(path, TooSmall(lo))] else [])
      + (if hi.Some? && x > hi.value then [Issue(path, TooBig(hi.value))] else [])
  }

  /** `.refine(holds, { message, path: [path] })` over the object's issues. */
  function Refine(issues: seq<Issue>, holds: bool, path: string, message: string): (r: seq<Issue>)
  {
    if Aborted(issues) || holds then issues else issues + [Issue(path, RefineFailed(message))]
  }

  /** The error react-hook-form shows under `path`. */
  function FirstError(issues: seq<Issue>, path: string): (r: Option<IssueKind>)
    ensures r.Some? <==> exists i :: 0 <= i < |issues| && issues[i].path == path
    ensures r.Some? ==> exists i :: 0 <= i < |issues| && issues[i].path == path && issues[i].kind == r.value
  {
    if |issues| == 0 then None
    else if issues[0].path == path then Some(issues[0].kind)
    else
      var rest := FirstError(issues[1..], path);
      assert forall i :: 1 <= i < |issues| ==> issues[i] == issues[1..][i - 1];
      rest
  }

  /** The refinement adds nothing to an aborted object, and passes only when both hold. */
  lemma RefineSpec(issues: seq<Issue>, holds: bool, path: string, message: string)
    ensures Refine(issues, holds, path, message) == [] <==> issues == [] && holds
    ensures !Aborted(issues) && !holds ==>
      Refine(issues, holds, path, message)[|issues|] == Issue(path, RefineFailed(message))
    ensures Aborted(issues) ==> Refine(issues, holds, path, message) == issues
    ensures issues <= Refine(issues, holds, path, message)
  {
  }

  lemma AbortedAppend(a: seq<Issue>, b: seq<Issue>)
    ensures Aborted(a + b) <==> Aborted(a) || Aborted(b)
  {
    if Aborted(a + b) {
      var i :| 0 <= i < |a + b| && Fatal((a + b)[i].kind);
      if i >= |a| {
        assert b[i - |a|] == (a + b)[i];
      }
    }
    if Aborted(a) {
      var i :| 0 <= i < |a| && Fatal(a[i].kind);
      assert (a + b)[i] == a[i];
    }
    if Aborted(b) {
      var i :| 0 <= i < |b| && Fatal(b[i].kind);
      assert (a + b)[|a| + i] == b[i];
    }
  }

  /** The first error under a path is the first error of the first part that mentions it. */
  lemma {:induction false} FirstErrorAppend(a: seq<Issue>, b: seq<Issue>, path: string)
    ensures FirstError(a + b, path) == if FirstError(a, path).Some? then FirstError(a, path) else FirstError(b, path)
  {
    if |a| > 0 {
      assert (a + b)[1..] == a[1..] + b;
      FirstErrorAppend(a[1..], b, path);
    } else {
      assert a + b == b;
    }
  }
}
