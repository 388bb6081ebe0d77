/**
  The ways one submission can fail, and the message each one carries. The
  handler throws an `Error` for each kind and a single `catch` shows the
  message behind a fixed prefix.

  The user-facing texts are Vietnamese in the component; apart from the
  server-error message, whose structure matters, they are represented here by
  short English glosses.
 */
module Errors {
  import opened Text

  datatype Failure =
    | ServerError(status: nat, excerpt: string)  // response.ok was false
    | NotJson                                    // content type missing or not JSON
    | Undecodable                                // response.json() rejected the body
    | BadShape                                   // no recognised payload shape
    | NullAccess                                 // a property read on null or undefined
    | NetworkError                               // fetch itself rejected

  /** How many characters of the response body a server error keeps. */
  const ExcerptLength: nat := 100

  /** The failure raised for a non-ok response with status `status` and body `body`. */
  function ServerFailure(status: nat, body: string): (f: Failure)
    ensures f.ServerError? && f.status == status
    ensures f.excerpt <= body && |f.excerpt| <= ExcerptLength
    ensures |f.excerpt| == if |body| < ExcerptLength then |body| else ExcerptLength
  {
    ServerError(status, Substring(body, ExcerptLength))
  }

  const ServerErrorLead := "Server error ("
  const ServerErrorMid := "): "

  /** The `message` of the `Error` thrown for `f`: for a server error,
      `Server error (<status>): <excerpt>`; every message is non-empty. */
  function FailureMessage(f: Failure): (m: string)
    ensures f.ServerError? ==> m == ServerErrorLead + DecimalString(f.status) + ServerErrorMid + f.excerpt
    ensures |m| > 0
  {
    match f
    case ServerError(status, excerpt) => ServerErrorLead + DecimalString(status) + ServerErrorMid + excerpt
    case NotJson => "The server did not return JSON. Check the n8n webhook configuration."
    case Undecodable => "The response body is not valid JSON."
    case BadShape => "Invalid response format. Please check the n8n configuration."
    case NullAccess => "Cannot read properties of null."
    case NetworkError => "Failed to fetch."
  }

  /** What the `catch` block puts in front of every failure message. */
  const CaughtLead := "An error occurred: "

  /** The text shown to the user for a failed submission. */
  function CaughtMessage(f: Failure): (m: string)
    ensures CaughtLead <= m
    ensures |m| > |CaughtLead|
    ensures m[|CaughtLead|..] == FailureMessage(f)
  {
    CaughtLead + FailureMessage(f)
  }

  /** A server error's shown message names the status code, in decimal, and
      the body excerpt, which is a prefix of the body no longer than 100. */
  lemma ServerErrorMessageContents(status: nat, body: string)
    ensures var f := ServerFailure(status, body);
      && Includes(CaughtMessage(f), DecimalString(status))
      && Includes(CaughtMessage(f), f.excerpt)
      && f.excerpt <= body && |f.excerpt| <= ExcerptLength
  {
    var f := ServerFailure(status, body);
    var d := DecimalString(status);
    var m := CaughtMessage(f);
    var i := |CaughtLead| + |ServerErrorLead|;
    var j := i + |d| + |ServerErrorMid|;
    assert m == CaughtLead + ServerErrorLead + d + ServerErrorMid + f.excerpt;
    assert m[i..i + |d|] == d;
    assert OccursAt(m, d, i);
    assert m[j..j + |f.excerpt|] == f.excerpt;
    assert OccursAt(m, f.excerpt, j);
  }
}
