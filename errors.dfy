/** The error taxonomy of src/utils/errors.ts: upstream failures mapped by HTTP
    status to a stable code and a user-facing message. */
module Errors {
  import opened Wrappers
  import opened Strings

  /** A value thrown by a called operation. */
  datatype Thrown =
    | ApiError(status: Option<int>, bodyMessage: Option<string>, message: string)
      // an error of the Google API client: the response status (absent when no
      // response arrived), the `error.message` of the response body, its own message
    | PlainError(message: string)   // any other `Error`
    | NonError                      // a thrown value that is not an `Error`
  {
    /** `error.message` as a catch block renders it, 'Unknown error' for a non-Error. */
    function MessageOr(fallback: string): string {
      if NonError? then fallback else message
    }
  }

  datatype FormattedError = FormattedError(message: string, code: string, details: Option<string>)

  const UnauthorizedMessage := "Authentication failed. Try running \"npm run auth\" to re-authenticate."
  const ServiceErrorMessage := "Google Search Console service is temporarily unavailable. Please try again later."

  /** The detail text of an upstream failure: the body's message, otherwise the error's own. */
  function ApiDetails(e: Thrown): (d: string)
    requires e.ApiError?
    ensures e.bodyMessage.Some? ==> d == e.bodyMessage.value
    ensures e.bodyMessage.None? ==> d == e.message
  {
    e.bodyMessage.GetOr(e.message)
  }

  /** `${status}`: the number, or 'undefined' when no response arrived. */
  function StatusText(status: Option<int>): (r: string)
    ensures status.None? ==> r == "undefined"
    ensures status.Some? ==> r == IntToString(status.value)
  {
    match status
    case None => "undefined"
    case Some(n) => IntToString(n)
  }

  predicate IsServiceStatus(status: Option<int>) {
    status == Some(500) || status == Some(502) || status == Some(503)
  }

  /** The status cases of the switch. */
  predicate IsNamedStatus(status: Option<int>) {
    status == Some(400) || status == Some(401) || status == Some(403) || status == Some(404)
    || status == Some(429) || IsServiceStatus(status)
  }

  function FormatGoogleApiError(e: Thrown): (r: FormattedError)
    ensures e.ApiError? ==> r.details == Some(ApiDetails(e))
    ensures e.ApiError? && e.status == Some(400) ==>
      r.code == "INVALID_REQUEST" && r.message == "Invalid request parameters"
    ensures e.ApiError? && e.status == Some(401) ==>
      r.code == "UNAUTHORIZED" && r.message == UnauthorizedMessage
    ensures e.ApiError? && e.status == Some(403) ==>
      r.code == "FORBIDDEN" && r.message == "Permission denied. Make sure you have access to this GSC property."
    ensures e.ApiError? && e.status == Some(404) ==>
      r.code == "NOT_FOUND" && r.message == "Resource not found. The URL or property may not exist."
    ensures e.ApiError? && e.status == Some(429) ==>
      r.code == "RATE_LIMIT" && r.message == "Rate limit exceeded. Please wait a moment and try again."
    ensures e.ApiError? && IsServiceStatus(e.status) ==>
      r.code == "SERVICE_ERROR" && r.message == ServiceErrorMessage
    ensures e.ApiError? && !IsNamedStatus(e.status) ==>
      r.code == "HTTP_" + StatusText(e.status) && r.message == "Google API error: " + ApiDetails(e)
    ensures e.PlainError? ==> r == FormattedError(e.message, "UNKNOWN_ERROR", None)
    ensures e.NonError? ==> r == FormattedError("An unexpected error occurred", "UNKNOWN_ERROR", None)
  {
    match e
    case ApiError(status, _, _) =>
      var details := ApiDetails(e);
      if status == Some(400) then
        FormattedError("Invalid request parameters", "INVALID_REQUEST", Some(details))
      else if status == Some(401) then
        FormattedError(UnauthorizedMessage, "UNAUTHORIZED", Some(details))
      else if status == Some(403) then
        FormattedError("Permission denied. Make sure you have access to this GSC property.", "FORBIDDEN", Some(details))
      else if status == Some(404) then
        FormattedError("Resource not found. The URL or property may not exist.", "NOT_FOUND", Some(details))
      else if status == Some(429) then
        FormattedError("Rate limit exceeded. Please wait a moment and try again.", "RATE_LIMIT", Some(details))
      else if IsServiceStatus(status) then
        FormattedError(ServiceErrorMessage, "SERVICE_ERROR", Some(details))
      else
        FormattedError("Google API error: " + details, "HTTP_" + StatusText(status), Some(details))
    case PlainError(message) => FormattedError(message, "UNKNOWN_ERROR", None)
    case NonError => FormattedError("An unexpected error occurred", "UNKNOWN_ERROR", None)
  }

  /** Whether the tool text carries a `Details:` line: details present, non-empty
      and different from the message. */
  predicate ShowsDetails(f: FormattedError) {
    Truthy(f.details) && f.details.value != f.message
  }

  function FormatToolError(e: Thrown): (r: string)
    ensures StartsWith(r, "Error: " + FormatGoogleApiError(e).message)
    ensures var f := FormatGoogleApiError(e);
      ShowsDetails(f) ==> r == "Error: " + f.message + "\nDetails: " + f.details.value
    ensures !ShowsDetails(FormatGoogleApiError(e)) <==> r == "Error: " + FormatGoogleApiError(e).message
  {
    var f := FormatGoogleApiError(e);
    ToolErrorText(f)
  }

  /** The tool text of a formatted error. */
  function ToolErrorText(f: FormattedError): (r: string)
    ensures StartsWith(r, "Error: " + f.message)
    ensures ShowsDetails(f) ==> r == "Error: " + f.message + "\nDetails: " + f.details.value
    ensures !ShowsDetails(f) <==> r == "Error: " + f.message
  {
    var head := "Error: " + f.message;
    if ShowsDetails(f) then head + "\nDetails: " + f.details.value else head
  }

  /** A code is one of the six codes of the switch exactly when the status is
      one the switch names: no status outside the switch shares one of them. */
  lemma NamedCodesDistinct(status: Option<int>, b: Option<string>, m: string)
    ensures var c := FormatGoogleApiError(ApiError(status, b, m)).code;
      c in {"INVALID_REQUEST", "UNAUTHORIZED", "FORBIDDEN", "NOT_FOUND", "RATE_LIMIT", "SERVICE_ERROR"}
      <==> IsNamedStatus(status)
  {
    var e := ApiError(status, b, m);
    var c := FormatGoogleApiError(e).code;
    if !IsNamedStatus(status) {
      var t := StatusText(status);
      assert c == "HTTP_" + t;
      assert c[0] == 'H';
    }
  }

  /** Two statuses the switch names share a code only when they are equal or
      both service statuses, so the six codes are pairwise distinct. */
  lemma NamedCodesDiffer(e1: Thrown, e2: Thrown)
    requires e1.ApiError? && e2.ApiError?
    requires IsNamedStatus(e1.status) && IsNamedStatus(e2.status)
    ensures FormatGoogleApiError(e1).code == FormatGoogleApiError(e2).code <==>
      e1.status == e2.status || (IsServiceStatus(e1.status) && IsServiceStatus(e2.status))
  {
    var c1, c2 := FormatGoogleApiError(e1).code, FormatGoogleApiError(e2).code;
    if c1 == c2 {
      CodeInitialOf(e1);
      CodeInitialOf(e2);
      InitialsTellStatuses(e1.status, e2.status);
    }
  }

  lemma InitialsTellStatuses(s1: Option<int>, s2: Option<int>)
    requires IsNamedStatus(s1) && IsNamedStatus(s2)
    requires CodeInitial(s1) == CodeInitial(s2)
    ensures s1 == s2 || (IsServiceStatus(s1) && IsServiceStatus(s2))
  {
  }

  /** The first letter of a named status's code, which alone tells the six codes apart. */
  function CodeInitial(status: Option<int>): char {
    if status == Some(400) then 'I'
    else if status == Some(401) then 'U'
    else if status == Some(403) then 'F'
    else if status == Some(404) then 'N'
    else if status == Some(429) then 'R'
    else 'S'
  }

  lemma CodeInitialOf(e: Thrown)
    requires e.ApiError? && IsNamedStatus(e.status)
    ensures |FormatGoogleApiError(e).code| > 0
    ensures FormatGoogleApiError(e).code[0] == CodeInitial(e.status)
  {
    var c := FormatGoogleApiError(e).code;
    if e.status == Some(400) {
      assert c == "INVALID_REQUEST";
    } else if e.status == Some(401) {
      assert c == "UNAUTHORIZED";
    } else if e.status == Some(403) {
      assert c == "FORBIDDEN";
    } else if e.status == Some(404) {
      assert c == "NOT_FOUND";
    } else if e.status == Some(429) {
      assert c == "RATE_LIMIT";
    } else {
      assert c == "SERVICE_ERROR";
    }
  }

  /** SERVICE_ERROR is the code of exactly 500, 502 and 503; 504 is not among them. */
  lemma ServiceErrorExactly(e: Thrown)
    ensures FormatGoogleApiError(e).code == "SERVICE_ERROR" <==> e.ApiError? && IsServiceStatus(e.status)
  {
    var c := FormatGoogleApiError(e).code;
    if e.ApiError? && !IsNamedStatus(e.status) {
      assert c[0] == 'H';
    }
  }

  /** UNKNOWN_ERROR is the code of exactly the errors that did not come from the API. */
  lemma UnknownErrorExactly(e: Thrown)
    ensures FormatGoogleApiError(e).code == "UNKNOWN_ERROR" <==> !e.ApiError?
  {
    var c := FormatGoogleApiError(e).code;
    if e.ApiError? && !IsNamedStatus(e.status) {
      assert c[0] == 'H';
    }
  }

  /** Two statuses outside the switch never share a code: the status is preserved. */
  lemma {:induction false} OtherStatusCodesInjective(e1: Thrown, e2: Thrown)
    requires e1.ApiError? && e2.ApiError?
    requires !IsNamedStatus(e1.status) && !IsNamedStatus(e2.status)
    requires FormatGoogleApiError(e1).code == FormatGoogleApiError(e2).code
    ensures e1.status == e2.status
  {
    var t1, t2 := StatusText(e1.status), StatusText(e2.status);
    assert ("HTTP_" + t1)[5..] == t1;
    assert ("HTTP_" + t2)[5..] == t2;
    assert t1 == t2;
    StatusTextTellsAbsence(e1.status);
    StatusTextTellsAbsence(e2.status);
    if e1.status.Some? {
      IntToStringInjective(e1.status.value, e2.status.value);
    }
  }

  /** Only a missing status renders as text starting with a letter. */
  lemma StatusTextTellsAbsence(status: Option<int>)
    ensures StatusText(status)[0] == 'u' <==> status.None?
  {
    if status.Some? {
      var n := status.value;
      assert IsDigit(NatToString(if n >= 0 then n else -n)[0]);
    }
  }

  /** An error outside the switch always shows its Details line when the details
      are non-empty, since its message only embeds them. */
  lemma {:induction false} OtherStatusShowsDetails(e: Thrown)
    requires e.ApiError? && !IsNamedStatus(e.status) && ApiDetails(e) != ""
    ensures FormatToolError(e) == "Error: Google API error: " + ApiDetails(e) + "\nDetails: " + ApiDetails(e)
  {
    var d := ApiDetails(e);
    var f := FormattedError("Google API error: " + d, "HTTP_" + StatusText(e.status), Some(d));
    assert FormatGoogleApiError(e) == f;
    DefaultCaseText(d, f.code);
  }

  lemma DefaultCaseText(d: string, code: string)
    requires d != ""
    ensures ToolErrorText(FormattedError("Google API error: " + d, code, Some(d)))
      == "Error: Google API error: " + d + "\nDetails: " + d
  {
    var msg := "Google API error: " + d;
    assert |msg| > |d|;
    assert "Error: " + msg == "Error: Google API error: " + d;
  }

  /** A non-API error never shows a Details line. */
  lemma NonApiHasNoDetails(e: Thrown)
    requires !e.ApiError?
    ensures FormatToolError(e) == "Error: " + (if e.PlainError? then e.message else "An unexpected error occurred")
  {
  }
}
