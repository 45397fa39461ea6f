/**
 * The request-validation error handler of app.py: it looks at the first
 * validation error only and turns its location into a 400 response.
 */
module Validation {
  import opened Wrappers

  /** One component of an error location: a field name or a list index. */
  datatype LocPart = Field(name: string) | Index(i: int)

  /** One entry of the validation error list: where it is and what is wrong. */
  datatype FieldError = FieldError(loc: seq<LocPart>, msg: string)

  /** The JSON body of the response; `reason` is absent for an empty payload. */
  datatype ErrorBody = ErrorBody(statusCode: string, message: string, reason: Option<string>)

  datatype JsonResponse = JsonResponse(status: int, body: ErrorBody)

  const BadRequest: int := 400
  const ErrorCode: string := "SCR400"

  /** Character of the decimal digit `d`. */
  function DigitChar(d: nat): (c: char)
    requires d < 10
    ensures '0' <= c <= '9'
  {
    "0123456789"[d]
  }

  /** Value of a decimal digit character. */
  function DigitValue(c: char): (d: nat)
    requires '0' <= c <= '9'
    ensures d < 10
  {
    (c as int - '0' as int) as nat
  }

  /** Decimal rendering of a natural number, without leading zeros. */
  function NatToString(n: nat): (s: string)
    ensures |s| > 0
    ensures forall i :: 0 <= i < |s| ==> '0' <= s[i] <= '9'
    // no leading zero: only 0 itself starts with '0'
    ensures s[0] == '0' <==> n == 0
    ensures |s| > 1 ==> s[0] != '0'
  {
    if n < 10 then [DigitChar(n)] else NatToString(n / 10) + [DigitChar(n % 10)]
  }

  /** Python's `str` of an int. */
  function IntToString(i: int): (s: string)
    ensures |s| > 0
    // a sign only on negative numbers, and never "-0"
    ensures s[0] == '-' <==> i < 0
    ensures i < 0 ==> |s| > 1 && '1' <= s[1] <= '9'
  {
    if i < 0 then "-" + NatToString(-i) else NatToString(i)
  }

  /** Reads back a string of decimal digits. */
  function ParseNat(s: string): nat
    requires forall i :: 0 <= i < |s| ==> '0' <= s[i] <= '9'
  {
    if |s| == 0 then 0 else 10 * ParseNat(s[..|s| - 1]) + DigitValue(s[|s| - 1])
  }

  /** An optional minus sign followed by decimal digits. */
  predicate IsNumeral(s: string) {
    |s| > 0 && forall i :: (if s[0] == '-' then 1 else 0) <= i < |s| ==> '0' <= s[i] <= '9'
  }

  /** Reads back an optionally negative decimal number. */
  function ParseInt(s: string): int
    requires IsNumeral(s)
  {
    if s[0] == '-' then -(ParseNat(s[1..]) as int) else ParseNat(s)
  }

  lemma {:induction false} ParseNatToString(n: nat)
    ensures ParseNat(NatToString(n)) == n
  {
    if n >= 10 {
      var s := NatToString(n);
      assert s[..|s| - 1] == NatToString(n / 10);
      ParseNatToString(n / 10);
    }
  }

  /** Rendering an index component loses nothing: it reads back as the same int. */
  lemma IntToStringRoundTrip(i: int)
    ensures IsNumeral(IntToString(i)) && ParseInt(IntToString(i)) == i
  {
    if i < 0 {
      ParseNatToString(-i);
      MinusNumeral(NatToString(-i));
    } else {
      ParseNatToString(i);
    }
  }

  /** A minus sign before a string of digits reads back as the negated number. */
  lemma MinusNumeral(t: string)
    requires |t| > 0 && forall k :: 0 <= k < |t| ==> '0' <= t[k] <= '9'
    ensures IsNumeral("-" + t) && ParseInt("-" + t) == -(ParseNat(t) as int)
  {
    var s := "-" + t;
    assert s[1..] == t;
    assert forall k :: 1 <= k < |s| ==> s[k] == t[k - 1];
  }

  /** `str(s)` of one location component. */
  function Render(p: LocPart): string {
    match p
    case Field(name) => name
    case Index(i) => IntToString(i)
  }

  function RenderAll(ps: seq<LocPart>): (r: seq<string>)
    ensures |r| == |ps|
    ensures forall k :: 0 <= k < |ps| ==> r[k] == Render(ps[k])
  {
    if |ps| == 0 then [] else [Render(ps[0])] + RenderAll(ps[1..])
  }

  lemma {:induction false} RenderAllAppend(a: seq<LocPart>, b: seq<LocPart>)
    ensures RenderAll(a + b) == RenderAll(a) + RenderAll(b)
  {
    var l, r := RenderAll(a + b), RenderAll(a) + RenderAll(b);
    assert |l| == |r|;
    forall k | 0 <= k < |l| ensures l[k] == r[k] {
      if k < |a| { assert (a + b)[k] == a[k]; } else { assert (a + b)[k] == b[k - |a|]; }
    }
  }

  /** Python's `sep.join(parts)`. */
  function Join(sep: string, parts: seq<string>): string {
    if |parts| == 0 then ""
    else if |parts| == 1 then parts[0]
    else parts[0] + sep + Join(sep, parts[1..])
  }

  /** Joining two non-empty lists is joining each and putting one separator between. */
  lemma {:induction false} JoinAppend(sep: string, a: seq<string>, b: seq<string>)
    requires |a| > 0 && |b| > 0
    ensures Join(sep, a + b) == Join(sep, a) + sep + Join(sep, b)
  {
    if |a| == 1 {
      assert (a + b)[1..] == b;
    } else {
      assert (a + b)[1..] == a[1..] + b;
      JoinAppend(sep, a[1..], b);
    }
  }

  function SumLengths(parts: seq<string>): nat {
    if |parts| == 0 then 0 else |parts[0]| + SumLengths(parts[1..])
  }

  /** A join is exactly as long as its parts plus one separator between each pair. */
  lemma {:induction false} JoinLength(sep: string, parts: seq<string>)
    requires |parts| > 0
    ensures |Join(sep, parts)| == SumLengths(parts) + (|parts| - 1) * |sep|
  {
    if |parts| > 1 {
      JoinLength(sep, parts[1..]);
    }
  }

  /**
   * The message for invalid fields: "Invalid , " and then the location
   * after its first component.
   */
  function InvalidFieldsMessage(loc: seq<LocPart>): (m: string)
    requires |loc| >= 1
    ensures |m| >= |InvalidPrefix| && m[..|InvalidPrefix|] == InvalidPrefix
    ensures |loc| == 2 ==> m == InvalidPrefix + Render(loc[1])
  {
    "Invalid " + ", " + Join(" ,", RenderAll(loc[1..]))
  }

  const InvalidPrefix: string := "Invalid , "

  /**
   * What the framework sends when the handler itself raises: the handler
   * indexes the first error and the second component of its location, and
   * an `IndexError` there becomes a plain 500 without the JSON body.
   */
  const IndexError: string := "IndexError"

  /**
   * validation_error_handler. The first error's location needs a second
   * component; an int there means the body was empty.
   */
  function ValidationErrorResponse(errors: seq<FieldError>): (r: Result<JsonResponse, string>)
    ensures r.Failure? <==> |errors| == 0 || |errors[0].loc| < 2
    ensures r.Failure? ==> r.error == IndexError
    ensures r.Success? ==> r.value.status == BadRequest && r.value.body.statusCode == ErrorCode
    ensures r.Success? ==> (errors[0].loc[1].Index? <==> r.value.body.reason.None?)
    ensures r.Success? && errors[0].loc[1].Index? ==> r.value.body.message == "Empty Payload"
    ensures r.Success? && errors[0].loc[1].Field? ==>
      r.value.body.reason == Some(errors[0].msg) && r.value.body.message == InvalidFieldsMessage(errors[0].loc)
  {
    if |errors| == 0 || |errors[0].loc| < 2 then Failure(IndexError)
    else
      var loc := errors[0].loc;
      if loc[1].Index? then
        Success(JsonResponse(BadRequest, ErrorBody(ErrorCode, "Empty Payload", None)))
      else
        Success(JsonResponse(BadRequest, ErrorBody(ErrorCode, InvalidFieldsMessage(loc), Some(errors[0].msg))))
  }

  /** Only the first error is looked at: what follows it never changes the response. */
  lemma OnlyFirstErrorMatters(first: FieldError, rest1: seq<FieldError>, rest2: seq<FieldError>)
    ensures ValidationErrorResponse([first] + rest1) == ValidationErrorResponse([first] + rest2)
  {
  }

  /**
   * A missing body is reported at the location `("body",)`, which has no
   * second component: the handler raises instead of answering 400.
   */
  lemma MissingBodyRaises(msg: string, rest: seq<FieldError>)
    ensures ValidationErrorResponse([FieldError([Field("body")], msg)] + rest) == Failure(IndexError)
  {
  }

  /** A body field `email` reported as `("body", "email")` gives the message "Invalid , email". */
  lemma SingleFieldMessage(name: string, msg: string, rest: seq<FieldError>)
    ensures ValidationErrorResponse([FieldError([Field("body"), Field(name)], msg)] + rest)
            == Success(JsonResponse(400, ErrorBody("SCR400", "Invalid , " + name, Some(msg))))
  {
    var loc := [Field("body"), Field(name)];
    assert loc[1..] == [Field(name)];
    assert RenderAll(loc[1..]) == [name];
  }

  /**
   * A location with several components renders each after the first, in
   * order, separated by " ,": the message for `loc + more` extends the
   * message for `loc`.
   */
  lemma {:induction false} MessageExtends(loc: seq<LocPart>, more: seq<LocPart>)
    requires |loc| >= 2 && |more| > 0
    ensures InvalidFieldsMessage(loc + more)
            == InvalidFieldsMessage(loc) + " ," + Join(" ,", RenderAll(more))
  {
    var a, b := RenderAll(loc[1..]), RenderAll(more);
    assert (loc + more)[1..] == loc[1..] + more;
    assert RenderAll((loc + more)[1..]) == a + b by { RenderAllAppend(loc[1..], more); }
    assert Join(" ,", a + b) == Join(" ,", a) + " ," + Join(" ,", b) by { JoinAppend(" ,", a, b); }
  }
}
