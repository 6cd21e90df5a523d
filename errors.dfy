/** Error values of the service (error.go) and the two pieces of Go's `errors`
    package the shutdown and handler code relies on: `errors.Join`, which
    aggregates cleanup failures, and `errors.As`, which picks the APIError a
    handler returned. */
module Errors {
  import opened Wrappers

  /** The APIError record: an HTTP status code and a message. */
  datatype APIError = APIError(code: int, message: string)

  /** A non-nil Go `error`, as far as the service can tell errors apart. */
  datatype Err =
    | Api(api: APIError)       // an APIError value
    | Other(text: string)      // any other error, by its Error() text
    | Joined(errs: seq<Err>)   // the value errors.Join returns

  /* ---------- APIError.Error(): "api error: code=%d, message=%s" ---------- */

  const Prefix := "api error: code="
  const Separator := ", message="

  predicate IsDigit(c: char) {
    '0' <= c <= '9'
  }

  predicate AllDigits(s: string) {
    forall i :: 0 <= i < |s| ==> IsDigit(s[i])
  }

  function Digit(d: nat): (c: char)
    requires d < 10
    ensures IsDigit(c) && c as int - '0' as int == d
  {
    ('0' as int + d) as char
  }

  /** `%d` of a non-negative integer: its decimal digits, no leading zero. */
  function NatToDecimal(n: nat): (s: string)
    ensures 0 < |s| && AllDigits(s)
    ensures n < 10 <==> |s| == 1
    decreases n
  {
    if n < 10 then [Digit(n)] else NatToDecimal(n / 10) + [Digit(n % 10)]
  }

  /** `%d` of any Go int: a minus sign before the digits of a negative value. */
  function IntToDecimal(n: int): (s: string)
    ensures 0 < |s|
    ensures forall i :: 0 <= i < |s| ==> IsDigit(s[i]) || s[i] == '-'
  {
    if n < 0 then "-" + NatToDecimal(-n) else NatToDecimal(n)
  }

  /** The rendering of APIError.Error(). */
  function Render(e: APIError): (s: string)
    ensures |s| == |Prefix| + |IntToDecimal(e.code)| + |Separator| + |e.message|
    ensures s[..|Prefix|] == Prefix
    ensures s[|s| - |e.message|..] == e.message
  {
    Prefix + IntToDecimal(e.code) + Separator + e.message
  }

  /* ---------- reading a rendered APIError back ---------- */

  /** The value of a string of decimal digits. */
  function DecimalValue(s: string): nat
    requires AllDigits(s)
  {
    if |s| == 0 then 0
    else DecimalValue(s[..|s| - 1]) * 10 + (s[|s| - 1] as int - '0' as int)
  }

  /** Reads an optionally negative decimal integer. */
  function ParseDecimal(s: string): Option<int> {
    if 1 < |s| && s[0] == '-' && AllDigits(s[1..]) then Some(-(DecimalValue(s[1..]) as int))
    else if 0 < |s| && AllDigits(s) then Some(DecimalValue(s))
    else None
  }

  /** Index of the first ',' in s, or |s| when there is none. */
  function FirstComma(s: string): (k: nat)
    ensures k <= |s|
    ensures forall i :: 0 <= i < k ==> s[i] != ','
    ensures k < |s| ==> s[k] == ','
  {
    if |s| == 0 then 0 else if s[0] == ',' then 0 else 1 + FirstComma(s[1..])
  }

  /** Splits a rendered APIError at the first ", message=". */
  function ParseRendered(s: string): Option<APIError> {
    if |s| < |Prefix| || s[..|Prefix|] != Prefix then None
    else
      var rest := s[|Prefix|..];
      var k := FirstComma(rest);
      if |rest| - k < |Separator| || rest[k..k + |Separator|] != Separator then None
      else
        match ParseDecimal(rest[..k])
        case None => None
        case Some(code) => Some(APIError(code, rest[k + |Separator|..]))
  }

  lemma {:induction false} NatToDecimalRoundTrip(n: nat)
    ensures DecimalValue(NatToDecimal(n)) == n
    decreases n
  {
    if n >= 10 {
      NatToDecimalRoundTrip(n / 10);
      var s := NatToDecimal(n);
      assert s[..|s| - 1] == NatToDecimal(n / 10);
    }
  }

  lemma IntToDecimalRoundTrip(n: int)
    ensures ParseDecimal(IntToDecimal(n)) == Some(n)
  {
    NatToDecimalRoundTrip(if n < 0 then -n else n);
    if n < 0 {
      assert IntToDecimal(n)[1..] == NatToDecimal(-n);
    }
  }

  lemma {:induction false} FirstCommaAfter(a: string, b: string)
    requires forall i :: 0 <= i < |a| ==> a[i] != ','
    requires 0 < |b| && b[0] == ','
    ensures FirstComma(a + b) == |a|
  {
    if |a| > 0 {
      assert (a + b)[1..] == a[1..] + b;
      FirstCommaAfter(a[1..], b);
    }
  }

  /** The rendering can be read back: code and message are recovered. */
  lemma RenderRoundTrip(e: APIError)
    ensures ParseRendered(Render(e)) == Some(e)
  {
    var digits := IntToDecimal(e.code);
    var s := Render(e);
    var rest := s[|Prefix|..];
    assert rest == digits + (Separator + e.message);
    FirstCommaAfter(digits, Separator + e.message);
    assert rest[..|digits|] == digits;
    assert rest[|digits|..|digits| + |Separator|] == Separator;
    assert rest[|digits| + |Separator|..] == e.message;
    IntToDecimalRoundTrip(e.code);
  }

  /** Distinct APIErrors never render to the same text. */
  lemma RenderInjective(e1: APIError, e2: APIError)
    requires Render(e1) == Render(e2)
    ensures e1 == e2
  {
    RenderRoundTrip(e1);
    RenderRoundTrip(e2);
  }

  /* ---------- errors.Join ---------- */

  /** The non-nil entries of an argument list, in order. */
  function Present(os: seq<Option<Err>>): (es: seq<Err>)
    ensures |es| <= |os|
  {
    if |os| == 0 then []
    else Present(os[..|os| - 1]) + (if os[|os| - 1].Some? then [os[|os| - 1].value] else [])
  }

  /** errors.Join(os...): nil when every argument is nil, otherwise one error
      that wraps the non-nil arguments in order. */
  function Join(os: seq<Option<Err>>): Option<Err> {
    var es := Present(os);
    if |es| == 0 then None else Some(Joined(es))
  }

  /* ---------- what an error holds ---------- */

  /** The non-joined errors inside an error, depth first, in order. */
  function Flatten(e: Err): seq<Err>
    decreases e, 1
  {
    match e
    case Joined(es) => FlattenAll(es)
    case _ => [e]
  }

  function FlattenAll(es: seq<Err>): seq<Err>
    decreases es, 0
  {
    if |es| == 0 then [] else Flatten(es[0]) + FlattenAll(es[1..])
  }

  function FlattenOpt(o: Option<Err>): seq<Err> {
    if o.Some? then Flatten(o.value) else []
  }

  /** The first APIError of a sequence of non-joined errors. */
  function FirstApi(leaves: seq<Err>): Option<APIError> {
    if |leaves| == 0 then None
    else if leaves[0].Api? then Some(leaves[0].api)
    else FirstApi(leaves[1..])
  }

  /* ---------- errors.As(err, &apiErr) ---------- */

  /** errors.As with an APIError target: the error itself if it is one,
      otherwise the first match in a depth-first walk of what it wraps. */
  function AsApiError(e: Err): Option<APIError>
    decreases e, 1
  {
    match e
    case Api(a) => Some(a)
    case Other(_) => None
    case Joined(es) => AsApiErrorAll(es)
  }

  function AsApiErrorAll(es: seq<Err>): Option<APIError>
    decreases es, 0
  {
    if |es| == 0 then None
    else if AsApiError(es[0]).Some? then AsApiError(es[0])
    else AsApiErrorAll(es[1..])
  }

  lemma {:induction false} FirstApiAppend(a: seq<Err>, b: seq<Err>)
    ensures FirstApi(a + b) == if FirstApi(a).Some? then FirstApi(a) else FirstApi(b)
  {
    if |a| > 0 {
      assert (a + b)[0] == a[0];
      assert (a + b)[1..] == a[1..] + b;
      FirstApiAppend(a[1..], b);
    } else {
      assert a + b == b;
    }
  }

  /** errors.As finds exactly the first APIError among the errors an error
      holds, so nesting by errors.Join never hides or reorders one. */
  lemma {:induction false} AsApiErrorIsFirstLeaf(e: Err)
    ensures AsApiError(e) == FirstApi(Flatten(e))
    decreases e, 1
  {
    match e
    case Api(_) =>
    case Other(_) =>
    case Joined(es) => AsApiErrorAllIsFirstLeaf(es);
  }

  lemma {:induction false} AsApiErrorAllIsFirstLeaf(es: seq<Err>)
    ensures AsApiErrorAll(es) == FirstApi(FlattenAll(es))
    decreases es, 0
  {
    if |es| > 0 {
      AsApiErrorIsFirstLeaf(es[0]);
      AsApiErrorAllIsFirstLeaf(es[1..]);
      FirstApiAppend(Flatten(es[0]), FlattenAll(es[1..]));
    }
  }
}
