/** The `HttpMethod` enumeration: eight verbs, stored in a byte, numbered in
    declaration order. */
module HttpMethods {
  import opened Wrappers
  import opened Text

  datatype HttpMethod = DELETE | GET | HEAD | OPTIONS | PATCH | POST | PUT | TRACE

  /** The verbs in declaration order. */
  const AllMethods: seq<HttpMethod> := [DELETE, GET, HEAD, OPTIONS, PATCH, POST, PUT, TRACE]

  /** The byte that stores a verb: its position in the declaration. */
  function Code(m: HttpMethod): (b: byte)
    ensures b < |AllMethods| && AllMethods[b] == m
  {
    match m
    case DELETE => 0
    case GET => 1
    case HEAD => 2
    case OPTIONS => 3
    case PATCH => 4
    case POST => 5
    case PUT => 6
    case TRACE => 7
  }

  /** The named verb a byte stands for, if any. A C# enum variable can hold
      any byte; only 0 to 7 have a name. */
  function FromCode(b: byte): (r: Option<HttpMethod>)
    ensures r.Some? <==> b < 8
    ensures r.Some? ==> Code(r.value) == b
  {
    if b < 8 then Some(AllMethods[b]) else None
  }

  /** Every verb is listed once, and nothing else is. */
  lemma ExactlyEightVerbs()
    ensures |AllMethods| == 8
    ensures forall m: HttpMethod :: m in AllMethods
    ensures forall i, j :: 0 <= i < j < |AllMethods| ==> AllMethods[i] != AllMethods[j]
  {
    forall m: HttpMethod ensures m in AllMethods {
      assert AllMethods[Code(m)] == m;
    }
  }

  /** Storing a verb and reading it back gives the same verb. */
  lemma CodeRoundTrip(m: HttpMethod)
    ensures FromCode(Code(m)) == Some(m)
  {
  }

  /** `ToString()` of a named verb: the identifier as declared. */
  function Name(m: HttpMethod): (s: string)
    ensures |s| > 0
    ensures forall i :: 0 <= i < |s| ==> IsUpperAscii(s[i])
  {
    match m
    case DELETE => "DELETE"
    case GET => "GET"
    case HEAD => "HEAD"
    case OPTIONS => "OPTIONS"
    case PATCH => "PATCH"
    case POST => "POST"
    case PUT => "PUT"
    case TRACE => "TRACE"
  }

  /** `ToUpper()` leaves every verb name as it is. */
  lemma UpperNameIsName(m: HttpMethod)
    ensures ToUpper(Name(m)) == Name(m)
  {
    ToUpperFixesUpper(Name(m));
  }

  /** No verb name is a prefix of another one. */
  lemma NamesPrefixFree(m: HttpMethod, n: HttpMethod)
    requires Name(m) <= Name(n)
    ensures m == n
  {
    var a, b := Name(m), Name(n);
    assert a[0] == b[0];
    if |a| > 1 { assert a[1] == b[1]; }
    if |a| > 2 { assert a[2] == b[2]; }
  }

  /** Distinct verbs have distinct names. */
  lemma NameInjective(m: HttpMethod, n: HttpMethod)
    requires Name(m) == Name(n)
    ensures m == n
  {
    NamesPrefixFree(m, n);
  }
}
