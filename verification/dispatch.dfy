/** The two private dispatchers. `CallAsync` switches on the verb and issues
    the same-named transport call on the resource; `CallAsyncSign`, whose
    header-building body is commented out, throws unconditionally.

    The transport itself (base URL, timeout, async I/O, the response) is not
    modelled: a dispatch yields the transport call it would issue. */
module Dispatch {
  import opened Wrappers
  import opened Text
  import opened HttpMethods

  /** The verb methods of the REST client's resource object. */
  datatype TransportOp = Delete | Get | Head | Options | Patch | Post | Put | Trace

  /** The transport method's identifier. */
  function OpName(op: TransportOp): string
  {
    match op
    case Delete => "Delete"
    case Get => "Get"
    case Head => "Head"
    case Options => "Options"
    case Patch => "Patch"
    case Post => "Post"
    case Put => "Put"
    case Trace => "Trace"
  }

  /** `Resource(endpoint).<op>()`. */
  datatype TransportCall = TransportCall(op: TransportOp, resource: string)

  const NotValid: Exception := ArgumentException("HttpMethod not valid")

  /** `CallAsync`. The verb arrives as the byte an enum variable holds: every
      named verb has a case, and any other byte reaches the `ArgumentException`
      after the switch. The optional body is accepted and dropped. */
  function CallAsync(verb: byte, endpoint: string, body: Option<string> := None): (r: Result<TransportCall>)
    ensures r.Ok? <==> FromCode(verb).Some?
    ensures r.Ok? ==> r.value.resource == endpoint
    ensures r.Ok? ==> ToUpper(OpName(r.value.op)) == Name(FromCode(verb).value)
    ensures r.Err? ==> r.error == NotValid
  {
    if verb == Code(DELETE) then Ok(TransportCall(Delete, endpoint))
    else if verb == Code(GET) then Ok(TransportCall(Get, endpoint))
    else if verb == Code(HEAD) then Ok(TransportCall(Head, endpoint))
    else if verb == Code(OPTIONS) then Ok(TransportCall(Options, endpoint))
    else if verb == Code(PATCH) then Ok(TransportCall(Patch, endpoint))
    else if verb == Code(POST) then Ok(TransportCall(Post, endpoint))
    else if verb == Code(PUT) then Ok(TransportCall(Put, endpoint))
    else if verb == Code(TRACE) then Ok(TransportCall(Trace, endpoint))
    else Err(NotValid)
  }

  /** For every value of the enumeration the fallback is unreachable: the
      call goes through, to the transport method named after the verb. */
  lemma CallAsyncTotalOnVerbs(m: HttpMethod, endpoint: string, body: Option<string>)
    ensures CallAsync(Code(m), endpoint, body).Ok?
    ensures ToUpper(OpName(CallAsync(Code(m), endpoint, body).value.op)) == Name(m)
  {
    CodeRoundTrip(m);
  }

  /** Distinct verbs reach distinct transport methods. */
  lemma CallAsyncSeparatesVerbs(m: HttpMethod, m': HttpMethod, endpoint: string)
    requires m != m'
    ensures CallAsync(Code(m), endpoint).value.op != CallAsync(Code(m'), endpoint).value.op
  {
    CallAsyncTotalOnVerbs(m, endpoint, None);
    CallAsyncTotalOnVerbs(m', endpoint, None);
    if CallAsync(Code(m), endpoint).value.op == CallAsync(Code(m'), endpoint).value.op {
      NameInjective(m, m');
    }
  }

  /** The body argument never reaches the transport. */
  lemma CallAsyncIgnoresBody(verb: byte, endpoint: string, body: Option<string>, body': Option<string>)
    ensures CallAsync(verb, endpoint, body) == CallAsync(verb, endpoint, body')
  {
  }

  /** `CallAsyncSign`: nothing is sent; the call always ends in
      `NotImplementedException`, whatever it is given. */
  function CallAsyncSign(verb: HttpMethod, endpoint: string, sign: string, body: Option<string> := None): (r: Result<string>)
    ensures r.Err? && r.error.NotImplementedException?
  {
    Err(NotImplementedException)
  }
}
