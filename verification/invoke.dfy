/** Running an endpoint method against the client object: an unauthenticated
    endpoint goes straight to `CallAsync`; an authenticated one first calls
    `GenerateSignature`, which overwrites `_nonce`, and then `CallAsyncSign`,
    which throws. */
module Invocation {
  import opened Wrappers
  import opened Text
  import opened Hex
  import opened HttpMethods
  import opened Signing
  import opened Dispatch
  import opened Endpoints

  /** The object after the call, the signature computed (if any) and the
      transport call issued or the exception thrown. */
  datatype Outcome = Outcome(api: RestApi, signature: Option<string>, result: Result<TransportCall>)

  function Invoke(api: RestApi, e: Endpoint, freshNonce: int64, utf8: Utf8Encoder, mac: Mac): (r: Outcome)
    ensures Describe(e).Unsigned? ==>
      && r.api == api
      && r.signature == None
      && r.result.Ok?
      && r.result.value.resource == Describe(e).resource
      && ToUpper(OpName(r.result.value.op)) == Name(Describe(e).verb)
    ensures Describe(e).Signed? ==>
      && r.api == api.(nonce := freshNonce)
      && r.result.Err? && r.result.error.NotImplementedException?
      && r.signature == Some(LowerHex(mac(api.macKey, utf8(CanonicalString(
           freshNonce, Describe(e).verb, "/" + Describe(e).resource, SignedBodyOf(Describe(e).body))))))
  {
    match Describe(e)
    case Unsigned(verb, resource) =>
      CallAsyncTotalOnVerbs(verb, resource, None);
      Outcome(api, None, CallAsync(Code(verb), resource))
    case Signed(signedVerb, signedUrl, signedBody, verb, resource, body) =>
      var sign := GenerateSignature(api, signedVerb, signedUrl, signedBody, freshNonce, utf8, mac);
      var result := CallAsyncSign(verb, resource, sign.digest, body);
      Outcome(sign.api, Some(sign.digest), Err(result.error))
  }

  /** A signed request without a body signs just nonce, verb and url; with
      `Describe`'s guarantee this covers every bodyless signed endpoint. */
  lemma BodylessSignedString(r: Request, nonce: int64)
    requires r.Signed? && SignsWhatItSends(r) && r.body.None?
    ensures CanonicalString(nonce, r.signedVerb, r.signedUrl, r.signedBody)
         == Decimal(nonce) + Name(r.verb) + "/" + r.resource
  {
    assert Decimal(nonce) + Name(r.verb) + ("/" + r.resource) + ""
        == Decimal(nonce) + Name(r.verb) + "/" + r.resource;
  }

  // ---------------------------------------------------------------------
  // A sequence of calls on one object
  // ---------------------------------------------------------------------

  /** One endpoint call and the clock reading it would take as nonce. */
  datatype Call = Call(endpoint: Endpoint, nonce: int64)

  /** The object after running the calls in order. */
  function RunAll(api: RestApi, calls: seq<Call>, utf8: Utf8Encoder, mac: Mac): (r: RestApi)
    ensures r.client == api.client && r.macKey == api.macKey
    decreases |calls|
  {
    if |calls| == 0 then api
    else RunAll(Invoke(api, calls[0].endpoint, calls[0].nonce, utf8, mac).api, calls[1..], utf8, mac)
  }

  /** The nonce of the last authenticated call, or `initial` if there is
      none. */
  function LastSignedNonce(calls: seq<Call>, initial: int64): int64
    decreases |calls|
  {
    if |calls| == 0 then initial
    else if Describe(calls[|calls| - 1].endpoint).Signed? then calls[|calls| - 1].nonce
    else LastSignedNonce(calls[..|calls| - 1], initial)
  }

  /** The nonce that survives the first call. */
  function NonceAfterFirst(c: Call, initial: int64): int64
  {
    if Describe(c.endpoint).Signed? then c.nonce else initial
  }

  lemma {:induction false} LastSignedNonceFromFront(calls: seq<Call>, initial: int64)
    requires |calls| > 0
    ensures LastSignedNonce(calls[1..], NonceAfterFirst(calls[0], initial)) == LastSignedNonce(calls, initial)
    decreases |calls|
  {
    if |calls| > 1 {
      var last := calls[|calls| - 1];
      var init := calls[..|calls| - 1];
      assert calls[1..][..|calls[1..]| - 1] == init[1..];
      if !Describe(last.endpoint).Signed? {
        LastSignedNonceFromFront(init, initial);
      }
    }
  }

  /** After any sequence of calls the shared `_nonce` field holds the nonce of
      the most recent authenticated call: each signed call overwrites it,
      unauthenticated calls leave it alone. */
  lemma {:induction false} RunAllKeepsLastSignedNonce(api: RestApi, calls: seq<Call>, utf8: Utf8Encoder, mac: Mac)
    ensures RunAll(api, calls, utf8, mac).nonce == LastSignedNonce(calls, api.nonce)
    decreases |calls|
  {
    if |calls| > 0 {
      var next := Invoke(api, calls[0].endpoint, calls[0].nonce, utf8, mac).api;
      assert next.nonce == NonceAfterFirst(calls[0], api.nonce);
      RunAllKeepsLastSignedNonce(next, calls[1..], utf8, mac);
      LastSignedNonceFromFront(calls, api.nonce);
    }
  }
}
