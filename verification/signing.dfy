/** The signer: the client object's own state (`_client`, the HMAC keyed at
    construction, the `_nonce` field) and `GenerateSignature`, which stores a
    fresh nonce and signs `nonce ++ VERB ++ url ++ body`.

    HMAC-SHA256 and `Encoding.UTF8.GetBytes` are library calls; they enter the
    model as function parameters, and the wall-clock nonce enters as a
    parameter of each call. */
module Signing {
  import opened Wrappers
  import opened Text
  import opened Hex
  import opened HttpMethods
  import opened Clients

  /** A C# `long`. */
  type int64 = x: int | -0x8000_0000_0000_0000 <= x < 0x8000_0000_0000_0000

  /** `Encoding.UTF8.GetBytes`. */
  type Utf8Encoder = string -> seq<byte>

  /** HMAC-SHA256 as a function of key bytes and message bytes. */
  type Mac = (seq<byte>, seq<byte>) -> seq<byte>

  /** The fields of an `FtxRestApi` object that the signer touches. The
      transport fields hold no state the model observes. */
  datatype RestApi = RestApi(client: Client, macKey: seq<byte>, nonce: int64)

  /** The constructor: the HMAC is keyed once with the UTF-8 bytes of the
      client's secret; `_nonce` starts at the default value 0. */
  function NewRestApi(client: Client, utf8: Utf8Encoder): (api: RestApi)
    ensures api.client == client
    ensures api.macKey == utf8(client.apiSecret)
    ensures api.nonce == 0
  {
    RestApi(client, utf8(client.apiSecret), 0)
  }

  /** The string that is signed: decimal nonce, upper-cased verb name, url and
      body, with nothing in between. */
  function CanonicalString(nonce: int64, m: HttpMethod, url: string, body: string): (s: string)
    ensures s == Decimal(nonce) + Name(m) + url + body
  {
    UpperNameIsName(m);
    Decimal(nonce) + ToUpper(Name(m)) + url + body
  }

  /** The object after the call and the digest text returned. */
  datatype Signature = Signature(api: RestApi, digest: string)

  /** `GenerateSignature`: store `freshNonce` in `_nonce`, sign the canonical
      string built from that field, render the hash as text. */
  function GenerateSignature(api: RestApi, m: HttpMethod, url: string, requestBody: string,
                             freshNonce: int64, utf8: Utf8Encoder, mac: Mac): (r: Signature)
    ensures r.api == api.(nonce := freshNonce)
    ensures r.digest == LowerHex(mac(api.macKey, utf8(CanonicalString(freshNonce, m, url, requestBody))))
    ensures |r.digest| == 2 * |mac(api.macKey, utf8(CanonicalString(freshNonce, m, url, requestBody)))|
  {
    var stored := api.(nonce := freshNonce);
    var hash := mac(stored.macKey, utf8(CanonicalString(stored.nonce, m, url, requestBody)));
    RenderDigestIsLowerHex(hash);
    Signature(stored, RenderDigest(hash))
  }

  // ---------------------------------------------------------------------
  // The canonical string determines nonce and verb
  // ---------------------------------------------------------------------

  /** The length of the leading run of numeric characters. */
  function NumericRun(s: string): nat
  {
    if |s| == 0 || !IsNumeric(s[0]) then 0 else 1 + NumericRun(s[1..])
  }

  lemma {:induction false} NumericRunOfConcat(a: string, b: string)
    requires forall i :: 0 <= i < |a| ==> IsNumeric(a[i])
    requires |b| > 0 && !IsNumeric(b[0])
    ensures NumericRun(a + b) == |a|
  {
    if |a| > 0 {
      assert (a + b)[1..] == a[1..] + b;
      NumericRunOfConcat(a[1..], b);
    } else {
      assert a + b == b;
    }
  }

  /** Splitting a string at its first non-numeric character is unambiguous. */
  lemma NumericPrefixSplit(a: string, b: string, a': string, b': string)
    requires forall i :: 0 <= i < |a| ==> IsNumeric(a[i])
    requires forall i :: 0 <= i < |a'| ==> IsNumeric(a'[i])
    requires |b| > 0 && !IsNumeric(b[0])
    requires |b'| > 0 && !IsNumeric(b'[0])
    requires a + b == a' + b'
    ensures a == a' && b == b'
  {
    NumericRunOfConcat(a, b);
    NumericRunOfConcat(a', b');
    assert a == (a + b)[..|a|] == (a' + b')[..|a|] == a';
    assert b == (a + b)[|a|..] == (a' + b')[|a|..] == b';
  }

  /** Verb names are prefix-free, so a verb followed by anything can be
      split back into the verb and the rest. */
  lemma VerbPrefixSplit(m: HttpMethod, rest: string, m': HttpMethod, rest': string)
    requires Name(m) + rest == Name(m') + rest'
    ensures m == m' && rest == rest'
  {
    var a, a' := Name(m), Name(m');
    if |a| <= |a'| {
      assert a == (a + rest)[..|a|] == (a' + rest')[..|a|] == a'[..|a|];
      NamesPrefixFree(m, m');
    } else {
      assert a' == (a' + rest')[..|a'|] == (a + rest)[..|a'|] == a[..|a'|];
      NamesPrefixFree(m', m);
    }
    assert rest == (a + rest)[|a|..] == (a' + rest')[|a|..] == rest';
  }

  /** Two requests with the same canonical string have the same nonce and the
      same verb. Only the url and body together are determined: the string
      has no separator between them. */
  lemma CanonicalStringDeterminesNonceAndVerb(n: int64, m: HttpMethod, url: string, body: string,
                                              n': int64, m': HttpMethod, url': string, body': string)
    requires CanonicalString(n, m, url, body) == CanonicalString(n', m', url', body')
    ensures n == n' && m == m'
    ensures url + body == url' + body'
  {
    var r, r' := Name(m) + (url + body), Name(m') + (url' + body');
    CanonicalStringSplit(n, m, url, body);
    CanonicalStringSplit(n', m', url', body');
    NumericPrefixSplit(Decimal(n), r, Decimal(n'), r');
    DecimalInjective(n, n');
    VerbPrefixSplit(m, url + body, m', url' + body');
  }

  lemma CanonicalStringSplit(n: int64, m: HttpMethod, url: string, body: string)
    ensures CanonicalString(n, m, url, body) == Decimal(n) + (Name(m) + (url + body))
    ensures !IsNumeric((Name(m) + (url + body))[0])
  {
    var d := Decimal(n);
    assert d + Name(m) + url + body == d + (Name(m) + (url + body));
    assert (Name(m) + (url + body))[0] == Name(m)[0];
  }

  /** Unless the two signed strings collide under encoding and MAC, equal
      digests from one object mean the same nonce, the same verb and the same
      url and body text. */
  lemma DigestDeterminesNonceAndVerb(api: RestApi, utf8: Utf8Encoder, mac: Mac,
                                     m: HttpMethod, url: string, body: string, n: int64,
                                     m': HttpMethod, url': string, body': string, n': int64)
    requires mac(api.macKey, utf8(CanonicalString(n, m, url, body)))
             == mac(api.macKey, utf8(CanonicalString(n', m', url', body')))
             ==> CanonicalString(n, m, url, body) == CanonicalString(n', m', url', body')
    requires GenerateSignature(api, m, url, body, n, utf8, mac).digest
          == GenerateSignature(api, m', url', body', n', utf8, mac).digest
    ensures n == n' && m == m' && url + body == url' + body'
  {
    var s, s' := CanonicalString(n, m, url, body), CanonicalString(n', m', url', body');
    LowerHexInjective(mac(api.macKey, utf8(s)), mac(api.macKey, utf8(s')));
    CanonicalStringDeterminesNonceAndVerb(n, m, url, body, n', m', url', body');
  }

  /** The worked example: nonce 1000, GET, `/api/account`, empty body. */
  lemma AccountInfoCanonicalExample()
    ensures CanonicalString(1000, GET, "/api/account", "") == "1000GET/api/account"
  {
    assert Decimal(1000) == "1000";
  }
}
