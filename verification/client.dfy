/** The credential record. Its three properties are get-only, so a `Client`
    is an immutable value; a `null` sub-account is `None`. */
module Clients {
  import opened Wrappers

  datatype Client = Client(apiKey: string, apiSecret: string, subAccount: Option<string>)

  /** The parameterless constructor: an anonymous client whose three
      properties are all the empty string. */
  function EmptyClient(): (c: Client)
    ensures c.apiKey == "" && c.apiSecret == ""
    ensures c.subAccount == Some("")
  {
    Client("", "", Some(""))
  }

  /** The three-argument constructor; omitting `subaccount` passes `None`. */
  function NewClient(apiKey: string, apiSecret: string, subaccount: Option<string> := None): (c: Client)
    ensures c.apiKey == apiKey && c.apiSecret == apiSecret
    ensures c.subAccount == subaccount
  {
    Client(apiKey, apiSecret, subaccount)
  }

  /** Even with empty key and secret, the three-argument constructor does not
      rebuild the anonymous client: its sub-account is `null`, not `""`. */
  lemma EmptyCredentialsDifferFromAnonymous()
    ensures NewClient("", "").subAccount == None
    ensures NewClient("", "") != EmptyClient()
  {
  }
}
