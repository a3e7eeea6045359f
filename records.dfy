/**
 * The result records of cert_verifier (`TransactionData`, `IssuerKey`,
 * `IssuerInfo`), held as plain values; their own modules are not part of this model.
 */
module Records {
  import opened Wrappers
  import opened Json

  /**
   * `TransactionData(signing_key, op_return, date_time_utc, revoked_addresses)`.
   * Etherscan passes `revoked_addresses=None`, shown as `None` here.
   */
  datatype TransactionData = TransactionData(
    signingKey: Json,
    script: Json,
    time: Json,
    revokedAddresses: Option<set<Json>>)

  /** What a connector's `lookup_tx` returns: a record, `True` (MockConnector), or `None`. */
  datatype LookupValue = Record(tx: TransactionData) | Flag(b: bool) | NoValue

  /** Python's truth value of a lookup result: any record object is true. */
  predicate TruthyValue(v: LookupValue) {
    match v
    case Record(_) => true
    case Flag(b) => b
    case NoValue => false
  }

  /** `IssuerKey(public_key, created, expires, revoked)`; arguments left out are `JNull`. */
  datatype IssuerKey = IssuerKey(publicKey: Json, created: Json, expires: Json, revoked: Json)

  /**
   * `IssuerInfo(issuer_keys, revocation_keys=..., revoked_assertions=...)`; a keyword
   * argument the call leaves out (so the constructor's default applies) is `None`.
   */
  datatype IssuerInfo = IssuerInfo(
    issuerKeys: seq<IssuerKey>,
    revocationKeys: Option<seq<IssuerKey>>,
    revokedAssertions: Option<seq<Json>>)
}

/** The HTTP requests, with the remote side given as a function from URL to response. */
module Http {
  import opened Wrappers
  import opened Errors
  import opened Json

  /**
   * What `requests.get(url)` gives: an answer with a status code and the body
   * `r.json()` decodes (`None` when it is not JSON), or the exception raised
   * when no answer arrives (`Timeout`, `ConnectionError`).
   */
  datatype Response = Answered(status: int, body: Option<Json>) | Unreachable(error: Error)

  /** What each URL answers; the model's stand-in for `requests.get`. */
  type Network = string -> Response

  /** A URL format string with one `%s`: the text before it and after it. */
  datatype Template = Template(before: string, after: string)

  /** `template % arg` */
  function Fill(t: Template, arg: string): string {
    t.before + arg + t.after
  }

  /** The answer has a status other than 200. */
  predicate Refused(response: Response) {
    response.Answered? && response.status != 200
  }

  /** The answer has status 200 and a JSON body. */
  predicate Delivered(response: Response) {
    response.Answered? && response.status == 200 && response.body.Some?
  }

  /**
   * `TransactionLookupConnector.fetch_tx`: a status other than 200 raises
   * InvalidTransactionError; a request that raises lets its exception escape;
   * otherwise the decoded body.
   */
  function FetchTx(url: Template, txid: string, net: Network): (r: Result<Json, Error>)
    ensures Refused(net(Fill(url, txid))) ==> r == Err(InvalidTransaction(LookupFailed(txid)))
    ensures net(Fill(url, txid)).Unreachable? ==> r == Err(net(Fill(url, txid)).error)
    ensures r.Ok? <==> Delivered(net(Fill(url, txid)))
    ensures r.Ok? ==> r.value == net(Fill(url, txid)).body.value
  {
    match net(Fill(url, txid))
    case Unreachable(e) => Err(e)
    case Answered(status, body) =>
      if status != 200 then Err(InvalidTransaction(LookupFailed(txid)))
      else if body.None? then Err(ValueError)
      else Ok(body.value)
  }

  /**
   * `get_remote_json`: `None` (JNull) when the status is not 200; a request that
   * raises lets its exception escape.
   */
  function GetRemoteJson(url: string, net: Network): (r: Result<Json, Error>)
    ensures Refused(net(url)) ==> r == Ok(JNull)
    ensures net(url).Unreachable? ==> r == Err(net(url).error)
    ensures Delivered(net(url)) ==> r == Ok(net(url).body.value)
  {
    match net(url)
    case Unreachable(e) => Err(e)
    case Answered(status, body) =>
      if status != 200 then Ok(JNull)
      else if body.None? then Err(ValueError)
      else Ok(body.value)
  }
}
