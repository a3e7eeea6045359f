/**
 * The transaction lookup connectors: their construction for a chain, the
 * selection of one by `createTransactionLookupConnector`, and `lookup_tx`
 * (fetch, then parse; or the fallback over two connectors; or the mock).
 */
module Connectors {
  import opened Wrappers
  import opened Chains
  import opened Errors
  import opened Json
  import opened Records
  import opened Http
  import opened Fallback
  import UtxoParsers
  import EtherscanParser

  /** A constructed connector: its class, and the URL templates its constructor chose. */
  datatype Connector =
    | MockConnector(chain: Chain)
    | FallbackConnector(chain: Chain, connectors: seq<Connector>)
    | BlockchainInfoConnector(url: Template)
    | BlockcypherConnector(url: Template)
    | EtherscanConnector(url: Template, timestampUrl: Template)

  /** `BlockchainInfoConnector(chain)`: Bitcoin testnet or mainnet only. */
  function NewBlockchainInfo(chain: Chain): (r: Result<Connector, Error>)
    ensures r.Ok? <==> chain == BitcoinMainnet || chain == BitcoinTestnet
    ensures r.Ok? ==> r.value.BlockchainInfoConnector?
    ensures r.Err? ==> r.error == UnsupportedChain(BlockchainInfoCollector, chain)
  {
    if chain == BitcoinTestnet then
      Ok(BlockchainInfoConnector(Template("https://testnet.blockchain.info/rawtx/", "?cors=true")))
    else if chain == BitcoinMainnet then
      Ok(BlockchainInfoConnector(Template("https://blockchain.info/rawtx/", "?cors=true")))
    else
      Err(UnsupportedChain(BlockchainInfoCollector, chain))
  }

  /** `BlockcypherConnector(chain)`: Bitcoin testnet or mainnet only. */
  function NewBlockcypher(chain: Chain): (r: Result<Connector, Error>)
    ensures r.Ok? <==> chain == BitcoinMainnet || chain == BitcoinTestnet
    ensures r.Ok? ==> r.value.BlockcypherConnector?
    ensures r.Err? ==> r.error == UnsupportedChain(BlockcypherCollector, chain)
  {
    if chain == BitcoinTestnet then
      Ok(BlockcypherConnector(Template("http://api.blockcypher.com/v1/btc/test3/txs/", "?limit=100")))
    else if chain == BitcoinMainnet then
      Ok(BlockcypherConnector(Template("https://api.blockcypher.com/v1/btc/main/txs/", "?limit=100")))
    else
      Err(UnsupportedChain(BlockcypherCollector, chain))
  }

  /** The API host for an Etherscan chain. */
  function EtherscanHost(chain: Chain): Result<string, Error> {
    if chain == EthereumMainnet then Ok("https://api.etherscan.io")
    else if chain == EthereumRopsten then Ok("https://ropsten.etherscan.io")
    else Err(UnsupportedChain(EtherscanCollector, chain))
  }

  /** `EtherscanConnector(chain, api_key)`: Ethereum mainnet or Ropsten only; both URLs carry the key. */
  function NewEtherscan(chain: Chain, apiKey: string): (r: Result<Connector, Error>)
    ensures r.Ok? <==> chain == EthereumMainnet || chain == EthereumRopsten
    ensures r.Err? ==> r.error == UnsupportedChain(EtherscanCollector, chain)
    ensures r.Ok? ==>
      && r.value.EtherscanConnector?
      && r.value.url.after == "" && r.value.timestampUrl.after == ""
      && EndsWith(r.value.url.before, "&apikey=" + apiKey + "&txhash=")
      && EndsWith(r.value.timestampUrl.before, "&apikey=" + apiKey + "&blockno=")
  {
    var host :- EtherscanHost(chain);
    var url := host + "/api?module=proxy&action=eth_getTransactionByHash" + "&apikey=" + apiKey + "&txhash=";
    var timestampUrl := host + "/api?module=block&action=getblockreward" + "&apikey=" + apiKey + "&blockno=";
    assert url == (host + "/api?module=proxy&action=eth_getTransactionByHash") + ("&apikey=" + apiKey + "&txhash=");
    assert timestampUrl == (host + "/api?module=block&action=getblockreward") + ("&apikey=" + apiKey + "&blockno=");
    Ok(EtherscanConnector(Template(url, ""), Template(timestampUrl, "")))
  }

  predicate EndsWith(s: string, suffix: string) {
    |suffix| <= |s| && s[|s| - |suffix|..] == suffix
  }

  /** `FallbackConnector(chain)`: BlockchainInfo, then Blockcypher; either constructor may raise. */
  function NewFallback(chain: Chain): (r: Result<Connector, Error>)
    ensures r.Ok? <==> chain == BitcoinMainnet || chain == BitcoinTestnet
    ensures r.Ok? ==>
      && r.value == FallbackConnector(chain, [NewBlockchainInfo(chain).value, NewBlockcypher(chain).value])
    ensures r.Err? ==> r.error == UnsupportedChain(BlockchainInfoCollector, chain)
  {
    // the two explorers accept the same chains, so only the first can raise
    var first :- NewBlockchainInfo(chain);
    Ok(FallbackConnector(chain, [first, NewBlockcypher(chain).value]))
  }

  /** `options['etherscan_api_token']` when given, otherwise the empty string. */
  function ApiToken(options: map<string, string>): string {
    if "etherscan_api_token" in options then options["etherscan_api_token"] else ""
  }

  /** The chains some connector accepts. */
  predicate Supported(chain: Chain) {
    chain in {Mockchain, BitcoinRegtest, BitcoinMainnet, BitcoinTestnet, EthereumMainnet, EthereumRopsten}
  }

  /**
   * `createTransactionLookupConnector(chain, options)`; `options=None` is the empty
   * map. Sandbox chains get the mock, the Ethereum family gets Etherscan, every
   * other chain the fallback over the two Bitcoin explorers.
   */
  function CreateLookupConnector(chain: Chain, options: map<string, string>): (r: Result<Connector, Error>)
    ensures r.Ok? <==> Supported(chain)
    ensures chain == Mockchain || chain == BitcoinRegtest ==> r == Ok(MockConnector(chain))
    ensures Family(chain) == Ethereum ==> r == NewEtherscan(chain, ApiToken(options))
    ensures Family(chain) != Ethereum && chain != Mockchain && chain != BitcoinRegtest ==>
      r == NewFallback(chain)
    // a chain of another family is never handed to a UTXO explorer by mistake
    ensures r.Ok? && (r.value.FallbackConnector? || r.value.BlockchainInfoConnector?) ==> Family(chain) == Bitcoin
  {
    if chain == Mockchain || chain == BitcoinRegtest then Ok(MockConnector(chain))
    else if Family(chain) == Ethereum then NewEtherscan(chain, ApiToken(options))
    else NewFallback(chain)
  }

  // ---------------------------------------------------------------------------
  // lookup_tx

  /** What `connector.lookup_tx(txid)` returns or raises, the remote side answering by `net`. */
  function LookupTx(c: Connector, txid: string, net: Network): Attempt
    decreases c
  {
    match c
    case MockConnector(_) => Ok(Flag(true))
    case FallbackConnector(_, cs) => FallbackResult(Attempts(c, txid, net))
    case BlockchainInfoConnector(url) =>
      var response :- FetchTx(url, txid, net);
      var tx :- UtxoParsers.ParseUtxo(UtxoParsers.BlockchainInfoApi, response);
      Ok(Record(tx))
    case BlockcypherConnector(url) =>
      var response :- FetchTx(url, txid, net);
      var tx :- UtxoParsers.ParseUtxo(UtxoParsers.BlockcypherApi, response);
      Ok(Record(tx))
    case EtherscanConnector(url, timestampUrl) =>
      var response :- FetchTx(url, txid, net);
      var tx :- EtherscanParser.ParseEtherscan(timestampUrl, response, net);
      Ok(Record(tx))
  }

  /** What each of a fallback connector's connectors would do, in construction order. */
  function Attempts(c: Connector, txid: string, net: Network): (r: seq<Attempt>)
    requires c.FallbackConnector?
    ensures |r| == |c.connectors|
    decreases c, 0
  {
    seq(|c.connectors|, i requires 0 <= i < |c.connectors| => LookupTx(c.connectors[i], txid, net))
  }

  /** `lookup_tx` of a connector. */
  method Lookup(c: Connector, txid: string, net: Network) returns (r: Attempt)
    ensures r == LookupTx(c, txid, net)
    decreases c, 1
  {
    match c
    case MockConnector(_) =>
      r := Ok(Flag(true));
    case FallbackConnector(_, _) =>
      var attempted;
      r, attempted := LookupFallback(c, txid, net);
    case BlockchainInfoConnector(url) =>
      var response := FetchTx(url, txid, net);
      if response.Err? {
        return Err(response.error);
      }
      var tx := UtxoParsers.ParseTx(UtxoParsers.BlockchainInfoApi, response.value);
      r := if tx.Ok? then Ok(Record(tx.value)) else Err(tx.error);
    case BlockcypherConnector(url) =>
      var response := FetchTx(url, txid, net);
      if response.Err? {
        return Err(response.error);
      }
      var tx := UtxoParsers.ParseTx(UtxoParsers.BlockcypherApi, response.value);
      r := if tx.Ok? then Ok(Record(tx.value)) else Err(tx.error);
    case EtherscanConnector(url, timestampUrl) =>
      var response := FetchTx(url, txid, net);
      if response.Err? {
        return Err(response.error);
      }
      var tx := EtherscanParser.ParseEtherscan(timestampUrl, response.value, net);
      r := if tx.Ok? then Ok(Record(tx.value)) else Err(tx.error);
  }

  /**
   * `FallbackConnector.lookup_tx`: try the connectors in order, return the first
   * truthy result, otherwise raise one error carrying the exceptions. `attempted`
   * is how many connectors were run.
   */
  method LookupFallback(c: Connector, txid: string, net: Network) returns (r: Attempt, attempted: nat)
    requires c.FallbackConnector?
    ensures r == LookupTx(c, txid, net)
    ensures attempted == AttemptsMade(Attempts(c, txid, net))
    decreases c, 0
  {
    ghost var attempts := Attempts(c, txid, net);
    var exceptions: seq<Error> := [];
    var i := 0;
    while i < |c.connectors|
      invariant 0 <= i <= |c.connectors|
      invariant forall j | 0 <= j < i :: !Succeeded(attempts[j])
      invariant exceptions == Raised(attempts[..i])
    {
      var response := Lookup(c.connectors[i], txid, net);
      assert response == attempts[i];
      assert attempts[..i + 1][..i] == attempts[..i];
      assert Raised(attempts[..i + 1]) == Raised(attempts[..i]) + (if response.Err? then [response.error] else []);
      if response.Ok? && TruthyValue(response.value) {
        FirstSuccessWins(attempts, i, []);
        return response, i + 1;
      }
      if response.Err? {
        exceptions := exceptions + [response.error];
      }
      i := i + 1;
    }
    assert attempts[..i] == attempts;
    NoSuccessAggregates(attempts);
    return Err(InvalidTransaction(AllFailed(exceptions))), i;
  }

  // ---------------------------------------------------------------------------
  // Properties of lookup

  /** The mock answers `True` for every transaction without asking the network. */
  lemma MockAlwaysSucceeds(chain: Chain, options: map<string, string>, txid: string, net: Network)
    requires chain == Mockchain || chain == BitcoinRegtest
    ensures CreateLookupConnector(chain, options).Ok?
    ensures LookupTx(CreateLookupConnector(chain, options).value, txid, net) == Ok(Flag(true))
  {
  }

  /**
   * `lookup_tx = parse_tx(fetch_tx(txid))` for the explorers: a status other than
   * 200 raises InvalidTransactionError naming the transaction, a request that
   * raises lets its exception escape; otherwise the result is what parsing the
   * body gives.
   */
  lemma FetchThenParse(c: Connector, txid: string, net: Network)
    requires c.BlockchainInfoConnector? || c.BlockcypherConnector? || c.EtherscanConnector?
    ensures Refused(net(Fill(c.url, txid))) ==>
      LookupTx(c, txid, net) == Err(InvalidTransaction(LookupFailed(txid)))
    ensures net(Fill(c.url, txid)).Unreachable? ==>
      LookupTx(c, txid, net) == Err(net(Fill(c.url, txid)).error)
    ensures var answer := net(Fill(c.url, txid));
      Delivered(answer) ==>
        var parsed :=
          match c
          case BlockchainInfoConnector(_) => UtxoParsers.ParseUtxo(UtxoParsers.BlockchainInfoApi, answer.body.value)
          case BlockcypherConnector(_) => UtxoParsers.ParseUtxo(UtxoParsers.BlockcypherApi, answer.body.value)
          case EtherscanConnector(_, timestampUrl) => EtherscanParser.ParseEtherscan(timestampUrl, answer.body.value, net);
        LookupTx(c, txid, net) == if parsed.Ok? then Ok(Record(parsed.value)) else Err(parsed.error)
  {
  }

  /** A lookup by an explorer that does not raise returns a record, which is truthy. */
  lemma ExplorerAnswersRecord(c: Connector, txid: string, net: Network)
    requires c.BlockchainInfoConnector? || c.BlockcypherConnector? || c.EtherscanConnector?
    ensures LookupTx(c, txid, net).Ok? ==> LookupTx(c, txid, net).value.Record?
  {
  }

  /**
   * The Bitcoin fallback: BlockchainInfo is asked first; if its lookup raises,
   * Blockcypher's result is returned; if both raise, both exceptions are
   * reported, BlockchainInfo's first.
   */
  lemma BitcoinFallbackOrder(chain: Chain, txid: string, net: Network)
    requires chain == BitcoinMainnet || chain == BitcoinTestnet
    ensures var c := NewFallback(chain).value;
      var first := LookupTx(c.connectors[0], txid, net);
      var second := LookupTx(c.connectors[1], txid, net);
      && (first.Ok? ==> LookupTx(c, txid, net) == first)
      && (first.Err? && second.Ok? ==> LookupTx(c, txid, net) == second)
      && (first.Err? && second.Err? ==>
            LookupTx(c, txid, net) == Err(InvalidTransaction(AllFailed([first.error, second.error]))))
  {
    var c := NewFallback(chain).value;
    var attempts := Attempts(c, txid, net);
    var first, second := attempts[0], attempts[1];
    ExplorerAnswersRecord(c.connectors[0], txid, net);
    ExplorerAnswersRecord(c.connectors[1], txid, net);
    if first.Ok? {
      FirstSuccessWins(attempts, 0, []);
    } else if second.Ok? {
      FirstSuccessWins(attempts, 1, []);
    } else {
      NoSuccessAggregates(attempts);
      AllRaised(attempts);
      assert Raised(attempts) == [first.error, second.error];
    }
  }
}
