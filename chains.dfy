/**
 * The chain identities the connectors branch on (cert_core's `Chain` and
 * `BlockchainType`, whose definitions are not part of this model).
 */
module Chains {

  datatype BlockchainType = Bitcoin | Ethereum | MockFamily | OtherFamily

  /** The six chains the connectors name, and any further chain cert_core may define. */
  datatype Chain =
    | BitcoinMainnet
    | BitcoinTestnet
    | BitcoinRegtest
    | Mockchain
    | EthereumMainnet
    | EthereumRopsten
    | OtherChain(name: string, family: BlockchainType)

  /** `chain.blockchain_type` */
  function Family(chain: Chain): BlockchainType {
    match chain
    case BitcoinMainnet => Bitcoin
    case BitcoinTestnet => Bitcoin
    case BitcoinRegtest => Bitcoin
    case Mockchain => MockFamily
    case EthereumMainnet => Ethereum
    case EthereumRopsten => Ethereum
    case OtherChain(_, family) => family
  }
}

/** The exceptions the connectors raise or let escape. */
module Errors {
  import opened Chains

  /** Which constructor rejected a chain. */
  datatype Collector = BlockchainInfoCollector | BlockcypherCollector | EtherscanCollector

  /** Why an `InvalidTransactionError` was raised. */
  datatype Reason =
    | LookupFailed(txid: string)          // the explorer answered with a status other than 200
    | MissingOpReturn                     // no (non-empty) data-carrying output
    | MissingInput                        // Etherscan: empty `input`
    | NotYetConfirmed                     // Etherscan: empty `blockNumber`
    | BlockTimestampFailed                // Etherscan: the block lookup answered with a status other than 200
    | AllFailed(errors: seq<Error>)       // FallbackConnector: every connector's exception, in attempt order

  datatype Error =
    | KeyError(key: string)               // `d[k]` with k not a key of the dict d
    | IndexError                          // `xs[i]` past the end
    | TypeError                           // operation applied to a value of the wrong type
    | AttributeError                      // `.get` on a value that is not a dict
    | ValueError                          // `int(...)` of a malformed string, a body that is not JSON
    | InvalidUrl                          // a URL that is not a string
    | InvalidTransaction(reason: Reason)  // InvalidTransactionError
    | UnsupportedChain(collector: Collector, chain: Chain)
    | IssuerNotFound(url: string)         // 'Issuer URL returned no results'
    | Timeout                             // `requests.get` gave up waiting for an answer
    | ConnectionError                     // `requests.get` could not reach the server
}
