# Transaction lookup and issuer resolution of cert-verifier, in Dafny

This project models the core of `cert_verifier/connectors.py` from the Blockcerts
certificate verifier, and proves properties of that model:

- **Explorer response parsers.** `BlockchainInfoConnector.parse_tx` and
  `BlockcypherConnector.parse_tx` walk a Bitcoin transaction's outputs. Each takes
  the embedded data from the *last* zero-value output and collects the addresses of
  the spent outputs that carry value. `EtherscanConnector.parse_tx` reads the
  transaction's `input`, checks that the transaction is confirmed, and builds the
  block-timestamp URL. Modules `UtxoParsers` and `EtherscanParser`.
- **The fallback combinator.** `FallbackConnector.lookup_tx` tries BlockchainInfo,
  then Blockcypher. It returns the first truthy result. If none succeeds, it raises
  one `InvalidTransactionError` carrying every exception in attempt order. Module
  `Fallback`.
- **Connector construction and selection.** `createTransactionLookupConnector` and
  each connector's constructor, including the chains it rejects. There is also
  `TransactionLookupConnector.lookup_tx` (fetch, then parse) and `MockConnector`.
  Module `Connectors`.
- **Issuer resolution.** `get_issuer_info` and `get_field_or_default`: the V2
  revocation list, and the three issuer-profile shapes (`@context` with
  `publicKey`, `@context` with `publicKeys`, V1 `issuerKeys`/`revocationKeys`).
  Module `Issuers`.

Responses are decoded JSON values (`Json.Json`). Python's operations on them are
small functions in module `Json`, each returning a value or the exception Python
raises: `d[k]`, `d.get(k, v)`, `xs[i]`, `for x in xs`, `k in x`, `x[n:]`, `int(x)`
and truthiness. The parsers run inside `FallbackConnector`'s `except Exception`,
so every `KeyError` or `TypeError` a parser can raise is a real outcome. The
model keeps each one in the order the source raises it.

The HTTP requests are modelled by a parameter `net: string -> Response`. For each
URL it gives either an answer (a status code and the decoded body) or the
exception `requests.get` raises when no answer arrives (`Timeout`,
`ConnectionError`). `fetch_tx`, `get_remote_json` and the Etherscan block request
go through it, and nothing in this code catches such an exception except the
fallback loop. Exceptions are the datatype
`Errors.Error`. `InvalidTransactionError` carries a `Reason` that says which
`raise` produced it.

Each loop in the source is a method proved against a specification function:
`UtxoParsers.ScanOutputs` (the output loop of both parsers),
`Connectors.LookupFallback` (the fallback loop) and `Issuers.CollectKeys` (the
issuer-key loop). The case splits are functions.

Behaviour of `connectors.py` worth knowing:
- A `@context` profile with neither `publicKey` nor `publicKeys` resolves to an
  empty key list. It is not an error.
- The aggregate error holds one exception per connector that *raised*. A
  connector that returns a falsy value adds nothing.
- Every failure the code classifies is an `InvalidTransactionError`: a refused
  lookup, missing data, missing input, an unconfirmed transaction, a failed block
  lookup. There are no separate exception classes for these. Other failures escape
  as the exception Python raises: a `KeyError` for an Etherscan answer without
  `result`, the plain `Exception` of a constructor given an unsupported chain.
- The sandbox connector returns `True`, not a stub record.
- A revocation list degrades to "nothing revoked" when it is answered with a
  status other than 200, with a falsy document (`{}`, `null`), or with a falsy
  `revokedAssertions`. A non-empty document without `revokedAssertions` raises
  `KeyError`, and a revocation-list request that raises makes the whole
  resolution fail.
- A chain outside the Ethereum family that is neither a sandbox nor Bitcoin
  mainnet/testnet is rejected by the BlockchainInfo constructor inside
  `FallbackConnector`.

## Model

| member | source | states |
|---|---|---|
| `Http.FetchTx` | cert_verifier/connectors.py:49-54 | a status other than 200 raises InvalidTransactionError naming the txid; a request that raises lets its exception escape; the result is a value exactly when the URL built from the template and the txid answers 200 with a JSON body, and it is that body |
| `Http.GetRemoteJson` | cert_verifier/connectors.py:154-162 | a status other than 200 gives None; a request that raises (a timeout, a refused connection) lets its exception escape; a 200 answer gives the decoded body |
| `UtxoParsers.ZeroValue` | cert_verifier/connectors.py:111 | an output without `value` counts as non-zero; an integer value is zero-valued exactly when it is 0 |
| `UtxoParsers.ClassifyOutput` | cert_verifier/connectors.py:110-115 | per output: a non-dict raises AttributeError; a zero-value output carries `script[4:]` (BlockchainInfo) or `data_hex` unchanged (Blockcypher); an output without `value` never carries data; a non-zero output is revoked exactly when `spent` (`spent_by`) is truthy, with address `addr` (`addresses[0]`) |
| `UtxoParsers.ScanOutputs` | cert_verifier/connectors.py:106-115 | the loop of both parsers computes `Scan`: the last data seen and the set of revoked addresses, or the first exception |
| `UtxoParsers.ParseTx` | cert_verifier/connectors.py:105-151 | both `parse_tx` methods compute `ParseUtxo`: the header fields, then the loop, then the empty-data check |
| `UtxoParsers.ScanStopsAtError` | cert_verifier/connectors.py:110-115 | an exception ends the loop: no later output changes the outcome |
| `UtxoParsers.ScanSucceeds` | cert_verifier/connectors.py:137-147 | the loop finishes exactly when every output is well formed |
| `UtxoParsers.ScanFailsAtFirstError` | cert_verifier/connectors.py:110-115 | a failing loop raises the exception of the first malformed output, all outputs before it being well formed |
| `UtxoParsers.ScanScriptAbsent` | cert_verifier/connectors.py:107-116 | after the loop, no data has been recorded exactly when no zero-value output was seen (a zero-value output whose data is `null` is recorded, and then fails the emptiness check) |
| `UtxoParsers.ScanScriptIsLast` | cert_verifier/connectors.py:110-112 | `script` after the loop is the data of the last zero-value output: no later output is zero-valued |
| `UtxoParsers.ScanRevoked` | cert_verifier/connectors.py:113-115 | `revoked` holds exactly the addresses of the spent non-zero outputs |
| `UtxoParsers.ParsedRecord` | cert_verifier/connectors.py:105-119 | a parsed record has the signer `inputs[0].prev_out.addr` (`inputs[0].addresses[0]`), time `time` (`received`) unchanged, non-empty data taken from the last zero-value output, and the revoked-address set above |
| `UtxoParsers.ParseSucceedsIffData` | cert_verifier/connectors.py:116-119 | with well-formed outputs, parsing succeeds exactly when the last zero-value output carries non-empty data; otherwise, and in particular with no zero-value output, it raises InvalidTransactionError |
| `UtxoParsers.SingleDataOutput` | cert_verifier/connectors.py:137-151 | for either provider, a response with exactly one zero-value output yields that output's data as the embedded data |
| `Numerals.ParseHex` | cert_verifier/connectors.py:190 | `int(s, 16)` accepts exactly one or more hex digits after an optional `0x` prefix |
| `Numerals.DecimalString` | cert_verifier/connectors.py:190 | `str(n)` is a non-empty digit string with no leading zero unless n is 0 |
| `Numerals.DecimalRoundTrip` | cert_verifier/connectors.py:190 | `int(str(n)) == n` |
| `Numerals.CanonicalNumeralIsDecimalString` | cert_verifier/connectors.py:190 | a number has exactly one canonical decimal numeral (digits, no leading zero), and it is `str(n)` |
| `EtherscanParser.HexBlockNumber` | cert_verifier/connectors.py:190 | a block number that converts is a string whose hex value is the result |
| `EtherscanParser.Prepare` | cert_verifier/connectors.py:181-190 | a transaction passes the checks only when `result` has `from`, `input` and `blockNumber`, the input is non-empty and the block number non-empty and hexadecimal; the pending lookup keeps `from`, `input` and that number |
| `EtherscanParser.ParseEtherscan` | cert_verifier/connectors.py:179-196 | a record is produced only after the checks and a block lookup answered 200 with JSON, and carries the sender, the input, an integer time and no revoked addresses; a block request that raises lets its exception escape |
| `EtherscanParser.EmptyInputRaises` | cert_verifier/connectors.py:181-186 | an empty `input` raises InvalidTransactionError before the block number is looked at, whatever it holds |
| `EtherscanParser.UnconfirmedRaises` | cert_verifier/connectors.py:187-189 | non-empty input with an empty `blockNumber` raises "not yet confirmed" |
| `EtherscanParser.TimestampUrlCarriesBlockNumber` | cert_verifier/connectors.py:177-190 | the timestamp URL is `timestamp_url` with a canonical decimal numeral substituted in, whose value is that of the hexadecimal `blockNumber`; any canonical numeral of that value gives the same URL |
| `EtherscanParser.ParsedRecord` | cert_verifier/connectors.py:179-196 | a parsed record has the sender `from`, the non-empty `input`, the block's `timeStamp` as an integer, and no revoked addresses |
| `EtherscanParser.TimestampLookupFailure` | cert_verifier/connectors.py:191-194 | a block-timestamp request answered with a status other than 200 raises InvalidTransactionError |
| `Fallback.FirstSuccess` | cert_verifier/connectors.py:79-83 | the position found is a success with no success before it; None means no attempt succeeded |
| `Fallback.Raised` | cert_verifier/connectors.py:78-86 | the collected exceptions are at most one per connector, and each is the exception some connector raised |
| `Fallback.FallbackResult` | cert_verifier/connectors.py:77-87 | a value is returned exactly when some connector returned a truthy one, and it is one of the connectors' results; otherwise the one exception is the aggregate InvalidTransactionError |
| `Fallback.FirstSuccessWins` | cert_verifier/connectors.py:77-83 | the first truthy result is returned after exactly that many attempts, and no outcome of a later connector can change it |
| `Fallback.NoSuccessAggregates` | cert_verifier/connectors.py:78-87 | with no truthy result every connector is tried and one aggregate InvalidTransactionError is raised |
| `Fallback.RaisedInAttemptOrder` | cert_verifier/connectors.py:78-87 | the aggregate lists exactly the exceptions of the attempts that raised, in attempt order; falsy returns add nothing |
| `Fallback.AllRaised` | cert_verifier/connectors.py:84-87 | when every connector raises, the aggregate has one exception per connector, the i-th being the i-th connector's |
| `Connectors.NewBlockchainInfo` | cert_verifier/connectors.py:96-103 | the constructor accepts exactly Bitcoin mainnet and testnet and raises for any other chain |
| `Connectors.NewBlockcypher` | cert_verifier/connectors.py:128-135 | the constructor accepts exactly Bitcoin mainnet and testnet and raises for any other chain |
| `Connectors.NewEtherscan` | cert_verifier/connectors.py:167-177 | the constructor accepts exactly Ethereum mainnet and Ropsten, and both of its URLs carry the API key |
| `Connectors.NewFallback` | cert_verifier/connectors.py:72-75 | the fallback exists exactly for Bitcoin mainnet and testnet, with BlockchainInfo first and Blockcypher second |
| `Connectors.CreateLookupConnector` | cert_verifier/connectors.py:21-34 | mockchain and regtest get the mock; the Ethereum family gets Etherscan with `etherscan_api_token` or `''`; every other chain gets the fallback; a connector is produced exactly for the six supported chains, and a UTXO explorer only for a Bitcoin chain |
| `Connectors.Lookup` | cert_verifier/connectors.py:45-47 | a lookup computes `LookupTx`: fetch then parse for the explorers, `True` for the mock, the fallback loop for the fallback |
| `Connectors.LookupFallback` | cert_verifier/connectors.py:77-87 | the loop computes the fallback result and runs exactly the connectors up to and including the first success |
| `Connectors.MockAlwaysSucceeds` | cert_verifier/connectors.py:65-70 | the sandbox chains' connector answers `True` for every transaction, whatever the network does |
| `Connectors.FetchThenParse` | cert_verifier/connectors.py:45-54 | a fetch answered with a status other than 200 raises InvalidTransactionError naming the txid; a fetch that raises lets its exception escape; a delivered one gives the provider's parse of the body |
| `Connectors.BitcoinFallbackOrder` | cert_verifier/connectors.py:72-87 | BlockchainInfo's result wins when it has one; else Blockcypher's; when both raise, both exceptions are reported, BlockchainInfo's first |
| `Issuers.FieldOrDefault` | cert_verifier/connectors.py:199-203 | on a dict: the field's value, or None when absent; it never raises KeyError |
| `Issuers.KeyOf` | cert_verifier/connectors.py:226-230 | a key entry gives its key id minus the prefix and its `created`/`expires`/`revoked` or None |
| `Issuers.KeysFrom` | cert_verifier/connectors.py:225-239 | the keys collected from a list number one per entry |
| `Issuers.KeyListOf` | cert_verifier/connectors.py:223-240 | keys are read only from a `publicKey` or `publicKeys` list; entries are read under `publicKey` exactly when `publicKey` is absent and `publicKeys` present, otherwise under `id`; with neither list there are no entries |
| `Issuers.V1Info` | cert_verifier/connectors.py:241-250 | a V1 profile gives one issuer key, `issuerKeys[0].key`, and revocation keys exactly when no assertion is revoked, revoked assertions exactly when some are |
| `Issuers.Ids` | cert_verifier/connectors.py:219 | one id per revoked assertion |
| `Issuers.RevokedAssertions` | cert_verifier/connectors.py:212-219 | nothing is revoked for versions other than V2 and V2-alpha; assertions are revoked only by such a certificate whose badge issuer names a `revocationList` |
| `Issuers.CollectKeys` | cert_verifier/connectors.py:225-230 | the loop appends the key of each entry in turn, or stops at the first exception |
| `Issuers.GetIssuerInfo` | cert_verifier/connectors.py:206-250 | the method computes the whole resolution `IssuerInfoOf` |
| `Issuers.KeysStopAtError` | cert_verifier/connectors.py:225-230 | an exception in the key loop is the result, whatever follows |
| `Issuers.KeysOnePerEntry` | cert_verifier/connectors.py:225-239 | the key list has one key per entry, in order, each read from its own entry; it succeeds exactly when every entry does |
| `Issuers.IdsInOrder` | cert_verifier/connectors.py:219 | the revoked assertions are the `id` of each entry, same length and order |
| `Issuers.IdsSucceed` | cert_verifier/connectors.py:219 | reading the ids succeeds when every entry is a dict with `id` |
| `Issuers.MissingProfileRaises` | cert_verifier/connectors.py:207-209 | an issuer profile answered with a status other than 200, or whose document is falsy (`{}`, `[]`, `null`, `""`, `0`, `false`), raises IssuerNotFound |
| `Issuers.RevocationListOnlyForV2` | cert_verifier/connectors.py:212-219 | for versions other than V2 and V2-alpha nothing is revoked and only the profile request affects the result |
| `Issuers.NoRevocationList` | cert_verifier/connectors.py:215 | without `revocationList` in the badge issuer nothing is revoked, whatever the network does |
| `Issuers.RevocationListUnavailable` | cert_verifier/connectors.py:216-218 | a revocation list answered with a status other than 200, with a falsy document or with a falsy `revokedAssertions` leaves nothing revoked, without an error |
| `Issuers.RevocationListWithoutAssertions` | cert_verifier/connectors.py:218 | a non-empty revocation document without `revokedAssertions` raises KeyError |
| `Issuers.RevocationListUnreachable` | cert_verifier/connectors.py:217 | a revocation-list request that raises is caught by nothing: the resolution fails with that exception |
| `Issuers.RevocationListRead` | cert_verifier/connectors.py:216-219 | a populated list yields the `id` of each revoked assertion, in order |
| `Issuers.ContextProfileWithPublicKey` | cert_verifier/connectors.py:223-230 | a `@context` profile with `publicKey` yields the keys read from each entry's `id`, passes the revoked assertions through and sets no revocation keys |
| `Issuers.ContextProfileWithPublicKeys` | cert_verifier/connectors.py:231-240 | without `publicKey`, the `publicKeys` entries are read from their `publicKey` field |
| `Issuers.ContextProfileWithoutKeys` | cert_verifier/connectors.py:223-240 | a `@context` profile with neither list yields no keys and no error |
| `Issuers.V1Profile` | cert_verifier/connectors.py:241-250 | a V1 profile yields exactly the one key `issuerKeys[0].key`; with revoked assertions it sets no revocation keys, otherwise exactly `[revocationKeys[0].key]` |

## Left out

- Network I/O: `requests.get` is the parameter `net`, which maps a URL to an answer (a status and a decoded body) or to the exception the request raises. Request headers, the length of the 10-second timeout and logging are not modelled. A body that is not JSON raises `ValueError`.
- `MakeW3`, `ContractConnection` and `ContractFunctions` (lines 252-355) are not part of this model. They are the web3 write path: global configuration, file reading, signing, and waiting for receipts.
- `UtxoParsers.ZeroValue`: JSON numbers are integers here, so Blockcypher's `float(...)` and `int()` of a fractional number are not modelled.
- `int(s)` and `int(s, 16)` of a string accept only unsigned digit strings (after an optional `0x` prefix for base 16). Python also accepts signs, surrounding whitespace and underscores.
- `Json.Elements`: iterating a non-empty dict where a list is expected raises at the loop head. Python iterates the dict's keys and raises on the first one, so only the exception type can differ.
- Python treats `1` and `True` as one set element; the model keeps them apart. JSON objects are maps, so duplicate keys and key order are not modelled.
- An API token containing `%` would break Python's URL formatting; the model substitutes it literally. Tokens are strings (`options` is a string-to-string map, `None` being the empty map).
- `requests.get` of a URL that is not a string is a single `InvalidUrl` exception.
- Exception messages are not modelled. `InvalidTransactionError` carries only a tag for the `raise` that produced it.
- `TransactionData`, `IssuerInfo`, `IssuerKey`, `Chain`, `BlockchainType`, `BlockcertVersion` and `PUBKEY_PREFIX` come from modules that are not part of this model. They are plain records and enumerations here. Constructor arguments left out are `None`, and the prefix is represented by its length `prefixLen`.
- The abstract base `TransactionLookupConnector` (whose `parse_tx` returns `None`) has no instances, so it is not a connector variant. Its `lookup_tx` template is modelled for every concrete connector.
