/**
 * `EtherscanConnector.parse_tx`: read the account transaction, refuse it when its
 * input data or block number is empty, then look up the block's timestamp.
 */
module EtherscanParser {
  import opened Wrappers
  import opened Errors
  import opened Json
  import opened Records
  import opened Http
  import Numerals

  /** What `parse_tx` knows before its second request. */
  datatype PendingTx = PendingTx(signer: Json, input: Json, blockNumber: nat, timestampUrl: string)

  /** `int(block_no, 16)` */
  function HexBlockNumber(j: Json): (r: Result<nat, Error>)
    ensures r.Ok? ==> j.JStr? && Numerals.ParseHex(j.s) == Some(r.value)
  {
    match j
    case JStr(s) =>
      (match Numerals.ParseHex(s)
       case Some(n) => Ok(n)
       case None => Err(ValueError))
    case _ => Err(TypeError)
  }

  /** Lines 181-190: the three fields, the two emptiness checks, and the timestamp URL. */
  function Prepare(timestampUrl: Template, response: Json): (r: Result<PendingTx, Error>)
    // only a confirmed transaction with input data gets as far as the block lookup
    ensures r.Ok? ==>
      && HasResultFields(response)
      && var result := response.fields["result"];
      && r.value.signer == result.fields["from"]
      && r.value.input == result.fields["input"] && Truthy(r.value.input)
      && Truthy(result.fields["blockNumber"])
      && HexBlockNumber(result.fields["blockNumber"]) == Ok(r.value.blockNumber)
  {
    var result :- Field(response, "result");
    var from :- Field(result, "from");
    var input :- Field(result, "input");
    var block :- Field(result, "blockNumber");
    if !Truthy(input) then Err(InvalidTransaction(MissingInput))
    else if !Truthy(block) then Err(InvalidTransaction(NotYetConfirmed))
    else
      var n :- HexBlockNumber(block);
      Ok(PendingTx(from, input, n, Fill(timestampUrl, Numerals.DecimalString(n))))
  }

  /** The whole of `parse_tx`, the block lookup answered by `net`. */
  function ParseEtherscan(timestampUrl: Template, response: Json, net: Network): (r: Result<TransactionData, Error>)
    // a record is produced only after the transaction checks and a delivered block lookup
    ensures r.Ok? ==>
      && Prepare(timestampUrl, response).Ok?
      && var pending := Prepare(timestampUrl, response).value;
      && Delivered(net(pending.timestampUrl))
      && r.value.signingKey == pending.signer && r.value.script == pending.input
      && r.value.time.JNum? && r.value.revokedAddresses.None?
    // a block lookup that raises lets its exception escape
    ensures Prepare(timestampUrl, response).Ok? ==>
      var answer := net(Prepare(timestampUrl, response).value.timestampUrl);
      answer.Unreachable? ==> r == Err(answer.error)
  {
    var pending :- Prepare(timestampUrl, response);
    match net(pending.timestampUrl)
    case Unreachable(e) => Err(e)
    case Answered(status, body) =>
      if status != 200 then Err(InvalidTransaction(BlockTimestampFailed))
      else if body.None? then Err(ValueError)
      else
        var result :- Field(body.value, "result");
        var stamp :- Field(result, "timeStamp");
        var time :- IntValue(stamp);
        Ok(TransactionData(pending.signer, pending.input, JNum(time), None))
  }

  /** The three fields of `result`, when all are present. */
  predicate HasResultFields(response: Json) {
    && response.JObj? && "result" in response.fields
    && var result := response.fields["result"];
    && result.JObj? && "from" in result.fields && "input" in result.fields && "blockNumber" in result.fields
  }

  /** An empty `input` raises before the block number is looked at, whatever it holds. */
  lemma EmptyInputRaises(timestampUrl: Template, response: Json, net: Network)
    requires HasResultFields(response)
    requires !Truthy(response.fields["result"].fields["input"])
    ensures Prepare(timestampUrl, response) == Err(InvalidTransaction(MissingInput))
    ensures ParseEtherscan(timestampUrl, response, net) == Err(InvalidTransaction(MissingInput))
  {
  }

  /** With input data but an empty block number, the transaction is not yet confirmed. */
  lemma UnconfirmedRaises(timestampUrl: Template, response: Json, net: Network)
    requires HasResultFields(response)
    requires Truthy(response.fields["result"].fields["input"])
    requires !Truthy(response.fields["result"].fields["blockNumber"])
    ensures ParseEtherscan(timestampUrl, response, net) == Err(InvalidTransaction(NotYetConfirmed))
  {
  }

  /**
   * The timestamp URL is the template with the block number's value, written in
   * decimal, substituted in: reading the substituted digits back gives the value
   * of the hexadecimal `blockNumber`.
   */
  lemma TimestampUrlCarriesBlockNumber(timestampUrl: Template, response: Json, pending: PendingTx)
    requires Prepare(timestampUrl, response) == Ok(pending)
    ensures HasResultFields(response)
    ensures var block := response.fields["result"].fields["blockNumber"];
      block.JStr? && Numerals.ParseHex(block.s) == Some(pending.blockNumber)
    ensures exists digits ::
      && pending.timestampUrl == Fill(timestampUrl, digits)
      && Numerals.ParseDecimal(digits) == Some(pending.blockNumber)
      && Numerals.Canonical(digits)
    // and no other canonical numeral of that number could have been substituted instead
    ensures forall digits | Numerals.Canonical(digits) && Numerals.ParseDecimal(digits) == Some(pending.blockNumber) ::
      pending.timestampUrl == Fill(timestampUrl, digits)
  {
    var digits := Numerals.DecimalString(pending.blockNumber);
    Numerals.DecimalRoundTrip(pending.blockNumber);
    assert pending.timestampUrl == Fill(timestampUrl, digits);
    forall other | Numerals.Canonical(other) && Numerals.ParseDecimal(other) == Some(pending.blockNumber)
      ensures pending.timestampUrl == Fill(timestampUrl, other)
    {
      Numerals.CanonicalNumeralIsDecimalString(other, pending.blockNumber);
    }
  }

  /**
   * A parsed record carries the sender and the input data, the block's
   * `timeStamp` as an integer, and no revoked addresses.
   */
  lemma ParsedRecord(timestampUrl: Template, response: Json, net: Network, tx: TransactionData)
    requires ParseEtherscan(timestampUrl, response, net) == Ok(tx)
    ensures HasResultFields(response)
    ensures var result := response.fields["result"];
      tx.signingKey == result.fields["from"] && tx.script == result.fields["input"] && Truthy(tx.script)
    ensures var answer := net(Prepare(timestampUrl, response).value.timestampUrl);
      && Delivered(answer)
      && Field(answer.body.value, "result").Ok?
      && Field(Field(answer.body.value, "result").value, "timeStamp").Ok?
      && tx.time == JNum(IntValue(Field(Field(answer.body.value, "result").value, "timeStamp").value).value)
    ensures tx.revokedAddresses.None?
  {
  }

  /** A block lookup answered with a status other than 200 raises InvalidTransactionError. */
  lemma TimestampLookupFailure(timestampUrl: Template, response: Json, net: Network, pending: PendingTx)
    requires Prepare(timestampUrl, response) == Ok(pending)
    requires Refused(net(pending.timestampUrl))
    ensures ParseEtherscan(timestampUrl, response, net) == Err(InvalidTransaction(BlockTimestampFailed))
  {
  }
}
