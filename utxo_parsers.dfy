/**
 * `BlockchainInfoConnector.parse_tx` and `BlockcypherConnector.parse_tx`: both
 * walk the transaction's outputs, keep the data of the LAST zero-value output,
 * and collect the addresses of spent outputs that carry value. They differ in
 * field paths and in how the data and the spent address are read.
 */
module UtxoParsers {
  import opened Wrappers
  import opened Errors
  import opened Json
  import opened Records

  datatype Provider = BlockchainInfoApi | BlockcypherApi

  /** What one output contributes: embedded data, or (when spent) a revoked address. */
  datatype OutputKind = DataOutput(script: Json) | ValueOutput(revokedAddress: Option<Json>)

  /** The loop's two variables: `script` (None until a zero-value output) and `revoked`. */
  datatype ScanState = ScanState(script: Option<Json>, revoked: set<Json>)

  /** The fields read before the loop. */
  datatype Header = Header(signer: Json, time: Json, outputs: seq<Json>)

  /** `int(o.get('value', 1)) == 0` (BlockchainInfo); Blockcypher's `float(...)` is the same on integers. */
  function ZeroValue(fields: map<string, Json>): (r: Result<bool, Error>)
    ensures "value" !in fields ==> r == Ok(false)
    ensures "value" in fields && fields["value"].JNum? ==> r == Ok(fields["value"].n == 0)
  {
    var n :- IntValue(GetOr(fields, "value", JNum(1)));
    Ok(n == 0)
  }

  /** The field whose truth marks an output as spent. */
  function SpentKey(p: Provider): string {
    match p
    case BlockchainInfoApi => "spent"
    case BlockcypherApi => "spent_by"
  }

  /** `o.get('addr')` (BlockchainInfo) or `o.get('addresses')[0]` (Blockcypher). */
  function RevokedAddress(p: Provider, fields: map<string, Json>): Result<Json, Error> {
    match p
    case BlockchainInfoApi => Ok(GetOr(fields, "addr", JNull))
    case BlockcypherApi => Index(GetOr(fields, "addresses", JNull), 0)
  }

  /** The body of the loop for one output `o`. */
  function ClassifyOutput(p: Provider, o: Json): (r: Result<OutputKind, Error>)
    // `o.get` on anything but a dict raises AttributeError
    ensures !o.JObj? ==> r == Err(AttributeError)
    // a zero-value output carries data: BlockchainInfo drops the first 4 characters of
    // `script`, Blockcypher takes `data_hex` unchanged
    ensures r.Ok? && r.value.DataOutput? ==>
      && o.JObj? && ZeroValue(o.fields) == Ok(true)
      && match p
         case BlockchainInfoApi =>
           "script" in o.fields && Ok(r.value.script) == DropPrefix(o.fields["script"], 4)
         case BlockcypherApi =>
           "data_hex" in o.fields && r.value.script == o.fields["data_hex"]
    // an output without a value is never a data output
    ensures o.JObj? && "value" !in o.fields && r.Ok? ==> r.value.ValueOutput?
    // an output that carries value is revoked exactly when its spent marker is truthy
    ensures r.Ok? && r.value.ValueOutput? ==>
      && o.JObj? && ZeroValue(o.fields) == Ok(false)
      && (r.value.revokedAddress.Some? <==> Truthy(GetOr(o.fields, SpentKey(p), JNull)))
      && (r.value.revokedAddress.Some? ==> Ok(r.value.revokedAddress.value) == RevokedAddress(p, o.fields))
  {
    if !o.JObj? then Err(AttributeError)
    else
      var zero :- ZeroValue(o.fields);
      if zero then
        match p
        case BlockchainInfoApi =>
          var script :- Field(o, "script");
          var data :- DropPrefix(script, 4);
          Ok(DataOutput(data))
        case BlockcypherApi =>
          var script :- Field(o, "data_hex");
          Ok(DataOutput(script))
      else if !Truthy(GetOr(o.fields, SpentKey(p), JNull)) then
        Ok(ValueOutput(None))
      else
        var address :- RevokedAddress(p, o.fields);
        if Hashable(address) then Ok(ValueOutput(Some(address))) else Err(TypeError)
  }

  /** One iteration's update of the loop variables. */
  function Step(st: ScanState, k: OutputKind): ScanState {
    match k
    case DataOutput(script) => st.(script := Some(script))
    case ValueOutput(None) => st
    case ValueOutput(Some(address)) => st.(revoked := st.revoked + {address})
  }

  /** The loop over `outputs`, run to the end or to the first exception. */
  function Scan(p: Provider, outputs: seq<Json>): Result<ScanState, Error> {
    if outputs == [] then Ok(ScanState(None, {}))
    else
      var st :- Scan(p, outputs[..|outputs| - 1]);
      var k :- ClassifyOutput(p, outputs[|outputs| - 1]);
      Ok(Step(st, k))
  }

  /** The fields `parse_tx` reads before its loop, in the order it reads them. */
  function ReadHeader(p: Provider, response: Json): Result<Header, Error> {
    match p
    case BlockchainInfoApi =>
      var time :- Field(response, "time");
      var inputs :- Field(response, "inputs");
      var first :- Index(inputs, 0);
      var prevOut :- Field(first, "prev_out");
      var signer :- Field(prevOut, "addr");
      var out :- Field(response, "out");
      var outputs :- Elements(out);
      Ok(Header(signer, time, outputs))
    case BlockcypherApi =>
      var time :- Field(response, "received");
      var inputs :- Field(response, "inputs");
      var first :- Index(inputs, 0);
      var addresses :- Field(first, "addresses");
      var signer :- Index(addresses, 0);
      var out :- Field(response, "outputs");
      var outputs :- Elements(out);
      Ok(Header(signer, time, outputs))
  }

  /** `if not script: raise InvalidTransactionError(...)`, else the record. */
  function Finish(h: Header, st: ScanState): Result<TransactionData, Error> {
    if st.script.None? || !Truthy(st.script.value) then Err(InvalidTransaction(MissingOpReturn))
    else Ok(TransactionData(h.signer, st.script.value, h.time, Some(st.revoked)))
  }

  /** `parse_tx` of the two UTXO connectors. */
  function ParseUtxo(p: Provider, response: Json): Result<TransactionData, Error> {
    var h :- ReadHeader(p, response);
    var st :- Scan(p, h.outputs);
    Finish(h, st)
  }

  // ---------------------------------------------------------------------------
  // The loops

  /** The loop of `parse_tx` (lines 110-115 and 142-147). */
  method ScanOutputs(p: Provider, outputs: seq<Json>) returns (r: Result<ScanState, Error>)
    ensures r == Scan(p, outputs)
  {
    var script: Option<Json> := None;
    var revoked: set<Json> := {};
    var i := 0;
    while i < |outputs|
      invariant 0 <= i <= |outputs|
      invariant Scan(p, outputs[..i]) == Ok(ScanState(script, revoked))
    {
      assert outputs[..i + 1][..i] == outputs[..i];
      var k := ClassifyOutput(p, outputs[i]);
      if k.Err? {
        ScanStopsAtError(p, outputs, i + 1);
        return Err(k.error);
      }
      match k.value {
        case DataOutput(data) =>
          script := Some(data);
        case ValueOutput(None) =>
        case ValueOutput(Some(address)) =>
          revoked := revoked + {address};
      }
      i := i + 1;
    }
    assert outputs[..i] == outputs;
    return Ok(ScanState(script, revoked));
  }

  /** `BlockchainInfoConnector.parse_tx` / `BlockcypherConnector.parse_tx`. */
  method ParseTx(p: Provider, response: Json) returns (r: Result<TransactionData, Error>)
    ensures r == ParseUtxo(p, response)
  {
    var h := ReadHeader(p, response);
    if h.Err? {
      return Err(h.error);
    }
    var st := ScanOutputs(p, h.value.outputs);
    if st.Err? {
      return Err(st.error);
    }
    r := Finish(h.value, st.value);
  }

  // ---------------------------------------------------------------------------
  // What the loop computes

  /** An exception raised in the loop ends it: later outputs are never examined. */
  lemma {:induction false} ScanStopsAtError(p: Provider, outputs: seq<Json>, j: nat)
    requires j <= |outputs| && Scan(p, outputs[..j]).Err?
    ensures Scan(p, outputs) == Scan(p, outputs[..j])
    decreases |outputs| - j
  {
    if j < |outputs| {
      assert outputs[..j + 1][..j] == outputs[..j];
      ScanStopsAtError(p, outputs, j + 1);
    } else {
      assert outputs[..j] == outputs;
    }
  }

  predicate IsDataOutput(p: Provider, o: Json) {
    ClassifyOutput(p, o).Ok? && ClassifyOutput(p, o).value.DataOutput?
  }

  /** `outputs[i]` is the last data-carrying output, and carries `script`. */
  predicate IsLastDataOutput(p: Provider, outputs: seq<Json>, i: int, script: Json) {
    && 0 <= i < |outputs|
    && ClassifyOutput(p, outputs[i]) == Ok(DataOutput(script))
    && forall j | i < j < |outputs| :: !IsDataOutput(p, outputs[j])
  }

  /** The loop succeeds exactly when every output is well formed. */
  lemma {:induction false} ScanSucceeds(p: Provider, outputs: seq<Json>)
    ensures Scan(p, outputs).Ok? <==> forall i | 0 <= i < |outputs| :: ClassifyOutput(p, outputs[i]).Ok?
  {
    if outputs != [] {
      var init := outputs[..|outputs| - 1];
      ScanSucceeds(p, init);
      assert forall i | 0 <= i < |init| :: init[i] == outputs[i];
    }
  }

  /** When the loop fails, it fails with the exception of the first malformed output. */
  lemma {:induction false} ScanFailsAtFirstError(p: Provider, outputs: seq<Json>)
    requires Scan(p, outputs).Err?
    ensures exists i | 0 <= i < |outputs| ::
      && ClassifyOutput(p, outputs[i]) == Err(Scan(p, outputs).error)
      && forall j | 0 <= j < i :: ClassifyOutput(p, outputs[j]).Ok?
  {
    var init := outputs[..|outputs| - 1];
    assert forall i | 0 <= i < |init| :: init[i] == outputs[i];
    if Scan(p, init).Err? {
      ScanFailsAtFirstError(p, init);
      var i :| 0 <= i < |init| && ClassifyOutput(p, init[i]) == Err(Scan(p, init).error)
                && forall j | 0 <= j < i :: ClassifyOutput(p, init[j]).Ok?;
      assert ClassifyOutput(p, outputs[i]) == Err(Scan(p, outputs).error);
    } else {
      ScanSucceeds(p, init);
      assert ClassifyOutput(p, outputs[|outputs| - 1]) == Err(Scan(p, outputs).error);
    }
  }

  /** After the loop, no data is recorded exactly when no zero-value output was seen. */
  lemma {:induction false} ScanScriptAbsent(p: Provider, outputs: seq<Json>, st: ScanState)
    requires Scan(p, outputs) == Ok(st)
    ensures st.script.None? <==> forall i | 0 <= i < |outputs| :: !IsDataOutput(p, outputs[i])
  {
    if outputs != [] {
      var n := |outputs| - 1;
      var init := outputs[..n];
      assert forall i | 0 <= i < n :: init[i] == outputs[i];
      ScanScriptAbsent(p, init, Scan(p, init).value);
    }
  }

  /** After the loop, `script` holds the data of the LAST zero-value output. */
  lemma {:induction false} ScanScriptIsLast(p: Provider, outputs: seq<Json>, st: ScanState)
    requires Scan(p, outputs) == Ok(st) && st.script.Some?
    ensures exists i :: IsLastDataOutput(p, outputs, i, st.script.value)
  {
    var n := |outputs| - 1;
    var init := outputs[..n];
    var st0 := Scan(p, init).value;
    var k := ClassifyOutput(p, outputs[n]).value;
    assert st == Step(st0, k);
    if k.DataOutput? {
      assert IsLastDataOutput(p, outputs, n, k.script);
    } else {
      assert st.script == st0.script;
      ScanScriptIsLast(p, init, st0);
      var i :| IsLastDataOutput(p, init, i, st.script.value);
      assert outputs[i] == init[i];
      forall j | i < j < |outputs| ensures !IsDataOutput(p, outputs[j]) {
        if j < n {
          assert outputs[j] == init[j];
        }
      }
      assert IsLastDataOutput(p, outputs, i, st.script.value);
    }
  }

  /** After the loop, `revoked` holds exactly the revoked address of each spent output that carries value. */
  lemma {:induction false} ScanRevoked(p: Provider, outputs: seq<Json>, st: ScanState)
    requires Scan(p, outputs) == Ok(st)
    ensures forall a :: a in st.revoked <==>
      exists i | 0 <= i < |outputs| :: ClassifyOutput(p, outputs[i]) == Ok(ValueOutput(Some(a)))
  {
    if outputs != [] {
      var n := |outputs| - 1;
      var init := outputs[..n];
      var st0 := Scan(p, init).value;
      ScanRevoked(p, init, st0);
      var k := ClassifyOutput(p, outputs[n]).value;
      assert st == Step(st0, k);
      forall a | a in st.revoked
        ensures exists i | 0 <= i < |outputs| :: ClassifyOutput(p, outputs[i]) == Ok(ValueOutput(Some(a)))
      {
        if a in st0.revoked {
          var i :| 0 <= i < |init| && ClassifyOutput(p, init[i]) == Ok(ValueOutput(Some(a)));
          assert outputs[i] == init[i];
        } else {
          assert ClassifyOutput(p, outputs[n]) == Ok(ValueOutput(Some(a)));
        }
      }
      forall a, i | 0 <= i < |outputs| && ClassifyOutput(p, outputs[i]) == Ok(ValueOutput(Some(a)))
        ensures a in st.revoked
      {
        if i < n {
          assert init[i] == outputs[i];
        }
      }
    }
  }

  // ---------------------------------------------------------------------------
  // What parse_tx promises

  /**
   * A parsed record: signer and time come from the header fields, the embedded
   * data is the (non-empty) data of the last zero-value output, and the revoked
   * addresses are those of the spent outputs that carry value.
   */
  lemma ParsedRecord(p: Provider, response: Json, tx: TransactionData)
    requires ParseUtxo(p, response) == Ok(tx)
    ensures ReadHeader(p, response).Ok?
    ensures var h := ReadHeader(p, response).value;
      && tx.signingKey == h.signer && tx.time == h.time
      && Truthy(tx.script)
      && (exists i :: IsLastDataOutput(p, h.outputs, i, tx.script))
      && tx.revokedAddresses.Some?
      && forall a :: a in tx.revokedAddresses.value <==>
           exists i | 0 <= i < |h.outputs| :: ClassifyOutput(p, h.outputs[i]) == Ok(ValueOutput(Some(a)))
  {
    var h := ReadHeader(p, response).value;
    var st := Scan(p, h.outputs).value;
    ScanScriptIsLast(p, h.outputs, st);
    ScanRevoked(p, h.outputs, st);
  }

  /**
   * With well-formed outputs, parsing succeeds exactly when the last zero-value
   * output carries non-empty data; in particular a transaction without any
   * zero-value output raises InvalidTransactionError.
   */
  lemma ParseSucceedsIffData(p: Provider, response: Json, h: Header)
    requires ReadHeader(p, response) == Ok(h)
    requires forall i | 0 <= i < |h.outputs| :: ClassifyOutput(p, h.outputs[i]).Ok?
    ensures ParseUtxo(p, response).Ok? <==> exists i, s :: IsLastDataOutput(p, h.outputs, i, s) && Truthy(s)
    ensures ParseUtxo(p, response).Err? ==> ParseUtxo(p, response) == Err(InvalidTransaction(MissingOpReturn))
    ensures (forall i | 0 <= i < |h.outputs| :: !IsDataOutput(p, h.outputs[i])) ==>
      ParseUtxo(p, response) == Err(InvalidTransaction(MissingOpReturn))
  {
    ScanSucceeds(p, h.outputs);
    var st := Scan(p, h.outputs).value;
    ScanScriptAbsent(p, h.outputs, st);
    if st.script.Some? {
      ScanScriptIsLast(p, h.outputs, st);
    }
    if exists i, s :: IsLastDataOutput(p, h.outputs, i, s) && Truthy(s) {
      var i, s :| IsLastDataOutput(p, h.outputs, i, s) && Truthy(s);
      var i' :| IsLastDataOutput(p, h.outputs, i', st.script.value);
      LastDataOutputUnique(p, h.outputs, i, s, i', st.script.value);
    }
  }

  lemma LastDataOutputUnique(p: Provider, outputs: seq<Json>, i: int, s: Json, i': int, s': Json)
    requires IsLastDataOutput(p, outputs, i, s) && IsLastDataOutput(p, outputs, i', s')
    ensures i == i' && s == s'
  {
  }

  /**
   * Either provider, a response whose only zero-value output is `outputs[k]`:
   * its data is the embedded data.
   */
  lemma SingleDataOutput(p: Provider, response: Json, h: Header, k: nat, script: Json)
    requires ReadHeader(p, response) == Ok(h)
    requires forall i | 0 <= i < |h.outputs| :: ClassifyOutput(p, h.outputs[i]).Ok?
    requires k < |h.outputs| && ClassifyOutput(p, h.outputs[k]) == Ok(DataOutput(script)) && Truthy(script)
    requires forall i | 0 <= i < |h.outputs| && i != k :: !IsDataOutput(p, h.outputs[i])
    ensures ParseUtxo(p, response).Ok? && ParseUtxo(p, response).value.script == script
  {
    assert IsLastDataOutput(p, h.outputs, k, script);
    ParseSucceedsIffData(p, response, h);
    ParsedRecord(p, response, ParseUtxo(p, response).value);
    var i :| IsLastDataOutput(p, h.outputs, i, ParseUtxo(p, response).value.script);
    LastDataOutputUnique(p, h.outputs, i, ParseUtxo(p, response).value.script, k, script);
  }
}
