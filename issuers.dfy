/**
 * `get_issuer_info`: fetch the issuer profile (and, for V2 certificates, the
 * revocation list), then read the issuer keys from whichever of the three
 * profile shapes the issuer publishes.
 */
module Issuers {
  import opened Wrappers
  import opened Errors
  import opened Json
  import opened Records
  import opened Http

  /** cert_core's `BlockcertVersion`, whose definition is not part of this model. */
  datatype BlockcertVersion = V1_1 | V1_2 | V2Alpha | V2 | OtherVersion(name: string)

  /** The parts of a certificate model `get_issuer_info` reads. */
  datatype CertificateModel = CertificateModel(issuerId: string, version: BlockcertVersion, certificateJson: Json)

  /** `get_field_or_default(data, field_name)` */
  function FieldOrDefault(data: Json, name: string): (r: Result<Json, Error>)
    ensures data.JObj? ==> r == Ok(GetOr(data.fields, name, JNull))
    ensures r.Ok? && r.value != JNull ==> data.JObj? && name in data.fields
  {
    var present :- Contains(data, name);
    if present then Field(data, name) else Ok(JNull)
  }

  /** `get_remote_json(url)` for a URL read from a document. */
  function RemoteJsonAt(url: Json, net: Network): Result<Json, Error> {
    match url
    case JStr(s) => GetRemoteJson(s, net)
    case _ => Err(InvalidUrl)
  }

  predicate V2ish(v: BlockcertVersion) {
    v == V2 || v == V2Alpha
  }

  /** `[r['id'] for r in entries]` */
  function Ids(entries: seq<Json>): (r: Result<seq<Json>, Error>)
    ensures r.Ok? ==> |r.value| == |entries|
  {
    if entries == [] then Ok([])
    else
      var ids :- Ids(entries[..|entries| - 1]);
      var id :- Field(entries[|entries| - 1], "id");
      Ok(ids + [id])
  }

  /** Lines 212-219: the revoked assertions named by the certificate's revocation list. */
  function RevokedAssertions(cert: CertificateModel, net: Network): (r: Result<seq<Json>, Error>)
    ensures !V2ish(cert.version) ==> r == Ok([])
    // assertions are revoked only by a V2 certificate whose issuer names a revocation list
    ensures r.Ok? && r.value != [] ==>
      V2ish(cert.version) && exists issuer :: HasIssuerSection(cert, issuer) && "revocationList" in issuer
  {
    if !V2ish(cert.version) then Ok([])
    else
      var badge :- Field(cert.certificateJson, "badge");
      var issuer :- Field(badge, "issuer");
      var listed :- Contains(issuer, "revocationList");
      if !listed then Ok([])
      else
        var url :- Field(issuer, "revocationList");
        var revokedJson :- RemoteJsonAt(url, net);
        if !Truthy(revokedJson) then Ok([])
        else
          var revoked :- Field(revokedJson, "revokedAssertions");
          if !Truthy(revoked) then Ok([])
          else
            var entries :- Elements(revoked);
            Ids(entries)
  }

  /** One entry of `publicKey` (key id under `id`) or of `publicKeys` (under `publicKey`). */
  function KeyOf(entry: Json, idField: string, prefixLen: nat): (r: Result<IssuerKey, Error>)
    ensures r.Ok? ==>
      && entry.JObj? && idField in entry.fields
      && Ok(r.value.publicKey) == DropPrefix(entry.fields[idField], prefixLen)
      && r.value.created == GetOr(entry.fields, "created", JNull)
      && r.value.expires == GetOr(entry.fields, "expires", JNull)
      && r.value.revoked == GetOr(entry.fields, "revoked", JNull)
  {
    var id :- Field(entry, idField);
    var publicKey :- DropPrefix(id, prefixLen);
    // `entry` is a dict here, so get_field_or_default cannot raise
    var created := FieldOrDefault(entry, "created").value;
    var expires := FieldOrDefault(entry, "expires").value;
    var revoked := FieldOrDefault(entry, "revoked").value;
    Ok(IssuerKey(publicKey, created, expires, revoked))
  }

  /** The keys the loop at lines 225-230 (or 233-239) appends, in order. */
  function KeysFrom(entries: seq<Json>, idField: string, prefixLen: nat): (r: Result<seq<IssuerKey>, Error>)
    ensures r.Ok? ==> |r.value| == |entries|
  {
    if entries == [] then Ok([])
    else
      var keys :- KeysFrom(entries[..|entries| - 1], idField, prefixLen);
      var key :- KeyOf(entries[|entries| - 1], idField, prefixLen);
      Ok(keys + [key])
  }

  /** The entries of a key list, and the field under which each holds its key id. */
  datatype KeyList = KeyList(entries: seq<Json>, idField: string)

  /** Lines 224-239: `publicKey` takes precedence over the v2-alpha `publicKeys`; neither gives no keys. */
  function KeyListOf(profile: Json): (r: Result<KeyList, Error>)
    // keys come only from a `publicKey` or `publicKeys` list
    ensures r.Ok? && r.value.entries != [] ==>
      profile.JObj? && ("publicKey" in profile.fields || "publicKeys" in profile.fields)
    // entries are read under `publicKey` exactly when the legacy list is the one used
    ensures r.Ok? ==>
      (r.value.idField == "publicKey" <==>
         profile.JObj? && "publicKey" !in profile.fields && "publicKeys" in profile.fields)
    ensures r.Ok? ==> r.value.idField == "id" || r.value.idField == "publicKey"
    ensures profile.JObj? && "publicKey" !in profile.fields && "publicKeys" !in profile.fields ==>
      r == Ok(KeyList([], "id"))
  {
    var current :- Contains(profile, "publicKey");
    if current then
      var list :- Field(profile, "publicKey");
      var entries :- Elements(list);
      Ok(KeyList(entries, "id"))
    else
      var legacy :- Contains(profile, "publicKeys");
      if legacy then
        var list :- Field(profile, "publicKeys");
        var entries :- Elements(list);
        Ok(KeyList(entries, "publicKey"))
      else Ok(KeyList([], "id"))
  }

  /** `profile[list][0]['key']` */
  function KeyPath(profile: Json, list: string): Result<Json, Error> {
    var keys :- Field(profile, list);
    var first :- Index(keys, 0);
    Field(first, "key")
  }

  /** Lines 241-250: a V1 profile names one issuer key and, unless assertions are revoked, one revocation key. */
  function V1Info(profile: Json, revoked: seq<Json>): (r: Result<IssuerInfo, Error>)
    ensures r.Ok? ==>
      && |r.value.issuerKeys| == 1
      && Ok(r.value.issuerKeys[0].publicKey) == KeyPath(profile, "issuerKeys")
      && (r.value.revocationKeys.Some? <==> revoked == [])
      && (r.value.revokedAssertions.Some? <==> revoked != [])
  {
    var key :- KeyPath(profile, "issuerKeys");
    var issuerKey := IssuerKey(key, JNull, JNull, JNull);
    if revoked != [] then Ok(IssuerInfo([issuerKey], None, Some(revoked)))
    else
      var revocationKey :- KeyPath(profile, "revocationKeys");
      Ok(IssuerInfo([issuerKey], Some([IssuerKey(revocationKey, JNull, JNull, JNull)]), None))
  }

  /** `get_issuer_info(certificate_model)`, `PUBKEY_PREFIX` having length `prefixLen`. */
  function IssuerInfoOf(cert: CertificateModel, net: Network, prefixLen: nat): Result<IssuerInfo, Error> {
    var profile :- GetRemoteJson(cert.issuerId, net);
    if !Truthy(profile) then Err(IssuerNotFound(cert.issuerId))
    else
      var revoked :- RevokedAssertions(cert, net);
      var linked :- Contains(profile, "@context");
      if linked then
        var list :- KeyListOf(profile);
        var keys :- KeysFrom(list.entries, list.idField, prefixLen);
        Ok(IssuerInfo(keys, None, Some(revoked)))
      else V1Info(profile, revoked)
  }

  // ---------------------------------------------------------------------------
  // The loop

  /** The loop appending one `IssuerKey` per entry. */
  method CollectKeys(entries: seq<Json>, idField: string, prefixLen: nat) returns (r: Result<seq<IssuerKey>, Error>)
    ensures r == KeysFrom(entries, idField, prefixLen)
  {
    var issuerKeys: seq<IssuerKey> := [];
    var i := 0;
    while i < |entries|
      invariant 0 <= i <= |entries|
      invariant KeysFrom(entries[..i], idField, prefixLen) == Ok(issuerKeys)
    {
      assert entries[..i + 1][..i] == entries[..i];
      var key := KeyOf(entries[i], idField, prefixLen);
      if key.Err? {
        KeysStopAtError(entries, idField, prefixLen, i + 1);
        return Err(key.error);
      }
      issuerKeys := issuerKeys + [key.value];
      i := i + 1;
    }
    assert entries[..i] == entries;
    return Ok(issuerKeys);
  }

  /** `get_issuer_info` */
  method GetIssuerInfo(cert: CertificateModel, net: Network, prefixLen: nat) returns (r: Result<IssuerInfo, Error>)
    ensures r == IssuerInfoOf(cert, net, prefixLen)
  {
    var profile := GetRemoteJson(cert.issuerId, net);
    if profile.Err? {
      return Err(profile.error);
    }
    if !Truthy(profile.value) {
      return Err(IssuerNotFound(cert.issuerId));
    }
    var revoked := RevokedAssertions(cert, net);
    if revoked.Err? {
      return Err(revoked.error);
    }
    var linked := Contains(profile.value, "@context");
    if linked.Err? {
      return Err(linked.error);
    }
    if linked.value {
      var list := KeyListOf(profile.value);
      if list.Err? {
        return Err(list.error);
      }
      var keys := CollectKeys(list.value.entries, list.value.idField, prefixLen);
      if keys.Err? {
        return Err(keys.error);
      }
      r := Ok(IssuerInfo(keys.value, None, Some(revoked.value)));
    } else {
      r := V1Info(profile.value, revoked.value);
    }
  }

  // ---------------------------------------------------------------------------
  // Properties

  lemma {:induction false} KeysStopAtError(entries: seq<Json>, idField: string, prefixLen: nat, j: nat)
    requires j <= |entries| && KeysFrom(entries[..j], idField, prefixLen).Err?
    ensures KeysFrom(entries, idField, prefixLen) == KeysFrom(entries[..j], idField, prefixLen)
    decreases |entries| - j
  {
    if j < |entries| {
      assert entries[..j + 1][..j] == entries[..j];
      KeysStopAtError(entries, idField, prefixLen, j + 1);
    } else {
      assert entries[..j] == entries;
    }
  }

  /** One key per entry, in entry order, each read from that entry alone. */
  lemma {:induction false} KeysOnePerEntry(entries: seq<Json>, idField: string, prefixLen: nat)
    ensures KeysFrom(entries, idField, prefixLen).Ok? <==>
      forall i | 0 <= i < |entries| :: KeyOf(entries[i], idField, prefixLen).Ok?
    ensures KeysFrom(entries, idField, prefixLen).Ok? ==>
      var keys := KeysFrom(entries, idField, prefixLen).value;
      && |keys| == |entries|
      && forall i | 0 <= i < |entries| :: KeyOf(entries[i], idField, prefixLen) == Ok(keys[i])
  {
    if entries != [] {
      var n := |entries| - 1;
      var init := entries[..n];
      KeysOnePerEntry(init, idField, prefixLen);
      assert forall i | 0 <= i < n :: init[i] == entries[i];
      var last := KeyOf(entries[n], idField, prefixLen);
      if KeysFrom(init, idField, prefixLen).Ok? && last.Ok? {
        var keys := KeysFrom(init, idField, prefixLen).value;
        assert KeysFrom(entries, idField, prefixLen) == Ok(keys + [last.value]);
      } else if KeysFrom(init, idField, prefixLen).Err? {
        assert exists i | 0 <= i < n :: KeyOf(init[i], idField, prefixLen).Err?;
      }
    }
  }

  /** `[r['id'] for r in entries]` keeps order and length. */
  lemma {:induction false} IdsInOrder(entries: seq<Json>)
    ensures Ids(entries).Ok? ==>
      && |Ids(entries).value| == |entries|
      && forall i | 0 <= i < |entries| :: Field(entries[i], "id") == Ok(Ids(entries).value[i])
  {
    if entries != [] {
      var n := |entries| - 1;
      IdsInOrder(entries[..n]);
      assert forall i | 0 <= i < n :: entries[..n][i] == entries[i];
    }
  }

  /** An issuer profile answered with a status other than 200, or falsy, is fatal. */
  lemma MissingProfileRaises(cert: CertificateModel, net: Network, prefixLen: nat)
    requires Refused(net(cert.issuerId)) ||
             (Delivered(net(cert.issuerId)) && !Truthy(net(cert.issuerId).body.value))
    ensures IssuerInfoOf(cert, net, prefixLen) == Err(IssuerNotFound(cert.issuerId))
  {
  }

  /** The revocation list is consulted only for V2 and V2-alpha certificates: no other request matters. */
  lemma RevocationListOnlyForV2(cert: CertificateModel, net: Network, net': Network, prefixLen: nat)
    requires !V2ish(cert.version)
    requires net(cert.issuerId) == net'(cert.issuerId)
    ensures RevokedAssertions(cert, net) == Ok([])
    ensures IssuerInfoOf(cert, net, prefixLen) == IssuerInfoOf(cert, net', prefixLen)
  {
  }

  /** The certificate's issuer section of a V2 certificate, when it is a dict. */
  predicate HasIssuerSection(cert: CertificateModel, issuer: map<string, Json>) {
    && cert.certificateJson.JObj? && "badge" in cert.certificateJson.fields
    && var badge := cert.certificateJson.fields["badge"];
    && badge.JObj? && "issuer" in badge.fields && badge.fields["issuer"] == JObj(issuer)
  }

  /** Without a `revocationList` there is nothing revoked, and no request is made for one. */
  lemma NoRevocationList(cert: CertificateModel, issuer: map<string, Json>, net: Network)
    requires HasIssuerSection(cert, issuer) && "revocationList" !in issuer
    ensures RevokedAssertions(cert, net) == Ok([])
  {
  }

  /**
   * A revocation list answered with a status other than 200, or with a falsy
   * document or `revokedAssertions`, leaves nothing revoked, without an error.
   */
  lemma RevocationListUnavailable(cert: CertificateModel, issuer: map<string, Json>, url: string, net: Network)
    requires V2ish(cert.version) && HasIssuerSection(cert, issuer)
    requires "revocationList" in issuer && issuer["revocationList"] == JStr(url)
    requires Refused(net(url)) ||
             (Delivered(net(url)) &&
              (!Truthy(net(url).body.value) ||
               (net(url).body.value.JObj? && "revokedAssertions" in net(url).body.value.fields &&
                !Truthy(net(url).body.value.fields["revokedAssertions"]))))
    ensures RevokedAssertions(cert, net) == Ok([])
  {
  }

  /** A non-empty revocation document without `revokedAssertions` raises KeyError. */
  lemma RevocationListWithoutAssertions(cert: CertificateModel, issuer: map<string, Json>, url: string, net: Network)
    requires V2ish(cert.version) && HasIssuerSection(cert, issuer)
    requires "revocationList" in issuer && issuer["revocationList"] == JStr(url)
    requires Delivered(net(url)) && net(url).body.value.JObj?
    requires net(url).body.value.fields != map[] && "revokedAssertions" !in net(url).body.value.fields
    ensures RevokedAssertions(cert, net) == Err(KeyError("revokedAssertions"))
  {
  }

  /**
   * A revocation-list request that raises (a timeout, a refused connection) is
   * caught by nothing: the whole resolution fails with that exception.
   */
  lemma RevocationListUnreachable(cert: CertificateModel, issuer: map<string, Json>, url: string,
                                  net: Network, prefixLen: nat)
    requires V2ish(cert.version) && HasIssuerSection(cert, issuer)
    requires "revocationList" in issuer && issuer["revocationList"] == JStr(url)
    requires Delivered(net(cert.issuerId)) && Truthy(net(cert.issuerId).body.value)
    requires net(url).Unreachable?
    ensures RevokedAssertions(cert, net) == Err(net(url).error)
    ensures IssuerInfoOf(cert, net, prefixLen) == Err(net(url).error)
  {
  }

  /** A populated revocation list gives the `id` of each revoked assertion, in order. */
  lemma RevocationListRead(cert: CertificateModel, issuer: map<string, Json>, url: string, net: Network,
                           entries: seq<Json>)
    requires V2ish(cert.version) && HasIssuerSection(cert, issuer)
    requires "revocationList" in issuer && issuer["revocationList"] == JStr(url)
    requires Delivered(net(url)) && net(url).body.value.JObj?
    requires "revokedAssertions" in net(url).body.value.fields
    requires net(url).body.value.fields["revokedAssertions"] == JArr(entries) && entries != []
    requires forall i | 0 <= i < |entries| :: entries[i].JObj? && "id" in entries[i].fields
    ensures RevokedAssertions(cert, net).Ok?
    ensures var revoked := RevokedAssertions(cert, net).value;
      && |revoked| == |entries|
      && forall i | 0 <= i < |entries| :: revoked[i] == entries[i].fields["id"]
  {
    IdsSucceed(entries);
    IdsInOrder(entries);
  }

  lemma {:induction false} IdsSucceed(entries: seq<Json>)
    requires forall i | 0 <= i < |entries| :: entries[i].JObj? && "id" in entries[i].fields
    ensures Ids(entries).Ok?
  {
    if entries != [] {
      var n := |entries| - 1;
      IdsSucceed(entries[..n]);
    }
  }

  /** The resolution of a profile that is a dict, once the revocation list is read. */
  predicate ProfileRead(cert: CertificateModel, net: Network, profile: map<string, Json>, revoked: seq<Json>) {
    && net(cert.issuerId) == Answered(200, Some(JObj(profile)))
    && profile != map[]
    && RevokedAssertions(cert, net) == Ok(revoked)
  }

  /**
   * A `@context` profile with a `publicKey` list: one key per entry, read from its
   * `id`; the revoked assertions are passed through and no revocation keys are set.
   */
  lemma ContextProfileWithPublicKey(cert: CertificateModel, net: Network, prefixLen: nat,
                                    profile: map<string, Json>, revoked: seq<Json>, entries: seq<Json>)
    requires ProfileRead(cert, net, profile, revoked)
    requires "@context" in profile && "publicKey" in profile && profile["publicKey"] == JArr(entries)
    ensures IssuerInfoOf(cert, net, prefixLen) ==
      match KeysFrom(entries, "id", prefixLen)
      case Ok(keys) => Ok(IssuerInfo(keys, None, Some(revoked)))
      case Err(e) => Err(e)
  {
  }

  /** Without `publicKey`, the v2-alpha `publicKeys` list is read, each key under `publicKey`. */
  lemma ContextProfileWithPublicKeys(cert: CertificateModel, net: Network, prefixLen: nat,
                                     profile: map<string, Json>, revoked: seq<Json>, entries: seq<Json>)
    requires ProfileRead(cert, net, profile, revoked)
    requires "@context" in profile && "publicKey" !in profile
    requires "publicKeys" in profile && profile["publicKeys"] == JArr(entries)
    ensures IssuerInfoOf(cert, net, prefixLen) ==
      match KeysFrom(entries, "publicKey", prefixLen)
      case Ok(keys) => Ok(IssuerInfo(keys, None, Some(revoked)))
      case Err(e) => Err(e)
  {
  }

  /** A `@context` profile with neither list resolves to no keys at all, without an error. */
  lemma ContextProfileWithoutKeys(cert: CertificateModel, net: Network, prefixLen: nat,
                                  profile: map<string, Json>, revoked: seq<Json>)
    requires ProfileRead(cert, net, profile, revoked)
    requires "@context" in profile && "publicKey" !in profile && "publicKeys" !in profile
    ensures IssuerInfoOf(cert, net, prefixLen) == Ok(IssuerInfo([], None, Some(revoked)))
  {
  }

  /**
   * A V1 profile (no `@context`) gives exactly one issuer key, `issuerKeys[0].key`.
   * With revoked assertions it gives no revocation keys; otherwise exactly one,
   * `revocationKeys[0].key`, and leaves the revoked assertions unset.
   */
  lemma V1Profile(cert: CertificateModel, net: Network, prefixLen: nat,
                  profile: map<string, Json>, revoked: seq<Json>, info: IssuerInfo)
    requires ProfileRead(cert, net, profile, revoked)
    requires "@context" !in profile
    requires IssuerInfoOf(cert, net, prefixLen) == Ok(info)
    ensures |info.issuerKeys| == 1
    ensures Ok(info.issuerKeys[0].publicKey) == KeyPath(JObj(profile), "issuerKeys")
    ensures revoked != [] ==> info.revocationKeys.None? && info.revokedAssertions == Some(revoked)
    ensures revoked == [] ==>
      && info.revocationKeys.Some? && |info.revocationKeys.value| == 1
      && Ok(info.revocationKeys.value[0].publicKey) == KeyPath(JObj(profile), "revocationKeys")
      && info.revokedAssertions.None?
  {
  }
}
