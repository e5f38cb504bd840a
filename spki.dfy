/** Reconstruction of a server key's SubjectPublicKeyInfo (section 4.1.2.7 of
    RFC 5280): a fixed DER prefix chosen by key type and bit length, followed
    by the key bytes the Security framework exports. The prefix table is the
    same in both copies of the interceptor. */
module Spki {
  import opened Common

  newtype Byte = x: int | 0 <= x < 0x100

  type Bytes = seq<Byte>

  /** The Security framework's kSecAttrKeyTypeRSA and
      kSecAttrKeyTypeECSECPrimeRandom attribute values. */
  const KeyTypeRSA: string := "42"
  const KeyTypeECSECPrimeRandom: string := "73"

  const Rsa2048SpkiHeader: Bytes := [
    0x30, 0x82, 0x01, 0x22, 0x30, 0x0d, 0x06, 0x09, 0x2a, 0x86, 0x48, 0x86, 0xf7, 0x0d, 0x01, 0x01, 0x01, 0x05,
    0x00, 0x03, 0x82, 0x01, 0x0f, 0x00]
  const Rsa4096SpkiHeader: Bytes := [
    0x30, 0x82, 0x02, 0x22, 0x30, 0x0d, 0x06, 0x09, 0x2a, 0x86, 0x48, 0x86, 0xf7, 0x0d, 0x01, 0x01, 0x01, 0x05,
    0x00, 0x03, 0x82, 0x02, 0x0f, 0x00]
  const EcdsaSecp256r1SpkiHeader: Bytes := [
    0x30, 0x59, 0x30, 0x13, 0x06, 0x07, 0x2a, 0x86, 0x48, 0xce, 0x3d, 0x02, 0x01, 0x06, 0x08, 0x2a, 0x86, 0x48,
    0xce, 0x3d, 0x03, 0x01, 0x07, 0x03, 0x42, 0x00]
  const EcdsaSecp384r1SpkiHeader: Bytes := [
    0x30, 0x76, 0x30, 0x10, 0x06, 0x07, 0x2a, 0x86, 0x48, 0xce, 0x3d, 0x02, 0x01, 0x06, 0x05, 0x2b, 0x81, 0x04,
    0x00, 0x22, 0x03, 0x62, 0x00]

  /** The `pkiHeaders` dictionary: key type, then bit length, to DER prefix. */
  type HeaderTable = map<string, map<int, Bytes>>

  /** The per-type dictionaries `initializePKI` builds. */
  function RsaHeaders(): map<int, Bytes> {
    map[2048 := Rsa2048SpkiHeader, 4096 := Rsa4096SpkiHeader]
  }

  function EcHeaders(): map<int, Bytes> {
    map[256 := EcdsaSecp256r1SpkiHeader, 384 := EcdsaSecp384r1SpkiHeader]
  }

  /** The table as it stands once `initializePKI` has run on an empty one. */
  function PkiTable(): HeaderTable {
    map[KeyTypeRSA := RsaHeaders(), KeyTypeECSECPrimeRandom := EcHeaders()]
  }

  /** The four (type, length) pairs the interceptor supports. */
  predicate IsSupportedKind(keyType: string, bits: int) {
    || (keyType == KeyTypeRSA && (bits == 2048 || bits == 4096))
    || (keyType == KeyTypeECSECPrimeRandom && (bits == 256 || bits == 384))
  }

  /** What SecKeyCopyAttributes reports: the type and size attributes, each
      possibly missing. */
  datatype KeyAttributes = KeyAttributes(keyType: Option<string>, sizeInBits: Option<int>)

  /** A server-presented public key: its attribute dictionary (None when
      SecKeyCopyAttributes fails) and its exported bytes (None when
      SecKeyCopyExternalRepresentation fails). */
  datatype ServerKey = ServerKey(attributes: Option<KeyAttributes>, externalRepresentation: Option<Bytes>)

  /** Why an SPKI could not be built. */
  datatype SpkiError = AttributesUnavailable | UnsupportedKey | NotExportable

  /** `publicKeyInfoHeaderForKey`: the DER prefix for the key's type and
      length, looked up in `table`. */
  function PublicKeyInfoHeaderForKey(table: HeaderTable, key: ServerKey): (r: Result<Bytes, SpkiError>)
    ensures key.attributes.None? ==> r == Err(AttributesUnavailable)
    ensures r.Ok? <==>
      && key.attributes.Some?
      && key.attributes.value.keyType.Some?
      && key.attributes.value.sizeInBits.Some?
      && key.attributes.value.keyType.value in table
      && key.attributes.value.sizeInBits.value in table[key.attributes.value.keyType.value]
    ensures r.Ok? ==> r.value == table[key.attributes.value.keyType.value][key.attributes.value.sizeInBits.value]
    ensures r.Err? && key.attributes.Some? ==> r.error == UnsupportedKey
  {
    match key.attributes
    case None => Err(AttributesUnavailable)
    case Some(attrs) =>
      if attrs.keyType.Some? && attrs.sizeInBits.Some?
         && attrs.keyType.value in table && attrs.sizeInBits.value in table[attrs.keyType.value]
      then Ok(table[attrs.keyType.value][attrs.sizeInBits.value])
      else Err(UnsupportedKey)
  }

  /** `getSPKIHeader`: the DER prefix followed by the exported key bytes. */
  function GetSpkiHeader(table: HeaderTable, key: ServerKey): (r: Result<Bytes, SpkiError>)
    ensures r.Ok? <==> PublicKeyInfoHeaderForKey(table, key).Ok? && key.externalRepresentation.Some?
    ensures r.Ok? ==> r.value == PublicKeyInfoHeaderForKey(table, key).value + key.externalRepresentation.value
    ensures PublicKeyInfoHeaderForKey(table, key).Err? ==> r == Err(PublicKeyInfoHeaderForKey(table, key).error)
    ensures PublicKeyInfoHeaderForKey(table, key).Ok? && key.externalRepresentation.None? ==> r == Err(NotExportable)
  {
    match PublicKeyInfoHeaderForKey(table, key)
    case Err(e) => Err(e)
    case Ok(header) =>
      match key.externalRepresentation
      case None => Err(NotExportable)
      case Some(raw) => Ok(header + raw)
  }

  /** The key kind a key's attributes name, when both attributes are there. */
  predicate HasKind(key: ServerKey, keyType: string, bits: int) {
    key.attributes == Some(KeyAttributes(Some(keyType), Some(bits)))
  }

  /** The table covers exactly the four supported kinds, and an SPKI is built
      for a key exactly when its kind is one of them and its bytes export. */
  lemma SupportedKindsExactly(key: ServerKey)
    ensures GetSpkiHeader(PkiTable(), key).Ok? <==>
      (exists t, b :: HasKind(key, t, b) && IsSupportedKind(t, b)) && key.externalRepresentation.Some?
  {
    if GetSpkiHeader(PkiTable(), key).Ok? {
      var attrs := key.attributes.value;
      assert HasKind(key, attrs.keyType.value, attrs.sizeInBits.value);
    }
  }

  /** The exported key length each DER prefix is made for: a PKCS #1
      RSAPublicKey with exponent 65537, or an uncompressed elliptic-curve point. */
  function RawKeyLength(keyType: string, bits: int): nat
    requires IsSupportedKind(keyType, bits)
  {
    if keyType == KeyTypeRSA then (if bits == 2048 then 270 else 526)
    else (if bits == 256 then 65 else 97)
  }

  /** The length a DER length field starting at `at` declares, and how many
      bytes the field takes; only short form and the two-byte long form occur. */
  function DerLength(h: Bytes, at: nat): (int, nat)
    requires at < |h|
  {
    if h[at] < 0x80 then (h[at] as int, 1)
    else if h[at] == 0x82 && at + 2 < |h| then ((h[at + 1] as int) * 256 + h[at + 2] as int, 3)
    else (-1, 0)
  }

  /** Each prefix is a well-formed DER opening of an SPKI: the outer SEQUENCE
      and the BIT STRING that close it declare exactly the lengths a key of
      the intended size fills, and the prefix ends in the BIT STRING's
      zero unused-bits byte. */
  lemma HeaderLengthsFitKeys(keyType: string, bits: int)
    requires IsSupportedKind(keyType, bits)
    ensures var h := PkiTable()[keyType][bits];
      var raw := RawKeyLength(keyType, bits);
      && |h| > 3
      && h[0] == 0x30
      && DerLength(h, 1).0 == |h| + raw - 1 - DerLength(h, 1).1
      && h[|h| - 1] == 0x00
      && (exists at :: 0 < at < |h| - 1 && h[at - 1] == 0x03 && at + DerLength(h, at).1 == |h| - 1
            && DerLength(h, at).0 == raw + 1)
  {
    var h := PkiTable()[keyType][bits];
    if keyType == KeyTypeRSA {
      assert DerLength(h, 20).0 == RawKeyLength(keyType, bits) + 1;
    } else if bits == 256 {
      assert DerLength(h, 24).0 == RawKeyLength(keyType, bits) + 1;
    } else {
      assert DerLength(h, 21).0 == RawKeyLength(keyType, bits) + 1;
    }
  }

  /** The SPKI commits to the key: equal SPKIs come from keys of the same
      kind with the same exported bytes, so a pin for one key kind can
      never be met by a key of another kind. */
  lemma {:induction false} SpkiDeterminesKey(k1: ServerKey, k2: ServerKey, t1: string, b1: int, t2: string, b2: int)
    requires HasKind(k1, t1, b1) && HasKind(k2, t2, b2)
    requires GetSpkiHeader(PkiTable(), k1).Ok? && GetSpkiHeader(PkiTable(), k2).Ok?
    requires GetSpkiHeader(PkiTable(), k1).value == GetSpkiHeader(PkiTable(), k2).value
    ensures t1 == t2 && b1 == b2
    ensures k1.externalRepresentation == k2.externalRepresentation
  {
    var h1, h2 := PkiTable()[t1][b1], PkiTable()[t2][b2];
    var r1, r2 := k1.externalRepresentation.value, k2.externalRepresentation.value;
    var s := h1 + r1;
    assert s == h2 + r2;
    assert s[1] == h1[1] == h2[1];
    assert s[2] == h1[2] == h2[2];
    assert t1 == t2 && b1 == b2;
    assert r1 == s[|h1|..] == r2;
  }
}
