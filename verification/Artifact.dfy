/** The delivery artifact's canonical bytes and the signed wire form around them. Each encoder is
    a definition of bytes; each decoder walks the buffer and is proved to accept exactly what its
    encoder produces, so a signature is checked over the very bytes that were on the wire. */
module Artifact {
  import opened Prelude
  import opened Digits

  type Octets = seq<Octet>

  function Ascii(s: string): Octets {
    seq(|s|, i requires 0 <= i < |s| => s[i] as int % 256)
  }

  const DIRECTORY: Octets := Ascii("directory")
  const SUBSCRIPTION: Octets := Ascii("subscription")
  const VERSION: Octet := 1
  const MAX_PAYLOAD: nat := 1048576
  const MAX_SHORT: nat := 65535
  const MAGIC: Octets := Ascii("CVD1")

  /** Nanoseconds since the Unix epoch, as far as 64 signed bits reach. */
  type UnixNano = x: int | -0x8000_0000_0000_0000 <= x < 0x8000_0000_0000_0000

  datatype Artifact = Artifact(version: Octet, kind: Octets, issuedAt: UnixNano, payload: Octets)

  predicate KindValid(kind: Octets) {
    kind == DIRECTORY || kind == SUBSCRIPTION
  }

  datatype Fault = Malformed | UnsupportedVersion | UnknownKind | TooLong | BadSignature

  // ----- fixed-width integers -------------------------------------------------------------------

  function BigEndian(n: nat, width: nat): (octets: Octets)
    ensures |octets| == width
  {
    Put(256, n, width)
  }

  function Unsigned(octets: Octets): (n: nat)
  {
    ValueBounded(256, octets);
    Value(256, octets)
  }

  /** Two's complement, as the conversion between signed and unsigned 64 bits wraps. */
  function Wrapped(t: UnixNano): nat {
    if t >= 0 then t else t + 0x1_0000_0000_0000_0000
  }

  function Unwrapped(n: nat): (t: UnixNano)
    requires n < 0x1_0000_0000_0000_0000
  {
    if n < 0x8000_0000_0000_0000 then n else n - 0x1_0000_0000_0000_0000
  }

  lemma UnsignedOfBigEndian(n: nat, width: nat)
    requires n < Pow(256, width)
    ensures Unsigned(BigEndian(n, width)) == n
  {
    ValueOfPut(256, n, width);
  }

  lemma BigEndianOfUnsigned(octets: Octets)
    ensures BigEndian(Unsigned(octets), |octets|) == octets && Unsigned(octets) < Pow(256, |octets|)
  {
    PutOfValue(256, octets);
    ValueBounded(256, octets);
  }

  // ----- canonical bytes --------------------------------------------------------------------------

  function CanonicalBytes(a: Artifact): Octets {
    [a.version] + BigEndian(Wrapped(a.issuedAt), 8) + BigEndian(|a.kind|, 2) + a.kind
    + BigEndian(|a.payload|, 4) + a.payload
  }

  predicate Encodable(a: Artifact) {
    KindValid(a.kind) && |a.payload| <= MAX_PAYLOAD
  }

  function Canonical(a: Artifact): (r: Result<Octets, Fault>)
  {
    if !KindValid(a.kind) then Err(UnknownKind)
    else if |a.payload| > MAX_PAYLOAD then Err(TooLong)
    else Ok(CanonicalBytes(a))
  }

  /** `b` is the canonical form of `a` in the one version a decoder knows. */
  predicate Encodes(a: Artifact, b: Octets) {
    a.version == VERSION && Encodable(a) && b == CanonicalBytes(a)
  }

  /** Where each field of a canonical form lies. */
  lemma FieldsOf(a: Artifact)
    requires Encodable(a)
    ensures
      var b, k := CanonicalBytes(a), |a.kind|;
      && |b| == 15 + k + |a.payload| && b[0] == a.version && Unsigned(b[1..9]) == Wrapped(a.issuedAt)
      && Unsigned(b[9..11]) == k && b[11..11 + k] == a.kind && Unsigned(b[11 + k..15 + k]) == |a.payload|
      && b[15 + k..] == a.payload
  {
    PowersOf256();
    UnsignedOfBigEndian(Wrapped(a.issuedAt), 8);
    UnsignedOfBigEndian(|a.kind|, 2);
    UnsignedOfBigEndian(|a.payload|, 4);
    Layout([a.version], BigEndian(Wrapped(a.issuedAt), 8), BigEndian(|a.kind|, 2), a.kind, BigEndian(|a.payload|, 4), a.payload);
  }

  lemma Layout(version: Octets, time: Octets, kindLen: Octets, kind: Octets, payloadLen: Octets, payload: Octets)
    requires |version| == 1 && |time| == 8 && |kindLen| == 2 && |payloadLen| == 4
    ensures
      var b, k := version + time + kindLen + kind + payloadLen + payload, |kind|;
      && |b| == 15 + k + |payload| && b[0] == version[0] && b[1..9] == time && b[9..11] == kindLen
      && b[11..11 + k] == kind && b[11 + k..15 + k] == payloadLen && b[15 + k..] == payload
  {
  }

  /** A buffer whose fields read as `a` says is the canonical form of `a`. */
  lemma FromFields(a: Artifact, b: Octets)
    requires
      var k := |a.kind|;
      && |b| == 15 + k + |a.payload| && b[0] == a.version && Unsigned(b[1..9]) == Wrapped(a.issuedAt)
      && Unsigned(b[9..11]) == k && b[11..11 + k] == a.kind && Unsigned(b[11 + k..15 + k]) == |a.payload|
      && b[15 + k..] == a.payload
    ensures b == CanonicalBytes(a)
  {
    var k := |a.kind|;
    BigEndianOfUnsigned(b[1..9]);
    BigEndianOfUnsigned(b[9..11]);
    BigEndianOfUnsigned(b[11 + k..15 + k]);
    assert b == [b[0]] + b[1..9] + b[9..11] + b[11..11 + k] + b[11 + k..15 + k] + b[15 + k..];
  }

  /** One buffer has at most one reading. */
  lemma CanonicalInjective(a: Artifact, a': Artifact)
    requires Encodable(a) && Encodable(a') && CanonicalBytes(a) == CanonicalBytes(a')
    ensures a == a'
  {
    FieldsOf(a);
    FieldsOf(a');
  }

  /** Undoes the encoding, and accepts nothing else. */
  method Decode(b: Octets) returns (r: Result<Artifact, Fault>)
    ensures forall a :: Encodes(a, b) ==> r == Ok(a)
    ensures r.Ok? ==> Encodes(r.value, b)
  {
    hide CanonicalBytes, BigEndian, Value, Pow, KindValid;
    forall a | Encodes(a, b) ensures |b| >= 15 + |a.kind| && b[0] == VERSION { FieldsOf(a); }
    if |b| < 11 { return Err(Malformed); }
    var off := 0;
    var version := b[off];
    off := off + 1;
    if version != VERSION { return Err(UnsupportedVersion); }
    var issued := Unsigned(b[off..off + 8]);
    off := off + 8;
    var kindLen := Unsigned(b[off..off + 2]);
    off := off + 2;
    forall a | Encodes(a, b)
      ensures kindLen == |a.kind| && |b| == 15 + kindLen + |a.payload| && b[11..11 + kindLen] == a.kind
      ensures Unsigned(b[11 + kindLen..15 + kindLen]) == |a.payload| <= MAX_PAYLOAD && KindValid(a.kind)
    {
      FieldsOf(a);
    }
    if off + kindLen + 4 > |b| { return Err(Malformed); }
    var kind := b[off..off + kindLen];
    off := off + kindLen;
    var payloadLen := Unsigned(b[off..off + 4]);
    off := off + 4;
    if payloadLen > MAX_PAYLOAD || off + payloadLen != |b| { return Err(Malformed); }
    var payload := b[off..off + payloadLen];
    if !KindValid(kind) { return Err(UnknownKind); }
    PowersOf256();
    BigEndianOfUnsigned(b[1..9]);
    var a := Artifact(version, kind, Unwrapped(issued), payload);
    FromFields(a, b);
    forall other | Encodes(other, b) ensures other == a { CanonicalInjective(a, other); }
    return Ok(a);
  }

  // ----- the signed wire form ---------------------------------------------------------------------

  datatype Signed = Signed(artifact: Artifact, keyId: Octets, signature: Octets)

  function Header(keyId: Octets, signature: Octets): (header: Octets)
    ensures |header| == 8 + |keyId| + |signature|
  {
    MAGIC + BigEndian(|keyId|, 2) + keyId + BigEndian(|signature|, 2) + signature
  }

  predicate ShortEnough(keyId: Octets, signature: Octets) {
    |keyId| <= MAX_SHORT && |signature| <= MAX_SHORT
  }

  function Marshal(s: Signed): Result<Octets, Fault> {
    match Canonical(s.artifact)
    case Err(fault) => Err(fault)
    case Ok(canonical) =>
      if !ShortEnough(s.keyId, s.signature) then Err(TooLong) else Ok(Header(s.keyId, s.signature) + canonical)
  }

  /** `b` is the wire form of `s` in the one version a decoder knows. */
  predicate Carries(s: Signed, b: Octets) {
    && ShortEnough(s.keyId, s.signature) && |b| >= |Header(s.keyId, s.signature)|
    && b[..|Header(s.keyId, s.signature)|] == Header(s.keyId, s.signature)
    && Encodes(s.artifact, b[|Header(s.keyId, s.signature)|..])
  }

  /** What is marshalled is carried, and nothing else is. */
  lemma CarriedIsMarshalled(s: Signed, b: Octets)
    ensures Carries(s, b) <==> s.artifact.version == VERSION && Marshal(s) == Ok(b)
  {
    hide Header, CanonicalBytes, KindValid;
    var h := Header(s.keyId, s.signature);
    if Carries(s, b) { assert b == b[..|h|] + b[|h|..]; }
    if s.artifact.version == VERSION && Marshal(s) == Ok(b) {
      assert b[..|h|] == h && b[|h|..] == CanonicalBytes(s.artifact);
    }
  }

  lemma HeaderFields(keyId: Octets, signature: Octets, b: Octets)
    requires ShortEnough(keyId, signature) && |b| >= 8 + |keyId| + |signature|
    ensures
      var k, g := |keyId|, |signature|;
      b[..8 + k + g] == Header(keyId, signature) <==>
        && b[..4] == MAGIC && Unsigned(b[4..6]) == k && b[6..6 + k] == keyId
        && Unsigned(b[6 + k..8 + k]) == g && b[8 + k..8 + k + g] == signature
  {
    var k, g := |keyId|, |signature|;
    PowersOf256();
    UnsignedOfBigEndian(k, 2);
    UnsignedOfBigEndian(g, 2);
    BigEndianOfUnsigned(b[4..6]);
    BigEndianOfUnsigned(b[6 + k..8 + k]);
    HeaderLayout(BigEndian(k, 2), keyId, BigEndian(g, 2), signature, b);
  }

  lemma HeaderLayout(keyLen: Octets, keyId: Octets, sigLen: Octets, signature: Octets, b: Octets)
    requires |keyLen| == 2 && |sigLen| == 2 && |b| >= 8 + |keyId| + |signature|
    ensures
      var k, g := |keyId|, |signature|;
      b[..8 + k + g] == MAGIC + keyLen + keyId + sigLen + signature <==>
        b[..4] == MAGIC && b[4..6] == keyLen && b[6..6 + k] == keyId && b[6 + k..8 + k] == sigLen && b[8 + k..8 + k + g] == signature
  {
    var k, g := |keyId|, |signature|;
    var whole := MAGIC + keyLen + keyId + sigLen + signature;
    assert whole[..4] == MAGIC && whole[4..6] == keyLen && whole[6..6 + k] == keyId;
    assert whole[6 + k..8 + k] == sigLen && whole[8 + k..8 + k + g] == signature;
    var c := b[..8 + k + g];
    assert c == c[..4] + c[4..6] + c[6..6 + k] + c[6 + k..8 + k] + c[8 + k..8 + k + g];
    SliceOfPrefix(b, 8 + k + g, 0, 4);
    SliceOfPrefix(b, 8 + k + g, 4, 6);
    SliceOfPrefix(b, 8 + k + g, 6, 6 + k);
    SliceOfPrefix(b, 8 + k + g, 6 + k, 8 + k);
    SliceOfPrefix(b, 8 + k + g, 8 + k, 8 + k + g);
  }

  lemma SliceOfPrefix(b: Octets, n: nat, i: nat, j: nat)
    requires i <= j <= n <= |b|
    ensures b[..n][i..j] == b[i..j]
  {
  }

  /** The lengths a carried form shows at fixed places. */
  lemma CarriedLengths(s: Signed, b: Octets)
    requires Carries(s, b)
    ensures
      var k, g := |s.keyId|, |s.signature|;
      && |b| >= 8 + k + g && b[..4] == MAGIC && Unsigned(b[4..6]) == k && Unsigned(b[6 + k..8 + k]) == g
      && b[6..6 + k] == s.keyId && b[8 + k..8 + k + g] == s.signature && Encodes(s.artifact, b[8 + k + g..])
  {
    HeaderFields(s.keyId, s.signature, b);
  }

  /** Undoes the marshalling, and accepts nothing else. */
  method Unmarshal(b: Octets) returns (r: Result<Signed, Fault>)
    ensures forall s :: Carries(s, b) ==> r == Ok(s)
    ensures r.Ok? ==> Carries(r.value, b)
  {
    hide Header, Value, Encodes, Carries;
    forall s | Carries(s, b)
      ensures
        var k, g := |s.keyId|, |s.signature|;
        && |b| >= 8 + k + g && b[..4] == MAGIC && Unsigned(b[4..6]) == k && Unsigned(b[6 + k..8 + k]) == g
        && b[6..6 + k] == s.keyId && b[8 + k..8 + k + g] == s.signature && Encodes(s.artifact, b[8 + k + g..])
    {
      CarriedLengths(s, b);
    }
    if |b| < 8 || b[..4] != MAGIC { return Err(Malformed); }
    var off := 4;
    var keyIdLen := Unsigned(b[off..off + 2]);
    off := off + 2;
    if off + keyIdLen + 2 > |b| { return Err(Malformed); }
    var keyId := b[off..off + keyIdLen];
    off := off + keyIdLen;
    var sigLen := Unsigned(b[off..off + 2]);
    off := off + 2;
    if off + sigLen > |b| { return Err(Malformed); }
    var signature := b[off..off + sigLen];
    off := off + sigLen;
    var decoded := Decode(b[off..]);
    if decoded.Err? { return Err(decoded.error); }
    CarriesRead(decoded.value, keyId, signature, b);
    return Ok(Signed(decoded.value, keyId, signature));
  }

  lemma CarriesRead(a: Artifact, keyId: Octets, signature: Octets, b: Octets)
    requires |b| >= 8 + |keyId| + |signature| && b[..4] == MAGIC && Unsigned(b[4..6]) == |keyId|
    requires b[6..6 + |keyId|] == keyId && Unsigned(b[6 + |keyId|..8 + |keyId|]) == |signature|
    requires b[8 + |keyId|..8 + |keyId| + |signature|] == signature && Encodes(a, b[8 + |keyId| + |signature|..])
    ensures Carries(Signed(a, keyId, signature), b)
  {
    PowersOf256();
    BigEndianOfUnsigned(b[4..6]);
    BigEndianOfUnsigned(b[6 + |keyId|..8 + |keyId|]);
    HeaderFields(keyId, signature, b);
  }

  type Verifier = (Octets, Octets, Octets) -> bool

  /** The bytes a signature covers: what follows the header on the wire. */
  function SignedPart(s: Signed, b: Octets): Octets
    requires |b| >= 8 + |s.keyId| + |s.signature|
  {
    b[8 + |s.keyId| + |s.signature|..]
  }

  /** Succeeds exactly on a wire form whose own remainder the verifier accepts, under the key and
      signature in its header; re-encoding the parsed artifact changes nothing. */
  method Open(b: Octets, verify: Verifier) returns (r: Result<Artifact, Fault>)
    ensures forall s :: Carries(s, b) ==>
      |b| >= 8 + |s.keyId| + |s.signature|
      && r == if verify(s.keyId, SignedPart(s, b), s.signature) then Ok(s.artifact) else Err(BadSignature)
    ensures r.Ok? ==> exists s :: Carries(s, b) && s.artifact == r.value
  {
    hide Header;
    var parsed := Unmarshal(b);
    if parsed.Err? { return Err(parsed.error); }
    var s := parsed.value;
    var canonical := Canonical(s.artifact);
    // The error the source still checks for here cannot occur: a parsed artifact is encodable.
    assert canonical.Ok? && canonical.value == SignedPart(s, b);
    if !verify(s.keyId, canonical.value, s.signature) { return Err(BadSignature); }
    return Ok(s.artifact);
  }
}
