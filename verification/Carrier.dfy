/** A blob inside an innocuous analytics document: framed with its length, padded at random,
    and spread over the message ids, each a UUID-shaped rendering of sixteen octets. */
module Carrier {
  import opened Prelude
  import opened Digits

  type Octets = seq<Octet>

  const CHUNK: nat := 16
  const LEN_HEADER: nat := 4
  const FRAME_LIMIT: nat := 0x1_0000_0000

  // ----- hexadecimal ------------------------------------------------------------------------------

  function HexDigit(v: int): (c: char)
    requires 0 <= v < 16
    ensures c != '-'
  {
    if v < 10 then ('0' as int + v) as char else ('a' as int + v - 10) as char
  }

  function HexValue(c: char): Option<int> {
    if '0' <= c <= '9' then Some(c as int - '0' as int)
    else if 'a' <= c <= 'f' then Some(c as int - 'a' as int + 10)
    else if 'A' <= c <= 'F' then Some(c as int - 'A' as int + 10)
    else None
  }

  function Hex(octets: Octets): (text: string)
    ensures |text| == 2 * |octets|
  {
    if octets == [] then "" else [HexDigit(octets[0] / 16), HexDigit(octets[0] % 16)] + Hex(octets[1..])
  }

  function Unhex(text: string): Option<Octets> {
    if text == "" then Some([])
    else if |text| == 1 then None
    else
      match (HexValue(text[0]), HexValue(text[1]), Unhex(text[2..]))
      case (Some(hi), Some(lo), Some(rest)) => if 0 <= hi < 16 && 0 <= lo < 16 then Some([hi * 16 + lo] + rest) else None
      case _ => None
  }

  lemma {:induction false} HexRoundTrip(octets: Octets)
    ensures Unhex(Hex(octets)) == Some(octets) && '-' !in Hex(octets)
  {
    if octets != [] {
      HexRoundTrip(octets[1..]);
      var text := Hex(octets);
      assert text[2..] == Hex(octets[1..]);
      assert octets == [octets[0]] + octets[1..];
    }
  }

  // ----- one carrier id -----------------------------------------------------------------------------

  function UuidForm(octets: Octets): string
    requires |octets| == CHUNK
  {
    var h := Hex(octets);
    h[0..8] + "-" + h[8..12] + "-" + h[12..16] + "-" + h[16..20] + "-" + h[20..32]
  }

  function Clean(s: string): string {
    if s == "" then "" else (if s[0] != '-' then [s[0]] else "") + Clean(s[1..])
  }

  lemma {:induction false} CleanConcat(a: string, b: string)
    ensures Clean(a + b) == Clean(a) + Clean(b)
  {
    if a == "" {
      assert a + b == b;
    } else {
      CleanConcat(a[1..], b);
      assert (a + b)[0] == a[0] && (a + b)[1..] == a[1..] + b;
      Associate(if a[0] != '-' then [a[0]] else "", Clean(a[1..]), Clean(b));
    }
  }

  lemma {:induction false} CleanOfClean(s: string)
    requires '-' !in s
    ensures Clean(s) == s
  {
    if s != "" { CleanOfClean(s[1..]); }
  }

  lemma CleanAfterHyphen(a: string, b: string)
    requires '-' !in b
    ensures Clean(a + "-" + b) == Clean(a) + b
  {
    CleanConcat(a + "-", b);
    CleanConcat(a, "-");
    CleanOfClean(b);
  }

  /** The decoder drops the hyphens wherever they are and wants sixteen octets. */
  function OctetsOf(id: string): Option<Octets> {
    match Unhex(Clean(id))
    case Some(octets) => if |octets| == CHUNK then Some(octets) else None
    case None => None
  }

  lemma CleanNext(id: string, i: nat)
    requires i < |id|
    ensures Clean(id[i..]) == (if id[i] != '-' then [id[i]] else "") + Clean(id[i + 1..])
  {
    assert id[i..][0] == id[i] && id[i..][1..] == id[i + 1..];
  }

  lemma CleanNothing(id: string)
    ensures Clean(id[|id|..]) == ""
  {
    assert id[|id|..] == "";
  }

  method BytesFromUuidForm(id: string) returns (r: Option<Octets>)
    ensures r == OctetsOf(id)
  {
    hide Unhex, Clean;
    var clean := "";
    assert id[0..] == id;
    for i := 0 to |id|
      invariant clean + Clean(id[i..]) == Clean(id)
    {
      CleanNext(id, i);
      Associate(clean, if id[i] != '-' then [id[i]] else "", Clean(id[i + 1..]));
      if id[i] != '-' { clean := clean + [id[i]]; }
    }
    CleanNothing(id);
    assert clean + "" == clean;
    var octets := Unhex(clean);
    if octets == None || |octets.value| != CHUNK { return None; }
    return octets;
  }

  lemma UuidRoundTrip(octets: Octets)
    requires |octets| == CHUNK
    ensures OctetsOf(UuidForm(octets)) == Some(octets)
  {
    hide Hex, Unhex;
    HexRoundTrip(octets);
    var h := Hex(octets);
    var a, b, c, d, e := h[0..8], h[8..12], h[12..16], h[16..20], h[20..32];
    CleanOfClean(a);
    CleanAfterHyphen(a, b);
    CleanAfterHyphen(a + "-" + b, c);
    CleanAfterHyphen(a + "-" + b + "-" + c, d);
    CleanAfterHyphen(a + "-" + b + "-" + c + "-" + d, e);
    assert h == a + b + c + d + e;
  }

  // ----- the document -----------------------------------------------------------------------------

  datatype CoverEvent = CoverEvent(kind: string, event: string, messageId: string)

  /** The cover document as its JSON text carries it. */
  datatype Cover = Cover(schema: string, anonymousId: string, library: string, version: string, batch: seq<CoverEvent>)

  datatype CarrierFault = NoBatch | BadPayload | TooShort | TooLong

  function Framed(blob: Octets): Octets {
    Put(256, |blob| % FRAME_LIMIT, LEN_HEADER) + blob
  }

  function PadSize(framed: nat): nat {
    (CHUNK - framed % CHUNK) % CHUNK
  }

  /** The octets the ids of a batch carry, in order. */
  function Carried(batch: seq<CoverEvent>): Option<Octets> {
    if batch == [] then Some([])
    else
      match (Carried(batch[..|batch| - 1]), OctetsOf(batch[|batch| - 1].messageId))
      case (Some(front), Some(chunk)) => Some(front + chunk)
      case _ => None
  }

  lemma PadFills(n: nat)
    ensures (n + PadSize(n)) % CHUNK == 0
  {
  }

  lemma NextChunk(n: nat, i: nat)
    requires n % CHUNK == 0 && i % CHUNK == 0 && i < n
    ensures i + CHUNK <= n && (i + CHUNK) % CHUNK == 0
  {
  }

  lemma CarriedNext(batch: seq<CoverEvent>, front: Octets, event: CoverEvent, chunk: Octets)
    requires Carried(batch) == Some(front) && OctetsOf(event.messageId) == Some(chunk)
    ensures Carried(batch + [event]) == Some(front + chunk)
  {
    hide OctetsOf;
    assert (batch + [event])[..|batch|] == batch;
  }

  /** `pad`, the labels and the template are what the random source gave. */
  method Embed(blob: Octets, anonId: string, pad: Octets, names: nat -> string, schema: string, library: string, version: string)
    returns (cover: Cover)
    requires |pad| == PadSize(LEN_HEADER + |blob|)
    ensures Carried(cover.batch) == Some(Framed(blob) + pad) && cover.batch != []
    ensures cover.anonymousId == anonId && cover.schema == schema && cover.library == library && cover.version == version
  {
    hide UuidForm, OctetsOf;
    var framed: Octets := Put(256, |blob| % FRAME_LIMIT, LEN_HEADER) + blob;
    PadFills(|framed|);
    framed := framed + pad;
    var batch, i := [], 0;
    while i < |framed|
      invariant 0 <= i <= |framed| && i % CHUNK == 0 && |framed| % CHUNK == 0
      invariant Carried(batch) == Some(framed[..i]) && (i > 0 ==> batch != [])
    {
      NextChunk(|framed|, i);
      var chunk := framed[i..i + CHUNK];
      var event := CoverEvent("track", names(i / CHUNK), UuidForm(chunk));
      UuidRoundTrip(chunk);
      CarriedNext(batch, framed[..i], event, chunk);
      assert framed[..i + CHUNK] == framed[..i] + chunk;
      batch := batch + [event];
      i := i + CHUNK;
    }
    assert framed[..i] == framed;
    cover := Cover(schema, anonId, library, version, batch);
  }

  /** What a batch of ids decodes to. */
  function Extracted(batch: seq<CoverEvent>): Result<Octets, CarrierFault> {
    if batch == [] then Err(NoBatch)
    else
      match Carried(batch)
      case None => Err(BadPayload)
      case Some(framed) =>
        if |framed| < LEN_HEADER then Err(TooShort)
        else
          var n := Value(256, framed[..LEN_HEADER]);
          if n < 0 || n > |framed| - LEN_HEADER then Err(TooLong) else Ok(framed[LEN_HEADER..LEN_HEADER + n])
  }

  lemma {:induction false} BadIdSpoils(batch: seq<CoverEvent>, i: nat)
    requires i < |batch| && OctetsOf(batch[i].messageId) == None
    ensures Carried(batch) == None
  {
    if i < |batch| - 1 { BadIdSpoils(batch[..|batch| - 1], i); }
  }

  method Extract(cover: Cover) returns (r: Result<Octets, CarrierFault>)
    ensures r == Extracted(cover.batch)
  {
    if |cover.batch| == 0 { return Err(NoBatch); }
    var framed: Octets := [];
    for i := 0 to |cover.batch|
      invariant Carried(cover.batch[..i]) == Some(framed)
    {
      var chunk := BytesFromUuidForm(cover.batch[i].messageId);
      if chunk == None {
        BadIdSpoils(cover.batch, i);
        return Err(BadPayload);
      }
      assert cover.batch[..i + 1][..i] == cover.batch[..i];
      framed := framed + chunk.value;
    }
    assert cover.batch[..|cover.batch|] == cover.batch;
    if |framed| < LEN_HEADER { return Err(TooShort); }
    ValueBounded(256, framed[..LEN_HEADER]);
    var n := Value(256, framed[..LEN_HEADER]);
    if n > |framed| - LEN_HEADER { return Err(TooLong); }
    return Ok(framed[LEN_HEADER..LEN_HEADER + n]);
  }

  /** Whatever the padding, the labels and the template: a document whose ids carry a framed blob
      and any tail gives the blob back, cut to its length modulo 2^32. So a blob survives exactly
      when it is shorter than that. */
  lemma RoundTrip(blob: Octets, pad: Octets, batch: seq<CoverEvent>)
    requires batch != [] && Carried(batch) == Some(Framed(blob) + pad)
    ensures Extracted(batch) == Ok(blob[..|blob| % FRAME_LIMIT])
    ensures Extracted(batch) == Ok(blob) <==> |blob| < FRAME_LIMIT
  {
    var n := |blob| % FRAME_LIMIT;
    var framed := Framed(blob) + pad;
    LimitIsPower();
    ValueOfPut(256, n, LEN_HEADER);
    assert framed[..LEN_HEADER] == Put(256, n, LEN_HEADER);
    assert framed[LEN_HEADER..LEN_HEADER + n] == blob[..n];
    if |blob| < FRAME_LIMIT { assert blob[..n] == blob; }
  }

  lemma LimitIsPower()
    ensures Pow(256, LEN_HEADER) == FRAME_LIMIT
  {
    PowersOf256();
  }

  /** Different blobs never share a document. */
  lemma EmbedInjective(a: Octets, b: Octets, padA: Octets, padB: Octets, batch: seq<CoverEvent>)
    requires batch != [] && Carried(batch) == Some(Framed(a) + padA) == Some(Framed(b) + padB)
    requires |a| < FRAME_LIMIT && |b| < FRAME_LIMIT
    ensures a == b
  {
    RoundTrip(a, padA, batch);
    RoundTrip(b, padB, batch);
  }
}
