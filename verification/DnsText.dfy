/** A signed blob as the character-strings of one TXT record, and the query name of a delivery
    key. Sizes follow sections 2.3.4 and 3.3 of RFC 1035. */
module DnsText {
  import opened Prelude
  import opened Digits
  import Base32

  const STRING_MAX: nat := 255
  const LABEL_MAX: nat := 63

  function Flatten(parts: seq<string>): string {
    if parts == [] then "" else parts[0] + Flatten(parts[1..])
  }

  /** Pieces of `size`, the last one shorter or equal; nothing makes one empty piece. */
  function Pieces(s: string, size: nat): (parts: seq<string>)
    requires size > 0
    ensures |parts| > 0 && forall i :: 0 <= i < |parts| ==> |parts[i]| <= size
  {
    if |s| <= size then [s] else [s[..size]] + Pieces(s[size..], size)
  }

  lemma {:induction false} FlattenPieces(s: string, size: nat)
    requires size > 0
    ensures Flatten(Pieces(s, size)) == s
    decreases |s|
  {
    if |s| <= size {
      assert [s][1..] == [];
    } else {
      FlattenPieces(s[size..], size);
      assert s == s[..size] + s[size..];
      assert Pieces(s, size)[1..] == Pieces(s[size..], size);
    }
  }

  lemma PiecesStep(done: seq<string>, s: string, size: nat)
    requires 0 < size < |s|
    ensures done + Pieces(s, size) == done + [s[..size]] + Pieces(s[size..], size)
  {
  }

  method Cut(s: string, size: nat) returns (out: seq<string>)
    requires size > 0
    ensures out == Pieces(s, size)
  {
    var rest := s;
    out := [];
    while |rest| > size
      invariant out + Pieces(rest, size) == Pieces(s, size)
    {
      PiecesStep(out, rest, size);
      out := out + [rest[..size]];
      rest := rest[size..];
    }
    out := out + [rest];
  }

  datatype TxtFault = EmptyRecord | BadBase32

  function DecodeTXT(parts: seq<string>): Result<seq<Octet>, TxtFault> {
    var joined := Flatten(parts);
    if joined == "" then Err(EmptyRecord)
    else
      match Base32.Decode(joined)
      case Some(octets) => Ok(octets)
      case None => Err(BadBase32)
  }

  /** The character-strings of a blob fit their limit and decode back to it. An empty blob is the
      one that does not survive: its only string is empty. */
  method EncodeTXT(blob: seq<Octet>) returns (out: seq<string>)
    ensures forall i :: 0 <= i < |out| ==> |out[i]| <= STRING_MAX
    ensures Flatten(out) == Base32.Encode(blob)
    ensures DecodeTXT(out) == if blob == [] then Err(EmptyRecord) else Ok(blob)
  {
    out := Cut(Base32.Encode(blob), STRING_MAX);
    FlattenPieces(Base32.Encode(blob), STRING_MAX);
    TxtRoundTrip(blob, out);
  }

  /** Whatever the boundaries between the strings and the case of their letters. */
  lemma TxtRoundTrip(blob: seq<Octet>, parts: seq<string>)
    requires |Flatten(parts)| == |Base32.Encode(blob)|
    requires forall i :: 0 <= i < |Flatten(parts)| ==>
      Base32.SymbolOf(Flatten(parts)[i]) == Base32.SymbolOf(Base32.Encode(blob)[i])
    ensures DecodeTXT(parts) == if blob == [] then Err(EmptyRecord) else Ok(blob)
  {
    Base32.RepackRoundTrip(blob);
    Base32.WidthIsProduced(|blob|);
    if blob != [] { Base32.RoundTrip(blob, Flatten(parts)); }
  }

  // ----- the query name -------------------------------------------------------------------------

  function Dotted(labels: seq<string>): string
    requires |labels| > 0
  {
    if |labels| == 1 then labels[0] else labels[0] + "." + Dotted(labels[1..])
  }

  function TrimLeft(s: string): string {
    if s != "" && s[0] == '.' then TrimLeft(s[1..]) else s
  }

  function TrimRight(s: string): string {
    if s != "" && s[|s| - 1] == '.' then TrimRight(s[..|s| - 1]) else s
  }

  function Trim(s: string): string {
    TrimRight(TrimLeft(s))
  }

  function NameOf(zone: string, key: seq<Octet>): string {
    Dotted(Pieces(Base32.Encode(key), LABEL_MAX)) + "." + Trim(zone)
  }

  /** `None` stands for the one error, a zone that is nothing but dots. */
  method QName(zone: string, key: seq<Octet>) returns (name: Option<string>)
    ensures name == if Trim(zone) == "" then None else Some(NameOf(zone, key))
  {
    var bare := Trim(zone);
    if bare == "" { return None; }
    var labels := Cut(Base32.Encode(key), LABEL_MAX);
    return Some(Dotted(labels) + "." + bare);
  }

  function WithoutDots(s: string): string {
    if s == "" then "" else (if s[0] == '.' then "" else [s[0]]) + WithoutDots(s[1..])
  }

  predicate NoDot(s: string) {
    '.' !in s
  }

  lemma {:induction false} WithoutDotsConcat(a: string, b: string)
    ensures WithoutDots(a + b) == WithoutDots(a) + WithoutDots(b)
  {
    if a == "" {
      assert a + b == b;
    } else {
      WithoutDotsConcat(a[1..], b);
      assert (a + b)[0] == a[0] && (a + b)[1..] == a[1..] + b;
      Associate(if a[0] == '.' then "" else [a[0]], WithoutDots(a[1..]), WithoutDots(b));
    }
  }

  lemma {:induction false} NothingToDrop(s: string)
    requires NoDot(s)
    ensures WithoutDots(s) == s
  {
    if s != "" { NothingToDrop(s[1..]); }
  }

  lemma OnlyDot()
    ensures WithoutDots(".") == ""
  {
    assert "."[1..] == "";
  }

  lemma {:induction false} DroppingDotsJoins(labels: seq<string>)
    requires |labels| > 0 && forall i :: 0 <= i < |labels| ==> NoDot(labels[i])
    ensures WithoutDots(Dotted(labels)) == Flatten(labels)
  {
    hide WithoutDots;
    NothingToDrop(labels[0]);
    if |labels| == 1 {
      assert labels[1..] == [];
    } else {
      DroppingDotsJoins(labels[1..]);
      WithoutDotsConcat(labels[0] + ".", Dotted(labels[1..]));
      WithoutDotsConcat(labels[0], ".");
      OnlyDot();
      assert WithoutDots(labels[0]) + "" == labels[0];
    }
  }

  lemma {:induction false} PiecesHaveNoDot(s: string, size: nat)
    requires size > 0 && NoDot(s)
    ensures forall i :: 0 <= i < |Pieces(s, size)| ==> NoDot(Pieces(s, size)[i])
    decreases |s|
  {
    if |s| > size { PiecesHaveNoDot(s[size..], size); }
  }

  /** The labels a key contributes: within the limit, free of dots, and together the encoded key. */
  lemma KeyLabels(key: seq<Octet>)
    ensures
      var labels := Pieces(Base32.Encode(key), LABEL_MAX);
      && (forall i :: 0 <= i < |labels| ==> |labels[i]| <= LABEL_MAX && NoDot(labels[i]))
      && WithoutDots(Dotted(labels)) == Base32.Encode(key)
  {
    var text := Base32.Encode(key);
    assert NoDot(text);
    PiecesHaveNoDot(text, LABEL_MAX);
    DroppingDotsJoins(Pieces(text, LABEL_MAX));
    FlattenPieces(text, LABEL_MAX);
  }

  lemma SameTail(x: string, y: string, tail: string)
    requires x + tail == y + tail
    ensures x == y
  {
    assert |x| == |y|;
    assert x == (x + tail)[..|x|] && y == (y + tail)[..|y|];
  }

  /** Under one zone different keys have different names. */
  lemma QNameInjective(zone: string, a: seq<Octet>, b: seq<Octet>)
    requires NameOf(zone, a) == NameOf(zone, b)
    ensures a == b
  {
    hide Dotted, Pieces, Trim;
    var x, y := Dotted(Pieces(Base32.Encode(a), LABEL_MAX)), Dotted(Pieces(Base32.Encode(b), LABEL_MAX));
    Associate(x, ".", Trim(zone));
    Associate(y, ".", Trim(zone));
    SameTail(x, y, "." + Trim(zone));
    KeyLabels(a);
    KeyLabels(b);
    Base32.EncodeInjective(a, b);
  }

  lemma {:induction false} DottedLength(labels: seq<string>)
    requires |labels| > 0
    ensures |Dotted(labels)| == |Flatten(labels)| + |labels| - 1
  {
    if |labels| == 1 { assert labels[1..] == []; } else { DottedLength(labels[1..]); }
  }

  lemma {:induction false} PieceCount(s: string, size: nat)
    requires size > 0
    ensures |Pieces(s, size)| == if s == "" then 1 else (|s| + size - 1) / size
    decreases |s|
  {
    if |s| > size {
      PieceCount(s[size..], size);
      OneMorePiece(|s| - 1, size);
    } else if s != "" {
      Quotient(|s| + size - 1, size, 1, |s| - 1);
    }
  }

  lemma OneMorePiece(n: nat, size: nat)
    requires 0 < size <= n
    ensures (n + size) / size == (n - size + size) / size + 1
  {
    Recompose(n, size);
    Quotient(n + size, size, n / size + 1, n % size);
  }

  /** The whole name is not limited: it has the encoded key, a dot after each label, and the zone.
      So it meets the 253 visible octets of RFC 1035 exactly when this sum does. */
  lemma NameLength(zone: string, key: seq<Octet>)
    ensures
      var w := Base32.Width(|key|);
      |NameOf(zone, key)| == w + (if w == 0 then 1 else (w + LABEL_MAX - 1) / LABEL_MAX) + |Trim(zone)|
  {
    var text := Base32.Encode(key);
    Base32.RepackRoundTrip(key);
    DottedLength(Pieces(text, LABEL_MAX));
    FlattenPieces(text, LABEL_MAX);
    PieceCount(text, LABEL_MAX);
  }
}
