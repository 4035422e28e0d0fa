/** Base32 as section 6 of RFC 4648 defines it, unpadded and in lower case: quanta of five octets
    become eight symbols of five bits, a shorter last quantum is filled with zero bits. */
module Base32 {
  import opened Prelude
  import opened Digits

  /** The symbols that hold `octets` octets, and the zero bits that fill the last of them. */
  function Width(octets: nat): nat {
    (8 * octets + 4) / 5
  }

  function Fill(octets: nat): nat {
    5 * Width(octets) - 8 * octets
  }

  /** The octets whole in `width` symbols. */
  function Whole(width: nat): nat {
    5 * width / 8
  }

  function EncodeQuantum(octets: seq<Octet>): (symbols: seq<int>)
    requires 1 <= |octets| <= 5
    ensures |symbols| == Width(|octets|) && DigitsOf(32, symbols)
  {
    ValueBounded(256, octets);
    PowPositive(2, Fill(|octets|));
    Put(32, Value(256, octets) * Pow(2, Fill(|octets|)), Width(|octets|))
  }

  function DecodeQuantum(symbols: seq<int>): (octets: seq<Octet>)
    requires DigitsOf(32, symbols)
    ensures |octets| == Whole(|symbols|)
  {
    ValueBounded(32, symbols);
    PowPositive(2, Fill(Whole(|symbols|)));
    Put(256, Value(32, symbols) / Pow(2, Fill(Whole(|symbols|))), Whole(|symbols|))
  }

  lemma PowersOf32()
    ensures Pow(32, 2) == 1024 && Pow(32, 4) == 1048576 && Pow(32, 5) == 33554432
    ensures Pow(32, 7) == 34359738368 && Pow(32, 8) == 1099511627776
  {
    assert Pow(32, 1) == 32;
    assert Pow(32, 3) == 32768;
    assert Pow(32, 6) == 1073741824;
  }

  /** Eight bits for five: the symbols have room for the octets and the fill, exactly. */
  lemma SameRoom(octets: nat)
    requires 1 <= octets <= 5
    ensures Pow(32, Width(octets)) == Pow(256, octets) * Pow(2, Fill(octets))
    ensures Whole(Width(octets)) == octets
  {
    PowersOf32();
    PowersOf256();
    assert Pow(2, 1) == 2 && Pow(2, 2) == 4 && Pow(2, 3) == 8 && Pow(2, 4) == 16;
  }

  lemma QuantumRoundTrip(octets: seq<Octet>)
    requires 1 <= |octets| <= 5
    ensures DecodeQuantum(EncodeQuantum(octets)) == octets
  {
    var n, v, f := |octets|, Value(256, octets), Pow(2, Fill(|octets|));
    ValueBounded(256, octets);
    SameRoom(n);
    PowPositive(2, Fill(n));
    NextDigit(v, f, 0, Pow(256, n));
    Commute(f, Pow(256, n));
    ValueOfPut(32, v * f, Width(n));
    Quotient(v * f, f, v, 0);
    PutOfValue(256, octets);
  }

  lemma Commute(a: int, b: int)
    ensures a * b == b * a
  {
  }

  function Repack(octets: seq<Octet>): (symbols: seq<int>)
    ensures DigitsOf(32, symbols)
  {
    if octets == [] then []
    else if |octets| <= 5 then EncodeQuantum(octets)
    else EncodeQuantum(octets[..5]) + Repack(octets[5..])
  }

  function Unpack(symbols: seq<int>): seq<Octet>
    requires DigitsOf(32, symbols)
  {
    if symbols == [] then []
    else if |symbols| <= 8 then DecodeQuantum(symbols)
    else DecodeQuantum(symbols[..8]) + Unpack(symbols[8..])
  }

  /** The lengths an encoder can produce. */
  predicate LengthOk(n: nat) {
    n % 8 in {0, 2, 4, 5, 7}
  }

  lemma UnpackStep(first: seq<int>, rest: seq<int>)
    requires |first| == 8 && rest != [] && DigitsOf(32, first) && DigitsOf(32, rest)
    ensures Unpack(first + rest) == DecodeQuantum(first) + Unpack(rest)
  {
    hide DecodeQuantum;
    assert (first + rest)[..8] == first && (first + rest)[8..] == rest;
  }

  lemma FiveMore(octets: nat)
    ensures Width(octets + 5) == Width(octets) + 8
  {
  }

  lemma {:induction false} WidthIsProduced(octets: nat)
    ensures LengthOk(Width(octets)) && (octets > 0 ==> Width(octets) > 0)
  {
    if octets > 5 {
      WidthIsProduced(octets - 5);
      FiveMore(octets - 5);
    }
  }

  lemma {:induction false} RepackRoundTrip(octets: seq<Octet>)
    ensures Unpack(Repack(octets)) == octets && |Repack(octets)| == Width(|octets|)
  {
    hide EncodeQuantum, DecodeQuantum;
    if octets == [] {
    } else if |octets| <= 5 {
      QuantumRoundTrip(octets);
    } else {
      var first, rest := octets[..5], octets[5..];
      QuantumRoundTrip(first);
      RepackRoundTrip(rest);
      WidthIsProduced(|rest|);
      UnpackStep(EncodeQuantum(first), Repack(rest));
      assert octets == first + rest;
    }
  }

  // ----- as text ------------------------------------------------------------------------------

  function Letter(symbol: int): (c: char)
    requires 0 <= symbol < 32
    ensures c != '.' && ('a' <= c <= 'z' || '2' <= c <= '7')
  {
    if symbol < 26 then ('a' as int + symbol) as char else ('2' as int + symbol - 26) as char
  }

  /** Decoding does not distinguish the case of a letter. */
  function SymbolOf(c: char): int {
    if 'a' <= c <= 'z' then c as int - 'a' as int
    else if 'A' <= c <= 'Z' then c as int - 'A' as int
    else if '2' <= c <= '7' then c as int - '2' as int + 26
    else -1
  }

  function Encode(octets: seq<Octet>): (text: string)
    ensures |text| == |Repack(octets)|
  {
    seq(|Repack(octets)|, i requires 0 <= i < |Repack(octets)| => Letter(Repack(octets)[i]))
  }

  function SymbolsOf(text: string): seq<int> {
    seq(|text|, i requires 0 <= i < |text| => SymbolOf(text[i]))
  }

  function Decode(text: string): Option<seq<Octet>> {
    var symbols := SymbolsOf(text);
    if LengthOk(|text|) && forall i :: 0 <= i < |symbols| ==> 0 <= symbols[i] then Some(Unpack(symbols)) else None
  }

  lemma LetterIsSymbol(symbol: int)
    requires 0 <= symbol < 32
    ensures SymbolOf(Letter(symbol)) == symbol
  {
  }

  lemma EncodedSymbols(octets: seq<Octet>)
    ensures SymbolsOf(Encode(octets)) == Repack(octets)
  {
    hide Repack, Letter, SymbolOf;
    forall i | 0 <= i < |Repack(octets)| ensures SymbolsOf(Encode(octets))[i] == Repack(octets)[i] {
      LetterIsSymbol(Repack(octets)[i]);
    }
  }

  /** Decoding undoes encoding, in whatever case the text arrives. */
  lemma RoundTrip(octets: seq<Octet>, text: string)
    requires |text| == |Encode(octets)|
    requires forall i :: 0 <= i < |text| ==> SymbolOf(text[i]) == SymbolOf(Encode(octets)[i])
    ensures Decode(text) == Some(octets)
  {
    hide Repack, Unpack, SymbolOf;
    RepackRoundTrip(octets);
    WidthIsProduced(|octets|);
    EncodedSymbols(octets);
    assert SymbolsOf(text) == SymbolsOf(Encode(octets));
  }

  lemma EncodeInjective(a: seq<Octet>, b: seq<Octet>)
    requires Encode(a) == Encode(b)
    ensures a == b
  {
    RoundTrip(a, Encode(a));
    RoundTrip(b, Encode(b));
  }
}
