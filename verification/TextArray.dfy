/** The text form of a list of strings, as the signal store writes it into an array column and
    reads it back. Strings are sequences of runes. */
module TextArray {
  import opened Prelude

  const QUOTE: char := '"'
  const ESCAPE: char := '\\'

  // ----- printing ---------------------------------------------------------------------------------

  function Escaped(v: string): string {
    if v == "" then ""
    else (if v[0] == QUOTE || v[0] == ESCAPE then [ESCAPE, v[0]] else [v[0]]) + Escaped(v[1..])
  }

  function Quoted(v: string): string {
    [QUOTE] + Escaped(v) + [QUOTE]
  }

  /** The elements with commas between them. */
  function Listed(vals: seq<string>): string {
    if vals == [] then ""
    else if |vals| == 1 then Quoted(vals[0])
    else Listed(vals[..|vals| - 1]) + "," + Quoted(vals[|vals| - 1])
  }

  function Printed(vals: seq<string>): string {
    "{" + Listed(vals) + "}"
  }

  lemma {:induction false} EscapedNext(v: string, k: nat)
    requires k < |v|
    ensures Escaped(v[..k + 1]) == Escaped(v[..k]) + if v[k] == QUOTE || v[k] == ESCAPE then [ESCAPE, v[k]] else [v[k]]
  {
    if k == 0 {
      assert v[..1] == [v[0]];
    } else {
      EscapedNext(v[1..], k - 1);
      assert v[..k + 1][1..] == v[1..][..k] && v[..k][1..] == v[1..][..k - 1];
    }
  }

  method QuoteArrayElem(v: string) returns (q: string)
    ensures q == Quoted(v)
  {
    q := [QUOTE];
    for k := 0 to |v|
      invariant q == [QUOTE] + Escaped(v[..k])
    {
      EscapedNext(v, k);
      if v[k] == QUOTE || v[k] == ESCAPE { q := q + [ESCAPE]; }
      q := q + [v[k]];
    }
    assert v[..|v|] == v;
    q := q + [QUOTE];
  }

  method PqTextArray(vals: seq<string>) returns (out: string)
    ensures out == Printed(vals)
  {
    if |vals| == 0 { return "{}"; }
    out := "{";
    for i := 0 to |vals|
      invariant out == "{" + Listed(vals[..i])
    {
      assert vals[..i + 1][..i] == vals[..i];
      if i > 0 { out := out + ","; }
      var element := QuoteArrayElem(vals[i]);
      out := out + element;
    }
    assert vals[..|vals|] == vals;
    out := out + "}";
  }

  // ----- parsing ----------------------------------------------------------------------------------

  /** The parser's registers. */
  datatype Scanner = Scanner(out: seq<string>, cur: string, inQuote: bool, esc: bool)

  const START := Scanner([], "", false, false)

  function Feed(s: Scanner, r: char): Scanner {
    if s.esc then s.(cur := s.cur + [r], esc := false)
    else if r == ESCAPE then s.(esc := true)
    else if r == QUOTE then s.(inQuote := !s.inQuote)
    else if r == ',' && !s.inQuote then s.(out := s.out + [s.cur], cur := "")
    else s.(cur := s.cur + [r])
  }

  function Scan(s: Scanner, text: string): Scanner
    decreases |text|
  {
    if text == "" then s else Scan(Feed(s, text[0]), text[1..])
  }

  function Flushed(s: Scanner): seq<string> {
    if s.cur != "" then s.out + [s.cur] else s.out
  }

  function Parsed(lit: string): seq<string> {
    if |lit| < 2 || lit == "{}" then [] else Flushed(Scan(START, lit[1..|lit| - 1]))
  }

  method ParseTextArray(lit: string) returns (out: seq<string>)
    ensures out == Parsed(lit)
  {
    if |lit| < 2 || lit == "{}" { return []; }
    var inner := lit[1..|lit| - 1];
    var cur, inQuote, esc := "", false, false;
    out := [];
    for k := 0 to |inner|
      invariant Scan(Scanner(out, cur, inQuote, esc), inner[k..]) == Scan(START, inner)
    {
      var r := inner[k];
      assert inner[k..][0] == r && inner[k..][1..] == inner[k + 1..];
      if esc {
        cur := cur + [r];
        esc := false;
      } else if r == ESCAPE {
        esc := true;
      } else if r == QUOTE {
        inQuote := !inQuote;
      } else if r == ',' && !inQuote {
        out := out + [cur];
        cur := "";
      } else {
        cur := cur + [r];
      }
    }
    if |cur| > 0 { out := out + [cur]; }
  }

  // ----- the two undo each other ------------------------------------------------------------------

  lemma {:induction false} ScanConcat(s: Scanner, a: string, b: string)
    ensures Scan(s, a + b) == Scan(Scan(s, a), b)
    decreases |a|
  {
    if a == "" {
      assert a + b == b;
    } else {
      assert (a + b)[0] == a[0] && (a + b)[1..] == a[1..] + b;
      ScanConcat(Feed(s, a[0]), a[1..], b);
    }
  }

  /** Inside quotes an escaped text is read as the text. */
  lemma {:induction false} ScanEscaped(s: Scanner, v: string)
    requires s.inQuote && !s.esc
    ensures Scan(s, Escaped(v)) == s.(cur := s.cur + v)
    decreases |v|
  {
    if v == "" {
      assert s.cur + v == s.cur;
    } else {
      var head := if v[0] == QUOTE || v[0] == ESCAPE then [ESCAPE, v[0]] else [v[0]];
      ScanConcat(s, head, Escaped(v[1..]));
      ScanHead(s, v[0]);
      ScanEscaped(s.(cur := s.cur + [v[0]]), v[1..]);
      assert s.cur + [v[0]] + v[1..] == s.cur + v;
    }
  }

  lemma ScanHead(s: Scanner, c: char)
    requires s.inQuote && !s.esc
    ensures Scan(s, if c == QUOTE || c == ESCAPE then [ESCAPE, c] else [c]) == s.(cur := s.cur + [c])
  {
    if c == QUOTE || c == ESCAPE {
      assert [ESCAPE, c][1..] == [c] && [c][1..] == "";
      assert Scan(s, [ESCAPE, c]) == Scan(Feed(s, ESCAPE), [c]) == Scan(Feed(Feed(s, ESCAPE), c), "");
    } else {
      assert Scan(s, [c]) == Scan(Feed(s, c), "");
    }
  }

  /** A quoted element, read from between elements. */
  lemma ScanQuoted(s: Scanner, v: string)
    requires !s.inQuote && !s.esc
    ensures Scan(s, Quoted(v)) == s.(cur := s.cur + v)
  {
    ScanConcat(s, [QUOTE] + Escaped(v), [QUOTE]);
    ScanConcat(s, [QUOTE], Escaped(v));
    ScanOne(s, QUOTE);
    ScanEscaped(s.(inQuote := true), v);
    ScanOne(s.(inQuote := true, cur := s.cur + v), QUOTE);
  }

  lemma ScanOne(s: Scanner, c: char)
    ensures Scan(s, [c]) == Feed(s, c)
  {
    assert Scan(s, [c]) == Scan(Feed(s, c), "");
  }

  /** Reading the list collects all elements but the last, which is still being read. */
  lemma {:induction false} ScanListed(vals: seq<string>)
    requires vals != []
    ensures Scan(START, Listed(vals)) == Scanner(vals[..|vals| - 1], vals[|vals| - 1], false, false)
  {
    var init, last := vals[..|vals| - 1], vals[|vals| - 1];
    if |vals| == 1 {
      ScanQuoted(START, last);
    } else {
      ScanListed(init);
      var s := Scan(START, Listed(init));
      ScanConcat(START, Listed(init) + ",", Quoted(last));
      ScanConcat(START, Listed(init), ",");
      ScanOne(s, ',');
      assert init == init[..|init| - 1] + [init[|init| - 1]];
      ScanQuoted(Scanner(init, "", false, false), last);
    }
  }

  /** Exactly what survives the column: everything, but for one empty last element. */
  lemma RoundTrip(vals: seq<string>)
    ensures Parsed(Printed(vals)) == if vals != [] && vals[|vals| - 1] == "" then vals[..|vals| - 1] else vals
    ensures Parsed(Printed(vals)) == vals <==> vals == [] || vals[|vals| - 1] != ""
  {
    if vals != [] {
      var lit := Printed(vals);
      assert lit[1..|lit| - 1] == Listed(vals);
      ScanListed(vals);
      ListedIsLong(vals);
      assert vals == vals[..|vals| - 1] + [vals[|vals| - 1]];
    }
  }

  lemma ListedIsLong(vals: seq<string>)
    requires vals != []
    ensures |Listed(vals)| >= 2
  {
  }
}
