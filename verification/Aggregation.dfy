/** The rollup of anonymous field signals: one bucket per region and transport, one voice per
    source key, and the verdict that no single voice can flip. */
module Aggregation {
  import opened Prelude

  datatype SignalType =
    | OK | Throttle | Reset | Timeout | DpiBlock | ActiveProbe | HandshakeFail | DnsPoison | OtherType

  datatype Signal = Signal(
    observedAt: Time, region: string, transport: string, kind: SignalType, success: bool,
    asn: int, isp: string, platform: string)

  datatype Key = Key(region: string, transport: string)

  // ----- one signal -------------------------------------------------------------------------------

  function Decimal(n: nat): string {
    var digit := [('0' as int + n % 10) as char];
    if n < 10 then digit else Decimal(n / 10) + digit
  }

  function SourceKey(s: Signal): string {
    if s.asn > 0 then "asn:" + Decimal(s.asn)
    else if s.isp != "" then "isp:" + s.region + "|" + s.isp
    else "geo:" + s.region + "|" + s.platform
  }

  const HEALTHY: int := 0
  const IMPAIRED: int := 1
  const BLOCKED: int := 2

  function Classify(s: Signal): int {
    match s.kind
    case Throttle => IMPAIRED
    case OK => HEALTHY
    case OtherType => if s.success then HEALTHY else BLOCKED
    case _ => BLOCKED
  }

  // ----- voices -----------------------------------------------------------------------------------

  /** The signals of one bucket between two instants, the second included or not. */
  datatype Window = Window(key: Key, from: Time, to: Time, closed: bool)

  predicate Inside(s: Signal, w: Window) {
    && Key(s.region, s.transport) == w.key && w.from <= s.observedAt
    && (s.observedAt < w.to || (w.closed && s.observedAt == w.to))
  }

  /** Worst wins. */
  function Observe(voices: map<string, int>, source: string, outcome: int): map<string, int> {
    voices[source := if source in voices && voices[source] > outcome then voices[source] else outcome]
  }

  function Hear(voices: map<string, int>, s: Signal, w: Window): map<string, int> {
    if Inside(s, w) then Observe(voices, SourceKey(s), Classify(s)) else voices
  }

  function Voices(signals: seq<Signal>, w: Window): map<string, int> {
    if signals == [] then map[]
    else Hear(Voices(signals[..|signals| - 1], w), signals[|signals| - 1], w)
  }

  predicate Says(s: Signal, w: Window, source: string, outcome: int) {
    Inside(s, w) && SourceKey(s) == source && Classify(s) == outcome
  }

  lemma {:induction false} VoicesBound(signals: seq<Signal>, w: Window, i: nat)
    requires i < |signals| && Inside(signals[i], w)
    ensures SourceKey(signals[i]) in Voices(signals, w) && Voices(signals, w)[SourceKey(signals[i])] >= Classify(signals[i])
  {
    hide Inside, SourceKey, Classify;
    if i < |signals| - 1 { VoicesBound(signals[..|signals| - 1], w, i); }
  }

  lemma {:induction false} VoicesAttained(signals: seq<Signal>, w: Window, x: string) returns (i: nat)
    requires x in Voices(signals, w)
    ensures i < |signals| && Says(signals[i], w, x, Voices(signals, w)[x])
  {
    hide Inside, SourceKey, Classify;
    var init, last := signals[..|signals| - 1], signals[|signals| - 1];
    if x in Voices(init, w) && Voices(signals, w)[x] == Voices(init, w)[x] {
      i := VoicesAttained(init, w, x);
    } else {
      i := |signals| - 1;
    }
  }

  lemma ClassifyInRange(s: Signal)
    ensures HEALTHY <= Classify(s) <= BLOCKED
  {
  }

  /** A source is heard if it sent anything, and its voice is the worst of what it sent. */
  lemma VoicesAreWorst(signals: seq<Signal>, w: Window)
    ensures forall i :: 0 <= i < |signals| && Inside(signals[i], w) ==>
      SourceKey(signals[i]) in Voices(signals, w) && Voices(signals, w)[SourceKey(signals[i])] >= Classify(signals[i])
    ensures forall x :: x in Voices(signals, w) ==>
      HEALTHY <= Voices(signals, w)[x] <= BLOCKED && exists i :: 0 <= i < |signals| && Says(signals[i], w, x, Voices(signals, w)[x])
  {
    hide Inside, SourceKey, Classify, Voices;
    forall i | 0 <= i < |signals| && Inside(signals[i], w)
      ensures SourceKey(signals[i]) in Voices(signals, w) && Voices(signals, w)[SourceKey(signals[i])] >= Classify(signals[i])
    {
      VoicesBound(signals, w, i);
    }
    forall x | x in Voices(signals, w)
      ensures HEALTHY <= Voices(signals, w)[x] <= BLOCKED && exists i :: 0 <= i < |signals| && Says(signals[i], w, x, Voices(signals, w)[x])
    {
      var i := VoicesAttained(signals, w, x);
      ClassifyInRange(signals[i]);
    }
  }

  /** The order of the signals does not show. */
  lemma VoicesOrderFree(a: seq<Signal>, b: seq<Signal>, w: Window)
    requires multiset(a) == multiset(b)
    ensures Voices(a, w) == Voices(b, w)
  {
    VoicesBelow(a, b, w);
    VoicesBelow(b, a, w);
  }

  lemma VoicesBelow(a: seq<Signal>, b: seq<Signal>, w: Window)
    requires multiset(a) == multiset(b)
    ensures forall x :: x in Voices(a, w) ==> x in Voices(b, w) && Voices(a, w)[x] <= Voices(b, w)[x]
  {
    hide Voices, Inside;
    VoicesAreWorst(a, w);
    VoicesAreWorst(b, w);
    forall x | x in Voices(a, w) ensures x in Voices(b, w) && Voices(a, w)[x] <= Voices(b, w)[x] {
      var i :| 0 <= i < |a| && Says(a[i], w, x, Voices(a, w)[x]);
      assert a[i] in multiset(b);
      var j :| 0 <= j < |b| && b[j] == a[i];
    }
  }

  // ----- counting ---------------------------------------------------------------------------------

  function With(voices: map<string, int>, outcome: int): set<string> {
    set x | x in voices && voices[x] == outcome
  }

  datatype Tally = Tally(distinct: nat, blocked: nat, degraded: nat, ok: nat)

  function TallyOf(voices: map<string, int>): Tally {
    Tally(|voices|, |With(voices, BLOCKED)|, |With(voices, IMPAIRED)|, |With(voices, HEALTHY)|)
  }

  /** Every distinct source counts once, by its worst outcome. */
  lemma TallyAddsUp(signals: seq<Signal>, w: Window)
    ensures
      var t := TallyOf(Voices(signals, w));
      t.blocked + t.degraded + t.ok == t.distinct
  {
    hide Voices, TallyOf;
    VoicesAreWorst(signals, w);
    OutcomesAddUp(Voices(signals, w));
  }

  lemma OutcomesAddUp(v: map<string, int>)
    requires forall x :: x in v ==> HEALTHY <= v[x] <= BLOCKED
    ensures TallyOf(v).blocked + TallyOf(v).degraded + TallyOf(v).ok == TallyOf(v).distinct
  {
    var b, i, h := With(v, BLOCKED), With(v, IMPAIRED), With(v, HEALTHY);
    assert v.Keys == b + i + h;
    assert b !! i && b + i !! h;
    assert |b + i + h| == |b| + |i| + |h|;
    assert |v.Keys| == |v|;
  }

  function PartOf(voices: map<string, int>, done: set<string>): map<string, int> {
    map x | x in voices && x in done :: voices[x]
  }

  lemma TallyNext(voices: map<string, int>, done: set<string>, x: string)
    requires x in voices && x !in done
    ensures
      var t, u := TallyOf(PartOf(voices, done)), TallyOf(PartOf(voices, done + {x}));
      && u.distinct == t.distinct + 1
      && u.blocked == t.blocked + (if voices[x] == BLOCKED then 1 else 0)
      && u.degraded == t.degraded + (if voices[x] == IMPAIRED then 1 else 0)
      && u.ok == t.ok + (if voices[x] == HEALTHY then 1 else 0)
  {
    var p, q := PartOf(voices, done), PartOf(voices, done + {x});
    assert q == p[x := voices[x]];
    assert q.Keys == p.Keys + {x} && |q.Keys| == |q| && |p.Keys| == |p|;
    WithNext(p, q, x, voices[x], BLOCKED);
    WithNext(p, q, x, voices[x], IMPAIRED);
    WithNext(p, q, x, voices[x], HEALTHY);
  }

  lemma WithNext(p: map<string, int>, q: map<string, int>, x: string, outcome: int, o: int)
    requires x !in p && q == p[x := outcome]
    ensures |With(q, o)| == |With(p, o)| + if outcome == o then 1 else 0
  {
    assert With(q, o) == With(p, o) + if outcome == o then {x} else {};
  }

  method TallyVoices(voices: map<string, int>) returns (t: Tally)
    ensures t == TallyOf(voices)
  {
    hide TallyOf, PartOf;
    var rest := voices.Keys;
    t := Tally(0, 0, 0, 0);
    ghost var done: set<string> := {};
    NothingTallied(voices);
    while rest != {}
      invariant rest <= voices.Keys && done == voices.Keys - rest && t == TallyOf(PartOf(voices, done))
      decreases rest
    {
      var x :| x in rest;
      TallyNext(voices, done, x);
      t := t.(distinct := t.distinct + 1);
      if voices[x] == BLOCKED {
        t := t.(blocked := t.blocked + 1);
      } else if voices[x] == IMPAIRED {
        t := t.(degraded := t.degraded + 1);
      } else if voices[x] == HEALTHY {
        t := t.(ok := t.ok + 1);
      }
      rest, done := rest - {x}, done + {x};
    }
    EverythingTallied(voices, done);
  }

  lemma NothingTallied(voices: map<string, int>)
    ensures TallyOf(PartOf(voices, {})) == Tally(0, 0, 0, 0)
  {
    assert PartOf(voices, {}) == map[];
  }

  lemma EverythingTallied(voices: map<string, int>, done: set<string>)
    requires done == voices.Keys
    ensures PartOf(voices, done) == voices
  {
  }

  // ----- flooding ---------------------------------------------------------------------------------

  predicate SentBy(signals: seq<Signal>, sources: set<string>) {
    forall i :: 0 <= i < |signals| ==> SourceKey(signals[i]) in sources
  }

  /** More signals from some sources change the voices of those sources only. */
  lemma {:induction false} OthersAreHeardAsBefore(signals: seq<Signal>, extra: seq<Signal>, w: Window, sources: set<string>)
    requires SentBy(extra, sources)
    ensures forall x :: x !in sources ==>
      (x in Voices(signals + extra, w) <==> x in Voices(signals, w))
      && (x in Voices(signals, w) ==> Voices(signals + extra, w)[x] == Voices(signals, w)[x])
  {
    hide Decimal, Inside, Classify;
    if extra == [] {
      assert signals + extra == signals;
    } else {
      var init := extra[..|extra| - 1];
      OthersAreHeardAsBefore(signals, init, w, sources);
      assert (signals + extra)[..|signals + extra| - 1] == signals + init;
    }
  }

  lemma CountsClose(a: set<string>, b: set<string>, sources: set<string>)
    requires forall x :: x !in sources ==> (x in a <==> x in b)
    ensures |a| <= |b| + |sources|
  {
    assert a <= b + sources;
    SubsetSize(a, b + sources);
    assert |b + sources| <= |b| + |sources|;
  }

  /** However many signals `n` sources add, they move each count by at most `n`; one source moves
      each by at most one. */
  lemma FloodMovesOnePerSource(signals: seq<Signal>, extra: seq<Signal>, w: Window, sources: set<string>)
    requires SentBy(extra, sources)
    ensures
      var t, u, n := TallyOf(Voices(signals, w)), TallyOf(Voices(signals + extra, w)), |sources|;
      && t.distinct <= u.distinct + n && u.distinct <= t.distinct + n && t.blocked <= u.blocked + n && u.blocked <= t.blocked + n
      && t.degraded <= u.degraded + n && u.degraded <= t.degraded + n && t.ok <= u.ok + n && u.ok <= t.ok + n
  {
    hide Voices;
    OthersAreHeardAsBefore(signals, extra, w, sources);
    var v, x := Voices(signals, w), Voices(signals + extra, w);
    assert |v.Keys| == |v| && |x.Keys| == |x|;
    CountsClose(v.Keys, x.Keys, sources);
    CountsClose(x.Keys, v.Keys, sources);
    forall o: int ensures |With(v, o)| <= |With(x, o)| + |sources| && |With(x, o)| <= |With(v, o)| + |sources| {
      CountsClose(With(v, o), With(x, o), sources);
      CountsClose(With(x, o), With(v, o), sources);
    }
  }

  // ----- the verdict --------------------------------------------------------------------------------

  datatype Params = Params(
    minSources: int, minBlockedSources: int, deadShare: real, maxOkShareForDead: real, degradedShare: real,
    spikeDelta: real, spikeMinSources: int)

  function Share(part: nat, whole: nat): real {
    if whole == 0 then 0.0 else part as real / whole as real
  }

  datatype Aggregate = Aggregate(
    total: nat, tally: Tally, blockedShare: real, degradedShare: real, okShare: real,
    resetRate: real, probeRate: real, trend: real, spike: bool, dead: bool, degraded: bool)

  function WithVerdict(a: Aggregate, p: Params): Aggregate {
    if a.tally.distinct < p.minSources then a
    else if a.blockedShare >= p.deadShare && a.tally.blocked >= p.minBlockedSources && a.okShare <= p.maxOkShareForDead then
      a.(dead := true)
    else if a.blockedShare + a.degradedShare >= p.degradedShare then a.(degraded := true)
    else a
  }

  function Count(signals: seq<Signal>, w: Window, kinds: set<SignalType>): nat {
    if signals == [] then 0
    else
      var last := signals[|signals| - 1];
      Count(signals[..|signals| - 1], w, kinds) + if Inside(last, w) && last.kind in kinds then 1 else 0
  }

  const ALL: set<SignalType> := {OK, Throttle, Reset, Timeout, DpiBlock, ActiveProbe, HandshakeFail, DnsPoison, OtherType}

  function Whole(k: Key, now: Time, window: Time): Window {
    Window(k, now - window, now, true)
  }

  function FirstHalf(k: Key, now: Time, window: Time): Window {
    Window(k, now - window, now - window / 2, false)
  }

  function SecondHalf(k: Key, now: Time, window: Time): Window {
    Window(k, now - window / 2, now, true)
  }

  function Rollup(total: nat, resets: nat, probes: nat, all: Tally, first: Tally, second: Tally, p: Params): Aggregate {
    var trend := Share(second.blocked, second.distinct) - Share(first.blocked, first.distinct);
    WithVerdict(
      Aggregate(total, all, Share(all.blocked, all.distinct), Share(all.degraded, all.distinct), Share(all.ok, all.distinct),
                Share(resets, total), Share(probes, total), trend,
                trend >= p.spikeDelta && second.blocked >= p.spikeMinSources, false, false), p)
  }

  function AggregateOf(signals: seq<Signal>, k: Key, now: Time, window: Time, p: Params): Aggregate {
    var w := Whole(k, now, window);
    Rollup(Count(signals, w, ALL), Count(signals, w, {Reset}), Count(signals, w, {ActiveProbe}),
           TallyOf(Voices(signals, w)), TallyOf(Voices(signals, FirstHalf(k, now, window))),
           TallyOf(Voices(signals, SecondHalf(k, now, window))), p)
  }

  // ----- what the verdict can be moved by -------------------------------------------------------------

  lemma {:induction false} CountWithout(a: seq<Signal>, i: nat, w: Window, kinds: set<SignalType>)
    requires i < |a|
    ensures Count(a, w, kinds) == Count(a[..i] + a[i + 1..], w, kinds) + if Inside(a[i], w) && a[i].kind in kinds then 1 else 0
  {
    hide Inside;
    var init := a[..|a| - 1];
    if i == |init| {
      assert a[..i] + a[i + 1..] == init;
    } else {
      CountWithout(init, i, w, kinds);
      var shorter := a[..i] + a[i + 1..];
      assert shorter[..|shorter| - 1] == init[..i] + init[i + 1..] && shorter[|shorter| - 1] == a[|a| - 1];
      assert init[i] == a[i];
    }
  }

  /** The same signals with one taken out of each list. */
  lemma TakeOneOut(a: seq<Signal>, b: seq<Signal>) returns (i: nat)
    requires multiset(a) == multiset(b) && a != []
    ensures i < |b| && b[i] == a[|a| - 1] && multiset(b[..i] + b[i + 1..]) == multiset(a[..|a| - 1])
  {
    var last, init := a[|a| - 1], a[..|a| - 1];
    assert a == init + [last];
    assert last in multiset(b);
    i :| 0 <= i < |b| && b[i] == last;
    WithoutOne(b, i);
    WithoutOne(a, |a| - 1);
    assert a[..|a| - 1] + a[|a|..] == init;
  }

  lemma WithoutOne(a: seq<Signal>, i: nat)
    requires i < |a|
    ensures multiset(a[..i] + a[i + 1..]) == multiset(a) - multiset{a[i]}
  {
    assert a == a[..i] + ([a[i]] + a[i + 1..]);
  }

  lemma {:induction false} CountOrderFree(a: seq<Signal>, b: seq<Signal>, w: Window, kinds: set<SignalType>)
    requires multiset(a) == multiset(b)
    ensures Count(a, w, kinds) == Count(b, w, kinds)
  {
    hide Inside;
    assert |multiset(a)| == |a| && |multiset(b)| == |b|;
    if a != [] {
      var i := TakeOneOut(a, b);
      CountWithout(b, i, w, kinds);
      CountOrderFree(a[..|a| - 1], b[..i] + b[i + 1..], w, kinds);
    }
  }

  /** The aggregate of a bucket depends on which signals there were, not on their order. */
  lemma AggregateOrderFree(a: seq<Signal>, b: seq<Signal>, k: Key, now: Time, window: Time, p: Params)
    requires multiset(a) == multiset(b)
    ensures AggregateOf(a, k, now, window, p) == AggregateOf(b, k, now, window, p)
  {
    hide Voices, Count;
    var w := Whole(k, now, window);
    VoicesOrderFree(a, b, w);
    VoicesOrderFree(a, b, FirstHalf(k, now, window));
    VoicesOrderFree(a, b, SecondHalf(k, now, window));
    CountOrderFree(a, b, w, ALL);
    CountOrderFree(a, b, w, {Reset});
    CountOrderFree(a, b, w, {ActiveProbe});
  }

  /** A transport is declared dead only with enough distinct sources and enough of them blocked; so
      sources that lie can bring that about only if they, with the honest ones, are enough of both. */
  lemma DeadNeedsSources(signals: seq<Signal>, extra: seq<Signal>, liars: set<string>, k: Key, now: Time, window: Time, p: Params)
    requires SentBy(extra, liars)
    requires AggregateOf(signals + extra, k, now, window, p).dead
    ensures
      var honest := TallyOf(Voices(signals, Whole(k, now, window)));
      && honest.distinct + |liars| >= p.minSources && honest.blocked + |liars| >= p.minBlockedSources
  {
    hide Voices, Count;
    FloodMovesOnePerSource(signals, extra, Whole(k, now, window), liars);
  }

  /** The three gates for dead, and impaired otherwise, in whole numbers of sources. */
  predicate IsDead(t: Tally, p: Params) {
    && t.distinct >= p.minSources && t.blocked >= p.minBlockedSources
    && t.blocked as real >= p.deadShare * t.distinct as real && t.ok as real <= p.maxOkShareForDead * t.distinct as real
  }

  predicate IsDegraded(t: Tally, p: Params) {
    t.distinct >= p.minSources && !IsDead(t, p) && (t.distinct - t.ok) as real >= p.degradedShare * t.distinct as real
  }

  lemma RollupVerdict(total: nat, resets: nat, probes: nat, t: Tally, first: Tally, second: Tally, p: Params)
    requires p.minSources > 0 && t.blocked + t.degraded + t.ok == t.distinct
    ensures Rollup(total, resets, probes, t, first, second, p).dead <==> IsDead(t, p)
    ensures Rollup(total, resets, probes, t, first, second, p).degraded <==> IsDegraded(t, p)
  {
    hide Share;
    if t.distinct >= p.minSources {
      ShareMeans(t.blocked, t.distinct, p.deadShare);
      ShareMeans(t.ok, t.distinct, p.maxOkShareForDead);
      SharesMean(t.blocked, t.degraded, t.distinct, p.degradedShare);
      assert t.blocked + t.degraded == t.distinct - t.ok;
    }
  }

  /** What the verdict of a bucket says about its sources. */
  lemma VerdictMeans(signals: seq<Signal>, k: Key, now: Time, window: Time, p: Params)
    requires p.minSources > 0
    ensures
      var a, t := AggregateOf(signals, k, now, window, p), TallyOf(Voices(signals, Whole(k, now, window)));
      (a.dead <==> IsDead(t, p)) && (a.degraded <==> IsDegraded(t, p))
  {
    hide Voices, Count, TallyOf, Rollup, IsDead, IsDegraded;
    var w := Whole(k, now, window);
    TallyAddsUp(signals, w);
    RollupVerdict(Count(signals, w, ALL), Count(signals, w, {Reset}), Count(signals, w, {ActiveProbe}), TallyOf(Voices(signals, w)),
                  TallyOf(Voices(signals, FirstHalf(k, now, window))), TallyOf(Voices(signals, SecondHalf(k, now, window))), p);
  }

  lemma ShareMeans(part: nat, whole: nat, bound: real)
    requires whole > 0
    ensures Share(part, whole) >= bound <==> part as real >= bound * whole as real
    ensures Share(part, whole) <= bound <==> part as real <= bound * whole as real
  {
    Multiply(Share(part, whole), bound, whole as real);
    Multiply(bound, Share(part, whole), whole as real);
  }

  lemma SharesMean(a: nat, b: nat, whole: nat, bound: real)
    requires whole > 0
    ensures Share(a, whole) + Share(b, whole) >= bound <==> (a + b) as real >= bound * whole as real
  {
    assert Share(a, whole) + Share(b, whole) == Share(a + b, whole);
    ShareMeans(a + b, whole, bound);
  }

  lemma Multiply(a: real, b: real, c: real)
    requires c > 0.0
    ensures a <= b <==> a * c <= b * c
  {
    if a <= b { Product(b - a, c); } else { Product(a - b, c); }
  }

  lemma Product(d: real, c: real)
    requires c > 0.0 && d >= 0.0
    ensures d * c >= 0.0 && (d > 0.0 ==> d * c > 0.0)
  {
  }

  /** While enough real users succeed, no number of fake reports from the given sources kills a
      working transport. */
  lemma LiveTrafficProtects(signals: seq<Signal>, extra: seq<Signal>, liars: set<string>, k: Key, now: Time, window: Time, p: Params)
    requires SentBy(extra, liars) && p.minSources > 0 && p.maxOkShareForDead >= 0.0
    requires
      var honest := TallyOf(Voices(signals, Whole(k, now, window)));
      (honest.ok - |liars|) as real > p.maxOkShareForDead * (honest.distinct + |liars|) as real
    ensures !AggregateOf(signals + extra, k, now, window, p).dead
  {
    hide Voices, TallyOf, AggregateOf;
    var w := Whole(k, now, window);
    var honest, all := TallyOf(Voices(signals, w)), TallyOf(Voices(signals + extra, w));
    FloodMovesOnePerSource(signals, extra, w, liars);
    VerdictMeans(signals + extra, k, now, window, p);
    Protected(honest, all, |liars|, p);
  }

  lemma Protected(honest: Tally, all: Tally, n: nat, p: Params)
    requires p.maxOkShareForDead >= 0.0 && (honest.ok - n) as real > p.maxOkShareForDead * (honest.distinct + n) as real
    requires honest.ok <= all.ok + n && all.distinct <= honest.distinct + n
    ensures !IsDead(all, p)
  {
    hide IsDead;
    var share := p.maxOkShareForDead;
    var fewer, more := all.distinct as real, (honest.distinct + n) as real;
    assert fewer <= more;
    Grow(share, fewer, more);
    assert all.ok as real >= (honest.ok - n) as real;
    assert all.ok as real > share * more >= share * fewer;
    EnoughSuccesses(all, p);
  }

  lemma EnoughSuccesses(t: Tally, p: Params)
    requires t.ok as real > p.maxOkShareForDead * t.distinct as real
    ensures !IsDead(t, p)
  {
  }

  lemma Grow(a: real, b: real, c: real)
    requires a >= 0.0 && b <= c
    ensures a * b <= a * c
  {
    assert a * c - a * b == a * (c - b);
    NotNegative(a, c - b);
  }

  lemma NotNegative(a: real, b: real)
    requires a >= 0.0 && b >= 0.0
    ensures a * b >= 0.0
  {
  }

  // ----- the rollup as it runs ------------------------------------------------------------------------

  datatype Group = Group(
    total: nat, resets: nat, probes: nat,
    sources: map<string, int>, firstHalf: map<string, int>, secondHalf: map<string, int>)

  const EMPTY: Group := Group(0, 0, 0, map[], map[], map[])

  function GroupOf(signals: seq<Signal>, k: Key, now: Time, window: Time): Group {
    var w := Whole(k, now, window);
    Group(Count(signals, w, ALL), Count(signals, w, {Reset}), Count(signals, w, {ActiveProbe}),
          Voices(signals, w), Voices(signals, FirstHalf(k, now, window)), Voices(signals, SecondHalf(k, now, window)))
  }

  function Absorb(g: Group, s: Signal, mid: Time): Group {
    var source, outcome := SourceKey(s), Classify(s);
    Group(
      g.total + 1, g.resets + (if s.kind == Reset then 1 else 0), g.probes + (if s.kind == ActiveProbe then 1 else 0),
      Observe(g.sources, source, outcome),
      if s.observedAt < mid then Observe(g.firstHalf, source, outcome) else g.firstHalf,
      if s.observedAt < mid then g.secondHalf else Observe(g.secondHalf, source, outcome))
  }

  predicate InWindow(s: Signal, now: Time, window: Time) {
    now - window <= s.observedAt <= now
  }

  lemma GroupNext(signals: seq<Signal>, n: nat, k: Key, now: Time, window: Time)
    requires n < |signals| && window >= 0
    ensures GroupOf(signals[..n + 1], k, now, window) ==
      if InWindow(signals[n], now, window) && Key(signals[n].region, signals[n].transport) == k
      then Absorb(GroupOf(signals[..n], k, now, window), signals[n], now - window / 2)
      else GroupOf(signals[..n], k, now, window)
  {
    hide SourceKey, Classify, Observe;
    assert signals[..n + 1][..n] == signals[..n];
    KindIsKnown(signals[n]);
  }

  lemma KindIsKnown(s: Signal)
    ensures s.kind in ALL
  {
    match s.kind
    case OK =>
    case Throttle =>
    case Reset =>
    case Timeout =>
    case DpiBlock =>
    case ActiveProbe =>
    case HandshakeFail =>
    case DnsPoison =>
    case OtherType =>
  }

  predicate Heard(signals: seq<Signal>, k: Key, now: Time, window: Time) {
    exists i :: 0 <= i < |signals| && InWindow(signals[i], now, window) && Key(signals[i].region, signals[i].transport) == k
  }

  lemma {:induction false} SilentIsEmpty(signals: seq<Signal>, k: Key, now: Time, window: Time)
    requires window >= 0 && !Heard(signals, k, now, window)
    ensures GroupOf(signals, k, now, window) == EMPTY
  {
    if signals != [] {
      var n := |signals| - 1;
      assert signals[..n + 1] == signals;
      assert forall i :: 0 <= i < n ==> signals[..n][i] == signals[i];
      SilentIsEmpty(signals[..n], k, now, window);
      GroupNext(signals, n, k, now, window);
    }
  }

  /** A bucket for every region and transport that was heard in the window, and no other. */
  method Compute(signals: seq<Signal>, now: Time, window: Time, p: Params) returns (out: map<Key, Aggregate>)
    requires window >= 0
    ensures forall k :: k in out <==> Heard(signals, k, now, window)
    ensures forall k :: k in out ==> out[k] == AggregateOf(signals, k, now, window, p)
  {
    var groups := Gather(signals, now, window);
    out := map[];
    var rest := groups.Keys;
    while rest != {}
      invariant rest <= groups.Keys && out.Keys == groups.Keys - rest
      invariant forall k :: k in out ==> out[k] == AggregateOf(signals, k, now, window, p)
      decreases rest
    {
      var k :| k in rest;
      var g := groups[k];
      var all := TallyVoices(g.sources);
      var first := TallyVoices(g.firstHalf);
      var second := TallyVoices(g.secondHalf);
      out := out[k := Rollup(g.total, g.resets, g.probes, all, first, second, p)];
      rest := rest - {k};
    }
  }

  method Gather(signals: seq<Signal>, now: Time, window: Time) returns (groups: map<Key, Group>)
    requires window >= 0
    ensures forall k :: k in groups <==> Heard(signals, k, now, window)
    ensures forall k :: k in groups ==> groups[k] == GroupOf(signals, k, now, window)
  {
    hide GroupOf, Absorb;
    groups := map[];
    for n := 0 to |signals|
      invariant forall k :: k in groups <==> Heard(signals[..n], k, now, window)
      invariant forall k :: k in groups ==> groups[k] == GroupOf(signals[..n], k, now, window)
    {
      var s := signals[n];
      forall k ensures Heard(signals[..n + 1], k, now, window) <==>
        Heard(signals[..n], k, now, window) || (InWindow(s, now, window) && Key(s.region, s.transport) == k)
      {
        HeardNext(signals, n, k, now, window);
      }
      forall k ensures GroupOf(signals[..n + 1], k, now, window) ==
        if InWindow(s, now, window) && Key(s.region, s.transport) == k
        then Absorb(GroupOf(signals[..n], k, now, window), s, now - window / 2)
        else GroupOf(signals[..n], k, now, window)
      {
        GroupNext(signals, n, k, now, window);
      }
      if InWindow(s, now, window) {
        var k := Key(s.region, s.transport);
        if k !in groups { SilentIsEmpty(signals[..n], k, now, window); }
        groups := groups[k := Absorb(if k in groups then groups[k] else EMPTY, s, now - window / 2)];
      }
    }
    assert signals[..|signals|] == signals;
  }

  lemma HeardNext(signals: seq<Signal>, n: nat, k: Key, now: Time, window: Time)
    requires n < |signals|
    ensures Heard(signals[..n + 1], k, now, window) <==>
      Heard(signals[..n], k, now, window) || (InWindow(signals[n], now, window) && Key(signals[n].region, signals[n].transport) == k)
  {
    hide InWindow;
    var shorter, longer := signals[..n], signals[..n + 1];
    assert longer[n] == signals[n];
    if Heard(longer, k, now, window) {
      var i :| 0 <= i < |longer| && InWindow(longer[i], now, window) && Key(longer[i].region, longer[i].transport) == k;
      if i < n { assert shorter[i] == longer[i]; }
    }
    if Heard(shorter, k, now, window) {
      var i :| 0 <= i < |shorter| && InWindow(shorter[i], now, window) && Key(shorter[i].region, shorter[i].transport) == k;
      assert longer[i] == shorter[i];
    }
  }
}
