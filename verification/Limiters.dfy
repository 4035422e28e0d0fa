/** The limiters as the services keep them. Each object carries, as history only, the charges it
    has made per key; being valid means every such history is honest, so `WindowBound` speaks
    about every run of every limiter. */
module Limiters {
  import opened Prelude
  import opened TokenBucket

  function Entry<K(==)>(buckets: map<K, Bucket>, k: K): Option<Bucket> {
    if k in buckets then Some(buckets[k]) else None
  }

  function Log<K(==)>(history: map<K, seq<Charge>>, k: K): seq<Charge> {
    if k in history then history[k] else []
  }

  /** A bucket stands for the charges made so far. */
  ghost predicate Stands(p: Policy, b: Option<Bucket>, log: seq<Charge>, now: Time) {
    && Honest(p, log) && (log != [] ==> log[|log| - 1].at <= now) && Alike(p, b, After(p, log), now)
  }

  ghost predicate Sound<K(!new)>(p: Policy, buckets: map<K, Bucket>, now: Time) {
    forall k :: k in buckets ==> BucketOk(p, Some(buckets[k]), now)
  }

  /** Every bucket is true to its history, except for the keys forgotten while short of a full one. */
  ghost predicate Books<K(!new)>(p: Policy, buckets: map<K, Bucket>, history: map<K, seq<Charge>>, lossy: set<K>, now: Time) {
    forall k :: k !in lossy ==> Stands(p, Entry(buckets, k), Log(history, k), now)
  }

  /** The bucket refilled up to `now`. */
  function Refilled(p: Policy, b: Option<Bucket>, now: Time): Bucket {
    Bucket(Level(p, b, now), now)
  }

  lemma RefilledStands(p: Policy, b: Option<Bucket>, log: seq<Charge>, clock: Time, now: Time)
    requires PolicyOk(p) && Stands(p, b, log, clock) && clock <= now
    ensures Stands(p, Some(Refilled(p, b, now)), log, now) && Stands(p, b, log, now)
  {
    forall t | t >= now ensures Level(p, Some(Refilled(p, b, now)), t) == Level(p, b, t) {
      RefillTwice(p, b, now, t);
    }
  }

  lemma RefillTwice(p: Policy, b: Option<Bucket>, now: Time, t: Time)
    requires PolicyOk(p) && now <= t
    ensures Level(p, Some(Refilled(p, b, now)), t) == Level(p, b, t)
  {
    hide Gain;
    GainPositive(p, t - now);
    if b.Some? { GainAdds(p, now - b.value.at, t - now); }
  }

  lemma ChargeStands(p: Policy, b: Option<Bucket>, log: seq<Charge>, clock: Time, c: Charge)
    requires PolicyOk(p) && Stands(p, b, log, clock) && clock <= c.at && 0.0 <= c.amount <= Level(p, b, c.at)
    ensures Stands(p, Some(Charged(p, b, c)), log + [c], c.at)
  {
    hide Level, Honest;
    ChargeAlike(p, b, After(p, log), clock, c);
    AppendHonest(p, log, c);
  }

  lemma BooksLater<K(!new)>(p: Policy, buckets: map<K, Bucket>, history: map<K, seq<Charge>>, lossy: set<K>, clock: Time, now: Time)
    requires Books(p, buckets, history, lossy, clock) && clock <= now
    ensures Books(p, buckets, history, lossy, now)
  {
    hide Level, Honest;
    forall k | k !in lossy ensures Stands(p, Entry(buckets, k), Log(history, k), now) {
      assert Stands(p, Entry(buckets, k), Log(history, k), clock);
    }
  }

  /** One key changes. */
  lemma BooksWrite<K(!new)>(p: Policy, buckets: map<K, Bucket>, history: map<K, seq<Charge>>, lossy: set<K>, k: K, b: Bucket,
                            log: seq<Charge>, now: Time)
    requires Books(p, buckets, history, lossy, now) && (k !in lossy ==> Stands(p, Some(b), log, now))
    ensures Books(p, buckets[k := b], history[k := log], lossy, now)
  {
    hide Stands;
    var buckets', history' := buckets[k := b], history[k := log];
    forall x | x !in lossy ensures Stands(p, Entry(buckets', x), Log(history', x), now) {
      if x != k { assert Stands(p, Entry(buckets, x), Log(history, x), now); }
    }
  }

  lemma BooksCharge<K(!new)>(p: Policy, buckets: map<K, Bucket>, history: map<K, seq<Charge>>, lossy: set<K>, k: K, now: Time, c: Charge)
    requires PolicyOk(p) && Books(p, buckets, history, lossy, now)
    requires c.at == now && 0.0 <= c.amount <= Level(p, Entry(buckets, k), now)
    ensures Books(p, buckets[k := Charged(p, Entry(buckets, k), c)], history[k := Log(history, k) + [c]], lossy, now)
  {
    hide Level, Stands;
    if k !in lossy {
      assert Stands(p, Entry(buckets, k), Log(history, k), now);
      ChargeStands(p, Entry(buckets, k), Log(history, k), now, c);
    }
    BooksWrite(p, buckets, history, lossy, k, Charged(p, Entry(buckets, k), c), Log(history, k) + [c], now);
  }

  /** The refill arithmetic of a limiter computes the level. */
  lemma LevelIsRefill<K(!new)>(p: Policy, buckets: map<K, Bucket>, k: K, now: Time)
    requires PolicyOk(p) && Sound(p, buckets, now)
    ensures
      var b := if k in buckets then buckets[k] else Bucket(p.burst, now);
      var tokens := b.tokens + Gain(p, now - b.at);
      && Level(p, Entry(buckets, k), now) == (if tokens > p.burst then p.burst else tokens)
      && 0.0 <= Level(p, Entry(buckets, k), now) <= p.burst
  {
    hide Gain;
    GainPositive(p, 0);
    LevelNotNegative(p, Entry(buckets, k), now);
  }

  /** What is left after forgetting the buckets idle for longer than `idle`. */
  function Awake<K>(buckets: map<K, Bucket>, idle: Time, now: Time): map<K, Bucket> {
    map k | k in buckets && now - buckets[k].at <= idle :: buckets[k]
  }

  predicate Lossless(p: Policy, idle: Time) {
    p.burst <= Gain(p, idle + 1)
  }

  /** What forgetting the idle buckets loses: those that are not full again. */
  function Short<K>(p: Policy, buckets: map<K, Bucket>, idle: Time, now: Time): set<K> {
    set k | k in buckets && now - buckets[k].at > idle && Level(p, Some(buckets[k]), now) < p.burst
  }

  /** Forgetting keeps every bucket true to its history but those that were idle and short, and there
      are none of these if the burst fits into the rate over the idle time. */
  lemma EvictKeepsBooks<K(!new)>(p: Policy, buckets: map<K, Bucket>, history: map<K, seq<Charge>>, lossy: set<K>, idle: Time, now: Time)
    requires PolicyOk(p) && idle >= 0 && Sound(p, buckets, now) && Books(p, buckets, history, lossy, now)
    ensures Books(p, Awake(buckets, idle, now), history, lossy + Short(p, buckets, idle, now), now)
    ensures Lossless(p, idle) ==> Short(p, buckets, idle, now) == {}
  {
    hide Level, Honest, Gain;
    forall k | k !in lossy + Short(p, buckets, idle, now)
      ensures Stands(p, Entry(Awake(buckets, idle, now), k), Log(history, k), now)
    {
      assert Stands(p, Entry(buckets, k), Log(history, k), now);
      if k in buckets && now - buckets[k].at > idle { FullStaysFull(p, buckets[k], now); }
    }
    if Lossless(p, idle) {
      forall k | k in buckets && now - buckets[k].at > idle ensures Level(p, Some(buckets[k]), now) >= p.burst {
        ForgottenIsFull(p, buckets[k], idle, now);
      }
    }
  }

  lemma FullStaysFull(p: Policy, b: Bucket, now: Time)
    requires PolicyOk(p) && Level(p, Some(b), now) >= p.burst
    ensures Alike(p, None, Some(b), now)
  {
    hide Gain;
    forall t | t >= now ensures Level(p, None, t) == Level(p, Some(b), t) {
      LevelGrows(p, Some(b), now, t);
    }
  }

  lemma ForgottenIsFull(p: Policy, b: Bucket, idle: Time, now: Time)
    requires PolicyOk(p) && idle >= 0 && Lossless(p, idle) && BucketOk(p, Some(b), now) && now - b.at > idle
    ensures Level(p, Some(b), now) == p.burst
  {
    hide Gain;
    EvictionIsInvisible(p, idle);
    assert Level(p, None, now) == p.burst;
  }

  method Forget<K(==)>(buckets: map<K, Bucket>, idle: Time, now: Time) returns (left: map<K, Bucket>)
    ensures left == Awake(buckets, idle, now)
  {
    left := buckets;
    var rest := buckets.Keys;
    while rest != {}
      invariant rest <= buckets.Keys && left.Keys <= buckets.Keys
      invariant forall k :: k in rest ==> k in left
      invariant forall k :: k in left ==> left[k] == buckets[k]
      invariant forall k :: k in buckets && k !in rest ==> (k in left <==> now - buckets[k].at <= idle)
      decreases rest
    {
      var k :| k in rest;
      if now - left[k].at > idle { left := left - {k}; }
      rest := rest - {k};
    }
  }

  // ----- the bounded per-peer limiter ---------------------------------------------------------------

  const PEER_IDLE: Time := 120_000_000_000

  class PeerLimiter {
    const p: Policy
    const maxPeers: nat
    var peers: map<string, Bucket>
    ghost var clock: Time
    ghost var history: map<string, seq<Charge>>
    ghost var lossy: set<string>

    ghost predicate Valid()
      reads this
    {
      && p.rate >= 1.0 && p.burst >= 1.0 && maxPeers >= 1 && |peers| <= maxPeers && Sound(p, peers, clock)
      && Books(p, peers, history, lossy, clock) && (Lossless(p, PEER_IDLE) ==> lossy == {})
    }

    constructor (rate: int, burst: int, maxPeers: int, now: Time)
      ensures Valid() && peers == map[] && history == map[] && lossy == {} && clock == now
      ensures p == Policy(if rate < 1 then 1.0 else rate as real, if burst < 1 then 1.0 else burst as real)
      ensures this.maxPeers == if maxPeers < 1 then 1 else maxPeers
    {
      p := Policy(if rate < 1 then 1.0 else rate as real, if burst < 1 then 1.0 else burst as real);
      this.maxPeers := if maxPeers < 1 then 1 else maxPeers;
      peers, clock, history, lossy := map[], now, map[], {};
    }

    /** No room for a new peer even after forgetting the idle ones. */
    predicate Saturated(peer: string, now: Time)
      reads this
    {
      peer !in peers && |Awake(peers, PEER_IDLE, now)| >= maxPeers
    }

    /** A new peer makes a full map forget its idle ones. */
    predicate Evicts(peer: string)
      reads this
    {
      peer !in peers && |peers| >= maxPeers
    }

    /** Admits exactly when a token is left, unless the map is full of other, recent peers. Every
        history stays honest but those of peers forgotten before their bucket was full again. */
    method Allow(peer: string, now: Time) returns (allowed: bool)
      requires Valid() && clock <= now
      modifies this
      ensures Valid() && clock == now
      ensures allowed <==> !old(Saturated(peer, now)) && Level(p, old(Entry(peers, peer)), now) >= 1.0
      ensures history == if old(Saturated(peer, now)) then old(history)
                         else old(history)[peer := Log(old(history), peer) + [Charge(now, if allowed then 1.0 else 0.0)]]
      ensures lossy == old(lossy) + if old(Evicts(peer)) then Short(p, old(peers), PEER_IDLE, now) else {}
    {
      hide Level, Gain, Stands;
      Later(now);
      var room := MakeRoom(peer, now);
      if !room { return false; }
      var b := if peer in peers then peers[peer] else Bucket(p.burst, now);
      var tokens := b.tokens + Gain(p, now - b.at);
      if tokens > p.burst { tokens := p.burst; }
      LevelIsRefill(p, peers, peer, now);
      allowed := tokens >= 1.0;
      if allowed { tokens := tokens - 1.0; }
      ghost var c := Charge(now, if allowed then 1.0 else 0.0);
      BooksCharge(p, peers, history, lossy, peer, now, c);
      peers := peers[peer := Bucket(tokens, now)];
      history := history[peer := Log(history, peer) + [c]];
    }

    /** A known peer has its place; a new one may need the idle ones to be forgotten. */
    method MakeRoom(peer: string, now: Time) returns (room: bool)
      requires Valid() && clock == now
      modifies this`peers, this`lossy
      ensures Valid() && room == !old(Saturated(peer, now)) && Entry(peers, peer) == old(Entry(peers, peer))
      ensures room ==> peer in peers || |peers| < maxPeers
      ensures lossy == old(lossy) + if old(Evicts(peer)) then Short(p, old(peers), PEER_IDLE, now) else {}
    {
      hide Level, Gain, Stands, Books, Short;
      assert lossy + {} == lossy;
      if peer in peers { return true; }
      AwakeIsFewer(peers, PEER_IDLE, now);
      if |peers| >= maxPeers {
        EvictKeepsBooks(p, peers, history, lossy, PEER_IDLE, now);
        lossy := lossy + Short(p, peers, PEER_IDLE, now);
        peers := Forget(peers, PEER_IDLE, now);
      }
      return |peers| < maxPeers;
    }

    ghost method Later(now: Time)
      requires Valid() && clock <= now
      modifies this`clock
      ensures Valid() && clock == now
    {
      hide Level, Gain, Stands;
      BooksLater(p, peers, history, lossy, clock, now);
      clock := now;
    }
  }

  lemma {:induction false} AwakeIsFewer<K>(buckets: map<K, Bucket>, idle: Time, now: Time)
    ensures |Awake(buckets, idle, now)| <= |buckets|
  {
    SubsetSize(Awake(buckets, idle, now).Keys, buckets.Keys);
  }

  // ----- the per-source limiter under a global ceiling ------------------------------------------------

  const SOURCE_IDLE: Time := 600_000_000_000

  class SourceLimiter {
    const source: Policy
    const ceiling: Policy
    var buckets: map<string, Bucket>
    var global: Bucket
    ghost var clock: Time
    ghost var history: map<string, seq<Charge>>
    ghost var lossy: set<string>
    ghost var intake: seq<Charge>

    ghost predicate Valid()
      reads this
    {
      && PolicyOk(source) && PolicyOk(ceiling) && Sound(source, buckets, clock) && BucketOk(ceiling, Some(global), clock)
      && Stands(ceiling, Some(global), intake, clock)
      && Books(source, buckets, history, lossy, clock) && (Lossless(source, SOURCE_IDLE) ==> lossy == {})
    }

    constructor (source: Policy, ceiling: Policy, now: Time)
      requires PolicyOk(source) && PolicyOk(ceiling)
      ensures Valid() && this.source == source && this.ceiling == ceiling && history == map[] && intake == [] && clock == now
      ensures lossy == {}
    {
      this.source, this.ceiling := source, ceiling;
      buckets, global := map[], Bucket(ceiling.burst, now);
      clock, history, lossy, intake := now, map[], {}, [];
      new;
      FullStands(this.ceiling, now);
    }

    /** Charges a batch to its source and to the ceiling, or to neither. The ceiling's history stays
        honest, and so does every source's but those forgotten before their bucket was full again. */
    method Allow(token: string, cost: real, now: Time) returns (ok: bool)
      requires Valid() && clock <= now && cost >= 0.0
      modifies this
      ensures Valid() && clock == now
      ensures ok <==> cost <= Level(ceiling, Some(old(global)), now) && cost <= Level(source, old(Entry(buckets, token)), now)
      ensures intake == old(intake) + if ok then [Charge(now, cost)] else []
      ensures history == if ok then old(history)[token := Log(old(history), token) + [Charge(now, cost)]] else old(history)
      ensures old(lossy) <= lossy && forall k :: k in lossy && k !in old(lossy) ==> ok && k in Short(source, old(buckets), SOURCE_IDLE, now)
    {
      hide Level, Gain, Stands;
      Later(now);
      RefillGlobal(now);
      assert old(intake) + [] == old(intake);
      if global.tokens < cost { return false; }
      RefillSource(token, now);
      if buckets[token].tokens < cost { return false; }
      Spend(token, cost, now);
      EvictKeepsBooks(source, buckets, history, lossy, SOURCE_IDLE, now);
      lossy := lossy + Short(source, buckets, SOURCE_IDLE, now);
      buckets := Forget(buckets, SOURCE_IDLE, now);
      return true;
    }

    /** Both buckets are up to date and can afford the cost. */
    method Spend(token: string, cost: real, now: Time)
      requires Valid() && clock == now && token in buckets && buckets[token].at == now && global.at == now
      requires 0.0 <= cost <= buckets[token].tokens && cost <= global.tokens
      modifies this
      ensures Valid() && clock == old(clock) && lossy == old(lossy)
      ensures buckets == old(buckets)[token := Bucket(old(buckets)[token].tokens - cost, now)]
      ensures intake == old(intake) + [Charge(now, cost)]
      ensures history == old(history)[token := Log(old(history), token) + [Charge(now, cost)]]
    {
      hide Level, Gain, Stands, Books;
      ghost var c := Charge(now, cost);
      ChargeIsSubtraction(source, buckets[token], c);
      ChargeIsSubtraction(ceiling, global, c);
      ChargeStands(ceiling, Some(global), intake, now, c);
      BooksCharge(source, buckets, history, lossy, token, now, c);
      buckets := buckets[token := Bucket(buckets[token].tokens - cost, now)];
      global := Bucket(global.tokens - cost, global.at);
      history, intake := history[token := Log(history, token) + [c]], intake + [c];
    }

    ghost method Later(now: Time)
      requires Valid() && clock <= now
      modifies this`clock
      ensures Valid() && clock == now
    {
      hide Level, Gain, Stands;
      BooksLater(source, buckets, history, lossy, clock, now);
      RefilledStands(ceiling, Some(global), intake, clock, now);
      clock := now;
    }

    method RefillGlobal(now: Time)
      requires Valid() && clock == now
      modifies this`global
      ensures Valid() && global == Refilled(ceiling, Some(old(global)), now)
    {
      hide Level, Gain, Stands;
      RefilledStands(ceiling, Some(global), intake, clock, now);
      LevelNotNegative(ceiling, Some(global), now);
      global := Refill(global, ceiling, now);
    }

    /** A source never seen starts full; either way its bucket is brought up to now. */
    method RefillSource(token: string, now: Time)
      requires Valid() && clock == now
      modifies this`buckets
      ensures Valid() && buckets == old(buckets)[token := Refilled(source, old(Entry(buckets, token)), now)]
    {
      hide Level, Gain, Stands;
      var before := Entry(buckets, token);
      LevelNotNegative(source, before, now);
      if token !in lossy {
        assert Stands(source, before, Log(history, token), now);
        RefilledStands(source, before, Log(history, token), now, now);
      }
      BooksWriteSame(source, buckets, history, lossy, token, Refilled(source, before, now), now);
      var b := if token in buckets then buckets[token] else Bucket(source.burst, now);
      FullLevel(source, now);
      b := Refill(b, source, now);
      buckets := buckets[token := b];
    }
  }

  /** Adds what the elapsed time gives, never beyond the maximum. */
  method Refill(b: Bucket, p: Policy, now: Time) returns (refilled: Bucket)
    requires PolicyOk(p) && BucketOk(p, Some(b), now)
    ensures refilled == Refilled(p, Some(b), now)
  {
    GainPositive(p, 0);
    refilled := b;
    if now - b.at > 0 {
      var tokens := b.tokens + Gain(p, now - b.at);
      if tokens > p.burst { tokens := p.burst; }
      refilled := Bucket(tokens, now);
    }
  }

  lemma FullStands(p: Policy, now: Time)
    requires PolicyOk(p)
    ensures Stands(p, Some(Bucket(p.burst, now)), [], now)
  {
    hide Gain;
    forall t | t >= now ensures Level(p, Some(Bucket(p.burst, now)), t) == Level(p, None, t) { GainPositive(p, t - now); }
  }

  lemma FullLevel(p: Policy, now: Time)
    requires PolicyOk(p)
    ensures Refilled(p, Some(Bucket(p.burst, now)), now) == Refilled(p, None, now)
  {
    hide Gain;
    GainPositive(p, 0);
  }

  lemma ChargeIsSubtraction(p: Policy, b: Bucket, c: Charge)
    requires PolicyOk(p) && b.at == c.at && b.tokens <= p.burst
    ensures Level(p, Some(b), c.at) == b.tokens && Charged(p, Some(b), c) == Bucket(b.tokens - c.amount, c.at)
  {
    hide Gain;
    GainPositive(p, 0);
  }

  lemma BooksWriteSame<K(!new)>(p: Policy, buckets: map<K, Bucket>, history: map<K, seq<Charge>>, lossy: set<K>, k: K, b: Bucket, now: Time)
    requires Books(p, buckets, history, lossy, now) && (k !in lossy ==> Stands(p, Some(b), Log(history, k), now))
    ensures Books(p, buckets[k := b], history, lossy, now)
  {
    hide Stands;
    var buckets' := buckets[k := b];
    forall x | x !in lossy ensures Stands(p, Entry(buckets', x), Log(history, x), now) {
      if x != k { assert Stands(p, Entry(buckets, x), Log(history, x), now); }
    }
  }

  // ----- the striped limiter ----------------------------------------------------------------------

  const STRIPES: nat := 256

  class StripedLimiter {
    const p: Policy
    const hash: string -> nat
    const buckets: array<Bucket>
    ghost var clock: Time
    ghost var history: seq<seq<Charge>>

    ghost predicate Valid()
      reads this, buckets
    {
      && PolicyOk(p) && buckets.Length == STRIPES == |history|
      && forall i :: 0 <= i < STRIPES ==> BucketOk(p, Some(buckets[i]), clock) && Stands(p, Some(buckets[i]), history[i], clock)
    }

    constructor (p: Policy, hash: string -> nat, now: Time)
      requires PolicyOk(p)
      ensures Valid() && fresh(buckets) && this.p == p && this.hash == hash && clock == now
      ensures forall i :: 0 <= i < STRIPES ==> history[i] == []
    {
      this.p, this.hash := p, hash;
      buckets := new Bucket[STRIPES](_ => Bucket(p.burst, now));
      clock, history := now, seq(STRIPES, _ => []);
      new;
      FullStands(p, now);
    }

    function StripeOf(key: string): (i: nat)
      ensures i < STRIPES
    {
      hash(key) % STRIPES
    }

    /** One token from the stripe of the key; keys that share a stripe share its bucket. */
    method Allow(key: string, now: Time) returns (ok: bool)
      requires Valid() && clock <= now
      modifies this, buckets
      ensures Valid() && clock == now
      ensures ok <==> Level(p, Some(old(buckets[StripeOf(key)])), now) >= 1.0
      ensures history == old(history)[StripeOf(key) := old(history)[StripeOf(key)] + [Charge(now, if ok then 1.0 else 0.0)]]
    {
      hide Level, Gain, Stands;
      var i := StripeOf(key);
      ghost var before, log, was := buckets[i], history[i], clock;
      LaterStripes(now);
      var b := Refill(buckets[i], p, now);
      LevelNotNegative(p, Some(before), now);
      ok := b.tokens >= 1.0;
      if ok { b := Bucket(b.tokens - 1.0, b.at); }
      ghost var c := Charge(now, if ok then 1.0 else 0.0);
      ChargeStands(p, Some(before), log, now, c);
      buckets[i] := b;
      history := history[i := log + [c]];
    }

    ghost method LaterStripes(now: Time)
      requires Valid() && clock <= now
      modifies this`clock
      ensures Valid() && clock == now
    {
      hide Level, Gain, Stands;
      forall i | 0 <= i < STRIPES ensures Stands(p, Some(buckets[i]), history[i], now) {
        RefilledStands(p, Some(buckets[i]), history[i], clock, now);
      }
      clock := now;
    }
  }

  // ----- what the limiters guarantee ----------------------------------------------------------------

  /** What stands behind a bucket is bounded in every window. */
  lemma StandsBounded(p: Policy, b: Option<Bucket>, log: seq<Charge>, now: Time, i: nat, j: nat)
    requires PolicyOk(p) && Stands(p, b, log, now) && i < j <= |log|
    ensures Total(log[i..j]) <= p.burst + Gain(p, log[j - 1].at - log[i].at)
  {
    hide Level, Gain, Honest;
    WindowBound(p, log, i, j);
  }
}
