/** The three token-bucket limiters: per peer with a bounded map, per source under a global
    ceiling, and one bucket per stripe. Token counts are reals, instants are nanoseconds. */
module TokenBucket {
  import opened Prelude

  const SECOND: real := 1_000_000_000.0

  function Seconds(d: Time): real {
    d as real / SECOND
  }

  datatype Policy = Policy(rate: real, burst: real)

  predicate PolicyOk(p: Policy) {
    p.rate >= 0.0 && p.burst >= 0.0
  }

  datatype Bucket = Bucket(tokens: real, at: Time)

  /** What the rate gives over a stretch of time. */
  function Gain(p: Policy, d: Time): real {
    Seconds(d) * p.rate
  }

  /** What a key may spend at `t`. A key never seen has a full bucket. */
  function Level(p: Policy, b: Option<Bucket>, t: Time): real {
    match b
    case None => p.burst
    case Some(Bucket(tokens, at)) => var grown := tokens + Gain(p, t - at); if grown > p.burst then p.burst else grown
  }

  predicate BucketOk(p: Policy, b: Option<Bucket>, now: Time) {
    b.Some? ==> 0.0 <= b.value.tokens <= p.burst && b.value.at <= now
  }

  /** An admitted cost, or zero for a refusal. */
  datatype Charge = Charge(at: Time, amount: real)

  function Charged(p: Policy, b: Option<Bucket>, c: Charge): Bucket {
    Bucket(Level(p, b, c.at) - c.amount, c.at)
  }

  /** The bucket a history of charges leaves. */
  function After(p: Policy, history: seq<Charge>): Option<Bucket> {
    if history == [] then None
    else Some(Charged(p, After(p, history[..|history| - 1]), history[|history| - 1]))
  }

  /** Every charge was affordable when it was made, on a clock that never went back. */
  ghost predicate Honest(p: Policy, history: seq<Charge>) {
    forall k :: 0 <= k < |history| ==>
      && 0.0 <= history[k].amount <= Level(p, After(p, history[..k]), history[k].at)
      && (k > 0 ==> history[k - 1].at <= history[k].at)
  }

  function Total(charges: seq<Charge>): real {
    if charges == [] then 0.0 else Total(charges[..|charges| - 1]) + charges[|charges| - 1].amount
  }

  lemma TimesPositive(a: real, b: real)
    requires a >= 0.0 && b >= 0.0
    ensures a * b >= 0.0
  {
  }

  lemma GainPositive(p: Policy, d: Time)
    requires PolicyOk(p) && d >= 0
    ensures Gain(p, d) >= 0.0 && Gain(p, 0) == 0.0
  {
    TimesPositive(Seconds(d), p.rate);
  }

  lemma GainAdds(p: Policy, a: Time, b: Time)
    ensures Gain(p, a) + Gain(p, b) == Gain(p, a + b)
  {
    assert Seconds(a) + Seconds(b) == Seconds(a + b);
    Distribute(Seconds(a), Seconds(b), p.rate);
  }

  lemma Distribute(a: real, b: real, c: real)
    ensures a * c + b * c == (a + b) * c
  {
  }

  /** A longer wait never leaves less, and never more than the rate allows. */
  lemma LevelGrows(p: Policy, b: Option<Bucket>, s: Time, t: Time)
    requires PolicyOk(p) && s <= t
    ensures Level(p, b, t) <= Level(p, b, s) + Gain(p, t - s)
    ensures Level(p, b, s) <= Level(p, b, t) <= p.burst
  {
    hide Gain;
    GainPositive(p, t - s);
    if b.Some? { GainAdds(p, s - b.value.at, t - s); }
  }

  lemma LevelNotNegative(p: Policy, b: Option<Bucket>, t: Time)
    requires PolicyOk(p) && BucketOk(p, b, t)
    ensures 0.0 <= Level(p, b, t) <= p.burst
  {
    hide Gain;
    if b.Some? { GainPositive(p, t - b.value.at); }
  }

  lemma {:induction false} HonestBucket(p: Policy, history: seq<Charge>)
    requires PolicyOk(p) && Honest(p, history)
    ensures history != [] ==>
      After(p, history).Some? && 0.0 <= After(p, history).value.tokens <= p.burst
      && After(p, history).value.at == history[|history| - 1].at
  {
    if history != [] {
      var init, last := history[..|history| - 1], history[|history| - 1];
      HonestPrefix(p, history, |history| - 1);
      HonestBucket(p, init);
      LevelNotNegative(p, After(p, init), last.at);
    }
  }

  lemma HonestPrefix(p: Policy, history: seq<Charge>, n: nat)
    requires Honest(p, history) && n <= |history|
    ensures Honest(p, history[..n])
  {
    forall k | 0 <= k < n
      ensures
        && 0.0 <= history[..n][k].amount <= Level(p, After(p, history[..n][..k]), history[..n][k].at)
        && (k > 0 ==> history[..n][k - 1].at <= history[..n][k].at)
    {
      assert history[..n][..k] == history[..k];
    }
  }

  lemma HonestLast(p: Policy, history: seq<Charge>)
    requires Honest(p, history) && history != []
    ensures
      var init, last := history[..|history| - 1], history[|history| - 1];
      && Honest(p, init) && 0.0 <= last.amount <= Level(p, After(p, init), last.at)
      && After(p, history) == Some(Charged(p, After(p, init), last))
      && (init != [] ==> init[|init| - 1].at <= last.at)
  {
    HonestPrefix(p, history, |history| - 1);
  }

  lemma {:induction false} SuffixBound(p: Policy, history: seq<Charge>, i: nat)
    requires PolicyOk(p) && Honest(p, history) && i < |history|
    ensures
      var last := history[|history| - 1];
      Total(history[i..]) + Level(p, After(p, history), last.at) <= p.burst + Gain(p, last.at - history[i].at)
  {
    hide Gain, Level, Honest, After;
    var init, last := history[..|history| - 1], history[|history| - 1];
    HonestLast(p, history);
    LevelAfterCharge(p, After(p, init), last);
    assert history[i..][..|history[i..]| - 1] == init[i..];
    GainPositive(p, 0);
    if i == |init| {
      assert init[i..] == [];
      LevelGrows(p, After(p, init), last.at, last.at);
    } else {
      SuffixBound(p, init, i);
      var previous := init[|init| - 1];
      LevelGrows(p, After(p, init), previous.at, last.at);
      GainAdds(p, previous.at - history[i].at, last.at - previous.at);
    }
  }

  /** In any window of any honest history the admitted cost is at most the burst plus what the
      rate gives over the window. */
  lemma WindowBound(p: Policy, history: seq<Charge>, i: nat, j: nat)
    requires PolicyOk(p) && Honest(p, history) && i < j <= |history|
    ensures Total(history[i..j]) <= p.burst + Gain(p, history[j - 1].at - history[i].at)
  {
    hide Gain, Level, Total, Honest;
    var prefix := history[..j];
    HonestPrefix(p, history, j);
    SuffixBound(p, prefix, i);
    assert prefix[i..] == history[i..j];
    HonestBucket(p, prefix);
    LevelNotNegative(p, After(p, prefix), prefix[j - 1].at);
  }

  lemma LevelAfterCharge(p: Policy, b: Option<Bucket>, c: Charge)
    requires PolicyOk(p) && c.amount >= 0.0
    ensures Level(p, Some(Charged(p, b, c)), c.at) == Level(p, b, c.at) - c.amount
  {
    hide Gain;
    GainPositive(p, 0);
    LevelGrows(p, b, c.at, c.at);
  }

  /** Forgetting idle buckets is invisible exactly when a bucket idle for that long is full
      again, whatever it held: the burst fits into the rate over the shortest idle time. */
  lemma EvictionIsInvisible(p: Policy, idle: Time)
    requires PolicyOk(p) && idle >= 0
    ensures p.burst <= Gain(p, idle + 1) <==>
      forall b, t :: BucketOk(p, Some(b), t) && t - b.at > idle ==> Level(p, Some(b), t) == Level(p, None, t)
  {
    if p.burst <= Gain(p, idle + 1) {
      forall b, t | BucketOk(p, Some(b), t) && t - b.at > idle ensures Level(p, Some(b), t) == Level(p, None, t) {
        LevelGrows(p, Some(b), b.at + idle + 1, t);
        FullAgain(p, b, idle);
      }
    } else {
      var b := Bucket(0.0, 0);
      assert BucketOk(p, Some(b), idle + 1) && idle + 1 - b.at > idle;
      assert Level(p, Some(b), idle + 1) != Level(p, None, idle + 1);
    }
  }

  lemma FullAgain(p: Policy, b: Bucket, idle: Time)
    requires b.tokens >= 0.0 && p.burst <= Gain(p, idle + 1)
    ensures Level(p, Some(b), b.at + idle + 1) == p.burst
  {
  }

  // ----- keeping the books ------------------------------------------------------------------------

  /** From `now` on two buckets are interchangeable. */
  ghost predicate Alike(p: Policy, a: Option<Bucket>, b: Option<Bucket>, now: Time) {
    forall t :: t >= now ==> Level(p, a, t) == Level(p, b, t)
  }

  lemma ChargeAlike(p: Policy, a: Option<Bucket>, b: Option<Bucket>, now: Time, c: Charge)
    requires Alike(p, a, b, now) && c.at >= now
    ensures Charged(p, a, c) == Charged(p, b, c)
  {
  }

  lemma AppendHonest(p: Policy, history: seq<Charge>, c: Charge)
    requires Honest(p, history) && 0.0 <= c.amount <= Level(p, After(p, history), c.at)
    requires history != [] ==> history[|history| - 1].at <= c.at
    ensures Honest(p, history + [c]) && After(p, history + [c]) == Some(Charged(p, After(p, history), c))
  {
    var longer := history + [c];
    forall k | 0 <= k < |longer|
      ensures
        && 0.0 <= longer[k].amount <= Level(p, After(p, longer[..k]), longer[k].at)
        && (k > 0 ==> longer[k - 1].at <= longer[k].at)
    {
      assert longer[..k] == history[..k];
      assert history[..|history|] == history;
    }
    assert longer[..|longer| - 1] == history;
  }
}
