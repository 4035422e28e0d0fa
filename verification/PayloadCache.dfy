/** The rendered-payload cache: a versioned map with a time to live, swept when it doubles and
    evicted when it is full, against the plain history of what was put and invalidated. */
module PayloadCache {
  import opened Prelude

  const MAX_ENTRIES: nat := 100_000
  const MIN_SWEEP: nat := 1024

  datatype Entry = Entry(body: seq<int>, contentType: string, headers: map<string, string>)

  datatype Stored = Stored(entry: Entry, version: nat, expires: Time)

  function Key(token: string, format: string): string {
    token + "|" + format
  }

  predicate HasPrefix(s: string, prefix: string) {
    |prefix| <= |s| && s[..|prefix|] == prefix
  }

  // ----- the history ------------------------------------------------------------------------------

  datatype Event = Put(key: string, entry: Entry, expires: Time) | All | Token(token: string)

  datatype Fresh = Fresh(entry: Entry, expires: Time)

  predicate Invalidates(e: Event, k: string) {
    e.All? || (e.Token? && HasPrefix(k, e.token + "|"))
  }

  /** The last put of a key that nothing has invalidated since. */
  function Current(history: seq<Event>, k: string): Option<Fresh> {
    if history == [] then None
    else
      var last, before := history[|history| - 1], history[..|history| - 1];
      if last.Put? && last.key == k then Some(Fresh(last.entry, last.expires))
      else if Invalidates(last, k) then None
      else Current(before, k)
  }

  predicate Live(history: seq<Event>, k: string, now: Time) {
    Current(history, k).Some? && Current(history, k).value.expires > now
  }

  lemma CurrentNext(history: seq<Event>, e: Event, k: string)
    ensures Current(history + [e], k) ==
      if e.Put? && e.key == k then Some(Fresh(e.entry, e.expires)) else if Invalidates(e, k) then None else Current(history, k)
  {
    assert (history + [e])[..|history|] == history;
  }

  // ----- keys -------------------------------------------------------------------------------------

  /** Tokens without a bar have keys of their own, and invalidating one touches no other. */
  lemma KeysAreApart(token: string, format: string, other: string, format': string)
    requires '|' !in token && '|' !in other
    ensures Key(token, format) == Key(other, format') <==> token == other && format == format'
    ensures HasPrefix(Key(token, format), other + "|") <==> token == other
  {
    var k := Key(token, format);
    assert k[|token|] == '|' && k[..|token|] == token && k[|token| + 1..] == format;
    if HasPrefix(k, other + "|") {
      assert k[..|other| + 1] == other + "|";
      BarIsFirst(token, format, other, k[|other| + 1..]);
    }
    if Key(token, format) == Key(other, format') { BarIsFirst(token, format, other, format'); }
    if token == other { assert k[..|other| + 1] == other + "|"; }
  }

  lemma BarIsFirst(a: string, x: string, b: string, y: string)
    requires '|' !in a && '|' !in b && a + "|" + x == b + "|" + y
    ensures a == b && x == y
  {
    var k := a + "|" + x;
    assert k[|a|] == '|' && k[|b|] == '|';
    assert forall i :: 0 <= i < |a| ==> k[i] == a[i];
    assert forall i :: 0 <= i < |b| ==> k[i] == b[i];
    assert k[..|a|] == a && k[..|b|] == b && k[|a| + 1..] == x && k[|b| + 1..] == y;
  }

  /** A bar can stand on either side of the boundary. */
  lemma BarsCollide(token: string, rest: string, format: string)
    ensures Key(token + "|" + rest, format) == Key(token, rest + "|" + format)
    ensures HasPrefix(Key(token + "|" + rest, format), token + "|")
  {
    var k := Key(token + "|" + rest, format);
    assert k == (token + "|") + (rest + "|" + format);
    assert k[..|token| + 1] == token + "|";
  }

  /** No request for another, bar-free token shares an entry with this one. */
  ghost predicate KeepsItsKeys(token: string) {
    forall other, f, g :: '|' !in other && Key(token, f) == Key(other, g) ==> other == token
  }

  /** No invalidation of another, bar-free token drops an entry of this one. */
  ghost predicate KeepsItsEntries(token: string) {
    forall other, f :: '|' !in other && HasPrefix(Key(token, f), other + "|") ==> other == token
  }

  /** A token's entries are its own exactly when it holds no bar. */
  lemma BarFreeExactly(token: string)
    ensures '|' !in token <==> KeepsItsKeys(token)
    ensures '|' !in token <==> KeepsItsEntries(token)
  {
    if '|' !in token {
      forall other, f, g | '|' !in other && Key(token, f) == Key(other, g) ensures other == token {
        KeysAreApart(token, f, other, g);
      }
      forall other, f | '|' !in other && HasPrefix(Key(token, f), other + "|") ensures other == token {
        KeysAreApart(token, f, other, f);
      }
    } else {
      var k := FirstBar(token);
      BarsCollide(token[..k], token[k + 1..], "");
      assert token == token[..k] + "|" + token[k + 1..];
      assert '|' !in token[..k] && token[..k] != token;
    }
  }

  lemma {:induction false} FirstBar(s: string) returns (k: nat)
    requires '|' in s
    ensures k < |s| && s[k] == '|' && '|' !in s[..k]
  {
    if s[0] == '|' {
      k := 0;
    } else {
      k := FirstBar(s[1..]);
      k := k + 1;
      assert s[..k] == [s[0]] + s[1..][..k - 1];
    }
  }

  // ----- the cache --------------------------------------------------------------------------------

  ghost predicate Faithful(entries: map<string, Stored>, version: nat, history: seq<Event>) {
    forall k :: k in entries ==>
      && entries[k].version <= version
      && Current(history, k) == if entries[k].version == version then Some(Fresh(entries[k].entry, entries[k].expires)) else None
  }

  predicate Dead(s: Stored, version: nat, now: Time) {
    s.version != version || s.expires <= now
  }

  /** What is left of the entries without the dead ones. */
  function Purged(entries: map<string, Stored>, version: nat, now: Time): map<string, Stored> {
    map k | k in entries && !Dead(entries[k], version, now) :: entries[k]
  }

  ghost predicate Within(left: map<string, Stored>, entries: map<string, Stored>) {
    left.Keys <= entries.Keys && forall k :: k in left ==> left[k] == entries[k]
  }

  lemma FaithfulWithin(left: map<string, Stored>, entries: map<string, Stored>, version: nat, history: seq<Event>)
    requires Faithful(entries, version, history) && Within(left, entries)
    ensures Faithful(left, version, history) && |left| <= |entries|
  {
    SubsetSize(left.Keys, entries.Keys);
  }

  class Cache {
    const ttl: Time
    var version: nat
    var entries: map<string, Stored>
    var sweepAt: nat
    ghost var history: seq<Event>

    ghost predicate Valid()
      reads this
    {
      && Faithful(entries, version, history)
      && |entries| <= MAX_ENTRIES && (|entries| <= MIN_SWEEP || |entries| <= sweepAt)
    }

    constructor (ttl: Time)
      ensures Valid() && history == [] && this.ttl == ttl
    {
      this.ttl, version, entries, sweepAt, history := ttl, 0, map[], 0, [];
    }

    /** A hit is the latest put, neither expired nor invalidated since; a miss with such a put is
        one whose entry a sweep or an eviction has dropped. */
    method Get(token: string, format: string, now: Time) returns (r: Option<Entry>)
      requires Valid()
      modifies this`entries
      ensures Valid()
      ensures r.Some? <==> Key(token, format) in old(entries) && Live(history, Key(token, format), now)
      ensures r.Some? ==> r.value == Current(history, Key(token, format)).value.entry
      ensures forall k :: k in entries <==> k in old(entries) && (k != Key(token, format) || r.Some?)
    {
      var k := Key(token, format);
      if k !in entries { return None; }
      var s := entries[k];
      if s.version != version || s.expires <= now {
        FaithfulWithin(entries - {k}, entries, version, history);
        entries := entries - {k};
        return None;
      }
      return Some(s.entry);
    }

    /** Three clock readings: for eviction, for the expiry, for the sweep. */
    method Put(token: string, format: string, e: Entry, evictAt: Time, now: Time, sweptAt: Time)
      requires Valid()
      modifies this
      ensures Valid() && version == old(version)
      ensures history == old(history) + [Event.Put(Key(token, format), e, now + ttl)]
      ensures forall k :: k in entries ==> k == Key(token, format) || k in old(entries)
      ensures sweptAt < now + ttl ==> Key(token, format) in entries
    {
      hide Current, Key;
      var k := Key(token, format);
      if k !in entries && |entries| >= MAX_ENTRIES { Evict(evictAt); }
      ghost var put := Event.Put(k, e, now + ttl);
      FaithfulPut(entries, version, history, k, Stored(e, version, now + ttl));
      GrowByOne(entries, k, Stored(e, version, now + ttl));
      entries := entries[k := Stored(e, version, now + ttl)];
      history := history + [put];
      MaybeSweep(sweptAt);
    }

    /** Runs right after one entry was added. */
    method MaybeSweep(now: Time)
      requires Faithful(entries, version, history) && |entries| <= MAX_ENTRIES
      modifies this`entries, this`sweepAt
      ensures Valid()
      ensures
        if |old(entries)| < old(sweepAt) || |old(entries)| < MIN_SWEEP then entries == old(entries) && sweepAt == old(sweepAt)
        else entries == Purged(old(entries), version, now) && sweepAt == 2 * |entries|
    {
      if |entries| < sweepAt || |entries| < MIN_SWEEP { return; }
      DropDead(now);
      sweepAt := 2 * |entries|;
    }

    method DropDead(now: Time)
      requires Faithful(entries, version, history)
      modifies this`entries
      ensures Faithful(entries, version, history) && entries == Purged(old(entries), version, now) && |entries| <= |old(entries)|
    {
      var rest := entries.Keys;
      while rest != {}
        invariant rest <= entries.Keys && Within(entries, old(entries))
        invariant forall k :: k in old(entries) && k !in rest ==> (k in entries <==> !Dead(old(entries)[k], version, now))
        decreases rest
      {
        var k :| k in rest;
        if Dead(entries[k], version, now) { entries := entries - {k}; }
        rest := rest - {k};
      }
      FaithfulWithin(entries, old(entries), version, history);
    }

    /** Frees at least one place: the dead entries, then arbitrary ones. */
    method Evict(now: Time)
      requires Valid()
      modifies this`entries
      ensures Valid() && |entries| < MAX_ENTRIES && Within(entries, old(entries))
    {
      DropDead(now);
      while |entries| >= MAX_ENTRIES
        invariant Within(entries, old(entries)) && |entries| <= |old(entries)|
        decreases |entries|
      {
        var k :| k in entries;
        assert (entries - {k}).Keys == entries.Keys - {k};
        entries := entries - {k};
      }
      FaithfulWithin(entries, old(entries), version, history);
    }

    method InvalidateAll()
      requires Valid()
      modifies this`version, this`history
      ensures Valid() && version == old(version) + 1 && history == old(history) + [All]
    {
      version := version + 1;
      history := history + [All];
    }

    method InvalidateToken(token: string)
      requires Valid()
      modifies this`entries, this`history
      ensures Valid() && history == old(history) + [Token(token)] && Within(entries, old(entries))
      ensures forall k :: k in entries <==> k in old(entries) && !HasPrefix(k, token + "|")
    {
      var prefix := token + "|";
      var rest := entries.Keys;
      while rest != {}
        invariant rest <= entries.Keys && Within(entries, old(entries))
        invariant forall k :: k in old(entries) && k !in rest ==> (k in entries <==> !HasPrefix(k, prefix))
        invariant history == old(history)
        decreases rest
      {
        var k :| k in rest;
        if HasPrefix(k, prefix) { entries := entries - {k}; }
        rest := rest - {k};
      }
      FaithfulWithin(entries, old(entries), version, history);
      forall k | k in entries ensures Current(history + [Token(token)], k) == Current(history, k) {
        CurrentNext(history, Token(token), k);
      }
      history := history + [Token(token)];
    }
  }

  lemma GrowByOne(entries: map<string, Stored>, k: string, s: Stored)
    ensures |entries[k := s]| <= |entries| + 1 && (k in entries ==> |entries[k := s]| == |entries|)
  {
    assert entries[k := s].Keys == entries.Keys + {k};
  }

  lemma FaithfulPut(entries: map<string, Stored>, version: nat, history: seq<Event>, k: string, s: Stored)
    requires Faithful(entries, version, history) && s.version == version
    ensures Faithful(entries[k := s], version, history + [Event.Put(k, s.entry, s.expires)])
  {
    hide Current;
    var put := Event.Put(k, s.entry, s.expires);
    forall x ensures Current(history + [put], x) == if x == k then Some(Fresh(s.entry, s.expires)) else Current(history, x) {
      CurrentNext(history, put, x);
    }
  }
}
