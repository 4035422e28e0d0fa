/** The revision digests of the admission lists: a sorted copy, every field behind its length.
    A digest is modelled by its preimage, so equality of revisions is equality of those bytes. */
module Revisions {
  import opened Prelude
  import opened Digits

  // ----- strings in order -------------------------------------------------------------------------

  predicate Before(a: string, b: string) {
    if a == "" then b != ""
    else if b == "" then false
    else a[0] < b[0] || (a[0] == b[0] && Before(a[1..], b[1..]))
  }

  lemma {:induction false} OneWay(a: string, b: string)
    ensures Before(a, b) ==> !Before(b, a) && a != b
    ensures Before(a, b) || Before(b, a) || a == b
  {
    if a != "" && b != "" {
      OneWay(a[1..], b[1..]);
      assert a == [a[0]] + a[1..] && b == [b[0]] + b[1..];
    }
  }

  lemma {:induction false} Chain(a: string, b: string, c: string)
    requires Before(a, b) && Before(b, c)
    ensures Before(a, c)
  {
    if a != "" && b != "" && c != "" && a[0] == b[0] == c[0] { Chain(a[1..], b[1..], c[1..]); }
  }

  // ----- users in order ---------------------------------------------------------------------------

  /** The fields of one admitted user, in the order they are compared and written. */
  type User = seq<string>

  predicate Precedes(a: User, b: User) {
    if a == [] then b != []
    else if b == [] then false
    else Before(a[0], b[0]) || (a[0] == b[0] && Precedes(a[1..], b[1..]))
  }

  predicate AtMost(a: User, b: User) {
    a == b || Precedes(a, b)
  }

  lemma {:induction false} UsersOneWay(a: User, b: User)
    ensures Precedes(a, b) ==> !Precedes(b, a) && a != b
    ensures Precedes(a, b) || Precedes(b, a) || a == b
  {
    if a != [] && b != [] {
      OneWay(a[0], b[0]);
      UsersOneWay(a[1..], b[1..]);
      assert a == [a[0]] + a[1..] && b == [b[0]] + b[1..];
    }
  }

  lemma {:induction false} UsersChain(a: User, b: User, c: User)
    requires Precedes(a, b) && Precedes(b, c)
    ensures Precedes(a, c)
  {
    if a != [] && b != [] && c != [] {
      OneWay(a[0], b[0]);
      OneWay(b[0], c[0]);
      if Before(a[0], b[0]) && Before(b[0], c[0]) { Chain(a[0], b[0], c[0]); }
      if a[0] == b[0] == c[0] { UsersChain(a[1..], b[1..], c[1..]); }
    }
  }

  ghost predicate Sorted(users: seq<User>) {
    forall i, j :: 0 <= i < j < |users| ==> AtMost(users[i], users[j])
  }

  lemma FirstIsLeast(a: seq<User>, b: seq<User>)
    requires Sorted(a) && Sorted(b) && multiset(a) == multiset(b) && a != [] && b != []
    ensures a[0] == b[0]
  {
    assert a[0] in multiset(b) && b[0] in multiset(a);
    var i :| 0 <= i < |b| && b[i] == a[0];
    var j :| 0 <= j < |a| && a[j] == b[0];
    assert AtMost(b[0], b[i]) && AtMost(a[0], a[j]);
    UsersOneWay(a[0], b[0]);
  }

  /** Sorting is canonical: the order of the list does not show in the sorted copy. */
  lemma {:induction false} SortedIsUnique(a: seq<User>, b: seq<User>)
    requires Sorted(a) && Sorted(b) && multiset(a) == multiset(b)
    ensures a == b
  {
    hide AtMost;
    assert |multiset(a)| == |a| && |multiset(b)| == |b|;
    if a != [] {
      FirstIsLeast(a, b);
      assert a == [a[0]] + a[1..] && b == [b[0]] + b[1..];
      assert multiset(a[1..]) == multiset(a) - multiset{a[0]};
      assert multiset(b[1..]) == multiset(b) - multiset{b[0]};
      SortedIsUnique(a[1..], b[1..]);
    }
  }

  method SortCopy(users: seq<User>) returns (sorted: seq<User>)
    ensures Sorted(sorted) && multiset(sorted) == multiset(users)
  {
    sorted := [];
    for n := 0 to |users|
      invariant Sorted(sorted) && multiset(sorted) == multiset(users[..n])
    {
      assert users[..n + 1] == users[..n] + [users[n]];
      sorted := Insert(sorted, users[n]);
    }
    assert users[..|users|] == users;
  }

  method Insert(sorted: seq<User>, user: User) returns (longer: seq<User>)
    requires Sorted(sorted)
    ensures Sorted(longer) && multiset(longer) == multiset(sorted) + multiset{user}
  {
    var at := 0;
    while at < |sorted| && !Precedes(user, sorted[at])
      invariant 0 <= at <= |sorted| && forall i :: 0 <= i < at ==> !Precedes(user, sorted[i])
    {
      at := at + 1;
    }
    longer := sorted[..at] + [user] + sorted[at..];
    assert sorted == sorted[..at] + sorted[at..];
    InsertIsSorted(sorted, user, at);
  }

  lemma InsertIsSorted(sorted: seq<User>, user: User, at: nat)
    requires Sorted(sorted) && at <= |sorted|
    requires forall i :: 0 <= i < at ==> !Precedes(user, sorted[i])
    requires at < |sorted| ==> Precedes(user, sorted[at])
    ensures Sorted(sorted[..at] + [user] + sorted[at..])
  {
    var longer := sorted[..at] + [user] + sorted[at..];
    forall i, j | 0 <= i < j < |longer| ensures AtMost(longer[i], longer[j]) {
      if j == at {
        UsersOneWay(user, sorted[i]);
      } else if i == at {
        assert longer[j] == sorted[j - 1];
        if j - 1 > at {
          assert AtMost(sorted[at], sorted[j - 1]);
          if Precedes(sorted[at], sorted[j - 1]) { UsersChain(user, sorted[at], sorted[j - 1]); }
        }
      } else {
        var x, y := if i < at then i else i - 1, if j < at then j else j - 1;
        assert longer[i] == sorted[x] && longer[j] == sorted[y];
      }
    }
  }

  // ----- bytes ------------------------------------------------------------------------------------

  /** A field behind its length; lengths are far below the limit of the prefix. */
  function Field(s: string): seq<int> {
    Put(256, |s|, 8) + seq(|s|, i requires 0 <= i < |s| => s[i] as int)
  }

  function Fields(user: User): seq<int> {
    if user == [] then [] else Field(user[0]) + Fields(user[1..])
  }

  function Preimage(users: seq<User>): seq<int> {
    if users == [] then [] else Fields(users[0]) + Preimage(users[1..])
  }

  ghost predicate Sized(width: nat, users: seq<User>) {
    forall i :: 0 <= i < |users| ==> |users[i]| == width && forall k :: 0 <= k < width ==> |users[i][k]| < Pow(256, 8)
  }

  /** The first field of two equal streams is the same, and so is what follows it. */
  lemma FieldSplits(a: string, x: seq<int>, b: string, y: seq<int>)
    requires |a| < Pow(256, 8) && |b| < Pow(256, 8) && Field(a) + x == Field(b) + y
    ensures a == b && x == y
  {
    ValueOfPut(256, |a|, 8);
    ValueOfPut(256, |b|, 8);
    var s := Field(a) + x;
    assert s[..8] == Put(256, |a|, 8) && s[..8] == Put(256, |b|, 8);
    forall i | 0 <= i < |a| ensures a[i] == b[i] {
      assert s[8 + i] == a[i] as int && s[8 + i] == b[i] as int;
    }
    assert s[8 + |a|..] == x && s[8 + |b|..] == y;
  }

  lemma {:induction false} FieldsSplit(a: User, x: seq<int>, b: User, y: seq<int>)
    requires |a| == |b| && Fields(a) + x == Fields(b) + y
    requires forall k :: 0 <= k < |a| ==> |a[k]| < Pow(256, 8) && |b[k]| < Pow(256, 8)
    ensures a == b && x == y
    decreases |a|
  {
    hide Field, Pow;
    if a == [] {
      assert [] + x == x && [] + y == y;
    } else {
      Associate(Field(a[0]), Fields(a[1..]), x);
      Associate(Field(b[0]), Fields(b[1..]), y);
      FieldSplits(a[0], Fields(a[1..]) + x, b[0], Fields(b[1..]) + y);
      FieldsSplit(a[1..], x, b[1..], y);
      assert a == [a[0]] + a[1..] && b == [b[0]] + b[1..];
    }
  }

  lemma NotEmpty(width: nat, users: seq<User>)
    requires Sized(width, users) && width > 0 && users != []
    ensures Preimage(users) != []
  {
    assert |Field(users[0][0])| >= 8;
  }

  lemma {:induction false} PreimageInjective(width: nat, a: seq<User>, b: seq<User>)
    requires Sized(width, a) && Sized(width, b) && width > 0 && Preimage(a) == Preimage(b)
    ensures a == b
  {
    if a == [] {
      if b != [] { NotEmpty(width, b); }
    } else {
      NotEmpty(width, a);
      FieldsSplit(a[0], Preimage(a[1..]), b[0], Preimage(b[1..]));
      PreimageInjective(width, a[1..], b[1..]);
      assert a == [a[0]] + a[1..] && b == [b[0]] + b[1..];
    }
  }

  lemma {:induction false} PreimageNext(users: seq<User>, n: nat)
    requires n < |users|
    ensures Preimage(users[..n + 1]) == Preimage(users[..n]) + Fields(users[n])
  {
    if n == 0 {
      assert users[..1] == [users[0]] && users[..0] == [];
      assert Preimage([users[0]]) == Fields(users[0]) + Preimage([]);
    } else {
      PreimageNext(users[1..], n - 1);
      assert users[..n + 1][1..] == users[1..][..n] && users[..n][1..] == users[1..][..n - 1];
      assert Fields(users[0]) + (Preimage(users[1..][..n - 1]) + Fields(users[n]))
          == Fields(users[0]) + Preimage(users[1..][..n - 1]) + Fields(users[n]);
    }
  }

  /** What the hash is fed: each user of a sorted copy, field by field. */
  method Revision(users: seq<User>) returns (revision: seq<int>)
    ensures exists sorted :: Sorted(sorted) && multiset(sorted) == multiset(users) && revision == Preimage(sorted)
  {
    var sorted := SortCopy(users);
    revision := [];
    for n := 0 to |sorted|
      invariant revision == Preimage(sorted[..n])
    {
      PreimageNext(sorted, n);
      revision := revision + Fields(sorted[n]);
    }
    assert sorted[..|sorted|] == sorted;
  }

  /** `revision` is a revision of this list of users. */
  ghost predicate RevisionOf(users: seq<User>, revision: seq<int>) {
    exists sorted :: Sorted(sorted) && multiset(sorted) == multiset(users) && revision == Preimage(sorted)
  }

  /** The order of a list does not show in its revision. */
  lemma SameRevision(a: seq<User>, b: seq<User>, revision: seq<int>)
    requires multiset(a) == multiset(b) && RevisionOf(a, revision)
    ensures RevisionOf(b, revision)
  {
  }

  lemma RevisionIsOfUsers(a: seq<User>, b: seq<User>, ra: seq<int>, rb: seq<int>)
    requires multiset(a) == multiset(b) && RevisionOf(a, ra) && RevisionOf(b, rb)
    ensures ra == rb
  {
    var sa :| Sorted(sa) && multiset(sa) == multiset(a) && ra == Preimage(sa);
    var sb :| Sorted(sb) && multiset(sb) == multiset(b) && rb == Preimage(sb);
    SortedIsUnique(sa, sb);
  }

  /** Revisions agree exactly when the lists hold the same users the same number of times. */
  lemma RevisionsAgree(width: nat, a: seq<User>, b: seq<User>, ra: seq<int>, rb: seq<int>)
    requires width > 0 && Sized(width, a) && Sized(width, b) && RevisionOf(a, ra) && RevisionOf(b, rb)
    ensures ra == rb <==> multiset(a) == multiset(b)
  {
    var sa :| Sorted(sa) && multiset(sa) == multiset(a) && ra == Preimage(sa);
    var sb :| Sorted(sb) && multiset(sb) == multiset(b) && rb == Preimage(sb);
    SizedSame(width, a, sa);
    SizedSame(width, b, sb);
    if ra == rb { PreimageInjective(width, sa, sb); }
    if multiset(a) == multiset(b) { SortedIsUnique(sa, sb); }
  }

  lemma SizedSame(width: nat, a: seq<User>, b: seq<User>)
    requires Sized(width, a) && multiset(a) == multiset(b)
    ensures Sized(width, b)
  {
    forall i | 0 <= i < |b| ensures |b[i]| == width && forall k :: 0 <= k < width ==> |b[i][k]| < Pow(256, 8) {
      assert b[i] in multiset(a);
      var j :| 0 <= j < |a| && a[j] == b[i];
    }
  }
}
