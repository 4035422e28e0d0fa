/** The bot's durable cursor over its users: every call takes the next page in id order and
    wraps at the end. */
module NotificationCursor {
  import opened Prelude

  /** The user table in id order. */
  ghost predicate Table(users: seq<int>) {
    && (forall i :: 0 <= i < |users| ==> users[i] > 0)
    && (forall i, j :: 0 <= i < j < |users| ==> users[i] < users[j])
  }

  /** How many users the cursor has passed. */
  function Passed(users: seq<int>, cursor: int): (i: nat)
    ensures i <= |users| && (forall k :: 0 <= k < i ==> users[k] <= cursor) && (i < |users| ==> users[i] > cursor)
  {
    if users == [] || users[0] > cursor then 0 else 1 + Passed(users[1..], cursor)
  }

  function Slice(users: seq<int>, from: nat, limit: nat): seq<int>
    requires from <= |users|
  {
    if |users| - from <= limit then users[from..] else users[from..from + limit]
  }

  function From(users: seq<int>, cursor: int): (i: nat)
    ensures i <= |users|
  {
    if Passed(users, cursor) == |users| && cursor != 0 then 0 else Passed(users, cursor)
  }

  function Page(users: seq<int>, cursor: int, limit: nat): seq<int> {
    Slice(users, From(users, cursor), limit)
  }

  function Next(users: seq<int>, cursor: int, limit: nat): int {
    var page := Page(users, cursor, limit);
    if page == [] then 0 else page[|page| - 1]
  }

  lemma PassedIsPosition(users: seq<int>, i: nat)
    requires Table(users) && i < |users|
    ensures Passed(users, users[i]) == i + 1
  {
  }

  lemma NothingPassedAtZero(users: seq<int>)
    requires Table(users)
    ensures Passed(users, 0) == 0
  {
  }

  /** The table and the cursor row; one call is one transaction. */
  class Bot {
    var users: seq<int>
    var cursor: int

    method Read(after: int, limit: nat) returns (page: seq<int>)
      requires Table(users) && limit > 0
      ensures page == Slice(users, Passed(users, after), limit)
    {
      page := [];
      var i := Passed(users, after);
      ghost var start := i;
      while i < |users| && |page| < limit
        invariant start <= i <= |users| && |page| == i - start <= limit && page == users[start..i]
      {
        page := page + [users[i]];
        i := i + 1;
      }
    }

    method NotificationUsers(limit: nat) returns (page: seq<int>)
      requires Table(users) && limit > 0
      modifies this`cursor
      ensures page == Page(users, old(cursor), limit) && cursor == Next(users, old(cursor), limit)
    {
      NothingPassedAtZero(users);
      page := Read(cursor, limit);
      if |page| == 0 && cursor != 0 { page := Read(0, limit); }
      cursor := if |page| > 0 then page[|page| - 1] else 0;
    }
  }

  // ----- runs of calls ----------------------------------------------------------------------------

  function CursorAfter(users: seq<int>, cursor: int, limit: nat, calls: nat): int
    decreases calls
  {
    if calls == 0 then cursor else CursorAfter(users, Next(users, cursor, limit), limit, calls - 1)
  }

  /** Everything the calls return, in order. */
  function Returned(users: seq<int>, cursor: int, limit: nat, calls: nat): seq<int>
    decreases calls
  {
    if calls == 0 then [] else Page(users, cursor, limit) + Returned(users, Next(users, cursor, limit), limit, calls - 1)
  }

  function Pages(n: int, limit: nat): nat
    requires limit > 0
    decreases n
  {
    if n <= 0 then 0 else 1 + Pages(n - limit, limit)
  }

  lemma {:induction false} PagesIsCeiling(n: nat, limit: nat)
    requires limit > 0
    ensures n <= Pages(n, limit) * limit < n + limit
  {
    if n > limit { PagesIsCeiling(n - limit, limit); }
  }

  lemma {:induction false} PagesGrow(m: int, n: int, limit: nat)
    requires limit > 0 && m <= n
    ensures Pages(m, limit) <= Pages(n, limit)
    decreases n
  {
    if m > 0 { PagesGrow(m - limit, n - limit, limit); }
  }

  lemma PageFacts(users: seq<int>, cursor: int, limit: nat)
    requires Table(users) && limit > 0 && From(users, cursor) < |users|
    ensures
      var from := From(users, cursor);
      var to := if |users| - from <= limit then |users| else from + limit;
      && Page(users, cursor, limit) == users[from..to] && from < to && Next(users, cursor, limit) == users[to - 1]
      && From(users, users[to - 1]) == (if to < |users| then to else 0)
  {
    hide Passed;
    var from := From(users, cursor);
    var to := if |users| - from <= limit then |users| else from + limit;
    PassedIsPosition(users, to - 1);
  }

  /** From anywhere before the end the calls return the rest of the table, each user once, and
      stand at the end. */
  lemma {:induction false} ToTheEnd(users: seq<int>, cursor: int, limit: nat)
    requires Table(users) && limit > 0 && From(users, cursor) < |users|
    ensures
      var from := From(users, cursor);
      var calls := Pages(|users| - from, limit);
      && Returned(users, cursor, limit, calls) == users[from..]
      && CursorAfter(users, cursor, limit, calls) == users[|users| - 1]
    decreases |users| - From(users, cursor)
  {
    hide From, Page, Next, Table;
    PageFacts(users, cursor, limit);
    var from, next := From(users, cursor), Next(users, cursor, limit);
    if |users| - from <= limit {
      assert Pages(|users| - from, limit) == 1;
      OneCall(users, cursor, limit);
      assert users[from..|users|] == users[from..];
    } else {
      ToTheEnd(users, next, limit);
      assert users[from..] == users[from..from + limit] + users[from + limit..];
    }
  }

  lemma OneCall(users: seq<int>, cursor: int, limit: nat)
    ensures Returned(users, cursor, limit, 1) == Page(users, cursor, limit)
    ensures CursorAfter(users, cursor, limit, 1) == Next(users, cursor, limit)
  {
    hide Page, Next;
    assert Returned(users, Next(users, cursor, limit), limit, 0) == [];
    assert CursorAfter(users, Next(users, cursor, limit), limit, 0) == Next(users, cursor, limit);
  }

  lemma {:induction false} ReturnedConcat(users: seq<int>, cursor: int, limit: nat, a: nat, b: nat)
    ensures Returned(users, cursor, limit, a + b)
         == Returned(users, cursor, limit, a) + Returned(users, CursorAfter(users, cursor, limit, a), limit, b)
    decreases a
  {
    hide Page, Next;
    var next := Next(users, cursor, limit);
    if a == 0 {
      assert Returned(users, cursor, limit, 0) == [];
    } else {
      ReturnedConcat(users, next, limit, a - 1, b);
      var page := Page(users, cursor, limit);
      var rest, more := Returned(users, next, limit, a - 1), Returned(users, CursorAfter(users, next, limit, a - 1), limit, b);
      assert page + (rest + more) == page + rest + more;
    }
  }

  /** A full round after a wrap returns the table, every user exactly once. */
  lemma OneRound(users: seq<int>, limit: nat)
    requires Table(users) && limit > 0
    ensures Returned(users, 0, limit, Pages(|users|, limit)) == users
    ensures users != [] ==> Returned(users, users[|users| - 1], limit, Pages(|users|, limit)) == users
  {
    NothingPassedAtZero(users);
    if users != [] {
      ToTheEnd(users, 0, limit);
      PassedIsPosition(users, |users| - 1);
      ToTheEnd(users, users[|users| - 1], limit);
    }
  }

  /** Wherever the cursor stands, even on a user that is gone, nobody waits longer than two
      rounds: that many calls return the rest of the table and then all of it. */
  lemma NobodyStarves(users: seq<int>, cursor: int, limit: nat)
    requires Table(users) && limit > 0 && users != []
    ensures
      var rest := Pages(|users| - From(users, cursor), limit);
      && rest + Pages(|users|, limit) <= 2 * Pages(|users|, limit)
      && Returned(users, cursor, limit, rest + Pages(|users|, limit)) == users[From(users, cursor)..] + users
  {
    hide Page, Next, Returned, CursorAfter, Pages, Passed;
    var from := From(users, cursor);
    var rest := Pages(|users| - from, limit);
    PagesGrow(|users| - from, |users|, limit);
    NothingPassedAtZero(users);
    ToTheEnd(users, cursor, limit);
    ReturnedConcat(users, cursor, limit, rest, Pages(|users|, limit));
    OneRound(users, limit);
  }
}
