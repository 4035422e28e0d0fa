/** Who a node may admit: the control-plane's snapshot of entitled users with its lease, and the
    gate that activates a node only on an up-to-date copy of it. */
module Admission {
  import opened Prelude
  import opened Ledger
  import opened Registry
  import Revisions

  datatype Account = Account(active: bool, subscription: Option<SubId>, uuid: string, shortId: string, password: string)

  const LEASE: Time := 300_000_000_000

  predicate Entitled(accounts: map<UserId, Account>, subs: map<SubId, Subscription>, u: UserId, t: Time) {
    && u in accounts && accounts[u].active && accounts[u].subscription.Some?
    && accounts[u].subscription.value in subs && ServableAt(subs[accounts[u].subscription.value], t)
  }

  function EndOf(accounts: map<UserId, Account>, subs: map<SubId, Subscription>, u: UserId): Option<Time> {
    if u in accounts && accounts[u].subscription.Some? && accounts[u].subscription.value in subs then
      AccessUntil(subs[accounts[u].subscription.value])
    else None
  }

  /** What a node needs to know of a user: all credentials, or those of the REALITY transport alone. */
  datatype Scope = Access | Reality

  function Credentials(a: Account, scope: Scope): Revisions.User {
    if scope == Access then [a.uuid, a.shortId, a.password] else [a.uuid, a.shortId]
  }

  function Width(scope: Scope): nat {
    if scope == Access then 3 else 2
  }

  datatype Snapshot = Snapshot(users: seq<Revisions.User>, validUntil: Time, revision: seq<int>)

  /** `order` lists each of `who` once, and `users` are their credentials in that order. */
  ghost predicate Lists(accounts: map<UserId, Account>, who: set<UserId>, order: seq<UserId>, users: seq<Revisions.User>, scope: Scope) {
    && |order| == |users| && (forall i, j :: 0 <= i < j < |order| ==> order[i] != order[j])
    && (forall u :: u in who <==> u in order)
    && (forall i :: 0 <= i < |order| ==> order[i] in accounts && users[i] == Credentials(accounts[order[i]], scope))
  }

  function EntitledSet(accounts: map<UserId, Account>, subs: map<SubId, Subscription>, now: Time): set<UserId> {
    set u | u in accounts && Entitled(accounts, subs, u, now)
  }

  lemma OneMore(accounts: map<UserId, Account>, who: set<UserId>, order: seq<UserId>, users: seq<Revisions.User>, scope: Scope, u: UserId)
    requires Lists(accounts, who, order, users, scope) && u !in who && u in accounts
    ensures Lists(accounts, who + {u}, order + [u], users + [Credentials(accounts[u], scope)], scope)
  {
  }

  /** The snapshot holds exactly the entitled users; its lease is in the future, ends no later
      than anyone's access, and no earlier than it must. It fails exactly when an entitled user
      has no personal password. */
  method EligibleAccessUsers(accounts: map<UserId, Account>, subs: map<SubId, Subscription>, now: Time)
    returns (r: Result<Snapshot, Failure>, ghost order: seq<UserId>)
    ensures r.Err? <==> exists u :: u in EntitledSet(accounts, subs, now) && accounts[u].password == ""
    ensures r.Ok? ==>
      && Lists(accounts, EntitledSet(accounts, subs, now), order, r.value.users, Access)
      && Revisions.RevisionOf(r.value.users, r.value.revision)
      && now < r.value.validUntil <= now + LEASE
      && (forall u :: u in EntitledSet(accounts, subs, now) ==>
           EndOf(accounts, subs, u) == None || r.value.validUntil <= EndOf(accounts, subs, u).value)
      && (r.value.validUntil == now + LEASE || exists u :: u in EntitledSet(accounts, subs, now) && EndOf(accounts, subs, u) == Some(r.value.validUntil))
  {
    var users, validUntil := [], now + LEASE;
    order := [];
    var rest := accounts.Keys;
    ghost var seen: set<UserId> := {};
    while rest != {}
      invariant rest <= accounts.Keys && seen == EntitledSet(accounts, subs, now) - rest
      invariant Lists(accounts, seen, order, users, Access)
      invariant now < validUntil <= now + LEASE
      invariant forall u :: u in seen ==> accounts[u].password != ""
      invariant forall u :: u in seen ==> EndOf(accounts, subs, u) == None || validUntil <= EndOf(accounts, subs, u).value
      invariant validUntil == now + LEASE || exists u :: u in seen && EndOf(accounts, subs, u) == Some(validUntil)
      decreases rest
    {
      var u :| u in rest;
      rest := rest - {u};
      if Entitled(accounts, subs, u, now) {
        if accounts[u].password == "" {
          assert u in EntitledSet(accounts, subs, now);
          return Err(Conflict), [];
        }
        OneMore(accounts, seen, order, users, Access, u);
        users, order, seen := users + [Credentials(accounts[u], Access)], order + [u], seen + {u};
        var end := EndOf(accounts, subs, u);
        if end != None && end.value < validUntil { validUntil := end.value; }
      }
    }
    var revision := Revisions.Revision(users);
    r := Ok(Snapshot(users, validUntil, revision));
  }

  /** A list of exactly the entitled users' credentials, in some order. */
  ghost predicate Eligible(accounts: map<UserId, Account>, subs: map<SubId, Subscription>, now: Time, users: seq<Revisions.User>, scope: Scope) {
    exists order :: Lists(accounts, EntitledSet(accounts, subs, now), order, users, scope)
  }

  /** The entitled users as the REALITY transport knows them; nobody is refused for want of a password. */
  method EligibleRealityUsers(accounts: map<UserId, Account>, subs: map<SubId, Subscription>, now: Time)
    returns (users: seq<Revisions.User>)
    ensures Eligible(accounts, subs, now, users, Reality)
  {
    users := [];
    ghost var order: seq<UserId> := [];
    var rest := accounts.Keys;
    ghost var seen: set<UserId> := {};
    while rest != {}
      invariant rest <= accounts.Keys && seen == EntitledSet(accounts, subs, now) - rest
      invariant Lists(accounts, seen, order, users, Reality)
      decreases rest
    {
      var u :| u in rest;
      rest := rest - {u};
      if Entitled(accounts, subs, u, now) {
        OneMore(accounts, seen, order, users, Reality, u);
        users, order, seen := users + [Credentials(accounts[u], Reality)], order + [u], seen + {u};
      }
    }
    assert seen == EntitledSet(accounts, subs, now);
  }

  /** As long as accounts and subscriptions do not change, everyone on the list stays entitled at
      every instant before the lease ends. */
  lemma LeaseIsHonoured(accounts: map<UserId, Account>, subs: map<SubId, Subscription>, now: Time, validUntil: Time, u: UserId, t: Time)
    requires u in EntitledSet(accounts, subs, now)
    requires EndOf(accounts, subs, u) == None || validUntil <= EndOf(accounts, subs, u).value
    requires now <= t < validUntil
    ensures Entitled(accounts, subs, u, t)
  {
  }

  // ----- the activation gate ------------------------------------------------------------------------

  datatype NodeStatus = Provisioning | NodeActive | Degraded | Draining | Retired

  datatype Transport = Transport(kind: string, enabled: bool)

  datatype Role = EntryNode | ExitNode

  datatype Node = Node(role: Role, status: NodeStatus, entry: Option<string>, transports: seq<Transport>)

  const HYSTERIA2: string := "hysteria2"

  function EnabledKinds(transports: seq<Transport>): set<string> {
    set i | 0 <= i < |transports| && transports[i].enabled :: transports[i].kind
  }

  method DistinctEnabledTransportTypes(transports: seq<Transport>) returns (count: nat)
    ensures count == |EnabledKinds(transports)|
  {
    var seen := {};
    for n := 0 to |transports|
      invariant seen == EnabledKinds(transports[..n])
    {
      assert transports[..n + 1] == transports[..n] + [transports[n]];
      KindsNext(transports, n);
      if transports[n].enabled { seen := seen + {transports[n].kind}; }
    }
    assert transports[..|transports|] == transports;
    return |seen|;
  }

  lemma KindsNext(transports: seq<Transport>, n: nat)
    requires n < |transports|
    ensures EnabledKinds(transports[..n + 1]) ==
      EnabledKinds(transports[..n]) + if transports[n].enabled then {transports[n].kind} else {}
  {
    var a, b := EnabledKinds(transports[..n + 1]), EnabledKinds(transports[..n]);
    forall k | k in b ensures k in a {
      var i :| 0 <= i < n && transports[..n][i].enabled && transports[..n][i].kind == k;
      assert transports[..n + 1][i] == transports[..n][i];
    }
    forall k | k in a ensures k in b || (transports[n].enabled && k == transports[n].kind) {
      var i :| 0 <= i < n + 1 && transports[..n + 1][i].enabled && transports[..n + 1][i].kind == k;
      if i < n { assert transports[..n][i] == transports[..n + 1][i]; }
    }
    if transports[n].enabled { assert transports[..n + 1][n].enabled; }
  }

  predicate PairedExit(nodes: map<string, Node>, id: string, exit: string) {
    exit in nodes && nodes[exit].role == ExitNode && nodes[exit].entry == Some(id)
  }

  predicate SpeaksHysteria2(transports: seq<Transport>) {
    exists i :: 0 <= i < |transports| && transports[i].enabled && transports[i].kind == HYSTERIA2
  }

  /** The revision is that of the users entitled now, and for full access none of them lacks a password. */
  ghost predicate UpToDate(accounts: map<UserId, Account>, subs: map<SubId, Subscription>, now: Time, revision: seq<int>, scope: Scope) {
    && (scope == Access ==> forall u :: u in EntitledSet(accounts, subs, now) ==> accounts[u].password != "")
    && exists users :: Eligible(accounts, subs, now, users, scope) && Revisions.RevisionOf(users, revision)
  }

  /** What the caller says it has synced, if it says so, and the attestation for an exit. */
  datatype Request = Request(revision: Option<seq<int>>, accessRevision: Option<seq<int>>, evidence: bool)

  /** The list an entry's gate asks about, and what the caller claims to have synced of it. */
  function ScopeFor(n: Node, req: Request): Scope {
    if req.accessRevision.Some? || SpeaksHysteria2(n.transports) then Access else Reality
  }

  function Claimed(n: Node, req: Request): Option<seq<int>> {
    if ScopeFor(n, req) == Access then req.accessRevision else req.revision
  }

  /** All that activation asks of the node itself. */
  ghost predicate Admissible(n: Node, req: Request, accounts: map<UserId, Account>, subs: map<SubId, Subscription>, now: Time) {
    && n.status == Provisioning
    && match n.role
       case ExitNode => n.entry.Some? && n.entry.value != "" && req.evidence
       case EntryNode =>
         && |EnabledKinds(n.transports)| >= 2
         && Claimed(n, req).Some? && UpToDate(accounts, subs, now, Claimed(n, req).value, ScopeFor(n, req))
  }

  class Nodes {
    var nodes: map<string, Node>

    /** Some exit paired with the entry, whichever the walk meets first. */
    method FindExit(id: string) returns (exit: Option<string>)
      ensures exit.Some? ==> PairedExit(nodes, id, exit.value)
      ensures exit.None? ==> forall x :: !PairedExit(nodes, id, x)
    {
      var rest := nodes.Keys;
      while rest != {}
        invariant rest <= nodes.Keys
        invariant forall x :: PairedExit(nodes, id, x) ==> x in rest
        decreases rest
      {
        var x :| x in rest;
        if nodes[x].role == ExitNode && nodes[x].entry == Some(id) { return Some(x); }
        rest := rest - {x};
      }
      return None;
    }

    /** A node becomes active only if it is admissible and, being an entry, has an active exit; an
        admissible node does unless it is an entry with no exit or one that is not active. Nothing
        else about the fleet changes. */
    method Activate(id: string, req: Request, accounts: map<UserId, Account>, subs: map<SubId, Subscription>, now: Time)
      returns (failure: Option<Failure>)
      modifies this
      ensures failure == Some(NotFound) <==> id !in old(nodes)
      ensures failure.Some? ==> nodes == old(nodes)
      ensures failure.None? ==>
        && nodes == old(nodes)[id := old(nodes)[id].(status := NodeActive)] && Admissible(old(nodes)[id], req, accounts, subs, now)
        && (old(nodes)[id].role == EntryNode ==> exists x :: PairedExit(old(nodes), id, x) && old(nodes)[x].status == NodeActive)
      ensures failure == Some(Conflict) ==>
        || !Admissible(old(nodes)[id], req, accounts, subs, now)
        || (old(nodes)[id].role == EntryNode
            && !((exists x :: PairedExit(old(nodes), id, x)) && forall x :: PairedExit(old(nodes), id, x) ==> old(nodes)[x].status == NodeActive))
      ensures failure.Some? ==> failure.value in {NotFound, Conflict}
    {
      if id !in nodes { return Some(NotFound); }
      var n := nodes[id];
      if n.status != Provisioning { return Some(Conflict); }
      if n.role == ExitNode {
        if n.entry == None || n.entry.value == "" { return Some(Conflict); }
        if !req.evidence { return Some(Conflict); }
      } else {
        var kinds := DistinctEnabledTransportTypes(n.transports);
        if kinds < 2 { return Some(Conflict); }
        var exit := FindExit(id);
        if exit == None || nodes[exit.value].status != NodeActive { return Some(Conflict); }
        var current := CurrentRevision(ScopeFor(n, req), accounts, subs, now);
        if current.Err? || Claimed(n, req) != Some(current.value) { return Some(Conflict); }
      }
      nodes := nodes[id := n.(status := NodeActive)];
      return None;
    }
  }

  /** The revision of the users entitled now; it fails exactly on an entitled user without password. */
  method CurrentRevision(scope: Scope, accounts: map<UserId, Account>, subs: map<SubId, Subscription>, now: Time)
    returns (r: Result<seq<int>, Failure>)
    ensures forall revision :: UpToDate(accounts, subs, now, revision, scope) <==> r == Ok(revision)
  {
    ghost var users;
    if scope == Access {
      var snapshot, order := EligibleAccessUsers(accounts, subs, now);
      if snapshot.Err? { return Err(Conflict); }
      users := snapshot.value.users;
      r := Ok(snapshot.value.revision);
    } else {
      var listed := EligibleRealityUsers(accounts, subs, now);
      users := listed;
      var revision := Revisions.Revision(listed);
      r := Ok(revision);
    }
    forall revision ensures UpToDate(accounts, subs, now, revision, scope) <==> r == Ok(revision) {
      assert Eligible(accounts, subs, now, users, scope);
      forall others | Eligible(accounts, subs, now, others, scope) && Revisions.RevisionOf(others, revision) ensures revision == r.value {
        EligibleIsUnique(accounts, subs, now, users, others, scope);
        Revisions.RevisionIsOfUsers(users, others, r.value, revision);
      }
    }
  }

  /** All lists of the entitled users hold the same credentials, each as often. */
  lemma EligibleIsUnique(accounts: map<UserId, Account>, subs: map<SubId, Subscription>, now: Time,
                         a: seq<Revisions.User>, b: seq<Revisions.User>, scope: Scope)
    requires Eligible(accounts, subs, now, a, scope) && Eligible(accounts, subs, now, b, scope)
    ensures multiset(a) == multiset(b)
  {
    var who := EntitledSet(accounts, subs, now);
    var x :| Lists(accounts, who, x, a, scope);
    var y :| Lists(accounts, who, y, b, scope);
    SameListing(accounts, who, x, a, y, b, scope);
  }

  lemma {:induction false} SameListing(accounts: map<UserId, Account>, who: set<UserId>, x: seq<UserId>, a: seq<Revisions.User>,
                                       y: seq<UserId>, b: seq<Revisions.User>, scope: Scope)
    requires Lists(accounts, who, x, a, scope) && Lists(accounts, who, y, b, scope)
    ensures multiset(a) == multiset(b)
    decreases |x|
  {
    hide Lists;
    if who == {} {
      FirstIsListed(accounts, who, x, a, scope);
      FirstIsListed(accounts, who, y, b, scope);
    } else {
      var u :| u in who;
      var i, c := Without(accounts, who, x, a, u, scope);
      var j, d := Without(accounts, who, y, b, u, scope);
      SameListing(accounts, who - {u}, i, c, j, d, scope);
    }
  }

  lemma FirstIsListed(accounts: map<UserId, Account>, who: set<UserId>, order: seq<UserId>, users: seq<Revisions.User>, scope: Scope)
    requires Lists(accounts, who, order, users, scope)
    ensures |order| == |users| && (users != [] ==> order[0] in who)
  {
    if users != [] { assert order[0] in order; }
  }

  function Drop<T>(s: seq<T>, j: nat): seq<T>
    requires j < |s|
  {
    s[..j] + s[j + 1..]
  }

  lemma DropOne<T>(s: seq<T>, j: nat)
    requires j < |s|
    ensures multiset(s) == multiset(Drop(s, j)) + multiset{s[j]}
  {
    assert s == s[..j] + [s[j]] + s[j + 1..];
  }

  /** A listing without one of those listed. */
  lemma Without(accounts: map<UserId, Account>, who: set<UserId>, order: seq<UserId>, users: seq<Revisions.User>, u: UserId, scope: Scope)
    returns (rest: seq<UserId>, others: seq<Revisions.User>)
    requires Lists(accounts, who, order, users, scope) && u in who
    ensures Lists(accounts, who - {u}, rest, others, scope) && |rest| < |order|
    ensures u in accounts && multiset(users) == multiset(others) + multiset{Credentials(accounts[u], scope)}
  {
    hide Credentials, Drop;
    var j :| 0 <= j < |order| && order[j] == u;
    rest, others := Drop(order, j), Drop(users, j);
    DropOne(users, j);
    DropKeepsOthers(order, j);
    DropAt(order, j);
    DropAt(users, j);
  }

  lemma DropAt<T>(s: seq<T>, j: nat)
    requires j < |s|
    ensures |Drop(s, j)| == |s| - 1
    ensures forall i :: 0 <= i < |s| - 1 ==> Drop(s, j)[i] == s[if i < j then i else i + 1]
  {
  }

  lemma DropKeepsOthers(order: seq<UserId>, j: nat)
    requires j < |order| && forall i, k :: 0 <= i < k < |order| ==> order[i] != order[k]
    ensures forall u :: u in Drop(order, j) <==> u in order && u != order[j]
  {
    var rest := Drop(order, j);
    forall u | u in order && u != order[j] ensures u in rest {
      var i :| 0 <= i < |order| && order[i] == u;
      assert u == if i < j then rest[i] else rest[i - 1];
    }
  }

  /** No credential is longer than its length prefix can say. */
  ghost predicate AccountsSized(accounts: map<UserId, Account>) {
    forall u, scope: Scope :: u in accounts ==> Revisions.Sized(Width(scope), [Credentials(accounts[u], scope)])
  }

  lemma EligibleIsSized(accounts: map<UserId, Account>, subs: map<SubId, Subscription>, now: Time, users: seq<Revisions.User>, scope: Scope)
    requires AccountsSized(accounts) && Eligible(accounts, subs, now, users, scope)
    ensures Revisions.Sized(Width(scope), users)
  {
    var order :| Lists(accounts, EntitledSet(accounts, subs, now), order, users, scope);
    forall i | 0 <= i < |users| ensures Revisions.Sized(Width(scope), [users[i]]) && users[i] == [users[i]][0] {
      assert order[i] in accounts;
    }
  }

  /** What the gate is for: a revision passes exactly if the list the node has synced holds the
      credentials of the users entitled now, each as often, and nobody else's. */
  lemma GateMeansEligibleUsers(accounts: map<UserId, Account>, subs: map<SubId, Subscription>, now: Time,
                               synced: seq<Revisions.User>, revision: seq<int>, scope: Scope)
    requires AccountsSized(accounts) && Revisions.Sized(Width(scope), synced) && Revisions.RevisionOf(synced, revision)
    requires scope == Access ==> forall u :: u in EntitledSet(accounts, subs, now) ==> accounts[u].password != ""
    ensures UpToDate(accounts, subs, now, revision, scope) <==>
      exists users :: Eligible(accounts, subs, now, users, scope) && multiset(synced) == multiset(users)
  {
    if UpToDate(accounts, subs, now, revision, scope) {
      var users :| Eligible(accounts, subs, now, users, scope) && Revisions.RevisionOf(users, revision);
      EligibleIsSized(accounts, subs, now, users, scope);
      Revisions.RevisionsAgree(Width(scope), synced, users, revision, revision);
    }
    forall users | Eligible(accounts, subs, now, users, scope) && multiset(synced) == multiset(users)
      ensures UpToDate(accounts, subs, now, revision, scope)
    {
      Revisions.SameRevision(synced, users, revision);
    }
  }

  /** So the list a node synced, if its revision passes the gate, holds the users of the current
      snapshot and no others, each as often. */
  lemma GateMeansSameUsers(synced: seq<Revisions.User>, snapshot: Snapshot, revision: seq<int>)
    requires Revisions.Sized(3, synced) && Revisions.Sized(3, snapshot.users)
    requires Revisions.RevisionOf(synced, revision) && Revisions.RevisionOf(snapshot.users, snapshot.revision)
    ensures revision == snapshot.revision <==> multiset(synced) == multiset(snapshot.users)
  {
    Revisions.RevisionsAgree(3, synced, snapshot.users, revision, snapshot.revision);
  }
}
