/** The block recommendations telemetry derives from the orchestrator's own probes. */
module Feedback {
  import opened Prelude
  import Planner
  import Revisions

  datatype HealthEvent = HealthEvent(node: string, status: Planner.Health, regions: seq<string>, observedAt: Time)

  /** A probe inside the window that saw the node blocked or unreachable. */
  predicate Bad(e: HealthEvent, now: Time, window: Time) {
    now - window <= e.observedAt <= now && e.status in {Planner.Blocked, Planner.Unreachable}
  }

  predicate Names(e: HealthEvent, now: Time, window: Time, node: string, region: string) {
    Bad(e, now, window) && e.node == node && region != "" && region in e.regions
  }

  ghost predicate Reported(health: seq<HealthEvent>, now: Time, window: Time, node: string, region: string) {
    exists i :: 0 <= i < |health| && Names(health[i], now, window, node, region)
  }

  /** In strict order, so without repetition. */
  ghost predicate Rising(list: seq<string>) {
    forall i, j :: 0 <= i < j < |list| ==> Revisions.Before(list[i], list[j])
  }

  method Insert(list: seq<string>, s: string) returns (longer: seq<string>)
    requires Rising(list) && s !in list
    ensures Rising(longer) && forall x :: x in longer <==> x == s || x in list
  {
    var at := 0;
    while at < |list| && Revisions.Before(list[at], s)
      invariant 0 <= at <= |list| && forall i :: 0 <= i < at ==> Revisions.Before(list[i], s)
    {
      at := at + 1;
    }
    longer := list[..at] + [s] + list[at..];
    assert list == list[..at] + list[at..];
    forall i, j | 0 <= i < j < |longer| ensures Revisions.Before(longer[i], longer[j]) {
      if i == at {
        assert longer[j] == list[j - 1];
        Revisions.OneWay(s, list[at]);
        if j - 1 > at { Revisions.Chain(s, list[at], list[j - 1]); }
      } else if j != at {
        var x, y := if i < at then i else i - 1, if j < at then j else j - 1;
        assert longer[i] == list[x] && longer[j] == list[y];
      }
    }
  }

  method SortStrings(s: set<string>) returns (list: seq<string>)
    ensures Rising(list) && forall x :: x in list <==> x in s
  {
    list := [];
    var rest := s;
    while rest != {}
      invariant rest <= s && Rising(list) && forall x :: x in list <==> x in s && x !in rest
      decreases rest
    {
      var x :| x in rest;
      list := Insert(list, x);
      rest := rest - {x};
    }
  }

  /** One block per node some probe reported, in order of the nodes, with exactly the regions that
      were reported for it. */
  method NodeBlocks(health: seq<HealthEvent>, now: Time, window: Time) returns (out: seq<Planner.Block>)
    ensures forall i, j :: 0 <= i < j < |out| ==> Revisions.Before(out[i].node, out[j].node)
    ensures Planner.DistinctBlocks(out)
    ensures forall i :: 0 <= i < |out| ==> out[i].confidence == Planner.Authoritative && |out[i].regions| > 0 && Rising(out[i].regions)
    ensures forall node, region :: Reported(health, now, window, node, region) <==>
      exists i :: 0 <= i < |out| && out[i].node == node && region in out[i].regions
  {
    var regions := Collect(health, now, window);
    var nodes := SortStrings(regions.Keys);
    out := [];
    for n := 0 to |nodes|
      invariant |out| == n && forall i :: 0 <= i < n ==>
        && out[i].node == nodes[i] && out[i].confidence == Planner.Authoritative && |out[i].regions| > 0
        && Rising(out[i].regions) && forall r :: r in out[i].regions <==> r in regions[nodes[i]]
    {
      var list := SortStrings(regions[nodes[n]]);
      var some :| some in regions[nodes[n]];
      assert some in list;
      out := out + [Planner.Block(true, nodes[n], list, Planner.Authoritative)];
    }
    forall i, j | 0 <= i < j < |out| ensures out[i].node != out[j].node { Revisions.OneWay(nodes[i], nodes[j]); }
    forall node, region ensures Reported(health, now, window, node, region) <==>
      exists i :: 0 <= i < |out| && out[i].node == node && region in out[i].regions
    {
      if Reported(health, now, window, node, region) {
        assert node in nodes;
        var i :| 0 <= i < |nodes| && nodes[i] == node;
        assert out[i].node == node && region in out[i].regions;
      }
    }
  }

  /** The regions reported per node. */
  method Collect(health: seq<HealthEvent>, now: Time, window: Time) returns (regions: map<string, set<string>>)
    ensures forall node, region :: Reported(health, now, window, node, region) <==> node in regions && region in regions[node]
    ensures forall node :: node in regions ==> regions[node] != {}
  {
    regions := map[];
    for n := 0 to |health|
      invariant forall node, region :: Reported(health[..n], now, window, node, region) <==> node in regions && region in regions[node]
      invariant forall node :: node in regions ==> regions[node] != {}
    {
      var e := health[n];
      ghost var before := regions;
      if Bad(e, now, window) {
        var named := Regions(e.regions);
        if named != {} { regions := regions[e.node := (if e.node in regions then regions[e.node] else {}) + named]; }
        assert forall r :: r in named <==> Names(e, now, window, e.node, r);
      }
      forall node, region ensures Reported(health[..n + 1], now, window, node, region) <==> node in regions && region in regions[node] {
        ReportedNext(health, n, now, window, node, region);
        assert Reported(health[..n], now, window, node, region) <==> node in before && region in before[node];
      }
    }
    assert health[..|health|] == health;
  }

  /** The regions of one event; an empty name is skipped. */
  method Regions(list: seq<string>) returns (named: set<string>)
    ensures forall r :: r in named <==> r != "" && r in list
  {
    named := {};
    for i := 0 to |list|
      invariant forall r :: r in named <==> r != "" && r in list[..i]
    {
      if list[i] != "" { named := named + {list[i]}; }
    }
    assert list[..|list|] == list;
  }

  lemma ReportedNext(health: seq<HealthEvent>, n: nat, now: Time, window: Time, node: string, region: string)
    requires n < |health|
    ensures Reported(health[..n + 1], now, window, node, region) <==>
      Reported(health[..n], now, window, node, region) || Names(health[n], now, window, node, region)
  {
    hide Names;
    var shorter, longer := health[..n], health[..n + 1];
    assert longer[n] == health[n];
    if Reported(longer, now, window, node, region) {
      var i :| 0 <= i < |longer| && Names(longer[i], now, window, node, region);
      if i < n { assert shorter[i] == longer[i]; }
    }
    if Reported(shorter, now, window, node, region) {
      var i :| 0 <= i < |shorter| && Names(shorter[i], now, window, node, region);
      assert longer[i] == shorter[i];
    }
  }

  /** So a plan made from telemetry's recommendations has at most one action per node. */
  method PlanFromProbes(health: seq<HealthEvent>, now: Time, window: Time, input: Planner.Input, th: Planner.Thresholds)
    returns (plan: seq<Planner.Action>)
    ensures forall i, j :: 0 <= i < j < |plan| ==> plan[i].node != plan[j].node
  {
    var blocks := NodeBlocks(health, now, window);
    var fed := input.(blocks := blocks);
    Planner.OneActionPerNode(fed, th);
    plan := Planner.Plan(fed, th);
  }
}
