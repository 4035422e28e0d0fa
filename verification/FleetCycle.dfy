/** One reconcile cycle over the fleet: the plan carried out action by action through scripts and
    registry writes, stopping at the first failure. What it costs in serving capacity, and what a
    successful cycle has done to the nodes it retired. */
module FleetCycle {
  import opened Prelude
  import opened Planner

  datatype Role = Entry | Exit

  /** A registry record: what the planner sees, and the pairing. */
  datatype Rec = Rec(node: Node, role: Role, entry: Option<string>, ip: string)

  type Fleet = map<string, Rec>

  /** The entries that carry users. */
  function Serving(f: Fleet): set<string> {
    set x | x in f && f[x].role == Entry && f[x].node.status in {Active, Degraded}
  }

  /** The other half of a node's pair: an entry's exits, or an exit's entry. */
  function Halves(listed: Fleet, id: string): set<string>
    requires id in listed
  {
    if listed[id].role == Entry then
      set x | x in listed && listed[x].role == Exit && listed[x].entry == Some(id)
    else if listed[id].entry.Some? && listed[id].entry.value != "" && listed[id].entry.value in listed then
      {listed[id].entry.value}
    else {}
  }

  function Drained(r: Rec, now: Time): Rec {
    r.(node := r.node.(status := Draining, drainStarted := Some(now)))
  }

  function Down(r: Rec): Rec {
    r.(node := r.node.(status := Retired))
  }

  /** What the outside does for one action: whether the script succeeded, the registry it leaves,
      the pair a provisioning created, whether it can be read, how many writes succeed. */
  datatype Effect = Effect(ok: bool, after: Fleet, newEntry: string, newExit: string, readable: bool, writes: nat)

  /** Scripts work on the run of the node, that is, on its pair. A rotation refuses anything but an
      entry, and does not bring back an exit that is draining or retired; a teardown retires the
      records of both halves as far as it reaches the registry; provisioning only adds nodes. */
  ghost predicate Behaves(e: Effect, listed: Fleet, f: Fleet, a: Action) {
    match a.kind
    case Rotate => a.node in listed ==> if listed[a.node].role == Exit then !e.ok && e.after == f else Rotates(e, listed, f, a.node)
    case Retire => a.node in listed ==> TearsDown(e, listed, f, a.node)
    case Replace =>
      && (forall x :: x in f ==> x in e.after && e.after[x] == f[x])
      && e.newEntry !in f && e.newExit !in f && (e.newEntry in e.after ==> e.after[e.newEntry].role == Entry)
    case _ => true
  }

  ghost predicate Rotates(e: Effect, listed: Fleet, f: Fleet, id: string)
    requires id in listed
  {
    forall x :: x in f ==>
      && x in e.after && e.after[x].role == f[x].role
      && (x == id || e.after[x] == f[x]
          || (x in Halves(listed, id) && f[x].node.status !in {Draining, Retired} && e.after[x].node.status !in {Draining, Retired}))
  }

  ghost predicate TearsDown(e: Effect, listed: Fleet, f: Fleet, id: string)
    requires id in listed
  {
    forall x :: x in f ==>
      x in e.after && (e.after[x] == f[x] || ((x == id || x in Halves(listed, id)) && e.after[x] == Down(f[x])))
  }

  /** The node to drain and its other half, the first one met. */
  method OldPair(id: string, listed: Fleet) returns (pair: seq<string>)
    requires id in listed
    ensures if Halves(listed, id) == {} then pair == [id] else |pair| == 2 && pair[0] == id && pair[1] in Halves(listed, id)
    ensures forall i :: 0 <= i < |pair| ==> pair[i] in listed
  {
    pair := [id];
    if listed[id].role == Entry {
      var exits := set x | x in listed && listed[x].role == Exit && listed[x].entry == Some(id);
      if exits != {} {
        var x :| x in exits;
        pair := [id, x];
      }
    } else if listed[id].entry.Some? && listed[id].entry.value != "" && listed[id].entry.value in listed {
      pair := [id, listed[id].entry.value];
    }
  }

  // ----- what one registry write does to the serving set -----------------------------------------------

  /** Losing at most one node and gaining one leaves at least as many. */
  lemma TradeOne(before: set<string>, after: set<string>, lost: string, gained: string)
    requires before - {lost} <= after && gained !in before && gained in after
    ensures |after| >= |before|
  {
    SubsetSize(before - {lost} + {gained}, after);
    if lost in before { assert before == before - {lost} + {lost}; } else { assert before - {lost} == before; }
  }

  lemma LoseOne(before: set<string>, after: set<string>, lost: string)
    requires before - {lost} <= after
    ensures |after| >= |before| - 1 && (lost in after || lost !in before ==> |after| >= |before|)
  {
    SubsetSize(before - {lost}, after);
    if lost in before { assert before == before - {lost} + {lost}; } else { assert before - {lost} == before; }
    if lost in after { SubsetSize(before, after); }
  }

  /** What the registry showed when the cycle began, as the planner's input. */
  ghost predicate ListedAs(listed: Fleet, input: Input) {
    && DistinctIds(input.nodes)
    && (forall x :: x in listed ==> listed[x].node.id == x)
    && (forall k :: 0 <= k < |input.nodes| ==> input.nodes[k].id in listed && listed[input.nodes[k].id].node == input.nodes[k])
    && (forall x :: x in listed ==> exists k :: 0 <= k < |input.nodes| && input.nodes[k].id == x)
  }

  /** The kinds of node each action is planned for. */
  predicate Fits(listed: Fleet, a: Action) {
    match a.kind
    case Noop => true
    case MarkDegraded => a.node in listed && listed[a.node].node.status == Active
    case Retire => a.node in listed && listed[a.node].node.status == Draining
    case _ => a.node in listed && listed[a.node].node.status in {Active, Degraded}
  }

  ghost predicate AllFit(listed: Fleet, plan: seq<Action>) {
    forall i :: 0 <= i < |plan| ==> Fits(listed, plan[i])
  }

  lemma {:induction false} IndexIsListed(listed: Fleet, nodes: seq<Node>)
    requires forall k :: 0 <= k < |nodes| ==> nodes[k].id in listed && listed[nodes[k].id].node == nodes[k]
    ensures forall x :: x in Index(nodes) ==> x in listed && listed[x].node == Index(nodes)[x]
  {
    if nodes != [] { IndexIsListed(listed, nodes[..|nodes| - 1]); }
  }

  lemma {:induction false} BlocksFit(listed: Fleet, input: Input, th: Thresholds, k: nat)
    requires ListedAs(listed, input) && k <= |input.blocks|
    ensures AllFit(listed, FromBlocks(input, th, k))
  {
    if k > 0 {
      BlocksFit(listed, input, th, k - 1);
      DecisionFits(listed, input, th, input.blocks[k - 1]);
    }
  }

  lemma DecisionFits(listed: Fleet, input: Input, th: Thresholds, b: Block)
    requires ListedAs(listed, input)
    ensures Fits(listed, Action(Decision(input, th, Index(input.nodes), b), b.node, b.regions, None))
  {
    hide GatePassed, RecsFresh, Index;
    IndexIsListed(listed, input.nodes);
    if b.node in Index(input.nodes) { StatusCases(Index(input.nodes)[b.node].status); }
  }

  lemma StatusCases(s: Status)
    ensures s in {Draining, Retired, Provisioning} || s == Active || s == Degraded
  {
  }

  lemma {:induction false} RotationsFit(listed: Fleet, input: Input, base: seq<Action>, k: nat)
    requires ListedAs(listed, input) && AllFit(listed, base) && k <= |input.nodes|
    ensures AllFit(listed, WithRotations(input, base, k))
  {
    if k > 0 {
      RotationsFit(listed, input, base, k - 1);
      assert RotationDue(input, input.nodes[k - 1]) ==> Fits(listed, Action(Planner.Rotate, input.nodes[k - 1].id, [], None));
    }
  }

  lemma {:induction false} RetiresFit(listed: Fleet, input: Input, th: Thresholds, base: seq<Action>, k: nat)
    requires ListedAs(listed, input) && AllFit(listed, base) && k <= |input.nodes|
    ensures AllFit(listed, WithRetires(input, th, base, k))
  {
    if k > 0 {
      RetiresFit(listed, input, th, base, k - 1);
      var n := input.nodes[k - 1];
      assert RetireDue(input, th, n) ==> Fits(listed, Action(Planner.Retire, n.id, [], None));
    }
  }

  /** Rotations, replacements and degradations are planned for serving nodes, retirements for
      draining ones. */
  lemma PlanFits(listed: Fleet, input: Input, th: Thresholds)
    requires ListedAs(listed, input)
    ensures AllFit(listed, PlanOf(input, th))
  {
    hide Fits, FromBlocks, WithRotations, WithRetires, Ordered, SideCount;
    var blocks := FromBlocks(input, th, |input.blocks|);
    BlocksFit(listed, input, th, |input.blocks|);
    RotationsFit(listed, input, blocks, |input.nodes|);
    RetiresFit(listed, input, th, WithRotations(input, blocks, |input.nodes|), |input.nodes|);
    var wanted, plan := Wanted(input, th), PlanOf(input, th);
    OrderedIsStableSort(wanted);
    forall i | 0 <= i < |plan| ensures Fits(listed, plan[i]) {
      assert Ordered(wanted)[i] in multiset(wanted);
      var j :| 0 <= j < |wanted| && wanted[j] == Ordered(wanted)[i];
      DeferredFits(listed, Ordered(wanted)[i]);
    }
  }

  lemma DeferredFits(listed: Fleet, a: Action)
    ensures Fits(listed, Deferred(a))
  {
  }

  // ----- the cycle ------------------------------------------------------------------------------------------

  /** What did not serve when the cycle began does not start to, and nobody changes sides. */
  ghost predicate InStep(listed: Fleet, f: Fleet) {
    && (forall x :: x in listed && listed[x].node.status !in {Active, Degraded} ==> x !in Serving(f))
    && (forall x :: x in listed ==> x in f && f[x].role == listed[x].role)
  }

  /** A retirement of a draining exit whose entry still serves: the teardown takes the entry along. */
  predicate Costly(listed: Fleet, a: Action) {
    && a.kind == Retire && a.node in listed && listed[a.node].role == Exit
    && exists y :: y in Halves(listed, a.node) && y in Serving(listed)
  }

  function CostlyCount(listed: Fleet, plan: seq<Action>): nat {
    if plan == [] then 0
    else CostlyCount(listed, plan[..|plan| - 1]) + if Costly(listed, plan[|plan| - 1]) then 1 else 0
  }

  /** What a successful action has done to the listed nodes. */
  ghost predicate Did(listed: Fleet, f: Fleet, g: Fleet, a: Action, now: Time)
    requires a.kind != Noop ==> a.node in listed
  {
    && (forall x :: x in listed ==> x in f && x in g)
    && match a.kind
       case Noop => forall x :: x in listed ==> g[x] == f[x]
       case MarkDegraded =>
         forall x :: x in listed ==> g[x] == f[x] || (x == a.node && g[x].node.status == Degraded)
       case Rotate =>
         forall x :: x in listed ==>
           || g[x] == f[x] || (x == a.node && g[x].node.status == Active)
           || (f[x].node.status !in {Draining, Retired} && g[x].node.status !in {Draining, Retired})
       case Retire =>
         && g[a.node].node.status == Retired
         && forall x :: x in listed ==> g[x] == f[x] || g[x].node.status == Retired
       case Replace =>
         && g[a.node] == Drained(listed[a.node], now)
         && (forall x :: Halves(listed, a.node) == {x} ==> x in listed && g[x] == Drained(listed[x], now))
         && forall x :: x in listed ==>
              g[x] == f[x] || ((x == a.node || x in Halves(listed, a.node)) && g[x] == Drained(listed[x], now))
  }

  /** A retirement counts as done although the registry cannot be read back; then the script must
      have reached it. */
  predicate ReadBack(e: Effect, a: Action) {
    a.kind == Retire && a.node in e.after ==> e.readable || e.after[a.node].node.status == Retired
  }

  /** One registry write of a listed record with a new status. */
  lemma WriteListed(listed: Fleet, f: Fleet, id: string, r: Rec)
    requires InStep(listed, f) && id in listed && r.role == listed[id].role
    requires r.node.status in {Active, Degraded} ==> listed[id].node.status in {Active, Degraded}
    ensures InStep(listed, f[id := r]) && Serving(f) - {id} <= Serving(f[id := r])
    ensures r.role == Entry && r.node.status in {Active, Degraded} ==> id in Serving(f[id := r])
    ensures r.role == Exit ==> Serving(f) <= Serving(f[id := r])
  {
  }

  lemma RotateSteps(listed: Fleet, f: Fleet, e: Effect, a: Action)
    requires InStep(listed, f) && a.kind == Rotate && Behaves(e, listed, f, a) && Fits(listed, a)
    ensures InStep(listed, e.after) && Serving(f) - {a.node} <= Serving(e.after)
  {
    if listed[a.node].role == Entry {
      forall x | x in f ensures x in e.after && (x == a.node || e.after[x] == f[x] || f[x].role == e.after[x].role == Exit) {
        assert x in Halves(listed, a.node) ==> listed[x].role == Exit;
      }
      forall x | x in listed && listed[x].node.status !in {Active, Degraded} ensures x !in Serving(e.after) {
        assert x != a.node && x !in Serving(f);
      }
    }
  }

  lemma RetireSteps(listed: Fleet, f: Fleet, e: Effect, a: Action)
    requires InStep(listed, f) && a.kind == Retire && Behaves(e, listed, f, a) && Fits(listed, a)
    ensures InStep(listed, e.after) && a.node !in Serving(f)
    ensures !Costly(listed, a) ==> Serving(f) <= Serving(e.after)
    ensures Costly(listed, a) ==> exists y :: Serving(f) - {y} <= Serving(e.after)
  {
    assert forall x :: x in e.after && x in f && e.after[x] == Down(f[x]) ==> x !in Serving(e.after);
    if listed[a.node].role == Exit && Halves(listed, a.node) != {} {
      var y := listed[a.node].entry.value;
      assert Halves(listed, a.node) == {y};
      assert y !in Serving(listed) ==> y !in Serving(f);
      assert Serving(f) - {y} <= Serving(e.after);
    }
  }

  lemma NodeUpSteps(listed: Fleet, f: Fleet, e: Effect, a: Action)
    requires InStep(listed, f) && a.kind == Replace && Behaves(e, listed, f, a)
    ensures InStep(listed, e.after) && Serving(f) <= Serving(e.after)
    ensures e.newEntry in e.after && e.after[e.newEntry].node.status == Active ==>
      e.newEntry in Serving(e.after) && e.newEntry !in Serving(f)
  {
  }

  /** A write that changes neither side nor status changes no service. */
  lemma SameServing(f: Fleet, id: string, r: Rec)
    requires id in f && r.role == f[id].role && r.node.status == f[id].node.status
    ensures Serving(f[id := r]) == Serving(f)
  {
    var g := f[id := r];
    assert forall x :: x in Serving(f) <==> x in Serving(g);
  }

  lemma StillServing(f: Fleet, id: string, r: Rec, other: string)
    requires other in Serving(f) && other != id
    ensures other in Serving(f[id := r])
  {
  }

  /** Of a pair at most one half carries users, so draining both costs at most one. */
  lemma PairCostsOne(listed: Fleet, f: Fleet, middle: Fleet, after: Fleet, a: string, b: string, gained: string)
    requires InStep(listed, f) && a in listed && b in listed && (listed[a].role == Entry ==> listed[b].role == Exit)
    requires Serving(f) - {a} <= Serving(middle) && Serving(middle) - {b} <= Serving(after)
    requires gained !in Serving(f) && gained in Serving(after)
    ensures |Serving(after)| >= |Serving(f)|
  {
    if listed[a].role == Entry {
      assert b !in Serving(f);
      TradeOne(Serving(f), Serving(after), a, gained);
    } else {
      assert a !in Serving(f);
      TradeOne(Serving(f), Serving(after), b, gained);
    }
  }

  class Loop {
    var fleet: Fleet

    /** One action. A serving entry is lost only to a failed rotation, which was working on it, or to
        the teardown of its own draining exit. */
    method Execute(a: Action, e: Effect, listed: Fleet, now: Time, interval: Time) returns (ok: bool)
      requires Fits(listed, a) && a.kind != Noop && Behaves(e, listed, fleet, a) && InStep(listed, fleet)
      modifies this
      ensures InStep(listed, fleet)
      ensures |Serving(fleet)| >= |Serving(old(fleet))| - if (a.kind == Rotate && !ok) || Costly(listed, a) then 1 else 0
      ensures ok && ReadBack(e, a) ==> Did(listed, old(fleet), fleet, a, now)
    {
      match a.kind
      case MarkDegraded => ok := DoMarkDegraded(a, e, listed, now);
      case Rotate => ok := DoRotate(a, e, listed, now, interval);
      case Replace => ok := DoReplace(a, e, listed, now);
      case Retire => ok := DoRetire(a, e, listed, now);
    }

    method DoMarkDegraded(a: Action, e: Effect, listed: Fleet, now: Time) returns (ok: bool)
      requires Fits(listed, a) && a.kind == MarkDegraded && InStep(listed, fleet)
      modifies this
      ensures InStep(listed, fleet) && |Serving(fleet)| >= |Serving(old(fleet))|
      ensures ok ==> a.node in fleet && fleet[a.node].node.status == Degraded && Did(listed, old(fleet), fleet, a, now)
    {
      hide Halves, Serving;
      if e.writes == 0 { return false; }
      var r := listed[a.node];
      r := r.(node := r.node.(status := Degraded));
      WriteListed(listed, fleet, a.node, r);
      WasServing(listed, fleet, a.node, r);
      LoseOne(Serving(fleet), Serving(fleet[a.node := r]), a.node);
      fleet := fleet[a.node := r];
      return true;
    }

    /** The script replaces the entry address and activates the node again; the loop verifies both
        before it sets the next date. */
    method DoRotate(a: Action, e: Effect, listed: Fleet, now: Time, interval: Time) returns (ok: bool)
      requires Fits(listed, a) && a.kind == Rotate && Behaves(e, listed, fleet, a) && InStep(listed, fleet)
      modifies this
      ensures InStep(listed, fleet) && |Serving(fleet)| >= |Serving(old(fleet))| - if ok then 0 else 1
      ensures ok ==> a.node in fleet && fleet[a.node].ip != listed[a.node].ip && fleet[a.node].node.status == Active
                     && fleet[a.node].node.rotateAfter.Some? && fleet[a.node].node.rotateAfter.value > now
      ensures ok ==> Did(listed, old(fleet), fleet, a, now)
    {
      hide Halves, Serving;
      ghost var before := fleet;
      RotateSteps(listed, fleet, e, a);
      fleet := e.after;
      LoseOne(Serving(before), Serving(fleet), a.node);
      if !e.ok || !e.readable || a.node !in fleet { return false; }
      var after := fleet[a.node];
      if after.ip == listed[a.node].ip || after.node.status != Active || e.writes == 0 { return false; }
      var next := now + if interval <= 0 then 86_400_000_000_000 else interval;
      var r := after.(node := after.node.(rotateAfter := Some(next)));
      WriteListed(listed, fleet, a.node, r);
      SameServing(fleet, a.node, r);
      RotatedServes(listed, before, fleet, a.node);
      fleet := fleet[a.node := r];
      return true;
    }

    /** The replacement is up and active before the old pair starts to drain. */
    method DoReplace(a: Action, e: Effect, listed: Fleet, now: Time) returns (ok: bool)
      requires Fits(listed, a) && a.kind == Replace && Behaves(e, listed, fleet, a) && InStep(listed, fleet)
      modifies this
      ensures InStep(listed, fleet) && |Serving(fleet)| >= |Serving(old(fleet))|
      ensures (exists x :: x in listed && x in old(fleet) && x in Serving(old(fleet)) && x !in Serving(fleet)) ==>
        e.newEntry in fleet && fleet[e.newEntry].node.status == Active && e.newExit in fleet && fleet[e.newExit].node.status == Active
      ensures ok ==> a.node in fleet && fleet[a.node] == Drained(listed[a.node], now) && e.newEntry in Serving(fleet)
      ensures ok ==> Did(listed, old(fleet), fleet, a, now)
    {
      hide Halves;
      ghost var start := fleet;
      NodeUpSteps(listed, fleet, e, a);
      fleet := e.after;
      SubsetSize(Serving(start), Serving(fleet));
      if !e.ok || !e.readable { return false; }
      if e.newEntry !in fleet || fleet[e.newEntry].node.status != Active { return false; }
      if e.newExit !in fleet || fleet[e.newExit].node.status != Active { return false; }
      var pair := OldPair(a.node, listed);
      if |pair| == 2 { HalvesAreListed(listed, a.node, pair[1]); }
      if e.writes == 0 { return false; }
      ok := Drain(pair, e, listed, now, start);
      if ok { DrainedPair(listed, start, e.after, fleet, a, pair, now); }
    }

    /** Drains the old pair, one write each; the replacement already serves. */
    method Drain(pair: seq<string>, e: Effect, listed: Fleet, now: Time, ghost start: Fleet) returns (ok: bool)
      requires InStep(listed, start) && InStep(listed, fleet) && Serving(start) <= Serving(fleet)
      requires 1 <= |pair| <= 2 && (forall i :: 0 <= i < |pair| ==> pair[i] in listed)
      requires |pair| == 2 && listed[pair[0]].role == Entry ==> listed[pair[1]].role == Exit
      requires e.newEntry in Serving(fleet) && e.newEntry !in Serving(start) && e.newEntry !in listed && e.newExit !in listed
      modifies this
      ensures InStep(listed, fleet) && |Serving(fleet)| >= |Serving(start)|
      ensures forall x :: x !in pair && x in old(fleet) ==> x in fleet && fleet[x] == old(fleet)[x]
      ensures ok ==> forall i :: 0 <= i < |pair| ==> pair[i] in fleet && fleet[pair[i]] == Drained(listed[pair[i]], now)
    {
      hide Serving, InStep;
      var first := Drained(listed[pair[0]], now);
      WriteListed(listed, fleet, pair[0], first);
      StillServing(fleet, pair[0], first, e.newEntry);
      TradeOne(Serving(start), Serving(fleet[pair[0] := first]), pair[0], e.newEntry);
      fleet := fleet[pair[0] := first];
      if |pair| == 1 { return true; }
      if e.writes <= 1 { return false; }
      var second := Drained(listed[pair[1]], now);
      WriteListed(listed, fleet, pair[1], second);
      StillServing(fleet, pair[1], second, e.newEntry);
      PairCostsOne(listed, start, fleet, fleet[pair[1] := second], pair[0], pair[1], e.newEntry);
      fleet := fleet[pair[1] := second];
      return true;
    }

    /** A success leaves the node retired, unless neither the script nor the loop reached the registry. */
    method DoRetire(a: Action, e: Effect, listed: Fleet, now: Time) returns (ok: bool)
      requires Fits(listed, a) && a.kind == Retire && Behaves(e, listed, fleet, a) && InStep(listed, fleet)
      modifies this
      ensures InStep(listed, fleet) && |Serving(fleet)| >= |Serving(old(fleet))| - if Costly(listed, a) then 1 else 0
      ensures ok ==> a.node in fleet && (fleet[a.node].node.status == Retired <==> a.node in e.after && ReadBack(e, a))
      ensures ok && ReadBack(e, a) ==> Did(listed, old(fleet), fleet, a, now)
    {
      hide Halves, Serving, Costly;
      ghost var before := fleet;
      RetireSteps(listed, fleet, e, a);
      fleet := e.after;
      TeardownCosts(listed, Serving(before), Serving(fleet), a);
      if !e.ok { return false; }
      if e.readable && a.node in fleet && fleet[a.node].node.status != Retired {
        if e.writes == 0 { return false; }
        var r := fleet[a.node];
        r := r.(node := r.node.(status := Retired));
        WriteListed(listed, fleet, a.node, r);
        assert Serving(fleet) <= Serving(fleet[a.node := r]) by { InStepMeans(listed, fleet, a.node); }
        SubsetSize(Serving(fleet), Serving(fleet[a.node := r]));
        fleet := fleet[a.node := r];
      }
      return true;
    }

    /** The planned actions in order, up to the first failure. Whatever the scripts do, the cycle
        carries out at most the limit, and the fleet ends with at least as many serving entries as it
        began with, less one if a rotation failed on the way and less one for every teardown of a
        draining exit whose entry still serves. A cycle that succeeds has completed its plan. */
    method Cycle(input: Input, th: Thresholds, listed: Fleet, effects: (nat, Fleet) -> Effect, interval: Time)
      returns (executed: nat, ok: bool)
      requires ListedAs(listed, input) && fleet == listed
      requires forall i, f :: 0 <= i < |PlanOf(input, th)| ==> Behaves(effects(i, f), listed, f, PlanOf(input, th)[i])
      modifies this
      ensures executed <= Limit(th)
      ensures |Serving(fleet)| >= |Serving(old(fleet))| - CostlyCount(listed, PlanOf(input, th)) - if ok then 0 else 1
      ensures forall x :: x in listed ==> x in fleet && fleet[x].role == listed[x].role
      ensures ok && AllReadBack(effects, PlanOf(input, th)) ==> Completed(listed, input, th, fleet)
    {
      hide PlanOf, Fits, Behaves, Serving, SideCount, Capped, Ordered, Halves, Costly, Did, Reached, ReadBack, CostlyCount;
      PlanFits(listed, input, th);
      PlanIsSorted(input, th);
      InStepAtFirst(listed);
      NothingReached(listed, PlanOf(input, th), input.now);
      var plan := Plan(input, th);
      executed := 0;
      for i := 0 to |plan|
        invariant InStep(listed, fleet) && |Serving(fleet)| >= |Serving(old(fleet))| - CostlyCount(listed, plan[..i])
        invariant executed <= SideCount(plan[..i])
        invariant AllReadBack(effects, plan) ==> Reached(listed, plan, i, fleet, input.now)
      {
        var a := plan[i];
        CountsNext(listed, plan, i);
        CostlyCountGrows(listed, plan, i + 1);
        if a.kind != Noop {
          ghost var before := fleet;
          var done := Execute(a, effects(i, fleet), listed, input.now, interval);
          if !done {
            CapBounds(input, th, plan, i);
            return executed, false;
          }
          if AllReadBack(effects, plan) { DidReaches(listed, plan, i, before, fleet, input.now); }
          if a.kind != MarkDegraded { executed := executed + 1; }
        } else {
          if AllReadBack(effects, plan) { NoopReaches(listed, plan, i, fleet, input.now); }
        }
      }
      CapBounds(input, th, plan, |plan|);
      CostlyCountGrows(listed, plan, |plan|);
      return executed, true;
    }
  }

  // ----- facts the methods use ------------------------------------------------------------------------------

  lemma InStepAtFirst(listed: Fleet)
    ensures InStep(listed, listed)
  {
  }

  lemma InStepMeans(listed: Fleet, f: Fleet, id: string)
    requires InStep(listed, f) && id in listed && listed[id].node.status == Draining
    ensures id !in Serving(f)
  {
  }

  lemma WasServing(listed: Fleet, f: Fleet, id: string, r: Rec)
    requires InStep(listed, f) && id in listed && r.role == listed[id].role && r.node.status == Degraded
    ensures id in Serving(f) ==> id in Serving(f[id := r])
  {
  }

  lemma RotatedServes(listed: Fleet, f: Fleet, g: Fleet, id: string)
    requires InStep(listed, f) && InStep(listed, g) && id in listed && g[id].node.status == Active
    ensures id in Serving(f) ==> id in Serving(g)
  {
  }

  lemma TeardownCosts(listed: Fleet, before: set<string>, after: set<string>, a: Action)
    requires !Costly(listed, a) ==> before <= after
    requires Costly(listed, a) ==> exists y :: before - {y} <= after
    ensures |after| >= |before| - if Costly(listed, a) then 1 else 0
  {
    hide Costly;
    if Costly(listed, a) {
      var y :| before - {y} <= after;
      LoseOne(before, after, y);
    } else {
      SubsetSize(before, after);
    }
  }

  lemma HalvesAreListed(listed: Fleet, id: string, y: string)
    requires id in listed && y in Halves(listed, id)
    ensures y in listed && (listed[id].role == Entry ==> listed[y].role == Exit)
  {
  }

  lemma DrainedPair(listed: Fleet, f: Fleet, mid: Fleet, g: Fleet, a: Action, pair: seq<string>, now: Time)
    requires a.kind == Replace && a.node in listed && InStep(listed, f) && (forall x :: x in f ==> x in mid && mid[x] == f[x])
    requires
      if Halves(listed, a.node) == {} then pair == [a.node]
      else |pair| == 2 && pair[0] == a.node && pair[1] in Halves(listed, a.node)
    requires forall i :: 0 <= i < |pair| ==> pair[i] in listed && pair[i] in g && g[pair[i]] == Drained(listed[pair[i]], now)
    requires forall x :: x !in pair && x in mid ==> x in g && g[x] == mid[x]
    ensures Did(listed, f, g, a, now)
  {
    hide Halves, Serving;
    assert pair[0] == a.node;
    forall x | x in listed
      ensures x in f && x in g
      ensures x in g && (g[x] == f[x] || ((x == a.node || x in Halves(listed, a.node)) && g[x] == Drained(listed[x], now)))
    {
      if x in pair {
        var i :| 0 <= i < |pair| && pair[i] == x;
        assert i == 0 || i == 1;
      }
    }
    forall x | Halves(listed, a.node) == {x} ensures x in listed && g[x] == Drained(listed[x], now) {
      assert |pair| == 2 && pair[1] == x;
    }
  }

  lemma CountsNext(listed: Fleet, plan: seq<Action>, i: nat)
    requires i < |plan|
    ensures SideCount(plan[..i + 1]) == SideCount(plan[..i]) + if SideEffecting(plan[i].kind) then 1 else 0
    ensures CostlyCount(listed, plan[..i + 1]) == CostlyCount(listed, plan[..i]) + if Costly(listed, plan[i]) then 1 else 0
  {
    hide Costly;
    assert plan[..i + 1][..i] == plan[..i];
  }

  lemma {:induction false} CostlyCountGrows(listed: Fleet, plan: seq<Action>, i: nat)
    requires i <= |plan|
    ensures CostlyCount(listed, plan[..i]) <= CostlyCount(listed, plan)
    ensures i == |plan| ==> plan[..i] == plan
    decreases |plan| - i
  {
    hide Costly;
    if i == |plan| {
      assert plan[..i] == plan;
    } else {
      CostlyCountGrows(listed, plan, i + 1);
      CountsNext(listed, plan, i);
    }
  }

  lemma CapBounds(input: Input, th: Thresholds, plan: seq<Action>, i: nat)
    requires plan == PlanOf(input, th) && i <= |plan|
    ensures SideCount(plan[..i]) <= Limit(th)
  {
    hide Capped, Ordered, Wanted, SideCount;
    CapIsFull(input, th);
    SideCountGrows(plan, i, |plan|);
    assert plan[..|plan|] == plan;
  }

  // ----- what a successful cycle has done -------------------------------------------------------------------

  ghost predicate AllReadBack(effects: (nat, Fleet) -> Effect, plan: seq<Action>) {
    forall i, f :: 0 <= i < |plan| ==> ReadBack(effects(i, f), plan[i])
  }

  /** The plan replaces a node whose other half is `x`. */
  ghost predicate Revived(listed: Fleet, plan: seq<Action>, x: string) {
    exists j :: 0 <= j < |plan| && plan[j].kind == Replace && plan[j].node in listed && x in Halves(listed, plan[j].node)
  }

  predicate Leaving(r: Rec) {
    r.node.status in {Draining, Retired}
  }

  /** A node that was draining or retired is as listed, or retired, or written back as draining by a
      replacement of its other half. Any other node that drains begins to now. */
  ghost predicate DrainAccounted(listed: Fleet, plan: seq<Action>, f: Fleet, x: string, now: Time)
    requires x in listed && x in f
  {
    || f[x] == listed[x]
    || (if Leaving(listed[x]) then f[x].node.status == Retired || (f[x] == Drained(listed[x], now) && Revived(listed, plan, x))
        else f[x].node.status != Draining || f[x] == Drained(listed[x], now))
  }

  /** Retired, or written back as draining by a replacement of its other half. */
  ghost predicate Gone(listed: Fleet, plan: seq<Action>, f: Fleet, x: string, now: Time) {
    && x in listed && x in f
    && (f[x].node.status == Retired || (f[x] == Drained(listed[x], now) && Revived(listed, plan, x)))
  }

  /** After the first `i` actions: every node on its way out is accounted for; what was to be
      retired is, unless a replacement of its other half has written its old record back; and a
      replacement has done so whenever there was only one other half to write. */
  ghost predicate Reached(listed: Fleet, plan: seq<Action>, i: nat, f: Fleet, now: Time)
    requires i <= |plan|
  {
    && (forall x :: x in listed ==> x in f && DrainAccounted(listed, plan, f, x, now))
    && (forall k :: 0 <= k < i && plan[k].kind == Retire ==> Gone(listed, plan, f, plan[k].node, now))
    && (forall k, x :: 0 <= k < i && plan[k].kind == Replace && plan[k].node in listed && Halves(listed, plan[k].node) == {x} ==>
         x in listed && f[x] == Drained(listed[x], now))
  }

  ghost predicate Completed(listed: Fleet, input: Input, th: Thresholds, f: Fleet) {
    Reached(listed, PlanOf(input, th), |PlanOf(input, th)|, f, input.now)
  }

  lemma NothingReached(listed: Fleet, plan: seq<Action>, now: Time)
    ensures Reached(listed, plan, 0, listed, now)
  {
  }

  /** After a replacement nothing but replacements is carried out. */
  ghost predicate Sorted(plan: seq<Action>) {
    forall i, j :: 0 <= i < j < |plan| && plan[i].kind == Replace ==> plan[j].kind in {Replace, Noop}
  }

  lemma PlanIsSorted(input: Input, th: Thresholds)
    ensures Sorted(PlanOf(input, th))
  {
    hide Ordered, Wanted, SideCount;
    OrderedRises(Wanted(input, th));
    var wanted, plan := Ordered(Wanted(input, th)), PlanOf(input, th);
    forall i, j | 0 <= i < j < |plan| && plan[i].kind == Replace ensures plan[j].kind in {Replace, Noop} {
      assert plan[i] == wanted[i] && Class(wanted[i].kind) <= Class(wanted[j].kind);
    }
  }

  lemma NoopReaches(listed: Fleet, plan: seq<Action>, i: nat, f: Fleet, now: Time)
    requires i < |plan| && plan[i].kind == Noop && Reached(listed, plan, i, f, now)
    ensures Reached(listed, plan, i + 1, f, now)
  {
    hide DrainAccounted, Gone, Halves;
  }

  lemma DidReaches(listed: Fleet, plan: seq<Action>, i: nat, f: Fleet, g: Fleet, now: Time)
    requires i < |plan| && plan[i].kind != Noop && AllFit(listed, plan) && Sorted(plan)
    requires Reached(listed, plan, i, f, now) && Fits(listed, plan[i]) && Did(listed, f, g, plan[i], now)
    ensures Reached(listed, plan, i + 1, g, now)
  {
    hide Gone, Halves, AllFit, Sorted, Reached, Did, Fits, DrainAccounted;
    forall x | x in listed ensures x in g && DrainAccounted(listed, plan, g, x, now) {
      DrainStaysAccounted(listed, plan, i, f, g, x, now);
    }
    forall k | 0 <= k < i + 1 && plan[k].kind == Retire ensures Gone(listed, plan, g, plan[k].node, now) {
      StaysGone(listed, plan, i, f, g, k, now);
    }
    forall k, x | 0 <= k < i + 1 && plan[k].kind == Replace && plan[k].node in listed && Halves(listed, plan[k].node) == {x}
      ensures x in listed && x in g && g[x] == Drained(listed[x], now)
    {
      StaysDrained(listed, plan, i, f, g, k, x, now);
    }
    ReachedFrom(listed, plan, i + 1, g, now);
  }

  lemma ReachedFrom(listed: Fleet, plan: seq<Action>, i: nat, f: Fleet, now: Time)
    requires i <= |plan| && (forall x :: x in listed ==> x in f && DrainAccounted(listed, plan, f, x, now))
    requires forall k :: 0 <= k < i && plan[k].kind == Retire ==> Gone(listed, plan, f, plan[k].node, now)
    requires forall k, x :: 0 <= k < i && plan[k].kind == Replace && plan[k].node in listed && Halves(listed, plan[k].node) == {x} ==>
      x in listed && x in f && f[x] == Drained(listed[x], now)
    ensures Reached(listed, plan, i, f, now)
  {
    hide DrainAccounted, Gone, Halves;
  }

  lemma DrainStaysAccounted(listed: Fleet, plan: seq<Action>, i: nat, f: Fleet, g: Fleet, x: string, now: Time)
    requires i < |plan| && Reached(listed, plan, i, f, now) && Fits(listed, plan[i]) && Did(listed, f, g, plan[i], now)
    requires x in listed && plan[i].kind != Noop
    ensures x in g && DrainAccounted(listed, plan, g, x, now)
  {
    hide Gone, Halves, Revived;
    assert DrainAccounted(listed, plan, f, x, now);
    if plan[i].kind == Replace && x in Halves(listed, plan[i].node) { IsRevived(listed, plan, i, x); }
  }

  lemma IsRevived(listed: Fleet, plan: seq<Action>, j: nat, x: string)
    requires j < |plan| && plan[j].kind == Replace && plan[j].node in listed && x in Halves(listed, plan[j].node)
    ensures Revived(listed, plan, x)
  {
  }

  lemma StaysGone(listed: Fleet, plan: seq<Action>, i: nat, f: Fleet, g: Fleet, k: nat, now: Time)
    requires i < |plan| && Reached(listed, plan, i, f, now) && AllFit(listed, plan) && Fits(listed, plan[i])
    requires plan[i].kind != Noop && Did(listed, f, g, plan[i], now) && k <= i && plan[k].kind == Retire
    ensures Gone(listed, plan, g, plan[k].node, now)
  {
    hide Halves, DrainAccounted;
    var x := plan[k].node;
    assert Fits(listed, plan[k]);
    if k < i {
      assert Gone(listed, plan, f, x, now);
      if plan[i].kind == Replace && x in Halves(listed, plan[i].node) { assert Revived(listed, plan, x); }
    }
  }

  lemma StaysDrained(listed: Fleet, plan: seq<Action>, i: nat, f: Fleet, g: Fleet, k: nat, x: string, now: Time)
    requires i < |plan| && Reached(listed, plan, i, f, now) && Sorted(plan) && Fits(listed, plan[i])
    requires plan[i].kind != Noop && Did(listed, f, g, plan[i], now) && k <= i && plan[k].kind == Replace && plan[k].node in listed
    requires Halves(listed, plan[k].node) == {x}
    ensures x in listed && x in g && g[x] == Drained(listed[x], now)
  {
    hide Halves, DrainAccounted, Gone;
    if k < i { assert plan[i].kind == Replace; }
  }

  // ----- the backlog over consecutive cycles ---------------------------------------------------------------

  /** The entry a record is the exit of. */
  function ExitOf(r: Rec): Option<string> {
    if r.role == Exit then r.entry else None
  }

  /** Every entry has at most one exit. */
  ghost predicate OneExitEach(listed: Fleet) {
    forall x, y :: x in listed && y in listed && ExitOf(listed[x]) == ExitOf(listed[y]) != None ==> x == y
  }

  /** After a successful cycle a node it was to retire is retired exactly if the same plan does not
      replace its other half: a replacement drains the old pair from the records listed at the
      beginning of the cycle, and so takes the retirement back. */
  lemma RetiredExactly(listed: Fleet, input: Input, th: Thresholds, f: Fleet, x: string)
    requires Completed(listed, input, th, f) && OneExitEach(listed) && x in RetiredBy(PlanOf(input, th))
    ensures x in f && (f[x].node.status == Retired <==> !Revived(listed, PlanOf(input, th), x))
    ensures f[x].node.status == Retired || (f[x].node.status == Draining && f[x].node.drainStarted == Some(input.now))
  {
    hide PlanOf, DrainAccounted, Halves;
    var plan := PlanOf(input, th);
    var k :| 0 <= k < |plan| && plan[k].kind == Retire && plan[k].node == x;
    assert Gone(listed, plan, f, x, input.now);
    if Revived(listed, plan, x) {
      var j :| 0 <= j < |plan| && plan[j].kind == Replace && plan[j].node in listed && x in Halves(listed, plan[j].node);
      OnlyHalf(listed, plan[j].node, x);
    }
  }

  lemma OnlyHalf(listed: Fleet, id: string, x: string)
    requires OneExitEach(listed) && id in listed && x in Halves(listed, id)
    ensures Halves(listed, id) == {x}
  {
  }

  const ENTRY_NODE := Node("e", Active, false, None, None)

  function ExitNode(since: Time): Node {
    Node("x", Draining, false, None, Some(since))
  }

  /** It happens: an exit past its grace whose entry serves and is blocked is retired and then, as the
      other half of the replaced entry, turned back to draining. */
  lemma RetirementTakenBack(th: Thresholds, now: Time) returns (listed: Fleet, input: Input)
    requires Limit(th) >= 2 && th.recommendationMaxAge >= 0
    ensures ListedAs(listed, input) && OneExitEach(listed) && input.now == now
    ensures "x" in RetiredBy(PlanOf(input, th)) && Revived(listed, PlanOf(input, th), "x")
    ensures forall f: Fleet :: Completed(listed, input, th, f) ==> "x" in f && f["x"].node.status == Draining
  {
    hide PlanOf, ListedAs, OneExitEach, Halves, Completed;
    var exit := ExitNode(now - th.drainGrace);
    listed := PairOf(exit);
    input := Input(now, Some(now), [Block(true, "e", ["r"], Authoritative)], [ENTRY_NODE, exit], map[]);
    PairIsListed(exit, input);
    RetireThenReplace(input, th);
    var plan := PlanOf(input, th);
    assert plan[0].kind == Retire && plan[0].node == "x" && plan[1].kind == Replace && plan[1].node == "e";
    forall f: Fleet | Completed(listed, input, th, f) ensures "x" in f && f["x"].node.status == Draining {
      RetiredExactly(listed, input, th, f, "x");
    }
  }

  function PairOf(exit: Node): Fleet {
    map["e" := Rec(ENTRY_NODE, Entry, None, ""), "x" := Rec(exit, Exit, Some("e"), "")]
  }

  lemma PairIsListed(exit: Node, input: Input)
    requires exit.id == "x" && input.nodes == [ENTRY_NODE, exit]
    ensures ListedAs(PairOf(exit), input) && OneExitEach(PairOf(exit))
    ensures "e" in PairOf(exit) && "x" in Halves(PairOf(exit), "e")
  {
    assert input.nodes[0].id == "e" && input.nodes[1].id == "x";
  }

  lemma RetireThenReplace(input: Input, th: Thresholds)
    requires Limit(th) >= 2 && th.recommendationMaxAge >= 0 && input.generatedAt == Some(input.now)
    requires input.blocks == [Block(true, "e", ["r"], Authoritative)]
    requires input.nodes == [ENTRY_NODE, ExitNode(input.now - th.drainGrace)]
    ensures PlanOf(input, th) == [Action(Retire, "x", [], None), Action(Replace, "e", ["r"], None)]
  {
    hide Ordered, Capped;
    var replace, retire := Action(Replace, "e", ["r"], None), Action(Retire, "x", [], None);
    assert input.nodes[..2] == input.nodes && input.nodes[..1] == [ENTRY_NODE];
    assert Index(input.nodes[..1])["e"] == ENTRY_NODE;
    assert FromBlocks(input, th, 1) == [replace] by { assert FromBlocks(input, th, 0) == []; }
    assert Named([replace]) == {"e"} by { assert [replace][0].node == "e"; }
    assert WithRotations(input, [replace], 1) == [replace];
    assert WithRotations(input, [replace], 2) == [replace];
    assert WithRetires(input, th, [replace], 1) == [replace];
    assert WithRetires(input, th, [replace], 2) == [replace, retire];
    SortTwo(replace, retire);
    CapTwo(retire, replace, Limit(th));
  }

  lemma SortTwo(replace: Action, retire: Action)
    requires replace.kind == Replace && retire.kind == Retire
    ensures Ordered([replace, retire]) == [retire, replace]
  {
    assert [replace, retire][1..] == [retire];
    assert forall c :: Only([retire], c) == if c == 1 then [retire] else [];
    assert forall c :: Only([replace, retire], c) == if c == 1 then [retire] else if c == 3 then [replace] else [];
  }

  lemma CapTwo(a: Action, b: Action, max: nat)
    requires max >= 2
    ensures Capped([a, b], max) == [a, b]
  {
    assert [a, b][..0] == [] && [a, b][..1] == [a] && [a][..0] == [];
    assert SideCount([a]) <= 1;
  }

  /** When a teardown costs a serving entry: exactly when a draining exit is retired whose entry serves,
      as a replacement whose second drain failed leaves it. */
  lemma TeardownCostsExactly(listed: Fleet, a: Action)
    requires a.kind == Retire && Fits(listed, a)
    ensures Costly(listed, a) <==> exists e :: Behaves(e, listed, listed, a) && !(Serving(listed) <= Serving(e.after))
  {
    InStepAtFirst(listed);
    forall e | Behaves(e, listed, listed, a) && !(Serving(listed) <= Serving(e.after)) ensures Costly(listed, a) {
      RetireSteps(listed, listed, e, a);
    }
    if Costly(listed, a) {
      var after := map x | x in listed :: if x == a.node || x in Halves(listed, a.node) then Down(listed[x]) else listed[x];
      var e := Effect(true, after, "", "", true, 1);
      var y :| y in Halves(listed, a.node) && y in Serving(listed);
      assert Behaves(e, listed, listed, a);
      assert y !in Serving(e.after);
    }
  }

  /** One successful cycle: the registry it listed, what it planned from, the registry it left. */
  datatype Turn = Turn(listed: Fleet, input: Input, after: Fleet)

  ghost predicate TurnOk(t: Turn, th: Thresholds) {
    ListedAs(t.listed, t.input) && Completed(t.listed, t.input, th, t.after)
  }

  /** The next cycle lists what this one left, and no node becomes due meanwhile: what is due then was
      due already by the record this cycle left, at this cycle's clock, and not named by a block. */
  ghost predicate NoneBecomesDue(t: Turn, next: Turn, th: Thresholds) {
    && next.listed == t.after
    && forall y :: y in Due(next.input, th) ==>
         && y in t.listed && y in next.listed && RetireDue(t.input, th, next.listed[y].node)
         && y !in Named(FromBlocks(t.input, th, |t.input.blocks|))
  }

  /** What a successful cycle retired is not due in the next, and what is due then was due before. */
  lemma CycleRemoves(t: Turn, next: Turn, th: Thresholds)
    requires th.drainGrace > 0 && TurnOk(t, th) && TurnOk(next, th) && NoneBecomesDue(t, next, th)
    ensures Due(next.input, th) <= Due(t.input, th) - RetiredBy(PlanOf(t.input, th))
  {
    hide Completed, PlanOf, FromBlocks, Named, Due, RetiredBy, RetireDue;
    forall y | y in Due(next.input, th) ensures y in Due(t.input, th) && y !in RetiredBy(PlanOf(t.input, th)) {
      LeftAsListed(t, th, y);
      assert t.after[y] == t.listed[y];
      var k :| 0 <= k < |t.input.nodes| && t.input.nodes[k].id == y;
      IsDue(t.input, th, k);
    }
  }

  lemma IsDue(input: Input, th: Thresholds, k: nat)
    requires k < |input.nodes| && RetireDue(input, th, input.nodes[k])
    requires input.nodes[k].id !in Named(FromBlocks(input, th, |input.blocks|))
    ensures input.nodes[k].id in Due(input, th)
  {
    hide RetireDue, Named, FromBlocks;
  }

  /** A node whose record is still due after the cycle was not touched by it. */
  lemma LeftAsListed(t: Turn, th: Thresholds, y: string)
    requires th.drainGrace > 0 && Completed(t.listed, t.input, th, t.after) && y in t.listed && y in t.after
    requires RetireDue(t.input, th, t.after[y].node)
    ensures t.after[y] == t.listed[y] && y !in RetiredBy(PlanOf(t.input, th))
  {
    hide PlanOf, Halves;
    var plan := PlanOf(t.input, th);
    assert DrainAccounted(t.listed, plan, t.after, y, t.input.now);
    forall k | 0 <= k < |plan| && plan[k].kind == Retire ensures plan[k].node != y {
      assert Gone(t.listed, plan, t.after, plan[k].node, t.input.now);
    }
  }

  ghost predicate Successive(turns: seq<Turn>, th: Thresholds) {
    && (forall i :: 0 <= i < |turns| ==> TurnOk(turns[i], th))
    && (forall i :: 0 < i < |turns| ==> NoneBecomesDue(turns[i - 1], turns[i], th))
  }

  /** Over successive successful cycles in which no node becomes due, each works off the limit, so the
      backlog is empty after as many cycles as it takes. */
  lemma FleetIsWorkedOff(turns: seq<Turn>, th: Thresholds, k: nat)
    requires th.drainGrace > 0 && k < |turns| && Successive(turns, th)
    ensures
      var backlog := |Due(turns[0].input, th)|;
      && |Due(turns[k].input, th)| <= (if backlog <= k * Limit(th) then 0 else backlog - k * Limit(th))
      && (k * Limit(th) >= backlog ==> Due(turns[k].input, th) == {})
  {
    hide Due, RetiredBy, PlanOf, NoneBecomesDue, Completed;
    var inputs := seq(|turns|, i requires 0 <= i < |turns| => turns[i].input);
    forall i | 0 < i < |inputs| ensures Due(inputs[i], th) <= Due(inputs[i - 1], th) - RetiredBy(PlanOf(inputs[i - 1], th)) {
      CycleRemoves(turns[i - 1], turns[i], th);
    }
    BacklogIsWorkedOff(inputs, th, k);
  }

  // ----- who is retired by then -------------------------------------------------------------------------------

  ghost predicate ForwardClocks(turns: seq<Turn>) {
    forall i :: 0 < i < |turns| ==> turns[i - 1].input.now <= turns[i].input.now
  }

  /** In none of the turns a block names the node or its other half is replaced. */
  ghost predicate Undisturbed(turns: seq<Turn>, th: Thresholds, x: string) {
    forall i :: 0 <= i < |turns| ==> LeftAlone(turns[i], th, x)
  }

  ghost predicate LeftAlone(t: Turn, th: Thresholds, x: string) {
    && x !in Named(FromBlocks(t.input, th, |t.input.blocks|))
    && !Revived(t.listed, PlanOf(t.input, th), x)
  }

  /** A due node that nothing disturbs is retired by the cycle or still due in the next. */
  lemma RetiredOrDue(t: Turn, next: Turn, th: Thresholds, x: string)
    requires TurnOk(t, th) && TurnOk(next, th) && next.listed == t.after && t.input.now <= next.input.now
    requires LeftAlone(t, th, x) && LeftAlone(next, th, x) && x in Due(t.input, th)
    ensures x in next.listed && (next.listed[x].node.status == Retired || x in Due(next.input, th))
  {
    hide PlanOf, FromBlocks, Named, Revived, Completed, Due;
    var j := DueNode(t.input, th, x);
    OnTheWayOut(t, th, x);
    var k :| 0 <= k < |next.input.nodes| && next.input.nodes[k].id == x;
    if next.listed[x].node.status != Retired { IsDue(next.input, th, k); }
  }

  lemma DueNode(input: Input, th: Thresholds, x: string) returns (j: nat)
    requires x in Due(input, th)
    ensures j < |input.nodes| && input.nodes[j].id == x && RetireDue(input, th, input.nodes[j])
  {
    hide Named, FromBlocks, RetireDue;
    j :| 0 <= j < |input.nodes| && RetireDue(input, th, input.nodes[j]) && input.nodes[j].id == x;
  }

  /** A draining or retired node whose other half is not replaced stays as it is or is retired. */
  lemma OnTheWayOut(t: Turn, th: Thresholds, x: string)
    requires Completed(t.listed, t.input, th, t.after) && x in t.listed && Leaving(t.listed[x])
    requires !Revived(t.listed, PlanOf(t.input, th), x)
    ensures x in t.after && (t.after[x] == t.listed[x] || t.after[x].node.status == Retired)
  {
    hide PlanOf, Revived, Gone, Halves;
    assert DrainAccounted(t.listed, PlanOf(t.input, th), t.after, x, t.input.now);
  }

  /** With the whole backlog inside the limit a cycle retires all of it. */
  lemma LastCycleRetires(t: Turn, th: Thresholds, x: string)
    requires TurnOk(t, th) && LeftAlone(t, th, x) && x in Due(t.input, th) && |Due(t.input, th)| <= Limit(th)
    ensures x in t.after && t.after[x].node.status == Retired
  {
    hide PlanOf, FromBlocks, Named, Revived, Due, RetiredBy;
    var plan := PlanOf(t.input, th);
    OneCycleRetires(t.input, th);
    WholeSubset(RetiredBy(plan), Due(t.input, th));
    RetiredIsGone(t, th, x);
  }

  lemma RetiredIsGone(t: Turn, th: Thresholds, x: string)
    requires Completed(t.listed, t.input, th, t.after) && x in RetiredBy(PlanOf(t.input, th))
    requires !Revived(t.listed, PlanOf(t.input, th), x)
    ensures x in t.after && t.after[x].node.status == Retired
  {
    hide PlanOf, Revived, DrainAccounted, Halves;
    var plan := PlanOf(t.input, th);
    var k :| 0 <= k < |plan| && plan[k].kind == Retire && plan[k].node == x;
    assert Gone(t.listed, plan, t.after, x, t.input.now);
  }

  lemma WholeSubset(a: set<string>, b: set<string>)
    requires a <= b && |a| == |b|
    ensures a == b
  {
    if extra :| extra in b && extra !in a {
      SubsetSize(a, b - {extra});
    }
  }

  /** What each turn finds of a node that was due at the beginning: retired, or still due. */
  lemma {:induction false} RetiredOrStillDue(turns: seq<Turn>, th: Thresholds, x: string, i: nat)
    requires i < |turns| && Successive(turns, th) && ForwardClocks(turns) && Undisturbed(turns, th, x)
    requires x in Due(turns[0].input, th)
    ensures x in turns[i].listed && (turns[i].listed[x].node.status == Retired || x in Due(turns[i].input, th))
  {
    hide LeftAlone, Due, Completed;
    if i == 0 {
      var j := DueNode(turns[0].input, th, x);
    } else {
      RetiredOrStillDue(turns, th, x, i - 1);
      var t := turns[i - 1];
      assert LeftAlone(t, th, x) && LeftAlone(turns[i], th, x) && NoneBecomesDue(t, turns[i], th);
      if t.listed[x].node.status == Retired {
        StaysRetired(t, th, x);
      } else {
        RetiredOrDue(t, turns[i], th, x);
      }
    }
  }

  lemma StaysRetired(t: Turn, th: Thresholds, x: string)
    requires TurnOk(t, th) && LeftAlone(t, th, x) && x in t.listed && t.listed[x].node.status == Retired
    ensures x in t.after && t.after[x].node.status == Retired
  {
    hide PlanOf, Revived, Completed;
    OnTheWayOut(t, th, x);
  }

  /** The whole backlog, on a clock that does not go back: a node that was due at the beginning, that no
      block names and whose other half no plan replaces is retired after as many successful cycles as the
      limit needs for the backlog, and stays so. */
  lemma BacklogIsRetired(turns: seq<Turn>, th: Thresholds, x: string)
    requires th.drainGrace > 0 && turns != [] && Successive(turns, th) && ForwardClocks(turns) && Undisturbed(turns, th, x)
    requires x in Due(turns[0].input, th) && |turns| * Limit(th) >= |Due(turns[0].input, th)|
    ensures
      var after := turns[|turns| - 1].after;
      x in after && after[x].node.status == Retired
  {
    hide LeftAlone, Due, Completed, NoneBecomesDue;
    var last := |turns| - 1;
    assert LeftAlone(turns[last], th, x) && TurnOk(turns[last], th);
    RetiredOrStillDue(turns, th, x, last);
    if turns[last].listed[x].node.status == Retired {
      StaysRetired(turns[last], th, x);
    } else {
      FleetIsWorkedOff(turns, th, last);
      assert |turns| * Limit(th) == last * Limit(th) + Limit(th);
      LastCycleRetires(turns[last], th, x);
    }
  }
}
