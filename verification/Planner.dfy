/** The fleet planner: block recommendations behind the anti-poisoning gate, scheduled rotation,
    retirement after the drain grace, and the cap on what one cycle may do. */
module Planner {
  import opened Prelude

  datatype Kind = Noop | MarkDegraded | Rotate | Replace | Retire

  predicate SideEffecting(k: Kind) {
    k == Rotate || k == Replace || k == Retire
  }

  /** `wanted` is set on an action the cap has deferred. */
  datatype Action = Action(kind: Kind, node: string, regions: seq<string>, wanted: Option<Kind>)

  datatype Status = Provisioning | Active | Degraded | Draining | Retired

  /** `drainStarted` is the parsed drain label, if it parses. */
  datatype Node = Node(id: string, status: Status, ephemeral: bool, rotateAfter: Option<Time>, drainStarted: Option<Time>)

  datatype Confidence = Authoritative | Corroborated | UnknownConfidence

  datatype Block = Block(marksNode: bool, node: string, regions: seq<string>, confidence: Confidence)

  predicate BlockValid(b: Block) {
    b.marksNode && b.node != "" && |b.regions| > 0 && b.confidence != UnknownConfidence
  }

  datatype Health = Healthy | Blocked | Unreachable

  datatype Probe = Probe(status: Health, observedAt: Time)

  datatype Thresholds = Thresholds(recommendationMaxAge: Time, probeMaxAge: Time, drainGrace: Time, maxActions: int)

  datatype Input = Input(now: Time, generatedAt: Option<Time>, blocks: seq<Block>, nodes: seq<Node>, probes: map<string, Probe>)

  // ----- one decision -----------------------------------------------------------------------------

  predicate RecsFresh(input: Input, th: Thresholds) {
    input.generatedAt.Some? && input.now - input.generatedAt.value <= th.recommendationMaxAge
  }

  predicate GatePassed(b: Block, probes: map<string, Probe>, now: Time, probeMaxAge: Time) {
    match b.confidence
    case Authoritative => true
    case Corroborated =>
      && b.node in probes && now - probes[b.node].observedAt <= probeMaxAge
      && probes[b.node].status in {Blocked, Unreachable}
    case UnknownConfidence => false
  }

  function ReplaceOrRotate(n: Node): Kind {
    if n.ephemeral then Rotate else Replace
  }

  function Index(nodes: seq<Node>): map<string, Node> {
    if nodes == [] then map[] else Index(nodes[..|nodes| - 1])[nodes[|nodes| - 1].id := nodes[|nodes| - 1]]
  }

  function Decision(input: Input, th: Thresholds, byId: map<string, Node>, b: Block): Kind {
    if b.node !in byId || !RecsFresh(input, th) then Noop
    else if byId[b.node].status in {Draining, Retired, Provisioning} then Noop
    else if !GatePassed(b, input.probes, input.now, th.probeMaxAge) then
      if byId[b.node].status == Degraded then Noop else MarkDegraded
    else ReplaceOrRotate(byId[b.node])
  }

  predicate RotationDue(input: Input, n: Node) {
    n.rotateAfter.Some? && input.now >= n.rotateAfter.value && n.status in {Active, Degraded}
  }

  predicate RetireDue(input: Input, th: Thresholds, n: Node) {
    n.status == Draining && n.drainStarted.Some? && input.now - n.drainStarted.value >= th.drainGrace
  }

  // ----- the plan before the cap --------------------------------------------------------------------

  function Named(actions: seq<Action>): set<string> {
    set i | 0 <= i < |actions| :: actions[i].node
  }

  function FromBlocks(input: Input, th: Thresholds, k: nat): seq<Action>
    requires k <= |input.blocks|
  {
    if k == 0 then []
    else
      var b := input.blocks[k - 1];
      FromBlocks(input, th, k - 1)
      + if BlockValid(b) then [Action(Decision(input, th, Index(input.nodes), b), b.node, b.regions, None)] else []
  }

  function WithRotations(input: Input, base: seq<Action>, k: nat): seq<Action>
    requires k <= |input.nodes|
  {
    if k == 0 then base
    else
      var before, n := WithRotations(input, base, k - 1), input.nodes[k - 1];
      before + if n.id !in Named(before) && RotationDue(input, n) then [Action(Rotate, n.id, [], None)] else []
  }

  function WithRetires(input: Input, th: Thresholds, base: seq<Action>, k: nat): seq<Action>
    requires k <= |input.nodes|
  {
    if k == 0 then base
    else
      var before, n := WithRetires(input, th, base, k - 1), input.nodes[k - 1];
      before + if n.id in Named(before) || n.status != Draining then []
               else if n.drainStarted.None? then [Action(Noop, n.id, [], None)]
               else if RetireDue(input, th, n) then [Action(Retire, n.id, [], None)]
               else []
  }

  function Wanted(input: Input, th: Thresholds): seq<Action> {
    var blocks := FromBlocks(input, th, |input.blocks|);
    WithRetires(input, th, WithRotations(input, blocks, |input.nodes|), |input.nodes|)
  }

  // ----- order and cap --------------------------------------------------------------------------------

  /** The sort key: harmless first, then retire, rotate, replace. */
  function Class(k: Kind): nat {
    match k
    case Noop => 0
    case MarkDegraded => 0
    case Retire => 1
    case Rotate => 2
    case Replace => 3
  }

  function Only(actions: seq<Action>, group: nat): seq<Action> {
    if actions == [] then []
    else (if Class(actions[0].kind) == group then [actions[0]] else []) + Only(actions[1..], group)
  }

  /** What a stable sort by the key makes of the list. */
  function Ordered(actions: seq<Action>): seq<Action> {
    Only(actions, 0) + Only(actions, 1) + Only(actions, 2) + Only(actions, 3)
  }

  function Deferred(a: Action): Action {
    Action(Noop, a.node, a.regions, Some(a.kind))
  }

  function SideCount(actions: seq<Action>): nat {
    if actions == [] then 0
    else SideCount(actions[..|actions| - 1]) + if SideEffecting(actions[|actions| - 1].kind) then 1 else 0
  }

  /** Keeps the first `max` side effects and defers the others. */
  function Capped(actions: seq<Action>, max: nat): (kept: seq<Action>)
    ensures |kept| == |actions|
  {
    seq(|actions|, i requires 0 <= i < |actions| =>
      if SideEffecting(actions[i].kind) && SideCount(actions[..i]) >= max then Deferred(actions[i]) else actions[i])
  }

  function Limit(th: Thresholds): nat {
    if th.maxActions <= 0 then 1 else th.maxActions
  }

  function PlanOf(input: Input, th: Thresholds): seq<Action> {
    Capped(Ordered(Wanted(input, th)), Limit(th))
  }

  // ----- the planner ------------------------------------------------------------------------------------

  method IndexNodes(nodes: seq<Node>) returns (byId: map<string, Node>)
    ensures byId == Index(nodes)
  {
    byId := map[];
    for k := 0 to |nodes|
      invariant byId == Index(nodes[..k])
    {
      assert nodes[..k + 1][..k] == nodes[..k];
      byId := byId[nodes[k].id := nodes[k]];
    }
    assert nodes[..|nodes|] == nodes;
  }

  lemma NamedNext(actions: seq<Action>, a: Action)
    ensures Named(actions + [a]) == Named(actions) + {a.node} && Named(actions + []) == Named(actions)
  {
    var longer := actions + [a];
    assert longer[|actions|] == a;
    assert forall i :: 0 <= i < |actions| ==> longer[i] == actions[i];
    assert actions + [] == actions;
  }

  method Plan(input: Input, th: Thresholds) returns (plan: seq<Action>)
    ensures plan == PlanOf(input, th)
  {
    var byId := IndexNodes(input.nodes);
    var planned: set<string>, out: seq<Action> := {}, [];
    for k := 0 to |input.blocks|
      invariant out == FromBlocks(input, th, k) && planned == Named(out)
    {
      var b := input.blocks[k];
      if BlockValid(b) {
        var a := Action(Decision(input, th, byId, b), b.node, b.regions, None);
        NamedNext(out, a);
        planned, out := planned + {b.node}, out + [a];
      }
    }
    ghost var blocks := out;
    for k := 0 to |input.nodes|
      invariant out == WithRotations(input, blocks, k) && planned == Named(out)
    {
      var n := input.nodes[k];
      if n.id !in planned && RotationDue(input, n) {
        NamedNext(out, Action(Rotate, n.id, [], None));
        planned, out := planned + {n.id}, out + [Action(Rotate, n.id, [], None)];
      }
    }
    ghost var rotations := out;
    for k := 0 to |input.nodes|
      invariant out == WithRetires(input, th, rotations, k) && planned == Named(out)
    {
      var n := input.nodes[k];
      if n.id !in planned && n.status == Draining {
        if n.drainStarted.None? {
          NamedNext(out, Action(Noop, n.id, [], None));
          planned, out := planned + {n.id}, out + [Action(Noop, n.id, [], None)];
        } else if input.now - n.drainStarted.value >= th.drainGrace {
          NamedNext(out, Action(Retire, n.id, [], None));
          planned, out := planned + {n.id}, out + [Action(Retire, n.id, [], None)];
        }
      }
    }
    plan := CapSideEffects(Ordered(out), Limit(th));
  }

  method CapSideEffects(actions: seq<Action>, max: nat) returns (kept: seq<Action>)
    ensures kept == Capped(actions, max)
  {
    kept := [];
    var side := 0;
    for i := 0 to |actions|
      invariant kept == Capped(actions, max)[..i]
      invariant side == if SideCount(actions[..i]) < max then SideCount(actions[..i]) else max
    {
      var a := actions[i];
      assert actions[..i + 1][..i] == actions[..i] && actions[..i + 1][i] == a;
      assert Capped(actions, max)[..i + 1] == Capped(actions, max)[..i] + [Capped(actions, max)[i]];
      if SideEffecting(a.kind) {
        if side >= max {
          kept := kept + [Deferred(a)];
        } else {
          side := side + 1;
          kept := kept + [a];
        }
      } else {
        kept := kept + [a];
      }
    }
    assert Capped(actions, max)[..|actions|] == Capped(actions, max);
  }

  // ----- the sort -----------------------------------------------------------------------------------------

  lemma {:induction false} OnlyConcat(a: seq<Action>, b: seq<Action>, c: nat)
    ensures Only(a + b, c) == Only(a, c) + Only(b, c)
  {
    if a == [] {
      assert a + b == b;
    } else {
      OnlyConcat(a[1..], b, c);
      assert (a + b)[0] == a[0] && (a + b)[1..] == a[1..] + b;
      var head := if Class(a[0].kind) == c then [a[0]] else [];
      assert head + (Only(a[1..], c) + Only(b, c)) == head + Only(a[1..], c) + Only(b, c);
    }
  }

  lemma {:induction false} OnlyHasClass(a: seq<Action>, c: nat)
    ensures forall i :: 0 <= i < |Only(a, c)| ==> Class(Only(a, c)[i].kind) == c
    ensures forall i :: 0 <= i < |Only(a, c)| ==> Only(a, c)[i] in a
  {
    if a != [] { OnlyHasClass(a[1..], c); }
  }

  lemma {:induction false} OnlyOfOnly(a: seq<Action>, c: nat, d: nat)
    requires forall i :: 0 <= i < |a| ==> Class(a[i].kind) == c
    ensures Only(a, d) == if c == d then a else []
  {
    if a != [] {
      OnlyOfOnly(a[1..], c, d);
      assert a == [a[0]] + a[1..];
    }
  }

  lemma OnlyTwice(a: seq<Action>, c: nat, d: nat)
    ensures Only(Only(a, c), d) == if c == d then Only(a, c) else []
  {
    OnlyHasClass(a, c);
    OnlyOfOnly(Only(a, c), c, d);
  }

  lemma OrderedGroup(a: seq<Action>, c: nat)
    requires c < 4
    ensures Only(Ordered(a), c) == Only(a, c)
  {
    hide Only;
    var p, q, r, t := Only(a, 0), Only(a, 1), Only(a, 2), Only(a, 3);
    OnlyConcat(p + q + r, t, c);
    OnlyConcat(p + q, r, c);
    OnlyConcat(p, q, c);
    OnlyTwice(a, 0, c);
    OnlyTwice(a, 1, c);
    OnlyTwice(a, 2, c);
    OnlyTwice(a, 3, c);
  }

  lemma OrderedRises(a: seq<Action>)
    ensures forall i, j :: 0 <= i < j < |Ordered(a)| ==> Class(Ordered(a)[i].kind) <= Class(Ordered(a)[j].kind)
  {
    hide Only, Class;
    OnlyHasClass(a, 0);
    OnlyHasClass(a, 1);
    OnlyHasClass(a, 2);
    OnlyHasClass(a, 3);
  }

  lemma OneGroup(a: seq<Action>, c: nat)
    requires a != []
    ensures multiset(Only(a, c)) == if Class(a[0].kind) == c then multiset(Only(a[1..], c)) + multiset{a[0]} else multiset(Only(a[1..], c))
  {
  }

  function Groups(a: seq<Action>): multiset<Action> {
    multiset(Only(a, 0)) + multiset(Only(a, 1)) + multiset(Only(a, 2)) + multiset(Only(a, 3))
  }

  lemma AddOne(p: multiset<Action>, q: multiset<Action>, r: multiset<Action>, t: multiset<Action>, x: multiset<Action>)
    ensures (p + x) + q + r + t == p + q + r + t + x
    ensures p + (q + x) + r + t == p + q + r + t + x
    ensures p + q + (r + x) + t == p + q + r + t + x
    ensures p + q + r + (t + x) == p + q + r + t + x
  {
  }

  lemma GroupsNext(a: seq<Action>)
    requires a != []
    ensures Groups(a) == Groups(a[1..]) + multiset{a[0]}
  {
    hide Only;
    var rest := a[1..];
    OneGroup(a, 0);
    OneGroup(a, 1);
    OneGroup(a, 2);
    OneGroup(a, 3);
    AddOne(multiset(Only(rest, 0)), multiset(Only(rest, 1)), multiset(Only(rest, 2)), multiset(Only(rest, 3)), multiset{a[0]});
  }

  lemma {:induction false} OrderedLosesNothing(a: seq<Action>)
    ensures Groups(a) == multiset(a)
  {
    hide Groups;
    if a == [] {
      NoGroups();
    } else {
      OrderedLosesNothing(a[1..]);
      GroupsNext(a);
      HeadAndTail(a);
    }
  }

  lemma NoGroups()
    ensures Groups([]) == multiset{}
  {
  }

  lemma HeadAndTail(a: seq<Action>)
    requires a != []
    ensures multiset(a) == multiset(a[1..]) + multiset{a[0]}
  {
    assert a == [a[0]] + a[1..];
  }

  /** Sorted by the key, stable within each key, and nothing lost: `Ordered` is the stable sort. */
  lemma OrderedIsStableSort(a: seq<Action>)
    ensures forall i, j :: 0 <= i < j < |Ordered(a)| ==> Class(Ordered(a)[i].kind) <= Class(Ordered(a)[j].kind)
    ensures forall c :: 0 <= c < 4 ==> Only(Ordered(a), c) == Only(a, c)
    ensures multiset(Ordered(a)) == multiset(a)
  {
    hide Only, Class;
    OrderedRises(a);
    forall c: nat | c < 4 ensures Only(Ordered(a), c) == Only(a, c) { OrderedGroup(a, c); }
    OrderedLosesNothing(a);
  }

  // ----- every side effect is justified -------------------------------------------------------------------

  predicate Confirms(input: Input, th: Thresholds, b: Block, a: Action) {
    && BlockValid(b) && b.node == a.node && RecsFresh(input, th) && GatePassed(b, input.probes, input.now, th.probeMaxAge)
    && a.node in Index(input.nodes) && Index(input.nodes)[a.node].status in {Active, Degraded}
    && a.kind == ReplaceOrRotate(Index(input.nodes)[a.node])
  }

  /** A fresh recommendation for a serving node that passed the gate. */
  ghost predicate BlockedForSure(input: Input, th: Thresholds, a: Action) {
    exists k :: 0 <= k < |input.blocks| && Confirms(input, th, input.blocks[k], a)
  }

  ghost predicate DueForRotation(input: Input, a: Action) {
    a.kind == Rotate && exists k :: 0 <= k < |input.nodes| && input.nodes[k].id == a.node && RotationDue(input, input.nodes[k])
  }

  ghost predicate DueForRetirement(input: Input, th: Thresholds, a: Action) {
    a.kind == Retire && exists k :: 0 <= k < |input.nodes| && input.nodes[k].id == a.node && RetireDue(input, th, input.nodes[k])
  }

  ghost predicate Justified(input: Input, th: Thresholds, a: Action) {
    SideEffecting(a.kind) ==> BlockedForSure(input, th, a) || DueForRotation(input, a) || DueForRetirement(input, th, a)
  }

  ghost predicate AllJustified(input: Input, th: Thresholds, actions: seq<Action>) {
    forall i :: 0 <= i < |actions| ==> Justified(input, th, actions[i])
  }

  lemma {:induction false} BlocksJustified(input: Input, th: Thresholds, k: nat)
    requires k <= |input.blocks|
    ensures AllJustified(input, th, FromBlocks(input, th, k))
  {
    if k > 0 {
      BlocksJustified(input, th, k - 1);
      var b := input.blocks[k - 1];
      if BlockValid(b) { DecisionJustified(input, th, k - 1); }
    }
  }

  lemma DecisionJustified(input: Input, th: Thresholds, k: nat)
    requires k < |input.blocks| && BlockValid(input.blocks[k])
    ensures Justified(input, th, Action(Decision(input, th, Index(input.nodes), input.blocks[k]), input.blocks[k].node, input.blocks[k].regions, None))
  {
    hide GatePassed, RecsFresh, Index;
    var b := input.blocks[k];
    var a := Action(Decision(input, th, Index(input.nodes), b), b.node, b.regions, None);
    if SideEffecting(a.kind) {
      var n := Index(input.nodes)[b.node];
      assert n.status == Active || n.status == Degraded;
      assert Confirms(input, th, b, a);
    }
  }

  lemma {:induction false} RotationsJustified(input: Input, th: Thresholds, base: seq<Action>, k: nat)
    requires k <= |input.nodes| && AllJustified(input, th, base)
    ensures AllJustified(input, th, WithRotations(input, base, k))
  {
    if k > 0 {
      RotationsJustified(input, th, base, k - 1);
      var n := input.nodes[k - 1];
      assert RotationDue(input, n) ==> Justified(input, th, Action(Rotate, n.id, [], None));
    }
  }

  lemma {:induction false} RetiresJustified(input: Input, th: Thresholds, base: seq<Action>, k: nat)
    requires k <= |input.nodes| && AllJustified(input, th, base)
    ensures AllJustified(input, th, WithRetires(input, th, base, k))
  {
    if k > 0 {
      RetiresJustified(input, th, base, k - 1);
      var n := input.nodes[k - 1];
      assert RetireDue(input, th, n) ==> Justified(input, th, Action(Retire, n.id, [], None));
    }
  }

  /** Every side effect in the plan rests on a fresh, gated block of a serving node, on an elapsed
      rotation date, or on an elapsed drain grace. */
  lemma PlanIsJustified(input: Input, th: Thresholds)
    ensures AllJustified(input, th, PlanOf(input, th))
  {
    hide Justified, FromBlocks, WithRotations, WithRetires, Ordered;
    var blocks := FromBlocks(input, th, |input.blocks|);
    BlocksJustified(input, th, |input.blocks|);
    RotationsJustified(input, th, blocks, |input.nodes|);
    RetiresJustified(input, th, WithRotations(input, blocks, |input.nodes|), |input.nodes|);
    CappedIsJustified(input, th, Wanted(input, th));
  }

  lemma CappedIsJustified(input: Input, th: Thresholds, wanted: seq<Action>)
    requires AllJustified(input, th, wanted)
    ensures AllJustified(input, th, Capped(Ordered(wanted), Limit(th)))
  {
    hide Justified, Ordered, SideCount, Deferred;
    OrderedIsStableSort(wanted);
    var plan := Capped(Ordered(wanted), Limit(th));
    forall i | 0 <= i < |plan| ensures Justified(input, th, plan[i]) {
      var a := Ordered(wanted)[i];
      assert a in multiset(wanted);
      var j :| 0 <= j < |wanted| && wanted[j] == a;
      DeferredIsHarmless(input, th, a);
    }
  }

  lemma DeferredIsHarmless(input: Input, th: Thresholds, a: Action)
    ensures Justified(input, th, Deferred(a))
  {
  }

  // ----- nothing justified is forgotten ---------------------------------------------------------------------

  lemma {:induction false} RotationsExtend(input: Input, base: seq<Action>, k: nat)
    requires k <= |input.nodes|
    ensures |WithRotations(input, base, k)| >= |base| && WithRotations(input, base, k)[..|base|] == base
  {
    hide RotationDue, Named;
    if k > 0 { RotationsExtend(input, base, k - 1); }
  }

  lemma {:induction false} RetiresExtend(input: Input, th: Thresholds, base: seq<Action>, k: nat)
    requires k <= |input.nodes|
    ensures |WithRetires(input, th, base, k)| >= |base| && WithRetires(input, th, base, k)[..|base|] == base
  {
    hide RetireDue, Named;
    if k > 0 { RetiresExtend(input, th, base, k - 1); }
  }

  lemma {:induction false} BlockIsListed(input: Input, th: Thresholds, k: nat, n: nat) returns (i: nat)
    requires k < n <= |input.blocks| && BlockValid(input.blocks[k])
    ensures i < |FromBlocks(input, th, n)|
    ensures FromBlocks(input, th, n)[i]
         == Action(Decision(input, th, Index(input.nodes), input.blocks[k]), input.blocks[k].node, input.blocks[k].regions, None)
  {
    hide Decision;
    if k == n - 1 { i := |FromBlocks(input, th, n - 1)|; } else { i := BlockIsListed(input, th, k, n - 1); }
  }

  /** Every valid recommendation about a serving node is answered: past the gate it is rotated or
      replaced, short of it the node is degraded at most. */
  lemma BlocksAreHeeded(input: Input, th: Thresholds, k: nat) returns (i: nat)
    requires k < |input.blocks| && BlockValid(input.blocks[k]) && RecsFresh(input, th)
    requires input.blocks[k].node in Index(input.nodes) && Index(input.nodes)[input.blocks[k].node].status in {Active, Degraded}
    ensures
      var b, n := input.blocks[k], Index(input.nodes)[input.blocks[k].node];
      && i < |Wanted(input, th)| && Wanted(input, th)[i].node == b.node
      && Wanted(input, th)[i].kind ==
           (if GatePassed(b, input.probes, input.now, th.probeMaxAge) then (if n.ephemeral then Rotate else Replace)
            else if n.status == Degraded then Noop else MarkDegraded)
  {
    hide FromBlocks, WithRotations, WithRetires, GatePassed, Index;
    var blocks := FromBlocks(input, th, |input.blocks|);
    i := BlockIsListed(input, th, k, |input.blocks|);
    RotationsExtend(input, blocks, |input.nodes|);
    RetiresExtend(input, th, WithRotations(input, blocks, |input.nodes|), |input.nodes|);
    assert Wanted(input, th)[i] == blocks[i] by {
      assert WithRotations(input, blocks, |input.nodes|)[..|blocks|][i] == blocks[i];
      var base := WithRotations(input, blocks, |input.nodes|);
      assert Wanted(input, th)[..|base|][i] == base[i];
    }
  }

  /** Every node past its rotation date is rotated, unless a recommendation already speaks about it. */
  lemma {:induction false} RotationsAreHeeded(input: Input, base: seq<Action>, j: nat, k: nat)
    requires j < k <= |input.nodes| && RotationDue(input, input.nodes[j])
    ensures input.nodes[j].id in Named(base)
      || Action(Rotate, input.nodes[j].id, [], None) in WithRotations(input, base, k)
  {
    hide Named, RotationDue;
    var id := input.nodes[j].id;
    if j < k - 1 {
      RotationsAreHeeded(input, base, j, k - 1);
    } else {
      NamedInRotations(input, base, j, id);
    }
  }

  lemma {:induction false} NamedInRotations(input: Input, base: seq<Action>, k: nat, id: string)
    requires k <= |input.nodes|
    ensures id in Named(WithRotations(input, base, k)) ==> id in Named(base) || Action(Rotate, id, [], None) in WithRotations(input, base, k)
  {
    hide Named, RotationDue;
    if k > 0 {
      NamedInRotations(input, base, k - 1, id);
      NamedNext(WithRotations(input, base, k - 1), Action(Rotate, input.nodes[k - 1].id, [], None));
    }
  }

  // ----- the cap ----------------------------------------------------------------------------------------

  lemma {:induction false} SideCountGrows(a: seq<Action>, i: nat, j: nat)
    requires i <= j <= |a|
    ensures SideCount(a[..i]) <= SideCount(a[..j])
    ensures i < j && SideEffecting(a[i].kind) ==> SideCount(a[..i]) < SideCount(a[..j])
    decreases j
  {
    if i < j {
      assert a[..j][..j - 1] == a[..j - 1];
      SideCountGrows(a, i, j - 1);
    }
  }

  lemma {:induction false} SideCountOfCapped(a: seq<Action>, max: nat, k: nat)
    requires k <= |a|
    ensures SideCount(Capped(a, max)[..k]) == if SideCount(a[..k]) < max then SideCount(a[..k]) else max
  {
    if k > 0 {
      SideCountOfCapped(a, max, k - 1);
      assert a[..k][..k - 1] == a[..k - 1] && Capped(a, max)[..k][..k - 1] == Capped(a, max)[..k - 1];
    }
  }

  /** Wanted action `i` of the sorted list does not fit. */
  predicate Excess(wanted: seq<Action>, max: nat, i: nat)
    requires i < |wanted|
  {
    SideEffecting(wanted[i].kind) && SideCount(wanted[..i]) >= max
  }

  lemma ExcessFillsTheCap(wanted: seq<Action>, max: nat, i: nat)
    requires i < |wanted| && Excess(wanted, max, i)
    ensures SideCount(wanted) > max
  {
    SideCountGrows(wanted, i, |wanted|);
    assert wanted[..|wanted|] == wanted;
  }

  lemma ExcessComesLast(wanted: seq<Action>, max: nat, i: nat, j: nat)
    requires i < |wanted| && j < |wanted| && Excess(wanted, max, i) && !Excess(wanted, max, j) && SideEffecting(wanted[j].kind)
    ensures j < i
  {
    if i <= j { SideCountGrows(wanted, i, j); }
  }

  /** As many side effects survive as the limit admits. */
  lemma CapIsFull(input: Input, th: Thresholds)
    ensures
      var wanted, max := Ordered(Wanted(input, th)), Limit(th);
      SideCount(PlanOf(input, th)) == if SideCount(wanted) < max then SideCount(wanted) else max
  {
    hide Ordered, Wanted;
    var wanted, plan := Ordered(Wanted(input, th)), PlanOf(input, th);
    SideCountOfCapped(wanted, Limit(th), |wanted|);
    assert plan[..|plan|] == plan && wanted[..|wanted|] == wanted;
  }

  /** Every wanted action is in the plan, kept or deferred; it is deferred only when the cap is
      full, and then nothing that ranks after it is carried out. */
  lemma CapIsFair(input: Input, th: Thresholds, i: nat)
    requires i < |PlanOf(input, th)|
    ensures
      var wanted, plan := Ordered(Wanted(input, th)), PlanOf(input, th);
      && |plan| == |wanted|
      && (plan[i] == wanted[i] || plan[i] == Deferred(wanted[i]))
      && (plan[i] != wanted[i] ==>
           && SideEffecting(wanted[i].kind) && SideCount(plan) == Limit(th)
           && forall j :: 0 <= j < |plan| && SideEffecting(plan[j].kind) ==> Class(plan[j].kind) <= Class(wanted[i].kind))
  {
    hide Ordered, Wanted, SideCount, Class;
    var wanted, plan, max := Ordered(Wanted(input, th)), PlanOf(input, th), Limit(th);
    OrderedIsStableSort(Wanted(input, th));
    if plan[i] != wanted[i] {
      assert Excess(wanted, max, i);
      ExcessFillsTheCap(wanted, max, i);
      CapIsFull(input, th);
      forall j | 0 <= j < |plan| && SideEffecting(plan[j].kind) ensures Class(plan[j].kind) <= Class(wanted[i].kind) {
        assert plan[j] == wanted[j] && !Excess(wanted, max, j);
        ExcessComesLast(wanted, max, i, j);
      }
    }
  }

  // ----- one action per node ----------------------------------------------------------------------------

  /** No two actions are about the same node. */
  predicate Distinct(actions: seq<Action>) {
    |Named(actions)| == |actions|
  }

  ghost predicate DistinctBlocks(blocks: seq<Block>) {
    forall i, j :: 0 <= i < j < |blocks| && BlockValid(blocks[i]) && BlockValid(blocks[j]) ==> blocks[i].node != blocks[j].node
  }

  ghost predicate DistinctIds(nodes: seq<Node>) {
    forall i, j :: 0 <= i < j < |nodes| ==> nodes[i].id != nodes[j].id
  }

  lemma {:induction false} BlocksAreDistinct(input: Input, th: Thresholds, k: nat)
    requires k <= |input.blocks| && DistinctBlocks(input.blocks)
    ensures Distinct(FromBlocks(input, th, k))
    ensures forall x :: x in Named(FromBlocks(input, th, k)) ==> exists i :: 0 <= i < k && BlockValid(input.blocks[i]) && input.blocks[i].node == x
  {
    hide Decision, Named;
    if k == 0 {
      NothingNamed();
    } else {
      BlocksAreDistinct(input, th, k - 1);
      var b := input.blocks[k - 1];
      NamedNext(FromBlocks(input, th, k - 1), Action(Decision(input, th, Index(input.nodes), b), b.node, b.regions, None));
    }
  }

  lemma NothingNamed()
    ensures Named([]) == {}
  {
  }

  lemma {:induction false} RotationsStayDistinct(input: Input, base: seq<Action>, k: nat)
    requires k <= |input.nodes| && Distinct(base)
    ensures Distinct(WithRotations(input, base, k))
  {
    hide RotationDue, Named;
    if k > 0 {
      RotationsStayDistinct(input, base, k - 1);
      NamedNext(WithRotations(input, base, k - 1), Action(Rotate, input.nodes[k - 1].id, [], None));
    }
  }

  lemma {:induction false} RetiresStayDistinct(input: Input, th: Thresholds, base: seq<Action>, k: nat)
    requires k <= |input.nodes| && Distinct(base)
    ensures Distinct(WithRetires(input, th, base, k))
  {
    hide RetireDue, Named;
    if k > 0 {
      RetiresStayDistinct(input, th, base, k - 1);
      NamedNext(WithRetires(input, th, base, k - 1), Action(Retire, input.nodes[k - 1].id, [], None));
      NamedNext(WithRetires(input, th, base, k - 1), Action(Noop, input.nodes[k - 1].id, [], None));
    }
  }

  lemma SortingKeepsNames(a: seq<Action>)
    ensures Named(Ordered(a)) == Named(a) && |Ordered(a)| == |a|
  {
    hide Ordered;
    OrderedIsStableSort(a);
    assert |multiset(Ordered(a))| == |Ordered(a)| && |multiset(a)| == |a|;
    forall x | x in Named(Ordered(a)) ensures x in Named(a) {
      var i :| 0 <= i < |Ordered(a)| && Ordered(a)[i].node == x;
      assert Ordered(a)[i] in multiset(a);
    }
    forall x | x in Named(a) ensures x in Named(Ordered(a)) {
      var i :| 0 <= i < |a| && a[i].node == x;
      assert a[i] in multiset(Ordered(a));
    }
  }

  lemma CapKeepsNames(a: seq<Action>, max: nat)
    ensures Named(Capped(a, max)) == Named(a)
  {
    hide SideCount;
    forall x | x in Named(a) ensures x in Named(Capped(a, max)) {
      var i :| 0 <= i < |a| && a[i].node == x;
      assert Capped(a, max)[i].node == x;
    }
    forall x | x in Named(Capped(a, max)) ensures x in Named(a) {
      var i :| 0 <= i < |a| && Capped(a, max)[i].node == x;
      assert a[i].node == x;
    }
  }

  /** A payload that names every node at most once yields at most one action per node. */
  lemma OneActionPerNode(input: Input, th: Thresholds)
    requires DistinctBlocks(input.blocks)
    ensures forall i, j :: 0 <= i < j < |PlanOf(input, th)| ==> PlanOf(input, th)[i].node != PlanOf(input, th)[j].node
  {
    hide Named, Ordered, Capped;
    var blocks, plan := FromBlocks(input, th, |input.blocks|), PlanOf(input, th);
    BlocksAreDistinct(input, th, |input.blocks|);
    RotationsStayDistinct(input, blocks, |input.nodes|);
    RetiresStayDistinct(input, th, WithRotations(input, blocks, |input.nodes|), |input.nodes|);
    SortingKeepsNames(Wanted(input, th));
    CapKeepsNames(Ordered(Wanted(input, th)), Limit(th));
    forall i, j | 0 <= i < j < |plan| ensures plan[i].node != plan[j].node { DistinctMeans(plan, i, j); }
  }

  lemma {:induction false} DistinctMeans(actions: seq<Action>, i: nat, j: nat)
    requires Distinct(actions) && i < j < |actions|
    ensures actions[i].node != actions[j].node
  {
    var init, last := actions[..|actions| - 1], actions[|actions| - 1];
    assert actions == init + [last];
    NamedNext(init, last);
    NamedIsSmall(init);
    if j == |init| {
      assert actions[i].node in Named(init) by { assert init[i] == actions[i]; }
    } else {
      DistinctMeans(init, i, j);
    }
  }

  lemma {:induction false} NamedIsSmall(actions: seq<Action>)
    ensures |Named(actions)| <= |actions|
  {
    if actions == [] {
      NothingNamed();
    } else {
      var init, last := actions[..|actions| - 1], actions[|actions| - 1];
      assert actions == init + [last];
      NamedNext(init, last);
      NamedIsSmall(init);
    }
  }

  // ----- retirement makes progress ------------------------------------------------------------------------

  /** The due draining nodes no recommendation speaks about. */
  function DueUpTo(input: Input, th: Thresholds, k: nat): set<string>
    requires k <= |input.nodes|
  {
    set j | 0 <= j < k && RetireDue(input, th, input.nodes[j]) && input.nodes[j].id !in Named(FromBlocks(input, th, |input.blocks|)) :: input.nodes[j].id
  }

  function Due(input: Input, th: Thresholds): set<string> {
    DueUpTo(input, th, |input.nodes|)
  }

  function RetiredBy(plan: seq<Action>): set<string> {
    set i | 0 <= i < |plan| && plan[i].kind == Retire :: plan[i].node
  }

  lemma {:induction false} RotationsName(input: Input, base: seq<Action>, k: nat)
    requires k <= |input.nodes|
    ensures forall x :: x in Named(WithRotations(input, base, k)) ==>
      x in Named(base) || exists j :: 0 <= j < k && input.nodes[j].id == x && RotationDue(input, input.nodes[j])
    ensures Named(base) <= Named(WithRotations(input, base, k))
    ensures Only(WithRotations(input, base, k), 1) == Only(base, 1)
  {
    hide Named, RotationDue;
    if k > 0 {
      RotationsName(input, base, k - 1);
      var before, a := WithRotations(input, base, k - 1), Action(Rotate, input.nodes[k - 1].id, [], None);
      NamedNext(before, a);
      OnlyConcat(before, [a], 1);
      assert Only([a], 1) == [];
      assert Only(before, 1) + [] == Only(before, 1);
      assert before + [] == before;
    }
  }

  lemma DecisionIsNotRetire(input: Input, th: Thresholds, byId: map<string, Node>, b: Block)
    ensures Decision(input, th, byId, b) != Retire
  {
    hide GatePassed, RecsFresh;
  }

  lemma {:induction false} BlocksNeverRetire(input: Input, th: Thresholds, k: nat)
    requires k <= |input.blocks|
    ensures Only(FromBlocks(input, th, k), 1) == []
  {
    hide Decision, Only, Index;
    if k == 0 {
      NothingOnly();
    } else {
      BlocksNeverRetire(input, th, k - 1);
      var b := input.blocks[k - 1];
      var before := FromBlocks(input, th, k - 1);
      var a := Action(Decision(input, th, Index(input.nodes), b), b.node, b.regions, None);
      DecisionIsNotRetire(input, th, Index(input.nodes), b);
      OnlyConcat(before, [a], 1);
      OnlySingle(a);
      assert before + [] == before;
    }
  }

  lemma NothingOnly()
    ensures Only([], 1) == []
  {
  }

  lemma DueNext(input: Input, th: Thresholds, k: nat)
    requires k < |input.nodes|
    ensures
      var n := input.nodes[k];
      DueUpTo(input, th, k + 1) == DueUpTo(input, th, k)
        + if RetireDue(input, th, n) && n.id !in Named(FromBlocks(input, th, |input.blocks|)) then {n.id} else {}
  {
    hide RetireDue, FromBlocks, Named;
  }

  function Base(input: Input, th: Thresholds): seq<Action> {
    WithRotations(input, FromBlocks(input, th, |input.blocks|), |input.nodes|)
  }

  /** The retire walk has added exactly the due draining nodes nobody has named, once each. */
  ghost predicate WalkOk(input: Input, th: Thresholds, walked: seq<Action>, k: nat)
    requires k <= |input.nodes|
  {
    && Named(Only(walked, 1)) == DueUpTo(input, th, k) && Distinct(Only(walked, 1))
    && (forall x :: x in Named(walked) ==> x in Named(Base(input, th)) || exists j :: 0 <= j < k && input.nodes[j].id == x)
    && Named(Base(input, th)) <= Named(walked)
  }

  lemma WalkStarts(input: Input, th: Thresholds)
    ensures WalkOk(input, th, Base(input, th), 0)
  {
    hide Named, Only, FromBlocks, WithRotations, RotationDue;
    RotationsName(input, FromBlocks(input, th, |input.blocks|), |input.nodes|);
    BlocksNeverRetire(input, th, |input.blocks|);
    NothingNamed();
    assert DueUpTo(input, th, 0) == {};
  }

  lemma {:induction false} RetireWalk(input: Input, th: Thresholds, k: nat)
    requires k <= |input.nodes| && DistinctIds(input.nodes)
    ensures WalkOk(input, th, WithRetires(input, th, Base(input, th), k), k)
  {
    hide WalkOk, Base;
    if k == 0 {
      WalkStarts(input, th);
    } else {
      RetireWalk(input, th, k - 1);
      var before, n := WithRetires(input, th, Base(input, th), k - 1), input.nodes[k - 1];
      if n.id in Named(before) || n.status != Draining || (n.drainStarted.Some? && !RetireDue(input, th, n)) {
        WalkPasses(input, th, before, k - 1);
        assert before + [] == before;
      } else {
        WalkAdds(input, th, before, k - 1, if n.drainStarted.None? then Noop else Retire);
      }
    }
  }

  /** A node that is passed over is named by a recommendation or not due. */
  lemma WalkPasses(input: Input, th: Thresholds, before: seq<Action>, k: nat)
    requires k < |input.nodes| && DistinctIds(input.nodes) && WalkOk(input, th, before, k)
    requires
      var n := input.nodes[k];
      n.id in Named(before) || n.status != Draining || (n.drainStarted.Some? && !RetireDue(input, th, n))
    ensures WalkOk(input, th, before, k + 1)
  {
    hide Named, Only, FromBlocks, Base;
    DueNext(input, th, k);
    if input.nodes[k].status == Draining { DrainingIsUnnamed(input, th, k, before); }
  }

  /** A node that is taken up was not named before, and is due if it is to be retired. */
  lemma WalkAdds(input: Input, th: Thresholds, before: seq<Action>, k: nat, kind: Kind)
    requires k < |input.nodes| && DistinctIds(input.nodes) && WalkOk(input, th, before, k)
    requires input.nodes[k].id !in Named(before) && input.nodes[k].status == Draining
    requires if RetireDue(input, th, input.nodes[k]) then kind == Retire else kind == Noop
    ensures WalkOk(input, th, before + [Action(kind, input.nodes[k].id, [], None)], k + 1)
  {
    hide Named, Only, FromBlocks, Base, RetireDue;
    var a := Action(kind, input.nodes[k].id, [], None);
    DueNext(input, th, k);
    DrainingIsUnnamed(input, th, k, before);
    NamedNext(before, a);
    OnlyConcat(before, [a], 1);
    OnlySingle(a);
    NamedNext(Only(before, 1), a);
    assert a.node !in DueUpTo(input, th, k);
  }

  lemma OnlySingle(a: Action)
    ensures Only([a], 1) == if a.kind == Retire then [a] else []
  {
  }

  /** A draining node has a name in the list so far only if a recommendation names it. */
  lemma DrainingIsUnnamed(input: Input, th: Thresholds, k: nat, before: seq<Action>)
    requires k < |input.nodes| && DistinctIds(input.nodes) && input.nodes[k].status == Draining && WalkOk(input, th, before, k)
    ensures input.nodes[k].id in Named(before) <==> input.nodes[k].id in Named(FromBlocks(input, th, |input.blocks|))
  {
    hide Named, FromBlocks, WithRotations, Only, DueUpTo;
    RotationsName(input, FromBlocks(input, th, |input.blocks|), |input.nodes|);
  }

  lemma {:induction false} SideCountOfHarmless(a: seq<Action>, k: nat)
    requires k <= |a| && forall i :: 0 <= i < k ==> Class(a[i].kind) == 0
    ensures SideCount(a[..k]) == 0
  {
    if k > 0 {
      SideCountOfHarmless(a, k - 1);
      assert a[..k][..k - 1] == a[..k - 1];
    }
  }

  lemma {:induction false} SideCountOfRetires(a: seq<Action>, h: nat, k: nat)
    requires h <= k <= |a| && (forall i :: 0 <= i < h ==> Class(a[i].kind) == 0) && (forall i :: h <= i < k ==> a[i].kind == Retire)
    ensures SideCount(a[..k]) == k - h
    decreases k
  {
    if k == h {
      SideCountOfHarmless(a, h);
    } else {
      SideCountOfRetires(a, h, k - 1);
      assert a[..k][..k - 1] == a[..k - 1];
    }
  }

  /** Where the retirements lie in the sorted list, and how many side effects precede each. */
  lemma RetiresAreFirst(wanted: seq<Action>, i: nat)
    requires i < |Ordered(wanted)|
    ensures
      var h, retires := |Only(wanted, 0)|, Only(wanted, 1);
      if h <= i < h + |retires| then Ordered(wanted)[i] == retires[i - h] && SideCount(Ordered(wanted)[..i]) == i - h
      else Ordered(wanted)[i].kind != Retire
  {
    hide SideCount, Only;
    var h, retires, sorted := |Only(wanted, 0)|, Only(wanted, 1), Ordered(wanted);
    OnlyHasClass(wanted, 0);
    OnlyHasClass(wanted, 1);
    OnlyHasClass(wanted, 2);
    OnlyHasClass(wanted, 3);
    if h <= i < h + |retires| { SideCountOfRetires(sorted, h, i); }
  }

  /** The retirements of a plan are the first ones wanted, as many as the limit admits. */
  lemma RetiredAre(input: Input, th: Thresholds)
    ensures
      var retires := Only(Wanted(input, th), 1);
      RetiredBy(PlanOf(input, th)) == Named(if |retires| < Limit(th) then retires else retires[..Limit(th)])
  {
    hide SideCount, Wanted, Only, Ordered;
    var wanted, max := Wanted(input, th), Limit(th);
    var h, retires, sorted, plan := |Only(wanted, 0)|, Only(wanted, 1), Ordered(wanted), PlanOf(input, th);
    var done := if |retires| < max then retires else retires[..max];
    OnlyHasClass(wanted, 1);
    forall x | x in RetiredBy(plan) ensures x in Named(done) {
      var i :| 0 <= i < |plan| && plan[i].kind == Retire && plan[i].node == x;
      RetiresAreFirst(wanted, i);
      assert done[i - h].node == x;
    }
    forall x | x in Named(done) ensures x in RetiredBy(plan) {
      var i :| 0 <= i < |done| && done[i].node == x;
      OrderedLength(wanted);
      RetiresAreFirst(wanted, h + i);
      assert plan[h + i] == retires[i];
    }
  }

  lemma OrderedLength(wanted: seq<Action>)
    ensures |Ordered(wanted)| >= |Only(wanted, 0)| + |Only(wanted, 1)|
  {
  }

  /** One cycle retires due nodes only, and as many of them as the limit admits. */
  lemma OneCycleRetires(input: Input, th: Thresholds)
    requires DistinctIds(input.nodes)
    ensures RetiredBy(PlanOf(input, th)) <= Due(input, th)
    ensures |RetiredBy(PlanOf(input, th))| == if |Due(input, th)| < Limit(th) then |Due(input, th)| else Limit(th)
  {
    hide Named, Only, FromBlocks, WithRotations, WithRetires, PlanOf, DueUpTo, RetiredBy;
    assert Wanted(input, th) == WithRetires(input, th, Base(input, th), |input.nodes|);
    RetireWalk(input, th, |input.nodes|);
    RetiredAre(input, th);
    var retires := Only(Wanted(input, th), 1);
    if |retires| >= Limit(th) { PrefixIsDistinct(retires, Limit(th)); }
  }

  lemma {:induction false} PrefixIsDistinct(a: seq<Action>, n: nat)
    requires Distinct(a) && n <= |a|
    ensures Distinct(a[..n]) && Named(a[..n]) <= Named(a)
    decreases |a|
  {
    hide Named;
    if n == |a| {
      assert a[..n] == a;
    } else {
      var init, last := a[..|a| - 1], a[|a| - 1];
      assert a == init + [last] && init[..n] == a[..n];
      NamedNext(init, last);
      NamedIsSmall(init);
      PrefixIsDistinct(init, n);
    }
  }

  /** From one plan to the next what was retired is gone, and no node becomes due or unnamed meanwhile. */
  ghost predicate Progresses(inputs: seq<Input>, th: Thresholds) {
    && (forall i :: 0 <= i < |inputs| ==> DistinctIds(inputs[i].nodes))
    && (forall i :: 0 < i < |inputs| ==> Due(inputs[i], th) <= Due(inputs[i - 1], th) - RetiredBy(PlanOf(inputs[i - 1], th)))
  }

  /** Each cycle works off the limit, so the backlog is empty after as many cycles as it takes. */
  lemma {:induction false} BacklogIsWorkedOff(inputs: seq<Input>, th: Thresholds, k: nat)
    requires k < |inputs| && Progresses(inputs, th)
    ensures |Due(inputs[k], th)| <= if |Due(inputs[0], th)| <= k * Limit(th) then 0 else |Due(inputs[0], th)| - k * Limit(th)
    ensures k * Limit(th) >= |Due(inputs[0], th)| ==> Due(inputs[k], th) == {}
  {
    hide Due, RetiredBy, PlanOf, DistinctIds;
    if k > 0 {
      BacklogIsWorkedOff(inputs, th, k - 1);
      var before, retired := Due(inputs[k - 1], th), RetiredBy(PlanOf(inputs[k - 1], th));
      OneCycleRetires(inputs[k - 1], th);
      Remaining(Due(inputs[k], th), before, retired);
      assert k * Limit(th) == (k - 1) * Limit(th) + Limit(th);
    }
  }

  lemma Remaining(left: set<string>, before: set<string>, gone: set<string>)
    requires left <= before - gone && gone <= before
    ensures |left| <= |before| - |gone|
  {
    assert before == (before - gone) + gone;
    SubsetSize(left, before - gone);
  }
}
