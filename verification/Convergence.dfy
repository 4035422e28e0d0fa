/** Billing's ledger and the control-plane's register agree: revisions are consecutive, no
    request is ever refused, and once everything is delivered the two hold the same state. */
module Convergence {
  import opened Prelude
  import opened Ledger
  import opened Registry
  import opened Protocol
  import opened Invariant
  import opened Preservation
  import opened Credit

  /** The outbox rows of one subscription that carry revision `r`. */
  function RowsOf(s: Store, sub: SubId, r: int): set<DeliveryId> {
    set id | id in s.deliveries && s.deliveries[id].sub == sub && s.deliveries[id].revision == r
  }

  /** A subscription's staged deliveries carry each of the revisions 1 .. schedule.revision
      exactly once and no other, and the schedule is the content of the newest. */
  lemma RevisionsAreConsecutive(catalog: Catalog, moves: seq<Move>, sub: SubId, r: int)
    requires CatalogOk(catalog)
    ensures
      var s := Run(catalog, Init, moves).store;
      var newest := if sub in s.schedules then s.schedules[sub].revision else 0;
      && |RowsOf(s, sub, r)| == (if 1 <= r <= newest then 1 else 0)
      && (forall id :: id in RowsOf(s, sub, r) && r == newest ==> ScheduleOf(s.deliveries[id]) == s.schedules[sub])
  {
    hide Run, Good, TaskOk;
    ReachableIsGood(catalog, moves);
    var s := Run(catalog, Init, moves);
    var v := ViewOf(s);
    SchedulesOfJournal(catalog, v, sub);
    if sub in s.store.schedules { ScheduleIsLast(catalog, v, sub); }
    if sub in s.store.schedules && 1 <= r <= s.store.schedules[sub].revision {
      EntryAt(catalog, v, sub, r - 1);
      OneRowPerRevision(catalog, v, s.store, sub, r);
    } else {
      forall id | id in RowsOf(s.store, sub, r) ensures false {
        RowAt(catalog, v, id);
      }
      assert RowsOf(s.store, sub, r) == {};
    }
  }

  lemma OneRowPerRevision(catalog: Catalog, v: View, s: Store, sub: SubId, r: int)
    requires Good(catalog, v) && s.deliveries == v.deliveries && sub in v.journal && 1 <= r <= |v.journal[sub]|
    ensures
      var e := v.journal[sub][r - 1];
      e.id in s.deliveries && SameTarget(s.deliveries[e.id], e) && RowsOf(s, sub, r) == {e.id}
  {
    hide Good;
    EntryAt(catalog, v, sub, r - 1);
    var e := v.journal[sub][r - 1];
    forall id | id in RowsOf(s, sub, r) ensures id == e.id {
      RowAt(catalog, v, id);
    }
    assert e.id in RowsOf(s, sub, r);
  }

  /** Whatever was lost, repeated or reordered before, a request billing has sent is accepted
      when it arrives: never a conflict, never unknown, never invalid. */
  lemma ArrivalIsNeverRefused(catalog: Catalog, moves: seq<Move>, req: Request)
    requires CatalogOk(catalog) && req in Run(catalog, Init, moves).wire
    ensures ApplyBillingState(Run(catalog, Init, moves).registry, req.sub, req.state).Ok?
  {
    hide Run, Good, TaskOk, ApplyBillingState;
    ReachableIsGood(catalog, moves);
    ArrivalIsGood(catalog, ViewOf(Run(catalog, Init, moves)), req);
  }

  /** The register of every subscription stands at the highest revision accepted for it. */
  lemma RegisterIsHighestAccepted(catalog: Catalog, moves: seq<Move>, sub: SubId)
    requires CatalogOk(catalog) && sub in Run(catalog, Init, moves).registry.subs
    ensures
      var s := Run(catalog, Init, moves);
      var r := s.registry.subs[sub].billingRevision;
      && (forall req :: req in s.accepted && req.sub == sub ==> req.state.revision <= r)
      && (r > 0 ==> exists req :: req in s.accepted && req.sub == sub && req.state.revision == r)
  {
    hide Run, Good, TaskOk;
    ReachableIsGood(catalog, moves);
    var v := ViewOf(Run(catalog, Init, moves));
    RegistryPart(catalog, v);
    NewestAccepted(v, sub);
    if v.registry.subs[sub].billingRevision > 0 { var req := HeldRequest(catalog, v, sub); }
  }

  /** The request behind the register. */
  lemma HeldRequest(catalog: Catalog, v: View, sub: SubId) returns (req: Request)
    requires Good(catalog, v) && sub in v.registry.subs && v.registry.subs[sub].billingRevision > 0
    ensures req in v.accepted && req.sub == sub && req.state.revision == v.registry.subs[sub].billingRevision
  {
    hide Good, RegistryOk, Follows, CreditEntryOk, SameTarget;
    var r := v.registry.subs[sub].billingRevision;
    RegistryPart(catalog, v);
    NewestAccepted(v, sub);
    EntryAt(catalog, v, sub, r - 1);
    req := RequestOf(v.journal[sub][r - 1]);
  }

  lemma NewestAccepted(v: View, sub: SubId)
    requires RegistryOk(v.journal, v.registry, v.accepted) && sub in v.registry.subs
    ensures forall req :: req in v.accepted && req.sub == sub ==> req.state.revision <= v.registry.subs[sub].billingRevision
    ensures
      var r := v.registry.subs[sub].billingRevision;
      r > 0 ==> sub in v.journal && r <= |v.journal[sub]| && RequestOf(v.journal[sub][r - 1]) in v.accepted
  {
    hide RegistryOk, LinksOk, RequestOf;
    RegistryParts(v.journal, v.registry, v.accepted);
    OneRecord(v.journal, v.registry, v.accepted, sub);
  }

  /** The register carries this schedule, to the microsecond, unless it was cancelled by hand. */
  predicate Agrees(r: Subscription, sched: Schedule) {
    && r.billingRevision == sched.revision && r.plan == sched.plan && r.user == sched.user
    && r.expiresAt == Some(Truncate(sched.expiresAt)) && r.graceUntil == Some(Truncate(sched.graceUntil))
    && (r.status == sched.status || r.status == Canceled)
  }

  /** Once every staged delivery of a subscription is marked delivered, the two services agree.
      It is enough that the newest one is. */
  lemma DeliveredMeansConverged(catalog: Catalog, moves: seq<Move>, sub: SubId)
    requires CatalogOk(catalog) && sub in Run(catalog, Init, moves).store.schedules
    requires
      var s := Run(catalog, Init, moves).store;
      forall id :: id in RowsOf(s, sub, s.schedules[sub].revision) ==> s.deliveries[id].deliveredAt.Some?
    ensures
      var s := Run(catalog, Init, moves);
      sub in s.registry.subs && Agrees(s.registry.subs[sub], s.store.schedules[sub])
  {
    hide Run, Good, TaskOk, RowsOf, Agrees;
    ReachableIsGood(catalog, moves);
    var s := Run(catalog, Init, moves);
    var v := ViewOf(s);
    SchedulesOfJournal(catalog, v, sub);
    ScheduleIsLast(catalog, v, sub);
    var last := |v.journal[sub]| - 1;
    OneRowPerRevision(catalog, v, s.store, sub, last + 1);
    var e := v.journal[sub][last];
    assert e.id in RowsOf(s.store, sub, last + 1);
    RowAt(catalog, v, e.id);
    RegistryPart(catalog, v);
    EntryAt(catalog, v, sub, last);
    NewestHeld(v, sub, last);
  }

  lemma NewestHeld(v: View, sub: SubId, last: nat)
    requires RegistryOk(v.journal, v.registry, v.accepted) && sub in v.journal && last == |v.journal[sub]| - 1
    requires RequestOf(v.journal[sub][last]) in v.accepted
    requires v.journal[sub][last].sub == sub && v.journal[sub][last].revision == last + 1
    ensures sub in v.registry.subs && Agrees(v.registry.subs[sub], ScheduleOf(v.journal[sub][last]))
  {
    hide RegistryOk, LinksOk;
    RegistryParts(v.journal, v.registry, v.accepted);
    OneRecord(v.journal, v.registry, v.accepted, sub);
    var req := RequestOf(v.journal[sub][last]);
    assert v.registry.subs[req.sub].billingRevision >= req.state.revision;
  }
}
