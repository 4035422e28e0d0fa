/** The recovery pass as a program: its loops over the two leased batches, each of its calls one
    move of the protocol, with other tasks running between any two of them. */
module Reconcile {
  import opened Prelude
  import opened Ledger
  import opened Registry
  import opened Protocol
  import opened Invariant
  import opened Preservation
  import opened Credit
  import opened Recovery
  import opened MemoryStore

  /** What the other tasks do before the n-th call of the pass, given the state they find. */
  type Environment = (nat, Sys) -> seq<Move>

  /** The others never act as the pass. Beyond that they may do anything. */
  ghost predicate Apart(env: Environment, me: nat) {
    forall n, s :: OthersRun(env(n, s), me)
  }

  /** The others write no verdict over a claimed or settled invoice, stamp no claim inside the
      recovery threshold, and take none of the pass's leases. */
  ghost predicate Quiet(catalog: Catalog, env: Environment, olderThan: Time) {
    forall n, s :: Sound(catalog, s) ==> QuietRun(catalog, s, env(n, s), olderThan)
  }

  /** Ids of new subscriptions are fresh. */
  ghost predicate Mints(newId: Sys -> SubId) {
    forall s :: newId(s) != "" && newId(s) !in s.registry.subs
  }

  /** The counters of one pass. */
  datatype Report = Report(leased: nat, recovered: nat, failed: nat)

  ghost predicate SettledIn(s: Store, i: InvoiceId) {
    i in s.invoices && s.invoices[i].status == Settled
  }

  ghost predicate UserKnown(s: Sys, i: InvoiceId) {
    i in s.store.invoices && s.store.invoices[i].user in s.registry.links
  }

  /** The control-plane knows the account of every stuck claim. */
  ghost predicate AllKnown(s: Sys, olderThan: Time, clock: Time) {
    forall i :: i in StuckClaims(s.store, olderThan, clock) ==> UserKnown(s, i)
  }

  /** The limit covers the backlog, or there is none. */
  ghost predicate Roomy(limit: int, s: Store, olderThan: Time, first: Time, second: Time) {
    limit <= 0 || limit >= |DueDeliveries(s, olderThan, first)| + |StuckClaims(s, olderThan, second)|
  }

  /** No staged target changes or disappears, no delivery or settlement is undone, and a claimed
      invoice is not closed unpaid. */
  ghost predicate Preserved(s: Sys, t: Sys) {
    && RowsKept(s.store.deliveries, t.store.deliveries)
    && InvoicesKept(s.store.invoices, t.store.invoices, s.store.settled.Keys)
    && s.store.settled.Keys <= t.store.settled.Keys
  }

  /** A claimed invoice; among quiet bystanders it stays pending until it is settled. */
  ghost predicate Takeable(quiet: bool, s: Store, i: InvoiceId) {
    i in s.settled && i in s.invoices && (quiet ==> s.invoices[i].status in {Pending, Settled})
  }

  /** The invoice is credited and the credit delivered; among quiet bystanders it stands settled. */
  ghost predicate Finished(quiet: bool, s: Store, i: InvoiceId) {
    DeliveredIn(s, ForInvoice(i)) && (quiet ==> SettledIn(s, i))
  }

  /** What stands since an earlier state, and what quiet bystanders have kept besides. */
  ghost predicate Since(quiet: bool, s: Sys, t: Sys, olderThan: Time) {
    Standing(s, t) && (quiet ==> Kept(s, t, olderThan))
  }

  lemma SinceIsReflexive(quiet: bool, s: Sys, olderThan: Time)
    ensures Since(quiet, s, s, olderThan)
  {
    StandingIsReflexive(s);
    KeptIsReflexive(s, olderThan);
  }

  lemma SinceIsTransitive(quiet: bool, s: Sys, t: Sys, u: Sys, olderThan: Time)
    requires Since(quiet, s, t, olderThan) && Since(quiet, t, u, olderThan)
    ensures Since(quiet, s, u, olderThan)
  {
    hide Standing, Kept;
    StandingIsTransitive(s, t, u);
    if quiet { KeptIsTransitive(s, t, u, olderThan); }
  }

  /** A deployment under recovery: the pass is task `me`, and `mark` is the state at the start of
      the item the pass is working on. */
  class Deployment {
    const catalog: Catalog
    const me: nat
    const env: Environment
    const olderThan: Time
    const now: Time
    const newId: Sys -> SubId
    var sys: Sys
    var calls: nat
    ghost var mark: Sys

    constructor (catalog: Catalog, me: nat, env: Environment, olderThan: Time, now: Time, newId: Sys -> SubId, sys: Sys)
      ensures this.catalog == catalog && this.me == me && this.env == env && this.olderThan == olderThan
      ensures this.now == now && this.newId == newId && this.sys == sys && this.mark == sys
    {
      this.catalog, this.me, this.env, this.olderThan := catalog, me, env, olderThan;
      this.now, this.newId, this.sys, this.calls, this.mark := now, newId, sys, 0, sys;
    }

    ghost predicate Valid()
      reads this
    {
      && CatalogOk(catalog) && now > 0 && Sound(catalog, sys) && Apart(env, me)
      && Mints(newId) && Since(Quietly(), mark, sys, olderThan)
    }

    ghost predicate Quietly() {
      Quiet(catalog, env, olderThan)
    }

    /** Any number of other tasks' calls. */
    method Others()
      requires Valid()
      modifies this
      ensures Valid() && mark == old(mark) && Since(Quietly(), old(sys), sys, olderThan)
      ensures me in sys.tasks <==> me in old(sys).tasks
      ensures me in sys.tasks ==> sys.tasks[me] == old(sys).tasks[me]
    {
      hide Kept, Sound, Run, Standing, QuietRun;
      var moves := env(calls, sys);
      OthersRunKeeps(catalog, sys, moves, me);
      if Quietly() { QuietRunKeeps(catalog, sys, moves, olderThan); }
      SinceIsTransitive(Quietly(), mark, sys, Run(catalog, sys, moves), olderThan);
      calls := calls + 1;
      sys := Run(catalog, sys, moves);
    }

    /** One call of the pass itself. */
    method Call(m: Move)
      requires Valid() && Calm(sys, m, olderThan)
      modifies this
      ensures Valid() && mark == old(mark) && sys == Apply(catalog, old(sys), m)
    {
      hide Kept, Sound, Run, Apply, Standing, Calm, Quiet;
      MoveKeepsSound(catalog, sys, m);
      assert Inv(catalog, sys) by { SoundParts(catalog, sys); }
      AnyMoveStands(catalog, sys, m);
      CalmMoveKeeps(catalog, sys, m, olderThan);
      SinceIsTransitive(Quietly(), mark, sys, Apply(catalog, sys, m), olderThan);
      sys := Apply(catalog, sys, m);
    }

    /** Carries the delivery the pass has in hand to the control-plane and completes it. */
    method Finish(d: Delivery)
      requires Valid() && me in sys.tasks && sys.tasks[me] == Delivering(d)
      modifies this
      ensures Valid() && mark == old(mark) && me !in sys.tasks
      ensures DeliveredIn(sys.store, d.id)
    {
      hide Kept, Standing, Sound, Apply, Quiet, Apart, Mints;
      var req := RequestOf(d);
      SendStep(catalog, sys, me, d);
      Call(Send(me));
      ghost var before := sys;
      Others();
      StandingWire(before, sys);
      ArriveStep(catalog, sys, me, req);
      Call(Arrive(req));
      before := sys;
      Others();
      StandingWire(before, sys);
      ReplyStep(catalog, sys, me, d);
      Call(Reply(me));
      Others();
      CompleteStep(catalog, sys, me, d, now);
      Call(Complete(me, now));
    }

    /** Credits an invoice whose claim the pass has taken up: ensures the subscription, stages the
        target and delivers it. It fails only for an account the control-plane does not know. */
    method CreditInvoice(inv: Invoice) returns (ok: bool)
      requires Valid() && me in sys.tasks && sys.tasks[me] == Crediting(inv)
      modifies this
      ensures Valid() && mark == old(mark) && me !in sys.tasks
      ensures inv.user in old(sys).registry.links ==> ok
      ensures ok ==> DeliveredIn(sys.store, ForInvoice(inv.id))
    {
      hide Kept, Standing, Sound, Apply, Quiet, Apart;
      var candidate := newId(sys);
      EnsureStep(catalog, sys, me, inv, candidate, now);
      Call(EnsureRemote(inv.user, inv.plan, candidate, now));
      if inv.user !in sys.registry.links {
        CrashStep(catalog, sys, me);
        Call(Crash(me));
        return false;
      }
      ghost var before := sys;
      Others();
      StandingLink(before, sys, inv.user);
      EnsureReplyStep(catalog, sys, me, inv);
      var sub := sys.registry.links[inv.user].value;
      Call(EnsureReply(me));
      Others();
      StageStep(catalog, sys, me, inv, sub, now);
      Call(Stage(me, now));
      var d := sys.tasks[me].d;
      Others();
      Finish(d);
      return true;
    }

    /** Delivers one leased outbox row. */
    method Deliver(id: DeliveryId)
      requires Valid() && me !in sys.tasks && id in sys.store.deliveries
      modifies this
      ensures Valid() && mark == old(sys) && me !in sys.tasks && DeliveredIn(sys.store, id)
    {
      hide Kept, Standing, Sound, Apply, Quiet, Apart, Mints;
      SinceIsReflexive(Quietly(), sys, olderThan);
      mark := sys;
      Others();
      StandingRow(mark, sys, id);
      var d := sys.store.deliveries[id];
      PickStep(catalog, sys, me, id);
      Call(PickDelivery(me, id));
      Others();
      Finish(d);
    }

    /** Finishes one leased claim, unless somebody else has in the meantime. A failure leaves the
        claim for a later pass. */
    method FinishSettlement(i: InvoiceId) returns (ok: bool)
      requires Valid() && me !in sys.tasks && Takeable(Quietly(), sys.store, i)
      modifies this
      ensures Valid() && mark == old(sys) && me !in sys.tasks
      ensures UserKnown(old(sys), i) ==> ok
      ensures ok ==> Finished(Quietly(), sys.store, i)
    {
      hide Kept, Standing, Sound, Apply, Quiet, Apart, Mints;
      SinceIsReflexive(Quietly(), sys, olderThan);
      mark := sys;
      Others();
      StillTakeable(Quietly(), mark, sys, olderThan, i);
      var inv := sys.store.invoices[i];
      if inv.status == Settled {
        SettledIsFinished(catalog, sys, i);
        return true;
      }
      TakeUpStep(catalog, sys, me, i);
      Call(PickStuck(me, i));
      Others();
      StandingLink(mark, sys, inv.user);
      ok := CreditInvoice(inv);
      StillTakeable(Quietly(), mark, sys, olderThan, i);
      if ok { DeliveredIsSettled(catalog, sys, i); }
    }

    /** The first half: leases the due rows and delivers each of them, whatever the others do. */
    method DeliverDue(clock: Time, until: Time, limit: int) returns (batch: seq<DeliveryId>)
      requires Valid() && me !in sys.tasks
      modifies this
      ensures Valid() && me !in sys.tasks && Since(Quietly(), old(sys), sys, olderThan)
      ensures DeliveryBatch(old(sys).store, olderThan, clock, limit, batch)
      ensures forall k :: 0 <= k < |batch| ==> DeliveredIn(sys.store, batch[k])
    {
      hide Kept, Standing, Sound, Apply, Quiet, Apart, Mints;
      ghost var start := sys;
      batch := DueBatch(clock, limit);
      LeaseOutboxKeeps(catalog, sys, batch, until, olderThan);
      sys, mark := Apply(catalog, sys, LeaseOutbox(batch, until)), sys;
      for at := 0 to |batch|
        invariant Valid() && me !in sys.tasks && Since(Quietly(), start, sys, olderThan)
        invariant forall i :: 0 <= i < |batch| ==> batch[i] in sys.store.deliveries
        invariant forall i :: 0 <= i < at ==> DeliveredIn(sys.store, batch[i])
      {
        Deliver(batch[at]);
        SinceIsTransitive(Quietly(), start, mark, sys, olderThan);
        forall i | 0 <= i < |batch|
          ensures batch[i] in sys.store.deliveries
          ensures i <= at ==> DeliveredIn(sys.store, batch[i])
        {
          StandingRow(mark, sys, batch[i]);
        }
      }
    }

    /** The second half: leases the stuck claims and finishes each of them. */
    method SettleStuck(clock: Time, until: Time, limit: int) returns (batch: seq<InvoiceId>, failed: nat)
      requires Valid() && me !in sys.tasks
      modifies this
      ensures Valid() && me !in sys.tasks && Standing(old(sys), sys) && (Quietly() ==> Preserved(old(sys), sys))
      ensures StuckBatch(old(sys).store, olderThan, clock, limit, batch)
      ensures failed <= |batch| && (limit > 0 ==> |batch| <= limit)
      ensures forall k :: 0 <= k < |batch| && UserKnown(old(sys), batch[k]) ==> Finished(Quietly(), sys.store, batch[k])
      ensures (forall k :: 0 <= k < |batch| ==> UserKnown(old(sys), batch[k])) ==> failed == 0
    {
      hide Kept, Standing, Sound, Apply, Quiet, Apart, Mints, UserKnown, Finished, Preserved, Takeable, Since;
      hide WorkedOff, StuckBatch;
      ghost var start := sys;
      batch := StuckBatchOf(clock, limit);
      StuckIsTakeable(Quietly(), sys.store, clock, olderThan, limit, batch);
      LeaseClaimsKeeps(catalog, sys, batch, until);
      SameItems(Quietly(), sys, Apply(catalog, sys, LeaseClaims(batch, until)), batch);
      sys := Apply(catalog, sys, LeaseClaims(batch, until));
      SinceIsReflexive(Quietly(), sys, olderThan);
      mark, failed := sys, 0;
      NothingWorkedOff(Quietly(), start, sys, batch);
      for at := 0 to |batch|
        invariant Valid() && me !in sys.tasks && failed <= at && WorkedOff(Quietly(), start, sys, batch, at, failed)
      {
        WorkedOffItem(Quietly(), start, sys, batch, at, failed);
        var ok := FinishSettlement(batch[at]);
        if !ok { failed := failed + 1; }
        OneMoreSettled(Quietly(), start, mark, sys, olderThan, batch, at, if ok then failed else failed - 1, ok);
      }
      AllWorkedOff(Quietly(), start, sys, batch, failed);
      BatchIsCapped(start.store, olderThan, clock, limit, batch);
    }

    /** One pass. Whatever runs between its calls, it takes nothing away, and with room for the
        backlog it delivers every due row. Among quiet bystanders it also reopens nothing and
        settles every stuck claim of a known account. */
    method Reconcile(first: Time, second: Time, until: Time, limit: int) returns (report: Report)
      requires Valid() && me !in sys.tasks
      modifies this
      ensures Valid() && me !in sys.tasks && Standing(old(sys), sys) && (Quietly() ==> Preserved(old(sys), sys))
      ensures report.leased == report.recovered + report.failed && (limit > 0 ==> report.leased <= limit)
      ensures Roomy(limit, old(sys).store, olderThan, first, second) ==>
        forall id :: id in DueDeliveries(old(sys).store, olderThan, first) ==> DeliveredIn(sys.store, id)
      ensures Roomy(limit, old(sys).store, olderThan, first, second) && Quietly() ==>
        && (forall i :: i in StuckClaims(old(sys).store, olderThan, second) && UserKnown(old(sys), i) ==> Finished(true, sys.store, i))
        && (AllKnown(old(sys), olderThan, second) ==> report.failed == 0)
    {
      hide Kept, Standing, Sound, Apply, Quiet, Apart, Mints, UserKnown, Finished, Preserved, DeliveredIn, StuckBatch;
      hide Inv, DeliveredNotPending, SettledDelivered;
      ghost var start := sys;
      var due := DeliverDue(first, until, limit);
      report := Report(|due|, |due|, 0);
      if Quietly() { PreserveKept(start, sys, olderThan); }
      var remaining := limit;
      if remaining > 0 {
        remaining := remaining - |due|;
        if remaining <= 0 {
          if Roomy(limit, start.store, olderThan, first, second) { FullBatchIsAll(start.store, olderThan, first, second, limit, due); }
          return;
        }
      }
      ghost var middle := sys;
      var stuck, failed := SettleStuck(second, until, remaining);
      StandingIsTransitive(start, middle, sys);
      if Roomy(limit, start.store, olderThan, first, second) {
        RoomyBatchIsComplete(start.store, olderThan, first, limit, due);
        StayDelivered(middle, sys, due);
      }
      if Quietly() {
        PreservedTransitive(start, middle, sys);
        SoundParts(catalog, start);
        LaterClaims(catalog, start, middle, olderThan, second);
        if Roomy(limit, start.store, olderThan, first, second) {
          StaySettled(start, middle, sys, olderThan, second, remaining, stuck);
        }
      }
      report := Report(|due| + |stuck|, |due| + |stuck| - failed, failed);
    }

    method DueBatch(clock: Time, limit: int) returns (batch: seq<DeliveryId>)
      ensures DeliveryBatch(sys.store, olderThan, clock, limit, batch)
    {
      var due := DueDeliveries(sys.store, olderThan, clock);
      batch := OldestFirst(due, map id | id in sys.store.deliveries :: sys.store.deliveries[id].createdAt, limit);
    }

    method StuckBatchOf(clock: Time, limit: int) returns (batch: seq<InvoiceId>)
      ensures StuckBatch(sys.store, olderThan, clock, limit, batch)
    {
      var stuck := StuckClaims(sys.store, olderThan, clock);
      batch := OldestFirst(stuck, map i | i in sys.store.settled :: sys.store.settled[i].claimedAt, limit);
    }
  }

  lemma SoundParts(catalog: Catalog, s: Sys)
    requires Sound(catalog, s)
    ensures Inv(catalog, s) && DeliveredNotPending(s.store) && SettledDelivered(s.store)
  {
    hide Inv, DeliveredNotPending, SettledDelivered;
  }

  // ----- what is kept, one item at a time ---------------------------------------------------

  lemma StandingWire(s: Sys, t: Sys)
    requires Standing(s, t)
    ensures s.wire <= t.wire && s.accepted <= t.accepted
  {
    hide RowsKept, FactsStay, LinksKept;
  }

  lemma StandingRow(s: Sys, t: Sys, id: DeliveryId)
    requires Standing(s, t) && id in s.store.deliveries
    ensures id in t.store.deliveries
    ensures DeliveredIn(s.store, id) ==> DeliveredIn(t.store, id)
  {
    hide FactsStay, LinksKept;
  }

  lemma StandingLink(s: Sys, t: Sys, user: UserId)
    requires Standing(s, t)
    ensures user in s.registry.links ==>
      user in t.registry.links && (s.registry.links[user].Some? ==> t.registry.links[user] == s.registry.links[user])
  {
    hide RowsKept, FactsStay;
  }

  lemma StandingClaim(s: Sys, t: Sys, i: InvoiceId)
    requires Standing(s, t) && i in s.store.settled && i in s.store.invoices
    ensures i in t.store.settled && i in t.store.invoices && t.store.invoices[i].user == s.store.invoices[i].user
  {
    hide RowsKept, LinksKept;
  }

  lemma KeptStatus(s: Sys, t: Sys, olderThan: Time, i: InvoiceId)
    requires Kept(s, t, olderThan) && Takeable(true, s.store, i)
    ensures Takeable(true, t.store, i) && (SettledIn(s.store, i) ==> SettledIn(t.store, i))
  {
    hide RowsKept, LinksKept;
  }

  lemma StillTakeable(quiet: bool, s: Sys, t: Sys, olderThan: Time, i: InvoiceId)
    requires Since(quiet, s, t, olderThan) && Takeable(quiet, s.store, i)
    ensures Takeable(quiet, t.store, i) && t.store.invoices[i].user == s.store.invoices[i].user
    ensures quiet && SettledIn(s.store, i) ==> SettledIn(t.store, i)
  {
    hide Standing, Kept;
    StandingClaim(s, t, i);
    if quiet { KeptStatus(s, t, olderThan, i); }
  }

  lemma SettledIsFinished(catalog: Catalog, s: Sys, i: InvoiceId)
    requires Sound(catalog, s) && SettledIn(s.store, i)
    ensures forall quiet :: Finished(quiet, s.store, i)
  {
    hide Inv, DeliveredNotPending;
  }

  // ----- the calls of the pass ----------------------------------------------------------------

  lemma SendStep(catalog: Catalog, s: Sys, me: nat, d: Delivery)
    requires me in s.tasks && s.tasks[me] == Delivering(d)
    ensures Calm(s, Send(me), 0)
    ensures
      var t := Apply(catalog, s, Send(me));
      me in t.tasks && t.tasks[me] == Sent(d) && RequestOf(d) in t.wire
  {
  }

  lemma ArriveStep(catalog: Catalog, s: Sys, me: nat, req: Request)
    requires CatalogOk(catalog) && Sound(catalog, s) && me in s.tasks && req in s.wire
    ensures
      var t := Apply(catalog, s, Arrive(req));
      me in t.tasks && t.tasks[me] == s.tasks[me] && req in t.accepted
  {
    hide Inv, DeliveredNotPending, SettledDelivered, ApplyBillingState;
    ArriveKeeps(catalog, s, req);
  }

  lemma ReplyStep(catalog: Catalog, s: Sys, me: nat, d: Delivery)
    requires me in s.tasks && s.tasks[me] == Sent(d) && RequestOf(d) in s.accepted
    ensures
      var t := Apply(catalog, s, Reply(me));
      me in t.tasks && t.tasks[me] == Accepted(d)
  {
  }

  lemma CompleteStep(catalog: Catalog, s: Sys, me: nat, d: Delivery, clock: Time)
    requires CatalogOk(catalog) && Sound(catalog, s) && me in s.tasks && s.tasks[me] == Accepted(d)
    ensures
      var t := Apply(catalog, s, Complete(me, clock));
      me !in t.tasks && d.id in t.store.deliveries && t.store.deliveries[d.id].deliveredAt.Some?
  {
    hide Inv, DeliveredNotPending, SettledDelivered;
    CompleteDeliveryKeeps(catalog, s, me, clock);
  }

  lemma PickStep(catalog: Catalog, s: Sys, me: nat, id: DeliveryId)
    requires Sound(catalog, s) && me !in s.tasks && id in s.store.deliveries
    ensures
      var t := Apply(catalog, s, PickDelivery(me, id));
      me in t.tasks && t.tasks[me] == Delivering(s.store.deliveries[id]) && s.store.deliveries[id].id == id
  {
    hide Good, DeliveredNotPending, SettledDelivered;
    RowInvoice(catalog, ViewOf(s), id);
  }

  lemma CrashStep(catalog: Catalog, s: Sys, me: nat)
    ensures me !in Apply(catalog, s, Crash(me)).tasks
  {
  }

  lemma TakeUpStep(catalog: Catalog, s: Sys, me: nat, i: InvoiceId)
    requires Sound(catalog, s) && me !in s.tasks && i in s.store.settled && i in s.store.invoices
    requires s.store.invoices[i].status != Settled
    ensures
      var t := Apply(catalog, s, PickStuck(me, i));
      me in t.tasks && t.tasks[me] == Crediting(s.store.invoices[i]) && s.store.invoices[i].id == i
  {
    hide Good, DeliveredNotPending, SettledDelivered;
    InvoiceKey(catalog, ViewOf(s), i);
  }

  lemma EnsureStep(catalog: Catalog, s: Sys, me: nat, inv: Invoice, newId: SubId, now: Time)
    requires CatalogOk(catalog) && Sound(catalog, s) && me in s.tasks && s.tasks[me] == Crediting(inv)
    requires newId != "" && newId !in s.registry.subs
    ensures
      var t := Apply(catalog, s, EnsureRemote(inv.user, inv.plan, newId, now));
      && me in t.tasks && t.tasks[me] == Crediting(inv)
      && (inv.user in s.registry.links <==> inv.user in t.registry.links)
      && (inv.user in t.registry.links ==> t.registry.links[inv.user].Some?)
  {
    hide Good, DeliveredNotPending, SettledDelivered;
    assert TaskOk(ViewOf(s), s.tasks[me]);
    KnownPlan(catalog, ViewOf(s), inv);
    LinkedUser(catalog, ViewOf(s), inv.user);
  }

  lemma KnownPlan(catalog: Catalog, v: View, inv: Invoice)
    requires Good(catalog, v) && Known(v, inv)
    ensures inv.plan in catalog
  {
    hide JournalOk, OutboxOk, WireOk, RegistryOk;
  }

  lemma EnsureReplyStep(catalog: Catalog, s: Sys, me: nat, inv: Invoice)
    requires Sound(catalog, s) && me in s.tasks && s.tasks[me] == Crediting(inv)
    requires inv.user in s.registry.links && s.registry.links[inv.user].Some?
    ensures
      var t := Apply(catalog, s, EnsureReply(me));
      me in t.tasks && t.tasks[me] == Ensured(inv, s.registry.links[inv.user].value)
  {
    hide Good, DeliveredNotPending, SettledDelivered;
    LinkedUser(catalog, ViewOf(s), inv.user);
  }

  lemma StageStep(catalog: Catalog, s: Sys, me: nat, inv: Invoice, sub: SubId, now: Time)
    requires CatalogOk(catalog) && Sound(catalog, s) && me in s.tasks && s.tasks[me] == Ensured(inv, sub) && now > 0
    ensures
      var t := Apply(catalog, s, Stage(me, now));
      me in t.tasks && t.tasks[me].Delivering? && t.tasks[me].d.id == ForInvoice(inv.id)
  {
    hide Good, DeliveredNotPending, SettledDelivered;
    var v := ViewOf(s);
    assert TaskOk(v, s.tasks[me]);
    KnownPlan(catalog, v, inv);
    if inv.id in s.store.invoiceDeliveries {
      IndexedIsStaged(catalog, v, inv.id);
      IndexIsInvoice(catalog, v, inv.id);
    } else {
      CreditIsAppendable(catalog, v, s.store, inv, sub, now);
    }
  }

  /** A delivered credit leaves its invoice settled, or overwritten by a provider's verdict. */
  lemma DeliveredIsSettled(catalog: Catalog, s: Sys, i: InvoiceId)
    requires Sound(catalog, s) && ForInvoice(i) in s.store.deliveries && i in s.store.invoices
    requires s.store.deliveries[ForInvoice(i)].deliveredAt.Some?
    ensures s.store.invoices[i].status != Pending
  {
    hide Good, NotPending;
    CreditRowNames(catalog, ViewOf(s), i);
    RowNotPending(s.store, s.store.deliveries[ForInvoice(i)], ForInvoice(i));
    NotPendingMeans(s.store, s.store.deliveries[ForInvoice(i)], i);
  }

  lemma NotPendingMeans(s: Store, d: Delivery, i: InvoiceId)
    requires NotPending(s, d) && d.deliveredAt.Some? && d.invoice == Some(i) && i in s.invoices
    ensures s.invoices[i].status != Pending
  {
  }

  lemma CreditRowNames(catalog: Catalog, v: View, i: InvoiceId)
    requires Good(catalog, v) && ForInvoice(i) in v.deliveries
    ensures v.deliveries[ForInvoice(i)].invoice == Some(i)
  {
    hide Good;
    RowAt(catalog, v, ForInvoice(i));
  }

  // ----- the leases -----------------------------------------------------------------------------

  /** Taking leases on outbox rows changes nothing else. */
  lemma LeaseOutboxKeeps(catalog: Catalog, s: Sys, ids: seq<DeliveryId>, until: Time, olderThan: Time)
    requires CatalogOk(catalog) && Sound(catalog, s)
    ensures
      var t := Apply(catalog, s, LeaseOutbox(ids, until));
      && Sound(catalog, t) && Since(true, s, t, olderThan) && Since(false, s, t, olderThan)
      && t.tasks == s.tasks && t.store.deliveries == s.store.deliveries
  {
    hide Sound, RowsKept, InvoicesKept, ClaimsStand, LinksKept, FactsStay;
    MoveKeepsSound(catalog, s, LeaseOutbox(ids, until));
    SinceIsReflexive(true, s, olderThan);
  }

  /** Taking leases on claims changes only the leases. */
  lemma LeaseClaimsKeeps(catalog: Catalog, s: Sys, ids: seq<InvoiceId>, until: Time)
    requires CatalogOk(catalog) && Sound(catalog, s)
    ensures
      var t := Apply(catalog, s, LeaseClaims(ids, until));
      && Sound(catalog, t) && t.tasks == s.tasks && t.registry == s.registry && Preserved(s, t) && Standing(s, t)
      && t.store.invoices == s.store.invoices && t.store.settled.Keys == s.store.settled.Keys
  {
    hide Sound, RowsKept, InvoicesKept, FactsStay, LinksKept;
    MoveKeepsSound(catalog, s, LeaseClaims(ids, until));
    StandingIsReflexive(s);
    InvoicesStand(s.store.invoices, s.store.settled.Keys);
  }

  lemma SameItems(quiet: bool, s: Sys, t: Sys, batch: seq<InvoiceId>)
    requires t.store.invoices == s.store.invoices && t.store.settled.Keys == s.store.settled.Keys && t.registry == s.registry
    requires forall k :: 0 <= k < |batch| ==> Takeable(quiet, s.store, batch[k])
    ensures forall k :: 0 <= k < |batch| ==> Takeable(quiet, t.store, batch[k])
    ensures forall k :: 0 <= k < |batch| && UserKnown(s, batch[k]) ==> UserKnown(t, batch[k])
  {
  }

  lemma StuckIsTakeable(quiet: bool, s: Store, clock: Time, olderThan: Time, limit: int, batch: seq<InvoiceId>)
    requires StuckBatch(s, olderThan, clock, limit, batch)
    ensures forall k :: 0 <= k < |batch| ==> Takeable(quiet, s, batch[k])
  {
  }

  lemma KeptItem(quiet: bool, s: Sys, t: Sys, olderThan: Time, i: InvoiceId)
    requires Since(quiet, s, t, olderThan) && Takeable(quiet, s.store, i)
    ensures Takeable(quiet, t.store, i)
    ensures UserKnown(s, i) ==> UserKnown(t, i)
    ensures Finished(quiet, s.store, i) ==> Finished(quiet, t.store, i)
  {
    hide Kept, Standing;
    StillTakeable(quiet, s, t, olderThan, i);
    StandingLink(s, t, s.store.invoices[i].user);
    if DeliveredIn(s.store, ForInvoice(i)) { StandingRow(s, t, ForInvoice(i)); }
  }

  /** The second half of the pass has dealt with the first `at` claims of its batch. */
  ghost predicate WorkedOff(quiet: bool, start: Sys, s: Sys, batch: seq<InvoiceId>, at: nat, failed: nat)
    requires at <= |batch|
  {
    && Standing(start, s) && (quiet ==> Preserved(start, s))
    && (forall k :: 0 <= k < |batch| ==> Takeable(quiet, s.store, batch[k]))
    && (forall k :: 0 <= k < |batch| && UserKnown(start, batch[k]) ==> UserKnown(s, batch[k]))
    && (forall k :: 0 <= k < at && UserKnown(start, batch[k]) ==> Finished(quiet, s.store, batch[k]))
    && ((forall k :: 0 <= k < |batch| ==> UserKnown(start, batch[k])) ==> failed == 0)
  }

  lemma NothingWorkedOff(quiet: bool, start: Sys, s: Sys, batch: seq<InvoiceId>)
    requires Standing(start, s) && Preserved(start, s)
    requires forall k :: 0 <= k < |batch| ==> Takeable(quiet, s.store, batch[k])
    requires forall k :: 0 <= k < |batch| && UserKnown(start, batch[k]) ==> UserKnown(s, batch[k])
    ensures WorkedOff(quiet, start, s, batch, 0, 0)
  {
    hide Standing, Preserved, Takeable, UserKnown, Finished;
  }

  lemma AllWorkedOff(quiet: bool, start: Sys, s: Sys, batch: seq<InvoiceId>, failed: nat)
    requires WorkedOff(quiet, start, s, batch, |batch|, failed)
    ensures Standing(start, s) && (quiet ==> Preserved(start, s))
    ensures forall k :: 0 <= k < |batch| && UserKnown(start, batch[k]) ==> Finished(quiet, s.store, batch[k])
    ensures (forall k :: 0 <= k < |batch| ==> UserKnown(start, batch[k])) ==> failed == 0
  {
    hide Standing, Preserved, Takeable, UserKnown, Finished;
  }

  lemma BatchIsCapped(s: Store, olderThan: Time, clock: Time, limit: int, batch: seq<InvoiceId>)
    requires StuckBatch(s, olderThan, clock, limit, batch)
    ensures limit > 0 ==> |batch| <= limit
  {
    hide StuckClaims;
  }

  lemma WorkedOffItem(quiet: bool, start: Sys, s: Sys, batch: seq<InvoiceId>, at: nat, failed: nat)
    requires at < |batch| && WorkedOff(quiet, start, s, batch, at, failed)
    ensures Takeable(quiet, s.store, batch[at])
  {
    hide Standing, Preserved, Takeable, UserKnown, Finished;
  }

  lemma OneMoreSettled(quiet: bool, start: Sys, mark: Sys, s: Sys, olderThan: Time, batch: seq<InvoiceId>, at: nat, failed: nat, ok: bool)
    requires at < |batch| && WorkedOff(quiet, start, mark, batch, at, failed) && Since(quiet, mark, s, olderThan)
    requires (UserKnown(mark, batch[at]) ==> ok) && (ok ==> Finished(quiet, s.store, batch[at]))
    ensures WorkedOff(quiet, start, s, batch, at + 1, if ok then failed else failed + 1)
  {
    hide Standing, Preserved, Takeable, UserKnown, Finished, Kept;
    StandingIsTransitive(start, mark, s);
    if quiet { Preserve(start, mark, s, olderThan); }
    KeptItems(quiet, mark, s, olderThan, batch);
  }

  lemma KeptItems(quiet: bool, s: Sys, t: Sys, olderThan: Time, batch: seq<InvoiceId>)
    requires Since(quiet, s, t, olderThan) && forall k :: 0 <= k < |batch| ==> Takeable(quiet, s.store, batch[k])
    ensures forall k :: 0 <= k < |batch| ==> Takeable(quiet, t.store, batch[k])
    ensures forall k :: 0 <= k < |batch| && UserKnown(s, batch[k]) ==> UserKnown(t, batch[k])
    ensures forall k :: 0 <= k < |batch| && Finished(quiet, s.store, batch[k]) ==> Finished(quiet, t.store, batch[k])
  {
    hide Since, Takeable, UserKnown, Finished;
    forall k | 0 <= k < |batch|
      ensures Takeable(quiet, t.store, batch[k])
      ensures UserKnown(s, batch[k]) ==> UserKnown(t, batch[k])
      ensures Finished(quiet, s.store, batch[k]) ==> Finished(quiet, t.store, batch[k])
    {
      KeptItem(quiet, s, t, olderThan, batch[k]);
    }
  }

  /** What the second lease finds of the claims that were stuck at the first. */
  ghost predicate ClaimsCarried(s: Sys, t: Sys, olderThan: Time, clock: Time) {
    && StuckClaims(t.store, olderThan, clock) <= StuckClaims(s.store, olderThan, clock)
    && (forall i :: i in StuckClaims(s.store, olderThan, clock) ==>
         && (i in StuckClaims(t.store, olderThan, clock) || Finished(true, t.store, i))
         && (UserKnown(s, i) ==> UserKnown(t, i)))
  }

  /** Between the two leases no claim becomes stuck, and one that stops being stuck is settled. */
  lemma LaterClaims(catalog: Catalog, s: Sys, t: Sys, olderThan: Time, clock: Time)
    requires Inv(catalog, s) && Sound(catalog, t) && Since(true, s, t, olderThan)
    ensures |StuckClaims(t.store, olderThan, clock)| <= |StuckClaims(s.store, olderThan, clock)|
    ensures ClaimsCarried(s, t, olderThan, clock)
  {
    hide Inv, Sound, Kept, Standing, UserKnown, SettledIn, Finished, IsStuck;
    var before, after := StuckClaims(s.store, olderThan, clock), StuckClaims(t.store, olderThan, clock);
    forall i | i in after ensures i in before { WasStuck(catalog, s, t, olderThan, clock, i); }
    SubsetSize(after, before);
    forall i | i in before ensures (i in after || Finished(true, t.store, i)) && (UserKnown(s, i) ==> UserKnown(t, i)) {
      StillStuck(s, t, olderThan, clock, i);
      if SettledIn(t.store, i) { SettledIsFinished(catalog, t, i); }
    }
  }

  lemma WasStuck(catalog: Catalog, s: Sys, t: Sys, olderThan: Time, clock: Time, i: InvoiceId)
    requires Inv(catalog, s) && Kept(s, t, olderThan) && i in t.store.settled && IsStuck(t.store, i, olderThan, clock)
    ensures i in s.store.settled && IsStuck(s.store, i, olderThan, clock)
  {
    hide Good, TaskOk, RowsKept, LinksKept;
    assert i in s.store.settled;
    ClaimHasEvidence(catalog, ViewOf(s), i);
    assert i in s.store.invoices;
  }

  lemma StillStuck(s: Sys, t: Sys, olderThan: Time, clock: Time, i: InvoiceId)
    requires Since(true, s, t, olderThan) && i in s.store.settled && IsStuck(s.store, i, olderThan, clock)
    ensures i in t.store.settled && (IsStuck(t.store, i, olderThan, clock) || SettledIn(t.store, i))
    ensures UserKnown(s, i) ==> UserKnown(t, i)
  {
    hide RowsKept, Standing, LinksKept;
    KeptItem(true, s, t, olderThan, i);
  }

  /** When the due rows use up a limit that covers the backlog, no claim is stuck. */
  lemma FullBatchIsAll(s: Store, olderThan: Time, first: Time, second: Time, limit: int, due: seq<DeliveryId>)
    requires Roomy(limit, s, olderThan, first, second) && DeliveryBatch(s, olderThan, first, limit, due) && 0 < limit <= |due|
    ensures StuckClaims(s, olderThan, second) == {}
    ensures forall id :: id in DueDeliveries(s, olderThan, first) ==> id in due
  {
    hide DueDeliveries, StuckClaims;
    RoomyBatchIsComplete(s, olderThan, first, limit, due);
  }

  lemma StayDelivered(s: Sys, t: Sys, ids: seq<DeliveryId>)
    requires Standing(s, t) && forall k :: 0 <= k < |ids| ==> DeliveredIn(s.store, ids[k])
    ensures forall id :: id in ids ==> DeliveredIn(t.store, id)
  {
    hide Standing, DeliveredIn;
    forall k | 0 <= k < |ids| ensures DeliveredIn(t.store, ids[k]) {
      DeliveredStands(s, t, ids[k]);
    }
  }

  lemma DeliveredStands(s: Sys, t: Sys, id: DeliveryId)
    requires Standing(s, t) && DeliveredIn(s.store, id)
    ensures DeliveredIn(t.store, id)
  {
    hide Standing;
    StandingRow(s, t, id);
  }

  lemma StaySettled(s: Sys, mid: Sys, t: Sys, olderThan: Time, clock: Time, limit: int, batch: seq<InvoiceId>)
    requires Standing(mid, t) && Preserved(mid, t) && StuckBatch(mid.store, olderThan, clock, limit, batch)
    requires limit <= 0 || |StuckClaims(mid.store, olderThan, clock)| <= limit
    requires ClaimsCarried(s, mid, olderThan, clock)
    requires forall k :: 0 <= k < |batch| && UserKnown(mid, batch[k]) ==> Finished(true, t.store, batch[k])
    ensures forall i :: i in StuckClaims(s.store, olderThan, clock) && UserKnown(s, i) ==> Finished(true, t.store, i)
    ensures AllKnown(s, olderThan, clock) ==> forall k :: 0 <= k < |batch| ==> UserKnown(mid, batch[k])
  {
    hide RowsKept, IsStuck, UserKnown, Finished, Standing, Preserved;
    RoomyStuckBatchIsComplete(mid.store, olderThan, clock, limit, batch);
    forall i | Finished(true, mid.store, i) ensures Finished(true, t.store, i) { FinishedStands(mid, t, i); }
  }

  lemma FinishedStands(s: Sys, t: Sys, i: InvoiceId)
    requires Standing(s, t) && Preserved(s, t) && Finished(true, s.store, i)
    ensures Finished(true, t.store, i)
  {
    hide Standing, RowsKept, DeliveredIn;
    DeliveredStands(s, t, ForInvoice(i));
  }

  lemma PreservedTransitive(s: Sys, t: Sys, u: Sys)
    requires Preserved(s, t) && Preserved(t, u)
    ensures Preserved(s, u)
  {
  }

  lemma PreserveKept(s: Sys, t: Sys, olderThan: Time)
    requires Kept(s, t, olderThan)
    ensures Preserved(s, t)
  {
    hide RowsKept, InvoicesKept, LinksKept;
  }

  lemma Preserve(s: Sys, t: Sys, u: Sys, olderThan: Time)
    requires Preserved(s, t) && Kept(t, u, olderThan)
    ensures Preserved(s, u)
  {
    hide LinksKept;
  }

  /** A claim backed by a covering payment event. */
  ghost predicate PaidClaim(s: Sys, i: InvoiceId) {
    i in s.store.settled && i in s.store.invoices && exists ev :: ev in s.evidence && Settling(ev, s.store.invoices[i])
  }

  /** What a pass grants: every earlier credit stands, every credit is of a claimed and paid invoice,
      and the paid time is still exactly the sum of the bought durations, so no period is extra. */
  lemma NoExtraPeriod(catalog: Catalog, s: Sys, t: Sys, sub: SubId)
    requires CatalogOk(catalog) && Sound(catalog, t) && Standing(s, t)
    ensures Credits(s.store, sub) <= Credits(t.store, sub)
    ensures forall i :: i in Credits(t.store, sub) ==> PaidClaim(t, i)
    ensures |PaidInstants(catalog, t.store, sub)| == SumOver(Credits(t.store, sub), i => Duration(catalog, t.store, i))
  {
    hide Good, TaskOk, Settling, FactsStay, LinksKept, PaidInstants, DeliveredNotPending, SettledDelivered;
    PaidTimeOf(catalog, t, sub);
    forall i | i in Credits(s.store, sub) ensures i in Credits(t.store, sub) {
      IndexOfRow(catalog, ViewOf(t), i);
    }
    forall i | i in Credits(t.store, sub) ensures PaidClaim(t, i) {
      CreditIsClaimed(catalog, t, sub, i);
      var ev := EvidenceOf(catalog, t, i);
    }
  }

  lemma CreditIsClaimed(catalog: Catalog, s: Sys, sub: SubId, i: InvoiceId)
    requires CatalogOk(catalog) && Inv(catalog, s) && i in Credits(s.store, sub)
    ensures i in s.store.settled
  {
    hide Good, TaskOk;
    RowAt(catalog, ViewOf(s), ForInvoice(i));
  }
}
