/** What the credit protocol guarantees over every run: paid time is conserved, a staged target
    never changes, and access rests on a paid credit. */
module Credit {
  import opened Prelude
  import opened Ledger
  import opened Registry
  import opened Protocol
  import opened Invariant
  import opened Preservation

  // ----- reading the invariant --------------------------------------------------------------

  lemma EntryAt(catalog: Catalog, v: View, sub: SubId, k: nat)
    requires Good(catalog, v) && sub in v.journal && k < |v.journal[sub]|
    ensures EntryOk(catalog, sub, v.journal[sub], k, v.deliveries, v.facts, v.claims)
  {
    hide OutboxOk, WireOk, RegistryOk, InvoicesOk, EntryOk;
    assert LogOk(catalog, sub, v.journal[sub], v.deliveries, v.facts, v.claims);
  }

  /** The journal position of an outbox row. */
  lemma RowAt(catalog: Catalog, v: View, id: DeliveryId)
    requires Good(catalog, v) && id in v.deliveries
    ensures
      var d := v.deliveries[id];
      && RowOk(v.journal, v.accepted, id, d)
      && EntryOk(catalog, d.sub, v.journal[d.sub], d.revision - 1, v.deliveries, v.facts, v.claims)
  {
    hide JournalOk, WireOk, RegistryOk, InvoicesOk, EntryOk;
    EntryAt(catalog, v, v.deliveries[id].sub, v.deliveries[id].revision - 1);
  }

  /** Along a journal the paid-through instant never moves back. */
  lemma {:induction false} ExpiryRises(catalog: Catalog, v: View, sub: SubId, j: nat, k: nat)
    requires CatalogOk(catalog) && Good(catalog, v) && sub in v.journal && j <= k < |v.journal[sub]|
    ensures v.journal[sub][j].expiresAt <= v.journal[sub][k].expiresAt
  {
    hide Good;
    if j < k {
      ExpiryRises(catalog, v, sub, j, k - 1);
      EntryAt(catalog, v, sub, k);
    }
  }

  // ----- conservation of paid time ----------------------------------------------------------

  /** The invoices credited to a subscription. */
  function Credits(s: Store, sub: SubId): set<InvoiceId> {
    set i | i in s.invoiceDeliveries && ForInvoice(i) in s.deliveries && s.deliveries[ForInvoice(i)].sub == sub
  }

  function Duration(catalog: Catalog, s: Store, i: InvoiceId): Time {
    if ForInvoice(i) in s.deliveries && s.deliveries[ForInvoice(i)].plan in catalog then
      catalog[s.deliveries[ForInvoice(i)].plan].duration
    else 0
  }

  /** The instants one credited invoice pays for. */
  function Period(catalog: Catalog, s: Store, i: InvoiceId): set<Time> {
    if ForInvoice(i) in s.deliveries then
      Range(s.deliveries[ForInvoice(i)].expiresAt - Duration(catalog, s, i), s.deliveries[ForInvoice(i)].expiresAt)
    else {}
  }

  function PaidInstants(catalog: Catalog, s: Store, sub: SubId): set<Time> {
    UnionOf(Credits(s, sub), i => Period(catalog, s, i))
  }

  /** A later credit starts where every earlier one has ended. */
  lemma LaterCreditStartsLater(catalog: Catalog, v: View, sub: SubId, j: nat, k: nat)
    requires CatalogOk(catalog) && Good(catalog, v) && sub in v.journal && j < k < |v.journal[sub]|
    requires v.journal[sub][k].invoice.Some?
    ensures v.journal[sub][k].plan in catalog
    ensures v.journal[sub][j].expiresAt <= v.journal[sub][k].expiresAt - catalog[v.journal[sub][k].plan].duration
  {
    hide Good;
    ExpiryRises(catalog, v, sub, j, k - 1);
    EntryAt(catalog, v, sub, k);
  }

  /** Where the row of a credited invoice stands in the journal, and the period it pays for. */
  lemma CreditRow(catalog: Catalog, s: Sys, sub: SubId, i: InvoiceId)
    requires CatalogOk(catalog) && Inv(catalog, s) && i in Credits(s.store, sub)
    ensures ForInvoice(i) in s.store.deliveries
    ensures
      var d := s.store.deliveries[ForInvoice(i)];
      && d.sub == sub && sub in s.journal && 1 <= d.revision <= |s.journal[sub]|
      && var e := s.journal[sub][d.revision - 1];
         && e.id == ForInvoice(i) && e.invoice == Some(i) && e.plan in catalog
         && Period(catalog, s.store, i) == Range(e.expiresAt - catalog[e.plan].duration, e.expiresAt)
         && |Period(catalog, s.store, i)| == catalog[e.plan].duration == Duration(catalog, s.store, i)
  {
    hide Good, TaskOk;
    RowAt(catalog, ViewOf(s), ForInvoice(i));
  }

  /** Two invoices credited to one subscription never pay for the same instant. */
  lemma PeriodsDisjoint(catalog: Catalog, s: Sys, sub: SubId, i: InvoiceId, j: InvoiceId)
    requires CatalogOk(catalog) && Inv(catalog, s)
    requires i in Credits(s.store, sub) && j in Credits(s.store, sub) && i != j
    ensures Period(catalog, s.store, i) !! Period(catalog, s.store, j)
  {
    hide Good, TaskOk, Credits, Period, Duration;
    CreditRow(catalog, s, sub, i);
    CreditRow(catalog, s, sub, j);
    var d, e := s.store.deliveries[ForInvoice(i)], s.store.deliveries[ForInvoice(j)];
    if d.revision < e.revision {
      LaterCreditStartsLater(catalog, ViewOf(s), sub, d.revision - 1, e.revision - 1);
    } else {
      LaterCreditStartsLater(catalog, ViewOf(s), sub, e.revision - 1, d.revision - 1);
    }
  }

  /** Over every interleaving of webhooks, polls, recovery passes, sweeps and crashes, under any
      clocks: the instants a subscription's credits pay for number exactly the sum of the bought
      durations, and they all lie before the paid-through instant of its schedule. */
  lemma PaidTimeConserved(catalog: Catalog, moves: seq<Move>, sub: SubId)
    requires CatalogOk(catalog)
    ensures
      var s := Run(catalog, Init, moves).store;
      && |PaidInstants(catalog, s, sub)| == SumOver(Credits(s, sub), i => Duration(catalog, s, i))
      && (forall t :: t in PaidInstants(catalog, s, sub) ==> sub in s.schedules && t < s.schedules[sub].expiresAt)
  {
    hide Run;
    ReachableIsGood(catalog, moves);
    var s := Run(catalog, Init, moves);
    PaidTimeOf(catalog, s, sub);
  }

  lemma PaidTimeOf(catalog: Catalog, s: Sys, sub: SubId)
    requires CatalogOk(catalog) && Inv(catalog, s)
    ensures |PaidInstants(catalog, s.store, sub)| == SumOver(Credits(s.store, sub), i => Duration(catalog, s.store, i))
    ensures forall t :: t in PaidInstants(catalog, s.store, sub) ==>
      sub in s.store.schedules && t < s.store.schedules[sub].expiresAt
  {
    hide Good, TaskOk, Period, Duration;
    var credits := Credits(s.store, sub);
    forall i, j | i in credits && j in credits && i != j
      ensures Period(catalog, s.store, i) !! Period(catalog, s.store, j)
    {
      PeriodsDisjoint(catalog, s, sub, i, j);
    }
    forall i | i in credits
      ensures |Period(catalog, s.store, i)| == Duration(catalog, s.store, i)
      ensures sub in s.store.schedules && forall t :: t in Period(catalog, s.store, i) ==> t < s.store.schedules[sub].expiresAt
    {
      PeriodOfCredit(catalog, s, sub, i);
    }
    DisjointUnionSize(credits, i => Period(catalog, s.store, i), i => Duration(catalog, s.store, i));
  }

  lemma PeriodOfCredit(catalog: Catalog, s: Sys, sub: SubId, i: InvoiceId)
    requires CatalogOk(catalog) && Inv(catalog, s) && i in Credits(s.store, sub)
    ensures |Period(catalog, s.store, i)| == Duration(catalog, s.store, i)
    ensures sub in s.store.schedules && forall t :: t in Period(catalog, s.store, i) ==> t < s.store.schedules[sub].expiresAt
  {
    hide Good, TaskOk, Period, Duration;
    var v := ViewOf(s);
    CreditRow(catalog, s, sub, i);
    SchedulesOfJournal(catalog, v, sub);
    ScheduleIsLast(catalog, v, sub);
    ExpiryRises(catalog, v, sub, v.deliveries[ForInvoice(i)].revision - 1, |v.journal[sub]| - 1);
  }

  lemma SchedulesOfJournal(catalog: Catalog, v: View, sub: SubId)
    requires Good(catalog, v)
    ensures sub in v.journal <==> sub in v.schedules
  {
  }

  // ----- a staged target is fixed -----------------------------------------------------------

  predicate RowKept(a: Delivery, b: Delivery) {
    SameTarget(a, b) && (a.deliveredAt.Some? ==> b == a)
  }

  /** Every row stays, with the same target, and stays delivered once it is. */
  ghost predicate RowsKept(a: map<DeliveryId, Delivery>, b: map<DeliveryId, Delivery>) {
    forall id :: id in a ==> id in b && RowKept(a[id], b[id])
  }

  lemma MoveKeepsRows(catalog: Catalog, s: Sys, m: Move)
    requires CatalogOk(catalog) && Inv(catalog, s)
    ensures RowsKept(s.store.deliveries, Apply(catalog, s, m).store.deliveries)
  {
    hide Inv, RowsKept, DoStage, DoSweepStage, DoCompleteDelivery;
    match m
    case Stage(task, now) => StageKeepsRows(catalog, s, task, now);
    case SweepStage(task) => SweepKeepsRows(catalog, s, task);
    case Complete(task, clock) => CompleteKeepsRows(s, task, clock);
    case _ => OtherMovesKeepRows(catalog, s, m);
  }

  lemma CompleteKeepsRows(s: Sys, task: nat, clock: Time)
    ensures RowsKept(s.store.deliveries, DoCompleteDelivery(s, task, clock).store.deliveries)
  {
    hide RowsKept;
    if task in s.tasks && s.tasks[task].Accepted? { DeliveredRows(s.store, s.tasks[task].d.id, clock); }
    SameRows(s.store.deliveries);
  }

  lemma DeliveredRows(s: Store, id: DeliveryId, clock: Time)
    ensures CompleteBillingDelivery(s, id, clock).Ok? ==>
      RowsKept(s.deliveries, CompleteBillingDelivery(s, id, clock).value.deliveries)
  {
    hide RowKept;
    if id in s.deliveries && s.deliveries[id].deliveredAt == None {
      OneRowDelivered(s.deliveries[id], clock);
      assert CompleteBillingDelivery(s, id, clock).Ok? ==>
        CompleteBillingDelivery(s, id, clock).value.deliveries == s.deliveries[id := s.deliveries[id].(deliveredAt := Some(clock))];
    }
    forall x | x in s.deliveries ensures RowKept(s.deliveries[x], s.deliveries[x]) { OneRow(s.deliveries[x]); }
  }

  lemma OneRowDelivered(d: Delivery, clock: Time)
    ensures d.deliveredAt == None ==> RowKept(d, d.(deliveredAt := Some(clock)))
  {
  }

  lemma OneRow(d: Delivery)
    ensures RowKept(d, d)
  {
  }

  lemma SameRows(rows: map<DeliveryId, Delivery>)
    ensures RowsKept(rows, rows)
  {
  }

  lemma OtherMovesKeepRows(catalog: Catalog, s: Sys, m: Move)
    requires !m.Stage? && !m.SweepStage? && !m.Complete?
    ensures RowsKept(s.store.deliveries, Apply(catalog, s, m).store.deliveries)
  {
    hide RowsKept, DoClaim, DoComplete, DoEnsureRemote, DoArrive, DoReceive;
    SameRows(s.store.deliveries);
    match m
    case ReceiveEvent(task, ev) => ReceiveKeepsRows(s, task, ev);
    case Claim(task, clock) => ClaimKeepsRows(s, task, clock);
    case CompleteCreate(key, inv) => CreateKeepsRows(catalog, s, key, inv);
    case EnsureRemote(user, plan, newId, now) => EnsureKeepsRows(s, user, plan, newId, now);
    case Arrive(req) => ArriveKeepsRows(s, req);
    case _ => PlainMovesKeepRows(catalog, s, m);
  }

  lemma ClaimKeepsRows(s: Sys, task: nat, clock: Time)
    ensures DoClaim(s, task, clock).store.deliveries == s.store.deliveries
  {
  }

  lemma CreateKeepsRows(catalog: Catalog, s: Sys, key: string, inv: Invoice)
    ensures DoComplete(catalog, s, key, inv).store.deliveries == s.store.deliveries
  {
  }

  lemma EnsureKeepsRows(s: Sys, user: UserId, plan: Plan, newId: SubId, now: Time)
    ensures DoEnsureRemote(s, user, plan, newId, now).store == s.store
  {
  }

  lemma ArriveKeepsRows(s: Sys, req: Request)
    ensures DoArrive(s, req).store == s.store
  {
    hide ApplyBillingState;
  }

  lemma ReceiveKeepsRows(s: Sys, task: nat, ev: Event)
    ensures DoReceive(s, task, ev).store.deliveries == s.store.deliveries
  {
    hide Verdict, Covers;
    VerdictKeepsFacts(s.store, ev);
  }

  lemma PlainMovesKeepRows(catalog: Catalog, s: Sys, m: Move)
    requires !m.Stage? && !m.SweepStage? && !m.Complete? && !m.ReceiveEvent? && !m.Claim? && !m.CompleteCreate?
    requires !m.EnsureRemote? && !m.Arrive?
    ensures Apply(catalog, s, m).store.deliveries == s.store.deliveries
  {
    hide DoStage, DoSweepStage, DoCompleteDelivery, DoReceive, DoClaim, DoComplete, DoEnsureRemote, DoArrive, Overdue;
  }

  lemma StageKeepsRows(catalog: Catalog, s: Sys, task: nat, now: Time)
    requires CatalogOk(catalog) && Inv(catalog, s)
    ensures RowsKept(s.store.deliveries, DoStage(catalog, s, task, now).store.deliveries)
  {
    hide Good;
    if task in s.tasks && s.tasks[task].Ensured? && s.tasks[task].inv.plan in catalog && now > 0 {
      var Ensured(inv, sub) := s.tasks[task];
      assert TaskOk(ViewOf(s), s.tasks[task]);
      if inv.id !in s.store.invoiceDeliveries { CreditIsAppendable(catalog, ViewOf(s), s.store, inv, sub, now); }
    }
  }

  lemma SweepKeepsRows(catalog: Catalog, s: Sys, task: nat)
    requires CatalogOk(catalog) && Inv(catalog, s)
    ensures RowsKept(s.store.deliveries, DoSweepStage(s, task).store.deliveries)
  {
    hide Good;
    if task in s.tasks && s.tasks[task].Sweeping? {
      var Sweeping(sched, now) := s.tasks[task];
      assert TaskOk(ViewOf(s), s.tasks[task]);
      ReadIsCurrent(catalog, ViewOf(s), sched);
      if s.store.schedules[sched.sub].revision == sched.revision && Transition(sched, now).Some?
         && Transition(sched, now).value != sched.status {
        TransitionIsAppendable(catalog, ViewOf(s), sched, now);
      }
    }
  }

  lemma {:induction false} RunKeepsRows(catalog: Catalog, s: Sys, moves: seq<Move>)
    requires CatalogOk(catalog) && Inv(catalog, s)
    ensures RowsKept(s.store.deliveries, Run(catalog, s, moves).store.deliveries)
  {
    hide Inv, Apply;
    if moves != [] {
      var init := moves[..|moves| - 1];
      RunKeeps(catalog, s, init);
      RunKeepsRows(catalog, s, init);
      MoveKeepsRows(catalog, Run(catalog, s, init), moves[|moves| - 1]);
    }
  }

  /** Once an invoice is credited, whatever happens later it has that one delivery, with the
      same subscription, revision, plan, expiry and grace. */
  lemma CreditIsFixed(catalog: Catalog, moves: seq<Move>, more: seq<Move>, i: InvoiceId)
    requires CatalogOk(catalog) && i in Run(catalog, Init, moves).store.invoiceDeliveries
    ensures
      var s, t := Run(catalog, Init, moves).store, Run(catalog, Init, moves + more).store;
      && ForInvoice(i) in s.deliveries && ForInvoice(i) in t.deliveries
      && SameTarget(s.deliveries[ForInvoice(i)], t.deliveries[ForInvoice(i)])
      && (forall id :: id in t.deliveries && t.deliveries[id].invoice == Some(i) ==> id == ForInvoice(i))
  {
    hide Run, Good;
    var s := Run(catalog, Init, moves);
    ReachableIsGood(catalog, moves);
    ReachableIsGood(catalog, moves + more);
    IndexedIsStaged(catalog, ViewOf(s), i);
    IndexIsInvoice(catalog, ViewOf(s), i);
    RunConcat(catalog, Init, moves, more);
    RunKeepsRows(catalog, s, more);
    var v := ViewOf(Run(catalog, Init, moves + more));
    forall id | id in v.deliveries && v.deliveries[id].invoice == Some(i) ensures id == ForInvoice(i) {
      RowInvoice(catalog, v, id);
    }
  }

  lemma IndexIsInvoice(catalog: Catalog, v: View, i: InvoiceId)
    requires Good(catalog, v) && i in v.invoiceDeliveries
    ensures v.invoiceDeliveries[i] == ForInvoice(i)
  {
  }

  // ----- access rests on a paid credit ------------------------------------------------------

  /** Behind every journal entry there is the credit whose period it carries. */
  lemma {:induction false} CreditBehind(catalog: Catalog, v: View, sub: SubId, k: nat) returns (i: InvoiceId)
    requires Good(catalog, v) && sub in v.journal && k < |v.journal[sub]|
    ensures
      && ForInvoice(i) in v.deliveries && v.deliveries[ForInvoice(i)].sub == sub && i in v.claims
      && v.deliveries[ForInvoice(i)].graceUntil == v.journal[sub][k].graceUntil
      && v.deliveries[ForInvoice(i)].expiresAt == v.journal[sub][k].expiresAt
  {
    hide Good;
    EntryAt(catalog, v, sub, k);
    var e := v.journal[sub][k];
    if e.invoice.Some? { i := e.invoice.value; } else { i := CreditBehind(catalog, v, sub, k - 1); }
  }

  /** In every reachable state a subscription is servable at `t` only if a staged credit of its
      own has grace beyond `t`, and that credit's invoice was covered by a payment event. */
  lemma NoAccessWithoutCredit(catalog: Catalog, moves: seq<Move>, sub: SubId, t: Time)
    requires CatalogOk(catalog)
    requires sub in Run(catalog, Init, moves).registry.subs && ServableAt(Run(catalog, Init, moves).registry.subs[sub], t)
    ensures
      var s := Run(catalog, Init, moves);
      exists i, ev ::
        && i in Credits(s.store, sub) && s.store.deliveries[ForInvoice(i)].graceUntil > t
        && i in s.store.invoices && ev in s.evidence && Settling(ev, s.store.invoices[i])
  {
    hide Run;
    ReachableIsGood(catalog, moves);
    AccessIsPaid(catalog, Run(catalog, Init, moves), sub, t);
  }

  lemma AccessIsPaid(catalog: Catalog, s: Sys, sub: SubId, t: Time)
    requires Inv(catalog, s) && sub in s.registry.subs && ServableAt(s.registry.subs[sub], t)
    ensures
      exists i, ev ::
        && i in Credits(s.store, sub) && s.store.deliveries[ForInvoice(i)].graceUntil > t
        && i in s.store.invoices && ev in s.evidence && Settling(ev, s.store.invoices[i])
  {
    hide Good, TaskOk, Settling, RegistryOk, OutboxOk, ServableAt;
    var v := ViewOf(s);
    RegistryPart(catalog, v);
    ServableIsHeld(v, sub, t);
    var i := CreditBehind(catalog, v, sub, v.registry.subs[sub].billingRevision - 1);
    IndexOfRow(catalog, v, i);
    var ev := EvidenceOf(catalog, s, i);
    assert i in Credits(s.store, sub) && s.store.deliveries[ForInvoice(i)].graceUntil > t;
  }

  /** The covering event behind a claim. */
  lemma EvidenceOf(catalog: Catalog, s: Sys, i: InvoiceId) returns (ev: Event)
    requires Inv(catalog, s) && i in s.store.settled
    ensures i in s.store.invoices && ev in s.evidence && Settling(ev, s.store.invoices[i])
  {
    hide Good, TaskOk, Settling;
    ClaimHasEvidence(catalog, ViewOf(s), i);
    ev :| ev in s.evidence && Settling(ev, Facts(s.store.invoices)[i]);
    SettlingIgnoresStatus(ev, s.store.invoices[i]);
  }

  lemma SettlingIgnoresStatus(ev: Event, inv: Invoice)
    ensures Settling(ev, Fact(inv)) == Settling(ev, inv)
  {
  }

  lemma ServableIsHeld(v: View, sub: SubId, t: Time)
    requires RegistryOk(v.journal, v.registry, v.accepted) && sub in v.registry.subs && ServableAt(v.registry.subs[sub], t)
    ensures
      var r := v.registry.subs[sub].billingRevision;
      sub in v.journal && 0 < r <= |v.journal[sub]| && v.journal[sub][r - 1].graceUntil > t
  {
    hide RegistryOk, LinksOk, AcceptedOk;
    OneRecord(v.journal, v.registry, v.accepted, sub);
  }

  lemma ClaimHasEvidence(catalog: Catalog, v: View, i: InvoiceId)
    requires Good(catalog, v) && i in v.claims
    ensures PaidFor(v.facts, v.evidence, i)
  {
    hide JournalOk, OutboxOk, WireOk, RegistryOk, PaidFor;
  }

  lemma IndexOfRow(catalog: Catalog, v: View, i: InvoiceId)
    requires Good(catalog, v) && ForInvoice(i) in v.deliveries
    ensures i in v.invoiceDeliveries
  {
    hide JournalOk, WireOk, RegistryOk, InvoicesOk;
  }

  // ----- the expiry sweep against renewal ---------------------------------------------------

  /** Every staged transition, whenever its sweeper read the clock and the schedule and whatever
      renewals raced it: it keeps the period of the row before it, its status is what the period
      demands at its own clock, and no earlier credit of the subscription reaches past that clock. */
  lemma SweepNeverCutsPaidTime(catalog: Catalog, moves: seq<Move>, id: DeliveryId)
    requires CatalogOk(catalog)
    requires id in Run(catalog, Init, moves).store.deliveries && id.ForRevision?
    ensures
      var s := Run(catalog, Init, moves).store;
      var d := s.deliveries[id];
      && Transition(ScheduleOf(d), d.createdAt) == Some(d.status)
      && (exists before :: before in s.deliveries && s.deliveries[before].sub == d.sub
           && s.deliveries[before].revision == d.revision - 1
           && s.deliveries[before].expiresAt == d.expiresAt && s.deliveries[before].graceUntil == d.graceUntil)
      && (forall c :: c in s.deliveries && s.deliveries[c].sub == d.sub && s.deliveries[c].revision <= d.revision ==>
           s.deliveries[c].expiresAt <= d.createdAt)
  {
    hide Run, Good, TaskOk;
    var s := Run(catalog, Init, moves);
    ReachableIsGood(catalog, moves);
    var v := ViewOf(s);
    RowAt(catalog, v, id);
    var d := v.deliveries[id];
    var log := v.journal[d.sub];
    EntryAt(catalog, v, d.sub, d.revision - 2);
    assert v.deliveries[log[d.revision - 2].id].revision == d.revision - 1;
    forall c | c in v.deliveries && v.deliveries[c].sub == d.sub && v.deliveries[c].revision <= d.revision
      ensures v.deliveries[c].expiresAt <= d.createdAt
    {
      RowAt(catalog, v, c);
      ExpiryRises(catalog, v, d.sub, v.deliveries[c].revision - 1, d.revision - 1);
    }
  }
}
