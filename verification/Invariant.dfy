/** The inductive invariant of the credit protocol and its preservation by every move. */
module Invariant {
  import opened Prelude
  import opened Ledger
  import opened Registry
  import opened Protocol

  /** Equal up to the moment of delivery: what a staged delivery never loses. */
  predicate SameTarget(a: Delivery, b: Delivery) {
    a.(deliveredAt := None) == b.(deliveredAt := None)
  }

  /** The log a subscription's journal amounts to for the control-plane. */
  function States(log: seq<Delivery>): seq<BillingState> {
    seq(|log|, k requires 0 <= k < |log| => StateOf(log[k]))
  }

  function LogOf(journal: map<SubId, seq<Delivery>>, sub: SubId): seq<Delivery> {
    if sub in journal then journal[sub] else []
  }

  /** What an invoice never loses: all but its status. */
  function Facts(invoices: map<InvoiceId, Invoice>): map<InvoiceId, Invoice> {
    map id | id in invoices :: Fact(invoices[id])
  }

  function Fact(inv: Invoice): Invoice {
    inv.(status := Pending)
  }

  /** A credit starts exactly one period at the later of its own clock and the paid-through
      instant before it. */
  predicate CreditFollows(catalog: Catalog, prev: Option<Delivery>, e: Delivery) {
    && e.invoice.Some? && e.plan in catalog && e.status == Active && e.createdAt > 0
    && var base := if prev.Some? && prev.value.expiresAt > e.createdAt then prev.value.expiresAt else e.createdAt;
       && e.expiresAt == base + catalog[e.plan].duration
       && e.graceUntil == e.expiresAt + catalog[e.plan].grace
  }

  /** A transition keeps the period and is justified by its own clock. */
  predicate TransitionFollows(prev: Option<Delivery>, e: Delivery) {
    && e.invoice.None? && prev.Some?
    && e.plan == prev.value.plan && e.user == prev.value.user
    && e.expiresAt == prev.value.expiresAt && e.graceUntil == prev.value.graceUntil
    && e.status != prev.value.status
    && Transition(ScheduleOf(prev.value), e.createdAt) == Some(e.status)
  }

  function Before(log: seq<Delivery>, k: nat): Option<Delivery>
    requires k < |log|
  {
    if k == 0 then None else Some(log[k - 1])
  }

  predicate Follows(catalog: Catalog, prev: Option<Delivery>, e: Delivery) {
    CreditFollows(catalog, prev, e) || TransitionFollows(prev, e)
  }

  /** Entry `k` of a subscription's journal against the outbox and the invoices. */
  predicate EntryOk(catalog: Catalog, sub: SubId, log: seq<Delivery>, k: nat,
                    deliveries: map<DeliveryId, Delivery>, facts: map<InvoiceId, Invoice>, claims: set<InvoiceId>)
    requires k < |log|
  {
    var e := log[k];
    && e.sub == sub && e.revision == k + 1 && e.deliveredAt == None
    && e.id in deliveries && SameTarget(deliveries[e.id], e)
    && Follows(catalog, Before(log, k), e)
    && (e.invoice.Some? ==> CreditEntryOk(e, facts, claims))
    && (e.invoice.None? ==> e.id == ForRevision(sub, k + 1))
  }

  predicate CreditEntryOk(e: Delivery, facts: map<InvoiceId, Invoice>, claims: set<InvoiceId>)
    requires e.invoice.Some?
  {
    var i := e.invoice.value;
    && e.id == ForInvoice(i) && i in facts && i in claims && e.user == facts[i].user && e.plan == facts[i].plan
  }

  ghost predicate LogOk(catalog: Catalog, sub: SubId, log: seq<Delivery>,
                        deliveries: map<DeliveryId, Delivery>, facts: map<InvoiceId, Invoice>, claims: set<InvoiceId>) {
    |log| > 0 && forall k :: 0 <= k < |log| ==> EntryOk(catalog, sub, log, k, deliveries, facts, claims)
  }

  ghost predicate JournalOk(catalog: Catalog, journal: map<SubId, seq<Delivery>>, schedules: map<SubId, Schedule>,
                            deliveries: map<DeliveryId, Delivery>, facts: map<InvoiceId, Invoice>, claims: set<InvoiceId>) {
    && journal.Keys == schedules.Keys
    && (forall sub :: sub in journal ==> LogOk(catalog, sub, journal[sub], deliveries, facts, claims))
    && (forall sub :: sub in journal ==> schedules[sub] == ScheduleOf(journal[sub][|journal[sub]| - 1]))
  }

  /** Every outbox row is the journal entry of its subscription and revision. */
  predicate RowOk(journal: map<SubId, seq<Delivery>>, accepted: set<Request>, id: DeliveryId, d: Delivery) {
    && d.id == id && d.sub in journal && 1 <= d.revision <= |journal[d.sub]|
    && SameTarget(d, journal[d.sub][d.revision - 1])
    && (d.deliveredAt.Some? ==> RequestOf(d) in accepted)
  }

  ghost predicate OutboxOk(journal: map<SubId, seq<Delivery>>, deliveries: map<DeliveryId, Delivery>,
                           invoiceDeliveries: map<InvoiceId, DeliveryId>, accepted: set<Request>) {
    && (forall id :: id in deliveries ==> RowOk(journal, accepted, id, deliveries[id]))
    && (forall i :: i in invoiceDeliveries <==> ForInvoice(i) in deliveries)
    && (forall i :: i in invoiceDeliveries ==> invoiceDeliveries[i] == ForInvoice(i))
  }

  predicate RequestOk(journal: map<SubId, seq<Delivery>>, req: Request) {
    && req.sub in journal && 1 <= req.state.revision <= |journal[req.sub]|
    && StateOf(journal[req.sub][req.state.revision - 1]) == req.state
  }

  ghost predicate WireOk(journal: map<SubId, seq<Delivery>>, wire: set<Request>, accepted: set<Request>) {
    accepted <= wire && forall req :: req in wire ==> RequestOk(journal, req)
  }

  /** A record holds an entry of its journal, and that entry was accepted. */
  ghost predicate RecordOk(log: seq<Delivery>, r: Subscription, hash: Option<BillingState>, accepted: set<Request>) {
    && Holds(r, hash, States(log))
    && (r.billingRevision == 0 ==> r.status in {Expired, Canceled})
    && (r.billingRevision > 0 ==> RequestOf(log[r.billingRevision - 1]) in accepted)
    && (forall k :: 0 <= k < |log| ==> log[k].user == r.user)
  }

  ghost predicate RecordsOk(journal: map<SubId, seq<Delivery>>, subs: map<SubId, Subscription>,
                            hashes: map<SubId, BillingState>, accepted: set<Request>) {
    && (forall sub :: sub in subs ==> RecordOk(LogOf(journal, sub), subs[sub], HashOf(hashes, sub), accepted))
    && journal.Keys <= subs.Keys && hashes.Keys <= subs.Keys
  }

  function Owners(subs: map<SubId, Subscription>): map<SubId, UserId> {
    map sub | sub in subs :: subs[sub].user
  }

  /** Accounts and subscriptions are linked one to one. */
  ghost predicate LinksOk(links: map<UserId, Option<SubId>>, owners: map<SubId, UserId>) {
    && (forall sub :: sub in owners ==> owners[sub] in links && links[owners[sub]] == Some(sub))
    && (forall user :: user in links && links[user].Some? ==> links[user].value in owners && owners[links[user].value] == user)
    && "" !in owners
  }

  function Revisions(subs: map<SubId, Subscription>): map<SubId, nat> {
    map sub | sub in subs :: subs[sub].billingRevision
  }

  /** The register has reached every accepted revision. */
  ghost predicate AcceptedOk(accepted: set<Request>, revisions: map<SubId, nat>) {
    forall req :: req in accepted ==> req.sub in revisions && revisions[req.sub] >= req.state.revision
  }

  ghost predicate RegistryOk(journal: map<SubId, seq<Delivery>>, registry: Registry, accepted: set<Request>) {
    && RecordsOk(journal, registry.subs, registry.hashes, accepted)
    && LinksOk(registry.links, Owners(registry.subs))
    && AcceptedOk(accepted, Revisions(registry.subs))
  }

  predicate Settling(ev: Event, inv: Invoice) {
    ev.invoice == inv.id && ev.status == Settled && Covers(ev, inv)
  }

  /** A claim exists only against a covering payment event. */
  ghost predicate PaidFor(facts: map<InvoiceId, Invoice>, evidence: set<Event>, id: InvoiceId) {
    id in facts && exists ev :: ev in evidence && Settling(ev, facts[id])
  }

  ghost predicate InvoicesOk(catalog: Catalog, facts: map<InvoiceId, Invoice>, claims: set<InvoiceId>, evidence: set<Event>) {
    && (forall id :: id in facts ==> facts[id].id == id && facts[id].plan in catalog)
    && (forall id :: id in claims ==> PaidFor(facts, evidence, id))
  }

  /** All of the state the invariant speaks about, except the tasks. */
  datatype View = View(
    journal: map<SubId, seq<Delivery>>, schedules: map<SubId, Schedule>, deliveries: map<DeliveryId, Delivery>,
    invoiceDeliveries: map<InvoiceId, DeliveryId>, facts: map<InvoiceId, Invoice>, claims: set<InvoiceId>,
    evidence: set<Event>, wire: set<Request>, accepted: set<Request>, registry: Registry)

  function ViewOf(s: Sys): View {
    View(s.journal, s.store.schedules, s.store.deliveries, s.store.invoiceDeliveries, Facts(s.store.invoices),
         s.store.settled.Keys, s.evidence, s.wire, s.accepted, s.registry)
  }

  ghost predicate Good(catalog: Catalog, v: View) {
    && JournalOk(catalog, v.journal, v.schedules, v.deliveries, v.facts, v.claims)
    && OutboxOk(v.journal, v.deliveries, v.invoiceDeliveries, v.accepted)
    && WireOk(v.journal, v.wire, v.accepted)
    && RegistryOk(v.journal, v.registry, v.accepted)
    && InvoicesOk(catalog, v.facts, v.claims, v.evidence)
  }

  predicate Known(v: View, inv: Invoice) {
    inv.id in v.facts && v.facts[inv.id] == Fact(inv)
  }

  predicate Staged(v: View, d: Delivery) {
    d.id in v.deliveries && SameTarget(d, v.deliveries[d.id])
  }

  predicate TaskOk(v: View, t: Task) {
    match t
    case Paid(ev, inv) => ev in v.evidence && Settling(ev, inv) && Known(v, inv)
    case Crediting(inv) => Known(v, inv) && inv.id in v.claims
    case Ensured(inv, sub) =>
      Known(v, inv) && inv.id in v.claims && sub in v.registry.subs && v.registry.subs[sub].user == inv.user
    case Delivering(d) => Staged(v, d)
    case Sent(d) => Staged(v, d) && RequestOf(d) in v.wire
    case Accepted(d) => Staged(v, d) && RequestOf(d) in v.accepted
    case Sweeping(sched, _) =>
      && sched.sub in v.journal && 1 <= sched.revision <= |v.journal[sched.sub]|
      && sched == ScheduleOf(v.journal[sched.sub][sched.revision - 1])
  }

  ghost predicate Inv(catalog: Catalog, s: Sys) {
    && Good(catalog, ViewOf(s))
    && (forall t :: t in s.tasks ==> TaskOk(ViewOf(s), s.tasks[t]))
    && (forall id :: id in s.store.settled ==> s.store.settled[id].activatedAt == 0)
  }

  // ----- growth: what a view may gain without breaking a task ------------------------------

  ghost predicate Extends(a: seq<Delivery>, b: seq<Delivery>) {
    |a| <= |b| && forall k :: 0 <= k < |a| ==> b[k] == a[k]
  }

  /** Everything a task may have learnt stays true. */
  ghost predicate Grows(v: View, w: View) {
    && v.evidence <= w.evidence && v.claims <= w.claims && v.wire <= w.wire && v.accepted <= w.accepted
    && (forall id :: id in v.facts ==> id in w.facts && w.facts[id] == v.facts[id])
    && (forall id :: id in v.deliveries ==> id in w.deliveries && SameTarget(v.deliveries[id], w.deliveries[id]))
    && (forall sub :: sub in v.journal ==> sub in w.journal && Extends(v.journal[sub], w.journal[sub]))
    && (forall sub :: sub in v.registry.subs ==>
         sub in w.registry.subs && w.registry.subs[sub].user == v.registry.subs[sub].user)
  }

  lemma TaskKept(v: View, w: View, t: Task)
    requires Grows(v, w) && TaskOk(v, t)
    ensures TaskOk(w, t)
  {
    if t.Sweeping? {
      var k := t.sched.revision - 1;
      assert w.journal[t.sched.sub][k] == v.journal[t.sched.sub][k];
    }
  }

  /** A move keeps the invariant when the new view is good, nothing learnt is lost, and the one
      task it touches is justified. */
  lemma MoveKeeps(catalog: Catalog, s: Sys, s': Sys, task: nat)
    requires Inv(catalog, s) && Grows(ViewOf(s), ViewOf(s')) && Good(catalog, ViewOf(s'))
    requires forall t :: t in s'.tasks && t != task ==> t in s.tasks && s'.tasks[t] == s.tasks[t]
    requires task in s'.tasks && (task !in s.tasks || s'.tasks[task] != s.tasks[task]) ==> TaskOk(ViewOf(s'), s'.tasks[task])
    requires forall id :: id in s'.store.settled ==> s'.store.settled[id].activatedAt == 0
    ensures Inv(catalog, s')
  {
    forall t | t in s'.tasks ensures TaskOk(ViewOf(s'), s'.tasks[t]) {
      if t in s.tasks && s'.tasks[t] == s.tasks[t] {
        TaskKept(ViewOf(s), ViewOf(s'), s.tasks[t]);
      }
    }
  }
}
