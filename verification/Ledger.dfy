/** Billing's durable store as a value, with one function for every store call of the
    credit protocol. Each call is one transaction (one critical section in memory), so each
    is one atomic step; `MemoryStore` is the imperative form and is proved against these. */
module Ledger {
  import opened Prelude

  type InvoiceId = string
  type SubId = string
  type UserId = string
  type Plan = string

  /** The plan set of the frozen contracts. The empty string means "no plan given". */
  predicate PlanValid(p: Plan) {
    p == "basic" || p == "unlimited"
  }

  /** What one paid period of a plan is worth. */
  datatype Terms = Terms(duration: Time, grace: Time)

  type Catalog = map<Plan, Terms>

  /** What loading a catalog checks: known plans, positive periods, no negative grace. */
  ghost predicate CatalogOk(catalog: Catalog) {
    forall p :: p in catalog ==> PlanValid(p) && catalog[p].duration > 0 && catalog[p].grace >= 0
  }

  datatype InvoiceStatus = Pending | Settled | InvoiceExpired | Invalid

  datatype Invoice = Invoice(
    id: InvoiceId, provider: string, user: UserId, plan: Plan, currency: string, amount: real,
    status: InvoiceStatus, createdAt: Time, expiresAt: Time)

  datatype SubscriptionStatus = Trialing | Active | PastDue | Canceled | Expired

  datatype Schedule = Schedule(
    sub: SubId, user: UserId, revision: nat, plan: Plan, status: SubscriptionStatus,
    expiresAt: Time, graceUntil: Time)

  /** The outbox key: the source writes "invoice:<id>" or "schedule:<sub>:<revision>". */
  datatype DeliveryId = ForInvoice(invoice: InvoiceId) | ForRevision(sub: SubId, revision: nat)

  datatype Delivery = Delivery(
    id: DeliveryId, invoice: Option<InvoiceId>, sub: SubId, user: UserId, revision: nat, plan: Plan,
    status: SubscriptionStatus, expiresAt: Time, graceUntil: Time, createdAt: Time,
    deliveredAt: Option<Time>)

  /** A claim latch with its recovery markers; a zero instant means "not set". */
  datatype Settlement = Settlement(claimedAt: Time, activatedAt: Time, leasedUntil: Time)

  datatype PollLease = PollLease(token: string, owner: string, until: Time)

  datatype IntentState = Reserved | Creating | Ready | Failed

  datatype Intent = Intent(
    key: string, requestHash: string, orderId: InvoiceId, provider: string, user: UserId, plan: Plan,
    currency: string, amount: real, state: IntentState)

  datatype Store = Store(
    invoices: map<InvoiceId, Invoice>,
    events: set<(string, string)>,
    settled: map<InvoiceId, Settlement>,
    schedules: map<SubId, Schedule>,
    deliveries: map<DeliveryId, Delivery>,
    invoiceDeliveries: map<InvoiceId, DeliveryId>,
    deliveryLeases: map<DeliveryId, Time>,
    intents: map<string, Intent>,
    negative: map<InvoiceId, Time>,
    pollLeases: map<InvoiceId, PollLease>)

  const EmptyStore := Store(map[], {}, map[], map[], map[], map[], map[], map[], map[], map[])

  // ----- invoices and provider events ---------------------------------------------------

  function SetInvoiceStatus(s: Store, id: InvoiceId, status: InvoiceStatus): Result<Store, Failure> {
    if id !in s.invoices then Err(NotFound)
    else Ok(s.(invoices := s.invoices[id := s.invoices[id].(status := status)]))
  }

  function RecordEvent(s: Store, provider: string, externalId: string): Store {
    s.(events := s.events + {(provider, externalId)})
  }

  // ----- the claim latch ----------------------------------------------------------------

  function ClaimSettlement(s: Store, id: InvoiceId, clock: Time): (Store, bool) {
    if id in s.settled then (s, false)
    else (s.(settled := s.settled[id := Settlement(clock, 0, 0)]), true)
  }

  predicate IsStuck(s: Store, id: InvoiceId, olderThan: Time, clock: Time) {
    && id in s.settled && id in s.invoices && s.invoices[id].status == Pending
    && s.settled[id].claimedAt <= olderThan
    && (s.settled[id].leasedUntil == 0 || s.settled[id].leasedUntil <= clock)
  }

  function StuckClaims(s: Store, olderThan: Time, clock: Time): set<InvoiceId> {
    set id | id in s.settled && IsStuck(s, id, olderThan, clock)
  }

  function CappedSize(limit: int, available: nat): nat {
    if 0 < limit < available then limit else available
  }

  /** A batch the lease query may return: distinct stuck claims, oldest claim first, as many
      as the limit admits, and nothing older left behind. */
  ghost predicate StuckBatch(s: Store, olderThan: Time, clock: Time, limit: int, ids: seq<InvoiceId>) {
    && (forall i :: 0 <= i < |ids| ==> ids[i] in StuckClaims(s, olderThan, clock))
    && (forall i, j :: 0 <= i < j < |ids| ==>
         ids[i] != ids[j] && s.settled[ids[i]].claimedAt <= s.settled[ids[j]].claimedAt)
    && |ids| == CappedSize(limit, |StuckClaims(s, olderThan, clock)|)
    && (forall id, i :: id in StuckClaims(s, olderThan, clock) && id !in ids && 0 <= i < |ids| ==>
         s.settled[ids[i]].claimedAt <= s.settled[id].claimedAt)
  }

  function LeaseStuck(s: Store, ids: seq<InvoiceId>, until: Time): Store {
    s.(settled := map id | id in s.settled ::
      if id in ids then s.settled[id].(leasedUntil := until) else s.settled[id])
  }

  // ----- the sweep and the on-chain poll ------------------------------------------------

  /** The sweep's predicate for one invoice. */
  predicate Overdue(s: Store, id: InvoiceId, now: Time, onchain: set<string>, grace: Time)
    requires id in s.invoices
  {
    var inv := s.invoices[id];
    && inv.status == Pending && inv.expiresAt != 0
    && id !in s.settled
    && !(id in s.pollLeases && s.pollLeases[id].until > now)
    && if inv.provider in onchain then
         now > inv.expiresAt + grace && id in s.negative && s.negative[id] >= inv.expiresAt + grace
       else
         now > inv.expiresAt
  }

  function ExpireOverdue(s: Store, now: Time, onchain: set<string>, grace: Time): Store {
    s.(invoices := map id | id in s.invoices ::
      if Overdue(s, id, now, onchain, grace) then s.invoices[id].(status := InvoiceExpired) else s.invoices[id])
  }

  /** `token` is the fresh opaque token the store mints. */
  function AcquirePollLease(s: Store, id: InvoiceId, token: string, owner: string, leaseFor: Time, clock: Time)
    : (Store, bool)
  {
    if id in s.pollLeases && s.pollLeases[id].until > clock then (s, false)
    else (s.(pollLeases := s.pollLeases[id := PollLease(token, owner, clock + leaseFor)]), true)
  }

  function RenewPollLease(s: Store, id: InvoiceId, token: string, leaseFor: Time, clock: Time): (Store, bool) {
    if id !in s.pollLeases || s.pollLeases[id].token != token then (s, false)
    else (s.(pollLeases := s.pollLeases[id := s.pollLeases[id].(until := clock + leaseFor)]), true)
  }

  function ReleasePollLease(s: Store, id: InvoiceId, token: string): Store {
    if id in s.pollLeases && s.pollLeases[id].token == token then
      s.(pollLeases := s.pollLeases - {id})
    else s
  }

  function RecordNegativeCheck(s: Store, id: InvoiceId, checkAt: Time): Store {
    if id in s.invoices && s.invoices[id].status == Pending then
      s.(negative := s.negative[id := checkAt])
    else s
  }

  function ClearNegativeCheck(s: Store, id: InvoiceId): Store {
    if id in s.invoices && s.invoices[id].status == Pending then
      s.(negative := s.negative - {id})
    else s
  }

  // ----- the durable invoice creation ---------------------------------------------------

  function ReserveInvoiceIntent(s: Store, intent: Intent): Result<(Store, Intent, bool), Failure> {
    if intent.key in s.intents then
      if s.intents[intent.key].requestHash != intent.requestHash then Err(Conflict)
      else Ok((s, s.intents[intent.key], false))
    else
      var reserved := intent.(state := Reserved);
      Ok((s.(intents := s.intents[intent.key := reserved]), reserved, true))
  }

  function BeginInvoiceCreate(s: Store, key: string): Result<(Store, bool), Failure> {
    if key !in s.intents then Err(NotFound)
    else if s.intents[key].state != Reserved then Ok((s, false))
    else Ok((s.(intents := s.intents[key := s.intents[key].(state := Creating)]), true))
  }

  /** The write-once insert of the production store: an existing invoice row wins. */
  function CompleteInvoiceCreate(s: Store, key: string, inv: Invoice): Result<Store, Failure> {
    if key !in s.intents then Err(NotFound)
    else if s.intents[key].orderId != inv.id || s.intents[key].provider != inv.provider then Err(Conflict)
    else Ok(s.(
      invoices := if inv.id in s.invoices then s.invoices else s.invoices[inv.id := inv],
      intents := s.intents[key := s.intents[key].(state := Ready)]))
  }

  function FailInvoiceCreate(s: Store, key: string): Result<Store, Failure> {
    if key !in s.intents then Err(NotFound)
    else Ok(s.(intents := s.intents[key := s.intents[key].(state := Failed)]))
  }

  // ----- the outbox ---------------------------------------------------------------------

  /** The delivery that crediting invoice `id` to `sub` fixes: the period starts at the later of
      now and the paid-through instant the schedule already has. */
  function CreditTarget(s: Store, id: InvoiceId, sub: SubId, now: Time, terms: Terms): Delivery
    requires id in s.invoices
  {
    var inv := s.invoices[id];
    var base := if sub in s.schedules && s.schedules[sub].expiresAt > now then s.schedules[sub].expiresAt else now;
    var revision := if sub in s.schedules then s.schedules[sub].revision + 1 else 1;
    Delivery(ForInvoice(id), Some(id), sub, inv.user, revision, inv.plan, Active,
             base + terms.duration, base + terms.duration + terms.grace, now, None)
  }

  function ScheduleOf(d: Delivery): Schedule {
    Schedule(d.sub, d.user, d.revision, d.plan, d.status, d.expiresAt, d.graceUntil)
  }

  /** A delivery already staged for the invoice is returned unchanged. (The map lookups of the
      source are total; a row index without its row reads as a blank delivery there, a case no
      reachable store has, and reads as a miss here.) */
  function StageInvoiceCredit(s: Store, id: InvoiceId, sub: SubId, user: UserId, now: Time, terms: Terms)
    : Result<(Store, Delivery), Failure>
  {
    if id in s.invoiceDeliveries then
      if s.invoiceDeliveries[id] in s.deliveries then Ok((s, s.deliveries[s.invoiceDeliveries[id]])) else Err(NotFound)
    else if id !in s.invoices then Err(NotFound)
    else if s.invoices[id].user != user then Err(Conflict)
    else
      var d := CreditTarget(s, id, sub, now, terms);
      Ok((s.(schedules := s.schedules[sub := ScheduleOf(d)],
             deliveries := s.deliveries[d.id := d],
             invoiceDeliveries := s.invoiceDeliveries[id := d.id]), d))
  }

  function TransitionTarget(sub: SubId, sched: Schedule, status: SubscriptionStatus, now: Time): Delivery {
    Delivery(ForRevision(sub, sched.revision + 1), None, sub, sched.user, sched.revision + 1, sched.plan,
             status, sched.expiresAt, sched.graceUntil, now, None)
  }

  /** A compare-and-swap on the revision the caller read; `None` means it lost. */
  function StageScheduleTransition(s: Store, sub: SubId, expected: nat, status: SubscriptionStatus, now: Time)
    : Result<(Store, Option<Delivery>), Failure>
  {
    if sub !in s.schedules then Err(NotFound)
    else if s.schedules[sub].revision != expected then Ok((s, None))
    else
      var d := TransitionTarget(sub, s.schedules[sub], status, now);
      Ok((s.(schedules := s.schedules[sub := s.schedules[sub].(revision := expected + 1, status := status)],
             deliveries := s.deliveries[d.id := d]), Some(d)))
  }

  predicate DeliveryDue(s: Store, id: DeliveryId, olderThan: Time, clock: Time)
    requires id in s.deliveries
  {
    && s.deliveries[id].deliveredAt == None && s.deliveries[id].createdAt < olderThan
    && !(id in s.deliveryLeases && s.deliveryLeases[id] > clock)
  }

  function DueDeliveries(s: Store, olderThan: Time, clock: Time): set<DeliveryId> {
    set id | id in s.deliveries && DeliveryDue(s, id, olderThan, clock)
  }

  /** A batch the outbox lease may return: distinct due deliveries, oldest first, as many as
      the limit admits, and nothing older left behind. (Ties are broken by id in the source.) */
  ghost predicate DeliveryBatch(s: Store, olderThan: Time, clock: Time, limit: int, ids: seq<DeliveryId>) {
    && (forall i :: 0 <= i < |ids| ==> ids[i] in DueDeliveries(s, olderThan, clock))
    && (forall i, j :: 0 <= i < j < |ids| ==>
         ids[i] != ids[j] && s.deliveries[ids[i]].createdAt <= s.deliveries[ids[j]].createdAt)
    && |ids| == CappedSize(limit, |DueDeliveries(s, olderThan, clock)|)
    && (forall id, i :: id in DueDeliveries(s, olderThan, clock) && id !in ids && 0 <= i < |ids| ==>
         s.deliveries[ids[i]].createdAt <= s.deliveries[id].createdAt)
  }

  function WithLeases(leases: map<DeliveryId, Time>, ids: seq<DeliveryId>, until: Time): map<DeliveryId, Time> {
    leases + map id | id in ids :: until
  }

  function LeaseDeliveries(s: Store, ids: seq<DeliveryId>, until: Time): Store {
    s.(deliveryLeases := WithLeases(s.deliveryLeases, ids, until))
  }

  /** Marks the row delivered and settles its invoice, both only the first time. */
  function CompleteBillingDelivery(s: Store, id: DeliveryId, clock: Time): Result<Store, Failure> {
    if id !in s.deliveries then Err(NotFound)
    else
      var d := s.deliveries[id];
      var unleased := s.deliveryLeases - {id};
      if d.deliveredAt != None then Ok(s.(deliveryLeases := unleased))
      else
        var marked := s.(deliveries := s.deliveries[id := d.(deliveredAt := Some(clock))]);
        if d.invoice == None then Ok(marked.(deliveryLeases := unleased))
        else if d.invoice.value !in s.invoices then Err(NotFound)
        else Ok(marked.(
          deliveryLeases := unleased,
          invoices := s.invoices[d.invoice.value := s.invoices[d.invoice.value].(status := Settled)]))
  }

  // ----- facts about batches ------------------------------------------------------------

  lemma DistinctBatchIsWhole<T>(ids: seq<T>, whole: set<T>)
    requires forall i :: 0 <= i < |ids| ==> ids[i] in whole
    requires forall i, j :: 0 <= i < j < |ids| ==> ids[i] != ids[j]
    requires |ids| == |whole|
    ensures forall x :: x in whole ==> x in ids
  {
    var seen := set x | x in ids;
    DistinctSize(ids);
    assert seen <= whole;
    if extra :| extra in whole && extra !in seen {
      SubsetSize(seen, whole - {extra});
    }
  }

  lemma {:induction false} DistinctSize<T>(ids: seq<T>)
    requires forall i, j :: 0 <= i < j < |ids| ==> ids[i] != ids[j]
    ensures |set x | x in ids| == |ids|
  {
    if ids == [] {
      assert (set x | x in ids) == {};
    } else {
      var rest := ids[..|ids| - 1];
      var last := ids[|ids| - 1];
      DistinctSize(rest);
      assert ids == rest + [last];
      assert (set x | x in ids) == (set x | x in rest) + {last};
      assert last !in rest;
    }
  }

  /** With room for every due delivery the batch is all of them; likewise for stuck claims. */
  lemma RoomyBatchIsComplete(s: Store, olderThan: Time, clock: Time, limit: int, ids: seq<DeliveryId>)
    requires DeliveryBatch(s, olderThan, clock, limit, ids)
    requires limit <= 0 || |DueDeliveries(s, olderThan, clock)| <= limit
    ensures forall id :: id in DueDeliveries(s, olderThan, clock) ==> id in ids
  {
    DistinctBatchIsWhole(ids, DueDeliveries(s, olderThan, clock));
  }

  lemma RoomyStuckBatchIsComplete(s: Store, olderThan: Time, clock: Time, limit: int, ids: seq<InvoiceId>)
    requires StuckBatch(s, olderThan, clock, limit, ids)
    requires limit <= 0 || |StuckClaims(s, olderThan, clock)| <= limit
    ensures forall id :: id in StuckClaims(s, olderThan, clock) ==> id in ids
  {
    DistinctBatchIsWhole(ids, StuckClaims(s, olderThan, clock));
  }
}
