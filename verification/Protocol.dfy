/** The billing credit protocol as a transition system. Any number of tasks (webhook handlers,
    pollers, recovery passes, expiry sweepers, on any number of instances) interleave their
    store and control-plane calls; a task may stop forever between any two of them, calls to
    the control-plane may be lost, repeated and reordered, and every clock reading is arbitrary.
    No user lock is modelled: the results hold for every interleaving, so in particular for
    those the locks of the source still allow. */
module Protocol {
  import opened Prelude
  import opened Ledger
  import opened Registry

  /** A normalized provider notification. */
  datatype Event = Event(
    provider: string, externalId: string, invoice: InvoiceId, status: InvoiceStatus,
    currency: string, amount: Option<real>)

  /** The anti-fraud checks: same gateway, same currency when given, enough when given. */
  predicate RightRail(ev: Event, inv: Invoice) {
    ev.provider == inv.provider && (ev.currency == "" || ev.currency == inv.currency)
  }

  predicate Covers(ev: Event, inv: Invoice) {
    RightRail(ev, inv) && (ev.amount == None || ev.amount.value >= inv.amount)
  }

  datatype Request = Request(sub: SubId, state: BillingState)

  function StateOf(d: Delivery): BillingState {
    BillingState(d.plan, d.revision, d.status, d.expiresAt, d.graceUntil)
  }

  function RequestOf(d: Delivery): Request {
    Request(d.sub, StateOf(d))
  }

  /** Where a task stands, named after what it has done. */
  datatype Task =
    | Paid(ev: Event, inv: Invoice)          // the event passed the checks; the claim is next
    | Crediting(inv: Invoice)                // the claim is held; the subscription is next
    | Ensured(inv: Invoice, sub: SubId)      // the subscription is known; staging is next
    | Delivering(d: Delivery)                // the target is fixed; the remote call is next
    | Sent(d: Delivery)                      // the remote call is in flight
    | Accepted(d: Delivery)                  // the remote call was answered; completing is next
    | Sweeping(sched: Schedule, now: Time)   // the schedule was read; the transition is next

  /** `wire` holds every request ever sent and `accepted` those the control-plane has answered
      with success; `evidence` and `journal` are history: the events seen, and per subscription
      the deliveries in the order they were staged. */
  datatype Sys = Sys(
    store: Store, registry: Registry, tasks: map<nat, Task>,
    wire: set<Request>, accepted: set<Request>,
    evidence: set<Event>, journal: map<SubId, seq<Delivery>>)

  const Init := Sys(EmptyStore, EmptyRegistry, map[], {}, {}, {}, map[])

  datatype Move =
    | ReserveCreate(intent: Intent)
    | BeginCreate(key: string)
    | CompleteCreate(key: string, inv: Invoice)
    | FailCreate(key: string)
    | ReceiveEvent(task: nat, ev: Event)
    | RecordProcessed(ev: Event)
    | Claim(task: nat, clock: Time)
    | PickStuck(task: nat, invoice: InvoiceId)
    | EnsureRemote(user: UserId, plan: Plan, newId: SubId, now: Time)
    | EnsureReply(task: nat)
    | Stage(task: nat, now: Time)
    | Send(task: nat)
    | Arrive(req: Request)
    | Reply(task: nat)
    | Complete(task: nat, clock: Time)
    | Crash(task: nat)
    | PickDelivery(task: nat, id: DeliveryId)
    | LeaseOutbox(ids: seq<DeliveryId>, until: Time)
    | LeaseClaims(invoices: seq<InvoiceId>, until: Time)
    | SweepRead(task: nat, sub: SubId, now: Time)
    | SweepStage(task: nat)
    | ExpireInvoices(now: Time, onchain: set<string>, grace: Time)
    | AcquirePoll(invoice: InvoiceId, token: string, owner: string, leaseFor: Time, clock: Time)
    | RenewPoll(invoice: InvoiceId, token: string, leaseFor: Time, clock: Time)
    | ReleasePoll(invoice: InvoiceId, token: string)
    | RecordNegative(invoice: InvoiceId, checkAt: Time)
    | ClearNegative(invoice: InvoiceId)
    | RegisterUser(user: UserId)
    | Cancel(sub: SubId)

  // ----- what each move does; a move that is not enabled changes nothing -------------------

  function Enter(s: Sys, task: nat, t: Task): Sys {
    s.(tasks := s.tasks[task := t])
  }

  function Leave(s: Sys, task: nat): Sys {
    s.(tasks := s.tasks - {task})
  }

  function DoComplete(catalog: Catalog, s: Sys, key: string, inv: Invoice): Sys {
    if inv.status == Pending && inv.plan in catalog then
      match CompleteInvoiceCreate(s.store, key, inv)
      case Ok(store) => s.(store := store)
      case Err(_) => s
    else s
  }

  function Journaled(s: Sys, d: Delivery): map<SubId, seq<Delivery>> {
    s.journal[d.sub := (if d.sub in s.journal then s.journal[d.sub] else []) + [d]]
  }

  /** What an event does to the invoice: an underpaid settlement invalidates it, and the
      provider's own expired or invalid verdict is written without further question. */
  function Verdict(s: Store, ev: Event): Store {
    if ev.invoice !in s.invoices then s
    else if ev.status == Settled then
      if RightRail(ev, s.invoices[ev.invoice]) && !Covers(ev, s.invoices[ev.invoice]) then
        SetInvoiceStatus(s, ev.invoice, Invalid).value
      else s
    else if ev.status == Pending then s
    else SetInvoiceStatus(s, ev.invoice, ev.status).value
  }

  /** One event: an exact replay is dropped, and a settlement that passes the checks goes on
      to claim its invoice. */
  function DoReceive(s: Sys, task: nat, ev: Event): Sys {
    if task in s.tasks || (ev.provider, ev.externalId) in s.store.events then s
    else
      var s' := s.(evidence := s.evidence + {ev}, store := Verdict(s.store, ev));
      if ev.status == Settled && ev.invoice in s.store.invoices && Covers(ev, s.store.invoices[ev.invoice]) then
        Enter(s', task, Paid(ev, s.store.invoices[ev.invoice]))
      else s'
  }

  function DoClaim(s: Sys, task: nat, clock: Time): Sys {
    if task in s.tasks && s.tasks[task].Paid? then
      var (store, claimed) := ClaimSettlement(s.store, s.tasks[task].inv.id, clock);
      if claimed then Enter(s.(store := store), task, Crediting(s.tasks[task].inv)) else Leave(s, task)
    else s
  }

  /** A recovery pass takes up a claimed invoice unless it finds it settled. */
  function DoPickStuck(s: Sys, task: nat, id: InvoiceId): Sys {
    if task !in s.tasks && id in s.store.settled && id in s.store.invoices && s.store.invoices[id].status != Settled then
      Enter(s, task, Crediting(s.store.invoices[id]))
    else s
  }

  /** Some call to the ensure endpoint arrives; `newId` is a fresh random id. */
  function DoEnsureRemote(s: Sys, user: UserId, plan: Plan, newId: SubId, now: Time): Sys {
    if newId == "" || newId in s.registry.subs then s
    else
      match EnsureSubscription(s.registry, user, plan, newId, now)
      case Ok((registry, _)) => s.(registry := registry)
      case Err(_) => s
  }

  function DoEnsureReply(s: Sys, task: nat): Sys {
    if task in s.tasks && s.tasks[task].Crediting? then
      var inv := s.tasks[task].inv;
      if inv.user in s.registry.links && s.registry.links[inv.user] != None
         && s.registry.links[inv.user].value in s.registry.subs then
        Enter(s, task, Ensured(inv, s.registry.links[inv.user].value))
      else s
    else s
  }

  function DoStage(catalog: Catalog, s: Sys, task: nat, now: Time): Sys {
    if task in s.tasks && s.tasks[task].Ensured? && s.tasks[task].inv.plan in catalog && now > 0 then
      var Ensured(inv, sub) := s.tasks[task];
      match StageInvoiceCredit(s.store, inv.id, sub, inv.user, now, catalog[inv.plan])
      case Ok((store, d)) =>
        var s' := if inv.id in s.store.invoiceDeliveries then s else s.(store := store, journal := Journaled(s, d));
        Enter(s', task, Delivering(d))
      case Err(_) => Leave(s, task)
    else s
  }

  function DoSend(s: Sys, task: nat): Sys {
    if task in s.tasks && s.tasks[task].Delivering? then
      Enter(s.(wire := s.wire + {RequestOf(s.tasks[task].d)}), task, Sent(s.tasks[task].d))
    else s
  }

  function DoArrive(s: Sys, req: Request): Sys {
    if req in s.wire then
      match ApplyBillingState(s.registry, req.sub, req.state)
      case Ok(registry) => s.(registry := registry, accepted := s.accepted + {req})
      case Err(_) => s
    else s
  }

  function DoReply(s: Sys, task: nat): Sys {
    if task in s.tasks && s.tasks[task].Sent? && RequestOf(s.tasks[task].d) in s.accepted then
      Enter(s, task, Accepted(s.tasks[task].d))
    else s
  }

  function DoCompleteDelivery(s: Sys, task: nat, clock: Time): Sys {
    if task in s.tasks && s.tasks[task].Accepted? then
      match CompleteBillingDelivery(s.store, s.tasks[task].d.id, clock)
      case Ok(store) => Leave(s.(store := store), task)
      case Err(_) => Leave(s, task)
    else s
  }

  function DoPickDelivery(s: Sys, task: nat, id: DeliveryId): Sys {
    if task !in s.tasks && id in s.store.deliveries then Enter(s, task, Delivering(s.store.deliveries[id])) else s
  }

  function DoSweepRead(s: Sys, task: nat, sub: SubId, now: Time): Sys {
    if task !in s.tasks && sub in s.store.schedules then Enter(s, task, Sweeping(s.store.schedules[sub], now)) else s
  }

  /** The status a schedule should have at `now`: past grace it is expired, past expiry but
      within grace it is past due, before expiry there is no change. */
  function Transition(sched: Schedule, now: Time): Option<SubscriptionStatus> {
    if now >= sched.graceUntil then Some(Expired)
    else if now >= sched.expiresAt then Some(PastDue)
    else None
  }

  function DoSweepStage(s: Sys, task: nat): Sys {
    if task in s.tasks && s.tasks[task].Sweeping? then
      var Sweeping(sched, now) := s.tasks[task];
      var next := Transition(sched, now);
      if next == None || next.value == sched.status then Leave(s, task)
      else
        match StageScheduleTransition(s.store, sched.sub, sched.revision, next.value, now)
        case Ok((store, Some(d))) => Enter(s.(store := store, journal := Journaled(s, d)), task, Delivering(d))
        case Ok((_, None)) => Leave(s, task)
        case Err(_) => Leave(s, task)
    else s
  }

  function Apply(catalog: Catalog, s: Sys, m: Move): Sys {
    match m
    case ReserveCreate(intent) =>
      (match ReserveInvoiceIntent(s.store, intent) case Ok((store, _, _)) => s.(store := store) case Err(_) => s)
    case BeginCreate(key) =>
      (match BeginInvoiceCreate(s.store, key) case Ok((store, _)) => s.(store := store) case Err(_) => s)
    case CompleteCreate(key, inv) => DoComplete(catalog, s, key, inv)
    case FailCreate(key) =>
      (match FailInvoiceCreate(s.store, key) case Ok(store) => s.(store := store) case Err(_) => s)
    case ReceiveEvent(task, ev) => DoReceive(s, task, ev)
    case RecordProcessed(ev) =>
      if ev in s.evidence then s.(store := RecordEvent(s.store, ev.provider, ev.externalId)) else s
    case Claim(task, clock) => DoClaim(s, task, clock)
    case PickStuck(task, id) => DoPickStuck(s, task, id)
    case EnsureRemote(user, plan, newId, now) => DoEnsureRemote(s, user, plan, newId, now)
    case EnsureReply(task) => DoEnsureReply(s, task)
    case Stage(task, now) => DoStage(catalog, s, task, now)
    case Send(task) => DoSend(s, task)
    case Arrive(req) => DoArrive(s, req)
    case Reply(task) => DoReply(s, task)
    case Complete(task, clock) => DoCompleteDelivery(s, task, clock)
    case Crash(task) => Leave(s, task)
    case PickDelivery(task, id) => DoPickDelivery(s, task, id)
    case LeaseOutbox(ids, until) => s.(store := LeaseDeliveries(s.store, ids, until))
    case LeaseClaims(ids, until) => s.(store := LeaseStuck(s.store, ids, until))
    case SweepRead(task, sub, now) => DoSweepRead(s, task, sub, now)
    case SweepStage(task) => DoSweepStage(s, task)
    case ExpireInvoices(now, onchain, grace) => s.(store := ExpireOverdue(s.store, now, onchain, grace))
    case AcquirePoll(id, token, owner, leaseFor, clock) =>
      s.(store := AcquirePollLease(s.store, id, token, owner, leaseFor, clock).0)
    case RenewPoll(id, token, leaseFor, clock) => s.(store := RenewPollLease(s.store, id, token, leaseFor, clock).0)
    case ReleasePoll(id, token) => s.(store := ReleasePollLease(s.store, id, token))
    case RecordNegative(id, checkAt) => s.(store := RecordNegativeCheck(s.store, id, checkAt))
    case ClearNegative(id) => s.(store := ClearNegativeCheck(s.store, id))
    case RegisterUser(user) =>
      if user in s.registry.links then s
      else s.(registry := s.registry.(links := s.registry.links[user := None]))
    case Cancel(sub) =>
      (match CancelSubscription(s.registry, sub) case Ok(registry) => s.(registry := registry) case Err(_) => s)
  }

  function Run(catalog: Catalog, s: Sys, moves: seq<Move>): Sys {
    if moves == [] then s
    else Apply(catalog, Run(catalog, s, moves[..|moves| - 1]), moves[|moves| - 1])
  }

  lemma {:induction false} RunConcat(catalog: Catalog, s: Sys, a: seq<Move>, b: seq<Move>)
    ensures Run(catalog, s, a + b) == Run(catalog, Run(catalog, s, a), b)
  {
    if b == [] {
      assert a + b == a;
    } else {
      var init := b[..|b| - 1];
      RunConcat(catalog, s, a, init);
      assert (a + b)[..|a + b| - 1] == a + init;
    }
  }
}
