/** What other tasks cannot take from a recovery pass: whatever runs, rows, facts, claims, links and
    answers stay; and as long as no verdict closes a claimed invoice, its way to settlement does. */
module Recovery {
  import opened Prelude
  import opened Ledger
  import opened Registry
  import opened Protocol
  import opened Invariant
  import opened Preservation
  import opened Credit
  import opened MemoryStore

  // ----- what no bystander undoes ------------------------------------------------------------

  ghost predicate InvoicesKept(a: map<InvoiceId, Invoice>, b: map<InvoiceId, Invoice>, claims: set<InvoiceId>) {
    forall i :: i in a ==> i in b && InvoiceKept(a[i], b[i], i in claims)
  }

  predicate InvoiceKept(a: Invoice, b: Invoice, claimed: bool) {
    && Fact(b) == Fact(a)
    && (a.status == Settled ==> b.status == Settled)
    && (b.status == Pending ==> a.status == Pending)
    && (claimed && a.status == Pending ==> b.status == Pending || b.status == Settled)
  }

  ghost predicate ClaimsStand(a: map<InvoiceId, Settlement>, b: map<InvoiceId, Settlement>, olderThan: Time) {
    && (forall i :: i in a ==> i in b && b[i] == a[i])
    && (forall i :: i in b && i !in a ==> b[i].claimedAt > olderThan)
  }

  ghost predicate LinksKept(a: map<UserId, Option<SubId>>, b: map<UserId, Option<SubId>>) {
    forall user :: user in a ==> user in b && (a[user].Some? ==> b[user] == a[user])
  }

  ghost predicate Kept(s: Sys, t: Sys, olderThan: Time) {
    && RowsKept(s.store.deliveries, t.store.deliveries)
    && InvoicesKept(s.store.invoices, t.store.invoices, s.store.settled.Keys)
    && ClaimsStand(s.store.settled, t.store.settled, olderThan)
    && LinksKept(s.registry.links, t.registry.links)
    && s.wire <= t.wire && s.accepted <= t.accepted
  }

  /** All but the status stays, and nothing turns back to pending. */
  ghost predicate FactsStay(a: map<InvoiceId, Invoice>, b: map<InvoiceId, Invoice>) {
    forall i :: i in a ==> i in b && Fact(b[i]) == Fact(a[i]) && (b[i].status == Pending ==> a[i].status == Pending)
  }

  /** What every move of every task leaves standing. */
  ghost predicate Standing(s: Sys, t: Sys) {
    && RowsKept(s.store.deliveries, t.store.deliveries)
    && FactsStay(s.store.invoices, t.store.invoices) && s.store.settled.Keys <= t.store.settled.Keys
    && LinksKept(s.registry.links, t.registry.links)
    && s.wire <= t.wire && s.accepted <= t.accepted
  }

  lemma StandingIsReflexive(s: Sys)
    ensures Standing(s, s)
  {
    SameRows(s.store.deliveries);
  }

  lemma StandingIsTransitive(s: Sys, t: Sys, u: Sys)
    requires Standing(s, t) && Standing(t, u)
    ensures Standing(s, u)
  {
    hide LinksKept, FactsStay;
    LinksTransitive(s.registry.links, t.registry.links, u.registry.links);
    FactsTransitive(s.store.invoices, t.store.invoices, u.store.invoices);
  }

  lemma FactsTransitive(a: map<InvoiceId, Invoice>, b: map<InvoiceId, Invoice>, c: map<InvoiceId, Invoice>)
    requires FactsStay(a, b) && FactsStay(b, c)
    ensures FactsStay(a, c)
  {
  }

  lemma KeptIsTransitive(s: Sys, t: Sys, u: Sys, olderThan: Time)
    requires Kept(s, t, olderThan) && Kept(t, u, olderThan)
    ensures Kept(s, u, olderThan)
  {
    hide LinksKept, ClaimsStand;
    LinksTransitive(s.registry.links, t.registry.links, u.registry.links);
    ClaimsTransitive(s.store.settled, t.store.settled, u.store.settled, olderThan);
  }

  lemma LinksTransitive(a: map<UserId, Option<SubId>>, b: map<UserId, Option<SubId>>, c: map<UserId, Option<SubId>>)
    requires LinksKept(a, b) && LinksKept(b, c)
    ensures LinksKept(a, c)
  {
  }

  lemma ClaimsTransitive(a: map<InvoiceId, Settlement>, b: map<InvoiceId, Settlement>, c: map<InvoiceId, Settlement>, olderThan: Time)
    requires ClaimsStand(a, b, olderThan) && ClaimsStand(b, c, olderThan)
    ensures ClaimsStand(a, c, olderThan) && a.Keys <= b.Keys
  {
  }

  lemma KeptIsReflexive(s: Sys, olderThan: Time)
    ensures Kept(s, s, olderThan)
  {
    SameRows(s.store.deliveries);
  }

  // ----- bystanders ------------------------------------------------------------------------

  /** The verdicts that change a status: a short payment by the right gateway, and the gateway's own
      expired or invalid. */
  predicate Closes(ev: Event, inv: Invoice) {
    if ev.status == Settled then RightRail(ev, inv) && !Covers(ev, inv) else ev.status != Pending
  }

  /** The move writes a provider's verdict over the status of invoice `i`. */
  predicate Overwrites(s: Sys, m: Move, i: InvoiceId) {
    && m.ReceiveEvent? && m.ev.invoice == i && i in s.store.invoices
    && m.task !in s.tasks && (m.ev.provider, m.ev.externalId) !in s.store.events && Closes(m.ev, s.store.invoices[i])
  }

  /** Closed to bystanders are only a verdict over a claimed or settled invoice, a claim stamped
      inside the recovery threshold, and the leases of another recovery pass. */
  predicate Calm(s: Sys, m: Move, olderThan: Time) {
    && (m.ReceiveEvent? && Overwrites(s, m, m.ev.invoice) ==>
         m.ev.invoice !in s.store.settled && s.store.invoices[m.ev.invoice].status != Settled)
    && (m.Claim? ==> m.clock > olderThan)
    && !m.LeaseOutbox? && !m.LeaseClaims?
  }

  function TaskOf(m: Move): Option<nat> {
    match m
    case ReceiveEvent(t, _) => Some(t)
    case Claim(t, _) => Some(t)
    case PickStuck(t, _) => Some(t)
    case EnsureReply(t) => Some(t)
    case Stage(t, _) => Some(t)
    case Send(t) => Some(t)
    case Reply(t) => Some(t)
    case Complete(t, _) => Some(t)
    case Crash(t) => Some(t)
    case PickDelivery(t, _) => Some(t)
    case SweepRead(t, _, _) => Some(t)
    case SweepStage(t) => Some(t)
    case _ => None
  }

  /** The moves of tasks other than `me`. */
  predicate OthersRun(moves: seq<Move>, me: nat) {
    forall k :: 0 <= k < |moves| ==> TaskOf(moves[k]) != Some(me)
  }

  ghost predicate QuietRun(catalog: Catalog, s: Sys, moves: seq<Move>, olderThan: Time) {
    moves != [] ==>
      var init, last := moves[..|moves| - 1], moves[|moves| - 1];
      QuietRun(catalog, s, init, olderThan) && Calm(Run(catalog, s, init), last, olderThan)
  }

  /** Nothing outside tasks, leases, intents, events, schedules and the outbox changes. */
  predicate SameRest(s: Sys, t: Sys) {
    && t.store.invoices == s.store.invoices && t.store.settled == s.store.settled && t.registry == s.registry
    && t.wire == s.wire && t.accepted == s.accepted
  }

  predicate OnlyTasks(m: Move) {
    m.PickStuck? || m.EnsureReply? || m.Reply? || m.Crash? || m.PickDelivery? || m.SweepRead?
  }

  predicate OnlyStore(m: Move) {
    || m.ReserveCreate? || m.BeginCreate? || m.FailCreate? || m.RecordProcessed? || m.LeaseOutbox? || m.AcquirePoll?
    || m.RenewPoll? || m.ReleasePoll? || m.RecordNegative? || m.ClearNegative?
  }

  /** A step that changes tasks alone. */
  predicate TasksApart(s: Sys, t: Sys) {
    SameRest(s, t) && t.store == s.store
  }

  lemma PickStuckApart(s: Sys, task: nat, i: InvoiceId)
    ensures TasksApart(s, DoPickStuck(s, task, i))
  {
  }

  lemma EnsureReplyApart(s: Sys, task: nat)
    ensures TasksApart(s, DoEnsureReply(s, task))
  {
  }

  lemma ReplyApart(s: Sys, task: nat)
    ensures TasksApart(s, DoReply(s, task)) && TasksApart(s, Leave(s, task))
  {
  }

  lemma PickDeliveryApart(s: Sys, task: nat, id: DeliveryId)
    ensures TasksApart(s, DoPickDelivery(s, task, id))
  {
  }

  lemma SweepReadApart(s: Sys, task: nat, sub: SubId, now: Time)
    ensures TasksApart(s, DoSweepRead(s, task, sub, now))
  {
  }

  lemma OnlyTasksFrame(catalog: Catalog, s: Sys, m: Move)
    requires OnlyTasks(m)
    ensures SameRest(s, Apply(catalog, s, m)) && Apply(catalog, s, m).store == s.store
  {
    hide DoPickStuck, DoEnsureReply, DoReply, DoPickDelivery, DoSweepRead, SameRest;
    match m
    case PickStuck(task, i) => PickStuckApart(s, task, i);
    case EnsureReply(task) => EnsureReplyApart(s, task);
    case Reply(task) => ReplyApart(s, task);
    case Crash(task) => ReplyApart(s, task);
    case PickDelivery(task, id) => PickDeliveryApart(s, task, id);
    case SweepRead(task, sub, now) => SweepReadApart(s, task, sub, now);
  }

  lemma OnlyStoreFrame(catalog: Catalog, s: Sys, m: Move)
    requires OnlyStore(m)
    ensures SameRest(s, Apply(catalog, s, m)) && Apply(catalog, s, m).store.deliveries == s.store.deliveries
  {
    hide SameRest;
    if m.AcquirePoll? || m.RenewPoll? || m.ReleasePoll? || m.RecordNegative? || m.ClearNegative? {
      PollFrame(catalog, s, m);
    } else {
      IntentFrame(catalog, s, m);
    }
  }

  /** The parts of the store a recovery pass cares about. */
  predicate SameMoney(s: Store, t: Store) {
    t.invoices == s.invoices && t.settled == s.settled && t.deliveries == s.deliveries
  }

  lemma SameMoneyReflexive(s: Store)
    ensures SameMoney(s, s)
  {
  }

  lemma AcquireCall(s: Store, i: InvoiceId, token: string, owner: string, leaseFor: Time, clock: Time)
    ensures SameMoney(s, AcquirePollLease(s, i, token, owner, leaseFor, clock).0)
  {
    SameMoneyReflexive(s);
  }

  lemma RenewCall(s: Store, i: InvoiceId, token: string, leaseFor: Time, clock: Time)
    ensures SameMoney(s, RenewPollLease(s, i, token, leaseFor, clock).0)
  {
    SameMoneyReflexive(s);
  }

  lemma ReleaseCall(s: Store, i: InvoiceId, token: string)
    ensures SameMoney(s, ReleasePollLease(s, i, token))
  {
    SameMoneyReflexive(s);
  }

  lemma CheckCalls(s: Store, i: InvoiceId, checkAt: Time)
    ensures SameMoney(s, RecordNegativeCheck(s, i, checkAt)) && SameMoney(s, ClearNegativeCheck(s, i))
  {
    SameMoneyReflexive(s);
  }

  lemma StoreSwap(s: Sys, store: Store)
    requires SameMoney(s.store, store)
    ensures SameRest(s, s.(store := store)) && store.deliveries == s.store.deliveries
  {
  }

  lemma PollFrame(catalog: Catalog, s: Sys, m: Move)
    requires m.AcquirePoll? || m.RenewPoll? || m.ReleasePoll? || m.RecordNegative? || m.ClearNegative?
    ensures SameRest(s, Apply(catalog, s, m)) && Apply(catalog, s, m).store.deliveries == s.store.deliveries
  {
    hide SameMoney, SameRest, AcquirePollLease, RenewPollLease, ReleasePollLease, RecordNegativeCheck, ClearNegativeCheck;
    var store := Apply(catalog, s, m).store;
    match m
    case AcquirePoll(i, token, owner, leaseFor, clock) => AcquireCall(s.store, i, token, owner, leaseFor, clock); StoreSwap(s, store);
    case RenewPoll(i, token, leaseFor, clock) => RenewCall(s.store, i, token, leaseFor, clock); StoreSwap(s, store);
    case ReleasePoll(i, token) => ReleaseCall(s.store, i, token); StoreSwap(s, store);
    case RecordNegative(i, checkAt) => CheckCalls(s.store, i, checkAt); StoreSwap(s, store);
    case ClearNegative(i) => CheckCalls(s.store, i, 0); StoreSwap(s, store);
  }

  lemma ReserveCall(s: Store, intent: Intent)
    ensures match ReserveInvoiceIntent(s, intent) case Ok(out) => SameMoney(s, out.0) case Err(_) => true
  {
    SameMoneyReflexive(s);
  }

  lemma BeginCall(s: Store, key: string)
    ensures match BeginInvoiceCreate(s, key) case Ok(out) => SameMoney(s, out.0) case Err(_) => true
  {
    SameMoneyReflexive(s);
  }

  lemma FailCall(s: Store, key: string)
    ensures match FailInvoiceCreate(s, key) case Ok(store) => SameMoney(s, store) case Err(_) => true
  {
  }

  lemma RecordCalls(s: Store, provider: string, externalId: string, ids: seq<DeliveryId>, until: Time)
    ensures SameMoney(s, RecordEvent(s, provider, externalId)) && SameMoney(s, LeaseDeliveries(s, ids, until))
  {
  }

  lemma IntentFrame(catalog: Catalog, s: Sys, m: Move)
    requires m.ReserveCreate? || m.BeginCreate? || m.FailCreate? || m.RecordProcessed? || m.LeaseOutbox?
    ensures SameRest(s, Apply(catalog, s, m)) && Apply(catalog, s, m).store.deliveries == s.store.deliveries
  {
    hide SameMoney, SameRest, ReserveInvoiceIntent, BeginInvoiceCreate, FailInvoiceCreate, RecordEvent, LeaseDeliveries;
    SameMoneyReflexive(s.store);
    match m
    case ReserveCreate(intent) => ReserveCall(s.store, intent); StoreSwap(s, Apply(catalog, s, m).store);
    case BeginCreate(key) => BeginCall(s.store, key); StoreSwap(s, Apply(catalog, s, m).store);
    case FailCreate(key) => FailCall(s.store, key); StoreSwap(s, Apply(catalog, s, m).store);
    case RecordProcessed(ev) => RecordCalls(s.store, ev.provider, ev.externalId, [], 0); StoreSwap(s, Apply(catalog, s, m).store);
    case LeaseOutbox(ids, until) => RecordCalls(s.store, "", "", ids, until); StoreSwap(s, Apply(catalog, s, m).store);
  }

  lemma StagingFrame(catalog: Catalog, s: Sys, m: Move)
    requires m.Stage? || m.SweepStage?
    ensures SameRest(s, Apply(catalog, s, m))
  {
    hide CreditTarget, TransitionTarget, Transition;
    match m
    case Stage(task, now) => assert SameRest(s, DoStage(catalog, s, task, now));
    case SweepStage(task) => assert SameRest(s, DoSweepStage(s, task));
  }

  lemma ClaimsAlone(claims: map<InvoiceId, Settlement>, olderThan: Time)
    ensures ClaimsStand(claims, claims, olderThan)
  {
  }

  lemma InvoicesStand(invoices: map<InvoiceId, Invoice>, claims: set<InvoiceId>)
    ensures InvoicesKept(invoices, invoices, claims)
  {
  }

  // The moves that do touch invoices, claims or the control-plane, one by one.

  lemma VerdictIs(s: Store, ev: Event)
    ensures Verdict(s, ev) ==
      if ev.invoice in s.invoices && Closes(ev, s.invoices[ev.invoice]) then
        SetInvoiceStatus(s, ev.invoice, if ev.status == Settled then Invalid else ev.status).value
      else s
  {
    hide RightRail, Covers;
  }

  lemma ReceiveFrame(s: Sys, task: nat, ev: Event)
    ensures
      var t := DoReceive(s, task, ev);
      && t.registry == s.registry && t.wire == s.wire && t.accepted == s.accepted && t.store.settled == s.store.settled
      && t.store.deliveries == s.store.deliveries
  {
    hide Verdict, Covers;
    VerdictKeepsFacts(s.store, ev);
  }

  lemma CalmReceiveFrame(s: Sys, task: nat, ev: Event, olderThan: Time)
    requires Calm(s, ReceiveEvent(task, ev), olderThan)
    ensures InvoicesKept(s.store.invoices, DoReceive(s, task, ev).store.invoices, s.store.settled.Keys)
  {
    hide InvoicesKept, Verdict, Covers, RightRail;
    InvoicesStand(s.store.invoices, s.store.settled.Keys);
    VerdictIs(s.store, ev);
    if Overwrites(s, ReceiveEvent(task, ev), ev.invoice) {
      UnclaimedCloses(s.store.invoices, s.store.settled.Keys, ev.invoice, if ev.status == Settled then Invalid else ev.status);
    }
  }

  lemma UnclaimedCloses(invoices: map<InvoiceId, Invoice>, claims: set<InvoiceId>, i: InvoiceId, status: InvoiceStatus)
    requires i in invoices && i !in claims && invoices[i].status != Settled && status != Pending
    ensures InvoicesKept(invoices, invoices[i := invoices[i].(status := status)], claims)
  {
  }

  lemma ClaimFrame(s: Sys, task: nat, clock: Time, olderThan: Time)
    ensures
      var t := DoClaim(s, task, clock);
      && t.registry == s.registry && t.wire == s.wire && t.accepted == s.accepted && t.store.invoices == s.store.invoices
      && (clock > olderThan ==> ClaimsStand(s.store.settled, t.store.settled, olderThan))
  {
  }

  lemma CreateFrame(catalog: Catalog, s: Sys, key: string, inv: Invoice)
    ensures
      var t := DoComplete(catalog, s, key, inv);
      && t.registry == s.registry && t.wire == s.wire && t.accepted == s.accepted && t.store.settled == s.store.settled
      && InvoicesKept(s.store.invoices, t.store.invoices, s.store.settled.Keys)
  {
  }

  /** What completing a row does to the rows, and to the invoices. */
  lemma CompleteRows(s: Store, id: DeliveryId, clock: Time)
    requires CompleteBillingDelivery(s, id, clock).Ok?
    ensures id in s.deliveries
    ensures CompleteBillingDelivery(s, id, clock).value.deliveries ==
      if s.deliveries[id].deliveredAt.None? then s.deliveries[id := s.deliveries[id].(deliveredAt := Some(clock))]
      else s.deliveries
  {
  }

  /** The invoice that completing the row settles, if it has not settled it before. */
  function ToSettle(s: Store, id: DeliveryId): Option<InvoiceId>
    requires id in s.deliveries
  {
    if s.deliveries[id].deliveredAt.None? then s.deliveries[id].invoice else None
  }

  lemma CompleteSettles(s: Store, id: DeliveryId, clock: Time)
    requires id in s.deliveries && ToSettle(s, id).Some? && ToSettle(s, id).value in s.invoices
    ensures CompleteBillingDelivery(s, id, clock).Ok?
    ensures CompleteBillingDelivery(s, id, clock).value.settled == s.settled
    ensures CompleteBillingDelivery(s, id, clock).value.invoices ==
      s.invoices[ToSettle(s, id).value := s.invoices[ToSettle(s, id).value].(status := Settled)]
  {
  }

  lemma CompleteAgain(s: Store, id: DeliveryId, clock: Time)
    requires id in s.deliveries && s.deliveries[id].deliveredAt.Some?
    ensures CompleteBillingDelivery(s, id, clock) == Ok(s.(deliveryLeases := s.deliveryLeases - {id}))
  {
  }

  lemma CompleteTransition(s: Store, id: DeliveryId, clock: Time)
    requires id in s.deliveries && s.deliveries[id].deliveredAt.None? && s.deliveries[id].invoice.None?
    ensures CompleteBillingDelivery(s, id, clock).Ok?
    ensures CompleteBillingDelivery(s, id, clock).value.settled == s.settled
    ensures CompleteBillingDelivery(s, id, clock).value.invoices == s.invoices
  {
  }

  lemma CompleteFails(s: Store, id: DeliveryId, clock: Time)
    requires id !in s.deliveries || (ToSettle(s, id).Some? && ToSettle(s, id).value !in s.invoices)
    ensures CompleteBillingDelivery(s, id, clock).Err?
  {
  }

  lemma CompleteInvoices(s: Store, id: DeliveryId, clock: Time)
    requires CompleteBillingDelivery(s, id, clock).Ok?
    ensures id in s.deliveries && CompleteBillingDelivery(s, id, clock).value.settled == s.settled
    ensures
      var i := s.deliveries[id].invoice;
      if s.deliveries[id].deliveredAt.None? && i.Some? then
        && i.value in s.invoices
        && CompleteBillingDelivery(s, id, clock).value.invoices == s.invoices[i.value := s.invoices[i.value].(status := Settled)]
      else CompleteBillingDelivery(s, id, clock).value.invoices == s.invoices
  {
    hide CompleteBillingDelivery;
    if id !in s.deliveries || (ToSettle(s, id).Some? && ToSettle(s, id).value !in s.invoices) {
      CompleteFails(s, id, clock);
    } else if s.deliveries[id].deliveredAt.Some? {
      CompleteAgain(s, id, clock);
    } else if s.deliveries[id].invoice.None? {
      CompleteTransition(s, id, clock);
    } else {
      CompleteSettles(s, id, clock);
    }
  }

  lemma DeliveredFrame(s: Store, id: DeliveryId, clock: Time)
    ensures CompleteBillingDelivery(s, id, clock).Ok? ==>
      var t := CompleteBillingDelivery(s, id, clock).value;
      t.settled == s.settled && InvoicesKept(s.invoices, t.invoices, s.settled.Keys)
  {
    hide InvoicesKept, CompleteBillingDelivery;
    InvoicesStand(s.invoices, s.settled.Keys);
    if CompleteBillingDelivery(s, id, clock).Ok? {
      CompleteInvoices(s, id, clock);
      var d := s.deliveries[id];
      if d.deliveredAt.None? && d.invoice.Some? { OneInvoiceSettled(s.invoices, s.settled.Keys, d.invoice.value); }
    }
  }

  lemma OneInvoiceSettled(invoices: map<InvoiceId, Invoice>, claims: set<InvoiceId>, i: InvoiceId)
    requires i in invoices
    ensures InvoicesKept(invoices, invoices[i := invoices[i].(status := Settled)], claims)
  {
  }

  lemma CompleteFrame(s: Sys, task: nat, clock: Time)
    ensures
      var t := DoCompleteDelivery(s, task, clock);
      && t.registry == s.registry && t.wire == s.wire && t.accepted == s.accepted && t.store.settled == s.store.settled
      && InvoicesKept(s.store.invoices, t.store.invoices, s.store.settled.Keys)
  {
    hide InvoicesKept, CompleteBillingDelivery;
    InvoicesStand(s.store.invoices, s.store.settled.Keys);
    if task in s.tasks && s.tasks[task].Accepted? { DeliveredFrame(s.store, s.tasks[task].d.id, clock); }
  }

  lemma SweepFrame(s: Store, now: Time, onchain: set<string>, grace: Time)
    ensures InvoicesKept(s.invoices, ExpireOverdue(s, now, onchain, grace).invoices, s.settled.Keys)
  {
  }

  lemma EnsureFrame(s: Sys, user: UserId, plan: Plan, newId: SubId, now: Time)
    ensures
      var t := DoEnsureRemote(s, user, plan, newId, now);
      t.store == s.store && t.wire == s.wire && t.accepted == s.accepted && LinksKept(s.registry.links, t.registry.links)
  {
  }

  lemma ArriveFrame(s: Sys, req: Request)
    ensures
      var t := DoArrive(s, req);
      t.store == s.store && t.wire == s.wire && s.accepted <= t.accepted && t.registry.links == s.registry.links
  {
  }

  lemma SendFrame(s: Sys, task: nat)
    ensures
      var t := DoSend(s, task);
      t.store == s.store && s.wire <= t.wire && t.accepted == s.accepted && t.registry == s.registry
  {
  }

  /** The moves at the control-plane and of the operator leave the store alone. */
  predicate OnlyRegistry(m: Move) {
    m.EnsureRemote? || m.Arrive? || m.Send? || m.RegisterUser? || m.Cancel?
  }

  lemma OperatorFrame(catalog: Catalog, s: Sys, m: Move)
    requires m.RegisterUser? || m.Cancel?
    ensures
      var t := Apply(catalog, s, m);
      t.store == s.store && t.wire == s.wire && t.accepted == s.accepted && LinksKept(s.registry.links, t.registry.links)
  {
  }

  lemma OnlyRegistryFrame(catalog: Catalog, s: Sys, m: Move)
    requires OnlyRegistry(m)
    ensures Apply(catalog, s, m).store == s.store
    ensures s.wire <= Apply(catalog, s, m).wire && s.accepted <= Apply(catalog, s, m).accepted
    ensures LinksKept(s.registry.links, Apply(catalog, s, m).registry.links)
  {
    hide DoEnsureRemote, DoArrive, DoSend, LinksKept;
    LinksStand(s.registry.links);
    match m
    case EnsureRemote(user, plan, newId, now) => EnsureFrame(s, user, plan, newId, now);
    case Arrive(req) => ArriveFrame(s, req);
    case Send(task) => SendFrame(s, task);
    case RegisterUser(_) => OperatorFrame(catalog, s, m);
    case Cancel(_) => OperatorFrame(catalog, s, m);
  }

  /** Everything else that leaves invoices, claims and the control-plane alone. */
  predicate Aside(m: Move) {
    OnlyTasks(m) || OnlyStore(m) || m.Stage? || m.SweepStage?
  }

  lemma AsideFrame(catalog: Catalog, s: Sys, m: Move)
    requires Aside(m)
    ensures SameRest(s, Apply(catalog, s, m))
  {
    hide Apply, SameRest;
    if OnlyTasks(m) {
      OnlyTasksFrame(catalog, s, m);
    } else if OnlyStore(m) {
      OnlyStoreFrame(catalog, s, m);
    } else {
      StagingFrame(catalog, s, m);
    }
  }

  /** Of invoices and claims nothing is lost by a calm move. */
  lemma CalmKeepsInvoices(catalog: Catalog, s: Sys, m: Move, olderThan: Time)
    requires Calm(s, m, olderThan)
    ensures InvoicesKept(s.store.invoices, Apply(catalog, s, m).store.invoices, s.store.settled.Keys)
    ensures ClaimsStand(s.store.settled, Apply(catalog, s, m).store.settled, olderThan)
  {
    hide InvoicesKept, LinksKept;
    InvoicesStand(s.store.invoices, s.store.settled.Keys);
    if Aside(m) {
      hide Apply;
      AsideFrame(catalog, s, m);
    } else if OnlyRegistry(m) {
      hide Apply;
      OnlyRegistryFrame(catalog, s, m);
    } else {
      WritesKeepInvoices(catalog, s, m, olderThan);
    }
  }

  lemma WritesKeepInvoices(catalog: Catalog, s: Sys, m: Move, olderThan: Time)
    requires Calm(s, m, olderThan) && !Aside(m) && !OnlyRegistry(m)
    ensures InvoicesKept(s.store.invoices, Apply(catalog, s, m).store.invoices, s.store.settled.Keys)
    ensures ClaimsStand(s.store.settled, Apply(catalog, s, m).store.settled, olderThan)
  {
    hide InvoicesKept, Verdict, LinksKept, DoCompleteDelivery, DoReceive, DoClaim, DoComplete, Overdue, Closes, ClaimsStand;
    ClaimsAlone(s.store.settled, olderThan);
    InvoicesStand(s.store.invoices, s.store.settled.Keys);
    match m
    case ReceiveEvent(task, ev) => ReceiveFrame(s, task, ev); CalmReceiveFrame(s, task, ev, olderThan);
    case Claim(task, clock) => ClaimFrame(s, task, clock, olderThan);
    case CompleteCreate(key, inv) => CreateFrame(catalog, s, key, inv);
    case Complete(task, clock) => CompleteFrame(s, task, clock);
    case ExpireInvoices(now, onchain, grace) => SweepFrame(s.store, now, onchain, grace);
  }

  /** Of the control-plane's answers and links nothing is lost by any move. */
  lemma MoveKeepsLinks(catalog: Catalog, s: Sys, m: Move)
    ensures LinksKept(s.registry.links, Apply(catalog, s, m).registry.links)
    ensures s.wire <= Apply(catalog, s, m).wire && s.accepted <= Apply(catalog, s, m).accepted
  {
    hide LinksKept;
    LinksStand(s.registry.links);
    if Aside(m) {
      hide Apply;
      AsideFrame(catalog, s, m);
    } else if OnlyRegistry(m) {
      hide Apply;
      OnlyRegistryFrame(catalog, s, m);
    } else {
      WritesKeepRegistry(catalog, s, m);
    }
  }

  lemma LinksStand(links: map<UserId, Option<SubId>>)
    ensures LinksKept(links, links)
  {
  }

  lemma WritesKeepRegistry(catalog: Catalog, s: Sys, m: Move)
    requires !Aside(m) && !OnlyRegistry(m)
    ensures
      var t := Apply(catalog, s, m);
      t.registry == s.registry && t.wire == s.wire && t.accepted == s.accepted
  {
    hide InvoicesKept, Verdict, ClaimsStand, DoCompleteDelivery, DoReceive, DoClaim, DoComplete, Overdue;
    match m
    case ReceiveEvent(task, ev) => ReceiveFrame(s, task, ev);
    case Claim(task, clock) => ClaimFrame(s, task, clock, 0);
    case CompleteCreate(key, inv) => CreateFrame(catalog, s, key, inv);
    case Complete(task, clock) => CompleteFrame(s, task, clock);
    case ExpireInvoices(_, _, _) =>
    case LeaseClaims(_, _) =>
  }

  lemma CalmMoveKeeps(catalog: Catalog, s: Sys, m: Move, olderThan: Time)
    requires CatalogOk(catalog) && Inv(catalog, s) && Calm(s, m, olderThan)
    ensures Kept(s, Apply(catalog, s, m), olderThan)
  {
    hide Inv, Apply, RowsKept, InvoicesKept, ClaimsStand, LinksKept;
    MoveKeepsRows(catalog, s, m);
    CalmKeepsInvoices(catalog, s, m, olderThan);
    MoveKeepsLinks(catalog, s, m);
  }

  // ----- what no move at all takes away -------------------------------------------------------

  lemma VerdictFacts(s: Store, ev: Event)
    ensures FactsStay(s.invoices, Verdict(s, ev).invoices)
  {
    hide Verdict, FactsStay, NeverReopened;
    VerdictKeepsFacts(s, ev);
    VerdictNeverReopens(s, ev);
    FactsOfParts(s.invoices, Verdict(s, ev).invoices);
  }

  lemma FactsOfParts(a: map<InvoiceId, Invoice>, b: map<InvoiceId, Invoice>)
    requires Facts(b) == Facts(a) && NeverReopened(a, b)
    ensures FactsStay(a, b)
  {
    forall i | i in a ensures Fact(b[i]) == Fact(a[i]) {
      assert Facts(a)[i] == Facts(b)[i];
    }
  }

  lemma ReceivedFacts(s: Sys, task: nat, ev: Event)
    ensures FactsStay(s.store.invoices, DoReceive(s, task, ev).store.invoices)
  {
    hide Verdict, Covers, FactsStay;
    VerdictFacts(s.store, ev);
    SameFacts(s.store.invoices);
  }

  lemma SameFacts(a: map<InvoiceId, Invoice>)
    ensures FactsStay(a, a)
  {
  }

  lemma KeptFacts(a: map<InvoiceId, Invoice>, b: map<InvoiceId, Invoice>, claims: set<InvoiceId>)
    requires InvoicesKept(a, b, claims)
    ensures FactsStay(a, b)
  {
  }

  lemma StandingClaims(a: map<InvoiceId, Settlement>, b: map<InvoiceId, Settlement>, olderThan: Time)
    requires ClaimsStand(a, b, olderThan)
    ensures a.Keys <= b.Keys
  {
  }

  /** Neither an invoice nor a claim ever goes, and of an invoice only the status changes. */
  lemma MoveKeepsFacts(catalog: Catalog, s: Sys, m: Move)
    ensures FactsStay(s.store.invoices, Apply(catalog, s, m).store.invoices)
    ensures s.store.settled.Keys <= Apply(catalog, s, m).store.settled.Keys
  {
    hide FactsStay, InvoicesKept, ClaimsStand, Apply;
    if m.ReceiveEvent? {
      ApplyReceive(catalog, s, m);
      ReceivedFacts(s, m.task, m.ev);
      ReceiveFrame(s, m.task, m.ev);
    } else if m.LeaseOutbox? || m.LeaseClaims? {
      LeasedFacts(catalog, s, m);
    } else {
      CalmFacts(catalog, s, m, if m.Claim? then m.clock - 1 else 0);
    }
  }

  lemma ApplyReceive(catalog: Catalog, s: Sys, m: Move)
    requires m.ReceiveEvent?
    ensures Apply(catalog, s, m) == DoReceive(s, m.task, m.ev)
  {
    hide DoReceive;
  }

  lemma LeasedFacts(catalog: Catalog, s: Sys, m: Move)
    requires m.LeaseOutbox? || m.LeaseClaims?
    ensures FactsStay(s.store.invoices, Apply(catalog, s, m).store.invoices)
    ensures s.store.settled.Keys == Apply(catalog, s, m).store.settled.Keys
  {
    hide FactsStay;
    SameFacts(s.store.invoices);
  }

  lemma CalmFacts(catalog: Catalog, s: Sys, m: Move, olderThan: Time)
    requires Calm(s, m, olderThan)
    ensures FactsStay(s.store.invoices, Apply(catalog, s, m).store.invoices)
    ensures s.store.settled.Keys <= Apply(catalog, s, m).store.settled.Keys
  {
    hide FactsStay, Apply, Calm, InvoicesKept, ClaimsStand;
    CalmKeepsInvoices(catalog, s, m, olderThan);
    KeptFacts(s.store.invoices, Apply(catalog, s, m).store.invoices, s.store.settled.Keys);
    StandingClaims(s.store.settled, Apply(catalog, s, m).store.settled, olderThan);
  }

  lemma AnyMoveStands(catalog: Catalog, s: Sys, m: Move)
    requires CatalogOk(catalog) && Inv(catalog, s)
    ensures Standing(s, Apply(catalog, s, m))
  {
    hide Inv, Apply, RowsKept, FactsStay, LinksKept;
    MoveKeepsRows(catalog, s, m);
    MoveKeepsFacts(catalog, s, m);
    MoveKeepsLinks(catalog, s, m);
  }

  // ----- a delivered credit leaves no pending invoice, a settled invoice is credited ------------

  ghost predicate DeliveredIn(s: Store, id: DeliveryId) {
    id in s.deliveries && s.deliveries[id].deliveredAt.Some?
  }

  ghost predicate SettledDelivered(s: Store) {
    forall i :: i in s.invoices && s.invoices[i].status == Settled ==> DeliveredIn(s, ForInvoice(i))
  }

  /** The invoices that are settled after a step were settled before it. */
  ghost predicate NoNewSettled(a: map<InvoiceId, Invoice>, b: map<InvoiceId, Invoice>) {
    forall i :: i in b && b[i].status == Settled ==> i in a && a[i].status == Settled
  }

  lemma StillDelivered(s: Store, t: Store)
    requires SettledDelivered(s) && NoNewSettled(s.invoices, t.invoices) && RowsKept(s.deliveries, t.deliveries)
    ensures SettledDelivered(t)
  {
    forall i | i in t.invoices && t.invoices[i].status == Settled ensures DeliveredIn(t, ForInvoice(i)) {
      assert DeliveredIn(s, ForInvoice(i));
      assert RowKept(s.deliveries[ForInvoice(i)], t.deliveries[ForInvoice(i)]);
    }
  }

  lemma CompleteDelivers(s: Store, id: DeliveryId, clock: Time)
    requires SettledDelivered(s) && id in s.deliveries
    requires s.deliveries[id].invoice.Some? ==> id == ForInvoice(s.deliveries[id].invoice.value)
    ensures CompleteBillingDelivery(s, id, clock).Ok? ==> SettledDelivered(CompleteBillingDelivery(s, id, clock).value)
  {
    hide CompleteBillingDelivery;
    if CompleteBillingDelivery(s, id, clock).Ok? {
      CompleteRows(s, id, clock);
      CompleteInvoices(s, id, clock);
      var t := CompleteBillingDelivery(s, id, clock).value;
      forall i | i in t.invoices && t.invoices[i].status == Settled ensures DeliveredIn(t, ForInvoice(i)) {
        assert s.deliveries[id].deliveredAt.Some? || s.deliveries[id].invoice != Some(i) ==> DeliveredIn(s, ForInvoice(i));
      }
    }
  }

  lemma CompleteMoveDelivers(catalog: Catalog, s: Sys, task: nat, clock: Time)
    requires Inv(catalog, s) && SettledDelivered(s.store)
    ensures SettledDelivered(DoCompleteDelivery(s, task, clock).store)
  {
    hide Good, SettledDelivered, CompleteBillingDelivery;
    if task in s.tasks && s.tasks[task].Accepted? {
      var id := s.tasks[task].d.id;
      assert TaskOk(ViewOf(s), s.tasks[task]);
      RowInvoice(catalog, ViewOf(s), id);
      CompleteDelivers(s.store, id, clock);
    }
  }

  lemma MoveKeepsSettled(catalog: Catalog, s: Sys, m: Move)
    requires CatalogOk(catalog) && Inv(catalog, s) && SettledDelivered(s.store)
    ensures SettledDelivered(Apply(catalog, s, m).store)
  {
    hide Inv, SettledDelivered, RowsKept, NoNewSettled, NeverReopened, NoNewDelivered;
    if m.Complete? {
      CompleteMoveDelivers(catalog, s, m.task, m.clock);
      ApplyComplete(catalog, s, m);
    } else {
      hide Apply;
      ReopenFrame(catalog, s, m);
      MoveKeepsRows(catalog, s, m);
      StillDelivered(s.store, Apply(catalog, s, m).store);
    }
  }

  lemma ApplyComplete(catalog: Catalog, s: Sys, m: Move)
    requires m.Complete?
    ensures Apply(catalog, s, m) == DoCompleteDelivery(s, m.task, m.clock)
  {
    hide DoCompleteDelivery;
  }

  predicate NotPending(s: Store, d: Delivery) {
    d.deliveredAt.Some? && d.invoice.Some? ==> d.invoice.value in s.invoices && s.invoices[d.invoice.value].status != Pending
  }

  ghost predicate DeliveredNotPending(s: Store) {
    forall id :: id in s.deliveries ==> NotPending(s, s.deliveries[id])
  }

  /** No call turns an invoice back to pending. */
  ghost predicate NeverReopened(a: map<InvoiceId, Invoice>, b: map<InvoiceId, Invoice>) {
    forall i :: i in a ==> i in b && (b[i].status == Pending ==> a[i].status == Pending)
  }

  /** The rows that are delivered after a step were delivered before it. */
  ghost predicate NoNewDelivered(a: map<DeliveryId, Delivery>, b: map<DeliveryId, Delivery>) {
    forall id :: id in b && b[id].deliveredAt.Some? ==> id in a && b[id] == a[id]
  }

  lemma StillNotPending(s: Store, t: Store)
    requires DeliveredNotPending(s) && NeverReopened(s.invoices, t.invoices) && NoNewDelivered(s.deliveries, t.deliveries)
    ensures DeliveredNotPending(t)
  {
    forall id | id in t.deliveries ensures NotPending(t, t.deliveries[id]) {
      if t.deliveries[id].deliveredAt.Some? { assert NotPending(s, s.deliveries[id]); }
    }
  }

  lemma CompleteNotPending(s: Store, id: DeliveryId, clock: Time)
    requires DeliveredNotPending(s) && CompleteBillingDelivery(s, id, clock).Ok?
    ensures DeliveredNotPending(CompleteBillingDelivery(s, id, clock).value)
  {
    hide DeliveredNotPending, NeverReopened, CompleteBillingDelivery, NotPending;
    CompleteRows(s, id, clock);
    CompleteInvoices(s, id, clock);
    var t, d := CompleteBillingDelivery(s, id, clock).value, s.deliveries[id];
    RowNotPending(s, d, id);
    SameNeverReopened(s);
    if d.deliveredAt.None? {
      if d.invoice.Some? { StatusNeverReopens(s.invoices, d.invoice.value, Settled); }
      CompletedRow(s, t, id, clock);
    } else {
      StillNotPending(s, t);
    }
  }

  lemma CompletedRow(s: Store, t: Store, id: DeliveryId, clock: Time)
    requires DeliveredNotPending(s) && NeverReopened(s.invoices, t.invoices)
    requires id in s.deliveries && t.deliveries == s.deliveries[id := s.deliveries[id].(deliveredAt := Some(clock))]
    requires s.deliveries[id].invoice.Some? ==>
      s.deliveries[id].invoice.value in t.invoices && t.invoices[s.deliveries[id].invoice.value].status != Pending
    ensures DeliveredNotPending(t)
  {
    hide DeliveredNotPending, NeverReopened;
    RowsNotPending(s, t, id);
  }

  lemma RowNotPending(s: Store, d: Delivery, id: DeliveryId)
    requires DeliveredNotPending(s) && id in s.deliveries && d == s.deliveries[id]
    ensures NotPending(s, d)
  {
  }

  lemma RowsNotPending(s: Store, t: Store, id: DeliveryId)
    requires DeliveredNotPending(s) && NeverReopened(s.invoices, t.invoices)
    requires id in t.deliveries && NotPending(t, t.deliveries[id])
    requires forall x :: x in t.deliveries && x != id ==> x in s.deliveries && t.deliveries[x] == s.deliveries[x]
    ensures DeliveredNotPending(t)
  {
    forall x | x in t.deliveries ensures NotPending(t, t.deliveries[x]) {
      if x != id { assert NotPending(s, s.deliveries[x]); }
    }
  }

  lemma StatusNeverReopens(invoices: map<InvoiceId, Invoice>, i: InvoiceId, status: InvoiceStatus)
    requires i in invoices && status != Pending
    ensures NeverReopened(invoices, invoices[i := invoices[i].(status := status)])
  {
  }

  lemma VerdictNeverReopens(s: Store, ev: Event)
    ensures NeverReopened(s.invoices, Verdict(s, ev).invoices) && NoNewSettled(s.invoices, Verdict(s, ev).invoices)
    ensures Verdict(s, ev).deliveries == s.deliveries
  {
    hide Covers, RightRail, NeverReopened, NoNewSettled, Verdict;
    SameNeverReopened(s);
    VerdictIs(s, ev);
    if ev.invoice in s.invoices && ev.status != Pending {
      StatusNeverReopens(s.invoices, ev.invoice, if ev.status == Settled then Invalid else ev.status);
      StatusNotSettled(s.invoices, ev.invoice, if ev.status == Settled then Invalid else ev.status);
    }
  }

  lemma StatusNotSettled(invoices: map<InvoiceId, Invoice>, i: InvoiceId, status: InvoiceStatus)
    requires i in invoices && status != Settled
    ensures NoNewSettled(invoices, invoices[i := invoices[i].(status := status)])
  {
  }

  lemma ReceiveNeverReopens(s: Sys, task: nat, ev: Event)
    ensures NeverReopened(s.store.invoices, DoReceive(s, task, ev).store.invoices)
    ensures NoNewSettled(s.store.invoices, DoReceive(s, task, ev).store.invoices)
    ensures DoReceive(s, task, ev).store.deliveries == s.store.deliveries
  {
    hide Covers, Verdict, NeverReopened, NoNewSettled;
    SameNeverReopened(s.store);
    VerdictNeverReopens(s.store, ev);
  }

  lemma SameNeverReopened(s: Store)
    ensures NeverReopened(s.invoices, s.invoices) && NoNewDelivered(s.deliveries, s.deliveries)
    ensures NoNewSettled(s.invoices, s.invoices)
  {
  }

  lemma StageAddsUndelivered(catalog: Catalog, s: Sys, task: nat, now: Time)
    ensures NoNewDelivered(s.store.deliveries, DoStage(catalog, s, task, now).store.deliveries)
  {
  }

  lemma SweepAddsUndelivered(s: Sys, task: nat)
    ensures NoNewDelivered(s.store.deliveries, DoSweepStage(s, task).store.deliveries)
  {
    hide Transition;
  }

  lemma CreateNeverReopens(catalog: Catalog, s: Sys, key: string, inv: Invoice)
    ensures NeverReopened(s.store.invoices, DoComplete(catalog, s, key, inv).store.invoices)
    ensures NoNewSettled(s.store.invoices, DoComplete(catalog, s, key, inv).store.invoices)
    ensures DoComplete(catalog, s, key, inv).store.deliveries == s.store.deliveries
  {
  }

  lemma SweepNeverReopens(s: Store, now: Time, onchain: set<string>, grace: Time)
    ensures NeverReopened(s.invoices, ExpireOverdue(s, now, onchain, grace).invoices)
    ensures NoNewSettled(s.invoices, ExpireOverdue(s, now, onchain, grace).invoices)
  {
  }

  lemma MoveKeepsNotPending(catalog: Catalog, s: Sys, m: Move)
    requires DeliveredNotPending(s.store)
    ensures DeliveredNotPending(Apply(catalog, s, m).store)
  {
    if m.Complete? {
      CompleteMoveNotPending(s, m.task, m.clock);
    } else {
      ReopenFrame(catalog, s, m);
      StillNotPending(s.store, Apply(catalog, s, m).store);
    }
  }

  lemma CompleteMoveNotPending(s: Sys, task: nat, clock: Time)
    requires DeliveredNotPending(s.store)
    ensures DeliveredNotPending(DoCompleteDelivery(s, task, clock).store)
  {
    hide DeliveredNotPending, CompleteBillingDelivery;
    if task in s.tasks && s.tasks[task].Accepted? && CompleteBillingDelivery(s.store, s.tasks[task].d.id, clock).Ok? {
      CompleteNotPending(s.store, s.tasks[task].d.id, clock);
    }
  }

  lemma ReopenFrame(catalog: Catalog, s: Sys, m: Move)
    requires !m.Complete?
    ensures NeverReopened(s.store.invoices, Apply(catalog, s, m).store.invoices)
    ensures NoNewDelivered(s.store.deliveries, Apply(catalog, s, m).store.deliveries)
    ensures NoNewSettled(s.store.invoices, Apply(catalog, s, m).store.invoices)
  {
    hide NeverReopened, NoNewDelivered, NoNewSettled, Apply;
    SameNeverReopened(s.store);
    if OnlyRegistry(m) {
      OnlyRegistryFrame(catalog, s, m);
    } else if m.Stage? || m.SweepStage? {
      StagingFrame(catalog, s, m);
      StagingAddsUndelivered(catalog, s, m);
    } else if OnlyTasks(m) || OnlyStore(m) || m.LeaseClaims? {
      PlainMovesKeepInvoices(catalog, s, m);
    } else {
      WritesNeverReopen(catalog, s, m);
    }
  }

  lemma StagingAddsUndelivered(catalog: Catalog, s: Sys, m: Move)
    requires m.Stage? || m.SweepStage?
    ensures NoNewDelivered(s.store.deliveries, Apply(catalog, s, m).store.deliveries)
  {
    hide NoNewDelivered, DoStage, DoSweepStage;
    match m
    case Stage(task, now) => StageAddsUndelivered(catalog, s, task, now);
    case SweepStage(task) => SweepAddsUndelivered(s, task);
  }

  lemma WritesNeverReopen(catalog: Catalog, s: Sys, m: Move)
    requires m.ReceiveEvent? || m.Claim? || m.CompleteCreate? || m.ExpireInvoices?
    ensures NeverReopened(s.store.invoices, Apply(catalog, s, m).store.invoices)
    ensures NoNewDelivered(s.store.deliveries, Apply(catalog, s, m).store.deliveries)
    ensures NoNewSettled(s.store.invoices, Apply(catalog, s, m).store.invoices)
  {
    hide NeverReopened, NoNewDelivered, NoNewSettled, Verdict, DoReceive, DoClaim, DoComplete, Overdue;
    SameNeverReopened(s.store);
    match m
    case ReceiveEvent(task, ev) => ReceiveNeverReopens(s, task, ev);
    case Claim(task, clock) => ClaimFrame(s, task, clock, 0); ClaimKeepsOutbox(s, task, clock);
    case CompleteCreate(key, inv) => CreateNeverReopens(catalog, s, key, inv);
    case ExpireInvoices(now, onchain, grace) => SweepNeverReopens(s.store, now, onchain, grace);
  }

  lemma ClaimKeepsOutbox(s: Sys, task: nat, clock: Time)
    ensures DoClaim(s, task, clock).store.deliveries == s.store.deliveries
  {
  }

  lemma PlainMovesKeepInvoices(catalog: Catalog, s: Sys, m: Move)
    requires OnlyTasks(m) || OnlyStore(m) || m.LeaseClaims? || m.RegisterUser? || m.Cancel?
    ensures Apply(catalog, s, m).store.invoices == s.store.invoices
    ensures Apply(catalog, s, m).store.deliveries == s.store.deliveries
  {
    hide DoStage, DoSweepStage, DoCompleteDelivery, DoReceive, DoClaim, DoComplete, DoEnsureRemote, DoArrive, DoSend;
    hide DoPickStuck, DoEnsureReply, DoReply, DoPickDelivery, DoSweepRead, Overdue, CancelSubscription;
    hide ReserveInvoiceIntent, BeginInvoiceCreate, FailInvoiceCreate, RecordEvent, LeaseDeliveries, AcquirePollLease;
    hide RenewPollLease, ReleasePollLease, RecordNegativeCheck, ClearNegativeCheck;
    if OnlyStore(m) {
      OnlyStoreFrame(catalog, s, m);
    } else if OnlyTasks(m) {
      OnlyTasksFrame(catalog, s, m);
    }
  }

  /** The invariant the recovery pass starts from; every reachable state has it. */
  ghost predicate Sound(catalog: Catalog, s: Sys) {
    Inv(catalog, s) && DeliveredNotPending(s.store) && SettledDelivered(s.store)
  }

  lemma MoveKeepsSound(catalog: Catalog, s: Sys, m: Move)
    requires CatalogOk(catalog) && Sound(catalog, s)
    ensures Sound(catalog, Apply(catalog, s, m))
  {
    hide Inv, DeliveredNotPending, SettledDelivered, Apply;
    ApplyKeeps(catalog, s, m);
    MoveKeepsNotPending(catalog, s, m);
    MoveKeepsSettled(catalog, s, m);
  }

  lemma {:induction false} RunIsSound(catalog: Catalog, s: Sys, moves: seq<Move>)
    requires CatalogOk(catalog) && Sound(catalog, s)
    ensures Sound(catalog, Run(catalog, s, moves))
  {
    hide Sound, Apply;
    if moves != [] {
      RunIsSound(catalog, s, moves[..|moves| - 1]);
      MoveKeepsSound(catalog, Run(catalog, s, moves[..|moves| - 1]), moves[|moves| - 1]);
    }
  }

  lemma ReachableIsSound(catalog: Catalog, moves: seq<Move>)
    requires CatalogOk(catalog)
    ensures Sound(catalog, Run(catalog, Init, moves))
  {
    RunIsSound(catalog, Init, moves);
  }

  lemma OwnTaskStands(catalog: Catalog, s: Sys, m: Move, me: nat)
    requires TaskOf(m) != Some(me)
    ensures me in Apply(catalog, s, m).tasks <==> me in s.tasks
    ensures me in s.tasks ==> Apply(catalog, s, m).tasks[me] == s.tasks[me]
  {
    hide Verdict, Overdue, CompleteBillingDelivery, StageInvoiceCredit, StageScheduleTransition, ApplyBillingState;
    hide EnsureSubscription, CompleteInvoiceCreate, Covers, Transition;
  }

  /** Any run of other tasks keeps the pass's own task and everything that stands. */
  lemma {:induction false} OthersRunKeeps(catalog: Catalog, s: Sys, moves: seq<Move>, me: nat)
    requires CatalogOk(catalog) && Sound(catalog, s) && OthersRun(moves, me)
    ensures Sound(catalog, Run(catalog, s, moves)) && Standing(s, Run(catalog, s, moves))
    ensures me in Run(catalog, s, moves).tasks <==> me in s.tasks
    ensures me in s.tasks ==> Run(catalog, s, moves).tasks[me] == s.tasks[me]
  {
    hide Standing, Apply, TaskOf, Inv, DeliveredNotPending, SettledDelivered;
    if moves == [] {
      StandingIsReflexive(s);
    } else {
      var init, last := moves[..|moves| - 1], moves[|moves| - 1];
      OthersRunKeeps(catalog, s, init, me);
      var mid := Run(catalog, s, init);
      AnyMoveStands(catalog, mid, last);
      MoveKeepsSound(catalog, mid, last);
      OwnTaskStands(catalog, mid, last, me);
      StandingIsTransitive(s, mid, Apply(catalog, mid, last));
    }
  }

  lemma {:induction false} QuietRunKeeps(catalog: Catalog, s: Sys, moves: seq<Move>, olderThan: Time)
    requires CatalogOk(catalog) && Sound(catalog, s) && QuietRun(catalog, s, moves, olderThan)
    ensures Sound(catalog, Run(catalog, s, moves)) && Kept(s, Run(catalog, s, moves), olderThan)
  {
    hide Kept, Apply, Calm, Inv, DeliveredNotPending, SettledDelivered;
    if moves == [] {
      KeptIsReflexive(s, olderThan);
    } else {
      var init, last := moves[..|moves| - 1], moves[|moves| - 1];
      QuietRunKeeps(catalog, s, init, olderThan);
      var mid := Run(catalog, s, init);
      CalmMoveKeeps(catalog, mid, last, olderThan);
      MoveKeepsSound(catalog, mid, last);
      KeptIsTransitive(s, mid, Apply(catalog, mid, last), olderThan);
    }
  }
}
