/** The on-chain poll and the expiry sweep around the credit protocol: pollers check an invoice
    under a durable lease, record what they saw, and a sweep on any instance closes what stayed
    unpaid. Every step is also a move of `Protocol`, whose other moves interleave freely. */
module PollSweep {
  import opened Prelude
  import opened Ledger
  import opened Protocol
  import opened Invariant
  import opened Preservation
  import opened Recovery

  /** The chain gateway's name and the poll policy. */
  datatype Policy = Policy(name: string, minConf: nat, grace: Time, leaseFor: Time, chainTimeout: Time)

  // ----- one chain check ----------------------------------------------------------------------

  /** What an address has received, and with how many confirmations. */
  datatype Balance = Balance(received: real, confs: nat)

  datatype Answer = Positive(ev: Event) | Negative | NoAnswer

  /** `balance` is `None` when the chain could not be asked. */
  function CheckInvoice(p: Policy, inv: Invoice, balance: Option<Balance>): Answer {
    if inv.provider != p.name || balance == None then NoAnswer
    else if balance.value.confs < p.minConf then Negative
    else if balance.value.received < inv.amount then Negative
    else Positive(Event(p.name, "onchain:" + inv.id, inv.id, Settled, inv.currency, Some(balance.value.received)))
  }

  /** A positive passes every check of the settling path; a negative is definitive: the chain
      answered and the payment is not there; and on a chain that only gains, a positive stays. */
  lemma CheckIsDefinitive(p: Policy, inv: Invoice, balance: Option<Balance>, later: Balance)
    requires balance.Some? ==> later.confs >= balance.value.confs && later.received >= balance.value.received
    ensures CheckInvoice(p, inv, balance).Positive? ==> Settling(CheckInvoice(p, inv, balance).ev, inv)
    ensures CheckInvoice(p, inv, balance).Positive? ==> CheckInvoice(p, inv, Some(later)).Positive?
    ensures CheckInvoice(p, inv, balance).Negative? <==>
      inv.provider == p.name && balance.Some? && !(balance.value.confs >= p.minConf && balance.value.received >= inv.amount)
  {
  }

  // ----- the world ------------------------------------------------------------------------------

  datatype Sight = Unknown | Absent(at: Time) | Present

  /** One check under a lease taken at `start`. */
  datatype Checker = Checker(invoice: InvoiceId, start: Time, sight: Sight)

  /** `confirmed` dates the first instant the chain would answer positively; `observed` dates the
      chain answer behind each recorded negative; `cleared` are the invoices a positive disarmed;
      `buried` are those a sweep expired, dated by the answer it relied on. */
  datatype World = World(
    sys: Sys, clock: Time, minted: set<string>, checkers: map<string, Checker>, chain: map<InvoiceId, Balance>,
    confirmed: map<InvoiceId, Time>, observed: map<InvoiceId, Time>, cleared: set<InvoiceId>, buried: map<InvoiceId, Time>)

  const Dawn := World(Init, 0, {}, map[], map[], map[], map[], {}, map[])

  function Deadline(p: Policy, inv: Invoice): Time {
    inv.expiresAt + p.grace
  }

  /** A holder acts only inside its lease. */
  predicate Live(p: Policy, clock: Time, c: Checker) {
    clock < c.start + p.leaseFor
  }

  datatype Step =
    | Other(m: Move)
    | Tick(to: Time)
    | Pay(i: InvoiceId, balance: Balance)
    | Acquire(i: InvoiceId, token: string, owner: string)
    | Observe(token: string, reachable: bool)
    | Record(token: string)
    | Clear(token: string)
    | Release(token: string)
    | Sweep(now: Time)

  predicate PollMove(m: Move) {
    m.AcquirePoll? || m.RenewPoll? || m.ReleasePoll? || m.RecordNegative? || m.ClearNegative? || m.ExpireInvoices?
  }

  function BalanceOf(w: World, i: InvoiceId): Balance {
    if i in w.chain then w.chain[i] else Balance(0.0, 0)
  }

  function DoPay(p: Policy, w: World, i: InvoiceId, balance: Balance): World {
    var before := BalanceOf(w, i);
    if i in w.sys.store.invoices && balance.confs >= before.confs && balance.received >= before.received then
      w.(chain := w.chain[i := balance],
         confirmed := if i !in w.confirmed && CheckInvoice(p, w.sys.store.invoices[i], Some(balance)).Positive?
                      then w.confirmed[i := w.clock] else w.confirmed)
    else w
  }

  function DoAcquire(catalog: Catalog, p: Policy, w: World, i: InvoiceId, token: string, owner: string): World {
    if token !in w.minted && i in w.sys.store.invoices && w.sys.store.invoices[i].provider == p.name then
      var acquired := AcquirePollLease(w.sys.store, i, token, owner, p.leaseFor, w.clock).1;
      w.(sys := Apply(catalog, w.sys, AcquirePoll(i, token, owner, p.leaseFor, w.clock)),
         minted := w.minted + {token},
         checkers := if acquired then w.checkers[token := Checker(i, w.clock, Unknown)] else w.checkers)
    else w
  }

  function DoObserve(p: Policy, w: World, token: string, reachable: bool): World {
    if token in w.checkers && Live(p, w.clock, w.checkers[token]) && w.checkers[token].sight == Unknown
       && w.clock <= w.checkers[token].start + p.chainTimeout && w.checkers[token].invoice in w.sys.store.invoices then
      var c := w.checkers[token];
      match CheckInvoice(p, w.sys.store.invoices[c.invoice], if reachable then Some(BalanceOf(w, c.invoice)) else None)
      case Positive(_) => w.(checkers := w.checkers[token := c.(sight := Present)])
      case Negative => w.(checkers := w.checkers[token := c.(sight := Absent(w.clock))])
      case NoAnswer => w
    else w
  }

  predicate IsPending(w: World, i: InvoiceId) {
    i in w.sys.store.invoices && w.sys.store.invoices[i].status == Pending
  }

  function DoRecord(catalog: Catalog, p: Policy, w: World, token: string): World {
    if token in w.checkers && Live(p, w.clock, w.checkers[token]) && w.checkers[token].sight.Absent?
       && w.checkers[token].invoice in w.sys.store.invoices
       && w.clock >= Deadline(p, w.sys.store.invoices[w.checkers[token].invoice]) then
      var c := w.checkers[token];
      w.(sys := Apply(catalog, w.sys, RecordNegative(c.invoice, w.clock)),
         observed := if IsPending(w, c.invoice) then w.observed[c.invoice := c.sight.at] else w.observed)
    else w
  }

  function DoClear(catalog: Catalog, p: Policy, w: World, token: string): World {
    if token in w.checkers && Live(p, w.clock, w.checkers[token]) && w.checkers[token].sight == Present then
      var i := w.checkers[token].invoice;
      w.(sys := Apply(catalog, w.sys, ClearNegative(i)), cleared := if IsPending(w, i) then w.cleared + {i} else w.cleared)
    else w
  }

  /** The deferred release runs whenever the holder gets to it, even long after its lease. */
  function DoRelease(catalog: Catalog, w: World, token: string): World {
    if token in w.checkers then
      w.(sys := Apply(catalog, w.sys, ReleasePoll(w.checkers[token].invoice, token)), checkers := w.checkers - {token})
    else w
  }

  /** The chain invoices a sweep at `now` expires. */
  function Swept(p: Policy, s: Store, now: Time): set<InvoiceId> {
    set i | i in s.invoices && s.invoices[i].provider == p.name && Overdue(s, i, now, {p.name}, p.grace)
  }

  function DoSweep(catalog: Catalog, p: Policy, w: World, now: Time): World {
    if now <= w.clock then
      var hit := Swept(p, w.sys.store, now);
      w.(sys := Apply(catalog, w.sys, ExpireInvoices(now, {p.name}, p.grace)),
         buried := w.buried + map i | i in hit :: if i in w.observed then w.observed[i] else now)
    else w
  }

  function Do(catalog: Catalog, p: Policy, w: World, step: Step): World {
    match step
    case Other(m) => if PollMove(m) then w else w.(sys := Apply(catalog, w.sys, m))
    case Tick(to) => if to >= w.clock then w.(clock := to) else w
    case Pay(i, balance) => DoPay(p, w, i, balance)
    case Acquire(i, token, owner) => DoAcquire(catalog, p, w, i, token, owner)
    case Observe(token, reachable) => DoObserve(p, w, token, reachable)
    case Record(token) => DoRecord(catalog, p, w, token)
    case Clear(token) => DoClear(catalog, p, w, token)
    case Release(token) => DoRelease(catalog, w, token)
    case Sweep(now) => DoSweep(catalog, p, w, now)
  }

  function Play(catalog: Catalog, p: Policy, w: World, steps: seq<Step>): World {
    if steps == [] then w
    else Do(catalog, p, Play(catalog, p, w, steps[..|steps| - 1]), steps[|steps| - 1])
  }

  // ----- what always holds ------------------------------------------------------------------------

  /** The part of the world the poll invariants speak about. */
  datatype Watch = Watch(
    facts: map<InvoiceId, Invoice>, pending: set<InvoiceId>, negative: map<InvoiceId, Time>, leases: map<InvoiceId, PollLease>, clock: Time,
    minted: set<string>, checkers: map<string, Checker>, chain: map<InvoiceId, Balance>,
    confirmed: map<InvoiceId, Time>, observed: map<InvoiceId, Time>, cleared: set<InvoiceId>, buried: map<InvoiceId, Time>)

  function PendingIn(invoices: map<InvoiceId, Invoice>): set<InvoiceId> {
    set i | i in invoices && invoices[i].status == Pending
  }

  function WatchOf(w: World): Watch {
    Watch(Facts(w.sys.store.invoices), PendingIn(w.sys.store.invoices), w.sys.store.negative, w.sys.store.pollLeases, w.clock, w.minted, w.checkers,
          w.chain, w.confirmed, w.observed, w.cleared, w.buried)
  }

  /** A live holder's token is the one on the lease. */
  predicate HolderOk(p: Policy, leases: map<InvoiceId, PollLease>, clock: Time, token: string, c: Checker) {
    Live(p, clock, c) ==>
      c.invoice in leases && leases[c.invoice].token == token && leases[c.invoice].until == c.start + p.leaseFor
  }

  /** A payment seen as absent at `at` was confirmed no earlier. */
  predicate NotBefore(confirmed: map<InvoiceId, Time>, i: InvoiceId, at: Time) {
    i in confirmed ==> confirmed[i] >= at
  }

  predicate SightOk(confirmed: map<InvoiceId, Time>, c: Checker) {
    && (c.sight.Absent? ==> c.start <= c.sight.at && NotBefore(confirmed, c.invoice, c.sight.at))
    && (c.sight == Present ==> c.invoice in confirmed)
  }

  predicate CheckerOk(p: Policy, v: Watch, token: string, c: Checker) {
    && token in v.minted && c.start <= v.clock && c.invoice in v.facts && v.facts[c.invoice].provider == p.name
    && (c.sight.Absent? ==> c.sight.at <= v.clock)
    && HolderOk(p, v.leases, v.clock, token, c) && SightOk(v.confirmed, c)
  }

  /** A recorded negative is at or past the deadline and rests on a chain answer at most one
      lease older. */
  predicate NegativeOk(p: Policy, v: Watch, i: InvoiceId, r: Time) {
    && i in v.facts && Deadline(p, v.facts[i]) <= r <= v.clock
    && i in v.observed && r - p.leaseFor < v.observed[i] <= v.clock && NotBefore(v.confirmed, i, v.observed[i])
  }

  predicate ClearedOk(v: Watch, i: InvoiceId) {
    i in v.confirmed && i !in v.negative && i !in v.buried
  }

  predicate DisarmedOk(p: Policy, v: Watch, c: Checker) {
    Live(p, v.clock, c) && c.sight.Absent? ==> c.invoice !in v.cleared
  }

  predicate BuriedOk(p: Policy, v: Watch, i: InvoiceId, at: Time) {
    && i in v.facts && i !in v.pending && Deadline(p, v.facts[i]) - p.leaseFor < at <= v.clock && NotBefore(v.confirmed, i, at)
  }

  predicate ChainOk(p: Policy, v: Watch, i: InvoiceId) {
    && i in v.facts && i in v.chain
    && (i in v.confirmed <==> CheckInvoice(p, v.facts[i], Some(v.chain[i])).Positive?)
    && (i in v.confirmed ==> v.confirmed[i] <= v.clock)
  }

  ghost predicate Watched(p: Policy, v: Watch) {
    && (forall t :: t in v.checkers ==> CheckerOk(p, v, t, v.checkers[t]) && DisarmedOk(p, v, v.checkers[t]))
    && (forall i :: i in v.leases ==> v.leases[i].token in v.minted)
    && (forall i :: i in v.negative ==> NegativeOk(p, v, i, v.negative[i]))
    && (forall i :: i in v.cleared ==> ClearedOk(v, i))
    && (forall i :: i in v.buried ==> BuriedOk(p, v, i, v.buried[i]))
    && (forall i :: i in v.chain ==> ChainOk(p, v, i))
    && v.confirmed.Keys <= v.chain.Keys
  }

  // ----- the steps, on the watched part --------------------------------------------------------------

  /** What the protocol's other moves may do to the watched part. */
  ghost predicate Freer(v: Watch, facts: map<InvoiceId, Invoice>, pending: set<InvoiceId>) {
    forall i :: i in v.facts ==> i in facts && facts[i] == v.facts[i] && (i in pending ==> i in v.pending)
  }

  lemma OtherIsWatched(p: Policy, v: Watch, facts: map<InvoiceId, Invoice>, pending: set<InvoiceId>)
    requires Watched(p, v) && Freer(v, facts, pending)
    ensures Watched(p, v.(facts := facts, pending := pending))
  {
  }

  lemma TickIsWatched(p: Policy, v: Watch, to: Time)
    requires Watched(p, v) && v.clock <= to
    ensures Watched(p, v.(clock := to))
  {
  }

  lemma PayIsWatched(p: Policy, v: Watch, i: InvoiceId, balance: Balance)
    requires Watched(p, v) && i in v.facts
    requires i in v.chain ==> balance.confs >= v.chain[i].confs && balance.received >= v.chain[i].received
    ensures Watched(p, v.(
      chain := v.chain[i := balance],
      confirmed := if i !in v.confirmed && CheckInvoice(p, v.facts[i], Some(balance)).Positive?
                   then v.confirmed[i := v.clock] else v.confirmed))
  {
    hide HolderOk, Live, Deadline, CheckInvoice;
    if i !in v.confirmed && CheckInvoice(p, v.facts[i], Some(balance)).Positive? {
      ConfirmIsWatched(p, v, i, balance);
    } else {
      ChainIsWatched(p, v, i, balance);
    }
  }

  lemma ConfirmIsWatched(p: Policy, v: Watch, i: InvoiceId, balance: Balance)
    requires Watched(p, v) && i in v.facts && i !in v.confirmed && CheckInvoice(p, v.facts[i], Some(balance)).Positive?
    ensures Watched(p, v.(chain := v.chain[i := balance], confirmed := v.confirmed[i := v.clock]))
  {
    hide HolderOk, Live, Deadline, CheckInvoice;
  }

  lemma ChainIsWatched(p: Policy, v: Watch, i: InvoiceId, balance: Balance)
    requires Watched(p, v) && i in v.facts
    requires i in v.chain ==> balance.confs >= v.chain[i].confs && balance.received >= v.chain[i].received
    requires i in v.confirmed || !CheckInvoice(p, v.facts[i], Some(balance)).Positive?
    ensures Watched(p, v.(chain := v.chain[i := balance]))
  {
    hide HolderOk, Live, Deadline, CheckerOk, NegativeOk, BuriedOk, ClearedOk, DisarmedOk;
    var w := v.(chain := v.chain[i := balance]);
    forall t | t in w.checkers ensures CheckerOk(p, w, t, w.checkers[t]) && DisarmedOk(p, w, w.checkers[t]) {
      CheckerIgnoresChain(p, v, w, t, w.checkers[t]);
    }
    forall x | x in w.negative ensures NegativeOk(p, w, x, w.negative[x]) { NegativeIgnoresChain(p, v, w, x); }
    forall x | x in w.cleared ensures ClearedOk(w, x) { ClearedIgnoresChain(v, w, x); }
    forall x | x in w.buried ensures BuriedOk(p, w, x, w.buried[x]) { BuriedIgnoresChain(p, v, w, x); }
    if i in v.chain { CheckIsDefinitive(p, v.facts[i], Some(v.chain[i]), balance); }
  }

  lemma CheckerIgnoresChain(p: Policy, v: Watch, w: Watch, t: string, c: Checker)
    requires w == v.(chain := w.chain)
    ensures CheckerOk(p, v, t, c) && DisarmedOk(p, v, c) ==> CheckerOk(p, w, t, c) && DisarmedOk(p, w, c)
  {
  }

  lemma NegativeIgnoresChain(p: Policy, v: Watch, w: Watch, x: InvoiceId)
    requires w == v.(chain := w.chain) && x in v.negative
    ensures NegativeOk(p, v, x, v.negative[x]) ==> NegativeOk(p, w, x, w.negative[x])
  {
  }

  lemma ClearedIgnoresChain(v: Watch, w: Watch, x: InvoiceId)
    requires w == v.(chain := w.chain)
    ensures ClearedOk(v, x) ==> ClearedOk(w, x)
  {
  }

  lemma BuriedIgnoresChain(p: Policy, v: Watch, w: Watch, x: InvoiceId)
    requires w == v.(chain := w.chain) && x in v.buried
    ensures BuriedOk(p, v, x, v.buried[x]) ==> BuriedOk(p, w, x, w.buried[x])
  {
  }

  lemma AcquireIsWatched(p: Policy, v: Watch, i: InvoiceId, token: string, owner: string)
    requires Watched(p, v) && token !in v.minted && i in v.facts && v.facts[i].provider == p.name
    requires i in v.leases ==> v.leases[i].until <= v.clock
    ensures Watched(p, v.(
      leases := v.leases[i := PollLease(token, owner, v.clock + p.leaseFor)], minted := v.minted + {token},
      checkers := v.checkers[token := Checker(i, v.clock, Unknown)]))
  {
  }

  lemma RefusedIsWatched(p: Policy, v: Watch, token: string)
    requires Watched(p, v)
    ensures Watched(p, v.(minted := v.minted + {token}))
  {
  }

  lemma ObserveIsWatched(p: Policy, v: Watch, token: string, sight: Sight)
    requires Watched(p, v) && token in v.checkers && Live(p, v.clock, v.checkers[token])
    requires sight.Absent? ==> sight.at == v.clock && v.checkers[token].invoice !in v.confirmed
    requires sight == Present ==> v.checkers[token].invoice in v.confirmed
    ensures Watched(p, v.(checkers := v.checkers[token := v.checkers[token].(sight := sight)]))
  {
  }

  lemma RecordIsWatched(p: Policy, v: Watch, token: string)
    requires Watched(p, v) && token in v.checkers && Live(p, v.clock, v.checkers[token]) && v.checkers[token].sight.Absent?
    requires v.checkers[token].invoice in v.facts && v.clock >= Deadline(p, v.facts[v.checkers[token].invoice])
    ensures Watched(p, v.(
      negative := v.negative[v.checkers[token].invoice := v.clock],
      observed := v.observed[v.checkers[token].invoice := v.checkers[token].sight.at]))
  {
  }

  lemma ClearIsWatched(p: Policy, v: Watch, token: string)
    requires Watched(p, v) && token in v.checkers && Live(p, v.clock, v.checkers[token])
    requires v.checkers[token].sight == Present && v.checkers[token].invoice in v.pending
    ensures Watched(p, v.(
      negative := v.negative - {v.checkers[token].invoice}, cleared := v.cleared + {v.checkers[token].invoice}))
  {
  }

  lemma ReleaseIsWatched(p: Policy, v: Watch, token: string)
    requires Watched(p, v) && token in v.checkers
    ensures
      var i := v.checkers[token].invoice;
      Watched(p, v.(
        leases := if i in v.leases && v.leases[i].token == token then v.leases - {i} else v.leases,
        checkers := v.checkers - {token}))
  {
  }

  lemma SweepIsWatched(p: Policy, v: Watch, pending: set<InvoiceId>, hit: set<InvoiceId>)
    requires Watched(p, v) && pending <= v.pending && pending !! hit
    requires forall i :: i in hit ==> i in v.negative && i in v.observed
    ensures Watched(p, v.(pending := pending, buried := v.buried + map i | i in hit :: v.observed[i]))
  {
    hide Live, Deadline, HolderOk, SightOk, NotBefore, CheckInvoice;
  }

  // ----- every step of every run ------------------------------------------------------------------------

  predicate PollsStay(s: Store, t: Store) {
    t.negative == s.negative && t.pollLeases == s.pollLeases
  }

  lemma ReceivedPolls(s: Sys, task: nat, ev: Event)
    ensures PollsStay(s.store, DoReceive(s, task, ev).store)
  {
    hide Verdict, Covers;
    VerdictKeepsFacts(s.store, ev);
  }

  lemma OtherKeepsPolls(catalog: Catalog, s: Sys, m: Move)
    requires !PollMove(m)
    ensures PollsStay(s.store, Apply(catalog, s, m).store)
  {
    hide PollsStay, DoReceive, DoStage, DoSweepStage, DoCompleteDelivery, DoClaim, DoComplete;
    SamePolls(s.store);
    match m
    case ReceiveEvent(task, ev) => ReceivedPolls(s, task, ev); ApplyReceive(catalog, s, m);
    case Stage(task, now) => StagePolls(catalog, s, task, now);
    case SweepStage(task) => SweepStagePolls(s, task);
    case Complete(task, clock) => CompletePolls(s, task, clock);
    case Claim(task, clock) => ClaimPolls(s, task, clock);
    case CompleteCreate(key, inv) => CreatePolls(catalog, s, key, inv);
    case _ => if OnlyTasks(m) { OnlyTasksFrame(catalog, s, m); } else { RestKeepsPolls(catalog, s, m); }
  }

  lemma SamePolls(s: Store)
    ensures PollsStay(s, s)
  {
  }

  lemma RestKeepsPolls(catalog: Catalog, s: Sys, m: Move)
    requires !PollMove(m) && !OnlyTasks(m) && !m.ReceiveEvent? && !m.Stage? && !m.SweepStage? && !m.Complete? && !m.Claim?
    requires !m.CompleteCreate?
    ensures PollsStay(s.store, Apply(catalog, s, m).store)
  {
    hide Apply, PollsStay, LinksKept;
    if OnlyRegistry(m) {
      OnlyRegistryFrame(catalog, s, m);
      SamePolls(s.store);
    } else {
      IntentPolls(catalog, s, m);
    }
  }

  lemma IntentPolls(catalog: Catalog, s: Sys, m: Move)
    requires m.ReserveCreate? || m.BeginCreate? || m.FailCreate? || m.RecordProcessed? || m.LeaseOutbox? || m.LeaseClaims?
    ensures PollsStay(s.store, Apply(catalog, s, m).store)
  {
    hide WithLeases;
  }

  lemma StagePolls(catalog: Catalog, s: Sys, task: nat, now: Time)
    ensures PollsStay(s.store, DoStage(catalog, s, task, now).store)
  {
    hide CreditTarget;
  }

  lemma SweepStagePolls(s: Sys, task: nat)
    ensures PollsStay(s.store, DoSweepStage(s, task).store)
  {
    hide TransitionTarget, Transition;
  }

  lemma CompletePolls(s: Sys, task: nat, clock: Time)
    ensures PollsStay(s.store, DoCompleteDelivery(s, task, clock).store)
  {
    hide CompleteBillingDelivery;
    if task in s.tasks && s.tasks[task].Accepted? { DeliveredPolls(s.store, s.tasks[task].d.id, clock); }
  }

  lemma DeliveredPolls(s: Store, id: DeliveryId, clock: Time)
    ensures CompleteBillingDelivery(s, id, clock).Ok? ==> PollsStay(s, CompleteBillingDelivery(s, id, clock).value)
  {
  }

  lemma ClaimPolls(s: Sys, task: nat, clock: Time)
    ensures PollsStay(s.store, DoClaim(s, task, clock).store)
  {
  }

  lemma CreatePolls(catalog: Catalog, s: Sys, key: string, inv: Invoice)
    ensures PollsStay(s.store, DoComplete(catalog, s, key, inv).store)
  {
  }

  lemma OtherStep(catalog: Catalog, p: Policy, w: World, m: Move)
    requires Watched(p, WatchOf(w)) && !PollMove(m)
    ensures Watched(p, WatchOf(Do(catalog, p, w, Other(m))))
  {
    hide Watched, Apply;
    var sys := Apply(catalog, w.sys, m);
    MoveKeepsFacts(catalog, w.sys, m);
    OtherKeepsPolls(catalog, w.sys, m);
    OtherIsWatched(p, WatchOf(w), Facts(sys.store.invoices), PendingIn(sys.store.invoices));
  }

  lemma PayStep(p: Policy, w: World, i: InvoiceId, balance: Balance)
    requires Watched(p, WatchOf(w))
    ensures Watched(p, WatchOf(DoPay(p, w, i, balance)))
  {
    hide Watched;
    var before := BalanceOf(w, i);
    if i in w.sys.store.invoices && balance.confs >= before.confs && balance.received >= before.received {
      PayIsWatched(p, WatchOf(w), i, balance);
    }
  }

  lemma AcquireView(catalog: Catalog, p: Policy, w: World, i: InvoiceId, token: string, owner: string)
    requires token !in w.minted && i in w.sys.store.invoices && w.sys.store.invoices[i].provider == p.name
    ensures
      var v, after := WatchOf(w), WatchOf(DoAcquire(catalog, p, w, i, token, owner));
      if i in v.leases && v.leases[i].until > v.clock then after == v.(minted := v.minted + {token})
      else after == v.(
        leases := v.leases[i := PollLease(token, owner, v.clock + p.leaseFor)], minted := v.minted + {token},
        checkers := v.checkers[token := Checker(i, v.clock, Unknown)])
  {
    hide Facts, PendingIn;
  }

  lemma AcquireStep(catalog: Catalog, p: Policy, w: World, i: InvoiceId, token: string, owner: string)
    requires Watched(p, WatchOf(w))
    ensures Watched(p, WatchOf(DoAcquire(catalog, p, w, i, token, owner)))
  {
    hide Watched, PendingIn, Apply;
    if token !in w.minted && i in w.sys.store.invoices && w.sys.store.invoices[i].provider == p.name {
      AcquireView(catalog, p, w, i, token, owner);
      if AcquirePollLease(w.sys.store, i, token, owner, p.leaseFor, w.clock).1 {
        AcquireIsWatched(p, WatchOf(w), i, token, owner);
      } else {
        RefusedIsWatched(p, WatchOf(w), token);
      }
    }
  }

  /** An answer is positive exactly when the payment has been confirmed. */
  lemma AnswerIsConfirmed(p: Policy, w: World, i: InvoiceId)
    requires Watched(p, WatchOf(w)) && i in w.sys.store.invoices && p.minConf > 0
    ensures CheckInvoice(p, w.sys.store.invoices[i], Some(BalanceOf(w, i))).Positive? <==> i in w.confirmed
  {
    hide CheckerOk, NegativeOk, BuriedOk, DisarmedOk;
    if i in w.chain { assert ChainOk(p, WatchOf(w), i); }
  }

  lemma ObserveStep(p: Policy, w: World, token: string, reachable: bool)
    requires Watched(p, WatchOf(w)) && p.minConf > 0
    ensures Watched(p, WatchOf(DoObserve(p, w, token, reachable)))
  {
    hide Watched;
    if token in w.checkers && Live(p, w.clock, w.checkers[token]) && w.checkers[token].invoice in w.sys.store.invoices {
      AnswerIsConfirmed(p, w, w.checkers[token].invoice);
      if w.checkers[token].invoice in w.confirmed {
        ObserveIsWatched(p, WatchOf(w), token, Present);
      } else {
        ObserveIsWatched(p, WatchOf(w), token, Absent(w.clock));
      }
    }
  }

  lemma RecordView(catalog: Catalog, p: Policy, w: World, token: string)
    requires token in w.checkers && Live(p, w.clock, w.checkers[token]) && w.checkers[token].sight.Absent?
    requires w.checkers[token].invoice in w.sys.store.invoices
    requires w.clock >= Deadline(p, w.sys.store.invoices[w.checkers[token].invoice])
    ensures
      var i, v, after := w.checkers[token].invoice, WatchOf(w), WatchOf(DoRecord(catalog, p, w, token));
      after == if IsPending(w, i) then v.(negative := v.negative[i := v.clock], observed := v.observed[i := v.checkers[token].sight.at]) else v
  {
    hide Facts, PendingIn;
  }

  lemma RecordStep(catalog: Catalog, p: Policy, w: World, token: string)
    requires Watched(p, WatchOf(w))
    ensures Watched(p, WatchOf(DoRecord(catalog, p, w, token)))
  {
    hide Watched;
    if token in w.checkers && Live(p, w.clock, w.checkers[token]) && w.checkers[token].sight.Absent?
       && w.checkers[token].invoice in w.sys.store.invoices
       && w.clock >= Deadline(p, w.sys.store.invoices[w.checkers[token].invoice]) {
      RecordView(catalog, p, w, token);
      RecordIsWatched(p, WatchOf(w), token);
    }
  }

  lemma ClearView(catalog: Catalog, p: Policy, w: World, token: string)
    requires token in w.checkers && Live(p, w.clock, w.checkers[token]) && w.checkers[token].sight == Present
    requires IsPending(w, w.checkers[token].invoice)
    ensures
      var i, v := w.checkers[token].invoice, WatchOf(w);
      && i in v.pending
      && WatchOf(DoClear(catalog, p, w, token)) == v.(negative := v.negative - {i}, cleared := v.cleared + {i})
  {
    hide Facts;
  }

  lemma ClearStep(catalog: Catalog, p: Policy, w: World, token: string)
    requires Watched(p, WatchOf(w))
    ensures Watched(p, WatchOf(DoClear(catalog, p, w, token)))
  {
    hide Watched;
    if token in w.checkers && Live(p, w.clock, w.checkers[token]) && w.checkers[token].sight == Present {
      if IsPending(w, w.checkers[token].invoice) {
        ClearView(catalog, p, w, token);
        ClearIsWatched(p, WatchOf(w), token);
      } else {
        assert WatchOf(DoClear(catalog, p, w, token)) == WatchOf(w);
      }
    }
  }

  lemma ReleaseStep(catalog: Catalog, p: Policy, w: World, token: string)
    requires Watched(p, WatchOf(w))
    ensures Watched(p, WatchOf(DoRelease(catalog, w, token)))
  {
    hide Watched;
    if token in w.checkers { ReleaseIsWatched(p, WatchOf(w), token); }
  }

  lemma SweepView(catalog: Catalog, p: Policy, w: World, now: Time)
    requires now <= w.clock
    requires forall i :: i in Swept(p, w.sys.store, now) ==> i in w.observed
    ensures
      var v, after, hit := WatchOf(w), WatchOf(DoSweep(catalog, p, w, now)), Swept(p, w.sys.store, now);
      after == v.(pending := after.pending, buried := v.buried + map i | i in hit :: v.observed[i])
  {
    hide PendingIn, Facts, ExpireOverdue, Swept, Overdue;
    FactsOfSweep(w.sys.store, now, {p.name}, p.grace);
    SweepPolls(p, w.sys.store, now);
    var v, hit := WatchOf(w), Swept(p, w.sys.store, now);
    assert (map i | i in hit :: if i in w.observed then w.observed[i] else now) == map i | i in hit :: v.observed[i];
  }

  lemma SweepPolls(p: Policy, s: Store, now: Time)
    ensures PollsStay(s, ExpireOverdue(s, now, {p.name}, p.grace))
  {
  }

  lemma SweepStep(catalog: Catalog, p: Policy, w: World, now: Time)
    requires Watched(p, WatchOf(w))
    ensures Watched(p, WatchOf(DoSweep(catalog, p, w, now)))
  {
    hide Watched, NotBefore, Facts, Overdue, Swept, Apply;
    if now <= w.clock {
      SweptAreNegative(p, w, now);
      SweepView(catalog, p, w, now);
      SweptAreClosed(catalog, p, w, now);
      SweepIsWatched(p, WatchOf(w), WatchOf(DoSweep(catalog, p, w, now)).pending, Swept(p, w.sys.store, now));
    }
  }

  lemma SweptAreNegative(p: Policy, w: World, now: Time)
    requires Watched(p, WatchOf(w))
    ensures forall i :: i in Swept(p, w.sys.store, now) ==> i in w.sys.store.negative && i in w.observed
  {
    hide CheckerOk, DisarmedOk, ClearedOk, BuriedOk, ChainOk, NotBefore;
    var v := WatchOf(w);
    forall i | i in Swept(p, w.sys.store, now) ensures i in w.sys.store.negative && i in w.observed {
      assert NegativeOk(p, v, i, v.negative[i]);
    }
  }

  lemma SweptAreClosed(catalog: Catalog, p: Policy, w: World, now: Time)
    requires now <= w.clock
    ensures
      var closed := WatchOf(DoSweep(catalog, p, w, now)).pending;
      closed <= WatchOf(w).pending && closed !! Swept(p, w.sys.store, now)
  {
    hide Overdue, Facts;
  }

  lemma StepKeepsWatch(catalog: Catalog, p: Policy, w: World, step: Step)
    requires Watched(p, WatchOf(w)) && p.minConf > 0
    ensures Watched(p, WatchOf(Do(catalog, p, w, step)))
  {
    hide Watched, Apply, DoPay, DoAcquire, DoObserve, DoRecord, DoClear, DoRelease, DoSweep;
    match step
    case Other(m) => if !PollMove(m) { OtherStep(catalog, p, w, m); }
    case Tick(to) => if to >= w.clock { TickIsWatched(p, WatchOf(w), to); }
    case Pay(i, balance) => PayStep(p, w, i, balance);
    case Acquire(i, token, owner) => AcquireStep(catalog, p, w, i, token, owner);
    case Observe(token, reachable) => ObserveStep(p, w, token, reachable);
    case Record(token) => RecordStep(catalog, p, w, token);
    case Clear(token) => ClearStep(catalog, p, w, token);
    case Release(token) => ReleaseStep(catalog, p, w, token);
    case Sweep(now) => SweepStep(catalog, p, w, now);
  }

  lemma {:induction false} PlayIsWatched(catalog: Catalog, p: Policy, steps: seq<Step>)
    requires p.minConf > 0
    ensures Watched(p, WatchOf(Play(catalog, p, Dawn, steps)))
  {
    hide Do;
    if steps != [] {
      PlayIsWatched(catalog, p, steps[..|steps| - 1]);
      StepKeepsWatch(catalog, p, Play(catalog, p, Dawn, steps[..|steps| - 1]), steps[|steps| - 1]);
    }
  }

  // ----- what the poll and the sweep guarantee ------------------------------------------------------------

  /** Two checks that may still act on one invoice are the same check. */
  lemma OneCheckerAtATime(catalog: Catalog, p: Policy, steps: seq<Step>, a: string, b: string)
    requires p.minConf > 0
    requires
      var w := Play(catalog, p, Dawn, steps);
      && a in w.checkers && Live(p, w.clock, w.checkers[a]) && b in w.checkers && Live(p, w.clock, w.checkers[b])
      && w.checkers[a].invoice == w.checkers[b].invoice
    ensures a == b
  {
    hide Play, NegativeOk, ClearedOk, BuriedOk, ChainOk, SightOk, DisarmedOk;
    PlayIsWatched(catalog, p, steps);
    var v := WatchOf(Play(catalog, p, Dawn, steps));
    assert CheckerOk(p, v, a, v.checkers[a]) && CheckerOk(p, v, b, v.checkers[b]);
  }

  /** Only the token on a lease that has not lapsed gets anywhere with it. */
  lemma OnlyTheTokenMovesTheLease(s: Store, i: InvoiceId, token: string, owner: string, leaseFor: Time, clock: Time)
    requires i in s.pollLeases && token != s.pollLeases[i].token
    ensures ReleasePollLease(s, i, token) == s && !RenewPollLease(s, i, token, leaseFor, clock).1
    ensures s.pollLeases[i].until > clock ==> !AcquirePollLease(s, i, token, owner, leaseFor, clock).1
  {
  }

  /** No other token releases, renews or takes the lease. */
  ghost predicate NobodyElse(s: Store, i: InvoiceId, token: string, clock: Time) {
    && (forall other :: other != token ==> ReleasePollLease(s, i, other) == s)
    && (forall other, leaseFor :: other != token ==> !RenewPollLease(s, i, other, leaseFor, clock).1)
    && (forall other, owner, leaseFor :: other != token ==> !AcquirePollLease(s, i, other, owner, leaseFor, clock).1)
  }

  lemma OthersAreRefused(s: Store, i: InvoiceId, token: string, clock: Time)
    requires i in s.pollLeases && s.pollLeases[i].token == token && s.pollLeases[i].until > clock
    ensures NobodyElse(s, i, token, clock)
  {
    hide AcquirePollLease, RenewPollLease, ReleasePollLease;
    forall other, owner, leaseFor | other != token ensures !AcquirePollLease(s, i, other, owner, leaseFor, clock).1 {
      OnlyTheTokenMovesTheLease(s, i, other, owner, leaseFor, clock);
    }
    forall other | other != token ensures ReleasePollLease(s, i, other) == s {
      OnlyTheTokenMovesTheLease(s, i, other, "", 0, clock);
    }
    forall other, leaseFor | other != token ensures !RenewPollLease(s, i, other, leaseFor, clock).1 {
      OnlyTheTokenMovesTheLease(s, i, other, "", leaseFor, clock);
    }
  }

  /** A check stays until its own release. */
  lemma CheckerStays(catalog: Catalog, p: Policy, w: World, step: Step, token: string)
    requires token in w.checkers && step != Release(token) && (step.Acquire? ==> step.token != token)
    ensures
      var t := Do(catalog, p, w, step);
      token in t.checkers && t.checkers[token].(sight := Unknown) == w.checkers[token].(sight := Unknown)
  {
    hide Apply, CheckInvoice, Swept, Deadline, AcquirePollLease;
  }

  lemma MintedIsNotMintedAgain(catalog: Catalog, p: Policy, w: World, i: InvoiceId, token: string, owner: string)
    requires token in w.minted
    ensures Do(catalog, p, w, Acquire(i, token, owner)) == w
  {
  }

  lemma HolderIsOnTheLease(p: Policy, v: Watch, token: string)
    requires Watched(p, v) && token in v.checkers
    ensures HolderOk(p, v.leases, v.clock, token, v.checkers[token]) && token in v.minted
  {
    hide HolderOk, NegativeOk, ClearedOk, BuriedOk, ChainOk, SightOk, DisarmedOk;
    assert CheckerOk(p, v, token, v.checkers[token]);
  }

  /** In every run: whatever step comes next, late releases of earlier checks and acquisitions on other
      instances included, a check whose time is not up keeps its lease until it releases it itself,
      and nobody else's release, renewal or acquisition would succeed. */
  lemma LiveHolderKeepsTheLease(catalog: Catalog, p: Policy, steps: seq<Step>, step: Step, token: string)
    requires p.minConf > 0 && token in Play(catalog, p, Dawn, steps).checkers && step != Release(token)
    requires Live(p, Do(catalog, p, Play(catalog, p, Dawn, steps), step).clock, Play(catalog, p, Dawn, steps).checkers[token])
    ensures
      var c, w := Play(catalog, p, Dawn, steps).checkers[token], Do(catalog, p, Play(catalog, p, Dawn, steps), step);
      var s := w.sys.store;
      && token in w.checkers && c.invoice in s.pollLeases
      && s.pollLeases[c.invoice].token == token && s.pollLeases[c.invoice].until == c.start + p.leaseFor
      && NobodyElse(s, c.invoice, token, w.clock)
  {
    hide Play, Do, Watched, NobodyElse, Facts, PendingIn;
    PlayIsWatched(catalog, p, steps);
    var v := Play(catalog, p, Dawn, steps);
    HolderIsOnTheLease(p, WatchOf(v), token);
    if step.Acquire? && step.token == token {
      MintedIsNotMintedAgain(catalog, p, v, step.i, token, step.owner);
    } else {
      CheckerStays(catalog, p, v, step, token);
    }
    var w := Do(catalog, p, v, step);
    StepKeepsWatch(catalog, p, v, step);
    HolderIsOnTheLease(p, WatchOf(w), token);
    OthersAreRefused(w.sys.store, v.checkers[token].invoice, token, w.clock);
  }

  /** In every run: whatever a sweep expires was unclaimed at that moment, without a live lease,
      never disarmed by a positive, and a check recorded it unpaid at or past the deadline; the
      chain answer behind that record is less than one lease older than the deadline. */
  lemma SweepNeedsFreshNegative(catalog: Catalog, p: Policy, steps: seq<Step>, now: Time, i: InvoiceId)
    requires p.minConf > 0 && i in Swept(p, Play(catalog, p, Dawn, steps).sys.store, now)
    ensures
      var w := Play(catalog, p, Dawn, steps);
      var s := w.sys.store;
      && s.invoices[i].status == Pending && i !in s.settled && i !in w.cleared
      && (forall t :: t in w.checkers && w.checkers[t].invoice == i && Live(p, w.clock, w.checkers[t]) ==>
           now >= w.checkers[t].start + p.leaseFor)
      && i in s.negative && Deadline(p, s.invoices[i]) <= s.negative[i] <= w.clock
      && i in w.observed && Deadline(p, s.invoices[i]) - p.leaseFor < w.observed[i]
      && (i in w.confirmed ==> w.confirmed[i] >= w.observed[i])
  {
    hide Play;
    PlayIsWatched(catalog, p, steps);
    var w := Play(catalog, p, Dawn, steps);
    SweptIsNegative(p, w, now, i);
    forall t | t in w.checkers && w.checkers[t].invoice == i && Live(p, w.clock, w.checkers[t])
      ensures now >= w.checkers[t].start + p.leaseFor
    {
      HolderBlocksSweep(p, w, now, i, t);
    }
  }

  lemma SweptIsNegative(p: Policy, w: World, now: Time, i: InvoiceId)
    requires Watched(p, WatchOf(w)) && i in Swept(p, w.sys.store, now)
    ensures NegativeOk(p, WatchOf(w), i, w.sys.store.negative[i]) && i !in w.cleared
  {
    hide NegativeOk, CheckerOk, BuriedOk, ChainOk, DisarmedOk;
    var v := WatchOf(w);
    assert i in v.negative;
    assert i in v.cleared ==> ClearedOk(v, i);
  }

  lemma HolderBlocksSweep(p: Policy, w: World, now: Time, i: InvoiceId, t: string)
    requires Watched(p, WatchOf(w)) && i in Swept(p, w.sys.store, now)
    requires t in w.checkers && w.checkers[t].invoice == i && Live(p, w.clock, w.checkers[t])
    ensures now >= w.checkers[t].start + p.leaseFor
  {
    hide NegativeOk, ClearedOk, BuriedOk, ChainOk, DisarmedOk, SightOk;
    var v := WatchOf(w);
    assert CheckerOk(p, v, t, v.checkers[t]);
  }

  /** A payment confirmed a full lease before the deadline is never buried; nor is one that a
      check saw and disarmed while the invoice was still open. */
  lemma TimelyPaymentIsNeverBuried(catalog: Catalog, p: Policy, steps: seq<Step>, i: InvoiceId)
    requires p.minConf > 0 && i in Play(catalog, p, Dawn, steps).buried
    ensures
      var w := Play(catalog, p, Dawn, steps);
      && i in w.sys.store.invoices && i !in w.cleared
      && (i in w.confirmed ==> w.confirmed[i] > Deadline(p, w.sys.store.invoices[i]) - p.leaseFor)
  {
    hide Play, CheckerOk, NegativeOk, ChainOk, DisarmedOk;
    PlayIsWatched(catalog, p, steps);
    var v := WatchOf(Play(catalog, p, Dawn, steps));
    assert BuriedOk(p, v, i, v.buried[i]);
    assert i in v.cleared ==> ClearedOk(v, i);
  }

  // ----- the bound is tight ---------------------------------------------------------------------------

  lemma PlayNext(catalog: Catalog, p: Policy, w: World, steps: seq<Step>, step: Step)
    ensures Play(catalog, p, w, steps + [step]) == Do(catalog, p, Play(catalog, p, w, steps), step)
  {
    hide Do;
    assert (steps + [step])[..|steps + [step]| - 1] == steps;
  }

  predicate Quiet(s: Store, inv: Invoice) {
    inv.id in s.invoices && s.invoices[inv.id] == inv && inv.id !in s.settled
  }

  /** An open, unpaid, unchecked invoice. */
  predicate Untouched(w: World, inv: Invoice, clock: Time) {
    && w.clock == clock && w.minted == {} && inv.id !in w.chain && inv.id !in w.confirmed
    && Quiet(w.sys.store, inv) && inv.id !in w.sys.store.pollLeases
  }

  lemma OpenInvoice(catalog: Catalog, p: Policy, inv: Invoice, clock: Time) returns (steps: seq<Step>)
    requires inv.status == Pending && inv.plan in catalog && clock >= 0
    ensures Untouched(Play(catalog, p, Dawn, steps), inv, clock)
  {
    var intent := Intent("key", "hash", inv.id, inv.provider, inv.user, inv.plan, inv.currency, inv.amount, Reserved);
    var reserve, create := Other(ReserveCreate(intent)), Other(CompleteCreate("key", inv));
    PlayNext(catalog, p, Dawn, [], reserve);
    PlayNext(catalog, p, Dawn, [reserve], create);
    PlayNext(catalog, p, Dawn, [reserve, create], Tick(clock));
    steps := [reserve, create] + [Tick(clock)];
    assert [] + [reserve] == [reserve];
  }

  /** The invoice was seen unpaid at `clock` under a lease, and the payment was confirmed in the
      same instant. */
  predicate JustMissed(p: Policy, w: World, inv: Invoice, c: Time) {
    && "t" in w.checkers && w.checkers["t"] == Checker(inv.id, c, Absent(c))
    && inv.id in w.confirmed && w.confirmed[inv.id] == c && Quiet(w.sys.store, inv)
    && inv.id in w.sys.store.pollLeases && w.sys.store.pollLeases[inv.id].token == "t"
  }

  lemma MissAcquire(catalog: Catalog, p: Policy, w: World, inv: Invoice, c: Time)
    requires Untouched(w, inv, c) && inv.provider == p.name
    ensures
      var a := Do(catalog, p, w, Acquire(inv.id, "t", "o"));
      && a.clock == c && Quiet(a.sys.store, inv) && inv.id !in a.chain && inv.id !in a.confirmed
      && inv.id in a.sys.store.pollLeases && a.sys.store.pollLeases[inv.id].token == "t"
      && "t" in a.checkers && a.checkers["t"] == Checker(inv.id, c, Unknown)
  {
  }

  lemma MissObserve(catalog: Catalog, p: Policy, w: World, inv: Invoice, c: Time)
    requires "t" in w.checkers && w.checkers["t"] == Checker(inv.id, c, Unknown) && w.clock == c && inv.id !in w.chain
    requires Quiet(w.sys.store, inv) && inv.provider == p.name && p.minConf > 0 && p.leaseFor > 0 && p.chainTimeout >= 0
    ensures Do(catalog, p, w, Observe("t", true)) == w.(checkers := w.checkers["t" := Checker(inv.id, c, Absent(c))])
  {
  }

  lemma MissPay(catalog: Catalog, p: Policy, w: World, inv: Invoice)
    requires inv.id in w.sys.store.invoices && w.sys.store.invoices[inv.id] == inv && inv.id !in w.chain && inv.id !in w.confirmed
    requires inv.provider == p.name && inv.amount >= 0.0
    ensures
      var balance := Balance(inv.amount, p.minConf);
      Do(catalog, p, w, Pay(inv.id, balance)) ==
        w.(chain := w.chain[inv.id := balance], confirmed := w.confirmed[inv.id := w.clock])
  {
  }

  lemma MissPayment(catalog: Catalog, p: Policy, w: World, inv: Invoice, c: Time)
    requires Untouched(w, inv, c) && inv.status == Pending && inv.provider == p.name && inv.amount >= 0.0
    requires p.minConf > 0 && p.leaseFor > 0 && p.chainTimeout >= 0
    ensures
      var a := Do(catalog, p, w, Acquire(inv.id, "t", "o"));
      var b := Do(catalog, p, a, Observe("t", true));
      var d := Do(catalog, p, b, Pay(inv.id, Balance(inv.amount, p.minConf)));
      JustMissed(p, d, inv, c) && d.clock == c
  {
    hide Do;
    var a := Do(catalog, p, w, Acquire(inv.id, "t", "o"));
    MissAcquire(catalog, p, w, inv, c);
    MissObserve(catalog, p, a, inv, c);
    MissPay(catalog, p, Do(catalog, p, a, Observe("t", true)), inv);
  }

  /** The stale answer has been recorded and the lease given back. */
  predicate Condemned(p: Policy, w: World, inv: Invoice, c: Time) {
    && inv.id in w.confirmed && w.confirmed[inv.id] == c && Quiet(w.sys.store, inv)
    && inv.id in w.sys.store.negative && w.sys.store.negative[inv.id] == Deadline(p, inv)
  }

  lemma RecordMiss(catalog: Catalog, p: Policy, w: World, inv: Invoice, c: Time)
    requires JustMissed(p, w, inv, c) && w.clock == Deadline(p, inv) < c + p.leaseFor && inv.status == Pending
    ensures
      var a := Do(catalog, p, w, Record("t"));
      && Condemned(p, a, inv, c) && a.clock == w.clock && "t" in a.checkers && a.checkers["t"].invoice == inv.id
      && inv.id in a.sys.store.pollLeases && a.sys.store.pollLeases[inv.id].token == "t"
  {
    hide Do;
    RecordNow(catalog, p, w, "t");
  }

  lemma RecordNow(catalog: Catalog, p: Policy, w: World, token: string)
    requires token in w.checkers && Live(p, w.clock, w.checkers[token]) && w.checkers[token].sight.Absent?
    requires IsPending(w, w.checkers[token].invoice)
    requires w.clock >= Deadline(p, w.sys.store.invoices[w.checkers[token].invoice])
    ensures
      var c, s := w.checkers[token], w.sys.store;
      Do(catalog, p, w, Record(token)) == w.(
        sys := w.sys.(store := s.(negative := s.negative[c.invoice := w.clock])), observed := w.observed[c.invoice := c.sight.at])
  {
  }

  lemma ReleaseMiss(catalog: Catalog, p: Policy, w: World, inv: Invoice, c: Time)
    requires Condemned(p, w, inv, c) && "t" in w.checkers && w.checkers["t"].invoice == inv.id
    requires inv.id in w.sys.store.pollLeases && w.sys.store.pollLeases[inv.id].token == "t"
    ensures
      var b := Do(catalog, p, w, Release("t"));
      Condemned(p, b, inv, c) && b.clock == w.clock && inv.id !in b.sys.store.pollLeases
  {
  }

  lemma MissIsSwept(p: Policy, s: Store, inv: Invoice)
    requires Quiet(s, inv) && inv.id in s.negative && s.negative[inv.id] == Deadline(p, inv) && inv.id !in s.pollLeases
    requires inv.status == Pending && inv.provider == p.name && inv.expiresAt != 0
    ensures inv.id in Swept(p, s, Deadline(p, inv) + 1)
  {
  }

  lemma BurySweep(catalog: Catalog, p: Policy, w: World, inv: Invoice, c: Time, now: Time)
    requires inv.id in Swept(p, w.sys.store, now) && now <= w.clock
    requires inv.id in w.confirmed && w.confirmed[inv.id] == c
    requires inv.id in w.sys.store.invoices && w.sys.store.invoices[inv.id] == inv && inv.status == Pending
    ensures BuriedThough(Do(catalog, p, w, Sweep(now)), inv, c)
  {
    hide ExpireOverdue, Swept;
    SweptFact(p, w.sys.store, now, inv.id);
  }

  lemma SweptFact(p: Policy, s: Store, now: Time, i: InvoiceId)
    requires i in s.invoices
    ensures
      var after := ExpireOverdue(s, now, {p.name}, p.grace).invoices;
      i in after && Fact(after[i]) == Fact(s.invoices[i])
  {
    hide Overdue;
  }

  lemma BuryPayment(catalog: Catalog, p: Policy, w: World, inv: Invoice, c: Time)
    requires Condemned(p, w, inv, c) && w.clock == Deadline(p, inv) && inv.id !in w.sys.store.pollLeases
    requires inv.status == Pending && inv.provider == p.name && inv.expiresAt != 0
    ensures
      var d := Do(catalog, p, w, Tick(Deadline(p, inv) + 1));
      BuriedThough(Do(catalog, p, d, Sweep(Deadline(p, inv) + 1)), inv, c)
  {
    hide Do, Swept, BuriedThough;
    var now := Deadline(p, inv) + 1;
    TickTo(catalog, p, w, now);
    MissIsSwept(p, w.sys.store, inv);
    BurySweep(catalog, p, Do(catalog, p, w, Tick(now)), inv, c, now);
  }

  lemma TickTo(catalog: Catalog, p: Policy, w: World, to: Time)
    requires to >= w.clock
    ensures Do(catalog, p, w, Tick(to)) == w.(clock := to)
  {
  }

  /** Exactly how late a payment must be confirmed to be buried although it met the deadline: the
      poller stamps a negative with the time of recording, not of the chain's answer, so the gap
      is one lease. */
  lemma BurialWindow(catalog: Catalog, p: Policy, inv: Invoice, c: Time)
    requires p.minConf > 0 && p.leaseFor > 0 && p.chainTimeout >= 0
    requires inv.status == Pending && inv.provider == p.name && inv.plan in catalog && inv.amount >= 0.0 && inv.expiresAt != 0
    requires 0 <= c <= Deadline(p, inv)
    ensures c > Deadline(p, inv) - p.leaseFor <==> exists steps :: BuriedThough(Play(catalog, p, Dawn, steps), inv, c)
  {
    hide Do, Play;
    if c > Deadline(p, inv) - p.leaseFor {
      var steps := BurialRun(catalog, p, inv, c);
    }
    forall steps | BuriedThough(Play(catalog, p, Dawn, steps), inv, c) ensures c > Deadline(p, inv) - p.leaseFor {
      TimelyPaymentIsNeverBuried(catalog, p, steps, inv.id);
    }
  }

  predicate BuriedThough(w: World, inv: Invoice, c: Time) {
    && inv.id in w.buried && inv.id in w.confirmed && w.confirmed[inv.id] == c
    && inv.id in w.sys.store.invoices && Fact(w.sys.store.invoices[inv.id]) == inv
  }

  lemma BurialRun(catalog: Catalog, p: Policy, inv: Invoice, c: Time) returns (steps: seq<Step>)
    requires p.minConf > 0 && p.leaseFor > 0 && p.chainTimeout >= 0
    requires inv.status == Pending && inv.provider == p.name && inv.plan in catalog && inv.amount >= 0.0 && inv.expiresAt != 0
    requires 0 <= c <= Deadline(p, inv) < c + p.leaseFor
    ensures BuriedThough(Play(catalog, p, Dawn, steps), inv, c)
  {
    hide Do, Play;
    var open := OpenInvoice(catalog, p, inv, c);
    var w, deadline := Play(catalog, p, Dawn, open), Deadline(p, inv);
    MissPayment(catalog, p, w, inv, c);
    var miss := [Acquire(inv.id, "t", "o"), Observe("t", true), Pay(inv.id, Balance(inv.amount, p.minConf))];
    PlayThree(catalog, p, w, miss);
    var d := Play(catalog, p, w, miss);
    var late := [Tick(deadline), Record("t"), Release("t")];
    var close := [Tick(deadline + 1), Sweep(deadline + 1)];
    TickKeepsMiss(catalog, p, d, inv, c, deadline);
    var e := Do(catalog, p, d, Tick(deadline));
    RecordMiss(catalog, p, e, inv, c);
    ReleaseMiss(catalog, p, Do(catalog, p, e, Record("t")), inv, c);
    PlayThree(catalog, p, d, late);
    var f := Play(catalog, p, d, late);
    BuryPayment(catalog, p, f, inv, c);
    PlayTwo(catalog, p, f, close);
    PlayConcat(catalog, p, Dawn, open, miss);
    PlayConcat(catalog, p, Dawn, open + miss, late);
    PlayConcat(catalog, p, Dawn, open + miss + late, close);
    steps := open + miss + late + close;
  }

  lemma TickKeepsMiss(catalog: Catalog, p: Policy, w: World, inv: Invoice, c: Time, to: Time)
    requires JustMissed(p, w, inv, c) && w.clock == c <= to
    ensures var t := Do(catalog, p, w, Tick(to)); JustMissed(p, t, inv, c) && t.clock == to
  {
  }

  lemma {:induction false} PlayConcat(catalog: Catalog, p: Policy, w: World, a: seq<Step>, b: seq<Step>)
    ensures Play(catalog, p, w, a + b) == Play(catalog, p, Play(catalog, p, w, a), b)
  {
    hide Do;
    if b == [] {
      assert a + b == a;
    } else {
      PlayConcat(catalog, p, w, a, b[..|b| - 1]);
      assert (a + b)[..|a + b| - 1] == a + b[..|b| - 1];
    }
  }

  lemma PlayTwo(catalog: Catalog, p: Policy, w: World, steps: seq<Step>)
    requires |steps| == 2
    ensures Play(catalog, p, w, steps) == Do(catalog, p, Do(catalog, p, w, steps[0]), steps[1])
  {
    hide Do;
    assert steps == [] + [steps[0]] + [steps[1]];
    PlayNext(catalog, p, w, [], steps[0]);
    PlayNext(catalog, p, w, [] + [steps[0]], steps[1]);
  }

  lemma PlayThree(catalog: Catalog, p: Policy, w: World, steps: seq<Step>)
    requires |steps| == 3
    ensures Play(catalog, p, w, steps) == Do(catalog, p, Do(catalog, p, Do(catalog, p, w, steps[0]), steps[1]), steps[2])
  {
    hide Do;
    assert steps == steps[..2] + [steps[2]];
    PlayTwo(catalog, p, w, steps[..2]);
    PlayNext(catalog, p, w, steps[..2], steps[2]);
  }
}
