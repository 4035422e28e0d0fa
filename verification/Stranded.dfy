/** The limit of recovery: it reaches a claimed, uncredited invoice exactly while that is pending, that
    is, if it was pending when it was claimed and no verdict has closed it since. Two families of runs
    leave a paid invoice out of reach, one without any verdict. */
module Stranded {
  import opened Prelude
  import opened Ledger
  import opened Registry
  import opened Protocol
  import opened Invariant
  import opened Preservation
  import opened Credit
  import opened Recovery

  // ----- the exact limit --------------------------------------------------------------------------

  /** Some recovery pass, on some clock and threshold, leases the claim. */
  ghost predicate Recoverable(s: Store, i: InvoiceId) {
    exists olderThan, clock :: i in StuckClaims(s, olderThan, clock)
  }

  lemma RecoverableIsPending(s: Store, i: InvoiceId)
    requires i in s.settled && i in s.invoices
    ensures Recoverable(s, i) <==> s.invoices[i].status == Pending
  {
    if s.invoices[i].status == Pending {
      assert i in StuckClaims(s, s.settled[i].claimedAt, s.settled[i].leasedUntil);
    }
  }

  /** Some move of the run writes a verdict over the invoice. */
  predicate Overwritten(catalog: Catalog, s: Sys, moves: seq<Move>, i: InvoiceId) {
    moves != [] &&
      var init, last := moves[..|moves| - 1], moves[|moves| - 1];
      Overwritten(catalog, s, init, i) || Overwrites(Run(catalog, s, init), last, i)
  }

  /** Of a claimed invoice that is never credited only a verdict changes the status. */
  lemma OnlyVerdictsClose(catalog: Catalog, s: Sys, m: Move, i: InvoiceId)
    requires CatalogOk(catalog) && Inv(catalog, s) && i in s.store.settled && i in s.store.invoices
    requires i !in s.store.invoiceDeliveries
    ensures
      var t := Apply(catalog, s, m).store;
      && i in t.settled && i in t.invoices
      && if Overwrites(s, m, i) then t.invoices[i].status != Pending else t.invoices[i].status == s.store.invoices[i].status
  {
    hide Apply, Inv, FactsStay, InvoicesKept, ClaimsStand;
    MoveKeepsFacts(catalog, s, m);
    FactStays(s.store.invoices, Apply(catalog, s, m).store.invoices, i);
    if m.ReceiveEvent? {
      ApplyReceive(catalog, s, m);
      VerdictOn(s, m.task, m.ev, i);
    } else if m.Complete? {
      ApplyComplete(catalog, s, m);
      UncreditedIsNotSettled(catalog, s, m.task, m.clock, i);
    } else if Aside(m) {
      AsideFrame(catalog, s, m);
    } else if OnlyRegistry(m) {
      OnlyRegistryFrame(catalog, s, m);
    } else {
      SameStatus(catalog, s, m, i);
    }
  }

  lemma FactStays(a: map<InvoiceId, Invoice>, b: map<InvoiceId, Invoice>, i: InvoiceId)
    requires FactsStay(a, b) && i in a
    ensures i in b
  {
  }

  lemma VerdictOn(s: Sys, task: nat, ev: Event, i: InvoiceId)
    requires i in s.store.invoices
    ensures
      var t := DoReceive(s, task, ev).store;
      && i in t.invoices
      && t.invoices[i].status ==
           if !Overwrites(s, ReceiveEvent(task, ev), i) then s.store.invoices[i].status
           else if ev.status == Settled then Invalid else ev.status
    ensures Overwrites(s, ReceiveEvent(task, ev), i) ==> DoReceive(s, task, ev).store.invoices[i].status != Pending
  {
    hide Verdict, Covers, RightRail;
    VerdictIs(s.store, ev);
  }

  lemma UncreditedIsNotSettled(catalog: Catalog, s: Sys, task: nat, clock: Time, i: InvoiceId)
    requires Inv(catalog, s) && i in s.store.invoices && i !in s.store.invoiceDeliveries
    ensures
      var t := DoCompleteDelivery(s, task, clock).store;
      i in t.invoices && t.invoices[i] == s.store.invoices[i]
  {
    hide Good, CompleteBillingDelivery;
    if task in s.tasks && s.tasks[task].Accepted? {
      var id := s.tasks[task].d.id;
      assert TaskOk(ViewOf(s), s.tasks[task]);
      RowInvoice(catalog, ViewOf(s), id);
      if s.store.deliveries[id].invoice == Some(i) { IndexOfRow(catalog, ViewOf(s), i); }
      if CompleteBillingDelivery(s.store, id, clock).Ok? { CompleteInvoices(s.store, id, clock); }
    }
  }

  lemma SameStatus(catalog: Catalog, s: Sys, m: Move, i: InvoiceId)
    requires m.Claim? || m.CompleteCreate? || m.ExpireInvoices? || m.LeaseClaims?
    requires i in s.store.settled && i in s.store.invoices
    ensures
      var t := Apply(catalog, s, m).store;
      i in t.invoices && t.invoices[i] == s.store.invoices[i]
  {
    hide DoClaim, DoComplete;
    match m
    case Claim(task, clock) => ClaimFrame(s, task, clock, 0);
    case CompleteCreate(key, inv) => CreateIsWriteOnce(catalog, s, key, inv, i);
    case ExpireInvoices(_, _, _) =>
    case LeaseClaims(_, _) =>
  }

  lemma CreateIsWriteOnce(catalog: Catalog, s: Sys, key: string, inv: Invoice, i: InvoiceId)
    requires i in s.store.invoices
    ensures
      var t := DoComplete(catalog, s, key, inv).store;
      i in t.invoices && t.invoices[i] == s.store.invoices[i]
  {
  }

  /** Along any run a claimed invoice that stays uncredited is pending at the end exactly if it was at
      the start and no verdict was written over it. */
  lemma {:induction false} PendingUntilVerdict(catalog: Catalog, s: Sys, moves: seq<Move>, i: InvoiceId)
    requires CatalogOk(catalog) && Inv(catalog, s) && i in s.store.settled && i in s.store.invoices
    requires i !in Run(catalog, s, moves).store.invoiceDeliveries
    ensures
      var t := Run(catalog, s, moves).store;
      && i in t.settled && i in t.invoices
      && (t.invoices[i].status == Pending <==> s.store.invoices[i].status == Pending && !Overwritten(catalog, s, moves, i))
  {
    hide Inv, Apply, Overwrites;
    if moves != [] {
      var init, last := moves[..|moves| - 1], moves[|moves| - 1];
      var mid := Run(catalog, s, init);
      RunKeeps(catalog, s, init);
      if i in mid.store.invoiceDeliveries { CreditStays(catalog, mid, last, i); }
      PendingUntilVerdict(catalog, s, init, i);
      OnlyVerdictsClose(catalog, mid, last, i);
      NeverPendingAgain(catalog, mid, last, i);
    }
  }

  lemma NeverPendingAgain(catalog: Catalog, s: Sys, m: Move, i: InvoiceId)
    requires i in s.store.invoices
    ensures
      var t := Apply(catalog, s, m).store;
      i in t.invoices && (t.invoices[i].status == Pending ==> s.store.invoices[i].status == Pending)
  {
    hide Apply;
    MoveKeepsFacts(catalog, s, m);
  }

  lemma CreditStays(catalog: Catalog, s: Sys, m: Move, i: InvoiceId)
    requires CatalogOk(catalog) && Inv(catalog, s) && i in s.store.invoiceDeliveries
    ensures i in Apply(catalog, s, m).store.invoiceDeliveries
  {
    hide Apply, Good, TaskOk;
    IndexedIsStaged(catalog, ViewOf(s), i);
    IndexIsInvoice(catalog, ViewOf(s), i);
    MoveKeepsRows(catalog, s, m);
    ApplyKeeps(catalog, s, m);
    IndexOfRow(catalog, ViewOf(Apply(catalog, s, m)), i);
  }

  /** Step `k` of the run claims the invoice. */
  predicate ClaimedAt(catalog: Catalog, moves: seq<Move>, k: nat, i: InvoiceId)
    requires k < |moves|
  {
    i !in Run(catalog, Init, moves[..k]).store.settled && i in Run(catalog, Init, moves[..k + 1]).store.settled
  }

  /** Every claim of a reachable state was taken at some step. */
  lemma {:induction false} ClaimMoment(catalog: Catalog, moves: seq<Move>, i: InvoiceId) returns (k: nat)
    requires i in Run(catalog, Init, moves).store.settled
    ensures k < |moves| && ClaimedAt(catalog, moves, k, i)
  {
    var last := |moves| - 1;
    assert moves != [];
    if i in Run(catalog, Init, moves[..last]).store.settled {
      k := ClaimMoment(catalog, moves[..last], i);
      assert moves[..last][..k] == moves[..k] && moves[..last][..k + 1] == moves[..k + 1];
    } else {
      k := last;
      assert moves[..k + 1] == moves;
    }
  }

  /** The exact condition, over every run: recovery reaches a claimed, uncredited invoice if and only
      if it was pending in the state that was claimed and no verdict was written over it since. */
  lemma RecoverableExactly(catalog: Catalog, moves: seq<Move>, k: nat, i: InvoiceId)
    requires CatalogOk(catalog) && k < |moves| && ClaimedAt(catalog, moves, k, i)
    requires i !in Run(catalog, Init, moves).store.invoiceDeliveries
    ensures i in Run(catalog, Init, moves[..k]).store.invoices
    ensures Recoverable(Run(catalog, Init, moves).store, i) <==>
      && Run(catalog, Init, moves[..k]).store.invoices[i].status == Pending
      && !Overwritten(catalog, Run(catalog, Init, moves[..k + 1]), moves[k + 1..], i)
  {
    hide Run, Apply, Inv, Overwritten, Recoverable;
    var s, t := Run(catalog, Init, moves[..k]), Run(catalog, Init, moves[..k + 1]);
    SplitRun(catalog, Init, moves, k);
    ReachableIsGood(catalog, moves[..k]);
    ReachableIsGood(catalog, moves[..k + 1]);
    ClaimedIsKnown(catalog, t, i);
    ClaimStepKeepsStatus(catalog, s, moves[k], i);
    PendingUntilVerdict(catalog, t, moves[k + 1..], i);
    RecoverableIsPending(Run(catalog, Init, moves).store, i);
  }

  lemma SplitRun(catalog: Catalog, s: Sys, moves: seq<Move>, k: nat)
    requires k < |moves|
    ensures Run(catalog, s, moves[..k + 1]) == Apply(catalog, Run(catalog, s, moves[..k]), moves[k])
    ensures Run(catalog, s, moves) == Run(catalog, Run(catalog, s, moves[..k + 1]), moves[k + 1..])
  {
    hide Run, Apply;
    Next(catalog, s, moves[..k], moves[k]);
    assert moves[..k] + [moves[k]] == moves[..k + 1];
    RunConcat(catalog, s, moves[..k + 1], moves[k + 1..]);
    assert moves[..k + 1] + moves[k + 1..] == moves;
  }

  lemma ClaimedIsKnown(catalog: Catalog, s: Sys, i: InvoiceId)
    requires Inv(catalog, s) && i in s.store.settled
    ensures i in s.store.invoices
  {
    hide Good, TaskOk;
    ClaimHasEvidence(catalog, ViewOf(s), i);
  }

  /** The step that claims an invoice changes no invoice. */
  lemma ClaimStepKeepsStatus(catalog: Catalog, s: Sys, m: Move, i: InvoiceId)
    requires i !in s.store.settled && i in Apply(catalog, s, m).store.settled
    ensures Apply(catalog, s, m).store.invoices == s.store.invoices
  {
    hide Apply, InvoicesKept, ClaimsStand;
    if m.Claim? {
      ClaimMove(catalog, s, m);
    } else if m.ReceiveEvent? {
      ApplyReceive(catalog, s, m);
      ReceiveFrame(s, m.task, m.ev);
    } else if Aside(m) {
      AsideFrame(catalog, s, m);
    } else if OnlyRegistry(m) {
      OnlyRegistryFrame(catalog, s, m);
    } else {
      OnlyClaimsClaim(catalog, s, m);
    }
  }

  lemma ClaimMove(catalog: Catalog, s: Sys, m: Move)
    requires m.Claim?
    ensures Apply(catalog, s, m).store.invoices == s.store.invoices
  {
    hide DoClaim;
    ClaimFrame(s, m.task, m.clock, 0);
  }

  lemma OnlyClaimsClaim(catalog: Catalog, s: Sys, m: Move)
    requires m.CompleteCreate? || m.Complete? || m.ExpireInvoices? || m.LeaseClaims?
    ensures Apply(catalog, s, m).store.settled.Keys == s.store.settled.Keys
  {
    hide DoComplete, DoCompleteDelivery, InvoicesKept, Overdue, ExpireOverdue, LeaseStuck, FactsStay;
    match m
    case CompleteCreate(key, inv) => CreateFrame(catalog, s, key, inv);
    case Complete(task, clock) => CompleteFrame(s, task, clock);
    case ExpireInvoices(now, onchain, grace) => SweepClaimsNothing(s.store, now, onchain, grace);
    case LeaseClaims(_, _) => LeasedFacts(catalog, s, m);
  }

  lemma SweepClaimsNothing(s: Store, now: Time, onchain: set<string>, grace: Time)
    ensures ExpireOverdue(s, now, onchain, grace).settled == s.settled
  {
    hide Overdue;
  }

  // ----- two families of runs out of reach ----------------------------------------------------------

  /** Paid and claimed, nothing staged, and in no lease query's reach whatever the clocks say. */
  ghost predicate OutOfReach(s: Sys, i: InvoiceId) {
    && i in s.store.settled && i !in s.store.invoiceDeliveries && i in s.store.invoices
    && (exists ev :: ev in s.evidence && Settling(ev, s.store.invoices[i]))
    && !Recoverable(s.store, i) && s.tasks == map[]
  }

  lemma Next(catalog: Catalog, s: Sys, moves: seq<Move>, m: Move)
    ensures Run(catalog, s, moves + [m]) == Apply(catalog, Run(catalog, s, moves), m)
  {
    hide Apply;
    assert (moves + [m])[..|moves|] == moves;
  }

  /** A crash between the claim and the staging, then the provider reporting the invoice expired:
      the status is overwritten, and recovery asks for pending invoices only. */
  lemma VerdictStrandsAClaim(catalog: Catalog, inv: Invoice) returns (moves: seq<Move>)
    requires inv.status == Pending && inv.plan in catalog
    ensures OutOfReach(Run(catalog, Init, moves), inv.id)
  {
    hide Run, Apply;
    var intent := Intent("key", "hash", inv.id, inv.provider, inv.user, inv.plan, inv.currency, inv.amount, Reserved);
    var paid := Event(inv.provider, "paid", inv.id, Settled, inv.currency, Some(inv.amount));
    var expired := Event(inv.provider, "expired", inv.id, InvoiceExpired, inv.currency, None);
    var reserve, create := ReserveCreate(intent), CompleteCreate("key", inv);
    Next(catalog, Init, [], reserve);
    Next(catalog, Init, [] + [reserve], create);
    var opening := [] + [reserve] + [create];
    var s := Run(catalog, Init, opening);
    RunNothing(catalog);
    Opened(catalog, inv, intent);
    Next(catalog, Init, opening, ReceiveEvent(0, paid));
    Next(catalog, Init, opening + [ReceiveEvent(0, paid)], Claim(0, 1));
    Next(catalog, Init, opening + [ReceiveEvent(0, paid)] + [Claim(0, 1)], Crash(0));
    var claimed := opening + [ReceiveEvent(0, paid)] + [Claim(0, 1)] + [Crash(0)];
    Claimed(catalog, s, inv, paid);
    Next(catalog, Init, claimed, ReceiveEvent(1, expired));
    Closed(catalog, Run(catalog, Init, claimed), inv, paid, expired);
    moves := claimed + [ReceiveEvent(1, expired)];
  }

  /** No verdict is needed: settling does not look at the status, so a payment that is reported after
      the sweep has expired the invoice claims it, and a crash leaves the claim out of reach. */
  lemma LatePaymentStrandsAClaim(catalog: Catalog, inv: Invoice, onchain: set<string>) returns (moves: seq<Move>)
    requires inv.status == Pending && inv.plan in catalog && inv.expiresAt != 0 && inv.provider !in onchain
    ensures OutOfReach(Run(catalog, Init, moves), inv.id)
    ensures !Overwritten(catalog, Init, moves, inv.id)
  {
    hide Run, Apply, Overwrites;
    var intent := Intent("key", "hash", inv.id, inv.provider, inv.user, inv.plan, inv.currency, inv.amount, Reserved);
    var paid := Event(inv.provider, "paid", inv.id, Settled, inv.currency, Some(inv.amount));
    var reserve, create, sweep := ReserveCreate(intent), CompleteCreate("key", inv), ExpireInvoices(inv.expiresAt + 1, onchain, 0);
    var swept := [] + [reserve] + [create] + [sweep];
    Next(catalog, Init, [], reserve);
    Next(catalog, Init, [] + [reserve], create);
    Next(catalog, Init, [] + [reserve] + [create], sweep);
    RunNothing(catalog);
    Opened(catalog, inv, intent);
    Expired(catalog, Run(catalog, Init, [] + [reserve] + [create]), inv, onchain);
    Next(catalog, Init, swept, ReceiveEvent(0, paid));
    Next(catalog, Init, swept + [ReceiveEvent(0, paid)], Claim(0, 1));
    Next(catalog, Init, swept + [ReceiveEvent(0, paid)] + [Claim(0, 1)], Crash(0));
    var late := inv.(status := InvoiceExpired);
    Claimed(catalog, Run(catalog, Init, swept), late, paid);
    moves := swept + [ReceiveEvent(0, paid)] + [Claim(0, 1)] + [Crash(0)];
    AbandonedIsOutOfReach(Run(catalog, Init, moves), late, paid);
    NotOverwritten(catalog, Init, [], reserve, inv.id);
    NotOverwritten(catalog, Init, [] + [reserve], create, inv.id);
    NotOverwritten(catalog, Init, [] + [reserve] + [create], sweep, inv.id);
    NotOverwritten(catalog, Init, swept, ReceiveEvent(0, paid), inv.id);
    NotOverwritten(catalog, Init, swept + [ReceiveEvent(0, paid)], Claim(0, 1), inv.id);
    NotOverwritten(catalog, Init, swept + [ReceiveEvent(0, paid)] + [Claim(0, 1)], Crash(0), inv.id);
  }

  lemma NotOverwritten(catalog: Catalog, s: Sys, moves: seq<Move>, m: Move, i: InvoiceId)
    requires !Overwritten(catalog, s, moves, i)
    requires m.ReceiveEvent? ==>
      i in Run(catalog, s, moves).store.invoices && !Closes(m.ev, Run(catalog, s, moves).store.invoices[i])
    ensures !Overwritten(catalog, s, moves + [m], i)
  {
    assert (moves + [m])[..|moves|] == moves;
  }

  lemma Expired(catalog: Catalog, s: Sys, inv: Invoice, onchain: set<string>)
    requires Fresh(s, inv) && inv.status == Pending && inv.expiresAt != 0 && inv.provider !in onchain
    ensures Fresh(Apply(catalog, s, ExpireInvoices(inv.expiresAt + 1, onchain, 0)), inv.(status := InvoiceExpired))
  {
  }

  lemma AbandonedIsOutOfReach(s: Sys, inv: Invoice, paid: Event)
    requires Abandoned(s, inv, paid) && Settling(paid, inv) && inv.status != Pending
    ensures OutOfReach(s, inv.id)
  {
    RecoverableIsPending(s.store, inv.id);
  }

  lemma RunNothing(catalog: Catalog)
    ensures Run(catalog, Init, []) == Init
  {
  }

  predicate Fresh(s: Sys, inv: Invoice) {
    && inv.id in s.store.invoices && s.store.invoices[inv.id] == inv && inv.id !in s.store.settled
    && inv.id !in s.store.invoiceDeliveries && inv.id !in s.store.pollLeases && s.tasks == map[] && s.store.events == {}
  }

  lemma Opened(catalog: Catalog, inv: Invoice, intent: Intent)
    requires inv.status == Pending && inv.plan in catalog
    requires intent.key == "key" && intent.orderId == inv.id && intent.provider == inv.provider
    ensures Fresh(Apply(catalog, Apply(catalog, Init, ReserveCreate(intent)), CompleteCreate("key", inv)), inv)
  {
  }

  predicate Abandoned(s: Sys, inv: Invoice, paid: Event) {
    && inv.id in s.store.invoices && s.store.invoices[inv.id] == inv && inv.id in s.store.settled
    && inv.id !in s.store.invoiceDeliveries && s.tasks == map[] && s.store.events == {} && paid in s.evidence
  }

  lemma Claimed(catalog: Catalog, s: Sys, inv: Invoice, paid: Event)
    requires Fresh(s, inv) && paid.provider == inv.provider && paid.invoice == inv.id && paid.status == Settled
    requires paid.currency == inv.currency && paid.amount == Some(inv.amount)
    ensures
      var a := Apply(catalog, s, ReceiveEvent(0, paid));
      Abandoned(Apply(catalog, Apply(catalog, a, Claim(0, 1)), Crash(0)), inv, paid)
  {
    var a := Apply(catalog, s, ReceiveEvent(0, paid));
    assert a.tasks == map[0 := Paid(paid, inv)];
    var b := Apply(catalog, a, Claim(0, 1));
    assert b.tasks.Keys == {0};
    assert Apply(catalog, b, Crash(0)).tasks == map[];
  }

  lemma Closed(catalog: Catalog, s: Sys, inv: Invoice, paid: Event, expired: Event)
    requires Abandoned(s, inv, paid) && Settling(paid, inv)
    requires expired.invoice == inv.id && expired.status == InvoiceExpired
    ensures OutOfReach(Apply(catalog, s, ReceiveEvent(1, expired)), inv.id)
  {
    var t := Apply(catalog, s, ReceiveEvent(1, expired));
    assert Settling(paid, t.store.invoices[inv.id]);
    RecoverableIsPending(t.store, inv.id);
  }
}
