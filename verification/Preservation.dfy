/** Every move of the credit protocol keeps the invariant, so every reachable state has it. For
    each kind of change there is a lemma about views (the state without its tasks) and one that
    carries it to the move. */
module Preservation {
  import opened Prelude
  import opened Ledger
  import opened Registry
  import opened Protocol
  import opened Invariant

  // ----- invoices, events, claims -----------------------------------------------------------

  lemma FactsOfStatus(invoices: map<InvoiceId, Invoice>, id: InvoiceId, status: InvoiceStatus)
    requires id in invoices
    ensures Facts(invoices[id := invoices[id].(status := status)]) == Facts(invoices)
  {
  }

  lemma FactsOfSweep(s: Store, now: Time, onchain: set<string>, grace: Time)
    ensures Facts(ExpireOverdue(s, now, onchain, grace).invoices) == Facts(s.invoices)
  {
  }

  /** More invoices and claims keep every entry justified. */
  lemma EntriesKept(catalog: Catalog, v: View, facts: map<InvoiceId, Invoice>, claims: set<InvoiceId>)
    requires JournalOk(catalog, v.journal, v.schedules, v.deliveries, v.facts, v.claims)
    requires v.claims <= claims && forall id :: id in v.facts ==> id in facts && facts[id] == v.facts[id]
    ensures JournalOk(catalog, v.journal, v.schedules, v.deliveries, facts, claims)
  {
    forall sub | sub in v.journal ensures LogOk(catalog, sub, v.journal[sub], v.deliveries, facts, claims) {
      assert LogOk(catalog, sub, v.journal[sub], v.deliveries, v.facts, v.claims);
      forall k | 0 <= k < |v.journal[sub]|
        ensures EntryOk(catalog, sub, v.journal[sub], k, v.deliveries, facts, claims)
      {
        assert EntryOk(catalog, sub, v.journal[sub], k, v.deliveries, v.facts, v.claims);
      }
    }
  }

  lemma ClaimsKept(catalog: Catalog, v: View, facts: map<InvoiceId, Invoice>, evidence: set<Event>)
    requires InvoicesOk(catalog, v.facts, v.claims, v.evidence) && v.evidence <= evidence
    requires forall id :: id in v.facts ==> id in facts && facts[id] == v.facts[id]
    requires forall id :: id in facts ==> facts[id].id == id && facts[id].plan in catalog
    ensures InvoicesOk(catalog, facts, v.claims, evidence)
  {
    forall id | id in v.claims ensures PaidFor(facts, evidence, id) {
      assert PaidFor(v.facts, v.evidence, id);
      var ev :| ev in v.evidence && Settling(ev, v.facts[id]);
      assert ev in evidence && Settling(ev, facts[id]);
    }
  }

  lemma NewInvoiceIsGood(catalog: Catalog, v: View, inv: Invoice)
    requires Good(catalog, v) && inv.id !in v.facts && inv.plan in catalog
    ensures var w := v.(facts := v.facts[inv.id := inv]); Good(catalog, w) && Grows(v, w)
  {
    hide OutboxOk, WireOk, RegistryOk;
    var facts := v.facts[inv.id := inv];
    EntriesKept(catalog, v, facts, v.claims);
    ClaimsKept(catalog, v, facts, v.evidence);
  }

  lemma EvidenceIsGood(catalog: Catalog, v: View, ev: Event)
    requires Good(catalog, v)
    ensures var w := v.(evidence := v.evidence + {ev}); Good(catalog, w) && Grows(v, w)
  {
    hide JournalOk, OutboxOk, WireOk, RegistryOk;
    ClaimsKept(catalog, v, v.facts, v.evidence + {ev});
  }

  lemma ClaimIsGood(catalog: Catalog, v: View, id: InvoiceId)
    requires Good(catalog, v) && PaidFor(v.facts, v.evidence, id)
    ensures var w := v.(claims := v.claims + {id}); Good(catalog, w) && Grows(v, w)
  {
    hide OutboxOk, WireOk, RegistryOk;
    EntriesKept(catalog, v, v.facts, v.claims + {id});
  }

  lemma CompleteCreateKeeps(catalog: Catalog, s: Sys, key: string, inv: Invoice)
    requires Inv(catalog, s)
    ensures Inv(catalog, DoComplete(catalog, s, key, inv))
  {
    hide Good, Grows;
    var s' := DoComplete(catalog, s, key, inv);
    if s'.store.invoices != s.store.invoices {
      assert s'.store.invoices == s.store.invoices[inv.id := inv];
      NewInvoiceIsGood(catalog, ViewOf(s), Fact(inv));
      assert ViewOf(s') == ViewOf(s).(facts := ViewOf(s).facts[inv.id := Fact(inv)]);
      MoveKeeps(catalog, s, s', 0);
    } else {
      SameViewKeeps(catalog, s, s', 0);
    }
  }

  lemma VerdictKeepsFacts(s: Store, ev: Event)
    ensures Facts(Verdict(s, ev).invoices) == Facts(s.invoices)
    ensures Verdict(s, ev) == s.(invoices := Verdict(s, ev).invoices)
  {
    hide Facts, Covers, RightRail;
    if ev.invoice in s.invoices {
      FactsOfStatus(s.invoices, ev.invoice, Invalid);
      FactsOfStatus(s.invoices, ev.invoice, ev.status);
    }
  }

  lemma ReceiveKeeps(catalog: Catalog, s: Sys, task: nat, ev: Event)
    requires Inv(catalog, s)
    ensures Inv(catalog, DoReceive(s, task, ev))
  {
    hide Good, Grows, Verdict, Covers;
    if task !in s.tasks && (ev.provider, ev.externalId) !in s.store.events {
      var s' := DoReceive(s, task, ev);
      EvidenceIsGood(catalog, ViewOf(s), ev);
      if ev.invoice in s.store.invoices { InvoiceKey(catalog, ViewOf(s), ev.invoice); }
      ReceiveView(s, task, ev);
      MoveKeeps(catalog, s, s', task);
    }
  }

  lemma ReceiveView(s: Sys, task: nat, ev: Event)
    requires task !in s.tasks && (ev.provider, ev.externalId) !in s.store.events
    ensures ViewOf(DoReceive(s, task, ev)) == ViewOf(s).(evidence := ViewOf(s).evidence + {ev})
    ensures DoReceive(s, task, ev).store.settled == s.store.settled
  {
    hide Verdict, Covers, Facts;
    VerdictKeepsFacts(s.store, ev);
  }

  lemma PaidTaskIsEvidence(v: View, t: Task)
    requires t.Paid? && TaskOk(v, t)
    ensures PaidFor(v.facts, v.evidence, t.inv.id) && Known(v, t.inv)
  {
    assert Settling(t.ev, v.facts[t.inv.id]);
  }

  lemma ClaimKeeps(catalog: Catalog, s: Sys, task: nat, clock: Time)
    requires Inv(catalog, s)
    ensures Inv(catalog, DoClaim(s, task, clock))
  {
    hide Good, Grows, PaidFor, Settling;
    var s' := DoClaim(s, task, clock);
    if task in s.tasks && s.tasks[task].Paid? {
      var v, inv := ViewOf(s), s.tasks[task].inv;
      PaidTaskIsEvidence(v, s.tasks[task]);
      ClaimIsGood(catalog, v, inv.id);
      ClaimView(s, task, clock);
      MoveKeeps(catalog, s, s', task);
    }
  }

  lemma ClaimView(s: Sys, task: nat, clock: Time)
    requires task in s.tasks && s.tasks[task].Paid?
    ensures ViewOf(DoClaim(s, task, clock)) == ViewOf(s).(claims := s.store.settled.Keys + {s.tasks[task].inv.id})
  {
    hide Facts, DoClaim, ClaimSettlement;
    var i := s.tasks[task].inv.id;
    if i in s.store.settled {
      ClaimLost(s, task, clock);
      assert s.store.settled.Keys + {i} == s.store.settled.Keys;
    } else {
      ClaimTaken(s, task, clock);
      assert s.store.settled[i := Settlement(clock, 0, 0)].Keys == s.store.settled.Keys + {i};
    }
  }

  lemma ClaimLost(s: Sys, task: nat, clock: Time)
    requires task in s.tasks && s.tasks[task].Paid? && s.tasks[task].inv.id in s.store.settled
    ensures DoClaim(s, task, clock) == Leave(s, task)
  {
  }

  lemma ClaimTaken(s: Sys, task: nat, clock: Time)
    requires task in s.tasks && s.tasks[task].Paid? && s.tasks[task].inv.id !in s.store.settled
    ensures DoClaim(s, task, clock) ==
      Enter(s.(store := s.store.(settled := s.store.settled[s.tasks[task].inv.id := Settlement(clock, 0, 0)])),
            task, Crediting(s.tasks[task].inv))
  {
  }

  // ----- the control-plane ------------------------------------------------------------------

  /** Swapping in another good registry, with more answers, keeps the rest. */
  lemma SwapIsGood(catalog: Catalog, v: View, registry: Registry, accepted: set<Request>)
    requires Good(catalog, v) && RegistryOk(v.journal, registry, accepted)
    requires OutboxOk(v.journal, v.deliveries, v.invoiceDeliveries, accepted) && v.accepted <= accepted <= v.wire
    requires forall sub :: sub in v.registry.subs ==> sub in registry.subs && registry.subs[sub].user == v.registry.subs[sub].user
    ensures Good(catalog, v.(registry := registry, accepted := accepted))
    ensures Grows(v, v.(registry := registry, accepted := accepted))
  {
    hide JournalOk, OutboxOk, RegistryOk, InvoicesOk;
  }

  /** Writing one record: what it takes to keep the register good. */
  lemma WriteIsOk(journal: map<SubId, seq<Delivery>>, registry: Registry, registry': Registry, accepted: set<Request>, sub: SubId)
    requires RegistryOk(journal, registry, accepted)
    requires sub in registry'.subs && registry'.subs == registry.subs[sub := registry'.subs[sub]]
    requires registry'.hashes == registry.hashes
    requires RecordOk(LogOf(journal, sub), registry'.subs[sub], HashOf(registry.hashes, sub), accepted)
    requires LinksOk(registry'.links, Owners(registry.subs)[sub := registry'.subs[sub].user])
    requires AcceptedOk(accepted, Revisions(registry.subs)[sub := registry'.subs[sub].billingRevision])
    ensures RegistryOk(journal, registry', accepted)
  {
    hide RecordOk, LinksOk, AcceptedOk;
    ProjectionsOfWrite(registry.subs, sub, registry'.subs[sub]);
  }

  lemma ProjectionsOfWrite(subs: map<SubId, Subscription>, sub: SubId, r: Subscription)
    ensures Owners(subs[sub := r]) == Owners(subs)[sub := r.user]
    ensures Revisions(subs[sub := r]) == Revisions(subs)[sub := r.billingRevision]
  {
  }

  lemma RegistryParts(journal: map<SubId, seq<Delivery>>, registry: Registry, accepted: set<Request>)
    requires RegistryOk(journal, registry, accepted)
    ensures RecordsOk(journal, registry.subs, registry.hashes, accepted)
    ensures LinksOk(registry.links, Owners(registry.subs)) && AcceptedOk(accepted, Revisions(registry.subs))
  {
    hide RecordsOk, LinksOk, AcceptedOk;
  }

  lemma OneRecord(journal: map<SubId, seq<Delivery>>, registry: Registry, accepted: set<Request>, sub: SubId)
    requires RegistryOk(journal, registry, accepted) && sub in registry.subs
    ensures RecordOk(LogOf(journal, sub), registry.subs[sub], HashOf(registry.hashes, sub), accepted)
  {
    hide RecordOk, LinksOk, AcceptedOk;
  }

  lemma NewSubscriptionIsOk(v: View, user: UserId, plan: Plan, newId: SubId, now: Time)
    requires RegistryOk(v.journal, v.registry, v.accepted) && newId !in v.registry.subs && newId != ""
    requires user in v.registry.links && v.registry.links[user] == None
    ensures
      var r := Subscription(newId, user, plan, Expired, Some(now), None, 0);
      RegistryOk(v.journal,
                 v.registry.(subs := v.registry.subs[newId := r], links := v.registry.links[user := Some(newId)]), v.accepted)
  {
    hide RegistryOk, RecordOk, LinksOk, AcceptedOk;
    var r := Subscription(newId, user, plan, Expired, Some(now), None, 0);
    RegistryParts(v.journal, v.registry, v.accepted);
    NewLinkIsOk(v.registry.links, Owners(v.registry.subs), user, newId);
    MoreRevisions(v.accepted, Revisions(v.registry.subs), newId);
    BlankRecordIsOk(r, v.accepted);
    assert LogOf(v.journal, newId) == [] && HashOf(v.registry.hashes, newId) == None;
    WriteIsOk(v.journal, v.registry,
              v.registry.(subs := v.registry.subs[newId := r], links := v.registry.links[user := Some(newId)]), v.accepted, newId);
  }

  lemma NewLinkIsOk(links: map<UserId, Option<SubId>>, owners: map<SubId, UserId>, user: UserId, newId: SubId)
    requires LinksOk(links, owners) && user in links && newId !in owners && newId != ""
    requires links[user] == None || links[user].value == ""
    ensures LinksOk(links[user := Some(newId)], owners[newId := user])
  {
  }

  lemma MoreRevisions(accepted: set<Request>, revisions: map<SubId, nat>, newId: SubId)
    requires AcceptedOk(accepted, revisions) && newId !in revisions
    ensures AcceptedOk(accepted, revisions[newId := 0])
  {
  }

  lemma BlankRecordIsOk(r: Subscription, accepted: set<Request>)
    requires r.billingRevision == 0 && r.status == Expired
    ensures RecordOk([], r, None, accepted)
  {
  }

  lemma NewUserIsOk(v: View, user: UserId)
    requires RegistryOk(v.journal, v.registry, v.accepted) && user !in v.registry.links
    ensures RegistryOk(v.journal, v.registry.(links := v.registry.links[user := None]), v.accepted)
  {
    hide RecordsOk, AcceptedOk;
  }

  lemma CancelIsOk(v: View, sub: SubId)
    requires RegistryOk(v.journal, v.registry, v.accepted) && sub in v.registry.subs
    ensures RegistryOk(v.journal, CancelSubscription(v.registry, sub).value, v.accepted)
  {
    hide RegistryOk, RecordOk, LinksOk, AcceptedOk;
    RegistryParts(v.journal, v.registry, v.accepted);
    OneRecord(v.journal, v.registry, v.accepted, sub);
    CanceledIsOk(LogOf(v.journal, sub), v.registry.subs[sub], HashOf(v.registry.hashes, sub), v.accepted);
    var r := v.registry.subs[sub];
    assert Owners(v.registry.subs)[sub := r.user] == Owners(v.registry.subs);
    assert Revisions(v.registry.subs)[sub := r.billingRevision] == Revisions(v.registry.subs);
    WriteIsOk(v.journal, v.registry, CancelSubscription(v.registry, sub).value, v.accepted, sub);
  }

  lemma CanceledIsOk(log: seq<Delivery>, r: Subscription, hash: Option<BillingState>, accepted: set<Request>)
    requires RecordOk(log, r, hash, accepted)
    ensures RecordOk(log, r.(status := Canceled), hash, accepted)
  {
  }

  lemma RegistryMoveKeeps(catalog: Catalog, s: Sys, s': Sys)
    requires Inv(catalog, s) && Good(catalog, ViewOf(s')) && Grows(ViewOf(s), ViewOf(s'))
    requires s'.tasks == s.tasks && s'.store == s.store
    ensures Inv(catalog, s')
  {
    hide Good, Grows;
    MoveKeeps(catalog, s, s', 0);
  }

  lemma RegistryPart(catalog: Catalog, v: View)
    requires Good(catalog, v)
    ensures RegistryOk(v.journal, v.registry, v.accepted) && v.accepted <= v.wire
    ensures OutboxOk(v.journal, v.deliveries, v.invoiceDeliveries, v.accepted)
  {
    hide JournalOk, OutboxOk, RegistryOk, InvoicesOk;
  }

  lemma EnsureRemoteKeeps(catalog: Catalog, s: Sys, user: UserId, plan: Plan, newId: SubId, now: Time)
    requires Inv(catalog, s)
    ensures Inv(catalog, DoEnsureRemote(s, user, plan, newId, now))
  {
    hide Good, Grows, TaskOk, RegistryOk, OutboxOk;
    var s' := DoEnsureRemote(s, user, plan, newId, now);
    if s' != s {
      RegistryPart(catalog, ViewOf(s));
      NewSubscriptionIsOk(ViewOf(s), user, plan, newId, now);
      SwapIsGood(catalog, ViewOf(s), s'.registry, s.accepted);
      RegistryMoveKeeps(catalog, s, s');
    }
  }

  lemma OperatorMoveKeeps(catalog: Catalog, s: Sys, m: Move)
    requires Inv(catalog, s) && (m.RegisterUser? || m.Cancel?)
    ensures Inv(catalog, Apply(catalog, s, m))
  {
    hide Good, Grows, TaskOk, RegistryOk, OutboxOk;
    var s' := Apply(catalog, s, m);
    if s' != s {
      RegistryPart(catalog, ViewOf(s));
      if m.RegisterUser? { NewUserIsOk(ViewOf(s), m.user); } else { CancelIsOk(ViewOf(s), m.sub); }
      SwapIsGood(catalog, ViewOf(s), s'.registry, s.accepted);
      RegistryMoveKeeps(catalog, s, s');
    }
  }

  /** A subscription's journal is a log the control-plane accepts. */
  lemma JournalIsLog(catalog: Catalog, v: View, sub: SubId)
    requires CatalogOk(catalog) && sub in v.journal
    requires JournalOk(catalog, v.journal, v.schedules, v.deliveries, v.facts, v.claims)
    ensures IsLog(States(v.journal[sub]))
  {
    var log := v.journal[sub];
    assert LogOk(catalog, sub, log, v.deliveries, v.facts, v.claims);
    forall k | 0 <= k < |log|
      ensures Validates(States(log)[k]) && States(log)[k].plan != "" && States(log)[k].revision == k + 1
    {
      assert EntryOk(catalog, sub, log, k, v.deliveries, v.facts, v.claims);
      PeriodIsPositive(catalog, sub, log, k, v);
    }
  }

  lemma {:induction false} PeriodIsPositive(catalog: Catalog, sub: SubId, log: seq<Delivery>, k: nat, v: View)
    requires CatalogOk(catalog) && k < |log| && LogOk(catalog, sub, log, v.deliveries, v.facts, v.claims)
    ensures 0 < log[k].expiresAt <= log[k].graceUntil && log[k].plan in catalog
    decreases k
  {
    assert EntryOk(catalog, sub, log, k, v.deliveries, v.facts, v.claims);
    if k > 0 { PeriodIsPositive(catalog, sub, log, k - 1, v); }
  }

  /** The journal side of an arrival: the request is an entry of its journal. */
  lemma RequestIsEntry(catalog: Catalog, v: View, req: Request)
    requires CatalogOk(catalog) && Good(catalog, v) && req in v.wire
    ensures
      var log, k := LogOf(v.journal, req.sub), req.state.revision - 1;
      && req.sub in v.journal && IsLog(States(log))
      && 0 <= k < |log| && States(log)[k] == req.state && RequestOf(log[k]) == req
  {
    hide OutboxOk, RegistryOk, InvoicesOk, IsLog, Follows;
    JournalIsLog(catalog, v, req.sub);
    assert RequestOk(v.journal, req);
    var log := v.journal[req.sub];
    assert LogOk(catalog, req.sub, log, v.deliveries, v.facts, v.claims);
    assert EntryOk(catalog, req.sub, log, req.state.revision - 1, v.deliveries, v.facts, v.claims);
  }

  lemma ArrivalIsGood(catalog: Catalog, v: View, req: Request)
    requires CatalogOk(catalog) && Good(catalog, v) && req in v.wire
    ensures ApplyBillingState(v.registry, req.sub, req.state).Ok?
    ensures
      var registry, accepted := ApplyBillingState(v.registry, req.sub, req.state).value, v.accepted + {req};
      && Good(catalog, v.(registry := registry, accepted := accepted))
      && Grows(v, v.(registry := registry, accepted := accepted))
  {
    hide Good, Grows, OutboxOk, RegistryOk, ApplyBillingState, IsLog;
    RegistryPart(catalog, v);
    RequestIsEntry(catalog, v, req);
    RecordPart(v, req.sub);
    var log, k := v.journal[req.sub], req.state.revision - 1;
    ApplyLogged(v.registry, req.sub, States(log), k);
    AcceptedOutbox(v, req);
    var registry := ApplyBillingState(v.registry, req.sub, req.state).value;
    ArrivalRegistry(v, registry, req, log);
    SwapIsGood(catalog, v, registry, v.accepted + {req});
  }

  lemma RecordPart(v: View, sub: SubId)
    requires RegistryOk(v.journal, v.registry, v.accepted) && sub in v.journal
    ensures sub in v.registry.subs && RegisterHolds(v.registry, sub, States(v.journal[sub]))
    ensures v.registry.hashes.Keys <= v.registry.subs.Keys
  {
    hide Holds, LinksOk, AcceptedOk;
    assert RecordOk(LogOf(v.journal, sub), v.registry.subs[sub], HashOf(v.registry.hashes, sub), v.accepted);
  }

  lemma AcceptedOutbox(v: View, req: Request)
    requires OutboxOk(v.journal, v.deliveries, v.invoiceDeliveries, v.accepted)
    ensures OutboxOk(v.journal, v.deliveries, v.invoiceDeliveries, v.accepted + {req})
  {
    forall id | id in v.deliveries ensures RowOk(v.journal, v.accepted + {req}, id, v.deliveries[id]) {
      assert RowOk(v.journal, v.accepted, id, v.deliveries[id]);
    }
  }

  lemma HigherRevision(accepted: set<Request>, subs: map<SubId, Subscription>, subs': map<SubId, Subscription>, req: Request)
    requires AcceptedOk(accepted, Revisions(subs)) && subs'.Keys == subs.Keys && req.sub in subs
    requires forall sub :: sub in subs ==> subs'[sub].billingRevision >= subs[sub].billingRevision
    requires subs'[req.sub].billingRevision >= req.state.revision
    ensures AcceptedOk(accepted + {req}, Revisions(subs'))
  {
  }

  lemma ArrivalRegistry(v: View, registry: Registry, req: Request, log: seq<Delivery>)
    requires RegistryOk(v.journal, v.registry, v.accepted)
    requires req.sub in v.journal && log == v.journal[req.sub]
    requires 0 < req.state.revision <= |log| && RequestOf(log[req.state.revision - 1]) == req
    requires registry.links == v.registry.links && registry.subs.Keys == v.registry.subs.Keys
    requires registry.hashes.Keys <= v.registry.subs.Keys
    requires req.sub in registry.subs && registry.subs[req.sub].user == v.registry.subs[req.sub].user
    requires Holds(registry.subs[req.sub], HashOf(registry.hashes, req.sub), States(log))
    requires
      var was := v.registry.subs[req.sub].billingRevision;
      && registry.subs[req.sub].billingRevision == (if was < req.state.revision then req.state.revision else was)
      && (was >= req.state.revision ==> registry == v.registry)
    requires forall other :: other != req.sub && other in v.registry.subs ==>
      registry.subs[other] == v.registry.subs[other] && HashOf(registry.hashes, other) == HashOf(v.registry.hashes, other)
    ensures RegistryOk(v.journal, registry, v.accepted + {req})
  {
    hide RegistryOk, RecordOk, Holds, LinksOk, AcceptedOk;
    var accepted := v.accepted + {req};
    RegistryParts(v.journal, v.registry, v.accepted);
    HigherRevision(v.accepted, v.registry.subs, registry.subs, req);
    assert Owners(registry.subs) == Owners(v.registry.subs);
    forall sub | sub in registry.subs
      ensures RecordOk(LogOf(v.journal, sub), registry.subs[sub], HashOf(registry.hashes, sub), accepted)
    {
      OneRecord(v.journal, v.registry, v.accepted, sub);
      if sub == req.sub {
        ArrivalRecord(log, v.registry.subs[sub], registry.subs[sub], HashOf(v.registry.hashes, sub), HashOf(registry.hashes, sub),
                      v.accepted, req);
      } else {
        MoreAccepted(LogOf(v.journal, sub), registry.subs[sub], HashOf(registry.hashes, sub), v.accepted, req);
      }
    }
    RegistryFromParts(v.journal, registry, accepted);
  }

  lemma RegistryFromParts(journal: map<SubId, seq<Delivery>>, registry: Registry, accepted: set<Request>)
    requires forall sub :: sub in registry.subs ==>
      RecordOk(LogOf(journal, sub), registry.subs[sub], HashOf(registry.hashes, sub), accepted)
    requires journal.Keys <= registry.subs.Keys && registry.hashes.Keys <= registry.subs.Keys
    requires LinksOk(registry.links, Owners(registry.subs)) && AcceptedOk(accepted, Revisions(registry.subs))
    ensures RegistryOk(journal, registry, accepted)
  {
    hide RecordOk, LinksOk, AcceptedOk;
  }

  lemma MoreAccepted(log: seq<Delivery>, r: Subscription, hash: Option<BillingState>, accepted: set<Request>, req: Request)
    requires RecordOk(log, r, hash, accepted)
    ensures RecordOk(log, r, hash, accepted + {req})
  {
  }

  lemma ArrivalRecord(log: seq<Delivery>, r: Subscription, r': Subscription, hash: Option<BillingState>,
                      hash': Option<BillingState>, accepted: set<Request>, req: Request)
    requires RecordOk(log, r, hash, accepted) && Holds(r', hash', States(log)) && r'.user == r.user
    requires 0 < req.state.revision <= |log| && RequestOf(log[req.state.revision - 1]) == req
    requires r'.billingRevision == if r.billingRevision < req.state.revision then req.state.revision else r.billingRevision
    ensures RecordOk(log, r', hash', accepted + {req})
  {
    hide Holds;
  }

  lemma ArriveKeeps(catalog: Catalog, s: Sys, req: Request)
    requires CatalogOk(catalog) && Inv(catalog, s)
    ensures Inv(catalog, DoArrive(s, req))
    ensures req in s.wire ==> req in DoArrive(s, req).accepted
  {
    hide Good, Grows, TaskOk, ApplyBillingState;
    if req in s.wire {
      ArrivalIsGood(catalog, ViewOf(s), req);
      RegistryMoveKeeps(catalog, s, DoArrive(s, req));
    }
  }

  // ----- staging ----------------------------------------------------------------------------

  /** What justifies appending `d` to the journal of its subscription. */
  ghost predicate Appendable(catalog: Catalog, v: View, d: Delivery) {
    var log := LogOf(v.journal, d.sub);
    && d.sub in v.registry.subs && d.user == v.registry.subs[d.sub].user
    && d.id !in v.deliveries && d.deliveredAt == None && d.revision == |log| + 1
    && Follows(catalog, Before(log + [d], |log|), d)
    && (d.invoice.Some? ==> CreditEntryOk(d, v.facts, v.claims))
    && (d.invoice.None? ==> d.id == ForRevision(d.sub, d.revision))
  }

  function Appended(v: View, d: Delivery): View {
    v.(journal := v.journal[d.sub := LogOf(v.journal, d.sub) + [d]],
       schedules := v.schedules[d.sub := ScheduleOf(d)],
       deliveries := v.deliveries[d.id := d],
       invoiceDeliveries := if d.invoice.Some? then v.invoiceDeliveries[d.invoice.value := d.id] else v.invoiceDeliveries)
  }

  lemma AppendIsGood(catalog: Catalog, v: View, d: Delivery)
    requires Good(catalog, v) && Appendable(catalog, v, d)
    ensures Good(catalog, Appended(v, d)) && Grows(v, Appended(v, d))
  {
    hide JournalOk, OutboxOk, WireOk, RegistryOk, InvoicesOk, Follows;
    AppendJournal(catalog, v, d);
    AppendOutbox(v, d);
    AppendRegistry(catalog, v, d);
  }

  lemma AppendJournal(catalog: Catalog, v: View, d: Delivery)
    requires JournalOk(catalog, v.journal, v.schedules, v.deliveries, v.facts, v.claims) && Appendable(catalog, v, d)
    ensures
      var w := Appended(v, d);
      JournalOk(catalog, w.journal, w.schedules, w.deliveries, w.facts, w.claims)
  {
    hide LogOk, Appendable;
    var w := Appended(v, d);
    forall sub | sub in w.journal ensures LogOk(catalog, sub, w.journal[sub], w.deliveries, w.facts, w.claims) {
      if sub == d.sub { AppendLog(catalog, v, d); } else { OtherLog(catalog, v, sub, v.journal[sub], d); }
    }
  }

  /** Entries stay justified when the outbox gains a row. */
  lemma OtherLog(catalog: Catalog, v: View, sub: SubId, log: seq<Delivery>, d: Delivery)
    requires LogOk(catalog, sub, log, v.deliveries, v.facts, v.claims) && Appendable(catalog, v, d)
    ensures LogOk(catalog, sub, log, v.deliveries[d.id := d], v.facts, v.claims)
  {
    hide Follows, CreditEntryOk;
    var deliveries := v.deliveries[d.id := d];
    forall k | 0 <= k < |log| ensures EntryOk(catalog, sub, log, k, deliveries, v.facts, v.claims) {
      assert EntryOk(catalog, sub, log, k, v.deliveries, v.facts, v.claims);
    }
  }

  lemma AppendLog(catalog: Catalog, v: View, d: Delivery)
    requires JournalOk(catalog, v.journal, v.schedules, v.deliveries, v.facts, v.claims) && Appendable(catalog, v, d)
    ensures LogOk(catalog, d.sub, LogOf(v.journal, d.sub) + [d], v.deliveries[d.id := d], v.facts, v.claims)
  {
    hide Follows, CreditEntryOk;
    var log, deliveries := LogOf(v.journal, d.sub), v.deliveries[d.id := d];
    var longer := log + [d];
    if d.sub in v.journal { OtherLog(catalog, v, d.sub, log, d); }
    forall k | 0 <= k < |longer| ensures EntryOk(catalog, d.sub, longer, k, deliveries, v.facts, v.claims) {
      if k < |log| {
        assert EntryOk(catalog, d.sub, log, k, deliveries, v.facts, v.claims);
        assert Before(longer, k) == Before(log, k);
      }
    }
  }

  lemma AppendOutbox(v: View, d: Delivery)
    requires OutboxOk(v.journal, v.deliveries, v.invoiceDeliveries, v.accepted) && WireOk(v.journal, v.wire, v.accepted)
    requires d.id !in v.deliveries && d.deliveredAt == None && d.revision == |LogOf(v.journal, d.sub)| + 1
    requires if d.invoice.Some? then d.id == ForInvoice(d.invoice.value) else d.id.ForRevision?
    ensures
      var w := Appended(v, d);
      OutboxOk(w.journal, w.deliveries, w.invoiceDeliveries, w.accepted) && WireOk(w.journal, w.wire, w.accepted)
  {
    hide RequestOf, StateOf;
    var w := Appended(v, d);
    forall id | id in w.deliveries ensures RowOk(w.journal, w.accepted, id, w.deliveries[id]) {
      if id != d.id { assert RowOk(v.journal, v.accepted, id, v.deliveries[id]); }
    }
    forall req | req in w.wire ensures RequestOk(w.journal, req) {
      assert RequestOk(v.journal, req);
    }
  }

  lemma AppendRegistry(catalog: Catalog, v: View, d: Delivery)
    requires RegistryOk(v.journal, v.registry, v.accepted) && Appendable(catalog, v, d)
    ensures RegistryOk(Appended(v, d).journal, v.registry, v.accepted)
  {
    hide Follows, CreditEntryOk, Holds, LinksOk, AcceptedOk;
    var journal := Appended(v, d).journal;
    forall sub | sub in v.registry.subs
      ensures RecordOk(LogOf(journal, sub), v.registry.subs[sub], HashOf(v.registry.hashes, sub), v.accepted)
    {
      assert RecordOk(LogOf(v.journal, sub), v.registry.subs[sub], HashOf(v.registry.hashes, sub), v.accepted);
      if sub == d.sub {
        LongerLogHolds(v.registry.subs[sub], HashOf(v.registry.hashes, sub), LogOf(v.journal, sub), d);
      }
    }
  }

  lemma LongerLogHolds(r: Subscription, hash: Option<BillingState>, log: seq<Delivery>, d: Delivery)
    requires Holds(r, hash, States(log))
    ensures Holds(r, hash, States(log + [d])) && r.billingRevision <= |log|
  {
    if r.billingRevision > 0 { assert States(log + [d])[r.billingRevision - 1] == States(log)[r.billingRevision - 1]; }
  }

  lemma CreditIsAppendable(catalog: Catalog, v: View, s: Store, inv: Invoice, sub: SubId, now: Time)
    requires CatalogOk(catalog) && Good(catalog, v) && inv.plan in catalog && now > 0
    requires v.schedules == s.schedules && v.facts == Facts(s.invoices)
    requires TaskOk(v, Ensured(inv, sub)) && inv.id !in v.invoiceDeliveries
    ensures inv.id in s.invoices && s.invoices[inv.id].user == inv.user
    ensures var d := CreditTarget(s, inv.id, sub, now, catalog[inv.plan]);
      Appendable(catalog, v, d) && d.invoice == Some(inv.id)
  {
    hide Good;
    var d, log := CreditTarget(s, inv.id, sub, now, catalog[inv.plan]), LogOf(v.journal, sub);
    FactIsKnown(v, s, inv);
    CreditIsNew(catalog, v, inv.id);
    if sub in v.schedules {
      ScheduleIsLast(catalog, v, sub);
      assert Before(log + [d], |log|) == Some(log[|log| - 1]);
    } else {
      NoSchedule(catalog, v, sub);
    }
    assert CreditFollows(catalog, Before(log + [d], |log|), d);
  }

  lemma FactIsKnown(v: View, s: Store, inv: Invoice)
    requires v.facts == Facts(s.invoices) && Known(v, inv)
    ensures inv.id in s.invoices && s.invoices[inv.id].user == inv.user && s.invoices[inv.id].plan == inv.plan
    ensures v.facts[inv.id].user == inv.user && v.facts[inv.id].plan == inv.plan
  {
    assert v.facts[inv.id] == Fact(s.invoices[inv.id]);
  }

  lemma CreditIsNew(catalog: Catalog, v: View, i: InvoiceId)
    requires Good(catalog, v) && i !in v.invoiceDeliveries
    ensures ForInvoice(i) !in v.deliveries
  {
    hide JournalOk, WireOk, RegistryOk, InvoicesOk, RowOk;
  }

  lemma NoSchedule(catalog: Catalog, v: View, sub: SubId)
    requires Good(catalog, v) && sub !in v.schedules
    ensures sub !in v.journal
  {
    hide OutboxOk, WireOk, RegistryOk, InvoicesOk, LogOk;
  }

  lemma StageKeeps(catalog: Catalog, s: Sys, task: nat, now: Time)
    requires CatalogOk(catalog) && Inv(catalog, s)
    ensures Inv(catalog, DoStage(catalog, s, task, now))
  {
    hide Good, Grows, Appendable;
    var s' := DoStage(catalog, s, task, now);
    if task in s.tasks && s.tasks[task].Ensured? && s.tasks[task].inv.plan in catalog && now > 0 {
      var Ensured(inv, sub) := s.tasks[task];
      assert TaskOk(ViewOf(s), s.tasks[task]);
      if inv.id in s.store.invoiceDeliveries {
        IndexedIsStaged(catalog, ViewOf(s), inv.id);
        SameViewKeeps(catalog, s, s', task);
      } else {
        NewCreditKeeps(catalog, s, task, inv, sub, now);
      }
    }
  }

  lemma NewCreditKeeps(catalog: Catalog, s: Sys, task: nat, inv: Invoice, sub: SubId, now: Time)
    requires CatalogOk(catalog) && Inv(catalog, s) && task in s.tasks && s.tasks[task] == Ensured(inv, sub)
    requires inv.plan in catalog && now > 0 && inv.id !in s.store.invoiceDeliveries
    ensures Inv(catalog, DoStage(catalog, s, task, now))
  {
    hide Good, Grows, Appendable, CreditTarget;
    var s' := DoStage(catalog, s, task, now);
    assert TaskOk(ViewOf(s), s.tasks[task]);
    CreditIsAppendable(catalog, ViewOf(s), s.store, inv, sub, now);
    var d := CreditTarget(s.store, inv.id, sub, now, catalog[inv.plan]);
    AppendIsGood(catalog, ViewOf(s), d);
    CreditNames(s.store, inv.id, sub, now, catalog[inv.plan]);
    NewCreditView(catalog, s, task, inv, sub, now);
    MoveKeeps(catalog, s, s', task);
  }

  lemma NewCreditView(catalog: Catalog, s: Sys, task: nat, inv: Invoice, sub: SubId, now: Time)
    requires task in s.tasks && s.tasks[task] == Ensured(inv, sub) && inv.plan in catalog && now > 0
    requires inv.id !in s.store.invoiceDeliveries && inv.id in s.store.invoices && s.store.invoices[inv.id].user == inv.user
    requires CreditTarget(s.store, inv.id, sub, now, catalog[inv.plan]).invoice == Some(inv.id)
    ensures ViewOf(DoStage(catalog, s, task, now)) == Appended(ViewOf(s), CreditTarget(s.store, inv.id, sub, now, catalog[inv.plan]))
  {
    hide Facts, CreditTarget, ScheduleOf;
    CreditNames(s.store, inv.id, sub, now, catalog[inv.plan]);
  }

  lemma CreditNames(s: Store, id: InvoiceId, sub: SubId, now: Time, terms: Terms)
    requires id in s.invoices
    ensures var d := CreditTarget(s, id, sub, now, terms); d.sub == sub && d.id == ForInvoice(id)
  {
  }

  lemma IndexedIsStaged(catalog: Catalog, v: View, i: InvoiceId)
    requires Good(catalog, v) && i in v.invoiceDeliveries
    ensures v.invoiceDeliveries[i] in v.deliveries && v.deliveries[v.invoiceDeliveries[i]].id == v.invoiceDeliveries[i]
  {
    assert RowOk(v.journal, v.accepted, ForInvoice(i), v.deliveries[ForInvoice(i)]);
  }

  lemma TransitionIsAppendable(catalog: Catalog, v: View, sched: Schedule, now: Time)
    requires CatalogOk(catalog) && Good(catalog, v) && sched.sub in v.schedules && v.schedules[sched.sub] == sched
    requires Transition(sched, now).Some? && Transition(sched, now).value != sched.status
    ensures Appendable(catalog, v, TransitionTarget(sched.sub, sched, Transition(sched, now).value, now))
  {
    hide WireOk, InvoicesOk, OutboxOk, Holds;
    var d := TransitionTarget(sched.sub, sched, Transition(sched, now).value, now);
    var log := v.journal[sched.sub];
    assert LogOk(catalog, sched.sub, log, v.deliveries, v.facts, v.claims);
    assert EntryOk(catalog, sched.sub, log, |log| - 1, v.deliveries, v.facts, v.claims);
    assert RecordOk(log, v.registry.subs[sched.sub], HashOf(v.registry.hashes, sched.sub), v.accepted);
    assert Before(log + [d], |log|) == Some(log[|log| - 1]);
    if d.id in v.deliveries { RowRevision(catalog, v, d.id); }
  }

  /** A row named after a revision belongs to that subscription and revision. */
  lemma RowRevision(catalog: Catalog, v: View, id: DeliveryId)
    requires Good(catalog, v) && id in v.deliveries && id.ForRevision?
    ensures id.sub in v.journal && 1 <= id.revision <= |v.journal[id.sub]|
  {
    hide WireOk, RegistryOk, InvoicesOk;
    var d := v.deliveries[id];
    assert RowOk(v.journal, v.accepted, id, d);
    assert LogOk(catalog, d.sub, v.journal[d.sub], v.deliveries, v.facts, v.claims);
    assert EntryOk(catalog, d.sub, v.journal[d.sub], d.revision - 1, v.deliveries, v.facts, v.claims);
  }

  lemma SweepStageKeeps(catalog: Catalog, s: Sys, task: nat)
    requires CatalogOk(catalog) && Inv(catalog, s)
    ensures Inv(catalog, DoSweepStage(s, task))
  {
    hide Good, Grows, Appendable;
    var s' := DoSweepStage(s, task);
    if task in s.tasks && s.tasks[task].Sweeping? {
      var Sweeping(sched, now) := s.tasks[task];
      assert TaskOk(ViewOf(s), s.tasks[task]);
      ReadIsCurrent(catalog, ViewOf(s), sched);
      var next := Transition(sched, now);
      if next != None && next.value != sched.status && s.store.schedules[sched.sub].revision == sched.revision {
        var d := TransitionTarget(sched.sub, sched, next.value, now);
        TransitionIsAppendable(catalog, ViewOf(s), sched, now);
        AppendIsGood(catalog, ViewOf(s), d);
        assert ViewOf(s') == Appended(ViewOf(s), d);
        MoveKeeps(catalog, s, s', task);
      } else {
        SameViewKeeps(catalog, s, s', task);
      }
    }
  }

  /** A schedule read earlier whose revision is still current is still the schedule. */
  lemma ReadIsCurrent(catalog: Catalog, v: View, sched: Schedule)
    requires Good(catalog, v) && TaskOk(v, Sweeping(sched, 0))
    ensures sched.sub in v.schedules
    ensures v.schedules[sched.sub].revision == sched.revision ==> v.schedules[sched.sub] == sched
  {
    hide WireOk, InvoicesOk, OutboxOk, RegistryOk;
    var log := v.journal[sched.sub];
    assert LogOk(catalog, sched.sub, log, v.deliveries, v.facts, v.claims);
    assert EntryOk(catalog, sched.sub, log, |log| - 1, v.deliveries, v.facts, v.claims);
  }

  // ----- delivering -------------------------------------------------------------------------

  lemma SendIsGood(catalog: Catalog, v: View, d: Delivery)
    requires Good(catalog, v) && Staged(v, d)
    ensures var w := v.(wire := v.wire + {RequestOf(d)}); Good(catalog, w) && Grows(v, w)
  {
    hide JournalOk, RegistryOk, InvoicesOk;
    assert RowOk(v.journal, v.accepted, d.id, v.deliveries[d.id]);
    assert RequestOk(v.journal, RequestOf(d));
  }

  lemma SendKeeps(catalog: Catalog, s: Sys, task: nat)
    requires CatalogOk(catalog) && Inv(catalog, s)
    ensures Inv(catalog, DoSend(s, task))
  {
    hide Good, Grows;
    var s' := DoSend(s, task);
    if task in s.tasks && s.tasks[task].Delivering? {
      assert TaskOk(ViewOf(s), s.tasks[task]);
      SendIsGood(catalog, ViewOf(s), s.tasks[task].d);
      MoveKeeps(catalog, s, s', task);
    }
  }

  lemma DeliveredIsGood(catalog: Catalog, v: View, id: DeliveryId, clock: Time)
    requires Good(catalog, v) && id in v.deliveries && RequestOf(v.deliveries[id]) in v.accepted
    ensures
      var w := v.(deliveries := v.deliveries[id := v.deliveries[id].(deliveredAt := Some(clock))]);
      Good(catalog, w) && Grows(v, w)
  {
    hide OutboxOk, JournalOk, WireOk, RegistryOk, InvoicesOk;
    DeliveredJournal(catalog, v, id, clock);
    DeliveredOutbox(v, id, clock);
  }

  lemma DeliveredJournal(catalog: Catalog, v: View, id: DeliveryId, clock: Time)
    requires JournalOk(catalog, v.journal, v.schedules, v.deliveries, v.facts, v.claims) && id in v.deliveries
    ensures
      var deliveries := v.deliveries[id := v.deliveries[id].(deliveredAt := Some(clock))];
      JournalOk(catalog, v.journal, v.schedules, deliveries, v.facts, v.claims)
  {
    hide LogOk;
    var deliveries := v.deliveries[id := v.deliveries[id].(deliveredAt := Some(clock))];
    forall sub | sub in v.journal ensures LogOk(catalog, sub, v.journal[sub], deliveries, v.facts, v.claims) {
      SameTargetsLog(catalog, v, sub, v.journal[sub], deliveries);
    }
  }

  lemma DeliveredOutbox(v: View, id: DeliveryId, clock: Time)
    requires OutboxOk(v.journal, v.deliveries, v.invoiceDeliveries, v.accepted)
    requires id in v.deliveries && RequestOf(v.deliveries[id]) in v.accepted
    ensures
      var deliveries := v.deliveries[id := v.deliveries[id].(deliveredAt := Some(clock))];
      OutboxOk(v.journal, deliveries, v.invoiceDeliveries, v.accepted)
  {
    var deliveries := v.deliveries[id := v.deliveries[id].(deliveredAt := Some(clock))];
    forall x | x in deliveries ensures RowOk(v.journal, v.accepted, x, deliveries[x]) {
      assert RowOk(v.journal, v.accepted, x, v.deliveries[x]);
    }
  }

  lemma SameTargetsLog(catalog: Catalog, v: View, sub: SubId, log: seq<Delivery>, deliveries: map<DeliveryId, Delivery>)
    requires LogOk(catalog, sub, log, v.deliveries, v.facts, v.claims)
    requires forall id :: id in v.deliveries ==> id in deliveries && SameTarget(v.deliveries[id], deliveries[id])
    ensures LogOk(catalog, sub, log, deliveries, v.facts, v.claims)
  {
    hide Follows, CreditEntryOk;
    forall k | 0 <= k < |log| ensures EntryOk(catalog, sub, log, k, deliveries, v.facts, v.claims) {
      assert EntryOk(catalog, sub, log, k, v.deliveries, v.facts, v.claims);
    }
  }

  /** A credit row names an invoice that exists. */
  lemma RowInvoice(catalog: Catalog, v: View, id: DeliveryId)
    requires Good(catalog, v) && id in v.deliveries
    ensures v.deliveries[id].id == id
    ensures v.deliveries[id].invoice.Some? ==> v.deliveries[id].invoice.value in v.facts && id == ForInvoice(v.deliveries[id].invoice.value)
    ensures v.deliveries[id].deliveredAt.Some? ==> RequestOf(v.deliveries[id]) in v.accepted
  {
    hide WireOk, RegistryOk, InvoicesOk, Follows;
    var d := v.deliveries[id];
    assert RowOk(v.journal, v.accepted, id, d);
    assert LogOk(catalog, d.sub, v.journal[d.sub], v.deliveries, v.facts, v.claims);
    assert EntryOk(catalog, d.sub, v.journal[d.sub], d.revision - 1, v.deliveries, v.facts, v.claims);
  }

  lemma CompleteDeliveryKeeps(catalog: Catalog, s: Sys, task: nat, clock: Time)
    requires CatalogOk(catalog) && Inv(catalog, s)
    ensures Inv(catalog, DoCompleteDelivery(s, task, clock))
    ensures task in s.tasks && s.tasks[task].Accepted? ==>
      CompleteBillingDelivery(s.store, s.tasks[task].d.id, clock).Ok?
  {
    hide Good, Grows;
    var s' := DoCompleteDelivery(s, task, clock);
    if task in s.tasks && s.tasks[task].Accepted? {
      var v, id := ViewOf(s), s.tasks[task].d.id;
      assert TaskOk(v, s.tasks[task]);
      RowInvoice(catalog, v, id);
      var d := v.deliveries[id];
      if d.deliveredAt == None {
        if d.invoice.Some? { FactsOfStatus(s.store.invoices, d.invoice.value, Settled); }
        DeliveredIsGood(catalog, v, id, clock);
        assert ViewOf(s') == v.(deliveries := v.deliveries[id := d.(deliveredAt := Some(clock))]);
        MoveKeeps(catalog, s, s', task);
      } else {
        SameViewKeeps(catalog, s, s', task);
      }
    }
  }

  // ----- moves that only read, or only change tasks, leases and statuses ---------------------

  lemma SameViewKeeps(catalog: Catalog, s: Sys, s': Sys, task: nat)
    requires Inv(catalog, s) && ViewOf(s') == ViewOf(s)
    requires forall t :: t in s'.tasks && t != task ==> t in s.tasks && s'.tasks[t] == s.tasks[t]
    requires task in s'.tasks && (task !in s.tasks || s'.tasks[task] != s.tasks[task]) ==> TaskOk(ViewOf(s), s'.tasks[task])
    requires forall id :: id in s'.store.settled ==> s'.store.settled[id].activatedAt == 0
    ensures Inv(catalog, s')
  {
    hide Good, TaskOk;
    MoveKeeps(catalog, s, s', task);
  }

  lemma PickStuckKeeps(catalog: Catalog, s: Sys, task: nat, id: InvoiceId)
    requires Inv(catalog, s)
    ensures Inv(catalog, DoPickStuck(s, task, id))
  {
    hide Good;
    if id in s.store.invoices { InvoiceKey(catalog, ViewOf(s), id); }
    SameViewKeeps(catalog, s, DoPickStuck(s, task, id), task);
  }

  lemma EnsureReplyKeeps(catalog: Catalog, s: Sys, task: nat)
    requires Inv(catalog, s)
    ensures Inv(catalog, DoEnsureReply(s, task))
  {
    hide Good;
    if task in s.tasks && s.tasks[task].Crediting? {
      assert TaskOk(ViewOf(s), s.tasks[task]);
      LinkedUser(catalog, ViewOf(s), s.tasks[task].inv.user);
    }
    SameViewKeeps(catalog, s, DoEnsureReply(s, task), task);
  }

  lemma ReplyKeeps(catalog: Catalog, s: Sys, task: nat)
    requires Inv(catalog, s)
    ensures Inv(catalog, DoReply(s, task))
  {
    hide Good;
    if task in s.tasks { assert TaskOk(ViewOf(s), s.tasks[task]); }
    SameViewKeeps(catalog, s, DoReply(s, task), task);
  }

  lemma CrashKeeps(catalog: Catalog, s: Sys, task: nat)
    requires Inv(catalog, s)
    ensures Inv(catalog, Leave(s, task))
  {
    hide Good, TaskOk;
    SameViewKeeps(catalog, s, Leave(s, task), task);
  }

  lemma LinkedUser(catalog: Catalog, v: View, user: UserId)
    requires Good(catalog, v)
    ensures user in v.registry.links && v.registry.links[user].Some? ==>
      v.registry.links[user].value in v.registry.subs && v.registry.subs[v.registry.links[user].value].user == user
  {
    hide JournalOk, OutboxOk, WireOk, InvoicesOk, RecordsOk, AcceptedOk;
    assert LinksOk(v.registry.links, Owners(v.registry.subs));
  }

  lemma InvoiceKey(catalog: Catalog, v: View, id: InvoiceId)
    requires Good(catalog, v) && id in v.facts
    ensures v.facts[id].id == id
  {
  }

  lemma PickDeliveryKeeps(catalog: Catalog, s: Sys, task: nat, id: DeliveryId)
    requires Inv(catalog, s)
    ensures Inv(catalog, DoPickDelivery(s, task, id))
  {
    hide Good;
    if id in s.store.deliveries { RowInvoice(catalog, ViewOf(s), id); }
    SameViewKeeps(catalog, s, DoPickDelivery(s, task, id), task);
  }

  lemma SweepReadKeeps(catalog: Catalog, s: Sys, task: nat, sub: SubId, now: Time)
    requires Inv(catalog, s)
    ensures Inv(catalog, DoSweepRead(s, task, sub, now))
  {
    hide Good;
    if sub in s.store.schedules { ScheduleIsLast(catalog, ViewOf(s), sub); }
    SameViewKeeps(catalog, s, DoSweepRead(s, task, sub, now), task);
  }

  lemma ScheduleIsLast(catalog: Catalog, v: View, sub: SubId)
    requires Good(catalog, v) && sub in v.schedules
    ensures sub in v.journal && v.schedules[sub].sub == sub && v.schedules[sub].revision == |v.journal[sub]| > 0
    ensures v.schedules[sub] == ScheduleOf(v.journal[sub][|v.journal[sub]| - 1])
  {
    hide WireOk, InvoicesOk, OutboxOk, RegistryOk, Follows;
    var log := v.journal[sub];
    assert LogOk(catalog, sub, log, v.deliveries, v.facts, v.claims);
    assert EntryOk(catalog, sub, log, |log| - 1, v.deliveries, v.facts, v.claims);
  }

  lemma QuietMoveKeeps(catalog: Catalog, s: Sys, m: Move)
    requires Inv(catalog, s)
    requires
      || m.ReserveCreate? || m.BeginCreate? || m.FailCreate? || m.RecordProcessed? || m.LeaseOutbox? || m.LeaseClaims?
      || m.ExpireInvoices? || m.AcquirePoll? || m.RenewPoll? || m.ReleasePoll? || m.RecordNegative? || m.ClearNegative?
    ensures Inv(catalog, Apply(catalog, s, m))
  {
    hide Good, TaskOk, Apply;
    QuietView(catalog, s, m);
    SameViewKeeps(catalog, s, Apply(catalog, s, m), 0);
  }

  /** Nothing the invariant speaks about has changed. */
  ghost predicate Unseen(s: Sys, t: Sys) {
    && ViewOf(t) == ViewOf(s) && t.tasks == s.tasks
    && (forall id :: id in t.store.settled ==> id in s.store.settled && t.store.settled[id].activatedAt == s.store.settled[id].activatedAt)
  }

  lemma QuietView(catalog: Catalog, s: Sys, m: Move)
    requires
      || m.ReserveCreate? || m.BeginCreate? || m.FailCreate? || m.RecordProcessed? || m.LeaseOutbox? || m.LeaseClaims?
      || m.ExpireInvoices? || m.AcquirePoll? || m.RenewPoll? || m.ReleasePoll? || m.RecordNegative? || m.ClearNegative?
    ensures Unseen(s, Apply(catalog, s, m))
  {
    if m.ExpireInvoices? || m.LeaseClaims? {
      BulkView(catalog, s, m);
    } else if m.AcquirePoll? || m.RenewPoll? || m.ReleasePoll? || m.RecordNegative? || m.ClearNegative? {
      PollView(catalog, s, m);
    } else {
      IntentView(catalog, s, m);
    }
  }

  lemma BulkView(catalog: Catalog, s: Sys, m: Move)
    requires m.ExpireInvoices? || m.LeaseClaims?
    ensures Unseen(s, Apply(catalog, s, m))
  {
    hide Facts, Overdue;
    if m.ExpireInvoices? { FactsOfSweep(s.store, m.now, m.onchain, m.grace); }
  }

  lemma PollView(catalog: Catalog, s: Sys, m: Move)
    requires m.AcquirePoll? || m.RenewPoll? || m.ReleasePoll? || m.RecordNegative? || m.ClearNegative?
    ensures Unseen(s, Apply(catalog, s, m))
  {
    hide Facts;
  }

  lemma IntentView(catalog: Catalog, s: Sys, m: Move)
    requires m.ReserveCreate? || m.BeginCreate? || m.FailCreate? || m.RecordProcessed? || m.LeaseOutbox?
    ensures Unseen(s, Apply(catalog, s, m))
  {
    hide Facts;
  }

  // ----- all moves, all runs ----------------------------------------------------------------

  lemma ApplyKeeps(catalog: Catalog, s: Sys, m: Move)
    requires CatalogOk(catalog) && Inv(catalog, s)
    ensures Inv(catalog, Apply(catalog, s, m))
  {
    hide Inv, DoStage, DoSweepStage, DoCompleteDelivery, DoReceive, DoClaim, DoComplete, DoEnsureRemote, DoArrive, DoSend;
    hide DoPickStuck, DoEnsureReply, DoReply, DoPickDelivery, DoSweepRead;
    match m
    case CompleteCreate(key, inv) => CompleteCreateKeeps(catalog, s, key, inv);
    case ReceiveEvent(task, ev) => ReceiveKeeps(catalog, s, task, ev);
    case Claim(task, clock) => ClaimKeeps(catalog, s, task, clock);
    case EnsureRemote(user, plan, newId, now) => EnsureRemoteKeeps(catalog, s, user, plan, newId, now);
    case Stage(task, now) => StageKeeps(catalog, s, task, now);
    case Send(task) => SendKeeps(catalog, s, task);
    case Arrive(req) => ArriveKeeps(catalog, s, req);
    case Complete(task, clock) => CompleteDeliveryKeeps(catalog, s, task, clock);
    case SweepStage(task) => SweepStageKeeps(catalog, s, task);
    case RegisterUser(user) => OperatorMoveKeeps(catalog, s, m);
    case Cancel(sub) => OperatorMoveKeeps(catalog, s, m);
    case PickStuck(task, id) => PickStuckKeeps(catalog, s, task, id);
    case EnsureReply(task) => EnsureReplyKeeps(catalog, s, task);
    case Reply(task) => ReplyKeeps(catalog, s, task);
    case Crash(task) => CrashKeeps(catalog, s, task);
    case PickDelivery(task, id) => PickDeliveryKeeps(catalog, s, task, id);
    case SweepRead(task, sub, now) => SweepReadKeeps(catalog, s, task, sub, now);
    case _ => QuietMoveKeeps(catalog, s, m);
  }

  lemma {:induction false} RunKeeps(catalog: Catalog, s: Sys, moves: seq<Move>)
    requires CatalogOk(catalog) && Inv(catalog, s)
    ensures Inv(catalog, Run(catalog, s, moves))
  {
    hide Inv, Apply;
    if moves != [] {
      RunKeeps(catalog, s, moves[..|moves| - 1]);
      ApplyKeeps(catalog, Run(catalog, s, moves[..|moves| - 1]), moves[|moves| - 1]);
    }
  }

  lemma ReachableIsGood(catalog: Catalog, moves: seq<Move>)
    requires CatalogOk(catalog)
    ensures Inv(catalog, Run(catalog, Init, moves))
  {
    assert Inv(catalog, Init);
    RunKeeps(catalog, Init, moves);
  }
}
