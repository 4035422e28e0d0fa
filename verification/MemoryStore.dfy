/** The store as the source keeps it: one object whose maps every call updates in place. Each
    method is proved to take the abstract store exactly where `Ledger` says. */
module MemoryStore {
  import opened Prelude
  import opened Ledger

  /** Distinct keys, oldest first. */
  ghost predicate OldestOrder<K>(list: seq<K>, age: map<K, Time>) {
    && (forall i :: 0 <= i < |list| ==> list[i] in age)
    && (forall i, j :: 0 <= i < j < |list| ==> list[i] != list[j] && age[list[i]] <= age[list[j]])
  }

  /** Puts one more key behind those that are as old or older. */
  method InsertByAge<K(==)>(list: seq<K>, age: map<K, Time>, k: K) returns (longer: seq<K>)
    requires OldestOrder(list, age) && k in age && k !in list
    ensures OldestOrder(longer, age) && |longer| == |list| + 1
    ensures forall x :: x in longer <==> x == k || x in list
  {
    var at := 0;
    while at < |list| && age[list[at]] <= age[k]
      invariant 0 <= at <= |list|
      invariant at > 0 ==> age[list[at - 1]] <= age[k]
    {
      at := at + 1;
    }
    longer := list[..at] + [k] + list[at..];
    assert list == list[..at] + list[at..];
    InsertedInOrder(list, age, k, at);
  }

  lemma InsertedInOrder<K>(list: seq<K>, age: map<K, Time>, k: K, at: nat)
    requires OldestOrder(list, age) && k in age && k !in list && at <= |list|
    requires at > 0 ==> age[list[at - 1]] <= age[k]
    requires at < |list| ==> age[k] < age[list[at]]
    ensures OldestOrder(list[..at] + [k] + list[at..], age)
  {
    var longer := list[..at] + [k] + list[at..];
    assert forall i :: 0 <= i < at ==> longer[i] == list[i];
    assert forall i :: at < i < |longer| ==> longer[i] == list[i - 1];
    assert longer[at] == k;
    forall i, j | 0 <= i < j < |longer| ensures longer[i] != longer[j] && age[longer[i]] <= age[longer[j]] {
      if j == at {
        assert age[list[i]] <= age[list[at - 1]];
      } else if i == at {
        assert age[list[at]] <= age[list[j - 1]];
      }
    }
  }

  /** Lists a set of keys oldest first and keeps at most `limit` of them (all, if not positive). */
  method OldestFirst<K(==)>(keys: set<K>, age: map<K, Time>, limit: int) returns (batch: seq<K>)
    requires keys <= age.Keys
    ensures OldestOrder(batch, age) && |batch| == CappedSize(limit, |keys|)
    ensures forall i :: 0 <= i < |batch| ==> batch[i] in keys
    ensures forall k, i :: k in keys && k !in batch && 0 <= i < |batch| ==> age[batch[i]] <= age[k]
  {
    var rest, all := keys, [];
    while rest != {}
      invariant rest <= keys && |all| + |rest| == |keys| && OldestOrder(all, age)
      invariant forall k :: k in all <==> k in keys && k !in rest
      decreases rest
    {
      var k :| k in rest;
      all := InsertByAge(all, age, k);
      rest := rest - {k};
    }
    batch := if 0 < limit < |all| then all[..limit] else all;
    forall k, i | k in keys && k !in batch && 0 <= i < |batch| ensures age[batch[i]] <= age[k] {
      assert k in all;
      var at :| 0 <= at < |all| && all[at] == k;
      assert batch[i] == all[i] && at >= |batch|;
    }
    forall i | 0 <= i < |batch| ensures batch[i] in keys { assert batch[i] == all[i]; assert all[i] in all; }
  }

  lemma OneMoreLease(leases: map<DeliveryId, Time>, ids: seq<DeliveryId>, id: DeliveryId, until: Time)
    ensures WithLeases(leases, ids + [id], until) == WithLeases(leases, ids, until)[id := until]
  {
  }

  class Memory {
    var invoices: map<InvoiceId, Invoice>
    var events: set<(string, string)>
    var settled: map<InvoiceId, Settlement>
    var schedules: map<SubId, Schedule>
    var deliveries: map<DeliveryId, Delivery>
    var invoiceDeliveries: map<InvoiceId, DeliveryId>
    var deliveryLeases: map<DeliveryId, Time>
    var intents: map<string, Intent>
    var negative: map<InvoiceId, Time>
    var pollLeases: map<InvoiceId, PollLease>

    function Contents(): Store
      reads this
    {
      Store(invoices, events, settled, schedules, deliveries, invoiceDeliveries, deliveryLeases, intents, negative, pollLeases)
    }

    constructor ()
      ensures Contents() == EmptyStore
    {
      invoices, events, settled, schedules, deliveries := map[], {}, map[], map[], map[];
      invoiceDeliveries, deliveryLeases, intents, negative, pollLeases := map[], map[], map[], map[], map[];
    }

    method SetStatus(id: InvoiceId, status: InvoiceStatus) returns (ok: bool)
      modifies this
      ensures match SetInvoiceStatus(old(Contents()), id, status)
              case Ok(after) => ok && Contents() == after
              case Err(_) => !ok && Contents() == old(Contents())
    {
      ok := id in invoices;
      if ok { invoices := invoices[id := invoices[id].(status := status)]; }
    }

    method Claim(id: InvoiceId, clock: Time) returns (claimed: bool)
      modifies this
      ensures (Contents(), claimed) == ClaimSettlement(old(Contents()), id, clock)
    {
      claimed := id !in settled;
      if claimed { settled := settled[id := Settlement(clock, 0, 0)]; }
    }

    /** Leases the oldest eligible claims; `olderThan` and `clock` decide eligibility. */
    method LeaseStuckSettlements(olderThan: Time, clock: Time, leaseFor: Time, limit: int) returns (batch: seq<InvoiceId>)
      modifies this
      ensures StuckBatch(old(Contents()), olderThan, clock, limit, batch)
      ensures Contents() == LeaseStuck(old(Contents()), batch, clock + leaseFor)
    {
      var eligible := StuckClaims(Contents(), olderThan, clock);
      batch := OldestFirst(eligible, map id | id in settled :: settled[id].claimedAt, limit);
      LeaseClaimed(batch, clock + leaseFor);
    }

    method LeaseClaimed(batch: seq<InvoiceId>, until: Time)
      requires forall i :: 0 <= i < |batch| ==> batch[i] in settled
      modifies this
      ensures Contents() == LeaseStuck(old(Contents()), batch, until)
    {
      var at := 0;
      while at < |batch|
        invariant 0 <= at <= |batch|
        invariant Contents() == old(Contents()).(settled := settled)
        invariant settled == LeaseStuck(old(Contents()), batch[..at], until).settled
      {
        settled := settled[batch[at] := settled[batch[at]].(leasedUntil := until)];
        assert batch[..at + 1] == batch[..at] + [batch[at]];
        at := at + 1;
      }
      assert batch[..at] == batch;
    }

    method Expire(now: Time, onchain: set<string>, grace: Time)
      modifies this
      ensures Contents() == ExpireOverdue(old(Contents()), now, onchain, grace)
    {
      var rest := invoices.Keys;
      while rest != {}
        invariant rest <= old(invoices).Keys
        invariant Contents() == old(Contents()).(invoices := invoices)
        invariant invoices.Keys == old(invoices).Keys
        invariant forall id :: id in rest ==> invoices[id] == old(invoices)[id]
        invariant forall id :: id in invoices && id !in rest ==>
          invoices[id] == ExpireOverdue(old(Contents()), now, onchain, grace).invoices[id]
        decreases rest
      {
        var id :| id in rest;
        if Overdue(Contents(), id, now, onchain, grace) {
          invoices := invoices[id := invoices[id].(status := InvoiceExpired)];
        }
        rest := rest - {id};
      }
    }

    method AcquirePoll(id: InvoiceId, token: string, owner: string, leaseFor: Time, clock: Time) returns (acquired: bool)
      modifies this
      ensures (Contents(), acquired) == AcquirePollLease(old(Contents()), id, token, owner, leaseFor, clock)
    {
      acquired := !(id in pollLeases && pollLeases[id].until > clock);
      if acquired { pollLeases := pollLeases[id := PollLease(token, owner, clock + leaseFor)]; }
    }

    method RenewPoll(id: InvoiceId, token: string, leaseFor: Time, clock: Time) returns (renewed: bool)
      modifies this
      ensures (Contents(), renewed) == RenewPollLease(old(Contents()), id, token, leaseFor, clock)
    {
      renewed := id in pollLeases && pollLeases[id].token == token;
      if renewed { pollLeases := pollLeases[id := pollLeases[id].(until := clock + leaseFor)]; }
    }

    method ReleasePoll(id: InvoiceId, token: string)
      modifies this
      ensures Contents() == ReleasePollLease(old(Contents()), id, token)
    {
      if id in pollLeases && pollLeases[id].token == token { pollLeases := pollLeases - {id}; }
    }

    method RecordNegative(id: InvoiceId, checkAt: Time)
      modifies this
      ensures Contents() == RecordNegativeCheck(old(Contents()), id, checkAt)
    {
      if id in invoices && invoices[id].status == Pending { negative := negative[id := checkAt]; }
    }

    method ClearNegative(id: InvoiceId)
      modifies this
      ensures Contents() == ClearNegativeCheck(old(Contents()), id)
    {
      if id in invoices && invoices[id].status == Pending { negative := negative - {id}; }
    }

    method Reserve(intent: Intent) returns (r: Result<(Intent, bool), Failure>)
      modifies this
      ensures match ReserveInvoiceIntent(old(Contents()), intent)
              case Ok((after, got, created)) => r == Ok((got, created)) && Contents() == after
              case Err(e) => r == Err(e) && Contents() == old(Contents())
    {
      if intent.key in intents {
        if intents[intent.key].requestHash != intent.requestHash { return Err(Conflict); }
        return Ok((intents[intent.key], false));
      }
      intents := intents[intent.key := intent.(state := Reserved)];
      return Ok((intents[intent.key], true));
    }

    method BeginCreate(key: string) returns (r: Result<bool, Failure>)
      modifies this
      ensures match BeginInvoiceCreate(old(Contents()), key)
              case Ok((after, began)) => r == Ok(began) && Contents() == after
              case Err(e) => r == Err(e) && Contents() == old(Contents())
    {
      if key !in intents { return Err(NotFound); }
      if intents[key].state != Reserved { return Ok(false); }
      intents := intents[key := intents[key].(state := Creating)];
      return Ok(true);
    }

    /** With the production store's write-once insert: an existing invoice row wins. */
    method CompleteCreate(key: string, inv: Invoice) returns (failure: Option<Failure>)
      modifies this
      ensures match CompleteInvoiceCreate(old(Contents()), key, inv)
              case Ok(after) => failure == None && Contents() == after
              case Err(e) => failure == Some(e) && Contents() == old(Contents())
    {
      if key !in intents { return Some(NotFound); }
      if intents[key].orderId != inv.id || intents[key].provider != inv.provider { return Some(Conflict); }
      if inv.id !in invoices { invoices := invoices[inv.id := inv]; }
      intents := intents[key := intents[key].(state := Ready)];
      return None;
    }

    method FailCreate(key: string) returns (ok: bool)
      modifies this
      ensures match FailInvoiceCreate(old(Contents()), key)
              case Ok(after) => ok && Contents() == after
              case Err(_) => !ok && Contents() == old(Contents())
    {
      ok := key in intents;
      if ok { intents := intents[key := intents[key].(state := Failed)]; }
    }

    method StageCredit(id: InvoiceId, sub: SubId, user: UserId, now: Time, terms: Terms) returns (r: Result<Delivery, Failure>)
      modifies this
      ensures match StageInvoiceCredit(old(Contents()), id, sub, user, now, terms)
              case Ok((after, d)) => r == Ok(d) && Contents() == after
              case Err(e) => r == Err(e) && Contents() == old(Contents())
    {
      if id in invoiceDeliveries {
        if invoiceDeliveries[id] !in deliveries { return Err(NotFound); }
        return Ok(deliveries[invoiceDeliveries[id]]);
      }
      if id !in invoices { return Err(NotFound); }
      var inv := invoices[id];
      if inv.user != user { return Err(Conflict); }
      var base, revision: nat := now, 1;
      if sub in schedules {
        if schedules[sub].expiresAt > base { base := schedules[sub].expiresAt; }
        revision := schedules[sub].revision + 1;
      }
      var expiresAt := base + terms.duration;
      var d := Delivery(ForInvoice(id), Some(id), sub, user, revision, inv.plan, Active,
                        expiresAt, expiresAt + terms.grace, now, None);
      schedules := schedules[sub := Schedule(sub, user, revision, d.plan, d.status, d.expiresAt, d.graceUntil)];
      deliveries := deliveries[d.id := d];
      invoiceDeliveries := invoiceDeliveries[id := d.id];
      return Ok(d);
    }

    method StageTransition(sub: SubId, expected: nat, status: SubscriptionStatus, now: Time)
      returns (r: Result<Option<Delivery>, Failure>)
      modifies this
      ensures match StageScheduleTransition(old(Contents()), sub, expected, status, now)
              case Ok((after, d)) => r == Ok(d) && Contents() == after
              case Err(e) => r == Err(e) && Contents() == old(Contents())
    {
      if sub !in schedules { return Err(NotFound); }
      var sched := schedules[sub];
      if sched.revision != expected { return Ok(None); }
      var revision := sched.revision + 1;
      var d := Delivery(ForRevision(sub, revision), None, sub, sched.user, revision, sched.plan, status,
                        sched.expiresAt, sched.graceUntil, now, None);
      schedules := schedules[sub := sched.(revision := revision, status := status)];
      deliveries := deliveries[d.id := d];
      return Ok(Some(d));
    }

    method LeaseBillingDeliveries(olderThan: Time, clock: Time, leaseFor: Time, limit: int) returns (batch: seq<DeliveryId>)
      modifies this
      ensures DeliveryBatch(old(Contents()), olderThan, clock, limit, batch)
      ensures Contents() == LeaseDeliveries(old(Contents()), batch, clock + leaseFor)
    {
      hide DeliveryBatch, LeaseDeliveries;
      batch := OldestDue(olderThan, clock, limit);
      LeaseRows(batch, clock + leaseFor);
    }

    method OldestDue(olderThan: Time, clock: Time, limit: int) returns (batch: seq<DeliveryId>)
      ensures DeliveryBatch(Contents(), olderThan, clock, limit, batch)
    {
      var due := DueDeliveries(Contents(), olderThan, clock);
      batch := OldestFirst(due, map id | id in deliveries :: deliveries[id].createdAt, limit);
    }

    method LeaseRows(batch: seq<DeliveryId>, until: Time)
      modifies this
      ensures Contents() == LeaseDeliveries(old(Contents()), batch, until)
    {
      var at := 0;
      while at < |batch|
        invariant 0 <= at <= |batch|
        invariant Contents() == old(Contents()).(deliveryLeases := deliveryLeases)
        invariant deliveryLeases == WithLeases(old(deliveryLeases), batch[..at], until)
      {
        OneMoreLease(old(deliveryLeases), batch[..at], batch[at], until);
        assert batch[..at + 1] == batch[..at] + [batch[at]];
        deliveryLeases := deliveryLeases[batch[at] := until];
        at := at + 1;
      }
      assert batch[..at] == batch;
    }

    method CompleteDelivery(id: DeliveryId, clock: Time) returns (ok: bool)
      modifies this
      ensures ok == CompleteBillingDelivery(old(Contents()), id, clock).Ok?
      ensures ok ==> Contents() == CompleteBillingDelivery(old(Contents()), id, clock).value
      ensures !ok ==> Contents() == old(Contents()).(deliveries :=
        if id in old(deliveries) then old(deliveries)[id := old(deliveries)[id].(deliveredAt := Some(clock))] else old(deliveries))
    {
      if id !in deliveries { return false; }
      var d := deliveries[id];
      if d.deliveredAt == None {
        deliveries := deliveries[id := d.(deliveredAt := Some(clock))];
        if d.invoice.Some? {
          if d.invoice.value !in invoices { return false; }
          invoices := invoices[d.invoice.value := invoices[d.invoice.value].(status := Settled)];
        }
      }
      deliveryLeases := deliveryLeases - {id};
      return true;
    }
  }
}
