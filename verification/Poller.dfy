/** The poller's own code: one leased check as a sequence of store calls, and the filter that
    keeps overdue orders from being settled by a poll. */
module Poller {
  import opened Prelude
  import opened Ledger
  import opened MemoryStore
  import opened PollSweep

  /** What one leased check leaves in the store, besides what processing a positive does: a
      positive clears the marker, a negative is recorded only once the deadline has passed, and
      the lease is given back. `first` and `second` are the two clock readings of the negative. */
  function Checked(p: Policy, s: Store, inv: Invoice, token: string, answer: Answer, first: Time, second: Time): Store {
    ReleasePollLease(Marked(p, s, inv, answer, first, second), inv.id, token)
  }

  function Marked(p: Policy, s: Store, inv: Invoice, answer: Answer, first: Time, second: Time): Store {
    match answer
    case Positive(_) => ClearNegativeCheck(s, inv.id)
    case Negative => if first >= Deadline(p, inv) then RecordNegativeCheck(s, inv.id, second) else s
    case NoAnswer => s
  }

  method CheckLeased(m: Memory, p: Policy, inv: Invoice, token: string, answer: Answer, first: Time, second: Time)
    modifies m
    ensures m.Contents() == Checked(p, old(m.Contents()), inv, token, answer, first, second)
  {
    match answer {
      case NoAnswer =>
      case Positive(_) => m.ClearNegative(inv.id);
      case Negative => if first >= Deadline(p, inv) { m.RecordNegative(inv.id, second); }
    }
    m.ReleasePoll(inv.id, token);
  }

  /** The recorded negative after a check. */
  function MarkAfter(p: Policy, s: Store, inv: Invoice, answer: Answer, first: Time, second: Time): Option<Time> {
    var before := if inv.id in s.negative then Some(s.negative[inv.id]) else None;
    if inv.id !in s.invoices || s.invoices[inv.id].status != Pending then before
    else match answer
      case Positive(_) => None
      case Negative => if first >= Deadline(p, inv) then Some(second) else before
      case NoAnswer => before
  }

  /** Only the marker of one invoice may differ. */
  ghost predicate SameButMarker(s: Store, t: Store, i: InvoiceId) {
    && t.invoices == s.invoices && t.settled == s.settled && t.deliveries == s.deliveries && t.schedules == s.schedules
    && (forall x :: x != i ==> (x in t.negative <==> x in s.negative) && (x in s.negative ==> t.negative[x] == s.negative[x]))
  }

  function MarkOf(s: Store, i: InvoiceId): Option<Time> {
    if i in s.negative then Some(s.negative[i]) else None
  }

  lemma SameStore(s: Store, i: InvoiceId)
    ensures SameButMarker(s, s, i)
  {
  }

  lemma OtherLeases(s: Store, leases: map<InvoiceId, PollLease>, i: InvoiceId)
    ensures SameButMarker(s, s.(pollLeases := leases), i)
  {
  }

  lemma OtherMarker(s: Store, i: InvoiceId, at: Time)
    ensures SameButMarker(s, s.(negative := s.negative[i := at]), i) && SameButMarker(s, s.(negative := s.negative - {i}), i)
  {
  }

  lemma ReleaseTouchesLeases(s: Store, i: InvoiceId, token: string)
    ensures SameButMarker(s, ReleasePollLease(s, i, token), i) && ReleasePollLease(s, i, token).negative == s.negative
  {
    hide SameButMarker;
    SameStore(s, i);
    OtherLeases(s, s.pollLeases - {i}, i);
  }

  lemma MarkingTouchesMarker(p: Policy, s: Store, inv: Invoice, answer: Answer, first: Time, second: Time)
    ensures SameButMarker(s, Marked(p, s, inv, answer, first, second), inv.id)
    ensures MarkOf(Marked(p, s, inv, answer, first, second), inv.id) == MarkAfter(p, s, inv, answer, first, second)
  {
    hide Deadline, SameButMarker;
    SameStore(s, inv.id);
    OtherMarker(s, inv.id, second);
  }

  /** A check touches no money, no claim and no outbox row; it changes only the lease it holds and
      the marker of its own invoice. */
  lemma CheckTouchesOnlyItsMarker(p: Policy, s: Store, inv: Invoice, token: string, answer: Answer, first: Time, second: Time)
    ensures
      var t := Checked(p, s, inv, token, answer, first, second);
      SameButMarker(s, t, inv.id) && MarkOf(t, inv.id) == MarkAfter(p, s, inv, answer, first, second)
  {
    hide Marked, ReleasePollLease, MarkAfter;
    MarkingTouchesMarker(p, s, inv, answer, first, second);
    ReleaseTouchesLeases(Marked(p, s, inv, answer, first, second), inv.id, token);
  }

  /** So after a positive no sweep can expire the invoice, and a negative lets one do so only if it
      was recorded at or past the deadline. */
  lemma CheckArmsSweepOnlyLate(p: Policy, s: Store, inv: Invoice, token: string, answer: Answer, first: Time, second: Time, now: Time)
    requires first <= second && inv.id in s.invoices && s.invoices[inv.id] == inv && inv.provider == p.name
    ensures
      var t := Checked(p, s, inv, token, answer, first, second);
      && (answer.Positive? ==> inv.id !in Swept(p, t, now))
      && (inv.id in Swept(p, t, now) ==> inv.id in t.negative && t.negative[inv.id] >= Deadline(p, inv))
      && (inv.id in Swept(p, t, now) && inv.id !in s.negative ==> answer.Negative? && t.negative[inv.id] == second)
  {
    hide Checked;
    CheckTouchesOnlyItsMarker(p, s, inv, token, answer, first, second);
  }

  /** The orders whose own deadline has not passed, in order; none without a deadline is dropped. */
  function WithinDeadline(open: seq<Invoice>, now: Time): seq<Invoice> {
    if open == [] then []
    else WithinDeadline(open[..|open| - 1], now)
         + if open[|open| - 1].expiresAt == 0 || now <= open[|open| - 1].expiresAt then [open[|open| - 1]] else []
  }

  method FilterOpen(open: seq<Invoice>, now: Time) returns (out: seq<Invoice>)
    ensures out == WithinDeadline(open, now)
  {
    out := [];
    for i := 0 to |open|
      invariant out == WithinDeadline(open[..i], now)
    {
      assert open[..i + 1][..i] == open[..i];
      if open[i].expiresAt == 0 || now <= open[i].expiresAt { out := out + [open[i]]; }
    }
    assert open[..|open|] == open;
  }

  /** So a poll of a gateway without a grace window never sees an order a sweep may expire. */
  lemma {:induction false} PolledAreNotOverdue(s: Store, open: seq<Invoice>, now: Time, onchain: set<string>, grace: Time, i: nat)
    requires i < |WithinDeadline(open, now)|
    requires var inv := WithinDeadline(open, now)[i]; inv.id in s.invoices && s.invoices[inv.id] == inv && inv.provider !in onchain
    ensures WithinDeadline(open, now)[i] in open && !Overdue(s, WithinDeadline(open, now)[i].id, now, onchain, grace)
  {
    var init := open[..|open| - 1];
    if i < |WithinDeadline(init, now)| { PolledAreNotOverdue(s, init, now, onchain, grace, i); }
  }
}
