/** The expiry sweeper: one pass over the due schedules, each taken up under its user's lock. */
module Sweeper {
  import opened Prelude
  import opened Ledger
  import opened Protocol
  import opened MemoryStore

  /** The listing a pass starts from. */
  function DueSchedules(schedules: map<SubId, Schedule>, now: Time): set<SubId> {
    set sub | sub in schedules && schedules[sub].status != Expired && schedules[sub].expiresAt <= now
  }

  /** What taking up one schedule at `now` leaves of it. */
  function Swept(sched: Schedule, now: Time): Schedule {
    var next := Transition(sched, now);
    if next == None || next.value == sched.status then sched
    else sched.(revision := sched.revision + 1, status := next.value)
  }

  function SweptAll(schedules: map<SubId, Schedule>, now: Time): map<SubId, Schedule> {
    map sub | sub in schedules ::
      if sub in DueSchedules(schedules, now) then Swept(schedules[sub], now) else schedules[sub]
  }

  ghost predicate Keyed(schedules: map<SubId, Schedule>) {
    forall sub :: sub in schedules ==> schedules[sub].sub == sub
  }

  // ----- one subscription over time -------------------------------------------------------------------

  /** The schedule a credit at `now` leaves. */
  function Renewed(sched: Schedule, now: Time, terms: Terms): Schedule {
    var expiresAt := (if sched.expiresAt > now then sched.expiresAt else now) + terms.duration;
    sched.(revision := sched.revision + 1, status := Active, expiresAt := expiresAt, graceUntil := expiresAt + terms.grace)
  }

  datatype Event = Credit(now: Time, terms: Terms) | Sweep(now: Time)

  function Step(sched: Schedule, e: Event): Schedule {
    match e
    case Credit(now, terms) => Renewed(sched, now, terms)
    case Sweep(now) => Swept(sched, now)
  }

  function After(sched: Schedule, events: seq<Event>): Schedule {
    if events == [] then sched else Step(After(sched, events[..|events| - 1]), events[|events| - 1])
  }

  lemma AfterOne(sched: Schedule, events: seq<Event>, e: Event)
    ensures After(sched, events + [e]) == Step(After(sched, events), e)
  {
    hide Step;
    assert (events + [e])[..|events|] == events;
  }

  lemma {:induction false} AfterConcat(sched: Schedule, a: seq<Event>, b: seq<Event>)
    ensures After(sched, a + b) == After(After(sched, a), b)
  {
    hide Step;
    if b == [] {
      assert a + b == a;
    } else {
      AfterConcat(sched, a, b[..|b| - 1]);
      assert (a + b)[..|a + b| - 1] == a + b[..|b| - 1];
    }
  }

  // ----- one pass ---------------------------------------------------------------------------------------

  /** One schedule under its lock: read again, staged if its status must change, and delivered if
      the control-plane can be reached; otherwise the outbox keeps the row. */
  method TakeUp(m: Memory, sub: SubId, now: Time, reachable: bool, clock: Time)
    requires sub in m.schedules && m.schedules[sub].sub == sub
    modifies m
    ensures m.schedules == old(m.schedules)[sub := Swept(old(m.schedules[sub]), now)]
    ensures m.invoices == old(m.invoices) && m.settled == old(m.settled)
    ensures Swept(old(m.schedules[sub]), now) == old(m.schedules[sub]) ==> m.Contents() == old(m.Contents())
    ensures Swept(old(m.schedules[sub]), now) != old(m.schedules[sub]) ==>
      var id := ForRevision(sub, old(m.schedules[sub].revision) + 1);
      id in m.deliveries && ScheduleOf(m.deliveries[id]) == m.schedules[sub] && m.deliveries[id].createdAt == now
  {
    var sched := m.schedules[sub];
    var next := Transition(sched, now);
    if next == None || next.value == sched.status { return; }
    var staged := m.StageTransition(sub, sched.revision, next.value, now);
    if staged.Ok? && staged.value.Some? && reachable {
      var done := m.CompleteDelivery(staged.value.value.id, clock);
    }
  }

  /** What other tasks do to the schedules before the n-th lock of a pass, in order. */
  type Others = nat -> seq<(SubId, Event)>

  /** The events about one subscription. */
  function On(events: seq<(SubId, Event)>, sub: SubId): seq<Event> {
    if events == [] then []
    else
      var last := events[|events| - 1];
      On(events[..|events| - 1], sub) + if last.0 == sub then [last.1] else []
  }

  /** The others' events about one subscription before the locks from `lo` up to `hi`. */
  function OnFrom(others: Others, sub: SubId, lo: nat, hi: nat): seq<Event>
    requires lo <= hi
  {
    if lo == hi then [] else OnFrom(others, sub, lo, hi - 1) + On(others(hi - 1), sub)
  }

  /** The history of a subscription through the first `locks` locks of a pass, whose own sweep of it,
      if any, is made under lock `at`. */
  function History(others: Others, sub: SubId, at: Option<nat>, locks: nat, now: Time): seq<Event>
    requires at.Some? ==> at.value < locks
  {
    if at.None? then OnFrom(others, sub, 0, locks)
    else OnFrom(others, sub, 0, at.value + 1) + [Sweep(now)] + OnFrom(others, sub, at.value + 1, locks)
  }

  /** The schedules have gone through these events, each through those about it. */
  ghost predicate Undergone(before: map<SubId, Schedule>, after: map<SubId, Schedule>, events: seq<(SubId, Event)>) {
    after.Keys == before.Keys && forall sub :: sub in before ==> after[sub] == After(before[sub], On(events, sub))
  }

  lemma OneMore(before: map<SubId, Schedule>, mid: map<SubId, Schedule>, events: seq<(SubId, Event)>, sub: SubId, e: Event)
    requires Undergone(before, mid, events)
    ensures sub in mid ==> Undergone(before, mid[sub := Step(mid[sub], e)], events + [(sub, e)])
    ensures sub !in mid ==> Undergone(before, mid, events + [(sub, e)])
  {
    hide After, Step;
    assert (events + [(sub, e)])[..|events|] == events;
    forall x | x in before
      ensures After(before[x], On(events + [(sub, e)], x)) == if x == sub then Step(mid[x], e) else mid[x]
    {
      AfterOne(before[x], On(events, x), e);
      assert On(events, x) + [] == On(events, x);
    }
  }

  /** The others' events reach the schedules that exist; a subscription that is new is not listed. */
  method Interfere(m: Memory, events: seq<(SubId, Event)>)
    requires Keyed(m.schedules)
    modifies m
    ensures Keyed(m.schedules) && Undergone(old(m.schedules), m.schedules, events)
    ensures m.Contents() == old(m.Contents()).(schedules := m.schedules)
    ensures events == [] ==> m.schedules == old(m.schedules)
  {
    hide Undergone, Step;
    ghost var before := m.schedules;
    Nothing(before);
    for k := 0 to |events|
      invariant Keyed(m.schedules) && Undergone(before, m.schedules, events[..k])
      invariant m.Contents() == old(m.Contents()).(schedules := m.schedules)
      invariant k == 0 ==> m.schedules == before
    {
      var (sub, e) := events[k];
      assert events[..k + 1] == events[..k] + [(sub, e)];
      OneMore(before, m.schedules, events[..k], sub, e);
      if sub in m.schedules {
        StepKeepsKey(m.schedules[sub], e);
        m.schedules := m.schedules[sub := Step(m.schedules[sub], e)];
      }
    }
    assert events[..|events|] == events;
  }

  lemma Nothing(before: map<SubId, Schedule>)
    ensures Undergone(before, before, [])
  {
  }

  lemma StepKeepsKey(sched: Schedule, e: Event)
    ensures Step(sched, e).sub == sched.sub
  {
  }

  function Taken(at: map<SubId, nat>, sub: SubId): Option<nat> {
    if sub in at then Some(at[sub]) else None
  }

  /** The pass so far: every schedule has gone through its history. */
  ghost predicate Tracked(before: map<SubId, Schedule>, after: map<SubId, Schedule>, others: Others, at: map<SubId, nat>, now: Time) {
    && after.Keys == before.Keys && (forall sub :: sub in at ==> at[sub] < |at|)
    && (forall sub :: sub in before ==> after[sub] == After(before[sub], History(others, sub, Taken(at, sub), |at|, now)))
  }

  lemma NextLock(before: map<SubId, Schedule>, start: map<SubId, Schedule>, mid: map<SubId, Schedule>, others: Others,
                 at: map<SubId, nat>, now: Time, sub: SubId)
    requires Tracked(before, start, others, at, now) && Undergone(start, mid, others(|at|)) && sub !in at && sub in before
    ensures Tracked(before, mid[sub := Swept(mid[sub], now)], others, at[sub := |at|], now)
  {
    hide After, History, Swept, OnFrom, On;
    var n, later := |at|, at[sub := |at|];
    assert |later| == n + 1;
    forall x | x in before
      ensures After(before[x], History(others, x, Taken(later, x), n + 1, now)) == if x == sub then Swept(mid[x], now) else mid[x]
    {
      HistoryGrows(others, x, Taken(at, x), n, now);
      AfterConcat(before[x], History(others, x, Taken(at, x), n, now), On(others(n), x));
      if x == sub { AfterOne(before[x], History(others, x, None, n + 1, now), Sweep(now)); }
    }
  }

  /** The next lock: first what the others did before it, then the listed schedule is taken up. */
  method NextSchedule(m: Memory, sub: SubId, now: Time, reachable: bool, clock: Time, others: Others, at: map<SubId, nat>,
                      ghost before: map<SubId, Schedule>)
    requires Keyed(m.schedules) && Tracked(before, m.schedules, others, at, now) && sub in before && sub !in at
    modifies m
    ensures Keyed(m.schedules) && Tracked(before, m.schedules, others, at[sub := |at|], now)
    ensures m.invoices == old(m.invoices) && m.settled == old(m.settled)
    ensures Silent(others) && (sub in old(m.schedules) ==> Swept(old(m.schedules[sub]), now) == old(m.schedules[sub])) ==>
      m.Contents() == old(m.Contents())
  {
    hide Tracked, Undergone, Swept;
    ghost var start := m.schedules;
    TrackedKeys(before, start, others, at, now);
    Interfere(m, others(|at|));
    SameKeys(start, m.schedules, others(|at|));
    NextLock(before, start, m.schedules, others, at, now, sub);
    SweptKeepsKey(m.schedules[sub], now);
    TakeUp(m, sub, now, reachable, clock);
  }

  /** One pass, with other tasks running before every lock. Each schedule goes through the others'
      events, in order, and through exactly one sweep at `now` if it was listed; `at` says under which
      lock. If the others are silent, every schedule ends with the status its own period demands. */
  method RunOnce(m: Memory, now: Time, reachable: SubId -> bool, clock: Time, others: Others) returns (at: map<SubId, nat>)
    requires Keyed(m.schedules)
    modifies m
    ensures Keyed(m.schedules) && at.Keys == DueSchedules(old(m.schedules), now)
    ensures Tracked(old(m.schedules), m.schedules, others, at, now)
    ensures m.invoices == old(m.invoices) && m.settled == old(m.settled)
    ensures Silent(others) ==> m.schedules == SweptAll(old(m.schedules), now)
    ensures Silent(others) && (forall sub :: sub in old(m.schedules) ==> Done(old(m.schedules[sub]), now)) ==>
      m.Contents() == old(m.Contents())
  {
    hide Tracked, Swept, Silent, Keyed;
    var rest := DueSchedules(m.schedules, now);
    ghost var before, due := m.schedules, rest;
    ghost var idle := Silent(others) && forall sub :: sub in before ==> Done(before[sub], now);
    at := map[];
    Untouched(before, others, now);
    while rest != {}
      invariant rest <= due && at.Keys == due - rest && Keyed(m.schedules)
      invariant Tracked(before, m.schedules, others, at, now)
      invariant m.invoices == old(m.invoices) && m.settled == old(m.settled)
      invariant idle ==> m.Contents() == old(m.Contents())
      decreases rest
    {
      var sub := Pick(rest);
      SilentSweep(before[sub], now);
      NextSchedule(m, sub, now, reachable(sub), clock, others, at, before);
      rest, at := rest - {sub}, at[sub := |at|];
    }
    if Silent(others) { SilentPass(before, m.schedules, others, at, now); }
  }

  /** No other task touches a schedule during the pass. */
  ghost predicate Silent(others: Others) {
    forall n :: others(n) == []
  }

  /** The order of the listing is left open. */
  method Pick(rest: set<SubId>) returns (sub: SubId)
    requires rest != {}
    ensures sub in rest
  {
    sub :| sub in rest;
  }

  lemma Untouched(before: map<SubId, Schedule>, others: Others, now: Time)
    ensures Tracked(before, before, others, map[], now)
  {
  }

  lemma TrackedKeys(before: map<SubId, Schedule>, after: map<SubId, Schedule>, others: Others, at: map<SubId, nat>, now: Time)
    requires Tracked(before, after, others, at, now)
    ensures after.Keys == before.Keys
  {
  }

  lemma SameKeys(before: map<SubId, Schedule>, after: map<SubId, Schedule>, events: seq<(SubId, Event)>)
    requires Undergone(before, after, events)
    ensures after.Keys == before.Keys
  {
  }

  lemma SilentSweep(sched: Schedule, now: Time)
    ensures Done(sched, now) && sched.status != Expired && sched.expiresAt <= now ==> Swept(sched, now) == sched
  {
  }

  lemma SweptKeepsKey(sched: Schedule, now: Time)
    ensures Swept(sched, now).sub == sched.sub
  {
  }

  /** One more lock: the others' events before it come last, unless the sweep itself does. */
  lemma HistoryGrows(others: Others, sub: SubId, at: Option<nat>, locks: nat, now: Time)
    requires at.Some? ==> at.value < locks
    ensures History(others, sub, at, locks + 1, now) == History(others, sub, at, locks, now) + On(others(locks), sub)
    ensures History(others, sub, Some(locks), locks + 1, now) == History(others, sub, None, locks + 1, now) + [Sweep(now)]
  {
    if at.Some? {
      var a, b := OnFrom(others, sub, 0, at.value + 1) + [Sweep(now)], OnFrom(others, sub, at.value + 1, locks);
      assert a + (b + On(others(locks), sub)) == (a + b) + On(others(locks), sub);
    }
  }

  lemma {:induction false} SilentFrom(others: Others, sub: SubId, lo: nat, hi: nat)
    requires lo <= hi && Silent(others)
    ensures OnFrom(others, sub, lo, hi) == []
  {
    if lo < hi { SilentFrom(others, sub, lo, hi - 1); }
  }

  lemma SilentHistory(others: Others, sub: SubId, at: Option<nat>, locks: nat, now: Time)
    requires (at.Some? ==> at.value < locks) && Silent(others)
    ensures History(others, sub, at, locks, now) == if at.Some? then [Sweep(now)] else []
  {
    hide OnFrom;
    SilentFrom(others, sub, 0, locks);
    if at.Some? {
      SilentFrom(others, sub, 0, at.value + 1);
      SilentFrom(others, sub, at.value + 1, locks);
    }
  }

  lemma SilentPass(before: map<SubId, Schedule>, after: map<SubId, Schedule>, others: Others, at: map<SubId, nat>, now: Time)
    requires Tracked(before, after, others, at, now) && Silent(others) && at.Keys == DueSchedules(before, now)
    ensures after == SweptAll(before, now)
  {
    hide History, Swept;
    forall sub | sub in before ensures after[sub] == SweptAll(before, now)[sub] {
      SilentHistory(others, sub, Taken(at, sub), |at|, now);
      AfterOne(before[sub], [], Sweep(now));
      assert [] + [Sweep(now)] == [Sweep(now)];
    }
  }

  /** The status is the one its period demands at `now`, as far as sweeping goes. */
  predicate Done(sched: Schedule, now: Time) {
    sched.status == Expired || now < sched.expiresAt || Transition(sched, now) == Some(sched.status)
  }

  /** After a pass every schedule is done, so a second pass at the same instant stages nothing. */
  lemma SecondPassIsIdle(schedules: map<SubId, Schedule>, now: Time)
    requires forall sub :: sub in schedules ==> schedules[sub].expiresAt <= schedules[sub].graceUntil
    ensures forall sub :: sub in schedules ==> Done(SweptAll(schedules, now)[sub], now)
    ensures SweptAll(SweptAll(schedules, now), now) == SweptAll(schedules, now)
  {
    var once := SweptAll(schedules, now);
    forall sub | sub in schedules ensures Done(once[sub], now) && SweptAll(once, now)[sub] == once[sub] {
      assert once[sub] == schedules[sub] || once[sub] == Swept(schedules[sub], now);
    }
  }

  /** A renewal that gets in between the listing and the lock is spared: in the history of the pass its
      sweep then changes nothing, neither at a clock not past the renewal's nor before the new expiry. */
  lemma RenewalBeforeLockIsSpared(others: Others, sched: Schedule, sub: SubId, lock: nat, credited: Time, terms: Terms, now: Time)
    requires terms.duration > 0 && terms.grace >= 0
    requires On(others(lock), sub) != [] && On(others(lock), sub)[|On(others(lock), sub)| - 1] == Credit(credited, terms)
    ensures
      var before := OnFrom(others, sub, 0, lock + 1);
      && (now <= credited || now < After(sched, before).expiresAt ==> After(sched, before + [Sweep(now)]) == After(sched, before))
      && After(sched, History(others, sub, Some(lock), lock + 1, now)) == After(sched, before + [Sweep(now)])
  {
    var before := OnFrom(others, sub, 0, lock + 1);
    var init := before[..|before| - 1];
    assert before == init + [Credit(credited, terms)];
    AfterOne(sched, init, Credit(credited, terms));
    AfterOne(sched, before, Sweep(now));
    HistoryGrows(others, sub, None, lock, now);
  }

  // ----- does the status go back? -----------------------------------------------------------------------

  function Rank(status: SubscriptionStatus): int {
    match status
    case Active => 0
    case PastDue => 1
    case Expired => 2
    case _ => -1
  }

  /** A status is never ahead of the clock that set it. */
  predicate Timely(sched: Schedule, clock: Time) {
    && sched.expiresAt <= sched.graceUntil && sched.status in {Active, PastDue, Expired}
    && (sched.status == PastDue ==> sched.expiresAt <= clock) && (sched.status == Expired ==> sched.graceUntil <= clock)
  }

  ghost predicate Forward(events: seq<Event>, from: Time) {
    && (forall k :: 0 <= k < |events| ==> events[k].now >= from)
    && (forall j, k :: 0 <= j < k < |events| ==> events[j].now <= events[k].now)
    && (forall k :: 0 <= k < |events| && events[k].Credit? ==> events[k].terms.duration > 0 && events[k].terms.grace >= 0)
  }

  lemma {:induction false} AfterIsTimely(sched: Schedule, events: seq<Event>, from: Time)
    requires Timely(sched, from) && Forward(events, from)
    ensures Timely(After(sched, events), if events == [] then from else events[|events| - 1].now)
  {
    if events != [] {
      AfterIsTimely(sched, events[..|events| - 1], from);
    }
  }

  /** For one sweeper on a clock that never goes back: between two credits the period does not
      move and the status only advances, from active to past due to expired. */
  lemma {:induction false} StatusAdvances(sched: Schedule, events: seq<Event>, from: Time, j: nat)
    requires Timely(sched, from) && Forward(events, from) && j <= |events|
    requires forall k :: j <= k < |events| ==> events[k].Sweep?
    ensures
      var early, late := After(sched, events[..j]), After(sched, events);
      && Rank(early.status) <= Rank(late.status) && early.revision <= late.revision
      && late.expiresAt == early.expiresAt && late.graceUntil == early.graceUntil && late.plan == early.plan
  {
    if j == |events| {
      assert events[..j] == events;
    } else {
      var init := events[..|events| - 1];
      assert init[..j] == events[..j];
      StatusAdvances(sched, init, from, j);
      AfterIsTimely(sched, init, from);
    }
  }

  // With several clocks: exactly when the status goes back.

  predicate Ordered(sched: Schedule) {
    sched.expiresAt <= sched.graceUntil && sched.status in {Active, PastDue, Expired}
  }

  predicate GraceOk(events: seq<Event>) {
    forall k :: 0 <= k < |events| && events[k].Credit? ==> events[k].terms.grace >= 0
  }

  /** One sweep lowers the status exactly when it finds an expired schedule and its clock is inside
      the grace. */
  lemma SweepGoesBack(sched: Schedule, now: Time)
    requires Ordered(sched)
    ensures Rank(Swept(sched, now).status) < Rank(sched.status) <==>
      sched.status == Expired && sched.expiresAt <= now < sched.graceUntil
    ensures Ordered(Swept(sched, now))
    ensures Swept(sched, now).expiresAt == sched.expiresAt && Swept(sched, now).graceUntil == sched.graceUntil
    ensures Swept(sched, now).status == Expired <==>
      now >= sched.graceUntil || (sched.status == Expired && now < sched.expiresAt)
  {
  }

  /** The schedule before event `k`. */
  function At(sched: Schedule, events: seq<Event>, k: nat): Schedule
    requires k <= |events|
  {
    After(sched, events[..k])
  }

  lemma AtNext(sched: Schedule, events: seq<Event>, k: nat)
    requires k < |events|
    ensures At(sched, events, k + 1) == Step(At(sched, events, k), events[k])
  {
    hide Step;
    assert events[..k + 1][..k] == events[..k];
  }

  lemma {:induction false} AtIsOrdered(sched: Schedule, events: seq<Event>, k: nat)
    requires Ordered(sched) && GraceOk(events) && k <= |events|
    ensures Ordered(At(sched, events, k))
  {
    if k == 0 {
      assert events[..0] == [];
    } else {
      AtIsOrdered(sched, events, k - 1);
      AtNext(sched, events, k - 1);
    }
  }

  /** Event `k` is a sweep that lowers the status. */
  predicate LowersAt(sched: Schedule, events: seq<Event>, k: nat)
    requires k < |events|
  {
    events[k].Sweep? && Rank(At(sched, events, k + 1).status) < Rank(At(sched, events, k).status)
  }

  ghost predicate GoesBack(sched: Schedule, events: seq<Event>) {
    exists k :: 0 <= k < |events| && LowersAt(sched, events, k)
  }

  predicate OnlySweeps(events: seq<Event>, lo: nat, hi: nat)
    requires lo <= hi <= |events|
  {
    forall k :: lo <= k < hi ==> events[k].Sweep?
  }

  /** Sweep `a` has a clock past the grace, sweep `b` after it one inside the grace, and no credit
      comes between them. */
  predicate SkewedAt(sched: Schedule, events: seq<Event>, a: nat, b: nat)
    requires a < b < |events|
  {
    var period := At(sched, events, a);
    && OnlySweeps(events, a, b + 1)
    && events[a].now >= period.graceUntil && period.expiresAt <= events[b].now < period.graceUntil
  }

  ghost predicate Skewed(sched: Schedule, events: seq<Event>) {
    exists a, b :: 0 <= a < b < |events| && SkewedAt(sched, events, a, b)
  }

  /** Sweeps leave the period alone. */
  lemma {:induction false} SamePeriod(sched: Schedule, events: seq<Event>, lo: nat, hi: nat)
    requires lo <= hi <= |events| && OnlySweeps(events, lo, hi)
    ensures At(sched, events, hi).expiresAt == At(sched, events, lo).expiresAt
    ensures At(sched, events, hi).graceUntil == At(sched, events, lo).graceUntil
  {
    hide At;
    if lo < hi {
      SamePeriod(sched, events, lo, hi - 1);
      AtNext(sched, events, hi - 1);
    }
  }

  /** An expired status was given by a sweep past the grace, with no credit since. */
  lemma {:induction false} WhoExpired(sched: Schedule, events: seq<Event>, k: nat) returns (a: nat)
    requires Ordered(sched) && GraceOk(events) && sched.status != Expired && k <= |events|
    requires At(sched, events, k).status == Expired
    ensures a < k && OnlySweeps(events, a, k) && events[a].now >= At(sched, events, a).graceUntil
  {
    hide At;
    assert k > 0 by { AtStart(sched, events); }
    AtNext(sched, events, k - 1);
    AtIsOrdered(sched, events, k - 1);
    SweepGoesBack(At(sched, events, k - 1), events[k - 1].now);
    if events[k - 1].now >= At(sched, events, k - 1).graceUntil {
      a := k - 1;
    } else {
      a := WhoExpired(sched, events, k - 1);
    }
  }

  lemma AtStart(sched: Schedule, events: seq<Event>)
    ensures At(sched, events, 0) == sched
  {
    assert events[..0] == [];
  }

  /** Between an expired status and one that is not, some sweep lowered it. */
  lemma {:induction false} LoweredBetween(sched: Schedule, events: seq<Event>, lo: nat, hi: nat) returns (k: nat)
    requires Ordered(sched) && GraceOk(events) && lo <= hi <= |events| && OnlySweeps(events, lo, hi)
    requires At(sched, events, lo).status == Expired && At(sched, events, hi).status != Expired
    ensures k < |events| && LowersAt(sched, events, k)
  {
    hide At;
    if At(sched, events, hi - 1).status == Expired {
      k := hi - 1;
      AtNext(sched, events, k);
      AtIsOrdered(sched, events, hi);
    } else {
      k := LoweredBetween(sched, events, lo, hi - 1);
    }
  }

  /** The exact condition, for any number of sweepers on arbitrary clocks and any credits: the status
      goes back between credits if and only if a sweep whose clock is inside the grace follows one
      whose clock was past it, with no credit between them. */
  lemma GoesBackExactly(sched: Schedule, events: seq<Event>)
    requires Ordered(sched) && sched.status != Expired && GraceOk(events)
    ensures GoesBack(sched, events) <==> Skewed(sched, events)
  {
    hide At;
    if GoesBack(sched, events) {
      var k :| 0 <= k < |events| && LowersAt(sched, events, k);
      AtNext(sched, events, k);
      AtIsOrdered(sched, events, k);
      SweepGoesBack(At(sched, events, k), events[k].now);
      var a := WhoExpired(sched, events, k);
      SamePeriod(sched, events, a, k);
      assert SkewedAt(sched, events, a, k);
    }
    if Skewed(sched, events) {
      var a, b :| 0 <= a < b < |events| && SkewedAt(sched, events, a, b);
      SkewLowers(sched, events, a, b);
    }
  }

  lemma SkewLowers(sched: Schedule, events: seq<Event>, a: nat, b: nat)
    requires Ordered(sched) && GraceOk(events) && a < b < |events| && SkewedAt(sched, events, a, b)
    ensures GoesBack(sched, events)
  {
    hide At;
    AtNext(sched, events, a);
    AtIsOrdered(sched, events, a);
    SweepGoesBack(At(sched, events, a), events[a].now);
    SamePeriod(sched, events, a, b);
    if At(sched, events, b).status == Expired {
      AtNext(sched, events, b);
      AtIsOrdered(sched, events, b);
      SweepGoesBack(At(sched, events, b), events[b].now);
      assert LowersAt(sched, events, b);
    } else {
      var k := LoweredBetween(sched, events, a + 1, b);
    }
  }

  /** The smallest such history: a slow sweeper that listed the schedule before a fast one expired it
      turns it past due again. */
  lemma SkewedSweepersGoBack(sched: Schedule, fast: Time, slow: Time)
    requires sched.status == Active && sched.expiresAt <= slow < sched.graceUntil <= fast
    ensures After(sched, [Sweep(fast), Sweep(slow)]).status == PastDue
    ensures After(sched, [Sweep(fast)]).status == Expired
  {
    hide After;
    AfterOne(sched, [], Sweep(fast));
    AfterOne(sched, [Sweep(fast)], Sweep(slow));
    assert [] + [Sweep(fast)] == [Sweep(fast)] && [Sweep(fast)] + [Sweep(slow)] == [Sweep(fast), Sweep(slow)];
    AfterNone(sched);
  }

  lemma AfterNone(sched: Schedule)
    ensures After(sched, []) == sched
  {
  }
}
