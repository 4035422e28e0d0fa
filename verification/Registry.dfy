/** The control-plane's subscription records: the revision-fenced billing register, first-time
    creation, manual cancellation, and when a record admits its user. */
module Registry {
  import opened Prelude
  import opened Ledger

  /** An absolute entitlement snapshot as it travels to the control-plane. */
  datatype BillingState = BillingState(
    plan: Plan, revision: int, status: SubscriptionStatus, expiresAt: Time, graceUntil: Time)

  predicate Validates(state: BillingState) {
    && (state.plan == "" || PlanValid(state.plan))
    && state.revision > 0 && state.expiresAt != 0 && state.expiresAt <= state.graceUntil
  }

  datatype Subscription = Subscription(
    id: SubId, user: UserId, plan: Plan, status: SubscriptionStatus,
    expiresAt: Option<Time>, graceUntil: Option<Time>, billingRevision: nat)

  function AccessUntil(s: Subscription): Option<Time> {
    if s.graceUntil != None then s.graceUntil else s.expiresAt
  }

  predicate Servable(status: SubscriptionStatus) {
    status == Active || status == Trialing || status == PastDue
  }

  /** The delivery service's admission check at instant `now`. */
  predicate ServableAt(s: Subscription, now: Time) {
    Servable(s.status) && (AccessUntil(s) == None || AccessUntil(s).value > now)
  }

  /** `links` maps each known account to its subscription, if it has one; `hashes` holds the
      digest of the last applied state. A digest is modelled by its preimage. */
  datatype Registry = Registry(
    links: map<UserId, Option<SubId>>,
    subs: map<SubId, Subscription>,
    hashes: map<SubId, BillingState>)

  const EmptyRegistry := Registry(map[], map[], map[])

  function Rounded(state: BillingState): BillingState {
    state.(expiresAt := Truncate(state.expiresAt), graceUntil := Truncate(state.graceUntil))
  }

  function Fingerprint(state: BillingState, currentPlan: Plan): BillingState {
    Rounded(if state.plan == "" then state.(plan := currentPlan) else state)
  }

  /** The same revision must carry the same content; without a stored digest the content is
      compared with the record itself. */
  predicate Contradicts(s: Subscription, hashes: map<SubId, BillingState>, id: SubId, state: BillingState) {
    && state.revision == s.billingRevision
    && if id in hashes then hashes[id] != Fingerprint(state, s.plan)
       else
         || (state.plan != "" && s.plan != state.plan) || state.status != s.status
         || s.expiresAt != Some(state.expiresAt) || s.graceUntil != Some(state.graceUntil)
  }

  /** The repository step: conflict on contradiction, write only a higher revision. */
  function ApplyRounded(r: Registry, id: SubId, state: BillingState): Result<Registry, Failure> {
    if id !in r.subs then Err(NotFound)
    else
      var s := r.subs[id];
      if Contradicts(s, r.hashes, id, state) then Err(Conflict)
      else if state.revision > s.billingRevision then
        Ok(r.(
          hashes := r.hashes[id := Fingerprint(state, s.plan)],
          subs := r.subs[id := s.(
            plan := if state.plan != "" then state.plan else s.plan,
            billingRevision := state.revision, status := state.status,
            expiresAt := Some(state.expiresAt), graceUntil := Some(state.graceUntil))]))
      else Ok(r)
  }

  /** The whole service call: validate, round to the stored precision, apply. */
  function ApplyBillingState(r: Registry, id: SubId, state: BillingState): Result<Registry, Failure> {
    if !Validates(state) then Err(Validation) else ApplyRounded(r, id, Rounded(state))
  }

  function CancelSubscription(r: Registry, id: SubId): Result<Registry, Failure> {
    if id !in r.subs then Err(NotFound)
    else Ok(r.(subs := r.subs[id := r.subs[id].(status := Canceled)]))
  }

  /** One atomic insert-and-link; a user who is already linked keeps the first subscription. */
  function CreateAndLink(r: Registry, s: Subscription): Result<Registry, Failure> {
    if s.user !in r.links then Err(NotFound)
    else if r.links[s.user] != None && r.links[s.user].value != "" then Err(Conflict)
    else Ok(r.(subs := r.subs[s.id := s], links := r.links[s.user := Some(s.id)]))
  }

  /** Returns the linked subscription, or creates an unpaid one under the new id. */
  function EnsureSubscription(r: Registry, user: UserId, plan: Plan, newId: SubId, now: Time)
    : Result<(Registry, SubId), Failure>
  {
    if !PlanValid(plan) then Err(Validation)
    else if user !in r.links then Err(NotFound)
    else if r.links[user] != None then
      if r.links[user].value in r.subs then Ok((r, r.links[user].value)) else Err(NotFound)
    else
      match CreateAndLink(r, Subscription(newId, user, plan, Expired, Some(now), None, 0))
      case Ok(r') => Ok((r', newId))
      case Err(e) => Err(e)
  }

  /** Accounts, links and subscriptions are only gained, and a link leads to a subscription. */
  ghost predicate Later(a: Registry, b: Registry) {
    && (forall u :: u in a.links ==> u in b.links && (a.links[u].Some? ==> b.links[u] == a.links[u]))
    && a.subs.Keys <= b.subs.Keys
  }

  ghost predicate Linked(r: Registry) {
    forall u :: u in r.links && r.links[u].Some? ==> r.links[u].value in r.subs && r.links[u].value != ""
  }

  function Get(r: Registry, id: SubId): Result<SubId, Failure> {
    if id in r.subs then Ok(id) else Err(NotFound)
  }

  /** The service's own calls, with other calls between them: the account is read at `first`, the
      subscription is created at `second`, and the account is read again at `third` if that lost. With
      the answer comes the registry that the creation left. */
  function EnsureInSteps(first: Registry, second: Registry, third: Registry, user: UserId, plan: Plan, newId: SubId, now: Time)
    : (Result<SubId, Failure>, Registry)
  {
    if !PlanValid(plan) then (Err(Validation), second)
    else if user !in first.links then (Err(NotFound), second)
    else if first.links[user].Some? then (Get(first, first.links[user].value), second)
    else
      match CreateAndLink(second, Subscription(newId, user, plan, Expired, Some(now), None, 0))
      case Ok(after) => (Ok(newId), after)
      case Err(e) =>
        if e == Conflict && user in third.links && third.links[user].Some? then (Get(third, third.links[user].value), second)
        else (Err(e), second)
  }

  /** In three steps or in one: the answer and the effect are those of the whole call made at the moment
      of the creation, unless the account was registered only after it had been looked up. */
  lemma EnsureInStepsIsAtomic(first: Registry, second: Registry, third: Registry, user: UserId, plan: Plan, newId: SubId, now: Time)
    requires Later(first, second) && Later(second, third) && Linked(first) && Linked(second)
    ensures
      var steps := EnsureInSteps(first, second, third, user, plan, newId, now);
      if PlanValid(plan) && user !in first.links then steps == (Err(NotFound), second)
      else match EnsureSubscription(second, user, plan, newId, now)
           case Ok(atomic) => steps == (Ok(atomic.1), atomic.0)
           case Err(e) => steps == (Err(e), second)
  {
  }

  // ----- the register as a fenced, conflict-checked cell ---------------------------------

  /** Feeds requests in the order they arrive; a rejected request changes nothing. */
  function Feed(r: Registry, id: SubId, arrivals: seq<BillingState>): Registry {
    if arrivals == [] then r
    else
      var before := Feed(r, id, arrivals[..|arrivals| - 1]);
      match ApplyBillingState(before, id, arrivals[|arrivals| - 1])
      case Ok(after) => after
      case Err(_) => before
  }

  /** A log of states numbered 1, 2, 3, ..., each fit to be applied. */
  ghost predicate IsLog(log: seq<BillingState>) {
    forall k :: 0 <= k < |log| ==> log[k].revision == k + 1 && Validates(log[k]) && log[k].plan != ""
  }

  function HashOf(hashes: map<SubId, BillingState>, id: SubId): Option<BillingState> {
    if id in hashes then Some(hashes[id]) else None
  }

  /** A record at revision `r` holds entry `log[r - 1]`, whatever was cancelled by hand since. */
  predicate Holds(s: Subscription, hash: Option<BillingState>, log: seq<BillingState>) {
    if s.billingRevision == 0 then hash == None
    else
      && s.billingRevision <= |log|
      && var e := Rounded(log[s.billingRevision - 1]);
         && hash == Some(e) && s.plan == e.plan && (s.status == e.status || s.status == Canceled)
         && s.expiresAt == Some(e.expiresAt) && s.graceUntil == Some(e.graceUntil)
  }

  ghost predicate RegisterHolds(r: Registry, id: SubId, log: seq<BillingState>) {
    id in r.subs && Holds(r.subs[id], HashOf(r.hashes, id), log)
  }

  /** One arrival of any log entry: never a conflict, and the revision becomes the maximum. */
  lemma ApplyLogged(r: Registry, id: SubId, log: seq<BillingState>, k: nat)
    requires IsLog(log) && k < |log| && RegisterHolds(r, id, log)
    ensures ApplyBillingState(r, id, log[k]).Ok?
    ensures
      var after := ApplyBillingState(r, id, log[k]).value;
      && RegisterHolds(after, id, log) && after.links == r.links && after.subs.Keys == r.subs.Keys
      && after.subs[id].user == r.subs[id].user && after.hashes.Keys <= r.hashes.Keys + {id}
      && after.subs[id].billingRevision == (if r.subs[id].billingRevision < k + 1 then k + 1 else r.subs[id].billingRevision)
      && (r.subs[id].billingRevision >= k + 1 ==> after == r)
      && (r.subs[id].billingRevision < k + 1 ==> after.subs[id].status == log[k].status)
      && (forall other :: other != id && other in r.subs ==>
           after.subs[other] == r.subs[other] && HashOf(after.hashes, other) == HashOf(r.hashes, other))
  {
  }

  function MaxRevision(arrivals: seq<BillingState>): int {
    if arrivals == [] then 0
    else
      var m := MaxRevision(arrivals[..|arrivals| - 1]);
      if arrivals[|arrivals| - 1].revision > m then arrivals[|arrivals| - 1].revision else m
  }

  /** Any lossy, duplicated, reordered arrival of one log is accepted throughout and leaves the
      register at the highest revision that arrived (or where it was, if that is higher). */
  lemma {:induction false} FeedHoldsHighest(r: Registry, id: SubId, log: seq<BillingState>, arrivals: seq<BillingState>)
    requires IsLog(log) && RegisterHolds(r, id, log)
    requires forall a :: a in arrivals ==> a in log
    ensures RegisterHolds(Feed(r, id, arrivals), id, log)
    ensures
      var was, top := r.subs[id].billingRevision, MaxRevision(arrivals);
      Feed(r, id, arrivals).subs[id].billingRevision == if top > was then top else was
    ensures arrivals != [] ==>
      ApplyBillingState(Feed(r, id, arrivals[..|arrivals| - 1]), id, arrivals[|arrivals| - 1]).Ok?
  {
    if arrivals != [] {
      var init, last := arrivals[..|arrivals| - 1], arrivals[|arrivals| - 1];
      FeedHoldsHighest(r, id, log, init);
      assert last in arrivals;
      var k :| 0 <= k < |log| && log[k] == last;
      ApplyLogged(Feed(r, id, init), id, log, k);
    }
  }

  /** A manual cancellation survives every arrival, in any number and order and with any
      content, of a revision the register has already reached. */
  lemma {:induction false} CancelSurvivesReplay(r: Registry, id: SubId, arrivals: seq<BillingState>)
    requires id in r.subs
    requires forall a :: a in arrivals ==> a.revision <= r.subs[id].billingRevision
    ensures Feed(CancelSubscription(r, id).value, id, arrivals) == CancelSubscription(r, id).value
    ensures forall t :: !ServableAt(Feed(CancelSubscription(r, id).value, id, arrivals).subs[id], t)
  {
    if arrivals != [] {
      assert arrivals[|arrivals| - 1] in arrivals;
      CancelSurvivesReplay(r, id, arrivals[..|arrivals| - 1]);
    }
  }
}
