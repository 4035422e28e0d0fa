/** The control-plane's repositories as the source keeps them: one object whose maps every call
    updates in place, proved to follow `Registry`. */
module ControlPlane {
  import opened Prelude
  import opened Ledger
  import opened Registry

  class Subscriptions {
    var links: map<UserId, Option<SubId>>
    var subs: map<SubId, Subscription>
    var hashes: map<SubId, BillingState>

    function Contents(): Registry
      reads this
    {
      Registry(links, subs, hashes)
    }

    constructor ()
      ensures Contents() == EmptyRegistry
    {
      links, subs, hashes := map[], map[], map[];
    }

    /** Validates, rounds to the stored precision, refuses a contradiction, and writes only a
        higher revision. */
    method Apply(id: SubId, state: BillingState) returns (failure: Option<Failure>)
      modifies this
      ensures match ApplyBillingState(old(Contents()), id, state)
              case Ok(after) => failure == None && Contents() == after
              case Err(e) => failure == Some(e) && Contents() == old(Contents())
    {
      if !Validates(state) { return Some(Validation); }
      var rounded := Rounded(state);
      if id !in subs { return Some(NotFound); }
      var s := subs[id];
      var incoming := Fingerprint(rounded, s.plan);
      if rounded.revision == s.billingRevision {
        if id in hashes {
          if hashes[id] != incoming { return Some(Conflict); }
        } else if (rounded.plan != "" && s.plan != rounded.plan) || rounded.status != s.status
                  || s.expiresAt != Some(rounded.expiresAt) || s.graceUntil != Some(rounded.graceUntil) {
          return Some(Conflict);
        }
      }
      if rounded.revision > s.billingRevision {
        if rounded.plan != "" { s := s.(plan := rounded.plan); }
        hashes := hashes[id := incoming];
        s := s.(billingRevision := rounded.revision, status := rounded.status,
                expiresAt := Some(rounded.expiresAt), graceUntil := Some(rounded.graceUntil));
        subs := subs[id := s];
      }
      return None;
    }

    method Cancel(id: SubId) returns (ok: bool)
      modifies this`subs
      ensures match CancelSubscription(old(Contents()), id)
              case Ok(after) => ok && Contents() == after
              case Err(_) => !ok && Contents() == old(Contents())
    {
      ok := id in subs;
      if ok { subs := subs[id := subs[id].(status := Canceled)]; }
    }

    method InsertAndLink(s: Subscription) returns (failure: Option<Failure>)
      modifies this
      ensures match CreateAndLink(old(Contents()), s)
              case Ok(after) => failure == None && Contents() == after
              case Err(e) => failure == Some(e) && Contents() == old(Contents())
    {
      if s.user !in links { return Some(NotFound); }
      if links[s.user] != None && links[s.user].value != "" { return Some(Conflict); }
      subs := subs[s.id := s];
      links := links[s.user := Some(s.id)];
      return None;
    }

    /** Creates one unpaid subscription or returns the one the account has. */
    method Ensure(user: UserId, plan: Plan, newId: SubId, now: Time) returns (r: Result<SubId, Failure>)
      modifies this
      ensures match EnsureSubscription(old(Contents()), user, plan, newId, now)
              case Ok((after, id)) => r == Ok(id) && Contents() == after
              case Err(e) => r == Err(e) && Contents() == old(Contents())
    {
      if !PlanValid(plan) { return Err(Validation); }
      if user !in links { return Err(NotFound); }
      if links[user] != None {
        if links[user].value in subs { return Ok(links[user].value); }
        return Err(NotFound);
      }
      var failure := InsertAndLink(Subscription(newId, user, plan, Expired, Some(now), None, 0));
      return Ok(newId);
    }
  }
}
