/** The subscription service's statements on the tables. */
module SubscriptionServiceModule {
  import opened Wrappers
  import opened SubscriptionReference
  import opened SubscriptionDomain

  datatype SubscribeResult = Subscribed(id: int) | PlanMissing | AlreadySubscribed

  class SubscriptionService {
    const plans: set<int>
    var db: Db
    var nextId: nat

    predicate Valid()
      reads this
    {
      && UniqueReferences(db.subs) && OneCurrent(db.subs)
      && forall id :: id in db.subs ==> 0 <= id < nextId
    }

    constructor (plans: set<int>)
      ensures Valid() && this.plans == plans && db == Db(map[], {})
    {
      this.plans, db, nextId := plans, Db(map[], {}), 0;
    }

    /** The tenant's newest subscription, whatever its status. */
    predicate Newest(tenant: string, id: int)
      reads this
    {
      && id in db.subs && db.subs[id].tenant == tenant
      && forall j :: j in db.subs && db.subs[j].tenant == tenant ==> db.subs[j].createdAt <= db.subs[id].createdAt
    }

    predicate HasCurrent(tenant: string)
      reads this
    {
      exists id :: id in db.subs && db.subs[id].tenant == tenant && db.subs[id].status != Canceled
    }

    /** Looks at the newest subscription first; the partial unique index catches what that misses.
        Together they succeed exactly if the tenant has no current subscription. */
    method Subscribe(tenant: string, plan: int, nonce: string, now: int) returns (r: SubscribeResult)
      requires Valid() && IsUuid(tenant) && IsUuid(nonce)
      requires forall id :: id in db.subs ==> db.subs[id].reference != BuildReference(tenant, nonce)
      modifies this
      ensures Valid()
      ensures plan !in plans ==> r == PlanMissing
      ensures plan in plans ==>
        (r == AlreadySubscribed <==>
           exists id :: id in old(db.subs) && old(db.subs)[id].tenant == tenant && old(db.subs)[id].status != Canceled)
      ensures !r.Subscribed? ==> db == old(db)
      ensures r.Subscribed? ==>
        && r.id !in old(db.subs)
        && db == old(db).(subs := old(db.subs)[r.id := Subscription(tenant, plan, BuildReference(tenant, nonce), Trialing, now)])
        && TenantFromReference(db.subs[r.id].reference) == Some(tenant)
    {
      if plan !in plans { return PlanMissing; }
      if exists id :: id in db.subs && Newest(tenant, id) && db.subs[id].status != Canceled {
        return AlreadySubscribed;
      }
      var reference := BuildReference(tenant, nonce);
      ReferenceRoundTrip(tenant, nonce);
      if HasCurrent(tenant) { return AlreadySubscribed; }   // 23505
      db := db.(subs := db.subs[nextId := Subscription(tenant, plan, reference, Trialing, now)]);
      nextId := nextId + 1;
      return Subscribed(nextId - 1);
    }

    /** True exactly if this event was not claimed before. */
    method ClaimEvent(provider: int, eventId: int) returns (isNew: bool)
      modifies this`db
      ensures isNew == ((provider, eventId) !in old(db.receipts))
      ensures db == old(db).(receipts := old(db.receipts) + {(provider, eventId)})
    {
      isNew := (provider, eventId) !in db.receipts;
      db := db.(receipts := db.receipts + {(provider, eventId)});
    }

    /** Claim and apply in one transaction; `fails` says that the transaction breaks before its commit,
        which undoes the claim as well. */
    method ConsumeWebhook(provider: int, event: PaymentEvent, fails: bool)
      requires Valid()
      modifies this`db
      ensures Valid() && db == Deliver(old(db), Delivery(provider, event, !fails))
      ensures
        var tenant := TenantFromReference(event.reference);
        if fails || tenant.None? || (provider, event.id) in old(db.receipts) then db == old(db)
        else
          && db.receipts == old(db.receipts) + {(provider, event.id)}
          && Settled(old(db.subs), db.subs, tenant.value, event)
    {
      var tenant := TenantFromReference(event.reference);
      if tenant.None? { return; }
      var before := db;
      var isNew := ClaimEvent(provider, event.id);
      if !isNew {
        assert db == before;
        return;
      }
      var found := exists id :: id in db.subs && Found(db.subs, tenant.value, event.reference, id);
      if found {
        var id :| id in db.subs && Found(db.subs, tenant.value, event.reference, id);
        AppliedToOne(db.subs, tenant.value, event, id);
        if CanTransition(db.subs[id].status, NextStatus(event)) {
          db := db.(subs := db.subs[id := db.subs[id].(status := NextStatus(event))]);
        }
      }
      if !found { AppliedToNone(db.subs, tenant.value, event); }
      assert db.subs == Applied(before.subs, tenant.value, event);
      AppliedSettles(before.subs, tenant.value, event);
      if fails { db := before; }
    }
  }
}
