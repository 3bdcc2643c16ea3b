/** Subscriptions, their lifecycle, and the effect of one payment event. */
module SubscriptionDomain {
  import opened Wrappers
  import opened SubscriptionReference

  datatype Status = Trialing | Active | PastDue | Canceled

  function Transitions(from: Status): seq<Status> {
    match from
    case Trialing => [Active, PastDue, Canceled]
    case Active => [PastDue, Canceled]
    case PastDue => [Active, Canceled]
    case Canceled => []
  }

  predicate CanTransition(from: Status, to: Status) {
    from == to || to in Transitions(from)
  }

  /** The lifecycle in full: every status may stay, a canceled one must. */
  lemma LifecycleIs(from: Status, to: Status)
    ensures CanTransition(from, to) <==>
      || from == to
      || (from == Trialing && (to == Active || to == PastDue || to == Canceled))
      || (from == Active && (to == PastDue || to == Canceled))
      || (from == PastDue && (to == Active || to == Canceled))
  {
  }

  datatype Subscription = Subscription(tenant: string, plan: int, reference: string, status: Status, createdAt: int)

  datatype EventType = Succeeded | Failed

  datatype PaymentEvent = PaymentEvent(id: int, kind: EventType, reference: string)

  /** Webhook receipts are unique by provider and event id. */
  datatype Db = Db(subs: map<int, Subscription>, receipts: set<(int, int)>)

  function NextStatus(event: PaymentEvent): Status {
    if event.kind == Succeeded then Active else PastDue
  }

  predicate UniqueReferences(subs: map<int, Subscription>) {
    forall i, j :: i in subs && j in subs && i != j ==> subs[i].reference != subs[j].reference
  }

  /** Each tenant has at most one subscription that is not canceled: the partial unique index. */
  predicate OneCurrent(subs: map<int, Subscription>) {
    forall i, j :: i in subs && j in subs && i != j && subs[i].tenant == subs[j].tenant ==>
      subs[i].status == Canceled || subs[j].status == Canceled
  }

  /** The lookup runs under the tenant's row security. */
  predicate Found(subs: map<int, Subscription>, tenant: string, reference: string, id: int) {
    id in subs && subs[id].reference == reference && subs[id].tenant == tenant
  }

  function Applied(subs: map<int, Subscription>, tenant: string, event: PaymentEvent): map<int, Subscription> {
    map id | id in subs ::
      if Found(subs, tenant, event.reference, id) && CanTransition(subs[id].status, NextStatus(event))
      then subs[id].(status := NextStatus(event)) else subs[id]
  }

  /** What the payment does, row by row: the tenant's subscription of this reference becomes active, or
      past due if the payment failed, unless it is canceled; every other row stays. */
  predicate Settled(subs: map<int, Subscription>, subs': map<int, Subscription>, tenant: string, event: PaymentEvent) {
    && subs'.Keys == subs.Keys
    && forall id :: id in subs ==>
         var b := subs[id];
         subs'[id] ==
           if b.tenant == tenant && b.reference == event.reference && b.status != Canceled
           then Subscription(b.tenant, b.plan, b.reference, if event.kind == Succeeded then Active else PastDue, b.createdAt)
           else b
  }

  lemma AppliedSettles(subs: map<int, Subscription>, tenant: string, event: PaymentEvent)
    ensures Settled(subs, Applied(subs, tenant, event), tenant, event)
  {
    forall id | id in subs ensures CanTransition(subs[id].status, NextStatus(event)) <==> subs[id].status != Canceled {
      LifecycleIs(subs[id].status, NextStatus(event));
    }
  }

  lemma AppliedToOne(subs: map<int, Subscription>, tenant: string, event: PaymentEvent, id: int)
    requires UniqueReferences(subs) && Found(subs, tenant, event.reference, id)
    ensures Applied(subs, tenant, event)
      == if CanTransition(subs[id].status, NextStatus(event)) then subs[id := subs[id].(status := NextStatus(event))] else subs
  {
  }

  lemma AppliedToNone(subs: map<int, Subscription>, tenant: string, event: PaymentEvent)
    requires forall id :: id in subs ==> !Found(subs, tenant, event.reference, id)
    ensures Applied(subs, tenant, event) == subs
  {
  }

  /** Claim and apply in one transaction. */
  function Consumed(db: Db, provider: int, event: PaymentEvent): Db {
    match TenantFromReference(event.reference)
    case None => db
    case Some(tenant) =>
      if (provider, event.id) in db.receipts then db
      else Db(Applied(db.subs, tenant, event), db.receipts + {(provider, event.id)})
  }

  /** What any number of deliveries may do to the table: the rows stay, and each status is where it
      was or where the lifecycle allows it to go from there. */
  predicate LegalChange(subs: map<int, Subscription>, subs': map<int, Subscription>) {
    && subs'.Keys == subs.Keys
    && forall id :: id in subs ==>
         && subs'[id] == subs[id].(status := subs'[id].status)
         && CanTransition(subs[id].status, subs'[id].status)
  }

  datatype Delivery = Delivery(provider: int, event: PaymentEvent, committed: bool)

  /** A delivery whose transaction fails leaves no trace. */
  function Deliver(db: Db, d: Delivery): Db {
    if d.committed then Consumed(db, d.provider, d.event) else db
  }

  function DeliverAll(db: Db, ds: seq<Delivery>): Db {
    if ds == [] then db else Deliver(DeliverAll(db, ds[..|ds| - 1]), ds[|ds| - 1])
  }

  predicate Counts(d: Delivery) {
    d.committed && TenantFromReference(d.event.reference).Some?
  }

  /** The deliveries without rolled-back attempts, foreign references and repeats. */
  function FirstsOnly(seen: set<(int, int)>, ds: seq<Delivery>): seq<Delivery> {
    if ds == [] then []
    else
      var init, d := FirstsOnly(seen, ds[..|ds| - 1]), ds[|ds| - 1];
      if Counts(d) && (d.provider, d.event.id) !in seen && !Delivered(init, d) then init + [d] else init
  }

  predicate Delivered(ds: seq<Delivery>, d: Delivery) {
    exists k :: 0 <= k < |ds| && ds[k].provider == d.provider && ds[k].event.id == d.event.id
  }

  lemma {:induction false} ReceiptsAreFirsts(db: Db, ds: seq<Delivery>, d: Delivery)
    ensures (d.provider, d.event.id) in DeliverAll(db, ds).receipts <==>
      (d.provider, d.event.id) in db.receipts || Delivered(FirstsOnly(db.receipts, ds), d)
  {
    if ds != [] {
      var n := |ds| - 1;
      ReceiptsAreFirsts(db, ds[..n], d);
      ReceiptsAreFirsts(db, ds[..n], ds[n]);
      var init := FirstsOnly(db.receipts, ds[..n]);
      if FirstsOnly(db.receipts, ds) != init {
        assert (init + [ds[n]])[|init|] == ds[n];
        if Delivered(init, d) {
          var k :| 0 <= k < |init| && init[k].provider == d.provider && init[k].event.id == d.event.id;
          assert (init + [ds[n]])[k] == init[k];
        }
      }
    }
  }

  /** Once-only effect: at-least-once delivery in any order, with repeats and failed attempts, ends in
      the same tables as delivering just the first committed copy of each event. */
  lemma {:induction false} OnceOnly(db: Db, ds: seq<Delivery>)
    ensures DeliverAll(db, ds) == DeliverAll(db, FirstsOnly(db.receipts, ds))
  {
    if ds != [] {
      var n := |ds| - 1;
      OnceOnly(db, ds[..n]);
      ReceiptsAreFirsts(db, ds[..n], ds[n]);
      var init := FirstsOnly(db.receipts, ds[..n]);
      assert (init + [ds[n]])[..|init|] == init;
    }
  }

  /** One delivery changes at most the subscription that its reference was built for, and only by one
      legal transition. */
  lemma DeliveryTouchesItsTenantOnly(db: Db, d: Delivery, id: int)
    requires id in db.subs
    ensures
      var subs' := Deliver(db, d).subs;
      id in subs' && (subs'[id] != db.subs[id] ==>
        && Some(db.subs[id].tenant) == TenantFromReference(d.event.reference)
        && db.subs[id].reference == d.event.reference
        && (d.provider, d.event.id) !in db.receipts
        && subs'[id] == db.subs[id].(status := NextStatus(d.event))
        && NextStatus(d.event) in Transitions(db.subs[id].status))
  {
  }

  lemma DeliveryKeepsIndexes(db: Db, d: Delivery)
    requires UniqueReferences(db.subs) && OneCurrent(db.subs)
    ensures UniqueReferences(Deliver(db, d).subs) && OneCurrent(Deliver(db, d).subs)
  {
  }

  lemma DeliveryIsLegal(db: Db, d: Delivery)
    ensures LegalChange(db.subs, Deliver(db, d).subs)
  {
    forall id | id in db.subs
      ensures
        var subs' := Deliver(db, d).subs;
        id in subs' && subs'[id] == db.subs[id].(status := subs'[id].status)
        && CanTransition(db.subs[id].status, subs'[id].status)
    {
      DeliveryTouchesItsTenantOnly(db, d, id);
    }
  }

  lemma LegalChangesCompose(a: map<int, Subscription>, b: map<int, Subscription>, c: map<int, Subscription>)
    requires LegalChange(a, b) && LegalChange(b, c)
    requires forall id :: id in c && id in b && c[id] != b[id] ==> c[id].status == Active || c[id].status == PastDue
    ensures LegalChange(a, c)
  {
  }

  /** A committed delivery names this subscription: by its reference, built for its tenant. */
  predicate Named(ds: seq<Delivery>, sub: Subscription) {
    exists k :: 0 <= k < |ds| && Names(ds[k], sub)
  }

  predicate Names(d: Delivery, sub: Subscription) {
    d.committed && d.event.reference == sub.reference && TenantFromReference(d.event.reference) == Some(sub.tenant)
  }

  /** Statuses move only along the lifecycle, so a canceled subscription stays canceled, and the index
      and the references stay unique. */
  lemma {:induction false} DeliveriesAreLegal(db: Db, ds: seq<Delivery>)
    requires UniqueReferences(db.subs) && OneCurrent(db.subs)
    ensures LegalChange(db.subs, DeliverAll(db, ds).subs)
    ensures UniqueReferences(DeliverAll(db, ds).subs) && OneCurrent(DeliverAll(db, ds).subs)
  {
    if ds != [] {
      var before, last := DeliverAll(db, ds[..|ds| - 1]), ds[|ds| - 1];
      DeliveriesAreLegal(db, ds[..|ds| - 1]);
      DeliveryIsLegal(before, last);
      DeliveryKeepsIndexes(before, last);
      LegalChangesCompose(db.subs, before.subs, Deliver(before, last).subs);
    }
  }

  /** Whatever is delivered, a subscription that no committed delivery names is left alone. */
  lemma {:induction false} OnlyNamedSubscriptionsMove(db: Db, ds: seq<Delivery>, id: int)
    requires id in db.subs
    ensures
      var subs' := DeliverAll(db, ds).subs;
      && id in subs' && subs'[id] == db.subs[id].(status := subs'[id].status)
      && (subs'[id] != db.subs[id] ==> Named(ds, db.subs[id]))
  {
    if ds != [] {
      var n := |ds| - 1;
      OnlyNamedSubscriptionsMove(db, ds[..n], id);
      DeliveryTouchesItsTenantOnly(DeliverAll(db, ds[..n]), ds[n], id);
      if Named(ds[..n], db.subs[id]) {
        var k :| 0 <= k < n && Names(ds[..n][k], db.subs[id]);
        assert Names(ds[k], db.subs[id]);
      } else if DeliverAll(db, ds).subs[id] != db.subs[id] {
        assert Names(ds[n], db.subs[id]);
      }
    }
  }
}
