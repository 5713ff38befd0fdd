/** Tenants do not interfere: what a tenant reads depends on that tenant's events alone. */
module Tenancy {
  import opened Contracts
  import opened Sequences
  import opened Projection

  /** One message handled by one of the two projection consumers. */
  datatype Delivery = Delivery(kind: Kind, envelope: Envelope, offerTimeoutSeconds: nat)

  function Deliver(rm: ReadModel, d: Delivery): ReadModel {
    Apply(d.kind, rm, d.envelope, d.offerTimeoutSeconds)
  }

  function Processed(ds: seq<Delivery>): ReadModel {
    FoldAll(Deliver, EMPTY_MODEL, ds)
  }

  function OfTenant(t: TenantId): Delivery -> bool {
    (d: Delivery) => d.envelope.tenantId == t
  }

  predicate SameEntry<V(==)>(m: map<string, V>, m': map<string, V>, id: string) {
    (id in m <==> id in m') && (id in m ==> m[id] == m'[id])
  }

  /** The two read models hold the same documents and the same inbox entries of the tenant. */
  ghost predicate LooksTheSame(rm: ReadModel, rm': ReadModel, t: TenantId) {
    && (forall o: OrderId :: SameEntry(rm.orders, rm'.orders, DocId(t, o))
                             && SameEntry(rm.dispatches, rm'.dispatches, DocId(t, o)))
    && (forall k, e :: InboxId(t, k, e) in rm.inbox <==> InboxId(t, k, e) in rm'.inbox)
  }

  lemma OwnDelivery(rm: ReadModel, rm': ReadModel, d: Delivery)
    requires NoColon(d.envelope.tenantId) && LooksTheSame(rm, rm', d.envelope.tenantId)
    ensures LooksTheSame(Deliver(rm, d), Deliver(rm', d), d.envelope.tenantId)
  {
    var t := d.envelope.tenantId;
    assert SameEntry(rm.orders, rm'.orders, DocId(t, d.envelope.payload.orderId));
    assert SameEntry(rm.dispatches, rm'.dispatches, DocId(t, d.envelope.payload.orderId));
    forall o: OrderId
      ensures SameEntry(Deliver(rm, d).orders, Deliver(rm', d).orders, DocId(t, o))
      ensures SameEntry(Deliver(rm, d).dispatches, Deliver(rm', d).dispatches, DocId(t, o))
    {
      assert SameEntry(rm.orders, rm'.orders, DocId(t, o)) && SameEntry(rm.dispatches, rm'.dispatches, DocId(t, o));
    }
  }

  lemma ForeignDelivery(rm: ReadModel, d: Delivery, t: TenantId)
    requires NoColon(d.envelope.tenantId) && NoColon(t) && t != d.envelope.tenantId
    ensures LooksTheSame(Deliver(rm, d), rm, t)
  {
    forall o: OrderId ensures DocId(t, o) != DocId(d.envelope.tenantId, d.envelope.payload.orderId) {
      JoinInjective(t, o, d.envelope.tenantId, d.envelope.payload.orderId);
    }
    forall k, e ensures InboxId(t, k, e) != InboxId(d.envelope.tenantId, d.kind, d.envelope.eventId) {
      InboxIdInjective(t, k, e, d.envelope.tenantId, d.kind, d.envelope.eventId);
    }
  }

  lemma LooksTransitive(a: ReadModel, b: ReadModel, c: ReadModel, t: TenantId)
    requires LooksTheSame(a, b, t) && LooksTheSame(b, c, t)
    ensures LooksTheSame(a, c, t)
  {
    forall o: OrderId
      ensures SameEntry(a.orders, c.orders, DocId(t, o)) && SameEntry(a.dispatches, c.dispatches, DocId(t, o))
    {
      assert SameEntry(a.orders, b.orders, DocId(t, o)) && SameEntry(a.dispatches, b.dispatches, DocId(t, o));
      assert SameEntry(b.orders, c.orders, DocId(t, o)) && SameEntry(b.dispatches, c.dispatches, DocId(t, o));
    }
  }

  /** Non-interference: for any deliveries, in any order, with duplicates and of any order ids, the
      tenant's documents are what they would be had nobody else's events existed. */
  lemma {:induction false} TenantsDoNotInterfere(ds: seq<Delivery>, t: TenantId)
    requires NoColon(t) && forall d :: d in ds ==> NoColon(d.envelope.tenantId)
    ensures LooksTheSame(Processed(ds), Processed(Filter(OfTenant(t), ds)), t)
  {
    if ds != [] {
      var front, d := ds[..|ds| - 1], ds[|ds| - 1];
      assert d in ds;
      TenantsDoNotInterfere(front, t);
      var own := Filter(OfTenant(t), front);
      if d.envelope.tenantId == t {
        OwnDelivery(Processed(front), Processed(own), d);
        FoldAppend(Deliver, EMPTY_MODEL, own, d);
      } else {
        ForeignDelivery(Processed(front), d, t);
        LooksTransitive(Processed(ds), Processed(front), Processed(own), t);
      }
    }
  }

  /** The colon-free condition is needed: tenant "a" with order "b:c" and tenant "a:b" with order
      "c" write the same document. */
  lemma ColonsInterfere(e: EventId, at: Time)
    ensures var d := Delivery(OrderKind, Envelope("a:b", e, 1, at, "", OrderPlaced("c", "customer", [], 0)), 0);
      && DocId("a", "b:c") in Processed([d]).orders
      && !LooksTheSame(Processed([d]), Processed(Filter(OfTenant("a"), [d])), "a")
  {
    var d := Delivery(OrderKind, Envelope("a:b", e, 1, at, "", OrderPlaced("c", "customer", [], 0)), 0);
    ColonsCollide();
    FoldAppend(Deliver, EMPTY_MODEL, [], d);
    assert [] + [d] == [d];
    assert Processed([d]) == Deliver(EMPTY_MODEL, d);
    assert Filter(OfTenant("a"), [d]) == [];
    assert DocId("a", "b:c") in Processed([d]).orders;
    assert !SameEntry(Processed([d]).orders, EMPTY_MODEL.orders, DocId("a", "b:c"));
  }
}
