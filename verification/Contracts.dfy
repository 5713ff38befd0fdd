/** The shared vocabulary: events, statuses, topics and the string keys built from them. */
module Contracts {
  datatype Option<+T> = None | Some(value: T)
  datatype Result<+T, +E> = Ok(value: T) | Err(error: E)

  type TenantId = string
  type OrderId = string
  type DriverId = string
  type EventId = string
  /** Milliseconds since the epoch; ISO strings are compared and added to only after parsing. */
  type Time = int

  datatype OrderItem = OrderItem(sku: string, qty: int, price: int)

  /** Event type and JSON payload in one value. The cancel reason is optional because the
      projection reads it as possibly undefined. */
  datatype Payload =
    | OrderPlaced(orderId: OrderId, customerId: string, items: seq<OrderItem>, totalAmount: int)
    | OrderAccepted(orderId: OrderId)
    | OrderCancelled(orderId: OrderId, cancelReason: Option<string>)
    | DriverOffered(orderId: OrderId, driverId: DriverId)
    | DispatchAccepted(orderId: OrderId, driverId: DriverId)
    | OrderPickedUp(orderId: OrderId)
    | OrderDelivered(orderId: OrderId)
    | DispatchFailed(orderId: OrderId, reason: string)

  datatype Envelope = Envelope(
    tenantId: TenantId,
    eventId: EventId,
    version: nat,
    occurredAt: Time,
    correlationId: string,
    payload: Payload)

  datatype OrderStatus = PLACED | ACCEPTED | CANCELLED
  datatype DispatchStatus = OFFERED | DISPATCHED | PICKED_UP | DELIVERED | FAILED
  datatype PaymentStatus = AUTHORIZED | CAPTURED | VOIDED | DECLINED

  /** The aggregate type; each has its own topic, projection consumer and read collection. */
  datatype Kind = OrderKind | DispatchKind
  datatype Topic = OrderEvents | DispatchEvents

  function TopicOf(kind: Kind): Topic {
    if kind.OrderKind? then OrderEvents else DispatchEvents
  }

  const NO_DRIVERS_AVAILABLE := "NO_DRIVERS_AVAILABLE"
  const DELIVERY_TIMEOUT := "DELIVERY_TIMEOUT"
  const SLA_BREACH := "SLA_BREACH"
  const REASON_DECLINED := "DECLINED"
  const PAYMENT_FAILED := "PAYMENT_FAILED"
  const PAYMENT_TIMEOUT := "PAYMENT_TIMEOUT"

  // ---- Read models ----

  datatype OrderView = OrderView(
    tenantId: TenantId,
    orderId: OrderId,
    customerId: string,
    items: seq<OrderItem>,
    totalAmount: int,
    status: OrderStatus,
    version: nat,
    updatedAt: Time,
    cancelReason: Option<string>)

  datatype DispatchView = DispatchView(
    tenantId: TenantId,
    orderId: OrderId,
    status: DispatchStatus,
    driverId: Option<DriverId>,
    offeredDriverId: Option<DriverId>,
    reason: Option<string>,
    version: nat,
    updatedAt: Time,
    offerExpiresAt: Option<Time>)

  // ---- Keys ----

  predicate NoColon(s: string) {
    forall i :: 0 <= i < |s| ==> s[i] != ':'
  }

  function Join(a: string, b: string): string {
    a + ":" + b
  }

  function DispatchAggregateId(orderId: OrderId): string {
    Join("dispatch", orderId)
  }

  function DocId(tenantId: TenantId, orderId: OrderId): string {
    Join(tenantId, orderId)
  }

  function ConsumerName(kind: Kind): string {
    if kind.OrderKind? then "projection-worker" else "dispatch-projection"
  }

  function InboxId(tenantId: TenantId, kind: Kind, eventId: EventId): string {
    Join(tenantId, Join(ConsumerName(kind), eventId))
  }

  function OrderWorkflowId(tenantId: TenantId, orderId: OrderId): string {
    Join(tenantId, orderId)
  }

  function DispatchWorkflowId(tenantId: TenantId, orderId: OrderId): string {
    Join("dispatch", Join(tenantId, orderId))
  }

  /** Joining with a colon loses nothing as long as the left part has none. */
  lemma JoinInjective(a: string, b: string, c: string, d: string)
    requires NoColon(a) && NoColon(c)
    ensures Join(a, b) == Join(c, d) <==> a == c && b == d
  {
    var s, t := Join(a, b), Join(c, d);
    assert s[|a|] == ':' && forall i :: 0 <= i < |a| ==> s[i] != ':';
    assert t[|c|] == ':' && forall i :: 0 <= i < |c| ==> t[i] != ':';
    if s == t {
      assert |a| == |c|;
      assert a == s[..|a|] && c == t[..|c|];
      assert b == s[|a| + 1..] && d == t[|c| + 1..];
    }
  }

  /** The colon-free condition is needed: two different tenants share a document key. */
  lemma ColonsCollide()
    ensures DocId("a:b", "c") == DocId("a", "b:c") && "a:b" != "a"
    ensures DispatchAggregateId("o1") == "dispatch:o1"
  {
    assert Join("a:b", "c") == "a:b:c" == Join("a", "b:c");
  }

  lemma ConsumerNamesDistinct()
    ensures forall k: Kind :: NoColon(ConsumerName(k))
    ensures ConsumerName(OrderKind) != ConsumerName(DispatchKind)
  {
    assert |ConsumerName(OrderKind)| == 17 && |ConsumerName(DispatchKind)| == 19;
  }

  lemma InboxIdInjective(t: TenantId, k: Kind, e: EventId, t': TenantId, k': Kind, e': EventId)
    requires NoColon(t) && NoColon(t')
    ensures InboxId(t, k, e) == InboxId(t', k', e') <==> t == t' && k == k' && e == e'
  {
    ConsumerNamesDistinct();
    JoinInjective(t, Join(ConsumerName(k), e), t', Join(ConsumerName(k'), e'));
    JoinInjective(ConsumerName(k), e, ConsumerName(k'), e');
  }

  /** Two order workflows, or two dispatch workflows, never share an id. */
  lemma WorkflowIdInjective(t: TenantId, o: OrderId, t': TenantId, o': OrderId)
    requires NoColon(t) && NoColon(t')
    ensures OrderWorkflowId(t, o) == OrderWorkflowId(t', o') <==> t == t' && o == o'
    ensures DispatchWorkflowId(t, o) == DispatchWorkflowId(t', o') <==> t == t' && o == o'
  {
    JoinInjective(t, o, t', o');
    assert NoColon("dispatch");
    JoinInjective("dispatch", Join(t, o), "dispatch", Join(t', o'));
  }

  /** An order workflow has the id of a dispatch workflow exactly when its tenant is called
      "dispatch" and its order is named after the other tenant and order. */
  lemma WorkflowIdsMeetIff(t: TenantId, o: OrderId, t': TenantId, o': OrderId)
    requires NoColon(t)
    ensures OrderWorkflowId(t, o) == DispatchWorkflowId(t', o') <==> t == "dispatch" && o == Join(t', o')
  {
    assert NoColon("dispatch");
    JoinInjective(t, o, "dispatch", Join(t', o'));
  }

  // ---- Aggregates ----

  /** A logical aggregate: the order itself or its driver dispatch. */
  datatype Agg = Agg(kind: Kind, tenantId: TenantId, orderId: OrderId)

  /** An order id that the store cannot tell from a dispatch. */
  predicate IsAlias(orderId: OrderId) {
    Join("dispatch", "") <= orderId
  }

  predicate Clean(a: Agg) {
    NoColon(a.tenantId) && (a.kind.OrderKind? ==> !IsAlias(a.orderId))
  }

  /** The id under which the aggregate's stream is stored. */
  function AggregateId(a: Agg): string {
    if a.kind.OrderKind? then a.orderId else DispatchAggregateId(a.orderId)
  }

  function PartitionKey(tenantId: TenantId, aggregateId: string): string {
    Join(tenantId, aggregateId)
  }

  lemma DispatchIsAlias(orderId: OrderId)
    ensures IsAlias(DispatchAggregateId(orderId))
  {
    assert Join("dispatch", orderId) == Join("dispatch", "") + orderId;
  }

  /** Whatever the ids: two aggregates share a stored id exactly when they are the same kind and
      order, or one is an order named "dispatch:" followed by the other's order id. */
  lemma AggregateIdsMeetIff(a: Agg, b: Agg)
    ensures AggregateId(a) == AggregateId(b) <==>
      || (a.kind == b.kind && a.orderId == b.orderId)
      || (a.kind.OrderKind? && b.kind.DispatchKind? && a.orderId == DispatchAggregateId(b.orderId))
      || (a.kind.DispatchKind? && b.kind.OrderKind? && b.orderId == DispatchAggregateId(a.orderId))
  {
    assert NoColon("dispatch");
    JoinInjective("dispatch", a.orderId, "dispatch", b.orderId);
  }

  lemma AggregateIdInjective(a: Agg, b: Agg)
    requires Clean(a) && Clean(b)
    ensures AggregateId(a) == AggregateId(b) <==> a.kind == b.kind && a.orderId == b.orderId
  {
    AggregateIdsMeetIff(a, b);
    DispatchIsAlias(a.orderId);
    DispatchIsAlias(b.orderId);
  }
}
