/** The Order aggregate: replay and the three commands. */
module OrderAggregate {
  import opened Contracts
  import opened Sequences

  datatype OrderState = OrderState(
    status: Option<OrderStatus>,
    customerId: Option<string>,
    items: Option<seq<OrderItem>>,
    totalAmount: Option<int>,
    cancelReason: Option<string>)

  const INITIAL_ORDER_STATE := OrderState(None, None, None, None, None)

  datatype Rejection = AlreadyExists | InvalidTransition

  function FoldOrder(state: OrderState, e: Payload): OrderState {
    match e
    case OrderPlaced(_, customerId, items, totalAmount) =>
      OrderState(Some(PLACED), Some(customerId), Some(items), Some(totalAmount), None)
    case OrderAccepted(_) => state.(status := Some(ACCEPTED))
    case OrderCancelled(_, reason) => state.(status := Some(CANCELLED), cancelReason := reason)
    case _ => state
  }

  function OrderStateOf(es: seq<Payload>): OrderState {
    FoldAll(FoldOrder, INITIAL_ORDER_STATE, es)
  }

  function Place(state: OrderState, orderId: OrderId, customerId: string, items: seq<OrderItem>, totalAmount: int)
    : Result<Payload, Rejection>
  {
    if state.status != None then Err(AlreadyExists) else Ok(OrderPlaced(orderId, customerId, items, totalAmount))
  }

  function Accept(state: OrderState, orderId: OrderId): Result<Payload, Rejection> {
    if state.status != Some(PLACED) then Err(InvalidTransition) else Ok(OrderAccepted(orderId))
  }

  function Cancel(state: OrderState, orderId: OrderId, reason: string): Result<Payload, Rejection> {
    if state.status != Some(PLACED) then Err(InvalidTransition) else Ok(OrderCancelled(orderId, Some(reason)))
  }

  datatype OrderCommand =
    | PlaceOrder(customerId: string, items: seq<OrderItem>, totalAmount: int)
    | AcceptOrder
    | CancelOrder(reason: string)

  function DecideOrder(state: OrderState, orderId: OrderId, cmd: OrderCommand): Result<Payload, Rejection> {
    match cmd
    case PlaceOrder(customerId, items, totalAmount) => Place(state, orderId, customerId, items, totalAmount)
    case AcceptOrder => Accept(state, orderId)
    case CancelOrder(reason) => Cancel(state, orderId, reason)
  }

  /** The grammar of an order's history: Placed, then at most one of Accepted and Cancelled. */
  predicate LegalOrder(orderId: OrderId, es: seq<Payload>) {
    && |es| <= 2
    && (forall e :: e in es ==> e.orderId == orderId)
    && (|es| >= 1 ==> es[0].OrderPlaced?)
    && (|es| == 2 ==> es[1].OrderAccepted? || (es[1].OrderCancelled? && es[1].cancelReason.Some?))
  }

  /** Some command, decided on the replayed state, yields exactly this event. */
  ghost predicate OrderAdmits(orderId: OrderId, es: seq<Payload>, e: Payload) {
    exists cmd :: DecideOrder(OrderStateOf(es), orderId, cmd) == Ok(e)
  }

  lemma OrderStates(orderId: OrderId, es: seq<Payload>)
    requires LegalOrder(orderId, es)
    ensures |es| == 0 ==> OrderStateOf(es) == INITIAL_ORDER_STATE
    ensures |es| >= 1 ==>
      OrderStateOf(es[..1]) ==
        OrderState(Some(PLACED), Some(es[0].customerId), Some(es[0].items), Some(es[0].totalAmount), None)
    ensures |es| == 2 ==> OrderStateOf(es) == FoldOrder(OrderStateOf(es[..1]), es[1])
  {
    if |es| >= 1 {
      assert es[..1][..0] == [];
    }
  }

  /** The replayed state of every legal history, field by field. */
  lemma OrderShapeStates(orderId: OrderId, es: seq<Payload>)
    requires LegalOrder(orderId, es)
    ensures OrderStateOf(es) ==
      if es == [] then OrderState(None, None, None, None, None)
      else
        OrderState(Some(if |es| == 1 then PLACED else if es[1].OrderAccepted? then ACCEPTED else CANCELLED),
                   Some(es[0].customerId), Some(es[0].items), Some(es[0].totalAmount),
                   if |es| == 2 && es[1].OrderCancelled? then es[1].cancelReason else None)
  {
    OrderStates(orderId, es);
    if |es| == 1 {
      assert es[..1] == es;
    }
  }

  /** What each command does to each legal history: an order is placed once, and a placed one accepted or
      cancelled once. */
  lemma OrderCommandOn(orderId: OrderId, es: seq<Payload>, cmd: OrderCommand)
    requires LegalOrder(orderId, es)
    ensures DecideOrder(OrderStateOf(es), orderId, cmd) ==
      match cmd
      case PlaceOrder(customerId, items, totalAmount) =>
        if es == [] then Ok(OrderPlaced(orderId, customerId, items, totalAmount)) else Err(AlreadyExists)
      case AcceptOrder => if |es| == 1 then Ok(OrderAccepted(orderId)) else Err(InvalidTransition)
      case CancelOrder(reason) =>
        if |es| == 1 then Ok(OrderCancelled(orderId, Some(reason))) else Err(InvalidTransition)
  {
    OrderShapeStates(orderId, es);
  }

  /** One event extends a legal history legally exactly when some command decides it. */
  lemma OrderGrammarStep(orderId: OrderId, es: seq<Payload>, e: Payload)
    requires LegalOrder(orderId, es)
    ensures OrderAdmits(orderId, es, e) <==> LegalOrder(orderId, es + [e])
  {
    OrderStates(orderId, es);
    if |es| == 1 {
      assert es[..1] == es;
    }
    if LegalOrder(orderId, es + [e]) {
      assert (es + [e])[|es|] == e && e in es + [e];
      var cmd := match e
        case OrderPlaced(_, c, i, t) => PlaceOrder(c, i, t)
        case OrderAccepted(_) => AcceptOrder
        case OrderCancelled(_, r) => CancelOrder(r.value)
        case _ => AcceptOrder;
      assert DecideOrder(OrderStateOf(es), orderId, cmd) == Ok(e);
    }
  }

  ghost predicate OrderDecided(orderId: OrderId, es: seq<Payload>) {
    forall i :: 0 <= i < |es| ==> OrderAdmits(orderId, es[..i], es[i])
  }

  /** The histories the commands can produce are exactly those of the grammar. */
  lemma {:induction false} OrderGrammarIsExact(orderId: OrderId, es: seq<Payload>)
    ensures LegalOrder(orderId, es) <==> OrderDecided(orderId, es)
  {
    if es != [] {
      var front, last := es[..|es| - 1], es[|es| - 1];
      assert es == front + [last];
      OrderGrammarIsExact(orderId, front);
      assert forall i :: 0 <= i <= |front| ==> es[..i] == front[..i];
      assert front[..|front|] == front;
      if LegalOrder(orderId, es) {
        assert forall e :: e in front ==> e in es;
        assert LegalOrder(orderId, front);
      }
      if LegalOrder(orderId, front) {
        OrderGrammarStep(orderId, front, last);
      } else {
        assert !OrderDecided(orderId, es) by {
          var i :| 0 <= i < |front| && !OrderAdmits(orderId, front[..i], front[i]);
          assert es[..i] == front[..i] && es[i] == front[i];
        }
      }
      if OrderDecided(orderId, front) && OrderAdmits(orderId, front, last) {
        forall i | 0 <= i < |es| ensures OrderAdmits(orderId, es[..i], es[i]) {
          assert es[..i] == front[..i];
          if i < |front| {
            assert es[i] == front[i];
          }
        }
      }
    }
  }
}
