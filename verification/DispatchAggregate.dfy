/** The DriverDispatch aggregate: replay and the five commands. */
module DispatchAggregate {
  import opened Contracts
  import opened Sequences
  import opened OrderAggregate

  datatype DispatchState = DispatchState(
    status: Option<DispatchStatus>,
    offeredDriverId: Option<DriverId>,
    driverId: Option<DriverId>,
    reason: Option<string>)

  const INITIAL_DISPATCH_STATE := DispatchState(None, None, None, None)

  predicate Terminal(s: DispatchStatus) {
    s == DELIVERED || s == FAILED
  }

  function FoldDispatch(state: DispatchState, e: Payload): DispatchState {
    match e
    case DriverOffered(_, d) => state.(status := Some(OFFERED), offeredDriverId := Some(d))
    case DispatchAccepted(_, d) => state.(status := Some(DISPATCHED), driverId := Some(d))
    case OrderPickedUp(_) => state.(status := Some(PICKED_UP))
    case OrderDelivered(_) => state.(status := Some(DELIVERED))
    case DispatchFailed(_, reason) => state.(status := Some(FAILED), reason := Some(reason))
    case _ => state
  }

  function DispatchStateOf(es: seq<Payload>): DispatchState {
    FoldAll(FoldDispatch, INITIAL_DISPATCH_STATE, es)
  }

  function Offer(state: DispatchState, orderId: OrderId, driverId: DriverId): Result<Payload, Rejection> {
    if state.status != None && state.status != Some(OFFERED) then Err(InvalidTransition)
    else Ok(DriverOffered(orderId, driverId))
  }

  function AcceptOffer(state: DispatchState, orderId: OrderId, driverId: DriverId): Result<Payload, Rejection> {
    if state.status != Some(OFFERED) || state.offeredDriverId != Some(driverId) then Err(InvalidTransition)
    else Ok(DispatchAccepted(orderId, driverId))
  }

  function Pickup(state: DispatchState, orderId: OrderId): Result<Payload, Rejection> {
    if state.status != Some(DISPATCHED) then Err(InvalidTransition) else Ok(OrderPickedUp(orderId))
  }

  function Deliver(state: DispatchState, orderId: OrderId): Result<Payload, Rejection> {
    if state.status != Some(PICKED_UP) then Err(InvalidTransition) else Ok(OrderDelivered(orderId))
  }

  function Fail(state: DispatchState, orderId: OrderId, reason: string): Result<Payload, Rejection> {
    if state.status.Some? && Terminal(state.status.value) then Err(InvalidTransition)
    else Ok(DispatchFailed(orderId, reason))
  }

  datatype DispatchCommand =
    | OfferTo(driverId: DriverId)
    | AcceptBy(driverId: DriverId)
    | PickUp
    | HandOver
    | GiveUp(reason: string)

  function DecideDispatch(state: DispatchState, orderId: OrderId, cmd: DispatchCommand): Result<Payload, Rejection> {
    match cmd
    case OfferTo(d) => Offer(state, orderId, d)
    case AcceptBy(d) => AcceptOffer(state, orderId, d)
    case PickUp => Pickup(state, orderId)
    case HandOver => Deliver(state, orderId)
    case GiveUp(reason) => Fail(state, orderId, reason)
  }

  // ---- The grammar of a dispatch history ----

  /** The history is `offers` offers; then, if anything, a failure or an accept by the driver
      offered last; then, after the accept, a failure or the pickup; then, after the pickup, a failure
      or the delivery. A failure or delivery ends it. */
  predicate Shape(es: seq<Payload>, offers: nat) {
    && offers <= |es| <= offers + 3
    && (forall i :: 0 <= i < offers ==> es[i].DriverOffered?)
    && (|es| > offers ==>
          || es[offers].DispatchFailed?
          || (es[offers].DispatchAccepted? && offers > 0 && es[offers].driverId == es[offers - 1].driverId))
    && (|es| > offers + 1 ==> es[offers].DispatchAccepted?
                              && (es[offers + 1].DispatchFailed? || es[offers + 1].OrderPickedUp?))
    && (|es| > offers + 2 ==> es[offers + 1].OrderPickedUp?
                              && (es[offers + 2].DispatchFailed? || es[offers + 2].OrderDelivered?))
  }

  predicate OfOneOrder(orderId: OrderId, es: seq<Payload>) {
    forall i :: 0 <= i < |es| ==> es[i].orderId == orderId
  }

  ghost predicate LegalDispatch(orderId: OrderId, es: seq<Payload>) {
    OfOneOrder(orderId, es) && exists offers :: Shape(es, offers)
  }

  ghost predicate DispatchAdmits(orderId: OrderId, es: seq<Payload>, e: Payload) {
    exists cmd :: DecideDispatch(DispatchStateOf(es), orderId, cmd) == Ok(e)
  }

  /** The replayed state of a history, read off its shape. */
  function StateFor(es: seq<Payload>, offers: nat): DispatchState
    requires Shape(es, offers)
  {
    var offered := if offers == 0 then None else Some(es[offers - 1].driverId);
    if |es| == offers then
      DispatchState(if offers == 0 then None else Some(OFFERED), offered, None, None)
    else
      var last := es[|es| - 1];
      DispatchState(
        Some(match last
             case DispatchAccepted(_, _) => DISPATCHED
             case OrderPickedUp(_) => PICKED_UP
             case OrderDelivered(_) => DELIVERED
             case _ => FAILED),
        offered,
        if es[offers].DispatchAccepted? then offered else None,
        if last.DispatchFailed? then Some(last.reason) else None)
  }

  lemma ShapeOfFront(es: seq<Payload>, offers: nat)
    requires Shape(es, offers) && es != []
    ensures Shape(es[..|es| - 1], if offers == |es| then offers - 1 else offers)
  {
  }

  lemma {:induction false} ShapeStates(es: seq<Payload>, offers: nat)
    requires Shape(es, offers)
    ensures DispatchStateOf(es) == StateFor(es, offers)
  {
    if es != [] {
      ShapeOfFront(es, offers);
      ShapeStates(es[..|es| - 1], if offers == |es| then offers - 1 else offers);
    }
  }

  /** What each command does to each legal history: offers until somebody has accepted, an accept by the
      driver offered last, pickup, delivery, and a failure at any time before the end. */
  lemma DispatchCommandOn(orderId: OrderId, es: seq<Payload>, offers: nat, cmd: DispatchCommand)
    requires Shape(es, offers)
    ensures DecideDispatch(DispatchStateOf(es), orderId, cmd) ==
      match cmd
      case OfferTo(d) => if |es| == offers then Ok(DriverOffered(orderId, d)) else Err(InvalidTransition)
      case AcceptBy(d) =>
        if |es| == offers && offers > 0 && es[offers - 1].driverId == d then Ok(DispatchAccepted(orderId, d))
        else Err(InvalidTransition)
      case PickUp =>
        if |es| == offers + 1 && es[offers].DispatchAccepted? then Ok(OrderPickedUp(orderId))
        else Err(InvalidTransition)
      case HandOver =>
        if |es| == offers + 2 && es[offers + 1].OrderPickedUp? then Ok(OrderDelivered(orderId))
        else Err(InvalidTransition)
      case GiveUp(reason) =>
        if es != [] && (es[|es| - 1].DispatchFailed? || es[|es| - 1].OrderDelivered?) then Err(InvalidTransition)
        else Ok(DispatchFailed(orderId, reason))
  {
    ShapeStates(es, offers);
  }

  function CommandFor(e: Payload): DispatchCommand {
    match e
    case DriverOffered(_, d) => OfferTo(d)
    case DispatchAccepted(_, d) => AcceptBy(d)
    case OrderPickedUp(_) => PickUp
    case OrderDelivered(_) => HandOver
    case DispatchFailed(_, reason) => GiveUp(reason)
    case _ => PickUp
  }

  lemma AdmitsByCommand(orderId: OrderId, es: seq<Payload>, e: Payload)
    ensures DispatchAdmits(orderId, es, e) <==> DecideDispatch(DispatchStateOf(es), orderId, CommandFor(e)) == Ok(e)
  {
  }

  /** The history may be continued by e, according to the grammar. */
  predicate Continues(es: seq<Payload>, offers: nat, e: Payload)
    requires Shape(es, offers)
  {
    match |es| - offers
    case 0 =>
      || e.DriverOffered?
      || e.DispatchFailed?
      || (e.DispatchAccepted? && offers > 0 && e.driverId == es[offers - 1].driverId)
    case 1 => es[offers].DispatchAccepted? && (e.DispatchFailed? || e.OrderPickedUp?)
    case 2 => es[offers + 1].OrderPickedUp? && (e.DispatchFailed? || e.OrderDelivered?)
    case _ => false
  }

  lemma AdmittedContinues(orderId: OrderId, es: seq<Payload>, offers: nat, e: Payload)
    requires Shape(es, offers)
    ensures DispatchAdmits(orderId, es, e) <==> Continues(es, offers, e) && e.orderId == orderId
  {
    ShapeStates(es, offers);
    AdmitsByCommand(orderId, es, e);
  }

  lemma ContinuesIsShape(es: seq<Payload>, offers: nat, e: Payload)
    requires Shape(es, offers) && Continues(es, offers, e)
    ensures Shape(es + [e], if e.DriverOffered? then offers + 1 else offers)
  {
  }

  lemma ShapeIsContinued(es: seq<Payload>, e: Payload, offers: nat)
    requires Shape(es + [e], offers)
    ensures var front := if offers <= |es| then offers else offers - 1; Shape(es, front) && Continues(es, front, e)
  {
    var t := es + [e];
    ShapeOfFront(t, offers);
    assert t[..|t| - 1] == es && t[|es|] == e;
  }

  /** One event extends a legal history legally exactly when some command decides it. */
  lemma DispatchGrammarStep(orderId: OrderId, es: seq<Payload>, e: Payload)
    requires LegalDispatch(orderId, es)
    ensures DispatchAdmits(orderId, es, e) <==> LegalDispatch(orderId, es + [e])
  {
    if DispatchAdmits(orderId, es, e) {
      var offers: nat :| Shape(es, offers);
      AdmittedContinues(orderId, es, offers, e);
      ContinuesIsShape(es, offers, e);
      assert OfOneOrder(orderId, es + [e]);
    }
    if LegalDispatch(orderId, es + [e]) {
      var offers: nat :| Shape(es + [e], offers);
      ShapeIsContinued(es, e, offers);
      assert (es + [e])[|es|] == e;
      AdmittedContinues(orderId, es, if offers <= |es| then offers else offers - 1, e);
    }
  }

  lemma LegalPrefix(orderId: OrderId, es: seq<Payload>, e: Payload)
    requires LegalDispatch(orderId, es + [e])
    ensures LegalDispatch(orderId, es)
  {
    var offers: nat :| Shape(es + [e], offers);
    ShapeIsContinued(es, e, offers);
    assert forall i :: 0 <= i < |es| ==> (es + [e])[i] == es[i];
  }

  lemma EmptyIsLegal(orderId: OrderId)
    ensures LegalDispatch(orderId, [])
  {
    assert Shape([], 0);
  }

  ghost predicate DispatchDecided(orderId: OrderId, es: seq<Payload>) {
    forall i :: 0 <= i < |es| ==> DispatchAdmits(orderId, es[..i], es[i])
  }

  /** The histories the commands can produce are exactly those of the grammar. */
  lemma {:induction false} DispatchGrammarIsExact(orderId: OrderId, es: seq<Payload>)
    ensures LegalDispatch(orderId, es) <==> DispatchDecided(orderId, es)
  {
    if es == [] {
      EmptyIsLegal(orderId);
    } else {
      var front, last := es[..|es| - 1], es[|es| - 1];
      assert es == front + [last];
      DispatchGrammarIsExact(orderId, front);
      assert forall i :: 0 <= i <= |front| ==> es[..i] == front[..i];
      assert front[..|front|] == front;
      if LegalDispatch(orderId, es) {
        LegalPrefix(orderId, front, last);
      }
      if LegalDispatch(orderId, front) {
        DispatchGrammarStep(orderId, front, last);
      } else {
        var i :| 0 <= i < |front| && !DispatchAdmits(orderId, front[..i], front[i]);
        assert es[..i] == front[..i] && es[i] == front[i];
      }
    }
  }

  /** Every prefix of a legal history is legal. */
  lemma LegalPrefixes(orderId: OrderId, es: seq<Payload>, n: nat)
    requires LegalDispatch(orderId, es) && n <= |es|
    ensures LegalDispatch(orderId, es[..n])
  {
    DispatchGrammarIsExact(orderId, es);
    forall i | 0 <= i < n ensures DispatchAdmits(orderId, es[..n][..i], es[..n][i]) {
      assert es[..n][..i] == es[..i];
    }
    DispatchGrammarIsExact(orderId, es[..n]);
  }
}
