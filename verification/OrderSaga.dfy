/** The order lifecycle saga against the payments service and the order stream. Requests are
    at-least-once: whatever was sent may take effect at any later time, any number of times, or
    never, and a call may be reported as failed although it took effect. */
module OrderSaga {
  import opened Contracts
  import opened OrderAggregate
  import Pay = Payments

  datatype Ask = AskAuthorize | AskCapture | AskVoid
  datatype Tell = TellAccepted | TellCancelled(reason: string)
  datatype Ack = Authorized | Declined | Captured | Voided | Told

  /** One order: its payment row, its stream, what the saga asked of the payments service, what
      it told the order aggregate (one workflow tells one thing), and every reply earned. */
  datatype World = World(
    orderId: OrderId,
    totalAmount: int,
    payment: Option<Pay.Payment>,
    order: seq<Payload>,
    asks: set<Ask>,
    tell: Option<Tell>,
    acks: set<Ack>)

  function AckOf(outcome: Pay.Outcome): Ack {
    match outcome
    case WasAuthorized => Authorized
    case WasDeclined => Declined
    case WasCaptured => Captured
    case WasVoided => Voided
  }

  function CallOf(w: World, ask: Ask, declineThreshold: int): Pay.Call {
    match ask
    case AskAuthorize => Pay.Authorize(w.totalAmount, declineThreshold)
    case AskCapture => Pay.Capture
    case AskVoid => Pay.Void
  }

  /** A payments request takes effect. */
  function ExecuteAsk(w: World, ask: Ask, declineThreshold: int, newId: string, now: Time): World {
    var (row, reply) := Pay.Exec(w.payment, CallOf(w, ask, declineThreshold), newId, now);
    w.(payment := row, acks := if reply.Ok? then w.acks + {AckOf(reply.value.outcome)} else w.acks)
  }

  /** What a record activity decides on the order it loaded. */
  function DecideTell(state: OrderState, orderId: OrderId, tell: Tell): Result<Payload, Rejection> {
    match tell
    case TellAccepted => Accept(state, orderId)
    case TellCancelled(reason) => Cancel(state, orderId, reason)
  }

  /** Load, decide, append; an order already terminal is a benign no-op. */
  function ExecuteTell(w: World, tell: Tell): World {
    var decision := DecideTell(OrderStateOf(w.order), w.orderId, tell);
    w.(order := if decision.Ok? then w.order + [decision.value] else w.order, acks := w.acks + {Told})
  }

  predicate Is(w: World, status: PaymentStatus) {
    w.payment.Some? && w.payment.value.status == status
  }

  predicate IsAccepted(w: World) {
    |w.order| == 2 && w.order[1].OrderAccepted?
  }

  predicate IsCancelled(w: World, reason: string) {
    |w.order| == 2 && w.order[1] == OrderCancelled(w.orderId, Some(reason))
  }

  /** The saga's promise: the order's outcome and its payment agree. */
  predicate Agree(w: World, honest: bool) {
    && (IsAccepted(w) ==> Is(w, CAPTURED))
    && (IsCancelled(w, SLA_BREACH) || IsCancelled(w, REASON_DECLINED) ==> Is(w, VOIDED))
    && (IsCancelled(w, PAYMENT_TIMEOUT) ==> w.payment.None?)
    && (honest && IsCancelled(w, PAYMENT_FAILED) ==> !Is(w, CAPTURED))
  }

  /** Every change is accounted for by a reply earned, every reply by a request sent. */
  predicate Accounted(w: World) {
    && (Authorized in w.acks || Declined in w.acks ==> AskAuthorize in w.asks)
    && (Captured in w.acks ==> AskCapture in w.asks)
    && (Voided in w.acks ==> AskVoid in w.asks)
    && (AskCapture in w.asks || AskVoid in w.asks ==> Authorized in w.acks)
    && (w.payment.Some? ==> Authorized in w.acks || Declined in w.acks)
    && (Is(w, CAPTURED) ==> Captured in w.acks)
    && (Is(w, VOIDED) ==> Voided in w.acks)
    && (Told in w.acks <==> |w.order| == 2)
    && (|w.order| == 2 ==>
         w.tell == Some(if w.order[1].OrderAccepted? then TellAccepted else TellCancelled(Reason(w))))
  }

  function Reason(w: World): string {
    if |w.order| == 2 && w.order[1].OrderCancelled? && w.order[1].cancelReason.Some?
    then w.order[1].cancelReason.value else ""
  }

  /** What each reply proves for ever after. */
  predicate Proved(w: World) {
    && (Authorized in w.acks ==> w.payment.Some? && !Is(w, DECLINED))
    && (Declined in w.acks ==> Is(w, DECLINED))
    && (Captured in w.acks ==> Is(w, CAPTURED))
    && (Voided in w.acks ==> Is(w, VOIDED))
  }

  /** What the saga may tell the order presupposes this of the payment. */
  predicate Presupposed(tell: Tell, payment: Option<Pay.Payment>, asks: set<Ask>, honest: bool) {
    match tell
    case TellAccepted => payment.Some? && payment.value.status == CAPTURED
    case TellCancelled(reason) =>
      && (reason == SLA_BREACH || reason == REASON_DECLINED ==> payment.Some? && payment.value.status == VOIDED)
      && (reason == PAYMENT_TIMEOUT ==> asks == {})
      && (honest && reason == PAYMENT_FAILED ==> AskCapture !in asks)
  }

  /** The invariant of every run; it survives any late execution of what was sent. */
  predicate Safe(w: World, honest: bool) {
    && LegalOrder(w.orderId, w.order) && w.order != []
    && (w.payment.Some? ==> Pay.PaymentOk(w.payment.value))
    && Accounted(w) && Proved(w)
    && (w.tell.Some? ==> Presupposed(w.tell.value, w.payment, w.asks, honest))
  }

  lemma SafeAgrees(w: World, honest: bool)
    requires Safe(w, honest)
    ensures Agree(w, honest)
  {
    assert |w.order| == 2 ==> w.order[1] in w.order;
  }

  lemma TellKeepsSafe(w: World, honest: bool)
    requires Safe(w, honest) && w.tell.Some?
    ensures Safe(ExecuteTell(w, w.tell.value), honest)
    ensures w.order <= ExecuteTell(w, w.tell.value).order
  {
    OrderStates(w.orderId, w.order);
    var decision := DecideTell(OrderStateOf(w.order), w.orderId, w.tell.value);
    if |w.order| == 1 {
      assert w.order[..1] == w.order;
      assert decision.Ok?;
      OrderGrammarStep(w.orderId, w.order, decision.value) by {
        assert DecideOrder(OrderStateOf(w.order), w.orderId,
                           if w.tell.value.TellAccepted? then AcceptOrder
                           else CancelOrder(w.tell.value.reason)) == decision;
      }
    }
  }

  lemma AskKeepsSafe(w: World, honest: bool, ask: Ask, declineThreshold: int, newId: string, now: Time)
    requires Safe(w, honest) && ask in w.asks
    ensures Safe(ExecuteAsk(w, ask, declineThreshold, newId, now), honest)
  {
  }

  /** One thing that was sent takes effect. */
  datatype Late = LateAsk(ask: Ask, newId: string, now: Time) | LateTell

  predicate Possible(w: World, l: Late) {
    if l.LateAsk? then l.ask in w.asks else w.tell.Some?
  }

  function Happen(w: World, l: Late, declineThreshold: int): World {
    match l
    case LateAsk(ask, newId, now) => ExecuteAsk(w, ask, declineThreshold, newId, now)
    case LateTell => if w.tell.Some? then ExecuteTell(w, w.tell.value) else w
  }

  predicate Follows(w: World, w': World) {
    w.order <= w'.order && w'.asks == w.asks && w'.tell == w.tell && w'.orderId == w.orderId
    && w'.totalAmount == w.totalAmount && w.acks <= w'.acks
  }

  /** A request taking effect, however late and however often, keeps the agreement. */
  lemma HappenKeepsSafe(w: World, honest: bool, l: Late, declineThreshold: int)
    requires Safe(w, honest) && Possible(w, l)
    ensures var w' := Happen(w, l, declineThreshold); Safe(w', honest) && Agree(w', honest) && Follows(w, w')
    ensures Is(w, CAPTURED) || Is(w, VOIDED) || Is(w, DECLINED) ==> Happen(w, l, declineThreshold).payment == w.payment
  {
    if l.LateTell? {
      TellKeepsSafe(w, honest);
    } else {
      AskKeepsSafe(w, honest, l.ask, declineThreshold, l.newId, l.now);
    }
    SafeAgrees(Happen(w, l, declineThreshold), honest);
  }

  function Afterwards(w: World, declineThreshold: int, lates: seq<Late>): World {
    if lates == [] then w
    else Happen(Afterwards(w, declineThreshold, lates[..|lates| - 1]), lates[|lates| - 1], declineThreshold)
  }

  /** For ever: after any moment of a run, whatever still takes effect, order and payment go on
      agreeing, the order's history is only extended, and a settled payment stays settled. */
  lemma {:induction false} AgreementIsForever(w: World, honest: bool, declineThreshold: int, lates: seq<Late>)
    requires Safe(w, honest) && forall l :: l in lates ==> Possible(w, l)
    ensures var w' := Afterwards(w, declineThreshold, lates); Safe(w', honest) && Agree(w', honest) && Follows(w, w')
    ensures Is(w, CAPTURED) || Is(w, VOIDED) || Is(w, DECLINED) ==>
      Afterwards(w, declineThreshold, lates).payment == w.payment
  {
    if lates == [] {
      SafeAgrees(w, honest);
    } else {
      var front, l := lates[..|lates| - 1], lates[|lates| - 1];
      assert l in lates && forall x :: x in front ==> x in lates;
      AgreementIsForever(w, honest, declineThreshold, front);
      HappenKeepsSafe(Afterwards(w, declineThreshold, front), honest, l, declineThreshold);
    }
  }

  predicate AllPossible(w: World, lates: seq<Late>) {
    forall l :: l in lates ==> Possible(w, l)
  }

  /** Something already sent can still charge the customer, or has. */
  ghost predicate Chargeable(w: World, declineThreshold: int) {
    exists lates :: AllPossible(w, lates) && Is(Afterwards(w, declineThreshold, lates), CAPTURED)
  }

  /** When exactly: a capture was sent and no void has taken effect. */
  lemma ChargeableIff(w: World, honest: bool, declineThreshold: int)
    requires Safe(w, honest)
    ensures Chargeable(w, declineThreshold) <==> AskCapture in w.asks && Voided !in w.acks
  {
    if AskCapture in w.asks && Voided !in w.acks {
      if Is(w, CAPTURED) {
        assert AllPossible(w, []) && Is(Afterwards(w, declineThreshold, []), CAPTURED);
      } else {
        var lates := [LateAsk(AskCapture, "", 0)];
        assert lates[..0] == [];
        assert AllPossible(w, lates) && Is(Afterwards(w, declineThreshold, lates), CAPTURED);
      }
    }
    forall lates | AllPossible(w, lates) && Is(Afterwards(w, declineThreshold, lates), CAPTURED)
      ensures AskCapture in w.asks && Voided !in w.acks
    {
      AgreementIsForever(w, honest, declineThreshold, lates);
    }
  }

  /** The hold can still be released by something already sent, or has been. */
  ghost predicate Releasable(w: World, declineThreshold: int) {
    exists lates :: AllPossible(w, lates) && Is(Afterwards(w, declineThreshold, lates), VOIDED)
  }

  /** When exactly: a void was sent and no capture has taken effect. */
  lemma ReleasableIff(w: World, honest: bool, declineThreshold: int)
    requires Safe(w, honest)
    ensures Releasable(w, declineThreshold) <==> AskVoid in w.asks && Captured !in w.acks
  {
    if AskVoid in w.asks && Captured !in w.acks {
      if Is(w, VOIDED) {
        assert AllPossible(w, []) && Is(Afterwards(w, declineThreshold, []), VOIDED);
      } else {
        var lates := [LateAsk(AskVoid, "", 0)];
        assert lates[..0] == [];
        assert AllPossible(w, lates) && Is(Afterwards(w, declineThreshold, lates), VOIDED);
      }
    }
    forall lates | AllPossible(w, lates) && Is(Afterwards(w, declineThreshold, lates), VOIDED)
      ensures AskVoid in w.asks && Captured !in w.acks
    {
      AgreementIsForever(w, honest, declineThreshold, lates);
    }
  }

  // ---- The workflow as a machine ----

  datatype SagaResult =
    | CANCELLED_SLA
    | CANCELLED_DECLINED
    | CANCELLED_PAYMENT_FAILED
    | CANCELLED_PAYMENT_TIMEOUT
    | RESULT_DELIVERED
    | DISPATCH_FAILED

  function DispatchResult(outcome: DispatchStatus): SagaResult {
    if outcome == DELIVERED then RESULT_DELIVERED else DISPATCH_FAILED
  }

  /** What one run of the workflow observed: its two waits, the replies that came back, and how the
      child workflow ended. */
  datatype Observed = Observed(
    confirmedInTime: bool,
    authorized: bool,
    approval: Option<bool>,
    captured: bool,
    voided: bool,
    dispatch: Option<DispatchStatus>)

  const NOTHING := Observed(false, false, None, false, false, None)

  /** What the order must be told, given what was observed. */
  function TellFor(obs: Observed): Tell {
    if !obs.confirmedInTime then TellCancelled(PAYMENT_TIMEOUT)
    else if !obs.authorized || (obs.approval == Some(true) && !obs.captured) then TellCancelled(PAYMENT_FAILED)
    else match obs.approval
      case Some(true) => TellAccepted
      case Some(false) => TellCancelled(REASON_DECLINED)
      case None => TellCancelled(SLA_BREACH)
  }

  /** The result called for by what was observed. */
  function ResultFor(obs: Observed): SagaResult {
    if !obs.confirmedInTime then CANCELLED_PAYMENT_TIMEOUT
    else if !obs.authorized || (obs.approval == Some(true) && !obs.captured) then CANCELLED_PAYMENT_FAILED
    else match obs.approval
      case Some(true) => if obs.dispatch == Some(DELIVERED) then RESULT_DELIVERED else DISPATCH_FAILED
      case Some(false) => CANCELLED_DECLINED
      case None => CANCELLED_SLA
  }

  /** The payments calls made, in order: nothing before the customer confirms, and a hold that is
      not captured is released. */
  function CallsFor(obs: Observed): seq<Ask> {
    if !obs.confirmedInTime then []
    else if !obs.authorized then [AskAuthorize]
    else if obs.approval != Some(true) then [AskAuthorize, AskVoid]
    else if obs.captured then [AskAuthorize, AskCapture]
    else [AskAuthorize, AskCapture, AskVoid]
  }

  /** The result a run returns says exactly what happened to the order. */
  predicate ResultMatches(r: SagaResult, w: World) {
    && |w.order| == 2
    && (r == CANCELLED_SLA <==> IsCancelled(w, SLA_BREACH))
    && (r == CANCELLED_DECLINED <==> IsCancelled(w, REASON_DECLINED))
    && (r == CANCELLED_PAYMENT_FAILED <==> IsCancelled(w, PAYMENT_FAILED))
    && (r == CANCELLED_PAYMENT_TIMEOUT <==> IsCancelled(w, PAYMENT_TIMEOUT))
    && (r == RESULT_DELIVERED || r == DISPATCH_FAILED <==> IsAccepted(w))
  }

  /** What the workflow is waiting for. */
  datatype Stage =
    | Confirming
    | Authorizing
    | Approving
    | Capturing
    | Compensating
    | Releasing
    | Telling(tell: Tell)
    | Fulfilling
    | Done(result: SagaResult)
    | Crashed

  /** The order placed, its amount, the threshold, and whether a payments call reported as failed is
      sure never to take effect. */
  datatype Setting = Setting(placed: Payload, totalAmount: int, declineThreshold: int, honest: bool)

  predicate SettingOk(setting: Setting) {
    setting.placed.OrderPlaced?
  }

  datatype Saga = Saga(w: World, stage: Stage, obs: Observed, calls: seq<Ask>)

  function Start(setting: Setting): Saga
    requires SettingOk(setting)
  {
    Saga(World(setting.placed.orderId, setting.totalAmount, None, [setting.placed], {}, None, {}),
         Confirming, NOTHING, [])
  }

  datatype Move =
    | Confirmed(inTime: bool)
    | Reply(ack: Option<Ack>)
    | Approval(answer: Option<bool>)
    | Reported(ok: bool)
    | ChildEnds(outcome: Option<DispatchStatus>)
    | Effect(late: Late)

  /** The payments call the workflow waits for. */
  function Awaited(stage: Stage): Option<Ask> {
    match stage
    case Authorizing => Some(AskAuthorize)
    case Capturing => Some(AskCapture)
    case Compensating => Some(AskVoid)
    case Releasing => Some(AskVoid)
    case _ => None
  }

  predicate Answers(ask: Ask, k: Ack) {
    match ask
    case AskAuthorize => k == Authorized || k == Declined
    case AskCapture => k == Captured
    case AskVoid => k == Voided
  }

  predicate Answered(w: World, ask: Ask) {
    exists k :: k in w.acks && Answers(ask, k)
  }

  /** A reply was earned by some attempt; a failure may be reported although an attempt took effect or
      will, unless the network is honest. */
  predicate Enabled(setting: Setting, s: Saga, m: Move) {
    match m
    case Confirmed(_) => s.stage.Confirming?
    case Reply(ack) =>
      && Awaited(s.stage).Some?
      && if ack.Some? then ack.value in s.w.acks && Answers(Awaited(s.stage).value, ack.value)
         else setting.honest ==> !Answered(s.w, Awaited(s.stage).value)
    case Approval(_) => s.stage.Approving?
    case Reported(ok) => s.stage.Telling? && (ok ==> Told in s.w.acks)
    case ChildEnds(_) => s.stage.Fulfilling?
    case Effect(late) => Possible(s.w, late)
  }

  function Call(s: Saga, stage: Stage, ask: Ask): Saga {
    s.(w := s.w.(asks := s.w.asks + {ask}), stage := stage, calls := s.calls + [ask])
  }

  function TellOrder(s: Saga, tell: Tell): Saga {
    s.(w := s.w.(tell := Some(tell)), stage := Telling(tell))
  }

  /** In an honest network a call that failed never takes effect. */
  function Settled(setting: Setting, s: Saga, ack: Option<Ack>): Saga {
    if setting.honest && ack.None? && Awaited(s.stage).Some?
    then s.(w := s.w.(asks := s.w.asks - {Awaited(s.stage).value})) else s
  }

  function OnReply(s: Saga, ack: Option<Ack>): Saga {
    match s.stage
    case Authorizing =>
      if ack == Some(Authorized) then s.(stage := Approving, obs := s.obs.(authorized := true))
      else TellOrder(s, TellCancelled(PAYMENT_FAILED))
    case Capturing =>
      if ack.Some? then TellOrder(s.(obs := s.obs.(captured := true)), TellAccepted)
      else Call(s, Compensating, AskVoid)
    case Compensating => TellOrder(s.(obs := s.obs.(voided := ack.Some?)), TellCancelled(PAYMENT_FAILED))
    case Releasing =>
      if ack.None? then s.(stage := Crashed)
      else TellOrder(s.(obs := s.obs.(voided := true)),
                     TellCancelled(if s.obs.approval.Some? then REASON_DECLINED else SLA_BREACH))
    case _ => s
  }

  function CancelResult(reason: string): SagaResult {
    if reason == PAYMENT_TIMEOUT then CANCELLED_PAYMENT_TIMEOUT
    else if reason == PAYMENT_FAILED then CANCELLED_PAYMENT_FAILED
    else if reason == SLA_BREACH then CANCELLED_SLA
    else CANCELLED_DECLINED
  }

  function Step(setting: Setting, s: Saga, m: Move): Saga {
    match m
    case Confirmed(inTime) =>
      var s' := s.(obs := s.obs.(confirmedInTime := inTime));
      if inTime then Call(s', Authorizing, AskAuthorize) else TellOrder(s', TellCancelled(PAYMENT_TIMEOUT))
    case Reply(ack) => OnReply(Settled(setting, s, ack), ack)
    case Approval(answer) =>
      var s' := s.(obs := s.obs.(approval := answer));
      if answer == Some(true) then Call(s', Capturing, AskCapture) else Call(s', Releasing, AskVoid)
    case Reported(ok) =>
      if !ok || !s.stage.Telling? then s.(stage := Crashed)
      else if s.stage.tell.TellAccepted? then s.(stage := Fulfilling)
      else s.(stage := Done(CancelResult(s.stage.tell.reason)))
    case ChildEnds(outcome) =>
      s.(obs := s.obs.(dispatch := outcome),
         stage := Done(if outcome.None? then DISPATCH_FAILED else DispatchResult(outcome.value)))
    case Effect(late) => s.(w := Happen(s.w, late, setting.declineThreshold))
  }

  // ---- What every run keeps ----

  /** The requests outstanding, the calls made and the replies seen, against each other. */
  predicate Ledger(setting: Setting, s: Saga) {
    && (AskCapture in s.w.asks ==> AskCapture in s.calls)
    && (!setting.honest && AskCapture in s.calls ==> AskCapture in s.w.asks)
    && (s.obs.authorized ==> Authorized in s.w.acks)
    && (s.obs.voided ==> Voided in s.w.acks)
    && (s.w.payment.Some? ==> (Is(s.w, DECLINED) <==> setting.totalAmount >= setting.declineThreshold))
  }

  predicate StageOk(setting: Setting, s: Saga) {
    var w, obs := s.w, s.obs;
    match s.stage
    case Confirming => w.asks == {} && w.tell.None? && obs == NOTHING && s.calls == []
    case Authorizing =>
      && w.asks == {AskAuthorize} && w.tell.None?
      && obs == Observed(true, false, None, false, false, None) && s.calls == [AskAuthorize]
    case Approving =>
      && w.asks == {AskAuthorize} && w.tell.None? && Authorized in w.acks
      && obs == Observed(true, true, None, false, false, None) && s.calls == [AskAuthorize]
    case Capturing =>
      && w.asks == {AskAuthorize, AskCapture} && w.tell.None?
      && obs == Observed(true, true, Some(true), false, false, None) && s.calls == [AskAuthorize, AskCapture]
    case Compensating =>
      && w.asks == (if setting.honest then {AskAuthorize, AskVoid} else {AskAuthorize, AskCapture, AskVoid})
      && w.tell.None?
      && obs == Observed(true, true, Some(true), false, false, None) && s.calls == [AskAuthorize, AskCapture, AskVoid]
    case Releasing =>
      && w.asks == {AskAuthorize, AskVoid} && w.tell.None?
      && obs == Observed(true, true, obs.approval, false, false, None) && obs.approval != Some(true)
      && s.calls == [AskAuthorize, AskVoid]
    case Telling(tell) => w.tell == Some(tell) && tell == TellFor(obs) && s.calls == CallsFor(obs) && obs.dispatch.None?
    case Fulfilling =>
      && w.tell == Some(TellAccepted) && TellAccepted == TellFor(obs) && Told in w.acks && s.calls == CallsFor(obs)
    case Done(r) =>
      && w.tell == Some(TellFor(obs)) && Told in w.acks && r == ResultFor(obs) && s.calls == CallsFor(obs)
      && (obs.dispatch.Some? ==> TellFor(obs) == TellAccepted)
    case Crashed => s.calls == CallsFor(obs)
  }

  predicate Inv(setting: Setting, s: Saga) {
    && Safe(s.w, setting.honest) && s.w.totalAmount == setting.totalAmount
    && Ledger(setting, s) && StageOk(setting, s)
  }

  lemma EffectKeepsInv(setting: Setting, s: Saga, late: Late)
    requires Inv(setting, s) && Possible(s.w, late)
    ensures Inv(setting, Step(setting, s, Effect(late)))
  {
    HappenKeepsSafe(s.w, setting.honest, late, setting.declineThreshold);
  }

  lemma AskMore(w: World, honest: bool, ask: Ask)
    requires Safe(w, honest) && w.tell.None? && (!ask.AskAuthorize? ==> Authorized in w.acks)
    ensures Safe(w.(asks := w.asks + {ask}), honest)
  {
  }

  lemma AskLess(w: World, honest: bool, ask: Ask)
    requires Safe(w, honest) && w.tell.None? && !Answered(w, ask)
    ensures Safe(w.(asks := w.asks - {ask}), honest)
  {
    assert forall k :: k in w.acks ==> !Answers(ask, k);
  }

  lemma TellMore(w: World, honest: bool, tell: Tell)
    requires Safe(w, honest) && w.tell.None? && Presupposed(tell, w.payment, w.asks, honest)
    ensures Safe(w.(tell := Some(tell)), honest)
  {
  }

  lemma SettledKeepsSafe(setting: Setting, s: Saga, ack: Option<Ack>)
    requires Inv(setting, s) && Enabled(setting, s, Reply(ack))
    ensures Safe(Settled(setting, s, ack).w, setting.honest)
  {
    if setting.honest && ack.None? {
      AskLess(s.w, setting.honest, Awaited(s.stage).value);
    }
  }

  lemma AuthorizeReplyKeepsInv(setting: Setting, s: Saga, ack: Option<Ack>)
    requires Inv(setting, s) && Enabled(setting, s, Reply(ack)) && s.stage.Authorizing?
    ensures Inv(setting, Step(setting, s, Reply(ack)))
  {
    SettledKeepsSafe(setting, s, ack);
    if ack != Some(Authorized) {
      TellMore(Settled(setting, s, ack).w, setting.honest, TellCancelled(PAYMENT_FAILED));
    }
  }

  lemma CaptureReplyKeepsInv(setting: Setting, s: Saga, ack: Option<Ack>)
    requires Inv(setting, s) && Enabled(setting, s, Reply(ack)) && s.stage.Capturing?
    ensures Inv(setting, Step(setting, s, Reply(ack)))
  {
    SettledKeepsSafe(setting, s, ack);
    if ack.Some? {
      TellMore(s.w, setting.honest, TellAccepted);
    } else {
      AskMore(Settled(setting, s, ack).w, setting.honest, AskVoid);
    }
  }

  lemma VoidReplyKeepsInv(setting: Setting, s: Saga, ack: Option<Ack>)
    requires Inv(setting, s) && Enabled(setting, s, Reply(ack)) && (s.stage.Compensating? || s.stage.Releasing?)
    ensures Inv(setting, Step(setting, s, Reply(ack)))
  {
    SettledKeepsSafe(setting, s, ack);
    var w := Settled(setting, s, ack).w;
    if s.stage.Compensating? {
      TellMore(w, setting.honest, TellCancelled(PAYMENT_FAILED));
    } else if ack.Some? {
      TellMore(w, setting.honest, TellFor(s.obs));
    }
  }

  lemma WaitKeepsInv(setting: Setting, s: Saga, m: Move)
    requires Inv(setting, s) && Enabled(setting, s, m) && (m.Confirmed? || m.Approval?)
    ensures Inv(setting, Step(setting, s, m))
  {
    if m.Approval? {
      AskMore(s.w, setting.honest, if m.answer == Some(true) then AskCapture else AskVoid);
    } else if m.inTime {
      AskMore(s.w, setting.honest, AskAuthorize);
    } else {
      TellMore(s.w, setting.honest, TellCancelled(PAYMENT_TIMEOUT));
    }
  }

  lemma ReportKeepsInv(setting: Setting, s: Saga, ok: bool)
    requires Inv(setting, s) && Enabled(setting, s, Reported(ok))
    ensures Inv(setting, Step(setting, s, Reported(ok)))
  {
  }

  lemma StepKeepsInv(setting: Setting, s: Saga, m: Move)
    requires Inv(setting, s) && Enabled(setting, s, m)
    ensures Inv(setting, Step(setting, s, m))
  {
    match m {
      case Effect(late) => EffectKeepsInv(setting, s, late);
      case Reply(ack) =>
        if s.stage.Authorizing? {
          AuthorizeReplyKeepsInv(setting, s, ack);
        } else if s.stage.Capturing? {
          CaptureReplyKeepsInv(setting, s, ack);
        } else {
          VoidReplyKeepsInv(setting, s, ack);
        }
      case Reported(ok) => ReportKeepsInv(setting, s, ok);
      case ChildEnds(_) =>
      case _ => WaitKeepsInv(setting, s, m);
    }
  }

  ghost predicate Next(setting: Setting, s: Saga, s': Saga) {
    exists m :: Enabled(setting, s, m) && s' == Step(setting, s, m)
  }

  /** A run is the sequence of states it passes through. */
  ghost predicate IsRun(setting: Setting, states: seq<Saga>) {
    && SettingOk(setting) && states != [] && states[0] == Start(setting)
    && forall i :: 0 < i < |states| ==> Next(setting, states[i - 1], states[i])
  }

  ghost predicate Reached(setting: Setting, s: Saga) {
    exists states :: IsRun(setting, states) && states[|states| - 1] == s
  }

  lemma {:induction false} RunInv(setting: Setting, states: seq<Saga>, i: nat)
    requires IsRun(setting, states) && i < |states|
    ensures Inv(setting, states[i])
  {
    if i > 0 {
      RunInv(setting, states, i - 1);
      var m :| Enabled(setting, states[i - 1], m) && states[i] == Step(setting, states[i - 1], m);
      StepKeepsInv(setting, states[i - 1], m);
    }
  }

  lemma RunGoesOn(setting: Setting, states: seq<Saga>, m: Move)
    requires IsRun(setting, states) && Enabled(setting, states[|states| - 1], m)
    ensures IsRun(setting, states + [Step(setting, states[|states| - 1], m)])
  {
    assert Next(setting, states[|states| - 1], Step(setting, states[|states| - 1], m));
  }

  lemma ReachOn(setting: Setting, s: Saga, m: Move)
    requires Reached(setting, s) && Enabled(setting, s, m)
    ensures Reached(setting, Step(setting, s, m))
  {
    var states :| IsRun(setting, states) && states[|states| - 1] == s;
    RunGoesOn(setting, states, m);
    var more := states + [Step(setting, s, m)];
    assert more[|more| - 1] == Step(setting, s, m);
  }

  lemma ReachedInv(setting: Setting, s: Saga)
    requires Reached(setting, s)
    ensures Inv(setting, s)
  {
    var states :| IsRun(setting, states) && states[|states| - 1] == s;
    RunInv(setting, states, |states| - 1);
  }

  /** Whenever the workflow has returned, its result is the one called for and says what happened to
      the order. */
  lemma ResultIsTrue(setting: Setting, s: Saga)
    requires Reached(setting, s) && s.stage.Done?
    ensures ResultMatches(s.stage.result, s.w) && s.stage.result == ResultFor(s.obs)
  {
    ReachedInv(setting, s);
    DoneIsTrue(setting, s);
  }

  lemma DoneIsTrue(setting: Setting, s: Saga)
    requires Inv(setting, s) && s.stage.Done?
    ensures ResultMatches(s.stage.result, s.w) && s.stage.result == ResultFor(s.obs)
  {
    assert s.w.order[1] in s.w.order;
  }

  /** In every run, whatever its length: order and payment agree. */
  lemma RunAgrees(setting: Setting, states: seq<Saga>, i: nat)
    requires IsRun(setting, states) && i < |states|
    ensures Agree(states[i].w, setting.honest)
  {
    RunInv(setting, states, i);
    SafeAgrees(states[i].w, setting.honest);
  }

  /** What holds when the workflow is over. */
  lemma RunEnds(setting: Setting, states: seq<Saga>)
    requires IsRun(setting, states) && (states[|states| - 1].stage.Done? || states[|states| - 1].stage.Crashed?)
    ensures var s := states[|states| - 1];
      && s.calls == CallsFor(s.obs)
      && (AskCapture in s.w.asks ==> AskCapture in s.calls)
      && (s.obs.voided ==> Voided in s.w.acks)
      && (s.stage.Done? ==> ResultMatches(s.stage.result, s.w) && s.stage.result == ResultFor(s.obs))
  {
    RunInv(setting, states, |states| - 1);
    EndFacts(setting, states[|states| - 1]);
  }

  lemma EndFacts(setting: Setting, s: Saga)
    requires Inv(setting, s) && (s.stage.Done? || s.stage.Crashed?)
    ensures s.calls == CallsFor(s.obs)
    ensures AskCapture in s.w.asks ==> AskCapture in s.calls
    ensures s.obs.voided ==> Voided in s.w.acks
    ensures s.stage.Done? ==> ResultMatches(s.stage.result, s.w) && s.stage.result == ResultFor(s.obs)
  {
    if s.stage.Done? {
      DoneIsTrue(setting, s);
    }
  }

  // ---- When a cancelled order is safe from a charge ----

  lemma Go(setting: Setting, s: Saga, m: Move, s': Saga)
    requires Reached(setting, s) && Enabled(setting, s, m) && s' == Step(setting, s, m)
    ensures Reached(setting, s')
  {
    ReachOn(setting, s, m);
  }

  /** A state on the way to the lost capture. */
  function OnTheWay(setting: Setting, payment: Option<Pay.Payment>, asks: set<Ask>, acks: set<Ack>, stage: Stage,
                    obs: Observed, calls: seq<Ask>): Saga
  {
    Saga(World(setting.placed.orderId, setting.totalAmount, payment, [setting.placed], asks, None, acks),
         stage, obs, calls)
  }

  function Hold(setting: Setting): Pay.Payment {
    Pay.Payment("p", setting.totalAmount, AUTHORIZED, Some(0), None, None)
  }

  predicate CanBeLost(setting: Setting) {
    SettingOk(setting) && !setting.honest && setting.totalAmount < setting.declineThreshold
  }

  /** Confirmed in time, and the authorize request takes effect and answers. */
  lemma RunToHold(setting: Setting)
    requires CanBeLost(setting)
    ensures Reached(setting, OnTheWay(setting, Some(Hold(setting)), {AskAuthorize}, {Authorized}, Approving,
                                      Observed(true, true, None, false, false, None), [AskAuthorize]))
  {
    var s0 := Start(setting);
    assert IsRun(setting, [s0]) && [s0][|[s0]| - 1] == s0;
    var obs := Observed(true, false, None, false, false, None);
    var s1 := OnTheWay(setting, None, {AskAuthorize}, {}, Authorizing, obs, [AskAuthorize]);
    Go(setting, s0, Confirmed(true), s1);
    var s2 := OnTheWay(setting, Some(Hold(setting)), {AskAuthorize}, {Authorized}, Authorizing, obs, [AskAuthorize]);
    Go(setting, s1, Effect(LateAsk(AskAuthorize, "p", 0)), s2);
    Go(setting, s2, Reply(Some(Authorized)), s2.(stage := Approving, obs := obs.(authorized := true)));
  }

  /** Approved; the capture takes effect but its reply is lost; the void is refused. */
  lemma RunToRefusedVoid(setting: Setting)
    requires CanBeLost(setting)
    ensures Reached(setting, OnTheWay(setting, Some(Hold(setting).(status := CAPTURED, capturedAt := Some(1))),
                                      {AskAuthorize, AskCapture, AskVoid}, {Authorized, Captured}, Compensating,
                                      Observed(true, true, Some(true), false, false, None),
                                      [AskAuthorize, AskCapture, AskVoid]))
  {
    RunToHold(setting);
    var obs := Observed(true, true, Some(true), false, false, None);
    var s3 := OnTheWay(setting, Some(Hold(setting)), {AskAuthorize}, {Authorized}, Approving, obs.(approval := None),
                       [AskAuthorize]);
    var s4 := OnTheWay(setting, Some(Hold(setting)), {AskAuthorize, AskCapture}, {Authorized}, Capturing, obs,
                       [AskAuthorize, AskCapture]);
    Go(setting, s3, Approval(Some(true)), s4);
    var charged := Some(Hold(setting).(status := CAPTURED, capturedAt := Some(1)));
    var s5 := OnTheWay(setting, charged, {AskAuthorize, AskCapture}, {Authorized, Captured}, Capturing, obs,
                       [AskAuthorize, AskCapture]);
    Go(setting, s4, Effect(LateAsk(AskCapture, "", 1)), s5);
    var s6 := OnTheWay(setting, charged, {AskAuthorize, AskCapture, AskVoid}, {Authorized, Captured}, Compensating, obs,
                       [AskAuthorize, AskCapture, AskVoid]);
    Go(setting, s5, Reply(None), s6);
    Go(setting, s6, Effect(LateAsk(AskVoid, "", 2)), s6);
  }

  /** And the order is cancelled with PAYMENT_FAILED, although it has been charged. */
  lemma LostCaptureRun(setting: Setting) returns (s: Saga)
    requires CanBeLost(setting)
    ensures Reached(setting, s) && s.stage == Done(CANCELLED_PAYMENT_FAILED)
    ensures s.obs == Observed(true, true, Some(true), false, false, None)
    ensures s.calls == [AskAuthorize, AskCapture, AskVoid]
    ensures IsCancelled(s.w, PAYMENT_FAILED) && Is(s.w, CAPTURED)
  {
    RunToRefusedVoid(setting);
    var s6 := OnTheWay(setting, Some(Hold(setting).(status := CAPTURED, capturedAt := Some(1))),
                       {AskAuthorize, AskCapture, AskVoid}, {Authorized, Captured}, Compensating,
                       Observed(true, true, Some(true), false, false, None), [AskAuthorize, AskCapture, AskVoid]);
    var s7 := TellOrder(s6, TellCancelled(PAYMENT_FAILED));
    Go(setting, s6, Reply(None), s7);
    OrderStates(s7.w.orderId, s7.w.order);
    assert s7.w.order[..1] == s7.w.order;
    var cancelled := OrderCancelled(s7.w.orderId, Some(PAYMENT_FAILED));
    assert ExecuteTell(s7.w, TellCancelled(PAYMENT_FAILED))
        == s7.w.(order := [setting.placed, cancelled], acks := {Authorized, Captured, Told});
    var s8 := s7.(w := s7.w.(order := [setting.placed, cancelled], acks := {Authorized, Captured, Told}));
    Go(setting, s7, Effect(LateTell), s8);
    s := s8.(stage := Done(CANCELLED_PAYMENT_FAILED));
    Go(setting, s8, Reported(true), s);
  }

  /** The workflow, and whoever reads its log, cannot tell these two states apart. */
  predicate LooksLike(s: Saga, s': Saga) {
    s.stage == s'.stage && s.obs == s'.obs && s.calls == s'.calls
  }

  ghost predicate SafeFromCharge(setting: Setting, s: Saga) {
    forall s' :: Reached(setting, s') && LooksLike(s', s) ==> !Chargeable(s'.w, setting.declineThreshold)
  }

  /** At every moment of every run: a charge is still possible, or has happened, exactly when a capture
      was sent and no void has taken effect. */
  lemma ReachedChargeableIff(setting: Setting, s: Saga)
    requires Reached(setting, s)
    ensures Chargeable(s.w, setting.declineThreshold) <==> AskCapture in s.w.asks && Voided !in s.w.acks
    ensures AskCapture in s.w.asks ==> AskCapture in s.calls
    ensures !setting.honest && AskCapture in s.calls ==> AskCapture in s.w.asks
    ensures s.obs.voided ==> Voided in s.w.acks
  {
    ReachedInv(setting, s);
    ChargeableIff(s.w, setting.honest, setting.declineThreshold);
  }

  /** An order cancelled with PAYMENT_FAILED is sure never to be charged, now or later, if and only if
      capture was never called or the void was acknowledged. */
  lemma PaymentFailedIsSafeIff(setting: Setting, s: Saga)
    requires Reached(setting, s) && s.stage == Done(CANCELLED_PAYMENT_FAILED) && !setting.honest
    ensures SafeFromCharge(setting, s) <==> AskCapture !in s.calls || s.obs.voided
  {
    if AskCapture !in s.calls || s.obs.voided {
      forall s' | Reached(setting, s') && LooksLike(s', s) ensures !Chargeable(s'.w, setting.declineThreshold) {
        ReachedChargeableIff(setting, s');
      }
    } else {
      ReachedInv(setting, s);
      var charged := LostCaptureRun(setting);
      ReachedChargeableIff(setting, charged);
      ReachedInv(setting, charged);
      assert LooksLike(charged, s);
    }
  }

  /** When a call reported as failed is sure never to take effect, PAYMENT_FAILED always means never
      charged. */
  lemma HonestFailureIsSafe(setting: Setting, s: Saga)
    requires Reached(setting, s) && s.stage == Done(CANCELLED_PAYMENT_FAILED) && setting.honest
    ensures SafeFromCharge(setting, s)
  {
    forall s' | Reached(setting, s') && LooksLike(s', s) ensures !Chargeable(s'.w, setting.declineThreshold) {
      ReachedChargeableIff(setting, s');
      ReachedInv(setting, s');
    }
  }

  // ---- That the workflow can always finish, and with every outcome ----

  predicate Takes(setting: Setting, s: Saga, moves: seq<Move>)
    decreases |moves|
  {
    moves == [] || (Enabled(setting, s, moves[0]) && Takes(setting, Step(setting, s, moves[0]), moves[1..]))
  }

  function EndOf(setting: Setting, s: Saga, moves: seq<Move>): Saga
    decreases |moves|
  {
    if moves == [] then s else EndOf(setting, Step(setting, s, moves[0]), moves[1..])
  }

  /** There is a way on from s to s'. */
  ghost predicate Leads(setting: Setting, s: Saga, s': Saga) {
    exists moves :: Takes(setting, s, moves) && EndOf(setting, s, moves) == s'
  }

  lemma LeadsHere(setting: Setting, s: Saga)
    ensures Leads(setting, s, s)
  {
    assert Takes(setting, s, []) && EndOf(setting, s, []) == s;
  }

  lemma LeadsOn(setting: Setting, s: Saga, m: Move, s': Saga)
    requires Enabled(setting, s, m) && Leads(setting, Step(setting, s, m), s')
    ensures Leads(setting, s, s')
  {
    var moves :| Takes(setting, Step(setting, s, m), moves) && EndOf(setting, Step(setting, s, m), moves) == s';
    assert ([m] + moves)[1..] == moves;
    assert Takes(setting, s, [m] + moves) && EndOf(setting, s, [m] + moves) == s';
  }

  lemma {:induction false} LeadsFrom(setting: Setting, s: Saga, moves: seq<Move>, s'': Saga)
    requires Takes(setting, s, moves) && Leads(setting, EndOf(setting, s, moves), s'')
    ensures Leads(setting, s, s'')
    decreases |moves|
  {
    if moves != [] {
      LeadsFrom(setting, Step(setting, s, moves[0]), moves[1..], s'');
      LeadsOn(setting, s, moves[0], s'');
    }
  }

  lemma LeadsThrough(setting: Setting, s: Saga, s': Saga, s'': Saga)
    requires Leads(setting, s, s') && Leads(setting, s', s'')
    ensures Leads(setting, s, s'')
  {
    var moves :| Takes(setting, s, moves) && EndOf(setting, s, moves) == s';
    LeadsFrom(setting, s, moves, s'');
  }

  /** Something sent takes effect, and then the workflow sees it. */
  lemma EffectThen(setting: Setting, s: Saga, late: Late, m: Move) returns (s': Saga)
    requires Inv(setting, s) && Possible(s.w, late) && Enabled(setting, Step(setting, s, Effect(late)), m)
    ensures s' == Step(setting, Step(setting, s, Effect(late)), m) && Inv(setting, s') && Leads(setting, s, s')
  {
    var s1 := Step(setting, s, Effect(late));
    StepKeepsInv(setting, s, Effect(late));
    StepKeepsInv(setting, s1, m);
    s' := Step(setting, s1, m);
    LeadsHere(setting, s');
    LeadsOn(setting, s1, m, s');
    LeadsOn(setting, s, Effect(late), s');
  }

  /** What the order is to be told can be recorded. */
  lemma TellingProceeds(setting: Setting, s: Saga) returns (s': Saga)
    requires Inv(setting, s) && s.stage.Telling?
    ensures Inv(setting, s') && Leads(setting, s, s')
    ensures s'.stage ==
      if s.stage.tell == TellAccepted then Fulfilling
      else Done(if s.stage.tell.reason == PAYMENT_TIMEOUT then CANCELLED_PAYMENT_TIMEOUT
                else if s.stage.tell.reason == PAYMENT_FAILED then CANCELLED_PAYMENT_FAILED
                else if s.stage.tell.reason == SLA_BREACH then CANCELLED_SLA else CANCELLED_DECLINED)
    ensures s'.obs == s.obs && s'.calls == s.calls && s'.w.payment == s.w.payment
  {
    s' := EffectThen(setting, s, LateTell, Reported(true));
  }

  /** The authorize call can be answered: with a hold below the threshold, with a refusal from it on. */
  lemma AuthorizingProceeds(setting: Setting, s: Saga) returns (s': Saga)
    requires Inv(setting, s) && s.stage.Authorizing?
    ensures Inv(setting, s') && Leads(setting, s, s') && s'.calls == s.calls
    ensures if setting.totalAmount < setting.declineThreshold
      then s'.stage == Approving && s'.obs == s.obs.(authorized := true)
      else s'.stage == Telling(TellCancelled(PAYMENT_FAILED)) && s'.obs == s.obs && Is(s'.w, DECLINED)
  {
    s' := EffectThen(setting, s, LateAsk(AskAuthorize, "p", 0),
                     Reply(Some(if setting.totalAmount < setting.declineThreshold then Authorized else Declined)));
  }

  /** The capture can be answered, and the order is then accepted. */
  lemma CapturingProceeds(setting: Setting, s: Saga) returns (s': Saga)
    requires Inv(setting, s) && s.stage.Capturing?
    ensures Inv(setting, s') && Leads(setting, s, s') && s'.stage == Telling(TellAccepted)
    ensures s'.obs == s.obs.(captured := true) && s'.calls == s.calls && Is(s'.w, CAPTURED)
  {
    s' := EffectThen(setting, s, LateAsk(AskCapture, "p", 0), Reply(Some(Captured)));
  }

  /** The void of a declined or unanswered order can be answered, and it is then cancelled. */
  lemma ReleasingProceeds(setting: Setting, s: Saga) returns (s': Saga)
    requires Inv(setting, s) && s.stage.Releasing?
    ensures Inv(setting, s') && Leads(setting, s, s')
    ensures s'.stage == Telling(TellCancelled(if s.obs.approval == Some(false) then REASON_DECLINED else SLA_BREACH))
    ensures s'.obs == s.obs.(voided := true) && s'.calls == s.calls && Is(s'.w, VOIDED)
  {
    s' := EffectThen(setting, s, LateAsk(AskVoid, "p", 0), Reply(Some(Voided)));
  }

  /** The compensating void is answered, or fails; the order is cancelled all the same. */
  lemma CompensatingProceeds(setting: Setting, s: Saga) returns (s': Saga)
    requires Inv(setting, s) && s.stage.Compensating?
    ensures Inv(setting, s') && Leads(setting, s, s') && s'.stage == Telling(TellCancelled(PAYMENT_FAILED))
    ensures s'.calls == s.calls
  {
    var ack: Option<Ack> := if Voided in s.w.acks then Some(Voided) else None;
    StepKeepsInv(setting, s, Reply(ack));
    s' := Step(setting, s, Reply(ack));
    LeadsHere(setting, s');
    LeadsOn(setting, s, Reply(ack), s');
  }

  /** One move. */
  lemma Moves(setting: Setting, s: Saga, m: Move) returns (s': Saga)
    requires Inv(setting, s) && Enabled(setting, s, m)
    ensures s' == Step(setting, s, m) && Inv(setting, s') && Leads(setting, s, s')
  {
    StepKeepsInv(setting, s, m);
    s' := Step(setting, s, m);
    LeadsHere(setting, s');
    LeadsOn(setting, s, m, s');
  }

  /** From the merchant's answer on. */
  lemma ApprovingEnds(setting: Setting, s: Saga, approval: Option<bool>, child: Option<DispatchStatus>)
    returns (s': Saga)
    requires Inv(setting, s) && s.stage.Approving?
    ensures Inv(setting, s') && Leads(setting, s, s')
    ensures s'.stage == Done(if approval == Some(true) then
                               (if child == Some(DELIVERED) then RESULT_DELIVERED else DISPATCH_FAILED)
                             else if approval == Some(false) then CANCELLED_DECLINED else CANCELLED_SLA)
    ensures s'.calls == [AskAuthorize, if approval == Some(true) then AskCapture else AskVoid]
    ensures Is(s'.w, if approval == Some(true) then CAPTURED else VOIDED)
  {
    var s1 := Moves(setting, s, Approval(approval));
    if approval == Some(true) {
      var s2 := CapturingProceeds(setting, s1);
      var s3 := TellingProceeds(setting, s2);
      s' := Moves(setting, s3, ChildEnds(child));
      LeadsThrough(setting, s2, s3, s');
      LeadsThrough(setting, s1, s2, s');
    } else {
      var s2 := ReleasingProceeds(setting, s1);
      s' := TellingProceeds(setting, s2);
      LeadsThrough(setting, s1, s2, s');
    }
    LeadsThrough(setting, s, s1, s');
  }

  /** Every outcome happens: for every combination of confirmation, amount, merchant's answer and end of
      the dispatch there is a run that ends as it should, with the calls, the payment and the order
      status that belong to it. */
  lemma EveryOutcome(setting: Setting, inTime: bool, approval: Option<bool>, child: Option<DispatchStatus>)
    returns (s: Saga)
    requires SettingOk(setting)
    ensures Leads(setting, Start(setting), s)
    ensures s.stage == Done(if !inTime then CANCELLED_PAYMENT_TIMEOUT
                            else if setting.totalAmount >= setting.declineThreshold then CANCELLED_PAYMENT_FAILED
                            else if approval == Some(true) then
                              (if child == Some(DELIVERED) then RESULT_DELIVERED else DISPATCH_FAILED)
                            else if approval == Some(false) then CANCELLED_DECLINED else CANCELLED_SLA)
    ensures s.calls == if !inTime then []
                       else if setting.totalAmount >= setting.declineThreshold then [AskAuthorize]
                       else [AskAuthorize, if approval == Some(true) then AskCapture else AskVoid]
    ensures inTime && setting.totalAmount < setting.declineThreshold ==>
      Is(s.w, if approval == Some(true) then CAPTURED else VOIDED)
    ensures ResultMatches(s.stage.result, s.w)
  {
    StartInv(setting);
    var s1 := Moves(setting, Start(setting), Confirmed(inTime));
    if inTime {
      var s2 := AuthorizingProceeds(setting, s1);
      if setting.totalAmount < setting.declineThreshold {
        s := ApprovingEnds(setting, s2, approval, child);
      } else {
        s := TellingProceeds(setting, s2);
      }
      LeadsThrough(setting, s1, s2, s);
    } else {
      s := TellingProceeds(setting, s1);
    }
    LeadsThrough(setting, Start(setting), s1, s);
    DoneIsTrue(setting, s);
  }

  lemma StartInv(setting: Setting)
    requires SettingOk(setting)
    ensures Inv(setting, Start(setting))
  {
  }

  function StagesLeft(stage: Stage): nat {
    match stage
    case Confirming => 6
    case Authorizing => 5
    case Approving => 4
    case Telling(_) => 2
    case Fulfilling => 1
    case Done(_) => 0
    case Crashed => 0
    case _ => 3
  }

  lemma Onward(setting: Setting, s: Saga) returns (s': Saga)
    requires Inv(setting, s) && !s.stage.Crashed? && !s.stage.Done?
    ensures Inv(setting, s') && Leads(setting, s, s')
    ensures !s'.stage.Crashed? && StagesLeft(s'.stage) < StagesLeft(s.stage)
  {
    match s.stage {
      case Confirming => s' := Moves(setting, s, Confirmed(true));
      case Authorizing => s' := AuthorizingProceeds(setting, s);
      case Approving => s' := Moves(setting, s, Approval(None));
      case Capturing => s' := CapturingProceeds(setting, s);
      case Compensating => s' := CompensatingProceeds(setting, s);
      case Releasing => s' := ReleasingProceeds(setting, s);
      case Telling(_) => s' := TellingProceeds(setting, s);
      case Fulfilling => s' := Moves(setting, s, ChildEnds(None));
    }
  }

  /** Never stuck: from every moment of every run in which no activity has given up, the workflow can
      still return, whatever was lost or took effect late so far. */
  lemma {:induction false} NeverStuck(setting: Setting, s: Saga) returns (s': Saga)
    requires Inv(setting, s) && !s.stage.Crashed?
    ensures Leads(setting, s, s') && s'.stage.Done? && ResultMatches(s'.stage.result, s'.w)
    decreases StagesLeft(s.stage)
  {
    if s.stage.Done? {
      s' := s;
      LeadsHere(setting, s);
      DoneIsTrue(setting, s);
    } else {
      var s1 := Onward(setting, s);
      s' := NeverStuck(setting, s1);
      LeadsThrough(setting, s, s1, s');
    }
  }

  // ---- The workflow as written ----

  /** Every signal sent to the workflow: whether the customer has confirmed, and the merchant's answers in
      order. */
  datatype Signals = Signals(confirmed: bool, answers: seq<bool>)

  const SILENCE := Signals(false, [])

  predicate Grew(before: Signals, after: Signals) {
    (before.confirmed ==> after.confirmed) && before.answers <= after.answers
  }

  function LastAnswer(signals: Signals): Option<bool> {
    if signals.answers == [] then None else Some(signals.answers[|signals.answers| - 1])
  }

  class SagaRuntime {
    const setting: Setting
    var s: Saga
    /** What the signal handlers have noted. */
    var confirmed: bool
    var approved: Option<bool>
    ghost var trace: seq<Saga>
    /** Every signal that has arrived; only the arrival of signals writes this. */
    ghost var heard: Signals

    /** The states passed through so far are a run, the last one is as its stage says, and no signal is
        forgotten. */
    ghost predicate Valid()
      reads this
    {
      && IsRun(setting, trace) && trace[|trace| - 1] == s && StageOk(setting, s)
      && confirmed == heard.confirmed && approved == LastAnswer(heard)
    }

    /** The workflow is started by the order's OrderPlaced message. */
    constructor (setting: Setting)
      requires SettingOk(setting)
      ensures Valid() && s == Start(setting) && this.setting == setting && heard == SILENCE
    {
      this.setting, s := setting, Start(setting);
      confirmed, approved, heard := false, None, SILENCE;
      trace := [Start(setting)];
    }

    lemma Holds()
      requires IsRun(setting, trace) && trace[|trace| - 1] == s
      ensures Inv(setting, s)
    {
      RunInv(setting, trace, |trace| - 1);
    }

    /** Confirmations and answers, at any time; of several answers the last counts. */
    method SignalsArrive()
      requires Valid()
      modifies this`confirmed, this`approved, this`heard
      ensures Valid() && Grew(old(heard), heard)
    {
      var c: bool, answers: seq<bool> := *, *;
      confirmed := confirmed || c;
      approved := if answers == [] then approved else Some(answers[|answers| - 1]);
      heard := Signals(heard.confirmed || c, heard.answers + answers);
    }

    /** The waits ended by the signals that had arrived, however early. */
    ghost predicate HeardWell(before: Signals)
      reads this
    {
      && Grew(before, heard)
      && (s.obs.confirmedInTime <==> heard.confirmed)
      && (s.obs.authorized ==> s.obs.approval == LastAnswer(heard))
    }

    method Take(m: Move)
      requires Valid() && Enabled(setting, s, m)
      modifies this`s, this`trace
      ensures Valid() && old(trace) <= trace && s == Step(setting, old(s), m)
    {
      RunGoesOn(setting, trace, m);
      s := Step(setting, s, m);
      trace := trace + [s];
      Holds();
    }

    /** Anything already sent may take effect, any number of times, while the workflow waits. */
    method Environment()
      requires Valid()
      modifies this`s, this`trace
      ensures Valid() && old(trace) <= trace && LooksLike(s, old(s))
    {
      var n: int := *;
      while n > 0
        invariant Valid() && old(trace) <= trace && LooksLike(s, old(s))
      {
        n := n - 1;
        var late: Late := *;
        if Possible(s.w, late) {
          Take(Effect(late));
        }
      }
    }

    /** Waits for the customer's confirmation, which may have come before, or for the timer. */
    method AwaitConfirmation() returns (inTime: bool)
      requires Valid() && s.stage.Confirming?
      modifies this
      ensures Valid() && old(trace) <= trace && Grew(old(heard), heard)
      ensures inTime == heard.confirmed && s.obs == old(s.obs).(confirmedInTime := inTime)
      ensures s.stage == if inTime then Authorizing else Telling(TellCancelled(PAYMENT_TIMEOUT))
    {
      Environment();
      SignalsArrive();
      inTime := confirmed;
      Take(Confirmed(inTime));
    }

    /** Waits for the merchant's answer, which may have come before, or for the SLA timer. */
    method AwaitApproval() returns (approval: Option<bool>)
      requires Valid() && s.stage.Approving?
      modifies this
      ensures Valid() && old(trace) <= trace && s.obs == old(s.obs).(approval := approval)
      ensures Grew(old(heard), heard) && approval == LastAnswer(heard)
      ensures s.stage == if approval == Some(true) then Capturing else Releasing
    {
      Environment();
      SignalsArrive();
      approval := approved;
      Take(Approval(approval));
    }

    /** A payments activity with its retries. It returns a reply that some attempt earned, or fails. */
    method CallPayments(ask: Ask) returns (ack: Option<Ack>)
      requires Valid() && Awaited(s.stage) == Some(ask)
      modifies this`s, this`trace
      ensures Valid() && old(trace) <= trace
      ensures s.stage == OnReply(old(s), ack).stage && s.obs == OnReply(old(s), ack).obs
      ensures ack.Some? ==> Answers(ask, ack.value) && ack.value in s.w.acks
      ensures ack.None? && setting.honest ==> ask !in s.w.asks && !Answered(s.w, ask)
      ensures s.w.tell == if s.stage.Telling? then Some(s.stage.tell) else None
    {
      Environment();
      var answered: bool := *;
      ack := None;
      if (setting.honest || answered) && Answered(s.w, ask) {
        var k :| k in s.w.acks && Answers(ask, k);
        ack := Some(k);
      }
      Take(Reply(ack));
    }

    /** An activity that records the outcome on the order stream, with its retries. */
    method Record(tell: Tell) returns (recorded: bool)
      requires Valid() && s.stage == Telling(tell)
      modifies this`s, this`trace
      ensures Valid() && old(trace) <= trace && s.obs == old(s.obs) && s.w.tell == Some(tell)
      ensures s.stage ==
        if !recorded then Crashed else if tell.TellAccepted? then Fulfilling else Done(CancelResult(tell.reason))
    {
      Environment();
      recorded := *;
      recorded := recorded && Told in s.w.acks;
      Take(Reported(recorded));
    }

    /** The child workflow ends in some dispatch status, or crashes; meanwhile time passes. */
    method ExecuteDispatchChild() returns (outcome: Option<DispatchStatus>)
      requires Valid() && s.stage.Fulfilling?
      modifies this`s, this`trace
      ensures Valid() && old(trace) <= trace && s.obs == old(s.obs).(dispatch := outcome)
      ensures s.w.tell == Some(TellAccepted)
      ensures s.stage == Done(if outcome.None? then DISPATCH_FAILED else DispatchResult(outcome.value))
    {
      Environment();
      outcome := *;
      Take(ChildEnds(outcome));
    }

    /** The whole saga, from the placed order on. It takes exactly the machine's steps, so at every
        moment order and payment agree; the result is the one called for by what was observed and says
        what happened to the order; exactly the right payments calls were made, and nothing is
        outstanding that was not called. `None` stands for a workflow that failed because an activity
        exhausted its retries. */
    method OrderLifecycle() returns (result: Option<SagaResult>)
      requires Valid() && s.stage.Confirming?
      modifies this
      ensures Valid() && old(trace) <= trace
      ensures forall i :: 0 <= i < |trace| ==> Agree(trace[i].w, setting.honest)
      ensures s.stage == if result.Some? then Done(result.value) else Crashed
      ensures result.Some? ==> ResultMatches(result.value, s.w) && result.value == ResultFor(s.obs)
      ensures s.calls == CallsFor(s.obs)
      ensures AskCapture in s.w.asks ==> AskCapture in s.calls
      ensures s.obs.voided ==> Voided in s.w.acks
      ensures HeardWell(old(heard))
    {
      result := Lifecycle();
      RunEnds(setting, trace);
      forall i | 0 <= i < |trace| ensures Agree(trace[i].w, setting.honest) {
        RunAgrees(setting, trace, i);
      }
    }

    method Lifecycle() returns (result: Option<SagaResult>)
      requires Valid() && s.stage.Confirming?
      modifies this
      ensures Valid() && old(trace) <= trace && HeardWell(old(heard))
      ensures s.stage == if result.Some? then Done(result.value) else Crashed
    {
      var confirmedInTime := AwaitConfirmation();
      if !confirmedInTime {
        var recorded := Record(TellCancelled(PAYMENT_TIMEOUT));
        return if recorded then Some(CANCELLED_PAYMENT_TIMEOUT) else None;
      }

      result := AuthorizeAndAwait();
    }

    /** The customer confirmed in time. A declined or failed authorize cancels the order and nothing
        more is called; otherwise the merchant decides. */
    method AuthorizeAndAwait() returns (result: Option<SagaResult>)
      requires Valid() && s.stage.Authorizing?
      modifies this
      ensures Valid() && old(trace) <= trace && s.obs.confirmedInTime
      ensures Grew(old(heard), heard) && (s.obs.authorized ==> s.obs.approval == LastAnswer(heard))
      ensures s.stage == if result.Some? then Done(result.value) else Crashed
      ensures !s.obs.authorized ==>
        && s.calls == [AskAuthorize] && s.w.tell == Some(TellCancelled(PAYMENT_FAILED))
        && (result == None || result == Some(CANCELLED_PAYMENT_FAILED))
      ensures s.obs.authorized ==>
        |s.calls| > 1 && s.calls[1] == if s.obs.approval == Some(true) then AskCapture else AskVoid
    {
      var authorized := CallPayments(AskAuthorize);
      if authorized != Some(Authorized) {
        var recorded := Record(TellCancelled(PAYMENT_FAILED));
        return if recorded then Some(CANCELLED_PAYMENT_FAILED) else None;
      }
      var answer := AwaitApproval();
      if answer == Some(true) {
        result := CaptureAndFulfil();
      } else {
        result := ReleaseAndCancel(answer);
      }
    }

    /** The merchant approved in time: accepted only after a capture reply; otherwise a void is tried
        and the order is cancelled whatever came of it. */
    method CaptureAndFulfil() returns (result: Option<SagaResult>)
      requires Valid() && s.stage.Capturing?
      modifies this`s, this`trace
      ensures Valid() && old(trace) <= trace && s.obs.authorized && s.obs.approval == Some(true)
      ensures s.obs.confirmedInTime
      ensures s.stage == if result.Some? then Done(result.value) else Crashed
      ensures s.obs.captured ==> s.calls == [AskAuthorize, AskCapture] && s.w.tell == Some(TellAccepted)
      ensures !s.obs.captured ==>
        && s.calls == [AskAuthorize, AskCapture, AskVoid] && s.w.tell == Some(TellCancelled(PAYMENT_FAILED))
        && (result == None || result == Some(CANCELLED_PAYMENT_FAILED))
    {
      var captured := CallPayments(AskCapture);
      if captured.None? {
        result := CompensateAndCancel();
        return;
      }
      var recorded := Record(TellAccepted);
      if !recorded {
        return None;
      }
      var outcome := ExecuteDispatchChild();
      return Some(if outcome.None? then DISPATCH_FAILED else DispatchResult(outcome.value));
    }

    /** The capture failed. */
    method CompensateAndCancel() returns (result: Option<SagaResult>)
      requires Valid() && s.stage.Compensating?
      modifies this`s, this`trace
      ensures Valid() && old(trace) <= trace && s.obs == old(s.obs).(voided := s.obs.voided)
      ensures s.stage == if result.Some? then Done(result.value) else Crashed
      ensures result == None || result == Some(CANCELLED_PAYMENT_FAILED)
      ensures s.w.tell == Some(TellCancelled(PAYMENT_FAILED))
    {
      var _ := CallPayments(AskVoid);           // best effort
      var recorded := Record(TellCancelled(PAYMENT_FAILED));
      return if recorded then Some(CANCELLED_PAYMENT_FAILED) else None;
    }

    /** The merchant declined or said nothing in time: cancelled, with its own reason, only after the
        void was acknowledged. */
    method ReleaseAndCancel(answer: Option<bool>) returns (result: Option<SagaResult>)
      requires Valid() && s.stage.Releasing? && s.obs.approval == answer != Some(true)
      modifies this`s, this`trace
      ensures Valid() && old(trace) <= trace && s.obs.authorized && s.obs.approval == answer && s.obs.confirmedInTime
      ensures s.stage == if result.Some? then Done(result.value) else Crashed
      ensures s.calls == [AskAuthorize, AskVoid]
      ensures s.w.tell ==
        if s.obs.voided then Some(TellCancelled(if answer.Some? then REASON_DECLINED else SLA_BREACH)) else None
      ensures result.Some? ==> Is(s.w, VOIDED)
    {
      var voided := CallPayments(AskVoid);
      if voided.None? {
        return None;
      }
      var reason := if answer.Some? then REASON_DECLINED else SLA_BREACH;
      var recorded := Record(TellCancelled(reason));
      if !recorded {
        return None;
      }
      Holds();
      return Some(if reason == SLA_BREACH then CANCELLED_SLA else CANCELLED_DECLINED);
    }
  }
}
