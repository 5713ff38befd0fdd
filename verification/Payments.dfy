/** The payments service: one row per order, authorize / capture / void. */
module Payments {
  import opened Contracts

  datatype Payment = Payment(
    id: string,
    amount: int,
    status: PaymentStatus,
    authorizedAt: Option<Time>,
    capturedAt: Option<Time>,
    voidedAt: Option<Time>)

  datatype PaymentError = NotFound | Conflict
  datatype Outcome = WasAuthorized | WasDeclined | WasCaptured | WasVoided
  datatype PaymentOutcome = PaymentOutcome(paymentId: string, outcome: Outcome)

  datatype Call =
    | Authorize(amount: int, declineThreshold: int)
    | Capture
    | Void

  /** Decline at or above the threshold. */
  function DecideAuthorize(amount: int, declineThreshold: int): PaymentStatus {
    if amount >= declineThreshold then DECLINED else AUTHORIZED
  }

  function NextOnCapture(current: PaymentStatus): Option<PaymentStatus> {
    if current == CAPTURED || current == AUTHORIZED then Some(CAPTURED) else None
  }

  function NextOnVoid(current: PaymentStatus): Option<PaymentStatus> {
    if current == VOIDED || current == AUTHORIZED then Some(VOIDED) else None
  }

  function OutcomeOf(status: PaymentStatus): Outcome {
    if status == DECLINED then WasDeclined else WasAuthorized
  }

  /** One request against the row of one order: the row afterwards and the reply.
      `newId` and `now` are what the database and the clock supply. */
  function Exec(row: Option<Payment>, call: Call, newId: string, now: Time)
    : (Option<Payment>, Result<PaymentOutcome, PaymentError>)
  {
    match call
    case Authorize(amount, threshold) =>
      if row.Some? then (row, Ok(PaymentOutcome(row.value.id, OutcomeOf(row.value.status))))
      else
        var status := DecideAuthorize(amount, threshold);
        (Some(Payment(newId, amount, status, if status == AUTHORIZED then Some(now) else None, None, None)),
         Ok(PaymentOutcome(newId, OutcomeOf(status))))
    case Capture =>
      if row.None? then (row, Err(NotFound))
      else if NextOnCapture(row.value.status).None? then (row, Err(Conflict))
      else (Some(if row.value.status == CAPTURED then row.value
                 else row.value.(status := CAPTURED, capturedAt := Some(now))),
            Ok(PaymentOutcome(row.value.id, WasCaptured)))
    case Void =>
      if row.None? then (row, Err(NotFound))
      else if NextOnVoid(row.value.status).None? then (row, Err(Conflict))
      else (Some(if row.value.status == VOIDED then row.value else row.value.(status := VOIDED, voidedAt := Some(now))),
            Ok(PaymentOutcome(row.value.id, WasVoided)))
  }

  datatype Event = Event(call: Call, newId: string, now: Time)

  function Run(row: Option<Payment>, events: seq<Event>): Option<Payment> {
    if events == [] then row
    else
      var e := events[|events| - 1];
      Exec(Run(row, events[..|events| - 1]), e.call, e.newId, e.now).0
  }

  /** The stamps tell the status: never both captured and voided, neither when declined. */
  predicate PaymentOk(p: Payment) {
    && (p.capturedAt.Some? <==> p.status == CAPTURED)
    && (p.voidedAt.Some? <==> p.status == VOIDED)
    && (p.authorizedAt.Some? <==> p.status != DECLINED)
  }

  predicate Final(status: PaymentStatus) {
    status != AUTHORIZED
  }

  lemma ExecKeeps(row: Option<Payment>, call: Call, newId: string, now: Time)
    requires row.Some? ==> PaymentOk(row.value)
    ensures var row' := Exec(row, call, newId, now).0;
      && (row'.Some? ==> PaymentOk(row'.value))
      && (row.Some? ==> row'.Some? && row'.value.id == row.value.id && row'.value.amount == row.value.amount)
      && (row.Some? && Final(row.value.status) ==> row' == row)
  {
  }

  /** In every history of requests the stamps stay exclusive, the row keeps its identity and
      amount, and CAPTURED, VOIDED and DECLINED are for ever. */
  lemma {:induction false} HistoryKeeps(row: Option<Payment>, events: seq<Event>)
    requires row.Some? ==> PaymentOk(row.value)
    ensures var row' := Run(row, events);
      && (row'.Some? ==> PaymentOk(row'.value) && !(row'.value.capturedAt.Some? && row'.value.voidedAt.Some?))
      && (row.Some? ==> row'.Some? && row'.value.id == row.value.id && row'.value.amount == row.value.amount)
      && (row.Some? && Final(row.value.status) ==> row' == row)
  {
    if events != [] {
      var front, e := events[..|events| - 1], events[|events| - 1];
      HistoryKeeps(row, front);
      ExecKeeps(Run(row, front), e.call, e.newId, e.now);
    }
  }

  /** Whether a row was declined is decided once. */
  lemma {:induction false} DecisionStays(row: Payment, events: seq<Event>)
    ensures Run(Some(row), events).Some?
    ensures Run(Some(row), events).value.id == row.id
    ensures OutcomeOf(Run(Some(row), events).value.status) == OutcomeOf(row.status)
  {
    if events != [] {
      DecisionStays(row, events[..|events| - 1]);
    }
  }

  /** However often, and with whatever amounts, an order is authorized and whatever happens in
      between, every authorize reply is the one the first amount decided, about the first row. */
  lemma AuthorizeIsIdempotent(first: Event, between: seq<Event>, again: Event)
    requires first.call.Authorize? && again.call.Authorize?
    ensures Exec(Run(Exec(None, first.call, first.newId, first.now).0, between), again.call, again.newId, again.now).1
      == Ok(PaymentOutcome(first.newId,
            if first.call.amount >= first.call.declineThreshold then WasDeclined else WasAuthorized))
  {
    var row := Exec(None, first.call, first.newId, first.now).0.value;
    DecisionStays(row, between);
  }

  /** Capture, status by status: an open hold is captured at that instant and keeps everything else; a
      captured one is acknowledged again unchanged; the other two refuse; and there must be a row. */
  lemma CaptureEffect(row: Option<Payment>, newId: string, now: Time)
    ensures var (row', reply) := Exec(row, Capture, newId, now);
      match row
      case None => row' == None && reply == Err(NotFound)
      case Some(Payment(id, amount, AUTHORIZED, authorizedAt, _, voidedAt)) =>
        && row' == Some(Payment(id, amount, CAPTURED, authorizedAt, Some(now), voidedAt))
        && reply == Ok(PaymentOutcome(id, WasCaptured))
      case Some(Payment(id, _, CAPTURED, _, _, _)) => row' == row && reply == Ok(PaymentOutcome(id, WasCaptured))
      case Some(Payment(_, _, VOIDED, _, _, _)) => row' == row && reply == Err(Conflict)
      case Some(Payment(_, _, DECLINED, _, _, _)) => row' == row && reply == Err(Conflict)
  {
  }

  /** Void, status by status: an open hold is released at that instant. */
  lemma VoidEffect(row: Option<Payment>, newId: string, now: Time)
    ensures var (row', reply) := Exec(row, Void, newId, now);
      match row
      case None => row' == None && reply == Err(NotFound)
      case Some(Payment(id, amount, AUTHORIZED, authorizedAt, capturedAt, _)) =>
        && row' == Some(Payment(id, amount, VOIDED, authorizedAt, capturedAt, Some(now)))
        && reply == Ok(PaymentOutcome(id, WasVoided))
      case Some(Payment(id, _, VOIDED, _, _, _)) => row' == row && reply == Ok(PaymentOutcome(id, WasVoided))
      case Some(Payment(_, _, CAPTURED, _, _, _)) => row' == row && reply == Err(Conflict)
      case Some(Payment(_, _, DECLINED, _, _, _)) => row' == row && reply == Err(Conflict)
  {
  }

  /** Authorize: the first one makes the row, a hold below the threshold and a refusal from it on. */
  lemma AuthorizeEffect(row: Option<Payment>, amount: int, declineThreshold: int, newId: string, now: Time)
    ensures var (row', reply) := Exec(row, Authorize(amount, declineThreshold), newId, now);
      match row
      case None =>
        if amount < declineThreshold then
          && row' == Some(Payment(newId, amount, AUTHORIZED, Some(now), None, None))
          && reply == Ok(PaymentOutcome(newId, WasAuthorized))
        else
          && row' == Some(Payment(newId, amount, DECLINED, None, None, None))
          && reply == Ok(PaymentOutcome(newId, WasDeclined))
      case Some(p) =>
        row' == row && reply == Ok(PaymentOutcome(p.id, if p.status == DECLINED then WasDeclined else WasAuthorized))
  {
  }

  /** What was acknowledged once is acknowledged again, whatever is requested in between: a retry after
      a lost reply succeeds, with the same reply. And exactly one of capture and void can ever be
      acknowledged for a hold. */
  lemma SettledOnce(row: Payment, call: Call, other: Call, first: Event, between: seq<Event>, again: Event)
    requires PaymentOk(row) && row.status == AUTHORIZED
    requires (call == Capture && other == Void) || (call == Void && other == Capture)
    requires first.call == call
    ensures var (row', reply) := Exec(Some(row), call, first.newId, first.now);
      var later := Run(row', between);
      && reply == Ok(PaymentOutcome(row.id, if call == Capture then WasCaptured else WasVoided))
      && Exec(later, call, again.newId, again.now) == (row', reply)
      && Exec(later, other, again.newId, again.now) == (row', Err(Conflict))
  {
    CaptureEffect(Some(row), first.newId, first.now);
    VoidEffect(Some(row), first.newId, first.now);
    var row' := Exec(Some(row), call, first.newId, first.now).0;
    HistoryKeeps(row', between);
    CaptureEffect(row', again.newId, again.now);
    VoidEffect(row', again.newId, again.now);
  }

  datatype OrderKey = OrderKey(tenantId: TenantId, orderId: OrderId)

  class PaymentsService {
    var table: map<OrderKey, Payment>

    constructor ()
      ensures table == map[]
    {
      table := map[];
    }

    function Find(key: OrderKey): Option<Payment>
      reads this
    {
      if key in table then Some(table[key]) else None
    }

    method AuthorizePayment(key: OrderKey, amount: int, declineThreshold: int, newId: string, now: Time)
      returns (result: Result<PaymentOutcome, PaymentError>)
      modifies this
      ensures (Find(key), result) == Exec(old(Find(key)), Authorize(amount, declineThreshold), newId, now)
      ensures table - {key} == old(table) - {key}
    {
      if key in table {
        return Ok(PaymentOutcome(table[key].id, if table[key].status == DECLINED then WasDeclined else WasAuthorized));
      }
      var status := DecideAuthorize(amount, declineThreshold);
      table := table[key := Payment(newId, amount, status,
                                    if status == AUTHORIZED then Some(now) else None, None, None)];
      return Ok(PaymentOutcome(newId, if status == DECLINED then WasDeclined else WasAuthorized));
    }

    method CapturePayment(key: OrderKey, now: Time) returns (result: Result<PaymentOutcome, PaymentError>)
      modifies this
      ensures forall newId :: (Find(key), result) == Exec(old(Find(key)), Capture, newId, now)
      ensures table - {key} == old(table) - {key}
    {
      result := Transition(key, NextOnCapture, (p: Payment) => p.(capturedAt := Some(now)), WasCaptured);
    }

    method VoidPayment(key: OrderKey, now: Time) returns (result: Result<PaymentOutcome, PaymentError>)
      modifies this
      ensures forall newId :: (Find(key), result) == Exec(old(Find(key)), Void, newId, now)
      ensures table - {key} == old(table) - {key}
    {
      result := Transition(key, NextOnVoid, (p: Payment) => p.(voidedAt := Some(now)), WasVoided);
    }

    method Transition(key: OrderKey, next: PaymentStatus -> Option<PaymentStatus>, stamp: Payment -> Payment,
                      outcome: Outcome)
      returns (result: Result<PaymentOutcome, PaymentError>)
      modifies this
      ensures table - {key} == old(table) - {key}
      ensures key !in old(table) ==> result == Err(NotFound) && table == old(table)
      ensures key in old(table) ==>
        var row := old(table)[key];
        match next(row.status)
        case None => result == Err(Conflict) && table == old(table)
        case Some(target) =>
          && result == Ok(PaymentOutcome(row.id, outcome))
          && table == if row.status == target then old(table) else old(table)[key := stamp(row.(status := target))]
    {
      if key !in table {
        return Err(NotFound);
      }
      var row := table[key];
      var target := next(row.status);
      if target.None? {
        return Err(Conflict);
      }
      if row.status != target.value {
        table := table[key := stamp(row.(status := target.value))];
      }
      return Ok(PaymentOutcome(row.id, outcome));
    }
  }
}
