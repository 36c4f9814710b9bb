/**
 * What each request handler does to the payment table, as a function of the
 * table before the request and the collaborators' outcomes: the create and
 * refund endpoints (app/routes.py) and the processor webhook (app/main.py).
 * The class in module Service runs these steps in place.
 */
module Handlers {
  import opened Models
  import opened Collaborators

  /** Why a request ended in a server error. */
  datatype Failure =
    | ProcessorFailed      // the processor call raised
    | IntegrityConflict    // the commit hit the primary key of an existing row

  /** The response bodies the three endpoints produce. */
  datatype Response =
    | ClientSecret(secret: string)                  // {"client_secret": ...}
    | PaymentStatus(paymentId: string, status: Status)  // {"payment_id": ..., "status": ...}
    | RefundDone                                    // {"status": "refunded"}
    | NothingToRefund                               // {"message": "Nothing to refund"}
    | WebhookOk                                     // {"ok": true}
    | Unauthorized                                  // 401 from the bearer-token check
    | BadRequest(detail: string)                    // 400 from webhook verification
    | ServerError(cause: Failure)                   // an exception left the handler

  const InvalidPayloadDetail: string := "Invalid payload"
  const InvalidSignatureDetail: string := "Invalid signature"

  /** The table after a request, the response, and the processor calls it made in order. */
  datatype Step = Step(table: Table, response: Response, calls: seq<ProcessorCall>)

  /** The row a successful create inserts. */
  function NewPayment(id: string, orderId: string, amount: int, currency: string): Payment
  {
    Payment(id, orderId, amount, currency, Created)
  }

  /**
   * POST /payments: deduplicate by `order_id`; otherwise create an intent with
   * `order_id` as idempotency key and insert a `created` row under its id.
   */
  ghost function Create(t: Table, authorized: bool, orderId: string, amount: int, currency: string,
                        intent: IntentOutcome): (s: Step)
    requires ValidTable(t)
    ensures ValidTable(s.table)
    // the token check runs before the handler
    ensures !authorized ==> s == Step(t, Unauthorized, [])
    // a known order: its id and status are echoed, nothing changes, no processor call
    ensures authorized && HasOrder(t, orderId) ==>
              s.table == t && s.calls == [] &&
              s.response == PaymentStatus(t[OrderKey(t, orderId)].id, t[OrderKey(t, orderId)].status)
    // a new order: exactly one intent is requested, keyed by the order id
    ensures authorized && !HasOrder(t, orderId) ==> s.calls == [CreateIntent(amount, currency, orderId)]
    // success, and exactly when it happens
    ensures s.response.ClientSecret? <==>
              authorized && !HasOrder(t, orderId) && intent.IntentCreated? && intent.id !in t
    ensures s.response.ClientSecret? ==>
              s.response.secret == intent.clientSecret &&
              s.table.Keys == t.Keys + {intent.id} &&
              s.table[intent.id] == Payment(intent.id, orderId, amount, currency, Created) &&
              forall k :: k in t ==> s.table[k] == t[k]
    // every other outcome leaves the table as it was
    ensures !s.response.ClientSecret? ==> s.table == t
    ensures s.response.ServerError? <==> authorized && !HasOrder(t, orderId) && !s.response.ClientSecret?
    // a processor failure, or a processor id that is already a key
    ensures s.response.ServerError? ==> (s.response.cause == IntegrityConflict <==> intent.IntentCreated?)
    // no record is left for an order whose creation failed
    ensures s.response.ServerError? ==> !HasOrder(s.table, orderId)
    ensures HasOrder(s.table, orderId) <==> HasOrder(t, orderId) || s.response.ClientSecret?
  {
    if !authorized then
      Step(t, Unauthorized, [])
    else if HasOrder(t, orderId) then
      var existing := t[OrderKey(t, orderId)];
      Step(t, PaymentStatus(existing.id, existing.status), [])
    else
      var call := [CreateIntent(amount, currency, orderId)];
      match intent
      case IntentFailed => Step(t, ServerError(ProcessorFailed), call)
      case IntentCreated(id, secret) =>
        if id in t then
          Step(t, ServerError(IntegrityConflict), call)
        else
          var t' := t[id := NewPayment(id, orderId, amount, currency)];
          assert t'[id].orderId == orderId;
          Step(t', ClientSecret(secret), call)
  }

  /**
   * POST /refund: nothing to do for an unknown order or a refunded one;
   * otherwise refund at the processor and mark the row `refunded`.
   */
  ghost function Refund(t: Table, authorized: bool, orderId: string, outcome: RefundOutcome): (s: Step)
    requires ValidTable(t)
    ensures ValidTable(s.table)
    ensures s.table.Keys == t.Keys
    ensures !authorized ==> s == Step(t, Unauthorized, [])
    ensures authorized && (!HasOrder(t, orderId) || t[OrderKey(t, orderId)].status == Refunded) ==>
              s == Step(t, NothingToRefund, [])
    ensures authorized && HasOrder(t, orderId) && t[OrderKey(t, orderId)].status != Refunded ==>
              var p := t[OrderKey(t, orderId)];
              && s.calls == [CreateRefund(p.id)]
              && (outcome == RefundSucceeded ==>
                    s.response == RefundDone && s.table[p.id] == p.(status := Refunded))
              && (outcome == RefundFailed ==>
                    s.response == ServerError(ProcessorFailed) && s.table == t)
    // only the refunded row's status can change
    ensures forall k :: k in t && s.table[k] != t[k] ==>
              s.response == RefundDone && s.table[k] == t[k].(status := Refunded) && t[k].orderId == orderId
  {
    if !authorized then
      Step(t, Unauthorized, [])
    else if !HasOrder(t, orderId) || t[OrderKey(t, orderId)].status == Refunded then
      Step(t, NothingToRefund, [])
    else
      var p := t[OrderKey(t, orderId)];
      match outcome
      case RefundFailed => Step(t, ServerError(ProcessorFailed), [CreateRefund(p.id)])
      case RefundSucceeded =>
        Step(t[p.id := p.(status := Refunded)], RefundDone, [CreateRefund(p.id)])
  }

  /** The verified event asks to mark an existing, not yet `paid` row as `paid`. */
  ghost predicate MarksPaid(t: Table, v: Verification)
  {
    && v.Verified?
    && v.event.eventType == PaymentSucceeded
    && v.event.intentId in t
    && t[v.event.intentId].status != Paid
  }

  /**
   * POST /webhook: reject what fails verification before touching the table;
   * on a succeeded event for a known row that is not `paid`, mark it `paid`;
   * acknowledge everything else.
   */
  ghost function Webhook(t: Table, v: Verification): (s: Step)
    requires ValidTable(t)
    ensures ValidTable(s.table)
    ensures s.calls == []
    ensures s.table.Keys == t.Keys
    ensures v == InvalidPayload ==> s == Step(t, BadRequest(InvalidPayloadDetail), [])
    ensures v == InvalidSignature ==> s == Step(t, BadRequest(InvalidSignatureDetail), [])
    ensures v.Verified? ==> s.response == WebhookOk
    // the target row becomes paid; every other row and field stays
    ensures forall k :: k in t ==>
              s.table[k] == if MarksPaid(t, v) && k == v.event.intentId then t[k].(status := Paid) else t[k]
    ensures !MarksPaid(t, v) ==> s.table == t
  {
    match v
    case InvalidPayload => Step(t, BadRequest(InvalidPayloadDetail), [])
    case InvalidSignature => Step(t, BadRequest(InvalidSignatureDetail), [])
    case Verified(event) =>
      if event.eventType == PaymentSucceeded && event.intentId in t && t[event.intentId].status != Paid then
        var id := event.intentId;
        Step(t[id := t[id].(status := Paid)], WebhookOk, [])
      else
        Step(t, WebhookOk, [])
  }
}
