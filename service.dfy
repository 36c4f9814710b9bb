/**
 * The service as it runs: one table that the three handlers update in place
 * (app/routes.py, app/main.py). The database session becomes the `payments`
 * field; processor calls are recorded in the ghost log `calls`.
 */
module Service {
  import opened Wrappers
  import opened Models
  import opened Collaborators
  import opened Handlers

  /**
   * The lookup `filter_by(order_id=...).first()`: scan the rows for one whose
   * `order_id` matches.
   */
  method FindByOrder(t: Table, orderId: string) returns (r: Option<Payment>)
    requires KeyedById(t)
    ensures r.None? <==> !HasOrder(t, orderId)
    ensures r.Some? ==> r.value.id in t && t[r.value.id] == r.value && r.value.orderId == orderId
  {
    var unseen := t.Keys;
    while unseen != {}
      invariant unseen <= t.Keys
      invariant forall k :: k in t && k !in unseen ==> t[k].orderId != orderId
      decreases unseen
    {
      var k :| k in unseen;
      if t[k].orderId == orderId {
        return Some(t[k]);
      }
      unseen := unseen - {k};
    }
    return None;
  }

  class PaymentService {
    var payments: Table
    ghost var calls: seq<ProcessorCall>

    ghost predicate Valid()
      reads this
    {
      ValidTable(payments)
    }

    constructor ()
      ensures Valid()
      ensures payments == map[] && calls == []
    {
      payments := map[];
      calls := [];
    }

    /** POST /payments. */
    method CreatePayment(authorized: bool, orderId: string, amount: int, currency: string,
                         intent: IntentOutcome) returns (response: Response)
      requires Valid()
      modifies this
      ensures Valid()
      ensures var s := Create(old(payments), authorized, orderId, amount, currency, intent);
              payments == s.table && response == s.response && calls == old(calls) + s.calls
    {
      if !authorized {
        return Unauthorized;
      }
      var existing := FindByOrder(payments, orderId);
      if existing.Some? {
        OrderKeyIsUnique(payments, orderId, existing.value.id);
        return PaymentStatus(existing.value.id, existing.value.status);
      }
      calls := calls + [CreateIntent(amount, currency, orderId)];
      match intent {
        case IntentFailed =>
          response := ServerError(ProcessorFailed);
        case IntentCreated(id, secret) =>
          if id in payments {
            // the commit is rejected by the primary key and nothing is written
            response := ServerError(IntegrityConflict);
          } else {
            payments := payments[id := NewPayment(id, orderId, amount, currency)];
            response := ClientSecret(secret);
          }
      }
    }

    /** POST /refund. */
    method RefundPayment(authorized: bool, orderId: string, outcome: RefundOutcome) returns (response: Response)
      requires Valid()
      modifies this
      ensures Valid()
      ensures var s := Refund(old(payments), authorized, orderId, outcome);
              payments == s.table && response == s.response && calls == old(calls) + s.calls
    {
      if !authorized {
        return Unauthorized;
      }
      var found := FindByOrder(payments, orderId);
      if found.None? || found.value.status == Refunded {
        if found.Some? {
          OrderKeyIsUnique(payments, orderId, found.value.id);
        }
        return NothingToRefund;
      }
      var payment := found.value;
      OrderKeyIsUnique(payments, orderId, payment.id);
      calls := calls + [CreateRefund(payment.id)];
      if outcome == RefundFailed {
        return ServerError(ProcessorFailed);
      }
      payments := payments[payment.id := payment.(status := Refunded)];
      response := RefundDone;
    }

    /** POST /webhook, after the signature check. */
    method StripeWebhook(verification: Verification) returns (response: Response)
      requires Valid()
      modifies this
      ensures Valid()
      ensures var s := Webhook(old(payments), verification);
              payments == s.table && response == s.response && calls == old(calls)
    {
      match verification {
        case InvalidPayload =>
          return BadRequest(InvalidPayloadDetail);
        case InvalidSignature =>
          return BadRequest(InvalidSignatureDetail);
        case Verified(event) =>
          if event.eventType == PaymentSucceeded && event.intentId in payments {
            var payment := payments[event.intentId];
            if payment.status != Paid {
              payments := payments[event.intentId := payment.(status := Paid)];
            }
          }
          response := WebhookOk;
      }
    }
  }
}
