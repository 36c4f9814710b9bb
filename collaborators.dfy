/**
 * What the handlers receive from collaborators they do not own: the payment
 * processor (app/stripe_service.py), the webhook signature check and the
 * bearer-token check. Their outcomes are inputs of the model.
 */
module Collaborators {

  /** Outcome of creating a payment intent at the processor. */
  datatype IntentOutcome =
    | IntentCreated(id: string, clientSecret: string)
    | IntentFailed

  /** Outcome of creating a refund at the processor. */
  datatype RefundOutcome = RefundSucceeded | RefundFailed

  /** A parsed webhook event: its type and the id of the payment intent it carries. */
  datatype Event = Event(eventType: string, intentId: string)

  /**
   * Outcome of verifying a webhook body against its signature header:
   * a parsed event, or one of the two errors the verification raises.
   */
  datatype Verification =
    | Verified(event: Event)
    | InvalidPayload
    | InvalidSignature

  /** A call that reaches the processor, with the arguments it is made with. */
  datatype ProcessorCall =
    | CreateIntent(amount: int, currency: string, idempotencyKey: string)
    | CreateRefund(paymentId: string)

  /** The event type the webhook acts on. */
  const PaymentSucceeded: string := "payment_intent.succeeded"
}
