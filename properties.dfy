/**
 * Properties of the handlers over several requests: idempotent create,
 * idempotent refund, idempotent webhook delivery, and what holds of the table
 * after any sequence of requests.
 */
module Properties {
  import opened Models
  import opened Collaborators
  import opened Handlers

  /** A second create for an order that was just created echoes the stored row, whatever its amount and currency. */
  lemma RepeatedCreateEchoesFirst(t: Table, orderId: string, amount1: int, currency1: string, intent1: IntentOutcome,
                                  amount2: int, currency2: string, intent2: IntentOutcome)
    requires ValidTable(t)
    requires Create(t, true, orderId, amount1, currency1, intent1).response.ClientSecret?
    ensures var first := Create(t, true, orderId, amount1, currency1, intent1);
            var second := Create(first.table, true, orderId, amount2, currency2, intent2);
            && intent1.IntentCreated?
            && second == Step(first.table, PaymentStatus(intent1.id, Created), [])
            && first.calls + second.calls == [CreateIntent(amount1, currency1, orderId)]
  {
    var first := Create(t, true, orderId, amount1, currency1, intent1);
    OrderKeyIsUnique(first.table, orderId, intent1.id);
  }

  /** Refunding twice: `refunded`, then "Nothing to refund", with one processor refund in all. */
  lemma RefundTwice(t: Table, orderId: string, outcome2: RefundOutcome)
    requires ValidTable(t)
    requires HasOrder(t, orderId) && t[OrderKey(t, orderId)].status != Refunded
    ensures var id := OrderKey(t, orderId);
            var first := Refund(t, true, orderId, RefundSucceeded);
            var second := Refund(first.table, true, orderId, outcome2);
            && first.response == RefundDone
            && second == Step(first.table, NothingToRefund, [])
            && first.calls + second.calls == [CreateRefund(id)]
  {
    var id := OrderKey(t, orderId);
    var first := Refund(t, true, orderId, RefundSucceeded);
    OrderKeyIsUnique(first.table, orderId, id);
  }

  /** Delivering the same webhook twice has the effect of delivering it once. */
  lemma WebhookRedeliveryIsNoOp(t: Table, v: Verification)
    requires ValidTable(t)
    ensures var once := Webhook(t, v);
            Webhook(once.table, v) == once
  {
  }

  /**
   * The webhook guard is only "not yet paid": a succeeded event for a refunded
   * row moves it back to `paid`.
   */
  lemma SucceededEventRevivesRefunded(t: Table, id: string)
    requires ValidTable(t)
    requires id in t && t[id].status == Refunded
    ensures var s := Webhook(t, Verified(Event(PaymentSucceeded, id)));
            s.response == WebhookOk && s.table == t[id := t[id].(status := Paid)]
  {
  }

  /**
   * A consequence of that guard: after a late succeeded event, refunding an
   * already refunded order calls the processor refund a second time.
   */
  lemma LateSucceededEventAllowsSecondRefund(t: Table, id: string, outcome: RefundOutcome)
    requires ValidTable(t)
    requires id in t && t[id].status == Refunded
    ensures var orderId := t[id].orderId;
            var before := Refund(t, true, orderId, outcome);
            var revived := Webhook(t, Verified(Event(PaymentSucceeded, id))).table;
            var after := Refund(revived, true, orderId, outcome);
            && before == Step(t, NothingToRefund, [])
            && after.calls == [CreateRefund(id)]
  {
    var orderId := t[id].orderId;
    OrderKeyIsUnique(t, orderId, id);
    var revived := Webhook(t, Verified(Event(PaymentSucceeded, id))).table;
    OrderKeyIsUnique(revived, orderId, id);
  }

  /** One request to any of the three endpoints, with its collaborators' outcomes. */
  datatype Request =
    | CreateRequest(authorized: bool, orderId: string, amount: int, currency: string, intent: IntentOutcome)
    | RefundRequest(authorized: bool, orderId: string, outcome: RefundOutcome)
    | WebhookRequest(verification: Verification)

  /** Two versions of a row agree on everything but the status. */
  ghost predicate SameRecord(p: Payment, q: Payment)
  {
    p.id == q.id && p.orderId == q.orderId && p.amount == q.amount && p.currency == q.currency
  }

  /** Rows of `t` are all still in `t'`, changed at most in their status. */
  ghost predicate KeepsRecords(t: Table, t': Table)
  {
    forall k :: k in t ==> k in t' && SameRecord(t[k], t'[k])
  }

  ghost function Apply(t: Table, r: Request): (s: Step)
    requires ValidTable(t)
    ensures ValidTable(s.table)
    ensures KeepsRecords(t, s.table)
    ensures |s.calls| <= 1
    // an intent is only ever requested by a create for an order without a row
    ensures forall c :: c in s.calls && c.CreateIntent? ==>
              r.CreateRequest? && c.idempotencyKey == r.orderId && !HasOrder(t, r.orderId)
  {
    match r
    case CreateRequest(authorized, orderId, amount, currency, intent) =>
      Create(t, authorized, orderId, amount, currency, intent)
    case RefundRequest(authorized, orderId, outcome) =>
      Refund(t, authorized, orderId, outcome)
    case WebhookRequest(verification) =>
      Webhook(t, verification)
  }

  /** The table, responses and processor calls after serving the requests in order. */
  datatype Trace = Trace(table: Table, responses: seq<Response>, calls: seq<ProcessorCall>)

  ghost function Run(t: Table, requests: seq<Request>): (tr: Trace)
    requires ValidTable(t)
    // whatever the requests, at most one row per order id and per id
    ensures ValidTable(tr.table)
    // no row is ever deleted, and only its status ever changes
    ensures KeepsRecords(t, tr.table)
    ensures |tr.responses| == |requests|
    ensures |tr.calls| <= |requests|
    decreases |requests|
  {
    if requests == [] then
      Trace(t, [], [])
    else
      var s := Apply(t, requests[0]);
      var rest := Run(s.table, requests[1..]);
      Trace(rest.table, [s.response] + rest.responses, s.calls + rest.calls)
  }

  /** Once an order has a row, no later request asks the processor for an intent keyed by it. */
  lemma {:induction false} NoIntentForKnownOrder(t: Table, requests: seq<Request>, orderId: string)
    requires ValidTable(t)
    requires HasOrder(t, orderId)
    ensures forall c :: c in Run(t, requests).calls && c.CreateIntent? ==> c.idempotencyKey != orderId
    decreases |requests|
  {
    if requests != [] {
      var s := Apply(t, requests[0]);
      var k := OrderKey(t, orderId);
      assert HasOrder(s.table, orderId) by {
        assert k in s.table && s.table[k].orderId == orderId;
      }
      NoIntentForKnownOrder(s.table, requests[1..], orderId);
    }
  }

  // The integration test's lifecycle: create, a succeeded webhook, a refund; then a second refund.
  const TestOrder: string := "ORDER-INT-001"
  const TestIntent: string := "pi_integration_test_123"
  const TestSecret: string := "secret_test_456"
  const CreateOrder := CreateRequest(true, TestOrder, 2500, "eur", IntentCreated(TestIntent, TestSecret))
  const SucceededEvent := WebhookRequest(Verified(Event(PaymentSucceeded, TestIntent)))
  const RefundOrder := RefundRequest(true, TestOrder, RefundSucceeded)
  const CreatedRow: Table := map[TestIntent := Payment(TestIntent, TestOrder, 2500, "eur", Created)]
  const PaidRow: Table := map[TestIntent := Payment(TestIntent, TestOrder, 2500, "eur", Paid)]
  const RefundedRow: Table := map[TestIntent := Payment(TestIntent, TestOrder, 2500, "eur", Refunded)]

  lemma LifecycleCreate()
    ensures Apply(map[], CreateOrder) == Step(CreatedRow, ClientSecret(TestSecret), [CreateIntent(2500, "eur", TestOrder)])
  {
    assert !HasOrder(map[], TestOrder);
  }

  lemma LifecycleWebhook()
    ensures Apply(CreatedRow, SucceededEvent) == Step(PaidRow, WebhookOk, [])
  {
  }

  lemma LifecycleRefunds()
    ensures ValidTable(PaidRow) && ValidTable(RefundedRow)
    ensures Apply(PaidRow, RefundOrder) == Step(RefundedRow, RefundDone, [CreateRefund(TestIntent)])
    ensures Apply(RefundedRow, RefundOrder) == Step(RefundedRow, NothingToRefund, [])
  {
    OrderKeyIsUnique(PaidRow, TestOrder, TestIntent);
    OrderKeyIsUnique(RefundedRow, TestOrder, TestIntent);
  }

  /** The scenario after the create: webhook, refund, second refund. */
  lemma LifecycleAfterCreate()
    ensures Run(CreatedRow, [SucceededEvent, RefundOrder, RefundOrder]) ==
            Trace(RefundedRow, [WebhookOk, RefundDone, NothingToRefund], [CreateRefund(TestIntent)])
  {
    var requests := [SucceededEvent, RefundOrder, RefundOrder];
    LifecycleWebhook();
    LifecycleRefunds();
    assert requests[2..][1..] == [];
    assert Run(RefundedRow, requests[2..]) == Trace(RefundedRow, [NothingToRefund], []);
    assert requests[1..][1..] == requests[2..];
    assert Run(PaidRow, requests[1..]) == Trace(RefundedRow, [RefundDone, NothingToRefund], [CreateRefund(TestIntent)]);
  }

  /** The whole scenario, served in order. */
  lemma Lifecycle()
    ensures Run(map[], [CreateOrder, SucceededEvent, RefundOrder, RefundOrder]) ==
            Trace(RefundedRow,
                  [ClientSecret(TestSecret), WebhookOk, RefundDone, NothingToRefund],
                  [CreateIntent(2500, "eur", TestOrder), CreateRefund(TestIntent)])
  {
    var requests := [CreateOrder, SucceededEvent, RefundOrder, RefundOrder];
    LifecycleCreate();
    LifecycleAfterCreate();
    assert requests[1..] == [SucceededEvent, RefundOrder, RefundOrder];
  }
}
