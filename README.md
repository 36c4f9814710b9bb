# Payment service: the payment table and its three handlers

This project models the core of a small payment microservice that sits in
front of a payment processor. The service keeps one table of `Payment` rows,
keyed by the payment-intent id that the processor assigns. Each row has a
unique `order_id`, an integer `amount`, a `currency` and a `status`
(`created`, `paid` or `refunded`). Three request handlers change the table:

- **create** (`POST /payments`) deduplicates by `order_id`. For a new order it
  asks the processor for an intent, using the `order_id` as idempotency key,
  and inserts a `created` row under the intent's id.
- **refund** (`POST /refund`) does nothing for an unknown order or for a
  refunded one. Otherwise it asks the processor for a refund and marks the row
  `refunded`.
- **webhook** (`POST /webhook`) rejects a body that fails signature
  verification. For a verified `payment_intent.succeeded` event about a known
  row that is not `paid`, it marks that row `paid`. Every verified event is
  acknowledged.

Layout:

- `models.dfy` (module `Models`): the row, the table, the primary-key and
  unique-`order_id` constraints, and lookup by `order_id`.
- `collaborators.dfy` (module `Collaborators`): the outcomes of processor
  calls and of webhook verification, which the model takes as inputs. It also
  holds the record of a processor call.
- `handlers.dfy` (module `Handlers`): each handler as a function from the
  table before the request to the table after, the response, and the
  processor calls made.
- `service.dfy` (module `Service`): the class `PaymentService`. Its
  `payments` map is updated in place by one method per handler. A ghost log
  `calls` records every processor call. Each method is proved to do exactly
  what its `Handlers` function says.
- `properties.dfy` (module `Properties`): properties that span several
  requests, such as idempotent create, refund and webhook delivery. It also
  shows what holds after any sequence of requests.

Collaborators are inputs. The processor's create result is `IntentCreated(id,
secret)` or `IntentFailed`. Its refund result is `RefundSucceeded` or
`RefundFailed`. Webhook verification yields `Verified(Event(type, id))`,
`InvalidPayload` or `InvalidSignature`. The bearer-token check is a boolean
`authorized`. A processor call that raises surfaces as
`ServerError(ProcessorFailed)`, the unhandled-exception response.

Where the design description and the code differ, the model follows the code:

- The design says a status only moves forward and `refunded` is terminal.
  The webhook guard in app/main.py:41 only tests `status != "paid"`, so a
  succeeded event turns a `refunded` row back into `paid`. After that, a
  refund of the same order reaches the processor a second time.
  `SucceededEventRevivesRefunded` and `LateSucceededEventAllowsSecondRefund`
  state this behaviour as written.
- The design says an insert conflict falls back to returning the existing row.
  The code does not catch the commit error. The only conflict a sequential run
  can reach is a processor id that is already a key (app/routes.py:32-33).
  That request ends in `ServerError(IntegrityConflict)`, with the table
  unchanged and the processor already called.
- The design gives `currency` a default of `"eur"` and requires `amount > 0`.
  app/routes.py has neither, so both are plain inputs.

## Model

| member | source | states |
|---|---|---|
| `Models.OrderKeyIsUnique` | app/models.py:8 | Under the unique constraint on `order_id`, a row carrying an order id is the one the lookup by that order id finds. |
| `Handlers.Create` | app/routes.py:9-36 | Unauthorized: 401, nothing changes. Known order: echoes the stored `id` and `status`, table unchanged, no processor call. New order: exactly one intent request with `order_id` as idempotency key. The response is `{client_secret}` exactly when the processor succeeds with a fresh id; then exactly one `created` row with the given amount and currency is added and no other row changes. A server error carries `IntegrityConflict` exactly when the processor succeeded with an id that is already a key, and `ProcessorFailed` otherwise. Any failure leaves the table unchanged and no row for the order. The unique constraints are kept. |
| `Handlers.Refund` | app/routes.py:38-51 | Unauthorized: 401, nothing changes. Unknown or already `refunded` order: "Nothing to refund", table unchanged, no processor call. Otherwise exactly one processor refund with the row's id. On success the row becomes `refunded` and `{status: "refunded"}` is returned; on processor failure the table is unchanged. No other row or field changes, and no row is added or removed. |
| `Handlers.Webhook` | app/main.py:21-46 | An invalid payload or signature gives 400 with its detail and leaves the table unchanged. Every verified event is acknowledged with `{ok: true}`. Only a succeeded event for a known row that is not `paid` changes anything: that row's status becomes `paid`. No processor call is made. |
| `Service.FindByOrder` | app/routes.py:18 | The scan finds a row exactly when some row carries the order id, and the row it returns is stored under its own id and carries that order id. |
| `Service.PaymentService.CreatePayment` | app/routes.py:9-36 | Updates the table in place and appends to the processor-call log exactly as `Handlers.Create` prescribes, keeping the table's constraints. |
| `Service.PaymentService.RefundPayment` | app/routes.py:38-51 | Updates the table in place and appends to the processor-call log exactly as `Handlers.Refund` prescribes, keeping the table's constraints. |
| `Service.PaymentService.StripeWebhook` | app/main.py:25-46 | Updates the table in place exactly as `Handlers.Webhook` prescribes, with no processor call. |
| `Properties.RepeatedCreateEchoesFirst` | app/routes.py:18-20 | After a successful create, a second create for the same order, with any amount, currency or processor outcome, returns the first intent's id with status `created`. It changes nothing and makes no call: one intent request in all. |
| `Properties.RefundTwice` | app/routes.py:42-47 | Refunding a `created` or `paid` order twice yields `refunded` and then "Nothing to refund", with exactly one processor refund, for the row's id. |
| `Properties.WebhookRedeliveryIsNoOp` | app/main.py:38-43 | Delivering the same webhook verification outcome a second time changes nothing and gives the same response. |
| `Properties.SucceededEventRevivesRefunded` | app/main.py:41-42 | A succeeded event for a `refunded` row sets it to `paid`: the guard is only "not yet paid". |
| `Properties.LateSucceededEventAllowsSecondRefund` | app/main.py:41-42 | A refunded order gets "Nothing to refund". After a succeeded event for its row, a refund of the same order calls the processor refund again. |
| `Properties.Apply` | app/routes.py:9-51 | Any single request keeps the table's constraints, deletes no row, changes no row's id, order id, amount or currency, and makes at most one processor call. An intent is requested only by a create, keyed by its order id, and only when that order has no row. |
| `Properties.Run` | app/models.py:7-8 | After any sequence of create, refund and webhook requests, there is at most one row per id and per order id. Every earlier row is still there with only its status possibly changed. There is one response per request, and there are no more processor calls in all than requests. |
| `Properties.NoIntentForKnownOrder` | app/routes.py:18-22 | Once an order has a row, no sequence of later requests asks the processor for an intent keyed by that order id. |
| `Properties.Lifecycle` | tests/test_integration.py:45-119 | The integration test's values: create `ORDER-INT-001` for 2500 `eur` (the processor gives `pi_integration_test_123`, `secret_test_456`), then a succeeded webhook for that intent and a refund. The responses are `{client_secret: secret_test_456}`, `{ok: true}` and `{status: "refunded"}`. A second refund, which the test does not make, gets "Nothing to refund" by the guard at app/routes.py:43-44. The table ends with one `refunded` row, and the processor sees one intent request and one refund. |

## Left out

- HTTP routing, header and dependency plumbing, and status-code mechanics: responses are the `Response` datatype.
- Database sessions, engine set-up and configuration loading (app/database.py): the table is an in-memory map, and a commit is the map update.
- The processor SDK (app/stripe_service.py) and webhook signature checking: their outcomes are inputs. The processor's own deduplication by idempotency key is not modelled; the model records the key it is given.
- Bearer-token verification (app/auth.py): it is a boolean input `authorized`.
- Concurrent requests and the race between the order lookup and the insert: requests are modelled one after another.
- String values of `status`: the column holds the strings `created`, `paid` and `refunded`; the model uses a three-valued datatype, so the status domain holds by construction.
- Integer width of `amount`: the column is a bounded SQL integer (app/models.py:9), 64-bit on SQLite and often 32-bit elsewhere; the model stores any `int`. An amount outside the column's range would make the commit at app/routes.py:33 raise after the processor was already called; that is reachable only if the processor accepts such an amount, and it is not modelled.
