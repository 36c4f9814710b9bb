/**
 * The payment record of the service and the table that stores it
 * (app/models.py). The table is keyed by the processor-assigned payment id,
 * which is the primary key; `order_id` carries a unique constraint.
 */
module Models {

  /** The three values the `status` column takes. */
  datatype Status = Created | Paid | Refunded

  /** One row of the `payments` table. */
  datatype Payment = Payment(
    id: string,        // payment intent id assigned by the processor
    orderId: string,   // caller's business key, unique
    amount: int,       // minor currency units, stored as given
    currency: string,
    status: Status)

  /** The table, from primary key to row. */
  type Table = map<string, Payment>

  /** Every row is stored under its own primary key. */
  ghost predicate KeyedById(t: Table)
  {
    forall k :: k in t ==> t[k].id == k
  }

  /** The unique constraint on `order_id`. */
  ghost predicate UniqueOrderIds(t: Table)
  {
    forall k1, k2 :: k1 in t && k2 in t && t[k1].orderId == t[k2].orderId ==> k1 == k2
  }

  /** The schema's constraints: primary key and unique `order_id`. */
  ghost predicate ValidTable(t: Table)
  {
    KeyedById(t) && UniqueOrderIds(t)
  }

  /** Some row carries this `order_id`. */
  ghost predicate HasOrder(t: Table, orderId: string)
  {
    exists k :: k in t && t[k].orderId == orderId
  }

  /** The key of the row that carries `orderId`. */
  ghost function OrderKey(t: Table, orderId: string): (k: string)
    requires HasOrder(t, orderId)
    ensures k in t && t[k].orderId == orderId
  {
    var k :| k in t && t[k].orderId == orderId; k
  }

  /** Under the unique constraint, the row found by `order_id` is the only one. */
  lemma OrderKeyIsUnique(t: Table, orderId: string, k: string)
    requires UniqueOrderIds(t)
    requires k in t && t[k].orderId == orderId
    ensures HasOrder(t, orderId) && OrderKey(t, orderId) == k
  {
  }
}
