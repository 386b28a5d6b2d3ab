/** "Cancel Order" (Application/Pages/3_Order.py:409-457): a single UPDATE that
    sets an order's status to CANCELLED. The statement itself has no status
    guard; only the dropdown restricts the choice to PENDING orders. */
module CancelOrder {
  import opened Store

  /** The cancel transaction (lines 435-444). No constraint of the model can
      reject it, so it always commits; an unknown id updates no row. */
  function Cancel(db: Db, order: int): (r: Db)
    ensures r.suppliers == db.suppliers && r.drugs == db.drugs && r.items == db.items
    ensures r.orders.Keys == db.orders.Keys
    ensures order in db.orders ==> r.orders[order] == db.orders[order].(status := Cancelled)
    ensures forall id :: id in db.orders && id != order ==> r.orders[id] == db.orders[id]
  {
    SetStatus(db, order, Cancelled)
  }

  /** Cancelling twice is the same as cancelling once. */
  lemma CancelIdempotent(db: Db, order: int)
    ensures Cancel(Cancel(db, order), order) == Cancel(db, order)
  {
  }

  /** Cancelling keeps the database valid. */
  lemma CancelPreservesValid(db: Db, order: int)
    requires Valid(db)
    ensures Valid(Cancel(db, order))
  {
  }
}
