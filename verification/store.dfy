/** The two purchase-order tables and the SQL statements the order page runs
    against them.

    The schema is not part of the repository; the keys below are the ones the
    page relies on: the order id is the primary key of PURCHASE_ORDER (a reused
    id is expected to fail, Application/Pages/3_Order.py:207-208), and an item
    is addressed by the pair (order id, drug id), stored in the columns
    Product_id and Drug_id (lines 151, 364, 372, 388). Dates are day numbers
    and money is integer cents. */
module Store {
  import opened Wrappers
  import opened Labels

  datatype Status = Pending | Fulfilled | Cancelled

  /** One PURCHASE_ORDER row. */
  datatype Header = Header(supplier: int, orderDate: int, expectedDelivery: int, status: Status)

  /** Primary key of PURCHASE_ORDER_ITEM: (Product_id, Drug_id). */
  datatype ItemKey = ItemKey(order: int, drug: int)

  /** One PURCHASE_ORDER_ITEM row, minus its key; unit cost in cents. */
  datatype Item = Item(qty: int, unitCost: int)

  /** The database as the order page sees it: the supplier and drug catalogues
      (read only here) and the two order tables. */
  datatype Db = Db(
    suppliers: set<int>,
    drugs: set<int>,
    orders: map<int, Header>,
    items: map<ItemKey, Item>)

  /** Why a statement, or the parsing that precedes it, raised. */
  datatype DbError =
    | DeliveryBeforeOrder(order: int)   // check constraint Expected_delivery_date >= Order_date
    | DuplicateOrder(order: int)        // primary key of PURCHASE_ORDER
    | DuplicateItem(key: ItemKey)       // primary key of PURCHASE_ORDER_ITEM
    | UnknownSupplier(supplier: int)    // foreign key to SUPPLIER
    | UnknownOrder(order: int)          // foreign key to PURCHASE_ORDER
    | UnknownDrug(drug: int)            // foreign key to DRUG_CATALOGUE
    | UnparsableChoice(text: string)    // int() on the label's id part raised
    | NothingToChoose                   // a dropdown without options yields None

  /** Outcome of a statement or of a whole transaction. An error carries no
      database: the transaction is rolled back and the caller keeps the state
      it had before BEGIN. */
  datatype Result<+T> = Ok(value: T) | Err(error: DbError) {

    predicate IsFailure() {
      Err?
    }

    function PropagateFailure<U>(): Result<U>
      requires Err?
    {
      Err(error)
    }

    function Extract(): T
      requires Ok?
    {
      value
    }
  }

  /** The row stored under `key`, if any. */
  function Lookup(items: map<ItemKey, Item>, key: ItemKey): Option<Item> {
    if key in items then Some(items[key]) else None
  }

  /** The database after the transaction: the committed state, or the state
      before it when it rolled back. */
  function Settle(before: Db, r: Result<Db>): Db {
    match r
    case Ok(after) => after
    case Err(_) => before
  }

  /** The constraints the schema is assumed to enforce: every item belongs to
      an existing order and names a catalogued drug, every order names a
      catalogued supplier and is not due before it was placed. */
  predicate Valid(db: Db) {
    && (forall k :: k in db.items ==> k.order in db.orders && k.drug in db.drugs)
    && (forall id :: id in db.orders ==>
          db.orders[id].supplier in db.suppliers && db.orders[id].orderDate <= db.orders[id].expectedDelivery)
  }

  /** `int(choice.split(" - ")[0])` on a dropdown value, where `None` is what
      an empty dropdown returns. */
  function ParseChoice(choice: Option<string>): (r: Result<int>)
    ensures r.Ok? <==> choice.Some? && ParseLabel(choice.value).Some?
    ensures r.Ok? ==> r.value == ParseLabel(choice.value).value
  {
    match choice
    case None => Err(NothingToChoose)
    case Some(text) =>
      match ParseLabel(text)
      case Some(id) => Ok(id)
      case None => Err(UnparsableChoice(text))
  }

  /** INSERT INTO PURCHASE_ORDER. The check constraint is evaluated first, then
      the primary key, then the foreign key, as PostgreSQL does. */
  function InsertOrder(db: Db, id: int, h: Header): (r: Result<Db>)
    ensures r.Ok? <==> h.orderDate <= h.expectedDelivery && id !in db.orders && h.supplier in db.suppliers
    ensures r.Ok? ==> r.value == db.(orders := db.orders[id := h])
  {
    if h.expectedDelivery < h.orderDate then Err(DeliveryBeforeOrder(id))
    else if id in db.orders then Err(DuplicateOrder(id))
    else if h.supplier !in db.suppliers then Err(UnknownSupplier(h.supplier))
    else Ok(db.(orders := db.orders[id := h]))
  }

  /** INSERT INTO PURCHASE_ORDER_ITEM. */
  function InsertItem(db: Db, key: ItemKey, item: Item): (r: Result<Db>)
    ensures r.Ok? <==> key !in db.items && key.order in db.orders && key.drug in db.drugs
    ensures r.Ok? ==> r.value == db.(items := db.items[key := item])
  {
    if key in db.items then Err(DuplicateItem(key))
    else if key.order !in db.orders then Err(UnknownOrder(key.order))
    else if key.drug !in db.drugs then Err(UnknownDrug(key.drug))
    else Ok(db.(items := db.items[key := item]))
  }

  /** UPDATE PURCHASE_ORDER_ITEM SET Qty_ordered ... WHERE both key columns
      match: no row matching is not an error. */
  function UpdateItemQty(db: Db, key: ItemKey, qty: int): Db {
    if key in db.items then db.(items := db.items[key := db.items[key].(qty := qty)]) else db
  }

  /** DELETE FROM PURCHASE_ORDER_ITEM WHERE both key columns match. */
  function DeleteItem(db: Db, key: ItemKey): Db {
    db.(items := db.items - {key})
  }

  /** UPDATE PURCHASE_ORDER SET Status ... WHERE Order_id matches. */
  function SetStatus(db: Db, id: int, status: Status): Db {
    if id in db.orders then db.(orders := db.orders[id := db.orders[id].(status := status)]) else db
  }
}
