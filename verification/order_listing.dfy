/** The status-filtered order lists: "Order History & Status" (lines 222-253)
    and the PENDING-only dropdowns of the revise and cancel tabs (lines 284
    and 421). Each returns the matching order ids, newest (highest) first. */
module OrderListing {
  import opened Store
  import CreateOrder
  import ReviseOrder
  import CancelOrder

  /** The radio buttons of line 224: every order, or one status. */
  datatype StatusFilter = AllOrders | Only(status: Status)

  predicate Matches(h: Header, filter: StatusFilter) {
    filter.AllOrders? || h.status == filter.status
  }

  /** The orders a status filter selects. */
  function Selected(db: Db, filter: StatusFilter): set<int> {
    set id | id in db.orders && Matches(db.orders[id], filter)
  }

  predicate StrictlyDescending(ids: seq<int>) {
    forall i, j :: 0 <= i < j < |ids| ==> ids[i] > ids[j]
  }

  /** Every finite non-empty set of ids has a largest one. */
  lemma {:induction false} Largest(s: set<int>) returns (m: int)
    requires s != {}
    ensures m in s && forall y :: y in s ==> y <= m
  {
    // Stating the empty case explicitly hands the solver the witness that
    // the choice `x :| x in s` below needs.
    if forall y :: y !in s {
      assert false;
    }
    var x :| x in s;
    if s == {x} {
      m := x;
    } else {
      var below := Largest(s - {x});
      m := if x > below then x else below;
      assert forall y :: y in s ==> y == x || y in s - {x};
    }
  }

  /** The rows the history query keeps: `FROM PURCHASE_ORDER po JOIN SUPPLIER
      s ON po.Supplier_ID = s.Supplier_ID`, so an order whose supplier is not
      catalogued drops out, then `WHERE po.Status = <filter>`. */
  function History(db: Db, filter: StatusFilter): set<int> {
    set id | id in db.orders && db.orders[id].supplier in db.suppliers && Matches(db.orders[id], filter)
  }

  /** `ORDER BY ... DESC` on a set of ids: each once, highest first. */
  method SortDescending(s: set<int>) returns (ids: seq<int>)
    ensures StrictlyDescending(ids)
    ensures forall id :: id in ids <==> id in s
  {
    var rest := s;
    ids := [];
    while rest != {}
      invariant rest <= s
      invariant StrictlyDescending(ids)
      invariant forall id :: id in ids <==> id in s && id !in rest
      invariant forall i, y :: 0 <= i < |ids| && y in rest ==> y < ids[i]
      decreases rest
    {
      ghost var top := Largest(rest);
      var m :| m in rest && forall y :: y in rest ==> y <= m;
      ids := ids + [m];
      rest := rest - {m};
    }
  }

  /** The "Order History & Status" table: the matching orders that have a
      catalogued supplier, each once, newest (highest id) first. */
  method OrderHistory(db: Db, filter: StatusFilter) returns (ids: seq<int>)
    ensures StrictlyDescending(ids)
    ensures forall id :: id in ids <==>
              id in db.orders && db.orders[id].supplier in db.suppliers && Matches(db.orders[id], filter)
  {
    ids := SortDescending(History(db, filter));
  }

  /** Under the assumed supplier foreign key the JOIN drops nothing: the
      history shows every order the status filter selects. */
  lemma HistoryOfValidDb(db: Db, filter: StatusFilter)
    requires Valid(db)
    ensures History(db, filter) == Selected(db, filter)
  {
    forall id | id in Selected(db, filter)
      ensures id in History(db, filter)
    {
      assert db.orders[id].supplier in db.suppliers;
    }
  }

  /** Without that key an order naming an uncatalogued supplier exists but is
      missing from the history. */
  lemma HistoryHidesUnknownSupplier(db: Db, id: int, filter: StatusFilter)
    requires id in db.orders && db.orders[id].supplier !in db.suppliers
    ensures id in Selected(db, AllOrders) && id !in History(db, filter)
  {
  }

  /** The PENDING dropdown of the revise and cancel tabs (no JOIN there). */
  method PendingOrders(db: Db) returns (ids: seq<int>)
    ensures StrictlyDescending(ids)
    ensures forall id :: id in ids <==> id in db.orders && db.orders[id].status == Pending
  {
    ids := SortDescending(Selected(db, Only(Pending)));
  }

  /** A committed create makes the new order appear in the PENDING list and
      in no other status list. */
  lemma CreateJoinsPending(db: Db, today: int, req: CreateOrder.Request, s: Status)
    requires |req.lines| == |CreateOrder.SlotCosts|
    requires CreateOrder.Create(db, today, req).Ok?
    ensures Selected(CreateOrder.Create(db, today, req).value, Only(s)) ==
            if s == Pending then Selected(db, Only(s)) + {req.order} else Selected(db, Only(s))
  {
  }

  /** Cancelling moves the order from whatever list it was in to the
      CANCELLED list and leaves the other orders where they were. */
  lemma CancelMovesToCancelled(db: Db, order: int, s: Status)
    requires order in db.orders
    ensures Selected(CancelOrder.Cancel(db, order), Only(s)) ==
            if s == Cancelled then Selected(db, Only(s)) + {order} else Selected(db, Only(s)) - {order}
  {
  }

  /** A revision changes no status, so no list. */
  lemma ReviseKeepsLists(db: Db, order: int, f: ReviseOrder.Form, filter: StatusFilter)
    requires ReviseOrder.Revise(db, order, f).Ok?
    ensures Selected(ReviseOrder.Revise(db, order, f).value, filter) == Selected(db, filter)
  {
  }
}
