/** "Revise Pending Order" (Application/Pages/3_Order.py:270-407): on one
    order, an optional INSERT of a new item, then an optional UPDATE of an
    item's quantity, then an optional DELETE of an item, committed together or
    not at all. Drugs are chosen from dropdowns whose first entry is "None". */
module ReviseOrder {
  import opened Wrappers
  import opened Labels
  import opened Store

  /** Unit cost, in cents, of a drug added during a revision. */
  const AddedUnitCost: int := 200

  /** The revision form as submitted: three dropdown values and two quantities. */
  datatype Form = Form(addChoice: string, addQty: int, updateChoice: string, updateQty: int, deleteChoice: string)

  predicate AddRequested(f: Form) {
    f.addChoice != NoneChoice && f.addQty > 0
  }

  predicate UpdateRequested(f: Form) {
    f.updateChoice != NoneChoice && f.updateQty > 0
  }

  predicate DeleteRequested(f: Form) {
    f.deleteChoice != NoneChoice
  }

  /** ACTION 1 (lines 350-356). */
  function AddStep(w: Db, order: int, f: Form): (r: Result<Db>)
    ensures r.Ok? <==> (AddRequested(f) ==>
              && ParseLabel(f.addChoice).Some?
              && InsertItem(w, ItemKey(order, ParseLabel(f.addChoice).value), Item(f.addQty, AddedUnitCost)).Ok?)
    ensures r.Ok? ==> r.value == if AddRequested(f)
                                 then w.(items := w.items[ItemKey(order, ParseLabel(f.addChoice).value) :=
                                                          Item(f.addQty, AddedUnitCost)])
                                 else w
  {
    if AddRequested(f) then
      var drug :- ParseChoice(Some(f.addChoice));
      InsertItem(w, ItemKey(order, drug), Item(f.addQty, AddedUnitCost))
    else Ok(w)
  }

  /** ACTION 2 (lines 359-365). */
  function UpdateStep(w: Db, order: int, f: Form): (r: Result<Db>)
    ensures r.Ok? <==> (UpdateRequested(f) ==> ParseLabel(f.updateChoice).Some?)
    ensures r.Ok? ==> r.value == if UpdateRequested(f)
                                 then UpdateItemQty(w, ItemKey(order, ParseLabel(f.updateChoice).value), f.updateQty)
                                 else w
  {
    if UpdateRequested(f) then
      var drug :- ParseChoice(Some(f.updateChoice));
      Ok(UpdateItemQty(w, ItemKey(order, drug), f.updateQty))
    else Ok(w)
  }

  /** ACTION 3 (lines 368-373). */
  function DeleteStep(w: Db, order: int, f: Form): (r: Result<Db>)
    ensures r.Ok? <==> (DeleteRequested(f) ==> ParseLabel(f.deleteChoice).Some?)
    ensures r.Ok? ==> r.value == if DeleteRequested(f)
                                 then DeleteItem(w, ItemKey(order, ParseLabel(f.deleteChoice).value))
                                 else w
  {
    if DeleteRequested(f) then
      var drug :- ParseChoice(Some(f.deleteChoice));
      Ok(DeleteItem(w, ItemKey(order, drug)))
    else Ok(w)
  }

  /** The revision commits exactly when every requested choice parses and the
      added drug is a catalogued drug not yet in this existing order. */
  predicate CanRevise(db: Db, order: int, f: Form) {
    && (AddRequested(f) ==>
          && ParseLabel(f.addChoice).Some?
          && ItemKey(order, ParseLabel(f.addChoice).value) !in db.items
          && order in db.orders
          && ParseLabel(f.addChoice).value in db.drugs)
    && (UpdateRequested(f) ==> ParseLabel(f.updateChoice).Some?)
    && (DeleteRequested(f) ==> ParseLabel(f.deleteChoice).Some?)
  }

  /** The row that ends up under `key`, described per key rather than per
      statement: rows of other orders keep their value; the deleted drug is
      gone; the added drug holds its quantity at the fixed cost; the updated
      drug, if it has a row by then, takes the new quantity. */
  function Expected(items: map<ItemKey, Item>, order: int, f: Form, key: ItemKey): Option<Item>
    requires AddRequested(f) ==> ParseLabel(f.addChoice).Some?
    requires UpdateRequested(f) ==> ParseLabel(f.updateChoice).Some?
    requires DeleteRequested(f) ==> ParseLabel(f.deleteChoice).Some?
  {
    if key.order != order then Lookup(items, key)
    else if DeleteRequested(f) && key.drug == ParseLabel(f.deleteChoice).value then None
    else
      var base := if AddRequested(f) && key.drug == ParseLabel(f.addChoice).value
                  then Some(Item(f.addQty, AddedUnitCost))
                  else Lookup(items, key);
      if UpdateRequested(f) && key.drug == ParseLabel(f.updateChoice).value && base.Some?
      then Some(base.value.(qty := f.updateQty))
      else base
  }

  /** The revision transaction (lines 347-376, rolled back at 403). */
  function Revise(db: Db, order: int, f: Form): (r: Result<Db>)
    ensures r.Ok? <==> CanRevise(db, order, f)
    ensures r.Ok? ==> r.value.suppliers == db.suppliers && r.value.drugs == db.drugs && r.value.orders == db.orders
    ensures r.Ok? ==> forall key :: Lookup(r.value.items, key) == Expected(db.items, order, f, key)
  {
    var w1 :- AddStep(db, order, f);
    var w2 :- UpdateStep(w1, order, f);
    DeleteStep(w2, order, f)
  }

  /** A committed revision leaves every header, and every item of every other
      order, exactly as it was. */
  lemma ReviseTouchesOnlyItsOrder(db: Db, order: int, f: Form, key: ItemKey)
    requires Revise(db, order, f).Ok?
    requires key.order != order
    ensures Revise(db, order, f).value.orders == db.orders
    ensures key in Revise(db, order, f).value.items <==> key in db.items
    ensures key in db.items ==> Revise(db, order, f).value.items[key] == db.items[key]
  {
  }

  /** The DELETE runs last: a drug chosen for deletion is absent afterwards,
      even when the same drug was also added or updated. */
  lemma ReviseDeleteWins(db: Db, order: int, f: Form)
    requires Revise(db, order, f).Ok?
    requires DeleteRequested(f)
    ensures ParseLabel(f.deleteChoice).Some?
    ensures ItemKey(order, ParseLabel(f.deleteChoice).value) !in Revise(db, order, f).value.items
  {
  }

  /** An added drug that is not also deleted has a row at the fixed unit cost,
      holding the added quantity, or the updated one when the UPDATE names the
      same drug. */
  lemma ReviseAddsRow(db: Db, order: int, f: Form)
    requires Revise(db, order, f).Ok?
    requires AddRequested(f)
    requires DeleteRequested(f) ==> ParseLabel(f.deleteChoice) != ParseLabel(f.addChoice)
    ensures ParseLabel(f.addChoice).Some?
    ensures var key := ItemKey(order, ParseLabel(f.addChoice).value);
      && key !in db.items
      && key in Revise(db, order, f).value.items
      && Revise(db, order, f).value.items[key].unitCost == AddedUnitCost
      && Revise(db, order, f).value.items[key].qty ==
           (if UpdateRequested(f) && ParseLabel(f.updateChoice) == ParseLabel(f.addChoice) then f.updateQty else f.addQty)
  {
  }

  /** An updated drug that is neither added nor deleted keeps its unit cost
      and takes the new quantity; an UPDATE of a drug the order does not hold adds
      nothing. */
  lemma ReviseUpdatesRow(db: Db, order: int, f: Form)
    requires Revise(db, order, f).Ok?
    requires UpdateRequested(f)
    requires AddRequested(f) ==> ParseLabel(f.addChoice) != ParseLabel(f.updateChoice)
    requires DeleteRequested(f) ==> ParseLabel(f.deleteChoice) != ParseLabel(f.updateChoice)
    ensures ParseLabel(f.updateChoice).Some?
    ensures var key := ItemKey(order, ParseLabel(f.updateChoice).value);
      && (key in Revise(db, order, f).value.items <==> key in db.items)
      && (key in db.items ==> Revise(db, order, f).value.items[key] == db.items[key].(qty := f.updateQty))
  {
  }

  /** A quantity of zero switches a step off: the form behaves as if "None"
      had been chosen for it. */
  lemma ZeroQuantityIsNoStep(db: Db, order: int, f: Form)
    ensures f.addQty <= 0 ==> Revise(db, order, f) == Revise(db, order, f.(addChoice := NoneChoice))
    ensures f.updateQty <= 0 ==> Revise(db, order, f) == Revise(db, order, f.(updateChoice := NoneChoice))
  {
  }

  /** All or nothing: adding a drug the order already holds rolls back the
      UPDATE and DELETE submitted with it. */
  lemma ReviseRejectsDuplicateAdd(db: Db, order: int, f: Form)
    requires AddRequested(f) && ParseLabel(f.addChoice).Some?
    requires ItemKey(order, ParseLabel(f.addChoice).value) in db.items
    ensures Revise(db, order, f) == Err(DuplicateItem(ItemKey(order, ParseLabel(f.addChoice).value)))
    ensures Settle(db, Revise(db, order, f)) == db
  {
  }

  /** A committed revision keeps the database valid. */
  lemma RevisePreservesValid(db: Db, order: int, f: Form)
    requires Valid(db)
    ensures Valid(Settle(db, Revise(db, order, f)))
  {
  }

  /** Choices the page formatted from (id, name) rows act on those ids. */
  lemma ReviseFormattedChoices(db: Db, order: int, addId: int, addName: string, addQty: int,
                               updId: int, updName: string, updQty: int, delId: int, delName: string)
    requires Revise(db, order, Form(FormatLabel(addId, addName), addQty, FormatLabel(updId, updName), updQty,
                                    FormatLabel(delId, delName))).Ok?
    ensures var after := Revise(db, order, Form(FormatLabel(addId, addName), addQty, FormatLabel(updId, updName),
                                                updQty, FormatLabel(delId, delName))).value;
      && ItemKey(order, delId) !in after.items
      && (addQty > 0 && addId != delId ==> ItemKey(order, addId) in after.items)
  {
    LabelRoundTrip(addId, addName);
    LabelRoundTrip(updId, updName);
    LabelRoundTrip(delId, delName);
    NoneChoiceIsNotALabel(addId, addName);
    NoneChoiceIsNotALabel(updId, updName);
    NoneChoiceIsNotALabel(delId, delName);
    var f := Form(FormatLabel(addId, addName), addQty, FormatLabel(updId, updName), updQty, FormatLabel(delId, delName));
    var after := Revise(db, order, f).value;
    assert Lookup(after.items, ItemKey(order, delId)) == Expected(db.items, order, f, ItemKey(order, delId));
    assert Lookup(after.items, ItemKey(order, addId)) == Expected(db.items, order, f, ItemKey(order, addId));
  }
}
