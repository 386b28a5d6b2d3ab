/** "Create New Order" (Application/Pages/3_Order.py:27-212): one header with
    status PENDING, due five days after today, then one item per drug slot
    whose quantity is positive, all inside one transaction. */
module CreateOrder {
  import opened Wrappers
  import opened Labels
  import opened Store

  /** Days between the order date and the expected delivery date. */
  const DeliveryLeadDays: int := 5

  /** Unit cost, in cents, written for each of the three drug slots. */
  const SlotCosts: seq<int> := [190, 80, 250]

  /** One drug slot of the form: the chosen drug id and its quantity. */
  datatype Line = Line(drug: int, qty: int)

  /** The parsed form: new order id, supplier id and the three slots. */
  datatype Request = Request(order: int, supplier: int, lines: seq<Line>)

  /** The raw form: dropdown values (None when a dropdown had no options)
      and the three quantities. */
  datatype Form = Form(order: int, supplierChoice: Option<string>, drugChoices: seq<Option<string>>, qtys: seq<int>)

  /** The dropdown position pre-selected for each drug slot: slot k starts on
      the k-th drug when there is one and on the first drug otherwise. */
  function SafeIndices(n: nat): (r: seq<nat>)
    ensures |r| == |SlotCosts|
    ensures n > 0 ==> forall k :: 0 <= k < |r| ==> r[k] < n
    ensures forall k :: 0 <= k < |r| ==> r[k] == (if k < n then k else 0)
  {
    [0, if n > 1 then 1 else 0, if n > 2 then 2 else 0]
  }

  /** What each drug dropdown initially shows: None for an empty list, as a
      Streamlit selectbox without options does. */
  function DefaultChoices(options: seq<string>): (r: seq<Option<string>>)
    ensures |r| == |SlotCosts|
    ensures options == [] ==> forall k :: 0 <= k < |r| ==> r[k] == None
    ensures options != [] ==> forall k :: 0 <= k < |r| ==> r[k].Some? && r[k].value in options
    ensures forall k :: 0 <= k < |r| && k < |options| ==> r[k] == Some(options[k])
    ensures options != [] ==> forall k :: |options| <= k < |r| ==> r[k] == Some(options[0])
  {
    var ix := SafeIndices(|options|);
    if options == [] then [None, None, None]
    else [Some(options[ix[0]]), Some(options[ix[1]]), Some(options[ix[2]])]
  }

  /** Some slot at position `k` or later orders drug `d`. */
  ghost predicate Orders(lines: seq<Line>, k: nat, d: int) {
    exists j :: k <= j < |lines| && lines[j].qty > 0 && lines[j].drug == d
  }

  /** Every slot from `k` on with a positive quantity names a catalogued drug
      that the order does not hold yet and that no earlier such slot names. */
  predicate LinesInsertable(w: Db, order: int, lines: seq<Line>, k: nat) {
    forall j :: k <= j < |lines| && lines[j].qty > 0 ==>
      && lines[j].drug in w.drugs
      && ItemKey(order, lines[j].drug) !in w.items
      && forall i :: k <= i < j && lines[i].qty > 0 ==> lines[i].drug != lines[j].drug
  }

  /** The conditional item INSERTs (lines 149-165), from slot `k` on. */
  function InsertLines(w: Db, order: int, lines: seq<Line>, k: nat): (r: Result<Db>)
    requires |lines| <= |SlotCosts| && k <= |lines|
    requires order in w.orders
    decreases |lines| - k
    ensures r.Ok? <==> LinesInsertable(w, order, lines, k)
    ensures r.Ok? ==> r.value.suppliers == w.suppliers && r.value.drugs == w.drugs && r.value.orders == w.orders
    ensures r.Ok? ==> forall key :: key in r.value.items <==>
                        key in w.items || (key.order == order && Orders(lines, k, key.drug))
    ensures r.Ok? ==> forall key :: key in w.items ==> r.value.items[key] == w.items[key]
    ensures r.Ok? ==> forall j :: k <= j < |lines| && lines[j].qty > 0 ==>
                        && ItemKey(order, lines[j].drug) in r.value.items
                        && r.value.items[ItemKey(order, lines[j].drug)] == Item(lines[j].qty, SlotCosts[j])
  {
    if k == |lines| then Ok(w)
    else if lines[k].qty > 0 then
      var w' :- InsertItem(w, ItemKey(order, lines[k].drug), Item(lines[k].qty, SlotCosts[k]));
      var r := InsertLines(w', order, lines, k + 1);
      assert r.Ok? ==> forall key :: key in r.value.items ==>
                         key in w.items || (key.order == order && Orders(lines, k, key.drug));
      r
    else
      InsertLines(w, order, lines, k + 1)
  }

  /** The transaction succeeds exactly when the id is new, the supplier is
      catalogued and the slot INSERTs fit. */
  predicate CanCreate(db: Db, req: Request) {
    && req.order !in db.orders
    && req.supplier in db.suppliers
    && LinesInsertable(db, req.order, req.lines, 0)
  }

  /** The header this transaction writes (lines 141-144). */
  function NewHeader(today: int, req: Request): Header {
    Header(req.supplier, today, today + DeliveryLeadDays, Pending)
  }

  /** The create-order transaction (lines 136-169, rolled back at 211). */
  function Create(db: Db, today: int, req: Request): (r: Result<Db>)
    requires |req.lines| == |SlotCosts|
    ensures r.Ok? <==> CanCreate(db, req)
    ensures r.Ok? ==> r.value.suppliers == db.suppliers && r.value.drugs == db.drugs
    ensures r.Ok? ==> r.value.orders == db.orders[req.order := NewHeader(today, req)]
    ensures r.Ok? ==> forall key :: key in r.value.items <==>
                        key in db.items || (key.order == req.order && Orders(req.lines, 0, key.drug))
    ensures r.Ok? ==> forall key :: key in db.items ==> r.value.items[key] == db.items[key]
    ensures r.Ok? ==> forall j :: 0 <= j < |req.lines| && req.lines[j].qty > 0 ==>
                        && ItemKey(req.order, req.lines[j].drug) in r.value.items
                        && r.value.items[ItemKey(req.order, req.lines[j].drug)] == Item(req.lines[j].qty, SlotCosts[j])
  {
    var w :- InsertOrder(db, req.order, NewHeader(today, req));
    InsertLines(w, req.order, req.lines, 0)
  }

  /** Parse the four dropdown values (lines 122-125, before the transaction
      starts, and for every slot whatever its quantity), then create. */
  function Submit(db: Db, today: int, form: Form): (r: Result<Db>)
    requires |form.drugChoices| == |SlotCosts| && |form.qtys| == |SlotCosts|
    ensures r.Ok? ==> form.supplierChoice.Some? && forall k :: 0 <= k < |form.drugChoices| ==> form.drugChoices[k].Some?
  {
    var supplier :- ParseChoice(form.supplierChoice);
    var d0 :- ParseChoice(form.drugChoices[0]);
    var d1 :- ParseChoice(form.drugChoices[1]);
    var d2 :- ParseChoice(form.drugChoices[2]);
    Create(db, today, Request(form.order, supplier,
                              [Line(d0, form.qtys[0]), Line(d1, form.qtys[1]), Line(d2, form.qtys[2])]))
  }

  /** A successful create adds exactly one order: the new id, PENDING, placed
      today and due five days later, so never due before it was placed. */
  lemma CreateAddsOnePendingHeader(db: Db, today: int, req: Request)
    requires |req.lines| == |SlotCosts|
    requires Create(db, today, req).Ok?
    ensures var after := Create(db, today, req).value;
      && req.order !in db.orders
      && after.orders.Keys == db.orders.Keys + {req.order}
      && |after.orders| == |db.orders| + 1
      && after.orders[req.order].status == Pending
      && after.orders[req.order].supplier == req.supplier
      && after.orders[req.order].orderDate == today
      && after.orders[req.order].expectedDelivery == today + 5
      && after.orders[req.order].orderDate <= after.orders[req.order].expectedDelivery
      && forall id :: id in db.orders ==> after.orders[id] == db.orders[id]
  {
  }

  /** In a valid database a new order holds no items, so after a successful
      create its rows are exactly the drugs of the slots with a positive
      quantity. */
  lemma CreateRowsOfNewOrder(db: Db, today: int, req: Request, d: int)
    requires Valid(db) && |req.lines| == |SlotCosts|
    requires Create(db, today, req).Ok?
    ensures ItemKey(req.order, d) in Create(db, today, req).value.items <==>
            exists j :: 0 <= j < |req.lines| && req.lines[j].qty > 0 && req.lines[j].drug == d
  {
  }

  /** When the three slots name different drugs, slot k has a row exactly when
      its quantity is positive, and that row carries the slot's unit cost.
      Slot 1, whose form minimum is 1, therefore always has a row at 1.90. */
  lemma CreateSlotRows(db: Db, today: int, req: Request)
    requires Valid(db) && |req.lines| == |SlotCosts|
    requires forall i, j :: 0 <= i < j < |req.lines| ==> req.lines[i].drug != req.lines[j].drug
    requires Create(db, today, req).Ok?
    ensures forall k :: 0 <= k < |req.lines| ==>
              (ItemKey(req.order, req.lines[k].drug) in Create(db, today, req).value.items <==> req.lines[k].qty > 0)
    ensures forall k :: 0 <= k < |req.lines| && req.lines[k].qty > 0 ==>
              Create(db, today, req).value.items[ItemKey(req.order, req.lines[k].drug)] == Item(req.lines[k].qty, SlotCosts[k])
  {
  }

  /** In a valid database the transaction fails exactly when the id is taken,
      the supplier is unknown, a chosen drug is unknown, or two slots with a
      positive quantity name the same drug (a duplicate item key). */
  lemma CreateSucceedsIff(db: Db, today: int, req: Request)
    requires Valid(db) && |req.lines| == |SlotCosts|
    ensures Create(db, today, req).Ok? <==>
      && req.order !in db.orders
      && req.supplier in db.suppliers
      && (forall j :: 0 <= j < |req.lines| && req.lines[j].qty > 0 ==> req.lines[j].drug in db.drugs)
      && (forall i, j :: 0 <= i < j < |req.lines| && req.lines[i].qty > 0 && req.lines[j].qty > 0 ==>
            req.lines[i].drug != req.lines[j].drug)
  {
  }

  /** Reusing an order id fails and nothing is left behind: neither a header
      nor any item (lines 204-211). */
  lemma CreateRejectsTakenId(db: Db, today: int, req: Request)
    requires |req.lines| == |SlotCosts|
    requires req.order in db.orders
    ensures Create(db, today, req) == Err(DuplicateOrder(req.order))
    ensures Settle(db, Create(db, today, req)) == db
  {
  }

  /** The same drug in two slots with a positive quantity makes the second
      item INSERT fail, even when the header INSERT before it succeeded, and
      the whole create is rejected. */
  lemma CreateRejectsRepeatedDrug(db: Db, today: int, req: Request, i: nat, j: nat)
    requires |req.lines| == |SlotCosts|
    requires i < j < |req.lines| && req.lines[i].qty > 0 && req.lines[j].qty > 0
    requires req.lines[i].drug == req.lines[j].drug
    ensures Create(db, today, req).Err?
    ensures req.order !in db.orders && req.supplier in db.suppliers ==>
              InsertOrder(db, req.order, NewHeader(today, req)).Ok?
  {
  }

  /** A committed create keeps the database valid. */
  lemma CreatePreservesValid(db: Db, today: int, req: Request)
    requires Valid(db) && |req.lines| == |SlotCosts|
    ensures Valid(Settle(db, Create(db, today, req)))
  {
  }

  /** With a one-drug catalogue every slot starts on that drug, so the form
      submitted with its default quantities (100, 250, 0; lines 91, 98 and 105)
      asks for the same drug twice and is always rejected, whatever the order
      id and supplier. */
  lemma DefaultFormWithOneDrugFails(db: Db, today: int, order: int, supplierChoice: Option<string>,
                                    drug: int, name: string)
    ensures var form := Form(order, supplierChoice, DefaultChoices([FormatLabel(drug, name)]), [100, 250, 0]);
      && form.drugChoices == [Some(FormatLabel(drug, name)), Some(FormatLabel(drug, name)), Some(FormatLabel(drug, name))]
      && Submit(db, today, form).Err?
  {
    LabelRoundTrip(drug, name);
    var form := Form(order, supplierChoice, DefaultChoices([FormatLabel(drug, name)]), [100, 250, 0]);
    if Submit(db, today, form).Ok? {
      var supplier := ParseChoice(supplierChoice).value;
      var req := Request(order, supplier, [Line(drug, 100), Line(drug, 250), Line(drug, 0)]);
      assert Submit(db, today, form) == Create(db, today, req);
      CreateRejectsRepeatedDrug(db, today, req, 0, 1);
    }
  }

  /** With exactly two drugs slot 3 starts on slot 1's drug, so giving it a
      positive quantity without choosing another drug repeats slot 1's drug
      and the create is rejected, whatever slot 2 holds. */
  lemma TwoDrugsThirdSlotRepeatsFirst(db: Db, today: int, order: int, supplierChoice: Option<string>,
                                      first: string, second: string, qtys: seq<int>)
    requires |qtys| == |SlotCosts| && qtys[0] > 0 && qtys[2] > 0
    ensures DefaultChoices([first, second])[2] == DefaultChoices([first, second])[0]
    ensures Submit(db, today, Form(order, supplierChoice, DefaultChoices([first, second]), qtys)).Err?
  {
    var form := Form(order, supplierChoice, DefaultChoices([first, second]), qtys);
    if Submit(db, today, form).Ok? {
      var req := Request(order, ParseChoice(supplierChoice).value,
                         [Line(ParseChoice(Some(first)).value, qtys[0]),
                          Line(ParseChoice(Some(second)).value, qtys[1]),
                          Line(ParseChoice(Some(first)).value, qtys[2])]);
      assert Submit(db, today, form) == Create(db, today, req);
      CreateRejectsRepeatedDrug(db, today, req, 0, 2);
    }
  }

  /** Submitting dropdown values the page formatted creates the order for the
      ids they were formatted from, whatever the display names. */
  lemma SubmitFormattedChoices(db: Db, today: int, order: int, supplier: int, supplierName: string,
                               drugs: seq<int>, names: seq<string>, qtys: seq<int>)
    requires |drugs| == |names| == |qtys| == |SlotCosts|
    ensures Submit(db, today, Form(order, Some(FormatLabel(supplier, supplierName)),
                                   [Some(FormatLabel(drugs[0], names[0])), Some(FormatLabel(drugs[1], names[1])),
                                    Some(FormatLabel(drugs[2], names[2]))], qtys))
         == Create(db, today, Request(order, supplier,
                                      [Line(drugs[0], qtys[0]), Line(drugs[1], qtys[1]), Line(drugs[2], qtys[2])]))
  {
    var choices := [Some(FormatLabel(drugs[0], names[0])), Some(FormatLabel(drugs[1], names[1])),
                    Some(FormatLabel(drugs[2], names[2]))];
    LabelRoundTrip(supplier, supplierName);
    assert ParseChoice(Some(FormatLabel(supplier, supplierName))) == Ok(supplier);
    forall k | 0 <= k < 3
      ensures ParseChoice(choices[k]) == Ok(drugs[k])
    {
      LabelRoundTrip(drugs[k], names[k]);
    }
  }
}
