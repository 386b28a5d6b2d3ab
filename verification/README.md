# Purchase orders of the community pharmacy application

This project models the purchase-order page of the pharmacy web application (`Application/Pages/3_Order.py`). The page keeps two tables:

- **Order headers**: order id ↦ supplier, order date, expected delivery date and a status that is PENDING, FULFILLED or CANCELLED.
- **Order items**: keyed by (order id, drug id) ↦ quantity ordered and unit cost. The order id is stored in the item column `Product_id`.

The page runs four operations on these tables:

- **Create** writes one PENDING header due five days after today. It then writes one item for each of three drug slots whose quantity is positive, at fixed unit costs of 1.90, 0.80 and 2.50.
- **Revise** works on one order. It runs an optional INSERT at 2.00, then an optional quantity UPDATE, then an optional DELETE.
- **Cancel** sets an order's status to CANCELLED.
- **List** returns the orders with a given status, highest id first. The history tab joins each order with its supplier, so an order whose supplier is not catalogued is not shown there.

Drugs and suppliers are chosen from dropdowns labelled `"<id> - <name>"`. The page reads the id back from the text before the first `" - "`.

Every transaction is all or nothing. In the model, each one is a pure function from the database to `Ok(newDb)` or `Err(error)`. An `Err` carries no database: the page rolls back and the caller keeps the state it had (`Store.Settle`). Inside a transaction the statements run one after another on a working copy. A statement that fails after earlier ones succeeded, such as a duplicate item after the header INSERT, still yields `Err`. No partial state can escape, because an `Err` has no database to carry it. The lemmas show where such late failures happen (`CreateOrder.CreateRejectsRepeatedDrug`, `ReviseOrder.ReviseRejectsDuplicateAdd`).

The schema is not part of the repository. The model assumes the keys the page relies on:

- a primary key on the order id (the page expects a reused id to fail, lines 207-208);
- a primary key on (order, drug);
- foreign keys from items to orders and drugs, and from orders to suppliers;
- the check constraint that delivery is not before the order date (lines 139-140).

PostgreSQL reports a check violation before a key violation, and a key violation before a foreign-key violation. The model reports errors in the same order. Only the error's identity depends on this order, never the resulting state. `Store.Valid` collects these constraints, and every operation preserves it.

Dates are integer day numbers. `CURRENT_DATE` is a parameter `today`. Money is integer cents.

Modules:

- `Wrappers`: `Option`.
- `Labels`: label rendering and `int(label.split(" - ")[0])`.
- `Store`: tables, errors, single SQL statements, the validity invariant.
- `CreateOrder`, `ReviseOrder`, `CancelOrder`, `OrderListing`: one module per tab of the page.

Notes on behaviour the code has and a quick reading might miss:

- Create parses all four dropdown values before the transaction starts (lines 122-125). This includes slots whose quantity is 0. An empty dropdown yields `None`, and reading it fails before anything is written.
- Selecting the same drug in two slots with positive quantities makes the second item INSERT collide on the item key, so the whole order is rolled back. "Slot k has a row exactly when its quantity is positive" therefore holds only when the slots name different drugs (`CreateOrder.CreateSlotRows`). In general, the new order's rows are exactly the drugs of the positive slots (`CreateOrder.CreateRowsOfNewOrder`).
- With a one-drug catalogue every drug slot starts on that drug, and the default quantities are 100, 250 and 0. The unchanged form therefore orders the same drug twice and is always rejected (`CreateOrder.DefaultFormWithOneDrugFails`). The safe indices keep the page from crashing, but not the submission from failing. With exactly two drugs the same happens as soon as slot 3 is given a positive quantity without choosing another drug (`CreateOrder.TwoDrugsThirdSlotRepeatsFirst`).
- Neither the revise nor the cancel statement checks the order's status. Only the PENDING dropdowns (lines 284 and 421) keep other orders out. The model runs both statements on any order id, as the code does.

## Model

| member | source | states |
|---|---|---|
| `Labels.FirstPiece` | Application/Pages/3_Order.py:122-125 | `split(" - ")[0]`: the result is a prefix of the text, no separator starts inside it, and a separator follows it unless it is the whole text |
| `Labels.ParseIntOfIntToString` | Application/Pages/3_Order.py:122-125 | `int()` reads a rendered integer (negative ones too) back to the same integer |
| `Labels.FirstPieceOfLabel` | Application/Pages/3_Order.py:43-47 | the text before the first separator of `"<id> - <name>"` is exactly the rendered id, for every name, including names that themselves contain `" - "` |
| `Labels.LabelRoundTrip` | Application/Pages/3_Order.py:43-47 | parsing a label built from (id, name) returns that id, for any name |
| `Labels.NoneChoiceIsNotALabel` | Application/Pages/3_Order.py:311 | no formatted label equals the sentinel `"None"`, and the sentinel itself would not parse, so the guards that skip it are what keep it from being read |
| `Store.ParseChoice` | Application/Pages/3_Order.py:122-125 | reading a dropdown value succeeds exactly when there was a value and its id part parses, and then yields the parsed id |
| `Store.InsertOrder` | Application/Pages/3_Order.py:141-144 | a header INSERT succeeds exactly when the dates satisfy the check constraint, the id is unused and the supplier exists, and then adds exactly that header |
| `Store.InsertItem` | Application/Pages/3_Order.py:150-153 | an item INSERT succeeds exactly when its (order, drug) key is unused and both order and drug exist, and then adds exactly that row |
| `CreateOrder.SafeIndices` | Application/Pages/3_Order.py:82-84 | for a non-empty drug list all three pre-selected positions are in range; slot k starts on drug k when there are enough drugs, otherwise on the first |
| `CreateOrder.DefaultChoices` | Application/Pages/3_Order.py:89-103 | with no drugs each slot shows nothing; otherwise slot k shows the k-th drug when it exists and the first drug when it does not |
| `CreateOrder.InsertLines` | Application/Pages/3_Order.py:149-165 | the conditional item INSERTs succeed exactly when every positive slot names a catalogued drug, new to the order and not named by an earlier positive slot; they add exactly those rows at the slot's cost and change nothing else |
| `CreateOrder.Create` | Application/Pages/3_Order.py:136-169 | the transaction commits exactly when the id is new, the supplier exists and the item INSERTs fit; then it adds the PENDING header and the positive slots' rows and keeps every existing row |
| `CreateOrder.Submit` | Application/Pages/3_Order.py:122-125 | a create whose supplier or drug dropdown had no options never commits |
| `CreateOrder.CreateAddsOnePendingHeader` | Application/Pages/3_Order.py:139-144 | a successful create adds exactly one header, for a previously unused id: PENDING, placed today, due today + 5 and so never before it was placed; other headers are unchanged |
| `CreateOrder.CreateRowsOfNewOrder` | Application/Pages/3_Order.py:146-165 | in a valid database the new order's rows are exactly the drugs of the slots with positive quantity |
| `CreateOrder.CreateSlotRows` | Application/Pages/3_Order.py:149-165 | with three different drugs, slot k has a row exactly when its quantity is positive, at that slot's unit cost, so slot 1 with its form minimum of 1 has a row at 1.90 |
| `CreateOrder.CreateSucceedsIff` | Application/Pages/3_Order.py:204-211 | in a valid database the create fails exactly when the id is taken, the supplier or a chosen drug is unknown, or two positive slots name the same drug |
| `CreateOrder.CreateRejectsTakenId` | Application/Pages/3_Order.py:204-211 | reusing an order id fails with a key violation and leaves both tables as they were |
| `CreateOrder.CreateRejectsRepeatedDrug` | Application/Pages/3_Order.py:141-165 | the same drug in two positive slots makes the create fail, even when the header INSERT before the items would succeed |
| `CreateOrder.CreatePreservesValid` | Application/Pages/3_Order.py:136-169 | a create, committed or rolled back, keeps every item attached to an existing order and catalogued drug, and every order due no earlier than placed |
| `CreateOrder.DefaultFormWithOneDrugFails` | Application/Pages/3_Order.py:81-105 | with a one-drug catalogue all three slots start on that drug, and the form submitted with its default quantities is always rejected |
| `CreateOrder.TwoDrugsThirdSlotRepeatsFirst` | Application/Pages/3_Order.py:82-105 | with exactly two drugs slot 3 starts on slot 1's drug, so a positive slot-3 quantity with the pre-selected drugs is always rejected |
| `CreateOrder.SubmitFormattedChoices` | Application/Pages/3_Order.py:119-125 | submitting dropdown values formatted from ids creates the order for exactly those ids, whatever the display names |
| `ReviseOrder.AddStep` | Application/Pages/3_Order.py:350-356 | the INSERT step fails exactly when it is requested and either the choice does not parse or the INSERT fails; on success it adds the (order, drug) row with the added quantity at 2.00, and when not requested it changes nothing |
| `ReviseOrder.UpdateStep` | Application/Pages/3_Order.py:359-365 | the UPDATE step fails only on an unparsable requested choice; a requested UPDATE sets the quantity of that (order, drug) row if there is one |
| `ReviseOrder.DeleteStep` | Application/Pages/3_Order.py:368-373 | the DELETE step fails only on an unparsable chosen drug; otherwise it removes that (order, drug) row if there is one |
| `ReviseOrder.Revise` | Application/Pages/3_Order.py:347-376 | the revision commits exactly when the requested choices parse and the added drug is catalogued and new to this existing order; then headers and catalogues are unchanged and every item key holds what the per-key description `Expected` says |
| `ReviseOrder.ReviseTouchesOnlyItsOrder` | Application/Pages/3_Order.py:361-373 | a committed revision changes no header, and no item of another order, neither its presence nor its value |
| `ReviseOrder.ReviseDeleteWins` | Application/Pages/3_Order.py:368-373 | the drug chosen for removal is absent afterwards, even if the same drug was also added or updated |
| `ReviseOrder.ReviseAddsRow` | Application/Pages/3_Order.py:350-356 | an added drug that is not removed was not in the order before and now has a row at 2.00, holding the added quantity, or the new quantity when the UPDATE names the same drug |
| `ReviseOrder.ReviseUpdatesRow` | Application/Pages/3_Order.py:359-365 | an updated drug that is neither added nor removed takes the new quantity and keeps its unit cost; an UPDATE of a drug the order lacks adds no row |
| `ReviseOrder.ZeroQuantityIsNoStep` | Application/Pages/3_Order.py:350-360 | a zero add or update quantity gives the same outcome as choosing "None" for that step |
| `ReviseOrder.ReviseRejectsDuplicateAdd` | Application/Pages/3_Order.py:402-404 | adding a drug the order already holds fails with a key violation and discards the UPDATE and DELETE submitted with it |
| `ReviseOrder.RevisePreservesValid` | Application/Pages/3_Order.py:347-376 | a revision, committed or rolled back, keeps the database valid |
| `ReviseOrder.ReviseFormattedChoices` | Application/Pages/3_Order.py:311-373 | with dropdown values formatted from ids, the removed id's row is gone and an added id that is not removed has a row |
| `CancelOrder.Cancel` | Application/Pages/3_Order.py:438-442 | the chosen existing order becomes CANCELLED whatever its previous status; its other fields, all other orders, all items and the catalogues are unchanged |
| `CancelOrder.CancelIdempotent` | Application/Pages/3_Order.py:438-442 | cancelling twice gives the same database as cancelling once |
| `CancelOrder.CancelPreservesValid` | Application/Pages/3_Order.py:435-444 | cancelling keeps the database valid |
| `OrderListing.SortDescending` | Application/Pages/3_Order.py:253 | the ids come out each once, in strictly decreasing order |
| `OrderListing.OrderHistory` | Application/Pages/3_Order.py:237-253 | the history shows exactly the orders that match the filter and whose supplier is catalogued, each once, in strictly decreasing id order |
| `OrderListing.HistoryOfValidDb` | Application/Pages/3_Order.py:244-251 | under the assumed supplier foreign key the JOIN drops nothing: the history holds every order the filter selects |
| `OrderListing.HistoryHidesUnknownSupplier` | Application/Pages/3_Order.py:244-245 | an order whose supplier is not catalogued is missing from the history under every filter |
| `OrderListing.PendingOrders` | Application/Pages/3_Order.py:284-285 | the revise and cancel dropdowns offer exactly the PENDING orders, highest id first |
| `OrderListing.CreateJoinsPending` | Application/Pages/3_Order.py:141-144 | after a create the new order is in the PENDING list and every other status list is unchanged |
| `OrderListing.CancelMovesToCancelled` | Application/Pages/3_Order.py:438-442 | cancelling moves the order into the CANCELLED list and out of its former list; other orders stay in their lists |
| `OrderListing.ReviseKeepsLists` | Application/Pages/3_Order.py:347-376 | a committed revision changes no status list |

## Left out

- Streamlit rendering is not modelled: widgets, forms, tabs, messages, receipt queries and the DataFrame displays. Only what a form submits and what a dropdown initially shows are modelled.
- SQL text is not modelled: string assembly, the f-string WHERE clause of the history listing, and the `BEGIN;`/`COMMIT;` strings on the shared connection. Each transaction is taken to be one atomic unit.
- Connection handling (`Application/db.py`, `Application/app.py`) is not part of this model: it is I/O plumbing.
- The dispense, insurance and dashboard pages are not part of this model. They rely on database triggers that are not in the repository, on float arithmetic, or only read data.
- Actual dates are not modelled. `CURRENT_DATE` is an input day number.
- Money is exact integer cents. The database's numeric columns are not modelled.
- Exceptions other than the listed constraint and parse failures are not modelled: lost connections, and constraints the unseen schema might add (for example on quantities). `CancelOrder.Cancel` therefore always commits.
- Concurrency is not modelled. Because the status check lives only in the dropdown query, an order that stops being PENDING between listing and submit is still revised or cancelled. The model shows this by applying both statements to any order.
- Labels.ParseInt: reads only an optional sign followed by ASCII digits. Python's `int()` also accepts surrounding whitespace, underscores between digits and non-ASCII digits. Such text never arises from the labels the page formats (`Labels.LabelRoundTrip`).
