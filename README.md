# Warehouse stock ledger

A Dafny model of the stock bookkeeping in `app.py`, a Flask/MySQL warehouse
application. Ten POST handlers write the `products`, `transactions`,
`sales_orders`/`sales_order_items` and `purchase_orders`/`purchase_order_items`
tables:

- `add_transaction`, `edit_transaction`, `delete_transaction`
- `add_sales_order`, `edit_sales_order`, `delete_sales_order`
- `add_purchase_order`, `edit_purchase_order`, `delete_purchase_order`
- `edit_product`

The transaction handlers and the add/delete order handlers move a product's
stock with `quantity = quantity ± n`. `edit_product` overwrites the quantity
outright. The two order-status edits never touch `products`. Deleting a
transaction or an order is meant to undo what creating it did. Editing a
transaction undoes the old row's effect and applies the new one.

The project has three modules:

- `Sums` (`sums.dfy`): the sum of the values of a finite map. It also proves
  what that sum becomes when one key is written or removed.
- `Inventory` (`inventory.dfy`): the table rows as datatypes and the pure
  meaning of each stock movement:
  - `Adjust` is one `UPDATE products SET quantity = quantity + d`.
  - `Apply`/`Revert` is a transaction row's effect and its inverse.
  - `Lines`/`Total`/`Restock` are the `zip` of an order form and what posting
    its lines does.
  - `LedgerHolds` is the ledger. For every product, quantity = opening
    quantity + Σ"in" − Σ"out" − Σsold + Σpurchased, taken over the rows the
    tables currently hold.
- `Warehouse` (`warehouse.dfy`): class `Store` holds the tables as map fields
  and the AUTO_INCREMENT counters. It has one method per handler, each with a
  field-level `modifies` frame. The order handlers' per-line loops are `while`
  loops with invariants.
  - The add, edit and delete methods for transactions, sales orders and
    purchase orders each ensure `old(Balanced()) ==> Balanced()`, so they keep
    the ledger.
  - `EditProduct` has no such clause, because it can break the ledger.
  - `DeleteTransactionAsWritten` changes no state, so it cannot affect the
    ledger.
  - The constructor starts from a given stock with empty transaction and order
    tables. `LedgerOfEmptyTables` shows that the ledger holds there.

Each handler is one atomic step. It ends in one of three ways:

- `Redirect`: accepted;
- `BadRequest`: 400 with a JSON error;
- `ServerError`: an uncaught exception, before `commit`, so nothing is
  written.

Form fields are `Option`s. For the fields a handler checks with Python's
`not x`, `None` stands for a field that is missing or empty. A quantity of
`None` means the `int(...)` conversion raised. The `status` field of the
order-status edits is not checked. There, `None` is a missing field, which is
stored as NULL, and `Some("")` is an empty string, which is stored as it is.

Where the evidently intended behaviour and the code differ, the model carries
both, and the rest of the model uses the intended one:

- `delete_transaction` is meant to revert the row's effect. As written, it
  raises for every existing row (see Findings).

An order line naming an unknown product makes the handler raise before it
commits. The model returns `ServerError` and leaves all state unchanged.

## Model

| member | source | states |
|---|---|---|
| Inventory.Adjust | app.py:422-424 | one `UPDATE ... quantity = quantity + d WHERE id = p` changes only product p, and only its quantity, by exactly d; an unknown id leaves every row as it was and the key set never changes |
| Inventory.ParseTransactionForm | app.py:410-415 | a missing quantity raises before the presence check; otherwise the form is accepted iff product id and type are present and non-empty and the quantity is non-zero; every other form gets 400; an accepted form becomes exactly the row to insert |
| Inventory.TransactionMovesOneProduct | app.py:419-424 | an "in" row raises its product's quantity by its quantity, an "out" row lowers it, any other type leaves it; every other product's quantity, and every price, is unchanged |
| Inventory.RevertUndoesApply | app.py:495-507 | the revert done when a transaction is deleted exactly undoes adding it: add-then-delete restores every product |
| Inventory.EditToSameValuesKeepsStock | app.py:456-467 | editing a transaction to its current values reverts and re-applies the same effect, leaving all stock as it was |
| Inventory.InToOutLowersTwice | app.py:456-467 | switching a transaction from "in" to "out" with the same product and quantity lowers that product's stock by twice the quantity |
| Inventory.Lines | app.py:549-559 | the stored lines are the first min(#ids, #quantities) zipped pairs, in order; each carries the product's current unit price and price × quantity |
| Inventory.SameProductTwice | app.py:549-562 | two lines naming the same product are both counted: the order total is the sum of both line totals and the product moves by both quantities |
| Inventory.TotalAppend | app.py:546-554 | the running total_amount is additive over the lines: the total of a concatenation is the sum of the totals |
| Inventory.ItemQuantityAppend | app.py:549-562 | the units of a product that a list of lines carries are additive over concatenation |
| Inventory.RestockClosedForm | app.py:549-562 | posting a list of lines changes each product's quantity by the signed number of units its lines carry and changes nothing else about any product |
| Inventory.RestockRoundTrip | app.py:621-629 | posting an order's lines one way and then the other restores every product: deleting a sales or purchase order undoes creating it |
| Inventory.TxNetUpdate | app.py:419-420 | writing a transaction row replaces the old row's contribution to a product's net movement with the new row's |
| Inventory.TxNetDelete | app.py:507 | deleting a transaction row removes exactly its contribution to each product's net movement |
| Inventory.OrderNetUpdate | app.py:556-559 | storing an order replaces the old order's units of each product with the new order's units |
| Inventory.OrderNetDelete | app.py:627-629 | deleting an order and its items removes exactly its units of each product |
| Inventory.LedgerAfterAddTransaction | app.py:419-424 | inserting a transaction row together with its stock update keeps the ledger |
| Inventory.LedgerAfterEditTransaction | app.py:456-474 | reverting the old row, applying the new one and overwriting the row keeps the ledger, even when the product id changes |
| Inventory.LedgerAfterDeleteTransaction | app.py:497-507 | reverting and deleting a transaction row keeps the ledger, and deleting an unknown id changes nothing |
| Inventory.LedgerAfterAddSalesOrder | app.py:543-565 | storing a sales order and lowering stock by its lines keeps the ledger |
| Inventory.LedgerAfterAddPurchaseOrder | app.py:698-720 | storing a purchase order and raising stock by its lines keeps the ledger |
| Inventory.LedgerAfterDeleteSalesOrder | app.py:621-629 | putting a sales order's units back and deleting it keeps the ledger |
| Inventory.LedgerAfterDeletePurchaseOrder | app.py:776-784 | taking a purchase order's units back out and deleting it keeps the ledger |
| Inventory.LedgerAfterSalesStatus | app.py:587-588 | changing a sales order's status keeps the ledger |
| Inventory.LedgerAfterPurchaseStatus | app.py:742-743 | changing a purchase order's status keeps the ledger |
| Inventory.EditProductBreaksLedger | app.py:169-173 | overwriting a product's quantity with a different value breaks a ledger that held, so edit_product is the one write that can |
| Warehouse.Store.PostTransaction | app.py:421-424 | the "in"/"out" branch of the stock update moves the products table to `Apply` of the row |
| Warehouse.Store.UnpostTransaction | app.py:458-461 | the opposite branch moves the products table to `Revert` of the row |
| Warehouse.Store.AddTransaction | app.py:408-427 | a refused form returns its error and writes nothing; an accepted one inserts the row under the next id, applies its effect and keeps the ledger |
| Warehouse.Store.EditTransaction | app.py:438-478 | a refused form returns its error; an unknown id raises with nothing written; otherwise the old effect is reverted, the new applied, the row overwritten and the ledger kept |
| Warehouse.Store.DeleteTransaction | app.py:495-510 | intended behaviour: an existing row's effect is reverted and the row deleted; an unknown id changes nothing; the ledger is kept |
| Warehouse.Store.DeleteTransactionAsWritten | app.py:493-500 | as written: an existing id raises (nothing changes), and only an unknown id redirects |
| Warehouse.Store.PostLines | app.py:546-562 | the loop stores exactly `Lines` of the form, accumulates their `Total` and leaves products at `Restock` of those lines |
| Warehouse.Store.ReturnItems | app.py:623-624 | the loop over an order's items moves the products table to `Restock` of those items in the given direction |
| Warehouse.Store.AddSalesOrder | app.py:530-569 | a missing customer or empty list gets 400 and an unknown product raises, both with nothing written; otherwise the order is stored under the next id with its lines and total, stock falls by every line and the ledger is kept |
| Warehouse.Store.EditSalesOrder | app.py:586-588 | only the order's status changes (to the form value, possibly none); items, total and stock are untouched; an unknown id changes nothing |
| Warehouse.Store.DeleteSalesOrder | app.py:616-633 | every item's quantity goes back to its product, the order and its items are gone, and the ledger is kept |
| Warehouse.Store.AddPurchaseOrder | app.py:685-724 | as AddSalesOrder with a supplier, and stock rises by every line |
| Warehouse.Store.EditPurchaseOrder | app.py:741-743 | only the order's status changes; items, total and stock are untouched |
| Warehouse.Store.DeletePurchaseOrder | app.py:771-788 | every item's quantity is taken back out of its product, the order and its items are gone, and the ledger is kept |
| Warehouse.Store.EditProduct | app.py:159-176 | a missing or empty field gets 400 and nothing changes (a quantity of 0 is accepted); otherwise the product row is overwritten outright, quantity included, and an unknown id matches no row |

## Left out

- Flask routing, templates, redirects and the JSON/HTML bodies: a handler's outcome is reduced to `Redirect`, `BadRequest` or `ServerError`.
- `get_db_connection`, its error reporting and the GET branches of every handler (read-only pages and 404s).
- The read-only list and detail pages, and CRUD for customers, categories, suppliers and warehouses: they do not touch stock.
- `add_product` and `delete_product`: a product's opening quantity is fixed when the `Store` is constructed.
- Concurrency between requests, and partial failure: each handler is one atomic step that either commits everything or nothing.
- AUTO_INCREMENT values used up by an insert that is then rolled back: the counters advance only when the handler succeeds.
- Integer width: quantities, line totals and order totals are unbounded integers. The range of the MySQL columns they are written to is not modelled. In strict mode an out-of-range value (or a negative one in an UNSIGNED column) raises and nothing is committed; otherwise it is clamped. The model returns `Redirect` in both cases.
- Prices are integers (minor units) rather than DECIMAL or floating point, so totals are exact.
- Column defaults (`date`, `order_date`, the initial status value): `Status.Initial` stands for whatever the default is.
- Foreign-key constraints: a transaction may name a product that does not exist; its stock update then matches no row.
- Order-line quantities are already integers: a non-numeric quantity string makes `int(...)` raise mid-loop in the source, which the model does not represent.
- Form values are already converted: ids and quantities arrive as `int`, and there is no string-to-number coercion in SQL.

## Findings

| source | as written | input that shows it | evidently intended | confidence | as-written member | corrected member |
|---|---|---|---|---|---|---|
| app.py:493-500 | the cursor is opened without `dictionary=True`, so the fetched row is a tuple, and reading `transaction['product_id']` raises `TypeError` for every existing row: nothing is reverted or deleted | POST to delete_transaction with the id of any existing transaction | revert the row's stock effect, then delete the row, as edit_transaction does for its old row | high, not executed | Warehouse.Store.DeleteTransactionAsWritten | Warehouse.Store.DeleteTransaction |
