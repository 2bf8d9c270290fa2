/**
 The stock-affecting POST handlers of the warehouse application, one method
 per handler, over an in-memory copy of the tables they write. Each handler
 is one atomic step; an exception (ServerError) commits nothing.
 */
module Warehouse {
  import opened Inventory

  class Store {
    var products: Stock
    var transactions: map<TransactionId, Transaction>
    var salesOrders: map<OrderId, Order>
    var purchaseOrders: map<OrderId, Order>
    // The AUTO_INCREMENT counters that hand out new row ids.
    var nextTransactionId: TransactionId
    var nextSalesOrderId: OrderId
    var nextPurchaseOrderId: OrderId
    // Each product's quantity before any transaction or order moved it.
    ghost var opening: map<ProductId, int>

    /** Every row id was handed out by its table's counter. */
    ghost predicate Valid()
      reads this
    {
      && (forall id :: id in transactions ==> id < nextTransactionId)
      && (forall id :: id in salesOrders ==> id < nextSalesOrderId)
      && (forall id :: id in purchaseOrders ==> id < nextPurchaseOrderId)
    }

    /** The stock ledger: quantities agree with the transaction and order tables. */
    ghost predicate Balanced()
      reads this
    {
      LedgerHolds(products, opening, transactions, salesOrders, purchaseOrders)
    }

    /** A database holding `stock` and no transactions or orders yet. */
    constructor (stock: Stock)
      ensures Valid() && Balanced()
      ensures products == stock && transactions == map[]
      ensures salesOrders == map[] && purchaseOrders == map[]
    {
      products := stock;
      transactions, salesOrders, purchaseOrders := map[], map[], map[];
      nextTransactionId, nextSalesOrderId, nextPurchaseOrderId := 0, 0, 0;
      opening := map p | p in stock :: stock[p].quantity;
      LedgerOfEmptyTables(stock);
    }

    /** `quantity = quantity + delta` on one product row, by the kind of a transaction. */
    method PostTransaction(t: Transaction)
      modifies this`products
      ensures products == Apply(old(products), t)
    {
      if t.kind == In {
        products := Adjust(products, t.productId, t.quantity);
      } else if t.kind == Out {
        products := Adjust(products, t.productId, -t.quantity);
      }
    }

    /** The inverse update, used when a transaction row is edited or deleted. */
    method UnpostTransaction(t: Transaction)
      modifies this`products
      ensures products == Revert(old(products), t)
    {
      if t.kind == In {
        products := Adjust(products, t.productId, -t.quantity);
      } else if t.kind == Out {
        products := Adjust(products, t.productId, t.quantity);
      }
    }

    /** add_transaction: store the row, then move stock by its kind. */
    method AddTransaction(productId: Option<ProductId>, kind: Option<string>, quantity: Option<int>)
      returns (resp: Response)
      requires Valid()
      modifies this`products, this`transactions, this`nextTransactionId
      ensures Valid()
      ensures var form := ParseTransactionForm(productId, kind, quantity);
        && (form.Err? ==> resp == form.error && unchanged(this))
        && (form.Ok? ==>
              && resp == Redirect
              && transactions == old(transactions)[old(nextTransactionId) := form.value]
              && nextTransactionId == old(nextTransactionId) + 1
              && products == Apply(old(products), form.value))
      ensures old(Balanced()) ==> Balanced()
    {
      var form := ParseTransactionForm(productId, kind, quantity);
      if form.Err? {
        return form.error;
      }
      var t := form.value;
      ghost var stock0, txs0 := products, transactions;
      var id := nextTransactionId;
      nextTransactionId := nextTransactionId + 1;
      transactions := transactions[id := t];
      PostTransaction(t);
      LedgerAfterAddTransaction(stock0, opening, txs0, salesOrders, purchaseOrders, id, t);
      resp := Redirect;
    }

    /** edit_transaction: revert the old row's effect on the old product, apply
        the new effect on the new product, then overwrite the row. A missing
        row makes the handler raise before anything is written. */
    method EditTransaction(id: TransactionId, productId: Option<ProductId>, kind: Option<string>, quantity: Option<int>)
      returns (resp: Response)
      requires Valid()
      modifies this`products, this`transactions
      ensures Valid()
      ensures var form := ParseTransactionForm(productId, kind, quantity);
        && (form.Err? ==> resp == form.error && unchanged(this))
        && (form.Ok? && id !in old(transactions) ==> resp == ServerError && unchanged(this))
        && (form.Ok? && id in old(transactions) ==>
              && resp == Redirect
              && transactions == old(transactions)[id := form.value]
              && products == Apply(Revert(old(products), old(transactions)[id]), form.value))
      ensures old(Balanced()) ==> Balanced()
    {
      var form := ParseTransactionForm(productId, kind, quantity);
      if form.Err? {
        return form.error;
      }
      if id !in transactions {
        return ServerError;
      }
      var t := form.value;
      var previous := transactions[id];
      ghost var stock0, txs0 := products, transactions;
      UnpostTransaction(previous);
      PostTransaction(t);
      transactions := transactions[id := t];
      LedgerAfterEditTransaction(stock0, opening, txs0, salesOrders, purchaseOrders, id, t);
      resp := Redirect;
    }

    /** delete_transaction as intended: revert the row's effect, then delete
        the row; an unknown id changes nothing. */
    method DeleteTransaction(id: TransactionId) returns (resp: Response)
      requires Valid()
      modifies this`products, this`transactions
      ensures Valid() && resp == Redirect
      ensures transactions == old(transactions) - {id}
      ensures products == if id in old(transactions) then Revert(old(products), old(transactions)[id]) else old(products)
      ensures old(Balanced()) ==> Balanced()
    {
      ghost var stock0, txs0 := products, transactions;
      if id in transactions {
        UnpostTransaction(transactions[id]);
      }
      transactions := transactions - {id};
      LedgerAfterDeleteTransaction(stock0, opening, txs0, salesOrders, purchaseOrders, id);
      resp := Redirect;
    }

    /** delete_transaction as written: its cursor returns tuples, so reading the
        fetched row by column name raises for every existing row, and nothing
        is reverted or deleted; only an unknown id reaches the redirect. */
    method DeleteTransactionAsWritten(id: TransactionId) returns (resp: Response)
      ensures resp == if id in transactions then ServerError else Redirect
    {
      if id in transactions {
        resp := ServerError;
      } else {
        resp := Redirect;
      }
    }

    /** The order-line loop shared by add_sales_order and add_purchase_order:
        for each zipped pair, snapshot the unit price, add the line total to
        the order total, and move that product's stock. */
    method PostLines(productIds: seq<ProductId>, quantities: seq<int>, dir: Direction)
      returns (items: seq<OrderItem>, total: int)
      requires LinesResolve(productIds, quantities, products)
      modifies this`products
      ensures items == Lines(productIds, quantities, old(products))
      ensures total == Total(items)
      ensures products == Restock(old(products), items, dir)
    {
      ghost var stock0, lines := products, Lines(productIds, quantities, products);
      var n := if |productIds| < |quantities| then |productIds| else |quantities|;
      items, total := [], 0;
      var i := 0;
      while i < n
        invariant 0 <= i <= n
        invariant items == lines[..i]
        invariant total == Total(items)
        invariant products == Restock(stock0, items, dir)
      {
        var productId := productIds[i];
        assert productId in products && products[productId].unitPrice == lines[i].unitPrice by {
          RestockClosedForm(stock0, items, dir);
        }
        var unitPrice := products[productId].unitPrice;
        var quantity := quantities[i];
        var totalPrice := unitPrice * quantity;
        var item := OrderItem(productId, quantity, unitPrice, totalPrice);
        RestockStep(stock0, items, item, dir);
        TotalAppend(items, [item]);
        assert lines[..i + 1] == items + [item];
        total := total + totalPrice;
        products := Adjust(products, productId, Signed(dir, quantity));
        items := items + [item];
        i := i + 1;
      }
      assert lines[..n] == lines;
      assert stock0 == old(products);
    }

    /** The loop shared by the two delete handlers: move every item's quantity
        back in direction `dir`. */
    method ReturnItems(items: seq<OrderItem>, dir: Direction)
      modifies this`products
      ensures products == Restock(old(products), items, dir)
    {
      var i := 0;
      while i < |items|
        invariant 0 <= i <= |items|
        invariant products == Restock(old(products), items[..i], dir)
      {
        RestockStep(old(products), items[..i], items[i], dir);
        assert items[..i + 1] == items[..i] + [items[i]];
        products := Adjust(products, items[i].productId, Signed(dir, items[i].quantity));
        i := i + 1;
      }
      assert items[..i] == items;
    }

    /** add_sales_order: a customer and two non-empty lists are required; each
        zipped line is stored with its price snapshot and lowers stock. A line
        naming an unknown product makes the handler raise, and the order and
        every line before it are rolled back. */
    method AddSalesOrder(customerId: Option<int>, productIds: seq<ProductId>, quantities: seq<int>)
      returns (resp: Response)
      requires Valid()
      modifies this`products, this`salesOrders, this`nextSalesOrderId
      ensures Valid()
      ensures resp ==
        if customerId.None? || |productIds| == 0 || |quantities| == 0 then BadRequest
        else if !LinesResolve(productIds, quantities, old(products)) then ServerError
        else Redirect
      ensures resp != Redirect ==> unchanged(this)
      ensures resp == Redirect ==>
        var items := Lines(productIds, quantities, old(products));
        && salesOrders == old(salesOrders)[old(nextSalesOrderId) := Order(customerId.value, Initial, Total(items), items)]
        && nextSalesOrderId == old(nextSalesOrderId) + 1
        && products == Restock(old(products), items, Consume)
      ensures old(Balanced()) ==> Balanced()
    {
      if customerId.None? || |productIds| == 0 || |quantities| == 0 {
        return BadRequest;
      }
      if !LinesResolve(productIds, quantities, products) {
        return ServerError;
      }
      ghost var stock0 := products;
      var id := nextSalesOrderId;
      nextSalesOrderId := nextSalesOrderId + 1;
      var items, total := PostLines(productIds, quantities, Consume);
      var order := Order(customerId.value, Initial, total, items);
      ghost var orders0 := salesOrders;
      salesOrders := salesOrders[id := order];
      LedgerAfterAddSalesOrder(stock0, opening, transactions, orders0, purchaseOrders, id, order);
      resp := Redirect;
    }

    /** edit_sales_order: only the status changes; an unknown id matches no row. */
    method EditSalesOrder(id: OrderId, status: Option<string>) returns (resp: Response)
      requires Valid()
      modifies this`salesOrders
      ensures Valid() && resp == Redirect
      ensures salesOrders ==
        if id in old(salesOrders) then old(salesOrders)[id := old(salesOrders)[id].(status := Assigned(status))]
        else old(salesOrders)
      ensures old(Balanced()) ==> Balanced()
    {
      if id in salesOrders {
        LedgerAfterSalesStatus(products, opening, transactions, salesOrders, purchaseOrders, id, Assigned(status));
        salesOrders := salesOrders[id := salesOrders[id].(status := Assigned(status))];
      }
      resp := Redirect;
    }

    /** delete_sales_order: put every item's quantity back, then delete the
        items and the order. */
    method DeleteSalesOrder(id: OrderId) returns (resp: Response)
      requires Valid()
      modifies this`products, this`salesOrders
      ensures Valid() && resp == Redirect
      ensures salesOrders == old(salesOrders) - {id}
      ensures products ==
        if id in old(salesOrders) then Restock(old(products), old(salesOrders)[id].items, Replenish)
        else old(products)
      ensures old(Balanced()) ==> Balanced()
    {
      var items := if id in salesOrders then salesOrders[id].items else [];
      if id in salesOrders {
        LedgerAfterDeleteSalesOrder(products, opening, transactions, salesOrders, purchaseOrders, id);
      } else {
        assert salesOrders - {id} == salesOrders;
      }
      ReturnItems(items, Replenish);
      salesOrders := salesOrders - {id};
      resp := Redirect;
    }

    /** add_purchase_order: as add_sales_order, with a supplier, and each line
        raises stock. */
    method AddPurchaseOrder(supplierId: Option<int>, productIds: seq<ProductId>, quantities: seq<int>)
      returns (resp: Response)
      requires Valid()
      modifies this`products, this`purchaseOrders, this`nextPurchaseOrderId
      ensures Valid()
      ensures resp ==
        if supplierId.None? || |productIds| == 0 || |quantities| == 0 then BadRequest
        else if !LinesResolve(productIds, quantities, old(products)) then ServerError
        else Redirect
      ensures resp != Redirect ==> unchanged(this)
      ensures resp == Redirect ==>
        var items := Lines(productIds, quantities, old(products));
        && purchaseOrders == old(purchaseOrders)[old(nextPurchaseOrderId) := Order(supplierId.value, Initial, Total(items), items)]
        && nextPurchaseOrderId == old(nextPurchaseOrderId) + 1
        && products == Restock(old(products), items, Replenish)
      ensures old(Balanced()) ==> Balanced()
    {
      if supplierId.None? || |productIds| == 0 || |quantities| == 0 {
        return BadRequest;
      }
      if !LinesResolve(productIds, quantities, products) {
        return ServerError;
      }
      ghost var stock0 := products;
      var id := nextPurchaseOrderId;
      nextPurchaseOrderId := nextPurchaseOrderId + 1;
      var items, total := PostLines(productIds, quantities, Replenish);
      var order := Order(supplierId.value, Initial, total, items);
      ghost var orders0 := purchaseOrders;
      purchaseOrders := purchaseOrders[id := order];
      LedgerAfterAddPurchaseOrder(stock0, opening, transactions, salesOrders, orders0, id, order);
      resp := Redirect;
    }

    /** edit_purchase_order: only the status changes; an unknown id matches no row. */
    method EditPurchaseOrder(id: OrderId, status: Option<string>) returns (resp: Response)
      requires Valid()
      modifies this`purchaseOrders
      ensures Valid() && resp == Redirect
      ensures purchaseOrders ==
        if id in old(purchaseOrders) then old(purchaseOrders)[id := old(purchaseOrders)[id].(status := Assigned(status))]
        else old(purchaseOrders)
      ensures old(Balanced()) ==> Balanced()
    {
      if id in purchaseOrders {
        LedgerAfterPurchaseStatus(products, opening, transactions, salesOrders, purchaseOrders, id, Assigned(status));
        purchaseOrders := purchaseOrders[id := purchaseOrders[id].(status := Assigned(status))];
      }
      resp := Redirect;
    }

    /** delete_purchase_order: take every item's quantity back out of stock,
        then delete the items and the order. */
    method DeletePurchaseOrder(id: OrderId) returns (resp: Response)
      requires Valid()
      modifies this`products, this`purchaseOrders
      ensures Valid() && resp == Redirect
      ensures purchaseOrders == old(purchaseOrders) - {id}
      ensures products ==
        if id in old(purchaseOrders) then Restock(old(products), old(purchaseOrders)[id].items, Consume)
        else old(products)
      ensures old(Balanced()) ==> Balanced()
    {
      var items := if id in purchaseOrders then purchaseOrders[id].items else [];
      if id in purchaseOrders {
        LedgerAfterDeletePurchaseOrder(products, opening, transactions, salesOrders, purchaseOrders, id);
      } else {
        assert purchaseOrders - {id} == purchaseOrders;
      }
      ReturnItems(items, Consume);
      purchaseOrders := purchaseOrders - {id};
      resp := Redirect;
    }

    /** edit_product: every field is required (as text, so a quantity of 0 is
        accepted); the row is overwritten, quantity included, whatever the
        ledger says. An unknown id matches no row. */
    method EditProduct(productId: ProductId, name: Option<string>, categoryId: Option<int>, quantity: Option<int>,
                       unitPrice: Option<int>, supplierId: Option<int>)
      returns (resp: Response)
      modifies this`products
      ensures var filled := name.Some? && name.value != "" && categoryId.Some? && quantity.Some?
                            && unitPrice.Some? && supplierId.Some?;
        && resp == (if filled then Redirect else BadRequest)
        && products ==
             if filled && productId in old(products)
             then old(products)[productId := Product(name.value, categoryId.value, quantity.value, unitPrice.value, supplierId.value)]
             else old(products)
    {
      if name.None? || name.value == "" || categoryId.None? || quantity.None? || unitPrice.None? || supplierId.None? {
        return BadRequest;
      }
      if productId in products {
        products := products[productId := Product(name.value, categoryId.value, quantity.value, unitPrice.value, supplierId.value)];
      }
      resp := Redirect;
    }
  }
}
