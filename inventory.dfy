/**
 The rows of the warehouse database that the stock handlers touch, and the
 pure meaning of each stock adjustment: what a transaction, an order line or
 a whole order does to `products.quantity`, and the ledger that ties every
 product's quantity to the transaction and order tables.
 */
module Inventory {
  import opened Sums

  type ProductId = int
  type TransactionId = nat
  type OrderId = nat

  datatype Option<T> = None | Some(value: T)
  datatype Result<T, E> = Ok(value: T) | Err(error: E)

  /** How a POST handler ends: a redirect to the list page, a 400 with a JSON
      error body, or an unhandled exception (nothing is committed then). */
  datatype Response = Redirect | BadRequest | ServerError

  /** A row of `products`; prices are integers in minor units. */
  datatype Product = Product(name: string, categoryId: int, quantity: int, unitPrice: int, supplierId: int)

  /** A row of `transactions`: a manual stock adjustment. Any non-empty kind is
      stored, but only "in" and "out" move stock. */
  datatype Transaction = Transaction(productId: ProductId, kind: string, quantity: int)

  /** A row of `sales_order_items` or `purchase_order_items`, with the unit
      price copied from the product when the line was written. */
  datatype OrderItem = OrderItem(productId: ProductId, quantity: int, unitPrice: int, totalPrice: int)

  /** An order's status: the column default until an edit assigns one
      (possibly NULL, when the form has no status field). */
  datatype Status = Initial | Assigned(value: Option<string>)

  /** A row of `sales_orders` (partyId is the customer) or `purchase_orders`
      (partyId is the supplier), together with its item rows. */
  datatype Order = Order(partyId: int, status: Status, totalAmount: int, items: seq<OrderItem>)

  /** Which way an order line moves stock: a sale consumes, a purchase replenishes. */
  datatype Direction = Consume | Replenish

  type Stock = map<ProductId, Product>

  const In: string := "in"
  const Out: string := "out"

  function Opposite(dir: Direction): Direction {
    if dir == Consume then Replenish else Consume
  }

  function Signed(dir: Direction, quantity: int): int {
    if dir == Consume then -quantity else quantity
  }

  /** `UPDATE products SET quantity = quantity + d WHERE id = p`: only product
      `p` changes, only in its quantity, and an unknown id matches no row. */
  function Adjust(stock: Stock, p: ProductId, d: int): (r: Stock)
    ensures r.Keys == stock.Keys
    ensures forall q :: q in stock ==>
      r[q] == stock[q].(quantity := stock[q].quantity + if q == p then d else 0)
  {
    if p in stock then stock[p := stock[p].(quantity := stock[p].quantity + d)] else stock
  }

  // ---------------------------------------------------------------------------
  // Transactions

  /** The signed stock change of a transaction of this kind. */
  function Delta(kind: string, quantity: int): int {
    if kind == In then quantity else if kind == Out then -quantity else 0
  }

  /** What transaction `t` contributes to product `p`'s stock. */
  function Effect(t: Transaction, p: ProductId): int {
    if t.productId == p then Delta(t.kind, t.quantity) else 0
  }

  /** The stock update a transaction row stands for. */
  function Apply(stock: Stock, t: Transaction): Stock {
    Adjust(stock, t.productId, Delta(t.kind, t.quantity))
  }

  /** The stock update that undoes `Apply`. */
  function Revert(stock: Stock, t: Transaction): Stock {
    Adjust(stock, t.productId, -Delta(t.kind, t.quantity))
  }

  /** The add/edit transaction form: `int(quantity)` runs first and raises on
      a missing or non-numeric quantity; then an empty product id, an empty
      type or a zero quantity is refused with 400. */
  function ParseTransactionForm(productId: Option<ProductId>, kind: Option<string>, quantity: Option<int>)
    : (r: Result<Transaction, Response>)
    ensures quantity.None? ==> r == Err(ServerError)
    ensures quantity.Some? ==>
      (r.Ok? <==> productId.Some? && kind.Some? && kind.value != "" && quantity.value != 0)
    ensures quantity.Some? && r.Err? ==> r.error == BadRequest
    ensures r.Ok? ==> r.value == Transaction(productId.value, kind.value, quantity.value)
  {
    match quantity
    case None => Err(ServerError)
    case Some(q) =>
      if productId.None? || kind.None? || kind.value == "" || q == 0 then Err(BadRequest)
      else Ok(Transaction(productId.value, kind.value, q))
  }

  /** An "in" transaction raises its product's stock by its quantity, an "out"
      lowers it, any other kind leaves stock alone; no other product moves. */
  lemma TransactionMovesOneProduct(stock: Stock, t: Transaction, p: ProductId)
    requires p in stock
    ensures Apply(stock, t).Keys == stock.Keys
    ensures Apply(stock, t)[p].quantity ==
      if p != t.productId then stock[p].quantity
      else if t.kind == In then stock[p].quantity + t.quantity
      else if t.kind == Out then stock[p].quantity - t.quantity
      else stock[p].quantity
    ensures Apply(stock, t)[p].unitPrice == stock[p].unitPrice
  {
  }

  /** Deleting a transaction undoes adding it. */
  lemma RevertUndoesApply(stock: Stock, t: Transaction)
    ensures Revert(Apply(stock, t), t) == stock
  {
  }

  /** Editing a transaction to the values it already has leaves stock as it was. */
  lemma EditToSameValuesKeepsStock(stock: Stock, t: Transaction)
    ensures Apply(Revert(stock, t), t) == stock
  {
  }

  /** Switching a transaction from "in" to "out", same product and quantity,
      lowers that product's stock by twice the quantity. */
  lemma InToOutLowersTwice(stock: Stock, p: ProductId, quantity: int)
    requires p in stock
    ensures Apply(Revert(stock, Transaction(p, In, quantity)), Transaction(p, Out, quantity))[p].quantity
         == stock[p].quantity - 2 * quantity
  {
  }

  // ---------------------------------------------------------------------------
  // Order lines

  /** Every pair `zip` yields names an existing product (otherwise the unit
      price lookup finds no row and the handler raises). */
  predicate LinesResolve(productIds: seq<ProductId>, quantities: seq<int>, stock: Stock) {
    forall i :: 0 <= i < |productIds| && i < |quantities| ==> productIds[i] in stock
  }

  /** One order line: the product's current unit price and price times quantity. */
  function Line(productId: ProductId, quantity: int, stock: Stock): (item: OrderItem)
    requires productId in stock
  {
    var unitPrice := stock[productId].unitPrice;
    OrderItem(productId, quantity, unitPrice, unitPrice * quantity)
  }

  /** The items `zip(product_ids, quantities)` produces: the shorter list
      decides how many, and the pairs stay in order. */
  function Lines(productIds: seq<ProductId>, quantities: seq<int>, stock: Stock): (r: seq<OrderItem>)
    requires LinesResolve(productIds, quantities, stock)
    ensures |r| == if |productIds| < |quantities| then |productIds| else |quantities|
    ensures forall i :: 0 <= i < |r| ==> r[i] == Line(productIds[i], quantities[i], stock)
  {
    if |productIds| == 0 || |quantities| == 0 then []
    else
      assert LinesResolve(productIds[1..], quantities[1..], stock) by {
        forall i | 0 <= i < |productIds| - 1 && i < |quantities| - 1
          ensures productIds[1..][i] in stock
        {
          assert productIds[1..][i] == productIds[i + 1];
        }
      }
      [Line(productIds[0], quantities[0], stock)] + Lines(productIds[1..], quantities[1..], stock)
  }

  /** The order's `total_amount`: the sum of its line totals, one per line. */
  function Total(items: seq<OrderItem>): int {
    if |items| == 0 then 0 else Total(items[..|items| - 1]) + items[|items| - 1].totalPrice
  }

  /** How many units of product `p` the items carry, over all lines naming it. */
  function ItemQuantity(items: seq<OrderItem>, p: ProductId): int {
    if |items| == 0 then 0
    else
      var last := items[|items| - 1];
      ItemQuantity(items[..|items| - 1], p) + if last.productId == p then last.quantity else 0
  }

  /** The stock after moving every item's quantity in direction `dir`, line by line. */
  function Restock(stock: Stock, items: seq<OrderItem>, dir: Direction): Stock {
    if |items| == 0 then stock
    else
      var last := items[|items| - 1];
      Adjust(Restock(stock, items[..|items| - 1], dir), last.productId, Signed(dir, last.quantity))
  }

  lemma {:induction false} TotalAppend(a: seq<OrderItem>, b: seq<OrderItem>)
    ensures Total(a + b) == Total(a) + Total(b)
    decreases |b|
  {
    if |b| == 0 {
      assert a + b == a;
    } else {
      var b' := b[..|b| - 1];
      assert (a + b)[..|a + b| - 1] == a + b';
      TotalAppend(a, b');
    }
  }

  lemma {:induction false} ItemQuantityAppend(a: seq<OrderItem>, b: seq<OrderItem>, p: ProductId)
    ensures ItemQuantity(a + b, p) == ItemQuantity(a, p) + ItemQuantity(b, p)
    decreases |b|
  {
    if |b| == 0 {
      assert a + b == a;
    } else {
      var b' := b[..|b| - 1];
      assert (a + b)[..|a + b| - 1] == a + b';
      ItemQuantityAppend(a, b', p);
    }
  }

  /** Posting one more line is one more `UPDATE products` on top of the others. */
  lemma RestockStep(stock: Stock, items: seq<OrderItem>, item: OrderItem, dir: Direction)
    ensures Restock(stock, items + [item], dir) ==
      Adjust(Restock(stock, items, dir), item.productId, Signed(dir, item.quantity))
  {
    assert (items + [item])[..|items|] == items;
  }

  /** Posting a list of items changes each product's quantity by the signed
      total of the lines naming it, and nothing else about any product. */
  lemma {:induction false} RestockClosedForm(stock: Stock, items: seq<OrderItem>, dir: Direction)
    ensures Restock(stock, items, dir).Keys == stock.Keys
    ensures forall p :: p in stock ==>
      Restock(stock, items, dir)[p] ==
        stock[p].(quantity := stock[p].quantity + Signed(dir, ItemQuantity(items, p)))
    decreases |items|
  {
    if |items| != 0 {
      RestockClosedForm(stock, items[..|items| - 1], dir);
    }
  }

  /** Posting items one way and then the other restores every product:
      deleting an order undoes creating it. */
  lemma RestockRoundTrip(stock: Stock, items: seq<OrderItem>, dir: Direction)
    ensures Restock(Restock(stock, items, dir), items, Opposite(dir)) == stock
  {
    var mid := Restock(stock, items, dir);
    RestockClosedForm(stock, items, dir);
    RestockClosedForm(mid, items, Opposite(dir));
    var r := Restock(mid, items, Opposite(dir));
    assert forall p :: p in stock ==> r[p] == stock[p];
  }

  /** Two lines for the same product: both line totals go into the order total
      and both quantities move that product's stock. */
  lemma SameProductTwice(stock: Stock, p: ProductId, q1: int, q2: int)
    requires p in stock
    ensures Total(Lines([p, p], [q1, q2], stock)) == stock[p].unitPrice * q1 + stock[p].unitPrice * q2
    ensures ItemQuantity(Lines([p, p], [q1, q2], stock), p) == q1 + q2
  {
    var first, second := Line(p, q1, stock), Line(p, q2, stock);
    assert Lines([p, p], [q1, q2], stock) == [first] + [second];
    TotalAppend([first], [second]);
    ItemQuantityAppend([first], [second], p);
  }

  // ---------------------------------------------------------------------------
  // The ledger

  /** Per transaction id, its contribution to product `p`. */
  function Effects(txs: map<TransactionId, Transaction>, p: ProductId): map<TransactionId, int> {
    map id | id in txs :: Effect(txs[id], p)
  }

  /** Per order id, how many units of product `p` its items carry. */
  function Carried(orders: map<OrderId, Order>, p: ProductId): map<OrderId, int> {
    map id | id in orders :: ItemQuantity(orders[id].items, p)
  }

  /** Net stock movement of product `p` recorded in the transactions table. */
  ghost function TxNet(txs: map<TransactionId, Transaction>, p: ProductId): int {
    MapSum(Effects(txs, p))
  }

  /** Units of product `p` on all lines of all the given orders. */
  ghost function OrderNet(orders: map<OrderId, Order>, p: ProductId): int {
    MapSum(Carried(orders, p))
  }

  /** Product `p`'s quantity is its opening quantity, plus its "in"
      transactions, minus its "out" ones, minus what was sold, plus what was
      purchased. */
  ghost predicate Reconciled(stock: Stock, opening: map<ProductId, int>, txs: map<TransactionId, Transaction>,
                             sales: map<OrderId, Order>, purchases: map<OrderId, Order>, p: ProductId)
  {
    && p in stock && p in opening
    && stock[p].quantity == opening[p] + TxNet(txs, p) - OrderNet(sales, p) + OrderNet(purchases, p)
  }

  /** The stock ledger: every product is reconciled with the transaction and order tables. */
  ghost predicate LedgerHolds(stock: Stock, opening: map<ProductId, int>, txs: map<TransactionId, Transaction>,
                              sales: map<OrderId, Order>, purchases: map<OrderId, Order>)
  {
    forall p {:trigger Reconciled(stock, opening, txs, sales, purchases, p)} ::
      p in stock ==> Reconciled(stock, opening, txs, sales, purchases, p)
  }

  lemma TxNetUpdate(txs: map<TransactionId, Transaction>, id: TransactionId, t: Transaction, p: ProductId)
    ensures TxNet(txs[id := t], p) == TxNet(txs, p) - (if id in txs then Effect(txs[id], p) else 0) + Effect(t, p)
  {
    var before := Effects(txs, p);
    assert Effects(txs[id := t], p) == before[id := Effect(t, p)];
    MapSumUpdate(before, id, Effect(t, p));
  }

  lemma TxNetDelete(txs: map<TransactionId, Transaction>, id: TransactionId, p: ProductId)
    ensures TxNet(txs - {id}, p) == TxNet(txs, p) - (if id in txs then Effect(txs[id], p) else 0)
  {
    var before := Effects(txs, p);
    assert Effects(txs - {id}, p) == before - {id};
    MapSumDelete(before, id);
  }

  lemma OrderNetUpdate(orders: map<OrderId, Order>, id: OrderId, o: Order, p: ProductId)
    ensures OrderNet(orders[id := o], p) ==
      OrderNet(orders, p) - (if id in orders then ItemQuantity(orders[id].items, p) else 0) + ItemQuantity(o.items, p)
  {
    var before := Carried(orders, p);
    assert Carried(orders[id := o], p) == before[id := ItemQuantity(o.items, p)];
    MapSumUpdate(before, id, ItemQuantity(o.items, p));
  }

  lemma OrderNetDelete(orders: map<OrderId, Order>, id: OrderId, p: ProductId)
    ensures OrderNet(orders - {id}, p) ==
      OrderNet(orders, p) - (if id in orders then ItemQuantity(orders[id].items, p) else 0)
  {
    var before := Carried(orders, p);
    assert Carried(orders - {id}, p) == before - {id};
    MapSumDelete(before, id);
  }

  /** With no transactions and no orders, the ledger is the opening stock. */
  lemma LedgerOfEmptyTables(stock: Stock)
    ensures LedgerHolds(stock, map p | p in stock :: stock[p].quantity, map[], map[], map[])
  {
    forall p | p in stock
      ensures Reconciled(stock, map p | p in stock :: stock[p].quantity, map[], map[], map[], p)
    {
      assert Effects(map[], p) == map[];
      assert Carried(map[], p) == map[];
    }
  }

  // Each write the handlers make keeps a ledger that held before it.

  lemma LedgerAfterAddTransaction(stock: Stock, opening: map<ProductId, int>, txs: map<TransactionId, Transaction>,
      sales: map<OrderId, Order>, purchases: map<OrderId, Order>,
      id: TransactionId, t: Transaction)
    requires id !in txs
    ensures LedgerHolds(stock, opening, txs, sales, purchases) ==>
      LedgerHolds(Apply(stock, t), opening, txs[id := t], sales, purchases)
  {
    if LedgerHolds(stock, opening, txs, sales, purchases) {
      forall p | p in stock
        ensures Reconciled(Apply(stock, t), opening, txs[id := t], sales, purchases, p)
      {
        assert Reconciled(stock, opening, txs, sales, purchases, p);
        TxNetUpdate(txs, id, t, p);
      }
    }
  }

  lemma LedgerAfterEditTransaction(stock: Stock, opening: map<ProductId, int>, txs: map<TransactionId, Transaction>,
      sales: map<OrderId, Order>, purchases: map<OrderId, Order>,
      id: TransactionId, t: Transaction)
    requires id in txs
    ensures LedgerHolds(stock, opening, txs, sales, purchases) ==>
      LedgerHolds(Apply(Revert(stock, txs[id]), t), opening, txs[id := t], sales, purchases)
  {
    if LedgerHolds(stock, opening, txs, sales, purchases) {
      forall p | p in stock
        ensures Reconciled(Apply(Revert(stock, txs[id]), t), opening, txs[id := t], sales, purchases, p)
      {
        assert Reconciled(stock, opening, txs, sales, purchases, p);
        TxNetUpdate(txs, id, t, p);
      }
    }
  }

  lemma LedgerAfterDeleteTransaction(stock: Stock, opening: map<ProductId, int>, txs: map<TransactionId, Transaction>,
      sales: map<OrderId, Order>, purchases: map<OrderId, Order>,
      id: TransactionId)
    ensures LedgerHolds(stock, opening, txs, sales, purchases) ==>
      LedgerHolds(if id in txs then Revert(stock, txs[id]) else stock, opening, txs - {id}, sales, purchases)
  {
    if LedgerHolds(stock, opening, txs, sales, purchases) {
      forall p | p in stock
        ensures Reconciled(if id in txs then Revert(stock, txs[id]) else stock, opening, txs - {id}, sales, purchases, p)
      {
        assert Reconciled(stock, opening, txs, sales, purchases, p);
        TxNetDelete(txs, id, p);
      }
    }
  }

  lemma LedgerAfterAddSalesOrder(stock: Stock, opening: map<ProductId, int>, txs: map<TransactionId, Transaction>,
      sales: map<OrderId, Order>, purchases: map<OrderId, Order>,
      id: OrderId, o: Order)
    requires id !in sales
    ensures LedgerHolds(stock, opening, txs, sales, purchases) ==>
      LedgerHolds(Restock(stock, o.items, Consume), opening, txs, sales[id := o], purchases)
  {
    if LedgerHolds(stock, opening, txs, sales, purchases) {
      RestockClosedForm(stock, o.items, Consume);
      forall p | p in stock
        ensures Reconciled(Restock(stock, o.items, Consume), opening, txs, sales[id := o], purchases, p)
      {
        assert Reconciled(stock, opening, txs, sales, purchases, p);
        OrderNetUpdate(sales, id, o, p);
      }
    }
  }

  lemma LedgerAfterAddPurchaseOrder(stock: Stock, opening: map<ProductId, int>, txs: map<TransactionId, Transaction>,
      sales: map<OrderId, Order>, purchases: map<OrderId, Order>,
      id: OrderId, o: Order)
    requires id !in purchases
    ensures LedgerHolds(stock, opening, txs, sales, purchases) ==>
      LedgerHolds(Restock(stock, o.items, Replenish), opening, txs, sales, purchases[id := o])
  {
    if LedgerHolds(stock, opening, txs, sales, purchases) {
      RestockClosedForm(stock, o.items, Replenish);
      forall p | p in stock
        ensures Reconciled(Restock(stock, o.items, Replenish), opening, txs, sales, purchases[id := o], p)
      {
        assert Reconciled(stock, opening, txs, sales, purchases, p);
        OrderNetUpdate(purchases, id, o, p);
      }
    }
  }

  lemma LedgerAfterDeleteSalesOrder(stock: Stock, opening: map<ProductId, int>, txs: map<TransactionId, Transaction>,
      sales: map<OrderId, Order>, purchases: map<OrderId, Order>,
      id: OrderId)
    requires id in sales
    ensures LedgerHolds(stock, opening, txs, sales, purchases) ==>
      LedgerHolds(Restock(stock, sales[id].items, Replenish), opening, txs, sales - {id}, purchases)
  {
    if LedgerHolds(stock, opening, txs, sales, purchases) {
      RestockClosedForm(stock, sales[id].items, Replenish);
      forall p | p in stock
        ensures Reconciled(Restock(stock, sales[id].items, Replenish), opening, txs, sales - {id}, purchases, p)
      {
        assert Reconciled(stock, opening, txs, sales, purchases, p);
        OrderNetDelete(sales, id, p);
      }
    }
  }

  lemma LedgerAfterDeletePurchaseOrder(stock: Stock, opening: map<ProductId, int>, txs: map<TransactionId, Transaction>,
      sales: map<OrderId, Order>, purchases: map<OrderId, Order>,
      id: OrderId)
    requires id in purchases
    ensures LedgerHolds(stock, opening, txs, sales, purchases) ==>
      LedgerHolds(Restock(stock, purchases[id].items, Consume), opening, txs, sales, purchases - {id})
  {
    if LedgerHolds(stock, opening, txs, sales, purchases) {
      RestockClosedForm(stock, purchases[id].items, Consume);
      forall p | p in stock
        ensures Reconciled(Restock(stock, purchases[id].items, Consume), opening, txs, sales, purchases - {id}, p)
      {
        assert Reconciled(stock, opening, txs, sales, purchases, p);
        OrderNetDelete(purchases, id, p);
      }
    }
  }

  /** Changing a sales order's status (its items untouched) keeps the ledger. */
  lemma LedgerAfterSalesStatus(stock: Stock, opening: map<ProductId, int>, txs: map<TransactionId, Transaction>,
      sales: map<OrderId, Order>, purchases: map<OrderId, Order>,
      id: OrderId, status: Status)
    requires id in sales
    ensures LedgerHolds(stock, opening, txs, sales, purchases) ==>
      LedgerHolds(stock, opening, txs, sales[id := sales[id].(status := status)], purchases)
  {
    if LedgerHolds(stock, opening, txs, sales, purchases) {
      forall p | p in stock
        ensures Reconciled(stock, opening, txs, sales[id := sales[id].(status := status)], purchases, p)
      {
        assert Reconciled(stock, opening, txs, sales, purchases, p);
        OrderNetUpdate(sales, id, sales[id].(status := status), p);
      }
    }
  }

  /** Changing a purchase order's status (its items untouched) keeps the ledger. */
  lemma LedgerAfterPurchaseStatus(stock: Stock, opening: map<ProductId, int>, txs: map<TransactionId, Transaction>,
      sales: map<OrderId, Order>, purchases: map<OrderId, Order>,
      id: OrderId, status: Status)
    requires id in purchases
    ensures LedgerHolds(stock, opening, txs, sales, purchases) ==>
      LedgerHolds(stock, opening, txs, sales, purchases[id := purchases[id].(status := status)])
  {
    if LedgerHolds(stock, opening, txs, sales, purchases) {
      forall p | p in stock
        ensures Reconciled(stock, opening, txs, sales, purchases[id := purchases[id].(status := status)], p)
      {
        assert Reconciled(stock, opening, txs, sales, purchases, p);
        OrderNetUpdate(purchases, id, purchases[id].(status := status), p);
      }
    }
  }

  /** Overwriting a product's quantity with a different value breaks a ledger
      that held: edit_product is the one write that can. */
  lemma EditProductBreaksLedger(stock: Stock, opening: map<ProductId, int>, txs: map<TransactionId, Transaction>,
                                sales: map<OrderId, Order>, purchases: map<OrderId, Order>,
                                p: ProductId, edited: Product)
    requires p in stock && edited.quantity != stock[p].quantity
    requires LedgerHolds(stock, opening, txs, sales, purchases)
    ensures !LedgerHolds(stock[p := edited], opening, txs, sales, purchases)
  {
    assert !Reconciled(stock[p := edited], opening, txs, sales, purchases, p) by {
      assert Reconciled(stock, opening, txs, sales, purchases, p);
    }
  }
}
