/** The request handlers of the storefront backend over its one shared cart:
    list products, view the cart with its totals, add with merge, remove by
    line id, and check out. Each handler is one atomic step on a `Store`. */
module Server {
  import opened Tables
  import opened Totals
  import Catalog

  /** A handler's reply: a 200 body, a 400 or a 404 with its error message. */
  datatype Response<T> = Ok(body: T) | BadRequest(error: string) | NotFound(error: string)

  /** The body of a successful add: `{ message, id }`. */
  datatype AddReply = AddReply(message: string, id: string)

  /** The `customerInfo` object of a checkout request; a field may be absent. */
  datatype Customer = Customer(name: Option<string>, email: Option<string>)

  /** The body of `GET /api/cart`. */
  datatype CartView = CartView(items: seq<CartRow>, total: int, itemCount: int)

  /** The receipt checkout returns; its timestamp is not modelled. */
  datatype Receipt = Receipt(orderId: string, customerInfo: Customer, items: seq<OrderItem>, total: int, status: string)

  /** JavaScript falsiness of an optional string field: absent or empty. */
  predicate Blank(field: Option<string>) {
    field.None? || field.value == ""
  }

  /** The destructuring default `quantity = 1`. */
  function RequestedQuantity(quantity: Option<int>): int {
    if quantity.None? then 1 else quantity.value
  }

  /** The checkout guard: no `customerInfo`, or one without a name or an email. */
  predicate MissingCustomer(customerInfo: Option<Customer>) {
    customerInfo.None? || Blank(customerInfo.value.name) || Blank(customerInfo.value.email)
  }

  /** The in-memory database: the catalog, written once at startup, and the shared cart. */
  class Store {
    const products: seq<Product>
    var items: seq<CartLine>

    ghost predicate Valid()
      reads this
    {
      DistinctProductIds(products) && CartInvariant(items, products)
    }

    /** Startup: the seed products inserted one by one into an empty `products`; the cart is empty. */
    constructor ()
      ensures Valid() && products == Catalog.Seed() && items == []
    {
      var seed := Catalog.Seed();
      var rows: seq<Product> := [];
      for i := 0 to |seed|
        invariant rows == seed[..i]
      {
        rows := rows + [seed[i]];
      }
      assert rows == seed;
      products := rows;
      items := [];
    }

    /** `GET /api/products`: every product row, in insertion order. The table is a
        `const` fixed by the constructor, so this is always the seed. */
    method ListProducts() returns (rows: seq<Product>)
      ensures rows == products
    {
      rows := products;
    }

    /** `GET /api/cart`: the joined rows, a `total` equal to the sum of price times
        quantity over the lines, and an `itemCount` equal to the sum of their quantities;
        one row per line, in order. An empty cart gives no rows, 0 and 0. */
    method ViewCart() returns (view: CartView)
      requires Valid()
      ensures view.total == CartTotal(items, products)
      ensures view.itemCount == ItemCount(items)
      ensures |view.items| == |items|
      ensures forall k :: 0 <= k < |items| ==>
        SelectProduct(products, items[k].productId).Some? &&
        view.items[k] == JoinRow(items[k], SelectProduct(products, items[k].productId).value)
    {
      var rows := CartJoin(items, products);
      var total := Reduce(rows, RowSubtotal);
      var count := Reduce(rows, RowQuantity);
      JoinAligned(items, products);
      JoinTotal(items, products);
      JoinCount(items, products);
      view := CartView(rows, total, count);
    }

    /** `POST /api/cart` with `{ productId, quantity }`; `freshId` is the UUID the
        handler would generate for a new line. */
    method AddItem(productId: Option<string>, quantity: Option<int>, freshId: string) returns (r: Response<AddReply>)
      requires Valid()
      requires !HasLineId(items, freshId)
      modifies this
      ensures Valid()
      ensures Blank(productId) ==> r == BadRequest("Product ID is required") && items == old(items)
      ensures !Blank(productId) && !HasProduct(products, productId.value) ==>
        r == NotFound("Product not found") && items == old(items)
      ensures !Blank(productId) && HasProduct(products, productId.value) ==>
        var pid, q := productId.value, RequestedQuantity(quantity);
        && ItemCount(items) == ItemCount(old(items)) + q
        && CartTotal(items, products) == CartTotal(old(items), products) + UnitPrice(products, pid) * q
        && (forall k :: 0 <= k < |old(items)| && old(items)[k].productId == pid ==>
              && r == Ok(AddReply("Cart updated successfully", old(items)[k].id))
              && items == old(items)[k := old(items)[k].(quantity := old(items)[k].quantity + q)])
        && (!HasLineFor(old(items), pid) ==>
              && r == Ok(AddReply("Item added to cart", freshId))
              && items == old(items) + [CartLine(freshId, pid, q)])
    {
      if Blank(productId) {
        r := BadRequest("Product ID is required");
        return;
      }
      var pid := productId.value;
      var q := RequestedQuantity(quantity);
      var product := SelectProduct(products, pid);
      if product.None? {
        r := NotFound("Product not found");
        return;
      }
      var existing := SelectLineByProduct(items, pid);
      if existing.Some? {
        ghost var k :| 0 <= k < |items| && items[k].productId == pid;
        SelectLineAt(items, k);
        assert existing.value == items[k];
        var newQuantity := existing.value.quantity + q;
        UpdateTouchesOneLine(items, k, newQuantity);
        MergeKeepsInvariant(items, products, k, newQuantity);
        MergeRaisesTotals(items, products, k, q);
        items := UpdateQuantityByProduct(items, pid, newQuantity);
        r := Ok(AddReply("Cart updated successfully", existing.value.id));
      } else {
        var line := CartLine(freshId, pid, q);
        InsertKeepsInvariant(items, products, line);
        InsertRaisesTotals(items, products, line);
        items := items + [line];
        r := Ok(AddReply("Item added to cart", freshId));
      }
    }

    /** `DELETE /api/cart/:id`: the DELETE runs, and its change count decides the reply. */
    method RemoveItem(id: string) returns (r: Response<string>)
      requires Valid()
      modifies this
      ensures Valid()
      ensures !HasLineId(old(items), id) ==> r == NotFound("Cart item not found") && items == old(items)
      ensures forall k :: 0 <= k < |old(items)| && old(items)[k].id == id ==>
        && r == Ok("Item removed from cart")
        && items == old(items)[..k] + old(items)[k + 1..]
        && ItemCount(items) == ItemCount(old(items)) - old(items)[k].quantity
        && CartTotal(items, products)
           == CartTotal(old(items), products) - UnitPrice(products, old(items)[k].productId) * old(items)[k].quantity
    {
      var rest := DeleteWhereId(items, id);
      var changes := |items| - |rest|;
      DeleteKeepsInvariant(items, products, id);
      if HasLineId(items, id) {
        ghost var k :| 0 <= k < |items| && items[k].id == id;
        DeleteAt(items, k);
        RemoveLowersTotals(items, products, k);
      } else {
        DeleteAbsent(items, id);
      }
      items := rest;
      if changes == 0 {
        r := NotFound("Cart item not found");
      } else {
        r := Ok("Item removed from cart");
      }
    }

    /** `POST /api/checkout` with `{ customerInfo }`; `orderId` is the time-derived
        order id. On success the receipt holds the pre-checkout lines and total, and
        the cart is emptied. */
    method Checkout(customerInfo: Option<Customer>, orderId: string) returns (r: Response<Receipt>)
      requires Valid()
      modifies this
      ensures Valid()
      ensures MissingCustomer(customerInfo) ==>
        r == BadRequest("Customer name and email are required") && items == old(items)
      ensures !MissingCustomer(customerInfo) ==>
        && r == Ok(Receipt(orderId, customerInfo.value, OrderJoin(old(items), products),
                           CartTotal(old(items), products), "completed"))
        && items == []
    {
      if MissingCustomer(customerInfo) {
        r := BadRequest("Customer name and email are required");
        return;
      }
      var rows := OrderJoin(items, products);
      var total := Reduce(rows, ItemSubtotal);
      OrderTotal(items, products);
      items := [];
      r := Ok(Receipt(orderId, customerInfo.value, rows, total, "completed"));
    }
  }

  /** Adding product "1" (99.99) with quantity 1 and then 2 leaves one line of
      quantity 3, an item count of 3 and a total of 299.97. */
  method MergeExample() returns (view: CartView)
    ensures |view.items| == 1 && view.items[0].quantity == 3
    ensures view.itemCount == 3 && view.total == 29997
  {
    var store := new Store();
    assert store.products[0].id == "1";
    var first := store.AddItem(Some("1"), Some(1), "line-a");
    assert store.items == [CartLine("line-a", "1", 1)];
    var second := store.AddItem(Some("1"), Some(2), "line-b");
    assert store.items == [CartLine("line-a", "1", 3)];
    view := store.ViewCart();
    SelectProductAt(store.products, 0);
  }
}
