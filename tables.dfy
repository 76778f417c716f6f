/** The two tables of the storefront's in-memory database, `products` and
    `cart_items`, as sequences of rows in insertion order, and the SQL
    statements that need more than a plain sequence operation, each written
    as a function on those rows: the two lookups, the UPDATE by `productId`,
    the DELETE by id and the two joins. The INSERT of a new line, checkout's
    `DELETE FROM cart_items` and `SELECT * FROM products` are written directly
    in the `Store` methods. */
module Tables {

  datatype Option<T> = None | Some(value: T)

  /** A row of `products`; `price` is held in integer cents. */
  datatype Product = Product(id: string, name: string, price: nat, image: string, description: string)

  /** A row of `cart_items`. Its `addedAt` timestamp is not modelled. */
  datatype CartLine = CartLine(id: string, productId: string, quantity: int)

  /** A row of the join the cart view selects: the line's columns and its product's name, price and image. */
  datatype CartRow = CartRow(id: string, productId: string, quantity: int, name: string, price: nat, image: string)

  /** A row of the join checkout selects: quantity, price and name. */
  datatype OrderItem = OrderItem(quantity: int, price: nat, name: string)

  predicate HasProduct(ps: seq<Product>, id: string) {
    exists i :: 0 <= i < |ps| && ps[i].id == id
  }

  predicate HasLineFor(lines: seq<CartLine>, productId: string) {
    exists i :: 0 <= i < |lines| && lines[i].productId == productId
  }

  predicate HasLineId(lines: seq<CartLine>, id: string) {
    exists i :: 0 <= i < |lines| && lines[i].id == id
  }

  /** `id TEXT PRIMARY KEY` on `products`. */
  ghost predicate DistinctProductIds(ps: seq<Product>) {
    forall i, j :: 0 <= i < j < |ps| ==> ps[i].id != ps[j].id
  }

  /** `id TEXT PRIMARY KEY` on `cart_items`. */
  ghost predicate DistinctLineIds(lines: seq<CartLine>) {
    forall i, j :: 0 <= i < j < |lines| ==> lines[i].id != lines[j].id
  }

  /** At most one cart line per product. */
  ghost predicate OneLinePerProduct(lines: seq<CartLine>) {
    forall i, j :: 0 <= i < j < |lines| ==> lines[i].productId != lines[j].productId
  }

  /** Every line refers to a catalog product (the foreign key on `productId`). */
  ghost predicate LinesInCatalog(lines: seq<CartLine>, ps: seq<Product>) {
    forall i :: 0 <= i < |lines| ==> HasProduct(ps, lines[i].productId)
  }

  /** The invariant the handlers keep on the cart table. */
  ghost predicate CartInvariant(lines: seq<CartLine>, ps: seq<Product>) {
    DistinctLineIds(lines) && OneLinePerProduct(lines) && LinesInCatalog(lines, ps)
  }

  /** `SELECT * FROM products WHERE id = ?`: the first product row with that id, if any. */
  function SelectProduct(ps: seq<Product>, id: string): (r: Option<Product>)
    ensures r.Some? <==> HasProduct(ps, id)
    ensures r.Some? ==> r.value in ps && r.value.id == id
  {
    if ps == [] then None
    else if ps[0].id == id then Some(ps[0])
    else
      var r := SelectProduct(ps[1..], id);
      assert HasProduct(ps, id) ==> HasProduct(ps[1..], id) by {
        if HasProduct(ps, id) {
          var i :| 0 <= i < |ps| && ps[i].id == id;
          assert ps[1..][i - 1].id == id;
        }
      }
      assert HasProduct(ps[1..], id) ==> HasProduct(ps, id) by {
        if HasProduct(ps[1..], id) {
          var i :| 0 <= i < |ps[1..]| && ps[1..][i].id == id;
          assert ps[i + 1].id == id;
        }
      }
      r
  }

  /** With distinct product ids, selecting a row's id finds that very row. */
  lemma {:induction false} SelectProductAt(ps: seq<Product>, k: nat)
    requires DistinctProductIds(ps) && k < |ps|
    ensures SelectProduct(ps, ps[k].id) == Some(ps[k])
  {
    if k > 0 {
      assert ps[0].id != ps[k].id;
      assert DistinctProductIds(ps[1..]) by {
        forall i, j | 0 <= i < j < |ps[1..]| ensures ps[1..][i].id != ps[1..][j].id {
          assert ps[1..][i] == ps[i + 1] && ps[1..][j] == ps[j + 1];
        }
      }
      SelectProductAt(ps[1..], k - 1);
      assert ps[1..][k - 1] == ps[k];
    }
  }

  /** `SELECT * FROM cart_items WHERE productId = ?`: the first line for that product, if any. */
  function SelectLineByProduct(lines: seq<CartLine>, productId: string): (r: Option<CartLine>)
    ensures r.Some? <==> HasLineFor(lines, productId)
    ensures r.Some? ==> r.value in lines && r.value.productId == productId
  {
    if lines == [] then None
    else if lines[0].productId == productId then Some(lines[0])
    else
      var r := SelectLineByProduct(lines[1..], productId);
      assert HasLineFor(lines, productId) ==> HasLineFor(lines[1..], productId) by {
        if HasLineFor(lines, productId) {
          var i :| 0 <= i < |lines| && lines[i].productId == productId;
          assert lines[1..][i - 1].productId == productId;
        }
      }
      assert HasLineFor(lines[1..], productId) ==> HasLineFor(lines, productId) by {
        if HasLineFor(lines[1..], productId) {
          var i :| 0 <= i < |lines[1..]| && lines[1..][i].productId == productId;
          assert lines[i + 1].productId == productId;
        }
      }
      r
  }

  /** With one line per product, selecting by a line's product finds that very line. */
  lemma {:induction false} SelectLineAt(lines: seq<CartLine>, k: nat)
    requires OneLinePerProduct(lines) && k < |lines|
    ensures SelectLineByProduct(lines, lines[k].productId) == Some(lines[k])
  {
    if k > 0 {
      assert lines[0].productId != lines[k].productId;
      assert OneLinePerProduct(lines[1..]) by {
        forall i, j | 0 <= i < j < |lines[1..]| ensures lines[1..][i].productId != lines[1..][j].productId {
          assert lines[1..][i] == lines[i + 1] && lines[1..][j] == lines[j + 1];
        }
      }
      SelectLineAt(lines[1..], k - 1);
      assert lines[1..][k - 1] == lines[k];
    }
  }

  /** `UPDATE cart_items SET quantity = ? WHERE productId = ?`: it keeps the number of rows. */
  function UpdateQuantityByProduct(lines: seq<CartLine>, productId: string, quantity: int): (r: seq<CartLine>)
    ensures |r| == |lines|
  {
    if lines == [] then []
    else
      var head := if lines[0].productId == productId then lines[0].(quantity := quantity) else lines[0];
      [head] + UpdateQuantityByProduct(lines[1..], productId, quantity)
  }

  /** The UPDATE sets the quantity of every line for the product and leaves every other line alone. */
  lemma {:induction false} UpdateOnlyMatching(lines: seq<CartLine>, productId: string, quantity: int, i: nat)
    requires i < |lines|
    ensures UpdateQuantityByProduct(lines, productId, quantity)[i]
         == if lines[i].productId == productId then lines[i].(quantity := quantity) else lines[i]
  {
    if i > 0 {
      UpdateOnlyMatching(lines[1..], productId, quantity, i - 1);
    }
  }

  /** Under one line per product, the UPDATE keyed on a line's product touches exactly that line. */
  lemma UpdateTouchesOneLine(lines: seq<CartLine>, k: nat, quantity: int)
    requires OneLinePerProduct(lines) && k < |lines|
    ensures UpdateQuantityByProduct(lines, lines[k].productId, quantity)
         == lines[k := lines[k].(quantity := quantity)]
  {
    var r := UpdateQuantityByProduct(lines, lines[k].productId, quantity);
    forall i | 0 <= i < |lines| ensures r[i] == lines[k := lines[k].(quantity := quantity)][i] {
      UpdateOnlyMatching(lines, lines[k].productId, quantity, i);
      assert i != k ==> (i < k ==> lines[i].productId != lines[k].productId);
      assert i != k ==> (k < i ==> lines[k].productId != lines[i].productId);
    }
  }

  /** `DELETE FROM cart_items WHERE id = ?`: the lines whose id differs, in their order. */
  function DeleteWhereId(lines: seq<CartLine>, id: string): (r: seq<CartLine>)
    ensures |r| <= |lines|
    ensures !HasLineId(r, id)
    ensures forall l :: l in r ==> l in lines
  {
    if lines == [] then []
    else if lines[0].id == id then DeleteWhereId(lines[1..], id)
    else
      var rest := DeleteWhereId(lines[1..], id);
      assert forall i :: 0 < i < |[lines[0]] + rest| ==> ([lines[0]] + rest)[i] == rest[i - 1];
      [lines[0]] + rest
  }

  /** A DELETE whose id matches no line deletes nothing. */
  lemma {:induction false} DeleteAbsent(lines: seq<CartLine>, id: string)
    requires !HasLineId(lines, id)
    ensures DeleteWhereId(lines, id) == lines
  {
    if lines != [] {
      assert lines[0].id != id;
      assert forall i :: 0 <= i < |lines[1..]| ==> lines[1..][i] == lines[i + 1];
      DeleteAbsent(lines[1..], id);
      assert [lines[0]] + lines[1..] == lines;
    }
  }

  /** Under distinct line ids, a DELETE by a line's id removes exactly that line and keeps the others in order. */
  lemma {:induction false} DeleteAt(lines: seq<CartLine>, k: nat)
    requires DistinctLineIds(lines) && k < |lines|
    ensures DeleteWhereId(lines, lines[k].id) == lines[..k] + lines[k + 1..]
  {
    var id := lines[k].id;
    if k == 0 {
      assert forall i :: 0 <= i < |lines[1..]| ==> lines[1..][i] == lines[i + 1];
      DeleteAbsent(lines[1..], id);
    } else {
      assert lines[0].id != id;
      assert DistinctLineIds(lines[1..]) by {
        forall i, j | 0 <= i < j < |lines[1..]| ensures lines[1..][i].id != lines[1..][j].id {
          assert lines[1..][i] == lines[i + 1] && lines[1..][j] == lines[j + 1];
        }
      }
      assert lines[1..][k - 1] == lines[k];
      DeleteAt(lines[1..], k - 1);
      assert lines[1..][..k - 1] + lines[1..][k..] == lines[1..k] + lines[k + 1..];
      assert [lines[0]] + lines[1..k] == lines[..k];
    }
  }

  /** Raising the quantity of one line keeps the cart invariant. */
  lemma MergeKeepsInvariant(lines: seq<CartLine>, ps: seq<Product>, k: nat, quantity: int)
    requires CartInvariant(lines, ps) && k < |lines|
    ensures CartInvariant(lines[k := lines[k].(quantity := quantity)], ps)
  {
  }

  /** Appending a line with a fresh id, for a catalog product that has no line yet, keeps the cart invariant. */
  lemma InsertKeepsInvariant(lines: seq<CartLine>, ps: seq<Product>, line: CartLine)
    requires CartInvariant(lines, ps)
    requires HasProduct(ps, line.productId) && !HasLineFor(lines, line.productId) && !HasLineId(lines, line.id)
    ensures CartInvariant(lines + [line], ps)
  {
  }

  /** Deleting by id keeps the cart invariant. */
  lemma DeleteKeepsInvariant(lines: seq<CartLine>, ps: seq<Product>, id: string)
    requires CartInvariant(lines, ps)
    ensures CartInvariant(DeleteWhereId(lines, id), ps)
  {
    if HasLineId(lines, id) {
      var k :| 0 <= k < |lines| && lines[k].id == id;
      DeleteAt(lines, k);
      var r := lines[..k] + lines[k + 1..];
      assert forall i :: 0 <= i < |r| ==> r[i] == lines[if i < k then i else i + 1];
    } else {
      DeleteAbsent(lines, id);
    }
  }

  /** One row of the cart view's join. */
  function JoinRow(line: CartLine, p: Product): CartRow {
    CartRow(line.id, line.productId, line.quantity, p.name, p.price, p.image)
  }

  /** `SELECT ci.id, ci.productId, ci.quantity, p.name, p.price, p.image
      FROM cart_items ci JOIN products p ON ci.productId = p.id`, in cart-line order.
      An inner join: a line without a product yields no row. */
  function CartJoin(lines: seq<CartLine>, ps: seq<Product>): (rows: seq<CartRow>)
    ensures |rows| <= |lines|
  {
    if lines == [] then []
    else match SelectProduct(ps, lines[0].productId)
      case Some(p) => [JoinRow(lines[0], p)] + CartJoin(lines[1..], ps)
      case None => CartJoin(lines[1..], ps)
  }

  /** When every line refers to a catalog product, the join has one row per line, in order,
      carrying the line's columns and its product's. */
  lemma {:induction false} JoinAligned(lines: seq<CartLine>, ps: seq<Product>)
    requires LinesInCatalog(lines, ps)
    ensures |CartJoin(lines, ps)| == |lines|
    ensures forall k :: 0 <= k < |lines| ==>
      SelectProduct(ps, lines[k].productId).Some? &&
      CartJoin(lines, ps)[k] == JoinRow(lines[k], SelectProduct(ps, lines[k].productId).value)
  {
    if lines != [] {
      assert LinesInCatalog(lines[1..], ps) by {
        forall i | 0 <= i < |lines[1..]| ensures HasProduct(ps, lines[1..][i].productId) {
          assert lines[1..][i] == lines[i + 1];
        }
      }
      JoinAligned(lines[1..], ps);
      assert HasProduct(ps, lines[0].productId);
      forall k | 0 < k < |lines| ensures CartJoin(lines, ps)[k] == CartJoin(lines[1..], ps)[k - 1] {
      }
      assert forall k :: 0 < k < |lines| ==> lines[1..][k - 1] == lines[k];
    }
  }

  function ToOrderItem(row: CartRow): OrderItem {
    OrderItem(row.quantity, row.price, row.name)
  }

  /** `SELECT ci.quantity, p.price, p.name FROM cart_items ci JOIN products p ON ci.productId = p.id`:
      the same inner join as the cart view's, with fewer columns. */
  function OrderJoin(lines: seq<CartLine>, ps: seq<Product>): (items: seq<OrderItem>)
    ensures |items| == |CartJoin(lines, ps)|
  {
    var rows := CartJoin(lines, ps);
    seq(|rows|, i requires 0 <= i < |rows| => ToOrderItem(rows[i]))
  }

  /** When every line refers to a catalog product, checkout's join lists, per line and in order,
      the line's quantity with its product's price and name. */
  lemma OrderJoinAligned(lines: seq<CartLine>, ps: seq<Product>)
    requires LinesInCatalog(lines, ps)
    ensures |OrderJoin(lines, ps)| == |lines|
    ensures forall k :: 0 <= k < |lines| ==>
      SelectProduct(ps, lines[k].productId).Some? &&
      var p := SelectProduct(ps, lines[k].productId).value;
      OrderJoin(lines, ps)[k] == OrderItem(lines[k].quantity, p.price, p.name)
  {
    JoinAligned(lines, ps);
  }
}
