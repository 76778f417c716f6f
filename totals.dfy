/** The cart's aggregates. `Sum` is the `reduce((acc, x) => acc + f(x), 0)`
    fold the handlers use; `ItemCount` and `CartTotal` are the reference
    definitions over the cart lines themselves, against which the folds over
    the joined rows are proved. */
module Totals {
  import opened Tables

  /** The sum of `f` over `s`; `SumLeftFold` shows it is the fold `reduce` computes. */
  function Sum<T>(s: seq<T>, f: T -> int): int {
    if s == [] then 0 else f(s[0]) + Sum(s[1..], f)
  }

  lemma {:induction false} SumAppend<T>(a: seq<T>, b: seq<T>, f: T -> int)
    ensures Sum(a + b, f) == Sum(a, f) + Sum(b, f)
  {
    if a == [] {
      assert a + b == b;
    } else {
      assert (a + b)[0] == a[0];
      assert (a + b)[1..] == a[1..] + b;
      SumAppend(a[1..], b, f);
    }
  }

  /** Replacing one element changes the sum by the difference of the two terms. */
  lemma {:induction false} SumUpdate<T>(s: seq<T>, k: nat, x: T, f: T -> int)
    requires k < |s|
    ensures Sum(s[k := x], f) == Sum(s, f) - f(s[k]) + f(x)
  {
    if k == 0 {
      assert s[k := x][1..] == s[1..];
    } else {
      assert s[k := x][1..] == s[1..][k - 1 := x];
      SumUpdate(s[1..], k - 1, x, f);
    }
  }

  /** Removing one element lowers the sum by its term. */
  lemma SumRemove<T>(s: seq<T>, k: nat, f: T -> int)
    requires k < |s|
    ensures Sum(s[..k] + s[k + 1..], f) == Sum(s, f) - f(s[k])
  {
    var pre, x, post := s[..k], s[k], s[k + 1..];
    assert s == (pre + [x]) + post;
    SumAppend(pre + [x], post, f);
    SumAppend(pre, [x], f);
    SumAppend(pre, post, f);
    assert [x][1..] == [];
  }

  /** `Sum` is the left fold `reduce` computes: the sum of all but the last element, plus the last. */
  lemma SumLeftFold<T>(s: seq<T>, f: T -> int)
    requires s != []
    ensures Sum(s, f) == Sum(s[..|s| - 1], f) + f(s[|s| - 1])
  {
    assert s == s[..|s| - 1] + [s[|s| - 1]];
    SumAppend(s[..|s| - 1], [s[|s| - 1]], f);
    assert [s[|s| - 1]][1..] == [];
  }

  /** The `reduce` loop: an accumulator that starts at 0 and adds `f` of each element in turn. */
  method Reduce<T>(s: seq<T>, f: T -> int) returns (acc: int)
    ensures acc == Sum(s, f)
  {
    acc := 0;
    for i := 0 to |s|
      invariant acc == Sum(s[..i], f)
    {
      SumLeftFold(s[..i + 1], f);
      assert s[..i + 1][..i] == s[..i];
      acc := acc + f(s[i]);
    }
    assert s[..|s|] == s;
  }

  function LineQuantity(line: CartLine): int {
    line.quantity
  }

  /** The price of a product, or 0 for an id not in the catalog (a line the inner join drops). */
  function UnitPrice(ps: seq<Product>, productId: string): nat {
    match SelectProduct(ps, productId)
    case Some(p) => p.price
    case None => 0
  }

  /** A line's value: its product's current price times its quantity. */
  function LineValue(ps: seq<Product>): CartLine -> int {
    (line: CartLine) => UnitPrice(ps, line.productId) * line.quantity
  }

  /** The number of items in a cart: the sum of its line quantities. */
  function ItemCount(lines: seq<CartLine>): int {
    Sum(lines, LineQuantity)
  }

  /** The value of a cart: the sum of price times quantity over its lines. */
  function CartTotal(lines: seq<CartLine>, ps: seq<Product>): int {
    Sum(lines, LineValue(ps))
  }

  function RowQuantity(row: CartRow): int {
    row.quantity
  }

  function RowSubtotal(row: CartRow): int {
    row.price * row.quantity
  }

  function ItemSubtotal(item: OrderItem): int {
    item.price * item.quantity
  }

  /** The cart view's `total` fold over the joined rows equals the cart's value.
      No invariant is needed: a line the join drops is worth 0 in `CartTotal` too. */
  lemma {:induction false} JoinTotal(lines: seq<CartLine>, ps: seq<Product>)
    ensures Sum(CartJoin(lines, ps), RowSubtotal) == CartTotal(lines, ps)
  {
    if lines != [] {
      JoinTotal(lines[1..], ps);
      match SelectProduct(ps, lines[0].productId)
      case Some(p) =>
        var row := JoinRow(lines[0], p);
        assert ([row] + CartJoin(lines[1..], ps))[1..] == CartJoin(lines[1..], ps);
      case None =>
    }
  }

  /** The cart view's `itemCount` fold over the joined rows equals the sum of line
      quantities, provided every line refers to a catalog product. */
  lemma {:induction false} JoinCount(lines: seq<CartLine>, ps: seq<Product>)
    requires LinesInCatalog(lines, ps)
    ensures Sum(CartJoin(lines, ps), RowQuantity) == ItemCount(lines)
  {
    if lines != [] {
      assert LinesInCatalog(lines[1..], ps) by {
        assert forall i :: 0 <= i < |lines[1..]| ==> lines[1..][i] == lines[i + 1];
      }
      JoinCount(lines[1..], ps);
      assert HasProduct(ps, lines[0].productId);
      var p := SelectProduct(ps, lines[0].productId).value;
      var row := JoinRow(lines[0], p);
      assert ([row] + CartJoin(lines[1..], ps))[1..] == CartJoin(lines[1..], ps);
    }
  }

  lemma {:induction false} SubtotalsProjected(rows: seq<CartRow>)
    ensures Sum(seq(|rows|, i requires 0 <= i < |rows| => ToOrderItem(rows[i])), ItemSubtotal) == Sum(rows, RowSubtotal)
  {
    var items := seq(|rows|, i requires 0 <= i < |rows| => ToOrderItem(rows[i]));
    if rows != [] {
      var tail := seq(|rows[1..]|, i requires 0 <= i < |rows[1..]| => ToOrderItem(rows[1..][i]));
      assert items[1..] == tail;
      SubtotalsProjected(rows[1..]);
    }
  }

  /** Checkout's `total` fold over its own join equals the cart's value. */
  lemma OrderTotal(lines: seq<CartLine>, ps: seq<Product>)
    ensures Sum(OrderJoin(lines, ps), ItemSubtotal) == CartTotal(lines, ps)
  {
    SubtotalsProjected(CartJoin(lines, ps));
    JoinTotal(lines, ps);
  }

  /** Raising line `k`'s quantity by `q` raises the item count by `q` and the
      value by that product's price times `q`; no other term of either sum moves. */
  lemma MergeRaisesTotals(lines: seq<CartLine>, ps: seq<Product>, k: nat, q: int)
    requires k < |lines|
    ensures ItemCount(lines[k := lines[k].(quantity := lines[k].quantity + q)]) == ItemCount(lines) + q
    ensures CartTotal(lines[k := lines[k].(quantity := lines[k].quantity + q)], ps)
         == CartTotal(lines, ps) + UnitPrice(ps, lines[k].productId) * q
  {
    var line := lines[k].(quantity := lines[k].quantity + q);
    SumUpdate(lines, k, line, LineQuantity);
    SumUpdate(lines, k, line, LineValue(ps));
    var price, before := UnitPrice(ps, lines[k].productId), lines[k].quantity;
    assert LineValue(ps)(line) == price * (before + q);
    assert LineValue(ps)(lines[k]) == price * before;
    Distribute(price, before, q);
  }

  /** Distributivity, kept as its own lemma so that the nonlinear step is proved
      apart from the sums. */
  lemma Distribute(a: int, b: int, c: int)
    ensures a * (b + c) == a * b + a * c
  {
  }

  /** Appending a line raises the item count by its quantity and the value by its value. */
  lemma InsertRaisesTotals(lines: seq<CartLine>, ps: seq<Product>, line: CartLine)
    ensures ItemCount(lines + [line]) == ItemCount(lines) + line.quantity
    ensures CartTotal(lines + [line], ps) == CartTotal(lines, ps) + UnitPrice(ps, line.productId) * line.quantity
  {
    SumAppend(lines, [line], LineQuantity);
    SumAppend(lines, [line], LineValue(ps));
    assert [line][1..] == [];
  }

  /** Removing line `k` lowers the item count by its quantity and the value by its value. */
  lemma RemoveLowersTotals(lines: seq<CartLine>, ps: seq<Product>, k: nat)
    requires k < |lines|
    ensures ItemCount(lines[..k] + lines[k + 1..]) == ItemCount(lines) - lines[k].quantity
    ensures CartTotal(lines[..k] + lines[k + 1..], ps)
         == CartTotal(lines, ps) - UnitPrice(ps, lines[k].productId) * lines[k].quantity
  {
    SumRemove(lines, k, LineQuantity);
    SumRemove(lines, k, LineValue(ps));
  }
}
