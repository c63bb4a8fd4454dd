/** The Cart collection (models/Cart.js): a cart line, a cart, the schema rules
    a `save()` enforces, and the running total the controllers recompute with
    `items.reduce((acc, item) => acc + item.priceAtAddition * item.quantity, 0)`.
    Prices are integer cents. */
module CartModel {
  import opened Common

  /** One CartItemSchema sub-document. `design` and `customText` are optional. */
  datatype CartItem = CartItem(
    id: Id,
    product: Id,
    size: string,
    color: string,
    design: Option<string>,
    customText: Option<string>,
    quantity: int,
    priceAtAddition: int)

  /** One CartSchema document; `user` is unique, so a user has at most one cart. */
  datatype Cart = Cart(user: Id, items: seq<CartItem>, total: int)

  /** The total a new Cart gets from the schema default. */
  const DefaultTotal: int := 0

  /** CartItemSchema: size in the enum, colour present (a `required` string
      rejects ""), quantity at least 1. product and priceAtAddition are always present here. */
  predicate ItemValid(it: CartItem)
  {
    it.size in SizeEnum && it.color != "" && it.quantity >= 1
  }

  /** What `save()` checks of a cart before it writes it. */
  predicate SchemaValid(c: Cart)
  {
    forall i :: 0 <= i < |c.items| ==> ItemValid(c.items[i])
  }

  function Subtotal(it: CartItem): int
  {
    it.priceAtAddition * it.quantity
  }

  /** Every line has a price of at least 0 and a quantity of at least 1. */
  predicate Priced(items: seq<CartItem>)
  {
    forall i :: 0 <= i < |items| ==> items[i].priceAtAddition >= 0 && items[i].quantity >= 1
  }

  /** Adding `extra` to a line's quantity adds `extra` units at the line's own price. */
  lemma SubtotalAddQuantity(it: CartItem, extra: int)
    ensures Subtotal(it.(quantity := it.quantity + extra)) == Subtotal(it) + it.priceAtAddition * extra
  {
    var p, q := it.priceAtAddition, it.quantity;
    assert p * (q + extra) == p * q + p * extra;
  }

  /** `reduce` with accumulator `acc`, left to right. Over priced lines the
      running sum never drops below the accumulator. */
  function Fold(acc: int, items: seq<CartItem>): (r: int)
    ensures Priced(items) ==> r >= acc
    decreases |items|
  {
    if |items| == 0 then acc else Fold(acc + Subtotal(items[0]), items[1..])
  }

  /** The cart total as the controllers compute it: the schema default for no
      lines, and never negative over priced lines. */
  function Total(items: seq<CartItem>): (r: int)
    ensures |items| == 0 ==> r == DefaultTotal
    ensures Priced(items) ==> r >= 0
  {
    Fold(0, items)
  }

  /** A stored cart: schema-valid, and its total is the fold over its lines. */
  predicate Persistable(c: Cart)
  {
    SchemaValid(c) && c.total == Total(c.items)
  }

  /** Starting the fold from `acc` only shifts the result by `acc`. */
  lemma {:induction false} FoldShift(acc: int, items: seq<CartItem>)
    ensures Fold(acc, items) == acc + Total(items)
    decreases |items|
  {
    if |items| > 0 {
      FoldShift(acc + Subtotal(items[0]), items[1..]);
      FoldShift(Subtotal(items[0]), items[1..]);
    }
  }

  /** The total of two runs of lines is the sum of their totals. */
  lemma {:induction false} TotalConcat(a: seq<CartItem>, b: seq<CartItem>)
    ensures Total(a + b) == Total(a) + Total(b)
  {
    if |a| == 0 {
      assert a + b == b;
    } else {
      assert (a + b)[1..] == a[1..] + b;
      FoldShift(Subtotal(a[0]), a[1..] + b);
      TotalConcat(a[1..], b);
      FoldShift(Subtotal(a[0]), a[1..]);
    }
  }

  /** Pushing a line adds exactly its subtotal. */
  lemma TotalAppend(items: seq<CartItem>, it: CartItem)
    ensures Total(items + [it]) == Total(items) + Subtotal(it)
  {
    TotalConcat(items, [it]);
    assert [it][1..] == [];
    assert Total([it]) == Fold(Subtotal(it), []) == Subtotal(it);
  }

  /** The total splits around any one line: the lines before it, its subtotal, the lines after it. */
  lemma TotalSplit(items: seq<CartItem>, i: nat)
    requires i < |items|
    ensures Total(items) == Total(items[..i]) + Subtotal(items[i]) + Total(items[i + 1..])
  {
    assert items == items[..i] + [items[i]] + items[i + 1..];
    TotalConcat(items[..i] + [items[i]], items[i + 1..]);
    TotalAppend(items[..i], items[i]);
  }

  /** Replacing line `i` changes the total by the difference of the two subtotals. */
  lemma TotalReplace(items: seq<CartItem>, i: nat, it: CartItem)
    requires i < |items|
    ensures Total(items[i := it]) == Total(items) - Subtotal(items[i]) + Subtotal(it)
  {
    var r := items[i := it];
    assert r[..i] == items[..i] && r[i + 1..] == items[i + 1..];
    TotalSplit(items, i);
    TotalSplit(r, i);
  }

  /** Splicing out line `i` takes away exactly its subtotal. */
  lemma TotalRemove(items: seq<CartItem>, i: nat)
    requires i < |items|
    ensures Total(RemoveAt(items, i)) == Total(items) - Subtotal(items[i])
  {
    assert RemoveAt(items, i) == items[..i] + items[i + 1..];
    TotalSplit(items, i);
    TotalConcat(items[..i], items[i + 1..]);
  }
}
