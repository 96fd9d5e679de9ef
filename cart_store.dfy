/**
 * The cart store (store/cartStore.ts): a list of lines, each keyed by
 * (product id, size, colour). The pure functions below give the list each
 * store action leaves behind; `CartStore` holds the list and applies them.
 */
module Cart {
  import opened Types
  import opened JsArray
  import opened Pricing

  /** The test every cart action uses to find a line. */
  predicate IsLine(item: CartItem, productId: string, size: string, color: string) {
    item.product.id == productId && item.selectedSize == size && item.selectedColor == color
  }

  predicate SameKey(a: CartItem, b: CartItem) {
    IsLine(a, b.product.id, b.selectedSize, b.selectedColor)
  }

  /** At most one line per (product id, size, colour). */
  predicate UniqueLines(items: seq<CartItem>) {
    forall i, j :: 0 <= i < j < |items| ==> !SameKey(items[i], items[j])
  }

  /** `items.findIndex(...)` for a key. */
  function FindLine(items: seq<CartItem>, productId: string, size: string, color: string): int {
    FindIndex(items, (item: CartItem) => IsLine(item, productId, size, color))
  }

  function Quantity(item: CartItem): int {
    item.quantity
  }

  /** Σ quantity, the `reduce` of `getTotalItems`. */
  function TotalItems(items: seq<CartItem>): int {
    Sum(items, Quantity)
  }

  function KeyWeight(productId: string, size: string, color: string): CartItem -> int {
    (item: CartItem) => if IsLine(item, productId, size, color) then item.quantity else 0
  }

  /** How many units of one (product id, size, colour) the cart holds, over all its lines. */
  function QuantityOf(items: seq<CartItem>, productId: string, size: string, color: string): int {
    Sum(items, KeyWeight(productId, size, color))
  }

  // ----- addItem -----

  /** The lines after `addItem(product, quantity, size, color)`. */
  function AddLine(items: seq<CartItem>, product: Product, quantity: int, size: string, color: string): seq<CartItem> {
    var i := FindLine(items, product.id, size, color);
    if i >= 0 then items[i := items[i].(quantity := items[i].quantity + quantity)]
    else items + [CartItem(product, quantity, size, color)]
  }

  /** A key already in the cart: its first line gains `quantity`; nothing else moves or changes. */
  lemma AddLineMerges(items: seq<CartItem>, product: Product, quantity: int, size: string, color: string, k: nat)
    requires k < |items| && IsLine(items[k], product.id, size, color)
    ensures var r := AddLine(items, product, quantity, size, color);
      var i := FindLine(items, product.id, size, color);
      && 0 <= i <= k
      && |r| == |items|
      && r[i] == items[i].(quantity := items[i].quantity + quantity)
      && forall j :: 0 <= j < |items| && j != i ==> r[j] == items[j]
  {
  }

  /** A new key: exactly one line is appended at the end, carrying the arguments. */
  lemma AddLineAppends(items: seq<CartItem>, product: Product, quantity: int, size: string, color: string)
    requires forall j :: 0 <= j < |items| ==> !IsLine(items[j], product.id, size, color)
    ensures AddLine(items, product, quantity, size, color) == items + [CartItem(product, quantity, size, color)]
  {
  }

  /** addItem adds `quantity` units of its key and leaves every other key's quantity alone. */
  lemma AddLineQuantityOf(items: seq<CartItem>, product: Product, quantity: int, size: string, color: string,
                          productId: string, sz: string, cl: string)
    ensures QuantityOf(AddLine(items, product, quantity, size, color), productId, sz, cl)
         == QuantityOf(items, productId, sz, cl)
            + (if productId == product.id && sz == size && cl == color then quantity else 0)
  {
    var w := KeyWeight(productId, sz, cl);
    var i := FindLine(items, product.id, size, color);
    if i >= 0 {
      SumUpdate(items, i, items[i].(quantity := items[i].quantity + quantity), w);
    } else {
      SumAppend(items, [CartItem(product, quantity, size, color)], w);
      SumSingleton(CartItem(product, quantity, size, color), w);
    }
  }

  /** addItem raises the item count by `quantity`. */
  lemma AddLineTotalItems(items: seq<CartItem>, product: Product, quantity: int, size: string, color: string)
    ensures TotalItems(AddLine(items, product, quantity, size, color)) == TotalItems(items) + quantity
  {
    var i := FindLine(items, product.id, size, color);
    if i >= 0 {
      SumUpdate(items, i, items[i].(quantity := items[i].quantity + quantity), Quantity);
    } else {
      SumAppend(items, [CartItem(product, quantity, size, color)], Quantity);
      SumSingleton(CartItem(product, quantity, size, color), Quantity);
    }
  }

  /**
   * addItem raises the goods total by `quantity` times a unit price: that of
   * the product object already stored in the merged line, or of `product` for
   * a new line. A merged line keeps the price it was first added at.
   */
  lemma AddLineGoodsTotal(items: seq<CartItem>, product: Product, quantity: int, size: string, color: string)
    ensures var i := FindLine(items, product.id, size, color);
      var unit := if i >= 0 then items[i].product.price else product.price;
      GoodsTotal(AddLine(items, product, quantity, size, color)) == GoodsTotal(items) + unit * quantity
  {
    var i := FindLine(items, product.id, size, color);
    if i >= 0 {
      var x := items[i].(quantity := items[i].quantity + quantity);
      SumUpdate(items, i, x, LineAmount);
      assert LineAmount(x) - LineAmount(items[i]) == items[i].product.price * quantity by {
        assert LineAmount(x) == items[i].product.price * (items[i].quantity + quantity);
      }
    } else {
      GoodsTotalAppend(items, CartItem(product, quantity, size, color));
    }
  }

  lemma AddLineUnique(items: seq<CartItem>, product: Product, quantity: int, size: string, color: string)
    requires UniqueLines(items)
    ensures UniqueLines(AddLine(items, product, quantity, size, color))
  {
    var r := AddLine(items, product, quantity, size, color);
    var i := FindLine(items, product.id, size, color);
    if i >= 0 {
      assert forall j :: 0 <= j < |r| ==> SameKey(r[j], items[j]) && SameKey(items[j], r[j]);
    }
  }

  // ----- removeItem -----

  /** The lines after `removeItem(productId, size, color)`. */
  function RemoveLines(items: seq<CartItem>, productId: string, size: string, color: string): (r: seq<CartItem>)
    ensures forall x :: x in r <==> x in items && !IsLine(x, productId, size, color)
    ensures forall x :: multiset(r)[x] == if IsLine(x, productId, size, color) then 0 else multiset(items)[x]
    ensures IsSubsequence(r, items)
  {
    var keep := (item: CartItem) => !IsLine(item, productId, size, color);
    FilterContents(items, keep);
    FilterSubsequence(items, keep);
    Filter(items, keep)
  }

  /** After removeItem the cart holds none of that key. */
  lemma RemoveLinesQuantityOf(items: seq<CartItem>, productId: string, size: string, color: string)
    ensures QuantityOf(RemoveLines(items, productId, size, color), productId, size, color) == 0
  {
    var r := RemoveLines(items, productId, size, color);
    NoLineMeansZero(r, productId, size, color);
  }

  lemma {:induction false} NoLineMeansZero(items: seq<CartItem>, productId: string, size: string, color: string)
    requires forall x :: x in items ==> !IsLine(x, productId, size, color)
    ensures QuantityOf(items, productId, size, color) == 0
  {
    if items != [] {
      NoLineMeansZero(items[..|items| - 1], productId, size, color);
    }
  }

  lemma {:induction false} RemoveLinesUnique(items: seq<CartItem>, productId: string, size: string, color: string)
    requires UniqueLines(items)
    ensures UniqueLines(RemoveLines(items, productId, size, color))
  {
    if items != [] {
      var init, last := items[..|items| - 1], items[|items| - 1];
      assert UniqueLines(init);
      RemoveLinesUnique(init, productId, size, color);
      var r0 := RemoveLines(init, productId, size, color);
      forall x | x in r0 ensures !SameKey(x, last) {
        var j :| 0 <= j < |init| && init[j] == x;
        assert !SameKey(items[j], items[|items| - 1]);
      }
    }
  }

  /** With one line per key, removing a line's key drops exactly that line. */
  lemma RemoveLinesOneLine(items: seq<CartItem>, k: nat)
    requires UniqueLines(items) && k < |items|
    ensures var key := items[k];
      RemoveLines(items, key.product.id, key.selectedSize, key.selectedColor) == items[..k] + items[k + 1..]
  {
    var key := items[k];
    var p := (item: CartItem) => !IsLine(item, key.product.id, key.selectedSize, key.selectedColor);
    forall j | 0 <= j < |items| && j != k ensures p(items[j]) {
      if j < k {
        assert !SameKey(items[j], items[k]);
      } else {
        assert !SameKey(items[k], items[j]);
      }
    }
    FilterAllBut(items, p, k);
  }

  // ----- updateQuantity -----

  /** The `map` of updateQuantity for a positive quantity: every line with the key gets `quantity`. */
  function SetQuantity(items: seq<CartItem>, productId: string, size: string, color: string, quantity: int): (r: seq<CartItem>)
    ensures |r| == |items|
    ensures forall i :: 0 <= i < |items| ==> SameKey(r[i], items[i]) && r[i].product == items[i].product
    ensures forall i :: 0 <= i < |items| ==>
      if IsLine(items[i], productId, size, color) then r[i].quantity == quantity else r[i] == items[i]
  {
    seq(|items|, i requires 0 <= i < |items| =>
      if IsLine(items[i], productId, size, color) then items[i].(quantity := quantity) else items[i])
  }

  /** The lines after `updateQuantity(productId, size, color, quantity)`. */
  function UpdateLines(items: seq<CartItem>, productId: string, size: string, color: string, quantity: int): seq<CartItem> {
    if quantity <= 0 then RemoveLines(items, productId, size, color)
    else SetQuantity(items, productId, size, color, quantity)
  }

  /** A quantity of zero or less is exactly removeItem on the same key. */
  lemma UpdateNonPositiveIsRemove(items: seq<CartItem>, productId: string, size: string, color: string, quantity: int)
    requires quantity <= 0
    ensures UpdateLines(items, productId, size, color, quantity) == RemoveLines(items, productId, size, color)
  {
  }

  /** A positive quantity for a key that is not in the cart changes nothing. */
  lemma UpdateUnknownKeyIsNoOp(items: seq<CartItem>, productId: string, size: string, color: string, quantity: int)
    requires quantity > 0
    requires forall i :: 0 <= i < |items| ==> !IsLine(items[i], productId, size, color)
    ensures UpdateLines(items, productId, size, color, quantity) == items
  {
  }

  /** With one line per key, setting a quantity touches exactly the one line found. */
  lemma SetQuantityOneLine(items: seq<CartItem>, k: nat, quantity: int)
    requires UniqueLines(items) && k < |items|
    ensures var key := items[k];
      SetQuantity(items, key.product.id, key.selectedSize, key.selectedColor, quantity)
      == items[k := key.(quantity := quantity)]
  {
    var key := items[k];
    var r := SetQuantity(items, key.product.id, key.selectedSize, key.selectedColor, quantity);
    forall j | 0 <= j < |items| && j != k ensures r[j] == items[j] {
      if j < k {
        assert !SameKey(items[j], items[k]);
      } else {
        assert !SameKey(items[k], items[j]);
      }
    }
  }

  lemma UpdateLinesUnique(items: seq<CartItem>, productId: string, size: string, color: string, quantity: int)
    requires UniqueLines(items)
    ensures UniqueLines(UpdateLines(items, productId, size, color, quantity))
  {
    if quantity <= 0 {
      RemoveLinesUnique(items, productId, size, color);
    } else {
      var r := SetQuantity(items, productId, size, color, quantity);
      assert forall j :: 0 <= j < |r| ==> SameKey(r[j], items[j]) && SameKey(items[j], r[j]);
    }
  }

  /** The store: `items` is the zustand state field; persistence is not modelled. */
  class CartStore {
    var items: seq<CartItem>

    constructor()
      ensures items == []
    {
      items := [];
    }

    method AddItem(product: Product, quantity: int, size: string, color: string)
      modifies this
      ensures items == AddLine(old(items), product, quantity, size, color)
      ensures UniqueLines(old(items)) ==> UniqueLines(items)
    {
      if UniqueLines(items) {
        AddLineUnique(items, product, quantity, size, color);
      }
      var i := FindLine(items, product.id, size, color);
      if i >= 0 {
        items := items[i := items[i].(quantity := items[i].quantity + quantity)];
      } else {
        items := items + [CartItem(product, quantity, size, color)];
      }
    }

    method RemoveItem(productId: string, size: string, color: string)
      modifies this
      ensures items == RemoveLines(old(items), productId, size, color)
      ensures UniqueLines(old(items)) ==> UniqueLines(items)
    {
      if UniqueLines(items) {
        RemoveLinesUnique(items, productId, size, color);
      }
      items := RemoveLines(items, productId, size, color);
    }

    method UpdateQuantity(productId: string, size: string, color: string, quantity: int)
      modifies this
      ensures items == UpdateLines(old(items), productId, size, color, quantity)
      ensures UniqueLines(old(items)) ==> UniqueLines(items)
    {
      if UniqueLines(items) {
        UpdateLinesUnique(items, productId, size, color, quantity);
      }
      if quantity <= 0 {
        RemoveItem(productId, size, color);
        return;
      }
      items := SetQuantity(items, productId, size, color, quantity);
    }

    method ClearCart()
      modifies this
      ensures items == []
      ensures GetTotalPrice() == 0 && GetTotalItems() == 0
    {
      items := [];
    }

    function GetTotalPrice(): int
      reads this
    {
      GoodsTotal(items)
    }

    function GetTotalItems(): int
      reads this
    {
      TotalItems(items)
    }
  }
}
