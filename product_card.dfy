/**
 * The catalogue card (components/ProductCard.tsx): its initial size and colour
 * selection, the quick-add button and the discount badge.
 */
module ProductCard {
  import opened Wrappers
  import opened Types
  import opened Cart

  /** `s[0]`, which is `undefined` for an empty list. */
  function First(s: seq<string>): (r: Option<string>)
    ensures r.None? <==> s == []
    ensures r.Some? ==> r.value == s[0]
  {
    if s == [] then None else Some(s[0])
  }

  /** The key part a selection contributes to a cart line; `undefined` is written "" here. */
  function SelectionKey(selection: Option<string>): string {
    selection.GetOr("")
  }

  /** ⌊a / b⌋ for either sign of `b`. */
  function FloorDiv(a: int, b: int): (q: int)
    requires b != 0
    ensures b > 0 ==> b * q <= a < b * (q + 1)
    ensures b < 0 ==> b * q >= a > b * (q + 1)
  {
    if b > 0 then a / b else (-a) / (-b)
  }

  /**
   * `Math.round(((o - price) / o) * 100)` when `originalPrice` is a truthy `o`,
   * else 0. `Math.round(x)` is ⌊x + 1/2⌋, and x + 1/2 is the exact fraction
   * (200·(o − price) + o) / (2·o).
   */
  function DiscountRate(price: int, originalPrice: Option<int>): (rate: int)
    ensures originalPrice.None? || originalPrice.value == 0 ==> rate == 0
    ensures originalPrice.Some? && originalPrice.value > 0 ==>
      var o := originalPrice.value;
      2 * o * rate <= 200 * (o - price) + o < 2 * o * (rate + 1)
    ensures originalPrice.Some? && originalPrice.value < 0 ==>
      var o := originalPrice.value;
      2 * o * rate >= 200 * (o - price) + o > 2 * o * (rate + 1)
  {
    match originalPrice
    case None => 0
    case Some(o) => if o == 0 then 0 else FloorDiv(200 * (o - price) + o, 2 * o)
  }

  lemma MulLeftMono(a: int, b: int, c: int)
    requires a > 0 && b <= c
    ensures a * b <= a * c
  {
  }

  /** A price between nothing and the original price gives a rate between 0 and 100. */
  lemma DiscountRateInRange(price: int, o: int)
    requires 0 <= price <= o && o > 0
    ensures 0 <= DiscountRate(price, Some(o)) <= 100
  {
    var rate := DiscountRate(price, Some(o));
    if rate < 0 {
      MulLeftMono(2 * o, rate + 1, 0);
      assert false;
    }
    if rate > 100 {
      MulLeftMono(2 * o, 101, rate);
      assert false;
    }
  }

  predicate ShowsDiscountBadge(price: int, originalPrice: Option<int>) {
    DiscountRate(price, originalPrice) > 0
  }

  /**
   * With a positive original price, the badge shows exactly when the price is
   * at least half a percent below it; in particular never when the price is
   * not below the original.
   */
  lemma BadgeIffHalfPercentOff(price: int, o: int)
    requires o > 0
    ensures ShowsDiscountBadge(price, Some(o)) <==> 200 * (o - price) >= o
    ensures price >= o ==> !ShowsDiscountBadge(price, Some(o))
  {
    var rate := DiscountRate(price, Some(o));
    if rate >= 1 {
      MulLeftMono(2 * o, 1, rate);
    } else {
      MulLeftMono(2 * o, rate + 1, 1);
    }
  }

  /** No original price, or a zero one, never shows a badge. */
  lemma NoOriginalNoBadge(price: int, originalPrice: Option<int>)
    requires originalPrice.None? || originalPrice == Some(0)
    ensures !ShowsDiscountBadge(price, originalPrice)
  {
  }

  /** One card's state: the product it shows and its size and colour selection. */
  class Card {
    const product: Product
    var selectedSize: Option<string>
    var selectedColor: Option<string>

    /** The selections start at the product's first size and first colour. */
    constructor(product: Product)
      ensures this.product == product
      ensures selectedSize == First(product.sizes) && selectedColor == First(product.colors)
    {
      this.product := product;
      selectedSize := First(product.sizes);
      selectedColor := First(product.colors);
    }

    /** `addItem(product, 1, selectedSize, selectedColor)`. */
    method QuickAdd(cart: CartStore)
      modifies cart
      ensures cart.items == AddLine(old(cart.items), product, 1, SelectionKey(selectedSize), SelectionKey(selectedColor))
      ensures UniqueLines(old(cart.items)) ==> UniqueLines(cart.items)
    {
      cart.AddItem(product, 1, SelectionKey(selectedSize), SelectionKey(selectedColor));
    }
  }
}
