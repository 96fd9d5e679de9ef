/**
 * The money rules shared by the cart store, the order store and the cart and
 * checkout pages: the goods total and the shipping fee.
 */
module Pricing {
  import opened Types
  import opened JsArray

  /** Goods totals at or above this amount ship free. */
  const FreeShippingThreshold: int := 50000
  /** The fee charged below the threshold. */
  const FlatShippingFee: int := 3000

  function LineAmount(item: CartItem): int {
    item.product.price * item.quantity
  }

  /** Σ price × quantity, the `reduce` of `getTotalPrice` and of `createOrder`. */
  function GoodsTotal(items: seq<CartItem>): int {
    Sum(items, LineAmount)
  }

  lemma GoodsTotalEmpty()
    ensures GoodsTotal([]) == 0
  {
  }

  /** The goods total of a longer cart is the old total plus the new line's amount. */
  lemma GoodsTotalAppend(items: seq<CartItem>, line: CartItem)
    ensures GoodsTotal(items + [line]) == GoodsTotal(items) + line.product.price * line.quantity
  {
    SumAppend(items, [line], LineAmount);
    assert Sum([line], LineAmount) == LineAmount(line) by {
      assert [line][..0] == [];
    }
  }

  /** `totalPrice >= 50000 ? 0 : 3000`. */
  function ShippingFee(totalPrice: int): (fee: int)
    ensures fee == 0 <==> totalPrice >= FreeShippingThreshold
    ensures fee == FlatShippingFee <==> totalPrice < FreeShippingThreshold
  {
    if totalPrice >= FreeShippingThreshold then 0 else FlatShippingFee
  }

  /** The amount shown as the total to pay: goods plus shipping. */
  function FinalTotal(totalPrice: int): (total: int)
    ensures total - totalPrice == 0 || total - totalPrice == FlatShippingFee
    ensures total == totalPrice <==> totalPrice >= FreeShippingThreshold
  {
    totalPrice + ShippingFee(totalPrice)
  }

  /**
   * Just below the threshold the customer pays more in total than at the
   * threshold: the final total is not monotonic in the goods total.
   */
  lemma FinalTotalDropsAtThreshold(below: int)
    requires FreeShippingThreshold - FlatShippingFee < below < FreeShippingThreshold
    ensures FinalTotal(below) > FinalTotal(FreeShippingThreshold)
  {
  }
}
