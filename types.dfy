/**
 * The storefront's records (types/index.ts). Two fields the code reads or
 * writes although the declared interfaces lack them are explicit here:
 * `User.role` (set by the auth store) and `Order.paymentStatus` (read by the
 * admin pages, never set by any code, so always None for orders created here).
 */
module Types {
  import opened Wrappers

  /**
   * A catalogue entry. Amounts are whole won. `rating` is a JavaScript number
   * in the source; it is an integer here (for instance tenths of a star).
   */
  datatype Product = Product(
    id: string,
    name: string,
    price: int,
    originalPrice: Option<int>,
    description: string,
    images: seq<string>,
    category: string,
    sizes: seq<string>,
    colors: seq<string>,
    stock: int,
    rating: int,
    reviewCount: int,
    featured: Option<bool>)

  /** One cart line; the line's key is (product.id, selectedSize, selectedColor). */
  datatype CartItem = CartItem(product: Product, quantity: int, selectedSize: string, selectedColor: string)

  datatype Address = Address(postalCode: string, address: string, detailAddress: string, recipient: string, phone: string)

  datatype User = User(id: string, email: string, name: string, phone: Option<string>, address: Option<Address>, role: string)

  datatype OrderStatus = Pending | Confirmed | Shipping | Delivered | Cancelled

  /** The string by which the source spells each status. */
  function StatusName(s: OrderStatus): string {
    match s
    case Pending => "pending"
    case Confirmed => "confirmed"
    case Shipping => "shipping"
    case Delivered => "delivered"
    case Cancelled => "cancelled"
  }

  lemma StatusNameInjective(a: OrderStatus, b: OrderStatus)
    ensures StatusName(a) == StatusName(b) <==> a == b
  {
  }

  datatype Order = Order(
    id: string,
    userId: string,
    items: seq<CartItem>,
    totalAmount: int,
    shippingAddress: Address,
    status: OrderStatus,
    createdAt: string,
    orderNumber: string,
    paymentStatus: Option<string>)
}
