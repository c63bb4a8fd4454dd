/** An order document as orderController.js and paymentController.js write
    it. models/Order.js is not part of this model: the fields are the ones the
    controllers set. Prices are integer cents. */
module OrderModel {
  import opened Common

  datatype PaymentStatus = Pending | Paid | Failed

  /** One order line: the cart line's choices and its price frozen at checkout. */
  datatype OrderItem = OrderItem(
    product: Id,
    size: string,
    color: string,
    design: Option<string>,
    customText: Option<string>,
    quantity: int,
    priceAtPurchase: int)

  /** `paymentDetails` is one of two shapes, never a merge of both. */
  datatype PaymentDetails =
    | Approved(transactionId: string, timestamp: nat)
    | Declined(error: string, timestamp: nat)

  /** `shippingDetails` is stored as the client sent it. */
  type ShippingDetails = map<string, string>

  datatype Order = Order(
    user: Id,
    orderId: string,
    items: seq<OrderItem>,
    shippingDetails: ShippingDetails,
    totalAmount: int,
    paymentStatus: PaymentStatus,
    paymentDetails: Option<PaymentDetails>,
    orderStatus: Option<string>)

  /** Sum of `priceAtPurchase * quantity` over the lines, left to right. */
  function LinesTotal(items: seq<OrderItem>): int
    decreases |items|
  {
    if |items| == 0 then 0 else items[0].priceAtPurchase * items[0].quantity + LinesTotal(items[1..])
  }
}
