/** The order fields the payment handlers, the admin dashboard and the admin
    order list read and write. */
module OrderModel {
  import opened Http

  type OrderId = string

  /** The gateway's confirmation as stored on an order. */
  datatype PaymentResult = PaymentResult(
    id: string,
    status: string,
    updateTime: int,
    emailAddress: string,
    razorpayOrderId: string,
    razorpayPaymentId: string,
    razorpaySignature: string)

  datatype Order = Order(
    id: OrderId,
    totalPrice: int,
    isPaid: bool,
    paidAt: Option<int>,
    paymentResult: Option<PaymentResult>,
    isDelivered: bool,
    createdAt: int)
}
