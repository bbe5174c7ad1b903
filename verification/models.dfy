/** The value types the store works on: products, cart lines, delivery
    options and analytics events. */
module Models {

  datatype Option<+T> = None | Some(value: T)

  /** A catalogue entry. Prices and stock are whole currency units and
      whole pieces; the store never changes a product. */
  datatype Product = Product(
    id: int,
    name: string,
    price: int,
    description: string,
    image: Option<string>,
    available: int)

  /** One line of the cart: a product and how many of it. */
  datatype CartItem = CartItem(product: Product, quantity: int)

  /** A delivery preference; only `selected` ever changes. */
  datatype OrderOption = OrderOption(id: string, name: string, selected: bool)

  /** What the order-submission service is sent. */
  datatype Order = Order(items: seq<CartItem>, options: seq<OrderOption>, totalAmount: int)

  datatype EventKind = CartUpdated | OrderSubmitted

  datatype DeliveryStatus = Sent | Failed

  /** An analytics event: a snapshot of the cart lines and of the selected
      options, a timestamp, and the delivery status, which is absent while
      the delivery is still in flight. */
  datatype AnalyticsEvent = AnalyticsEvent(
    kind: EventKind,
    items: seq<CartItem>,
    options: seq<OrderOption>,
    timestamp: int,
    status: Option<DeliveryStatus>)
}
