/** The cart/order store: one mutable object owning the catalogue, the cart
    lines, the delivery options, the analytics log, the loading flag and
    the current error message.

    Each asynchronous operation is split where it awaits an external
    service. The outcome of that service is a parameter of the step that
    resolves it: `Delivery` for the analytics service, `ServiceOutcome`
    for the order-submission service, the catalogue for the product
    supplier. The clock reading of each event is the parameter `now`. */
module Stores {
  import opened Models
  import opened Ledger
  import opened OrderOptions
  import opened Submission

  /** How the call to the analytics delivery service ends: it answers
      whether the event was delivered, or it throws. */
  datatype Delivery = Delivered(ok: bool) | DeliveryThrew

  /** What the synchronous half of `submitOrder` ends in: a refusal by one
      of the guards, or the order sent to the service. */
  datatype Dispatch = Rejected(result: OrderResult) | Dispatched(order: Order)

  /** The status recorded for a delivery attempt. */
  function StatusOf(d: Delivery): (s: DeliveryStatus)
    ensures s == Sent <==> d == Delivered(true)
  {
    match d
    case Delivered(ok) => if ok then Sent else Failed
    case DeliveryThrew => Failed
  }

  /** The event `sendAnalyticsEvent` logs: the cart lines and the selected
      options at the time of the call, and the delivery status. */
  function Logged(kind: EventKind, items: seq<CartItem>, options: seq<OrderOption>, now: int, d: Delivery): (e: AnalyticsEvent)
    ensures e.kind == kind && e.items == items && e.timestamp == now
    ensures forall x :: x in e.options <==> x in options && x.selected
    ensures e.status.Some? && (e.status.value == Sent <==> d == Delivered(true))
  {
    AnalyticsEvent(kind, items, SelectedOptions(options), now, Some(StatusOf(d)))
  }

  class CartStore {
    var products: seq<Product>
    var cartItems: seq<CartItem>
    var orderOptions: seq<OrderOption>
    var analyticsEvents: seq<AnalyticsEvent>
    var isLoading: bool
    var error: Option<string>

    /** At most one line per product; always the four fixed options; every
        logged event carries its delivery status. */
    ghost predicate Valid()
      reads this
    {
      && UniqueIds(cartItems)
      && Ids(orderOptions) == FixedOptionIds
      && forall e :: e in analyticsEvents ==> e.status.Some?
    }

    /** A new store, with the synchronous half of `loadProducts` done: the
        store is loading and has no error. */
    constructor ()
      ensures Valid()
      ensures products == [] && cartItems == [] && orderOptions == InitialOptions()
      ensures analyticsEvents == []
      ensures isLoading && error == None
    {
      products := [];
      cartItems := [];
      orderOptions := InitialOptions();
      analyticsEvents := [];
      isLoading := true;
      error := None;
    }

    /** The resolved half of `loadProducts`: the catalogue the supplier gave,
        or None when it failed. */
    method ProductsLoaded(catalogue: Option<seq<Product>>)
      requires Valid()
      modifies this
      ensures Valid()
      ensures !isLoading
      ensures catalogue.Some? ==> products == catalogue.value && error == old(error)
      ensures catalogue.None? ==> products == old(products) && error == Some(LoadFailedMessage)
      ensures cartItems == old(cartItems) && orderOptions == old(orderOptions)
      ensures analyticsEvents == old(analyticsEvents)
    {
      match catalogue
      case Some(ps) =>
        products := ps;
        isLoading := false;
      case None =>
        error := Some(LoadFailedMessage);
        isLoading := false;
    }

    /** `sendAnalyticsEvent`, with both halves taken as one step: exactly
        one event is appended, SENT iff the service answered true. */
    method SendAnalyticsEvent(kind: EventKind, now: int, delivery: Delivery) returns (success: bool)
      requires Valid()
      modifies this
      ensures Valid()
      ensures success <==> delivery == Delivered(true)
      ensures analyticsEvents == old(analyticsEvents) + [Logged(kind, cartItems, orderOptions, now, delivery)]
      ensures cartItems == old(cartItems) && orderOptions == old(orderOptions)
      ensures products == old(products) && isLoading == old(isLoading) && error == old(error)
    {
      var event := AnalyticsEvent(kind, cartItems, SelectedOptions(orderOptions), now, None);
      match delivery
      case Delivered(ok) =>
        event := event.(status := Some(if ok then Sent else Failed));
        analyticsEvents := analyticsEvents + [event];
        success := ok;
      case DeliveryThrew =>
        event := event.(status := Some(Failed));
        analyticsEvents := analyticsEvents + [event];
        success := false;
    }

    /** `addToCart`: grow the product's line or append one, then log a
        CART_UPDATED event. */
    method AddToCart(product: Product, quantity: int, now: int, delivery: Delivery)
      requires Valid()
      modifies this
      ensures Valid()
      ensures cartItems == AddLine(old(cartItems), product, quantity)
      ensures analyticsEvents == old(analyticsEvents) + [Logged(CartUpdated, cartItems, orderOptions, now, delivery)]
      ensures orderOptions == old(orderOptions)
      ensures products == old(products) && isLoading == old(isLoading) && error == old(error)
    {
      AddLineSpec(cartItems, product, quantity);
      match FindLine(cartItems, product.id) {
        case Some(i) =>
          cartItems := cartItems[i := cartItems[i].(quantity := cartItems[i].quantity + quantity)];
        case None =>
          cartItems := cartItems + [CartItem(product, quantity)];
      }
      var _ := SendAnalyticsEvent(CartUpdated, now, delivery);
    }

    /** `removeFromCart`: drop the product's lines, then log a CART_UPDATED
        event, also when the product was absent. */
    method RemoveFromCart(productId: int, now: int, delivery: Delivery)
      requires Valid()
      modifies this
      ensures Valid()
      ensures cartItems == RemoveLines(old(cartItems), productId)
      ensures analyticsEvents == old(analyticsEvents) + [Logged(CartUpdated, cartItems, orderOptions, now, delivery)]
      ensures orderOptions == old(orderOptions)
      ensures products == old(products) && isLoading == old(isLoading) && error == old(error)
    {
      RemoveLinesKeepsInvariants(cartItems, productId);
      cartItems := RemoveLines(cartItems, productId);
      var _ := SendAnalyticsEvent(CartUpdated, now, delivery);
    }

    /** `updateQuantity`: on a present product, remove it when `quantity`
        is not positive, else overwrite its quantity; each logs one
        CART_UPDATED event. An absent product changes nothing at all. */
    method UpdateQuantity(productId: int, quantity: int, now: int, delivery: Delivery)
      requires Valid()
      modifies this
      ensures Valid()
      ensures cartItems == UpdateLines(old(cartItems), productId, quantity)
      ensures FindLine(old(cartItems), productId).None? ==> analyticsEvents == old(analyticsEvents)
      ensures FindLine(old(cartItems), productId).Some? ==>
        analyticsEvents == old(analyticsEvents) + [Logged(CartUpdated, cartItems, orderOptions, now, delivery)]
      ensures orderOptions == old(orderOptions)
      ensures products == old(products) && isLoading == old(isLoading) && error == old(error)
    {
      UpdateLinesSpec(cartItems, productId, quantity);
      match FindLine(cartItems, productId)
      case None =>
      case Some(i) =>
        if quantity <= 0 {
          RemoveFromCart(productId, now, delivery);
        } else {
          cartItems := cartItems[i := cartItems[i].(quantity := quantity)];
          var _ := SendAnalyticsEvent(CartUpdated, now, delivery);
        }
    }

    /** `toggleOption`: flip the flag of a known option and log one
        CART_UPDATED event; an unknown identifier changes nothing at all. */
    method ToggleOption(optionId: string, now: int, delivery: Delivery)
      requires Valid()
      modifies this
      ensures Valid()
      ensures orderOptions == Toggle(old(orderOptions), optionId)
      ensures FindOption(old(orderOptions), optionId).None? ==> analyticsEvents == old(analyticsEvents)
      ensures FindOption(old(orderOptions), optionId).Some? ==>
        analyticsEvents == old(analyticsEvents) + [Logged(CartUpdated, cartItems, orderOptions, now, delivery)]
      ensures cartItems == old(cartItems)
      ensures products == old(products) && isLoading == old(isLoading) && error == old(error)
    {
      FixedIdsDistinct(orderOptions);
      ToggleSpec(orderOptions, optionId);
      match FindOption(orderOptions, optionId)
      case None =>
      case Some(i) =>
        orderOptions := orderOptions[i := orderOptions[i].(selected := !orderOptions[i].selected)];
        var _ := SendAnalyticsEvent(CartUpdated, now, delivery);
    }

    /** Clear the flag of every option, one option after the other. */
    method UnselectOptions()
      requires Valid()
      modifies this
      ensures Valid()
      ensures orderOptions == UnselectAll(old(orderOptions))
      ensures cartItems == old(cartItems) && analyticsEvents == old(analyticsEvents)
      ensures products == old(products) && isLoading == old(isLoading) && error == old(error)
    {
      var options := orderOptions;
      var i := 0;
      while i < |options|
        invariant 0 <= i <= |options| == |orderOptions|
        invariant forall j :: 0 <= j < i ==> options[j] == orderOptions[j].(selected := false)
        invariant forall j :: i <= j < |options| ==> options[j] == orderOptions[j]
      {
        options := options[i := options[i].(selected := false)];
        i := i + 1;
      }
      UnselectAllSpec(orderOptions);
      orderOptions := options;
    }

    /** `clearCart`: empty the cart and unselect every option, logging
        nothing. */
    method ClearCart()
      requires Valid()
      modifies this
      ensures Valid()
      ensures cartItems == [] && orderOptions == UnselectAll(old(orderOptions))
      ensures analyticsEvents == old(analyticsEvents)
      ensures products == old(products) && isLoading == old(isLoading) && error == old(error)
    {
      cartItems := [];
      UnselectOptions();
    }

    /** The synchronous half of `submitOrder`: the empty-cart guard, then
        the minimum-amount guard, each setting the error and refusing
        without contacting the service; otherwise the store starts loading,
        clears the error and sends the current lines, selected options and
        total. */
    method SubmitOrder() returns (d: Dispatch)
      requires Valid()
      modifies this
      ensures Valid()
      ensures CheckOrder(cartItems).Some? ==>
        && d == Rejected(OrderResult(false, CheckOrder(cartItems)))
        && error == CheckOrder(cartItems)
        && isLoading == old(isLoading)
      ensures CheckOrder(cartItems).None? ==>
        && d == Dispatched(Order(cartItems, SelectedOptions(orderOptions), TotalAmount(cartItems)))
        && isLoading && error == None
      ensures d.Dispatched? ==> d.order.items != [] && d.order.totalAmount >= MinimumOrder
      ensures cartItems == old(cartItems) && orderOptions == old(orderOptions)
      ensures analyticsEvents == old(analyticsEvents) && products == old(products)
    {
      if |cartItems| == 0 {
        error := Some(EmptyCartMessage);
        return Rejected(OrderResult(false, Some(EmptyCartMessage)));
      }
      if !IsMinimumOrderMet(cartItems) {
        error := Some(MinimumAmountMessage);
        return Rejected(OrderResult(false, Some(MinimumAmountMessage)));
      }
      isLoading := true;
      error := None;
      d := Dispatched(Order(cartItems, SelectedOptions(orderOptions), TotalAmount(cartItems)));
    }

    /** The resolved half of `submitOrder`. When the service responds, one
        ORDER_SUBMITTED event is logged with the cart as it is now; then
        loading stops, and a success empties the cart and unselects every
        option while a failure stores the translated error and keeps cart
        and options for a retry. When the service throws, nothing is
        logged, loading stops and the generic send-failure message is
        stored. */
    method ResolveSubmission(outcome: ServiceOutcome, now: int, delivery: Delivery) returns (r: OrderResult)
      requires Valid()
      modifies this
      ensures Valid()
      ensures !isLoading && products == old(products)
      ensures outcome.Threw? ==>
        && r == OrderResult(false, Some(SendFailedMessage))
        && error == Some(SendFailedMessage)
        && analyticsEvents == old(analyticsEvents)
        && cartItems == old(cartItems) && orderOptions == old(orderOptions)
      ensures outcome.Responded? ==>
        && r == OrderResult(outcome.success, outcome.code)
        && analyticsEvents == old(analyticsEvents) + [Logged(OrderSubmitted, old(cartItems), old(orderOptions), now, delivery)]
      ensures outcome.Responded? && outcome.success ==>
        && cartItems == [] && orderOptions == UnselectAll(old(orderOptions))
        && error == old(error)
      ensures outcome.Responded? && !outcome.success ==>
        && cartItems == old(cartItems) && orderOptions == old(orderOptions)
        && error == Some(TranslateError(FailureCode(outcome.code)))
    {
      match outcome
      case Threw =>
        isLoading := false;
        error := Some(SendFailedMessage);
        r := OrderResult(false, Some(SendFailedMessage));
      case Responded(success, code) =>
        var _ := SendAnalyticsEvent(OrderSubmitted, now, delivery);
        isLoading := false;
        if success {
          cartItems := [];
          UnselectOptions();
        } else {
          error := Some(TranslateError(FailureCode(code)));
        }
        r := OrderResult(success, code);
    }
  }
}
