/** Client uses of the store, proved from the store's contracts alone. */
module Scenarios {
  import opened Models
  import opened Ledger
  import opened OrderOptions
  import opened Submission
  import opened Stores

  /** Two of a product at 600 make 1200 over two items, which meets the
      minimum; a successful submission then empties the cart and clears the
      options. */
  method CheckoutAboveMinimum(now: int, delivery: Delivery)
    returns (total: int, items: int, met: bool, d: Dispatch, result: OrderResult, emptied: bool)
    ensures total == 1200 && items == 2 && met
    ensures d.Dispatched? && d.order.totalAmount == 1200
    ensures result == OrderResult(true, None) && emptied
  {
    var store := new CartStore();
    var p := Product(1, "Товар 1", 600, "", None, 5);
    store.AddToCart(p, 2, now, delivery);
    assert store.cartItems == [CartItem(p, 2)];
    SingleLineTotals(CartItem(p, 2));
    total, items, met := TotalAmount(store.cartItems), TotalItems(store.cartItems), IsMinimumOrderMet(store.cartItems);
    d := store.SubmitOrder();
    result := store.ResolveSubmission(Responded(true, None), now, delivery);
    UnselectAllSpec(InitialOptions());
    emptied := store.cartItems == [] && SelectedOptions(store.orderOptions) == [];
  }

  /** One product at 100 is refused with the minimum-amount message, and the
      line stays in the cart. */
  method CheckoutBelowMinimum(now: int, delivery: Delivery)
    returns (total: int, d: Dispatch, kept: seq<CartItem>)
    ensures total == 100
    ensures d == Rejected(OrderResult(false, Some(MinimumAmountMessage)))
    ensures |kept| == 1 && kept[0].quantity == 1
  {
    var store := new CartStore();
    var p := Product(2, "Товар 2", 100, "", None, 5);
    store.AddToCart(p, 1, now, delivery);
    assert store.cartItems == [CartItem(p, 1)];
    SingleLineTotals(CartItem(p, 1));
    total := TotalAmount(store.cartItems);
    d := store.SubmitOrder();
    kept := store.cartItems;
  }

  /** Toggling "leave_at_door" twice restores the options and logs exactly
      two CART_UPDATED events. */
  method ToggleLeaveAtDoorTwice(now1: int, now2: int, d1: Delivery, d2: Delivery)
    returns (restored: bool, logged: nat, kinds: seq<EventKind>)
    ensures restored && logged == 2 && kinds == [CartUpdated, CartUpdated]
  {
    var store := new CartStore();
    store.ToggleOption("leave_at_door", now1, d1);
    store.ToggleOption("leave_at_door", now2, d2);
    ToggleTwice(InitialOptions(), "leave_at_door");
    FindOptionSameIds(Toggle(InitialOptions(), "leave_at_door"), InitialOptions(), "leave_at_door");
    restored := store.orderOptions == InitialOptions();
    logged := |store.analyticsEvents|;
    kinds := [store.analyticsEvents[0].kind, store.analyticsEvents[1].kind];
  }

  /** Adding the same product twice: the first event still reads the one
      piece the cart held when it was taken. */
  method SnapshotKeepsQuantity(p: Product, now: int, delivery: Delivery) returns (atEmission: int, logged: int)
    ensures atEmission == 1 && logged == 1
  {
    var store := new CartStore();
    store.AddToCart(p, 1, now, delivery);
    atEmission := store.analyticsEvents[0].items[0].quantity;
    store.AddToCart(p, 1, now, delivery);
    logged := store.analyticsEvents[0].items[0].quantity;
  }

  /** Toggling "leave_at_door" twice: the option list of the first event
      still holds the option as selected, as it was when the event was
      taken. */
  method SelectionSnapshotKeepsFlag(now1: int, now2: int, d1: Delivery, d2: Delivery)
    returns (atEmission: bool, logged: bool)
    ensures atEmission && logged
  {
    var init := InitialOptions();
    ToggleSpec(init, "leave_at_door");
    assert init[0].id == Ids(init)[0] == "leave_at_door";
    var toggled := Toggle(init, "leave_at_door");
    assert toggled[0].selected;
    var store := new CartStore();
    store.ToggleOption("leave_at_door", now1, d1);
    var first := store.analyticsEvents[0].options;
    assert toggled[0] in first;
    atEmission := first[0].selected;
    store.ToggleOption("leave_at_door", now2, d2);
    logged := store.analyticsEvents[0].options[0].selected;
  }
}
