/** The cart as the source holds it at run time: every line is an object
    whose quantity is updated in place, and the snapshot an analytics event
    takes is a new list holding the SAME line objects. Only `addToCart` and
    the item snapshot are modelled here, and likewise option objects whose
    flag `toggleOption` flips in place after the `filter` snapshot of an
    earlier event; the rest of the model keeps lines and options as values,
    which is the behaviour the event log is meant to have. */
module AliasedSnapshots {
  import opened Models
  import opened OrderOptions

  /** A cart line object. */
  class LineObject {
    const product: Product
    var quantity: int

    constructor (product: Product, quantity: int)
      ensures this.product == product && this.quantity == quantity
    {
      this.product := product;
      this.quantity := quantity;
    }
  }

  /** Where the first line object of product `id` is; `|lines|` when none. */
  function FirstWith(lines: seq<LineObject>, id: int): (r: nat)
    ensures r <= |lines|
    ensures r < |lines| ==> lines[r].product.id == id
    ensures forall j :: 0 <= j < r ==> lines[j].product.id != id
  {
    if lines == [] then 0
    else if lines[0].product.id == id then 0
    else FirstWith(lines[1..], id) + 1
  }

  class AliasingCart {
    var lines: seq<LineObject>
    /** The `items` list of each logged event, oldest first. */
    var eventItems: seq<seq<LineObject>>

    constructor ()
      ensures lines == [] && eventItems == []
    {
      lines := [];
      eventItems := [];
    }

    /** `addToCart` followed by the item snapshot of its analytics event:
        the found line object's quantity grows in place, or a new line
        object is appended; the event keeps a copy of the list of
        references. */
    method AddToCart(product: Product, quantity: int)
      modifies this, set l | l in lines
      ensures var k := FirstWith(old(lines), product.id);
        && (k < |old(lines)| ==> lines == old(lines) && lines[k].quantity == old(lines[k].quantity) + quantity)
        && (k == |old(lines)| ==>
              |lines| == k + 1 && lines[..k] == old(lines) && fresh(lines[k]) &&
              lines[k].product == product && lines[k].quantity == quantity)
      ensures var k := FirstWith(old(lines), product.id);
        forall l :: l in old(lines) && (k == |old(lines)| || l != old(lines)[k]) ==> l.quantity == old(l.quantity)
      ensures eventItems == old(eventItems) + [lines]
    {
      var i := 0;
      while i < |lines| && lines[i].product.id != product.id
        invariant 0 <= i <= |lines|
        invariant forall j :: 0 <= j < i ==> lines[j].product.id != product.id
      {
        i := i + 1;
      }
      if i < |lines| {
        lines[i].quantity := lines[i].quantity + quantity;
      } else {
        var line := new LineObject(product, quantity);
        lines := lines + [line];
      }
      eventItems := eventItems + [lines];
    }
  }

  /** Adding the same product twice: when the first event was taken the
      cart held one piece, yet that event's snapshot now reads two. */
  method SnapshotSeesLaterEdit(p: Product) returns (atEmission: int, logged: int)
    ensures atEmission == 1 && logged == 2
  {
    var cart := new AliasingCart();
    cart.AddToCart(p, 1);
    atEmission := cart.eventItems[0][0].quantity;
    cart.AddToCart(p, 1);
    logged := cart.eventItems[0][0].quantity;
  }

  /** An order option object. */
  class OptionObject {
    const id: string
    var selected: bool

    constructor (id: string, selected: bool)
      ensures this.id == id && this.selected == selected
    {
      this.id := id;
      this.selected := selected;
    }
  }

  /** Where the first option object with `id` is; `|options|` when none. */
  function FirstOption(options: seq<OptionObject>, id: string): (r: nat)
    ensures r <= |options|
    ensures r < |options| ==> options[r].id == id
    ensures forall j :: 0 <= j < r ==> options[j].id != id
  {
    if options == [] then 0
    else if options[0].id == id then 0
    else FirstOption(options[1..], id) + 1
  }

  /** The `filter` on the selected flag: a new list holding the selected
      option objects themselves, in order. */
  function SelectedIn(options: seq<OptionObject>): (r: seq<OptionObject>)
    reads options
    ensures |r| <= |options|
    ensures forall o :: o in r ==> o in options && o.selected
    ensures forall j :: 0 <= j < |options| && options[j].selected ==> options[j] in r
  {
    if options == [] then []
    else if options[0].selected then [options[0]] + SelectedIn(options[1..])
    else SelectedIn(options[1..])
  }

  class AliasingOptions {
    var options: seq<OptionObject>
    /** The `options` list of each logged event, oldest first. */
    var eventOptions: seq<seq<OptionObject>>

    /** The four options of the store, none selected, and no events. */
    constructor ()
      ensures |options| == 4
      ensures forall j :: 0 <= j < 4 ==> options[j].id == FixedOptionIds[j] && !options[j].selected
      ensures forall j :: 0 <= j < 4 ==> fresh(options[j])
      ensures eventOptions == []
    {
      var a := new OptionObject("leave_at_door", false);
      var b := new OptionObject("call_on_delivery", false);
      var c := new OptionObject("contactless", false);
      var d := new OptionObject("dont_ring", false);
      options := [a, b, c, d];
      eventOptions := [];
    }

    /** `toggleOption` followed by the option snapshot of its analytics
        event: the found option object's flag flips in place, and the event
        keeps a new list holding exactly the selected objects themselves
        (their order is not stated). An unknown id
        changes nothing. */
    method ToggleOption(id: string)
      modifies this, set o | o in options
      ensures options == old(options)
      ensures var k := FirstOption(old(options), id);
        && (k < |options| ==>
              options[k].selected == !old(options[k].selected) &&
              |eventOptions| == |old(eventOptions)| + 1 &&
              eventOptions[..|old(eventOptions)|] == old(eventOptions) &&
              (forall o :: o in eventOptions[|old(eventOptions)|] ==> o in options && o.selected) &&
              (forall j :: 0 <= j < |options| && options[j].selected ==> options[j] in eventOptions[|old(eventOptions)|]))
        && (k == |options| ==> eventOptions == old(eventOptions))
        && forall o :: o in old(options) && (k == |options| || o != old(options)[k]) ==> o.selected == old(o.selected)
    {
      var i := 0;
      while i < |options| && options[i].id != id
        invariant 0 <= i <= |options|
        invariant forall j :: 0 <= j < i ==> options[j].id != id
      {
        i := i + 1;
      }
      if i < |options| {
        options[i].selected := !options[i].selected;
        eventOptions := eventOptions + [SelectedIn(options)];
      }
    }
  }

  /** Toggling "leave_at_door" twice: when the first event was taken the
      option was selected, yet that event's snapshot now reads it as not
      selected. */
  method SelectionSnapshotSeesLaterToggle() returns (atEmission: bool, logged: bool)
    ensures atEmission && !logged
  {
    var store := new AliasingOptions();
    store.ToggleOption("leave_at_door");
    assert forall o :: o in store.eventOptions[0] ==> o == store.options[0];
    atEmission := store.eventOptions[0][0].selected;
    store.ToggleOption("leave_at_door");
    logged := store.eventOptions[0][0].selected;
  }
}
