/** The option set: the four delivery preferences the store is created with.
    Options are never added or removed; only their `selected` flag flips. */
module OrderOptions {
  import opened Models

  /** The identifiers of the fixed options, in the store's order. */
  const FixedOptionIds: seq<string> := ["leave_at_door", "call_on_delivery", "contactless", "dont_ring"]

  /** The identifiers of `options`, position by position. */
  function Ids(options: seq<OrderOption>): (r: seq<string>)
    ensures |r| == |options|
    ensures forall j :: 0 <= j < |options| ==> r[j] == options[j].id
  {
    seq(|options|, j requires 0 <= j < |options| => options[j].id)
  }

  ghost predicate DistinctIds(options: seq<OrderOption>) {
    forall i, j :: 0 <= i < j < |options| ==> options[i].id != options[j].id
  }

  /** The options as the store creates them: the fixed four, none selected. */
  function InitialOptions(): (r: seq<OrderOption>)
    ensures Ids(r) == FixedOptionIds
    ensures DistinctIds(r)
    ensures SelectedOptions(r) == []
  {
    [ OrderOption("leave_at_door", "Оставить у двери", false),
      OrderOption("call_on_delivery", "Позвонить при доставке", false),
      OrderOption("contactless", "Бесконтактная доставка", false),
      OrderOption("dont_ring", "Не звонить в дверь", false) ]
  }

  /** The `selectedOptions` getter: the options whose flag is set, in order. */
  function SelectedOptions(options: seq<OrderOption>): (r: seq<OrderOption>)
    ensures |r| <= |options|
    ensures forall x :: x in r <==> x in options && x.selected
  {
    if options == [] then []
    else (if options[0].selected then [options[0]] else []) + SelectedOptions(options[1..])
  }

  /** The first option with identifier `id`. */
  function FindOption(options: seq<OrderOption>, id: string): (r: Option<nat>)
    ensures r.Some? ==> r.value < |options| && options[r.value].id == id
    ensures r.Some? ==> forall j :: 0 <= j < r.value ==> options[j].id != id
    ensures r.None? <==> forall j :: 0 <= j < |options| ==> options[j].id != id
  {
    if options == [] then None
    else if options[0].id == id then Some(0)
    else match FindOption(options[1..], id)
      case None => None
      case Some(k) => Some(k + 1)
  }

  /** `toggleOption`: flip the flag of the option found, if any. */
  function Toggle(options: seq<OrderOption>, id: string): (r: seq<OrderOption>)
    ensures Ids(r) == Ids(options)
    ensures forall j :: 0 <= j < |r| && r[j].id != id ==> r[j] == options[j]
  {
    match FindOption(options, id)
    case None => options
    case Some(i) => options[i := options[i].(selected := !options[i].selected)]
  }

  /** The reset done on a successful order and on `clearCart`. */
  function UnselectAll(options: seq<OrderOption>): (r: seq<OrderOption>)
    ensures Ids(r) == Ids(options)
    ensures forall j :: 0 <= j < |r| ==> !r[j].selected && r[j].name == options[j].name
  {
    seq(|options|, j requires 0 <= j < |options| => options[j].(selected := false))
  }

  // ---------------------------------------------------------------------

  /** Options that agree position by position on their identifiers agree on
      where the first option of every identifier is. */
  lemma FindOptionSameIds(a: seq<OrderOption>, b: seq<OrderOption>, id: string)
    requires Ids(a) == Ids(b)
    ensures FindOption(a, id) == FindOption(b, id)
  {
    assert forall j :: 0 <= j < |a| ==> a[j].id == Ids(a)[j] == Ids(b)[j] == b[j].id;
  }

  /** With distinct identifiers, toggling flips the flag of exactly the
      options named `id` and changes nothing else, and the set of option
      identifiers is kept. */
  lemma ToggleSpec(options: seq<OrderOption>, id: string)
    requires DistinctIds(options)
    ensures var r := Toggle(options, id);
      && Ids(r) == Ids(options)
      && |r| == |options|
      && forall j :: 0 <= j < |options| ==>
           r[j] == options[j].(selected := if options[j].id == id then !options[j].selected else options[j].selected)
  {
  }

  /** Toggling the same identifier twice restores the options. */
  lemma ToggleTwice(options: seq<OrderOption>, id: string)
    ensures Toggle(Toggle(options, id), id) == options
  {
    match FindOption(options, id)
    case None =>
    case Some(i) =>
      var once := Toggle(options, id);
      FindOptionSameIds(once, options, id);
      assert once[i := once[i].(selected := !once[i].selected)] == options;
  }

  /** Resetting keeps every option and its identifier and name, and leaves
      nothing selected. */
  lemma UnselectAllSpec(options: seq<OrderOption>)
    ensures var r := UnselectAll(options);
      && Ids(r) == Ids(options)
      && SelectedOptions(r) == []
      && forall j :: 0 <= j < |options| ==> r[j].id == options[j].id && r[j].name == options[j].name
  {
    NoneSelected(UnselectAll(options));
  }

  /** Options whose flags are all clear have no selected options. */
  lemma {:induction false} NoneSelected(options: seq<OrderOption>)
    requires forall j :: 0 <= j < |options| ==> !options[j].selected
    ensures SelectedOptions(options) == []
  {
    if options != [] {
      NoneSelected(options[1..]);
    }
  }

  /** Options carrying the fixed identifiers have distinct identifiers. */
  lemma FixedIdsDistinct(options: seq<OrderOption>)
    requires Ids(options) == FixedOptionIds
    ensures DistinctIds(options)
  {
    assert forall j :: 0 <= j < |options| ==> options[j].id == FixedOptionIds[j];
  }

  /** Every selected option is one of the fixed options. */
  lemma SelectedAmongFixed(options: seq<OrderOption>)
    requires Ids(options) == FixedOptionIds
    ensures forall x :: x in SelectedOptions(options) ==> x.id in FixedOptionIds
  {
    forall x | x in SelectedOptions(options) ensures x.id in FixedOptionIds {
      var j :| 0 <= j < |options| && options[j] == x;
      assert Ids(options)[j] == x.id;
    }
  }
}
