/** The cart ledger: the list of cart lines, the totals derived from it, and
    the pure effect of each cart mutator on the lines. The store's methods
    are specified by these functions. */
module Ledger {
  import opened Models

  /** The minimum order amount, in currency units. */
  const MinimumOrder: int := 1000

  /** What one line contributes to the total amount. */
  function Subtotal(line: CartItem): int {
    line.product.price * line.quantity
  }

  ghost predicate NonNegative(lines: seq<CartItem>) {
    forall i :: 0 <= i < |lines| ==> lines[i].product.price >= 0 && lines[i].quantity >= 0
  }

  ghost predicate AllPositive(lines: seq<CartItem>) {
    forall i :: 0 <= i < |lines| ==> lines[i].quantity > 0
  }

  /** At most one line per product identifier. */
  ghost predicate UniqueIds(lines: seq<CartItem>) {
    forall i, j :: 0 <= i < j < |lines| ==> lines[i].product.id != lines[j].product.id
  }

  /** The `totalAmount` getter: the sum of price × quantity over the lines,
      accumulated from the first line to the last. */
  function TotalAmount(lines: seq<CartItem>): (r: int)
    ensures NonNegative(lines) ==> r >= 0
  {
    if lines == [] then 0
    else TotalAmount(lines[..|lines| - 1]) + Subtotal(lines[|lines| - 1])
  }

  /** The `totalItems` getter: the sum of the quantities. */
  function TotalItems(lines: seq<CartItem>): (r: int)
    ensures NonNegative(lines) ==> r >= 0
    ensures AllPositive(lines) ==> r >= |lines|
  {
    if lines == [] then 0
    else TotalItems(lines[..|lines| - 1]) + lines[|lines| - 1].quantity
  }

  /** The `isMinimumOrderMet` getter. An empty cart never meets it. */
  predicate IsMinimumOrderMet(lines: seq<CartItem>)
    ensures IsMinimumOrderMet(lines) ==> lines != []
  {
    TotalAmount(lines) >= MinimumOrder
  }

  /** The first line for product `id`, as `Array.prototype.find` gives it. */
  function FindLine(lines: seq<CartItem>, id: int): (r: Option<nat>)
    ensures r.Some? ==> r.value < |lines| && lines[r.value].product.id == id
    ensures r.Some? ==> forall j :: 0 <= j < r.value ==> lines[j].product.id != id
    ensures r.None? <==> forall j :: 0 <= j < |lines| ==> lines[j].product.id != id
  {
    if lines == [] then None
    else if lines[0].product.id == id then Some(0)
    else match FindLine(lines[1..], id)
      case None => None
      case Some(k) => Some(k + 1)
  }

  /** The quantity of product `id` in the cart, 0 when it has no line. */
  function QuantityOf(lines: seq<CartItem>, id: int): int {
    match FindLine(lines, id)
    case None => 0
    case Some(i) => lines[i].quantity
  }

  /** What the line for product `id` contributes to the total, 0 when absent. */
  function SubtotalOf(lines: seq<CartItem>, id: int): int {
    match FindLine(lines, id)
    case None => 0
    case Some(i) => Subtotal(lines[i])
  }

  /** `addToCart`: grow the existing line, or append a new one. */
  function AddLine(lines: seq<CartItem>, product: Product, quantity: int): (r: seq<CartItem>)
    ensures |r| == if FindLine(lines, product.id).None? then |lines| + 1 else |lines|
    ensures FindLine(r, product.id).Some?
    ensures forall j :: 0 <= j < |lines| ==> r[j].product == lines[j].product
  {
    match FindLine(lines, product.id)
    case Some(i) =>
      var r := lines[i := lines[i].(quantity := lines[i].quantity + quantity)];
      assert r[i].product.id == product.id;
      r
    case None =>
      var r := lines + [CartItem(product, quantity)];
      assert r[|lines|].product.id == product.id;
      r
  }

  /** `removeFromCart`: keep exactly the lines of other products. */
  function RemoveLines(lines: seq<CartItem>, id: int): (r: seq<CartItem>)
    ensures |r| <= |lines|
    ensures forall j :: 0 <= j < |r| ==> r[j].product.id != id
    ensures forall x :: x in r ==> x in lines
    ensures forall x :: x in lines && x.product.id != id ==> x in r
  {
    if lines == [] then []
    else if lines[0].product.id == id then RemoveLines(lines[1..], id)
    else [lines[0]] + RemoveLines(lines[1..], id)
  }

  /** `updateQuantity`: on a present product, remove its line when the new
      quantity is not positive, else overwrite the quantity; on an absent
      product, nothing. */
  function UpdateLines(lines: seq<CartItem>, id: int, quantity: int): (r: seq<CartItem>)
    ensures |r| <= |lines|
    ensures quantity > 0 ==> |r| == |lines|
    ensures quantity <= 0 ==> FindLine(r, id).None?
    ensures quantity > 0 ==> forall j :: 0 <= j < |r| && r[j].product.id != id ==> r[j] == lines[j]
  {
    match FindLine(lines, id)
    case None => lines
    case Some(i) =>
      if quantity <= 0 then RemoveLines(lines, id)
      else lines[i := lines[i].(quantity := quantity)]
  }

  // ---------------------------------------------------------------------
  // Totals

  lemma {:induction false} TotalsAppend(a: seq<CartItem>, b: seq<CartItem>)
    ensures TotalAmount(a + b) == TotalAmount(a) + TotalAmount(b)
    ensures TotalItems(a + b) == TotalItems(a) + TotalItems(b)
    decreases |b|
  {
    if b == [] {
      assert a + b == a;
    } else {
      var b' := b[..|b| - 1];
      assert (a + b)[..|a + b| - 1] == a + b';
      assert b[..|b| - 1] == b';
      TotalsAppend(a, b');
    }
  }

  lemma SingleLineTotals(x: CartItem)
    ensures TotalAmount([x]) == Subtotal(x) && TotalItems([x]) == x.quantity
  {
    assert [x][..0] == [];
  }

  /** Replacing one line changes the totals by exactly the difference of
      the two lines. */
  lemma TotalsReplace(lines: seq<CartItem>, i: nat, x: CartItem)
    requires i < |lines|
    ensures TotalAmount(lines[i := x]) == TotalAmount(lines) - Subtotal(lines[i]) + Subtotal(x)
    ensures TotalItems(lines[i := x]) == TotalItems(lines) - lines[i].quantity + x.quantity
  {
    var pre, post := lines[..i], lines[i + 1..];
    assert lines == pre + [lines[i]] + post;
    assert lines[i := x] == pre + [x] + post;
    TotalsAppend(pre + [lines[i]], post);
    TotalsAppend(pre, [lines[i]]);
    TotalsAppend(pre + [x], post);
    TotalsAppend(pre, [x]);
    assert [lines[i]][..0] == [] && [x][..0] == [];
  }

  /** Deleting one line lowers the totals by exactly that line. */
  lemma TotalsDelete(lines: seq<CartItem>, i: nat)
    requires i < |lines|
    ensures TotalAmount(lines[..i] + lines[i + 1..]) == TotalAmount(lines) - Subtotal(lines[i])
    ensures TotalItems(lines[..i] + lines[i + 1..]) == TotalItems(lines) - lines[i].quantity
  {
    var pre, post := lines[..i], lines[i + 1..];
    assert lines == lines[..i + 1] + post;
    assert lines[..i + 1][..i] == pre;
    TotalsAppend(lines[..i + 1], post);
    TotalsAppend(pre, post);
  }

  lemma Distribute(p: int, a: int, b: int)
    ensures p * (a + b) == p * a + p * b
  {
  }

  lemma ScaleDifference(p: int, a: int, b: int)
    ensures p * a - p * b == p * (a - b)
  {
  }

  // ---------------------------------------------------------------------
  // Lookup

  /** Lines that agree position by position on their product ids agree on
      where the first line of every product is. */
  lemma FindLineSameIds(a: seq<CartItem>, b: seq<CartItem>, id: int)
    requires |a| == |b|
    requires forall j :: 0 <= j < |a| ==> a[j].product.id == b[j].product.id
    ensures FindLine(a, id) == FindLine(b, id)
  {
  }

  lemma QuantityOfCons(x: CartItem, s: seq<CartItem>, id: int)
    requires x.product.id != id
    ensures QuantityOf([x] + s, id) == QuantityOf(s, id)
  {
    assert ([x] + s)[1..] == s;
  }

  // ---------------------------------------------------------------------
  // addToCart

  /** A present product's line grows by `quantity` and nothing else moves;
      an absent product gets one new line at the end. At most one line per
      product survives, and positive quantities stay positive when a
      positive amount is added. */
  lemma AddLineSpec(lines: seq<CartItem>, product: Product, quantity: int)
    requires UniqueIds(lines)
    ensures var r := AddLine(lines, product, quantity);
      && UniqueIds(r)
      && (FindLine(lines, product.id).Some? ==>
            |r| == |lines| &&
            forall j :: 0 <= j < |lines| ==>
              r[j].product == lines[j].product &&
              r[j].quantity == lines[j].quantity + (if lines[j].product.id == product.id then quantity else 0))
      && (FindLine(lines, product.id).None? ==> r == lines + [CartItem(product, quantity)])
      && (AllPositive(lines) && quantity > 0 ==> AllPositive(r))
  {
  }

  /** The cart's totals after `addToCart`: the item count grows by
      `quantity` and the amount by the line's unit price times `quantity`. */
  lemma AddLineTotals(lines: seq<CartItem>, product: Product, quantity: int)
    ensures TotalItems(AddLine(lines, product, quantity)) == TotalItems(lines) + quantity
    ensures TotalAmount(AddLine(lines, product, quantity)) == TotalAmount(lines) + UnitPrice(lines, product) * quantity
  {
    match FindLine(lines, product.id)
    case Some(i) =>
      var p, q := lines[i].product.price, lines[i].quantity;
      var x := lines[i].(quantity := q + quantity);
      assert AddLine(lines, product, quantity) == lines[i := x];
      TotalsReplace(lines, i, x);
      assert Subtotal(x) == p * (q + quantity);
      Distribute(p, q, quantity);
    case None =>
      var x := CartItem(product, quantity);
      assert AddLine(lines, product, quantity) == lines + [x];
      TotalsAppend(lines, [x]);
      assert [x][..0] == [];
      assert TotalAmount([x]) == product.price * quantity;
  }

  /** Per-product quantities after `addToCart`: the product's grows by
      `quantity`, every other product's stays. */
  lemma AddLineQuantities(lines: seq<CartItem>, product: Product, quantity: int, other: int)
    requires other != product.id
    ensures QuantityOf(AddLine(lines, product, quantity), product.id) == QuantityOf(lines, product.id) + quantity
    ensures QuantityOf(AddLine(lines, product, quantity), other) == QuantityOf(lines, other)
  {
    var r := AddLine(lines, product, quantity);
    match FindLine(lines, product.id)
    case Some(i) =>
      FindLineSameIds(r, lines, product.id);
      FindLineSameIds(r, lines, other);
    case None =>
      assert r[|lines|] == CartItem(product, quantity);
      var f := FindLine(r, other);
      if f.Some? && f.value < |lines| {
        FindLineSameIds(r[..|lines|], lines, other);
      }
  }

  /** The unit price `addToCart` adds to the total: that of the product's
      existing line, else that of the product passed in. */
  function UnitPrice(lines: seq<CartItem>, product: Product): int {
    match FindLine(lines, product.id)
    case None => product.price
    case Some(i) => lines[i].product.price
  }

  // ---------------------------------------------------------------------
  // removeFromCart

  /** Removing an absent product leaves the lines as they were. */
  lemma {:induction false} RemoveLinesAbsent(lines: seq<CartItem>, id: int)
    requires FindLine(lines, id).None?
    ensures RemoveLines(lines, id) == lines
  {
    if lines != [] {
      assert forall j :: 0 <= j < |lines[1..]| ==> lines[1..][j] == lines[j + 1];
      RemoveLinesAbsent(lines[1..], id);
      assert [lines[0]] + lines[1..] == lines;
    }
  }

  /** With one line per product, removing a present product deletes exactly
      its line and keeps every other line in its original order. */
  lemma {:induction false} RemoveLinesAt(lines: seq<CartItem>, id: int, i: nat)
    requires UniqueIds(lines)
    requires FindLine(lines, id) == Some(i)
    ensures RemoveLines(lines, id) == lines[..i] + lines[i + 1..]
  {
    if i == 0 {
      RemoveLinesAbsent(lines[1..], id);
    } else {
      var tail := lines[1..];
      assert FindLine(tail, id) == Some(i - 1);
      RemoveLinesAt(tail, id, i - 1);
      assert [lines[0]] + (tail[..i - 1] + tail[i..]) == lines[..i] + lines[i + 1..];
    }
  }

  /** `removeFromCart` keeps at most one line per product and leaves no
      line with a non-positive quantity that was not there. */
  lemma {:induction false} RemoveLinesKeepsInvariants(lines: seq<CartItem>, id: int)
    ensures UniqueIds(lines) ==> UniqueIds(RemoveLines(lines, id))
    ensures AllPositive(lines) ==> AllPositive(RemoveLines(lines, id))
  {
    if lines != [] {
      var tail := lines[1..];
      RemoveLinesKeepsInvariants(tail, id);
      var rest := RemoveLines(tail, id);
      if lines[0].product.id != id {
        var r := [lines[0]] + rest;
        if UniqueIds(lines) {
          forall a, b | 0 <= a < b < |r| ensures r[a].product.id != r[b].product.id {
            if a == 0 {
              assert r[b] in tail;
            }
          }
        }
        if AllPositive(lines) {
          forall a | 0 <= a < |r| ensures r[a].quantity > 0 {
            assert r[a] in lines;
          }
        }
      }
    }
  }

  /** After `removeFromCart(id)` the product has quantity 0, every other
      product keeps its quantity, and the totals drop by its line. */
  lemma {:induction false} RemoveLinesTotals(lines: seq<CartItem>, id: int, other: int)
    ensures var r := RemoveLines(lines, id);
      && QuantityOf(r, id) == 0
      && (other != id ==> QuantityOf(r, other) == QuantityOf(lines, other))
      && (UniqueIds(lines) ==>
            TotalAmount(r) == TotalAmount(lines) - SubtotalOf(lines, id) &&
            TotalItems(r) == TotalItems(lines) - QuantityOf(lines, id))
  {
    if other != id {
      RemoveLinesOthers(lines, id, other);
    }
    if UniqueIds(lines) {
      match FindLine(lines, id)
      case None =>
        RemoveLinesAbsent(lines, id);
      case Some(i) =>
        RemoveLinesAt(lines, id, i);
        TotalsDelete(lines, i);
    }
  }

  lemma {:induction false} RemoveLinesOthers(lines: seq<CartItem>, id: int, other: int)
    requires other != id
    ensures QuantityOf(RemoveLines(lines, id), other) == QuantityOf(lines, other)
  {
    if lines != [] {
      var tail := lines[1..];
      assert lines == [lines[0]] + tail;
      RemoveLinesOthers(tail, id, other);
      if lines[0].product.id == id {
        QuantityOfCons(lines[0], tail, other);
      } else if lines[0].product.id != other {
        QuantityOfCons(lines[0], tail, other);
        QuantityOfCons(lines[0], RemoveLines(tail, id), other);
      }
    }
  }

  // ---------------------------------------------------------------------
  // updateQuantity

  /** A non-positive quantity makes `updateQuantity` act on the lines
      exactly as `removeFromCart`, whether or not the product is present. */
  lemma UpdateNonPositiveRemoves(lines: seq<CartItem>, id: int, quantity: int)
    requires quantity <= 0
    ensures UpdateLines(lines, id, quantity) == RemoveLines(lines, id)
  {
    if FindLine(lines, id).None? {
      RemoveLinesAbsent(lines, id);
    }
  }

  /** A positive quantity overwrites the quantity of the product's line and
      changes nothing else; an absent product leaves the lines as they
      were. One line per product and positive quantities are kept. */
  lemma UpdateLinesSpec(lines: seq<CartItem>, id: int, quantity: int)
    requires UniqueIds(lines)
    ensures var r := UpdateLines(lines, id, quantity);
      && UniqueIds(r)
      && (AllPositive(lines) ==> AllPositive(r))
      && (quantity > 0 ==>
            |r| == |lines| &&
            forall j :: 0 <= j < |lines| ==>
              r[j] == lines[j].(quantity := if lines[j].product.id == id then quantity else lines[j].quantity))
  {
    RemoveLinesKeepsInvariants(lines, id);
  }

  /** After `updateQuantity(id, q)` with `q` positive on a present product,
      its quantity is `q`, and the totals move by the difference. */
  lemma UpdateLinesTotals(lines: seq<CartItem>, id: int, quantity: int, i: nat)
    requires quantity > 0
    requires FindLine(lines, id) == Some(i)
    ensures var r := UpdateLines(lines, id, quantity);
      && QuantityOf(r, id) == quantity
      && TotalItems(r) == TotalItems(lines) + quantity - lines[i].quantity
      && TotalAmount(r) == TotalAmount(lines) + lines[i].product.price * (quantity - lines[i].quantity)
  {
    var r := lines[i := lines[i].(quantity := quantity)];
    assert UpdateLines(lines, id, quantity) == r;
    FindLineSameIds(r, lines, id);
    SetQuantityTotals(lines, i, quantity);
  }

  /** Setting the quantity of line i moves the totals by the difference. */
  lemma SetQuantityTotals(lines: seq<CartItem>, i: nat, quantity: int)
    requires i < |lines|
    ensures var r := lines[i := lines[i].(quantity := quantity)];
      && TotalItems(r) == TotalItems(lines) + quantity - lines[i].quantity
      && TotalAmount(r) == TotalAmount(lines) + lines[i].product.price * (quantity - lines[i].quantity)
  {
    var x := lines[i].(quantity := quantity);
    TotalsReplace(lines, i, x);
    ScaleDifference(x.product.price, quantity, lines[i].quantity);
  }
}
