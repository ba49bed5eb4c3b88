// The selection panel (src/components/SelectedServices.tsx): the totals it
// derives from the lines, the conditions that show and enable its parts,
// and its own two flags, isExpanded and isCheckingOut.
module SelectedServices {
  import opened Types
  import Seqs
  import Cart

  /** The amount shown beside one line: unit price times quantity. */
  function LineAmount(l: Line): (r: int)
    ensures l.quantity == 1 ==> r == l.item.price
    ensures l.item.price >= 0 && l.quantity >= 0 ==> r >= 0
    ensures l.item.price > 0 && l.quantity > 0 ==> r >= l.item.price
  {
    l.item.price * l.quantity
  }

  /** `total`: the left fold `reduce((sum, s) => sum + s.price * s.quantity, 0)`. */
  function Subtotal(cart: seq<Line>): (r: int)
    ensures Cart.PositiveQuantities(cart) && (forall i :: 0 <= i < |cart| ==> cart[i].item.price >= 0) ==> r >= 0
  {
    if cart == [] then 0
    else
      var last := cart[|cart| - 1];
      assert Cart.PositiveQuantities(cart) && last.item.price >= 0 ==> LineAmount(last) >= 0;
      Subtotal(cart[..|cart| - 1]) + LineAmount(last)
  }

  /** `itemCount`: the left fold `reduce((sum, s) => sum + s.quantity, 0)`. */
  function ItemCount(cart: seq<Line>): (r: int)
    ensures Cart.PositiveQuantities(cart) ==> r >= |cart|
  {
    if cart == [] then 0 else ItemCount(cart[..|cart| - 1]) + cart[|cart| - 1].quantity
  }

  /** Plain sum of a list of amounts, taken from the front. */
  function Sum(xs: seq<int>): int {
    if xs == [] then 0 else xs[0] + Sum(xs[1..])
  }

  /** The per-line amounts, in display order. */
  function Amounts(cart: seq<Line>): seq<int> {
    Seqs.Map(cart, LineAmount)
  }

  /** Tax: 10% of the subtotal, as an exact rational. */
  function Tax(subtotal: int): (r: real)
    ensures 10.0 * r == subtotal as real
  {
    subtotal as real * 0.1
  }

  /** Grand total: the subtotal times 1.1, which is the subtotal plus the tax. */
  function GrandTotal(subtotal: int): (r: real)
    ensures r == subtotal as real + Tax(subtotal)
    ensures 10.0 * r == 11.0 * subtotal as real
  {
    subtotal as real * 1.1
  }

  /** "item" in the summary bar exactly when one unit is selected, "items" otherwise. */
  function ItemsLabel(itemCount: int): (r: string)
    ensures r == "item" <==> itemCount == 1
    ensures r == "items" <==> itemCount != 1
  {
    "item" + if itemCount != 1 then "s" else ""
  }

  /** The totals section, and with it the checkout button, is rendered only while the panel is
      expanded and the selection is non-empty. */
  predicate TotalsShown(cart: seq<Line>, isExpanded: bool): (r: bool)
    ensures r && Cart.PositiveQuantities(cart) ==> ItemCount(cart) > 0
    ensures !isExpanded ==> !r
  {
    isExpanded && |cart| > 0
  }

  /** The checkout button's `disabled` attribute. */
  predicate CheckoutDisabled(cart: seq<Line>, isCheckingOut: bool): (r: bool)
    ensures Cart.PositiveQuantities(cart) ==> (r <==> ItemCount(cart) == 0 || isCheckingOut)
  {
    |cart| == 0 || isCheckingOut
  }

  /** The checkout button's caption. */
  function CheckoutCaption(isCheckingOut: bool): (r: string)
    ensures r == "Processing..." <==> isCheckingOut
    ensures r == "Proceed to Checkout" <==> !isCheckingOut
  {
    if isCheckingOut then "Processing..." else "Proceed to Checkout"
  }

  lemma {:induction false} SumAppend(xs: seq<int>, x: int)
    ensures Sum(xs + [x]) == Sum(xs) + x
  {
    if xs != [] {
      assert (xs + [x])[1..] == xs[1..] + [x];
      SumAppend(xs[1..], x);
    }
  }

  /** The displayed per-line amounts add up to the subtotal. */
  lemma {:induction false} SubtotalIsSumOfAmounts(cart: seq<Line>)
    ensures Subtotal(cart) == Sum(Amounts(cart))
  {
    if cart != [] {
      var init := cart[..|cart| - 1];
      SubtotalIsSumOfAmounts(init);
      assert Amounts(cart) == Amounts(init) + [LineAmount(cart[|cart| - 1])];
      SumAppend(Amounts(init), LineAmount(cart[|cart| - 1]));
    }
  }

  /** The subtotal of two concatenated lists is the sum of their subtotals. */
  lemma {:induction false} SubtotalAppend(a: seq<Line>, b: seq<Line>)
    ensures Subtotal(a + b) == Subtotal(a) + Subtotal(b)
  {
    if b != [] {
      var init := b[..|b| - 1];
      assert (a + b)[..|a + b| - 1] == a + init;
      SubtotalAppend(a, init);
    } else {
      assert a + b == a;
    }
  }

  /** The unit count of two concatenated lists is the sum of their unit counts. */
  lemma {:induction false} ItemCountAppend(a: seq<Line>, b: seq<Line>)
    ensures ItemCount(a + b) == ItemCount(a) + ItemCount(b)
  {
    if b != [] {
      var init := b[..|b| - 1];
      assert (a + b)[..|a + b| - 1] == a + init;
      ItemCountAppend(a, init);
    } else {
      assert a + b == a;
    }
  }

  /** For the empty selection every figure is zero. */
  lemma EmptyTotals()
    ensures Subtotal([]) == 0 && ItemCount([]) == 0
    ensures Tax(Subtotal([])) == 0.0 && GrandTotal(Subtotal([])) == 0.0
  {
  }

  /** In a valid selection no unit is selected exactly when no line is. */
  lemma ItemCountZeroIffEmpty(cart: seq<Line>)
    requires Cart.Valid(cart)
    ensures ItemCount(cart) == 0 <==> cart == []
  {
  }

  /** Whenever the checkout button is on screen, only a running checkout disables it. */
  lemma ShownButtonDisabledOnlyWhileCheckingOut(cart: seq<Line>, isExpanded: bool, isCheckingOut: bool)
    requires TotalsShown(cart, isExpanded)
    ensures CheckoutDisabled(cart, isCheckingOut) <==> isCheckingOut
  {
  }

  /** A line as it sits between the lines before and after it. */
  lemma SplitAround(s: seq<Line>, k: nat)
    requires k < |s|
    ensures s == s[..k] + [s[k]] + s[k + 1..]
  {
    assert s[..k] + [s[k]] == s[..k + 1];
  }

  /** Replacing one line changes each total by the difference between the two lines. */
  lemma ReplaceChangesTotals(cart: seq<Line>, k: nat, l: Line)
    requires k < |cart|
    ensures Subtotal(cart[k := l]) == Subtotal(cart) - LineAmount(cart[k]) + LineAmount(l)
    ensures ItemCount(cart[k := l]) == ItemCount(cart) - cart[k].quantity + l.quantity
  {
    var r := cart[k := l];
    SplitAround(cart, k);
    SplitAround(r, k);
    assert r[..k] == cart[..k] && r[k + 1..] == cart[k + 1..];
    SubtotalAppend(cart[..k] + [cart[k]], cart[k + 1..]);
    SubtotalAppend(cart[..k], [cart[k]]);
    SubtotalAppend(r[..k] + [l], r[k + 1..]);
    SubtotalAppend(r[..k], [l]);
    ItemCountAppend(cart[..k] + [cart[k]], cart[k + 1..]);
    ItemCountAppend(cart[..k], [cart[k]]);
    ItemCountAppend(r[..k] + [l], r[k + 1..]);
    ItemCountAppend(r[..k], [l]);
  }

  /** One more unit on line k adds one unit and that line's unit price. */
  lemma IncrementChangesTotals(cart: seq<Line>, k: nat)
    requires k < |cart|
    ensures Subtotal(cart[k := Line(cart[k].item, cart[k].quantity + 1)]) == Subtotal(cart) + cart[k].item.price
    ensures ItemCount(cart[k := Line(cart[k].item, cart[k].quantity + 1)]) == ItemCount(cart) + 1
  {
    ReplaceChangesTotals(cart, k, Line(cart[k].item, cart[k].quantity + 1));
    OneMoreUnit(cart[k].item.price, cart[k].quantity);
  }

  /** One more unit costs one more unit price. */
  lemma OneMoreUnit(price: int, quantity: int)
    ensures price * (quantity + 1) == price * quantity + price
  {
  }

  /** Adding a catalog service raises the unit count by one and the subtotal by its price. */
  lemma AddChangesTotals(cart: seq<Line>, s: Service)
    requires Cart.Valid(cart)
    requires forall i :: 0 <= i < |cart| && cart[i].item.id == s.id ==> cart[i].item == s
    ensures ItemCount(Cart.Add(cart, s).cart) == ItemCount(cart) + 1
    ensures Subtotal(Cart.Add(cart, s).cart) == Subtotal(cart) + s.price
  {
    var r := Cart.Add(cart, s).cart;
    match Cart.IndexOf(cart, s.id)
    case None =>
      SubtotalAppend(cart, [Line(s, 1)]);
      ItemCountAppend(cart, [Line(s, 1)]);
      assert Subtotal([Line(s, 1)]) == Subtotal([]) + LineAmount(Line(s, 1));
      assert LineAmount(Line(s, 1)) == s.price;
    case Some(k) =>
      assert cart[k].item == s;
      Cart.AddIncrementsInPlace(cart, s, k);
      IncrementChangesTotals(cart, k);
  }

  /** Removing a present line lowers the subtotal by its amount and the unit count by its quantity. */
  lemma RemoveChangesTotals(cart: seq<Line>, id: string, k: nat)
    requires Cart.Valid(cart) && Cart.IndexOf(cart, id) == Some(k)
    ensures Subtotal(Cart.Remove(cart, id).cart) == Subtotal(cart) - LineAmount(cart[k])
    ensures ItemCount(Cart.Remove(cart, id).cart) == ItemCount(cart) - cart[k].quantity
  {
    Cart.RemoveDeletesOneLine(cart, id, k);
    SplitAround(cart, k);
    SubtotalAppend(cart[..k] + [cart[k]], cart[k + 1..]);
    SubtotalAppend(cart[..k], [cart[k]]);
    SubtotalAppend(cart[..k], cart[k + 1..]);
    ItemCountAppend(cart[..k] + [cart[k]], cart[k + 1..]);
    ItemCountAppend(cart[..k], [cart[k]]);
    ItemCountAppend(cart[..k], cart[k + 1..]);
  }

  /** The panel's own state: whether it is expanded, and the checkout simulation in progress. */
  class CheckoutPanel {
    var isExpanded: bool
    var isCheckingOut: bool
    /** The scheduled completion callback, with the selection its closure captured at the click. */
    var pending: Option<seq<Line>>

    ghost predicate Valid()
      reads this
    {
      pending.Some? <==> isCheckingOut
    }

    constructor ()
      ensures Valid()
      ensures isExpanded && !isCheckingOut && pending == None
    {
      isExpanded, isCheckingOut, pending := true, false, None;
    }

    /** A click on the summary bar. */
    method ToggleExpanded()
      modifies this`isExpanded
      ensures isExpanded == !old(isExpanded)
    {
      isExpanded := !isExpanded;
    }

    /** A click on the checkout button. A collapsed panel has no button and a disabled button
        ignores the click; otherwise the flag goes up and the completion is scheduled with the
        current selection. */
    method HandleCheckout(cart: seq<Line>) returns (started: bool)
      requires Valid()
      modifies this`isCheckingOut, this`pending
      ensures Valid()
      ensures started <==> TotalsShown(cart, isExpanded) && !CheckoutDisabled(cart, old(isCheckingOut))
      ensures started ==> isCheckingOut && pending == Some(cart)
      ensures !started ==> isCheckingOut == old(isCheckingOut) && pending == old(pending)
    {
      started := TotalsShown(cart, isExpanded) && !CheckoutDisabled(cart, isCheckingOut);
      if started {
        isCheckingOut, pending := true, Some(cart);
      }
    }

    /** The completion timer fires: it hands back the captured selection for `onCheckout`
        and lowers the flag. */
    method CompletionFires() returns (snapshot: seq<Line>)
      requires Valid() && pending.Some?
      modifies this`isCheckingOut, this`pending
      ensures Valid() && !isCheckingOut && pending == None
      ensures snapshot == old(pending).value
    {
      snapshot := pending.value;
      isCheckingOut, pending := false, None;
    }
  }
}
