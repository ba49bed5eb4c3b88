// The application component (src/App.tsx): the selection and toast state it
// owns, the handlers it passes down, the timers it starts, and the three
// catalog sections it renders. Each timer callback is an event method that
// may run only once that timer has been scheduled; durations are not modelled.
module App {
  import opened Types
  import Seqs
  import Catalog
  import Cart
  import SelectedServices
  import ServicesList
  import ServiceCard

  predicate IsPremium(s: Service) { s.category == "Premium" }
  predicate IsComfort(s: Service) { s.category == "Comfort" }
  /** `!["Premium", "Comfort"].includes(s.category)`. */
  predicate IsOther(s: Service) { s.category != "Premium" && s.category != "Comfort" }

  /** The "Premium Services" section. */
  function PremiumServices(services: seq<Service>): (r: seq<Service>)
    ensures forall x :: x in r <==> x in services && IsPremium(x)
  {
    Seqs.FilterMembers(services, IsPremium);
    Seqs.Filter(services, IsPremium)
  }

  /** The "Comfort Services" section. */
  function ComfortServices(services: seq<Service>): (r: seq<Service>)
    ensures forall x :: x in r <==> x in services && IsComfort(x)
  {
    Seqs.FilterMembers(services, IsComfort);
    Seqs.Filter(services, IsComfort)
  }

  /** The "Other Services" section: every category except the two above. */
  function OtherServices(services: seq<Service>): (r: seq<Service>)
    ensures forall x :: x in r <==> x in services && IsOther(x)
  {
    Seqs.FilterMembers(services, IsOther);
    Seqs.Filter(services, IsOther)
  }

  /** The three sections together hold every service exactly as often as the list does. */
  lemma {:induction false} SectionsPartition(services: seq<Service>)
    ensures multiset(PremiumServices(services)) + multiset(ComfortServices(services))
          + multiset(OtherServices(services)) == multiset(services)
  {
    if services != [] {
      var x, rest := services[0], services[1..];
      SectionsPartition(rest);
      assert multiset(services) == multiset{x} + multiset(rest) by {
        assert services == [x] + rest;
      }
      var p, c, o := PremiumServices(rest), ComfortServices(rest), OtherServices(rest);
      if IsPremium(x) {
        assert multiset(PremiumServices(services)) == multiset{x} + multiset(p) by {
          assert PremiumServices(services) == [x] + p;
        }
        assert ComfortServices(services) == c && OtherServices(services) == o;
      } else if IsComfort(x) {
        assert multiset(ComfortServices(services)) == multiset{x} + multiset(c) by {
          assert ComfortServices(services) == [x] + c;
        }
        assert PremiumServices(services) == p && OtherServices(services) == o;
      } else {
        assert multiset(OtherServices(services)) == multiset{x} + multiset(o) by {
          assert OtherServices(services) == [x] + o;
        }
        assert PremiumServices(services) == p && ComfortServices(services) == c;
      }
    }
  }

  /** No service appears in two sections. */
  lemma SectionsDisjoint(services: seq<Service>, s: Service)
    ensures !(s in PremiumServices(services) && s in ComfortServices(services))
    ensures !(s in PremiumServices(services) && s in OtherServices(services))
    ensures !(s in ComfortServices(services) && s in OtherServices(services))
  {
    Seqs.FilterMembers(services, IsPremium);
    Seqs.FilterMembers(services, IsComfort);
    Seqs.FilterMembers(services, IsOther);
  }

  /** Each section lists its services in catalog order. */
  lemma SectionsKeepOrder(services: seq<Service>)
    ensures Seqs.IsSubsequence(PremiumServices(services), services)
    ensures Seqs.IsSubsequence(ComfortServices(services), services)
    ensures Seqs.IsSubsequence(OtherServices(services), services)
  {
    Seqs.FilterIsSubsequence(services, IsPremium);
    Seqs.FilterIsSubsequence(services, IsComfort);
    Seqs.FilterIsSubsequence(services, IsOther);
  }

  /** One step of filtering the suffix of s that starts at i. */
  lemma FilterStepAt(s: seq<Service>, i: nat, p: Service -> bool)
    requires i < |s|
    ensures |Seqs.Filter(s[i..], p)| == Ind(p(s[i])) + |Seqs.Filter(s[i + 1..], p)|
  {
    assert s[i..][1..] == s[i + 1..];
  }

  /** 1 when b holds, 0 otherwise. */
  function Ind(b: bool): nat {
    if b then 1 else 0
  }

  /** Filtering twelve services keeps one element for each that passes. */
  lemma FilterTwelve(c: seq<Service>, p: Service -> bool)
    requires |c| == 12
    ensures |Seqs.Filter(c, p)| ==
      Ind(p(c[0])) + Ind(p(c[1])) + Ind(p(c[2])) +
      Ind(p(c[3])) + Ind(p(c[4])) + Ind(p(c[5])) +
      Ind(p(c[6])) + Ind(p(c[7])) + Ind(p(c[8])) +
      Ind(p(c[9])) + Ind(p(c[10])) + Ind(p(c[11]))
  {
    assert c[12..] == [];
    assert |Seqs.Filter(c[11..], p)| == Ind(p(c[11])) by { FilterStepAt(c, 11, p); }
    assert |Seqs.Filter(c[10..], p)| == Ind(p(c[10])) + Ind(p(c[11])) by { FilterStepAt(c, 10, p); }
    assert |Seqs.Filter(c[9..], p)| == Ind(p(c[9])) + Ind(p(c[10])) + Ind(p(c[11])) by { FilterStepAt(c, 9, p); }
    assert |Seqs.Filter(c[8..], p)| == Ind(p(c[8])) + Ind(p(c[9])) + Ind(p(c[10])) + Ind(p(c[11])) by { FilterStepAt(c, 8, p); }
    assert |Seqs.Filter(c[7..], p)| == Ind(p(c[7])) + Ind(p(c[8])) + Ind(p(c[9])) + Ind(p(c[10])) + Ind(p(c[11])) by { FilterStepAt(c, 7, p); }
    assert |Seqs.Filter(c[6..], p)| == Ind(p(c[6])) + Ind(p(c[7])) + Ind(p(c[8])) + Ind(p(c[9])) + Ind(p(c[10])) + Ind(p(c[11])) by { FilterStepAt(c, 6, p); }
    assert |Seqs.Filter(c[5..], p)| == Ind(p(c[5])) + Ind(p(c[6])) + Ind(p(c[7])) + Ind(p(c[8])) + Ind(p(c[9])) + Ind(p(c[10])) + Ind(p(c[11])) by { FilterStepAt(c, 5, p); }
    assert |Seqs.Filter(c[4..], p)| == Ind(p(c[4])) + Ind(p(c[5])) + Ind(p(c[6])) + Ind(p(c[7])) + Ind(p(c[8])) + Ind(p(c[9])) + Ind(p(c[10])) + Ind(p(c[11])) by { FilterStepAt(c, 4, p); }
    assert |Seqs.Filter(c[3..], p)| == Ind(p(c[3])) + Ind(p(c[4])) + Ind(p(c[5])) + Ind(p(c[6])) + Ind(p(c[7])) + Ind(p(c[8])) + Ind(p(c[9])) + Ind(p(c[10])) + Ind(p(c[11])) by { FilterStepAt(c, 3, p); }
    assert |Seqs.Filter(c[2..], p)| == Ind(p(c[2])) + Ind(p(c[3])) + Ind(p(c[4])) + Ind(p(c[5])) + Ind(p(c[6])) + Ind(p(c[7])) + Ind(p(c[8])) + Ind(p(c[9])) + Ind(p(c[10])) + Ind(p(c[11])) by { FilterStepAt(c, 2, p); }
    assert |Seqs.Filter(c[1..], p)| == Ind(p(c[1])) + Ind(p(c[2])) + Ind(p(c[3])) + Ind(p(c[4])) + Ind(p(c[5])) + Ind(p(c[6])) + Ind(p(c[7])) + Ind(p(c[8])) + Ind(p(c[9])) + Ind(p(c[10])) + Ind(p(c[11])) by { FilterStepAt(c, 1, p); }
    assert |Seqs.Filter(c[0..], p)| == Ind(p(c[0])) + Ind(p(c[1])) + Ind(p(c[2])) + Ind(p(c[3])) + Ind(p(c[4])) + Ind(p(c[5])) + Ind(p(c[6])) + Ind(p(c[7])) + Ind(p(c[8])) + Ind(p(c[9])) + Ind(p(c[10])) + Ind(p(c[11])) by { FilterStepAt(c, 0, p); }
    assert c[0..] == c;
  }

  /** Section sizes for any twelve services whose categories are, in order, the catalog's. */
  lemma SectionSizes(c: seq<Service>)
    requires |c| == 12 && forall i :: 0 <= i < 12 ==> c[i].category == Catalog.CategoryOrder[i]
    ensures |PremiumServices(c)| == 5
    ensures |ComfortServices(c)| == 5
    ensures |OtherServices(c)| == 2
  {
    FilterTwelve(c, IsPremium);
    FilterTwelve(c, IsComfort);
    FilterTwelve(c, IsOther);
  }

  /** For the shipped catalog: five Premium, five Comfort and two other services. */
  lemma CatalogSectionSizes()
    ensures |PremiumServices(Catalog.ServicesData)| == 5
    ensures |ComfortServices(Catalog.ServicesData)| == 5
    ensures |OtherServices(Catalog.ServicesData)| == 2
  {
    Catalog.CatalogCategoryOrder();
    SectionSizes(Catalog.ServicesData);
  }

  /** AppContent's state, together with the selection panel it renders. */
  class Storefront {
    var selected: seq<Line>
    var notice: Option<Cart.Notice>
    /** Toast-dismissal timers scheduled and not yet fired. */
    var pendingDismissals: nat
    /** Post-checkout clear timers scheduled and not yet fired. */
    var pendingClears: nat
    const panel: SelectedServices.CheckoutPanel

    ghost predicate Valid()
      reads this, panel
    {
      Cart.Valid(selected) && panel.Valid()
    }

    constructor ()
      ensures Valid() && fresh(panel)
      ensures selected == [] && notice == None
      ensures pendingDismissals == 0 && pendingClears == 0
      ensures panel.isExpanded && !panel.isCheckingOut
    {
      selected, notice := [], None;
      pendingDismissals, pendingClears := 0, 0;
      panel := new SelectedServices.CheckoutPanel();
    }

    /** handleAddService, reached from a card's add button. */
    method AddService(s: Service) returns (raised: Option<Cart.Notice>)
      requires Valid()
      modifies this`selected, this`notice, this`pendingDismissals
      ensures Valid()
      ensures selected == Cart.Add(old(selected), s).cart
      ensures raised == Cart.Add(old(selected), s).notice
      ensures notice == if raised.Some? then raised else old(notice)
      ensures pendingDismissals == old(pendingDismissals) + if raised.Some? then 1 else 0
    {
      var u := Cart.Add(selected, s);
      Cart.AddPreservesValid(selected, s);
      selected, raised := u.cart, u.notice;
      if raised.Some? {
        notice, pendingDismissals := raised, pendingDismissals + 1;
      }
    }

    /** handleRemoveService, reached from a line's remove button. */
    method RemoveService(id: string) returns (raised: Option<Cart.Notice>)
      requires Valid()
      modifies this`selected, this`notice, this`pendingDismissals
      ensures Valid()
      ensures selected == Cart.Remove(old(selected), id).cart
      ensures raised == Cart.Remove(old(selected), id).notice
      ensures notice == if raised.Some? then raised else old(notice)
      ensures pendingDismissals == old(pendingDismissals) + if raised.Some? then 1 else 0
    {
      var u := Cart.Remove(selected, id);
      Cart.RemovePreservesValid(selected, id);
      selected, raised := u.cart, u.notice;
      if raised.Some? {
        notice, pendingDismissals := raised, pendingDismissals + 1;
      }
    }

    /** A click on the add button of card i in a section listing `services`: the card forwards
        its own service to handleAddService, once. */
    method ClickAdd(services: seq<Service>, i: nat) returns (raised: Option<Cart.Notice>)
      requires Valid() && i < |services|
      modifies this`selected, this`notice, this`pendingDismissals
      ensures Valid()
      ensures selected == Cart.Add(old(selected), services[i]).cart
      ensures raised == Cart.Add(old(selected), services[i]).notice
      ensures notice == if raised.Some? then raised else old(notice)
      ensures pendingDismissals == old(pendingDismissals) + if raised.Some? then 1 else 0
    {
      var cards := ServicesList.Cards(services, selected);
      raised := AddService(cards[i].service);
    }

    /** handleCheckout: the order total of the given lines, the confirmation toast carrying it,
        and the deferred clear. It does not look at whether the lines are empty. */
    method HandleCheckout(lines: seq<Line>) returns (grand: real)
      modifies this`notice, this`pendingDismissals, this`pendingClears
      ensures grand == SelectedServices.GrandTotal(SelectedServices.Subtotal(lines))
      ensures notice == Some(Cart.OrderConfirmed(grand))
      ensures pendingDismissals == old(pendingDismissals) + 1
      ensures pendingClears == old(pendingClears) + 1
    {
      var total := SelectedServices.Subtotal(lines);
      grand := SelectedServices.GrandTotal(total);
      notice, pendingDismissals := Some(Cart.OrderConfirmed(grand)), pendingDismissals + 1;
      pendingClears := pendingClears + 1;
    }

    /** A click on the panel's checkout button. */
    method ClickCheckout() returns (started: bool)
      requires Valid()
      modifies panel`isCheckingOut, panel`pending
      ensures Valid()
      ensures started <==> panel.isExpanded && selected != [] && !old(panel.isCheckingOut)
      ensures started ==> panel.isCheckingOut && panel.pending == Some(selected)
      ensures !started ==> panel.isCheckingOut == old(panel.isCheckingOut) && panel.pending == old(panel.pending)
    {
      started := panel.HandleCheckout(selected);
    }

    /** The panel's completion timer fires: `onCheckout` runs on the selection captured at the
        click, whatever the selection holds now, and the panel leaves its processing state. */
    method CompletionFires() returns (grand: real)
      requires Valid() && panel.isCheckingOut
      modifies this`notice, this`pendingDismissals, this`pendingClears, panel`isCheckingOut, panel`pending
      ensures Valid() && !panel.isCheckingOut
      ensures selected == old(selected)
      ensures grand == SelectedServices.GrandTotal(SelectedServices.Subtotal(old(panel.pending).value))
      ensures notice == Some(Cart.OrderConfirmed(grand))
      ensures pendingDismissals == old(pendingDismissals) + 1
      ensures pendingClears == old(pendingClears) + 1
    {
      var snapshot := panel.CompletionFires();
      grand := HandleCheckout(snapshot);
    }

    /** The post-checkout clear fires: the selection becomes empty, whatever it holds by then. */
    method ClearFires()
      requires Valid() && pendingClears > 0
      modifies this`selected, this`pendingClears
      ensures Valid()
      ensures selected == [] && pendingClears == old(pendingClears) - 1
    {
      selected, pendingClears := [], pendingClears - 1;
    }

    /** A toast-dismissal timer fires: no toast is shown, whichever one set the timer. */
    method DismissFires()
      requires pendingDismissals > 0
      modifies this`notice, this`pendingDismissals
      ensures notice == None && pendingDismissals == old(pendingDismissals) - 1
    {
      notice, pendingDismissals := None, pendingDismissals - 1;
    }
  }
}

// Worked scenarios over the shipped catalog, as a client of the model.
module Scenarios {
  import opened Types
  import Catalog
  import Cart
  import SelectedServices
  import App

  /** One Priority Boarding and two Extra Baggage: subtotal 223, tax 22.3, total 245.3. */
  lemma MixedQuantityTotals()
    ensures var lines := [Line(Catalog.ServicesData[0], 1), Line(Catalog.ServicesData[1], 2)];
      SelectedServices.Subtotal(lines) == 223 && SelectedServices.ItemCount(lines) == 3 &&
      SelectedServices.Tax(223) == 22.3 && SelectedServices.GrandTotal(223) == 245.3
  {
    var a, b := Line(Catalog.ServicesData[0], 1), Line(Catalog.ServicesData[1], 2);
    TwoLineTotals(a, b);
  }

  /** The totals of a one-line selection. */
  lemma OneLineTotals(a: Line)
    ensures SelectedServices.Subtotal([a]) == SelectedServices.LineAmount(a)
    ensures SelectedServices.ItemCount([a]) == a.quantity
  {
    assert [a][..0] == [];
  }

  /** The totals of a two-line selection, from those of its lines. */
  lemma TwoLineTotals(a: Line, b: Line)
    ensures SelectedServices.Subtotal([a, b]) == SelectedServices.LineAmount(a) + SelectedServices.LineAmount(b)
    ensures SelectedServices.ItemCount([a, b]) == a.quantity + b.quantity
  {
    assert [a, b] == [a] + [b];
    SelectedServices.SubtotalAppend([a], [b]);
    SelectedServices.ItemCountAppend([a], [b]);
    assert [a][..0] == [] && [b][..0] == [];
  }

  /** Add "1" and "2", start a checkout, add "3" while it runs: the confirmation carries the
      total of the first two (147.4), and the later clear empties the selection including "3". */
  method CheckoutScenario() returns (itemCount: int, confirmed: real, beforeClear: seq<Line>, afterClear: seq<Line>)
    ensures itemCount == 2 && confirmed == 147.4
    ensures |beforeClear| == 3 && beforeClear[2].item.id == "3"
    ensures afterClear == []
  {
    var s1, s2, s3 := Catalog.ServicesData[0], Catalog.ServicesData[1], Catalog.ServicesData[2];
    itemCount, confirmed, beforeClear, afterClear := CheckoutWhileAdding(s1, s2, s3);
  }

  /** The checkout scenario for any three services with distinct identifiers. */
  method CheckoutWhileAdding(s1: Service, s2: Service, s3: Service)
    returns (itemCount: int, confirmed: real, beforeClear: seq<Line>, afterClear: seq<Line>)
    requires s1.id != s2.id && s1.id != s3.id && s2.id != s3.id
    ensures itemCount == 2
    ensures confirmed == SelectedServices.GrandTotal(s1.price + s2.price)
    ensures beforeClear == [Line(s1, 1), Line(s2, 1), Line(s3, 1)]
    ensures afterClear == []
  {
    var l1, l2, l3 := Line(s1, 1), Line(s2, 1), Line(s3, 1);
    ThreeFreshAdds(s1, s2, s3);
    TwoLineTotals(l1, l2);
    var store := SelectTwo(s1, s2);
    itemCount := SelectedServices.ItemCount(store.selected);
    var started := store.ClickCheckout();
    assert store.panel.pending == Some([l1, l2]);
    var _ := store.AddService(s3);
    assert store.selected == [l1, l2, l3] && store.panel.pending == Some([l1, l2]);
    confirmed := store.CompletionFires();
    beforeClear := store.selected;
    store.ClearFires();
    afterClear := store.selected;
  }

  /** A fresh storefront after adding two services with distinct identifiers. */
  method SelectTwo(s1: Service, s2: Service) returns (store: App.Storefront)
    requires s1.id != s2.id
    ensures fresh(store) && fresh(store.panel) && store.Valid()
    ensures store.selected == [Line(s1, 1), Line(s2, 1)]
    ensures store.panel.isExpanded && !store.panel.isCheckingOut && store.pendingClears == 0
  {
    assert !Cart.Contains([Line(s1, 1)], s2.id);
    store := new App.Storefront();
    var _ := store.AddService(s1);
    var _ := store.AddService(s2);
  }

  /** Three adds of services with distinct identifiers append three lines in order. */
  lemma ThreeFreshAdds(s1: Service, s2: Service, s3: Service)
    requires s1.id != s2.id && s1.id != s3.id && s2.id != s3.id
    ensures Cart.Add([], s1).cart == [Line(s1, 1)]
    ensures Cart.Add([Line(s1, 1)], s2).cart == [Line(s1, 1), Line(s2, 1)]
    ensures Cart.Add([Line(s1, 1), Line(s2, 1)], s3).cart == [Line(s1, 1), Line(s2, 1), Line(s3, 1)]
  {
    assert !Cart.Contains([Line(s1, 1)], s2.id);
    assert !Cart.Contains([Line(s1, 1), Line(s2, 1)], s3.id);
  }

  /** Add "1" twice (subtotal 90, total 99), remove it, then click checkout on the empty
      selection: nothing starts and no clear is scheduled. */
  method EmptyCheckoutScenario() returns (subtotal: int, grand: real, started: bool, clears: nat)
    ensures subtotal == 90 && grand == 99.0
    ensures !started && clears == 0
  {
    var s1 := Catalog.ServicesData[0];
    subtotal, grand, started, clears := AddTwiceRemoveCheckout(s1);
  }

  /** The empty-checkout scenario for any service. */
  method AddTwiceRemoveCheckout(s: Service) returns (subtotal: int, grand: real, started: bool, clears: nat)
    ensures subtotal == 2 * s.price && grand == SelectedServices.GrandTotal(2 * s.price)
    ensures !started && clears == 0
  {
    AddTwiceThenRemove(s);
    OneLineTotals(Line(s, 2));
    var store := SelectTwice(s);
    subtotal := SelectedServices.Subtotal(store.selected);
    grand := SelectedServices.GrandTotal(subtotal);
    var _ := store.RemoveService(s.id);
    started := store.ClickCheckout();
    clears := store.pendingClears;
  }

  /** Collapse the panel over a non-empty selection, then click checkout: the button is not on
      screen, so nothing starts, and expanding the panel again lets the click through. */
  method CollapsedCheckoutScenario(s: Service) returns (startedCollapsed: bool, startedExpanded: bool)
    ensures !startedCollapsed && startedExpanded
  {
    var store := SelectTwice(s);
    store.panel.ToggleExpanded();
    startedCollapsed := store.ClickCheckout();
    store.panel.ToggleExpanded();
    startedExpanded := store.ClickCheckout();
  }

  /** A fresh storefront after adding the same service twice. */
  method SelectTwice(s: Service) returns (store: App.Storefront)
    ensures fresh(store) && fresh(store.panel) && store.Valid()
    ensures store.selected == [Line(s, 2)]
    ensures store.panel.isExpanded && !store.panel.isCheckingOut && store.pendingClears == 0
  {
    AddTwiceThenRemove(s);
    store := new App.Storefront();
    var _ := store.AddService(s);
    var _ := store.AddService(s);
  }

  /** Two adds of one service give one line of two; removing its identifier empties the selection. */
  lemma AddTwiceThenRemove(s: Service)
    ensures Cart.Add([], s).cart == [Line(s, 1)]
    ensures Cart.Add([Line(s, 1)], s).cart == [Line(s, 2)]
    ensures Cart.Remove([Line(s, 2)], s.id).cart == []
  {
    assert [Line(s, 1)][0].item.id == s.id;
    Cart.RemoveDeletesOneLine([Line(s, 2)], s.id, 0);
  }
}
