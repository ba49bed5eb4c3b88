// The selection ("cart") transitions of src/App.tsx: handleAddService and
// handleRemoveService, each as a pure function from the previous list of
// lines to the next one and the notification it raises.
module Cart {
  import opened Types
  import Seqs

  /** The toast message the application shows. */
  datatype Notice =
    | Added(name: string)
    | Removed(name: string)
    | OrderConfirmed(grandTotal: real)

  /** The next list of lines, and the notification raised while computing it, if any. */
  datatype Update = Update(cart: seq<Line>, notice: Option<Notice>)

  /** Some line carries this identifier (`cart.find(s => s.id === id) !== undefined`). */
  predicate Contains(cart: seq<Line>, id: string) {
    exists i :: 0 <= i < |cart| && cart[i].item.id == id
  }

  /** `find` succeeds exactly when some line of the selection carries the identifier. */
  lemma ContainsIffSomeLine(cart: seq<Line>, id: string)
    ensures Contains(cart, id) <==> exists l :: l in cart && l.item.id == id
  {
  }

  /** The position of the line `cart.find(s => s.id === id)` returns: the first with that identifier. */
  function IndexOf(cart: seq<Line>, id: string): (r: Option<nat>)
    ensures r.None? <==> !Contains(cart, id)
    ensures r.Some? ==> r.value < |cart| && cart[r.value].item.id == id
    ensures r.Some? ==> forall j :: 0 <= j < r.value ==> cart[j].item.id != id
  {
    if cart == [] then None
    else if cart[0].item.id == id then Some(0)
    else match IndexOf(cart[1..], id)
      case None => None
      case Some(k) => Some(k + 1)
  }

  /** At most one line per identifier. */
  predicate UniqueIds(cart: seq<Line>) {
    forall i, j :: 0 <= i < j < |cart| ==> cart[i].item.id != cart[j].item.id
  }

  /** Every line has been added at least once. */
  predicate PositiveQuantities(cart: seq<Line>) {
    forall i :: 0 <= i < |cart| ==> cart[i].quantity >= 1
  }

  /** The invariant every reachable selection satisfies. */
  predicate Valid(cart: seq<Line>) {
    UniqueIds(cart) && PositiveQuantities(cart)
  }

  /** One step of `prev.map(...)`: the line with this identifier gets one more unit. */
  function Bump(l: Line, id: string): Line {
    if l.item.id == id then l.(quantity := l.quantity + 1) else l
  }

  /** handleAddService: increment the existing line in place, or append a new line with quantity 1
      and announce it. */
  function Add(cart: seq<Line>, s: Service): (r: Update)
    ensures Contains(r.cart, s.id)
    ensures r.notice.Some? <==> !Contains(cart, s.id)
    ensures r.notice.Some? ==> r.notice.value == Added(s.name)
    ensures !Contains(cart, s.id) ==> r.cart == cart + [Line(s, 1)]
    ensures Contains(cart, s.id) ==> |r.cart| == |cart|
    ensures forall i :: 0 <= i < |cart| ==>
      r.cart[i] == if cart[i].item.id == s.id then cart[i].(quantity := cart[i].quantity + 1) else cart[i]
  {
    if IndexOf(cart, s.id).Some? then
      var next := Seqs.Map(cart, (l: Line) => Bump(l, s.id));
      assert next[IndexOf(cart, s.id).value].item.id == s.id;
      Update(next, None)
    else
      var next := cart + [Line(s, 1)];
      assert next[|cart|].item.id == s.id;
      Update(next, Some(Added(s.name)))
  }

  /** handleRemoveService: drop every line with this identifier; announce the removal only when
      a line was found. */
  function Remove(cart: seq<Line>, id: string): (r: Update)
    ensures !Contains(r.cart, id)
    ensures forall l :: l in r.cart <==> l in cart && l.item.id != id
    ensures r.notice.Some? <==> Contains(cart, id)
    ensures forall k :: IndexOf(cart, id) == Some(k) ==> r.notice == Some(Removed(cart[k].item.name))
  {
    var keep := (l: Line) => l.item.id != id;
    var next := Seqs.Filter(cart, keep);
    Seqs.FilterMembers(cart, keep);
    assert forall i :: 0 <= i < |next| ==> next[i] in next;
    match IndexOf(cart, id)
    case None => Update(next, None)
    case Some(k) => Update(next, Some(Removed(cart[k].item.name)))
  }

  /** `n` consecutive adds of the same service. */
  function AddTimes(cart: seq<Line>, s: Service, n: nat): seq<Line> {
    if n == 0 then cart else Add(AddTimes(cart, s, n - 1), s).cart
  }

  /** Adding keeps at most one line per identifier and every quantity at least 1. */
  lemma AddPreservesValid(cart: seq<Line>, s: Service)
    requires Valid(cart)
    ensures Valid(Add(cart, s).cart)
  {
    var r := Add(cart, s).cart;
    if !Contains(cart, s.id) {
      assert forall i :: 0 <= i < |cart| ==> r[i] == cart[i];
    }
  }

  /** Adding a service already present raises exactly one line's quantity by one: its position,
      its service and every other line stay as they were. */
  lemma AddIncrementsInPlace(cart: seq<Line>, s: Service, k: nat)
    requires Valid(cart) && IndexOf(cart, s.id) == Some(k)
    ensures Add(cart, s).cart == cart[k := Line(cart[k].item, cart[k].quantity + 1)]
    ensures Add(cart, s).notice == None
  {
    var r := Add(cart, s).cart;
    forall i | 0 <= i < |cart| ensures r[i] == cart[k := Line(cart[k].item, cart[k].quantity + 1)][i] {
      if i != k {
        assert cart[i].item.id != s.id;
      }
    }
  }

  /** n adds of the same service to an empty selection give one line with quantity n. */
  lemma {:induction false} AddRepeatedly(s: Service, n: nat)
    requires n >= 1
    ensures AddTimes([], s, n) == [Line(s, n)]
  {
    if n > 1 {
      AddRepeatedly(s, n - 1);
      assert Contains([Line(s, n - 1)], s.id);
    }
  }

  /** Removing keeps the invariant: a filtered valid selection is valid. */
  lemma {:induction false} FilterKeepsValid(cart: seq<Line>, p: Line -> bool)
    requires Valid(cart)
    ensures Valid(Seqs.Filter(cart, p))
  {
    if cart != [] {
      FilterKeepsValid(cart[1..], p);
      var rest := Seqs.Filter(cart[1..], p);
      Seqs.FilterMembers(cart[1..], p);
      forall i | 0 <= i < |rest| ensures rest[i].item.id != cart[0].item.id {
        assert rest[i] in cart[1..];
      }
    }
  }

  lemma RemovePreservesValid(cart: seq<Line>, id: string)
    requires Valid(cart)
    ensures Valid(Remove(cart, id).cart)
  {
    FilterKeepsValid(cart, (l: Line) => l.item.id != id);
  }

  /** Removal keeps the remaining lines in their original relative order. */
  lemma RemoveKeepsOrder(cart: seq<Line>, id: string)
    ensures Seqs.IsSubsequence(Remove(cart, id).cart, cart)
  {
    Seqs.FilterIsSubsequence(cart, (l: Line) => l.item.id != id);
  }

  /** Removing an identifier that is not in the selection changes nothing and announces nothing. */
  lemma RemoveAbsentIsNoop(cart: seq<Line>, id: string)
    requires !Contains(cart, id)
    ensures Remove(cart, id) == Update(cart, None)
  {
    Seqs.FilterKeepsAll(cart, (l: Line) => l.item.id != id);
  }

  /** In a valid selection, removing a present identifier deletes exactly its line. */
  lemma RemoveDeletesOneLine(cart: seq<Line>, id: string, k: nat)
    requires Valid(cart) && IndexOf(cart, id) == Some(k)
    ensures Remove(cart, id).cart == cart[..k] + cart[k + 1..]
  {
    var keep := (l: Line) => l.item.id != id;
    assert forall i :: 0 <= i < |cart| && i != k ==> keep(cart[i]);
    Seqs.FilterDropsOne(cart, k, keep);
  }

  /** Removing and re-adding a service starts a fresh line with quantity 1 at the end. */
  lemma RemoveThenAdd(cart: seq<Line>, s: Service)
    ensures Add(Remove(cart, s.id).cart, s).cart == Remove(cart, s.id).cart + [Line(s, 1)]
  {
  }
}
