// The grid of service cards (src/components/ServicesList.tsx): one card per
// service, each told whether its service is already in the selection.
module ServicesList {
  import opened Types
  import Seqs
  import Cart

  /** What a card is given besides the shared `onAddService` handler. */
  datatype Card = Card(service: Service, isAdded: bool)

  /** `selectedServices.some(s => s.id === service.id)`. */
  function IsAdded(cart: seq<Line>, service: Service): (r: bool)
    ensures r <==> Cart.Contains(cart, service.id)
  {
    Seqs.Any(cart, (l: Line) => l.item.id == service.id)
  }

  /** `services.map(service => <ServiceCard .../>)`. */
  function Cards(services: seq<Service>, cart: seq<Line>): (r: seq<Card>)
    ensures |r| == |services|
    ensures forall i :: 0 <= i < |services| ==>
      r[i].service == services[i] && (r[i].isAdded <==> Cart.Contains(cart, services[i].id))
  {
    Seqs.Map(services, (s: Service) => Card(s, IsAdded(cart, s)))
  }

  /** With nothing selected, no card shows as added. */
  lemma NothingAddedWhenEmpty(service: Service)
    ensures !IsAdded([], service)
  {
  }

  /** Whether a card shows as added depends on identifiers only, not on quantities or other fields. */
  lemma IsAddedIgnoresQuantity(cart: seq<Line>, other: seq<Line>, service: Service)
    requires |cart| == |other|
    requires forall i :: 0 <= i < |cart| ==> cart[i].item.id == other[i].item.id
    ensures IsAdded(cart, service) == IsAdded(other, service)
  {
    if IsAdded(cart, service) {
      var i :| 0 <= i < |cart| && cart[i].item.id == service.id;
      assert other[i].item.id == service.id;
    }
    if IsAdded(other, service) {
      var i :| 0 <= i < |other| && other[i].item.id == service.id;
      assert cart[i].item.id == service.id;
    }
  }

  /** After an add, exactly the added service and those already added show as added. */
  lemma IsAddedAfterAdd(cart: seq<Line>, s: Service, service: Service)
    ensures IsAdded(Cart.Add(cart, s).cart, service) <==> IsAdded(cart, service) || service.id == s.id
  {
    var r := Cart.Add(cart, s).cart;
    if IsAdded(cart, service) {
      var i :| 0 <= i < |cart| && cart[i].item.id == service.id;
      assert r[i].item.id == service.id;
    }
    if IsAdded(r, service) && service.id != s.id {
      var i :| 0 <= i < |r| && r[i].item.id == service.id;
      if i < |cart| {
        assert cart[i].item.id == service.id;
      }
    }
  }

  /** After a removal, the removed service no longer shows as added and the others are unaffected. */
  lemma IsAddedAfterRemove(cart: seq<Line>, id: string, service: Service)
    ensures IsAdded(Cart.Remove(cart, id).cart, service) <==> IsAdded(cart, service) && service.id != id
  {
    var r := Cart.Remove(cart, id).cart;
    if IsAdded(cart, service) && service.id != id {
      var i :| 0 <= i < |cart| && cart[i].item.id == service.id;
      assert cart[i] in r;
    }
    if IsAdded(r, service) {
      var i :| 0 <= i < |r| && r[i].item.id == service.id;
      assert r[i] in cart;
    }
  }
}
