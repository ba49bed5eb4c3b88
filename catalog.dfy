// The fixed catalog of ancillary services (src/data/mockServices.ts).
// No operation changes it.
module Catalog {
  import opened Types

  const ServicesData: seq<Service> := [
    Service("1", "Priority Boarding",
      "Be among the first to board with exclusive priority lane access", 45, "Premium"),
    Service("2", "Extra Baggage",
      "Additional 23kg checked baggage allowance for your journey", 89, "Comfort"),
    Service("3", "Premium Seat Selection",
      "Choose premium seats with extra legroom and quick exit", 65, "Premium"),
    Service("4", "SkyLounge Access",
      "Relax in our premium airport lounge with gourmet dining", 125, "Premium"),
    Service("5", "Travel Insurance Plus",
      "Comprehensive travel coverage including flight delays and medical", 39, "Comfort"),
    Service("6", "High-Speed Wi-Fi",
      "Unlimited high-speed internet for the entire flight duration", 29, "Comfort"),
    Service("7", "In-Flight Dining Upgrade",
      "Gourmet meal selection with premium beverages", 55, "Premium"),
    Service("8", "Fast Track Security",
      "Expedited security screening at select airports", 35, "Time-Saving"),
    Service("9", "Chauffeur Service",
      "Luxury airport transfer to and from your destination", 199, "Premium"),
    Service("10", "Flexible Ticket",
      "Change your flight date without change fees", 75, "Comfort"),
    Service("11", "Extra Comfort Kit",
      "Premium amenity kit with luxury skincare products", 25, "Comfort"),
    Service("12", "Pet Travel Service",
      "Specialized pet travel accommodation and care", 150, "Special")
  ]

  /** No two services share an identifier. */
  predicate UniqueServiceIds(services: seq<Service>) {
    forall i, j :: 0 <= i < j < |services| ==> services[i].id != services[j].id
  }

  /** The catalog holds twelve services with identifiers "1" to "12", in that order. */
  lemma CatalogIds()
    ensures |ServicesData| == 12
    ensures forall i :: 0 <= i < 12 ==>
      ServicesData[i].id == ["1", "2", "3", "4", "5", "6", "7", "8", "9", "10", "11", "12"][i]
  {
  }

  /** No two catalog services share an identifier. */
  lemma CatalogIdsUnique()
    ensures UniqueServiceIds(ServicesData)
  {
  }

  /** Every catalog price is a positive whole number of dollars. */
  lemma CatalogPricesPositive()
    ensures forall i :: 0 <= i < |ServicesData| ==> ServicesData[i].price > 0
  {
  }

  /** Every catalog category is one of the four the storefront knows. */
  lemma CatalogCategories()
    ensures forall i :: 0 <= i < |ServicesData| ==>
      ServicesData[i].category in ["Premium", "Comfort", "Time-Saving", "Special"]
  {
  }

  /** The categories of the twelve catalog services, in catalog order. */
  const CategoryOrder := ["Premium", "Comfort", "Premium", "Premium", "Comfort", "Comfort",
    "Premium", "Time-Saving", "Premium", "Comfort", "Comfort", "Special"]

  /** The catalog's categories, service by service. */
  lemma CatalogCategoryOrder()
    ensures |ServicesData| == 12
    ensures forall i :: 0 <= i < 12 ==> ServicesData[i].category == CategoryOrder[i]
  {
  }

  /** Priority Boarding costs 45 and Extra Baggage 89. */
  lemma FirstTwoPrices()
    ensures ServicesData[0].id == "1" && ServicesData[0].price == 45
    ensures ServicesData[1].id == "2" && ServicesData[1].price == 89
  {
  }
}
