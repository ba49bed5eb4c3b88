// One service card (src/components/ServiceCard.tsx): the category badge's
// icon and the caption of its add button.
module ServiceCard {

  const Star := "\U{2B50}"
  const Shield := "\U{1F6E1}\U{FE0F}"
  const Stopwatch := "\U{23F1}\U{FE0F}"
  const Sparkles := "\U{2728}"

  /** getCategoryIcon: one icon per known category, sparkles for anything else. */
  function CategoryIcon(category: string): (r: string)
    ensures r == Star <==> category == "Premium"
    ensures r == Shield <==> category == "Comfort"
    ensures r == Stopwatch <==> category == "Time-Saving"
    ensures r == Sparkles <==> category !in ["Premium", "Comfort", "Time-Saving"]
  {
    match category
    case "Premium" => Star
    case "Comfort" => Shield
    case "Time-Saving" => Stopwatch
    case _ => Sparkles
  }

  /** The add button reads "Added" once its service is selected, "Add Service" before. */
  function AddCaption(isAdded: bool): (r: string)
    ensures r == "Added" <==> isAdded
    ensures r == "Add Service" <==> !isAdded
  {
    if isAdded then "Added" else "Add Service"
  }

  /** The one category in the catalog that has no icon of its own gets the default. */
  lemma SpecialGetsSparkles()
    ensures CategoryIcon("Special") == Sparkles
  {
  }
}
