# SkyServices selection store, in Dafny

A model of the logic inside the SkyServices storefront, a React demo that sells airline extras.
The user browses a fixed catalog of twelve services. Each service can be added to a selection
(the cart), and the selection panel shows the running subtotal, the unit count, a 10% tax and
the grand total. A checkout button starts a simulated checkout: after a delay it confirms the
order with the total, and after a further delay it empties the selection.

Modules. Most follow one source file; `Seqs` and `Scenarios` are shared helpers and worked
examples:

- `Types`: `Service` and `Line` (`types/index.ts`). A selected line holds its service as
  `item`, with a `quantity`. The source flattens these into one record.
- `Seqs`: the JavaScript `map`, `filter` and `some` calls the components use, written as
  recursive functions. It also has a subsequence predicate that states "keeps relative order".
- `Catalog`: the twelve catalog entries (`data/mockServices.ts`).
- `Cart`: the two selection updates in `App.tsx`. Each is a pure function from the old list of
  lines to the new list plus the toast it raises, if any. `Cart.Valid` is the invariant: one
  line per identifier, and every quantity at least 1.
- `SelectedServices`: the panel's figures (subtotal, unit count, tax, grand total, labels,
  show/enable conditions). Its `CheckoutPanel` class holds the `isExpanded` and `isCheckingOut`
  flags and the pending completion timer.
- `ServicesList`, `ServiceCard`: the `isAdded` flag, the one-card-per-service mapping, the
  category icon and the add button's caption.
- `App`: the three catalog sections and the `Storefront` class. `Storefront` owns the
  selection, the toast, the scheduled timers and the panel.
- `Scenarios`: end-to-end scenarios over the shipped catalog, written as client code.

Money is whole dollars as `int`, because every catalog price is an integer. Tax and grand total
are exact rationals (`real`), so `10 * grand == 11 * subtotal` holds exactly.

Timers are events. Each event method may run only after its timer has been scheduled:
`CompletionFires` is the 1.5 s checkout timer, `ClearFires` the 2 s post-checkout clear, and
`DismissFires` any toast-dismissal timer. The model has no clock.

Two behaviours are kept exactly as written:

- The confirmation total is computed from the selection as it was when checkout was clicked.
  The completion callback calls the `onCheckout` closure from that render. The panel therefore
  stores a snapshot of the selection.
- The clear empties whatever the selection holds when it fires. This includes services added
  while the checkout was running (`Scenarios.CheckoutScenario`).

In the code, `handleCheckout` in `App.tsx` has no emptiness check (`Storefront.HandleCheckout` models that). The only guard is
the button's `disabled` attribute. The totals section that holds the button is rendered only
while the panel is expanded and the selection is non-empty (`CheckoutPanel.HandleCheckout`,
`ShownButtonDisabledOnlyWhileCheckingOut`).

## Model

| member | source | states |
|---|---|---|
| `Seqs.Map` | src/App.tsx:35-39 | `map` keeps the length and applies f at every position |
| `Seqs.Filter` | src/App.tsx:54 | `filter` never grows the list |
| `Seqs.Any` | src/components/ServicesList.tsx:21 | `some` is true iff some element satisfies the predicate |
| `Seqs.FilterMembers` | src/App.tsx:54 | `filter` keeps exactly the elements that satisfy the predicate |
| `Seqs.FilterKeepsAll` | src/App.tsx:54 | `filter` returns its input unchanged when every element passes |
| `Seqs.FilterDropsOne` | src/App.tsx:54 | when only position k fails, `filter` deletes exactly that element and keeps the order of the rest |
| `Seqs.FilterIsSubsequence` | src/App.tsx:82-84 | `filter` output is a subsequence of its input, so relative order is kept |
| `Catalog.ServicesData` | src/data/mockServices.ts:3-88 | the twelve catalog records, field by field as in the source |
| `Catalog.CatalogIds` | src/data/mockServices.ts:3-88 | the catalog has 12 entries with ids "1" to "12", in order |
| `Catalog.CatalogIdsUnique` | src/data/mockServices.ts:3-88 | no two catalog entries share an id |
| `Catalog.CatalogPricesPositive` | src/data/mockServices.ts:8-85 | every catalog price is a positive integer |
| `Catalog.CatalogCategories` | src/data/mockServices.ts:9-86 | every category is Premium, Comfort, Time-Saving or Special |
| `Catalog.CatalogCategoryOrder` | src/data/mockServices.ts:9-86 | the categories of the twelve entries, in catalog order |
| `Catalog.FirstTwoPrices` | src/data/mockServices.ts:4-16 | id "1" costs 45 and id "2" costs 89 |
| `Cart.ContainsIffSomeLine` | src/App.tsx:53-56 | `find(...)` succeeds exactly when some line of the selection carries the identifier |
| `Cart.IndexOf` | src/App.tsx:33 | `find` gives no result iff no line has the id; otherwise the first line with the id |
| `Cart.Add` | src/App.tsx:31-49 | add always leaves a line for the id. A new id is appended with quantity 1 and a toast. A present id has its line incremented in place, with no toast and no change in length. Lines with other ids are untouched |
| `Cart.Remove` | src/App.tsx:52-63 | no line with the id remains, and every line with another id is kept. A toast naming the found line is raised iff the id was present |
| `Cart.AddPreservesValid` | src/App.tsx:31-49 | add keeps one line per id and every quantity ≥ 1 |
| `Cart.AddIncrementsInPlace` | src/App.tsx:33-39 | in a valid selection, re-adding a present id changes exactly that line, to quantity + 1, in the same position, and raises no toast |
| `Cart.AddRepeatedly` | src/App.tsx:31-49 | n adds of one service from empty give the single line (service, n) |
| `Cart.FilterKeepsValid` | src/App.tsx:54 | filtering a valid selection leaves it valid |
| `Cart.RemovePreservesValid` | src/App.tsx:54 | remove keeps one line per id and every quantity ≥ 1 |
| `Cart.RemoveKeepsOrder` | src/App.tsx:54 | the remaining lines keep their original relative order |
| `Cart.RemoveAbsentIsNoop` | src/App.tsx:53-62 | removing an absent id leaves the selection unchanged and raises no toast |
| `Cart.RemoveDeletesOneLine` | src/App.tsx:54 | in a valid selection, removing a present id deletes exactly its line: `cart[..k] + cart[k+1..]` |
| `Cart.RemoveThenAdd` | src/App.tsx:40-54 | after remove, re-adding the service appends a fresh line with quantity 1 at the end |
| `SelectedServices.Subtotal` | src/components/SelectedServices.tsx:21 | the subtotal is non-negative when prices are non-negative and quantities positive |
| `SelectedServices.ItemCount` | src/components/SelectedServices.tsx:22 | in a selection with positive quantities, the unit count is at least the number of lines |
| `SelectedServices.Tax` | src/components/SelectedServices.tsx:134 | tax is exactly one tenth of the subtotal |
| `SelectedServices.GrandTotal` | src/components/SelectedServices.tsx:140 | grand total = subtotal + tax, and 10·grand = 11·subtotal |
| `SelectedServices.ItemsLabel` | src/components/SelectedServices.tsx:51 | the label is "item" iff the count is 1, and "items" otherwise |
| `SelectedServices.CheckoutCaption` | src/components/SelectedServices.tsx:155-166 | the button reads "Processing..." iff a checkout is running, and "Proceed to Checkout" iff none is |
| `SelectedServices.LineAmount` | src/components/SelectedServices.tsx:100 | the amount beside a line is its unit price for one unit, never negative, and at least the unit price for a positive quantity of a priced service |
| `SelectedServices.TotalsShown` | src/components/SelectedServices.tsx:67-116 | the totals section is never shown on a collapsed panel, and whenever it is shown the unit count is positive |
| `SelectedServices.CheckoutDisabled` | src/components/SelectedServices.tsx:149 | the checkout button is disabled exactly when the unit count is 0 (the selection is empty) or a checkout is running |
| `SelectedServices.SubtotalIsSumOfAmounts` | src/components/SelectedServices.tsx:100 | the per-line amounts (price × quantity) add up to the subtotal |
| `SelectedServices.SubtotalAppend` | src/components/SelectedServices.tsx:21 | the subtotal of a concatenation is the sum of the two subtotals |
| `SelectedServices.ItemCountAppend` | src/components/SelectedServices.tsx:22 | the unit count of a concatenation is the sum of the two unit counts |
| `SelectedServices.EmptyTotals` | src/components/SelectedServices.tsx:21-22 | the empty selection has unit count, subtotal, tax and grand total all 0 |
| `SelectedServices.ItemCountZeroIffEmpty` | src/components/SelectedServices.tsx:22 | in a valid selection, the unit count is 0 iff there are no lines |
| `SelectedServices.ShownButtonDisabledOnlyWhileCheckingOut` | src/components/SelectedServices.tsx:67-149 | whenever the button is rendered (panel expanded, selection non-empty), it is disabled iff a checkout is running |
| `SelectedServices.ReplaceChangesTotals` | src/components/SelectedServices.tsx:21-22 | replacing one line changes each total by the difference between the old and new line |
| `SelectedServices.IncrementChangesTotals` | src/App.tsx:35-39 | one more unit on a line adds 1 to the unit count and that line's price to the subtotal |
| `SelectedServices.AddChangesTotals` | src/App.tsx:31-49 | adding a catalog service raises the unit count by 1 and the subtotal by its price |
| `SelectedServices.RemoveChangesTotals` | src/App.tsx:54 | removing a present line lowers the subtotal by its amount and the unit count by its quantity |
| `SelectedServices.CheckoutPanel.constructor` | src/components/SelectedServices.tsx:18-19 | the panel starts expanded, not checking out, with no completion scheduled |
| `SelectedServices.CheckoutPanel.ToggleExpanded` | src/components/SelectedServices.tsx:42 | a click on the summary bar flips `isExpanded` |
| `SelectedServices.CheckoutPanel.HandleCheckout` | src/components/SelectedServices.tsx:24-149 | a click starts a checkout iff the button is on screen (panel expanded, selection non-empty) and enabled. Starting sets `isCheckingOut` and schedules a completion that holds the current selection; otherwise nothing changes |
| `SelectedServices.CheckoutPanel.CompletionFires` | src/components/SelectedServices.tsx:26-29 | the completion returns the captured selection and clears `isCheckingOut` |
| `ServicesList.IsAdded` | src/components/ServicesList.tsx:21 | `isAdded` is true iff some line has the service's id |
| `ServicesList.Cards` | src/components/ServicesList.tsx:16-23 | one card per service, in input order, each with that service and its `isAdded` flag |
| `ServicesList.NothingAddedWhenEmpty` | src/components/ServicesList.tsx:21 | with an empty selection no card shows as added |
| `ServicesList.IsAddedIgnoresQuantity` | src/components/ServicesList.tsx:21 | `isAdded` depends only on the lines' ids, not on quantities |
| `ServicesList.IsAddedAfterAdd` | src/components/ServicesList.tsx:21 | after an add, a card shows as added iff it did before or it is the added service |
| `ServicesList.IsAddedAfterRemove` | src/components/ServicesList.tsx:21 | after a remove, a card shows as added iff it did before and it is not the removed id |
| `ServiceCard.CategoryIcon` | src/components/ServiceCard.tsx:23-34 | Premium ⇔ ⭐, Comfort ⇔ 🛡️, Time-Saving ⇔ ⏱️, any other category ⇔ ✨ |
| `ServiceCard.AddCaption` | src/components/ServiceCard.tsx:119-129 | the button reads "Added" iff `isAdded`, and "Add Service" otherwise |
| `ServiceCard.SpecialGetsSparkles` | src/components/ServiceCard.tsx:31-32 | "Special" gets the default icon ✨ |
| `App.PremiumServices` | src/App.tsx:82 | the Premium section holds exactly the services whose category is "Premium" |
| `App.ComfortServices` | src/App.tsx:83 | the Comfort section holds exactly the services whose category is "Comfort" |
| `App.OtherServices` | src/App.tsx:84 | the other section holds exactly the services whose category is neither "Premium" nor "Comfort" |
| `App.SectionsPartition` | src/App.tsx:82-84 | the Premium, Comfort and other sections together hold every service exactly as often as the list does |
| `App.SectionsDisjoint` | src/App.tsx:82-84 | no service is in two sections |
| `App.SectionsKeepOrder` | src/App.tsx:82-84 | each section lists its services in catalog order |
| `App.SectionSizes` | src/App.tsx:82-84 | twelve services with the catalog's categories, in order, give 5 Premium, 5 Comfort and 2 other services |
| `App.CatalogSectionSizes` | src/App.tsx:82-84 | the shipped catalog splits into 5 Premium, 5 Comfort and 2 other services |
| `App.Storefront.constructor` | src/App.tsx:15-17 | the selection starts empty, with no toast and no timers |
| `App.Storefront.AddService` | src/App.tsx:31-49 | the selection becomes `Cart.Add` of the old one and stays valid. A toast is shown, and its dismissal scheduled, only when one is raised |
| `App.Storefront.RemoveService` | src/App.tsx:52-63 | the selection becomes `Cart.Remove` of the old one and stays valid. A toast is shown only when the id was found |
| `App.Storefront.ClickAdd` | src/components/ServiceCard.tsx:17-18 | clicking card i adds exactly that card's service, once, with the same toast and dismissal timer as `AddService` |
| `App.Storefront.HandleCheckout` | src/App.tsx:65-80 | the total is Σ price × quantity of the given lines. The confirmation toast carries subtotal × 1.1, and one dismissal and one clear are scheduled. Empty lines are not rejected |
| `App.Storefront.ClickCheckout` | src/components/SelectedServices.tsx:67-149 | checkout starts iff the panel is expanded, the selection is non-empty and none is running. Starting captures the selection |
| `App.Storefront.CompletionFires` | src/components/SelectedServices.tsx:26-29 | the confirmation uses the selection captured at the click, not the current one. The selection is unchanged, the panel returns to idle, and one toast dismissal and one clear are scheduled |
| `App.Storefront.ClearFires` | src/App.tsx:77-79 | the selection becomes empty whatever it holds, including an already empty one |
| `App.Storefront.DismissFires` | src/App.tsx:45 | a dismissal timer removes whichever toast is showing |
| `Scenarios.MixedQuantityTotals` | src/components/SelectedServices.tsx:21-22 | 45 × 1 + 89 × 2 gives subtotal 223, 3 units, tax 22.3 and total 245.3 |
| `Scenarios.OneLineTotals` | src/components/SelectedServices.tsx:21-22 | a one-line selection totals its line |
| `Scenarios.TwoLineTotals` | src/components/SelectedServices.tsx:21-22 | a two-line selection totals its two lines |
| `Scenarios.CheckoutScenario` | src/App.tsx:65-80 | adding "1" and "2" gives 2 units. Checkout confirms 147.4 even though "3" is added while it runs, and the clear then empties all three lines |
| `Scenarios.CheckoutWhileAdding` | src/components/SelectedServices.tsx:24-30 | for any three distinct services, the confirmation uses the first two and the clear empties all three |
| `Scenarios.EmptyCheckoutScenario` | src/components/SelectedServices.tsx:149 | adding "1" twice gives subtotal 90 and total 99. After removing it, a checkout click starts nothing and schedules no clear |
| `Scenarios.CollapsedCheckoutScenario` | src/components/SelectedServices.tsx:42-67 | with a non-empty selection, a checkout click on the collapsed panel starts nothing, and after re-expanding it starts |
| `Scenarios.AddTwiceRemoveCheckout` | src/App.tsx:31-63 | the same for any service: subtotal 2 × price, then no checkout on the empty selection |

## Left out

- Rendering, inline styles, layout, framer-motion animations, and the hover and ripple flags of
  `ServiceCard.tsx`: these are presentation only.
- `Header.tsx`, `Footer.tsx` and `styles/theme.ts` contain only markup and token tables.
  `ThemeToggle.tsx` depends on a theme context that is not part of this model.
- The welcome toast (`App.tsx:20-29`) and the confetti flag (`App.tsx:16`, `68-69`) have no
  effect on the selection, and the confetti uses `Math.random`.
- Timer durations are not modelled. Only the order of the events is.
- Toast texts and their `type` field: `Cart.Notice` carries the service name or the total.
- Floating-point arithmetic and `toFixed(2)`: the model computes exact values, where the
  source computes in doubles and rounds for display.
- `Line.quantity` is an unbounded integer. The source's numbers are doubles, which could only
  lose precision after about 2^53 adds.
- `handleRemoveService` looks up the toast's name in the render-time list, while it filters the
  updater's `prev`. With a single writer these are the same list, and the model uses one.
- `SelectedServices.CheckoutPanel.HandleCheckout`: a click on a disabled button, or on a collapsed
  panel where no button is rendered, is modelled as a call that changes nothing. In the source
  the browser never delivers such a click.
- React's double invocation of state updaters in development mode is not modelled.
