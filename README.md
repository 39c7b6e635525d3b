# Atelier price calculator — a verified model

The tailoring studio's landing page has one piece of logic: a price-estimation calculator.
The customer picks a garment type (dress, suit, coat, shirt, pants), a fabric (cotton, wool,
silk, cashmere, velvet) and any number of add-on services (express making, an extra fitting,
embroidery, premium lining). The "calculate" button then stores an estimate. The estimate is the
garment's base price times the fabric's multiplier, plus the flat price of every selected
service.

The model has five modules, one per component of that calculator:

- `Wrappers` (wrappers.dfy): `Option`, standing for JavaScript's `undefined` result of
  `Array.find`.
- `Catalog` (catalog.dfy): the three static tables and the `find` lookups on them. Fabric
  multipliers are held exactly, as integer tenths (10, 13, 15, 20, 14).
- `Pricing` (pricing.dfy): the specification of the estimate. This is the add-on total summed
  left to right as the `forEach` does, the base price `basePrice * tenths / 10`, and
  `Estimate`, which is `None` when the garment or the fabric id is not in its table.
- `ServiceSelection` (selection.dfy): the checkbox toggle on the selected-services list, a pure
  function, and the no-duplicates invariant.
- `Session` (session.dfy): class `Calculator`, which holds the four pieces of session state
  (`selectedGarment`, `selectedFabric`, `additionalServices`, `estimatedPrice`). Its handlers
  update them in place. `CalculatePrice` runs the source's accumulator loop and is proved
  against `Pricing.Estimate`.

Two facts about the code shape the model:

- The code applies no rounding to the estimate. The model applies none either. With these tables
  `basePrice * multiplier` is always a whole number, and `Pricing.BasePriceExact` proves that the
  tenths computation is exact.
- The selected services are kept in a list, not a set. The toggle keeps the list free of
  duplicates. The model keeps the list, proves that invariant, and proves that the estimate does
  not depend on the list's order.

## Model

| member | source | states |
|---|---|---|
| `Catalog.Garments` | src/pages/Index.tsx:20-26 | defines the garment table: five entries with their ids, names and integer base prices |
| `Catalog.Fabrics` | src/pages/Index.tsx:28-34 | defines the fabric table: five entries with their multipliers as tenths (1 = 10, 1.3 = 13, 1.5 = 15, 2 = 20, 1.4 = 14) |
| `Catalog.Services` | src/pages/Index.tsx:36-41 | defines the add-on services table: four entries with their integer prices |
| `Pricing.ServicePrice` | src/pages/Index.tsx:51-52 | defines what one selected id adds (its table price, or nothing); an id adds a positive amount exactly when the services table knows it |
| `Pricing.AddOnTotal` | src/pages/Index.tsx:50-53 | defines the `forEach` fold: the prices of the selected ids summed left to right |
| `Pricing.BasePrice` | src/pages/Index.tsx:49 | defines `basePrice * multiplier` as `basePrice * tenths / 10` |
| `Pricing.BaseEstimate` | src/pages/Index.tsx:44-49 | defines the two `find` lookups and the early return: the base price of the pair, or None when either id is missing |
| `Pricing.Estimate` | src/pages/Index.tsx:43-55 | defines the estimate `CalculatePrice` stores: the base estimate plus the add-on total, or None |
| `Session.Calculator.CanCalculate` | src/pages/Index.tsx:306 | defines when the calculate button is enabled: both selections non-empty |
| `Session.Calculator.ShowsEstimate` | src/pages/Index.tsx:321 | defines when the result panel shows the estimate: it is above 0 |
| `Catalog.FindFirst` | src/pages/Index.tsx:44-45 | `find` by id: the index returned is that of the first entry carrying the id; None exactly when no entry carries it |
| `Catalog.LookupGarment` | src/pages/Index.tsx:44 | the garment found is a table entry with the requested id; None iff no garment has that id |
| `Catalog.LookupFabric` | src/pages/Index.tsx:45 | the fabric found is a table entry with the requested id; None iff no fabric has that id |
| `Catalog.LookupService` | src/pages/Index.tsx:51 | the service found is a table entry with the requested id; None iff no service has that id |
| `Catalog.CatalogIdsUnique` | src/pages/Index.tsx:20-41 | ids are unique in each of the three tables, so the first match is the only match |
| `Catalog.NoEmptyIds` | src/pages/Index.tsx:20-34 | no garment or fabric has the empty id that an unset selection holds |
| `Catalog.GarmentFigures` | src/pages/Index.tsx:20-26 | every base price is a whole number of thousands and at least 4000 |
| `Catalog.FabricFigures` | src/pages/Index.tsx:28-34 | every multiplier is at least 1 (ten tenths) |
| `Pricing.ServicePriceCharacterization` | src/pages/Index.tsx:50-52 | a selected id adds the price of the entry carrying it, and 0 when no entry does |
| `Pricing.AddOnTotalStep` | src/pages/Index.tsx:50-53 | each `forEach` iteration adds exactly the current id's price to the running total |
| `Pricing.BasePriceExact` | src/pages/Index.tsx:49 | for every garment and fabric the tenths computation equals `basePrice * multiplier` exactly (no rounding is lost) |
| `Pricing.BasePriceAtLeastMin` | src/pages/Index.tsx:49 | every garment and fabric pair costs at least 4000 before add-ons |
| `Pricing.AddOnTotalAppend` | src/pages/Index.tsx:50-53 | the add-on total of two concatenated lists is the sum of their totals |
| `Pricing.AddOnTotalWithout` | src/pages/Index.tsx:50-53 | removing the id at one position removes exactly its price from the total |
| `Pricing.AddOnTotalPermutation` | src/pages/Index.tsx:50-53 | two lists with the same ids (as a multiset) have the same add-on total |
| `Pricing.UnknownServiceIgnored` | src/pages/Index.tsx:50-52 | an id unknown to the services table, inserted anywhere, leaves the total unchanged |
| `Pricing.AddOnTotalOfUnknown` | src/pages/Index.tsx:50-52 | a list of unknown ids adds nothing |
| `Pricing.EstimateCharacterization` | src/pages/Index.tsx:43-55 | an estimate exists iff both ids are in their tables; it is then the base price of those entries plus the add-on total |
| `Pricing.EstimateDecomposes` | src/pages/Index.tsx:49-53 | the estimate equals the no-services estimate plus the add-on total, and whether it exists does not depend on the services |
| `Pricing.EstimateOrderIndependent` | src/pages/Index.tsx:49-55 | reordering the selected services does not change the estimate |
| `Pricing.EstimateLowerBound` | src/pages/Index.tsx:49-53 | every estimate is at least 4000, hence positive |
| `Pricing.MinEstimateAttained` | src/pages/Index.tsx:24 | the bound 4000 is reached (shirt, cotton, no services) |
| `Pricing.UnsetSelectionHasNoEstimate` | src/pages/Index.tsx:43-47 | an empty garment or fabric id yields no estimate |
| `Pricing.DressSilkEmbroidery` | src/pages/Index.tsx:49-53 | dress + silk + embroidery = 8000 × 1.5 + 3000 = 15000 |
| `Pricing.CoatCashmereExpressLining` | src/pages/Index.tsx:49-53 | coat + cashmere + express + lining = 40000 + 7000 = 47000 |
| `Pricing.NoGarmentCotton` | src/pages/Index.tsx:43-47 | no garment with cotton yields no estimate |
| `ServiceSelection.Remove` | src/pages/Index.tsx:61 | `filter` drops every occurrence of the id and keeps every other element with its multiplicity |
| `ServiceSelection.Toggled` | src/pages/Index.tsx:59-62 | the toggle flips the membership of the id and keeps the membership of every other id |
| `ServiceSelection.RemoveAppend` | src/pages/Index.tsx:61 | `filter` distributes over concatenation, so the remaining elements keep their order |
| `ServiceSelection.RemoveAbsent` | src/pages/Index.tsx:61 | filtering an absent id returns the list unchanged |
| `ServiceSelection.RemoveKeepsNoDuplicates` | src/pages/Index.tsx:61 | filtering never creates a duplicate |
| `ServiceSelection.ToggleKeepsNoDuplicates` | src/pages/Index.tsx:58-63 | the toggle preserves the no-duplicates invariant |
| `ServiceSelection.ToggleTwiceMembership` | src/pages/Index.tsx:59-62 | toggling the same id twice restores every id's membership |
| `ServiceSelection.ToggleTwiceAbsent` | src/pages/Index.tsx:59-62 | toggling an initially absent id twice restores the list exactly |
| `ServiceSelection.ToggleTwicePermutes` | src/pages/Index.tsx:59-62 | on a list without duplicates a double toggle yields the same ids, still without duplicates |
| `Session.Calculator.constructor` | src/pages/Index.tsx:14-17 | the session starts with empty selections, no services and estimate 0, so the button is disabled and no estimate is shown |
| `Session.Calculator.SelectGarment` | src/pages/Index.tsx:256 | the garment radio group stores the chosen id |
| `Session.Calculator.SelectFabric` | src/pages/Index.tsx:273 | the fabric radio group stores the chosen id |
| `Session.Calculator.ToggleService` | src/pages/Index.tsx:58-64 | the services list becomes the toggled list and stays free of duplicates |
| `Session.Calculator.CalculatePrice` | src/pages/Index.tsx:43-56 | the loop stores `Estimate` of the current selection, which is at least 4000 and therefore shown; with a missing garment or fabric, or with the button's disabled condition, the stored estimate is unchanged |
| `Session.DoubleToggleKeepsEstimate` | src/pages/Index.tsx:58-63 | ticking and unticking a service leaves the estimate of a duplicate-free selection unchanged |

## Left out

- Rendering, layout, images, icons and footer links (src/pages/Index.tsx:74-487): presentation only.
- View switching through `activeSection`: a navigation variable with no logic.
- `handleOrderSubmit` and the order form: the handler only shows a toast notification (a foreign UI hook) and relies on the browser's `required` fields; nothing is computed or stored.
- `toLocaleString` formatting of prices: locale-dependent display done by a library.
- Floating-point arithmetic: the model computes with exact integers and tenths instead of doubles. Nothing is lost by this. For every garment and fabric in these tables the double product `basePrice * multiplier` is exactly the whole number that `Pricing.BasePriceExact` proves. Adding the integer service prices stays exact too, because every total is far below 2^53.
- React `useState` batching and the functional updater of `setAdditionalServices`: state is plain fields updated synchronously, one handler at a time.
- The button's `disabled` attribute is not enforced by the model: `CalculatePrice` may be called at any time, and its contract states that it changes nothing when the button would be disabled.
