# Quotation pricing engine — Dafny model

This project models the pricing core of the TerraEMS quotation configurator.
A customer picks energy meters, an AI opt-in, an edge gateway device and
one-time professional services. The form then computes the monthly and one-time
costs and lists them line by line on screen, in the printable quotation and in
the Word export. An administrator edits the price catalog, which is kept in
browser storage.

Modules:

- `PricingService` (`pricing_service.dfy`): the catalog records, the default
  catalog, and read-with-fallback. `BrowserStorage` is a class whose fields hold
  the values stored under the catalog key and the admin-session key. Two more
  fields say whether the browser currently throws on reads or on writes.
- `Quotation` (`quotation.dfy`): the form's meter and service lines and the
  aggregator as specification functions. Also: merging catalog rates into the
  form by id, quantity-input validation and the by-id edits. The two
  accumulation loops of the calculation effect are `SumMeterCosts` and
  `SumServiceCosts`, each proved equal to its function.
- `Breakdown` (`breakdown.dfy`): the itemised rows. The source copies the
  per-row cost rule inline four times (Word export, on-screen summary, the two
  tables of the printable quotation). Here it is written once (`RowCost`), and
  each copy is `ServiceRows` with that copy's rule for dropping rows. The
  lemmas prove that the rows agree with the aggregator and add up to the
  printed service total.
- `QuotationApp` (`quotation_app.dfy`): class `QuotationForm`, with the React
  state as fields. `Recompute` is the calculation effect and every handler
  calls it. `Valid()` says that every displayed cost equals the aggregator
  applied to the current selections.
- `AdminDashboard` (`admin_dashboard.dfy`): the by-id catalog edits and class
  `Dashboard`, including the `isModified` flag across edit, save and logout.

All amounts are whole rupees (`int`). Rates and minimums may be negative,
because the admin inputs accept any number. Quantities are `nat`, because the
handlers only ever store non-negative values.

Where the design description and the code differ, the model follows the code:

- Unknown service ids cost 0 without any signal.
- An empty service or edge quantity is stored as 0. An edge quantity of 0 is
  still charged as one unit. An s1 quantity of 0 costs 0. An s3 line with
  quantity 0 costs its minimum. An s2 line with quantity 0 costs its minimum
  only with the AI opt-in; without it, it costs 0 like every s2 line.
- The design says a negative or non-numeric meter quantity is coerced to 0.
  The meter handler (src/App.tsx:879-894) instead leaves the state unchanged
  for such input. Only an empty box is stored as 0
  (`Quotation.AcceptedQuantity` with least value 0).
- The "minimum applied" marker tests three things: a nonzero minimum, a cost
  equal to the minimum, and rate × quantity below the minimum.
  `Breakdown.ServiceRowOf` proves this is exactly "floored line and rate ×
  quantity below a nonzero minimum". So for every row the marker agrees with
  the `rate × quantity < minimum` rule.
- The edge rates are read from storage on a recalculation only when the edge
  device is required. Otherwise the edge costs are 0 and storage is not read.
  Meter and service rates, by contrast, are only merged in when the form mounts
  or reloads pricing.

Observations:

- The Word export drops a row whose cost is exactly 0. The screen and the
  printable quotation keep only rows whose cost is positive. The two agree
  when no rate or minimum is negative (`Breakdown.CopiesAgree`). A negative
  rate splits them (`Breakdown.NegativeRateSplitsCopies`).
- The unit-test fixture for the row rule has two lines that both carry the
  "Minimum applied" marker: s2 at 200 × 1 under 300, and s3 at 150 × 3 under
  500. `Breakdown.RowRuleExamples` states both.

## Model

| member | source | states |
|---|---|---|
| `PricingService.DefaultPricing` | src/services/pricingService.ts:30-47 | four meters and three services with unique ids; only s2 and s3 carry a minimum; every AI tier above the plain rate; edge rates 100 monthly and 3000 one-time; timestamp is the module load time |
| `PricingService.LoadPricing` | src/services/pricingService.ts:53-64 | the result is the fallback, or the stored catalog when the read succeeded; it is the stored catalog whenever the stored text parses, and the fallback when the key is absent, empty or unparseable, or when reading throws |
| `PricingService.BrowserStorage.constructor` | src/services/pricingService.ts:30-50 | storage starts with the given contents; the default catalog is the one built at module load |
| `PricingService.BrowserStorage.GetPricingConfig` | src/services/pricingService.ts:53-64 | returns the defaults or a catalog stored under the key; returns the defaults when the key is absent |
| `PricingService.BrowserStorage.SavePricingConfig` | src/services/pricingService.ts:67-75 | reports success exactly when the write does not throw; on success the key holds the catalog and a later load returns it; on failure storage is unchanged |
| `PricingService.BrowserStorage.RemoveAdminSession` | src/components/AdminDashboard.tsx:89 | the admin-session key is absent afterwards |
| `Quotation.MeterMonthlyConcat` | src/App.tsx:127-131 | the monthly meter cost of two lists of lines is the sum of their costs |
| `Quotation.MeterMonthlyUpdate` | src/App.tsx:127-131 | replacing one meter line changes the monthly meter cost by that line's difference only |
| `Quotation.MeterMonthlyMonotone` | src/App.tsx:127-131 | raising one meter's quantity never lowers the monthly meter cost when its rate is non-negative |
| `Quotation.AiTierNotCheaper` | src/App.tsx:129-130 | when every AI tier is at least the plain rate, opting in to AI never lowers the monthly meter cost |
| `Quotation.NoMetersCostNothing` | src/App.tsx:127-131 | all quantities 0 gives a monthly meter cost of 0 |
| `Quotation.SumMeterCosts` | src/App.tsx:127-132 | the meter loop returns the sum over lines of quantity × (AI ? rateWithAI : rateNoAI) |
| `Quotation.Floored` | src/App.tsx:160-165 | a floored charge is at least rate × quantity and at least the minimum (0 when absent), and equals one of them |
| `Quotation.ServiceCost` | src/App.tsx:152-169 | unselected lines, unknown ids and s2 without AI add 0; s1 adds rate × (quantity ?? 1); s3, and s2 with AI, add the floored charge |
| `Quotation.ServiceOneTimeConcat` | src/App.tsx:151-170 | the service total of two lists is the sum of their totals |
| `Quotation.ServiceOneTimeUpdate` | src/App.tsx:151-170 | replacing one service line changes the service total by that line's difference only |
| `Quotation.AiPhilosophyIgnoredWithoutAi` | src/App.tsx:157-162 | without AI opt-in, replacing the s2 line by any other s2 line (any selection, quantity, rate, minimum) leaves the service total unchanged |
| `Quotation.NoServicesCostNothing` | src/App.tsx:151-170 | with nothing selected the service total is 0 |
| `Quotation.SumServiceCosts` | src/App.tsx:151-170 | the service loop returns the sum of each line's contribution |
| `Quotation.EdgeCosts` | src/App.tsx:135-148 | not required gives 0 and 0; the charge goes only to the bucket of the payment mode; when required it totals that mode's rate × max(1, quantity) |
| `Quotation.EmptyEdgeQuantityChargedAsOne` | src/App.tsx:138 | an edge quantity of 0 is charged exactly like 1 |
| `Quotation.EmptyQuotationIsFree` | src/App.tsx:182-184 | no meters, no edge device and no selected services give monthly and one-time totals of 0 |
| `Quotation.PaymentModeSelectsBucket` | src/App.tsx:134-184 | switching the payment mode moves the edge charge between the monthly and one-time totals; meter and service parts stay |
| `Quotation.WorkedScenarios` | src/App.tsx:127-170 | 3 meters at 10/20 cost 30 without AI and 60 with it; 2 edge units monthly at 100 cost 200 and 0 one-time; s3 at 1000 × 50 under 100000 costs 100000, at 1000 × 200 costs 200000 |
| `Quotation.Find` | src/App.tsx:98-110 | the `find` by id used for meters and services: none exactly when no entry has the id; otherwise the entry at the first index holding the id |
| `Quotation.FindUnique` | src/App.tsx:98-110 | with unique ids, looking up an entry's id finds that entry |
| `Quotation.MergeMeters` | src/App.tsx:96-104 | same length and order; id, name and quantity kept; a meter with a catalog entry takes its two rates, others are unchanged |
| `Quotation.MergeServices` | src/App.tsx:107-119 | same length and order; id, name, unit, selection and quantity kept; a service with a catalog entry takes its rate and its minimum (even an absent one), others are unchanged |
| `Quotation.MergeIdempotent` | src/App.tsx:96-119 | merging the same catalog twice is the same as merging it once |
| `Quotation.AcceptedQuantity` | src/App.tsx:880-901 | a parsed number at least the bound is stored as is, an empty box as 0, anything else leaves the state alone; what is stored is 0 or at least the bound |
| `Quotation.WithMeterQuantity` | src/App.tsx:882-892 | only meters with the id change, and only in their quantity; length and order kept |
| `Quotation.WithServiceSelected` | src/App.tsx:905-911 | only services with the id change, and only in their selected flag |
| `Quotation.WithServiceQuantity` | src/App.tsx:916-926 | only services with the id change, and only in their quantity |
| `Breakdown.MeterRows` | src/components/QuotationPDF.tsx:55 | every row has a positive quantity and total = rate × quantity; no rows exactly when every quantity is 0 |
| `Breakdown.MeterRowsMembership` | src/components/QuotationPDF.tsx:55 | every row is the row of a meter with a positive quantity, at that meter's rate for the AI choice; every meter with a positive quantity has its row |
| `Breakdown.MeterRowsSumToMeterCost` | src/App.tsx:364-394 | the meter rows of the export add up to the monthly meter cost printed under them |
| `Breakdown.MeterRowsConcat` | src/components/QuotationPDF.tsx:55 | filtering keeps form order: the rows of a concatenation are the concatenated rows |
| `Breakdown.RowCost` | src/App.tsx:647-654 | on every selected line the inline row cost equals the aggregator's contribution; unknown ids cost 0 |
| `Breakdown.ServiceRowOf` | src/components/QuotationPDF.tsx:101-119 | shown quantity is quantity ?? 1; cost agrees with the aggregator; "minimum applied" iff floored (s3, or s2 with AI) with a nonzero minimum above rate × quantity |
| `Breakdown.ServiceRows` | src/App.tsx:647-679 | every row's cost passes the copy's filter; rows only for s1, s2, s3; no s2 row without AI; no rows when nothing is selected |
| `Breakdown.ServiceRowsMembership` | src/App.tsx:647-679 | every row is the row of a selected service whose cost the copy's filter keeps; every such service has its row |
| `Breakdown.ServiceRowsConcat` | src/components/QuotationPDF.tsx:101-122 | service rows keep form order |
| `Breakdown.ExportRowsSumToServiceTotal` | src/App.tsx:647-690 | the export's service rows add up exactly to the one-time service total, for every input |
| `Breakdown.ShownRowsSumToServiceTotal` | src/components/QuotationPDF.tsx:183-202 | rows shown on screen and in the printable quotation never add up to less than the service total, and exactly to it when no price is negative |
| `Breakdown.CopiesAgree` | src/App.tsx:1164-1178 | with non-negative pricing the export, the summary and both printable tables list the same service rows |
| `Breakdown.NegativeRateSplitsCopies` | src/App.tsx:657 | a selected s1 at a negative rate is listed by the export but not by the screen |
| `Breakdown.SummaryGateHidesNothing` | src/App.tsx:1160-1178 | with non-negative pricing the service total is positive exactly when there are service rows to show |
| `Breakdown.RowRuleExamples` | src/__tests__/App.test.tsx:13-62 | rate 100 × 2 costs 200; rate 200 × 1 with minimum 300 costs 300; rate 150 × 3 with minimum 500 costs 500 with the marker; an absent quantity shows 1 and costs 100 |
| `QuotationApp.InitialMeters` | src/App.tsx:57-62 | the form starts with four meters, all at quantity 0 |
| `QuotationApp.InitialServices` | src/App.tsx:76-80 | the form starts with three services, none selected, each at quantity 1 |
| `QuotationApp.InitialMetersMatchDefaults` | src/App.tsx:57-62 | merging the default catalog into the initial meters changes nothing |
| `QuotationApp.InitialServicesMatchDefaults` | src/App.tsx:76-80 | merging the default catalog into the initial services changes nothing |
| `QuotationApp.QuotationForm.constructor` | src/App.tsx:57-122 | the form starts with AI off, no edge device (monthly, quantity 1), the stored or default rates merged in, and consistent costs |
| `QuotationApp.QuotationForm.Recompute` | src/App.tsx:125-186 | every cost field equals the aggregator on the current selections and the edge rates in storage; no selection changes |
| `QuotationApp.QuotationForm.ReloadPricing` | src/App.tsx:92-122 | meters and services are merged with the loaded catalog; costs are consistent afterwards |
| `QuotationApp.QuotationForm.HandleMeterQuantityChange` | src/App.tsx:879-894 | the accepted quantity (at least 0, or 0 for empty) is stored in the meters with the id; rejected input changes nothing; costs are consistent |
| `QuotationApp.QuotationForm.HandleEdgeQuantityChange` | src/App.tsx:896-903 | the accepted quantity (at least 1, or 0 for empty) is stored; rejected input keeps the old quantity |
| `QuotationApp.QuotationForm.HandleServiceSelectionChange` | src/App.tsx:905-911 | only the services with the id change their selected flag; costs are consistent |
| `QuotationApp.QuotationForm.HandleServiceQuantityChange` | src/App.tsx:913-928 | the accepted quantity (at least 1, or 0 for empty) is stored in the services with the id; rejected input changes nothing |
| `QuotationApp.QuotationForm.SetAiOptIn` | src/App.tsx:1008 | sets the AI opt-in and recomputes |
| `QuotationApp.QuotationForm.SetEdgeRequired` | src/App.tsx:1030 | sets whether the edge device is required and recomputes |
| `QuotationApp.QuotationForm.SetEdgePayment` | src/App.tsx:1061 | sets the edge payment mode and recomputes |
| `AdminDashboard.UpdateMeterById` | src/components/AdminDashboard.tsx:30-36 | only the named rate of the meters with the id changes; length, order, ids and names kept |
| `AdminDashboard.UpdateServiceById` | src/components/AdminDashboard.tsx:40-46 | only the rate, or the minimum (made present), of the services with the id changes |
| `AdminDashboard.UpdateEdge` | src/components/AdminDashboard.tsx:50-54 | only the named edge rate changes |
| `AdminDashboard.UpdateKeepsUniqueIds` | src/components/AdminDashboard.tsx:30-46 | edits keep catalog ids unique |
| `AdminDashboard.Dashboard.constructor` | src/components/AdminDashboard.tsx:18-19 | the dashboard starts from the loaded catalog with no unsaved changes |
| `AdminDashboard.Dashboard.HandleMeterChange` | src/components/AdminDashboard.tsx:30-38 | the catalog changes only in that meter field; services, edge device and timestamp kept; isModified set |
| `AdminDashboard.Dashboard.HandleServiceChange` | src/components/AdminDashboard.tsx:40-48 | the catalog changes only in that service field; isModified set |
| `AdminDashboard.Dashboard.HandleEdgeDeviceChange` | src/components/AdminDashboard.tsx:50-56 | the catalog changes only in that edge field; isModified set |
| `AdminDashboard.Dashboard.HandleSave` | src/components/AdminDashboard.tsx:58-82 | callable only while Save is enabled; stores the working catalog with only its timestamp replaced; success clears isModified and a later load returns what was saved; failure keeps isModified, the edits and storage |
| `AdminDashboard.Dashboard.HandleLogoutClick` | src/components/AdminDashboard.tsx:85-97 | logs out (session marker removed) exactly when there are no unsaved changes or the user confirms; otherwise nothing changes |

## Left out

- Word document construction and download, `window.print`, JSX layout, CSS, toasts and the button component: rendering only. Only the row rules inside them are modelled.
- Currency formatting (`toFixed(2)`) and JavaScript floating-point numbers: all amounts are integers. An admin input that is fractional or not a number is not modelled.
- JSON encoding: a stored catalog is the value itself, and decoding is the identity. A stored text that parses to something other than a catalog (the source returns it unchecked) is not modelled.
- The read side of localStorage, the clock and `window.confirm` are parameters or fields: `readFails`, `writeFails`, the `now` timestamp and the `confirmed` flag.
- Authentication (admin login and SSO), the switch between the admin and quotation views, and the reload trigger that sends the form back through `ReloadPricing` after an admin logout: these are routing glue.
- The console warning when s2 is selected without AI: a side effect only.
- React scheduling: each handler runs `Recompute` synchronously.
- The hard-coded payment text and the display strings of the printable quotation.
- The two printable tables are one instance of `ServiceRows`, because they run the same filter and cost rule. The second table shows no marker; its costs are the `cost` field of the same rows.
