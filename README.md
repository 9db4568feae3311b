# EcoClear waste-collection platform — a Dafny model

EcoClear is a single-page prototype of a construction-waste clearance platform for Shanghai's Pudong district. One shared store, in `App.tsx`, holds the orders, the disposal facilities, the regulator's notices, the fleets, the driver profile, renovation applications and fleet projects. Each role gets its own view over that store: client, driver, fleet, disposal site, property manager, enterprise, labour crew, regulator and marketplace. The views filter the store, compute prices, ledgers and statistics, and write back through a few callbacks: prepend an order, `updateStatus` (merge a patch into the orders with a given id), replace a record by id, and raise an alert notice when a facility becomes full. Registration wizards build each role's profile step by step. An AI assistant answers questions and can route the user to a tab.

This project models that core in Dafny 4:

- **Values.** The enums and records of `types.ts` become datatypes, with each enum's run-time string as `Key()`.
- **The store.** `App.Store` is a class with one `seq` field per list. Each handler is a method whose `ensures` states the whole new value of the fields it may modify. The per-order merge of `updateStatus` is the pure function `App.MergeOrder`.
- **Views.** Each view is a module with:
  - pure selectors, whose contracts give membership in both directions;
  - the view's price and ledger arithmetic, with lemmas relating the figures;
  - a `class State` holding the view's `useState` fields;
  - one method per event handler. The handler takes the store as a parameter and modifies only the fields it writes.
- **Wizards** are classes with a `step` counter.
  - The driver wizard's counter is a `real`, because it takes the value 2.5.
  - Wizards whose submission goes to a callback return the submitted record as an out-parameter, `submitted`.
- **The AI service.** `services/geminiService.ts` keeps its string helpers: fence stripping, data-URL payload and MIME extraction, and the fallback records. The network call and the JSON parse become parameters. `analyzeWasteMedia`, `analyzeRecycledProduct` and `chatWithCopilot` are each `GeminiService.Settle` of the answer text with that service's fallback record.

Conventions:

- **Clock and randomness.** `Date.now()` is a `now: nat` parameter. The clock read when a module loads is `loadTime`. `Math.random()` is a parameter. `parseInt` and `parseFloat` are function parameters returning `Option`.
- **Truthiness.** The `||` of an optional string is `Truthy`, `OrElse` or `StrOr`, where `""` counts as false.
- **Updates.** An absent key of an update object is `Keep`, so `undefined` and "missing" stay apart.
- **The tax.** The price step `Math.round(subtotal * 1.06)` is exact integer rounding, with halves rounded up.

The generic helpers are `Wrappers`, `Strings` and `Seqs`:

- `Wrappers`: Option and Update.
- `Strings`: JavaScript whitespace, trim, split and join, `includes`, ASCII case mapping, decimal rendering and padding.
- `Seqs`: filter, find, sum, replace-by-key and a stable descending insertion sort.

They carry their own lemmas and are not listed below.

Some definitions carry no contract of their own. They are the plain computations that the rows below state properties of, and they are listed here rather than in the table:

- `GeminiService.CleanJson` (`cleanJsonString`, services/geminiService.ts:6-16) and its fenced branch `GeminiService.Unfence` (services/geminiService.ts:9-13): stated by `CleanJsonEmpty`, `CleanJsonUnfenced`, `CleanJsonJsonFence`, `CleanJsonBareFence`, `UnfenceJson`, `UnfenceBare` and `CleanJsonOfAnswer`.
- `GeminiService.Base64Payload` (services/geminiService.ts:26): stated by `Base64PayloadOf` and `Base64PayloadSecondPiece`.
- `GeminiService.RecycledInlineData` (services/geminiService.ts:137-148): stated by `RecycledInlineDataRaw`, `RecycledInlineDataOfUrl` and `RecycledInlineDataNoMime`.
- `GeminiService.AnalyzeWaste`, `GeminiService.AnalyzeRecycled` and `GeminiService.ChatWithCopilot` (services/geminiService.ts:21-131, 134-204 and 208-256): each is `Settle` with its fallback. They are stated by `Settle` and `SettleOfAnswer`, and at the views by `ClientView.FailedCallPriced`, `ClientView.NullAnswerTakesCatchPath`, `ClientView.AnswerPriced` and `AICopilot.FailedCallAnswersBusy`.
- `EnterpriseView.Subtotal` and `EnterpriseView.PerTruckPrice` (components/EnterpriseView.tsx:89-96): stated by `PerTruckPriceRules`, `FinalPerTruck`, `DefaultPrice` and `TaxNotLower`.
- `EnterpriseView.Batch` (components/EnterpriseView.tsx:224-266): stated by `BatchAt`, `BatchShape`, `BatchIdsDistinct`, `BatchTotal`, `BatchRaisesProjectCost` and `AddBatch`.
- `PropertyView.UnsettledAmount` (`unsettledAmount`, components/PropertyView.tsx:55-57): stated by `UnsettledAfterAdd`, `UnsettledWithinTotal` and `ClearanceIsBilled`.
- The `isNextDisabled` predicates:
  - `DriverOnboarding.NextDisabled` (components/DriverOnboarding.tsx:130-136) is stated by `DetourOnlyForNewCompany`: with Next enabled, the step-2 detour is taken only by a driver registering a new company.
  - `DisposalOnboarding.NextDisabled` (components/DisposalOnboarding.tsx:97) and the six `GeneralOnboardings.*Wizard.NextDisabled` (components/GeneralOnboardings.tsx:78, 165, 256, 342, 420, 508) hold for the empty form each wizard's constructor starts with.
- The view filters are stated by the selectors that use them:
  - `FleetView.MatchesSearch` and `FleetView.MatchesFilter` (components/FleetView.tsx:80-88) by `Ledger` and `LedgerExcludesUnsearchable`.
  - `DisposalView.HistoryHit` (components/DisposalView.tsx:63-70) by `FilteredHistory` and `SettlementFiltersDisjoint`.
  - `DisposalView.IsLargeClient` (components/DisposalView.tsx:99) by `SettlementFor`, `SettlementStatusFor` and `Confirmed`.
  - `MarketplaceView.MatchesType` and `MarketplaceView.MatchesSearch` (components/MarketplaceView.tsx:17-23) by `FilteredProducts` and `ShowAll`.

## Model

| member | source | states |
|---|---|---|
| Types.AllOrderStatuses | types.ts:2-12 | OrderStatus has exactly nine members, CREATED first and COMPLETED last, with pairwise distinct run-time strings |
| Types.AllOrderTypes | types.ts:14-19 | OrderType has exactly four members with distinct strings |
| Types.AllWasteTypes | types.ts:21-31 | WasteType has exactly nine members, UNKNOWN last, with distinct strings |
| Types.WasteTypeFromKey | types.ts:21-31 | reading a string back yields the waste type with that string, or none when no type has it |
| Types.AllRecycledProductTypes | types.ts:41-50 | RecycledProductType has exactly eight members, OTHER last, with distinct strings |
| Types.AllLaborServiceTypes | types.ts:175-179 | LaborServiceType has exactly three members with distinct strings |
| Types.AllCollectionMethods | types.ts:181-184 | CollectionMethod has exactly two members with distinct strings |
| Types.NewOrder | types.ts:112-144 | an order literal with only the required keys has every optional key absent |
| App.MergeAssignment | App.tsx:125-127 | `{...(old or {}), ...patch}`: a key present in the patch wins even when undefined; every other key keeps the old value |
| App.MergeOrder | App.tsx:122-138 | the matched order takes the passed status even when the patch carries one, merges the assignment only when the patch has one, takes each patched key, and keeps every other key |
| App.MergeNoData | App.tsx:129-134 | with an empty patch only the status changes |
| App.UpdateStatusIn | App.tsx:122-138 | same length and same ids; orders with another id are unchanged; orders with this id are merged |
| App.UpdateStatusUnknownId | App.tsx:123-137 | an id no order carries leaves the list exactly as it was |
| App.FleetAccept | App.tsx:239 | a fleet accept gives PENDING_PICKUP, the fleet's name and the plate 待指派; name and phone are whatever was there, so a fresh pool order gets an assignment without them |
| App.FleetAssign | App.tsx:240 | a fleet assign gives IN_PROGRESS with the driver's name, phone and plate and the fleet's name, a fully shaped assignment |
| App.AcceptThenAssign | App.tsx:239-240 | accept followed by assign is the same order as a single assign |
| App.FullAlert | App.tsx:142-150 | the full-facility alert is an ALERT to drivers and fleets, titled with the facility's name, stamped now |
| App.NoticesAfterFacilityUpdate | App.tsx:140-153 | one notice more exactly when the facility is FULL, and then it is the facility's alert, stamped now, in front of the old list; otherwise the list is unchanged |
| App.FleetToShow | App.tsx:232 | the first fleet named after the driver's fleet (default 城投环境物流车队) when one exists, else the first fleet; none only for no fleets |
| App.MyFacility | App.tsx:216 | facility `fac-1` when present; the first facility when there is none with that id; none only for no facilities |
| App.Store.constructor | App.tsx:87-112 | the store starts with the given initial lists and profile |
| App.Store.AddOrder | App.tsx:118-120 | the new order goes first and the others keep their order |
| App.Store.UpdateStatus | App.tsx:122-138 | the order list becomes `UpdateStatusIn` of the old one; nothing else changes |
| App.Store.ReplaceOrder | App.tsx:201 | the client's order replaces the one with its id |
| App.Store.UpdateFacility | App.tsx:140-153 | facility replaced by id, and the notices become `NoticesAfterFacilityUpdate` |
| App.Store.PublishNotice | App.tsx:155-157 | the notice goes first |
| App.Store.DriverOnboarding | App.tsx:159-164 | the driver profile is stored, and the fleet is appended only when one is supplied |
| App.Store.UpdateFleet | App.tsx:166-168 | fleet replaced by id |
| App.Store.FleetAcceptOrder | App.tsx:239 | the orders with that id are merged with the shown fleet's accept patch |
| App.Store.FleetAssignDriver | App.tsx:240 | the orders with that id are merged with the shown fleet's assign patch for that driver |
| App.Store.ApplyRenovation | App.tsx:201 | the application goes first |
| App.Store.UpdateRenovation | App.tsx:226 | application replaced by id |
| App.Store.AddFleetProject | App.tsx:209 | the project goes last |
| GeminiService.DropClosingFence | services/geminiService.ts:11-13 | a trailing fence and the blanks before it are removed; text without one is kept |
| GeminiService.CleanJsonEmpty | services/geminiService.ts:7 | empty input gives "" |
| GeminiService.CleanJsonUnfenced | services/geminiService.ts:9-15 | input that does not open with a fence once trimmed is only trimmed |
| GeminiService.JsonFenceIsFence | services/geminiService.ts:10-12 | a ```json opening is also a ``` opening, so the json branch is tried first |
| GeminiService.DropClosingFenceOf | services/geminiService.ts:11 | body, blanks and a closing fence give back the body |
| GeminiService.TrimStartBeforeBody | services/geminiService.ts:11 | trimming the start of the text after an opening fence reaches the body |
| GeminiService.CleanJsonJsonFence | services/geminiService.ts:9-11 | a ```json-fenced body with any surrounding blanks comes out as exactly the body |
| GeminiService.UnfenceJson | services/geminiService.ts:10-11 | the fenced branch applied to a ```json text returns the body |
| GeminiService.FencedIsTight | services/geminiService.ts:9-10 | a text opening and closing with fences has no surrounding blanks |
| GeminiService.CleanJsonBareFence | services/geminiService.ts:12-13 | a bare ```-fenced body also comes out as exactly the body, unless the body follows the fence directly and begins with `json` |
| GeminiService.UnfenceBare | services/geminiService.ts:12-13 | the fenced branch applied to a bare-fence text returns the body, under the same condition |
| GeminiService.NotJsonAfterFence | services/geminiService.ts:10-12 | a bare fence followed directly by a body not starting with `json` is not a ```json opening |
| GeminiService.CleanJsonOfAnswer | services/geminiService.ts:7-16 | every well-formed answer (```json-fenced, bare-fenced or unfenced, with any blanks around) is non-empty and cleans to its body |
| GeminiService.Base64PayloadOf | services/geminiService.ts:26 | a data URL gives the part after its comma; text without a comma is kept |
| GeminiService.Base64PayloadSecondPiece | services/geminiService.ts:26 | with several commas, the payload is the piece between the first and second comma |
| GeminiService.UpToSemicolon | services/geminiService.ts:144 | the lazy `(.*?);` capture: text before the first semicolon with no line break in it |
| GeminiService.UpToSemicolonOf | services/geminiService.ts:144 | a semicolon-free, line-free text followed by `;` is captured exactly |
| GeminiService.MimeMatch | services/geminiService.ts:144-147 | the captured MIME type never contains a semicolon |
| GeminiService.MimeMatchOf | services/geminiService.ts:144-147 | the capture is the text between the first ':' and the following ';' |
| GeminiService.RecycledInlineDataRaw | services/geminiService.ts:137-148 | input without a comma is sent whole as image/jpeg |
| GeminiService.RecycledInlineDataOfUrl | services/geminiService.ts:141-148 | `data:<mime>;base64,<payload>` is sent as that payload with that MIME type |
| GeminiService.RecycledInlineDataNoMime | services/geminiService.ts:141-148 | a header without ':' falls back to image/jpeg |
| GeminiService.NoColonNoMime | services/geminiService.ts:144-145 | text without ':' never matches |
| GeminiService.WasteFallback | services/geminiService.ts:119-130 | UNKNOWN, 10 kg, price 20, LOADING_ONLY, IMMEDIATE, a non-empty description and no hazard |
| GeminiService.Settle | services/geminiService.ts:106-131 | a JSON `null` gives none, and only that; an empty answer or one that does not parse gives the fallback; a text whose cleaned form parses to a record gives that record |
| GeminiService.SettleOfAnswer | services/geminiService.ts:106-131 | for a well-formed answer: a body that parses to a record gives that record, a `null` body gives none, a body that is not JSON gives the fallback |
| GeminiService.RecycledFallback | services/geminiService.ts:199-203 | OTHER, quantity "Unknown", value 0 |
| GeminiService.CopilotFallback | services/geminiService.ts:253-256 | a non-empty reply with no action |
| EnterpriseView.BasePrice | components/EnterpriseView.tsx:89 | the contract price, or 500 when it is absent or 0 |
| EnterpriseView.FinalPerTruck | components/EnterpriseView.tsx:95-96 | with tax, the integer nearest to 1.06 times the subtotal (halves up); without tax, the subtotal |
| EnterpriseView.PerTruckPriceRules | components/EnterpriseView.tsx:89-96 | per-truck price = round of (base + 300 for CONTAINER + 150 for labour + 100 for loading) times 1.06 when taxed |
| EnterpriseView.DefaultPrice | components/EnterpriseView.tsx:89-96 | with the default services and no contract price a truck costs 636 |
| EnterpriseView.TaxNotLower | components/EnterpriseView.tsx:95-96 | tax never lowers a non-negative subtotal |
| EnterpriseView.TotalEstimate | components/EnterpriseView.tsx:97 | one truck costs the per-truck price; the total is non-negative for non-negative inputs |
| EnterpriseView.OneMoreTruck | components/EnterpriseView.tsx:97 | one more truck adds one per-truck price to the total |
| EnterpriseView.BatchTotal | components/EnterpriseView.tsx:97 | the prices of the n orders a submission creates add up to the displayed total estimate |
| EnterpriseView.AvailableCredit | components/EnterpriseView.tsx:82 | available plus used equals the limit; it is non-negative exactly when used is within the limit |
| EnterpriseView.MyOrders | components/EnterpriseView.tsx:79 | exactly the orders whose userId is `ent-` plus the profile id |
| EnterpriseView.PendingOrders | components/EnterpriseView.tsx:85 | exactly the enterprise's orders that are not COMPLETED |
| EnterpriseView.ProjectCost | components/EnterpriseView.tsx:926-927 | non-negative for non-negative prices; zero when no order is booked on the project |
| EnterpriseView.ProjectCostAfterAdd | components/EnterpriseView.tsx:926-927 | one more order raises the cost of the project it is booked on by its price and leaves every other project's cost unchanged |
| EnterpriseView.BulkOrderOfProject | components/EnterpriseView.tsx:238 | every bulk order is booked on the project it was submitted for |
| EnterpriseView.BatchRaisesProjectCost | components/EnterpriseView.tsx:926-927 | a submission for n trucks raises its project's cost by exactly the total estimate |
| EnterpriseView.NewProject | components/EnterpriseView.tsx:140-160 | a PENDING project with trimmed name and address and a PENDING external sync |
| EnterpriseView.AddProject | components/EnterpriseView.tsx:136-167 | rejected exactly when the trimmed name or address is empty; otherwise the new project is appended last, the earlier ones unchanged |
| EnterpriseView.FleetDispatch | components/EnterpriseView.tsx:245-250 | an assigned bulk order names the contracted fleet with the plate 待指派车辆 |
| EnterpriseView.BulkOrder | components/EnterpriseView.tsx:225-264 | the i-th order: PENDING_PICKUP, WASTE_REMOVAL, CREDIT, the per-truck price, created at now+i, CARRY_AND_LOAD exactly when labour was chosen |
| EnterpriseView.BatchAt | components/EnterpriseView.tsx:224-266 | after n `addOrder` calls the store front holds orders n-1 down to 0 |
| EnterpriseView.BatchShape | components/EnterpriseView.tsx:224-266 | a submission for n trucks adds exactly n orders of that shape, assigned exactly when ASSIGN was chosen, with creation times rising by loop index |
| EnterpriseView.BatchIdsDistinct | components/EnterpriseView.tsx:225 | the orders of one submission have distinct ids |
| EnterpriseView.ProcurementOrder | components/EnterpriseView.tsx:192-217 | one RECYCLE_TRADE, BUY, PENDING_PICKUP, CREDIT order carrying the requirements |
| EnterpriseView.TargetProject | components/EnterpriseView.tsx:180 | the selected project when its id exists, else the first project |
| EnterpriseView.Toggled | components/EnterpriseView.tsx:113-115 | exactly the named service flips |
| EnterpriseView.ToggledTwice | components/EnterpriseView.tsx:113-115 | toggling twice restores the selection |
| EnterpriseView.State.constructor | components/EnterpriseView.tsx:35-63 | one truck, default services, removal mode, broadcast dispatch, the first project and first contracted fleet selected |
| EnterpriseView.State.ToggleService | components/EnterpriseView.tsx:113-115 | services become `Toggled` of the old ones |
| EnterpriseView.State.DecrementTrucks | components/EnterpriseView.tsx:428 | the count becomes `Counters.Decrement` of the old one |
| EnterpriseView.State.IncrementTrucks | components/EnterpriseView.tsx:437 | the count grows by one |
| Counters.Decrement | components/EnterpriseView.tsx:428 | the shared minus buttons (`Math.max(1, n - 1)`): one down from above 1, never below 1 |
| Counters.IncrementThenDecrement | components/EnterpriseView.tsx:428-437 | from any count of at least 1, the plus then the minus button restores it |
| EnterpriseView.State.Spec | components/EnterpriseView.tsx:222-262 | the shared part of the bulk orders: the truck count, the per-truck price, a driver exactly for ASSIGN, the labour flag |
| EnterpriseView.State.SubmitOrder | components/EnterpriseView.tsx:173-278 | nothing changes for a removal without media or without projects; a procurement adds one buy order; a removal adds the whole batch; then the form resets, keeping the selected project, fleet, collection method, services and procurement details |
| EnterpriseView.State.Reset | components/EnterpriseView.tsx:270-277 | the form resets to removal with one truck and no media, keeping the other selections |
| EnterpriseView.AddBatch | components/EnterpriseView.tsx:224-266 | the loop's `addOrder` calls leave `Batch(spec, n)` in front of the old orders |
| ClientView.BaseRate | components/ClientView.tsx:123 | the table entry, or 1000 for a key not in the table |
| ClientView.BaseRateOfEveryType | components/ClientView.tsx:8-18 | every waste type has an entry between 600 and 2500, so the 1000 default is never used |
| ClientView.LaborRate | components/ClientView.tsx:20-24 | between 0 and 300, and 0 exactly for NONE |
| ClientView.LaborRateMonotone | components/ClientView.tsx:20-24 | more labour never costs less |
| ClientView.ComposedPrice | components/ClientView.tsx:123 | base rate of the waste type plus the labour rate, between 600 and 2800 |
| ClientView.Priced | components/ClientView.tsx:123 | only the estimated price of the analysis changes, to the composed price |
| ClientView.FallbackNotComposed | components/ClientView.tsx:154-166 | the catch path's fixed 1200 differs from the 1300 the tables give for its own type and labour |
| ClientView.ClientOrder | components/ClientView.tsx:125-136 | a REVIEW_REQUIRED WASTE_REMOVAL order of `user-1` with the media, location, pickup details and analysis |
| ClientView.AttachedAnalysis | components/ClientView.tsx:122-166 | a resolved record, priced by the rate tables; the fixed 1200 catch record when the service resolved to `null` |
| ClientView.FailedCallPriced | components/ClientView.tsx:122-123 | an empty answer or one that does not parse yields the service's UNKNOWN fallback, which the tables price at 1300; it is not the catch record |
| ClientView.NullAnswerTakesCatchPath | components/ClientView.tsx:140-166 | a well-formed answer whose body is `null` is the only way to reach the catch record |
| ClientView.AnswerPriced | components/ClientView.tsx:122-123 | a record parsed from a well-formed answer is attached with the tables' price |
| ClientView.RenovationReport | components/ClientView.tsx:178-192 | a PENDING application of `user-1` with the form's community, room and duration and no permit |
| ClientView.State.constructor | components/ClientView.tsx:50-66 | list screen, nothing uploaded, the default renovation form |
| ClientView.State.StartAnalysis | components/ClientView.tsx:118-174 | nothing without media and location; otherwise one order goes first and becomes the order under review |
| ClientView.State.AcceptPlan | components/ClientView.tsx:398 | the reviewed order, with only its status changed to PENDING_PICKUP, replaces the stored one |
| ClientView.State.SubmitRenovation | components/ClientView.tsx:176-196 | nothing without a room; otherwise the report goes first |
| FleetView.Pool | components/FleetView.tsx:71 | exactly the PENDING_PICKUP orders with no fleet name |
| FleetView.DispatchQueue | components/FleetView.tsx:73-76 | exactly this fleet's orders whose plate is missing, 待指派 or 待指派车辆 |
| FleetView.GrabbedIsDispatchable | components/FleetView.tsx:71-76 | a grabbed order leaves the pool and enters the grabbing fleet's dispatch queue |
| FleetView.Ledger | components/FleetView.tsx:78-89 | exactly this fleet's orders that match search and filter, sorted by non-increasing createdAt |
| FleetView.LedgerExcludesUnsearchable | components/FleetView.tsx:81-83 | an order with no driver name, plate or community never appears, even for the empty search |
| FleetView.LedgerPartition | components/FleetView.tsx:84-86 | for a fixed search, SETTLED and UNSETTLED together are the ALL ledger, as multisets |
| FleetView.LedgerIsSelected | components/FleetView.tsx:78-88 | the sort is a permutation of the filtered orders |
| FleetView.SelectedPartition | components/FleetView.tsx:84-86 | the filtered orders partition the same way before sorting |
| FleetView.FinancialStats | components/FleetView.tsx:91-95 | total and completed are price sums, pending = total - completed, and with non-negative prices 0 <= completed <= total |
| FleetView.CompletedWithinTotal | components/FleetView.tsx:92-94 | completed takings never exceed the total for non-negative prices |
| FleetView.WithProject | components/FleetView.tsx:113-124 | one PENDING project appended, with the form's name and address; the rest of the profile unchanged |
| FleetView.NewDriver | components/FleetView.tsx:134-145 | a VERIFIED company driver with an upper-cased plate |
| FleetView.State.constructor | components/FleetView.tsx:44-56 | ledger tab, the initial drivers, empty search and the ALL filter |
| FleetView.State.GrabOrder | components/FleetView.tsx:97-103 | the shown fleet accepts the order and the console switches to dispatch |
| FleetView.State.InternalDispatch | components/FleetView.tsx:105-111 | the chosen driver is assigned and the dialog closes |
| FleetView.State.AddProject | components/FleetView.tsx:113-127 | nothing without name and address; otherwise the profile with the new project replaces the stored fleet |
| FleetView.State.AddDriver | components/FleetView.tsx:129-150 | rejected when name, phone or plate is empty; otherwise the driver goes first, the list grows by one and the form clears |
| FleetView.State.SimulateApproval | components/FleetView.tsx:66 | the fleet record with only its status set to VERIFIED replaces the stored one |
| DriverView.ActiveOrder | components/DriverView.tsx:79-82 | some order exactly when one carries the driver's plate and is neither COMPLETED nor REVIEW_REQUIRED; then it is the first such order |
| DriverView.Available | components/DriverView.tsx:84 | exactly the PENDING_PICKUP orders with no assignment |
| DriverView.MyCompleted | components/DriverView.tsx:85 | exactly the COMPLETED orders carrying the driver's plate |
| DriverView.AvailableTabs | components/DriverView.tsx:66-77 | the POOL tab is offered exactly to fleet drivers; workbench, projects and stats always are |
| DriverView.NextStage | components/DriverView.tsx:268-304 | a button exists exactly in IN_PROGRESS, ARRIVED_PICKUP and LOADING_COMPLETE, and it advances exactly one status; none in ARRIVED_DISPOSAL |
| DriverView.StagesFromAccept | components/DriverView.tsx:268-304 | IN_PROGRESS to ARRIVED_PICKUP to LOADING_COMPLETE to ARRIVED_DISPOSAL, and no step after ARRIVED_DISPOSAL or COMPLETED |
| DriverView.StageData | components/DriverView.tsx:297 | only the ARRIVED_PICKUP button sends the loading photo; the others send no data |
| DriverView.AcceptedOrder | components/DriverView.tsx:87-97 | an accepted order is IN_PROGRESS with the driver's name, phone and plate in a fully shaped assignment |
| DriverView.SelfOrder | components/DriverView.tsx:109-131 | a self-run order starts in ARRIVED_PICKUP, UNPAID, assigned to the driver and carrying whatever the analysis resolved to, so it becomes the driver's active order |
| DriverView.ReportedProject | components/DriverView.tsx:154-162 | a reported project is APPROVED, owned by the driver, with the form's name, address and document |
| DriverView.State.constructor | components/DriverView.tsx:43-54 | workbench tab, no media, no project selected, both modals closed |
| DriverView.State.Accept | components/DriverView.tsx:87-97 | the order is merged with the driver's assignment as IN_PROGRESS and the tab returns to the workbench |
| DriverView.State.AdvanceStage | components/DriverView.tsx:268-304 | the active order moves one stage when it has a next stage; the loading photo is sent and cleared at ARRIVED_PICKUP; otherwise nothing changes |
| DriverView.State.CreateSelfOrder | components/DriverView.tsx:99-150 | with media and a selected existing project the self-run order always goes first, the media clears, the modal closes and analysis ends; otherwise nothing is added and the media, modal, tab and analysis flag are kept |
| DriverView.State.AddProject | components/DriverView.tsx:152-166 | nothing without name and address; otherwise the APPROVED project goes last and the form clears |
| DisposalView.FacilityOrders | components/DisposalView.tsx:56-58 | exactly the orders naming this facility or at the gate (LOADING_COMPLETE or ARRIVED_DISPOSAL) |
| DisposalView.Arrived | components/DisposalView.tsx:59 | exactly the orders at the gate, whichever facility they name |
| DisposalView.CompletedHere | components/DisposalView.tsx:60 | exactly the COMPLETED orders naming this facility |
| DisposalView.HistorySearch | components/DisposalView.tsx:64-67 | the search throws exactly for an assignment without a plate; otherwise it matches plate, id, manifest number or community |
| DisposalView.FilteredHistory | components/DisposalView.tsx:62-73 | undefined exactly when some completed order has an assignment without a plate; otherwise exactly the orders matching search and settlement filter |
| DisposalView.HistoryDefined | components/DisposalView.tsx:63-67 | with every assignment fully shaped the history is always defined |
| DisposalView.SettlementFiltersDisjoint | components/DisposalView.tsx:68-70 | PENDING and PAID select by settlement status only and never overlap |
| DisposalView.FinancialStats | components/DisposalView.tsx:75-86 | platform-pending, direct and settled figures are the fee sums over the matching completed orders |
| DisposalView.DirectWithinSettled | components/DisposalView.tsx:75-86 | with DIRECT always PAID and non-negative fees, the direct figure never exceeds the settled figure |
| DisposalView.SettlementFor | components/DisposalView.tsx:99-100 | PLATFORM exactly for `ent-` or `prop-` clients or a MONTHLY_BILL; otherwise DIRECT |
| DisposalView.SettlementStatusFor | components/DisposalView.tsx:106 | PENDING_PLATFORM exactly for PLATFORM, PAID exactly for DIRECT |
| DisposalView.ManifestSerial | components/DisposalView.tsx:108 | `MF-` followed by at most six digits |
| DisposalView.Confirmed | components/DisposalView.tsx:97-113 | a confirmed order is COMPLETED here with fee 450, this facility's name and id and the photo; it is settled by platform and pending exactly for large clients, else paid |
| DisposalView.PromotionNotice | components/DisposalView.tsx:116-129 | DISCOUNT is published as a NOTICE and REQUEST as an ALERT, both to drivers and fleets, ending with the reason |
| DisposalView.State.constructor | components/DisposalView.tsx:34-46 | operations tab, nothing being confirmed, empty search, the ALL filter |
| DisposalView.State.ToggleStatus | components/DisposalView.tsx:88-90 | the facility with only its operational status changed replaces the stored one, raising the alert when FULL |
| DisposalView.State.StartEntrance | components/DisposalView.tsx:92-95 | the order becomes the one being confirmed and the photo clears |
| DisposalView.State.SubmitArrival | components/DisposalView.tsx:97-114 | nothing without an order being confirmed and a photo; otherwise that order is completed here and the gate clears |
| DisposalView.State.PublishPromotion | components/DisposalView.tsx:116-132 | the promotion notice goes first and the modal closes |
| PropertyView.CommunityOrders | components/PropertyView.tsx:43-45 | exactly the orders whose non-empty community is managed |
| PropertyView.PendingApps | components/PropertyView.tsx:47-49 | exactly the residential PENDING applications of managed communities |
| PropertyView.ApprovedApps | components/PropertyView.tsx:51-53 | exactly the residential APPROVED applications of managed communities |
| PropertyView.AppListsDisjoint | components/PropertyView.tsx:47-53 | no application is both pending and approved |
| PropertyView.UnsettledAfterAdd | components/PropertyView.tsx:55-58 | one more order adds its price exactly when it is an unsettled MONTHLY_BILL community order |
| PropertyView.UnsettledWithinTotal | components/PropertyView.tsx:55-58 | with non-negative prices the unsettled figure lies between 0 and the community total |
| PropertyView.DefaultSuppliers | components/PropertyView.tsx:22-25 | two suppliers, f-1 and f-2, with contracts 180 and 90 days from load time |
| PropertyView.Suppliers | components/PropertyView.tsx:60 | the profile's own list, even an empty one, else the defaults |
| PropertyView.PermitId | components/PropertyView.tsx:64 | `PMT-<year>-` followed by four digits whose value is the random serial |
| PropertyView.ApprovedApp | components/PropertyView.tsx:65 | only the status (APPROVED) and the permit change |
| PropertyView.ApprovalMovesApp | components/PropertyView.tsx:47-65 | after approval the application is in the approved list and nothing with its id stays pending |
| PropertyView.Contractor | components/PropertyView.tsx:83-96 | the linked application's company, else 自装/散工 |
| PropertyView.SupplierCrew | components/PropertyView.tsx:82-103 | placeholder crew 车队调度中 with plate 待指派 and the supplier's phone, name and id, or an empty phone without a supplier |
| PropertyView.ClearanceOrder | components/PropertyView.tsx:85-112 | an ANALYZING MONTHLY_BILL waste order priced 450 for the form's room, with the selected supplier's crew and the contractor |
| PropertyView.ClearanceSettlesViaPlatform | components/DisposalView.tsx:99-100 | the disposal gate settles a property clearance order through the platform |
| PropertyView.ClearanceIsBilled | components/PropertyView.tsx:55-112 | a clearance order for a managed community adds exactly 450 to the unsettled figure |
| PropertyView.Approve | components/PropertyView.tsx:63-67 | the approved application replaces the stored one by id |
| PropertyView.State.constructor | components/PropertyView.tsx:28-38 | the first managed community (or "") and supplier f-1 are selected |
| PropertyView.State.SubmitOrder | components/PropertyView.tsx:78-117 | nothing without building, room and photo; otherwise the clearance order goes first and the form closes |
| WorkerView.Hall | components/WorkerView.tsx:23-27 | exactly the DEMOLITION or LABOR orders in PENDING_PICKUP with no crew |
| WorkerView.MyJobs | components/WorkerView.tsx:29-31 | exactly the orders whose crew has this profile's name |
| WorkerView.MyWasteOrders | components/WorkerView.tsx:33-35 | exactly the orders with userId `worker-<id>` |
| WorkerView.CompletedJobs | components/WorkerView.tsx:107 | the completed figure never exceeds the job count, and equals it exactly when every job of the crew is COMPLETED |
| WorkerView.CompletedAfterAdd | components/WorkerView.tsx:107 | one more order raises the figure by one exactly when it is a COMPLETED job of this crew, and leaves it unchanged otherwise |
| WorkerView.Spending | components/WorkerView.tsx:112 | 200 for each posted waste order |
| WorkerView.AcceptedJob | components/WorkerView.tsx:50-56 | an accepted job becomes IN_PROGRESS with this crew, leaves the hall and joins the crew's jobs, everything else kept |
| WorkerView.AcceptedLeavesHall | components/WorkerView.tsx:23-56 | in the whole store the accepted id leaves the hall and joins the crew's jobs; other orders are unchanged |
| WorkerView.WasteOrder | components/WorkerView.tsx:67-80 | an ANALYZING, UNPAID waste order of `worker-<id>` with the media and no analysis or crew |
| WorkerView.PostingRaisesSpending | components/WorkerView.tsx:67-82 | a posted order is the crew's own and raises spending by 200 |
| WorkerView.State.constructor | components/WorkerView.tsx:15-19 | hall tab, no media, media type IMAGE |
| WorkerView.State.AcceptJob | components/WorkerView.tsx:48-59 | the job becomes this crew's IN_PROGRESS job and the job list shows |
| WorkerView.State.PostWaste | components/WorkerView.tsx:61-85 | nothing without media; otherwise the waste order goes first and the media clears |
| GovernmentView.OrderStats | components/GovernmentView.tsx:82-87 | volume is five times the COMPLETED count; the rate is the fixed 78.5 |
| GovernmentView.StatsAfterAdd | components/GovernmentView.tsx:82-86 | one more order adds five exactly when it is COMPLETED |
| GovernmentView.PendingCount | components/GovernmentView.tsx:167 | at most the number of complaints, and zero exactly when none is PENDING |
| GovernmentView.PendingAfterAdd | components/GovernmentView.tsx:167 | no complaints give zero; one more complaint raises the figure by one exactly when it is PENDING |
| GovernmentView.Resolve | components/GovernmentView.tsx:89-91 | complaints with that id become RESOLVED and every other is kept |
| GovernmentView.ResolveIdempotent | components/GovernmentView.tsx:90 | resolving twice is resolving once |
| GovernmentView.ResolveLowersPending | components/GovernmentView.tsx:89-90 | the pending figure falls by the number of pending complaints with that id |
| GovernmentView.Toggled | components/GovernmentView.tsx:94-101 | the role's membership flips and every other role's membership is kept |
| GovernmentView.ToggledTwice | components/GovernmentView.tsx:96-99 | toggling twice restores every membership, and the list itself when the role was absent |
| GovernmentView.NoticeOf | components/GovernmentView.tsx:105-112 | the notice carries the form's title, content, type and current targets, stamped now |
| GovernmentView.MockComplaints | components/GovernmentView.tsx:59-61 | the initial complaint list has one pending complaint |
| GovernmentView.State.constructor | components/GovernmentView.tsx:64-80 | supervision tab, the mock complaints, the empty form targeting disposal sites and property managers |
| GovernmentView.State.ResolveComplaint | components/GovernmentView.tsx:89-92 | the complaints become `Resolve` of the old ones |
| GovernmentView.State.ToggleTarget | components/GovernmentView.tsx:94-101 | only the form's targets change, toggled |
| GovernmentView.State.PublishNotice | components/GovernmentView.tsx:103-116 | nothing without title and content; otherwise the notice goes first and the form resets to its defaults |
| MarketplaceView.ProductTypeName | components/MarketplaceView.tsx:320-332 | the table's name, or the key itself for a key the table lacks |
| MarketplaceView.TypeNamesDistinct | components/MarketplaceView.tsx:321-330 | the eight types have eight distinct names, none equal to its raw key |
| MarketplaceView.FilteredProducts | components/MarketplaceView.tsx:17-23 | exactly the products matching type and search, a subsequence of the input, all of the chosen type |
| MarketplaceView.ShowAll | components/MarketplaceView.tsx:17-23 | with every type and the empty search the whole list is returned |
| MarketplaceView.ClearanceProducts | components/MarketplaceView.tsx:33 | exactly the FREE or DISCOUNT offers |
| MarketplaceView.ProcurementOrders | components/MarketplaceView.tsx:27-31 | exactly the RECYCLE_TRADE BUY orders that are not COMPLETED |
| MarketplaceView.EnterpriseProcurementListed | components/MarketplaceView.tsx:27-31 | an enterprise's new procurement order appears on the demand board |
| DriverOnboarding.NextStep | components/DriverOnboarding.tsx:48-58 | at step 2 in company mode with no fleet the next step is 2.5; otherwise floor(step+1), so 2.5 goes to 3; always forward |
| DriverOnboarding.BackStep | components/DriverOnboarding.tsx:128 | 2.5 returns to 2; otherwise max(1, step-1), never below 1 |
| DriverOnboarding.DisplayedStep | components/DriverOnboarding.tsx:125 | ceil(step) lies in 1..4, and 2.5 is shown as 3 |
| DriverOnboarding.DetourOnlyForNewCompany | components/DriverOnboarding.tsx:130-136 | with Next enabled, the detour is taken only by a driver who chose a new company |
| DriverOnboarding.DriverFleetName | components/DriverOnboarding.tsx:65 | 个人自营 for an independent driver, else the new company's name, else the chosen fleet |
| DriverOnboarding.SubmittedDriver | components/DriverOnboarding.tsx:59-66 | a PENDING driver with the form's details, that fleet name and the licence image or "" |
| DriverOnboarding.SubmittedFleet | components/DriverOnboarding.tsx:68-81 | a fleet exactly when founding one: PENDING, one vehicle, safety 60, the driver as manager |
| DriverOnboarding.FoundedFleetShown | components/DriverOnboarding.tsx:68-83 | a driver who founds a named fleet then sees that fleet in the fleet view |
| DriverOnboarding.ApprovedDriver | components/DriverOnboarding.tsx:86-90 | only the status changes, to VERIFIED |
| DriverOnboarding.State.constructor | components/DriverOnboarding.tsx:14-32 | step 1, the empty form (independent, Small Truck), no images |
| DriverOnboarding.State.ChooseNewCompany | components/DriverOnboarding.tsx:182 | company mode with a new fleet, straight to step 2.5 |
| DriverOnboarding.State.ChooseFleet | components/DriverOnboarding.tsx:173 | picking a fleet clears the new-company choice |
| DriverOnboarding.State.Next | components/DriverOnboarding.tsx:48-84 | the detour sets `isNewFleet` and step 2.5; below 4 it moves to `NextStep`; at 4 it registers the driver and appends the fleet only when there is one |
| DriverOnboarding.State.Back | components/DriverOnboarding.tsx:128 | the step becomes `BackStep` of the old one |
| DriverOnboarding.State.SimulateApproval | components/DriverOnboarding.tsx:86-90 | a stored profile is registered again as VERIFIED with no fleet; without one nothing changes |
| GeneralOnboardings.NewClient | components/GeneralOnboardings.tsx:50-56 | a PENDING client with the form's name, phone and address |
| GeneralOnboardings.ApprovedClient | components/GeneralOnboardings.tsx:64 | only the status changes, to VERIFIED |
| GeneralOnboardings.ClientWizard.constructor | components/GeneralOnboardings.tsx:44-45 | step 1 and an empty form, so Next starts disabled |
| GeneralOnboardings.ClientWizard.Next | components/GeneralOnboardings.tsx:47-58 | step 1 goes to 2; step 2 submits the client |
| GeneralOnboardings.ClientWizard.Back | components/GeneralOnboardings.tsx:76 | always back to step 1 |
| GeneralOnboardings.Communities | components/GeneralOnboardings.tsx:141 | one trimmed, comma-free entry per comma-separated piece: commas + 1 entries |
| GeneralOnboardings.CommunitiesRoundTrip | components/GeneralOnboardings.tsx:141 | joining tidy names with commas and splitting again gives the same list |
| GeneralOnboardings.TrimWithin | components/GeneralOnboardings.tsx:141 | trimming keeps only characters of the original |
| GeneralOnboardings.NewProperty | components/GeneralOnboardings.tsx:137-143 | a PENDING property manager with the split community list and no suppliers |
| GeneralOnboardings.NewPropertyDefaults | components/GeneralOnboardings.tsx:137-143 | a new manager has at least one community entry and works with the default suppliers |
| GeneralOnboardings.ApprovedProperty | components/GeneralOnboardings.tsx:151 | only the status changes, to VERIFIED |
| GeneralOnboardings.PropertyWizard.constructor | components/GeneralOnboardings.tsx:130-131 | step 1 and an empty form, so Next starts disabled |
| GeneralOnboardings.PropertyWizard.Next | components/GeneralOnboardings.tsx:133-145 | one step forward until step 3, which submits |
| GeneralOnboardings.PropertyWizard.Back | components/GeneralOnboardings.tsx:163 | the step becomes `Counters.Decrement` of the old one |
| GeneralOnboardings.VehicleCount | components/GeneralOnboardings.tsx:229 | `parseInt(count) or 0`: NaN gives 0 |
| GeneralOnboardings.NewFleet | components/GeneralOnboardings.tsx:225-234 | a PENDING fleet with that vehicle count, safety 100 and no projects |
| GeneralOnboardings.ApprovedFleet | components/GeneralOnboardings.tsx:242 | only the status changes, to VERIFIED |
| GeneralOnboardings.FleetWizard.constructor | components/GeneralOnboardings.tsx:218-219 | step 1 and an empty form, so Next starts disabled |
| GeneralOnboardings.FleetWizard.Next | components/GeneralOnboardings.tsx:221-236 | one step forward until step 3, which submits |
| GeneralOnboardings.FleetWizard.Back | components/GeneralOnboardings.tsx:254 | the step becomes `Counters.Decrement` of the old one |
| GeneralOnboardings.NewEnterprise | components/GeneralOnboardings.tsx:311-320 | a PENDING enterprise with limit 200000, nothing used, no projects and no contract price |
| GeneralOnboardings.NewEnterpriseTerms | components/GeneralOnboardings.tsx:315-318 | a new enterprise can draw 200000 and pays the 500 list price per truck |
| GeneralOnboardings.ApprovedEnterprise | components/GeneralOnboardings.tsx:328 | only the status changes, to VERIFIED |
| GeneralOnboardings.EnterpriseWizard.constructor | components/GeneralOnboardings.tsx:305-306 | step 1 and an empty form, so Next starts disabled |
| GeneralOnboardings.EnterpriseWizard.Next | components/GeneralOnboardings.tsx:308-322 | step 1 goes to 2; step 2 submits |
| GeneralOnboardings.EnterpriseWizard.Back | components/GeneralOnboardings.tsx:340 | the step becomes `Counters.Decrement` of the old one |
| GeneralOnboardings.NewWorker | components/GeneralOnboardings.tsx:389-398 | a crew AVAILABLE for work but PENDING review, rated 5 |
| GeneralOnboardings.ApprovedWorker | components/GeneralOnboardings.tsx:406 | only `profileStatus` changes, to VERIFIED |
| GeneralOnboardings.WorkerWizard.constructor | components/GeneralOnboardings.tsx:382-383 | step 1 and an empty form, so Next starts disabled |
| GeneralOnboardings.WorkerWizard.Next | components/GeneralOnboardings.tsx:385-400 | one step forward until step 3, which submits |
| GeneralOnboardings.WorkerWizard.Back | components/GeneralOnboardings.tsx:418 | the step becomes `Counters.Decrement` of the old one |
| GeneralOnboardings.NewGovernment | components/GeneralOnboardings.tsx:481-486 | a PENDING regulator with the form's region and department |
| GeneralOnboardings.ApprovedGovernment | components/GeneralOnboardings.tsx:494 | only the status changes, to VERIFIED |
| GeneralOnboardings.GovernmentWizard.constructor | components/GeneralOnboardings.tsx:474-475 | step 1 and an empty form, so Next starts disabled |
| GeneralOnboardings.GovernmentWizard.Next | components/GeneralOnboardings.tsx:477-488 | one step forward until step 3, which submits |
| GeneralOnboardings.GovernmentWizard.Back | components/GeneralOnboardings.tsx:506 | the step becomes `Counters.Decrement` of the old one |
| DisposalOnboarding.NewFacility | components/DisposalOnboarding.tsx:35-49 | a PENDING, OPEN, FIXED_DISPOSAL site taking only CONSTRUCTION at 450 per TRUCK, settled via PLATFORM; an empty specialty becomes 综合消纳 |
| DisposalOnboarding.NewFacilityRaisesNoAlert | components/DisposalOnboarding.tsx:35-49 | a newly registered site is OPEN, so storing it raises no alert |
| DisposalOnboarding.ApprovedFacility | components/DisposalOnboarding.tsx:57 | only the status changes, to VERIFIED |
| DisposalOnboarding.State.constructor | components/DisposalOnboarding.tsx:13-20 | step 1, an empty form, no licence image, so Next starts disabled |
| DisposalOnboarding.State.Next | components/DisposalOnboarding.tsx:32-53 | step 1 goes to 2; step 2 submits the new facility |
| DisposalOnboarding.State.Back | components/DisposalOnboarding.tsx:95 | the step becomes `Counters.Decrement` of the old one, which from either step is 1 |
| DisposalOnboarding.State.SimulateApproval | components/DisposalOnboarding.tsx:55-59 | a stored profile comes back VERIFIED; without one nothing is submitted |
| AICopilot.NavigationTarget | components/AICopilot.tsx:58-59 | a target exactly for an action starting with `NAVIGATE:`, and it has no colon |
| AICopilot.NavigationTargetIsSegment | components/AICopilot.tsx:58-59 | the target is the segment after `NAVIGATE:` up to the next colon |
| AICopilot.CreateIsNotNavigation | components/AICopilot.tsx:58-64 | `CREATE:ORDER` is not a navigation action |
| AICopilot.ActionEffect | components/AICopilot.tsx:57-67 | navigate exactly for a truthy `NAVIGATE:` action, to its target; create an order exactly for `CREATE:ORDER` with a handler present |
| AICopilot.AppNeverCreatesOrders | components/AICopilot.tsx:64-65 | without `onAction` (as the application mounts it) no reply starts an order |
| AICopilot.NavigateAction | components/AICopilot.tsx:58-63 | `NAVIGATE:<tab>` for a colon-free tab navigates to that tab |
| AICopilot.MarketAction | services/geminiService.ts:242 | `NAVIGATE:MARKET`, one of the schema's actions, opens MARKET |
| AICopilot.Welcome | components/AICopilot.tsx:16-18 | the transcript opens with the assistant's greeting, id "1" |
| AICopilot.Question | components/AICopilot.tsx:34-39 | the user's message is the input as typed, stamped now |
| AICopilot.Answer | components/AICopilot.tsx:47-53 | the assistant's message is the reply text with the action as its link |
| AICopilot.Apology | components/AICopilot.tsx:69-70 | the catch branch's message: from the assistant, the fixed apology text, stamped now, with no link |
| AICopilot.Response | components/AICopilot.tsx:47-71 | the answer for a reply, the apology for a `null` reply; always from the assistant |
| AICopilot.Reaction | components/AICopilot.tsx:57-67 | the reply's action effect; nothing for a `null` reply |
| AICopilot.FailedCallAnswersBusy | components/AICopilot.tsx:45-54 | a failed call does not reach the catch branch: the message is the service's busy text, not the apology, and nothing fires |
| AICopilot.ExchangeAlternates | components/AICopilot.tsx:40-54 | appending a question and an answer keeps the transcript alternating |
| AICopilot.State.constructor | components/AICopilot.tsx:15-20 | closed, only the greeting, empty input, not loading |
| AICopilot.State.SetOpen | components/AICopilot.tsx:88-99 | the panel opens or closes |
| AICopilot.State.Type | components/AICopilot.tsx:166 | the input becomes the typed text |
| AICopilot.State.Send | components/AICopilot.tsx:31-74 | blank input changes nothing; otherwise the question and the settled response (answer, or apology for a `null` reply) are appended, the input clears, loading ends, and the reply's reaction is the effect |

## Left out

- Rendering: the JSX, styling and the presentational components (OnboardingWrapper, BottomNav, RoleSwitcher, DemoOverlay, ElectronicManifest) carry no logic beyond what their callers pass.
- Mock data: locale formatting of dates and amounts, and mock datasets other than the rate tables, supplier lists and complaint list that the logic reads. Where the logic reads a mock table, it is a constant or a parameter.
- The Gemini network call: the prompts, the API key and the HTTP request are outside the model.
  - The model receives the answer text as an `Option` parameter and `JSON.parse` as a function parameter returning `Parsed`: a record, a JSON `null`, or unparsable text. Each service catches its own failures and resolves to the record, to its fallback, or to `null` (`None`).
  - Other JSON values `JSON.parse` may return (numbers, strings, arrays, records with missing or mistyped keys) are not represented. Each would make the caller's field access behave in its own way.
  - The response schema's enums are not enforced at run time in the source either, so parsed values are taken as given.
- Browser and timing: FileReader, geolocation, `alert` and the order in which asynchronous steps interleave. Each handler is modelled from its click to its settled state.
  - The assistant's `setTimeout` delays (1500 ms and 1000 ms) are not modelled. `AICopilot.State.Send` returns the effect the timer would fire.
  - App casts the navigation target to its tab type without checking it.
- AICopilot catch branch: it runs only when `chatWithCopilot` resolves to `null`, and it is modelled as `AICopilot.Apology`. A property access throwing for other malformed replies is not represented.
- AICopilot Enter key: pressing Enter calls `handleSend` even while a reply is loading. Only `handleSend` itself is modelled.
- Clock and randomness: `Date.now()`, `new Date().getFullYear()` and `Math.random()` are parameters. Each handler reads the clock once, although the source may read it twice within a millisecond or so.
- Invoice amounts: the amounts on the enterprise invoice list (components/EnterpriseView.tsx:1025) come from `Math.random()` at render time and are left out.
- Floating point: prices are integers.
  - `Math.round(x * 1.06)` is the exact rational rounding, so at binary-rounding boundaries the source may differ by one.
  - Fractional prices an AI response might carry are not represented.
  - The enterprise credit-usage percentage is a display figure and is left out.
- Case mapping: `toLowerCase` and `toUpperCase` are modelled for ASCII letters only.
- React batching: state updates are applied in program order.
  - At components/App.tsx:201, 209 and 226 the source passes non-functional setters, so two updates in one event could overwrite each other. The model applies them in sequence.
- Loose typing: the `any` and partial-order arguments of `updateStatus` cover only the keys that callers pass.
  - The assignment record keeps name, phone and plate optional, because merging a patch can produce one without them. `App.DeclaredShape` states the declared shape, and lemmas say which handlers keep it.
- Dropped keys: the driver wizard spreads its whole form into the `DriverProfile`. The key `isNewFleet` is not declared by that type, so the model drops it.
- Prototype keys: `getProductTypeName` is modelled on the eight declared keys, and any other key returns itself. Keys such as `constructor` that a plain object inherits are left out.
- Enterprise product types: the product-type table in components/EnterpriseView.tsx:14-22 lacks GLASS. It only labels the dropdown, so it is not modelled.
- Regulator instruction: `handleSendInstruction` in the government view only raises an alert.
- Disposal onboarding: components/DisposalView.tsx:9 imports the registration wizard from a module that is not part of the repository, so the wizard as shipped is never shown. It is modelled from components/DisposalOnboarding.tsx as written.
- General onboarding wizards: App does not render the wizards of components/GeneralOnboardings.tsx, so their `onRegister` target is unknown. Each wizard returns its record as the out-parameter `submitted`.
- Disposal analysis state: the disposal view's `analyzingProduct` state has no handler that sets it, so it is not modelled.
- FleetView.Ledger: the sort it uses, `Seqs.SortDesc`, is proved ordered by `createdAt` and a permutation of the selection. Its stability among orders with equal `createdAt` is not proved.
