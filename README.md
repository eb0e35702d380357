# EcoTrace core, modelled in Dafny

EcoTrace is a recycling tracker written in React. Three kinds of item are stored:

- an INBOUND batch of cartons received from a supplier;
- a SORTED pack cut from one inbound batch;
- a FIBRE pack shredded from several sorted packs.

Each item names its parents, so a fibre pack can be traced back through its sorted packs to the inbound batches. A mock back end keeps the items, an audit log, the user accounts and the session. Station screens drive the work:

- sorting;
- fibre production;
- consignment of fibre packs to a vendor.

The application shell shows a dashboard of figures computed from the store, and it keeps each role on the tabs it may open.

The model has one Dafny module per core source file, plus two helper modules:

| module | file | models |
|---|---|---|
| `Types` | `types.ts` | the records and the tagged item union |
| `Api` | `services/api.ts` | the `Store` class: item, log, user and session fields; the account operations; the create operations; the lineage resolver `TraceabilityChain` |
| `FibreView` | `views/Fibre.tsx` | the attribute derivation; the `Session` class with one method per handler |
| `Dashboard` | `App.tsx` | the dashboard aggregation; the greeting; the render/route guard; the `AppState` class |
| `SortingView` | `views/Sorting.tsx` | the `Session` class; the per-pack details map; the sequential creation loop |
| `ConsignmentView` | `views/Consignment.tsx` | the header form; the linked-pack list; the `Session` class |
| `UI` | `components/UI.tsx` | the multi-select toggle; the role navigation; the button variant and disabled state |
| `Seqs`, `Strings` | (helpers) | `filter`, `Set` de-duplication, `find`, `trim`, `toLowerCase`, `join`, `slice(-6)` as functions with contracts |

Some source constructs become plain Dafny inputs and outputs:

- **Clocks.** `Date.now()`, `new Date().toISOString()` and the hour of the day are parameters. A loop of store calls takes them as functions of the turn number (`millisAt`, `isoAt`).
- **Number parsing.** `Number(...)` is a parameter `parse: string -> real`.
- **Results.** Thrown errors and `alert`s become `Result` and `Outcome` values. (`Outcome` is `Ignored`, `Accepted` or `Rejected(message)`.)
- **State.** React state setters become field updates of a class.
- **Disabled buttons.** A handler behind a disabled button does nothing when the button's condition does not hold.

Two behaviours of the code are easy to misread, and the model follows the code in both:

- The lineage resolver returns parents and grandparents **in store order**, filtered from the item list, not in the order the pack names them. An id the store holds twice is returned twice. The model states both facts (`Api.ChainKeepsStoreOrder`, `Api.ParentMultiplicity`, `Api.GrandparentMultiplicity`, `Api.ChainExample`).
- The sorting and fibre views pass a scanned or preview `id` to the create operations, but the service overwrites it with a generated `SP-`/`FP-` id. The model sends only the fields the service keeps.

## Model

| member | source | states |
|---|---|---|
| `Types.TypeDiscriminates` | types.ts:52 | the `type` tag determines the variant, and every item is exactly one of INBOUND, SORTED, FIBRE |
| `Types.Ids` | types.ts:18-25 | the id list has one entry per item, in order, each the item's own id |
| `Types.SortedPacksOf` | services/api.ts:251-254 | `getItemsByType(SORTED)` keeps exactly the sorted packs of the store and no other item, in store order |
| `Types.SortedPacksCounts` | services/api.ts:251-254 | each sorted pack is kept as often as the store holds it |
| `Api.IndexOfUsername` | services/api.ts:42 | finds the first account whose name equals the given one ignoring letter case; no earlier account matches |
| `Api.FreshNameFoundLast` | services/api.ts:53-58 | after a successful register or create, login's lookup finds the new account under its name |
| `Api.IndexOfUserId` | services/api.ts:134 | finds the first account with the id; no earlier one has it |
| `Api.RemovedUserIsGone` | services/api.ts:137 | after the delete filter no account has the id, every other account remains, in the old order |
| `Api.IndexOfItem` | services/api.ts:248 | finds the first item with the id; no earlier item has it |
| `Api.FindById` | services/api.ts:246-249 | `getItemById` is None exactly when no item has the id; otherwise it is the first item with that id |
| `Api.OfType` | services/api.ts:251-254 | `getItemsByType`: every item of the type is kept and nothing else, in store order |
| `Api.OfTypeCounts` | services/api.ts:251-254 | each item of the type is kept as often as the store holds it, and other items not at all |
| `Api.InboundRefs` | services/api.ts:276 | the inbound ids that the sorted parents reference, each taken from a parent |
| `Api.TraceabilityChain` | services/api.ts:256-281 | None exactly when no item has the root id, and otherwise the root is the first item with that id. An inbound root has no parents. A sorted root has as its only parent the first item whose id is its batch id, or none if there is none. A fibre root's parents are exactly the stored items whose ids it names |
| `Api.FibreGrandparents` | services/api.ts:276-278 | a fibre root's grandparents are exactly the stored items that some sorted parent names as its batch |
| `Api.GrandparentMultiplicity` | services/api.ts:276-278 | a fibre root's grandparent list holds each stored item that some sorted parent names as its batch exactly as often as the store holds it, and nothing else |
| `Api.ChainKeepsStoreOrder` | services/api.ts:272-277 | parents and grandparents are subsequences of the store, so they keep store order |
| `Api.ParentMultiplicity` | services/api.ts:272 | a fibre root's parent list holds each named item exactly as often as the store holds it |
| `Api.SelectUnique` | services/api.ts:272 | with unique store ids, selecting by an id list gives no repeats and at most one item per listed id |
| `Api.GrandparentsBounded` | services/api.ts:270-278 | with unique store ids there are no repeated grandparents, and no more grandparents than parents |
| `Api.ChainExample` | services/api.ts:270-278 | one batch split into two sorted packs that were blended: the lineage lists both packs in store order, though the pack names them in reverse, and the batch once |
| `Api.ItemIdKind` | services/api.ts:184 | a generated id is its prefix followed by at most six clock digits, and the prefix identifies the kind |
| `Api.CreatedRecordsDiffer` | services/api.ts:184-191 | records made by different create operations never share an id, and each QR URL ends with its own id |
| `Api.Store.constructor` | services/api.ts:21-27 | a missing user list reads as the two seed accounts |
| `Api.Store.SaveItem` | services/api.ts:151-155 | exactly one item is appended, and the earlier items are unchanged |
| `Api.Store.AddLog` | services/api.ts:162-175 | the new entry goes first; its user is the session user's name or 'unknown'; the rest of the log is unchanged |
| `Api.Store.SaveUser` | services/api.ts:33-37 | exactly one account is appended |
| `Api.Store.Register` | services/api.ts:39-59 | a name taken in any letter case gives "Username already taken" and changes nothing. Otherwise exactly one account is added and signed in, and the returned user carries no password |
| `Api.Store.Login` | services/api.ts:61-73 | succeeds exactly when the first case-insensitive match holds the identical password; on success the session user has no password; on failure "Invalid credentials" and an unchanged session |
| `Api.Store.ResetPassword` | services/api.ts:75-82 | succeeds exactly when some account has the name in any letter case, else "User not found" |
| `Api.Store.Logout` | services/api.ts:84-86 | the session is gone |
| `Api.Store.AllUsers` | services/api.ts:96-100 | every account in order, with id, name and role kept and no password |
| `Api.Store.CreateUser` | services/api.ts:102-124 | without an admin session: Unauthorized; with a taken name (any letter case): the taken error; each failure changes nothing. Otherwise one account is added and the creation is logged first |
| `Api.Store.DeleteUser` | services/api.ts:127-141 | checks in order (not admin, own id, unknown id), and each failure changes nothing. Otherwise exactly the accounts with that id are removed and the deletion is logged first |
| `Api.Store.CreateInboundBatch` | services/api.ts:179-197 | Unauthorized and nothing changed without a session. Otherwise an `IB-` record stamped with the session user and time is appended, with the supplied fields copied, and its log entry goes first |
| `Api.Store.CreateSortedPack` | services/api.ts:199-217 | the same for an `SP-` sorted pack |
| `Api.Store.CreateFibrePack` | services/api.ts:219-237 | the same for an `FP-` fibre pack, logged with the number of its sources |
| `Api.Store.GetTraceabilityChain` | services/api.ts:256-281 | the step-by-step chain building yields the lineage function, and it returns null exactly when the root is unknown |
| `FibreView.ParentPacks` | views/Fibre.tsx:105 | the parents are the available packs whose id was scanned, all of them, in available-pack order, each as often as it is available |
| `FibreView.UniformOr` | views/Fibre.tsx:109-113 | a one-value `Set` gives that value exactly when every entry agrees; an empty or mixed list gives the fallback |
| `FibreView.BrandsDerivation` | views/Fibre.tsx:108 | the derived brands are each parent brand once, in first-appearance order, and no other value |
| `FibreView.InboundIdsDerivation` | views/Fibre.tsx:115 | the listed inbound batch ids are each parent's batch id once, in first-appearance order, and no other value |
| `FibreView.MaterialAndColor` | views/Fibre.tsx:109-113 | material and colour are inherited only when all parents agree; otherwise, or with no parents, they are 'Blend' and 'Mixed' |
| `FibreView.TwoMaterialsBlend` | views/Fibre.tsx:112 | packs blended from two materials are a 'Blend' |
| `FibreView.SortingSession` | views/Fibre.tsx:115-116 | the first parent's batch, or 'N/A' with no parent or an empty id |
| `FibreView.Summarize` | views/Fibre.tsx:118-131 | one record per weighed pack, in weighing order. Each keeps its id and takes the scanned list as sources. Its grams are converted to kilograms. All records share the derived brands, material, colour, session and batch list |
| `FibreView.SaveOne` | views/Fibre.tsx:140-147 | one turn of the save loop for the i-th previewed pack |
| `FibreView.SaveAll` | views/Fibre.tsx:139-148 | saves every previewed pack in order, appending each item and logging each first; without a session the first call fails and nothing is stored |
| `FibreView.SavesAppend` | views/Fibre.tsx:139-148 | after n saves the old items are untouched and the k-th new item is the k-th preview as created |
| `FibreView.SavedPackFields` | views/Fibre.tsx:140-147 | a saved pack keeps the preview's sources, weight, brands, material and colour, is credited to the saving user and gets an `FP-` id |
| `FibreView.SavesPrependLogs` | views/Fibre.tsx:139-148 | after n saves the n new log entries sit above the old log, newest first |
| `FibreView.Session.constructor` | views/Fibre.tsx:41-51 | the available packs are the sorted packs of the store; everything else is empty |
| `FibreView.Session.ResetFlow` | views/Fibre.tsx:53-63 | every piece of session state returns to its initial value |
| `FibreView.Session.EnterSortedPackInput` | views/Fibre.tsx:176 | the field holds the typed text |
| `FibreView.Session.ScanSortedPack` | views/Fibre.tsx:65-79 | ignores a blank id; rejects an unknown or repeated id with its alert; otherwise appends the id and clears the field. The scan list stays duplicate-free and within the available ids |
| `FibreView.Session.Next` | views/Fibre.tsx:192 | step 1 moves to 2 only with at least one scanned pack |
| `FibreView.Session.Back` | views/Fibre.tsx:199-247 | step 2 goes back to 1 and step 3 to 2 |
| `FibreView.Session.EnterFibrePackInput` | views/Fibre.tsx:220 | the field holds the typed text |
| `FibreView.Session.ScanFibrePack` | views/Fibre.tsx:81-91 | ignores a blank id; rejects an id already weighed in this session; otherwise it becomes the pack being weighed |
| `FibreView.Session.EnterWeight` | views/Fibre.tsx:208 | the weight field holds the typed text |
| `FibreView.Session.SaveFibrePack` | views/Fibre.tsx:93-102 | without a current pack or a positive weight: the alert, and nothing changes. Otherwise one entry is appended and the current pack and weight are cleared |
| `FibreView.Session.ProceedToSummary` | views/Fibre.tsx:104-134 | only with a weighed pack: the summary is the derivation of the scanned parents, and the step is 3 |
| `FibreView.Session.ConfirmAndSave` | views/Fibre.tsx:136-155 | all previews saved and step 4; or the error alert, with the step and the store unchanged |
| `Dashboard.CountOfType` | App.tsx:64-82 | counts the items of a type; zero exactly when there is none |
| `Dashboard.CountAppend` | App.tsx:64 | adding an item raises only its own type's count, by one |
| `Dashboard.VolumeTotal` | App.tsx:79-91 | the three type counts add up to the number of items |
| `Dashboard.MyTotalProcessed` | App.tsx:65 | counts the items whose creator equals the name exactly; zero exactly when there is none |
| `Dashboard.MyTotalAppend` | App.tsx:65 | adding an item raises only its creator's count, by one |
| `Dashboard.CreatedPackCredited` | App.tsx:65 | a pack the store creates counts once toward its creator and once toward SORTED |
| `Dashboard.EmptyTotals` | App.tsx:68-69 | an empty store has no cartons and no fibre weight |
| `Dashboard.CartonsAppend` | App.tsx:68 | an added item adds its cartons when it is an inbound batch, nothing otherwise |
| `Dashboard.FibreKgAppend` | App.tsx:69 | an added item adds its weight when it is a fibre pack, nothing otherwise |
| `Dashboard.CartonsNonNegative` | App.tsx:68 | with non-negative carton counts the carton total is non-negative |
| `Dashboard.MaterialBreakdown` | App.tsx:70-77 | one entry per distinct material among the sorted packs, in first-appearance order, each holding that material's total weight |
| `Dashboard.TallyMaterials` | App.tsx:72-77 | the reduce leaves one entry per distinct material of the packs, in first-appearance order, each holding that material's total weight |
| `Dashboard.AddToTally` | App.tsx:74 | adding to an existing entry keeps the breakdown correct |
| `Dashboard.NewTally` | App.tsx:75 | pushing a new material keeps the breakdown correct |
| `Dashboard.BreakdownTotal` | App.tsx:70-77 | the breakdown's values add up to the total sorted weight |
| `Dashboard.ProductionVolume` | App.tsx:79-83 | the Inbound, Sorted and Fibre bars, in that order, each hold the count of its type, and together they sum to the number of items |
| `Dashboard.Aggregate` | App.tsx:62-94 | every figure of the dashboard record: the type, user and item counts, the carton and fibre totals, one breakdown slice per distinct sorted material in first-appearance order holding that material's weight, the breakdown summing to the sorted weight, and the volume bars |
| `Dashboard.Greeting` | App.tsx:115-120 | morning exactly before 12, afternoon exactly from 12 to before 18, evening exactly from 18 |
| `Dashboard.Render` | App.tsx:127-166 | public pages exactly without a user: the landing page exactly on the landing route, otherwise the auth page, in sign-up mode exactly on the sign-up route. An OPERATOR on 'home' sees nothing. The admin tabs open only for ADMIN and show access denied otherwise. The operator tabs open for everyone. The dashboard is shown exactly for a signed-in user on any other tab, except an OPERATOR on 'home' |
| `Dashboard.AppState.constructor` | App.tsx:46-57 | the restored session user, and an OPERATOR starts on 'inbound' |
| `Dashboard.AppState.RedirectEffect` | App.tsx:53-57 | an OPERATOR on 'home' is moved to 'inbound'; nothing else changes |
| `Dashboard.AppState.Navigate` | App.tsx:53-57 | the chosen tab, except that an OPERATOR never stays on 'home' |
| `Dashboard.AppState.LoginSuccess` | App.tsx:110-113 | an OPERATOR lands on 'inbound' and anybody else on 'home' |
| `Dashboard.AppState.Logout` | App.tsx:103-108 | the session is gone, and the shell shows the landing page on 'home' |
| `Dashboard.AppState.SetPublicRoute` | App.tsx:131-140 | the route the public buttons choose |
| `Dashboard.AppState.RefreshDashboard` | App.tsx:60-97 | for a signed-in user on 'home', every dashboard figure is recomputed, as `Dashboard.Aggregate` states them; otherwise the figures are unchanged |
| `SortingView.WithFieldIsolated` | views/Sorting.tsx:80 | setting a field changes that field and no other |
| `SortingView.Step3CompleteInScanOrder` | views/Sorting.tsx:112-115 | over the synchronised map, completeness means at least one pack and a positive weight for every pack |
| `SortingView.FirstMissing` | views/Sorting.tsx:91-92 | the position of the first scanned pack without a weight; every earlier one has a weight |
| `SortingView.CompleteHasNoMissing` | views/Sorting.tsx:112-115 | a complete form has no pack without a weight |
| `SortingView.CreateOne` | views/Sorting.tsx:93-101 | one turn of the creation loop |
| `SortingView.CreateAll` | views/Sorting.tsx:87-104 | entries in scan order; throws at the first entry without a weight, and earlier packs stay created (no rollback); without a session the first call fails and nothing is stored |
| `SortingView.CreateComplete` | views/Sorting.tsx:87-104 | on a complete form, all packs are created or, without a session, none |
| `SortingView.ItemsAfterAppends` | views/Sorting.tsx:87-104 | after n calls the old items are untouched and the n new packs follow, in call order |
| `SortingView.CreatedPacksInOrder` | views/Sorting.tsx:101 | the results array holds one pack per call, in call order |
| `SortingView.CreatedPackFields` | views/Sorting.tsx:93-100 | each created pack has the selected batch as its parent and the entry's grams as kilograms; it keeps the entry's brand, material and colour, is credited to the user and gets an `SP-` id |
| `SortingView.LogsAfterPrepends` | views/Sorting.tsx:93-101 | after n calls the log has grown by n with the old log underneath, and the entry at position n-1-k is the sorted-pack entry of the k-th created pack (newest first) |
| `SortingView.Session.constructor` | views/Sorting.tsx:15-45 | the fetched option lists; nothing scanned |
| `SortingView.Session.ResetFlow` | views/Sorting.tsx:47-55 | back to step 1 with nothing scanned, no batch, no details and no created packs |
| `SortingView.Session.EnterPackId` | views/Sorting.tsx:145 | the field holds the typed text |
| `SortingView.Session.AddPackId` | views/Sorting.tsx:57-74 | ignores blank input; rejects a repeated id. Otherwise appends the id and inserts its details: an empty weight and the first option, or '', for colour, brand and material. The map's keys stay exactly the scanned ids, with no repeats |
| `SortingView.Session.UpdatePackDetail` | views/Sorting.tsx:76-83 | changes only the named field of the named pack; an unknown pack leaves the map unchanged |
| `SortingView.Session.SelectBatch` | views/Sorting.tsx:183 | the chosen batch |
| `SortingView.Session.NextToBatch` | views/Sorting.tsx:164 | step 1 moves to 2 only with a scanned pack |
| `SortingView.Session.NextToDetails` | views/Sorting.tsx:190 | step 2 moves to 3 only with a selected batch |
| `SortingView.Session.Back` | views/Sorting.tsx:179-199 | step 2 goes back to 1 and step 3 to 2 |
| `SortingView.Session.CreateAllPacks` | views/Sorting.tsx:85-110 | does nothing on an incomplete form. Without a session: the error alert, and nothing changes. Otherwise every pack is created in scan order, the results are kept, and the step is 4 |
| `ConsignmentView.FibreIds` | views/Consignment.tsx:75 | exactly the ids of the fibre packs in the store |
| `ConsignmentView.Session.constructor` | views/Consignment.tsx:32-54 | the option lists are loaded and vendor and country are pre-filled with the first option or '' |
| `ConsignmentView.Session.EnterDetails` | views/Consignment.tsx:131-143 | the header holds the edited values |
| `ConsignmentView.Session.DetailsSubmit` | views/Consignment.tsx:56-68 | advances to step 2 exactly when all four fields are filled in; otherwise sets 'All fields are mandatory.' |
| `ConsignmentView.Session.Back` | views/Consignment.tsx:151 | step 2 goes back to 1 |
| `ConsignmentView.Session.EnterPackInput` | views/Consignment.tsx:161 | the field holds the typed text |
| `ConsignmentView.Session.AddPack` | views/Consignment.tsx:70-85 | clears the error and ignores blank input. An id that is not a stored fibre pack, or is already linked, is rejected with its message. Otherwise the id is appended and the input cleared. The links stay duplicate-free and within the fibre-pack ids |
| `ConsignmentView.Session.RemovePack` | views/Consignment.tsx:87-89 | the id is removed and the other links keep their order |
| `Seqs.AppendThenWithout` | views/Consignment.tsx:83-88 | linking an absent id and then removing it restores the list |
| `Seqs.Without` | views/Consignment.tsx:88 | the value is gone, every other value stays, and the order is kept |
| `ConsignmentView.Session.CreateConsignment` | views/Consignment.tsx:91-111 | with no links: an error, no call and an unchanged step. Otherwise the header with the converted weight and exactly the linked ids is sent; success stores the consignment and moves to step 3; failure shows the service's message or the default one |
| `ConsignmentView.Session.ResetFlow` | views/Consignment.tsx:113-126 | step 1; the error, weight, number, links, input and consignment are cleared; vendor and country get the first option or '' |
| `UI.Toggle` | components/UI.tsx:223-228 | a selected value is removed everywhere and an unselected one is appended. Its membership flips, and no other value's membership changes |
| `UI.ToggleTwice` | components/UI.tsx:223-228 | toggling an unselected value twice restores the selection |
| `UI.ToggleKeepsNoDup` | components/UI.tsx:223-228 | a selection without repeats stays without repeats |
| `UI.ToggleCounts` | components/UI.tsx:224-226 | every other value is selected exactly as often as before |
| `UI.NavItems` | components/UI.tsx:19-39 | an OPERATOR gets the five station entries; an ADMIN gets 'home', those five, then printing, admin and configs |
| `UI.NavByRole` | components/UI.tsx:20-38 | an OPERATOR is offered neither 'home' nor an admin tab; an ADMIN is offered everything an OPERATOR is, plus four entries |
| `UI.NavOpensViews` | components/UI.tsx:19-39 | every navigation entry opens a view for its role, never the blank screen or access denied |
| `UI.FinalVariant` | components/UI.tsx:146 | the disabled style exactly when the disabled prop or the loading flag is set (or it was asked for); otherwise the requested variant, primary by default |
| `UI.LoadingButtonStaysClickable` | components/UI.tsx:146-149 | a loading button whose caller passes `disabled={false}` is drawn disabled but still takes clicks |
| `UI.StyleMatchesState` | components/UI.tsx:146-149 | with the intended attribute, a button looks disabled exactly when it is, and a loading button is disabled |

## Left out

- Persistence: local storage, JSON encoding and the seeding write of `getUsers` (services/api.ts:21-31, 146-160). The lists are object fields.
- Delays and promises (services/api.ts:17). Each operation is one synchronous step, and the loading flags of the views are not modelled.
- `getAllItems` and `getCurrentUser` (services/api.ts:88-91, 241-244). They read the `items` and `session` fields directly.
- The services that services/api.ts imports but does not define are not part of this model. They are `brandsService`, `materialsService`, `colorsService`, `suppliersService`, `vendorsService`, `countriesService`, `createConsignment`, `generateQrLabels` and `updateUser`. Their results are parameters: the option lists, and `create: Request -> Result<Consignment>`.
- The fetch-failure paths of the views: the alerts of views/Fibre.tsx:47 and views/Sorting.tsx:41, and the error of views/Consignment.tsx:50. A view's constructor starts from the data a fetch returned.
- The inbound, admin, configuration, printing, traceability, auth, login and landing views, the onboarding, the splash screen and the logo. They only display data or call unseen services.
- Rendering: JSX, CSS, charts, icons, QR images, and the splash-screen flag of App.tsx.
- Floating point. Weights are exact reals. The grams-to-kilogram division has no rounding. IEEE sums are not modelled.
- NaN. `Number(...)` is an abstract `parse: string -> real`, so a non-numeric weight cannot be represented. In JavaScript such a weight slips past the `<= 0` guard of views/Fibre.tsx:95.
- `Strings.ToLower`: case folding covers ASCII letters only, not the full Unicode `toLowerCase`.
- Id uniqueness is not proved: `Date.now()` clocks can collide (services/api.ts:184). `Api.SelectUnique` and `Api.GrandparentsBounded` take unique store ids as a precondition.
- `FibreView.Summarize`: every preview record gets the same `createdAt` clock value. The source reads the clock once per record (views/Fibre.tsx:121).
- The create operations use one clock reading for both the record and its log entry. The source reads the clock again inside `addLog`.
- Step gating: the handlers are not restricted to their visible step. The model gates only where the source disables a button.
- `SortingView.Session.SelectBatch` accepts any string, because the select only lists the stored inbound batches, and that list is not part of the model.

## Findings

| source | as written | input that shows it | evidently intended | confidence | as-written member | corrected member |
|---|---|---|---|---|---|---|
| components/UI.tsx:149 | The `disabled` attribute is set to the loading flag or the disabled prop, and then `{...props}` is spread over it. When the caller passes `disabled` explicitly, that value replaces the loading guard. views/Sorting.tsx:238 and views/Consignment.tsx:179 do this | `isLoading = true`, `disabled = false`, e.g. the sorting "Done" button while packs are being created | a loading button is disabled, as its style (line 146) already shows | not executed | `UI.LoadingButtonStaysClickable` (with `UI.DomDisabledAsWritten`) | `UI.StyleMatchesState` (with `UI.DomDisabled`) |
