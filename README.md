# E-Mart inventory dashboard — verified model

This project models the logic core of the E-Mart inventory dashboard, a React
application in which makers record stock, checkers approve it and administrators
see everything. It covers four parts:

- **The inventory store** (`useInventory`), in `inventory_store.dfy`. It holds a
  product list and the alert list derived from it. Its mutators replace the products
  by updating, approving, adding or moving stock, and it also lets a caller
  acknowledge an alert.
  - The alert generator walks the products and emits a low-stock alert when the
    count is below the reorder threshold. That alert's severity is high below half
    the threshold.
  - It emits an expiry warning when the expiry instant lies strictly between now and
    now plus three days.
  - Every product change regenerates the alerts.

  The store is a class `Inventory` with `seq` fields. Each method is specified by
  pure functions on the old lists, and the class keeps the invariant that the alert
  list is the latest generation up to acknowledgement flags. Alert generation is a
  loop method proved equal to the recursive specification `DerivedAlerts`.
- **The inventory page's filters** (`Inventory.tsx`), in `inventory_filter.dfy`.
  - The search box matches a case-insensitive substring of the description or the
    vendor code.
  - The category select matches exactly, or lets everything through when empty.
  - The list of categories holds each category once, in order of first appearance.
- **The sidebar** (`Sidebar.tsx`), in `sidebar.dfy`. It holds the table of eight
  menu entries, each listing the roles that may see it, filtered by the signed-in
  user's role. The menu of each role is proved entry by entry.
- **The session store** (`useAuth`), in `auth.dfy`. It is a class `AuthProvider`
  holding the signed-in user, the loading flag, and the `emart-user` storage entry
  that outlives a page reload.
  - Sign-in succeeds exactly for the three demo accounts with the demo password.
  - Sign-out clears both the user and the stored entry.

Two more files hold shared material. `types.dfy` holds the shared records from
`src/types/index.ts`. `sequences.dfy` holds `Array.prototype.filter`, the
`[...new Set(xs)]` idiom and their properties.

The clock and the id source are parameters:
- `now` is the instant `new Date()` would read, in milliseconds.
- `stamp` is the ISO string the source would format.
- `newId` is the string `Date.now().toString()` would give.

## Model

| member | source | states |
|---|---|---|
| InventoryStore.AlertIdsDistinct | src/hooks/useInventory.ts:84-98 | alert ids `low-stock-{id}` and `expiry-{id}` determine the rule and the product: equal ids mean equal product ids, and the two kinds never collide |
| InventoryStore.LowStockSeverity | src/hooks/useInventory.ts:88 | the severity `count < threshold * 0.5 ? high : medium` is high exactly when twice the count is below the threshold, medium otherwise |
| InventoryStore.AlertsForSpec | src/hooks/useInventory.ts:80-107 | a product yields its low-stock alert iff count < threshold, its expiry warning iff now < expiry < now + 3 days, nothing else, low-stock first |
| InventoryStore.DerivedAlertsShape | src/hooks/useInventory.ts:75-110 | of `DerivedAlerts`, the list `generateAlerts` builds (the alerts of each product in product order): at most two alerts per product, and every generated alert is unacknowledged |
| InventoryStore.DerivedAlertsSound | src/hooks/useInventory.ts:80-107 | every generated alert is one of the alerts of some product of the list |
| InventoryStore.DerivedAlertsComplete | src/hooks/useInventory.ts:80-107 | every alert of every listed product is generated |
| InventoryStore.DerivedAlertsMembership | src/hooks/useInventory.ts:80-107 | an alert is generated iff some product of the list yields it |
| InventoryStore.DerivedAlertsReferToProducts | src/hooks/useInventory.ts:86-100 | every generated alert names the id of a listed product |
| InventoryStore.DerivedAlertsSnoc | src/hooks/useInventory.ts:80-107 | one more product at the end adds exactly its alerts at the end |
| InventoryStore.DerivedAlertsAppend | src/hooks/useInventory.ts:80-107 | the alerts of two lists end to end are their alert lists end to end (alerts follow product order) |
| InventoryStore.DerivedAlertsAround | src/hooks/useInventory.ts:80-107 | the alerts of product i come after those of all earlier products and before those of all later ones |
| InventoryStore.LowStockAlertIff | src/hooks/useInventory.ts:82-91 | a `low-stock-{id}` alert is generated iff a listed product with that id has count < threshold |
| InventoryStore.ExpiryAlertIff | src/hooks/useInventory.ts:94-106 | an `expiry-{id}` alert is generated iff a listed product with that id expires strictly inside the window |
| InventoryStore.LowStockBoundary | src/hooks/useInventory.ts:82-88 | with threshold 20: count 20 gives no alert, 19 a medium one, 9 a high one |
| InventoryStore.ExpiryBoundary | src/hooks/useInventory.ts:95-96 | expiring exactly at now, exactly at now + 3 days, or in the past gives no warning; two days ahead does |
| InventoryStore.GenerateAlerts | src/hooks/useInventory.ts:75-110 | the `forEach`/`push` loop returns exactly `DerivedAlerts` of the products, the recursive definition the lemmas above are about |
| InventoryStore.Merge | src/hooks/useInventory.ts:116 | the merged product always carries the new stamp in `updatedAt`, even when the update sets `updatedAt` |
| InventoryStore.MergeThen | src/hooks/useInventory.ts:116 | two updates in turn equal their combination (later fields win) applied once with the later stamp |
| InventoryStore.MergeIdempotent | src/hooks/useInventory.ts:116 | re-applying an update with the same stamp changes nothing |
| InventoryStore.MergeNoChanges | src/hooks/useInventory.ts:116 | `{}` and `{ updatedAt: x }` only set `updatedAt` to the stamp |
| InventoryStore.MergeCountOnly | src/hooks/useInventory.ts:116 | `{ count: 5 }` changes the count and the stamp and no other field |
| InventoryStore.MergeApproval | src/hooks/useInventory.ts:122-124 | `{ approved: true, approvedBy }` sets those two fields and the stamp, nothing else |
| InventoryStore.UpdateProducts | src/hooks/useInventory.ts:112-120 | same length; products with the id are merged, every other product is unchanged |
| InventoryStore.UpdateMissingIsNoOp | src/hooks/useInventory.ts:112-120 | an id that no product has leaves the list unchanged |
| InventoryStore.UpdateProductsIdempotent | src/hooks/useInventory.ts:112-120 | repeating an update with the same stamp gives the same list |
| InventoryStore.ApproveProducts | src/hooks/useInventory.ts:122-124 | approval marks every product with the id approved by the given user and stamps it; all else unchanged |
| InventoryStore.MoveStockOn | src/hooks/useInventory.ts:139-146 | warehouse stock drops by `fromWarehouse`, shelf stock rises by `toShelf`, their sum shifts by the difference, count and other fields unchanged, stamp set |
| InventoryStore.MoveStockKeepsStockIff | src/hooks/useInventory.ts:142-143 | a move preserves warehouse-plus-shelf stock iff both deltas are equal |
| InventoryStore.MoveStockProducts | src/hooks/useInventory.ts:136-149 | same length; products with the id are moved, every other product is unchanged |
| InventoryStore.MoveStockShiftsTotal | src/hooks/useInventory.ts:136-149 | total stock over the list shifts by `toShelf - fromWarehouse` once per product carrying the id |
| InventoryStore.NewProduct | src/hooks/useInventory.ts:127-132 | the new product carries exactly the caller's fields and the given id; both stamps are the one `stamp` (see Left out) |
| InventoryStore.NewProductOfDraft | src/hooks/useInventory.ts:127-132 | a product whose stamps agree is rebuilt exactly from its caller fields, id and stamp |
| InventoryStore.AppendProduct | src/hooks/useInventory.ts:133 | the old list is kept as a prefix and the new product is last |
| InventoryStore.AppendProductAlerts | src/hooks/useInventory.ts:133 | adding a product appends exactly its alerts to the generated list |
| InventoryStore.AcknowledgeAlerts | src/hooks/useInventory.ts:151-157 | same length; an alert's flag becomes old flag or id match; every other field unchanged |
| InventoryStore.AcknowledgeIdempotent | src/hooks/useInventory.ts:151-157 | acknowledging twice is acknowledging once |
| InventoryStore.AcknowledgeKeepsAgreement | src/hooks/useInventory.ts:151-157 | acknowledging keeps the alert list equal to its generation up to the flags |
| InventoryStore.AlertsReferToProducts | src/hooks/useInventory.ts:71-73 | while the alerts are in step with the products, every alert names a listed product |
| InventoryStore.MockAlertsOnJanuaryEleventh | src/hooks/useInventory.ts:6-63 | on 2024-01-11 the three `MockProducts` (milk, apples, spinach with the source's counts, thresholds and expiry dates) give exactly the apples' medium low-stock alert and then its expiry warning |
| InventoryStore.Inventory.constructor | src/hooks/useInventory.ts:65-73 | the store starts with the mock products and the alerts generated from them |
| InventoryStore.Inventory.Regenerate | src/hooks/useInventory.ts:71-73 | the alerts become a fresh generation: unacknowledged, each naming a listed product, invariant restored |
| InventoryStore.Inventory.UpdateProduct | src/hooks/useInventory.ts:112-120 | products become `UpdateProducts` of the old list; alerts regenerated; invariant kept |
| InventoryStore.Inventory.ApproveProduct | src/hooks/useInventory.ts:122-124 | products with the id become approved by the user and stamped, others unchanged; alerts regenerated |
| InventoryStore.Inventory.AddProduct | src/hooks/useInventory.ts:126-134 | products become the old list plus the new product; alerts regenerated |
| InventoryStore.Inventory.MoveStock | src/hooks/useInventory.ts:136-149 | products become `MoveStockProducts` of the old list; alerts regenerated |
| InventoryStore.Inventory.AcknowledgeAlert | src/hooks/useInventory.ts:151-157 | only the alert list changes, to `AcknowledgeAlerts` of the old one; invariant kept |
| Sequences.FilterSpec | src/pages/Inventory.tsx:69-74 | `Filter` (`Array.prototype.filter`) keeps exactly the passing elements, in order: a subsequence of the input holding each passing element as many times as the input does and no failing one |
| Sequences.FilterIdempotent | src/pages/Inventory.tsx:69-74 | filtering twice with one test is filtering once |
| Sequences.DedupMembers | src/pages/Inventory.tsx:67 | `Dedup` (`[...new Set(xs)]`) has no repeats and holds exactly the elements of xs |
| Sequences.DedupOrder | src/pages/Inventory.tsx:67 | `[...new Set(xs)]` lists elements in order of their first occurrence |
| InventoryFilter.Lower | src/pages/Inventory.tsx:70-71 | lower-casing keeps the length and leaves no upper-case ASCII letter; what it produces is fixed by `LowerIffSameIgnoringCase` and `SearchIgnoresCase` below |
| InventoryFilter.LowerIffSameIgnoringCase | src/pages/Inventory.tsx:70-71 | `Lower` (`toLowerCase`) maps two strings to the same string iff they agree position by position up to the case of ASCII letters (`SameIgnoringCase`, defined without `Lower`) |
| InventoryFilter.SearchIgnoresCase | src/pages/Inventory.tsx:70-71 | two search terms that differ only in letter case match exactly the same products |
| InventoryFilter.LowerIdempotent | src/pages/Inventory.tsx:70-71 | lower-casing twice is lower-casing once |
| InventoryFilter.IncludesIffSlice | src/pages/Inventory.tsx:70-71 | `Includes` (`String.prototype.includes`) holds iff the needle occurs as a contiguous slice at some position |
| InventoryFilter.FilteredProducts | src/pages/Inventory.tsx:69-74 | shown products are a subsequence of the store; a product is shown iff it matches the search and the category, and then as many times as it occurs in the store |
| InventoryFilter.EmptyFilterShowsAll | src/pages/Inventory.tsx:69-74 | empty search and no category show every product, in order |
| InventoryFilter.ShownContainsTerm | src/pages/Inventory.tsx:70-71 | every shown product has the lower-cased term as a slice of its lower-cased description or vendor code |
| InventoryFilter.ShownInSelectedCategory | src/pages/Inventory.tsx:72 | with a category selected, every shown product is in exactly that category |
| InventoryFilter.FilteredProductsIdempotent | src/pages/Inventory.tsx:69-74 | filtering the shown list again with the same inputs changes nothing |
| InventoryFilter.CategoriesSpec | src/pages/Inventory.tsx:67 | `Categories`, the deduplicated `products.map(p => p.category)` column: no repeats, exactly the products' categories, in order of first appearance in that column |
| Sidebar.VisibleItemsSpec | src/components/Layout/Sidebar.tsx:28-30 | `VisibleItems` (`filteredNavigation`) is a subsequence of the table; an entry is shown iff a user is signed in and their role is in its roles |
| Sidebar.SignedOutSeesNothing | src/components/Layout/Sidebar.tsx:29 | with nobody signed in the menu is empty |
| Sidebar.AdminFilter | src/components/Layout/Sidebar.tsx:14-30 | the admin role passes every entry of the table |
| Sidebar.AdminSeesEverything | src/components/Layout/Sidebar.tsx:14-30 | an administrator sees all eight entries of `Navigation` (the table of lines 14-23) in table order |
| Sidebar.MakerFilter | src/components/Layout/Sidebar.tsx:14-30 | the maker role passes exactly Dashboard, Inventory, File Upload, Alerts |
| Sidebar.MakerMenu | src/components/Layout/Sidebar.tsx:14-30 | a maker sees Dashboard, Inventory, File Upload, Alerts, in that order |
| Sidebar.CheckerFilter | src/components/Layout/Sidebar.tsx:14-30 | the checker role passes exactly Dashboard, Inventory, Pending Approval, Invoices, Alerts |
| Sidebar.CheckerMenu | src/components/Layout/Sidebar.tsx:14-30 | a checker sees Dashboard, Inventory, Pending Approval, Invoices, Alerts, in that order |
| Sidebar.ReportsAndSettingsAdminOnly | src/components/Layout/Sidebar.tsx:21-22 | a signed-in user who is not an administrator sees neither Reports nor Settings |
| Auth.CheckCredentials | src/hooks/useAuth.tsx:41-68 | an account is returned iff the name is admin, maker or checker and the password is `password`; its user name and role name equal the given name |
| Auth.DemoAccountPerRole | src/hooks/useAuth.tsx:41-66 | in `DemoUsers`, the `demoUsers` record, each role has exactly one account, named after the role |
| Auth.ConstructorSignsIn | src/hooks/useAuth.tsx:68 | `AcceptsAsWritten`, the test as written, accepts `constructor` with the demo password; the intended test rejects it |
| Auth.AcceptsAsWrittenOtherwiseIntended | src/hooks/useAuth.tsx:68 | for every name that is not an inherited object member, the written test and the intended one agree |
| Auth.AuthProvider.constructor | src/hooks/useAuth.tsx:21-23 | a new provider has nobody signed in and is loading |
| Auth.AuthProvider.RestoreSession | src/hooks/useAuth.tsx:25-32 | a stored user becomes the signed-in user, otherwise the user is unchanged; loading ends |
| Auth.AuthProvider.BeginLogin | src/hooks/useAuth.tsx:35 | loading is on while the sign-in is pending |
| Auth.AuthProvider.CompleteLogin | src/hooks/useAuth.tsx:68-77 | success iff the credentials are good; then user and stored entry are the account, else both are unchanged; loading ends |
| Auth.AuthProvider.Login | src/hooks/useAuth.tsx:34-78 | the whole sign-in: same outcome as CompleteLogin, loading off at the end |
| Auth.AuthProvider.Logout | src/hooks/useAuth.tsx:80-83 | nobody is signed in and the stored entry is gone, whatever the state before (so it is idempotent) |
| Auth.ReloadAfterLogin | src/hooks/useAuth.tsx:25-74 | after a successful sign-in a reloaded page restores the same user; after a failed one it restores what was stored before |
| Auth.ReloadAfterLogout | src/hooks/useAuth.tsx:25-83 | after a sign-out a reloaded page restores nobody and is not loading |

## Left out

- React mechanics. Hook scheduling, batching and re-rendering are not modelled. Each
  component calling `useInventory()` gets its own independent store; the model is one
  store instance.
- Dates. Parsing of `expiryDate` strings, time zones and daylight saving in `addDays`
  are not modelled. Expiry is an integer instant in milliseconds and the window is a
  fixed three days of 86 400 000 ms. An unparsable date gives `Invalid Date` in the
  source and hence no alert; there is no such value here.
- InventoryStore.GenerateAlerts: one `stamp` stands for every `new Date().toISOString()`
  of one generation. The source reads the clock again at each push, so its alerts may
  differ by milliseconds.
- InventoryStore.Inventory.UpdateProduct: the same `now` and `stamp` serve both the
  product update and the alert regeneration that follows it. In the source the
  regeneration runs in a later effect with its own clock reading.
- InventoryStore.UpdateProducts: the source calls `new Date().toISOString()` inside
  `prev.map`, once per matching product, so two products sharing an id may get
  different `updatedAt` values. The model merges these clock reads into one `stamp`.
- InventoryStore.MoveStockProducts: likewise, one clock read per moved product in the
  source is merged into one `stamp`, so all moved products get the same `updatedAt`.
- InventoryStore.ProductUpdate: a `Partial<Product>` may set any required field to an
  explicit `undefined`, which the spread then writes into the product. The model allows
  `undefined` only for the optional `barcode` and `approvedBy`.
- InventoryStore.NewProduct: `createdAt` and `updatedAt` come from two separate
  `new Date().toISOString()` calls in the source and can differ by a millisecond; the
  model merges the two clock reads into one `stamp`, so the two fields are equal here.
- Alert `message`. It is text built by number-to-string interpolation, so it is not
  modelled.
- Numbers. JavaScript numbers are modelled as unbounded integers. `cost` is a `real`
  on which nothing computes, and the `* 0.5` of the severity rule is done on reals.
  Fractional or non-finite counts are not modelled.
- InventoryFilter.Lower: lower-cases ASCII letters only. Unicode case mapping as done
  by `toLowerCase` is not modelled.
- Sign-in plumbing.
  - The 1000 ms simulated delay and the Promise are reduced to the split between
    `BeginLogin` and `CompleteLogin`.
  - Concurrent sign-ins are not modelled.
  - `localStorage` and the JSON round trip are modelled as an `Option<User>` field.
  - A malformed stored entry, which makes `JSON.parse` throw, is not modelled.
- Ids. `Date.now().toString()` is the `newId` parameter. The source does not
  guarantee unique ids, and neither does the model. This is why the update lemmas
  speak of every product carrying the id.
- Invoices and file uploads. The `Invoice` and `FileUpload` records and the empty
  `invoices` and `isLoading` state of the store have no behaviour.
- Dashboard. Its counts and totals (`src/pages/Dashboard.tsx`) are not modelled. They
  count low stock by `status`, which nothing derives from the alerts. They also compute
  floating-point values.
- Presentation. Routing, `ProtectedRoute`, rendering, icons and the unused `sortBy`
  state of the inventory page are not modelled.

## Findings

| source | as written | input that shows it | evidently intended | confidence | as-written member | corrected member |
|---|---|---|---|---|---|---|
| src/hooks/useAuth.tsx:68 | `demoUsers[username]` on a plain object also finds members inherited from `Object.prototype`, which are truthy functions | user name `constructor`, password `password`: `login` returns true and the signed-in "user" is the `Object` function | only the three demo accounts can sign in | not executed; high (standard JavaScript lookup semantics) | Auth.ConstructorSignsIn | Auth.CheckCredentials |
