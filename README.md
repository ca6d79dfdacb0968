# Bluecounts point of sale: offline-first sync engine and write paths, in Dafny

This project models the core of the Bluecounts point-of-sale web client. The
client keeps selling while it is disconnected from its server and reconciles
with the server later. The model covers five parts:

- **The local store** (`Db`, from `src/lib/db.ts`). Each table is a map from
  primary key to record. Every entity record shares one envelope: `id`, a
  numeric `version_id` and a nullable `deleted_at` tombstone. The sync queue
  is a sequence of intents in insertion order. The meta store holds the
  watermark `local_max_version_id`. The version 3 store and index layout is a
  constant.
- **The sync engine** (`SyncEngine`, from `src/hooks/useSyncManager.ts`). It
  covers:
  - decoding and writing the watermark;
  - `pull`, which merges the server's per-table delta: a tombstone row only
    patches `deleted_at` and `version_id`, any other row replaces the record,
    and duplicate inventory rows under one logical key are deleted;
  - `push`, which sends the pending intents and applies the per-item results
    to the queue;
  - the pull → push → pull `sync` cycle;
  - the `idle`/`pulling`/`pushing`/`error` status, `lastError`,
    `pendingCount` and `isOnline`.
- **The point-of-sale screen** (`Pos`, from `src/components/POS.tsx`): the
  cart, `cartTotal`, `getQty`, the search filter, and two optimistic write
  paths. `checkout` counts the cart, builds one line per product, queues one
  SALE, writes the sale and its items, and decrements stock. `addProduct`
  writes the product, adds to stock and queues one ADD_PRODUCT.
- **The session context** (`Session`, from
  `src/contexts/SessionContext.tsx`). It covers opening and closing a
  cash-drawer session through the server or offline, the offline expected
  balance (opening balance plus the session's sales) and the variance, and
  the way `refreshSession` finds the current session.
- **The form guards** (`Forms`). These are the add-product modal, the
  close-session modal and the open-session screen. Each one decides which
  input reaches a write path, and with which message the rest is rejected.

`Text` holds the JavaScript string built-ins the core depends on:
- `trim`;
- `toLowerCase`;
- `includes`;
- `parseInt(s, 10)` and `String(n)`, with their round trip proved;
- the key order IndexedDB uses for `.first()`.

Server responses are input values: an unreachable server, a non-ok status,
or a delivered body. The requests the engine would send are returned as
out-parameters. Generated ids, clock readings and the presence of an auth
token are parameters. State that the source changes in place is a class with
fields: `LocalDb`, `SyncManager`, `SessionProvider` and `PosScreen`. Each
method of these classes states the whole new state. Where a method states it
through a function (`MergeRows`, `ApplyResults`, `CartLines`, `Decremented`,
`AddStock`, `SessionTotal`), the properties that matter are proved about
that function.

### Where the code departs from the intended behaviour

The system's design documentation describes some behaviours the code does
not have. The model follows the code in each case, and a lemma or a
contract exhibits each difference.

- **Version order.** A merge is meant never to lower a row's `version_id`.
  The code's `put` ignores versions (`PutIgnoresVersion`).
- **Merge order.** Merging is meant to give the same tables in any order.
  Two rows for the same id do not commute; the later one wins
  (`MergeOrderMatters`). Rows with different ids do commute
  (`MergeRowsCommute`).
- **The watermark.** The stored watermark is meant never to decrease. The
  code overwrites it with whatever number the server sends
  (`WatermarkCanDecrease`). Push writes it before it applies the per-item
  results (`Push`).
- **Sync pulls.** Only the first pull of `sync` is meant to be a full
  resync. The code forces a full pull both times (`Sync`).
- **Atomicity of writes.** Each queue item is meant to be written in one
  transaction with its rows, after the rows. The code does the following
  instead:
  - checkout and the session paths add the queue item first, then make the
    entity writes as separate steps;
  - addProduct writes the entities first.
  The model keeps each order and makes every write a separate step
  (`RecordSale`, `RecordLine`).
- **Which stock row.** Checkout decrements the first snapshot row of a
  product. `getQty` shows the row with the highest version
  (`CheckoutAndGetQtyReadDifferentRows`).
- **pendingCount after a failed push.** The pending count is meant to be
  recomputed after every push. The code leaves it unchanged when the request
  fails (`Push`).
- **Zero quantity.** A zero quantity is meant to be rejected. The
  add-product guard accepts 0 (`ZeroPriceAndQuantityAccepted`).

## Model

| member | source | states |
|---|---|---|
| Text.TrimStart | src/components/AddProductModal.tsx:30-31 | The leading-whitespace trim keeps a suffix of the input. Everything it drops is whitespace, and what is left does not start with whitespace. |
| Text.TrimEnd | src/components/AddProductModal.tsx:30-31 | The trailing-whitespace trim keeps a prefix of the input. Everything it drops is whitespace, and what is left does not end with whitespace. |
| Text.TrimEmptyIff | src/components/AddProductModal.tsx:33-40 | A field trims to the empty string (the `!nameTrim` / `!skuTrim` test) exactly when it is all whitespace. |
| Text.TrimKeepsTrimmed | src/components/AddProductModal.tsx:52-56 | A string with no whitespace at either end is unchanged by trim. |
| Text.TrimIdempotent | src/components/AddProductModal.tsx:52-56 | Trimming a trimmed value changes nothing. |
| Text.LowerChar | src/components/POS.tsx:259 | An upper-case ASCII letter becomes the lower-case letter at the same place in the alphabet. Any other character is kept. |
| Text.ToLower | src/components/POS.tsx:259-264 | Lower-casing keeps the length and lower-cases each character in place. |
| Text.ContainsAt | src/components/POS.tsx:262-264 | `includes` holds exactly when the query occurs in the string at some index. |
| Text.ShowNat | src/components/AddProductModal.tsx:57 | `String(n)` of a natural number is a non-empty run of decimal digits, with no leading zero unless n is 0. |
| Text.DigitRun | src/hooks/useSyncManager.ts:63 | The digit run parseInt reads is the longest prefix made only of digits. |
| Text.ReadDigits | src/hooks/useSyncManager.ts:63 | Reading the leading digits fails exactly when there is no leading digit. |
| Text.ParseInt | src/components/AddProductModal.tsx:45 | `parseInt(s, 10)` is NaN (None) exactly when no digit follows the leading whitespace and optional sign. |
| Text.DigitsValueShowNat | src/components/AddProductModal.tsx:57 | The decimal digits of n have the value n. |
| Text.ParseShowInt | src/components/POS.tsx:213 | `parseInt(String(n), 10)` gives back n for every integer n. The quantity the modal re-stringifies reaches addProduct unchanged. |
| Text.StrLessIrreflexive | src/contexts/SessionContext.tsx:64-67 | No key sorts before itself in IndexedDB key order. |
| Text.StrLessTransitive | src/contexts/SessionContext.tsx:64-67 | IndexedDB key order is transitive. |
| Text.StrLessTotal | src/contexts/SessionContext.tsx:64-67 | Any two different keys are ordered one way or the other. |
| Text.LeastKeyExists | src/contexts/SessionContext.tsx:64-67 | Every non-empty set of keys has a least key, so `.first()` on a matching query always has a row to return. |
| Db.PendingItems | src/hooks/useSyncManager.ts:218 | `where('status').equals('pending')` returns exactly the queue items with status pending, and no more items than the queue holds. |
| Db.PendingItemsCounts | src/hooks/useSyncManager.ts:218 | The pending list holds each pending item exactly as often as the queue does, and no other item. So the pending count (`.count()` at line 255) is the number of pending items in the queue. |
| Db.FirstMatch | src/contexts/SessionContext.tsx:64-67 | `.first()` returns none exactly when no row matches. Otherwise it returns a matching row whose key is least among the matches. |
| Db.FirstMatchExists | src/components/POS.tsx:228-231 | When some row matches, a least matching key exists. |
| Db.FirstMatchUnique | src/components/POS.tsx:228-231 | The least matching key is unique, so `.first()` is determined. |
| Db.First | src/components/POS.tsx:228-231 | The executable lookup returns the row `.first()` denotes. |
| Db.LocalDb.constructor | src/lib/db.ts:94-131 | A fresh database has empty tables, an empty queue and an empty meta store, and satisfies the key invariants. |
| Db.LocalDb.Enqueue | src/contexts/SessionContext.tsx:147-160 | `sync_queue.add` appends the item, keeps queue ids unique, and raises the pending count by one for a pending item. |
| Db.LocalDb.PutProduct | src/components/POS.tsx:217-225 | `products.add` stores the row under its id and keeps every table keyed. |
| Db.LocalDb.PutInventory | src/components/POS.tsx:233-240 | `inventory.add` stores the row under its id and keeps every table keyed. |
| Db.LocalDb.UpdateQuantity | src/components/POS.tsx:190-192 | `inventory.update(id, {quantity})` sets that row's quantity and does nothing for an absent id. |
| Db.LocalDb.PutSale | src/components/POS.tsx:165-175 | `sales.add` stores the sale under its id. |
| Db.LocalDb.PutSaleItem | src/components/POS.tsx:177-187 | `sale_items.add` stores the item under its id. |
| Db.LocalDb.PutSessions | src/contexts/SessionContext.tsx:227-232 | Writing pos_sessions keeps the table keyed by id. |
| Db.LocalDb.PutRecords | src/hooks/useSyncManager.ts:92-200 | The merged tables of a pull replace the five entity tables, which stay keyed by id. |
| Db.SchemaV3Layout | src/lib/db.ts:122-130 | Version 3 keys every table by `id` except sync_meta, which is keyed by `key`. Inventory has the (tenant_id, outlet_id, product_id) index and pos_sessions the (outlet_id, status) index. Every index query of the core has an index to run on, and products has no outlet_id index any more. |
| SyncEngine.WithMaxVersion | src/hooks/useSyncManager.ts:67-69 | setMaxVersion stores the watermark as a number that reads back as the given version. It adds only the watermark key and leaves every other meta entry as it was. |
| SyncEngine.DecodeNumberOrMissing | src/hooks/useSyncManager.ts:59-65 | A stored number is returned as it is. A missing row reads as 0. |
| SyncEngine.DecodeDecimalString | src/hooks/useSyncManager.ts:63 | A stored decimal string decodes to its integer. |
| SyncEngine.DecodeUnparsableString | src/hooks/useSyncManager.ts:63 | A stored string with no leading digits decodes to 0. |
| SyncEngine.WatermarkCanDecrease | src/hooks/useSyncManager.ts:202-204 | Writing a smaller server value lowers the stored watermark, because the write is unconditional. |
| SyncEngine.MergeRow | src/hooks/useSyncManager.ts:94-108 | A tombstone row changes only `deleted_at` and `version_id` of the local row with its id, adds no key, and does nothing when that row is absent. Any other row replaces the whole record under its id. Rows under other ids are unchanged. |
| SyncEngine.MergeRowsKeyed | src/hooks/useSyncManager.ts:92-111 | Merging a table's rows keeps every record stored under its own id. |
| SyncEngine.MergeRowsUntouched | src/hooks/useSyncManager.ts:92-111 | A local row that no pulled row names is kept exactly, and no such key appears or disappears. |
| SyncEngine.MergeRowsLastPutWins | src/hooks/useSyncManager.ts:97-108 | When the last row sent for an id is not a tombstone, that id holds the row exactly as sent, whatever its version. |
| SyncEngine.PutIgnoresVersion | src/hooks/useSyncManager.ts:97 | A pulled row with a lower version_id still overwrites a newer local row. |
| SyncEngine.MergeRowsCommute | src/hooks/useSyncManager.ts:93-110 | Rows with different ids give the same table in either order. |
| SyncEngine.MergeOrderMatters | src/hooks/useSyncManager.ts:93-110 | Two rows with the same id give different tables in the two orders, so merge order matters. |
| SyncEngine.WithoutDuplicates | src/hooks/useSyncManager.ts:114-118 | The duplicate repair deletes exactly the local rows that share the pulled row's logical key under another id, and keeps every other row as it was. |
| SyncEngine.MergeInventoryRow | src/hooks/useSyncManager.ts:112-134 | After an inventory row is merged, no other row shares its logical key. Another row survives exactly when its key differs, and it survives unchanged. |
| SyncEngine.MergeInventoryRowKeepsKeysUnique | src/hooks/useSyncManager.ts:112-134 | One merged inventory row keeps the logical key unique across the table. |
| SyncEngine.MergeInventoryRowsKeepsKeysUnique | src/hooks/useSyncManager.ts:112-135 | Pulling any inventory delta keeps the logical key unique when it was unique before. |
| SyncEngine.MergeInventoryRowsKeyed | src/hooks/useSyncManager.ts:112-135 | Pulling inventory keeps every row stored under its own id. |
| SyncEngine.MergeInto | src/hooks/useSyncManager.ts:92-111 | The per-table loop of update/put calls leaves the table that merging the rows in order gives. |
| SyncEngine.DeleteDuplicates | src/hooks/useSyncManager.ts:115-118 | The query-and-delete loop leaves the table without the pulled row's duplicates. |
| SyncEngine.MergeInventoryInto | src/hooks/useSyncManager.ts:112-135 | The inventory loop (repair, then update or put) leaves the table that merging the rows in order gives. |
| SyncEngine.ToLocalSession | src/hooks/useSyncManager.ts:183-197 | A pulled session keeps its id, version and tombstone. It is stored closed exactly when the server's status is 'closed', and open otherwise. |
| SyncEngine.ToLocalSessions | src/hooks/useSyncManager.ts:179-199 | Every pulled session row is converted, in order. |
| SyncEngine.SinceVersion | src/hooks/useSyncManager.ts:77-85 | A pull asks from version 0 when forced or when the tenant has no local product. Otherwise it asks from the stored watermark. |
| SyncEngine.BatchOf | src/hooks/useSyncManager.ts:226-230 | The push batch has one entry per pending item, in order, carrying its id, action type and payload. |
| SyncEngine.ApplyResult | src/hooks/useSyncManager.ts:247-253 | Applying one result keeps the queue's length. |
| SyncEngine.ApplyResultsPerItem | src/hooks/useSyncManager.ts:247-253 | After the results loop, each item's status is set by the last 'accepted'/'synced' or 'failed' result for its id, and its error_message by the last 'failed' one. An item with no such result, or with only other statuses, is unchanged. |
| SyncEngine.ApplyResultsIdempotent | src/hooks/useSyncManager.ts:247-253 | Applying the same results twice gives the same queue as applying them once. |
| SyncEngine.ApplyResultsKeepsIds | src/hooks/useSyncManager.ts:247-253 | Applying results keeps queue ids unique. |
| SyncEngine.BatchOnlyPending | src/hooks/useSyncManager.ts:218-230 | An item that is already synced or failed is never sent again. |
| SyncEngine.NoPendingItems | src/hooks/useSyncManager.ts:254-255 | A queue with no pending item has an empty pending list. |
| SyncEngine.AllAcceptedClearsPending | src/hooks/useSyncManager.ts:247-255 | When every pending item is last answered 'accepted' or 'synced', the pending count after the push is 0. |
| SyncEngine.SyncManager.constructor | src/hooks/useSyncManager.ts:39-57 | The engine starts idle, with no error and a pending count of 0, over the given tenant, outlet, device, enabled flag and connectivity. |
| SyncEngine.SyncManager.SetSimulateOffline | src/hooks/useSyncManager.ts:46-53 | The switch sets the simulate-offline flag. The engine is then online exactly when the browser is online and the switch is off. |
| SyncEngine.SyncManager.Pull | src/hooks/useSyncManager.ts:71-212 | Without a tenant nothing happens. A failed request changes no table and no watermark, ends in `error` and records the message. A delivered delta merges the five tables in turn (MergeDelta), writes the watermark only when the server sent a number, and ends idle with no error. The request asks from SinceVersion. |
| SyncEngine.SyncManager.ApplyDelta | src/hooks/useSyncManager.ts:92-204 | A delivered delta leaves the tables as merging each table's rows gives (MergeDelta). The watermark is written last, and only when the server sent a number. |
| SyncEngine.SyncManager.Push | src/hooks/useSyncManager.ts:216-265 | Without tenant, outlet or device nothing happens. With nothing pending, no request is made and pendingCount becomes 0. Otherwise the whole pending batch is sent. A failed request marks nothing, keeps the watermark and pendingCount, and ends in `error`. An accepted one writes the watermark, applies the results, recounts the pending items and ends idle. |
| SyncEngine.SyncManager.ApplyPushResults | src/hooks/useSyncManager.ts:247-253 | The update loop leaves the queue the results give, with ids still unique. |
| SyncEngine.SyncManager.Sync | src/hooks/useSyncManager.ts:267-272 | When disabled or without a tenant, nothing changes: no request, the same tables, queue, watermark, status, error and pending count. Otherwise both pulls ask from version 0 and the tables end as the two deltas merged in turn. A push is sent exactly when items were pending, with the batch of those items. The queue ends as the accepted push's results leave it, and the watermark as the three writes in order leave it. The pending count is recounted after an accepted push, is 0 when nothing was pending, and is otherwise unchanged. The status and error are those of the second pull. |
| Session.FirstOpenIndex | src/contexts/SessionContext.tsx:52 | The index `find` stops at is the first 'open' entry, and no earlier entry is open. |
| Session.FirstListedOpen | src/contexts/SessionContext.tsx:52 | `find(s => s.status === 'open')` is none exactly when no listed session is open. Otherwise it is the first open one. |
| Session.LocalOpenSession | src/contexts/SessionContext.tsx:64-76 | The local fallback is none exactly when the outlet has no open session row. Otherwise it is an open row of that outlet, with its id and opening balance. |
| Session.FallbackPicksLeastKey | src/contexts/SessionContext.tsx:64-67 | With two open sessions for one outlet, the fallback never picks the one with the greater key. |
| Session.SessionTotalRemove | src/contexts/SessionContext.tsx:221-225 | A session's total does not depend on the order in which its sales are summed. |
| Session.SessionTotalAdd | src/contexts/SessionContext.tsx:221-225 | A new sale adds its amount to its own session's total and nothing to any other. |
| Session.SessionTotalNone | src/contexts/SessionContext.tsx:221-225 | A session with no sales has a total of 0. |
| Session.EnumeratedSum | src/contexts/SessionContext.tsx:221-225 | Summing `total_amount` over the session_id query's result, in any order, gives the session's total. |
| Session.OpenedRow | src/contexts/SessionContext.tsx:161-171 | An opened session row is open, with the given id, version, outlet and opening balance, no closing figures, and no device id exactly when the device id is blank. |
| Session.CloseRow | src/contexts/SessionContext.tsx:227-232 | Closing updates only the session's own row: status closed, the closing balance, the expected balance, closed_at, and the new version when one is given. Its id, tombstone, outlet and opening balance are kept. An absent session is a no-op. |
| Session.ClosedSessionNotCurrent | src/contexts/SessionContext.tsx:227-233 | After a close, the local fallback never picks the closed session. |
| Session.SessionProvider.constructor | src/contexts/SessionContext.tsx:26-34 | The provider starts loading, with no current session. |
| Session.SessionProvider.RefreshSession | src/contexts/SessionContext.tsx:36-94 | With no tenant or outlet there is no session. Otherwise the current session is the server's first open one when the server answered with one, and the local fallback in every other case. Loading ends false. |
| Session.SessionProvider.OpenSession | src/contexts/SessionContext.tsx:100-175 | With an ok reply, the server's session becomes current and is stored open. Otherwise one pending OPEN_SESSION is queued (the pending count rises by one), the session is stored open with version 0, and it becomes current. |
| Session.SessionProvider.CloseSession | src/contexts/SessionContext.tsx:177-238 | With an ok reply, the server's figures and version (0 when absent) are stored and its variance (0 when absent) is returned. Otherwise the offline path runs, and the variance is 0 exactly when the count matches the expected balance. Either way no session is current afterwards. |
| Session.SessionProvider.CloseOffline | src/contexts/SessionContext.tsx:209-235 | One pending CLOSE_SESSION is queued. The row is closed with expected = opening balance (0 for an unknown session) + the session's sales total, and closing − expected is returned. |
| Session.ExpectedBalance | src/contexts/SessionContext.tsx:220-226 | The computed expected balance is the opening balance plus the session's total. |
| Session.SessionSales | src/contexts/SessionContext.tsx:221-224 | The session_id query returns each sale of the session exactly once and nothing else. |
| Forms.ValidateProduct | src/components/AddProductModal.tsx:27-58 | Each message is given exactly when its check is the first to fail, in the order name, SKU, price (NaN or negative), quantity (NaN or negative). Input that passes all four checks is accepted. The accepted values are the trimmed name, SKU and description, the parsed price, and a quantity string that `parseInt(.., 10) \|\| 0` reads back as the typed quantity. |
| Forms.AcceptedProductIsClean | src/components/AddProductModal.tsx:52-58 | Accepted values have a non-blank trimmed name and SKU, a trimmed description, a price of at least 0, and a quantity string that addProduct's `parseInt(.., 10) \|\| 0` reads back as the typed quantity, which is at least 0. |
| Forms.ZeroPriceAndQuantityAccepted | src/components/AddProductModal.tsx:41-49 | A price of 0 and a quantity of "0" are accepted. |
| Forms.ValidateClosing | src/components/CloseSessionModal.tsx:45-49 | A closing balance is accepted exactly when it is a number of at least 0, and then passed on unchanged. Otherwise it is rejected with the form's message. |
| Forms.ShownExpectedMatchesStored | src/components/CloseSessionModal.tsx:26-40 | Once loaded, the expected balance the modal shows equals the one an offline close stores, whatever order the sales load in. |
| Forms.RecordVariance | src/components/CloseSessionModal.tsx:53 | The variance is recorded only when the result carries one. |
| Forms.OfflineVariancePrefix | src/components/CloseSessionModal.tsx:69 | After an offline close, '+' is shown exactly when the counted cash is at least the expected balance. |
| Forms.ValidateOpening | src/components/OpenSessionScreen.tsx:17-27 | An opening balance is accepted exactly when it is a number of at least 0, and then passed on unchanged. The device id is absent exactly when it is blank, and otherwise it is the trimmed input. A rejection carries the form's message. |
| Forms.OpeningDeviceIdIsClean | src/components/OpenSessionScreen.tsx:27 | A device id that reaches openSession is non-blank and trimmed. |
| Pos.OccurrencesMultiplicity | src/components/POS.tsx:271 | `filter(id => id === p.id).length` is the id's multiplicity in the cart. |
| Pos.IndexOf | src/components/POS.tsx:110 | `indexOf` is -1 exactly when the id is absent. Otherwise it is the first position of the id. |
| Pos.WithRemoved | src/components/POS.tsx:108-116 | Removing an absent id leaves the cart unchanged. Otherwise exactly the first occurrence is dropped and the rest keeps its order. |
| Pos.WithRemovedUnits | src/components/POS.tsx:108-116 | Removing takes exactly one unit of the id out of the cart. |
| Pos.AddThenRemove | src/components/POS.tsx:104-116 | Adding then removing an id leaves the same units in the cart, and the very same cart when the id was not there before. |
| Pos.ProductIndex | src/components/POS.tsx:136 | The index `find` stops at is the first product with the id. |
| Pos.FindProduct | src/components/POS.tsx:136 | `find` returns none exactly when no product has the id. Otherwise it returns the first product with that id. |
| Pos.ChargeIsProduct | src/components/POS.tsx:139 | The line charge is unit price × quantity. |
| Pos.CartTotalEmpty | src/components/POS.tsx:269-273 | An empty cart totals 0. |
| Pos.CartTotalAppend | src/components/POS.tsx:269-273 | One more unit of an id raises cartTotal by that product's price, or by 0 for an id not in the catalogue. |
| Pos.CartTotalIsCartSum | src/components/POS.tsx:269-273 | cartTotal equals the sum of every cart entry at its catalogue price. |
| Pos.CartTotalIgnoresOrder | src/components/POS.tsx:269-273 | cartTotal depends only on the units in the cart, not the order they were added in. |
| Pos.AddThenRemoveKeepsTotal | src/components/POS.tsx:104-116 | Adding a unit and removing it again leaves cartTotal unchanged. |
| Pos.DistinctIds | src/components/POS.tsx:131-134 | The keys of countByProduct are distinct, are exactly the ids in the cart, and are no more than the cart's entries. |
| Pos.LineFor | src/components/POS.tsx:136-146 | A distinct id gives at most one line. |
| Pos.LinesFor | src/components/POS.tsx:135-147 | The lines loop gives no more lines than ids. |
| Pos.LinesForCharge | src/components/POS.tsx:135-147 | Each line is for one of the ids, is a catalogue product, and charges all its cart units at the catalogue price. |
| Pos.LinesForCover | src/components/POS.tsx:135-147 | Every id found in the catalogue gets a line. |
| Pos.LinesForDistinct | src/components/POS.tsx:135-147 | Distinct ids give lines for distinct products. |
| Pos.CartLines | src/components/POS.tsx:131-147 | Checkout never builds more lines than the cart has entries. |
| Pos.CartLinesShape | src/components/POS.tsx:131-147 | Checkout builds one line per distinct cart product found in the catalogue: none for an unknown id, none twice, each charging all its units at the catalogue price. |
| Pos.LinesTotalIsWeighted | src/components/POS.tsx:140 | The summed line totals are Σ price × units over the ids. |
| Pos.LinesTotalIsCartSum | src/components/POS.tsx:130-147 | Σ price × units over the cart's distinct ids equals the entry-by-entry sum of the cart. |
| Pos.CheckoutTotalIsCartTotal | src/components/POS.tsx:130-147 | The sale's total_amount equals the cartTotal the screen shows, for a catalogue with distinct ids. |
| Pos.CountUnits | src/components/POS.tsx:131-134 | The count loop gives, for exactly the ids in the cart, their number of units, with the keys in the order they were first met. |
| Pos.MakeLine | src/components/POS.tsx:138-146 | A line carries its id, the units, the unit price and unit price × units. |
| Pos.BuildLines | src/components/POS.tsx:124-147 | The two loops produce the lines CartLines describes, and totalAmount is their sum. |
| Pos.RowsFor | src/components/POS.tsx:92-93 | The filter keeps exactly the snapshot rows of the product. |
| Pos.NewestIndex | src/components/POS.tsx:97 | The reduce stops at a row of the highest version_id. When versions tie, it stops at the last such row. |
| Pos.Newest | src/components/POS.tsx:97 | The reduce returns one of the rows, and no row has a higher version. |
| Pos.GetQty | src/components/POS.tsx:90-102 | getQty is 0 when the product has no row. Otherwise it is the quantity of a highest-version row of the product, clamped at 0. |
| Pos.StockIndex | src/components/POS.tsx:188 | The index `find` stops at is the first snapshot row of the product, and no earlier row belongs to it. |
| Pos.FindStock | src/components/POS.tsx:188 | `inventory.find` is none exactly when the product has no snapshot row. Otherwise it is the first snapshot row of the product: no earlier row belongs to it. |
| Pos.CheckoutAndGetQtyReadDifferentRows | src/components/POS.tsx:188-192 | The row checkout decrements can differ from the highest-version row getQty shows (line 97). |
| Pos.WithItems | src/components/POS.tsx:176-187 | The sale_items adds keep the table keyed by id. |
| Pos.WithItemsLine | src/components/POS.tsx:176-187 | With distinct generated ids, line i's item row is stored under the i-th id, for the new sale. |
| Pos.WithItemsOthers | src/components/POS.tsx:176-187 | No key other than the generated ids is added or changed. |
| Pos.DecrementLine | src/components/POS.tsx:188-193 | One line's stock update keeps the table's keys. |
| Pos.Decremented | src/components/POS.tsx:176-194 | The stock updates of all lines keep the table's keys. |
| Pos.DecrementedLine | src/components/POS.tsx:188-193 | Each line's first snapshot row ends at its snapshot quantity minus that line's units. |
| Pos.DecrementedUntouched | src/components/POS.tsx:188-193 | A row that is no line's first snapshot row keeps its quantity. |
| Pos.SaleRow | src/components/POS.tsx:163-175 | The sale has the new id, version 0, no tombstone and the total. It carries the session id exactly when a session is open. |
| Pos.CheckoutSaleCountsTowardsClose | src/components/POS.tsx:165-175 | A sale checkout records raises its session's total, and so the expected balance at close, by its total_amount. |
| Pos.AddStockAddsQuantity | src/components/POS.tsx:227-245 | addProduct's stock write keeps inventory keyed by id with one row per logical key, and the stock under the product's key grows by exactly the quantity. |
| Pos.NewProduct | src/components/POS.tsx:217-225 | The product row has version 0 and no tombstone. Its description is null exactly when the form's description is empty. |
| Pos.FilterBy | src/components/POS.tsx:258-266 | For a non-blank query, the filter keeps exactly the products whose name, SKU or description contains it, at most all of them. |
| Pos.FilterProducts | src/components/POS.tsx:258-266 | A blank query lists every product. Otherwise the listed products are exactly those matching the trimmed, lower-cased query. |
| Pos.FilterByIdempotent | src/components/POS.tsx:258-266 | Filtering the filtered list with the same query changes nothing. |
| Pos.PosScreen.constructor | src/components/POS.tsx:32 | The cart starts empty. |
| Pos.PosScreen.AddToCart | src/components/POS.tsx:104-106 | addToCart appends the id, so the cart gains exactly one unit of it. |
| Pos.PosScreen.RemoveFromCart | src/components/POS.tsx:108-116 | removeFromCart drops the first occurrence, or nothing for an absent id. |
| Pos.PosScreen.Checkout | src/components/POS.tsx:120-195 | Checkout does nothing with no products, an empty cart, or a required but missing session. Otherwise it does all of the following: queues exactly one pending SALE carrying the lines, total and session id; writes the sale with version 0; writes one item per line under the new sale; decrements each line's first snapshot row; empties the cart. |
| Pos.PosScreen.RecordSale | src/components/POS.tsx:163-194 | The sale is written, then each line's item and stock update, in line order. |
| Pos.PosScreen.RecordLine | src/components/POS.tsx:176-193 | One line writes its item row and decrements its first snapshot row, if there is one. |
| Pos.PosScreen.AddStockRow | src/components/POS.tsx:227-245 | The first row under (tenant, outlet, product) gains the quantity, or a new row with version 0 starts with it. |
| Pos.PosScreen.AddProduct | src/components/POS.tsx:208-254 | The product is written with version 0 unless its id is taken. The stock under its key grows by `parseInt(.., 10) \|\| 0` of the initial quantity. Exactly one pending ADD_PRODUCT is queued. |

## Left out

- HTTP, JSON decoding, auth headers and the auth token: server replies are input values and requests are outputs. An unreachable server and a non-ok status are both error outcomes.
- React plumbing: the online and offline listeners, the mount-time pull, and the 2-second pendingCount poll. Connectivity is a field.
- Concurrency: overlapping sync cycles and interleaved awaits. Each operation runs to completion.
- localStorage: the device id and the persistence of the simulate-offline flag. The flag is a field.
- `crypto.randomUUID`, `Date.now`, `Math.random` and ISO timestamps: they are parameters. The freshness Dexie's `add` would enforce with a ConstraintError becomes a precondition of the write (a fresh queue id, sale id, item ids or inventory id).
- Money is `real`, so floating-point rounding of sums and products is not modelled. `Number()` coercions are the identity, and `toFixed` formatting is left out.
- `parseFloat` is an input (`Option<real>`, where None is NaN), and `String(price)` followed by `parseFloat` is taken to give the price back.
- Text.ToLower: only ASCII letters are lower-cased, not the full Unicode case mapping of `toLowerCase`.
- Text.StrLess: it compares Unicode scalar values rather than UTF-16 code units, so keys with characters outside the Basic Multilingual Plane may sort differently.
- Pos.CountUnits: the key order of `Object.entries` puts integer-like keys first. The model keeps first-seen order. Totals and the line set do not depend on it.
- Db.PendingItems: Dexie returns pending items in primary-key order. The model keeps queue insertion order.
- Schema versions 1 and 2, and the upgrade between versions, are left out. Only version 3 is modelled.
- The ADJUST_STOCK action is declared but never produced by the core.
- The online open's `opened_at` is a second clock reading in the source. The model reuses `openedAt`.
- Pos.PosScreen.Checkout: the snapshot's rows are assumed to be distinct table rows (`RowIdsDistinct`) where the per-line decrement is proved.
- The online close's and refresh's exception paths are folded into "request failed".
