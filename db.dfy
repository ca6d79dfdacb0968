/**
 * The local-first store (src/lib/db.ts): one record type per table, the sync
 * queue's action and status enums, the current (version 3) store and index
 * layout, and the database itself as a set of maps keyed by primary key.
 */
module Db {
  import opened Wrappers
  import opened Text

  /**
   * Every entity row carries an id, a numeric version_id (0 until the server
   * assigns one) and an optional, nullable deleted_at tombstone; `body` holds
   * the table's own fields. `deletedAt == None` stands for both undefined and null.
   */
  datatype Record<B> = Record(id: string, versionId: int, deletedAt: Option<string>, body: B)

  datatype ProductBody = ProductBody(
    tenantId: string, sku: string, name: string, description: Option<string>, price: real,
    createdAt: Option<string>, updatedAt: Option<string>)

  datatype InventoryBody = InventoryBody(
    tenantId: string, outletId: string, productId: string, quantity: int,
    createdAt: Option<string>, updatedAt: Option<string>)

  datatype SaleBody = SaleBody(
    tenantId: string, outletId: string, deviceId: string, sessionId: Option<string>,
    deviceTransactionId: string, totalAmount: real, createdAt: string, updatedAt: Option<string>)

  datatype SessionStatus = Open | Closed

  datatype PosSessionBody = PosSessionBody(
    tenantId: string, outletId: string, userId: string, deviceId: Option<string>,
    openingBalance: real, closingBalance: Option<real>, expectedBalance: Option<real>,
    status: SessionStatus, openedAt: string, closedAt: Option<string>)

  datatype SaleItemBody = SaleItemBody(
    tenantId: string, outletId: string, saleId: string, productId: string, quantity: int,
    unitPrice: real, lineTotal: real, createdAt: Option<string>)

  type Product = Record<ProductBody>
  type Inventory = Record<InventoryBody>
  type Sale = Record<SaleBody>
  type PosSession = Record<PosSessionBody>
  type SaleItem = Record<SaleItemBody>

  /** `deleted_at == null`: the rows the point-of-sale screen lists. */
  predicate IsActive<B>(r: Record<B>)
  {
    r.deletedAt.None?
  }

  /** The logical key of an inventory row: (tenant_id, outlet_id, product_id). */
  datatype StockKey = StockKey(tenantId: string, outletId: string, productId: string)

  function KeyOf(r: Inventory): StockKey
  {
    StockKey(r.body.tenantId, r.body.outletId, r.body.productId)
  }

  // ---------------------------------------------------------------------
  // The sync queue and the meta store

  datatype SyncActionType = SaleAction | AdjustStock | AddProduct | OpenSession | CloseSession
  datatype SyncStatus = Pending | Synced | Failed

  /** One line of a checkout, as it travels in a SALE payload. */
  datatype SaleLine = SaleLine(productId: string, quantity: int, unitPrice: real, lineTotal: real)

  /** The payload each action type enqueues. */
  datatype Payload =
    | SalePayload(deviceTransactionId: string, totalAmount: real, items: seq<SaleLine>, sessionId: Option<string>)
    | AdjustStockPayload(productId: string, quantityChange: int)
    | AddProductPayload(newProductId: string, sku: string, name: string, price: real, initialQuantity: int)
    | OpenSessionPayload(newSessionId: string, outletId: string, deviceId: Option<string>, openingBalance: real,
                         openedAt: string, userId: string)
    | CloseSessionPayload(closedSessionId: string, closingBalance: real, closedAt: string)

  /** error_message exists only on queue records. */
  datatype QueueItem = QueueItem(
    id: string, actionType: SyncActionType, payload: Payload, timestamp: int,
    status: SyncStatus, errorMessage: Option<string>)

  /** A sync_meta value is a string or a number. */
  datatype MetaValue = MetaNumber(n: int) | MetaString(s: string)

  /** The payload shape that belongs to each action type. */
  predicate PayloadFits(action: SyncActionType, p: Payload)
  {
    match action
    case SaleAction => p.SalePayload?
    case AdjustStock => p.AdjustStockPayload?
    case AddProduct => p.AddProductPayload?
    case OpenSession => p.OpenSessionPayload?
    case CloseSession => p.CloseSessionPayload?
  }

  predicate QueueIdsUnique(q: seq<QueueItem>)
  {
    forall i, j :: 0 <= i < j < |q| ==> q[i].id != q[j].id
  }

  predicate InQueue(q: seq<QueueItem>, id: string)
  {
    exists i :: 0 <= i < |q| && q[i].id == id
  }

  /** `where('status').equals('pending')`: the pending items, in queue order. */
  function PendingItems(q: seq<QueueItem>): (r: seq<QueueItem>)
    ensures |r| <= |q|
    ensures forall x :: x in r ==> x in q && x.status == Pending
    ensures forall i :: 0 <= i < |q| && q[i].status == Pending ==> q[i] in r
  {
    if q == [] then []
    else if q[|q| - 1].status == Pending then PendingItems(q[..|q| - 1]) + [q[|q| - 1]]
    else PendingItems(q[..|q| - 1])
  }

  /** The pending list holds each pending item exactly as often as the queue does, and nothing else. */
  lemma {:induction false} PendingItemsCounts(q: seq<QueueItem>)
    ensures forall x :: multiset(PendingItems(q))[x] == if x.status == Pending then multiset(q)[x] else 0
  {
    if q != [] {
      PendingItemsCounts(q[..|q| - 1]);
      assert q == q[..|q| - 1] + [q[|q| - 1]];
    }
  }

  function PendingCount(q: seq<QueueItem>): nat
  {
    |PendingItems(q)|
  }

  // ---------------------------------------------------------------------
  // Table operations with Dexie's semantics

  /** Every row of a table is stored under its own id. */
  predicate Keyed<B>(t: map<string, Record<B>>)
  {
    forall id :: id in t ==> t[id].id == id
  }

  /** `table.update(id, {deleted_at, version_id})`: no effect when the id is absent. */
  function Patch<B>(t: map<string, Record<B>>, id: string, deletedAt: Option<string>, versionId: int): map<string, Record<B>>
  {
    if id in t then t[id := t[id].(deletedAt := deletedAt, versionId := versionId)] else t
  }

  /** `inventory.update(id, {quantity})`: no effect when the id is absent. */
  function SetQuantity(t: map<string, Inventory>, id: string, quantity: int): map<string, Inventory>
  {
    if id in t then t[id := t[id].(body := t[id].body.(quantity := quantity))] else t
  }

  /** The key `.first()` returns for a query: the least key, in IndexedDB order, among matching rows. */
  ghost predicate IsFirstMatch<B>(t: map<string, Record<B>>, p: Record<B> -> bool, k: string)
  {
    k in t && p(t[k]) && forall j :: j in t && p(t[j]) ==> !StrLess(j, k)
  }

  ghost function FirstMatch<B>(t: map<string, Record<B>>, p: Record<B> -> bool): (r: Option<string>)
    ensures r.None? <==> forall j :: j in t ==> !p(t[j])
    ensures r.Some? ==> IsFirstMatch(t, p, r.value)
  {
    if exists j :: j in t && p(t[j]) then
      FirstMatchExists(t, p);
      var k :| IsFirstMatch(t, p, k);
      Some(k)
    else None
  }

  lemma FirstMatchExists<B>(t: map<string, Record<B>>, p: Record<B> -> bool)
    requires exists j :: j in t && p(t[j])
    ensures exists k :: IsFirstMatch(t, p, k)
  {
    var j0 :| j0 in t && p(t[j0]);
    var keys := set j | j in t && p(t[j]);
    assert j0 in keys;
    LeastKeyExists(keys);
    var m :| m in keys && forall x :: x in keys ==> !StrLess(x, m);
    assert IsFirstMatch(t, p, m);
  }

  /** Two least matching keys are the same key. */
  lemma FirstMatchUnique<B>(t: map<string, Record<B>>, p: Record<B> -> bool, k1: string, k2: string)
    requires IsFirstMatch(t, p, k1) && IsFirstMatch(t, p, k2)
    ensures k1 == k2
  {
    if k1 != k2 {
      StrLessTotal(k1, k2);
    }
  }

  /** `.where(...).equals(...).first()`: the matching row with the least key, or none. */
  method First<B>(t: map<string, Record<B>>, p: Record<B> -> bool) returns (r: Option<string>)
    ensures r == FirstMatch(t, p)
  {
    if exists j :: j in t && p(t[j]) {
      FirstMatchExists(t, p);
      var k :| k in t && p(t[k]) && forall j :: j in t && p(t[j]) ==> !StrLess(j, k);
      FirstMatchUnique(t, p, k, FirstMatch(t, p).value);
      r := Some(k);
    } else {
      r := None;
    }
  }

  // ---------------------------------------------------------------------
  // The database

  class LocalDb {
    var products: map<string, Product>
    var inventory: map<string, Inventory>
    var sales: map<string, Sale>
    var saleItems: map<string, SaleItem>
    var posSessions: map<string, PosSession>
    var syncQueue: seq<QueueItem>
    var syncMeta: map<string, MetaValue>

    /** Primary keys: every entity table keyed by `id`, the queue by its item ids. */
    predicate Valid()
      reads this
    {
      && Keyed(products) && Keyed(inventory) && Keyed(sales) && Keyed(saleItems) && Keyed(posSessions)
      && QueueIdsUnique(syncQueue)
    }

    constructor ()
      ensures Valid()
      ensures products == map[] && inventory == map[] && sales == map[] && saleItems == map[]
      ensures posSessions == map[] && syncQueue == [] && syncMeta == map[]
    {
      products, inventory, sales, saleItems, posSessions := map[], map[], map[], map[], map[];
      syncQueue, syncMeta := [], map[];
    }

    /** `sync_queue.add(item)` for an item whose id is not yet in the queue. */
    method Enqueue(item: QueueItem)
      requires Valid() && !InQueue(syncQueue, item.id)
      modifies this`syncQueue
      ensures Valid()
      ensures syncQueue == old(syncQueue) + [item]
      ensures PendingCount(syncQueue) == PendingCount(old(syncQueue)) + (if item.status == Pending then 1 else 0)
    {
      assert (syncQueue + [item])[..|syncQueue|] == syncQueue;
      syncQueue := syncQueue + [item];
    }

    /** `products.add(row)` / `products.put(row)`: the row under its own id. */
    method PutProduct(row: Product)
      requires Valid()
      modifies this`products
      ensures Valid() && products == old(products)[row.id := row]
    {
      products := products[row.id := row];
    }

    /** `inventory.add(row)`. */
    method PutInventory(row: Inventory)
      requires Valid()
      modifies this`inventory
      ensures Valid() && inventory == old(inventory)[row.id := row]
    {
      inventory := inventory[row.id := row];
    }

    /** `inventory.update(id, {quantity})`. */
    method UpdateQuantity(id: string, quantity: int)
      requires Valid()
      modifies this`inventory
      ensures Valid() && inventory == SetQuantity(old(inventory), id, quantity)
    {
      inventory := SetQuantity(inventory, id, quantity);
    }

    /** `sales.add(row)`. */
    method PutSale(row: Sale)
      requires Valid()
      modifies this`sales
      ensures Valid() && sales == old(sales)[row.id := row]
    {
      sales := sales[row.id := row];
    }

    /** Replaces the pos_sessions table by one that is still keyed by id. */
    method PutSessions(posSessions': map<string, PosSession>)
      requires Valid() && Keyed(posSessions')
      modifies this`posSessions
      ensures Valid() && posSessions == posSessions'
    {
      posSessions := posSessions';
    }

    /** Writes the five record tables at once, as a pull's bulkPuts leave them. */
    method PutRecords(products': map<string, Product>, inventory': map<string, Inventory>,
                      sales': map<string, Sale>, saleItems': map<string, SaleItem>,
                      posSessions': map<string, PosSession>)
      requires Valid()
      requires Keyed(products') && Keyed(inventory') && Keyed(sales') && Keyed(saleItems') && Keyed(posSessions')
      modifies this`products, this`inventory, this`sales, this`saleItems, this`posSessions
      ensures Valid()
      ensures && products == products' && inventory == inventory' && sales == sales'
              && saleItems == saleItems' && posSessions == posSessions'
    {
      products, inventory, sales, saleItems, posSessions := products', inventory', sales', saleItems', posSessions';
    }

    /** `sale_items.add(row)`. */
    method PutSaleItem(row: SaleItem)
      requires Valid()
      modifies this`saleItems
      ensures Valid() && saleItems == old(saleItems)[row.id := row]
    {
      saleItems := saleItems[row.id := row];
    }
  }

  // ---------------------------------------------------------------------
  // Store and index layout of schema version 3

  datatype Index = Field(name: string) | Compound(fields: seq<string>)

  /** A store's primary key followed by its secondary indexes. */
  datatype Store = Store(primaryKey: string, indexes: seq<Index>)

  const SchemaV3: map<string, Store> := map[
    "products" := Store("id", [Field("tenant_id"), Compound(["tenant_id", "sku"]), Field("version_id")]),
    "inventory" := Store("id", [Field("tenant_id"), Field("outlet_id"), Field("product_id"),
                                Compound(["tenant_id", "outlet_id", "product_id"]), Field("version_id")]),
    "sales" := Store("id", [Field("tenant_id"), Field("outlet_id"), Field("device_id"), Field("session_id"),
                            Compound(["tenant_id", "device_id", "device_transaction_id"]),
                            Field("version_id"), Field("created_at")]),
    "sale_items" := Store("id", [Field("sale_id"), Field("tenant_id"), Field("outlet_id"), Field("product_id")]),
    "pos_sessions" := Store("id", [Field("tenant_id"), Field("outlet_id"), Field("user_id"),
                                   Compound(["outlet_id", "status"]), Field("version_id"), Field("opened_at")]),
    "sync_queue" := Store("id", [Field("timestamp"), Field("status")]),
    "sync_meta" := Store("key", [])
  ]

  function IndexFields(ix: Index): seq<string>
  {
    match ix
    case Field(n) => [n]
    case Compound(fs) => fs
  }

  /**
   * A `where(fields)` query can run on a store when some index starts with
   * exactly those fields: a declared index or a leading part of a compound one.
   */
  predicate Supports(s: Store, fields: seq<string>)
  {
    fields != [] && exists i :: 0 <= i < |s.indexes| && fields <= IndexFields(s.indexes[i])
  }

  /**
   * Version 3 keys every entity table and the queue by `id` and sync_meta by
   * `key`, and every index query of the sync engine and the write paths has an
   * index to run on.
   */
  lemma SchemaV3Layout()
    ensures SchemaV3.Keys == {"products", "inventory", "sales", "sale_items", "pos_sessions", "sync_queue", "sync_meta"}
    ensures forall name :: name in SchemaV3 && name != "sync_meta" ==> SchemaV3[name].primaryKey == "id"
    ensures SchemaV3["sync_meta"].primaryKey == "key"
    ensures Supports(SchemaV3["inventory"], ["tenant_id", "outlet_id", "product_id"])
    ensures Supports(SchemaV3["inventory"], ["tenant_id", "outlet_id"])
    ensures Supports(SchemaV3["pos_sessions"], ["outlet_id", "status"])
    ensures Supports(SchemaV3["products"], ["tenant_id"])
    ensures Supports(SchemaV3["sales"], ["session_id"])
    ensures Supports(SchemaV3["sync_queue"], ["status"])
    ensures !Supports(SchemaV3["products"], ["outlet_id"])
  {
    assert ["tenant_id", "outlet_id"] <= IndexFields(SchemaV3["inventory"].indexes[3]);
    assert ["tenant_id", "outlet_id", "product_id"] <= IndexFields(SchemaV3["inventory"].indexes[3]);
    assert ["outlet_id", "status"] <= IndexFields(SchemaV3["pos_sessions"].indexes[3]);
    assert ["tenant_id"] <= IndexFields(SchemaV3["products"].indexes[0]);
    assert ["session_id"] <= IndexFields(SchemaV3["sales"].indexes[3]);
    assert ["status"] <= IndexFields(SchemaV3["sync_queue"].indexes[1]);
    var ps := SchemaV3["products"];
    forall i | 0 <= i < |ps.indexes| ensures !(["outlet_id"] <= IndexFields(ps.indexes[i])) {
      assert IndexFields(ps.indexes[i])[0] != "outlet_id";
    }
  }
}
