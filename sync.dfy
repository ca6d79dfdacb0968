/**
 * The sync engine (src/hooks/useSyncManager.ts): the watermark in sync_meta,
 * pull (merge the server's per-table delta into the local tables), push (send
 * the pending queue items and apply the per-item results) and the
 * pull-push-pull cycle, with the engine's status fields.
 */
module SyncEngine {
  import opened Wrappers
  import opened Text
  import opened Db

  const WatermarkKey: string := "local_max_version_id"

  // ---------------------------------------------------------------------
  // Watermark

  /** getMaxVersion's decoding of the stored sync_meta value. */
  function DecodeWatermark(v: Option<MetaValue>): int
  {
    match v
    case Some(MetaNumber(n)) => n
    case Some(MetaString(s)) => ParseIntOrZero(s)
    case None => 0
  }

  /** getMaxVersion: the watermark held in the meta store. */
  function MaxVersion(meta: map<string, MetaValue>): int
  {
    DecodeWatermark(if WatermarkKey in meta then Some(meta[WatermarkKey]) else None)
  }

  /** setMaxVersion: store the watermark as a number, whatever was stored before. */
  function WithMaxVersion(meta: map<string, MetaValue>, version: int): (m: map<string, MetaValue>)
    ensures MaxVersion(m) == version
    ensures m.Keys == meta.Keys + {WatermarkKey}
    ensures forall k :: k in meta && k != WatermarkKey ==> m[k] == meta[k]
  {
    meta[WatermarkKey := MetaNumber(version)]
  }

  /** The meta store after an optional watermark write. */
  function Watermarked(meta: map<string, MetaValue>, version: Option<int>): map<string, MetaValue>
  {
    match version
    case Some(v) => WithMaxVersion(meta, v)
    case None => meta
  }

  /** A number is read back as it is; a missing row reads as 0. */
  lemma DecodeNumberOrMissing(n: int)
    ensures DecodeWatermark(Some(MetaNumber(n))) == n
    ensures DecodeWatermark(None) == 0
  {
  }

  /** A string is parsed as a decimal integer; the decimal form of any n decodes to n. */
  lemma DecodeDecimalString(n: int)
    ensures DecodeWatermark(Some(MetaString(ShowInt(n)))) == n
  {
    ParseShowInt(n);
  }

  /** A string with no leading digits falls back to 0. */
  lemma DecodeUnparsableString(s: string)
    requires ParseInt(s).None?
    ensures DecodeWatermark(Some(MetaString(s))) == 0
  {
  }

  /** setMaxVersion overwrites unconditionally, so a smaller server value lowers the watermark. */
  lemma WatermarkCanDecrease()
    ensures exists meta: map<string, MetaValue>, v: int :: MaxVersion(WithMaxVersion(meta, v)) < MaxVersion(meta)
  {
    var meta := map[WatermarkKey := MetaNumber(10)];
    assert MaxVersion(WithMaxVersion(meta, 3)) < MaxVersion(meta);
  }

  // ---------------------------------------------------------------------
  // Merging pulled rows

  /** `if (row.deleted_at)`: a non-empty deleted_at makes the row a tombstone. */
  predicate IsTombstone<B>(row: Record<B>)
  {
    row.deletedAt.Some? && row.deletedAt.value != ""
  }

  /**
   * One pulled row: a tombstone patches deleted_at and version_id of the local
   * row with that id and nothing else (and does nothing when there is none);
   * any other row replaces the whole local record with that id.
   */
  function MergeRow<B>(t: map<string, Record<B>>, row: Record<B>): (r: map<string, Record<B>>)
    ensures IsTombstone(row) ==> r.Keys == t.Keys
    ensures IsTombstone(row) && row.id in t ==>
              && r[row.id].id == t[row.id].id && r[row.id].body == t[row.id].body
              && r[row.id].deletedAt == row.deletedAt && r[row.id].versionId == row.versionId
    ensures !IsTombstone(row) ==> r.Keys == t.Keys + {row.id} && r[row.id] == row
    ensures forall id :: id in t && id != row.id ==> id in r && r[id] == t[id]
  {
    if IsTombstone(row) then Patch(t, row.id, row.deletedAt, row.versionId) else t[row.id := row]
  }

  /** The rows of one table, merged in the order the server sent them. */
  function MergeRows<B>(t: map<string, Record<B>>, rows: seq<Record<B>>): map<string, Record<B>>
  {
    if rows == [] then t else MergeRow(MergeRows(t, rows[..|rows| - 1]), rows[|rows| - 1])
  }

  lemma {:induction false} MergeRowsKeyed<B>(t: map<string, Record<B>>, rows: seq<Record<B>>)
    requires Keyed(t)
    ensures Keyed(MergeRows(t, rows))
  {
    if rows != [] {
      MergeRowsKeyed(t, rows[..|rows| - 1]);
    }
  }

  /** A local row that no pulled row names is left exactly as it was. */
  lemma {:induction false} MergeRowsUntouched<B>(t: map<string, Record<B>>, rows: seq<Record<B>>, id: string)
    requires forall i :: 0 <= i < |rows| ==> rows[i].id != id
    ensures id in MergeRows(t, rows) <==> id in t
    ensures id in t ==> MergeRows(t, rows)[id] == t[id]
  {
    if rows != [] {
      MergeRowsUntouched(t, rows[..|rows| - 1], id);
    }
  }

  /**
   * Server wins: the last non-tombstone row for an id is what the table holds
   * afterwards, whatever version_id the local row or earlier rows had.
   */
  lemma {:induction false} MergeRowsLastPutWins<B>(t: map<string, Record<B>>, rows: seq<Record<B>>, k: nat)
    requires k < |rows| && !IsTombstone(rows[k])
    requires forall j :: k < j < |rows| ==> rows[j].id != rows[k].id
    ensures rows[k].id in MergeRows(t, rows) && MergeRows(t, rows)[rows[k].id] == rows[k]
  {
    if k < |rows| - 1 {
      MergeRowsLastPutWins(t, rows[..|rows| - 1], k);
    }
  }

  /** `put` ignores version_id: a row with a lower version overwrites a newer local one. */
  lemma PutIgnoresVersion<B>(t: map<string, Record<B>>, row: Record<B>)
    requires row.id in t && t[row.id].versionId > row.versionId && !IsTombstone(row)
    ensures MergeRow(t, row)[row.id].versionId < t[row.id].versionId
  {
  }

  /** Rows with different ids can be merged in either order. */
  lemma MergeRowsCommute<B>(t: map<string, Record<B>>, a: Record<B>, b: Record<B>)
    requires a.id != b.id
    ensures MergeRow(MergeRow(t, a), b) == MergeRow(MergeRow(t, b), a)
  {
    var l, r := MergeRow(MergeRow(t, a), b), MergeRow(MergeRow(t, b), a);
    assert l.Keys == r.Keys;
    forall id | id in l ensures l[id] == r[id] {
    }
  }

  /** Two rows for the same id do not commute: the later one wins, so merge order matters. */
  lemma MergeOrderMatters()
    ensures exists t: map<string, Product>, a: Product, b: Product ::
              MergeRow(MergeRow(t, a), b) != MergeRow(MergeRow(t, b), a)
  {
    var body := ProductBody("t", "sku", "n", None, 1.0, None, None);
    var a := Record("p", 1, None, body);
    var b := Record("p", 2, None, body);
    var t: map<string, Product> := map[];
    assert MergeRow(MergeRow(t, a), b)["p"] != MergeRow(MergeRow(t, b), a)["p"];
  }

  // ---------------------------------------------------------------------
  // Inventory: duplicate repair under the logical key

  /** Delete every local row that shares the pulled row's logical key under another id. */
  function WithoutDuplicates(t: map<string, Inventory>, row: Inventory): (r: map<string, Inventory>)
    ensures forall id :: id in r <==> id in t && (id == row.id || KeyOf(t[id]) != KeyOf(row))
    ensures forall id :: id in r ==> r[id] == t[id]
  {
    map id | id in t && (id == row.id || KeyOf(t[id]) != KeyOf(row)) :: t[id]
  }

  /** One pulled inventory row: repair duplicates, then merge as any other row. */
  function MergeInventoryRow(t: map<string, Inventory>, row: Inventory): (r: map<string, Inventory>)
    ensures forall id :: id in r && id != row.id ==> KeyOf(r[id]) != KeyOf(row)
    ensures forall id :: id in t && id != row.id ==> (id in r <==> KeyOf(t[id]) != KeyOf(row))
    ensures forall id :: id in r && id != row.id ==> id in t && r[id] == t[id]
  {
    MergeRow(WithoutDuplicates(t, row), row)
  }

  function MergeInventoryRows(t: map<string, Inventory>, rows: seq<Inventory>): map<string, Inventory>
  {
    if rows == [] then t else MergeInventoryRow(MergeInventoryRows(t, rows[..|rows| - 1]), rows[|rows| - 1])
  }

  /** No two inventory rows share a logical key. */
  predicate StockKeysUnique(t: map<string, Inventory>)
  {
    forall i, j :: i in t && j in t && i != j ==> KeyOf(t[i]) != KeyOf(t[j])
  }

  lemma MergeInventoryRowKeepsKeysUnique(t: map<string, Inventory>, row: Inventory)
    requires StockKeysUnique(t)
    ensures StockKeysUnique(MergeInventoryRow(t, row))
  {
    var w := WithoutDuplicates(t, row);
    var r := MergeInventoryRow(t, row);
    forall i, j | i in r && j in r && i != j ensures KeyOf(r[i]) != KeyOf(r[j]) {
      if i != row.id && j != row.id {
        assert r[i] == t[i] && r[j] == t[j];
      } else if i == row.id {
        if IsTombstone(row) {
          assert KeyOf(r[i]) == KeyOf(w[i]) && r[j] == t[j];
        }
      } else {
        if IsTombstone(row) {
          assert KeyOf(r[j]) == KeyOf(w[j]) && r[i] == t[i];
        }
      }
    }
  }

  /** Pulling inventory keeps the logical key unique when it was unique before. */
  lemma {:induction false} MergeInventoryRowsKeepsKeysUnique(t: map<string, Inventory>, rows: seq<Inventory>)
    requires StockKeysUnique(t)
    ensures StockKeysUnique(MergeInventoryRows(t, rows))
  {
    if rows != [] {
      MergeInventoryRowsKeepsKeysUnique(t, rows[..|rows| - 1]);
      MergeInventoryRowKeepsKeysUnique(MergeInventoryRows(t, rows[..|rows| - 1]), rows[|rows| - 1]);
    }
  }

  lemma {:induction false} MergeInventoryRowsKeyed(t: map<string, Inventory>, rows: seq<Inventory>)
    requires Keyed(t)
    ensures Keyed(MergeInventoryRows(t, rows))
  {
    if rows != [] {
      MergeInventoryRowsKeyed(t, rows[..|rows| - 1]);
    }
  }

  /** One table's loop of update/put calls. */
  method MergeInto<B>(t: map<string, Record<B>>, rows: seq<Record<B>>) returns (r: map<string, Record<B>>)
    ensures r == MergeRows(t, rows)
  {
    r := t;
    for i := 0 to |rows|
      invariant r == MergeRows(t, rows[..i])
    {
      var row := rows[i];
      if IsTombstone(row) {
        r := Patch(r, row.id, row.deletedAt, row.versionId);
      } else {
        r := r[row.id := row];
      }
      assert rows[..i + 1][..i] == rows[..i];
    }
    assert rows[..|rows|] == rows;
  }

  /** bulkDelete of the local rows that share the pulled row's key under another id. */
  method DeleteDuplicates(t: map<string, Inventory>, row: Inventory) returns (r: map<string, Inventory>)
    ensures r == WithoutDuplicates(t, row)
  {
    var duplicates := set id | id in t && id != row.id && KeyOf(t[id]) == KeyOf(row);
    r := t - duplicates;
  }

  /** The inventory loop: delete the duplicates of each row, then update or put it. */
  method MergeInventoryInto(t: map<string, Inventory>, rows: seq<Inventory>) returns (r: map<string, Inventory>)
    ensures r == MergeInventoryRows(t, rows)
  {
    r := t;
    for i := 0 to |rows|
      invariant r == MergeInventoryRows(t, rows[..i])
    {
      var row := rows[i];
      r := DeleteDuplicates(r, row);
      if IsTombstone(row) {
        r := Patch(r, row.id, row.deletedAt, row.versionId);
      } else {
        r := r[row.id := row];
      }
      assert rows[..i + 1][..i] == rows[..i];
    }
    assert rows[..|rows|] == rows;
  }

  // ---------------------------------------------------------------------
  // Pull request and response

  /** A pos_sessions row as the server sends it: status is free text. */
  datatype ServerSessionBody = ServerSessionBody(
    tenantId: string, outletId: string, userId: string, deviceId: Option<string>,
    openingBalance: real, closingBalance: Option<real>, expectedBalance: Option<real>,
    status: string, openedAt: string, closedAt: Option<string>)

  /** The local record a pulled session row becomes: any status but 'closed' is stored as open. */
  function ToLocalSession(row: Record<ServerSessionBody>): (r: PosSession)
    ensures r.id == row.id && r.versionId == row.versionId && r.deletedAt == row.deletedAt
    ensures r.body.status == Closed <==> row.body.status == "closed"
  {
    var b := row.body;
    Record(row.id, row.versionId, row.deletedAt,
           PosSessionBody(b.tenantId, b.outletId, b.userId, b.deviceId, b.openingBalance, b.closingBalance,
                          b.expectedBalance, if b.status == "closed" then Closed else Open, b.openedAt, b.closedAt))
  }

  function ToLocalSessions(rows: seq<Record<ServerSessionBody>>): (r: seq<PosSession>)
    ensures |r| == |rows| && forall i :: 0 <= i < |rows| ==> r[i] == ToLocalSession(rows[i])
  {
    seq(|rows|, i requires 0 <= i < |rows| => ToLocalSession(rows[i]))
  }

  /** The five tables of a pull delta; a table the server leaves out is empty. */
  datatype PullTables = PullTables(
    products: seq<Product>, inventory: seq<Inventory>, sales: seq<Sale>,
    saleItems: seq<SaleItem>, posSessions: seq<Record<ServerSessionBody>>)

  datatype PullResponse =
    | PullUnreachable(message: string)
    | PullRejected(status: int)
    | PullDelivered(tables: PullTables, serverMaxVersion: Option<int>)

  /** GET /sync/pull?tenant_id=..&max_version_id=.. */
  datatype PullRequest = PullRequest(tenantId: string, sinceVersion: int)

  function PullFailureMessage(r: PullResponse): string
    requires !r.PullDelivered?
  {
    match r
    case PullUnreachable(m) => m
    case PullRejected(status) => "Pull failed: " + ShowInt(status)
  }

  /** The rows a pull response hands to the merge: none when the request failed. */
  function Delta(r: PullResponse): PullTables
  {
    if r.PullDelivered? then r.tables else PullTables([], [], [], [], [])
  }

  /** The watermark a pull response writes: only a delivered number. */
  function DeliveredMax(r: PullResponse): Option<int>
  {
    if r.PullDelivered? then r.serverMaxVersion else None
  }

  /** The five entity tables of the local store, as one value. */
  datatype LocalTables = LocalTables(
    products: map<string, Product>, inventory: map<string, Inventory>, sales: map<string, Sale>,
    saleItems: map<string, SaleItem>, posSessions: map<string, PosSession>)

  /** A pull delta merged into the tables, table by table in the order pull() visits them. */
  function MergeDelta(t: LocalTables, d: PullTables): LocalTables
  {
    LocalTables(
      MergeRows(t.products, d.products), MergeInventoryRows(t.inventory, d.inventory),
      MergeRows(t.sales, d.sales), MergeRows(t.saleItems, d.saleItems),
      MergeRows(t.posSessions, ToLocalSessions(d.posSessions)))
  }

  predicate HasTenantProducts(products: map<string, Product>, tenantId: string)
  {
    exists id :: id in products && products[id].body.tenantId == tenantId
  }

  /** The version a pull asks from: 0 when forced or when the tenant has no local product. */
  function SinceVersion(force: bool, products: map<string, Product>, meta: map<string, MetaValue>, tenantId: string): (v: int)
    ensures force || !HasTenantProducts(products, tenantId) ==> v == 0
    ensures !force && HasTenantProducts(products, tenantId) ==> v == MaxVersion(meta)
  {
    if force || !HasTenantProducts(products, tenantId) then 0 else MaxVersion(meta)
  }

  // ---------------------------------------------------------------------
  // Push request, response and per-item results

  datatype PushItem = PushItem(id: string, actionType: SyncActionType, payload: Payload)

  /** POST /sync body. */
  datatype PushRequest = PushRequest(tenantId: string, outletId: string, deviceId: string, items: seq<PushItem>)

  datatype PushResult = PushResult(queueId: string, status: string, error: Option<string>)

  datatype PushResponse =
    | PushUnreachable(message: string)
    | PushRejected(status: int, body: string)
    | PushAccepted(versionId: Option<int>, results: seq<PushResult>)

  function PushFailureMessage(r: PushResponse): string
    requires !r.PushAccepted?
  {
    match r
    case PushUnreachable(m) => m
    case PushRejected(status, body) => if body != "" then body else "Push failed: " + ShowInt(status)
  }

  function BatchOf(pending: seq<QueueItem>): (b: seq<PushItem>)
    ensures |b| == |pending|
    ensures forall i :: 0 <= i < |b| ==> b[i] == PushItem(pending[i].id, pending[i].actionType, pending[i].payload)
  {
    seq(|pending|, i requires 0 <= i < |pending| => PushItem(pending[i].id, pending[i].actionType, pending[i].payload))
  }

  /** What a result asks for: accepted/synced and failed are acted on, any other status is ignored. */
  datatype Verdict = MarkSynced | MarkFailed(error: Option<string>)

  function VerdictOf(r: PushResult): Option<Verdict>
  {
    if r.status == "accepted" || r.status == "synced" then Some(MarkSynced)
    else if r.status == "failed" then Some(MarkFailed(r.error))
    else None
  }

  /** `sync_queue.update(queue_id, {status: 'synced'})` or `{status: 'failed', error_message}`. */
  function Resolve(item: QueueItem, v: Verdict): QueueItem
  {
    match v
    case MarkSynced => item.(status := Synced)
    case MarkFailed(e) => item.(status := Failed, errorMessage := e)
  }

  function ApplyResult(q: seq<QueueItem>, r: PushResult): (q': seq<QueueItem>)
    ensures |q'| == |q|
  {
    match VerdictOf(r)
    case None => q
    case Some(v) => seq(|q|, i requires 0 <= i < |q| => if q[i].id == r.queueId then Resolve(q[i], v) else q[i])
  }

  /** The results loop, in the order the server listed them. */
  function ApplyResults(q: seq<QueueItem>, rs: seq<PushResult>): seq<QueueItem>
  {
    if rs == [] then q else ApplyResult(ApplyResults(q, rs[..|rs| - 1]), rs[|rs| - 1])
  }

  /** The last result acted on for an id. */
  function LastVerdict(rs: seq<PushResult>, id: string): Option<Verdict>
  {
    if rs == [] then None
    else if rs[|rs| - 1].queueId == id && VerdictOf(rs[|rs| - 1]).Some? then VerdictOf(rs[|rs| - 1])
    else LastVerdict(rs[..|rs| - 1], id)
  }

  /** The error of the last 'failed' result for an id. */
  function LastFailure(rs: seq<PushResult>, id: string): Option<Option<string>>
  {
    if rs == [] then None
    else if rs[|rs| - 1].queueId == id && VerdictOf(rs[|rs| - 1]).Some? && VerdictOf(rs[|rs| - 1]).value.MarkFailed? then
      Some(VerdictOf(rs[|rs| - 1]).value.error)
    else LastFailure(rs[..|rs| - 1], id)
  }

  /**
   * What a queue item looks like after the results: its status is set by the
   * last result acted on for its id (unchanged when there is none), its
   * error_message by the last 'failed' result, and nothing else changes.
   */
  function Settled(item: QueueItem, rs: seq<PushResult>): QueueItem
  {
    item.(status := match LastVerdict(rs, item.id)
                    case None => item.status
                    case Some(MarkSynced) => Synced
                    case Some(MarkFailed(_)) => Failed,
          errorMessage := match LastFailure(rs, item.id)
                          case None => item.errorMessage
                          case Some(e) => e)
  }

  lemma {:induction false} ApplyResultsPerItem(q: seq<QueueItem>, rs: seq<PushResult>)
    ensures |ApplyResults(q, rs)| == |q|
    ensures forall k :: 0 <= k < |q| ==> ApplyResults(q, rs)[k] == Settled(q[k], rs)
  {
    if rs != [] {
      var rs', r := rs[..|rs| - 1], rs[|rs| - 1];
      ApplyResultsPerItem(q, rs');
    }
  }

  /** Applying the same results a second time changes nothing: re-marking is a no-op. */
  lemma ApplyResultsIdempotent(q: seq<QueueItem>, rs: seq<PushResult>)
    ensures ApplyResults(ApplyResults(q, rs), rs) == ApplyResults(q, rs)
  {
    var once := ApplyResults(q, rs);
    ApplyResultsPerItem(q, rs);
    ApplyResultsPerItem(once, rs);
    forall k | 0 <= k < |q| ensures ApplyResults(once, rs)[k] == once[k] {
      assert once[k].id == q[k].id;
    }
  }

  lemma ApplyResultsKeepsIds(q: seq<QueueItem>, rs: seq<PushResult>)
    requires QueueIdsUnique(q)
    ensures QueueIdsUnique(ApplyResults(q, rs))
  {
    ApplyResultsPerItem(q, rs);
  }

  /** The batch never carries an item that is already synced or failed. */
  lemma BatchOnlyPending(q: seq<QueueItem>, i: nat)
    requires QueueIdsUnique(q) && i < |q| && q[i].status != Pending
    ensures forall j :: 0 <= j < |BatchOf(PendingItems(q))| ==> BatchOf(PendingItems(q))[j].id != q[i].id
  {
    var p := PendingItems(q);
    forall j | 0 <= j < |p| ensures p[j].id != q[i].id {
      assert p[j] in p;
      var k :| 0 <= k < |q| && q[k] == p[j];
      assert q[k].status == Pending;
    }
  }

  /** A queue with no pending item has an empty pending list. */
  lemma {:induction false} NoPendingItems(q: seq<QueueItem>)
    requires forall k :: 0 <= k < |q| ==> q[k].status != Pending
    ensures PendingItems(q) == []
  {
    if q != [] {
      NoPendingItems(q[..|q| - 1]);
    }
  }

  /** When every pending item is answered 'accepted' or 'synced', nothing is left pending. */
  lemma AllAcceptedClearsPending(q: seq<QueueItem>, rs: seq<PushResult>)
    requires forall i :: 0 <= i < |q| && q[i].status == Pending ==> LastVerdict(rs, q[i].id) == Some(MarkSynced)
    ensures PendingCount(ApplyResults(q, rs)) == 0
  {
    ApplyResultsPerItem(q, rs);
    NoPendingItems(ApplyResults(q, rs));
  }

  // ---------------------------------------------------------------------
  // The engine

  datatype SyncState = Idle | Pulling | Pushing | Error

  /** isOnline: the browser's online flag, unless offline is simulated. */
  predicate IsOnline(navigatorOnline: bool, simulateOffline: bool)
  {
    navigatorOnline && !simulateOffline
  }

  class SyncManager {
    const tenantId: string
    const outletId: string
    const deviceId: string
    const enabled: bool
    const db: LocalDb
    var navigatorOnline: bool
    var simulateOffline: bool
    var syncState: SyncState
    var lastError: Option<string>
    var pendingCount: nat

    predicate Valid()
      reads this, db
    {
      db.Valid()
    }

    /** The entity tables of the store the engine syncs. */
    function Tables(): LocalTables
      reads db`products, db`inventory, db`sales, db`saleItems, db`posSessions
    {
      LocalTables(db.products, db.inventory, db.sales, db.saleItems, db.posSessions)
    }

    constructor (tenantId: string, outletId: string, deviceId: string, enabled: bool, db: LocalDb,
                 navigatorOnline: bool, simulateOffline: bool)
      requires db.Valid()
      ensures Valid()
      ensures this.tenantId == tenantId && this.outletId == outletId && this.deviceId == deviceId
      ensures this.enabled == enabled && this.db == db
      ensures this.navigatorOnline == navigatorOnline && this.simulateOffline == simulateOffline
      ensures syncState == Idle && lastError == None && pendingCount == 0
    {
      this.tenantId, this.outletId, this.deviceId, this.enabled, this.db := tenantId, outletId, deviceId, enabled, db;
      this.navigatorOnline, this.simulateOffline := navigatorOnline, simulateOffline;
      syncState, lastError, pendingCount := Idle, None, 0;
    }

    predicate Online()
      reads this
    {
      IsOnline(navigatorOnline, simulateOffline)
    }

    /** The development "simulate offline" switch. */
    method SetSimulateOffline(value: bool)
      modifies this`simulateOffline
      ensures simulateOffline == value
      ensures Online() <==> navigatorOnline && !value
    {
      simulateOffline := value;
    }

    /**
     * pull(forceFullSync): with no tenant it does nothing. Otherwise it asks
     * from version 0 or the watermark; a failed request changes no table and
     * ends in `error`; a delivered delta is merged table by table and the
     * watermark, when the server sent a number, is written last.
     */
    method Pull(forceFullSync: bool, response: PullResponse) returns (request: Option<PullRequest>)
      requires Valid()
      modifies this`syncState, this`lastError
      modifies db`products, db`inventory, db`sales, db`saleItems, db`posSessions, db`syncMeta
      ensures Valid()
      ensures tenantId == "" ==> request == None && syncState == old(syncState) && lastError == old(lastError)
      ensures tenantId == "" ==> Tables() == old(Tables()) && db.syncMeta == old(db.syncMeta)
      ensures tenantId != "" ==>
                request == Some(PullRequest(tenantId, SinceVersion(forceFullSync, old(db.products), old(db.syncMeta), tenantId)))
      ensures tenantId != "" && !response.PullDelivered? ==>
                syncState == Error && lastError == Some(PullFailureMessage(response))
      ensures tenantId != "" && response.PullDelivered? ==> syncState == Idle && lastError == None
      ensures tenantId != "" ==>
                && Tables() == MergeDelta(old(Tables()), Delta(response))
                && db.syncMeta == Watermarked(old(db.syncMeta), DeliveredMax(response))
    {
      if tenantId == "" {
        return None;
      }
      syncState := Pulling;
      lastError := None;
      var maxVer := MaxVersion(db.syncMeta);
      if forceFullSync {
        maxVer := 0;
      } else if !HasTenantProducts(db.products, tenantId) {
        maxVer := 0;
      }
      request := Some(PullRequest(tenantId, maxVer));
      match response {
        case PullUnreachable(_) =>
          lastError := Some(PullFailureMessage(response));
          syncState := Error;
        case PullRejected(_) =>
          lastError := Some(PullFailureMessage(response));
          syncState := Error;
        case PullDelivered(tables, serverMax) =>
          ApplyDelta(tables, serverMax);
          syncState := Idle;
      }
    }

    /** A delivered pull: the five tables merged in turn, then the watermark when the server sent one. */
    method ApplyDelta(tables: PullTables, serverMax: Option<int>)
      requires Valid()
      modifies db`products, db`inventory, db`sales, db`saleItems, db`posSessions, db`syncMeta
      ensures Valid()
      ensures Tables() == MergeDelta(old(Tables()), tables)
      ensures db.syncMeta == Watermarked(old(db.syncMeta), serverMax)
    {
      MergeRowsKeyed(db.products, tables.products);
      MergeInventoryRowsKeyed(db.inventory, tables.inventory);
      MergeRowsKeyed(db.sales, tables.sales);
      MergeRowsKeyed(db.saleItems, tables.saleItems);
      MergeRowsKeyed(db.posSessions, ToLocalSessions(tables.posSessions));
      var products := MergeInto(db.products, tables.products);
      var inventory := MergeInventoryInto(db.inventory, tables.inventory);
      var sales := MergeInto(db.sales, tables.sales);
      var saleItems := MergeInto(db.saleItems, tables.saleItems);
      var posSessions := MergeInto(db.posSessions, ToLocalSessions(tables.posSessions));
      db.PutRecords(products, inventory, sales, saleItems, posSessions);
      if serverMax.Some? {
        db.syncMeta := WithMaxVersion(db.syncMeta, serverMax.value);
      }
    }

    /**
     * push(): needs tenant, outlet and device. With nothing pending it makes
     * no request and sets pendingCount to 0. Otherwise it sends every pending
     * item; a failed request marks nothing and ends in `error`; an accepted one
     * writes the watermark first, then applies the per-item results.
     */
    method Push(response: PushResponse) returns (request: Option<PushRequest>)
      requires Valid()
      modifies this`syncState, this`lastError, this`pendingCount, db`syncQueue, db`syncMeta
      ensures Valid()
      ensures tenantId == "" || outletId == "" || deviceId == "" ==>
                && request == None && db.syncQueue == old(db.syncQueue) && db.syncMeta == old(db.syncMeta)
                && syncState == old(syncState) && lastError == old(lastError) && pendingCount == old(pendingCount)
      ensures tenantId != "" && outletId != "" && deviceId != "" && PendingItems(old(db.syncQueue)) == [] ==>
                && request == None && pendingCount == 0
                && db.syncQueue == old(db.syncQueue) && db.syncMeta == old(db.syncMeta)
                && syncState == old(syncState) && lastError == old(lastError)
      ensures tenantId != "" && outletId != "" && deviceId != "" && PendingItems(old(db.syncQueue)) != [] ==>
                request == Some(PushRequest(tenantId, outletId, deviceId, BatchOf(PendingItems(old(db.syncQueue)))))
      ensures request.Some? && !response.PushAccepted? ==>
                && db.syncQueue == old(db.syncQueue) && db.syncMeta == old(db.syncMeta)
                && syncState == Error && lastError == Some(PushFailureMessage(response))
                && pendingCount == old(pendingCount)
      ensures request.Some? && response.PushAccepted? ==>
                && db.syncQueue == ApplyResults(old(db.syncQueue), response.results)
                && db.syncMeta == (match response.versionId
                                   case Some(v) => WithMaxVersion(old(db.syncMeta), v)
                                   case None => old(db.syncMeta))
                && syncState == Idle && lastError == None
                && pendingCount == PendingCount(db.syncQueue)
      ensures db.syncMeta == Watermarked(old(db.syncMeta), if request.Some? && response.PushAccepted? then response.versionId else None)
    {
      if tenantId == "" || outletId == "" || deviceId == "" {
        return None;
      }
      var pending := PendingItems(db.syncQueue);
      if |pending| == 0 {
        pendingCount := 0;
        return None;
      }
      syncState := Pushing;
      lastError := None;
      request := Some(PushRequest(tenantId, outletId, deviceId, BatchOf(pending)));
      match response {
        case PushUnreachable(_) =>
          lastError := Some(PushFailureMessage(response));
          syncState := Error;
        case PushRejected(_, _) =>
          lastError := Some(PushFailureMessage(response));
          syncState := Error;
        case PushAccepted(version, results) =>
          if version.Some? {
            db.syncMeta := WithMaxVersion(db.syncMeta, version.value);
          }
          ApplyPushResults(results);
          syncState := Idle;
          pendingCount := PendingCount(db.syncQueue);
      }
    }

    /** The per-item results of an accepted push, applied to the queue one after another. */
    method ApplyPushResults(results: seq<PushResult>)
      requires Valid()
      modifies db`syncQueue
      ensures Valid() && db.syncQueue == ApplyResults(old(db.syncQueue), results)
    {
      ghost var q0 := db.syncQueue;
      for i := 0 to |results|
        invariant db.syncQueue == ApplyResults(q0, results[..i])
      {
        db.syncQueue := ApplyResult(db.syncQueue, results[i]);
        assert results[..i + 1][..i] == results[..i];
      }
      assert results[..|results|] == results;
      ApplyResultsKeepsIds(q0, results);
    }

    /**
     * sync(): when enabled, pull, push, pull; both pulls ask for a full
     * resync (version 0). The tables end as the two deltas merged in turn,
     * the queue as the push results leave it, and the watermark as the three
     * writes leave it; the engine ends in the state the second pull leaves.
     */
    method Sync(first: PullResponse, pushResponse: PushResponse, second: PullResponse)
      returns (firstPull: Option<PullRequest>, pushed: Option<PushRequest>, secondPull: Option<PullRequest>)
      requires Valid()
      modifies this`syncState, this`lastError, this`pendingCount
      modifies db`products, db`inventory, db`sales, db`saleItems, db`posSessions, db`syncMeta, db`syncQueue
      ensures Valid()
      ensures !enabled || tenantId == "" ==>
                && firstPull == None && pushed == None && secondPull == None
                && syncState == old(syncState) && lastError == old(lastError) && pendingCount == old(pendingCount)
                && db.syncQueue == old(db.syncQueue) && db.syncMeta == old(db.syncMeta)
                && Tables() == old(Tables())
      ensures enabled && tenantId != "" ==>
                firstPull == Some(PullRequest(tenantId, 0)) && secondPull == Some(PullRequest(tenantId, 0))
      ensures enabled && tenantId != "" && outletId != "" && deviceId != "" ==>
                (pushed.Some? <==> PendingItems(old(db.syncQueue)) != [])
      ensures pushed.Some? ==> pushed.value.items == BatchOf(PendingItems(old(db.syncQueue)))
      ensures enabled && tenantId != "" ==>
                Tables() == MergeDelta(MergeDelta(old(Tables()), Delta(first)), Delta(second))
      ensures db.syncQueue == if pushed.Some? && pushResponse.PushAccepted?
                              then ApplyResults(old(db.syncQueue), pushResponse.results)
                              else old(db.syncQueue)
      ensures enabled && tenantId != "" ==>
                db.syncMeta == Watermarked(Watermarked(Watermarked(old(db.syncMeta), DeliveredMax(first)),
                                                       if pushed.Some? && pushResponse.PushAccepted?
                                                       then pushResponse.versionId else None),
                                           DeliveredMax(second))
      ensures pendingCount == if pushed.Some? && pushResponse.PushAccepted? then PendingCount(db.syncQueue)
                              else if enabled && tenantId != "" && outletId != "" && deviceId != ""
                                      && PendingItems(old(db.syncQueue)) == [] then 0
                              else old(pendingCount)
      ensures enabled && tenantId != "" ==>
                if second.PullDelivered? then syncState == Idle && lastError == None
                else syncState == Error && lastError == Some(PullFailureMessage(second))
    {
      if !enabled {
        return None, None, None;
      }
      firstPull := Pull(true, first);
      pushed := Push(pushResponse);
      secondPull := Pull(true, second);
    }
  }
}
