/**
 * The cash-drawer session context (src/contexts/SessionContext.tsx): which
 * session is current, and opening and closing a session either through the
 * server or, when that is not possible, locally with a queued intent.
 */
module Session {
  import opened Wrappers
  import opened Text
  import opened Db

  /** What the rest of the app knows about the open session. */
  datatype CurrentSession = CurrentSession(id: string, openingBalance: real, outletId: string)

  /**
   * How a server call ended: no auth token (no request made), a request that
   * threw or came back non-ok, or an ok response carrying its data.
   */
  datatype Reply<T> = NoToken | RequestFailed | Ok(data: T)

  /** A session as GET /sessions lists it. */
  datatype ListedSession = ListedSession(id: string, status: string, openingBalance: real, outletId: string)

  /** The fields of POST /sessions/open's body the context reads. */
  datatype OpenedData = OpenedData(sessionId: string, openingBalance: Option<real>, versionId: Option<int>)

  /** The fields of POST /sessions/{id}/close's body the context reads. */
  datatype ClosedData = ClosedData(expectedBalance: Option<real>, versionId: Option<int>, variance: Option<real>)

  // ---------------------------------------------------------------------
  // Finding the current session

  /** The index `findIndex(s => s.status === 'open')` would give: |list| when there is none. */
  function FirstOpenIndex(list: seq<ListedSession>): (i: nat)
    ensures i <= |list|
    ensures i < |list| ==> list[i].status == "open"
    ensures forall j :: 0 <= j < i ==> list[j].status != "open"
  {
    if list == [] || list[0].status == "open" then 0 else 1 + FirstOpenIndex(list[1..])
  }

  /** `sessions.find(s => s.status === 'open')`. */
  function FirstListedOpen(list: seq<ListedSession>): (r: Option<ListedSession>)
    ensures r.None? <==> forall i :: 0 <= i < |list| ==> list[i].status != "open"
    ensures r.Some? ==> r.value == list[FirstOpenIndex(list)] && r.value.status == "open"
  {
    var i := FirstOpenIndex(list);
    if i < |list| then Some(list[i]) else None
  }

  /** The `[outlet_id+status] = [outlet, 'open']` query. */
  function OpenAt(outletId: string): PosSession -> bool
  {
    (s: PosSession) => s.body.outletId == outletId && s.body.status == Open
  }

  /** The local fallback: the open session of the outlet with the least key, if any. */
  ghost function LocalOpenSession(sessions: map<string, PosSession>, outletId: string): (r: Option<CurrentSession>)
    ensures r.None? <==> forall k :: k in sessions ==> !(sessions[k].body.outletId == outletId && sessions[k].body.status == Open)
    ensures r.Some? ==> && r.value.id in sessions
                        && sessions[r.value.id].body.status == Open && sessions[r.value.id].body.outletId == outletId
                        && r.value.outletId == outletId
                        && r.value.openingBalance == sessions[r.value.id].body.openingBalance
  {
    match FirstMatch(sessions, OpenAt(outletId))
    case None => None
    case Some(k) => Some(CurrentSession(k, sessions[k].body.openingBalance, sessions[k].body.outletId))
  }

  /** Two open sessions of one outlet (possible offline): the fallback picks the one with the lesser key. */
  lemma FallbackPicksLeastKey(sessions: map<string, PosSession>, outletId: string, a: string, b: string)
    requires a in sessions && b in sessions && StrLess(a, b)
    requires OpenAt(outletId)(sessions[a]) && OpenAt(outletId)(sessions[b])
    ensures LocalOpenSession(sessions, outletId).Some? && LocalOpenSession(sessions, outletId).value.id != b
  {
    var r := FirstMatch(sessions, OpenAt(outletId));
    assert r.Some?;
  }

  // ---------------------------------------------------------------------
  // Expected balance

  /** What one sale adds to a session's takings. */
  function Amount(s: Sale, sessionId: string): real
  {
    if s.body.sessionId == Some(sessionId) then s.body.totalAmount else 0.0
  }

  /** The total_amount of every sale recorded against a session. */
  ghost function SessionTotal(sales: map<string, Sale>, sessionId: string): real
    decreases |sales|
  {
    if sales == map[] then 0.0
    else
      var k :| k in sales;
      Amount(sales[k], sessionId) + SessionTotal(sales - {k}, sessionId)
  }

  /** The total does not depend on the order the sales are summed in. */
  lemma {:induction false} SessionTotalRemove(sales: map<string, Sale>, sessionId: string, k: string)
    requires k in sales
    ensures SessionTotal(sales, sessionId) == Amount(sales[k], sessionId) + SessionTotal(sales - {k}, sessionId)
    decreases |sales|
  {
    var j :| j in sales && SessionTotal(sales, sessionId) == Amount(sales[j], sessionId) + SessionTotal(sales - {j}, sessionId);
    if j != k {
      SessionTotalRemove(sales - {j}, sessionId, k);
      SessionTotalRemove(sales - {k}, sessionId, j);
      assert sales - {j} - {k} == sales - {k} - {j};
    }
  }

  /** Recording a new sale adds its amount to its own session's total and nothing to any other. */
  lemma SessionTotalAdd(sales: map<string, Sale>, sessionId: string, s: Sale)
    requires s.id !in sales
    ensures SessionTotal(sales[s.id := s], sessionId) == SessionTotal(sales, sessionId) + Amount(s, sessionId)
  {
    SessionTotalRemove(sales[s.id := s], sessionId, s.id);
    assert sales[s.id := s] - {s.id} == sales;
  }

  /** `list` is what `sales.where('session_id').equals(id).toArray()` returns: each sale of the session once. */
  predicate Enumerates(list: seq<Sale>, sales: map<string, Sale>, sessionId: string)
  {
    && (forall i, j :: 0 <= i < j < |list| ==> list[i].id != list[j].id)
    && (forall i :: 0 <= i < |list| ==> list[i].id in sales && sales[list[i].id] == list[i] && list[i].body.sessionId == Some(sessionId))
    && (forall k :: k in sales && sales[k].body.sessionId == Some(sessionId) ==> exists i :: 0 <= i < |list| && list[i].id == k)
  }

  /** `reduce((a, s) => a + s.total_amount, 0)`. */
  function SalesSum(list: seq<Sale>): real
  {
    if list == [] then 0.0 else SalesSum(list[..|list| - 1]) + list[|list| - 1].body.totalAmount
  }

  /** A session with no sale in the table has a total of 0. */
  lemma {:induction false} SessionTotalNone(sales: map<string, Sale>, sessionId: string)
    requires forall k :: k in sales ==> sales[k].body.sessionId != Some(sessionId)
    ensures SessionTotal(sales, sessionId) == 0.0
    decreases |sales|
  {
    if sales != map[] {
      var k :| k in sales;
      SessionTotalRemove(sales, sessionId, k);
      SessionTotalNone(sales - {k}, sessionId);
    }
  }

  /** Without its last sale, the list enumerates the session's sales of the table without that sale. */
  lemma EnumeratesDropLast(list: seq<Sale>, sales: map<string, Sale>, sessionId: string)
    requires Enumerates(list, sales, sessionId) && list != []
    ensures Enumerates(list[..|list| - 1], sales - {list[|list| - 1].id}, sessionId)
    ensures SessionTotal(sales, sessionId) ==
            list[|list| - 1].body.totalAmount + SessionTotal(sales - {list[|list| - 1].id}, sessionId)
  {
    var n := |list| - 1;
    assert list[n].id in sales && sales[list[n].id] == list[n] && list[n].body.sessionId == Some(sessionId);
    SessionTotalRemove(sales, sessionId, list[n].id);
    var prefix, rest := list[..n], sales - {list[n].id};
    forall i | 0 <= i < n
      ensures prefix[i].id in rest && rest[prefix[i].id] == prefix[i] && prefix[i].body.sessionId == Some(sessionId)
    {
      assert prefix[i] == list[i] && list[i].id != list[n].id;
    }
    forall k | k in rest && rest[k].body.sessionId == Some(sessionId)
      ensures exists i :: 0 <= i < n && prefix[i].id == k
    {
      var i :| 0 <= i < |list| && list[i].id == k;
      assert i != n && prefix[i] == list[i];
    }
  }

  lemma EnumeratesNothing(sales: map<string, Sale>, sessionId: string)
    requires Enumerates([], sales, sessionId)
    ensures SessionTotal(sales, sessionId) == 0.0
  {
    SessionTotalNone(sales, sessionId);
  }

  /** Summing the query's result, in whatever order it comes, gives the session's total. */
  lemma {:induction false} EnumeratedSum(list: seq<Sale>, sales: map<string, Sale>, sessionId: string)
    requires Enumerates(list, sales, sessionId)
    ensures SalesSum(list) == SessionTotal(sales, sessionId)
    decreases |list|
  {
    if list == [] {
      EnumeratesNothing(sales, sessionId);
    } else {
      var n := |list| - 1;
      EnumeratesDropLast(list, sales, sessionId);
      EnumeratedSum(list[..n], sales - {list[n].id}, sessionId);
    }
  }

  // ---------------------------------------------------------------------
  // Session rows

  /** The pos_sessions row an open writes. */
  function OpenedRow(id: string, versionId: int, tenantId: string, outletId: string, userId: string,
                     deviceId: string, openingBalance: real, openedAt: string): (r: PosSession)
    ensures r.id == id && r.versionId == versionId && r.deletedAt.None?
    ensures r.body.status == Open && r.body.outletId == outletId && r.body.openingBalance == openingBalance
    ensures r.body.closingBalance.None? && r.body.expectedBalance.None? && r.body.closedAt.None?
    ensures r.body.deviceId.None? <==> deviceId == ""
  {
    Record(id, versionId, None,
           PosSessionBody(tenantId, outletId, userId, if deviceId != "" then Some(deviceId) else None,
                          openingBalance, None, None, Open, openedAt, None))
  }

  /** `pos_sessions.update(id, {closing_balance, expected_balance, status: 'closed', closed_at[, version_id]})`. */
  function CloseRow(t: map<string, PosSession>, id: string, closingBalance: real, expected: Option<real>,
                    closedAt: string, versionId: Option<int>): (r: map<string, PosSession>)
    ensures r.Keys == t.Keys
    ensures forall k :: k in t && k != id ==> r[k] == t[k]
    ensures Keyed(t) ==> Keyed(r)
    ensures id in t ==> && r[id].body.status == Closed && r[id].body.closingBalance == Some(closingBalance)
                        && r[id].body.expectedBalance == expected && r[id].body.closedAt == Some(closedAt)
                        && r[id].id == t[id].id && r[id].deletedAt == t[id].deletedAt
                        && r[id].body.openingBalance == t[id].body.openingBalance
                        && r[id].body.outletId == t[id].body.outletId
                        && r[id].versionId == versionId.GetOr(t[id].versionId)
  {
    if id in t then
      var old_ := t[id];
      t[id := old_.(versionId := versionId.GetOr(old_.versionId),
                    body := old_.body.(closingBalance := Some(closingBalance), expectedBalance := expected,
                                       status := Closed, closedAt := Some(closedAt)))]
    else t
  }

  /** Closing a session takes it out of the fallback's choice: no closed row is ever picked. */
  lemma ClosedSessionNotCurrent(t: map<string, PosSession>, id: string, closingBalance: real, expected: Option<real>,
                                closedAt: string, versionId: Option<int>, outletId: string)
    requires id in t
    ensures var r := LocalOpenSession(CloseRow(t, id, closingBalance, expected, closedAt, versionId), outletId);
            r.None? || r.value.id != id
  {
  }

  // ---------------------------------------------------------------------
  // The provider

  class SessionProvider {
    const tenantId: string
    const outletId: string
    const userId: string
    const deviceId: string
    const db: LocalDb
    var currentSession: Option<CurrentSession>
    var loading: bool

    predicate Valid()
      reads this, db
    {
      db.Valid()
    }

    constructor (tenantId: string, outletId: string, userId: string, deviceId: string, db: LocalDb)
      requires db.Valid()
      ensures Valid()
      ensures this.tenantId == tenantId && this.outletId == outletId && this.userId == userId
      ensures this.deviceId == deviceId && this.db == db
      ensures currentSession == None && loading
    {
      this.tenantId, this.outletId, this.userId, this.deviceId, this.db := tenantId, outletId, userId, deviceId, db;
      currentSession, loading := None, true;
    }

    /**
     * refreshSession: with no tenant or outlet there is no session. Otherwise
     * the first 'open' session the server lists, if the server answered with
     * one; in every other case the outlet's open session in the local table.
     */
    method RefreshSession(reply: Reply<seq<ListedSession>>)
      requires Valid()
      modifies this`currentSession, this`loading
      ensures !loading
      ensures tenantId == "" || outletId == "" ==> currentSession == None
      ensures tenantId != "" && outletId != "" && reply.Ok? && FirstListedOpen(reply.data).Some? ==>
                var s := FirstListedOpen(reply.data).value;
                currentSession == Some(CurrentSession(s.id, s.openingBalance, s.outletId))
      ensures tenantId != "" && outletId != "" && !(reply.Ok? && FirstListedOpen(reply.data).Some?) ==>
                currentSession == LocalOpenSession(db.posSessions, outletId)
    {
      if tenantId == "" || outletId == "" {
        currentSession := None;
        loading := false;
        return;
      }
      loading := true;
      if reply.Ok? {
        var open := FirstListedOpen(reply.data);
        if open.Some? {
          currentSession := Some(CurrentSession(open.value.id, open.value.openingBalance, open.value.outletId));
          loading := false;
          return;
        }
      }
      var local := First(db.posSessions, OpenAt(outletId));
      if local.Some? {
        var row := db.posSessions[local.value];
        currentSession := Some(CurrentSession(row.id, row.body.openingBalance, row.body.outletId));
      } else {
        currentSession := None;
      }
      loading := false;
    }

    /**
     * openSession: with an ok server reply, record the server's session;
     * otherwise queue an OPEN_SESSION intent, write the session locally as
     * open with version 0 and make it current. `sessionId`, `queueId`,
     * `openedAt` and `timestamp` are the generated id, queue id and clock values.
     */
    method OpenSession(outletIdArg: string, openingBalance: real, deviceIdArg: string, reply: Reply<OpenedData>,
                       sessionId: string, queueId: string, openedAt: string, timestamp: int)
      requires Valid() && !InQueue(db.syncQueue, queueId)
      modifies this`currentSession, db`posSessions, db`syncQueue
      ensures Valid()
      ensures var devId := if deviceIdArg != "" then deviceIdArg else deviceId;
              if reply.Ok? then
                var d := reply.data;
                var balance := d.openingBalance.GetOr(openingBalance);
                && currentSession == Some(CurrentSession(d.sessionId, balance, outletIdArg))
                && db.posSessions == old(db.posSessions)[d.sessionId :=
                     OpenedRow(d.sessionId, d.versionId.GetOr(0), tenantId, outletIdArg, userId, devId, balance, openedAt)]
                && db.syncQueue == old(db.syncQueue)
              else
                && db.syncQueue == old(db.syncQueue) + [QueueItem(queueId, SyncActionType.OpenSession,
                     OpenSessionPayload(sessionId, outletIdArg, if devId != "" then Some(devId) else None,
                                        openingBalance, openedAt, userId), timestamp, Pending, None)]
                && db.posSessions == old(db.posSessions)[sessionId :=
                     OpenedRow(sessionId, 0, tenantId, outletIdArg, userId, devId, openingBalance, openedAt)]
                && currentSession == Some(CurrentSession(sessionId, openingBalance, outletIdArg))
      ensures !reply.Ok? ==> PendingCount(db.syncQueue) == PendingCount(old(db.syncQueue)) + 1
    {
      var devId := if deviceIdArg != "" then deviceIdArg else deviceId;
      if reply.Ok? {
        var d := reply.data;
        var balance := d.openingBalance.GetOr(openingBalance);
        currentSession := Some(CurrentSession(d.sessionId, balance, outletIdArg));
        db.posSessions := db.posSessions[d.sessionId :=
          OpenedRow(d.sessionId, d.versionId.GetOr(0), tenantId, outletIdArg, userId, devId, balance, openedAt)];
        return;
      }
      db.Enqueue(QueueItem(queueId, SyncActionType.OpenSession,
        OpenSessionPayload(sessionId, outletIdArg, if devId != "" then Some(devId) else None,
                           openingBalance, openedAt, userId), timestamp, Pending, None));
      db.posSessions := db.posSessions[sessionId :=
        OpenedRow(sessionId, 0, tenantId, outletIdArg, userId, devId, openingBalance, openedAt)];
      currentSession := Some(CurrentSession(sessionId, openingBalance, outletIdArg));
    }

    /**
     * closeSession: with an ok server reply, store the server's figures and
     * return its variance (0 when absent); otherwise queue a CLOSE_SESSION
     * intent, compute expected = opening balance (0 for an unknown session) +
     * the session's sales, close the row locally and return closing - expected.
     * Either way there is no current session afterwards.
     */
    method CloseSession(sessionId: string, closingBalance: real, reply: Reply<ClosedData>,
                        queueId: string, closedAt: string, timestamp: int) returns (variance: real)
      requires Valid() && !InQueue(db.syncQueue, queueId)
      modifies this`currentSession, db`posSessions, db`syncQueue
      ensures Valid() && currentSession == None
      ensures reply.Ok? ==>
                && db.syncQueue == old(db.syncQueue)
                && db.posSessions == CloseRow(old(db.posSessions), sessionId, closingBalance, reply.data.expectedBalance,
                                              closedAt, Some(reply.data.versionId.GetOr(0)))
                && variance == reply.data.variance.GetOr(0.0)
      ensures !reply.Ok? ==>
                var expected := OpeningOf(old(db.posSessions), sessionId) + SessionTotal(db.sales, sessionId);
                && db.syncQueue == old(db.syncQueue) +
                     [QueueItem(queueId, SyncActionType.CloseSession, CloseSessionPayload(sessionId, closingBalance, closedAt),
                                timestamp, Pending, None)]
                && db.posSessions == CloseRow(old(db.posSessions), sessionId, closingBalance, Some(expected), closedAt, None)
                && variance == closingBalance - expected
                && (variance == 0.0 <==> closingBalance == expected)
    {
      if reply.Ok? {
        var d := reply.data;
        db.PutSessions(CloseRow(db.posSessions, sessionId, closingBalance, d.expectedBalance, closedAt,
                                Some(d.versionId.GetOr(0))));
        currentSession := None;
        return d.variance.GetOr(0.0);
      }
      variance := CloseOffline(sessionId, closingBalance, queueId, closedAt, timestamp);
    }

    /** The offline close: queue CLOSE_SESSION, then close the local row with the locally computed expected balance. */
    method CloseOffline(sessionId: string, closingBalance: real, queueId: string, closedAt: string, timestamp: int)
      returns (variance: real)
      requires Valid() && !InQueue(db.syncQueue, queueId)
      modifies this`currentSession, db`posSessions, db`syncQueue
      ensures Valid() && currentSession == None
      ensures var expected := OpeningOf(old(db.posSessions), sessionId) + SessionTotal(db.sales, sessionId);
              && db.syncQueue == old(db.syncQueue) +
                   [QueueItem(queueId, SyncActionType.CloseSession, CloseSessionPayload(sessionId, closingBalance, closedAt),
                              timestamp, Pending, None)]
              && db.posSessions == CloseRow(old(db.posSessions), sessionId, closingBalance, Some(expected), closedAt, None)
              && variance == closingBalance - expected
    {
      db.Enqueue(QueueItem(queueId, SyncActionType.CloseSession, CloseSessionPayload(sessionId, closingBalance, closedAt),
                           timestamp, Pending, None));
      var expected := ExpectedBalance(db.posSessions, db.sales, sessionId);
      db.PutSessions(CloseRow(db.posSessions, sessionId, closingBalance, Some(expected), closedAt, None));
      currentSession := None;
      variance := closingBalance - expected;
    }
  }

  /** The opening balance of a session, 0 when the session is not in the table. */
  function OpeningOf(sessions: map<string, PosSession>, sessionId: string): real
  {
    if sessionId in sessions then sessions[sessionId].body.openingBalance else 0.0
  }

  /**
   * The offline expected balance: the session's opening balance plus the
   * total_amount of its sales, summed over the session_id query's result.
   */
  method ExpectedBalance(sessions: map<string, PosSession>, sales: map<string, Sale>, sessionId: string)
    returns (expected: real)
    requires Keyed(sales)
    ensures expected == OpeningOf(sessions, sessionId) + SessionTotal(sales, sessionId)
  {
    var opening := if sessionId in sessions then sessions[sessionId].body.openingBalance else 0.0;
    var list := SessionSales(sales, sessionId);
    var sum := 0.0;
    for i := 0 to |list|
      invariant sum == SalesSum(list[..i])
    {
      sum := sum + list[i].body.totalAmount;
      assert list[..i + 1][..i] == list[..i];
    }
    assert list[..|list|] == list;
    EnumeratedSum(list, sales, sessionId);
    expected := opening + sum;
  }

  /** The state of the session_id query part-way: `list` holds each session sale already taken out of `rest`, once. */
  ghost predicate Scanned(list: seq<Sale>, sales: map<string, Sale>, rest: map<string, Sale>, sessionId: string)
  {
    && rest.Keys <= sales.Keys && (forall k :: k in rest ==> rest[k] == sales[k])
    && (forall i, j :: 0 <= i < j < |list| ==> list[i].id != list[j].id)
    && (forall i :: 0 <= i < |list| ==>
          list[i].id in sales && list[i].id !in rest && sales[list[i].id] == list[i] &&
          list[i].body.sessionId == Some(sessionId))
    && (forall k :: k in sales && k !in rest && sales[k].body.sessionId == Some(sessionId) ==>
          exists i :: 0 <= i < |list| && list[i].id == k)
  }

  lemma ScanStep(list: seq<Sale>, sales: map<string, Sale>, rest: map<string, Sale>, sessionId: string, k: string)
    requires Keyed(sales) && Scanned(list, sales, rest, sessionId) && k in rest
    ensures Scanned(if rest[k].body.sessionId == Some(sessionId) then list + [rest[k]] else list, sales, rest - {k}, sessionId)
  {
    var list' := if rest[k].body.sessionId == Some(sessionId) then list + [rest[k]] else list;
    forall k' | k' in sales && k' !in rest - {k} && sales[k'].body.sessionId == Some(sessionId)
      ensures exists i :: 0 <= i < |list'| && list'[i].id == k'
    {
      if k' == k {
        assert list'[|list'| - 1].id == k;
      } else {
        var i :| 0 <= i < |list| && list[i].id == k';
        assert list'[i] == list[i];
      }
    }
  }

  /** `sales.where('session_id').equals(sessionId).toArray()`. */
  method SessionSales(sales: map<string, Sale>, sessionId: string) returns (list: seq<Sale>)
    requires Keyed(sales)
    ensures Enumerates(list, sales, sessionId)
  {
    var rest := sales;
    list := [];
    while rest != map[]
      invariant Scanned(list, sales, rest, sessionId)
      decreases |rest|
    {
      var k :| k in rest;
      ScanStep(list, sales, rest, sessionId, k);
      if rest[k].body.sessionId == Some(sessionId) {
        list := list + [rest[k]];
      }
      rest := rest - {k};
    }
  }
}
