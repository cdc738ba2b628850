/** The data-access layer (src/lib/api.ts). The backend is a `Gateway`: every
    request is appended to a log, and whether it fails is fixed in advance
    by its position in that log, so that every pattern of failures can be
    considered. What a select returns and the id a new row gets are fixed
    in the same way. */
module Api {
  import opened Common

  datatype Status = Completed | Pending | Cancelled

  /** A transaction header as sent to `transactions.insert`. */
  datatype Header = Header(
    receiptNumber: string, date: string, subtotal: real, tax: real, total: real,
    paymentMethod: string, cashierName: Option<string>, status: Status)

  /** The stored header: what was sent plus the id the backend gave it. */
  datatype Transaction = Transaction(id: string, header: Header)

  /** An item of a sale as handed to `create`. */
  datatype ItemInput = ItemInput(productId: string, quantity: int, price: real)

  /** An item row as written to `transaction_items`. */
  datatype ItemRow = ItemRow(transactionId: string, productId: string, quantity: int, price: real)

  datatype Table = StoreSettingsTable | UiSettingsTable

  /** Which rows a settings select looks at: any row, the rows of one user,
      or the rows with no user. */
  datatype Scope = AnyRow | OfUser(userId: string) | NoUser

  /** What a settings write carries: the store settings fields, the
      `{ settings }` object of a UI settings update, or the
      `{ user_id, settings }` object of a UI settings insert. */
  datatype Payload =
    | StoreFields(fields: map<string, string>)
    | UiSettings(settings: string)
    | UiSettingsRow(userId: Option<string>, settings: string)

  /** A settings row as returned by a write. */
  datatype Row = Row(id: string, payload: Payload)

  /** A request sent to the backend. */
  datatype Call =
    | InsertTransaction(header: Header)
    | InsertItems(rows: seq<ItemRow>)
    | DecrementStock(productId: string, quantity: int)
    | SelectIds(table: Table, scope: Scope)
    | UpdateRow(table: Table, rowId: string, payload: Payload)
    | InsertRow(table: Table, payload: Payload)

  /** The backend, as far as these operations see it. */
  class Gateway {
    /** Every request sent so far, in order. */
    var calls: seq<Call>
    /** The positions in the log of the requests that fail. */
    const failing: set<nat>
    /** The id the backend gives a new row. */
    const newId: string
    /** The ids a successful select returns. */
    const selectReply: Call -> seq<string>

    constructor (failing: set<nat>, newId: string, selectReply: Call -> seq<string>)
      ensures calls == []
      ensures this.failing == failing && this.newId == newId && this.selectReply == selectReply
    {
      calls := [];
      this.failing := failing;
      this.newId := newId;
      this.selectReply := selectReply;
    }

    /** Sends a write; `ok` is false when the backend reports an error. */
    method Send(c: Call) returns (ok: bool)
      modifies this
      ensures calls == old(calls) + [c]
      ensures ok <==> |old(calls)| !in failing
    {
      ok := |calls| !in failing;
      calls := calls + [c];
    }

    /** Sends a select of ids; `None` is the `null` data of a failed request. */
    method Select(c: Call) returns (ids: Option<seq<string>>)
      modifies this
      ensures calls == old(calls) + [c]
      ensures ids == if |old(calls)| in failing then None else Some(selectReply(c))
    {
      ids := if |calls| in failing then None else Some(selectReply(c));
      calls := calls + [c];
    }
  }

  /** `items.map(item => ({ ...item, transaction_id }))`. */
  function ItemRows(items: seq<ItemInput>, transactionId: string): (rows: seq<ItemRow>)
    ensures |rows| == |items|
    ensures forall i :: 0 <= i < |items| ==>
              rows[i].transactionId == transactionId && rows[i].productId == items[i].productId &&
              rows[i].quantity == items[i].quantity && rows[i].price == items[i].price
  {
    seq(|items|, i requires 0 <= i < |items| =>
      ItemRow(transactionId, items[i].productId, items[i].quantity, items[i].price))
  }

  /** One stock decrement per item, in item order. */
  function Decrements(items: seq<ItemInput>): (cs: seq<Call>)
    ensures |cs| == |items|
    ensures forall i :: 0 <= i < |items| ==> cs[i] == DecrementStock(items[i].productId, items[i].quantity)
  {
    seq(|items|, i requires 0 <= i < |items| => DecrementStock(items[i].productId, items[i].quantity))
  }

  /** The requests `create` sends when its first request is at position
      `base` of the log. */
  function CreateCalls(h: Header, items: seq<ItemInput>, failing: set<nat>, base: nat, newId: string): seq<Call> {
    if base in failing then [InsertTransaction(h)]
    else if base + 1 in failing then [InsertTransaction(h), InsertItems(ItemRows(items, newId))]
    else [InsertTransaction(h), InsertItems(ItemRows(items, newId))] + Decrements(items)
  }

  /** What `create` returns: the stored header, or `null` when the header or
      the items could not be written. */
  function CreateResult(h: Header, failing: set<nat>, base: nat, newId: string): Option<Transaction> {
    if base in failing || base + 1 in failing then None else Some(Transaction(newId, h))
  }

  /** `transactionsApi.create`: the header, then the items, then one stock
      decrement per item whose failure is only logged. */
  method Create(g: Gateway, h: Header, items: seq<ItemInput>) returns (r: Option<Transaction>)
    modifies g
    ensures g.calls == old(g.calls) + CreateCalls(h, items, g.failing, |old(g.calls)|, g.newId)
    ensures r == CreateResult(h, g.failing, |old(g.calls)|, g.newId)
  {
    var ok := g.Send(InsertTransaction(h));
    if !ok {
      return None;
    }
    var stored := Transaction(g.newId, h);
    var rows := ItemRows(items, stored.id);
    ok := g.Send(InsertItems(rows));
    if !ok {
      return None;
    }
    for i := 0 to |items|
      invariant g.calls == old(g.calls) + [InsertTransaction(h), InsertItems(rows)] + Decrements(items[..i])
    {
      assert Decrements(items[..i + 1]) == Decrements(items[..i]) + [DecrementStock(items[i].productId, items[i].quantity)];
      var _ := g.Send(DecrementStock(items[i].productId, items[i].quantity));
    }
    assert items[..|items|] == items;
    return Some(stored);
  }

  /** The header is always the first request. */
  lemma HeaderFirst(h: Header, items: seq<ItemInput>, failing: set<nat>, base: nat, newId: string)
    ensures |CreateCalls(h, items, failing, base, newId)| >= 1
    ensures CreateCalls(h, items, failing, base, newId)[0] == InsertTransaction(h)
  {
  }

  /** When the header cannot be written, nothing else is sent and the result
      is `null`. */
  lemma HeaderFailureStops(h: Header, items: seq<ItemInput>, failing: set<nat>, base: nat, newId: string)
    requires base in failing
    ensures CreateCalls(h, items, failing, base, newId) == [InsertTransaction(h)]
    ensures CreateResult(h, failing, base, newId) == None
  {
  }

  /** When the items cannot be written the result is `null`, but the header
      stays written: no request undoes it, and no stock is decremented. */
  lemma ItemsFailureLeavesHeader(h: Header, items: seq<ItemInput>, failing: set<nat>, base: nat, newId: string)
    requires base !in failing && base + 1 in failing
    ensures var cs := CreateCalls(h, items, failing, base, newId);
      cs == [InsertTransaction(h), InsertItems(ItemRows(items, newId))] &&
      forall i :: 0 <= i < |cs| ==> !cs[i].DecrementStock? && !cs[i].UpdateRow? && !cs[i].InsertRow?
    ensures CreateResult(h, failing, base, newId) == None
  {
  }

  /** Once header and items are written, exactly one decrement per item is
      sent, in item order, each with that item's product and quantity; the
      rows written carry the new header's id. */
  lemma DecrementsPerItem(h: Header, items: seq<ItemInput>, failing: set<nat>, base: nat, newId: string)
    requires base !in failing && base + 1 !in failing
    ensures var cs := CreateCalls(h, items, failing, base, newId);
      |cs| == 2 + |items| &&
      (forall i :: 0 <= i < |items| ==> cs[2 + i] == DecrementStock(items[i].productId, items[i].quantity)) &&
      cs[1].InsertItems? && forall i :: 0 <= i < |cs[1].rows| ==> cs[1].rows[i].transactionId == newId
    ensures CreateResult(h, failing, base, newId) == Some(Transaction(newId, h))
  {
    var cs := CreateCalls(h, items, failing, base, newId);
    var ds := Decrements(items);
    assert cs == [InsertTransaction(h), InsertItems(ItemRows(items, newId))] + ds;
    forall i | 0 <= i < |items| ensures cs[2 + i] == DecrementStock(items[i].productId, items[i].quantity) {
      assert cs[2 + i] == ds[i];
    }
  }

  /** Failed decrements change nothing: two backends that agree on the
      header and the items requests give the same requests and the same
      result. */
  lemma DecrementFailuresIgnored(h: Header, items: seq<ItemInput>, f1: set<nat>, f2: set<nat>, base: nat, newId: string)
    requires (base in f1 <==> base in f2) && (base + 1 in f1 <==> base + 1 in f2)
    ensures CreateCalls(h, items, f1, base, newId) == CreateCalls(h, items, f2, base, newId)
    ensures CreateResult(h, f1, base, newId) == CreateResult(h, f2, base, newId)
  {
  }

  /** The rows `getAll(limit, page)` asks for: `range(page * limit,
      (page + 1) * limit - 1)`, both ends included. */
  function PageRange(limit: int, page: int): (r: (int, int))
    ensures r.1 - r.0 + 1 == limit
  {
    (page * limit, (page + 1) * limit - 1)
  }

  /** Row `i` is requested by page `page`. */
  predicate OnPage(i: int, limit: int, page: int) {
    PageRange(limit, page).0 <= i <= PageRange(limit, page).1
  }

  /** With the defaults (100 rows, page 0) the rows 0 to 99 are requested. */
  lemma DefaultPage()
    ensures PageRange(100, 0) == (0, 99)
  {
  }

  /** Consecutive pages are adjacent: each starts right after the previous
      one ends. */
  lemma PagesAdjacent(limit: int, page: int)
    ensures PageRange(limit, page + 1).0 == PageRange(limit, page).1 + 1
  {
  }

  /** Different pages request disjoint rows. */
  lemma PagesDisjoint(limit: nat, p: int, q: int, i: int)
    requires p < q
    ensures !(OnPage(i, limit, p) && OnPage(i, limit, q))
  {
    assert (p + 1) * limit <= q * limit by {
      MultiplyMonotone(p + 1, q, limit);
    }
  }

  lemma MultiplyMonotone(a: int, b: int, c: nat)
    requires a <= b
    ensures a * c <= b * c
  {
  }

  /** The scope of a UI settings select: the user's rows when `userId` is a
      non-empty string, otherwise the rows without a user. */
  function UserScope(userId: Option<string>): (s: Scope)
    ensures s.OfUser? <==> userId.Some? && userId.value != ""
    ensures s.OfUser? ==> s.userId == userId.value
    ensures !s.AnyRow?
  {
    if userId.Some? && userId.value != "" then OfUser(userId.value) else NoUser
  }

  /** `userId || null`. */
  function UserIdOrNull(userId: Option<string>): Option<string> {
    if userId.Some? && userId.value != "" then userId else None
  }

  /** The ids an existence check sees: none when the select failed. */
  function Existing(failing: set<nat>, base: nat, selectReply: Call -> seq<string>, select: Call): seq<string> {
    if base in failing then [] else selectReply(select)
  }

  /** The requests of "update the first existing row, else insert" when its
      select is at position `base` of the log. */
  function UpsertCalls(table: Table, scope: Scope, update: Payload, insert: Payload,
                       failing: set<nat>, base: nat, selectReply: Call -> seq<string>): seq<Call> {
    var select := SelectIds(table, scope);
    var ids := Existing(failing, base, selectReply, select);
    if |ids| > 0 then [select, UpdateRow(table, ids[0], update)] else [select, InsertRow(table, insert)]
  }

  /** The row an upsert returns, or `null` when its write fails. */
  function UpsertResult(table: Table, scope: Scope, update: Payload, insert: Payload,
                        failing: set<nat>, base: nat, selectReply: Call -> seq<string>, newId: string): Option<Row> {
    var ids := Existing(failing, base, selectReply, SelectIds(table, scope));
    if base + 1 in failing then None
    else if |ids| > 0 then Some(Row(ids[0], update))
    else Some(Row(newId, insert))
  }

  /** The existence check and the one write that follows it. */
  method Upsert(g: Gateway, table: Table, scope: Scope, update: Payload, insert: Payload) returns (r: Option<Row>)
    modifies g
    ensures g.calls == old(g.calls) + UpsertCalls(table, scope, update, insert, g.failing, |old(g.calls)|, g.selectReply)
    ensures r == UpsertResult(table, scope, update, insert, g.failing, |old(g.calls)|, g.selectReply, g.newId)
  {
    var existing := g.Select(SelectIds(table, scope));
    if existing.Some? && |existing.value| > 0 {
      var ok := g.Send(UpdateRow(table, existing.value[0], update));
      r := if ok then Some(Row(existing.value[0], update)) else None;
    } else {
      var ok := g.Send(InsertRow(table, insert));
      r := if ok then Some(Row(g.newId, insert)) else None;
    }
  }

  /** `storeSettingsApi.update`: the fields go to the first stored row, or
      to a new row when there is none. */
  method UpdateStoreSettings(g: Gateway, fields: map<string, string>) returns (r: Option<Row>)
    modifies g
    ensures g.calls == old(g.calls) +
              UpsertCalls(StoreSettingsTable, AnyRow, StoreFields(fields), StoreFields(fields), g.failing, |old(g.calls)|, g.selectReply)
    ensures r == UpsertResult(StoreSettingsTable, AnyRow, StoreFields(fields), StoreFields(fields),
                              g.failing, |old(g.calls)|, g.selectReply, g.newId)
  {
    r := Upsert(g, StoreSettingsTable, AnyRow, StoreFields(fields), StoreFields(fields));
  }

  /** `uiSettingsApi.update`: `{ settings }` goes to the first row of the
      user (or of no user), or a row `{ user_id, settings }` is inserted. */
  method UpdateUiSettings(g: Gateway, settings: string, userId: Option<string>) returns (r: Option<Row>)
    modifies g
    ensures g.calls == old(g.calls) +
              UpsertCalls(UiSettingsTable, UserScope(userId), UiSettings(settings),
                          UiSettingsRow(UserIdOrNull(userId), settings), g.failing, |old(g.calls)|, g.selectReply)
    ensures r == UpsertResult(UiSettingsTable, UserScope(userId), UiSettings(settings),
                              UiSettingsRow(UserIdOrNull(userId), settings), g.failing, |old(g.calls)|, g.selectReply, g.newId)
  {
    r := Upsert(g, UiSettingsTable, UserScope(userId), UiSettings(settings), UiSettingsRow(UserIdOrNull(userId), settings));
  }

  /** An upsert sends the select and exactly one write: an update of the
      first existing row when the select found one, an insert otherwise
      (also when the select itself failed). */
  lemma UpsertWritesOnce(table: Table, scope: Scope, update: Payload, insert: Payload,
                         failing: set<nat>, base: nat, selectReply: Call -> seq<string>)
    ensures var cs := UpsertCalls(table, scope, update, insert, failing, base, selectReply);
      var found := base !in failing && |selectReply(SelectIds(table, scope))| > 0;
      |cs| == 2 && cs[0] == SelectIds(table, scope) &&
      (found ==> cs[1] == UpdateRow(table, selectReply(SelectIds(table, scope))[0], update)) &&
      (!found ==> cs[1] == InsertRow(table, insert))
  {
  }

  /** A UI settings insert records the user exactly when the same user
      scoped the select. */
  lemma UiInsertMatchesScope(userId: Option<string>)
    ensures UserIdOrNull(userId).Some? <==> UserScope(userId).OfUser?
    ensures UserIdOrNull(userId).Some? ==> UserIdOrNull(userId).value == UserScope(userId).userId
  {
  }

  /** A backend reply: data, or an error with a code. */
  datatype Reply<T> = Reply(data: Option<T>, error: Option<string>)

  /** List reads: `[]` on error, `data || []` otherwise. */
  function ListOrEmpty<T>(reply: Reply<seq<T>>): (r: seq<T>)
    ensures reply.error.Some? ==> r == []
    ensures reply.error.None? && reply.data.Some? ==> r == reply.data.value
    ensures reply.data.None? ==> r == []
  {
    if reply.error.Some? then [] else if reply.data.Some? then reply.data.value else []
  }

  /** Single-row reads and writes: `null` on error, the data otherwise. */
  function SingleOrNull<T>(reply: Reply<T>): (r: Option<T>)
    ensures reply.error.Some? ==> r.None?
    ensures reply.error.None? ==> r == reply.data
  {
    if reply.error.Some? then None else reply.data
  }

  /** Deletes: `false` on error, `true` otherwise. */
  function DeleteSucceeded(error: Option<string>): (ok: bool)
    ensures ok <==> error.None?
  {
    error.None?
  }

  /** The "no rows returned" code, which the UI settings read does not treat
      as an error. */
  const NoRowsCode: string := "PGRST116"

  /** `uiSettingsApi.get`: `null` on an error other than "no rows", the data
      otherwise. */
  function UiSettingsOrNull<T>(reply: Reply<T>): (r: Option<T>)
    ensures reply.error.Some? && reply.error.value != NoRowsCode ==> r.None?
    ensures reply.error.None? || reply.error == Some(NoRowsCode) ==> r == reply.data
  {
    if reply.error.Some? && reply.error.value != NoRowsCode then None else reply.data
  }

  /** A caller of a list read cannot tell a failed request from an empty
      table. */
  lemma ErrorLooksEmpty<T>(code: string, stale: Option<seq<T>>)
    ensures ListOrEmpty(Reply(stale, Some(code))) == ListOrEmpty(Reply(Some([]), None))
  {
  }
}
