/**
 * The search-history store (backend/internal/database/database.go): one
 * append-only SQLite table, modelled as a sequence of rows with
 * store-assigned ids.
 */
module HistoryStore {
  import opened Wrappers

  /** One row of `search_history`; also the value handed to `SaveSearch`. */
  datatype SearchHistory = SearchHistory(
    id: int,
    userQuery: string,
    aiSummaryAnswer: string,
    aiRelevantArticles: string,
    createdAt: int)

  /** A column of the table: its name and declared SQL type. */
  datatype Column = Column(name: string, sqlType: string)

  /** The columns `InitDB` declares, in order. */
  const SearchHistoryColumns: seq<Column> := [
    Column("id", "INTEGER"),
    Column("user_query", "TEXT"),
    Column("ai_summary_answer", "TEXT"),
    Column("ai_relevant_articles", "TEXT"),
    Column("created_at", "TIMESTAMP")
  ]

  const ClosedError: Error := Error("sql: database is closed")
  const NoTableError: Error := Error("no such table: search_history")

  /** The schema has five columns with distinct names. */
  lemma SchemaHasFiveColumns()
    ensures |SearchHistoryColumns| == 5
    ensures forall i, j :: 0 <= i < j < |SearchHistoryColumns| ==>
      SearchHistoryColumns[i].name != SearchHistoryColumns[j].name
  {
    assert SearchHistoryColumns[0].name[0] == 'i';
    assert SearchHistoryColumns[1].name[0] == 'u';
    assert SearchHistoryColumns[2].name[3] == 's';
    assert SearchHistoryColumns[3].name[3] == 'r';
    assert SearchHistoryColumns[4].name[0] == 'c';
  }

  /** Row ids grow strictly along the table. */
  ghost predicate IdsAscending(rows: seq<SearchHistory>)
  {
    forall i, j :: 0 <= i < j < |rows| ==> rows[i].id < rows[j].id
  }

  /** `SELECT ... WHERE id = ?`: the row carrying `id`, if any. */
  function FindById(rows: seq<SearchHistory>, id: int): (found: Option<SearchHistory>)
    ensures found.Some? ==> found.value in rows && found.value.id == id
    ensures found.None? <==> forall i :: 0 <= i < |rows| ==> rows[i].id != id
  {
    if rows == [] then None
    else if rows[0].id == id then Some(rows[0])
    else
      assert rows == [rows[0]] + rows[1..];
      FindById(rows[1..], id)
  }

  /** Appending a row with a fresh id makes it findable and leaves every other lookup as it was. */
  lemma {:induction false} FindAfterAppend(rows: seq<SearchHistory>, row: SearchHistory, id: int)
    requires forall i :: 0 <= i < |rows| ==> rows[i].id < row.id
    ensures FindById(rows + [row], id) == if id == row.id then Some(row) else FindById(rows, id)
  {
    if rows == [] {
      assert rows + [row] == [row];
    } else {
      assert (rows + [row])[1..] == rows[1..] + [row];
      FindAfterAppend(rows[1..], row, id);
    }
  }

  /** The row `SaveSearch` inserts: the three text columns of `search`, with the store's id and time. */
  function InsertedRow(search: SearchHistory, id: int, now: int): SearchHistory
  {
    SearchHistory(id, search.userQuery, search.aiSummaryAnswer, search.aiRelevantArticles, now)
  }

  /**
   * A SQLite database file holding `search_history`, and whether the
   * connection to it is open. `lastId` is the table's AUTOINCREMENT
   * counter: the largest id ever assigned.
   */
  class Database {
    var open: bool
    var hasTable: bool
    var rows: seq<SearchHistory>
    var lastId: int
    /** The declared columns of `search_history`; empty while the table does not exist. */
    var columns: seq<Column>

    ghost predicate Valid()
      reads this
    {
      && 0 <= lastId
      && (!hasTable ==> rows == [] && lastId == 0)
      && IdsAscending(rows)
      && forall i :: 0 <= i < |rows| ==> 0 < rows[i].id <= lastId
    }

    /** A database file that does not exist yet: no table, no connection. */
    constructor ()
      ensures Valid() && !open && !hasTable && rows == [] && columns == []
    {
      open, hasTable, rows, lastId, columns := false, false, [], 0, [];
    }

    /**
     * `InitDB`: opens the connection and creates the table if it is absent;
     * an existing table keeps its rows and its id counter.
     */
    method InitDB()
      requires Valid()
      modifies this
      ensures Valid() && open && hasTable
      ensures columns == SearchHistoryColumns
      ensures old(hasTable) ==> rows == old(rows) && lastId == old(lastId)
      ensures !old(hasTable) ==> rows == [] && lastId == 0
    {
      open := true;
      if !hasTable {
        hasTable := true;
      }
      columns := SearchHistoryColumns;
    }

    /** `db.Close()`: every later statement fails; the file keeps its contents. */
    method Close()
      requires Valid()
      modifies this`open
      ensures Valid() && !open
    {
      open := false;
    }

    /**
     * `SaveSearch`: inserts the three text columns of `search` as a new row
     * and returns its id, or returns 0 and an error and leaves the table as
     * it was. `now` is the clock value `CURRENT_TIMESTAMP` reads.
     */
    method SaveSearch(search: SearchHistory, now: int) returns (id: int, err: Option<Error>)
      requires Valid()
      modifies this
      ensures Valid()
      ensures open == old(open) && hasTable == old(hasTable) && columns == old(columns)
      ensures err.None? <==> old(open && hasTable)
      ensures err.Some? ==> id == 0 && rows == old(rows) && lastId == old(lastId)
      ensures !old(open) ==> err == Some(ClosedError)
      ensures old(open) && !old(hasTable) ==> err == Some(NoTableError)
      ensures err.None? ==> id > 0 && id == old(lastId) + 1 == lastId
      ensures err.None? ==> rows == old(rows) + [InsertedRow(search, id, now)]
      ensures err.None? ==> FindById(rows, id) == Some(InsertedRow(search, id, now))
      ensures forall other :: other != id ==> FindById(rows, other) == FindById(old(rows), other)
    {
      if !open {
        return 0, Some(ClosedError);
      }
      if !hasTable {
        return 0, Some(NoTableError);
      }
      var row := InsertedRow(search, lastId + 1, now);
      forall other {
        FindAfterAppend(rows, row, other);
      }
      rows := rows + [row];
      lastId := lastId + 1;
      return lastId, None;
    }
  }

  /** In a table with ascending ids, looking up a row's id finds that row. */
  lemma {:induction false} FindInAscending(rows: seq<SearchHistory>, i: nat)
    requires IdsAscending(rows) && i < |rows|
    ensures FindById(rows, rows[i].id) == Some(rows[i])
  {
    if i > 0 {
      assert rows[0].id < rows[i].id;
      assert rows[1..][i - 1] == rows[i];
      FindInAscending(rows[1..], i - 1);
    }
  }

  /**
   * A save whose error the caller only logs: on a writable store the
   * search becomes the next row and its id is returned; otherwise nothing
   * changes.
   */
  method SaveIgnoringError(db: Database, search: SearchHistory, now: int) returns (id: int)
    requires db.Valid()
    modifies db
    ensures db.Valid()
    ensures db.open == old(db.open) && db.hasTable == old(db.hasTable) && db.columns == old(db.columns)
    ensures old(db.open && db.hasTable) ==>
      id == db.lastId == old(db.lastId) + 1 && db.rows == old(db.rows) + [InsertedRow(search, id, now)]
    ensures !old(db.open && db.hasTable) ==> id == 0 && db.rows == old(db.rows) && db.lastId == old(db.lastId)
  {
    var err;
    id, err := db.SaveSearch(search, now);
  }

  /**
   * Saving into a store whose connection was closed after `InitDB`: the
   * save reports the closed connection, returns 0, and the table keeps
   * what it held.
   */
  method SaveAfterClose(db: Database, search: SearchHistory, now: int) returns (id: int, err: Option<Error>)
    requires db.Valid()
    modifies db
    ensures db.Valid() && !db.open && db.hasTable && db.columns == SearchHistoryColumns
    ensures id == 0 && err == Some(ClosedError)
    ensures old(db.hasTable) ==> db.rows == old(db.rows) && db.lastId == old(db.lastId)
    ensures !old(db.hasTable) ==> db.rows == [] && db.lastId == 0
  {
    db.InitDB();
    db.Close();
    id, err := db.SaveSearch(search, now);
  }

  /**
   * Saving several searches in turn into an open table: every save
   * succeeds, the rows already there are kept, the table grows by one row
   * per save, the ids are the counter's next values, and each returned id
   * finds its own search.
   */
  method SaveAll(db: Database, searches: seq<SearchHistory>, now: int) returns (ids: seq<int>)
    requires db.Valid() && db.open && db.hasTable
    modifies db
    ensures db.Valid() && db.open && db.hasTable
    ensures db.columns == old(db.columns)
    ensures |ids| == |searches|
    ensures |db.rows| == |old(db.rows)| + |searches|
    ensures db.rows[..|old(db.rows)|] == old(db.rows)
    ensures db.lastId == old(db.lastId) + |searches|
    ensures forall i :: 0 <= i < |ids| ==> ids[i] == old(db.lastId) + i + 1
    ensures forall i, j :: 0 <= i < j < |ids| ==> 0 < ids[i] < ids[j]
    ensures forall i :: 0 <= i < |ids| ==> FindById(db.rows, ids[i]) == Some(InsertedRow(searches[i], ids[i], now))
  {
    ghost var n := |db.rows|;
    ghost var before := db.rows;
    ghost var last := db.lastId;
    ids := [];
    for k := 0 to |searches|
      invariant db.Valid() && db.open && db.hasTable && db.columns == old(db.columns)
      invariant |ids| == k
      invariant |db.rows| == n + k
      invariant forall i :: 0 <= i < n ==> db.rows[i] == before[i]
      invariant db.lastId == last + k
      invariant forall i :: 0 <= i < k ==> ids[i] == last + i + 1
      invariant forall i :: 0 <= i < k ==> db.rows[n + i] == InsertedRow(searches[i], ids[i], now)
    {
      var id := SaveIgnoringError(db, searches[k], now);
      ids := ids + [id];
    }
    assert db.rows[..n] == before;
    forall i | 0 <= i < |ids|
      ensures FindById(db.rows, ids[i]) == Some(InsertedRow(searches[i], ids[i], now))
    {
      FindInAscending(db.rows, n + i);
    }
    forall i, j | 0 <= i < j < |ids|
      ensures 0 < ids[i] < ids[j]
    {
      assert db.rows[n + i].id == ids[i] && db.rows[n + j].id == ids[j];
    }
  }
}
