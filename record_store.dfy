/**
 * The `interaction_summary` table of src/sqliteClient.js, modelled as the
 * sequence of its rows in insertion order. Ids come from AUTOINCREMENT: each
 * insert takes the next id and ids of deleted rows are never handed out again.
 */
module RecordStore {
  import opened Classifier

  /** The columns a query returns (everything but the id), with the table's names. */
  datatype StoredRecord = StoredRecord(
    timestamp: string,
    click_count: int,
    key_count: int,
    focus_count: int,
    score: int,
    mode: string)

  /** One row of the table. */
  datatype Row = Row(id: nat, rec: StoredRecord)

  /** The row values bound by the insert: camel-case fields go to snake-case columns. */
  function ToStored(r: InteractionRecord): (s: StoredRecord)
    ensures s.timestamp == r.timestamp && s.click_count == r.clickCount && s.key_count == r.keyCount
    ensures s.focus_count == r.focusCount && s.score == r.score && s.mode == ModeName(r.mode)
    ensures s.mode in ModeNames()
  {
    StoredRecord(r.timestamp, r.clickCount, r.keyCount, r.focusCount, r.score, ModeName(r.mode))
  }

  /** Ids strictly increase along the table in insertion order. */
  predicate IdsIncreasing(rows: seq<Row>)
  {
    forall i, j :: 0 <= i < j < |rows| ==> rows[i].id < rows[j].id
  }

  /** Ids strictly decrease along a query result. */
  predicate IdsDecreasing(rows: seq<Row>)
  {
    forall i, j :: 0 <= i < j < |rows| ==> rows[i].id > rows[j].id
  }

  /**
   * `ORDER BY id DESC LIMIT limit` over rows kept in insertion order: take the
   * newest row, then the newest `limit - 1` of the older ones. A negative limit
   * never reaches zero, which is SQLite's "no limit".
   */
  function NewestRows(rows: seq<Row>, limit: int): (r: seq<Row>)
    ensures |r| == ResultSize(|rows|, limit)
    ensures forall x :: x in r ==> x in rows
    decreases |rows|
  {
    if rows == [] || limit == 0 then []
    else [rows[|rows| - 1]] + NewestRows(rows[..|rows| - 1], limit - 1)
  }

  /** The number of rows the query returns. */
  function ResultSize(total: nat, limit: int): nat
  {
    if limit < 0 || total < limit then total else limit
  }

  /** The selected columns of each row, in order. */
  function Records(rows: seq<Row>): (recs: seq<StoredRecord>)
    ensures |recs| == |rows|
  {
    if rows == [] then [] else [rows[0].rec] + Records(rows[1..])
  }

  /** One iteration of the fetch loop: the newest remaining row is pushed next. */
  lemma FetchStep(rows: seq<Row>, i: nat, left: int, fetched: seq<StoredRecord>, all: seq<StoredRecord>)
    requires 0 < i <= |rows| && left != 0
    requires all == fetched + Records(NewestRows(rows[..i], left))
    ensures all == (fetched + [rows[i - 1].rec]) + Records(NewestRows(rows[..i - 1], left - 1))
  {
    NewestRowsStep(rows, i, left);
    RecordsCons(rows[i - 1], NewestRows(rows[..i - 1], left - 1));
  }

  /** When the loop stops (no rows left or the limit reached) everything has been fetched. */
  lemma FetchDone(rows: seq<Row>, i: nat, left: int, fetched: seq<StoredRecord>, all: seq<StoredRecord>)
    requires i <= |rows| && (i == 0 || left == 0)
    requires all == fetched + Records(NewestRows(rows[..i], left))
    ensures all == fetched
  {
  }

  lemma RecordsCons(row: Row, rows: seq<Row>)
    ensures Records([row] + rows) == [row.rec] + Records(rows)
  {
    assert ([row] + rows)[1..] == rows;
  }

  /** Reversal of a sequence, the reference for "newest first". */
  function Reversed<T>(s: seq<T>): (r: seq<T>)
    ensures |r| == |s|
  {
    if s == [] then [] else Reversed(s[1..]) + [s[0]]
  }

  lemma {:induction false} ReversedAt<T>(s: seq<T>, k: nat)
    requires k < |s|
    ensures Reversed(s)[k] == s[|s| - 1 - k]
  {
    if k < |s| - 1 {
      ReversedAt(s[1..], k);
    }
  }

  /** The query returns at most `limit` rows (all rows for a negative limit), and the j-th is the j-th newest. */
  lemma {:induction false} NewestRowsShape(rows: seq<Row>, limit: int)
    ensures |NewestRows(rows, limit)| == ResultSize(|rows|, limit)
    ensures limit >= 0 ==> |NewestRows(rows, limit)| <= limit
    ensures forall j :: 0 <= j < |NewestRows(rows, limit)| ==>
              NewestRows(rows, limit)[j] == rows[|rows| - 1 - j]
    decreases |rows|
  {
    if rows != [] && limit != 0 {
      var older := rows[..|rows| - 1];
      NewestRowsShape(older, limit - 1);
      var r := NewestRows(rows, limit);
      assert r == [rows[|rows| - 1]] + NewestRows(older, limit - 1);
      forall j | 0 <= j < |r|
        ensures r[j] == rows[|rows| - 1 - j]
      {
        if j > 0 {
          assert r[j] == NewestRows(older, limit - 1)[j - 1];
        }
      }
    }
  }

  /** On a table whose ids increase, the query result is ordered by id, descending. */
  lemma NewestRowsDescending(rows: seq<Row>, limit: int)
    requires IdsIncreasing(rows)
    ensures IdsDecreasing(NewestRows(rows, limit))
  {
    NewestRowsShape(rows, limit);
  }

  /**
   * When the table holds at least `limit` rows, the query returns exactly the
   * last `limit` rows inserted, in reverse insertion order.
   */
  lemma NewestRowsAreLastInserted(rows: seq<Row>, limit: nat)
    requires limit <= |rows|
    ensures NewestRows(rows, limit) == Reversed(rows[|rows| - limit..])
  {
    var tail := rows[|rows| - limit..];
    NewestRowsShape(rows, limit);
    forall j | 0 <= j < limit
      ensures NewestRows(rows, limit)[j] == Reversed(tail)[j]
    {
      ReversedAt(tail, j);
    }
  }

  /** The row just inserted is what a query with limit 1 returns. */
  lemma LastInsertedComesFirst(rows: seq<Row>, row: Row)
    ensures NewestRows(rows + [row], 1) == [row]
  {
    assert (rows + [row])[..|rows|] == rows;
  }

  /** Unrolls one step of the query, as the fetch loop takes the newest remaining row. */
  lemma NewestRowsStep(rows: seq<Row>, i: nat, limit: int)
    requires 0 < i <= |rows| && limit != 0
    ensures NewestRows(rows[..i], limit) == [rows[i - 1]] + NewestRows(rows[..i - 1], limit - 1)
  {
    assert rows[..i][..i - 1] == rows[..i - 1];
  }

  /**
   * Runs `ORDER BY id DESC LIMIT limit` over the table: rows are delivered
   * newest first and each is pushed onto the result, until the table or the
   * limit is exhausted.
   */
  method FetchNewest(rows: seq<Row>, limit: int) returns (result: seq<StoredRecord>)
    ensures result == Records(NewestRows(rows, limit))
  {
    ghost var all := Records(NewestRows(rows, limit));
    result := [];
    var i, left := |rows|, limit;
    assert rows[..i] == rows;
    while i > 0 && left != 0
      invariant 0 <= i <= |rows|
      invariant all == result + Records(NewestRows(rows[..i], left))
    {
      FetchStep(rows, i, left, result, all);
      result := result + [rows[i - 1].rec];
      i, left := i - 1, left - 1;
    }
    FetchDone(rows, i, left, result, all);
  }

  /**
   * The store of src/sqliteClient.js. `open` stands for the module-level `db`
   * handle, `rows` for the table, `nextId` for the table's AUTOINCREMENT
   * counter.
   */
  class Store {
    var open: bool
    var rows: seq<Row>
    var nextId: nat

    ghost predicate Valid()
      reads this
    {
      nextId >= 1 &&
      IdsIncreasing(rows) &&
      (forall i :: 0 <= i < |rows| ==> rows[i].id < nextId) &&
      (!open ==> rows == [])
    }

    /** Module load: no database yet, hence no rows. */
    constructor ()
      ensures Valid() && !open && rows == [] && nextId == 1
    {
      open := false;
      rows := [];
      nextId := 1;
    }

    /** Opens the database once; a later call finds the handle and changes nothing. */
    method InitDb()
      requires Valid()
      modifies this
      ensures Valid() && open
      ensures rows == old(rows) && nextId == old(nextId)
      ensures old(open) ==> unchanged(this)
    {
      if open {
        return;
      }
      open := true;
    }

    /** Appends one row holding the record's fields under the table's column names. */
    method InsertRecord(r: InteractionRecord)
      requires Valid()
      modifies this
      ensures Valid() && open
      ensures rows == old(rows) + [Row(old(nextId), ToStored(r))]
      ensures nextId == old(nextId) + 1
    {
      InitDb();
      rows := rows + [Row(nextId, ToStored(r))];
      nextId := nextId + 1;
    }

    /** `getRecentRecords`: opens the database if needed, then runs the query. */
    method GetRecentRecords(limit: int) returns (result: seq<StoredRecord>)
      requires Valid()
      modifies this
      ensures Valid() && open
      ensures rows == old(rows) && nextId == old(nextId)
      ensures result == Records(NewestRows(rows, limit))
    {
      InitDb();
      result := FetchNewest(rows, limit);
    }

    /** Deletes every row; the AUTOINCREMENT counter is kept. */
    method ClearRecords()
      requires Valid()
      modifies this
      ensures Valid() && open
      ensures rows == [] && nextId == old(nextId)
    {
      InitDb();
      rows := [];
    }
  }
}
