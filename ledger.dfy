/**
 * The calculator's calculation history: a CSV table with a header row and
 * one row per saved calculation. The file is modelled by its data rows,
 * `None` while the file does not exist (the header row is implicit in a
 * present file).
 */
module Ledger {
  import opened Rpc

  /** One data row: id, operation name, both operands, the result and the ISO-8601 timestamp. */
  datatype Row = Row(id: int, operation: string, operandA: int, operandB: int, result: real, timestamp: string)

  /** The data rows of the table; a missing file has none. */
  function Rows(file: Option<seq<Row>>): seq<Row> {
    if file.Some? then file.value else []
  }

  /** The table after `init_csv`. */
  function Initialized(file: Option<seq<Row>>): (f: Option<seq<Row>>)
    ensures f.Some? && Rows(f) == Rows(file)
    ensures file.Some? ==> f == file
  {
    if file.None? then Some([]) else file
  }

  /** The id the next saved calculation gets: the last row's id plus one, or 1 without rows. */
  function NextId(rows: seq<Row>): int {
    if rows == [] then 1 else rows[|rows| - 1].id + 1
  }

  /** The rows after one more calculation is saved. */
  function Appended(rows: seq<Row>, operation: string, a: int, b: int, result: real, timestamp: string): (r: seq<Row>)
    ensures |r| == |rows| + 1 && r[..|rows|] == rows
    ensures r[|rows|] == Row(NextId(rows), operation, a, b, result, timestamp)
  {
    rows + [Row(NextId(rows), operation, a, b, result, timestamp)]
  }

  function Min(x: int, y: int): int { if x <= y then x else y }
  function Max(x: int, y: int): int { if x >= y then x else y }

  /** Where Python's `s[k:]` starts in a sequence of length n: a negative k counts from the end; both are clamped. */
  function SliceStart(n: nat, k: int): (start: nat)
    ensures start <= n
  {
    if k < 0 then Max(0, n + k) else Min(k, n)
  }

  /** Python's `s[k:]`. */
  function SuffixFrom<T>(s: seq<T>, k: int): seq<T> {
    s[SliceStart(|s|, k)..]
  }

  function Reversed<T>(s: seq<T>): (r: seq<T>)
    ensures |r| == |s|
  {
    if s == [] then [] else Reversed(s[1..]) + [s[0]]
  }

  lemma {:induction false} ReversedAt<T>(s: seq<T>, i: int)
    requires 0 <= i < |s|
    ensures Reversed(s)[i] == s[|s| - 1 - i]
  {
    if i < |s| - 1 {
      ReversedAt(s[1..], i);
    }
  }

  /** What `get_calculation_history(limit)` returns for an integer limit: `reversed(rows[-limit:])`. */
  function Recent(rows: seq<Row>, limit: int): seq<Row> {
    Reversed(SuffixFrom(rows, -limit))
  }

  /**
   * How many rows the history holds, case by case: at most `limit` for a
   * positive limit, every row for 0 (`rows[-0:]` is `rows[0:]`), and all
   * but the first `-limit` rows for a negative limit.
   */
  function HistoryLength(n: nat, limit: int): nat {
    if limit > 0 then Min(limit, n) else if limit == 0 then n else Max(0, n + limit)
  }

  /** The history has `HistoryLength` rows and lists the newest row first. */
  lemma RecentShape(rows: seq<Row>, limit: int)
    ensures |Recent(rows, limit)| == HistoryLength(|rows|, limit)
    ensures forall i :: 0 <= i < |Recent(rows, limit)| ==> Recent(rows, limit)[i] == rows[|rows| - 1 - i]
  {
    var window := SuffixFrom(rows, -limit);
    forall i | 0 <= i < |Recent(rows, limit)|
      ensures Recent(rows, limit)[i] == rows[|rows| - 1 - i]
    {
      ReversedAt(window, i);
    }
  }

  /** A positive limit yields the first `limit` rows of the full newest-first history. */
  lemma RecentIsPrefixOfAll(rows: seq<Row>, limit: int)
    requires limit >= 1
    ensures Recent(rows, limit) == Recent(rows, 0)[..Min(limit, |rows|)]
  {
    RecentShape(rows, limit);
    RecentShape(rows, 0);
  }

  /** Row ids are 1, 2, ..., n in row order. */
  predicate NumberedFromOne(rows: seq<Row>) {
    forall i :: 0 <= i < |rows| ==> rows[i].id == i + 1
  }

  predicate IdsIncreasing(rows: seq<Row>) {
    forall i, j :: 0 <= i < j < |rows| ==> rows[i].id < rows[j].id
  }

  /** With increasing ids, the next id is greater than every id in the table. */
  lemma NextIdExceedsAll(rows: seq<Row>)
    requires IdsIncreasing(rows)
    ensures forall i :: 0 <= i < |rows| ==> rows[i].id < NextId(rows)
  {
  }

  lemma AppendKeepsIdsIncreasing(rows: seq<Row>, operation: string, a: int, b: int, result: real, timestamp: string)
    requires IdsIncreasing(rows)
    ensures IdsIncreasing(Appended(rows, operation, a, b, result, timestamp))
  {
    NextIdExceedsAll(rows);
  }

  /** One calculation as `save_calculation` receives it, with the clock reading it would take. */
  datatype Calculation = Calculation(operation: string, a: int, b: int, result: real, timestamp: string)

  /** The rows after saving each calculation in turn. */
  function SaveAll(rows: seq<Row>, calculations: seq<Calculation>): seq<Row>
    decreases |calculations|
  {
    if calculations == [] then rows
    else
      var c := calculations[0];
      SaveAll(Appended(rows, c.operation, c.a, c.b, c.result, c.timestamp), calculations[1..])
  }

  /**
   * When only `save_calculation` writes, a table numbered 1..n stays
   * numbered: every save adds one row, keeps the earlier ones and gets the
   * next number.
   */
  lemma {:induction false} SaveAllNumbersFromOne(rows: seq<Row>, calculations: seq<Calculation>)
    requires NumberedFromOne(rows)
    ensures |SaveAll(rows, calculations)| == |rows| + |calculations|
    ensures SaveAll(rows, calculations)[..|rows|] == rows
    ensures NumberedFromOne(SaveAll(rows, calculations))
    decreases |calculations|
  {
    if calculations != [] {
      var c := calculations[0];
      var next := Appended(rows, c.operation, c.a, c.b, c.result, c.timestamp);
      assert NextId(rows) == |rows| + 1;
      assert NumberedFromOne(next);
      SaveAllNumbersFromOne(next, calculations[1..]);
      assert SaveAll(rows, calculations)[..|next|][..|rows|] == rows;
    }
  }

  /** A missing or empty table that only `save_calculation` writes holds ids 1..n, so ids strictly increase. */
  lemma FreshTableNumbering(file: Option<seq<Row>>, calculations: seq<Calculation>)
    requires Rows(file) == []
    ensures |SaveAll(Rows(file), calculations)| == |calculations|
    ensures forall i :: 0 <= i < |calculations| ==> SaveAll(Rows(file), calculations)[i].id == i + 1
    ensures IdsIncreasing(SaveAll(Rows(file), calculations))
  {
    SaveAllNumbersFromOne([], calculations);
  }

  /** The CSV file, updated in place by the server. */
  class CsvLedger {
    /** None while the file does not exist; otherwise its data rows. */
    var file: Option<seq<Row>>

    constructor (file: Option<seq<Row>>)
      ensures this.file == file
    {
      this.file := file;
    }

    /** `init_csv`: creates a header-only file when there is none, and otherwise leaves the file alone. */
    method InitCsv()
      modifies this
      ensures file.Some? && Rows(file) == Rows(old(file))
      ensures old(file).Some? ==> file == old(file)
    {
      if file.None? {
        file := Some([]);
      }
    }

    /** `save_calculation`: appends exactly one row numbered after the last row. */
    method SaveCalculation(operation: string, a: int, b: int, result: real, now: string)
      modifies this
      ensures file == Some(Appended(Rows(old(file)), operation, a, b, result, now))
    {
      InitCsv();
      var rows := file.value;
      var nextId := 1;
      if rows != [] {
        nextId := rows[|rows| - 1].id + 1;
      }
      file := Some(rows + [Row(nextId, operation, a, b, result, now)]);
    }

    /**
     * `get_calculation_history`: creates the file if needed and returns the
     * newest rows first. A limit that is not an integer (None) makes the
     * slice raise; the error is logged and the history is empty.
     */
    method GetCalculationHistory(limit: Option<int>) returns (history: seq<Row>)
      modifies this
      ensures file == Initialized(old(file))
      ensures history == if limit.Some? then Recent(Rows(old(file)), limit.value) else []
    {
      InitCsv();
      if limit.None? {
        return [];
      }
      history := NewestFirst(file.value, limit.value);
    }
  }

  /** The loop `for row in reversed(rows[-limit:]): history.append(row)`. */
  method NewestFirst(rows: seq<Row>, limit: int) returns (history: seq<Row>)
    ensures history == Recent(rows, limit)
  {
    var window := SuffixFrom(rows, -limit);
    history := [];
    var i := |window|;
    while i > 0
      invariant 0 <= i <= |window|
      invariant history == Reversed(window[i..])
    {
      i := i - 1;
      assert window[i..][1..] == window[i + 1..];
      history := history + [window[i]];
    }
  }
}
