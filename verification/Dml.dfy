/** The DML statements (dml.cpp) as consumers of the table shape; statements are column lists. */
module Dml {
  import opened Schema
  import opened Ddl

  /** INSERT: the listed columns and, for every row, the columns a value is generated for. */
  datatype Insert = Insert(table: string, columns: seq<string>, rows: seq<seq<string>>)

  /** UPDATE: the assigned columns and the column of the WHERE clause. */
  datatype Update = Update(table: string, columns: seq<string>, key: string)

  /** The columns that are not filled by the server. */
  function Written(cols: seq<Column>): seq<string> {
    if cols == [] then []
    else Written(cols[..|cols| - 1]) + (if cols[|cols| - 1].autoIncrement then [] else [cols[|cols| - 1].name])
  }

  lemma {:induction false} WrittenOfWellShaped(cols: seq<Column>)
    requires |cols| >= 1 && SerialKey(cols[0]) && forall k :: 1 <= k < |cols| ==> PlainColumn(cols[k])
    ensures Written(cols) == Names(cols[1..])
  {
    var n := |cols| - 1;
    if n == 0 {
      assert cols[..n] == [];
    } else {
      WrittenOfWellShaped(cols[..n]);
      assert cols[1..] == cols[..n][1..] + [cols[n]];
    }
  }

  /** One column list of a statement: skip the auto-increment columns. */
  method ListWritten(cols: seq<Column>) returns (names: seq<string>)
    ensures names == Written(cols)
    ensures WellShaped(cols) ==> names == Names(cols[1..]) && |names| >= 1
  {
    names := [];
    var k := 0;
    while k < |cols|
      invariant 0 <= k <= |cols| && names == Written(cols[..k])
    {
      assert cols[..k + 1][..k] == cols[..k];
      if !cols[k].autoIncrement {
        names := names + [cols[k].name];
      }
      k := k + 1;
    }
    assert cols[..k] == cols;
    if WellShaped(cols) {
      WrittenOfWellShaped(cols);
    }
  }

  /** InsertData::execute on a chosen table. */
  method BuildInsert(table: Table, rows: nat) returns (stmt: Insert)
    ensures stmt.table == table.name && stmt.columns == Written(table.columns) && |stmt.rows| == rows
    ensures forall k :: 0 <= k < rows ==> stmt.rows[k] == stmt.columns
    ensures WellShaped(table.columns) ==> stmt.columns == Names(table.columns[1..]) && |stmt.columns| >= 1
  {
    var columns := ListWritten(table.columns);
    var values: seq<seq<string>> := [];
    var idx := 0;
    while idx < rows
      invariant 0 <= idx <= rows && |values| == idx
      invariant forall k :: 0 <= k < idx ==> values[k] == columns
    {
      var row := ListWritten(table.columns);
      values := values + [row];
      idx := idx + 1;
    }
    stmt := Insert(table.name, columns, values);
  }

  /** UpdateOneRow::execute: every column but the key is assigned, and the row is chosen by the key. */
  method BuildUpdate(table: Table) returns (stmt: Update)
    requires table.columns != []
    ensures stmt.table == table.name && stmt.columns == Written(table.columns) && stmt.key == table.columns[0].name
    ensures WellShaped(table.columns) ==>
      KeyNames(table.columns) == [stmt.key] && stmt.columns == Names(table.columns[1..]) && |stmt.columns| >= 1
  {
    var columns := ListWritten(table.columns);
    if WellShaped(table.columns) {
      PlainColumnsAddNoKey(table.columns);
    }
    stmt := Update(table.name, columns, table.columns[0].name);
  }

  /** DeleteData::execute: rows are chosen by the first column, which is exactly the table's primary key. */
  method DeleteKey(table: Table) returns (key: string)
    requires table.columns != []
    ensures key == table.columns[0].name
    ensures WellShaped(table.columns) ==> KeyNames(table.columns) == [key]
  {
    key := table.columns[0].name;
    if WellShaped(table.columns) {
      PlainColumnsAddNoKey(table.columns);
    }
  }
}
