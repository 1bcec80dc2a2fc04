/**
 * The DDL actions (ddl.cpp): CREATE fills a new table and lists its definitions; ALTER edits its private copy of
 * a table while it collects the clauses of the statement.  Random draws are parameters.
 */
module Ddl {
  import opened Wrappers
  import opened Schema
  import opened TableList

  /** A table object that the actions fill and edit in place. */
  class TableObject {
    var name: string
    var columns: seq<Column>

    constructor (name: string, columns: seq<Column>)
      ensures this.name == name && this.columns == columns
    {
      this.name := name;
      this.columns := columns;
    }
  }

  function Names(cols: seq<Column>): (names: seq<string>)
    ensures |names| == |cols|
  {
    seq(|cols|, k requires 0 <= k < |cols| => cols[k].name)
  }

  // ------------------------------------------------------------------ random columns

  /** What randomColumn draws. */
  datatype ColumnDraw = ColumnDraw(name: string, kind: ColumnType, length: nat)

  /** A number in `lo..hi`, both included, from an arbitrary draw. */
  function RandomNumber(lo: nat, hi: nat, draw: nat): (r: nat)
    requires lo <= hi
    ensures lo <= r <= hi
  {
    lo + draw % (hi - lo + 1)
  }

  /** Every number within the bounds can be drawn. */
  lemma EveryNumberCanBeDrawn(lo: nat, hi: nat, x: nat)
    requires lo <= x <= hi
    ensures RandomNumber(lo, hi, x - lo) == x
  {
  }

  function RandomColumn(d: ColumnDraw, forceSerial: bool): Column {
    if forceSerial then Column(d.name, INT, 0, true, true)
    else
      var length := if d.kind == CHAR || d.kind == VARCHAR then RandomNumber(1, 100, d.length) else 0;
      Column(d.name, d.kind, length, false, false)
  }

  /**
   * What a generated column is: the serial INT key, or a plain column of the drawn name and kind, with a length in
   * 1..100 exactly for CHAR and VARCHAR.
   */
  predicate Generated(c: Column, d: ColumnDraw, serial: bool) {
    && c.name == d.name && c.primaryKey == serial && c.autoIncrement == serial
    && c.kind == (if serial then INT else d.kind)
    && (if c.kind == CHAR || c.kind == VARCHAR then 1 <= c.length <= 100 else c.length == 0)
  }

  lemma RandomColumnIsGenerated(d: ColumnDraw, serial: bool)
    ensures Generated(RandomColumn(d, serial), d, serial)
  {
  }

  /** Every length that a CHAR or VARCHAR column may have can be drawn. */
  lemma EveryLengthCanBeDrawn(name: string, kind: ColumnType, length: nat)
    requires (kind == CHAR || kind == VARCHAR) && 1 <= length <= 100
    ensures RandomColumn(ColumnDraw(name, kind, length - 1), false) == Column(name, kind, length, false, false)
  {
    EveryNumberCanBeDrawn(1, 100, length);
  }

  // ------------------------------------------------------------------ CREATE

  /** The definitions of a CREATE TABLE statement. */
  datatype Definition =
    | Serial(name: string)
    | Typed(name: string, kind: ColumnType, length: nat)
    | PrimaryKey(names: seq<string>)

  function NewColumns(draws: seq<ColumnDraw>): seq<Column> {
    seq(|draws|, k requires 0 <= k < |draws| => RandomColumn(draws[k], k == 0))
  }

  /** Every table CREATE builds has the shape the DML statements rely on. */
  lemma NewColumnsAreWellShaped(draws: seq<ColumnDraw>)
    requires |draws| >= 2
    ensures WellShaped(NewColumns(draws))
  {
    assert NewColumns(draws)[0] == RandomColumn(draws[0], true);
  }

  /** Reads a definition list back: the columns it declares. */
  function Declared(defs: seq<Definition>, key: seq<string>): seq<Column> {
    if defs == [] then []
    else
      (match defs[0]
       case Serial(name) => [Column(name, INT, 0, name in key, true)]
       case Typed(name, kind, length) => [Column(name, kind, length, name in key, false)]
       case PrimaryKey(_) => [])
      + Declared(defs[1..], key)
  }

  function KeyOf(defs: seq<Definition>): seq<string> {
    if defs == [] then []
    else (if defs[0].PrimaryKey? then defs[0].names else []) + KeyOf(defs[1..])
  }

  function Definitions(cols: seq<Column>): seq<Definition> {
    seq(|cols|, k requires 0 <= k < |cols| =>
      if cols[k].autoIncrement then Serial(cols[k].name) else Typed(cols[k].name, cols[k].kind, cols[k].length))
  }

  function KeyNames(cols: seq<Column>): seq<string> {
    if cols == [] then []
    else KeyNames(cols[..|cols| - 1]) + (if cols[|cols| - 1].primaryKey then [cols[|cols| - 1].name] else [])
  }

  /** CreateTable::execute up to the statement: fill the table, then list its definitions and its key. */
  method BuildCreate(table: TableObject, name: string, draws: seq<ColumnDraw>) returns (defs: seq<Definition>)
    requires table.columns == []
    modifies table
    ensures table.name == name && table.columns == NewColumns(draws)
    ensures |table.columns| == |draws|
    ensures forall k :: 0 <= k < |draws| ==> Generated(table.columns[k], draws[k], k == 0)
    ensures defs == Definitions(table.columns) +
      (if KeyNames(table.columns) == [] then [] else [PrimaryKey(KeyNames(table.columns))])
  {
    table.name := name;
    var idx := 0;
    while idx < |draws|
      invariant 0 <= idx <= |draws|
      invariant table.name == name && table.columns == NewColumns(draws)[..idx]
    {
      table.columns := table.columns + [RandomColumn(draws[idx], idx == 0)];
      idx := idx + 1;
    }
    defs := [];
    var pkColumns: seq<string> := [];
    var c := 0;
    while c < |table.columns|
      invariant 0 <= c <= |table.columns|
      invariant table.name == name && table.columns == NewColumns(draws)
      invariant defs == Definitions(table.columns)[..c]
      invariant pkColumns == KeyNames(table.columns[..c])
    {
      var col := table.columns[c];
      assert table.columns[..c + 1][..c] == table.columns[..c];
      if col.primaryKey {
        pkColumns := pkColumns + [col.name];
      }
      defs := defs + [if col.autoIncrement then Serial(col.name) else Typed(col.name, col.kind, col.length)];
      c := c + 1;
    }
    assert table.columns[..c] == table.columns;
    if pkColumns != [] {
      defs := defs + [PrimaryKey(pkColumns)];
    }
  }

  lemma {:induction false} PlainColumnsAddNoKey(cols: seq<Column>)
    requires |cols| >= 1 && SerialKey(cols[0]) && forall k :: 1 <= k < |cols| ==> PlainColumn(cols[k])
    ensures KeyNames(cols) == [cols[0].name]
  {
    var n := |cols| - 1;
    if n == 0 {
      assert cols[..n] == [];
    } else {
      PlainColumnsAddNoKey(cols[..n]);
    }
  }

  lemma {:induction false} DeclaredDefinitions(cols: seq<Column>, tail: seq<Definition>, key: seq<string>)
    requires forall k :: 0 <= k < |cols| ==> (cols[k].name in key <==> cols[k].primaryKey)
    requires forall k :: 0 <= k < |cols| ==> cols[k].autoIncrement ==> cols[k].kind == INT && cols[k].length == 0
    ensures Declared(Definitions(cols) + tail, key) == cols + Declared(tail, key)
  {
    var defs := Definitions(cols);
    if cols == [] {
      assert defs + tail == tail;
    } else {
      DeclaredDefinitions(cols[1..], tail, key);
      assert Definitions(cols[1..]) == defs[1..];
      assert defs + tail == [defs[0]] + (defs[1..] + tail);
      DeclaredFirst(cols[0], defs[1..] + tail, key);
      hide Definitions, Declared;
      assert cols == [cols[0]] + cols[1..];
    }
  }

  /** The definition of a column declares the column. */
  lemma DeclaredFirst(c: Column, rest: seq<Definition>, key: seq<string>)
    requires (c.name in key <==> c.primaryKey) && (c.autoIncrement ==> c.kind == INT && c.length == 0)
    ensures Declared(Definitions([c]) + rest, key) == [c] + Declared(rest, key)
    ensures Definitions([c]) == [if c.autoIncrement then Serial(c.name) else Typed(c.name, c.kind, c.length)]
  {
    assert (Definitions([c]) + rest)[1..] == rest;
  }

  lemma {:induction false} KeyOfDefinitions(cols: seq<Column>, tail: seq<Definition>)
    ensures KeyOf(Definitions(cols) + tail) == KeyOf(tail)
  {
    var defs := Definitions(cols);
    if cols == [] {
      assert defs + tail == tail;
    } else {
      KeyOfDefinitions(cols[1..], tail);
      assert Definitions(cols[1..]) == defs[1..];
      assert (defs + tail)[1..] == defs[1..] + tail;
    }
  }

  /** Round trip: the CREATE TABLE statement declares exactly the columns that are stored. */
  lemma CreateStatementDeclaresTheTable(draws: seq<ColumnDraw>)
    requires |draws| >= 2 && Distinct(Names(NewColumns(draws)))
    ensures var cols := NewColumns(draws);
      var defs := Definitions(cols) + [PrimaryKey(KeyNames(cols))];
      KeyNames(cols) == [cols[0].name] && KeyOf(defs) == [cols[0].name] && Declared(defs, KeyOf(defs)) == cols
  {
    var cols := NewColumns(draws);
    var tail := [PrimaryKey(KeyNames(cols))];
    NewColumnsAreWellShaped(draws);
    PlainColumnsAddNoKey(cols);
    KeyOfDefinitions(cols, tail);
    assert KeyOf(tail) == KeyNames(cols) + KeyOf([]);
    forall k | 0 <= k < |cols|
      ensures cols[k].name in [cols[0].name] <==> cols[k].primaryKey
    {
      assert k > 0 ==> Names(cols)[0] != Names(cols)[k];
    }
    DeclaredDefinitions(cols, tail, [cols[0].name]);
    assert Declared(tail, [cols[0].name]) == [] + Declared([], [cols[0].name]);
  }

  // ------------------------------------------------------------------ ALTER

  datatype Command = AddColumn | DropColumn | ChangeColumn | ChangeAccessMethod

  /** What one round of the clause loop draws. */
  datatype Draw = Draw(command: Command, column: ColumnDraw, pick: nat)

  datatype Clause =
    | Add(column: Column)
    | Drop(name: string)
    | Retype(name: string)
    | SetAccessMethod(accessMethod: string)

  /** The variables of the loop: the edited columns, the columns to append, and the access-method flag. */
  datatype Editing = Editing(columns: seq<Column>, added: seq<Column>, changingAm: bool)

  /** The first column that can be retyped. */
  function FirstNumeric(cols: seq<Column>): Option<nat> {
    if cols == [] then None
    else if cols[0].kind == INT || cols[0].kind == REAL then Some(0)
    else match FirstNumeric(cols[1..])
         case None => None
         case Some(k) => Some(k + 1)
  }

  function DropIndex(cols: seq<Column>, pick: nat): nat
    requires |cols| >= 3
  {
    RandomNumber(1, |cols| - 1, pick)
  }

  /** The clause one round emits, if any. */
  function Emitted(e: Editing, d: Draw, methods: seq<string>): seq<Clause>
    requires |methods| > 0
  {
    match d.command
    case AddColumn => [Add(RandomColumn(d.column, false))]
    case DropColumn => if |e.columns| < 3 then [] else [Drop(e.columns[DropIndex(e.columns, d.pick)].name)]
    case ChangeColumn => (
      match FirstNumeric(e.columns)
      case Some(k) => if k < |e.columns| then [Retype(e.columns[k].name)] else []
      case None => [])
    case ChangeAccessMethod =>
      if e.changingAm then [] else [SetAccessMethod(methods[RandomNumber(0, |methods| - 1, d.pick)])]
  }

  function Erase<T>(xs: seq<T>, k: nat): seq<T>
    requires k < |xs|
  {
    xs[..k] + xs[k + 1..]
  }

  /** The edit one round makes. */
  function Edited(e: Editing, d: Draw): Editing {
    match d.command
    case AddColumn => e.(added := e.added + [RandomColumn(d.column, false)])
    case DropColumn => if |e.columns| < 3 then e else e.(columns := Erase(e.columns, DropIndex(e.columns, d.pick)))
    case ChangeColumn => e
    case ChangeAccessMethod => e.(changingAm := true)
  }

  function EditAll(e: Editing, draws: seq<Draw>): Editing
    decreases draws
  {
    if draws == [] then e else EditAll(Edited(e, draws[0]), draws[1..])
  }

  function Clauses(e: Editing, draws: seq<Draw>, methods: seq<string>): seq<Clause>
    requires |methods| > 0
    decreases draws
  {
    if draws == [] then [] else Emitted(e, draws[0], methods) + Clauses(Edited(e, draws[0]), draws[1..], methods)
  }

  /** The column list ALTER stores. */
  function Altered(cols: seq<Column>, draws: seq<Draw>): seq<Column> {
    var e := EditAll(Editing(cols, [], false), draws);
    e.columns + e.added
  }

  /** What the ADD COLUMN rounds draw. */
  function AddDraws(draws: seq<Draw>): seq<ColumnDraw> {
    if draws == [] then []
    else (if draws[0].command == AddColumn then [draws[0].column] else []) + AddDraws(draws[1..])
  }

  /** ALTER appends one generated column for each ADD COLUMN round, in their order. */
  lemma {:induction false} AddedAreGenerated(e: Editing, draws: seq<Draw>)
    ensures var f := EditAll(e, draws); var added := AddDraws(draws);
      && |f.added| == |e.added| + |added| && f.added[..|e.added|] == e.added
      && forall k :: 0 <= k < |added| ==> Generated(f.added[|e.added| + k], added[k], false)
    decreases draws
  {
    if draws != [] {
      var d := draws[0];
      var f := EditAll(e, draws);
      AddedAreGenerated(Edited(e, d), draws[1..]);
      if d.command == AddColumn {
        assert f.added[|e.added|] == Edited(e, d).added[|e.added|];
        assert f.added[..|e.added|] == f.added[..|e.added| + 1][..|e.added|];
        forall k | 0 <= k < |AddDraws(draws)|
          ensures Generated(f.added[|e.added| + k], AddDraws(draws)[k], false)
        {
          if k > 0 {
            assert AddDraws(draws)[k] == AddDraws(draws[1..])[k - 1];
          }
        }
      }
    }
  }

  // ------------------------------------------------------------------ the clauses of an ALTER

  /**
   * What one round emits: ADD COLUMN its generated column; DROP COLUMN one of the columns but the first, if there are
   * three or more; ALTER COLUMN the first INT or REAL column, if there is one; and SET ACCESS METHOD one of the
   * configured methods, unless the statement has one already.
   */
  lemma RoundEmits(e: Editing, d: Draw, methods: seq<string>)
    requires |methods| > 0
    ensures var c := Emitted(e, d, methods);
      match d.command
      case AddColumn => |c| == 1 && c[0].Add? && Generated(c[0].column, d.column, false)
      case DropColumn =>
        if |e.columns| >= 3 then
          |c| == 1 && c[0].Drop? && exists k :: 1 <= k < |e.columns| && e.columns[k].name == c[0].name
        else c == []
      case ChangeColumn =>
        if exists k :: 0 <= k < |e.columns| && Numeric(e.columns[k]) then
          |c| == 1 && c[0].Retype? &&
          exists k :: 0 <= k < |e.columns| && Numeric(e.columns[k]) && e.columns[k].name == c[0].name &&
                      forall j :: 0 <= j < k ==> !Numeric(e.columns[j])
        else c == []
      case ChangeAccessMethod =>
        if e.changingAm then c == [] else |c| == 1 && c[0].SetAccessMethod? && c[0].accessMethod in methods
  {
    match d.command
    case AddColumn =>
    case DropColumn =>
      if |e.columns| >= 3 {
        var k := DropIndex(e.columns, d.pick);
        assert 1 <= k < |e.columns| && e.columns[k].name == Emitted(e, d, methods)[0].name;
      }
    case ChangeColumn => FirstNumericIsFirst(e.columns);
    case ChangeAccessMethod =>
  }

  predicate Numeric(c: Column) { c.kind == INT || c.kind == REAL }

  lemma {:induction false} FirstNumericIsFirst(cols: seq<Column>)
    ensures match FirstNumeric(cols)
      case None => forall k :: 0 <= k < |cols| ==> !Numeric(cols[k])
      case Some(k) => k < |cols| && Numeric(cols[k]) && forall j :: 0 <= j < k ==> !Numeric(cols[j])
  {
    if cols != [] && !Numeric(cols[0]) {
      FirstNumericIsFirst(cols[1..]);
      assert forall k :: 1 <= k < |cols| ==> cols[k] == cols[1..][k - 1];
    }
  }

  /** Any column but the first can be the one that is dropped, and any method the one that is set. */
  lemma AnyChoiceCanBeDrawn(e: Editing, d: Draw, methods: seq<string>, k: nat)
    requires |methods| > 0
    ensures d.command == DropColumn && 1 <= k < |e.columns| && |e.columns| >= 3 ==>
      Emitted(e, d.(pick := k - 1), methods) == [Drop(e.columns[k].name)]
    ensures d.command == ChangeAccessMethod && !e.changingAm && k < |methods| ==>
      Emitted(e, d.(pick := k), methods) == [SetAccessMethod(methods[k])]
  {
    if 1 <= k < |e.columns| {
      EveryNumberCanBeDrawn(1, |e.columns| - 1, k);
    }
    if k < |methods| {
      EveryNumberCanBeDrawn(0, |methods| - 1, k);
    }
  }

  function Rounds(draws: seq<Draw>, command: Command): nat {
    if draws == [] then 0 else (if draws[0].command == command then 1 else 0) + Rounds(draws[1..], command)
  }

  function Retypes(clauses: seq<Clause>): nat {
    if clauses == [] then 0 else (if clauses[0].Retype? then 1 else 0) + Retypes(clauses[1..])
  }

  function Min(a: int, b: int): int { if a < b then a else b }

  lemma SplitRetypes(c: seq<Clause>, rest: seq<Clause>)
    requires |c| <= 1
    ensures Retypes(c + rest) == Retypes(c) + Retypes(rest)
  {
    if c == [] {
      assert c + rest == rest;
    } else {
      assert (c + rest)[1..] == rest && c[1..] == [];
    }
  }

  /**
   * How many clauses of each kind the whole statement has, for a table with a numeric first column (as every generated
   * table has): one ADD for each such round; DROPs until two columns are left; one ALTER COLUMN for each such round;
   * and one SET ACCESS METHOD if any round changes it.
   */
  lemma {:induction false} StatementCounts(e: Editing, draws: seq<Draw>, methods: seq<string>)
    requires |methods| > 0 && |e.columns| >= 2 && Numeric(e.columns[0])
    ensures var c := Clauses(e, draws, methods);
      && |AddedColumns(c)| == Rounds(draws, AddColumn)
      && |DropNames(c)| == Min(Rounds(draws, DropColumn), |e.columns| - 2)
      && Retypes(c) == Rounds(draws, ChangeColumn)
      && AccessMethods(c) == (if e.changingAm then 0 else Min(Rounds(draws, ChangeAccessMethod), 1))
    decreases draws
  {
    if draws != [] {
      var d := draws[0];
      var c := Emitted(e, d, methods);
      var f := Edited(e, d);
      RoundEmits(e, d, methods);
      RoundCounts(e, d, methods);
      hide Emitted, Edited;
      StatementCounts(f, draws[1..], methods);
      Split(c, Clauses(f, draws[1..], methods));
      SplitRetypes(c, Clauses(f, draws[1..], methods));
    }
  }

  lemma RoundCounts(e: Editing, d: Draw, methods: seq<string>)
    requires |methods| > 0 && |e.columns| >= 2 && Numeric(e.columns[0])
    ensures var f := Edited(e, d); var c := Emitted(e, d, methods);
      && |c| <= 1 && |f.columns| >= 2 && f.columns[0] == e.columns[0]
      && |AddedColumns(c)| == (if d.command == AddColumn then 1 else 0)
      && |DropNames(c)| == |e.columns| - |f.columns| == (if d.command == DropColumn && |e.columns| >= 3 then 1 else 0)
      && Retypes(c) == (if d.command == ChangeColumn then 1 else 0)
      && AccessMethods(c) == (if d.command == ChangeAccessMethod && !e.changingAm then 1 else 0)
      && f.changingAm == (e.changingAm || d.command == ChangeAccessMethod)
  {
    var c := Emitted(e, d, methods);
    FirstNumericIsFirst(e.columns);
    if c != [] {
      assert c[1..] == [];
    }
  }

  /** AlterTable::execute between copying the table and sending the statement. */
  method BuildAlter(table: TableObject, draws: seq<Draw>, methods: seq<string>) returns (clauses: seq<Clause>)
    requires |methods| > 0
    modifies table
    ensures table.name == old(table.name)
    ensures table.columns == Altered(old(table.columns), draws)
    ensures var added := AddDraws(draws); var kept := |table.columns| - |added|;
      && 0 <= kept && forall k :: 0 <= k < |added| ==> Generated(table.columns[kept + k], added[k], false)
    ensures clauses == Clauses(Editing(old(table.columns), [], false), draws, methods)
  {
    ghost var start := Editing(table.columns, [], false);
    AddedAreGenerated(start, draws);
    var newColumns: seq<Column> := [];
    var changingAm := false;
    clauses := [];
    var idx := 0;
    assert draws[0..] == draws;
    while idx < |draws|
      invariant 0 <= idx <= |draws| && table.name == old(table.name)
      invariant EditAll(Editing(table.columns, newColumns, changingAm), draws[idx..]) == EditAll(start, draws)
      invariant clauses + Clauses(Editing(table.columns, newColumns, changingAm), draws[idx..], methods)
             == Clauses(start, draws, methods)
    {
      ghost var e := Editing(table.columns, newColumns, changingAm);
      ghost var before := clauses;
      var d := draws[idx];
      OneRound(e, draws, idx, methods, before);
      match d.command {
        case AddColumn =>
          var column := RandomColumn(d.column, false);
          clauses := clauses + [Add(column)];
          newColumns := newColumns + [column];
        case DropColumn =>
          if |table.columns| >= 3 {
            var columnIndex := DropIndex(table.columns, d.pick);
            clauses := clauses + [Drop(table.columns[columnIndex].name)];
            table.columns := table.columns[..columnIndex] + table.columns[columnIndex + 1..];
          }
        case ChangeColumn =>
          var k := FindNumeric(table.columns);
          if k < |table.columns| {
            clauses := clauses + [Retype(table.columns[k].name)];
          }
        case ChangeAccessMethod =>
          if !changingAm {
            clauses := clauses + [SetAccessMethod(methods[RandomNumber(0, |methods| - 1, d.pick)])];
            changingAm := true;
          }
      }
      assert Editing(table.columns, newColumns, changingAm) == Edited(e, d);
      assert clauses == before + Emitted(e, d, methods);
      idx := idx + 1;
    }
    assert draws[idx..] == [];
    table.columns := table.columns + newColumns;
  }

  lemma OneRound(e: Editing, draws: seq<Draw>, idx: nat, methods: seq<string>, before: seq<Clause>)
    requires idx < |draws| && |methods| > 0
    ensures EditAll(e, draws[idx..]) == EditAll(Edited(e, draws[idx]), draws[idx + 1..])
    ensures before + Clauses(e, draws[idx..], methods) ==
      before + Emitted(e, draws[idx], methods) + Clauses(Edited(e, draws[idx]), draws[idx + 1..], methods)
  {
    assert draws[idx..][1..] == draws[idx + 1..];
  }

  /** The inner loop of the retype clause: the first INT or REAL column, or the number of columns. */
  method FindNumeric(cols: seq<Column>) returns (k: nat)
    ensures k <= |cols|
    ensures FirstNumeric(cols) == if k < |cols| then Some(k) else None
    ensures forall j :: 0 <= j < k ==> cols[j].kind != INT && cols[j].kind != REAL
    ensures k < |cols| ==> cols[k].kind == INT || cols[k].kind == REAL
  {
    k := 0;
    while k < |cols|
      invariant 0 <= k <= |cols|
      invariant forall j :: 0 <= j < k ==> cols[j].kind != INT && cols[j].kind != REAL
      invariant FirstNumeric(cols) ==
        match FirstNumeric(cols[k..])
        case None => None
        case Some(j) => Some(j + k)
    {
      if cols[k].kind == INT || cols[k].kind == REAL {
        return;
      }
      assert cols[k..][1..] == cols[k + 1..];
      k := k + 1;
    }
  }

  // ------------------------------------------------------------------ replaying an ALTER statement

  function NewNames(draws: seq<Draw>): seq<string> {
    if draws == [] then []
    else if draws[0].command == AddColumn then [draws[0].column.name] + NewNames(draws[1..])
    else NewNames(draws[1..])
  }

  /** The position of the column with this name. */
  function Position(cols: seq<Column>, name: string): (r: Option<nat>)
    ensures r.Some? ==> r.value < |cols| && cols[r.value].name == name
    ensures r.None? ==> forall k :: 0 <= k < |cols| ==> cols[k].name != name
  {
    if cols == [] then None
    else if cols[0].name == name then Some(0)
    else match Position(cols[1..], name)
         case None => None
         case Some(k) => Some(k + 1)
  }

  /** A server that executes one ADD or DROP clause; None if the statement is in error. */
  function ReplayClause(cols: seq<Column>, c: Clause): Option<seq<Column>> {
    match c
    case Add(column) => if Position(cols, column.name).None? then Some(cols + [column]) else None
    case Drop(name) => (
      match Position(cols, name)
      case Some(k) => Some(Erase(cols, k))
      case None => None)
    case Retype(name) => if Position(cols, name).Some? then Some(cols) else None
    case SetAccessMethod(_) => Some(cols)
  }

  function Replay(cols: seq<Column>, clauses: seq<Clause>): Option<seq<Column>>
    decreases clauses
  {
    if clauses == [] then Some(cols)
    else match ReplayClause(cols, clauses[0])
         case None => None
         case Some(next) => Replay(next, clauses[1..])
  }

  lemma {:induction false} ReplayConcat(cols: seq<Column>, first: seq<Clause>, second: seq<Clause>)
    ensures Replay(cols, first + second) ==
      match Replay(cols, first)
      case None => None
      case Some(next) => Replay(next, second)
    decreases first
  {
    hide ReplayClause;
    if first == [] {
      assert first + second == second;
    } else {
      assert (first + second)[1..] == first[1..] + second;
      if ReplayClause(cols, first[0]).Some? {
        ReplayConcat(ReplayClause(cols, first[0]).value, first[1..], second);
      }
    }
  }

  lemma PositionUnique(cols: seq<Column>, k: nat)
    requires k < |cols| && Distinct(Names(cols))
    ensures Position(cols, cols[k].name) == Some(k)
  {
    var p := Position(cols, cols[k].name);
    NamesDiffer(cols, p.value, k);
  }

  lemma NamesDiffer(cols: seq<Column>, j: nat, k: nat)
    requires j < |cols| && k < |cols| && Distinct(Names(cols))
    ensures j != k ==> cols[j].name != cols[k].name
  {
    if j < k {
      assert Names(cols)[j] != Names(cols)[k];
    } else if k < j {
      assert Names(cols)[k] != Names(cols)[j];
    }
  }

  lemma FirstNumericInRange(cols: seq<Column>)
    ensures FirstNumeric(cols).Some? ==> FirstNumeric(cols).value < |cols|
  {
  }

  lemma DistinctPrefix<T>(q: seq<T>, r: seq<T>)
    requires Distinct(q + r)
    ensures Distinct(q)
  {
    forall j, k | 0 <= j < k < |q|
      ensures q[j] != q[k]
    {
      assert (q + r)[j] != (q + r)[k];
    }
  }

  lemma DistinctErase<T>(q: seq<T>, k: nat)
    requires k < |q| && Distinct(q)
    ensures Distinct(Erase(q, k))
  {
  }

  /** One round: the server and the stored list stay in step. */
  lemma RoundReplays(e: Editing, d: Draw, rest: seq<Draw>, methods: seq<string>)
    requires |methods| > 0 && Distinct(Names(e.columns + e.added) + NewNames([d] + rest))
    ensures var f := Edited(e, d);
      && Replay(e.columns + e.added, Emitted(e, d, methods)) == Some(f.columns + f.added)
      && Distinct(Names(f.columns + f.added) + NewNames(rest))
  {
    DistinctPrefix(Names(e.columns + e.added), NewNames([d] + rest));
    hide Names, Distinct, NewNames, Emitted, Edited, Replay;
    if d.command == AddColumn {
      RoundAdds(e, d, rest, methods);
    } else {
      RoundKeepsNames(e, d, rest);
      RoundEdits(e, d, methods);
    }
  }

  lemma RoundAdds(e: Editing, d: Draw, rest: seq<Draw>, methods: seq<string>)
    requires |methods| > 0 && d.command == AddColumn
    requires Distinct(Names(e.columns + e.added) + NewNames([d] + rest))
    ensures var f := Edited(e, d);
      && Replay(e.columns + e.added, Emitted(e, d, methods)) == Some(f.columns + f.added)
      && Distinct(Names(f.columns + f.added) + NewNames(rest))
  {
    var all := e.columns + e.added;
    var f := Edited(e, d);
    var c := RandomColumn(d.column, false);
    assert ([d] + rest)[1..] == rest;
    assert f.columns + f.added == all + [c];
    var names := Names(all) + NewNames([d] + rest);
    assert names[|all|] == c.name;
    forall k | 0 <= k < |all|
      ensures all[k].name != c.name
    {
      assert names[k] == all[k].name;
    }
    assert Position(all, c.name).None?;
    assert Emitted(e, d, methods)[1..] == [];
    assert Names(all + [c]) + NewNames(rest) == names;
  }

  lemma RoundEdits(e: Editing, d: Draw, methods: seq<string>)
    requires |methods| > 0 && d.command != AddColumn && Distinct(Names(e.columns + e.added))
    ensures var f := Edited(e, d);
      Replay(e.columns + e.added, Emitted(e, d, methods)) == Some(f.columns + f.added)
  {
    var all := e.columns + e.added;
    if d.command == DropColumn && |e.columns| >= 3 {
      var k := DropIndex(e.columns, d.pick);
      assert e.columns[k] == all[k];
      PositionUnique(all, k);
      hide Names, Distinct;
      assert Edited(e, d).columns + e.added == Erase(all, k);
    }
    if d.command == ChangeColumn {
      FirstNumericInRange(e.columns);
      if FirstNumeric(e.columns).Some? {
        assert e.columns[FirstNumeric(e.columns).value] == all[FirstNumeric(e.columns).value];
        PositionUnique(all, FirstNumeric(e.columns).value);
      }
    }
    hide Names, Distinct;
    if Emitted(e, d, methods) != [] {
      assert Emitted(e, d, methods)[1..] == [];
    }
  }

  lemma RoundKeepsNames(e: Editing, d: Draw, rest: seq<Draw>)
    requires d.command != AddColumn && Distinct(Names(e.columns + e.added) + NewNames([d] + rest))
    ensures var f := Edited(e, d); Distinct(Names(f.columns + f.added) + NewNames(rest))
  {
    hide Names, Distinct;
    assert NewNames([d] + rest) == NewNames(rest) by {
      assert ([d] + rest)[1..] == rest;
    }
    hide NewNames;
    RoundErases(e, d);
    hide Edited, Erase;
    var f := Edited(e, d);
    if f.columns + f.added != e.columns + e.added {
      EraseName(e.columns + e.added, DropIndex(e.columns, d.pick), NewNames(rest));
    }
  }

  lemma RoundErases(e: Editing, d: Draw)
    requires d.command != AddColumn
    ensures var f := Edited(e, d);
      || f.columns + f.added == e.columns + e.added
      || (d.command == DropColumn && |e.columns| >= 3 &&
          f.columns + f.added == Erase(e.columns + e.added, DropIndex(e.columns, d.pick)))
  {
    if d.command == DropColumn && |e.columns| >= 3 {
      var k := DropIndex(e.columns, d.pick);
      assert Edited(e, d).columns + e.added == Erase(e.columns + e.added, k);
    }
  }

  lemma EraseName(cols: seq<Column>, k: nat, more: seq<string>)
    requires k < |cols| && Distinct(Names(cols) + more)
    ensures Distinct(Names(Erase(cols, k)) + more)
  {
    DistinctErase(Names(cols) + more, k);
    assert Names(Erase(cols, k)) + more == Erase(Names(cols) + more, k);
  }

  /**
   * Replay: with distinct old names and fresh new names, a server that executes the clauses from left to right on
   * the old columns accepts the statement and ends with exactly the stored columns.
   */
  lemma {:induction false} StatementReplays(e: Editing, draws: seq<Draw>, methods: seq<string>)
    requires |methods| > 0 && Distinct(Names(e.columns + e.added) + NewNames(draws))
    ensures var f := EditAll(e, draws);
      Replay(e.columns + e.added, Clauses(e, draws, methods)) == Some(f.columns + f.added)
    decreases draws
  {
    if draws != [] {
      var d, rest := draws[0], draws[1..];
      assert draws == [d] + rest;
      RoundReplays(e, d, rest, methods);
      StatementReplays(Edited(e, d), rest, methods);
      ReplayConcat(e.columns + e.added, Emitted(e, d, methods), Clauses(Edited(e, d), rest, methods));
    }
  }

  /** The theorem for the action as it is called. */
  lemma AlterReplays(cols: seq<Column>, draws: seq<Draw>, methods: seq<string>)
    requires |methods| > 0 && Distinct(Names(cols) + NewNames(draws))
    ensures Replay(cols, Clauses(Editing(cols, [], false), draws, methods)) == Some(Altered(cols, draws))
  {
    assert cols + [] == cols;
    StatementReplays(Editing(cols, [], false), draws, methods);
  }

  function Drops(clauses: seq<Clause>): seq<Clause> {
    if clauses == [] then [] else (if clauses[0].Drop? then [clauses[0]] else []) + Drops(clauses[1..])
  }

  function AddedColumns(clauses: seq<Clause>): seq<Column> {
    if clauses == [] then [] else (if clauses[0].Add? then [clauses[0].column] else []) + AddedColumns(clauses[1..])
  }

  function DropNames(clauses: seq<Clause>): seq<string> {
    if clauses == [] then [] else (if clauses[0].Drop? then [clauses[0].name] else []) + DropNames(clauses[1..])
  }

  function AccessMethods(clauses: seq<Clause>): nat {
    if clauses == [] then 0 else (if clauses[0].SetAccessMethod? then 1 else 0) + AccessMethods(clauses[1..])
  }

  lemma Split(c: seq<Clause>, rest: seq<Clause>)
    requires |c| <= 1
    ensures Drops(c + rest) == Drops(c) + Drops(rest)
    ensures AddedColumns(c + rest) == AddedColumns(c) + AddedColumns(rest)
    ensures DropNames(c + rest) == DropNames(c) + DropNames(rest)
    ensures AccessMethods(c + rest) == AccessMethods(c) + AccessMethods(rest)
  {
    if c == [] {
      assert c + rest == rest;
    } else {
      assert c == [c[0]] && ([c[0]] + rest)[1..] == rest && [c[0]][1..] == [];
      SplitDrops(c[0], rest);
      SplitAddedColumns(c[0], rest);
      SplitDropNames(c[0], rest);
      SplitAccessMethods(c[0], rest);
    }
  }

  lemma SplitDrops(c: Clause, rest: seq<Clause>)
    requires ([c] + rest)[1..] == rest && [c][1..] == []
    ensures Drops([c] + rest) == Drops([c]) + Drops(rest)
  {
  }

  lemma SplitAddedColumns(c: Clause, rest: seq<Clause>)
    requires ([c] + rest)[1..] == rest && [c][1..] == []
    ensures AddedColumns([c] + rest) == AddedColumns([c]) + AddedColumns(rest)
  {
  }

  lemma SplitDropNames(c: Clause, rest: seq<Clause>)
    requires ([c] + rest)[1..] == rest && [c][1..] == []
    ensures DropNames([c] + rest) == DropNames([c]) + DropNames(rest)
  {
  }

  lemma SplitAccessMethods(c: Clause, rest: seq<Clause>)
    requires ([c] + rest)[1..] == rest && [c][1..] == []
    ensures AccessMethods([c] + rest) == AccessMethods([c]) + AccessMethods(rest)
  {
  }

  lemma NothingReplayed(cols: seq<Column>)
    ensures Replay(cols, Drops([])) == Some(cols)
  {
  }

  lemma OneClauseARound(e: Editing, d: Draw, methods: seq<string>)
    requires |methods| > 0
    ensures |Emitted(e, d, methods)| <= 1
  {
  }

  lemma RoundDrops(e: Editing, d: Draw, methods: seq<string>)
    requires |methods| > 0 && Distinct(Names(e.columns))
    ensures var f := Edited(e, d); var c := Emitted(e, d, methods);
      && |Drops(c)| <= 1 && Replay(e.columns, Drops(c)) == Some(f.columns)
      && f.added == e.added + AddedColumns(c)
      && Distinct(Names(f.columns))
      && (forall name :: name in Names(f.columns) ==> name in Names(e.columns) && name !in DropNames(c))
      && (forall name :: name in DropNames(c) ==> name in Names(e.columns))
      && |DropNames(c)| <= 1
  {
    var c := Emitted(e, d, methods);
    if c != [] {
      assert c[1..] == [];
    }
    if d.command == DropColumn && |e.columns| >= 3 {
      var k := DropIndex(e.columns, d.pick);
      PositionUnique(e.columns, k);
      assert Names(Erase(e.columns, k)) == Erase(Names(e.columns), k);
      DistinctErase(Names(e.columns), k);
      assert Names(e.columns)[k] == e.columns[k].name;
      assert DropNames(c) == [e.columns[k].name];
      assert Drops(c)[1..] == [];
    }
  }

  lemma {:induction false} DropsReplay(e: Editing, draws: seq<Draw>, methods: seq<string>)
    requires |methods| > 0 && Distinct(Names(e.columns))
    ensures Replay(e.columns, Drops(Clauses(e, draws, methods))) == Some(EditAll(e, draws).columns)
    decreases draws
  {
    hide Emitted, Edited, Names, Distinct, ReplayClause, Replay;
    NothingReplayed(e.columns);
    if draws != [] {
      var d := draws[0];
      var rest := Clauses(Edited(e, d), draws[1..], methods);
      OneClauseARound(e, d, methods);
      RoundDrops(e, d, methods);
      DropsReplay(Edited(e, d), draws[1..], methods);
      Split(Emitted(e, d, methods), rest);
      ReplayConcat(e.columns, Drops(Emitted(e, d, methods)), Drops(rest));
    }
  }

  lemma {:induction false} AddsAppend(e: Editing, draws: seq<Draw>, methods: seq<string>)
    requires |methods| > 0
    ensures EditAll(e, draws).added == e.added + AddedColumns(Clauses(e, draws, methods))
    decreases draws
  {
    hide Emitted, Edited;
    if draws != [] {
      var d := draws[0];
      OneClauseARound(e, d, methods);
      RoundAppends(e, d, methods);
      AddsAppend(Edited(e, d), draws[1..], methods);
      Split(Emitted(e, d, methods), Clauses(Edited(e, d), draws[1..], methods));
    }
  }

  lemma RoundAppends(e: Editing, d: Draw, methods: seq<string>)
    requires |methods| > 0
    ensures Edited(e, d).added == e.added + AddedColumns(Emitted(e, d, methods))
  {
    var c := Emitted(e, d, methods);
    if c != [] {
      assert c[1..] == [];
    }
  }

  /** The stored columns are those that survive the drops, followed by those the statement adds. */
  lemma KeptThenAdded(cols: seq<Column>, draws: seq<Draw>, methods: seq<string>)
    requires |methods| > 0 && Distinct(Names(cols))
    ensures var clauses := Clauses(Editing(cols, [], false), draws, methods);
      var kept := Replay(cols, Drops(clauses));
      kept.Some? && Altered(cols, draws) == kept.value + AddedColumns(clauses)
  {
    hide Clauses, EditAll, Drops, AddedColumns, Replay, Names, Distinct;
    DropsReplay(Editing(cols, [], false), draws, methods);
    AddsAppend(Editing(cols, [], false), draws, methods);
  }

  function Adds(clauses: seq<Clause>): seq<Clause> {
    if clauses == [] then [] else (if clauses[0].Add? then [clauses[0]] else []) + Adds(clauses[1..])
  }

  /** Adding columns with fresh, distinct names is accepted and appends them. */
  lemma {:induction false} AddsReplay(cols: seq<Column>, clauses: seq<Clause>)
    requires Distinct(Names(cols + AddedColumns(clauses)))
    ensures Replay(cols, Adds(clauses)) == Some(cols + AddedColumns(clauses))
    decreases clauses
  {
    if clauses == [] {
      assert cols + [] == cols;
    } else if clauses[0].Add? {
      var c := clauses[0].column;
      var all := cols + AddedColumns(clauses);
      var rest := Adds(clauses[1..]);
      assert all == (cols + [c]) + AddedColumns(clauses[1..]);
      forall k | 0 <= k < |cols|
        ensures cols[k].name != c.name
      {
        NamesDiffer(all, k, |cols|);
        assert all[k] == cols[k] && all[|cols|] == c;
      }
      assert Position(cols, c.name).None?;
      assert Adds(clauses) == [clauses[0]] + rest && Adds(clauses)[1..] == rest;
      AddsReplay(cols + [c], clauses[1..]);
    } else {
      assert AddedColumns(clauses) == AddedColumns(clauses[1..]) && Adds(clauses) == Adds(clauses[1..]);
      AddsReplay(cols, clauses[1..]);
    }
  }

  lemma {:induction false} StoredNamesAreDistinct(e: Editing, draws: seq<Draw>, methods: seq<string>)
    requires |methods| > 0 && Distinct(Names(e.columns + e.added) + NewNames(draws))
    ensures var f := EditAll(e, draws); Distinct(Names(f.columns + f.added))
    decreases draws
  {
    if draws == [] {
      assert Names(e.columns + e.added) + NewNames(draws) == Names(e.columns + e.added);
    } else {
      hide Names, Distinct, NewNames, Emitted, Edited, Replay;
      assert draws == [draws[0]] + draws[1..];
      RoundReplays(e, draws[0], draws[1..], methods);
      StoredNamesAreDistinct(Edited(e, draws[0]), draws[1..], methods);
    }
  }

  /**
   * A server that executes all drops of the statement first and then all adds accepts it as well, and also ends with
   * exactly the stored columns.
   */
  lemma DropsThenAdds(cols: seq<Column>, draws: seq<Draw>, methods: seq<string>)
    requires |methods| > 0 && Distinct(Names(cols) + NewNames(draws))
    ensures var clauses := Clauses(Editing(cols, [], false), draws, methods);
      Replay(cols, Drops(clauses) + Adds(clauses)) == Some(Altered(cols, draws))
  {
    var clauses := Clauses(Editing(cols, [], false), draws, methods);
    assert cols + [] == cols;
    DistinctPrefix(Names(cols), NewNames(draws));
    hide Clauses, EditAll, Drops, Adds, AddedColumns, Replay, Names, Distinct, NewNames;
    StoredNamesAreDistinct(Editing(cols, [], false), draws, methods);
    KeptThenAdded(cols, draws, methods);
    var kept := Replay(cols, Drops(clauses)).value;
    AddsReplay(kept, clauses);
    ReplayConcat(cols, Drops(clauses), Adds(clauses));
  }

  lemma DistinctConcat<T>(q: seq<T>, r: seq<T>)
    requires |q| <= 1 && Distinct(r) && forall x :: x in q ==> x !in r
    ensures Distinct(q + r)
  {
    forall j, k | 0 <= j < k < |q + r|
      ensures (q + r)[j] != (q + r)[k]
    {
      if j < |q| {
        assert q[j] in q && (q + r)[k] in r;
      } else {
        assert r[j - |q|] != r[k - |q|];
      }
    }
  }

  /** Every column is dropped at most once, and only columns the table had before the statement are dropped. */
  lemma {:induction false} DropsAreOldAndDistinct(e: Editing, draws: seq<Draw>, methods: seq<string>)
    requires |methods| > 0 && Distinct(Names(e.columns))
    ensures var names := DropNames(Clauses(e, draws, methods));
      Distinct(names) && forall name :: name in names ==> name in Names(e.columns)
    decreases draws
  {
    hide Emitted, Edited, Names, Distinct;
    if draws != [] {
      var d := draws[0];
      var c := Emitted(e, d, methods);
      var rest := Clauses(Edited(e, d), draws[1..], methods);
      OneClauseARound(e, d, methods);
      RoundDrops(e, d, methods);
      DropsAreOldAndDistinct(Edited(e, d), draws[1..], methods);
      Split(c, rest);
      DistinctConcat(DropNames(c), DropNames(rest));
    } else {
      NothingDistinct();
    }
  }

  lemma NothingDistinct()
    ensures Distinct<string>([])
  {
  }

  /** At most one clause changes the access method. */
  lemma {:induction false} OneAccessMethod(e: Editing, draws: seq<Draw>, methods: seq<string>)
    requires |methods| > 0
    ensures AccessMethods(Clauses(e, draws, methods)) <= if e.changingAm then 0 else 1
    decreases draws
  {
    if draws != [] {
      var d := draws[0];
      var c := Emitted(e, d, methods);
      Split(c, Clauses(Edited(e, d), draws[1..], methods));
      OneAccessMethod(Edited(e, d), draws[1..], methods);
      if c != [] {
        assert c[1..] == [];
      }
    }
  }

  /** No DROP or ALTER COLUMN clause names a column that the same statement adds. */
  lemma {:induction false} NewColumnsAreUntouched(e: Editing, draws: seq<Draw>, methods: seq<string>, k: nat)
    requires |methods| > 0 && Distinct(Names(e.columns)) && k < |Clauses(e, draws, methods)|
    ensures var c := Clauses(e, draws, methods)[k];
      (c.Drop? ==> c.name in Names(e.columns)) && (c.Retype? ==> c.name in Names(e.columns))
    decreases draws
  {
    hide Emitted, Edited, Names, Distinct;
    var d := draws[0];
    var c := Emitted(e, d, methods);
    RoundDrops(e, d, methods);
    if k < |c| {
      RoundTouchesOldColumns(e, d, methods, k);
    } else {
      NewColumnsAreUntouched(Edited(e, d), draws[1..], methods, k - |c|);
    }
  }

  lemma RoundTouchesOldColumns(e: Editing, d: Draw, methods: seq<string>, k: nat)
    requires |methods| > 0 && k < |Emitted(e, d, methods)|
    ensures var c := Emitted(e, d, methods)[k];
      (c.Drop? ==> c.name in Names(e.columns)) && (c.Retype? ==> c.name in Names(e.columns))
  {
    var c := Emitted(e, d, methods)[k];
    FirstNumericInRange(e.columns);
    if c.Retype? {
      assert Names(e.columns)[FirstNumeric(e.columns).value] == c.name;
    }
    if c.Drop? {
      assert Names(e.columns)[DropIndex(e.columns, d.pick)] == c.name;
    }
  }

  // ------------------------------------------------------------------ shape

  lemma RoundKeepsShape(e: Editing, d: Draw)
    requires WellShaped(e.columns) && forall k :: 0 <= k < |e.added| ==> PlainColumn(e.added[k])
    ensures var f := Edited(e, d);
      && WellShaped(f.columns) && f.columns[0] == e.columns[0]
      && forall k :: 0 <= k < |f.added| ==> PlainColumn(f.added[k])
  {
  }

  lemma {:induction false} EditingKeepsShape(e: Editing, draws: seq<Draw>)
    requires WellShaped(e.columns) && forall k :: 0 <= k < |e.added| ==> PlainColumn(e.added[k])
    ensures var f := EditAll(e, draws);
      && WellShaped(f.columns) && f.columns[0] == e.columns[0]
      && forall k :: 0 <= k < |f.added| ==> PlainColumn(f.added[k])
    decreases draws
  {
    if draws != [] {
      RoundKeepsShape(e, draws[0]);
      EditingKeepsShape(Edited(e, draws[0]), draws[1..]);
    }
  }

  /** ALTER keeps the table shape, and never touches the key column. */
  lemma AlterKeepsShape(cols: seq<Column>, draws: seq<Draw>)
    requires WellShaped(cols)
    ensures WellShaped(Altered(cols, draws)) && Altered(cols, draws)[0] == cols[0]
  {
    EditingKeepsShape(Editing(cols, [], false), draws);
  }

  /** On a well-shaped table, ALTER COLUMN clauses name only the key column. */
  lemma {:induction false} OnlyTheKeyIsRetyped(e: Editing, draws: seq<Draw>, methods: seq<string>, k: nat)
    requires |methods| > 0 && WellShaped(e.columns)
    requires forall j :: 0 <= j < |e.added| ==> PlainColumn(e.added[j])
    requires k < |Clauses(e, draws, methods)| && Clauses(e, draws, methods)[k].Retype?
    ensures Clauses(e, draws, methods)[k].name == e.columns[0].name
    decreases draws
  {
    var d := draws[0];
    var c := Emitted(e, d, methods);
    assert FirstNumeric(e.columns) == Some(0);
    RoundKeepsShape(e, d);
    if k >= |c| {
      OnlyTheKeyIsRetyped(Edited(e, d), draws[1..], methods, k - |c|);
    }
  }
}
