/** Table definitions as the directory stores them (metadata.hpp, `Column` and `Table`). */
module Schema {

  datatype ColumnType = INT | CHAR | VARCHAR | REAL | BOOL | BYTEA | TEXT

  datatype Column = Column(
    name: string,
    kind: ColumnType,
    length: nat,
    primaryKey: bool,
    autoIncrement: bool)

  datatype Table = Table(name: string, columns: seq<Column>)

  /** The value-initialised table a CREATE reservation starts from. */
  const EMPTY_TABLE := Table("", [])

  /** The serial key column every generated table starts with. */
  predicate SerialKey(c: Column) {
    c.kind == INT && c.primaryKey && c.autoIncrement
  }

  predicate PlainColumn(c: Column) {
    !c.primaryKey && !c.autoIncrement
  }

  /** What the DML statements silently rely on. */
  predicate WellShaped(columns: seq<Column>) {
    && |columns| >= 2
    && SerialKey(columns[0])
    && forall k :: 1 <= k < |columns| ==> PlainColumn(columns[k])
  }
}
