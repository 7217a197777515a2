/** The SQLite database the backend writes to, reduced to what the podcast
    code relies on: named tables of rows, each row with a generated ROWID, and
    INSERT statements that either fail or append one row and report its ROWID. */
module SqlStore {

  import opened Sql

  /** One stored row: its ROWID and one value per column of the table. */
  datatype StoredRow = StoredRow(rowid: int, values: seq<Value>)

  /** A table: its columns in schema order, its rows in storage order, and the
      ROWID the next insert receives. */
  datatype Table = Table(columns: seq<string>, rows: seq<StoredRow>, nextRowId: int)

  /** ROWIDs are positive, increase along the table, and stay below the counter;
      every row has one value per column. */
  ghost predicate TableValid(t: Table)
  {
    && t.nextRowId >= 1
    && (forall i :: 0 <= i < |t.rows| ==> 1 <= t.rows[i].rowid < t.nextRowId && |t.rows[i].values| == |t.columns|)
    && (forall i, j :: 0 <= i < j < |t.rows| ==> t.rows[i].rowid < t.rows[j].rowid)
  }

  ghost predicate TablesValid(tables: map<string, Table>)
  {
    forall name :: name in tables ==> TableValid(tables[name])
  }

  /** The values an INSERT stores: the value bound to each placeholder in turn,
      NULL for a placeholder nothing was bound to. */
  function StoredValues(placeholders: seq<string>, bindings: map<string, Value>): (values: seq<Value>)
    ensures |values| == |placeholders|
  {
    seq(|placeholders|, i requires 0 <= i < |placeholders| =>
      if placeholders[i] in bindings then bindings[placeholders[i]] else Null)
  }

  /** The table after one more row, which takes the next ROWID. */
  function Appended(t: Table, values: seq<Value>): Table
  {
    t.(rows := t.rows + [StoredRow(t.nextRowId, values)], nextRowId := t.nextRowId + 1)
  }

  /** Appending a full row keeps a table valid, and the new ROWID is larger than
      every ROWID already stored. */
  lemma AppendedValid(t: Table, values: seq<Value>)
    requires TableValid(t)
    requires |values| == |t.columns|
    ensures TableValid(Appended(t, values))
    ensures forall i :: 0 <= i < |t.rows| ==> t.rows[i].rowid < Appended(t, values).rows[|t.rows|].rowid
  {
  }

  /** SQLite prepares the statement and it fits the table: the table exists,
      the statement names its columns in schema order and gives one
      placeholder per column. */
  predicate Accepts(tables: map<string, Table>, sql: string)
  {
    var plan := ParseInsert(sql);
    && plan.Some?
    && plan.value.table in tables
    && tables[plan.value.table].columns == plan.value.columns
    && |plan.value.placeholders| == |plan.value.columns|
  }

  /** The tables after an accepted INSERT with the given bindings. */
  function AfterInsert(tables: map<string, Table>, sql: string, bindings: map<string, Value>): map<string, Table>
    requires Accepts(tables, sql)
  {
    var plan := ParseInsert(sql).value;
    tables[plan.table := Appended(tables[plan.table], StoredValues(plan.placeholders, bindings))]
  }

  /** An INSERT whose plan fits the tables is accepted, and appends the bound
      values to the table the plan names. */
  lemma InsertByPlan(tables: map<string, Table>, sql: string, plan: InsertPlan, bindings: map<string, Value>)
    requires ParseInsert(sql) == Some(plan)
    requires plan.table in tables && tables[plan.table].columns == plan.columns
    requires |plan.placeholders| == |plan.columns|
    ensures Accepts(tables, sql)
    ensures AfterInsert(tables, sql, bindings)
         == tables[plan.table := Appended(tables[plan.table], StoredValues(plan.placeholders, bindings))]
  {
  }

  /** Replacing one table by a valid one keeps every table valid. */
  lemma ReplacedValid(tables: map<string, Table>, name: string, t: Table)
    requires TablesValid(tables)
    requires TableValid(t)
    ensures TablesValid(tables[name := t])
  {
  }

  /** The result row of `SELECT ROWID, <all columns>`: the ROWID, then the columns. */
  function ResultRow(r: StoredRow): seq<Value>
  {
    [Integer(r.rowid)] + r.values
  }

  /** The ROWID the next row of the named table receives (1 in a table not yet created). */
  function NextRowId(tables: map<string, Table>, name: string): int
  {
    if name in tables then tables[name].nextRowId else 1
  }

  /** A connection to the podcast database. */
  class Database {
    var tables: map<string, Table>

    ghost predicate Valid()
      reads this
    {
      TablesValid(tables)
    }

    /** Opens a database whose tables follow the given schema and are empty. */
    constructor(schema: map<string, seq<string>>)
      ensures Valid()
      ensures tables.Keys == schema.Keys
      ensures forall name :: name in schema ==> tables[name] == Table(schema[name], [], 1)
    {
      tables := map name | name in schema :: Table(schema[name], [], 1);
    }

    /** QSqlQuery::exec on an INSERT followed by CheckErrors and lastInsertId.
        `fault` stands for every failure this model does not compute (a
        constraint, the disk, the connection): with it, or with a statement
        SQLite refuses, nothing changes and `ok` is false. */
    method ExecInsert(sql: string, bindings: map<string, Value>, fault: bool) returns (ok: bool, rowid: int)
      requires Valid()
      modifies this
      ensures Valid()
      ensures ok == (!fault && Accepts(old(tables), sql))
      ensures !ok ==> tables == old(tables)
      ensures ok ==> rowid == old(tables)[ParseInsert(sql).value.table].nextRowId
      ensures ok ==> tables == AfterInsert(old(tables), sql, bindings)
    {
      ok := !fault && Accepts(tables, sql);
      rowid := 0;
      if ok {
        var plan := ParseInsert(sql).value;
        var t := tables[plan.table];
        AppendedValid(t, StoredValues(plan.placeholders, bindings));
        rowid := t.nextRowId;
        tables := tables[plan.table := Appended(t, StoredValues(plan.placeholders, bindings))];
      }
    }
  }
}
