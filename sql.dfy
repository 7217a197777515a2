/** The Qt value types that the podcast records hold, and the codecs that turn
    them into column values. The codecs (QUrl::toEncoded/fromEncoded,
    QDateTime::toTime_t/fromTime_t and the QDataStream form of a QVariantMap)
    are external to this model, so they are a parameter. */
module QtTypes {

  type Bytes = seq<bv8>

  /** A QUrl, held as its text. */
  datatype Url = Url(text: string)

  /** What a default-constructed QUrl holds. */
  const EmptyUrl := Url("")

  /** A QDateTime: the null date a default-constructed one holds, or an
      instant, in whole seconds since the epoch (the resolution the episode
      table stores it in). */
  datatype DateTime = NullDateTime | DateTime(secsSinceEpoch: int)

  /** An instant toTime_t can return: not null, not before the epoch, and
      within what the stored int holds once read back with toInt(). A null
      date, or one before the epoch, converts to the error value uint(-1);
      one later than that bound does not fit the int it is read back into. */
  predicate Representable(t: DateTime)
  {
    t.DateTime? && 0 <= t.secsSinceEpoch < 0x8000_0000
  }

  /** The kinds of QVariant an `extra` map holds; InvalidVariant is QVariant(). */
  datatype Variant = InvalidVariant | VBool(b: bool) | VInt(i: int) | VString(s: string) | VBytes(bytes: Bytes)

  /** A QVariantMap. */
  type VariantMap = map<string, Variant>

  /** QVariantMap's const operator[]: the stored value, or QVariant() for a
      missing key (the const form does not insert the key). */
  function ValueOf(m: VariantMap, key: string): Variant
  {
    if key in m then m[key] else InvalidVariant
  }

  /** The three codecs the records use to store their Qt-typed fields. */
  datatype Codecs = Codecs(
    urlToEncoded: Url -> Bytes, urlFromEncoded: Bytes -> Url,
    toTimeT: DateTime -> int, fromTimeT: int -> DateTime,
    writeMap: VariantMap -> Bytes, readMap: Bytes -> VariantMap)
  {
    /** Each codec gives back what it was given; the time codec only for the
        instants toTime_t can represent. */
    ghost predicate Lossless()
    {
      && (forall u :: urlFromEncoded(urlToEncoded(u)) == u)
      && (forall t :: Representable(t) ==> fromTimeT(toTimeT(t)) == t)
      && (forall m :: readMap(writeMap(m)) == m)
    }
  }
}

/** The part of Qt's SQL layer the podcast code touches: column values, the
    string lists that spell column and placeholder lists, a query's named
    bindings, and the shape of an INSERT statement. */
module Sql {

  import opened QtTypes

  datatype Option<T> = None | Some(value: T)

  /** A value bound to a placeholder or read from a result column. */
  datatype Value = Null | Integer(i: int) | Text(s: string) | Blob(bytes: Bytes) | Boolean(b: bool)

  // QVariant's conversions, for the kinds the tables store.

  function ToInt(v: Value): int
  {
    match v
    case Integer(i) => i
    case Boolean(b) => if b then 1 else 0
    case _ => 0
  }

  function ToText(v: Value): string
  {
    match v
    case Text(s) => s
    case _ => ""
  }

  function ToBytes(v: Value): Bytes
  {
    match v
    case Blob(b) => b
    case _ => []
  }

  function ToBool(v: Value): bool
  {
    match v
    case Boolean(b) => b
    case Integer(i) => i != 0
    case _ => false
  }

  /** QSqlQuery::value(i): column i of the current row, or an invalid value. */
  function ValueAt(row: seq<Value>, i: nat): Value
  {
    if i < |row| then row[i] else Null
  }

  /** The separator QStringList::join is given by the podcast code. */
  const Separator := ", "

  /** QStringList::join(", "). */
  function Join(names: seq<string>): string
  {
    if |names| == 0 then ""
    else if |names| == 1 then names[0]
    else names[0] + Separator + Join(names[1..])
  }

  /** Utilities::Prepend: every name with the prefix put in front. */
  function Prepend(prefix: string, names: seq<string>): (r: seq<string>)
    ensures |r| == |names|
    ensures forall i :: 0 <= i < |names| ==> r[i] == prefix + names[i]
  {
    seq(|names|, i requires 0 <= i < |names| => prefix + names[i])
  }

  /** The position of the first `c` in `s`, or |s| when there is none. */
  function IndexOf(s: string, c: char): (k: nat)
    ensures k <= |s|
    ensures forall i :: 0 <= i < k ==> s[i] != c
    ensures k < |s| ==> s[k] == c
    decreases |s|
  {
    if |s| == 0 then 0
    else if s[0] == c then 0
    else 1 + IndexOf(s[1..], c)
  }

  /** Cuts a comma-separated list back into its names (the inverse of Join). */
  function Split(s: string): (parts: seq<string>)
    ensures |parts| >= 1
    decreases |s|
  {
    var k := IndexOf(s, ',');
    if k == |s| then [s]
    else if k + 1 < |s| && s[k + 1] == ' ' then [s[..k]] + Split(s[k + 2..])
    else [s[..k]] + Split(s[k + 1..])
  }

  /** No name in the list contains `c`. */
  predicate Avoids(names: seq<string>, c: char)
  {
    forall i :: 0 <= i < |names| ==> c !in names[i]
  }

  lemma IndexOfFirst(x: string, c: char, y: string)
    requires c !in x
    ensures IndexOf(x + [c] + y, c) == |x|
  {
    var s := x + [c] + y;
    assert s[|x|] == c;
  }

  /** A character that is in no name and not in the separator is not in the joined list. */
  lemma {:induction false} JoinAvoids(names: seq<string>, c: char)
    requires Avoids(names, c)
    requires c !in Separator
    ensures c !in Join(names)
    decreases |names|
  {
    if |names| > 1 {
      JoinAvoids(names[1..], c);
      assert Avoids(names[1..], c) by {
        forall i | 0 <= i < |names[1..]| ensures c !in names[1..][i] {
          assert names[1..][i] == names[i + 1];
        }
      }
    }
  }

  /** Join loses nothing: a non-empty list of comma-free names is recovered by Split. */
  lemma {:induction false} SplitJoin(names: seq<string>)
    requires |names| >= 1
    requires Avoids(names, ',')
    ensures Split(Join(names)) == names
    decreases |names|
  {
    var x := names[0];
    if |names| == 1 {
    } else {
      var rest := Join(names[1..]);
      var s := Join(names);
      assert s == x + [','] + (" " + rest);
      IndexOfFirst(x, ',', " " + rest);
      assert s[..|x|] == x;
      assert s[|x| + 1] == ' ';
      assert s[|x| + 2..] == rest;
      assert Avoids(names[1..], ',') by {
        forall i | 0 <= i < |names[1..]| ensures ',' !in names[1..][i] {
          assert names[1..][i] == names[i + 1];
        }
      }
      SplitJoin(names[1..]);
      assert names == [x] + names[1..];
    }
  }

  /** Prefixing names with text free of c keeps them free of c. */
  lemma PrependAvoids(prefix: string, names: seq<string>, c: char)
    requires c !in prefix && Avoids(names, c)
    ensures Avoids(Prepend(prefix, names), c)
  {
    forall i | 0 <= i < |names| ensures c !in Prepend(prefix, names)[i] {
      assert Prepend(prefix, names)[i] == prefix + names[i];
    }
  }

  /** A non-empty list joins to text that starts with its first name. */
  lemma JoinStartsWithFirst(names: seq<string>)
    requires |names| >= 1
    ensures |Join(names)| >= |names[0]|
    ensures Join(names)[..|names[0]|] == names[0]
  {
  }

  /** A QSqlQuery's named bindings (QSqlQuery::bindValue). */
  class Query {
    var bindings: map<string, Value>

    constructor()
      ensures bindings == map[]
    {
      bindings := map[];
    }

    /** Binding a name again replaces its value; other names keep theirs. */
    method BindValue(placeholder: string, v: Value)
      modifies this
      ensures bindings == old(bindings)[placeholder := v]
    {
      bindings := bindings[placeholder := v];
    }
  }

  /** Binding one more name on top of a set of bindings is binding it in that set. */
  lemma BindOnTop(m: map<string, Value>, b: map<string, Value>, k: string, v: Value)
    ensures (m + b)[k := v] == m + b[k := v]
  {
  }

  /** What a well-formed `INSERT INTO t (c1, c2) VALUES (:p1, :p2)` asks for. */
  datatype InsertPlan = InsertPlan(table: string, columns: seq<string>, placeholders: seq<string>)

  const InsertInto := "INSERT INTO "
  const ValuesClause := ") VALUES ("

  /** An INSERT statement whose value list is parenthesised, as SQLite's grammar requires. */
  function InsertSql(table: string, columnSpec: string, bindSpec: string): string
  {
    InsertInto + (table + (" (" + (columnSpec + (ValuesClause + (bindSpec + ")")))))
  }

  /** Reads an INSERT statement of the shape InsertSql builds; None for any
      other text, which SQLite refuses to prepare. */
  function ParseInsert(sql: string): Option<InsertPlan>
  {
    if |InsertInto| <= |sql| && sql[..|InsertInto|] == InsertInto then ParseTarget(sql[|InsertInto|..])
    else None
  }

  /** `t (...`: the table name runs up to the first space, then a parenthesis opens the column list. */
  function ParseTarget(r: string): Option<InsertPlan>
  {
    var k := IndexOf(r, ' ');
    if k + 1 < |r| && r[k + 1] == '(' then ParseColumns(r[..k], r[k + 2..]) else None
  }

  /** `c1, c2) VALUES (...`: the column list runs up to the first closing parenthesis. */
  function ParseColumns(table: string, r: string): Option<InsertPlan>
  {
    var j := IndexOf(r, ')');
    if j < |r| then ParseValues(table, r[..j], r[j..]) else None
  }

  /** `) VALUES (:p1, :p2)`: the placeholder list stands between parentheses. */
  function ParseValues(table: string, columnSpec: string, r: string): Option<InsertPlan>
  {
    if |ValuesClause| < |r| && r[..|ValuesClause|] == ValuesClause && r[|r| - 1] == ')' then
      Some(InsertPlan(table, Split(columnSpec), Split(r[|ValuesClause|..|r| - 1])))
    else None
  }

  /** The statement InsertSql builds from joined lists is read back as exactly those lists. */
  lemma ParseInsertSql(table: string, columns: seq<string>, placeholders: seq<string>)
    requires ' ' !in table
    requires |columns| >= 1 && Avoids(columns, ',') && Avoids(columns, ')')
    requires |placeholders| >= 1 && Avoids(placeholders, ',')
    ensures ParseInsert(InsertSql(table, Join(columns), Join(placeholders)))
         == Some(InsertPlan(table, columns, placeholders))
  {
    var cs, bs := Join(columns), Join(placeholders);
    var r3 := ValuesClause + (bs + ")");
    assert r3[..|ValuesClause|] == ValuesClause;
    assert r3[|ValuesClause|..|r3| - 1] == bs;
    SplitJoin(columns);
    SplitJoin(placeholders);
    assert ParseValues(table, cs, r3) == Some(InsertPlan(table, columns, placeholders));
    JoinAvoids(columns, ')');
    assert r3[0] == ')';
    ParseTargetOf(table, cs, r3);
    ParseInsertOf(table + (" (" + (cs + r3)));
  }

  /** The keyword prefix is stripped and the rest handed on. */
  lemma ParseInsertOf(r: string)
    ensures ParseInsert(InsertInto + r) == ParseTarget(r)
  {
    var sql := InsertInto + r;
    assert sql[..|InsertInto|] == InsertInto;
    assert sql[|InsertInto|..] == r;
  }

  /** `t (cs` followed by text that starts with `)`: the table is t and the column list cs. */
  lemma ParseTargetOf(table: string, columnSpec: string, tail: string)
    requires ' ' !in table
    requires ')' !in columnSpec
    requires |tail| >= 1 && tail[0] == ')'
    ensures ParseTarget(table + (" (" + (columnSpec + tail))) == ParseValues(table, columnSpec, tail)
  {
    var r := table + (" (" + (columnSpec + tail));
    var r2 := columnSpec + tail;
    assert r == table + [' '] + ("(" + r2);
    IndexOfFirst(table, ' ', "(" + r2);
    assert r[|table| + 1] == '(';
    assert r[|table| + 2..] == r2;
    assert r[..|table|] == table;
    assert r2 == columnSpec + [')'] + tail[1..];
    IndexOfFirst(columnSpec, ')', tail[1..]);
    assert r2[..|columnSpec|] == columnSpec;
    assert r2[|columnSpec|..] == tail;
  }

  /** An INSERT whose value list is written without parentheses. */
  function InsertSqlUnparenthesized(table: string, columnSpec: string, bindSpec: string): string
  {
    InsertInto + (table + (" (" + (columnSpec + (") VALUES " + bindSpec))))
  }

  /** Such a statement is not an INSERT SQLite can prepare when the value list
      starts with a placeholder rather than a parenthesis. */
  lemma ParseRejectsUnparenthesized(table: string, columns: seq<string>, bindSpec: string)
    requires ' ' !in table
    requires |columns| >= 1 && Avoids(columns, ')')
    requires |bindSpec| >= 1 && bindSpec[0] != '('
    ensures ParseInsert(InsertSqlUnparenthesized(table, Join(columns), bindSpec)) == None
  {
    var cs := Join(columns);
    var r3 := ") VALUES " + bindSpec;
    JoinAvoids(columns, ')');
    assert r3[0] == ')';
    ParseTargetOf(table, cs, r3);
    ParseInsertOf(table + (" (" + (cs + r3)));
    if |ValuesClause| < |r3| {
      assert r3[..|ValuesClause|][9] == bindSpec[0];
      assert ValuesClause[9] == '(';
    }
  }
}
