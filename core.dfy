/** The statements `EasyLite` builds before handing them to the database
    engine, and the containers it wraps query results in. */
module Core {
  import opened Wrappers
  import opened Text
  import opened Dicts
  import opened Dates
  import opened PyValues

  // ---- Result containers ---------------------------------------------------

  /** One fetched row. */
  class Record<T> {
    var data: T

    constructor (row: T)
      ensures data == row
    {
      data := row;
    }
  }

  /** The rows a query fetched, in the order the engine returned them. */
  class Records<T> {
    var data: seq<T>

    constructor (rows: seq<T>)
      ensures data == rows
    {
      data := rows;
    }

    /** `len(records)`: the number of rows held. */
    function Length(): (n: nat)
      reads this
      ensures n == |data|
    {
      |data|
    }

    /** `iter(records)`: one new Record per row, in row order, each a
        separate object even when two rows are equal. */
    method Iterate() returns (records: seq<Record<T>>)
      ensures |records| == Length()
      ensures forall i :: 0 <= i < |records| ==> fresh(records[i]) && records[i].data == data[i]
      ensures forall i, j :: 0 <= i < j < |records| ==> records[i] != records[j]
    {
      records := [];
      for i := 0 to |data|
        invariant |records| == i
        invariant forall j :: 0 <= j < i ==> fresh(records[j]) && records[j].data == data[j]
        invariant forall a, b :: 0 <= a < b < i ==> records[a] != records[b]
      {
        var record := new Record(data[i]);
        records := records + [record];
      }
    }
  }

  // ---- Column types --------------------------------------------------------

  /** The Python type given for a column in `create_table(name=type, ...)`. */
  datatype TypeTag =
    | StrType | IntType | FloatType | BytesType | DateTimeType | DateType
      /** any other object, `bool` and `list` among them */
    | OtherType(name: string)

  /** The storage type written into the column definition. */
  datatype ColumnType = TEXT | INTEGER | REAL | BLOB

  function Keyword(c: ColumnType): string
  {
    match c
    case TEXT => "TEXT"
    case INTEGER => "INTEGER"
    case REAL => "REAL"
    case BLOB => "BLOB"
  }

  /** The storage type `create_table` gives a column of the given Python
      type; None for a type it drops. */
  function ColumnTypeOf(tag: TypeTag): (c: Option<ColumnType>)
    ensures c == Some(TEXT) <==> tag in {StrType, DateTimeType, DateType}
    ensures c == Some(INTEGER) <==> tag == IntType
    ensures c == Some(REAL) <==> tag == FloatType
    ensures c == Some(BLOB) <==> tag == BytesType
    ensures c == None <==> tag.OtherType?
  {
    match tag
    case StrType | DateTimeType | DateType => Some(TEXT)
    case IntType => Some(INTEGER)
    case FloatType => Some(REAL)
    case BytesType => Some(BLOB)
    case OtherType(_) => None
  }

  // ---- CREATE TABLE --------------------------------------------------------

  /** The columns that survive the type mapping, with their storage types,
      in argument order. */
  function KeptColumns(columns: seq<(string, TypeTag)>): (kept: seq<(string, ColumnType)>)
    ensures |kept| <= |columns|
  {
    if columns == [] then []
    else
      var rest := KeptColumns(columns[..|columns| - 1]);
      var (name, tag) := columns[|columns| - 1];
      match ColumnTypeOf(tag)
      case None => rest
      case Some(c) => rest + [(name, c)]
  }

  /** `name TYPE` for each kept column. */
  function ColumnDefs(fields: seq<(string, ColumnType)>): (defs: seq<string>)
    ensures |defs| == |fields|
    ensures forall i :: 0 <= i < |fields| ==> fields[i].0 <= defs[i]
  {
    seq(|fields|, i requires 0 <= i < |fields| => fields[i].0 + " " + Keyword(fields[i].1))
  }

  /** `fields_sql`: the column definitions joined with ", ". */
  function ColumnList(fields: seq<(string, ColumnType)>): string
  {
    Join(ColumnDefs(fields), ", ")
  }

  const CreatePrefix := "CREATE TABLE IF NOT EXISTS "
  const IdColumn := "id INTEGER PRIMARY KEY AUTOINCREMENT"

  /** The CREATE TABLE text around a column list, with or without the
      synthetic `id` column. */
  function CreateTableSql(tableName: string, autoIncrement: bool, fieldsSql: string): (sql: string)
    ensures var head := CreatePrefix + tableName + "(";
            && |sql| == |head| + (if autoIncrement then |IdColumn| + 2 else 0) + |fieldsSql| + 1
            && sql[..|head|] == head
            && (autoIncrement ==> sql[|head|..|head| + |IdColumn| + 2] == IdColumn + ", ")
            && sql[|sql| - 1 - |fieldsSql|..|sql| - 1] == fieldsSql
            && sql[|sql| - 1] == ')'
  {
    if !autoIncrement then CreatePrefix + tableName + "(" + fieldsSql + ")"
    else CreatePrefix + tableName + "(" + IdColumn + ", " + fieldsSql + ")"
  }

  /** `create_table(table_name, auto_increment=..., **columns)` up to the
      point where the statement is executed. */
  method CreateTable(tableName: string, autoIncrement: bool, columns: seq<(string, TypeTag)>)
    returns (sql: string)
    requires DistinctKeys(columns)
    ensures sql == CreateTableSql(tableName, autoIncrement, ColumnList(KeptColumns(columns)))
  {
    var fields: seq<(string, ColumnType)> := [];
    for i := 0 to |columns|
      invariant fields == KeptColumns(columns[..i])
      invariant forall j, m :: 0 <= j < |fields| && i <= m < |columns| ==> fields[j].0 != columns[m].0
    {
      var (name, fieldType) := columns[i];
      assert columns[..i + 1][..i] == columns[..i];
      if fieldType in {StrType, DateTimeType, DateType} {
        PutNew(fields, name, TEXT);
        fields := Put(fields, name, TEXT);
      } else if fieldType == IntType {
        PutNew(fields, name, INTEGER);
        fields := Put(fields, name, INTEGER);
      } else if fieldType == FloatType {
        PutNew(fields, name, REAL);
        fields := Put(fields, name, REAL);
      } else if fieldType == BytesType {
        PutNew(fields, name, BLOB);
        fields := Put(fields, name, BLOB);
      }
    }
    assert columns[..|columns|] == columns;
    var fieldsSql := ColumnList(fields);
    sql := CreateTableSql(tableName, autoIncrement, fieldsSql);
  }

  /** Filtering distributes over concatenation: kept columns stay in their
      argument order. */
  lemma {:induction false} KeptColumnsAppend(a: seq<(string, TypeTag)>, b: seq<(string, TypeTag)>)
    ensures KeptColumns(a + b) == KeptColumns(a) + KeptColumns(b)
    decreases |b|
  {
    if b == [] {
      assert a + b == a;
    } else {
      var b' := b[..|b| - 1];
      assert (a + b)[..|a + b| - 1] == a + b';
      assert (a + b)[|a + b| - 1] == b[|b| - 1];
      KeptColumnsAppend(a, b');
    }
  }

  /** A single column is kept exactly when its type maps, with that type. */
  lemma KeptColumnsSingle(name: string, tag: TypeTag)
    ensures KeptColumns([(name, tag)]) == (if tag.OtherType? then [] else [(name, ColumnTypeOf(tag).value)])
  {
    assert [(name, tag)][..0] == [];
  }

  /** A (name, type) pair is kept exactly when some argument has that name
      and a Python type that maps to that storage type. */
  lemma {:induction false} KeptColumnsMembers(columns: seq<(string, TypeTag)>, name: string, c: ColumnType)
    ensures (name, c) in KeptColumns(columns)
            <==> exists j :: 0 <= j < |columns| && columns[j].0 == name && ColumnTypeOf(columns[j].1) == Some(c)
    decreases |columns|
  {
    if columns != [] {
      var init := columns[..|columns| - 1];
      KeptColumnsMembers(init, name, c);
      if exists j :: 0 <= j < |init| && init[j].0 == name && ColumnTypeOf(init[j].1) == Some(c) {
        var j :| 0 <= j < |init| && init[j].0 == name && ColumnTypeOf(init[j].1) == Some(c);
        assert columns[j] == init[j];
      }
      if exists j :: 0 <= j < |columns| && columns[j].0 == name && ColumnTypeOf(columns[j].1) == Some(c) {
        var j :| 0 <= j < |columns| && columns[j].0 == name && ColumnTypeOf(columns[j].1) == Some(c);
        if j < |init| {
          assert init[j] == columns[j];
        }
      }
    }
  }

  /** The definitions of the kept columns hold no comma when the column
      names hold none. */
  lemma KeptDefsCommaFree(columns: seq<(string, TypeTag)>)
    requires forall i :: 0 <= i < |columns| ==> ',' !in columns[i].0
    ensures forall i :: 0 <= i < |ColumnDefs(KeptColumns(columns))| ==> ',' !in ColumnDefs(KeptColumns(columns))[i]
  {
    var kept := KeptColumns(columns);
    forall k | 0 <= k < |kept|
      ensures ',' !in ColumnDefs(kept)[k]
    {
      assert kept[k] in kept;
      KeptColumnsMembers(columns, kept[k].0, kept[k].1);
      var j :| 0 <= j < |columns| && columns[j].0 == kept[k].0 && ColumnTypeOf(columns[j].1) == Some(kept[k].1);
      assert ',' !in Keyword(kept[k].1);
      assert ColumnDefs(kept)[k] == columns[j].0 + " " + Keyword(kept[k].1);
    }
  }

  /** The `id` definition holds no comma. */
  lemma IdColumnCommaFree()
    ensures ',' !in IdColumn
  {
    assert IdColumn == "id INTEGER PRIMARY KEY AUTOINCREMENT";
  }

  /** Putting the `id` definition in front of comma-free definitions keeps
      every item comma-free. */
  lemma WithIdCommaFree(autoIncrement: bool, defs0: seq<string>)
    requires forall k :: 0 <= k < |defs0| ==> ',' !in defs0[k]
    ensures var defs := (if autoIncrement then [IdColumn] else []) + defs0;
            forall k :: 0 <= k < |defs| ==> ',' !in defs[k]
  {
    var defs := (if autoIncrement then [IdColumn] else []) + defs0;
    IdColumnCommaFree();
    forall k | 0 <= k < |defs|
      ensures ',' !in defs[k]
    {
      if autoIncrement && k > 0 { assert defs[k] == defs0[k - 1]; }
      if !autoIncrement { assert defs[k] == defs0[k]; }
    }
  }

  /** With a non-empty column list, the auto-increment `id` definition is
      one more item at the head of the joined list. */
  lemma CreateTableJoin(tableName: string, autoIncrement: bool, defs0: seq<string>)
    requires defs0 != []
    ensures CreateTableSql(tableName, autoIncrement, Join(defs0, ", "))
            == CreatePrefix + tableName + "("
               + Join((if autoIncrement then [IdColumn] else []) + defs0, ", ") + ")"
  {
    var head := CreatePrefix + tableName + "(";
    if autoIncrement {
      JoinCons(IdColumn, defs0, ", ");
      assert head + IdColumn + ", " + Join(defs0, ", ") + ")"
             == head + (IdColumn + ", " + Join(defs0, ", ")) + ")";
    } else {
      assert [] + defs0 == defs0;
    }
  }

  /** The statement text for a non-empty column list whose definitions hold
      no comma. */
  lemma CreateTableDefs(tableName: string, autoIncrement: bool, kept: seq<(string, ColumnType)>)
    requires kept != []
    requires forall k :: 0 <= k < |ColumnDefs(kept)| ==> ',' !in ColumnDefs(kept)[k]
    ensures var defs := (if autoIncrement then [IdColumn] else []) + ColumnDefs(kept);
            && CreateTableSql(tableName, autoIncrement, ColumnList(kept))
               == CreatePrefix + tableName + "(" + Join(defs, ", ") + ")"
            && Split(Join(defs, ", "), ", ") == defs
  {
    var defs0 := ColumnDefs(kept);
    CreateTableJoin(tableName, autoIncrement, defs0);
    WithIdCommaFree(autoIncrement, defs0);
    SplitJoin((if autoIncrement then [IdColumn] else []) + defs0, ", ");
  }

  /** With at least one kept column, the parentheses hold the definitions
      (after `id` when auto-increment is on) joined by ", ", and splitting
      on ", " recovers them one by one, provided no column name holds a
      comma. */
  lemma CreateTableColumns(tableName: string, autoIncrement: bool, columns: seq<(string, TypeTag)>)
    requires forall i :: 0 <= i < |columns| ==> ',' !in columns[i].0
    requires KeptColumns(columns) != []
    ensures var defs := (if autoIncrement then [IdColumn] else []) + ColumnDefs(KeptColumns(columns));
            && CreateTableSql(tableName, autoIncrement, ColumnList(KeptColumns(columns)))
               == CreatePrefix + tableName + "(" + Join(defs, ", ") + ")"
            && Split(Join(defs, ", "), ", ") == defs
  {
    KeptDefsCommaFree(columns);
    CreateTableDefs(tableName, autoIncrement, KeptColumns(columns));
  }

  /** No column survives when every argument's type is unmapped. */
  lemma KeptColumnsNone(columns: seq<(string, TypeTag)>)
    requires forall i :: 0 <= i < |columns| ==> columns[i].1.OtherType?
    ensures KeptColumns(columns) == []
  {
    if KeptColumns(columns) != [] {
      var p := KeptColumns(columns)[0];
      assert p in KeptColumns(columns);
      KeptColumnsMembers(columns, p.0, p.1);
      assert false;
    }
  }

  lemma CreateTableEmptyList(tableName: string, autoIncrement: bool, columns: seq<(string, TypeTag)>)
    requires KeptColumns(columns) == []
    ensures CreateTableSql(tableName, autoIncrement, ColumnList(KeptColumns(columns)))
            == CreatePrefix + tableName + (if autoIncrement then "(" + IdColumn + ", )" else "()")
  {
    assert ColumnList([]) == "";
    var a := CreatePrefix + tableName;
    if autoIncrement {
      assert ", " + "" + ")" == ", )";
      assert CreateTableSql(tableName, autoIncrement, "") == a + "(" + IdColumn + ", )";
    } else {
      assert "(" + "" + ")" == "()";
    }
  }

  /** When no column survives, the statement has no column list: with
      auto-increment on it ends in a dangling ", " before the ")". */
  lemma CreateTableNoColumns(tableName: string, autoIncrement: bool, columns: seq<(string, TypeTag)>)
    requires forall i :: 0 <= i < |columns| ==> columns[i].1.OtherType?
    ensures CreateTableSql(tableName, autoIncrement, ColumnList(KeptColumns(columns)))
            == CreatePrefix + tableName + (if autoIncrement then "(" + IdColumn + ", )" else "()")
  {
    KeptColumnsNone(columns);
    CreateTableEmptyList(tableName, autoIncrement, columns);
  }

  // ---- DROP TABLE ----------------------------------------------------------

  const DropPrefix := "DROP TABLE IF EXISTS "

  /** `drop_table(table_name)` up to the point where the statement is
      executed: the fixed prefix, then the table name as given. */
  function DropTable(tableName: string): (sql: string)
    ensures |sql| == |DropPrefix| + |tableName|
    ensures sql[..|DropPrefix|] == DropPrefix && sql[|DropPrefix|..] == tableName
  {
    DropPrefix + tableName
  }

  // ---- INSERT --------------------------------------------------------------

  /** The value the insert loop leaves in place of v: a datetime becomes its
      `YYYY-MM-DD HH:MM:SS` text (checked first, a datetime being a date too),
      a date its `YYYY-MM-DD` text; every other value is kept. */
  function Normalize(v: Value): (r: Value)
    ensures !IsDate(r)
    ensures v.PyDateTime? ==> r.PyStr? && ParseDateTime(r.s) == Some(v.dt.(microsecond := 0))
    ensures v.PyDate? ==> r.PyStr? && ParseDate(r.s) == Some(v.date)
    ensures !IsDate(v) ==> r == v
  {
    if IsDateTime(v) then
      ParseFormatDateTime(v.dt);
      PyStr(FormatDateTime(v.dt))
    else if IsDate(v) then
      ParseFormatDate(v.date);
      PyStr(FormatDate(v.date))
    else v
  }

  /** The keyword arguments after the loop: same names, same order, each
      value normalized. */
  function NormalizedValues(kwargs: seq<(string, Value)>): (values: seq<(string, Value)>)
    ensures Keys(values) == Keys(kwargs)
  {
    seq(|kwargs|, i requires 0 <= i < |kwargs| => (kwargs[i].0, Normalize(kwargs[i].1)))
  }

  /** `repr(v) for v in values.values()` */
  function Literals(values: seq<(string, Value)>): (lits: seq<string>)
    requires forall i :: 0 <= i < |values| ==> !IsDate(values[i].1)
    ensures |lits| == |values|
  {
    seq(|values|, i requires 0 <= i < |values| => Literal(values[i].1))
  }

  /** The INSERT text: the column list in the first parentheses, the value
      list in the second. */
  function InsertSql(tableName: string, fieldsStr: string, valuesStr: string): (sql: string)
    ensures var head := "INSERT INTO " + tableName + "(";
            && |sql| == |head| + |fieldsStr| + |") VALUES ("| + |valuesStr| + 1
            && sql[..|head|] == head
            && sql[|head|..|head| + |fieldsStr|] == fieldsStr
            && sql[|head| + |fieldsStr|..|head| + |fieldsStr| + |") VALUES ("|] == ") VALUES ("
            && sql[|sql| - 1 - |valuesStr|..|sql| - 1] == valuesStr
            && sql[|sql| - 1] == ')'
  {
    "INSERT INTO " + tableName + "(" + fieldsStr + ") VALUES (" + valuesStr + ")"
  }

  /** After `i` rounds of the normalising loop of `insert`, the first `i`
      values are normalised and the rest are as passed. */
  ghost predicate NormalizedUpTo(kwargs: seq<(string, Value)>, values: seq<(string, Value)>, i: nat)
  {
    && |values| == |kwargs|
    && i <= |kwargs|
    && (forall j :: 0 <= j < i ==> values[j] == (kwargs[j].0, Normalize(kwargs[j].1)))
    && (forall j :: i <= j < |values| ==> values[j] == kwargs[j])
  }

  /** One round of the loop: a date or datetime under the `i`-th name is
      replaced in place by its normalised value, any other value is left
      alone, and either way the loop invariant holds one round on. */
  lemma NormalizeStep(kwargs: seq<(string, Value)>, values: seq<(string, Value)>, i: nat)
    requires DistinctKeys(kwargs) && NormalizedUpTo(kwargs, values, i) && i < |kwargs|
    ensures IsDate(values[i].1) ==>
              NormalizedUpTo(kwargs, Put(values, values[i].0, Normalize(values[i].1)), i + 1)
    ensures !IsDate(values[i].1) ==> NormalizedUpTo(kwargs, values, i + 1)
  {
    assert DistinctKeys(values) by {
      forall a, b | 0 <= a < b < |values|
        ensures values[a].0 != values[b].0
      {
        assert values[a].0 == kwargs[a].0 && values[b].0 == kwargs[b].0;
      }
    }
    PutExisting(values, i, Normalize(values[i].1));
  }

  /** When the loop is done, the values are the normalised arguments, and
      none of them is a date any more. */
  lemma NormalizedAll(kwargs: seq<(string, Value)>, values: seq<(string, Value)>)
    requires NormalizedUpTo(kwargs, values, |kwargs|)
    ensures values == NormalizedValues(kwargs)
    ensures forall j :: 0 <= j < |values| ==> !IsDate(values[j].1)
  {
  }

  /** `insert(table_name, **kwargs)` up to the point where the statement is
      executed. */
  method Insert(tableName: string, kwargs: seq<(string, Value)>) returns (sql: string)
    requires DistinctKeys(kwargs)
    ensures sql == InsertSql(tableName, Join(Keys(kwargs), ", "),
                             Join(Literals(NormalizedValues(kwargs)), ", "))
  {
    var fieldsStr := Join(Keys(kwargs), ", ");
    var values := kwargs;
    for i := 0 to |values|
      invariant NormalizedUpTo(kwargs, values, i)
    {
      var (k, value) := values[i];
      NormalizeStep(kwargs, values, i);
      if IsDateTime(value) {
        values := Put(values, k, PyStr(FormatDateTime(value.dt)));
      } else if IsDate(value) {
        values := Put(values, k, PyStr(FormatDate(value.date)));
      }
    }
    NormalizedAll(kwargs, values);
    var valuesStr := Join(Literals(values), ", ");
    sql := InsertSql(tableName, fieldsStr, valuesStr);
  }

  /** The column list of the insert reads back, split on ", ", as the
      argument names in argument order, one per value literal, provided no
      name holds a comma. */
  lemma InsertColumns(kwargs: seq<(string, Value)>)
    requires kwargs != []
    requires forall i :: 0 <= i < |kwargs| ==> ',' !in kwargs[i].0
    ensures Split(Join(Keys(kwargs), ", "), ", ") == Keys(kwargs)
    ensures |Literals(NormalizedValues(kwargs))| == |Keys(kwargs)|
  {
    SplitJoin(Keys(kwargs), ", ");
  }

  /** The i-th value literal belongs to the i-th argument: dates appear as
      their quoted text, strs and ints as literals that read back as the
      argument's value. */
  lemma InsertValueAt(kwargs: seq<(string, Value)>, i: nat)
    requires i < |kwargs|
    ensures var lit := Literals(NormalizedValues(kwargs))[i];
            && (kwargs[i].1.PyDate? ==> lit == "'" + FormatDate(kwargs[i].1.date) + "'")
            && (kwargs[i].1.PyDateTime? ==> lit == "'" + FormatDateTime(kwargs[i].1.dt) + "'")
            && (kwargs[i].1.PyStr? || kwargs[i].1.PyInt? ==> ReadLiteral(lit) == Some(kwargs[i].1))
            && (kwargs[i].1.PyOther? ==> lit == kwargs[i].1.repr)
  {
    var v := kwargs[i].1;
    if v.PyDate? {
      FormatDatePlain(v.date);
      ReprPlain(FormatDate(v.date));
    } else if v.PyDateTime? {
      FormatDateTimePlain(v.dt);
      ReprPlain(FormatDateTime(v.dt));
    }
  }
}
