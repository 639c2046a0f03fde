/**
 * The schema records of the SQL Server agents, the grouping of the raw catalogue rows into one
 * TableInfo per table, and DatabaseSchema.ToPrompt, the text form of a schema.
 */
module SqlSchema {
  import opened Wrappers
  import opened Text

  datatype TableNameInfo = TableNameInfo(schemaName: string, tableName: string)
  datatype TableColumnInfo = TableColumnInfo(columnName: string, dataType: string)
  datatype TableInfo = TableInfo(name: TableNameInfo, columns: seq<TableColumnInfo>)
  /** One row of the catalogue query: schema, table, column and type name. */
  datatype RawSchemaInfo = RawSchemaInfo(schemaName: string, tableName: string, columnName: string, dataType: string)
  datatype DatabaseSchema = DatabaseSchema(tables: seq<TableInfo>)

  function KeyOf(row: RawSchemaInfo): TableNameInfo { TableNameInfo(row.schemaName, row.tableName) }
  function ColumnOf(row: RawSchemaInfo): TableColumnInfo { TableColumnInfo(row.columnName, row.dataType) }

  /** The position of the group for table k, if there is one. */
  function FindGroup(groups: seq<TableInfo>, k: TableNameInfo): (r: Option<nat>)
    ensures r.Some? ==> r.value < |groups| && groups[r.value].name == k
    ensures r.None? ==> forall i :: 0 <= i < |groups| ==> groups[i].name != k
  {
    if |groups| == 0 then None
    else if groups[|groups| - 1].name == k then Some(|groups| - 1)
    else FindGroup(groups[..|groups| - 1], k)
  }

  /** One step of GroupBy: the row joins the group of its table, or opens a new group at the end. */
  function AddRow(groups: seq<TableInfo>, row: RawSchemaInfo): seq<TableInfo>
  {
    match FindGroup(groups, KeyOf(row))
    case None => groups + [TableInfo(KeyOf(row), [ColumnOf(row)])]
    case Some(i) => groups[i := TableInfo(groups[i].name, groups[i].columns + [ColumnOf(row)])]
  }

  /**
   * GroupBy(row => TableNameInfo(schema, table)).Select(g => TableInfo(g.Key, columns of g)):
   * groups in order of first appearance, each group's rows in their original order.
   */
  function GroupRows(rows: seq<RawSchemaInfo>): seq<TableInfo>
  {
    if |rows| == 0 then [] else AddRow(GroupRows(rows[..|rows| - 1]), rows[|rows| - 1])
  }

  /** The columns of the rows that belong to table k, in row order. */
  function ColumnsFor(rows: seq<RawSchemaInfo>, k: TableNameInfo): seq<TableColumnInfo>
  {
    if |rows| == 0 then []
    else ColumnsFor(rows[..|rows| - 1], k) + (if KeyOf(rows[|rows| - 1]) == k then [ColumnOf(rows[|rows| - 1])] else [])
  }

  ghost predicate DistinctNames(groups: seq<TableInfo>)
  {
    forall i, j :: 0 <= i < j < |groups| ==> groups[i].name != groups[j].name
  }

  function TotalColumns(groups: seq<TableInfo>): nat
  {
    if |groups| == 0 then 0 else TotalColumns(groups[..|groups| - 1]) + |groups[|groups| - 1].columns|
  }

  lemma {:induction false} TotalColumnsUpdate(groups: seq<TableInfo>, i: nat, t: TableInfo)
    requires i < |groups|
    ensures TotalColumns(groups[i := t]) == TotalColumns(groups) - |groups[i].columns| + |t.columns|
    decreases |groups|
  {
    var n := |groups|;
    var g' := groups[i := t];
    if i < n - 1 {
      assert g'[..n - 1] == groups[..n - 1][i := t];
      TotalColumnsUpdate(groups[..n - 1], i, t);
    } else {
      assert g'[..n - 1] == groups[..n - 1];
    }
  }

  lemma {:induction false} ColumnsForAppend(rows: seq<RawSchemaInfo>, row: RawSchemaInfo, k: TableNameInfo)
    ensures ColumnsFor(rows + [row], k) == ColumnsFor(rows, k) + (if KeyOf(row) == k then [ColumnOf(row)] else [])
  {
    assert (rows + [row])[..|rows|] == rows;
  }

  /** Adding a row never creates a second group for a table. */
  lemma AddRowDistinct(g: seq<TableInfo>, row: RawSchemaInfo)
    requires DistinctNames(g)
    ensures DistinctNames(AddRow(g, row))
  {
  }

  /** Adding a row appends its column to its table's group and to no other. */
  lemma AddRowColumns(g: seq<TableInfo>, rows: seq<RawSchemaInfo>, row: RawSchemaInfo)
    requires DistinctNames(g)
    requires forall i :: 0 <= i < |g| ==> g[i].columns == ColumnsFor(rows, g[i].name)
    requires FindGroup(g, KeyOf(row)).None? ==> ColumnsFor(rows, KeyOf(row)) == []
    ensures forall i :: 0 <= i < |AddRow(g, row)| ==> AddRow(g, row)[i].columns == ColumnsFor(rows + [row], AddRow(g, row)[i].name)
  {
    var g' := AddRow(g, row);
    forall i | 0 <= i < |g'| ensures g'[i].columns == ColumnsFor(rows + [row], g'[i].name) {
      ColumnsForAppend(rows, row, g'[i].name);
      match FindGroup(g, KeyOf(row))
      case None =>
        if i < |g| { assert g'[i] == g[i]; }
      case Some(m) =>
        if i != m { assert g'[i] == g[i] && g[i].name != g[m].name; }
    }
  }

  /** A table with no group has no rows yet. */
  lemma {:induction false} NoGroupNoColumns(rows: seq<RawSchemaInfo>, k: TableNameInfo)
    requires forall j :: 0 <= j < |rows| ==> KeyOf(rows[j]) != k
    ensures ColumnsFor(rows, k) == []
    decreases |rows|
  {
    if |rows| > 0 {
      NoGroupNoColumns(rows[..|rows| - 1], k);
    }
  }

  /** Adding a row makes its table known and leaves the other tables as they were. */
  lemma AddRowKeys(g: seq<TableInfo>, row: RawSchemaInfo, k: TableNameInfo)
    ensures FindGroup(AddRow(g, row), k).Some? <==> FindGroup(g, k).Some? || k == KeyOf(row)
  {
    var g' := AddRow(g, row);
    match FindGroup(g, KeyOf(row))
    case None =>
      assert g'[|g|].name == KeyOf(row);
      if FindGroup(g, k).Some? { assert g'[FindGroup(g, k).value].name == k; }
      if FindGroup(g', k).Some? && k != KeyOf(row) {
        assert g[FindGroup(g', k).value].name == k;
      }
    case Some(i) =>
      if FindGroup(g, k).Some? { assert g'[FindGroup(g, k).value].name == k; }
      if FindGroup(g', k).Some? { assert g[FindGroup(g', k).value].name == k; }
  }

  lemma AddRowTotal(g: seq<TableInfo>, row: RawSchemaInfo)
    ensures TotalColumns(AddRow(g, row)) == TotalColumns(g) + 1
  {
    match FindGroup(g, KeyOf(row))
    case None =>
      assert AddRow(g, row)[..|g|] == g;
    case Some(i) =>
      TotalColumnsUpdate(g, i, TableInfo(g[i].name, g[i].columns + [ColumnOf(row)]));
  }

  lemma {:induction false} GroupRowsShape(rows: seq<RawSchemaInfo>)
    ensures DistinctNames(GroupRows(rows))
    ensures forall i :: 0 <= i < |GroupRows(rows)| ==> GroupRows(rows)[i].columns == ColumnsFor(rows, GroupRows(rows)[i].name)
    ensures TotalColumns(GroupRows(rows)) == |rows|
    decreases |rows|
  {
    if |rows| > 0 {
      var init, row := rows[..|rows| - 1], rows[|rows| - 1];
      assert rows == init + [row];
      GroupRowsShape(init);
      var g := GroupRows(init);
      AddRowDistinct(g, row);
      if FindGroup(g, KeyOf(row)).None? {
        GroupRowsKeys(init, KeyOf(row));
        NoGroupNoColumns(init, KeyOf(row));
      }
      AddRowColumns(g, init, row);
      AddRowTotal(g, row);
    }
  }

  lemma {:induction false} GroupRowsKeys(rows: seq<RawSchemaInfo>, k: TableNameInfo)
    ensures FindGroup(GroupRows(rows), k).Some? <==> exists j :: 0 <= j < |rows| && KeyOf(rows[j]) == k
    decreases |rows|
  {
    if |rows| > 0 {
      var init, row := rows[..|rows| - 1], rows[|rows| - 1];
      GroupRowsKeys(init, k);
      AddRowKeys(GroupRows(init), row, k);
      if exists j :: 0 <= j < |init| && KeyOf(init[j]) == k {
        var j :| 0 <= j < |init| && KeyOf(init[j]) == k;
        assert KeyOf(rows[j]) == k;
      }
      if exists j :: 0 <= j < |rows| && KeyOf(rows[j]) == k {
        var j :| 0 <= j < |rows| && KeyOf(rows[j]) == k;
        if j < |init| { assert KeyOf(init[j]) == k; }
      }
    }
  }

  /**
   * Grouping the catalogue rows gives one TableInfo per distinct (schema, table) pair, exactly the
   * pairs that occur in the rows, each holding exactly that pair's columns in row order; no row is
   * lost or duplicated.
   */
  lemma GroupRowsCorrect(rows: seq<RawSchemaInfo>)
    ensures DistinctNames(GroupRows(rows))
    ensures forall i :: 0 <= i < |GroupRows(rows)| ==> GroupRows(rows)[i].columns == ColumnsFor(rows, GroupRows(rows)[i].name)
    ensures forall k :: FindGroup(GroupRows(rows), k).Some? <==> exists j :: 0 <= j < |rows| && KeyOf(rows[j]) == k
    ensures TotalColumns(GroupRows(rows)) == |rows|
  {
    GroupRowsShape(rows);
    forall k ensures FindGroup(GroupRows(rows), k).Some? <==> exists j :: 0 <= j < |rows| && KeyOf(rows[j]) == k {
      GroupRowsKeys(rows, k);
    }
  }

  /** The line naming a table, as DatabaseSchema.ToPrompt writes it. */
  function TableHeader(t: TableInfo): string { Line("Table " + t.name.schemaName + "." + t.name.tableName) }
  function TableFooter(t: TableInfo): string { Line("End schema of table " + t.name.schemaName + "." + t.name.tableName) }
  function ColumnLine(c: TableColumnInfo): string { Line("- " + c.columnName + " : " + c.dataType) }

  function ColumnLines(cs: seq<TableColumnInfo>): string
  {
    if |cs| == 0 then "" else ColumnLines(cs[..|cs| - 1]) + ColumnLine(cs[|cs| - 1])
  }

  function TableText(t: TableInfo): string { TableHeader(t) + ColumnLines(t.columns) + TableFooter(t) }

  /** The text of DatabaseSchema.ToPrompt: each table's header, its column lines, its footer. */
  function SchemaText(tables: seq<TableInfo>): string
  {
    if |tables| == 0 then "" else SchemaText(tables[..|tables| - 1]) + TableText(tables[|tables| - 1])
  }

  /** DatabaseSchema.ToPrompt: the StringBuilder loops over tables and columns. */
  method ToPrompt(schema: DatabaseSchema) returns (text: string)
    ensures text == SchemaText(schema.tables)
  {
    text := "";
    var i := 0;
    while i < |schema.tables|
      invariant 0 <= i <= |schema.tables|
      invariant text == SchemaText(schema.tables[..i])
    {
      var t := schema.tables[i];
      var columns := "";
      var j := 0;
      while j < |t.columns|
        invariant 0 <= j <= |t.columns|
        invariant columns == ColumnLines(t.columns[..j])
      {
        assert t.columns[..j + 1][..j] == t.columns[..j];
        columns := columns + ColumnLine(t.columns[j]);
        j := j + 1;
      }
      assert t.columns[..j] == t.columns;
      assert schema.tables[..i + 1][..i] == schema.tables[..i];
      text := text + (TableHeader(t) + columns + TableFooter(t));
      i := i + 1;
    }
    assert schema.tables[..i] == schema.tables;
  }

  /** No name in the table holds a line break. */
  predicate SingleLineNames(t: TableInfo)
  {
    '\n' !in t.name.schemaName && '\n' !in t.name.tableName
    && forall c :: c in t.columns ==> '\n' !in c.columnName && '\n' !in c.dataType
  }

  lemma {:induction false} ColumnLinesCount(cs: seq<TableColumnInfo>)
    requires forall c :: c in cs ==> '\n' !in c.columnName && '\n' !in c.dataType
    ensures CountChar('\n', ColumnLines(cs)) == |cs|
    decreases |cs|
  {
    if |cs| > 0 {
      var c := cs[|cs| - 1];
      ColumnLinesCount(cs[..|cs| - 1]);
      CountCharAppend('\n', ColumnLines(cs[..|cs| - 1]), ColumnLine(c));
      CountCharAppend('\n', "- " + c.columnName + " : " + c.dataType, "\n");
      CountCharAppend('\n', "- " + c.columnName + " : ", c.dataType);
      CountCharAppend('\n', "- " + c.columnName, " : ");
      CountCharAppend('\n', "- ", c.columnName);
      NoNewLineCount(c.columnName);
      NoNewLineCount(c.dataType);
    }
  }

  lemma HeaderCount(t: TableInfo, title: string)
    requires '\n' !in t.name.schemaName && '\n' !in t.name.tableName && '\n' !in title
    ensures CountChar('\n', Line(title + t.name.schemaName + "." + t.name.tableName)) == 1
  {
    CountCharAppend('\n', title + t.name.schemaName + "." + t.name.tableName, "\n");
    CountCharAppend('\n', title + t.name.schemaName + ".", t.name.tableName);
    CountCharAppend('\n', title + t.name.schemaName, ".");
    CountCharAppend('\n', title, t.name.schemaName);
    NoNewLineCount(title);
    NoNewLineCount(t.name.schemaName);
    NoNewLineCount(t.name.tableName);
  }

  /** Number of lines of a schema text: a header and a footer per table plus one line per column. */
  lemma {:induction false} SchemaTextLineCount(tables: seq<TableInfo>)
    requires forall t :: t in tables ==> SingleLineNames(t)
    ensures CountChar('\n', SchemaText(tables)) == 2 * |tables| + TotalColumns(tables)
    decreases |tables|
  {
    if |tables| > 0 {
      var t := tables[|tables| - 1];
      assert t in tables;
      assert '\n' !in "Table " && '\n' !in "End schema of table ";
      assert forall u :: u in tables[..|tables| - 1] ==> u in tables;
      SchemaTextLineCount(tables[..|tables| - 1]);
      CountCharAppend('\n', SchemaText(tables[..|tables| - 1]), TableText(t));
      CountCharAppend('\n', TableHeader(t) + ColumnLines(t.columns), TableFooter(t));
      CountCharAppend('\n', TableHeader(t), ColumnLines(t.columns));
      HeaderCount(t, "Table ");
      HeaderCount(t, "End schema of table ");
      ColumnLinesCount(t.columns);
    }
  }

  /** The schema retrieved from catalogue rows renders as one line per row plus two lines per table. */
  lemma RetrievedSchemaLineCount(rows: seq<RawSchemaInfo>)
    requires forall r :: r in rows ==> '\n' !in r.schemaName && '\n' !in r.tableName && '\n' !in r.columnName && '\n' !in r.dataType
    ensures CountChar('\n', SchemaText(GroupRows(rows))) == |rows| + 2 * |GroupRows(rows)|
  {
    GroupRowsCorrect(rows);
    var g := GroupRows(rows);
    forall t | t in g ensures SingleLineNames(t) {
      var i :| 0 <= i < |g| && g[i] == t;
      ColumnsForSingleLine(rows, t.name);
      assert FindGroup(g, t.name).Some?;
      var j :| 0 <= j < |rows| && KeyOf(rows[j]) == t.name;
      assert rows[j] in rows;
    }
    SchemaTextLineCount(g);
  }

  lemma {:induction false} ColumnsForSingleLine(rows: seq<RawSchemaInfo>, k: TableNameInfo)
    requires forall r :: r in rows ==> '\n' !in r.columnName && '\n' !in r.dataType
    ensures forall c :: c in ColumnsFor(rows, k) ==> '\n' !in c.columnName && '\n' !in c.dataType
    decreases |rows|
  {
    if |rows| > 0 {
      ColumnsForSingleLine(rows[..|rows| - 1], k);
      assert rows[|rows| - 1] in rows;
    }
  }
}
