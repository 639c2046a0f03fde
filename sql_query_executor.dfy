/**
 * The Demo2 query executor (SampleAssistantDemo2/SqlServerQueryExecutor.cs): it picks a database,
 * makes sure its schema is cached, has a language model rewrite the request as SQL, runs it and
 * publishes the result as a Markdown table in the orchestrator's "queryresult" property.
 */
module SqlQueryExecutor {
  import opened Wrappers
  import opened Text
  import opened OrderedDict
  import opened SqlSchema
  import opened AssistantResponses
  import opened Assistants
  import opened SqlSchemaAgent

  /** A DataTable: column names and rows; a cell is null (None) or the text of its value. */
  datatype DataTable = DataTable(columns: seq<string>, rows: seq<seq<Option<string>>>)

  /** Every row of a DataTable has one cell per column. */
  type Table = t: DataTable | forall r :: 0 <= r < |t.rows| ==> |t.rows[r]| == |t.columns|
    witness DataTable([], [])

  /** A DataSet: its tables in order. */
  type DataSet = seq<Table>

  /** A cell with its pipes escaped, so that it cannot end the Markdown cell early. */
  function EscapeCell(s: string): string
  {
    ReplaceAll(s, "|", "\\|")
  }

  /** Reads an escaped cell back: every backslash-pipe pair becomes a pipe. */
  function Unescape(s: string): string
    decreases |s|
  {
    if |s| == 0 then ""
    else if |s| >= 2 && s[0] == '\\' && s[1] == '|' then "|" + Unescape(s[2..])
    else [s[0]] + Unescape(s[1..])
  }

  lemma EscapeStep(s: string)
    requires |s| > 0
    ensures EscapeCell(s) == (if s[0] == '|' then "\\|" else [s[0]]) + EscapeCell(s[1..])
  {
    assert s[..1] == [s[0]];
  }

  /** An escaped text never starts with a bare pipe. */
  lemma EscapeStart(s: string)
    requires |s| > 0
    ensures |EscapeCell(s)| > 0 && EscapeCell(s)[0] != '|'
    ensures EscapeCell(s)[0] == (if s[0] == '|' then '\\' else s[0])
  {
    EscapeStep(s);
  }

  /** Escaping loses nothing: the cell text is recovered from the table. */
  lemma {:induction false} UnescapeEscape(s: string)
    ensures Unescape(EscapeCell(s)) == s
    decreases |s|
  {
    if |s| > 0 {
      EscapeStep(s);
      UnescapeEscape(s[1..]);
      var rest := EscapeCell(s[1..]);
      if s[0] == '|' {
        assert EscapeCell(s) == "\\|" + rest;
        assert (EscapeCell(s))[2..] == rest;
      } else {
        assert EscapeCell(s) == [s[0]] + rest;
        assert EscapeCell(s)[1..] == rest;
        if s[0] == '\\' && |rest| > 0 {
          EscapeStart(s[1..]);
        }
      }
    } else {
      assert EscapeCell(s) == "";
    }
  }

  /** Escaping adds no line break. */
  lemma {:induction false} EscapeNoNewLine(s: string)
    requires '\n' !in s
    ensures '\n' !in EscapeCell(s)
    decreases |s|
  {
    if |s| > 0 {
      EscapeStep(s);
      EscapeNoNewLine(s[1..]);
    } else {
      assert EscapeCell(s) == "";
    }
  }

  function CellText(cell: Option<string>): string
  {
    EscapeCell(if cell.None? then "" else cell.value)
  }

  function HeaderCells(columns: seq<string>): string
  {
    if |columns| == 0 then "" else HeaderCells(columns[..|columns| - 1]) + "| " + columns[|columns| - 1] + " "
  }

  function SeparatorCells(n: nat): string
  {
    if n == 0 then "" else SeparatorCells(n - 1) + "|---"
  }

  function RowCells(cells: seq<Option<string>>): string
  {
    if |cells| == 0 then "" else RowCells(cells[..|cells| - 1]) + "| " + CellText(cells[|cells| - 1]) + " "
  }

  function RowLines(rows: seq<seq<Option<string>>>): string
  {
    if |rows| == 0 then "" else RowLines(rows[..|rows| - 1]) + Line(RowCells(rows[|rows| - 1]) + "|")
  }

  /** The Markdown table: a header line, a separator line, then one line per row. */
  function MarkdownTable(t: Table): string
  {
    Line(HeaderCells(t.columns) + "|") + Line(SeparatorCells(|t.columns|) + "|") + RowLines(t.rows)
  }

  /** The table has no line break of its own in any column name or cell. */
  predicate SingleLineTable(t: Table)
  {
    (forall c :: c in t.columns ==> '\n' !in c)
    && (forall r, c :: 0 <= r < |t.rows| && c in t.rows[r] && c.Some? ==> '\n' !in c.value)
  }

  lemma {:induction false} HeaderCellsSingleLine(columns: seq<string>)
    requires forall c :: c in columns ==> '\n' !in c
    ensures '\n' !in HeaderCells(columns)
    decreases |columns|
  {
    if |columns| > 0 {
      assert columns[|columns| - 1] in columns;
      HeaderCellsSingleLine(columns[..|columns| - 1]);
    }
  }

  lemma {:induction false} SeparatorSingleLine(n: nat)
    ensures '\n' !in SeparatorCells(n)
  {
    if n > 0 {
      SeparatorSingleLine(n - 1);
    }
  }

  lemma {:induction false} RowCellsSingleLine(cells: seq<Option<string>>)
    requires forall c :: c in cells && c.Some? ==> '\n' !in c.value
    ensures '\n' !in RowCells(cells)
    decreases |cells|
  {
    if |cells| > 0 {
      var c := cells[|cells| - 1];
      assert c in cells;
      EscapeNoNewLine(if c.None? then "" else c.value);
      RowCellsSingleLine(cells[..|cells| - 1]);
    }
  }

  lemma {:induction false} RowLinesCount(rows: seq<seq<Option<string>>>)
    requires forall r, c :: 0 <= r < |rows| && c in rows[r] && c.Some? ==> '\n' !in c.value
    ensures CountChar('\n', RowLines(rows)) == |rows|
    decreases |rows|
  {
    if |rows| > 0 {
      var last := rows[|rows| - 1];
      RowCellsSingleLine(last);
      LineCount(RowCells(last) + "|");
      RowLinesCount(rows[..|rows| - 1]);
      CountCharAppend('\n', RowLines(rows[..|rows| - 1]), Line(RowCells(last) + "|"));
    }
  }

  /** A table whose texts have no line breaks renders as exactly 2 + rows lines. */
  lemma MarkdownLineCount(t: Table)
    requires SingleLineTable(t)
    ensures CountChar('\n', MarkdownTable(t)) == 2 + |t.rows|
  {
    HeaderCellsSingleLine(t.columns);
    SeparatorSingleLine(|t.columns|);
    LineCount(HeaderCells(t.columns) + "|");
    LineCount(SeparatorCells(|t.columns|) + "|");
    RowLinesCount(t.rows);
    var head := Line(HeaderCells(t.columns) + "|");
    var sep := Line(SeparatorCells(|t.columns|) + "|");
    CountCharAppend('\n', head, sep);
    CountCharAppend('\n', head + sep, RowLines(t.rows));
  }

  /** The first line of the table is the header: the column names in order. */
  lemma MarkdownStartsWithHeader(t: Table)
    ensures MarkdownTable(t)[..|HeaderCells(t.columns)| + 2] == HeaderCells(t.columns) + "|\n"
  {
  }

  const RewritePromptHead: string :=
    "You are a SQL Server expert, you will be given a query descripted in natural\r\n"
    + "language form or in SQL form and you need to generate a valid SQL query given the following schema of the database.\r\n\r\n"
    + "Database schema: "

  /** RewriteQuery's prompt as written: the schema goes through the ToString of the AssistantResponse ToPrompt returns. */
  function RewritePromptAsWritten(query: string, schema: DatabaseSchema): string
  {
    RewritePromptHead + ResponseRecordText(FromString(SchemaText(schema.tables))) + "\r\nUser Query: " + query
  }

  /** RewriteQuery's prompt as evidently intended: the schema text itself. ExecuteQuery sends the prompt as written. */
  function RewritePrompt(query: string, schema: DatabaseSchema): (p: string)
    ensures |p| > |RewritePromptHead| + |SchemaText(schema.tables)|
    ensures p[..|RewritePromptHead|] == RewritePromptHead
    ensures p[|RewritePromptHead|..|RewritePromptHead| + |SchemaText(schema.tables)|] == SchemaText(schema.tables)
  {
    var head, tables, tail := RewritePromptHead, SchemaText(schema.tables), "\r\nUser Query: " + query;
    SlicesOfConcat(head, tables, tail);
    head + tables + tail
  }

  /** As written, the model sees the record wrapper around the schema. */
  lemma RewritePromptWrapsSchema(query: string, schema: DatabaseSchema)
    ensures RewritePromptAsWritten(query, schema)
      == RewritePromptHead + (RecordPrefix + SchemaText(schema.tables) + RecordMiddle + "False" + " }") + "\r\nUser Query: " + query
  {
    FromStringRecordText(SchemaText(schema.tables));
  }

  /**
   * RewriteQuery's result: the "query" argument of the single function call the model returns.
   * SingleOrDefault gives null for no call (then dereferenced) and throws for more than one.
   */
  function RewrittenQuery(calls: seq<string>): (r: Result<string>)
    ensures r.Success? <==> |calls| == 1
    ensures r.Success? ==> r.value == calls[0]
    ensures |calls| == 0 ==> r == Failure(NullReferenceException)
  {
    if |calls| == 0 then Failure(NullReferenceException)
    else if |calls| > 1 then Failure(InvalidOperationException("Sequence contains more than one element"))
    else Success(calls[0])
  }

  /** The first table of the DataSet, as dataSet.Tables[0] reads it. */
  function FirstTable(ds: DataSet): (r: Result<Table>)
    ensures r.Success? <==> |ds| > 0
    ensures r.Success? ==> r.value == ds[0]
  {
    if |ds| == 0 then Failure(IndexOutOfRangeException) else Success(ds[0])
  }

  /** The database ExecuteQuery works on: the one named, or the user's pick among the known databases. */
  function ChosenDatabase(databaseName: Option<string>, list: Option<seq<string>>, fetched: seq<string>,
                          choose: seq<string> -> string): string
  {
    if IsNullOrEmpty(databaseName) then choose(if list.Some? then list.value else fetched) else databaseName.value
  }

  /** The schema ExecuteQuery rewrites against: the cached one, or the grouped catalogue rows. */
  function SchemaFor(schemas: SchemaCache, db: string, rows: seq<RawSchemaInfo>): DatabaseSchema
  {
    match Get(schemas, db, true)
    case Some(s) => s
    case None => DatabaseSchema(GroupRows(rows))
  }

  /** What ExecuteQuery publishes once database and schema are known, or the exception that stops it. */
  function QueryMarkdown(db: string, schema: DatabaseSchema, query: string, smartKernelAvailable: bool,
                         rewrite: string -> seq<string>, runQuery: (string, string) -> DataSet): (r: Result<string>)
    ensures r.Success? <==>
      smartKernelAvailable && |rewrite(RewritePromptAsWritten(query, schema))| == 1
      && |runQuery(db, rewrite(RewritePromptAsWritten(query, schema))[0])| > 0
    ensures r.Success? ==> r.value == MarkdownTable(runQuery(db, rewrite(RewritePromptAsWritten(query, schema))[0])[0])
    ensures !smartKernelAvailable ==> r == Failure(KeyNotFoundException("gpt4o"))
  {
    if !smartKernelAvailable then Failure(KeyNotFoundException("gpt4o"))
    else match RewrittenQuery(rewrite(RewritePromptAsWritten(query, schema)))
    case Failure(e) => Failure(e)
    case Success(sql) =>
      match FirstTable(runQuery(db, sql))
      case Failure(e) => Failure(e)
      case Success(t) => Success(MarkdownTable(t))
  }

  /** The header loop of ConvertDatasetToMarkdown: "| name " per column. */
  method AppendHeaderCells(columns: seq<string>) returns (header: string)
    ensures header == HeaderCells(columns)
  {
    header := "";
    var i := 0;
    while i < |columns|
      invariant 0 <= i <= |columns|
      invariant header == HeaderCells(columns[..i])
    {
      assert columns[..i + 1][..i] == columns[..i];
      header := header + "| " + columns[i] + " ";
      i := i + 1;
    }
    assert columns[..i] == columns;
  }

  /** The separator loop of ConvertDatasetToMarkdown: "|---" per column. */
  method AppendSeparatorCells(n: nat) returns (separator: string)
    ensures separator == SeparatorCells(n)
  {
    separator := "";
    var i := 0;
    while i < n
      invariant 0 <= i <= n
      invariant separator == SeparatorCells(i)
    {
      separator := separator + "|---";
      i := i + 1;
    }
  }

  /** The cell loop for one row: "| cell " per column, null as empty and pipes escaped. */
  method AppendRowCells(row: seq<Option<string>>) returns (line: string)
    ensures line == RowCells(row)
  {
    line := "";
    var j := 0;
    while j < |row|
      invariant 0 <= j <= |row|
      invariant line == RowCells(row[..j])
    {
      assert row[..j + 1][..j] == row[..j];
      var cell := if row[j].None? then "" else row[j].value;
      cell := ReplaceAll(cell, "|", "\\|");
      line := line + "| " + cell + " ";
      j := j + 1;
    }
    assert row[..j] == row;
  }

  /** The row loop of ConvertDatasetToMarkdown: one line per row, each closed by "|". */
  method AppendRowLines(table: Table) returns (body: string)
    ensures body == RowLines(table.rows)
  {
    body := "";
    var k := 0;
    while k < |table.rows|
      invariant 0 <= k <= |table.rows|
      invariant body == RowLines(table.rows[..k])
    {
      var line := AppendRowCells(table.rows[k]);
      assert table.rows[..k + 1][..k] == table.rows[..k];
      body := body + Line(line + "|");
      k := k + 1;
    }
    assert table.rows[..k] == table.rows;
  }

  const QueryExecutedMessage: string := "Query executed, result is in variable queryresult"

  class QueryExecutor {
    const base: Assistant
    var shared: SqlServerSharedState?

    constructor ()
      ensures fresh(base) && base.Valid()
      ensures base.functions == Register([], "ExecuteQuery", 0, false, None)
      ensures base.properties == [] && base.orchestrator == null && shared == null
    {
      var b := new Assistant("SqlServerSchemaAssistant");
      b.RegisterFunctionDelegate("ExecuteQuery", 0, false, None);
      base := b;
      shared := null;
    }

    method InitializeWithSharedState(s: SqlServerSharedState)
      modifies this`shared, s`queryExecutor
      ensures shared == s && s.queryExecutor == base
    {
      shared := s;
      s.SetQueryExecutor(base);
    }

    /** The wiring ExecuteQuery relies on: a shared state whose schema assistant shares it back. */
    predicate Wired()
      reads this, shared, if shared == null then null else shared.schemaAssistant
    {
      shared != null && shared.schemaAssistant != null && shared.schemaAssistant.shared == shared
    }

    /** ConvertDatasetToMarkdown: header, separator, then every row, cell by cell. */
    method ConvertDatasetToMarkdown(ds: DataSet) returns (r: Result<string>)
      ensures r.Success? <==> |ds| > 0
      ensures r.Success? ==> r.value == MarkdownTable(ds[0])
      ensures r.Failure? ==> r.error == IndexOutOfRangeException
    {
      if |ds| == 0 {
        return Failure(IndexOutOfRangeException);
      }
      var table := ds[0];
      var header := AppendHeaderCells(table.columns);
      var markdown := Line(header + "|");
      var separator := AppendSeparatorCells(|table.columns|);
      markdown := markdown + Line(separator + "|");
      var body := AppendRowLines(table);
      return Success(markdown + body);
    }

    /**
     * The first half of ExecuteQuery: InnerChooseDatabase when no database is named (the server's
     * database list is fetched, the user's selection is given by choose), then the schema from the
     * cache or from the catalogue rows.
     */
    method ResolveDatabase(databaseName: Option<string>, fetched: seq<string>, choose: seq<string> -> string,
                           rows: seq<RawSchemaInfo>) returns (db: string, schema: DatabaseSchema)
      requires Wired() && UniqueKeys(shared.schemas, true)
      modifies shared`databaseList, shared`schemas, shared`currentDatabase
      ensures Wired() && UniqueKeys(shared.schemas, true)
      ensures db == ChosenDatabase(databaseName, old(shared.databaseList), fetched, choose)
      ensures schema == SchemaFor(old(shared.schemas), db, rows)
      ensures HasSchema(shared.schemas, db)
      ensures IsNullOrEmpty(databaseName) ==> shared.currentDatabase == Some(db)
      ensures !IsNullOrEmpty(databaseName) ==> shared.currentDatabase == old(shared.currentDatabase)
    {
      var sa := shared.schemaAssistant;
      if IsNullOrEmpty(databaseName) {
        var list, queried := sa.InnerGetDatabaseList(fetched);
        db := choose(list);
        shared.SetCurrentDatabase(db);
      } else {
        db := databaseName.value;
      }
      var cached := Get(shared.schemas, db, true);
      if cached.Some? {
        schema := cached.value;
      } else {
        var queried;
        schema, queried := sa.InnerGetDatabaseSchema(db, rows);
      }
    }

    /**
     * ExecuteQuery. Besides ResolveDatabase's inputs: whether the "gpt4o" kernel is registered, the
     * model's function calls for a prompt (rewrite) and the DataSet a query returns (runQuery).
     */
    method ExecuteQuery(databaseName: Option<string>, query: string, fetched: seq<string>,
                        choose: seq<string> -> string, rows: seq<RawSchemaInfo>, smartKernelAvailable: bool,
                        rewrite: string -> seq<string>, runQuery: (string, string) -> DataSet)
      returns (r: Result<AssistantResponse>)
      requires Wired() && UniqueKeys(shared.schemas, true)
      requires base.orchestrator != null ==> base.orchestrator.Valid()
      modifies shared`databaseList, shared`schemas, shared`currentDatabase, base.orchestrator
      ensures Wired() && UniqueKeys(shared.schemas, true)
      ensures var db := ChosenDatabase(databaseName, old(shared.databaseList), fetched, choose);
        var md := QueryMarkdown(db, SchemaFor(old(shared.schemas), db, rows), query, smartKernelAvailable, rewrite, runQuery);
        && (r.Success? <==> md.Success? && base.orchestrator != null)
        && (r.Success? ==> r.value == AssistantResponse(QueryExecutedMessage, Some(Markdown(md.value)), true))
        && (r.Success? ==> Get(base.orchestrator.properties, "queryresult", true) == Some(md.value))
        && (md.Failure? ==> r == Failure(md.error))
        && HasSchema(shared.schemas, db)
      ensures IsNullOrEmpty(databaseName) ==> shared.currentDatabase == Some(ChosenDatabase(databaseName, old(shared.databaseList), fetched, choose))
      ensures !IsNullOrEmpty(databaseName) ==> shared.currentDatabase == old(shared.currentDatabase)
      ensures base.orchestrator == old(base.orchestrator)
    {
      var db, schema := ResolveDatabase(databaseName, fetched, choose, rows);
      if !smartKernelAvailable {
        return Failure(KeyNotFoundException("gpt4o"));
      }
      var realQuery := RewrittenQuery(rewrite(RewritePromptAsWritten(query, schema)));
      if realQuery.Failure? {
        return Failure(realQuery.error);
      }
      var markdown := ConvertDatasetToMarkdown(runQuery(db, realQuery.value));
      if markdown.Failure? {
        assert QueryMarkdown(db, schema, query, smartKernelAvailable, rewrite, runQuery) == Failure(IndexOutOfRangeException);
        return Failure(markdown.error);
      }
      var published := base.SetGlobalProperty("queryresult", markdown.value);
      if published.Failure? {
        return Failure(published.error);
      }
      PutThenGet(old(base.orchestrator.properties), "queryresult", "queryresult", markdown.value, true);
      return Success(AssistantResponse(QueryExecutedMessage, Some(Markdown(markdown.value)), true));
    }
  }
}
