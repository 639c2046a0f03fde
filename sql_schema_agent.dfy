/**
 * The state shared by the SQL Server agents (SqlServerSharedState and its schema part) and the
 * schema assistant, in both of its variants: the SampleAgents one (SqlServer/SqlServerSchemaAssistant.cs)
 * and the Demo2 one (SampleAssistantDemo2/SqlServerSchemaAssistant.cs).
 */
module SqlSchemaAgent {
  import opened Wrappers
  import opened Text
  import opened OrderedDict
  import opened SqlSchema
  import opened AssistantResponses
  import opened Assistants

  /** Which of the two schema assistants: they share the caches and differ in registrations and facts. */
  datatype Variant = SampleAgents | Demo2

  /** The schema cache: database name to schema, compared with OrdinalIgnoreCase. */
  type SchemaCache = Entries<DatabaseSchema>

  predicate HasSchema(schemas: SchemaCache, db: string)
  {
    ContainsKey(schemas, db, true)
  }

  /** Every listed database has a cached schema. */
  predicate AllListedHaveSchema(dbs: seq<string>, schemas: SchemaCache)
  {
    forall i :: 0 <= i < |dbs| ==> HasSchema(schemas, dbs[i])
  }

  /** SchemaRetrievedForAllDataBases: a count comparison, not a membership test. */
  predicate RetrievedForAll(list: Option<seq<string>>, schemas: SchemaCache)
  {
    |schemas| > 0 && list.Some? && |schemas| == |list.value|
  }

  /** One line of the SampleAgents schema fact, without its line break. */
  function SchemaStatus(db: string, schemas: SchemaCache): string
  {
    db + (if HasSchema(schemas, db) then " Schema IS retrieved" else " Schema NOT retrieved")
  }

  function StatusLines(dbs: seq<string>, schemas: SchemaCache): string
  {
    if |dbs| == 0 then "" else StatusLines(dbs[..|dbs| - 1], schemas) + Line(SchemaStatus(dbs[|dbs| - 1], schemas))
  }

  /**
   * SqlServerSchemaAssistantState.ToPromptFact (SampleAgents): the database list with each database's
   * cache status, then the "all retrieved" line when no listed database lacks a schema (also when
   * there is no list at all).
   */
  function SchemaFact(list: Option<seq<string>>, schemas: SchemaCache): string
  {
    (if list.Some? then Line("Database list:") + StatusLines(list.value, schemas) else "")
    + (if list.None? || AllListedHaveSchema(list.value, schemas) then Line("All database schema are retrieved") else "")
  }

  function PlainLines(dbs: seq<string>): string
  {
    if |dbs| == 0 then "" else PlainLines(dbs[..|dbs| - 1]) + Line(dbs[|dbs| - 1])
  }

  const Demo2SchemaNotice: string :=
    "\nI already retrieved schema for the following databases. If you need to know the schema call GetTableSchemaRepresentation"

  /**
   * SqlServerSchemaAssistantState.ToPromptFact (Demo2): nothing without a list; otherwise the list,
   * and when some schema is cached a notice followed by the cached names written back to back.
   */
  function Demo2SchemaFact(list: Option<seq<string>>, schemas: SchemaCache): string
  {
    if list.None? then "" else
    var cachedNames := if |schemas| > 0 then Line(Demo2SchemaNotice) + Concat(Keys(schemas)) else "";
    Line("Database list:") + PlainLines(list.value) + cachedNames
  }

  /** SqlServerSharedState.ToPromptFact: the schema fact, the query fact, and the chosen database if any. */
  function SharedFact(list: Option<seq<string>>, schemas: SchemaCache, current: Option<string>): string
  {
    Line(SchemaFact(list, schemas)) + Line("QueryResult.")
    + (if !IsNullOrEmpty(current) then Line("User choose to work with database is " + current.value) else "")
  }

  /** The state the eligibility predicates read: the shared state, if one was set. */
  datatype SchemaView = SchemaView(databaseList: Option<seq<string>>, schemas: SchemaCache)

  const GetDatabaseListName: string := "GetDatabaseList"
  const RetrieveDatabaseSchemaName: string := "RetrieveDatabaseSchema"
  const RetrieveTableSchemaName: string := "RetrieveTableSchema"
  const GetTableSchemaRepresentationName: string := "GetTableSchemaRepresentation"

  /** Delegate identities of the three functions each schema assistant registers. */
  const GetDatabaseListHandler: nat := 0
  const RetrieveSchemaHandler: nat := 1
  const SchemaRepresentationHandler: nat := 2

  /** GetDatabaseList's predicate: no shared state, or no database list yet (null or empty). */
  predicate GetDatabaseListEligible(view: Option<SchemaView>)
  {
    view.None? || view.value.databaseList.None? || |view.value.databaseList.value| == 0
  }

  /** RetrieveDatabaseSchema's predicate as written: no shared state, or the schema already retrieved for all databases. */
  predicate RetrieveSchemaEligibleAsWritten(view: Option<SchemaView>)
  {
    view.None? || RetrievedForAll(view.value.databaseList, view.value.schemas)
  }

  /** RetrieveDatabaseSchema's predicate as evidently intended: offered while the schemas are not all retrieved. */
  predicate RetrieveSchemaEligible(view: Option<SchemaView>)
  {
    view.None? || !RetrievedForAll(view.value.databaseList, view.value.schemas)
  }

  /** The registrations of the schema assistant's constructor. */
  function SchemaRegistry(variant: Variant): Registry
  {
    match variant
    case SampleAgents =>
      var r0 := Register([], GetDatabaseListName, GetDatabaseListHandler, false, Some(GetDatabaseListName));
      var r1 := Register(r0, RetrieveDatabaseSchemaName, RetrieveSchemaHandler, false, Some(RetrieveDatabaseSchemaName));
      Register(r1, GetTableSchemaRepresentationName, SchemaRepresentationHandler, true, None)
    case Demo2 =>
      var r0 := Register([], GetDatabaseListName, GetDatabaseListHandler, false, None);
      var r1 := Register(r0, RetrieveTableSchemaName, RetrieveSchemaHandler, false, None);
      Register(r1, GetTableSchemaRepresentationName, SchemaRepresentationHandler, true, None)
  }

  /** No two of the schema assistant's function names collide, ignoring case. */
  lemma FunctionNamesDistinct()
    ensures !SameKey(GetDatabaseListName, RetrieveDatabaseSchemaName, true)
    ensures !SameKey(GetDatabaseListName, RetrieveTableSchemaName, true)
    ensures !SameKey(GetDatabaseListName, GetTableSchemaRepresentationName, true)
    ensures !SameKey(RetrieveDatabaseSchemaName, GetTableSchemaRepresentationName, true)
    ensures !SameKey(RetrieveTableSchemaName, GetTableSchemaRepresentationName, true)
  {
  }

  /** The registry holds the three functions in registration order, only the schema representation being final. */
  lemma SchemaRegistryShape(variant: Variant)
    ensures WellFormed(SchemaRegistry(variant))
    ensures |SchemaRegistry(variant)| == 3
    ensures Keys(SchemaRegistry(variant)) == [GetDatabaseListName,
      if variant == SampleAgents then RetrieveDatabaseSchemaName else RetrieveTableSchemaName,
      GetTableSchemaRepresentationName]
    ensures forall i :: 0 <= i < 3 ==> (SchemaRegistry(variant)[i].1.isFinal <==> i == 2)
  {
    var second := if variant == SampleAgents then RetrieveDatabaseSchemaName else RetrieveTableSchemaName;
    var g0: Option<string> := if variant == SampleAgents then Some(GetDatabaseListName) else None;
    var g1: Option<string> := if variant == SampleAgents then Some(RetrieveDatabaseSchemaName) else None;
    FunctionNamesDistinct();
    var r0 := Register([], GetDatabaseListName, GetDatabaseListHandler, false, g0);
    var r1 := Register(r0, second, RetrieveSchemaHandler, false, g1);
    assert SchemaRegistry(variant) == Register(r1, GetTableSchemaRepresentationName, SchemaRepresentationHandler, true, None);
  }

  /** Demo2 registers no predicates: every call offers all three functions, whatever the state. */
  lemma Demo2OffersEverything(holds: string -> bool)
    ensures EligibleFunctions(SchemaRegistry(Demo2), holds) == Values(SchemaRegistry(Demo2))
  {
    SchemaRegistryShape(Demo2);
    var reg := SchemaRegistry(Demo2);
    assert reg[..2][..1] == reg[..1];
    assert reg[..1][..0] == [];
  }

  const SchemaQuestionInstruction: string :=
    "You will answer the user question using the information of database schema that \r\n"
    + "are contained in the prompt, you should never use anything else than the included schema to answer the question\r\n\r\n"

  /** The prompt sent to the language model to answer a question from a schema. */
  function SchemaQuestionPrompt(question: string, schemaText: string): string
  {
    SchemaQuestionInstruction + "question: " + question + "\r\n\r\nSCHEMA:\r\n" + schemaText
  }

  /**
   * GetTableSchemaRepresentation as written: the kernel is looked up first; then the local variable,
   * still null after a cache miss, is dereferenced; on a hit the schema is interpolated through the
   * ToString of the AssistantResponse that ToPrompt returns.
   */
  function AnswerAsWritten(hit: Option<DatabaseSchema>, question: string, kernelAvailable: bool,
                           llm: string -> string): Result<AssistantResponse>
  {
    if !kernelAvailable then Failure(KeyNotFoundException("gpt4omini"))
    else if hit.None? then Failure(NullReferenceException)
    else
      var rendered := ResponseRecordText(FromString(SchemaText(hit.value.tables)));
      Success(AssistantResponse(llm(SchemaQuestionPrompt(question, rendered)), None, true))
  }

  /** GetTableSchemaRepresentation as evidently intended: the schema found or just retrieved, as plain text. */
  function Answer(schema: DatabaseSchema, question: string, kernelAvailable: bool, llm: string -> string): (r: Result<AssistantResponse>)
    ensures r.Failure? <==> !kernelAvailable
    ensures r.Success? ==> r.value.terminateCycle && r.value.state.None?
    ensures r.Success? ==> r.value.result == llm(SchemaQuestionPrompt(question, SchemaText(schema.tables)))
  {
    if !kernelAvailable then Failure(KeyNotFoundException("gpt4omini"))
    else Success(AssistantResponse(llm(SchemaQuestionPrompt(question, SchemaText(schema.tables))), None, true))
  }

  /** As written, the first question about a database whose schema is not cached always fails. */
  lemma AnswerAsWrittenFailsOnMiss(question: string, llm: string -> string)
    ensures AnswerAsWritten(None, question, true, llm) == Failure(NullReferenceException)
  {
  }

  /** As written, a cached schema reaches the model wrapped in the response record's text. */
  lemma AnswerAsWrittenWrapsSchema(schema: DatabaseSchema, question: string, llm: string -> string)
    ensures AnswerAsWritten(Some(schema), question, true, llm)
      == Success(AssistantResponse(llm(SchemaQuestionPrompt(question,
           RecordPrefix + SchemaText(schema.tables) + RecordMiddle + "False" + " }")), None, true))
  {
    FromStringRecordText(SchemaText(schema.tables));
  }

  /** As written, RetrieveDatabaseSchema is hidden while a listed database has no schema yet. */
  lemma RetrieveSchemaHiddenWhileNeeded(db: string)
    ensures !RetrieveSchemaEligibleAsWritten(Some(SchemaView(Some([db]), [])))
    ensures RetrieveSchemaEligible(Some(SchemaView(Some([db]), [])))
  {
  }

  /** As written, RetrieveDatabaseSchema is offered exactly when every listed database is counted as retrieved. */
  lemma RetrieveSchemaOfferedWhenDone(db: string, schema: DatabaseSchema)
    ensures RetrieveSchemaEligibleAsWritten(Some(SchemaView(Some([db]), [(db, schema)])))
    ensures !RetrieveSchemaEligible(Some(SchemaView(Some([db]), [(db, schema)])))
  {
  }

  /** The intended predicate offers RetrieveDatabaseSchema exactly when the as-written one does not, once state is shared. */
  lemma RetrieveSchemaPredicatesOpposite(view: SchemaView)
    ensures RetrieveSchemaEligible(Some(view)) <==> !RetrieveSchemaEligibleAsWritten(Some(view))
  {
  }

  /**
   * SchemaRetrievedForAllDataBases counts entries: a schema cached under a name outside the list
   * makes it true while the fact still reports a listed database without schema.
   */
  lemma RetrievedForAllIsACount(s: DatabaseSchema)
    ensures RetrievedForAll(Some(["a", "b"]), [("a", s), ("c", s)])
    ensures !AllListedHaveSchema(["a", "b"], [("a", s), ("c", s)])
  {
    assert Fold("a")[0] != Fold("b")[0] && Fold("c")[0] != Fold("b")[0];
    assert !HasSchema([("a", s), ("c", s)], "b");
    assert ["a", "b"][1] == "b";
  }

  /** With no database list the SampleAgents fact claims every schema retrieved. */
  lemma SchemaFactWithoutList(schemas: SchemaCache)
    ensures SchemaFact(None, schemas) == "All database schema are retrieved\n"
  {
  }

  /** The SampleAgents fact reports the "all retrieved" line exactly when no listed database lacks a schema. */
  lemma SchemaFactAllLine(dbs: seq<string>, schemas: SchemaCache)
    ensures SchemaFact(Some(dbs), schemas) == Line("Database list:") + StatusLines(dbs, schemas)
      + (if AllListedHaveSchema(dbs, schemas) then "All database schema are retrieved\n" else "")
  {
  }

  /** Each listed database gets one status line, saying whether its schema is cached. */
  lemma {:induction false} StatusLinesAt(dbs: seq<string>, schemas: SchemaCache, k: nat)
    requires k < |dbs|
    ensures StatusLines(dbs, schemas) == StatusLines(dbs[..k], schemas) + Line(SchemaStatus(dbs[k], schemas))
      + StatusLines(dbs[k + 1..], schemas)
    decreases |dbs|
  {
    if k < |dbs| - 1 {
      var init := dbs[..|dbs| - 1];
      StatusLinesAt(init, schemas, k);
      assert init[..k] == dbs[..k];
      assert init[k] == dbs[k];
      assert init[k + 1..] == dbs[k + 1..|dbs| - 1];
      assert dbs[k + 1..][..|dbs[k + 1..]| - 1] == dbs[k + 1..|dbs| - 1];
    } else {
      assert dbs[..|dbs| - 1] == dbs[..k];
      assert dbs[k + 1..] == [];
    }
  }

  /** The Demo2 fact writes the cached names back to back: two different caches can read the same. */
  lemma Demo2FactRunsNamesTogether(s: DatabaseSchema)
    ensures Demo2SchemaFact(Some([]), [("ab", s)]) == Demo2SchemaFact(Some([]), [("a", s), ("b", s)])
  {
    assert Concat(Keys([("ab", s)])) == "ab" by {
      assert Keys([("ab", s)]) == ["ab"];
    }
    assert Concat(Keys([("a", s), ("b", s)])) == "ab" by {
      assert Keys([("a", s), ("b", s)]) == ["a", "b"];
      assert ["a", "b"][..1] == ["a"];
    }
  }

  /** The pieces the fact loop appends for one database make up its status line. */
  lemma StatusAppended(before: string, db: string, schemas: SchemaCache, hasSchema: bool, after: string)
    requires hasSchema == HasSchema(schemas, db)
    requires after == before + db + (if hasSchema then " Schema IS retrieved" else " Schema NOT retrieved") + NewLine
    ensures after == before + Line(SchemaStatus(db, schemas))
  {
  }

  lemma StatusLinesSnoc(dbs: seq<string>, i: nat, schemas: SchemaCache)
    requires i < |dbs|
    ensures StatusLines(dbs[..i + 1], schemas) == StatusLines(dbs[..i], schemas) + Line(SchemaStatus(dbs[i], schemas))
  {
    assert dbs[..i + 1][..i] == dbs[..i];
  }

  lemma AllListedSnoc(dbs: seq<string>, i: nat, schemas: SchemaCache)
    requires i < |dbs|
    ensures AllListedHaveSchema(dbs[..i + 1], schemas)
      <==> AllListedHaveSchema(dbs[..i], schemas) && HasSchema(schemas, dbs[i])
  {
    assert dbs[..i + 1][i] == dbs[i];
    assert forall k :: 0 <= k < i ==> dbs[..i + 1][k] == dbs[..i][k];
  }

  class SqlServerSharedState {
    var databaseList: Option<seq<string>>
    var schemas: SchemaCache
    var currentDatabase: Option<string>
    var schemaAssistant: SchemaAssistant?
    /** The query executor, held through its assistant part. */
    var queryExecutor: Assistant?

    constructor ()
      ensures databaseList.None? && schemas == [] && currentDatabase.None?
      ensures schemaAssistant == null && queryExecutor == null
    {
      databaseList := None;
      schemas := [];
      currentDatabase := None;
      schemaAssistant := null;
      queryExecutor := null;
    }

    function View(): SchemaView
      reads this
    {
      SchemaView(databaseList, schemas)
    }

    function SchemaRetrievedForAllDataBases(): (r: bool)
      reads this
      ensures r ==> databaseList.Some? && |databaseList.value| > 0
    {
      RetrievedForAll(databaseList, schemas)
    }

    method SetSchemaAssistant(a: SchemaAssistant)
      modifies this`schemaAssistant
      ensures schemaAssistant == a
    {
      schemaAssistant := a;
    }

    method SetQueryExecutor(e: Assistant)
      modifies this`queryExecutor
      ensures queryExecutor == e
    {
      queryExecutor := e;
    }

    method SetCurrentDatabase(db: string)
      modifies this`currentDatabase
      ensures currentDatabase == Some(db)
    {
      currentDatabase := Some(db);
    }

    /** One iteration of the status loop: the database name, whether its schema is cached, then a newline. */
    method AppendStatus(before: string, db: string) returns (fact: string, hasSchema: bool)
      ensures hasSchema == HasSchema(schemas, db)
      ensures fact == before + Line(SchemaStatus(db, schemas))
    {
      hasSchema := ContainsKey(schemas, db, true);
      fact := before + db;
      if hasSchema {
        fact := fact + " Schema IS retrieved";
      } else {
        fact := fact + " Schema NOT retrieved";
      }
      fact := fact + NewLine;
      StatusAppended(before, db, schemas, hasSchema, fact);
    }

    /** The foreach over the database list: one status line per database, and whether every one has a schema. */
    method StatusList(dbs: seq<string>) returns (lines: string, allHaveSchema: bool)
      ensures lines == StatusLines(dbs, schemas)
      ensures allHaveSchema == AllListedHaveSchema(dbs, schemas)
    {
      lines := "";
      allHaveSchema := true;
      var i := 0;
      while i < |dbs|
        invariant 0 <= i <= |dbs|
        invariant lines == StatusLines(dbs[..i], schemas)
        invariant allHaveSchema == AllListedHaveSchema(dbs[..i], schemas)
      {
        var hasSchema;
        lines, hasSchema := AppendStatus(lines, dbs[i]);
        if !hasSchema {
          allHaveSchema := false;
        }
        StatusLinesSnoc(dbs, i, schemas);
        AllListedSnoc(dbs, i, schemas);
        i := i + 1;
      }
      assert dbs[..i] == dbs;
    }

    /** SqlServerSchemaAssistantState.ToPromptFact (SampleAgents): the loop with the allDatabaseHasSchema flag. */
    method SchemaStateFact() returns (fact: string)
      ensures fact == SchemaFact(databaseList, schemas)
    {
      fact := "";
      var allHaveSchema := true;
      if databaseList.Some? {
        var lines;
        lines, allHaveSchema := StatusList(databaseList.value);
        fact := Line("Database list:") + lines;
      }
      if allHaveSchema {
        fact := fact + Line("All database schema are retrieved");
      }
    }

    /** SqlServerSchemaAssistantState.ToPromptFact (Demo2). */
    method Demo2SchemaStateFact() returns (fact: string)
      ensures fact == Demo2SchemaFact(databaseList, schemas)
    {
      fact := "";
      if databaseList.Some? {
        var dbs := databaseList.value;
        fact := Line("Database list:");
        var i := 0;
        while i < |dbs|
          invariant 0 <= i <= |dbs|
          invariant fact == Line("Database list:") + PlainLines(dbs[..i])
        {
          assert dbs[..i + 1][..i] == dbs[..i];
          fact := fact + Line(dbs[i]);
          i := i + 1;
        }
        assert dbs[..i] == dbs;
        if |schemas| > 0 {
          var names := Keys(schemas);
          var before := fact + Line(Demo2SchemaNotice);
          fact := before;
          var j := 0;
          while j < |names|
            invariant 0 <= j <= |names|
            invariant fact == before + Concat(names[..j])
          {
            assert names[..j + 1][..j] == names[..j];
            fact := fact + names[j];
            j := j + 1;
          }
          assert names[..j] == names;
        }
      }
    }

    /** SqlServerSharedState.ToPromptFact. */
    method ToPromptFact() returns (fact: string)
      ensures fact == SharedFact(databaseList, schemas, currentDatabase)
    {
      var schemaFact := SchemaStateFact();
      fact := Line(schemaFact) + Line("QueryResult.");
      if !IsNullOrEmpty(currentDatabase) {
        fact := fact + Line("User choose to work with database is " + currentDatabase.value);
      }
    }
  }

  class SchemaAssistant {
    const variant: Variant
    const base: Assistant
    var shared: SqlServerSharedState?

    constructor (variant: Variant)
      ensures this.variant == variant && fresh(base) && base.Valid()
      ensures base.functions == SchemaRegistry(variant) && base.properties == [] && base.orchestrator == null
      ensures shared == null
    {
      this.variant := variant;
      var b := new Assistant("SqlServerSchemaAssistant");
      SchemaRegistryShape(variant);
      if variant == SampleAgents {
        b.RegisterFunctionDelegate(GetDatabaseListName, GetDatabaseListHandler, false, Some(GetDatabaseListName));
        b.RegisterFunctionDelegate(RetrieveDatabaseSchemaName, RetrieveSchemaHandler, false, Some(RetrieveDatabaseSchemaName));
      } else {
        b.RegisterFunctionDelegate(GetDatabaseListName, GetDatabaseListHandler, false, None);
        b.RegisterFunctionDelegate(RetrieveTableSchemaName, RetrieveSchemaHandler, false, None);
      }
      b.RegisterFunctionDelegate(GetTableSchemaRepresentationName, SchemaRepresentationHandler, true, None);
      base := b;
      shared := null;
    }

    method InitializeWithSharedState(s: SqlServerSharedState)
      modifies this`shared, s`schemaAssistant
      ensures shared == s && s.schemaAssistant == this
    {
      shared := s;
      s.SetSchemaAssistant(this);
    }

    /**
     * InnerGetDatabaseList: the cached list when there is one, otherwise the list the server returns
     * (the fetched parameter), which is then cached. queried says whether the server was asked.
     */
    method InnerGetDatabaseList(fetched: seq<string>) returns (list: seq<string>, queried: bool)
      requires shared != null
      modifies shared`databaseList
      ensures queried <==> old(shared.databaseList).None?
      ensures old(shared.databaseList).Some? ==> list == old(shared.databaseList).value
      ensures queried ==> list == fetched
      ensures shared.databaseList == Some(list)
    {
      if shared.databaseList.Some? {
        return shared.databaseList.value, false;
      }
      shared.databaseList := Some(fetched);
      return fetched, true;
    }

    method GetDatabaseList(fetched: seq<string>) returns (r: AssistantResponse)
      requires shared != null
      modifies shared`databaseList
      ensures shared.databaseList.Some?
      ensures r == AssistantResponse("retrieved list of database.", Some(DatabaseNames(shared.databaseList.value)), false)
      ensures old(shared.databaseList).Some? ==> shared.databaseList == old(shared.databaseList)
    {
      var list, _ := InnerGetDatabaseList(fetched);
      r := AssistantResponse("retrieved list of database.", Some(DatabaseNames(list)), false);
    }

    /**
     * InnerGetDatabaseSchema: the cached schema for the name (any case) when there is one, otherwise
     * the catalogue rows the server returns (the rows parameter), grouped per table and cached.
     */
    method InnerGetDatabaseSchema(databaseName: string, rows: seq<RawSchemaInfo>) returns (schema: DatabaseSchema, queried: bool)
      requires shared != null && UniqueKeys(shared.schemas, true)
      modifies shared`schemas
      ensures queried <==> !HasSchema(old(shared.schemas), databaseName)
      ensures !queried ==> Some(schema) == Get(old(shared.schemas), databaseName, true) && shared.schemas == old(shared.schemas)
      ensures queried ==> schema == DatabaseSchema(GroupRows(rows))
      ensures queried ==> shared.schemas == old(shared.schemas) + [(databaseName, schema)]
      ensures UniqueKeys(shared.schemas, true) && Get(shared.schemas, databaseName, true) == Some(schema)
    {
      var cached := Get(shared.schemas, databaseName, true);
      if cached.Some? {
        return cached.value, false;
      }
      schema := DatabaseSchema(GroupRows(rows));
      PutKeepsUnique(shared.schemas, databaseName, schema, true);
      PutThenGet(shared.schemas, databaseName, databaseName, schema, true);
      shared.schemas := Put(shared.schemas, databaseName, schema, true);
      queried := true;
    }

    /** RetrieveDatabaseSchema (SampleAgents) / RetrieveTableSchema (Demo2). */
    method RetrieveDatabaseSchema(databaseName: string, rows: seq<RawSchemaInfo>) returns (r: AssistantResponse)
      requires shared != null && UniqueKeys(shared.schemas, true)
      modifies shared`schemas
      ensures UniqueKeys(shared.schemas, true)
      ensures r.result == "retrieved list of tables." && !r.terminateCycle
      ensures r.state.Some? && r.state.value.Schema? && Get(shared.schemas, databaseName, true) == Some(r.state.value.schema)
    {
      var schema, _ := InnerGetDatabaseSchema(databaseName, rows);
      r := AssistantResponse("retrieved list of tables.", Some(Schema(schema)), false);
    }

    /**
     * GetTableSchemaRepresentation as written: a cache miss fetches and caches the schema but leaves
     * the local null, so the call fails once the kernel is found.
     */
    method GetTableSchemaRepresentation(databaseName: string, question: string, rows: seq<RawSchemaInfo>,
                                        kernelAvailable: bool, llm: string -> string) returns (r: Result<AssistantResponse>)
      requires shared != null && UniqueKeys(shared.schemas, true)
      modifies shared`schemas
      ensures UniqueKeys(shared.schemas, true) && HasSchema(shared.schemas, databaseName)
      ensures r == AnswerAsWritten(Get(old(shared.schemas), databaseName, true), question, kernelAvailable, llm)
      ensures HasSchema(old(shared.schemas), databaseName) ==> shared.schemas == old(shared.schemas)
    {
      var hit := Get(shared.schemas, databaseName, true);
      if hit.None? {
        var _, _ := InnerGetDatabaseSchema(databaseName, rows);
      }
      r := AnswerAsWritten(hit, question, kernelAvailable, llm);
    }

    /** GetTableSchemaRepresentation as evidently intended: it answers from the schema it found or retrieved. */
    method GetTableSchemaRepresentationCorrected(databaseName: string, question: string, rows: seq<RawSchemaInfo>,
                                                 kernelAvailable: bool, llm: string -> string) returns (r: Result<AssistantResponse>)
      requires shared != null && UniqueKeys(shared.schemas, true)
      modifies shared`schemas
      ensures UniqueKeys(shared.schemas, true)
      ensures r.Failure? <==> !kernelAvailable
      ensures Get(shared.schemas, databaseName, true).Some?
      ensures r.Success? ==> r.value.terminateCycle
      ensures r.Success? ==>
        r.value.result == llm(SchemaQuestionPrompt(question, SchemaText(Get(shared.schemas, databaseName, true).value.tables)))
    {
      var schema, _ := InnerGetDatabaseSchema(databaseName, rows);
      r := Answer(schema, question, kernelAvailable, llm);
    }
  }
}
