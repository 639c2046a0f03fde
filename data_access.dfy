/**
 * DataAccess: the command dumper used for logging, the SQL declaration names of parameter types,
 * the ConnectionData object that tracks one connection and its transaction, and Execute, which runs
 * a query body inside that transaction.
 *
 * The ADO.NET connection and transaction are not modelled as objects: ConnectionData records, in
 * order, what it asks of them (open, begin, commit, roll back, dispose).
 */
module DataAccess {
  import opened Wrappers
  import opened Text

  /** The System.Data.DbType members the query builder uses. */
  datatype DbType = Byte | Boolean | DateTime | Double | Guid | Int16 | Int32 | Int64 | Single | String

  /** DbType.ToString(): the member's own name. */
  function DbTypeName(t: DbType): string
  {
    match t
    case Byte => "Byte"
    case Boolean => "Boolean"
    case DateTime => "DateTime"
    case Double => "Double"
    case Guid => "Guid"
    case Int16 => "Int16"
    case Int32 => "Int32"
    case Int64 => "Int64"
    case Single => "Single"
    case String => "String"
  }

  /** The four types with a SQL spelling of their own. */
  predicate HasSqlSpelling(t: DbType)
  {
    t == Int32 || t == Int16 || t == Int64 || t == String
  }

  /** GetDeclarationTypeFromDbType: the SQL type written in a DECLARE line. */
  function DeclarationType(t: DbType): (r: string)
    ensures !HasSqlSpelling(t) ==> r == DbTypeName(t)
    ensures HasSqlSpelling(t) ==> r != DbTypeName(t)
  {
    match t
    case Int32 => "INT"
    case Int16 => "SMALLINT"
    case Int64 => "BIGINT"
    case String => "varchar(max)"
    case _ => DbTypeName(t)
  }

  /** The four SQL spellings are distinct, so the declared type tells the four types apart. */
  lemma DeclarationTypeDistinguishes(a: DbType, b: DbType)
    requires HasSqlSpelling(a) && DeclarationType(a) == DeclarationType(b)
    ensures a == b
  {
    assert DeclarationType(a)[0] == DeclarationType(b)[0];
  }

  /** A parameter value: null, DBNull.Value, or a value shown through its ToString() text. */
  datatype Value = Null | DbNull | Val(text: string)

  /** GetValueFromParameter, as printed: null and DBNull print as NULL. */
  function DumpValue(v: Value): string
  {
    if v.Val? then v.text else "NULL"
  }

  /** Composite formatting of a value: null and DBNull both format as the empty string. */
  function FormatValue(v: Value): string
  {
    if v.Val? then v.text else ""
  }

  datatype CommandType = Text | StoredProcedure | TableDirect

  /** A DbParameter: its name, type, value, and whether it is an output parameter. */
  datatype Parameter = Parameter(name: string, dbType: DbType, value: Value, output: bool)

  /** What DumpCommand reads of a DbCommand. */
  datatype Command = Command(commandType: CommandType, commandText: string, parameters: seq<Parameter>)

  const DumpHeader: string := Line("Data Access Dumper:")

  /** One parameter of an EXEC dump, without the separator. */
  function ExecAssignment(p: Parameter): string
  {
    if p.dbType == String then p.name + "='" + DumpValue(p.value) + "'" else p.name + "=" + DumpValue(p.value)
  }

  function ExecAssignments(ps: seq<Parameter>): (r: seq<string>)
    ensures |r| == |ps| && forall i :: 0 <= i < |ps| ==> r[i] == ExecAssignment(ps[i])
  {
    seq(|ps|, i requires 0 <= i < |ps| => ExecAssignment(ps[i]))
  }

  /** The EXEC dump's parameter text as the builder holds it: every assignment followed by ", ". */
  function ExecTail(ps: seq<Parameter>): string
  {
    if |ps| == 0 then "" else ExecTail(ps[..|ps| - 1]) + ExecAssignment(ps[|ps| - 1]) + ", "
  }

  /** One DECLARE statement, without its line break. */
  function Declaration(p: Parameter): string
  {
    "DECLARE " + p.name + " " + DeclarationType(p.dbType) + " = " + FormatValue(p.value)
  }

  function DeclareLine(p: Parameter): string
  {
    Declaration(p) + "\n"
  }

  function DeclareLines(ps: seq<Parameter>): string
  {
    if |ps| == 0 then "" else DeclareLines(ps[..|ps| - 1]) + DeclareLine(ps[|ps| - 1])
  }

  /** The text DumpCommand produces. */
  function DumpText(c: Option<Command>): string
  {
    if c.None? then "" else
    var ps := c.value.parameters;
    if c.value.commandType == StoredProcedure then
      var tail := ExecTail(ps);
      DumpHeader + "EXEC " + c.value.commandText + " " + (if |ps| > 0 && |tail| >= 2 then tail[..|tail| - 2] else tail)
    else
      DumpHeader + DeclareLines(ps) + Line(c.value.commandText)
  }

  lemma {:induction false} ExecTailIsSuffixedConcat(ps: seq<Parameter>)
    ensures ExecTail(ps) == Concat(Suffixed(ExecAssignments(ps), ", "))
    decreases |ps|
  {
    if |ps| > 0 {
      var init := ps[..|ps| - 1];
      ExecTailIsSuffixedConcat(init);
      var xs, ys := ExecAssignments(ps), ExecAssignments(init);
      assert xs[..|ps| - 1] == ys;
      SuffixedPrefix(xs, ", ", |ps| - 1);
      var all, front := Suffixed(xs, ", "), Suffixed(ys, ", ");
      assert all[..|ps| - 1] == front;
      assert Concat(all) == Concat(front) + all[|ps| - 1];
    }
  }

  /**
   * The stored-procedure dump is "EXEC name " followed by the assignments joined with ", ": the trailing
   * separator is removed exactly when there are parameters, and nothing else is.
   */
  lemma StoredProcedureDumpJoins(name: string, ps: seq<Parameter>)
    ensures DumpText(Some(Command(StoredProcedure, name, ps))) == DumpHeader + "EXEC " + name + " " + Join(", ", ExecAssignments(ps))
  {
    ExecTailIsSuffixedConcat(ps);
    if |ps| > 0 {
      JoinIsTerminatedConcatMinusLast(", ", ExecAssignments(ps));
      var j := Join(", ", ExecAssignments(ps));
      assert ExecTail(ps) == j + ", ";
      assert (j + ", ")[..|j + ", "| - 2] == j;
    }
  }

  lemma {:induction false} DeclareLinesCount(ps: seq<Parameter>)
    requires forall i :: 0 <= i < |ps| ==> '\n' !in Declaration(ps[i])
    ensures CountChar('\n', DeclareLines(ps)) == |ps|
    decreases |ps|
  {
    if |ps| > 0 {
      var p := ps[|ps| - 1];
      DeclareLinesCount(ps[..|ps| - 1]);
      CountCharAppend('\n', DeclareLines(ps[..|ps| - 1]), DeclareLine(p));
      CountCharAppend('\n', Declaration(p), "\n");
      NoNewLineCount(Declaration(p));
    }
  }

  lemma TextDumpParts(text: string, ps: seq<Parameter>)
    ensures DumpText(Some(Command(Text, text, ps))) == (DumpHeader + DeclareLines(ps)) + Line(text)
  {
  }

  lemma HeaderLineCount()
    ensures CountChar('\n', DumpHeader) == 1
  {
    LineCount("Data Access Dumper:");
  }

  /**
   * The text-command dump is the header line, one DECLARE line per parameter and the command text
   * line: when no name, value or text holds a line break, it has exactly |parameters| + 2 lines.
   */
  lemma TextDumpLines(text: string, ps: seq<Parameter>)
    requires '\n' !in text
    requires forall i :: 0 <= i < |ps| ==> '\n' !in Declaration(ps[i])
    ensures CountChar('\n', DumpText(Some(Command(Text, text, ps)))) == |ps| + 2
  {
    var lines := DeclareLines(ps);
    TextDumpParts(text, ps);
    DeclareLinesCount(ps);
    HeaderLineCount();
    LineCount(text);
    CountCharAppend('\n', DumpHeader, lines);
    CountCharAppend('\n', DumpHeader + lines, Line(text));
  }

  /** DumpCommand: appends the dump to a builder, parameter by parameter. */
  method DumpCommand(c: Option<Command>) returns (r: string)
    ensures r == DumpText(c)
  {
    if c.None? {
      return "";
    }
    var ps := c.value.parameters;
    if c.value.commandType == StoredProcedure {
      var tail := AppendAssignments(ps);
      if |ps| > 0 {
        tail := tail[..|tail| - 2];
      }
      r := DumpHeader + "EXEC " + c.value.commandText + " " + tail;
    } else {
      var lines := AppendDeclarations(ps);
      r := DumpHeader + lines + Line(c.value.commandText);
    }
  }

  /** The stored-procedure loop of DumpCommand: every assignment followed by ", ". */
  method AppendAssignments(ps: seq<Parameter>) returns (tail: string)
    ensures tail == ExecTail(ps)
    ensures |ps| > 0 ==> |tail| >= 2
  {
    tail := "";
    var i := 0;
    while i < |ps|
      invariant 0 <= i <= |ps|
      invariant tail == ExecTail(ps[..i])
      invariant i > 0 ==> |tail| >= 2
    {
      assert ps[..i + 1][..i] == ps[..i];
      tail := tail + ExecAssignment(ps[i]) + ", ";
      i := i + 1;
    }
    assert ps[..|ps|] == ps;
  }

  /** The text-command loop of DumpCommand: one DECLARE line per parameter. */
  method AppendDeclarations(ps: seq<Parameter>) returns (lines: string)
    ensures lines == DeclareLines(ps)
  {
    lines := "";
    var i := 0;
    while i < |ps|
      invariant 0 <= i <= |ps|
      invariant lines == DeclareLines(ps[..i])
    {
      assert ps[..i + 1][..i] == ps[..i];
      lines := lines + DeclareLine(ps[i]);
      i := i + 1;
    }
    assert ps[..|ps|] == ps;
  }

  /** What ConnectionData asks of the underlying ADO.NET connection and transaction. */
  datatype DbAction = OpenConnection | BeginTransaction | CommitTransaction | RollbackTransaction | DisposeTransaction | DisposeConnection

  /**
   * ConnectionData: one connection and its transaction, created on first use. A weak reference
   * shares another ConnectionData's connection and never commits, rolls back or disposes it.
   */
  class ConnectionData {
    const isWeakReference: bool
    var isCommittedOrRolledBack: bool
    var isEnlistedInNhibernateTransaction: bool
    /** _connection != null and _transaction != null. */
    var hasConnection: bool
    var hasTransaction: bool
    /** The requests made to the connection and transaction, in order. */
    var actions: seq<DbAction>

    /** CreateConnectionData: an owning ConnectionData with no connection yet. */
    constructor (isWeakReference: bool)
      ensures this.isWeakReference == isWeakReference
      ensures !isCommittedOrRolledBack && !isEnlistedInNhibernateTransaction
      ensures !hasConnection && !hasTransaction && actions == []
    {
      this.isWeakReference := isWeakReference;
      isCommittedOrRolledBack := false;
      isEnlistedInNhibernateTransaction := false;
      hasConnection := false;
      hasTransaction := false;
      actions := [];
    }

    /** CreateWeakConnectionData: a weak copy sharing data's connection, transaction and enlistment. */
    static method CreateWeak(data: ConnectionData) returns (conn: ConnectionData)
      ensures fresh(conn) && conn.isWeakReference && !conn.isCommittedOrRolledBack
      ensures conn.hasConnection == data.hasConnection && conn.hasTransaction == data.hasTransaction
      ensures conn.isEnlistedInNhibernateTransaction == data.isEnlistedInNhibernateTransaction
      ensures conn.actions == []
    {
      conn := new ConnectionData(true);
      conn.hasConnection := data.hasConnection;
      conn.hasTransaction := data.hasTransaction;
      conn.isEnlistedInNhibernateTransaction := data.isEnlistedInNhibernateTransaction;
    }

    /** Commit: nothing on a weak reference; otherwise marks the end and commits an open transaction. */
    method Commit()
      modifies this
      ensures isWeakReference ==> isCommittedOrRolledBack == old(isCommittedOrRolledBack) && actions == old(actions)
      ensures !isWeakReference ==> isCommittedOrRolledBack
      ensures !isWeakReference ==>
        actions == old(actions) + (if !isEnlistedInNhibernateTransaction && hasTransaction then [CommitTransaction] else [])
      ensures hasConnection == old(hasConnection) && hasTransaction == old(hasTransaction)
      ensures isEnlistedInNhibernateTransaction == old(isEnlistedInNhibernateTransaction)
    {
      if isWeakReference {
        return;
      }
      isCommittedOrRolledBack := true;
      if !isEnlistedInNhibernateTransaction && hasTransaction {
        actions := actions + [CommitTransaction];
      }
    }

    /** Rollback: the same as Commit, rolling back instead. */
    method Rollback()
      modifies this
      ensures isWeakReference ==> isCommittedOrRolledBack == old(isCommittedOrRolledBack) && actions == old(actions)
      ensures !isWeakReference ==> isCommittedOrRolledBack
      ensures !isWeakReference ==>
        actions == old(actions) + (if !isEnlistedInNhibernateTransaction && hasTransaction then [RollbackTransaction] else [])
      ensures hasConnection == old(hasConnection) && hasTransaction == old(hasTransaction)
      ensures isEnlistedInNhibernateTransaction == old(isEnlistedInNhibernateTransaction)
    {
      if isWeakReference {
        return;
      }
      isCommittedOrRolledBack := true;
      if !isEnlistedInNhibernateTransaction && hasTransaction {
        actions := actions + [RollbackTransaction];
      }
    }

    /**
     * Dispose: nothing on a weak reference. Otherwise an unfinished transaction is rolled back, then
     * the transaction and the connection are disposed. Rolling back a transaction that was never
     * begun dereferences null.
     */
    method Dispose() returns (r: Result<()>)
      modifies this`actions
      ensures isWeakReference || isEnlistedInNhibernateTransaction ==> r.Success? && actions == old(actions)
      ensures !isWeakReference && !isEnlistedInNhibernateTransaction && !isCommittedOrRolledBack && !hasTransaction ==>
        r == Failure(NullReferenceException) && actions == old(actions) + (if hasConnection then [DisposeConnection] else [])
      ensures !isWeakReference && !isEnlistedInNhibernateTransaction && (isCommittedOrRolledBack || hasTransaction) ==>
        r.Success? &&
        actions == old(actions) + (if isCommittedOrRolledBack then [] else [RollbackTransaction])
                   + (if hasTransaction then [DisposeTransaction] else [])
                   + (if hasConnection then [DisposeConnection] else [])
    {
      if isWeakReference || isEnlistedInNhibernateTransaction {
        return Success(());
      }
      r := Success(());
      if !isCommittedOrRolledBack {
        if !hasTransaction {
          r := Failure(NullReferenceException);
        } else {
          actions := actions + [RollbackTransaction];
        }
      }
      if hasTransaction {
        actions := actions + [DisposeTransaction];
      }
      if hasConnection {
        actions := actions + [DisposeConnection];
      }
    }

    /** EnlistCommand: the first call opens the connection and begins the transaction; later calls reuse them. */
    method EnlistCommand()
      modifies this`hasConnection, this`hasTransaction, this`actions
      ensures hasConnection
      ensures old(hasConnection) ==> hasTransaction == old(hasTransaction) && actions == old(actions)
      ensures !old(hasConnection) ==> hasTransaction && actions == old(actions) + [OpenConnection, BeginTransaction]
    {
      if hasConnection {
        return;
      }
      hasConnection := true;
      actions := actions + [OpenConnection];
      hasTransaction := true;
      actions := actions + [BeginTransaction];
    }
  }

  /**
   * Execute: on a new ConnectionData, enlists the command, runs the body, and commits; when the body
   * throws, rolls back and rethrows; in both cases the ConnectionData is then disposed. body is what
   * the execution delegate does.
   */
  method Execute(body: Result<()>) returns (r: Result<()>, actions: seq<DbAction>)
    ensures r == body
    ensures body.Success? ==> actions == [OpenConnection, BeginTransaction, CommitTransaction, DisposeTransaction, DisposeConnection]
    ensures body.Failure? ==> actions == [OpenConnection, BeginTransaction, RollbackTransaction, DisposeTransaction, DisposeConnection]
  {
    var data := new ConnectionData(false);
    data.EnlistCommand();
    if body.Success? {
      data.Commit();
    } else {
      data.Rollback();
    }
    var disposed := data.Dispose();
    return body, data.actions;
  }
}
