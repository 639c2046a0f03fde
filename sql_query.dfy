/**
 * SqlQuery: the fluent query builder. Its text is a StringBuilder that the Append and Trim
 * operations change in place; SetParam turns a "{name}" placeholder into the provider's parameter
 * name and adds a parameter to the command. Two reader loops are modelled: the header of
 * ExecuteDataset, which renames repeated field names, and the row bound of ExecuteReaderMaxRecord.
 *
 * The provider's parameter marker format is modelled as a prefix (SqlClient's "@{0}" is "@").
 */
module SqlQueries {
  import opened Wrappers
  import opened Text
  import opened OrderedDict
  import opened DataAccess

  /** An output parameter registered under the caller's name: the provider parameter name and the type it is read back as. */
  datatype OutputParameter = OutputParameter(name: string, typeName: string)

  /** Every character of s is c (vacuously so for the empty string). */
  predicate AllChar(s: string, c: char)
  {
    forall k :: 0 <= k < |s| ==> s[k] == c
  }

  /** s without its maximal trailing run of c. */
  function TrimRun(s: string, c: char): (r: string)
    ensures |r| <= |s| && r == s[..|r|]
    ensures |r| == 0 || r[|r| - 1] != c
    ensures forall k :: |r| <= k < |s| ==> s[k] == c
  {
    if |s| == 0 then ""
    else if s[|s| - 1] == c then TrimRun(s[..|s| - 1], c)
    else s
  }

  /** A string not ending in c loses nothing. */
  lemma TrimRunNoTrailing(s: string, c: char)
    requires |s| > 0 && s[|s| - 1] != c
    ensures TrimRun(s, c) == s
  {
  }

  /** Dropping one trailing c from a prefix does not change what trimming leaves. */
  lemma TrimRunStep(s: string, c: char, n: nat)
    requires 0 < n <= |s| && s[n - 1] == c
    ensures TrimRun(s[..n - 1], c) == TrimRun(s[..n], c)
  {
    assert s[..n][..n - 1] == s[..n - 1];
  }

  /** What is left after trimming is empty exactly when the string consisted of c alone. */
  lemma {:induction false} TrimRunEmpty(s: string, c: char)
    ensures |TrimRun(s, c)| == 0 <==> AllChar(s, c)
    decreases |s|
  {
    if |s| > 0 && s[|s| - 1] == c {
      TrimRunEmpty(s[..|s| - 1], c);
      if AllChar(s[..|s| - 1], c) {
        assert forall k :: 0 <= k < |s| ==> s[k] == c by {
          forall k | 0 <= k < |s| ensures s[k] == c {
            if k < |s| - 1 {
              assert s[..|s| - 1][k] == s[k];
            }
          }
        }
      } else {
        var k :| 0 <= k < |s| - 1 && s[..|s| - 1][k] != c;
        assert s[k] != c;
      }
    }
  }

  /** Trimming twice trims nothing more. */
  lemma TrimRunIdempotent(s: string, c: char)
    ensures TrimRun(TrimRun(s, c), c) == TrimRun(s, c)
  {
    var r := TrimRun(s, c);
    if |r| > 0 {
      TrimRunNoTrailing(r, c);
    }
  }

  /** StringBuilder.Length = n: shortening truncates, lengthening pads with '\0' characters. */
  function SetLength(s: string, n: nat): (r: string)
    ensures |r| == n
    ensures n <= |s| ==> r == s[..n]
    ensures n > |s| ==> r[..|s|] == s && forall k :: |s| <= k < n ==> r[k] == '\0'
  {
    if n <= |s| then s[..n] else s + seq(n - |s|, _ => '\0')
  }

  /** The Boolean.ToString() text of a value. */
  function BoolText(b: bool): string
  {
    if b then "True" else "False"
  }

  /** The stored value of a parameter: a null argument is stored as DBNull. */
  function StoredValue(v: Value): (r: Value)
    ensures r != Null
    ensures v != Null ==> r == v
  {
    if v == Null then DbNull else v
  }

  /** A nullable value: null, or a value shown through its text. */
  function OptionalValue(v: Option<string>): (r: Value)
    ensures r.Val? <==> v.Some?
    ensures v.Some? ==> r.text == v.value
  {
    if v.Some? then Val(v.value) else Null
  }

  /** The query builder object. */
  class SqlQuery {
    const commandType: CommandType
    /** The parameter marker prefix of the provider ("@" for SqlClient). */
    const markerPrefix: string
    /** The StringBuilder holding the query text. */
    var query: string
    /** Command.Parameters, in the order they were added. */
    var parameters: seq<Parameter>
    /** OutputParameters, keyed by the caller's name. */
    var outputParameters: Entries<OutputParameter>
    /** Command.CommandTimeout, in seconds. */
    var timeout: int

    constructor (query: string, commandType: CommandType, markerPrefix: string)
      ensures this.query == query && this.commandType == commandType && this.markerPrefix == markerPrefix
      ensures parameters == [] && outputParameters == [] && timeout == 1200
    {
      this.query := query;
      this.commandType := commandType;
      this.markerPrefix := markerPrefix;
      parameters := [];
      outputParameters := [];
      timeout := 1200;
    }

    /** GetParameterName: the name formatted with the provider's marker. */
    function ParameterName(name: string): (r: string)
      reads this
      ensures |r| == |markerPrefix| + |name|
      ensures r[|markerPrefix|..] == name && r[..|markerPrefix|] == markerPrefix
    {
      markerPrefix + name
    }

    /** AppendToQuery: the fragment is appended verbatim; the builder itself is returned. */
    method AppendToQuery(fragment: string) returns (self: SqlQuery)
      modifies this`query
      ensures query == old(query) + fragment && self == this
    {
      query := query + fragment;
      return this;
    }

    /** AppendLineToQuery: a line break, then the fragment. */
    method AppendLineToQuery(fragment: string) returns (self: SqlQuery)
      modifies this`query
      ensures query == old(query) + "\n" + fragment && self == this
    {
      query := query + "\n";
      query := query + fragment;
      return this;
    }

    /**
     * TrimCharFromEnd: walks back from the end while the character matches and cuts the query after the
     * last character that differs. When every character matches (or the query is empty) the walk reads
     * before the start and throws, leaving the query as it was.
     */
    method TrimCharFromEnd(charToTrim: char) returns (r: Result<SqlQuery>)
      modifies this`query
      ensures AllChar(old(query), charToTrim) ==> r == Failure(IndexOutOfRangeException) && query == old(query)
      ensures !AllChar(old(query), charToTrim) ==> r == Success(this) && query == TrimRun(old(query), charToTrim)
    {
      var q := query;
      var newLength := |q|;
      while newLength > 0 && q[newLength - 1] == charToTrim
        invariant 0 <= newLength <= |q| && query == q
        invariant TrimRun(q[..newLength], charToTrim) == TrimRun(q, charToTrim)
      {
        TrimRunStep(q, charToTrim, newLength);
        newLength := newLength - 1;
      }
      TrimRunEmpty(q, charToTrim);
      if newLength == 0 {
        return Failure(IndexOutOfRangeException);
      }
      TrimRunNoTrailing(q[..newLength], charToTrim);
      query := q[..newLength];
      return Success(this);
    }

    /**
     * TrimCharsFromEnd: Length -= n. A negative resulting length throws and leaves the query as it was;
     * a negative n lengthens the query with '\0' characters.
     */
    method TrimCharsFromEnd(numOfCharToRemove: int) returns (r: Result<SqlQuery>)
      modifies this`query
      ensures |old(query)| - numOfCharToRemove < 0 ==> r == Failure(ArgumentOutOfRangeException) && query == old(query)
      ensures |old(query)| - numOfCharToRemove >= 0 ==> r == Success(this) && |query| == |old(query)| - numOfCharToRemove
      ensures 0 <= numOfCharToRemove <= |old(query)| ==> query == old(query)[..|old(query)| - numOfCharToRemove]
      ensures numOfCharToRemove < 0 ==> query[..|old(query)|] == old(query)
    {
      var newLength := |query| - numOfCharToRemove;
      if newLength < 0 {
        return Failure(ArgumentOutOfRangeException);
      }
      query := SetLength(query, newLength);
      return Success(this);
    }

    /** SetTimeout. */
    method SetTimeout(timeoutInSeconds: int) returns (self: SqlQuery)
      modifies this`timeout
      ensures timeout == timeoutInSeconds && self == this
    {
      timeout := timeoutInSeconds;
      return this;
    }

    /**
     * SetParam: for a text command every "{name}" in the query becomes the provider's parameter name;
     * then exactly one parameter with that name is added, holding the value, or DBNull for null. A
     * parameter created without a type keeps DbParameter's default, String.
     */
    method SetParam(commandName: string, value: Value, dbType: Option<DbType>) returns (self: SqlQuery)
      modifies this`query, this`parameters
      ensures commandType == Text ==> query == ReplaceAll(old(query), "{" + commandName + "}", ParameterName(commandName))
      ensures commandType != Text ==> query == old(query)
      ensures parameters == old(parameters) + [Parameter(ParameterName(commandName), if dbType.Some? then dbType.value else String, StoredValue(value), false)]
      ensures self == this
    {
      var paramName := ParameterName(commandName);
      if commandType == Text {
        query := ReplaceAll(query, "{" + commandName + "}", paramName);
      }
      var t := if dbType.Some? then dbType.value else String;
      parameters := parameters + [Parameter(paramName, t, StoredValue(value), false)];
      return this;
    }

    method SetStringParam(parameterName: string, value: Option<string>) returns (self: SqlQuery)
      modifies this`query, this`parameters
      ensures commandType == Text ==> query == ReplaceAll(old(query), "{" + parameterName + "}", ParameterName(parameterName))
      ensures commandType != Text ==> query == old(query)
      ensures parameters == old(parameters) + [Parameter(ParameterName(parameterName), String, StoredValue(OptionalValue(value)), false)]
      ensures self == this
    {
      self := SetParam(parameterName, OptionalValue(value), Some(String));
    }

    /** SetList: the values joined with "," as one String parameter. */
    method SetList(parameterName: string, values: seq<string>) returns (self: SqlQuery)
      modifies this`query, this`parameters
      ensures commandType == Text ==> query == ReplaceAll(old(query), "{" + parameterName + "}", ParameterName(parameterName))
      ensures commandType != Text ==> query == old(query)
      ensures parameters == old(parameters) + [Parameter(ParameterName(parameterName), String, Val(Join(",", values)), false)]
      ensures self == this
    {
      self := SetParam(parameterName, Val(Join(",", values)), Some(String));
    }

    method SetInt32Param(parameterName: string, value: Option<int>) returns (self: SqlQuery)
      modifies this`query, this`parameters
      ensures commandType == Text ==> query == ReplaceAll(old(query), "{" + parameterName + "}", ParameterName(parameterName))
      ensures commandType != Text ==> query == old(query)
      ensures parameters == old(parameters)
        + [Parameter(ParameterName(parameterName), Int32, if value.Some? then Val(IntToString(value.value)) else DbNull, false)]
      ensures self == this
    {
      var v := if value.Some? then Val(IntToString(value.value)) else Null;
      self := SetParam(parameterName, v, Some(Int32));
    }

    method SetInt64Param(parameterName: string, value: Option<int>) returns (self: SqlQuery)
      modifies this`query, this`parameters
      ensures commandType == Text ==> query == ReplaceAll(old(query), "{" + parameterName + "}", ParameterName(parameterName))
      ensures commandType != Text ==> query == old(query)
      ensures parameters == old(parameters)
        + [Parameter(ParameterName(parameterName), Int64, if value.Some? then Val(IntToString(value.value)) else DbNull, false)]
      ensures self == this
    {
      var v := if value.Some? then Val(IntToString(value.value)) else Null;
      self := SetParam(parameterName, v, Some(Int64));
    }

    /** SetInt32ParamWithNullValue: the value equal to nullValue means "no parameter": nothing changes. */
    method SetInt32ParamWithNullValue(parameterName: string, value: int, nullValue: int) returns (self: SqlQuery)
      modifies this`query, this`parameters
      ensures value == nullValue ==> query == old(query) && parameters == old(parameters)
      ensures value != nullValue && commandType == Text ==>
        query == ReplaceAll(old(query), "{" + parameterName + "}", ParameterName(parameterName))
      ensures value != nullValue && commandType != Text ==> query == old(query)
      ensures value != nullValue ==>
        parameters == old(parameters) + [Parameter(ParameterName(parameterName), Int32, Val(IntToString(value)), false)]
      ensures self == this
    {
      self := this;
      if value != nullValue {
        self := SetParam(parameterName, Val(IntToString(value)), Some(Int32));
      }
    }

    /** SetDoubleParam: the double's text, declared as DbType.Single. */
    method SetDoubleParam(parameterName: string, value: Option<string>) returns (self: SqlQuery)
      modifies this`query, this`parameters
      ensures commandType == Text ==> query == ReplaceAll(old(query), "{" + parameterName + "}", ParameterName(parameterName))
      ensures commandType != Text ==> query == old(query)
      ensures parameters == old(parameters) + [Parameter(ParameterName(parameterName), Single, StoredValue(OptionalValue(value)), false)]
      ensures self == this
    {
      self := SetParam(parameterName, OptionalValue(value), Some(Single));
    }

    method SetBooleanParam(parameterName: string, value: Option<bool>) returns (self: SqlQuery)
      modifies this`query, this`parameters
      ensures commandType == Text ==> query == ReplaceAll(old(query), "{" + parameterName + "}", ParameterName(parameterName))
      ensures commandType != Text ==> query == old(query)
      ensures parameters == old(parameters)
        + [Parameter(ParameterName(parameterName), Boolean, if value.Some? then Val(BoolText(value.value)) else DbNull, false)]
      ensures self == this
    {
      var v := if value.Some? then Val(BoolText(value.value)) else Null;
      self := SetParam(parameterName, v, Some(Boolean));
    }

    /** SetOutParam: replaces the placeholder and adds an output parameter with no value; returns its name. */
    method SetOutParam(commandName: string, dbType: DbType) returns (paramName: string)
      modifies this`query, this`parameters
      ensures paramName == ParameterName(commandName)
      ensures commandType == Text ==> query == ReplaceAll(old(query), "{" + commandName + "}", paramName)
      ensures commandType != Text ==> query == old(query)
      ensures parameters == old(parameters) + [Parameter(paramName, dbType, Null, true)]
    {
      paramName := ParameterName(commandName);
      if commandType == Text {
        query := ReplaceAll(query, "{" + commandName + "}", paramName);
      }
      parameters := parameters + [Parameter(paramName, dbType, Null, true)];
    }

    /**
     * SetInt32OutParam: adds the output parameter, then records it under the caller's name. Recording a
     * name twice throws, after the parameter was added to the command.
     */
    method SetInt32OutParam(paramName: string) returns (r: Result<SqlQuery>)
      modifies this`query, this`parameters, this`outputParameters
      ensures commandType == Text ==> query == ReplaceAll(old(query), "{" + paramName + "}", ParameterName(paramName))
      ensures commandType != Text ==> query == old(query)
      ensures parameters == old(parameters) + [Parameter(ParameterName(paramName), Int32, Null, true)]
      ensures ContainsKey(old(outputParameters), paramName, false) ==>
        r.Failure? && r.error.ArgumentException? && outputParameters == old(outputParameters)
      ensures !ContainsKey(old(outputParameters), paramName, false) ==>
        r == Success(this) && outputParameters == old(outputParameters) + [(paramName, OutputParameter(ParameterName(paramName), "Int32"))]
    {
      var pname := SetOutParam(paramName, Int32);
      if ContainsKey(outputParameters, paramName, false) {
        return Failure(ArgumentException("An item with the same key has already been added. Key: " + paramName));
      }
      outputParameters := outputParameters + [(paramName, OutputParameter(pname, "Int32"))];
      return Success(this);
    }
  }

  /** A placeholder that occurs once, in text free of '{' around it, is replaced by the parameter name and nothing else changes. */
  lemma SetParamReplacesPlaceholder(before: string, name: string, after: string, paramName: string)
    requires '{' !in before && '{' !in after
    ensures ReplaceAll(before + "{" + name + "}" + after, "{" + name + "}", paramName) == before + paramName + after
  {
    var pattern := "{" + name + "}";
    assert before + "{" + name + "}" + after == before + pattern + after;
    ReplaceAllOccurrence(before, pattern, paramName, after);
    ReplaceAllAbsent(after, pattern, paramName);
  }

  /** A query without any "{" is left unchanged by SetParam's replacement. */
  lemma SetParamWithoutPlaceholder(query: string, name: string, paramName: string)
    requires '{' !in query
    ensures ReplaceAll(query, "{" + name + "}", paramName) == query
  {
    ReplaceAllAbsent(query, "{" + name + "}", paramName);
  }

  // ---------------------------------------------------------------------------------------------
  // ExecuteDataset: the header of the "Result" table.

  /**
   * A column of that name is already registered. DataColumnCollection.Add registers names ordinally,
   * so a name differing from an existing one only in case is a new name.
   */
  predicate HasColumn(cols: seq<string>, n: string)
  {
    n in cols
  }

  /** No two columns of the same name: what DataColumnCollection.Add keeps true. */
  predicate DistinctColumns(cols: seq<string>)
  {
    forall i, j :: 0 <= i < j < |cols| ==> cols[i] != cols[j]
  }

  /**
   * The header loop's renaming as written: a name already in the list gets the shared counter
   * appended once, and the renamed name is not checked again. Distinct fields are kept as they are.
   */
  function RenameAll(names: seq<string>): (r: (seq<string>, nat))
    ensures |r.0| == |names| && r.1 >= 1
    ensures DistinctColumns(names) ==> r.0 == names
  {
    if |names| == 0 then ([], 1) else
    var init := names[..|names| - 1];
    assert DistinctColumns(names) ==> DistinctColumns(init) by {
      assert forall i :: 0 <= i < |init| ==> init[i] == names[i];
    }
    var prev := RenameAll(init);
    var n := names[|names| - 1];
    if n in prev.0 then (prev.0 + [n + NatToString(prev.1)], prev.1 + 1) else (prev.0 + [n], prev.1)
  }

  /** 10 to the power n. */
  function Pow10(n: nat): (p: nat)
    ensures p >= 1
  {
    if n == 0 then 1 else 10 * Pow10(n - 1)
  }

  lemma Pow10Monotone(a: nat, b: nat)
    requires a <= b
    ensures Pow10(a) <= Pow10(b)
  {
    if a < b {
      Pow10Monotone(a, b - 1);
    }
  }

  /** A number is below 10 to the number of its decimal digits. */
  lemma {:induction false} BelowPow10OfDigits(k: nat)
    ensures k < Pow10(|NatToString(k)|)
  {
    if k >= 10 {
      BelowPow10OfDigits(k / 10);
      var d := |NatToString(k / 10)|;
      assert |NatToString(k)| == d + 1;
      assert k / 10 + 1 <= Pow10(d);
      assert k < 10 * (k / 10 + 1);
    }
  }

  /** The length of the longest column name. */
  function Longest(cols: seq<string>): (m: nat)
    ensures forall i :: 0 <= i < |cols| ==> |cols[i]| <= m
  {
    if |cols| == 0 then 0 else
    var m := Longest(cols[..|cols| - 1]);
    if |cols[|cols| - 1]| > m then |cols[|cols| - 1]| else m
  }

  /** DataColumnCollection's default name for an unnamed column: "Column" followed by the index. */
  function DefaultColumnName(k: nat): string
  {
    "Column" + NatToString(k)
  }

  /** A name of the form DataColumnCollection gives unnamed columns. */
  ghost predicate IsDefaultName(n: string)
  {
    exists k: nat :: n == DefaultColumnName(k)
  }

  /** A taken default name is shorter than the longest name, so its index is below a bound. */
  lemma DefaultNameBelowBound(cols: seq<string>, k: nat)
    requires HasColumn(cols, DefaultColumnName(k))
    ensures k < Pow10(Longest(cols))
  {
    var i :| 0 <= i < |cols| && cols[i] == DefaultColumnName(k);
    BelowPow10OfDigits(k);
    Pow10Monotone(|NatToString(k)|, Longest(cols));
  }

  /** AssignName's search: from index k on, the first default name that no column has. */
  function FreeDefaultIndex(cols: seq<string>, k: nat): (j: nat)
    ensures j >= k && !HasColumn(cols, DefaultColumnName(j))
    ensures forall i :: k <= i < j ==> HasColumn(cols, DefaultColumnName(i))
    decreases Pow10(Longest(cols)) - k
  {
    if HasColumn(cols, DefaultColumnName(k)) then
      DefaultNameBelowBound(cols, k);
      FreeDefaultIndex(cols, k + 1)
    else
      k
  }

  /** The columns of a DataTable: the registered names in order and the next default-name index. */
  datatype ColumnCollection = ColumnCollection(names: seq<string>, defaultIndex: nat)

  /**
   * DataColumnCollection.Add(name). An empty name is replaced by the first default name from the index
   * on that no column has, and the index moves past it; such a column is never rejected. Any other name
   * is registered as given, unless a column has exactly that name: then DuplicateNameException.
   */
  function AddColumn(c: ColumnCollection, name: string): (r: Result<ColumnCollection>)
    ensures name == "" ==> r.Success?
    ensures name == "" ==> var j := FreeDefaultIndex(c.names, c.defaultIndex);
      r.value == ColumnCollection(c.names + [DefaultColumnName(j)], j + 1)
      && IsDefaultName(r.value.names[|c.names|]) && !HasColumn(c.names, r.value.names[|c.names|])
    ensures name != "" ==> (r.Success? <==> !HasColumn(c.names, name))
    ensures name != "" && r.Success? ==> r.value == ColumnCollection(c.names + [name], c.defaultIndex)
    ensures name != "" && r.Failure? ==> r.error == DuplicateNameException(name)
    ensures r.Success? && DistinctColumns(c.names) ==> DistinctColumns(r.value.names)
  {
    if name == "" then
      var j := FreeDefaultIndex(c.names, c.defaultIndex);
      Success(ColumnCollection(c.names + [DefaultColumnName(j)], j + 1))
    else if HasColumn(c.names, name) then
      Failure(DuplicateNameException(name))
    else
      Success(ColumnCollection(c.names + [name], c.defaultIndex))
  }

  /**
   * The header names added in order to the new "Result" table, up to the first Add that throws: the
   * table's columns and whether every name was added. Only a non-empty name that a column already has
   * stops the loop; an unnamed field becomes a default-named column.
   */
  function AddColumns(header: seq<string>): (r: (ColumnCollection, bool))
    ensures DistinctColumns(r.0.names) && |r.0.names| <= |header|
    ensures r.1 <==> |r.0.names| == |header|
    ensures forall i :: 0 <= i < |r.0.names| && header[i] != "" ==> r.0.names[i] == header[i]
    ensures forall i :: 0 <= i < |r.0.names| && header[i] == "" ==> IsDefaultName(r.0.names[i])
    ensures !r.1 ==> header[|r.0.names|] != "" && HasColumn(r.0.names, header[|r.0.names|])
  {
    if |header| == 0 then (ColumnCollection([], 1), true) else
    var init := header[..|header| - 1];
    var prev := AddColumns(init);
    assert forall i :: 0 <= i < |init| ==> init[i] == header[i];
    if !prev.1 then
      prev
    else
      var added := AddColumn(prev.0, header[|header| - 1]);
      if added.Failure? then (prev.0, false) else (added.value, true)
  }

  /** AddColumns one name further: nothing more once an Add has thrown, else one more Add. */
  lemma AddColumnsSnoc(header: seq<string>, n: string)
    ensures var prev := AddColumns(header);
      AddColumns(header + [n])
        == if !prev.1 then prev
           else var added := AddColumn(prev.0, n); if added.Failure? then (prev.0, false) else (added.value, true)
  {
    var s := header + [n];
    assert s[..|s| - 1] == header;
    assert s[|s| - 1] == n;
  }

  /** Distinct names, none of them empty, are all added under their own names. */
  lemma AddColumnsNamed(header: seq<string>)
    requires DistinctColumns(header) && "" !in header
    ensures AddColumns(header).1 && AddColumns(header).0.names == header
  {
    var r := AddColumns(header);
    if !r.1 {
      var m := |r.0.names|;
    }
  }

  /** The single table "Result" that ExecuteDataset returns. */
  datatype ResultTable = ResultTable(columns: seq<string>, rows: seq<seq<Value>>)

  /**
   * ExecuteDataset as written: the header is built at the first row, renamed against the list of field
   * names, and added to the table. When an Add throws, the exception is swallowed inside the reader, so
   * the table keeps the columns added so far and no rows.
   */
  function DatasetAsWritten(names: seq<string>, rows: seq<seq<Value>>): (t: ResultTable)
    ensures |rows| == 0 ==> t == ResultTable([], [])
    ensures |rows| > 0 ==> DistinctColumns(t.columns) && |t.columns| <= |names|
    ensures |rows| > 0 ==> (t.rows == rows <==> |t.columns| == |names|) && (t.rows == rows || t.rows == [])
    ensures |rows| > 0 ==> var h := RenameAll(names).0;
      (forall i :: 0 <= i < |t.columns| && h[i] != "" ==> t.columns[i] == h[i])
      && (forall i :: 0 <= i < |t.columns| && h[i] == "" ==> IsDefaultName(t.columns[i]))
    ensures |rows| > 0 && t.rows != rows ==> var h := RenameAll(names).0;
      h[|t.columns|] != "" && HasColumn(t.columns, h[|t.columns|])
    ensures |rows| > 0 && DistinctColumns(names) && "" !in names ==> t == ResultTable(names, rows)
  {
    if |rows| == 0 then ResultTable([], []) else
    var added := AddColumns(RenameAll(names).0);
    assert DistinctColumns(names) && "" !in names ==> added.1 && added.0.names == names by {
      if DistinctColumns(names) && "" !in names {
        AddColumnsNamed(names);
      }
    }
    ResultTable(added.0.names, if added.1 then rows else [])
  }

  /** RenameAll one field further: the new field keeps its name, or is numbered when that name is taken. */
  lemma RenameAllSnoc(names: seq<string>, n: string)
    ensures var prev := RenameAll(names);
      RenameAll(names + [n])
        == if n in prev.0 then (prev.0 + [n + NatToString(prev.1)], prev.1 + 1) else (prev.0 + [n], prev.1)
  {
    var s := names + [n];
    assert s[..|s| - 1] == names;
    assert s[|s| - 1] == n;
  }

  /** The header of the fields "a", "a1", "a": the second "a" is numbered 1 and collides with the field "a1". */
  lemma RenamedHeader()
    ensures RenameAll(["a", "a1", "a"]).0 == ["a", "a1", "a1"]
  {
    var none: seq<string> := [];
    var one: seq<string> := ["a"];
    var two: seq<string> := ["a", "a1"];
    RenameAllSnoc(none, "a");
    assert none + ["a"] == one;
    assert RenameAll(one) == (one, 1);
    RenameAllSnoc(one, "a1");
    assert one + ["a1"] == two;
    assert "a1" !in one;
    assert RenameAll(two) == (two, 1);
    RenameAllSnoc(two, "a");
    assert two + ["a"] == ["a", "a1", "a"];
    assert "a" in two;
    assert "a" + NatToString(1) == "a1" by {
      assert NatToString(1) == "1";
    }
  }

  /** A renamed column can collide with a later field: ["a", "a1", "a"] loses every row. */
  lemma RenamedHeaderCollides()
    ensures RenameAll(["a", "a1", "a"]).0 == ["a", "a1", "a1"]
    ensures DatasetAsWritten(["a", "a1", "a"], [[Val("x"), Val("y"), Val("z")]]) == ResultTable(["a", "a1"], [])
  {
    RenamedHeader();
    var two: seq<string> := ["a", "a1"];
    AddColumnsNamed(two);
    AddColumnsSnoc(two, "a1");
    assert two + ["a1"] == ["a", "a1", "a1"];
  }

  /** Names that differ only in case are two columns: ["Id", "ID"] keeps both, and every row. */
  lemma CaseVariantHeaderKept(rows: seq<seq<Value>>)
    requires |rows| > 0
    ensures DatasetAsWritten(["Id", "ID"], rows) == ResultTable(["Id", "ID"], rows)
  {
    var names: seq<string> := ["Id", "ID"];
    assert names[0] != names[1];
  }

  /** ExecuteDataset as written, once the renamed header and the columns it adds are known. */
  lemma DatasetOfHeader(names: seq<string>, rows: seq<seq<Value>>, h: seq<string>, added: (ColumnCollection, bool))
    requires |rows| > 0 && RenameAll(names).0 == h && AddColumns(h) == added
    ensures DatasetAsWritten(names, rows) == ResultTable(added.0.names, if added.1 then rows else [])
  {
  }

  /** An unnamed field, first in the header, becomes the column "Column1". */
  lemma AddUnnamed()
    ensures AddColumns([""]) == (ColumnCollection(["Column1"], 2), true)
  {
    var none: seq<string> := [];
    AddColumnsSnoc(none, "");
    assert none + [""] == [""];
    assert AddColumns(none) == (ColumnCollection(none, 1), true);
    assert FreeDefaultIndex(none, 1) == 1;
    assert DefaultColumnName(1) == "Column1" by {
      assert NatToString(1) == "1";
    }
    assert none + ["Column1"] == ["Column1"];
    assert AddColumn(ColumnCollection(none, 1), "") == Success(ColumnCollection(["Column1"], 2));
  }

  /** The table of one unnamed field, such as SELECT COUNT(*) returns: its column is "Column1". */
  lemma UnnamedColumnDefaultName(rows: seq<seq<Value>>)
    requires |rows| > 0
    ensures DatasetAsWritten([""], rows) == ResultTable(["Column1"], rows)
  {
    AddUnnamed();
    assert RenameAll([""]).0 == [""];
    DatasetOfHeader([""], rows, [""], AddColumns([""]));
  }

  /** After an unnamed field, the table already has "Column1" and rejects a field of that name. */
  lemma AddUnnamedThenColumn1()
    ensures AddColumns(["", "Column1"]) == (ColumnCollection(["Column1"], 2), false)
  {
    AddUnnamed();
    AddColumnsSnoc([""], "Column1");
    assert [""] + ["Column1"] == ["", "Column1"];
    assert HasColumn(["Column1"], "Column1");
  }

  /**
   * The header list holds "" for an unnamed field while the table calls it "Column1", so a later
   * field named "Column1" passes the list check and the table rejects it: every row is lost.
   */
  lemma UnnamedThenColumn1LosesRows(rows: seq<seq<Value>>)
    requires |rows| > 0
    ensures RenameAll(["", "Column1"]).0 == ["", "Column1"]
    ensures DatasetAsWritten(["", "Column1"], rows) == ResultTable(["Column1"], [])
  {
    var names: seq<string> := ["", "Column1"];
    assert names[0] != names[1];
    assert RenameAll(names).0 == names;
    AddUnnamedThenColumn1();
    DatasetOfHeader(names, rows, names, AddColumns(names));
  }

  /** The renamed header of two unnamed fields, "" and "1", becomes the columns "Column1" and "1". */
  lemma AddUnnamedThenOne()
    ensures AddColumns(["", "1"]) == (ColumnCollection(["Column1", "1"], 2), true)
  {
    AddUnnamed();
    AddColumnsSnoc([""], "1");
    assert [""] + ["1"] == ["", "1"];
    assert !HasColumn(["Column1"], "1");
    assert ["Column1"] + ["1"] == ["Column1", "1"];
    assert AddColumn(ColumnCollection(["Column1"], 2), "1") == Success(ColumnCollection(["Column1", "1"], 2));
  }

  /** Two unnamed fields: the list renames the second to "1", and the table calls the first "Column1". */
  lemma TwoUnnamedColumns(rows: seq<seq<Value>>)
    requires |rows| > 0
    ensures RenameAll(["", ""]).0 == ["", "1"]
    ensures DatasetAsWritten(["", ""], rows) == ResultTable(["Column1", "1"], rows)
  {
    var h: seq<string> := ["", "1"];
    RenameAllSnoc([""], "");
    assert [""] + [""] == ["", ""];
    assert RenameAll([""]) == ([""], 1);
    assert "" + NatToString(1) == "1" by {
      assert NatToString(1) == "1";
    }
    AddUnnamedThenOne();
    DatasetOfHeader(["", ""], rows, h, AddColumns(h));
  }

  /** Numbered forms of one name differ exactly when their numbers do. */
  lemma NumberedInjective(n: string, a: nat, b: nat)
    requires n + NatToString(a) == n + NatToString(b)
    ensures a == b
  {
    var sa, sb := NatToString(a), NatToString(b);
    assert sa == (n + sa)[|n|..];
    assert sb == (n + sb)[|n|..];
    NatToStringInjective(a, b);
  }

  /** The distinct column names. */
  function ColumnSet(cols: seq<string>): set<string>
  {
    set x | x in cols
  }

  lemma SubsetCard(a: set<string>, b: set<string>)
    requires a <= b
    ensures |a| <= |b|
  {
    assert b == a + (b - a);
  }

  /** Adding a column the table does not have keeps the names distinct. */
  lemma DistinctSnoc(cols: seq<string>, x: string)
    requires DistinctColumns(cols) && !HasColumn(cols, x)
    ensures DistinctColumns(cols + [x])
  {
  }

  /**
   * The number search of the intended renaming: starting at counter, the first numbered form of n that
   * the table does not have. There is one, as the table has finitely many names and the numbered forms
   * all differ.
   */
  method FreeName(cols: seq<string>, n: string, counter: nat) returns (name: string, next: nat)
    ensures !HasColumn(cols, name) && next > counter
    ensures exists k: nat :: name == n + NatToString(k)
  {
    var k: nat := counter;
    name := n + NatToString(k);
    ghost var tried: set<string> := {};
    while HasColumn(cols, name)
      invariant name == n + NatToString(k) && k >= counter
      invariant tried <= ColumnSet(cols) && |tried| <= |ColumnSet(cols)|
      invariant forall x :: x in tried ==> exists j :: counter <= j < k && x == n + NatToString(j)
      decreases |ColumnSet(cols)| - |tried|
    {
      assert name !in tried by {
        if name in tried {
          var j :| counter <= j < k && name == n + NatToString(j);
          NumberedInjective(n, k, j);
        }
      }
      assert name in ColumnSet(cols);
      tried := tried + {name};
      SubsetCard(tried, ColumnSet(cols));
      k := k + 1;
      name := n + NatToString(k);
    }
    next := k + 1;
  }

  /**
   * The header loop with the evidently intended renaming: a field name the table already has is
   * numbered with the shared counter, and the number is bumped until the name is free. An unnamed field
   * is left to the table, which gives it a free default name.
   */
  method CreateHeader(names: seq<string>) returns (table: ColumnCollection)
    ensures |table.names| == |names| && DistinctColumns(table.names)
    ensures DistinctColumns(names) && "" !in names ==> table.names == names
    ensures forall i :: 0 <= i < |names| && names[i] == "" ==> IsDefaultName(table.names[i])
    ensures forall i :: 0 <= i < |names| && names[i] != "" ==>
      table.names[i] == names[i] || exists k: nat :: table.names[i] == names[i] + NatToString(k)
  {
    table := ColumnCollection([], 1);
    var counter: nat := 1;
    var i := 0;
    while i < |names|
      invariant 0 <= i <= |names| && |table.names| == i && DistinctColumns(table.names)
      invariant DistinctColumns(names) && "" !in names ==> table.names == names[..i]
      invariant forall j :: 0 <= j < i && names[j] == "" ==> IsDefaultName(table.names[j])
      invariant forall j :: 0 <= j < i && names[j] != "" ==>
        table.names[j] == names[j] || exists k: nat :: table.names[j] == names[j] + NatToString(k)
    {
      var fieldName := names[i];
      if fieldName != "" && HasColumn(table.names, fieldName) {
        fieldName, counter := FreeName(table.names, fieldName, counter);
      }
      var added := AddColumn(table, fieldName);
      table := added.value;
      i := i + 1;
    }
    assert names[..|names|] == names;
  }

  /**
   * ExecuteDataset with the intended header: every row is kept, under distinct column names, and an
   * unnamed field gets a default name.
   */
  method ExecuteDataset(names: seq<string>, rows: seq<seq<Value>>) returns (t: ResultTable)
    ensures |rows| == 0 ==> t == ResultTable([], [])
    ensures |rows| > 0 ==> t.rows == rows && |t.columns| == |names| && DistinctColumns(t.columns)
    ensures |rows| > 0 ==> forall i :: 0 <= i < |names| && names[i] == "" ==> IsDefaultName(t.columns[i])
    ensures |rows| > 0 && DistinctColumns(names) && "" !in names ==> t.columns == names
  {
    if |rows| == 0 {
      return ResultTable([], []);
    }
    var table := CreateHeader(names);
    return ResultTable(table.names, rows);
  }

  // ---------------------------------------------------------------------------------------------
  // ExecuteReaderMaxRecord: how many rows reach the action.

  function Min(a: int, b: int): int { if a <= b then a else b }
  function Max(a: int, b: int): int { if a >= b then a else b }

  /**
   * ExecuteReaderMaxRecord as written: the loop reads a row, then tests the bound with a post-decrement
   * against zero, so maxRecordsToFetch + 1 rows reach the action. rows is what the reader returns; the
   * result is the rows handed to the action, in order.
   */
  method ExecuteReaderMaxRecordAsWritten(maxRecordsToFetch: int, rows: seq<seq<Value>>) returns (visited: seq<seq<Value>>)
    ensures visited == rows[..Min(|rows|, Max(maxRecordsToFetch + 1, 0))]
  {
    var remaining := maxRecordsToFetch;
    var i := 0;
    visited := [];
    while i < |rows|
      invariant 0 <= i <= |rows| && visited == rows[..i]
      invariant remaining == maxRecordsToFetch - i
      invariant i <= Max(maxRecordsToFetch + 1, 0)
    {
      var withinBound := remaining >= 0;
      remaining := remaining - 1;
      if !withinBound {
        break;
      }
      visited := visited + [rows[i]];
      i := i + 1;
    }
  }

  /** When the reader has more rows than the bound, the loop as written hands one row too many to the action. */
  lemma MaxRecordAsWrittenExceedsBound(maxRecordsToFetch: nat, rows: seq<seq<Value>>)
    requires |rows| > maxRecordsToFetch
    ensures |rows[..Min(|rows|, Max(maxRecordsToFetch + 1, 0))]| == maxRecordsToFetch + 1
  {
  }

  /** ExecuteReaderMaxRecord with the intended bound: at most maxRecordsToFetch rows reach the action. */
  method ExecuteReaderMaxRecord(maxRecordsToFetch: int, rows: seq<seq<Value>>) returns (visited: seq<seq<Value>>)
    ensures visited == rows[..Min(|rows|, Max(maxRecordsToFetch, 0))]
    ensures |visited| <= Max(maxRecordsToFetch, 0)
  {
    var remaining := maxRecordsToFetch;
    var i := 0;
    visited := [];
    while i < |rows|
      invariant 0 <= i <= |rows| && visited == rows[..i]
      invariant remaining == maxRecordsToFetch - i
      invariant i <= Max(maxRecordsToFetch, 0)
    {
      var withinBound := remaining > 0;
      remaining := remaining - 1;
      if !withinBound {
        break;
      }
      visited := visited + [rows[i]];
      i := i + 1;
    }
  }
}
