/** The expectations of the insert() test suite, each stated as the
    postcondition of a method that drives one QueryBuilder through the same
    calls. */
module InsertTests {
  import opened Outcomes
  import opened JsValues
  import opened MySqlDialect
  import opened QueryState
  import opened Builder
  import opened InsertTexts
  import StatementLaws

  /** {id: 3, name: 'Milky Way', type: 'spiral'} */
  const MilkyWay: JsValue := Object([("id", Int(3)), ("name", Str("Milky Way")), ("type", Str("spiral"))])
  /** {id: 4, name: 'Andromeda', type: 'spiral'} */
  const Andromeda: JsValue := Object([("id", Int(4)), ("name", Str("Andromeda")), ("type", Str("spiral"))])
  /** The batch [MilkyWay, Andromeda]. */
  const Galaxies: JsValue := Array([MilkyWay, Andromeda])

  const MilkyWayRecord: seq<Assignment> :=
    [Assignment("id", SqlInt(3)), Assignment("name", SqlString("Milky Way")), Assignment("type", SqlString("spiral"))]
  const AndromedaRecord: seq<Assignment> :=
    [Assignment("id", SqlInt(4)), Assignment("name", SqlString("Andromeda")), Assignment("type", SqlString("spiral"))]

  lemma GalaxiesTrims()
    ensures Trim("galaxies") == "galaxies"
    ensures Quote("galaxies") == "`galaxies`"
  {
    assert TrimStart("galaxies") == "galaxies";
  }

  lemma GalaxiesTarget(st: State)
    ensures StatementLaws.TableKnown(st, Str("galaxies"))
    ensures StatementLaws.Target(st, Str("galaxies")) == "`galaxies`"
    ensures StatementLaws.TablesAfter(st, Str("galaxies")) == ["`galaxies`"]
  {
    GalaxiesTrims();
    NamedTarget(st, "galaxies", "`galaxies`");
  }

  lemma NamedTarget(st: State, name: string, quoted: string)
    requires Trim(name) != "" && Quote(Trim(name)) == quoted
    ensures StatementLaws.TableKnown(st, Str(name))
    ensures StatementLaws.Target(st, Str(name)) == quoted
    ensures StatementLaws.TablesAfter(st, Str(name)) == [quoted]
  {
  }

  lemma RecordCons(ps: seq<(string, JsValue)>, v: Scalar, rest: seq<Assignment>)
    requires ps != [] && ToScalar(ps[0].0, ps[0].1) == Ok(v) && ToRecord(ps[1..]) == Ok(rest)
    ensures ToRecord(ps) == Ok([Assignment(ps[0].0, v)] + rest)
  {
  }

  lemma GalaxyConverts(id: int, name: string)
    ensures ToRecord([("id", Int(id)), ("name", Str(name)), ("type", Str("spiral"))])
            == Ok([Assignment("id", SqlInt(id)), Assignment("name", SqlString(name)), Assignment("type", SqlString("spiral"))])
  {
    var ps := [("id", Int(id)), ("name", Str(name)), ("type", Str("spiral"))];
    var c := Assignment("type", SqlString("spiral"));
    var b := Assignment("name", SqlString(name));
    RecordCons([ps[2]], SqlString("spiral"), []);
    assert [c] + [] == [c];
    assert ps[1..][1..] == [ps[2]];
    assert ToRecord(ps[1..][1..]) == Ok([c]);
    assert ps[1..][0] == ("name", Str(name));
    RecordCons(ps[1..], SqlString(name), [c]);
    assert [b] + [c] == [b, c];
    RecordCons(ps, SqlInt(id), [b, c]);
    assert [Assignment("id", SqlInt(id))] + [b, c] == [Assignment("id", SqlInt(id)), b, c];
  }

  lemma MilkyWayConverts()
    ensures ToRecord(MilkyWay.properties) == Ok(MilkyWayRecord)
    ensures ToRecord(Andromeda.properties) == Ok(AndromedaRecord)
    ensures MergeAll([], MilkyWayRecord) == MilkyWayRecord
  {
    GalaxyConverts(3, "Milky Way");
    GalaxyConverts(4, "Andromeda");
    var m := MilkyWayRecord;
    assert Assign([], m[0]) == [m[0]];
    assert Assign([m[0]], m[1]) == m[..2];
    assert m[..2] == [m[0], m[1]] && m == [m[0], m[1], m[2]];
    assert Assign([m[1]], m[2]) == [m[1], m[2]];
    assert Assign(m[..2], m[2]) == [m[0]] + Assign([m[1]], m[2]);
    assert MergeAll(m, []) == m;
    assert MergeAll(m[..2], m[2..]) == m;
    assert MergeAll([m[0]], m[1..]) == m;
  }

  lemma Join3(sep: string, a: string, b: string, c: string)
    ensures Join(sep, [a, b, c]) == a + sep + b + sep + c
  {
    assert [a, b, c][1..] == [b, c];
    assert [b, c][1..] == [c];
    assert Join(sep, [b, c]) == b + sep + c;
    assert a + sep + (b + sep + c) == a + sep + b + sep + c;
  }

  lemma RecordLists(rec: seq<Assignment>)
    requires |rec| == 3
    ensures Identifiers(rec) == [Quote(rec[0].column), Quote(rec[1].column), Quote(rec[2].column)]
    ensures Literals(rec) == [Literal(rec[0].value), Literal(rec[1].value), Literal(rec[2].value)]
  {
  }

  /** The statement with its parts written left to right. */
  lemma InsertSqlFlat(ignore: bool, table: string, rec: seq<Assignment>, suffix: string)
    ensures InsertSql(ignore, table, rec, suffix)
            == Verb(ignore) + table + " " + ColumnList(rec) + " VALUES " + Tuple(rec) + SuffixText(suffix)
  {
  }

  lemma GalaxyColumns(rec: seq<Assignment>)
    requires |rec| == 3 && rec[0].column == "id" && rec[1].column == "name" && rec[2].column == "type"
    ensures ColumnList(rec) == "(`id`, `name`, `type`)"
  {
    RecordLists(rec);
    assert Quote("id") == "`id`" && Quote("name") == "`name`" && Quote("type") == "`type`";
    assert Identifiers(rec) == ["`id`", "`name`", "`type`"];
    Join3(", ", "`id`", "`name`", "`type`");
    assert "(" + ("`id`" + ", " + "`name`" + ", " + "`type`") + ")" == "(`id`, `name`, `type`)";
  }

  lemma TupleOf3(rec: seq<Assignment>, a: string, b: string, c: string)
    requires |rec| == 3 && Literal(rec[0].value) == a && Literal(rec[1].value) == b && Literal(rec[2].value) == c
    ensures Tuple(rec) == "(" + a + ", " + b + ", " + c + ")"
  {
    RecordLists(rec);
    Join3(", ", a, b, c);
  }

  lemma MilkyWayTuple()
    ensures Tuple(MilkyWayRecord) == "(3, 'Milky Way', 'spiral')"
  {
    assert Literal(SqlInt(3)) == "3";
    assert Literal(SqlString("Milky Way")) == "'Milky Way'";
    assert Literal(SqlString("spiral")) == "'spiral'";
    TupleOf3(MilkyWayRecord, "3", "'Milky Way'", "'spiral'");
    SpellMilkyWayTuple();
  }

  lemma AndromedaTuple()
    ensures Tuple(AndromedaRecord) == "(4, 'Andromeda', 'spiral')"
  {
    assert Literal(SqlInt(4)) == "4";
    assert Literal(SqlString("Andromeda")) == "'Andromeda'";
    assert Literal(SqlString("spiral")) == "'spiral'";
    TupleOf3(AndromedaRecord, "4", "'Andromeda'", "'spiral'");
    SpellAndromedaTuple();
  }

  lemma MilkyWayText()
    ensures InsertSql(false, "`galaxies`", MilkyWayRecord, "") == MilkyWayInsert
  {
    GalaxyColumns(MilkyWayRecord);
    MilkyWayTuple();
    InsertSqlFlat(false, "`galaxies`", MilkyWayRecord, "");
    MilkyWaySpelled();
  }

  /** Inserting the Milky Way record into "galaxies" on a fresh builder. */
  lemma MilkyWayStep()
    ensures InsertStep(Fresh, Str("galaxies"), MilkyWay, false, "")
            == Ok(Step(State(["`galaxies`"], MilkyWayRecord), MilkyWayInsert))
  {
    MilkyWayConverts();
    GalaxiesTarget(Fresh);
    StatementLaws.InsertRecord(Fresh, Str("galaxies"), MilkyWay.properties, false, "");
    StatementLaws.InsertNamesTable(Fresh, "galaxies", MilkyWay, false, "");
    MilkyWayText();
    var r := InsertStep(Fresh, Str("galaxies"), MilkyWay, false, "");
    assert r.value.state.setArray == MilkyWayRecord;
    assert r.value.state.fromArray == ["`galaxies`"];
    assert r.value.sql == MilkyWayInsert;
  }

  /** Inserting nothing into "galaxies" on a fresh builder. */
  lemma EmptyStep()
    ensures InsertStep(Fresh, Str("galaxies"), Undefined, false, "")
            == Ok(Step(State(["`galaxies`"], []), EmptyGalaxiesInsert))
  {
    GalaxiesTarget(Fresh);
    StatementLaws.InsertWithoutData(Fresh, Str("galaxies"), Undefined, false, "");
    StatementLaws.InsertNamesTable(Fresh, "galaxies", Undefined, false, "");
    SpellEmpty();
  }

  lemma GalaxiesScalar()
    ensures StatementLaws.ValuesScalar(Galaxies) && AllRecords(Galaxies.elements)
  {
    var es := Galaxies.elements;
    assert AllScalar(es[0].properties) && AllScalar(es[1].properties);
    assert IsRecord(es[0]) && IsRecord(es[1]);
  }

  /** The batch [MilkyWay, Andromeda] as a statement into `galaxies`. */
  lemma BatchText()
    ensures BatchSql(false, "`galaxies`", [MilkyWayRecord, AndromedaRecord], "") == GalaxiesInsert
  {
    BatchAppend(false, "`galaxies`", [MilkyWayRecord], AndromedaRecord);
    assert [MilkyWayRecord] + [AndromedaRecord] == [MilkyWayRecord, AndromedaRecord];
    BatchOfOne(false, "`galaxies`", MilkyWayRecord, "");
    MilkyWayText();
    AndromedaTuple();
    SpellBatch();
  }

  lemma GalaxiesConvert()
    ensures ToRecords(PropertiesOf(Galaxies.elements)) == Ok([MilkyWayRecord, AndromedaRecord])
  {
    MilkyWayConverts();
    GalaxiesScalar();
    var ps := PropertiesOf(Galaxies.elements);
    assert ps == [MilkyWay.properties, Andromeda.properties];
    var r := ToRecords(ps);
    assert r.Ok?;
    assert r.value == [MilkyWayRecord, AndromedaRecord];
  }

  /** Inserting the batch [MilkyWay, Andromeda] into "galaxies" on a fresh
      builder. */
  lemma BatchStep()
    ensures InsertStep(Fresh, Str("galaxies"), Galaxies, false, "")
            == Ok(Step(State(["`galaxies`"], []), GalaxiesInsert))
  {
    GalaxiesTarget(Fresh);
    GalaxiesScalar();
    GalaxiesConvert();
    StatementLaws.InsertBatch(Fresh, Str("galaxies"), Galaxies.elements, false, "");
    StatementLaws.InsertNamesTable(Fresh, "galaxies", Galaxies, false, "");
    BatchText();
  }

  /** insert_ignore of the Milky Way record into "galaxies" with an ON
      DUPLICATE KEY UPDATE suffix, on a fresh builder. */
  lemma IgnoreStep()
    ensures InsertStep(Fresh, Str("galaxies"), MilkyWay, true, OnDuplicate)
            == Ok(Step(State(["`galaxies`"], MilkyWayRecord), MilkyWayInsertIgnore))
  {
    MilkyWayConverts();
    GalaxiesTarget(Fresh);
    StatementLaws.InsertRecord(Fresh, Str("galaxies"), MilkyWay.properties, true, OnDuplicate);
    StatementLaws.InsertNamesTable(Fresh, "galaxies", MilkyWay, true, OnDuplicate);
    GalaxyColumns(MilkyWayRecord);
    MilkyWayTuple();
    InsertSqlFlat(true, "`galaxies`", MilkyWayRecord, OnDuplicate);
    SpellIgnoreHead();
    SpellIgnoreValues();
    SpellIgnoreSuffix();
  }

  /** it('should add a table to from_array when a table is supplied') */
  method AddsTableToFromArray() returns (tables: seq<string>)
    ensures tables == ["`galaxies`"]
  {
    var qb := new QueryBuilder();
    qb.ResetQuery();
    MilkyWayStep();
    var _ := qb.Insert(Str("galaxies"), MilkyWay);
    tables := qb.fromArray;
  }

  // ---------------------------------------------------------------------
  // The table and data arguments insert accepts and refuses.

  /** Table arguments insert refuses: [], {}, 3, 3.5, true, Infinity, [1, 2]
      and /foobar/. */
  const RefusedTables: seq<JsValue> :=
    [Array([]), Object([]), Int(3), Float("3.5"), Bool(true), Infinity(false), Array([Int(1), Int(2)]), Regex("foobar")]

  /** Table arguments insert accepts, falling back to the table set with
      from(): NaN, false, '', '  ', null and undefined. */
  const FallbackTables: seq<JsValue> := [NaN, Bool(false), Str(""), Str("  "), Null, Undefined]

  lemma MilkyWayScalar()
    ensures AcceptedAsData(MilkyWay) && StatementLaws.ValuesScalar(MilkyWay)
    ensures ClassifyData(MilkyWay) == Ok(Row(MilkyWay.properties))
  {
  }

  /** it('should only accept nothing or a string for the table (first)
      parameter'): with a table set before, each refused table argument makes
      insert fail with InvalidTable, and each fallback one lets it succeed on
      that earlier table. */
  lemma TableParameter(st: State)
    requires st.fromArray != []
    ensures forall t :: t in RefusedTables ==> InsertStep(st, t, MilkyWay, false, "") == Err(InvalidTable)
    ensures forall t :: t in FallbackTables ==> OnEarlierTable(st, InsertStep(st, t, MilkyWay, false, ""))
  {
    MilkyWayScalar();
    RefusedTablesRefused();
    FallbackTablesFallBack();
    forall t | t in RefusedTables
      ensures InsertStep(st, t, MilkyWay, false, "") == Err(InvalidTable)
    {
      StatementLaws.InsertOutcomes(st, t, MilkyWay, false, "");
    }
    forall t | t in FallbackTables
      ensures OnEarlierTable(st, InsertStep(st, t, MilkyWay, false, ""))
    {
      StatementLaws.InsertOutcomes(st, t, MilkyWay, false, "");
      StatementLaws.InsertUsesEarlierTable(st, t, MilkyWay, false, "");
    }
  }

  /** An insert succeeded on the first table set before: its statement starts
      with INSERT INTO and that table, and the tables stay as they were. */
  predicate OnEarlierTable(st: State, r: Result<Step>)
    requires st.fromArray != []
  {
    && r.Ok?
    && r.value.state.fromArray == st.fromArray
    && |Verb(false) + st.fromArray[0]| <= |r.value.sql|
    && r.value.sql[..|Verb(false) + st.fromArray[0]|] == Verb(false) + st.fromArray[0]
  }

  lemma RefusedTablesRefused()
    ensures forall t :: t in RefusedTables ==> !AcceptedAsTable(t)
  {
  }

  lemma FallbackTablesFallBack()
    ensures forall t :: t in FallbackTables ==> AcceptedAsTable(t) && !StatementLaws.NamesTable(t)
  {
    TrimSpaces("");
    TrimSpaces("  ");
  }

  /** Data arguments insert accepts: a record, [], a batch of records, {}, '',
      null and undefined (which is also what an omitted argument is). */
  const AcceptedData: seq<JsValue> := [MilkyWay, Array([]), Array([MilkyWay, MilkyWay]), Object([]), Str(""), Null, Undefined]

  /** Data arguments insert refuses: 3, 3.5, true, Infinity, [{}, {}], [1, 2],
      ['abc', 2, {foo: 'bar'}], /foobar/, NaN, false and '  '. */
  const RefusedData: seq<JsValue> :=
    [Int(3), Float("3.5"), Bool(true), Infinity(false), Array([Object([]), Object([])]), Array([Int(1), Int(2)]),
     Array([Str("abc"), Int(2), Object([("foo", Str("bar"))])]), Regex("foobar"), NaN, Bool(false), Str("  ")]

  /** it('should fail if a number, non-standard object, regex, boolean, array
      of non-objects, or non-empty string is provided in data parameter'):
      inserting into a named table such as 'galaxies' succeeds for each
      accepted data argument and fails with InvalidData for each refused one,
      whatever the state. */
  lemma DataParameter(st: State, table: JsValue)
    requires StatementLaws.NamesTable(table)
    ensures forall d :: d in AcceptedData ==> InsertStep(st, table, d, false, "").Ok?
    ensures forall d :: d in RefusedData ==> InsertStep(st, table, d, false, "") == Err(InvalidData)
  {
    AcceptedDataAccepted();
    RefusedDataRefused();
    forall d | d in AcceptedData
      ensures InsertStep(st, table, d, false, "").Ok?
    {
      StatementLaws.InsertOutcomes(st, table, d, false, "");
    }
    forall d | d in RefusedData
      ensures InsertStep(st, table, d, false, "") == Err(InvalidData)
    {
      StatementLaws.InsertOutcomes(st, table, d, false, "");
    }
  }

  lemma AcceptedDataAccepted()
    ensures forall d :: d in AcceptedData ==> AcceptedAsData(d) && StatementLaws.ValuesScalar(d)
  {
    MilkyWayScalar();
  }

  lemma RefusedDataRefused()
    ensures forall d :: d in RefusedData ==> !AcceptedAsData(d)
  {
    assert !IsRecord(RefusedData[4].elements[0]);
    assert !IsRecord(RefusedData[5].elements[0]);
    assert !IsRecord(RefusedData[6].elements[0]);
  }

  /** Values insert refuses inside a record: a function, /foobar/, Infinity,
      undefined, NaN, [1, 2, 3] and {foo: 'bar'}. */
  const RefusedValues: seq<JsValue> :=
    [Function, Regex("foobar"), Infinity(false), Undefined, NaN, Array([Int(1), Int(2), Int(3)]), Object([("foo", Str("bar"))])]

  /** it('should fail if any invalid values are passed in the data object.'):
      {id: v} with any refused v makes insert into a named table fail, naming
      column id, whatever the state. */
  lemma InvalidValues(st: State, table: JsValue)
    requires StatementLaws.NamesTable(table)
    ensures forall v :: v in RefusedValues ==>
      InsertStep(st, table, Object([("id", v)]), false, "") == Err(InvalidValue("id"))
  {
    forall v | v in RefusedValues
      ensures InsertStep(st, table, Object([("id", v)]), false, "") == Err(InvalidValue("id"))
    {
      assert FirstNonScalar([("id", v)], 0);
      StatementLaws.InsertRejectsValue(st, table, [("id", v)], 0, false, "");
    }
  }

  // ---------------------------------------------------------------------
  // The statements insert writes, each driven through one builder.

  /** Registering the Milky Way record, with or without a table set before. */
  lemma SetMilkyWay(tables: seq<string>)
    ensures SetStep(State(tables, []), MilkyWay) == Ok(State(tables, MilkyWayRecord))
  {
    MilkyWayConverts();
    MilkyWayScalar();
  }

  /** it('should allow for an empty data parameter') */
  method AllowsEmptyData() returns (sql: Result<string>)
    ensures sql == Ok(EmptyGalaxiesInsert)
  {
    var qb := new QueryBuilder();
    qb.ResetQuery();
    EmptyStep();
    sql := qb.Insert(Str("galaxies"));
  }

  /** it('should utilize pre-existing tables set in from_array') */
  method UsesTableFromFrom() returns (sql: Result<string>)
    ensures sql == Ok(EmptyGalaxiesInsert)
  {
    var qb := new QueryBuilder();
    qb.ResetQuery();
    qb.From("galaxies");
    GalaxiesTrims();
    StatementLaws.FromThenInsert(Fresh, "galaxies", Undefined, false, "");
    EmptyStep();
    sql := qb.Insert();
  }

  /** it('should utilize pre-existing tables set in in setArray'): the values
      registered by set are written by an insert that brings no data. */
  method UsesValuesFromSet() returns (sql: Result<string>)
    ensures sql == Ok(MilkyWayInsert)
  {
    var qb := new QueryBuilder();
    qb.ResetQuery();
    SetMilkyWay([]);
    var _ := qb.Set(MilkyWay);
    StatementLaws.SetThenInsert(Fresh, MilkyWay, Str("galaxies"), false, "");
    MilkyWayStep();
    sql := qb.Insert(Str("galaxies"));
  }

  /** it('should utilize pre-existing tables and values from setArray and
      from_array, respectively') */
  method UsesTableAndValues() returns (sql: Result<string>)
    ensures sql == Ok(MilkyWayInsert)
  {
    var qb := new QueryBuilder();
    qb.ResetQuery();
    qb.From("galaxies");
    GalaxiesTrims();
    var afterFrom := FromStep(Fresh, "galaxies");
    SetMilkyWay(["`galaxies`"]);
    var _ := qb.Set(MilkyWay);
    StatementLaws.SetThenInsert(afterFrom, MilkyWay, Undefined, false, "");
    StatementLaws.FromThenInsert(Fresh, "galaxies", MilkyWay, false, "");
    MilkyWayStep();
    sql := qb.Insert();
  }

  /** it('should accept a non-empty object for the data parameter') */
  method AcceptsRecord() returns (sql: Result<string>)
    ensures sql == Ok(MilkyWayInsert)
  {
    var qb := new QueryBuilder();
    qb.ResetQuery();
    MilkyWayStep();
    sql := qb.Insert(Str("galaxies"), MilkyWay);
  }

  /** it('should convert call to insert_batch() if an array of non-emtpy
      objects is passed in the data parameter') */
  method WritesBatch() returns (sql: Result<string>)
    ensures sql == Ok(GalaxiesInsert)
  {
    var qb := new QueryBuilder();
    qb.ResetQuery();
    BatchStep();
    sql := qb.Insert(Str("galaxies"), Galaxies);
  }

  /** it('should support insert ignore statements') */
  method WritesInsertIgnore() returns (sql: Result<string>)
    ensures sql == Ok(MilkyWayInsertIgnore)
  {
    var qb := new QueryBuilder();
    qb.ResetQuery();
    IgnoreStep();
    sql := qb.InsertIgnore(Str("galaxies"), MilkyWay, OnDuplicate);
  }
  // ---------------------------------------------------------------------
  // The accept and refuse tables, called one after another on one builder.

  /** it('should only accept nothing or a string for the table (first)
      parameter'), call by call: after from('galaxies') every refused table
      argument throws and every fallback one does not, while the builder keeps
      its table throughout. */
  method TableParameterCalls() returns (refused: seq<Result<string>>, fallback: seq<Result<string>>)
    ensures |refused| == |RefusedTables| && forall i :: 0 <= i < |refused| ==> refused[i] == Err(InvalidTable)
    ensures |fallback| == |FallbackTables| && forall i :: 0 <= i < |fallback| ==> fallback[i].Ok?
  {
    var qb := new QueryBuilder();
    qb.ResetQuery();
    qb.From("galaxies");
    MilkyWayScalar();
    RefusedTablesRefused();
    FallbackTablesFallBack();
    refused := InsertEachTable(qb, RefusedTables, MilkyWay);
    fallback := InsertEachTable(qb, FallbackTables, MilkyWay);
  }

  /** Calls insert with each table argument in turn and the same data, on a
      builder that has a table and is given none by name: each call fails with
      InvalidTable exactly when its argument is refused, succeeds otherwise,
      and the builder keeps its tables. */
  method InsertEachTable(qb: QueryBuilder, ts: seq<JsValue>, data: JsValue) returns (rs: seq<Result<string>>)
    requires qb.Valid() && qb.fromArray != []
    requires AcceptedAsData(data) && StatementLaws.ValuesScalar(data)
    requires forall i :: 0 <= i < |ts| ==> !StatementLaws.NamesTable(ts[i])
    modifies qb
    ensures qb.Valid() && qb.fromArray == old(qb.fromArray)
    ensures |rs| == |ts|
    ensures forall i :: 0 <= i < |ts| ==> TableVerdict(rs[i], ts[i])
  {
    rs := [];
    var i := 0;
    while i < |ts|
      invariant 0 <= i <= |ts|
      invariant qb.Valid() && qb.fromArray == old(qb.fromArray)
      invariant |rs| == i
      invariant forall j :: 0 <= j < i ==> TableVerdict(rs[j], ts[j])
    {
      TableVerdictHolds(qb.Snapshot(), ts[i], data);
      var r := qb.Insert(ts[i], data);
      assert TableVerdict(r, ts[i]);
      rs := rs + [r];
      i := i + 1;
    }
  }

  /** What insert answers for a table argument when a table was set before and
      the data is fine: InvalidTable exactly for a refused argument, success
      for any other. */
  predicate TableVerdict(r: Result<string>, t: JsValue) {
    && (r == Err(InvalidTable) <==> !AcceptedAsTable(t))
    && (AcceptedAsTable(t) ==> r.Ok?)
  }

  lemma TableVerdictHolds(st: State, t: JsValue, data: JsValue)
    requires st.fromArray != [] && !StatementLaws.NamesTable(t)
    requires AcceptedAsData(data) && StatementLaws.ValuesScalar(data)
    ensures TableVerdict(SqlOf(InsertStep(st, t, data, false, "")), t)
    ensures StateAfter(st, InsertStep(st, t, data, false, "")).fromArray == st.fromArray
  {
    StatementLaws.InsertOutcomes(st, t, data, false, "");
    if AcceptedAsTable(t) {
      StatementLaws.InsertUsesEarlierTable(st, t, data, false, "");
    }
  }

  /** it('should fail if a number, non-standard object, regex, boolean, array
      of non-objects, or non-empty string is provided in data parameter'),
      call by call on one builder, for a named table such as 'galaxies': each
      accepted data argument is written, and each refused one throws
      InvalidData. */
  method DataParameterCalls(table: JsValue) returns (accepted: seq<Result<string>>, refused: seq<Result<string>>)
    requires StatementLaws.NamesTable(table)
    ensures |accepted| == |AcceptedData| && forall i :: 0 <= i < |accepted| ==> accepted[i].Ok?
    ensures |refused| == |RefusedData| && forall i :: 0 <= i < |refused| ==> refused[i] == Err(InvalidData)
  {
    var qb := new QueryBuilder();
    qb.ResetQuery();
    AcceptedDataAccepted();
    RefusedDataRefused();
    accepted := InsertEach(qb, table, AcceptedData);
    refused := InsertEach(qb, table, RefusedData);
  }

  /** Calls insert with a named table and each data argument in turn, on the
      same builder: each call succeeds exactly when its data is accepted and
      all its record values are scalars, and accepted data never fails with
      InvalidData while refused data always does. */
  method InsertEach(qb: QueryBuilder, table: JsValue, ds: seq<JsValue>) returns (rs: seq<Result<string>>)
    requires qb.Valid() && StatementLaws.NamesTable(table)
    modifies qb
    ensures qb.Valid()
    ensures |rs| == |ds|
    ensures forall i :: 0 <= i < |ds| ==> Verdict(rs[i], ds[i])
  {
    rs := [];
    var i := 0;
    while i < |ds|
      invariant 0 <= i <= |ds|
      invariant qb.Valid()
      invariant |rs| == i
      invariant forall j :: 0 <= j < i ==> Verdict(rs[j], ds[j])
    {
      DataVerdict(qb.Snapshot(), table, ds[i]);
      var r := qb.Insert(table, ds[i]);
      assert Verdict(r, ds[i]);
      rs := rs + [r];
      i := i + 1;
    }
  }

  /** What insert answers for a data argument once the table is named: success
      exactly when the data is accepted and all its record values are scalars,
      and InvalidData exactly when the data is refused. */
  predicate Verdict(r: Result<string>, d: JsValue) {
    && (r.Ok? <==> AcceptedAsData(d) && StatementLaws.ValuesScalar(d))
    && (r == Err(InvalidData) <==> !AcceptedAsData(d))
  }

  /** With a named table, whether insert succeeds, and whether it fails with
      InvalidData, depends on the data alone. */
  lemma DataVerdict(st: State, table: JsValue, d: JsValue)
    requires StatementLaws.NamesTable(table)
    ensures Verdict(SqlOf(InsertStep(st, table, d, false, "")), d)
  {
    StatementLaws.InsertOutcomes(st, table, d, false, "");
  }
}
