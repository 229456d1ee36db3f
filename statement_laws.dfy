/** What insert, insert_ignore, set, from and truncate promise, stated over
    the pure steps of module QueryState and proved for all inputs. */
module StatementLaws {
  import opened Outcomes
  import opened JsValues
  import opened MySqlDialect
  import opened QueryState

  /** The table argument names a table. */
  predicate NamesTable(table: JsValue) {
    table.Str? && Trim(table.s) != ""
  }

  /** The table argument is accepted and a target table is known: either the
      argument names one or one was set before. */
  predicate TableKnown(st: State, table: JsValue) {
    AcceptedAsTable(table) && (NamesTable(table) || st.fromArray != [])
  }

  /** The quoted target table of a statement whose table is known. */
  function Target(st: State, table: JsValue): string
    requires TableKnown(st, table)
  {
    if NamesTable(table) then Quote(Trim(table.s)) else st.fromArray[0]
  }

  /** Every value in the data (a record, or each record of a batch) is a scalar. */
  predicate ValuesScalar(data: JsValue) {
    && (data.Object? ==> AllScalar(data.properties))
    && (data.Array? ==> forall i :: 0 <= i < |data.elements| ==>
          data.elements[i].Object? && AllScalar(data.elements[i].properties))
  }

  /** The tables a statement whose table is known leaves behind. */
  function TablesAfter(st: State, table: JsValue): seq<string>
    requires TableKnown(st, table)
  {
    if NamesTable(table) then [Quote(Trim(table.s))] else st.fromArray
  }

  /** How the table argument resolves: an error exactly when the table is not
      known (InvalidTable for a refused value, MissingTable otherwise), and
      otherwise the target table and the tables afterwards. */
  lemma TableArgument(st: State, table: JsValue)
    ensures ResolveTarget(st, table).Ok? <==> TableKnown(st, table)
    ensures !AcceptedAsTable(table) ==> ResolveTarget(st, table) == Err(InvalidTable)
    ensures AcceptedAsTable(table) && !TableKnown(st, table) ==> ResolveTarget(st, table) == Err(MissingTable)
    ensures TableKnown(st, table) ==> ResolveTarget(st, table).value == (Target(st, table), TablesAfter(st, table))
  {
  }

  /** The error an insert fails with, each one exactly when it applies, in the
      order the checks are made; and success exactly when none applies. */
  lemma InsertOutcomes(st: State, table: JsValue, data: JsValue, ignore: bool, suffix: string)
    ensures var r := InsertStep(st, table, data, ignore, suffix);
      && (r == Err(InvalidTable) <==> !AcceptedAsTable(table))
      && (r == Err(MissingTable) <==> AcceptedAsTable(table) && !TableKnown(st, table))
      && (r == Err(InvalidData) <==> TableKnown(st, table) && !AcceptedAsData(data))
      && (r.Err? && r.error.InvalidValue? <==> TableKnown(st, table) && AcceptedAsData(data) && !ValuesScalar(data))
      && (r.Ok? <==> TableKnown(st, table) && AcceptedAsData(data) && ValuesScalar(data))
  {
    TableArgument(st, table);
    if TableKnown(st, table) {
      PlanAfterTable(st, table, data);
      if AcceptedAsData(data) {
        DataValues(st.setArray, Target(st, table), TablesAfter(st, table), data);
      }
    }
  }

  /** Accepted data is planned exactly when its values are scalars, and fails
      naming a value otherwise. */
  lemma DataValues(values: seq<Assignment>, target: string, tables: seq<string>, data: JsValue)
    requires AcceptedAsData(data)
    ensures PlanData(values, target, tables, data).Ok? <==> ValuesScalar(data)
    ensures PlanData(values, target, tables, data).Err? ==> PlanData(values, target, tables, data).error.InvalidValue?
  {
    if data.Array? && data.elements != [] {
      var es := data.elements;
      var rs := PropertiesOf(es);
      assert (forall i :: 0 <= i < |rs| ==> AllScalar(rs[i])) <==> ValuesScalar(data);
    }
  }

  /** An insert in the order its checks are made: the table first, then the
      data, planned against the values registered before. */
  lemma InsertByParts(st: State, table: JsValue, data: JsValue, ignore: bool, suffix: string)
    ensures var t := ResolveTarget(st, table);
      var step := InsertStep(st, table, data, ignore, suffix);
      && (t.Err? ==> step == Err(t.error))
      && (t.Ok? && ClassifyData(data).Err? ==> step == Err(ClassifyData(data).error))
      && (t.Ok? ==> var p := PlanData(st.setArray, t.value.0, t.value.1, data);
            && (p.Ok? ==> step == Ok(Step(p.value.after, Render(p.value, ignore, suffix))))
            && (p.Err? ==> step == Err(p.error)))
  {
  }

  /** A named table replaces whatever tables were set: afterwards the builder
      holds exactly that one table name, trimmed and quoted. */
  lemma InsertNamesTable(st: State, name: string, data: JsValue, ignore: bool, suffix: string)
    requires Trim(name) != ""
    requires InsertStep(st, Str(name), data, ignore, suffix).Ok?
    ensures InsertStep(st, Str(name), data, ignore, suffix).value.state.fromArray == [Quote(Trim(name))]
  {
  }

  /** Without a usable table name, insert targets the first table set before
      and leaves the tables as they were. */
  lemma InsertUsesEarlierTable(st: State, table: JsValue, data: JsValue, ignore: bool, suffix: string)
    requires AcceptedAsTable(table) && !NamesTable(table)
    requires InsertStep(st, table, data, ignore, suffix).Ok?
    ensures st.fromArray != []
    ensures var step := InsertStep(st, table, data, ignore, suffix).value;
      step.state.fromArray == st.fromArray && step.sql[..|Verb(ignore) + st.fromArray[0]|] == Verb(ignore) + st.fromArray[0]
  {
    TableArgument(st, table);
    var p := PlanInsert(st, table, data).value;
    RenderStartsWithTarget(p, ignore, suffix);
  }

  /** A statement starts with its keyword and its target table. */
  lemma RenderStartsWithTarget(p: Plan, ignore: bool, suffix: string)
    requires p.writing.Many? ==> |p.writing.recs| > 0
    ensures var pre := Verb(ignore) + p.target;
      |pre| <= |Render(p, ignore, suffix)| && Render(p, ignore, suffix)[..|pre|] == pre
  {
    var v, t := Verb(ignore), p.target;
    var x := if p.writing.One? then " " + ColumnList(p.writing.rec) + " VALUES " + Tuple(p.writing.rec)
             else " " + ColumnList(p.writing.recs[0]) + " VALUES " + Join(", ", Tuples(p.writing.recs));
    var sfx := SuffixText(suffix);
    assert Render(p, ignore, suffix) == v + (t + x) + sfx;
    Regroup(v, t, x, sfx);
    assert ((v + t) + (x + sfx))[..|v + t|] == v + t;
  }

  lemma Regroup<T>(a: seq<T>, b: seq<T>, c: seq<T>, d: seq<T>)
    ensures a + (b + c) + d == (a + b) + (c + d)
  {
  }

  /** Once the table is known, an insert is planned from the data alone. */
  lemma PlanAfterTable(st: State, table: JsValue, data: JsValue)
    requires TableKnown(st, table)
    ensures PlanInsert(st, table, data) == PlanData(st.setArray, Target(st, table), TablesAfter(st, table), data)
  {
    TableArgument(st, table);
  }

  /** With no data, insert writes what set registered and changes no value;
      with nothing registered that is the statement with empty lists. */
  lemma InsertWithoutData(st: State, table: JsValue, data: JsValue, ignore: bool, suffix: string)
    requires TableKnown(st, table) && ClassifyData(data) == Ok(NoData)
    ensures InsertStep(st, table, data, ignore, suffix).Ok?
    ensures var step := InsertStep(st, table, data, ignore, suffix).value;
      step.sql == InsertSql(ignore, Target(st, table), st.setArray, suffix) && step.state.setArray == st.setArray
    ensures st.setArray == [] ==>
      InsertStep(st, table, data, ignore, suffix).value.sql
        == Verb(ignore) + Target(st, table) + " () VALUES ()" + SuffixText(suffix)
  {
    TableArgument(st, table);
    var t := Target(st, table);
    assert PlanInsert(st, table, data) == Ok(Plan(t, State(TablesAfter(st, table), st.setArray), One(st.setArray)));
    if st.setArray == [] {
      EmptyInsert(ignore, t, suffix);
    }
  }

  /** With no values the column and value lists are empty. */
  lemma EmptyInsert(ignore: bool, table: string, suffix: string)
    ensures InsertSql(ignore, table, [], suffix) == Verb(ignore) + table + " () VALUES ()" + SuffixText(suffix)
  {
    assert Identifiers([]) == [] && Literals([]) == [];
    assert ColumnList([]) == "()" && Tuple([]) == "()";
    assert InsertBody(table, []) == table + " () VALUES ()";
  }

  /** A record given to insert joins the registered values (its values win for
      columns registered before) and the whole registration is written. The
      columns keep their first-registration order. */
  lemma InsertRecord(st: State, table: JsValue, ps: seq<(string, JsValue)>, ignore: bool, suffix: string)
    requires TableKnown(st, table) && ps != [] && AllScalar(ps)
    ensures InsertStep(st, table, Object(ps), ignore, suffix).Ok?
    ensures |ToRecord(ps).value| == |ps|
    ensures forall i :: 0 <= i < |ps| ==> Columns(ToRecord(ps).value)[i] == ps[i].0
    ensures var step := InsertStep(st, table, Object(ps), ignore, suffix).value;
      step.state.setArray == MergeAll(st.setArray, ToRecord(ps).value)
    ensures var step := InsertStep(st, table, Object(ps), ignore, suffix).value;
      step.sql == InsertSql(ignore, Target(st, table), step.state.setArray, suffix)
    ensures var step := InsertStep(st, table, Object(ps), ignore, suffix).value;
      Columns(step.state.setArray) == Columns(st.setArray) + NewColumns(Columns(st.setArray), Columns(ToRecord(ps).value))
  {
    TableArgument(st, table);
    MergeColumns(st.setArray, ToRecord(ps).value);
  }

  /** Every value in a record must be a scalar: the first one that is not makes
      insert fail, naming its column, whichever column that is. */
  lemma InsertRejectsValue(st: State, table: JsValue, ps: seq<(string, JsValue)>, k: int, ignore: bool, suffix: string)
    requires TableKnown(st, table) && FirstNonScalar(ps, k)
    ensures InsertStep(st, table, Object(ps), ignore, suffix) == Err(InvalidValue(ps[k].0))
  {
    TableArgument(st, table);
    var r := ToRecord(ps);
    assert !AllScalar(ps);
    var j :| FirstNonScalar(ps, j) && r.error == InvalidValue(ps[j].0);
    FirstNonScalarUnique(ps, j, k);
  }

  lemma FirstNonScalarUnique(ps: seq<(string, JsValue)>, j: int, k: int)
    requires FirstNonScalar(ps, j) && FirstNonScalar(ps, k)
    ensures j == k
  {
  }

  /** A non-empty array of non-empty records is written as a batch: the columns
      of the first record, then one tuple per record in order; the registered
      values are neither used nor changed. */
  lemma InsertBatch(st: State, table: JsValue, es: seq<JsValue>, ignore: bool, suffix: string)
    requires TableKnown(st, table) && es != [] && AllRecords(es) && ValuesScalar(Array(es))
    ensures InsertStep(st, table, Array(es), ignore, suffix).Ok?
    ensures var step := InsertStep(st, table, Array(es), ignore, suffix).value;
      var recs := ToRecords(PropertiesOf(es)).value;
      && |recs| == |es|
      && (forall i :: 0 <= i < |es| ==> ToRecord(es[i].properties) == Ok(recs[i]))
      && step.state.setArray == st.setArray
      && step.sql == BatchSql(ignore, Target(st, table), recs, suffix)
  {
    PlanAfterTable(st, table, Array(es));
    var rs := PropertiesOf(es);
    assert ClassifyData(Array(es)) == Ok(Rows(rs));
    assert forall i :: 0 <= i < |rs| ==> AllScalar(rs[i]);
    var recs := ToRecords(rs).value;
    var t := Target(st, table);
    var p := Plan(t, State(TablesAfter(st, table), st.setArray), Many(recs));
    assert PlanInsert(st, table, Array(es)) == Ok(p);
    assert InsertStep(st, table, Array(es), ignore, suffix) == Ok(Step(p.after, BatchSql(ignore, t, recs, suffix)));
  }

  /** insert_ignore accepts and refuses exactly what insert does and changes
      the state the same way; its text differs only in the keyword, and a
      suffix follows after one space. */
  lemma InsertIgnoreIsInsert(st: State, table: JsValue, data: JsValue, suffix: string)
    ensures var plain := InsertStep(st, table, data, false, "");
      var ign := InsertStep(st, table, data, true, suffix);
      && (plain.Err? <==> ign.Err?)
      && (plain.Err? ==> plain.error == ign.error)
      && (plain.Ok? ==>
            && ign.value.state == plain.value.state
            && plain.value.sql[..|InsertKeyword|] == InsertKeyword
            && ign.value.sql == InsertIgnoreKeyword + plain.value.sql[|InsertKeyword|..] + SuffixText(suffix))
  {
    var plain := InsertStep(st, table, data, false, "");
    if plain.Ok? {
      InsertOutcomes(st, table, data, false, "");
      TableArgument(st, table);
      var t := Target(st, table);
      var d := ClassifyData(data).value;
      match d
      case NoData => IgnoreAndSuffix(t, st.setArray, suffix);
      case Row(ps) => IgnoreAndSuffix(t, MergeAll(st.setArray, ToRecord(ps).value), suffix);
      case Rows(rs) => IgnoreAndSuffixBatch(t, ToRecords(rs).value, suffix);
    }
  }

  /** set(data) followed by insert without data is insert with that data: same
      text, same state afterwards. */
  lemma SetThenInsert(st: State, data: JsValue, table: JsValue, ignore: bool, suffix: string)
    requires SetStep(st, data).Ok?
    ensures InsertStep(SetStep(st, data).value, table, Undefined, ignore, suffix)
            == InsertStep(st, table, data, ignore, suffix)
  {
  }

  /** from(name) on a builder with no table, then insert without a table, is
      insert with that table name. */
  lemma FromThenInsert(st: State, name: string, data: JsValue, ignore: bool, suffix: string)
    requires st.fromArray == [] && Trim(name) == name && name != ""
    ensures InsertStep(FromStep(st, name), Undefined, data, ignore, suffix)
            == InsertStep(st, Str(name), data, ignore, suffix)
  {
    var st' := FromStep(st, name);
    assert st'.fromArray == [Quote(name)];
    assert TableKnown(st', Undefined) && TableKnown(st, Str(name));
    PlanAfterTable(st', Undefined, data);
    PlanAfterTable(st, Str(name), data);
    assert Target(st', Undefined) == Quote(name) == Target(st, Str(name));
    assert TablesAfter(st', Undefined) == [Quote(name)] == TablesAfter(st, Str(name));
    assert PlanInsert(st', Undefined, data) == PlanInsert(st, Str(name), data);
  }

  /** Repeating an insert that succeeded gives the same text and the same state. */
  lemma InsertIdempotent(st: State, table: JsValue, data: JsValue, ignore: bool, suffix: string)
    requires Valid(st) && InsertStep(st, table, data, ignore, suffix).Ok?
    ensures var step := InsertStep(st, table, data, ignore, suffix).value;
      InsertStep(step.state, table, data, ignore, suffix) == Ok(step)
  {
    InsertOutcomes(st, table, data, ignore, suffix);
    PlanAfterTable(st, table, data);
    var p := PlanInsert(st, table, data).value;
    assert TableKnown(p.after, table);
    PlanAfterTable(p.after, table, data);
    assert Target(p.after, table) == p.target && TablesAfter(p.after, table) == p.after.fromArray;
    if IsRecord(data) {
      MergeIdempotent(st.setArray, ToRecord(data.properties).value);
    }
    assert PlanInsert(p.after, table, data) == Ok(p);
  }

  // ---------------------------------------------------------------------
  // The invariant.

  lemma InsertKeepsValid(st: State, table: JsValue, data: JsValue, ignore: bool, suffix: string)
    requires Valid(st) && InsertStep(st, table, data, ignore, suffix).Ok?
    ensures Valid(InsertStep(st, table, data, ignore, suffix).value.state)
  {
    assert ResolveTarget(st, table).Ok?;
    TableArgument(st, table);
    PlanAfterTable(st, table, data);
    var p := PlanInsert(st, table, data).value;
    assert InsertStep(st, table, data, ignore, suffix).value.state == p.after;
    assert p.after.fromArray == TablesAfter(st, table);
    if IsRecord(data) {
      var rec := ToRecord(data.properties).value;
      assert p.after.setArray == MergeAll(st.setArray, rec);
      MergeDistinct(st.setArray, rec);
    } else {
      assert p.after.setArray == st.setArray;
    }
  }

  lemma SetKeepsValid(st: State, data: JsValue)
    requires Valid(st) && SetStep(st, data).Ok?
    ensures Valid(SetStep(st, data).value)
  {
    if IsRecord(data) {
      MergeDistinct(st.setArray, ToRecord(data.properties).value);
    }
  }

  lemma FromKeepsValid(st: State, table: string)
    requires Valid(st)
    ensures Valid(FromStep(st, table))
  {
  }

  /** set accepts a record (if all its values are scalars) or "no data", and
      refuses a batch and everything insert refuses as data. */
  lemma SetOutcomes(st: State, data: JsValue)
    ensures var r := SetStep(st, data);
      && (r == Err(InvalidData) <==> !AcceptedAsData(data) || (data.Array? && data.elements != []))
      && (r.Err? && r.error.InvalidValue? <==> IsRecord(data) && !AllScalar(data.properties))
      && (r.Ok? && ClassifyData(data) == Ok(NoData) ==> r.value == st)
      && (r.Ok? && IsRecord(data) ==> r.value == State(st.fromArray, MergeAll(st.setArray, ToRecord(data.properties).value)))
  {
  }

  // ---------------------------------------------------------------------
  // truncate.

  /** truncate resolves its table like insert, fails exactly as insert does on
      its table argument, writes TRUNCATE and the quoted table, and does not
      depend on the registered values. */
  lemma TruncateLaws(st: State, table: JsValue, values: seq<Assignment>)
    ensures TruncateStep(st, table) == TruncateStep(State(st.fromArray, values), table)
    ensures TruncateStep(st, table) == Err(InvalidTable) <==> !AcceptedAsTable(table)
    ensures TruncateStep(st, table) == Err(MissingTable) <==> AcceptedAsTable(table) && !TableKnown(st, table)
    ensures TruncateStep(st, table).Ok? <==> TableKnown(st, table)
    ensures TableKnown(st, table) ==> TruncateStep(st, table) == Ok("TRUNCATE " + Target(st, table))
  {
    TableArgument(st, table);
  }

  /** Given a table name, truncate writes TRUNCATE, one space and the name in
      backticks, whatever the state. */
  lemma TruncateNamed(st: State, name: string)
    requires Trim(name) != ""
    ensures TruncateStep(st, Str(name)) == Ok("TRUNCATE `" + Trim(name) + "`")
  {
    var t := Trim(name);
    TableArgument(st, Str(name));
    assert TruncateStep(st, Str(name)) == Ok(TruncateSql(Quote(t)));
    assert "TRUNCATE `" + t + "`" == "TRUNCATE " + Quote(t);
  }
}
