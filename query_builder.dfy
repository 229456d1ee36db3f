/** The builder object: one handle whose table list and registered values are
    changed in place by from, set, insert, insert_ignore and reset_query, and
    read by truncate. Each method is proved to do what the matching step of
    module QueryState describes. */
module Builder {
  import opened Outcomes
  import opened JsValues
  import opened MySqlDialect
  import opened QueryState
  import StatementLaws

  class QueryBuilder {
    /** The backtick-quoted tables named so far. */
    var fromArray: seq<string>
    /** The registered (column, value) pairs, in first-registration order. */
    var setArray: seq<Assignment>

    /** The state as a value. */
    function Snapshot(): State
      reads this
    {
      State(fromArray, setArray)
    }

    ghost predicate Valid()
      reads this
    {
      QueryState.Valid(Snapshot())
    }

    constructor ()
      ensures Valid() && Snapshot() == Fresh
    {
      fromArray := [];
      setArray := [];
    }

    /** Forgets the tables and the registered values. */
    method ResetQuery()
      modifies this
      ensures Valid() && Snapshot() == Fresh
    {
      fromArray := [];
      setArray := [];
    }

    /** Adds a table; the first one added is the target of a later insert or
        truncate that names no table. */
    method From(table: string)
      requires Valid()
      modifies this
      ensures Valid() && Snapshot() == FromStep(old(Snapshot()), table)
    {
      fromArray := fromArray + [Quote(table)];
    }

    /** Registers each value of a record in turn. */
    method Register(rec: seq<Assignment>)
      modifies this`setArray
      ensures setArray == MergeAll(old(setArray), rec)
    {
      var i := 0;
      while i < |rec|
        invariant 0 <= i <= |rec|
        invariant setArray == MergeAll(old(setArray), rec[..i])
      {
        MergeSnoc(old(setArray), rec[..i], rec[i]);
        assert rec[..i + 1] == rec[..i] + [rec[i]];
        setArray := Assign(setArray, rec[i]);
        i := i + 1;
      }
      assert rec[..i] == rec;
    }

    /** set: registers the values of a record. A failure changes nothing. */
    method Set(data: JsValue) returns (r: Result<()>)
      requires Valid()
      modifies this
      ensures Valid()
      ensures SetStep(old(Snapshot()), data).Ok? ==> r == Ok(()) && Snapshot() == SetStep(old(Snapshot()), data).value
      ensures SetStep(old(Snapshot()), data).Err? ==> r == Err(SetStep(old(Snapshot()), data).error) && Snapshot() == old(Snapshot())
    {
      var d := ClassifyData(data);
      if d.Err? {
        return Err(d.error);
      }
      match d.value
      case NoData =>
        r := Ok(());
      case Rows(_) =>
        r := Err(InvalidData);
      case Row(ps) =>
        var rec := ToRecord(ps);
        if rec.Err? {
          return Err(rec.error);
        }
        ghost var before := Snapshot();
        Register(rec.value);
        StatementLaws.SetKeepsValid(before, data);
        r := Ok(());
    }

    /** insert(table, data, ignore, suffix); the callback is not modelled.
        A failure changes nothing. */
    method Insert(table: JsValue := Undefined, data: JsValue := Undefined, ignore: bool := false, suffix: string := "")
      returns (r: Result<string>)
      requires Valid()
      modifies this
      ensures Valid()
      ensures r == SqlOf(InsertStep(old(Snapshot()), table, data, ignore, suffix))
      ensures Snapshot() == StateAfter(old(Snapshot()), InsertStep(old(Snapshot()), table, data, ignore, suffix))
    {
      r := Write(table, data, ignore, suffix);
    }

    /** insert_ignore(table, data, suffix). A failure changes nothing. */
    method InsertIgnore(table: JsValue := Undefined, data: JsValue := Undefined, suffix: string := "") returns (r: Result<string>)
      requires Valid()
      modifies this
      ensures Valid()
      ensures r == SqlOf(InsertStep(old(Snapshot()), table, data, true, suffix))
      ensures Snapshot() == StateAfter(old(Snapshot()), InsertStep(old(Snapshot()), table, data, true, suffix))
    {
      r := Write(table, data, true, suffix);
    }

    /** Checks everything first, then updates the tables and the values, then
        writes the statement. */
    method Write(table: JsValue, data: JsValue, ignore: bool, suffix: string) returns (r: Result<string>)
      requires Valid()
      modifies this
      ensures Valid()
      ensures r == SqlOf(InsertStep(old(Snapshot()), table, data, ignore, suffix))
      ensures Snapshot() == StateAfter(old(Snapshot()), InsertStep(old(Snapshot()), table, data, ignore, suffix))
    {
      var before := Snapshot();
      var target := ResolveTarget(before, table);
      StatementLaws.InsertByParts(before, table, data, ignore, suffix);
      if target.Err? {
        return Err(target.error);
      }
      var name, tables := target.value.0, target.value.1;
      var d := ClassifyData(data);
      if d.Err? {
        return Err(d.error);
      }
      r := WriteData(name, tables, d.value, data, ignore, suffix);
      if r.Ok? {
        StatementLaws.InsertKeepsValid(before, table, data, ignore, suffix);
      }
    }

    /** The data part of Write, once the target table and the tables afterwards
        are known and the data is classified. */
    method WriteData(name: string, tables: seq<string>, d: DataArg, ghost data: JsValue, ignore: bool, suffix: string)
      returns (r: Result<string>)
      requires ClassifyData(data) == Ok(d)
      modifies this
      ensures var p := PlanData(old(setArray), name, tables, data);
        && (p.Ok? ==> r == Ok(Render(p.value, ignore, suffix)) && Snapshot() == p.value.after)
        && (p.Err? ==> r == Err(p.error) && Snapshot() == old(Snapshot()))
    {
      match d {
      case NoData =>
        fromArray := tables;
        r := Ok(InsertSql(ignore, name, setArray, suffix));
      case Row(ps) =>
        var rec := ToRecord(ps);
        if rec.Err? {
          return Err(rec.error);
        }
        fromArray := tables;
        Register(rec.value);
        r := Ok(InsertSql(ignore, name, setArray, suffix));
      case Rows(rs) =>
        var recs := ToRecords(rs);
        if recs.Err? {
          return Err(recs.error);
        }
        fromArray := tables;
        r := Ok(BatchSql(ignore, name, recs.value, suffix));
      }
    }

    /** truncate(table): reads the state and changes nothing. */
    method Truncate(table: JsValue) returns (r: Result<string>)
      ensures r == TruncateStep(Snapshot(), table)
    {
      var target := ResolveTarget(Snapshot(), table);
      if target.Err? {
        return Err(target.error);
      }
      r := Ok(TruncateSql(target.value.0));
    }
  }
}
