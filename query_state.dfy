/** The builder's state — the tables named by from and the values registered
    by set — and what each operation does to it, as pure functions. The
    QueryBuilder class in module Builder carries out these steps in place. */
module QueryState {
  import opened Outcomes
  import opened JsValues
  import opened MySqlDialect

  /** fromArray: the backtick-quoted tables named so far (the first one is the
      target of insert and truncate); setArray: the registered (column, value)
      pairs in the order their columns were first registered. */
  datatype State = State(fromArray: seq<string>, setArray: seq<Assignment>)

  /** The state of a new builder, and after reset_query. */
  const Fresh := State([], [])

  // ---------------------------------------------------------------------
  // The registered values.

  function Columns(s: seq<Assignment>): (r: seq<string>)
    ensures |r| == |s|
    ensures forall i :: 0 <= i < |s| ==> r[i] == s[i].column
  {
    seq(|s|, i requires 0 <= i < |s| => s[i].column)
  }

  predicate Distinct(cs: seq<string>) {
    forall i, j :: 0 <= i < j < |cs| ==> cs[i] != cs[j]
  }

  /** The value registered for column c, if any. */
  function Lookup(s: seq<Assignment>, c: string): (r: Option<Scalar>)
    ensures r.None? <==> c !in Columns(s)
  {
    if s == [] then None
    else if s[0].column == c then Some(s[0].value)
    else
      assert Columns(s) == [s[0].column] + Columns(s[1..]);
      Lookup(s[1..], c)
  }

  /** Registers one value: a column already registered keeps its place and
      takes the new value; a new column goes at the end. */
  function Assign(s: seq<Assignment>, a: Assignment): seq<Assignment> {
    if s == [] then [a]
    else if s[0].column == a.column then [a] + s[1..]
    else [s[0]] + Assign(s[1..], a)
  }

  /** What registering one value does to the columns: a new column is
      appended, a known one stays in place. */
  lemma {:induction false} AssignColumns(s: seq<Assignment>, a: Assignment)
    ensures a.column in Columns(s) ==> Columns(Assign(s, a)) == Columns(s)
    ensures a.column !in Columns(s) ==> Columns(Assign(s, a)) == Columns(s) + [a.column]
    decreases |s|
  {
    if s == [] {
      Cons(a, []);
      assert [a] + [] == [a];
    } else {
      assert s == [s[0]] + s[1..];
      Cons(s[0], s[1..]);
      if s[0].column == a.column {
        Cons(a, s[1..]);
      } else {
        AssignColumns(s[1..], a);
        Cons(s[0], Assign(s[1..], a));
      }
    }
  }

  /** What registering one value does to the lookups: its column takes the
      value and every other column keeps its own. */
  lemma {:induction false} AssignLookup(s: seq<Assignment>, a: Assignment)
    ensures Lookup(Assign(s, a), a.column) == Some(a.value)
    ensures forall c :: c != a.column ==> Lookup(Assign(s, a), c) == Lookup(s, c)
    decreases |s|
  {
    if s == [] {
      Cons(a, []);
      assert [a] + [] == [a];
    } else {
      assert s == [s[0]] + s[1..];
      Cons(s[0], s[1..]);
      if s[0].column == a.column {
        Cons(a, s[1..]);
      } else {
        AssignLookup(s[1..], a);
        Cons(s[0], Assign(s[1..], a));
      }
    }
  }

  /** The columns and the lookups of a list of values with one more in front. */
  lemma Cons(x: Assignment, rest: seq<Assignment>)
    ensures Columns([x] + rest) == [x.column] + Columns(rest)
    ensures forall c :: Lookup([x] + rest, c) == if x.column == c then Some(x.value) else Lookup(rest, c)
  {
    assert ([x] + rest)[1..] == rest;
  }

  /** Registers the values of a record one after the other. */
  function MergeAll(s: seq<Assignment>, rec: seq<Assignment>): seq<Assignment>
    decreases |rec|
  {
    if rec == [] then s else MergeAll(Assign(s, rec[0]), rec[1..])
  }

  /** Registering one more value after a prefix of the record. */
  lemma {:induction false} MergeSnoc(s: seq<Assignment>, rec: seq<Assignment>, a: Assignment)
    ensures MergeAll(s, rec + [a]) == Assign(MergeAll(s, rec), a)
    decreases |rec|
  {
    if rec == [] {
      assert MergeAll(s, [a]) == MergeAll(Assign(s, a), []);
    } else {
      assert (rec + [a])[0] == rec[0];
      assert (rec + [a])[1..] == rec[1..] + [a];
      MergeSnoc(Assign(s, rec[0]), rec[1..], a);
    }
  }

  /** Reference definition of the column order: the columns of cs not in seen,
      each at its first occurrence, in order. */
  function NewColumns(seen: seq<string>, cs: seq<string>): seq<string>
    decreases |cs|
  {
    if cs == [] then []
    else if cs[0] in seen then NewColumns(seen, cs[1..])
    else [cs[0]] + NewColumns(seen + [cs[0]], cs[1..])
  }

  /** Merging keeps the registered columns in place and adds the record's new
      columns after them, in the order they first occur in the record. */
  lemma {:induction false} MergeColumns(s: seq<Assignment>, rec: seq<Assignment>)
    ensures Columns(MergeAll(s, rec)) == Columns(s) + NewColumns(Columns(s), Columns(rec))
    decreases |rec|
  {
    if rec != [] {
      var s' := Assign(s, rec[0]);
      AssignColumns(s, rec[0]);
      MergeColumns(s', rec[1..]);
      assert Columns(rec)[0] == rec[0].column;
      assert Columns(rec)[1..] == Columns(rec[1..]);
      if rec[0].column !in Columns(s) {
        assert Columns(s') == Columns(s) + [rec[0].column];
      }
    }
  }

  /** Reference definition of the value a record gives a column: its last
      occurrence wins. */
  function LastValue(rec: seq<Assignment>, c: string): Option<Scalar>
    decreases |rec|
  {
    if rec == [] then None
    else match LastValue(rec[1..], c)
      case Some(v) => Some(v)
      case None => if rec[0].column == c then Some(rec[0].value) else None
  }

  /** After merging, a column holds its last value in the record when the
      record has it, and its earlier value otherwise. */
  lemma {:induction false} MergeLookup(s: seq<Assignment>, rec: seq<Assignment>, c: string)
    ensures Lookup(MergeAll(s, rec), c) == match LastValue(rec, c) case Some(v) => Some(v) case None => Lookup(s, c)
    decreases |rec|
  {
    if rec != [] {
      AssignLookup(s, rec[0]);
      MergeLookup(Assign(s, rec[0]), rec[1..], c);
    }
  }

  lemma DistinctSnoc(cs: seq<string>, c: string)
    requires Distinct(cs) && c !in cs
    ensures Distinct(cs + [c])
  {
  }

  /** Merging never registers a column twice. */
  lemma {:induction false} MergeDistinct(s: seq<Assignment>, rec: seq<Assignment>)
    requires Distinct(Columns(s))
    ensures Distinct(Columns(MergeAll(s, rec)))
    decreases |rec|
  {
    if rec != [] {
      AssignColumns(s, rec[0]);
      if rec[0].column !in Columns(s) {
        DistinctSnoc(Columns(s), rec[0].column);
      }
      MergeDistinct(Assign(s, rec[0]), rec[1..]);
    }
  }

  /** Every column of the record ends up registered. */
  lemma {:induction false} MergeCovers(s: seq<Assignment>, rec: seq<Assignment>, c: string)
    requires c in Columns(rec)
    ensures c in Columns(MergeAll(s, rec))
    decreases |rec|
  {
    if c == rec[0].column && c !in Columns(rec[1..]) {
      MergeLookup(s, rec, c);
      assert LastValue(rec[1..], c).None? by { LastValueNone(rec[1..], c); }
    } else {
      assert Columns(rec) == [rec[0].column] + Columns(rec[1..]);
      MergeCovers(Assign(s, rec[0]), rec[1..], c);
    }
  }

  lemma {:induction false} LastValueNone(rec: seq<Assignment>, c: string)
    requires c !in Columns(rec)
    ensures LastValue(rec, c).None?
    decreases |rec|
  {
    if rec != [] {
      assert Columns(rec) == [rec[0].column] + Columns(rec[1..]);
      LastValueNone(rec[1..], c);
    }
  }

  /** Two registrations with the same distinct columns in the same order and
      the same value for every column are the same. */
  lemma {:induction false} Extensionality(a: seq<Assignment>, b: seq<Assignment>)
    requires Distinct(Columns(a)) && Columns(a) == Columns(b)
    requires forall c :: Lookup(a, c) == Lookup(b, c)
    ensures a == b
    decreases |a|
  {
    if a != [] {
      var c0 := a[0].column;
      assert Lookup(a, c0) == Some(a[0].value);
      assert Lookup(b, c0) == Some(b[0].value);
      assert Columns(a) == [c0] + Columns(a[1..]);
      assert Columns(b) == [b[0].column] + Columns(b[1..]);
      forall c ensures Lookup(a[1..], c) == Lookup(b[1..], c) {
        if c != c0 {
          assert Lookup(a, c) == Lookup(a[1..], c);
        } else {
          assert c0 !in Columns(a[1..]);
        }
      }
      Extensionality(a[1..], b[1..]);
      assert a == [a[0]] + a[1..];
      assert b == [b[0]] + b[1..];
    }
  }

  lemma {:induction false} NewColumnsSeen(seen: seq<string>, cs: seq<string>)
    requires forall i :: 0 <= i < |cs| ==> cs[i] in seen
    ensures NewColumns(seen, cs) == []
    decreases |cs|
  {
    if cs != [] {
      NewColumnsSeen(seen, cs[1..]);
    }
  }

  /** Registering the same record twice is the same as registering it once. */
  lemma MergeIdempotent(s: seq<Assignment>, rec: seq<Assignment>)
    requires Distinct(Columns(s))
    ensures MergeAll(MergeAll(s, rec), rec) == MergeAll(s, rec)
  {
    var m := MergeAll(s, rec);
    var mm := MergeAll(m, rec);
    MergeDistinct(s, rec);
    MergeColumns(m, rec);
    forall i | 0 <= i < |Columns(rec)| ensures Columns(rec)[i] in Columns(m) {
      MergeCovers(s, rec, Columns(rec)[i]);
    }
    NewColumnsSeen(Columns(m), Columns(rec));
    assert Columns(mm) == Columns(m);
    forall c ensures Lookup(mm, c) == Lookup(m, c) {
      MergeLookup(m, rec, c);
      MergeLookup(s, rec, c);
    }
    Extensionality(m, mm);
  }

  // ---------------------------------------------------------------------
  // The state invariant.

  predicate IsQuoted(t: string) {
    |t| >= 2 && t[0] == '`' && t[|t| - 1] == '`'
  }

  /** Every table is quoted and no column is registered twice. */
  predicate Valid(st: State) {
    && (forall i :: 0 <= i < |st.fromArray| ==> IsQuoted(st.fromArray[i]))
    && Distinct(Columns(st.setArray))
  }

  // ---------------------------------------------------------------------
  // The operations.

  /** The outcome of a statement: the state afterwards and the SQL text. */
  datatype Step = Step(state: State, sql: string)

  /** The quoted table a statement goes to, and the tables afterwards: a named
      table replaces all tables; "no table" takes the first table set before. */
  function ResolveTable(fromArray: seq<string>, arg: TableArg): (r: Result<(string, seq<string>)>)
    ensures r.Err? <==> arg.NoTable? && fromArray == []
    ensures r.Err? ==> r.error == MissingTable
    ensures r.Ok? && arg.Named? ==> r.value == (Quote(arg.name), [Quote(arg.name)])
    ensures r.Ok? && arg.NoTable? ==> r.value == (fromArray[0], fromArray)
  {
    match arg
    case Named(name) => Ok((Quote(name), [Quote(name)]))
    case NoTable => if fromArray == [] then Err(MissingTable) else Ok((fromArray[0], fromArray))
  }

  /** What an insert writes: one row, or a batch of at least one record. */
  datatype Writing = One(rec: seq<Assignment>) | Many(recs: seq<seq<Assignment>>)

  /** A checked insert: the quoted target table, the state afterwards, and what
      to write. */
  datatype Plan = Plan(target: string, after: State, writing: Writing)

  /** Checks the arguments of insert and insert_ignore and merges them into the
      state. The table is checked first, then whether a table is known, then
      the data, then the values in the data. A record is registered like set
      does and the whole registration is written; a batch is written on its own
      and registers nothing. */
  function PlanInsert(st: State, table: JsValue, data: JsValue): (r: Result<Plan>)
    ensures r.Ok? && r.value.writing.Many? ==> |r.value.writing.recs| > 0
    ensures r.Ok? && r.value.writing.One? ==> r.value.writing.rec == r.value.after.setArray
    ensures r.Ok? && r.value.writing.Many? ==> r.value.after.setArray == st.setArray
  {
    var target :- ResolveTarget(st, table);
    PlanData(st.setArray, target.0, target.1, data)
  }

  /** The quoted target table of a statement and the tables afterwards. */
  function ResolveTarget(st: State, table: JsValue): Result<(string, seq<string>)> {
    var arg :- ClassifyTable(table);
    ResolveTable(st.fromArray, arg)
  }

  /** The data part of PlanInsert, once the target is known. */
  function PlanData(values: seq<Assignment>, target: string, tables: seq<string>, data: JsValue): (r: Result<Plan>)
    ensures r.Ok? ==> r.value.target == target && r.value.after.fromArray == tables
    ensures r.Ok? && r.value.writing.Many? ==> |r.value.writing.recs| > 0
    ensures r.Ok? && r.value.writing.One? ==> r.value.writing.rec == r.value.after.setArray
    ensures r.Ok? && r.value.writing.Many? ==> r.value.after.setArray == values
    ensures r.Ok? <==> AcceptedAsData(data) && (IsRecord(data) ==> AllScalar(data.properties))
                       && (data.Array? ==> forall i :: 0 <= i < |data.elements| ==> AllScalar(data.elements[i].properties))
  {
    var d :- ClassifyData(data);
    match d
    case NoData =>
      Ok(Plan(target, State(tables, values), One(values)))
    case Row(ps) =>
      var rec :- ToRecord(ps);
      var merged := MergeAll(values, rec);
      Ok(Plan(target, State(tables, merged), One(merged)))
    case Rows(rs) =>
      var recs :- ToRecords(rs);
      Ok(Plan(target, State(tables, values), Many(recs)))
  }

  /** The text of a checked insert. */
  function Render(p: Plan, ignore: bool, suffix: string): string
    requires p.writing.Many? ==> |p.writing.recs| > 0
  {
    match p.writing
    case One(rec) => InsertSql(ignore, p.target, rec, suffix)
    case Many(recs) => BatchSql(ignore, p.target, recs, suffix)
  }

  /** insert (ignore false) and insert_ignore (ignore true). */
  function InsertStep(st: State, table: JsValue, data: JsValue, ignore: bool, suffix: string): Result<Step> {
    match PlanInsert(st, table, data)
    case Err(e) => Err(e)
    case Ok(p) => Ok(Step(p.after, Render(p, ignore, suffix)))
  }

  /** set: registers the values of a record; "no data" changes nothing; a batch
      is refused. */
  function SetStep(st: State, data: JsValue): Result<State> {
    var d :- ClassifyData(data);
    match d
    case NoData => Ok(st)
    case Row(ps) =>
      var rec :- ToRecord(ps);
      Ok(State(st.fromArray, MergeAll(st.setArray, rec)))
    case Rows(_) => Err(InvalidData)
  }

  /** from: adds a quoted table. */
  function FromStep(st: State, table: string): State {
    State(st.fromArray + [Quote(table)], st.setArray)
  }

  /** truncate: reads the table like insert does and changes nothing. */
  function TruncateStep(st: State, table: JsValue): Result<string> {
    var target :- ResolveTarget(st, table);
    Ok(TruncateSql(target.0))
  }

  /** The text an insert returns, or its failure. */
  function SqlOf(r: Result<Step>): Result<string> {
    match r
    case Ok(step) => Ok(step.sql)
    case Err(e) => Err(e)
  }

  /** The state after an insert: the step's state when it succeeds, and the
      state before when it fails. */
  function StateAfter(st: State, r: Result<Step>): State {
    match r
    case Ok(step) => step.state
    case Err(_) => st
  }
}
