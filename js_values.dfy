/** The JavaScript values a caller hands to the builder, and how the builder
    classifies them: as a table argument, as a data argument, and as a value
    inside a record. */
module JsValues {
  import opened Outcomes

  /** A JavaScript value, as far as the builder tells values apart. */
  /** A JavaScript value as a caller passes it. An Object's properties are its
      own enumerable properties in JavaScript's enumeration order: integer-like
      keys first, in ascending order, then the other keys in insertion order.
      The sequence may repeat a key, which no JavaScript object can: a one-row
      insert merges such a record so that the later value wins, and a batch
      writes it as given. */
  datatype JsValue =
    | Undefined
    | Null
    | Bool(b: bool)
    | Int(i: int)                                 // a number with an integral value
    | Float(text: string)                         // a finite number with a fraction, kept as its decimal text
    | NaN
    | Infinity(negative: bool)
    | Str(s: string)
    | Array(elements: seq<JsValue>)
    | Object(properties: seq<(string, JsValue)>)  // a plain object
    | Regex(pattern: string)
    | Function

  /** The characters JavaScript's String.prototype.trim removes. */
  predicate IsWhiteSpace(c: char) {
    || c == ' ' || c == '\t' || c == '\n' || c == '\r' || c == '\U{B}' || c == '\U{C}'
    || c == '\U{A0}' || c == '\U{1680}' || ('\U{2000}' <= c <= '\U{200A}')
    || c == '\U{2028}' || c == '\U{2029}' || c == '\U{202F}' || c == '\U{205F}'
    || c == '\U{3000}' || c == '\U{FEFF}'
  }

  predicate AllWhiteSpace(s: string) {
    forall i :: 0 <= i < |s| ==> IsWhiteSpace(s[i])
  }

  /** s without its leading white space. */
  function TrimStart(s: string): string {
    if s != [] && IsWhiteSpace(s[0]) then TrimStart(s[1..]) else s
  }

  /** s without its trailing white space. */
  function TrimEnd(s: string): string {
    if s != [] && IsWhiteSpace(s[|s| - 1]) then TrimEnd(s[..|s| - 1]) else s
  }

  /** TrimStart drops a prefix of white space and stops at the first other
      character. */
  lemma {:induction false} TrimStartShape(s: string)
    ensures var r := TrimStart(s);
      && |r| <= |s| && r == s[|s| - |r|..]
      && AllWhiteSpace(s[..|s| - |r|])
      && (r == [] || !IsWhiteSpace(r[0]))
  {
    if s != [] && IsWhiteSpace(s[0]) {
      TrimStartShape(s[1..]);
      var r := TrimStart(s[1..]);
      assert s[..|s| - |r|] == [s[0]] + s[1..][..|s| - 1 - |r|];
    }
  }

  /** TrimEnd drops a suffix of white space and stops at the last other
      character. */
  lemma {:induction false} TrimEndShape(s: string)
    ensures var r := TrimEnd(s);
      && |r| <= |s| && r == s[..|r|]
      && AllWhiteSpace(s[|r|..])
      && (r == [] || !IsWhiteSpace(r[|r| - 1]))
  {
    if s != [] && IsWhiteSpace(s[|s| - 1]) {
      var p := s[..|s| - 1];
      TrimEndShape(p);
      var r := TrimEnd(p);
      assert s[|r|..] == p[|r|..] + [s[|s| - 1]];
    }
  }

  /** JavaScript's s.trim(). */
  function Trim(s: string): string {
    TrimEnd(TrimStart(s))
  }

  /** A string trims to nothing exactly when it is all white space. */
  lemma TrimEmptyIff(s: string)
    ensures Trim(s) == "" <==> AllWhiteSpace(s)
  {
    var t := TrimStart(s);
    TrimStartShape(s);
    TrimEndShape(t);
    if Trim(s) == "" {
      assert t[|TrimEnd(t)|..] == t;
      assert t == [];
      assert s[..|s|] == s;
    }
    if AllWhiteSpace(s) {
      assert t == [];
    }
  }

  /** A string of white space only trims to nothing. */
  lemma TrimSpaces(s: string)
    requires AllWhiteSpace(s)
    ensures Trim(s) == ""
  {
    TrimEmptyIff(s);
  }

  /** A trimmed string neither starts nor ends with white space. */
  lemma TrimmedHasNoOuterSpace(s: string)
    ensures var t := Trim(s); t == [] || (!IsWhiteSpace(t[0]) && !IsWhiteSpace(t[|t| - 1]))
  {
    var u := TrimStart(s);
    var t := TrimEnd(u);
    TrimStartShape(s);
    TrimEndShape(u);
    if t != [] {
      assert t[0] == u[0];
    }
  }

  // ---------------------------------------------------------------------
  // The table argument of insert, insert_ignore and truncate.

  /** What a table argument amounts to: no table (use the one set before),
      or a table name, already trimmed and non-empty. */
  datatype TableArg = NoTable | Named(name: string)

  /** The values a table argument may take: undefined, null, false, NaN and
      any string. Every other value is refused. */
  predicate AcceptedAsTable(v: JsValue) {
    v.Undefined? || v.Null? || v == Bool(false) || v.NaN? || v.Str?
  }

  /** Classifies a table argument. An accepted value is a table name when it is
      a string that does not trim to nothing, and "no table" otherwise. */
  function ClassifyTable(v: JsValue): (r: Result<TableArg>)
    ensures r.Ok? <==> AcceptedAsTable(v)
    ensures r.Err? ==> r.error == InvalidTable
    ensures r.Ok? && r.value.Named? <==> v.Str? && Trim(v.s) != ""
    ensures r.Ok? && r.value.Named? ==> r.value.name == Trim(v.s)
  {
    match v
    case Undefined => Ok(NoTable)
    case Null => Ok(NoTable)
    case Bool(b) => if b then Err(InvalidTable) else Ok(NoTable)
    case NaN => Ok(NoTable)
    case Str(s) => if Trim(s) == "" then Ok(NoTable) else Ok(Named(Trim(s)))
    case _ => Err(InvalidTable)
  }

  // ---------------------------------------------------------------------
  // The data argument of insert, insert_ignore and set.

  /** "No data" (use what set registered), one record, or a batch of records.
      A record is a non-empty list of (column, value) pairs. */
  datatype DataArg =
    | NoData
    | Row(properties: seq<(string, JsValue)>)
    | Rows(records: seq<seq<(string, JsValue)>>)

  /** A non-empty plain object. */
  predicate IsRecord(v: JsValue) {
    v.Object? && |v.properties| > 0
  }

  predicate AllRecords(es: seq<JsValue>) {
    forall i :: 0 <= i < |es| ==> IsRecord(es[i])
  }

  /** The properties of each record of a list of records. */
  function PropertiesOf(es: seq<JsValue>): (r: seq<seq<(string, JsValue)>>)
    requires AllRecords(es)
    ensures |r| == |es|
    ensures forall i :: 0 <= i < |es| ==> r[i] == es[i].properties && |r[i]| > 0
  {
    if es == [] then [] else [es[0].properties] + PropertiesOf(es[1..])
  }

  /** The values a data argument may take: undefined, null, the empty string,
      any plain object, the empty array, and an array whose every element is a
      non-empty plain object. */
  predicate AcceptedAsData(v: JsValue) {
    || v.Undefined? || v.Null? || v == Str("") || v.Object?
    || (v.Array? && AllRecords(v.elements))
  }

  /** Classifies a data argument. */
  function ClassifyData(v: JsValue): (r: Result<DataArg>)
    ensures r.Ok? <==> AcceptedAsData(v)
    ensures r.Err? ==> r.error == InvalidData
    ensures r.Ok? && r.value.Row? <==> IsRecord(v)
    ensures r.Ok? && r.value.Row? ==> r.value.properties == v.properties
    ensures r.Ok? && r.value.Rows? <==> v.Array? && v.elements != [] && AllRecords(v.elements)
    ensures r.Ok? && r.value.Rows? ==> |r.value.records| == |v.elements| > 0
    ensures r.Ok? && r.value.Rows? ==> v.Array? && forall i :: 0 <= i < |v.elements| ==>
      v.elements[i].Object? && r.value.records[i] == v.elements[i].properties
  {
    match v
    case Undefined => Ok(NoData)
    case Null => Ok(NoData)
    case Str(s) => if s == "" then Ok(NoData) else Err(InvalidData)
    case Object(ps) => if ps == [] then Ok(NoData) else Ok(Row(ps))
    case Array(es) =>
      if es == [] then Ok(NoData)
      else if AllRecords(es) then Ok(Rows(PropertiesOf(es)))
      else Err(InvalidData)
    case _ => Err(InvalidData)
  }

  // ---------------------------------------------------------------------
  // Values inside a record.

  /** A value a record may hold, as it will be written into SQL. */
  datatype Scalar =
    | SqlInt(i: int)
    | SqlFloat(text: string)
    | SqlString(s: string)
    | SqlNull
    | SqlFalse

  /** One column of a record together with its value. */
  datatype Assignment = Assignment(column: string, value: Scalar)

  /** The values a record may hold: integers, finite floats, strings, null and false. */
  predicate IsScalar(v: JsValue) {
    v.Int? || v.Float? || v.Str? || v.Null? || v == Bool(false)
  }

  /** Converts the value of one column; refuses, naming the column, anything
      that is not a scalar (a function, a regex, an infinity, undefined, NaN,
      true, an array or an object). */
  function ToScalar(column: string, v: JsValue): (r: Result<Scalar>)
    ensures r.Ok? <==> IsScalar(v)
    ensures r.Err? ==> r.error == InvalidValue(column)
  {
    match v
    case Int(i) => Ok(SqlInt(i))
    case Float(t) => Ok(SqlFloat(t))
    case Str(s) => Ok(SqlString(s))
    case Null => Ok(SqlNull)
    case Bool(b) => if b then Err(InvalidValue(column)) else Ok(SqlFalse)
    case _ => Err(InvalidValue(column))
  }

  predicate AllScalar(ps: seq<(string, JsValue)>) {
    forall i :: 0 <= i < |ps| ==> IsScalar(ps[i].1)
  }

  /** Index of the first property whose value is not a scalar. */
  predicate FirstNonScalar(ps: seq<(string, JsValue)>, k: int) {
    0 <= k < |ps| && !IsScalar(ps[k].1) && AllScalar(ps[..k])
  }

  /** Converts a record. It succeeds exactly when every value is a scalar, and
      then keeps the columns in their order; otherwise it names the column of
      the first value that is not. */
  function ToRecord(ps: seq<(string, JsValue)>): (r: Result<seq<Assignment>>)
    ensures r.Ok? <==> AllScalar(ps)
    ensures r.Ok? ==> |r.value| == |ps|
    ensures r.Ok? ==> forall i :: 0 <= i < |ps| ==>
      r.value[i].column == ps[i].0 && ToScalar(ps[i].0, ps[i].1) == Ok(r.value[i].value)
    ensures r.Err? ==> exists k :: FirstNonScalar(ps, k) && r.error == InvalidValue(ps[k].0)
  {
    if ps == [] then Ok([])
    else
      match ToScalar(ps[0].0, ps[0].1)
      case Err(e) =>
        assert FirstNonScalar(ps, 0);
        Err(e)
      case Ok(v) =>
        match ToRecord(ps[1..])
        case Err(e) =>
          var k :| FirstNonScalar(ps[1..], k) && e == InvalidValue(ps[1..][k].0);
          assert ps[1..][..k] == ps[1..k + 1];
          assert FirstNonScalar(ps, k + 1);
          Err(e)
        case Ok(rest) =>
          assert AllScalar(ps) by {
            forall i | 0 <= i < |ps| ensures IsScalar(ps[i].1) {
              if i > 0 { assert ps[i] == ps[1..][i - 1]; }
            }
          }
          Ok([Assignment(ps[0].0, v)] + rest)
  }

  /** Converts every record of a batch; fails with the first failure. */
  function ToRecords(rs: seq<seq<(string, JsValue)>>): (r: Result<seq<seq<Assignment>>>)
    ensures r.Ok? <==> forall i :: 0 <= i < |rs| ==> AllScalar(rs[i])
    ensures r.Ok? ==> |r.value| == |rs| && forall i :: 0 <= i < |rs| ==> ToRecord(rs[i]) == Ok(r.value[i])
    ensures r.Err? ==> r.error.InvalidValue?
  {
    if rs == [] then Ok([])
    else
      match ToRecord(rs[0])
      case Err(e) => Err(e)
      case Ok(first) =>
        match ToRecords(rs[1..])
        case Err(e) => Err(e)
        case Ok(rest) =>
          assert forall i :: 0 < i < |rs| ==> rs[i] == rs[1..][i - 1];
          Ok([first] + rest)
  }
}
