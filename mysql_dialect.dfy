/** How MySQL text is written: quoted identifiers, value literals, and the
    INSERT, INSERT IGNORE, batch INSERT and TRUNCATE statements. Everything
    here is a pure function of its arguments. */
module MySqlDialect {
  import opened Outcomes
  import opened JsValues

  /** An identifier wrapped in backticks. Backticks inside the name are not
      escaped and dotted names are not split. */
  function Quote(name: string): (r: string)
    ensures |r| == |name| + 2 && r[0] == '`' && r[|r| - 1] == '`'
    ensures r[1..|r| - 1] == name
  {
    "`" + name + "`"
  }

  // ---------------------------------------------------------------------
  // Decimal text of integers, with its reading back.

  predicate IsDigit(c: char) {
    '0' <= c <= '9'
  }

  predicate AllDigits(s: string) {
    forall i :: 0 <= i < |s| ==> IsDigit(s[i])
  }

  function DigitChar(d: nat): (c: char)
    requires d < 10
    ensures IsDigit(c) && c as int - '0' as int == d
  {
    ('0' as int + d) as char
  }

  /** The decimal digits of n, most significant first, without leading zeros. */
  function NatText(n: nat): (r: string)
    ensures |r| > 0 && AllDigits(r)
    ensures r[0] == '0' ==> n == 0
    decreases n
  {
    if n < 10 then [DigitChar(n)] else NatText(n / 10) + [DigitChar(n % 10)]
  }

  /** The number a string of decimal digits stands for. */
  function DigitsValue(s: string): nat
    requires AllDigits(s)
  {
    if s == [] then 0 else DigitsValue(s[..|s| - 1]) * 10 + (s[|s| - 1] as int - '0' as int)
  }

  lemma {:induction false} NatTextRoundTrip(n: nat)
    ensures DigitsValue(NatText(n)) == n
    decreases n
  {
    if n >= 10 {
      var r := NatText(n);
      assert r[..|r| - 1] == NatText(n / 10);
      NatTextRoundTrip(n / 10);
    }
  }

  /** How an integer appears in a statement: its decimal form, with a leading
      minus sign when it is negative. */
  function DecimalText(i: int): (r: string)
    ensures |r| > 0
    ensures i < 0 <==> r[0] == '-'
    ensures i < 0 ==> |r| > 1 && AllDigits(r[1..]) && r[1] != '0'
    ensures i >= 0 ==> AllDigits(r)
  {
    if i < 0 then "-" + NatText(-i) else NatText(i)
  }

  /** Reads an optionally signed decimal integer. */
  function ParseDecimal(s: string): Option<int> {
    if |s| > 1 && s[0] == '-' && AllDigits(s[1..]) then Some(0 - DigitsValue(s[1..]))
    else if s != [] && AllDigits(s) then Some(DigitsValue(s))
    else None
  }

  /** Reading back the text of an integer gives the integer. */
  lemma DecimalRoundTrip(i: int)
    ensures ParseDecimal(DecimalText(i)) == Some(i)
  {
    if i < 0 {
      var r := DecimalText(i);
      assert r[1..] == NatText(-i);
      NatTextRoundTrip(-i);
    } else {
      NatTextRoundTrip(i);
    }
  }

  /** Distinct integers are written differently. */
  lemma DecimalTextInjective(i: int, j: int)
    requires DecimalText(i) == DecimalText(j)
    ensures i == j
  {
    DecimalRoundTrip(i);
    DecimalRoundTrip(j);
  }

  // ---------------------------------------------------------------------
  // Value literals.

  /** How a record value appears in a statement. Strings are single-quoted and
      are not escaped; a float keeps its own decimal text. */
  function Literal(v: Scalar): string {
    match v
    case SqlInt(i) => DecimalText(i)
    case SqlFloat(t) => t
    case SqlString(s) => "'" + s + "'"
    case SqlNull => "NULL"
    case SqlFalse => "0"
  }

  /** An integer literal reads back as the integer; a string literal is the
      string between two single quotes. */
  lemma LiteralReadsBack(v: Scalar)
    ensures v.SqlInt? ==> ParseDecimal(Literal(v)) == Some(v.i)
    ensures v.SqlString? ==> var l := Literal(v); |l| >= 2 && l[0] == '\'' && l[|l| - 1] == '\'' && l[1..|l| - 1] == v.s
  {
    if v.SqlInt? {
      DecimalRoundTrip(v.i);
    }
  }

  // ---------------------------------------------------------------------
  // Lists and statements.

  /** The items separated by sep. */
  function Join(sep: string, items: seq<string>): string {
    if items == [] then ""
    else if |items| == 1 then items[0]
    else items[0] + sep + Join(sep, items[1..])
  }

  /** Adding an item at the end adds one separator and the item. */
  lemma {:induction false} JoinSnoc(sep: string, items: seq<string>, x: string)
    ensures Join(sep, items + [x]) == if items == [] then x else Join(sep, items) + sep + x
    decreases |items|
  {
    if |items| > 1 {
      assert (items + [x])[1..] == items[1..] + [x];
      JoinSnoc(sep, items[1..], x);
    } else if |items| == 1 {
      assert (items + [x])[1..] == [x];
    }
  }

  /** The quoted columns of a record, in the record's order. */
  function Identifiers(rec: seq<Assignment>): (r: seq<string>)
    ensures |r| == |rec|
    ensures forall i :: 0 <= i < |rec| ==> r[i] == Quote(rec[i].column)
  {
    seq(|rec|, i requires 0 <= i < |rec| => Quote(rec[i].column))
  }

  /** The literals of a record, in the record's order. */
  function Literals(rec: seq<Assignment>): (r: seq<string>)
    ensures |r| == |rec|
    ensures forall i :: 0 <= i < |rec| ==> r[i] == Literal(rec[i].value)
  {
    seq(|rec|, i requires 0 <= i < |rec| => Literal(rec[i].value))
  }

  function ColumnList(rec: seq<Assignment>): string {
    "(" + Join(", ", Identifiers(rec)) + ")"
  }

  function Tuple(rec: seq<Assignment>): string {
    "(" + Join(", ", Literals(rec)) + ")"
  }

  /** One VALUES tuple per record, in order. */
  function Tuples(recs: seq<seq<Assignment>>): (r: seq<string>)
    ensures |r| == |recs|
    ensures forall i :: 0 <= i < |recs| ==> r[i] == Tuple(recs[i])
  {
    seq(|recs|, i requires 0 <= i < |recs| => Tuple(recs[i]))
  }

  /** The statement keyword: INSERT INTO, or INSERT IGNORE INTO. */
  function Verb(ignore: bool): string {
    if ignore then "INSERT IGNORE INTO " else "INSERT INTO "
  }

  /** A trailing fragment, written after one space; nothing when it is empty. */
  function SuffixText(suffix: string): string {
    if suffix == "" then "" else " " + suffix
  }

  /** What follows the keyword of a one-row insert: the table, the column list
      and one VALUES tuple. */
  function InsertBody(table: string, rec: seq<Assignment>): string {
    table + (" " + ColumnList(rec) + " VALUES " + Tuple(rec))
  }

  /** What follows the keyword of a batch insert: the table, the columns of the
      first record, then one tuple per record separated by ", ". */
  function BatchBody(table: string, recs: seq<seq<Assignment>>): string
    requires |recs| > 0
  {
    table + (" " + ColumnList(recs[0]) + " VALUES " + Join(", ", Tuples(recs)))
  }

  /** A one-row insert into the already quoted table. With an empty record it
      is the statement with empty column and value lists. */
  function InsertSql(ignore: bool, table: string, rec: seq<Assignment>, suffix: string): string {
    Verb(ignore) + InsertBody(table, rec) + SuffixText(suffix)
  }

  /** A batch insert. */
  function BatchSql(ignore: bool, table: string, recs: seq<seq<Assignment>>, suffix: string): string
    requires |recs| > 0
  {
    Verb(ignore) + BatchBody(table, recs) + SuffixText(suffix)
  }

  function TruncateSql(table: string): string {
    "TRUNCATE " + table
  }

  /** A batch of one record is the one-row statement for that record. */
  lemma BatchOfOne(ignore: bool, table: string, rec: seq<Assignment>, suffix: string)
    ensures BatchSql(ignore, table, [rec], suffix) == InsertSql(ignore, table, rec, suffix)
  {
    assert Tuples([rec]) == [Tuple(rec)];
  }

  /** Adding a record to a batch appends ", " and its tuple to the VALUES list
      and leaves the column list alone. */
  lemma BatchAppend(ignore: bool, table: string, recs: seq<seq<Assignment>>, rec: seq<Assignment>)
    requires |recs| > 0
    ensures BatchSql(ignore, table, recs + [rec], "") == BatchSql(ignore, table, recs, "") + ", " + Tuple(rec)
  {
    assert Tuples(recs + [rec]) == Tuples(recs) + [Tuple(rec)];
    JoinSnoc(", ", Tuples(recs), Tuple(rec));
    assert (recs + [rec])[0] == recs[0];
  }

  const InsertKeyword := "INSERT INTO "
  const InsertIgnoreKeyword := "INSERT IGNORE INTO "

  /** INSERT IGNORE differs from INSERT only in its keyword, and a suffix is
      written after the plain statement, following one space. */
  lemma IgnoreAndSuffix(table: string, rec: seq<Assignment>, suffix: string)
    ensures var plain := InsertSql(false, table, rec, "");
      && plain[..|InsertKeyword|] == InsertKeyword
      && InsertSql(true, table, rec, suffix)
         == InsertIgnoreKeyword + plain[|InsertKeyword|..] + (if suffix == "" then "" else " " + suffix)
  {
    var body := InsertBody(table, rec);
    assert InsertSql(false, table, rec, "") == InsertKeyword + body;
    assert (InsertKeyword + body)[|InsertKeyword|..] == body;
  }

  /** The same for a batch insert. */
  lemma IgnoreAndSuffixBatch(table: string, recs: seq<seq<Assignment>>, suffix: string)
    requires |recs| > 0
    ensures var plain := BatchSql(false, table, recs, "");
      && plain[..|InsertKeyword|] == InsertKeyword
      && BatchSql(true, table, recs, suffix)
         == InsertIgnoreKeyword + plain[|InsertKeyword|..] + (if suffix == "" then "" else " " + suffix)
  {
    var body := BatchBody(table, recs);
    assert BatchSql(false, table, recs, "") == InsertKeyword + body;
    assert (InsertKeyword + body)[|InsertKeyword|..] == body;
  }

  /** A truncate statement is TRUNCATE, one space and the quoted table, and so
      never empty. */
  lemma TruncateShape(name: string)
    ensures var sql := TruncateSql(Quote(name));
      && |sql| == |name| + 11 && sql != ""
      && sql[..9] == "TRUNCATE " && sql[9..] == Quote(name)
  {
  }
}
