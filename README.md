# node-querybuilder MySQL mutation statements, modelled in Dafny

This project models the part of the node-querybuilder MySQL driver that builds
mutation statements: `insert`, `insert_ignore`, `truncate`, and the `from`,
`set` and `reset_query` calls that prepare them. The model follows what the
driver's two mocha suites assert, `test/mysql/tests-insert.js` and
`test/mysql/tests-truncate.js`. The driver's source,
`drivers/mysql/query_builder.js`, is not available here, so what the driver
does is modelled after what its two suites expect of it. Where the suites
leave a choice open, the model makes one. Those choices are listed under
"Decisions" below.

The builder is one object that remembers two things between calls:

- `from_array`, the backtick-quoted tables;
- the `set` values, an ordered list of column/value pairs.

`reset_query` clears both. `from` adds a table. `set` registers the values of
a record. `insert` does the following:

1. It classifies its table argument. A usable string replaces `from_array`.
   A "falsy" argument (undefined, null, false, NaN, an empty or all-space
   string) falls back to the first table set before.
2. It classifies its data argument. This can be no data, one record, or a
   batch of records.
3. It checks that every value inside a record is a scalar.
4. It merges a record into the registered values. A later value wins, and a
   column keeps its first position.
5. It writes `INSERT [IGNORE] INTO ... VALUES ...`, with an optional suffix.

`truncate` resolves its table the same way and writes `TRUNCATE` and the
quoted table.

Modules, one file each:

- `Outcomes` (`outcomes.dfy`): the error kinds, `Result` and `Option`.
- `JsValues` (`js_values.dfy`):
  - the JavaScript values a caller passes;
  - JavaScript's `trim`;
  - the separate accept/refuse rules for a table argument, a data argument and
    a value inside a record.
- `MySqlDialect` (`mysql_dialect.dfy`): quoting, literals, and the INSERT and
  TRUNCATE text.
- `QueryState` (`query_state.dfy`):
  - the builder's state as a value;
  - how registered values are merged;
  - each operation as a pure step from a state to a new state and a statement.
- `StatementLaws` (`statement_laws.dfy`): what those steps promise, proved for
  all inputs.
- `Builder` (`query_builder.dfy`):
  - the `QueryBuilder` class, whose fields the methods update in place;
  - each method is proved to do exactly what its step does, and to keep the
    builder's invariant.
- `InsertTexts` (`insert_texts.dfy`): the statements the insert suite expects,
  and lemmas that build each one from the pieces the renderer joins.
- `InsertTests` and `TruncateTests` (`insert_tests.dfy`, `truncate_tests.dfy`):
  - each expectation of the two suites, stated as the postcondition of a
    method that drives one builder through the same calls, or as a lemma over
    every state;
  - every expected statement is proved character for character.

Decisions:

- The table argument 0 counts as a number and is refused. The suites only show
  3 and 3.5.
- Accepted values inside a record: integers, floats, strings, null and false.
  `true` is refused along with the kinds the suites refuse.
- null renders as `NULL` and false renders as `0`.
- A failing call changes nothing.
- `set` refuses a batch with InvalidData, and refuses everything that `insert`
  refuses as data.
- `from` appends its quoted table to `from_array`, because the suite checks
  `from_array` as an array (test/mysql/tests-insert.js:20). An insert without
  a table then targets the first table. A builder that keeps one table and
  lets `from` overwrite it would target the last one after `from('a')` and
  `from('b')`. The suites never call `from` twice, so they do not decide
  between the two.
- An insert that names a table replaces `from_array` with that one table.
- `truncate` uses the same table resolution as `insert`. It neither reads nor
  changes the registered values. Unlike `insert`, `truncate` with a table
  name leaves `from_array` as it was.
- `insert` and `truncate` trim a table name before quoting it, but `from`
  quotes its argument as given: `insert(' t ')` targets `` `t` ``, while
  `from(' t ')` stores `` ` t ` ``. `from` takes only a string.
- `insert` checks its arguments in a fixed order: the table argument, then
  whether a table is known, then the data argument, then the values in each
  record. The first failing check decides the error, so `insert(undefined, 3)`
  on a fresh builder fails with MissingTable, not InvalidData.
- The data arguments undefined, null, `''`, `{}` and `[]` all mean "no data".
  An insert given one of them writes the values registered by `set`.
- A one-row insert merges its record into the values registered by `set` and
  writes them all. A batch writes only its own records, and neither writes
  nor changes the registered values.
- `insert` takes `ignore` as its own argument, next to the suffix, as in the
  argument list noted at test/mysql/tests-insert.js:8. `insert_ignore` is
  `insert` with `ignore` set.

## Model

| member | source | states |
|---|---|---|
| JsValues.ClassifyTable | test/mysql/tests-insert.js:22-43 | a table argument is accepted exactly when it is undefined, null, false, NaN or a string, and is refused with InvalidTable otherwise; it names a table exactly when it is a string that is not all white space, and the name is the trimmed string |
| JsValues.TrimEmptyIff | test/mysql/tests-insert.js:39-40 | a string trims to nothing exactly when every character is white space, so '' and '  ' fall back to the earlier table |
| JsValues.TrimStartShape | test/mysql/tests-insert.js:39-40 | trimming the front removes a leading run of white space and nothing else, and what is left does not start with white space |
| JsValues.TrimEndShape | test/mysql/tests-insert.js:39-40 | trimming the end removes a trailing run of white space and nothing else, and what is left does not end with white space |
| JsValues.TrimSpaces | test/mysql/tests-insert.js:39-40 | a string of white space only, such as '  ', trims to the empty string |
| JsValues.TrimmedHasNoOuterSpace | test/mysql/tests-insert.js:17-21 | a trimmed name neither starts nor ends with white space |
| JsValues.ClassifyData | test/mysql/tests-insert.js:44-67 | a data argument is accepted exactly when it is undefined, null, '', an object, or an array of non-empty objects; a non-empty object is one record, a non-empty array a batch whose records are the elements' properties, one per element in order, everything else InvalidData |
| JsValues.ToScalar | test/mysql/tests-insert.js:101-116 | a record value converts exactly when it is an integer, float, string, null or false; otherwise InvalidValue names its column |
| JsValues.ToRecord | test/mysql/tests-insert.js:101-116 | a record converts exactly when all its values are scalars, keeping length and column order; otherwise the error names the first column whose value is not a scalar |
| JsValues.ToRecords | test/mysql/tests-insert.js:96-100 | a batch converts exactly when each record does, record by record |
| MySqlDialect.Quote | test/mysql/tests-insert.js:17-21 | a quoted name is the name between two backticks |
| MySqlDialect.NatText | test/mysql/tests-insert.js:91-95 | a natural number is written as non-empty decimal digits without a leading zero |
| MySqlDialect.NatTextRoundTrip | test/mysql/tests-insert.js:91-95 | the digits read back as the number |
| MySqlDialect.DecimalText | test/mysql/tests-insert.js:91-95 | an integer is written as digits, preceded by '-' exactly when it is negative |
| MySqlDialect.DecimalRoundTrip | test/mysql/tests-insert.js:91-95 | the decimal text of an integer parses back to that integer |
| MySqlDialect.DecimalTextInjective | test/mysql/tests-insert.js:96-100 | different integers are written differently |
| MySqlDialect.LiteralReadsBack | test/mysql/tests-insert.js:91-95 | an integer literal parses back to its value, and a string literal is the string between two single quotes |
| MySqlDialect.JoinSnoc | test/mysql/tests-insert.js:96-100 | adding an item to a list adds one ", " and the item at the end |
| MySqlDialect.BatchOfOne | test/mysql/tests-insert.js:96-100 | a batch of one record is the one-row insert of that record |
| MySqlDialect.BatchAppend | test/mysql/tests-insert.js:96-100 | another record adds ", " and its tuple to the VALUES list and leaves the column list alone |
| MySqlDialect.IgnoreAndSuffix | test/mysql/tests-insert.js:117-121 | the ignoring form is the plain form with INSERT IGNORE INTO in place of INSERT INTO, followed by the suffix after one space when there is one |
| MySqlDialect.IgnoreAndSuffixBatch | test/mysql/tests-insert.js:117-121 | the same holds for the batch form |
| MySqlDialect.TruncateShape | test/mysql/tests-truncate.js:19-23 | a truncate statement is TRUNCATE, one space and the name in backticks, and nothing else |
| QueryState.Lookup | test/mysql/tests-insert.js:79-84 | a column has a registered value exactly when it is a registered column |
| QueryState.AssignColumns | test/mysql/tests-insert.js:79-84 | registering a value keeps the columns when its column is registered already, and appends the column at the end otherwise |
| QueryState.AssignLookup | test/mysql/tests-insert.js:79-84 | registering a value gives its column that value and leaves every other column's value alone |
| QueryState.MergeSnoc | test/mysql/tests-insert.js:79-90 | merging a record is registering its values one after another |
| QueryState.MergeColumns | test/mysql/tests-insert.js:79-90 | after a merge the columns are the old ones followed by the record's new columns, each once, in first-occurrence order |
| QueryState.MergeLookup | test/mysql/tests-insert.js:79-90 | after a merge a column holds the record's last value for it, or its old value when the record does not mention it |
| QueryState.MergeDistinct | test/mysql/tests-insert.js:79-90 | a merge never registers a column twice |
| QueryState.MergeCovers | test/mysql/tests-insert.js:79-90 | every column of the record is registered after the merge |
| QueryState.MergeIdempotent | test/mysql/tests-insert.js:44-54 | merging the same record twice is merging it once |
| QueryState.ResolveTable | test/mysql/tests-insert.js:73-78 | without a table name the first earlier table is the target and the tables stay as they are; with none the result is MissingTable |
| QueryState.PlanInsert | test/mysql/tests-insert.js:79-100 | a one-row insert writes exactly the registration it leaves behind; a batch holds at least one record and leaves the registration as it was |
| QueryState.PlanData | test/mysql/tests-insert.js:44-116 | once the target is known, the data is accepted exactly when it is accepted data whose record values are all scalars; the plan keeps the target and tables, a one-row insert writes the registration it leaves, and a batch leaves the registration alone |
| StatementLaws.TableArgument | test/mysql/tests-insert.js:22-43 | the table resolves exactly when it is accepted and a table is known; it fails with InvalidTable for a refused argument and with MissingTable otherwise |
| StatementLaws.InsertOutcomes | test/mysql/tests-insert.js:22-67 | insert fails with InvalidTable, MissingTable, InvalidData or InvalidValue, each exactly when that check is the first to fail, and succeeds exactly when none fails |
| StatementLaws.DataValues | test/mysql/tests-insert.js:101-116 | for accepted data, the plan succeeds exactly when every record value is a scalar, and otherwise fails with InvalidValue |
| StatementLaws.InsertNamesTable | test/mysql/tests-insert.js:17-21 | after an insert that names a table, from_array is exactly that table in backticks |
| StatementLaws.InsertUsesEarlierTable | test/mysql/tests-insert.js:73-78 | an insert without a table name targets the first earlier table, starts with the keyword and that table, and keeps the tables |
| StatementLaws.RenderStartsWithTarget | test/mysql/tests-insert.js:73-78 | every statement starts with its keyword followed by its target table |
| StatementLaws.PlanAfterTable | test/mysql/tests-insert.js:73-90 | once the table is known, the plan depends only on the data, the target and the tables left behind |
| StatementLaws.InsertWithoutData | test/mysql/tests-insert.js:68-72 | an insert without data writes the registered values and keeps them; with none registered it is the statement with empty lists |
| StatementLaws.EmptyInsert | test/mysql/tests-insert.js:68-78 | a statement without values has the empty lists () VALUES () |
| StatementLaws.InsertRecord | test/mysql/tests-insert.js:91-95 | a record of scalars is merged into the registered values and the whole registration is written, with the new columns appended in the record's order |
| StatementLaws.InsertRejectsValue | test/mysql/tests-insert.js:101-116 | the first value that is not a scalar makes insert fail with InvalidValue naming its column |
| StatementLaws.InsertBatch | test/mysql/tests-insert.js:96-100 | a non-empty array of records of scalars is written as a batch with one tuple per record, in order, and does not touch the registered values |
| StatementLaws.InsertIgnoreIsInsert | test/mysql/tests-insert.js:117-121 | insert_ignore fails exactly when insert fails and with the same error; it leaves the same state and writes the same text with IGNORE added and the suffix after one space |
| StatementLaws.SetThenInsert | test/mysql/tests-insert.js:79-84 | set(data) followed by insert without data is insert with that data |
| StatementLaws.FromThenInsert | test/mysql/tests-insert.js:73-78 | from(name) on a builder without tables, followed by insert without a table, is insert with that name |
| StatementLaws.InsertIdempotent | test/mysql/tests-insert.js:44-54 | repeating a successful insert gives the same text and the same state |
| StatementLaws.InsertKeepsValid | test/mysql/tests-insert.js:17-21 | insert keeps every table quoted and every column registered once |
| StatementLaws.SetKeepsValid | test/mysql/tests-insert.js:79-84 | set keeps the same invariant |
| StatementLaws.FromKeepsValid | test/mysql/tests-insert.js:73-78 | from keeps the same invariant |
| StatementLaws.SetOutcomes | test/mysql/tests-insert.js:79-90 | set refuses a batch and whatever insert refuses as data, rejects a record with a non-scalar value, changes nothing without data, and otherwise merges the record |
| StatementLaws.TruncateLaws | test/mysql/tests-truncate.js:19-23 | truncate fails exactly as insert does on its table argument, ignores the registered values, and otherwise writes TRUNCATE and the target table |
| StatementLaws.TruncateNamed | test/mysql/tests-truncate.js:19-23 | truncate with a name writes TRUNCATE and the trimmed name in backticks, whatever the state |
| Builder.QueryBuilder.constructor | test/mysql/tests-insert.js:3 | a new builder holds no tables and no values |
| Builder.QueryBuilder.ResetQuery | test/mysql/tests-insert.js:18 | reset_query leaves the builder as a new one |
| Builder.QueryBuilder.From | test/mysql/tests-insert.js:75 | from adds the quoted table and keeps the invariant |
| Builder.QueryBuilder.Register | test/mysql/tests-insert.js:81 | registering a record value by value in a loop leaves the merged registration |
| Builder.QueryBuilder.Set | test/mysql/tests-insert.js:79-84 | set returns and leaves exactly what the set step gives; a refused argument leaves the builder unchanged |
| Builder.QueryBuilder.Insert | test/mysql/tests-insert.js:8-116 | insert(table, data, ignore, suffix) returns the statement or error of the insert step for those arguments and leaves its state |
| Builder.QueryBuilder.InsertIgnore | test/mysql/tests-insert.js:117-121 | insert_ignore does the same with the ignoring keyword and the suffix |
| Builder.QueryBuilder.Write | test/mysql/tests-insert.js:17-121 | the shared body classifies, merges and writes in place, exactly as the insert step does, keeping the invariant |
| Builder.QueryBuilder.WriteData | test/mysql/tests-insert.js:79-100 | once the target is known, the data step in place fails with the plan's error and changes nothing, or leaves the plan's state and returns its statement |
| Builder.QueryBuilder.Truncate | test/mysql/tests-truncate.js:12-23 | truncate returns the truncate step's result and changes nothing |
| InsertTests.MilkyWayStep | test/mysql/tests-insert.js:91-95 | on a fresh builder, insert('galaxies', test_data) leaves from_array ['`galaxies`'] and the record registered, and writes the expected statement |
| InsertTests.AddsTableToFromArray | test/mysql/tests-insert.js:17-21 | after reset_query and insert('galaxies', test_data), from_array is ['`galaxies`'] |
| InsertTests.TableParameter | test/mysql/tests-insert.js:22-43 | with a table set before, each refused table argument fails with InvalidTable; each fallback one succeeds, writes a statement that starts with INSERT INTO and the first earlier table, and keeps the tables |
| InsertTests.TableParameterCalls | test/mysql/tests-insert.js:22-43 | the same calls made one after another on one builder after from('galaxies'): every refused argument throws InvalidTable and every fallback one succeeds |
| InsertTests.InsertEachTable | test/mysql/tests-insert.js:28-42 | inserting with each table argument in turn on a builder that has a table: a call fails with InvalidTable exactly when its argument is refused, succeeds otherwise, and the tables stay as they were |
| InsertTests.TableVerdictHolds | test/mysql/tests-insert.js:22-43 | with an earlier table and good data, insert fails with InvalidTable exactly for a refused table argument, otherwise succeeds, and keeps the tables |
| InsertTests.DataParameter | test/mysql/tests-insert.js:44-67 | for any named table and any state, each accepted data argument is written and each refused one fails with InvalidData |
| InsertTests.DataParameterCalls | test/mysql/tests-insert.js:44-67 | the same calls made one after another on one builder: every accepted argument succeeds and every refused one throws InvalidData |
| InsertTests.InsertEach | test/mysql/tests-insert.js:47-66 | inserting each data argument in turn into a named table: a call succeeds exactly when its data is accepted with scalar values, and fails with InvalidData exactly when the data is refused |
| InsertTests.DataVerdict | test/mysql/tests-insert.js:44-67 | with a named table, in any state, success and the InvalidData error depend on the data argument alone |
| InsertTests.EmptyStep | test/mysql/tests-insert.js:68-72 | insert('galaxies') on a fresh builder writes INSERT INTO `galaxies` () VALUES () |
| InsertTests.AllowsEmptyData | test/mysql/tests-insert.js:68-72 | the builder returns that statement |
| InsertTests.UsesTableFromFrom | test/mysql/tests-insert.js:73-78 | from('galaxies') then insert() returns the same statement |
| InsertTests.UsesValuesFromSet | test/mysql/tests-insert.js:79-84 | set(test_data) then insert('galaxies') returns the Milky Way statement |
| InsertTests.UsesTableAndValues | test/mysql/tests-insert.js:85-90 | from('galaxies'), set(test_data), then insert() returns the Milky Way statement |
| InsertTests.AcceptsRecord | test/mysql/tests-insert.js:91-95 | insert('galaxies', test_data) returns the Milky Way statement |
| InsertTests.MilkyWayText | test/mysql/tests-insert.js:94 | the record renders as INSERT INTO `galaxies` (`id`, `name`, `type`) VALUES (3, 'Milky Way', 'spiral') |
| InsertTests.BatchStep | test/mysql/tests-insert.js:96-100 | inserting test_data_set on a fresh builder writes the two-tuple batch and registers nothing |
| InsertTests.BatchText | test/mysql/tests-insert.js:99 | the batch renders as the expected statement with both tuples |
| InsertTests.WritesBatch | test/mysql/tests-insert.js:96-100 | the builder returns the batch statement |
| InsertTests.InvalidValues | test/mysql/tests-insert.js:101-116 | for any named table and any state, {id: v} fails with InvalidValue naming id for a function, a regex, Infinity, undefined, NaN, an array and an object |
| InsertTests.IgnoreStep | test/mysql/tests-insert.js:117-121 | insert_ignore with the ON DUPLICATE KEY suffix writes the expected statement |
| InsertTests.WritesInsertIgnore | test/mysql/tests-insert.js:117-121 | the builder returns that statement |
| TruncateTests.GalaxiesTruncated | test/mysql/tests-truncate.js:19-23 | truncate('galaxies') is TRUNCATE `galaxies` in every state |
| TruncateTests.ReturnsString | test/mysql/tests-truncate.js:12-17 | after reset_query, truncate('galaxies') succeeds with a non-empty string |
| TruncateTests.BuildsStatement | test/mysql/tests-truncate.js:19-23 | after reset_query, truncate('galaxies') returns exactly TRUNCATE `galaxies` |

## Left out

- The mocha and chai harness (`describe`, `it`, `should`, `expect`, `require`) is test infrastructure, not behaviour. This includes the cases that only check that `insert` and `truncate` exist and are functions.
- The `callback` parameter named in the comment at test/mysql/tests-insert.js:8, the database connection and executing statements are I/O.
- Method chaining is not modelled: `from` and `set` do not return the builder. `qb.from('galaxies').set(test_data)` is modelled as two calls on the same builder.
- Other pending statement modifiers that `reset_query` would clear are not modelled, since none are used here. The `ignore` flag and the suffix are call arguments.
- SELECT, WHERE, JOIN and the other dialects are not exercised by these suites.
- Batch validation is not modelled: nothing checks that all records in a batch have the same columns. The batch writes the first record's columns, and the suites only use identical column sets.
- MySqlDialect.Literal: quotes inside a string are not escaped, because no expected statement contains one.
- MySqlDialect.Literal: a float value is written as the decimal text it is given, so float formatting is not modelled.
- Identifier quoting is limited to wrapping a name in backticks. Dotted names, aliases and backticks already in the name are not handled.
- JavaScript's `trim` is modelled over the white-space characters it removes. JavaScript strings are sequences of UTF-16 code units, and Dafny's `char` is a Unicode scalar value, so a string holding a lone surrogate cannot be expressed.
- MySqlDialect.DecimalText: integers are taken to be safe integers (magnitude below 2^53). JavaScript numbers are doubles: most larger integers cannot be held exactly, and from 1e21 on JavaScript writes them in exponent form ("1e+21"). The model's `JsValues.Int` is unbounded, and every digit is written.
