/** The statements the insert() test suite expects, and lemmas that spell
    each one out from the pieces the renderer joins. Each lemma appends a few
    characters to a named prefix, so that no single step compares long texts
    character by character. */
module InsertTexts {

  const EmptyGalaxiesInsert := "INSERT INTO `galaxies` () VALUES ()"
  const MilkyWayInsert := "INSERT INTO `galaxies` (`id`, `name`, `type`) VALUES (3, 'Milky Way', 'spiral')"
  const GalaxiesInsert :=
    "INSERT INTO `galaxies` (`id`, `name`, `type`) VALUES (3, 'Milky Way', 'spiral'), (4, 'Andromeda', 'spiral')"
  const OnDuplicate := "ON DUPLICATE KEY UPDATE last_update = NOW()"
  const MilkyWayInsertIgnore :=
    "INSERT IGNORE INTO `galaxies` (`id`, `name`, `type`) VALUES (3, 'Milky Way', 'spiral') ON DUPLICATE KEY UPDATE last_update = NOW()"

  // Prefixes of the statements above.
  const InsertHead := "INSERT INTO `galaxies` "
  const InsertNames := "INSERT INTO `galaxies` (`id`, `name`"
  const InsertColumns := "INSERT INTO `galaxies` (`id`, `name`, `type`)"
  const InsertValues := "INSERT INTO `galaxies` (`id`, `name`, `type`) VALUES "
  const MilkyWayOpen := "INSERT INTO `galaxies` (`id`, `name`, `type`) VALUES (3, 'Milky Way'"
  const BatchComma := "INSERT INTO `galaxies` (`id`, `name`, `type`) VALUES (3, 'Milky Way', 'spiral'), "
  const BatchOpen := "INSERT INTO `galaxies` (`id`, `name`, `type`) VALUES (3, 'Milky Way', 'spiral'), (4, 'Andromeda'"
  const IgnoreHead := "INSERT IGNORE INTO `galaxies` "
  const IgnoreNames := "INSERT IGNORE INTO `galaxies` (`id`, `name`"
  const IgnoreColumns := "INSERT IGNORE INTO `galaxies` (`id`, `name`, `type`)"
  const IgnoreValues := "INSERT IGNORE INTO `galaxies` (`id`, `name`, `type`) VALUES "
  const IgnoreOpen := "INSERT IGNORE INTO `galaxies` (`id`, `name`, `type`) VALUES (3, 'Milky Way'"
  const IgnoreRecord := "INSERT IGNORE INTO `galaxies` (`id`, `name`, `type`) VALUES (3, 'Milky Way', 'spiral')"
  const IgnoreSpaced := "INSERT IGNORE INTO `galaxies` (`id`, `name`, `type`) VALUES (3, 'Milky Way', 'spiral') "
  const IgnoreOn := "INSERT IGNORE INTO `galaxies` (`id`, `name`, `type`) VALUES (3, 'Milky Way', 'spiral') ON DUPLICATE"
  const IgnoreKey :=
    "INSERT IGNORE INTO `galaxies` (`id`, `name`, `type`) VALUES (3, 'Milky Way', 'spiral') ON DUPLICATE KEY UPDATE "
  const IgnoreLast :=
    "INSERT IGNORE INTO `galaxies` (`id`, `name`, `type`) VALUES (3, 'Milky Way', 'spiral') ON DUPLICATE KEY UPDATE last_"
  const IgnoreColumn :=
    "INSERT IGNORE INTO `galaxies` (`id`, `name`, `type`) VALUES (3, 'Milky Way', 'spiral') ON DUPLICATE KEY UPDATE last_update"

  // Prefixes of the suffix.
  const DuplicateKey := "ON DUPLICATE KEY UPDATE "
  const DuplicateLast := "ON DUPLICATE KEY UPDATE last_"
  const DuplicateColumn := "ON DUPLICATE KEY UPDATE last_update"

  /** Appending b and then c is appending b + c. */
  lemma Then(a: string, b: string, c: string, ab: string, abc: string)
    requires a + b == ab && ab + c == abc
    ensures a + (b + c) == abc
  {
    assert a + (b + c) == (a + b) + c;
  }

  lemma SpellMilkyWayTuple()
    ensures "(" + "3" + ", " + "'Milky Way'" + ", " + "'spiral'" + ")" == "(3, 'Milky Way', 'spiral')"
  {}

  lemma SpellAndromedaTuple()
    ensures "(" + "4" + ", " + "'Andromeda'" + ", " + "'spiral'" + ")" == "(4, 'Andromeda', 'spiral')"
  {}

  lemma ColumnHalves() ensures "(`id`, `name`" + ", `type`)" == "(`id`, `name`, `type`)" {}

  lemma MilkyWayHalves() ensures "(3, 'Milky Way'" + ", 'spiral')" == "(3, 'Milky Way', 'spiral')" {}

  lemma AndromedaHalves() ensures "(4, 'Andromeda'" + ", 'spiral')" == "(4, 'Andromeda', 'spiral')" {}

  // ---------------------------------------------------------------------
  // INSERT INTO `galaxies` (`id`, `name`, `type`) VALUES (3, 'Milky Way', 'spiral')

  lemma MilkyWaySpelled()
    ensures "INSERT INTO " + "`galaxies`" + " " + "(`id`, `name`, `type`)" + " VALUES " + "(3, 'Milky Way', 'spiral')" + ""
            == MilkyWayInsert
  {
    SpellHead();
    SpellColumns();
    SpellValues();
  }

  lemma SpellHead() ensures "INSERT INTO " + "`galaxies`" + " " == InsertHead {}

  lemma SpellColumns()
    ensures InsertHead + "(`id`, `name`, `type`)" + " VALUES " == InsertValues
  {
    ColumnHalves();
    SpellInsertNames();
    SpellInsertColumns();
    SpellInsertValues();
    Then(InsertHead, "(`id`, `name`", ", `type`)", InsertNames, InsertColumns);
  }

  lemma SpellInsertNames() ensures InsertHead + "(`id`, `name`" == InsertNames {}

  lemma SpellInsertColumns() ensures InsertNames + ", `type`)" == InsertColumns {}

  lemma SpellInsertValues() ensures InsertColumns + " VALUES " == InsertValues {}

  lemma SpellValues()
    ensures InsertValues + "(3, 'Milky Way', 'spiral')" + "" == MilkyWayInsert
  {
    MilkyWayHalves();
    SpellMilkyWayOpen();
    SpellMilkyWayClose();
    Then(InsertValues, "(3, 'Milky Way'", ", 'spiral')", MilkyWayOpen, MilkyWayInsert);
  }

  lemma SpellMilkyWayOpen() ensures InsertValues + "(3, 'Milky Way'" == MilkyWayOpen {}

  lemma SpellMilkyWayClose() ensures MilkyWayOpen + ", 'spiral')" == MilkyWayInsert {}

  // ---------------------------------------------------------------------
  // The batch: the statement above, then ", (4, 'Andromeda', 'spiral')"

  lemma SpellBatch()
    ensures MilkyWayInsert + ", " + "(4, 'Andromeda', 'spiral')" == GalaxiesInsert
  {
    AndromedaHalves();
    SpellBatchComma();
    SpellBatchOpen();
    SpellBatchClose();
    Then(BatchComma, "(4, 'Andromeda'", ", 'spiral')", BatchOpen, GalaxiesInsert);
  }

  lemma SpellBatchComma() ensures MilkyWayInsert + ", " == BatchComma {}

  lemma SpellBatchOpen() ensures BatchComma + "(4, 'Andromeda'" == BatchOpen {}

  lemma SpellBatchClose() ensures BatchOpen + ", 'spiral')" == GalaxiesInsert {}

  // ---------------------------------------------------------------------
  // INSERT IGNORE INTO ... ON DUPLICATE KEY UPDATE last_update = NOW()

  lemma SpellIgnoreHead()
    ensures "INSERT IGNORE INTO " + "`galaxies`" + " " + "(`id`, `name`, `type`)" == IgnoreColumns
  {
    ColumnHalves();
    SpellIgnoreTable();
    SpellIgnoreNames();
    SpellIgnoreColumns();
    Then(IgnoreHead, "(`id`, `name`", ", `type`)", IgnoreNames, IgnoreColumns);
  }

  lemma SpellIgnoreTable() ensures "INSERT IGNORE INTO " + "`galaxies`" + " " == IgnoreHead {}

  lemma SpellIgnoreNames() ensures IgnoreHead + "(`id`, `name`" == IgnoreNames {}

  lemma SpellIgnoreColumns() ensures IgnoreNames + ", `type`)" == IgnoreColumns {}

  lemma SpellIgnoreValues()
    ensures IgnoreColumns + " VALUES " + "(3, 'Milky Way', 'spiral')" == IgnoreRecord
  {
    MilkyWayHalves();
    SpellIgnoreKeyword();
    SpellIgnoreOpen();
    SpellIgnoreClose();
    Then(IgnoreValues, "(3, 'Milky Way'", ", 'spiral')", IgnoreOpen, IgnoreRecord);
  }

  lemma SpellIgnoreKeyword() ensures IgnoreColumns + " VALUES " == IgnoreValues {}

  lemma SpellIgnoreOpen() ensures IgnoreValues + "(3, 'Milky Way'" == IgnoreOpen {}

  lemma SpellIgnoreClose() ensures IgnoreOpen + ", 'spiral')" == IgnoreRecord {}

  lemma SpellIgnoreSuffix()
    ensures IgnoreRecord + (" " + OnDuplicate) == MilkyWayInsertIgnore
  {
    OnDuplicateParts();
    SpellIgnoreSpace();
    SpellIgnoreOn();
    SpellIgnoreKey();
    SpellIgnoreLast();
    SpellIgnoreColumn();
    SpellIgnoreNow();
    Then(IgnoreSpaced, "ON DUPLICATE", " KEY UPDATE ", IgnoreOn, IgnoreKey);
    Then(IgnoreSpaced, DuplicateKey, "last_", IgnoreKey, IgnoreLast);
    Then(IgnoreSpaced, DuplicateLast, "update", IgnoreLast, IgnoreColumn);
    Then(IgnoreSpaced, DuplicateColumn, " = NOW()", IgnoreColumn, MilkyWayInsertIgnore);
    Then(IgnoreRecord, " ", OnDuplicate, IgnoreSpaced, MilkyWayInsertIgnore);
  }

  /** The suffix, a few characters at a time. */
  lemma OnDuplicateParts()
    ensures "ON DUPLICATE" + " KEY UPDATE " == DuplicateKey
    ensures DuplicateKey + "last_" == DuplicateLast
    ensures DuplicateLast + "update" == DuplicateColumn
    ensures DuplicateColumn + " = NOW()" == OnDuplicate
  {}

  lemma SpellIgnoreSpace() ensures IgnoreRecord + " " == IgnoreSpaced {}

  lemma SpellIgnoreOn() ensures IgnoreSpaced + "ON DUPLICATE" == IgnoreOn {}

  lemma SpellIgnoreKey() ensures IgnoreOn + " KEY UPDATE " == IgnoreKey {}

  lemma SpellIgnoreLast() ensures IgnoreKey + "last_" == IgnoreLast {}

  lemma SpellIgnoreColumn() ensures IgnoreLast + "update" == IgnoreColumn {}

  lemma SpellIgnoreNow() ensures IgnoreColumn + " = NOW()" == MilkyWayInsertIgnore {}

  // ---------------------------------------------------------------------
  // INSERT INTO `galaxies` () VALUES ()

  lemma SpellEmpty()
    ensures "INSERT INTO " + "`galaxies`" + " () VALUES ()" + "" == EmptyGalaxiesInsert
  {}
}
