/** The table list of the editor page: creating a table with its initial key
    column, replacing a table by id, deleting tables by id, and looking a table
    up by id. */
module Tables {
  import opened Wrappers
  import opened Text
  import opened Seqs
  import opened Model
  import opened SqlGenerator

  function TableId(clock: nat): string {
    "table_" + Decimal(clock)
  }

  function ColumnId(clock: nat): string {
    "col_" + Decimal(clock)
  }

  /** The column every new table starts with. */
  function IdColumn(clock: nat): Column {
    Column(ColumnId(clock), "id", "INTEGER", true, false, true, Some(""))
  }

  /** A new table named `tableName`; the two clock readings are the two
      separate `Date.now()` calls that name the table and its first column. */
  /** Different clock readings give different table ids. */
  lemma TableIdInjective(c1: nat, c2: nat)
    requires TableId(c1) == TableId(c2)
    ensures c1 == c2
  {
    CancelPrefix("table_", Decimal(c1), Decimal(c2));
    DecimalInjective(c1, c2);
  }

  /** Different clock readings give different column ids. */
  lemma ColumnIdInjective(c1: nat, c2: nat)
    requires ColumnId(c1) == ColumnId(c2)
    ensures c1 == c2
  {
    CancelPrefix("col_", Decimal(c1), Decimal(c2));
    DecimalInjective(c1, c2);
  }

  function NewTable(tableName: string, tableClock: nat, columnClock: nat): Table {
    Table(TableId(tableClock), tableName, [IdColumn(columnClock)])
  }

  const IdLine := "    `id` INTEGER NOT NULL AUTO_INCREMENT"
  const IdKey := ",\n    PRIMARY KEY (`id`)"

  // Literal identities the lines of a new table rest on. Each one evaluates
  // a short piece of text or regroups a concatenation, so that no single
  // proof has to unfold a long literal.

  lemma IntegerText()
    ensures Contains("INTEGER", "INT")
    ensures !Contains("INTEGER", "VARCHAR") && !Contains("INTEGER", "TEXT") && !Contains("INTEGER", "CHAR")
  {
  }

  lemma IdHeadText()
    ensures "    `" + "id" + "` " + "INTEGER" == "    `id` INTEGER"
  {
  }

  lemma IdNotNullText()
    ensures "    `id` INTEGER" + " NOT NULL" == "    `id` INTEGER NOT NULL"
  {
  }

  lemma IdAutoIncrementText()
    ensures "    `id` INTEGER NOT NULL" + " AUTO_INCREMENT" == "    `id` INTEGER NOT NULL AUTO_INCREMENT"
  {
  }

  lemma IdLineText()
    ensures "    `" + "id" + "` " + "INTEGER" + " NOT NULL" + " AUTO_INCREMENT" == IdLine
  {
    IdHeadText();
    IdNotNullText();
    IdAutoIncrementText();
  }

  lemma Regroup2(h: string, a: string, b: string)
    ensures h + (a + "" + "" + b) == h + a + b
  {
    assert a + "" + "" == a;
  }

  lemma IdKeyText()
    ensures ",\n    PRIMARY KEY (" + ("`" + "id" + "`") + ")" == IdKey
  {
    assert "`" + "id" + "`" == "`id`";
    assert ",\n    PRIMARY KEY (" + "`id`" == ",\n    PRIMARY KEY (`id`";
  }

  lemma IntegerTypes()
    ensures Upper("INTEGER") == "INTEGER"
    ensures IsAutoIncrementType("INTEGER") && !IsStringType("INTEGER")
  {
    UpperKeeps("INTEGER");
    UpperTypeClasses("INTEGER");
    IntegerText();
  }

  /** The line of the initial column. */
  lemma IdColumnLine(clock: nat)
    ensures ColumnDefinition(IdColumn(clock)) == IdLine
  {
    var c := IdColumn(clock);
    IntegerTypes();
    assert DeclaredDefault(c.defaultValue) == None;
    PartTexts(c);
    ColumnDefinitionParts(c);
    Regroup2(ColumnHead(c), " NOT NULL", " AUTO_INCREMENT");
    IdLineText();
  }

  /** The key clause of a new table names its initial column. */
  lemma IdKeyClause(clock: nat)
    ensures PrimaryKeyClause([IdColumn(clock)]) == IdKey
  {
    var c := IdColumn(clock);
    FilterKeepsAll([c], IsPrimaryKey);
    assert Map([c], QuotedName) == [QuotedName(c)];
    IdKeyText();
  }

  lemma NewTableBlock(tableName: string, tableClock: nat, columnClock: nat)
    ensures TableBlock(NewTable(tableName, tableClock, columnClock)) ==
      "CREATE TABLE `" + tableName + "` (\n" + IdLine + IdKey + BlockEnd
  {
    var c := IdColumn(columnClock);
    IdColumnLine(columnClock);
    IdKeyClause(columnClock);
    MapSingleton(c, ColumnDefinition);
  }

  /** The SQL of a schema holding just a new table: the table's statement with
      the initial column's line `id INTEGER NOT NULL AUTO_INCREMENT` and a key
      clause naming that column. */
  lemma NewTableSql(tableName: string, tableClock: nat, columnClock: nat)
    ensures SchemaSql([NewTable(tableName, tableClock, columnClock)]) ==
      "CREATE TABLE `" + tableName + "` (\n" + IdLine + IdKey + "\n);"
  {
    var t := NewTable(tableName, tableClock, columnClock);
    ScriptSingleton(t);
    NewTableBlock(tableName, tableClock, columnClock);
    SchemaSqlOfScript([t], "CREATE TABLE `" + tableName + "` (\n" + IdLine + IdKey);
  }

  /** `updateTable`'s new list: every table whose id is `tableId` is replaced
      by `updated`; every other table stays where it is. */
  function ReplaceTable(tables: seq<Table>, tableId: string, updated: Table): (r: seq<Table>)
    ensures |r| == |tables|
    ensures forall i :: 0 <= i < |tables| ==> r[i] == if tables[i].id == tableId then updated else tables[i]
  {
    var replace := (t: Table) => if t.id == tableId then updated else t;
    MapPointwise(tables, replace);
    Map(tables, replace)
  }

  /** Updating an id no table has changes nothing. */
  lemma ReplaceMissing(tables: seq<Table>, tableId: string, updated: Table)
    requires forall i :: 0 <= i < |tables| ==> tables[i].id != tableId
    ensures ReplaceTable(tables, tableId, updated) == tables
  {
  }

  /** A replacement that keeps the id keeps every table id, so the list of
      ids is unchanged. */
  lemma ReplaceKeepsIds(tables: seq<Table>, tableId: string, updated: Table)
    requires updated.id == tableId
    ensures TableIds(ReplaceTable(tables, tableId, updated)) == TableIds(tables)
  {
  }

  /** Replacing again with the same table changes nothing more. */
  lemma ReplaceIdempotent(tables: seq<Table>, tableId: string, updated: Table)
    ensures ReplaceTable(ReplaceTable(tables, tableId, updated), tableId, updated) == ReplaceTable(tables, tableId, updated)
  {
  }

  /** `deleteTable`'s new list: the tables whose id is not `tableId`, in their
      order. */
  function RemoveTable(tables: seq<Table>, tableId: string): (r: seq<Table>)
    ensures |r| <= |tables|
    ensures forall i :: 0 <= i < |r| ==> r[i].id != tableId
  {
    Filter(tables, (t: Table) => t.id != tableId)
  }

  /** Exactly the tables with another id survive. */
  lemma RemoveTableMembership(tables: seq<Table>, tableId: string, t: Table)
    ensures t in RemoveTable(tables, tableId) <==> t in tables && t.id != tableId
  {
    FilterMembership(tables, (t: Table) => t.id != tableId, t);
  }

  /** Removal keeps relative order: removing from a concatenation removes from
      each part. */
  lemma RemoveTableOrder(a: seq<Table>, b: seq<Table>, tableId: string)
    ensures RemoveTable(a + b, tableId) == RemoveTable(a, tableId) + RemoveTable(b, tableId)
  {
    FilterAppend(a, b, (t: Table) => t.id != tableId);
  }

  /** Deleting an id no table has changes nothing. */
  lemma RemoveMissing(tables: seq<Table>, tableId: string)
    requires forall i :: 0 <= i < |tables| ==> tables[i].id != tableId
    ensures RemoveTable(tables, tableId) == tables
  {
    FilterKeepsAll(tables, (t: Table) => t.id != tableId);
  }

  /** Position `i` holds the first table with id `tableId`. */
  predicate FirstWithId(tables: seq<Table>, tableId: string, i: int) {
    0 <= i < |tables| && tables[i].id == tableId && forall j :: 0 <= j < i ==> tables[j].id != tableId
  }

  /** `Array.prototype.find` by id: the first table with that id, if any. */
  function FindTable(tables: seq<Table>, tableId: string): (r: Option<Table>)
    ensures r.None? <==> forall i :: 0 <= i < |tables| ==> tables[i].id != tableId
    ensures r.Some? ==> r.value.id == tableId
    ensures r.Some? ==> exists i :: FirstWithId(tables, tableId, i) && tables[i] == r.value
  {
    if |tables| == 0 then None
    else if tables[0].id == tableId then Some(tables[0])
    else
      var r := FindTable(tables[1..], tableId);
      assert forall i :: 0 <= i < |tables| - 1 ==> tables[1..][i] == tables[i + 1];
      r
  }

  /** The creation message quotes the new table's name: `Table "`, the name,
      then `" created successfully!`. */
  function CreatedMessage(tableName: string): (r: string)
    ensures |r| > 7 + |tableName|
    ensures r[..7] == "Table \"" && r[7..7 + |tableName|] == tableName
    ensures r[7 + |tableName|..] == "\" created successfully!"
  {
    var r := "Table \"" + tableName + "\" created successfully!";
    assert r[..7] == "Table \"";
    assert r[7..7 + |tableName|] == tableName;
    assert r[7 + |tableName|..] == "\" created successfully!";
    r
  }

  /** The update message quotes the name of the table handed in, whether or
      not a table with the id was there. */
  function UpdatedMessage(updated: Table): (r: string)
    ensures |r| > 7 + |updated.name|
    ensures r[..7] == "Table \"" && r[7..7 + |updated.name|] == updated.name
    ensures r[7 + |updated.name|..] == "\" updated successfully!"
  {
    var r := "Table \"" + updated.name + "\" updated successfully!";
    assert r[..7] == "Table \"";
    assert r[7..7 + |updated.name|] == updated.name;
    assert r[7 + |updated.name|..] == "\" updated successfully!";
    r
  }

  /** `deleteTable` reports the first table it finds with the id, and nothing
      when there is none. */
  function DeletedMessage(tables: seq<Table>, tableId: string): (r: Option<string>)
    ensures r.None? <==> forall i :: 0 <= i < |tables| ==> tables[i].id != tableId
  {
    match FindTable(tables, tableId)
    case Some(t) => Some("Table \"" + t.name + "\" deleted successfully!")
    case None => None
  }
}
