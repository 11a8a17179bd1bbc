/** What the toolbar and the sidebar compute from the schema: the guard on a
    new table's name, the JSON export record, the export file names and the
    counts they display. */
module Panels {
  import opened Wrappers
  import opened Text
  import opened Seqs
  import opened Model
  import opened SqlGenerator

  /** The name passed on by "Add Table": the trimmed input, provided it is not
      blank. */
  function TableNameToAdd(input: string): (r: Option<string>)
    ensures r.None? <==> forall i :: 0 <= i < |input| ==> IsWhitespace(input[i])
    ensures r.Some? ==> r.value == Trim(input) && r.value != ""
  {
    var name := Trim(input);
    if name != "" then Some(name) else None
  }

  /** A name that passes the guard passes it again unchanged. */
  lemma TableNameToAddStable(input: string)
    requires TableNameToAdd(input).Some?
    ensures TableNameToAdd(TableNameToAdd(input).value) == TableNameToAdd(input)
  {
    TrimIdempotent(input);
  }

  /** A column as the JSON export lists it: its id is dropped and the other
      fields are renamed. */
  datatype ExportColumn = ExportColumn(
    name: string,
    columnType: string,
    primaryKey: bool,
    nullable: bool,
    unique: bool,
    defaultValue: Option<string>)

  datatype ExportTable = ExportTable(name: string, columns: seq<ExportColumn>)

  datatype ExportMetadata = ExportMetadata(exportedAt: string, tablesCount: nat, generator: string)

  datatype ExportData = ExportData(metadata: ExportMetadata, tables: seq<ExportTable>, sql: string)

  const Generator := "Database Designer Tool"

  function ExportColumnOf(column: Column): ExportColumn {
    ExportColumn(column.name, column.dataType, column.isPrimaryKey, column.isNullable, column.isUnique, column.defaultValue)
  }

  function ExportTableOf(table: Table): ExportTable {
    ExportTable(table.name, Map(table.columns, ExportColumnOf))
  }

  /** The export record for `tables` and their SQL `sql`, stamped
      `exportedAt`. */
  function ExportSchema(tables: seq<Table>, sql: string, exportedAt: string): (r: ExportData)
    ensures r.metadata == ExportMetadata(exportedAt, |tables|, Generator)
    ensures r.sql == sql
    ensures |r.tables| == |tables|
  {
    MapPointwise(tables, ExportTableOf);
    ExportData(ExportMetadata(exportedAt, |tables|, Generator), Map(tables, ExportTableOf), sql)
  }

  /** Reading an exported column back, with its id, gives the column: the
      export renames fields and drops only the id. */
  function ImportColumn(e: ExportColumn, id: string): Column {
    Column(id, e.name, e.columnType, e.primaryKey, e.nullable, e.unique, e.defaultValue)
  }

  lemma ExportColumnRoundTrip(column: Column)
    ensures ImportColumn(ExportColumnOf(column), column.id) == column
  {
  }

  /** The export keeps tables and columns in order, one entry for each. */
  lemma ExportPointwise(tables: seq<Table>, sql: string, exportedAt: string, i: nat)
    requires i < |tables|
    ensures var t := ExportSchema(tables, sql, exportedAt).tables[i];
      && t.name == tables[i].name
      && |t.columns| == |tables[i].columns|
      && forall k :: 0 <= k < |t.columns| ==> ImportColumn(t.columns[k], tables[i].columns[k].id) == tables[i].columns[k]
  {
    MapPointwise(tables, ExportTableOf);
    MapPointwise(tables[i].columns, ExportColumnOf);
  }

  /** The file name of a SQL export: the date and time of the ISO stamp, with
      `:` replaced by `-`. */
  function SqlFileName(iso: string): (r: string)
    ensures ':' !in r
    ensures |r| == |"database_schema_"| + |Prefix(iso, 19)| + |".sql"|
    ensures r[..16] == "database_schema_" && r[|r| - 4..] == ".sql"
    ensures forall i :: 0 <= i < |Prefix(iso, 19)| ==> r[16 + i] == if iso[i] == ':' then '-' else iso[i]
  {
    var stamp := ReplaceAll(Prefix(iso, 19), ':', '-');
    var r := "database_schema_" + stamp + ".sql";
    assert ':' !in "database_schema_" && ':' !in ".sql";
    assert r[..16] == "database_schema_";
    assert r[|r| - 4..] == ".sql";
    r
  }

  /** The file name of a JSON export: the date of the ISO stamp. */
  function JsonFileName(iso: string): (r: string)
    ensures |iso| >= 10 ==> r == "database_schema_" + iso[..10] + ".json"
  {
    "database_schema_" + Prefix(iso, 10) + ".json"
  }

  /** The total number of columns over the tables (`reduce` from the left). */
  function TotalColumns(tables: seq<Table>): (r: nat)
    ensures forall i :: 0 <= i < |tables| ==> |tables[i].columns| <= r
    ensures |tables| == 0 ==> r == 0
  {
    if |tables| == 0 then 0
    else
      var prefix := tables[..|tables| - 1];
      assert forall i :: 0 <= i < |prefix| ==> prefix[i] == tables[i];
      TotalColumns(prefix) + |tables[|tables| - 1].columns|
  }

  lemma {:induction false} TotalColumnsAppend(a: seq<Table>, b: seq<Table>)
    ensures TotalColumns(a + b) == TotalColumns(a) + TotalColumns(b)
    decreases |b|
  {
    if |b| == 0 {
      assert a + b == a;
    } else {
      assert (a + b)[..|a + b| - 1] == a + b[..|b| - 1];
      TotalColumnsAppend(a, b[..|b| - 1]);
    }
  }

  /** The number of exported column entries of a table list. */
  function ExportedColumns(tables: seq<ExportTable>): nat {
    if |tables| == 0 then 0 else ExportedColumns(tables[..|tables| - 1]) + |tables[|tables| - 1].columns|
  }

  /** The column total the panels display is the number of columns the export
      lists. */
  lemma {:induction false} TotalColumnsExported(tables: seq<Table>)
    ensures TotalColumns(tables) == ExportedColumns(Map(tables, ExportTableOf))
  {
    if |tables| > 0 {
      var prefix := tables[..|tables| - 1];
      var last := tables[|tables| - 1];
      TotalColumnsExported(prefix);
      MapPointwise(last.columns, ExportColumnOf);
      var m := Map(tables, ExportTableOf);
      assert m[..|m| - 1] == Map(prefix, ExportTableOf);
    }
  }

  /** The primary-key count shown for a table. */
  function PrimaryKeyCount(table: Table): (r: nat)
    ensures r <= |table.columns|
    ensures r == 0 <==> forall i :: 0 <= i < |table.columns| ==> !table.columns[i].isPrimaryKey
  {
    FilterEmpty(table.columns, IsPrimaryKey);
    |PrimaryKeyColumns(table.columns)|
  }

  /** A table shows a non-zero key count exactly when its SQL has a key
      clause. */
  lemma PrimaryKeyCountClause(table: Table)
    ensures PrimaryKeyCount(table) == 0 <==> PrimaryKeyClause(table.columns) == ""
  {
    FilterEmpty(table.columns, IsPrimaryKey);
  }

  /** The key count counts exactly the primary-key columns. */
  lemma {:induction false} PrimaryKeyCountAppend(a: seq<Column>, b: seq<Column>, id: string, name: string)
    ensures PrimaryKeyCount(Table(id, name, a + b)) == PrimaryKeyCount(Table(id, name, a)) + PrimaryKeyCount(Table(id, name, b))
  {
    FilterAppend(a, b, IsPrimaryKey);
  }

  /** The noun after the toolbar's table count. */
  function TableNoun(count: nat): (r: string)
    ensures r == "table" <==> count == 1
  {
    if count == 1 then "table" else "tables"
  }

  /** A toast the handlers raise. */
  datatype Toast = Success(message: string) | Failure(message: string)

  datatype Download = SqlDownload(fileName: string, sql: string) | JsonDownload(fileName: string, data: ExportData)

  /** What a handler does: an optional download and a toast. */
  datatype Reaction = Reaction(download: Option<Download>, toast: Toast)

  /** The SQL download both panels offer: refused with `refusal` when there is
      no SQL, otherwise the SQL under a time-stamped name, with `done` and that
      name as the success message. */
  function OfferSql(sqlCode: string, iso: string, refusal: string, done: string): (r: Reaction)
    ensures r.download.None? <==> sqlCode == ""
    ensures r.download.None? ==> r.toast == Failure(refusal)
    ensures r.download.Some? ==> r.download.value == SqlDownload(SqlFileName(iso), sqlCode)
    ensures r.download.Some? ==> r.toast == Success(done + SqlFileName(iso) + "!")
  {
    if sqlCode == "" then Reaction(None, Failure(refusal))
    else
      var fileName := SqlFileName(iso);
      Reaction(Some(SqlDownload(fileName, sqlCode)), Success(done + fileName + "!"))
  }

  /** The JSON export of both panels; the two ISO stamps are the two separate
      `new Date()` readings, for the record and for the file name. */
  function ExportJson(tables: seq<Table>, sqlCode: string, exportedAt: string, fileStamp: string): (r: Reaction)
    ensures r.download.None? <==> sqlCode == ""
    ensures r.download.None? ==> r.toast == Failure("No schema to export!")
    ensures r.download.Some? ==> r.download == Some(JsonDownload(JsonFileName(fileStamp), ExportSchema(tables, sqlCode, exportedAt)))
    ensures r.download.Some? ==> r.toast == Success("Complete schema exported as JSON!")
  {
    if sqlCode == "" then Reaction(None, Failure("No schema to export!"))
    else Reaction(Some(JsonDownload(JsonFileName(fileStamp), ExportSchema(tables, sqlCode, exportedAt))),
      Success("Complete schema exported as JSON!"))
  }

  /** With the SQL the page passes down, the JSON export is refused exactly
      when there are no tables. */
  lemma ExportJsonRefusedWhenEmpty(tables: seq<Table>, exportedAt: string, fileStamp: string)
    ensures ExportJson(tables, SchemaSql(tables), exportedAt, fileStamp).download.None? <==> |tables| == 0
  {
  }

  /** The "Add Table" dialog of the toolbar and of the sidebar, which share
      this state and this handler. */
  class AddTableDialog {
    var newTableName: string
    var isDialogOpen: bool

    constructor()
      ensures newTableName == "" && !isDialogOpen
    {
      newTableName := "";
      isDialogOpen := false;
    }

    /** The name input's `onChange`. */
    method Type(text: string)
      modifies this
      ensures newTableName == text && isDialogOpen == old(isDialogOpen)
    {
      newTableName := text;
    }

    /** The dialog's `onOpenChange`. */
    method SetOpen(open: bool)
      modifies this
      ensures isDialogOpen == open && newTableName == old(newTableName)
    {
      isDialogOpen := open;
    }

    /** Whether "Create Table" is enabled: exactly when pressing it adds a
        table. */
    function CanCreate(): (r: bool)
      reads this
      ensures r <==> TableNameToAdd(newTableName).Some?
    {
      Trim(newTableName) != ""
    }

    /** `handleAddTable`: the name handed to `onAddTable`, if any; after a
        table is added the input is cleared and the dialog closed, otherwise
        nothing changes. */
    method HandleAddTable() returns (added: Option<string>)
      modifies this
      ensures added == TableNameToAdd(old(newTableName))
      ensures added.Some? ==> newTableName == "" && !isDialogOpen
      ensures added.None? ==> newTableName == old(newTableName) && isDialogOpen == old(isDialogOpen)
    {
      added := TableNameToAdd(newTableName);
      if added.Some? {
        newTableName := "";
        isDialogOpen := false;
      }
    }
  }
}
