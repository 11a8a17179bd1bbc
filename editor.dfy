/** The table editor dialog: a working copy of one table whose name and
    columns are edited and which is handed back whole on save. */
module Editor {
  import opened Wrappers
  import opened Text
  import opened Seqs
  import opened Model
  import opened SqlGenerator
  import opened Tables

  /** The types the type selector offers. */
  const DataTypes: seq<string> := [
    "VARCHAR(255)", "INTEGER", "BIGINT", "DECIMAL(10,2)", "BOOLEAN",
    "DATE", "DATETIME", "TIMESTAMP", "TEXT", "CHAR(10)"]

  /** The offered types are written in upper case, so a column line shows
      them exactly as offered. */
  lemma OfferedTypesUpper()
    ensures forall i :: 0 <= i < |DataTypes| ==> Upper(DataTypes[i]) == DataTypes[i]
  {
    forall i | 0 <= i < |DataTypes|
      ensures Upper(DataTypes[i]) == DataTypes[i]
    {
      UpperKeeps(DataTypes[i]);
    }
  }

  /** The column the "Add Column" button appends. */
  function NewColumn(clock: nat): Column {
    Column(ColumnId(clock), "new_column", "VARCHAR(255)", false, true, false, Some(""))
  }

  /** A `Partial<Column>`: each field is either given or left alone. */
  datatype ColumnPatch = ColumnPatch(
    id: Option<string>,
    name: Option<string>,
    dataType: Option<string>,
    isPrimaryKey: Option<bool>,
    isNullable: Option<bool>,
    isUnique: Option<bool>,
    defaultValue: Option<string>)

  function Pick<T>(given: Option<T>, current: T): T {
    if given.Some? then given.value else current
  }

  /** `{ ...column, ...patch }`: the patch's given fields win. */
  function Merge(column: Column, patch: ColumnPatch): (r: Column)
    ensures patch.id.None? ==> r.id == column.id
    ensures patch == ColumnPatch(None, None, None, None, None, None, None) ==> r == column
  {
    Column(
      Pick(patch.id, column.id),
      Pick(patch.name, column.name),
      Pick(patch.dataType, column.dataType),
      Pick(patch.isPrimaryKey, column.isPrimaryKey),
      Pick(patch.isNullable, column.isNullable),
      Pick(patch.isUnique, column.isUnique),
      if patch.defaultValue.Some? then patch.defaultValue else column.defaultValue)
  }

  /** The updates the dialog's inputs issue: one field each. */
  datatype ColumnEdit =
    | EditName(name: string)
    | EditDataType(dataType: string)
    | EditDefault(defaultValue: string)
    | EditPrimaryKey(isPrimaryKey: bool)
    | EditNullable(isNullable: bool)
    | EditUnique(isUnique: bool)

  const NoChange := ColumnPatch(None, None, None, None, None, None, None)

  function PatchOf(edit: ColumnEdit): ColumnPatch {
    match edit
    case EditName(v) => NoChange.(name := Some(v))
    case EditDataType(v) => NoChange.(dataType := Some(v))
    case EditDefault(v) => NoChange.(defaultValue := Some(v))
    case EditPrimaryKey(v) => NoChange.(isPrimaryKey := Some(v))
    case EditNullable(v) => NoChange.(isNullable := Some(v))
    case EditUnique(v) => NoChange.(isUnique := Some(v))
  }

  /** What an edit does to a column, field by field. */
  function Apply(column: Column, edit: ColumnEdit): Column {
    match edit
    case EditName(v) => column.(name := v)
    case EditDataType(v) => column.(dataType := v)
    case EditDefault(v) => column.(defaultValue := Some(v))
    case EditPrimaryKey(v) => column.(isPrimaryKey := v)
    case EditNullable(v) => column.(isNullable := v)
    case EditUnique(v) => column.(isUnique := v)
  }

  /** Merging an edit's patch changes exactly the edited field; in particular
      the column keeps its id. */
  lemma MergeEdit(column: Column, edit: ColumnEdit)
    ensures Merge(column, PatchOf(edit)) == Apply(column, edit)
    ensures Merge(column, PatchOf(edit)).id == column.id
  {
  }

  /** `updateColumn`'s new list: the patch merged into every column with
      `columnId`, every other column as it was. */
  function UpdateColumns(columns: seq<Column>, columnId: string, patch: ColumnPatch): (r: seq<Column>)
    ensures |r| == |columns|
    ensures forall i :: 0 <= i < |columns| ==>
      r[i] == if columns[i].id == columnId then Merge(columns[i], patch) else columns[i]
  {
    var update := (c: Column) => if c.id == columnId then Merge(c, patch) else c;
    MapPointwise(columns, update);
    Map(columns, update)
  }

  /** An edit from the dialog's inputs keeps every column id. */
  lemma EditKeepsColumnIds(columns: seq<Column>, columnId: string, edit: ColumnEdit)
    ensures forall i :: 0 <= i < |columns| ==> UpdateColumns(columns, columnId, PatchOf(edit))[i].id == columns[i].id
  {
    var r := UpdateColumns(columns, columnId, PatchOf(edit));
    forall i | 0 <= i < |columns|
      ensures r[i].id == columns[i].id
    {
      MergeEdit(columns[i], edit);
    }
  }

  /** Updating an id no column has changes nothing. */
  lemma UpdateMissingColumn(columns: seq<Column>, columnId: string, patch: ColumnPatch)
    requires forall i :: 0 <= i < |columns| ==> columns[i].id != columnId
    ensures UpdateColumns(columns, columnId, patch) == columns
  {
  }

  /** `deleteColumn`'s new list: the columns with another id, in order. */
  function DeleteColumns(columns: seq<Column>, columnId: string): (r: seq<Column>)
    ensures |r| <= |columns|
    ensures forall i :: 0 <= i < |r| ==> r[i].id != columnId
  {
    Filter(columns, (c: Column) => c.id != columnId)
  }

  lemma DeleteColumnsMembership(columns: seq<Column>, columnId: string, c: Column)
    ensures c in DeleteColumns(columns, columnId) <==> c in columns && c.id != columnId
  {
    FilterMembership(columns, (c: Column) => c.id != columnId, c);
  }

  lemma DeleteColumnsOrder(a: seq<Column>, b: seq<Column>, columnId: string)
    ensures DeleteColumns(a + b, columnId) == DeleteColumns(a, columnId) + DeleteColumns(b, columnId)
  {
    FilterAppend(a, b, (c: Column) => c.id != columnId);
  }

  lemma DeleteMissingColumn(columns: seq<Column>, columnId: string)
    requires forall i :: 0 <= i < |columns| ==> columns[i].id != columnId
    ensures DeleteColumns(columns, columnId) == columns
  {
    FilterKeepsAll(columns, (c: Column) => c.id != columnId);
  }

  /** An edit the dialog can issue: a type change picks an offered type. */
  predicate Offered(edit: ColumnEdit) {
    edit.EditDataType? ==> edit.dataType in DataTypes
  }

  /** Every column has one of the offered types. */
  predicate TypesOffered(columns: seq<Column>) {
    forall i :: 0 <= i < |columns| ==> columns[i].dataType in DataTypes
  }

  /** A new table, and a table with a column added, keep offered types. */
  lemma NewColumnsOffered(columns: seq<Column>, tableName: string, tableClock: nat, columnClock: nat, clock: nat)
    ensures TypesOffered(NewTable(tableName, tableClock, columnClock).columns)
    ensures TypesOffered(columns) ==> TypesOffered(columns + [NewColumn(clock)])
  {
    assert DataTypes[1] == "INTEGER";
    assert DataTypes[0] == "VARCHAR(255)";
    if TypesOffered(columns) {
      var r := columns + [NewColumn(clock)];
      forall i | 0 <= i < |r|
        ensures r[i].dataType in DataTypes
      {
        if i < |columns| {
          assert r[i] == columns[i];
        }
      }
    }
  }

  /** Offered edits keep offered types. */
  lemma EditKeepsTypesOffered(columns: seq<Column>, columnId: string, edit: ColumnEdit)
    requires TypesOffered(columns) && Offered(edit)
    ensures TypesOffered(UpdateColumns(columns, columnId, PatchOf(edit)))
  {
    var r := UpdateColumns(columns, columnId, PatchOf(edit));
    forall i | 0 <= i < |columns|
      ensures r[i].dataType in DataTypes
    {
      MergeEdit(columns[i], edit);
    }
  }

  /** Deleting columns keeps offered types. */
  lemma DeleteKeepsTypesOffered(columns: seq<Column>, columnId: string)
    requires TypesOffered(columns)
    ensures TypesOffered(DeleteColumns(columns, columnId))
  {
    var r := DeleteColumns(columns, columnId);
    forall i | 0 <= i < |r|
      ensures r[i].dataType in DataTypes
    {
      assert r[i] in r;
      DeleteColumnsMembership(columns, columnId, r[i]);
    }
  }

  /** The dialog's working copy, `editedTable`. */
  class TableEditor {
    var editedTable: Table

    constructor(table: Table)
      ensures editedTable == table
    {
      editedTable := table;
    }

    /** The effect that reloads the copy whenever the dialog's table changes. */
    method Load(table: Table)
      modifies this
      ensures editedTable == table
    {
      editedTable := table;
    }

    method AddColumn(clock: nat)
      modifies this
      ensures editedTable == old(editedTable).(columns := old(editedTable.columns) + [NewColumn(clock)])
    {
      editedTable := editedTable.(columns := editedTable.columns + [NewColumn(clock)]);
    }

    method UpdateColumn(columnId: string, patch: ColumnPatch)
      modifies this
      ensures editedTable == old(editedTable).(columns := UpdateColumns(old(editedTable.columns), columnId, patch))
    {
      editedTable := editedTable.(columns := UpdateColumns(editedTable.columns, columnId, patch));
    }

    method DeleteColumn(columnId: string)
      modifies this
      ensures editedTable == old(editedTable).(columns := DeleteColumns(old(editedTable.columns), columnId))
    {
      editedTable := editedTable.(columns := DeleteColumns(editedTable.columns, columnId));
    }

    /** The name input: only the name changes. */
    method Rename(name: string)
      modifies this
      ensures editedTable == old(editedTable).(name := name)
    {
      editedTable := editedTable.(name := name);
    }

    /** `handleSave`: the whole working copy is handed back. */
    method Save() returns (table: Table)
      ensures table == editedTable
    {
      table := editedTable;
    }
  }
}
