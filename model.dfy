/** The records the editor passes around: columns, tables and the
    relationships (edges) drawn between tables on the canvas. */
module Model {
  import opened Wrappers

  /** One column of a table. `defaultValue` is optional, as in the source's
      `defaultValue?: string`. */
  datatype Column = Column(
    id: string,
    name: string,
    dataType: string,
    isPrimaryKey: bool,
    isNullable: bool,
    isUnique: bool,
    defaultValue: Option<string>)

  /** A table: its id, its name (used verbatim as the SQL identifier) and its
      columns in display and emission order. */
  datatype Table = Table(id: string, name: string, columns: seq<Column>)

  /** The table names an edge records in its `data` when it is drawn. */
  datatype EdgeData = EdgeData(sourceTable: string, targetTable: string)

  /** A relationship as the canvas stores it: its id, the ids of the two tables
      it links, the label computed when it was drawn, and its `data`. */
  datatype Edge = Edge(id: string, source: string, target: string, labelText: string, data: EdgeData)

  function TableIds(tables: seq<Table>): (ids: seq<string>)
    ensures |ids| == |tables|
    ensures forall i :: 0 <= i < |tables| ==> ids[i] == tables[i].id
  {
    seq(|tables|, i requires 0 <= i < |tables| => tables[i].id)
  }
}
