/** The top toolbar's handlers: resetting the schema and exporting it as SQL.
    Its "Add Table" dialog and its JSON export are shared with the sidebar. */
module Toolbar {
  import opened Wrappers
  import opened Model
  import opened SqlGenerator
  import opened Panels

  /** `handleResetSchema`: the ids handed to `onDeleteTable`, one call per
      table in table order, and the toast; nothing is deleted when there are
      no tables. */
  method HandleResetSchema(tables: seq<Table>) returns (deletions: seq<string>, toast: Toast)
    ensures |tables| == 0 ==> deletions == [] && toast == Failure("No schema to reset!")
    ensures |tables| > 0 ==> deletions == TableIds(tables) && toast == Success("Schema reset successfully!")
  {
    if |tables| == 0 {
      return [], Failure("No schema to reset!");
    }
    deletions := [];
    for i := 0 to |tables|
      invariant |deletions| == i
      invariant forall k :: 0 <= k < i ==> deletions[k] == tables[k].id
    {
      deletions := deletions + [tables[i].id];
    }
    toast := Success("Schema reset successfully!");
  }

  /** `handleExportSQL`: the SQL downloaded under a time-stamped name, or an
      error when there is no SQL. */
  function ExportSql(sqlCode: string, iso: string): (r: Reaction)
    ensures r.download.None? <==> sqlCode == ""
    ensures r.download.None? ==> r.toast == Failure("No schema to export!")
    ensures r.download.Some? ==> r.download.value == SqlDownload(SqlFileName(iso), sqlCode)
    ensures r.download.Some? ==> r.toast == Success("Schema exported as " + SqlFileName(iso) + "!")
  {
    OfferSql(sqlCode, iso, "No schema to export!", "Schema exported as ")
  }

  /** With the SQL the page passes down, the export is refused exactly when
      there are no tables. */
  lemma ExportSqlRefusedWhenEmpty(tables: seq<Table>, iso: string)
    ensures ExportSql(SchemaSql(tables), iso).download.None? <==> |tables| == 0
  {
  }
}
