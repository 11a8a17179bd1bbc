/** The sidebar's handlers: downloading the SQL and copying it to the
    clipboard. Its "Add Table" dialog and its JSON export are shared with the
    toolbar. */
module Sidebar {
  import opened Wrappers
  import opened Model
  import opened SqlGenerator
  import opened Panels

  /** `handleDownloadSQL`: as the toolbar's SQL export, with its own
      messages. */
  function DownloadSql(sqlCode: string, iso: string): (r: Reaction)
    ensures r.download.None? <==> sqlCode == ""
    ensures r.download.None? ==> r.toast == Failure("No schema to download!")
    ensures r.download.Some? ==> r.download.value == SqlDownload(SqlFileName(iso), sqlCode)
    ensures r.download.Some? ==> r.toast == Success("Schema downloaded as " + SqlFileName(iso) + "!")
  {
    OfferSql(sqlCode, iso, "No schema to download!", "Schema downloaded as ")
  }

  /** What `handleCopySQL` does: the text it writes to the clipboard, if it
      tries, and the toast. */
  datatype Copy = Copy(written: Option<string>, toast: Toast)

  /** `handleCopySQL`; `clipboardAccepts` is whether the clipboard's promise
      resolves. */
  function CopySql(sqlCode: string, clipboardAccepts: bool): (r: Copy)
    ensures r.written.None? <==> sqlCode == ""
    ensures r.written.Some? ==> r.written.value == sqlCode
    ensures r.toast.Success? <==> sqlCode != "" && clipboardAccepts
  {
    if sqlCode == "" then Copy(None, Failure("No schema to copy!"))
    else if clipboardAccepts then Copy(Some(sqlCode), Success("SQL schema copied to clipboard!"))
    else Copy(Some(sqlCode), Failure("Failed to copy SQL schema"))
  }

  /** With the SQL the page passes down, download and copy are refused exactly
      when there are no tables. */
  lemma SidebarRefusedWhenEmpty(tables: seq<Table>, iso: string, clipboardAccepts: bool)
    ensures DownloadSql(SchemaSql(tables), iso).download.None? <==> |tables| == 0
    ensures CopySql(SchemaSql(tables), clipboardAccepts).written.None? <==> |tables| == 0
  {
  }
}
