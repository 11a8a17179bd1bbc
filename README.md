# VisualSQL schema designer — a Dafny model

VisualSQL is a browser tool for designing relational schemas. Tables are drawn
as nodes on a canvas and relationships as edges between them, and the `CREATE
TABLE` script for the schema is shown live. This project models the logic
behind that editor and proves properties of it:

- the SQL generator `generateSQL`: column lines, constraint suffixes, the
  three ways a DEFAULT is written, the primary-key clause and the final trim;
- the page's table list (`addTable`, `updateTable`, `deleteTable`) and the
  canvas's relationship list (`onConnect`, the cascade when a node deletes its
  table, the node grid, single-edge removal), together in one `Schema` class
  with a `tables` and an `edges` field;
- the table editor dialog's working copy (`addColumn`, `updateColumn`,
  `deleteColumn`, rename, save) as a `TableEditor` class, and the ten offered
  data types;
- the toolbar and sidebar helpers: the trimmed-name guard before a table is
  added, the reset, the SQL and JSON exports with their file names, the
  clipboard copy, and the column and primary-key counts.

Modules:

| module | file | models |
|---|---|---|
| `Wrappers` | wrappers.dfy | `Option` |
| `Text` | text.dfy | `trim` (the ECMAScript whitespace set), ASCII `toUpperCase`, `includes`, `join`, `slice`, `replace(/:/g, '-')`, decimal rendering of a clock reading |
| `Seqs` | seqs.dfy | `Array.prototype.map` and `filter` |
| `Model` | model.dfy | the `Column`, `Table` and `Edge` records |
| `SqlGenerator` | sql_generator.dfy | `generateSQL`: the table loop (`GenerateSql`), the column loop (`BuildColumnDefinitions`) and the `+=` steps of one column line (`BuildColumnDefinition`), proved against specification functions (`SchemaSql`, `ColumnLines`, `ColumnDefinition`) |
| `Tables` | tables.dfy | the table-list transforms of `Index.tsx` and the SQL of a freshly added table |
| `Canvas` | canvas.dfy | node layout, `onConnect`, the delete cascade |
| `Relationship` | relationship.dfy | `onEdgeClick` |
| `Designer` | designer.dfy | the `Schema` class over `(tables, edges)` and the no-dangling-edge invariant |
| `Editor` | editor.dfy | `EditTableDialog` |
| `Panels` | panels.dfy | logic shared by toolbar and sidebar: add-table dialog, JSON export, file names, counts |
| `Toolbar`, `Sidebar` | toolbar.dfy, sidebar.dfy | the handlers particular to each panel |
| `Scenarios` | scenarios.dfy | the exact output for a few concrete columns and a concrete relationship |

Clock readings (`Date.now()`) are `nat` parameters and ISO time stamps
(`new Date().toISOString()`) are `string` parameters. A handler that reads the
clock twice takes two parameters. Whether the clipboard accepts a write is a
`bool` parameter. Toast notifications are modelled as their text, together
with whether they are a success or an error.

Three facts about the code that the model keeps:

- `addTable` on the page does not reject a blank name. Only the two panels
  trim the name and refuse a blank one before they call it.
- Nothing raises an error for an unknown id. `updateColumn`, `deleteColumn`
  and `onConnect` then change nothing. `updateTable` leaves the tables
  unchanged but still reports success with the name of the table handed in.
- Only the delete issued from a table node removes the table's relationships.
  The page's own `deleteTable`, which the toolbar's reset calls, leaves them
  in place. `Designer.PlainDeleteLeavesEdges` exhibits a dangling edge that
  this leaves behind.

## Model

| member | source | states |
|---|---|---|
| SqlGenerator.GenerateSql | VisualSQL-main/src/utils/sqlGenerator.ts:18-79 | the loop over the tables produces exactly `SchemaSql(tables)`, so it is empty just when there are no tables and otherwise ends with `\n);` |
| SqlGenerator.SchemaSql | VisualSQL-main/src/utils/sqlGenerator.ts:19 | the SQL is empty exactly when the table sequence is empty |
| SqlGenerator.SchemaSqlEnding | VisualSQL-main/src/utils/sqlGenerator.ts:75-78 | for a non-empty schema the SQL ends with the last statement's `\n);` and has no trailing whitespace |
| SqlGenerator.SchemaSqlDropsBlankLine | VisualSQL-main/src/utils/sqlGenerator.ts:78 | the final trim removes exactly the blank line after the last statement, and nothing else |
| SqlGenerator.ScriptAppend | VisualSQL-main/src/utils/sqlGenerator.ts:24-76 | the untrimmed text of `a + b` is the text of `a` followed by that of `b`: one block per table, in table order |
| SqlGenerator.ScriptStep | VisualSQL-main/src/utils/sqlGenerator.ts:24-76 | each step of the loop appends the block of the next table to the blocks of the tables before it |
| SqlGenerator.ScriptFraming | VisualSQL-main/src/utils/sqlGenerator.ts:24-76 | for a non-empty schema the untrimmed text starts with `CREATE TABLE`'s `C` and ends with `\n);\n\n` |
| SqlGenerator.ConcatFramed | VisualSQL-main/src/utils/sqlGenerator.ts:24-76 | blocks that each start with `C` and end with `\n);\n\n` keep that framing when placed one after another |
| SqlGenerator.TrimFramed | VisualSQL-main/src/utils/sqlGenerator.ts:78 | trimming a framed text removes only its final `\n\n`; the result ends with `\n);` |
| SqlGenerator.ScriptSingleton | VisualSQL-main/src/utils/sqlGenerator.ts:24-76 | the text for one table is that table's block |
| SqlGenerator.SchemaSqlOfScript | VisualSQL-main/src/utils/sqlGenerator.ts:75-78 | when the blocks end with `\n);\n\n`, the SQL is everything before the final `\n\n` |
| SqlGenerator.Statement | VisualSQL-main/src/utils/sqlGenerator.ts:25-75 | a table's statement starts with `C` and ends with `\n);\n\n` |
| SqlGenerator.AppendStatement | VisualSQL-main/src/utils/sqlGenerator.ts:25-75 | appending one table's statement step by step (header, joined lines, key clause, block end) adds exactly that table's block |
| SqlGenerator.StatementSteps | VisualSQL-main/src/utils/sqlGenerator.ts:25-75 | the four appends of one iteration add up to the table's statement |
| SqlGenerator.BuildColumnDefinitions | VisualSQL-main/src/utils/sqlGenerator.ts:27-64 | the `map` over the columns gives one line per column, in column order, each the column's definition |
| SqlGenerator.BuildColumnDefinition | VisualSQL-main/src/utils/sqlGenerator.ts:28-63 | growing `definition` by `+=` through the four optional suffixes gives exactly `ColumnDefinition(column)` |
| SqlGenerator.AppendDefault | VisualSQL-main/src/utils/sqlGenerator.ts:41-54 | the DEFAULT step appends the rendered DEFAULT part of the column and nothing else |
| SqlGenerator.ColumnDefinitionSteps | VisualSQL-main/src/utils/sqlGenerator.ts:28-61 | head plus NOT NULL part plus UNIQUE part plus DEFAULT part plus AUTO_INCREMENT part is the column's definition |
| SqlGenerator.ColumnDefinitionParts | VisualSQL-main/src/utils/sqlGenerator.ts:28-61 | a column line is its head followed by the four rendered parts in order |
| SqlGenerator.PartTexts | VisualSQL-main/src/utils/sqlGenerator.ts:31-61 | the text of each part: ` NOT NULL` when not nullable, ` UNIQUE` when unique and not a key, ` DEFAULT ` and the literal when a default is declared, ` AUTO_INCREMENT` for an integer or serial key; empty otherwise |
| SqlGenerator.ConstraintFlags | VisualSQL-main/src/utils/sqlGenerator.ts:31-38 | NOT NULL is present iff the column is not nullable, whatever its key flag; UNIQUE iff unique and not a primary key; AUTO_INCREMENT iff a primary key whose upper-cased type contains `INT` or `SERIAL` |
| SqlGenerator.ConstraintDefault | VisualSQL-main/src/utils/sqlGenerator.ts:41-54 | a DEFAULT is present iff the default value is present and not blank, and then it carries that value's literal |
| SqlGenerator.ConstraintSources | VisualSQL-main/src/utils/sqlGenerator.ts:30-61 | every constraint of a line comes from one of the four steps |
| SqlGenerator.ConstraintOrder | VisualSQL-main/src/utils/sqlGenerator.ts:30-61 | each kind of suffix occurs at most once, in the order NOT NULL, UNIQUE, DEFAULT, AUTO_INCREMENT |
| SqlGenerator.RankedOptionals | VisualSQL-main/src/utils/sqlGenerator.ts:30-61 | any choice of the four optional suffixes is in that order |
| SqlGenerator.ColumnLineReadable | VisualSQL-main/src/utils/sqlGenerator.ts:28-38 | the text after a line's head starts with ` NOT NULL` iff the column is not nullable, and the text after that starts with ` UNIQUE` iff it is unique and not a key |
| SqlGenerator.FirstConstraintReadable | VisualSQL-main/src/utils/sqlGenerator.ts:30-61 | rendered suffixes start with a keyword exactly when the first suffix is of that kind |
| SqlGenerator.KeywordLeads | VisualSQL-main/src/utils/sqlGenerator.ts:32-60 | each rendered suffix starts with its keyword |
| SqlGenerator.KeywordsDistinct | VisualSQL-main/src/utils/sqlGenerator.ts:32-60 | the four keywords differ from their second character on |
| SqlGenerator.DeclaredDefault | VisualSQL-main/src/utils/sqlGenerator.ts:41-42 | no default when the value is absent or all whitespace; otherwise the trimmed, non-empty value |
| SqlGenerator.DefaultLiteral | VisualSQL-main/src/utils/sqlGenerator.ts:43-53 | a string type quotes the value in `'...'`; on any other type that contains `TIMESTAMP`, a value that upper-cases to `CURRENT_TIMESTAMP` becomes that keyword; in every other case the value is written bare and unchanged |
| SqlGenerator.ColumnLineHead | VisualSQL-main/src/utils/sqlGenerator.ts:28 | every column line opens with four spaces, the back-quoted name and a space, then the upper-cased type, before any constraint |
| SqlGenerator.TableBlockHeader | VisualSQL-main/src/utils/sqlGenerator.ts:25-66 | a table's statement opens with ``CREATE TABLE `name` (`` and a line break, followed by the column lines joined by `,\n` |
| SqlGenerator.StatementOpens | VisualSQL-main/src/utils/sqlGenerator.ts:25-66 | a statement opens with its `CREATE TABLE` header and then its column text |
| SqlGenerator.UpperTypeClasses | VisualSQL-main/src/utils/sqlGenerator.ts:44-59 | for an already upper-case type, the three type tests are plain `includes` tests on the type |
| SqlGenerator.PrimaryKeyClause | VisualSQL-main/src/utils/sqlGenerator.ts:69-73 | the `PRIMARY KEY (...)` clause is absent iff no column is a primary key |
| SqlGenerator.PrimaryKeysExact | VisualSQL-main/src/utils/sqlGenerator.ts:69 | the key list holds exactly the primary-key columns, in column order |
| SqlGenerator.KeyClauseSteps | VisualSQL-main/src/utils/sqlGenerator.ts:69-73 | the filter, map, join and conditional append build exactly the primary-key clause |
| SqlGenerator.RenderConstraintsAppend | VisualSQL-main/src/utils/sqlGenerator.ts:30-61 | the suffixes of two runs of constraints are the suffixes of the first followed by those of the second |
| SqlGenerator.RenderOptional | VisualSQL-main/src/utils/sqlGenerator.ts:31-33 | an optional suffix renders as its text when present and as nothing otherwise |
| Text.Trim | VisualSQL-main/src/utils/sqlGenerator.ts:78 | `trim` returns `s` itself when `s` neither starts nor ends with whitespace, never returns text that does, and returns empty exactly for blank input; `Text.TrimSlice` states that only leading and trailing whitespace is removed |
| Text.TrimSlice | VisualSQL-main/src/utils/sqlGenerator.ts:42 | the trimmed text is a slice of `s`, and everything before and after that slice is whitespace: `trim` removes leading and trailing whitespace and nothing else |
| Text.TrimIdempotent | VisualSQL-main/src/utils/sqlGenerator.ts:42 | trimming an already trimmed value changes nothing |
| Text.TrimDropsTrailingWhitespace | VisualSQL-main/src/utils/sqlGenerator.ts:78 | trimming a text whose ends are not whitespace, followed by whitespace, gives the text back |
| Text.Upper | VisualSQL-main/src/utils/sqlGenerator.ts:28 | `toUpperCase` keeps the length and upper-cases each ASCII letter |
| Text.UpperIdempotent | VisualSQL-main/src/utils/sqlGenerator.ts:44-49 | upper-casing twice is upper-casing once |
| Text.UpperAppend | VisualSQL-main/src/utils/sqlGenerator.ts:28 | upper-casing works character by character, so it distributes over concatenation |
| Text.UpperKeeps | VisualSQL-main/src/utils/sqlGenerator.ts:28 | a text without lower-case ASCII letters is its own upper-casing |
| Text.ContainsOccurs | VisualSQL-main/src/utils/sqlGenerator.ts:44-59 | `includes` holds exactly when the part occurs at some index |
| Text.JoinAppend | VisualSQL-main/src/utils/sqlGenerator.ts:66 | joining `a + b` is joining `a`, the separator, then joining `b` |
| Text.Decimal | VisualSQL-main/src/pages/Index.tsx:30 | a clock reading is written as a non-empty string of decimal digits |
| Text.DecimalRoundTrip | VisualSQL-main/src/pages/Index.tsx:30 | reading the digits back gives the clock reading |
| Text.DecimalInjective | VisualSQL-main/src/pages/Index.tsx:30 | different clock readings give different ids |
| Text.ReplaceAll | VisualSQL-main/src/components/DatabaseToolbar.tsx:59 | `replace(/:/g, '-')` keeps the length, swaps each `:` for `-` and leaves no `:` |
| Text.Prefix | VisualSQL-main/src/components/DatabaseToolbar.tsx:59 | `slice(0, n)` gives the first `n` characters, or the whole text when it is shorter |
| Seqs.MapPointwise | VisualSQL-main/src/pages/Index.tsx:49-51 | `map` gives one result per element, the `k`-th result from the `k`-th element |
| Seqs.Filter | VisualSQL-main/src/pages/Index.tsx:57 | `filter` keeps only passing elements and never grows the list |
| Seqs.FilterMembership | VisualSQL-main/src/pages/Index.tsx:57 | an element is kept iff it was in the list and passes |
| Seqs.FilterAppend | VisualSQL-main/src/pages/Index.tsx:57 | filtering keeps relative order |
| Seqs.FilterKeepsAll | VisualSQL-main/src/pages/Index.tsx:57 | nothing is removed when every element passes |
| Seqs.FilterEmpty | VisualSQL-main/src/utils/sqlGenerator.ts:69-70 | the filtered list is empty iff no element passes |
| Seqs.FilterIdempotent | VisualSQL-main/src/pages/Index.tsx:57 | filtering twice with the same test removes nothing more |
| Tables.NewTableSql | VisualSQL-main/src/pages/Index.tsx:29-43 | the SQL of a schema holding only a new table `t` is ``CREATE TABLE `t` (`` then `` `id` INTEGER NOT NULL AUTO_INCREMENT`` then ``,\n    PRIMARY KEY (`id`)`` then `\n);` |
| Tables.NewTableBlock | VisualSQL-main/src/pages/Index.tsx:29-43 | a new table's statement has the single `id` line and a key clause naming `id` |
| Tables.IdColumnLine | VisualSQL-main/src/pages/Index.tsx:33-41 | the initial column's line is `` `id` INTEGER NOT NULL AUTO_INCREMENT`` (no UNIQUE on a key, no DEFAULT for the empty default) |
| Tables.IdKeyClause | VisualSQL-main/src/pages/Index.tsx:37 | the key clause of a new table names its initial column |
| Tables.TableIdInjective | VisualSQL-main/src/pages/Index.tsx:30 | table ids made at different clock readings differ |
| Tables.ColumnIdInjective | VisualSQL-main/src/pages/Index.tsx:34 | column ids made at different clock readings differ |
| Tables.CreatedMessage | VisualSQL-main/src/pages/Index.tsx:45 | the creation message is `Table "`, the new table's name, then `" created successfully!` |
| Tables.UpdatedMessage | VisualSQL-main/src/pages/Index.tsx:52 | the update message is `Table "`, the name of the table handed in, then `" updated successfully!` |
| Tables.DeletedMessage | VisualSQL-main/src/pages/Index.tsx:56-60 | a deletion message is given exactly when some table has the id |
| Tables.IntegerTypes | VisualSQL-main/src/pages/Index.tsx:36 | `INTEGER` is its own upper-casing, counts as an auto-increment type and is not a string type |
| Tables.ReplaceTable | VisualSQL-main/src/pages/Index.tsx:48-51 | `updateTable` keeps the length; each table with the id becomes the updated table and every other position is unchanged |
| Tables.ReplaceMissing | VisualSQL-main/src/pages/Index.tsx:48-51 | an update with an unknown id changes nothing |
| Tables.ReplaceKeepsIds | VisualSQL-main/src/pages/Index.tsx:48-51 | replacing by a table with the same id keeps the id list unchanged |
| Tables.ReplaceIdempotent | VisualSQL-main/src/pages/Index.tsx:48-51 | applying the same update twice is applying it once, whatever table is handed in |
| Tables.RemoveTable | VisualSQL-main/src/pages/Index.tsx:57 | `deleteTable` leaves no table with the id and never grows the list |
| Tables.RemoveTableMembership | VisualSQL-main/src/pages/Index.tsx:57 | a table survives iff it was there and has another id |
| Tables.RemoveTableOrder | VisualSQL-main/src/pages/Index.tsx:57 | the remaining tables keep their relative order |
| Tables.RemoveMissing | VisualSQL-main/src/pages/Index.tsx:57 | deleting an unknown id changes nothing |
| Tables.FindTable | VisualSQL-main/src/pages/Index.tsx:56 | `find` gives nothing iff no table has the id, and otherwise the first table with it |
| Canvas.Layout | VisualSQL-main/src/components/DatabaseCanvas.tsx:48-51 | one node per table, in order; node `i` carries `tables[i]`, its id and the grid position of `i` |
| Canvas.NodePositionOnGrid | VisualSQL-main/src/components/DatabaseCanvas.tsx:51 | nodes sit in three columns at x = 100, 550, 1000 and in rows 400 apart from y = 100 |
| Canvas.NodePositionInjective | VisualSQL-main/src/components/DatabaseCanvas.tsx:51 | different indices get different positions |
| Canvas.LayoutDistinctPositions | VisualSQL-main/src/components/DatabaseCanvas.tsx:48-51 | no two nodes share a position |
| Canvas.Connection | VisualSQL-main/src/components/DatabaseCanvas.tsx:72-105 | an edge is made iff both end ids name tables; it links those ids and its label is `source → target` of the names it stores |
| Canvas.EdgeIdInjective | VisualSQL-main/src/components/DatabaseCanvas.tsx:81 | two edges between the same ends drawn at different clock readings get different ids |
| Canvas.ConnectedMessage | VisualSQL-main/src/components/DatabaseCanvas.tsx:108 | the creation message is `Relationship created: ` followed by the edge's label |
| Canvas.ConnectionNames | VisualSQL-main/src/components/DatabaseCanvas.tsx:72-105 | the stored names are those of the first tables with the end ids at connect time |
| Canvas.SelfConnection | VisualSQL-main/src/components/DatabaseCanvas.tsx:72-77 | a table can be connected to itself |
| Canvas.RemoveEdgesOf | VisualSQL-main/src/components/DatabaseCanvas.tsx:57-59 | after the cascade no edge starts or ends at the deleted table |
| Canvas.RemoveEdgesOfMembership | VisualSQL-main/src/components/DatabaseCanvas.tsx:57-59 | an edge survives the cascade iff it does not touch the table |
| Canvas.RemoveEdgesOfUntouched | VisualSQL-main/src/components/DatabaseCanvas.tsx:57-59 | the cascade removes nothing when no edge touches the table |
| Relationship.RemoveEdge | VisualSQL-main/src/components/RelationshipEdge.tsx:42-46 | no edge with the clicked id remains and the list never grows |
| Relationship.RemoveEdgeMembership | VisualSQL-main/src/components/RelationshipEdge.tsx:43 | an edge survives iff it has another id |
| Relationship.RemoveEdgeOrder | VisualSQL-main/src/components/RelationshipEdge.tsx:43 | the remaining edges keep their order |
| Relationship.RemoveEdgeMissing | VisualSQL-main/src/components/RelationshipEdge.tsx:43 | removing an absent id leaves the edges unchanged |
| Relationship.RemovalMessage | VisualSQL-main/src/components/RelationshipEdge.tsx:48-51 | every removal message ends with ` removed successfully!` |
| Relationship.RemovalMessageFallback | VisualSQL-main/src/components/RelationshipEdge.tsx:48-50 | when either recorded name is empty (falsy), the message is `relationship removed successfully!` |
| Relationship.RemovalMessageRepeatsLabel | VisualSQL-main/src/components/RelationshipEdge.tsx:48-51 | for an edge between named tables, the removal message is its label followed by ` removed successfully!` |
| Designer.Schema.constructor | VisualSQL-main/src/pages/Index.tsx:26 | the schema starts with no tables and no edges |
| Designer.Schema.SqlCode | VisualSQL-main/src/pages/Index.tsx:63 | the displayed SQL is the generator's output on the current tables, empty iff there are none |
| Designer.Schema.Nodes | VisualSQL-main/src/components/DatabaseCanvas.tsx:47-64 | the nodes are rebuilt from the tables, one per table |
| Designer.Schema.AddTable | VisualSQL-main/src/pages/Index.tsx:28-46 | appends the new table at the end, keeps every other table and every edge, returns the creation message, and keeps edges attached |
| Designer.Schema.UpdateTable | VisualSQL-main/src/pages/Index.tsx:48-53 | replaces the tables with the id, leaves the edges (and so their labels) unchanged, and keeps edges attached when the id is kept |
| Designer.Schema.DeleteTable | VisualSQL-main/src/pages/Index.tsx:55-61 | removes the tables with the id, leaves every edge in place, and gives a message only when such a table existed |
| Designer.Schema.DeleteTableFromNode | VisualSQL-main/src/components/DatabaseCanvas.tsx:55-60 | removes every edge touching the table, then the table, and keeps edges attached |
| Designer.Schema.Connect | VisualSQL-main/src/components/DatabaseCanvas.tsx:67-111 | appends the new edge when both ends exist and otherwise changes nothing; tables are untouched and edges stay attached |
| Designer.Schema.RemoveRelationship | VisualSQL-main/src/components/RelationshipEdge.tsx:38-52 | removes every edge with the clicked edge's id, so the clicked edge is gone; the message comes from the clicked edge's own data; the tables are untouched and edges stay attached |
| Designer.TableIdsMembership | VisualSQL-main/src/pages/Index.tsx:56 | an id is among the table ids iff some table has it |
| Designer.AddKeepsEdgesAttached | VisualSQL-main/src/pages/Index.tsx:44 | adding a table leaves no edge dangling |
| Designer.ReplaceKeepsEdgesAttached | VisualSQL-main/src/pages/Index.tsx:48-51 | replacing a table by one with the same id leaves no edge dangling |
| Designer.CascadeKeepsEdgesAttached | VisualSQL-main/src/components/DatabaseCanvas.tsx:55-60 | the cascade followed by the delete leaves no edge dangling |
| Designer.EndSurvives | VisualSQL-main/src/pages/Index.tsx:57 | a table with another id survives a delete |
| Designer.ConnectKeepsEdgesAttached | VisualSQL-main/src/components/DatabaseCanvas.tsx:72-107 | a new edge only links existing tables |
| Designer.RemoveEdgeKeepsEdgesAttached | VisualSQL-main/src/components/RelationshipEdge.tsx:42-46 | removing edges leaves no edge dangling |
| Designer.PlainDeleteLeavesEdges | VisualSQL-main/src/pages/Index.tsx:55-58 | the page's delete alone can leave an edge dangling: a self-relationship outlives its table |
| Editor.OfferedTypesUpper | VisualSQL-main/src/components/EditTableDialog.tsx:46-57 | every offered type is already upper case, so a column shows it as offered |
| Editor.Merge | VisualSQL-main/src/components/EditTableDialog.tsx:91 | `{ ...col, ...updates }` keeps the id when the update does not give one, and an empty update changes nothing |
| Editor.MergeEdit | VisualSQL-main/src/components/EditTableDialog.tsx:147-213 | each update the inputs issue changes exactly its one field and never the column id |
| Editor.UpdateColumns | VisualSQL-main/src/components/EditTableDialog.tsx:87-93 | the update is merged into the columns with the id; count, order and other columns are unchanged |
| Editor.EditKeepsColumnIds | VisualSQL-main/src/components/EditTableDialog.tsx:147-213 | updates issued by the inputs keep every column id |
| Editor.UpdateMissingColumn | VisualSQL-main/src/components/EditTableDialog.tsx:87-93 | an update for an absent id changes nothing |
| Editor.DeleteColumns | VisualSQL-main/src/components/EditTableDialog.tsx:96-101 | no column with the id remains and the list never grows |
| Editor.DeleteColumnsMembership | VisualSQL-main/src/components/EditTableDialog.tsx:99 | a column survives iff it has another id |
| Editor.DeleteColumnsOrder | VisualSQL-main/src/components/EditTableDialog.tsx:99 | the remaining columns keep their order |
| Editor.DeleteMissingColumn | VisualSQL-main/src/components/EditTableDialog.tsx:99 | deleting an absent id changes nothing |
| Editor.NewColumnsOffered | VisualSQL-main/src/components/EditTableDialog.tsx:71-85 | a new table's column and an added column have offered types |
| Editor.EditKeepsTypesOffered | VisualSQL-main/src/components/EditTableDialog.tsx:155-168 | a type chosen in the selector keeps every column's type among the offered ones |
| Editor.DeleteKeepsTypesOffered | VisualSQL-main/src/components/EditTableDialog.tsx:96-101 | deleting columns keeps every type offered |
| Scenarios.NewColumnLine | VisualSQL-main/src/components/EditTableDialog.tsx:71-80 | the column "Add Column" appends has the bare line `` `new_column` VARCHAR(255)``: no constraint at all |
| Editor.TableEditor.constructor | VisualSQL-main/src/components/EditTableDialog.tsx:65 | the working copy starts as the given table |
| Editor.TableEditor.Load | VisualSQL-main/src/components/EditTableDialog.tsx:67-69 | a new table prop replaces the working copy |
| Editor.TableEditor.AddColumn | VisualSQL-main/src/components/EditTableDialog.tsx:71-85 | appends `new_column`, `VARCHAR(255)`, nullable, not a key, not unique, default `''`; nothing else changes |
| Editor.TableEditor.UpdateColumn | VisualSQL-main/src/components/EditTableDialog.tsx:87-94 | only the columns change, as `UpdateColumns` says |
| Editor.TableEditor.DeleteColumn | VisualSQL-main/src/components/EditTableDialog.tsx:96-101 | only the columns change, as `DeleteColumns` says |
| Editor.TableEditor.Rename | VisualSQL-main/src/components/EditTableDialog.tsx:120-121 | only the name changes; id and columns are untouched |
| Editor.TableEditor.Save | VisualSQL-main/src/components/EditTableDialog.tsx:103-105 | hands back the whole working copy |
| Panels.TableNameToAdd | VisualSQL-main/src/components/DatabaseToolbar.tsx:34-40 | no name for blank input; otherwise the trimmed, non-empty input |
| Panels.TableNameToAddStable | VisualSQL-main/src/components/DatabaseSidebar.tsx:37-43 | a name that passed the guard passes it again unchanged |
| Panels.AddTableDialog.constructor | VisualSQL-main/src/components/DatabaseToolbar.tsx:31-32 | the input starts empty and the dialog closed |
| Panels.AddTableDialog.Type | VisualSQL-main/src/components/DatabaseToolbar.tsx:142 | typing sets the input and nothing else |
| Panels.AddTableDialog.SetOpen | VisualSQL-main/src/components/DatabaseToolbar.tsx:127 | opening or closing the dialog keeps the input |
| Panels.AddTableDialog.CanCreate | VisualSQL-main/src/components/DatabaseToolbar.tsx:151 | the button is enabled exactly when pressing it adds a table |
| Panels.AddTableDialog.HandleAddTable | VisualSQL-main/src/components/DatabaseToolbar.tsx:34-40 | hands on the trimmed name when the input is not blank, then clears the input and closes the dialog; otherwise changes nothing |
| Panels.ExportSchema | VisualSQL-main/src/components/DatabaseToolbar.tsx:71-89 | `tables_count` is the number of tables, `generator` is `Database Designer Tool`, `sql` is the SQL verbatim, one exported table per table |
| Panels.ExportPointwise | VisualSQL-main/src/components/DatabaseToolbar.tsx:77-87 | exported table `i` has table `i`'s name and its columns in order, each carrying every field of the column |
| Panels.ExportColumnRoundTrip | VisualSQL-main/src/components/DatabaseSidebar.tsx:90-97 | renaming the fields back recovers the column, given its id |
| Panels.ExportJson | VisualSQL-main/src/components/DatabaseToolbar.tsx:65-102 | refuses with `No schema to export!` iff the SQL is empty; otherwise downloads the export under the dated JSON name and reports success |
| Panels.ExportJsonRefusedWhenEmpty | VisualSQL-main/src/components/DatabaseSidebar.tsx:75-79 | with the page's SQL, the JSON export is refused iff there are no tables |
| Panels.SqlFileName | VisualSQL-main/src/components/DatabaseToolbar.tsx:59-60 | `database_schema_`, the first 19 characters of the stamp with each `:` turned into `-`, then `.sql`; no `:` remains |
| Panels.JsonFileName | VisualSQL-main/src/components/DatabaseSidebar.tsx:106 | `database_schema_`, the first 10 characters of the stamp, then `.json` |
| Panels.TotalColumns | VisualSQL-main/src/components/DatabaseToolbar.tsx:121 | the column total is at least each table's column count, and zero with no tables |
| Panels.TotalColumnsAppend | VisualSQL-main/src/components/DatabaseToolbar.tsx:121 | the column total of `a + b` is the total of `a` plus that of `b` |
| Panels.TotalColumnsExported | VisualSQL-main/src/components/DatabaseSidebar.tsx:171 | the column total equals the number of exported columns |
| Panels.PrimaryKeyCount | VisualSQL-main/src/components/DatabaseSidebar.tsx:195 | a table's key count is at most its column count, and zero exactly when no column is a primary key |
| Panels.PrimaryKeyCountClause | VisualSQL-main/src/components/DatabaseSidebar.tsx:195 | a table's key count is zero iff its SQL has no key clause |
| Panels.PrimaryKeyCountAppend | VisualSQL-main/src/components/DatabaseSidebar.tsx:195 | the key count of `a + b` is the count of `a` plus that of `b` |
| Panels.TableNoun | VisualSQL-main/src/components/DatabaseToolbar.tsx:120 | the noun is `table` iff there is exactly one table |
| Toolbar.HandleResetSchema | VisualSQL-main/src/components/DatabaseToolbar.tsx:42-51 | no tables: no deletions and the error `No schema to reset!`; otherwise one deletion per table id, in table order, and success |
| Panels.OfferSql | VisualSQL-main/src/components/DatabaseToolbar.tsx:53-63 | the SQL download both panels share: refused with the given message iff the SQL is empty; otherwise the SQL under `SqlFileName` and a success message ending with that name |
| Toolbar.ExportSql | VisualSQL-main/src/components/DatabaseToolbar.tsx:53-63 | refuses with `No schema to export!` iff the SQL is empty; otherwise downloads the SQL under the dated name and names the file in the message |
| Toolbar.ExportSqlRefusedWhenEmpty | VisualSQL-main/src/components/DatabaseToolbar.tsx:54-57 | with the page's SQL, the export is refused iff there are no tables |
| Sidebar.DownloadSql | VisualSQL-main/src/components/DatabaseSidebar.tsx:45-55 | refuses with `No schema to download!` iff the SQL is empty; otherwise downloads it under the dated name and names the file in the message |
| Sidebar.CopySql | VisualSQL-main/src/components/DatabaseSidebar.tsx:57-69 | nothing is written iff the SQL is empty; otherwise the SQL verbatim; success iff there is SQL and the clipboard accepts it |
| Sidebar.SidebarRefusedWhenEmpty | VisualSQL-main/src/components/DatabaseSidebar.tsx:46-61 | with the page's SQL, download and copy are refused iff there are no tables |
| Scenarios.EmailColumnLine | VisualSQL-main/src/utils/sqlGenerator.ts:28-54 | a required, unique, non-key `VARCHAR(255)` column `email` with an empty default gives `` `email` VARCHAR(255) NOT NULL UNIQUE`` |
| Scenarios.ActiveDefault | VisualSQL-main/src/utils/sqlGenerator.ts:44-47 | the default `active` on `VARCHAR(255)` is written `'active'` |
| Scenarios.CurrentTimestampDefault | VisualSQL-main/src/utils/sqlGenerator.ts:48-50 | the default `current_timestamp` on `TIMESTAMP` is rewritten to the keyword `CURRENT_TIMESTAMP` |
| Scenarios.UpperTimestampDefault | VisualSQL-main/src/utils/sqlGenerator.ts:48-50 | the default `CURRENT_TIMESTAMP` on `TIMESTAMP` is written as the bare keyword |
| Scenarios.LowerKeywordUpper | VisualSQL-main/src/utils/sqlGenerator.ts:49 | `current_timestamp` upper-cases to `CURRENT_TIMESTAMP` |
| Scenarios.VarcharIsString | VisualSQL-main/src/utils/sqlGenerator.ts:44-46 | `VARCHAR(255)` counts as a string type |
| Scenarios.TimestampIsTimestamp | VisualSQL-main/src/utils/sqlGenerator.ts:44-49 | `TIMESTAMP` is a timestamp type and not a string type |
| Scenarios.OrdersCustomersLabel | VisualSQL-main/src/components/DatabaseCanvas.tsx:77 | connecting `orders` to `customers` labels the edge `orders → customers` |

## Left out

- `downloadSQL`, the Blob, object URL and anchor plumbing, and the clipboard write are browser I/O. A download is modelled as its file name and content, and the clipboard's outcome is a parameter.
- `JSON.stringify`: the export is modelled as a record, not as its text.
- `addEdge` from the flow library: modelled as an append. Its handling of duplicate edges is not modelled.
- Reset: only the `onDeleteTable` calls it issues are modelled. Their combined effect depends on how React batches the state updates of one handler.
- Toast notifications: only their text and kind. Their display and timing are not modelled.
- Rendering: `Home.tsx` (particle animation with floating point and randomness), the node and panel markup, `SQLCodePanel.tsx`, `getBezierPath`, edge styles, handles and the `console.log` calls.
- The toolbar header's text around the counts, including its separator character: only the counts and the noun are modelled.
- The sidebar's `handleDeleteTable` only passes the id on to `onDeleteTable`; it is covered by `Designer.Schema.DeleteTable`.
- Id generation: ids are built from clock readings given as parameters. The code does not make them unique (`col_` of the same reading can name several columns), so no uniqueness is claimed.
- Name uniqueness and escaping of `'` inside a quoted default: the code has neither, and neither does the model.
- Text.Upper: `toUpperCase` is modelled on ASCII letters only; other Unicode case mappings are not modelled.
- Designer.Schema.RemoveRelationship: requires the clicked edge to be in the edge list, as it is for every edge the canvas draws; a click on an edge removed in between is not modelled.
- Relationship.RemovalMessage: the edge's `data` is always present in the model, since every edge is made with it; the `data?` case of a missing record is not modelled.
- Editor.Merge: an update object that sets a field to `undefined` is not modelled; every given field has a value.
- Designer.Schema.Nodes: its contract gives only the node count; the positions and contents are stated by `Canvas.Layout`.
- Editor.OfferedTypesUpper: the type tests are proved for `INTEGER`, `VARCHAR(255)` and `TIMESTAMP`, not for each of the ten offered types.
