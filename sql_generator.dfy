/** `generateSQL`: the text of one `CREATE TABLE` statement per table, in table
    order, each column on its own line followed by its constraints, and a
    `PRIMARY KEY` clause when the table has primary-key columns. Relationships
    never reach the SQL. */
module SqlGenerator {
  import opened Wrappers
  import opened Text
  import opened Seqs
  import opened Model

  /** Types whose defaults are written as quoted string literals. */
  predicate IsStringType(dataType: string) {
    var t := Upper(dataType);
    Contains(t, "VARCHAR") || Contains(t, "TEXT") || Contains(t, "CHAR")
  }

  predicate IsTimestampType(dataType: string) {
    Contains(Upper(dataType), "TIMESTAMP")
  }

  /** Types for which a primary key is given `AUTO_INCREMENT`. */
  predicate IsAutoIncrementType(dataType: string) {
    var t := Upper(dataType);
    Contains(t, "INT") || Contains(t, "SERIAL")
  }

  /** For a type written in upper case, the three classifications are plain
      substring tests on the type itself. */
  lemma UpperTypeClasses(dataType: string)
    requires Upper(dataType) == dataType
    ensures IsStringType(dataType) <==>
      Contains(dataType, "VARCHAR") || Contains(dataType, "TEXT") || Contains(dataType, "CHAR")
    ensures IsTimestampType(dataType) <==> Contains(dataType, "TIMESTAMP")
    ensures IsAutoIncrementType(dataType) <==> Contains(dataType, "INT") || Contains(dataType, "SERIAL")
  {
  }

  /** The default a column declares: none when the value is absent or blank,
      otherwise the value with surrounding whitespace trimmed. */
  function DeclaredDefault(value: Option<string>): (r: Option<string>)
    ensures r.None? <==> value.None? || forall i :: 0 <= i < |value.value| ==> IsWhitespace(value.value[i])
    ensures r.Some? ==> r.value == Trim(value.value) && r.value != ""
  {
    if value.Some? && Trim(value.value) != "" then Some(Trim(value.value)) else None
  }

  /** How a declared default `value` is written for a column of `dataType`.
      String types quote it (without escaping); otherwise it is written bare,
      and the only rewrite is that a timestamp default spelled
      `current_timestamp` in any case becomes `CURRENT_TIMESTAMP`. */
  function DefaultLiteral(dataType: string, value: string): (r: string)
    ensures IsStringType(dataType) ==> r == "'" + value + "'"
    ensures !IsStringType(dataType) ==> Upper(r) == Upper(value)
    ensures !IsStringType(dataType) && IsTimestampType(dataType) && Upper(value) == "CURRENT_TIMESTAMP" ==>
              r == "CURRENT_TIMESTAMP"
    ensures !IsStringType(dataType) && r != value ==>
              IsTimestampType(dataType) && r == "CURRENT_TIMESTAMP"
  {
    if IsStringType(dataType) then "'" + value + "'"
    else if IsTimestampType(dataType) && Upper(value) == "CURRENT_TIMESTAMP" then
      UpperIdempotent(value);
      "CURRENT_TIMESTAMP"
    else value
  }

  /** The constraints a column line can carry, as they are appended. */
  datatype Constraint = NotNull | Unique | Default(literal: string) | AutoIncrement

  /** The position of each kind of constraint in a column line. */
  function Rank(k: Constraint): nat {
    match k
    case NotNull => 0
    case Unique => 1
    case Default(_) => 2
    case AutoIncrement => 3
  }

  function RenderConstraint(k: Constraint): string {
    match k
    case NotNull => " NOT NULL"
    case Unique => " UNIQUE"
    case Default(literal) => " DEFAULT " + literal
    case AutoIncrement => " AUTO_INCREMENT"
  }

  /** The constraints' texts one after another. */
  function RenderConstraints(ks: seq<Constraint>): string {
    Concat(Map(ks, RenderConstraint))
  }

  lemma RenderConstraintsAppend(a: seq<Constraint>, b: seq<Constraint>)
    ensures RenderConstraints(a + b) == RenderConstraints(a) + RenderConstraints(b)
  {
    MapAppend(a, b, RenderConstraint);
    ConcatAppend(Map(a, RenderConstraint), Map(b, RenderConstraint));
  }

  /** The text of a non-empty list starts with its first constraint's text. */
  lemma RenderConstraintsFirst(ks: seq<Constraint>)
    requires |ks| > 0
    ensures RenderConstraints(ks) == RenderConstraint(ks[0]) + RenderConstraints(ks[1..])
  {
    assert ks == [ks[0]] + ks[1..];
    RenderConstraintsAppend([ks[0]], ks[1..]);
    assert Map([ks[0]], RenderConstraint) == [RenderConstraint(ks[0])];
    assert Concat([RenderConstraint(ks[0])]) == RenderConstraint(ks[0]);
  }

  /** A single constraint when `present`, none otherwise. */
  function Optional(present: bool, k: Constraint): seq<Constraint> {
    if present then [k] else []
  }

  /** An optional constraint renders as its text or as nothing. */
  lemma RenderOptional(present: bool, k: Constraint)
    ensures RenderConstraints(Optional(present, k)) == if present then RenderConstraint(k) else ""
  {
    if present {
      assert Map([k], RenderConstraint) == [RenderConstraint(k)];
      assert Concat([RenderConstraint(k)]) == RenderConstraint(k);
    }
  }

  function NotNullPart(column: Column): seq<Constraint> {
    Optional(!column.isNullable, NotNull)
  }

  function UniquePart(column: Column): seq<Constraint> {
    Optional(column.isUnique && !column.isPrimaryKey, Unique)
  }

  function DefaultPart(column: Column): seq<Constraint> {
    var d := DeclaredDefault(column.defaultValue);
    Optional(d.Some?, Default(if d.Some? then DefaultLiteral(column.dataType, d.value) else ""))
  }

  function AutoIncrementPart(column: Column): seq<Constraint> {
    Optional(column.isPrimaryKey && IsAutoIncrementType(column.dataType), AutoIncrement)
  }

  /** The constraints of a column's line, in the order they are appended. */
  function Constraints(column: Column): seq<Constraint> {
    NotNullPart(column) + UniquePart(column) + DefaultPart(column) + AutoIncrementPart(column)
  }

  /** Every constraint of a column line comes from exactly one of the four
      parts. */
  lemma ConstraintSources(column: Column, k: Constraint)
    ensures k in Constraints(column) <==>
      k in NotNullPart(column) || k in UniquePart(column) || k in DefaultPart(column) || k in AutoIncrementPart(column)
  {
    var nn, uq, df, ai := NotNullPart(column), UniquePart(column), DefaultPart(column), AutoIncrementPart(column);
    assert Constraints(column) == nn + uq + df + ai;
  }

  /** NOT NULL exactly when the column is not nullable (whatever its
      primary-key flag), UNIQUE exactly when it is unique and not a primary key,
      AUTO_INCREMENT exactly for primary keys of an integer or serial type. */
  lemma ConstraintFlags(column: Column)
    ensures NotNull in Constraints(column) <==> !column.isNullable
    ensures Unique in Constraints(column) <==> column.isUnique && !column.isPrimaryKey
    ensures AutoIncrement in Constraints(column) <==> column.isPrimaryKey && IsAutoIncrementType(column.dataType)
  {
    ConstraintSources(column, NotNull);
    ConstraintSources(column, Unique);
    ConstraintSources(column, AutoIncrement);
  }

  /** A DEFAULT is present exactly when the declared default is not blank, and
      then it carries that default's literal. */
  lemma ConstraintDefault(column: Column)
    ensures var d := DeclaredDefault(column.defaultValue);
      d.Some? ==> Default(DefaultLiteral(column.dataType, d.value)) in Constraints(column)
    ensures var d := DeclaredDefault(column.defaultValue);
      forall k :: k in Constraints(column) && k.Default? ==>
        d.Some? && k.literal == DefaultLiteral(column.dataType, d.value)
  {
    var d := DeclaredDefault(column.defaultValue);
    if d.Some? {
      ConstraintSources(column, Default(DefaultLiteral(column.dataType, d.value)));
    }
    forall k | k in Constraints(column) && k.Default?
      ensures d.Some? && k.literal == DefaultLiteral(column.dataType, d.value)
    {
      ConstraintSources(column, k);
    }
  }

  /** Ranks strictly increase along `ks`: each kind occurs at most once and
      the kinds come in the order NOT NULL, UNIQUE, DEFAULT, AUTO_INCREMENT. */
  predicate Ranked(ks: seq<Constraint>) {
    forall i, j :: 0 <= i < j < |ks| ==> Rank(ks[i]) < Rank(ks[j])
  }

  /** Every rank in `ks` lies in `lo..hi-1`. */
  predicate RanksWithin(ks: seq<Constraint>, lo: nat, hi: nat) {
    forall i :: 0 <= i < |ks| ==> lo <= Rank(ks[i]) < hi
  }

  /** Two ranked lists whose ranks lie in consecutive ranges are ranked when
      put together. */
  lemma RankedJoin(a: seq<Constraint>, b: seq<Constraint>, lo: nat, mid: nat, hi: nat)
    requires lo <= mid <= hi
    requires Ranked(a) && RanksWithin(a, lo, mid)
    requires Ranked(b) && RanksWithin(b, mid, hi)
    ensures Ranked(a + b) && RanksWithin(a + b, lo, hi)
  {
    var ab := a + b;
    forall i, j | 0 <= i < j < |ab|
      ensures Rank(ab[i]) < Rank(ab[j])
    {
      if j < |a| {
        assert ab[i] == a[i] && ab[j] == a[j];
      } else if i < |a| {
        assert ab[i] == a[i] && ab[j] == b[j - |a|];
      } else {
        assert ab[i] == b[i - |a|] && ab[j] == b[j - |a|];
      }
    }
    forall i | 0 <= i < |ab|
      ensures lo <= Rank(ab[i]) < hi
    {
      if i < |a| {
        assert ab[i] == a[i];
      } else {
        assert ab[i] == b[i - |a|];
      }
    }
  }

  lemma OptionalRanked(present: bool, k: Constraint)
    ensures Ranked(Optional(present, k)) && RanksWithin(Optional(present, k), Rank(k), Rank(k) + 1)
  {
  }

  /** Four optional constraints of the four kinds, in rank order, are ranked
      when put together. */
  lemma RankedOptionals(p0: bool, p1: bool, p2: bool, p3: bool, literal: string)
    ensures Ranked(Optional(p0, NotNull) + Optional(p1, Unique) + Optional(p2, Default(literal)) + Optional(p3, AutoIncrement))
  {
    var a, b, c, d := Optional(p0, NotNull), Optional(p1, Unique), Optional(p2, Default(literal)), Optional(p3, AutoIncrement);
    OptionalRanked(p0, NotNull);
    OptionalRanked(p1, Unique);
    OptionalRanked(p2, Default(literal));
    OptionalRanked(p3, AutoIncrement);
    RankedJoin(a, b, 0, 1, 2);
    RankedJoin(a + b, c, 0, 2, 3);
    RankedJoin(a + b + c, d, 0, 3, 4);
  }

  /** The constraints of every column line are ranked. */
  lemma ConstraintOrder(column: Column)
    ensures Ranked(Constraints(column))
  {
    var d := DeclaredDefault(column.defaultValue);
    RankedOptionals(!column.isNullable, column.isUnique && !column.isPrimaryKey, d.Some?,
      column.isPrimaryKey && IsAutoIncrementType(column.dataType),
      if d.Some? then DefaultLiteral(column.dataType, d.value) else "");
  }

  /** The start of a column line: four spaces, the back-quoted name, a space
      and the upper-cased type. */
  function ColumnHead(column: Column): string {
    "    `" + column.name + "` " + Upper(column.dataType)
  }

  /** One column line: the head followed by the rendered constraints. */
  function ColumnDefinition(column: Column): string {
    ColumnHead(column) + RenderConstraints(Constraints(column))
  }

  /** A column line opens with four spaces, the back-quoted name, a space and
      the upper-cased type, whatever constraints follow. */
  lemma ColumnLineHead(column: Column)
    ensures StartsWith(ColumnDefinition(column), "    `" + column.name + "` ")
    ensures ColumnDefinition(column)[..|ColumnHead(column)|] == ColumnHead(column)
    ensures ColumnDefinition(column)[|ColumnHead(column)| - |column.dataType|..|ColumnHead(column)|] == Upper(column.dataType)
  {
    var open := "    `" + column.name + "` ";
    var line := ColumnDefinition(column);
    assert ColumnHead(column) == open + Upper(column.dataType);
    assert line[..|open|] == open;
  }

  /** The start of every rendered constraint, without a DEFAULT's literal. */
  function Keyword(k: Constraint): string {
    match k
    case NotNull => " NOT NULL"
    case Unique => " UNIQUE"
    case Default(_) => " DEFAULT "
    case AutoIncrement => " AUTO_INCREMENT"
  }

  /** The constraint text can be read from its front: it starts with a kind's
      keyword exactly when the first constraint is of that kind (the keywords
      differ in their second character). */
  lemma FirstConstraintReadable(ks: seq<Constraint>, k: Constraint)
    ensures StartsWith(RenderConstraints(ks), Keyword(k)) <==>
              |ks| > 0 && Rank(ks[0]) == Rank(k)
  {
    if |ks| > 0 {
      var head := RenderConstraint(ks[0]);
      var text := head + RenderConstraints(ks[1..]);
      RenderConstraintsFirst(ks);
      KeywordLeads(ks[0]);
      KeywordsDistinct(ks[0], k);
      var key := Keyword(ks[0]);
      assert text[1] == key[1];
      if Rank(ks[0]) == Rank(k) {
        assert text[..|key|] == head[..|key|];
      }
    }
  }

  /** Each rendered constraint starts with its keyword. */
  lemma KeywordLeads(k: Constraint)
    ensures |Keyword(k)| >= 2 && StartsWith(RenderConstraint(k), Keyword(k))
  {
  }

  /** The keywords of two kinds agree exactly when the kinds do, and then they
      already differ in their second character. */
  lemma KeywordsDistinct(k1: Constraint, k2: Constraint)
    ensures Rank(k1) == Rank(k2) ==> Keyword(k1) == Keyword(k2)
    ensures Rank(k1) != Rank(k2) ==> Keyword(k1)[1] != Keyword(k2)[1]
  {
  }

  /** What a reader of a column line sees after its head: it starts with
      ` NOT NULL` exactly when the column is not nullable, and what follows that
      (if present) starts with ` UNIQUE` exactly when the column is unique and
      not a primary key. */
  lemma ColumnLineReadable(column: Column)
    ensures var rest := ColumnDefinition(column)[|ColumnHead(column)|..];
      && (StartsWith(rest, " NOT NULL") <==> !column.isNullable)
      && var afterNotNull := if column.isNullable then rest else rest[|" NOT NULL"|..];
         StartsWith(afterNotNull, " UNIQUE") <==> column.isUnique && !column.isPrimaryKey
  {
    var ks := Constraints(column);
    var rest := ColumnDefinition(column)[|ColumnHead(column)|..];
    assert rest == RenderConstraints(ks);
    FirstConstraintReadable(ks, NotNull);
    if column.isNullable {
      FirstConstraintReadable(ks, Unique);
    } else {
      assert ks[0] == NotNull;
      RenderConstraintsFirst(ks);
      assert rest[|" NOT NULL"|..] == RenderConstraints(ks[1..]);
      FirstConstraintReadable(ks[1..], Unique);
    }
  }

  function IsPrimaryKey(column: Column): bool {
    column.isPrimaryKey
  }

  /** The primary-key columns, in column order. */
  function PrimaryKeyColumns(columns: seq<Column>): seq<Column> {
    Filter(columns, IsPrimaryKey)
  }

  /** Exactly the primary-key columns are listed, and in column order. */
  lemma PrimaryKeysExact(a: seq<Column>, b: seq<Column>, column: Column)
    ensures column in PrimaryKeyColumns(a) <==> column in a && column.isPrimaryKey
    ensures PrimaryKeyColumns(a + b) == PrimaryKeyColumns(a) + PrimaryKeyColumns(b)
  {
    FilterMembership(a, IsPrimaryKey, column);
    FilterAppend(a, b, IsPrimaryKey);
  }

  /** A column's name between back-quotes, as the key clause lists it. */
  function QuotedName(column: Column): string {
    "`" + column.name + "`"
  }

  /** The trailing `PRIMARY KEY (...)` clause of a table, present exactly when
      some column is a primary key. */
  function PrimaryKeyClause(columns: seq<Column>): (r: string)
    ensures r == "" <==> forall i :: 0 <= i < |columns| ==> !columns[i].isPrimaryKey
  {
    FilterEmpty(columns, IsPrimaryKey);
    var primaryKeys := PrimaryKeyColumns(columns);
    if |primaryKeys| > 0 then ",\n    PRIMARY KEY (" + Join(Map(primaryKeys, QuotedName), ", ") + ")" else ""
  }

  /** The column lines of a table, in column order. */
  function ColumnLines(columns: seq<Column>): seq<string> {
    Map(columns, ColumnDefinition)
  }

  const BlockEnd := "\n);\n\n"

  /** A text framed like a statement: it starts with `C` and ends with
      `BlockEnd`. */
  predicate Framed(s: string) {
    |s| > |BlockEnd| && s[0] == 'C' && s[|s| - |BlockEnd|..] == BlockEnd
  }

  /** A `CREATE TABLE` statement with the given column text and key clause,
      up to and including its trailing blank line. */
  function Statement(name: string, lines: string, keyClause: string): (r: string)
    ensures Framed(r)
  {
    var head := "CREATE TABLE `" + name + "` (\n" + lines + keyClause;
    var r := head + BlockEnd;
    assert r[|head|..] == BlockEnd;
    r
  }

  /** The statement for one table. */
  function TableBlock(table: Table): string {
    Statement(table.name, Join(ColumnLines(table.columns), ",\n"), PrimaryKeyClause(table.columns))
  }

  /** A table's statement opens with `CREATE TABLE`, the back-quoted table
      name and ` (` on its own line, and its column text follows. */
  lemma TableBlockHeader(table: Table)
    ensures var open := "CREATE TABLE `" + table.name + "` (\n";
      StartsWith(TableBlock(table), open)
      && StartsWith(TableBlock(table)[|open|..], Join(ColumnLines(table.columns), ",\n"))
  {
    StatementOpens(table.name, Join(ColumnLines(table.columns), ",\n"), PrimaryKeyClause(table.columns));
  }

  lemma StatementOpens(name: string, lines: string, keyClause: string)
    ensures var open := "CREATE TABLE `" + name + "` (\n";
      StartsWith(Statement(name, lines, keyClause), open)
      && StartsWith(Statement(name, lines, keyClause)[|open|..], lines)
  {
    var open := "CREATE TABLE `" + name + "` (\n";
    assert Statement(name, lines, keyClause) == open + lines + keyClause + BlockEnd;
    LeadingParts(open, lines, keyClause, BlockEnd);
  }

  lemma LeadingParts(a: string, b: string, c: string, d: string)
    ensures StartsWith(a + b + c + d, a) && StartsWith((a + b + c + d)[|a|..], b)
  {
    var s := a + b + c + d;
    assert s[..|a|] == a;
    assert s[|a|..] == b + c + d;
    assert (b + c + d)[..|b|] == b;
  }

  /** The statements of all tables, one after another in table order. */
  function Script(tables: seq<Table>): string {
    Concat(Map(tables, TableBlock))
  }

  /** The script of a concatenation is the concatenation of the scripts: one
      statement per table, in input order. */
  lemma ScriptAppend(a: seq<Table>, b: seq<Table>)
    ensures Script(a + b) == Script(a) + Script(b)
  {
    MapAppend(a, b, TableBlock);
    ConcatAppend(Map(a, TableBlock), Map(b, TableBlock));
  }

  /** One more table appends its statement. */
  lemma ScriptStep(tables: seq<Table>, index: nat)
    requires index < |tables|
    ensures Script(tables[..index + 1]) == Script(tables[..index]) + TableBlock(tables[index])
  {
    assert tables[..index + 1] == tables[..index] + [tables[index]];
    ScriptAppend(tables[..index], [tables[index]]);
    assert Map([tables[index]], TableBlock) == [TableBlock(tables[index])];
    assert Concat([TableBlock(tables[index])]) == TableBlock(tables[index]);
  }

  lemma FramedAppend(prev: string, block: string)
    requires prev == "" || Framed(prev)
    requires Framed(block)
    ensures Framed(prev + block)
  {
    var s := prev + block;
    assert s[|s| - |BlockEnd|..] == block[|block| - |BlockEnd|..];
  }

  /** Framed texts one after another form a framed text. */
  lemma {:induction false} ConcatFramed(blocks: seq<string>)
    requires |blocks| > 0
    requires forall i :: 0 <= i < |blocks| ==> Framed(blocks[i])
    ensures Framed(Concat(blocks))
  {
    var prefix := blocks[..|blocks| - 1];
    if |prefix| > 0 {
      assert forall i :: 0 <= i < |prefix| ==> prefix[i] == blocks[i];
      ConcatFramed(prefix);
    }
    FramedAppend(Concat(prefix), blocks[|blocks| - 1]);
  }

  /** A non-empty script starts with `CREATE` and ends with `\n);\n\n`. */
  lemma ScriptFraming(tables: seq<Table>)
    requires |tables| > 0
    ensures Framed(Script(tables))
  {
    MapPointwise(tables, TableBlock);
    ConcatFramed(Map(tables, TableBlock));
  }

  /** Trimming a framed text removes exactly its final blank line, so that it
      ends with `);`. */
  lemma TrimFramed(s: string)
    requires Framed(s)
    ensures Trim(s) + "\n\n" == s
    ensures |Trim(s)| >= 3 && Trim(s)[|Trim(s)| - 3..] == "\n);"
    ensures !IsWhitespace(Trim(s)[|Trim(s)| - 1])
  {
    var body := s[..|s| - 2];
    assert s == body + "\n\n";
    assert body[|body| - 3..] == s[|s| - |BlockEnd|..][..3];
    TrimDropsTrailingWhitespace(body, "\n\n");
  }

  /** The SQL shown for `tables`: the blocks in table order with surrounding
      whitespace trimmed; empty exactly when there are no tables. */
  function SchemaSql(tables: seq<Table>): (r: string)
    ensures r == "" <==> |tables| == 0
  {
    if |tables| == 0 then ""
    else
      ScriptFraming(tables);
      TrimFramed(Script(tables));
      Trim(Script(tables))
  }

  /** Trimming removes only the final blank line of the last statement. */
  lemma SchemaSqlDropsBlankLine(tables: seq<Table>)
    requires |tables| > 0
    ensures SchemaSql(tables) + "\n\n" == Script(tables)
  {
    ScriptFraming(tables);
    TrimFramed(Script(tables));
  }

  lemma BlockEndSplit()
    ensures BlockEnd == "\n);" + "\n\n"
  {
  }

  lemma ScriptSingleton(table: Table)
    ensures Script([table]) == TableBlock(table)
  {
    MapSingleton(table, TableBlock);
    ConcatSingleton(TableBlock(table));
  }

  /** When the script is a text followed by the block end, the SQL is that
      text followed by `\n);`. */
  lemma SchemaSqlOfScript(tables: seq<Table>, head: string)
    requires |tables| > 0
    requires Script(tables) == head + BlockEnd
    ensures SchemaSql(tables) == head + "\n);"
  {
    SchemaSqlDropsBlankLine(tables);
    BlockEndSplit();
    AppendAssoc(head, "\n);", "\n\n");
    CancelSuffix(SchemaSql(tables), head + "\n);", "\n\n");
  }

  /** The SQL ends with the last statement's `);`. */
  lemma SchemaSqlEnding(tables: seq<Table>)
    requires |tables| > 0
    ensures var r := SchemaSql(tables);
      |r| >= 3 && r[|r| - 3..] == "\n);" && !IsWhitespace(r[|r| - 1])
  {
    ScriptFraming(tables);
    TrimFramed(Script(tables));
  }

  /** Rendering four lists one after another. */
  lemma RenderConstraints4(a: seq<Constraint>, b: seq<Constraint>, c: seq<Constraint>, d: seq<Constraint>)
    ensures RenderConstraints(a + b + c + d) ==
      RenderConstraints(a) + RenderConstraints(b) + RenderConstraints(c) + RenderConstraints(d)
  {
    RenderConstraintsAppend(a, b);
    RenderConstraintsAppend(a + b, c);
    RenderConstraintsAppend(a + b + c, d);
  }

  /** The text each part contributes to a column line. */
  lemma PartTexts(column: Column)
    ensures RenderConstraints(NotNullPart(column)) == if !column.isNullable then " NOT NULL" else ""
    ensures RenderConstraints(UniquePart(column)) == if column.isUnique && !column.isPrimaryKey then " UNIQUE" else ""
    ensures var d := DeclaredDefault(column.defaultValue);
      RenderConstraints(DefaultPart(column)) == if d.Some? then " DEFAULT " + DefaultLiteral(column.dataType, d.value) else ""
    ensures RenderConstraints(AutoIncrementPart(column)) ==
      if column.isPrimaryKey && IsAutoIncrementType(column.dataType) then " AUTO_INCREMENT" else ""
  {
    var d := DeclaredDefault(column.defaultValue);
    RenderOptional(!column.isNullable, NotNull);
    RenderOptional(column.isUnique && !column.isPrimaryKey, Unique);
    RenderOptional(d.Some?, Default(if d.Some? then DefaultLiteral(column.dataType, d.value) else ""));
    RenderOptional(column.isPrimaryKey && IsAutoIncrementType(column.dataType), AutoIncrement);
  }

  /** A column line is its head followed by the text of each part in turn. */
  lemma ColumnDefinitionParts(column: Column)
    ensures ColumnDefinition(column) ==
      ColumnHead(column) + (RenderConstraints(NotNullPart(column)) + RenderConstraints(UniquePart(column))
        + RenderConstraints(DefaultPart(column)) + RenderConstraints(AutoIncrementPart(column)))
  {
    RenderConstraints4(NotNullPart(column), UniquePart(column), DefaultPart(column), AutoIncrementPart(column));
  }

  /** Building a column line part by part, in the order of the parts, ends
      with the whole line. */
  lemma ColumnDefinitionSteps(column: Column, upToUnique: string, upToDefault: string, line: string)
    requires upToUnique == ColumnHead(column) + RenderConstraints(NotNullPart(column)) + RenderConstraints(UniquePart(column))
    requires upToDefault == upToUnique + RenderConstraints(DefaultPart(column))
    requires line == upToDefault + RenderConstraints(AutoIncrementPart(column))
    ensures line == ColumnDefinition(column)
  {
    ColumnDefinitionParts(column);
    Regroup(ColumnHead(column), RenderConstraints(NotNullPart(column)), RenderConstraints(UniquePart(column)),
      RenderConstraints(DefaultPart(column)), RenderConstraints(AutoIncrementPart(column)));
  }

  /** The default-value step of the map callback: the declared default,
      trimmed, appended after ` DEFAULT `, quoted for string types and
      normalised for `CURRENT_TIMESTAMP` on timestamp types; nothing when no
      non-blank default is declared. */
  method AppendDefault(definition: string, column: Column) returns (result: string)
    ensures result == definition + RenderConstraints(DefaultPart(column))
  {
    ghost var d := DeclaredDefault(column.defaultValue);
    RenderOptional(d.Some?, Default(if d.Some? then DefaultLiteral(column.dataType, d.value) else ""));
    result := definition;
    if column.defaultValue.Some? && Trim(column.defaultValue.value) != "" {
      var defaultValue := Trim(column.defaultValue.value);
      assert d == Some(defaultValue);
      if IsStringType(column.dataType) {
        result := result + (" DEFAULT " + ("'" + defaultValue + "'"));
        assert DefaultLiteral(column.dataType, defaultValue) == "'" + defaultValue + "'";
      } else if IsTimestampType(column.dataType) && Upper(defaultValue) == "CURRENT_TIMESTAMP" {
        result := result + " DEFAULT CURRENT_TIMESTAMP";
        TimestampDefaultText();
        assert DefaultLiteral(column.dataType, defaultValue) == "CURRENT_TIMESTAMP";
      } else {
        result := result + (" DEFAULT " + defaultValue);
        assert DefaultLiteral(column.dataType, defaultValue) == defaultValue;
      }
    } else {
      assert definition + "" == definition;
    }
  }

  /** The map callback of `generateSQL`: the head, then each applicable
      constraint appended in turn. */
  method BuildColumnDefinition(column: Column) returns (definition: string)
    ensures definition == ColumnDefinition(column)
  {
    PartTexts(column);
    definition := "    `" + column.name + "` " + Upper(column.dataType);
    ghost var head := definition;
    if !column.isNullable {
      definition := definition + " NOT NULL";
    }
    AppendWhen(head, definition, !column.isNullable, " NOT NULL");
    ghost var upToNotNull := definition;
    if column.isUnique && !column.isPrimaryKey {
      definition := definition + " UNIQUE";
    }
    AppendWhen(upToNotNull, definition, column.isUnique && !column.isPrimaryKey, " UNIQUE");
    ghost var upToUnique := definition;
    definition := AppendDefault(definition, column);
    ghost var upToDefault := definition;
    if column.isPrimaryKey && IsAutoIncrementType(column.dataType) {
      definition := definition + " AUTO_INCREMENT";
    }
    AppendWhen(upToDefault, definition, column.isPrimaryKey && IsAutoIncrementType(column.dataType), " AUTO_INCREMENT");
    ColumnDefinitionSteps(column, upToUnique, upToDefault, definition);
  }

  lemma TimestampDefaultText()
    ensures " DEFAULT CURRENT_TIMESTAMP" == " DEFAULT " + "CURRENT_TIMESTAMP"
  {
  }

  /** The statement text as the loop body appends it, piece by piece. */
  lemma StatementSteps(start: string, name: string, lines: string, keyClause: string, acc: string)
    requires acc == start + "CREATE TABLE `" + name + "` (\n" + lines + keyClause + BlockEnd
    ensures acc == start + Statement(name, lines, keyClause)
  {
  }

  /** The `map` over the columns: one definition per column, in column
      order. */
  method BuildColumnDefinitions(columns: seq<Column>) returns (definitions: seq<string>)
    ensures definitions == ColumnLines(columns)
  {
    definitions := [];
    for j := 0 to |columns|
      invariant definitions == Map(columns[..j], ColumnDefinition)
    {
      var definition := BuildColumnDefinition(columns[j]);
      assert columns[..j + 1][..j] == columns[..j];
      definitions := definitions + [definition];
    }
    assert columns[..|columns|] == columns;
  }

  /** The key clause as the loop body builds it. */
  lemma KeyClauseSteps(columns: seq<Column>, primaryKeys: seq<Column>, keyClause: string)
    requires primaryKeys == Filter(columns, IsPrimaryKey)
    requires keyClause == if |primaryKeys| > 0 then ",\n    PRIMARY KEY (" + Join(Map(primaryKeys, QuotedName), ", ") + ")" else ""
    ensures keyClause == PrimaryKeyClause(columns)
  {
  }

  /** The `forEach` callback of `generateSQL`: appends one table's statement
      to the text built so far. */
  method AppendStatement(sql: string, table: Table) returns (result: string)
    ensures result == sql + TableBlock(table)
  {
    result := sql + "CREATE TABLE `" + table.name + "` (\n";
    var columnDefinitions := BuildColumnDefinitions(table.columns);
    result := result + Join(columnDefinitions, ",\n");
    ghost var keyClause := "";
    var primaryKeys := Filter(table.columns, IsPrimaryKey);
    if |primaryKeys| > 0 {
      var pkColumns := Join(Map(primaryKeys, QuotedName), ", ");
      result := result + ",\n    PRIMARY KEY (" + pkColumns + ")";
      keyClause := ",\n    PRIMARY KEY (" + pkColumns + ")";
    }
    KeyClauseSteps(table.columns, primaryKeys, keyClause);
    result := result + "\n);\n\n";
    StatementSteps(sql, table.name, Join(columnDefinitions, ",\n"), keyClause, result);
  }

  /** `generateSQL` as written: a loop over the tables appending each
      statement to `sql`, then `trim`. */
  method GenerateSql(tables: seq<Table>) returns (sql: string)
    ensures sql == SchemaSql(tables)
  {
    if |tables| == 0 {
      return "";
    }
    sql := "";
    for index := 0 to |tables|
      invariant sql == Script(tables[..index])
    {
      ScriptStep(tables, index);
      sql := AppendStatement(sql, tables[index]);
    }
    assert tables[..|tables|] == tables;
    sql := Trim(sql);
  }
}
