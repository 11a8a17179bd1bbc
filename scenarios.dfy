/** Concrete inputs and the exact text the generator and the canvas produce
    for them. */
module Scenarios {
  import opened Wrappers
  import opened Text
  import opened Model
  import opened SqlGenerator
  import opened Canvas
  import opened Editor

  // Literal identities the scenarios below rest on. Each one evaluates a
  // short piece of text or regroups a concatenation, so that no single proof
  // has to unfold a long literal.

  lemma VarcharUpper()
    ensures Upper("VARCHAR(255)") == "VARCHAR(255)"
  {
    UpperKeeps("VARCHAR(255)");
  }

  lemma VarcharText()
    ensures Contains("VARCHAR(255)", "VARCHAR")
  {
  }

  lemma TimestampUpper()
    ensures Upper("TIMESTAMP") == "TIMESTAMP"
  {
    UpperKeeps("TIMESTAMP");
  }

  lemma TimestampText()
    ensures Contains("TIMESTAMP", "TIMESTAMP")
    ensures !Contains("TIMESTAMP", "VARCHAR") && !Contains("TIMESTAMP", "TEXT") && !Contains("TIMESTAMP", "CHAR")
  {
  }

  lemma EmailHeadText()
    ensures "    `" + "email" + "` " + "VARCHAR(255)" == "    `email` VARCHAR(255)"
  {
  }

  lemma EmailNotNullText()
    ensures "    `email` VARCHAR(255)" + " NOT NULL" == "    `email` VARCHAR(255) NOT NULL"
  {
  }

  lemma EmailUniqueText()
    ensures "    `email` VARCHAR(255) NOT NULL" + " UNIQUE" == "    `email` VARCHAR(255) NOT NULL UNIQUE"
  {
  }

  lemma EmailLineText()
    ensures "    `" + "email" + "` " + "VARCHAR(255)" + " NOT NULL" + " UNIQUE" ==
      "    `email` VARCHAR(255) NOT NULL UNIQUE"
  {
    EmailHeadText();
    EmailNotNullText();
    EmailUniqueText();
  }

  lemma RegroupFront(h: string, a: string, b: string)
    ensures h + (a + b + "" + "") == h + a + b
  {
    assert a + b + "" + "" == a + b;
  }

  lemma NewColumnHeadText()
    ensures "    `" + "new_column" + "` " + "VARCHAR(255)" == "    `new_column` VARCHAR(255)"
  {
  }

  lemma RegroupEmpty(h: string)
    ensures h + ("" + "" + "" + "") == h
  {
  }

  lemma ActiveQuote()
    ensures "'" + "active" + "'" == "'active'"
  {
  }

  lemma CurrentTimestampUpper()
    ensures Upper("CURRENT_TIMESTAMP") == "CURRENT_TIMESTAMP"
  {
    UpperKeeps("CURRENT_TIMESTAMP");
  }

  lemma CurrentUpper()
    ensures Upper("current") == "CURRENT"
  {
  }

  lemma UnderscoreUpper()
    ensures Upper("_") == "_"
  {
  }

  lemma TimeUpper()
    ensures Upper("time") == "TIME"
  {
  }

  lemma StampUpper()
    ensures Upper("stamp") == "STAMP"
  {
  }

  lemma LowerKeywordSplit()
    ensures "current" + "_" + "time" + "stamp" == "current_timestamp"
  {
  }

  lemma UpperKeywordSplit()
    ensures "CURRENT" + "_" + "TIME" + "STAMP" == "CURRENT_TIMESTAMP"
  {
  }

  /** `VARCHAR(255)` is a string type. */
  lemma VarcharIsString()
    ensures IsStringType("VARCHAR(255)")
  {
    VarcharUpper();
    VarcharText();
    UpperTypeClasses("VARCHAR(255)");
  }

  /** `TIMESTAMP` is a timestamp type and not a string type. */
  lemma TimestampIsTimestamp()
    ensures IsTimestampType("TIMESTAMP") && !IsStringType("TIMESTAMP")
  {
    TimestampUpper();
    TimestampText();
    UpperTypeClasses("TIMESTAMP");
  }

  /** A required, unique, non-key `VARCHAR(255)` column with an empty default
      gets `NOT NULL UNIQUE` and no `DEFAULT`. */
  lemma EmailColumnLine(id: string)
    ensures ColumnDefinition(Column(id, "email", "VARCHAR(255)", false, false, true, Some(""))) ==
      "    `email` VARCHAR(255) NOT NULL UNIQUE"
  {
    var c := Column(id, "email", "VARCHAR(255)", false, false, true, Some(""));
    assert DeclaredDefault(c.defaultValue) == None;
    PartTexts(c);
    ColumnDefinitionParts(c);
    VarcharUpper();
    RegroupFront(ColumnHead(c), " NOT NULL", " UNIQUE");
    EmailLineText();
  }

  /** The column "Add Column" appends is nullable, not unique, not a key and
      has an empty default, so its line carries no constraint. */
  lemma NewColumnLine(clock: nat)
    ensures ColumnDefinition(NewColumn(clock)) == "    `new_column` VARCHAR(255)"
  {
    var c := NewColumn(clock);
    assert DeclaredDefault(c.defaultValue) == None;
    PartTexts(c);
    ColumnDefinitionParts(c);
    VarcharUpper();
    RegroupEmpty(ColumnHead(c));
    NewColumnHeadText();
  }

  /** On a string type the default `active` is quoted. */
  lemma ActiveDefault()
    ensures DefaultLiteral("VARCHAR(255)", "active") == "'active'"
  {
    ActiveQuote();
    VarcharIsString();
  }

  /** `current_timestamp` upper-cases to the keyword, piece by piece. */
  lemma LowerKeywordUpper()
    ensures Upper("current_timestamp") == "CURRENT_TIMESTAMP"
  {
    LowerKeywordSplit();
    UpperAppend("current" + "_" + "time", "stamp");
    UpperAppend("current" + "_", "time");
    UpperAppend("current", "_");
    CurrentUpper();
    UnderscoreUpper();
    TimeUpper();
    StampUpper();
    UpperKeywordSplit();
  }

  /** On a `TIMESTAMP` column the default `current_timestamp`, written in
      lower case, is rewritten to the keyword `CURRENT_TIMESTAMP`. */
  lemma CurrentTimestampDefault()
    ensures DefaultLiteral("TIMESTAMP", "current_timestamp") == "CURRENT_TIMESTAMP"
  {
    TimestampIsTimestamp();
    LowerKeywordUpper();
  }

  /** Written in upper case it is kept as it is. */
  lemma UpperTimestampDefault()
    ensures DefaultLiteral("TIMESTAMP", "CURRENT_TIMESTAMP") == "CURRENT_TIMESTAMP"
  {
    TimestampIsTimestamp();
    CurrentTimestampUpper();
  }

  /** Connecting `orders` to `customers` labels the edge `orders → customers`. */
  lemma OrdersCustomersLabel(orders: Table, customers: Table, clock: nat)
    requires orders.name == "orders" && customers.name == "customers"
    requires orders.id != customers.id
    ensures var r := Connection([orders, customers], orders.id, customers.id, clock);
      r.Some? && r.value.labelText == "orders → customers"
  {
    assert TableIds([orders, customers])[0] == orders.id;
    assert TableIds([orders, customers])[1] == customers.id;
    assert "orders" + " → " + "customers" == "orders → customers";
  }
}
