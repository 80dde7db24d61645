/** The DDL emitter, `PostgreSql`: it appends DROP statements, one CREATE TABLE
    per table and one batch of ALTER TABLE ... ADD FOREIGN KEY statements to a
    text buffer. */
module PgSql {
  import opened Text
  import opened Dia
  import opened Diagnostics
  import opened Resolver

  /** The first text of the buffer; the clock reading is a parameter. */
  function Header(timestamp: string): string
  {
    "\n-- Generated at " + timestamp + "\n\n"
  }

  // drop_tables

  function DropStmt(name: string): string
  {
    "DROP TABLE IF EXISTS " + name + " CASCADE;\n"
  }

  function DropStmts(names: seq<string>): string
  {
    if |names| == 0 then "" else DropStmts(names[..|names| - 1]) + DropStmt(names[|names| - 1])
  }

  function DropText(names: seq<string>): string
  {
    DropStmts(names) + "\n"
  }

  // create_table_sql

  /** `reduce(lambda longest, col: max(longest, len(col.name())), columns, 0)`. */
  function Longest(cols: seq<Attribute>): (r: nat)
    ensures forall k :: 0 <= k < |cols| ==> |cols[k].name| <= r
    ensures (|cols| == 0 && r == 0) || exists k :: 0 <= k < |cols| && |cols[k].name| == r
  {
    if |cols| == 0 then 0
    else
      var m := Longest(cols[..|cols| - 1]);
      var n := |cols[|cols| - 1].name|;
      if m < n then n else m
  }

  function CommentLine(col: Attribute): string
  {
    if col.comment != "" then "\t-- " + col.comment + "\n" else ""
  }

  /** The constraints of one column: `PRIMARY KEY ` takes the place of
      `UNIQUE ` and `NOT NULL ` when the column is primary and the table has no
      compound key. */
  function Constraints(col: Attribute, multi: bool): string
  {
    if col.IsPrimary() && !multi then "PRIMARY KEY "
    else (if col.IsUnique() then "UNIQUE " else "") + (if !col.IsNullable() then "NOT NULL " else "")
  }

  function DefaultClause(col: Attribute): string
  {
    if col.defaultValue != "" then "DEFAULT " + col.defaultValue + " " else ""
  }

  /** The comment line, and the name padded to `width`, its type and a tab. */
  function ColumnHead(col: Attribute, width: int): string
  {
    CommentLine(col) + ("\t" + Pad(col.name, width) + "\t" + col.typeName + "\t")
  }

  /** The constraints and the default. */
  function ColumnSuffix(col: Attribute, multi: bool): string
  {
    Constraints(col, multi) + DefaultClause(col)
  }

  function ColumnLine(col: Attribute, width: int, multi: bool): string
  {
    ColumnHead(col, width) + ColumnSuffix(col, multi)
  }

  function ColumnLines(cols: seq<Attribute>, width: int, multi: bool): (lines: seq<string>)
    ensures |lines| == |cols|
  {
    seq(|cols|, k requires 0 <= k < |cols| => ColumnLine(cols[k], width, multi))
  }

  lemma ColumnLinesSnoc(cols: seq<Attribute>, i: nat, width: int, multi: bool)
    requires i < |cols|
    ensures ColumnLines(cols[..i + 1], width, multi) == ColumnLines(cols[..i], width, multi) + [ColumnLine(cols[i], width, multi)]
  {
    var a := ColumnLines(cols[..i + 1], width, multi);
    var b := ColumnLines(cols[..i], width, multi) + [ColumnLine(cols[i], width, multi)];
    forall k | 0 <= k < |a|
      ensures a[k] == b[k]
    {
      assert cols[..i + 1][k] == cols[k];
      if k < i {
        assert cols[..i][k] == cols[k];
      }
    }
  }

  /** The warning that one more column gives after `seen`. */
  function NewWarning(seen: seq<Attribute>, col: Attribute, multi: bool): seq<Diagnostic>
  {
    var previous := PreviousPrimary(seen, multi);
    if col.IsPrimary() && !multi && previous != "" then [DuplicatePrimary(previous, col.name)] else []
  }

  lemma PrimaryWarningsSnoc(cols: seq<Attribute>, i: nat, multi: bool)
    requires i < |cols|
    ensures PrimaryWarnings(cols[..i + 1], multi) == PrimaryWarnings(cols[..i], multi) + NewWarning(cols[..i], cols[i], multi)
    ensures PreviousPrimary(cols[..i + 1], multi)
      == if cols[i].IsPrimary() && !multi then cols[i].name else PreviousPrimary(cols[..i], multi)
  {
    assert cols[..i + 1][..i] == cols[..i];
  }

  /** `not multi_key` is false: a compound key with at least one field. */
  predicate IsMulti(key: Option<seq<Option<string>>>)
  {
    key.Some? && |key.value| > 0
  }

  function Strings(xs: seq<Option<string>>): (r: seq<string>)
    requires None !in xs
    ensures |r| == |xs|
  {
    seq(|xs|, i requires 0 <= i < |xs| => xs[i].value)
  }

  function KeyLine(fields: seq<string>): string
  {
    "\tPRIMARY KEY (" + Join(", ", fields) + ")"
  }

  function DuplicatePrimary(previous: string, current: string): Diagnostic
  {
    Warning("Multiple keys with no compound definition. Previous " + Repr(previous)
      + " current " + Repr(current) + ".")
  }

  /** `previous_primary` after the loop has seen `cols`; "" stands for `None`,
      which Python treats the same way. */
  function PreviousPrimary(cols: seq<Attribute>, multi: bool): string
  {
    if |cols| == 0 then ""
    else if cols[|cols| - 1].IsPrimary() && !multi then cols[|cols| - 1].name
    else PreviousPrimary(cols[..|cols| - 1], multi)
  }

  /** The warnings the column loop gives for `cols`. */
  function PrimaryWarnings(cols: seq<Attribute>, multi: bool): seq<Diagnostic>
  {
    if |cols| == 0 then []
    else
      var init := cols[..|cols| - 1];
      PrimaryWarnings(init, multi) + NewWarning(init, cols[|cols| - 1], multi)
  }

  function TableHead(t: TableVal): string
  {
    (if t.shape.comment != "" then "-- " + t.shape.comment + "\n" else "")
      + ("CREATE TABLE " + t.shape.name + " (\n")
  }

  /** What one call of a DDL step appends, the warnings it gives, and the
      exception that ends it, if any. */
  datatype Emitted = Emitted(text: string, msgs: seq<Diagnostic>, failure: Option<Failure>)

  function TableLines(t: TableVal): seq<string>
    requires var key := MultiColumnKey(t); IsMulti(key) ==> None !in key.value
  {
    var cols := t.shape.attributes;
    var key := MultiColumnKey(t);
    var lines := ColumnLines(cols, Longest(cols), IsMulti(key));
    if IsMulti(key) then lines + [KeyLine(Strings(key.value))] else lines
  }

  /** The compound key names a field that did not resolve, so
      `", ".join(multi_key)` raises. */
  predicate KeyUnresolved(t: TableVal)
  {
    var key := MultiColumnKey(t);
    IsMulti(key) && None in key.value
  }

  function CreateTable(t: TableVal): Emitted
  {
    var cols := t.shape.attributes;
    var key := MultiColumnKey(t);
    var warnings := PrimaryWarnings(cols, IsMulti(key));
    if KeyUnresolved(t) then Emitted(TableHead(t), warnings, Some(TypeError))
    else Emitted(TableHead(t) + Join(",\n", TableLines(t)) + "\n);\n\n", warnings, None)
  }

  // create_references_sql

  function RefLine(r: Shape): string
    requires HasEnds(r) && Connected(r)
  {
    "ALTER TABLE ONLY " + OwnerTable(r).value + " ADD FOREIGN KEY (" + Str(ForeignKey(r))
      + ") REFERENCES " + TargetTable(r).value + " (" + Str(TargetField(r)) + ")"
  }

  /** One statement per connected reference, in order. */
  function RefLines(refs: seq<Shape>): seq<string>
    requires AllHaveEnds(refs)
  {
    if |refs| == 0 then []
    else
      var r := refs[|refs| - 1];
      RefLines(refs[..|refs| - 1]) + if Connected(r) then [RefLine(r)] else []
  }

  function ReferencesText(refs: seq<Shape>): string
    requires AllHaveEnds(refs)
  {
    Join(";\n", RefLines(refs)) + ";\n\n"
  }

  /** The CREATE TABLE steps for `ts` in order; an exception stops them. */
  function CreateAll(ts: seq<TableVal>): Emitted
  {
    if |ts| == 0 then Emitted("", [], None)
    else
      var e := CreateAll(ts[..|ts| - 1]);
      if e.failure.Some? then e
      else
        var one := CreateTable(ts[|ts| - 1]);
        Emitted(e.text + one.text, e.msgs + one.msgs, one.failure)
  }

  class PostgreSql {
    var sql: string

    constructor (timestamp: string)
      ensures sql == Header(timestamp)
    {
      sql := Header(timestamp);
    }

    /** `PostgreSql.drop_tables`. */
    method DropTables(names: seq<string>)
      modifies this
      ensures sql == old(sql) + DropText(names)
    {
      var i := 0;
      while i < |names|
        invariant 0 <= i <= |names|
        invariant sql == old(sql) + DropStmts(names[..i])
      {
        assert names[..i + 1][..i] == names[..i];
        assert DropStmts(names[..i + 1]) == DropStmts(names[..i]) + DropStmt(names[i]);
        sql := sql + DropStmt(names[i]);
        AppendAssoc(old(sql), DropStmts(names[..i]), DropStmt(names[i]));
        i := i + 1;
      }
      assert names[..i] == names;
      sql := sql + "\n";
    }

    /** One iteration of the column loop of `create_table_sql`
        (postgresql.py:260-279): the line, the new `previous_primary`, and the
        duplicate-primary warning. */
    method RenderColumn(col: Attribute, longest: int, multi: bool, previousPrimary: string, sink: Sink)
        returns (colLine: string, previousPrimary': string)
      modifies sink
      ensures colLine == ColumnLine(col, longest, multi)
      ensures previousPrimary' == if col.IsPrimary() && !multi then col.name else previousPrimary
      ensures sink.messages == old(sink.messages)
        + if col.IsPrimary() && !multi && previousPrimary != "" then [DuplicatePrimary(previousPrimary, col.name)] else []
    {
      previousPrimary' := previousPrimary;
      colLine := "";
      if col.comment != "" {
        colLine := colLine + ("\t-- " + col.comment + "\n");
      }
      assert colLine == CommentLine(col);
      colLine := colLine + ("\t" + Pad(col.name, longest) + "\t" + col.typeName + "\t");
      ghost var head := colLine;
      if col.IsPrimary() && !multi {
        if previousPrimary != "" {
          sink.Message(WarningLevel, DuplicatePrimary(previousPrimary, col.name).text);
        }
        previousPrimary' := col.name;
        colLine := colLine + "PRIMARY KEY ";
      } else {
        if col.IsUnique() {
          colLine := colLine + "UNIQUE ";
        }
        if !col.IsNullable() {
          colLine := colLine + "NOT NULL ";
        }
      }
      assert colLine == head + Constraints(col, multi);
      if col.defaultValue != "" {
        colLine := colLine + ("DEFAULT " + col.defaultValue + " ");
      }
      AppendAssoc(head, Constraints(col, multi), DefaultClause(col));
    }

    /** The column loop of `create_table_sql` (postgresql.py:257-279). */
    method RenderColumns(cols: seq<Attribute>, longest: int, multi: bool, sink: Sink)
        returns (tableLines: seq<string>)
      modifies sink
      ensures tableLines == ColumnLines(cols, longest, multi)
      ensures sink.messages == old(sink.messages) + PrimaryWarnings(cols, multi)
    {
      var previousPrimary := "";
      tableLines := [];
      var i := 0;
      while i < |cols|
        invariant 0 <= i <= |cols|
        invariant tableLines == ColumnLines(cols[..i], longest, multi)
        invariant previousPrimary == PreviousPrimary(cols[..i], multi)
        invariant sink.messages == old(sink.messages) + PrimaryWarnings(cols[..i], multi)
      {
        assert cols[..i + 1][..i] == cols[..i];
        var colLine;
        colLine, previousPrimary := RenderColumn(cols[i], longest, multi, previousPrimary, sink);
        ColumnLinesSnoc(cols, i, longest, multi);
        PrimaryWarningsSnoc(cols, i, multi);
        AppendAssoc(old(sink.messages), PrimaryWarnings(cols[..i], multi), NewWarning(cols[..i], cols[i], multi));
        tableLines := tableLines + [colLine];
        i := i + 1;
      }
      assert cols[..i] == cols;
    }

    /** `PostgreSql.create_table_sql`. */
    method CreateTableSql(table: DiaTable, sink: Sink) returns (failure: Option<Failure>)
      modifies this, sink
      ensures sql == old(sql) + CreateTable(table.Value()).text
      ensures sink.messages == old(sink.messages) + CreateTable(table.Value()).msgs
      ensures failure == CreateTable(table.Value()).failure
    {
      ghost var tv := table.Value();
      var shape := table.shape;
      if shape.comment != "" {
        sql := sql + ("-- " + shape.comment + "\n");
      }
      sql := sql + ("CREATE TABLE " + shape.name + " (\n");
      assert sql == old(sql) + TableHead(tv);
      var cols := shape.attributes;
      var longest := Longest(cols);
      var multiKey := MultiColumnKey(table.Value());
      var multi := IsMulti(multiKey);
      var tableLines := RenderColumns(cols, longest, multi, sink);
      if multi {
        if None in multiKey.value {
          assert table.Value() == tv;
          return Some(TypeError);
        }
        tableLines := tableLines + [KeyLine(Strings(multiKey.value))];
      }
      assert tableLines == TableLines(tv);
      ghost var body := Join(",\n", tableLines);
      sql := sql + Join(",\n", tableLines);
      AppendAssoc(old(sql), TableHead(tv), body);
      sql := sql + "\n);\n\n";
      AppendAssoc(old(sql), TableHead(tv) + body, "\n);\n\n");
      failure := None;
      assert table.Value() == tv;
    }

    /** `PostgreSql.create_references_sql`. */
    method CreateReferencesSql(refs: seq<Shape>)
      requires AllHaveEnds(refs)
      modifies this
      ensures sql == old(sql) + ReferencesText(refs)
    {
      var refLines := [];
      var i := 0;
      while i < |refs|
        invariant 0 <= i <= |refs|
        invariant refLines == RefLines(refs[..i])
      {
        assert refs[..i + 1][..i] == refs[..i];
        var ref := refs[i];
        var tblName := OwnerTable(ref);
        var refTblName := TargetTable(ref);
        if Truthy(tblName) && Truthy(refTblName) {
          var foreignKey := ForeignKey(ref);
          var refField := TargetField(ref);
          refLines := refLines + ["ALTER TABLE ONLY " + tblName.value + " ADD FOREIGN KEY (" + Str(foreignKey)
            + ") REFERENCES " + refTblName.value + " (" + Str(refField) + ")"];
        }
        i := i + 1;
      }
      assert refs[..i] == refs;
      sql := sql + Join(";\n", refLines);
      sql := sql + ";\n\n";
    }
  }
}
