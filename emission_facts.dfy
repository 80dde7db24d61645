/** What the DDL steps of `PostgreSql` promise about the text they append and
    the warnings they give. */
module EmissionFacts {
  import opened Text
  import opened Dia
  import opened Diagnostics
  import opened Resolver
  import opened PgSql
  import opened ResolutionFacts

  // Columns

  /** A column's suffix opens with `PRIMARY KEY ` exactly when the column is
      primary and its table has no compound key; it is then nothing but that
      and the default. */
  lemma SuffixPrimaryIff(col: Attribute, multi: bool)
    ensures StartsWith(ColumnSuffix(col, multi), "PRIMARY KEY ") <==> col.IsPrimary() && !multi
    ensures col.IsPrimary() && !multi ==> ColumnSuffix(col, multi) == "PRIMARY KEY " + DefaultClause(col)
  {
    var s := ColumnSuffix(col, multi);
    if !(col.IsPrimary() && !multi) {
      var c := Constraints(col, multi);
      if |c| > 0 {
        assert s[0] == c[0] && c[0] != 'P';
      } else if DefaultClause(col) != "" {
        assert s[0] == 'D';
      } else {
        assert s == "";
      }
    }
  }

  /** A word that is present or absent in front of a text that does not
      begin like it: the text starts with the word exactly when it is there. */
  lemma OptionalWord(w: string, rest: string, on: bool)
    requires |w| > 0 && (|rest| > 0 ==> rest[0] != w[0])
    ensures StartsWith((if on then w else "") + rest, w) <==> on
    ensures on ==> ((if on then w else "") + rest)[|w|..] == rest
  {
    var s := (if on then w else "") + rest;
    if on {
      assert s[..|w|] == w;
    } else if |rest| > 0 {
      assert s[0] != w[0];
    }
  }

  /** Otherwise the suffix is `UNIQUE ` when the column is unique, then
      `NOT NULL ` when it is not nullable, then the default clause. */
  lemma SuffixOrder(col: Attribute, multi: bool)
    requires !(col.IsPrimary() && !multi)
    ensures StartsWith(ColumnSuffix(col, multi), "UNIQUE ") <==> col.IsUnique()
    ensures var rest := if col.IsUnique() then ColumnSuffix(col, multi)[7..] else ColumnSuffix(col, multi);
      StartsWith(rest, "NOT NULL ") <==> !col.IsNullable()
    ensures EndsWith(ColumnSuffix(col, multi), DefaultClause(col))
  {
    var u := if col.IsUnique() then "UNIQUE " else "";
    var n := if !col.IsNullable() then "NOT NULL " else "";
    var d := DefaultClause(col);
    assert ColumnSuffix(col, multi) == u + n + d;
    AppendAssoc(u, n, d);
    Framed(u, n, d);
    assert |d| > 0 ==> d[0] == 'D';
    assert |n + d| > 0 ==> (n + d)[0] != 'U';
    OptionalWord("UNIQUE ", n + d, col.IsUnique());
    OptionalWord("NOT NULL ", d, !col.IsNullable());
  }

  /** The width every column name is padded to: the longest name. */
  lemma NamesAligned(cols: seq<Attribute>)
    ensures forall k :: 0 <= k < |cols| ==> |Pad(cols[k].name, Longest(cols))| == Longest(cols)
    ensures forall k :: 0 <= k < |cols| ==> Pad(cols[k].name, Longest(cols))[..|cols[k].name|] == cols[k].name
  {
  }

  /** Without a compound key, the table has one line per column, in order,
      and a line carries `PRIMARY KEY` exactly when its column is primary:
      every primary column does. */
  lemma EveryPrimaryColumnKeyed(t: TableVal)
    requires !IsMulti(MultiColumnKey(t))
    ensures var cols := t.shape.attributes;
      |TableLines(t)| == |cols|
      && forall k :: 0 <= k < |cols| ==>
           TableLines(t)[k] == ColumnHead(cols[k], Longest(cols)) + ColumnSuffix(cols[k], false)
           && (StartsWith(ColumnSuffix(cols[k], false), "PRIMARY KEY ") <==> cols[k].IsPrimary())
  {
    var cols := t.shape.attributes;
    forall k | 0 <= k < |cols|
      ensures StartsWith(ColumnSuffix(cols[k], false), "PRIMARY KEY ") <==> cols[k].IsPrimary()
    {
      SuffixPrimaryIff(cols[k], false);
    }
  }

  /** With a compound key whose fields all resolved, no column carries
      `PRIMARY KEY`, and the last line of the table is the key line listing
      the compound's fields, just before the closing parenthesis. */
  lemma CompoundKeyLast(t: TableVal)
    requires IsMulti(MultiColumnKey(t)) && None !in MultiColumnKey(t).value
    ensures var cols := t.shape.attributes;
      var key := KeyLine(Strings(MultiColumnKey(t).value));
      CreateTable(t).failure.None?
      && |TableLines(t)| == |cols| + 1
      && TableLines(t)[|cols|] == key
      && EndsWith(CreateTable(t).text, key + "\n);\n\n")
      && forall k :: 0 <= k < |cols| ==> !StartsWith(ColumnSuffix(cols[k], true), "PRIMARY KEY ")
  {
    var cols := t.shape.attributes;
    var lines := TableLines(t);
    JoinEndsWithLast(",\n", lines);
    EndsWithAppend(TableHead(t), Join(",\n", lines), lines[|lines| - 1], "\n);\n\n");
    forall k | 0 <= k < |cols|
      ensures !StartsWith(ColumnSuffix(cols[k], true), "PRIMARY KEY ")
    {
      SuffixPrimaryIff(cols[k], true);
    }
  }

  /** `", ".join` over the compound's fields raises exactly when one of them
      did not resolve; the text up to `CREATE TABLE name (` is already in the
      buffer then. */
  lemma CreateTableRaisesIff(t: TableVal)
    ensures CreateTable(t).failure.Some? <==> IsMulti(MultiColumnKey(t)) && None in MultiColumnKey(t).value
    ensures CreateTable(t).failure.Some? <==> KeyUnresolved(t)
    ensures CreateTable(t).failure.Some? ==> CreateTable(t).failure == Some(TypeError)
    ensures StartsWith(CreateTable(t).text, TableHead(t))
  {
    var head := TableHead(t);
    if KeyUnresolved(t) {
      assert CreateTable(t).text == head;
      assert head[..|head|] == head;
    } else {
      var body := Join(",\n", TableLines(t));
      assert CreateTable(t).text == head + body + "\n);\n\n";
      Framed(head, body, "\n);\n\n");
    }
  }

  /** What CREATE TABLE gives when its compound key, if any, resolved. */
  lemma CreatedText(t: TableVal)
    requires !KeyUnresolved(t)
    ensures CreateTable(t) == Emitted(TableHead(t) + Join(",\n", TableLines(t)) + "\n);\n\n",
                                      PrimaryWarnings(t.shape.attributes, IsMulti(MultiColumnKey(t))), None)
  {
  }

  // Duplicate primary keys

  /** The names of the primary columns, in order. */
  function PrimaryNames(cols: seq<Attribute>): seq<string>
  {
    if |cols| == 0 then []
    else
      var c := cols[|cols| - 1];
      PrimaryNames(cols[..|cols| - 1]) + (if c.IsPrimary() then [c.name] else [])
  }

  /** One warning per consecutive pair of primary names. */
  function Chain(names: seq<string>): (ws: seq<Diagnostic>)
    ensures |ws| == if |names| == 0 then 0 else |names| - 1
  {
    if |names| <= 1 then []
    else seq(|names| - 1, j requires 0 <= j < |names| - 1 => DuplicatePrimary(names[j], names[j + 1]))
  }

  lemma ChainSnoc(names: seq<string>, n: string)
    requires |names| > 0
    ensures Chain(names + [n]) == Chain(names) + [DuplicatePrimary(names[|names| - 1], n)]
  {
    var m := names + [n];
    var ws := Chain(names) + [DuplicatePrimary(names[|names| - 1], n)];
    assert |Chain(m)| == |ws|;
    forall j | 0 <= j < |ws|
      ensures Chain(m)[j] == ws[j]
    {
      assert m[j] == names[j];
      if j < |names| - 1 {
        assert m[j + 1] == names[j + 1];
      }
    }
  }

  function LastOrEmpty(names: seq<string>): string
  {
    if |names| == 0 then "" else names[|names| - 1]
  }

  /** The facts of `DuplicatePrimaryWarnings` about `cols`. */
  ghost predicate ChainsPrimaries(cols: seq<Attribute>)
  {
    var p := PrimaryNames(cols);
    PrimaryWarnings(cols, false) == Chain(p)
    && PreviousPrimary(cols, false) == LastOrEmpty(p)
    && forall j :: 0 <= j < |p| ==> p[j] != ""
  }

  lemma ChainsPrimariesStep(init: seq<Attribute>, c: Attribute)
    requires c.IsPrimary() ==> c.name != ""
    requires ChainsPrimaries(init)
    ensures ChainsPrimaries(init + [c])
  {
    var cols := init + [c];
    assert cols[..|cols| - 1] == init;
    var p := PrimaryNames(init);
    assert PrimaryWarnings(cols, false) == PrimaryWarnings(init, false) + NewWarning(init, c, false);
    if c.IsPrimary() {
      assert PrimaryNames(cols) == p + [c.name];
      if |p| > 0 {
        ChainSnoc(p, c.name);
      }
    } else {
      assert PrimaryNames(cols) == p;
    }
  }

  /** Without a compound key, when no primary column has an empty name, each
      primary column after the first warns once, naming the primary column
      before it; `previous_primary` ends as the last primary name. */
  lemma {:induction false} DuplicatePrimaryWarnings(cols: seq<Attribute>)
    requires forall k :: 0 <= k < |cols| && cols[k].IsPrimary() ==> cols[k].name != ""
    ensures PrimaryWarnings(cols, false) == Chain(PrimaryNames(cols))
    ensures PreviousPrimary(cols, false) == LastOrEmpty(PrimaryNames(cols))
    ensures forall j :: 0 <= j < |PrimaryNames(cols)| ==> PrimaryNames(cols)[j] != ""
  {
    if |cols| > 0 {
      var init := cols[..|cols| - 1];
      var c := cols[|cols| - 1];
      assert cols == init + [c];
      forall k | 0 <= k < |init| && init[k].IsPrimary()
        ensures init[k].name != ""
      {
        assert init[k] == cols[k];
      }
      DuplicatePrimaryWarnings(init);
      ChainsPrimariesStep(init, c);
    }
  }

  /** With a compound key the column loop gives no warning at all. */
  lemma {:induction false} NoWarningsWithCompound(cols: seq<Attribute>)
    ensures PrimaryWarnings(cols, true) == []
    ensures PreviousPrimary(cols, true) == ""
  {
    if |cols| > 0 {
      NoWarningsWithCompound(cols[..|cols| - 1]);
    }
  }

  // References

  /** One ALTER TABLE line per connected reference. */
  lemma {:induction false} RefLinesCount(refs: seq<Shape>)
    requires AllHaveEnds(refs)
    ensures |RefLines(refs)| == CountConnected(refs)
  {
    if |refs| > 0 {
      RefLinesCount(refs[..|refs| - 1]);
    }
  }

  /** The connected references, in order. */
  function ConnectedRefs(refs: seq<Shape>): (cs: seq<Shape>)
    requires AllHaveEnds(refs)
    ensures AllHaveEnds(cs)
    ensures forall k :: 0 <= k < |cs| ==> Connected(cs[k]) && cs[k] in refs
    ensures forall i :: 0 <= i < |refs| && Connected(refs[i]) ==> refs[i] in cs
  {
    if |refs| == 0 then []
    else
      var r := refs[|refs| - 1];
      ConnectedRefs(refs[..|refs| - 1]) + (if Connected(r) then [r] else [])
  }

  /** The ALTER TABLE lines are those of the connected references, in
      order: a reference is left out exactly when it is not connected. */
  lemma {:induction false} RefLinesOfConnected(refs: seq<Shape>)
    requires AllHaveEnds(refs)
    ensures var cs := ConnectedRefs(refs);
      RefLines(refs) == seq(|cs|, k requires 0 <= k < |cs| => RefLine(cs[k]))
  {
    if |refs| > 0 {
      RefLinesOfConnected(refs[..|refs| - 1]);
    }
  }

  /** The foreign-key batch is each statement followed by `;` and a newline,
      then a blank line; with no connected reference it is a lone `;`. */
  lemma ReferencesLayout(refs: seq<Shape>)
    requires AllHaveEnds(refs)
    ensures CountConnected(refs) == 0 ==> ReferencesText(refs) == ";\n\n"
    ensures CountConnected(refs) > 0 ==> ReferencesText(refs) == Terminated(RefLines(refs), ";\n") + "\n"
  {
    RefLinesCount(refs);
    if CountConnected(refs) > 0 {
      JoinThenSeparator(";\n", RefLines(refs));
      AppendAssoc(Join(";\n", RefLines(refs)), ";\n", "\n");
    }
  }

  // DROP statements

  lemma {:induction false} DropStmtsSplit(names: seq<string>, i: nat)
    requires i < |names|
    ensures DropStmts(names) == DropStmts(names[..i]) + DropStmt(names[i]) + DropStmts(names[i + 1..])
    decreases |names|
  {
    var init := names[..|names| - 1];
    if i < |names| - 1 {
      var last := names[|names| - 1];
      var tail := names[i + 1..];
      DropStmtsSplit(init, i);
      assert init[..i] == names[..i] && init[i] == names[i];
      assert tail[..|tail| - 1] == init[i + 1..] && tail[|tail| - 1] == last;
      assert DropStmts(tail) == DropStmts(init[i + 1..]) + DropStmt(last);
      AppendAssoc(DropStmts(names[..i]) + DropStmt(names[i]), DropStmts(init[i + 1..]), DropStmt(last));
    } else {
      assert names[..i] == init;
      assert names[i + 1..] == [];
    }
  }

  /** A name appears in the DROP statements once for every time the key
      enumeration holds it; `keys()` holds every key once. */
  lemma DropOnePerKey(order: seq<string>, k: string)
    requires forall i, j :: 0 <= i < j < |order| ==> order[i] != order[j]
    ensures forall i :: 0 <= i < |order| && order[i] == k ==>
      k !in order[..i] && k !in order[i + 1..]
      && DropStmts(order) == DropStmts(order[..i]) + DropStmt(k) + DropStmts(order[i + 1..])
  {
    forall i | 0 <= i < |order| && order[i] == k
      ensures DropStmts(order) == DropStmts(order[..i]) + DropStmt(k) + DropStmts(order[i + 1..])
    {
      DropStmtsSplit(order, i);
    }
  }

  // Worked examples

  /** A byte string without quotes, backslashes or control characters is
      shown between single quotes as it is. */
  lemma {:induction false} ReprPlain(s: string)
    requires forall i :: 0 <= i < |s| ==> ' ' <= s[i] && (s[i] as int) < 127 && s[i] != '\'' && s[i] != '\\'
    ensures Repr(s) == "'" + s + "'"
  {
    PlainBody(s);
  }

  lemma {:induction false} PlainBody(s: string)
    requires forall i :: 0 <= i < |s| ==> ' ' <= s[i] && (s[i] as int) < 127 && s[i] != '\'' && s[i] != '\\'
    ensures ReprBody(s, '\'') == s
  {
    if |s| > 0 {
      PlainBody(s[..|s| - 1]);
    }
  }

  /** Two primary columns, `id` and `code`. */
  const IdAndCode: seq<Attribute> :=
    [Attribute("id", "int", "", 1, 0, 0, ""), Attribute("code", "text", "", 1, 0, 0, "")]

  lemma IdAndCodeNames()
    ensures PrimaryNames(IdAndCode) == ["id", "code"]
  {
    assert IdAndCode[..1][..0] == [];
  }

  lemma IdAndCodeWarningText()
    ensures DuplicatePrimary("id", "code").text
      == "Multiple keys with no compound definition. Previous 'id' current 'code'."
  {
    ReprPlain("id");
    ReprPlain("code");
  }

  /** Without a compound key, the second primary column warns once, naming
      the first. */
  lemma DuplicatePrimaryExample()
    ensures PrimaryWarnings(IdAndCode, false)
      == [Warning("Multiple keys with no compound definition. Previous 'id' current 'code'.")]
  {
    DuplicatePrimaryWarnings(IdAndCode);
    IdAndCodeNames();
    IdAndCodeWarningText();
    assert Chain(["id", "code"]) == [DuplicatePrimary("id", "code")];
  }

  const Users: Shape := Shape(TableType, "users", "",
    [Attribute("id", "int", "", 1, 0, 0, ""), Attribute("email", "text", "", 0, 0, 1, "")], 16, [])

  lemma UsersWidth()
    ensures Longest(Users.attributes) == 5
  {
    assert Users.attributes[..1][..0] == [];
  }

  lemma UsersIdLine()
    ensures ColumnLine(Users.attributes[0], 5, false) == "\tid   \tint\tPRIMARY KEY "
  {
    assert Pad("id", 5) == "id   ";
    assert ColumnHead(Users.attributes[0], 5) == "\tid   \tint\t";
  }

  lemma UsersEmailLine()
    ensures ColumnLine(Users.attributes[1], 5, false) == "\temail\ttext\tUNIQUE NOT NULL "
  {
    assert Pad("email", 5) == "email";
    assert ColumnHead(Users.attributes[1], 5) == "\temail\ttext\t";
  }

  /** The two column lines of `users`, padded to `email`. */
  lemma UsersColumnLines()
    ensures TableLines(TableVal(Users, [], None))
      == ["\tid   \tint\tPRIMARY KEY ", "\temail\ttext\tUNIQUE NOT NULL "]
  {
    var lines := ["\tid   \tint\tPRIMARY KEY ", "\temail\ttext\tUNIQUE NOT NULL "];
    UsersWidth();
    UsersIdLine();
    UsersEmailLine();
    assert ColumnLines(Users.attributes, 5, false) == lines;
  }

  /** `users` has a single primary column, so no warning. */
  lemma UsersNoWarnings()
    ensures PrimaryWarnings(Users.attributes, false) == []
  {
    var cols := Users.attributes;
    assert cols[..1][..0] == [];
    assert PrimaryNames(cols) == ["id"];
    DuplicatePrimaryWarnings(cols);
  }

  /** The column lines joined. */
  lemma UsersBody()
    ensures Join(",\n", TableLines(TableVal(Users, [], None)))
      == "\tid   \tint\tPRIMARY KEY " + ",\n" + "\temail\ttext\tUNIQUE NOT NULL "
  {
    var lines := ["\tid   \tint\tPRIMARY KEY ", "\temail\ttext\tUNIQUE NOT NULL "];
    UsersColumnLines();
    assert lines[..1] == [lines[0]];
    assert Join(",\n", lines) == lines[0] + ",\n" + lines[1];
  }

  /** `users(id int primary, email text unique not null)`. */
  lemma UsersTableExample()
    ensures CreateTable(TableVal(Users, [], None))
      == Emitted("CREATE TABLE " + "users" + " (\n"
                 + ("\tid   \tint\tPRIMARY KEY " + ",\n" + "\temail\ttext\tUNIQUE NOT NULL ")
                 + "\n);\n\n", [], None)
  {
    var t := TableVal(Users, [], None);
    UsersBody();
    UsersNoWarnings();
    assert MultiColumnKey(t) == None && !IsMulti(MultiColumnKey(t));
    assert TableHead(t) == "CREATE TABLE " + "users" + " (\n";
    CreatedText(t);
  }

  const Orders: Shape := Shape(TableType, "orders", "",
    [Attribute("id", "int", "", 1, 0, 0, ""), Attribute("user_id", "int", "", 0, 0, 0, "")], 16, [])

  /** A reference from `orders.user_id` to `users.id`: the owner's end is
      handle 1 on the second connection point of the `user_id` line, the
      referenced end handle 0 on the first one of the `id` line. */
  const OrdersToUsers: Shape := Shape(ReferenceType, "", "", [], 0,
    [Handle(0, Some(ConnPoint(Users, 12))), Handle(0, Some(ConnPoint(Orders, 15)))])

  lemma OrdersToUsersEnds()
    ensures HasEnds(OrdersToUsers)
    ensures OwnerTable(OrdersToUsers) == Some("orders") && ForeignKey(OrdersToUsers) == Some("user_id")
    ensures TargetTable(OrdersToUsers) == Some("users") && TargetField(OrdersToUsers) == Some("id")
  {
    SlotResolvesToField(Orders, 1, 1);
    SlotResolvesToField(Users, 0, 0);
  }

  /** The statement's text, one literal piece at a time. */
  lemma ForeignKeyText()
    ensures "ALTER TABLE ONLY " + "orders" + " ADD FOREIGN KEY (" + "user_id" + ") REFERENCES " + "users" + " (" + "id" + ")"
         == "ALTER TABLE ONLY orders ADD FOREIGN KEY (user_id) REFERENCES users (id)"
  {
    assert "ALTER TABLE ONLY " + "orders" == "ALTER TABLE ONLY orders";
    assert "ALTER TABLE ONLY orders" + " ADD FOREIGN KEY (" == "ALTER TABLE ONLY orders ADD FOREIGN KEY (";
    assert "ALTER TABLE ONLY orders ADD FOREIGN KEY (" + "user_id" == "ALTER TABLE ONLY orders ADD FOREIGN KEY (user_id";
    assert "ALTER TABLE ONLY orders ADD FOREIGN KEY (user_id" + ") REFERENCES " == "ALTER TABLE ONLY orders ADD FOREIGN KEY (user_id) REFERENCES ";
    assert "ALTER TABLE ONLY orders ADD FOREIGN KEY (user_id) REFERENCES " + "users" == "ALTER TABLE ONLY orders ADD FOREIGN KEY (user_id) REFERENCES users";
    assert "ALTER TABLE ONLY orders ADD FOREIGN KEY (user_id) REFERENCES users" + " (" + "id" + ")" == "ALTER TABLE ONLY orders ADD FOREIGN KEY (user_id) REFERENCES users (id)";
  }

  lemma ForeignKeyExample()
    ensures HasEnds(OrdersToUsers) && Connected(OrdersToUsers)
    ensures RefLine(OrdersToUsers) == "ALTER TABLE ONLY orders ADD FOREIGN KEY (user_id) REFERENCES users (id)"
  {
    OrdersToUsersEnds();
    ForeignKeyText();
  }
}
