/** `SQLRenderer.begin_render`: resolve the layer's objects, then emit DROP
    statements for every table name, one CREATE TABLE per table and the
    foreign-key batch, and hand the buffer to the writer. */
module Renderer {
  import opened Text
  import opened Dia
  import opened Diagnostics
  import opened Resolver
  import opened PgSql
  import EmissionFacts

  /** `order` lists every name of `keys` exactly once. */
  ghost predicate Enumerates(order: seq<string>, keys: set<string>)
  {
    (forall k :: k in keys <==> k in order)
    && forall i, j :: 0 <= i < j < |order| ==> order[i] != order[j]
  }

  /** The iteration order of `tables.keys()` and `tables.values()`: the host
      decides it, so any enumeration of the keys will do. */
  method KeysInSomeOrder(keys: set<string>) returns (order: seq<string>)
    ensures Enumerates(order, keys)
  {
    order := [];
    var rest := keys;
    while rest != {}
      invariant forall k :: k in keys <==> k in rest || k in order
      invariant forall k :: k in rest ==> k !in order
      invariant forall i, j :: 0 <= i < j < |order| ==> order[i] != order[j]
      decreases |rest|
    {
      var k :| k in rest;
      order := order + [k];
      rest := rest - {k};
    }
  }

  /** What the export produces: the text `write_sql` receives, or the
      exception that ends it first. */
  datatype Output = Written(sql: string) | Raised(failure: Failure)

  datatype Export = Export(output: Output, msgs: seq<Diagnostic>)

  predicate OrderFits(order: seq<string>, tables: map<string, TableVal>)
  {
    forall i :: 0 <= i < |order| ==> order[i] in tables
  }

  function TablesInOrder(order: seq<string>, tables: map<string, TableVal>): (ts: seq<TableVal>)
    requires OrderFits(order, tables)
    ensures |ts| == |order|
  {
    seq(|order|, i requires 0 <= i < |order| => tables[order[i]])
  }

  /** The export of `objects` when the table map is walked in `order`. */
  function Render(timestamp: string, objects: seq<Shape>, order: seq<string>): Export
    requires Resolve(objects).failure.None? ==> OrderFits(order, Resolve(objects).tables)
  {
    var s := Resolve(objects);
    if s.failure.Some? then Export(Raised(s.failure.value), s.msgs)
    else
      var e := CreateAll(TablesInOrder(order, s.tables));
      if e.failure.Some? then Export(Raised(e.failure.value), s.msgs + e.msgs)
      else
        ResolvedRefsHaveEnds(objects);
        Export(Written(Header(timestamp) + DropText(order) + e.text + ReferencesText(s.refs)), s.msgs + e.msgs)
  }

  /** `for tbl in tables.values(): pgsql.create_table_sql(tbl)`: the tables'
      text in turn, up to the first exception. */
  method CreateTables(pgsql: PostgreSql, tbls: seq<DiaTable>, sink: Sink, ghost ts: seq<TableVal>)
      returns (failure: Option<Failure>)
    requires |tbls| == |ts| && forall i :: 0 <= i < |tbls| ==> tbls[i].Value() == ts[i]
    modifies pgsql, sink
    ensures pgsql.sql == old(pgsql.sql) + CreateAll(ts).text
    ensures sink.messages == old(sink.messages) + CreateAll(ts).msgs
    ensures failure == CreateAll(ts).failure
  {
    failure := None;
    var i := 0;
    while i < |tbls|
      invariant 0 <= i <= |tbls|
      invariant failure == CreateAll(ts[..i]).failure == None
      invariant pgsql.sql == old(pgsql.sql) + CreateAll(ts[..i]).text
      invariant sink.messages == old(sink.messages) + CreateAll(ts[..i]).msgs
    {
      CreateAllStep(ts, i);
      failure := pgsql.CreateTableSql(tbls[i], sink);
      AppendAssoc(old(pgsql.sql), CreateAll(ts[..i]).text, CreateTable(ts[i]).text);
      AppendAssoc(old(sink.messages), CreateAll(ts[..i]).msgs, CreateTable(ts[i]).msgs);
      if failure.Some? {
        FirstFailureIsFinal(ts, i + 1);
        return;
      }
      i := i + 1;
    }
    assert ts[..i] == ts;
  }

  /** The emission half of `begin_render` (postgresql.py:60-63), once the
      loop over the objects has finished without an exception. */
  method EmitResolved(timestamp: string, tables: map<string, DiaTable>, refs: seq<Shape>, sink: Sink,
                      ghost objects: seq<Shape>)
      returns (output: Output, order: seq<string>)
    requires Resolve(objects).failure.None?
    requires View(tables) == Resolve(objects).tables && refs == Resolve(objects).refs
    modifies sink
    ensures Enumerates(order, Resolve(objects).tables.Keys)
    ensures OrderFits(order, Resolve(objects).tables)
    ensures output == Render(timestamp, objects, order).output
    ensures sink.messages == old(sink.messages) + CreateAll(TablesInOrder(order, Resolve(objects).tables)).msgs
  {
    ghost var s := Resolve(objects);
    order := KeysInSomeOrder(tables.Keys);
    assert OrderFits(order, s.tables);
    ghost var ts := TablesInOrder(order, s.tables);
    var tbls := seq(|order|, i requires 0 <= i < |order| => tables[order[i]]);
    assert forall i :: 0 <= i < |tbls| ==> tbls[i].Value() == ts[i];
    var pgsql := new PostgreSql(timestamp);
    pgsql.DropTables(order);
    var failure := CreateTables(pgsql, tbls, sink, ts);
    if failure.Some? {
      return Raised(failure.value), order;
    }
    ResolvedRefsHaveEnds(objects);
    pgsql.CreateReferencesSql(refs);
    output := Written(pgsql.sql);
  }

  /** `begin_render` from the walk over `layer.objects` to `write_sql`
      (postgresql.py:21-63); the clock reading is `timestamp`. */
  method BeginRender(timestamp: string, objects: seq<Shape>, sink: Sink) returns (output: Output, order: seq<string>)
    modifies sink
    ensures Resolve(objects).failure.None? ==> Enumerates(order, Resolve(objects).tables.Keys)
    ensures Resolve(objects).failure.None? ==> OrderFits(order, Resolve(objects).tables)
    ensures output == Render(timestamp, objects, order).output
    ensures sink.messages == old(sink.messages) + Render(timestamp, objects, order).msgs
  {
    var tables, refs, failure := ResolveObjects(objects, sink);
    order := [];
    if failure.Some? {
      return Raised(failure.value), order;
    }
    output, order := EmitResolved(timestamp, tables, refs, sink, objects);
    AppendAssoc(old(sink.messages), Resolve(objects).msgs, CreateAll(TablesInOrder(order, Resolve(objects).tables)).msgs);
  }

  /** One more table after a prefix that raised nothing appends that table's text and messages. */
  lemma CreateAllStep(ts: seq<TableVal>, i: nat)
    requires i < |ts| && CreateAll(ts[..i]).failure.None?
    ensures CreateAll(ts[..i + 1])
      == Emitted(CreateAll(ts[..i]).text + CreateTable(ts[i]).text,
                 CreateAll(ts[..i]).msgs + CreateTable(ts[i]).msgs, CreateTable(ts[i]).failure)
  {
    assert ts[..i + 1][..i] == ts[..i];
  }

  lemma {:induction false} FirstFailureIsFinal(ts: seq<TableVal>, i: nat)
    requires i <= |ts|
    requires CreateAll(ts[..i]).failure.Some?
    ensures CreateAll(ts) == CreateAll(ts[..i])
    decreases |ts|
  {
    if i < |ts| {
      var init := ts[..|ts| - 1];
      assert init[..i] == ts[..i];
      FirstFailureIsFinal(init, i);
    } else {
      assert ts[..i] == ts;
    }
  }

  lemma CreateAllFailureSnoc(ts: seq<TableVal>)
    requires |ts| > 0
    ensures var e := CreateAll(ts[..|ts| - 1]);
      CreateAll(ts).failure
      == if e.failure.Some? then e.failure else if KeyUnresolved(ts[|ts| - 1]) then Some(TypeError) else None
  {
    EmissionFacts.CreateTableRaisesIff(ts[|ts| - 1]);
  }

  /** Whatever the CREATE TABLE steps raise is a `TypeError`. */
  lemma {:induction false} CreateAllRaisesTypeError(ts: seq<TableVal>)
    ensures CreateAll(ts).failure.Some? ==> CreateAll(ts).failure == Some(TypeError)
  {
    if |ts| > 0 {
      CreateAllRaisesTypeError(ts[..|ts| - 1]);
      CreateAllFailureSnoc(ts);
    }
  }

  /** The steps succeed when every compound key resolved ... */
  lemma {:induction false} CreateAllSucceeds(ts: seq<TableVal>)
    requires forall i :: 0 <= i < |ts| ==> !KeyUnresolved(ts[i])
    ensures CreateAll(ts).failure.None?
  {
    if |ts| > 0 {
      var init := ts[..|ts| - 1];
      assert forall i :: 0 <= i < |init| ==> init[i] == ts[i];
      CreateAllSucceeds(init);
      CreateAllFailureSnoc(ts);
    }
  }

  /** ... and raise when one did not. */
  lemma {:induction false} CreateAllRaises(ts: seq<TableVal>, j: nat)
    requires j < |ts| && KeyUnresolved(ts[j])
    ensures CreateAll(ts).failure.Some?
  {
    var init := ts[..|ts| - 1];
    CreateAllFailureSnoc(ts);
    if j < |init| {
      assert init[j] == ts[j];
      CreateAllRaises(init, j);
      assert CreateAll(init).failure.Some?;
    } else {
      assert j == |ts| - 1;
    }
  }

  lemma {:induction false} EnumerationSize(order: seq<string>, keys: set<string>)
    requires Enumerates(order, keys)
    ensures |order| == |keys|
  {
    if |order| > 0 {
      var last := order[|order| - 1];
      var init := order[..|order| - 1];
      assert forall k :: k in keys - {last} <==> k in init by {
        forall k ensures k in keys - {last} <==> k in init {
          if k in init {
            var i :| 0 <= i < |init| && init[i] == k;
            assert order[i] == k;
          }
        }
      }
      EnumerationSize(init, keys - {last});
    } else {
      assert forall k :: k !in keys;
      assert keys == {};
    }
  }

  /** The CREATE TABLE steps succeed exactly when every compound key
      resolved; otherwise they raise a `TypeError`. */
  lemma CreateAllSucceedsIff(ts: seq<TableVal>)
    ensures CreateAll(ts).failure.None? <==> forall i :: 0 <= i < |ts| ==> !KeyUnresolved(ts[i])
    ensures CreateAll(ts).failure.Some? ==> CreateAll(ts).failure == Some(TypeError)
  {
    CreateAllRaisesTypeError(ts);
    if forall i :: 0 <= i < |ts| ==> !KeyUnresolved(ts[i]) {
      CreateAllSucceeds(ts);
    } else {
      var j :| 0 <= j < |ts| && KeyUnresolved(ts[j]);
      CreateAllRaises(ts, j);
    }
  }

  /** Walking the keys in `order` visits every table once. */
  lemma OrderVisitsEveryTable(order: seq<string>, tables: map<string, TableVal>)
    requires Enumerates(order, tables.Keys)
    ensures OrderFits(order, tables)
    ensures |order| == |tables|
    ensures (forall i :: 0 <= i < |order| ==> !KeyUnresolved(TablesInOrder(order, tables)[i]))
      <==> forall k :: k in tables ==> !KeyUnresolved(tables[k])
  {
    assert OrderFits(order, tables);
    EnumerationSize(order, tables.Keys);
    var ts := TablesInOrder(order, tables);
    if forall i :: 0 <= i < |order| ==> !KeyUnresolved(ts[i]) {
      forall k | k in tables
        ensures !KeyUnresolved(tables[k])
      {
        var i :| 0 <= i < |order| && order[i] == k;
        assert ts[i] == tables[k];
      }
    }
  }

  /** The export as a whole: it writes exactly when resolution succeeds and
      no table has a compound key with an unresolved field, and raises a
      `TypeError` otherwise; the text written is the header, one DROP
      statement per table, the tables and the foreign-key batch, in that
      order. */
  lemma ExportOutcome(timestamp: string, objects: seq<Shape>, order: seq<string>)
    requires Resolve(objects).failure.None?
    requires Enumerates(order, Resolve(objects).tables.Keys)
    ensures OrderFits(order, Resolve(objects).tables)
    ensures |order| == |Resolve(objects).tables|
    ensures AllHaveEnds(Resolve(objects).refs)
    ensures Render(timestamp, objects, order).output.Written?
      <==> forall k :: k in Resolve(objects).tables ==> !KeyUnresolved(Resolve(objects).tables[k])
    ensures Render(timestamp, objects, order).output.Raised? ==>
      Render(timestamp, objects, order).output.failure == TypeError
    ensures Render(timestamp, objects, order).output.Written? ==>
      var sql := Render(timestamp, objects, order).output.sql;
      StartsWith(sql, Header(timestamp) + DropText(order)) && EndsWith(sql, ReferencesText(Resolve(objects).refs))
  {
    var s := Resolve(objects);
    OrderVisitsEveryTable(order, s.tables);
    var ts := TablesInOrder(order, s.tables);
    CreateAllSucceedsIff(ts);
    ResolvedRefsHaveEnds(objects);
    var e := CreateAll(ts);
    if e.failure.None? {
      Framed(Header(timestamp) + DropText(order), e.text, ReferencesText(s.refs));
    }
  }
}
