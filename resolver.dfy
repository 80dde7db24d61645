/** The resolution pass of `SQLRenderer.begin_render`: one walk over the
    layer's objects that indexes the tables by name, attaches connected
    references and compound keys to them, collects every reference, and
    reports what it cannot resolve. `DiaTable` is the object it updates. */
module Resolver {
  import opened Text
  import opened Dia
  import opened Diagnostics

  /** A Python exception that ends the export before anything is written. */
  datatype Failure =
    | KeyError(key: string)  // `tables[name]` for a name not indexed (yet)
    | IndexError             // `handles[1]` or `ac_table_names[0]` out of range
    | TypeError              // `", ".join` over a list holding `None`

  /** The state of one `DiaTable`: its shape, the references attached to it,
      and the compound key set on it. */
  datatype TableVal = TableVal(shape: Shape, refs: seq<Shape>, multiCol: Option<Shape>)

  /** `DiaTable.multi_column_key`. */
  function MultiColumnKey(t: TableVal): (r: Option<seq<Option<string>>>)
    ensures r.Some? <==> t.multiCol.Some?
  {
    match t.multiCol
    case None => None
    case Some(c) => Some(CompoundFieldNames(c))
  }

  class DiaTable {
    const shape: Shape
    var refs: seq<Shape>
    var multiCol: Option<Shape>

    constructor (obj: Shape)
      ensures shape == obj && refs == [] && multiCol == None
    {
      shape := obj;
      refs := [];
      multiCol := None;
    }

    function Value(): TableVal
      reads this
    {
      TableVal(shape, refs, multiCol)
    }

    /** `DiaTable.add_ref`. */
    method AddRef(r: Shape)
      modifies this
      ensures refs == old(refs) + [r] && multiCol == old(multiCol)
    {
      refs := refs + [r];
    }

    /** `DiaTable.set_multi_column_key`: a later key replaces an earlier one. */
    method SetMultiColumnKey(c: Shape)
      modifies this
      ensures multiCol == Some(c) && refs == old(refs)
    {
      multiCol := Some(c);
    }
  }

  /** The abstract value of the name-keyed table index. */
  ghost function View(tables: map<string, DiaTable>): (v: map<string, TableVal>)
    reads tables.Values
    ensures v.Keys == tables.Keys
  {
    map k | k in tables :: tables[k].Value()
  }

  /** No `DiaTable` is indexed under two names. */
  ghost predicate Injective(tables: map<string, DiaTable>)
  {
    forall k1, k2 :: k1 in tables && k2 in tables && k1 != k2 ==> tables[k1] != tables[k2]
  }

  // The resolution pass as a function of the objects seen so far.

  datatype State = State(
    tables: map<string, TableVal>,
    refs: seq<Shape>,
    msgs: seq<Diagnostic>,
    failure: Option<Failure>)

  const Start: State := State(map[], [], [], None)

  /** The warning for a reference, or `None` when both of its ends name tables. */
  function ReferenceWarning(r: Shape): (w: Option<string>)
    requires HasEnds(r)
    ensures w.None? <==> Connected(r)
  {
    var owner := OwnerTable(r);
    var target := TargetTable(r);
    if Truthy(owner) then
      if Truthy(target) then None
      else Some("Disconnected reference to " + owner.value + ".")
    else if Truthy(target) then Some("Disconnected reference from " + target.value + ".")
    else Some("Diagram contains disconnected reference.")
  }

  predicate AllSame(names: seq<Option<string>>)
    requires |names| > 0
  {
    forall i :: 0 <= i < |names| ==> names[i] == names[0]
  }

  function TableStep(s: State, t: Shape): State
  {
    s.(tables := s.tables[t.name := TableVal(t, [], None)])
  }

  function ReferenceStep(s: State, r: Shape): State
  {
    if !HasEnds(r) then s.(failure := Some(IndexError))
    else
      match ReferenceWarning(r)
      case Some(w) => s.(msgs := s.msgs + [Warning(w)], refs := s.refs + [r])
      case None =>
        var owner := OwnerTable(r).value;
        if owner !in s.tables then s.(failure := Some(KeyError(owner)))
        else
          var t := s.tables[owner];
          s.(tables := s.tables[owner := t.(refs := t.refs + [r])], refs := s.refs + [r])
  }

  function CompoundStep(s: State, c: Shape): State
  {
    var names := CompoundTableNames(c);
    if None in names then s.(msgs := s.msgs + [Warning("Disconnected compound " + ReprList(names) + ".")])
    else if |names| == 0 then s.(failure := Some(IndexError))
    else if !AllSame(names) then
      s.(msgs := s.msgs + [Warning("Compound connected to more than one table " + ReprList(names) + ".")])
    else
      var k := names[0].value;
      if k !in s.tables then s.(failure := Some(KeyError(k)))
      else s.(tables := s.tables[k := s.tables[k].(multiCol := Some(c))])
  }

  /** One iteration of the loop over `layer.objects`; an exception ends it. */
  function Step(s: State, obj: Shape): State
  {
    if s.failure.Some? then s
    else if obj.kind == TableType then TableStep(s, obj)
    else if obj.kind == ReferenceType then ReferenceStep(s, obj)
    else if obj.kind == CompoundType then CompoundStep(s, obj)
    else s.(msgs := s.msgs + [Warning("Unknown type: " + obj.kind)])
  }

  function Resolve(objs: seq<Shape>): State
  {
    if |objs| == 0 then Start else Step(Resolve(objs[..|objs| - 1]), objs[|objs| - 1])
  }

  lemma {:induction false} FailureIsFinal(objs: seq<Shape>, i: nat)
    requires i <= |objs|
    requires Resolve(objs[..i]).failure.Some?
    ensures Resolve(objs) == Resolve(objs[..i])
    decreases |objs|
  {
    if i < |objs| {
      var init := objs[..|objs| - 1];
      assert init[..i] == objs[..i];
      FailureIsFinal(init, i);
    } else {
      assert objs[..i] == objs;
    }
  }

  /** Only references with both handles reach the reference list. */
  lemma {:induction false} ResolvedRefsHaveEnds(objs: seq<Shape>)
    ensures AllHaveEnds(Resolve(objs).refs)
  {
    if |objs| > 0 {
      ResolvedRefsHaveEnds(objs[..|objs| - 1]);
    }
  }

  /** The abstract state `s` is that of the concrete index and reference list. */
  ghost predicate Models(s: State, tables: map<string, DiaTable>, refs: seq<Shape>)
    reads tables.Values
  {
    s.tables == View(tables) && s.refs == refs && s.failure == None
  }

  /** The reference branch of the loop (postgresql.py:30-46). */
  method ResolveReference(tables: map<string, DiaTable>, refs: seq<Shape>, obj: Shape, sink: Sink,
                          ghost s: State, ghost base: seq<Diagnostic>)
      returns (refs': seq<Shape>, failure: Option<Failure>)
    requires Injective(tables) && Models(s, tables, refs)
    requires sink.messages == base + s.msgs
    modifies tables.Values, sink
    ensures View(tables) == ReferenceStep(s, obj).tables
    ensures refs' == ReferenceStep(s, obj).refs
    ensures failure == ReferenceStep(s, obj).failure
    ensures sink.messages == base + ReferenceStep(s, obj).msgs
  {
    refs' := refs;
    failure := None;
    if |obj.handles| < 2 {
      failure := Some(IndexError);
      return;
    }
    var refTable := OwnerTable(obj);
    var srcTable := TargetTable(obj);
    if Truthy(refTable) {
      if Truthy(srcTable) {
        if refTable.value !in tables {
          failure := Some(KeyError(refTable.value));
          return;
        }
        ghost var view := View(tables);
        var t := tables[refTable.value];
        t.AddRef(obj);
        assert View(tables) == view[refTable.value := view[refTable.value].(refs := view[refTable.value].refs + [obj])];
      } else {
        sink.Message(WarningLevel, "Disconnected reference to " + refTable.value + ".");
      }
    } else {
      if Truthy(srcTable) {
        sink.Message(WarningLevel, "Disconnected reference from " + srcTable.value + ".");
      } else {
        sink.Message(WarningLevel, "Diagram contains disconnected reference.");
      }
    }
    refs' := refs + [obj];
  }

  /** The compound branch of the loop (postgresql.py:47-56). */
  method ResolveCompound(tables: map<string, DiaTable>, obj: Shape, sink: Sink,
                         ghost s: State, ghost base: seq<Diagnostic>)
      returns (failure: Option<Failure>)
    requires Injective(tables) && s.tables == View(tables) && s.failure == None
    requires sink.messages == base + s.msgs
    modifies tables.Values, sink
    ensures View(tables) == CompoundStep(s, obj).tables
    ensures failure == CompoundStep(s, obj).failure
    ensures sink.messages == base + CompoundStep(s, obj).msgs
  {
    failure := None;
    var acTableNames := CompoundTableNames(obj);
    if None in acTableNames {
      sink.Message(WarningLevel, "Disconnected compound " + ReprList(acTableNames) + ".");
    } else if |acTableNames| == 0 {
      failure := Some(IndexError);
    } else if !AllSame(acTableNames) {
      sink.Message(WarningLevel, "Compound connected to more than one table " + ReprList(acTableNames) + ".");
    } else {
      var k := acTableNames[0].value;
      if k !in tables {
        failure := Some(KeyError(k));
        return;
      }
      ghost var view := View(tables);
      var t := tables[k];
      t.SetMultiColumnKey(obj);
      assert View(tables) == view[k := view[k].(multiCol := Some(obj))];
    }
  }

  /** One iteration of the loop of `begin_render` (postgresql.py:27-59). */
  method ResolveOne(tables: map<string, DiaTable>, refs: seq<Shape>, obj: Shape, sink: Sink,
                    ghost s: State, ghost base: seq<Diagnostic>)
      returns (tables': map<string, DiaTable>, refs': seq<Shape>, failure: Option<Failure>)
    requires Injective(tables) && Models(s, tables, refs)
    requires sink.messages == base + s.msgs
    modifies tables.Values, sink
    ensures Injective(tables')
    ensures forall k :: k in tables' ==> tables'[k] in tables.Values || fresh(tables'[k])
    ensures View(tables') == Step(s, obj).tables
    ensures refs' == Step(s, obj).refs
    ensures failure == Step(s, obj).failure
    ensures sink.messages == base + Step(s, obj).msgs
  {
    tables', refs', failure := tables, refs, None;
    if obj.kind == TableType {
      var t := new DiaTable(obj);
      tables' := tables[obj.name := t];
      assert View(tables') == View(tables)[obj.name := TableVal(obj, [], None)];
    } else if obj.kind == ReferenceType {
      refs', failure := ResolveReference(tables, refs, obj, sink, s, base);
    } else if obj.kind == CompoundType {
      failure := ResolveCompound(tables, obj, sink, s, base);
    } else {
      sink.Message(WarningLevel, "Unknown type: " + obj.kind);
    }
  }

  /** The loop of `begin_render` (postgresql.py:24-59): the table index, the
      reference list and the diagnostics are those of `Resolve`, or the loop
      ends at the first exception. */
  method ResolveObjects(objects: seq<Shape>, sink: Sink)
      returns (tables: map<string, DiaTable>, refs: seq<Shape>, failure: Option<Failure>)
    modifies sink
    ensures Injective(tables)
    ensures forall k :: k in tables ==> fresh(tables[k])
    ensures View(tables) == Resolve(objects).tables
    ensures refs == Resolve(objects).refs
    ensures failure == Resolve(objects).failure
    ensures sink.messages == old(sink.messages) + Resolve(objects).msgs
  {
    tables, refs, failure := map[], [], None;
    ghost var base := sink.messages;
    var i := 0;
    while i < |objects|
      invariant 0 <= i <= |objects|
      invariant Injective(tables)
      invariant forall k :: k in tables ==> fresh(tables[k])
      invariant Models(Resolve(objects[..i]), tables, refs) && failure == None
      invariant sink.messages == base + Resolve(objects[..i]).msgs
    {
      assert objects[..i + 1][..i] == objects[..i];
      ghost var s := Resolve(objects[..i]);
      assert Resolve(objects[..i + 1]) == Step(s, objects[i]);
      tables, refs, failure := ResolveOne(tables, refs, objects[i], sink, s, base);
      if failure.Some? {
        FailureIsFinal(objects, i + 1);
        return;
      }
      i := i + 1;
    }
    assert objects[..|objects|] == objects;
  }
}
