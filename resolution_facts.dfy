/** What the resolution pass of `begin_render` establishes about the table
    index, the reference list and the warnings, over any sequence of objects. */
module ResolutionFacts {
  import opened Text
  import opened Dia
  import opened Diagnostics
  import opened Resolver

  predicate IsTableNamed(x: Shape, k: string)
  {
    x.kind == TableType && x.name == k
  }

  /** A reference that resolution attaches to table `k`. */
  predicate AttachesTo(x: Shape, k: string)
  {
    x.kind == ReferenceType && HasEnds(x) && Connected(x) && OwnerTable(x) == Some(k)
  }

  /** A compound that resolution sets as the key of table `k`. */
  predicate KeysTable(x: Shape, k: string)
  {
    x.kind == CompoundType
    && var names := CompoundTableNames(x);
       |names| > 0 && None !in names && AllSame(names) && names[0] == Some(k)
  }

  /** The position of the last table named `k`. */
  function LastTable(objs: seq<Shape>, k: string): (r: Option<nat>)
    ensures r.Some? ==> r.value < |objs| && IsTableNamed(objs[r.value], k)
    ensures r.Some? ==> forall j :: r.value < j < |objs| ==> !IsTableNamed(objs[j], k)
    ensures r.None? ==> forall j :: 0 <= j < |objs| ==> !IsTableNamed(objs[j], k)
  {
    if |objs| == 0 then None
    else if IsTableNamed(objs[|objs| - 1], k) then Some(|objs| - 1)
    else LastTable(objs[..|objs| - 1], k)
  }

  /** The references among `objs` that attach to `k`, in order. */
  function AttachedRefs(objs: seq<Shape>, k: string): seq<Shape>
  {
    if |objs| == 0 then []
    else
      var x := objs[|objs| - 1];
      AttachedRefs(objs[..|objs| - 1], k) + (if AttachesTo(x, k) then [x] else [])
  }

  /** The last compound among `objs` that keys `k`. */
  function LastKey(objs: seq<Shape>, k: string): Option<Shape>
  {
    if |objs| == 0 then None
    else if KeysTable(objs[|objs| - 1], k) then Some(objs[|objs| - 1])
    else LastKey(objs[..|objs| - 1], k)
  }

  /** The reference shapes among `objs`, in order. */
  function ReferenceShapes(objs: seq<Shape>): seq<Shape>
  {
    if |objs| == 0 then []
    else
      var x := objs[|objs| - 1];
      ReferenceShapes(objs[..|objs| - 1]) + (if x.kind == ReferenceType then [x] else [])
  }

  lemma ResolvePrefixSucceeds(objs: seq<Shape>)
    requires |objs| > 0 && Resolve(objs).failure.None?
    ensures Resolve(objs[..|objs| - 1]).failure.None?
  {
  }

  lemma SnocViews(ys: seq<Shape>, x: Shape, k: string)
    ensures AttachedRefs(ys + [x], k) == AttachedRefs(ys, k) + (if AttachesTo(x, k) then [x] else [])
    ensures LastKey(ys + [x], k) == (if KeysTable(x, k) then Some(x) else LastKey(ys, k))
    ensures LastTable(ys + [x], k) == (if IsTableNamed(x, k) then Some(|ys|) else LastTable(ys, k))
  {
    assert (ys + [x])[..|ys|] == ys;
  }

  /** The entry of `k` in `tables` is the one built from the last table named
      `k` among `objs` and what attaches to `k` after it. */
  ghost predicate EntryFor(objs: seq<Shape>, tables: map<string, TableVal>, k: string)
  {
    (k in tables <==> LastTable(objs, k).Some?)
    && (LastTable(objs, k).Some? ==>
          var j := LastTable(objs, k).value;
          k in tables
          && tables[k] == TableVal(objs[j], AttachedRefs(objs[j + 1..], k), LastKey(objs[j + 1..], k)))
  }

  lemma SuffixOfSnoc(ys: seq<Shape>, x: Shape, j: nat)
    requires j < |ys|
    ensures (ys + [x])[j + 1..] == ys[j + 1..] + [x]
    ensures (ys + [x])[j] == ys[j]
  {
  }

  /** An object that does not touch `k` leaves its entry as it was. */
  lemma EntryUntouched(ys: seq<Shape>, x: Shape, k: string, t: map<string, TableVal>, t': map<string, TableVal>)
    requires !IsTableNamed(x, k) && !AttachesTo(x, k) && !KeysTable(x, k)
    requires EntryFor(ys, t, k)
    requires (k in t' <==> k in t) && (k in t ==> k in t' && t'[k] == t[k])
    ensures EntryFor(ys + [x], t', k)
  {
    SnocViews(ys, x, k);
    if LastTable(ys, k).Some? {
      var j := LastTable(ys, k).value;
      SuffixOfSnoc(ys, x, j);
      SnocViews(ys[j + 1..], x, k);
    }
  }

  /** A table named `k` starts a fresh entry. */
  lemma EntryNewTable(ys: seq<Shape>, x: Shape, k: string, t': map<string, TableVal>)
    requires IsTableNamed(x, k)
    requires k in t' && t'[k] == TableVal(x, [], None)
    ensures EntryFor(ys + [x], t', k)
  {
    SnocViews(ys, x, k);
    assert (ys + [x])[|ys| + 1..] == [];
  }

  /** A reference attached to `k` joins its entry's references. */
  lemma EntryAttach(ys: seq<Shape>, x: Shape, k: string, t: map<string, TableVal>, t': map<string, TableVal>)
    requires AttachesTo(x, k) && EntryFor(ys, t, k) && k in t
    requires k in t' && t'[k] == t[k].(refs := t[k].refs + [x])
    ensures EntryFor(ys + [x], t', k)
  {
    SnocViews(ys, x, k);
    var j := LastTable(ys, k).value;
    assert LastTable(ys + [x], k) == Some(j);
    SuffixOfSnoc(ys, x, j);
    SnocViews(ys[j + 1..], x, k);
    assert AttachedRefs((ys + [x])[j + 1..], k) == AttachedRefs(ys[j + 1..], k) + [x];
    assert LastKey((ys + [x])[j + 1..], k) == LastKey(ys[j + 1..], k);
  }

  /** A compound keyed on `k` becomes its entry's key. */
  lemma EntryKey(ys: seq<Shape>, x: Shape, k: string, t: map<string, TableVal>, t': map<string, TableVal>)
    requires KeysTable(x, k) && EntryFor(ys, t, k) && k in t
    requires k in t' && t'[k] == t[k].(multiCol := Some(x))
    ensures EntryFor(ys + [x], t', k)
  {
    SnocViews(ys, x, k);
    var j := LastTable(ys, k).value;
    assert LastTable(ys + [x], k) == Some(j);
    SuffixOfSnoc(ys, x, j);
    SnocViews(ys[j + 1..], x, k);
    assert AttachedRefs((ys + [x])[j + 1..], k) == AttachedRefs(ys[j + 1..], k);
    assert LastKey((ys + [x])[j + 1..], k) == Some(x);
  }

  /** One successful step keeps the entry of `k` that of the objects seen. */
  lemma EntryStep(ys: seq<Shape>, x: Shape, k: string)
    requires Resolve(ys).failure.None? && Step(Resolve(ys), x).failure.None?
    requires EntryFor(ys, Resolve(ys).tables, k)
    ensures EntryFor(ys + [x], Step(Resolve(ys), x).tables, k)
  {
    var s := Resolve(ys);
    var t := s.tables;
    var t' := Step(s, x).tables;
    if x.kind == TableType {
      if x.name == k {
        EntryNewTable(ys, x, k, t');
      } else {
        EntryUntouched(ys, x, k, t, t');
      }
    } else if x.kind == ReferenceType {
      if Connected(x) && OwnerTable(x) == Some(k) {
        EntryAttach(ys, x, k, t, t');
      } else {
        EntryUntouched(ys, x, k, t, t');
      }
    } else if x.kind == CompoundType {
      if KeysTable(x, k) {
        EntryKey(ys, x, k, t, t');
      } else {
        var names := CompoundTableNames(x);
        assert !(None !in names && |names| > 0 && AllSame(names) && names[0] == Some(k));
        EntryUntouched(ys, x, k, t, t');
      }
    } else {
      EntryUntouched(ys, x, k, t, t');
    }
  }

  lemma {:induction false} ResolveEntry(objs: seq<Shape>, k: string)
    requires Resolve(objs).failure.None?
    ensures EntryFor(objs, Resolve(objs).tables, k)
  {
    if |objs| > 0 {
      var init := objs[..|objs| - 1];
      var x := objs[|objs| - 1];
      assert objs == init + [x];
      ResolvePrefixSucceeds(objs);
      ResolveEntry(init, k);
      EntryStep(init, x, k);
    }
  }

  /** The table index after resolution: `k` is a key exactly when some table
      is named `k`, and its entry is built from the LAST such table, with the
      references attached to `k` after it and the last compound keyed on `k`
      after it. An earlier table of the same name is dropped with everything
      attached to it. */
  lemma TablesLastWins(objs: seq<Shape>, k: string)
    requires Resolve(objs).failure.None?
    ensures k in Resolve(objs).tables <==> LastTable(objs, k).Some?
    ensures LastTable(objs, k).Some? ==>
      var j := LastTable(objs, k).value;
      Resolve(objs).tables[k] == TableVal(objs[j], AttachedRefs(objs[j + 1..], k), LastKey(objs[j + 1..], k))
  {
    ResolveEntry(objs, k);
  }

  /** When resolution succeeds, the reference list is every reference shape,
      connected or not, in diagram order. */
  lemma {:induction false} RefsAreReferenceShapes(objs: seq<Shape>)
    requires Resolve(objs).failure.None?
    ensures Resolve(objs).refs == ReferenceShapes(objs)
  {
    if |objs| > 0 {
      ResolvePrefixSucceeds(objs);
      RefsAreReferenceShapes(objs[..|objs| - 1]);
    }
  }

  function CountConnected(refs: seq<Shape>): nat
    requires AllHaveEnds(refs)
  {
    if |refs| == 0 then 0
    else CountConnected(refs[..|refs| - 1]) + (if Connected(refs[|refs| - 1]) then 1 else 0)
  }

  /** One of the three warnings of a reference that is not connected. */
  predicate IsReferenceWarning(d: Diagnostic)
  {
    StartsWith(d.text, "Disconnected reference ") || d.text == "Diagram contains disconnected reference."
  }

  function CountReferenceWarnings(msgs: seq<Diagnostic>): nat
  {
    if |msgs| == 0 then 0
    else CountReferenceWarnings(msgs[..|msgs| - 1]) + (if IsReferenceWarning(msgs[|msgs| - 1]) then 1 else 0)
  }

  lemma CountReferenceWarningsSnoc(msgs: seq<Diagnostic>, d: Diagnostic)
    ensures CountReferenceWarnings(msgs + [d]) == CountReferenceWarnings(msgs) + (if IsReferenceWarning(d) then 1 else 0)
  {
    assert (msgs + [d])[..|msgs|] == msgs;
  }

  lemma CountConnectedSnoc(refs: seq<Shape>, r: Shape)
    requires AllHaveEnds(refs)
    requires HasEnds(r)
    ensures CountConnected(refs + [r]) == CountConnected(refs) + (if Connected(r) then 1 else 0)
  {
    assert (refs + [r])[..|refs|] == refs;
  }

  /** A text that differs from `p` at position `i` neither is `p` nor
      starts with it. */
  lemma DifferAt(s: string, p: string, i: nat)
    requires i < |p| && i < |s| && s[i] != p[i]
    ensures !StartsWith(s, p) && s != p
  {
  }

  /** A text that starts with `a` has `a`'s characters in front. */
  lemma CharOfPrefix(a: string, b: string, i: nat)
    requires i < |a|
    ensures (a + b)[i] == a[i]
  {
  }

  /** The warnings about compounds and unknown objects are not warnings
      about references. */
  lemma OtherWarningsAreNotReferenceWarnings(names: seq<Option<string>>, kind: string)
    ensures !IsReferenceWarning(Warning("Disconnected compound " + ReprList(names) + "."))
    ensures !IsReferenceWarning(Warning("Compound connected to more than one table " + ReprList(names) + "."))
    ensures !IsReferenceWarning(Warning("Unknown type: " + kind))
  {
    var a := "Disconnected compound " + ReprList(names) + ".";
    CharOfPrefix("Disconnected compound " + ReprList(names), ".", 13);
    CharOfPrefix("Disconnected compound ", ReprList(names), 13);
    DifferAt(a, "Disconnected reference ", 13);
    DifferAt(a, "Diagram contains disconnected reference.", 13);
    var b := "Compound connected to more than one table " + ReprList(names) + ".";
    CharOfPrefix("Compound connected to more than one table " + ReprList(names), ".", 0);
    CharOfPrefix("Compound connected to more than one table ", ReprList(names), 0);
    DifferAt(b, "Disconnected reference ", 0);
    DifferAt(b, "Diagram contains disconnected reference.", 0);
    var c := "Unknown type: " + kind;
    CharOfPrefix("Unknown type: ", kind, 0);
    DifferAt(c, "Disconnected reference ", 0);
    DifferAt(c, "Diagram contains disconnected reference.", 0);
  }

  lemma ReferenceWarningIsCounted(r: Shape)
    requires HasEnds(r) && !Connected(r)
    ensures IsReferenceWarning(Warning(ReferenceWarning(r).value))
  {
    var w := ReferenceWarning(r).value;
    if Truthy(OwnerTable(r)) {
      assert w[..23] == "Disconnected reference ";
    } else if Truthy(TargetTable(r)) {
      assert w[..23] == "Disconnected reference ";
    }
  }

  /** One step keeps the reference accounting. */
  lemma AccountingReference(s: State, x: Shape)
    requires s.failure.None? && x.kind == ReferenceType && ReferenceStep(s, x).failure.None?
    requires AllHaveEnds(s.refs)
    ensures AllHaveEnds(ReferenceStep(s, x).refs)
    ensures CountConnected(ReferenceStep(s, x).refs) + CountReferenceWarnings(ReferenceStep(s, x).msgs)
            == CountConnected(s.refs) + CountReferenceWarnings(s.msgs) + 1
  {
    var s' := ReferenceStep(s, x);
    assert s'.refs == s.refs + [x];
    CountConnectedSnoc(s.refs, x);
    if Connected(x) {
      assert s'.msgs == s.msgs;
    } else {
      var w := ReferenceWarning(x).value;
      assert s'.msgs == s.msgs + [Warning(w)];
      ReferenceWarningIsCounted(x);
      CountReferenceWarningsSnoc(s.msgs, Warning(w));
    }
  }

  lemma AccountingCompound(s: State, x: Shape)
    requires s.failure.None? && x.kind == CompoundType
    ensures CompoundStep(s, x).refs == s.refs
    ensures CountReferenceWarnings(CompoundStep(s, x).msgs) == CountReferenceWarnings(s.msgs)
  {
    var names := CompoundTableNames(x);
    OtherWarningsAreNotReferenceWarnings(names, x.kind);
    if None in names {
      CountReferenceWarningsSnoc(s.msgs, Warning("Disconnected compound " + ReprList(names) + "."));
    } else if |names| == 0 {
    } else if !AllSame(names) {
      CountReferenceWarningsSnoc(s.msgs, Warning("Compound connected to more than one table " + ReprList(names) + "."));
    }
  }

  lemma AccountingUnknown(s: State, kind: string)
    ensures CountReferenceWarnings(s.msgs + [Warning("Unknown type: " + kind)]) == CountReferenceWarnings(s.msgs)
  {
    OtherWarningsAreNotReferenceWarnings([], kind);
    CountReferenceWarningsSnoc(s.msgs, Warning("Unknown type: " + kind));
  }

  lemma AccountingStep(s: State, x: Shape)
    requires s.failure.None? && Step(s, x).failure.None?
    requires AllHaveEnds(s.refs)
    ensures AllHaveEnds(Step(s, x).refs)
    ensures CountConnected(Step(s, x).refs) + CountReferenceWarnings(Step(s, x).msgs)
            == CountConnected(s.refs) + CountReferenceWarnings(s.msgs) + (if x.kind == ReferenceType then 1 else 0)
  {
    if x.kind == TableType {
    } else if x.kind == ReferenceType {
      AccountingReference(s, x);
    } else if x.kind == CompoundType {
      AccountingCompound(s, x);
    } else {
      AccountingUnknown(s, x.kind);
    }
  }

  /** Every reference is accounted for once: either it is connected (and
      becomes a foreign key) or it produced exactly one reference warning. */
  lemma {:induction false} ReferenceAccounting(objs: seq<Shape>)
    requires Resolve(objs).failure.None?
    ensures AllHaveEnds(Resolve(objs).refs)
    ensures CountConnected(Resolve(objs).refs) + CountReferenceWarnings(Resolve(objs).msgs)
            == |ReferenceShapes(objs)|
  {
    if |objs| > 0 {
      var init := objs[..|objs| - 1];
      ResolvePrefixSucceeds(objs);
      ReferenceAccounting(init);
      AccountingStep(Resolve(init), objs[|objs| - 1]);
    }
  }

  /** Every message of the resolution pass is a warning. */
  lemma {:induction false} ResolutionOnlyWarns(objs: seq<Shape>)
    ensures forall i :: 0 <= i < |Resolve(objs).msgs| ==> Resolve(objs).msgs[i].level == WarningLevel
  {
    if |objs| > 0 {
      ResolutionOnlyWarns(objs[..|objs| - 1]);
    }
  }

  /** A reference is appended to the reference list in every outcome but an
      exception; a connected one goes to its owner's entry silently, and one
      that is not leaves the index alone and says which end is missing. */
  lemma ReferenceOutcome(s: State, r: Shape)
    requires s.failure.None? && r.kind == ReferenceType
    ensures !HasEnds(r) ==> Step(s, r) == s.(failure := Some(IndexError))
    ensures HasEnds(r) && Step(s, r).failure.None? ==> Step(s, r).refs == s.refs + [r]
    ensures HasEnds(r) && !Connected(r) ==>
      Step(s, r).tables == s.tables && Step(s, r).failure.None?
      && Step(s, r).msgs == s.msgs + [Warning(
           if Truthy(OwnerTable(r)) then "Disconnected reference to " + OwnerTable(r).value + "."
           else if Truthy(TargetTable(r)) then "Disconnected reference from " + TargetTable(r).value + "."
           else "Diagram contains disconnected reference.")]
    ensures HasEnds(r) && Connected(r) ==>
      var o := OwnerTable(r).value;
      Step(s, r).msgs == s.msgs
      && (o in s.tables <==> Step(s, r).failure.None?)
      && (o !in s.tables ==> Step(s, r).failure == Some(KeyError(o)))
      && (o in s.tables ==> Step(s, r).tables == s.tables[o := s.tables[o].(refs := s.tables[o].refs + [r])])
  {
  }

  /** A shape of any other type leaves the index and the reference list
      alone and gives one warning naming its type. */
  lemma UnknownTypeOnlyWarns(s: State, x: Shape)
    requires s.failure.None?
    requires x.kind != TableType && x.kind != ReferenceType && x.kind != CompoundType
    ensures Step(s, x).tables == s.tables && Step(s, x).refs == s.refs && Step(s, x).failure.None?
    ensures |Step(s, x).msgs| == |s.msgs| + 1 && Step(s, x).msgs[..|s.msgs|] == s.msgs
    ensures Step(s, x).msgs[|s.msgs|].level == WarningLevel
    ensures StartsWith(Step(s, x).msgs[|s.msgs|].text, "Unknown type: ")
    ensures EndsWith(Step(s, x).msgs[|s.msgs|].text, x.kind)
  {
    var s' := Step(s, x);
    assert s'.msgs == s.msgs + [Warning("Unknown type: " + x.kind)];
    assert s'.msgs[..|s.msgs|] == s.msgs;
    Framed("Unknown type: ", x.kind, "");
    assert "Unknown type: " + x.kind + "" == "Unknown type: " + x.kind;
  }

  /** A compound is applied whole or not at all: it sets the key of the one
      table all its anchors name, or leaves the index as it was. */
  lemma CompoundAllOrNothing(s: State, c: Shape)
    requires s.failure.None? && c.kind == CompoundType
    ensures Step(s, c).refs == s.refs
    ensures |CompoundTableNames(c)| > 0 ==> ((exists k :: KeysTable(c, k)) <==> Step(s, c).msgs == s.msgs)
    ensures forall k :: KeysTable(c, k) ==>
      if k in s.tables then Step(s, c).tables == s.tables[k := s.tables[k].(multiCol := Some(c))]
                            && Step(s, c).failure.None?
      else Step(s, c).failure == Some(KeyError(k))
    ensures (forall k :: !KeysTable(c, k)) ==>
      Step(s, c).tables == s.tables
      && (Step(s, c).failure.None? <==> |CompoundTableNames(c)| > 0)
      && (|CompoundTableNames(c)| == 0 ==> Step(s, c).failure == Some(IndexError))
    ensures (|CompoundTableNames(c)| > 0 && forall k :: !KeysTable(c, k)) ==>
      Step(s, c).msgs == s.msgs + [Warning(
        if None in CompoundTableNames(c) then "Disconnected compound " + ReprList(CompoundTableNames(c)) + "."
        else "Compound connected to more than one table " + ReprList(CompoundTableNames(c)) + ".")]
  {
    var names := CompoundTableNames(c);
    if None !in names && |names| > 0 && AllSame(names) {
      assert KeysTable(c, names[0].value);
    }
  }
}
