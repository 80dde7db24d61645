/** The diagram as the exporter reads it, and the read-through views of it:
    `DiaColumn`, `DH.dia_table_name`, `DH.get_conn_field`, the endpoint
    lookups of `DiaReference` and the comprehensions of `DiaAttrCompound`. */
module Dia {
  import opened Text

  /** Index of the first connection point that belongs to a field line. */
  const FirstFieldConn: int := 12

  const TableType: string := "Database - Table"
  const ReferenceType: string := "Database - Reference"
  const CompoundType: string := "Database - Compound"

  /** The connect type of a compound handle that attaches to a table. */
  const TableAnchorHandle: int := 2

  /** One row of a table's `attributes` property:
      (name, type, comment, primary_key, nullable, unique, default_value). */
  datatype Attribute = Attribute(
    name: string,
    typeName: string,
    comment: string,
    primary: int,
    nullable: int,
    unique: int,
    defaultValue: string)
  {
    predicate IsPrimary() { primary == 1 }
    predicate IsNullable() { nullable == 1 }
    predicate IsUnique() { unique == 1 }
  }

  /** A diagram object: its type name, the properties the exporter reads, the
      number of its connection points and its handles. */
  datatype Shape = Shape(
    kind: string,
    name: string,
    comment: string,
    attributes: seq<Attribute>,
    connCount: nat,
    handles: seq<Handle>)

  /** A handle and the connection point it is attached to, if any. */
  datatype Handle = Handle(connectType: int, connectedTo: Option<ConnPoint>)

  /** A connection point: the object it belongs to, and which of that object's
      connection points it is. */
  datatype ConnPoint = ConnPoint(owner: Shape, index: nat)

  /** `DH.dia_table_name`. */
  function TableName(s: Shape): (r: Option<string>)
    ensures r.Some? <==> s.kind == TableType
    ensures r.Some? ==> r.value == s.name
  {
    if s.kind == TableType then Some(s.name) else None
  }

  /** The field line a connection point sits on, `(i - 12) / 2` in Python 2
      floor division; Dafny's `/` agrees with it for the divisor 2. */
  function FieldIndex(i: int): int
  {
    (i - FirstFieldConn) / 2
  }

  /** `DH.get_conn_field`: `None` when the connection point is not one of its
      owner's, the name of the attribute on its field line, or "" when that
      line is outside the attribute list. */
  function ConnField(cp: ConnPoint): Option<string>
  {
    if cp.index >= cp.owner.connCount then None
    else
      var f := FieldIndex(cp.index);
      if 0 <= f < |cp.owner.attributes| then Some(cp.owner.attributes[f].name) else Some("")
  }

  /** `DH.get_conn_field` as the source runs it: a search over the owner's
      connection points, then a counting walk over its attributes. */
  method GetConnField(cp: ConnPoint) returns (r: Option<string>)
    ensures r == ConnField(cp)
  {
    var tbl := cp.owner;
    var i := 0;
    var found := false;
    while i < tbl.connCount
      invariant 0 <= i <= tbl.connCount
      invariant i <= cp.index
    {
      if i == cp.index {
        found := true;
        break;
      }
      i := i + 1;
    }
    if !found {
      return None;
    }
    var fieldIdx := (i - FirstFieldConn) / 2;
    var idx := 0;
    var idxName := "";
    var attrs := tbl.attributes;
    while idx < |attrs|
      invariant 0 <= idx <= |attrs|
      invariant fieldIdx < 0 || idx <= fieldIdx
      invariant idxName == ""
    {
      if idx == fieldIdx {
        idxName := attrs[idx].name;
        break;
      }
      idx := idx + 1;
    }
    r := Some(idxName);
  }

  /** Both connection points of field line `j` resolve to attribute `j`. */
  lemma SlotResolvesToField(t: Shape, j: nat, side: nat)
    requires j < |t.attributes| && side < 2
    requires FirstFieldConn + 2 * j + side < t.connCount
    ensures ConnField(ConnPoint(t, FirstFieldConn + 2 * j + side)) == Some(t.attributes[j].name)
  {
    assert FieldIndex(FirstFieldConn + 2 * j + side) == j;
  }

  /** A connection point before the first field line, or after the last one,
      resolves to the empty name. */
  lemma SlotOutsideFieldsResolvesToEmpty(cp: ConnPoint)
    requires cp.index < cp.owner.connCount
    requires cp.index < FirstFieldConn || cp.index >= FirstFieldConn + 2 * |cp.owner.attributes|
    ensures ConnField(cp) == Some("")
  {
  }

  /** A connection point that is not among its owner's resolves to `None`. */
  lemma UnknownSlotResolvesToNone(cp: ConnPoint)
    requires cp.index >= cp.owner.connCount
    ensures ConnField(cp) == None
  {
  }

  /** The field line of a slot is `j` exactly when the slot is `12 + 2j` or
      `12 + 2j + 1`. */
  lemma FieldIndexExact(i: int, j: int)
    ensures FieldIndex(i) == j <==> (i == FirstFieldConn + 2 * j || i == FirstFieldConn + 2 * j + 1)
  {
  }

  // DiaReference

  predicate HasEnds(r: Shape) { |r.handles| >= 2 }

  /** `DiaReference._end_hndl_cpoint`: the foreign-key owner's end. */
  function EndPoint(r: Shape): Option<ConnPoint>
    requires HasEnds(r)
  {
    r.handles[1].connectedTo
  }

  /** `DiaReference._start_hndl_cpoint`: the referenced table's end. */
  function StartPoint(r: Shape): Option<ConnPoint>
    requires HasEnds(r)
  {
    r.handles[0].connectedTo
  }

  function PointTable(p: Option<ConnPoint>): Option<string>
  {
    match p
    case None => None
    case Some(cp) => TableName(cp.owner)
  }

  function PointField(p: Option<ConnPoint>): Option<string>
  {
    match p
    case None => None
    case Some(cp) => ConnField(cp)
  }

  /** `DiaReference.table_name`: the table that owns the foreign key. */
  function OwnerTable(r: Shape): Option<string>
    requires HasEnds(r)
  {
    PointTable(EndPoint(r))
  }

  /** `DiaReference.foreign_key`. */
  function ForeignKey(r: Shape): Option<string>
    requires HasEnds(r)
  {
    PointField(EndPoint(r))
  }

  /** `DiaReference.ref_table`: the referenced table. */
  function TargetTable(r: Shape): Option<string>
    requires HasEnds(r)
  {
    PointTable(StartPoint(r))
  }

  /** `DiaReference.ref_field`. */
  function TargetField(r: Shape): Option<string>
    requires HasEnds(r)
  {
    PointField(StartPoint(r))
  }

  /** The four lookups of a reference: its owner end is handle 1 and its
      referenced end handle 0; each end names a table exactly when it is
      attached to a table shape, and gives a field exactly when it is
      attached at all (the field is `None` for a point foreign to its owner). */
  lemma ReferenceLookups(r: Shape)
    requires HasEnds(r)
    ensures OwnerTable(r).Some? <==> r.handles[1].connectedTo.Some? && r.handles[1].connectedTo.value.owner.kind == TableType
    ensures OwnerTable(r).Some? ==> OwnerTable(r).value == r.handles[1].connectedTo.value.owner.name
    ensures TargetTable(r).Some? <==> r.handles[0].connectedTo.Some? && r.handles[0].connectedTo.value.owner.kind == TableType
    ensures TargetTable(r).Some? ==> TargetTable(r).value == r.handles[0].connectedTo.value.owner.name
    ensures r.handles[1].connectedTo.None? ==> ForeignKey(r).None?
    ensures r.handles[1].connectedTo.Some? ==> ForeignKey(r) == ConnField(r.handles[1].connectedTo.value)
    ensures r.handles[0].connectedTo.None? ==> TargetField(r).None?
    ensures r.handles[0].connectedTo.Some? ==> TargetField(r) == ConnField(r.handles[0].connectedTo.value)
  {
  }

  predicate AllHaveEnds(refs: seq<Shape>)
  {
    forall i :: 0 <= i < |refs| ==> HasEnds(refs[i])
  }

  /** A reference whose two ends name tables (with non-empty names). */
  predicate Connected(r: Shape)
    requires HasEnds(r)
  {
    Truthy(OwnerTable(r)) && Truthy(TargetTable(r))
  }

  // DiaAttrCompound

  /** `DiaAttrCompound._cpoints`: the attachments of the table-anchor handles,
      in handle order; the elbow handles are skipped. */
  function AnchorPoints(hs: seq<Handle>): seq<Option<ConnPoint>>
  {
    if |hs| == 0 then []
    else
      var rest := AnchorPoints(hs[..|hs| - 1]);
      if hs[|hs| - 1].connectType == TableAnchorHandle then rest + [hs[|hs| - 1].connectedTo] else rest
  }

  /** `p` is what some handle of connect type 2 is attached to. */
  predicate FromAnchorHandle(hs: seq<Handle>, p: Option<ConnPoint>)
  {
    exists j :: 0 <= j < |hs| && hs[j].connectType == TableAnchorHandle && hs[j].connectedTo == p
  }

  /** Every anchor point is the attachment of a handle of connect type 2, and
      every such handle's attachment is an anchor point. */
  lemma {:induction false} AnchorPointsAreAnchors(hs: seq<Handle>)
    ensures forall i :: 0 <= i < |AnchorPoints(hs)| ==> FromAnchorHandle(hs, AnchorPoints(hs)[i])
    ensures forall j :: 0 <= j < |hs| && hs[j].connectType == TableAnchorHandle ==> hs[j].connectedTo in AnchorPoints(hs)
  {
    if |hs| > 0 {
      var init := hs[..|hs| - 1];
      var h := hs[|hs| - 1];
      AnchorPointsAreAnchors(init);
      var ps := AnchorPoints(hs);
      var rest := AnchorPoints(init);
      assert ps == rest + (if h.connectType == TableAnchorHandle then [h.connectedTo] else []);
      forall i | 0 <= i < |ps|
        ensures FromAnchorHandle(hs, ps[i])
      {
        if i < |rest| {
          assert FromAnchorHandle(init, rest[i]);
          var j :| 0 <= j < |init| && init[j].connectType == TableAnchorHandle && init[j].connectedTo == rest[i];
          assert hs[j] == init[j];
        } else {
          assert hs[|hs| - 1] == h;
        }
      }
      forall j | 0 <= j < |hs| && hs[j].connectType == TableAnchorHandle
        ensures hs[j].connectedTo in ps
      {
        if j < |init| {
          assert init[j] == hs[j];
          assert hs[j].connectedTo in rest;
        }
      }
    }
  }

  /** `DiaAttrCompound.table_names`. */
  function CompoundTableNames(c: Shape): (r: seq<Option<string>>)
    ensures |r| == |AnchorPoints(c.handles)|
  {
    var ps := AnchorPoints(c.handles);
    seq(|ps|, i requires 0 <= i < |ps| => PointTable(ps[i]))
  }

  /** `DiaAttrCompound.field_names`. */
  function CompoundFieldNames(c: Shape): (r: seq<Option<string>>)
    ensures |r| == |AnchorPoints(c.handles)|
  {
    var ps := AnchorPoints(c.handles);
    seq(|ps|, i requires 0 <= i < |ps| => PointField(ps[i]))
  }

  /** The anchor points are exactly the attachments of the handles whose
      connect type is 2, in handle order. */
  lemma {:induction false} AnchorPointsOfHandles(hs: seq<Handle>, k: nat)
    requires k <= |hs|
    ensures AnchorPoints(hs[..k]) + AnchorPoints(hs[k..]) == AnchorPoints(hs)
    decreases |hs|
  {
    if k < |hs| {
      var init := hs[..|hs| - 1];
      AnchorPointsOfHandles(init, k);
      assert init[..k] == hs[..k];
      assert hs[k..][..|hs[k..]| - 1] == init[k..];
    } else {
      assert hs[..k] == hs;
      assert hs[k..] == [];
    }
  }
}
