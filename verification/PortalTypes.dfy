/** Which types the layout pass marks as portals: those from which references lead to a slice or a
    view. */
module PortalTypes {
  import opened Memory
  import opened Ir
  import opened TypeLayout

  predicate IsRefKind(k: Kind) { k.KSlice? || k.KView? }

  function Kinds(rows: seq<Row>): (ks: seq<Kind>)
    ensures |ks| == |rows| && forall i :: 0 <= i < |rows| ==> ks[i] == rows[i].kind
  {
    seq(|rows|, i requires 0 <= i < |rows| => rows[i].kind)
  }

  /** A walk of references from t that ends at a slice or a view. */
  ghost predicate WalkToRef(rows: seq<Row>, t: nat, w: seq<nat>) {
    Walk(Kinds(rows), w) && w[0] == t && w[|w| - 1] < |rows| && IsRefKind(rows[w[|w| - 1]].kind)
  }

  ghost predicate LeadsToRef(rows: seq<Row>, t: nat) { exists w :: WalkToRef(rows, t, w) }

  /** The types that layout does not mark are not marked from before. */
  predicate ScalarsPlain(rows: seq<Row>) {
    forall t :: 0 <= t < |rows| && (rows[t].kind.KInt? || rows[t].kind.KByte? || rows[t].kind.KNative?) ==> !rows[t].portal
  }

  lemma LeadsFirst(rows: seq<Row>, t: nat)
    requires t < |rows|
    ensures LeadsToRef(rows, t) <==> IsRefKind(rows[t].kind) || exists e :: e in Edges(rows[t].kind) && LeadsToRef(rows, e)
  {
    var ks := Kinds(rows);
    if IsRefKind(rows[t].kind) {
      assert WalkToRef(rows, t, [t]);
    } else if LeadsToRef(rows, t) {
      var w :| WalkToRef(rows, t, w);
      var v := w[1..];
      assert w[0 + 1] in Edges(ks[w[0]]);
      forall i | 0 <= i < |v| - 1 ensures v[i] < |ks| && v[i + 1] in Edges(ks[v[i]]) { assert w[i + 1] < |ks| && w[i + 1 + 1] in Edges(ks[w[i + 1]]); }
      assert WalkToRef(rows, w[1], v);
    }
    if e :| e in Edges(rows[t].kind) && LeadsToRef(rows, e) {
      var w :| WalkToRef(rows, e, w);
      var v := [t] + w;
      forall i | 0 <= i < |v| - 1 ensures v[i] < |ks| && v[i + 1] in Edges(ks[v[i]]) {
        if i > 0 { assert w[i - 1] < |ks| && w[i - 1 + 1] in Edges(ks[w[i - 1]]); }
      }
      assert WalkToRef(rows, t, v);
    }
  }

  lemma MarkedIs(rows: seq<Row>, t: nat)
    requires t < |rows| && LaidOut(rows, t) && ScalarsPlain(rows)
    ensures rows[t].portal <==> IsRefKind(rows[t].kind) || exists e :: e in Edges(rows[t].kind) && e < |rows| && rows[e].portal
  {
    hide AlignUp, EndOf, MaxAlign;
    var k := rows[t].kind;
    if k.KStruct? {
      var tids := Edges(k);
      EdgesThere(rows, k);
      if AnyPortal(rows, tids, |tids|) {
        var i :| 0 <= i < |tids| && rows[tids[i]].portal;
        assert tids[i] in tids;
      }
      if e :| e in tids && e < |rows| && rows[e].portal {
        var i :| 0 <= i < |tids| && tids[i] == e;
        assert AnyPortal(rows, tids, |tids|);
      }
    } else if k.KArray? {
      assert k.elem in Edges(k);
    }
  }

  /** A laid-out type is a portal if and only if references lead from it to a slice or a view: so
      a struct that holds a slice anywhere inside is one. */
  lemma {:induction false} PortalMeans(rows: seq<Row>, order: seq<nat>, k: nat)
    requires InOrder(rows, order) && ScalarsPlain(rows) && k < |order| && order[k] < |rows|
    ensures rows[order[k]].portal <==> LeadsToRef(rows, order[k])
    decreases k
  {
    hide LaidOut, Edges, LeadsToRef, ScalarsPlain;
    var t := order[k];
    assert LaidOut(rows, order[k]);
    MarkedIs(rows, t);
    LeadsFirst(rows, t);
    forall e | e in Edges(rows[t].kind) ensures e < |rows| && (rows[e].portal <==> LeadsToRef(rows, e)) {
      assert e in order[..k];
      var j :| 0 <= j < k && order[..k][j] == e;
      OrderInRange(rows, order, e);
      PortalMeans(rows, order, j);
    }
  }
}
