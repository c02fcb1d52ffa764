/** The layout of types: sizes, alignments and offsets, computed by a depth-first walk over
    the types that colours what it is working on. */
module TypeLayout {
  import opened Memory
  import opened Ir

  /** A type before and after its layout. */
  datatype Row = Row(kind: Kind, portal: bool, payload: nat, size: nat, align: nat)

  datatype State = PENDING | ACTIVE | DONE

  const BYTE: nat := 1  // TYPE_BYTE_ID
  const CELL_ALIGN: nat := 8
  const SLICE_SIZE: nat := 12

  function AlignUp(n: nat, align: nat): nat
    requires align > 0
  {
    (n + align - 1) / align * align
  }

  lemma AlignUpMeans(n: nat, align: nat)
    requires align > 0
    ensures n <= AlignUp(n, align) < n + align && AlignUp(n, align) % align == 0
  {
    var q, r := (n + align - 1) / align, (n + align - 1) % align;
    assert n + align - 1 == q * align + r;
    RemainderIs(q * align, align, q, 0);
  }

  // ----- which types refer to which -----

  function Edges(k: Kind): seq<nat> {
    match k
    case KArray(elem, _, _) => [elem]
    case KSlice(elem) => [elem]
    case KView(elem) => [elem]
    case KStruct(fields) => seq(|fields|, i requires 0 <= i < |fields| => fields[i].tid)
    case _ => []
  }

  /** A native signature only names types; they are not laid out for it. */
  predicate NamesOk(k: Kind, n: nat) {
    k.KNative? ==>
      && (forall i :: 0 <= i < |k.sig.outs| ==> k.sig.outs[i] < n)
      && (forall i :: 0 <= i < |k.sig.ins| ==> k.sig.ins[i] < n)
  }

  /** The part of a kind that layout does not write. */
  function Shape(k: Kind): Kind {
    match k
    case KArray(elem, capacity, _) => KArray(elem, capacity, 0)
    case KStruct(fields) => KStruct(seq(|fields|, i requires 0 <= i < |fields| => Field(fields[i].tid, 0)))
    case _ => k
  }

  lemma ShapeKeepsEdges(a: Kind, b: Kind, n: nat)
    requires Shape(a) == Shape(b)
    ensures Edges(a) == Edges(b) && NamesOk(a, n) == NamesOk(b, n)
  {
    if a.KStruct? {
      forall i | 0 <= i < |a.fields| ensures a.fields[i].tid == b.fields[i].tid {
        assert Shape(a).fields[i] == Shape(b).fields[i];
      }
    }
  }

  /** A walk along references; only its last type may be missing. */
  predicate Walk(ks: seq<Kind>, w: seq<nat>) {
    |w| > 0 && forall i :: 0 <= i < |w| - 1 ==> w[i] < |ks| && w[i + 1] in Edges(ks[w[i]])
  }

  /** A walk that ends in a missing type, in a native type that names one, or where it was before. */
  predicate BadWalk(ks: seq<Kind>, w: seq<nat>) {
    && Walk(ks, w)
    && (w[|w| - 1] >= |ks| || !NamesOk(ks[w[|w| - 1]], |ks|) || w[|w| - 1] in w[..|w| - 1])
  }

  // ----- what a layout is -----

  function EndOf(rows: seq<Row>, tids: seq<nat>, n: nat): nat
    requires n <= |tids| && forall i :: 0 <= i < n ==> tids[i] < |rows| && rows[tids[i]].align > 0
  {
    if n == 0 then 0 else AlignUp(EndOf(rows, tids, n - 1), rows[tids[n - 1]].align) + rows[tids[n - 1]].payload
  }

  function MaxAlign(rows: seq<Row>, tids: seq<nat>, n: nat): (r: nat)
    requires n <= |tids| && forall i :: 0 <= i < n ==> tids[i] < |rows|
    ensures r > 0
  {
    if n == 0 then 1 else
    var m, a := MaxAlign(rows, tids, n - 1), rows[tids[n - 1]].align;
    if m < a then a else m
  }

  predicate AnyPortal(rows: seq<Row>, tids: seq<nat>, n: nat)
    requires n <= |tids| && forall i :: 0 <= i < n ==> tids[i] < |rows|
  {
    exists i :: 0 <= i < n && rows[tids[i]].portal
  }

  /** Every type that t refers to is there, with a positive alignment. */
  predicate Grounded(rows: seq<Row>, k: Kind) {
    forall e :: e in Edges(k) ==> e < |rows| && rows[e].align > 0
  }

  predicate StructLaid(rows: seq<Row>, r: Row, fields: seq<Field>, tids: seq<nat>)
    requires r.kind == KStruct(fields) && tids == Edges(r.kind) && Grounded(rows, r.kind)
  {
    EdgesThere(rows, r.kind);
    && (r.portal <==> AnyPortal(rows, tids, |tids|))
    && (forall i :: 0 <= i < |fields| ==> fields[i].offset == AlignUp(EndOf(rows, tids, i), rows[tids[i]].align))
    && r.align == MaxAlign(rows, tids, |tids|)
    && r.payload == AlignUp(EndOf(rows, tids, |tids|), r.align)
  }

  /** Type t has the layout that follows from the layouts of the types it refers to. */
  predicate LaidOut(rows: seq<Row>, t: nat)
    requires t < |rows|
  {
    var r := rows[t];
    Grounded(rows, r.kind) && NamesOk(r.kind, |rows|) && r.size == AlignUp(r.payload, CELL_ALIGN) &&
    match r.kind
    case KInt => r.payload == NUM_SIZE && r.align == 8
    case KByte => r.payload == 1 && r.align == 1
    case KArray(elem, capacity, dataOffset) =>
      assert elem in Edges(r.kind);
      var e := rows[elem];
      && r.portal == e.portal && r.align == (if e.align > 4 then e.align else 4)
      && dataOffset == AlignUp(COUNT_SIZE, e.align)
      && r.payload == AlignUp(dataOffset + e.payload * capacity, r.align)
    case KSlice(_) => r.portal && r.payload == SLICE_SIZE && r.align == 8
    case KView(_) => r.portal && r.payload == SLICE_SIZE && r.align == 8
    case KStruct(fields) =>
      StructLaid(rows, r, fields, Edges(r.kind))
    case KNative(_) => r.payload == PTR_SIZE && r.align == 8
  }

  lemma EdgesThere(rows: seq<Row>, k: Kind)
    requires Grounded(rows, k)
    ensures forall i :: 0 <= i < |Edges(k)| ==> Edges(k)[i] < |rows| && rows[Edges(k)[i]].align > 0
  {
    forall i | 0 <= i < |Edges(k)| ensures Edges(k)[i] < |rows| && rows[Edges(k)[i]].align > 0 {
      assert Edges(k)[i] in Edges(k);
    }
  }

  /** The types laid out so far, in the order in which they were finished: each refers only to
      earlier ones. */
  ghost predicate InOrder(rows: seq<Row>, order: seq<nat>) {
    && (forall k :: 0 <= k < |order| ==> order[k] < |rows| && LaidOut(rows, order[k]))
    && (forall k :: 0 <= k < |order| ==> forall e :: e in Edges(rows[order[k]].kind) ==> e in order[..k])
  }

  // ----- frames -----

  lemma {:induction false} EndFrame(rows: seq<Row>, rows1: seq<Row>, tids: seq<nat>, n: nat)
    requires n <= |tids| && |rows1| == |rows|
    requires forall i :: 0 <= i < n ==> tids[i] < |rows| && rows[tids[i]].align > 0 && rows1[tids[i]] == rows[tids[i]]
    ensures EndOf(rows1, tids, n) == EndOf(rows, tids, n)
    ensures MaxAlign(rows1, tids, n) == MaxAlign(rows, tids, n)
    ensures AnyPortal(rows1, tids, n) == AnyPortal(rows, tids, n)
  {
    if n > 0 { EndFrame(rows, rows1, tids, n - 1); }
  }

  /** A layout depends only on the type itself and those it refers to. */
  lemma LaidOutFrame(rows: seq<Row>, rows1: seq<Row>, t: nat)
    requires t < |rows| == |rows1| && LaidOut(rows, t) && rows1[t] == rows[t]
    requires forall e :: e in Edges(rows[t].kind) ==> e < |rows| && rows1[e] == rows[e]
    ensures LaidOut(rows1, t)
  {
    var k := rows[t].kind;
    if k.KStruct? {
      var tids := Edges(k);
      EdgesThere(rows, k);
      forall i | 0 <= i < |tids| ensures rows1[tids[i]] == rows[tids[i]] { assert tids[i] in tids; }
      EndFrame(rows, rows1, tids, |tids|);
      forall i | 0 <= i < |tids| ensures EndOf(rows1, tids, i) == EndOf(rows, tids, i) { EndFrame(rows, rows1, tids, i); }
    }
  }

  /** One more finished type, when only it was written. */
  lemma Finished(rows: seq<Row>, rows1: seq<Row>, order: seq<nat>, t: nat)
    requires InOrder(rows, order) && t < |rows| == |rows1| && t !in order && LaidOut(rows1, t)
    requires forall u :: 0 <= u < |rows| && u != t ==> rows1[u] == rows[u]
    requires forall e :: e in Edges(rows1[t].kind) ==> e in order
    ensures InOrder(rows1, order + [t])
  {
    hide LaidOut, Edges;
    var next := order + [t];
    assert next[..|order|] == order;
    forall k | 0 <= k < |next|
      ensures next[k] < |rows1| && LaidOut(rows1, next[k])
      ensures forall e :: e in Edges(rows1[next[k]].kind) ==> e in next[..k]
    {
      if k < |order| {
        assert order[k] in order;
        EarlierEdges(rows, order, k);
        LaidOutFrame(rows, rows1, order[k]);
        assert next[..k] == order[..k];
      }
    }
  }

  lemma EarlierEdges(rows: seq<Row>, order: seq<nat>, k: nat)
    requires InOrder(rows, order) && k < |order|
    ensures forall e :: e in Edges(rows[order[k]].kind) ==> e in order && e < |rows|
  {
    hide LaidOut, Edges;
    forall e | e in Edges(rows[order[k]].kind) ensures e in order && e < |rows| {
      assert e in order[..k];
      var j :| 0 <= j < k && order[..k][j] == e;
      assert order[j] == e;
    }
  }

  // ----- the number of types not begun -----

  function Pending(s: seq<State>): nat {
    if |s| == 0 then 0 else (if s[0] == PENDING then 1 else 0) + Pending(s[1..])
  }

  lemma {:induction false} PendingSet(s: seq<State>, i: nat, v: State)
    requires i < |s| && v != PENDING
    ensures Pending(s[i := v]) == Pending(s) - (if s[i] == PENDING then 1 else 0)
  {
    if i == 0 {
      assert s[0 := v][1..] == s[1..];
    } else {
      assert s[i := v][1..] == s[1..][i - 1 := v];
      PendingSet(s[1..], i - 1, v);
    }
  }

  // ----- the walk -----

  class Layouter {
    const kinds: seq<Kind>
    const rows: array<Row>
    const states: array<State>
    ghost var order: seq<nat>

    constructor (types: array<Row>)
      ensures rows == types && kinds == seq(types.Length, i requires 0 <= i < types.Length reads types => types[i].kind)
      ensures fresh(states) && Valid([])
    {
      kinds := seq(types.Length, i requires 0 <= i < types.Length reads types => types[i].kind);
      rows := types;
      states := new State[types.Length](_ => PENDING);
      order := [];
    }

    /** `path` is the walk the types that are being worked on lie on. */
    ghost predicate Valid(path: seq<nat>)
      reads this, rows, states
    {
      && rows.Length == states.Length == |kinds|
      && (forall t :: 0 <= t < |kinds| ==> Shape(rows[t].kind) == Shape(kinds[t]))
      && InOrder(rows[..], order)
      && (forall t :: 0 <= t < |kinds| ==> (states[t] == DONE <==> t in order) && (states[t] == ACTIVE <==> t in path))
      && (forall t :: t in path ==> t < |kinds|)
    }

    /** type_layout_one: the type and all it refers to are laid out, or a bad walk leads on. */
    method One(tid: nat, ghost path: seq<nat>) returns (ok: bool)
      requires Valid(path) && Walk(kinds, path + [tid])
      modifies rows, states, this`order
      ensures ok ==> Valid(path) && tid in order && Pending(states[..]) <= old(Pending(states[..]))
      ensures ok ==> old(order) <= order
      ensures ok ==> forall t :: (t in path || t in old(order)) && t < |kinds| ==> rows[t] == old(rows[t])
      ensures !ok ==> exists w :: BadWalk(kinds, w) && path + [tid] <= w
      decreases Pending(states[..]), 0
    {
      hide LaidOut, Edges, Shape, InOrder, Walk, BadWalk, Pending, NamesOk;
      ghost var path1 := path + [tid];
      ok := false;
      if tid >= rows.Length {
        EndsBadly(kinds, path, tid);
        return;
      }
      if states[tid] == DONE { return true; }
      if states[tid] == ACTIVE {
        EndsBadly(kinds, path, tid);
        return;
      }
      PendingSet(states[..], tid, ACTIVE);
      ghost var before := states[..];
      states[tid] := ACTIVE;
      assert states[..] == before[tid := ACTIVE];
      match rows[tid].kind {
        case KInt => ok := LayScalar(tid, NUM_SIZE, 8, path1);
        case KByte => ok := LayScalar(tid, 1, 1, path1);
        case KArray(elem, capacity, _) => ok := LayArray(tid, elem, capacity, path1);
        case KSlice(elem) => ok := LayRef(tid, elem, path1);
        case KView(elem) => ok := LayRef(tid, elem, path1);
        case KStruct(fields) => ok := LayStruct(tid, fields, path1);
        case KNative(sig) => ok := LayNative(tid, sig, path1);
      }
      if !ok { return; }
      Settle(tid, path);
    }

    /** The size is rounded up to whole cells, and the type is done. */
    method Settle(tid: nat, ghost path: seq<nat>)
      requires Valid(path + [tid]) && tid < rows.Length && tid !in path && ExceptSize(rows[..], tid)
      requires forall e :: e in Edges(rows[tid].kind) ==> e in order
      modifies rows, states, this`order
      ensures Valid(path) && order == old(order) + [tid] && Pending(states[..]) == old(Pending(states[..]))
      ensures forall t :: 0 <= t < rows.Length && t != tid ==> rows[t] == old(rows[t])
    {
      hide LaidOut, Edges, Shape, InOrder, Pending;
      assert forall t :: t in path + [tid] <==> t in path || t == tid;
      assert forall t :: t in order + [tid] <==> t in order || t == tid;
      ghost var rows0, states0 := rows[..], states[..];
      rows[tid] := rows[tid].(size := AlignUp(rows[tid].payload, CELL_ALIGN));
      assert rows[..] == rows0[tid := rows[tid]];
      Finished(rows0, rows[..], order, tid);
      PendingSet(states0, tid, DONE);
      states[tid] := DONE;
      assert states[..] == states0[tid := DONE];
      order := order + [tid];
    }

    /** What laying out the body of a type promises: all but the size is there. */
    method LayScalar(tid: nat, payload: nat, align: nat, ghost path: seq<nat>) returns (ok: bool)
      requires Valid(path) && tid in path && tid < rows.Length
      requires (rows[tid].kind.KInt? && payload == NUM_SIZE && align == 8) || (rows[tid].kind.KByte? && payload == 1 && align == 1)
      modifies rows
      ensures ok && Valid(path) && ExceptSize(rows[..], tid) && forall e :: e in Edges(rows[tid].kind) ==> e in order
      ensures forall t :: 0 <= t < rows.Length && t != tid ==> rows[t] == old(rows[t])
    {
      ghost var rows0 := rows[..];
      rows[tid] := rows[tid].(payload := payload, align := align);
      assert rows[..] == rows0[tid := rows[tid]];
      OrderFrame(rows0, rows[..], order, tid);
      ok := true;
    }

    method LayNative(tid: nat, sig: Sig, ghost path: seq<nat>) returns (ok: bool)
      requires Valid(path) && tid < rows.Length && rows[tid].kind == KNative(sig)
      requires |path| > 0 && path[|path| - 1] == tid && Walk(kinds, path)
      modifies rows
      ensures ok ==> Valid(path) && ExceptSize(rows[..], tid) && forall e :: e in Edges(rows[tid].kind) ==> e in order
      ensures ok ==> forall t :: 0 <= t < rows.Length && t != tid ==> rows[t] == old(rows[t])
      ensures !ok ==> exists w :: BadWalk(kinds, w) && path <= w
    {
      assert tid in path;
      ShapeKeepsEdges(rows[tid].kind, kinds[tid], |kinds|);
      var i := 0;
      while i < |sig.outs|
        invariant i <= |sig.outs| && forall k :: 0 <= k < i ==> sig.outs[k] < rows.Length
      {
        if sig.outs[i] >= rows.Length {
          assert BadWalk(kinds, path);
          return false;
        }
        i := i + 1;
      }
      i := 0;
      while i < |sig.ins|
        invariant i <= |sig.ins| && forall k :: 0 <= k < i ==> sig.ins[k] < rows.Length
      {
        if sig.ins[i] >= rows.Length {
          assert BadWalk(kinds, path);
          return false;
        }
        i := i + 1;
      }
      ghost var rows0 := rows[..];
      rows[tid] := rows[tid].(payload := PTR_SIZE, align := 8);
      assert rows[..] == rows0[tid := rows[tid]];
      OrderFrame(rows0, rows[..], order, tid);
      ok := true;
    }

    method LayRef(tid: nat, elem: nat, ghost path: seq<nat>) returns (ok: bool)
      requires Valid(path) && tid < rows.Length && (rows[tid].kind == KSlice(elem) || rows[tid].kind == KView(elem))
      requires |path| > 0 && path[|path| - 1] == tid && Walk(kinds, path)
      modifies rows, states, this`order
      ensures ok ==> Valid(path) && ExceptSize(rows[..], tid) && forall e :: e in Edges(rows[tid].kind) ==> e in order
      ensures ok ==> old(order) <= order && Pending(states[..]) <= old(Pending(states[..]))
      ensures ok ==> forall t :: (t in path || t in old(order)) && t < |kinds| && t != tid ==> rows[t] == old(rows[t])
      ensures !ok ==> exists w :: BadWalk(kinds, w) && path <= w
      decreases Pending(states[..]), 1
    {
      hide InOrder, Pending, BadWalk;
      assert tid in path;
      ShapeKeepsEdges(rows[tid].kind, kinds[tid], |kinds|);
      WalkOn(kinds, path, elem);
      ok := One(elem, path);
      if !ok {
        LongerWalk(kinds, path, elem);
        return;
      }
      ghost var rows0 := rows[..];
      DoneIsLaidOut(rows0, order, elem);
      rows[tid] := rows[tid].(portal := true, payload := SLICE_SIZE, align := 8);
      assert rows[..] == rows0[tid := rows[tid]];
      OrderFrame(rows0, rows[..], order, tid);
    }

    method LayArray(tid: nat, elem: nat, capacity: nat, ghost path: seq<nat>) returns (ok: bool)
      requires Valid(path) && tid < rows.Length && rows[tid].kind.KArray? && rows[tid].kind.elem == elem && rows[tid].kind.capacity == capacity
      requires |path| > 0 && path[|path| - 1] == tid && Walk(kinds, path)
      modifies rows, states, this`order
      ensures ok ==> Valid(path) && ExceptSize(rows[..], tid) && forall e :: e in Edges(rows[tid].kind) ==> e in order
      ensures ok ==> old(order) <= order && Pending(states[..]) <= old(Pending(states[..]))
      ensures ok ==> forall t :: (t in path || t in old(order)) && t < |kinds| && t != tid ==> rows[t] == old(rows[t])
      ensures !ok ==> exists w :: BadWalk(kinds, w) && path <= w
      decreases Pending(states[..]), 1
    {
      hide InOrder, Pending, BadWalk, AlignUp, LaidOut, ExceptSize, Walk;
      assert tid in path;
      ShapeKeepsEdges(rows[tid].kind, kinds[tid], |kinds|);
      WalkOn(kinds, path, elem);
      ok := One(elem, path);
      if !ok {
        LongerWalk(kinds, path, elem);
        return;
      }
      ghost var rows0 := rows[..];
      DoneIsLaidOut(rows0, order, elem);
      var e := rows[elem];
      var align := if e.align > 4 then e.align else 4;
      var dataOffset := AlignUp(COUNT_SIZE, e.align);
      rows[tid] := rows[tid].(kind := KArray(elem, capacity, dataOffset), portal := e.portal, align := align,
                              payload := AlignUp(dataOffset + e.payload * capacity, align));
      assert rows[..] == rows0[tid := rows[tid]];
      ArrayIsLaidOut(rows0, rows[..], order, tid, elem, capacity);
      OrderFrame(rows0, rows[..], order, tid);
    }

    method LayStruct(tid: nat, fields: seq<Field>, ghost path: seq<nat>) returns (ok: bool)
      requires Valid(path) && tid < rows.Length && rows[tid].kind == KStruct(fields)
      requires |path| > 0 && path[|path| - 1] == tid && Walk(kinds, path)
      modifies rows, states, this`order
      ensures ok ==> Valid(path) && ExceptSize(rows[..], tid) && forall e :: e in Edges(rows[tid].kind) ==> e in order
      ensures ok ==> old(order) <= order && Pending(states[..]) <= old(Pending(states[..]))
      ensures ok ==> forall t :: (t in path || t in old(order)) && t < |kinds| && t != tid ==> rows[t] == old(rows[t])
      ensures !ok ==> exists w :: BadWalk(kinds, w) && path <= w
      decreases Pending(states[..]), 2
    {
      hide InOrder, Pending, BadWalk, AlignUp, Walk, LaidOut, StructSoFar, Edges, Shape;
      assert tid in path;
      ghost var tids := Edges(rows[tid].kind);
      StructFields(rows[tid].kind);
      ghost var rows0 := rows[..];
      rows[tid] := rows[tid].(portal := false);
      OrderFrame(rows0, rows[..], order, tid);
      StructBegins(rows[..], order, tid, tids);
      var offset, maxAlign, i := 0, 1, 0;
      while i < |fields|
        invariant i <= |fields| && Valid(path) && old(order) <= order && Pending(states[..]) <= old(Pending(states[..]))
        invariant forall t :: (t in path || t in old(order)) && t < |kinds| && t != tid ==> rows[t] == old(rows[t])
        invariant StructSoFar(rows[..], order, tid, tids, i, offset, maxAlign)
      {
        ok, offset, maxAlign := LayField(tid, fields[i].tid, i, offset, maxAlign, tids, path);
        if !ok { return; }
        i := i + 1;
      }
      ghost var rows2 := rows[..];
      StructMeans(rows2, order, tid, tids, |tids|, offset, maxAlign);
      rows[tid] := rows[tid].(align := maxAlign, payload := AlignUp(offset, maxAlign));
      assert rows[..] == rows2[tid := rows[tid]];
      StructIsLaidOut(rows2, rows[..], order, tid, tids, offset, maxAlign);
      OrderFrame(rows2, rows[..], order, tid);
      ok := true;
    }

    /** One field of a struct: its type is laid out, and it is put behind the fields before it. */
    method LayField(tid: nat, field: nat, i: nat, offset0: nat, maxAlign0: nat, ghost tids: seq<nat>, ghost path: seq<nat>)
      returns (ok: bool, offset: nat, maxAlign: nat)
      requires Valid(path) && tid < rows.Length && |path| > 0 && path[|path| - 1] == tid && Walk(kinds, path)
      requires i < |tids| && tids[i] == field && StructSoFar(rows[..], order, tid, tids, i, offset0, maxAlign0)
      modifies rows, states, this`order
      ensures ok ==> Valid(path) && old(order) <= order && Pending(states[..]) <= old(Pending(states[..]))
      ensures ok ==> forall t :: (t in path || t in old(order)) && t < |kinds| && t != tid ==> rows[t] == old(rows[t])
      ensures ok ==> StructSoFar(rows[..], order, tid, tids, i + 1, offset, maxAlign)
      ensures !ok ==> exists w :: BadWalk(kinds, w) && path <= w
      decreases Pending(states[..]), 1
    {
      hide InOrder, Pending, BadWalk, AlignUp, Walk, LaidOut, StructSoFar, Edges, Shape;
      assert tid in path;
      ghost var rows0, order0 := rows[..], order;
      StructMeans(rows0, order, tid, tids, i, offset0, maxAlign0);
      ShapeKeepsEdges(rows[tid].kind, kinds[tid], |kinds|);
      assert field in tids;
      WalkOn(kinds, path, field);
      ok := One(field, path);
      offset, maxAlign := offset0, maxAlign0;
      if !ok {
        LongerWalk(kinds, path, field);
        return;
      }
      DoneIsLaidOut(rows[..], order, field);
      ghost var rows1 := rows[..];
      FieldsStay(rows0, rows1, order0, order, tid, tids, i, offset, maxAlign);
      assert field in order && states[tid] == ACTIVE;
      var f := rows[field];
      offset := AlignUp(offset, f.align);
      StructMeans(rows1, order, tid, tids, i, offset0, maxAlign);
      rows[tid] := rows[tid].(portal := rows[tid].portal || f.portal,
                              kind := KStruct(rows[tid].kind.fields[i := rows[tid].kind.fields[i].(offset := offset)]));
      assert rows[..] == rows1[tid := rows[tid]];
      if maxAlign < f.align { maxAlign := f.align; }
      OffsetSet(rows1, rows[..], order, tid, tids, i, offset0, maxAlign0);
      OrderFrame(rows1, rows[..], order, tid);
      offset := offset + f.payload;
    }
  }

  /** The first n fields' types are done. */
  ghost predicate FieldsDone(rows: seq<Row>, order: seq<nat>, tids: seq<nat>, n: nat) {
    n <= |tids| && forall k :: 0 <= k < n ==> tids[k] in order && tids[k] < |rows| && rows[tids[k]].align > 0
  }

  /** The first n fields have their offsets. */
  ghost predicate OffsetsDone(rows: seq<Row>, t: nat, tids: seq<nat>, n: nat)
    requires t < |rows| && rows[t].kind.KStruct? && |rows[t].kind.fields| == |tids| && n <= |tids|
    requires forall k :: 0 <= k < n ==> tids[k] < |rows| && rows[tids[k]].align > 0
  {
    forall k :: 0 <= k < n ==> rows[t].kind.fields[k].offset == AlignUp(EndOf(rows, tids, k), rows[tids[k]].align)
  }

  /** A struct whose first n fields are placed. */
  ghost predicate StructSoFar(rows: seq<Row>, order: seq<nat>, t: nat, tids: seq<nat>, n: nat, offset: nat, maxAlign: nat) {
    && t < |rows| && rows[t].kind.KStruct? && Edges(rows[t].kind) == tids && FieldsDone(rows, order, tids, n)
    && OffsetsDone(rows, t, tids, n)
    && offset == EndOf(rows, tids, n) && maxAlign == MaxAlign(rows, tids, n) && rows[t].portal == AnyPortal(rows, tids, n)
  }

  lemma StructMeans(rows: seq<Row>, order: seq<nat>, t: nat, tids: seq<nat>, n: nat, offset: nat, maxAlign: nat)
    requires StructSoFar(rows, order, t, tids, n, offset, maxAlign)
    ensures t < |rows| && rows[t].kind.KStruct? && Edges(rows[t].kind) == tids && |tids| == |rows[t].kind.fields| && maxAlign > 0
  {
  }

  lemma StructFields(k: Kind)
    requires k.KStruct?
    ensures |Edges(k)| == |k.fields| && forall i :: 0 <= i < |k.fields| ==> Edges(k)[i] == k.fields[i].tid
  {
  }

  lemma StructBegins(rows: seq<Row>, order: seq<nat>, t: nat, tids: seq<nat>)
    requires t < |rows| && rows[t].kind.KStruct? && Edges(rows[t].kind) == tids && !rows[t].portal
    ensures StructSoFar(rows, order, t, tids, 0, 0, 1)
  {
  }

  /** Laying out one more type leaves the fields before it as they were. */
  lemma FieldsStay(rows: seq<Row>, rows1: seq<Row>, order: seq<nat>, order1: seq<nat>, t: nat, tids: seq<nat>, n: nat, offset: nat, maxAlign: nat)
    requires t < |rows| == |rows1| && rows1[t] == rows[t] && order <= order1
    requires forall u :: u in order && u < |rows| ==> rows1[u] == rows[u]
    requires StructSoFar(rows, order, t, tids, n, offset, maxAlign)
    ensures StructSoFar(rows1, order1, t, tids, n, offset, maxAlign)
  {
    hide AlignUp;
    EndFrame(rows, rows1, tids, n);
    forall k | 0 <= k < n ensures tids[k] in order1 && EndOf(rows1, tids, k) == EndOf(rows, tids, k) {
      EndFrame(rows, rows1, tids, k);
    }
  }

  function WithOffset(k: Kind, n: nat, offset: nat): Kind
    requires k.KStruct? && n < |k.fields|
  {
    KStruct(k.fields[n := k.fields[n].(offset := offset)])
  }

  /** Placing a field changes neither the fields' types nor the other offsets. */
  lemma PlacedKind(k: Kind, n: nat, offset: nat)
    requires k.KStruct? && n < |k.fields|
    ensures Shape(WithOffset(k, n, offset)) == Shape(k) && Edges(WithOffset(k, n, offset)) == Edges(k)
  {
    assert Shape(k).fields == Shape(WithOffset(k, n, offset)).fields;
    ShapeKeepsEdges(k, WithOffset(k, n, offset), 0);
  }

  /** Up to a field, the ends are the same as long as the laid out types are. */
  lemma EndsFrame(rows: seq<Row>, rows1: seq<Row>, tids: seq<nat>, n: nat)
    requires n <= |tids| && |rows1| == |rows|
    requires forall i :: 0 <= i < n ==> tids[i] < |rows| && rows[tids[i]].align > 0 && rows1[tids[i]] == rows[tids[i]]
    ensures forall k :: 0 <= k < n ==> EndOf(rows1, tids, k) == EndOf(rows, tids, k)
  {
    hide EndOf, MaxAlign, AnyPortal;
    forall k | 0 <= k < n ensures EndOf(rows1, tids, k) == EndOf(rows, tids, k) { EndFrame(rows, rows1, tids, k); }
  }

  /** The end, the alignment and the portal flag after one more field. */
  lemma OneMoreField(rows: seq<Row>, tids: seq<nat>, n: nat)
    requires n < |tids| && forall i :: 0 <= i <= n ==> tids[i] < |rows| && rows[tids[i]].align > 0
    ensures var f := rows[tids[n]];
      && EndOf(rows, tids, n + 1) == AlignUp(EndOf(rows, tids, n), f.align) + f.payload
      && MaxAlign(rows, tids, n + 1) == (if MaxAlign(rows, tids, n) < f.align then f.align else MaxAlign(rows, tids, n))
      && AnyPortal(rows, tids, n + 1) == (AnyPortal(rows, tids, n) || f.portal)
  {
    hide AlignUp;
  }

  /** One more field is placed. */
  lemma OffsetSet(rows: seq<Row>, rows1: seq<Row>, order: seq<nat>, t: nat, tids: seq<nat>, n: nat, end: nat, maxAlign: nat)
    requires StructSoFar(rows, order, t, tids, n, end, maxAlign) && n < |tids| && t !in order
    requires tids[n] in order && tids[n] < |rows| && rows[tids[n]].align > 0 && |rows[t].kind.fields| == |tids|
    requires var f, r := rows[tids[n]], rows[t];
      rows1 == rows[t := r.(portal := r.portal || f.portal, kind := WithOffset(r.kind, n, AlignUp(end, f.align)))]
    ensures var f := rows[tids[n]];
      StructSoFar(rows1, order, t, tids, n + 1, AlignUp(end, f.align) + f.payload, if maxAlign < f.align then f.align else maxAlign)
    ensures Shape(rows1[t].kind) == Shape(rows[t].kind)
  {
    hide AlignUp, Shape, Edges, EndOf, MaxAlign, AnyPortal;
    PlacedKind(rows[t].kind, n, AlignUp(end, rows[tids[n]].align));
    EndFrame(rows, rows1, tids, n);
    EndsFrame(rows, rows1, tids, n);
    OneMoreField(rows1, tids, n);
  }

  /** An array whose element is laid out. */
  lemma ArrayIsLaidOut(rows: seq<Row>, rows1: seq<Row>, order: seq<nat>, t: nat, elem: nat, capacity: nat)
    requires t < |rows| && t !in order && elem in order && elem < |rows| && rows[elem].align > 0
    requires var e, r := rows[elem], rows[t];
      var align := if e.align > 4 then e.align else 4;
      var dataOffset := AlignUp(COUNT_SIZE, e.align);
      rows1 == rows[t := r.(kind := KArray(elem, capacity, dataOffset), portal := e.portal, align := align,
                            payload := AlignUp(dataOffset + e.payload * capacity, align))]
    ensures ExceptSize(rows1, t) && forall e :: e in Edges(rows1[t].kind) ==> e in order
  {
    hide AlignUp;
    assert Edges(rows1[t].kind) == [elem];
  }

  lemma StructIsLaidOut(rows: seq<Row>, rows1: seq<Row>, order: seq<nat>, t: nat, tids: seq<nat>, offset: nat, align: nat)
    requires StructSoFar(rows, order, t, tids, |tids|, offset, align) && t !in order
    requires rows1 == rows[t := rows[t].(align := align, payload := AlignUp(offset, align))]
    ensures ExceptSize(rows1, t) && forall e :: e in Edges(rows1[t].kind) ==> e in order
  {
    hide AlignUp, Edges;
    StructFields(rows[t].kind);
    var rows2 := rows1[t := rows1[t].(size := AlignUp(rows1[t].payload, CELL_ALIGN))];
    forall e | e in tids ensures e in order && e < |rows| && rows2[e].align > 0 {
      var k :| 0 <= k < |tids| && tids[k] == e;
    }
    EndFrame(rows, rows2, tids, |tids|);
    forall k | 0 <= k < |tids| ensures EndOf(rows2, tids, k) == EndOf(rows, tids, k) {
      EndFrame(rows, rows2, tids, k);
    }
    hide EndOf, MaxAlign, AnyPortal;
    assert LaidOut(rows2, t);
  }

  /** Everything but the size is laid out. */
  predicate ExceptSize(rows: seq<Row>, t: nat)
    requires t < |rows|
  {
    LaidOut(rows[t := rows[t].(size := AlignUp(rows[t].payload, CELL_ALIGN))], t)
  }

  /** Writing a type that is not done leaves the finished ones finished. */
  lemma OrderFrame(rows: seq<Row>, rows1: seq<Row>, order: seq<nat>, t: nat)
    requires InOrder(rows, order) && t < |rows| == |rows1| && t !in order
    requires forall u :: 0 <= u < |rows| && u != t ==> rows1[u] == rows[u]
    ensures InOrder(rows1, order)
  {
    hide LaidOut, Edges;
    forall k | 0 <= k < |order|
      ensures order[k] < |rows1| && LaidOut(rows1, order[k])
      ensures forall e :: e in Edges(rows1[order[k]].kind) ==> e in order[..k]
    {
      assert order[k] in order;
      EarlierEdges(rows, order, k);
      LaidOutFrame(rows, rows1, order[k]);
    }
  }

  lemma DoneIsLaidOut(rows: seq<Row>, order: seq<nat>, t: nat)
    requires InOrder(rows, order) && t in order
    ensures t < |rows| && LaidOut(rows, t) && rows[t].align > 0
  {
    var k :| 0 <= k < |order| && order[k] == t;
    assert LaidOut(rows, order[k]);
  }

  lemma EndsBadly(ks: seq<Kind>, path: seq<nat>, tid: nat)
    requires Walk(ks, path + [tid]) && (tid >= |ks| || tid in path)
    ensures BadWalk(ks, path + [tid])
  {
    assert (path + [tid])[..|path|] == path;
  }

  lemma WalkOn(ks: seq<Kind>, path: seq<nat>, next: nat)
    requires Walk(ks, path) && path[|path| - 1] < |ks| && next in Edges(ks[path[|path| - 1]])
    ensures Walk(ks, path + [next])
  {
  }

  lemma LongerWalk(ks: seq<Kind>, path: seq<nat>, next: nat)
    requires exists w :: BadWalk(ks, w) && path + [next] <= w
    ensures exists w :: BadWalk(ks, w) && path <= w
  {
    hide BadWalk;
    var w :| BadWalk(ks, w) && path + [next] <= w;
    assert path <= w;
  }

  // ----- all types -----

  /** No walk from a type is bad: everything referred to is there, and nothing contains itself. */
  ghost predicate WellFounded(ks: seq<Kind>) {
    forall w :: BadWalk(ks, w) ==> w[0] >= |ks|
  }

  /** type_layout_all succeeds exactly when the builtin types are in place and the references
      are well founded, and then every type has its layout. */
  method LayoutAll(types: array<Row>, ghost ks: seq<Kind>) returns (ok: bool, ghost order: seq<nat>)
    requires |ks| == types.Length && forall i :: 0 <= i < types.Length ==> ks[i] == types[i].kind
    modifies types
    ensures ok <==> types.Length >= 2 && ks[INT] == KInt && ks[BYTE] == KByte && WellFounded(ks)
    ensures ok ==> InOrder(types[..], order) && forall t :: 0 <= t < types.Length ==> t in order && LaidOut(types[..], t)
    ensures ok ==> forall t :: 0 <= t < types.Length ==> Shape(types[t].kind) == Shape(old(types[t].kind))
  {
    hide LaidOut, Edges, Shape, InOrder, BadWalk, Pending;
    order := [];
    if types.Length < 2 { return false, []; }
    if !types[INT].kind.KInt? { return false, []; }
    if !types[BYTE].kind.KByte? { return false, []; }
    var l := new Layouter(types);
    assert l.kinds == ks;
    var tid := 0;
    while tid < types.Length
      invariant tid <= types.Length && l.Valid([]) && l.kinds == ks
      invariant forall t :: 0 <= t < tid ==> t in l.order
    {
      SingleWalk(ks, tid);
      ok := l.One(tid, []);
      if !ok {
        FromType(ks, tid);
        return;
      }
      tid := tid + 1;
    }
    ok, order := true, l.order;
    forall t | 0 <= t < types.Length ensures LaidOut(types[..], t) { DoneIsLaidOut(types[..], order, t); }
    NothingBad(types[..], ks, order);
  }

  lemma SingleWalk(ks: seq<Kind>, t: nat)
    ensures Walk(ks, [] + [t])
  {
  }

  lemma FromType(ks: seq<Kind>, t: nat)
    requires t < |ks| && exists w :: BadWalk(ks, w) && [] + [t] <= w
    ensures !WellFounded(ks)
  {
    hide BadWalk;
    var w :| BadWalk(ks, w) && [] + [t] <= w;
    assert w[0] == t;
  }

  function First(order: seq<nat>, t: nat): (k: nat)
    requires t in order
    ensures k < |order| && order[k] == t && t !in order[..k]
  {
    if order[0] == t then 0 else 1 + First(order[1..], t)
  }

  lemma EdgeIsEarlier(rows: seq<Row>, order: seq<nat>, t: nat, e: nat)
    requires InOrder(rows, order) && t in order && t < |rows| && e in Edges(rows[t].kind)
    ensures e in order && First(order, e) < First(order, t)
  {
    hide LaidOut, Edges, First;
    var k := First(order, t);
    assert e in order[..k];
    var j :| 0 <= j < k && order[..k][j] == e;
    assert order[j] == e;
  }

  /** Along a walk, the time at which types were finished goes down. */
  lemma {:induction false} WalkGoesDown(rows: seq<Row>, ks: seq<Kind>, order: seq<nat>, w: seq<nat>, j: nat)
    requires InOrder(rows, order) && |rows| == |ks| && forall t :: 0 <= t < |rows| ==> t in order && Shape(rows[t].kind) == Shape(ks[t])
    requires Walk(ks, w) && w[0] < |ks| && j < |w|
    ensures w[j] in order && w[j] < |ks| && forall i :: 0 <= i < j ==> w[i] in order && First(order, w[j]) < First(order, w[i])
    decreases j
  {
    hide LaidOut, Edges, First, InOrder, Shape;
    if j > 0 {
      WalkGoesDown(rows, ks, order, w, j - 1);
      ShapeKeepsEdges(rows[w[j - 1]].kind, ks[w[j - 1]], |ks|);
      assert w[j - 1 + 1] in Edges(ks[w[j - 1]]);
      EdgeIsEarlier(rows, order, w[j - 1], w[j]);
      OrderInRange(rows, order, w[j]);
    }
  }

  lemma OrderInRange(rows: seq<Row>, order: seq<nat>, t: nat)
    requires InOrder(rows, order) && t in order
    ensures t < |rows| && NamesOk(rows[t].kind, |rows|)
  {
    DoneIsLaidOut(rows, order, t);
  }

  lemma NothingBad(rows: seq<Row>, ks: seq<Kind>, order: seq<nat>)
    requires InOrder(rows, order) && |rows| == |ks| && forall t :: 0 <= t < |rows| ==> t in order && Shape(rows[t].kind) == Shape(ks[t])
    ensures WellFounded(ks)
  {
    hide LaidOut, Edges, First, InOrder, Shape, NamesOk;
    forall w | BadWalk(ks, w) ensures w[0] >= |ks| {
      if w[0] < |ks| {
        var j := |w| - 1;
        WalkGoesDown(rows, ks, order, w, j);
        OrderInRange(rows, order, w[j]);
        ShapeKeepsEdges(rows[w[j]].kind, ks[w[j]], |ks|);
      }
    }
  }

  // ----- what a layout promises -----

  /** Alignments are powers of two, so an address that suits a type suits all it contains. */
  lemma {:induction false} AlignIsPower(rows: seq<Row>, order: seq<nat>, k: nat)
    requires InOrder(rows, order) && k < |order|
    ensures rows[order[k]].align in {1, 4, 8}
    decreases k
  {
    var t := order[k];
    var kind := rows[t].kind;
    assert LaidOut(rows, t);
    forall e | e in Edges(kind) ensures e < |rows| && rows[e].align in {1, 4, 8} {
      assert e in order[..k];
      var j :| 0 <= j < k && order[..k][j] == e;
      AlignIsPower(rows, order, j);
    }
    if kind.KStruct? {
      forall i | 0 <= i < |Edges(kind)| ensures Edges(kind)[i] < |rows| && rows[Edges(kind)[i]].align in {1, 4, 8} {
        assert Edges(kind)[i] in Edges(kind);
      }
      MaxIsPower(rows, Edges(kind), |Edges(kind)|);
    }
    if kind.KArray? { assert kind.elem in Edges(kind); }
  }

  lemma {:induction false} MaxIsPower(rows: seq<Row>, tids: seq<nat>, n: nat)
    requires n <= |tids| && forall i :: 0 <= i < |tids| ==> tids[i] < |rows| && rows[tids[i]].align in {1, 4, 8}
    ensures MaxAlign(rows, tids, n) in {1, 4, 8}
    ensures forall i :: 0 <= i < n ==> MaxAlign(rows, tids, n) % rows[tids[i]].align == 0
  {
    if n > 0 { MaxIsPower(rows, tids, n - 1); }
  }

  lemma {:induction false} EndGrows(rows: seq<Row>, tids: seq<nat>, i: nat, j: nat)
    requires i <= j <= |tids| && forall k :: 0 <= k < j ==> tids[k] < |rows| && rows[tids[k]].align > 0
    ensures EndOf(rows, tids, i) <= EndOf(rows, tids, j)
    decreases j
  {
    if i < j {
      EndGrows(rows, tids, i, j - 1);
      AlignUpMeans(EndOf(rows, tids, j - 1), rows[tids[j - 1]].align);
    }
  }

  lemma EndStep(rows: seq<Row>, tids: seq<nat>, i: nat)
    requires i < |tids| && forall k :: 0 <= k <= i ==> tids[k] < |rows| && rows[tids[k]].align > 0
    ensures EndOf(rows, tids, i + 1) == AlignUp(EndOf(rows, tids, i), rows[tids[i]].align) + rows[tids[i]].payload
  {
  }

  /** A finished struct, field by field. */
  lemma StructLayout(rows: seq<Row>, order: seq<nat>, t: nat) returns (tids: seq<nat>)
    requires InOrder(rows, order) && t in order && t < |rows| && rows[t].kind.KStruct?
    ensures |tids| == |rows[t].kind.fields|
    ensures forall i :: 0 <= i < |tids| ==> tids[i] < |rows| && rows[tids[i]].align in {1, 4, 8} && rows[t].kind.fields[i].tid == tids[i]
    ensures forall i :: 0 <= i < |tids| ==> rows[t].kind.fields[i].offset == AlignUp(EndOf(rows, tids, i), rows[tids[i]].align)
    ensures rows[t].align == MaxAlign(rows, tids, |tids|) && rows[t].payload == AlignUp(EndOf(rows, tids, |tids|), rows[t].align)
    ensures rows[t].size == AlignUp(rows[t].payload, CELL_ALIGN)
  {
    hide AlignUp, EndOf, MaxAlign, AnyPortal;
    var k := First(order, t);
    assert LaidOut(rows, order[k]);
    tids := Edges(rows[t].kind);
    FieldsArePowers(rows, order, k);
    forall i | 0 <= i < |tids| ensures tids[i] < |rows| && rows[tids[i]].align in {1, 4, 8} { assert tids[i] in tids; }
  }

  /** The fields of a struct are aligned, also in memory that suits the struct. */
  lemma StructFieldsAligned(rows: seq<Row>, order: seq<nat>, t: nat, i: nat)
    requires InOrder(rows, order) && t in order && t < |rows| && rows[t].kind.KStruct? && i < |rows[t].kind.fields|
    ensures var f := rows[t].kind.fields[i];
      && f.tid < |rows| && rows[f.tid].align > 0
      && f.offset % rows[f.tid].align == 0 && rows[t].align % rows[f.tid].align == 0
  {
    hide AlignUp, EndOf, MaxAlign, InOrder;
    var tids := StructLayout(rows, order, t);
    AlignUpMeans(EndOf(rows, tids, i), rows[tids[i]].align);
    MaxIsPower(rows, tids, |tids|);
  }

  /** The fields of a struct do not overlap, and lie inside it. */
  lemma StructFieldsApart(rows: seq<Row>, order: seq<nat>, t: nat, i: nat)
    requires InOrder(rows, order) && t in order && t < |rows| && rows[t].kind.KStruct? && i < |rows[t].kind.fields|
    ensures var fs := rows[t].kind.fields;
      && fs[i].tid < |rows|
      && (forall j :: i < j < |fs| ==> fs[i].offset + rows[fs[i].tid].payload <= fs[j].offset)
      && fs[i].offset + rows[fs[i].tid].payload <= rows[t].payload <= rows[t].size
  {
    hide AlignUp, MaxAlign, InOrder, EndOf;
    var tids := StructLayout(rows, order, t);
    var fs := rows[t].kind.fields;
    var end := EndOf(rows, tids, i + 1);
    EndStep(rows, tids, i);
    assert end == fs[i].offset + rows[tids[i]].payload;
    forall j | i < j < |fs| ensures end <= fs[j].offset {
      EndGrows(rows, tids, i + 1, j);
      AlignUpMeans(EndOf(rows, tids, j), rows[tids[j]].align);
    }
    EndGrows(rows, tids, i + 1, |tids|);
    AlignUpMeans(EndOf(rows, tids, |tids|), rows[t].align);
    AlignUpMeans(rows[t].payload, CELL_ALIGN);
  }

  lemma FieldsArePowers(rows: seq<Row>, order: seq<nat>, k: nat)
    requires InOrder(rows, order) && k < |order|
    ensures forall e :: e in Edges(rows[order[k]].kind) ==> e < |rows| && rows[e].align in {1, 4, 8}
  {
    hide LaidOut, Edges;
    forall e | e in Edges(rows[order[k]].kind) ensures e < |rows| && rows[e].align in {1, 4, 8} {
      assert e in order[..k];
      var j :| 0 <= j < k && order[..k][j] == e;
      AlignIsPower(rows, order, j);
    }
  }

  /** A finished array. */
  lemma ArrayLayout(rows: seq<Row>, order: seq<nat>, t: nat)
    requires InOrder(rows, order) && t in order && t < |rows| && rows[t].kind.KArray?
    ensures var a := rows[t].kind;
      && a.elem < |rows| && rows[a.elem].align > 0 && rows[t].align > 0
      && a.dataOffset == AlignUp(COUNT_SIZE, rows[a.elem].align)
      && rows[t].payload == AlignUp(a.dataOffset + rows[a.elem].payload * a.capacity, rows[t].align)
  {
    hide AlignUp;
    DoneIsLaidOut(rows, order, t);
    assert rows[t].kind.elem in Edges(rows[t].kind);
  }

  /** Memory that suits an array suits its length and its elements. */
  lemma ArrayAligned(rows: seq<Row>, order: seq<nat>, t: nat)
    requires InOrder(rows, order) && t in order && t < |rows| && rows[t].kind.KArray?
    ensures var a := rows[t].kind;
      a.elem < |rows| && rows[a.elem].align > 0 && rows[t].align % COUNT_SIZE == 0 && rows[t].align % rows[a.elem].align == 0
  {
    var k := First(order, t);
    FieldsArePowers(rows, order, k);
    DoneIsLaidOut(rows, order, t);
    assert rows[t].kind.elem in Edges(rows[t].kind);
  }

  /** Where element i begins. */
  function ElemOffset(base: nat, payload: nat, i: nat): nat { base + payload * i }

  /** The size of a type is a multiple of its alignment, but for slices and views. */
  lemma PayloadIsMultiple(rows: seq<Row>, order: seq<nat>, t: nat)
    requires InOrder(rows, order) && t in order && t < |rows|
    ensures rows[t].align > 0 && (rows[t].payload % rows[t].align == 0 <==> !rows[t].kind.KSlice? && !rows[t].kind.KView?)
  {
    hide AlignUp, EndOf, InOrder;
    DoneIsLaidOut(rows, order, t);
    match rows[t].kind
    case KArray(elem, capacity, dataOffset) =>
      ArrayLayout(rows, order, t);
      AlignUpMeans(dataOffset + rows[elem].payload * capacity, rows[t].align);
    case KStruct(_) =>
      var tids := StructLayout(rows, order, t);
      AlignUpMeans(EndOf(rows, tids, |tids|), rows[t].align);
    case _ =>
  }

  /** The elements of an array lie behind its length, one after the other and inside it; they
      are all aligned if and only if there is at most one or they are no slices or views. */
  lemma ArrayElements(rows: seq<Row>, order: seq<nat>, t: nat)
    requires InOrder(rows, order) && t in order && t < |rows| && rows[t].kind.KArray?
    ensures var a := rows[t].kind;
      && a.elem < |rows| && rows[a.elem].align > 0 && COUNT_SIZE <= a.dataOffset && a.dataOffset % rows[a.elem].align == 0
      && (forall i: nat :: i < a.capacity ==> ElemOffset(a.dataOffset, rows[a.elem].payload, i) + rows[a.elem].payload <= rows[t].payload)
      && ((forall i: nat :: i < a.capacity ==> ElemOffset(a.dataOffset, rows[a.elem].payload, i) % rows[a.elem].align == 0)
          <==> a.capacity <= 1 || (!rows[a.elem].kind.KSlice? && !rows[a.elem].kind.KView?))
  {
    hide AlignUp, InOrder;
    ArrayLayout(rows, order, t);
    var a := rows[t].kind;
    var e := rows[a.elem];
    AlignUpMeans(COUNT_SIZE, e.align);
    AlignUpMeans(a.dataOffset + e.payload * a.capacity, rows[t].align);
    forall i: nat | i < a.capacity ensures ElemOffset(a.dataOffset, e.payload, i) + e.payload <= rows[t].payload {
      Multiples(e.payload, i + 1, a.capacity);
    }
    ElemIsDone(rows, order, t);
    PayloadIsMultiple(rows, order, a.elem);
    ElementsAligned(a.dataOffset, e.payload, a.capacity, e.align);
  }

  lemma ElementsAligned(base: nat, payload: nat, capacity: nat, align: nat)
    requires align > 0 && base % align == 0
    ensures (forall i: nat :: i < capacity ==> ElemOffset(base, payload, i) % align == 0) <==> capacity <= 1 || payload % align == 0
  {
    forall i: nat | i < capacity ensures capacity <= 1 || payload % align == 0 ==> ElemOffset(base, payload, i) % align == 0 {
      Aligned(base, payload, i, align);
      if capacity <= 1 { assert ElemOffset(base, payload, i) == base; }
    }
    if capacity > 1 && ElemOffset(base, payload, 1) % align == 0 { AlignedOne(base, payload, align); }
  }

  lemma ElemIsDone(rows: seq<Row>, order: seq<nat>, t: nat)
    requires InOrder(rows, order) && t in order && t < |rows| && rows[t].kind.KArray?
    ensures rows[t].kind.elem in order
  {
    hide LaidOut;
    var k :| 0 <= k < |order| && order[k] == t;
    assert rows[t].kind.elem in Edges(rows[order[k]].kind);
    assert rows[t].kind.elem in order[..k];
  }

  lemma Multiples(n: nat, i: nat, j: nat)
    requires i <= j
    ensures n * i <= n * j
  {
  }

  lemma Aligned(base: nat, n: nat, i: nat, align: nat)
    requires align > 0 && base % align == 0
    ensures n % align == 0 ==> (base + n * i) % align == 0
  {
    if n % align == 0 {
      var p, q := base / align, n / align;
      assert base == p * align && n == q * align;
      assert n * i == (q * i) * align;
      assert base + n * i == (p + q * i) * align;
      RemainderIs(base + n * i, align, p + q * i, 0);
    }
  }

  lemma AlignedOne(base: nat, n: nat, align: nat)
    requires align > 0 && base % align == 0 && (base + n * 1) % align == 0
    ensures n % align == 0
  {
    var p, q := base / align, (base + n) / align;
    assert base == p * align && base + n == q * align;
    assert n == (q - p) * align;
    RemainderIs(n, align, q - p, 0);
  }

  /** Slices break this: in an array of two or more slices the second one is not aligned. */
  lemma ArrayOfSlicesIsMisaligned(rows: seq<Row>, order: seq<nat>, t: nat)
    requires InOrder(rows, order) && t in order && t < |rows| && rows[t].kind.KArray? && rows[t].kind.capacity >= 2
    requires rows[t].kind.elem < |rows| && (rows[rows[t].kind.elem].kind.KSlice? || rows[rows[t].kind.elem].kind.KView?)
    ensures var e := rows[rows[t].kind.elem];
      && ElemOffset(rows[t].kind.dataOffset, e.payload, 1) + e.payload <= rows[t].payload
      && ElemOffset(rows[t].kind.dataOffset, e.payload, 1) % e.align == 4
  {
    hide AlignUp, InOrder;
    ElemIsDone(rows, order, t);
    DoneIsLaidOut(rows, order, rows[t].kind.elem);
    ArrayLayout(rows, order, t);
    ArrayElements(rows, order, t);
    AlignUpMeans(COUNT_SIZE, 8);
  }

  /** It happens: laying out int, byte, a slice of int and an array of two such slices gives
      that array 32 bytes, with its second slice at byte 20. */
  method LayOutSlices() returns (types: array<Row>)
    ensures fresh(types) && types.Length == 4
    ensures types[2].kind == KSlice(INT) && types[2].payload == 12 && types[2].align == 8
    ensures types[3].kind == KArray(2, 2, 8) && types[3].payload == 32 && types[3].align == 8
    ensures ElemOffset(8, types[2].payload, 1) == 20 && 20 % types[2].align == 4
  {
    hide LaidOut, WellFounded, InOrder, Shape;
    var blank := Row(KInt, false, 0, 0, 0);
    types := new Row[4](_ => blank);
    types[1], types[2], types[3] := blank.(kind := KByte), blank.(kind := KSlice(INT)), blank.(kind := KArray(2, 2, 0));
    ghost var ks := [KInt, KByte, KSlice(INT), KArray(2, 2, 0)];
    SlicesAreFounded(ks);
    ghost var before := types[..];
    var ok, order := LayoutAll(types, ks);
    assert before[2].kind == ks[2] && before[3].kind == ks[3];
    SlicesLaidOut(types[..]);
  }

  lemma SlicesLaidOut(rows: seq<Row>)
    requires |rows| == 4 && LaidOut(rows, 2) && LaidOut(rows, 3)
    requires Shape(rows[2].kind) == Shape(KSlice(INT)) && Shape(rows[3].kind) == Shape(KArray(2, 2, 0))
    ensures rows[2].kind == KSlice(INT) && rows[2].payload == 12 && rows[2].align == 8
    ensures rows[3].kind == KArray(2, 2, 8) && rows[3].payload == 32 && rows[3].align == 8
  {
    hide StructLaid;
  }

  /** References that go down are well founded. */
  lemma SlicesAreFounded(ks: seq<Kind>)
    requires ks == [KInt, KByte, KSlice(INT), KArray(2, 2, 0)]
    ensures WellFounded(ks)
  {
    forall w | BadWalk(ks, w) ensures w[0] >= |ks| {
      if w[0] < |ks| { DownTo(ks, w, |w| - 1); }
    }
  }

  lemma {:induction false} DownTo(ks: seq<Kind>, w: seq<nat>, i: nat)
    requires ks == [KInt, KByte, KSlice(INT), KArray(2, 2, 0)] && Walk(ks, w) && w[0] < |ks| && i < |w|
    ensures w[i] < |ks| && forall j :: 0 <= j < i ==> w[i] < w[j]
    decreases i
  {
    if i > 0 {
      DownTo(ks, w, i - 1);
      assert w[i - 1 + 1] in Edges(ks[w[i - 1]]);
    }
  }
}
