/** The symbolic places of the first pass are what the pointers of a run are: a variable, an
    argument or a global, a field at its offset, an element of an array. */
module PlacesHold {
  import opened Memory
  import opened Ir
  import opened Semantics
  import opened InternTable
  import opened Places
  import opened TypeScan
  import opened Elements
  import opened StackKept

  // ----- places and pointers -----

  /** Where a range runs: an activation, its variables, and the stack below. */
  datatype Here = Here(s: Scope, a: Act, env: Env, base: seq<Ptr>)

  /** q is a pointer to the place p. Nothing is said of the elements of slices and views. */
  ghost predicate Is(h: Here, p: Place, q: Ptr) {
    match p
    case Root(kind, idx) =>
      if kind.PAR_LOCAL? then idx in h.env && q == Stor(h.env[idx])
      else if kind.PAR_ARG? then h.a.argBase + idx < |h.base| && q == h.base[h.a.argBase + idx]
      else if kind.PAR_GLOBAL? then q == Glob(idx, 0)
      else false
    case FieldOf(of, i) =>
      exists b :: Is(h, of, b) && FieldAt(h.s, TypeAt(h.s, of), i, b, q)
    case MemberOf(of) =>
      exists b :: Is(h, of, b) && MemberAt(h.s, TypeAt(h.s, of), b, q)
  }

  predicate FieldAt(s: Scope, t: nat, i: nat, b: Ptr, q: Ptr) {
    && IsType(s, t) && s.f.types[t].kind.KStruct? && i < |s.f.types[t].kind.fields|
    && q == Behind(b, s.f.types[t].kind.fields[i].offset)
  }

  ghost predicate MemberAt(s: Scope, t: nat, b: Ptr, q: Ptr) {
    && IsType(s, t)
    && match s.f.types[t].kind
       case KArray(elem, _, dataOffset) => elem < |s.f.types| && exists x: nat :: q == ElementOf(b, dataOffset, s.f.types[elem].payload, x)
       case KSlice(_) => true
       case KView(_) => true
       case _ => false
  }

  ghost predicate AllAre(h: Here, ps: seq<Place>, qs: seq<Ptr>) {
    |ps| == |qs| && forall i :: 0 <= i < |ps| ==> Is(h, ps[i], qs[i])
  }

  /** The stack of a range: below what it was, above that the pointers to the places ps. */
  ghost predicate Described(h: Here, ps: seq<Place>, tys: seq<TypeId>, d: Data) {
    && tys == Types(h.s, ps) && |d.params| == |h.base| + |ps| && d.params[..|h.base|] == h.base
    && AllAre(h, ps, d.params[|h.base|..])
  }

  /** Arguments are pushed by indices that the function has. */
  predicate ArgThere(h: Here, op: Op) { op.PushArg? ==> h.a.argBase + op.i < |h.base| }

  lemma FrontDescribed(h: Here, ps: seq<Place>, tys: seq<TypeId>, d: Data, d1: Data, n: nat)
    requires Described(h, ps, tys, d) && n <= |ps| && d1.params == d.params[..|h.base| + n]
    ensures Described(h, ps[..n], tys[..n], d1)
  {
    hide Is, TypeAt;
    var qs, rs := d.params[|h.base|..], d1.params[|h.base|..];
    assert d1.params[..|h.base|] == h.base;
    assert rs == qs[..n];
    assert Types(h.s, ps[..n]) == tys[..n];
  }

  lemma PushDescribed(h: Here, ps: seq<Place>, tys: seq<TypeId>, d: Data, d1: Data, p: Place, q: Ptr)
    requires Described(h, ps, tys, d) && Is(h, p, q) && d1.params == d.params + [q]
    ensures Described(h, ps + [p], tys + [TypeAt(h.s, p)], d1)
  {
    hide Is, TypeAt;
    assert d1.params[..|h.base|] == h.base;
    assert d1.params[|h.base|..] == d.params[|h.base|..] + [q];
    assert Types(h.s, ps + [p]) == tys + [TypeAt(h.s, p)];
  }

  lemma TopIs(h: Here, ps: seq<Place>, tys: seq<TypeId>, d: Data, i: nat)
    requires Described(h, ps, tys, d) && i < |ps|
    ensures Is(h, ps[i], d.params[|h.base| + i]) && tys[i] == TypeAt(h.s, ps[i])
  {
    hide Is, TypeAt;
    assert d.params[|h.base|..][i] == d.params[|h.base| + i];
  }

  /** Some operations only take pointers away. */
  predicate Pops(op: Op) {
    op.Assign? || op.Calc? || op.ArrPush? || op.ArrDrop? || op.SliceFromAr? || op.SliceFromOne? || op.SliceInc? || op.SliceDec?
  }

  lemma PopsOne(p: Program, f: Func, a: Act, env: Env, op: Op, tys: seq<TypeId>, d: Data)
    requires Pops(op) && SimpleOp(p, f, a, env, op, tys, d).out.Normal?
    ensures var r := SimpleOp(p, f, a, env, op, tys, d);
      |tys| >= 2 && |d.params| >= 2 && r.d.params == d.params[..|d.params| - 1] && r.tys == tys[..|tys| - 1]
  {
    hide OpValue, OpArray, OpSlice;
    if op.Assign? || op.Calc? {
      ValuePops(f.types, op, tys, d);
    } else if op.ArrPush? || op.ArrDrop? {
      ArrayPops(f.types, op, tys, d);
    } else {
      SlicePops(f.types, op, tys, d);
    }
  }

  lemma ValuePops(types: seq<Type>, op: Op, tys: seq<TypeId>, d: Data)
    requires (op.Assign? || op.Calc?) && OpValue(types, op, tys, d).out.Normal?
    ensures var r := OpValue(types, op, tys, d);
      |tys| >= 2 && |d.params| >= 2 && r.d.params == d.params[..|d.params| - 1] && r.tys == tys[..|tys| - 1]
  {
    hide Load, Store, LoadNum, StoreNum, Compute, QuotientOverflows;
  }

  lemma ArrayPops(types: seq<Type>, op: Op, tys: seq<TypeId>, d: Data)
    requires (op.ArrPush? || op.ArrDrop?) && OpArray(types, op, tys, d).out.Normal?
    ensures var r := OpArray(types, op, tys, d);
      |tys| >= 2 && |d.params| >= 2 && r.d.params == d.params[..|d.params| - 1] && r.tys == tys[..|tys| - 1]
  {
    hide Load, Store, LoadNum, LoadCount, StoreCount, Elem, PtrAdd;
  }

  lemma SlicePops(types: seq<Type>, op: Op, tys: seq<TypeId>, d: Data)
    requires (op.SliceFromAr? || op.SliceFromOne? || op.SliceInc? || op.SliceDec?) && OpSlice(types, op, tys, d).out.Normal?
    ensures var r := OpSlice(types, op, tys, d);
      |tys| >= 2 && |d.params| >= 2 && r.d.params == d.params[..|d.params| - 1] && r.tys == tys[..|tys| - 1]
  {
    hide LoadNum, LoadCount, StoreCount, LoadPtr, StorePtr, StoreSlice, Elem, PtrAdd;
  }

  // ----- one operation -----

  /** The places after an operation, if it goes on, are those of the pointers after it. */
  ghost predicate GoesOn(h: Here, p: Program, ps: seq<Place>, op: Op, r: OpRes) {
    r.out.Normal? ==> Effect(h.s, p.funcs, ps, op).Some? && Described(h, Effect(h.s, p.funcs, ps, op).value, r.tys, r.d)
  }

  lemma PushGoesOn(h: Here, p: Program, ps: seq<Place>, op: Op, tys: seq<TypeId>, d: Data)
    requires h.a.fn < |p.funcs| && h.s == Scope(p.funcs[h.a.fn], p.globals) && Described(h, ps, tys, d) && ArgThere(h, op)
    requires op.PushVar? || op.PushArg? || op.PushGlobal?
    ensures GoesOn(h, p, ps, op, SimpleOp(p, p.funcs[h.a.fn], h.a, h.env, op, tys, d))
  {
    hide Described;
    var r := SimpleOp(p, p.funcs[h.a.fn], h.a, h.env, op, tys, d);
    if r.out.Normal? {
      var q := Effect(h.s, p.funcs, ps, op).value[|ps|];
      assert d.params[..|h.base|] == h.base by { BaseKept(h, ps, tys, d); }
      assert Is(h, q, r.d.params[|d.params|]) by { if op.PushArg? { ArgIs(h, d, op.i); } }
      PushDescribed(h, ps, tys, d, r.d, q, r.d.params[|d.params|]);
    }
  }

  lemma BaseKept(h: Here, ps: seq<Place>, tys: seq<TypeId>, d: Data)
    requires Described(h, ps, tys, d)
    ensures |d.params| >= |h.base| && d.params[..|h.base|] == h.base
  {
  }

  lemma ArgIs(h: Here, d: Data, i: nat)
    requires |d.params| >= |h.base| && d.params[..|h.base|] == h.base && h.a.argBase + i < |h.base|
    ensures d.params[h.a.argBase + i] == h.base[h.a.argBase + i]
  {
    assert d.params[..|h.base|][h.a.argBase + i] == h.base[h.a.argBase + i];
  }

  lemma FieldGoesOn(h: Here, p: Program, ps: seq<Place>, op: Op, tys: seq<TypeId>, d: Data)
    requires h.a.fn < |p.funcs| && h.s == Scope(p.funcs[h.a.fn], p.globals) && Described(h, ps, tys, d) && op.StructAt?
    ensures GoesOn(h, p, ps, op, SimpleOp(p, p.funcs[h.a.fn], h.a, h.env, op, tys, d))
  {
    hide Described;
    var r, n := SimpleOp(p, p.funcs[h.a.fn], h.a, h.env, op, tys, d), |ps|;
    assert |tys| == n && |d.params| == |h.base| + n by { SameCounts(h, ps, tys, d); }
    if r.out.Normal? {
      TopIs(h, ps, tys, d, n - 1);
      var b, q := Top(d), r.d.params[|d.params| - 1];
      assert FieldAt(h.s, TypeAt(h.s, ps[n - 1]), op.field, b, q);
      FrontDescribed(h, ps, tys, d, Pop(d, 1), n - 1);
      PushDescribed(h, ps[..n - 1], tys[..n - 1], Pop(d, 1), r.d, FieldOf(ps[n - 1], op.field), q);
    }
  }

  lemma SameCounts(h: Here, ps: seq<Place>, tys: seq<TypeId>, d: Data)
    requires Described(h, ps, tys, d)
    ensures |tys| == |ps| && |d.params| == |h.base| + |ps|
  {
  }

  lemma MemberGoesOn(h: Here, p: Program, ps: seq<Place>, op: Op, tys: seq<TypeId>, d: Data)
    requires h.a.fn < |p.funcs| && h.s == Scope(p.funcs[h.a.fn], p.globals) && Described(h, ps, tys, d) && (op.ArrAt? || op.SliceAt?)
    ensures GoesOn(h, p, ps, op, SimpleOp(p, p.funcs[h.a.fn], h.a, h.env, op, tys, d))
  {
    hide Described, MemberAt, OpArray, OpSlice;
    var r, n := SimpleOp(p, p.funcs[h.a.fn], h.a, h.env, op, tys, d), |ps|;
    assert |tys| == n && |d.params| == |h.base| + n by { SameCounts(h, ps, tys, d); }
    if r.out.Normal? {
      MemberFound(h.s, op, tys, d);
      TopIs(h, ps, tys, d, n - 2);
      var b, q := Second(d), r.d.params[|d.params| - 2];
      assert MemberAt(h.s, TypeAt(h.s, ps[n - 2]), b, q);
      FrontDescribed(h, ps, tys, d, Pop(d, 2), n - 2);
      PushDescribed(h, ps[..n - 2], tys[..n - 2], Pop(d, 2), r.d, MemberOf(ps[n - 2]), q);
    }
  }

  lemma MemberFound(s: Scope, op: Op, tys: seq<TypeId>, d: Data)
    requires op.ArrAt? || op.SliceAt?
    requires var r := if op.ArrAt? then OpArray(s.f.types, op, tys, d) else OpSlice(s.f.types, op, tys, d); r.out.Normal?
    ensures var r := if op.ArrAt? then OpArray(s.f.types, op, tys, d) else OpSlice(s.f.types, op, tys, d);
      && |tys| >= 2 && |d.params| >= 2 && |r.d.params| == |d.params| - 1 && r.d.params[..|d.params| - 2] == d.params[..|d.params| - 2]
      && MemberAt(s, tys[|tys| - 2], Second(d), r.d.params[|d.params| - 2])
      && IsType(s, tys[|tys| - 2])
      && (s.f.types[tys[|tys| - 2]].kind.KArray? || s.f.types[tys[|tys| - 2]].kind.KSlice? || s.f.types[tys[|tys| - 2]].kind.KView?)
      && r.tys == tys[..|tys| - 2] + [s.f.types[tys[|tys| - 2]].kind.elem]
  {
    hide Load, LoadNum, LoadCount, LoadPtr, Elem, PtrAdd;
    if op.ArrAt? {
      var KArray(elem, capacity, dataOffset) := s.f.types[tys[|tys| - 2]].kind;
      var x: nat := LoadNum(d.mem, Top(d)).value;
      ElementIs(Second(d), dataOffset, s.f.types[elem].payload, x);
    }
  }

  /** An operation that takes k pointers away. */
  lemma TakenGoesOn(h: Here, p: Program, ps: seq<Place>, op: Op, tys: seq<TypeId>, d: Data, r: OpRes, k: nat)
    requires Described(h, ps, tys, d) && k <= |ps| && Effect(h.s, p.funcs, ps, op) == Some(ps[..|ps| - k])
    requires r.d.params == d.params[..|d.params| - k] && r.tys == tys[..|tys| - k]
    ensures GoesOn(h, p, ps, op, r)
  {
    hide Described, Effect;
    SameCounts(h, ps, tys, d);
    FrontDescribed(h, ps, tys, d, r.d, |ps| - k);
  }

  lemma OtherGoesOn(h: Here, p: Program, ps: seq<Place>, op: Op, tys: seq<TypeId>, d: Data)
    requires h.a.fn < |p.funcs| && h.s == Scope(p.funcs[h.a.fn], p.globals) && Described(h, ps, tys, d)
    requires Pops(op) || op.Null? || op.Drop? || op.BitNot?
    ensures GoesOn(h, p, ps, op, SimpleOp(p, p.funcs[h.a.fn], h.a, h.env, op, tys, d))
  {
    hide Described, OpArray, OpSlice, OpNative, OpValue, TypeAt, GoesOn;
    var r := SimpleOp(p, p.funcs[h.a.fn], h.a, h.env, op, tys, d);
    assert |tys| == |ps| && |d.params| == |h.base| + |ps| by { SameCounts(h, ps, tys, d); }
    if !r.out.Normal? {
      NothingToSay(h, p, ps, op, r);
    } else if Pops(op) {
      PopsOne(p, p.funcs[h.a.fn], h.a, h.env, op, tys, d);
      TakenGoesOn(h, p, ps, op, tys, d, r, 1);
    } else if op.Drop? {
      TakenGoesOn(h, p, ps, op, tys, d, r, op.n);
    } else {
      if op.BitNot? { BitNotStays(h.s.f.types, tys, d); }
      assert ps[..|ps|] == ps && tys[..|tys|] == tys && d.params[..|d.params|] == d.params;
      TakenGoesOn(h, p, ps, op, tys, d, r, 0);
    }
  }

  lemma NothingToSay(h: Here, p: Program, ps: seq<Place>, op: Op, r: OpRes)
    requires !r.out.Normal?
    ensures GoesOn(h, p, ps, op, r)
  {
  }

  lemma NativeGoesOn(h: Here, p: Program, ps: seq<Place>, op: Op, tys: seq<TypeId>, d: Data)
    requires h.a.fn < |p.funcs| && h.s == Scope(p.funcs[h.a.fn], p.globals) && Described(h, ps, tys, d) && op.CallNative?
    ensures GoesOn(h, p, ps, op, SimpleOp(p, p.funcs[h.a.fn], h.a, h.env, op, tys, d))
  {
    hide Described, OpNative, TypeAt, GoesOn;
    var r, n := SimpleOp(p, p.funcs[h.a.fn], h.a, h.env, op, tys, d), |ps|;
    assert |tys| == n && |d.params| == |h.base| + n by { SameCounts(h, ps, tys, d); }
    if !r.out.Normal? {
      NothingToSay(h, p, ps, op, r);
    } else {
      NativePops(p.native, h.s.f.types, tys, d);
      TopIs(h, ps, tys, d, n - 1);
      TakenGoesOn(h, p, ps, op, tys, d, r, 1 + |h.s.f.types[tys[n - 1]].kind.sig.ins|);
    }
  }

  lemma BitNotStays(types: seq<Type>, tys: seq<TypeId>, d: Data)
    requires OpValue(types, BitNot, tys, d).out.Normal?
    ensures var r := OpValue(types, BitNot, tys, d); |tys| >= 1 && r.d.params == d.params && r.tys == tys
  {
    hide LoadNum, StoreNum;
  }

  lemma NativePops(native: Native, types: seq<Type>, tys: seq<TypeId>, d: Data)
    requires OpNative(native, types, tys, d).out.Normal?
    ensures |tys| > 0 && tys[|tys| - 1] < |types| && types[tys[|tys| - 1]].kind.KNative?
    ensures var r, sig := OpNative(native, types, tys, d), types[tys[|tys| - 1]].kind.sig;
      && Argc(sig) + 1 <= |tys| <= |d.params|
      && r.d.params == d.params[..|d.params| - (1 + |sig.ins|)] && r.tys == tys[..|tys| - (1 + |sig.ins|)]
  {
    hide LoadFn, CallNativeFn;
  }

  lemma CallGoesOn(h: Here, fuel: nat, p: Program, ps: seq<Place>, op: Op, tys: seq<TypeId>, d: Data)
    requires h.a.fn < |p.funcs| && h.s == Scope(p.funcs[h.a.fn], p.globals) && Described(h, ps, tys, d) && op.Call?
    ensures GoesOn(h, p, ps, op, CallOp(fuel, p, p.funcs[h.a.fn], op.fn, tys, d))
  {
    hide Described, CallOp, TypeAt;
    var r, n := CallOp(fuel, p, p.funcs[h.a.fn], op.fn, tys, d), |ps|;
    assert |tys| == n && |d.params| == |h.base| + n by { SameCounts(h, ps, tys, d); }
    CallKeepsBelow(fuel, p, p.funcs[h.a.fn], op.fn, tys, d);
    if r.out.Normal? {
      var k := |p.funcs[op.fn].sig.ins|;
      assert d.params[..|d.params| - k] == d.params[..|h.base| + (n - k)];
      FrontDescribed(h, ps, tys, d, r.d, n - k);
    }
  }

  // ----- ranges -----

  /** What a range does to the stack of places. */
  function Effects(s: Scope, funcs: seq<Func>, ps: seq<Place>, ops: seq<Op>): Option<seq<Place>>
    decreases |ops|
  {
    if |ops| == 0 then Some(ps) else
    match Effect(s, funcs, ps, ops[0])
    case None => None
    case Some(next) => Effects(s, funcs, next, ops[1..])
  }

  lemma {:induction false} PassIsEffects(s: Scope, funcs: seq<Func>, ps: seq<Place>, ops: seq<Op>)
    ensures PassAll(s, funcs, ps, ops).Some? ==> PassAll(s, funcs, ps, ops) == Effects(s, funcs, ps, ops)
    decreases |ops|
  {
    hide CheckOp, Effect;
    if |ops| > 0 && Pass(s, funcs, ps, ops[0]).Some? { PassIsEffects(s, funcs, Pass(s, funcs, ps, ops[0]).value, ops[1..]); }
  }

  /** Over every range of operations, calls included: if it runs to its end, the places that the
      first pass ends with, when it accepts the range, are those of the pointers that the run
      ends with, with their types. */
  lemma {:induction false} PlacesAreMeant(h: Here, fuel: nat, p: Program, ps: seq<Place>, ops: seq<Op>, tys: seq<TypeId>, d: Data)
    requires h.a.fn < |p.funcs| && h.s == Scope(p.funcs[h.a.fn], p.globals) && Described(h, ps, tys, d)
    requires forall i :: 0 <= i < |ops| ==> ArgThere(h, ops[i])
    ensures var r := RunOps(fuel, p, h.a, h.env, ops, tys, d);
      r.out.Normal? ==> Effects(h.s, p.funcs, ps, ops).Some? && Described(h, Effects(h.s, p.funcs, ps, ops).value, r.tys, r.d)
    ensures var pass := PassAll(h.s, p.funcs, ps, ops); pass.Some? ==> pass == Effects(h.s, p.funcs, ps, ops)
    decreases |ops|
  {
    PassIsEffects(h.s, p.funcs, ps, ops);
    hide Described, SimpleOp, CallOp, Effect;
    if |ops| > 0 {
      var op := ops[0];
      var r := if op.Call? then CallOp(fuel, p, p.funcs[h.a.fn], op.fn, tys, d) else SimpleOp(p, p.funcs[h.a.fn], h.a, h.env, op, tys, d);
      OneGoesOn(h, fuel, p, ps, op, tys, d);
      if r.out.Normal? { PlacesAreMeant(h, fuel, p, Effect(h.s, p.funcs, ps, op).value, ops[1..], r.tys, r.d); }
    }
  }

  lemma OneGoesOn(h: Here, fuel: nat, p: Program, ps: seq<Place>, op: Op, tys: seq<TypeId>, d: Data)
    requires h.a.fn < |p.funcs| && h.s == Scope(p.funcs[h.a.fn], p.globals) && Described(h, ps, tys, d) && ArgThere(h, op)
    ensures GoesOn(h, p, ps, op, if op.Call? then CallOp(fuel, p, p.funcs[h.a.fn], op.fn, tys, d) else SimpleOp(p, p.funcs[h.a.fn], h.a, h.env, op, tys, d))
  {
    hide Described, SimpleOp, CallOp, Effect, GoesOn;
    if op.Call? {
      CallGoesOn(h, fuel, p, ps, op, tys, d);
    } else if op.PushVar? || op.PushArg? || op.PushGlobal? {
      PushGoesOn(h, p, ps, op, tys, d);
    } else if op.StructAt? {
      FieldGoesOn(h, p, ps, op, tys, d);
    } else if op.ArrAt? || op.SliceAt? {
      MemberGoesOn(h, p, ps, op, tys, d);
    } else if op.CallNative? {
      NativeGoesOn(h, p, ps, op, tys, d);
    } else {
      OtherGoesOn(h, p, ps, op, tys, d);
    }
  }
}
