/** The first of two type checkers: it runs over the operations with symbolic places, before
    the compiler runs over them with types. Both agree. */
module TypeScan {
  import opened Memory
  import opened Ir
  import opened InternTable
  import opened Places
  import Codegen

  // ----- what the first pass does -----

  predicate SigFits(s: Scope, tys: seq<nat>, base: nat, sig: Sig) {
    var want := sig.outs + sig.ins;
    base + |want| <= |tys| && forall i :: 0 <= i < |want| ==> IsType(s, want[i]) && tys[base + i] == want[i]
  }

  predicate IsInt(s: Scope, tid: nat) { IsType(s, tid) && tid == INT }

  /** `type_check_op`, told from the types of the places on the stack. */
  predicate CheckOp(s: Scope, funcs: seq<Func>, tys: seq<nat>, op: Op) {
    var n := |tys|;
    match op
    case Null(_) => true
    case Drop(_) => true
    case PushVar(v) => v < |s.f.vars| && IsType(s, s.f.vars[v])
    case PushArg(i) => i < |s.f.vars| && IsType(s, s.f.vars[i])
    case PushGlobal(g) => g < |s.globals| && IsType(s, s.globals[g].tid)
    case Assign => n >= 2 && IsType(s, tys[n - 2]) && tys[n - 2] == tys[n - 1]
    case Calc(_) => n >= 2 && IsType(s, tys[n - 2]) && tys[n - 2] == tys[n - 1] && tys[n - 2] == INT
    case BitNot => n >= 1 && IsInt(s, tys[n - 1])
    case ArrPush => n >= 2 && IsArray(s, tys[n - 2]) && s.f.types[tys[n - 2]].kind.elem == tys[n - 1]
    case ArrDrop => n >= 2 && IsInt(s, tys[n - 1]) && IsArray(s, tys[n - 2])
    case ArrAt => n >= 2 && IsInt(s, tys[n - 1]) && IsArray(s, tys[n - 2])
    case SliceFromAr => n >= 2 && IsRef(s, tys[n - 2]) && IsArray(s, tys[n - 1]) && s.f.types[tys[n - 1]].kind.elem == s.f.types[tys[n - 2]].kind.elem
    case SliceFromOne => n >= 2 && IsSlice(s, tys[n - 2]) && s.f.types[tys[n - 2]].kind.elem == tys[n - 1]
    case SliceAt => n >= 2 && IsInt(s, tys[n - 1]) && IsRef(s, tys[n - 2])
    case SliceInc => n >= 2 && IsInt(s, tys[n - 1]) && IsSlice(s, tys[n - 2])
    case SliceDec => n >= 2 && IsInt(s, tys[n - 1]) && IsSlice(s, tys[n - 2])
    case StructAt(field) => n >= 1 && IsStruct(s, tys[n - 1]) && field < |s.f.types[tys[n - 1]].kind.fields|
    case Call(fn) => fn < |funcs| && Argc(funcs[fn].sig) <= n && SigFits(s, tys, n - Argc(funcs[fn].sig), funcs[fn].sig)
    case CallNative =>
      n >= 1 && IsNative(s, tys[n - 1]) &&
      var sig := s.f.types[tys[n - 1]].kind.sig;
      Argc(sig) + 1 <= n && SigFits(s, tys, n - Argc(sig) - 1, sig)
  }

  predicate IsArray(s: Scope, tid: nat) { IsType(s, tid) && s.f.types[tid].kind.KArray? }
  predicate IsSlice(s: Scope, tid: nat) { IsType(s, tid) && s.f.types[tid].kind.KSlice? }
  predicate IsRef(s: Scope, tid: nat) { IsType(s, tid) && (s.f.types[tid].kind.KSlice? || s.f.types[tid].kind.KView?) }
  predicate IsStruct(s: Scope, tid: nat) { IsType(s, tid) && s.f.types[tid].kind.KStruct? }
  predicate IsNative(s: Scope, tid: nat) { IsType(s, tid) && s.f.types[tid].kind.KNative? }

  /** What an operation does to the stack of places; none when there are too few. */
  function Effect(s: Scope, funcs: seq<Func>, ps: seq<Place>, op: Op): Option<seq<Place>> {
    var n := |ps|;
    match op
    case Null(_) => Some(ps)
    case PushVar(v) => Some(ps + [Root(PAR_LOCAL, v)])
    case PushArg(i) => Some(ps + [Root(PAR_ARG, i)])
    case PushGlobal(g) => Some(ps + [Root(PAR_GLOBAL, g)])
    case BitNot => if n < 1 then None else Some(ps)
    case Drop(k) => if n < k then None else Some(ps[..n - k])
    case SliceInc => if n < 1 then None else Some(ps[..n - 1])
    case SliceDec => if n < 1 then None else Some(ps[..n - 1])
    case ArrAt => if n < 2 then None else Some(ps[..n - 2] + [MemberOf(ps[n - 2])])
    case SliceAt => if n < 2 then None else Some(ps[..n - 2] + [MemberOf(ps[n - 2])])
    case StructAt(field) => if n < 1 then None else Some(ps[..n - 1] + [FieldOf(ps[n - 1], field)])
    case Call(fn) => if fn >= |funcs| || n < Argc(funcs[fn].sig) then None else Some(ps[..n - |funcs[fn].sig.ins|])
    case CallNative =>
      if n < 1 || !IsNative(s, TypeAt(s, ps[n - 1])) then None else
      var sig := s.f.types[TypeAt(s, ps[n - 1])].kind.sig;
      if n < Argc(sig) + 1 then None else Some(ps[..n - |sig.ins| - 1])
    case _ => if n < 2 then None else Some(ps[..n - 1])
  }

  function Types(s: Scope, ps: seq<Place>): (tys: seq<nat>)
    ensures |tys| == |ps| && forall i :: 0 <= i < |ps| ==> tys[i] == TypeAt(s, ps[i])
  {
    seq(|ps|, i requires 0 <= i < |ps| => TypeAt(s, ps[i]))
  }

  /** One operation in the first pass: checked, then carried out. */
  function Pass(s: Scope, funcs: seq<Func>, ps: seq<Place>, op: Op): Option<seq<Place>> {
    if CheckOp(s, funcs, Types(s, ps), op) then Effect(s, funcs, ps, op) else None
  }

  function PassAll(s: Scope, funcs: seq<Func>, ps: seq<Place>, ops: seq<Op>): Option<seq<Place>>
    decreases |ops|
  {
    if |ops| == 0 then Some(ps) else
    match Pass(s, funcs, ps, ops[0])
    case None => None
    case Some(next) => PassAll(s, funcs, next, ops[1..])
  }

  // ----- what only one of the two asks for -----

  function ScopeOf(c: Codegen.Ctx): Scope { Scope(c.f, c.p.globals) }

  /** The compiler: variables are live, callees are compiled, element and field types exist. */
  predicate CompilerAsks(c: Codegen.Ctx, vars: seq<Codegen.Layout>, tys: seq<nat>, op: Op) {
    var n, s := |tys|, ScopeOf(c);
    match op
    case PushVar(v) => v < |vars| && vars[v].live
    case Call(fn) => fn < |c.done| && c.done[fn]
    case ArrPush => n >= 2 && IsArray(s, tys[n - 2]) ==> IsType(s, c.f.types[tys[n - 2]].kind.elem)
    case ArrDrop => n >= 2 && IsArray(s, tys[n - 2]) ==> IsType(s, c.f.types[tys[n - 2]].kind.elem)
    case ArrAt => n >= 2 && IsArray(s, tys[n - 2]) ==> IsType(s, c.f.types[tys[n - 2]].kind.elem)
    case SliceFromAr => n >= 2 && IsRef(s, tys[n - 2]) ==> IsType(s, c.f.types[tys[n - 2]].kind.elem)
    case SliceFromOne => n >= 2 && IsRef(s, tys[n - 2]) ==> IsType(s, c.f.types[tys[n - 2]].kind.elem)
    case SliceAt => n >= 2 && IsRef(s, tys[n - 2]) ==> IsType(s, c.f.types[tys[n - 2]].kind.elem)
    case SliceInc => n >= 2 && IsRef(s, tys[n - 2]) ==> IsType(s, c.f.types[tys[n - 2]].kind.elem)
    case SliceDec => n >= 2 && IsRef(s, tys[n - 2]) ==> IsType(s, c.f.types[tys[n - 2]].kind.elem)
    case StructAt(field) =>
      n >= 1 && IsStruct(s, tys[n - 1]) && field < |c.f.types[tys[n - 1]].kind.fields| ==> IsType(s, c.f.types[tys[n - 1]].kind.fields[field].tid)
    case _ => true
  }

  predicate SigTypes(s: Scope, sig: Sig) { forall i :: 0 <= i < Argc(sig) ==> IsType(s, (sig.outs + sig.ins)[i]) }

  /** The first pass: the types of a pushed variable and of a called signature exist. */
  predicate CheckerAsks(c: Codegen.Ctx, tys: seq<nat>, op: Op) {
    var s := ScopeOf(c);
    match op
    case PushVar(v) => v < |c.f.vars| ==> IsType(s, c.f.vars[v])
    case Call(fn) => fn < |c.p.funcs| ==> SigTypes(s, c.p.funcs[fn].sig)
    case CallNative => |tys| > 0 && IsNative(s, tys[|tys| - 1]) ==> SigTypes(s, c.f.types[tys[|tys| - 1]].kind.sig)
    case _ => true
  }

  // ----- they agree -----

  lemma SigAgrees(s: Scope, tys: seq<nat>, sig: Sig)
    requires Argc(sig) <= |tys|
    ensures SigFits(s, tys, |tys| - Argc(sig), sig) <==> Codegen.EndsWith(tys, sig.outs + sig.ins) && SigTypes(s, sig)
  {
    var want, base := sig.outs + sig.ins, |tys| - Argc(sig);
    assert forall i :: 0 <= i < |want| ==> tys[base..][i] == tys[base + i];
    if SigFits(s, tys, base, sig) { assert tys[base..] == want; }
  }

  lemma SigBelow(s: Scope, tys: seq<nat>, sig: Sig)
    requires Argc(sig) + 1 <= |tys|
    ensures SigFits(s, tys, |tys| - Argc(sig) - 1, sig) <==> SigFits(s, tys[..|tys| - 1], |tys| - 1 - Argc(sig), sig)
  {
  }

  /** The same operation is accepted, up to what only one side asks for, and then the
      compiler's type stack is that of the places. */
  predicate Agree(c: Codegen.Ctx, vars: seq<Codegen.Layout>, frame: nat, ps: seq<Place>, op: Op) {
    var s := ScopeOf(c);
    var tys := Types(s, ps);
    var pass, gen := Pass(s, c.p.funcs, ps, op), Codegen.GenOp(c, vars, frame, op, tys);
    && (pass.Some? && CompilerAsks(c, vars, tys, op) <==> gen.OpEmit? && CheckerAsks(c, tys, op))
    && (pass.Some? && gen.OpEmit? ==> gen.tys == Types(s, pass.value))
  }

  lemma PlainAgrees(c: Codegen.Ctx, vars: seq<Codegen.Layout>, frame: nat, ps: seq<Place>, op: Op)
    requires |c.f.types| > 0 && (op.Null? || op.Drop? || op.PushVar? || op.PushArg? || op.PushGlobal? || op.StructAt?)
    ensures Agree(c, vars, frame, ps, op)
  {
    hide Codegen.GenCall, Codegen.GenNative, Codegen.GenValue, Codegen.GenArray, Codegen.GenSlice, SigFits, SigTypes;
  }

  lemma ValueAgrees(c: Codegen.Ctx, vars: seq<Codegen.Layout>, frame: nat, ps: seq<Place>, op: Op)
    requires |c.f.types| > 0 && (op.Assign? || op.Calc? || op.BitNot?)
    ensures Agree(c, vars, frame, ps, op)
  {
    hide Codegen.GenCall, Codegen.GenNative, Codegen.GenPush, Codegen.GenArray, Codegen.GenSlice, Codegen.GenField, SigFits, SigTypes;
  }

  lemma ArrayAgrees(c: Codegen.Ctx, vars: seq<Codegen.Layout>, frame: nat, ps: seq<Place>, op: Op)
    requires |c.f.types| > 0 && (op.ArrPush? || op.ArrAt? || op.ArrDrop?)
    ensures Agree(c, vars, frame, ps, op)
  {
    hide Codegen.GenCall, Codegen.GenNative, Codegen.GenPush, Codegen.GenValue, Codegen.GenSlice, Codegen.GenField, SigFits, SigTypes;
  }

  lemma SliceAgrees(c: Codegen.Ctx, vars: seq<Codegen.Layout>, frame: nat, ps: seq<Place>, op: Op)
    requires |c.f.types| > 0 && (op.SliceFromAr? || op.SliceFromOne? || op.SliceAt? || op.SliceInc? || op.SliceDec?)
    ensures Agree(c, vars, frame, ps, op)
  {
    hide Codegen.GenCall, Codegen.GenNative, Codegen.GenPush, Codegen.GenValue, Codegen.GenArray, Codegen.GenField, SigFits, SigTypes;
  }

  lemma CallAgrees(c: Codegen.Ctx, vars: seq<Codegen.Layout>, frame: nat, ps: seq<Place>, op: Op)
    requires |c.f.types| > 0 && (op.Call? || op.CallNative?)
    ensures Agree(c, vars, frame, ps, op)
  {
    hide Codegen.GenPush, Codegen.GenValue, Codegen.GenArray, Codegen.GenSlice, Codegen.GenField, SigFits, SigTypes, TypeAt;
    var s := ScopeOf(c);
    var tys := Types(s, ps);
    if op.Call? {
      if op.fn < |c.p.funcs| && Argc(c.p.funcs[op.fn].sig) <= |tys| { SigAgrees(s, tys, c.p.funcs[op.fn].sig); }
    } else if |tys| > 0 && IsNative(s, tys[|tys| - 1]) {
      var sig := c.f.types[tys[|tys| - 1]].kind.sig;
      if Argc(sig) + 1 <= |tys| {
        SigAgrees(s, tys[..|tys| - 1], sig);
        SigBelow(s, tys, sig);
      }
    }
  }

  lemma CheckersAgree(c: Codegen.Ctx, vars: seq<Codegen.Layout>, frame: nat, ps: seq<Place>, op: Op)
    requires |c.f.types| > 0
    ensures Agree(c, vars, frame, ps, op)
  {
    hide Agree;
    if op.Call? || op.CallNative? {
      CallAgrees(c, vars, frame, ps, op);
    } else if op.ArrPush? || op.ArrAt? || op.ArrDrop? {
      ArrayAgrees(c, vars, frame, ps, op);
    } else if op.Assign? || op.Calc? || op.BitNot? {
      ValueAgrees(c, vars, frame, ps, op);
    } else if op.SliceFromAr? || op.SliceFromOne? || op.SliceAt? || op.SliceInc? || op.SliceDec? {
      SliceAgrees(c, vars, frame, ps, op);
    } else {
      PlainAgrees(c, vars, frame, ps, op);
    }
  }

  /** Over a whole run of operations that both accept, the type stack of the compiler is at
      every point that of the symbolic places. */
  lemma {:induction false} RunsAgree(c: Codegen.Ctx, vars: seq<Codegen.Layout>, frame: nat, ps: seq<Place>, ops: seq<Op>)
    requires |c.f.types| > 0
    requires PassAll(ScopeOf(c), c.p.funcs, ps, ops).Some? && Codegen.GenOps(c, vars, frame, ops, Types(ScopeOf(c), ps)).OpEmit?
    ensures Codegen.GenOps(c, vars, frame, ops, Types(ScopeOf(c), ps)).tys == Types(ScopeOf(c), PassAll(ScopeOf(c), c.p.funcs, ps, ops).value)
    decreases |ops|
  {
    hide Pass, Codegen.GenOp;
    if |ops| > 0 {
      AgreeMeans(c, vars, frame, ps, ops[0]);
      RunsAgree(c, vars, frame, Pass(ScopeOf(c), c.p.funcs, ps, ops[0]).value, ops[1..]);
    }
  }

  lemma AgreeMeans(c: Codegen.Ctx, vars: seq<Codegen.Layout>, frame: nat, ps: seq<Place>, op: Op)
    requires |c.f.types| > 0
    ensures var s := ScopeOf(c); var tys := Types(s, ps);
      Pass(s, c.p.funcs, ps, op).Some? && Codegen.GenOp(c, vars, frame, op, tys).OpEmit?
      ==> Codegen.GenOp(c, vars, frame, op, tys).tys == Types(s, Pass(s, c.p.funcs, ps, op).value)
  {
    hide Pass, Codegen.GenOp, CompilerAsks, CheckerAsks;
    CheckersAgree(c, vars, frame, ps, op);
  }
}
