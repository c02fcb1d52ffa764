/** The first pass as it runs: a stack of interned places that the operations push and pop. */
module TypeScanner {
  import opened Memory
  import opened Ir
  import opened InternTable
  import opened Places
  import opened TypeScan

  function Stack(handles: seq<Par>, pars: seq<nat>): (ps: seq<Place>)
    ensures |ps| == |pars| && forall i :: 0 <= i < |pars| ==> ps[i] == PlaceOf(handles, pars[i])
  {
    seq(|pars|, i requires 0 <= i < |pars| => PlaceOf(handles, pars[i]))
  }

  predicate Inside(handles: seq<Par>, pars: seq<nat>) { forall i :: 0 <= i < |pars| ==> pars[i] < |handles| }

  /** Interning does not change the places on the stack. */
  lemma StackStays(handles: seq<Par>, more: seq<Par>, pars: seq<nat>)
    requires Table(handles) && handles <= more && Inside(handles, pars)
    ensures Stack(more, pars) == Stack(handles, pars) && Inside(more, pars)
  {
    forall i | 0 <= i < |pars| ensures PlaceOf(more, pars[i]) == PlaceOf(handles, pars[i]) { PlaceStays(handles, more, pars[i]); }
  }

  // ----- checking: only reads -----

  /** The arguments from `base` on have the types of the signature, outputs first. */
  method CheckSig(s: Scope, handles: seq<Par>, pars: seq<nat>, sig: Sig, base: nat) returns (ok: bool)
    requires Table(handles) && Inside(handles, pars)
    ensures ok == SigFits(s, Types(s, Stack(handles, pars)), base, sig)
  {
    hide TypeAt, PlaceOf, Table;
    if |pars| < base + |sig.outs| + |sig.ins| { return false; }
    ghost var want, tys := sig.outs + sig.ins, Types(s, Stack(handles, pars));
    var i := 0;
    while i < |sig.outs|
      invariant i <= |sig.outs| && forall k :: 0 <= k < i ==> IsType(s, want[k]) && tys[base + k] == want[k]
    {
      var got := ParType(s, handles, pars[base + i]);
      assert want[i] == sig.outs[i] && got == tys[base + i];
      if !IsType(s, sig.outs[i]) || got != sig.outs[i] { return false; }
      i := i + 1;
    }
    i := 0;
    while i < |sig.ins|
      invariant i <= |sig.ins| && forall k :: 0 <= k < |sig.outs| + i ==> IsType(s, want[k]) && tys[base + k] == want[k]
    {
      var at := |sig.outs| + i;
      var got := ParType(s, handles, pars[base + at]);
      assert want[at] == sig.ins[i] && got == tys[base + at];
      if !IsType(s, sig.ins[i]) || got != sig.ins[i] { return false; }
      i := i + 1;
    }
    return true;
  }

  /** The type of the place that many below the top. */
  method TypeBelow(s: Scope, handles: seq<Par>, pars: seq<nat>, k: nat) returns (tid: nat)
    requires Table(handles) && Inside(handles, pars)
    ensures k < |pars| ==> tid == Types(s, Stack(handles, pars))[|pars| - 1 - k]
  {
    hide TypeAt, PlaceOf, Table;
    if k >= |pars| { return NO_TYPE; }
    tid := ParType(s, handles, pars[|pars| - 1 - k]);
  }

  method Check(s: Scope, funcs: seq<Func>, handles: seq<Par>, pars: seq<nat>, op: Op) returns (ok: bool)
    requires Table(handles) && Inside(handles, pars)
    ensures ok == CheckOp(s, funcs, Types(s, Stack(handles, pars)), op)
  {
    hide TypeAt, PlaceOf, Table, SigFits;
    var n := |pars|;
    var top := TypeBelow(s, handles, pars, 0);
    var below := TypeBelow(s, handles, pars, 1);
    match op {
      case Null(_) => ok := true;
      case Drop(_) => ok := true;
      case PushVar(v) => ok := v < |s.f.vars| && IsType(s, s.f.vars[v]);
      case PushArg(i) => ok := i < |s.f.vars| && IsType(s, s.f.vars[i]);
      case PushGlobal(g) => ok := g < |s.globals| && IsType(s, s.globals[g].tid);
      case Assign => ok := n >= 2 && IsType(s, below) && below == top;
      case Calc(_) => ok := n >= 2 && IsType(s, below) && below == top && below == INT;
      case BitNot => ok := n >= 1 && IsInt(s, top);
      case ArrPush => ok := n >= 2 && IsArray(s, below) && s.f.types[below].kind.elem == top;
      case ArrDrop => ok := n >= 2 && IsInt(s, top) && IsArray(s, below);
      case ArrAt => ok := n >= 2 && IsInt(s, top) && IsArray(s, below);
      case SliceFromAr => ok := n >= 2 && IsRef(s, below) && IsArray(s, top) && s.f.types[top].kind.elem == s.f.types[below].kind.elem;
      case SliceFromOne => ok := n >= 2 && IsSlice(s, below) && s.f.types[below].kind.elem == top;
      case SliceAt => ok := n >= 2 && IsInt(s, top) && IsRef(s, below);
      case SliceInc => ok := n >= 2 && IsInt(s, top) && IsSlice(s, below);
      case SliceDec => ok := n >= 2 && IsInt(s, top) && IsSlice(s, below);
      case StructAt(field) => ok := n >= 1 && IsStruct(s, top) && field < |s.f.types[top].kind.fields|;
      case Call(fn) =>
        if fn >= |funcs| || n < Argc(funcs[fn].sig) { return false; }
        ok := CheckSig(s, handles, pars, funcs[fn].sig, n - Argc(funcs[fn].sig));
      case CallNative =>
        if n < 1 || !IsNative(s, top) { return false; }
        var sig := s.f.types[top].kind.sig;
        if n < Argc(sig) + 1 { return false; }
        ok := CheckSig(s, handles, pars, sig, n - Argc(sig) - 1);
    }
  }

  // ----- carrying out: changes the stack and interns -----

  predicate PlaceOp(op: Op) { op.PushVar? || op.PushArg? || op.PushGlobal? || op.ArrAt? || op.SliceAt? || op.StructAt? }

  /** How many places an operation that yields a place takes. */
  function Needs(op: Op): nat { if op.StructAt? then 1 else if op.ArrAt? || op.SliceAt? then 2 else 0 }

  /** What is interned for it. */
  function PlacePar(op: Op, pars: seq<nat>): Par
    requires PlaceOp(op) && Needs(op) <= |pars|
  {
    if op.PushVar? then Par(PAR_LOCAL, op.v, 0)
    else if op.PushArg? then Par(PAR_ARG, op.i, 0)
    else if op.PushGlobal? then Par(PAR_GLOBAL, op.g, 0)
    else if op.StructAt? then Par(PAR_STRUCT_FILED, op.field, pars[|pars| - 1])
    else Par(PAR_ARR_MEMBER, 0, pars[|pars| - 2])
  }

  lemma PlaceEffect(s: Scope, funcs: seq<Func>, handles: seq<Par>, pars: seq<nat>, op: Op)
    requires PlaceOp(op) && Inside(handles, pars)
    ensures |pars| < Needs(op) ==> Effect(s, funcs, Stack(handles, pars), op).None?
    ensures Needs(op) <= |pars| ==>
      && ParOk(PlacePar(op, pars), |handles|)
      && Effect(s, funcs, Stack(handles, pars), op)
         == Some(Stack(handles, pars)[..|pars| - Needs(op)] + [PlaceWith(handles, PlacePar(op, pars))])
  {
    hide PlaceOf, TypeAt;
    var ps, n := Stack(handles, pars), |pars|;
    assert ps[..n] == ps;
  }

  class Scanner {
    const ctx: CompileContext
    const s: Scope
    const funcs: seq<Func>
    var pars: seq<nat>

    constructor (ctx: CompileContext, s: Scope, funcs: seq<Func>)
      requires ctx.Valid() && Table(ctx.handles)
      ensures Valid() && pars == [] && this.ctx == ctx && this.s == s && this.funcs == funcs
    {
      this.ctx, this.s, this.funcs, pars := ctx, s, funcs, [];
    }

    ghost predicate Valid()
      reads this, ctx, ctx.table, ctx.table.keys, ctx.table.vals, ctx.table.used
    {
      ctx.Valid() && Table(ctx.handles) && Inside(ctx.handles, pars)
    }

    ghost function Now(): seq<Place>
      reads this, ctx
    {
      Stack(ctx.handles, pars)
    }

    /** Pops some places and pushes an interned one. */
    method Replace(drop: nat, par: Par)
      requires Valid() && |ctx.handles| <= 0xFFFF_FFFF && drop <= |pars| && ParOk(par, |ctx.handles|)
      modifies this, ctx, ctx.table, ctx.table.keys, ctx.table.vals, ctx.table.used
      ensures Valid() && ctx.table == old(ctx.table)
      ensures (ctx.table.keys == old(ctx.table.keys) && ctx.table.vals == old(ctx.table.vals) && ctx.table.used == old(ctx.table.used))
              || (fresh(ctx.table.keys) && fresh(ctx.table.vals) && fresh(ctx.table.used))
      ensures old(ctx.handles) <= ctx.handles && |ctx.handles| <= |old(ctx.handles)| + 1
      ensures Now() == old(Now()[..|pars| - drop]) + [PlaceWith(old(ctx.handles), par)]
    {
      hide Table, PlaceOf, ParOk, Indexed, Holds, ParIdxTable.Valid, PlaceWith;
      var rest := pars[..|pars| - drop];
      assert Stack(ctx.handles, rest) == Now()[..|rest|];
      TableGrows(ctx.handles, par);
      assert ProjectsBelow(par, |ctx.handles|) by { OkProjects(par, |ctx.handles|); }
      ghost var handles := ctx.handles;
      var idx := ctx.InternPar(par);
      StackStays(handles, ctx.handles, rest);
      PlaceIs(handles, ctx.handles, par, idx);
      pars := rest + [idx];
    }

    method Pop(k: nat)
      requires Valid() && k <= |pars|
      modifies this
      ensures Valid() && Now() == old(Now())[..|old(pars)| - k]
    {
      hide Table, PlaceOf, Indexed, Holds, ParIdxTable.Valid;
      ghost var n := |pars| - k;
      assert Stack(ctx.handles, pars[..n]) == Now()[..n];
      pars := pars[..|pars| - k];
    }

    /** The operations that push a place or replace one by a part of it. */
    method ApplyPlace(op: Op) returns (ok: bool)
      requires Valid() && |ctx.handles| <= 0xFFFF_FFFF
      requires PlaceOp(op)
      modifies this, ctx, ctx.table, ctx.table.keys, ctx.table.vals, ctx.table.used
      ensures Valid() && ctx.table == old(ctx.table)
      ensures (ctx.table.keys == old(ctx.table.keys) && ctx.table.vals == old(ctx.table.vals) && ctx.table.used == old(ctx.table.used))
              || (fresh(ctx.table.keys) && fresh(ctx.table.vals) && fresh(ctx.table.used))
      ensures old(ctx.handles) <= ctx.handles && |ctx.handles| <= |old(ctx.handles)| + 1
      ensures ok == Effect(s, funcs, old(Now()), op).Some?
      ensures Now() == if ok then Effect(s, funcs, old(Now()), op).value else old(Now())
    {
      hide Table, PlaceOf, TypeAt, Indexed, Holds, ParIdxTable.Valid, Effect, PlaceWith;
      PlaceEffect(s, funcs, ctx.handles, pars, op);
      if |pars| < Needs(op) { return false; }
      Replace(Needs(op), PlacePar(op, pars));
      return true;
    }

    /** The others, which only pop. */
    method ApplyPop(op: Op) returns (ok: bool)
      requires Valid()
      requires !PlaceOp(op)
      modifies this
      ensures Valid()
      ensures ok == Effect(s, funcs, old(Now()), op).Some?
      ensures Now() == if ok then Effect(s, funcs, old(Now()), op).value else old(Now())
    {
      hide Table, PlaceOf, TypeAt, Indexed, Holds, ParIdxTable.Valid;
      var n, k := |pars|, 0;
      if op.Null? { return true; }
      if op.BitNot? { return n >= 1; }
      if op.Call? {
        if op.fn >= |funcs| || n < Argc(funcs[op.fn].sig) { return false; }
        k := |funcs[op.fn].sig.ins|;
      } else if op.CallNative? {
        if n < 1 { return false; }
        var top := TypeBelow(s, ctx.handles, pars, 0);
        if !IsNative(s, top) || n < Argc(s.f.types[top].kind.sig) + 1 { return false; }
        k := |s.f.types[top].kind.sig.ins| + 1;
      } else {
        var least := if op.Drop? then op.n else if op.SliceInc? || op.SliceDec? then 1 else 2;
        if n < least { return false; }
        k := if op.Drop? then op.n else 1;
      }
      Pop(k);
      return true;
    }

    /** Carries out an operation on the stack of places. */
    method Apply(op: Op) returns (ok: bool)
      requires Valid() && |ctx.handles| <= 0xFFFF_FFFF
      modifies this, ctx, ctx.table, ctx.table.keys, ctx.table.vals, ctx.table.used
      ensures Valid() && ctx.table == old(ctx.table)
      ensures (ctx.table.keys == old(ctx.table.keys) && ctx.table.vals == old(ctx.table.vals) && ctx.table.used == old(ctx.table.used))
              || (fresh(ctx.table.keys) && fresh(ctx.table.vals) && fresh(ctx.table.used))
      ensures old(ctx.handles) <= ctx.handles && |ctx.handles| <= |old(ctx.handles)| + 1
      ensures ok == Effect(s, funcs, old(Now()), op).Some?
      ensures Now() == if ok then Effect(s, funcs, old(Now()), op).value else old(Now())
    {
      hide Table, PlaceOf, TypeAt, Indexed, Holds, ParIdxTable.Valid, Effect;
      if PlaceOp(op) {
        ok := ApplyPlace(op);
      } else {
        ok := ApplyPop(op);
      }
    }

    /** A range of operations. A basic block drops what it leaves behind; no range may leave
        less than it found. */
    method ScanOps(ops: seq<Op>, reset: bool) returns (ok: bool)
      requires Valid() && |ctx.handles| + |ops| <= 0x1_0000_0000
      modifies this, ctx, ctx.table, ctx.table.keys, ctx.table.vals, ctx.table.used
      ensures Valid() && ctx.table == old(ctx.table)
      ensures var all := PassAll(s, funcs, old(Now()), ops);
        ok == (all.Some? && |all.value| >= |old(pars)|)
        && (ok ==> Now() == if reset then all.value[..|old(pars)|] else all.value)
    {
      hide Table, PlaceOf, TypeAt, Indexed, Holds, ParIdxTable.Valid, CheckOp, Effect;
      var start := |pars|;
      ghost var was, low := Now(), |ctx.handles|;
      var i := 0;
      while i < |ops|
        invariant 0 <= i <= |ops| && Valid() && ctx.table == old(ctx.table)
        invariant (ctx.table.keys == old(ctx.table.keys) && ctx.table.vals == old(ctx.table.vals) && ctx.table.used == old(ctx.table.used))
                  || (fresh(ctx.table.keys) && fresh(ctx.table.vals) && fresh(ctx.table.used))
        invariant |ctx.handles| <= low + i
        invariant PassAll(s, funcs, was, ops) == PassAll(s, funcs, Now(), ops[i..])
      {
        assert ops[i..][0] == ops[i] && ops[i..][1..] == ops[i + 1..];
        var fits := Check(s, funcs, ctx.handles, pars, ops[i]);
        if !fits { return false; }
        var done := Apply(ops[i]);
        if !done { return false; }
        i := i + 1;
      }
      if |pars| < start { return false; }
      if reset { Pop(|pars| - start); }
      return true;
    }
  }

  predicate ProjectsBelow(par: Par, n: nat) { Projects(par) ==> par.parent < n }

  lemma OkProjects(par: Par, n: nat)
    requires ParOk(par, n)
    ensures ProjectsBelow(par, n)
  {
  }

  /** The place that a new entry stands for. */
  function PlaceWith(handles: seq<Par>, par: Par): Place {
    if par.kind.PAR_STRUCT_FILED? then FieldOf(PlaceOf(handles, par.parent), par.idx)
    else if par.kind.PAR_ARR_MEMBER? then MemberOf(PlaceOf(handles, par.parent))
    else Root(par.kind, par.idx)
  }

  lemma PlaceIs(handles: seq<Par>, more: seq<Par>, par: Par, idx: nat)
    requires Table(handles) && ParOk(par, |handles|) && idx < |more| && more[idx] == par
    requires more == if par in handles then handles else handles + [par]
    ensures PlaceOf(more, idx) == PlaceWith(handles, par)
  {
    TableGrows(handles, par);
    assert ParOk(more[idx], idx);
    if Projects(par) { PlaceStays(handles, more, par.parent); }
  }
}
