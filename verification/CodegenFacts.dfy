/** What every successful compilation of a block keeps. */
module CodegenFacts {
  import opened Memory
  import opened Ir
  import opened Bytecode
  import opened Codegen

  // ----- the machine widths of a program -----

  /** The operand of an operation is 16 bits wide. */
  predicate OpFits(op: Op) {
    match op
    case Call(fn) => fn < TWO16
    case Drop(n) => n < TWO16
    case PushVar(v) => v < TWO16
    case PushArg(i) => i < TWO16
    case PushGlobal(g) => g < TWO16
    case StructAt(field) => field < TWO16
    case _ => true
  }

  predicate OpsFit(ops: seq<Op>) {
    |ops| < TWO32 && forall op :: op in ops ==> OpFits(op)
  }

  predicate TreeFits(t: Tree)
    decreases Size(t)
  {
    match t
    case Basic(ops) => OpsFit(ops)
    case Defer(next, cleanup) => TreeFits(next) && TreeFits(cleanup)
    case Many(kids) => ChainFits(kids)
    case CrashPad(body, pad) => TreeFits(body) && TreeFits(pad)
    case Branch(cond, yes, no) => OpsFit(cond) && TreeFits(yes) && TreeFits(no)
    case Loop(body) => TreeFits(body)
    case Var(_, body) => TreeFits(body)
    case _ => true
  }

  predicate ChainFits(ch: Chain)
    decreases ChainSize(ch)
  {
    ch.Link? ==> TreeFits(ch.cur) && ChainFits(ch.rest)
  }

  predicate TypeFits(t: Type) {
    && t.payload < TWO64 && t.size < TWO64
    && (t.kind.KArray? ==> t.kind.capacity < TWO32 && t.kind.dataOffset < TWO64)
    && (t.kind.KStruct? ==> forall k :: 0 <= k < |t.kind.fields| ==> t.kind.fields[k].offset < TWO64)
    && (t.kind.KNative? ==> |t.kind.sig.ins| < TWO32)
  }

  predicate CtxFits(c: Ctx) {
    && (forall k :: 0 <= k < |c.f.types| ==> TypeFits(c.f.types[k]))
    && (forall k :: 0 <= k < |c.p.funcs| ==> Argc(c.p.funcs[k].sig) < TWO32)
    && Argc(c.f.sig) < TWO32
  }

  // ----- the discipline -----

  /** Frames only grow inwards, and stay below 2^15. */
  predicate StateOk(st: CState) {
    && st.frame <= MAX_FRAME
    && (forall v :: 0 <= v < |st.vars| && st.vars[v].live ==> st.vars[v].base <= st.frame)
    && (forall k :: 0 <= k < |st.scopes| ==> st.scopes[k].frame <= st.frame && st.scopes[k].crash <= st.crash)
  }

  /** A variable that is live afterwards was live before, at the same place. */
  predicate VarsKept(before: seq<Layout>, after: seq<Layout>) {
    |after| == |before| && forall v :: 0 <= v < |after| && after[v].live ==> after[v] == before[v]
  }

  /** Every instruction fits its fields, or exits one of the n scopes around. */
  predicate CodeOk(code: seq<Instr>, n: nat) {
    forall k :: 0 <= k < |code| ==> if code[k].IExit? then code[k].scope < n else Fits(code[k])
  }

  lemma CodeOkConcat(a: seq<Instr>, b: seq<Instr>, n: nat)
    requires CodeOk(a, n) && CodeOk(b, n)
    ensures CodeOk(a + b, n)
  {
  }

  lemma OpCodeOk(c: Ctx, vars: seq<Layout>, frame: nat, op: Op, tys: seq<TypeId>)
    requires CtxFits(c) && OpFits(op) && frame <= MAX_FRAME
    requires forall v :: 0 <= v < |vars| && vars[v].live ==> vars[v].base <= frame
    ensures var g := GenOp(c, vars, frame, op, tys);
            g.OpEmit? ==> CodeOk(g.code, 0) && |g.tys| <= |tys| + 1
  {
  }

  lemma {:induction false} OpsCodeOk(c: Ctx, vars: seq<Layout>, frame: nat, ops: seq<Op>, tys: seq<TypeId>)
    requires CtxFits(c) && frame <= MAX_FRAME && forall op :: op in ops ==> OpFits(op)
    requires forall v :: 0 <= v < |vars| && vars[v].live ==> vars[v].base <= frame
    ensures var g := GenOps(c, vars, frame, ops, tys);
            g.OpEmit? ==> CodeOk(g.code, 0) && |g.tys| <= |tys| + |ops|
  {
    if |ops| > 0 {
      OpCodeOk(c, vars, frame, ops[0], tys);
      var g := GenOp(c, vars, frame, ops[0], tys);
      if g.OpEmit? { OpsCodeOk(c, vars, frame, ops[1..], g.tys); }
    }
  }

  lemma CodeOkWeaken(code: seq<Instr>, m: nat, n: nat)
    requires CodeOk(code, m) && m <= n
    ensures CodeOk(code, n)
  {
  }

  /** Closing a scope leaves only exits of the scopes further out. */
  lemma CloseOk(st: CState, code: seq<Instr>, pos: nat, falls: bool, vars: seq<Layout>)
    requires CodeOk(code, |st.scopes| + 1)
    ensures var g := Close(st, code, pos, falls, vars); g.Emit? ==> CodeOk(g.code, |st.scopes|)
  {
    var scope, end := |st.scopes|, pos + CodeLength(code);
    if !HasExit(code, scope) || end <= MAX_TARGET {
      var r := Finish(code, scope, end);
      forall k | 0 <= k < |r| ensures if r[k].IExit? then r[k].scope < scope else Fits(r[k]) {
        if code[k] == IExit(scope) { assert HasExit(code, scope); }
      }
    }
  }

  lemma LoopCodeOk(body: seq<Instr>, reach: bool, pos: nat, n: nat)
    requires CodeOk(body, n)
    ensures CodeOk(LoopCode(body, reach, pos), n)
  {
  }

  lemma VarCodePartsOk(size: nat, body: seq<Instr>, reach: bool, n: nat)
    requires CodeOk(body, n) && size <= MAX_FRAME
    ensures CodeOk(VarCode(size, body, reach), n)
  {
    var rest := body + if reach then [IStorageAdd(-(size as int))] else [];
    assert CodeOk(rest, n);
    CodeOkConcat([IStorageAdd(size)], rest, n);
  }

  lemma BranchCodePartsOk(cond: seq<Instr>, yesPos: nat, noPos: nat, y: seq<Instr>, yReach: bool, end: nat, no: seq<Instr>, n: nat)
    requires CodeOk(cond, n) && CodeOk(y, n) && CodeOk(no, n)
    requires yesPos <= MAX_TARGET && noPos <= MAX_TARGET && (yReach ==> end <= MAX_TARGET)
    ensures CodeOk(BranchCode(cond, yesPos, noPos, y, yReach, end, no), n)
  {
    var jump: seq<Instr> := if yReach then [IJump(end)] else [];
    CodeOkConcat(jump, no, n);
    CodeOkConcat(y, jump + no, n);
    CodeOkConcat([IBranchTop(yesPos, noPos)], y + (jump + no), n);
    CodeOkConcat(cond, [IBranchTop(yesPos, noPos)] + (y + (jump + no)), n);
  }

  lemma PadCodePartsOk(padPos: nat, b: seq<Instr>, bReach: bool, end: nat, q: seq<Instr>, qReach: bool, n: nat)
    requires CodeOk(b, n) && CodeOk(q, n) && padPos <= MAX_TARGET && (bReach ==> end <= MAX_TARGET)
    ensures CodeOk(PadCode(padPos, b, bReach, end, q, qReach), n)
  {
    var jump: seq<Instr> := if bReach then [IPopCrash, IJump(end)] else [];
    var tail := q + if qReach then [ICrash] else [];
    assert CodeOk(tail, n);
    CodeOkConcat(jump, tail, n);
    CodeOkConcat(b, jump + tail, n);
    CodeOkConcat([IPushCrash(padPos)], b + (jump + tail), n);
  }

  lemma BreakCodeOk(st: CState, level: nat)
    requires StateOk(st)
    ensures var g := GenBreak(st, level); g.Emit? ==> CodeOk(g.code, |st.scopes|)
  {
  }

  // ----- what every successful compilation keeps -----

  lemma {:induction false} BasicCodeOk(c: Ctx, st: CState, ops: seq<Op>, g: Gen)
    requires CtxFits(c) && StateOk(st) && OpsFit(ops) && g == GenBasic(c, st, ops) && g.Emit?
    ensures CodeOk(g.code, |st.scopes|) && g.vars == st.vars
  {
    OpsCodeOk(c, st.vars, st.frame, ops, []);
    var r := GenOps(c, st.vars, st.frame, ops, []);
    CodeOkWeaken(r.code, 0, |st.scopes|);
    CodeOkConcat(r.code, if |r.tys| > 0 then [IDropN(|r.tys|)] else [], |st.scopes|);
  }

  lemma VarJoinOk(st: CState, inner: CState, v: nat, size: nat, b: Gen, pos: nat, g: Gen)
    requires g == CloseVar(st, v, size, b, pos) && g.Emit? && size <= MAX_FRAME && v < |st.vars|
    requires CodeOk(b.code, |st.scopes| + 1) && VarsKept(inner.vars, b.vars)
    requires inner.vars == st.vars[v := Layout(st.frame, true)]
    ensures CodeOk(g.code, |st.scopes|) && VarsKept(st.vars, g.vars)
  {
    VarCodePartsOk(size, b.code, b.reach, |st.scopes| + 1);
    CloseOk(st, VarCode(size, b.code, b.reach), pos, b.reach, Dead(b.vars, v));
  }

  lemma BranchJoinOk(pos: nat, cc: seq<Instr>, y: Gen, no: Gen, g: Gen, before: seq<Layout>, n: nat)
    requires y.Emit? && g == JoinBranch(pos, cc, y, no) && g.Emit?
    requires CodeOk(cc, 0) && CodeOk(y.code, n) && CodeOk(no.code, n) && VarsKept(before, y.vars) && VarsKept(before, no.vars)
    ensures CodeOk(g.code, n) && VarsKept(before, g.vars)
  {
    CodeOkWeaken(cc, 0, n);
    BranchCodePartsOk(cc, YesPos(pos, cc), NoPos(pos, cc, y), y.code, y.reach, NoPos(pos, cc, y) + CodeLength(no.code), no.code, n);
  }

  lemma PadJoinOk(pos: nat, b: Gen, q: Gen, g: Gen, before: seq<Layout>, n: nat)
    requires b.Emit? && g == JoinPad(pos, b, q) && g.Emit?
    requires CodeOk(b.code, n) && CodeOk(q.code, n) && VarsKept(before, b.vars) && VarsKept(before, q.vars)
    ensures CodeOk(g.code, n) && VarsKept(before, g.vars)
  {
    PadCodePartsOk(PadPos(pos, b), b.code, b.reach, PadPos(pos, b) + CodeLength(q.code) + (if q.reach then Length(ICrash) else 0),
                   q.code, q.reach, n);
  }

  /** A successful compilation emits code that fits, keeps the layout of the variables that
      stay live, and exits only scopes that are open. */
  lemma {:induction false} TreeCodeOk(c: Ctx, st: CState, t: Tree, pos: nat, g: Gen)
    requires CtxFits(c) && StateOk(st) && TreeFits(t) && g == GenTree(c, st, t, pos) && g.Emit?
    ensures CodeOk(g.code, |st.scopes|) && VarsKept(st.vars, g.vars)
    decreases Size(t), 0
  {
    if t.Basic? {
      BasicCodeOk(c, st, t.ops, g);
    } else if t.Break? {
      BreakCodeOk(st, t.level);
    } else if t.Many? {
      var k := GenChain(c, Inside(st), t.kids, pos);
      ChainCodeOk(c, Inside(st), t.kids, pos, k);
      CloseOk(st, k.code, pos, k.reach, k.vars);
    } else if t.CrashPad? {
      PadCodeOk(c, st, t.body, t.pad, pos, g);
    } else if t.Branch? {
      BranchCodeOk(c, st, t.cond, t.yes, t.no, pos, g);
    } else if t.Loop? {
      var b := GenTree(c, Inside(st), t.body, pos);
      TreeCodeOk(c, Inside(st), t.body, pos, b);
      LoopCodeOk(b.code, b.reach, pos, |st.scopes| + 1);
      CloseOk(st, LoopCode(b.code, b.reach, pos), pos, false, st.vars);
    } else if t.Var? {
      VarCodeOk(c, st, t.v, t.body, pos, g);
    }
  }

  lemma {:induction false} VarCodeOk(c: Ctx, st: CState, v: nat, body: Tree, pos: nat, g: Gen)
    requires CtxFits(c) && StateOk(st) && TreeFits(body) && g == GenVar(c, st, v, body, pos) && g.Emit?
    ensures CodeOk(g.code, |st.scopes|) && VarsKept(st.vars, g.vars)
    decreases Size(body), 1
  {
    var b := GenTree(c, VarState(c, st, v), body, pos + Length(IStorageAdd(VarSize(c, v))));
    TreeCodeOk(c, VarState(c, st, v), body, pos + Length(IStorageAdd(VarSize(c, v))), b);
    VarJoinOk(st, VarState(c, st, v), v, VarSize(c, v), b, pos, g);
  }

  lemma {:induction false} BranchCodeOk(c: Ctx, st: CState, cond: seq<Op>, yes: Tree, no: Tree, pos: nat, g: Gen)
    requires CtxFits(c) && StateOk(st) && OpsFit(cond) && TreeFits(yes) && TreeFits(no)
    requires g == GenBranch(c, st, cond, yes, no, pos) && g.Emit?
    ensures CodeOk(g.code, |st.scopes|) && VarsKept(st.vars, g.vars)
    decreases Size(yes) + Size(no), 1
  {
    var cc := GenOps(c, st.vars, st.frame, cond, []).code;
    OpsCodeOk(c, st.vars, st.frame, cond, []);
    var y := GenTree(c, st, yes, YesPos(pos, cc));
    TreeCodeOk(c, st, yes, YesPos(pos, cc), y);
    var n := GenTree(c, st, no, NoPos(pos, cc, y));
    TreeCodeOk(c, st, no, NoPos(pos, cc, y), n);
    BranchJoinOk(pos, cc, y, n, g, st.vars, |st.scopes|);
  }

  lemma {:induction false} PadCodeOk(c: Ctx, st: CState, body: Tree, pad: Tree, pos: nat, g: Gen)
    requires CtxFits(c) && StateOk(st) && TreeFits(body) && TreeFits(pad)
    requires g == GenPad(c, st, body, pad, pos) && g.Emit?
    ensures CodeOk(g.code, |st.scopes|) && VarsKept(st.vars, g.vars)
    decreases Size(body) + Size(pad), 1
  {
    var b := GenTree(c, st.(crash := st.crash + 1), body, BodyPos(pos));
    TreeCodeOk(c, st.(crash := st.crash + 1), body, BodyPos(pos), b);
    var q := GenTree(c, st, pad, PadPos(pos, b));
    TreeCodeOk(c, st, pad, PadPos(pos, b), q);
    PadJoinOk(pos, b, q, g, st.vars, |st.scopes|);
  }

  lemma {:induction false} ChainCodeOk(c: Ctx, st: CState, ch: Chain, pos: nat, g: Gen)
    requires CtxFits(c) && StateOk(st) && ChainFits(ch) && g == GenChain(c, st, ch, pos) && g.Emit?
    ensures CodeOk(g.code, |st.scopes|) && VarsKept(st.vars, g.vars)
    decreases ChainSize(ch), 0
  {
    if ch.Link? {
      var a := GenTree(c, st, ch.cur, pos);
      TreeCodeOk(c, st, ch.cur, pos, a);
      if a.reach {
        var b := GenChain(c, st.(vars := a.vars), ch.rest, pos + CodeLength(a.code));
        ChainCodeOk(c, st.(vars := a.vars), ch.rest, pos + CodeLength(a.code), b);
        CodeOkConcat(a.code, b.code, |st.scopes|);
      }
    }
  }

  // ----- resolving exits -----

  /** The code when the ends of all scopes around are known. */
  function Resolve(code: seq<Instr>, ends: seq<nat>): (r: seq<Instr>)
    ensures |r| == |code|
  {
    seq(|code|, k requires 0 <= k < |code| =>
      if code[k].IExit? && code[k].scope < |ends| then IJump(ends[code[k].scope]) else code[k])
  }

  lemma ResolveConcat(a: seq<Instr>, b: seq<Instr>, ends: seq<nat>)
    ensures Resolve(a + b, ends) == Resolve(a, ends) + Resolve(b, ends)
  {
  }

  lemma {:induction false} LengthByParts(a: seq<Instr>, b: seq<Instr>)
    requires |a| == |b| && forall k :: 0 <= k < |a| ==> Length(a[k]) == Length(b[k])
    ensures CodeLength(a) == CodeLength(b)
  {
    if |a| > 0 { LengthByParts(a[1..], b[1..]); }
  }

  lemma ResolveLength(code: seq<Instr>, ends: seq<nat>)
    ensures CodeLength(Resolve(code, ends)) == CodeLength(code)
  {
    LengthByParts(Resolve(code, ends), code);
  }

  /** Closing the innermost scope and resolving the others is resolving all of them. */
  lemma CloseResolves(st: CState, code: seq<Instr>, pos: nat, falls: bool, vars: seq<Layout>, ends: seq<nat>)
    requires Close(st, code, pos, falls, vars).Emit? && |ends| == |st.scopes|
    ensures var g := Close(st, code, pos, falls, vars);
            && Resolve(g.code, ends) == Resolve(code, ends + [pos + CodeLength(code)])
            && CodeLength(g.code) == CodeLength(code) && g.reach == (falls || HasExit(code, |ends|)) && g.vars == vars
            && (forall k :: 0 <= k < |ends| ==> (HasExit(g.code, k) <==> HasExit(code, k)))
  {
    var end := pos + CodeLength(code);
    var g := Close(st, code, pos, falls, vars);
    LengthByParts(g.code, code);
    forall k | 0 <= k < |ends| ensures HasExit(g.code, k) <==> HasExit(code, k) {
      if HasExit(code, k) {
        var j :| 0 <= j < |code| && code[j] == IExit(k);
        assert g.code[j] == IExit(k);
      }
      if HasExit(g.code, k) {
        var j :| 0 <= j < |g.code| && g.code[j] == IExit(k);
        assert code[j] == IExit(k);
      }
    }
  }
}
