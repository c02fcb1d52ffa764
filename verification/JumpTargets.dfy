/** Every jump of compiled code leads to the start of one of its instructions, or to its end. */
module JumpTargets {
  import opened Memory
  import opened Ir
  import opened Bytecode
  import opened Codegen
  import opened CodegenFacts

  function Targets(i: Instr): set<nat> {
    match i
    case IJump(t) => {t}
    case IBranchTop(yes, no) => {yes, no}
    case IPushCrash(t) => {t}
    case _ => {}
  }

  /** Byte t is where an instruction starts in code that starts at `pos`, or where it ends. */
  predicate Boundary(code: seq<Instr>, pos: nat, t: nat) {
    exists k :: 0 <= k <= |code| && t == pos + CodeLength(code[..k])
  }

  /** The targets in the part are boundaries of the whole, but for the given ones. */
  predicate LeadsInto(part: seq<Instr>, whole: seq<Instr>, pos: nat, far: set<nat>) {
    forall k, t :: 0 <= k < |part| && t in Targets(part[k]) && t !in far ==> Boundary(whole, pos, t)
  }

  lemma BoundaryAt(code: seq<Instr>, pos: nat, k: nat)
    requires k <= |code|
    ensures Boundary(code, pos, pos + CodeLength(code[..k]))
  {
  }

  /** A boundary of a part is one of the whole. */
  lemma BoundaryInside(pre: seq<Instr>, part: seq<Instr>, post: seq<Instr>, pos: nat, t: nat)
    requires Boundary(part, pos + CodeLength(pre), t)
    ensures Boundary(pre + (part + post), pos, t)
  {
    var k :| 0 <= k <= |part| && t == pos + CodeLength(pre) + CodeLength(part[..k]);
    assert (pre + (part + post))[..|pre| + k] == pre + part[..k];
    LengthConcat(pre, part[..k]);
    BoundaryAt(pre + (part + post), pos, |pre| + k);
  }

  lemma LeadsInside(pre: seq<Instr>, part: seq<Instr>, post: seq<Instr>, pos: nat, far: set<nat>)
    requires LeadsInto(part, part, pos + CodeLength(pre), far)
    ensures LeadsInto(part, pre + (part + post), pos, far)
  {
    hide Boundary;
    forall k, t | 0 <= k < |part| && t in Targets(part[k]) && t !in far ensures Boundary(pre + (part + post), pos, t) {
      BoundaryInside(pre, part, post, pos, t);
    }
  }

  lemma LeadsConcat(a: seq<Instr>, b: seq<Instr>, whole: seq<Instr>, pos: nat, far: set<nat>)
    requires LeadsInto(a, whole, pos, far) && LeadsInto(b, whole, pos, far)
    ensures LeadsInto(a + b, whole, pos, far)
  {
    hide Boundary;
    forall k, t | 0 <= k < |a + b| && t in Targets((a + b)[k]) && t !in far ensures Boundary(whole, pos, t) {
      if k < |a| { assert t in Targets(a[k]); } else { assert t in Targets(b[k - |a|]); }
    }
  }

  predicate Plain(code: seq<Instr>) { forall k :: 0 <= k < |code| ==> Targets(code[k]) == {} }

  lemma PlainLeads(code: seq<Instr>, whole: seq<Instr>, pos: nat, far: set<nat>)
    requires Plain(code)
    ensures LeadsInto(code, whole, pos, far)
  {
  }

  lemma {:induction false} OpsArePlain(c: Ctx, vars: seq<Layout>, frame: nat, ops: seq<Op>, tys: seq<TypeId>)
    requires GenOps(c, vars, frame, ops, tys).OpEmit?
    ensures Plain(GenOps(c, vars, frame, ops, tys).code)
    decreases |ops|
  {
    hide GenOp;
    if |ops| > 0 {
      OpIsPlain(c, vars, frame, ops[0], tys);
      OpsArePlain(c, vars, frame, ops[1..], GenOp(c, vars, frame, ops[0], tys).tys);
    }
  }

  lemma OpIsPlain(c: Ctx, vars: seq<Layout>, frame: nat, op: Op, tys: seq<TypeId>)
    requires GenOp(c, vars, frame, op, tys).OpEmit?
    ensures Plain(GenOp(c, vars, frame, op, tys).code)
  {
  }

  // ----- the ways code is put together -----

  lemma CloseLeads(st: CState, code: seq<Instr>, pos: nat, falls: bool, vars: seq<Layout>, g: Gen, far: set<nat>)
    requires LeadsInto(code, code, pos, far) && g == Close(st, code, pos, falls, vars) && g.Emit?
    ensures LeadsInto(g.code, g.code, pos, far)
  {
    hide Boundary, CodeLength;
    var scope, end := |st.scopes|, pos + CodeLength(code);
    forall k, t | 0 <= k < |g.code| && t in Targets(g.code[k]) && t !in far ensures Boundary(g.code, pos, t) {
      if code[k] == IExit(scope) {
        assert code[..|code|] == code;
        BoundaryAt(code, pos, |code|);
      }
      FinishBoundary(code, scope, end, pos, t);
    }
  }

  lemma FinishBoundary(code: seq<Instr>, scope: nat, end: nat, pos: nat, t: nat)
    requires Boundary(code, pos, t)
    ensures Boundary(Finish(code, scope, end), pos, t)
  {
    var k :| 0 <= k <= |code| && t == pos + CodeLength(code[..k]);
    LengthByParts(code[..k], Finish(code, scope, end)[..k]);
    BoundaryAt(Finish(code, scope, end), pos, k);
  }

  lemma LoopLeads(body: seq<Instr>, reach: bool, pos: nat, far: set<nat>)
    requires LeadsInto(body, body, pos, far) && (reach ==> pos <= MAX_TARGET || pos % TWO16 in far)
    ensures LeadsInto(LoopCode(body, reach, pos), LoopCode(body, reach, pos), pos, far)
  {
    hide Boundary;
    var jump: seq<Instr> := if reach then [IJump(pos % TWO16)] else [];
    var whole := body + jump;
    LeadsInside([], body, jump, pos, far);
    assert [] + (body + jump) == whole;
    assert whole[..0] == [];
    BoundaryAt(whole, pos, 0);
    assert LeadsInto(jump, whole, pos, far);
    LeadsConcat(body, jump, whole, pos, far);
  }

  lemma VarLeads(size: nat, body: seq<Instr>, reach: bool, pos: nat, far: set<nat>)
    requires LeadsInto(body, body, pos + Length(IStorageAdd(size)), far)
    ensures LeadsInto(VarCode(size, body, reach), VarCode(size, body, reach), pos, far)
  {
    hide Boundary;
    var pre := [IStorageAdd(size)];
    var post: seq<Instr> := if reach then [IStorageAdd(-(size as int))] else [];
    var whole := pre + (body + post);
    assert CodeLength(pre) == Length(IStorageAdd(size)) by { OneLength(IStorageAdd(size)); }
    LeadsInside(pre, body, post, pos, far);
    PlainLeads(pre, whole, pos, far);
    PlainLeads(post, whole, pos, far);
    LeadsConcat(body, post, whole, pos, far);
    LeadsConcat(pre, body + post, whole, pos, far);
  }

  lemma OneLength(i: Instr)
    ensures CodeLength([i]) == Length(i)
  {
    assert [i][1..] == [];
  }

  /** Where the parts of a whole meet are boundaries. */
  lemma Meeting(pre: seq<Instr>, post: seq<Instr>, pos: nat)
    ensures Boundary(pre + post, pos, pos + CodeLength(pre)) && Boundary(pre + post, pos, pos + CodeLength(pre) + CodeLength(post))
  {
    assert (pre + post)[..|pre|] == pre && (pre + post)[..|pre + post|] == pre + post;
    LengthConcat(pre, post);
    BoundaryAt(pre + post, pos, |pre|);
    BoundaryAt(pre + post, pos, |pre + post|);
  }

  lemma BranchLeads(pos: nat, cc: seq<Instr>, y: Gen, n: Gen, g: Gen, far: set<nat>)
    requires y.Emit? && n.Emit? && g == JoinBranch(pos, cc, y, n) && g.Emit? && Plain(cc)
    requires LeadsInto(y.code, y.code, YesPos(pos, cc), far) && LeadsInto(n.code, n.code, NoPos(pos, cc, y), far)
    ensures LeadsInto(g.code, g.code, pos, far)
  {
    hide Boundary, CodeLength;
    var yesPos, noPos := YesPos(pos, cc), NoPos(pos, cc, y);
    var end := noPos + CodeLength(n.code);
    var test := [IBranchTop(yesPos, noPos)];
    var jump: seq<Instr> := if y.reach then [IJump(end)] else [];
    var whole := g.code;
    OneLength(IBranchTop(yesPos, noPos));
    OneLength(IJump(end));
    NoLength();
    SameBranchLength(yesPos, noPos, end);
    LengthConcat(cc, test);
    var head := cc + test;
    assert whole == head + (y.code + (jump + n.code)) == (head + y.code + jump) + (n.code + []);
    LengthConcat(head, y.code);
    LengthConcat(head + y.code, jump);
    LeadsInside(head, y.code, jump + n.code, pos, far);
    LeadsInside(head + y.code + jump, n.code, [], pos, far);
    Meeting(head, y.code + (jump + n.code), pos);
    Meeting(head + y.code + jump, n.code, pos);
    assert head + y.code + jump + n.code == whole;
    assert LeadsInto(test, whole, pos, far);
    assert LeadsInto(jump, whole, pos, far);
    PlainLeads(cc, whole, pos, far);
    LeadsConcat(jump, n.code, whole, pos, far);
    LeadsConcat(y.code, jump + n.code, whole, pos, far);
    LeadsConcat(test, y.code + (jump + n.code), whole, pos, far);
    LeadsConcat(cc, test + (y.code + (jump + n.code)), whole, pos, far);
  }

  lemma NoLength()
    ensures CodeLength([]) == 0
  {
  }

  lemma SameBranchLength(yes: nat, no: nat, t: nat)
    ensures Length(IBranchTop(yes, no)) == Length(IBranchTop(0, 0)) && Length(IJump(t)) == Length(IJump(0)) && Length(IPushCrash(t)) == Length(IPushCrash(0))
  {
  }

  lemma PadLeads(pos: nat, b: Gen, q: Gen, g: Gen, far: set<nat>)
    requires b.Emit? && q.Emit? && g == JoinPad(pos, b, q) && g.Emit?
    requires LeadsInto(b.code, b.code, BodyPos(pos), far) && LeadsInto(q.code, q.code, PadPos(pos, b), far)
    ensures LeadsInto(g.code, g.code, pos, far)
  {
    hide Boundary, CodeLength;
    var padPos := PadPos(pos, b);
    var end := padPos + CodeLength(q.code) + (if q.reach then Length(ICrash) else 0);
    var push := [IPushCrash(padPos)];
    var jump: seq<Instr> := if b.reach then [IPopCrash, IJump(end)] else [];
    var last: seq<Instr> := if q.reach then [ICrash] else [];
    var whole := g.code;
    OneLength(IPushCrash(padPos));
    OneLength(ICrash);
    TwoLength(IPopCrash, IJump(end));
    NoLength();
    SameBranchLength(0, 0, end);
    SameBranchLength(0, 0, padPos);
    assert whole == push + (b.code + (jump + (q.code + last))) == (push + b.code + jump) + (q.code + last);
    LengthConcat(push, b.code);
    LengthConcat(push + b.code, jump);
    LengthConcat(q.code, last);
    LeadsInside(push, b.code, jump + (q.code + last), pos, far);
    LeadsInside(push + b.code + jump, q.code, last, pos, far);
    Meeting(push + b.code + jump, q.code + last, pos);
    assert LeadsInto(push, whole, pos, far);
    assert LeadsInto(jump, whole, pos, far);
    PlainLeads(last, whole, pos, far);
    LeadsConcat(q.code, last, whole, pos, far);
    LeadsConcat(jump, q.code + last, whole, pos, far);
    LeadsConcat(b.code, jump + (q.code + last), whole, pos, far);
    LeadsConcat(push, b.code + (jump + (q.code + last)), whole, pos, far);
  }

  lemma TwoLength(i: Instr, j: Instr)
    ensures CodeLength([i, j]) == Length(i) + Length(j)
  {
    OneLength(i);
    OneLength(j);
    assert [i, j] == [i] + [j];
    LengthConcat([i], [j]);
  }

  // ----- trees -----

  /** Where the jumps back of those loops lead whose head lies too far for a target. */
  function FarLoops(c: Ctx, st: CState, t: Tree, pos: nat): set<nat>
    decreases Size(t), 0
  {
    match t
    case Many(kids) => FarInChain(c, Inside(st), kids, pos)
    case CrashPad(body, pad) =>
      var b := GenTree(c, st.(crash := st.crash + 1), body, BodyPos(pos));
      FarLoops(c, st.(crash := st.crash + 1), body, BodyPos(pos)) + (if b.Emit? then FarLoops(c, st, pad, PadPos(pos, b)) else {})
    case Branch(cond, yes, no) =>
      var cc := GenOps(c, st.vars, st.frame, cond, []);
      if cc.OpFail? then {} else
      var y := GenTree(c, st, yes, YesPos(pos, cc.code));
      FarLoops(c, st, yes, YesPos(pos, cc.code)) + (if y.Emit? then FarLoops(c, st, no, NoPos(pos, cc.code, y)) else {})
    case Loop(body) =>
      var b := GenTree(c, Inside(st), body, pos);
      FarLoops(c, Inside(st), body, pos) + (if b.Emit? && b.reach && pos > MAX_TARGET then {pos % TWO16} else {})
    case Var(v, body) =>
      if v < |c.f.vars| && v < |st.vars| && c.f.vars[v] < |c.f.types|
      then FarLoops(c, VarState(c, st, v), body, pos + Length(IStorageAdd(VarSize(c, v)))) else {}
    case _ => {}
  }

  function FarInChain(c: Ctx, st: CState, ch: Chain, pos: nat): set<nat>
    decreases ChainSize(ch), 0
  {
    if !ch.Link? then {} else
    var a := GenTree(c, st, ch.cur, pos);
    FarLoops(c, st, ch.cur, pos)
    + (if a.Emit? && a.reach then FarInChain(c, st.(vars := a.vars), ch.rest, pos + CodeLength(a.code)) else {})
  }

  lemma {:induction false} TreeLeads(c: Ctx, st: CState, t: Tree, pos: nat, g: Gen, far: set<nat>)
    requires g == GenTree(c, st, t, pos) && g.Emit? && (FarLoops(c, st, t, pos) <= far || pos + CodeLength(g.code) <= MAX_TARGET)
    ensures LeadsInto(g.code, g.code, pos, far)
    decreases Size(t), 0
  {
    hide CodeLength, LeadsInto, Close, GenOps, GenBranch, GenPad, GenVar, JoinBranch, JoinPad;
    if t.Basic? {
      BasicLeads(c, st, t.ops, pos, g, far);
    } else if t.Many? {
      var k := GenChain(c, Inside(st), t.kids, pos);
      ClosedLength(st, k.code, pos, k.reach, k.vars, g);
      ChainLeads(c, Inside(st), t.kids, pos, k, far);
      CloseLeads(st, k.code, pos, k.reach, k.vars, g, far);
    } else if t.CrashPad? {
      PadTreeLeads(c, st, t.body, t.pad, pos, g, far);
    } else if t.Branch? {
      BranchTreeLeads(c, st, t.cond, t.yes, t.no, pos, g, far);
    } else if t.Loop? {
      var b := GenTree(c, Inside(st), t.body, pos);
      ClosedLength(st, LoopCode(b.code, b.reach, pos), pos, false, st.vars, g);
      LengthConcat(b.code, if b.reach then [IJump(pos % TWO16)] else []);
      TreeLeads(c, Inside(st), t.body, pos, b, far);
      LoopLeads(b.code, b.reach, pos, far);
      CloseLeads(st, LoopCode(b.code, b.reach, pos), pos, false, st.vars, g, far);
    } else if t.Var? {
      VarTreeLeads(c, st, t.v, t.body, pos, g, far);
    } else {
      SimpleLeads(c, st, t, pos, g, far);
    }
  }

  lemma SimpleLeads(c: Ctx, st: CState, t: Tree, pos: nat, g: Gen, far: set<nat>)
    requires g == GenTree(c, st, t, pos) && g.Emit?
    requires t.SoftCrash? || t.HardCrash? || t.Break? || t.Defer? || t.Stray? || t.Missing?
    ensures LeadsInto(g.code, g.code, pos, far)
  {
    hide Boundary, CodeLength;
    assert Plain(g.code);
    PlainLeads(g.code, g.code, pos, far);
  }

  lemma BasicLeads(c: Ctx, st: CState, ops: seq<Op>, pos: nat, g: Gen, far: set<nat>)
    requires g == GenBasic(c, st, ops) && g.Emit?
    ensures LeadsInto(g.code, g.code, pos, far)
  {
    hide Boundary, CodeLength;
    OpsArePlain(c, st.vars, st.frame, ops, []);
    PlainLeads(g.code, g.code, pos, far);
  }

  lemma ClosedLength(st: CState, code: seq<Instr>, pos: nat, falls: bool, vars: seq<Layout>, g: Gen)
    requires g == Close(st, code, pos, falls, vars) && g.Emit?
    ensures CodeLength(g.code) == CodeLength(code)
  {
    LengthByParts(g.code, code);
  }

  lemma {:induction false} ChainLeads(c: Ctx, st: CState, ch: Chain, pos: nat, g: Gen, far: set<nat>)
    requires g == GenChain(c, st, ch, pos) && g.Emit? && (FarInChain(c, st, ch, pos) <= far || pos + CodeLength(g.code) <= MAX_TARGET)
    ensures LeadsInto(g.code, g.code, pos, far)
    decreases ChainSize(ch), 0
  {
    hide CodeLength, LeadsInto, Boundary;
    if ch.Link? {
      var a := GenTree(c, st, ch.cur, pos);
      if a.reach {
        var b := GenChain(c, st.(vars := a.vars), ch.rest, pos + CodeLength(a.code));
        LengthConcat(a.code, b.code);
        TreeLeads(c, st, ch.cur, pos, a, far);
        ChainLeads(c, st.(vars := a.vars), ch.rest, pos + CodeLength(a.code), b, far);
        Joined(a.code, b.code, pos, far);
      } else {
        TreeLeads(c, st, ch.cur, pos, a, far);
      }
    } else {
      NothingLeads(g.code, pos, far);
    }
  }

  lemma NothingLeads(code: seq<Instr>, pos: nat, far: set<nat>)
    requires code == []
    ensures LeadsInto(code, code, pos, far)
  {
  }

  lemma Joined(a: seq<Instr>, b: seq<Instr>, pos: nat, far: set<nat>)
    requires LeadsInto(a, a, pos, far) && LeadsInto(b, b, pos + CodeLength(a), far)
    ensures LeadsInto(a + b, a + b, pos, far)
  {
    hide LeadsInto, Boundary;
    NoLength();
    LeadsInside([], a, b, pos, far);
    LeadsInside(a, b, [], pos, far);
    assert [] + (a + b) == a + b == a + (b + []);
    LeadsConcat(a, b, a + b, pos, far);
  }

  lemma {:induction false} VarTreeLeads(c: Ctx, st: CState, v: nat, body: Tree, pos: nat, g: Gen, far: set<nat>)
    requires g == GenVar(c, st, v, body, pos) && g.Emit? && (FarLoops(c, st, Var(v, body), pos) <= far || pos + CodeLength(g.code) <= MAX_TARGET)
    ensures LeadsInto(g.code, g.code, pos, far)
    decreases Size(body), 1
  {
    hide CodeLength, LeadsInto, Close;
    var size := VarSize(c, v);
    var at := pos + Length(IStorageAdd(size));
    var b := GenTree(c, VarState(c, st, v), body, at);
    var back: seq<Instr> := if b.reach then [IStorageAdd(-(size as int))] else [];
    ClosedLength(st, VarCode(size, b.code, b.reach), pos, b.reach, Dead(b.vars, v), g);
    OneLength(IStorageAdd(size));
    LengthConcat([IStorageAdd(size)], b.code + back);
    LengthConcat(b.code, back);
    TreeLeads(c, VarState(c, st, v), body, at, b, far);
    VarLeads(size, b.code, b.reach, pos, far);
    CloseLeads(st, VarCode(size, b.code, b.reach), pos, b.reach, Dead(b.vars, v), g, far);
  }

  lemma {:induction false} BranchTreeLeads(c: Ctx, st: CState, cond: seq<Op>, yes: Tree, no: Tree, pos: nat, g: Gen, far: set<nat>)
    requires g == GenBranch(c, st, cond, yes, no, pos) && g.Emit? && (FarLoops(c, st, Branch(cond, yes, no), pos) <= far || pos + CodeLength(g.code) <= MAX_TARGET)
    ensures LeadsInto(g.code, g.code, pos, far)
    decreases Size(yes) + Size(no), 1
  {
    hide CodeLength, LeadsInto, GenOps;
    var cc := GenOps(c, st.vars, st.frame, cond, []).code;
    OpsArePlain(c, st.vars, st.frame, cond, []);
    var y := GenTree(c, st, yes, YesPos(pos, cc));
    var n := GenTree(c, st, no, NoPos(pos, cc, y));
    BranchLength(pos, cc, y, n, g);
    TreeLeads(c, st, yes, YesPos(pos, cc), y, far);
    TreeLeads(c, st, no, NoPos(pos, cc, y), n, far);
    BranchLeads(pos, cc, y, n, g, far);
  }

  lemma BranchLength(pos: nat, cc: seq<Instr>, y: Gen, n: Gen, g: Gen)
    requires y.Emit? && n.Emit? && g == JoinBranch(pos, cc, y, n) && g.Emit?
    ensures pos + CodeLength(g.code) == NoPos(pos, cc, y) + CodeLength(n.code) >= YesPos(pos, cc) + CodeLength(y.code)
  {
    hide CodeLength;
    var yesPos, noPos := YesPos(pos, cc), NoPos(pos, cc, y);
    var end := noPos + CodeLength(n.code);
    var jump: seq<Instr> := if y.reach then [IJump(end)] else [];
    OneLength(IBranchTop(yesPos, noPos));
    OneLength(IJump(end));
    NoLength();
    SameBranchLength(yesPos, noPos, end);
    LengthConcat(cc, [IBranchTop(yesPos, noPos)] + (y.code + (jump + n.code)));
    LengthConcat([IBranchTop(yesPos, noPos)], y.code + (jump + n.code));
    LengthConcat(y.code, jump + n.code);
    LengthConcat(jump, n.code);
  }

  lemma {:induction false} PadTreeLeads(c: Ctx, st: CState, body: Tree, pad: Tree, pos: nat, g: Gen, far: set<nat>)
    requires g == GenPad(c, st, body, pad, pos) && g.Emit? && (FarLoops(c, st, CrashPad(body, pad), pos) <= far || pos + CodeLength(g.code) <= MAX_TARGET)
    ensures LeadsInto(g.code, g.code, pos, far)
    decreases Size(body) + Size(pad), 1
  {
    hide CodeLength, LeadsInto;
    var b := GenTree(c, st.(crash := st.crash + 1), body, BodyPos(pos));
    var q := GenTree(c, st, pad, PadPos(pos, b));
    PadLength(pos, b, q, g);
    TreeLeads(c, st.(crash := st.crash + 1), body, BodyPos(pos), b, far);
    TreeLeads(c, st, pad, PadPos(pos, b), q, far);
    PadLeads(pos, b, q, g, far);
  }

  lemma PadLength(pos: nat, b: Gen, q: Gen, g: Gen)
    requires b.Emit? && q.Emit? && g == JoinPad(pos, b, q) && g.Emit?
    ensures pos + CodeLength(g.code) >= PadPos(pos, b) + CodeLength(q.code) && pos + CodeLength(g.code) >= BodyPos(pos) + CodeLength(b.code)
  {
    hide CodeLength;
    var padPos := PadPos(pos, b);
    var end := padPos + CodeLength(q.code) + (if q.reach then Length(ICrash) else 0);
    var jump: seq<Instr> := if b.reach then [IPopCrash, IJump(end)] else [];
    var last: seq<Instr> := if q.reach then [ICrash] else [];
    OneLength(IPushCrash(padPos));
    TwoLength(IPopCrash, IJump(end));
    NoLength();
    SameBranchLength(0, 0, end);
    SameBranchLength(0, 0, padPos);
    LengthConcat([IPushCrash(padPos)], b.code + (jump + (q.code + last)));
    LengthConcat(b.code, jump + (q.code + last));
    LengthConcat(jump, q.code + last);
    LengthConcat(q.code, last);
  }

  // ----- the jumps that lead elsewhere are there -----

  predicate Aims(code: seq<Instr>, x: nat) { exists k :: 0 <= k < |code| && x in Targets(code[k]) }

  lemma AimsInside(pre: seq<Instr>, part: seq<Instr>, post: seq<Instr>, x: nat)
    requires Aims(part, x)
    ensures Aims(pre + (part + post), x)
  {
    hide Targets;
    var k :| 0 <= k < |part| && x in Targets(part[k]);
    assert (pre + (part + post))[|pre| + k] == part[k];
  }

  lemma FinishAims(code: seq<Instr>, scope: nat, end: nat, x: nat)
    requires Aims(code, x)
    ensures Aims(Finish(code, scope, end), x)
  {
    var k :| 0 <= k < |code| && x in Targets(code[k]);
    assert Finish(code, scope, end)[k] == code[k];
  }

  lemma {:induction false} FarIsAimedAt(c: Ctx, st: CState, t: Tree, pos: nat, x: nat)
    requires GenTree(c, st, t, pos).Emit? && x in FarLoops(c, st, t, pos)
    ensures Aims(GenTree(c, st, t, pos).code, x)
    decreases Size(t), 0
  {
    hide CodeLength, Aims, GenOps, Finish;
    if t.Many? {
      var k := GenChain(c, Inside(st), t.kids, pos);
      FarInChainIsAimedAt(c, Inside(st), t.kids, pos, x);
      FinishAims(k.code, |st.scopes|, pos + CodeLength(k.code), x);
    } else if t.CrashPad? {
      FarInPad(c, st, t.body, t.pad, pos, x);
    } else if t.Branch? {
      FarInBranch(c, st, t.cond, t.yes, t.no, pos, x);
    } else if t.Loop? {
      FarInLoop(c, st, t.body, pos, x);
    } else if t.Var? {
      FarInVar(c, st, t.v, t.body, pos, x);
    } else {
      assert false;
    }
  }

  lemma {:induction false} FarInLoop(c: Ctx, st: CState, body: Tree, pos: nat, x: nat)
    requires GenTree(c, st, Loop(body), pos).Emit? && x in FarLoops(c, st, Loop(body), pos)
    ensures Aims(GenTree(c, st, Loop(body), pos).code, x)
    decreases Size(body), 1
  {
    hide CodeLength, Finish;
    var b := GenTree(c, Inside(st), body, pos);
    var code := LoopCode(b.code, b.reach, pos);
    if x in FarLoops(c, Inside(st), body, pos) {
      FarIsAimedAt(c, Inside(st), body, pos, x);
      AimsInside([], b.code, if b.reach then [IJump(pos % TWO16)] else [], x);
      assert [] + code == code;
    } else {
      assert x in Targets(code[|code| - 1]);
    }
    FinishAims(code, |st.scopes|, pos + CodeLength(code), x);
  }

  lemma {:induction false} FarInVar(c: Ctx, st: CState, v: nat, body: Tree, pos: nat, x: nat)
    requires GenTree(c, st, Var(v, body), pos).Emit? && x in FarLoops(c, st, Var(v, body), pos)
    ensures Aims(GenTree(c, st, Var(v, body), pos).code, x)
    decreases Size(body), 1
  {
    hide CodeLength, Aims, Finish;
    var size := VarSize(c, v);
    var b := GenTree(c, VarState(c, st, v), body, pos + Length(IStorageAdd(size)));
    FarIsAimedAt(c, VarState(c, st, v), body, pos + Length(IStorageAdd(size)), x);
    AimsInside([IStorageAdd(size)], b.code, if b.reach then [IStorageAdd(-(size as int))] else [], x);
    FinishAims(VarCode(size, b.code, b.reach), |st.scopes|, pos + CodeLength(VarCode(size, b.code, b.reach)), x);
  }

  lemma {:induction false} FarInPad(c: Ctx, st: CState, body: Tree, pad: Tree, pos: nat, x: nat)
    requires GenTree(c, st, CrashPad(body, pad), pos).Emit? && x in FarLoops(c, st, CrashPad(body, pad), pos)
    ensures Aims(GenTree(c, st, CrashPad(body, pad), pos).code, x)
    decreases Size(body) + Size(pad), 1
  {
    var inner := st.(crash := st.crash + 1);
    var b, q, jump, last := FarPadShape(c, st, body, pad, pos);
    hide CodeLength, Aims, FarLoops, GenTree;
    if x in FarLoops(c, inner, body, BodyPos(pos)) {
      FarIsAimedAt(c, inner, body, BodyPos(pos), x);
    } else {
      FarIsAimedAt(c, st, pad, PadPos(pos, b), x);
    }
    PadAims(IPushCrash(PadPos(pos, b)), b.code, jump, q.code, last, x);
  }

  lemma FarPadShape(c: Ctx, st: CState, body: Tree, pad: Tree, pos: nat) returns (b: Gen, q: Gen, jump: seq<Instr>, last: seq<Instr>)
    requires GenTree(c, st, CrashPad(body, pad), pos).Emit?
    ensures b == GenTree(c, st.(crash := st.crash + 1), body, BodyPos(pos)) && b.Emit?
    ensures q == GenTree(c, st, pad, PadPos(pos, b)) && q.Emit?
    ensures GenTree(c, st, CrashPad(body, pad), pos).code == [IPushCrash(PadPos(pos, b))] + (b.code + (jump + (q.code + last)))
    ensures FarLoops(c, st, CrashPad(body, pad), pos)
         == FarLoops(c, st.(crash := st.crash + 1), body, BodyPos(pos)) + FarLoops(c, st, pad, PadPos(pos, b))
  {
    hide CodeLength;
    b := GenTree(c, st.(crash := st.crash + 1), body, BodyPos(pos));
    q := GenTree(c, st, pad, PadPos(pos, b));
    var end := PadPos(pos, b) + CodeLength(q.code) + (if q.reach then Length(ICrash) else 0);
    jump, last := if b.reach then [IPopCrash, IJump(end)] else [], if q.reach then [ICrash] else [];
  }

  lemma PadAims(push: Instr, body: seq<Instr>, jump: seq<Instr>, pad: seq<Instr>, last: seq<Instr>, x: nat)
    requires Aims(body, x) || Aims(pad, x)
    ensures Aims([push] + (body + (jump + (pad + last))), x)
  {
    hide Aims;
    if Aims(body, x) {
      AimsInside([push], body, jump + (pad + last), x);
    } else {
      AimsInside([push] + (body + jump), pad, last, x);
      assert ([push] + (body + jump)) + (pad + last) == [push] + (body + (jump + (pad + last)));
    }
  }

  lemma {:induction false} FarInBranch(c: Ctx, st: CState, cond: seq<Op>, yes: Tree, no: Tree, pos: nat, x: nat)
    requires GenTree(c, st, Branch(cond, yes, no), pos).Emit? && x in FarLoops(c, st, Branch(cond, yes, no), pos)
    ensures Aims(GenTree(c, st, Branch(cond, yes, no), pos).code, x)
    decreases Size(yes) + Size(no), 1
  {
    var cc, y, n, test, jump := FarBranchShape(c, st, cond, yes, no, pos);
    hide CodeLength, Aims, FarLoops, GenTree, GenOps;
    if x in FarLoops(c, st, yes, YesPos(pos, cc)) {
      FarIsAimedAt(c, st, yes, YesPos(pos, cc), x);
    } else {
      FarIsAimedAt(c, st, no, NoPos(pos, cc, y), x);
    }
    BranchAims(cc, test, y.code, jump, n.code, x);
  }

  lemma BranchAims(cond: seq<Instr>, test: Instr, yes: seq<Instr>, jump: seq<Instr>, no: seq<Instr>, x: nat)
    requires Aims(yes, x) || Aims(no, x)
    ensures Aims(cond + ([test] + (yes + (jump + no))), x)
  {
    hide Aims;
    if Aims(yes, x) {
      AimsInside(cond + [test], yes, jump + no, x);
      assert (cond + [test]) + (yes + (jump + no)) == cond + ([test] + (yes + (jump + no)));
    } else {
      BehindAims(yes + jump, no, x);
      assert (yes + jump) + no == yes + (jump + no);
      BehindAims(cond + [test], yes + (jump + no), x);
      assert (cond + [test]) + (yes + (jump + no)) == cond + ([test] + (yes + (jump + no)));
    }
  }

  lemma BehindAims(pre: seq<Instr>, part: seq<Instr>, x: nat)
    requires Aims(part, x)
    ensures Aims(pre + part, x)
  {
    hide Aims;
    AimsInside(pre, part, [], x);
    assert part + [] == part;
  }

  lemma FarBranchShape(c: Ctx, st: CState, cond: seq<Op>, yes: Tree, no: Tree, pos: nat)
    returns (cc: seq<Instr>, y: Gen, n: Gen, test: Instr, jump: seq<Instr>)
    requires GenTree(c, st, Branch(cond, yes, no), pos).Emit?
    ensures y == GenTree(c, st, yes, YesPos(pos, cc)) && y.Emit?
    ensures n == GenTree(c, st, no, NoPos(pos, cc, y)) && n.Emit?
    ensures GenTree(c, st, Branch(cond, yes, no), pos).code == cc + ([test] + (y.code + (jump + n.code)))
    ensures FarLoops(c, st, Branch(cond, yes, no), pos) == FarLoops(c, st, yes, YesPos(pos, cc)) + FarLoops(c, st, no, NoPos(pos, cc, y))
  {
    hide CodeLength, GenOps;
    cc := GenOps(c, st.vars, st.frame, cond, []).code;
    y := GenTree(c, st, yes, YesPos(pos, cc));
    n := GenTree(c, st, no, NoPos(pos, cc, y));
    test := IBranchTop(YesPos(pos, cc), NoPos(pos, cc, y));
    jump := if y.reach then [IJump(NoPos(pos, cc, y) + CodeLength(n.code))] else [];
  }

  lemma {:induction false} FarInChainIsAimedAt(c: Ctx, st: CState, ch: Chain, pos: nat, x: nat)
    requires GenChain(c, st, ch, pos).Emit? && x in FarInChain(c, st, ch, pos)
    ensures Aims(GenChain(c, st, ch, pos).code, x)
    decreases ChainSize(ch), 0
  {
    hide CodeLength, Aims, GenTree;
    var a := GenTree(c, st, ch.cur, pos);
    if x in FarLoops(c, st, ch.cur, pos) {
      FarIsAimedAt(c, st, ch.cur, pos, x);
      if a.reach {
        var b := GenChain(c, st.(vars := a.vars), ch.rest, pos + CodeLength(a.code));
        AimsInside([], a.code, b.code, x);
        assert [] + (a.code + b.code) == a.code + b.code;
      }
    } else {
      var b := GenChain(c, st.(vars := a.vars), ch.rest, pos + CodeLength(a.code));
      FarInChainIsAimedAt(c, st.(vars := a.vars), ch.rest, pos + CodeLength(a.code), x);
      AimsInside(a.code, b.code, [], x);
      assert a.code + (b.code + []) == a.code + b.code;
    }
  }

  // ----- whole functions -----

  lemma FuncParts(c: Ctx, far: set<nat>)
    requires GenFunc(c).Some?
    requires FarLoops(c, Initial(c.f), c.f.body, 0) <= far || CodeLength(GenFunc(c).value) <= MAX_TARGET
    ensures LeadsInto(GenFunc(c).value, GenFunc(c).value, 0, far)
  {
    hide CodeLength, LeadsInto, Boundary;
    var g := GenTree(c, Initial(c.f), c.f.body, 0);
    var tail := (if |c.f.sig.ins| > 0 then [IDropN(|c.f.sig.ins|)] else []) + [IRet];
    assert GenFunc(c).value == g.code + tail;
    LengthConcat(g.code, tail);
    TreeLeads(c, Initial(c.f), c.f.body, 0, g, far);
    PlainLeads(tail, tail, CodeLength(g.code), far);
    Joined(g.code, tail, 0, far);
  }

  /** All of a function: no jump leads into the middle of an instruction, if and only if no
      jump back of a loop does whose head lies beyond the range of targets. */
  lemma FuncLeads(c: Ctx)
    requires GenFunc(c).Some?
    ensures var code := GenFunc(c).value;
      LeadsInto(code, code, 0, {}) <==> forall t :: t in FarLoops(c, Initial(c.f), c.f.body, 0) ==> Boundary(code, 0, t)
  {
    hide CodeLength, Boundary, Aims, FarLoops;
    var code, far := GenFunc(c).value, FarLoops(c, Initial(c.f), c.f.body, 0);
    FuncParts(c, far);
    forall t | t in far ensures Aims(code, t) {
      FarIsAimedAt(c, Initial(c.f), c.f.body, 0, t);
      var g := GenTree(c, Initial(c.f), c.f.body, 0);
      AimsInside([], g.code, (if |c.f.sig.ins| > 0 then [IDropN(|c.f.sig.ins|)] else []) + [IRet], t);
      assert [] + (g.code + ((if |c.f.sig.ins| > 0 then [IDropN(|c.f.sig.ins|)] else []) + [IRet])) == code;
    }
    LeadsAnyway(code, far);
  }

  lemma LeadsAnyway(code: seq<Instr>, far: set<nat>)
    requires LeadsInto(code, code, 0, far) && forall t :: t in far ==> Aims(code, t)
    ensures LeadsInto(code, code, 0, {}) <==> forall t :: t in far ==> Boundary(code, 0, t)
  {
    hide Boundary, Targets;
  }

  /** So none does in a function of at most 65535 bytes. */
  lemma ShortFuncLeads(c: Ctx)
    requires GenFunc(c).Some? && CodeLength(GenFunc(c).value) <= MAX_TARGET
    ensures LeadsInto(GenFunc(c).value, GenFunc(c).value, 0, {})
  {
    FuncParts(c, {});
  }

  /** The jump back of a loop is narrowed without a check. It leads to the head of the loop if
      and only if the head lies where a target can be written down; otherwise it leads a
      multiple of 65536 bytes before it. */
  lemma BackJumpLands(c: Ctx, st: CState, body: Tree, pos: nat)
    requires GenTree(c, Inside(st), body, pos).Emit? && GenTree(c, Inside(st), body, pos).reach && GenTree(c, st, Loop(body), pos).Emit?
    ensures var code := GenTree(c, st, Loop(body), pos).code;
      && |code| > 0 && (code[|code| - 1] == IJump(pos) <==> pos <= MAX_TARGET)
      && (pos > MAX_TARGET ==> code[|code| - 1].IJump? && code[|code| - 1].target < pos && (pos - code[|code| - 1].target) % TWO16 == 0)
  {
    var b := GenTree(c, Inside(st), body, pos);
    assert GenTree(c, st, Loop(body), pos) == CloseLoop(st, b, pos);
    hide GenTree, CloseLoop;
    ClosedBack(st, b, pos);
    NarrowedTarget(pos);
  }

  lemma NarrowedTarget(pos: nat)
    ensures pos % TWO16 == pos <==> pos <= MAX_TARGET
    ensures pos > MAX_TARGET ==> pos % TWO16 < pos && (pos - pos % TWO16) % TWO16 == 0
  {
    assert pos == (pos / TWO16) * TWO16 + pos % TWO16;
  }

  lemma ClosedBack(st: CState, b: Gen, pos: nat)
    requires b.Emit? && b.reach && CloseLoop(st, b, pos).Emit?
    ensures var code := CloseLoop(st, b, pos).code; |code| > 0 && code[|code| - 1] == IJump(pos % TWO16)
  {
    hide CodeLength;
    var loop := LoopCode(b.code, true, pos);
    assert loop[|loop| - 1] == IJump(pos % TWO16);
  }
}
