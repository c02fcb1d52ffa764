/** Where the compiler puts variables: at every block of a function that compiles, the live
    ones lie in the frame, apart from each other. */
module VarLayout {
  import opened Memory
  import opened Ir
  import opened Bytecode
  import opened Codegen
  import opened CodegenFacts

  predicate Sized(c: Ctx, v: nat) { v < |c.f.vars| && c.f.vars[v] < |c.f.types| }

  predicate InFrame(c: Ctx, st: CState, v: nat)
    requires v < |st.vars|
  {
    st.vars[v].live ==> Sized(c, v) && st.vars[v].base + VarSize(c, v) <= st.frame
  }

  predicate Apart(c: Ctx, vars: seq<Layout>, v: nat, w: nat)
    requires v < |vars| && w < |vars|
  {
    vars[v].live && vars[w].live && v != w && Sized(c, v) && Sized(c, w) ==>
      vars[v].base + VarSize(c, v) <= vars[w].base || vars[w].base + VarSize(c, w) <= vars[v].base
  }

  /** The frame is in range and holds the live variables one beside the other. */
  predicate LaidOut(c: Ctx, st: CState) {
    && st.frame <= MAX_FRAME
    && (forall v :: 0 <= v < |st.vars| ==> InFrame(c, st, v))
    && (forall v, w :: 0 <= v < |st.vars| && 0 <= w < |st.vars| ==> Apart(c, st.vars, v, w))
  }

  /** So it is in the state of the compiler at every block of t. */
  predicate LaidOutIn(c: Ctx, st: CState, t: Tree, pos: nat)
    decreases Size(t), 0
  {
    LaidOut(c, st) &&
    match t
    case Many(kids) => LaidOutAlong(c, Inside(st), kids, pos)
    case CrashPad(body, pad) =>
      var b := GenTree(c, st.(crash := st.crash + 1), body, BodyPos(pos));
      LaidOutIn(c, st.(crash := st.crash + 1), body, BodyPos(pos)) && (b.Emit? ==> LaidOutIn(c, st, pad, PadPos(pos, b)))
    case Branch(cond, yes, no) =>
      var cc := GenOps(c, st.vars, st.frame, cond, []);
      cc.OpEmit? ==>
        var y := GenTree(c, st, yes, YesPos(pos, cc.code));
        LaidOutIn(c, st, yes, YesPos(pos, cc.code)) && (y.Emit? ==> LaidOutIn(c, st, no, NoPos(pos, cc.code, y)))
    case Loop(body) => LaidOutIn(c, Inside(st), body, pos)
    case Var(v, body) =>
      Sized(c, v) && v < |st.vars| ==> LaidOutIn(c, VarState(c, st, v), body, pos + Length(IStorageAdd(VarSize(c, v))))
    case _ => true
  }

  predicate LaidOutAlong(c: Ctx, st: CState, ch: Chain, pos: nat)
    decreases ChainSize(ch), 0
  {
    ch.Link? ==>
      LaidOutIn(c, st, ch.cur, pos) &&
      var a := GenTree(c, st, ch.cur, pos);
      a.Emit? && a.reach ==> LaidOutAlong(c, st.(vars := a.vars), ch.rest, pos + CodeLength(a.code))
  }

  lemma KeptLaidOut(c: Ctx, st: CState, vars: seq<Layout>)
    requires LaidOut(c, st) && VarsKept(st.vars, vars)
    ensures LaidOut(c, st.(vars := vars))
  {
    forall v | 0 <= v < |vars| ensures InFrame(c, st.(vars := vars), v) { assert InFrame(c, st, v); }
    forall v, w | 0 <= v < |vars| && 0 <= w < |vars| ensures Apart(c, vars, v, w) { assert Apart(c, st.vars, v, w); }
  }

  /** A new variable is put on top of the frame. */
  lemma VarLaidOut(c: Ctx, st: CState, v: nat)
    requires LaidOut(c, st) && Sized(c, v) && v < |st.vars| && st.frame + VarSize(c, v) <= MAX_FRAME
    ensures LaidOut(c, VarState(c, st, v))
  {
    var inner := VarState(c, st, v);
    forall w | 0 <= w < |inner.vars| ensures InFrame(c, inner, w) { assert InFrame(c, st, w); }
    forall w, x | 0 <= w < |inner.vars| && 0 <= x < |inner.vars| ensures Apart(c, inner.vars, w, x) {
      assert Apart(c, st.vars, w, x) && InFrame(c, st, w) && InFrame(c, st, x);
    }
  }

  lemma InsideLaidOut(c: Ctx, st: CState, inner: CState)
    requires LaidOut(c, st) && inner.vars == st.vars && inner.frame == st.frame
    ensures LaidOut(c, inner)
  {
    forall v | 0 <= v < |inner.vars| ensures InFrame(c, inner, v) { assert InFrame(c, st, v); }
  }

  /** What compiles is laid out at every block. */
  lemma {:induction false} TreeLaidOut(c: Ctx, st: CState, t: Tree, pos: nat)
    requires CtxFits(c) && StateOk(st) && TreeFits(t) && LaidOut(c, st) && GenTree(c, st, t, pos).Emit?
    ensures LaidOutIn(c, st, t, pos)
    decreases Size(t), 0
  {
    hide LaidOut, CtxFits, StateOk, Close, CodeLength, GenOps, CodeOk, BranchCode, PadCode;
    if t.Many? {
      InsideLaidOut(c, st, Inside(st));
      InsideOk(st, Inside(st));
      ChainLaidOut(c, Inside(st), t.kids, pos);
    } else if t.Loop? {
      InsideLaidOut(c, st, Inside(st));
      InsideOk(st, Inside(st));
      TreeLaidOut(c, Inside(st), t.body, pos);
    } else if t.CrashPad? {
      var deeper := st.(crash := st.crash + 1);
      InsideLaidOut(c, st, deeper);
      InsideOk(st, deeper);
      TreeLaidOut(c, deeper, t.body, BodyPos(pos));
      TreeLaidOut(c, st, t.pad, PadPos(pos, GenTree(c, deeper, t.body, BodyPos(pos))));
    } else if t.Branch? {
      var cc := GenOps(c, st.vars, st.frame, t.cond, []);
      TreeLaidOut(c, st, t.yes, YesPos(pos, cc.code));
      TreeLaidOut(c, st, t.no, NoPos(pos, cc.code, GenTree(c, st, t.yes, YesPos(pos, cc.code))));
    } else if t.Var? {
      VarLaidOut(c, st, t.v);
      VarStateOk(c, st, t.v);
      TreeLaidOut(c, VarState(c, st, t.v), t.body, pos + Length(IStorageAdd(VarSize(c, t.v))));
    }
  }

  lemma InsideOk(st: CState, inner: CState)
    requires StateOk(st) && (inner == Inside(st) || inner == st.(crash := st.crash + 1))
    ensures StateOk(inner)
  {
  }

  lemma VarStateOk(c: Ctx, st: CState, v: nat)
    requires StateOk(st) && Sized(c, v) && v < |st.vars| && st.frame + VarSize(c, v) <= MAX_FRAME
    ensures StateOk(VarState(c, st, v))
  {
  }

  lemma {:induction false} ChainLaidOut(c: Ctx, st: CState, ch: Chain, pos: nat)
    requires CtxFits(c) && StateOk(st) && ChainFits(ch) && LaidOut(c, st) && GenChain(c, st, ch, pos).Emit?
    ensures LaidOutAlong(c, st, ch, pos)
    decreases ChainSize(ch), 0
  {
    hide LaidOut, CtxFits, StateOk, CodeLength, CodeOk;
    if ch.Link? {
      var a := GenTree(c, st, ch.cur, pos);
      TreeLaidOut(c, st, ch.cur, pos);
      if a.reach {
        TreeCodeOk(c, st, ch.cur, pos, a);
        KeptLaidOut(c, st, a.vars);
        KeptOk(st, a.vars);
        ChainLaidOut(c, st.(vars := a.vars), ch.rest, pos + CodeLength(a.code));
      }
    }
  }

  lemma KeptOk(st: CState, vars: seq<Layout>)
    requires StateOk(st) && VarsKept(st.vars, vars)
    ensures StateOk(st.(vars := vars))
  {
  }

  /** A whole function starts with an empty frame and no live variables. */
  lemma FuncLaidOut(c: Ctx)
    requires CtxFits(c) && TreeFits(c.f.body) && GenFunc(c).Some?
    ensures LaidOutIn(c, Initial(c.f), c.f.body, 0)
  {
    TreeLaidOut(c, Initial(c.f), c.f.body, 0);
  }
}
