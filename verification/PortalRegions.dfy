/** The first pass over the blocks of a function, and what it makes sure of: a portal is led only to
    what is on the storage for as long as the portal is. */
module PortalRegions {
  import opened Memory
  import opened Ir
  import opened InternTable
  import opened Places
  import opened TypeScan
  import B = Borrow
  import G = HoldGraph

  /** What the pass knows besides the function: the types of references and how deep each variable
      is nested. */
  datatype Look = Look(s: Scope, funcs: seq<Func>, portals: set<nat>)

  // ----- the pass, on values -----

  /** The hold of an operation on the two places on top of the stack. */
  function Noting(k: Look, depths: seq<nat>, ps: seq<Place>, g: B.Graph, op: Op): Option<B.Graph> {
    if |ps| < 2 then Some(g) else
    var dst, src := ps[|ps| - 2], ps[|ps| - 1];
    match G.Recorded(k.s, k.portals, depths, op, dst, src)
    case Rejected => None
    case Passed => Some(g)
    case MadeHold(justConst) => Some(G.Noted(g, dst, B.Edge(src, justConst)))
  }

  /** One operation: checked, its hold recorded, carried out on the stack. */
  function OpPass(k: Look, depths: seq<nat>, ps: seq<Place>, g: B.Graph, op: Op): Option<(seq<Place>, B.Graph)> {
    if !CheckOp(k.s, k.funcs, Types(k.s, ps), op) then None else
    match Noting(k, depths, ps, g, op)
    case None => None
    case Some(g1) =>
      match Effect(k.s, k.funcs, ps, op)
      case None => None
      case Some(ps1) => Some((ps1, g1))
  }

  function OpsPass(k: Look, depths: seq<nat>, ps: seq<Place>, g: B.Graph, ops: seq<Op>): Option<(seq<Place>, B.Graph)>
    decreases |ops|
  {
    if |ops| == 0 then Some((ps, g)) else
    match OpPass(k, depths, ps, g, ops[0])
    case None => None
    case Some(next) => OpsPass(k, depths, next.0, next.1, ops[1..])
  }

  /** `scan_block`: every block starts on an empty stack. */
  function TreePass(k: Look, depths: seq<nat>, level: nat, t: Tree, g: B.Graph): Option<B.Graph>
    decreases Size(t)
  {
    match t
    case Basic(ops) =>
      (match OpsPass(k, depths, [], g, ops)
       case None => None
       case Some(end) => Some(end.1))
    case Many(kids) => ChainPass(k, depths, level, kids, g)
    case Defer(next, cleanup) =>
      (match TreePass(k, depths, level, next, g)
       case None => None
       case Some(g1) => TreePass(k, depths, level, cleanup, g1))
    case CrashPad(body, pad) =>
      (match TreePass(k, depths, level, body, g)
       case None => None
       case Some(g1) => TreePass(k, depths, level, pad, g1))
    case Branch(cond, yes, no) =>
      (match OpsPass(k, depths, [], g, cond)
       case None => None
       case Some(end) =>
         if |end.0| != 1 || !IsInt(k.s, TypeAt(k.s, end.0[0])) then None else
         match TreePass(k, depths, level, yes, end.1)
         case None => None
         case Some(g1) => TreePass(k, depths, level, no, g1))
    case Loop(body) => TreePass(k, depths, level, body, g)
    case Var(v, body) =>
      if v >= |k.s.f.vars| || v >= |depths| then None
      else TreePass(k, depths[v := level + 1], level + 1, body, g)
    case SoftCrash => Some(g)
    case HardCrash => Some(g)
    case Break(_) => Some(g)
    case Stray => None
    case Missing => None
  }

  function ChainPass(k: Look, depths: seq<nat>, level: nat, ch: Chain, g: B.Graph): Option<B.Graph>
    decreases ChainSize(ch)
  {
    match ch
    case Link(cur, rest) =>
      (match TreePass(k, depths, level, cur, g)
       case None => None
       case Some(g1) => ChainPass(k, depths, level, rest, g1))
    case End => Some(g)
    case BadLink => None
  }

  /** A whole function, with nothing recorded before. */
  function FuncPass(k: Look, g: B.Graph): Option<B.Graph> {
    TreePass(k, seq(|k.s.f.vars|, _ => 0), 0, k.s.f.body, g)
  }

  // ----- nesting -----

  /** The innermost VAR of v among the VARs w around a block, outermost first; 0 when v is not live. */
  function Innermost(w: seq<nat>, v: nat): (n: nat)
    ensures n <= |w| && (n > 0 ==> w[n - 1] == v) && (n > 0 <==> v in w)
    ensures forall j :: n <= j < |w| ==> w[j] != v
  {
    if |w| == 0 then 0 else if w[|w| - 1] == v then |w| else Innermost(w[..|w| - 1], v)
  }

  /** The VAR of u encloses that of v, or is the same. */
  predicate Encloses(w: seq<nat>, u: nat, v: nat) { 0 < Innermost(w, u) <= Innermost(w, v) }

  predicate Nested(k: Look, depths: seq<nat>, w: seq<nat>) {
    |depths| == |k.s.f.vars| && forall v :: 0 <= v < |depths| ==> depths[v] == Innermost(w, v)
  }

  lemma InnermostSnoc(w: seq<nat>, v: nat, u: nat)
    ensures Innermost(w + [v], u) == if u == v then |w| + 1 else Innermost(w, u)
  {
    assert (w + [v])[..|w|] == w;
  }

  lemma NestedIn(k: Look, depths: seq<nat>, w: seq<nat>, v: nat)
    requires Nested(k, depths, w) && v < |depths|
    ensures Nested(k, depths[v := |w| + 1], w + [v])
  {
    hide Innermost;
    forall u | 0 <= u < |depths| ensures depths[v := |w| + 1][u] == Innermost(w + [v], u) { InnermostSnoc(w, v, u); }
  }

  /** The variable that a place is part of. */
  predicate LocalRoot(p: Place, v: nat) { RootOf(p) == Root(PAR_LOCAL, v) }

  ghost predicate IsLocal(p: Place) { exists v: nat :: LocalRoot(p, v) }

  /** A portal may hold the backing under the VARs w: it is part of a local variable, and the
      backing is no part of one, or its VAR encloses that of the portal. */
  ghost predicate Outlives(w: seq<nat>, portal: Place, backing: Place) {
    exists v: nat :: LocalRoot(portal, v) && v in w && forall u: nat :: LocalRoot(backing, u) ==> Encloses(w, u, v)
  }

  /** All local variables on the stack are live. */
  ghost predicate AllLive(k: Look, w: seq<nat>, ps: seq<Place>) {
    forall i, v: nat :: 0 <= i < |ps| && LocalRoot(ps[i], v) ==> v in w && v < |k.s.f.vars|
  }

  /** The variable that p is part of is live. */
  ghost predicate RootLives(k: Look, w: seq<nat>, p: Place) { forall v: nat :: LocalRoot(p, v) ==> v in w && v < |k.s.f.vars| }

  predicate OpScoped(w: seq<nat>, op: Op) { op.PushVar? ==> op.v in w }

  predicate OpsScoped(w: seq<nat>, ops: seq<Op>) { forall i :: 0 <= i < |ops| ==> OpScoped(w, ops[i]) }

  /** Every push of a variable is under a VAR of it, as the IR demands. */
  predicate Scoped(t: Tree, w: seq<nat>)
    decreases Size(t)
  {
    match t
    case Basic(ops) => OpsScoped(w, ops)
    case Defer(next, cleanup) => Scoped(next, w) && Scoped(cleanup, w)
    case Many(kids) => ChainScoped(kids, w)
    case CrashPad(body, pad) => Scoped(body, w) && Scoped(pad, w)
    case Branch(cond, yes, no) => OpsScoped(w, cond) && Scoped(yes, w) && Scoped(no, w)
    case Loop(body) => Scoped(body, w)
    case Var(v, body) => Scoped(body, w + [v])
    case _ => true
  }

  predicate ChainScoped(ch: Chain, w: seq<nat>)
    decreases ChainSize(ch)
  {
    match ch
    case Link(cur, rest) => Scoped(cur, w) && ChainScoped(rest, w)
    case _ => true
  }

  // ----- one operation -----

  lemma DepthIs(k: Look, depths: seq<nat>, w: seq<nat>, p: Place)
    requires Nested(k, depths, w)
    ensures forall v: nat :: LocalRoot(p, v) && v < |k.s.f.vars| ==> G.DepthOf(k.s, depths, p) == Innermost(w, v)
    ensures !IsLocal(p) ==> G.DepthOf(k.s, depths, p) == 0
  {
    hide Innermost;
    G.RootIsRoot(p);
    var r := RootOf(p);
    if r.kind.PAR_LOCAL? { assert LocalRoot(p, r.idx); }
  }

  lemma OutlivesIs(w: seq<nat>, portal: Place, backing: Place)
    ensures RootOf(portal).Root? && RootOf(backing).Root?
    ensures var p, b := RootOf(portal), RootOf(backing);
      Outlives(w, portal, backing) <==> p.kind.PAR_LOCAL? && p.idx in w && (b.kind.PAR_LOCAL? ==> Encloses(w, b.idx, p.idx))
  {
    hide Encloses;
    G.RootIsRoot(portal);
    G.RootIsRoot(backing);
    var p, b := RootOf(portal), RootOf(backing);
    if Outlives(w, portal, backing) {
      var v: nat :| LocalRoot(portal, v) && v in w && forall u: nat :: LocalRoot(backing, u) ==> Encloses(w, u, v);
      if b.kind.PAR_LOCAL? { assert LocalRoot(backing, b.idx); }
    }
    if p.kind.PAR_LOCAL? && p.idx in w && (b.kind.PAR_LOCAL? ==> Encloses(w, b.idx, p.idx)) {
      assert LocalRoot(portal, p.idx);
      assert forall u: nat :: LocalRoot(backing, u) ==> u == b.idx;
    }
  }

  /** A region check under the VARs w, for variables that are live there: it passes if and only
      if the portal may be led anywhere and outlives nothing it is led to. */
  lemma RegionIsNesting(k: Look, depths: seq<nat>, w: seq<nat>, portal: Place, backing: Place)
    requires Nested(k, depths, w)
    requires RootLives(k, w, portal) && RootLives(k, w, backing)
    ensures G.RegionOk(k.s, k.portals, depths, portal, backing) <==> G.IsPortal(k.s, k.portals, portal) && Outlives(w, portal, backing)
  {
    hide Innermost, G.DepthOf, Outlives, G.IsPortal;
    DepthIs(k, depths, w, portal);
    DepthIs(k, depths, w, backing);
    OutlivesIs(w, portal, backing);
    var p, b := RootOf(portal), RootOf(backing);
    if p.kind.PAR_LOCAL? { assert LocalRoot(portal, p.idx); }
    if b.kind.PAR_LOCAL? {
      assert LocalRoot(backing, b.idx);
    } else {
      assert !IsLocal(backing);
    }
  }

  /** An operation that would make the portal at `dst` hold `src`. */
  predicate Leads(k: Look, op: Op, dst: Place, src: Place) {
    op.SliceFromAr? || op.SliceFromOne? || (op.Assign? && G.IsPortal(k.s, k.portals, dst) && G.IsPortal(k.s, k.portals, src))
  }

  lemma RecordedIs(k: Look, depths: seq<nat>, op: Op, dst: Place, src: Place)
    ensures var r := G.Recorded(k.s, k.portals, depths, op, dst, src);
      && (r.MadeHold? ==> Leads(k, op, dst, src) && G.RegionOk(k.s, k.portals, depths, dst, src))
      && (Leads(k, op, dst, src) && !G.RegionOk(k.s, k.portals, depths, dst, src) ==> r.Rejected?)
      && (r.MadeHold? ==> (r.justConst <==> op.SliceFromAr? && k.s.f.types[TypeAt(k.s, dst)].kind.KView?))
  {
    hide G.IsPortal, G.DepthOf;
  }

  lemma EffectLives(k: Look, w: seq<nat>, ps: seq<Place>, op: Op)
    requires AllLive(k, w, ps) && OpScoped(w, op) && (op.PushVar? ==> op.v < |k.s.f.vars|) && Effect(k.s, k.funcs, ps, op).Some?
    ensures AllLive(k, w, Effect(k.s, k.funcs, ps, op).value)
  {
    hide TypeAt, AllLive;
    var ps1, n := Effect(k.s, k.funcs, ps, op).value, |ps|;
    if op.PushVar? || op.PushArg? || op.PushGlobal? {
      FrontLives(k, w, ps, n);
      assert ps[..n] == ps;
      OneLives(k, w, ps, ps1[n]);
    } else if op.ArrAt? || op.SliceAt? {
      FrontLives(k, w, ps, n - 2);
      PartLives(k, w, ps, n - 2, ps1[n - 2]);
      OneLives(k, w, ps[..n - 2], ps1[n - 2]);
    } else if op.StructAt? {
      FrontLives(k, w, ps, n - 1);
      PartLives(k, w, ps, n - 1, ps1[n - 1]);
      OneLives(k, w, ps[..n - 1], ps1[n - 1]);
    } else {
      FrontLives(k, w, ps, |ps1|);
      assert ps1 == ps[..|ps1|];
    }
  }

  lemma LiveAt(k: Look, w: seq<nat>, ps: seq<Place>, i: nat)
    requires AllLive(k, w, ps) && i < |ps|
    ensures RootLives(k, w, ps[i])
  {
    hide LocalRoot;
  }

  lemma FrontLives(k: Look, w: seq<nat>, ps: seq<Place>, n: nat)
    requires AllLive(k, w, ps) && n <= |ps|
    ensures AllLive(k, w, ps[..n])
  {
    hide LocalRoot;
  }

  lemma OneLives(k: Look, w: seq<nat>, ps: seq<Place>, p: Place)
    requires AllLive(k, w, ps) && RootLives(k, w, p)
    ensures AllLive(k, w, ps + [p])
  {
    hide LocalRoot;
  }

  lemma PartLives(k: Look, w: seq<nat>, ps: seq<Place>, i: nat, p: Place)
    requires AllLive(k, w, ps) && i < |ps| && !p.Root? && p.of == ps[i]
    ensures RootLives(k, w, p)
  {
    assert RootOf(p) == RootOf(ps[i]);
    forall v: nat | LocalRoot(p, v) ensures v in w && v < |k.s.f.vars| { assert LocalRoot(ps[i], v); }
  }

  /** Edge e of p is one that a hold under the VARs w may be. */
  ghost predicate Fit(k: Look, w: seq<nat>, p: Place, e: B.Edge) { G.IsPortal(k.s, k.portals, p) && Outlives(w, p, e.to) }

  /** An operation that passes under the VARs w adds only such a hold, and leaves what is live. */
  lemma OpAdds(k: Look, depths: seq<nat>, w: seq<nat>, ps: seq<Place>, g: B.Graph, op: Op)
    requires Nested(k, depths, w) && AllLive(k, w, ps) && OpScoped(w, op) && OpPass(k, depths, ps, g, op).Some?
    ensures var (ps1, g1) := OpPass(k, depths, ps, g, op).value;
      && AllLive(k, w, ps1)
      && forall p, e :: e in B.EdgesAt(g1, p) ==> e in B.EdgesAt(g, p) || Fit(k, w, p, e)
  {
    hide Outlives, G.RegionOk, G.Recorded, TypeAt, Effect;
    EffectLives(k, w, ps, op);
    if |ps| >= 2 {
      var dst, src := ps[|ps| - 2], ps[|ps| - 1];
      RecordedIs(k, depths, op, dst, src);
      LiveAt(k, w, ps, |ps| - 2);
      LiveAt(k, w, ps, |ps| - 1);
      RegionIsNesting(k, depths, w, dst, src);
    }
  }

  /** What would lead a portal to something declared inside its VAR is refused. */
  lemma InnerBackingIsRefused(k: Look, depths: seq<nat>, w: seq<nat>, ps: seq<Place>, g: B.Graph, op: Op, v: nat, u: nat)
    requires Nested(k, depths, w) && AllLive(k, w, ps) && |ps| >= 2 && Leads(k, op, ps[|ps| - 2], ps[|ps| - 1])
    requires LocalRoot(ps[|ps| - 2], v) && LocalRoot(ps[|ps| - 1], u) && Innermost(w, v) < Innermost(w, u)
    ensures OpPass(k, depths, ps, g, op).None?
  {
    hide Outlives, G.RegionOk, G.Recorded, TypeAt, Effect, CheckOp;
    var dst, src := ps[|ps| - 2], ps[|ps| - 1];
    RecordedIs(k, depths, op, dst, src);
    LiveAt(k, w, ps, |ps| - 2);
    LiveAt(k, w, ps, |ps| - 1);
    RegionIsNesting(k, depths, w, dst, src);
    OutlivesIs(w, dst, src);
  }

  // ----- all blocks -----

  lemma {:induction false} OpsAdd(k: Look, depths: seq<nat>, w: seq<nat>, ps: seq<Place>, g: B.Graph, ops: seq<Op>)
    requires Nested(k, depths, w) && AllLive(k, w, ps) && OpsScoped(w, ops) && OpsPass(k, depths, ps, g, ops).Some?
    ensures var g1 := OpsPass(k, depths, ps, g, ops).value.1;
      forall p, e :: e in B.EdgesAt(g1, p) ==> e in B.EdgesAt(g, p) || Fit(k, w, p, e)
    decreases |ops|
  {
    hide Fit, OpPass, Nested, AllLive, OpScoped;
    if |ops| > 0 {
      OpAdds(k, depths, w, ps, g, ops[0]);
      var next := OpPass(k, depths, ps, g, ops[0]).value;
      OpsAdd(k, depths, w, next.0, next.1, ops[1..]);
    }
  }

  /** Some block of t with operations stands under the VARs w1, when t itself stands under w. */
  predicate Stands(t: Tree, w: seq<nat>, w1: seq<nat>)
    decreases Size(t)
  {
    match t
    case Basic(_) => w1 == w
    case Defer(next, cleanup) => Stands(next, w, w1) || Stands(cleanup, w, w1)
    case Many(kids) => ChainStands(kids, w, w1)
    case CrashPad(body, pad) => Stands(body, w, w1) || Stands(pad, w, w1)
    case Branch(_, yes, no) => w1 == w || Stands(yes, w, w1) || Stands(no, w, w1)
    case Loop(body) => Stands(body, w, w1)
    case Var(v, body) => Stands(body, w + [v], w1)
    case _ => false
  }

  predicate ChainStands(ch: Chain, w: seq<nat>, w1: seq<nat>)
    decreases ChainSize(ch)
  {
    ch.Link? && (Stands(ch.cur, w, w1) || ChainStands(ch.rest, w, w1))
  }

  /** Every edge of g1 is one of g, or fits under the VARs of some block of t. */
  ghost predicate Adds(k: Look, t: Tree, w: seq<nat>, g: B.Graph, g1: B.Graph) {
    forall p, e :: e in B.EdgesAt(g1, p) ==> e in B.EdgesAt(g, p) || exists w1 :: Stands(t, w, w1) && Fit(k, w1, p, e)
  }

  ghost predicate ChainAdds(k: Look, ch: Chain, w: seq<nat>, g: B.Graph, g1: B.Graph) {
    forall p, e :: e in B.EdgesAt(g1, p) ==> e in B.EdgesAt(g, p) || exists w1 :: ChainStands(ch, w, w1) && Fit(k, w1, p, e)
  }

  lemma {:induction false} TreeAdds(k: Look, depths: seq<nat>, w: seq<nat>, t: Tree, g: B.Graph)
    requires Nested(k, depths, w) && Scoped(t, w) && TreePass(k, depths, |w|, t, g).Some?
    ensures Adds(k, t, w, g, TreePass(k, depths, |w|, t, g).value)
    decreases Size(t)
  {
    hide Fit, Nested, OpsPass, OpsScoped, B.EdgesAt, IsInt, TypeAt;
    assert AllLive(k, w, []);
    match t
    case Basic(ops) => OpsAdd(k, depths, w, [], g, ops);
    case Many(kids) => ChainAddsAll(k, depths, w, kids, g);
    case Defer(next, cleanup) =>
      TreeAdds(k, depths, w, next, g);
      TreeAdds(k, depths, w, cleanup, TreePass(k, depths, |w|, next, g).value);
    case CrashPad(body, pad) =>
      TreeAdds(k, depths, w, body, g);
      TreeAdds(k, depths, w, pad, TreePass(k, depths, |w|, body, g).value);
    case Branch(cond, yes, no) =>
      OpsAdd(k, depths, w, [], g, cond);
      var g1 := OpsPass(k, depths, [], g, cond).value.1;
      TreeAdds(k, depths, w, yes, g1);
      TreeAdds(k, depths, w, no, TreePass(k, depths, |w|, yes, g1).value);
    case Loop(body) => TreeAdds(k, depths, w, body, g);
    case Var(v, body) =>
      NestedIn(k, depths, w, v);
      TreeAdds(k, depths[v := |w| + 1], w + [v], body, g);
    case _ =>
  }

  lemma {:induction false} ChainAddsAll(k: Look, depths: seq<nat>, w: seq<nat>, ch: Chain, g: B.Graph)
    requires Nested(k, depths, w) && ChainScoped(ch, w) && ChainPass(k, depths, |w|, ch, g).Some?
    ensures ChainAdds(k, ch, w, g, ChainPass(k, depths, |w|, ch, g).value)
    decreases ChainSize(ch)
  {
    hide Fit, Nested, TreePass, B.EdgesAt;
    if ch.Link? {
      TreeAdds(k, depths, w, ch.cur, g);
      ChainAddsAll(k, depths, w, ch.rest, TreePass(k, depths, |w|, ch.cur, g).value);
    }
  }

  /** In a function that passes, every hold is that of a local portal, made in a block whose VARs
      are such that what it holds is no local variable or one whose VAR encloses the portal's. */
  lemma HoldsOutlive(k: Look, g1: B.Graph, p: Place, e: B.Edge)
    requires Scoped(k.s.f.body, []) && FuncPass(k, map[]) == Some(g1) && e in B.EdgesAt(g1, p)
    ensures exists w :: Stands(k.s.f.body, [], w) && Fit(k, w, p, e)
  {
    var depths := seq(|k.s.f.vars|, _ => 0);
    assert Nested(k, depths, []);
    TreeAdds(k, depths, [], k.s.f.body, map[]);
  }

  // ----- what is checked and what is not -----

  /** Operations that write a portal to `dst`. */
  predicate WritesPortal(k: Look, op: Op, dst: Place, src: Place) {
    Leads(k, op, dst, src) || (op.ArrPush? && G.IsPortal(k.s, k.portals, src))
  }

  /** Of the operations that write a portal, all are held to the nesting but the push of a portal
      to an array of portals, which passes wherever its types are right. */
  lemma PushesAreNotChecked(k: Look, depths: seq<nat>, w: seq<nat>, ps: seq<Place>, g: B.Graph, op: Op)
    requires Nested(k, depths, w) && AllLive(k, w, ps) && |ps| >= 2 && WritesPortal(k, op, ps[|ps| - 2], ps[|ps| - 1])
    ensures OpPass(k, depths, ps, g, op).Some? && !Outlives(w, ps[|ps| - 2], ps[|ps| - 1]) ==> op.ArrPush?
    ensures op.ArrPush? ==> (OpPass(k, depths, ps, g, op).Some? <==> CheckOp(k.s, k.funcs, Types(k.s, ps), op))
  {
    hide Outlives, G.RegionOk, TypeAt, CheckOp, G.IsPortal, AllLive;
    var dst, src := ps[|ps| - 2], ps[|ps| - 1];
    if !op.ArrPush? {
      RecordedIs(k, depths, op, dst, src);
      LiveAt(k, w, ps, |ps| - 2);
      LiveAt(k, w, ps, |ps| - 1);
      RegionIsNesting(k, depths, w, dst, src);
    }
  }

  /** An array of slices, and inside it an int and a slice, which is led to the int and then pushed
      to the array. */
  function PushingOps(): seq<Op> { [PushVar(2), PushVar(1), SliceFromOne, PushVar(0), PushVar(2), ArrPush] }

  function PushingLook(): Look {
    var types := [Type(KInt, 8, 8), Type(KByte, 1, 8), Type(KSlice(0), 12, 16), Type(KArray(2, 4, 8), 56, 56)];
    Look(Scope(Func(Sig([], []), types, [3, 0, 2], Var(0, Var(1, Var(2, Basic(PushingOps()))))), []), [], {2, 3})
  }

  /** The pass accepts it: the array comes to hold a slice of an int whose VAR is inside its own. */
  lemma PushEscapes()
    ensures var k := PushingLook();
      && Scoped(k.s.f.body, []) && TypeAt(k.s, Root(PAR_LOCAL, 0)) == 3 && TypeAt(k.s, Root(PAR_LOCAL, 2)) == 2
      && FuncPass(k, map[]) == Some(map[Root(PAR_LOCAL, 2) := [B.Edge(Root(PAR_LOCAL, 1), false)]])
      && !Outlives([0, 1, 2], Root(PAR_LOCAL, 0), Root(PAR_LOCAL, 1))
  {
    hide OpsPass, FuncPass, Outlives, Scoped;
    var k := PushingLook();
    PushingScoped();
    PushingPasses(k, Root(PAR_LOCAL, 0), Root(PAR_LOCAL, 1), Root(PAR_LOCAL, 2));
    PushingTree(k);
    InnerDoesNotOutlive(Root(PAR_LOCAL, 0), Root(PAR_LOCAL, 1));
  }

  lemma InnerDoesNotOutlive(a: Place, i: Place)
    requires a == Root(PAR_LOCAL, 0) && i == Root(PAR_LOCAL, 1)
    ensures !Outlives([0, 1, 2], a, i)
  {
    hide Outlives, Innermost;
    OutlivesIs([0, 1, 2], a, i);
    OneOfThree(0, 1, 2);
  }

  lemma OneOfThree(a: nat, b: nat, c: nat)
    requires a != b && b != c && a != c
    ensures Innermost([a, b, c], a) == 1 && Innermost([a, b, c], b) == 2
  {
    hide Innermost;
    InnermostSnoc([], a, a);
    InnermostSnoc([a], b, a);
    InnermostSnoc([a], b, b);
    InnermostSnoc([a, b], c, a);
    InnermostSnoc([a, b], c, b);
    assert [] + [a] == [a] && [a] + [b] == [a, b] && [a, b] + [c] == [a, b, c];
  }

  /** Three VARs deep. */
  lemma PushingTree(k: Look)
    requires k == PushingLook()
    ensures FuncPass(k, map[]) == match OpsPass(k, [1, 2, 3], [], map[], PushingOps())
      case None => None
      case Some(end) => Some(end.1)
  {
    hide OpsPass, PushingOps;
    var zero, block := seq(|k.s.f.vars|, _ => 0), Basic(PushingOps());
    assert zero == [0, 0, 0] && zero[0 := 1] == [1, 0, 0] && [1, 0, 0][1 := 2] == [1, 2, 0] && [1, 2, 0][2 := 3] == [1, 2, 3];
    var inner := TreePass(k, [1, 2, 3], 3, block, map[]);
    assert TreePass(k, [1, 2, 0], 2, Var(2, block), map[]) == inner;
    assert TreePass(k, [1, 0, 0], 1, Var(1, Var(2, block)), map[]) == inner;
    assert TreePass(k, zero, 0, Var(0, Var(1, Var(2, block))), map[]) == inner;
  }

  lemma PushingScoped()
    ensures Scoped(PushingLook().s.f.body, [])
  {
    var w := [0, 1, 2];
    assert [] + [0] == [0] && [0] + [1] == [0, 1] && [0, 1] + [2] == w;
    assert 0 in w && 1 in w && 2 in w by { assert w[0] == 0 && w[1] == 1 && w[2] == 2; }
    assert OpsScoped(w, PushingOps());
  }

  lemma PushingPasses(k: Look, a: Place, i: Place, x: Place)
    requires k == PushingLook() && a == Root(PAR_LOCAL, 0) && i == Root(PAR_LOCAL, 1) && x == Root(PAR_LOCAL, 2)
    ensures OpsPass(k, [1, 2, 3], [], map[], PushingOps()) == Some(([x, a], map[x := [B.Edge(i, false)]]))
  {
    hide OpPass, OpsPass;
    var ops, ds, g := PushingOps(), [1, 2, 3], map[x := [B.Edge(i, false)]];
    Pushed(k, ds, [], map[], 2);
    Pushed(k, ds, [x], map[], 1);
    LedToInt(k, a, i, x);
    Pushed(k, ds, [x], g, 0);
    Pushed(k, ds, [x, a], g, 2);
    PushPasses(k, ds, a, x, g);
    assert [] + [x] == [x] && [x] + [i] == [x, i] && [x] + [a] == [x, a] && [x, a] + [x] == [x, a, x];
    var o1, o2, o3, o4, o5 := ops[1..], ops[2..], ops[3..], ops[4..], ops[5..];
    assert o1[1..] == o2 && o2[1..] == o3 && o3[1..] == o4 && o4[1..] == o5 && o5[1..] == [];
    AnyPass(k, ds, [x, a], g, []);
    AnyPass(k, ds, [x, a, x], g, o5);
    AnyPass(k, ds, [x, a], g, o4);
    AnyPass(k, ds, [x], g, o3);
    AnyPass(k, ds, [x, i], map[], o2);
    AnyPass(k, ds, [x], map[], o1);
    AnyPass(k, ds, [], map[], ops);
  }

  lemma AnyPass(k: Look, depths: seq<nat>, ps: seq<Place>, g: B.Graph, ops: seq<Op>)
    ensures |ops| == 0 ==> OpsPass(k, depths, ps, g, ops) == Some((ps, g))
    ensures |ops| > 0 && OpPass(k, depths, ps, g, ops[0]).Some? ==>
      var next := OpPass(k, depths, ps, g, ops[0]).value; OpsPass(k, depths, ps, g, ops) == OpsPass(k, depths, next.0, next.1, ops[1..])
  {
    hide OpPass;
  }

  lemma Pushed(k: Look, depths: seq<nat>, ps: seq<Place>, g: B.Graph, v: nat)
    requires v < |k.s.f.vars| && k.s.f.vars[v] < |k.s.f.types|
    ensures OpPass(k, depths, ps, g, PushVar(v)) == Some((ps + [Root(PAR_LOCAL, v)], g))
  {
    hide TypeAt;
  }

  lemma LedToInt(k: Look, a: Place, i: Place, x: Place)
    requires k == PushingLook() && i == Root(PAR_LOCAL, 1) && x == Root(PAR_LOCAL, 2)
    ensures OpPass(k, [1, 2, 3], [x, i], map[], SliceFromOne) == Some(([x], map[x := [B.Edge(i, false)]]))
  {
    assert Types(k.s, [x, i]) == [2, 0];
    assert CheckOp(k.s, k.funcs, [2, 0], SliceFromOne);
    assert G.RegionOk(k.s, k.portals, [1, 2, 3], x, i);
    var none: B.Graph := map[];
    assert G.Noted(none, x, B.Edge(i, false)) == map[x := [B.Edge(i, false)]] by {
      assert B.EdgesAt(none, x) == [] && [] + [B.Edge(i, false)] == [B.Edge(i, false)];
    }
    assert [x, i][..1] == [x];
  }

  lemma PushPasses(k: Look, depths: seq<nat>, a: Place, x: Place, g: B.Graph)
    requires k == PushingLook() && a == Root(PAR_LOCAL, 0) && x == Root(PAR_LOCAL, 2)
    ensures OpPass(k, depths, [x, a, x], g, ArrPush) == Some(([x, a], g))
  {
    assert Types(k.s, [x, a, x]) == [2, 3, 2];
    assert CheckOp(k.s, k.funcs, [2, 3, 2], ArrPush);
    assert [x, a, x][..2] == [x, a];
  }
}
