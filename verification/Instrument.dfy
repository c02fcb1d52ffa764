/** Every program can be probed: probes are put at the start of the protected part and of the
    cleanup of every defer, without changing what the program does. */
module Instrument {
  import opened Memory
  import opened Ir
  import opened Semantics
  import opened Lowering
  import opened Cleanup
  import opened LoweringFacts
  import opened Probes

  // ----- one more scope -----

  /** t inside one more scope: breaks that leave more than n scopes leave one more. */
  function Shift(t: Tree, n: nat): Tree
    decreases Size(t)
  {
    match t
    case Break(level) => if level > n then Break(level + 1) else t
    case Defer(next, cleanup) => Defer(Shift(next, n + 1), Shift(cleanup, n + 1))
    case Many(kids) => Many(ShiftChain(kids, n + 1))
    case CrashPad(body, pad) => CrashPad(Shift(body, n), Shift(pad, n))
    case Branch(cond, yes, no) => Branch(cond, Shift(yes, n), Shift(no, n))
    case Loop(body) => Loop(Shift(body, n + 1))
    case Var(v, body) => Var(v, Shift(body, n + 1))
    case _ => t
  }

  function ShiftChain(ch: Chain, n: nat): Chain
    decreases ChainSize(ch)
  {
    match ch
    case Link(cur, rest) => Link(Shift(cur, n), ShiftChain(rest, n))
    case _ => ch
  }

  // ----- a probe in front -----

  /** t behind a probe, in a scope of its own. */
  function Behind(tag: nat, t: Tree): Tree { Many(Link(Basic([Null(tag)]), Link(Shift(t, 0), End))) }

  // ----- probing a program -----

  /** `name` numbers the defers of a program by where they stand. */
  type Names = seq<nat> -> nat

  /** t with probes; `at` is where it stands. */
  function Marked(t: Tree, name: Names, at: seq<nat>): Tree
    decreases Size(t)
  {
    match t
    case Basic(ops) => Basic(Quiet(ops))
    case Defer(next, cleanup) =>
      Defer(Behind(2 * name(at), Marked(next, name, at + [0])), Behind(2 * name(at) + 1, Marked(cleanup, name, at + [1])))
    case Many(kids) => Many(MarkedChain(kids, name, at + [0]))
    case CrashPad(body, pad) => CrashPad(Marked(body, name, at + [0]), Marked(pad, name, at + [1]))
    case Branch(cond, yes, no) => Branch(Quiet(cond), Marked(yes, name, at + [0]), Marked(no, name, at + [1]))
    case Loop(body) => Loop(Marked(body, name, at + [0]))
    case Var(v, body) => Var(v, Marked(body, name, at + [0]))
    case _ => t
  }

  function MarkedChain(ch: Chain, name: Names, at: seq<nat>): Chain
    decreases ChainSize(ch)
  {
    match ch
    case Link(cur, rest) => Link(Marked(cur, name, at + [0]), MarkedChain(rest, name, at + [1]))
    case _ => ch
  }

  function MarkedFunc(f: Func, name: Names, i: nat): Func { f.(body := Marked(f.body, name, [i])) }

  function MarkedProgram(p: Program, name: Names): Program {
    p.(funcs := seq(|p.funcs|, i requires 0 <= i < |p.funcs| => MarkedFunc(p.funcs[i], name, i)))
  }

  // ----- it does the same -----

  /** t where the breaks leave what w tells of as well. */
  function Raise(t: Tree, w: seq<nat>): Tree
    requires |w| > 0
    decreases Size(t)
  {
    match t
    case Break(level) => Break(Up(level, w))
    case Defer(next, cleanup) => Defer(Raise(next, [0] + w), Raise(cleanup, [0] + w))
    case Many(kids) => Many(RaiseChain(kids, [0] + w))
    case CrashPad(body, pad) => CrashPad(Raise(body, w), Raise(pad, w))
    case Branch(cond, yes, no) => Branch(cond, Raise(yes, w), Raise(no, w))
    case Loop(body) => Loop(Raise(body, [0] + w))
    case Var(v, body) => Var(v, Raise(body, [0] + w))
    case _ => t
  }

  function RaiseChain(ch: Chain, w: seq<nat>): Chain
    requires |w| > 0
    decreases ChainSize(ch)
  {
    match ch
    case Link(cur, rest) => Link(Raise(cur, w), RaiseChain(rest, w))
    case _ => ch
  }

  lemma UpNear(l: nat, near: seq<nat>, far: seq<nat>)
    requires |far| > 0
    ensures l <= |near| ==> Up(l, near + far) == Up(l, near + Bump(far)) == Up(l, near + ([0] + far))
    ensures l > |near| ==> Up(l + 1, near + ([0] + far)) == Up(l, near + far) + 1 == Up(l, near + Bump(far))
    decreases |near|
  {
    if |near| == 0 {
      assert near + far == far && near + Bump(far) == Bump(far) && near + ([0] + far) == [0] + far;
      assert ([0] + far)[1..] == far && Bump(far)[1..] == far[1..];
      if l > 0 { assert Up(l + 1, [0] + far) == 1 + Up(l, far); }
    } else if l > 0 {
      assert (near + far)[1..] == near[1..] + far && (near + Bump(far))[1..] == near[1..] + Bump(far);
      assert (near + ([0] + far))[1..] == near[1..] + ([0] + far);
      UpNear(l - 1, near[1..], far);
    }
  }

  /** What was shifted into one more scope. */
  lemma {:induction false} RaiseShift(t: Tree, near: seq<nat>, far: seq<nat>)
    requires |far| > 0
    ensures Raise(Shift(t, |near|), near + ([0] + far)) == Raise(t, near + Bump(far))
    decreases Size(t)
  {
    assert [0] + (near + ([0] + far)) == ([0] + near) + ([0] + far) && [0] + (near + Bump(far)) == ([0] + near) + Bump(far);
    match t
    case Break(level) => UpNear(level, near, far);
    case Defer(next, cleanup) => RaiseShift(next, [0] + near, far); RaiseShift(cleanup, [0] + near, far);
    case Many(kids) => RaiseShiftChain(kids, [0] + near, far);
    case CrashPad(body, pad) => RaiseShift(body, near, far); RaiseShift(pad, near, far);
    case Branch(_, yes, no) => RaiseShift(yes, near, far); RaiseShift(no, near, far);
    case Loop(body) => RaiseShift(body, [0] + near, far);
    case Var(_, body) => RaiseShift(body, [0] + near, far);
    case _ =>
  }

  lemma {:induction false} RaiseShiftChain(ch: Chain, near: seq<nat>, far: seq<nat>)
    requires |far| > 0
    ensures RaiseChain(ShiftChain(ch, |near|), near + ([0] + far)) == RaiseChain(ch, near + Bump(far))
    decreases ChainSize(ch)
  {
    if ch.Link? { RaiseShift(ch.cur, near, far); RaiseShiftChain(ch.rest, near, far); }
  }

  /** A tree behind a probe, raised. */
  lemma RaiseBehind(tag: nat, t: Tree, w: seq<nat>)
    requires |w| > 0
    ensures Raise(Behind(tag, t), w) == Many(Link(Basic([Null(tag)]), Link(Raise(t, Bump(w)), End)))
  {
    var x := Shift(t, 0);
    RaiseShift(t, [], w);
    assert [] + ([0] + w) == [0] + w && [] + Bump(w) == Bump(w);
    assert Raise(x, [0] + w) == Raise(t, Bump(w));
    assert RaiseChain(End, [0] + w) == End;
    assert RaiseChain(Link(x, End), [0] + w) == Link(Raise(x, [0] + w), End);
    var probe := Basic([Null(tag)]);
    assert Raise(probe, [0] + w) == probe;
    assert RaiseChain(Link(probe, Link(x, End)), [0] + w) == Link(probe, RaiseChain(Link(x, End), [0] + w));
    hide Raise, RaiseChain, Shift;
    RaiseMany(Link(probe, Link(x, End)), w);
  }

  lemma RaiseMany(ch: Chain, w: seq<nat>)
    requires |w| > 0
    ensures Raise(Many(ch), w) == Many(RaiseChain(ch, [0] + w))
  {
  }

  lemma WithBehind(t: Tree, tag: nat, x: Tree, w: seq<nat>)
    requires |w| > 0 && With(t, x, Bump(w))
    ensures With(t, Many(Link(Basic([Null(tag)]), Link(x, End))), w)
  {
    hide Quiet;
    assert Probing(Many(Link(Basic([Null(tag)]), Link(x, End))));
  }

  lemma {:induction false} MarkedWith(t: Tree, name: Names, at: seq<nat>, w: seq<nat>)
    requires |w| > 0
    ensures With(t, Raise(Marked(t, name, at), w), w)
    decreases Size(t)
  {
    hide Quiet, Behind, Up;
    match t
    case Defer(next, cleanup) =>
      var tag, w1 := 2 * name(at), [0] + w;
      var m, c := Marked(next, name, at + [0]), Marked(cleanup, name, at + [1]);
      MarkedWith(next, name, at + [0], Bump(w1));
      MarkedWith(cleanup, name, at + [1], Bump(w1));
      RaiseBehind(tag, m, w1);
      RaiseBehind(tag + 1, c, w1);
      WithBehind(next, tag, Raise(m, Bump(w1)), w1);
      WithBehind(cleanup, tag + 1, Raise(c, Bump(w1)), w1);
    case Many(kids) => MarkedChainWith(kids, name, at + [0], [0] + w);
    case CrashPad(body, pad) => MarkedWith(body, name, at + [0], w); MarkedWith(pad, name, at + [1], w);
    case Branch(_, yes, no) => MarkedWith(yes, name, at + [0], w); MarkedWith(no, name, at + [1], w);
    case Loop(body) => MarkedWith(body, name, at + [0], [0] + w);
    case Var(_, body) => MarkedWith(body, name, at + [0], [0] + w);
    case _ =>
  }

  lemma {:induction false} MarkedChainWith(ch: Chain, name: Names, at: seq<nat>, w: seq<nat>)
    requires |w| > 0
    ensures WithChain(ch, RaiseChain(MarkedChain(ch, name, at), w), w)
    decreases ChainSize(ch)
  {
    hide With;
    if ch.Link? { MarkedWith(ch.cur, name, at + [0], w); MarkedChainWith(ch.rest, name, at + [1], w); }
  }

  predicate Zeros(w: seq<nat>) { |w| > 0 && forall i :: 0 <= i < |w| ==> w[i] == 0 }

  lemma {:induction false} UpZeros(l: nat, w: seq<nat>)
    requires |w| > 0 ==> Zeros(w)
    ensures Up(l, w) == l
  {
    if l > 0 && |w| > 0 { UpZeros(l - 1, w[1..]); }
  }

  lemma {:induction false} RaiseNothing(t: Tree, w: seq<nat>)
    requires Zeros(w)
    ensures Raise(t, w) == t
    decreases Size(t)
  {
    match t
    case Break(level) => UpZeros(level, w);
    case Defer(next, cleanup) => RaiseNothing(next, [0] + w); RaiseNothing(cleanup, [0] + w);
    case Many(kids) => RaiseNothingInChain(kids, [0] + w);
    case CrashPad(body, pad) => RaiseNothing(body, w); RaiseNothing(pad, w);
    case Branch(_, yes, no) => RaiseNothing(yes, w); RaiseNothing(no, w);
    case Loop(body) => RaiseNothing(body, [0] + w);
    case Var(_, body) => RaiseNothing(body, [0] + w);
    case _ =>
  }

  lemma {:induction false} RaiseNothingInChain(ch: Chain, w: seq<nat>)
    requires Zeros(w)
    ensures RaiseChain(ch, w) == ch
    decreases ChainSize(ch)
  {
    if ch.Link? { RaiseNothing(ch.cur, w); RaiseNothingInChain(ch.rest, w); }
  }

  lemma MarkedIs(p: Program, name: Names, fn: nat)
    requires fn < |p.funcs|
    ensures var q := MarkedProgram(p, name);
      |q.funcs| == |p.funcs| && q.globals == p.globals && q.native == p.native && q.funcs[fn] == MarkedFunc(p.funcs[fn], name, fn)
  {
  }

  lemma MarkedProgramWith(p: Program, name: Names)
    ensures ProgramWith(p, MarkedProgram(p, name))
  {
    hide With, Marked;
    var q := MarkedProgram(p, name);
    forall i | 0 <= i < |p.funcs| ensures q.funcs[i] == p.funcs[i].(body := q.funcs[i].body) && With(p.funcs[i].body, q.funcs[i].body, [0]) {
      MarkedIs(p, name, i);
      MarkedWith(p.funcs[i].body, name, [i], [0]);
      RaiseNothing(Marked(p.funcs[i].body, name, [i]), [0]);
    }
  }

  /** The probed program does what the program does, but for the log. */
  lemma MarkedFuncAlike(fuel: nat, p: Program, name: Names, fn: nat, d: Data, e: Data)
    requires fn < |p.funcs| && Argc(p.funcs[fn].sig) <= |d.params| && Like(d, e)
    ensures Alike(RunFunc(fuel, p, fn, d), RunFunc(fuel, MarkedProgram(p, name), fn, e))
  {
    hide RunFunc;
    MarkedProgramWith(p, name);
    FuncAlike(fuel, p, MarkedProgram(p, name), fn, d, e);
  }

  // ----- what stays true in one more scope -----

  lemma {:induction false} ShiftEscapes(t: Tree, n: nat, k: nat)
    requires n <= k
    ensures Escapes(Shift(t, n), k + 1) <==> Escapes(t, k)
    decreases Size(t)
  {
    match t
    case Defer(next, cleanup) => ShiftEscapes(next, n + 1, k + 1); ShiftEscapes(cleanup, n + 1, k + 1);
    case Many(kids) => ShiftChainEscapes(kids, n + 1, k + 1);
    case CrashPad(body, pad) => ShiftEscapes(body, n, k); ShiftEscapes(pad, n, k);
    case Branch(_, yes, no) => ShiftEscapes(yes, n, k); ShiftEscapes(no, n, k);
    case Loop(body) => ShiftEscapes(body, n + 1, k + 1);
    case Var(_, body) => ShiftEscapes(body, n + 1, k + 1);
    case _ =>
  }

  lemma {:induction false} ShiftChainEscapes(ch: Chain, n: nat, k: nat)
    requires n <= k
    ensures ChainEscapes(ShiftChain(ch, n), k + 1) <==> ChainEscapes(ch, k)
    decreases ChainSize(ch)
  {
    if ch.Link? { ShiftEscapes(ch.cur, n, k); ShiftChainEscapes(ch.rest, n, k); }
  }

  /** Breaks that stay inside do not change. */
  lemma {:induction false} ShiftNothing(t: Tree, n: nat)
    requires Escapes(t, n)
    ensures Shift(t, n) == t
    decreases Size(t)
  {
    match t
    case Defer(next, cleanup) => ShiftNothing(next, n + 1); ShiftNothing(cleanup, n + 1);
    case Many(kids) => ShiftNothingInChain(kids, n + 1);
    case CrashPad(body, pad) => ShiftNothing(body, n); ShiftNothing(pad, n);
    case Branch(_, yes, no) => ShiftNothing(yes, n); ShiftNothing(no, n);
    case Loop(body) => ShiftNothing(body, n + 1);
    case Var(_, body) => ShiftNothing(body, n + 1);
    case _ =>
  }

  lemma {:induction false} ShiftNothingInChain(ch: Chain, n: nat)
    requires ChainEscapes(ch, n)
    ensures ShiftChain(ch, n) == ch
    decreases ChainSize(ch)
  {
    if ch.Link? { ShiftNothing(ch.cur, n); ShiftNothingInChain(ch.rest, n); }
  }

  lemma {:induction false} ShiftUses(t: Tree, n: nat)
    ensures Uses(Shift(t, n)) == Uses(t)
    decreases Size(t)
  {
    match t
    case Defer(next, cleanup) => ShiftUses(next, n + 1); ShiftUses(cleanup, n + 1);
    case Many(kids) => ShiftChainUses(kids, n + 1);
    case CrashPad(body, pad) => ShiftUses(body, n); ShiftUses(pad, n);
    case Branch(_, yes, no) => ShiftUses(yes, n); ShiftUses(no, n);
    case Loop(body) => ShiftUses(body, n + 1);
    case Var(_, body) => ShiftUses(body, n + 1);
    case _ =>
  }

  lemma {:induction false} ShiftChainUses(ch: Chain, n: nat)
    ensures ChainUses(ShiftChain(ch, n)) == ChainUses(ch)
    decreases ChainSize(ch)
  {
    if ch.Link? { ShiftUses(ch.cur, n); ShiftChainUses(ch.rest, n); }
  }

  lemma {:induction false} ShiftProbed(t: Tree, n: nat)
    requires Probed(t)
    ensures Probed(Shift(t, n))
    decreases Size(t)
  {
    match t
    case Defer(next, cleanup) =>
      RestIsSmaller(next);
      RestIsSmaller(cleanup);
      ShiftChainProbed(next.kids.rest, n + 2);
      ShiftChainProbed(cleanup.kids.rest, n + 2);
      FirstKept(next, n + 1);
      FirstKept(cleanup, n + 1);
    case Many(kids) => ShiftChainProbed(kids, n + 1);
    case CrashPad(body, pad) => ShiftProbed(body, n); ShiftProbed(pad, n);
    case Branch(_, yes, no) => ShiftProbed(yes, n); ShiftProbed(no, n);
    case Loop(body) => ShiftProbed(body, n + 1);
    case Var(_, body) => ShiftProbed(body, n + 1);
    case _ =>
  }

  lemma FirstKept(t: Tree, n: nat)
    requires t.Many? && t.kids.Link? && t.kids.cur.Basic?
    ensures Shift(t, n) == Many(Link(t.kids.cur, ShiftChain(t.kids.rest, n + 1)))
  {
    assert ShiftChain(t.kids, n + 1) == Link(Shift(t.kids.cur, n + 1), ShiftChain(t.kids.rest, n + 1));
  }

  lemma {:induction false} ShiftChainProbed(ch: Chain, n: nat)
    requires ChainProbed(ch)
    ensures ChainProbed(ShiftChain(ch, n))
    decreases ChainSize(ch)
  {
    if ch.Link? { ShiftProbed(ch.cur, n); ShiftChainProbed(ch.rest, n); }
  }

  // ----- surroundings -----

  function Before(near: seq<Around>, c: Tree, far: seq<Around>): seq<Around> { near + ([InNext(c)] + far) }

  function Wide(near: seq<Around>, c: Tree, far: seq<Around>): seq<Around> { near + ([InScope, InNext(c)] + far) }

  lemma {:induction false} CountsConcat(a: seq<Around>, b: seq<Around>)
    ensures Scopes(a + b) == Scopes(a) + Scopes(b) && Branches(a + b) == Branches(a) + Branches(b)
    ensures PendingUses(a + b) == PendingUses(a) + PendingUses(b)
  {
    if |a| == 0 {
      assert a + b == b;
    } else {
      assert (a + b)[1..] == a[1..] + b;
      CountsConcat(a[1..], b);
    }
  }

  lemma WideCounts(near: seq<Around>, c: Tree, x: Tree, far: seq<Around>)
    requires Uses(x) == Uses(c)
    ensures Scopes(Wide(near, x, far)) == Scopes(Before(near, c, far)) + 1 && Scopes(Before(near, c, far)) >= Scopes(near) + 1
    ensures Branches(Wide(near, x, far)) == Branches(Before(near, c, far))
    ensures PendingUses(Wide(near, x, far)) == PendingUses(Before(near, c, far))
  {
    CountsConcat(near, [InNext(c)] + far);
    CountsConcat(near, [InScope, InNext(x)] + far);
    assert ([InNext(c)] + far)[1..] == far;
    assert ([InScope, InNext(x)] + far)[1..] == [InNext(x)] + far && ([InNext(x)] + far)[1..] == far;
  }

  /** A break that stays near does not see what is far. */
  lemma {:induction false} OutermostNear(near: seq<Around>, far: seq<Around>, k: nat)
    requires k <= Scopes(near)
    ensures Outermost(near + far, k) == Outermost(near, k)
  {
    if |near| > 0 && k > 0 {
      assert (near + far)[1..] == near[1..] + far;
      OutermostNear(near[1..], far, if near[0].InBranch? then k else k - 1);
    }
  }

  lemma ReachesNear(near: seq<Around>, far: seq<Around>, k: nat)
    requires k <= Scopes(near)
    ensures Reaches(near + far, k) <==> Reaches(near, k)
  {
    OutermostNear(near, far, k);
    var i := Outermost(near, k);
    assert (near + far)[..i] == near[..i];
  }

  /** A break that leaves the defer has its outermost one defer just as far outside. */
  lemma {:induction false} OutermostWide(near: seq<Around>, c: Tree, x: Tree, far: seq<Around>, k: nat)
    requires k > Scopes(near)
    ensures Outermost(Wide(near, x, far), k + 1) == Outermost(Before(near, c, far), k) + 1
    ensures Outermost(Before(near, c, far), k) >= |near| + 1
  {
    var before, wide := Before(near, c, far), Wide(near, x, far);
    if |near| == 0 {
      assert before[1..] == far && wide[1..] == [InNext(x)] + far && wide[1..][1..] == far;
    } else {
      assert before[1..] == Before(near[1..], c, far) && wide[1..] == Wide(near[1..], x, far);
      OutermostWide(near[1..], c, x, far, if near[0].InBranch? then k else k - 1);
    }
  }

  lemma ReachesWide(near: seq<Around>, c: Tree, x: Tree, far: seq<Around>, k: nat)
    requires k > Scopes(near)
    ensures Reaches(Wide(near, x, far), k + 1) <==> Reaches(Before(near, c, far), k)
  {
    hide Outermost, PendingUses;
    OutermostWide(near, c, x, far, k);
    var i := Outermost(Before(near, c, far), k);
    var rest := far[..i - |near| - 1];
    assert Before(near, c, far)[..i] == Before(near, c, rest);
    assert Wide(near, x, far)[..i + 1] == Wide(near, x, rest);
    CountsConcat(near, [InNext(c)] + rest);
    CountsConcat(near, [InScope, InNext(x)] + rest);
    assert ([InNext(c)] + rest)[1..] == rest;
    assert ([InScope, InNext(x)] + rest)[1..] == [InNext(x)] + rest && ([InNext(x)] + rest)[1..] == rest;
  }

  // ----- it can be lowered just as well -----

  lemma BreakWide(level: nat, near: seq<Around>, c: Tree, x: Tree, far: seq<Around>)
    requires Uses(x) == Uses(c)
    ensures Lowerable(Shift(Break(level), Scopes(near)), Wide(near, x, far)) <==> Lowerable(Break(level), Before(near, c, far))
  {
    hide Reaches, Outermost, PendingUses, Branches;
    WideCounts(near, c, x, far);
    if level > Scopes(near) {
      ReachesWide(near, c, x, far, level);
    } else {
      ReachesNear(near, [InNext(c)] + far, level);
      ReachesNear(near, [InScope, InNext(x)] + far, level);
    }
  }

  lemma {:induction false} ShiftLowerable(t: Tree, near: seq<Around>, c: Tree, x: Tree, far: seq<Around>)
    requires Uses(x) == Uses(c)
    ensures Lowerable(Shift(t, Scopes(near)), Wide(near, x, far)) <==> Lowerable(t, Before(near, c, far))
    decreases Size(t)
  {
    hide Reaches, Escapes, Uses, PendingUses, Scopes;
    var n, before, wide := Scopes(near), Before(near, c, far), Wide(near, x, far);
    match t
    case Defer(next, cleanup) => ShiftDeferLowerable(next, cleanup, near, c, x, far);
    case Many(kids) =>
      Inner(InScope, near, c, x, far);
      ShiftChainLowerable(kids, [InScope] + near, c, x, far);
    case Branch(_, yes, no) =>
      Inner(InBranch, near, c, x, far);
      ShiftLowerable(yes, [InBranch] + near, c, x, far);
      ShiftLowerable(no, [InBranch] + near, c, x, far);
    case Loop(body) =>
      Inner(InScope, near, c, x, far);
      ShiftLowerable(body, [InScope] + near, c, x, far);
    case Var(_, body) =>
      WideCounts(near, c, x, far);
      Inner(InScope, near, c, x, far);
      ShiftLowerable(body, [InScope] + near, c, x, far);
    case Break(level) => BreakWide(level, near, c, x, far);
    case _ =>
  }

  /** One block further in. */
  lemma Inner(e: Around, near: seq<Around>, c: Tree, x: Tree, far: seq<Around>)
    ensures [e] + Before(near, c, far) == Before([e] + near, c, far) && [e] + Wide(near, x, far) == Wide([e] + near, x, far)
    ensures Scopes([e] + near) == Scopes(near) + if e.InBranch? then 0 else 1
  {
    assert ([e] + near)[1..] == near;
  }

  lemma {:induction false} ShiftDeferLowerable(next: Tree, cleanup: Tree, near: seq<Around>, c: Tree, x: Tree, far: seq<Around>)
    requires Uses(x) == Uses(c)
    ensures Lowerable(Shift(Defer(next, cleanup), Scopes(near)), Wide(near, x, far)) <==> Lowerable(Defer(next, cleanup), Before(near, c, far))
    decreases Size(next) + Size(cleanup)
  {
    hide Reaches, Uses, PendingUses;
    var n := Scopes(near);
    ClosedShifted(cleanup, n + 1);
    if Closed(cleanup) {
      Inner(InNext(cleanup), near, c, x, far);
      ShiftLowerable(next, [InNext(cleanup)] + near, c, x, far);
    }
  }

  /** Moved into more scopes than it can see, a tree stays what it is. */
  lemma ClosedShifted(t: Tree, n: nat)
    ensures Closed(Shift(t, n)) <==> Closed(t)
    ensures Closed(t) ==> Shift(t, n) == t
  {
    if Closed(t) {
      EscapesMore(t, 0, n);
      ShiftNothing(t, n);
    } else if Closed(Shift(t, n)) {
      EscapesLess(t, n, 0);
    }
  }

  lemma {:induction false} EscapesMore(t: Tree, n: nat, k: nat)
    requires Escapes(t, n) && n <= k
    ensures Escapes(t, k)
    decreases Size(t)
  {
    match t
    case Defer(next, cleanup) => EscapesMore(next, n + 1, k + 1); EscapesMore(cleanup, n + 1, k + 1);
    case Many(kids) => ChainEscapesMore(kids, n + 1, k + 1);
    case CrashPad(body, pad) => EscapesMore(body, n, k); EscapesMore(pad, n, k);
    case Branch(_, yes, no) => EscapesMore(yes, n, k); EscapesMore(no, n, k);
    case Loop(body) => EscapesMore(body, n + 1, k + 1);
    case Var(_, body) => EscapesMore(body, n + 1, k + 1);
    case _ =>
  }

  lemma {:induction false} ChainEscapesMore(ch: Chain, n: nat, k: nat)
    requires ChainEscapes(ch, n) && n <= k
    ensures ChainEscapes(ch, k)
    decreases ChainSize(ch)
  {
    if ch.Link? { EscapesMore(ch.cur, n, k); ChainEscapesMore(ch.rest, n, k); }
  }

  /** Shifted breaks leave no less than before. */
  lemma {:induction false} EscapesLess(t: Tree, n: nat, k: nat)
    requires Escapes(Shift(t, n), k)
    ensures Escapes(t, k)
    decreases Size(t)
  {
    match t
    case Defer(next, cleanup) => EscapesLess(next, n + 1, k + 1); EscapesLess(cleanup, n + 1, k + 1);
    case Many(kids) => ChainEscapesLess(kids, n + 1, k + 1);
    case CrashPad(body, pad) => EscapesLess(body, n, k); EscapesLess(pad, n, k);
    case Branch(_, yes, no) => EscapesLess(yes, n, k); EscapesLess(no, n, k);
    case Loop(body) => EscapesLess(body, n + 1, k + 1);
    case Var(_, body) => EscapesLess(body, n + 1, k + 1);
    case _ =>
  }

  lemma {:induction false} ChainEscapesLess(ch: Chain, n: nat, k: nat)
    requires ChainEscapes(ShiftChain(ch, n), k)
    ensures ChainEscapes(ch, k)
    decreases ChainSize(ch)
  {
    if ch.Link? { EscapesLess(ch.cur, n, k); ChainEscapesLess(ch.rest, n, k); }
  }

  lemma {:induction false} ShiftChainLowerable(ch: Chain, near: seq<Around>, c: Tree, x: Tree, far: seq<Around>)
    requires Uses(x) == Uses(c)
    ensures ChainLowerable(ShiftChain(ch, Scopes(near)), Wide(near, x, far)) <==> ChainLowerable(ch, Before(near, c, far))
    decreases ChainSize(ch)
  {
    if ch.Link? {
      ShiftLowerable(ch.cur, near, c, x, far);
      ShiftChainLowerable(ch.rest, near, c, x, far);
    }
  }

  /** A tree that its breaks do not leave may stand in a scope. */
  lemma {:induction false} LocalLowerable(t: Tree, near: seq<Around>)
    requires Escapes(t, Scopes(near))
    ensures Lowerable(t, near + [InScope]) <==> Lowerable(t, near)
    decreases Size(t)
  {
    hide Reaches, Uses;
    match t
    case Defer(next, cleanup) =>
      Nested(InNext(cleanup), near);
      LocalLowerable(next, [InNext(cleanup)] + near);
    case Many(kids) =>
      Nested(InScope, near);
      LocalChainLowerable(kids, [InScope] + near);
    case Branch(_, yes, no) =>
      Nested(InBranch, near);
      LocalLowerable(yes, [InBranch] + near);
      LocalLowerable(no, [InBranch] + near);
    case Loop(body) =>
      Nested(InScope, near);
      LocalLowerable(body, [InScope] + near);
    case Var(_, body) =>
      CountsConcat(near, [InScope]);
      Nested(InScope, near);
      LocalLowerable(body, [InScope] + near);
    case Break(level) =>
      ReachesNear(near, [InScope], level);
      CountsConcat(near, [InScope]);
    case _ =>
  }

  lemma Nested(e: Around, near: seq<Around>)
    ensures [e] + (near + [InScope]) == ([e] + near) + [InScope]
    ensures Scopes([e] + near) == Scopes(near) + if e.InBranch? then 0 else 1
  {
    assert ([e] + near)[1..] == near;
  }

  lemma {:induction false} LocalChainLowerable(ch: Chain, near: seq<Around>)
    requires ChainEscapes(ch, Scopes(near))
    ensures ChainLowerable(ch, near + [InScope]) <==> ChainLowerable(ch, near)
    decreases ChainSize(ch)
  {
    if ch.Link? {
      LocalLowerable(ch.cur, near);
      LocalChainLowerable(ch.rest, near);
    }
  }

  // ----- what stays true with probes -----

  lemma BehindStays(tag: nat, t: Tree, k: nat)
    ensures Escapes(Behind(tag, t), k) <==> Escapes(t, k)
    ensures Uses(Behind(tag, t)) == Uses(t)
  {
    ShiftEscapes(t, 0, k);
    ShiftUses(t, 0);
    var s := Shift(t, 0);
    var kids := Link(Basic([Null(tag)]), Link(s, End));
    assert Behind(tag, t) == Many(kids);
    assert ChainEscapes(Link(s, End), k + 1) <==> Escapes(s, k + 1);
    assert ChainEscapes(kids, k + 1) <==> Escapes(s, k + 1);
    assert OpVars([Null(tag)]) == {} && ChainUses(Link(s, End)) == Uses(s);
    assert ChainUses(kids) == Uses(s);
  }

  lemma {:induction false} MarkedEscapes(t: Tree, name: Names, at: seq<nat>, k: nat)
    ensures Escapes(Marked(t, name, at), k) <==> Escapes(t, k)
    decreases Size(t)
  {
    hide Behind;
    match t
    case Defer(next, cleanup) =>
      MarkedEscapes(next, name, at + [0], k + 1);
      MarkedEscapes(cleanup, name, at + [1], k + 1);
      BehindStays(2 * name(at), Marked(next, name, at + [0]), k + 1);
      BehindStays(2 * name(at) + 1, Marked(cleanup, name, at + [1]), k + 1);
    case Many(kids) => MarkedChainEscapes(kids, name, at + [0], k + 1);
    case CrashPad(body, pad) => MarkedEscapes(body, name, at + [0], k); MarkedEscapes(pad, name, at + [1], k);
    case Branch(_, yes, no) => MarkedEscapes(yes, name, at + [0], k); MarkedEscapes(no, name, at + [1], k);
    case Loop(body) => MarkedEscapes(body, name, at + [0], k + 1);
    case Var(_, body) => MarkedEscapes(body, name, at + [0], k + 1);
    case _ =>
  }

  lemma {:induction false} MarkedChainEscapes(ch: Chain, name: Names, at: seq<nat>, k: nat)
    ensures ChainEscapes(MarkedChain(ch, name, at), k) <==> ChainEscapes(ch, k)
    decreases ChainSize(ch)
  {
    if ch.Link? { MarkedEscapes(ch.cur, name, at + [0], k); MarkedChainEscapes(ch.rest, name, at + [1], k); }
  }

  lemma QuietUses(ops: seq<Op>)
    ensures OpVars(Quiet(ops)) == OpVars(ops)
  {
  }

  lemma {:induction false} MarkedUses(t: Tree, name: Names, at: seq<nat>)
    ensures Uses(Marked(t, name, at)) == Uses(t)
    decreases Size(t)
  {
    hide Behind, Quiet, OpVars;
    match t
    case Basic(ops) => QuietUses(ops);
    case Defer(next, cleanup) =>
      MarkedUses(next, name, at + [0]);
      MarkedUses(cleanup, name, at + [1]);
      BehindStays(2 * name(at), Marked(next, name, at + [0]), 0);
      BehindStays(2 * name(at) + 1, Marked(cleanup, name, at + [1]), 0);
    case Many(kids) => MarkedChainUses(kids, name, at + [0]);
    case CrashPad(body, pad) => MarkedUses(body, name, at + [0]); MarkedUses(pad, name, at + [1]);
    case Branch(cond, yes, no) => QuietUses(cond); MarkedUses(yes, name, at + [0]); MarkedUses(no, name, at + [1]);
    case Loop(body) => MarkedUses(body, name, at + [0]);
    case Var(_, body) => MarkedUses(body, name, at + [0]);
    case _ =>
  }

  lemma {:induction false} MarkedChainUses(ch: Chain, name: Names, at: seq<nat>)
    ensures ChainUses(MarkedChain(ch, name, at)) == ChainUses(ch)
    decreases ChainSize(ch)
  {
    if ch.Link? { MarkedUses(ch.cur, name, at + [0]); MarkedChainUses(ch.rest, name, at + [1]); }
  }

  lemma {:induction false} MarkedProbed(t: Tree, name: Names, at: seq<nat>)
    ensures Probed(Marked(t, name, at))
    decreases Size(t)
  {
    hide Quiet;
    match t
    case Basic(ops) => QuietIsSilent(ops);
    case Defer(next, cleanup) =>
      MarkedProbed(next, name, at + [0]);
      MarkedProbed(cleanup, name, at + [1]);
      PairProbed(name(at), Marked(next, name, at + [0]), Marked(cleanup, name, at + [1]));
    case Many(kids) => MarkedChainProbed(kids, name, at + [0]);
    case CrashPad(body, pad) => MarkedProbed(body, name, at + [0]); MarkedProbed(pad, name, at + [1]);
    case Branch(cond, yes, no) => QuietIsSilent(cond); MarkedProbed(yes, name, at + [0]); MarkedProbed(no, name, at + [1]);
    case Loop(body) => MarkedProbed(body, name, at + [0]);
    case Var(_, body) => MarkedProbed(body, name, at + [0]);
    case _ =>
  }

  lemma QuietIsSilent(ops: seq<Op>)
    ensures Silent(Quiet(ops))
  {
  }

  lemma PairProbed(k: nat, m: Tree, c: Tree)
    requires Probed(m) && Probed(c)
    ensures Probed(Defer(Behind(2 * k, m), Behind(2 * k + 1, c)))
  {
    ShiftProbed(m, 0);
    ShiftProbed(c, 0);
    assert ChainProbed(Link(Shift(m, 0), End)) && ChainProbed(Link(Shift(c, 0), End));
  }

  lemma {:induction false} MarkedChainProbed(ch: Chain, name: Names, at: seq<nat>)
    ensures ChainProbed(MarkedChain(ch, name, at))
    decreases ChainSize(ch)
  {
    if ch.Link? { MarkedProbed(ch.cur, name, at + [0]); MarkedChainProbed(ch.rest, name, at + [1]); }
  }

  lemma {:induction false} MarkedLowerable(t: Tree, name: Names, at: seq<nat>, path: seq<Around>)
    ensures Lowerable(Marked(t, name, at), path) <==> Lowerable(t, path)
    decreases Size(t)
  {
    hide Reaches, Scopes, PendingUses, Behind, Quiet;
    match t
    case Defer(next, cleanup) => MarkedDeferLowerable(next, cleanup, name, at, path);
    case Many(kids) => MarkedChainLowerable(kids, name, at + [0], [InScope] + path);
    case Branch(_, yes, no) =>
      MarkedLowerable(yes, name, at + [0], [InBranch] + path);
      MarkedLowerable(no, name, at + [1], [InBranch] + path);
    case Loop(body) => MarkedLowerable(body, name, at + [0], [InScope] + path);
    case Var(_, body) => MarkedLowerable(body, name, at + [0], [InScope] + path);
    case _ =>
  }

  lemma {:induction false} MarkedDeferLowerable(next: Tree, cleanup: Tree, name: Names, at: seq<nat>, path: seq<Around>)
    ensures Lowerable(Marked(Defer(next, cleanup), name, at), path) <==> Lowerable(Defer(next, cleanup), path)
    decreases Size(next) + Size(cleanup)
  {
    var tag := 2 * name(at);
    var m, c := Marked(next, name, at + [0]), Marked(cleanup, name, at + [1]);
    var x := Behind(tag + 1, c);
    assert Marked(Defer(next, cleanup), name, at) == Defer(Behind(tag, m), x);
    hide Marked, Behind;
    MarkedEscapes(cleanup, name, at + [1], 0);
    BehindStays(tag + 1, c, 0);
    MarkedUses(cleanup, name, at + [1]);
    if Closed(cleanup) {
      MarkedLowerable(cleanup, name, at + [1], []);
      CleanupLowerable(tag + 1, c);
      MarkedLowerable(next, name, at + [0], [InNext(cleanup)] + path);
      NextLowerable(tag, m, cleanup, x, path);
    }
  }

  lemma CleanupLowerable(tag: nat, c: Tree)
    requires Closed(c)
    ensures Lowerable(Behind(tag, c), []) <==> Lowerable(c, [])
  {
    ShiftNothing(c, 0);
    LocalLowerable(c, []);
    OneLowerable(tag, c, []);
    assert [] + [InScope] == [InScope] && [InScope] + [] == [InScope];
  }

  lemma NextLowerable(tag: nat, m: Tree, c: Tree, x: Tree, path: seq<Around>)
    requires Uses(x) == Uses(c)
    ensures Lowerable(Behind(tag, m), [InNext(x)] + path) <==> Lowerable(m, [InNext(c)] + path)
  {
    hide Lowerable, Shift, Behind, Uses;
    var wide := [InScope] + ([InNext(x)] + path);
    assert Scopes([]) == 0;
    ShiftLowerable(m, [], c, x, path);
    assert Before([], c, path) == [InNext(c)] + path;
    assert Wide([], x, path) == wide;
    OneLowerable(tag, m, [InNext(x)] + path);
  }

  lemma OneLowerable(tag: nat, t: Tree, path: seq<Around>)
    ensures Lowerable(Behind(tag, t), path) <==> Lowerable(Shift(t, 0), [InScope] + path)
  {
    var s, wide := Shift(t, 0), [InScope] + path;
    var kids := Link(Basic([Null(tag)]), Link(s, End));
    assert Behind(tag, t) == Many(kids);
    assert ChainLowerable(Link(s, End), wide) <==> Lowerable(s, wide);
    assert ChainLowerable(kids, wide) <==> Lowerable(s, wide);
  }

  lemma {:induction false} MarkedChainLowerable(ch: Chain, name: Names, at: seq<nat>, path: seq<Around>)
    ensures ChainLowerable(MarkedChain(ch, name, at), path) <==> ChainLowerable(ch, path)
    decreases ChainSize(ch)
  {
    if ch.Link? { MarkedLowerable(ch.cur, name, at + [0], path); MarkedChainLowerable(ch.rest, name, at + [1], path); }
  }

  /** Every program can be probed, whatever the names of its defers: the probed program may be
      lowered just when the program may. */
  lemma EveryProgramIsProbed(p: Program, name: Names)
    ensures ProgramProbed(MarkedProgram(p, name))
    ensures ProgramLowerable(MarkedProgram(p, name)) <==> ProgramLowerable(p)
  {
    var q := MarkedProgram(p, name);
    hide Lowerable, Probed, Marked;
    forall i | 0 <= i < |p.funcs|
      ensures Probed(q.funcs[i].body) && (Lowerable(q.funcs[i].body, []) <==> Lowerable(p.funcs[i].body, []))
    {
      MarkedProbed(p.funcs[i].body, name, [i]);
      MarkedLowerable(p.funcs[i].body, name, [i], []);
    }
    assert forall i :: 0 <= i < |p.funcs| ==> q.funcs[i] == MarkedFunc(p.funcs[i], name, i);
  }
}
