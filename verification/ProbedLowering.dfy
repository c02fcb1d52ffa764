/** Probing and lowering go together: the lowered form of a probed program is the lowered form
    of the program, with probes. So what the probes show of the one is true of the other. */
module ProbedLowering {
  import opened Memory
  import opened Ir
  import opened Semantics
  import opened Lowering
  import opened LoweringFacts
  import opened LoweringProof
  import opened BreakCoverage
  import opened Cleanup
  import opened Probes
  import opened Instrument
  import opened CrashReported
  import TornRuns

  // ----- surroundings -----

  /** x is the probed form of the cleanup c. */
  ghost predicate CleanupWith(c: Tree, x: Tree) {
    forall w: seq<nat> :: |w| > 0 ==> With(Lower(c, []), Lower(x, []), w)
  }

  /** The surroundings in the probed program: with probed cleanups, and with the scopes around
      the protected parts that w tells of. */
  ghost predicate PathWith(path: seq<Around>, wide: seq<Around>, w: seq<nat>)
    requires |w| > 0
    decreases |wide|
  {
    if |wide| == 0 then path == [] && w == [0]
    else if wide[0].InBranch? then |path| > 0 && path[0].InBranch? && PathWith(path[1..], wide[1..], w)
    else if w[0] > 0 then wide[0].InScope? && PathWith(path, wide[1..], w[0 := w[0] - 1])
    else
      && |path| > 0 && |w| > 1 && PathWith(path[1..], wide[1..], w[1..])
      && (if wide[0].InScope? then path[0].InScope? else path[0].InNext? && CleanupWith(path[0].cleanup, wide[0].cleanup))
  }

  lemma PathIn(path: seq<Around>, wide: seq<Around>, w: seq<nat>, e: Around, x: Around)
    requires |w| > 0 && PathWith(path, wide, w)
    requires (e.InNext? && x.InNext? && CleanupWith(e.cleanup, x.cleanup)) || (e.InScope? && x.InScope?)
    ensures PathWith([e] + path, [x] + wide, [0] + w)
  {
    assert ([e] + path)[1..] == path && ([x] + wide)[1..] == wide && ([0] + w)[1..] == w;
  }

  lemma PathInBranch(path: seq<Around>, wide: seq<Around>, w: seq<nat>)
    requires |w| > 0 && PathWith(path, wide, w)
    ensures PathWith([InBranch] + path, [InBranch] + wide, w)
  {
    assert ([InBranch] + path)[1..] == path && ([InBranch] + wide)[1..] == wide;
  }

  lemma PathBehind(path: seq<Around>, wide: seq<Around>, w: seq<nat>)
    requires |w| > 0 && PathWith(path, wide, w)
    ensures PathWith(path, [InScope] + wide, Bump(w))
  {
    assert ([InScope] + wide)[1..] == wide && Bump(w)[0 := Bump(w)[0] - 1] == w;
  }

  // ----- the cleanups of a break -----

  lemma {:induction false} UpGrows(l: nat, w: seq<nat>)
    ensures Up(l + 1, w) >= Up(l, w) + 1
  {
    if l > 0 && |w| > 0 { UpGrows(l - 1, w[1..]); }
  }

  lemma UpLess(l: nat, w: seq<nat>)
    requires |w| > 0 && w[0] > 0 && l > 0
    ensures Up(l, w[0 := w[0] - 1]) == Up(l, w) - 1
  {
    assert w[0 := w[0] - 1][1..] == w[1..];
  }

  /** The cleanups to run are those of the program, probed. */
  lemma {:induction false} CrossedWith(path: seq<Around>, wide: seq<Around>, w: seq<nat>, l: nat)
    requires |w| > 0 && PathWith(path, wide, w) && l <= Scopes(path)
    ensures |Crossed(wide, Up(l, w))| == |Crossed(path, l)|
    ensures forall k :: 0 <= k < |Crossed(path, l)| ==> CleanupWith(Crossed(path, l)[k], Crossed(wide, Up(l, w))[k])
    decreases |wide|
  {
    hide CleanupWith;
    if l > 0 && |wide| > 0 {
      if wide[0].InBranch? {
        CrossedWith(path[1..], wide[1..], w, l);
      } else if w[0] > 0 {
        UpLess(l, w);
        CrossedWith(path, wide[1..], w[0 := w[0] - 1], l);
      } else {
        assert Up(l, w) == 1 + Up(l - 1, w[1..]);
        CrossedWith(path[1..], wide[1..], w[1..], l - 1);
      }
    }
  }

  /** At least as many cleanups are near in the probed program. */
  lemma {:induction false} NearestWith(path: seq<Around>, wide: seq<Around>, w: seq<nat>, m: nat, n: nat)
    requires |w| > 0 && PathWith(path, wide, w) && n + 1 >= Up(m + 1, w)
    ensures |Nearest(wide, n)| >= |Nearest(path, m)|
    decreases |wide|
  {
    hide CleanupWith;
    if m > 0 && |path| > 0 && |wide| > 0 {
      UpGrows(m, w);
      assert n > 0;
      if wide[0].InBranch? {
        NearestWith(path[1..], wide[1..], w, m - 1, n - 1);
      } else if w[0] > 0 {
        UpLess(m + 1, w);
        NearestWith(path, wide[1..], w[0 := w[0] - 1], m, n - 1);
      } else {
        assert Up(m + 1, w) == 1 + Up(m, w[1..]);
        NearestWith(path[1..], wide[1..], w[1..], m - 1, n - 1);
      }
    }
  }

  /** A break of the probed program inlines the probed forms of the cleanups. */
  lemma InlinedWith(path: seq<Around>, wide: seq<Around>, w: seq<nat>, level: nat)
    requires |w| > 0 && PathWith(path, wide, w) && 0 < level <= Scopes(path) && Reaches(path, level)
    ensures var cs, xs := Inlined([Nothing] + Epis(path), level), Inlined([Nothing] + Epis(wide), Up(level, w));
      |cs| == |xs| && forall k :: 0 <= k < |cs| ==> With(cs[k], xs[k], [0] + w)
  {
    hide With, Reaches, Escapes, PathWith, Lower, Up, Scopes, Crossed, Nearest;
    var up := Up(level, w);
    InlinedCleanups(path, level);
    InlinedCleanups(wide, up);
    CrossedWith(path, wide, w, level);
    NearestWith(path, wide, w, level - 1, up - 1);
    assert Nearest(wide, up - 1) == Crossed(wide, up);
    assert ([Nothing] + Epis(path))[1..] == Epis(path) && ([Nothing] + Epis(wide))[1..] == Epis(wide);
    InlinedNearest(path, level - 1);
    InlinedNearest(wide, up - 1);
    forall k | 0 <= k < |Crossed(path, level)|
      ensures With(Lower(Crossed(path, level)[k], []), Lower(Crossed(wide, up)[k], []), [0] + w)
    {
      assert CleanupWith(Crossed(path, level)[k], Crossed(wide, up)[k]);
    }
  }

  lemma {:induction false} SequenceWith(cs: seq<Tree>, xs: seq<Tree>, last: Tree, end: Tree, w: seq<nat>)
    requires |w| > 0 && |cs| == |xs| && With(last, end, w)
    requires forall k :: 0 <= k < |cs| ==> With(cs[k], xs[k], w)
    ensures WithChain(Sequence(cs, last), Sequence(xs, end), w)
    decreases |cs|
  {
    hide With;
    if |cs| > 0 {
      assert With(cs[0], xs[0], w);
      SequenceWith(cs[1..], xs[1..], last, end, w);
    }
  }

  lemma BreakWith(path: seq<Around>, wide: seq<Around>, w: seq<nat>, level: nat)
    requires |w| > 0 && PathWith(path, wide, w) && level <= Scopes(path) && Reaches(path, level)
    ensures With(Lower(Break(level), Epis(path)), Lower(Break(Up(level, w)), Epis(wide)), w)
  {
    hide Reaches, PathWith, Scopes, Inlined, With, BreakVia;
    var up := Up(level, w);
    if level == 0 {
      NoneInlined([Nothing] + Epis(path));
      NoneInlined([Nothing] + Epis(wide));
    } else {
      InlinedWith(path, wide, w, level);
    }
    ViaWith(Inlined([Nothing] + Epis(path), level), Inlined([Nothing] + Epis(wide), up), level, w);
  }

  lemma NoneInlined(epis: seq<Epi>)
    ensures Inlined(epis, 0) == []
  {
  }

  lemma ViaWith(cs: seq<Tree>, xs: seq<Tree>, level: nat, w: seq<nat>)
    requires |w| > 0 && |cs| == |xs|
    requires forall k :: 0 <= k < |cs| ==> With(cs[k], xs[k], [0] + w)
    ensures With(BreakVia(cs, level), BreakVia(xs, Up(level, w)), w)
  {
    hide With, Up;
    RaisedBreak(level, w);
    if |cs| > 0 {
      RaisedBreak(level + 1, [0] + w);
      UpInScope(level, w);
      SequenceWith(cs, xs, Break(level + 1), Break(Up(level, w) + 1), [0] + w);
      ScopeWith(Sequence(cs, Break(level + 1)), Sequence(xs, Break(Up(level, w) + 1)), w);
    }
  }

  lemma RaisedBreak(level: nat, w: seq<nat>)
    requires |w| > 0
    ensures With(Break(level), Break(Up(level, w)), w)
  {
  }

  lemma UpInScope(l: nat, w: seq<nat>)
    ensures Up(l + 1, [0] + w) == Up(l, w) + 1
  {
    assert ([0] + w)[1..] == w;
  }

  lemma ScopeWith(ch: Chain, dh: Chain, w: seq<nat>)
    requires |w| > 0 && WithChain(ch, dh, [0] + w)
    ensures With(Many(ch), Many(dh), w)
  {
  }

  // ----- closed trees do not see what is around -----

  lemma {:induction false} UpInside(l: nat, near: seq<nat>, far: seq<nat>, far2: seq<nat>)
    requires |far| > 0 && |far2| > 0 && l <= |near|
    ensures Up(l, near + far) == Up(l, near + far2)
    decreases |near|
  {
    if l > 0 {
      assert (near + far)[1..] == near[1..] + far && (near + far2)[1..] == near[1..] + far2;
      UpInside(l - 1, near[1..], far, far2);
    }
  }

  /** A tree whose breaks stay inside the near scopes. */
  lemma {:induction false} WithAnywhere(t: Tree, u: Tree, near: seq<nat>, far: seq<nat>, far2: seq<nat>)
    requires |far| > 0 && |far2| > 0 && Escapes(t, |near|) && With(t, u, near + far)
    ensures With(t, u, near + far2)
    decreases Size(u)
  {
    hide Quiet, Up;
    assert [0] + (near + far) == ([0] + near) + far && [0] + (near + far2) == ([0] + near) + far2;
    if Probing(u) && (SmallerInside(u); With(t, u.kids.rest.cur, Bump(near + far))) {
      if |near| == 0 {
        assert near + far == far && near + far2 == far2 && near + Bump(far) == Bump(far) && near + Bump(far2) == Bump(far2);
        WithAnywhere(t, u.kids.rest.cur, near, Bump(far), Bump(far2));
      } else {
        assert Bump(near + far) == Bump(near) + far && Bump(near + far2) == Bump(near) + far2;
        WithAnywhere(t, u.kids.rest.cur, Bump(near), far, far2);
      }
    } else {
      match t
      case Defer(next, cleanup) =>
        WithAnywhere(next, u.next, [0] + near, far, far2);
        WithAnywhere(cleanup, u.cleanup, [0] + near, far, far2);
      case Many(kids) => WithChainAnywhere(kids, u.kids, [0] + near, far, far2);
      case CrashPad(body, pad) => WithAnywhere(body, u.body, near, far, far2); WithAnywhere(pad, u.pad, near, far, far2);
      case Branch(_, yes, no) => WithAnywhere(yes, u.yes, near, far, far2); WithAnywhere(no, u.no, near, far, far2);
      case Loop(body) => WithAnywhere(body, u.body, [0] + near, far, far2);
      case Var(_, body) => WithAnywhere(body, u.body, [0] + near, far, far2);
      case Break(level) => UpInside(level, near, far, far2);
      case _ =>
    }
  }

  lemma {:induction false} WithChainAnywhere(ch: Chain, dh: Chain, near: seq<nat>, far: seq<nat>, far2: seq<nat>)
    requires |far| > 0 && |far2| > 0 && ChainEscapes(ch, |near|) && WithChain(ch, dh, near + far)
    ensures WithChain(ch, dh, near + far2)
    decreases ChainSize(dh)
  {
    hide With;
    if ch.Link? {
      WithAnywhere(ch.cur, dh.cur, near, far, far2);
      WithChainAnywhere(ch.rest, dh.rest, near, far, far2);
    }
  }

  // ----- the main induction -----

  /** A block and its probed form, in surroundings that go together, are lowered to a block and
      its probed form. */
  lemma {:induction false} LowerWith(t: Tree, name: Names, at: seq<nat>, path: seq<Around>, wide: seq<Around>, w: seq<nat>)
    requires |w| > 0 && PathWith(path, wide, w) && Lowerable(t, path)
    ensures With(Lower(t, Epis(path)), Lower(Raise(Marked(t, name, at), w), Epis(wide)), w)
    decreases Size(t), 0
  {
    hide Reaches, Scopes, PendingUses, PathWith, Quiet, Up;
    hide Epis, WithChain;
    match t
    case Defer(next, cleanup) => DeferWith(next, cleanup, name, at, path, wide, w);
    case Many(kids) =>
      ScopeIn(path, wide, w);
      LowerChainWith(kids, name, at + [0], [InScope] + path, [InScope] + wide, [0] + w);
    case Branch(_, yes, no) =>
      PathInBranch(path, wide, w);
      EpisIn(path, InBranch);
      EpisIn(wide, InBranch);
      LowerWith(yes, name, at + [0], [InBranch] + path, [InBranch] + wide, w);
      LowerWith(no, name, at + [1], [InBranch] + path, [InBranch] + wide, w);
    case Loop(body) =>
      ScopeIn(path, wide, w);
      LowerWith(body, name, at + [0], [InScope] + path, [InScope] + wide, [0] + w);
    case Var(_, body) =>
      ScopeIn(path, wide, w);
      LowerWith(body, name, at + [0], [InScope] + path, [InScope] + wide, [0] + w);
    case Break(level) => BreakWith(path, wide, w, level);
    case _ =>
  }

  lemma EpisIn(path: seq<Around>, e: Around)
    requires !e.InNext?
    ensures Epis([e] + path) == [Nothing] + Epis(path)
  {
    assert ([e] + path)[1..] == path;
  }

  lemma ScopeIn(path: seq<Around>, wide: seq<Around>, w: seq<nat>)
    requires |w| > 0 && PathWith(path, wide, w)
    ensures PathWith([InScope] + path, [InScope] + wide, [0] + w)
    ensures Epis([InScope] + path) == [Nothing] + Epis(path) && Epis([InScope] + wide) == [Nothing] + Epis(wide)
  {
    PathIn(path, wide, w, InScope, InScope);
    EpisIn(path, InScope);
    EpisIn(wide, InScope);
  }

  lemma {:induction false} LowerChainWith(ch: Chain, name: Names, at: seq<nat>, path: seq<Around>, wide: seq<Around>, w: seq<nat>)
    requires |w| > 0 && PathWith(path, wide, w) && ChainLowerable(ch, path)
    ensures WithChain(LowerChain(ch, Epis(path)), LowerChain(RaiseChain(MarkedChain(ch, name, at), w), Epis(wide)), w)
    decreases ChainSize(ch), 0
  {
    hide With, PathWith, Lower, Lowerable, Raise;
    if ch.Link? {
      LowerWith(ch.cur, name, at + [0], path, wide, w);
      LowerChainWith(ch.rest, name, at + [1], path, wide, w);
    }
  }

  /** A cleanup, in any place. */
  lemma {:induction false} ProbedCleanup(c: Tree, name: Names, at: seq<nat>, tag: nat)
    requires Closed(c) && Lowerable(c, [])
    ensures CleanupWith(c, Behind(tag, Marked(c, name, at)))
    ensures Closed(Behind(tag, Marked(c, name, at)))
    decreases Size(c), 1
  {
    hide With, Lowerable, Quiet;
    var m := Marked(c, name, at);
    var x := Lower(m, []);
    MarkedEscapes(c, name, at, 0);
    ShiftNothing(m, 0);
    EscapesMore(m, 0, 1);
    BehindCloses(tag, m);
    LowerWith(c, name, at, [], [], [0]);
    RaiseNothing(m, [0]);
    assert Epis([]) == [];
    LoweredPads(c, [], [], 0);
    ClosedLowersAlike(m, [Nothing]);
    BehindLowered(tag, m, []);
    assert [Nothing] + [] == [Nothing];
    forall w: seq<nat> | |w| > 0 ensures With(Lower(c, []), Lower(Behind(tag, m), []), w) {
      var v := Bump(w);
      assert [] + [0] == [0] && [] + v == v;
      WithAnywhere(Lower(c, []), x, [], [0], v);
      WithBehind(Lower(c, []), tag, x, w);
    }
  }

  lemma BehindCloses(tag: nat, t: Tree)
    requires Escapes(t, 1) && Shift(t, 0) == t
    ensures Closed(Behind(tag, t))
  {
    assert ChainEscapes(Link(t, End), 1);
  }

  lemma BehindLowered(tag: nat, t: Tree, epis: seq<Epi>)
    ensures Lower(Many(Link(Basic([Null(tag)]), Link(t, End))), epis)
         == Many(Link(Basic([Null(tag)]), Link(Lower(t, [Nothing] + epis), End)))
  {
    var below := [Nothing] + epis;
    var rest := Link(t, End);
    assert LowerChain(End, below) == End;
    assert LowerChain(rest, below) == Link(Lower(t, below), End);
    assert LowerChain(Link(Basic([Null(tag)]), rest), below) == Link(Basic([Null(tag)]), LowerChain(rest, below));
  }

  lemma {:induction false} DeferWith(next: Tree, c: Tree, name: Names, at: seq<nat>, path: seq<Around>, wide: seq<Around>, w: seq<nat>)
    requires |w| > 0 && PathWith(path, wide, w) && Lowerable(Defer(next, c), path)
    ensures With(Lower(Defer(next, c), Epis(path)), Lower(Raise(Marked(Defer(next, c), name, at), w), Epis(wide)), w)
    decreases Size(next) + Size(c), 2
  {
    hide Reaches, Scopes, PendingUses, PathWith, Quiet, Up, With, CleanupWith;
    var tag, w1 := 2 * name(at), [0] + w;
    var m, x := Marked(next, name, at + [0]), Behind(2 * name(at) + 1, Marked(c, name, at + [1]));
    ProbedCleanup(c, name, at + [1], tag + 1);
    var path1, wide1 := [InNext(c)] + path, [InNext(x)] + wide;
    PathIn(path, wide, w, InNext(c), InNext(x));
    PathBehind(path1, wide1, w1);
    LowerWith(next, name, at + [0], path1, [InScope] + wide1, Bump(w1));
    var l, y := Lower(next, Epis(path1)), Lower(Raise(m, Bump(w1)), Epis([InScope] + wide1));
    RaiseBehind(tag, m, w1);
    ClosedRaised(x, w1);
    BehindLowered(tag, Raise(m, Bump(w1)), Epis(wide1));
    assert Epis([InScope] + wide1) == [Nothing] + Epis(wide1);
    WithBehind(l, tag, y, w1);
    ClosedLowersAlike(c, [Nothing] + Epis(path));
    ClosedLowersAlike(x, [Nothing] + Epis(wide));
    var lc, lx := Lower(c, []), Lower(x, []);
    DeferLowered(next, c, Epis(path));
    DeferLowered(Raise(Behind(tag, m), w1), x, Epis(wide));
    assert Epis(path1) == [Pending(lc)] + Epis(path) && Epis(wide1) == [Pending(lx)] + Epis(wide);
    assert CleanupWith(c, x);
    CleanupIn(c, x, w1);
    ManyWith(l, lc, Many(Link(Basic([Null(tag)]), Link(y, End))), lx, w);
  }

  lemma CleanupIn(c: Tree, x: Tree, w: seq<nat>)
    requires |w| > 0 && CleanupWith(c, x)
    ensures With(Lower(c, []), Lower(x, []), w)
  {
  }

  /** The lowered form of a defer, probed. */
  lemma ManyWith(l: Tree, c: Tree, y: Tree, x: Tree, w: seq<nat>)
    requires |w| > 0 && With(l, y, [0] + w) && With(c, x, [0] + w)
    ensures With(Many(Link(CrashPad(l, c), Link(c, End))), Many(Link(CrashPad(y, x), Link(x, End))), w)
  {
    assert With(CrashPad(l, c), CrashPad(y, x), [0] + w);
    assert WithChain(End, End, [0] + w);
    assert WithChain(Link(c, End), Link(x, End), [0] + w);
    assert WithChain(Link(CrashPad(l, c), Link(c, End)), Link(CrashPad(y, x), Link(x, End)), [0] + w);
  }

  lemma {:induction false} ClosedRaisedIn(t: Tree, near: seq<nat>, far: seq<nat>)
    requires |far| > 0 && (|near| > 0 ==> Zeros(near)) && Escapes(t, |near|)
    ensures Raise(t, near + far) == t
    decreases Size(t)
  {
    assert [0] + (near + far) == ([0] + near) + far;
    match t
    case Break(level) => UpInside(level, near, far, [0]); UpZeros(level, near + [0]);
    case Defer(next, cleanup) => ClosedRaisedIn(next, [0] + near, far); ClosedRaisedIn(cleanup, [0] + near, far);
    case Many(kids) => ClosedChainRaised(kids, [0] + near, far);
    case CrashPad(body, pad) => ClosedRaisedIn(body, near, far); ClosedRaisedIn(pad, near, far);
    case Branch(_, yes, no) => ClosedRaisedIn(yes, near, far); ClosedRaisedIn(no, near, far);
    case Loop(body) => ClosedRaisedIn(body, [0] + near, far);
    case Var(_, body) => ClosedRaisedIn(body, [0] + near, far);
    case _ =>
  }

  lemma {:induction false} ClosedChainRaised(ch: Chain, near: seq<nat>, far: seq<nat>)
    requires |far| > 0 && (|near| > 0 ==> Zeros(near)) && ChainEscapes(ch, |near|)
    ensures RaiseChain(ch, near + far) == ch
    decreases ChainSize(ch)
  {
    if ch.Link? { ClosedRaisedIn(ch.cur, near, far); ClosedChainRaised(ch.rest, near, far); }
  }

  lemma ClosedRaised(t: Tree, w: seq<nat>)
    requires |w| > 0 && Closed(t)
    ensures Raise(t, w) == t
  {
    assert [] + w == w;
    ClosedRaisedIn(t, [], w);
  }

  // ----- programs -----

  /** The lowered form of the probed program is the lowered form of the program, with probes. */
  lemma LoweredProgramWith(p: Program, name: Names)
    requires ProgramLowerable(p)
    ensures ProgramWith(LowerProgram(p), LowerProgram(MarkedProgram(p, name)))
  {
    hide With, Marked, Lower, Lowerable;
    var q, r := LowerProgram(p), LowerProgram(MarkedProgram(p, name));
    forall i | 0 <= i < |p.funcs| ensures r.funcs[i] == q.funcs[i].(body := r.funcs[i].body) && With(q.funcs[i].body, r.funcs[i].body, [0]) {
      MarkedIs(p, name, i);
      LowerWith(p.funcs[i].body, name, [i], [], [], [0]);
      RaiseNothing(Marked(p.funcs[i].body, name, [i]), [0]);
      assert Epis([]) == [];
    }
  }

  /** Probing before the lowering changes only the trace of the lowered program. */
  lemma LoweredFuncAlike(fuel: nat, p: Program, name: Names, fn: nat, d: Data, e: Data)
    requires ProgramLowerable(p) && fn < |p.funcs| && Argc(p.funcs[fn].sig) <= |d.params| && Like(d, e)
    ensures Alike(RunFunc(fuel, LowerProgram(p), fn, d), RunFunc(fuel, LowerProgram(MarkedProgram(p, name)), fn, e))
  {
    hide RunFunc, ProgramWith, ProgramLowerable;
    LoweredProgramWith(p, name);
    FuncAlike(fuel, LowerProgram(p), LowerProgram(MarkedProgram(p, name)), fn, d, e);
  }

  /** A torn run shows as a crash of the lowered program, if that ends at all. */
  lemma TornRunCrashes(fuel: nat, p: Program, fn: nat, d: Data)
    requires ProgramLowerable(p) && fn < |p.funcs| && Argc(p.funcs[fn].sig) <= |d.params|
    requires RunFunc(fuel, p, fn, d).out.Torn?
    ensures var s := RunFunc(fuel, LowerProgram(p), fn, d); Counted(s.out) ==> s.out.Crashed?
  {
    hide RunFunc, ProgramWith, ProgramLowerable, ProgramProbed;
    var name: Names := (at: seq<nat>) => 0;
    var q := MarkedProgram(p, name);
    EveryProgramIsProbed(p, name);
    MarkedIs(p, name, fn);
    MarkedFuncAlike(fuel, p, name, fn, d, d);
    LoweredFuncAlike(fuel, p, name, fn, d, d);
    TornRuns.FuncShows(fuel, q, fn, d);
  }

  /** The lowered program ends normally just when the program does, and then as it does. */
  lemma SucceedsAlike(fuel: nat, p: Program, fn: nat, d: Data)
    requires ProgramLowerable(p) && fn < |p.funcs| && Argc(p.funcs[fn].sig) <= |d.params|
    ensures var r, s := RunFunc(fuel, p, fn, d), RunFunc(fuel, LowerProgram(p), fn, d);
      && (s.out.Normal? <==> r.out.Normal?)
      && (r.out.Normal? ==> s == r)
  {
    hide RunFunc, ProgramLowerable;
    FuncLowers(fuel, p, fn, d);
    if RunFunc(fuel, p, fn, d).out.Torn? { TornRunCrashes(fuel, p, fn, d); }
  }
}
