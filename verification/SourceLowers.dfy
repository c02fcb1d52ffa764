/** What the frontend builds may be handed to `remove_defers`, and when its defers then keep their promise. */
module SourceLowers {
  import opened Memory
  import opened Ir
  import opened FlatBlocks
  import opened BlockTree
  import opened FrontendState
  import opened FrontendSteps
  import opened FrontendCovers
  import opened FrontendJumps
  import opened FrontendRuns
  import opened FrontendNeat
  import opened FrontendWhole
  import FrontendTrees
  import opened Lowering
  import opened DeferRemover
  import opened FrontendSpoils
  import opened SourceTree
  import opened SourceCover

  /** No variable is declared while a cleanup that uses it is pending. */
  predicate VarsFresh(t: Tree, path: seq<Around>)
    decreases Size(t)
  {
    match t
    case Defer(next, cleanup) => VarsFresh(cleanup, []) && VarsFresh(next, [InNext(cleanup)] + path)
    case Many(kids) => ChainFresh(kids, [InScope] + path)
    case Branch(_, yes, no) => VarsFresh(yes, [InBranch] + path) && VarsFresh(no, [InBranch] + path)
    case Loop(body) => VarsFresh(body, [InScope] + path)
    case Var(v, body) => v !in PendingUses(path) && VarsFresh(body, [InScope] + path)
    case _ => true
  }

  predicate ChainFresh(ch: Chain, path: seq<Around>)
    decreases ChainSize(ch)
  {
    ch.Link? ==> VarsFresh(ch.cur, path) && ChainFresh(ch.rest, path)
  }

  /** Every break runs all the cleanups that it leaves. */
  ghost predicate BreaksCover(bs: seq<Block>) {
    forall i :: 0 <= i < |bs| && bs[i].BBreak? ==> exists j: Jump :: Lands(bs, j) && EndOf(j) == i && j.covers
  }

  ghost predicate Built(bs: seq<Block>, ops: seq<Op>, w: seq<nat>) {
    Fit(bs, w) && Neat(bs, |ops|) && BreaksLand(bs) && !bs[w[|w| - 1]].BChain?
  }

  lemma BuiltBelow(bs: seq<Block>, ops: seq<Op>, w: seq<nat>, b: nat)
    requires Built(bs, ops, w) && Hangs(bs, w[|w| - 1], b)
    ensures |w| < |bs| && Built(bs, ops, w + [b]) && Below(bs, ops, w, b) == Unfold(bs, ops, w + [b])
  {
    hide Fit, Neat, BreaksLand, Child, Unfold;
    LastInside(bs, w);
    FitSnoc(bs, w, b);
  }

  /** The blocks that hang below block a. */
  predicate ChildrenNeat(bs: seq<Block>, a: nat)
    requires a < |bs|
  {
    match bs[a]
    case BDefer(next, cleanup) => Hangs(bs, a, next) && Hangs(bs, a, cleanup) && next != cleanup
    case BMany(cur, next) => Hangs(bs, a, cur) && ChainEnds(bs, next, 2)
    case BBranch(_, yes, no) => Hangs(bs, a, yes) && Hangs(bs, a, no)
    case BLoop(body) => Hangs(bs, a, body)
    case BVar(_, body) => Hangs(bs, a, body)
    case BCrashPad(_, _) => false
    case BChain(_, _) => false
    case _ => true
  }

  predicate Hangs(bs: seq<Block>, a: nat, b: nat) { Runs(bs, b) && Child(bs, a, b) }

  lemma NeatChildren(bs: seq<Block>, ops: seq<Op>, w: seq<nat>)
    requires Built(bs, ops, w)
    ensures w[|w| - 1] < |bs| && ChildrenNeat(bs, w[|w| - 1])
  {
    hide Fit, Neat, BreaksLand, ChainEnds;
    LastInside(bs, w);
    NeatAt(bs, |ops|, w[|w| - 1]);
  }

  lemma KidsAreChildren(bs: seq<Block>, a: nat, cur: nat, next: nat)
    requires a < |bs| && bs[a] == BMany(cur, next)
    ensures forall b :: InChain(bs, next, b, 2) ==> Child(bs, a, b)
  {
  }

  lemma BuiltFit(bs: seq<Block>, ops: seq<Op>, w: seq<nat>)
    requires Built(bs, ops, w)
    ensures Fit(bs, w)
  {
  }

  /** How deep the child of the last block on the way is. */
  lemma Deeper(bs: seq<Block>, w: seq<nat>, b: nat, q: nat)
    requires |w| > 0 && q < |w| && w[|w| - 1] < |bs|
    ensures (w + [b])[..|w|] == w && (w + [b])[..q] == w[..q]
    ensures Depth(bs, (w + [b])[..|w|]) == Depth(bs, w[..|w| - 1]) + (if Counted(bs[w[|w| - 1]]) then 1 else 0)
  {
    assert w == w[..|w| - 1] + [w[|w| - 1]];
    DepthSnoc(bs, w[..|w| - 1], w[|w| - 1]);
  }

  // ----- cleanups contain their breaks -----

  /** How many levels a break at the end of the way may leave without leaving the block at q. */
  function Room(bs: seq<Block>, w: seq<nat>, q: nat): nat
    requires |w| > 0 && q < |w|
  {
    DepthGrows(bs, w, q, |w| - 1);
    Depth(bs, w[..|w| - 1]) - Depth(bs, w[..q])
  }

  predicate CleanupAt(bs: seq<Block>, w: seq<nat>, q: nat) { 0 < q < |w| && IntoCleanup(bs, w[q - 1], w[q]) }

  lemma {:induction false} StaysInside(bs: seq<Block>, ops: seq<Op>, w: seq<nat>, q: nat)
    requires Built(bs, ops, w) && CleanupAt(bs, w, q)
    ensures Escapes(Unfold(bs, ops, w), Room(bs, w, q))
    decreases |bs| - |w| + 1, 3, 0
  {
    hide Fit, Neat, BreaksLand, ChainEnds, Child, InChain, Depth, Below, Rest;
    LastInside(bs, w);
    WayIsShort(bs, w);
    NeatChildren(bs, ops, w);
    var n := Room(bs, w, q);
    match bs[w[|w| - 1]]
    case BDefer(next, cleanup) => StaysBelow(bs, ops, w, next, q); StaysBelow(bs, ops, w, cleanup, q);
    case BMany(cur, next) => StaysBelow(bs, ops, w, cur, q); KidsAreChildren(bs, w[|w| - 1], cur, next); StaysInRest(bs, ops, w, next, 2, q);
    case BBranch(_, yes, no) => StaysBelow(bs, ops, w, yes, q); StaysBelow(bs, ops, w, no, q);
    case BLoop(body) => StaysBelow(bs, ops, w, body, q);
    case BVar(_, body) => StaysBelow(bs, ops, w, body, q);
    case BBreak(level) => BreakStaysInside(bs, w, q);
    case _ =>
  }

  lemma {:induction false} StaysBelow(bs: seq<Block>, ops: seq<Op>, w: seq<nat>, b: nat, q: nat)
    requires Built(bs, ops, w) && Hangs(bs, w[|w| - 1], b) && CleanupAt(bs, w, q)
    ensures Escapes(Below(bs, ops, w, b), Room(bs, w, q) + (if Counted(bs[w[|w| - 1]]) then 1 else 0))
    decreases |bs| - |w| + 1, 1, 0
  {
    hide Built, Child, Depth, Below, Unfold, Counted;
    BuiltFit(bs, ops, w);
    LastInside(bs, w);
    WayIsShort(bs, w);
    BuiltBelow(bs, ops, w, b);
    Deeper(bs, w, b, q);
    StaysInside(bs, ops, w + [b], q);
  }

  lemma {:induction false} StaysInRest(bs: seq<Block>, ops: seq<Op>, w: seq<nat>, next: nat, links: nat, q: nat)
    requires Built(bs, ops, w) && ChainEnds(bs, next, links) && CleanupAt(bs, w, q)
    requires bs[w[|w| - 1]].BMany? && forall b :: InChain(bs, next, b, links) ==> Child(bs, w[|w| - 1], b)
    ensures ChainEscapes(Rest(bs, ops, w, next, links), Room(bs, w, q) + 1)
    decreases |bs| - |w| + 1, 2, links
  {
    hide Fit, Neat, BreaksLand, Child, Depth, Below;
    LastInside(bs, w);
    WayIsShort(bs, w);
    if next != INVALID {
      assert InChain(bs, next, bs[next].cur, links);
      StaysBelow(bs, ops, w, bs[next].cur, q);
      var further, fewer: nat := bs[next].next, links - 1;
      forall b | InChain(bs, further, b, fewer) ensures Child(bs, w[|w| - 1], b) { assert InChain(bs, next, b, links); }
      StaysInRest(bs, ops, w, further, fewer, q);
    }
  }

  // ----- when the tree may be lowered -----

  lemma PathBelow(bs: seq<Block>, ops: seq<Op>, w: seq<nat>, b: nat)
    requires Fit(bs, w) && Fit(bs, w + [b])
    ensures Path(bs, ops, w + [b]) == if IntoCleanup(bs, w[|w| - 1], b) then [] else [Surrounding(bs, ops, w)] + Path(bs, ops, w)
  {
    hide Fit, Below;
    LastInside(bs, w);
    assert (w + [b])[..|w + [b]| - 1] == w;
  }

  lemma {:induction false} LowerableIff(bs: seq<Block>, ops: seq<Op>, w: seq<nat>)
    requires Built(bs, ops, w) && BreaksCover(bs)
    ensures Lowerable(Unfold(bs, ops, w), Path(bs, ops, w)) <==> VarsFresh(Unfold(bs, ops, w), Path(bs, ops, w))
    decreases |bs| - |w| + 1, 3, 0
  {
    hide BreaksCover, Fit, Neat, BreaksLand, ChainEnds, Child, InChain, Depth, Below, Rest, Path, Reaches, PendingUses;
    LastInside(bs, w);
    WayIsShort(bs, w);
    NeatChildren(bs, ops, w);
    var around := Path(bs, ops, w);
    match bs[w[|w| - 1]]
    case BDefer(next, cleanup) =>
      LowerableBelow(bs, ops, w, next, [InNext(Below(bs, ops, w, cleanup))] + around);
      LowerableBelow(bs, ops, w, cleanup, []);
      CleanupClosed(bs, ops, w);
    case BMany(cur, next) =>
      LowerableBelow(bs, ops, w, cur, [InScope] + around);
      KidsAreChildren(bs, w[|w| - 1], cur, next);
      LowerableRest(bs, ops, w, next, 2);
    case BBranch(_, yes, no) =>
      LowerableBelow(bs, ops, w, yes, [InBranch] + around);
      LowerableBelow(bs, ops, w, no, [InBranch] + around);
    case BLoop(body) => LowerableBelow(bs, ops, w, body, [InScope] + around);
    case BVar(_, body) => LowerableBelow(bs, ops, w, body, [InScope] + around);
    case BBreak(level) =>
      BreakStaysInside(bs, w, Root(bs, w));
      ScopesAre(bs, ops, w);
      CoveredReaches(bs, ops, w);
    case _ =>
  }

  lemma {:induction false} LowerableBelow(bs: seq<Block>, ops: seq<Op>, w: seq<nat>, b: nat, around: seq<Around>)
    requires Built(bs, ops, w) && BreaksCover(bs) && Hangs(bs, w[|w| - 1], b)
    requires around == if IntoCleanup(bs, w[|w| - 1], b) then [] else [Surrounding(bs, ops, w)] + Path(bs, ops, w)
    ensures Lowerable(Below(bs, ops, w, b), around) <==> VarsFresh(Below(bs, ops, w, b), around)
    decreases |bs| - |w| + 1, 1, 0
  {
    hide BreaksCover, Built, Child, Below, Unfold, Lowerable, VarsFresh, Path, Surrounding;
    BuiltFit(bs, ops, w);
    WayIsShort(bs, w);
    BuiltBelow(bs, ops, w, b);
    PathBelow(bs, ops, w, b);
    LowerableIff(bs, ops, w + [b]);
  }

  lemma {:induction false} LowerableRest(bs: seq<Block>, ops: seq<Op>, w: seq<nat>, next: nat, links: nat)
    requires Built(bs, ops, w) && BreaksCover(bs) && ChainEnds(bs, next, links)
    requires bs[w[|w| - 1]].BMany? && forall b :: InChain(bs, next, b, links) ==> Child(bs, w[|w| - 1], b)
    ensures ChainLowerable(Rest(bs, ops, w, next, links), [InScope] + Path(bs, ops, w))
       <==> ChainFresh(Rest(bs, ops, w, next, links), [InScope] + Path(bs, ops, w))
    decreases |bs| - |w| + 1, 2, links
  {
    hide BreaksCover, Fit, Neat, BreaksLand, Child, Below, Path, Lowerable, VarsFresh;
    LastInside(bs, w);
    WayIsShort(bs, w);
    if next != INVALID {
      assert InChain(bs, next, bs[next].cur, links);
      LowerableBelow(bs, ops, w, bs[next].cur, [InScope] + Path(bs, ops, w));
      var further, fewer: nat := bs[next].next, links - 1;
      forall b | InChain(bs, further, b, fewer) ensures Child(bs, w[|w| - 1], b) { assert InChain(bs, next, b, links); }
      LowerableRest(bs, ops, w, further, fewer);
    }
  }

  /** The verdict about a break is whether it reaches its cleanups. */
  lemma JumpReaches(bs: seq<Block>, ops: seq<Op>, j: Jump)
    requires Fit(bs, j.way) && Lands(bs, j)
    ensures Reaches(Path(bs, ops, j.way), bs[EndOf(j)].level) <==> j.covers
  {
    hide Fit, WayCovers, Path, Reaches, Depth, Target, Way;
    var q, p := Root(bs, j.way), if j.again then j.loop + 1 else j.loop;
    if q > 0 { CleanupOutside(bs, j, q); }
    ReachesOnWay(bs, ops, j.way, p, bs[EndOf(j)].level);
  }

  lemma CoveredReaches(bs: seq<Block>, ops: seq<Op>, w: seq<nat>)
    requires Built(bs, ops, w) && BreaksCover(bs) && bs[w[|w| - 1]].BBreak?
    ensures Reaches(Path(bs, ops, w), bs[w[|w| - 1]].level)
  {
    hide Neat, BreaksLand, OneParent, WayCovers, Path, Reaches, Depth, Target;
    var j: Jump :| Lands(bs, j) && EndOf(j) == w[|w| - 1] && j.covers;
    WaysAreUnique(bs, j.way, w);
    JumpReaches(bs, ops, j);
  }

  // ----- and only then -----

  lemma {:induction false} LowerableRestDown(bs: seq<Block>, ops: seq<Op>, w: seq<nat>, next: nat, links: nat, b: nat, path: seq<Around>)
    requires Built(bs, ops, w) && ChainEnds(bs, next, links) && InChain(bs, next, b, links)
    requires ChainLowerable(Rest(bs, ops, w, next, links), path)
    ensures Lowerable(Below(bs, ops, w, b), path)
    decreases links
  {
    hide Fit, Neat, BreaksLand, Child, Below, Lowerable;
    LastInside(bs, w);
    WayIsShort(bs, w);
    if b != bs[next].cur { LowerableRestDown(bs, ops, w, bs[next].next, links - 1, b, path); }
  }

  /** What is below a lowerable block is lowerable in its place. */
  lemma LowerableDown(bs: seq<Block>, ops: seq<Op>, w: seq<nat>, b: nat)
    requires Built(bs, ops, w) && Hangs(bs, w[|w| - 1], b) && Lowerable(Unfold(bs, ops, w), Path(bs, ops, w))
    ensures |w| < |bs| && Built(bs, ops, w + [b]) && Lowerable(Unfold(bs, ops, w + [b]), Path(bs, ops, w + [b]))
  {
    hide Fit, Neat, BreaksLand, ChainEnds, Below, Rest, Path, Reaches, PendingUses, InChain;
    LastInside(bs, w);
    WayIsShort(bs, w);
    NeatChildren(bs, ops, w);
    BuiltBelow(bs, ops, w, b);
    PathBelow(bs, ops, w, b);
    if bs[w[|w| - 1]].BMany? && b != bs[w[|w| - 1]].cur {
      LowerableRestDown(bs, ops, w, bs[w[|w| - 1]].next, 2, b, [InScope] + Path(bs, ops, w));
    }
  }

  lemma ChildRuns(bs: seq<Block>, nops: nat, a: nat, b: nat)
    requires Neat(bs, nops) && Child(bs, a, b)
    ensures Runs(bs, b)
  {
    NeatAt(bs, nops, a);
  }

  lemma {:induction false} LowerableAlong(bs: seq<Block>, ops: seq<Op>, w: seq<nat>, n: nat)
    requires Built(bs, ops, [0]) && Lowerable(Unfold(bs, ops, [0]), Path(bs, ops, [0])) && Way(bs, w) && 0 < n <= |w|
    ensures Built(bs, ops, w[..n]) && Lowerable(Unfold(bs, ops, w[..n]), Path(bs, ops, w[..n]))
    decreases n
  {
    hide Fit, BreaksLand, Child, Lowerable, Unfold, Path, Neat;
    if n == 1 {
      assert w[..1] == [0];
    } else {
      LowerableAlong(bs, ops, w, n - 1);
      assert Child(bs, w[n - 2], w[n - 2 + 1]);
      ChildRuns(bs, |ops|, w[n - 2], w[n - 1]);
      LowerableDown(bs, ops, w[..n - 1], w[n - 1]);
      assert w[..n] == w[..n - 1] + [w[n - 1]];
    }
  }

  lemma LowerableCovers(bs: seq<Block>, ops: seq<Op>, j: Jump)
    requires Built(bs, ops, [0]) && Lowerable(Unfold(bs, ops, [0]), Path(bs, ops, [0])) && Lands(bs, j)
    ensures j.covers
  {
    hide Fit, BreaksLand, Child, Unfold, Path, Neat, Depth, Target, WayCovers, Reaches, Way;
    LowerableAlong(bs, ops, j.way, |j.way|);
    assert j.way[..|j.way|] == j.way;
    BreakLowerable(bs, ops, j.way);
    JumpReaches(bs, ops, j);
  }

  lemma BreakLowerable(bs: seq<Block>, ops: seq<Op>, w: seq<nat>)
    requires Built(bs, ops, w) && bs[w[|w| - 1]].BBreak? && Lowerable(Unfold(bs, ops, w), Path(bs, ops, w))
    ensures Reaches(Path(bs, ops, w), bs[w[|w| - 1]].level)
  {
    hide Fit, BreaksLand, Path, Reaches, Neat;
    WayIsShort(bs, w);
  }

  /** No break in a cleanup leaves it. */
  lemma CleanupClosed(bs: seq<Block>, ops: seq<Op>, w: seq<nat>)
    requires Built(bs, ops, w) && bs[w[|w| - 1]].BDefer?
    ensures Closed(Below(bs, ops, w, bs[w[|w| - 1]].cleanup))
  {
    hide Built, Child, Below, Unfold, Depth;
    BuiltFit(bs, ops, w);
    LastInside(bs, w);
    NeatChildren(bs, ops, w);
    var c := bs[w[|w| - 1]].cleanup;
    BuiltBelow(bs, ops, w, c);
    StaysInside(bs, ops, w + [c], |w|);
  }

  // ----- what remove_defers takes for granted -----

  lemma {:induction false} AcceptableUnfold(bs: seq<Block>, ops: seq<Op>, w: seq<nat>)
    requires Built(bs, ops, w)
    ensures Acceptable(Unfold(bs, ops, w), |w| - 1)
    decreases |bs| - |w| + 1, 3, 0
  {
    hide Fit, Neat, BreaksLand, ChainEnds, Child, InChain, Depth, Below, Rest;
    LastInside(bs, w);
    WayIsShort(bs, w);
    NeatChildren(bs, ops, w);
    match bs[w[|w| - 1]]
    case BDefer(next, cleanup) => AcceptableBelow(bs, ops, w, next); AcceptableBelow(bs, ops, w, cleanup);
    case BMany(cur, next) => AcceptableBelow(bs, ops, w, cur); KidsAreChildren(bs, w[|w| - 1], cur, next); AcceptableRest(bs, ops, w, next, 2);
    case BBranch(_, yes, no) => AcceptableBelow(bs, ops, w, yes); AcceptableBelow(bs, ops, w, no);
    case BLoop(body) => AcceptableBelow(bs, ops, w, body);
    case BVar(_, body) => AcceptableBelow(bs, ops, w, body);
    case BBreak(level) => BreakStaysInside(bs, w, 0);
    case _ =>
  }

  lemma {:induction false} AcceptableBelow(bs: seq<Block>, ops: seq<Op>, w: seq<nat>, b: nat)
    requires Built(bs, ops, w) && Hangs(bs, w[|w| - 1], b)
    ensures Acceptable(Below(bs, ops, w, b), |w|)
    decreases |bs| - |w| + 1, 1, 0
  {
    hide Built, Child, Below, Unfold, Acceptable;
    BuiltFit(bs, ops, w);
    WayIsShort(bs, w);
    BuiltBelow(bs, ops, w, b);
    AcceptableUnfold(bs, ops, w + [b]);
  }

  lemma {:induction false} AcceptableRest(bs: seq<Block>, ops: seq<Op>, w: seq<nat>, next: nat, links: nat)
    requires Built(bs, ops, w) && ChainEnds(bs, next, links)
    requires forall b :: InChain(bs, next, b, links) ==> Child(bs, w[|w| - 1], b)
    ensures ChainAcceptable(Rest(bs, ops, w, next, links), |w|)
    decreases |bs| - |w| + 1, 2, links
  {
    hide Fit, Neat, BreaksLand, Child, Below, Acceptable;
    LastInside(bs, w);
    WayIsShort(bs, w);
    if next != INVALID {
      assert InChain(bs, next, bs[next].cur, links);
      AcceptableBelow(bs, ops, w, bs[next].cur);
      var further, fewer: nat := bs[next].next, links - 1;
      forall b | InChain(bs, further, b, fewer) ensures Child(bs, w[|w| - 1], b) { assert InChain(bs, next, b, links); }
      AcceptableRest(bs, ops, w, further, fewer);
    }
  }

  // ----- whole sources -----

  lemma SourceBuilt(words: seq<Token>, ntypes: nat) returns (jumps: seq<Jump>)
    requires InRange(START) && Clean(START, words, ntypes) && Compiled(START, words, ntypes).Some?
    requires |Compiled(START, words, ntypes).value.blocks| <= INVALID
    ensures var t := Compiled(START, words, ntypes).value; Built(t.blocks, t.ops, [0]) && JumpsOf(t.blocks, jumps)
    ensures |jumps| == |AllMakes(START, words, ntypes)|
    ensures forall k :: 0 <= k < |jumps| ==> jumps[k].covers == AllMakes(START, words, ntypes)[k].covers
  {
    hide Neat, Lands, Total, Of, Clean, Compiled, Reached, AllMakes;
    var t := Compiled(START, words, ntypes).value;
    FrontendTrees.CleanIsUnbroken(START, words, ntypes);
    FrontendTrees.SourceIsTree(words, ntypes);
    SourceGood(words, ntypes);
    jumps := EveryJumpLands(words, ntypes);
    LandAll(t.blocks, jumps);
    RootRuns(t.blocks, |t.ops|);
  }

  /** These are the breaks of the array. */
  ghost predicate JumpsOf(bs: seq<Block>, jumps: seq<Jump>) {
    (forall k :: 0 <= k < |jumps| ==> Lands(bs, jumps[k])) && forall i :: 0 <= i < |bs| && bs[i].BBreak? ==> Ends(jumps, i)
  }

  lemma LandAll(bs: seq<Block>, jumps: seq<Jump>)
    requires JumpsOf(bs, jumps)
    ensures BreaksLand(bs)
    ensures (forall k :: 0 <= k < |jumps| ==> jumps[k].covers) ==> BreaksCover(bs)
  {
    hide Lands;
    forall i | 0 <= i < |bs| && bs[i].BBreak?
      ensures exists j: Jump :: Lands(bs, j) && EndOf(j) == i && ((forall k :: 0 <= k < |jumps| ==> jumps[k].covers) ==> j.covers)
    {
      var k :| 0 <= k < |jumps| && |jumps[k].way| > 0 && jumps[k].way[|jumps[k].way| - 1] == i;
      assert Lands(bs, jumps[k]) && EndOf(jumps[k]) == i;
    }
  }

  lemma RootRuns(bs: seq<Block>, nops: nat)
    requires Neat(bs, nops)
    ensures |bs| > 0 && !bs[0].BChain?
  {
  }

  /** From words to a tree: a compiled source stands for one tree, which `remove_defers`
      accepts and whose cleanups contain their breaks. Lowering is meant for that tree
      exactly when the scopes open at each BREAK and CONTINUE say that it runs every cleanup
      it leaves, and no variable is declared under a pending cleanup that uses it. */
  lemma SourceIsLowerable(words: seq<Token>, ntypes: nat) returns (tree: Tree)
    requires InRange(START) && Clean(START, words, ntypes) && Compiled(START, words, ntypes).Some?
    requires |Compiled(START, words, ntypes).value.blocks| <= INVALID
    ensures var t := Compiled(START, words, ntypes).value; Rep(t.blocks, t.ops, 0, tree)
    ensures Sound(tree) && Acceptable(tree, 0)
    ensures Lowerable(tree, []) <==> (forall k :: 0 <= k < |AllMakes(START, words, ntypes)| ==> AllMakes(START, words, ntypes)[k].covers) && VarsFresh(tree, [])
  {
    hide Fit, Neat, BreaksLand, BreaksCover, Lowerable, VarsFresh, Acceptable, Compiled, Clean, Unfold, Rep, Sound, AllMakes, Lands;
    var jumps := SourceBuilt(words, ntypes);
    var t := Compiled(START, words, ntypes).value;
    tree := Unfold(t.blocks, t.ops, [0]);
    RepUnfold(t.blocks, t.ops, [0]);
    AcceptableUnfold(t.blocks, t.ops, [0]);
    LandAll(t.blocks, jumps);
    if Lowerable(tree, []) {
      forall k | 0 <= k < |jumps| ensures jumps[k].covers { LowerableCovers(t.blocks, t.ops, jumps[k]); }
    }
    if forall k :: 0 <= k < |jumps| ==> jumps[k].covers { LowerableIff(t.blocks, t.ops, [0]); }
  }
}
