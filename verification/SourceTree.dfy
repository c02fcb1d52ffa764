/** The tree that the blocks of a compiled source stand for, and that it is one that lowering is meant for. */
module SourceTree {
  import opened Memory
  import opened Ir
  import opened FlatBlocks
  import opened BlockTree
  import opened FrontendState
  import opened FrontendSteps
  import opened FrontendProof
  import opened FrontendCovers
  import opened FrontendJumps
  import opened FrontendRuns
  import opened FrontendNeat
  import opened FrontendSpoils
  import opened FrontendWhole
  import opened Lowering

  // ----- ways are short -----

  ghost predicate Fit(bs: seq<Block>, w: seq<nat>) {
    OneParent(bs) && |bs| <= INVALID && Way(bs, w) && w[|w| - 1] < |bs|
  }

  lemma FitSnoc(bs: seq<Block>, w: seq<nat>, b: nat)
    requires Fit(bs, w) && Child(bs, w[|w| - 1], b) && b < |bs|
    ensures Fit(bs, w + [b]) && |w| < |bs|
  {
    hide OneParent, Child;
    WaySnoc(bs, w, b);
    WayIsShort(bs, w + [b]);
  }

  lemma WayInside(bs: seq<Block>, w: seq<nat>, i: nat)
    requires Fit(bs, w) && i < |w|
    ensures w[i] < |bs|
  {
    hide OneParent;
    if i < |w| - 1 { assert Child(bs, w[i], w[i + 1]); }
  }

  /** In a tree no way comes by the same block twice. */
  lemma NoReturn(bs: seq<Block>, w: seq<nat>, i: nat, j: nat)
    requires Fit(bs, w) && i < j < |w|
    ensures w[i] != w[j]
  {
    hide OneParent, Child;
    if w[i] == w[j] {
      WayInside(bs, w, i);
      var p, q := w[..i + 1], w[..j + 1];
      WaysAreUnique(bs, p, q);
    }
  }

  lemma {:induction false} Pigeonhole(s: seq<nat>, n: nat)
    requires forall i :: 0 <= i < |s| ==> s[i] < n
    requires forall i, j :: 0 <= i < j < |s| ==> s[i] != s[j]
    ensures |s| <= n
    decreases n
  {
    if |s| > 0 {
      assert s[0] < n;
      if k :| 0 <= k < |s| && s[k] == n - 1 {
        Pigeonhole(s[..k] + s[k + 1..], n - 1);
      } else {
        Pigeonhole(s, n - 1);
      }
    }
  }

  lemma WayIsShort(bs: seq<Block>, w: seq<nat>)
    requires Fit(bs, w)
    ensures |w| <= |bs|
  {
    hide Fit;
    forall i | 0 <= i < |w| ensures w[i] < |bs| { WayInside(bs, w, i); }
    forall i, j | 0 <= i < j < |w| ensures w[i] != w[j] { NoReturn(bs, w, i, j); }
    Pigeonhole(w, |bs|);
  }

  // ----- unfolding -----

  function Selected(ops: seq<Op>, r: Range): seq<Op> {
    if r.start + r.len <= |ops| then ops[r.start..r.start + r.len] else []
  }

  /** The tree at the end of a way. */
  ghost function Unfold(bs: seq<Block>, ops: seq<Op>, w: seq<nat>): Tree
    requires Fit(bs, w)
    decreases |bs| - |w| + 1, 3, 0
  {
    WayIsShort(bs, w);
    match bs[w[|w| - 1]]
    case BBasic(r) => Basic(Selected(ops, r))
    case BDefer(next, cleanup) => Defer(Below(bs, ops, w, next), Below(bs, ops, w, cleanup))
    case BMany(cur, next) => Many(Link(Below(bs, ops, w, cur), Rest(bs, ops, w, next, 2)))
    case BChain(_, _) => Stray
    case BCrash => SoftCrash
    case BHardCrash => HardCrash
    case BCrashPad(body, pad) => CrashPad(Missing, Missing)
    case BBranch(cond, yes, no) => Branch(Selected(ops, cond), Below(bs, ops, w, yes), Below(bs, ops, w, no))
    case BLoop(body) => Loop(Below(bs, ops, w, body))
    case BBreak(level) => Break(level)
    case BVar(v, body) => Var(v, Below(bs, ops, w, body))
  }

  ghost function Below(bs: seq<Block>, ops: seq<Op>, w: seq<nat>, b: nat): Tree
    requires Fit(bs, w)
    decreases |bs| - |w| + 1, 1, 0
  {
    WayIsShort(bs, w);
    if b < |bs| && Child(bs, w[|w| - 1], b) then FitSnoc(bs, w, b); Unfold(bs, ops, w + [b]) else Missing
  }

  /** The children from this link on. */
  ghost function Rest(bs: seq<Block>, ops: seq<Op>, w: seq<nat>, next: nat, links: nat): Chain
    requires Fit(bs, w)
    decreases |bs| - |w| + 1, 2, links
  {
    WayIsShort(bs, w);
    if next == INVALID then End
    else if links > 0 && next < |bs| && bs[next].BChain?
    then Link(Below(bs, ops, w, bs[next].cur), Rest(bs, ops, w, bs[next].next, links - 1))
    else BadLink
  }

  // ----- the block array stands for it -----

  lemma NeatAt(bs: seq<Block>, n: nat, i: nat)
    requires Neat(bs, n) && i < |bs|
    ensures NeatBlock(bs, bs[i], n)
  {
  }

  lemma {:induction false} RepUnfold(bs: seq<Block>, ops: seq<Op>, w: seq<nat>)
    requires Fit(bs, w) && Neat(bs, |ops|) && !bs[w[|w| - 1]].BChain?
    ensures Rep(bs, ops, w[|w| - 1], Unfold(bs, ops, w)) && Sound(Unfold(bs, ops, w))
    decreases |bs| - |w| + 1, 3, 0
  {
    hide Neat, Fit, ChainEnds, Way, InChain;
    LastInside(bs, w);
    WayIsShort(bs, w);
    var a := w[|w| - 1];
    NeatAt(bs, |ops|, a);
    match bs[a]
    case BDefer(next, cleanup) => RepBelow(bs, ops, w, next); RepBelow(bs, ops, w, cleanup);
    case BMany(cur, next) => RepBelow(bs, ops, w, cur); RepRestOf(bs, ops, w, next, 2);
    case BBranch(_, yes, no) => RepBelow(bs, ops, w, yes); RepBelow(bs, ops, w, no);
    case BLoop(body) => RepBelow(bs, ops, w, body);
    case BVar(_, body) => RepBelow(bs, ops, w, body);
    case _ =>
  }

  lemma LastInside(bs: seq<Block>, w: seq<nat>)
    requires Fit(bs, w)
    ensures |w| > 0 && w[|w| - 1] < |bs| <= INVALID
  {
  }

  lemma {:induction false} RepBelow(bs: seq<Block>, ops: seq<Op>, w: seq<nat>, b: nat)
    requires Fit(bs, w) && Neat(bs, |ops|) && Runs(bs, b) && Child(bs, w[|w| - 1], b)
    ensures Rep(bs, ops, b, Below(bs, ops, w, b)) && Sound(Below(bs, ops, w, b)) && b != INVALID
    decreases |bs| - |w| + 1, 1, 0
  {
    hide Neat, Fit, Child;
    LastInside(bs, w);
    WayIsShort(bs, w);
    FitSnoc(bs, w, b);
    RepUnfold(bs, ops, w + [b]);
  }

  lemma {:induction false} RepRestOf(bs: seq<Block>, ops: seq<Op>, w: seq<nat>, next: nat, links: nat)
    requires Fit(bs, w) && Neat(bs, |ops|) && ChainEnds(bs, next, links) && forall b :: InChain(bs, next, b, links) ==> Child(bs, w[|w| - 1], b)
    ensures RepRest(bs, ops, next, Rest(bs, ops, w, next, links)) && ChainSound(Rest(bs, ops, w, next, links))
    decreases |bs| - |w| + 1, 2, links
  {
    hide Neat, Fit, Child;
    LastInside(bs, w);
    WayIsShort(bs, w);
    if next != INVALID {
      assert InChain(bs, next, bs[next].cur, links);
      RepBelow(bs, ops, w, bs[next].cur);
      var further, fewer: nat := bs[next].next, links - 1;
      forall b | InChain(bs, further, b, fewer) ensures Child(bs, w[|w| - 1], b) { assert InChain(bs, next, b, links); }
      RepRestOf(bs, ops, w, further, fewer);
    }
  }

  // ----- the surroundings of a block -----

  lemma FitFront(bs: seq<Block>, w: seq<nat>)
    requires Fit(bs, w) && |w| > 1
    ensures Fit(bs, w[..|w| - 1]) && Child(bs, w[|w| - 2], w[|w| - 1])
  {
    hide OneParent, Child;
    WayInside(bs, w, |w| - 2);
    assert Child(bs, w[|w| - 2], w[|w| - 2 + 1]);
  }

  /** Whether the last block of the way is the cleanup of a DEFER. */
  predicate IntoCleanup(bs: seq<Block>, a: nat, b: nat) { a < |bs| && bs[a].BDefer? && bs[a].cleanup == b }

  /** The blocks around the last one, up to the cleanup it is in. */
  ghost function Path(bs: seq<Block>, ops: seq<Op>, w: seq<nat>): seq<Around>
    requires Fit(bs, w)
    decreases |w|
  {
    if |w| == 1 then [] else
    FitFront(bs, w);
    var front := w[..|w| - 1];
    if IntoCleanup(bs, w[|w| - 2], w[|w| - 1]) then [] else
    [Surrounding(bs, ops, front)] + Path(bs, ops, front)
  }

  ghost function Surrounding(bs: seq<Block>, ops: seq<Op>, w: seq<nat>): Around
    requires Fit(bs, w)
  {
    match bs[w[|w| - 1]]
    case BBranch(_, _, _) => InBranch
    case BDefer(_, cleanup) => InNext(Below(bs, ops, w, cleanup))
    case _ => InScope
  }

  /** Where on the way the innermost cleanup begins; 0 outside of cleanups. */
  function Root(bs: seq<Block>, w: seq<nat>): (q: nat)
    requires |w| > 0
    ensures q < |w| && (q > 0 ==> IntoCleanup(bs, w[q - 1], w[q]))
    decreases |w|
  {
    if |w| == 1 then 0
    else if IntoCleanup(bs, w[|w| - 2], w[|w| - 1]) then |w| - 1
    else Root(bs, w[..|w| - 1])
  }

  lemma {:induction false} ScopesAre(bs: seq<Block>, ops: seq<Op>, w: seq<nat>)
    requires Fit(bs, w)
    ensures Scopes(Path(bs, ops, w)) == Depth(bs, w[..|w| - 1]) - Depth(bs, w[..Root(bs, w)])
    decreases |w|
  {
    hide Fit, Below, InChain;
    LastInside(bs, w);
    if |w| > 1 && !IntoCleanup(bs, w[|w| - 2], w[|w| - 1]) {
      FitFront(bs, w);
      var front := w[..|w| - 1];
      ScopesAre(bs, ops, front);
      assert front[..|front| - 1] + [w[|w| - 2]] == front;
      DepthSnoc(bs, front[..|front| - 1], w[|w| - 2]);
      assert front[..Root(bs, w)] == w[..Root(bs, w)];
      assert Path(bs, ops, w)[0] == Surrounding(bs, ops, front) && Path(bs, ops, w)[1..] == Path(bs, ops, front);
    }
  }

  // ----- breaks -----

  /** Every break of the array lands. */
  ghost predicate BreaksLand(bs: seq<Block>) {
    forall i :: 0 <= i < |bs| && bs[i].BBreak? ==> exists j: Jump :: Lands(bs, j) && EndOf(j) == i
  }

  lemma {:induction false} DepthGrows(bs: seq<Block>, w: seq<nat>, p: nat, q: nat)
    requires p <= q <= |w|
    ensures Depth(bs, w[..p]) <= Depth(bs, w[..q]) <= Depth(bs, w[..p]) + (q - p)
    decreases q - p
  {
    if p < q {
      DepthGrows(bs, w, p, q - 1);
      assert w[..q] == w[..q - 1] + [w[q - 1]];
      DepthSnoc(bs, w[..q - 1], w[q - 1]);
    }
  }

  /** A break leaves no cleanup that it stands in, and no more blocks than there are around it. */
  lemma BreakStaysInside(bs: seq<Block>, w: seq<nat>, q: nat)
    requires Fit(bs, w) && BreaksLand(bs) && bs[w[|w| - 1]].BBreak?
    requires q < |w| && (q > 0 ==> IntoCleanup(bs, w[q - 1], w[q]))
    ensures 0 < bs[w[|w| - 1]].level <= Depth(bs, w[..|w| - 1]) - Depth(bs, w[..q]) <= |w| - 1
  {
    hide OneParent, Child, Target, Depth;
    var j: Jump :| Lands(bs, j) && EndOf(j) == w[|w| - 1];
    WaysAreUnique(bs, j.way, w);
    if q > 0 { CleanupOutside(bs, j, q); }
    var p, n: nat := if j.again then j.loop + 1 else j.loop, |w| - 1;
    assert w[..n][..p] == w[..p];
    DepthGrows(bs, w, q, p);
    DepthGrows(bs, w, q, n);
  }

  lemma CleanupOutside(bs: seq<Block>, j: Jump, q: nat)
    requires Lands(bs, j) && 0 < q < |j.way| && IntoCleanup(bs, j.way[q - 1], j.way[q])
    ensures q <= j.loop
  {
    hide Target, Depth, Way;
    if j.loop < q - 1 { BetweenAt(bs, j, q - 1); }
  }

  lemma BetweenAt(bs: seq<Block>, j: Jump, i: nat)
    requires Lands(bs, j) && j.loop < i < |j.way| - 1 && j.way[i] < |bs|
    ensures Between(bs[j.way[i]], j.way[i + 1])
  {
    hide Target, Depth, Way, Between;
  }
}
