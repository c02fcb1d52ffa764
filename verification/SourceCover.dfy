/** When a BREAK or CONTINUE runs the cleanups it has to run, told from the constructs that are open around it. */
module SourceCover {
  import opened Memory
  import opened Ir
  import opened FlatBlocks
  import opened BlockTree
  import opened FrontendState
  import opened FrontendSteps
  import opened FrontendProof
  import opened FrontendCovers
  import opened FrontendJumps
  import opened FrontendRuns
  import opened FrontendNeat
  import opened Lowering
  import opened SourceTree

  // ----- told from the way -----

  /** One block further in. */
  lemma PathStep(bs: seq<Block>, ops: seq<Op>, w: seq<nat>, front: seq<nat>, n: nat, d: nat)
    requires Fit(bs, w) && n == |w| - 1 > 0 && front == w[..n] && Root(bs, w) <= d < n
    ensures Fit(bs, front) && Root(bs, front) == Root(bs, w) && w[n - 1] < |bs|
    ensures Path(bs, ops, w) == [Surrounding(bs, ops, front)] + Path(bs, ops, front)
    ensures Depth(bs, w[..n]) == Depth(bs, front[..n - 1]) + (if bs[w[n - 1]].BBranch? then 0 else 1)
    ensures front[..d] == w[..d] && front[..n - 1] == w[..n - 1]
  {
    hide Fit, Below, InChain;
    FitFront(bs, w);
    ParentInside(bs, w[n - 1], w[n]);
    assert front[..n - 1] + [w[n - 1]] == front;
    DepthSnoc(bs, front[..n - 1], w[n - 1]);
  }

  /** The part of the surroundings of the last block that lies from d on. */
  lemma {:induction false} PathPart(bs: seq<Block>, ops: seq<Op>, w: seq<nat>, d: nat)
    requires Fit(bs, w) && Root(bs, w) <= d < |w|
    ensures |w| - 1 - d <= |Path(bs, ops, w)|
    ensures Branches(Path(bs, ops, w)[..|w| - 1 - d]) == BranchesOn(bs, w, d, |w| - 1)
    ensures Scopes(Path(bs, ops, w)[..|w| - 1 - d]) == Depth(bs, w[..|w| - 1]) - Depth(bs, w[..d])
    decreases |w|
  {
    hide Fit, Below, InChain, Path, Depth, Root;
    if d < |w| - 1 {
      var n: nat := |w| - 1;
      var front := w[..n];
      PathStep(bs, ops, w, front, n, d);
      PathPart(bs, ops, front, d);
      var part, rest := Path(bs, ops, w)[..n - d], Path(bs, ops, front)[..n - 1 - d];
      assert part == [Surrounding(bs, ops, front)] + rest;
      assert part[1..] == rest;
      BranchesPrefix(bs, front, w, d, n - 1);
    }
  }

  lemma ParentInside(bs: seq<Block>, a: nat, b: nat)
    requires Child(bs, a, b)
    ensures a < |bs| && (Counted(bs[a]) <==> !bs[a].BBranch?)
  {
  }

  /** The outermost defer that a break to p leaves is the first one on the way from p on. */
  lemma {:induction false} OutermostOnWay(bs: seq<Block>, ops: seq<Op>, w: seq<nat>, p: nat, level: nat)
    requires Fit(bs, w) && Root(bs, w) <= p < |w| && level == Depth(bs, w[..|w| - 1]) - Depth(bs, w[..p])
    ensures Outermost(Path(bs, ops, w), level) == |w| - 1 - FirstDefer(bs, w, p, |w| - 1)
    decreases |w|
  {
    hide Fit, Below, InChain, Path, Depth, Root;
    if p < |w| - 1 {
      var n: nat := |w| - 1;
      var front := w[..n];
      PathStep(bs, ops, w, front, n, p);
      DepthGrows(bs, w, p, n - 1);
      var less: nat := Depth(bs, front[..n - 1]) - Depth(bs, front[..p]);
      OutermostOnWay(bs, ops, front, p, less);
      BranchesPrefix(bs, front, w, p, n - 1);
      assert Path(bs, ops, w)[1..] == Path(bs, ops, front);
      if level == 0 { OutermostNone(Path(bs, ops, front)); }
    } else {
      OutermostNone(Path(bs, ops, w));
    }
  }

  lemma OutermostNone(path: seq<Around>)
    ensures Outermost(path, 0) == 0
  {
  }

  lemma ReachesOnWay(bs: seq<Block>, ops: seq<Op>, w: seq<nat>, p: nat, level: nat)
    requires Fit(bs, w) && Root(bs, w) <= p < |w| && level == Depth(bs, w[..|w| - 1]) - Depth(bs, w[..p])
    ensures Reaches(Path(bs, ops, w), level) <==> WayCovers(bs, w, p)
  {
    hide Fit, Depth;
    var d := FirstDefer(bs, w, p, |w| - 1);
    OutermostOnWay(bs, ops, w, p, level);
    PathPart(bs, ops, w, d);
  }
}
