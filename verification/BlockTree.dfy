/** When a block array is a tree: every block but the first is referred to once. */
module BlockTree {
  import opened Ir
  import opened FlatBlocks

  // ----- what a block refers to and what it runs -----

  function Index(i: nat): multiset<nat> { if i == INVALID then multiset{} else multiset{i} }

  function Refs(b: Block): multiset<nat> {
    match b
    case BDefer(next, cleanup) => Index(next) + Index(cleanup)
    case BMany(cur, next) => Index(cur) + Index(next)
    case BChain(cur, next) => Index(cur) + Index(next)
    case BCrashPad(body, pad) => Index(body) + Index(pad)
    case BBranch(_, yes, no) => Index(yes) + Index(no)
    case BLoop(body) => Index(body)
    case BVar(_, body) => Index(body)
    case _ => multiset{}
  }

  function Indices(start: nat, len: nat): multiset<nat> {
    if len == 0 then multiset{} else Indices(start, len - 1) + multiset{start + len - 1}
  }

  /** The operations that a block runs itself. */
  function OpsOf(b: Block): multiset<nat> {
    match b
    case BBasic(r) => Indices(r.start, r.len)
    case BBranch(cond, _, _) => Indices(cond.start, cond.len)
    case _ => multiset{}
  }

  datatype Aspect = References | Operations

  function Of(a: Aspect, b: Block): multiset<nat> { if a.References? then Refs(b) else OpsOf(b) }

  // ----- summing over the blocks -----

  function Total(bs: seq<Block>, a: Aspect): multiset<nat> {
    if |bs| == 0 then multiset{} else Total(bs[..|bs| - 1], a) + Of(a, bs[|bs| - 1])
  }

  lemma {:induction false} TotalReplaced(bs: seq<Block>, a: Aspect, i: nat, b: Block)
    requires i < |bs|
    ensures Of(a, bs[i]) <= Total(bs, a)
    ensures Total(bs[i := b], a) == Total(bs, a) - Of(a, bs[i]) + Of(a, b)
    decreases |bs|
  {
    hide Of;
    var front := bs[..|bs| - 1];
    if i == |bs| - 1 {
      assert bs[i := b][..|bs| - 1] == front;
    } else {
      assert bs[i := b][..|bs| - 1] == front[i := b];
      TotalReplaced(front, a, i, b);
    }
  }

  lemma {:induction false} TotalAppended(bs: seq<Block>, a: Aspect, more: seq<Block>)
    ensures Total(bs + more, a) == Total(bs, a) + Total(more, a)
    decreases |more|
  {
    hide Of;
    if |more| == 0 {
      assert bs + more == bs;
    } else {
      assert (bs + more)[..|bs + more| - 1] == bs + more[..|more| - 1];
      TotalAppended(bs, a, more[..|more| - 1]);
    }
  }

  lemma {:induction false} TotalSame(bs: seq<Block>, cs: seq<Block>, a: Aspect)
    requires |bs| == |cs| && forall i :: 0 <= i < |bs| ==> Of(a, bs[i]) == Of(a, cs[i])
    ensures Total(bs, a) == Total(cs, a)
    decreases |bs|
  {
    if |bs| > 0 { TotalSame(bs[..|bs| - 1], cs[..|cs| - 1], a); }
  }

  // ----- ranges of indices -----

  /** Each index of the range occurs once. */
  lemma {:induction false} IndicesCount(start: nat, len: nat, i: nat)
    ensures Indices(start, len)[i] == (if start <= i < start + len then 1 else 0)
    decreases len
  {
    if len > 0 { IndicesCount(start, len - 1, i); }
  }

  lemma IndicesJoin(start: nat, len: nat, more: nat)
    ensures Indices(start, len + more) == Indices(start, len) + Indices(start + len, more)
  {
    hide Indices;
    var whole, parts := Indices(start, len + more), Indices(start, len) + Indices(start + len, more);
    forall i: nat ensures whole[i] == parts[i] {
      IndicesCount(start, len + more, i);
      IndicesCount(start, len, i);
      IndicesCount(start + len, more, i);
    }
  }

  // ----- references -----

  /** Every block but the first is referred to from exactly one place, and nothing refers
      to the first block or to an index outside the array. */
  ghost predicate OneParent(bs: seq<Block>) {
    |bs| > 0 && Total(bs, References) == Indices(1, |bs| - 1)
  }

  predicate Steps(bs: seq<Block>, p: seq<nat>) {
    && |p| > 0 && p[0] == 0
    && forall i :: 0 <= i < |p| - 1 ==> p[i] < |bs| && p[i + 1] in Refs(bs[p[i]])
  }

  /** Some references lead from the first block to b. */
  ghost predicate Reached(bs: seq<Block>, b: nat) { exists p: seq<nat> :: Steps(bs, p) && p[|p| - 1] == b }

  /** The blocks form a tree with the first block as its root. */
  ghost predicate IsTree(bs: seq<Block>) {
    OneParent(bs) && forall b :: 0 <= b < |bs| ==> Reached(bs, b)
  }

  lemma ReachedNext(bs: seq<Block>, a: nat, b: nat)
    requires Reached(bs, a) && a < |bs| && b in Refs(bs[a])
    ensures Reached(bs, b)
  {
    hide Refs;
    var p: seq<nat> :| Steps(bs, p) && p[|p| - 1] == a;
    var q := p + [b];
    assert Steps(bs, q) && q[|q| - 1] == b;
  }

  lemma ReachedStays(bs: seq<Block>, cs: seq<Block>, b: nat)
    requires Reached(bs, b) && |bs| <= |cs| && forall i :: 0 <= i < |bs| ==> Refs(bs[i]) <= Refs(cs[i])
    ensures Reached(cs, b)
  {
    var p: seq<nat> :| Steps(bs, p) && p[|p| - 1] == b;
    assert Steps(cs, p);
  }

  lemma {:induction false} TwoRefs(bs: seq<Block>, a: nat, b: nat, c: nat)
    requires a < |bs| && b < |bs| && a != b
    ensures Total(bs, References)[c] >= Refs(bs[a])[c] + Refs(bs[b])[c]
  {
    TotalReplaced(bs, References, a, BCrash);
    var cs := bs[a := BCrash];
    TotalReplaced(cs, References, b, BCrash);
    assert Refs(BCrash) == multiset{} && cs[b] == bs[b];
    assert Total(cs, References)[c] == Total(bs, References)[c] - Refs(bs[a])[c];
  }

  lemma OnlyParent(bs: seq<Block>, a: nat, b: nat, c: nat)
    requires OneParent(bs) && a < |bs| && b < |bs| && c in Refs(bs[a]) && c in Refs(bs[b])
    ensures a == b && 1 <= c < |bs|
  {
    hide Refs, Total, Indices;
    IndicesCount(1, |bs| - 1, c);
    TotalReplaced(bs, References, a, BCrash);
    if a != b { TwoRefs(bs, a, b, c); }
  }

  /** In a tree there is only one way from the root to a block. */
  lemma {:induction false} StepsAreUnique(bs: seq<Block>, p: seq<nat>, q: seq<nat>)
    requires OneParent(bs) && Steps(bs, p) && Steps(bs, q) && p[|p| - 1] == q[|q| - 1]
    ensures p == q
    decreases |p|
  {
    hide OneParent, Refs;
    if |p| > 1 {
      var a, c := p[|p| - 2], p[|p| - 1];
      OnlyParent(bs, a, a, c);
      if |q| > 1 {
        OnlyParent(bs, a, q[|q| - 2], c);
        StepsAreUnique(bs, p[..|p| - 1], q[..|q| - 1]);
        assert p == p[..|p| - 1] + [c] && q == q[..|q| - 1] + [c];
      }
    } else if |q| > 1 {
      OnlyParent(bs, q[|q| - 2], q[|q| - 2], q[|q| - 1]);
    }
  }

  /** So no way comes back to a block it has left: no block lies on a cycle. */
  lemma NoCycle(bs: seq<Block>, p: seq<nat>, i: nat, j: nat)
    requires OneParent(bs) && Steps(bs, p) && i < j < |p|
    ensures p[i] != p[j]
  {
    if p[i] == p[j] {
      var q, r := p[..i + 1], p[..j + 1];
      StepsAreUnique(bs, q, r);
    }
  }
}
