/** Every word keeps the blocks a tree and every operation in exactly one range. */
module FrontendShape {
  import opened Memory
  import opened Ir
  import opened FlatBlocks
  import opened BlockTree
  import opened FrontendState
  import opened FrontendSteps
  import opened FrontendProof
  import opened FrontendCovers
  import opened FrontendJumps
  import opened FrontendRuns

  // ----- totals over spliced blocks -----

  lemma TotalSnoc(bs: seq<Block>, a: Aspect, b: Block)
    ensures Total(bs + [b], a) == Total(bs, a) + Of(a, b)
  {
    hide Of;
    assert (bs + [b])[..|bs|] == bs;
  }

  lemma SnocFive(s: seq<Block>, a: Block, b: Block, c: Block, d: Block, e: Block)
    ensures s + [a] + [b] + [c] + [d] + [e] == s + [a, b, c, d, e]
  {
  }

  /** The blocks of a spliced array. */
  lemma WrappedAt(bs: seq<Block>, slot: nat, middle: Block, nops: nat)
    requires slot < |bs|
    ensures var ws, n := Wrapped(bs, slot, middle, nops), |bs|;
      && |ws| == n + 5 && ws[slot] == BMany(n, n + 2) && (forall i :: 0 <= i < n && i != slot ==> ws[i] == bs[i])
      && ws[n] == bs[slot] && ws[n + 1] == middle && ws[n + 2] == BChain(n + 1, n + 4)
      && ws[n + 3] == BBasic(Range(nops, 0)) && ws[n + 4] == BChain(n + 3, INVALID)
  {
  }

  lemma Cancel(a: multiset<nat>, s: multiset<nat>, m: multiset<nat>)
    requires s <= a
    ensures a - s + m + s == a + m
  {
  }

  lemma SplicedTotal(bs: seq<Block>, slot: nat, middle: Block, nops: nat, a: Aspect)
    requires slot < |bs|
    ensures var n := |bs|;
      Total(Wrapped(bs, slot, middle, nops), a)
      == Total(bs, a) + Of(a, BMany(n, n + 2)) + Of(a, middle) + Of(a, BChain(n + 1, n + 4)) + Of(a, BBasic(Range(nops, 0))) + Of(a, BChain(n + 3, INVALID))
  {
    hide Total, Of;
    var n := |bs|;
    var b0 := bs[slot := BMany(n, n + 2)];
    var b1 := b0 + [bs[slot]];
    var b2 := b1 + [middle];
    var b3 := b2 + [BChain(n + 1, n + 4)];
    var b4 := b3 + [BBasic(Range(nops, 0))];
    TotalReplaced(bs, a, slot, BMany(n, n + 2));
    TotalSnoc(b0, a, bs[slot]);
    Cancel(Total(bs, a), Of(a, bs[slot]), Of(a, BMany(n, n + 2)));
    TotalSnoc(b1, a, middle);
    TotalSnoc(b2, a, BChain(n + 1, n + 4));
    TotalSnoc(b3, a, BBasic(Range(nops, 0)));
    TotalSnoc(b4, a, BChain(n + 3, INVALID));
    SnocFive(b0, bs[slot], middle, BChain(n + 1, n + 4), BBasic(Range(nops, 0)), BChain(n + 3, INVALID));
  }

  lemma WrapTotal(st: State, extra: seq<Block>, middle: Block, a: Aspect)
    requires st.current < |st.blocks|
    ensures var N := |st.blocks| + |extra|;
      Total(WrapAround(st, extra, middle), a)
      == Total(st.blocks, a) + Total(extra, a) + Of(a, BMany(N, N + 2)) + Of(a, middle) + Of(a, BChain(N + 1, N + 4)) + Of(a, Fresh(st)) + Of(a, BChain(N + 3, INVALID))
  {
    hide Total, Wrapped, Of;
    TotalAppended(st.blocks, a, extra);
    SplicedTotal(st.blocks + extra, st.current, middle, |st.ops|, a);
  }

  lemma VarTotal(st: State, a: Aspect)
    requires st.current < |st.blocks|
    ensures var n := |st.blocks|;
      Total(VarAround(st), a)
      == Total(st.blocks, a) + Of(a, BMany(n, n + 2)) + Of(a, BVar(|st.vars|, n + 3)) + Of(a, BChain(n + 1, INVALID)) + Of(a, Fresh(st))
  {
    hide Total, Of;
    var bs, n := st.blocks, |st.blocks|;
    var b0 := bs[st.current := BMany(n, n + 2)];
    var b1 := b0 + [bs[st.current]];
    var b2 := b1 + [BVar(|st.vars|, n + 3)];
    var b3 := b2 + [BChain(n + 1, INVALID)];
    var b4 := b3 + [Fresh(st)];
    TotalReplaced(bs, a, st.current, BMany(n, n + 2));
    TotalSnoc(b0, a, bs[st.current]);
    TotalSnoc(b1, a, BVar(|st.vars|, n + 3));
    TotalSnoc(b2, a, BChain(n + 1, INVALID));
    TotalSnoc(b3, a, Fresh(st));
    assert b4 == VarAround(st);
  }

  // ----- the tree -----

  lemma SameRefsIsTree(bs: seq<Block>, cs: seq<Block>)
    requires IsTree(bs) && |cs| == |bs| && forall i :: 0 <= i < |bs| ==> Refs(bs[i]) == Refs(cs[i])
    ensures IsTree(cs)
  {
    hide Refs, Total, Reached;
    TotalSame(bs, cs, References);
    forall b | 0 <= b < |cs| ensures Reached(cs, b) { ReachedStays(bs, cs, b); }
  }

  /** The two blocks added beside the spliced block hang below it. */
  predicate Hangs(n: nat, extra: seq<Block>, middle: Block) {
    if |extra| == 0 then Refs(middle) == multiset{} else
    |extra| == 2 && extra[0].BBasic? &&
    ((extra[1].BBasic? && Refs(middle) == multiset{n, n + 1})
     || (extra[1] == BMany(n, INVALID) && Refs(middle) == multiset{n + 1}))
  }

  lemma HangsTotal(n: nat, extra: seq<Block>, middle: Block)
    requires Hangs(n, extra, middle) && n < INVALID
    ensures Total(extra, References) + Refs(middle) == Indices(n, |extra|)
  {
    if |extra| == 2 {
      TwoIndices(n);
      assert extra == [extra[0]] + [extra[1]];
      TotalSnoc([], References, extra[0]);
      assert [] + [extra[0]] == [extra[0]];
      TotalSnoc([extra[0]], References, extra[1]);
    }
  }

  lemma WrapOneParent(st: State, extra: seq<Block>, middle: Block)
    requires OneParent(st.blocks) && st.current < |st.blocks| && |st.blocks| + |extra| + 5 < INVALID
    requires Hangs(|st.blocks|, extra, middle)
    ensures OneParent(WrapAround(st, extra, middle))
  {
    hide Total, Hangs, Indices, Refs, Wrapped;
    var n, N := |st.blocks|, |st.blocks| + |extra|;
    WrapTotal(st, extra, middle, References);
    HangsTotal(n, extra, middle);
    HangsCount(n, extra, middle);
    FiveIndices(N);
    FreshRefs(st);
    Combine(n, |extra|, Total(st.blocks, References), Total(extra, References), Refs(BMany(N, N + 2)), Refs(middle), Refs(BChain(N + 1, N + 4)),
            Refs(BChain(N + 3, INVALID)));
  }

  lemma Combine(n: nat, k: nat, a: multiset<nat>, b: multiset<nat>, c: multiset<nat>, d: multiset<nat>, e: multiset<nat>, f: multiset<nat>)
    requires n > 0 && a == Indices(1, n - 1) && b + d == Indices(n, k) && c + e + f == Indices(n + k, 5)
    ensures a + b + c + d + e + multiset{} + f == Indices(1, n + k + 4)
  {
    hide Indices;
    Shuffle(a, b, c, d, e, f);
    IndicesJoin(1, n - 1, k);
    IndicesJoin(1, n + k - 1, 5);
  }

  lemma FreshRefs(st: State)
    ensures Refs(Fresh(st)) == multiset{}
  {
  }

  lemma Shuffle(a: multiset<nat>, b: multiset<nat>, c: multiset<nat>, d: multiset<nat>, e: multiset<nat>, f: multiset<nat>)
    ensures a + b + c + d + e + multiset{} + f == a + (b + d) + (c + e + f)
  {
  }

  lemma TwoIndices(n: nat)
    ensures Indices(n, 2) == multiset{n, n + 1}
  {
    assert Indices(n, 1) == multiset{n};
  }

  lemma FourIndices(n: nat)
    ensures Indices(n, 4) == multiset{n, n + 2} + multiset{n + 3} + multiset{n + 1}
  {
    TwoIndices(n);
    assert Indices(n, 3) == multiset{n, n + 1} + multiset{n + 2};
  }

  lemma FiveIndices(n: nat)
    requires n + 5 < INVALID
    ensures Indices(n, 5) == Refs(BMany(n, n + 2)) + Refs(BChain(n + 1, n + 4)) + Refs(BChain(n + 3, INVALID))
  {
    FourIndices(n);
    assert Indices(n, 5) == Indices(n, 4) + multiset{n + 4};
  }

  lemma HangsCount(n: nat, extra: seq<Block>, middle: Block)
    requires Hangs(n, extra, middle)
    ensures |extra| == 0 || |extra| == 2
  {
  }

  lemma WrapReached(st: State, extra: seq<Block>, middle: Block)
    requires (forall b :: 0 <= b < |st.blocks| ==> Reached(st.blocks, b)) && Hangs(|st.blocks|, extra, middle)
    requires st.current < |st.blocks| && st.blocks[st.current].BBasic? && |st.blocks| + |extra| + 5 < INVALID
    ensures var ws := WrapAround(st, extra, middle); forall b :: 0 <= b < |ws| ==> Reached(ws, b)
  {
    hide Reached, OneParent, Refs, Wrapped, Hangs;
    var ws, n, N := WrapAround(st, extra, middle), |st.blocks|, |st.blocks| + |extra|;
    WrapGrowsRefs(st, extra, middle);
    forall b | 0 <= b < n ensures Reached(ws, b) { ReachedStays(st.blocks, ws, b); }
    ReachedNext(ws, st.current, N);
    ReachedNext(ws, st.current, N + 2);
    ReachedNext(ws, N + 2, N + 1);
    ReachedNext(ws, N + 2, N + 4);
    ReachedNext(ws, N + 4, N + 3);
    if |extra| == 2 {
      ReachedNext(ws, N + 1, n + 1);
      if extra[1].BBasic? { ReachedNext(ws, N + 1, n); } else { ReachedNext(ws, n + 1, n); }
    }
    forall b | 0 <= b < |ws| ensures Reached(ws, b) {
      if n <= b < N { HangsCount(n, extra, middle); }
    }
  }

  /** What the spliced array refers to. */
  lemma WrapGrowsRefs(st: State, extra: seq<Block>, middle: Block)
    requires Hangs(|st.blocks|, extra, middle)
    requires st.current < |st.blocks| && st.blocks[st.current].BBasic? && |st.blocks| + |extra| + 5 < INVALID
    ensures var ws, n, N := WrapAround(st, extra, middle), |st.blocks|, |st.blocks| + |extra|;
      && |ws| == N + 5 && (forall i :: 0 <= i < n ==> Refs(st.blocks[i]) <= Refs(ws[i]))
      && Refs(ws[st.current]) == multiset{N, N + 2} && Refs(ws[N + 2]) == multiset{N + 1, N + 4} && Refs(ws[N + 4]) == multiset{N + 3}
      && (|extra| == 2 ==>
            n + 1 in Refs(ws[N + 1]) && (if extra[1].BBasic? then n in Refs(ws[N + 1]) else n in Refs(ws[n + 1])))
  {
    hide Wrapped, Refs, Hangs;
    var bs, n, N := st.blocks + extra, |st.blocks|, |st.blocks| + |extra|;
    WrappedAt(bs, st.current, middle, |st.ops|);
    SpliceRefs(N);
    NoRefs(st);
    HangsRefs(n, extra, middle);
    assert |extra| == 2 ==> bs[n + 1] == extra[1];
  }

  lemma SpliceRefs(n: nat)
    requires n + 5 < INVALID
    ensures Refs(BMany(n, n + 2)) == multiset{n, n + 2} && Refs(BChain(n + 1, n + 4)) == multiset{n + 1, n + 4}
    ensures Refs(BChain(n + 3, INVALID)) == multiset{n + 3}
  {
  }

  lemma HangsRefs(n: nat, extra: seq<Block>, middle: Block)
    requires Hangs(n, extra, middle) && n < INVALID
    ensures |extra| == 2 ==> n + 1 in Refs(middle) && (if extra[1].BBasic? then n in Refs(middle) else n in Refs(extra[1]))
  {
  }

  lemma WrapIsTree(st: State, extra: seq<Block>, middle: Block)
    requires IsTree(st.blocks) && st.current < |st.blocks| && st.blocks[st.current].BBasic? && |st.blocks| + |extra| + 5 < INVALID
    requires Hangs(|st.blocks|, extra, middle)
    ensures IsTree(WrapAround(st, extra, middle))
  {
    hide OneParent, Reached, Hangs, Wrapped;
    WrapOneParent(st, extra, middle);
    WrapReached(st, extra, middle);
  }

  lemma VarOneParent(st: State)
    requires OneParent(st.blocks) && st.current < |st.blocks| && |st.blocks| + 4 <= INVALID
    ensures OneParent(VarAround(st))
  {
    hide Total, Indices, Refs, VarAround;
    var n := |st.blocks|;
    VarTotal(st, References);
    FourIndices(n);
    VarRefs(st);
    IndicesJoin(1, n - 1, 4);
  }

  lemma VarRefs(st: State)
    requires st.current < |st.blocks| && |st.blocks| + 4 <= INVALID
    ensures var n, ws := |st.blocks|, VarAround(st);
      && |ws| == n + 4 && Refs(Fresh(st)) == multiset{}
      && ws[n + 1] == BVar(|st.vars|, n + 3) && ws[n + 2] == BChain(n + 1, INVALID)
      && ws[st.current] == BMany(n, n + 2) && (forall i :: 0 <= i < n && i != st.current ==> ws[i] == st.blocks[i])
      && Refs(BMany(n, n + 2)) == multiset{n, n + 2} && Refs(BVar(|st.vars|, n + 3)) == multiset{n + 3}
      && Refs(BChain(n + 1, INVALID)) == multiset{n + 1}
  {
  }

  lemma VarIsTree(st: State)
    requires IsTree(st.blocks) && st.current < |st.blocks| && st.blocks[st.current].BBasic? && |st.blocks| + 4 <= INVALID
    ensures IsTree(VarAround(st))
  {
    hide OneParent, Reached, Refs, VarAround;
    var ws, n := VarAround(st), |st.blocks|;
    VarOneParent(st);
    VarRefs(st);
    NoRefs(st);
    forall b | 0 <= b < n ensures Reached(ws, b) { ReachedStays(st.blocks, ws, b); }
    ReachedNext(ws, st.current, n);
    ReachedNext(ws, st.current, n + 2);
    ReachedNext(ws, n + 2, n + 1);
    ReachedNext(ws, n + 1, n + 3);
  }

  lemma NoRefs(st: State)
    requires st.current < |st.blocks| && st.blocks[st.current].BBasic?
    ensures Refs(st.blocks[st.current]) == multiset{}
  {
  }
}
