/** Every operation the frontend emitted stands in exactly one range. */
module FrontendOps {
  import opened Memory
  import opened Ir
  import opened FlatBlocks
  import opened BlockTree
  import opened FrontendState
  import opened FrontendSteps
  import opened FrontendProof
  import opened FrontendCovers
  import opened FrontendJumps
  import opened FrontendRuns
  import opened FrontendShape

  predicate Blank(bs: seq<Block>, b: nat) { b < |bs| && bs[b].BBasic? && bs[b].ops.len == 0 }

  predicate WaitingBlank(st: State) {
    forall k, w :: 0 <= k < |st.scopes| && w in Waiting(st.scopes[k]) ==> Blank(st.blocks, w)
  }

  predicate BeforeBody(s: OpenScope) { s.kind.SCOPE_IF? && (s.phase.SCOPE_WAIT_OPEN? || s.phase.SCOPE_CONDITION?) }

  /** The condition of the innermost IF gets its length only when it ends. */
  predicate ConditionOk(st: State, s: OpenScope) {
    && s.block < |st.blocks| && st.blocks[s.block].BBranch? && st.blocks[s.block].cond.len == 0
    && st.blocks[s.block].cond.start <= |st.ops| && (s.phase.SCOPE_WAIT_OPEN? ==> st.blocks[s.block].cond.start == |st.ops|)
    && (s.first < |st.blocks| && st.blocks[s.first].BBasic? ==> Blank(st.blocks, s.first))
  }

  /** The operations that have their range: all but those of an unfinished condition. */
  function Placed(st: State): nat {
    if InCondition(st) && Top(st).block < |st.blocks| && st.blocks[Top(st).block].BBranch?
    then st.blocks[Top(st).block].cond.start else |st.ops|
  }

  predicate CurrentOk(st: State) {
    && st.current < |st.blocks| && st.blocks[st.current].BBasic?
    && (!InCondition(st) ==> st.blocks[st.current].ops.start + st.blocks[st.current].ops.len == |st.ops|)
  }

  predicate Filled(st: State) {
    && Total(st.blocks, Operations) == Indices(0, Placed(st))
    && WaitingBlank(st) && CurrentOk(st)
    && (|st.scopes| > 0 && BeforeBody(Top(st)) ==> ConditionOk(st, Top(st)))
  }

  // ----- splicing -----

  lemma NoOps(b: Block)
    requires (b.BBasic? ==> b.ops.len == 0) && (b.BBranch? ==> b.cond.len == 0)
    ensures Of(Operations, b) == multiset{}
  {
  }

  lemma NoOpsIn(extra: seq<Block>)
    requires |extra| == 0 || |extra| == 2
    requires forall k :: 0 <= k < |extra| ==> Of(Operations, extra[k]) == multiset{}
    ensures Total(extra, Operations) == multiset{}
  {
    hide Of;
    if |extra| == 2 {
      assert extra == [] + [extra[0]] + [extra[1]];
      TotalSnoc([], Operations, extra[0]);
      TotalSnoc([] + [extra[0]], Operations, extra[1]);
    }
  }

  lemma WrapPlaced(st: State, extra: seq<Block>, middle: Block)
    requires st.current < |st.blocks| && (|extra| == 0 || |extra| == 2)
    requires (forall k :: 0 <= k < |extra| ==> extra[k] == Fresh(st) || extra[k].BMany?) && !middle.BBasic? && (middle.BBranch? ==> middle.cond.len == 0)
    ensures Total(WrapAround(st, extra, middle), Operations) == Total(st.blocks, Operations)
  {
    hide Total, Of, Wrapped;
    var N := |st.blocks| + |extra|;
    WrapTotal(st, extra, middle, Operations);
    forall k | 0 <= k < |extra| ensures Of(Operations, extra[k]) == multiset{} { NoOps(extra[k]); }
    NoOpsIn(extra);
    NoOps(BMany(N, N + 2));
    NoOps(middle);
    NoOps(BChain(N + 1, N + 4));
    NoOps(Fresh(st));
    NoOps(BChain(N + 3, INVALID));
  }

  /** Old blocks other than the current one stay where they are. */
  lemma WrapElsewhere(st: State, extra: seq<Block>, middle: Block)
    requires st.current < |st.blocks|
    ensures var ws, n, N := WrapAround(st, extra, middle), |st.blocks|, |st.blocks| + |extra|;
      && |ws| == N + 5 && (forall i :: 0 <= i < n && i != st.current ==> ws[i] == st.blocks[i])
      && (forall k :: 0 <= k < |extra| ==> ws[n + k] == extra[k]) && ws[N + 1] == middle && ws[N + 3] == Fresh(st)
  {
    hide Wrapped;
    WrappedAt(st.blocks + extra, st.current, middle, |st.ops|);
  }

  /** Blocks that wait keep waiting while the current block is replaced. */
  lemma WaitingStays(st: State, st1: State, path: seq<nat>, marks: seq<nat>)
    requires ScopesOk(st, path, marks) && WaitingBlank(st) && |st.blocks| <= |st1.blocks|
    requires forall i :: 0 <= i < |st.blocks| && i != st.current ==> st1.blocks[i] == st.blocks[i]
    requires st1.scopes == st.scopes || (|st1.scopes| == |st.scopes| + 1 && st1.scopes[..|st.scopes|] == st.scopes
             && forall w :: w in Waiting(Top(st1)) ==> Blank(st1.blocks, w))
    ensures WaitingBlank(st1)
  {
    hide ScopeOk, Waiting, Apart, Alone;
    forall k, w | 0 <= k < |st1.scopes| && w in Waiting(st1.scopes[k]) ensures Blank(st1.blocks, w) {
      if k < |st.scopes| {
        assert st1.scopes[k] == st.scopes[k];
        assert Free(st.blocks, st.current, st.scopes[k]);
        assert Blank(st.blocks, w);
      }
    }
  }

  /** A scope is opened. */
  lemma OpenedFilled(st: State, st1: State, extra: seq<Block>, middle: Block, s: OpenScope, path: seq<nat>, marks: seq<nat>)
    requires Filled(st) && Sane(st, path, marks) && (|st.scopes| > 0 ==> !Opens(Top(st)))
    requires |extra| == 2 && extra[0] == Fresh(st) && (extra[1] == Fresh(st) || (extra[1].BMany? && s.kind.SCOPE_LOOP?))
    requires !middle.BBasic? && (middle.BBranch? ==> middle.cond.len == 0)
    requires st1.blocks == WrapAround(st, extra, middle) && st1.scopes == st.scopes + [s] && st1.ops == st.ops
    requires s.block == |st.blocks| + 3 && s.after == |st.blocks| + 5 && (s.kind.SCOPE_LOOP? || s.second == |st.blocks| + 1)
    requires s.kind.SCOPE_LOOP? || s.first == |st.blocks|
    requires st1.current == |st.blocks| || (st1.current == |st.blocks| + 1 && extra[1] == Fresh(st))
    requires !s.phase.SCOPE_CONDITION? && (BeforeBody(s) ==> middle.BBranch? && middle.cond.start == |st.ops|)
    ensures Filled(st1)
  {
    hide Total, Of, Wrapped, ScopesOk, Way, Framed, Settled, Indices;
    SaneParts(st, path, marks);
    WrapPlaced(st, extra, middle);
    WrapElsewhere(st, extra, middle);
    assert st1.scopes[..|st.scopes|] == st.scopes;
    WaitingStays(st, st1, path, marks);
  }

  lemma JumpFilled(st: State, again: bool, path: seq<nat>, marks: seq<nat>)
    requires Filled(st) && Sane(st, path, marks) && (|st.scopes| > 0 ==> !Opens(Top(st))) && Exited(st, again).Some?
    ensures Filled(Exited(st, again).value)
  {
    hide Total, Of, Wrapped, ScopesOk, Way, Framed, Settled, Indices, LeavesNoCleanup;
    SaneParts(st, path, marks);
    var st1, n := Exited(st, again).value, InnermostLoop(st.scopes);
    var middle := BBreak(st.depth + 2 - (if again then st.scopes[n - 1].continueDepth else st.scopes[n - 1].breakDepth));
    WrapPlaced(st, [], middle);
    WrapElsewhere(st, [], middle);
    WaitingStays(st, st1, path, marks);
  }

  lemma VarFilled(st: State, tid: nat, name: string, ntypes: nat, path: seq<nat>, marks: seq<nat>)
    requires InRange(st) && Filled(st) && Sane(st, path, marks) && VarDeclared(st, tid, name, ntypes).Some? && (|st.scopes| > 0 ==> !Waits(Top(st)))
    ensures Filled(VarDeclared(st, tid, name, ntypes).value)
  {
    hide Total, Of, ScopesOk, Way, Framed, Settled, Indices, Named;
    SaneParts(st, path, marks);
    var st1, n := VarDeclared(st, tid, name, ntypes).value, |st.blocks|;
    VarTotal(st, Operations);
    NoOps(BMany(n, n + 2));
    NoOps(BVar(|st.vars|, n + 3));
    NoOps(BChain(n + 1, INVALID));
    NoOps(Fresh(st));
    assert st1.blocks[n + 3] == Fresh(st) && st1.blocks[st.current] == BMany(n, n + 2);
    WaitingStays(st, st1, path, marks);
  }

  // ----- going on -----

  /** Starting blank blocks leaves every range as it is. */
  lemma BeginPlaced(bs: seq<Block>, i: nat, n: nat)
    requires Blank(bs, i)
    ensures Total(Begin(bs, i, n), Operations) == Total(bs, Operations) && |Begin(bs, i, n)| == |bs|
    ensures Begin(bs, i, n)[i] == BBasic(Range(n, 0)) && forall k :: 0 <= k < |bs| && k != i ==> Begin(bs, i, n)[k] == bs[k]
    ensures forall b :: Blank(bs, b) ==> Blank(Begin(bs, i, n), b)
  {
    hide Total, Of;
    NoOps(bs[i]);
    NoOps(BBasic(Range(n, 0)));
    TotalReplaced(bs, Operations, i, BBasic(Range(n, 0)));
  }

  lemma EndedFilled(st: State, path: seq<nat>, marks: seq<nat>)
    requires Filled(st) && Sane(st, path, marks) && |st.scopes| > 0 && !Opens(Top(st))
    ensures Filled(Ended(st))
  {
    hide Total, Of, ScopesOk, Way, Framed, Indices, Begin, Blank;
    var s := Top(st);
    AfterWaits(s);
    var bs := st.blocks;
    if s.kind.SCOPE_IF? && s.phase.SCOPE_BODY? {
      SecondWaits(s);
      BeginPlaced(bs, s.second, |st.ops|);
      bs := Begin(bs, s.second, |st.ops|);
    }
    BeginPlaced(bs, s.after, |st.ops|);
    BlankIs(bs, s.after);
  }

  lemma BlankIs(bs: seq<Block>, b: nat)
    requires Blank(bs, b)
    ensures b < |bs| && bs[b].BBasic?
  {
  }

  lemma {:induction false} ImplicitFilled(st: State, path: seq<nat>, marks: seq<nat>)
    requires Filled(st) && Sane(st, path, marks) && (|st.scopes| > 0 ==> !Opens(Top(st)))
    ensures Filled(ImplicitEnded(st))
    ensures |ImplicitEnded(st).scopes| > 0 ==> !Opens(Top(ImplicitEnded(st)))
    decreases |st.scopes|
  {
    hide Filled, Ended, ImplicitBody, Opens;
    if |st.scopes| > 0 && ImplicitBody(Top(st)) {
      MarksCount(st, path, marks);
      var m := marks[|marks| - 1];
      EndedFilled(st, path, marks);
      EndedKeeps(st, path, marks, m);
      EndedShorter(st);
      assert |Ended(st).scopes| > 0 ==> !Opens(Top(Ended(st))) by { EndedSettled(st); }
      ImplicitFilled(Ended(st), path[..m + 1] + [Top(st).after], marks[..|marks| - 1]);
    }
  }

  lemma EndedSettled(st: State)
    requires |st.scopes| > 0 && Settled(st.scopes)
    ensures |Ended(st).scopes| > 0 ==> !Opens(Top(Ended(st)))
  {
  }

  lemma SecondFilled(st: State, phase: Phase)
    requires Filled(st) && |st.scopes| > 0 && Top(st).phase.SCOPE_BODY?
    requires (Top(st).kind.SCOPE_IF? && phase.SCOPE_ELSE_BODY?) || (Top(st).kind.SCOPE_EPILOGUE? && !Top(st).implicitEnd && phase.SCOPE_CLEANUP?)
    ensures Filled(SecondBegun(st, phase))
  {
    hide Total, Of, Indices, Begin, Blank;
    assert Waiting(Top(st))[1] == Top(st).second;
    BeginPlaced(st.blocks, Top(st).second, |st.ops|);
    BlankIs(st.blocks, Top(st).second);
    OtherScopesWait(st, SecondBegun(st, phase));
  }

  /** The scopes below the innermost one did not change, and that one waits for less. */
  lemma OtherScopesWait(st: State, st1: State)
    requires WaitingBlank(st) && |st.scopes| == |st1.scopes| > 0
    requires forall k :: 0 <= k < |st.scopes| - 1 ==> st1.scopes[k] == st.scopes[k]
    requires forall w :: w in Waiting(Top(st1)) ==> w in Waiting(Top(st))
    requires forall b :: Blank(st.blocks, b) ==> Blank(st1.blocks, b)
    ensures WaitingBlank(st1)
  {
    hide Waiting, Blank;
    forall k, w | 0 <= k < |st1.scopes| && w in Waiting(st1.scopes[k]) ensures Blank(st1.blocks, w) {
      if k == |st1.scopes| - 1 { assert w in Waiting(Top(st1)) && Top(st) == st.scopes[k]; }
      assert Blank(st.blocks, w);
    }
  }

  lemma EmittedFilled(st: State, op: Op, path: seq<nat>, marks: seq<nat>)
    requires Filled(st) && Sane(st, path, marks) && (|st.scopes| > 0 ==> !Waits(Top(st)))
    ensures Emitted(st, op).Some? && Filled(Emitted(st, op).value)
  {
    hide Sane, Total, Indices, Waiting;
    if !InCondition(st) { EmittedOutside(st, op, path, marks); }
  }

  lemma EmittedOutside(st: State, op: Op, path: seq<nat>, marks: seq<nat>)
    requires Filled(st) && Sane(st, path, marks) && (|st.scopes| > 0 ==> !Waits(Top(st))) && !InCondition(st)
    ensures Emitted(st, op).Some? && Filled(Emitted(st, op).value)
  {
    hide Total, Of, Sane, Indices, ScopesOk, WaitingBlank, ConditionOk, Waiting;
    assert ScopesOk(st, path, marks) by { SaneParts(st, path, marks); }
    var st1, n := Emitted(st, op).value, |st.ops|;
    var b := BBasic(UpTo(st.blocks[st.current].ops, n + 1));
    TotalReplaced(st.blocks, Operations, st.current, b);
    LongerRange(st.blocks[st.current], b, n, Total(st.blocks, Operations));
    WaitingStays(st, st1, path, marks);
  }

  lemma LongerRange(b: Block, c: Block, n: nat, total: multiset<nat>)
    requires b.BBasic? && c == BBasic(Range(b.ops.start, b.ops.len + 1)) && b.ops.start + b.ops.len == n
    requires Of(Operations, b) <= total && total == Indices(0, n)
    ensures total - Of(Operations, b) + Of(Operations, c) == Indices(0, n + 1)
  {
    assert Indices(b.ops.start, b.ops.len + 1) == Indices(b.ops.start, b.ops.len) + multiset{n};
  }

  lemma DelimitedFilled(st: State, opening: bool, path: seq<nat>, marks: seq<nat>)
    requires Filled(st) && Sane(st, path, marks) && Delimited(st, opening).Some? && !Spoils(st, if opening then WOpen else WClose)
    ensures Filled(Delimited(st, opening).value)
  {
    hide Total, Of, ScopesOk, Way, Framed, Settled, Indices, Begin, Blank, ScopeOk;
    var st1 := Delimited(st, opening).value;
    if |st.scopes| > 0 {
      var s := Top(st);
      SaneParts(st, path, marks);
      TopOk(st, path, marks);
      if !Waits(s) && s.delimiterDepth == 1 && !opening {
        if s.kind.SCOPE_IF? { ConditionFilled(st, path, marks); } else { CleanupFilled(st, path, marks); }
      } else {
        OtherScopesWait(st, st1);
      }
    }
  }

  lemma CleanupFilled(st: State, path: seq<nat>, marks: seq<nat>)
    requires Filled(st) && Sane(st, path, marks) && |st.scopes| > 0 && !Waits(Top(st)) && Top(st).delimiterDepth == 1
    requires Top(st).kind.SCOPE_EPILOGUE? && PhaseOk(Top(st))
    ensures Filled(Delimited(st, false).value)
  {
    hide Total, Of, Sane, Indices, Begin, Blank;
    var s := Top(st);
    assert Waiting(s)[1] == s.first;
    BeginPlaced(st.blocks, s.first, |st.ops|);
    BlankIs(st.blocks, s.first);
    OtherScopesWait(st, Delimited(st, false).value);
  }

  lemma ConditionFilled(st: State, path: seq<nat>, marks: seq<nat>)
    requires Filled(st) && Sane(st, path, marks) && |st.scopes| > 0 && !Waits(Top(st)) && Top(st).delimiterDepth == 1
    requires Top(st).kind.SCOPE_IF? && PhaseOk(Top(st)) && !Spoils(st, WClose)
    ensures Filled(Delimited(st, false).value)
  {
    hide Total, Of, Sane, Indices, Begin;
    var s, n, st1 := Top(st), |st.ops|, Delimited(st, false).value;
    var b := st.blocks[s.block];
    var c := ConditionEnded(b, n);
    var bs := st.blocks[s.block := c];
    TotalReplaced(st.blocks, Operations, s.block, c);
    NoOps(b);
    assert Of(Operations, c) == Indices(b.cond.start, n - b.cond.start) by { CondOps(c); }
    IndicesJoin(0, b.cond.start, n - b.cond.start);
    assert Total(bs, Operations) == Indices(0, n);
    assert forall w :: Blank(st.blocks, w) ==> Blank(bs, w);
    BeginPlaced(bs, s.first, n);
    OtherScopesWait(st, st1);
  }

  lemma CondOps(c: Block)
    requires c.BBranch?
    ensures Of(Operations, c) == Indices(c.cond.start, c.cond.len)
  {
  }
}
