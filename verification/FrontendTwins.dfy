/** What the frontend builds does not depend on its depth counts, but for the levels of breaks:
    two states that differ only there stay so under every word. */
module FrontendTwins {
  import opened Memory
  import opened Ir
  import opened FlatBlocks
  import opened BlockTree
  import opened FrontendState
  import opened FrontendSteps

  /** The same block, up to the level of a break. */
  predicate SameBlock(b: Block, c: Block) { b == c || (b.BBreak? && c.BBreak?) }

  predicate SameBlocks(bs: seq<Block>, cs: seq<Block>) {
    |bs| == |cs| && forall i :: 0 <= i < |bs| ==> SameBlock(bs[i], cs[i])
  }

  /** The same scope, up to its depths. */
  predicate SameScope(s: OpenScope, t: OpenScope) {
    t == s.(parentDepth := t.parentDepth, breakDepth := t.breakDepth, continueDepth := t.continueDepth)
  }

  predicate SameScopes(ss: seq<OpenScope>, ts: seq<OpenScope>) {
    |ss| == |ts| && forall k :: 0 <= k < |ss| ==> SameScope(ss[k], ts[k])
  }

  predicate Twins(st: State, c: State) {
    && SameBlocks(st.blocks, c.blocks) && SameScopes(st.scopes, c.scopes)
    && c.ops == st.ops && c.vars == st.vars && c.current == st.current
  }

  predicate OptionTwins(a: Option<State>, b: Option<State>) {
    (a.Some? <==> b.Some?) && (a.Some? ==> Twins(a.value, b.value))
  }

  lemma TwinsInRange(st: State, c: State)
    requires Twins(st, c) && InRange(st)
    ensures InRange(c)
  {
    forall k | 0 <= k < |c.scopes| ensures c.scopes[k].block < |c.blocks| && c.scopes[k].first < |c.blocks|
      && c.scopes[k].second < |c.blocks| && c.scopes[k].after < |c.blocks|
    {
      assert SameScope(st.scopes[k], c.scopes[k]);
    }
  }

  lemma TopTwins(st: State, c: State)
    requires Twins(st, c) && |st.scopes| > 0
    ensures |c.scopes| > 0 && SameScope(Top(st), Top(c))
  {
  }

  // ----- trees -----

  lemma TwinRefs(bs: seq<Block>, cs: seq<Block>)
    requires SameBlocks(bs, cs)
    ensures IsTree(bs) <==> IsTree(cs)
    ensures Total(bs, Operations) == Total(cs, Operations)
  {
    hide Total, Reached, Refs, OpsOf;
    forall i | 0 <= i < |bs| ensures Of(References, bs[i]) == Of(References, cs[i]) && Of(Operations, bs[i]) == Of(Operations, cs[i]) {
      TwinOf(bs[i], cs[i]);
    }
    assert forall i :: 0 <= i < |bs| ==> Refs(bs[i]) == Of(References, bs[i]) && Refs(cs[i]) == Of(References, cs[i]);
    TotalSame(bs, cs, References);
    TotalSame(bs, cs, Operations);
    if IsTree(bs) {
      forall b | 0 <= b < |cs| ensures Reached(cs, b) { ReachedStays(bs, cs, b); }
    } else if IsTree(cs) {
      forall b | 0 <= b < |bs| ensures Reached(bs, b) { ReachedStays(cs, bs, b); }
    }
  }

  lemma TwinOf(b: Block, c: Block)
    requires SameBlock(b, c)
    ensures Of(References, b) == Of(References, c) && Of(Operations, b) == Of(Operations, c)
  {
  }

  // ----- the parts of a step -----

  lemma WrapTwins(st: State, c: State, extra: seq<Block>, b: Block, d: Block)
    requires Twins(st, c) && st.current < |st.blocks| && SameBlock(b, d)
    ensures SameBlocks(WrapAround(st, extra, b), WrapAround(c, extra, d))
  {
  }

  lemma BeginTwins(bs: seq<Block>, cs: seq<Block>, i: nat, n: nat)
    requires SameBlocks(bs, cs)
    ensures SameBlocks(Begin(bs, i, n), Begin(cs, i, n))
  {
  }

  lemma PushTwins(ss: seq<OpenScope>, ts: seq<OpenScope>, s: OpenScope, t: OpenScope)
    requires SameScopes(ss, ts) && SameScope(s, t)
    ensures SameScopes(ss + [s], ts + [t])
  {
  }

  lemma SetTwins(st: State, c: State, s: OpenScope, t: OpenScope)
    requires Twins(st, c) && |st.scopes| > 0 && SameScope(s, t)
    ensures Twins(SetTop(st, s), SetTop(c, t))
  {
  }

  lemma OpeningTwins(st: State, c: State, implicitEnd: bool)
    requires Twins(st, c) && st.current < |st.blocks|
    ensures OptionTwins(LoopBegun(st), LoopBegun(c)) && OptionTwins(IfBegun(st), IfBegun(c))
    ensures OptionTwins(EpilogueBegun(st, implicitEnd), EpilogueBegun(c, implicitEnd))
  {
    hide Wrapped, SameBlocks, SameScopes;
    assert |st.blocks| == |c.blocks| by { SameLength(st, c); }
    var n := |st.blocks|;
    WrapTwins(st, c, [Fresh(st), BMany(n, INVALID)], BLoop(n + 1), BLoop(n + 1));
    WrapTwins(st, c, [Fresh(st), Fresh(st)], BBranch(Range(|st.ops|, 0), n, n + 1), BBranch(Range(|st.ops|, 0), n, n + 1));
    WrapTwins(st, c, [Fresh(st), Fresh(st)], BDefer(n, n + 1), BDefer(n, n + 1));
    PushTwins(st.scopes, c.scopes, LoopScope(st), LoopScope(c));
    PushTwins(st.scopes, c.scopes, IfScope(st), IfScope(c));
    PushTwins(st.scopes, c.scopes, EpilogueScope(st, implicitEnd), EpilogueScope(c, implicitEnd));
  }

  lemma SameLength(st: State, c: State)
    requires Twins(st, c)
    ensures |st.blocks| == |c.blocks| && |st.scopes| == |c.scopes|
  {
  }

  lemma {:induction false} LoopTwins(ss: seq<OpenScope>, ts: seq<OpenScope>)
    requires SameScopes(ss, ts)
    ensures InnermostLoop(ss) == InnermostLoop(ts)
    ensures forall n :: LeavesNoCleanup(ss, n) <==> LeavesNoCleanup(ts, n)
    decreases |ss|
  {
    if |ss| > 0 {
      var i := |ss| - 1;
      assert SameScope(ss[i], ts[i]);
      LoopTwins(ss[..i], ts[..i]);
    }
    forall n ensures LeavesNoCleanup(ss, n) <==> LeavesNoCleanup(ts, n) {
      assert forall k :: 0 <= k < |ss| ==> SameScope(ss[k], ts[k]);
    }
  }

  lemma ExitedTwins(st: State, c: State, again: bool)
    requires Twins(st, c) && st.current < |st.blocks| && Exited(st, again).Some? && Exited(c, again).Some?
    ensures Twins(Exited(st, again).value, Exited(c, again).value)
  {
    hide Wrapped, SameBlocks, SameScopes, LeavesNoCleanup;
    assert |st.blocks| == |c.blocks| by { SameLength(st, c); }
    var n, m := InnermostLoop(st.scopes), InnermostLoop(c.scopes);
    var b := BBreak(st.depth + 2 - (if again then st.scopes[n - 1].continueDepth else st.scopes[n - 1].breakDepth));
    var d := BBreak(c.depth + 2 - (if again then c.scopes[m - 1].continueDepth else c.scopes[m - 1].breakDepth));
    WrapTwins(st, c, [], b, d);
  }

  lemma SecondTwins(st: State, c: State, phase: Phase)
    requires Twins(st, c) && |st.scopes| > 0
    ensures |c.scopes| > 0 && Twins(SecondBegun(st, phase), SecondBegun(c, phase))
  {
    hide Begin, SameBlocks;
    TopTwins(st, c);
    BeginTwins(st.blocks, c.blocks, Top(st).second, |st.ops|);
    SetTwins(st, c, Top(st).(phase := phase), Top(c).(phase := phase));
  }

  lemma EndedTwins(st: State, c: State)
    requires Twins(st, c) && |st.scopes| > 0
    ensures |c.scopes| > 0 && Twins(Ended(st), Ended(c))
  {
    hide Begin, SameBlocks;
    TopTwins(st, c);
    var s, bs, cs := Top(st), st.blocks, c.blocks;
    if s.kind.SCOPE_IF? && s.phase.SCOPE_BODY? {
      BeginTwins(bs, cs, s.second, |st.ops|);
      bs, cs := Begin(bs, s.second, |st.ops|), Begin(cs, s.second, |st.ops|);
    }
    BeginTwins(bs, cs, s.after, |st.ops|);
  }

  lemma {:induction false} ImplicitTwins(st: State, c: State)
    requires Twins(st, c)
    ensures Twins(ImplicitEnded(st), ImplicitEnded(c))
    decreases |st.scopes|
  {
    hide Ended;
    if |st.scopes| > 0 {
      TopTwins(st, c);
      if ImplicitBody(Top(st)) {
        EndedTwins(st, c);
        assert |Ended(st).scopes| < |st.scopes| by { FewerScopes(st); }
        ImplicitTwins(Ended(st), Ended(c));
      }
    }
  }

  lemma FewerScopes(st: State)
    requires |st.scopes| > 0
    ensures |Ended(st).scopes| == |st.scopes| - 1
  {
  }

  lemma EmittedTwins(st: State, c: State, op: Op)
    requires Twins(st, c)
    ensures OptionTwins(Emitted(st, op), Emitted(c, op))
  {
    if |st.scopes| > 0 { TopTwins(st, c); }
    assert forall i :: 0 <= i < |st.blocks| ==> SameBlock(st.blocks[i], c.blocks[i]);
  }

  lemma VarTwins(st: State, c: State, tid: nat, name: string, ntypes: nat)
    requires Twins(st, c) && st.current < |st.blocks|
    ensures OptionTwins(VarDeclared(st, tid, name, ntypes), VarDeclared(c, tid, name, ntypes))
  {
    hide Named;
  }

  lemma DelimitedTwins(st: State, c: State, opening: bool)
    requires Twins(st, c)
    ensures OptionTwins(Delimited(st, opening), Delimited(c, opening))
  {
    hide Begin, SameBlocks;
    assert SameBlocks(st.blocks, c.blocks) && |st.scopes| == |c.scopes|;
    if |st.scopes| > 0 {
      TopTwins(st, c);
      var s, t := Top(st), Top(c);
      var kind := if s.kind.SCOPE_IF? then SCOPE_CONDITION else SCOPE_CLEANUP;
      SetTwins(st, c, s.(delimiterDepth := 1, phase := kind), t.(delimiterDepth := 1, phase := kind));
      SetTwins(st, c, s.(delimiterDepth := s.delimiterDepth + 1), t.(delimiterDepth := s.delimiterDepth + 1));
      if s.delimiterDepth > 1 {
        SetTwins(st, c, s.(delimiterDepth := s.delimiterDepth - 1), t.(delimiterDepth := s.delimiterDepth - 1));
      }
      SetTwins(st, c, s.(delimiterDepth := 0, phase := SCOPE_BODY), t.(delimiterDepth := 0, phase := SCOPE_BODY));
      if s.kind.SCOPE_IF? && s.block < |st.blocks| {
        ConditionTwins(st.blocks, c.blocks, s.block, |st.ops|);
        BeginTwins(Put(st.blocks, s.block, ConditionEnded(st.blocks[s.block], |st.ops|)),
                   Put(c.blocks, s.block, ConditionEnded(c.blocks[s.block], |st.ops|)), s.first, |st.ops|);
      } else {
        SameSize(st.blocks, c.blocks);
        BeginTwins(st.blocks, c.blocks, s.first, |st.ops|);
      }
    }
  }

  lemma SameSize(bs: seq<Block>, cs: seq<Block>)
    requires SameBlocks(bs, cs)
    ensures |bs| == |cs|
  {
  }

  lemma ConditionTwins(bs: seq<Block>, cs: seq<Block>, i: nat, n: nat)
    requires SameBlocks(bs, cs) && i < |bs|
    ensures i < |cs| && SameBlocks(Put(bs, i, ConditionEnded(bs[i], n)), Put(cs, i, ConditionEnded(cs[i], n)))
  {
  }

  // ----- words -----

  predicate Jumps(w: Token) { w.WBreak? || w.WContinue? }

  /** A word does the same to both, but that a jump may be refused on one side only. */
  lemma StepTwins(st: State, c: State, w: Token, ntypes: nat)
    requires Twins(st, c) && InRange(st) && InRange(c)
    requires Jumps(w) ==> Step(st, w, ntypes).Some? && Step(c, w, ntypes).Some?
    ensures OptionTwins(Step(st, w, ntypes), Step(c, w, ntypes))
  {
    hide Delimited, Emitted, VarDeclared, Control, InRange, Twins;
    assert |st.scopes| == |c.scopes| by { SameLength(st, c); }
    if |st.scopes| > 0 { TopTwins(st, c); }
    assert st.current < |st.blocks| by { CurrentInRange(st); }
    match w
    case WOpen => DelimitedTwins(st, c, true);
    case WClose => DelimitedTwins(st, c, false);
    case WOp(op) => EmittedTwins(st, c, op);
    case WNative(g) =>
      EmittedTwins(st, c, PushGlobal(g));
      if Emitted(st, PushGlobal(g)).Some? { EmittedTwins(Emitted(st, PushGlobal(g)).value, Emitted(c, PushGlobal(g)).value, CallNative); }
    case WVar(tid, name) => VarTwins(st, c, tid, name, ntypes);
    case _ => ControlTwins(st, c, w);
  }

  lemma CurrentInRange(st: State)
    requires InRange(st)
    ensures st.current < |st.blocks|
  {
  }

  lemma ControlTwins(st: State, c: State, w: Token)
    requires Twins(st, c) && InRange(st) && InRange(c) && !w.WOpen? && !w.WClose?
    requires Jumps(w) ==> Control(st, w).Some? && Control(c, w).Some?
    ensures OptionTwins(Control(st, w), Control(c, w))
  {
    hide Twins, LoopBegun, IfBegun, EpilogueBegun, Exited, SecondBegun, Ended, ImplicitEnded, InRange;
    assert |st.scopes| == |c.scopes| by { SameLength(st, c); }
    if |st.scopes| > 0 { TopTwins(st, c); }
    CurrentInRange(st);
    CurrentInRange(c);
    OpeningTwins(st, c, w.WDefer?);
    if Jumps(w) { ExitedTwins(st, c, w.WContinue?); }
    var t, d := ImplicitEnded(st), ImplicitEnded(c);
    ImplicitTwins(st, c);
    assert |t.scopes| == |d.scopes| by { SameLength(t, d); }
    if |t.scopes| > 0 {
      TopTwins(t, d);
      EndedTwins(t, d);
      SecondTwins(t, d, SCOPE_ELSE_BODY);
      SecondTwins(t, d, SCOPE_CLEANUP);
    }
  }
}
