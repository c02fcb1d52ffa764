/** Every word keeps the indices of the blocks meaningful: children are blocks to run,
    chains are short and end, and ranges lie within the operations. */
module FrontendNeat {
  import opened Memory
  import opened Ir
  import opened FlatBlocks
  import opened BlockTree
  import opened FrontendState
  import opened FrontendSteps
  import opened FrontendProof
  import opened FrontendCovers
  import opened FrontendJumps
  import opened FrontendRuns
  import opened FrontendShape
  import opened FrontendOps
  import opened FrontendWhole

  predicate Runs(bs: seq<Block>, b: nat) { b < |bs| && !bs[b].BChain? }

  /** From here on the chain has at most so many links, all with a child to run. */
  predicate ChainEnds(bs: seq<Block>, next: nat, links: nat)
    decreases links
  {
    next == INVALID ||
    (links > 0 && next < |bs| && bs[next].BChain? && Runs(bs, bs[next].cur) && ChainEnds(bs, bs[next].next, links - 1))
  }

  predicate Within(r: Range, nops: nat) { r.start + r.len <= nops }

  predicate NeatBlock(bs: seq<Block>, b: Block, nops: nat) {
    match b
    case BBasic(r) => Within(r, nops)
    case BMany(cur, next) => Runs(bs, cur) && ChainEnds(bs, next, 2)
    case BDefer(next, cleanup) => Runs(bs, next) && Runs(bs, cleanup) && next != cleanup
    case BBranch(cond, yes, no) => Within(cond, nops) && Runs(bs, yes) && Runs(bs, no)
    case BLoop(body) => Runs(bs, body)
    case BVar(_, body) => Runs(bs, body)
    case BChain(_, _) => true
    case BBreak(_) => true
    case _ => false
  }

  /** What the frontend builds: no crashes and crash pads, and all indices as they should be. */
  predicate Neat(bs: seq<Block>, nops: nat) {
    |bs| > 0 && !bs[0].BChain? && |bs| <= INVALID && forall i :: 0 <= i < |bs| ==> NeatBlock(bs, bs[i], nops)
  }

  /** Old blocks keep their links, basic blocks do not become links of a chain. */
  predicate Keeps(bs: seq<Block>, cs: seq<Block>) {
    Grown(bs, cs) && forall i :: 0 <= i < |bs| && bs[i].BBasic? ==> !cs[i].BChain?
  }

  lemma RunsStays(bs: seq<Block>, cs: seq<Block>, b: nat)
    requires Keeps(bs, cs) && Runs(bs, b)
    ensures Runs(cs, b)
  {
  }

  lemma {:induction false} ChainEndsStays(bs: seq<Block>, cs: seq<Block>, next: nat, links: nat)
    requires Keeps(bs, cs) && ChainEnds(bs, next, links)
    ensures ChainEnds(cs, next, links)
    decreases links
  {
    if next != INVALID {
      RunsStays(bs, cs, bs[next].cur);
      ChainEndsStays(bs, cs, bs[next].next, links - 1);
    }
  }

  lemma NeatStays(bs: seq<Block>, cs: seq<Block>, b: Block, n: nat, m: nat)
    requires Keeps(bs, cs) && NeatBlock(bs, b, n) && n <= m
    ensures NeatBlock(cs, b, m)
  {
    hide ChainEnds;
    match b
    case BMany(cur, next) => ChainEndsStays(bs, cs, next, 2);
    case _ =>
  }

  /** Blocks were added or replaced by neat ones. */
  lemma NeatOn(bs: seq<Block>, cs: seq<Block>, n: nat, m: nat)
    requires Neat(bs, n) && Keeps(bs, cs) && n <= m && |cs| <= INVALID
    requires forall i :: 0 <= i < |cs| && !(i < |bs| && cs[i] == bs[i]) ==> NeatBlock(cs, cs[i], m)
    ensures Neat(cs, m)
  {
    hide NeatBlock;
    forall i | 0 <= i < |cs| ensures NeatBlock(cs, cs[i], m) {
      if i < |bs| && cs[i] == bs[i] { NeatStays(bs, cs, bs[i], n, m); }
    }
    RootStays(bs, cs);
  }

  lemma RootStays(bs: seq<Block>, cs: seq<Block>)
    requires Keeps(bs, cs) && |bs| > 0 && !bs[0].BChain?
    ensures |cs| > 0 && !cs[0].BChain?
  {
  }

  // ----- splicing -----

  lemma WrapKeeps(st: State, extra: seq<Block>, middle: Block)
    requires st.current < |st.blocks| && st.blocks[st.current].BBasic?
    ensures Keeps(st.blocks, WrapAround(st, extra, middle))
  {
    hide Wrapped;
    WrapElsewhere(st, extra, middle);
    WrappedAt(st.blocks + extra, st.current, middle, |st.ops|);
  }

  lemma WrapNeat(st: State, extra: seq<Block>, middle: Block)
    requires Neat(st.blocks, |st.ops|) && st.current < |st.blocks| && st.blocks[st.current].BBasic? && |st.blocks| + |extra| + 5 < INVALID
    requires !middle.BChain? && NeatBlock(WrapAround(st, extra, middle), middle, |st.ops|)
    requires forall k :: 0 <= k < |extra| ==> NeatBlock(WrapAround(st, extra, middle), extra[k], |st.ops|)
    ensures Neat(WrapAround(st, extra, middle), |st.ops|)
  {
    hide Wrapped, NeatBlock, Keeps, Neat;
    var bs, ws, n, N := st.blocks, WrapAround(st, extra, middle), |st.blocks|, |st.blocks| + |extra|;
    WrapKeeps(st, extra, middle);
    WrapElsewhere(st, extra, middle);
    WrappedAt(bs + extra, st.current, middle, |st.ops|);
    SpliceNeat(ws, N, |st.ops|);
    assert NeatBlock(ws, bs[st.current], |st.ops|) by { NeatHere(st, ws); }
    forall i | 0 <= i < |ws| && !(i < |bs| && ws[i] == bs[i]) ensures NeatBlock(ws, ws[i], |st.ops|) {
      if n <= i < N { assert ws[n + (i - n)] == extra[i - n]; }
    }
    NeatOn(bs, ws, |st.ops|, |st.ops|);
  }

  lemma NeatHere(st: State, ws: seq<Block>)
    requires Neat(st.blocks, |st.ops|) && st.current < |st.blocks| && Keeps(st.blocks, ws)
    ensures NeatBlock(ws, st.blocks[st.current], |st.ops|)
  {
    hide NeatBlock;
    NeatStays(st.blocks, ws, st.blocks[st.current], |st.ops|, |st.ops|);
  }

  /** The five blocks of a splice. */
  lemma SpliceNeat(ws: seq<Block>, n: nat, nops: nat)
    requires |ws| == n + 5 < INVALID
    requires !ws[n].BChain? && !ws[n + 1].BChain? && ws[n + 2] == BChain(n + 1, n + 4) && !ws[n + 3].BChain? && ws[n + 4] == BChain(n + 3, INVALID)
    ensures NeatBlock(ws, BMany(n, n + 2), nops) && NeatBlock(ws, ws[n + 2], nops) && NeatBlock(ws, ws[n + 4], nops)
    ensures NeatBlock(ws, BBasic(Range(nops, 0)), nops)
  {
    assert ChainEnds(ws, INVALID, 0);
    assert ChainEnds(ws, n + 4, 1);
  }

  lemma VarNeat(st: State)
    requires Neat(st.blocks, |st.ops|) && st.current < |st.blocks| && st.blocks[st.current].BBasic? && |st.blocks| + 4 <= INVALID
    ensures Neat(VarAround(st), |st.ops|)
  {
    hide NeatBlock, Neat, Refs;
    var bs, ws, n := st.blocks, VarAround(st), |st.blocks|;
    VarRefs(st);
    assert ws[n] == bs[st.current] && ws[n + 3] == Fresh(st);
    assert Keeps(bs, ws);
    NeatHere(st, ws);
    VarSpliceNeat(ws, n, |st.vars|, |st.ops|);
    NeatOn(bs, ws, |st.ops|, |st.ops|);
  }

  lemma VarSpliceNeat(ws: seq<Block>, n: nat, v: nat, nops: nat)
    requires |ws| == n + 4 && !ws[n].BChain? && ws[n + 1] == BVar(v, n + 3) && ws[n + 2] == BChain(n + 1, INVALID) && !ws[n + 3].BChain?
    ensures NeatBlock(ws, BMany(n, n + 2), nops) && NeatBlock(ws, ws[n + 1], nops) && NeatBlock(ws, ws[n + 2], nops)
    ensures NeatBlock(ws, BBasic(Range(nops, 0)), nops)
  {
    assert ChainEnds(ws, INVALID, 1);
  }

  // ----- the other words -----

  lemma OneChanged(bs: seq<Block>, i: nat, b: Block, n: nat, m: nat)
    requires Neat(bs, n) && n <= m && i < |bs| && NeatBlock(bs, b, m)
    requires (bs[i].BBasic? && b.BBasic?) || (bs[i].BBranch? && b.BBranch? && SameLinks(bs[i], b))
    ensures Neat(bs[i := b], m)
  {
    hide NeatBlock, Neat;
    assert Keeps(bs, bs[i := b]);
    NeatStays(bs, bs[i := b], b, m, m);
    assert |bs| <= INVALID by { NeatSize(bs, n); }
    NeatOn(bs, bs[i := b], n, m);
  }

  lemma NeatSize(bs: seq<Block>, n: nat)
    requires Neat(bs, n)
    ensures |bs| <= INVALID
  {
  }

  lemma NeatMore(bs: seq<Block>, n: nat, m: nat)
    requires Neat(bs, n) && n <= m
    ensures Neat(bs, m)
  {
    hide NeatBlock;
    assert Keeps(bs, bs);
    NeatOn(bs, bs, n, m);
  }

  lemma BeginNeat(bs: seq<Block>, i: nat, n: nat)
    requires Neat(bs, n) && Blank(bs, i)
    ensures Neat(Begin(bs, i, n), n)
  {
    hide Neat;
    OneChanged(bs, i, BBasic(Range(n, 0)), n, n);
  }

  lemma EmittedNeat(st: State, op: Op)
    requires Neat(st.blocks, |st.ops|) && CurrentOk(st)
    ensures Emitted(st, op).Some? && Neat(Emitted(st, op).value.blocks, |Emitted(st, op).value.ops|)
  {
    hide Neat;
    var n := |st.ops|;
    if InCondition(st) {
      NeatMore(st.blocks, n, n + 1);
    } else {
      OneChanged(st.blocks, st.current, BBasic(UpTo(st.blocks[st.current].ops, n + 1)), n, n + 1);
    }
  }

  lemma EndedNeat(st: State)
    requires Neat(st.blocks, |st.ops|) && Filled(st) && |st.scopes| > 0 && PhaseOk(Top(st))
    ensures Neat(Ended(st).blocks, |st.ops|)
  {
    hide Neat, Total, Of, Indices, Begin, Blank;
    var s, bs := Top(st), st.blocks;
    AfterWaits(s);
    if s.kind.SCOPE_IF? && s.phase.SCOPE_BODY? {
      SecondWaits(s);
      BeginPlaced(bs, s.second, |st.ops|);
      BeginNeat(bs, s.second, |st.ops|);
      bs := Begin(bs, s.second, |st.ops|);
    }
    BeginNeat(bs, s.after, |st.ops|);
  }

  lemma SecondNeat(st: State, phase: Phase)
    requires Neat(st.blocks, |st.ops|) && Filled(st) && |st.scopes| > 0 && Top(st).phase.SCOPE_BODY?
    requires Top(st).kind.SCOPE_IF? || (Top(st).kind.SCOPE_EPILOGUE? && !Top(st).implicitEnd)
    ensures Neat(SecondBegun(st, phase).blocks, |st.ops|)
  {
    hide Neat, Total, Of, Indices, Begin, Blank;
    assert Waiting(Top(st))[1] == Top(st).second;
    BeginNeat(st.blocks, Top(st).second, |st.ops|);
  }

  lemma {:induction false} ImplicitNeat(st: State, path: seq<nat>, marks: seq<nat>)
    requires Neat(st.blocks, |st.ops|) && Filled(st) && Sane(st, path, marks) && (|st.scopes| > 0 ==> !Opens(Top(st)))
    ensures Neat(ImplicitEnded(st).blocks, |st.ops|)
    decreases |st.scopes|
  {
    hide Filled, Sane, Ended, ImplicitBody, Opens, Neat;
    if |st.scopes| > 0 && ImplicitBody(Top(st)) {
      MarksCount(st, path, marks);
      SaneParts(st, path, marks);
      assert PhaseOk(Top(st)) by { TopOk(st, path, marks); }
      var m := marks[|marks| - 1];
      EndedNeat(st);
      EndedFilled(st, path, marks);
      EndedKeeps(st, path, marks, m);
      EndedShorter(st);
      EndedOps(st);
      assert |Ended(st).scopes| > 0 ==> !Opens(Top(Ended(st))) by { SettledOf(st, path, marks); EndedSettled(st); }
      ImplicitNeat(Ended(st), path[..m + 1] + [Top(st).after], marks[..|marks| - 1]);
    }
  }

  lemma EndedOps(st: State)
    requires |st.scopes| > 0
    ensures Ended(st).ops == st.ops
  {
  }

  lemma DelimitedNeat(st: State, opening: bool, path: seq<nat>, marks: seq<nat>)
    requires Neat(st.blocks, |st.ops|) && Filled(st) && Sane(st, path, marks)
    requires Delimited(st, opening).Some? && !Spoils(st, if opening then WOpen else WClose)
    ensures Neat(Delimited(st, opening).value.blocks, |st.ops|)
  {
    hide Neat, Sane, Total, Of, Indices, Begin, Blank, ScopesOk, Way;
    SaneParts(st, path, marks);
    if |st.scopes| > 0 && !Waits(Top(st)) && Top(st).delimiterDepth == 1 && !opening {
      TopOk(st, path, marks);
      var s, bs := Top(st), st.blocks;
      if s.kind.SCOPE_IF? {
        bs := st.blocks[s.block := ConditionEnded(st.blocks[s.block], |st.ops|)];
        assert Neat(bs, |st.ops|) by { ConditionNeat(st.blocks, s.block, |st.ops|); }
        assert Blank(bs, s.first) by { BlankElsewhere(st.blocks, s.block, bs[s.block], s.first); }
      } else {
        assert Waiting(s)[1] == s.first;
      }
      BeginNeat(bs, s.first, |st.ops|);
    }
  }

  lemma ConditionNeat(bs: seq<Block>, i: nat, n: nat)
    requires Neat(bs, n) && i < |bs| && bs[i].BBranch?
    ensures Neat(bs[i := ConditionEnded(bs[i], n)], n)
  {
    assert NeatBlock(bs, bs[i], n);
    assert NeatBlock(bs, ConditionEnded(bs[i], n), n);
    hide Neat, NeatBlock;
    OneChanged(bs, i, ConditionEnded(bs[i], n), n, n);
  }

  // ----- words -----

  ghost predicate Good(st: State, path: seq<nat>, marks: seq<nat>) {
    Shaped(st, path, marks) && Neat(st.blocks, |st.ops|)
  }

  lemma GoodParts(st: State, path: seq<nat>, marks: seq<nat>)
    requires Good(st, path, marks)
    ensures Shaped(st, path, marks) && Sane(st, path, marks) && Filled(st) && InRange(st) && Neat(st.blocks, |st.ops|)
    ensures st.blocks[st.current].BBasic?
  {
  }

  lemma LoopNeat(st: State)
    requires Neat(st.blocks, |st.ops|) && st.current < |st.blocks| && st.blocks[st.current].BBasic? && LoopBegun(st).Some?
    ensures Neat(LoopBegun(st).value.blocks, |st.ops|)
  {
    hide Neat, Wrapped;
    var n, extra := |st.blocks|, [Fresh(st), BMany(|st.blocks|, INVALID)];
    WrapElsewhere(st, extra, BLoop(n + 1));
    assert extra[0] == Fresh(st) && extra[1] == BMany(n, INVALID);
    var ws := WrapAround(st, extra, BLoop(n + 1));
    assert ws[n + 0] == Fresh(st) && ws[n + 1] == BMany(n, INVALID);
    WrapNeat(st, extra, BLoop(n + 1));
  }

  lemma ArmsNeat(st: State, middle: Block)
    requires Neat(st.blocks, |st.ops|) && st.current < |st.blocks| && st.blocks[st.current].BBasic? && |st.blocks| + 7 < INVALID
    requires var n := |st.blocks|; middle == BBranch(Range(|st.ops|, 0), n, n + 1) || middle == BDefer(n, n + 1)
    ensures Neat(WrapAround(st, [Fresh(st), Fresh(st)], middle), |st.ops|)
  {
    hide Neat, Wrapped;
    var n, extra := |st.blocks|, [Fresh(st), Fresh(st)];
    WrapElsewhere(st, extra, middle);
    assert extra[0] == Fresh(st) && extra[1] == Fresh(st);
    var ws := WrapAround(st, extra, middle);
    assert ws[n + 0] == Fresh(st) && ws[n + 1] == Fresh(st);
    WrapNeat(st, extra, middle);
  }

  lemma JumpNeat(st: State, again: bool)
    requires Neat(st.blocks, |st.ops|) && st.current < |st.blocks| && st.blocks[st.current].BBasic? && Exited(st, again).Some?
    ensures Neat(Exited(st, again).value.blocks, |st.ops|)
  {
    hide Neat, Wrapped, LeavesNoCleanup;
    var n := InnermostLoop(st.scopes);
    WrapNeat(st, [], BBreak(st.depth + 2 - (if again then st.scopes[n - 1].continueDepth else st.scopes[n - 1].breakDepth)));
  }

  lemma ControlNeat(st: State, w: Token, path: seq<nat>, marks: seq<nat>)
    requires Good(st, path, marks) && InRange(st) && Control(st, w).Some?
    ensures Neat(Control(st, w).value.blocks, |st.ops|) && Control(st, w).value.ops == st.ops
  {
    hide Good, Neat, Sane, Filled, Shaped, InRange, Opens, ImplicitEnded, Wrapped, SecondBegun, Ended, Exited;
    GoodParts(st, path, marks);
    if w.WLoop? {
      LoopNeat(st);
    } else if w.WIf? {
      ArmsNeat(st, BBranch(Range(|st.ops|, 0), |st.blocks|, |st.blocks| + 1));
    } else if w.WStart? || w.WDefer? {
      ArmsNeat(st, BDefer(|st.blocks|, |st.blocks| + 1));
    } else if w.WBreak? || w.WContinue? {
      JumpNeat(st, w.WContinue?);
      JumpOps(st, w.WContinue?);
    } else {
      EndingNeat(st, w, path, marks);
    }
  }

  lemma JumpOps(st: State, again: bool)
    requires st.current < |st.blocks| && Exited(st, again).Some?
    ensures Exited(st, again).value.ops == st.ops
  {
  }

  lemma EndingNeat(st: State, w: Token, path: seq<nat>, marks: seq<nat>)
    requires Good(st, path, marks) && InRange(st) && Control(st, w).Some?
    requires !(w.WLoop? || w.WIf? || w.WStart? || w.WDefer? || w.WBreak? || w.WContinue?)
    ensures Neat(Control(st, w).value.blocks, |st.ops|) && Control(st, w).value.ops == st.ops
  {
    hide Good, Neat, Sane, Filled, Shaped, Opens, ImplicitEnded, SecondBegun, Ended;
    GoodParts(st, path, marks);
    var t := ImplicitEnded(st);
    ImplicitInRange(st);
    ImplicitFilled(st, path, marks);
    ImplicitNeat(st, path, marks);
    var path1, marks1 := ImplicitKeeps(st, path, marks);
    if w.WElse? || w.WFinally? {
      SecondNeat(t, if w.WElse? then SCOPE_ELSE_BODY else SCOPE_CLEANUP);
      SecondOps(t, if w.WElse? then SCOPE_ELSE_BODY else SCOPE_CLEANUP);
    } else {
      SaneParts(t, path1, marks1);
      assert PhaseOk(Top(t)) by { TopOk(t, path1, marks1); }
      EndedNeat(t);
      EndedOps(t);
    }
  }

  lemma SecondOps(st: State, phase: Phase)
    requires |st.scopes| > 0
    ensures SecondBegun(st, phase).ops == st.ops
  {
  }

  lemma WordNeat(st: State, w: Token, ntypes: nat, path: seq<nat>, marks: seq<nat>)
    requires Good(st, path, marks) && InRange(st) && Step(st, w, ntypes).Some? && !Spoils(st, w)
    requires |Step(st, w, ntypes).value.blocks| <= INVALID
    ensures Neat(Step(st, w, ntypes).value.blocks, |Step(st, w, ntypes).value.ops|)
  {
    hide Good, Neat, Sane, Filled, Shaped, InRange, Opens, Waits, Control, VarDeclared, Emitted, Delimited, Spoils;
    GoodParts(st, path, marks);
    match w
    case WOpen => DelimitedNeat(st, true, path, marks); DelimitedOps(st, true);
    case WClose => DelimitedNeat(st, false, path, marks); DelimitedOps(st, false);
    case WOp(op) => CurrentOf(st); EmittedNeat(st, op);
    case WNative(g) =>
      CurrentOf(st);
      EmittedNeat(st, PushGlobal(g));
      EmittedFilled(st, PushGlobal(g), path, marks);
      CurrentOf(Emitted(st, PushGlobal(g)).value);
      EmittedNeat(Emitted(st, PushGlobal(g)).value, CallNative);
    case WVar(tid, name) => VarWordNeat(st, tid, name, ntypes);
    case _ => ControlNeat(st, w, path, marks);
  }

  lemma CurrentOf(st: State)
    requires Filled(st)
    ensures CurrentOk(st)
  {
  }

  lemma DelimitedOps(st: State, opening: bool)
    requires Delimited(st, opening).Some?
    ensures Delimited(st, opening).value.ops == st.ops
  {
  }

  lemma VarWordNeat(st: State, tid: nat, name: string, ntypes: nat)
    requires Neat(st.blocks, |st.ops|) && st.current < |st.blocks| && st.blocks[st.current].BBasic?
    requires VarDeclared(st, tid, name, ntypes).Some? && |VarDeclared(st, tid, name, ntypes).value.blocks| <= INVALID
    ensures Neat(VarDeclared(st, tid, name, ntypes).value.blocks, |VarDeclared(st, tid, name, ntypes).value.ops|)
  {
    hide Neat, Named;
    VarNeat(st);
  }

  lemma {:induction false} FeedGood(st: State, words: seq<Token>, ntypes: nat, path: seq<nat>, marks: seq<nat>)
      returns (path1: seq<nat>, marks1: seq<nat>)
    requires InRange(st) && Good(st, path, marks) && Clean(st, words, ntypes) && Feed(st, words, ntypes).Some?
    requires |Feed(st, words, ntypes).value.blocks| <= INVALID
    ensures Good(Feed(st, words, ntypes).value, path1, marks1)
    decreases |words|
  {
    hide Neat, Shaped, Step, InRange, Spoils, Stays;
    path1, marks1 := path, marks;
    if |words| > 0 {
      var next := Step(st, words[0], ntypes).value;
      StepInRange(st, words[0], ntypes);
      FeedGrows(next, words[1..], ntypes);
      var p, m, made := WordShapes(st, words[0], ntypes, path, marks);
      WordNeat(st, words[0], ntypes, path, marks);
      path1, marks1 := FeedGood(next, words[1..], ntypes, p, m);
    }
  }

  lemma SourceGood(words: seq<Token>, ntypes: nat)
    requires InRange(START) && Clean(START, words, ntypes) && Compiled(START, words, ntypes).Some?
    requires |Compiled(START, words, ntypes).value.blocks| <= INVALID
    ensures var t := Compiled(START, words, ntypes).value; Neat(t.blocks, |t.ops|)
  {
    hide Neat, Shaped, Clean, ImplicitEnded, Feed, InRange, Sane, Filled;
    StartShaped();
    StartNeat();
    var last := Feed(START, words, ntypes).value;
    FeedGrows(START, words, ntypes);
    ImplicitInRange(last);
    var path, marks := FeedGood(START, words, ntypes, [0], []);
    NotOpenAtEnd(last);
    GoodParts(last, path, marks);
    ImplicitNeat(last, path, marks);
  }

  lemma StartNeat()
    ensures Neat(START.blocks, |START.ops|)
  {
  }
}
