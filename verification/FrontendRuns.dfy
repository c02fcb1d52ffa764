/** Whole sources: every BREAK and CONTINUE in them lands where it should. */
module FrontendRuns {
  import opened Memory
  import opened Ir
  import opened FlatBlocks
  import opened FrontendState
  import opened FrontendSteps
  import opened FrontendProof
  import opened FrontendCovers
  import opened FrontendJumps

  /** The blocks grow, and the only new breaks are the given ones. */
  predicate Builds(bs: seq<Block>, cs: seq<Block>, made: seq<Jump>) {
    Grown(bs, cs) && forall i :: 0 <= i < |cs| && cs[i].BBreak? ==> Ends(made, i) || (i < |bs| && bs[i].BBreak?)
  }

  predicate Ends(made: seq<Jump>, b: nat) { exists k :: 0 <= k < |made| && |made[k].way| > 0 && made[k].way[|made[k].way| - 1] == b }

  lemma BuildsOn(bs: seq<Block>, cs: seq<Block>, ds: seq<Block>)
    requires Builds(bs, cs, []) && Builds(cs, ds, [])
    ensures Builds(bs, ds, [])
  {
  }

  lemma BuildsSame(bs: seq<Block>)
    ensures Builds(bs, bs, [])
  {
  }

  lemma WrapBuilds(st: State, extra: seq<Block>, middle: Block, made: seq<Jump>)
    requires st.current < |st.blocks| && st.blocks[st.current].BBasic? && forall b :: b in extra ==> !b.BBreak?
    requires middle.BBreak? ==> Ends(made, |st.blocks| + |extra| + 1)
    ensures Builds(st.blocks, WrapAround(st, extra, middle), made)
  {
  }

  lemma VarBuilds(st: State)
    requires st.current < |st.blocks| && st.blocks[st.current].BBasic?
    ensures Builds(st.blocks, VarAround(st), [])
  {
  }

  lemma BeginBuilds(bs: seq<Block>, i: nat, n: nat)
    requires i < |bs| && bs[i].BBasic?
    ensures Builds(bs, Begin(bs, i, n), []) && |Begin(bs, i, n)| == |bs| && Begin(bs, i, n)[i].BBasic?
    ensures forall k :: 0 <= k < |bs| && bs[k].BBasic? ==> Begin(bs, i, n)[k].BBasic?
  {
  }

  lemma EndedBuilds(st: State, path: seq<nat>, marks: seq<nat>)
    requires Sane(st, path, marks) && |st.scopes| > 0
    ensures Builds(st.blocks, Ended(st).blocks, [])
  {
    hide Builds, Begin, Ok, ScopeOk, Framed, Settled;
    var s := Top(st);
    assert ScopesOk(st, path, marks) && |marks| > 0 by { SaneParts(st, path, marks); }
    var bs := st.blocks;
    AfterWaits(s);
    ArmIsBasic(st, path, marks, |marks| - 1, s.after);
    if s.kind.SCOPE_IF? && s.phase.SCOPE_BODY? {
      SecondWaits(s);
      ArmIsBasic(st, path, marks, |marks| - 1, s.second);
      BeginBuilds(bs, s.second, |st.ops|);
      bs := Begin(bs, s.second, |st.ops|);
      BeginBuilds(bs, s.after, |st.ops|);
      BuildsOn(st.blocks, bs, Begin(bs, s.after, |st.ops|));
    } else {
      BeginBuilds(bs, s.after, |st.ops|);
    }
  }

  lemma {:induction false} ImplicitBuilds(st: State, path: seq<nat>, marks: seq<nat>)
    requires Sane(st, path, marks)
    ensures Builds(st.blocks, ImplicitEnded(st).blocks, [])
    decreases |st.scopes|
  {
    hide Sane, Ended, ImplicitBody, Builds;
    if |st.scopes| > 0 && ImplicitBody(Top(st)) {
      MarksCount(st, path, marks);
      var m := marks[|marks| - 1];
      EndedBuilds(st, path, marks);
      EndedKeeps(st, path, marks, m);
      EndedShorter(st);
      ImplicitBuilds(Ended(st), path[..m + 1] + [Top(st).after], marks[..|marks| - 1]);
      BuildsOn(st.blocks, Ended(st).blocks, ImplicitEnded(st).blocks);
    } else {
      BuildsSame(st.blocks);
    }
  }

  lemma SecondBuilds(st: State, phase: Phase, path: seq<nat>, marks: seq<nat>)
    requires Sane(st, path, marks) && |st.scopes| > 0 && Top(st).phase.SCOPE_BODY?
    requires Top(st).kind.SCOPE_IF? || (Top(st).kind.SCOPE_EPILOGUE? && !Top(st).implicitEnd)
    ensures Builds(st.blocks, SecondBegun(st, phase).blocks, [])
  {
    hide Builds, Begin, Sane, ScopesOk;
    SaneParts(st, path, marks);
    assert Waiting(Top(st))[1] == Top(st).second;
    ArmIsBasic(st, path, marks, |marks| - 1, Top(st).second);
    BeginBuilds(st.blocks, Top(st).second, |st.ops|);
  }

  lemma EmittedBuilds(st: State, op: Op)
    requires st.current < |st.blocks| && st.blocks[st.current].BBasic?
    ensures Emitted(st, op).Some? && Builds(st.blocks, Emitted(st, op).value.blocks, [])
  {
  }

  lemma DelimitedBuilds(st: State, opening: bool, path: seq<nat>, marks: seq<nat>)
    requires Sane(st, path, marks) && Delimited(st, opening).Some? && !Spoils(st, if opening then WOpen else WClose)
    ensures Builds(st.blocks, Delimited(st, opening).value.blocks, [])
  {
    hide Builds, Begin, Sane, ScopesOk, ConditionEnded, ScopeOk, Free, Alone;
    BuildsSame(st.blocks);
    SaneParts(st, path, marks);
    if |st.scopes| > 0 && !Waits(Top(st)) && Top(st).delimiterDepth == 1 && !opening {
      TopOk(st, path, marks);
      var s := Top(st);
      if s.kind.SCOPE_IF? {
        BranchOfIf(st, path, marks);
        var bs := st.blocks[s.block := ConditionEnded(st.blocks[s.block], |st.ops|)];
        ConditionBuilds(st.blocks, s.block, |st.ops|);
        assert bs[s.first].BBasic?;
        BeginBuilds(bs, s.first, |st.ops|);
        BuildsOn(st.blocks, bs, Begin(bs, s.first, |st.ops|));
      } else {
        assert Waiting(s)[1] == s.first;
        ArmIsBasic(st, path, marks, |marks| - 1, s.first);
        BeginBuilds(st.blocks, s.first, |st.ops|);
      }
    }
  }

  lemma BranchOfIf(st: State, path: seq<nat>, marks: seq<nat>)
    requires Sane(st, path, marks) && |st.scopes| > 0 && Top(st).kind.SCOPE_IF?
    ensures Top(st).block < |st.blocks| && st.blocks[Top(st).block].BBranch?
  {
    hide Framed, Settled, Way, Depth, Free, Alone, Apart;
    assert ScopeOk(st.blocks, path, marks[|marks| - 1], Top(st));
  }

  lemma ConditionBuilds(bs: seq<Block>, i: nat, n: nat)
    requires i < |bs| && bs[i].BBranch?
    ensures Builds(bs, bs[i := ConditionEnded(bs[i], n)], []) && ConditionEnded(bs[i], n).BBranch?
  {
  }

  // ----- one word -----

  /** Whether it is a CONTINUE, and whether it runs all cleanups that it leaves. */
  datatype Kind = Kind(again: bool, covers: bool)

  /** The break that a word makes, if any. */
  function Makes(st: State, w: Token): seq<Kind> {
    if w.WBreak? then [Kind(false, ScopesCover(st.scopes, false))]
    else if w.WContinue? then [Kind(true, ScopesCover(st.scopes, true))]
    else []
  }

  predicate Made(bs: seq<Block>, made: seq<Jump>, kinds: seq<Kind>, low: nat) {
    && |made| == |kinds|
    && (forall k :: 0 <= k < |made| ==> Lands(bs, made[k]) && made[k].again == kinds[k].again && made[k].covers == kinds[k].covers)
    && (forall k :: 0 <= k < |made| ==> low <= EndOf(made[k]))
    && (forall j, k :: 0 <= j < k < |made| ==> EndOf(made[j]) < EndOf(made[k]))
  }

  /** The block of the break. */
  function EndOf(j: Jump): nat { if |j.way| == 0 then 0 else j.way[|j.way| - 1] }

  predicate Stays(st: State, t: State, made: seq<Jump>, kinds: seq<Kind>, path: seq<nat>, marks: seq<nat>) {
    Sane(t, path, marks) && Builds(st.blocks, t.blocks, made) && Made(t.blocks, made, kinds, |st.blocks|)
  }

  lemma WordKeeps(st: State, w: Token, ntypes: nat, path: seq<nat>, marks: seq<nat>)
      returns (path1: seq<nat>, marks1: seq<nat>, made: seq<Jump>)
    requires InRange(st) && Sane(st, path, marks) && Step(st, w, ntypes).Some? && !Spoils(st, w)
    ensures Stays(st, Step(st, w, ntypes).value, made, Makes(st, w), path1, marks1)
  {
    hide Sane, Builds, Lands, Opens, ImplicitEnded, LoopBegun, IfBegun, EpilogueBegun, Exited, VarDeclared, Emitted, Delimited,
         SecondBegun, Ended, Waits, InRange, Spoils;
    SaneCurrent(st, path, marks);
    path1, marks1, made := path, marks, [];
    match w
    case WOpen => path1 := DelimitedKeeps(st, true, path, marks); DelimitedBuilds(st, true, path, marks);
    case WClose => path1 := DelimitedKeeps(st, false, path, marks); DelimitedBuilds(st, false, path, marks);
    case WOp(op) => EmittedKeeps(st, op, path, marks); EmittedBuilds(st, op);
    case WNative(g) =>
      EmittedKeeps(st, PushGlobal(g), path, marks);
      EmittedBuilds(st, PushGlobal(g));
      var t := Emitted(st, PushGlobal(g)).value;
      SaneCurrent(t, path, marks);
      EmittedKeeps(t, CallNative, path, marks);
      EmittedBuilds(t, CallNative);
      BuildsOn(st.blocks, t.blocks, Emitted(t, CallNative).value.blocks);
    case WVar(tid, name) =>
      path1 := path + [|st.blocks| + 1, |st.blocks| + 3];
      VarKeeps(st, tid, name, ntypes, path, marks);
      VarDeclaredBuilds(st, tid, name, ntypes);
    case _ => path1, marks1, made := ControlKeeps(st, w, path, marks);
  }

  lemma VarDeclaredBuilds(st: State, tid: nat, name: string, ntypes: nat)
    requires st.current < |st.blocks| && st.blocks[st.current].BBasic? && VarDeclared(st, tid, name, ntypes).Some?
    ensures Builds(st.blocks, VarDeclared(st, tid, name, ntypes).value.blocks, [])
  {
    hide Builds, Named;
    VarBuilds(st);
  }

  lemma ControlKeeps(st: State, w: Token, path: seq<nat>, marks: seq<nat>)
      returns (path1: seq<nat>, marks1: seq<nat>, made: seq<Jump>)
    requires InRange(st) && Sane(st, path, marks) && Control(st, w).Some?
    ensures Stays(st, Control(st, w).value, made, Makes(st, w), path1, marks1)
  {
    hide Sane, Builds, Lands, Opens, ImplicitEnded, LoopBegun, IfBegun, EpilogueBegun, Exited, SecondBegun, Ended, Waits, InRange;
    if w.WLoop? || w.WIf? || w.WStart? || w.WDefer? {
      path1, marks1, made := OpeningStays(st, w, path, marks);
    } else if w.WBreak? || w.WContinue? {
      path1, marks1, made := JumpStays(st, w.WContinue?, path, marks);
    } else {
      path1, marks1, made := EndingStays(st, w, path, marks);
    }
  }

  lemma OpeningStays(st: State, w: Token, path: seq<nat>, marks: seq<nat>)
      returns (path1: seq<nat>, marks1: seq<nat>, made: seq<Jump>)
    requires InRange(st) && Sane(st, path, marks) && (w.WLoop? || w.WIf? || w.WStart? || w.WDefer?) && Control(st, w).Some?
    ensures Stays(st, Control(st, w).value, made, [], path1, marks1)
  {
    hide Sane, Builds, Lands, Opens, ImplicitEnded, InRange, Wrapped;
    SaneCurrent(st, path, marks);
    var n: nat, m: nat := |st.blocks|, |path| - 1;
    made, marks1 := [], marks + [m];
    if w.WLoop? {
      path1 := path + [n + 3, n + 1, n];
      LoopKeeps(st, path, marks);
      WrapBuilds(st, [Fresh(st), BMany(n, INVALID)], BLoop(n + 1), []);
    } else if w.WIf? {
      path1 := path + [n + 3, n];
      IfKeeps(st, path, marks);
      WrapBuilds(st, [Fresh(st), Fresh(st)], BBranch(Range(|st.ops|, 0), n, n + 1), []);
    } else {
      path1 := path + [n + 3, if w.WDefer? then n + 1 else n];
      EpilogueKeeps(st, w.WDefer?, path, marks);
      WrapBuilds(st, [Fresh(st), Fresh(st)], BDefer(n, n + 1), []);
    }
  }

  lemma JumpStays(st: State, again: bool, path: seq<nat>, marks: seq<nat>)
      returns (path1: seq<nat>, marks1: seq<nat>, made: seq<Jump>)
    requires InRange(st) && Sane(st, path, marks) && (|st.scopes| > 0 ==> !Opens(Top(st))) && Exited(st, again).Some?
    ensures Stays(st, Exited(st, again).value, made, [Kind(again, ScopesCover(st.scopes, again))], path1, marks1)
  {
    hide Sane, Builds, Lands, Opens, InRange, Wrapped, LeavesNoCleanup;
    SaneCurrent(st, path, marks);
    var j := JumpLands(st, again, path, marks);
    path1, marks1, made := path + [|st.blocks| + 3], marks, [j];
    var n := InnermostLoop(st.scopes);
    assert made[0].way[|made[0].way| - 1] == |st.blocks| + 1;
    WrapBuilds(st, [], BBreak(st.depth + 2 - (if again then st.scopes[n - 1].continueDepth else st.scopes[n - 1].breakDepth)), made);
  }

  lemma EndingStays(st: State, w: Token, path: seq<nat>, marks: seq<nat>)
      returns (path1: seq<nat>, marks1: seq<nat>, made: seq<Jump>)
    requires InRange(st) && Sane(st, path, marks) && Control(st, w).Some?
    requires !(w.WLoop? || w.WIf? || w.WStart? || w.WDefer? || w.WBreak? || w.WContinue?)
    ensures Stays(st, Control(st, w).value, made, [], path1, marks1)
  {
    hide Sane, Builds, Lands, Opens, ImplicitEnded, InRange, SecondBegun, Ended;
    SaneCurrent(st, path, marks);
    var t := ImplicitEnded(st);
    path1, marks1 := ImplicitKeeps(st, path, marks);
    ImplicitBuilds(st, path, marks);
    made := [];
    MarksCount(t, path1, marks1);
    var m := marks1[|marks1| - 1];
    var next := Control(st, w).value;
    if w.WElse? || w.WFinally? {
      var phase := if w.WElse? then SCOPE_ELSE_BODY else SCOPE_CLEANUP;
      SecondKeeps(t, phase, path1, marks1, m);
      SecondBuilds(t, phase, path1, marks1);
      path1 := path1[..m + 2] + [Top(t).second];
    } else {
      EndedKeeps(t, path1, marks1, m);
      EndedBuilds(t, path1, marks1);
      path1, marks1 := path1[..m + 1] + [Top(t).after], marks1[..|marks1| - 1];
    }
    BuildsOn(st.blocks, t.blocks, next.blocks);
  }

  // ----- all words -----

  /** No word upsets the frontend. */
  predicate Clean(st: State, words: seq<Token>, ntypes: nat)
    requires InRange(st)
    decreases |words|
  {
    |words| == 0 ||
    (!Spoils(st, words[0]) &&
     match Step(st, words[0], ntypes)
     case None => true
     case Some(next) => StepInRange(st, words[0], ntypes); Clean(next, words[1..], ntypes))
  }

  /** The breaks that the words make, in order. */
  function AllMakes(st: State, words: seq<Token>, ntypes: nat): seq<Kind>
    requires InRange(st)
    decreases |words|
  {
    if |words| == 0 then [] else
    match Step(st, words[0], ntypes)
    case None => []
    case Some(next) => StepInRange(st, words[0], ntypes); Makes(st, words[0]) + AllMakes(next, words[1..], ntypes)
  }

  lemma {:induction false} FeedKeeps(st: State, words: seq<Token>, ntypes: nat, path: seq<nat>, marks: seq<nat>)
      returns (path1: seq<nat>, marks1: seq<nat>, made: seq<Jump>)
    requires InRange(st) && Sane(st, path, marks) && Clean(st, words, ntypes) && Feed(st, words, ntypes).Some?
    ensures Stays(st, Feed(st, words, ntypes).value, made, AllMakes(st, words, ntypes), path1, marks1)
    decreases |words|
  {
    hide Sane, Builds, Lands, Step, InRange, Spoils;
    if |words| == 0 {
      path1, marks1, made := path, marks, [];
      BuildsSame(st.blocks);
    } else {
      var next := Step(st, words[0], ntypes).value;
      StepInRange(st, words[0], ntypes);
      var p, m, first := WordKeeps(st, words[0], ntypes, path, marks);
      var more;
      path1, marks1, more := FeedKeeps(next, words[1..], ntypes, p, m);
      made := first + more;
      StaysOn(st, next, Feed(st, words, ntypes).value, first, more, Makes(st, words[0]), AllMakes(next, words[1..], ntypes), p, m, path1, marks1);
    }
  }

  lemma StaysOn(st: State, next: State, last: State, first: seq<Jump>, more: seq<Jump>, kinds: seq<Kind>, moreKinds: seq<Kind>,
                path: seq<nat>, marks: seq<nat>, path1: seq<nat>, marks1: seq<nat>)
    requires Stays(st, next, first, kinds, path, marks) && Stays(next, last, more, moreKinds, path1, marks1)
    ensures Stays(st, last, first + more, kinds + moreKinds, path1, marks1)
  {
    hide Sane, Lands, Grown;
    var made := first + more;
    assert Builds(st.blocks, last.blocks, made) by {
      GrownOn(st.blocks, next.blocks, last.blocks);
      forall i | 0 <= i < |last.blocks| && last.blocks[i].BBreak? ensures Ends(made, i) || (i < |st.blocks| && st.blocks[i].BBreak?) {
        EndsOn(first, more, i);
      }
    }
    forall k | 0 <= k < |first| ensures Lands(last.blocks, first[k]) && EndOf(first[k]) < |next.blocks| {
      LandsStays(next.blocks, last.blocks, first[k]);
      EndInside(next.blocks, first[k]);
    }
    LengthGrows(st.blocks, next.blocks);
  }

  lemma EndsOn(first: seq<Jump>, more: seq<Jump>, i: nat)
    ensures Ends(first, i) || Ends(more, i) ==> Ends(first + more, i)
  {
    if Ends(first, i) {
      var k :| 0 <= k < |first| && |first[k].way| > 0 && first[k].way[|first[k].way| - 1] == i;
      assert (first + more)[k] == first[k];
    } else if Ends(more, i) {
      var k :| 0 <= k < |more| && |more[k].way| > 0 && more[k].way[|more[k].way| - 1] == i;
      assert (first + more)[|first| + k] == more[k];
    }
  }

  lemma EndInside(bs: seq<Block>, j: Jump)
    requires Lands(bs, j)
    ensures EndOf(j) < |bs|
  {
  }

  lemma LengthGrows(bs: seq<Block>, cs: seq<Block>)
    requires Grown(bs, cs)
    ensures |bs| <= |cs|
  {
  }

  lemma GrownOn(bs: seq<Block>, cs: seq<Block>, ds: seq<Block>)
    requires Grown(bs, cs) && Grown(cs, ds)
    ensures Grown(bs, ds)
  {
  }

  lemma StartSane()
    ensures InRange(START) && Sane(START, [0], [])
  {
    assert [0][..0] == [] && [0][..1 - 1] == [];
  }

  lemma SourceKeeps(words: seq<Token>, ntypes: nat) returns (path: seq<nat>, marks: seq<nat>, jumps: seq<Jump>)
    requires InRange(START) && Clean(START, words, ntypes) && Compiled(START, words, ntypes).Some?
    ensures Stays(START, Compiled(START, words, ntypes).value, jumps, AllMakes(START, words, ntypes), path, marks)
  {
    hide Sane, Lands, Feed, Clean, ImplicitEnded, Stays;
    StartSane();
    var last := Feed(START, words, ntypes).value;
    var p, m;
    p, m, jumps := FeedKeeps(START, words, ntypes, [0], []);
    assert Sane(last, p, m) by { StaysSane(START, last, jumps, AllMakes(START, words, ntypes), p, m); }
    path, marks := ImplicitKeeps(last, p, m);
    ImplicitBuilds(last, p, m);
    StaysAtEnd(START, last, ImplicitEnded(last), jumps, AllMakes(START, words, ntypes), p, m, path, marks);
  }

  lemma StaysSane(st: State, t: State, jumps: seq<Jump>, kinds: seq<Kind>, path: seq<nat>, marks: seq<nat>)
    requires Stays(st, t, jumps, kinds, path, marks)
    ensures Sane(t, path, marks)
  {
  }

  lemma StaysAtEnd(st: State, last: State, t: State, jumps: seq<Jump>, kinds: seq<Kind>,
                   p: seq<nat>, m: seq<nat>, path: seq<nat>, marks: seq<nat>)
    requires Stays(st, last, jumps, kinds, p, m) && Sane(t, path, marks) && Builds(last.blocks, t.blocks, [])
    ensures Stays(st, t, jumps, kinds, path, marks)
  {
    hide Sane, Lands;
    assert Stays(last, t, [], [], path, marks);
    StaysOn(st, last, t, jumps, [], kinds, [], p, m, path, marks);
    assert jumps + [] == jumps && kinds + [] == kinds;
  }

  /** The breaks in a compiled source are, in order, those of its BREAK and CONTINUE words,
      and each lands on the innermost loop around it; it runs every cleanup it leaves exactly
      when the scopes that were open at the word say so. */
  lemma EveryJumpLands(words: seq<Token>, ntypes: nat) returns (jumps: seq<Jump>)
    requires InRange(START) && Clean(START, words, ntypes) && Compiled(START, words, ntypes).Some?
    ensures var bs := Compiled(START, words, ntypes).value.blocks;
      && |jumps| == |AllMakes(START, words, ntypes)|
      && (forall k :: 0 <= k < |jumps| ==> Lands(bs, jumps[k]))
      && (forall k :: 0 <= k < |jumps| ==> AllMakes(START, words, ntypes)[k] == Kind(jumps[k].again, jumps[k].covers))
      && (forall j, k :: 0 <= j < k < |jumps| ==> EndOf(jumps[j]) < EndOf(jumps[k]))
      && (forall i :: 0 <= i < |bs| && bs[i].BBreak? ==> Ends(jumps, i))
  {
    hide Sane, Lands, Compiled, Clean, Grown, AllMakes;
    var path, marks;
    path, marks, jumps := SourceKeeps(words, ntypes);
  }
}
