/** What an accepted source declares and emits, read off its words: the variables with their types
    and names, the operations, and which block declares which variable. */
module FrontendVars {
  import opened Memory
  import opened Ir
  import S = Semantics
  import opened FlatBlocks
  import opened FrontendState
  import opened FrontendSteps

  /** What one word declares, and what it emits. */
  function DeclaredBy(w: Token): seq<Declared> { if w.WVar? then [Declared(w.tid, w.name)] else [] }

  function OpsOf(w: Token): seq<Op> {
    match w
    case WOp(op) => [op]
    case WNative(g) => [PushGlobal(g), CallNative]
    case _ => []
  }

  /** The variables that words declare, in order. */
  function DeclaredIn(words: seq<Token>): seq<Declared> {
    if |words| == 0 then [] else
    DeclaredBy(words[0]) + DeclaredIn(words[1..])
  }

  /** The operations that words emit, in order. */
  function OpsIn(words: seq<Token>): seq<Op> {
    if |words| == 0 then [] else
    OpsOf(words[0]) + OpsIn(words[1..])
  }

  predicate DistinctNames(vars: seq<Declared>) {
    forall i, j :: 0 <= i < j < |vars| ==> vars[i].name != vars[j].name
  }

  // ----- variables and operations -----

  lemma {:induction false} ImplicitSame(st: State)
    ensures ImplicitEnded(st).vars == st.vars && ImplicitEnded(st).ops == st.ops
    decreases |st.scopes|
  {
    if |st.scopes| > 0 && ImplicitBody(Top(st)) { ImplicitSame(Ended(st)); }
  }

  /** One word. */
  lemma StepDeclares(st: State, w: Token, ntypes: nat)
    requires InRange(st) && Step(st, w, ntypes).Some?
    ensures var t := Step(st, w, ntypes).value;
      && t.vars == st.vars + DeclaredIn([w]) && t.ops == st.ops + OpsIn([w])
      && (w.WVar? ==> w.tid < ntypes && forall k :: 0 <= k < |st.vars| ==> st.vars[k].name != w.name)
  {
    hide ImplicitEnded, WrapAround, VarAround, InRange, Begin, Put;
    ImplicitSame(st);
    assert [w][1..] == [];
    assert DeclaredIn([]) == [] && OpsIn([]) == [];
  }

  lemma WordFirst(w: Token, words: seq<Token>)
    ensures DeclaredIn([w] + words) == DeclaredIn([w]) + DeclaredIn(words) && OpsIn([w] + words) == OpsIn([w]) + OpsIn(words)
  {
    var all := [w] + words;
    assert all[0] == w && all[1..] == words && [w][1..] == [];
    NoWords();
    FirstDeclared(all);
    FirstDeclared([w]);
    hide DeclaredIn, OpsIn;
    assert DeclaredIn([w]) == DeclaredBy(w) + [] && OpsIn([w]) == OpsOf(w) + [];
  }

  lemma FirstDeclared(words: seq<Token>)
    requires |words| > 0
    ensures DeclaredIn(words) == DeclaredBy(words[0]) + DeclaredIn(words[1..]) && OpsIn(words) == OpsOf(words[0]) + OpsIn(words[1..])
  {
  }

  lemma {:induction false} FeedDeclares(st: State, words: seq<Token>, ntypes: nat)
    requires InRange(st) && Feed(st, words, ntypes).Some?
    requires DistinctNames(st.vars) && forall k :: 0 <= k < |st.vars| ==> st.vars[k].tid < ntypes
    ensures var t := Feed(st, words, ntypes).value;
      && t.vars == st.vars + DeclaredIn(words) && t.ops == st.ops + OpsIn(words)
      && DistinctNames(t.vars) && forall k :: 0 <= k < |t.vars| ==> t.vars[k].tid < ntypes
    decreases |words|
  {
    hide Step, InRange, DeclaredIn, OpsIn;
    if |words| == 0 {
      NoWords();
    } else {
      StepInRange(st, words[0], ntypes);
      StepDeclares(st, words[0], ntypes);
      OneDeclared(words[0]);
      WordFirst(words[0], words[1..]);
      assert [words[0]] + words[1..] == words;
      FeedDeclares(Step(st, words[0], ntypes).value, words[1..], ntypes);
    }
  }

  lemma NoWords()
    ensures DeclaredIn([]) == [] && OpsIn([]) == []
  {
  }

  lemma OneDeclared(w: Token)
    ensures DeclaredIn([w]) == if w.WVar? then [Declared(w.tid, w.name)] else []
  {
    assert [w][1..] == [];
  }

  // ----- which block declares which variable -----

  /** The variables that the VAR blocks of an array declare, by the order of the blocks. */
  function VarsIn(bs: seq<Block>): seq<nat> {
    if |bs| == 0 then [] else
    VarsIn(bs[..|bs| - 1]) + (if bs[|bs| - 1].BVar? then [bs[|bs| - 1].v] else [])
  }

  function Upto(n: nat): (r: seq<nat>)
    ensures |r| == n && forall k :: 0 <= k < n ==> r[k] == k
  {
    seq(n, k => k)
  }

  /** VAR blocks stay what they are, and no other block becomes one. */
  predicate SameVars(bs: seq<Block>, cs: seq<Block>) {
    |cs| == |bs| && forall i :: 0 <= i < |bs| ==> if bs[i].BVar? then cs[i] == bs[i] else !cs[i].BVar?
  }

  lemma {:induction false} SameVarsIn(bs: seq<Block>, cs: seq<Block>)
    requires SameVars(bs, cs)
    ensures VarsIn(cs) == VarsIn(bs)
    decreases |bs|
  {
    if |bs| > 0 { SameVarsIn(bs[..|bs| - 1], cs[..|cs| - 1]); }
  }

  lemma {:induction false} VarsJoined(bs: seq<Block>, cs: seq<Block>)
    ensures VarsIn(bs + cs) == VarsIn(bs) + VarsIn(cs)
    decreases |cs|
  {
    if |cs| == 0 {
      assert bs + cs == bs;
    } else {
      assert (bs + cs)[..|bs + cs| - 1] == bs + cs[..|cs| - 1];
      VarsJoined(bs, cs[..|cs| - 1]);
    }
  }

  /** No VAR block is gone on with: not by the open scopes, and not now. */
  predicate NoneHeld(st: State) {
    && st.current < |st.blocks| && !st.blocks[st.current].BVar?
    && forall k :: 0 <= k < |st.scopes| ==>
         && NotVar(st.blocks, st.scopes[k].first) && NotVar(st.blocks, st.scopes[k].second)
         && NotVar(st.blocks, st.scopes[k].after)
  }

  predicate NotVar(bs: seq<Block>, i: nat) { i < |bs| && !bs[i].BVar? }

  predicate Numbered(st: State) { NoneHeld(st) && |st.blocks| > 0 && !st.blocks[0].BVar? && VarsIn(st.blocks) == Upto(|st.vars|) }

  lemma BeginSame(bs: seq<Block>, i: nat, n: nat)
    requires NotVar(bs, i)
    ensures SameVars(bs, Begin(bs, i, n))
  {
  }

  lemma SameTwice(bs: seq<Block>, cs: seq<Block>, ds: seq<Block>)
    requires SameVars(bs, cs) && SameVars(cs, ds)
    ensures SameVars(bs, ds)
  {
  }

  lemma {:induction false} NoVars(bs: seq<Block>)
    requires forall i :: 0 <= i < |bs| ==> !bs[i].BVar?
    ensures VarsIn(bs) == []
    decreases |bs|
  {
    if |bs| > 0 { NoVars(bs[..|bs| - 1]); }
  }

  /** The scopes that were open hold on to no VAR block when blocks are only added. */
  lemma HeldOn(st: State, same: seq<Block>, more: seq<Block>, i: nat)
    requires SameVars(st.blocks, same) && NotVar(st.blocks, i)
    ensures NotVar(same + more, i)
  {
  }

  /** Blocks are added behind others that stay as they are; what is held on to is no VAR block. */
  lemma Grows(st: State, t: State, same: seq<Block>, more: seq<Block>)
    requires Numbered(st) && SameVars(st.blocks, same) && t.blocks == same + more
    requires |t.vars| >= |st.vars| && VarsIn(more) == Upto(|t.vars|)[|st.vars|..] && NotVar(t.blocks, t.current)
    requires forall k :: 0 <= k < |t.scopes| ==>
      || (k < |st.scopes| && SameHold(st.scopes[k], t.scopes[k]))
      || (NotVar(t.blocks, t.scopes[k].first) && NotVar(t.blocks, t.scopes[k].second) && NotVar(t.blocks, t.scopes[k].after))
    ensures Numbered(t)
  {
    hide VarsIn;
    SameVarsIn(st.blocks, same);
    VarsJoined(same, more);
    assert Upto(|t.vars|) == Upto(|st.vars|) + Upto(|t.vars|)[|st.vars|..];
  }

  predicate SameHold(s: OpenScope, t: OpenScope) { t.first == s.first && t.second == s.second && t.after == s.after }

  lemma NoneMore(n: nat)
    ensures Upto(n)[n..] == []
  {
  }

  /** Splicing a block in, and opening at most one scope on it. */
  lemma WrapNumbered(st: State, t: State, extra: seq<Block>, middle: Block)
    requires Numbered(st) && t.blocks == WrapAround(st, extra, middle) && t.vars == st.vars && !middle.BVar?
    requires forall i :: 0 <= i < |extra| ==> !extra[i].BVar?
    requires t.current < |t.blocks| && |st.blocks| <= t.current
    requires |t.scopes| <= |st.scopes| + 1 && forall k :: 0 <= k < |t.scopes| && k < |st.scopes| ==> t.scopes[k] == st.scopes[k]
    requires |t.scopes| == |st.scopes| + 1 ==>
      var s := t.scopes[|st.scopes|];
      (s.first == 0 || |st.blocks| <= s.first < |t.blocks|) && (s.second == 0 || |st.blocks| <= s.second < |t.blocks|) && |st.blocks| <= s.after < |t.blocks|
    ensures Numbered(t)
  {
    var n := |st.blocks| + |extra|;
    var same := st.blocks[st.current := BMany(n, n + 2)];
    var more := extra + [st.blocks[st.current], middle, BChain(n + 1, n + 4), BBasic(Range(|st.ops|, 0)), BChain(n + 3, INVALID)];
    assert t.blocks == same + more;
    NoVars(more);
    NoneMore(|st.vars|);
    forall i | |st.blocks| <= i < |t.blocks| ensures NotVar(t.blocks, i) { assert t.blocks[i] == more[i - |st.blocks|]; }
    Grows(st, t, same, more);
  }

  /** Only links and ranges are written. */
  lemma RewriteNumbered(st: State, t: State)
    requires Numbered(st) && SameVars(st.blocks, t.blocks) && t.vars == st.vars && NotVar(t.blocks, t.current)
    requires |t.scopes| <= |st.scopes| && forall k :: 0 <= k < |t.scopes| ==> SameHold(st.scopes[k], t.scopes[k])
    ensures Numbered(t)
  {
    NoneMore(|st.vars|);
    assert t.blocks == t.blocks + [];
    NoVars([]);
    Grows(st, t, t.blocks, []);
  }

  lemma OneVar(a: Block, b: Block, c: Block, d: Block)
    requires !a.BVar? && b.BVar? && !c.BVar? && !d.BVar?
    ensures VarsIn([a, b, c, d]) == [b.v]
  {
    assert [a, b, c, d] == [a, b] + [c, d] && [a, b][..1] == [a];
    NoVars([a]);
    NoVars([c, d]);
    VarsJoined([a, b], [c, d]);
  }

  lemma VarNumbered(st: State, tid: nat, name: string, ntypes: nat)
    requires Numbered(st) && VarDeclared(st, tid, name, ntypes).Some?
    ensures Numbered(VarDeclared(st, tid, name, ntypes).value)
  {
    hide Named;
    var t, n := VarDeclared(st, tid, name, ntypes).value, |st.blocks|;
    var same := st.blocks[st.current := BMany(n, n + 2)];
    var more := [st.blocks[st.current], BVar(|st.vars|, n + 3), BChain(n + 1, INVALID), Fresh(st)];
    assert t.blocks == same + more;
    OneVar(st.blocks[st.current], BVar(|st.vars|, n + 3), BChain(n + 1, INVALID), Fresh(st));
    assert Upto(|t.vars|)[|st.vars|..] == [|st.vars|];
    assert t.blocks[n + 3] == more[3];
    Grows(st, t, same, more);
  }

  lemma EmittedNumbered(st: State, op: Op)
    requires Numbered(st) && Emitted(st, op).Some?
    ensures Numbered(Emitted(st, op).value)
  {
    RewriteNumbered(st, Emitted(st, op).value);
  }

  lemma EndedNumbered(st: State)
    requires Numbered(st) && |st.scopes| > 0
    ensures Numbered(Ended(st))
  {
    hide VarsIn, WithStart;
    var s, t := Top(st), Ended(st);
    var bs := if s.kind.SCOPE_IF? && s.phase.SCOPE_BODY? then Begin(st.blocks, s.second, |st.ops|) else st.blocks;
    BeginSame(st.blocks, s.second, |st.ops|);
    assert SameVars(st.blocks, bs);
    BeginSame(bs, s.after, |st.ops|);
    SameTwice(st.blocks, bs, t.blocks);
    RewriteNumbered(st, t);
  }

  lemma {:induction false} ImplicitNumbered(st: State)
    requires Numbered(st)
    ensures Numbered(ImplicitEnded(st))
    decreases |st.scopes|
  {
    hide Ended, Numbered;
    if |st.scopes| > 0 && ImplicitBody(Top(st)) {
      EndedNumbered(st);
      FewerScopes(st);
      ImplicitNumbered(Ended(st));
    }
  }

  lemma FewerScopes(st: State)
    requires |st.scopes| > 0
    ensures |Ended(st).scopes| == |st.scopes| - 1
  {
  }

  lemma SecondNumbered(st: State, phase: Phase)
    requires Numbered(st) && |st.scopes| > 0
    ensures Numbered(SecondBegun(st, phase))
  {
    hide VarsIn, WithStart;
    BeginSame(st.blocks, Top(st).second, |st.ops|);
    RewriteNumbered(st, SecondBegun(st, phase));
  }

  lemma DelimitedNumbered(st: State, opening: bool)
    requires Numbered(st) && Delimited(st, opening).Some?
    ensures Numbered(Delimited(st, opening).value)
  {
    hide VarsIn, WithStart;
    var t := Delimited(st, opening).value;
    if |st.scopes| > 0 && !Waits(Top(st)) && Top(st).delimiterDepth == 1 && !opening {
      var s := Top(st);
      var bs := if s.kind.SCOPE_IF? && s.block < |st.blocks|
                then Put(st.blocks, s.block, ConditionEnded(st.blocks[s.block], |st.ops|)) else st.blocks;
      assert SameVars(st.blocks, bs);
      BeginSame(bs, s.first, |st.ops|);
      SameTwice(st.blocks, bs, t.blocks);
    }
    RewriteNumbered(st, t);
  }

  lemma OpeningNumbered(st: State, w: Token)
    requires Numbered(st) && InRange(st) && (w.WLoop? || w.WIf? || w.WStart? || w.WDefer? || w.WBreak? || w.WContinue?) && Control(st, w).Some?
    ensures Numbered(Control(st, w).value)
  {
    hide Numbered, Wrapped, InRange, Opens, InnermostLoop, LeavesNoCleanup;
    assert st.current < |st.blocks| by { CurrentInside(st); }
    var t, n := Control(st, w).value, |st.blocks|;
    if w.WLoop? {
      WrapNumbered(st, t, [Fresh(st), BMany(n, INVALID)], BLoop(n + 1));
    } else if w.WIf? {
      WrapNumbered(st, t, [Fresh(st), Fresh(st)], BBranch(Range(|st.ops|, 0), n, n + 1));
    } else if w.WStart? || w.WDefer? {
      WrapNumbered(st, t, [Fresh(st), Fresh(st)], BDefer(n, n + 1));
    } else {
      var again := w.WContinue?;
      var m := InnermostLoop(st.scopes);
      WrapNumbered(st, t, [], BBreak(st.depth + 2 - (if again then st.scopes[m - 1].continueDepth else st.scopes[m - 1].breakDepth)));
    }
  }

  lemma CurrentInside(st: State)
    requires InRange(st)
    ensures st.current < |st.blocks|
  {
  }

  lemma ControlNumbered(st: State, w: Token)
    requires Numbered(st) && InRange(st) && Control(st, w).Some?
    ensures Numbered(Control(st, w).value)
  {
    hide Numbered, Ended, SecondBegun, ImplicitEnded, LoopBegun, IfBegun, EpilogueBegun, Exited, InRange, Opens;
    if w.WLoop? || w.WIf? || w.WStart? || w.WDefer? || w.WBreak? || w.WContinue? {
      OpeningNumbered(st, w);
    } else {
      var t := ImplicitEnded(st);
      ImplicitNumbered(st);
      if w.WElse? || w.WFinally? {
        SecondNumbered(t, if w.WElse? then SCOPE_ELSE_BODY else SCOPE_CLEANUP);
      } else {
        EndedNumbered(t);
      }
    }
  }

  lemma StepNumbered(st: State, w: Token, ntypes: nat)
    requires Numbered(st) && InRange(st) && Step(st, w, ntypes).Some?
    ensures Numbered(Step(st, w, ntypes).value)
  {
    hide Numbered, Emitted, VarDeclared, Delimited, Control, InRange, Waits;
    match w
    case WOpen => DelimitedNumbered(st, true);
    case WClose => DelimitedNumbered(st, false);
    case WOp(op) => EmittedNumbered(st, op);
    case WNative(g) =>
      EmittedNumbered(st, PushGlobal(g));
      EmittedNumbered(Emitted(st, PushGlobal(g)).value, CallNative);
    case WVar(tid, name) =>
      assert st.current < |st.blocks| by { CurrentInside(st); }
      VarNumbered(st, tid, name, ntypes);
    case _ => ControlNumbered(st, w);
  }

  lemma {:induction false} FeedNumbered(st: State, words: seq<Token>, ntypes: nat)
    requires Numbered(st) && InRange(st) && Feed(st, words, ntypes).Some?
    ensures Numbered(Feed(st, words, ntypes).value)
    decreases |words|
  {
    hide Numbered, Step, InRange;
    if |words| > 0 {
      StepInRange(st, words[0], ntypes);
      StepNumbered(st, words[0], ntypes);
      FeedNumbered(Step(st, words[0], ntypes).value, words[1..], ntypes);
    }
  }

  // ----- whole sources -----

  /** Whatever an accepted source looks like: its variables are those of its VAR words, with the
      type and name given there, in order and with no name twice; its operations are those of its
      words; and of its VAR blocks, in the order they were made, the k-th declares variable k. */
  lemma SourceDeclares(words: seq<Token>, ntypes: nat)
    requires InRange(START) && Compiled(START, words, ntypes).Some?
    ensures var t := Compiled(START, words, ntypes).value;
      && t.vars == DeclaredIn(words) && t.ops == OpsIn(words)
      && DistinctNames(t.vars) && (forall k :: 0 <= k < |t.vars| ==> t.vars[k].tid < ntypes)
      && VarsIn(t.blocks) == Upto(|t.vars|)
  {
    hide Feed, ImplicitEnded, DeclaredIn, OpsIn;
    var last := Feed(START, words, ntypes).value;
    FeedDeclares(START, words, ntypes);
    ImplicitSame(last);
    assert VarsIn([BBasic(Range(0, 0))][..0]) == [];
    assert Upto(0) == [];
    assert Numbered(START);
    FeedNumbered(START, words, ntypes);
    ImplicitNumbered(last);
  }

  /** The types of the variables, as a function takes them. */
  function TypesOf(vars: seq<Declared>): (tids: seq<nat>)
    ensures |tids| == |vars| && forall k :: 0 <= k < |vars| ==> tids[k] == vars[k].tid
  {
    seq(|vars|, k requires 0 <= k < |vars| => vars[k].tid)
  }

  /** So in a function with the variables of the source, pushing variable k pushes a place of
      the type that the k-th VAR word names. */
  lemma PushedAsDeclared(words: seq<Token>, ntypes: nat, f: Func, globals: seq<Global>, a: S.Act, env: S.Env, k: nat, tys: seq<TypeId>, d: S.Data)
    requires InRange(START) && Compiled(START, words, ntypes).Some?
    requires f.vars == TypesOf(Compiled(START, words, ntypes).value.vars) && k < |DeclaredIn(words)| && k in env
    ensures S.OpPush(globals, f, a, env, PushVar(k), tys, d) == S.OpRes(S.Normal, S.Push(d, Stor(env[k])), tys + [DeclaredIn(words)[k].tid])
  {
    hide Compiled, DeclaredIn, InRange;
    SourceDeclares(words, ntypes);
  }
}
