/** What each word does to the state of the frontend. The functions are total: they also
    say what happens once a word has upset the depth count or the block array. */
module FrontendSteps {
  import opened Memory
  import opened Ir
  import opened FlatBlocks
  import opened FrontendState

  datatype Token =
    | WOp(op: Op) | WNative(g: nat) | WVar(tid: nat, name: string)
    | WLoop | WAgain | WIf | WElse | WDone | WBreak | WContinue
    | WStart | WFinally | WEnd | WDefer
    | WOpen | WClose

  function Put(bs: seq<Block>, i: nat, b: Block): seq<Block> {
    if i < |bs| then bs[i := b] else bs
  }

  /** Writing the start of a basic block. In the union of the block types it shares its
      place with the first index of the other kinds. */
  function WithStart(b: Block, n: nat): Block {
    match b
    case BBasic(r) => BBasic(Range(n, r.len))
    case BMany(_, next) => BMany(n, next)
    case BChain(_, next) => BChain(n, next)
    case BDefer(_, cleanup) => BDefer(n, cleanup)
    case BCrashPad(_, pad) => BCrashPad(n, pad)
    case BBranch(cond, yes, no) => BBranch(Range(n, cond.len), yes, no)
    case BLoop(_) => BLoop(n)
    case BBreak(_) => BBreak(n)
    case BVar(_, body) => BVar(n % 0x1_0000, body)
    case _ => b
  }

  function Begin(bs: seq<Block>, i: nat, n: nat): seq<Block> {
    if i < |bs| then Put(bs, i, WithStart(bs[i], n)) else bs
  }

  function Top(st: State): OpenScope
    requires |st.scopes| > 0
  {
    st.scopes[|st.scopes| - 1]
  }

  function SetTop(st: State, s: OpenScope): State
    requires |st.scopes| > 0
  {
    st.(scopes := st.scopes[|st.scopes| - 1 := s])
  }

  // ----- operations -----

  function UpTo(r: Range, n: nat): Range {
    Range(r.start, if r.start <= n then n - r.start else 0)
  }

  predicate InCondition(st: State) {
    |st.scopes| > 0 && Top(st).kind.SCOPE_IF? && Top(st).phase.SCOPE_CONDITION?
  }

  function Emitted(st: State, op: Op): Option<State> {
    var ops := st.ops + [op];
    if !(st.current < |st.blocks| && st.blocks[st.current].BBasic?) && !(0 < |st.blocks| && st.blocks[0].BBasic?) then None else
    var current := if st.current < |st.blocks| && st.blocks[st.current].BBasic? then st.current else 0;
    if InCondition(st) then Some(st.(ops := ops, current := current)) else
    Some(st.(ops := ops, current := current,
             blocks := st.blocks[current := BBasic(UpTo(st.blocks[current].ops, |ops|))]))
  }

  function NativeCalled(st: State, g: nat): Option<State> {
    match Emitted(st, PushGlobal(g))
    case None => None
    case Some(t) => Emitted(t, CallNative)
  }

  // ----- opening -----

  function Fresh(st: State): Block { BBasic(Range(|st.ops|, 0)) }

  function WrapAround(st: State, extra: seq<Block>, middle: Block): seq<Block>
    requires st.current < |st.blocks|
  {
    Wrapped(st.blocks + extra, st.current, middle, |st.ops|)
  }

  function LoopScope(st: State): OpenScope {
    var n := |st.blocks|;
    OpenScope(SCOPE_LOOP, SCOPE_BODY, n + 3, n + 1, 0, n + 5, st.depth, st.depth + 2, st.depth + 3, 0, false)
  }

  function LoopBegun(st: State): Option<State>
    requires st.current < |st.blocks|
  {
    var n := |st.blocks|;
    if n + 7 >= INVALID then None else
    Some(st.(blocks := WrapAround(st, [Fresh(st), BMany(n, INVALID)], BLoop(n + 1)),
             scopes := st.scopes + [LoopScope(st)], current := n, depth := st.depth + 3))
  }

  function IfScope(st: State): OpenScope {
    var n := |st.blocks|;
    OpenScope(SCOPE_IF, SCOPE_WAIT_OPEN, n + 3, n, n + 1, n + 5, st.depth, 0, 0, 0, false)
  }

  function IfBegun(st: State): Option<State>
    requires st.current < |st.blocks|
  {
    var n := |st.blocks|;
    if n + 7 >= INVALID then None else
    Some(st.(blocks := WrapAround(st, [Fresh(st), Fresh(st)], BBranch(Range(|st.ops|, 0), n, n + 1)),
             scopes := st.scopes + [IfScope(st)], current := n, depth := st.depth + 1))
  }

  function EpilogueScope(st: State, implicitEnd: bool): OpenScope {
    var n := |st.blocks|;
    OpenScope(SCOPE_EPILOGUE, if implicitEnd then SCOPE_CLEANUP_WAIT_OPEN else SCOPE_BODY,
              n + 3, n, n + 1, n + 5, st.depth, 0, 0, 0, implicitEnd)
  }

  function EpilogueBegun(st: State, implicitEnd: bool): Option<State>
    requires st.current < |st.blocks|
  {
    var n := |st.blocks|;
    if n + 7 >= INVALID then None else
    Some(st.(blocks := WrapAround(st, [Fresh(st), Fresh(st)], BDefer(n, n + 1)),
             scopes := st.scopes + [EpilogueScope(st, implicitEnd)],
             current := if implicitEnd then n + 1 else n, depth := st.depth + 2))
  }

  // ----- going on in the other child, and closing -----

  /** ELSE and FINALLY. */
  function SecondBegun(st: State, phase: Phase): State
    requires |st.scopes| > 0
  {
    var s := Top(st);
    SetTop(st, s.(phase := phase)).(
      current := s.second, blocks := Begin(st.blocks, s.second, |st.ops|),
      depth := s.parentDepth + (if s.kind.SCOPE_IF? then 1 else 2))
  }

  function Ended(st: State): State
    requires |st.scopes| > 0
  {
    var s := Top(st);
    var bs := if s.kind.SCOPE_IF? && s.phase.SCOPE_BODY? then Begin(st.blocks, s.second, |st.ops|) else st.blocks;
    st.(blocks := Begin(bs, s.after, |st.ops|), scopes := st.scopes[..|st.scopes| - 1],
        current := s.after, depth := s.parentDepth + 1)
  }

  predicate ImplicitBody(s: OpenScope) { s.kind.SCOPE_EPILOGUE? && s.implicitEnd && s.phase.SCOPE_BODY? }

  /** A prefix DEFER ends with the body around it. */
  function ImplicitEnded(st: State): State
    decreases |st.scopes|
  {
    if |st.scopes| > 0 && ImplicitBody(Top(st)) then ImplicitEnded(Ended(st)) else st
  }

  // ----- leaving a loop -----

  /** The innermost open loop: the number of scopes up to and with it, or none. */
  function InnermostLoop(scopes: seq<OpenScope>): (n: nat)
    ensures n <= |scopes| && (n > 0 ==> scopes[n - 1].kind.SCOPE_LOOP?)
    ensures forall k :: n <= k < |scopes| ==> !scopes[k].kind.SCOPE_LOOP?
  {
    if |scopes| == 0 || scopes[|scopes| - 1].kind.SCOPE_LOOP? then |scopes| else InnermostLoop(scopes[..|scopes| - 1])
  }

  predicate LeavesNoCleanup(scopes: seq<OpenScope>, n: nat) {
    forall k :: n <= k < |scopes| ==> !(scopes[k].kind.SCOPE_EPILOGUE? && scopes[k].phase.SCOPE_CLEANUP?)
  }

  function Exited(st: State, again: bool): Option<State>
    requires st.current < |st.blocks|
  {
    var n := InnermostLoop(st.scopes);
    if n == 0 || !LeavesNoCleanup(st.scopes, n) then None else
    var target := if again then st.scopes[n - 1].continueDepth else st.scopes[n - 1].breakDepth;
    if target > st.depth + 1 || |st.blocks| + 5 >= INVALID then None else
    Some(st.(blocks := WrapAround(st, [], BBreak(st.depth + 2 - target)), current := |st.blocks| + 3, depth := st.depth + 1))
  }

  // ----- parentheses -----

  function ConditionEnded(b: Block, n: nat): Block {
    if b.BBranch? then b.(cond := UpTo(b.cond, n)) else b
  }

  predicate Waits(s: OpenScope) { s.phase.SCOPE_WAIT_OPEN? || s.phase.SCOPE_CLEANUP_WAIT_OPEN? }

  function Delimited(st: State, opening: bool): Option<State> {
    if |st.scopes| == 0 then Some(st) else
    var s := Top(st);
    if Waits(s) then
      if !opening then None
      else Some(SetTop(st, s.(delimiterDepth := 1, phase := if s.kind.SCOPE_IF? then SCOPE_CONDITION else SCOPE_CLEANUP)))
    else if s.delimiterDepth == 0 then Some(st)
    else if opening then Some(SetTop(st, s.(delimiterDepth := s.delimiterDepth + 1)))
    else if s.delimiterDepth > 1 then Some(SetTop(st, s.(delimiterDepth := s.delimiterDepth - 1)))
    else
      var bs := if s.kind.SCOPE_IF? && s.block < |st.blocks|
                then Put(st.blocks, s.block, ConditionEnded(st.blocks[s.block], |st.ops|)) else st.blocks;
      Some(SetTop(st, s.(delimiterDepth := 0, phase := SCOPE_BODY)).(
             blocks := Begin(bs, s.first, |st.ops|), current := s.first))
  }

  // ----- variables -----

  predicate Named(vars: seq<Declared>, name: string) { exists k :: 0 <= k < |vars| && vars[k].name == name }

  function VarAround(st: State): seq<Block>
    requires st.current < |st.blocks|
  {
    var n := |st.blocks|;
    st.blocks[st.current := BMany(n, n + 2)]
    + [st.blocks[st.current], BVar(|st.vars|, n + 3), BChain(n + 1, INVALID), Fresh(st)]
  }

  function VarDeclared(st: State, tid: nat, name: string, ntypes: nat): Option<State>
    requires st.current < |st.blocks|
  {
    if tid >= ntypes || |st.vars| > 0xFFFF || Named(st.vars, name) then None else
    Some(st.(vars := st.vars + [Declared(tid, name)], blocks := VarAround(st),
             current := |st.blocks| + 3, depth := st.depth + 2))
  }

  // ----- words -----

  predicate Opens(s: OpenScope) { Waits(s) || s.phase.SCOPE_CONDITION? }

  function Control(st: State, w: Token): Option<State>
    requires st.current < |st.blocks| && InRange(st)
  {
    if |st.scopes| > 0 && Opens(Top(st)) then None else
    match w
    case WLoop => LoopBegun(st)
    case WIf => IfBegun(st)
    case WStart => EpilogueBegun(st, false)
    case WDefer => EpilogueBegun(st, true)
    case WBreak => Exited(st, false)
    case WContinue => Exited(st, true)
    case WAgain => var t := ImplicitEnded(st); if |t.scopes| > 0 && Top(t).kind.SCOPE_LOOP? then Some(Ended(t)) else None
    case WElse =>
      var t := ImplicitEnded(st);
      if |t.scopes| > 0 && Top(t).kind.SCOPE_IF? && Top(t).phase.SCOPE_BODY? then Some(SecondBegun(t, SCOPE_ELSE_BODY)) else None
    case WDone =>
      var t := ImplicitEnded(st);
      if |t.scopes| > 0 && Top(t).kind.SCOPE_IF? && (Top(t).phase.SCOPE_BODY? || Top(t).phase.SCOPE_ELSE_BODY?)
      then Some(Ended(t)) else None
    case WFinally =>
      var t := ImplicitEnded(st);
      if |t.scopes| > 0 && Top(t).kind.SCOPE_EPILOGUE? && !Top(t).implicitEnd && Top(t).phase.SCOPE_BODY?
      then Some(SecondBegun(t, SCOPE_CLEANUP)) else None
    case WEnd =>
      var t := ImplicitEnded(st);
      if |t.scopes| > 0 && Top(t).kind.SCOPE_EPILOGUE? && !Top(t).implicitEnd && Top(t).phase.SCOPE_CLEANUP?
      then Some(Ended(t)) else None
    case _ => None
  }

  /** Every index the frontend holds on to is an index of the block array. */
  predicate InRange(st: State) {
    && st.current < |st.blocks|
    && forall k :: 0 <= k < |st.scopes| ==>
         st.scopes[k].block < |st.blocks| && st.scopes[k].first < |st.blocks|
         && st.scopes[k].second < |st.blocks| && st.scopes[k].after < |st.blocks|
  }

  /** What one word does; none when the frontend rejects it. */
  function Step(st: State, w: Token, ntypes: nat): Option<State>
    requires InRange(st)
  {
    if w.WOpen? then Delimited(st, true) else
    if w.WClose? then Delimited(st, false) else
    if |st.scopes| > 0 && Waits(Top(st)) then None else
    match w
    case WOp(op) => Emitted(st, op)
    case WNative(g) => NativeCalled(st, g)
    case WVar(tid, name) => VarDeclared(st, tid, name, ntypes)
    case _ => Control(st, w)
  }

  lemma EndedInRange(st: State)
    requires InRange(st) && |st.scopes| > 0
    ensures InRange(Ended(st)) && |Ended(st).blocks| == |st.blocks| && Ended(st).ops == st.ops
  {
  }

  lemma {:induction false} ImplicitInRange(st: State)
    requires InRange(st)
    ensures InRange(ImplicitEnded(st)) && |ImplicitEnded(st).blocks| == |st.blocks| && ImplicitEnded(st).ops == st.ops
    ensures |ImplicitEnded(st).scopes| > 0 ==> !ImplicitBody(Top(ImplicitEnded(st)))
    decreases |st.scopes|
  {
    if |st.scopes| > 0 && ImplicitBody(Top(st)) {
      EndedInRange(st);
      ImplicitInRange(Ended(st));
    }
  }

  predicate Continues(st: State, t: State) { InRange(t) && |st.blocks| <= |t.blocks| && st.ops <= t.ops }

  lemma OpeningsInRange(st: State)
    requires InRange(st)
    ensures LoopBegun(st).Some? ==> Continues(st, LoopBegun(st).value)
    ensures IfBegun(st).Some? ==> Continues(st, IfBegun(st).value)
    ensures forall b :: EpilogueBegun(st, b).Some? ==> Continues(st, EpilogueBegun(st, b).value)
    ensures forall b :: Exited(st, b).Some? ==> Continues(st, Exited(st, b).value)
  {
    hide Wrapped, InnermostLoop, LeavesNoCleanup;
  }

  lemma VarInRange(st: State, tid: nat, name: string, ntypes: nat)
    requires InRange(st)
    ensures VarDeclared(st, tid, name, ntypes).Some? ==> Continues(st, VarDeclared(st, tid, name, ntypes).value)
  {
    hide Named;
  }

  lemma EmittedInRange(st: State, op: Op)
    requires InRange(st)
    ensures Emitted(st, op).Some? ==> Continues(st, Emitted(st, op).value)
  {
  }

  lemma DelimitedInRange(st: State, opening: bool)
    requires InRange(st)
    ensures Delimited(st, opening).Some? ==> Continues(st, Delimited(st, opening).value)
  {
    hide WithStart;
  }

  lemma SecondInRange(st: State, phase: Phase)
    requires InRange(st) && |st.scopes| > 0
    ensures Continues(st, SecondBegun(st, phase))
  {
    hide WithStart;
  }

  /** Words keep the indices in range, even after one of them upset the depth count. */
  lemma StepInRange(st: State, w: Token, ntypes: nat)
    requires InRange(st) && Step(st, w, ntypes).Some?
    ensures Continues(st, Step(st, w, ntypes).value)
  {
    hide ImplicitEnded, InRange, LoopBegun, IfBegun, EpilogueBegun, Exited, VarDeclared, Emitted, Delimited, SecondBegun, Ended,
         Waits, Opens;
    match w
    case WOpen => DelimitedInRange(st, true);
    case WClose => DelimitedInRange(st, false);
    case WOp(op) => EmittedInRange(st, op);
    case WNative(g) =>
      EmittedInRange(st, PushGlobal(g));
      EmittedInRange(Emitted(st, PushGlobal(g)).value, CallNative);
    case WVar(tid, name) => VarInRange(st, tid, name, ntypes);
    case _ =>
      OpeningsInRange(st);
      ImplicitInRange(st);
      var t := ImplicitEnded(st);
      if |t.scopes| > 0 {
        EndedInRange(t);
        SecondInRange(t, SCOPE_ELSE_BODY);
        SecondInRange(t, SCOPE_CLEANUP);
      }
  }

  /** All words of a source, then its end. */
  function Feed(st: State, words: seq<Token>, ntypes: nat): Option<State>
    requires InRange(st)
    decreases |words|
  {
    if |words| == 0 then Some(st) else
    match Step(st, words[0], ntypes)
    case None => None
    case Some(next) => StepInRange(st, words[0], ntypes); Feed(next, words[1..], ntypes)
  }

  function Compiled(st: State, words: seq<Token>, ntypes: nat): Option<State>
    requires InRange(st)
  {
    match Feed(st, words, ntypes)
    case None => None
    case Some(last) => var t := ImplicitEnded(last); if t.scopes == [] then Some(t) else None
  }

  const START: State := State([BBasic(Range(0, 0))], [], [], [], 0, 0)
}
