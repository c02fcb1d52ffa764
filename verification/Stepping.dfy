/** Single steps of the machine, and where the parts of compound code lie. */
module Stepping {
  import opened Memory
  import opened Ir
  import opened Bytecode
  import opened Codegen
  import opened CodegenFacts
  import opened Machine

  // ----- where code lies -----

  /** Fetching at the offset of instruction k gives instruction k. */
  predicate Line(bytes: seq<u8>, at: nat, code: seq<Instr>, k: int) {
    0 <= k < |code| ==>
      Fetch(bytes, at + CodeLength(code[..k])) == Got(code[k], at + CodeLength(code[..k]) + Length(code[k]))
  }

  predicate Laid(bytes: seq<u8>, at: nat, code: seq<Instr>) {
    forall k {:trigger Line(bytes, at, code, k)} :: 0 <= k < |code| ==> Line(bytes, at, code, k)
  }

  lemma LaidSplit(bytes: seq<u8>, at: nat, a: seq<Instr>, b: seq<Instr>)
    requires Laid(bytes, at, a + b)
    ensures Laid(bytes, at, a) && Laid(bytes, at + CodeLength(a), b)
  {
    hide Fetch, CodeLength;
    forall k | 0 <= k < |a| ensures Line(bytes, at, a, k) {
      assert Line(bytes, at, a + b, k);
      assert (a + b)[..k] == a[..k];
    }
    var mid := at + CodeLength(a);
    forall k | 0 <= k < |b| ensures Line(bytes, mid, b, k) {
      assert Line(bytes, at, a + b, |a| + k);
      assert (a + b)[..|a| + k] == a + b[..k];
      LengthConcat(a, b[..k]);
    }
  }

  lemma LaidOne(bytes: seq<u8>, at: nat, i: Instr)
    ensures Laid(bytes, at, [i]) <==> Fetch(bytes, at) == Got(i, at + Length(i))
    ensures CodeLength([i]) == Length(i)
  {
    assert [i][..0] == [];
    assert Line(bytes, at, [i], 0) <==> Fetch(bytes, at) == Got(i, at + Length(i));
    assert [i][1..] == [];
  }

  lemma LaidFirst(bytes: seq<u8>, at: nat, i: Instr, rest: seq<Instr>)
    requires Laid(bytes, at, [i] + rest)
    ensures Fetch(bytes, at) == Got(i, at + Length(i)) && Laid(bytes, at + Length(i), rest)
    ensures CodeLength([i] + rest) == Length(i) + CodeLength(rest)
  {
    LaidSplit(bytes, at, [i], rest);
    LaidOne(bytes, at, i);
    LengthConcat([i], rest);
  }

  lemma LaidJoin(bytes: seq<u8>, at: nat, a: seq<Instr>, b: seq<Instr>)
    requires Laid(bytes, at, a) && Laid(bytes, at + CodeLength(a), b)
    ensures Laid(bytes, at, a + b)
  {
    hide Fetch, CodeLength;
    forall k | 0 <= k < |a + b| ensures Line(bytes, at, a + b, k) {
      if k < |a| {
        assert Line(bytes, at, a, k);
        assert (a + b)[..k] == a[..k];
      } else {
        assert Line(bytes, at + CodeLength(a), b, k - |a|);
        assert (a + b)[..k] == a + b[..k - |a|];
        LengthConcat(a, b[..k - |a|]);
      }
    }
  }

  /** Encoded code is laid out instruction by instruction. */
  lemma {:induction false} EncodedLaid(bytes: seq<u8>, at: nat, code: seq<Instr>)
    requires CodeAt(bytes, at, code) && AllFit(code)
    ensures Laid(bytes, at, code)
    decreases |code|
  {
    if |code| > 0 {
      FetchFirst(bytes, at, code);
      EncodedLaid(bytes, at + Length(code[0]), code[1..]);
      LaidOne(bytes, at, code[0]);
      LaidJoin(bytes, at, [code[0]], code[1..]);
      assert [code[0]] + code[1..] == code;
    }
  }

  lemma SplitResolved(bytes: seq<u8>, pos: nat, a: seq<Instr>, b: seq<Instr>, ends: seq<nat>)
    requires Laid(bytes, pos, Resolve(a + b, ends))
    ensures Laid(bytes, pos, Resolve(a, ends))
    ensures Laid(bytes, pos + CodeLength(a), Resolve(b, ends))
    ensures CodeLength(a + b) == CodeLength(a) + CodeLength(b)
  {
    ResolveConcat(a, b, ends);
    LaidSplit(bytes, pos, Resolve(a, ends), Resolve(b, ends));
    ResolveLength(a, ends);
    LengthConcat(a, b);
  }

  lemma FetchResolved(bytes: seq<u8>, pos: nat, i: Instr, rest: seq<Instr>, ends: seq<nat>)
    requires Laid(bytes, pos, Resolve([i] + rest, ends)) && !i.IExit?
    ensures Fetch(bytes, pos) == Got(i, pos + Length(i))
    ensures Laid(bytes, pos + Length(i), Resolve(rest, ends))
    ensures CodeLength([i] + rest) == Length(i) + CodeLength(rest)
  {
    ResolveConcat([i], rest, ends);
    assert Resolve([i], ends) == [i];
    LaidFirst(bytes, pos, i, Resolve(rest, ends));
    LengthConcat([i], rest);
    LaidOne(bytes, pos, i);
  }

  lemma FetchOne(bytes: seq<u8>, pos: nat, i: Instr, ends: seq<nat>)
    requires Laid(bytes, pos, Resolve([i], ends)) && !i.IExit?
    ensures Fetch(bytes, pos) == Got(i, pos + Length(i))
    ensures CodeLength([i]) == Length(i)
  {
    assert Resolve([i], ends) == [i];
    LaidOne(bytes, pos, i);
  }

  // ----- steps -----

  /** The machine runs and is about to execute i. */
  predicate About(im: Image, c: Config, i: Instr) {
    c.mode.Running? && c.fn < |im.codes| && Fetch(im.codes[c.fn], c.pc) == Got(i, c.pc + Length(i))
  }

  function Past(c: Config, i: Instr): Config { c.(pc := c.pc + Length(i)) }

  /** tr[k] becomes tr[k + 1] in one step. */
  predicate Hop(im: Image, tr: seq<Config>, k: int) {
    0 <= k < |tr| - 1 ==> Step(im, tr[k]) == tr[k + 1]
  }

  predicate Trace(im: Image, tr: seq<Config>) {
    forall k {:trigger Hop(im, tr, k)} :: 0 <= k < |tr| - 1 ==> Hop(im, tr, k)
  }

  /** The machine goes from c to d in n steps. */
  ghost predicate Goes(im: Image, c: Config, n: nat, d: Config) {
    exists tr {:trigger Trace(im, tr)} :: Trace(im, tr) && |tr| == n + 1 && tr[0] == c && tr[n] == d
  }

  lemma GoesNowhere(im: Image, c: Config)
    ensures Goes(im, c, 0, c)
  {
    assert Trace(im, [c]);
  }

  lemma GoesOn(im: Image, c: Config, m: nat, d: Config, n: nat, e: Config)
    requires Goes(im, c, m, d) && Goes(im, d, n, e)
    ensures Goes(im, c, m + n, e)
  {
    var a :| Trace(im, a) && |a| == m + 1 && a[0] == c && a[m] == d;
    var b :| Trace(im, b) && |b| == n + 1 && b[0] == d && b[n] == e;
    var tr := a + b[1..];
    forall k | 0 <= k < |tr| - 1 ensures Hop(im, tr, k) {
      if k < m {
        assert Hop(im, a, k);
        assert tr[k] == a[k] && tr[k + 1] == a[k + 1];
      } else {
        assert Hop(im, b, k - m);
        assert tr[k] == b[k - m] && tr[k + 1] == b[k - m + 1];
      }
    }
    assert Trace(im, tr);
  }

  lemma OneStep(im: Image, c: Config)
    ensures Goes(im, c, 1, Step(im, c))
  {
    var tr := [c, Step(im, c)];
    assert forall k :: 0 <= k < |tr| - 1 ==> Hop(im, tr, k);
    assert Trace(im, tr);
  }

  lemma {:induction false} GoesSteps(im: Image, c: Config, n: nat, d: Config)
    requires Goes(im, c, n, d)
    ensures Steps(im, n, c) == d
    decreases n
  {
    if n > 0 {
      var tr :| Trace(im, tr) && |tr| == n + 1 && tr[0] == c && tr[n] == d;
      assert Hop(im, tr, 0);
      var rest := tr[1..];
      forall k | 0 <= k < |rest| - 1 ensures Hop(im, rest, k) { assert Hop(im, tr, k + 1); }
      assert Trace(im, rest);
      GoesSteps(im, tr[1], n - 1, d);
    }
  }

  lemma DataStep(im: Image, c: Config, i: Instr)
    requires About(im, c, i) && IsData(i)
    ensures Goes(im, c, 1, Applied(Past(c, i), DataEffect(im.native, i, c.argBase, c.mem, c.params)))
  {
    OneStep(im, c);
  }

  lemma ControlStep(im: Image, c: Config, i: Instr)
    requires About(im, c, i) && !IsData(i)
    ensures Goes(im, c, 1, Control(im, i, Past(c, i)))
  {
    OneStep(im, c);
  }

  lemma JumpStep(im: Image, c: Config, target: nat)
    requires About(im, c, IJump(target))
    ensures Goes(im, c, 1, c.(pc := target))
  {
    ControlStep(im, c, IJump(target));
  }

  lemma DropStep(im: Image, c: Config, n: nat)
    requires About(im, c, IDropN(n)) && n <= |c.params|
    ensures Goes(im, c, 1, Past(c, IDropN(n)).(params := c.params[..|c.params| - n]))
  {
    DataStep(im, c, IDropN(n));
  }

  lemma GrowStep(im: Image, c: Config, n: nat)
    requires About(im, c, IStorageAdd(n))
    ensures Goes(im, c, 1, Past(c, IStorageAdd(n)).(mem := c.mem.(storage := c.mem.storage + Zeros(n))))
  {
    DataStep(im, c, IStorageAdd(n));
  }

  /** Nothing from byte `from` on is part of a return frame. */
  predicate OpenFrom(m: Mem, from: nat) {
    forall i :: from <= i < |m.storage| ==> !m.storage[i].Saved?
  }

  lemma ShrinkStep(im: Image, c: Config, n: nat)
    requires About(im, c, IStorageAdd(-(n as int))) && n <= |c.mem.storage| && OpenFrom(c.mem, |c.mem.storage| - n)
    ensures Goes(im, c, 1, Past(c, IStorageAdd(-(n as int))).(mem := c.mem.(storage := c.mem.storage[..|c.mem.storage| - n])))
  {
    DataStep(im, c, IStorageAdd(-(n as int)));
    var s := c.mem.storage;
    if n == 0 {
      assert s + Zeros(0) == s == s[..|s| - 0];
    } else {
      assert Open(s[|s| - n..]);
    }
  }

  lemma PopStep(im: Image, c: Config)
    requires About(im, c, IPopCrash) && |c.pads| > 0
    ensures Goes(im, c, 1, Past(c, IPopCrash).(pads := c.pads[..|c.pads| - 1]))
  {
    ControlStep(im, c, IPopCrash);
  }

  lemma PushStep(im: Image, c: Config, target: nat)
    requires About(im, c, IPushCrash(target))
    ensures Goes(im, c, 1, Past(c, IPushCrash(target)).(pads :=
      c.pads + [Pad(target, c.fn, |c.mem.storage|, |c.params|, c.argBase, |c.rets|)]))
  {
    ControlStep(im, c, IPushCrash(target));
  }

  lemma CrashStep(im: Image, c: Config)
    requires About(im, c, ICrash)
    ensures Goes(im, c, 1, ToCrash(Past(c, ICrash), VM_CRASH))
  {
    ControlStep(im, c, ICrash);
  }

  lemma BranchStep(im: Image, c: Config, yes: nat, no: nat)
    requires About(im, c, IBranchTop(yes, no)) && |c.params| >= 1
    ensures var x := LoadNum(c.mem, c.params[|c.params| - 1]);
      if x.None? then Goes(im, c, 1, Halt(Past(c, IBranchTop(yes, no)), UNDEFINED))
      else Goes(im, c, 1, c.(pc := if x.value != 0 then yes else no, params := c.params[..|c.params| - 1]))
  {
    ControlStep(im, c, IBranchTop(yes, no));
  }

  lemma CallStep(im: Image, c: Config, fn: nat, argc: nat)
    requires About(im, c, ICall(fn + 1, argc)) && argc <= |c.params| && fn < |im.codes|
    ensures Goes(im, c, 1, Enter(Past(c, ICall(fn + 1, argc)), fn, |c.params| - argc, Back(c.fn, c.pc + Length(ICall(fn + 1, argc)), c.argBase)))
  {
    ControlStep(im, c, ICall(fn + 1, argc));
  }

  /** The newest pad is taken when what it recorded is still there. */
  lemma UnwindStep(im: Image, c: Config, pad: Pad)
    requires c.mode.Crashing? && |c.pads| > 0 && pad == c.pads[|c.pads| - 1]
    requires pad.storageLen <= |c.mem.storage| && pad.paramLen <= |c.params| && pad.retLen <= |c.rets|
    ensures Goes(im, c, 1, Config(Running, pad.fn, pad.pc, pad.argBase,
      c.mem.(storage := c.mem.storage[..pad.storageLen]), c.params[..pad.paramLen], c.rets[..pad.retLen],
      c.pads[..|c.pads| - 1], c.ans))
  {
    OneStep(im, c);
  }

  lemma FirstPop(bytes: seq<u8>, pos: nat, k: nat, rest: seq<Instr>)
    requires k > 0 && Laid(bytes, pos, PopPads(k) + rest)
    ensures Fetch(bytes, pos) == Got(IPopCrash, pos + Length(IPopCrash))
    ensures Laid(bytes, pos + Length(IPopCrash), PopPads(k - 1) + rest)
    ensures CodeLength(PopPads(k)) == Length(IPopCrash) + CodeLength(PopPads(k - 1))
  {
    assert PopPads(k) + rest == [IPopCrash] + (PopPads(k - 1) + rest);
    assert PopPads(k) == [IPopCrash] + PopPads(k - 1);
    LaidFirst(bytes, pos, IPopCrash, PopPads(k - 1) + rest);
    LengthConcat([IPopCrash], PopPads(k - 1));
    LaidOne(bytes, pos, IPopCrash);
  }

  lemma NoPops(rest: seq<Instr>)
    ensures PopPads(0) == [] && PopPads(0) + rest == rest && CodeLength(PopPads(0)) == 0
  {
  }

  /** k POP_CRASH instructions in a row. */
  lemma {:induction false} PopsRun(im: Image, c: Config, k: nat, rest: seq<Instr>)
    requires c.mode.Running? && c.fn < |im.codes| && k <= |c.pads|
    requires Laid(im.codes[c.fn], c.pc, PopPads(k) + rest)
    ensures Goes(im, c, k, c.(pc := c.pc + CodeLength(PopPads(k)), pads := c.pads[..|c.pads| - k]))
    ensures Laid(im.codes[c.fn], c.pc + CodeLength(PopPads(k)), rest)
    decreases k
  {
    hide Laid, Goes, CodeLength, PopPads;
    if k == 0 {
      NoPops(rest);
      GoesNowhere(im, c);
      assert c.pads[..|c.pads|] == c.pads;
    } else {
      FirstPop(im.codes[c.fn], c.pc, k, rest);
      PopStep(im, c);
      var d := Past(c, IPopCrash).(pads := c.pads[..|c.pads| - 1]);
      PopsRun(im, d, k - 1, rest);
      assert d.pads[..|d.pads| - (k - 1)] == c.pads[..|c.pads| - k];
      var e := c.(pc := c.pc + CodeLength(PopPads(k)), pads := c.pads[..|c.pads| - k]);
      GoesOn(im, c, 1, d, k - 1, e);
    }
  }
}
