/** Crash pads over whole runs of the machine, whatever the code: they are taken newest first
    and once, and give back what there was when they were pushed. */
module CrashUnwinding {
  import opened Memory
  import opened Bytecode
  import opened Machine
  import opened Stepping

  /** One step leaves the pads alone, pushes one, or takes the newest away. */
  lemma PadsAreAStack(im: Image, c: Config)
    ensures var d := Step(im, c);
      || d.pads == c.pads
      || (|d.pads| == |c.pads| + 1 && d.pads[..|c.pads|] == c.pads)
      || (|c.pads| > 0 && d.pads == c.pads[..|c.pads| - 1])
  {
    hide DataEffect, Fetch;
  }

  /** The first crash code is never replaced. */
  lemma CodeStays(im: Image, c: Config)
    requires c.ans != VM_OK
    ensures Step(im, c).ans == c.ans
  {
    hide DataEffect, Fetch;
  }

  lemma {:induction false} FirstCodeKept(im: Image, tr: seq<Config>, i: nat, j: nat)
    requires Trace(im, tr) && i <= j < |tr| && tr[i].ans != VM_OK
    ensures tr[j].ans == tr[i].ans
    decreases j - i
  {
    hide Step;
    if i < j {
      FirstCodeKept(im, tr, i, j - 1);
      CodeStays(im, tr[j - 1]);
      assert Hop(im, tr, j - 1);
    }
  }

  /** As long as the pads never shrink below a height, those below it stay as they are. */
  lemma {:induction false} PadsBelowStay(im: Image, tr: seq<Config>, i: nat, j: nat, n: nat)
    requires Trace(im, tr) && i <= j < |tr| && forall k :: i <= k <= j ==> n <= |tr[k].pads|
    ensures tr[j].pads[..n] == tr[i].pads[..n]
    decreases j - i
  {
    hide Step;
    if i < j {
      PadsBelowStay(im, tr, i, j - 1, n);
      PadsAreAStack(im, tr[j - 1]);
      assert Hop(im, tr, j - 1);
      var a, b := tr[j - 1].pads, tr[j].pads;
      if |b| == |a| + 1 {
        assert b[..n] == b[..|a|][..n];
      } else if |b| + 1 == |a| {
        assert b[..n] == a[..|a| - 1][..n];
      }
    }
  }

  /** A crash that takes a pad continues exactly where its PUSH_CRASH stood: the handler it
      named, in the same activation, with the storage, parameters and return frames as high as
      they were then, the older pads untouched, and the first crash code in place. */
  lemma PadResumes(im: Image, tr: seq<Config>, i: nat, j: nat, handler: nat)
    requires Trace(im, tr) && i < j && j + 1 < |tr| && About(im, tr[i], IPushCrash(handler))
    requires forall k :: i < k <= j ==> |tr[i].pads| < |tr[k].pads|
    requires tr[j].mode.Crashing? && tr[j + 1].mode.Running? && |tr[j + 1].pads| == |tr[i].pads|
    ensures var c, d := tr[i], tr[j + 1];
      && d.fn == c.fn && d.pc == handler && d.argBase == c.argBase
      && |d.mem.storage| == |c.mem.storage| && |d.params| == |c.params| && |d.rets| == |c.rets|
      && d.pads == c.pads && d.ans == tr[j].ans
      && d.params <= tr[j].params && d.rets <= tr[j].rets && d.mem.storage <= tr[j].mem.storage
  {
    hide DataEffect, Fetch, Trace;
    assert Hop(im, tr, i) && Hop(im, tr, j) by {
      assert Trace(im, tr);
      TraceHops(im, tr, i);
      TraceHops(im, tr, j);
    }
    var c := tr[i];
    var pad := Pad(handler, c.fn, |c.mem.storage|, |c.params|, c.argBase, |c.rets|);
    assert tr[i + 1].pads == c.pads + [pad];
    PadsBelowStay(im, tr, i + 1, j, |c.pads| + 1);
    assert tr[j].pads[|c.pads|] == tr[j].pads[..|c.pads| + 1][|c.pads|] == pad;
    assert |tr[j].pads| == |c.pads| + 1;
    assert tr[j].pads == tr[j].pads[..|c.pads| + 1] == c.pads + [pad];
    assert (c.pads + [pad])[..|c.pads|] == c.pads;
  }

  lemma TraceHops(im: Image, tr: seq<Config>, k: nat)
    requires Trace(im, tr) && k < |tr| - 1
    ensures Hop(im, tr, k)
  {
  }
}
