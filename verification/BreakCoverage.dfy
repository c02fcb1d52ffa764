/** Which cleanups a lowered break runs: exactly when it runs all it has to. */
module BreakCoverage {
  import opened Ir
  import opened Lowering

  /** Every entry is a branch or a scope. */
  lemma {:induction false} EntriesCounted(path: seq<Around>)
    ensures Branches(path) + Scopes(path) == |path|
  {
    if |path| > 0 { EntriesCounted(path[1..]); }
  }

  /** The nearest n entries hold a prefix of what is crossed, and hold all of it exactly
      when the outermost crossed defer is among them. */
  lemma {:induction false} NearestAgainstCrossed(path: seq<Around>, n: nat, k: nat)
    requires n <= k
    ensures Nearest(path, n) <= Crossed(path, k)
    ensures Nearest(path, n) == Crossed(path, k) <==> Outermost(path, k) <= n
    ensures Outermost(path, k) == 0 <==> Crossed(path, k) == []
  {
    if |path| > 0 && k > 0 {
      var rest, more := path[1..], if path[0].InBranch? then k else k - 1;
      NearestAgainstCrossed(rest, if n == 0 then 0 else n - 1, more);
      if n == 0 { assert Nearest(rest, 0) == []; }
    }
  }

  /** The cleanups a lowered break inlines are always an inner-to-outer prefix of the
      cleanups of the defers it leaves. They are all of them exactly when at least b + 1
      of the scopes left lie beyond the outermost of these defers, where b is the number
      of branches between the break and that defer. */
  lemma InlinedCleanups(path: seq<Around>, level: nat)
    requires level > 0
    ensures Nearest(path, level - 1) <= Crossed(path, level)
    ensures Nearest(path, level - 1) == Crossed(path, level) <==> Reaches(path, level)
  {
    NearestAgainstCrossed(path, level - 1, level);
    EntriesCounted(path[..Outermost(path, level)]);
  }

  /** A break out of the protected part of a defer, to just behind it, runs no cleanup. */
  lemma BreakToDeferSkipsCleanup(cleanup: Tree)
    ensures Lower(Defer(Break(1), cleanup), []) ==
      var c := Lower(cleanup, [Nothing]);
      Many(Link(CrashPad(Break(1), c), Link(c, End)))
    ensures !Reaches([InNext(cleanup)], 1)
  {
    assert [Pending(Lower(cleanup, [Nothing]))] + [] == [Pending(Lower(cleanup, [Nothing]))];
    assert Inlined([Nothing] + [Pending(Lower(cleanup, [Nothing]))], 1) == [];
    assert [InNext(cleanup)][..1] == [InNext(cleanup)];
    assert [Nothing] + [] == [Nothing];
  }
}
