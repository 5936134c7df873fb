/** Dividing a stack keeps exactly the paths it stands for. */
module Splitting {
  import opened Multisets
  import opened Matrices
  import opened Paths
  import opened ParallelStacks

  lemma {:induction false} PendingFlatten(g: Matrix, ss: seq<seq<Path>>)
    ensures PendingAll(g, ss) == Pending(g, Flatten(ss))
  {
    if ss != [] {
      var rest := ss[..|ss| - 1];
      PendingFlatten(g, rest);
      PendingConcat(g, Flatten(rest), ss[|ss| - 1]);
    }
  }

  /** What is pending does not depend on the order of the entries. */
  lemma {:induction false} PendingIgnoresOrder(g: Matrix, a: seq<Path>, b: seq<Path>)
    requires multiset(a) == multiset(b)
    ensures Pending(g, a) == Pending(g, b)
    decreases |a|
  {
    if a == [] {
      assert |multiset(b)| == 0;
    } else {
      var rest, p := a[..|a| - 1], Top(a);
      assert a == rest + [p];
      assert p in multiset(b);
      var j :| 0 <= j < |b| && b[j] == p;
      var b1, b2 := b[..j], b[j + 1..];
      assert b == b1 + [p] + b2;
      RemoveSame(rest, p, b1, b2);
      PendingIgnoresOrder(g, rest, b1 + b2);
      PendingPush(g, rest, p);
      PendingConcat(g, b1, b2);
      PendingPush(g, b1, p);
      PendingConcat(g, b1 + [p], b2);
      SwapLast(Pending(g, b1), Reach(g, p), Pending(g, b2));
    }
  }

  lemma RemoveSame<T>(rest: seq<T>, p: T, b1: seq<T>, b2: seq<T>)
    requires multiset(rest + [p]) == multiset(b1 + [p] + b2)
    ensures multiset(rest) == multiset(b1 + b2)
  {
    assert multiset(rest + [p]) == multiset(rest) + multiset{p};
    assert multiset(b1 + [p] + b2) == multiset(b1 + b2) + multiset{p};
    forall x ensures multiset(rest)[x] == multiset(b1 + b2)[x] {
      assert (multiset(rest) + multiset{p})[x] == (multiset(b1 + b2) + multiset{p})[x];
    }
  }

  /** The parts of any division stand for exactly what the whole stack stood for. */
  lemma SharesPending(g: Matrix, s: seq<Path>, count: nat)
    requires count >= 1
    ensures PendingAll(g, Shares(s, count)) == Pending(g, s)
  {
    SharesKeepAll(s, count);
    PendingFlatten(g, Shares(s, count));
    PendingIgnoresOrder(g, Flatten(Shares(s, count)), s);
  }

  lemma PendingAllTwo(g: Matrix, ss: seq<seq<Path>>)
    requires |ss| == 2
    ensures PendingAll(g, ss) == Pending(g, ss[0]) + Pending(g, ss[1])
  {
    PendingAllPush(g, [], ss[0]);
    PendingAllPush(g, [ss[0]], ss[1]);
    assert [] + [ss[0]] == [ss[0]] && [ss[0]] + [ss[1]] == ss;
  }

  lemma HalvesPending(g: Matrix, s: seq<Path>)
    ensures Pending(g, Share(s, 0, 2)) + Pending(g, Share(s, 1, 2)) == Pending(g, s)
  {
    SharesPending(g, s, 2);
    PendingAllTwo(g, Shares(s, 2));
  }

  /** Hence parts of a stack that covers no path twice cover no path twice either, even together. */
  lemma PartsStaySeparated(g: Matrix, s: seq<Path>, count: nat)
    requires ValidStack(g, s) && Separated(g, s) && count >= 1
    ensures ValidStack(g, Flatten(Shares(s, count))) && Separated(g, Flatten(Shares(s, count)))
  {
    var all := Flatten(Shares(s, count));
    SharesKeepAll(s, count);
    forall i | 0 <= i < |all|
      ensures ValidPath(g, all[i])
    {
      assert all[i] in multiset(all);
      assert all[i] in multiset(s);
    }
    PendingIgnoresOrder(g, all, s);
    OnceIffSeparated(g, s);
    OnceIffSeparated(g, all);
  }

  lemma {:induction false} StrideElements<T>(s: seq<T>, r: nat, d: nat)
    requires d > 0
    ensures forall x :: x in Stride(s, r, d) ==> x in s
    decreases |s| - r
  {
    if r < |s| {
      StrideElements(s, r + d, d);
    }
  }
}
