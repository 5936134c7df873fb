/** The work stack, its in-place interleaved split, and the division into any number of parts. */
module ParallelStacks {
  import opened Basics
  import opened Multisets

  /** The elements of `s` at positions `r`, `r + d`, `r + 2d`, ... */
  ghost function Stride<T>(s: seq<T>, r: nat, d: nat): seq<T>
    requires d > 0
    decreases |s| - r
  {
    if r >= |s| then [] else [s[r]] + Stride(s, r + d, d)
  }

  /** How many positions below `n` lie on the progression from `r` with step `d`. */
  function Hits(n: nat, r: nat, d: nat): nat
    requires d > 0
    decreases n - r
  {
    if r >= n then 0 else 1 + Hits(n, r + d, d)
  }

  /** The k-th element of a stride. */
  lemma {:induction false} StrideAt<T>(s: seq<T>, r: nat, d: nat, k: nat)
    requires d > 0
    ensures |Stride(s, r, d)| == Hits(|s|, r, d)
    ensures k < Hits(|s|, r, d) ==> r + k * d < |s| && Stride(s, r, d)[k] == s[r + k * d]
    decreases |s| - r
  {
    if r < |s| {
      StrideAt(s, r + d, d, if k > 0 then k - 1 else 0);
      NextMultiple(k - 1, d);
    }
  }

  /** The progression stops at the first position that is out of range. */
  lemma {:induction false} HitsEnd(n: nat, r: nat, d: nat)
    requires d > 0
    ensures r + Hits(n, r, d) * d >= n
    ensures Hits(n, r, d) > 0 ==> r + (Hits(n, r, d) - 1) * d < n
    decreases n - r
  {
    if r < n {
      HitsEnd(n, r + d, d);
      NextMultiple(Hits(n, r + d, d), d);
      NextMultiple(Hits(n, r + d, d) - 1, d);
    }
  }

  /** Taking every second element of a stride doubles its step. */
  lemma {:induction false} StrideHalves<T>(s: seq<T>, r: nat, d: nat)
    requires d > 0
    ensures Stride(Stride(s, r, d), 0, 2) == Stride(s, r, 2 * d)
    ensures Stride(Stride(s, r, d), 1, 2) == Stride(s, r + d, 2 * d)
    decreases |s| - r
  {
    var t := Stride(s, r, d);
    if r < |s| {
      StrideHalves(s, r + d, d);
      StrideTail([s[r]], Stride(s, r + d, d), 1);
      StrideTail([s[r]], Stride(s, r + d, d), 0);
      assert Stride(t, 0, 2) == [s[r]] + Stride(t, 2, 2);
    }
  }

  lemma {:induction false} StrideTail<T>(a: seq<T>, s: seq<T>, r: nat)
    ensures Stride(a + s, |a| + r, 2) == Stride(s, r, 2)
    decreases |s| - r
  {
    if r < |s| {
      StrideTail(a, s, r + 2);
    }
  }

  lemma EverySecond<T>(s: seq<T>, r: nat, t: seq<T>)
    requires r < 2 && |t| == (|s| + 1 - r) / 2
    requires forall k :: 0 <= k < |t| ==> t[k] == s[2 * k + r]
    ensures t == Stride(s, r, 2)
  {
    HitsEnd(|s|, r, 2);
    StrideAt(s, r, 2, 0);
    forall k | 0 <= k < |t| ensures t[k] == Stride(s, r, 2)[k] {
      StrideAt(s, r, 2, k);
    }
  }

  class ParallelStack<T(0)> {
    var data: seq<T>

    constructor ()
      ensures data == []
    {
      data := [];
    }

    method Push(item: T)
      modifies this
      ensures data == old(data) + [item]
    {
      data := data + [item];
    }

    method Top() returns (item: T)
      requires data != []
      ensures item == data[|data| - 1]
    {
      item := data[|data| - 1];
    }

    method Pop()
      requires data != []
      modifies this
      ensures data == old(data)[..|old(data)| - 1]
    {
      data := data[..|data| - 1];
    }

    method AssignData(items: seq<T>)
      modifies this
      ensures data == items
    {
      data := items;
    }

    /** The odd positions are given away, the even ones are kept. */
    method GiveInterleaved() returns (given: ParallelStack<T>)
      modifies this
      ensures fresh(given)
      ensures data == Stride(old(data), 0, 2)
      ensures given.data == Stride(old(data), 1, 2)
    {
      given := new ParallelStack<T>();
      var newDataA := new T[|data| / 2];
      var newDataB := new T[|data| - |data| / 2];
      for i := 0 to newDataA.Length
        invariant data == old(data)
        invariant forall k :: 0 <= k < i ==> newDataA[k] == data[2 * k + 1]
      {
        newDataA[i] := data[2 * i + 1];
      }
      for i := 0 to newDataB.Length
        invariant data == old(data)
        invariant forall k :: 0 <= k < newDataA.Length ==> newDataA[k] == data[2 * k + 1]
        invariant forall k :: 0 <= k < i ==> newDataB[k] == data[2 * k]
      {
        newDataB[i] := data[2 * i];
      }
      EverySecond(data, 0, newDataB[..]);
      EverySecond(data, 1, newDataA[..]);
      AssignData(newDataB[..]);
      given.AssignData(newDataA[..]);
    }
  }

  // ---------- dividing into `count` parts ----------

  /** The largest power of two that is at most `count` (1 for 0). */
  function FullRounds(count: nat): nat {
    if count < 2 then 1 else 2 * FullRounds(count / 2)
  }

  lemma {:induction false} FullRoundsBounds(count: nat)
    ensures 1 <= FullRounds(count)
    ensures count >= 1 ==> FullRounds(count) <= count < 2 * FullRounds(count)
    ensures FullRounds(count + 1) ==
            if count + 1 == 2 * FullRounds(count) then 2 * FullRounds(count) else FullRounds(count)
  {
    if count >= 2 {
      FullRoundsBounds(count / 2);
      if count % 2 == 1 {
        assert (count + 1) / 2 == count / 2 + 1;
      } else {
        assert (count + 1) / 2 == count / 2;
      }
    }
  }

  function Pow2(k: nat): nat {
    if k == 0 then 1 else 2 * Pow2(k - 1)
  }

  /** After k full rounds there are 2^k parts. */
  lemma {:induction false} FullRoundsIsPower(k: nat, count: nat)
    requires Pow2(k) <= count < Pow2(k + 1)
    ensures FullRounds(count) == Pow2(k)
  {
    if k > 0 {
      FullRoundsIsPower(k - 1, count / 2);
    }
  }

  /**
   * The step of part `i` of `count`: with P the number of parts after the last full round, the
   * parts split in the final, possibly partial round have step 2P, the others P.
   */
  function StepOf(i: nat, count: nat): (d: nat)
    ensures d > 0
  {
    FullRoundsBounds(count);
    var p := FullRounds(count);
    if i < count - p || i >= p then 2 * p else p
  }

  /** Part `i` of `count`: a residue class of positions. */
  ghost function Share<T>(s: seq<T>, i: nat, count: nat): seq<T> {
    Stride(s, i, StepOf(i, count))
  }

  /** All the parts of a division. */
  ghost function Shares<T>(s: seq<T>, count: nat): seq<seq<T>> {
    seq(count, i requires 0 <= i < count => Share(s, i, count))
  }

  /** Splitting the next part of the round gives the division into one more part. */
  lemma NextShares<T>(s: seq<T>, count: nat)
    requires 1 <= count
    ensures var j := count - FullRounds(count);
            && 0 <= j < FullRounds(count) <= count
            && Shares(s, count + 1) == Shares(s, count)[j := Stride(Share(s, j, count), 0, 2)]
                                       + [Stride(Share(s, j, count), 1, 2)]
  {
    FullRoundsBounds(count);
    var p := FullRounds(count);
    StrideHalves(s, count - p, p);
  }

  ghost function Contents<T(0)>(pars: seq<ParallelStack<T>>): seq<seq<T>>
    reads pars
  {
    seq(|pars|, i requires 0 <= i < |pars| reads pars => pars[i].data)
  }

  /** `Computation::GetParallelStacks`. */
  method GetParallelStacks<T(0)>(states: seq<T>, count: nat) returns (pars: seq<ParallelStack<T>>)
    ensures |pars| == if count == 0 then 1 else count
    ensures fresh(pars) && Distinct(pars)
    ensures Contents(pars) == Shares(states, |pars|)
  {
    var first := new ParallelStack<T>();
    first.AssignData(states);
    pars := [first];
    StrideOne(states, 0);
    var newPars := pars;
    while |pars| > 0 && |pars| < count
      invariant newPars == pars && 1 <= |pars|
      invariant |pars| <= count || |pars| == 1
      invariant FullRounds(|pars|) == |pars|
      invariant fresh(pars) && Distinct(pars) && Contents(pars) == Shares(states, |pars|)
      decreases count - |pars|
    {
      for j := 0 to |pars|
        invariant |newPars| == |pars| + j < count && pars <= newPars
        invariant FullRounds(|newPars|) == if j < |pars| then |pars| else |newPars|
        invariant fresh(newPars) && Distinct(newPars) && Contents(newPars) == Shares(states, |newPars|)
      {
        FullRoundsBounds(|newPars|);
        var newStack := SplitNext(pars[j], newPars, j, states);
        newPars := newPars + [newStack];
        if |newPars| == count {
          return newPars;
        }
      }
      pars := newPars;
    }
  }

  /** The split in the inner loop: the stack at `j` gives its odd positions to a new one. */
  method SplitNext<T(0)>(stack: ParallelStack<T>, ghost all: seq<ParallelStack<T>>, ghost j: nat, ghost states: seq<T>)
    returns (newStack: ParallelStack<T>)
    requires Distinct(all) && Contents(all) == Shares(states, |all|)
    requires j < |all| && j == |all| - FullRounds(|all|) && all[j] == stack
    modifies stack
    ensures fresh(newStack)
    ensures Distinct(all + [newStack]) && Contents(all + [newStack]) == Shares(states, |all| + 1)
  {
    NextShares(states, |all|);
    assert stack.data == Contents(all)[j];
    newStack := stack.GiveInterleaved();
    assert Contents(all + [newStack]) == old(Contents(all))[j := stack.data] + [newStack.data];
  }

  lemma {:induction false} StrideOne<T>(s: seq<T>, r: nat)
    requires r <= |s|
    ensures Stride(s, r, 1) == s[r..]
    decreases |s| - r
  {
    if r < |s| {
      StrideOne(s, r + 1);
    }
  }

  // ---------- shape and size of the parts ----------

  /** Part `i` holds, in order, exactly the positions i, i + d, i + 2d, ... of the input. */
  lemma ShareIsResidueClass<T>(s: seq<T>, i: nat, count: nat, k: nat)
    requires i < count
    ensures var d := StepOf(i, count);
            && i < d
            && (d == FullRounds(count) || d == 2 * FullRounds(count))
            && (i + k * d < |s| <==> k < |Share(s, i, count)|)
            && (k < |Share(s, i, count)| ==> Share(s, i, count)[k] == s[i + k * d])
  {
    FullRoundsBounds(count);
    var d := StepOf(i, count);
    var h := Hits(|s|, i, d);
    StrideAt(s, i, d, k);
    HitsEnd(|s|, i, d);
    if k >= h {
      MulMonotone(h, k, d);
    }
  }

  lemma FloorBound(n: nat, m: nat, h: nat)
    requires m > 0 && n < (h + 1) * m
    ensures n / m <= h
  {
    if n / m >= h + 1 {
      MulMonotone(h + 1, n / m, m);
      assert false;
    }
  }

  lemma CeilBound(n: nat, p: nat, h: nat)
    requires p > 0 && (h > 0 ==> (h - 1) * p < n)
    ensures h <= (n + p - 1) / p
  {
    var q := (n + p - 1) / p;
    if h > q {
      assert n + p - 1 < q * p + p;
      MulMonotone(q, h - 1, p);
      assert false;
    }
  }

  /** The parts are balanced: between floor(N / 2P) and ceil(N / P) entries each. */
  lemma ShareSize<T>(s: seq<T>, i: nat, count: nat)
    requires i < count
    ensures var p := FullRounds(count);
            p > 0 && |s| / (2 * p) <= |Share(s, i, count)| <= (|s| + p - 1) / p
    ensures Share(s, i, count) != [] <==> i < |s|
  {
    FullRoundsBounds(count);
    var p, d := FullRounds(count), StepOf(i, count);
    var h := Hits(|s|, i, d);
    StrideAt(s, i, d, 0);
    HitsEnd(|s|, i, d);
    StepBounds(|s|, i, d, p, h);
    FloorBound(|s|, 2 * p, h);
    CeilBound(|s|, p, h);
  }

  lemma StepBounds(n: nat, i: nat, d: nat, p: nat, h: nat)
    requires i < d && p <= d <= 2 * p
    requires i + h * d >= n && (h > 0 ==> i + (h - 1) * d < n)
    ensures n < (h + 1) * (2 * p)
    ensures h > 0 ==> (h - 1) * p < n
  {
    NextMultiple(h, d);
    MulMonotone(d, 2 * p, h + 1);
    if h > 0 {
      MulMonotone(p, d, h - 1);
    }
  }

  // ---------- nothing lost, nothing copied ----------

  ghost function Flatten<T>(ss: seq<seq<T>>): seq<T> {
    if ss == [] then [] else Flatten(ss[..|ss| - 1]) + ss[|ss| - 1]
  }

  lemma {:induction false} FlattenConcat<T>(a: seq<seq<T>>, b: seq<seq<T>>)
    ensures Flatten(a + b) == Flatten(a) + Flatten(b)
  {
    if b == [] {
      assert a + b == a;
    } else {
      var k := |b| - 1;
      FlattenConcat(a, b[..k]);
      assert (a + b)[..|a + b| - 1] == a + b[..k];
      SeqAssoc(Flatten(a), Flatten(b[..k]), b[k]);
    }
  }

  lemma FlattenOne<T>(s: seq<T>)
    ensures Flatten([s]) == s
  {
  }

  lemma FlattenTwo<T>(ss: seq<seq<T>>)
    requires |ss| == 2
    ensures multiset(Flatten(ss)) == multiset(ss[0]) + multiset(ss[1])
  {
    assert ss == [ss[0]] + [ss[1]];
    FlattenConcat([ss[0]], [ss[1]]);
    FlattenOne(ss[0]);
    FlattenOne(ss[1]);
  }

  lemma FlattenMiddle<T>(a: seq<seq<T>>, s: seq<T>, b: seq<seq<T>>)
    ensures multiset(Flatten(a + [s] + b)) == multiset(Flatten(a)) + multiset(s) + multiset(Flatten(b))
  {
    FlattenConcat(a + [s], b);
    FlattenConcat(a, [s]);
    FlattenOne(s);
  }

  lemma FlattenUpdate<T>(ss: seq<seq<T>>, i: nat, s: seq<T>)
    requires i < |ss|
    ensures multiset(Flatten(ss[i := s])) + multiset(ss[i]) == multiset(Flatten(ss)) + multiset(s)
  {
    var a, b := ss[..i], ss[i + 1..];
    assert ss == a + [ss[i]] + b;
    FlattenMiddle(a, ss[i], b);
    assert ss[i := s] == a + [s] + b;
    FlattenMiddle(a, s, b);
    SwapMiddle(multiset(Flatten(a)), multiset(s), multiset(Flatten(b)), multiset(ss[i]));
  }

  /** An interleaved split keeps the elements. */
  lemma {:induction false} InterleavedKeepsAll<T>(s: seq<T>, r: nat, d: nat)
    requires d > 0
    ensures multiset(Stride(s, r, 2 * d)) + multiset(Stride(s, r + d, 2 * d)) == multiset(Stride(s, r, d))
    decreases |s| - r
  {
    if r < |s| {
      var e := 2 * d;
      InterleavedKeepsAll(s, r + d, d);
      SplitCons(s[r], Stride(s, r + e, e), Stride(s, r + d, e), Stride(s, r + d, d));
    } else {
      assert Stride(s, r, 2 * d) == [] && Stride(s, r + d, 2 * d) == [] && Stride(s, r, d) == [];
    }
  }

  lemma SplitCons<T>(x: T, rest: seq<T>, other: seq<T>, tail: seq<T>)
    requires multiset(other) + multiset(rest) == multiset(tail)
    ensures multiset([x] + rest) + multiset(other) == multiset([x] + tail)
  {
  }

  /** The parts together are the input. */
  lemma {:induction false} SharesKeepAll<T>(s: seq<T>, count: nat)
    requires count >= 1
    ensures multiset(Flatten(Shares(s, count))) == multiset(s)
  {
    if count == 1 {
      StrideOne(s, 0);
      assert Shares(s, 1) == [s];
      FlattenOne(s);
    } else {
      var c := count - 1;
      SharesKeepAll(s, c);
      NextShares(s, c);
      var p := FullRounds(c);
      var j := c - p;
      StrideHalves(s, j, p);
      var kept, given := Stride(s, j, 2 * p), Stride(s, c, 2 * p);
      FlattenUpdate(Shares(s, c), j, kept);
      FlattenConcat(Shares(s, c)[j := kept], [given]);
      FlattenOne(given);
      InterleavedKeepsAll(s, j, p);
      MoveShare(multiset(Flatten(Shares(s, c)[j := kept])), multiset(kept), multiset(given), multiset(s));
    }
  }
}
