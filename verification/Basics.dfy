/** Machine integers of the program and the usual optional value. */
module Basics {

  datatype Option<+T> = None | Some(value: T)

  const TWO_TO_31: int := 0x8000_0000
  const TWO_TO_32: int := 0x1_0000_0000

  /** `uint8_t`, `int32_t` and `uint32_t`. */
  type Byte = x: int | 0 <= x < 256
  type Int32 = x: int | -0x8000_0000 <= x < 0x8000_0000
  type UInt32 = x: int | 0 <= x < 0x1_0000_0000

  /** The conversions between `uint32_t` and `int32_t`: same bits, two's complement. */
  function ToInt32(u: UInt32): Int32 {
    if u < TWO_TO_31 then u else u - TWO_TO_32
  }

  function ToUInt32(i: Int32): UInt32 {
    if i >= 0 then i else i + TWO_TO_32
  }

  /** The set of the elements of a sequence. */
  function Elems<T>(s: seq<T>): set<T> {
    set x | x in s
  }

  /** No element occurs twice. */
  predicate Distinct<T(==)>(s: seq<T>) {
    forall i, j :: 0 <= i < j < |s| ==> s[i] != s[j]
  }

  /** Every element is a number below `n`. */
  predicate Below(s: seq<int>, n: nat) {
    forall i :: 0 <= i < |s| ==> 0 <= s[i] < n
  }

  /** How many numbers below `n` are not in `s`. */
  ghost function Outside(s: set<int>, n: nat): (k: nat)
    ensures k <= n
  {
    if n == 0 then 0 else Outside(s, n - 1) + if n - 1 in s then 0 else 1
  }

  lemma {:induction false} OutsideCount(s: set<int>, n: nat)
    ensures Outside(s, n) + |set x | x in s && 0 <= x < n| == n
  {
    var below := set x | x in s && 0 <= x < n;
    if n == 0 {
      assert below == {};
    } else {
      OutsideCount(s, n - 1);
      var less := set x | x in s && 0 <= x < n - 1;
      assert below == if n - 1 in s then less + {n - 1} else less;
    }
  }

  lemma {:induction false} DistinctSize<T>(s: seq<T>)
    requires Distinct(s)
    ensures |Elems(s)| == |s|
  {
    if s == [] {
      assert Elems(s) == {};
    } else {
      var last := |s| - 1;
      DistinctSize(s[..last]);
      assert s == s[..last] + [s[last]];
      assert Elems(s) == Elems(s[..last]) + {s[last]};
    }
  }

  /** A duplicate-free list of numbers below `n` leaves out exactly `n - |s|` of them. */
  lemma OutsideOfList(s: seq<int>, n: nat)
    requires Distinct(s) && Below(s, n)
    ensures Outside(Elems(s), n) == n - |s|
  {
    OutsideCount(Elems(s), n);
    DistinctSize(s);
    assert Elems(s) == set x | x in Elems(s) && 0 <= x < n;
  }

  lemma SeqAssoc<T>(x: seq<T>, y: seq<T>, z: seq<T>)
    ensures x + y + z == x + (y + z)
  {
  }

  lemma NextMultiple(k: int, d: int)
    ensures (k + 1) * d == k * d + d
  {
  }

  lemma MulMonotone(x: nat, y: nat, d: nat)
    requires x <= y
    ensures x * d <= y * d
  {
  }

  /** The elements of a finite set, in some order. */
  lemma {:induction false} Ordering<T>(s: set<T>) returns (q: seq<T>)
    ensures Distinct(q) && Elems(q) == s
    decreases |s|
  {
    if s == {} {
      q := [];
    } else {
      var x :| x in s;
      var rest := Ordering(s - {x});
      q := rest + [x];
      assert Elems(q) == Elems(rest) + {x};
      assert forall i :: 0 <= i < |rest| ==> rest[i] in Elems(rest);
    }
  }

  lemma {:induction false} SubsetSize<T>(a: set<T>, b: set<T>)
    requires a <= b
    ensures |a| <= |b|
    ensures |a| == |b| <==> a == b
  {
    if a != b {
      assert |b| == |a| + |b - a| by {
        assert b == a + (b - a);
      }
    }
  }
}
