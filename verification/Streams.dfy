/** The byte streams: an append-only encoder and a cursor-based decoder. */
module Streams {
  import opened Basics

  type Bytes = seq<Byte>

  // ---------- what the encoder appends ----------

  /** The four bytes of an `int32_t` in memory order, least significant first. */
  function Int32Bytes(num: Int32): Bytes {
    var u := ToUInt32(num);
    [u % 256, u / 0x100 % 256, u / 0x1_0000 % 256, u / 0x100_0000]
  }

  /** Sizes are stored as `int32_t`; a size from 2^31 on would not be representable. */
  predicate Storable<T>(s: seq<T>) {
    |s| < TWO_TO_31
  }

  predicate StorableInts(a: seq<int>) {
    Storable(a) && forall i :: 0 <= i < |a| ==> -TWO_TO_31 <= a[i] < TWO_TO_31
  }

  predicate StorableArrays(aa: seq<seq<int>>) {
    Storable(aa) && forall i :: 0 <= i < |aa| ==> StorableInts(aa[i])
  }

  function StringBytes(str: Bytes): Bytes
    requires Storable(str)
  {
    Int32Bytes(|str|) + str
  }

  function IntsBytes(a: seq<int>): Bytes
    requires forall i :: 0 <= i < |a| ==> -TWO_TO_31 <= a[i] < TWO_TO_31
  {
    if a == [] then [] else Int32Bytes(a[0]) + IntsBytes(a[1..])
  }

  function IntArrayBytes(a: seq<int>): Bytes
    requires StorableInts(a)
  {
    Int32Bytes(|a|) + IntsBytes(a)
  }

  function ArraysBytes(aa: seq<seq<int>>): Bytes
    requires forall i :: 0 <= i < |aa| ==> StorableInts(aa[i])
  {
    if aa == [] then [] else IntArrayBytes(aa[0]) + ArraysBytes(aa[1..])
  }

  function IntArrayArrayBytes(aa: seq<seq<int>>): Bytes
    requires StorableArrays(aa)
  {
    Int32Bytes(|aa|) + ArraysBytes(aa)
  }

  class ByteOutputStream {
    var data: Bytes

    constructor ()
      ensures data == []
    {
      data := [];
    }

    method PutInt32(num: Int32)
      modifies this
      ensures data == old(data) + Int32Bytes(num)
    {
      var raw := Int32Bytes(num);
      for i := 0 to 4
        invariant data == old(data) + raw[..i]
      {
        data := data + [raw[i]];
      }
    }

    method PutString(str: Bytes)
      requires Storable(str)
      modifies this
      ensures data == old(data) + StringBytes(str)
    {
      PutInt32(|str|);
      for i := 0 to |str|
        invariant data == old(data) + Int32Bytes(|str|) + str[..i]
      {
        data := data + [str[i]];
      }
      assert str[..|str|] == str;
    }

    method PutIntArray(arr: seq<int>)
      requires StorableInts(arr)
      modifies this
      ensures data == old(data) + IntArrayBytes(arr)
    {
      PutInt32(|arr|);
      ghost var goal := data + IntsBytes(arr);
      SeqAssoc(old(data), Int32Bytes(|arr|), IntsBytes(arr));
      for i := 0 to |arr|
        invariant data + IntsBytes(arr[i..]) == goal == old(data) + IntArrayBytes(arr)
      {
        SeqAssoc(data, Int32Bytes(arr[i]), IntsBytes(arr[i..][1..]));
        assert arr[i..][1..] == arr[i + 1..];
        PutInt32(arr[i]);
      }
      assert data + [] == data;
    }

    method PutIntArrayArray(arr: seq<seq<int>>)
      requires StorableArrays(arr)
      modifies this
      ensures data == old(data) + IntArrayArrayBytes(arr)
    {
      PutInt32(|arr|);
      ghost var goal := data + ArraysBytes(arr);
      SeqAssoc(old(data), Int32Bytes(|arr|), ArraysBytes(arr));
      for i := 0 to |arr|
        invariant data + ArraysBytes(arr[i..]) == goal == old(data) + IntArrayArrayBytes(arr)
      {
        SeqAssoc(data, IntArrayBytes(arr[i]), ArraysBytes(arr[i..][1..]));
        assert arr[i..][1..] == arr[i + 1..];
        PutIntArray(arr[i]);
      }
      assert data + [] == data;
    }
  }

  // ---------- what the decoder makes of the bytes from the cursor on ----------

  /** A value and the bytes after it; `None` where the program would read outside the buffer. */
  type Read<T> = Option<(T, Bytes)>

  function ReadInt32(r: Bytes): Read<int> {
    if |r| < 4 then None else Some((BytesInt32(r[0], r[1], r[2], r[3]), r[4..]))
  }

  /** The `int32_t` with these four bytes in memory. */
  function BytesInt32(b0: int, b1: int, b2: int, b3: int): Int32
    requires 0 <= b0 < 256 && 0 <= b1 < 256 && 0 <= b2 < 256 && 0 <= b3 < 256
  {
    ToInt32(b0 + 0x100 * b1 + 0x1_0000 * b2 + 0x100_0000 * b3)
  }

  /** A C string ends at its first NUL byte. */
  function UpToNul(s: Bytes): Bytes {
    if s == [] || s[0] == 0 then [] else [s[0]] + UpToNul(s[1..])
  }

  function ReadString(r: Bytes): Read<Bytes> {
    match ReadInt32(r)
    case None => None
    case Some((len, rest)) =>
      if 0 <= len <= |rest| then Some((UpToNul(rest[..len]), rest[len..])) else None
  }

  function ReadInts(r: Bytes, n: int): Read<seq<int>>
    decreases n
  {
    if n <= 0 then Some(([], r))
    else
      match ReadInt32(r)
      case None => None
      case Some((x, rest)) =>
        Prepended([x], ReadInts(rest, n - 1))
  }

  function ReadIntArray(r: Bytes): Read<seq<int>> {
    match ReadInt32(r)
    case None => None
    case Some((len, rest)) => ReadInts(rest, len)
  }

  function ReadArrays(r: Bytes, n: int): Read<seq<seq<int>>>
    decreases n
  {
    if n <= 0 then Some(([], r))
    else
      match ReadIntArray(r)
      case None => None
      case Some((x, rest)) =>
        Prepended([x], ReadArrays(rest, n - 1))
  }

  function ReadIntArrayArray(r: Bytes): Read<seq<seq<int>>> {
    match ReadInt32(r)
    case None => None
    case Some((len, rest)) => ReadArrays(rest, len)
  }

  /** A reading whose first elements are already known. */
  function Prepended<T>(known: seq<T>, read: Read<seq<T>>): Read<seq<T>> {
    match read
    case None => None
    case Some((xs, end)) => Some((known + xs, end))
  }

  lemma PrependedNone<T>(read: Read<seq<T>>)
    ensures Prepended([], read) == read
  {
    if read.Some? {
      assert [] + read.value.0 == read.value.0;
    }
  }

  lemma PrependedMore<T>(known: seq<T>, x: T, read: Read<seq<T>>)
    ensures Prepended(known, Prepended([x], read)) == Prepended(known + [x], read)
  {
    if read.Some? {
      SeqAssoc(known, [x], read.value.0);
    }
  }

  class ByteInputStream {
    const data: Bytes
    var curr: nat

    constructor (data: Bytes)
      ensures this.data == data && curr == 0 && Valid() && Rest() == data
    {
      this.data := data;
      curr := 0;
    }

    ghost predicate Valid()
      reads this
    {
      curr <= |data|
    }

    /** The bytes from the cursor on. */
    ghost function Rest(): Bytes
      requires Valid()
      reads this
    {
      data[curr..]
    }

    method NextInt32() returns (num: Int32)
      requires Valid() && ReadInt32(Rest()).Some?
      modifies this
      ensures Valid() && ReadInt32(old(Rest())) == Some((num, Rest()))
    {
      var raw := data[curr..curr + 4];
      num := BytesInt32(raw[0], raw[1], raw[2], raw[3]);
      curr := curr + 4;
    }

    method NextString() returns (ret: Bytes)
      requires Valid() && ReadString(Rest()).Some?
      modifies this
      ensures Valid() && ReadString(old(Rest())) == Some((ret, Rest()))
    {
      var len: int := NextInt32();
      var str: Bytes := [];
      for i := 0 to len
        invariant |str| == i && str == Rest()[..i]
        invariant Rest() == ReadInt32(old(Rest())).value.1
      {
        str := str + [data[curr + i]];
      }
      assert str == Rest()[..len];
      curr := curr + len;
      ret := UpToNul(str);
    }

    method NextIntArray() returns (ret: seq<int>)
      requires Valid() && ReadIntArray(Rest()).Some?
      modifies this
      ensures Valid() && ReadIntArray(old(Rest())) == Some((ret, Rest()))
    {
      var len: int := NextInt32();
      ghost var all := ReadInts(Rest(), len);
      PrependedNone(all);
      ret := [];
      var i: int := 0;
      while i < len
        invariant 0 <= i && (0 <= len ==> i <= len) && Valid()
        invariant Prepended(ret, ReadInts(Rest(), len - i)) == all
      {
        var x := NextInt32();
        PrependedMore(ret, x, ReadInts(Rest(), len - i - 1));
        ret := ret + [x];
        i := i + 1;
      }
      assert ret + [] == ret;
    }

    method NextIntArrayArray() returns (ret: seq<seq<int>>)
      requires Valid() && ReadIntArrayArray(Rest()).Some?
      modifies this
      ensures Valid() && ReadIntArrayArray(old(Rest())) == Some((ret, Rest()))
    {
      var len: int := NextInt32();
      ghost var all := ReadArrays(Rest(), len);
      PrependedNone(all);
      ret := [];
      var i: int := 0;
      while i < len
        invariant 0 <= i && (0 <= len ==> i <= len) && Valid()
        invariant Prepended(ret, ReadArrays(Rest(), len - i)) == all
      {
        var x := NextIntArray();
        PrependedMore(ret, x, ReadArrays(Rest(), len - i - 1));
        ret := ret + [x];
        i := i + 1;
      }
      assert ret + [] == ret;
    }
  }

  // ---------- decoding undoes encoding, whatever follows ----------

  lemma Digits(u: UInt32)
    ensures u % 256 + 0x100 * (u / 0x100 % 256) + 0x1_0000 * (u / 0x1_0000 % 256) + 0x100_0000 * (u / 0x100_0000) == u
  {
    assert u / 0x1_0000 == u / 0x100 / 256;
    assert u / 0x100_0000 == u / 0x1_0000 / 256;
  }

  lemma Int32RoundTrip(num: Int32, post: Bytes)
    ensures ReadInt32(Int32Bytes(num) + post) == Some((num, post))
  {
    Digits(ToUInt32(num));
    assert (Int32Bytes(num) + post)[4..] == post;
  }

  /** The digits of the number, or of its two's complement, in base 256, least significant first. */
  lemma Int32BytesAre(num: Int32)
    ensures var b: seq<int> := Int32Bytes(num);
            && |b| == 4
            && b[0] + 0x100 * b[1] + 0x1_0000 * b[2] + 0x100_0000 * b[3] == if num >= 0 then num else num + TWO_TO_32
  {
    Digits(ToUInt32(num));
  }

  /** The part before the first NUL. */
  lemma {:induction false} UpToNulWhole(s: Bytes)
    ensures UpToNul(s) == s <==> 0 !in s
    ensures 0 !in UpToNul(s)
    ensures |UpToNul(s)| <= |s| && UpToNul(s) == s[..|UpToNul(s)|]
    ensures |UpToNul(s)| < |s| ==> s[|UpToNul(s)|] == 0
  {
    if s != [] {
      UpToNulWhole(s[1..]);
      assert s == [s[0]] + s[1..];
    }
  }

  /** The k-th number of an array is in the four bytes from 4 + 4k on, after the length. */
  lemma IntArrayBytesAt(a: seq<int>, k: nat)
    requires StorableInts(a)
    ensures |IntArrayBytes(a)| == 4 + 4 * |a|
    ensures IntArrayBytes(a)[..4] == Int32Bytes(|a|)
    ensures k < |a| ==> IntArrayBytes(a)[4 + 4 * k..8 + 4 * k] == Int32Bytes(a[k])
  {
    IntsBytesAt(a, k);
    if k < |a| {
      SliceBehind(Int32Bytes(|a|), IntsBytes(a), 4 * k, 4);
    }
  }

  lemma {:induction false} IntsBytesAt(a: seq<int>, k: nat)
    requires forall i :: 0 <= i < |a| ==> -TWO_TO_31 <= a[i] < TWO_TO_31
    ensures |IntsBytes(a)| == 4 * |a|
    ensures k < |a| ==> IntsBytes(a)[4 * k..4 * k + 4] == Int32Bytes(a[k])
  {
    if a != [] {
      IntsBytesAt(a[1..], if k > 0 then k - 1 else 0);
      if 0 < k < |a| {
        SliceBehind(Int32Bytes(a[0]), IntsBytes(a[1..]), 4 * (k - 1), 4);
      }
    }
  }

  lemma SliceBehind(head: Bytes, tail: Bytes, at: nat, n: nat)
    requires at + n <= |tail|
    ensures (head + tail)[|head| + at..|head| + at + n] == tail[at..at + n]
  {
  }

  /** Arrays of arrays are written in order, each after the ones before it. */
  lemma {:induction false} ArraysBytesAt(aa: seq<seq<int>>, k: nat)
    requires k < |aa| && forall i :: 0 <= i < |aa| ==> StorableInts(aa[i])
    ensures ArraysBytes(aa) == ArraysBytes(aa[..k]) + IntArrayBytes(aa[k]) + ArraysBytes(aa[k + 1..])
  {
    if k == 0 {
      assert ArraysBytes(aa[..0]) + IntArrayBytes(aa[0]) == IntArrayBytes(aa[0]);
    } else {
      ArraysBytesAt(aa[1..], k - 1);
      assert aa[1..][..k - 1] == aa[..k][1..] && aa[1..][k..] == aa[k + 1..];
      SeqAssoc(IntArrayBytes(aa[0]), ArraysBytes(aa[..k][1..]), IntArrayBytes(aa[k]));
      SeqAssoc(IntArrayBytes(aa[0]), ArraysBytes(aa[..k][1..]) + IntArrayBytes(aa[k]), ArraysBytes(aa[k + 1..]));
    }
  }

  /**
   * Reading an array needs four bytes for each number and takes them one after the other; a
   * negative length reads nothing.
   */
  lemma {:induction false} ReadIntsAt(r: Bytes, n: int, k: nat)
    ensures ReadInts(r, n).Some? <==> n <= 0 || 4 * n <= |r|
    ensures ReadInts(r, n).Some? ==>
              var (xs, end) := ReadInts(r, n).value;
              && |xs| == (if n <= 0 then 0 else n)
              && end == r[4 * |xs|..]
              && (k < |xs| ==> xs[k] == BytesInt32(r[4 * k], r[4 * k + 1], r[4 * k + 2], r[4 * k + 3]))
    decreases n
  {
    if n > 0 && |r| >= 4 {
      ReadIntsAt(r[4..], n - 1, if k > 0 then k - 1 else 0);
    }
  }

  /** As many arrays as the length says, and none for a negative one. */
  lemma {:induction false} ReadArraysLength(r: Bytes, n: int)
    ensures n <= 0 ==> ReadArrays(r, n) == Some(([], r))
    ensures ReadArrays(r, n).Some? && n > 0 ==>
              && |ReadArrays(r, n).value.0| == n
              && ReadIntArray(r).Some? && ReadArrays(r, n).value.0[0] == ReadIntArray(r).value.0
    decreases n
  {
    if n > 0 && ReadIntArray(r).Some? {
      ReadArraysLength(ReadIntArray(r).value.1, n - 1);
    }
  }

  lemma StringRoundTrip(str: Bytes, post: Bytes)
    requires Storable(str)
    ensures ReadString(StringBytes(str) + post) == Some((UpToNul(str), post))
  {
    SeqAssoc(Int32Bytes(|str|), str, post);
    Int32RoundTrip(|str|, str + post);
    assert (str + post)[..|str|] == str && (str + post)[|str|..] == post;
  }

  lemma {:induction false} IntsRoundTrip(a: seq<int>, post: Bytes)
    requires forall i :: 0 <= i < |a| ==> -TWO_TO_31 <= a[i] < TWO_TO_31
    ensures ReadInts(IntsBytes(a) + post, |a|) == Some((a, post))
  {
    if a == [] {
      assert IntsBytes(a) + post == post;
    } else {
      SeqAssoc(Int32Bytes(a[0]), IntsBytes(a[1..]), post);
      Int32RoundTrip(a[0], IntsBytes(a[1..]) + post);
      IntsRoundTrip(a[1..], post);
      assert a == [a[0]] + a[1..];
    }
  }

  lemma IntArrayRoundTrip(a: seq<int>, post: Bytes)
    requires StorableInts(a)
    ensures ReadIntArray(IntArrayBytes(a) + post) == Some((a, post))
  {
    SeqAssoc(Int32Bytes(|a|), IntsBytes(a), post);
    Int32RoundTrip(|a|, IntsBytes(a) + post);
    IntsRoundTrip(a, post);
  }

  lemma {:induction false} ArraysRoundTrip(aa: seq<seq<int>>, post: Bytes)
    requires forall i :: 0 <= i < |aa| ==> StorableInts(aa[i])
    ensures ReadArrays(ArraysBytes(aa) + post, |aa|) == Some((aa, post))
  {
    if aa == [] {
      assert ArraysBytes(aa) + post == post;
    } else {
      SeqAssoc(IntArrayBytes(aa[0]), ArraysBytes(aa[1..]), post);
      IntArrayRoundTrip(aa[0], ArraysBytes(aa[1..]) + post);
      ArraysRoundTrip(aa[1..], post);
      assert aa == [aa[0]] + aa[1..];
    }
  }

  lemma IntArrayArrayRoundTrip(aa: seq<seq<int>>, post: Bytes)
    requires StorableArrays(aa)
    ensures ReadIntArrayArray(IntArrayArrayBytes(aa) + post) == Some((aa, post))
  {
    SeqAssoc(Int32Bytes(|aa|), ArraysBytes(aa), post);
    Int32RoundTrip(|aa|, ArraysBytes(aa) + post);
    ArraysRoundTrip(aa, post);
  }
}
