/** Rearranging sums of multisets, one step at a time: each is evident, and cheap where it is needed. */
module Multisets {

  lemma SumAssoc<T>(x: multiset<T>, y: multiset<T>, z: multiset<T>)
    ensures x + y + z == x + (y + z)
  {
  }

  lemma SumComm<T>(x: multiset<T>, y: multiset<T>)
    ensures x + y == y + x
  {
  }

  lemma SwapMiddle<T>(a: multiset<T>, x: multiset<T>, b: multiset<T>, y: multiset<T>)
    ensures (a + x + b) + y == (a + y + b) + x
  {
  }

  lemma MoveShare<T>(rest: multiset<T>, kept: multiset<T>, given: multiset<T>, all: multiset<T>)
    requires rest + (kept + given) == all + kept
    ensures rest + given == all
  {
    forall x ensures (rest + given)[x] == all[x] {
      assert (rest + (kept + given))[x] == (all + kept)[x];
    }
  }

  lemma SwapLast<T>(a: multiset<T>, x: multiset<T>, b: multiset<T>)
    ensures a + b + x == a + x + b
  {
  }

  lemma TakeOne<T>(a: multiset<T>, x: T, b: multiset<T>)
    ensures a + (multiset{x} + b) == a + b + multiset{x}
  {
  }

  lemma MoveOne<T>(v: multiset<T>, x: multiset<T>, a: multiset<T>, all: multiset<T>)
    requires v + (a + x) == all
    ensures (v + x) + a == all
  {
  }

  lemma ExchangeFirst<T>(x: multiset<T>, y: multiset<T>, z: multiset<T>)
    ensures x + (y + z) == y + (x + z)
  {
  }

  lemma ExchangeOuter<T>(x: multiset<T>, r: multiset<T>, y: multiset<T>)
    ensures (x + r) + y == (y + r) + x
  {
  }

  lemma Cancel<T>(a: multiset<T>, b: multiset<T>, x: multiset<T>, c: multiset<T>)
    requires c + multiset{} == b + x && a + x == c + multiset{}
    ensures a == b
  {
    forall e ensures a[e] == b[e] {
      assert (a + x)[e] == (b + x)[e];
    }
  }

  lemma AddEmpty<T>(x: multiset<T>)
    ensures x + multiset{} == x && multiset{} + x == x
  {
  }

  lemma AddBoth<T>(n: multiset<T>, n': multiset<T>, m: multiset<T>, m': multiset<T>,
                   before: multiset<T>, after: multiset<T>, h: multiset<T>)
    requires n' + before == n + after && m' + h == m
    ensures (n' + m') + before + h == (n + m) + after
  {
    forall x ensures ((n' + m') + before + h)[x] == ((n + m) + after)[x] {
      assert (n' + before)[x] == (n + after)[x] && (m' + h)[x] == m[x];
    }
  }

  lemma TakeOut<T>(n: multiset<T>, n': multiset<T>, m: multiset<T>, v: multiset<T>, rest: multiset<T>)
    requires n' + (v + rest) == n + rest
    ensures n + m == (n' + m) + v
  {
    forall x ensures (n + m)[x] == ((n' + m) + v)[x] {
      assert (n' + (v + rest))[x] == (n + rest)[x];
    }
  }

  lemma Handover<T>(n: multiset<T>, n': multiset<T>, m: multiset<T>, mine: multiset<T>, theirs: multiset<T>)
    requires n' + (mine + theirs) == n + mine
    ensures n' + (m + theirs) == n + m
  {
    forall x ensures (n' + (m + theirs))[x] == (n + m)[x] {
      assert (n' + (mine + theirs))[x] == (n + mine)[x];
    }
  }

  lemma CancelBoth<T>(a: multiset<T>, b: multiset<T>, x: multiset<T>, h: multiset<T>)
    requires a + x + h == b + x
    ensures b == a + h
  {
    forall e ensures b[e] == (a + h)[e] {
      assert (a + x + h)[e] == (b + x)[e];
    }
  }

  lemma CancelOne<T>(a: multiset<T>, b: multiset<T>, x: multiset<T>)
    requires a + multiset{} + x == b + x
    ensures a == b
  {
    forall e ensures a[e] == b[e] {
      assert (a + multiset{} + x)[e] == (b + x)[e];
    }
  }

  lemma OneStack<T>(x: multiset<T>, y: multiset<T>)
    requires x + multiset{} == multiset{} + y
    ensures x == y
  {
    AddEmpty(x);
    AddEmpty(y);
  }

  lemma InOneOf<T>(a: multiset<T>, b: multiset<T>, all: multiset<T>, x: T)
    requires a + b == all && x in all
    ensures x in a || x in b
  {
  }

  /** One exchange after another. */
  lemma Chain<T>(a: multiset<T>, b: multiset<T>, c: multiset<T>, in1: multiset<T>, in2: multiset<T>,
                 out1: multiset<T>, out2: multiset<T>, lost1: multiset<T>, lost2: multiset<T>)
    requires a + in1 == b + out1 + lost1 && b + in2 == c + out2 + lost2
    ensures a + (in1 + in2) == c + (out1 + out2) + (lost1 + lost2)
  {
    forall e ensures (a + (in1 + in2))[e] == (c + (out1 + out2) + (lost1 + lost2))[e] {
      assert (a + in1)[e] == (b + out1 + lost1)[e] && (b + in2)[e] == (c + out2 + lost2)[e];
    }
  }

  lemma AddInFront<T>(x: multiset<T>, a: multiset<T>, r: multiset<T>, p: multiset<T>, d: multiset<T>)
    requires a + r == p + d
    ensures (a + x) + r == (x + p) + d
  {
    forall e ensures ((a + x) + r)[e] == ((x + p) + d)[e] {
      assert (a + r)[e] == (p + d)[e];
    }
  }
}
