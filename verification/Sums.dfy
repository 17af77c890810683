// Sums of integer sequences.
module Sums {
  function Sum(a: seq<int>): int
  {
    if a == [] then 0 else a[0] + Sum(a[1..])
  }

  lemma {:induction false} SumChange(a: seq<int>, b: seq<int>, w: nat)
    requires |a| == |b| && w < |a| && forall v :: 0 <= v < |a| && v != w ==> a[v] == b[v]
    ensures Sum(b) == Sum(a) - a[w] + b[w]
  {
    if w == 0 {
      assert a[1..] == b[1..];
    } else {
      SumChange(a[1..], b[1..], w - 1);
    }
  }

  lemma {:induction false} SumAppend(a: seq<int>, x: int)
    ensures Sum(a + [x]) == Sum(a) + x
  {
    if a == [] {
      assert [] + [x] == [x] && [x][1..] == [];
    } else {
      assert (a + [x])[1..] == a[1..] + [x];
      SumAppend(a[1..], x);
    }
  }

  lemma {:induction false} SumNonNegative(a: seq<int>)
    requires forall v :: 0 <= v < |a| ==> 0 <= a[v]
    ensures 0 <= Sum(a)
  {
    if a != [] {
      SumNonNegative(a[1..]);
    }
  }

  lemma {:induction false} SumZero(a: seq<int>)
    requires forall v :: 0 <= v < |a| ==> a[v] == 0
    ensures Sum(a) == 0
  {
    if a != [] {
      SumZero(a[1..]);
    }
  }

  lemma {:induction false} SumWithin(x: seq<int>, y: seq<int>, d: int)
    requires |x| == |y| && forall v :: 0 <= v < |x| ==> y[v] <= x[v] + d
    ensures Sum(y) <= Sum(x) + d * |x|
  {
    if x != [] {
      SumWithin(x[1..], y[1..], d);
    }
  }

  lemma {:induction false} SumAdd(x: seq<int>, y: seq<int>, z: seq<int>)
    requires |x| == |y| == |z| && forall v :: 0 <= v < |x| ==> z[v] == x[v] + y[v]
    ensures Sum(z) == Sum(x) + Sum(y)
  {
    if x != [] {
      SumAdd(x[1..], y[1..], z[1..]);
    }
  }

  lemma {:induction false} SumConstant(a: seq<int>, x: int)
    requires forall v :: 0 <= v < |a| ==> a[v] == x
    ensures Sum(a) == |a| * x
  {
    if a != [] {
      SumConstant(a[1..], x);
    }
  }
}
