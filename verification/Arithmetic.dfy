/** The larger and the smaller of two numbers, products, and quotients rounded up. */
module Arithmetic {
  function Max(a: int, b: int): int {
    if a < b then b else a
  }

  function Min(a: int, b: int): int {
    if a < b then a else b
  }

  function CeilDiv(n: nat, d: nat): nat
    requires d > 0
  {
    (n + d - 1) / d
  }

  lemma CeilDivOfFew(n: nat, d: nat)
    requires 0 < n <= d
    ensures CeilDiv(n, d) == 1
  {
    QuotientIs(n + d - 1, d, 1, n - 1);
  }

  lemma CeilDivOfNone(d: nat)
    requires d > 0
    ensures CeilDiv(0, d) == 0
  {
    QuotientIs(d - 1, d, 0, d - 1);
  }

  lemma CeilDivStep(n: nat, d: nat)
    requires 0 < d <= n
    ensures CeilDiv(n, d) == 1 + CeilDiv(n - d, d)
  {
    var q, r := (n - d + d - 1) / d, (n - d + d - 1) % d;
    assert n - d + d - 1 == q * d + r;
    assert (q + 1) * d == q * d + d;
    QuotientIs(n + d - 1, d, q + 1, r);
  }

  lemma ModOfFew(n: nat, d: nat)
    requires n < d
    ensures n % d == n
  {
    QuotientIs(n, d, 0, n);
  }

  lemma ModStep(n: nat, d: nat)
    requires 0 < d <= n
    ensures n % d == (n - d) % d
  {
    var q, r := (n - d) / d, (n - d) % d;
    assert n - d == q * d + r;
    assert (q + 1) * d == q * d + d;
    QuotientIs(n, d, q + 1, r);
  }

  lemma QuotientIs(a: nat, d: nat, q: nat, r: nat)
    requires 0 <= r < d && a == q * d + r
    ensures a / d == q
  {
    var x := a / d;
    if x < q {
      MultiplyMonotone(x + 1, q, d);
    } else if q < x {
      MultiplyMonotone(q + 1, x, d);
    }
  }

  lemma MultiplyMonotone(a: nat, b: nat, d: nat)
    requires a <= b
    ensures a * d <= b * d
  {
  }
}

/** Sequences of sequences. */
module Sequences {
  function Flatten<T>(groups: seq<seq<T>>): seq<T> {
    if groups == [] then [] else groups[0] + Flatten(groups[1..])
  }

  lemma {:induction false} FlattenAppend<T>(groups: seq<seq<T>>, more: seq<seq<T>>)
    ensures Flatten(groups + more) == Flatten(groups) + Flatten(more)
    decreases |groups|
  {
    if groups == [] {
      assert groups + more == more;
    } else {
      FlattenAppend(groups[1..], more);
      assert (groups + more)[1..] == groups[1..] + more;
    }
  }

  lemma {:induction false} FlattenOne<T>(group: seq<T>)
    ensures Flatten([group]) == group
  {
    assert [group][1..] == [];
  }

  lemma {:induction false} FlattenLast<T>(groups: seq<seq<T>>, last: seq<T>)
    ensures Flatten(groups + [last]) == Flatten(groups) + last
  {
    FlattenAppend(groups, [last]);
    FlattenOne(last);
  }

  /** Where element `j` of group `c` stands in the whole. */
  function Place<T>(groups: seq<seq<T>>, c: nat, j: nat): nat
    requires c <= |groups|
  {
    |Flatten(groups[..c])| + j
  }

  lemma {:induction false} PlaceOfFirst<T>(groups: seq<seq<T>>, j: nat)
    ensures Place(groups, 0, j) == j
  {
    assert groups[..0] == [];
  }

  lemma {:induction false} PlaceOfPrevious<T>(groups: seq<seq<T>>, c: nat, j: nat)
    requires c <= |groups| && j > 0
    ensures Place(groups, c, j) == Place(groups, c, j - 1) + 1
  {
  }

  lemma {:induction false} FlattenAt<T>(groups: seq<seq<T>>, c: nat, j: nat)
    requires c < |groups| && j < |groups[c]|
    ensures Place(groups, c, j) < |Flatten(groups)| && Flatten(groups)[Place(groups, c, j)] == groups[c][j]
  {
    assert groups == groups[..c] + groups[c..];
    FlattenAppend(groups[..c], groups[c..]);
  }

  lemma {:induction false} PlaceOfNext<T>(groups: seq<seq<T>>, c: nat)
    requires c < |groups|
    ensures Place(groups, c + 1, 0) == Place(groups, c, |groups[c]|)
  {
    FlattenLast(groups[..c], groups[c]);
    assert groups[..c + 1] == groups[..c] + [groups[c]];
  }

  lemma {:induction false} FlattenFind<T>(groups: seq<seq<T>>, i: nat) returns (c: nat, j: nat)
    requires i < |Flatten(groups)|
    ensures c < |groups| && j < |groups[c]| && i == Place(groups, c, j)
    decreases |groups|
  {
    if i < |groups[0]| {
      c, j := 0, i;
    } else {
      c, j := FlattenFind(groups[1..], i - |groups[0]|);
      assert groups[..c + 1][1..] == groups[1..][..c];
      c := c + 1;
    }
  }
}
