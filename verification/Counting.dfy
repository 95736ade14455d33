/** Sums of weights over a sequence, balances of multisets, and the two sides of a signed count. */
module Counting {

  ghost function Total<P>(s: seq<P>, w: P -> nat): nat
  {
    if s == [] then 0 else Total(s[..|s| - 1], w) + w(s[|s| - 1])
  }

  lemma {:induction false} TotalUpdate<P>(s: seq<P>, i: nat, p: P, w: P -> nat)
    requires i < |s|
    ensures Total(s[i := p], w) + w(s[i]) == Total(s, w) + w(p)
  {
    var last := |s| - 1;
    if i < last {
      assert s[i := p][..last] == s[..last][i := p];
      TotalUpdate(s[..last], i, p, w);
    } else {
      assert s[i := p][..last] == s[..last];
    }
  }

  lemma {:induction false} TotalAtLeast<P>(s: seq<P>, i: nat, w: P -> nat)
    requires i < |s|
    ensures w(s[i]) <= Total(s, w)
  {
    if i < |s| - 1 {
      TotalAtLeast(s[..|s| - 1], i, w);
    }
  }

  lemma {:induction false} TotalAtLeastTwo<P>(s: seq<P>, i: nat, j: nat, w: P -> nat)
    requires i < j < |s|
    ensures w(s[i]) + w(s[j]) <= Total(s, w)
  {
    if j < |s| - 1 {
      TotalAtLeastTwo(s[..|s| - 1], i, j, w);
    } else {
      TotalAtLeast(s[..|s| - 1], i, w);
    }
  }

  lemma {:induction false} TotalBound<P(!new)>(s: seq<P>, w: P -> nat)
    requires forall p :: w(p) <= 1
    ensures Total(s, w) <= |s|
  {
    if s != [] {
      TotalBound(s[..|s| - 1], w);
    }
  }

  lemma {:induction false} TotalWitness<P>(s: seq<P>, w: P -> nat) returns (i: nat)
    requires Total(s, w) > 0
    ensures i < |s| && w(s[i]) > 0
  {
    if w(s[|s| - 1]) > 0 {
      i := |s| - 1;
    } else {
      i := TotalWitness(s[..|s| - 1], w);
    }
  }

  lemma {:induction false} TotalZero<P>(s: seq<P>, w: P -> nat)
    requires forall i | 0 <= i < |s| :: w(s[i]) == 0
    ensures Total(s, w) == 0
  {
    if s != [] {
      TotalZero(s[..|s| - 1], w);
    }
  }

  /** The values held by the members of a sequence. */
  ghost function Bag<P, V>(s: seq<P>, f: P -> multiset<V>): multiset<V>
  {
    if s == [] then multiset{} else Bag(s[..|s| - 1], f) + f(s[|s| - 1])
  }

  lemma {:induction false} BagUpdate<P, V>(s: seq<P>, i: nat, p: P, f: P -> multiset<V>)
    requires i < |s|
    ensures Bag(s[i := p], f) + f(s[i]) == Bag(s, f) + f(p)
  {
    var last := |s| - 1;
    if i < last {
      assert s[i := p][..last] == s[..last][i := p];
      BagUpdate(s[..last], i, p, f);
      var a, b := Bag(s[..last], f), Bag(s[..last][i := p], f);
      assert (b + f(s[last])) + f(s[i]) == (b + f(s[i])) + f(s[last]);
      assert (a + f(p)) + f(s[last]) == (a + f(s[last])) + f(p);
    } else {
      assert s[i := p][..last] == s[..last];
    }
  }

  lemma {:induction false} BagEmpty<P, V>(s: seq<P>, f: P -> multiset<V>)
    requires forall i | 0 <= i < |s| :: f(s[i]) == multiset{}
    ensures Bag(s, f) == multiset{}
  {
    if s != [] {
      BagEmpty(s[..|s| - 1], f);
    }
  }

  /** A balance of multisets survives a move between its parts, of which d goes out. */
  lemma Rebalance<V>(total: multiset<V>, out: multiset<V>, a: multiset<V>, b: multiset<V>, d: multiset<V>,
                     a': multiset<V>, b': multiset<V>, x: multiset<V>, y: multiset<V>, u: multiset<V>, w: multiset<V>)
    requires total == out + a + b && a' + x == a + y && b' + u == b + w && x + u == d + y + w
    ensures total == (out + d) + a' + b'
  {
    forall z: V ensures total[z] == ((out + d) + a' + b')[z] {
      assert (a' + x)[z] == (a + y)[z] && (b' + u)[z] == (b + w)[z] && (x + u)[z] == (d + y + w)[z];
    }
  }

  /** It survives a gain of one part. */
  lemma Regain<V>(total: multiset<V>, out: multiset<V>, a: multiset<V>, b: multiset<V>, d: multiset<V>,
      a': multiset<V>, x: multiset<V>)
    requires total == out + a + b && a' + x == a + (x + d)
    ensures total + d == out + a' + b
  {
    forall z: V ensures (total + d)[z] == (out + a' + b)[z] {
      assert (a' + x)[z] == (a + (x + d))[z];
    }
  }

  // ------------------------------------------------------------------------------------------
  // The two sides of a signed count
  // ------------------------------------------------------------------------------------------

  function Owed(count: int): nat { if count < 0 then -count else 0 }

  function Free(count: int): nat { if count > 0 then count else 0 }
}
