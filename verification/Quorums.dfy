/** Counting facts about sets of replica identifiers, shared by the protocols. */
module Quorums {

  /** The members of a cluster of `n` replicas. */
  function Below(n: nat): (s: set<nat>)
    ensures forall a: nat :: a in s <==> a < n
    ensures |s| == n
  {
    if n == 0 then {} else Below(n - 1) + {n - 1}
  }

  lemma {:induction false} SubsetSize<T>(a: set<T>, b: set<T>)
    requires a <= b
    ensures |a| <= |b|
  {
    if a != {} {
      var x :| x in a;
      SubsetSize(a - {x}, b - {x});
    }
  }

  /** Two sets of members that together outnumber the membership share a member. */
  lemma Intersect(n: nat, a: set<nat>, b: set<nat>)
    requires a <= Below(n) && b <= Below(n)
    requires |a| + |b| > n
    ensures |a * b| >= |a| + |b| - n
    ensures exists x :: x in a && x in b
  {
    SubsetSize(a + b, Below(n));
    assert |a + b| == |a| + |b| - |a * b|;
    assert a * b != {};
    var x :| x in a * b;
    assert x in a && x in b;
  }

  // Epochs are numbered so that the remainder names their owner.

  lemma MulAtLeast(n: int, d: int)
    requires n > 0 && d > 0
    ensures n * d >= n
  {
  }

  lemma SmallMultiple(n: int, d: int, r: int)
    requires n > 0 && -n < r < n && n * d == r
    ensures d == 0
  {
    if d > 0 { MulAtLeast(n, d); } else if d < 0 { MulAtLeast(n, -d); }
  }

  lemma AddMod(a: nat, n: nat)
    requires n > 0
    ensures (a + n) % n == a % n
  {
    var q, m := a / n, a % n;
    var q2, m2 := (a + n) / n, (a + n) % n;
    assert a == n * q + m && a + n == n * q2 + m2;
    assert n * (q2 - q - 1) == n * q2 - n * q - n;
    SmallMultiple(n, q2 - q - 1, m - m2);
  }

  /** Ballots are owned round robin: the remainder names the owner. */
  function Owner(n: nat, ballot: nat): (o: nat)
    requires n > 0
    ensures o < n
  {
    if ballot < n then ballot else Owner(n, ballot - n)
  }

  lemma {:induction false} OwnerIsRemainder(n: nat, ballot: nat)
    requires n > 0
    ensures Owner(n, ballot) == ballot % n
  {
    if ballot >= n {
      OwnerIsRemainder(n, ballot - n);
      AddMod(ballot - n, n);
    }
  }

  /** The first multiple of `n` above `b`. */
  function NextRound(n: nat, b: nat): (r: nat)
    requires n > 0
    ensures b < r
  {
    if b < n then n else NextRound(n, b - n) + n
  }

  lemma {:induction false} NextRoundIsMultiple(n: nat, b: nat)
    requires n > 0
    ensures NextRound(n, b) == (b / n + 1) * n
  {
    if b < n {
      assert b / n == 0;
    } else {
      NextRoundIsMultiple(n, b - n);
      DivideLess(n, b);
      assert (b / n + 1) * n == (b / n) * n + n;
    }
  }

  lemma DivideLess(n: nat, b: nat)
    requires 0 < n <= b
    ensures b / n == (b - n) / n + 1
  {
    var q, m := b / n, b % n;
    var q2, m2 := (b - n) / n, (b - n) % n;
    assert b == n * q + m && b - n == n * q2 + m2;
    assert n * (q - q2 - 1) == n * q - n * q2 - n;
    SmallMultiple(n, q - q2 - 1, m2 - m);
  }

  /** The owner of a ballot a few places into a round is that many places from the first. */
  lemma {:induction false} NextRoundOwner(n: nat, id: nat, b: nat)
    requires id < n
    ensures Owner(n, NextRound(n, b) + id) == id
  {
    if b >= n { NextRoundOwner(n, id, b - n); }
  }
}
