/** Requirement matrices as the planner checks them, in loops over processes. */
module KCensusRequirements {
  import opened KCensusPlan
  import opened Quorums

  /** The witnesses that have anything to know. */
  method QuorumOf(r: Requirement) returns (q: set<nat>)
    ensures q == Quorum(r)
  {
    q := {};
    for w := 0 to |r|
      invariant forall x: nat :: x in q <==> x < w && r[x] != {}
    {
      if r[w] != {} { q := q + {w}; }
    }
    forall x: nat ensures x in q <==> x in Quorum(r) { }
  }

  /** A requirement fits `m` processes and `f` faults. */
  method IsValid(r: Requirement, m: nat, f: nat) returns (ok: bool)
    ensures ok <==> ValidRequirement(r, m, f)
  {
    if |r| != m { return false; }
    var q := QuorumOf(r);
    if |q| <= f || !(q <= Below(2 * f + 1)) { return false; }
    for w := 0 to m
      invariant forall x :: 0 <= x < w && r[x] != {} ==> x in r[x] && r[x] <= q
    {
      if r[w] != {} && (w !in r[w] || !(r[w] <= q)) { return false; }
    }
    return true;
  }

  /** Witness `w` must know, for either requirement, of an acceptor in `common`. */
  predicate Meets(a: Requirement, b: Requirement, common: set<nat>, w: nat)
    requires w < |a| == |b|
  {
    a[w] * common != {} || b[w] * common != {}
  }

  lemma WitnessesMeet(a: Requirement, b: Requirement, witnesses: set<nat>)
    requires |a| == |b|
    requires forall x: nat :: x in witnesses <==> x < |a| && Meets(a, b, Quorum(a) * Quorum(b), x)
    ensures witnesses == Witnesses(a, b)
  {
    forall x: nat ensures x in witnesses <==> x in Witnesses(a, b) {
      if x < |a| { assert x in Below(|a|); }
    }
  }

  /** Enough witnesses of either requirement must know of an acceptor common to both. */
  method AreCompatible(a: Requirement, b: Requirement, f: nat) returns (ok: bool)
    requires |a| == |b|
    ensures ok <==> Compatible(a, b, f)
  {
    var qa := QuorumOf(a);
    var qb := QuorumOf(b);
    var common := qa * qb;
    var witnesses := CollectWitnesses(a, b, common);
    WitnessesMeet(a, b, witnesses);
    return |witnesses| > f;
  }

  method CollectWitnesses(a: Requirement, b: Requirement, common: set<nat>) returns (witnesses: set<nat>)
    requires |a| == |b|
    ensures forall x: nat :: x in witnesses <==> x < |a| && Meets(a, b, common, x)
  {
    witnesses := {};
    for w := 0 to |a|
      invariant forall x: nat :: x in witnesses <==> x < w && Meets(a, b, common, x)
    {
      if a[w] * common != {} || b[w] * common != {} { witnesses := witnesses + {w}; }
    }
  }

  /** Requirement `p` is valid and compatible with every earlier one. */
  predicate Fits(rs: seq<Requirement>, f: nat, p: nat)
    requires p < |rs|
  {
    ValidRequirement(rs[p], |rs|, f) && forall y :: 0 <= y < p ==> Agrees(rs, f, p, y)
  }

  predicate Agrees(rs: seq<Requirement>, f: nat, p: nat, y: nat)
    requires p < |rs| && y < |rs|
  {
    |rs[y]| == |rs| == |rs[p]| && Compatible(rs[p], rs[y], f)
  }

  lemma AllFit(rs: seq<Requirement>, voters: nat)
    requires 3 <= voters <= |rs| <= 63 && voters % 2 == 1
    requires forall p :: 0 <= p < |rs| ==> Fits(rs, voters / 2, p)
    ensures ValidRequirements(rs, voters)
  {
    forall p | 0 <= p < |rs| ensures ValidRequirement(rs[p], |rs|, voters / 2) { assert Fits(rs, voters / 2, p); }
    forall p: nat, q: nat | q < p < |rs| ensures Compatible(rs[p], rs[q], voters / 2) {
      assert Fits(rs, voters / 2, p) && Agrees(rs, voters / 2, p, q);
    }
  }

  lemma EachFits(rs: seq<Requirement>, voters: nat, p: nat)
    requires ValidRequirements(rs, voters) && p < |rs|
    ensures Fits(rs, voters / 2, p)
  {
    forall y: nat | y < p ensures Agrees(rs, voters / 2, p, y) {
      assert ValidRequirement(rs[y], |rs|, voters / 2);
    }
  }

  /** Accepts exactly the matrices the slot protocol relies on. */
  method Validate(rs: seq<Requirement>, voters: nat) returns (ok: bool)
    ensures ok <==> ValidRequirements(rs, voters)
  {
    var m := |rs|;
    if voters < 3 || voters > m || m > 63 || voters % 2 != 1 { return false; }
    ok := FitAll(rs, voters / 2);
    if ok {
      AllFit(rs, voters);
    } else if ValidRequirements(rs, voters) {
      forall p: nat | p < m ensures Fits(rs, voters / 2, p) { EachFits(rs, voters, p); }
    }
  }

  method FitAll(rs: seq<Requirement>, f: nat) returns (ok: bool)
    ensures ok <==> forall p :: 0 <= p < |rs| ==> Fits(rs, f, p)
  {
    for p := 0 to |rs|
      invariant forall x :: 0 <= x < p ==> Fits(rs, f, x) && |rs[x]| == |rs|
    {
      var fits := FitsEarlier(rs, p, f);
      if !fits { return false; }
    }
    return true;
  }

  method FitsEarlier(rs: seq<Requirement>, p: nat, f: nat) returns (ok: bool)
    requires p < |rs| && forall x :: 0 <= x < p ==> |rs[x]| == |rs|
    ensures ok <==> Fits(rs, f, p)
  {
    ok := IsValid(rs[p], |rs|, f);
    if ok { ok := AgreesEarlier(rs, p, f); }
  }

  method AgreesEarlier(rs: seq<Requirement>, p: nat, f: nat) returns (ok: bool)
    requires p < |rs| && forall x :: 0 <= x <= p ==> |rs[x]| == |rs|
    ensures ok <==> forall y :: 0 <= y < p ==> Agrees(rs, f, p, y)
  {
    for q := 0 to p
      invariant forall y :: 0 <= y < q ==> Agrees(rs, f, p, y)
    {
      var compatible := AreCompatible(rs[p], rs[q], f);
      assert compatible == Agrees(rs, f, p, q);
      if !compatible { return false; }
    }
    return true;
  }
}
