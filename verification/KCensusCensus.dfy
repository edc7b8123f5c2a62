/**
  The frozen census: what a majority of frozen reports tells about fast commitment.

  A refuted or unknown proposer is blocked for good, and a proposer that is not blocked is known
  and possible in every census. Refuting every other proposer as well takes the strict rule, by
  which a frozen report also counts its own voter. The program leaves the voter out when it
  accepted in its first state, where it does not know of itself yet. The program's rule does it
  when at most two processes have proposed, or when no frozen voter is unaware of itself.
*/
module KCensusCensus {
  import opened KCensusPlan
  import opened KCensus
  import opened KCensusSystem
  import opened KCensusSafety
  import opened Quorums

  /** Reports and proposals as a voter holds them after a majority has frozen for ballot `b`. */
  ghost predicate FrozenCensus(plan: Plan, S: System, reports: map<nat, Report>, values: map<nat, Value>, b: nat) {
    && Inv(plan, S) && b > 0
    && (forall w: nat :: w in reports ==>
          && reports[w].voter == w && TrueReport(plan, S, reports[w])
          && (reports[w].proposer.Some? ==> reports[w].proposer.value in values))
    && (forall p: nat :: p in values ==> p < |plan.reqs| && p in S.proposals && values[p] == S.proposals[p])
    && |PromisedAt(plan, reports, b)| >= plan.voters - Faults(plan)
    && NoneAccepted(reports)
  }

  lemma CensusWellReported(plan: Plan, S: System, reports: map<nat, Report>, values: map<nat, Value>, b: nat)
    requires FrozenCensus(plan, S, reports, values, b)
    ensures WellReported(plan, reports)
  {
    forall w | w in reports
      ensures reports[w].voter == w < plan.voters
      ensures reports[w].proposer.Some? ==> IsState(plan, reports[w].proposer.value, w, reports[w].time)
    {
      assert TrueReport(plan, S, reports[w]);
    }
  }

  /** Every frozen voter that accepted a proposal counts itself among the acceptors it knows of. */
  predicate Aware(plan: Plan, reports: map<nat, Report>)
    requires Shaped(plan) && WellReported(plan, reports)
  {
    forall w :: w in reports && Frozen(reports[w]) ==> w in Held(plan, reports[w])
  }

  /** Refutation that counts the reporting voter among the acceptors it holds. */
  predicate StrictlyRefutes(plan: Plan, p: nat, r: Report)
    requires Shaped(plan) && p < |plan.reqs| && r.voter < plan.voters
    requires r.proposer.Some? ==> IsState(plan, r.proposer.value, r.voter, r.time)
  {
    Refutes(plan, p, r) || (Frozen(r) && r.proposer != Some(p) && r.voter in CommitQuorum(plan, p))
  }

  predicate StrictlyPossible(plan: Plan, reports: map<nat, Report>, p: nat)
    requires Shaped(plan) && p < |plan.reqs| && WellReported(plan, reports)
  {
    forall w :: w in reports ==> !StrictlyRefutes(plan, p, reports[w])
  }

  lemma StuckBlocks(plan: Plan, S: System, v: nat, p: nat)
    requires Shaped(plan) && p < |plan.reqs| && v in CommitQuorum(plan, p) && Stuck(plan, S, v, p)
    ensures FastBlocked(plan, S, p)
  {
  }

  /** What a true frozen report without classic acceptance tells about its voter. */
  ghost predicate Tells(plan: Plan, S: System, r: Report)
    requires Shaped(plan)
  {
    && r.voter < plan.voters == |S.voters| && S.voters[r.voter].frozen && r.ballot != 0
    && match r.proposer
       case None => S.voters[r.voter].fast.None?
       case Some(q) =>
         && q < |plan.reqs| && IsState(plan, q, r.voter, r.time)
         && Took(S, r.voter, q) && S.voters[r.voter].time == r.time
         && (forall a :: a in Knows(plan, q, r.voter, r.time, r.voter) ==> Took(S, a, q))
         && (r.time != Last(plan, q, r.voter) ==> r.voter in CommitQuorum(plan, q))
         && (r.voter !in Knows(plan, q, r.voter, r.time, r.voter) ==> r.time != Last(plan, q, r.voter))
  }

  /** What an acceptor believes at the state it froze in is true. */
  lemma KnownTook(plan: Plan, S: System, w: nat, q: nat, j: nat, a: nat)
    requires CoreInv(plan, S) && w < plan.voters && IsState(plan, q, w, j) && Reached(S, w, q, j) && a in Knows(plan, q, w, j, w)
    ensures Took(S, a, q)
  {
    assert CauseInv(plan, S, w) by { assert VoterInv(plan, S, w); }
    assert Sound(plan, S, q, w, j);
    assert Believes(plan, q, w, j, a);
  }

  lemma FinalKnows(plan: Plan, p: nat, w: nat)
    requires GoodPlan(plan) && p < |plan.reqs| && w in Quorum(plan.reqs[p])
    ensures w < plan.voters && |plan.reqs[p]| == |plan.reqs|
    ensures w in plan.reqs[p][w] && plan.reqs[p][w] <= Knows(plan, p, w, Last(plan, p, w), w)
  {
    QuorumFacts(plan, p);
    assert ValidRequirement(plan.reqs[p], |plan.reqs|, plan.voters / 2);
    assert plan.leaders[p] < plan.voters;
    assert plan.reqs[p][w] != {};
  }

  /** In its final state a voter knows of itself. */
  lemma FinalAware(plan: Plan, p: nat, w: nat)
    requires GoodPlan(plan) && p < |plan.reqs| && w < plan.voters
    ensures w in Knows(plan, p, w, Last(plan, p, w), w)
  {
    if w in Quorum(plan.reqs[p]) {
      FinalKnows(plan, p, w);
    } else {
      assert plan.leaders[p] < plan.voters;
      assert plan.reqs[p][w] == {};
      assert IsState(plan, p, w, Last(plan, p, w));
    }
  }

  lemma ReportTells(plan: Plan, S: System, r: Report)
    requires Inv(plan, S) && TrueReport(plan, S, r) && r.accepted == 0 && Frozen(r)
    ensures Tells(plan, S, r)
  {
    if r.proposer.Some? {
      var q, w := r.proposer.value, r.voter;
      forall a | a in Knows(plan, q, w, r.time, w) ensures Took(S, a, q) { KnownTook(plan, S, w, q, r.time, a); }
      if r.time == Last(plan, q, w) {
        FinalAware(plan, q, w);
      } else {
        assert Prompt(plan, S.voters[w], w);
        QuorumFacts(plan, q);
      }
    }
  }

  /** Refutation is sound: a proposer the census rules out is never committed fast, now or later. */
  lemma RefutedIsBlocked(plan: Plan, S: System, p: nat, r: Report)
    requires Shaped(plan) && p < |plan.reqs| && Tells(plan, S, r) && StrictlyRefutes(plan, p, r)
    ensures FastBlocked(plan, S, p)
  {
    if r.proposer == Some(p) || r.voter in CommitQuorum(plan, p) {
      StuckBlocks(plan, S, r.voter, p);
    } else {
      var a :| a in Held(plan, r) && a in CommitQuorum(plan, p);
      StuckBlocks(plan, S, a, p);
    }
  }

  ghost predicate AllTell(plan: Plan, S: System, reports: map<nat, Report>)
    requires Shaped(plan)
  {
    forall w :: w in reports && Frozen(reports[w]) ==> reports[w].voter == w && Tells(plan, S, reports[w])
  }

  lemma ReportsTell(plan: Plan, S: System, reports: map<nat, Report>, values: map<nat, Value>, b: nat)
    requires FrozenCensus(plan, S, reports, values, b)
    ensures AllTell(plan, S, reports) && WellReported(plan, reports)
  {
    CensusWellReported(plan, S, reports, values, b);
    forall w | w in reports && Frozen(reports[w]) ensures reports[w].voter == w && Tells(plan, S, reports[w]) {
      ReportTells(plan, S, reports[w]);
    }
  }

  /** A proposer the census has not heard of was not, and will not be, committed fast. */
  lemma UnknownIsBlocked(plan: Plan, S: System, reports: map<nat, Report>, values: map<nat, Value>, b: nat, p: nat)
    requires GoodPlan(plan) && AllTell(plan, S, reports) && b > 0 && |PromisedAt(plan, reports, b)| >= plan.voters - Faults(plan)
    requires forall w :: w in reports && reports[w].proposer.Some? ==> reports[w].proposer.value in values
    requires p < |plan.reqs| && p !in values
    ensures FastBlocked(plan, S, p)
  {
    var m := PromisedAt(plan, reports, b);
    QuorumFacts(plan, p);
    assert m <= Below(plan.voters);
    Intersect(plan.voters, m, Quorum(plan.reqs[p]));
    var w :| w in m && w in Quorum(plan.reqs[p]);
    StuckBlocks(plan, S, w, p);
  }

  /** In its final state for `p`, the quorum member `w` knows of acceptor `a`. */
  predicate WitnessFor(plan: Plan, p: nat, w: nat, a: nat)
    requires Shaped(plan) && p < |plan.reqs|
  {
    w < |plan.reqs| && w in CommitQuorum(plan, p) && a in Knows(plan, p, w, Last(plan, p, w), w)
  }

  /** Some promised witness must know, for `p` or for `q`, of an acceptor common to both quorums. */
  lemma PromisedWitness(plan: Plan, reports: map<nat, Report>, b: nat, p: nat, q: nat) returns (w: nat, a: nat)
    requires GoodPlan(plan) && p < |plan.reqs| && q < |plan.reqs| && p != q
    requires |PromisedAt(plan, reports, b)| >= plan.voters - Faults(plan)
    ensures w in PromisedAt(plan, reports, b)
    ensures a in CommitQuorum(plan, p) && a in CommitQuorum(plan, q)
    ensures WitnessFor(plan, p, w, a) || WitnessFor(plan, q, w, a)
  {
    AnyTwoCompatible(plan, p, q);
    QuorumFacts(plan, p);
    QuorumFacts(plan, q);
    var m, ws := PromisedAt(plan, reports, b), Witnesses(plan.reqs[p], plan.reqs[q]);
    assert m <= Below(plan.voters);
    assert ws <= Below(plan.voters) by {
      forall u | u in ws ensures u in Below(plan.voters) {
        assert u in Quorum(plan.reqs[p]) || u in Quorum(plan.reqs[q]);
      }
    }
    Intersect(plan.voters, m, ws);
    w :| w in m && w in ws;
    var common := Quorum(plan.reqs[p]) * Quorum(plan.reqs[q]);
    if plan.reqs[p][w] * common != {} {
      a :| a in plan.reqs[p][w] * common;
      FinalKnows(plan, p, w);
    } else {
      a :| a in plan.reqs[q][w] * common;
      FinalKnows(plan, q, w);
    }
  }

  /** A witness with knowledge of an acceptor common to both blocks `p` or strictly refutes `q`. */
  lemma WitnessDecides(plan: Plan, S: System, p: nat, q: nat, r: Report, a: nat)
    requires Shaped(plan) && p < |plan.reqs| && q < |plan.reqs| && p != q && Tells(plan, S, r)
    requires a in CommitQuorum(plan, p) && a in CommitQuorum(plan, q)
    requires WitnessFor(plan, p, r.voter, a) || WitnessFor(plan, q, r.voter, a)
    ensures FastBlocked(plan, S, p) || StrictlyRefutes(plan, q, r)
  {
    if StrictlyRefutes(plan, p, r) {
      RefutedIsBlocked(plan, S, p, r);
    } else if WitnessFor(plan, p, r.voter, a) {
      assert a in Held(plan, r) * CommitQuorum(plan, q);
    } else if r.proposer == Some(q) && r.time == Last(plan, q, r.voter) {
      StuckBlocks(plan, S, a, p);
    }
  }

  /** A proposer the strict rule leaves possible in a majority census blocks every other one. */
  lemma OneRemains(plan: Plan, S: System, reports: map<nat, Report>, b: nat, p: nat, q: nat)
    requires GoodPlan(plan) && AllTell(plan, S, reports) && b > 0 && |PromisedAt(plan, reports, b)| >= plan.voters - Faults(plan)
    requires p < |plan.reqs| && q < |plan.reqs| && p != q
    requires WellReported(plan, reports) && StrictlyPossible(plan, reports, q)
    ensures FastBlocked(plan, S, p)
  {
    var w, a := PromisedWitness(plan, reports, b, p, q);
    WitnessDecides(plan, S, p, q, reports[w], a);
  }

  lemma AtMostPair(s: set<nat>, p: nat, q: nat)
    requires |s| <= 2 && p in s && q in s && p != q
    ensures s <= {p, q}
  {
    forall u | u in s ensures u in {p, q} {
      if u !in {p, q} { SubsetSize({p, q, u}, s); assert false; }
    }
  }

  /** Where the two rules differ, the voter named a third proposer or is stuck for the second. */
  lemma RulesDiffer(plan: Plan, S: System, p: nat, q: nat, r: Report)
    requires Shaped(plan) && p < |plan.reqs| && q < |plan.reqs| && p != q && Tells(plan, S, r)
    requires StrictlyRefutes(plan, q, r) && !Refutes(plan, q, r)
    ensures r.proposer.Some? && r.proposer != Some(q) && r.voter !in Held(plan, r)
    ensures r.proposer == Some(p) ==> FastBlocked(plan, S, p)
  {
    var refuting := Held(plan, r) * CommitQuorum(plan, q);
    assert r.voter !in refuting;
    if r.proposer == Some(p) { RefutedIsBlocked(plan, S, p, r); }
  }

  lemma UnawareBlocks(plan: Plan, S: System, reports: map<nat, Report>, values: map<nat, Value>, p: nat, q: nat)
    requires Shaped(plan) && WellReported(plan, reports) && AllTell(plan, S, reports)
    requires forall w :: w in reports && reports[w].proposer.Some? ==> reports[w].proposer.value in values.Keys
    requires p < |plan.reqs| && q < |plan.reqs| && p != q && p in values.Keys && q in values.Keys
    requires Possible(plan, reports, q) && !StrictlyPossible(plan, reports, q)
    requires Aware(plan, reports) || |values.Keys| <= 2
    ensures FastBlocked(plan, S, p)
  {
    var w :| w in reports && StrictlyRefutes(plan, q, reports[w]);
    var r := reports[w];
    assert !Refutes(plan, q, r);
    assert Tells(plan, S, r);
    RulesDiffer(plan, S, p, q, r);
    assert !Aware(plan, reports);
    AtMostPair(values.Keys, p, q);
    assert r.proposer.value in values.Keys;
  }

  /** With two proposers or with aware voters, a possible proposer blocks every other one. */
  lemma PossibleBlocks(plan: Plan, S: System, reports: map<nat, Report>, values: map<nat, Value>, b: nat, p: nat, q: nat)
    requires GoodPlan(plan) && AllTell(plan, S, reports) && b > 0 && |PromisedAt(plan, reports, b)| >= plan.voters - Faults(plan)
    requires forall w :: w in reports && reports[w].proposer.Some? ==> reports[w].proposer.value in values
    requires p < |plan.reqs| && q < |plan.reqs| && p != q && p in values && q in values
    requires WellReported(plan, reports) && Possible(plan, reports, q)
    requires Aware(plan, reports) || |values.Keys| <= 2
    ensures FastBlocked(plan, S, p)
  {
    if StrictlyPossible(plan, reports, q) {
      OneRemains(plan, S, reports, b, p, q);
    } else {
      UnawareBlocks(plan, S, reports, values, p, q);
    }
  }

  /**
    Census adoption. A proposer that was, or may yet be, committed fast is known to every majority
    census without classic acceptances and possible there, and every other proposer is refuted:
    always by the strict rule, and by the program's among two proposers or aware voters.
  */
  lemma CensusAdoption(plan: Plan, S: System, reports: map<nat, Report>, values: map<nat, Value>, b: nat, p: nat)
    requires FrozenCensus(plan, S, reports, values, b) && WellReported(plan, reports)
    requires p < |plan.reqs| && !FastBlocked(plan, S, p)
    ensures p in values && StrictlyPossible(plan, reports, p) && Possible(plan, reports, p)
    ensures forall q: nat :: q < |plan.reqs| && q != p ==> !StrictlyPossible(plan, reports, q)
    ensures Aware(plan, reports) || |values.Keys| <= 2 ==>
              forall q: nat :: q in values && q != p ==> !Possible(plan, reports, q)
  {
    ReportsTell(plan, S, reports, values, b);
    if p !in values { UnknownIsBlocked(plan, S, reports, values, b, p); }
    forall w | w in reports ensures !StrictlyRefutes(plan, p, reports[w]) {
      if StrictlyRefutes(plan, p, reports[w]) { RefutedIsBlocked(plan, S, p, reports[w]); }
    }
    forall q: nat | q < |plan.reqs| && q != p ensures !StrictlyPossible(plan, reports, q) {
      if StrictlyPossible(plan, reports, q) { OneRemains(plan, S, reports, b, p, q); }
    }
    if Aware(plan, reports) || |values.Keys| <= 2 {
      forall q: nat | q in values && q != p ensures !Possible(plan, reports, q) {
        if Possible(plan, reports, q) { PossibleBlocks(plan, S, reports, values, b, p, q); }
      }
    }
  }

  /** Two proposers or aware voters make the program's selection a sure one, up to blocked proposers. */
  lemma AdoptedIsFastSafe(plan: Plan, S: System, reports: map<nat, Report>, values: map<nat, Value>, b: nat, v: Value, p: nat)
    requires FrozenCensus(plan, S, reports, values, b) && WellReported(plan, reports)
    requires Aware(plan, reports) || |values.Keys| <= 2
    requires Adopts(plan, reports, values, Some(v)) || Adopts(plan, reports, values, None)
    requires p < |plan.reqs|
    ensures FastBlocked(plan, S, p) || (p in S.proposals && S.proposals[p] == v)
  {
    if !FastBlocked(plan, S, p) {
      CensusAdoption(plan, S, reports, values, b, p);
      if Adopts(plan, reports, values, Some(v)) {
        var q :| q in values && v == values[q] && Possible(plan, reports, q);
        assert q == p;
      }
    }
  }
}
