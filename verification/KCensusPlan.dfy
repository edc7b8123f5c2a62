/**
  KCensus plans: requirement matrices and the propagation schedule of each proposer.

  `reqs[p][w]` is the set of acceptors witness `w` must know of before proposer `p`'s delegate may
  commit. A schedule gives each process a sequence of graph states; a state is named by its
  position in that sequence, where the program labels it with a planned time.
*/
module KCensusPlan {
  import opened Quorums

  type Requirement = seq<set<nat>>

  /** A message of the schedule, sent by `src` when it enters its state `at`. */
  datatype Edge = Edge(src: nat, at: nat, dst: nat)

  /**
    `knowledge[w]` is what the process then believes `w` to know, `remote[w]` the state it then
    believes `w` to have entered, and `deps` the messages it needs to enter this state.
  */
  datatype GraphState = GraphState(knowledge: seq<set<nat>>, remote: seq<nat>, deps: set<Edge>)

  datatype Plan = Plan(voters: nat, leaders: seq<nat>, reqs: seq<Requirement>, graphs: seq<seq<seq<GraphState>>>)

  // Requirements

  function Quorum(r: Requirement): set<nat> {
    set w | w in Below(|r|) && r[w] != {}
  }

  predicate ValidRequirement(r: Requirement, m: nat, f: nat) {
    && |r| == m
    && |Quorum(r)| > f && Quorum(r) <= Below(2 * f + 1)
    && forall w :: 0 <= w < m && r[w] != {} ==> w in r[w] && r[w] <= Quorum(r)
  }

  /** The witnesses of either requirement that must know of an acceptor common to both quorums. */
  function Witnesses(a: Requirement, b: Requirement): set<nat>
    requires |a| == |b|
  {
    set w | w in Below(|a|) && (a[w] * (Quorum(a) * Quorum(b)) != {} || b[w] * (Quorum(a) * Quorum(b)) != {})
  }

  predicate Compatible(a: Requirement, b: Requirement, f: nat)
    requires |a| == |b|
  {
    |Witnesses(a, b)| > f
  }

  /** What `validateRequirements` accepts. */
  predicate ValidRequirements(rs: seq<Requirement>, voters: nat) {
    && 3 <= voters <= |rs| <= 63 && voters % 2 == 1
    && (forall p :: 0 <= p < |rs| ==> ValidRequirement(rs[p], |rs|, voters / 2))
    && (forall p, q :: 0 <= q < p < |rs| ==> Compatible(rs[p], rs[q], voters / 2))
  }

  lemma CompatibleSymmetric(a: Requirement, b: Requirement, f: nat)
    requires |a| == |b| && Compatible(a, b, f)
    ensures Compatible(b, a, f)
  {
    assert Quorum(b) * Quorum(a) == Quorum(a) * Quorum(b);
    assert Witnesses(b, a) == Witnesses(a, b);
  }

  // Schedules

  function Processes(plan: Plan): nat { |plan.reqs| }

  function Faults(plan: Plan): nat { plan.voters / 2 }

  predicate Shaped(plan: Plan) {
    && |plan.leaders| == |plan.graphs| == |plan.reqs| && plan.voters <= |plan.reqs|
    && (forall p :: 0 <= p < |plan.reqs| ==> plan.leaders[p] < plan.voters && |plan.graphs[p]| == |plan.reqs|)
    && (forall p, v :: 0 <= p < |plan.reqs| && 0 <= v < |plan.reqs| ==> |plan.graphs[p][v]| > 0)
    && (forall p, v, j :: 0 <= p < |plan.reqs| && 0 <= v < |plan.reqs| && 0 <= j < |plan.graphs[p][v]| ==>
          |plan.graphs[p][v][j].knowledge| == |plan.graphs[p][v][j].remote| == |plan.reqs|)
  }

  predicate IsState(plan: Plan, p: nat, v: nat, j: nat) {
    p < |plan.graphs| && v < |plan.graphs[p]| && j < |plan.graphs[p][v]|
  }

  function StateOf(plan: Plan, p: nat, v: nat, j: nat): GraphState
    requires IsState(plan, p, v, j)
  {
    plan.graphs[p][v][j]
  }

  /** The position of a process's final state in a schedule. */
  function Last(plan: Plan, p: nat, v: nat): nat
    requires Shaped(plan) && p < |plan.reqs| && v < |plan.reqs|
  {
    |plan.graphs[p][v]| - 1
  }

  function Knows(plan: Plan, p: nat, v: nat, j: nat, w: nat): set<nat>
    requires Shaped(plan) && IsState(plan, p, v, j) && w < |plan.reqs|
  {
    plan.graphs[p][v][j].knowledge[w]
  }

  function Remote(plan: Plan, p: nat, v: nat, j: nat, w: nat): nat
    requires Shaped(plan) && IsState(plan, p, v, j) && w < |plan.reqs|
  {
    plan.graphs[p][v][j].remote[w]
  }

  /** The acceptors the delegate knows of when the schedule of `p` is complete. */
  function CommitQuorum(plan: Plan, p: nat): set<nat>
    requires Shaped(plan) && p < |plan.reqs|
  {
    Knows(plan, p, plan.leaders[p], Last(plan, p, plan.leaders[p]), plan.leaders[p])
  }

  /** Knowledge of witnesses that lets the delegate of `p` commit in its state `j`. */
  predicate CoversAll(plan: Plan, p: nat, j: nat)
    requires Shaped(plan) && p < |plan.reqs| && j < |plan.graphs[p][plan.leaders[p]]|
  {
    forall w :: 0 <= w < |plan.reqs| && w < |plan.reqs[p]| ==>
      plan.reqs[p][w] <= Knows(plan, p, plan.leaders[p], j, w)
  }

  /** The process, in its state `j`, believes some process to know of acceptor `a`. */
  predicate Believes(plan: Plan, p: nat, v: nat, j: nat, a: nat)
    requires Shaped(plan) && IsState(plan, p, v, j)
  {
    exists w :: 0 <= w < |plan.reqs| && a in Knows(plan, p, v, j, w)
  }

  /** An acceptor believed in at a state is the process itself, or was believed in at a cause of the state. */
  predicate KnowledgeCaused(plan: Plan, p: nat, v: nat, j: nat, a: nat)
    requires Shaped(plan) && IsState(plan, p, v, j) && 0 < j
  {
    || (a == v && v < plan.voters)
    || Believes(plan, p, v, j - 1, a)
    || (exists e :: e in StateOf(plan, p, v, j).deps && IsState(plan, p, e.src, e.at) && Believes(plan, p, e.src, e.at, a))
  }

  /** A remote state believed in is the process's own, or was believed in at a cause of the state. */
  predicate RemoteCaused(plan: Plan, p: nat, v: nat, j: nat, w: nat)
    requires Shaped(plan) && IsState(plan, p, v, j) && 0 < j && w < |plan.reqs|
  {
    var t := Remote(plan, p, v, j, w);
    || t == 0 || (w == v && t == j) || t == Remote(plan, p, v, j - 1, w)
    || (exists e :: e in StateOf(plan, p, v, j).deps && IsState(plan, p, e.src, e.at) && t == Remote(plan, p, e.src, e.at, w))
  }

  /** Schedules start with nothing but a voting proposer's own acceptance, and grow only by messages. */
  ghost predicate CausalSchedule(plan: Plan)
    requires Shaped(plan)
  {
    && (forall p, v, w {:trigger Knows(plan, p, v, 0, w)} :: 0 <= p < |plan.reqs| && 0 <= v < |plan.reqs| && 0 <= w < |plan.reqs| ==>
          Knows(plan, p, v, 0, w) == (if v == p && w == p && p < plan.voters then {p} else {}) && Remote(plan, p, v, 0, w) == 0)
    && (forall p: nat, v: nat, j: nat, e :: IsState(plan, p, v, j) && e in StateOf(plan, p, v, j).deps ==>
          0 < j && e.dst == v && IsState(plan, p, e.src, e.at))
    && (forall p: nat, v: nat, j: nat, a: nat :: IsState(plan, p, v, j) && Believes(plan, p, v, j, a) ==>
          a < plan.voters && (0 < j ==> KnowledgeCaused(plan, p, v, j, a)))
    && (forall p: nat, v: nat, j: nat, w: nat :: IsState(plan, p, v, j) && 0 < j && w < |plan.reqs| ==> RemoteCaused(plan, p, v, j, w))
    && (forall p: nat, v: nat, j: nat {:trigger IsState(plan, p, v, j)} ::
          IsState(plan, p, v, j) && 0 < j && v < plan.voters ==> v in Knows(plan, p, v, j, v))
  }

  /**
    The final-state checks of graph construction. A witness of the quorum is known to be in its
    final state when the delegate is, and knows there what the requirement asks of it; no earlier
    state of the delegate covers the requirement; voters propose through themselves. A voter
    outside the quorum has one state to enter, on one message, so that accepting the proposal and
    entering its final state are one step.
  */
  ghost predicate FinalStates(plan: Plan)
    requires Shaped(plan)
  {
    forall p: nat {:trigger plan.leaders[p]} :: p < |plan.reqs| ==> FinalFor(plan, p)
  }

  ghost predicate FinalFor(plan: Plan, p: nat)
    requires Shaped(plan) && p < |plan.reqs|
  {
    var l := plan.leaders[p];
    && (p < plan.voters ==> l == p)
    && |plan.reqs[p]| == |plan.reqs| && plan.voters <= |plan.reqs| && plan.reqs[p][l] == Quorum(plan.reqs[p])
    && CoversAll(plan, p, Last(plan, p, l))
    && (forall j :: 0 <= j < Last(plan, p, l) ==> !CoversAll(plan, p, j))
    && (forall w {:trigger plan.reqs[p][w]} :: 0 <= w < plan.voters ==>
          if plan.reqs[p][w] != {}
          then Remote(plan, p, l, Last(plan, p, l), w) == Last(plan, p, w)
               && plan.reqs[p][w] <= Knows(plan, p, w, Last(plan, p, w), w)
          else Last(plan, p, w) == 1 && |StateOf(plan, p, w, 1).deps| == 1)
  }

  ghost predicate GoodPlan(plan: Plan) {
    ValidRequirements(plan.reqs, plan.voters) && Shaped(plan) && CausalSchedule(plan) && FinalStates(plan)
  }

  /** The messages of a schedule are those that some state waits for. */
  predicate IsEdge(plan: Plan, p: nat, e: Edge) {
    p < |plan.graphs| && e.dst < |plan.graphs[p]|
    && exists j :: 0 <= j < |plan.graphs[p][e.dst]| && e in plan.graphs[p][e.dst][j].deps
  }

  /** The messages process `v` sends on entering its state `j`. */
  function Outgoing(plan: Plan, p: nat, v: nat, j: nat): (es: set<Edge>)
    ensures forall e :: e in es <==> IsEdge(plan, p, e) && e.src == v && e.at == j
  {
    if p < |plan.graphs| then
      set w, k, e | 0 <= w < |plan.graphs[p]| && 0 <= k < |plan.graphs[p][w]| && e in plan.graphs[p][w][k].deps
                    && e.dst == w && e.src == v && e.at == j :: e
    else {}
  }

  // Consequences

  lemma QuorumFacts(plan: Plan, p: nat)
    requires GoodPlan(plan) && p < |plan.reqs|
    ensures var q := Quorum(plan.reqs[p]);
      && q <= CommitQuorum(plan, p) && CommitQuorum(plan, p) <= Below(plan.voters)
      && q <= Below(plan.voters) && |q| > Faults(plan) && plan.leaders[p] in q
      && (p < plan.voters ==> p in q && Last(plan, p, p) > 0)
  {
    var l := plan.leaders[p];
    assert ValidRequirement(plan.reqs[p], |plan.reqs|, plan.voters / 2);
    assert 2 * (plan.voters / 2) + 1 == plan.voters;
    assert CoversAll(plan, p, Last(plan, p, l));
    assert plan.reqs[p][l] <= Knows(plan, p, l, Last(plan, p, l), l);
    assert plan.reqs[p][l] != {};
    assert l in plan.reqs[p][l];
    assert IsState(plan, p, l, Last(plan, p, l));
    assert forall a :: a in CommitQuorum(plan, p) ==> Believes(plan, p, l, Last(plan, p, l), a);
    if p < plan.voters && Last(plan, p, p) == 0 {
      assert Knows(plan, p, p, 0, p) == {p};
      SubsetSize(plan.reqs[p][l], {p});
    }
  }

  /** Every process starts a schedule believing nothing of others' states. */
  lemma StartsEmpty(plan: Plan, p: nat, v: nat, w: nat)
    requires GoodPlan(plan) && p < |plan.reqs| && v < |plan.reqs| && w < |plan.reqs|
    ensures Remote(plan, p, v, 0, w) == 0
    ensures Knows(plan, p, v, 0, w) == if v == p && w == p && p < plan.voters then {p} else {}
  {
  }

  lemma QuorumsMeet(plan: Plan, p: nat, q: nat)
    requires GoodPlan(plan) && p < |plan.reqs| && q < |plan.reqs|
    ensures exists a :: a in Quorum(plan.reqs[p]) && a in Quorum(plan.reqs[q])
  {
    QuorumFacts(plan, p);
    QuorumFacts(plan, q);
    Intersect(plan.voters, Quorum(plan.reqs[p]), Quorum(plan.reqs[q]));
  }

  lemma AnyTwoCompatible(plan: Plan, p: nat, q: nat)
    requires GoodPlan(plan) && p < |plan.reqs| && q < |plan.reqs| && p != q
    ensures |plan.reqs[p]| == |plan.reqs[q]| && Compatible(plan.reqs[p], plan.reqs[q], Faults(plan))
  {
    assert ValidRequirement(plan.reqs[p], |plan.reqs|, plan.voters / 2) && ValidRequirement(plan.reqs[q], |plan.reqs|, plan.voters / 2);
    if p < q { CompatibleSymmetric(plan.reqs[q], plan.reqs[p], Faults(plan)); }
  }
}
