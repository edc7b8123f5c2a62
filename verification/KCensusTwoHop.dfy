/**
  Two-hop plans: a family of schedules that satisfies every planning hypothesis.

  A process either proposes through its delegate, which relays the value to all voters, or sends
  the value to all voters itself. The quorum answers to the delegate, which then knows enough. With
  equal latencies all answers belong to one state of the delegate.
*/
module KCensusTwoHop {
  import opened KCensusPlan
  import opened Quorums

  datatype Route = Route(leader: nat, quorum: set<nat>, relay: bool)

  predicate GoodRoute(t: Route, p: nat, n: nat) {
    && t.leader in t.quorum && t.quorum <= Below(n) && |t.quorum| > n / 2
    && (p < n ==> t.leader == p && t.relay)
  }

  /** What a voter knows of itself once it has the value. */
  function Own(t: Route, v: nat): set<nat> { if t.relay then {v, t.leader} else {v} }

  function Asked(t: Route, w: nat): set<nat> {
    if w == t.leader then t.quorum else if w in t.quorum then Own(t, w) else {}
  }

  function RequirementOf(t: Route, m: nat): Requirement {
    seq(m, (w: nat) requires w < m => Asked(t, w))
  }

  /** The delegate's state in which it has the value and sends it on. */
  function Turn(t: Route, p: nat): nat { if p == t.leader then 0 else 1 }

  function Feed(t: Route, p: nat, v: nat): Edge {
    if t.relay && v != t.leader then Edge(t.leader, Turn(t, p), v) else Edge(p, 0, v)
  }

  function Answers(t: Route): set<Edge> { set w | w in t.quorum && w != t.leader :: Edge(w, 1, t.leader) }

  function StartKnows(p: nat, v: nat, n: nat, w: nat): set<nat> { if v == p && w == p && p < n then {p} else {} }

  function Start(p: nat, v: nat, n: nat, m: nat): GraphState {
    GraphState(seq(m, (w: nat) requires w < m => StartKnows(p, v, n, w)), seq(m, (w: nat) requires w < m => 0), {})
  }

  function FedKnows(t: Route, v: nat, w: nat): set<nat> {
    if w == v then (if v == t.leader then {v} else Own(t, v)) else if w == t.leader && t.relay then {w} else {}
  }

  function FedRemote(t: Route, p: nat, v: nat, w: nat): nat {
    if w == v then 1 else if w == t.leader && t.relay then Turn(t, p) else 0
  }

  function Fed(t: Route, p: nat, v: nat, m: nat): GraphState {
    GraphState(seq(m, (w: nat) requires w < m => FedKnows(t, v, w)), seq(m, (w: nat) requires w < m => FedRemote(t, p, v, w)),
               {Feed(t, p, v)})
  }

  function AnsweredRemote(t: Route, p: nat, w: nat): nat {
    if w == t.leader then Turn(t, p) + 1 else if w in t.quorum then 1 else 0
  }

  function Answered(t: Route, p: nat, m: nat): GraphState {
    GraphState(seq(m, (w: nat) requires w < m => Asked(t, w)), seq(m, (w: nat) requires w < m => AnsweredRemote(t, p, w)), Answers(t))
  }

  function StatesOf(t: Route, p: nat, v: nat, n: nat, m: nat): seq<GraphState> {
    if v >= n then [Start(p, v, n, m)]
    else if v != t.leader then [Start(p, v, n, m), Fed(t, p, v, m)]
    else if v == p then [Start(p, v, n, m), Answered(t, p, m)]
    else [Start(p, v, n, m), Fed(t, p, v, m), Answered(t, p, m)]
  }

  function GraphOf(t: Route, p: nat, n: nat, m: nat): seq<seq<GraphState>> {
    seq(m, (v: nat) requires v < m => StatesOf(t, p, v, n, m))
  }

  function TwoHop(ts: seq<Route>, n: nat): Plan {
    var m := |ts|;
    Plan(n,
         seq(m, (p: nat) requires p < m => ts[p].leader),
         seq(m, (p: nat) requires p < m => RequirementOf(ts[p], m)),
         seq(m, (p: nat) requires p < m => GraphOf(ts[p], p, n, m)))
  }

  predicate GoodRoutes(ts: seq<Route>, n: nat) {
    && 3 <= n <= |ts| <= 63 && n % 2 == 1
    && (forall p :: 0 <= p < |ts| ==> GoodRoute(ts[p], p, n))
    && (forall p, q :: 0 <= q < p < |ts| ==> Compatible(RequirementOf(ts[p], |ts|), RequirementOf(ts[q], |ts|), n / 2))
  }

  lemma QuorumOfRoute(t: Route, p: nat, n: nat, m: nat)
    requires GoodRoute(t, p, n) && n <= m
    ensures Quorum(RequirementOf(t, m)) == t.quorum
  {
    var r := RequirementOf(t, m);
    forall w: nat ensures w in Quorum(r) <==> w in t.quorum {
      if w in t.quorum { assert w in Below(n); assert r[w] == Asked(t, w); }
      if w in Quorum(r) { assert r[w] == Asked(t, w); }
    }
  }

  lemma RouteValid(t: Route, p: nat, n: nat, m: nat)
    requires GoodRoute(t, p, n) && n <= m && n % 2 == 1
    ensures ValidRequirement(RequirementOf(t, m), m, n / 2)
  {
    var r := RequirementOf(t, m);
    QuorumOfRoute(t, p, n, m);
    assert 2 * (n / 2) + 1 == n;
    forall w: nat | w < m && r[w] != {} ensures w in r[w] && r[w] <= Quorum(r) {
      assert r[w] == Asked(t, w);
    }
  }

  /** The parts of a two-hop plan, one proposer at a time. */
  lemma HopParts(ts: seq<Route>, n: nat, p: nat)
    requires p < |ts|
    ensures var plan := TwoHop(ts, n);
      && |plan.reqs| == |plan.leaders| == |plan.graphs| == |ts| && plan.voters == n
      && plan.leaders[p] == ts[p].leader && plan.reqs[p] == RequirementOf(ts[p], |ts|)
      && |plan.graphs[p]| == |ts| && forall v: nat :: v < |ts| ==> plan.graphs[p][v] == StatesOf(ts[p], p, v, n, |ts|)
  {
    assert TwoHop(ts, n).graphs[p] == GraphOf(ts[p], p, n, |ts|);
  }

  lemma LeaderVotes(t: Route, p: nat, n: nat)
    requires GoodRoute(t, p, n)
    ensures t.leader < n
  {
    assert t.leader in Below(n);
  }

  lemma StatesShaped(t: Route, p: nat, v: nat, n: nat, m: nat)
    ensures var ss := StatesOf(t, p, v, n, m);
      |ss| > 0 && forall j :: 0 <= j < |ss| ==> |ss[j].knowledge| == |ss[j].remote| == m
  {
  }

  ghost predicate ShapedFor(plan: Plan, p: nat) {
    && p < |plan.leaders| == |plan.graphs| == |plan.reqs|
    && plan.leaders[p] < plan.voters && |plan.graphs[p]| == |plan.reqs|
    && forall v: nat :: v < |plan.reqs| ==>
         && |plan.graphs[p][v]| > 0
         && forall j: nat :: j < |plan.graphs[p][v]| ==>
              |plan.graphs[p][v][j].knowledge| == |plan.graphs[p][v][j].remote| == |plan.reqs|
  }

  lemma HopShapedFor(ts: seq<Route>, n: nat, p: nat)
    requires p < |ts| && GoodRoute(ts[p], p, n)
    ensures ShapedFor(TwoHop(ts, n), p)
  {
    var plan := TwoHop(ts, n);
    HopParts(ts, n, p);
    LeaderVotes(ts[p], p, n);
    forall v: nat | v < |ts|
      ensures |plan.graphs[p][v]| > 0
      ensures forall j: nat :: j < |plan.graphs[p][v]| ==> |plan.graphs[p][v][j].knowledge| == |plan.graphs[p][v][j].remote| == |ts|
    {
      StatesShaped(ts[p], p, v, n, |ts|);
    }
  }

  lemma AllShaped(plan: Plan)
    requires |plan.leaders| == |plan.graphs| == |plan.reqs| && plan.voters <= |plan.reqs|
    requires forall p: nat :: p < |plan.reqs| ==> ShapedFor(plan, p)
    ensures Shaped(plan)
  {
    assert forall p: nat :: p < |plan.reqs| ==> plan.leaders[p] < plan.voters && |plan.graphs[p]| == |plan.reqs| by {
      forall p: nat | p < |plan.reqs| ensures plan.leaders[p] < plan.voters && |plan.graphs[p]| == |plan.reqs| { assert ShapedFor(plan, p); }
    }
    forall p: nat, v: nat | p < |plan.reqs| && v < |plan.reqs| ensures |plan.graphs[p][v]| > 0 { assert ShapedFor(plan, p); }
    forall p: nat, v: nat, j: nat | p < |plan.reqs| && v < |plan.reqs| && j < |plan.graphs[p][v]|
      ensures |plan.graphs[p][v][j].knowledge| == |plan.graphs[p][v][j].remote| == |plan.reqs|
    {
      assert ShapedFor(plan, p);
    }
  }

  lemma HopShaped(ts: seq<Route>, n: nat)
    requires GoodRoutes(ts, n)
    ensures Shaped(TwoHop(ts, n))
  {
    var plan := TwoHop(ts, n);
    forall p: nat | p < |plan.reqs| ensures ShapedFor(plan, p) { HopShapedFor(ts, n, p); }
    AllShaped(plan);
  }

  lemma HopValid(ts: seq<Route>, n: nat)
    requires GoodRoutes(ts, n)
    ensures ValidRequirements(TwoHop(ts, n).reqs, n)
  {
    var plan := TwoHop(ts, n);
    HopParts(ts, n, 0);
    forall p: nat | p < |ts| ensures ValidRequirement(plan.reqs[p], |ts|, n / 2) {
      HopParts(ts, n, p);
      RouteValid(ts[p], p, n, |ts|);
    }
    forall p: nat, q: nat | q < p < |ts| ensures Compatible(plan.reqs[p], plan.reqs[q], n / 2) {
      HopParts(ts, n, p);
      HopParts(ts, n, q);
    }
  }

  // Causality

  /** State `j` of process `v` in the schedule of `p`, and its parts. */
  lemma HopState(ts: seq<Route>, n: nat, p: nat, v: nat, j: nat)
    requires GoodRoutes(ts, n) && Shaped(TwoHop(ts, n)) && IsState(TwoHop(ts, n), p, v, j)
    ensures p < |ts| && v < |ts| && j < |StatesOf(ts[p], p, v, n, |ts|)|
    ensures var plan, t := TwoHop(ts, n), ts[p];
      forall w: nat :: w < |ts| ==>
        && Knows(plan, p, v, j, w) == (if j == 0 then StartKnows(p, v, n, w)
                                       else if v == t.leader && j == Turn(t, p) + 1 then Asked(t, w) else FedKnows(t, v, w))
        && Remote(plan, p, v, j, w) == (if j == 0 then 0
                                        else if v == t.leader && j == Turn(t, p) + 1 then AnsweredRemote(t, p, w) else FedRemote(t, p, v, w))
    ensures var t := ts[p];
      StateOf(TwoHop(ts, n), p, v, j).deps == (if j == 0 then {} else if v == t.leader && j == Turn(t, p) + 1 then Answers(t) else {Feed(t, p, v)})
    ensures 0 < j ==> v < n && j <= (if v == ts[p].leader then Turn(ts[p], p) + 1 else 1)
  {
    HopParts(ts, n, p);
  }

  ghost predicate HopPlan(ts: seq<Route>, n: nat) { GoodRoutes(ts, n) && Shaped(TwoHop(ts, n)) }

  lemma HopIsState(ts: seq<Route>, n: nat, p: nat, v: nat)
    requires HopPlan(ts, n) && p < |ts| && v < |ts|
    ensures IsState(TwoHop(ts, n), p, v, 0)
    ensures v < n && v != ts[p].leader ==> IsState(TwoHop(ts, n), p, v, 1) && Last(TwoHop(ts, n), p, v) == 1
    ensures v == ts[p].leader ==> IsState(TwoHop(ts, n), p, v, Turn(ts[p], p) + 1) && Last(TwoHop(ts, n), p, v) == Turn(ts[p], p) + 1
    ensures v == ts[p].leader ==> IsState(TwoHop(ts, n), p, v, Turn(ts[p], p))
  {
    HopParts(ts, n, p);
    LeaderVotes(ts[p], p, n);
  }

  lemma HopDeps(ts: seq<Route>, n: nat, p: nat, v: nat, j: nat, e: Edge)
    requires HopPlan(ts, n) && IsState(TwoHop(ts, n), p, v, j) && e in StateOf(TwoHop(ts, n), p, v, j).deps
    ensures 0 < j && e.dst == v && IsState(TwoHop(ts, n), p, e.src, e.at)
  {
    HopState(ts, n, p, v, j);
    assert GoodRoute(ts[p], p, n);
    LeaderVotes(ts[p], p, n);
    assert e.src in Below(n) || e.src == p;
    HopIsState(ts, n, p, e.src);
  }

  /** The delegate believes in itself when it sends the value on. */
  lemma TurnBelieves(ts: seq<Route>, n: nat, p: nat)
    requires HopPlan(ts, n) && p < |ts|
    ensures var plan, t := TwoHop(ts, n), ts[p];
      IsState(plan, p, t.leader, Turn(t, p)) && Believes(plan, p, t.leader, Turn(t, p), t.leader)
      && (Turn(t, p) == 1 ==> Remote(plan, p, t.leader, 1, t.leader) == 1)
  {
    var plan, t := TwoHop(ts, n), ts[p];
    LeaderVotes(t, p, n);
    HopIsState(ts, n, p, t.leader);
    HopState(ts, n, p, t.leader, Turn(t, p));
    assert t.leader in Knows(plan, p, t.leader, Turn(t, p), t.leader);
  }

  /** A fed voter believes in itself. */
  lemma FedBelieves(ts: seq<Route>, n: nat, p: nat, v: nat)
    requires HopPlan(ts, n) && p < |ts| && v < n && v != ts[p].leader
    ensures IsState(TwoHop(ts, n), p, v, 1) && Believes(TwoHop(ts, n), p, v, 1, v) && Remote(TwoHop(ts, n), p, v, 1, v) == 1
  {
    HopIsState(ts, n, p, v);
    HopState(ts, n, p, v, 1);
    assert v in Knows(TwoHop(ts, n), p, v, 1, v);
  }

  predicate IsAnswered(t: Route, p: nat, v: nat, j: nat) { v == t.leader && j == Turn(t, p) + 1 }

  lemma FedCaused(ts: seq<Route>, n: nat, p: nat, v: nat, j: nat, a: nat)
    requires HopPlan(ts, n) && IsState(TwoHop(ts, n), p, v, j) && 0 < j && !IsAnswered(ts[p], p, v, j)
    requires Believes(TwoHop(ts, n), p, v, j, a)
    ensures a < n && KnowledgeCaused(TwoHop(ts, n), p, v, j, a)
  {
    var plan, t := TwoHop(ts, n), ts[p];
    HopState(ts, n, p, v, j);
    LeaderVotes(t, p, n);
    var w: nat :| w < |plan.reqs| && a in Knows(plan, p, v, j, w);
    assert a in FedKnows(t, v, w);
    if a != v {
      TurnBelieves(ts, n, p);
      assert Feed(t, p, v) in StateOf(plan, p, v, j).deps;
    }
  }

  lemma AnsweredCaused(ts: seq<Route>, n: nat, p: nat, v: nat, j: nat, a: nat)
    requires HopPlan(ts, n) && IsState(TwoHop(ts, n), p, v, j) && 0 < j && IsAnswered(ts[p], p, v, j)
    requires Believes(TwoHop(ts, n), p, v, j, a)
    ensures a < n && KnowledgeCaused(TwoHop(ts, n), p, v, j, a)
  {
    var plan, t := TwoHop(ts, n), ts[p];
    HopState(ts, n, p, v, j);
    LeaderVotes(t, p, n);
    var w: nat :| w < |plan.reqs| && a in Knows(plan, p, v, j, w);
    assert a in Asked(t, w);
    assert a in t.quorum;
    assert a in Below(n);
    if a != v {
      FedBelieves(ts, n, p, a);
      assert Edge(a, 1, v) in StateOf(plan, p, v, j).deps;
    }
  }

  lemma HopBelieves(ts: seq<Route>, n: nat, p: nat, v: nat, j: nat, a: nat)
    requires HopPlan(ts, n) && IsState(TwoHop(ts, n), p, v, j) && Believes(TwoHop(ts, n), p, v, j, a)
    ensures a < n && (0 < j ==> KnowledgeCaused(TwoHop(ts, n), p, v, j, a))
  {
    HopState(ts, n, p, v, j);
    if j > 0 {
      if IsAnswered(ts[p], p, v, j) { AnsweredCaused(ts, n, p, v, j, a); } else { FedCaused(ts, n, p, v, j, a); }
    }
  }

  lemma HopRemote(ts: seq<Route>, n: nat, p: nat, v: nat, j: nat, w: nat)
    requires HopPlan(ts, n) && IsState(TwoHop(ts, n), p, v, j) && 0 < j && w < |ts|
    ensures |TwoHop(ts, n).reqs| == |ts| && RemoteCaused(TwoHop(ts, n), p, v, j, w)
  {
    var plan, t := TwoHop(ts, n), ts[p];
    HopState(ts, n, p, v, j);
    LeaderVotes(t, p, n);
    if IsAnswered(t, p, v, j) {
      if w in t.quorum && w != v {
        assert w in Below(n);
        FedBelieves(ts, n, p, w);
        assert Edge(w, 1, v) in StateOf(plan, p, v, j).deps;
      }
    } else if w == t.leader && t.relay && w != v {
      TurnBelieves(ts, n, p);
      assert Feed(t, p, v) in StateOf(plan, p, v, j).deps;
    }
  }

  lemma HopCausal(ts: seq<Route>, n: nat)
    requires HopPlan(ts, n)
    ensures CausalSchedule(TwoHop(ts, n))
  {
    var plan := TwoHop(ts, n);
    forall p: nat, v: nat, w: nat | p < |plan.reqs| && v < |plan.reqs| && w < |plan.reqs|
      ensures Knows(plan, p, v, 0, w) == (if v == p && w == p && p < plan.voters then {p} else {}) && Remote(plan, p, v, 0, w) == 0
    {
      HopIsState(ts, n, p, v);
      HopState(ts, n, p, v, 0);
    }
    forall p: nat, v: nat, j: nat, e | IsState(plan, p, v, j) && e in StateOf(plan, p, v, j).deps
      ensures 0 < j && e.dst == v && IsState(plan, p, e.src, e.at) { HopDeps(ts, n, p, v, j, e); }
    forall p: nat, v: nat, j: nat, a: nat | IsState(plan, p, v, j) && Believes(plan, p, v, j, a)
      ensures a < plan.voters && (0 < j ==> KnowledgeCaused(plan, p, v, j, a)) { HopBelieves(ts, n, p, v, j, a); }
    forall p: nat, v: nat, j: nat, w: nat | IsState(plan, p, v, j) && 0 < j && w < |plan.reqs|
      ensures RemoteCaused(plan, p, v, j, w) { HopRemote(ts, n, p, v, j, w); }
    forall p: nat, v: nat, j: nat | IsState(plan, p, v, j) && 0 < j && v < plan.voters ensures v in Knows(plan, p, v, j, v) {
      HopState(ts, n, p, v, j);
    }
  }

  // Completion

  /** Before the answers the delegate knows of at most one acceptor. */
  lemma NotEarlier(ts: seq<Route>, n: nat, p: nat, j: nat)
    requires HopPlan(ts, n) && p < |ts| && j < Last(TwoHop(ts, n), p, ts[p].leader)
    ensures !CoversAll(TwoHop(ts, n), p, j)
  {
    var plan, t := TwoHop(ts, n), ts[p];
    HopParts(ts, n, p);
    LeaderVotes(t, p, n);
    HopIsState(ts, n, p, t.leader);
    HopState(ts, n, p, t.leader, j);
    if CoversAll(plan, p, j) {
      assert plan.reqs[p][t.leader] == t.quorum;
      SubsetSize(t.quorum, {t.leader});
    }
  }

  lemma HopCovers(ts: seq<Route>, n: nat, p: nat)
    requires HopPlan(ts, n) && p < |ts|
    ensures CoversAll(TwoHop(ts, n), p, Last(TwoHop(ts, n), p, ts[p].leader))
  {
    var t := ts[p];
    HopParts(ts, n, p);
    LeaderVotes(t, p, n);
    HopIsState(ts, n, p, t.leader);
    HopState(ts, n, p, t.leader, Last(TwoHop(ts, n), p, t.leader));
  }

  lemma HopFinal(ts: seq<Route>, n: nat, p: nat, w: nat)
    requires HopPlan(ts, n) && p < |ts| && w < n
    ensures var plan, l := TwoHop(ts, n), ts[p].leader;
      && |plan.reqs| == |ts| == |plan.reqs[p]| && plan.leaders[p] == l
      && (if plan.reqs[p][w] != {}
          then Remote(plan, p, l, Last(plan, p, l), w) == Last(plan, p, w) && plan.reqs[p][w] <= Knows(plan, p, w, Last(plan, p, w), w)
          else Last(plan, p, w) == 1 && |StateOf(plan, p, w, 1).deps| == 1)
  {
    var plan, t := TwoHop(ts, n), ts[p];
    HopParts(ts, n, p);
    LeaderVotes(t, p, n);
    HopIsState(ts, n, p, t.leader);
    HopIsState(ts, n, p, w);
    HopState(ts, n, p, t.leader, Last(plan, p, t.leader));
    HopState(ts, n, p, w, Last(plan, p, w));
    assert plan.reqs[p][w] == Asked(t, w);
  }

  lemma HopFinals(ts: seq<Route>, n: nat)
    requires HopPlan(ts, n)
    ensures FinalStates(TwoHop(ts, n))
  {
    var plan := TwoHop(ts, n);
    forall p: nat | p < |plan.reqs| ensures FinalFor(plan, p)
    {
      HopParts(ts, n, p);
      QuorumOfRoute(ts[p], p, n, |ts|);
      HopCovers(ts, n, p);
      forall j: nat | j < Last(plan, p, plan.leaders[p]) ensures !CoversAll(plan, p, j) { NotEarlier(ts, n, p, j); }
      forall w: nat | w < plan.voters
        ensures if plan.reqs[p][w] != {}
                then Remote(plan, p, plan.leaders[p], Last(plan, p, plan.leaders[p]), w) == Last(plan, p, w)
                     && plan.reqs[p][w] <= Knows(plan, p, w, Last(plan, p, w), w)
                else Last(plan, p, w) == 1 && |StateOf(plan, p, w, 1).deps| == 1
      {
        HopFinal(ts, n, p, w);
      }
    }
  }

  /** Two-hop plans with compatible requirements meet every planning hypothesis. */
  lemma TwoHopIsGood(ts: seq<Route>, n: nat)
    requires GoodRoutes(ts, n)
    ensures GoodPlan(TwoHop(ts, n))
  {
    HopShaped(ts, n);
    HopValid(ts, n);
    HopCausal(ts, n);
    HopFinals(ts, n);
  }
}
