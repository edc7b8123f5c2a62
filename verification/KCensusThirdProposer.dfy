/**
  Why a census of three proposers needs more than the program's rule: a run that decides twice.

  Five voters and three clients. Client 7's value reaches voter 0 in an answer of voter 4 that
  overtakes the client's own message, so voter 0 accepts it in the first state of the schedule,
  where it does not know of itself yet; client 5's message then freezes it there. Meanwhile voters
  1, 2 and 3 complete the schedule of client 6, and voter 1 decides. A census of voters 0, 3 and 4
  finds client 5 possible, because voter 0 does not count against it, and its value is decided too.

  An answer names its value by identifier, and voter 0 keeps it waiting while it does not have the
  value (kcensus/graph.go:136-145, kcensus/core.go:584-587). Voter 4 passes pending values on to the
  voter it takes for the coordinator (kcensus/pending.go:107-119 and 154-188), which is voter 0 once
  voter 4 knows that voter 1 has failed. Voter 0 stores the value, does not propose while it does
  not know of the failure (kcensus/core.go:371-375), and takes the waiting answer
  (kcensus/payload.go:140-166), all before client 7's own message arrives.
*/
module KCensusThirdProposer {
  import opened KCensusPlan
  import opened KCensus
  import opened KCensusSystem
  import opened KCensusRuns
  import opened KCensusTwoHop
  import opened KCensusDirect
  import opened Quorums

  // The plan

  function Everyone(p: nat): Route { Route(p, {0, 1, 2, 3, 4}, true) }

  const ROUTES: seq<Route> := [
    Everyone(0), Everyone(1), Everyone(2), Everyone(3), Everyone(4),
    Route(0, {0, 1, 2}, false), Route(1, {1, 2, 3}, false), Route(0, {0, 1, 2, 4}, false)]

  function ThePlan(): Plan { TwoHop(ROUTES, 5) }

  lemma RoutesGood(p: nat)
    requires p < 8
    ensures GoodRoute(ROUTES[p], p, 5)
  {
    assert {0, 1, 2, 3, 4} == Below(5);
    assert |{0, 1, 2}| == 3 && |{1, 2, 3}| == 3 && |{0, 1, 2, 4}| == 4;
  }

  lemma WitnessEnough(a: Requirement, b: Requirement, ws: set<nat>, f: nat)
    requires |a| == |b| && ws <= Witnesses(a, b) && |ws| > f
    ensures Compatible(a, b, f)
  {
    SubsetSize(ws, Witnesses(a, b));
  }

  lemma InWitnesses(a: Requirement, b: Requirement, w: nat, c: nat)
    requires |a| == |b| && w < |a| && c in Quorum(a) && c in Quorum(b) && (c in a[w] || c in b[w])
    ensures w in Witnesses(a, b)
  {
    var common := Quorum(a) * Quorum(b);
    assert c in a[w] * common || c in b[w] * common;
  }

  lemma RequirementAt(t: Route, p: nat, w: nat)
    requires GoodRoute(t, p, 5) && w < 5
    ensures |RequirementOf(t, 8)| == 8 && RequirementOf(t, 8)[w] == Asked(t, w) && Quorum(RequirementOf(t, 8)) == t.quorum
  {
    QuorumOfRoute(t, p, 5, 8);
  }

  /** Whoever must know, for either route, of an acceptor common to both is a witness. */
  lemma CrossWitness(t: Route, p: nat, u: Route, q: nat, w: nat, c: nat)
    requires GoodRoute(t, p, 5) && GoodRoute(u, q, 5) && w < 5
    requires c in Asked(t, w) || c in Asked(u, w)
    requires c in t.quorum && c in u.quorum
    ensures w in Witnesses(RequirementOf(t, 8), RequirementOf(u, 8))
  {
    RequirementAt(t, p, w);
    RequirementAt(u, q, w);
    InWitnesses(RequirementOf(t, 8), RequirementOf(u, 8), w, c);
  }

  lemma CommonWitnesses(t: Route, p: nat, u: Route, q: nat)
    requires GoodRoute(t, p, 5) && GoodRoute(u, q, 5) && t.quorum <= u.quorum
    ensures Compatible(RequirementOf(t, 8), RequirementOf(u, 8), 2) && Compatible(RequirementOf(u, 8), RequirementOf(t, 8), 2)
  {
    forall w | w in t.quorum
      ensures w in Witnesses(RequirementOf(t, 8), RequirementOf(u, 8)) && w in Witnesses(RequirementOf(u, 8), RequirementOf(t, 8))
    {
      assert w in Below(5);
      CrossWitness(t, p, u, q, w, w);
      CrossWitness(u, q, t, p, w, w);
    }
    WitnessEnough(RequirementOf(t, 8), RequirementOf(u, 8), t.quorum, 2);
    WitnessEnough(RequirementOf(u, 8), RequirementOf(t, 8), t.quorum, 2);
  }

  /** Of acceptor 1 or 2, common to client 6 and another route of delegate 0, voters 0 to 2 must know. */
  lemma SixWitness(t: Route, p: nat, u: Route, w: nat)
    requires GoodRoute(t, p, 5) && GoodRoute(u, 6, 5) && w < 3 && t.leader == 0 && u.leader == 1 && !t.relay && !u.relay
    requires 1 in t.quorum && 2 in t.quorum && 1 in u.quorum && 2 in u.quorum
    ensures w in Witnesses(RequirementOf(t, 8), RequirementOf(u, 8)) && w in Witnesses(RequirementOf(u, 8), RequirementOf(t, 8))
  {
    var c := if w == 2 then 2 else 1;
    CrossWitness(t, p, u, 6, w, c);
    CrossWitness(u, 6, t, p, w, c);
  }

  lemma WithSix(t: Route, p: nat, u: Route)
    requires GoodRoute(t, p, 5) && GoodRoute(u, 6, 5) && t.leader == 0 && u.leader == 1 && !t.relay && !u.relay
    requires 1 in t.quorum && 2 in t.quorum && 1 in u.quorum && 2 in u.quorum
    ensures Compatible(RequirementOf(t, 8), RequirementOf(u, 8), 2) && Compatible(RequirementOf(u, 8), RequirementOf(t, 8), 2)
  {
    var a, b := RequirementOf(t, 8), RequirementOf(u, 8);
    forall w: nat | w < 3 ensures w in Witnesses(a, b) && w in Witnesses(b, a) { SixWitness(t, p, u, w); }
    assert |{0, 1, 2}| == 3;
    WitnessEnough(a, b, {0, 1, 2}, 2);
    WitnessEnough(b, a, {0, 1, 2}, 2);
  }

  lemma EveryoneCompatible(p: nat, q: nat)
    requires q < 5 && q < p < 8
    ensures Compatible(RequirementOf(ROUTES[p], 8), RequirementOf(ROUTES[q], 8), 2)
  {
    RoutesGood(p);
    RoutesGood(q);
    assert ROUTES[q].quorum == Below(5) by { assert {0, 1, 2, 3, 4} == Below(5); }
    CommonWitnesses(ROUTES[p], p, ROUTES[q], q);
  }

  lemma ClientsCompatible(p: nat, q: nat)
    requires 5 <= q < p < 8
    ensures Compatible(RequirementOf(ROUTES[p], 8), RequirementOf(ROUTES[q], 8), 2)
  {
    RoutesGood(p);
    RoutesGood(q);
    if p == 7 && q == 5 {
      CommonWitnesses(ROUTES[q], q, ROUTES[p], p);
    } else {
      var t := if p == 6 then q else p;
      WithSix(ROUTES[t], t, ROUTES[6]);
    }
  }

  lemma RoutesCompatible(p: nat, q: nat)
    requires q < p < 8
    ensures Compatible(RequirementOf(ROUTES[p], 8), RequirementOf(ROUTES[q], 8), 2)
  {
    if q < 5 { EveryoneCompatible(p, q); } else { ClientsCompatible(p, q); }
  }

  lemma ThePlanIsGood()
    ensures GoodPlan(ThePlan())
  {
    forall p: nat | p < 8 ensures GoodRoute(ROUTES[p], p, 5) { RoutesGood(p); }
    forall p: nat, q: nat | q < p < 8 ensures Compatible(RequirementOf(ROUTES[p], 8), RequirementOf(ROUTES[q], 8), 2) {
      RoutesCompatible(p, q);
    }
    TwoHopIsGood(ROUTES, 5);
  }

  // The voter between two clients

  const EARLY: Voter := FRESH.(
    fast := Some(Fast(7, 7)), participants := {7}, values := map[7 := 7], received := map[7 := {Edge(4, 1, 0)}],
    reports := map[0 := Report(0, Some(7), 0, 0, 0, Some(7)), 4 := Report(4, Some(7), 5, 0, 1, Some(7))])

  const TORN: Voter := FRESH.(
    fast := Some(Fast(7, 7)), frozen := true, conflict := true, participants := {5, 7}, promised := 5,
    values := map[5 := 5, 7 := 7], cursor := map[5 := 1], received := map[7 := {Edge(4, 1, 0)}, 5 := {Edge(5, 0, 0)}],
    reports := map[0 := Report(0, Some(7), 5, 0, 0, Some(7)), 4 := Report(4, Some(7), 5, 0, 1, Some(7))])

  const TAKEN: Voter := EARLY.(received := map[], reports := map[0 := Report(0, Some(7), 0, 0, 0, Some(7))])

  lemma FirstValue(plan: Plan)
    ensures GraphValue(plan, 0, FRESH, 7, 7) == TAKEN
  {
    assert {} + {7} == {7} && |{7}| == 1;
  }

  lemma InfersFour(plan: Plan)
    requires plan.voters == 5 && IsState(plan, 7, 4, 1)
    ensures Merge(plan, 0, TAKEN.(received := EARLY.received), Report(4, Some(7), 5, 0, 1, Some(7))) == EARLY
  {
    assert {7} + {7} == {7};
  }

  /** An answer that overtakes the client's message brings the value to a voter in its first state. */
  lemma TakesEarly(plan: Plan, q: set<nat>)
    requires Direct(plan, 7, 0, q) && 4 in q
    ensures Deliver(plan, 0, FRESH, Answer(4, 0, 7, 7)) == (EARLY, {})
  {
    var e := Edge(4, 1, 0);
    AnswerFits(plan, 7, 0, q, 4, 7);
    FirstValue(plan);
    assert ReceivedOf(TAKEN, 7) + {e} == {e};
    assert Implied(plan, 7, e, 4, 7) == Report(4, Some(7), 5, 0, 1, Some(7));
    InfersFour(plan);
    AbsorbsAnswer(plan, 0, 7, 4, 7, FRESH, TAKEN, TAKEN.(received := EARLY.received));
    assert Edge(7, 0, 0) !in ReceivedOf(EARLY, 7);
  }

  lemma {:induction false} DelegateZero(plan: Plan, ps: set<nat>, k: nat)
    requires k <= |plan.leaders| && forall p: nat :: p in ps && p < |plan.leaders| ==> plan.leaders[p] == 0
    ensures LeaderBelow(plan, ps, k) == 0
  {
    if k > 0 { DelegateZero(plan, ps, k - 1); }
  }

  const HALF: Voter := TORN.(cursor := map[], received := map[7 := {Edge(4, 1, 0)}])

  lemma SecondValue(plan: Plan)
    requires LeaderBelow(plan, {5, 7}, |plan.leaders|) == 0 && plan.voters == 5
    ensures GraphValue(plan, 0, EARLY, 5, 5) == HALF
  {
    assert {7} + {5} == {5, 7} && |{5, 7}| == 2;
  }

  lemma FrozenAgain(plan: Plan, x: Voter)
    requires LeaderBelow(plan, x.participants, |plan.leaders|) == 0 && plan.voters == 5 && x.participants != {}
    requires x.frozen && x.conflict && x.promised == 5 && 0 in x.reports && x.reports[0] == OwnReport(0, x)
    ensures FreezeConflict(plan, 0, x) == x
  {
    assert x.reports[0 := x.reports[0]] == x.reports;
  }

  lemma SecondMessage(plan: Plan)
    requires Direct(plan, 5, 0, {0, 1, 2}) && LeaderBelow(plan, {5, 7}, |plan.leaders|) == 0
    ensures Consume(plan, 0, HALF, Announced(5, 0, 5)) == TORN.(cursor := map[])
  {
    var e := Edge(5, 0, 0);
    var z := HALF.(received := HALF.received[5 := {e}]);
    InferNone(plan, 0, z, 5, e, 5, 0);
    assert {5, 7} + {5} == {5, 7} && |{5, 7}| == 2;
    assert ReceivedOf(HALF, 5) + {e} == {e};
    FrozenAgain(plan, z);
    assert z == TORN.(cursor := map[]);
  }

  lemma SecondState(plan: Plan)
    requires Direct(plan, 5, 0, {0, 1, 2})
    ensures Progress(plan, 0, TORN.(cursor := map[]), 5).0 == TORN
  {
    var t := TORN.(cursor := map[]);
    assert Ready(plan, 0, t, 5) && Enter(plan, 0, t, 5) == TORN;
    assert !Ready(plan, 0, TORN, 5) by {
      assert Edge(1, 1, 0) in AnswersTo(0, {0, 1, 2});
    }
    assert Advance(plan, 0, t, 5).0 == TORN;
  }

  /** A second client's message freezes it there. */
  lemma Freezes(plan: Plan, q: set<nat>)
    requires Direct(plan, 7, 0, q) && Direct(plan, 5, 0, {0, 1, 2})
    ensures Deliver(plan, 0, EARLY, Announced(5, 0, 5)).0 == TORN
  {
    var m := Announced(5, 0, 5);
    assert GraphInput(plan, 0, EARLY, m) by { assert m.edge in plan.graphs[5][0][1].deps; }
    DelegateZero(plan, {5, 7}, |plan.leaders|);
    SecondValue(plan);
    SecondMessage(plan);
    SecondState(plan);
  }

  // The census

  function Ballot10(w: nat, p: nat, time: nat): Report { Report(w, Some(p), 10, 0, time, Some(p)) }

  const BEGUN: Voter := TORN.(ballot := 5, phase := 1)

  const REFUSED: Voter := BEGUN.(promised := 6, reports := TORN.reports[0 := Report(0, Some(7), 6, 0, 0, Some(7))])

  const COORDINATOR: Voter := REFUSED.(ballot := 10)

  const PREPARED: Voter := COORDINATOR.(promised := 10, reports := TORN.reports[0 := Ballot10(0, 7, 0)])

  const REPORTS: map<nat, Report> := map[0 := Ballot10(0, 7, 0), 3 := Ballot10(3, 6, 1), 4 := Ballot10(4, 7, 1)]

  const PROMISED: Voter := PREPARED.(participants := {5, 6, 7}, values := map[5 := 5, 6 := 6, 7 := 7], reports := REPORTS)

  lemma BallotTen()
    ensures Owner(5, 5) == 0 && Owner(5, 10) == 0 && RecoveryBallot(5, 0, REFUSED) == 10
  {
    assert Owner(5, 10) == Owner(5, 5) == Owner(5, 0);
    assert NextRound(5, 6) == NextRound(5, 1) + 5;
  }

  /** A voter that has accepted a client's value tells so in its promise. */
  lemma Promises(plan: Plan, i: nat, x: Voter, p: nat)
    requires plan.voters == 5 && x.fast == Some(Fast(p, p)) && x.accepted == 0 && x.promised <= 10
    ensures var (y, out) := OnPrepare(plan, i, x, Prepare(0, 10));
      && Promise(i, 10, Ballot10(i, p, x.time)) in out
      && y == x.(promised := 10, frozen := true, conflict := true, reports := x.reports[i := Ballot10(i, p, x.time)])
  {
    BallotTen();
  }

  const LEARNED: Voter := PREPARED.(participants := {5, 6, 7}, values := map[5 := 5, 6 := 6, 7 := 7],
                                    reports := PREPARED.reports[3 := Ballot10(3, 6, 1)])

  lemma LearnsThird(plan: Plan)
    requires plan.voters == 5 && IsState(plan, 6, 3, 1)
    ensures OnPromise(plan, 0, PREPARED, Promise(3, 10, Ballot10(3, 6, 1))) == LEARNED
  {
    assert {5, 7} + {6} == {5, 6, 7};
  }

  lemma LearnsFourth(plan: Plan)
    requires plan.voters == 5 && IsState(plan, 7, 4, 1)
    ensures OnPromise(plan, 0, LEARNED, Promise(4, 10, Ballot10(4, 7, 1))) == PROMISED
  {
    assert {5, 6, 7} + {7} == {5, 6, 7};
    assert PREPARED.reports[3 := Ballot10(3, 6, 1)][4 := Ballot10(4, 7, 1)] == REPORTS;
    assert LEARNED.values[7 := 7] == LEARNED.values;
  }

  /** What the three voters know of themselves does not meet the commit quorum of client 5. */
  ghost predicate Misses(plan: Plan) {
    && Shaped(plan) && plan.voters == 5 && |plan.reqs| == 8 && CommitQuorum(plan, 5) == {0, 1, 2}
    && IsState(plan, 7, 0, 0) && IsState(plan, 6, 3, 1) && IsState(plan, 7, 4, 1)
    && Knows(plan, 7, 0, 0, 0) == {} && Knows(plan, 6, 3, 1, 3) == {3} && Knows(plan, 7, 4, 1, 4) == {4}
  }

  /** A voter outside a quorum that knows at most of itself does not refute its proposer. */
  lemma Unrefuting(plan: Plan, w: nat, p: nat, time: nat)
    requires Shaped(plan) && 5 < |plan.reqs| && p != 5 && w < plan.voters && IsState(plan, p, w, time)
    requires Knows(plan, p, w, time, w) * CommitQuorum(plan, 5) == {}
    ensures !Refutes(plan, 5, Ballot10(w, p, time))
  {
  }

  lemma FivePossible(plan: Plan)
    requires Misses(plan)
    ensures WellReported(plan, REPORTS) && Possible(plan, REPORTS, 5)
  {
    assert {3} * {0, 1, 2} == {} && {4} * {0, 1, 2} == {};
    Unrefuting(plan, 0, 7, 0);
    Unrefuting(plan, 3, 6, 1);
    Unrefuting(plan, 4, 7, 1);
  }

  lemma FirstPossible(plan: Plan, reports: map<nat, Report>, values: map<nat, Value>, p: nat)
    requires Shaped(plan) && WellReported(plan, reports) && NoneAccepted(reports) && forall q :: q in values ==> q < |plan.reqs|
    requires p in values && Possible(plan, reports, p) && forall q :: q in values ==> q >= p
    ensures Adopts(plan, reports, values, Some(values[p]))
  {
  }

  lemma EnoughPromises(plan: Plan)
    requires plan.voters == 5
    ensures CanCensus(plan, PROMISED)
  {
    assert PromisedAt(plan, REPORTS, 10) == {0, 3, 4} && |{0, 3, 4}| == 3;
  }

  lemma KnownClients()
    ensures 5 in PROMISED.values && PROMISED.values[5] == 5 && NoneAccepted(REPORTS)
    ensures forall q :: q in PROMISED.values ==> 5 <= q < 8
  {
  }

  lemma AdoptsFive(plan: Plan)
    requires Misses(plan)
    ensures CanCensus(plan, PROMISED) && CensusSelects(plan, PROMISED, 5)
  {
    FivePossible(plan);
    EnoughPromises(plan);
    KnownClients();
    FirstPossible(plan, PROMISED.reports, PROMISED.values, 5);
  }

  /** The coordinator after its selection, with the voters that have accepted. */
  ghost predicate Counts(x: Voter, acks: set<nat>) {
    x.phase == 2 && x.ballot == 10 && x.promised == 10 && x.selected == Some(5) && x.acks == acks && x.decided.None?
  }

  lemma AcceptsFive(plan: Plan, i: nat, x: Voter)
    requires plan.voters == 5 && x.promised <= 10
    ensures Accepted(i, 10, 5) in OnAccept(plan, i, x, Accept(0, 10, 5)).1
    ensures x.promised == 10 ==> forall acks :: Counts(x, acks) ==> Counts(OnAccept(plan, i, x, Accept(0, 10, 5)).0, acks)
  {
    BallotTen();
  }

  lemma CountsMore(plan: Plan, x: Voter, acks: set<nat>, w: nat)
    requires plan.voters == 5 && Counts(x, acks) && w < 5
    ensures var y := OnAccepted(plan, 0, x, Accepted(w, 10, 5)).0;
      if |acks + {w}| < 3 then Counts(y, acks + {w}) else y.decided == Some(5)
  {
  }

  // The run

  /** A set of systems that holds the first one and every step from its members. */
  ghost predicate Closed(plan: Plan, X: iset<System>) {
    && (forall S :: InitSystem(plan, S) ==> S in X)
    && (forall S, T :: S in X && Next(plan, S, T) ==> T in X)
  }

  ghost predicate Reachable(plan: Plan, S: System) {
    forall X: iset<System> :: Closed(plan, X) ==> S in X
  }

  lemma Start(plan: Plan) returns (S: System)
    requires plan.voters == 5
    ensures Reachable(plan, S) && S == System([FRESH, FRESH, FRESH, FRESH, FRESH], {}, map[])
  {
    S := System([FRESH, FRESH, FRESH, FRESH, FRESH], {}, map[]);
    assert InitSystem(plan, S);
  }

  lemma Extends(plan: Plan, S: System, T: System)
    requires Reachable(plan, S) && Next(plan, S, T)
    ensures Reachable(plan, T)
  {
    forall X: iset<System> | Closed(plan, X) ensures T in X { assert S in X; }
  }

  lemma Longer(plan: Plan, run: seq<System>, T: System)
    requires IsRun(plan, run) && Next(plan, run[|run| - 1], T)
    ensures IsRun(plan, run + [T])
  {
    var more := run + [T];
    forall k | 0 < k < |more| ensures Next(plan, more[k - 1], more[k]) {
      if k < |run| { assert Next(plan, run[k - 1], run[k]); }
    }
  }

  ghost predicate EndsRun(plan: Plan, run: seq<System>, T: System) { IsRun(plan, run) && run[|run| - 1] == T }

  ghost function RunEnds(plan: Plan): iset<System> { iset T, run | EndsRun(plan, run, T) :: T }

  lemma RunsStart(plan: Plan, T: System)
    requires GoodPlan(plan) && InitSystem(plan, T)
    ensures T in RunEnds(plan)
  {
    assert EndsRun(plan, [T], T);
  }

  lemma RunsGrow(plan: Plan, T: System, U: System)
    requires T in RunEnds(plan) && Next(plan, T, U)
    ensures U in RunEnds(plan)
  {
    var run :| EndsRun(plan, run, T);
    Longer(plan, run, U);
    assert EndsRun(plan, run + [U], U);
  }

  /** What is reachable is the last system of a run. */
  lemma ReachedByRun(plan: Plan, S: System) returns (run: seq<System>)
    requires GoodPlan(plan) && Reachable(plan, S)
    ensures IsRun(plan, run) && run[|run| - 1] == S
  {
    forall T | InitSystem(plan, T) ensures T in RunEnds(plan) { RunsStart(plan, T); }
    forall T, U | T in RunEnds(plan) && Next(plan, T, U) ensures U in RunEnds(plan) { RunsGrow(plan, T, U); }
    assert Closed(plan, RunEnds(plan));
    run :| EndsRun(plan, run, S);
  }

  lemma Announces(plan: Plan, S: System, p: nat, l: nat, q: set<nat>) returns (T: System)
    requires Reachable(plan, S) && Direct(plan, p, l, q) && p !in S.proposals
    ensures Reachable(plan, T) && T.voters == S.voters && S.net <= T.net && T.proposals == S.proposals[p := p]
    ensures forall v: nat :: v < 5 ==> Announced(p, v, p) in T.net
  {
    T := System(S.voters, S.net + (set e | e in Outgoing(plan, p, p, 0) :: Spread(p, p, e, false, {p}, [], p)), S.proposals[p := p]);
    assert ClientStep(plan, S, T, p, p);
    Extends(plan, S, T);
    forall v: nat | v < 5 ensures Announced(p, v, p) in T.net {
      assert Edge(p, 0, v) in plan.graphs[p][v][1].deps;
      assert Edge(p, 0, v) in Outgoing(plan, p, p, 0);
    }
  }

  ghost predicate Running(plan: Plan, S: System) {
    Shaped(plan) && plan.voters == 5 && |plan.reqs| == 8 && Reachable(plan, S) && |S.voters| == 5
  }

  lemma Steps(plan: Plan, S: System, i: nat, a: Action, y: Voter, out: set<Msg>) returns (T: System)
    requires Running(plan, S) && i < 5 && !a.Proposes? && Acts(plan, i, S.voters[i], S.net, a, y, out)
    ensures Running(plan, T) && T == System(S.voters[i := y], S.net + out, S.proposals)
  {
    T := System(S.voters[i := y], S.net + out, S.proposals);
    assert VoterStep(plan, S, T, i, a, out);
    Extends(plan, S, T);
  }

  lemma Receives(plan: Plan, S: System, i: nat, m: Msg) returns (T: System)
    requires Running(plan, S) && i < 5 && m in S.net && S.voters[i].decided.None?
    ensures Running(plan, T) && S.net <= T.net && Deliver(plan, i, S.voters[i], m).1 <= T.net
    ensures T.voters == S.voters[i := Deliver(plan, i, S.voters[i], m).0]
  {
    T := Steps(plan, S, i, Receive(m), Deliver(plan, i, S.voters[i], m).0, Deliver(plan, i, S.voters[i], m).1);
  }

  const Q6: set<nat> := {1, 2, 3}
  const Q7: set<nat> := {0, 1, 2, 4}

  ghost predicate HasAll(S: System, p: nat) { forall v: nat :: v < 5 ==> Announced(p, v, p) in S.net }

  lemma Opening(plan: Plan) returns (S: System)
    requires Direct(plan, 5, 0, {0, 1, 2}) && Direct(plan, 6, 1, Q6) && Direct(plan, 7, 0, Q7)
    ensures Running(plan, S) && S.voters == [FRESH, FRESH, FRESH, FRESH, FRESH] && HasAll(S, 5) && HasAll(S, 6) && HasAll(S, 7)
  {
    S := Start(plan);
    S := Announces(plan, S, 6, 1, Q6);
    S := Announces(plan, S, 7, 0, Q7);
    S := Announces(plan, S, 5, 0, {0, 1, 2});
  }

  /** A voter that has heard nothing hears a client. */
  lemma Hears(plan: Plan, S: System, p: nat, l: nat, q: set<nat>, v: nat) returns (T: System)
    requires Direct(plan, p, l, q) && Running(plan, S) && v < 5 && S.voters[v] == FRESH && HasAll(S, p)
    ensures Running(plan, T) && S.net <= T.net && T.voters == S.voters[v := Heard(l, v, p, p)]
    ensures v != l && v in q ==> Answer(v, l, p, p) in T.net
  {
    var _ := HearsClient(plan, p, l, q, v, p);
    T := Receives(plan, S, v, Announced(p, v, p));
  }

  /** Voters 1, 2 and 3 hear client 6. */
  lemma SixHeard(plan: Plan, S: System) returns (T: System)
    requires Direct(plan, 6, 1, Q6) && Running(plan, S) && S.voters == [FRESH, FRESH, FRESH, FRESH, FRESH] && HasAll(S, 6)
    ensures Running(plan, T) && S.net <= T.net
    ensures T.voters == [FRESH, Heard(1, 1, 6, 6), Heard(1, 2, 6, 6), Heard(1, 3, 6, 6), FRESH]
    ensures Answer(2, 1, 6, 6) in T.net && Answer(3, 1, 6, 6) in T.net
  {
    T := Hears(plan, S, 6, 1, Q6, 1);
    T := Hears(plan, T, 6, 1, Q6, 2);
    T := Hears(plan, T, 6, 1, Q6, 3);
  }

  lemma FirstAnswer(plan: Plan, S: System) returns (T: System)
    requires Direct(plan, 6, 1, Q6) && Running(plan, S) && Waits(S.voters[1], 6, 6, {Edge(6, 0, 1)}) && Answer(2, 1, 6, 6) in S.net
    ensures Running(plan, T) && S.net <= T.net && T.voters == S.voters[1 := T.voters[1]]
    ensures Waits(T.voters[1], 6, 6, {Edge(6, 0, 1)} + {Edge(2, 1, 1)})
  {
    assert Edge(3, 1, 1) in AnswersTo(1, Q6);
    HearsAnswer(plan, 6, 1, Q6, 2, 6, S.voters[1], {Edge(6, 0, 1)});
    T := Receives(plan, S, 1, Answer(2, 1, 6, 6));
  }

  lemma LastAnswer(plan: Plan, S: System) returns (T: System)
    requires Direct(plan, 6, 1, Q6) && Running(plan, S) && Answer(3, 1, 6, 6) in S.net
    requires Waits(S.voters[1], 6, 6, {Edge(6, 0, 1)} + {Edge(2, 1, 1)})
    ensures Running(plan, T) && S.net <= T.net && T.voters == S.voters[1 := T.voters[1]] && T.voters[1].decided == Some(6)
  {
    assert AnswersTo(1, Q6) == {Edge(2, 1, 1), Edge(3, 1, 1)};
    HearsLastAnswer(plan, 6, 1, Q6, 3, 6, S.voters[1], {Edge(6, 0, 1)} + {Edge(2, 1, 1)});
    T := Receives(plan, S, 1, Answer(3, 1, 6, 6));
  }

  /** Voter 1 hears the answers and decides the value of client 6. */
  lemma SixDecided(plan: Plan, S: System) returns (T: System)
    requires Direct(plan, 6, 1, Q6) && Running(plan, S) && S.voters[1] == Heard(1, 1, 6, 6)
    requires Answer(2, 1, 6, 6) in S.net && Answer(3, 1, 6, 6) in S.net
    ensures Running(plan, T) && S.net <= T.net && T.voters == S.voters[1 := T.voters[1]] && T.voters[1].decided == Some(6)
  {
    assert Waits(S.voters[1], 6, 6, {Edge(6, 0, 1)});
    T := FirstAnswer(plan, S);
    T := LastAnswer(plan, T);
  }

  lemma Overtaken(plan: Plan, S: System) returns (T: System)
    requires Direct(plan, 7, 0, Q7) && Running(plan, S) && S.voters[0] == FRESH && Answer(4, 0, 7, 7) in S.net
    ensures Running(plan, T) && S.net <= T.net && T.voters == S.voters[0 := EARLY]
  {
    TakesEarly(plan, Q7);
    T := Receives(plan, S, 0, Answer(4, 0, 7, 7));
  }

  lemma Tears(plan: Plan, S: System) returns (T: System)
    requires Direct(plan, 7, 0, Q7) && Direct(plan, 5, 0, {0, 1, 2})
    requires Running(plan, S) && S.voters[0] == EARLY && Announced(5, 0, 5) in S.net
    ensures Running(plan, T) && S.net <= T.net && T.voters == S.voters[0 := TORN]
  {
    Freezes(plan, Q7);
    T := Receives(plan, S, 0, Announced(5, 0, 5));
  }

  /** Voter 0 hears an answer for client 7, then client 5. */
  lemma ZeroTorn(plan: Plan, S: System) returns (T: System)
    requires Direct(plan, 7, 0, Q7) && Direct(plan, 5, 0, {0, 1, 2}) && Running(plan, S)
    requires S.voters[0] == FRESH && S.voters[4] == FRESH && HasAll(S, 7) && HasAll(S, 5)
    ensures Running(plan, T) && S.net <= T.net && T.voters == S.voters[0 := TORN][4 := Heard(0, 4, 7, 7)]
  {
    T := Hears(plan, S, 7, 0, Q7, 4);
    T := Overtaken(plan, T);
    T := Tears(plan, T);
  }

  /** Voter 0, the conflict leader, starts its first ballot. */
  lemma ZeroBegins(plan: Plan, S: System) returns (T: System)
    requires Running(plan, S) && S.voters[0] == TORN
    ensures Running(plan, T) && S.net <= T.net && Prepare(0, 5) in T.net && T.voters == S.voters[0 := BEGUN]
  {
    assert CanStartInitial(plan, 0, TORN);
    T := Steps(plan, S, 0, StartInitial, BeginCensus(TORN, 5), {});
    assert BeginCensus(TORN, 5) == BEGUN;
    T := Steps(plan, T, 0, Retry, BEGUN, {Prepare(0, 5)});
    assert T.voters == S.voters[0 := BEGUN];
  }

  /** Voter 3, frozen for a higher ballot, refuses it. */
  lemma ThreeRefuses(plan: Plan, S: System) returns (T: System)
    requires Running(plan, S) && Prepare(0, 5) in S.net && S.voters[3] == Heard(1, 3, 6, 6)
    ensures Running(plan, T) && S.net <= T.net && Nack(3, 6) in T.net && T.voters == S.voters
  {
    BallotTen();
    T := Receives(plan, S, 3, Prepare(0, 5));
    assert T.voters == S.voters;
  }

  lemma ZeroRefused(plan: Plan, S: System) returns (T: System)
    requires Running(plan, S) && Nack(3, 6) in S.net && S.voters[0] == BEGUN
    ensures Running(plan, T) && S.net <= T.net && T.voters == S.voters[0 := REFUSED]
  {
    T := Receives(plan, S, 0, Nack(3, 6));
  }

  /** Voter 0 moves on to its next ballot. */
  lemma ZeroLeads(plan: Plan, S: System) returns (T: System)
    requires Running(plan, S) && S.voters[0] == TORN && S.voters[3] == Heard(1, 3, 6, 6)
    ensures Running(plan, T) && S.net <= T.net && Prepare(0, 10) in T.net && T.voters == S.voters[0 := COORDINATOR]
  {
    T := ZeroBegins(plan, S);
    T := ThreeRefuses(plan, T);
    T := ZeroRefused(plan, T);
    BallotTen();
    assert BeginCensus(REFUSED, 10) == COORDINATOR;
    T := Steps(plan, T, 0, StartRecovery, COORDINATOR, {Prepare(0, 10)});
    assert T.voters == S.voters[0 := COORDINATOR];
  }

  lemma PromisesTen(plan: Plan, S: System, i: nat, p: nat) returns (T: System)
    requires Running(plan, S) && Prepare(0, 10) in S.net && i < 5
    requires S.voters[i].fast == Some(Fast(p, p)) && S.voters[i].accepted == 0 && S.voters[i].promised <= 10 && S.voters[i].decided.None?
    ensures Running(plan, T) && S.net <= T.net && Promise(i, 10, Ballot10(i, p, S.voters[i].time)) in T.net
    ensures var x := S.voters[i];
      T.voters == S.voters[i := x.(promised := 10, frozen := true, conflict := true, reports := x.reports[i := Ballot10(i, p, x.time)])]
  {
    Promises(plan, i, S.voters[i], p);
    T := Receives(plan, S, i, Prepare(0, 10));
  }

  lemma LearnsThree(plan: Plan, S: System) returns (T: System)
    requires Misses(plan) && Running(plan, S) && S.voters[0] == PREPARED && Promise(3, 10, Ballot10(3, 6, 1)) in S.net
    ensures Running(plan, T) && S.net <= T.net && T.voters == S.voters[0 := LEARNED]
  {
    LearnsThird(plan);
    T := Receives(plan, S, 0, Promise(3, 10, Ballot10(3, 6, 1)));
  }

  lemma LearnsFour(plan: Plan, S: System) returns (T: System)
    requires Misses(plan) && Running(plan, S) && S.voters[0] == LEARNED && Promise(4, 10, Ballot10(4, 7, 1)) in S.net
    ensures Running(plan, T) && S.net <= T.net && T.voters == S.voters[0 := PROMISED]
  {
    LearnsFourth(plan);
    T := Receives(plan, S, 0, Promise(4, 10, Ballot10(4, 7, 1)));
  }

  ghost predicate Promised10(x: Voter) { x.promised == 10 && x.decided.None? }

  /** Voters 0, 3 and 4 promise ballot 10, and voter 0 learns it. */
  lemma TenPromised(plan: Plan, S: System) returns (T: System)
    requires Misses(plan) && Running(plan, S) && Prepare(0, 10) in S.net
    requires S.voters[0] == COORDINATOR && S.voters[3] == Heard(1, 3, 6, 6) && S.voters[4] == Heard(0, 4, 7, 7)
    ensures Running(plan, T) && T.voters[0] == PROMISED && T.voters[1] == S.voters[1]
    ensures Promised10(T.voters[3]) && Promised10(T.voters[4])
  {
    T := PromisesTen(plan, S, 0, 7);
    assert T.voters[0] == PREPARED;
    T := PromisesTen(plan, T, 3, 6);
    T := PromisesTen(plan, T, 4, 7);
    T := LearnsThree(plan, T);
    T := LearnsFour(plan, T);
  }

  lemma AcceptsTen(plan: Plan, S: System, i: nat) returns (T: System)
    requires Running(plan, S) && Accept(0, 10, 5) in S.net && i < 5 && Promised10(S.voters[i])
    ensures Running(plan, T) && S.net <= T.net && Accepted(i, 10, 5) in T.net && T.voters == S.voters[i := T.voters[i]]
    ensures Counts(S.voters[i], {}) ==> Counts(T.voters[i], {})
  {
    AcceptsFive(plan, i, S.voters[i]);
    T := Receives(plan, S, i, Accept(0, 10, 5));
  }

  /** The census selects client 5's value. */
  lemma FiveSelected(plan: Plan, S: System) returns (T: System)
    requires Misses(plan) && Running(plan, S) && S.voters[0] == PROMISED
    ensures Running(plan, T) && S.net <= T.net && Accept(0, 10, 5) in T.net
    ensures Counts(T.voters[0], {}) && T.voters == S.voters[0 := T.voters[0]]
  {
    AdoptsFive(plan);
    T := Steps(plan, S, 0, Census(5), Select(0, PROMISED, 5).0, {Accept(0, 10, 5)});
  }

  lemma FiveAccepted(plan: Plan, S: System) returns (T: System)
    requires Misses(plan) && Running(plan, S) && S.voters[0] == PROMISED && Promised10(S.voters[3]) && Promised10(S.voters[4])
    ensures Running(plan, T) && Counts(T.voters[0], {}) && T.voters[1] == S.voters[1]
    ensures Accepted(0, 10, 5) in T.net && Accepted(3, 10, 5) in T.net && Accepted(4, 10, 5) in T.net
  {
    T := FiveSelected(plan, S);
    T := AcceptsTen(plan, T, 0);
    T := AcceptsTen(plan, T, 3);
    T := AcceptsTen(plan, T, 4);
  }

  lemma CountsTen(plan: Plan, S: System, acks: set<nat>, w: nat) returns (T: System)
    requires Running(plan, S) && Counts(S.voters[0], acks) && w < 5 && Accepted(w, 10, 5) in S.net
    ensures Running(plan, T) && S.net <= T.net && T.voters == S.voters[0 := T.voters[0]]
    ensures if |acks + {w}| < 3 then Counts(T.voters[0], acks + {w}) else T.voters[0].decided == Some(5)
  {
    CountsMore(plan, S.voters[0], acks, w);
    T := Receives(plan, S, 0, Accepted(w, 10, 5));
  }

  /** Voter 0 hears that three voters have accepted and decides client 5's value. */
  lemma FiveDecided(plan: Plan, S: System) returns (T: System)
    requires Running(plan, S) && Counts(S.voters[0], {})
    requires Accepted(0, 10, 5) in S.net && Accepted(3, 10, 5) in S.net && Accepted(4, 10, 5) in S.net
    ensures Running(plan, T) && T.voters[0].decided == Some(5) && T.voters[1] == S.voters[1]
  {
    assert {} + {0} == {0} && {0} + {3} == {0, 3} && {0, 3} + {4} == {0, 3, 4};
    assert |{0}| == 1 && |{0, 3}| == 2 && |{0, 3, 4}| == 3;
    T := CountsTen(plan, S, {}, 0);
    T := CountsTen(plan, T, {0}, 3);
    T := CountsTen(plan, T, {0, 3}, 4);
  }

  // The plan's facts

  lemma CommitQuorumOf(ts: seq<Route>, n: nat, p: nat)
    requires HopPlan(ts, n) && p < |ts|
    ensures |TwoHop(ts, n).reqs| == |ts| && CommitQuorum(TwoHop(ts, n), p) == ts[p].quorum
  {
    LeaderVotes(ts[p], p, n);
    HopParts(ts, n, p);
    HopIsState(ts, n, p, ts[p].leader);
    HopState(ts, n, p, ts[p].leader, Turn(ts[p], p) + 1);
  }

  /** A voter that has the value from a client, and no answers, knows at most of itself. */
  lemma KnowsSelf(ts: seq<Route>, n: nat, v: nat, p: nat, j: nat)
    requires HopPlan(ts, n) && n <= p < |ts| && v < n && j < 2 && !ts[p].relay
    ensures v < |TwoHop(ts, n).reqs| && IsState(TwoHop(ts, n), p, v, j)
    ensures Knows(TwoHop(ts, n), p, v, j, v) == if j == 0 then {} else {v}
  {
    HopParts(ts, n, p);
    LeaderVotes(ts[p], p, n);
    HopIsState(ts, n, p, v);
    HopState(ts, n, p, v, j);
  }

  lemma TheRoutesGood()
    ensures GoodRoutes(ROUTES, 5)
  {
    forall p: nat | p < 8 ensures GoodRoute(ROUTES[p], p, 5) { RoutesGood(p); }
    forall p: nat, q: nat | q < p < 8 ensures Compatible(RequirementOf(ROUTES[p], 8), RequirementOf(ROUTES[q], 8), 2) {
      RoutesCompatible(p, q);
    }
  }

  lemma TheClients()
    ensures |ROUTES| == 8
    ensures ROUTES[5] == Route(0, {0, 1, 2}, false) && ROUTES[6] == Route(1, {1, 2, 3}, false) && ROUTES[7] == Route(0, {0, 1, 2, 4}, false)
  {
  }

  lemma ThePlanMisses()
    requires HopPlan(ROUTES, 5)
    ensures Misses(ThePlan())
  {
    TheClients();
    CommitQuorumOf(ROUTES, 5, 5);
    KnowsSelf(ROUTES, 5, 0, 7, 0);
    KnowsSelf(ROUTES, 5, 3, 6, 1);
    KnowsSelf(ROUTES, 5, 4, 7, 1);
  }

  lemma ThePlanDirect()
    requires GoodRoutes(ROUTES, 5)
    ensures Direct(ThePlan(), 5, 0, {0, 1, 2}) && Direct(ThePlan(), 6, 1, Q6) && Direct(ThePlan(), 7, 0, Q7)
  {
    TheClients();
    HopIsDirect(ROUTES, 5);
    HopIsDirect(ROUTES, 6);
    HopIsDirect(ROUTES, 7);
  }

  lemma DecidesTwice(plan: Plan) returns (S: System)
    requires Direct(plan, 5, 0, {0, 1, 2}) && Direct(plan, 6, 1, Q6) && Direct(plan, 7, 0, Q7) && Misses(plan)
    ensures Running(plan, S) && S.voters[0].decided == Some(5) && S.voters[1].decided == Some(6)
  {
    S := Opening(plan);
    S := SixHeard(plan, S);
    S := SixDecided(plan, S);
    S := ZeroTorn(plan, S);
    S := ZeroLeads(plan, S);
    S := TenPromised(plan, S);
    S := FiveAccepted(plan, S);
    S := FiveDecided(plan, S);
  }

  /**
    With three proposers the program's rule is not enough: a plan that meets every planning
    hypothesis has a run in which two voters decide differently, one by a completed schedule and
    one in a ballot whose census adopted another value.
  */
  lemma ThirdProposerMisleads() returns (run: seq<System>)
    ensures IsRun(ThePlan(), run) && |run[|run| - 1].voters| == 5
    ensures run[|run| - 1].voters[0].decided == Some(5) && run[|run| - 1].voters[1].decided == Some(6)
    ensures !TrustedTo(ThePlan(), run, |run| - 1)
  {
    TheRoutesGood();
    HopShaped(ROUTES, 5);
    ThePlanIsGood();
    ThePlanDirect();
    ThePlanMisses();
    var S := DecidesTwice(ThePlan());
    run := ReachedByRun(ThePlan(), S);
    var last := |run| - 1;
    if TrustedTo(ThePlan(), run, last) { DecisionsAgree(ThePlan(), run, last, 0, last, 1); }
  }
}
