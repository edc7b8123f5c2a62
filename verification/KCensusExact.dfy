/**
  When a selection is safe, exactly.

  The evidence of a census *places* a voter in a state of a schedule when a report says so, when the
  proposer is a known voter, when a voter placed elsewhere believes so there, or when the voter has
  accepted and owes the schedule nothing but its final state. It *rules out* a proposer when it
  places a voter of its commit quorum in another schedule, or finds one frozen short of its final
  state. A proposer that is not ruled out is unblocked in some system that satisfies the whole
  invariant and makes every report true, so a census may select a value if and only if the
  proposers of all others are ruled out.
*/
module KCensusExact {
  import opened KCensusPlan
  import opened KCensus
  import opened KCensusSystem
  import opened KCensusSafety
  import opened KCensusCensus
  import opened Quorums

  // What evidence tells

  /** A voter in state `t` believes voter `u` to have accepted, and to have entered state `j` if it is not the first. */
  predicate TellsOf(plan: Plan, q: nat, w: nat, t: nat, u: nat, j: nat)
    requires Shaped(plan) && IsState(plan, q, w, t)
  {
    || (u < plan.voters && 0 < Remote(plan, q, w, t, u) && j <= Remote(plan, q, w, t, u))
    || (j == 0 && Believes(plan, q, w, t, u))
  }

  predicate PlacedAtOnce(plan: Plan, reports: map<nat, Report>, values: map<nat, Value>, q: nat, u: nat, j: nat) {
    || (u in reports && reports[u].proposer == Some(q) && j <= reports[u].time)
    || (u == q && q in values && q < plan.voters && j == 0)
  }

  /** A voter outside the quorum enters its final state as it accepts. */
  predicate Owes(plan: Plan, q: nat, u: nat, j: nat)
    requires Shaped(plan)
  {
    u < plan.voters && q < |plan.reqs| && u !in Quorum(plan.reqs[q]) && j <= Last(plan, q, u)
  }

  /** The evidence places `u` in state `j` of the schedule of `q`, by `k` conclusions. */
  ghost predicate PlacedBy(plan: Plan, reports: map<nat, Report>, values: map<nat, Value>, q: nat, u: nat, j: nat, k: nat)
    requires Shaped(plan)
    decreases k
  {
    if k == 0 then PlacedAtOnce(plan, reports, values, q, u, j)
    else
      || (Owes(plan, q, u, j) && PlacedBy(plan, reports, values, q, u, 0, k - 1))
      || (exists w: nat, t: nat :: IsState(plan, q, w, t) && PlacedBy(plan, reports, values, q, w, t, k - 1) && TellsOf(plan, q, w, t, u, j))
  }

  ghost predicate Placed(plan: Plan, reports: map<nat, Report>, values: map<nat, Value>, q: nat, u: nat, j: nat)
    requires Shaped(plan)
  {
    exists k: nat :: PlacedBy(plan, reports, values, q, u, j, k)
  }

  /** A frozen report of a voter that will not enter its final state for `p`. */
  predicate FrozenShort(plan: Plan, p: nat, w: nat, r: Report)
    requires Shaped(plan) && p < |plan.reqs| && w < plan.voters
  {
    Frozen(r) && if r.proposer == Some(p) then r.time != Last(plan, p, w) else r.proposer.None? && w in CommitQuorum(plan, p)
  }

  ghost predicate RuledOut(plan: Plan, reports: map<nat, Report>, values: map<nat, Value>, p: nat)
    requires Shaped(plan) && p < |plan.reqs| && WellReported(plan, reports)
  {
    || (exists q: nat, u: nat :: q != p && u in CommitQuorum(plan, p) && Placed(plan, reports, values, q, u, 0))
    || (exists w :: w in reports && FrozenShort(plan, p, w, reports[w]))
  }

  /** The evidence rules out every known proposer of a value other than `v`. */
  ghost predicate Sure(plan: Plan, reports: map<nat, Report>, values: map<nat, Value>, v: Value)
    requires Shaped(plan) && WellReported(plan, reports) && forall p :: p in values ==> p < |plan.reqs|
  {
    forall p :: p in values && values[p] != v ==> RuledOut(plan, reports, values, p)
  }

  // It is true

  lemma ReportedReached(plan: Plan, S: System, reports: map<nat, Report>, values: map<nat, Value>, b: nat, q: nat, u: nat, j: nat)
    requires FrozenCensus(plan, S, reports, values, b) && u in reports && reports[u].proposer == Some(q) && j <= reports[u].time
    ensures q in values && u < plan.voters && IsState(plan, q, u, j) && Reached(S, u, q, j)
  {
    assert TrueReport(plan, S, reports[u]);
  }

  lemma KnownReached(plan: Plan, S: System, reports: map<nat, Report>, values: map<nat, Value>, b: nat, q: nat)
    requires FrozenCensus(plan, S, reports, values, b) && q in values && q < plan.voters
    ensures IsState(plan, q, q, 0) && Reached(S, q, q, 0)
  {
    assert FastInv(plan, S, q) by { assert VoterInv(plan, S, q); }
  }

  /** What holds of a voter's state in a schedule. */
  lemma AtState(plan: Plan, S: System, q: nat, u: nat, j: nat)
    requires Inv(plan, S) && Reached(S, u, q, j)
    ensures u < plan.voters && q < |plan.reqs| && IsState(plan, q, u, j) && Sound(plan, S, q, u, j)
    ensures u !in Quorum(plan.reqs[q]) ==> Reached(S, u, q, Last(plan, q, u))
  {
    assert FastInv(plan, S, u) && CauseInv(plan, S, u) by { assert VoterInv(plan, S, u); }
    assert Prompt(plan, S.voters[u], u);
  }

  lemma TellsReached(plan: Plan, S: System, q: nat, w: nat, t: nat, u: nat, j: nat)
    requires Inv(plan, S) && IsState(plan, q, w, t) && Reached(S, w, q, t) && TellsOf(plan, q, w, t, u, j)
    ensures u < plan.voters && IsState(plan, q, u, j) && Reached(S, u, q, j)
  {
    AtState(plan, S, q, w, t);
    AtState(plan, S, q, u, j);
  }

  lemma OwesReached(plan: Plan, S: System, q: nat, u: nat, j: nat)
    requires Inv(plan, S) && Owes(plan, q, u, j) && Reached(S, u, q, 0)
    ensures IsState(plan, q, u, j) && Reached(S, u, q, j)
  {
    AtState(plan, S, q, u, 0);
    AtState(plan, S, q, u, j);
  }

  ghost predicate ClosedPlaces(plan: Plan, reports: map<nat, Report>, values: map<nat, Value>, X: iset<(nat, nat, nat)>)
    requires Shaped(plan)
  {
    && (forall q: nat, u: nat, j: nat :: PlacedAtOnce(plan, reports, values, q, u, j) ==> (q, u, j) in X)
    && (forall q: nat, u: nat, j: nat :: Owes(plan, q, u, j) && (q, u, 0) in X ==> (q, u, j) in X)
    && (forall q: nat, w: nat, t: nat, u: nat, j: nat ::
          (q, w, t) in X && IsState(plan, q, w, t) && TellsOf(plan, q, w, t, u, j) ==> (q, u, j) in X)
  }

  lemma {:induction false} PlacedIn(plan: Plan, reports: map<nat, Report>, values: map<nat, Value>, X: iset<(nat, nat, nat)>,
                                    q: nat, u: nat, j: nat, k: nat)
    requires Shaped(plan) && ClosedPlaces(plan, reports, values, X) && PlacedBy(plan, reports, values, q, u, j, k)
    ensures (q, u, j) in X
    decreases k
  {
    if k > 0 {
      if Owes(plan, q, u, j) && PlacedBy(plan, reports, values, q, u, 0, k - 1) {
        PlacedIn(plan, reports, values, X, q, u, 0, k - 1);
      } else {
        var w: nat, t: nat :| IsState(plan, q, w, t) && PlacedBy(plan, reports, values, q, w, t, k - 1) && TellsOf(plan, q, w, t, u, j);
        PlacedIn(plan, reports, values, X, q, w, t, k - 1);
      }
    }
  }

  ghost predicate IsThere(plan: Plan, S: System, values: map<nat, Value>, q: nat, u: nat, j: nat)
    requires Shaped(plan)
  {
    q in values && u < plan.voters && IsState(plan, q, u, j) && Reached(S, u, q, j)
  }

  lemma AtOnceThere(plan: Plan, S: System, reports: map<nat, Report>, values: map<nat, Value>, b: nat, q: nat, u: nat, j: nat)
    requires FrozenCensus(plan, S, reports, values, b) && PlacedAtOnce(plan, reports, values, q, u, j)
    ensures IsThere(plan, S, values, q, u, j)
  {
    if u in reports && reports[u].proposer == Some(q) && j <= reports[u].time {
      ReportedReached(plan, S, reports, values, b, q, u, j);
    } else {
      KnownReached(plan, S, reports, values, b, q);
    }
  }

  ghost function Places(plan: Plan, S: System, values: map<nat, Value>): iset<(nat, nat, nat)>
    requires Shaped(plan)
  {
    iset q: nat, u: nat, j: nat | IsThere(plan, S, values, q, u, j) :: (q, u, j)
  }

  lemma TellsThere(plan: Plan, S: System, values: map<nat, Value>, q: nat, w: nat, t: nat, u: nat, j: nat)
    requires Inv(plan, S) && (q, w, t) in Places(plan, S, values) && IsState(plan, q, w, t) && TellsOf(plan, q, w, t, u, j)
    ensures (q, u, j) in Places(plan, S, values)
  {
    TellsReached(plan, S, q, w, t, u, j);
  }

  lemma OwesThere(plan: Plan, S: System, values: map<nat, Value>, q: nat, u: nat, j: nat)
    requires Inv(plan, S) && (q, u, 0) in Places(plan, S, values) && Owes(plan, q, u, j)
    ensures (q, u, j) in Places(plan, S, values)
  {
    OwesReached(plan, S, q, u, j);
  }

  lemma PlacesClosed(plan: Plan, S: System, reports: map<nat, Report>, values: map<nat, Value>, b: nat)
    requires FrozenCensus(plan, S, reports, values, b)
    ensures ClosedPlaces(plan, reports, values, Places(plan, S, values))
  {
    var X := Places(plan, S, values);
    forall q: nat, u: nat, j: nat | PlacedAtOnce(plan, reports, values, q, u, j) ensures (q, u, j) in X {
      AtOnceThere(plan, S, reports, values, b, q, u, j);
    }
    forall q: nat, u: nat, j: nat | Owes(plan, q, u, j) && (q, u, 0) in X ensures (q, u, j) in X {
      OwesThere(plan, S, values, q, u, j);
    }
    forall q: nat, w: nat, t: nat, u: nat, j: nat | (q, w, t) in X && IsState(plan, q, w, t) && TellsOf(plan, q, w, t, u, j)
      ensures (q, u, j) in X
    {
      TellsThere(plan, S, values, q, w, t, u, j);
    }
  }

  /** Voters are where true evidence places them. */
  lemma PlacedReached(plan: Plan, S: System, reports: map<nat, Report>, values: map<nat, Value>, b: nat, q: nat, u: nat, j: nat)
    requires FrozenCensus(plan, S, reports, values, b) && Placed(plan, reports, values, q, u, j)
    ensures IsThere(plan, S, values, q, u, j)
  {
    PlacesClosed(plan, S, reports, values, b);
    var k: nat :| PlacedBy(plan, reports, values, q, u, j, k);
    PlacedIn(plan, reports, values, Places(plan, S, values), q, u, j, k);
  }

  /** A frozen report tells exactly where its voter is. */
  lemma FrozenTruth(plan: Plan, S: System, reports: map<nat, Report>, values: map<nat, Value>, b: nat, w: nat)
    requires FrozenCensus(plan, S, reports, values, b) && w in reports && Frozen(reports[w])
    ensures w < plan.voters == |S.voters| && S.voters[w].frozen && reports[w].ballot <= S.voters[w].promised
    ensures match reports[w].proposer
            case None => S.voters[w].fast.None?
            case Some(q) => Took(S, w, q) && S.voters[w].time == reports[w].time
  {
    assert TrueReport(plan, S, reports[w]);
  }

  lemma ShortBlocked(plan: Plan, S: System, reports: map<nat, Report>, values: map<nat, Value>, b: nat, p: nat, w: nat)
    requires FrozenCensus(plan, S, reports, values, b) && WellReported(plan, reports) && p < |plan.reqs|
    requires w in reports && FrozenShort(plan, p, w, reports[w])
    ensures FastBlocked(plan, S, p)
  {
    FrozenTruth(plan, S, reports, values, b, w);
    if reports[w].proposer == Some(p) {
      AtState(plan, S, p, w, reports[w].time);
      QuorumFacts(plan, p);
    }
    StuckBlocks(plan, S, w, p);
  }

  /** A proposer that true evidence rules out is blocked. */
  lemma RuledOutBlocked(plan: Plan, S: System, reports: map<nat, Report>, values: map<nat, Value>, b: nat, p: nat)
    requires FrozenCensus(plan, S, reports, values, b) && WellReported(plan, reports) && p < |plan.reqs|
    requires RuledOut(plan, reports, values, p)
    ensures FastBlocked(plan, S, p)
  {
    if q: nat, u: nat :| q != p && u in CommitQuorum(plan, p) && Placed(plan, reports, values, q, u, 0) {
      PlacedReached(plan, S, reports, values, b, q, u, 0);
      StuckBlocks(plan, S, u, p);
    } else {
      var w :| w in reports && FrozenShort(plan, p, w, reports[w]);
      ShortBlocked(plan, S, reports, values, b, p, w);
    }
  }

  /** What the strict rule refutes is ruled out. */
  lemma StrictRulesOut(plan: Plan, S: System, reports: map<nat, Report>, values: map<nat, Value>, b: nat, p: nat)
    requires FrozenCensus(plan, S, reports, values, b) && WellReported(plan, reports) && p < |plan.reqs|
    requires !StrictlyPossible(plan, reports, p)
    ensures RuledOut(plan, reports, values, p)
  {
    var w :| w in reports && StrictlyRefutes(plan, p, reports[w]);
    var r := reports[w];
    if r.proposer.Some? && r.proposer != Some(p) {
      var q := r.proposer.value;
      PlacedNow(plan, reports, values, q, w, r.time);
      PlacedEarlier(plan, reports, values, q, w, r.time, 0);
      if w !in CommitQuorum(plan, p) {
        var a :| a in Held(plan, r) && a in CommitQuorum(plan, p);
        assert Believes(plan, q, w, r.time, a);
        PlacedTells(plan, reports, values, q, w, r.time, a, 0);
      }
    } else {
      assert FrozenShort(plan, p, w, r);
    }
  }

  /** What a census selects is safe when the proposers of other values are ruled out. */
  lemma SureIsFastSafe(plan: Plan, S: System, reports: map<nat, Report>, values: map<nat, Value>, b: nat, v: Value, p: nat)
    requires FrozenCensus(plan, S, reports, values, b) && WellReported(plan, reports) && Sure(plan, reports, values, v)
    requires p < |plan.reqs|
    ensures FastBlocked(plan, S, p) || (p in S.proposals && S.proposals[p] == v)
  {
    if !FastBlocked(plan, S, p) {
      CensusAdoption(plan, S, reports, values, b, p);
      if values[p] != v { RuledOutBlocked(plan, S, reports, values, b, p); }
    }
  }

  // Nothing more is true

  lemma PlacedNow(plan: Plan, reports: map<nat, Report>, values: map<nat, Value>, q: nat, u: nat, j: nat)
    requires Shaped(plan) && PlacedAtOnce(plan, reports, values, q, u, j)
    ensures Placed(plan, reports, values, q, u, j)
  {
    assert PlacedBy(plan, reports, values, q, u, j, 0);
  }

  lemma PlacedTells(plan: Plan, reports: map<nat, Report>, values: map<nat, Value>, q: nat, w: nat, t: nat, u: nat, j: nat)
    requires Shaped(plan) && Placed(plan, reports, values, q, w, t) && IsState(plan, q, w, t) && TellsOf(plan, q, w, t, u, j)
    ensures Placed(plan, reports, values, q, u, j)
  {
    var k: nat :| PlacedBy(plan, reports, values, q, w, t, k);
    var next := k + 1;
    assert PlacedBy(plan, reports, values, q, w, t, next - 1);
    assert PlacedBy(plan, reports, values, q, u, j, next);
  }

  lemma PlacedOwes(plan: Plan, reports: map<nat, Report>, values: map<nat, Value>, q: nat, u: nat, j: nat)
    requires Shaped(plan) && Placed(plan, reports, values, q, u, 0) && Owes(plan, q, u, j)
    ensures Placed(plan, reports, values, q, u, j)
  {
    var k: nat :| PlacedBy(plan, reports, values, q, u, 0, k);
    var next := k + 1;
    assert PlacedBy(plan, reports, values, q, u, 0, next - 1);
    assert PlacedBy(plan, reports, values, q, u, j, next);
  }

  /** A voter placed in a state is placed in the earlier ones. */
  lemma PlacedEarlier(plan: Plan, reports: map<nat, Report>, values: map<nat, Value>, q: nat, u: nat, j: nat, i: nat)
    requires Shaped(plan) && Placed(plan, reports, values, q, u, j) && i <= j
    ensures Placed(plan, reports, values, q, u, i)
  {
    var k: nat :| PlacedBy(plan, reports, values, q, u, j, k);
    if k == 0 {
      PlacedNow(plan, reports, values, q, u, i);
    } else if Owes(plan, q, u, j) && PlacedBy(plan, reports, values, q, u, 0, k - 1) {
      assert Placed(plan, reports, values, q, u, 0);
      PlacedOwes(plan, reports, values, q, u, i);
    } else {
      var w: nat, t: nat :| IsState(plan, q, w, t) && PlacedBy(plan, reports, values, q, w, t, k - 1) && TellsOf(plan, q, w, t, u, j);
      assert Placed(plan, reports, values, q, w, t);
      PlacedTells(plan, reports, values, q, w, t, u, i);
    }
  }

  /** The last state up to `t` in which the evidence places `u`. */
  ghost function LastPlaced(plan: Plan, reports: map<nat, Report>, values: map<nat, Value>, q: nat, u: nat, t: nat): (j: nat)
    requires Shaped(plan)
    ensures j <= t && (Placed(plan, reports, values, q, u, 0) ==> Placed(plan, reports, values, q, u, j))
    ensures forall i: nat :: i <= t && Placed(plan, reports, values, q, u, i) ==> i <= j
  {
    if t == 0 || Placed(plan, reports, values, q, u, t) then t else LastPlaced(plan, reports, values, q, u, t - 1)
  }

  ghost predicate Keeps(plan: Plan, x: Voter, reports: map<nat, Report>, values: map<nat, Value>, v: nat)
    requires Shaped(plan)
  {
    x.fast.Some? && Placed(plan, reports, values, x.fast.value.proposer, v, 0)
  }

  predicate ReportedFrozen(reports: map<nat, Report>, v: nat) { v in reports && Frozen(reports[v]) }

  /** A voter of which nothing holds but what the evidence says. */
  ghost function Bare(plan: Plan, x: Voter, reports: map<nat, Report>, values: map<nat, Value>, v: nat): Voter
    requires Shaped(plan) && v < |plan.reqs| && (x.fast.Some? ==> x.fast.value.proposer < |plan.reqs|)
  {
    if Keeps(plan, x, reports, values, v) then
      var q := x.fast.value.proposer;
      var t := LastPlaced(plan, reports, values, q, v, x.time);
      var frozen := t == Last(plan, q, v) || ReportedFrozen(reports, v);
      FRESH.(fast := x.fast, time := t, frozen := frozen, conflict := frozen, participants := {q},
             promised := if frozen then Max(x.promised, plan.voters + plan.leaders[q]) else 0,
             values := map[q := x.fast.value.value], cursor := map[q := t])
    else if ReportedFrozen(reports, v) then FRESH.(frozen := true, conflict := true, promised := x.promised)
    else FRESH
  }

  ghost predicate WellFast(plan: Plan, S: System) {
    |S.voters| == plan.voters && forall v: nat :: v < plan.voters && S.voters[v].fast.Some? ==> S.voters[v].fast.value.proposer < |plan.reqs|
  }

  /** The system in which nothing holds but what the evidence says. */
  ghost function BareSystem(plan: Plan, S: System, reports: map<nat, Report>, values: map<nat, Value>): System
    requires Shaped(plan) && WellFast(plan, S)
  {
    System(seq(plan.voters, (v: nat) requires v < plan.voters => Bare(plan, S.voters[v], reports, values, v)), {}, values)
  }

  lemma FastKnown(plan: Plan, S: System)
    requires Inv(plan, S)
    ensures WellFast(plan, S)
  {
    forall v: nat | v < plan.voters && S.voters[v].fast.Some? ensures S.voters[v].fast.value.proposer < |plan.reqs| {
      AtState(plan, S, S.voters[v].fast.value.proposer, v, 0);
    }
  }

  lemma BareAtLeast(plan: Plan, S: System, reports: map<nat, Report>, values: map<nat, Value>, q: nat, u: nat, j: nat)
    requires Shaped(plan) && WellFast(plan, S) && u < plan.voters && Reached(S, u, q, j) && Placed(plan, reports, values, q, u, j)
    ensures Reached(BareSystem(plan, S, reports, values), u, q, j)
  {
    PlacedEarlier(plan, reports, values, q, u, j, 0);
  }

  lemma BareAtMost(plan: Plan, S: System, reports: map<nat, Report>, values: map<nat, Value>, q: nat, u: nat, j: nat)
    requires Shaped(plan) && WellFast(plan, S) && Reached(BareSystem(plan, S, reports, values), u, q, j)
    ensures Placed(plan, reports, values, q, u, j)
  {
    PlacedEarlier(plan, reports, values, q, u, LastPlaced(plan, reports, values, q, u, S.voters[u].time), j);
  }

  /** In the bare system voters are exactly where the evidence places them. */
  lemma BareReached(plan: Plan, S: System, reports: map<nat, Report>, values: map<nat, Value>, b: nat, q: nat, u: nat, j: nat)
    requires FrozenCensus(plan, S, reports, values, b) && WellFast(plan, S)
    ensures Reached(BareSystem(plan, S, reports, values), u, q, j) <==> Placed(plan, reports, values, q, u, j)
  {
    if Placed(plan, reports, values, q, u, j) {
      PlacedReached(plan, S, reports, values, b, q, u, j);
      BareAtLeast(plan, S, reports, values, q, u, j);
    }
    if Reached(BareSystem(plan, S, reports, values), u, q, j) { BareAtMost(plan, S, reports, values, q, u, j); }
  }

  lemma BareSound(plan: Plan, S: System, reports: map<nat, Report>, values: map<nat, Value>, b: nat, q: nat, u: nat, j: nat)
    requires FrozenCensus(plan, S, reports, values, b) && WellFast(plan, S) && IsState(plan, q, u, j)
    requires Reached(BareSystem(plan, S, reports, values), u, q, j)
    ensures Sound(plan, BareSystem(plan, S, reports, values), q, u, j)
  {
    var T := BareSystem(plan, S, reports, values);
    BareReached(plan, S, reports, values, b, q, u, j);
    forall a: nat | Believes(plan, q, u, j, a) ensures Took(T, a, q) {
      PlacedTells(plan, reports, values, q, u, j, a, 0);
      BareReached(plan, S, reports, values, b, q, a, 0);
    }
    forall w: nat | w < plan.voters && Remote(plan, q, u, j, w) > 0 ensures Reached(T, w, q, Remote(plan, q, u, j, w)) {
      PlacedTells(plan, reports, values, q, u, j, w, Remote(plan, q, u, j, w));
      BareReached(plan, S, reports, values, b, q, w, Remote(plan, q, u, j, w));
    }
  }

  /** What the voters of a census hold that its bare system keeps. */
  lemma KeptFacts(plan: Plan, S: System, reports: map<nat, Report>, values: map<nat, Value>, b: nat, v: nat)
    requires FrozenCensus(plan, S, reports, values, b) && v < plan.voters && WellFast(plan, S)
    requires Keeps(plan, S.voters[v], reports, values, v)
    ensures var x, q := S.voters[v], S.voters[v].fast.value.proposer;
      && q < |plan.reqs| && q in values && x.fast.value.value == values[q]
      && IsState(plan, q, v, LastPlaced(plan, reports, values, q, v, x.time))
      && (v !in Quorum(plan.reqs[q]) ==> LastPlaced(plan, reports, values, q, v, x.time) == Last(plan, q, v))
  {
    var x := S.voters[v];
    var q := x.fast.value.proposer;
    PlacedReached(plan, S, reports, values, b, q, v, 0);
    assert FastInv(plan, S, v) by { assert VoterInv(plan, S, v); }
    if v !in Quorum(plan.reqs[q]) {
      AtState(plan, S, q, v, 0);
      PlacedOwes(plan, reports, values, q, v, Last(plan, q, v));
    }
  }

  ghost predicate BareValid(plan: Plan, x: Voter, v: nat, values: map<nat, Value>)
    requires Shaped(plan)
  {
    x.fast.Some? ==>
      var q := x.fast.value.proposer;
      && q < |plan.reqs| && v < |plan.reqs| && q in values && x.fast.value.value == values[q] && IsState(plan, q, v, x.time)
      && (v !in Quorum(plan.reqs[q]) ==> x.time == Last(plan, q, v))
  }

  lemma BareIsValid(plan: Plan, S: System, reports: map<nat, Report>, values: map<nat, Value>, b: nat, v: nat)
    requires FrozenCensus(plan, S, reports, values, b) && v < plan.voters && WellFast(plan, S)
    ensures BareValid(plan, BareSystem(plan, S, reports, values).voters[v], v, values)
  {
    if Keeps(plan, S.voters[v], reports, values, v) { KeptFacts(plan, S, reports, values, b, v); }
  }

  lemma BareShape(plan: Plan, x: Voter, reports: map<nat, Report>, values: map<nat, Value>, v: nat)
    requires Shaped(plan) && v < |plan.reqs| && (x.fast.Some? ==> x.fast.value.proposer < |plan.reqs|)
    ensures var y := Bare(plan, x, reports, values, v);
      && (y.frozen ==> y.conflict) && y.accepted == 0
      && match y.fast
         case None => y.time == 0 && y.cursor == map[] && y.values == map[] && y.participants == {}
         case Some(f) => y.participants == {f.proposer} && y.values == map[f.proposer := f.value] && y.cursor == map[f.proposer := y.time]
  {
  }

  lemma BareFast(plan: Plan, T: System, x: Voter, reports: map<nat, Report>, values: map<nat, Value>, v: nat)
    requires Shaped(plan) && v < plan.voters == |T.voters| && T.proposals == values
    requires x.fast.Some? ==> x.fast.value.proposer < |plan.reqs|
    requires T.voters[v] == Bare(plan, x, reports, values, v) && BareValid(plan, T.voters[v], v, values)
    requires v in values ==> Took(T, v, v)
    ensures FastInv(plan, T, v) && Prompt(plan, T.voters[v], v)
  {
    BareShape(plan, x, reports, values, v);
  }

  lemma BareFinal(plan: Plan, x: Voter, reports: map<nat, Report>, values: map<nat, Value>, v: nat)
    requires Shaped(plan) && v < |plan.reqs| && (x.fast.Some? ==> x.fast.value.proposer < |plan.reqs|)
    ensures var y := Bare(plan, x, reports, values, v);
      && (forall p: nat :: ReceivedOf(y, p) == {})
      && (y.fast.Some? ==>
            var q := y.fast.value.proposer;
            q < |plan.reqs| && (y.time == Last(plan, q, v) ==> y.frozen && y.promised >= plan.voters + plan.leaders[q]))
  {
  }

  lemma BareCause(plan: Plan, T: System, x: Voter, reports: map<nat, Report>, values: map<nat, Value>, v: nat)
    requires Shaped(plan) && v < plan.voters == |T.voters| && T.net == {}
    requires x.fast.Some? ==> x.fast.value.proposer < |plan.reqs|
    requires T.voters[v] == Bare(plan, x, reports, values, v) && BareValid(plan, T.voters[v], v, values)
    requires forall p: nat, i: nat :: IsState(plan, p, v, i) && Reached(T, v, p, i) ==> Sound(plan, T, p, v, i)
    ensures CauseInv(plan, T, v)
  {
    BareFinal(plan, x, reports, values, v);
  }

  lemma BareRest(plan: Plan, T: System, x: Voter, reports: map<nat, Report>, values: map<nat, Value>, v: nat)
    requires Shaped(plan) && v < plan.voters == |T.voters| && T.net == {}
    requires x.fast.Some? ==> x.fast.value.proposer < |plan.reqs|
    requires T.voters[v] == Bare(plan, x, reports, values, v)
    ensures ClassicInv(plan, T, v) && EvidenceInv(plan, T, v) && LeaderInv(plan, T, v) && T.voters[v].decided.None?
  {
  }

  lemma BareInv(plan: Plan, S: System, reports: map<nat, Report>, values: map<nat, Value>, b: nat)
    requires FrozenCensus(plan, S, reports, values, b) && WellFast(plan, S)
    ensures Inv(plan, BareSystem(plan, S, reports, values))
  {
    var T := BareSystem(plan, S, reports, values);
    forall v: nat | v < plan.voters ensures VoterInv(plan, T, v) && Prompt(plan, T.voters[v], v) {
      BareIsValid(plan, S, reports, values, b, v);
      if v in values {
        PlacedNow(plan, reports, values, v, v, 0);
        BareReached(plan, S, reports, values, b, v, v, 0);
      }
      forall p: nat, i: nat | IsState(plan, p, v, i) && Reached(T, v, p, i) ensures Sound(plan, T, p, v, i) {
        BareSound(plan, S, reports, values, b, p, v, i);
      }
      BareFast(plan, T, S.voters[v], reports, values, v);
      BareCause(plan, T, S.voters[v], reports, values, v);
      BareRest(plan, T, S.voters[v], reports, values, v);
    }
  }

  lemma BareFrozen(plan: Plan, x: Voter, reports: map<nat, Report>, values: map<nat, Value>, w: nat)
    requires Shaped(plan) && w < |plan.reqs| && (x.fast.Some? ==> x.fast.value.proposer < |plan.reqs|)
    requires ReportedFrozen(reports, w) && x.frozen && reports[w].ballot <= x.promised
    requires x.fast.Some? ==> Placed(plan, reports, values, x.fast.value.proposer, w, x.time)
    ensures var y := Bare(plan, x, reports, values, w);
      y.frozen && reports[w].ballot <= y.promised && y.fast == x.fast && (x.fast.Some? ==> y.time == x.time)
  {
    if x.fast.Some? { PlacedEarlier(plan, reports, values, x.fast.value.proposer, w, x.time, 0); }
  }

  /** A voter reported frozen is in the bare system where it is. */
  lemma FrozenStays(plan: Plan, S: System, reports: map<nat, Report>, values: map<nat, Value>, b: nat, w: nat)
    requires FrozenCensus(plan, S, reports, values, b) && WellFast(plan, S) && w in reports && Frozen(reports[w])
    ensures w < plan.voters
    ensures var x, y := S.voters[w], BareSystem(plan, S, reports, values).voters[w];
      y.frozen && reports[w].ballot <= y.promised && y.fast == x.fast && (x.fast.Some? ==> y.time == x.time == reports[w].time)
  {
    FrozenTruth(plan, S, reports, values, b, w);
    if reports[w].proposer.Some? {
      PlacedNow(plan, reports, values, reports[w].proposer.value, w, reports[w].time);
    }
    BareFrozen(plan, S.voters[w], reports, values, w);
  }

  lemma BareReportTrue(plan: Plan, S: System, reports: map<nat, Report>, values: map<nat, Value>, b: nat, w: nat)
    requires FrozenCensus(plan, S, reports, values, b) && WellFast(plan, S) && w in reports
    ensures TrueReport(plan, BareSystem(plan, S, reports, values), reports[w])
  {
    var r := reports[w];
    assert TrueReport(plan, S, r) && r.accepted == 0;
    if Frozen(r) {
      FrozenTruth(plan, S, reports, values, b, w);
      FrozenStays(plan, S, reports, values, b, w);
    }
    if r.proposer.Some? {
      PlacedNow(plan, reports, values, r.proposer.value, w, r.time);
      BareReached(plan, S, reports, values, b, r.proposer.value, w, r.time);
    }
  }

  /** The evidence of a census holds of its bare system too. */
  lemma BareCensus(plan: Plan, S: System, reports: map<nat, Report>, values: map<nat, Value>, b: nat)
    requires FrozenCensus(plan, S, reports, values, b) && WellFast(plan, S)
    ensures FrozenCensus(plan, BareSystem(plan, S, reports, values), reports, values, b)
  {
    BareInv(plan, S, reports, values, b);
    forall w: nat | w in reports ensures TrueReport(plan, BareSystem(plan, S, reports, values), reports[w]) {
      BareReportTrue(plan, S, reports, values, b, w);
    }
  }

  lemma BareUnfrozen(plan: Plan, x: Voter, reports: map<nat, Report>, values: map<nat, Value>, v: nat)
    requires Shaped(plan) && v < |plan.reqs| && (x.fast.Some? ==> x.fast.value.proposer < |plan.reqs|)
    requires Bare(plan, x, reports, values, v).frozen && !ReportedFrozen(reports, v)
    ensures var y := Bare(plan, x, reports, values, v);
      y.fast.Some? && y.fast.value.proposer < |plan.reqs| && y.time == Last(plan, y.fast.value.proposer, v)
  {
  }

  /** A stuck voter that is not reported frozen has taken another proposal. */
  lemma StuckTookOther(plan: Plan, S: System, reports: map<nat, Report>, values: map<nat, Value>, v: nat, p: nat)
    requires Shaped(plan) && WellFast(plan, S) && p < |plan.reqs| && !ReportedFrozen(reports, v)
    requires Stuck(plan, BareSystem(plan, S, reports, values), v, p)
    ensures BareSystem(plan, S, reports, values).voters[v].fast.Some? && !Took(BareSystem(plan, S, reports, values), v, p)
  {
    if BareSystem(plan, S, reports, values).voters[v].frozen { BareUnfrozen(plan, S.voters[v], reports, values, v); }
  }

  /** There a voter of a commit quorum is stuck only if the evidence rules the proposer out. */
  lemma BareStuck(plan: Plan, S: System, reports: map<nat, Report>, values: map<nat, Value>, b: nat, v: nat, p: nat)
    requires FrozenCensus(plan, S, reports, values, b) && WellFast(plan, S) && WellReported(plan, reports) && p < |plan.reqs|
    requires v in CommitQuorum(plan, p) && Stuck(plan, BareSystem(plan, S, reports, values), v, p)
    ensures RuledOut(plan, reports, values, p)
  {
    var T := BareSystem(plan, S, reports, values);
    if !ReportedFrozen(reports, v) { StuckTookOther(plan, S, reports, values, v, p); }
    var y := T.voters[v];
    if y.fast.Some? && !Took(T, v, p) {
      BareReached(plan, S, reports, values, b, y.fast.value.proposer, v, 0);
    } else {
      FrozenStays(plan, S, reports, values, b, v);
      FrozenTruth(plan, S, reports, values, b, v);
      assert FrozenShort(plan, p, v, reports[v]);
    }
  }

  /** A proposer that is not ruled out is unblocked in a system that makes the evidence true. */
  lemma BareUnblocked(plan: Plan, S: System, reports: map<nat, Report>, values: map<nat, Value>, b: nat, p: nat) returns (T: System)
    requires FrozenCensus(plan, S, reports, values, b) && WellReported(plan, reports) && p < |plan.reqs|
    requires !RuledOut(plan, reports, values, p)
    ensures FrozenCensus(plan, T, reports, values, b) && !FastBlocked(plan, T, p)
  {
    FastKnown(plan, S);
    T := BareSystem(plan, S, reports, values);
    BareCensus(plan, S, reports, values, b);
    forall v | v in CommitQuorum(plan, p) ensures !Stuck(plan, T, v, p) {
      if Stuck(plan, T, v, p) { BareStuck(plan, S, reports, values, b, v, p); }
    }
  }

  /** Evidence rules a proposer out precisely when it is blocked wherever the evidence is true. */
  lemma RuledOutExactly(plan: Plan, S: System, reports: map<nat, Report>, values: map<nat, Value>, b: nat, p: nat)
    requires FrozenCensus(plan, S, reports, values, b) && WellReported(plan, reports) && p < |plan.reqs|
    ensures RuledOut(plan, reports, values, p) <==>
            forall T: System :: FrozenCensus(plan, T, reports, values, b) ==> FastBlocked(plan, T, p)
  {
    if RuledOut(plan, reports, values, p) {
      forall T: System | FrozenCensus(plan, T, reports, values, b) ensures FastBlocked(plan, T, p) {
        RuledOutBlocked(plan, T, reports, values, b, p);
      }
    } else {
      var T := BareUnblocked(plan, S, reports, values, b, p);
    }
  }

  /** Every proposer is blocked in `T`, or proposed `v`. */
  ghost predicate FastSafe(plan: Plan, T: System, v: Value)
    requires Shaped(plan)
  {
    forall p: nat :: p < |plan.reqs| ==> FastBlocked(plan, T, p) || (p in T.proposals && T.proposals[p] == v)
  }

  /**
    The exact condition: selecting `v` is safe in every system of the invariant that makes the
    evidence true if and only if the evidence rules out the proposers of all other values.
  */
  lemma SafeExactlyWhenSure(plan: Plan, S: System, reports: map<nat, Report>, values: map<nat, Value>, b: nat, v: Value)
    requires FrozenCensus(plan, S, reports, values, b) && WellReported(plan, reports)
    ensures Sure(plan, reports, values, v) <==>
            forall T: System :: FrozenCensus(plan, T, reports, values, b) ==> FastSafe(plan, T, v)
  {
    if Sure(plan, reports, values, v) {
      forall T: System | FrozenCensus(plan, T, reports, values, b) ensures FastSafe(plan, T, v) {
        forall p: nat | p < |plan.reqs| ensures FastBlocked(plan, T, p) || (p in T.proposals && T.proposals[p] == v) {
          SureIsFastSafe(plan, T, reports, values, b, v, p);
        }
      }
    } else {
      var p :| p in values && values[p] != v && !RuledOut(plan, reports, values, p);
      var T := BareUnblocked(plan, S, reports, values, b, p);
      assert !FastSafe(plan, T, v);
    }
  }

  /** At most one proposer is not ruled out: a census that selects by this rule is always sure. */
  lemma OneNotRuledOut(plan: Plan, S: System, reports: map<nat, Report>, values: map<nat, Value>, b: nat, p: nat, q: nat)
    requires FrozenCensus(plan, S, reports, values, b) && WellReported(plan, reports) && p < |plan.reqs| && q < |plan.reqs| && p != q
    ensures RuledOut(plan, reports, values, p) || RuledOut(plan, reports, values, q)
  {
    if !RuledOut(plan, reports, values, p) {
      var T := BareUnblocked(plan, S, reports, values, b, p);
      CensusAdoption(plan, T, reports, values, b, p);
      StrictRulesOut(plan, T, reports, values, b, q);
    }
  }

  /** Two proposers or aware voters make whatever the program's rule selects a sure selection. */
  lemma AdoptedIsSure(plan: Plan, S: System, reports: map<nat, Report>, values: map<nat, Value>, b: nat, v: Value)
    requires FrozenCensus(plan, S, reports, values, b) && WellReported(plan, reports)
    requires Aware(plan, reports) || |values.Keys| <= 2
    requires Adopts(plan, reports, values, Some(v)) || Adopts(plan, reports, values, None)
    ensures Sure(plan, reports, values, v)
  {
    forall T: System | FrozenCensus(plan, T, reports, values, b) ensures FastSafe(plan, T, v) {
      forall p: nat | p < |plan.reqs| ensures FastBlocked(plan, T, p) || (p in T.proposals && T.proposals[p] == v) {
        AdoptedIsFastSafe(plan, T, reports, values, b, v, p);
      }
    }
    SafeExactlyWhenSure(plan, S, reports, values, b, v);
  }

  /** A census that adopts the proposer that is not ruled out, if there is one, would always be safe. */
  lemma ExactRuleIsSure(plan: Plan, S: System, reports: map<nat, Report>, values: map<nat, Value>, b: nat, v: Value)
    requires FrozenCensus(plan, S, reports, values, b) && WellReported(plan, reports)
    requires (exists p :: p in values && values[p] == v && !RuledOut(plan, reports, values, p))
             || (forall p :: p in values ==> RuledOut(plan, reports, values, p))
    ensures Sure(plan, reports, values, v)
  {
    if p :| p in values && values[p] == v && !RuledOut(plan, reports, values, p) {
      forall q | q in values && values[q] != v ensures RuledOut(plan, reports, values, q) {
        OneNotRuledOut(plan, S, reports, values, b, p, q);
      }
    }
  }
}
