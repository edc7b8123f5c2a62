/**
  What a KCensus slot keeps true, and why its decisions agree.

  A proposer is *fast blocked* when some acceptor of its commit quorum can no longer reach its
  final state for it. A census selects a value only when every proposer of another value is fast
  blocked, and every other value is blocked in every lower ballot.
*/
module KCensusSafety {
  import opened KCensusPlan
  import opened KCensus
  import opened KCensusSystem
  import opened Quorums

  // Fast acceptance

  predicate Took(S: System, v: nat, p: nat) {
    v < |S.voters| && S.voters[v].fast.Some? && S.voters[v].fast.value.proposer == p
  }

  /** Voter `v` has accepted `p` and its knowledge has entered state `j` of the schedule. */
  predicate Reached(S: System, v: nat, p: nat, j: nat) {
    Took(S, v, p) && S.voters[v].time >= j
  }

  /** Voter `v` will never be in its final state for `p`. */
  predicate Stuck(plan: Plan, S: System, v: nat, p: nat)
    requires Shaped(plan) && p < |plan.reqs|
  {
    v < |S.voters| && v < plan.voters
    && ((S.voters[v].fast.Some? && !Took(S, v, p)) || (S.voters[v].frozen && !Reached(S, v, p, Last(plan, p, v))))
  }

  ghost predicate FastBlocked(plan: Plan, S: System, p: nat)
    requires Shaped(plan) && p < |plan.reqs|
  {
    exists v :: v in CommitQuorum(plan, p) && Stuck(plan, S, v, p)
  }

  predicate FastChosen(plan: Plan, S: System, p: nat)
    requires Shaped(plan) && p < |plan.reqs|
  {
    Reached(S, plan.leaders[p], p, Last(plan, p, plan.leaders[p]))
  }

  /** What a process believes in state `j` of a schedule is so. */
  ghost predicate Sound(plan: Plan, S: System, p: nat, v: nat, j: nat)
    requires Shaped(plan) && IsState(plan, p, v, j)
  {
    && (forall a: nat :: Believes(plan, p, v, j, a) ==> Took(S, a, p))
    && (forall w: nat :: w < plan.voters && Remote(plan, p, v, j, w) > 0 ==> Reached(S, w, p, Remote(plan, p, v, j, w)))
  }

  /** A message of the schedule of `p` whose sender was, or had nothing to be, where the schedule says. */
  predicate Scheduled(plan: Plan, S: System, p: nat, e: Edge) {
    if e.src < plan.voters then Reached(S, e.src, p, e.at) else e.at == 0
  }

  // Classic acceptance

  predicate Voted(net: set<Msg>, a: nat, c: nat, v: Value) { Accepted(a, c, v) in net }

  function Majority(plan: Plan): nat { plan.voters - Faults(plan) }

  function VotersFor(plan: Plan, net: set<Msg>, c: nat, v: Value): set<nat> {
    set a | a in Below(plan.voters) && Voted(net, a, c, v)
  }

  predicate ChosenAt(plan: Plan, net: set<Msg>, c: nat, v: Value) {
    |VotersFor(plan, net, c, v)| >= Majority(plan)
  }

  predicate Left(S: System, a: nat, c: nat) { a < |S.voters| && S.voters[a].promised > c }

  function Blockers(plan: Plan, S: System, c: nat, v: Value): set<nat> {
    set a | a in Below(plan.voters) && Left(S, a, c) && !Voted(S.net, a, c, v)
  }

  predicate Blocked(plan: Plan, S: System, c: nat, v: Value) {
    |Blockers(plan, S, c, v)| >= Majority(plan)
  }

  ghost predicate Safe(plan: Plan, S: System, b: nat, v: Value)
    requires Shaped(plan)
  {
    && (forall c: nat, w: Value :: c < b && w != v ==> Blocked(plan, S, c, w))
    && (forall p: nat :: p < |plan.reqs| ==> FastBlocked(plan, S, p) || (p in S.proposals && S.proposals[p] == v))
  }

  /** The slot's decision rule: a completed schedule, or a majority of classic acceptances. */
  ghost predicate Chosen(plan: Plan, S: System, v: Value)
    requires Shaped(plan)
  {
    || (exists p: nat :: p < |plan.reqs| && p in S.proposals && S.proposals[p] == v && FastChosen(plan, S, p))
    || (exists c: nat :: ChosenAt(plan, S.net, c, v))
  }

  // Evidence

  ghost predicate TrueReport(plan: Plan, S: System, r: Report) {
    && r.voter < plan.voters && r.voter < |S.voters|
    && r.accepted <= r.ballot <= S.voters[r.voter].promised
    && (r.accepted > 0 ==> r.value.Some? && r.proposer.None? && Voted(S.net, r.voter, r.accepted, r.value.value))
    && (forall c: nat, v: Value :: r.accepted < c < r.ballot ==> !Voted(S.net, r.voter, c, v))
    && (r.proposer.Some? ==>
          && r.accepted == 0 && IsState(plan, r.proposer.value, r.voter, r.time)
          && Reached(S, r.voter, r.proposer.value, r.time)
          && r.value.Some? && r.proposer.value in S.proposals && r.value.value == S.proposals[r.proposer.value]
          && (Frozen(r) ==> S.voters[r.voter].frozen && S.voters[r.voter].time == r.time))
    && (r.proposer.None? ==> r.time == 0)
    && (r.proposer.None? && r.accepted == 0 && Frozen(r) ==> S.voters[r.voter].frozen && S.voters[r.voter].fast.None?)
  }

  ghost predicate MsgOk(plan: Plan, S: System, m: Msg)
    requires Shaped(plan)
  {
    match m
    case Spread(sender, p, e, explicit, _, evidence, v) =>
      && p < |plan.reqs| && p in S.proposals && v == S.proposals[p] && e.src == sender && IsEdge(plan, p, e)
      && (explicit || Scheduled(plan, S, p, e))
      && (forall r :: r in evidence ==> TrueReport(plan, S, r))
    case Promise(sender, b, r) => r.voter == sender && r.ballot == b && TrueReport(plan, S, r)
    case Accept(sender, b, v) => plan.voters > 0 && b > 0 && sender == Owner(plan.voters, b) && Safe(plan, S, b, v)
    case Accepted(sender, b, v) => plan.voters > 0 && sender < plan.voters && b > 0 && Accept(Owner(plan.voters, b), b, v) in S.net
    case Commit(_, v) => Chosen(plan, S, v)
    case _ => true
  }

  // A voter's own state

  ghost predicate ClassicInv(plan: Plan, S: System, j: nat)
    requires j < |S.voters|
  {
    var x := S.voters[j];
    && (x.promised > 0 ==> x.frozen) && x.accepted <= x.promised
    && (x.accepted > 0 ==> x.classic.Some? && Voted(S.net, j, x.accepted, x.classic.value))
    && (forall c: nat, v: Value :: Voted(S.net, j, c, v) ==> x.frozen && c <= x.accepted && (c == x.accepted ==> x.classic == Some(v)))
  }

  ghost predicate FastInv(plan: Plan, S: System, j: nat)
    requires Shaped(plan) && j < |S.voters| && j < plan.voters
  {
    var x := S.voters[j];
    && (x.fast.None? ==> x.time == 0)
    && (x.fast.None? && !x.frozen ==> forall p: nat :: CursorOf(x, p) == 0)
    && (x.fast.Some? ==>
          var p := x.fast.value.proposer;
          && p < |plan.reqs| && p in S.proposals && x.fast.value.value == S.proposals[p]
          && IsState(plan, p, j, x.time) && p in x.participants && p in x.values && x.time <= CursorOf(x, p)
          && (!x.frozen ==> x.time == CursorOf(x, p)))
    && (j in S.proposals ==> Took(S, j, j))
    && (forall p: nat :: p in x.values ==> p < |plan.reqs| && p in S.proposals && x.values[p] == S.proposals[p])
    && (x.frozen && !x.conflict && x.accepted == 0 ==> x.fast.Some? && x.time == Last(plan, x.fast.value.proposer, j))
  }

  /** While a voter is unfrozen, every schedule message it has consumed was a scheduled one. */
  ghost predicate CauseInv(plan: Plan, S: System, j: nat)
    requires Shaped(plan) && j < |S.voters| && j < plan.voters
  {
    var x := S.voters[j];
    && (!x.frozen ==> forall p: nat, e :: e in ReceivedOf(x, p) ==> Scheduled(plan, S, p, e))
    && (forall p: nat, i: nat :: IsState(plan, p, j, i) && Reached(S, j, p, i) ==> Sound(plan, S, p, j, i))
    && (forall p: nat :: p < |plan.reqs| && Last(plan, p, j) > 0 && Reached(S, j, p, Last(plan, p, j)) ==>
          x.frozen && x.promised >= plan.voters + plan.leaders[p]
          && forall c: nat, v: Value :: c < plan.voters + plan.leaders[p] ==> !Voted(S.net, j, c, v))
  }

  ghost predicate EvidenceInv(plan: Plan, S: System, j: nat)
    requires j < |S.voters|
  {
    forall w: nat :: w in S.voters[j].reports ==>
      var r := S.voters[j].reports[w];
      r.voter == w && TrueReport(plan, S, r) && (r.proposer.Some? ==> r.proposer.value in S.voters[j].values)
  }

  ghost predicate LeaderInv(plan: Plan, S: System, j: nat)
    requires j < |S.voters|
  {
    var x := S.voters[j];
    && (forall b: nat, v: Value :: Accept(j, b, v) in S.net ==> b <= x.ballot && (b == x.ballot ==> x.phase == 2 && x.selected == Some(v)))
    && (forall b: nat, v: Value, w: Value :: Accept(j, b, v) in S.net && Accept(j, b, w) in S.net ==> v == w)
    && (x.phase == 1 || x.phase == 2 ==> plan.voters > 0 && x.ballot > 0 && Owner(plan.voters, x.ballot) == j)
    && (x.phase == 2 ==> x.selected.Some? && Accept(j, x.ballot, x.selected.value) in S.net)
    && (forall a :: a in x.acks ==> x.phase == 2 && a < plan.voters && x.selected.Some? && Voted(S.net, a, x.ballot, x.selected.value))
  }

  ghost predicate VoterInv(plan: Plan, S: System, j: nat)
    requires Shaped(plan) && j < |S.voters| && j < plan.voters
  {
    && ClassicInv(plan, S, j) && FastInv(plan, S, j) && CauseInv(plan, S, j)
    && EvidenceInv(plan, S, j) && LeaderInv(plan, S, j)
    && (S.voters[j].decided.Some? ==> Chosen(plan, S, S.voters[j].decided.value))
  }

  /** Holds after every primitive action inside a handler. */
  ghost predicate CoreInv(plan: Plan, S: System) {
    && GoodPlan(plan) && |S.voters| == plan.voters
    && (forall m :: m in S.net ==> MsgOk(plan, S, m))
    && (forall j: nat :: j < plan.voters ==> VoterInv(plan, S, j))
  }

  /**
    Holds between handlers: a voter outside the quorum is in its final state once it has accepted,
    and an unfrozen voter has the value of every proposer it counts.
  */
  ghost predicate Prompt(plan: Plan, x: Voter, j: nat)
    requires Shaped(plan)
  {
    && (x.fast.Some? ==>
          var p := x.fast.value.proposer;
          p < |plan.reqs| && j < |plan.reqs| && (j !in Quorum(plan.reqs[p]) ==> x.time >= Last(plan, p, j)))
    && (x.frozen || x.participants <= x.values.Keys)
  }

  ghost predicate Inv(plan: Plan, S: System) {
    CoreInv(plan, S) && forall j: nat :: j < plan.voters ==> Prompt(plan, S.voters[j], j)
  }

  // Agreement

  lemma BlockedNotChosen(plan: Plan, S: System, c: nat, v: Value)
    requires GoodPlan(plan) && Blocked(plan, S, c, v)
    ensures !ChosenAt(plan, S.net, c, v)
  {
    if ChosenAt(plan, S.net, c, v) {
      Intersect(plan.voters, Blockers(plan, S, c, v), VotersFor(plan, S.net, c, v));
    }
  }

  /** A proposer whose schedule has completed is not blocked: its whole quorum is where it must be. */
  lemma ChosenNotBlocked(plan: Plan, S: System, p: nat)
    requires Inv(plan, S) && p < |plan.reqs| && FastChosen(plan, S, p)
    ensures !FastBlocked(plan, S, p)
  {
    var l := plan.leaders[p];
    QuorumFacts(plan, p);
    assert IsState(plan, p, l, Last(plan, p, l));
    assert VoterInv(plan, S, l);
    assert Sound(plan, S, p, l, Last(plan, p, l));
    forall v | v in CommitQuorum(plan, p) ensures !Stuck(plan, S, v, p) {
      assert Believes(plan, p, l, Last(plan, p, l), v);
      assert Took(S, v, p);
      assert Prompt(plan, S.voters[v], v);
      if plan.reqs[p][v] != {} {
        assert Remote(plan, p, l, Last(plan, p, l), v) == Last(plan, p, v);
      } else {
        assert v !in Quorum(plan.reqs[p]);
      }
    }
  }

  lemma FastAgree(plan: Plan, S: System, p: nat, q: nat)
    requires Inv(plan, S) && p < |plan.reqs| && q < |plan.reqs| && FastChosen(plan, S, p) && FastChosen(plan, S, q)
    ensures p == q
  {
    QuorumsMeet(plan, p, q);
    var a :| a in Quorum(plan.reqs[p]) && a in Quorum(plan.reqs[q]);
    QuorumTook(plan, S, p, a);
    QuorumTook(plan, S, q, a);
  }

  lemma QuorumTook(plan: Plan, S: System, p: nat, a: nat)
    requires Inv(plan, S) && p < |plan.reqs| && FastChosen(plan, S, p) && a in Quorum(plan.reqs[p])
    ensures Took(S, a, p)
  {
    var l := plan.leaders[p];
    QuorumFacts(plan, p);
    assert IsState(plan, p, l, Last(plan, p, l));
    assert VoterInv(plan, S, l);
    assert Sound(plan, S, p, l, Last(plan, p, l));
    assert Believes(plan, p, l, Last(plan, p, l), a);
  }

  lemma VotedIsSafe(plan: Plan, S: System, a: nat, c: nat, v: Value)
    requires CoreInv(plan, S) && Voted(S.net, a, c, v)
    ensures c > 0 && Accept(Owner(plan.voters, c), c, v) in S.net && Safe(plan, S, c, v)
  {
    assert MsgOk(plan, S, Accepted(a, c, v));
    assert MsgOk(plan, S, Accept(Owner(plan.voters, c), c, v));
  }

  lemma BallotsAgree(plan: Plan, S: System, b: nat, c: nat, v: Value, w: Value)
    requires Inv(plan, S) && ChosenAt(plan, S.net, b, v) && ChosenAt(plan, S.net, c, w) && b <= c
    ensures v == w
  {
    Intersect(plan.voters, VotersFor(plan, S.net, b, v), VotersFor(plan, S.net, c, w));
    var a :| a in VotersFor(plan, S.net, b, v) && a in VotersFor(plan, S.net, c, w);
    VotedIsSafe(plan, S, a, b, v);
    VotedIsSafe(plan, S, a, c, w);
    if b == c {
      assert VoterInv(plan, S, Owner(plan.voters, b));
    } else if v != w {
      BlockedNotChosen(plan, S, b, v);
    }
  }

  lemma MixedAgree(plan: Plan, S: System, p: nat, c: nat, w: Value)
    requires Inv(plan, S) && p < |plan.reqs| && p in S.proposals && FastChosen(plan, S, p) && ChosenAt(plan, S.net, c, w)
    ensures S.proposals[p] == w
  {
    assert Majority(plan) > 0;
    var a :| a in VotersFor(plan, S.net, c, w);
    VotedIsSafe(plan, S, a, c, w);
    ChosenNotBlocked(plan, S, p);
  }

  /** No two values are ever decided in a slot, fast or classic. */
  lemma Agreement(plan: Plan, S: System, v: Value, w: Value)
    requires Inv(plan, S) && Chosen(plan, S, v) && Chosen(plan, S, w)
    ensures v == w
  {
    if p: nat :| p < |plan.reqs| && p in S.proposals && S.proposals[p] == v && FastChosen(plan, S, p) {
      if q: nat :| q < |plan.reqs| && q in S.proposals && S.proposals[q] == w && FastChosen(plan, S, q) {
        FastAgree(plan, S, p, q);
      } else {
        var c: nat :| ChosenAt(plan, S.net, c, w);
        MixedAgree(plan, S, p, c, w);
      }
    } else {
      var b: nat :| ChosenAt(plan, S.net, b, v);
      if q: nat :| q < |plan.reqs| && q in S.proposals && S.proposals[q] == w && FastChosen(plan, S, q) {
        MixedAgree(plan, S, q, b, v);
      } else {
        var c: nat :| ChosenAt(plan, S.net, c, w);
        if b <= c { BallotsAgree(plan, S, b, c, v, w); } else { BallotsAgree(plan, S, c, b, w, v); }
      }
    }
  }
}
