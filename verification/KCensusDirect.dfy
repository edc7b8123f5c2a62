/**
  A direct schedule, message by message.

  A client sends its value to all voters itself, the quorum answers to the delegate, and the
  delegate then commits. Each lemma here computes what one message does to one voter.
*/
module KCensusDirect {
  import opened KCensusPlan
  import opened KCensus
  import opened KCensusSystem
  import opened KCensusTwoHop
  import opened Quorums

  function AnswersTo(l: nat, q: set<nat>): set<Edge> { set w | w in q && w != l :: Edge(w, 1, l) }

  /** The schedule of client `p` in a two-hop plan of five voters and three clients. */
  ghost predicate Direct(plan: Plan, p: nat, l: nat, q: set<nat>) {
    && Shaped(plan) && plan.voters == 5 && |plan.reqs| == 8 && 5 <= p < 8 && l < 5 && plan.leaders[p] == l && q <= Below(5) && AnswersTo(l, q) != {}
    && plan.graphs[p][p][0].deps == {} && |plan.graphs[p][p]| == 1
    && (forall w: nat :: w < 8 ==> plan.graphs[p][p][0].remote[w] == 0)
    && (forall v: nat :: v < 5 ==>
          && |plan.graphs[p][v]| == (if v == l then 3 else 2)
          && plan.graphs[p][v][0].deps == {} && plan.graphs[p][v][1].deps == {Edge(p, 0, v)}
          && (forall w: nat :: w < 8 ==> plan.graphs[p][v][1].remote[w] == if w == v then 1 else 0))
    && plan.graphs[p][l][2].deps == AnswersTo(l, q) && CoversAll(plan, p, 2)
  }

  lemma OthersAnswer(l: nat, q: set<nat>)
    requires |q| > 1
    ensures AnswersTo(l, q) != {}
  {
    if q <= {l} { SubsetSize(q, {l}); }
    var w :| w in q && w != l;
    assert Edge(w, 1, l) in AnswersTo(l, q);
  }

  lemma HopIsDirect(ts: seq<Route>, p: nat)
    requires GoodRoutes(ts, 5) && |ts| == 8 && 5 <= p < 8 && !ts[p].relay
    ensures Direct(TwoHop(ts, 5), p, ts[p].leader, ts[p].quorum)
  {
    var plan, t := TwoHop(ts, 5), ts[p];
    HopShaped(ts, 5);
    HopParts(ts, 5, p);
    LeaderVotes(t, p, 5);
    HopIsState(ts, 5, p, p);
    HopIsState(ts, 5, p, t.leader);
    HopCovers(ts, 5, p);
    assert plan.graphs[p][t.leader][2].deps == Answers(t);
    assert AnswersTo(t.leader, t.quorum) != {} by { OthersAnswer(t.leader, t.quorum); }
    forall v: nat | v < 5
      ensures |plan.graphs[p][v]| == (if v == t.leader then 3 else 2)
      ensures plan.graphs[p][v][0].deps == {} && plan.graphs[p][v][1].deps == {Edge(p, 0, v)}
      ensures forall w: nat :: w < 8 ==> plan.graphs[p][v][1].remote[w] == if w == v then 1 else 0
    {
      HopIsState(ts, 5, p, v);
      assert plan.graphs[p][v] == StatesOf(t, p, v, 5, 8);
    }
  }

  // Inference

  lemma {:induction false} InferNone(plan: Plan, id: nat, x: Voter, p: nat, e: Edge, v: Value, w: nat)
    requires Shaped(plan) && IsState(plan, p, e.src, e.at) && p < |plan.reqs| && w <= plan.voters <= p
    requires forall u: nat :: u < plan.voters ==> Remote(plan, p, e.src, e.at, u) == 0
    ensures Infer(plan, id, x, p, e, v, w) == x
    decreases plan.voters - w
  {
    if w < plan.voters { InferNone(plan, id, x, p, e, v, w + 1); }
  }

  /** A message that tells of one voter's state adds one report. */
  lemma {:induction false} InferOne(plan: Plan, id: nat, x: Voter, p: nat, e: Edge, v: Value, w: nat, u: nat)
    requires Shaped(plan) && IsState(plan, p, e.src, e.at) && p < |plan.reqs| && w <= plan.voters <= p && u < plan.voters
    requires forall a: nat :: a < plan.voters ==> (Remote(plan, p, e.src, e.at, a) != 0 <==> a == u)
    ensures Infer(plan, id, x, p, e, v, w) == if w <= u then Merge(plan, id, x, Implied(plan, p, e, u, v)) else x
    decreases plan.voters - w
  {
    if w < plan.voters {
      var y := if w == u then Merge(plan, id, x, Implied(plan, p, e, u, v)) else x;
      InferOne(plan, id, y, p, e, v, w + 1, u);
    }
  }

  // A voter that hears the client first

  function Announced(p: nat, v: nat, x: Value): Msg { Spread(p, p, Edge(p, 0, v), false, {p}, [], x) }

  function Answer(w: nat, l: nat, p: nat, x: Value): Msg { Spread(w, p, Edge(w, 1, l), false, {p}, [], x) }

  function Accepting(v: nat, p: nat, x: Value): Voter {
    FRESH.(fast := Some(Fast(p, x)), participants := {p}, values := map[p := x], received := map[p := {Edge(p, 0, v)}],
           reports := map[v := Report(v, Some(p), 0, 0, 0, Some(x))])
  }

  /** It enters its first state, and freezes there unless it is the delegate. */
  function Heard(l: nat, v: nat, p: nat, x: Value): Voter {
    var promised := if v == l then 0 else 5 + l;
    FRESH.(fast := Some(Fast(p, x)), time := 1, frozen := v != l, participants := {p}, promised := promised, values := map[p := x],
           cursor := map[p := 1], received := map[p := {Edge(p, 0, v)}], reports := map[v := Report(v, Some(p), promised, 0, 1, Some(x))])
  }

  lemma AcceptsFirst(plan: Plan, p: nat, l: nat, q: set<nat>, v: nat, x: Value)
    requires Direct(plan, p, l, q) && v < 5
    ensures GraphInput(plan, v, FRESH, Announced(p, v, x))
    ensures Absorb(plan, v, FRESH, Announced(p, v, x)) == Accepting(v, p, x)
  {
    var m := Announced(p, v, x);
    assert IsEdge(plan, p, m.edge) by { assert m.edge in plan.graphs[p][v][1].deps; }
    assert FRESH.received == map[];
    var y := GraphValue(plan, v, FRESH, p, x);
    assert y == Accepting(v, p, x).(received := map[]);
    var z := y.(received := y.received[p := ReceivedOf(y, p) + {m.edge}], participants := y.participants + {p});
    assert z == Accepting(v, p, x) by { assert {} + {m.edge} == {m.edge}; }
    InferNone(plan, v, z, p, m.edge, x, 0);
  }

  lemma Overwrite(v: nat, a: Report, b: Report, c: Report)
    ensures map[v := a][v := b] == map[v := b] && map[v := a][v := b][v := c] == map[v := c]
  {
  }

  lemma FirstState(plan: Plan, p: nat, l: nat, v: nat, x: Value)
    requires Shaped(plan) && plan.voters == 5 && |plan.reqs| == 8 && p < 8 && v < 5 && plan.leaders[p] == l
    requires |plan.graphs[p][v]| == (if v == l then 3 else 2) && Ready(plan, v, Accepting(v, p, x), p)
    ensures Enter(plan, v, Accepting(v, p, x), p) == Heard(l, v, p, x)
  {
    Overwrite(v, Report(v, Some(p), 0, 0, 0, Some(x)), Report(v, Some(p), 0, 0, 1, Some(x)), Report(v, Some(p), 5 + l, 0, 1, Some(x)));
  }

  lemma EntersFirst(plan: Plan, p: nat, l: nat, q: set<nat>, v: nat, x: Value)
    requires Direct(plan, p, l, q) && v < 5
    ensures Ready(plan, v, Accepting(v, p, x), p) && Enter(plan, v, Accepting(v, p, x), p) == Heard(l, v, p, x)
    ensures !Ready(plan, v, Heard(l, v, p, x), p)
  {
    FirstState(plan, p, l, v, x);
    if v == l {
      var e :| e in AnswersTo(l, q);
      assert e !in ReceivedOf(Heard(l, v, p, x), p);
    }
  }

  lemma SendsAnswer(plan: Plan, p: nat, l: nat, q: set<nat>, v: nat, x: Value)
    requires Direct(plan, p, l, q) && v < 5
    ensures !FastCommits(plan, v, Heard(l, v, p, x), p)
    ensures v != l && v in q ==> Answer(v, l, p, x) in Emit(plan, v, Heard(l, v, p, x), p, 1)
  {
    if v != l && v in q {
      AnswerFits(plan, p, l, q, v, x);
      assert Edge(v, 1, l) in Outgoing(plan, p, v, 1);
    }
  }

  /** A voter that hears a client first accepts its value, and answers if it is of the quorum. */
  lemma HearsClient(plan: Plan, p: nat, l: nat, q: set<nat>, v: nat, x: Value) returns (out: set<Msg>)
    requires Direct(plan, p, l, q) && v < 5
    ensures Deliver(plan, v, FRESH, Announced(p, v, x)) == (Heard(l, v, p, x), out)
    ensures v != l && v in q ==> Answer(v, l, p, x) in out
  {
    AcceptsFirst(plan, p, l, q, v, x);
    EntersFirst(plan, p, l, q, v, x);
    SendsAnswer(plan, p, l, q, v, x);
    out := Deliver(plan, v, FRESH, Announced(p, v, x)).1;
    assert Advance(plan, v, Accepting(v, p, x), p).0 == Heard(l, v, p, x);
  }

  // A delegate that hears the answers

  /** The delegate before its last answer: it has heard the client and those of `es`. */
  ghost predicate Waits(x: Voter, p: nat, v: Value, es: set<Edge>) {
    && x.fast == Some(Fast(p, v)) && x.time == 1 && !x.frozen && !x.conflict && x.participants == {p} && x.promised == 0
    && x.accepted == 0 && x.decided.None? && CursorOf(x, p) == 1 && ReceivedOf(x, p) == es
  }

  lemma AnswerFits(plan: Plan, p: nat, l: nat, q: set<nat>, w: nat, v: Value)
    requires Direct(plan, p, l, q) && w in q && w != l
    ensures IsEdge(plan, p, Edge(w, 1, l)) && IsState(plan, p, w, 1) && Edge(w, 1, l) in AnswersTo(l, q)
    ensures forall a: nat :: a < 5 ==> (Remote(plan, p, w, 1, a) != 0 <==> a == w)
  {
    assert Edge(w, 1, l) in AnswersTo(l, q);
    assert Edge(w, 1, l) in plan.graphs[p][l][2].deps;
  }

  lemma ValueAgain(plan: Plan, id: nat, x: Voter, p: nat, v: Value, es: set<Edge>)
    requires Waits(x, p, v, es)
    ensures Waits(GraphValue(plan, id, x, p, v), p, v, es)
  {
    assert {p} + {p} == {p};
  }

  lemma MergeWaits(plan: Plan, id: nat, x: Voter, r: Report, p: nat, v: Value, es: set<Edge>)
    requires Waits(x, p, v, es) && r.proposer == Some(p)
    ensures Waits(Merge(plan, id, x, r), p, v, es)
  {
    assert {p} + {p} == {p};
  }

  lemma AbsorbsAnswer(plan: Plan, l: nat, p: nat, w: nat, v: Value, x: Voter, y: Voter, z: Voter)
    requires Shaped(plan) && plan.voters == 5 && 5 <= p < |plan.reqs| && w < 5 && l < 5 && IsState(plan, p, w, 1)
    requires forall a: nat :: a < 5 ==> (Remote(plan, p, w, 1, a) != 0 <==> a == w)
    requires GraphInput(plan, l, x, Answer(w, l, p, v)) && y == GraphValue(plan, l, x, p, v) && p in y.participants
    requires z == y.(received := y.received[p := ReceivedOf(y, p) + {Edge(w, 1, l)}])
    requires |Merge(plan, l, z, Implied(plan, p, Edge(w, 1, l), w, v)).participants| <= 1
    ensures Absorb(plan, l, x, Answer(w, l, p, v)) == Merge(plan, l, z, Implied(plan, p, Edge(w, 1, l), w, v))
  {
    assert y.participants + {p} == y.participants;
    InferOne(plan, l, z, p, Edge(w, 1, l), v, 0, w);
  }

  lemma Counted(plan: Plan, p: nat, l: nat, q: set<nat>, w: nat, v: Value, x: Voter, es: set<Edge>)
    requires Direct(plan, p, l, q) && w in q && w != l && Waits(x, p, v, es) && Edge(w, 1, l) !in es
    ensures GraphInput(plan, l, x, Answer(w, l, p, v))
    ensures Waits(Absorb(plan, l, x, Answer(w, l, p, v)), p, v, es + {Edge(w, 1, l)})
  {
    AnswerFits(plan, p, l, q, w, v);
    var y := GraphValue(plan, l, x, p, v);
    ValueAgain(plan, l, x, p, v, es);
    var z := y.(received := y.received[p := ReceivedOf(y, p) + {Edge(w, 1, l)}]);
    MergeWaits(plan, l, z, Implied(plan, p, Edge(w, 1, l), w, v), p, v, es + {Edge(w, 1, l)});
    AbsorbsAnswer(plan, l, p, w, v, x, y, z);
  }

  lemma HearsAnswer(plan: Plan, p: nat, l: nat, q: set<nat>, w: nat, v: Value, x: Voter, es: set<Edge>)
    requires Direct(plan, p, l, q) && w in q && w != l && Waits(x, p, v, es) && Edge(w, 1, l) !in es
    requires !(AnswersTo(l, q) <= es + {Edge(w, 1, l)})
    ensures Deliver(plan, l, x, Answer(w, l, p, v)).1 == {}
    ensures Waits(Deliver(plan, l, x, Answer(w, l, p, v)).0, p, v, es + {Edge(w, 1, l)})
  {
    Counted(plan, p, l, q, w, v, x, es);
  }

  /** The last answer completes the schedule, and the delegate decides. */
  lemma HearsLastAnswer(plan: Plan, p: nat, l: nat, q: set<nat>, w: nat, v: Value, x: Voter, es: set<Edge>)
    requires Direct(plan, p, l, q) && w in q && w != l && Waits(x, p, v, es) && Edge(w, 1, l) !in es
    requires AnswersTo(l, q) <= es + {Edge(w, 1, l)}
    ensures Deliver(plan, l, x, Answer(w, l, p, v)).0.decided == Some(v)
  {
    Counted(plan, p, l, q, w, v, x, es);
    var y := Absorb(plan, l, x, Answer(w, l, p, v));
    assert Ready(plan, l, y, p);
    var z := Enter(plan, l, y, p);
    assert !Ready(plan, l, z, p);
    assert Advance(plan, l, y, p).0 == z;
    assert FastCommits(plan, l, z, p);
  }
}
