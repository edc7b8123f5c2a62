/** Every primitive action of a voter keeps the invariant. */
module KCensusSteps {
  import opened KCensusPlan
  import opened KCensus
  import opened KCensusSystem
  import opened KCensusSafety
  import opened KCensusFrame
  import opened Quorums

  /** The system after voter `i` has moved to state `y` and sent nothing. */
  function With(S: System, i: nat, y: Voter): System
    requires i < |S.voters|
  {
    S.(voters := S.voters[i := y])
  }

  function Sent(S: System, out: set<Msg>): System { S.(net := S.net + out) }

  lemma OwnParts(plan: Plan, S: System, i: nat)
    requires CoreInv(plan, S) && i < plan.voters
    ensures ClassicInv(plan, S, i) && FastInv(plan, S, i) && CauseInv(plan, S, i) && EvidenceInv(plan, S, i) && LeaderInv(plan, S, i)
    ensures S.voters[i].decided.Some? ==> Chosen(plan, S, S.voters[i].decided.value)
  {
    assert VoterInv(plan, S, i);
  }

  // Bookkeeping: evidence, participants, freezing and promising

  predicate SameVote(x: Voter, y: Voter) {
    && y.fast == x.fast && y.time == x.time && y.accepted == x.accepted && y.classic == x.classic && y.cursor == x.cursor
    && y.decided == x.decided && y.ballot == x.ballot && y.phase == x.phase && y.selected == x.selected && y.acks == x.acks
  }

  predicate Rises(x: Voter, y: Voter) {
    && x.promised <= y.promised && (x.frozen ==> y.frozen) && (y.promised > 0 ==> y.frozen)
    && (y.frozen && !y.conflict && y.accepted == 0 ==> x.frozen && !x.conflict)
    && x.participants <= y.participants && x.values.Keys <= y.values.Keys
  }

  ghost predicate Records(plan: Plan, S: System, i: nat, y: Voter)
    requires i < |S.voters|
  {
    var x := S.voters[i];
    && (forall p: nat :: p in y.values ==> p < |plan.reqs| && p in S.proposals && y.values[p] == S.proposals[p])
    && (forall w: nat :: w in y.reports ==>
          || (w in x.reports && y.reports[w] == x.reports[w])
          || (y.reports[w].voter == w && TrueReport(plan, With(S, i, y), y.reports[w])
              && (y.reports[w].proposer.Some? ==> y.reports[w].proposer.value in y.values)))
  }

  ghost predicate Books(plan: Plan, S: System, i: nat, y: Voter)
    requires i < |S.voters|
  {
    SameVote(S.voters[i], y) && Rises(S.voters[i], y) && Records(plan, S, i, y)
    && (y.frozen || forall p: nat, e :: e in ReceivedOf(y, p) ==> Scheduled(plan, S, p, e))
  }

  lemma BooksActed(plan: Plan, S: System, i: nat, y: Voter)
    requires |S.voters| == plan.voters && i < |S.voters| && SameVote(S.voters[i], y) && Rises(S.voters[i], y)
    ensures Acted(plan, S, With(S, i, y), i)
  {
  }

  lemma BooksClassic(plan: Plan, S: System, i: nat, y: Voter)
    requires |S.voters| == plan.voters && i < |S.voters| && SameVote(S.voters[i], y) && Rises(S.voters[i], y) && ClassicInv(plan, S, i)
    ensures ClassicInv(plan, With(S, i, y), i)
  {
  }

  lemma BooksFast(plan: Plan, S: System, i: nat, y: Voter)
    requires Shaped(plan) && |S.voters| == plan.voters && i < |S.voters| && Books(plan, S, i, y) && FastInv(plan, S, i)
    ensures FastInv(plan, With(S, i, y), i)
  {
    assert i in S.proposals ==> Took(S, i, i);
    assert forall p: nat :: CursorOf(y, p) == CursorOf(S.voters[i], p);
    assert forall p: nat :: p in S.voters[i].values.Keys ==> p in y.values;
  }

  lemma BooksCause(plan: Plan, S: System, i: nat, y: Voter)
    requires Shaped(plan) && |S.voters| == plan.voters && i < |S.voters| && Books(plan, S, i, y) && CauseInv(plan, S, i)
    ensures CauseInv(plan, With(S, i, y), i)
  {
    var T := With(S, i, y);
    BooksActed(plan, S, i, y);
    TookStays(plan, S, T, i);
    SoundUnmoved(plan, S, T, i);
    FinalUnmoved(plan, S, T, i);
  }

  lemma BooksEvidence(plan: Plan, S: System, i: nat, y: Voter)
    requires |S.voters| == plan.voters && i < |S.voters| && Books(plan, S, i, y) && EvidenceInv(plan, S, i)
    ensures EvidenceInv(plan, With(S, i, y), i)
  {
    var T := With(S, i, y);
    BooksActed(plan, S, i, y);
    forall w: nat | w in y.reports
      ensures y.reports[w].voter == w && TrueReport(plan, T, y.reports[w])
      ensures y.reports[w].proposer.Some? ==> y.reports[w].proposer.value in y.values
    {
      if w in S.voters[i].reports && y.reports[w] == S.voters[i].reports[w] {
        TrueStays(plan, S, T, i, y.reports[w]);
        assert y.reports[w].proposer.Some? ==> y.reports[w].proposer.value in S.voters[i].values.Keys;
      }
    }
  }

  lemma BooksKeep(plan: Plan, S: System, i: nat, y: Voter)
    requires CoreInv(plan, S) && i < plan.voters && Books(plan, S, i, y)
    ensures CoreInv(plan, With(S, i, y))
  {
    var T := With(S, i, y);
    OwnParts(plan, S, i);
    BooksActed(plan, S, i, y);
    BooksClassic(plan, S, i, y);
    BooksFast(plan, S, i, y);
    BooksCause(plan, S, i, y);
    BooksEvidence(plan, S, i, y);
    if y.decided.Some? { ChosenStays(plan, S, T, i, y.decided.value); }
    assert LeaderInv(plan, T, i);
    Keep(plan, S, T, i);
  }

  lemma WithTwice(S: System, i: nat, y: Voter, z: Voter)
    requires i < |S.voters|
    ensures With(With(S, i, y), i, z) == With(S, i, z) && With(S, i, S.voters[i]) == S
  {
    assert S.voters[i := y][i := z] == S.voters[i := z];
  }

  /** A voter's account of itself is true. */
  lemma OwnIsTrue(plan: Plan, S: System, i: nat, y: Voter)
    requires Shaped(plan) && |S.voters| == plan.voters && i < plan.voters && ClassicInv(plan, S, i) && FastInv(plan, S, i)
    requires SameVote(S.voters[i], y) && S.voters[i].promised <= y.promised && y.frozen
    ensures TrueReport(plan, With(S, i, y), OwnReport(i, y))
  {
  }

  predicate Freezes(i: nat, x: Voter, y: Voter) {
    && x.promised <= y.promised
    && y == x.(frozen := true, conflict := true, promised := y.promised, reports := x.reports[i := OwnReport(i, y)])
  }

  lemma FreezeKeep(plan: Plan, S: System, i: nat, y: Voter)
    requires CoreInv(plan, S) && i < plan.voters && Freezes(i, S.voters[i], y)
    ensures CoreInv(plan, With(S, i, y)) && TrueReport(plan, With(S, i, y), OwnReport(i, y))
  {
    OwnParts(plan, S, i);
    OwnIsTrue(plan, S, i, y);
    BooksKeep(plan, S, i, y);
  }

  lemma ConflictFreezes(plan: Plan, i: nat, x: Voter)
    ensures Freezes(i, x, FreezeConflict(plan, i, x))
  {
  }

  /** The parts of a voter that evidence does not touch. */
  predicate SameRest(x: Voter, y: Voter) {
    SameVote(x, y) && y.frozen == x.frozen && y.conflict == x.conflict && y.promised == x.promised && y.received == x.received
    && x.participants <= y.participants && x.values.Keys <= y.values.Keys
    && (x.participants <= x.values.Keys ==> y.participants <= y.values.Keys)
  }

  lemma MergeKeep(plan: Plan, S: System, i: nat, r: Report)
    requires CoreInv(plan, S) && i < plan.voters && TrueReport(plan, S, r)
    ensures SameRest(S.voters[i], Merge(plan, i, S.voters[i], r))
    ensures Acted(plan, S, With(S, i, Merge(plan, i, S.voters[i], r)), i)
    ensures CoreInv(plan, With(S, i, Merge(plan, i, S.voters[i], r)))
  {
    var x := S.voters[i];
    var y := Merge(plan, i, x, r);
    OwnParts(plan, S, i);
    MergeIsBooks(plan, S, i, r);
    BooksActed(plan, S, i, y);
    BooksKeep(plan, S, i, y);
  }

  lemma MergeRest(plan: Plan, i: nat, x: Voter, r: Report)
    ensures SameRest(x, Merge(plan, i, x, r))
  {
    if Admissible(plan, i, r) && r.proposer.Some? {
      var p, v := r.proposer.value, r.value.value;
      ValueAdded(x, x.(reports := x.reports[r.voter := r], values := x.values[p := v], participants := x.participants + {p}), p, v);
    }
  }

  lemma ValueAdded(x: Voter, y: Voter, p: nat, v: Value)
    requires y == x.(reports := y.reports, values := x.values[p := v], participants := x.participants + {p})
    ensures SameRest(x, y)
  {
    assert y.values.Keys == x.values.Keys + {p};
  }

  lemma MergeRecords(plan: Plan, S: System, i: nat, r: Report)
    requires Shaped(plan) && |S.voters| == plan.voters && i < plan.voters && TrueReport(plan, S, r) && FastInv(plan, S, i)
    requires Acted(plan, S, With(S, i, Merge(plan, i, S.voters[i], r)), i)
    ensures Records(plan, S, i, Merge(plan, i, S.voters[i], r))
  {
    TrueStays(plan, S, With(S, i, Merge(plan, i, S.voters[i], r)), i, r);
  }

  lemma MergeIsBooks(plan: Plan, S: System, i: nat, r: Report)
    requires Shaped(plan) && |S.voters| == plan.voters && i < plan.voters && TrueReport(plan, S, r)
    requires ClassicInv(plan, S, i) && FastInv(plan, S, i) && CauseInv(plan, S, i)
    ensures SameRest(S.voters[i], Merge(plan, i, S.voters[i], r))
    ensures Books(plan, S, i, Merge(plan, i, S.voters[i], r))
  {
    var x := S.voters[i];
    var y := Merge(plan, i, x, r);
    MergeRest(plan, i, x, r);
    BooksActed(plan, S, i, y);
    MergeRecords(plan, S, i, r);
    assert forall p: nat :: ReceivedOf(y, p) == ReceivedOf(x, p);
  }

  lemma {:induction false} MergeAllKeep(plan: Plan, S: System, i: nat, rs: seq<Report>)
    requires CoreInv(plan, S) && i < plan.voters && forall r :: r in rs ==> TrueReport(plan, S, r)
    ensures SameRest(S.voters[i], MergeAll(plan, i, S.voters[i], rs))
    ensures CoreInv(plan, With(S, i, MergeAll(plan, i, S.voters[i], rs)))
    decreases |rs|
  {
    if rs == [] {
      WithTwice(S, i, S.voters[i], S.voters[i]);
    } else {
      var y := Merge(plan, i, S.voters[i], rs[0]);
      MergeKeep(plan, S, i, rs[0]);
      var T := With(S, i, y);
      forall r | r in rs[1..] ensures TrueReport(plan, T, r) { TrueStays(plan, S, T, i, r); }
      MergeAllKeep(plan, T, i, rs[1..]);
      WithTwice(S, i, y, MergeAll(plan, i, y, rs[1..]));
    }
  }

  /** What a scheduled message's sender believed when it sent the message is so. */
  lemma SenderSound(plan: Plan, S: System, p: nat, e: Edge)
    requires CoreInv(plan, S) && p < |plan.reqs| && IsState(plan, p, e.src, e.at) && Scheduled(plan, S, p, e)
    ensures Sound(plan, S, p, e.src, e.at)
  {
    if e.src < plan.voters {
      assert CauseInv(plan, S, e.src) by { assert VoterInv(plan, S, e.src); }
    } else {
      forall w: nat | w < |plan.reqs| ensures Remote(plan, p, e.src, 0, w) == 0 && Knows(plan, p, e.src, 0, w) == {} {
        StartsEmpty(plan, p, e.src, w);
      }
    }
  }

  /** A scheduled message implies only what is so. */
  lemma ImpliedIsTrue(plan: Plan, S: System, p: nat, e: Edge, w: nat)
    requires CoreInv(plan, S) && p < |plan.reqs| && p in S.proposals && IsState(plan, p, e.src, e.at) && Scheduled(plan, S, p, e)
    requires w < plan.voters && (Remote(plan, p, e.src, e.at, w) != 0 || w == p)
    ensures TrueReport(plan, S, Implied(plan, p, e, w, S.proposals[p]))
  {
    var at := Remote(plan, p, e.src, e.at, w);
    assert Reached(S, w, p, at) by {
      if at == 0 { ProposerTook(plan, S, p); } else { SenderSound(plan, S, p, e); }
    }
    assert w == p ==> Last(plan, p, p) > 0 by { QuorumFacts(plan, p); }
    ReachedIsTrue(plan, S, p, w, at, Implied(plan, p, e, w, S.proposals[p]));
  }

  lemma ProposerTook(plan: Plan, S: System, p: nat)
    requires CoreInv(plan, S) && p < plan.voters && p in S.proposals
    ensures Reached(S, p, p, 0)
  {
    assert FastInv(plan, S, p) by { assert VoterInv(plan, S, p); }
  }

  lemma ReachedIsTrue(plan: Plan, S: System, p: nat, w: nat, at: nat, r: Report)
    requires CoreInv(plan, S) && p < |plan.reqs| && p in S.proposals && w < plan.voters && Reached(S, w, p, at)
    requires at > 0 || Last(plan, p, w) > 0
    requires r == Report(w, Some(p), if at == Last(plan, p, w) then plan.voters + plan.leaders[p] else 0, 0, at, Some(S.proposals[p]))
    ensures TrueReport(plan, S, r)
  {
    OwnParts(plan, S, w);
    assert IsState(plan, p, w, S.voters[w].time);
    if at == Last(plan, p, w) {
      assert Reached(S, w, p, Last(plan, p, w));
    }
  }

  /** The part of an inference that concerns voter `w`. */
  function InferOne(plan: Plan, i: nat, x: Voter, p: nat, e: Edge, v: Value, w: nat): Voter
    requires Shaped(plan) && IsState(plan, p, e.src, e.at) && p < |plan.reqs| && w < plan.voters
  {
    if Remote(plan, p, e.src, e.at, w) != 0 || w == p then Merge(plan, i, x, Implied(plan, p, e, w, v)) else x
  }

  lemma InferOneKeep(plan: Plan, S: System, i: nat, p: nat, e: Edge, w: nat)
    requires CoreInv(plan, S) && i < plan.voters && p < |plan.reqs| && p in S.proposals
    requires IsState(plan, p, e.src, e.at) && Scheduled(plan, S, p, e) && w < plan.voters
    ensures var y := InferOne(plan, i, S.voters[i], p, e, S.proposals[p], w);
      SameRest(S.voters[i], y) && CoreInv(plan, With(S, i, y)) && Scheduled(plan, With(S, i, y), p, e)
  {
    var x, v := S.voters[i], S.proposals[p];
    if Remote(plan, p, e.src, e.at, w) != 0 || w == p {
      ImpliedIsTrue(plan, S, p, e, w);
      MergeKeep(plan, S, i, Implied(plan, p, e, w, v));
      TookStays(plan, S, With(S, i, Merge(plan, i, x, Implied(plan, p, e, w, v))), i);
    } else {
      WithTwice(S, i, x, x);
    }
  }

  lemma InferUnfolds(plan: Plan, i: nat, x: Voter, p: nat, e: Edge, v: Value, w: nat)
    requires Shaped(plan) && IsState(plan, p, e.src, e.at) && p < |plan.reqs| && w < plan.voters
    ensures Infer(plan, i, x, p, e, v, w) == Infer(plan, i, InferOne(plan, i, x, p, e, v, w), p, e, v, w + 1)
  {
  }

  lemma {:induction false} InferKeep(plan: Plan, S: System, i: nat, p: nat, e: Edge, w: nat)
    requires CoreInv(plan, S) && i < plan.voters && p < |plan.reqs| && p in S.proposals
    requires IsState(plan, p, e.src, e.at) && Scheduled(plan, S, p, e) && w <= plan.voters
    ensures CoreInv(plan, With(S, i, Infer(plan, i, S.voters[i], p, e, S.proposals[p], w)))
    decreases plan.voters - w
  {
    var x, v := S.voters[i], S.proposals[p];
    if w == plan.voters {
      WithTwice(S, i, x, x);
    } else {
      var y := InferOne(plan, i, x, p, e, v, w);
      InferOneKeep(plan, S, i, p, e, w);
      InferUnfolds(plan, i, x, p, e, v, w);
      InferKeep(plan, With(S, i, y), i, p, e, w + 1);
      WithTwice(S, i, y, Infer(plan, i, y, p, e, v, w + 1));
    }
  }

  // Accepting

  /** Voter `i`, unfrozen and without a fast value, accepts the value of `p`. */
  ghost predicate Accepts(plan: Plan, S: System, T: System, i: nat, p: nat, v: Value) {
    && i < |S.voters| == plan.voters && T.net == S.net && p < |plan.reqs|
    && var x := S.voters[i];
    && x.fast.None? && !x.frozen
    && T.voters == S.voters[i := x.(fast := Some(Fast(p, v)), time := 0, values := x.values[p := v],
                                    participants := x.participants + {p},
                                    reports := x.reports[i := Report(i, Some(p), 0, 0, 0, Some(v))])]
    && (|| (T.proposals == S.proposals && p in S.proposals && S.proposals[p] == v)
        || (p == i && i !in S.proposals && T.proposals == S.proposals[i := v]))
  }

  lemma AcceptsActed(plan: Plan, S: System, T: System, i: nat, p: nat, v: Value)
    requires Accepts(plan, S, T, i, p, v) && S.voters[i].time == 0
    ensures Acted(plan, S, T, i)
  {
  }

  lemma AcceptsFast(plan: Plan, S: System, T: System, i: nat, p: nat, v: Value)
    requires Shaped(plan) && Accepts(plan, S, T, i, p, v) && FastInv(plan, S, i) && ClassicInv(plan, S, i)
    ensures FastInv(plan, T, i) && ClassicInv(plan, T, i)
  {
    var x, y := S.voters[i], T.voters[i];
    assert forall q: nat :: CursorOf(y, q) == CursorOf(x, q);
    assert CursorOf(x, p) == 0;
    assert i in S.proposals ==> Took(S, i, i);
  }

  lemma AcceptsCause(plan: Plan, S: System, T: System, i: nat, p: nat, v: Value)
    requires GoodPlan(plan) && Accepts(plan, S, T, i, p, v) && Acted(plan, S, T, i) && CauseInv(plan, S, i)
    ensures CauseInv(plan, T, i)
  {
    TookStays(plan, S, T, i);
    var x, y := S.voters[i], T.voters[i];
    assert forall q: nat :: ReceivedOf(y, q) == ReceivedOf(x, q);
    forall q: nat, k: nat | IsState(plan, q, i, k) && Reached(T, i, q, k) ensures Sound(plan, T, q, i, k) {
      assert q == p && k == 0;
      forall a: nat | Believes(plan, q, i, k, a) ensures Took(T, a, q) {
        var w: nat :| w < |plan.reqs| && a in Knows(plan, q, i, k, w);
        StartsEmpty(plan, p, i, w);
      }
      forall w: nat | w < plan.voters ensures Remote(plan, q, i, k, w) == 0 { StartsEmpty(plan, p, i, w); }
    }
  }

  lemma AcceptsEvidence(plan: Plan, S: System, T: System, i: nat, p: nat, v: Value)
    requires Shaped(plan) && Accepts(plan, S, T, i, p, v) && Acted(plan, S, T, i) && EvidenceInv(plan, S, i)
    ensures EvidenceInv(plan, T, i)
  {
    var x, y := S.voters[i], T.voters[i];
    forall w: nat | w in y.reports
      ensures y.reports[w].voter == w && TrueReport(plan, T, y.reports[w])
      ensures y.reports[w].proposer.Some? ==> y.reports[w].proposer.value in y.values
    {
      if w != i { TrueStays(plan, S, T, i, x.reports[w]); }
    }
  }

  lemma AcceptsKeep(plan: Plan, S: System, T: System, i: nat, p: nat, v: Value)
    requires CoreInv(plan, S) && Accepts(plan, S, T, i, p, v)
    ensures CoreInv(plan, T)
  {
    OwnParts(plan, S, i);
    AcceptsActed(plan, S, T, i, p, v);
    AcceptsFast(plan, S, T, i, p, v);
    AcceptsCause(plan, S, T, i, p, v);
    AcceptsEvidence(plan, S, T, i, p, v);
    assert LeaderInv(plan, T, i);
    if T.voters[i].decided.Some? { ChosenStays(plan, S, T, i, T.voters[i].decided.value); }
    Keep(plan, S, T, i);
  }

  // The schedule

  /** Voter `i` enters its next state for `p`; while unfrozen, its knowledge of an accepted `p` follows. */
  predicate Learns(x: Voter, p: nat) { !x.frozen && x.fast.Some? && x.fast.value.proposer == p }

  lemma EnterShape(plan: Plan, S: System, i: nat, p: nat)
    requires Shaped(plan) && i < |S.voters| == plan.voters && p < |plan.reqs| && Ready(plan, i, S.voters[i], p)
    requires ClassicInv(plan, S, i) && FastInv(plan, S, i)
    ensures var x := S.voters[i]; var y := Enter(plan, i, x, p); var j := CursorOf(x, p) + 1;
      if Learns(x, p) then
        && y.time == j && y.frozen == (j == Last(plan, p, i))
        && y.promised == (if j == Last(plan, p, i) then plan.voters + plan.leaders[p] else 0)
        && y == x.(cursor := x.cursor[p := j], time := j, frozen := y.frozen, promised := y.promised, reports := y.reports)
        && y.reports == x.reports[i := Report(i, Some(p), y.promised, 0, j, Some(x.fast.value.value))]
      else y == x.(cursor := x.cursor[p := j])
  {
  }

  lemma EnterActed(plan: Plan, S: System, i: nat, p: nat)
    requires Shaped(plan) && i < |S.voters| == plan.voters && p < |plan.reqs| && Ready(plan, i, S.voters[i], p)
    requires ClassicInv(plan, S, i) && FastInv(plan, S, i)
    ensures Acted(plan, S, With(S, i, Enter(plan, i, S.voters[i], p)), i)
  {
    EnterShape(plan, S, i, p);
  }

  lemma EnterFast(plan: Plan, S: System, i: nat, p: nat)
    requires Shaped(plan) && i < |S.voters| == plan.voters && p < |plan.reqs| && Ready(plan, i, S.voters[i], p)
    requires ClassicInv(plan, S, i) && FastInv(plan, S, i) && (S.voters[i].frozen || S.voters[i].fast.Some?)
    ensures ClassicInv(plan, With(S, i, Enter(plan, i, S.voters[i], p)), i)
    ensures FastInv(plan, With(S, i, Enter(plan, i, S.voters[i], p)), i)
  {
    EnterShape(plan, S, i, p);
    assert i in S.proposals ==> Took(S, i, i);
  }

  lemma EnterEvidence(plan: Plan, S: System, i: nat, p: nat)
    requires Shaped(plan) && i < |S.voters| == plan.voters && p < |plan.reqs| && Ready(plan, i, S.voters[i], p)
    requires ClassicInv(plan, S, i) && FastInv(plan, S, i) && EvidenceInv(plan, S, i)
    ensures EvidenceInv(plan, With(S, i, Enter(plan, i, S.voters[i], p)), i)
  {
    EnterShape(plan, S, i, p);
    EnterActed(plan, S, i, p);
    var x := S.voters[i];
    var y := Enter(plan, i, x, p);
    var T := With(S, i, y);
    forall w: nat | w in y.reports
      ensures y.reports[w].voter == w && TrueReport(plan, T, y.reports[w])
      ensures y.reports[w].proposer.Some? ==> y.reports[w].proposer.value in y.values
    {
      if w != i || !Learns(x, p) { TrueStays(plan, S, T, i, x.reports[w]); }
    }
  }

  /** What a voter believes on entering a state was believed, truly, by the causes of that state. */
  lemma CausedTook(plan: Plan, S: System, T: System, i: nat, p: nat, j: nat, a: nat)
    requires GoodPlan(plan) && |S.voters| == plan.voters && i < plan.voters && IsState(plan, p, i, j) && 0 < j && Acted(plan, S, T, i)
    requires Took(T, i, p) && Sound(plan, S, p, i, j - 1)
    requires forall e :: e in StateOf(plan, p, i, j).deps ==> IsState(plan, p, e.src, e.at) && Sound(plan, S, p, e.src, e.at)
    requires Believes(plan, p, i, j, a)
    ensures Took(T, a, p)
  {
    TookStays(plan, S, T, i);
    assert KnowledgeCaused(plan, p, i, j, a);
    if a != i && !Believes(plan, p, i, j - 1, a) {
      var e :| e in StateOf(plan, p, i, j).deps && IsState(plan, p, e.src, e.at) && Believes(plan, p, e.src, e.at, a);
      assert Sound(plan, S, p, e.src, e.at);
    }
  }

  lemma CausedReached(plan: Plan, S: System, T: System, i: nat, p: nat, j: nat, w: nat)
    requires GoodPlan(plan) && |S.voters| == plan.voters && i < plan.voters && IsState(plan, p, i, j) && 0 < j && Acted(plan, S, T, i)
    requires Reached(T, i, p, j) && Sound(plan, S, p, i, j - 1)
    requires forall e :: e in StateOf(plan, p, i, j).deps ==> IsState(plan, p, e.src, e.at) && Sound(plan, S, p, e.src, e.at)
    requires w < plan.voters && Remote(plan, p, i, j, w) > 0
    ensures Reached(T, w, p, Remote(plan, p, i, j, w))
  {
    TookStays(plan, S, T, i);
    assert RemoteCaused(plan, p, i, j, w);
    var t := Remote(plan, p, i, j, w);
    if !(w == i && t == j) && t != Remote(plan, p, i, j - 1, w) {
      var e :| e in StateOf(plan, p, i, j).deps && IsState(plan, p, e.src, e.at) && t == Remote(plan, p, e.src, e.at, w);
      assert Sound(plan, S, p, e.src, e.at);
    }
  }

  lemma EnterSound(plan: Plan, S: System, i: nat, p: nat)
    requires CoreInv(plan, S) && i < plan.voters && p < |plan.reqs| && Ready(plan, i, S.voters[i], p) && Learns(S.voters[i], p)
    ensures var y := Enter(plan, i, S.voters[i], p);
      && Acted(plan, S, With(S, i, y), i) && Took(S, i, p) && CauseInv(plan, S, i)
      && y.time == S.voters[i].time + 1 && IsState(plan, p, i, y.time) && Sound(plan, With(S, i, y), p, i, y.time)
  {
    var x := S.voters[i];
    var T := With(S, i, Enter(plan, i, x, p));
    var j := CursorOf(x, p) + 1;
    OwnParts(plan, S, i);
    EnterShape(plan, S, i, p);
    EnterActed(plan, S, i, p);
    assert Reached(S, i, p, j - 1) && IsState(plan, p, i, j - 1);
    forall e | e in StateOf(plan, p, i, j).deps ensures IsState(plan, p, e.src, e.at) && Sound(plan, S, p, e.src, e.at) {
      assert e in ReceivedOf(x, p);
      SenderSound(plan, S, p, e);
    }
    forall a: nat | Believes(plan, p, i, j, a) ensures Took(T, a, p) { CausedTook(plan, S, T, i, p, j, a); }
    forall w: nat | w < plan.voters && Remote(plan, p, i, j, w) > 0 ensures Reached(T, w, p, Remote(plan, p, i, j, w)) {
      CausedReached(plan, S, T, i, p, j, w);
    }
  }

  lemma OneMoreSound(plan: Plan, S: System, T: System, i: nat, p: nat)
    requires Shaped(plan) && Acted(plan, S, T, i) && CauseInv(plan, S, i) && Took(S, i, p)
    requires T.voters[i].time == S.voters[i].time + 1
    requires IsState(plan, p, i, T.voters[i].time) && Sound(plan, T, p, i, T.voters[i].time)
    ensures forall q: nat, k: nat :: IsState(plan, q, i, k) && Reached(T, i, q, k) ==> Sound(plan, T, q, i, k)
  {
    forall q: nat, k: nat | IsState(plan, q, i, k) && Reached(T, i, q, k) ensures Sound(plan, T, q, i, k) {
      if Reached(S, i, q, k) { SoundStays(plan, S, T, i, q, i, k); }
    }
  }

  lemma EnterSounds(plan: Plan, S: System, i: nat, p: nat)
    requires CoreInv(plan, S) && i < plan.voters && p < |plan.reqs| && Ready(plan, i, S.voters[i], p) && Learns(S.voters[i], p)
    ensures var T := With(S, i, Enter(plan, i, S.voters[i], p));
      forall q: nat, k: nat :: IsState(plan, q, i, k) && Reached(T, i, q, k) ==> Sound(plan, T, q, i, k)
  {
    var T := With(S, i, Enter(plan, i, S.voters[i], p));
    EnterSound(plan, S, i, p);
    OneMoreSound(plan, S, T, i, p);
  }

  lemma EnterCause(plan: Plan, S: System, i: nat, p: nat)
    requires CoreInv(plan, S) && i < plan.voters && p < |plan.reqs| && Ready(plan, i, S.voters[i], p)
    ensures CauseInv(plan, With(S, i, Enter(plan, i, S.voters[i], p)), i)
  {
    var x := S.voters[i];
    var T := With(S, i, Enter(plan, i, x, p));
    assert CauseInv(plan, S, i) && FastInv(plan, S, i) && ClassicInv(plan, S, i) by { OwnParts(plan, S, i); }
    EnterActed(plan, S, i, p);
    EnterShape(plan, S, i, p);
    if Learns(x, p) {
      EnterSounds(plan, S, i, p);
      EnterFinal(plan, S, i, p);
      ReceivedUnmoved(plan, S, T, i);
    } else {
      CauseUnmoved(plan, S, T, i);
    }
  }

  lemma EnterFinal(plan: Plan, S: System, i: nat, p: nat)
    requires Shaped(plan) && i < |S.voters| == plan.voters && p < |plan.reqs| && Ready(plan, i, S.voters[i], p)
    requires ClassicInv(plan, S, i) && FastInv(plan, S, i) && CauseInv(plan, S, i)
    ensures var T := With(S, i, Enter(plan, i, S.voters[i], p));
      forall q: nat :: q < |plan.reqs| && Last(plan, q, i) > 0 && Reached(T, i, q, Last(plan, q, i)) ==>
        T.voters[i].frozen && T.voters[i].promised >= plan.voters + plan.leaders[q]
        && forall c: nat, v: Value :: c < plan.voters + plan.leaders[q] ==> !Voted(T.net, i, c, v)
  {
    var T := With(S, i, Enter(plan, i, S.voters[i], p));
    EnterShape(plan, S, i, p);
    forall q: nat | q < |plan.reqs| && Last(plan, q, i) > 0 && Reached(T, i, q, Last(plan, q, i))
      ensures T.voters[i].frozen && T.voters[i].promised >= plan.voters + plan.leaders[q]
      ensures forall c: nat, v: Value :: c < plan.voters + plan.leaders[q] ==> !Voted(T.net, i, c, v)
    {
      if Learns(S.voters[i], p) {
        assert forall c: nat, v: Value :: !Voted(S.net, i, c, v);
      } else {
        assert Reached(S, i, q, Last(plan, q, i));
      }
    }
  }

  lemma EnterLeads(plan: Plan, S: System, i: nat, p: nat)
    requires CoreInv(plan, S) && i < plan.voters && p < |plan.reqs| && Ready(plan, i, S.voters[i], p)
    ensures var T := With(S, i, Enter(plan, i, S.voters[i], p));
      LeaderInv(plan, T, i) && (T.voters[i].decided.Some? ==> Chosen(plan, T, T.voters[i].decided.value))
  {
    var x := S.voters[i];
    var T := With(S, i, Enter(plan, i, x, p));
    assert LeaderInv(plan, S, i) && Acted(plan, S, T, i) && T.voters[i].decided == x.decided by {
      OwnParts(plan, S, i);
      EnterActed(plan, S, i, p);
      EnterShape(plan, S, i, p);
    }
    if x.decided.Some? {
      assert Chosen(plan, S, x.decided.value) by { OwnParts(plan, S, i); }
      ChosenStays(plan, S, T, i, x.decided.value);
    }
  }

  lemma EnterKeep(plan: Plan, S: System, i: nat, p: nat)
    requires CoreInv(plan, S) && i < plan.voters && p < |plan.reqs| && Ready(plan, i, S.voters[i], p)
    requires S.voters[i].frozen || S.voters[i].fast.Some?
    ensures CoreInv(plan, With(S, i, Enter(plan, i, S.voters[i], p)))
  {
    var T := With(S, i, Enter(plan, i, S.voters[i], p));
    assert VoterInv(plan, T, i) && Acted(plan, S, T, i) by {
      OwnParts(plan, S, i);
      EnterActed(plan, S, i, p);
      EnterFast(plan, S, i, p);
      EnterCause(plan, S, i, p);
      EnterEvidence(plan, S, i, p);
      EnterLeads(plan, S, i, p);
    }
    Keep(plan, S, T, i);
  }
}
