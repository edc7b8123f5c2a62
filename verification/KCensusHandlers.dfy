/** Every step of a run keeps the invariant; the census step needs what the census module proves. */
module KCensusHandlers {
  import opened KCensusPlan
  import opened KCensus
  import opened KCensusSystem
  import opened KCensusSafety
  import opened KCensusCensus
  import opened KCensusFrame
  import opened KCensusSteps
  import opened KCensusAbsorb
  import opened KCensusSpread
  import opened Quorums

  /** A step of voter `i` that ends in state `y` and sends `out`. */
  function After(S: System, i: nat, y: Voter, out: set<Msg>): System
    requires i < |S.voters|
  {
    Sent(With(S, i, y), out)
  }

  // Schedule messages

  lemma DepsAre(plan: Plan, p: nat, i: nat, e: Edge)
    requires GoodPlan(plan) && p < |plan.reqs| && i < plan.voters && i !in Quorum(plan.reqs[p])
    requires e.dst == i && IsEdge(plan, p, e)
    ensures Last(plan, p, i) == 1 && StateOf(plan, p, i, 1).deps == {e}
  {
    assert plan.leaders[p] < plan.voters;
    assert plan.reqs[p][i] == {};
    var j :| 0 <= j < |plan.graphs[p][i]| && e in plan.graphs[p][i][j].deps;
    assert IsState(plan, p, i, j) && e in StateOf(plan, p, i, j).deps;
    assert j == 1;
    SingletonIs(StateOf(plan, p, i, 1).deps, e);
  }

  lemma SingletonIs(s: set<Edge>, e: Edge)
    requires |s| == 1 && e in s
    ensures s == {e}
  {
    SubsetSize({e}, s);
    if s != {e} {
      var f :| f in s && f != e;
      SubsetSize({e, f}, s);
    }
  }

  /** A voter outside the quorum that accepts on a schedule message is at once ready to finish. */
  lemma AcceptorReady(plan: Plan, S: System, i: nat, m: Msg)
    requires Inv(plan, S) && i < plan.voters && m in S.net && GraphInput(plan, i, S.voters[i], m)
    requires var y := Absorb(plan, i, S.voters[i], m); y.fast != S.voters[i].fast
    requires i !in Quorum(plan.reqs[m.proposer])
    ensures var y := Absorb(plan, i, S.voters[i], m);
      Learns(y, m.proposer) && Ready(plan, i, y, m.proposer) && CursorOf(y, m.proposer) + 1 == Last(plan, m.proposer, i)
  {
    var x := S.voters[i];
    AbsorbShape(plan, i, x, m);
    DepsAre(plan, m.proposer, i, m.edge);
    assert FastInv(plan, S, i) by { OwnParts(plan, S, i); }
    assert CursorOf(x, m.proposer) == 0;
  }

  lemma SpreadPrompt(plan: Plan, S: System, i: nat, m: Msg)
    requires Inv(plan, S) && i < plan.voters && m in S.net && GraphInput(plan, i, S.voters[i], m)
    ensures Prompt(plan, OnSpread(plan, i, S.voters[i], m).0, i)
  {
    var x, p := S.voters[i], m.proposer;
    var y := Absorb(plan, i, x, m);
    var z := OnSpread(plan, i, x, m).0;
    AbsorbKeep(plan, S, i, m);
    AbsorbShape(plan, i, x, m);
    AdvanceKeep(plan, With(S, i, y), i, p);
    ProgressKeep(plan, With(S, i, y), i, p);
    assert Prompt(plan, x, i);
    if y.fast != x.fast && i !in Quorum(plan.reqs[p]) {
      AcceptorReady(plan, S, i, m);
    }
  }

  lemma SpreadKeep(plan: Plan, S: System, i: nat, m: Msg)
    requires CoreInv(plan, S) && i < plan.voters && m in S.net && GraphInput(plan, i, S.voters[i], m)
    ensures CoreInv(plan, After(S, i, OnSpread(plan, i, S.voters[i], m).0, OnSpread(plan, i, S.voters[i], m).1))
  {
    var x := S.voters[i];
    var y := Absorb(plan, i, x, m);
    AbsorbKeep(plan, S, i, m);
    AbsorbShape(plan, i, x, m);
    ProgressKeep(plan, With(S, i, y), i, m.proposer);
    WithTwice(S, i, y, OnSpread(plan, i, x, m).0);
  }

  // Proposing

  lemma ProposeTakes(plan: Plan, S: System, i: nat)
    requires Inv(plan, S) && i < plan.voters && CanPropose(S.voters[i])
    ensures S.voters[i].participants == {} && i !in S.proposals && Takes(Joined(S.voters[i], {i}), i)
  {
    assert Prompt(plan, S.voters[i], i);
    assert FastInv(plan, S, i) by { OwnParts(plan, S, i); }
    assert S.voters[i].participants == {};
    assert {} + {i} + {i} == {i};
  }

  lemma ProposeUnfolds(plan: Plan, i: nat, x: Voter, v: Value)
    requires Shaped(plan) && i < |plan.reqs|
    ensures var x1 := GraphValue(plan, i, Joined(x, {i}), i, v);
      && Propose(plan, i, x, v).0 == Progress(plan, i, x1, i).0
      && Propose(plan, i, x, v).1 == Emit(plan, i, x1, i, 0) + Progress(plan, i, x1, i).1
  {
  }

  lemma ProposeTakeKeep(plan: Plan, S: System, i: nat, v: Value)
    requires Inv(plan, S) && i < plan.voters && CanPropose(S.voters[i])
    ensures var x1 := GraphValue(plan, i, Joined(S.voters[i], {i}), i, v);
      && CoreInv(plan, With(S, i, x1).(proposals := S.proposals[i := v]))
      && i in x1.values && x1.participants <= x1.values.Keys && x1.fast.Some? && x1.fast.value.proposer == i
  {
    var x0 := Joined(S.voters[i], {i});
    var x1 := GraphValue(plan, i, x0, i, v);
    ProposeTakes(plan, S, i);
    JoinKeep(plan, S, i, {i});
    WithTwice(S, i, x0, x1);
    TakeKeep(plan, With(S, i, x0), i, i, With(S, i, x1).(proposals := S.proposals[i := v]), v);
    GraphValueShape(plan, i, x0, i, v);
  }

  lemma SentBoth(S: System, i: nat, y: Voter, z: Voter, a: set<Msg>, b: set<Msg>, ps: map<nat, Value>)
    requires i < |S.voters|
    ensures After(S, i, z, a + b).(proposals := ps) == After(Sent(With(S, i, y).(proposals := ps), a), i, z, b)
  {
    WithTwice(S, i, y, z);
    assert S.net + (a + b) == S.net + a + b;
  }

  lemma ProposeKeep(plan: Plan, S: System, i: nat, v: Value)
    requires Inv(plan, S) && i < plan.voters && CanPropose(S.voters[i])
    ensures CoreInv(plan, After(S, i, Propose(plan, i, S.voters[i], v).0, Propose(plan, i, S.voters[i], v).1).(proposals := S.proposals[i := v]))
    ensures Prompt(plan, Propose(plan, i, S.voters[i], v).0, i)
  {
    var x := S.voters[i];
    var x1 := GraphValue(plan, i, Joined(x, {i}), i, v);
    ProposeTakeKeep(plan, S, i, v);
    StartedKeep(plan, With(S, i, x1).(proposals := S.proposals[i := v]), i);
    ProposeUnfolds(plan, i, x, v);
    SentBoth(S, i, x1, Progress(plan, i, x1, i).0, Emit(plan, i, x1, i, 0), Progress(plan, i, x1, i).1, S.proposals[i := v]);
  }

  /** A proposer that has just accepted its own value starts its schedule. */
  lemma StartedKeep(plan: Plan, T: System, i: nat)
    requires CoreInv(plan, T) && i < plan.voters
    requires var x := T.voters[i]; i in x.values && x.participants <= x.values.Keys && x.fast.Some? && x.fast.value.proposer == i
    ensures var x := T.voters[i]; var y := Progress(plan, i, x, i).0;
      CoreInv(plan, After(Sent(T, Emit(plan, i, x, i, 0)), i, y, Progress(plan, i, x, i).1)) && Prompt(plan, y, i)
  {
    EmitKeep(plan, T, i, i, 0);
    ProgressKeep(plan, Sent(T, Emit(plan, i, T.voters[i], i, 0)), i, i);
    QuorumFacts(plan, i);
  }

  lemma AnnounceKeep(plan: Plan, S: System, T: System, p: nat, v: Value)
    requires CoreInv(plan, S) && p >= plan.voters && p !in S.proposals && T == S.(proposals := S.proposals[p := v])
    ensures CoreInv(plan, T)
  {
    assert Acted(plan, S, T, 0);
    assert LeaderInv(plan, T, 0) && (T.voters[0].decided.Some? ==> Chosen(plan, T, T.voters[0].decided.value)) by {
      OwnParts(plan, S, 0);
      if T.voters[0].decided.Some? { ChosenStays(plan, S, T, 0, T.voters[0].decided.value); }
    }
    UnmovedKeep(plan, S, T, 0);
  }

  /** A process without a vote announces its value. */
  lemma ClientKeep(plan: Plan, S: System, T: System, p: nat, v: Value)
    requires CoreInv(plan, S) && ClientStep(plan, S, T, p, v)
    ensures CoreInv(plan, T)
  {
    var U := S.(proposals := S.proposals[p := v]);
    AnnounceKeep(plan, S, U, p, v);
    var out := set e | e in Outgoing(plan, p, p, 0) :: Spread(p, p, e, false, {p}, [], v);
    forall m | m in out ensures MsgOk(plan, U, m) && !m.Accept? && !m.Accepted? { }
    SendKeep(plan, U, out, 0);
    assert T == Sent(U, out);
  }

  // Classic messages

  lemma AbandonKeep(plan: Plan, S: System, i: nat, m: Msg)
    requires CoreInv(plan, S) && i < plan.voters && m.Abandon?
    ensures CoreInv(plan, With(S, i, OnAbandon(plan, i, S.voters[i], m)))
  {
    var y := Joined(S.voters[i], m.mask);
    JoinKeep(plan, S, i, m.mask);
    FreezeIfKeep(plan, With(S, i, y), i);
    WithTwice(S, i, y, FreezeConflict(plan, i, y));
  }

  lemma NackKeep(plan: Plan, S: System, i: nat, m: Msg)
    requires CoreInv(plan, S) && i < plan.voters && m.Nack?
    ensures CoreInv(plan, With(S, i, OnNack(i, S.voters[i], m)))
  {
    var x := S.voters[i];
    if m.ballot > x.promised {
      assert Freezes(i, x, OnNack(i, x, m));
      FreezeKeep(plan, S, i, OnNack(i, x, m));
    } else {
      WithTwice(S, i, x, x);
    }
  }

  lemma NothingSent(S: System, i: nat)
    requires i < |S.voters|
    ensures After(S, i, S.voters[i], {}) == S
  {
    WithTwice(S, i, S.voters[i], S.voters[i]);
    assert S.net + {} == S.net;
  }

  lemma NackSent(plan: Plan, S: System, i: nat, b: nat)
    requires CoreInv(plan, S) && i < plan.voters
    ensures CoreInv(plan, After(S, i, S.voters[i], {Nack(i, b)}))
  {
    WithTwice(S, i, S.voters[i], S.voters[i]);
    SendKeep(plan, S, {Nack(i, b)}, i);
  }

  lemma PrepareKeep(plan: Plan, S: System, i: nat, m: Msg)
    requires CoreInv(plan, S) && i < plan.voters && m.Prepare?
    ensures CoreInv(plan, After(S, i, OnPrepare(plan, i, S.voters[i], m).0, OnPrepare(plan, i, S.voters[i], m).1))
  {
    var x := S.voters[i];
    if m.sender >= plan.voters || m.ballot == 0 || Owner(plan.voters, m.ballot) != m.sender {
      NothingSent(S, i);
    } else if m.ballot < x.promised {
      NackSent(plan, S, i, x.promised);
    } else {
      var (y, out) := OnPrepare(plan, i, x, m);
      assert Freezes(i, x, y);
      FreezeKeep(plan, S, i, y);
      assert OwnReport(i, y).voter == i && OwnReport(i, y).ballot == m.ballot;
      SendKeep(plan, With(S, i, y), out, i);
    }
  }

  lemma PromiseKeep(plan: Plan, S: System, i: nat, m: Msg)
    requires CoreInv(plan, S) && i < plan.voters && m.Promise? && m in S.net
    ensures CoreInv(plan, With(S, i, OnPromise(plan, i, S.voters[i], m)))
    ensures var x := S.voters[i]; var y := OnPromise(plan, i, x, m); SameRest(x, y)
  {
    var x, r := S.voters[i], m.report;
    assert TrueReport(plan, S, r) by { assert MsgOk(plan, S, m); }
    if m.sender >= plan.voters {
      WithTwice(S, i, x, x);
    } else if r.proposer.Some? {
      var y := x.(values := x.values[r.proposer.value := r.value.value]);
      ValueKeep(plan, S, i, y, r);
      MergeKeep(plan, With(S, i, y), i, r);
      WithTwice(S, i, y, Merge(plan, i, y, r));
      RestTransitive(x, y, Merge(plan, i, y, r));
    } else {
      MergeKeep(plan, S, i, r);
    }
  }

  lemma ValueIsBooks(plan: Plan, S: System, i: nat, y: Voter, r: Report)
    requires Shaped(plan) && i < plan.voters == |S.voters| && ClassicInv(plan, S, i) && FastInv(plan, S, i) && CauseInv(plan, S, i)
    requires TrueReport(plan, S, r) && r.proposer.Some?
    requires y == S.voters[i].(values := S.voters[i].values[r.proposer.value := r.value.value])
    ensures Books(plan, S, i, y)
  {
    assert forall q: nat :: ReceivedOf(y, q) == ReceivedOf(S.voters[i], q);
  }

  lemma ValueKeep(plan: Plan, S: System, i: nat, y: Voter, r: Report)
    requires CoreInv(plan, S) && i < plan.voters && TrueReport(plan, S, r) && r.proposer.Some?
    requires y == S.voters[i].(values := S.voters[i].values[r.proposer.value := r.value.value])
    ensures CoreInv(plan, With(S, i, y)) && SameRest(S.voters[i], y) && TrueReport(plan, With(S, i, y), r)
  {
    assert Books(plan, S, i, y) by {
      OwnParts(plan, S, i);
      ValueIsBooks(plan, S, i, y, r);
    }
    BooksKeep(plan, S, i, y);
    BooksActed(plan, S, i, y);
    TrueStays(plan, S, With(S, i, y), i, r);
  }

  // Accepting in a ballot

  /** Voter `i` accepts `v` in ballot `b`. */
  ghost predicate Ratifies(plan: Plan, S: System, i: nat, b: nat, v: Value, y: Voter) {
    && CoreInv(plan, S) && i < plan.voters && b > 0 && S.voters[i].promised <= b
    && Accept(Owner(plan.voters, b), b, v) in S.net
    && y == S.voters[i].(frozen := true, promised := b, accepted := b, classic := Some(v),
                         reports := S.voters[i].reports[i := Report(i, None, b, b, 0, Some(v))])
  }

  /** A ballot has one value. */
  lemma OneAccept(plan: Plan, S: System, b: nat, v: Value, w: Value)
    requires CoreInv(plan, S) && Accept(Owner(plan.voters, b), b, v) in S.net && Accept(Owner(plan.voters, b), b, w) in S.net
    ensures v == w
  {
    assert LeaderInv(plan, S, Owner(plan.voters, b)) by { OwnParts(plan, S, Owner(plan.voters, b)); }
  }

  /** A voter never votes for two values in one ballot. */
  lemma OneVote(plan: Plan, S: System, i: nat, b: nat, v: Value, w: Value)
    requires CoreInv(plan, S) && Accept(Owner(plan.voters, b), b, v) in S.net && Voted(S.net, i, b, w)
    ensures v == w
  {
    assert Accept(Owner(plan.voters, b), b, w) in S.net by { assert MsgOk(plan, S, Accepted(i, b, w)); }
    OneAccept(plan, S, b, v, w);
  }

  lemma RatifyActed(plan: Plan, S: System, i: nat, b: nat, v: Value, y: Voter)
    requires Ratifies(plan, S, i, b, v, y)
    ensures Acted(plan, S, After(S, i, y, {Accepted(i, b, v)}), i)
  {
    assert y.fast == S.voters[i].fast && y.time == S.voters[i].time;
    assert VoterGrows(S.voters[i], y);
  }

  lemma RatifyClassic(plan: Plan, S: System, i: nat, b: nat, v: Value, y: Voter)
    requires Ratifies(plan, S, i, b, v, y)
    ensures ClassicInv(plan, After(S, i, y, {Accepted(i, b, v)}), i)
  {
    var T := After(S, i, y, {Accepted(i, b, v)});
    forall c: nat, w: Value | Voted(T.net, i, c, w) ensures c <= b && (c == b ==> w == v) {
      if Voted(S.net, i, c, w) {
        assert ClassicInv(plan, S, i) by { OwnParts(plan, S, i); }
        if c == b { OneVote(plan, S, i, b, v, w); }
      }
    }
  }

  lemma RatifyEvidence(plan: Plan, S: System, i: nat, b: nat, v: Value, y: Voter)
    requires Ratifies(plan, S, i, b, v, y)
    ensures EvidenceInv(plan, After(S, i, y, {Accepted(i, b, v)}), i)
  {
    var x, T := S.voters[i], After(S, i, y, {Accepted(i, b, v)});
    RatifyActed(plan, S, i, b, v, y);
    assert EvidenceInv(plan, S, i) by { OwnParts(plan, S, i); }
    forall w: nat | w in y.reports
      ensures y.reports[w].voter == w && TrueReport(plan, T, y.reports[w])
      ensures y.reports[w].proposer.Some? ==> y.reports[w].proposer.value in y.values
    {
      if w != i { TrueStays(plan, S, T, i, x.reports[w]); }
    }
  }

  lemma RatifyFast(plan: Plan, S: System, i: nat, b: nat, v: Value, y: Voter)
    requires Ratifies(plan, S, i, b, v, y)
    ensures FastInv(plan, After(S, i, y, {Accepted(i, b, v)}), i)
  {
    assert FastInv(plan, S, i) by { OwnParts(plan, S, i); }
    RatifiedFast(plan, S, i, After(S, i, y, {Accepted(i, b, v)}));
  }

  lemma RatifiedFast(plan: Plan, S: System, i: nat, T: System)
    requires Shaped(plan) && i < |S.voters| == plan.voters && FastInv(plan, S, i) && |T.voters| == |S.voters| && T.proposals == S.proposals
    requires T.voters[i].accepted > 0 && T.voters[i].frozen
    requires var x, y := S.voters[i], T.voters[i];
      y.fast == x.fast && y.time == x.time && y.cursor == x.cursor && y.values == x.values && y.participants == x.participants
    ensures FastInv(plan, T, i)
  {
    assert i in S.proposals ==> Took(S, i, i);
    assert forall p: nat :: CursorOf(T.voters[i], p) == CursorOf(S.voters[i], p);
  }

  lemma RatifyCause(plan: Plan, S: System, i: nat, b: nat, v: Value, y: Voter)
    requires Ratifies(plan, S, i, b, v, y)
    ensures CauseInv(plan, After(S, i, y, {Accepted(i, b, v)}), i)
  {
    RatifyActed(plan, S, i, b, v, y);
    assert CauseInv(plan, S, i) by { OwnParts(plan, S, i); }
    CauseUnmoved(plan, S, After(S, i, y, {Accepted(i, b, v)}), i);
  }

  lemma RatifyLeads(plan: Plan, S: System, i: nat, b: nat, v: Value, y: Voter)
    requires Ratifies(plan, S, i, b, v, y)
    ensures LeaderInv(plan, After(S, i, y, {Accepted(i, b, v)}), i)
  {
    assert LeaderInv(plan, S, i) by { OwnParts(plan, S, i); }
  }

  lemma RatifyChosen(plan: Plan, S: System, i: nat, b: nat, v: Value, y: Voter)
    requires Ratifies(plan, S, i, b, v, y)
    ensures y.decided.Some? ==> Chosen(plan, After(S, i, y, {Accepted(i, b, v)}), y.decided.value)
  {
    if y.decided.Some? {
      assert Chosen(plan, S, y.decided.value) by { OwnParts(plan, S, i); }
      RatifyActed(plan, S, i, b, v, y);
      ChosenStays(plan, S, After(S, i, y, {Accepted(i, b, v)}), i, y.decided.value);
    }
  }

  lemma RatifyVoter(plan: Plan, S: System, i: nat, b: nat, v: Value, y: Voter)
    requires Ratifies(plan, S, i, b, v, y)
    ensures VoterInv(plan, After(S, i, y, {Accepted(i, b, v)}), i)
  {
    RatifyClassic(plan, S, i, b, v, y);
    RatifyEvidence(plan, S, i, b, v, y);
    RatifyFast(plan, S, i, b, v, y);
    RatifyCause(plan, S, i, b, v, y);
    RatifyLeads(plan, S, i, b, v, y);
    RatifyChosen(plan, S, i, b, v, y);
  }

  lemma RatifyKeep(plan: Plan, S: System, i: nat, b: nat, v: Value, y: Voter)
    requires Ratifies(plan, S, i, b, v, y)
    ensures CoreInv(plan, After(S, i, y, {Accepted(i, b, v)}))
  {
    RatifyVoter(plan, S, i, b, v, y);
    RatifyActed(plan, S, i, b, v, y);
    assert MsgOk(plan, After(S, i, y, {Accepted(i, b, v)}), Accepted(i, b, v));
    Keep(plan, S, After(S, i, y, {Accepted(i, b, v)}), i);
  }

  lemma AcceptKeep(plan: Plan, S: System, i: nat, m: Msg)
    requires CoreInv(plan, S) && i < plan.voters && m.Accept? && m in S.net
    ensures CoreInv(plan, After(S, i, OnAccept(plan, i, S.voters[i], m).0, OnAccept(plan, i, S.voters[i], m).1))
    ensures !AcceptPanics(S.voters[i], m)
  {
    var x := S.voters[i];
    assert MsgOk(plan, S, m);
    if m.ballot < x.promised {
      NackSent(plan, S, i, x.promised);
    } else {
      RatifyKeep(plan, S, i, m.ballot, m.value, OnAccept(plan, i, x, m).0);
      assert ClassicInv(plan, S, i) by { OwnParts(plan, S, i); }
      if x.accepted == m.ballot { OneVote(plan, S, i, m.ballot, m.value, x.classic.value); }
    }
  }

  // A voter's own ballots

  lemma LedKeep(plan: Plan, S: System, i: nat, y: Voter)
    requires CoreInv(plan, S) && i < plan.voters && SameEvidence(S.voters[i], y) && y.decided == S.voters[i].decided
    requires LeaderInv(plan, With(S, i, y), i)
    ensures CoreInv(plan, With(S, i, y))
  {
    var T := With(S, i, y);
    assert Acted(plan, S, T, i);
    if y.decided.Some? {
      assert Chosen(plan, S, y.decided.value) by { OwnParts(plan, S, i); }
      ChosenStays(plan, S, T, i, y.decided.value);
    }
    UnmovedKeep(plan, S, T, i);
  }

  lemma BeginKeep(plan: Plan, S: System, i: nat, b: nat)
    requires CoreInv(plan, S) && i < plan.voters && b > S.voters[i].ballot && Owner(plan.voters, b) == i
    ensures CoreInv(plan, With(S, i, BeginCensus(S.voters[i], b)))
  {
    var T := With(S, i, BeginCensus(S.voters[i], b));
    assert LeaderInv(plan, T, i) by { OwnParts(plan, S, i); }
    LedKeep(plan, S, i, BeginCensus(S.voters[i], b));
  }

  lemma RoundAboveOwned(n: nat, id: nat, b: nat)
    requires id < n
    ensures RoundAbove(n, id, b) > b && Owner(n, RoundAbove(n, id, b)) == id
  {
    NextRoundOwner(n, id, b);
  }

  /** A recovery ballot is the voter's own and above every ballot it has used. */
  lemma RecoveryBallotOwned(n: nat, id: nat, x: Voter)
    requires id < n
    ensures RecoveryBallot(n, id, x) > x.ballot && Owner(n, RecoveryBallot(n, id, x)) == id
  {
    RoundAboveOwned(n, id, x.promised);
    RoundAboveOwned(n, id, x.ballot);
  }

  lemma AckKeep(plan: Plan, S: System, i: nat, m: Msg)
    requires CoreInv(plan, S) && i < plan.voters && m.Accepted? && m in S.net && CountsAck(plan, S.voters[i], m)
    ensures var x := S.voters[i];
      && m.value == x.selected.value && CoreInv(plan, With(S, i, x.(acks := x.acks + {m.sender})))
      && Owner(plan.voters, x.ballot) == i
  {
    var x := S.voters[i];
    var y := x.(acks := x.acks + {m.sender});
    assert LeaderInv(plan, S, i) by { OwnParts(plan, S, i); }
    OneVote(plan, S, m.sender, x.ballot, x.selected.value, m.value);
    LedKeep(plan, S, i, y);
  }

  lemma AckReport(plan: Plan, S: System, m: Msg)
    requires CoreInv(plan, S) && m.Accepted? && m in S.net
    ensures TrueReport(plan, S, Report(m.sender, None, m.ballot, m.ballot, 0, Some(m.value)))
  {
    assert MsgOk(plan, S, m);
    assert ClassicInv(plan, S, m.sender) by { OwnParts(plan, S, m.sender); }
    assert Voted(S.net, m.sender, m.ballot, m.value);
  }

  lemma AcksChosen(plan: Plan, S: System, i: nat)
    requires CoreInv(plan, S) && i < plan.voters && S.voters[i].selected.Some? && |S.voters[i].acks| >= Majority(plan)
    ensures Chosen(plan, S, S.voters[i].selected.value)
  {
    var x := S.voters[i];
    assert LeaderInv(plan, S, i) by { OwnParts(plan, S, i); }
    SubsetSize(x.acks, VotersFor(plan, S.net, x.ballot, x.selected.value));
    assert ChosenAt(plan, S.net, x.ballot, x.selected.value);
  }

  /** The state after counting an acceptance. */
  function Acked(plan: Plan, i: nat, x: Voter, m: Msg): Voter
    requires m.Accepted?
  {
    Merge(plan, i, x.(acks := x.acks + {m.sender}), Report(m.sender, None, m.ballot, m.ballot, 0, x.selected))
  }

  lemma AckedKeep(plan: Plan, S: System, i: nat, m: Msg)
    requires CoreInv(plan, S) && i < plan.voters && m.Accepted? && m in S.net && CountsAck(plan, S.voters[i], m)
    ensures CoreInv(plan, With(S, i, Acked(plan, i, S.voters[i], m)))
  {
    var x := S.voters[i];
    var y := x.(acks := x.acks + {m.sender});
    AckKeep(plan, S, i, m);
    AckReport(plan, With(S, i, y), m);
    assert x.selected == Some(m.value);
    var r := Report(m.sender, None, m.ballot, m.ballot, 0, x.selected);
    MergeKeep(plan, With(S, i, y), i, r);
    WithTwice(S, i, y, Merge(plan, i, y, r));
  }

  lemma AcceptedShape(plan: Plan, i: nat, x: Voter, m: Msg)
    requires m.Accepted? && CountsAck(plan, x, m)
    ensures var z := Acked(plan, i, x, m);
      && z.selected == x.selected && z.fast == x.fast && z.time == x.time && z.frozen == x.frozen
      && z.participants == x.participants && z.values == x.values
      && OnAccepted(plan, i, x, m) == if |z.acks| < plan.voters - Faults(plan) then (z, {})
                                      else (Decide(z, x.selected.value), {Commit(i, x.selected.value)})
  {
  }

  lemma AcceptedKeep(plan: Plan, S: System, i: nat, m: Msg)
    requires CoreInv(plan, S) && i < plan.voters && m.Accepted? && m in S.net
    ensures CoreInv(plan, After(S, i, OnAccepted(plan, i, S.voters[i], m).0, OnAccepted(plan, i, S.voters[i], m).1))
  {
    var x := S.voters[i];
    if !CountsAck(plan, x, m) {
      NothingSent(S, i);
    } else {
      var z := Acked(plan, i, x, m);
      AckedKeep(plan, S, i, m);
      AcceptedShape(plan, i, x, m);
      var T := With(S, i, z);
      if |z.acks| < plan.voters - Faults(plan) {
        NothingSent(T, i);
        assert After(S, i, z, {}) == T;
      } else {
        AcksChosen(plan, T, i);
        CommitKeep(plan, T, i, x.selected.value);
        WithTwice(S, i, z, Decide(z, x.selected.value));
      }
    }
  }
}
