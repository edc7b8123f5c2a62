/** Schedule messages and proposals keep the invariant. */
module KCensusSpread {
  import opened KCensusPlan
  import opened KCensus
  import opened KCensusSystem
  import opened KCensusSafety
  import opened KCensusFrame
  import opened KCensusSteps
  import opened Quorums

  /** A voter that sends no classic acceptance keeps its own ballots and decision. */
  lemma QuietLeads(plan: Plan, S: System, T: System, i: nat)
    requires CoreInv(plan, S) && i < plan.voters && Acted(plan, S, T, i) && T.voters == S.voters
    requires forall b: nat, v: Value :: Accept(i, b, v) in T.net ==> Accept(i, b, v) in S.net
    ensures LeaderInv(plan, T, i) && (T.voters[i].decided.Some? ==> Chosen(plan, T, T.voters[i].decided.value))
  {
    assert LeaderInv(plan, S, i) by { OwnParts(plan, S, i); }
    if T.voters[i].decided.Some? {
      assert Chosen(plan, S, T.voters[i].decided.value) by { OwnParts(plan, S, i); }
      ChosenStays(plan, S, T, i, T.voters[i].decided.value);
    }
  }

  /** Messages that claim no classic acceptance are sent safely when what they say is so. */
  lemma SendKeep(plan: Plan, S: System, out: set<Msg>, i: nat)
    requires CoreInv(plan, S) && i < plan.voters
    requires forall m :: m in out ==> MsgOk(plan, S, m) && !m.Accept? && !m.Accepted?
    ensures CoreInv(plan, Sent(S, out))
  {
    var T := Sent(S, out);
    assert Acted(plan, S, T, i);
    QuietLeads(plan, S, T, i);
    forall m | m in T.net && m !in S.net ensures MsgOk(plan, T, m) { MsgStays(plan, S, T, i, m); }
    UnmovedKeep(plan, S, T, i);
  }

  /** What a voter sends on entering a state is true of the schedule, or marked as off it. */
  lemma EmitKeep(plan: Plan, S: System, i: nat, p: nat, j: nat)
    requires CoreInv(plan, S) && i < plan.voters && p < |plan.reqs| && p in S.voters[i].values
    requires Explicit(plan, S.voters[i], p) || Reached(S, i, p, j)
    ensures CoreInv(plan, Sent(S, Emit(plan, i, S.voters[i], p, j)))
  {
    var x := S.voters[i];
    forall m | m in Emit(plan, i, x, p, j) ensures MsgOk(plan, S, m) && !m.Accept? && !m.Accepted? {
      EmitOk(plan, S, i, p, j, m);
    }
    SendKeep(plan, S, Emit(plan, i, x, p, j), i);
  }

  lemma EmitOk(plan: Plan, S: System, i: nat, p: nat, j: nat, m: Msg)
    requires CoreInv(plan, S) && i < plan.voters && p < |plan.reqs| && p in S.voters[i].values
    requires Explicit(plan, S.voters[i], p) || Reached(S, i, p, j)
    requires m in Emit(plan, i, S.voters[i], p, j)
    ensures MsgOk(plan, S, m) && !m.Accept? && !m.Accepted?
  {
    assert FastInv(plan, S, i) && EvidenceInv(plan, S, i) by { OwnParts(plan, S, i); }
    forall r | r in m.evidence ensures TrueReport(plan, S, r) {
      var w :| w in S.voters[i].reports && S.voters[i].reports[w] == r;
    }
  }

  /** An implicit sender is where the schedule says, because only completion has frozen it. */
  lemma CursorReached(plan: Plan, S: System, i: nat, p: nat)
    requires Shaped(plan) && i < |S.voters| == plan.voters && p < |plan.reqs| && FastInv(plan, S, i)
    requires CursorOf(S.voters[i], p) <= Last(plan, p, i)
    ensures Explicit(plan, S.voters[i], p) || Reached(S, i, p, CursorOf(S.voters[i], p))
  {
  }

  /** What advancing leaves alone. */
  predicate Moved(x: Voter, y: Voter) {
    && y.fast == x.fast && y.time >= x.time && (x.frozen ==> y.frozen) && y.participants == x.participants && y.values == x.values
    && y.decided == x.decided
  }

  lemma EnterMoved(plan: Plan, S: System, i: nat, p: nat)
    requires CoreInv(plan, S) && i < plan.voters && p < |plan.reqs| && Ready(plan, i, S.voters[i], p)
    ensures Moved(S.voters[i], Enter(plan, i, S.voters[i], p))
    ensures CursorOf(Enter(plan, i, S.voters[i], p), p) == CursorOf(S.voters[i], p) + 1
    ensures Learns(S.voters[i], p) ==> Enter(plan, i, S.voters[i], p).time > CursorOf(S.voters[i], p)
  {
    OwnParts(plan, S, i);
    EnterShape(plan, S, i, p);
  }

  lemma EnterEmitKeep(plan: Plan, S: System, i: nat, p: nat)
    requires CoreInv(plan, S) && i < plan.voters && p < |plan.reqs| && p in S.voters[i].values && Ready(plan, i, S.voters[i], p)
    requires S.voters[i].frozen || S.voters[i].fast.Some?
    ensures var y := Enter(plan, i, S.voters[i], p);
      CoreInv(plan, Sent(With(S, i, y), Emit(plan, i, y, p, CursorOf(y, p))))
  {
    var y := Enter(plan, i, S.voters[i], p);
    var T := With(S, i, y);
    EnterKeep(plan, S, i, p);
    EnterMoved(plan, S, i, p);
    assert FastInv(plan, T, i) by { OwnParts(plan, T, i); }
    CursorReached(plan, T, i, p);
    EmitKeep(plan, T, i, p, CursorOf(y, p));
  }

  lemma AdvanceUnfolds(plan: Plan, i: nat, x: Voter, p: nat)
    requires Shaped(plan) && p < |plan.reqs| && i < |plan.reqs| && Ready(plan, i, x, p)
    ensures var y := Enter(plan, i, x, p);
      && Advance(plan, i, x, p).0 == Advance(plan, i, y, p).0
      && Advance(plan, i, x, p).1 == Emit(plan, i, y, p, CursorOf(y, p)) + Advance(plan, i, y, p).1
  {
  }

  lemma SentTwice(S: System, i: nat, y: Voter, a: set<Msg>, z: Voter, b: set<Msg>)
    requires i < |S.voters|
    ensures Sent(With(Sent(With(S, i, y), a), i, z), b) == Sent(With(S, i, z), a + b)
  {
    WithTwice(S, i, y, z);
    assert S.net + a + b == S.net + (a + b);
  }

  lemma {:induction false} AdvanceKeep(plan: Plan, S: System, i: nat, p: nat)
    requires CoreInv(plan, S) && i < plan.voters && p < |plan.reqs| && p in S.voters[i].values
    requires S.voters[i].frozen || S.voters[i].fast.Some?
    ensures Moved(S.voters[i], Advance(plan, i, S.voters[i], p).0)
    ensures Learns(S.voters[i], p) && Ready(plan, i, S.voters[i], p) ==>
              Advance(plan, i, S.voters[i], p).0.time > CursorOf(S.voters[i], p)
    ensures CoreInv(plan, Sent(With(S, i, Advance(plan, i, S.voters[i], p).0), Advance(plan, i, S.voters[i], p).1))
    decreases |plan.graphs[p][i]| - CursorOf(S.voters[i], p)
  {
    var x := S.voters[i];
    if !Ready(plan, i, x, p) {
      WithTwice(S, i, x, x);
      assert Sent(S, {}) == S;
    } else {
      var y := Enter(plan, i, x, p);
      var out := Emit(plan, i, y, p, CursorOf(y, p));
      var T := Sent(With(S, i, y), out);
      EnterMoved(plan, S, i, p);
      EnterEmitKeep(plan, S, i, p);
      AdvanceUnfolds(plan, i, x, p);
      AdvanceKeep(plan, T, i, p);
      SentTwice(S, i, y, out, Advance(plan, i, y, p).0, Advance(plan, i, y, p).1);
    }
  }

  // Deciding

  lemma DecideKeep(plan: Plan, S: System, i: nat, v: Value)
    requires CoreInv(plan, S) && i < plan.voters && Chosen(plan, S, v)
    ensures CoreInv(plan, With(S, i, Decide(S.voters[i], v))) && Chosen(plan, With(S, i, Decide(S.voters[i], v)), v)
  {
    var T := With(S, i, Decide(S.voters[i], v));
    assert Acted(plan, S, T, i);
    ChosenStays(plan, S, T, i, v);
    assert LeaderInv(plan, T, i) && (T.voters[i].decided.Some? ==> Chosen(plan, T, T.voters[i].decided.value)) by {
      OwnParts(plan, S, i);
      if S.voters[i].decided.Some? { ChosenStays(plan, S, T, i, T.voters[i].decided.value); }
    }
    UnmovedKeep(plan, S, T, i);
  }

  /** Deciding what has been chosen, and telling the others. */
  lemma CommitKeep(plan: Plan, S: System, i: nat, v: Value)
    requires CoreInv(plan, S) && i < plan.voters && Chosen(plan, S, v)
    ensures CoreInv(plan, Sent(With(S, i, Decide(S.voters[i], v)), {Commit(i, v)}))
  {
    DecideKeep(plan, S, i, v);
    SendKeep(plan, With(S, i, Decide(S.voters[i], v)), {Commit(i, v)}, i);
  }

  /** A delegate that commits is in the final state of its schedule. */
  lemma CommitsChosen(plan: Plan, S: System, i: nat, p: nat)
    requires CoreInv(plan, S) && i < plan.voters && p < |plan.reqs| && FastCommits(plan, i, S.voters[i], p)
    ensures Chosen(plan, S, S.voters[i].fast.value.value)
  {
    var x := S.voters[i];
    var q := x.fast.value.proposer;
    assert FastInv(plan, S, i) by { OwnParts(plan, S, i); }
    assert q < |plan.reqs| && plan.leaders[q] == i && CoversAll(plan, q, x.time);
    assert x.time == Last(plan, q, i);
    assert FastChosen(plan, S, q);
  }

  lemma SettleKeep(plan: Plan, S: System, i: nat, p: nat)
    requires CoreInv(plan, S) && i < plan.voters && p < |plan.reqs|
    ensures CoreInv(plan, Sent(With(S, i, Settle(plan, i, S.voters[i], p).0), Settle(plan, i, S.voters[i], p).1))
  {
    var x := S.voters[i];
    if FastCommits(plan, i, x, p) {
      CommitsChosen(plan, S, i, p);
      CommitKeep(plan, S, i, x.fast.value.value);
    } else {
      WithTwice(S, i, x, x);
      assert Sent(S, {}) == S;
    }
  }

  lemma ProgressUnfolds(plan: Plan, i: nat, x: Voter, p: nat)
    requires Shaped(plan) && p < |plan.reqs| && i < |plan.reqs|
    ensures var y := Advance(plan, i, x, p).0; var z := Settle(plan, i, y, p).0;
      && Progress(plan, i, x, p).0 == z && z == y.(decided := z.decided)
      && Progress(plan, i, x, p).1 == Advance(plan, i, x, p).1 + Settle(plan, i, y, p).1
  {
  }

  lemma ProgressKeep(plan: Plan, S: System, i: nat, p: nat)
    requires CoreInv(plan, S) && i < plan.voters && p < |plan.reqs| && p in S.voters[i].values
    requires S.voters[i].frozen || S.voters[i].fast.Some?
    ensures CoreInv(plan, Sent(With(S, i, Progress(plan, i, S.voters[i], p).0), Progress(plan, i, S.voters[i], p).1))
    ensures var y := Advance(plan, i, S.voters[i], p).0; var z := Progress(plan, i, S.voters[i], p).0;
      Moved(S.voters[i], y) && z == y.(decided := z.decided)
  {
    var x := S.voters[i];
    var y, out := Advance(plan, i, x, p).0, Advance(plan, i, x, p).1;
    AdvanceKeep(plan, S, i, p);
    SettleKeep(plan, Sent(With(S, i, y), out), i, p);
    SentTwice(S, i, y, out, Settle(plan, i, y, p).0, Settle(plan, i, y, p).1);
    ProgressUnfolds(plan, i, x, p);
  }
}
