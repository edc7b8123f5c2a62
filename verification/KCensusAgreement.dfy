/**
  Agreement of a KCensus slot over whole runs.

  A census that finds no classic acceptance is *trusted* when its selection is a sure one. The
  decisions of every run whose censuses are trusted agree; so do those of every run with at most
  two proposers, whatever its censuses see.
*/
module KCensusAgreement {
  import opened KCensusPlan
  import opened KCensus
  import opened KCensusSystem
  import opened KCensusSafety
  import opened KCensusCensus
  import opened KCensusExact
  import opened KCensusFrame
  import opened KCensusSteps
  import opened KCensusAbsorb
  import opened KCensusSpread
  import opened KCensusHandlers
  import opened Quorums

  // The census step

  ghost predicate Trusted(plan: Plan, x: Voter, v: Value)
    requires Shaped(plan)
  {
    && WellReported(plan, x.reports) && (forall p :: p in x.values ==> p < |plan.reqs|)
    && (NoneAccepted(x.reports) ==> Sure(plan, x.reports, x.values, v))
  }

  lemma HeldCensus(plan: Plan, S: System, i: nat)
    requires Inv(plan, S) && i < plan.voters && CanCensus(plan, S.voters[i]) && NoneAccepted(S.voters[i].reports)
    ensures FrozenCensus(plan, S, S.voters[i].reports, S.voters[i].values, S.voters[i].ballot)
  {
    OwnParts(plan, S, i);
  }

  /** No promised voter has voted between what it reported and the census ballot. */
  lemma GapBlocked(plan: Plan, S: System, reports: map<nat, Report>, b: nat, c: nat, w: Value)
    requires |S.voters| == plan.voters && |PromisedAt(plan, reports, b)| >= Majority(plan) && c < b
    requires forall a: nat :: a in reports ==> reports[a].voter == a && TrueReport(plan, S, reports[a])
    requires forall a: nat :: a in reports && reports[a].ballot == b ==>
               !Voted(S.net, a, c, w)
    ensures Blocked(plan, S, c, w)
  {
    var m := PromisedAt(plan, reports, b);
    forall a | a in m ensures a in Blockers(plan, S, c, w) {
      assert TrueReport(plan, S, reports[a]);
    }
    SubsetSize(m, Blockers(plan, S, c, w));
  }

  lemma NoBallotZero(plan: Plan, S: System, a: nat, w: Value)
    requires CoreInv(plan, S)
    ensures !Voted(S.net, a, 0, w)
  {
    if Voted(S.net, a, 0, w) { VotedIsSafe(plan, S, a, 0, w); }
  }

  lemma NewBallotSafe(plan: Plan, S: System, i: nat, v: Value)
    requires Inv(plan, S) && i < plan.voters && CanCensus(plan, S.voters[i]) && NoneAccepted(S.voters[i].reports)
    requires CensusSelects(plan, S.voters[i], v) && Trusted(plan, S.voters[i], v)
    ensures Safe(plan, S, S.voters[i].ballot, v)
  {
    var x := S.voters[i];
    HeldCensus(plan, S, i);
    forall p: nat | p < |plan.reqs| ensures FastBlocked(plan, S, p) || (p in S.proposals && S.proposals[p] == v) {
      SureIsFastSafe(plan, S, x.reports, x.values, x.ballot, v, p);
    }
    forall c: nat, w: Value | c < x.ballot && w != v ensures Blocked(plan, S, c, w) {
      UnacceptedBlocked(plan, S, i, c, w);
    }
  }

  lemma UnacceptedBlocked(plan: Plan, S: System, i: nat, c: nat, w: Value)
    requires Inv(plan, S) && i < plan.voters && CanCensus(plan, S.voters[i]) && NoneAccepted(S.voters[i].reports)
    requires c < S.voters[i].ballot
    ensures Blocked(plan, S, c, w)
  {
    var x := S.voters[i];
    assert EvidenceInv(plan, S, i) by { OwnParts(plan, S, i); }
    forall a: nat | a in x.reports && x.reports[a].ballot == x.ballot ensures !Voted(S.net, a, c, w) {
      assert TrueReport(plan, S, x.reports[a]);
      if c == 0 { NoBallotZero(plan, S, a, w); }
    }
    GapBlocked(plan, S, x.reports, x.ballot, c, w);
  }

  /** Ballots between the newest reported acceptance and the census carry no other value. */
  lemma SinceHighestBlocked(plan: Plan, S: System, i: nat, h: nat, v: Value, c: nat, w: Value)
    requires Inv(plan, S) && i < plan.voters && CanCensus(plan, S.voters[i])
    requires IsHighest(S.voters[i].reports, h) && S.voters[i].reports[h].value == Some(v)
    requires S.voters[i].reports[h].accepted <= c < S.voters[i].ballot && w != v
    ensures Blocked(plan, S, c, w)
  {
    var x := S.voters[i];
    var top := x.reports[h].accepted;
    assert EvidenceInv(plan, S, i) by { OwnParts(plan, S, i); }
    assert Voted(S.net, h, top, v) by { assert TrueReport(plan, S, x.reports[h]); }
    VotedIsSafe(plan, S, h, top, v);
    forall a: nat | a in x.reports && x.reports[a].ballot == x.ballot ensures !Voted(S.net, a, c, w) {
      assert TrueReport(plan, S, x.reports[a]);
      if Voted(S.net, a, c, w) {
        assert c == top;
        OneVote(plan, S, a, top, v, w);
      }
    }
    GapBlocked(plan, S, x.reports, x.ballot, c, w);
  }

  lemma HighestSafe(plan: Plan, S: System, i: nat, h: nat, v: Value)
    requires Inv(plan, S) && i < plan.voters && CanCensus(plan, S.voters[i])
    requires IsHighest(S.voters[i].reports, h) && S.voters[i].reports[h].value == Some(v)
    ensures Safe(plan, S, S.voters[i].ballot, v)
  {
    var x := S.voters[i];
    var top := x.reports[h].accepted;
    assert Safe(plan, S, top, v) by {
      assert EvidenceInv(plan, S, i) by { OwnParts(plan, S, i); }
      assert TrueReport(plan, S, x.reports[h]);
      VotedIsSafe(plan, S, h, top, v);
    }
    forall c: nat, w: Value | c < x.ballot && w != v ensures Blocked(plan, S, c, w) {
      if c >= top { SinceHighestBlocked(plan, S, i, h, v, c, w); }
    }
  }

  /** What a census selects is safe in its ballot. */
  lemma CensusSafe(plan: Plan, S: System, i: nat, v: Value)
    requires Inv(plan, S) && i < plan.voters && CanCensus(plan, S.voters[i])
    requires CensusSelects(plan, S.voters[i], v) && Trusted(plan, S.voters[i], v)
    ensures Safe(plan, S, S.voters[i].ballot, v)
  {
    var x := S.voters[i];
    if NoneAccepted(x.reports) {
      NewBallotSafe(plan, S, i, v);
    } else {
      assert EvidenceInv(plan, S, i) by { OwnParts(plan, S, i); }
      var h :| IsHighest(x.reports, h) && (x.reports[h].value == Some(v) || x.reports[h].value == None);
      assert TrueReport(plan, S, x.reports[h]);
      HighestSafe(plan, S, i, h, v);
    }
  }

  lemma SelectLeads(plan: Plan, S: System, i: nat, v: Value)
    requires CoreInv(plan, S) && i < plan.voters && S.voters[i].phase == 1
    ensures LeaderInv(plan, After(S, i, Select(i, S.voters[i], v).0, Select(i, S.voters[i], v).1), i)
    ensures S.voters[i].ballot > 0 && Owner(plan.voters, S.voters[i].ballot) == i
  {
    assert LeaderInv(plan, S, i) by { OwnParts(plan, S, i); }
  }

  lemma SelectActed(plan: Plan, S: System, i: nat, v: Value)
    requires i < |S.voters| == plan.voters
    ensures Acted(plan, S, After(S, i, Select(i, S.voters[i], v).0, Select(i, S.voters[i], v).1), i)
  {
  }

  lemma SelectKeep(plan: Plan, S: System, i: nat, v: Value)
    requires CoreInv(plan, S) && i < plan.voters && S.voters[i].phase == 1 && Safe(plan, S, S.voters[i].ballot, v)
    ensures CoreInv(plan, After(S, i, Select(i, S.voters[i], v).0, Select(i, S.voters[i], v).1))
  {
    var x := S.voters[i];
    var T := After(S, i, Select(i, x, v).0, Select(i, x, v).1);
    SelectActed(plan, S, i, v);
    assert T.voters[i].decided.Some? ==> Chosen(plan, T, T.voters[i].decided.value) by {
      if x.decided.Some? {
        assert Chosen(plan, S, x.decided.value) by { OwnParts(plan, S, i); }
        ChosenStays(plan, S, T, i, x.decided.value);
      }
    }
    SelectLeads(plan, S, i, v);
    assert MsgOk(plan, T, Accept(i, x.ballot, v)) by { SafeStays(plan, S, T, i, x.ballot, v); }
    UnmovedKeep(plan, S, T, i);
  }

  lemma RetryKeep(plan: Plan, S: System, i: nat, out: set<Msg>)
    requires CoreInv(plan, S) && i < plan.voters && Acts(plan, i, S.voters[i], S.net, Retry, S.voters[i], out)
    ensures CoreInv(plan, After(S, i, S.voters[i], out))
  {
    var x := S.voters[i];
    WithTwice(S, i, x, x);
    if x.phase == 2 && x.selected.Some? {
      assert LeaderInv(plan, S, i) by { OwnParts(plan, S, i); }
      assert S.net + out == S.net;
    } else {
      SendKeep(plan, S, out, i);
    }
  }

  // Every step

  lemma DeliverKeep(plan: Plan, S: System, i: nat, m: Msg)
    requires Inv(plan, S) && i < plan.voters && m in S.net
    ensures CoreInv(plan, After(S, i, Deliver(plan, i, S.voters[i], m).0, Deliver(plan, i, S.voters[i], m).1))
  {
    var x := S.voters[i];
    match m
    case Commit(_, v) =>
      assert MsgOk(plan, S, m);
      DecideKeep(plan, S, i, v);
      assert With(S, i, Decide(x, v)) == After(S, i, Decide(x, v), {});
    case Spread(_, _, _, _, _, _, _) =>
      if GraphInput(plan, i, x, m) { SpreadKeep(plan, S, i, m); } else { NothingSent(S, i); }
    case Abandon(_, _) =>
      AbandonKeep(plan, S, i, m);
      assert With(S, i, OnAbandon(plan, i, x, m)) == After(S, i, OnAbandon(plan, i, x, m), {});
    case Prepare(_, _) => PrepareKeep(plan, S, i, m);
    case Promise(_, _, _) =>
      PromiseKeep(plan, S, i, m);
      assert With(S, i, OnPromise(plan, i, x, m)) == After(S, i, OnPromise(plan, i, x, m), {});
    case Accept(_, _, _) => AcceptKeep(plan, S, i, m);
    case Accepted(_, _, _) => AcceptedKeep(plan, S, i, m);
    case Nack(_, _) =>
      NackKeep(plan, S, i, m);
      assert With(S, i, OnNack(i, x, m)) == After(S, i, OnNack(i, x, m), {});
  }

  /** Nothing that Prompt speaks of has moved, or the voter has frozen without moving. */
  lemma PromptUnmoved(plan: Plan, x: Voter, y: Voter, i: nat)
    requires Shaped(plan) && Prompt(plan, x, i) && y.fast == x.fast && y.time == x.time
    requires y.frozen || (!x.frozen && (x.participants <= x.values.Keys ==> y.participants <= y.values.Keys))
    ensures Prompt(plan, y, i)
  {
  }

  /** A voter's fast acceptance is left alone, and its participants too unless it freezes. */
  predicate Undisturbed(x: Voter, y: Voter) {
    y.fast == x.fast && y.time == x.time
    && (y.frozen || (!x.frozen && y.participants == x.participants && y.values == x.values))
  }

  lemma PrepareShape(plan: Plan, i: nat, x: Voter, m: Msg)
    requires plan.voters > 0 && m.Prepare?
    ensures Undisturbed(x, OnPrepare(plan, i, x, m).0)
  {
  }

  lemma AcceptShape(plan: Plan, i: nat, x: Voter, m: Msg)
    requires plan.voters > 0 && m.Accept?
    ensures Undisturbed(x, OnAccept(plan, i, x, m).0)
  {
  }

  lemma AckShape(plan: Plan, i: nat, x: Voter, m: Msg)
    requires m.Accepted?
    ensures Undisturbed(x, OnAccepted(plan, i, x, m).0)
  {
    if CountsAck(plan, x, m) { AcceptedShape(plan, i, x, m); }
  }

  /** Messages of the classic protocol freeze a voter or leave its acceptance alone. */
  lemma ClassicPrompt(plan: Plan, i: nat, x: Voter, m: Msg)
    requires Shaped(plan) && plan.voters > 0 && i < plan.voters && Prompt(plan, x, i) && !m.Spread? && !m.Promise?
    ensures Prompt(plan, Deliver(plan, i, x, m).0, i)
  {
    var y := Deliver(plan, i, x, m).0;
    assert Undisturbed(x, y) by {
      match m
      case Prepare(_, _) => PrepareShape(plan, i, x, m);
      case Accept(_, _, _) => AcceptShape(plan, i, x, m);
      case Accepted(_, _, _) => AckShape(plan, i, x, m);
      case _ =>
    }
    PromptUnmoved(plan, x, y, i);
  }

  lemma DeliverPrompt(plan: Plan, S: System, i: nat, m: Msg)
    requires Inv(plan, S) && i < plan.voters && m in S.net
    ensures Prompt(plan, Deliver(plan, i, S.voters[i], m).0, i)
  {
    var x := S.voters[i];
    assert Prompt(plan, x, i);
    if m.Spread? {
      if GraphInput(plan, i, x, m) { SpreadPrompt(plan, S, i, m); }
    } else if m.Promise? {
      PromiseKeep(plan, S, i, m);
      PromptUnmoved(plan, x, OnPromise(plan, i, x, m), i);
    } else {
      ClassicPrompt(plan, i, x, m);
    }
  }

  /** The steps whose census, if any, is trusted. */
  ghost predicate Trusts(plan: Plan, x: Voter, a: Action)
    requires Shaped(plan)
  {
    a.Census? ==> Trusted(plan, x, a.v)
  }

  ghost predicate TrustedNext(plan: Plan, s: System, s': System) {
    || (exists i: nat, a, out :: VoterStep(plan, s, s', i, a, out) && Trusts(plan, s.voters[i], a))
    || (exists p: nat, v: Value :: ClientStep(plan, s, s', p, v))
  }

  lemma StartKeep(plan: Plan, S: System, i: nat, b: nat, out: set<Msg>)
    requires CoreInv(plan, S) && i < plan.voters && b > S.voters[i].ballot && Owner(plan.voters, b) == i
    requires out <= {Prepare(i, b)}
    ensures CoreInv(plan, After(S, i, BeginCensus(S.voters[i], b), out))
  {
    BeginKeep(plan, S, i, b);
    SendKeep(plan, With(S, i, BeginCensus(S.voters[i], b)), out, i);
  }

  lemma SelectsKeep(plan: Plan, S: System, i: nat, v: Value)
    requires Inv(plan, S) && i < plan.voters && CanCensus(plan, S.voters[i])
    requires CensusSelects(plan, S.voters[i], v) && Trusted(plan, S.voters[i], v)
    ensures CoreInv(plan, After(S, i, Select(i, S.voters[i], v).0, Select(i, S.voters[i], v).1))
  {
    CensusSafe(plan, S, i, v);
    SelectKeep(plan, S, i, v);
  }

  lemma RecoveryKeep(plan: Plan, S: System, i: nat)
    requires CoreInv(plan, S) && i < plan.voters
    ensures var b := RecoveryBallot(plan.voters, i, S.voters[i]);
      CoreInv(plan, After(S, i, BeginCensus(S.voters[i], b), {Prepare(i, b)}))
  {
    RecoveryBallotOwned(plan.voters, i, S.voters[i]);
    StartKeep(plan, S, i, RecoveryBallot(plan.voters, i, S.voters[i]), {Prepare(i, RecoveryBallot(plan.voters, i, S.voters[i]))});
  }

  lemma InitialBallot(plan: Plan, i: nat, x: Voter, net: set<Msg>, y: Voter, out: set<Msg>) returns (b: nat)
    requires Shaped(plan) && i < plan.voters && Acts(plan, i, x, net, StartInitial, y, out)
    ensures y == BeginCensus(x, b) && out == {} && x.ballot < b && Owner(plan.voters, b) == i
  {
    b := plan.voters + i;
  }

  lemma InitialKeep(plan: Plan, S: System, i: nat, b: nat)
    requires CoreInv(plan, S) && i < plan.voters && S.voters[i].ballot < b && Owner(plan.voters, b) == i
    ensures CoreInv(plan, After(S, i, BeginCensus(S.voters[i], b), {}))
  {
    BeginKeep(plan, S, i, b);
    NothingSent(With(S, i, BeginCensus(S.voters[i], b)), i);
  }

  lemma OwnKeep(plan: Plan, S: System, i: nat, a: Action, y: Voter, out: set<Msg>)
    requires Inv(plan, S) && i < plan.voters && !a.Proposes? && !a.Receive? && Acts(plan, i, S.voters[i], S.net, a, y, out)
    requires Trusts(plan, S.voters[i], a)
    ensures CoreInv(plan, After(S, i, y, out))
  {
    var x := S.voters[i];
    if a.Census? {
      SelectsKeep(plan, S, i, a.v);
    } else if a.Retry? {
      RetryKeep(plan, S, i, out);
    } else if a.StartRecovery? {
      RecoveryKeep(plan, S, i);
    } else {
      var b := InitialBallot(plan, i, x, S.net, y, out);
      InitialKeep(plan, S, i, b);
    }
  }

  lemma OwnPrompt(plan: Plan, x: Voter, i: nat, net: set<Msg>, a: Action, y: Voter, out: set<Msg>)
    requires Shaped(plan) && i < plan.voters && !a.Proposes? && !a.Receive? && Acts(plan, i, x, net, a, y, out) && Prompt(plan, x, i)
    ensures Prompt(plan, y, i)
  {
  }

  lemma ActKeep(plan: Plan, S: System, i: nat, a: Action, y: Voter, out: set<Msg>)
    requires Inv(plan, S) && i < plan.voters && !a.Proposes? && Acts(plan, i, S.voters[i], S.net, a, y, out)
    requires Trusts(plan, S.voters[i], a)
    ensures CoreInv(plan, After(S, i, y, out)) && Prompt(plan, y, i)
  {
    if a.Receive? {
      DeliverKeep(plan, S, i, a.m);
      DeliverPrompt(plan, S, i, a.m);
    } else {
      OwnKeep(plan, S, i, a, y, out);
      assert Prompt(plan, S.voters[i], i);
      OwnPrompt(plan, S.voters[i], i, S.net, a, y, out);
    }
  }

  lemma OthersPrompt(plan: Plan, S: System, T: System, i: nat)
    requires Inv(plan, S) && CoreInv(plan, T) && i < plan.voters && Prompt(plan, T.voters[i], i)
    requires forall j: nat :: j < plan.voters && j != i ==> T.voters[j] == S.voters[j]
    ensures Inv(plan, T)
  {
    forall j: nat | j < plan.voters ensures Prompt(plan, T.voters[j], j) {
      assert Prompt(plan, S.voters[j], j);
    }
  }

  lemma VoterStepKeep(plan: Plan, S: System, T: System, i: nat, a: Action, out: set<Msg>)
    requires Inv(plan, S) && VoterStep(plan, S, T, i, a, out) && Trusts(plan, S.voters[i], a)
    ensures Inv(plan, T)
  {
    if a.Proposes? {
      ProposeKeep(plan, S, i, a.v);
      assert T == After(S, i, T.voters[i], out).(proposals := S.proposals[i := a.v]);
    } else {
      ActKeep(plan, S, i, a, T.voters[i], out);
      assert T == After(S, i, T.voters[i], out);
    }
    OthersPrompt(plan, S, T, i);
  }

  lemma StepKeep(plan: Plan, S: System, T: System)
    requires Inv(plan, S) && TrustedNext(plan, S, T)
    ensures Inv(plan, T)
  {
    if p: nat, v: Value :| ClientStep(plan, S, T, p, v) {
      ClientKeep(plan, S, T, p, v);
      assert Prompt(plan, S.voters[0], 0);
      OthersPrompt(plan, S, T, 0);
    } else {
      var i: nat, a, out :| VoterStep(plan, S, T, i, a, out) && Trusts(plan, S.voters[i], a);
      VoterStepKeep(plan, S, T, i, a, out);
    }
  }
}
