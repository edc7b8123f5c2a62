/** Whole runs of a KCensus slot: decisions agree, and the consistency panics are unreachable. */
module KCensusRuns {
  import opened KCensusPlan
  import opened KCensus
  import opened KCensusSystem
  import opened KCensusSafety
  import opened KCensusCensus
  import opened KCensusExact
  import opened KCensusFrame
  import opened KCensusSteps
  import opened KCensusHandlers
  import opened KCensusAgreement
  import opened Quorums

  ghost predicate IsRun(plan: Plan, run: seq<System>) {
    && |run| > 0 && GoodPlan(plan) && InitSystem(plan, run[0])
    && forall k :: 0 < k < |run| ==> Next(plan, run[k - 1], run[k])
  }

  /** A run up to position `k` in which every census is trusted. */
  ghost predicate TrustedTo(plan: Plan, run: seq<System>, k: nat) {
    && k < |run| && GoodPlan(plan) && InitSystem(plan, run[0])
    && forall j :: 0 < j <= k ==> TrustedNext(plan, run[j - 1], run[j])
  }

  lemma InitInv(plan: Plan, S: System)
    requires GoodPlan(plan) && InitSystem(plan, S)
    ensures Inv(plan, S)
  {
    forall j: nat | j < plan.voters ensures VoterInv(plan, S, j) && Prompt(plan, S.voters[j], j) {
      assert S.voters[j] == FRESH;
      assert forall p: nat :: CursorOf(FRESH, p) == 0 && ReceivedOf(FRESH, p) == {};
    }
  }

  /** The invariant holds at every position of a trusted run. */
  lemma {:induction false} RunInv(plan: Plan, run: seq<System>, k: nat)
    requires TrustedTo(plan, run, k)
    ensures Inv(plan, run[k])
  {
    if k == 0 {
      InitInv(plan, run[0]);
    } else {
      RunInv(plan, run, k - 1);
      StepKeep(plan, run[k - 1], run[k]);
    }
  }

  /** At most one value is ever chosen, fast or in any ballot. */
  lemma AtMostOneChosen(plan: Plan, run: seq<System>, k: nat, v: Value, w: Value)
    requires TrustedTo(plan, run, k) && Chosen(plan, run[k], v) && Chosen(plan, run[k], w)
    ensures v == w
  {
    RunInv(plan, run, k);
    Agreement(plan, run[k], v, w);
  }

  lemma DecidedStep(plan: Plan, S: System, T: System, i: nat)
    requires TrustedNext(plan, S, T) && i < |S.voters| && S.voters[i].decided.Some?
    ensures i < |T.voters| && T.voters[i].decided == S.voters[i].decided
  {
  }

  lemma {:induction false} DecidedStays(plan: Plan, run: seq<System>, j: nat, k: nat, i: nat)
    requires TrustedTo(plan, run, k) && j <= k && i < |run[j].voters| && run[j].voters[i].decided.Some?
    ensures i < |run[k].voters| && run[k].voters[i].decided == run[j].voters[i].decided
    decreases k - j
  {
    if j < k {
      assert TrustedNext(plan, run[j], run[j + 1]) by { var n := j + 1; assert TrustedNext(plan, run[n - 1], run[n]); }
      DecidedStep(plan, run[j], run[j + 1], i);
      DecidedStays(plan, run, j + 1, k, i);
    }
  }

  /** No two voters ever decide differently, at whatever points of the run they decide. */
  lemma DecisionsAgree(plan: Plan, run: seq<System>, j: nat, a: nat, k: nat, b: nat)
    requires j <= k && TrustedTo(plan, run, k)
    requires a < |run[j].voters| && run[j].voters[a].decided.Some?
    requires b < |run[k].voters| && run[k].voters[b].decided.Some?
    ensures run[j].voters[a].decided == run[k].voters[b].decided
  {
    DecidedStays(plan, run, j, k, a);
    RunInv(plan, run, k);
    var S := run[k];
    assert Chosen(plan, S, S.voters[a].decided.value) by { OwnParts(plan, S, a); }
    assert Chosen(plan, S, S.voters[b].decided.value) by { OwnParts(plan, S, b); }
    Agreement(plan, S, S.voters[a].decided.value, S.voters[b].decided.value);
  }

  /** The panics on conflicting decisions and on a coordinator that changes its value never fire. */
  lemma NoConflictingMessage(plan: Plan, run: seq<System>, k: nat, i: nat, m: Msg)
    requires TrustedTo(plan, run, k) && i < plan.voters && m in run[k].net
    ensures |run[k].voters| == plan.voters
    ensures m.Commit? ==> !LearnPanics(run[k].voters[i], m.value)
    ensures m.Accept? ==> !AcceptPanics(run[k].voters[i], m)
  {
    RunInv(plan, run, k);
    var S := run[k];
    if m.Accept? { AcceptKeep(plan, S, i, m); }
    if m.Commit? && S.voters[i].decided.Some? {
      assert MsgOk(plan, S, m);
      assert Chosen(plan, S, S.voters[i].decided.value) by { OwnParts(plan, S, i); }
      Agreement(plan, S, m.value, S.voters[i].decided.value);
    }
  }

  /** A census never sees two values accepted in one ballot, nor two fast values of one proposer. */
  lemma ReportsAgree(plan: Plan, run: seq<System>, k: nat, i: nat, a: nat, b: nat)
    requires TrustedTo(plan, run, k) && i < plan.voters == |run[k].voters|
    requires a in run[k].voters[i].reports && b in run[k].voters[i].reports
    ensures var q, r := run[k].voters[i].reports[a], run[k].voters[i].reports[b];
      && (q.accepted > 0 && q.accepted == r.accepted ==> q.value == r.value)
      && (q.proposer.Some? && q.proposer == r.proposer ==> q.value == r.value)
  {
    RunInv(plan, run, k);
    var S := run[k];
    var q, r := S.voters[i].reports[a], S.voters[i].reports[b];
    assert TrueReport(plan, S, q) && TrueReport(plan, S, r) by { OwnParts(plan, S, i); }
    if q.accepted > 0 && q.accepted == r.accepted {
      VotedIsSafe(plan, S, q.voter, q.accepted, q.value.value);
      OneVote(plan, S, r.voter, r.accepted, q.value.value, r.value.value);
    }
  }

  /** Everything heard of one proposer's fast value in a slot is the same value. */
  lemma OneFastValue(plan: Plan, run: seq<System>, k: nat, i: nat, m: Msg)
    requires TrustedTo(plan, run, k) && i < plan.voters == |run[k].voters| && m in run[k].net && m.Spread?
    requires m.proposer in run[k].voters[i].values
    ensures run[k].voters[i].values[m.proposer] == m.value
  {
    RunInv(plan, run, k);
    assert MsgOk(plan, run[k], m);
    OwnParts(plan, run[k], i);
  }

  // Two proposers

  lemma ProposalsGrow(plan: Plan, S: System, T: System)
    requires Next(plan, S, T)
    ensures S.proposals.Keys <= T.proposals.Keys
  {
  }

  lemma {:induction false} ProposalsStay(plan: Plan, run: seq<System>, j: nat)
    requires IsRun(plan, run) && j < |run|
    ensures run[j].proposals.Keys <= run[|run| - 1].proposals.Keys
    decreases |run| - j
  {
    if j + 1 < |run| {
      assert Next(plan, run[j], run[j + 1]) by { var n := j + 1; assert Next(plan, run[n - 1], run[n]); }
      ProposalsGrow(plan, run[j], run[j + 1]);
      ProposalsStay(plan, run, j + 1);
    }
  }

  /** A census that knows of two proposers at most, or whose frozen voters know of themselves, is trusted. */
  lemma SimpleTrusted(plan: Plan, S: System, i: nat, v: Value)
    requires Inv(plan, S) && i < plan.voters && CanCensus(plan, S.voters[i]) && CensusSelects(plan, S.voters[i], v)
    requires |S.voters[i].values.Keys| <= 2 || Aware(plan, S.voters[i].reports)
    ensures Trusted(plan, S.voters[i], v)
  {
    var x := S.voters[i];
    if NoneAccepted(x.reports) {
      HeldCensus(plan, S, i);
      AdoptedIsSure(plan, S, x.reports, x.values, x.ballot, v);
    }
  }

  lemma PairStepTrusted(plan: Plan, S: System, T: System)
    requires Inv(plan, S) && Next(plan, S, T) && |S.proposals.Keys| <= 2
    ensures TrustedNext(plan, S, T)
  {
    if i: nat, a, out :| VoterStep(plan, S, T, i, a, out) {
      if a.Census? {
        assert FastInv(plan, S, i) by { OwnParts(plan, S, i); }
        SubsetSize(S.voters[i].values.Keys, S.proposals.Keys);
        SimpleTrusted(plan, S, i, a.v);
      }
      assert Trusts(plan, S.voters[i], a);
    }
  }

  /** With at most two proposers in a slot, every census of every run is trusted. */
  lemma {:induction false} PairRunTrusted(plan: Plan, run: seq<System>, k: nat)
    requires IsRun(plan, run) && k < |run| && |run[|run| - 1].proposals.Keys| <= 2
    ensures TrustedTo(plan, run, k)
  {
    if k > 0 {
      PairRunTrusted(plan, run, k - 1);
      RunInv(plan, run, k - 1);
      ProposalsStay(plan, run, k - 1);
      SubsetSize(run[k - 1].proposals.Keys, run[|run| - 1].proposals.Keys);
      PairStepTrusted(plan, run[k - 1], run[k]);
    }
  }

  /** With at most two proposers, agreement holds of every run without any condition on censuses. */
  lemma PairDecisionsAgree(plan: Plan, run: seq<System>, j: nat, a: nat, k: nat, b: nat)
    requires IsRun(plan, run) && j <= k < |run| && |run[|run| - 1].proposals.Keys| <= 2
    requires a < |run[j].voters| && run[j].voters[a].decided.Some?
    requires b < |run[k].voters| && run[k].voters[b].decided.Some?
    ensures run[j].voters[a].decided == run[k].voters[b].decided
  {
    PairRunTrusted(plan, run, k);
    DecisionsAgree(plan, run, j, a, k, b);
  }
}
