/** The safety theorems of FastPaxos over whole runs. */
module FastPaxosAgreement {
  import opened FastPaxos
  import opened FastPaxosSystem
  import opened FastPaxosSafety
  import opened FastPaxosSteps
  import opened FastPaxosRecovery
  import opened Quorums

  // Completing a recovery

  lemma StoredRecovering(n: nat, S: System, i: nat, m: Msg)
    requires Inv(S, n) && i < n && m in S.net && CompletesRecovery(S.replicas[i], n, m)
    ensures Recovering(n, S, i, StorePage(S.replicas[i], m))
  {
    StoredOk(n, S, i, m);
    var r1 := StorePage(S.replicas[i], m);
    var S1 := System(S.replicas[i := r1], S.net);
    forall k | k in r1.snapshots
      ensures k < n && exists f :: SnapshotOf(S, r1.promise, r1.start, k, r1.snapshots[k], f)
    {
      var f :| SnapshotOf(S1, r1.promise, r1.start, k, r1.snapshots[k], f);
      assert SnapshotOf(S, r1.promise, r1.start, k, r1.snapshots[k], f);
    }
  }

  lemma RecoveredSafe(n: nat, S: System, i: nat, r1: Replica, top: int, sel: map<nat, Value>, s: nat)
    requires Recovering(n, S, i, r1) && ValidRecovery(r1, n, top, sel) && s in sel
    ensures Safe(S, n, r1.promise, s, sel[s])
  {
    var reports :| ReportsFor(r1.snapshots, s, reports) && Selects(reports, |Responders(r1.snapshots)|, n, sel[s]);
    RecoveryEvidence(n, S, i, r1, s, reports);
    SelectionIsSafe(S, n, r1.promise, s, Responders(r1.snapshots), reports, sel[s]);
  }

  /** The slots after a recovery: a fresh plan for the selected ones, the rest as before. */
  ghost predicate Replanned(r: Replica, r': Replica, sel: map<nat, Value>) {
    forall s: nat :: if s in sel
      then SlotOf(r', s) == SlotOf(r, s).(proposed := Some(Entry(s, r.promise, 0, sel[s], false, false)), acks := {})
      else SlotOf(r', s) == SlotOf(r, s)
  }

  lemma RecoverReplans(r1: Replica, top: int, sel: map<nat, Value>)
    requires top >= -1
    ensures Replanned(r1, Recover(r1, top, sel), sel)
  {
  }

  lemma RecoveredVotes(n: nat, S: System, S': System, i: nat, top: int)
    requires Moves(n, S, S', i, {}) && S'.net == S.net && VoteInv(S, n, i)
    requires S'.replicas[i].promise == S.replicas[i].promise && S'.replicas[i].high == top
    requires forall s: nat :: SlotOf(S'.replicas[i], s).accepted == SlotOf(S.replicas[i], s).accepted
    requires forall s: nat, w :: !Voted(S.net, i, S.replicas[i].promise, s, w)
    requires forall s: nat, c: nat, w :: s > top && c < S.replicas[i].promise ==> Blocked(S, n, c, s, w)
    ensures VoteInv(S', n, i)
  {
    forall b: nat, s: nat, w | Voted(S'.net, i, b, s, w) ensures VoteRecorded(S', n, i, b, s, w) {
      assert VoteRecorded(S, n, i, b, s, w);
      if Blocked(S, n, b, s, w) { BlockedStable(n, S, S', b, s, w); }
    }
  }

  lemma RecoveredPlan(n: nat, S: System, S': System, i: nat, top: int, sel: map<nat, Value>, r': Replica)
    requires StepOf(n, S, S', i, r', {}) && Replanned(S.replicas[i], r', sel) && S.replicas[i].preparing
    requires r'.promise == S.replicas[i].promise && r'.active && !r'.preparing && r'.next == top + 1
    requires forall s :: s in sel ==> s <= top && Safe(S, n, r'.promise, s, sel[s])
    requires forall s: nat, c: nat, w :: s > top && c < r'.promise ==> Blocked(S, n, c, s, w)
    ensures ProposalInv(S', n, i) && LeaderInv(S', n, i)
  {
    var r := S.replicas[i];
    assert ProposalInv(S, n, i) && LeaderInv(S, n, i) by { assert ReplicaInv(S, n, i); }
    forall b: nat, s: nat, w | Accept(i, b, s, w) in S'.net ensures Safe(S', n, b, s, w) && b < r.promise {
      SafeStable(n, S, S', b, s, w);
    }
    forall s: nat | s in sel ensures Safe(S', n, r'.promise, s, sel[s]) {
      SafeStable(n, S, S', r'.promise, s, sel[s]);
    }
    forall s: nat, c: nat, w | s >= r'.next && c < r'.promise ensures Blocked(S', n, c, s, w) {
      BlockedStable(n, S, S', c, s, w);
    }
  }

  lemma RecoveredFacts(n: nat, S: System, i: nat, r1: Replica, top: int, sel: map<nat, Value>)
    requires Recovering(n, S, i, r1) && ValidRecovery(r1, n, top, sel)
    ensures forall s :: s in sel ==> s <= top && Safe(S, n, r1.promise, s, sel[s])
    ensures forall s: nat, w :: !Voted(S.net, i, r1.promise, s, w)
    ensures forall s: nat, c: nat, w :: s > top && c < r1.promise ==> Blocked(S, n, c, s, w)
  {
    forall s | s in sel ensures s <= top && Safe(S, n, r1.promise, s, sel[s]) {
      RecoveredSafe(n, S, i, r1, top, sel, s);
    }
    forall s: nat, w ensures !Voted(S.net, i, r1.promise, s, w) { NoVotesYet(n, S, i, i, s, w); }
    forall s: nat, c: nat, w | s > top && c < r1.promise ensures Blocked(S, n, c, s, w) {
      AboveRecovered(n, S, i, r1, top, s, c, w);
    }
  }

  lemma RecoverStep(n: nat, S: System, S': System, i: nat, m: Msg, top: int, sel: map<nat, Value>)
    requires i < |S.replicas| && n > 0 && m in S.net && CompletesRecovery(S.replicas[i], n, m) && top >= -1
    requires ValidRecovery(StorePage(S.replicas[i], m), n, top, sel)
    requires StepOf(n, S, S', i, Recover(StorePage(S.replicas[i], m), top, sel), {})
    ensures ReplicaInv(S', n, i)
  {
    var r1 := StorePage(S.replicas[i], m);
    StoredRecovering(n, S, i, m);
    RecoveredFacts(n, S, i, r1, top, sel);
    RecoverReplans(r1, top, sel);
    var r' := Recover(r1, top, sel);
    assert Replanned(S.replicas[i], r', sel) by { assert forall s: nat :: SlotOf(r1, s) == SlotOf(S.replicas[i], s); }
    RecoveredRest(n, S, S', i, top, sel, r');
  }

  lemma RecoveredRest(n: nat, S: System, S': System, i: nat, top: int, sel: map<nat, Value>, r': Replica)
    requires StepOf(n, S, S', i, r', {}) && Replanned(S.replicas[i], r', sel) && S.replicas[i].preparing
    requires r'.id == S.replicas[i].id && r'.executed == S.replicas[i].executed && r'.frozen == S.replicas[i].frozen
    requires r'.promise == S.replicas[i].promise && r'.active && !r'.preparing && r'.next == top + 1 && r'.high == top
    requires forall s :: s in sel ==> s <= top && Safe(S, n, r'.promise, s, sel[s])
    requires forall s: nat, w :: !Voted(S.net, i, r'.promise, s, w)
    requires forall s: nat, c: nat, w :: s > top && c < r'.promise ==> Blocked(S, n, c, s, w)
    ensures ReplicaInv(S', n, i)
  {
    assert VoteInv(S', n, i) by { assert ReplicaInv(S, n, i); RecoveredVotes(n, S, S', i, top); }
    assert AcceptInv(S', n, i) by { assert ReplicaInv(S, n, i); AcceptancesKept(n, S, S', i, {}); }
    RecoveredPlan(n, S, S', i, top, sel, r');
    RecoveredKept(n, S, S', i, r', sel);
  }

  lemma RecoveredKept(n: nat, S: System, S': System, i: nat, r': Replica, sel: map<nat, Value>)
    requires StepOf(n, S, S', i, r', {}) && Replanned(S.replicas[i], r', sel)
    requires r'.promise == S.replicas[i].promise && r'.frozen == S.replicas[i].frozen && !r'.preparing
    requires r'.id == S.replicas[i].id && r'.executed == S.replicas[i].executed
    requires VoteInv(S', n, i) && AcceptInv(S', n, i) && ProposalInv(S', n, i) && LeaderInv(S', n, i)
    ensures ReplicaInv(S', n, i)
  {
    assert ReplicaInv(S, n, i);
    EpochKept(n, S, S', i, {});
    PromisesKept(n, S, S', i, {});
    SnapshotsKept(n, S, S', i, {});
    DecisionsKept(n, S, S', i, {});
  }

  // Every step

  lemma LearnsFrame(r: Replica, n: nat, d: Msg)
    requires n > 0 && (d.Vote? || d.Accepted? || d.Commit?)
    ensures var (r', out) := Deliver(r, n, d);
      r'.promise == r.promise && r'.id == r.id && forall m :: m in out ==> m.Commit? && m.sender == r.id
  {
    match d
    case Vote(_, _, _) =>
      var st := SlotOf(r, d.slot);
      LearnFrame(SetSlot(r, d.slot, st.(votes := st.votes[d.sender := d.value])), Entry(d.slot, 0, 1, d.value, false, false));
    case Accepted(_, _, _, _) =>
      if CountsAck(r, n, d) {
        LearnFrame(Acknowledge(r, d), SlotOf(r, d.slot).proposed.value.(payload := true, decided := true));
      }
    case Commit(_, _, _, _) => LearnFrame(r, Entry(d.slot, 0, 0, d.value, d.payload, true));
  }

  lemma DeliverFrame(r: Replica, n: nat, d: Msg, r': Replica, out: set<Msg>)
    requires n > 0 && (r', out) == Deliver(r, n, d)
    ensures r'.promise >= r.promise && r'.id == r.id
    ensures forall m :: m in out ==> m.sender == r.id
    ensures forall m :: m in out && m.Vote? ==> r.promise == 0
    ensures forall m :: m in out && m.Accepted? ==> m.epoch >= r.promise && m.epoch > 0
  {
    match d
    case Vote(_, _, _) => LearnsFrame(r, n, d);
    case Accepted(_, _, _, _) => LearnsFrame(r, n, d);
    case Commit(_, _, _, _) => LearnsFrame(r, n, d);
    case Accept(_, _, _, _) =>
      if d.epoch > 0 && Owner(n, d.epoch) == d.sender && d.epoch >= r.promise { OnAcceptAccepts(r, n, d); }
    case _ =>
  }

  lemma ActsFrame(r: Replica, n: nat, net: set<Msg>, a: Action, r': Replica, out: set<Msg>)
    requires n > 0 && r.id < n && Acts(r, n, net, a, r', out)
    ensures r'.promise >= r.promise && r'.id == r.id
    ensures forall m :: m in out ==> m.sender == r.id
    ensures forall m :: m in out && m.Vote? ==> r.promise == 0
    ensures forall m :: m in out && m.Accepted? ==> m.epoch >= r.promise && m.epoch > 0
  {
    match a
    case Receive(m) => DeliverFrame(r, n, m, r', out);
    case Submit(id) => ApplyFrame(r.(known := r.known + {id}));
    case Elect => EpochOwned(n, r);
    case _ =>
  }

  lemma StepExtends(n: nat, S: System, S': System, i: nat, a: Action, out: set<Msg>)
    requires Inv(S, n) && Step(n, S, S', i, a, out)
    ensures StepOf(n, S, S', i, S'.replicas[i], out)
  {
    assert S.replicas[i].id == i by { assert ReplicaInv(S, n, i); }
    ActsFrame(S.replicas[i], n, S.net, a, S'.replicas[i], out);
    ActExtends(n, S, S', i, S'.replicas[i], out);
  }

  lemma ActExtends(n: nat, S: System, S': System, i: nat, r': Replica, out: set<Msg>)
    requires |S.replicas| == n && i < n && S' == System(S.replicas[i := r'], S.net + out)
    requires r'.promise >= S.replicas[i].promise
    requires forall m :: m in out ==> m.sender == i
    requires forall m :: m in out && m.Vote? ==> S.replicas[i].promise == 0
    requires forall m :: m in out && m.Accepted? ==> m.epoch >= S.replicas[i].promise && m.epoch > 0
    ensures Extends(n, S, S')
  {
  }

  lemma ActorKept(n: nat, S: System, S': System, i: nat, a: Action, out: set<Msg>)
    requires Inv(S, n) && Step(n, S, S', i, a, out)
    ensures ReplicaInv(S', n, i)
  {
    StepExtends(n, S, S', i, a, out);
    var r := S.replicas[i];
    match a
    case Receive(m) => DeliverKept(n, S, S', i, m, out);
    case Recovers(m, top, sel) => RecoverStep(n, S, S', i, m, top, sel);
    case Submit(id) => SubmitStep(n, S, S', i, id);
    case Propose(id) => ProposeStep(n, S, S', i, id, S'.replicas[i], out);
    case Elect => ElectStep(n, S, S', i, S'.replicas[i], out);
    case Issue(id) => IssueStep(n, S, S', i, id, S'.replicas[i], out);
    case Repair(s) => RepairStep(n, S, S', i, s, out);
    case Answer(s) =>
      if SlotOf(r, s).chosen.Some? { ServeStep(n, S, S', i, s); } else { IdleStep(n, S, S', i, out); }
    case Beat => IdleStep(n, S, S', i, out);
  }

  lemma IdleStep(n: nat, S: System, S': System, i: nat, out: set<Msg>)
    requires i < |S.replicas| && StepOf(n, S, S', i, S.replicas[i], out)
    requires out <= {Heartbeat(S.replicas[i].id, S.replicas[i].promise)}
    ensures ReplicaInv(S', n, i)
  {
    assert ReplicaInv(S, n, i);
    QuietStep(n, S, S', i, S.replicas[i], out);
  }

  lemma DeliverKept(n: nat, S: System, S': System, i: nat, m: Msg, out: set<Msg>)
    requires n > 0 && i < |S.replicas| && i < |S'.replicas| && m in S.net
    requires StepOf(n, S, S', i, S'.replicas[i], out) && (S'.replicas[i], out) == Deliver(S.replicas[i], n, m)
    ensures ReplicaInv(S', n, i)
  {
    var r := S.replicas[i];
    match m
    case Vote(_, _, _) => VoteCountedStep(n, S, S', i, m);
    case Prepare(_, _, _) => PrepareStep(n, S, S', i, m, S'.replicas[i], out);
    case Promise(_, _, _, _) => if StoresPage(r, m) { StoreStep(n, S, S', i, m); } else { IdleStep(n, S, S', i, out); }
    case Accept(_, _, _, _) => AcceptStep(n, S, S', i, m, S'.replicas[i], out);
    case Accepted(_, _, _, _) => AckCountedStep(n, S, S', i, m, S'.replicas[i], out);
    case Commit(_, _, _, _) => CommitLearnedStep(n, S, S', i, m);
    case Nack(_, e) => MessageEpoch(n, S, m); AdoptStep(n, S, S', i, e);
    case Heartbeat(_, e) => MessageEpoch(n, S, m); AdoptStep(n, S, S', i, e);
  }

  lemma MessageEpoch(n: nat, S: System, m: Msg)
    requires Inv(S, n) && m in S.net && HasEpoch(m)
    ensures Begun(S, m.epoch)
  {
    assert ReplicaInv(S, n, m.sender);
  }

  lemma StepKeepsInv(n: nat, S: System, S': System, i: nat, a: Action, out: set<Msg>)
    requires Inv(S, n) && Step(n, S, S', i, a, out)
    ensures Inv(S', n)
  {
    StepExtends(n, S, S', i, a, out);
    forall j | 0 <= j < n ensures ReplicaInv(S', n, j) {
      if j == i { ActorKept(n, S, S', i, a, out); } else { OthersKept(n, S, S', i, S'.replicas[i], out, j); }
    }
  }

  lemma InitInv(n: nat, S: System)
    requires InitSystem(n, S)
    ensures Inv(S, n)
  {
    forall j | 0 <= j < n ensures ReplicaInv(S, n, j) {
      assert S.replicas[j] == Init(j);
    }
  }

  lemma {:induction false} RunInv(n: nat, run: seq<System>, k: nat)
    requires IsRun(n, run) && k < |run|
    ensures Inv(run[k], n)
  {
    if k == 0 {
      InitInv(n, run[0]);
    } else {
      RunInv(n, run, k - 1);
      assert Next(n, run[k - 1], run[k - 1 + 1]);
      var i, a, out :| Step(n, run[k - 1], run[k], i, a, out);
      StepKeepsInv(n, run[k - 1], run[k], i, a, out);
    }
  }

  // Theorems

  /** At most one value is ever chosen per slot, over the fast round and every classic epoch. */
  lemma AtMostOneChosen(n: nat, run: seq<System>, k: nat, s: nat, v: Value, w: Value)
    requires IsRun(n, run) && k < |run|
    requires Chosen(run[k].net, n, s, v) && Chosen(run[k].net, n, s, w)
    ensures v == w
  {
    RunInv(n, run, k);
    Agreement(run[k], n, s, v, w);
  }

  /** Replicas never record different decisions for one slot. */
  lemma DecisionsAgree(n: nat, run: seq<System>, k: nat, i: nat, j: nat, s: nat)
    requires IsRun(n, run) && k < |run| && i < n && j < n && |run[k].replicas| == n
    requires SlotOf(run[k].replicas[i], s).chosen.Some? && SlotOf(run[k].replicas[j], s).chosen.Some?
    ensures SlotOf(run[k].replicas[i], s).chosen.value.value == SlotOf(run[k].replicas[j], s).chosen.value.value
  {
    RunInv(n, run, k);
    assert ReplicaInv(run[k], n, i) && ReplicaInv(run[k], n, j);
    Agreement(run[k], n, s, SlotOf(run[k].replicas[i], s).chosen.value.value,
              SlotOf(run[k].replicas[j], s).chosen.value.value);
  }

  /** "conflicting decision" cannot fire on a delivered commit. */
  lemma NoConflictingCommit(n: nat, run: seq<System>, k: nat, i: nat, m: Msg)
    requires IsRun(n, run) && k < |run| && i < n && |run[k].replicas| == n && m in run[k].net && m.Commit?
    ensures !LearnPanics(run[k].replicas[i], Entry(m.slot, 0, 0, m.value, m.payload, true))
  {
    var S := run[k];
    RunInv(n, run, k);
    assert ReplicaInv(S, n, i) && ReplicaInv(S, n, m.sender);
    assert Commit(m.sender, m.slot, m.value, m.payload) in S.net;
    if SlotOf(S.replicas[i], m.slot).chosen.Some? {
      Agreement(S, n, m.slot, m.value, SlotOf(S.replicas[i], m.slot).chosen.value.value);
    }
  }

  /** "coordinator equivocation" cannot fire on a delivered proposal. */
  lemma NoEquivocation(n: nat, run: seq<System>, k: nat, i: nat, m: Msg)
    requires IsRun(n, run) && k < |run| && i < n && |run[k].replicas| == n && m in run[k].net && m.Accept?
    ensures !AcceptPanics(run[k].replicas[i], m)
  {
    var S := run[k];
    RunInv(n, run, k);
    assert ReplicaInv(S, n, i) && ReplicaInv(S, n, m.sender);
    assert Accept(m.sender, m.epoch, m.slot, m.value) in S.net;
    var acc := SlotOf(S.replicas[i], m.slot).accepted;
    if acc.Some? && acc.value.epoch == m.epoch {
      assert Voted(S.net, i, m.epoch, m.slot, acc.value.value);
      assert VoteRecorded(S, n, i, m.epoch, m.slot, acc.value.value);
    }
  }

  /** "multiple classic values in one epoch" cannot fire when a recovery completes. */
  lemma NoMixedEpoch(n: nat, run: seq<System>, k: nat, i: nat, m: Msg, s: nat, reports: map<nat, Entry>)
    requires IsRun(n, run) && k < |run| && i < n && |run[k].replicas| == n && m in run[k].net
    requires CompletesRecovery(run[k].replicas[i], n, m) && s >= run[k].replicas[i].start
    requires ReportsFor(StorePage(run[k].replicas[i], m).snapshots, s, reports)
    ensures !SelectPanics(reports)
  {
    var S := run[k];
    RunInv(n, run, k);
    StoredRecovering(n, S, i, m);
    var r1 := StorePage(S.replicas[i], m);
    RecoveryEvidence(n, S, i, r1, s, reports);
    if SelectPanics(reports) {
      var t :| IsTop(reports, t) && t.epoch > 0 && Support(reports, t, Noop) == {} && !SingleValued(reports, t);
      TopIsSingle(S, n, r1.promise, s, Responders(r1.snapshots), reports, t);
    }
  }

  lemma TopIsSingle(S: System, n: nat, b: nat, s: nat, q: set<nat>, reports: map<nat, Entry>, t: Entry)
    requires Inv(S, n) && Evidence(S, n, b, s, q, reports) && !HasDecided(reports) && IsTop(reports, t) && t.epoch > 0
    ensures SingleValued(reports, t)
  {
    var k :| k in reports && reports[k] == t;
    forall i | i in reports && SameRound(reports[i], t) ensures reports[i].value == t.value {
      ClassicVotes(S, n, i, k, t.epoch, s, reports[i].value, t.value);
    }
  }
}
