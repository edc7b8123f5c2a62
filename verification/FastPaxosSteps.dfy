/** Every FastPaxos step keeps the invariant. */
module FastPaxosSteps {
  import opened FastPaxos
  import opened FastPaxosSystem
  import opened FastPaxosSafety
  import opened Quorums

  // Frames of the handlers

  /** Execution moves only the executed prefix and the machine. */
  lemma {:induction false} ApplyFrame(r: Replica)
    ensures Apply(r) == r.(executed := Apply(r).executed, history := Apply(r).history, results := Apply(r).results)
    ensures Apply(r).executed >= r.executed
    decreases |Pending(r)|
  {
    if CanApply(r) {
      var r' := ApplyOne(r);
      assert Pending(r') == Pending(r) - {r.executed + 1};
      assert r.executed + 1 in Pending(r);
      ApplyFrame(r');
    }
  }

  /** Learning changes one slot's decision, besides payloads and execution. */
  lemma LearnFrame(r: Replica, e: Entry)
    ensures var r' := Learn(r, e);
      && r' == r.(known := r'.known, slots := r'.slots, high := r'.high, executed := r'.executed,
                  history := r'.history, results := r'.results)
      && r'.executed >= r.executed && r'.high >= r.high
      && forall s: nat :: SlotOf(r', s) ==
           if s == e.slot then SlotOf(r, s).(chosen := Some(e.(decided := true))) else SlotOf(r, s)
  {
    var r1 := if e.payload then Remember(r, e.value) else r;
    ApplyFrame(SetSlot(r1, e.slot, SlotOf(r1, e.slot).(chosen := Some(e.(decided := true)))));
  }

  /** No new votes, and the acceptances that record the old ones are untouched. */
  ghost predicate KeepsVotes(r: Replica, r': Replica, out: set<Msg>) {
    && (forall m :: m in out ==> !m.Vote? && !m.Accepted?)
    && (forall s: nat :: SlotOf(r', s).accepted == SlotOf(r, s).accepted)
  }

  /** No new proposals, and no new leadership: the owner of an epoch keeps its plan for it. */
  ghost predicate KeepsProposals(n: nat, r: Replica, r': Replica, out: set<Msg>)
    requires n > 0
  {
    && (forall m :: m in out ==> !m.Accept?)
    && (forall s: nat :: SlotOf(r', s).proposed == SlotOf(r, s).proposed)
    && (r'.promise == r.promise ==> (r.active ==> r'.active) && r'.next == r.next)
    && (r'.active ==> r'.promise > 0 && !r'.preparing)
    && (r'.preparing ==> r'.promise > 0 && Owner(n, r'.promise) == r.id)
    && (r'.active && Owner(n, r'.promise) == r.id ==> r'.promise == r.promise && r.active)
  }

  ghost predicate KeepsPromises(r: Replica, r': Replica, out: set<Msg>) {
    && (forall m :: m in out ==> !m.Promise?)
    && (if r'.promise == r.promise then r'.frozen == r.frozen else r'.frozen == None)
  }

  ghost predicate KeepsSnapshots(r: Replica, r': Replica) {
    r'.preparing ==> r.preparing && r'.promise == r.promise && r'.start == r.start && r'.snapshots == r.snapshots
  }

  ghost predicate KeepsDecisions(r: Replica, r': Replica, out: set<Msg>) {
    && (forall m :: m in out ==> !m.Commit?)
    && (forall s: nat :: SlotOf(r', s).chosen == SlotOf(r, s).chosen && SlotOf(r', s).votes == SlotOf(r, s).votes)
  }

  // Stability of each part of the invariant

  /** `S'` extends `S`, and `out` is all that replica `j` has sent in between. */
  ghost predicate Moves(n: nat, S: System, S': System, j: nat, out: set<Msg>) {
    && Membership(n) && Extends(n, S, S') && j < n
    && (forall m :: m in S'.net && m.sender == j ==> m in S.net || m in out)
  }

  lemma EpochKept(n: nat, S: System, S': System, j: nat, out: set<Msg>)
    requires Moves(n, S, S', j, out) && EpochInv(S, n, j)
    requires Begun(S', S'.replicas[j].promise)
    requires forall m :: m in out && HasEpoch(m) ==> Begun(S', m.epoch)
    ensures EpochInv(S', n, j)
  {
    forall m | m in S'.net && m.sender == j && HasEpoch(m) ensures Begun(S', m.epoch) {
      if m !in out { assert Begun(S, m.epoch); }
    }
  }

  lemma VotesKept(n: nat, S: System, S': System, j: nat, out: set<Msg>)
    requires Moves(n, S, S', j, out) && VoteInv(S, n, j)
    requires KeepsVotes(S.replicas[j], S'.replicas[j], out) && S'.replicas[j].high >= S.replicas[j].high
    ensures VoteInv(S', n, j)
  {
    forall b: nat, s: nat, w | Voted(S'.net, j, b, s, w) ensures VoteRecorded(S', n, j, b, s, w) {
      assert Voted(S.net, j, b, s, w);
      if Blocked(S, n, b, s, w) { BlockedStable(n, S, S', b, s, w); }
    }
  }

  lemma AcceptancesKept(n: nat, S: System, S': System, j: nat, out: set<Msg>)
    requires Moves(n, S, S', j, out) && AcceptInv(S, n, j)
    requires KeepsVotes(S.replicas[j], S'.replicas[j], out)
    ensures AcceptInv(S', n, j)
  {
  }

  lemma ProposalsKept(n: nat, S: System, S': System, j: nat, out: set<Msg>)
    requires Moves(n, S, S', j, out) && ProposalInv(S, n, j) && LeaderInv(S, n, j)
    requires S.replicas[j].id == j && AcksValid(S.net, n, S'.replicas[j])
    requires KeepsProposals(n, S.replicas[j], S'.replicas[j], out)
    ensures ProposalInv(S', n, j) && LeaderInv(S', n, j)
  {
    var r, r' := S.replicas[j], S'.replicas[j];
    forall b: nat, s: nat, w | Accept(j, b, s, w) in S'.net
      ensures Safe(S', n, b, s, w) && Accept(j, b, s, w) in S.net
    {
      SafeStable(n, S, S', b, s, w);
    }
    forall s: nat | SlotOf(r', s).proposed.Some? && SlotOf(r', s).proposed.value.epoch == r'.promise
      ensures Safe(S', n, r'.promise, s, SlotOf(r', s).proposed.value.value)
    {
      SafeStable(n, S, S', r'.promise, s, SlotOf(r', s).proposed.value.value);
    }
    if r'.active && Owner(n, r'.promise) == j {
      forall s: nat, c: nat, w | s >= r'.next && c < r'.promise ensures Blocked(S', n, c, s, w) {
        BlockedStable(n, S, S', c, s, w);
      }
    }
  }

  lemma FrozenStable(n: nat, S: System, S': System, j: nat, out: set<Msg>, e: nat, f: Frozen)
    requires Moves(n, S, S', j, out) && e <= S.replicas[j].promise && FrozenOk(S, n, j, e, f)
    ensures FrozenOk(S', n, j, e, f)
  {
    forall k | 0 <= k < |f.entries| && f.entries[k].decided
      ensures Chosen(S'.net, n, f.entries[k].slot, f.entries[k].value)
    {
      ChosenStable(n, S, S', f.entries[k].slot, f.entries[k].value);
    }
    forall b: nat, s: nat, w | b < e && s >= f.start && Voted(S'.net, j, b, s, w)
      ensures Blocked(S', n, b, s, w) || exists k :: 0 <= k < |f.entries| && Covers(f.entries[k], b, s, w)
    {
      assert Left(S, j, b);
      assert Voted(S.net, j, b, s, w);
      if Blocked(S, n, b, s, w) { BlockedStable(n, S, S', b, s, w); }
    }
  }

  lemma PromisesKept(n: nat, S: System, S': System, j: nat, out: set<Msg>)
    requires Moves(n, S, S', j, out) && PromiseInv(S, n, j)
    requires KeepsPromises(S.replicas[j], S'.replicas[j], out)
    ensures PromiseInv(S', n, j)
  {
    forall e: nat, f, p: nat | Promise(j, e, f, p) in S'.net
      ensures Promise(j, e, f, p) in S.net && FrozenOk(S', n, j, e, f)
    {
      assert Promise(j, e, f, p) in S.net;
      FrozenStable(n, S, S', j, out, e, f);
    }
  }

  lemma SnapshotsKept(n: nat, S: System, S': System, j: nat, out: set<Msg>)
    requires Moves(n, S, S', j, out) && SnapshotInv(S, n, j)
    requires KeepsSnapshots(S.replicas[j], S'.replicas[j])
    ensures SnapshotInv(S', n, j)
  {
    var r' := S'.replicas[j];
    if r'.preparing {
      forall i | i in r'.snapshots
        ensures i < n && exists f :: SnapshotOf(S', r'.promise, r'.start, i, r'.snapshots[i], f)
      {
        var f :| SnapshotOf(S, r'.promise, r'.start, i, r'.snapshots[i], f);
        assert SnapshotOf(S', r'.promise, r'.start, i, r'.snapshots[i], f);
      }
    }
  }

  lemma DecisionsKept(n: nat, S: System, S': System, j: nat, out: set<Msg>)
    requires Moves(n, S, S', j, out) && ChosenInv(S, n, j)
    requires KeepsDecisions(S.replicas[j], S'.replicas[j], out)
    ensures ChosenInv(S', n, j)
  {
    var r' := S'.replicas[j];
    forall s: nat | SlotOf(r', s).chosen.Some? ensures Chosen(S'.net, n, s, SlotOf(r', s).chosen.value.value) {
      ChosenStable(n, S, S', s, SlotOf(r', s).chosen.value.value);
    }
    forall s: nat, v, p | Commit(j, s, v, p) in S'.net ensures Chosen(S'.net, n, s, v) {
      assert Commit(j, s, v, p) in S.net;
      ChosenStable(n, S, S', s, v);
    }
  }

  // The actor of a step

  /** What a step of replica `i` gives the lemmas about it. */
  ghost predicate StepOf(n: nat, S: System, S': System, i: nat, r': Replica, out: set<Msg>) {
    && Inv(S, n) && i < n
    && S' == System(S.replicas[i := r'], S.net + out)
    && (forall m :: m in out ==> m.sender == i)
    && Extends(n, S, S')
  }

  lemma OthersKept(n: nat, S: System, S': System, i: nat, r': Replica, out: set<Msg>, j: nat)
    requires StepOf(n, S, S', i, r', out) && j < n && j != i
    ensures ReplicaInv(S', n, j)
  {
    assert ReplicaInv(S, n, j);
    EpochKept(n, S, S', j, {});
    VotesKept(n, S, S', j, {});
    AcceptancesKept(n, S, S', j, {});
    ProposalsKept(n, S, S', j, {});
    PromisesKept(n, S, S', j, {});
    SnapshotsKept(n, S, S', j, {});
    DecisionsKept(n, S, S', j, {});
  }

  /** Only epochs and execution move. */
  lemma QuietStep(n: nat, S: System, S': System, i: nat, r': Replica, out: set<Msg>)
    requires StepOf(n, S, S', i, r', out)
    requires var r := S.replicas[i];
      && r'.id == r.id && r'.executed >= -1 && r'.slots == r.slots && r'.high >= r.high
      && KeepsProposals(n, r, r', out) && KeepsPromises(r, r', out)
      && KeepsSnapshots(r, r') && KeepsDecisions(r, r', out) && KeepsVotes(r, r', out)
    requires forall m :: m in out && HasEpoch(m) ==> Begun(S', m.epoch)
    requires Begun(S', r'.promise)
    ensures ReplicaInv(S', n, i)
  {
    assert ReplicaInv(S, n, i);
    EpochKept(n, S, S', i, out);
    VotesKept(n, S, S', i, out);
    AcceptancesKept(n, S, S', i, out);
    ProposalsKept(n, S, S', i, out);
    PromisesKept(n, S, S', i, out);
    SnapshotsKept(n, S, S', i, out);
    DecisionsKept(n, S, S', i, out);
  }

  /** Adopting an epoch that some message mentions. */
  lemma AdoptStep(n: nat, S: System, S': System, i: nat, e: nat)
    requires i < |S.replicas| && StepOf(n, S, S', i, Adopt(S.replicas[i], e), {}) && Begun(S, e)
    ensures ReplicaInv(S', n, i)
  {
    assert ReplicaInv(S, n, i);
    QuietStep(n, S, S', i, Adopt(S.replicas[i], e), {});
  }

  lemma ElectStep(n: nat, S: System, S': System, i: nat, r': Replica, out: set<Msg>)
    requires StepOf(n, S, S', i, r', out) && S.replicas[i].executed >= -1
    requires (r', out) == Begin(S.replicas[i], n)
    ensures ReplicaInv(S', n, i)
  {
    assert ReplicaInv(S, n, i);
    var r := S.replicas[i];
    EpochOwned(n, r);
    EpochKept(n, S, S', i, out);
    VotesKept(n, S, S', i, out);
    AcceptancesKept(n, S, S', i, out);
    ProposalsKept(n, S, S', i, out);
    PromisesKept(n, S, S', i, out);
    DecisionsKept(n, S, S', i, out);
  }

  lemma EpochOwned(n: nat, r: Replica)
    requires n > 0 && r.id < n
    ensures NextEpoch(r, n) > r.promise && Owner(n, NextEpoch(r, n)) == r.id
  {
    assert r.promise == n * (r.promise / n) + r.promise % n;
    OwnerOfMultiple(n, r.promise / n + 1, r.id);
  }

  lemma {:induction false} OwnerOfMultiple(n: nat, k: nat, i: nat)
    requires i < n
    ensures k * n + i >= 0 && Owner(n, k * n + i) == i
  {
    if k > 0 {
      OwnerOfMultiple(n, k - 1, i);
      assert k * n + i == (k - 1) * n + i + n;
    }
  }

  lemma SubmitStep(n: nat, S: System, S': System, i: nat, id: RequestId)
    requires i < |S.replicas| && StepOf(n, S, S', i, Apply(S.replicas[i].(known := S.replicas[i].known + {id})), {})
    ensures ReplicaInv(S', n, i)
  {
    assert ReplicaInv(S, n, i);
    var r1 := S.replicas[i].(known := S.replicas[i].known + {id});
    ApplyFrame(r1);
    QuietStep(n, S, S', i, Apply(r1), {});
  }

  // Decisions

  /** `r1` is the actor after counting a vote or an acknowledgement: only counters have changed. */
  ghost predicate Counted(n: nat, net: set<Msg>, r: Replica, r1: Replica) {
    && r1 == r.(slots := r1.slots, high := r1.high) && r1.high >= r.high
    && (forall s: nat :: SlotOf(r1, s) == SlotOf(r, s).(votes := SlotOf(r1, s).votes, acks := SlotOf(r1, s).acks))
    && VotesValid(net, n, r1) && AcksValid(net, n, r1)
  }

  lemma CountStep(n: nat, S: System, S': System, i: nat, r1: Replica)
    requires StepOf(n, S, S', i, r1, {}) && Counted(n, S.net, S.replicas[i], r1)
    ensures ReplicaInv(S', n, i)
  {
    assert ReplicaInv(S, n, i);
    EpochKept(n, S, S', i, {});
    VotesKept(n, S, S', i, {});
    AcceptancesKept(n, S, S', i, {});
    ProposalsKept(n, S, S', i, {});
    PromisesKept(n, S, S', i, {});
    SnapshotsKept(n, S, S', i, {});
    forall s: nat | SlotOf(r1, s).chosen.Some? ensures Chosen(S'.net, n, s, SlotOf(r1, s).chosen.value.value) {
      ChosenStable(n, S, S', s, SlotOf(r1, s).chosen.value.value);
    }
    assert ChosenInv(S', n, i);
  }

  /** Learning a chosen value, possibly right after counting the last vote for it. */
  lemma LearnStep(n: nat, S: System, S': System, i: nat, r1: Replica, e: Entry, out: set<Msg>)
    requires StepOf(n, S, S', i, Learn(r1, e), out) && Counted(n, S.net, S.replicas[i], r1)
    requires Chosen(S.net, n, e.slot, e.value)
    requires forall m :: m in out ==> m.Commit? && m.slot == e.slot && m.value == e.value
    ensures ReplicaInv(S', n, i)
  {
    var r' := Learn(r1, e);
    assert ReplicaInv(S, n, i);
    LearnFrame(r1, e);
    EpochKept(n, S, S', i, out);
    VotesKept(n, S, S', i, out);
    AcceptancesKept(n, S, S', i, out);
    ProposalsKept(n, S, S', i, out);
    PromisesKept(n, S, S', i, out);
    SnapshotsKept(n, S, S', i, out);
    LearnChosen(n, S, S', i, r1, e, out);
  }

  /** Learning records, and announces, only what has been chosen. */
  lemma LearnChosen(n: nat, S: System, S': System, i: nat, r1: Replica, e: Entry, out: set<Msg>)
    requires StepOf(n, S, S', i, Learn(r1, e), out) && Counted(n, S.net, S.replicas[i], r1)
    requires Chosen(S.net, n, e.slot, e.value)
    requires forall m :: m in out ==> m.Commit? && m.slot == e.slot && m.value == e.value
    ensures ChosenInv(S', n, i)
  {
    var r' := Learn(r1, e);
    assert ChosenInv(S, n, i) by { assert ReplicaInv(S, n, i); }
    LearnFrame(r1, e);
    forall s: nat | SlotOf(r', s).chosen.Some? ensures Chosen(S'.net, n, s, SlotOf(r', s).chosen.value.value) {
      ChosenStable(n, S, S', s, SlotOf(r', s).chosen.value.value);
    }
    forall s: nat, v, p | Commit(i, s, v, p) in S'.net ensures Chosen(S'.net, n, s, v) {
      if Commit(i, s, v, p) !in out { assert Commit(i, s, v, p) in S.net; }
      ChosenStable(n, S, S', s, v);
    }
  }

  lemma VoteCounted(n: nat, net: set<Msg>, r: Replica, m: Msg)
    requires m.Vote? && m in net && m.sender < n && VotesValid(net, n, r) && AcksValid(net, n, r)
    ensures var st := SlotOf(r, m.slot); Counted(n, net, r, SetSlot(r, m.slot, st.(votes := st.votes[m.sender := m.value])))
  {
    assert Voted(net, m.sender, 0, m.slot, m.value);
  }

  lemma SlotTouched(n: nat, net: set<Msg>, r: Replica, s: nat)
    requires VotesValid(net, n, r) && AcksValid(net, n, r)
    ensures Counted(n, net, r, SetSlot(r, s, SlotOf(r, s)))
  {
  }

  lemma VoteCountedStep(n: nat, S: System, S': System, i: nat, m: Msg)
    requires i < |S.replicas| && m.Vote? && m in S.net
    requires StepOf(n, S, S', i, OnVote(S.replicas[i], n, m), {})
    ensures ReplicaInv(S', n, i)
  {
    var r := S.replicas[i];
    assert Counted(n, S.net, r, r) by { assert ReplicaInv(S, n, i); }
    var st := SlotOf(r, m.slot);
    VoteCounted(n, S.net, r, m);
    SlotTouched(n, S.net, r, m.slot);
    if r.promise != 0 || m.value.Noop? || st.chosen.Some? || m.sender in st.votes {
      CountStep(n, S, S', i, OnVote(r, n, m));
    } else {
      var votes := st.votes[m.sender := m.value];
      var r1 := SetSlot(r, m.slot, st.(votes := votes));
      if |Supporters(votes, m.value)| >= FastQuorumSize(n) {
        assert votes == SlotOf(r1, m.slot).votes;
        SubsetSize(Supporters(votes, m.value), Voters(S.net, n, 0, m.slot, m.value));
        assert ChosenAt(S.net, n, 0, m.slot, m.value);
        LearnStep(n, S, S', i, r1, Entry(m.slot, 0, 1, m.value, false, false), {});
      } else {
        CountStep(n, S, S', i, r1);
      }
    }
  }

  lemma AckCounted(n: nat, S: System, i: nat, m: Msg)
    requires Inv(S, n) && i < n && m.Accepted? && m in S.net && CountsAck(S.replicas[i], n, m)
    ensures m.epoch > 0
    ensures Proposes(S.replicas[i], m.slot, m.epoch, m.value) && m.sender < n && Voted(S.net, m.sender, m.epoch, m.slot, m.value)
  {
    assert ReplicaInv(S, n, i) && ReplicaInv(S, n, m.sender);
    assert Voted(S.net, m.sender, m.epoch, m.slot, m.value);
    assert VoteRecorded(S, n, m.sender, m.epoch, m.slot, m.value);
    assert Accept(i, m.epoch, m.slot, m.value) in S.net;
  }

  function Acknowledge(r: Replica, m: Msg): Replica
    requires m.Accepted?
  {
    var st := SlotOf(r, m.slot);
    r.(slots := r.slots[m.slot := st.(acks := st.acks + {m.sender})])
  }

  lemma AckValid(n: nat, S: System, i: nat, m: Msg)
    requires Inv(S, n) && i < n && m.Accepted? && m in S.net && CountsAck(S.replicas[i], n, m)
    ensures Counted(n, S.net, S.replicas[i], Acknowledge(S.replicas[i], m))
    ensures |SlotOf(S.replicas[i], m.slot).acks + {m.sender}| >= Majority(n) ==> ChosenAt(S.net, n, m.epoch, m.slot, m.value)
  {
    AckCounted(n, S, i, m);
    assert ReplicaInv(S, n, i);
    var r1 := Acknowledge(S.replicas[i], m);
    SubsetSize(SlotOf(r1, m.slot).acks, Voters(S.net, n, m.epoch, m.slot, m.value));
  }

  lemma AckCountedStep(n: nat, S: System, S': System, i: nat, m: Msg, r': Replica, out: set<Msg>)
    requires n > 0 && i < |S.replicas| && m.Accepted? && m in S.net
    requires (r', out) == OnAccepted(S.replicas[i], n, m) && StepOf(n, S, S', i, r', out)
    ensures ReplicaInv(S', n, i)
  {
    var r := S.replicas[i];
    assert Counted(n, S.net, r, r) by { assert ReplicaInv(S, n, i); }
    if !CountsAck(r, n, m) {
      CountStep(n, S, S', i, r);
    } else {
      AckCounted(n, S, i, m);
      AckValid(n, S, i, m);
      var st := SlotOf(r, m.slot);
      if |st.acks + {m.sender}| < Majority(n) {
        CountStep(n, S, S', i, Acknowledge(r, m));
      } else {
        LearnStep(n, S, S', i, Acknowledge(r, m), st.proposed.value.(payload := true, decided := true), out);
      }
    }
  }

  lemma CommitLearnedStep(n: nat, S: System, S': System, i: nat, m: Msg)
    requires i < |S.replicas| && m.Commit? && m in S.net
    requires StepOf(n, S, S', i, OnCommit(S.replicas[i], m), {})
    ensures ReplicaInv(S', n, i)
  {
    assert ReplicaInv(S, n, i) && ReplicaInv(S, n, m.sender);
    assert Commit(m.sender, m.slot, m.value, m.payload) in S.net;
    LearnStep(n, S, S', i, S.replicas[i], Entry(m.slot, 0, 0, m.value, m.payload, true), {});
  }

  // Votes

  lemma ProposeVotes(n: nat, S: System, S': System, i: nat, id: RequestId, r': Replica, out: set<Msg>)
    requires i < |S.replicas| && CanProposeFast(S.replicas[i], id)
    requires (r', out) == ProposeFast(S.replicas[i], id) && StepOf(n, S, S', i, r', out)
    ensures VoteInv(S', n, i) && AcceptInv(S', n, i)
  {
    ProposeShape(S.replicas[i], id);
    assert ReplicaInv(S, n, i);
    NewVote(n, S, S', i, r', out, 0, S.replicas[i].next, Command(id));
  }

  lemma ProposeStep(n: nat, S: System, S': System, i: nat, id: RequestId, r': Replica, out: set<Msg>)
    requires i < |S.replicas| && CanProposeFast(S.replicas[i], id)
    requires (r', out) == ProposeFast(S.replicas[i], id) && StepOf(n, S, S', i, r', out)
    ensures ReplicaInv(S', n, i)
  {
    var r := S.replicas[i];
    ProposeShape(r, id);
    assert r.id == i && r.executed >= -1 by { assert ReplicaInv(S, n, i); }
    assert EpochInv(S', n, i) by { assert ReplicaInv(S, n, i); EpochKept(n, S, S', i, out); }
    assert PromiseInv(S', n, i) by { assert ReplicaInv(S, n, i); PromisesKept(n, S, S', i, out); }
    assert SnapshotInv(S', n, i) by { assert ReplicaInv(S, n, i); SnapshotsKept(n, S, S', i, out); }
    assert ChosenInv(S', n, i) by { assert ReplicaInv(S, n, i); DecisionsKept(n, S, S', i, out); }
    assert ProposalInv(S', n, i) && LeaderInv(S', n, i) by { assert ReplicaInv(S, n, i); LeaderQuiet(n, S, S', i, r', out); }
    ProposeVotes(n, S, S', i, id, r', out);
  }

  lemma ProposeShape(r: Replica, id: RequestId)
    requires CanProposeFast(r, id)
    ensures var (r', out) := ProposeFast(r, id);
      && r' == r.(next := r.next + 1, slots := r'.slots, high := r'.high) && r'.high >= r.high && r'.high >= r.next
      && out == (if SlotOf(r, r.next).accepted.Some? then {} else {Vote(r.id, r.next, Command(id))})
      && forall t: nat :: SlotOf(r', t) ==
           (if t == r.next && SlotOf(r, t).accepted.None?
            then SlotOf(r, t).(accepted := Some(Entry(t, 0, 1, Command(id), true, false))) else SlotOf(r, t))
  {
  }

  /** Nothing is led or prepared in the fast round. */
  lemma LeaderQuiet(n: nat, S: System, S': System, i: nat, r': Replica, out: set<Msg>)
    requires StepOf(n, S, S', i, r', out) && ReplicaInv(S, n, i)
    requires var r := S.replicas[i];
      && r.promise == r'.promise == 0 && r'.active == r.active && r'.preparing == r.preparing
      && (forall s: nat :: SlotOf(r', s).proposed == SlotOf(r, s).proposed && SlotOf(r', s).acks == SlotOf(r, s).acks)
    requires forall m :: m in out ==> !m.Accept?
    ensures ProposalInv(S', n, i) && LeaderInv(S', n, i)
  {
  }

  /** Recording at most one new vote, in a round the replica has not left. */
  lemma NewVote(n: nat, S: System, S': System, i: nat, r': Replica, out: set<Msg>, b: nat, s: nat, w: Value)
    requires StepOf(n, S, S', i, r', out) && VoteInv(S, n, i) && AcceptInv(S, n, i)
    requires var r := S.replicas[i];
      && r.promise <= r'.promise && b == r'.promise && r'.high >= r.high
      && (forall t: nat :: t != s ==> SlotOf(r', t).accepted == SlotOf(r, t).accepted)
    requires forall m :: m in out && (m.Vote? || m.Accepted?) ==>
      m.slot == s && m.value == w && (m.Vote? <==> b == 0) && (m.Accepted? ==> m.epoch == b)
    requires if exists m :: m in out && (m.Vote? || m.Accepted?)
      then SlotOf(r', s).accepted == Some(Entry(s, b, if b == 0 then 1 else 0, w, true, false)) && r'.high >= s
      else SlotOf(r', s).accepted == SlotOf(S.replicas[i], s).accepted
    requires b == 0 && (exists m :: m in out && m.Vote?) ==> SlotOf(S.replicas[i], s).accepted.None? && w.Command?
    requires b > 0 ==> Accept(Owner(n, b), b, s, w) in S.net && ReplicaInv(S, n, Owner(n, b))
    ensures VoteInv(S', n, i) && AcceptInv(S', n, i)
  {
    forall c: nat, t: nat, x | Voted(S'.net, i, c, t, x) ensures VoteRecorded(S', n, i, c, t, x) {
      if Voted(S.net, i, c, t, x) {
        assert VoteRecorded(S, n, i, c, t, x);
        if Blocked(S, n, c, t, x) { BlockedStable(n, S, S', c, t, x); }
      }
    }
    forall t: nat, x, x' | Vote(i, t, x) in S'.net && Vote(i, t, x') in S'.net ensures x == x' {
      if Vote(i, t, x) in S.net { assert Voted(S.net, i, 0, t, x); }
      if Vote(i, t, x') in S.net { assert Voted(S.net, i, 0, t, x'); }
    }
  }

  lemma ProposalFacts(n: nat, S: System, m: Msg)
    requires Inv(S, n) && m.Accept? && m in S.net
    ensures m.epoch > 0 && m.sender == Owner(n, m.epoch) && Begun(S, m.epoch)
    ensures m.epoch <= S.replicas[m.sender].promise
    ensures m.epoch == S.replicas[m.sender].promise ==> S.replicas[m.sender].active
  {
    assert ReplicaInv(S, n, m.sender);
    assert Accept(m.sender, m.epoch, m.slot, m.value) in S.net;
  }

  /** What accepting `w` at slot `s` in epoch `b` does to a replica. */
  ghost predicate Accepts(r: Replica, r': Replica, b: nat, s: nat, w: Value) {
    && r'.id == r.id && r'.executed == r.executed && r'.next == r.next
    && r'.promise == b >= r.promise && r'.active && r'.high >= r.high && r'.high >= s
    && r'.snapshots == r.snapshots && r'.start == r.start
    && (if b == r.promise then r'.frozen == r.frozen && r'.preparing == r.preparing
        else r'.frozen == None && !r'.preparing)
    && (forall t: nat :: SlotOf(r', t) ==
         (if t == s then SlotOf(r, t).(accepted := Some(Entry(s, b, 0, w, true, false))) else SlotOf(r, t)))
  }

  lemma OnAcceptAccepts(r: Replica, n: nat, m: Msg)
    requires n > 0 && m.Accept? && m.epoch > 0 && Owner(n, m.epoch) == m.sender && m.epoch >= r.promise
    ensures var (r', out) := OnAccept(r, n, m);
      Accepts(r, r', m.epoch, m.slot, m.value) && out == {Accepted(r.id, m.epoch, m.slot, m.value)}
  {
  }

  lemma AcceptFrame(n: nat, S: System, i: nat, m: Msg, r': Replica, out: set<Msg>)
    requires Inv(S, n) && i < n && m.Accept? && m in S.net
    requires Accepts(S.replicas[i], r', m.epoch, m.slot, m.value) && out == {Accepted(i, m.epoch, m.slot, m.value)}
    ensures KeepsProposals(n, S.replicas[i], r', out) && AcksValid(S.net, n, r')
    ensures KeepsSnapshots(S.replicas[i], r') && KeepsPromises(S.replicas[i], r', out)
  {
    ProposalFacts(n, S, m);
    assert LeaderInv(S, n, i) && S.replicas[i].id == i by { assert ReplicaInv(S, n, i); }
  }

  lemma AcceptStep(n: nat, S: System, S': System, i: nat, m: Msg, r': Replica, out: set<Msg>)
    requires n > 0 && i < |S.replicas| && m.Accept? && m in S.net
    requires (r', out) == OnAccept(S.replicas[i], n, m) && StepOf(n, S, S', i, r', out)
    ensures ReplicaInv(S', n, i)
  {
    var r := S.replicas[i];
    ProposalFacts(n, S, m);
    assert Begun(S, r.promise) && AcksValid(S.net, n, r) && LeaderInv(S, n, i) && r.id == i && r.executed >= -1 by {
      assert ReplicaInv(S, n, i);
    }
    if m.epoch < r.promise {
      QuietStep(n, S, S', i, r', out);
    } else {
      OnAcceptAccepts(r, n, m);
      AcceptFrame(n, S, i, m, r', out);
      AcceptKeeps(n, S, S', i, m, r', out);
    }
  }

  lemma AcceptKeeps(n: nat, S: System, S': System, i: nat, m: Msg, r': Replica, out: set<Msg>)
    requires m.Accept? && m in S.net && m.epoch > 0 && StepOf(n, S, S', i, r', out)
    requires Owner(n, m.epoch) == m.sender && Begun(S, m.epoch)
    requires Accepts(S.replicas[i], r', m.epoch, m.slot, m.value) && out == {Accepted(i, m.epoch, m.slot, m.value)}
    requires KeepsProposals(n, S.replicas[i], r', out) && AcksValid(S.net, n, r')
    requires KeepsSnapshots(S.replicas[i], r') && KeepsPromises(S.replicas[i], r', out)
    ensures ReplicaInv(S', n, i)
  {
    assert EpochInv(S', n, i) by { assert ReplicaInv(S, n, i); EpochKept(n, S, S', i, out); }
    assert ProposalInv(S', n, i) && LeaderInv(S', n, i) by { assert ReplicaInv(S, n, i); ProposalsKept(n, S, S', i, out); }
    assert PromiseInv(S', n, i) by { assert ReplicaInv(S, n, i); PromisesKept(n, S, S', i, out); }
    assert SnapshotInv(S', n, i) by { assert ReplicaInv(S, n, i); SnapshotsKept(n, S, S', i, out); }
    assert ChosenInv(S', n, i) by { assert ReplicaInv(S, n, i); DecisionsKept(n, S, S', i, out); }
    assert VoteInv(S', n, i) && AcceptInv(S', n, i) by {
      assert ReplicaInv(S, n, i) && ReplicaInv(S, n, Owner(n, m.epoch));
      NewVote(n, S, S', i, r', out, m.epoch, m.slot, m.value);
    }
    assert r'.id == i && r'.executed >= -1 by { assert ReplicaInv(S, n, i); }
  }

  // Proposals

  /** Sending a proposal of the current plan, which `r'` may just have extended at its next slot. */
  lemma NewProposal(n: nat, S: System, S': System, i: nat, r': Replica, out: set<Msg>, s: nat, w: Value)
    requires StepOf(n, S, S', i, r', out) && ProposalInv(S, n, i) && LeaderInv(S, n, i)
    requires out == {Accept(i, r'.promise, s, w)} && Proposes(r', s, r'.promise, w)
    requires SlotOf(r', s).proposed.value.slot == s && !SlotOf(r', s).proposed.value.decided
    requires var r := S.replicas[i];
      && r'.promise == r.promise && Owner(n, r.promise) == i && r'.active && r.active && !r'.preparing
      && r'.next >= r.next && s < r'.next
      && (forall t: nat :: t != s ==> SlotOf(r', t).proposed == SlotOf(r, t).proposed)
      && (s < r.next ==> SlotOf(r', s).proposed == SlotOf(r, s).proposed)
      && AcksValid(S.net, n, r')
    ensures ProposalInv(S', n, i) && LeaderInv(S', n, i)
  {
    var r := S.replicas[i];
    assert Safe(S, n, r.promise, s, w);
    assert forall t: nat, x :: Accept(i, r.promise, t, x) in S.net ==> Proposes(r, t, r.promise, x);
    forall b: nat, t: nat, x | Accept(i, b, t, x) in S'.net ensures Safe(S', n, b, t, x) {
      SafeStable(n, S, S', b, t, x);
    }
    forall t: nat | SlotOf(r', t).proposed.Some? && SlotOf(r', t).proposed.value.epoch == r'.promise
      ensures Safe(S', n, r'.promise, t, SlotOf(r', t).proposed.value.value)
    {
      SafeStable(n, S, S', r'.promise, t, SlotOf(r', t).proposed.value.value);
    }
    forall t: nat, c: nat, x | t >= r'.next && c < r'.promise ensures Blocked(S', n, c, t, x) {
      BlockedStable(n, S, S', c, t, x);
    }
  }

  lemma IssueStep(n: nat, S: System, S': System, i: nat, id: RequestId, r': Replica, out: set<Msg>)
    requires n > 0 && i < |S.replicas| && CanFlush(S.replicas[i], n, id)
    requires (r', out) == Flush(S.replicas[i], n, id) && StepOf(n, S, S', i, r', out)
    ensures ReplicaInv(S', n, i)
  {
    var r := S.replicas[i];
    assert ReplicaInv(S, n, i);
    EpochKept(n, S, S', i, out);
    VotesKept(n, S, S', i, out);
    AcceptancesKept(n, S, S', i, out);
    PromisesKept(n, S, S', i, out);
    SnapshotsKept(n, S, S', i, out);
    DecisionsKept(n, S, S', i, out);
    NewProposal(n, S, S', i, r', out, r.next, Command(id));
  }

  lemma ServeStep(n: nat, S: System, S': System, i: nat, s: nat)
    requires i < |S.replicas| && SlotOf(S.replicas[i], s).chosen.Some?
    requires StepOf(n, S, S', i, S.replicas[i], {CommitOf(S.replicas[i], SlotOf(S.replicas[i], s).chosen.value)})
    ensures ReplicaInv(S', n, i)
  {
    var r := S.replicas[i];
    var out := {CommitOf(r, SlotOf(r, s).chosen.value)};
    assert ReplicaInv(S, n, i);
    EpochKept(n, S, S', i, out);
    VotesKept(n, S, S', i, out);
    AcceptancesKept(n, S, S', i, out);
    ProposalsKept(n, S, S', i, out);
    PromisesKept(n, S, S', i, out);
    SnapshotsKept(n, S, S', i, out);
    forall t: nat | SlotOf(r, t).chosen.Some? ensures Chosen(S'.net, n, t, SlotOf(r, t).chosen.value.value) {
      ChosenStable(n, S, S', t, SlotOf(r, t).chosen.value.value);
    }
    forall t: nat, v, p | Commit(i, t, v, p) in S'.net ensures Chosen(S'.net, n, t, v) {
      if Commit(i, t, v, p) !in out { assert Commit(i, t, v, p) in S.net; ChosenStable(n, S, S', t, v); }
    }
    assert ChosenInv(S', n, i);
  }

  lemma RepairStep(n: nat, S: System, S': System, i: nat, s: nat, out: set<Msg>)
    requires n > 0 && i < |S.replicas| && out == Resend(S.replicas[i], n, s)
    requires StepOf(n, S, S', i, S.replicas[i], out)
    ensures ReplicaInv(S', n, i)
  {
    var r := S.replicas[i];
    assert ReplicaInv(S, n, i);
    if out == {} {
      QuietStep(n, S, S', i, r, out);
    } else if SlotOf(r, s).chosen.Some? {
      ServeStep(n, S, S', i, s);
    } else {
      EpochKept(n, S, S', i, out);
      VotesKept(n, S, S', i, out);
      AcceptancesKept(n, S, S', i, out);
      PromisesKept(n, S, S', i, out);
      SnapshotsKept(n, S, S', i, out);
      DecisionsKept(n, S, S', i, out);
      NewProposal(n, S, S', i, r, out, s, SlotOf(r, s).proposed.value.value);
    }
  }

  // Promises

  /** `es` holds the reports of the slots from `from` on, in slot order. */
  ghost predicate InSlotOrder(r: Replica, from: nat, es: seq<Entry>) {
    && (forall k :: 0 <= k < |es| ==> from <= es[k].slot <= r.high && ReportOf(r, es[k].slot) == Some(es[k]))
    && (forall k, l :: 0 <= k < l < |es| ==> es[k].slot < es[l].slot)
    && (forall s: nat :: from <= s <= r.high && ReportOf(r, s).Some? ==> ReportOf(r, s).value in es)
  }

  lemma {:induction false} ReportsSpec(r: Replica, from: nat)
    requires forall s: nat :: ReportOf(r, s).Some? ==> ReportOf(r, s).value.slot == s
    ensures InSlotOrder(r, from, Reports(r, from))
    decreases r.high + 1 - from
  {
    if from <= r.high {
      ReportsSpec(r, from + 1);
    }
  }

  ghost predicate TrueReport(S: System, n: nat, i: nat, e: nat, x: Entry) {
    if x.decided then Chosen(S.net, n, x.slot, x.value)
    else x.epoch <= e && x.round == (if x.epoch == 0 then 1 else 0) && Voted(S.net, i, x.epoch, x.slot, x.value)
  }

  lemma ReportFresh(n: nat, S: System, i: nat, r1: Replica, s: nat)
    requires Inv(S, n) && i < n && ReportOf(r1, s).Some?
    requires r1.slots == S.replicas[i].slots && r1.promise >= S.replicas[i].promise
    ensures ReportOf(r1, s).value.slot == s && TrueReport(S, n, i, r1.promise, ReportOf(r1, s).value)
  {
    assert VoteInv(S, n, i) && AcceptInv(S, n, i) && ChosenInv(S, n, i) by { assert ReplicaInv(S, n, i); }
    assert SlotOf(r1, s) == SlotOf(S.replicas[i], s);
    var x := ReportOf(r1, s).value;
    if SlotOf(r1, s).chosen.None? {
      assert VoteRecorded(S, n, i, x.epoch, s, x.value);
    }
  }

  lemma VoteReported(n: nat, S: System, i: nat, r1: Replica, b: nat, s: nat, w: Value)
    requires Inv(S, n) && i < n && Voted(S.net, i, b, s, w) && !Blocked(S, n, b, s, w)
    requires r1.slots == S.replicas[i].slots && r1.high == S.replicas[i].high
    ensures s <= r1.high && ReportOf(r1, s).Some? && Covers(ReportOf(r1, s).value, b, s, w)
  {
    assert VoteInv(S, n, i) && AcceptInv(S, n, i) && ChosenInv(S, n, i) by { assert ReplicaInv(S, n, i); }
    assert SlotOf(r1, s) == SlotOf(S.replicas[i], s);
    assert VoteRecorded(S, n, i, b, s, w);
  }

  lemma FrozenFresh(n: nat, S: System, i: nat, start: nat, r1: Replica)
    requires Inv(S, n) && i < n
    requires r1.slots == S.replicas[i].slots && r1.high == S.replicas[i].high && r1.promise >= S.replicas[i].promise
    ensures FrozenOk(S, n, i, r1.promise, Frozen(start, r1.high, Reports(r1, start)))
  {
    forall s: nat | ReportOf(r1, s).Some?
      ensures ReportOf(r1, s).value.slot == s && TrueReport(S, n, i, r1.promise, ReportOf(r1, s).value)
    {
      ReportFresh(n, S, i, r1, s);
    }
    var es := Reports(r1, start);
    ReportsSpec(r1, start);
    forall k | 0 <= k < |es| ensures TrueReport(S, n, i, r1.promise, es[k]) {
      assert ReportOf(r1, es[k].slot) == Some(es[k]);
    }
    forall b: nat, s: nat, w | b < r1.promise && s >= start && Voted(S.net, i, b, s, w)
      ensures Blocked(S, n, b, s, w) || exists k :: 0 <= k < |es| && Covers(es[k], b, s, w)
    {
      if !Blocked(S, n, b, s, w) {
        VoteReported(n, S, i, r1, b, s, w);
        assert ReportOf(r1, s).value in es;
      }
    }
  }

  lemma PrepareStep(n: nat, S: System, S': System, i: nat, m: Msg, r': Replica, out: set<Msg>)
    requires n > 0 && i < |S.replicas| && m.Prepare? && m in S.net
    requires (r', out) == OnPrepare(S.replicas[i], n, m) && StepOf(n, S, S', i, r', out)
    ensures ReplicaInv(S', n, i)
  {
    var r := S.replicas[i];
    assert Begun(S, m.epoch) by { assert ReplicaInv(S, n, m.sender); }
    assert Begun(S, r.promise) && LeaderInv(S, n, i) && r.id == i && r.executed >= -1 by { assert ReplicaInv(S, n, i); }
    var r1 := Adopt(r, m.epoch);
    if m.epoch == 0 || Owner(n, m.epoch) != m.sender || m.epoch < r.promise {
      QuietStep(n, S, S', i, r', out);
    } else if r1.frozen.Some? && r1.frozen.value.start != m.start {
      QuietStep(n, S, S', i, r', out);
    } else {
      assert r'.slots == r.slots && r'.next == r.next;
      PrepareKeeps(n, S, S', i, m, r1, r', out);
    }
  }

  lemma PrepareKeeps(n: nat, S: System, S': System, i: nat, m: Msg, r1: Replica, r': Replica, out: set<Msg>)
    requires n > 0 && i < |S.replicas| && StepOf(n, S, S', i, r', out)
    requires m.Prepare? && m.epoch > 0 && m.epoch >= S.replicas[i].promise && Begun(S, m.epoch)
    requires r1 == Adopt(S.replicas[i], m.epoch) && r'.frozen.Some?
    requires var f := r'.frozen.value;
      && r' == r1.(frozen := Some(f))
      && f == (if r1.frozen.Some? then r1.frozen.value else Frozen(m.start, r1.high, Reports(r1, m.start)))
      && out == set p: nat | p < PageCount(f) :: Promise(i, r1.promise, f, p)
    ensures ReplicaInv(S', n, i)
  {
    assert r'.id == i && r'.executed >= -1 by { assert ReplicaInv(S, n, i); }
    assert forall s: nat :: SlotOf(r', s) == SlotOf(S.replicas[i], s);
    assert EpochInv(S', n, i) by { assert ReplicaInv(S, n, i); EpochKept(n, S, S', i, out); }
    assert VoteInv(S', n, i) by { assert ReplicaInv(S, n, i); VotesKept(n, S, S', i, out); }
    assert AcceptInv(S', n, i) by { assert ReplicaInv(S, n, i); AcceptancesKept(n, S, S', i, out); }
    assert ProposalInv(S', n, i) && LeaderInv(S', n, i) by { assert ReplicaInv(S, n, i); ProposalsKept(n, S, S', i, out); }
    assert SnapshotInv(S', n, i) by { assert ReplicaInv(S, n, i); SnapshotsKept(n, S, S', i, out); }
    assert ChosenInv(S', n, i) by { assert ReplicaInv(S, n, i); DecisionsKept(n, S, S', i, out); }
    assert PromiseInv(S', n, i) by { assert ReplicaInv(S, n, i); NewPromise(n, S, S', i, m, r1, r', out); }
  }

  lemma NewPromise(n: nat, S: System, S': System, i: nat, m: Msg, r1: Replica, r': Replica, out: set<Msg>)
    requires n > 0 && i < |S.replicas| && StepOf(n, S, S', i, r', out) && PromiseInv(S, n, i)
    requires m.Prepare? && m.epoch > 0 && m.epoch >= S.replicas[i].promise
    requires r1 == Adopt(S.replicas[i], m.epoch) && r'.frozen.Some?
    requires var f := r'.frozen.value;
      && r' == r1.(frozen := Some(f))
      && f == (if r1.frozen.Some? then r1.frozen.value else Frozen(m.start, r1.high, Reports(r1, m.start)))
      && out == set p: nat | p < PageCount(f) :: Promise(i, r1.promise, f, p)
    ensures PromiseInv(S', n, i)
  {
    var r, f := S.replicas[i], r'.frozen.value;
    if r1.frozen.Some? {
      FrozenStable(n, S, S', i, out, r1.promise, f);
    } else {
      FrozenFresh(n, S, i, m.start, r1);
      FrozenNow(n, S, S', i, out, r1.promise, f);
    }
    forall e: nat, g, p: nat | Promise(i, e, g, p) in S'.net
      ensures FrozenOk(S', n, i, e, g) && 0 < e <= r'.promise && p < PageCount(g) && (e == r'.promise ==> g == f)
    {
      if Promise(i, e, g, p) !in out {
        assert Promise(i, e, g, p) in S.net;
        FrozenStable(n, S, S', i, out, e, g);
      }
    }
    assert Promise(i, r'.promise, f, 0) in out;
  }

  /** Evidence frozen in this very step, which casts no votes, is as good afterwards. */
  lemma FrozenNow(n: nat, S: System, S': System, j: nat, out: set<Msg>, e: nat, f: Frozen)
    requires Moves(n, S, S', j, out) && FrozenOk(S, n, j, e, f)
    requires forall b: nat, s: nat, w :: Voted(S'.net, j, b, s, w) ==> Voted(S.net, j, b, s, w)
    ensures FrozenOk(S', n, j, e, f)
  {
    forall k | 0 <= k < |f.entries| && f.entries[k].decided
      ensures Chosen(S'.net, n, f.entries[k].slot, f.entries[k].value)
    {
      ChosenStable(n, S, S', f.entries[k].slot, f.entries[k].value);
    }
    forall b: nat, s: nat, w | b < e && s >= f.start && Voted(S'.net, j, b, s, w)
      ensures Blocked(S', n, b, s, w) || exists k :: 0 <= k < |f.entries| && Covers(f.entries[k], b, s, w)
    {
      if Blocked(S, n, b, s, w) { BlockedStable(n, S, S', b, s, w); }
    }
  }

  lemma StoredOk(n: nat, S: System, i: nat, m: Msg)
    requires Inv(S, n) && i < n && m.Promise? && m in S.net && StoresPage(S.replicas[i], m)
    ensures SnapshotInv(System(S.replicas[i := StorePage(S.replicas[i], m)], S.net), n, i)
  {
    var r := S.replicas[i];
    var r' := StorePage(r, m);
    var S1 := System(S.replicas[i := r'], S.net);
    assert SnapshotInv(S, n, i) by { assert ReplicaInv(S, n, i); }
    assert PromiseInv(S, n, m.sender) by { assert ReplicaInv(S, n, m.sender); }
    assert Promise(m.sender, r.promise, m.frozen, m.page) in S.net;
    forall k | k in r'.snapshots
      ensures k < n && exists f :: SnapshotOf(S1, r'.promise, r'.start, k, r'.snapshots[k], f)
    {
      if k in r.snapshots {
        var f :| SnapshotOf(S, r.promise, r.start, k, r.snapshots[k], f);
        if k == m.sender { assert f == m.frozen; }
        assert SnapshotOf(S1, r'.promise, r'.start, k, r'.snapshots[k], f);
      } else {
        assert SnapshotOf(S1, r'.promise, r'.start, k, r'.snapshots[k], m.frozen);
      }
    }
  }

  lemma StoreStep(n: nat, S: System, S': System, i: nat, m: Msg)
    requires i < |S.replicas| && m.Promise? && m in S.net && StoresPage(S.replicas[i], m)
    requires StepOf(n, S, S', i, StorePage(S.replicas[i], m), {})
    ensures ReplicaInv(S', n, i)
  {
    StoredOk(n, S, i, m);
    assert S' == System(S.replicas[i := StorePage(S.replicas[i], m)], S.net);
    assert ReplicaInv(S, n, i);
    EpochKept(n, S, S', i, {});
    VotesKept(n, S, S', i, {});
    AcceptancesKept(n, S, S', i, {});
    ProposalsKept(n, S, S', i, {});
    PromisesKept(n, S, S', i, {});
    DecisionsKept(n, S, S', i, {});
  }
}
