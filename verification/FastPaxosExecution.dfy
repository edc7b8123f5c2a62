/**
  Replicated execution: in every run, what two replicas have executed is a common prefix, each
  request takes effect at most once, and the results stored for a request agree.
*/
module FastPaxosExecution {
  import opened FastPaxos
  import opened FastPaxosSystem
  import opened Quorums
  import opened FastPaxosSafety
  import opened FastPaxosSteps
  import opened FastPaxosAgreement

  datatype Machine = Machine(history: seq<RequestId>, results: map<RequestId, seq<RequestId>>)

  /** The reference: execute a log of decisions from its start, ignoring repeated requests. */
  function Replay(log: seq<Value>): Machine {
    if log == [] then Machine([], map[])
    else
      var m := Replay(log[..|log| - 1]);
      var v := log[|log| - 1];
      if v.Noop? || v.id in m.results then m
      else Machine(m.history + [v.id], m.results[v.id := m.history])
  }

  ghost predicate Decided(r: Replica) {
    r.executed >= -1 && forall s: nat :: s <= r.executed ==> SlotOf(r, s).chosen.Some?
  }

  function Log(r: Replica): (log: seq<Value>)
    requires Decided(r)
    ensures |log| == r.executed + 1
  {
    seq(r.executed + 1, (s: nat) requires s <= r.executed => SlotOf(r, s).chosen.value.value)
  }

  /** The incremental execution of a replica equals replaying its decided prefix. */
  ghost predicate Executed(r: Replica) {
    Decided(r) && Machine(r.history, r.results) == Replay(Log(r))
  }

  // About replay

  /** A longer log keeps every command and every result of a shorter one. */
  lemma {:induction false} ReplayExtends(log: seq<Value>, k: nat)
    requires k <= |log|
    ensures Replay(log[..k]).history <= Replay(log).history
    ensures forall id :: id in Replay(log[..k]).results ==>
      id in Replay(log).results && Replay(log).results[id] == Replay(log[..k]).results[id]
  {
    if k == |log| {
      assert log[..k] == log;
    } else {
      var shorter := log[..|log| - 1];
      assert log[..k] == shorter[..k];
      ReplayExtends(shorter, k);
    }
  }

  /** A result is stored for every request executed: the history it was executed in. */
  predicate AllResults(m: Machine) {
    forall i :: 0 <= i < |m.history| ==> m.history[i] in m.results && m.results[m.history[i]] == m.history[..i]
  }

  lemma {:induction false} ReplayResults(log: seq<Value>)
    ensures AllResults(Replay(log))
  {
    if log != [] {
      var shorter := log[..|log| - 1];
      ReplayResults(shorter);
      var m0, m := Replay(shorter), Replay(log);
      forall i | 0 <= i < |m.history| ensures m.history[i] in m.results && m.results[m.history[i]] == m.history[..i] {
        assert m.history[..i] == m0.history[..i];
      }
    }
  }

  /** Whatever has a result was executed, and was in the log. */
  lemma {:induction false} ReplayLogged(log: seq<Value>)
    ensures var m := Replay(log); forall id :: id in m.results ==> id in m.history && Command(id) in log
  {
    if log != [] {
      var shorter := log[..|log| - 1];
      ReplayLogged(shorter);
      var m0, m := Replay(shorter), Replay(log);
      assert forall v :: v in shorter ==> v in log;
      forall id | id in m.results ensures id in m.history && Command(id) in log {
        if id in m0.results {
          assert id in m0.history;
        } else {
          assert log[|log| - 1] == Command(id) && m.history[|m.history| - 1] == id;
        }
      }
    }
  }

  /** Each request is executed once. */
  lemma {:induction false} ReplayOnce(log: seq<Value>)
    ensures var m := Replay(log); forall i, j :: 0 <= i < j < |m.history| ==> m.history[i] != m.history[j]
  {
    if log != [] {
      ReplayOnce(log[..|log| - 1]);
      ReplayResults(log[..|log| - 1]);
    }
  }

  // Steps

  lemma ApplyOneExecutes(r: Replica)
    requires Executed(r) && CanApply(r)
    ensures Executed(ApplyOne(r))
  {
    var r' := ApplyOne(r);
    assert forall s: nat :: SlotOf(r', s) == SlotOf(r, s);
    assert Decided(r');
    assert Log(r')[..|Log(r')| - 1] == Log(r);
  }

  lemma {:induction false} ApplyExecutes(r: Replica)
    requires Executed(r)
    ensures Executed(Apply(r))
    decreases |Pending(r)|
  {
    if CanApply(r) {
      var r' := ApplyOne(r);
      assert Pending(r') == Pending(r) - {r.executed + 1};
      assert r.executed + 1 in Pending(r);
      ApplyOneExecutes(r);
      ApplyExecutes(r');
    }
  }

  /** Execution is untouched, and decided values of the executed prefix stay what they are. */
  ghost predicate SamePrefix(r: Replica, r': Replica) {
    && r'.executed == r.executed && r'.history == r.history && r'.results == r.results
    && (forall s: nat :: s <= r.executed && SlotOf(r, s).chosen.Some? ==>
          SlotOf(r', s).chosen.Some? && SlotOf(r', s).chosen.value.value == SlotOf(r, s).chosen.value.value)
  }

  lemma SamePrefixExecutes(r: Replica, r': Replica)
    requires Executed(r) && SamePrefix(r, r')
    ensures Executed(r')
  {
    assert Log(r') == Log(r);
  }

  lemma LearnExecutes(r: Replica, e: Entry)
    requires Executed(r) && !LearnPanics(r, e)
    ensures Executed(Learn(r, e))
  {
    var r1 := if e.payload then Remember(r, e.value) else r;
    var r2 := SetSlot(r1, e.slot, SlotOf(r1, e.slot).(chosen := Some(e.(decided := true))));
    SamePrefixExecutes(r, r2);
    ApplyExecutes(r2);
  }

  lemma QuietDelivery(r: Replica, n: nat, m: Msg)
    requires n > 0 && !m.Vote? && !m.Accepted? && !m.Commit?
    ensures SamePrefix(r, Deliver(r, n, m).0)
  {
    if m.Accept? {
      if m.epoch > 0 && Owner(n, m.epoch) == m.sender && m.epoch >= r.promise { OnAcceptAccepts(r, n, m); }
    } else {
      assert Deliver(r, n, m).0.slots == r.slots;
    }
  }

  lemma RecoveryExecution(r: Replica, m: Msg, top: int, sel: map<nat, Value>)
    requires m.Promise? && StoresPage(r, m) && top >= -1
    ensures SamePrefix(r, Recover(StorePage(r, m), top, sel))
  {
    var r1 := StorePage(r, m);
    assert SamePrefix(r, r1);
    RecoverReplans(r1, top, sel);
  }

  lemma QuietExecution(r: Replica, n: nat, net: set<Msg>, a: Action, r': Replica, out: set<Msg>)
    requires n > 0 && Acts(r, n, net, a, r', out)
    requires !a.Submit? && !(a.Receive? && (a.m.Vote? || a.m.Accepted? || a.m.Commit?))
    ensures SamePrefix(r, r')
  {
    if a.Receive? {
      QuietDelivery(r, n, a.m);
    } else if a.Recovers? {
      RecoveryExecution(r, a.m, a.top, a.sel);
    } else if a.Propose? {
      ProposeShape(r, a.id);
    }
  }

  /** A decision about to be learned cannot contradict one already recorded. */
  lemma NoConflict(n: nat, S: System, i: nat, s: nat, v: Value, e: Entry)
    requires Inv(S, n) && i < n && Chosen(S.net, n, s, v) && e.slot == s && e.value == v
    ensures !LearnPanics(S.replicas[i], e)
  {
    if SlotOf(S.replicas[i], s).chosen.Some? {
      assert Chosen(S.net, n, s, SlotOf(S.replicas[i], s).chosen.value.value) by { assert ReplicaInv(S, n, i); }
      Agreement(S, n, s, v, SlotOf(S.replicas[i], s).chosen.value.value);
    }
  }

  lemma CountedExecutes(n: nat, net: set<Msg>, r: Replica, r1: Replica)
    requires Executed(r) && Counted(n, net, r, r1)
    ensures Executed(r1)
  {
    SamePrefixExecutes(r, r1);
  }

  lemma VoteExecutes(n: nat, S: System, i: nat, m: Msg)
    requires Inv(S, n) && i < n && m in S.net && m.Vote? && m.sender < n && Executed(S.replicas[i])
    ensures Executed(OnVote(S.replicas[i], n, m))
  {
    var r := S.replicas[i];
    var st := SlotOf(r, m.slot);
    var r1 := SetSlot(r, m.slot, st.(votes := st.votes[m.sender := m.value]));
    assert Counted(n, S.net, r, r1) && Counted(n, S.net, r, SetSlot(r, m.slot, st)) by {
      assert ReplicaInv(S, n, i);
      VoteCounted(n, S.net, r, m);
      SlotTouched(n, S.net, r, m.slot);
    }
    CountedExecutes(n, S.net, r, r1);
    CountedExecutes(n, S.net, r, SetSlot(r, m.slot, st));
    if st.chosen.None? { LearnExecutes(r1, Entry(m.slot, 0, 1, m.value, false, false)); }
  }

  lemma AckExecutes(n: nat, S: System, i: nat, m: Msg)
    requires Inv(S, n) && i < n && m in S.net && m.Accepted? && Executed(S.replicas[i])
    ensures Executed(OnAccepted(S.replicas[i], n, m).0)
  {
    var r := S.replicas[i];
    if CountsAck(r, n, m) {
      AckValid(n, S, i, m);
      CountedExecutes(n, S.net, r, Acknowledge(r, m));
      assert SlotOf(r, m.slot).proposed.value.slot == m.slot by { assert ReplicaInv(S, n, i); }
      LearnExecutes(Acknowledge(r, m), SlotOf(r, m.slot).proposed.value.(payload := true, decided := true));
    }
  }

  lemma CommitExecutes(n: nat, S: System, i: nat, m: Msg)
    requires Inv(S, n) && i < n && m in S.net && m.Commit? && Executed(S.replicas[i])
    ensures Executed(OnCommit(S.replicas[i], m))
  {
    assert Chosen(S.net, n, m.slot, m.value) by {
      assert ReplicaInv(S, n, m.sender);
      assert Commit(m.sender, m.slot, m.value, m.payload) in S.net;
    }
    NoConflict(n, S, i, m.slot, m.value, Entry(m.slot, 0, 0, m.value, m.payload, true));
    LearnExecutes(S.replicas[i], Entry(m.slot, 0, 0, m.value, m.payload, true));
  }

  lemma LearningExecutes(n: nat, S: System, i: nat, m: Msg)
    requires Inv(S, n) && i < n && m in S.net && (m.Vote? || m.Accepted? || m.Commit?) && Executed(S.replicas[i])
    ensures Executed(Deliver(S.replicas[i], n, m).0)
  {
    match m
    case Vote(_, _, _) => VoteExecutes(n, S, i, m);
    case Accepted(_, _, _, _) => AckExecutes(n, S, i, m);
    case Commit(_, _, _, _) => CommitExecutes(n, S, i, m);
  }

  lemma StepExecutes(n: nat, S: System, S': System, i: nat, a: Action, out: set<Msg>, j: nat)
    requires Inv(S, n) && Step(n, S, S', i, a, out) && j < n && Executed(S.replicas[j])
    ensures Executed(S'.replicas[j])
  {
    var r := S.replicas[i];
    if j == i {
      if a.Submit? {
        var r1 := r.(known := r.known + {a.id});
        SamePrefixExecutes(r, r1);
        ApplyExecutes(r1);
      } else if a.Receive? && (a.m.Vote? || a.m.Accepted? || a.m.Commit?) {
        LearningExecutes(n, S, i, a.m);
      } else {
        QuietExecution(r, n, S.net, a, S'.replicas[i], out);
        SamePrefixExecutes(r, S'.replicas[i]);
      }
    }
  }

  lemma {:induction false} RunExecutes(n: nat, run: seq<System>, k: nat, j: nat)
    requires IsRun(n, run) && k < |run| && j < n && |run[k].replicas| == n
    ensures Executed(run[k].replicas[j])
  {
    if k == 0 {
      assert run[0].replicas[j] == Init(j);
      assert Log(Init(j)) == [];
    } else {
      RunInv(n, run, k - 1);
      RunExecutes(n, run, k - 1, j);
      assert Next(n, run[k - 1], run[k - 1 + 1]);
      var i, a, out :| Step(n, run[k - 1], run[k], i, a, out);
      StepExecutes(n, run[k - 1], run[k], i, a, out, j);
    }
  }

  // Theorems

  /** The shorter of two executed logs is a prefix of the longer, and its results are the same. */
  lemma ExecutionsAgree(n: nat, run: seq<System>, k: nat, i: nat, j: nat)
    requires IsRun(n, run) && k < |run| && i < n && j < n && |run[k].replicas| == n
    requires run[k].replicas[i].executed <= run[k].replicas[j].executed
    ensures var a, b := run[k].replicas[i], run[k].replicas[j];
      && Decided(a) && Decided(b) && Log(a) <= Log(b)
      && a.history <= b.history
      && (forall id :: id in a.results ==> id in b.results && b.results[id] == a.results[id])
  {
    var a, b := run[k].replicas[i], run[k].replicas[j];
    RunExecutes(n, run, k, i);
    RunExecutes(n, run, k, j);
    forall s: nat | s <= a.executed ensures Log(a)[s] == Log(b)[s] {
      DecisionsAgree(n, run, k, i, j, s);
    }
    assert Log(b)[..|Log(a)|] == Log(a);
    ReplayExtends(Log(b), |Log(a)|);
  }

  /** A request takes effect at most once, and only if it was decided in an executed slot. */
  lemma ExecutedOnce(n: nat, run: seq<System>, k: nat, i: nat)
    requires IsRun(n, run) && k < |run| && i < n && |run[k].replicas| == n
    ensures var r := run[k].replicas[i];
      && Decided(r)
      && (forall x, y :: 0 <= x < y < |r.history| ==> r.history[x] != r.history[y])
      && (forall x :: 0 <= x < |r.history| ==>
            r.history[x] in r.results && r.results[r.history[x]] == r.history[..x] && Command(r.history[x]) in Log(r))
  {
    RunExecutes(n, run, k, i);
    var r := run[k].replicas[i];
    ReplayOnce(Log(r));
    ReplayResults(Log(r));
    ReplayLogged(Log(r));
    assert r.history == Replay(Log(r)).history && r.results == Replay(Log(r)).results;
  }
}
