/**
  Runs of a FastPaxos cluster. The network is the growing set of messages ever sent, so any of
  them may be delivered late, out of order, several times or never. Replicas do not restart.
*/
module FastPaxosSystem {
  import opened FastPaxos
  import opened Quorums

  datatype System = System(replicas: seq<Replica>, net: set<Msg>)

  datatype Action =
    | Receive(m: Msg)
    | Recovers(m: Msg, top: int, sel: map<nat, Value>)
    | Submit(id: RequestId)
    | Propose(id: RequestId)
    | Elect
    | Issue(id: RequestId)
    | Repair(s: nat)
    | Answer(s: nat)
    | Beat

  predicate Membership(n: nat) { n >= 3 && n % 2 == 1 }

  ghost predicate InitSystem(n: nat, s: System) {
    && Membership(n)
    && |s.replicas| == n
    && (forall i :: 0 <= i < n ==> s.replicas[i] == Init(i))
    && s.net == {}
  }

  /** The effect of delivering a message, except for completing a recovery. */
  function Deliver(r: Replica, n: nat, m: Msg): (Replica, set<Msg>)
    requires n > 0
  {
    match m
    case Vote(_, _, _) => (OnVote(r, n, m), {})
    case Prepare(_, _, _) => OnPrepare(r, n, m)
    case Promise(_, _, _, _) => (if StoresPage(r, m) then StorePage(r, m) else r, {})
    case Accept(_, _, _, _) => OnAccept(r, n, m)
    case Accepted(_, _, _, _) => OnAccepted(r, n, m)
    case Commit(_, _, _, _) => (OnCommit(r, m), {})
    case Nack(_, epoch) => (Adopt(r, epoch), {})
    case Heartbeat(_, epoch) => (Adopt(r, epoch), {})
  }

  /** A stored page that completes a majority of snapshots starts the classic round at once. */
  ghost predicate CompletesRecovery(r: Replica, n: nat, m: Msg) {
    m.Promise? && StoresPage(r, m) && |Responders(StorePage(r, m).snapshots)| >= Majority(n)
  }

  ghost predicate Acts(r: Replica, n: nat, net: set<Msg>, a: Action, r': Replica, out: set<Msg>)
    requires n > 0
  {
    match a
    case Receive(m) =>
      m in net && !CompletesRecovery(r, n, m) && (r', out) == Deliver(r, n, m)
    case Recovers(m, top, sel) =>
      m in net && CompletesRecovery(r, n, m) && top >= -1
      && ValidRecovery(StorePage(r, m), n, top, sel)
      && (r', out) == (Recover(StorePage(r, m), top, sel), {})
    case Submit(id) => (r', out) == (Apply(r.(known := r.known + {id})), {})
    case Propose(id) => CanProposeFast(r, id) && (r', out) == ProposeFast(r, id)
    case Elect => r.executed >= -1 && (r', out) == Begin(r, n)
    case Issue(id) => CanFlush(r, n, id) && (r', out) == Flush(r, n, id)
    case Repair(s) => (r', out) == (r, Resend(r, n, s))
    case Answer(s) => (r', out) == (r, Serve(r, s))
    case Beat => (r', out) == (r, {Heartbeat(r.id, r.promise)})
  }

  ghost predicate Step(n: nat, s: System, s': System, i: nat, a: Action, out: set<Msg>) {
    && n > 0 && i < n && |s.replicas| == |s'.replicas| == n
    && Acts(s.replicas[i], n, s.net, a, s'.replicas[i], out)
    && s'.replicas == s.replicas[i := s'.replicas[i]]
    && s'.net == s.net + out
  }

  ghost predicate Next(n: nat, s: System, s': System) {
    exists i, a, out :: Step(n, s, s', i, a, out)
  }

  ghost predicate IsRun(n: nat, run: seq<System>) {
    && |run| > 0
    && InitSystem(n, run[0])
    && forall k :: 0 <= k < |run| - 1 ==> Next(n, run[k], run[k + 1])
  }
}
