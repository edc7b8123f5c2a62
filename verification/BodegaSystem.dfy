/**
  Runs of a Bodega cluster: rosters superseding each other, leases granted, renewed, revoked and
  expiring, writes and local reads, over messages delivered late, out of order, several times or
  never. One clock advances at any time; replicas do not restart.
*/
module BodegaSystem {
  import opened Bodega
  import opened Quorums

  /** A local read that was answered: history. */
  datatype Served = Served(replica: nat, key: int, slot: nat, prefix: nat, answer: Option<Value>, seen: set<Committed>)

  datatype System = System(replicas: seq<Replica>, net: set<Msg>, now: nat, commits: set<Committed>, served: set<Served>)

  datatype Action =
    | Receive(m: Msg)
    | Recovers(m: Msg, top: nat, sel: map<nat, Value>)
    | NewRoster(leader: nat, mask: set<nat>, ranges: seq<Range>)
    | Beat
    | TryInstall
    | Revoke
    | Renewal
    | PrepareAgain
    | Write(v: Value)
    | Notify
    | RepairSlot(s: nat)
    | SubmitRead(read: nat, key: int)
    | ServeRead(read: nat)

  ghost predicate InitSystem(c: Config, s: System) {
    && |s.replicas| == c.n && (forall i :: 0 <= i < c.n ==> s.replicas[i] == Init(i))
    && s.net == {} && s.commits == {} && s.served == {}
  }

  function NextBallot(n: nat, x: Replica): nat
    requires n > 0
  {
    NextRound(n, Promised(x.lease)) + x.id + 1
  }

  /** Messages that count only within the roster they were sent in. */
  predicate Bound(m: Msg) { !m.Heartbeat? && !m.LeaseRevoke? && !m.LeaseRevoked? }

  predicate InRoster(x: Replica, m: Msg)
    requires Bound(m)
  {
    Active(x) && m.ballot == Ballot(x) && m.sender != x.id
  }

  function DeliverBound(x: Replica, c: Config, m: Msg, now: nat): (Replica, set<Msg>)
    requires Bound(m)
  {
    if m.LeaseRequest? then OnLeaseRequest(x, c, m, now)
    else if m.LeaseReply? then (OnLeaseReply(x, m, now), {})
    else if m.Promise? then (if StoresSnapshot(x, m) then StoreSnapshot(x, m) else x, {})
    else if m.Accepted? then OnAccepted(x, c.n, m)
    else if m.sender != Leader(x) then (x, {})
    else if m.Prepare? then OnPrepare(x, m)
    else if m.Accept? then OnAccept(x, m)
    else if m.Commit? then (x.(log := LearnNotice(x.log, m.ballot, m.prefix, m.slot)), {})
    else (x.(log := LearnCommitted(x.log, m.ballot, m.slot, m.value)), {})
  }

  /** Rosters and revocations are looked at in any state. */
  function Deliver(x: Replica, c: Config, m: Msg, now: nat): (Replica, set<Msg>) {
    if m.Heartbeat? then Observe(x, c.n, m.roster, now)
    else if m.LeaseRevoke? then OnLeaseRevoke(x, m)
    else if m.LeaseRevoked? then OnLeaseRevoked(x, m, now)
    else if !InRoster(x, m) then (x, {})
    else DeliverBound(x, c, m, now)
  }

  /** A promise that completes a majority of snapshots prepares the leader at once. */
  predicate CompletesPrepare(x: Replica, n: nat, m: Msg) {
    m.Promise? && InRoster(x, m) && StoresSnapshot(x, m)
    && |StoreSnapshot(x, m).lead.snapshots| >= Majority(n)
  }

  /** The write that counting an acceptance commits, if any. */
  function Commits(x: Replica, n: nat, m: Msg): set<Committed>
    requires m.Accepted?
  {
    if InRoster(x, m) && Counts(x, m) && CanCommit(CountVote(x, m), n, m.slot)
    then {Committed(m.slot, Ballot(x), x.log.entries[m.slot].value)} else {}
  }

  ghost predicate Acts(c: Config, s: System, x: Replica, a: Action, y: Replica, out: set<Msg>)
    requires c.n > 0
  {
    match a
    case Receive(m) => m in s.net && !CompletesPrepare(x, c.n, m) && (y, out) == Deliver(x, c, m, s.now)
    case Recovers(m, top, sel) =>
      m in s.net && CompletesPrepare(x, c.n, m) && IsSelection(StoreSnapshot(x, m).lead, top, sel)
      && (y, out) == Recover(StoreSnapshot(x, m), top, sel)
    case NewRoster(leader, mask, ranges) =>
      var r := Roster(NextBallot(c.n, x), leader, mask + {leader}, ranges);
      leader < c.n && y == Observe(x, c.n, r, s.now).0 && out == Observe(x, c.n, r, s.now).1 + {Heartbeat(x.id, r)}
    case Beat =>
      y == x && out == (if x.lease.pending.Some? then {Heartbeat(x.id, x.lease.pending.value)}
                        else if Ballot(x) > 0 then {Heartbeat(x.id, x.lease.current)} else {})
    case TryInstall => (y, out) == Install(x, s.now)
    case Revoke => y == x && out == Revocations(x, s.now)
    case Renewal => Active(x) && (y, out) == Renew(x, c, s.now)
    case PrepareAgain =>
      Active(x) && Leader(x) == x.id && !x.lead.prepared && y == x && out == {Prepare(x.id, Ballot(x), x.lead.prepareStart)}
    case Write(v) => IsLeader(x) && (y, out) == Propose(x, v)
    case Notify => y == x && out == CommitNotice(x)
    case RepairSlot(t) => y == x && out == Repair(x, t)
    case SubmitRead(read, key) => CanRead(x, c.n, key, s.now) && y == HoldRead(x, read, key, s.commits) && out == {}
    case ServeRead(read) => CanServe(x, c.n, read, s.now) && y == x.(held := x.held - {read}) && out == {}
  }

  function CommitsOf(x: Replica, n: nat, a: Action): set<Committed> {
    if a.Receive? && a.m.Accepted? then Commits(x, n, a.m) else {}
  }

  function ServedBy(x: Replica, a: Action): set<Served> {
    if a.ServeRead? && a.read in x.held then
      var h := x.held[a.read];
      {Served(x.id, h.key, h.slot, x.log.prefix, Answer(x, h.slot), h.seen)}
    else {}
  }

  ghost predicate Step(c: Config, s: System, s': System, i: nat, a: Action, out: set<Msg>) {
    && c.n > 0 && i < c.n && |s.replicas| == |s'.replicas| == c.n
    && Acts(c, s, s.replicas[i], a, s'.replicas[i], out)
    && s' == System(s.replicas[i := s'.replicas[i]], s.net + out, s.now,
                    s.commits + CommitsOf(s.replicas[i], c.n, a), s.served + ServedBy(s.replicas[i], a))
  }

  ghost predicate Tick(s: System, s': System) { s'.now > s.now && s' == s.(now := s'.now) }

  ghost predicate Next(c: Config, s: System, s': System) {
    Tick(s, s') || exists i: nat, a, out :: Step(c, s, s', i, a, out)
  }

  ghost predicate IsRun(c: Config, run: seq<System>) {
    |run| > 0 && c.n >= 3 && InitSystem(c, run[0]) && forall k :: 0 < k < |run| ==> Next(c, run[k - 1], run[k])
  }
}
