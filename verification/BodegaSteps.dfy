/** Every step of a Bodega replica keeps the log invariant. */
module BodegaSteps {
  import opened Bodega
  import opened BodegaSystem
  import opened BodegaLeases
  import opened BodegaLeaseSteps
  import opened BodegaSafety
  import opened BodegaFrame
  import opened BodegaLogs
  import opened Quorums

  lemma OwnParts(c: Config, S: System, i: nat)
    requires PaxosInv(c, S) && i < c.n
    ensures var x := S.replicas[i];
      && LogOk(S.net, c.n, i, Ballot(x), x.log) && ThresholdOk(S.net, i, x.lease)
      && FollowOk(S.net, c.n, i, Ballot(x), x.lead) && LeadOk(c, S, i)
  {
    assert ReplicaOk(c, S, i);
  }

  // Steps that leave the log alone

  predicate Quiet(out: set<Msg>) { forall m :: m in out ==> !m.Accept? && !m.Accepted? }

  lemma QuietActed(S: System, i: nat, y: Replica, out: set<Msg>, T: System)
    requires Moved(S, i, y, out, T) && Quiet(out) && Ballot(S.replicas[i]) <= Ballot(y)
    ensures Acted(S, T, i) && SameVotes(S.net, T.net, i)
    ensures forall l: nat, b: nat, s: nat, v :: Accept(l, b, s, v) in T.net ==> Accept(l, b, s, v) in S.net
  {
  }

  lemma QuietMsgs(c: Config, S: System, i: nat, y: Replica, out: set<Msg>, T: System)
    requires MsgInv(c, S) && Moved(S, i, y, out, T) && Quiet(out) && Ballot(S.replicas[i]) <= Ballot(y)
    requires forall m :: m in out ==> MsgOk(c, T, m)
    ensures MsgInv(c, T)
  {
    QuietActed(S, i, y, out, T);
    MsgsKeep(c, S, T, i);
  }

  /** Lease traffic, notices and reads: nothing of the replica's log or leadership changes. */
  lemma UnmovedKeep(c: Config, S: System, i: nat, y: Replica, out: set<Msg>, T: System)
    requires PaxosInv(c, S) && i < c.n && Moved(S, i, y, out, T) && Quiet(out) && SamePaxos(S.replicas[i], y)
    requires forall m :: m in out ==> MsgOk(c, T, m)
    ensures PaxosInv(c, T)
  {
    QuietActed(S, i, y, out, T);
    QuietMsgs(c, S, i, y, out, T);
    assert ReplicaOk(c, S, i);
    UnmovedOk(c, S, T, i, i);
    Keep(c, S, T, i);
  }

  lemma NoticeOk(c: Config, S: System, i: nat, T: System, s: nat)
    requires PaxosInv(c, S) && i < c.n && S.net <= T.net && (s > 0 ==> s in S.replicas[i].log.committed)
    ensures MsgOk(c, T, Commit(i, Ballot(S.replicas[i]), S.replicas[i].log.prefix, s))
  {
    var x := S.replicas[i];
    OwnParts(c, S, i);
    forall t: nat | 0 < t <= x.log.prefix || (t == s && s > 0) ensures Known(T.net, c.n, Ballot(x), t) {
      assert t in x.log.committed;
      DecidedStays(S.net, T.net, c.n, Ballot(x), Ballot(x), t, x.log.entries[t].value);
    }
  }

  lemma NotifyKeep(c: Config, S: System, i: nat, T: System)
    requires PaxosInv(c, S) && Wf(c, S) && i < c.n && Moved(S, i, S.replicas[i], CommitNotice(S.replicas[i]), T)
    ensures PaxosInv(c, T)
  {
    NoticeOk(c, S, i, T, 0);
    UnmovedKeep(c, S, i, S.replicas[i], CommitNotice(S.replicas[i]), T);
  }

  /** Repairing proposals are ones made before; what is passed on as history has been decided. */
  lemma RepairOk(c: Config, S: System, i: nat, T: System, s: nat, m: Msg)
    requires PaxosInv(c, S) && Wf(c, S) && i < c.n && S.net <= T.net && m in Repair(S.replicas[i], s)
    ensures m in S.net || (MsgOk(c, T, m) && !m.Accept? && !m.Accepted?)
  {
    var x := S.replicas[i];
    OwnParts(c, S, i);
    if m.CommittedEntry? {
      assert s in x.log.committed;
      DecidedStays(S.net, T.net, c.n, Ballot(x), Ballot(x), s, x.log.entries[s].value);
    } else if m.Commit? {
      NoticeOk(c, S, i, T, s);
    }
  }

  lemma RepairKeep(c: Config, S: System, i: nat, s: nat, T: System)
    requires PaxosInv(c, S) && Wf(c, S) && i < c.n && Moved(S, i, S.replicas[i], Repair(S.replicas[i], s), T)
    ensures PaxosInv(c, T)
  {
    var x := S.replicas[i];
    var out := set m | m in Repair(x, s) && m !in S.net;
    forall m | m in out ensures MsgOk(c, T, m) && !m.Accept? && !m.Accepted? { RepairOk(c, S, i, T, s, m); }
    assert S.net + out == S.net + Repair(x, s);
    UnmovedKeep(c, S, i, x, out, T);
  }

  // Installing a roster

  /** Beginning a new ballot with what the log holds. */
  lemma FreshSnapshot(net: set<Msg>, n: nat, i: nat, b: nat, b': nat, l: Log, start: nat)
    requires LogOk(net, n, i, b, l) && b <= b' && start > 0
    ensures SnapOk(net, n, i, b', start, Suffix(l.entries, start))
  {
  }

  lemma NewBallotLog(net: set<Msg>, net': set<Msg>, n: nat, i: nat, b: nat, b': nat, l: Log)
    requires LogOk(net, n, i, b, l) && b <= b' && SameVotes(net, net', i)
    ensures LogOk(net', n, i, b', l.(noticePrefix := 0, noticeSlots := {}))
  {
    LogStays(net, net', n, i, b, b', l);
  }

  /** What installing leaves: a new ballot, its threshold, and no proposals or votes in it. */
  predicate Began(x: Replica, y: Replica) {
    && Ballot(y) > Ballot(x) && y.lease.pending.None? && y.lease.threshold == x.log.high
    && y.log == x.log.(noticePrefix := 0, noticeSlots := {}) && !y.lead.prepared && y.lead.votes == map[]
    && y.lead.prepareStart == x.log.prefix + 1
    && (if Leader(y) == x.id
        then y.lead.snapshot == Some(Snapshot(y.lead.prepareStart, Suffix(x.log.entries, y.lead.prepareStart)))
             && y.lead.snapshots == map[x.id := Suffix(x.log.entries, y.lead.prepareStart)]
        else y.lead.snapshot.None? && y.lead.snapshots == map[])
  }

  lemma ProposedInBallot(c: Config, S: System, i: nat)
    requires MsgInv(c, S) && i < c.n
    ensures forall b: nat, s: nat, v :: Accept(i, b, s, v) in S.net ==> b <= Ballot(S.replicas[i])
  {
    forall b: nat, s: nat, v | Accept(i, b, s, v) in S.net ensures b <= Ballot(S.replicas[i]) {
      assert MsgOk(c, S, Accept(i, b, s, v));
    }
  }

  lemma BeganLeads(c: Config, S: System, i: nat, y: Replica, T: System)
    requires |T.replicas| == c.n && i < c.n && |S.replicas| == c.n && T.replicas[i] == y && S.replicas[i].id == i && Began(S.replicas[i], y)
    requires LogOk(T.net, c.n, i, Ballot(y), y.log) && forall s: nat, v :: Accept(i, Ballot(y), s, v) !in T.net
    requires forall s: nat :: s in y.log.entries ==> y.log.entries[s].ballot < Ballot(y)
    ensures LeadOk(c, T, i) && FollowOk(T.net, c.n, i, Ballot(y), y.lead)
  {
    FreshSnapshot(T.net, c.n, i, Ballot(y), Ballot(y), y.log, y.lead.prepareStart);
    assert forall s: nat :: VotesOf(y.lead, s) == {};
  }

  lemma BeganOk(c: Config, S: System, i: nat, y: Replica, out: set<Msg>, T: System)
    requires PaxosInv(c, S) && Wf(c, S) && i < c.n && Moved(S, i, y, out, T) && Quiet(out) && Began(S.replicas[i], y)
    ensures ReplicaOk(c, T, i)
  {
    var x := S.replicas[i];
    assert LogOk(S.net, c.n, i, Ballot(x), x.log) by { OwnParts(c, S, i); }
    QuietActed(S, i, y, out, T);
    NewBallotLog(S.net, T.net, c.n, i, Ballot(x), Ballot(y), x.log);
    ProposedInBallot(c, S, i);
    BeganLeads(c, S, i, y, T);
  }

  lemma BeganKeep(c: Config, S: System, i: nat, y: Replica, out: set<Msg>, T: System)
    requires PaxosInv(c, S) && Wf(c, S) && i < c.n && Moved(S, i, y, out, T) && Quiet(out) && Began(S.replicas[i], y)
    requires forall m :: m in out ==> MsgOk(c, T, m)
    ensures PaxosInv(c, T)
  {
    QuietActed(S, i, y, out, T);
    QuietMsgs(c, S, i, y, out, T);
    BeganOk(c, S, i, y, out, T);
    Keep(c, S, T, i);
  }

  /** Waiting for leases to end, unprepared, with another roster pending. */
  predicate Waiting(x: Replica, y: Replica) {
    && y.log == x.log && y.lead == x.lead.(prepared := false) && y.lease.current == x.lease.current
    && y.lease.threshold == x.lease.threshold && y.lease.pending.Some?
  }

  lemma WaitingKeep(c: Config, S: System, i: nat, y: Replica, out: set<Msg>, T: System)
    requires PaxosInv(c, S) && i < c.n && Moved(S, i, y, out, T) && Quiet(out) && Waiting(S.replicas[i], y)
    requires forall m :: m in out ==> MsgOk(c, T, m)
    ensures PaxosInv(c, T)
  {
    var x := S.replicas[i];
    OwnParts(c, S, i);
    QuietActed(S, i, y, out, T);
    QuietMsgs(c, S, i, y, out, T);
    LogStays(S.net, T.net, c.n, i, Ballot(x), Ballot(x), x.log);
    FollowStays(S.net, T.net, c.n, i, Ballot(x), x.lead);
    WaitingLeads(c, S, i, y, T);
    Keep(c, S, T, i);
  }

  lemma WaitingLeads(c: Config, S: System, i: nat, y: Replica, T: System)
    requires |S.replicas| == c.n && i < c.n && LeadOk(c, S, i) && Acted(S, T, i) && T.replicas[i] == y && Waiting(S.replicas[i], y)
    requires SameVotes(S.net, T.net, i)
    requires forall b: nat, s: nat, v :: Accept(i, b, s, v) in T.net ==> Accept(i, b, s, v) in S.net
    ensures LeadOk(c, T, i)
  {
    var x := S.replicas[i];
    assert forall s: nat :: VotesOf(y.lead, s) == VotesOf(x.lead, s);
    EvidenceStays(c, S, T, i, i);
  }

  lemma InstallBegins(x: Replica, now: nat)
    requires MayInstall(x.lease, now) && x.lease.pending.value.ballot > Ballot(x) && !x.lead.prepared
    ensures Began(x, Install(x, now).0) && forall m :: m in Install(x, now).1 ==> m.Prepare?
  {
  }

  predicate Plain(m: Msg) {
    m.Heartbeat? || m.LeaseRequest? || m.LeaseReply? || m.LeaseRevoke? || m.LeaseRevoked? || m.Prepare?
  }

  lemma PlainOk(c: Config, T: System, out: set<Msg>)
    requires forall m :: m in out ==> Plain(m)
    ensures Quiet(out) && forall m :: m in out ==> MsgOk(c, T, m)
  {
  }

  /** Installing, or waiting to: `z` is the replica as it waits. */
  lemma InstallKeep(c: Config, S: System, i: nat, z: Replica, y: Replica, out: set<Msg>, T: System)
    requires PaxosInv(c, S) && Wf(c, S) && i < c.n && z.id == i && Waiting(S.replicas[i], z) && z.lease.pending.value.ballot > Ballot(z)
    requires y == Install(z, S.now).0 && Moved(S, i, y, out, T) && forall m :: m in out ==> Plain(m)
    ensures PaxosInv(c, T)
  {
    PlainOk(c, T, out);
    if MayInstall(z.lease, S.now) {
      InstallBegins(z, S.now);
      BeganKeep(c, S, i, y, out, T);
    } else {
      WaitingKeep(c, S, i, y, out, T);
    }
  }

  lemma ObserveKeep(c: Config, S: System, i: nat, r: Roster, out: set<Msg>, T: System)
    requires PaxosInv(c, S) && Wf(c, S) && i < c.n && Moved(S, i, Observe(S.replicas[i], c.n, r, S.now).0, out, T)
    requires forall m :: m in out ==> Plain(m)
    ensures PaxosInv(c, T)
  {
    var x := S.replicas[i];
    if !ValidRoster(r, c.n) || r.ballot <= Promised(x.lease) {
      PlainOk(c, T, out);
      UnmovedKeep(c, S, i, x, out, T);
    } else {
      var z := x.(lease := x.lease.(pending := Some(r), incoming := map[], requests := map[]), lead := x.lead.(prepared := false));
      InstallKeep(c, S, i, z, Install(z, S.now).0, out, T);
    }
  }

  lemma TryInstallKeep(c: Config, S: System, i: nat, T: System)
    requires PaxosInv(c, S) && RosterInv(c, S) && i < c.n
    requires Moved(S, i, Install(S.replicas[i], S.now).0, Install(S.replicas[i], S.now).1, T)
    ensures PaxosInv(c, T)
  {
    var x := S.replicas[i];
    var (y, out) := Install(x, S.now);
    PlainOk(c, T, out);
    if x.lease.pending.Some? {
      assert RosterOf(S, i);
      OwnParts(c, S, i);
      InstallKeep(c, S, i, x, y, out, T);
    } else {
      UnmovedKeep(c, S, i, x, out, T);
    }
  }

  lemma RevokedKeep(c: Config, S: System, i: nat, m: Msg, T: System)
    requires PaxosInv(c, S) && RosterInv(c, S) && i < c.n && m.LeaseRevoked?
    requires Moved(S, i, OnLeaseRevoked(S.replicas[i], m, S.now).0, OnLeaseRevoked(S.replicas[i], m, S.now).1, T)
    ensures PaxosInv(c, T)
  {
    var x := S.replicas[i];
    var (y, out) := OnLeaseRevoked(x, m, S.now);
    PlainOk(c, T, out);
    if m.to != x.id || x.lease.pending.None? || x.lease.pending.value.ballot <= Ballot(x) || m.ballot != Ballot(x) {
      UnmovedKeep(c, S, i, x, out, T);
    } else {
      OwnParts(c, S, i);
      InstallKeep(c, S, i, x.(lease := x.lease.(outgoing := x.lease.outgoing - {m.sender})), y, out, T);
    }
  }

  // Followers

  /** A replica that does not lead its roster has made no proposal in it. */
  lemma NotLeading(c: Config, S: System, i: nat)
    requires PaxosInv(c, S) && RosterInv(c, S) && i < c.n && Ballot(S.replicas[i]) > 0 && Leader(S.replicas[i]) != i
    ensures forall s: nat, v :: Accept(i, Ballot(S.replicas[i]), s, v) !in S.net
    ensures S.replicas[i].lead.snapshots == map[] && forall s: nat :: VotesOf(S.replicas[i].lead, s) == {}
  {
    var x := S.replicas[i];
    OwnParts(c, S, i);
    assert RosterOf(S, i);
    forall s: nat, v ensures Accept(i, Ballot(x), s, v) !in S.net { NotProposed(c, S, i, s, v); }
    assert forall a: nat :: a !in x.lead.snapshots;
  }

  lemma NotProposed(c: Config, S: System, i: nat, s: nat, v: Value)
    requires MsgInv(c, S) && RosterInv(c, S) && i < c.n && Ballot(S.replicas[i]) > 0 && Leader(S.replicas[i]) != i
    ensures Accept(i, Ballot(S.replicas[i]), s, v) !in S.net
  {
    if Accept(i, Ballot(S.replicas[i]), s, v) in S.net {
      LedBy(c, S, i, Ballot(S.replicas[i]), s, v, i);
    }
  }

  /** Proposals of a ballot come from the leader that its roster names. */
  lemma LedBy(c: Config, S: System, l: nat, b: nat, s: nat, v: Value, i: nat)
    requires MsgInv(c, S) && RosterInv(c, S) && i < c.n && Accept(l, b, s, v) in S.net && Ballot(S.replicas[i]) == b > 0
    ensures l == Leader(S.replicas[i])
  {
    assert MsgOk(c, S, Accept(l, b, s, v));
    assert RosterOf(S, i);
    var r :| Sent(S.net, r) && r.ballot == b && r.leader == l;
  }

  /** The leader's part is empty for a follower, whatever its log. */
  lemma FollowerLeads(c: Config, T: System, i: nat)
    requires i < |T.replicas| && T.replicas[i].id == i && Leader(T.replicas[i]) != i && T.replicas[i].lead.snapshots == map[]
    requires T.replicas[i].lease.pending.None?
    requires forall s: nat, v :: Accept(i, Ballot(T.replicas[i]), s, v) !in T.net
    requires forall s: nat :: VotesOf(T.replicas[i].lead, s) == {}
    ensures LeadOk(c, T, i)
  {
  }

  /** A follower's log has changed; it may have voted for what the log now holds in its ballot. */
  lemma FollowerKeep(c: Config, S: System, i: nat, l: Log, out: set<Msg>, T: System)
    requires PaxosInv(c, S) && RosterInv(c, S) && i < c.n && Active(S.replicas[i]) && Leader(S.replicas[i]) != i
    requires Moved(S, i, S.replicas[i].(log := l), out, T) && LogOk(S.net, c.n, i, Ballot(S.replicas[i]), l)
    requires forall m :: m in out ==> m.Accepted? && m.sender == i && m.ballot == Ballot(S.replicas[i]) && Offered(S.net, m.ballot, m.slot, m.value)
                                      && m.slot in l.entries && l.entries[m.slot] == Entry(m.ballot, m.value)
    ensures PaxosInv(c, T)
  {
    var x := S.replicas[i];
    var b := Ballot(x);
    forall a: nat, d: nat, s: nat, v | Voted(T.net, a, d, s, v) && !Voted(S.net, a, d, s, v)
      ensures a == i && d == b && s in l.entries && l.entries[s] == Entry(b, v)
    {
      assert Accepted(a, d, s, v) in out;
    }
    assert Acted(S, T, i);
    assert OneAccept(T.net);
    forall m | m in T.net && m !in S.net ensures MsgOk(c, T, m) { OfferedStays(S.net, T.net, m.ballot, m.slot, m.value); }
    MsgsKeep(c, S, T, i);
    VotesKeep(S.net, T.net, c.n, i, b, l);
    OwnParts(c, S, i);
    FollowStays(S.net, T.net, c.n, i, b, x.lead);
    NotLeading(c, S, i);
    FollowerLeads(c, T, i);
    Keep(c, S, T, i);
  }

  lemma OfferedStays(net: set<Msg>, net': set<Msg>, b: nat, s: nat, v: Value)
    requires net <= net' && Offered(net, b, s, v)
    ensures Offered(net', b, s, v)
  {
  }

  lemma AcceptKept(c: Config, S: System, i: nat, m: Msg, T: System)
    requires PaxosInv(c, S) && RosterInv(c, S) && i < c.n && m in S.net && m.Accept? && InRoster(S.replicas[i], m) && m.sender == Leader(S.replicas[i])
    requires Moved(S, i, OnAccept(S.replicas[i], m).0, OnAccept(S.replicas[i], m).1, T)
    ensures PaxosInv(c, T)
  {
    var x := S.replicas[i];
    assert m == Accept(m.sender, m.ballot, m.slot, m.value) && MsgOk(c, S, m);
    assert LogOk(S.net, c.n, i, Ballot(x), x.log) by { OwnParts(c, S, i); }
    assert Offered(S.net, m.ballot, m.slot, m.value);
    AcceptAndNoticeKeep(c, S, i, m.ballot, x.log, m.slot, m.value);
    FollowerKeep(c, S, i, AcceptAndNotice(x.log, m.ballot, m.slot, m.value), {Accepted(i, m.ballot, m.slot, m.value)}, T);
  }

  lemma CommitKept(c: Config, S: System, i: nat, m: Msg, T: System)
    requires PaxosInv(c, S) && RosterInv(c, S) && i < c.n && m in S.net && m.Commit? && InRoster(S.replicas[i], m) && m.sender == Leader(S.replicas[i])
    requires Moved(S, i, S.replicas[i].(log := LearnNotice(S.replicas[i].log, m.ballot, m.prefix, m.slot)), {}, T)
    ensures PaxosInv(c, T)
  {
    var x := S.replicas[i];
    assert MsgOk(c, S, m);
    assert LogOk(S.net, c.n, i, Ballot(x), x.log) by { OwnParts(c, S, i); }
    LearnNoticeKeep(c, S, i, m.ballot, x.log, m.prefix, m.slot);
    FollowerKeep(c, S, i, LearnNotice(x.log, m.ballot, m.prefix, m.slot), {}, T);
  }

  lemma HistoryKept(c: Config, S: System, i: nat, m: Msg, T: System)
    requires PaxosInv(c, S) && RosterInv(c, S) && i < c.n && m in S.net && m.CommittedEntry? && InRoster(S.replicas[i], m) && m.sender == Leader(S.replicas[i])
    requires Moved(S, i, S.replicas[i].(log := LearnCommitted(S.replicas[i].log, m.ballot, m.slot, m.value)), {}, T)
    ensures PaxosInv(c, T)
  {
    var x := S.replicas[i];
    assert MsgOk(c, S, m);
    assert LogOk(S.net, c.n, i, Ballot(x), x.log) by { OwnParts(c, S, i); }
    LearnCommittedKeep(c, S, i, m.ballot, x.log, m.slot, m.value);
    FollowerKeep(c, S, i, LearnCommitted(x.log, m.ballot, m.slot, m.value), {}, T);
  }
}
