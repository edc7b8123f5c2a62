/** What stays true when one Bodega replica acts. */
module BodegaFrame {
  import opened Bodega
  import opened BodegaSystem
  import opened BodegaLeases
  import opened BodegaSafety
  import opened Quorums

  /** Replica `i` has acted: it votes and proposes only in its ballot, which never falls. */
  ghost predicate Acted(S: System, T: System, i: nat) {
    && i < |S.replicas| == |T.replicas| && S.net <= T.net
    && (forall j: nat :: j < |S.replicas| && j != i ==> T.replicas[j] == S.replicas[j])
    && Ballot(S.replicas[i]) <= Ballot(T.replicas[i])
    && (forall a: nat, b: nat, s: nat, v :: Voted(T.net, a, b, s, v) && !Voted(S.net, a, b, s, v) ==> a == i && b == Ballot(T.replicas[i]))
    && (forall l: nat, b: nat, s: nat, v :: Accept(l, b, s, v) in T.net && Accept(l, b, s, v) !in S.net ==> l == i && b == Ballot(T.replicas[i]))
  }

  lemma BlockedStays(S: System, T: System, i: nat, n: nat, b: nat, s: nat, v: Value)
    requires Acted(S, T, i) && Blocked(S, n, b, s, v)
    ensures Blocked(T, n, b, s, v)
  {
    SubsetSize(Blockers(S, n, b, s, v), Blockers(T, n, b, s, v));
  }

  lemma SafeStays(S: System, T: System, i: nat, n: nat, b: nat, s: nat, v: Value)
    requires Acted(S, T, i) && Safe(S, n, b, s, v)
    ensures Safe(T, n, b, s, v)
  {
    forall d: nat, w | d < b && w != v ensures Blocked(T, n, d, s, w) { BlockedStays(S, T, i, n, d, s, w); }
  }

  lemma DecidedStays(net: set<Msg>, net': set<Msg>, n: nat, b: nat, b': nat, s: nat, v: Value)
    requires net <= net' && b <= b' && DecidedBy(net, n, b, s, v)
    ensures DecidedBy(net', n, b', s, v)
  {
    var d: nat :| d <= b && ChosenAt(net, n, d, s, v);
    SubsetSize(VotersFor(net, n, d, s, v), VotersFor(net', n, d, s, v));
    assert ChosenAt(net', n, d, s, v);
  }

  lemma KnownStays(net: set<Msg>, net': set<Msg>, n: nat, b: nat, b': nat, s: nat)
    requires net <= net' && b <= b' && Known(net, n, b, s)
    ensures Known(net', n, b', s)
  {
    var v :| DecidedBy(net, n, b, s, v);
    DecidedStays(net, net', n, b, b', s, v);
  }

  lemma EntryStays(net: set<Msg>, net': set<Msg>, n: nat, s: nat, e: Entry)
    requires net <= net' && EntryOk(net, n, s, e)
    ensures EntryOk(net', n, s, e)
  {
    if DecidedBy(net, n, e.ballot, s, e.value) { DecidedStays(net, net', n, e.ballot, e.ballot, s, e.value); }
  }

  lemma SnapStays(net: set<Msg>, net': set<Msg>, n: nat, a: nat, b: nat, start: nat, es: map<nat, Entry>)
    requires net <= net' && SnapOk(net, n, a, b, start, es)
    requires forall d: nat, s: nat, w :: d < b && Voted(net', a, d, s, w) ==> Voted(net, a, d, s, w)
    ensures SnapOk(net', n, a, b, start, es)
  {
    forall s: nat | s in es ensures s >= start && es[s].ballot <= b && EntryOk(net', n, s, es[s]) { EntryStays(net, net', n, s, es[s]); }
  }

  lemma MsgStays(c: Config, S: System, T: System, i: nat, m: Msg)
    requires Acted(S, T, i) && |S.replicas| == c.n && MsgOk(c, S, m)
    ensures MsgOk(c, T, m)
  {
    match m
    case Accept(l, b, s, v) =>
      SafeStays(S, T, i, c.n, b, s, v);
      assert LeaderOf(T.net, b, l) by {
        var r :| Sent(S.net, r) && r.ballot == b && r.leader == l;
        var a :| Heartbeat(a, r) in S.net;
        assert Sent(T.net, r);
      }
    case Accepted(a, b, s, v) =>
    case Promise(a, b, start, es) => SnapStays(S.net, T.net, c.n, a, b, start, es);
    case Commit(_, b, prefix, slot) =>
      forall t: nat | 0 < t <= prefix || (t == slot && slot > 0) ensures Known(T.net, c.n, b, t) { KnownStays(S.net, T.net, c.n, b, b, t); }
    case CommittedEntry(_, b, s, v) => DecidedStays(S.net, T.net, c.n, b, b, s, v);
    case _ =>
  }

  // The log, as messages are added

  /** No vote of replica `i` is new. */
  ghost predicate SameVotes(net: set<Msg>, net': set<Msg>, i: nat) {
    net <= net' && forall d: nat, s: nat, v :: Voted(net', i, d, s, v) ==> Voted(net, i, d, s, v)
  }

  lemma LogStays(net: set<Msg>, net': set<Msg>, n: nat, i: nat, b: nat, b': nat, l: Log)
    requires SameVotes(net, net', i) && b <= b' && LogOk(net, n, i, b, l)
    ensures LogOk(net', n, i, b', l)
  {
    forall s: nat | s in l.entries ensures l.entries[s].ballot <= b' && s <= l.high && EntryOk(net', n, s, l.entries[s]) {
      EntryStays(net, net', n, s, l.entries[s]);
    }
    forall s: nat | s in l.committed ensures s in l.entries && DecidedBy(net', n, b', s, l.entries[s].value) {
      DecidedStays(net, net', n, b, b', s, l.entries[s].value);
    }
    forall t: nat | 0 < t <= l.noticePrefix || (t > 0 && t in l.noticeSlots) ensures Known(net', n, b', t) {
      KnownStays(net, net', n, b, b', t);
    }
  }

  lemma FollowStays(net: set<Msg>, net': set<Msg>, n: nat, i: nat, b: nat, d: Lead)
    requires net <= net' && FollowOk(net, n, i, b, d)
    requires forall k: nat, s: nat, w :: k < b && Voted(net', i, k, s, w) ==> Voted(net, i, k, s, w)
    ensures FollowOk(net', n, i, b, d)
  {
    if d.snapshot.Some? { SnapStays(net, net', n, i, b, d.snapshot.value.start, d.snapshot.value.entries); }
  }

  /** The log and the roster of a replica, and its part as a leader, are what they were. */
  predicate SamePaxos(x: Replica, y: Replica) {
    && y.id == x.id && y.log == x.log && y.lead == x.lead && y.lease.current == x.lease.current && y.lease.pending == x.lease.pending
    && y.lease.threshold == x.lease.threshold
  }

  /** What a replica's part as a leader rests on. */
  predicate SameLead(x: Replica, y: Replica) {
    && y.id == x.id && y.log.entries == x.log.entries && y.log.next == x.log.next
    && y.lead == x.lead.(snapshot := y.lead.snapshot)
    && y.lease.current == x.lease.current && y.lease.pending == x.lease.pending
  }

  lemma EvidenceStays(c: Config, S: System, T: System, i: nat, j: nat)
    requires Acted(S, T, i) && |S.replicas| == c.n && j < c.n && EvidenceOk(c, S, j)
    ensures var x := S.replicas[j];
      forall a: nat :: a in x.lead.snapshots ==>
        a < |T.replicas| && Ballot(T.replicas[a]) >= Ballot(x)
        && SnapOk(T.net, c.n, a, Ballot(x), x.lead.prepareStart, x.lead.snapshots[a])
  {
    var x := S.replicas[j];
    forall a: nat | a in x.lead.snapshots
      ensures a < |T.replicas| && Ballot(T.replicas[a]) >= Ballot(x)
      ensures SnapOk(T.net, c.n, a, Ballot(x), x.lead.prepareStart, x.lead.snapshots[a])
    {
      SnapStays(S.net, T.net, c.n, a, Ballot(x), x.lead.prepareStart, x.lead.snapshots[a]);
    }
  }

  lemma CleanStays(c: Config, S: System, T: System, i: nat, j: nat)
    requires Acted(S, T, i) && |S.replicas| == c.n && j < c.n && CleanOk(c, S, j) && IsLeader(S.replicas[j])
    ensures forall s: nat, d: nat, w :: s > S.replicas[j].log.next && d < Ballot(S.replicas[j]) ==> Blocked(T, c.n, d, s, w)
  {
    var x := S.replicas[j];
    forall s: nat, d: nat, w | s > x.log.next && d < Ballot(x) ensures Blocked(T, c.n, d, s, w) { BlockedStays(S, T, i, c.n, d, s, w); }
  }

  lemma ProposalsStay(S: System, T: System, j: nat)
    requires j < |S.replicas| == |T.replicas| && S.net <= T.net && SameLead(S.replicas[j], T.replicas[j]) && ProposalsOk(S, j)
    requires forall b: nat, s: nat, v :: Accept(j, b, s, v) in T.net ==> Accept(j, b, s, v) in S.net
    ensures ProposalsOk(T, j)
  {
  }

  lemma VotesStay(S: System, T: System, j: nat)
    requires j < |S.replicas| == |T.replicas| && S.net <= T.net && SameLead(S.replicas[j], T.replicas[j]) && VotesOk(S, j)
    ensures VotesOk(T, j)
  {
    assert forall s: nat :: VotesOf(T.replicas[j].lead, s) == VotesOf(S.replicas[j].lead, s);
  }

  lemma LeadStays(c: Config, S: System, T: System, i: nat, j: nat)
    requires Acted(S, T, i) && |S.replicas| == c.n && j < c.n && SameLead(S.replicas[j], T.replicas[j]) && LeadOk(c, S, j)
    requires forall b: nat, s: nat, v :: Accept(j, b, s, v) in T.net ==> Accept(j, b, s, v) in S.net
    ensures LeadOk(c, T, j)
  {
    ProposalsStay(S, T, j);
    VotesStay(S, T, j);
    assert EvidenceOk(c, T, j) by { EvidenceStays(c, S, T, i, j); }
    assert CleanOk(c, T, j) by { if IsLeader(S.replicas[j]) { CleanStays(c, S, T, i, j); } }
  }

  /** A replica whose own part has not changed, and that has sent no vote or proposal, stays right. */
  lemma UnmovedOk(c: Config, S: System, T: System, i: nat, j: nat)
    requires Acted(S, T, i) && |S.replicas| == c.n && j < c.n && SamePaxos(S.replicas[j], T.replicas[j]) && ReplicaOk(c, S, j)
    requires forall b: nat, s: nat, v :: Accept(j, b, s, v) in T.net ==> Accept(j, b, s, v) in S.net
    requires SameVotes(S.net, T.net, j)
    ensures ReplicaOk(c, T, j)
  {
    var x := S.replicas[j];
    LogStays(S.net, T.net, c.n, j, Ballot(x), Ballot(x), x.log);
    FollowStays(S.net, T.net, c.n, j, Ballot(x), x.lead);
    LeadStays(c, S, T, i, j);
  }

  lemma OthersOk(c: Config, S: System, T: System, i: nat, j: nat)
    requires Acted(S, T, i) && |S.replicas| == c.n && j < c.n && j != i && ReplicaOk(c, S, j)
    ensures ReplicaOk(c, T, j)
  {
    UnmovedOk(c, S, T, i, j);
  }

  ghost predicate OneAccept(net: set<Msg>) {
    forall l: nat, k: nat, b: nat, s: nat, v, w :: Accept(l, b, s, v) in net && Accept(k, b, s, w) in net ==> v == w
  }

  lemma MsgsKeep(c: Config, S: System, T: System, i: nat)
    requires MsgInv(c, S) && Acted(S, T, i) && OneAccept(T.net)
    requires forall m :: m in T.net && m !in S.net ==> MsgOk(c, T, m)
    ensures MsgInv(c, T)
  {
    forall m | m in T.net ensures MsgOk(c, T, m) { if m in S.net { MsgStays(c, S, T, i, m); } }
  }

  lemma Keep(c: Config, S: System, T: System, i: nat)
    requires PaxosInv(c, S) && Acted(S, T, i) && i < c.n && MsgInv(c, T) && ReplicaOk(c, T, i)
    ensures PaxosInv(c, T)
  {
    forall j: nat | j < c.n ensures ReplicaOk(c, T, j) {
      if j != i {
        assert ReplicaOk(c, S, j);
        OthersOk(c, S, T, i, j);
      }
    }
  }
}
