/**
  Rosters and leases over whole runs: one roster per ballot, and lease exclusion. While a lease that
  a holder may rely on lasts, its grantor keeps the holder's roster.
*/
module BodegaLeases {
  import opened Bodega
  import opened BodegaSystem
  import opened Quorums

  predicate Wf(c: Config, S: System) {
    c.n > 0 && |S.replicas| == c.n && forall i :: 0 <= i < c.n ==> S.replicas[i].id == i
  }

  // Rosters

  ghost predicate Sent(net: set<Msg>, r: Roster) { exists a :: Heartbeat(a, r) in net }

  ghost predicate RosterMsgs(c: Config, S: System)
    requires Wf(c, S)
  {
    && (forall a: nat, r :: Heartbeat(a, r) in S.net ==>
          r.ballot > 0 && r.leader < c.n && r.ballot <= Promised(S.replicas[Owner(c.n, r.ballot - 1)].lease))
    && (forall a: nat, b: nat, r, q :: Heartbeat(a, r) in S.net && Heartbeat(b, q) in S.net && r.ballot == q.ballot ==> r == q)
  }

  ghost predicate RosterOf(S: System, i: nat)
    requires i < |S.replicas|
  {
    var x := S.replicas[i].lease;
    && (x.current.ballot > 0 ==> Sent(S.net, x.current))
    && (x.pending.Some? ==> Sent(S.net, x.pending.value) && x.pending.value.ballot > x.current.ballot)
  }

  ghost predicate RosterInv(c: Config, S: System) {
    Wf(c, S) && RosterMsgs(c, S) && forall i: nat :: i < c.n ==> RosterOf(S, i)
  }

  /** Two replicas in one ballot are in one roster. */
  lemma OneRoster(c: Config, S: System, i: nat, j: nat)
    requires RosterInv(c, S) && i < c.n && j < c.n
    requires S.replicas[i].lease.current.ballot == S.replicas[j].lease.current.ballot > 0
    ensures S.replicas[i].lease.current == S.replicas[j].lease.current
  {
    assert RosterOf(S, i) && RosterOf(S, j);
  }

  // Leases

  /** Until the lease ends, grantor `p` stays in ballot `b`, unless the holder `i` has given the lease up. */
  predicate LeaseOk(S: System, p: nat, i: nat, b: nat, until: nat)
    requires p < |S.replicas| && i < |S.replicas|
  {
    || S.now >= until
    || (S.replicas[p].lease.current.ballot == b && i in S.replicas[p].lease.outgoing && S.replicas[p].lease.outgoing[i] >= until)
    || RevokedBallot(S.replicas[i].lease, p) >= b
  }

  ghost predicate Asked(net: set<Msg>, i: nat, q: nat, until: nat) { exists b :: LeaseRequest(i, b, q, until) in net }

  ghost predicate LeaseMsgs(c: Config, S: System)
    requires Wf(c, S)
  {
    && (forall i: nat, b: nat, q: nat, u: nat :: LeaseRequest(i, b, q, u) in S.net ==>
          i < c.n && q <= S.replicas[i].lease.sequence && u <= S.now + c.lease
          && (q in S.replicas[i].lease.requests ==> S.replicas[i].lease.requests[q] == u))
    && (forall i: nat, b: nat, d: nat, q: nat, u: nat, w: nat ::
          LeaseRequest(i, b, q, u) in S.net && LeaseRequest(i, d, q, w) in S.net ==> u == w)
    && (forall p: nat, b: nat, i: nat, q: nat, t: nat, u: nat :: LeaseReply(p, b, i, q, t, u) in S.net ==>
          p < c.n && i < c.n && Asked(S.net, i, q, u) && LeaseOk(S, p, i, b, u) && b <= S.replicas[p].lease.current.ballot
          && (S.replicas[p].lease.current.ballot == b ==> S.replicas[p].lease.threshold == t))
    && (forall i: nat, p: nat, b: nat :: LeaseRevoked(i, p, b) in S.net ==> i < c.n && RevokedBallot(S.replicas[i].lease, p) >= b)
  }

  ghost predicate Granted(net: set<Msg>, p: nat, b: nat, i: nat, g: Grant) {
    exists q :: LeaseReply(p, b, i, q, g.threshold, g.until) in net
  }

  ghost predicate LeasesOf(c: Config, S: System, i: nat)
    requires i < |S.replicas|
  {
    var x := S.replicas[i].lease;
    && (forall p: nat :: p in x.incoming ==>
          Granted(S.net, p, x.current.ballot, i, x.incoming[p]) && RevokedBallot(x, p) < x.current.ballot)
    && (forall q: nat :: q in x.requests ==> q <= x.sequence)
    && (forall p: nat :: p in x.outgoing ==> x.outgoing[p] <= S.now + c.lease + c.margin)
  }

  ghost predicate LeaseInv(c: Config, S: System) {
    Wf(c, S) && LeaseMsgs(c, S) && forall i: nat :: i < c.n ==> LeasesOf(c, S, i)
  }

  /** A holder may rely on a grant: its grantor is in the holder's ballot, with the threshold it told. */
  lemma GrantHolds(c: Config, S: System, i: nat, p: nat)
    requires LeaseInv(c, S) && i < c.n && p in S.replicas[i].lease.incoming && S.now < S.replicas[i].lease.incoming[p].until
    ensures p < c.n && S.replicas[p].lease.current.ballot == S.replicas[i].lease.current.ballot
    ensures S.replicas[p].lease.threshold == S.replicas[i].lease.incoming[p].threshold
    ensures i in S.replicas[p].lease.outgoing && S.now < S.replicas[p].lease.outgoing[i]
  {
    var x := S.replicas[i].lease;
    assert LeasesOf(c, S, i);
    var q :| LeaseReply(p, x.current.ballot, i, q, x.incoming[p].threshold, x.incoming[p].until) in S.net;
  }

  /**
    Lease exclusion. While a replica is stable in a ballot, a majority of replicas is in exactly that
    ballot, each having told a threshold that the stable replica has executed.
  */
  lemma LeaseExclusion(c: Config, S: System, i: nat)
    requires LeaseInv(c, S) && i < c.n && Stable(S.replicas[i], c.n, S.now)
    ensures var m := Supporters(S.replicas[i], S.now);
      && m <= Below(c.n) && |m| >= Majority(c.n)
      && forall p :: p in m ==> Ballot(S.replicas[p]) == Ballot(S.replicas[i])
                                && S.replicas[p].lease.threshold <= S.replicas[i].log.prefix
  {
    var x := S.replicas[i];
    forall p | p in Supporters(x, S.now)
      ensures p < c.n && Ballot(S.replicas[p]) == Ballot(x) && S.replicas[p].lease.threshold <= x.log.prefix
    {
      if p != i { GrantHolds(c, S, i, p); }
    }
  }

  /** A replica installs a higher ballot only when no lease it granted is in force. */
  lemma InstallWaits(x: Replica, now: nat, p: nat)
    requires p in x.lease.outgoing && now < x.lease.outgoing[p]
    ensures Install(x, now).0.lease.current == x.lease.current
  {
  }

  // Steps

  predicate LeaseMsg(m: Msg) { m.LeaseRequest? || m.LeaseReply? || m.LeaseRevoked? }

  /** A lease granted may lapse with time or because its holder has given it up. */
  predicate Lapsed(S: System, i: nat, p: nat)
    requires i < |S.replicas| && p in S.replicas[i].lease.outgoing
  {
    S.replicas[i].lease.outgoing[p] <= S.now || (p < |S.replicas| && RevokedBallot(S.replicas[p].lease, i) >= S.replicas[i].lease.current.ballot)
  }

  /** What any step may do to the lease state of replica `i`. */
  ghost predicate LeaseStep(c: Config, S: System, i: nat, y: Lease, out: set<Msg>)
    requires Wf(c, S) && i < c.n
  {
    var x := S.replicas[i].lease;
    && x.current.ballot <= y.current.ballot && x.sequence <= y.sequence
    && (forall p: nat :: RevokedBallot(x, p) <= RevokedBallot(y, p))
    && (y.current.ballot == x.current.ballot ==> y.current == x.current && y.threshold == x.threshold)
    && (forall p: nat :: p in x.outgoing ==>
          Lapsed(S, i, p) || (y.current.ballot == x.current.ballot && p in y.outgoing && y.outgoing[p] >= x.outgoing[p]))
    && (forall p: nat :: p in y.outgoing ==> y.outgoing[p] <= S.now + c.lease + c.margin)
    && (forall q: nat :: q in y.requests ==> q <= y.sequence && ((q in x.requests && y.requests[q] == x.requests[q]) || q > x.sequence))
    && (forall p: nat :: p in y.incoming ==>
          && y.current == x.current && RevokedBallot(y, p) < y.current.ballot
          && ((p in x.incoming && y.incoming[p] == x.incoming[p]) || Granted(S.net, p, x.current.ballot, i, y.incoming[p])))
    && (forall m :: m in out && m.LeaseRequest? ==>
          m.sender == i && m.sequence == y.sequence > x.sequence && m.until <= S.now + c.lease
          && (m.sequence in y.requests ==> y.requests[m.sequence] == m.until))
    && (forall m, k :: m in out && k in out && m.LeaseRequest? && k.LeaseRequest? ==> m == k)
    && (forall m :: m in out && m.LeaseReply? ==>
          m.sender == i && m.ballot == x.current.ballot == y.current.ballot && m.threshold == x.threshold && m.to < c.n
          && Asked(S.net, m.to, m.sequence, m.until) && m.to in y.outgoing && y.outgoing[m.to] >= m.until)
    && (forall m :: m in out && m.LeaseRevoked? ==> m.sender == i && RevokedBallot(y, m.to) >= m.ballot)
  }

  /** The system after a step of replica `i` to `y`. */
  ghost predicate Moved(S: System, i: nat, y: Replica, out: set<Msg>, T: System) {
    i < |S.replicas| && y.id == S.replicas[i].id && T.replicas == S.replicas[i := y] && T.net == S.net + out && T.now == S.now
  }

  lemma LeaseOkStays(c: Config, S: System, T: System, i: nat, y: Replica, out: set<Msg>, p: nat, h: nat, b: nat, u: nat)
    requires Wf(c, S) && i < c.n && LeaseStep(c, S, i, y.lease, out) && Moved(S, i, y, out, T)
    requires p < c.n && h < c.n && LeaseOk(S, p, h, b, u)
    ensures LeaseOk(T, p, h, b, u)
  {
    if p == i && S.now < u && S.replicas[p].lease.current.ballot == b && h in S.replicas[p].lease.outgoing && S.replicas[p].lease.outgoing[h] >= u {
      assert Lapsed(S, i, h) || y.lease.outgoing[h] >= u;
    }
  }

  lemma RequestsKeep(c: Config, S: System, i: nat, y: Replica, out: set<Msg>, T: System)
    requires Wf(c, S) && LeaseMsgs(c, S) && i < c.n && LeaseStep(c, S, i, y.lease, out)
    requires Moved(S, i, y, out, T)
    ensures forall h: nat, b: nat, q: nat, u: nat :: LeaseRequest(h, b, q, u) in T.net ==>
              h < c.n && q <= T.replicas[h].lease.sequence && u <= T.now + c.lease
              && (q in T.replicas[h].lease.requests ==> T.replicas[h].lease.requests[q] == u)
    ensures forall h: nat, b: nat, d: nat, q: nat, u: nat, w: nat ::
              LeaseRequest(h, b, q, u) in T.net && LeaseRequest(h, d, q, w) in T.net ==> u == w
  {
  }

  lemma RepliesKeep(c: Config, S: System, i: nat, y: Replica, out: set<Msg>, T: System)
    requires Wf(c, S) && LeaseMsgs(c, S) && i < c.n && LeaseStep(c, S, i, y.lease, out)
    requires Moved(S, i, y, out, T)
    ensures forall p: nat, b: nat, h: nat, q: nat, t: nat, u: nat :: LeaseReply(p, b, h, q, t, u) in T.net ==>
              p < c.n && h < c.n && Asked(T.net, h, q, u) && LeaseOk(T, p, h, b, u) && b <= T.replicas[p].lease.current.ballot
              && (T.replicas[p].lease.current.ballot == b ==> T.replicas[p].lease.threshold == t)
  {
    forall p: nat, b: nat, h: nat, q: nat, t: nat, u: nat | LeaseReply(p, b, h, q, t, u) in T.net
      ensures p < c.n && h < c.n && Asked(T.net, h, q, u) && LeaseOk(T, p, h, b, u) && b <= T.replicas[p].lease.current.ballot
      ensures T.replicas[p].lease.current.ballot == b ==> T.replicas[p].lease.threshold == t
    {
      assert Asked(S.net, h, q, u);
      if LeaseReply(p, b, h, q, t, u) in S.net { LeaseOkStays(c, S, T, i, y, out, p, h, b, u); }
    }
  }

  lemma HoldersKeep(c: Config, S: System, i: nat, y: Replica, out: set<Msg>, T: System, j: nat)
    requires Wf(c, S) && i < c.n && j < c.n && LeasesOf(c, S, j) && LeasesOf(c, S, i) && LeaseStep(c, S, i, y.lease, out)
    requires Moved(S, i, y, out, T)
    ensures LeasesOf(c, T, j)
  {
    var x := T.replicas[j].lease;
    forall p: nat | p in x.incoming ensures Granted(T.net, p, x.current.ballot, j, x.incoming[p]) && RevokedBallot(x, p) < x.current.ballot {
      assert Granted(S.net, p, x.current.ballot, j, x.incoming[p]);
    }
  }

  lemma LeaseKeep(c: Config, S: System, i: nat, y: Replica, out: set<Msg>, T: System)
    requires LeaseInv(c, S) && i < c.n && LeaseStep(c, S, i, y.lease, out)
    requires Moved(S, i, y, out, T)
    ensures LeaseInv(c, T)
  {
    RequestsKeep(c, S, i, y, out, T);
    RepliesKeep(c, S, i, y, out, T);
    assert LeasesOf(c, S, i);
    forall j: nat | j < c.n ensures LeasesOf(c, T, j) {
      assert LeasesOf(c, S, j);
      HoldersKeep(c, S, i, y, out, T, j);
    }
  }

  lemma LeaseTick(c: Config, S: System, T: System)
    requires LeaseInv(c, S) && Tick(S, T)
    ensures LeaseInv(c, T)
  {
    forall j: nat | j < c.n ensures LeasesOf(c, T, j) { assert LeasesOf(c, S, j); }
    assert LeaseMsgs(c, S);
  }
}
