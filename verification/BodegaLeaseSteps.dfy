/** Every step keeps the roster and lease invariants. */
module BodegaLeaseSteps {
  import opened Bodega
  import opened BodegaSystem
  import opened BodegaLeases
  import opened Quorums

  // Installing

  predicate NoLeaseMsgs(out: set<Msg>) { forall m :: m in out ==> !LeaseMsg(m) && !m.Heartbeat? }

  lemma InstallShape(x: Replica, now: nat)
    ensures var (y, out) := Install(x, now);
      && y.id == x.id && NoLeaseMsgs(out)
      && y.lease == if MayInstall(x.lease, now) then InstallLease(x.lease, x.log.high) else x.lease
  {
  }

  /** What observing, revoking and installing do to a replica's rosters and leases. */
  ghost predicate Supersedes(S: System, i: nat, y: Lease)
    requires i < |S.replicas|
  {
    var x := S.replicas[i].lease;
    && y.sequence == x.sequence && y.revoked == x.revoked
    && (forall q :: q in y.requests ==> q in x.requests && y.requests[q] == x.requests[q])
    && (forall p :: p in y.incoming ==> y.current == x.current && p in x.incoming && y.incoming[p] == x.incoming[p])
    && (forall p :: p in y.outgoing ==> p in x.outgoing && y.outgoing[p] == x.outgoing[p])
    && (|| (y.current == x.current && y.threshold == x.threshold
            && forall p :: p in x.outgoing ==> Lapsed(S, i, p) || (p in y.outgoing && y.outgoing[p] == x.outgoing[p]))
        || (y.current.ballot > x.current.ballot && forall p :: p in x.outgoing ==> Lapsed(S, i, p)))
  }

  lemma SupersedesIsStep(c: Config, S: System, i: nat, y: Lease, out: set<Msg>)
    requires LeaseInv(c, S) && i < c.n && Supersedes(S, i, y) && forall m :: m in out ==> !LeaseMsg(m)
    ensures LeaseStep(c, S, i, y, out)
  {
    assert LeasesOf(c, S, i);
  }

  /** Installing after the changes in `z` are made, where `z` gives up no lease that has not lapsed. */
  lemma InstallSupersedes(S: System, i: nat, z: Lease, high: nat)
    requires i < |S.replicas| && Supersedes(S, i, z) && z.current == S.replicas[i].lease.current
    requires MayInstall(z, S.now) && z.pending.value.ballot > z.current.ballot
    ensures Supersedes(S, i, InstallLease(z, high))
  {
  }

  lemma ObserveSupersedes(c: Config, S: System, i: nat, r: Roster)
    requires c.n > 0 && i < |S.replicas|
    ensures var (y, out) := Observe(S.replicas[i], c.n, r, S.now);
      Supersedes(S, i, y.lease) && NoLeaseMsgs(out) && y.id == S.replicas[i].id
  {
    var x := S.replicas[i];
    if ValidRoster(r, c.n) && r.ballot > Promised(x.lease) {
      var l := x.lease.(pending := Some(r), incoming := map[], requests := map[]);
      InstallShape(x.(lease := l, lead := x.lead.(prepared := false)), S.now);
      if MayInstall(l, S.now) { InstallSupersedes(S, i, l, x.log.high); }
    }
  }

  lemma TryInstallSupersedes(S: System, i: nat)
    requires i < |S.replicas| && RosterOf(S, i)
    ensures var (y, out) := Install(S.replicas[i], S.now);
      Supersedes(S, i, y.lease) && NoLeaseMsgs(out) && y.id == S.replicas[i].id
  {
    var x := S.replicas[i];
    InstallShape(x, S.now);
    if MayInstall(x.lease, S.now) { InstallSupersedes(S, i, x.lease, x.log.high); }
  }

  lemma RevokedSupersedes(c: Config, S: System, i: nat, m: Msg)
    requires LeaseInv(c, S) && i < c.n && RosterOf(S, i) && m in S.net && m.LeaseRevoked?
    ensures var (y, out) := OnLeaseRevoked(S.replicas[i], m, S.now);
      Supersedes(S, i, y.lease) && NoLeaseMsgs(out) && y.id == S.replicas[i].id
  {
    var x := S.replicas[i];
    assert m == LeaseRevoked(m.sender, m.to, m.ballot);
    var l := x.lease.(outgoing := x.lease.outgoing - {m.sender});
    InstallShape(x.(lease := l), S.now);
    if m.to == i && m.ballot == Ballot(x) {
      assert m.sender in x.lease.outgoing ==> Lapsed(S, i, m.sender);
      if MayInstall(l, S.now) { InstallSupersedes(S, i, l, x.log.high); }
    }
  }

  // Lease messages

  lemma RequestStep(c: Config, S: System, i: nat, m: Msg)
    requires LeaseInv(c, S) && i < c.n && m in S.net && m.LeaseRequest? && InRoster(S.replicas[i], m)
    ensures LeaseStep(c, S, i, OnLeaseRequest(S.replicas[i], c, m, S.now).0.lease, OnLeaseRequest(S.replicas[i], c, m, S.now).1)
  {
    assert LeasesOf(c, S, i);
    assert m == LeaseRequest(m.sender, m.ballot, m.sequence, m.until);
    assert Asked(S.net, m.sender, m.sequence, m.until);
  }

  lemma ReplyStep(c: Config, S: System, i: nat, m: Msg)
    requires LeaseInv(c, S) && i < c.n && m in S.net && m.LeaseReply? && InRoster(S.replicas[i], m)
    ensures LeaseStep(c, S, i, OnLeaseReply(S.replicas[i], m, S.now).lease, {})
  {
    var x := S.replicas[i];
    assert LeasesOf(c, S, i);
    assert m == LeaseReply(m.sender, m.ballot, m.to, m.sequence, m.threshold, m.until);
    if Relies(x, m, S.now) {
      var b :| LeaseRequest(i, b, m.sequence, m.until) in S.net;
      assert x.lease.requests[m.sequence] == m.until;
      assert Granted(S.net, m.sender, Ballot(x), i, Grant(m.until, m.threshold));
    }
  }

  lemma RevokeStep(c: Config, S: System, i: nat, m: Msg)
    requires LeaseInv(c, S) && i < c.n && m.LeaseRevoke?
    ensures LeaseStep(c, S, i, OnLeaseRevoke(S.replicas[i], m).0.lease, OnLeaseRevoke(S.replicas[i], m).1)
  {
    assert LeasesOf(c, S, i);
  }

  lemma RenewStep(c: Config, S: System, i: nat)
    requires LeaseInv(c, S) && i < c.n
    ensures LeaseStep(c, S, i, Renew(S.replicas[i], c, S.now).0.lease, Renew(S.replicas[i], c, S.now).1)
  {
    assert LeasesOf(c, S, i);
  }

  lemma QuietStep(c: Config, S: System, i: nat, out: set<Msg>)
    requires LeaseInv(c, S) && i < c.n && forall m :: m in out ==> !LeaseMsg(m)
    ensures LeaseStep(c, S, i, S.replicas[i].lease, out)
  {
    assert LeasesOf(c, S, i);
  }

  /** Steps that concern the log or reads only. */
  predicate Unleased(a: Action) {
    || a.Recovers? || a.PrepareAgain? || a.Write? || a.Notify? || a.RepairSlot? || a.SubmitRead? || a.ServeRead?
    || (a.Receive? && Bound(a.m) && !a.m.LeaseRequest? && !a.m.LeaseReply?)
  }

  lemma UnleasedSame(c: Config, S: System, x: Replica, a: Action, y: Replica, out: set<Msg>)
    requires c.n > 0 && Acts(c, S, x, a, y, out) && Unleased(a)
    ensures y.lease == x.lease && y.id == x.id && NoLeaseMsgs(out)
  {
  }

  lemma ReceiveStep(c: Config, S: System, i: nat, m: Msg)
    requires RosterInv(c, S) && LeaseInv(c, S) && i < c.n && m in S.net
    requires m.Heartbeat? || m.LeaseRevoke? || m.LeaseRevoked? || m.LeaseRequest? || m.LeaseReply?
    ensures var (y, out) := Deliver(S.replicas[i], c, m, S.now); LeaseStep(c, S, i, y.lease, out) && y.id == S.replicas[i].id
  {
    assert RosterOf(S, i);
    if m.Heartbeat? {
      ObserveSupersedes(c, S, i, m.roster);
      SupersedesIsStep(c, S, i, Deliver(S.replicas[i], c, m, S.now).0.lease, Deliver(S.replicas[i], c, m, S.now).1);
    } else if m.LeaseRevoke? {
      RevokeStep(c, S, i, m);
    } else if m.LeaseRevoked? {
      RevokedSupersedes(c, S, i, m);
      SupersedesIsStep(c, S, i, Deliver(S.replicas[i], c, m, S.now).0.lease, Deliver(S.replicas[i], c, m, S.now).1);
    } else if !InRoster(S.replicas[i], m) {
      QuietStep(c, S, i, {});
    } else if m.LeaseRequest? {
      RequestStep(c, S, i, m);
    } else {
      ReplyStep(c, S, i, m);
    }
  }

  lemma ActionStep(c: Config, S: System, i: nat, a: Action, y: Replica, out: set<Msg>)
    requires RosterInv(c, S) && LeaseInv(c, S) && i < c.n && Acts(c, S, S.replicas[i], a, y, out)
    ensures LeaseStep(c, S, i, y.lease, out) && y.id == S.replicas[i].id
  {
    assert RosterOf(S, i);
    if Unleased(a) {
      UnleasedSame(c, S, S.replicas[i], a, y, out);
      QuietStep(c, S, i, out);
    } else if a.Receive? {
      ReceiveStep(c, S, i, a.m);
    } else if a.NewRoster? {
      ObserveSupersedes(c, S, i, Roster(NextBallot(c.n, S.replicas[i]), a.leader, a.mask + {a.leader}, a.ranges));
      SupersedesIsStep(c, S, i, y.lease, out);
    } else if a.TryInstall? {
      TryInstallSupersedes(S, i);
      SupersedesIsStep(c, S, i, y.lease, out);
    } else if a.Renewal? {
      RenewStep(c, S, i);
    } else {
      QuietStep(c, S, i, out);
    }
  }

  /** Leases stay exclusive through every step. */
  lemma LeaseInvStep(c: Config, S: System, T: System)
    requires RosterInv(c, S) && LeaseInv(c, S) && Next(c, S, T)
    ensures LeaseInv(c, T)
  {
    if Tick(S, T) {
      LeaseTick(c, S, T);
    } else {
      var i: nat, a, out :| Step(c, S, T, i, a, out);
      ActionStep(c, S, i, a, T.replicas[i], out);
      LeaseKeep(c, S, i, T.replicas[i], out, T);
    }
  }
}
