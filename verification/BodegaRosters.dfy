/** Every step keeps one roster per ballot, announced before anybody is in it. */
module BodegaRosters {
  import opened Bodega
  import opened BodegaSystem
  import opened BodegaLeases
  import opened BodegaLeaseSteps
  import opened Quorums

  /** What a step may do to the rosters of replica `i`, announcing at most the new roster `added`. */
  ghost predicate RosterStep(c: Config, S: System, i: nat, l: Lease, out: set<Msg>, added: Option<Roster>)
    requires c.n > 0 && i < |S.replicas|
  {
    var x := S.replicas[i].lease;
    && Promised(x) <= Promised(l)
    && (l.current.ballot > 0 ==> Sent(S.net + out, l.current))
    && (l.pending.Some? ==> Sent(S.net + out, l.pending.value) && l.pending.value.ballot > l.current.ballot)
    && (forall m :: m in out && m.Heartbeat? ==> Sent(S.net, m.roster) || added == Some(m.roster))
    && (added.Some? ==>
          var r := added.value;
          r.ballot > 0 && r.leader < c.n && Owner(c.n, r.ballot - 1) == i && Promised(x) < r.ballot <= Promised(l))
  }

  lemma PromisedRises(c: Config, S: System, i: nat, y: Replica, out: set<Msg>, T: System, j: nat)
    requires RosterInv(c, S) && i < c.n && j < c.n && Moved(S, i, y, out, T) && Promised(S.replicas[i].lease) <= Promised(y.lease)
    ensures Promised(S.replicas[j].lease) <= Promised(T.replicas[j].lease)
  {
  }

  lemma RosterMsgsKeep(c: Config, S: System, i: nat, y: Replica, out: set<Msg>, T: System, added: Option<Roster>)
    requires RosterInv(c, S) && i < c.n && Moved(S, i, y, out, T) && RosterStep(c, S, i, y.lease, out, added)
    ensures Wf(c, T) && RosterMsgs(c, T)
  {
    forall a: nat, r | Heartbeat(a, r) in T.net
      ensures r.ballot > 0 && r.leader < c.n && r.ballot <= Promised(T.replicas[Owner(c.n, r.ballot - 1)].lease)
    {
      assert Sent(S.net, r) || added == Some(r);
      if Sent(S.net, r) {
        var b: nat :| Heartbeat(b, r) in S.net;
        PromisedRises(c, S, i, y, out, T, Owner(c.n, r.ballot - 1));
      }
    }
    forall a: nat, b: nat, r, q | Heartbeat(a, r) in T.net && Heartbeat(b, q) in T.net && r.ballot == q.ballot ensures r == q {
      assert Sent(S.net, r) || added == Some(r);
      assert Sent(S.net, q) || added == Some(q);
      OldRosterBelow(c, S, i, r);
      OldRosterBelow(c, S, i, q);
    }
  }

  lemma OldRosterBelow(c: Config, S: System, i: nat, r: Roster)
    requires RosterInv(c, S) && i < c.n
    ensures Sent(S.net, r) ==> r.ballot > 0 && (Owner(c.n, r.ballot - 1) == i ==> r.ballot <= Promised(S.replicas[i].lease))
    ensures forall q :: Sent(S.net, r) && Sent(S.net, q) && r.ballot == q.ballot ==> r == q
  {
  }

  lemma RosterKeep(c: Config, S: System, i: nat, y: Replica, out: set<Msg>, T: System, added: Option<Roster>)
    requires RosterInv(c, S) && i < c.n && Moved(S, i, y, out, T) && RosterStep(c, S, i, y.lease, out, added)
    ensures RosterInv(c, T)
  {
    RosterMsgsKeep(c, S, i, y, out, T, added);
    forall j: nat | j < c.n ensures RosterOf(T, j) {
      if j != i { OthersSent(c, S, T, j); }
    }
  }

  lemma OthersSent(c: Config, S: System, T: System, j: nat)
    requires RosterInv(c, S) && j < c.n && |T.replicas| == c.n && T.replicas[j] == S.replicas[j] && S.net <= T.net
    ensures RosterOf(T, j)
  {
    assert RosterOf(S, j);
    SentStays(S.net, T.net, S.replicas[j].lease.current);
    if S.replicas[j].lease.pending.Some? { SentStays(S.net, T.net, S.replicas[j].lease.pending.value); }
  }

  lemma SentStays(net: set<Msg>, net': set<Msg>, r: Roster)
    requires net <= net'
    ensures Sent(net, r) ==> Sent(net', r)
  {
  }

  // Actions

  /** Pending and then current rosters are ones that were sent. */
  lemma InstallRosters(c: Config, S: System, i: nat, l: Lease, high: nat, now: nat, out: set<Msg>, added: Option<Roster>)
    requires c.n > 0 && i < |S.replicas| && RosterStep(c, S, i, l, out, added)
    ensures RosterStep(c, S, i, if MayInstall(l, now) then InstallLease(l, high) else l, out, added)
  {
  }

  lemma SameRosters(c: Config, S: System, i: nat, l: Lease, out: set<Msg>)
    requires RosterInv(c, S) && i < c.n && l.current == S.replicas[i].lease.current && l.pending == S.replicas[i].lease.pending
    requires forall m :: m in out && m.Heartbeat? ==> Sent(S.net, m.roster)
    ensures RosterStep(c, S, i, l, out, None)
  {
    assert RosterOf(S, i);
    SentStays(S.net, S.net + out, l.current);
    if l.pending.Some? { SentStays(S.net, S.net + out, l.pending.value); }
  }

  lemma ObserveRosters(c: Config, S: System, i: nat, r: Roster, out: set<Msg>, added: Option<Roster>)
    requires RosterInv(c, S) && i < c.n && Sent(S.net + out, r) && (forall m :: m in out && m.Heartbeat? ==> m.roster == r)
    requires if added.Some? then added.value == r && ValidRoster(r, c.n) && r.ballot > Promised(S.replicas[i].lease)
                                 && Owner(c.n, r.ballot - 1) == i
             else Sent(S.net, r)
    ensures RosterStep(c, S, i, Observe(S.replicas[i], c.n, r, S.now).0.lease, out, added)
  {
    var x := S.replicas[i];
    assert RosterOf(S, i);
    SentStays(S.net, S.net + out, x.lease.current);
    if x.lease.pending.Some? { SentStays(S.net, S.net + out, x.lease.pending.value); }
    if ValidRoster(r, c.n) && r.ballot > Promised(x.lease) {
      var l := x.lease.(pending := Some(r), incoming := map[], requests := map[]);
      InstallRosters(c, S, i, l, x.log.high, S.now, out, added);
    }
  }

  lemma NewRosterRosters(c: Config, S: System, i: nat, a: Action, y: Replica, out: set<Msg>)
    requires RosterInv(c, S) && i < c.n && a.NewRoster? && Acts(c, S, S.replicas[i], a, y, out)
    ensures exists added :: RosterStep(c, S, i, y.lease, out, added)
  {
    var x := S.replicas[i];
    var r := Roster(NextBallot(c.n, x), a.leader, a.mask + {a.leader}, a.ranges);
    NextRoundOwner(c.n, i, Promised(x.lease));
    ObserveSupersedes(c, S, i, r);
    assert Heartbeat(x.id, r) in S.net + out;
    ObserveRosters(c, S, i, r, out, Some(r));
  }

  lemma RevokedRosters(c: Config, S: System, i: nat, m: Msg)
    requires RosterInv(c, S) && i < c.n && m.LeaseRevoked?
    ensures RosterStep(c, S, i, OnLeaseRevoked(S.replicas[i], m, S.now).0.lease, OnLeaseRevoked(S.replicas[i], m, S.now).1, None)
  {
    var x := S.replicas[i];
    var l := x.lease.(outgoing := x.lease.outgoing - {m.sender});
    var (y, out) := OnLeaseRevoked(x, m, S.now);
    InstallShape(x.(lease := l), S.now);
    SameRosters(c, S, i, l, out);
    SameRosters(c, S, i, x.lease, out);
    InstallRosters(c, S, i, l, x.log.high, S.now, out, None);
  }

  lemma ReceiveRosters(c: Config, S: System, i: nat, m: Msg)
    requires RosterInv(c, S) && i < c.n && m in S.net
    requires m.Heartbeat? || m.LeaseRevoke? || m.LeaseRevoked? || m.LeaseRequest? || m.LeaseReply?
    ensures RosterStep(c, S, i, Deliver(S.replicas[i], c, m, S.now).0.lease, Deliver(S.replicas[i], c, m, S.now).1, None)
  {
    var x := S.replicas[i];
    var (y, out) := Deliver(x, c, m, S.now);
    if m.Heartbeat? {
      assert m == Heartbeat(m.sender, m.roster);
      SentStays(S.net, S.net + out, m.roster);
      ObserveSupersedes(c, S, i, m.roster);
      ObserveRosters(c, S, i, m.roster, out, None);
    } else if m.LeaseRevoked? {
      RevokedRosters(c, S, i, m);
    } else {
      SameRosters(c, S, i, y.lease, out);
    }
  }

  lemma ActionRosters(c: Config, S: System, i: nat, a: Action, y: Replica, out: set<Msg>)
    requires RosterInv(c, S) && i < c.n && Acts(c, S, S.replicas[i], a, y, out)
    ensures exists added :: RosterStep(c, S, i, y.lease, out, added)
  {
    var x := S.replicas[i];
    assert RosterOf(S, i);
    if a.NewRoster? {
      NewRosterRosters(c, S, i, a, y, out);
    } else {
      if Unleased(a) {
        UnleasedSame(c, S, x, a, y, out);
        SameRosters(c, S, i, y.lease, out);
      } else if a.Receive? {
        ReceiveRosters(c, S, i, a.m);
      } else if a.TryInstall? {
        InstallShape(x, S.now);
        SameRosters(c, S, i, x.lease, out);
        InstallRosters(c, S, i, x.lease, x.log.high, S.now, out, None);
      } else {
        SameRosters(c, S, i, y.lease, out);
      }
      assert RosterStep(c, S, i, y.lease, out, None);
    }
  }

  /** One roster per ballot, through every step. */
  lemma RosterInvStep(c: Config, S: System, T: System)
    requires RosterInv(c, S) && Next(c, S, T)
    ensures RosterInv(c, T)
  {
    if Tick(S, T) {
      forall j: nat | j < c.n ensures RosterOf(T, j) { assert RosterOf(S, j); }
    } else {
      var i: nat, a, out :| Step(c, S, T, i, a, out);
      ActionRosters(c, S, i, a, T.replicas[i], out);
      var added :| RosterStep(c, S, i, T.replicas[i].lease, out, added);
      StepKeepsId(c, S, i, a, T.replicas[i], out);
      RosterKeep(c, S, i, T.replicas[i], out, T, added);
    }
  }

  lemma StepKeepsId(c: Config, S: System, i: nat, a: Action, y: Replica, out: set<Msg>)
    requires RosterInv(c, S) && i < c.n && Acts(c, S, S.replicas[i], a, y, out)
    ensures y.id == S.replicas[i].id
  {
    var x := S.replicas[i];
    assert RosterOf(S, i);
    if Unleased(a) {
      UnleasedSame(c, S, x, a, y, out);
    } else if a.Receive? && a.m.Heartbeat? {
      ObserveSupersedes(c, S, i, a.m.roster);
    } else if a.Receive? && a.m.LeaseRevoked? {
      InstallShape(x.(lease := x.lease.(outgoing := x.lease.outgoing - {a.m.sender})), S.now);
    } else if a.NewRoster? {
      ObserveSupersedes(c, S, i, Roster(NextBallot(c.n, x), a.leader, a.mask + {a.leader}, a.ranges));
    } else if a.TryInstall? {
      InstallShape(x, S.now);
    }
  }
}
