/** Whole runs of a Bodega cluster: lease exclusion, one value per slot, and fresh local reads. */
module BodegaRuns {
  import opened Bodega
  import opened BodegaSystem
  import opened BodegaLeases
  import opened BodegaLeaseSteps
  import opened BodegaRosters
  import opened BodegaSafety
  import opened BodegaFrame
  import opened BodegaLogs
  import opened BodegaSteps
  import opened BodegaLeading
  import opened BodegaReads
  import opened Quorums

  // The prefix only rises, and reads wait unchanged

  lemma {:induction false} NoticedPrefix(l: Log, b: nat, s: nat)
    ensures ApplyNoticedFrom(l, b, s).prefix == l.prefix
    decreases l.noticePrefix + 1 - s
  {
    if s <= l.noticePrefix && s in l.entries && l.entries[s].ballot == b { NoticedPrefix(ApplyNoticed(l, b, s), b, s + 1); }
  }

  lemma NoticePrefix(l: Log, b: nat, prefix: nat, slot: nat)
    ensures l.prefix <= LearnNotice(l, b, prefix, slot).prefix
  {
    var y := Hear(l, b, prefix, slot);
    assert y.prefix == l.prefix;
    NoticedPrefix(y, b, y.prefix + 1);
    ApplyShape(ApplyNoticedFrom(y, b, y.prefix + 1));
  }

  lemma AcceptPrefix(l: Log, b: nat, s: nat, v: Value)
    ensures l.prefix <= AcceptAndNotice(l, b, s, v).prefix && l.prefix <= LearnCommitted(l, b, s, v).prefix
  {
    NoticePrefix(ApplyNoticed(AcceptEntry(l, s, Entry(b, v)), b, s), b, 0, 0);
    ApplyShape(MarkCommitted(AcceptEntry(l, s, Entry(b, v)), s));
  }

  predicate ReadsWait(x: Replica, y: Replica) {
    x.log.prefix <= y.log.prefix && (y.held == x.held || y.held == map[])
  }

  lemma InstallWaiting(x: Replica, z: Replica, now: nat)
    requires z.log == x.log && z.held == x.held
    ensures ReadsWait(x, Install(z, now).0)
  {
  }

  lemma BoundWaiting(c: Config, x: Replica, m: Msg, now: nat)
    requires Bound(m)
    ensures ReadsWait(x, DeliverBound(x, c, m, now).0)
  {
    if m.Accepted? {
      ApplyShape(MarkCommitted(x.log, m.slot));
    } else if m.Accept? || m.CommittedEntry? {
      AcceptPrefix(x.log, m.ballot, m.slot, m.value);
    } else if m.Commit? {
      NoticePrefix(x.log, m.ballot, m.prefix, m.slot);
    }
  }

  lemma DeliverWaiting(c: Config, x: Replica, m: Msg, now: nat)
    ensures ReadsWait(x, Deliver(x, c, m, now).0)
  {
    if m.Heartbeat? {
      InstallWaiting(x, x.(lease := x.lease.(pending := Some(m.roster), incoming := map[], requests := map[]),
                           lead := x.lead.(prepared := false)), now);
    } else if m.LeaseRevoked? {
      InstallWaiting(x, x.(lease := x.lease.(outgoing := x.lease.outgoing - {m.sender})), now);
    } else if Bound(m) {
      BoundWaiting(c, x, m, now);
    }
  }

  lemma ActionWaiting(c: Config, S: System, x: Replica, a: Action, y: Replica, out: set<Msg>)
    requires c.n > 0 && Acts(c, S, x, a, y, out) && !a.SubmitRead? && !a.ServeRead?
    ensures ReadsWait(x, y)
  {
    if a.Receive? {
      DeliverWaiting(c, x, a.m, S.now);
    } else if a.NewRoster? {
      var r := Roster(NextBallot(c.n, x), a.leader, a.mask + {a.leader}, a.ranges);
      InstallWaiting(x, x.(lease := x.lease.(pending := Some(r), incoming := map[], requests := map[]),
                           lead := x.lead.(prepared := false)), S.now);
    } else if a.TryInstall? {
      InstallWaiting(x, x, S.now);
    } else if a.Recovers? {
      var z := StoreSnapshot(x, a.m);
      if z.lead.prepareStart > 0 {
        ReacceptShape(z.log.(next := a.top), Ballot(z), a.sel, z.lead.prepareStart, a.top);
      } else {
        ReacceptPrefix(z.log.(next := a.top), Ballot(z), a.sel, 0, a.top);
      }
    }
  }

  lemma {:induction false} ReacceptPrefix(l: Log, b: nat, sel: map<nat, Value>, s: nat, top: nat)
    requires forall t :: s <= t <= top ==> t in sel
    ensures Reaccept(l, b, sel, s, top).prefix == l.prefix
    decreases top + 1 - s
  {
    if s <= top { ReacceptPrefix(AcceptEntry(l, s, Entry(b, sel[s])), b, sel, s + 1, top); }
  }

  lemma ReadsKeep(c: Config, S: System, i: nat, a: Action, y: Replica, out: set<Msg>, T: System)
    requires Inv(c, S) && i < c.n && Acts(c, S, S.replicas[i], a, y, out) && T.replicas == S.replicas[i := y]
    ensures ReadsOf(T, i)
  {
    var x := S.replicas[i];
    assert ReadsOf(S, i);
    if a.SubmitRead? {
      forall w | w in S.commits && Writes(w.value, a.key) ensures w.slot <= ReadSlot(x, a.key) || w.slot <= x.log.prefix {
        FreshRead(c, S, i, a.key, w);
      }
    } else if !a.ServeRead? {
      ActionWaiting(c, S, x, a, y, out);
    }
  }

  lemma NewServed(c: Config, S: System, i: nat, a: Action, y: Replica, out: set<Msg>, T: System, v: Served)
    requires Inv(c, S) && i < c.n && Acts(c, S, S.replicas[i], a, y, out) && S.net <= T.net && v in ServedBy(S.replicas[i], a)
    ensures ServedOk(c, T, v)
  {
    var x := S.replicas[i];
    assert ReadsOf(S, i);
    if v.answer.Some? {
      OwnParts(c, S, i);
      DecidedStays(S.net, T.net, c.n, Ballot(x), Ballot(x), v.slot, v.answer.value);
    }
  }

  lemma OldServed(c: Config, S: System, T: System, v: Served)
    requires ServedOk(c, S, v) && S.net <= T.net
    ensures ServedOk(c, T, v)
  {
    if v.answer.Some? {
      var b: nat :| DecidedBy(S.net, c.n, b, v.slot, v.answer.value);
      DecidedStays(S.net, T.net, c.n, b, b, v.slot, v.answer.value);
    }
  }

  lemma ServedKeep(c: Config, S: System, i: nat, a: Action, y: Replica, out: set<Msg>, T: System)
    requires Inv(c, S) && i < c.n && Acts(c, S, S.replicas[i], a, y, out) && S.net <= T.net
    requires T.served == S.served + ServedBy(S.replicas[i], a)
    ensures forall v :: v in T.served ==> ServedOk(c, T, v)
  {
    forall v | v in T.served ensures ServedOk(c, T, v) {
      if v in S.served { OldServed(c, S, T, v); } else { NewServed(c, S, i, a, y, out, T, v); }
    }
  }

  // Commits stay known to their leader

  /** What a leader has committed stays in its log while it stays in its ballot. */
  predicate Retains(x: Replica, y: Replica) {
    x.log.committed <= y.log.committed
    && forall s :: s in x.log.committed && s in x.log.entries ==> s in y.log.entries && y.log.entries[s] == x.log.entries[s]
  }

  lemma DeliverRetains(c: Config, S: System, i: nat, m: Msg)
    requires PaxosInv(c, S) && Wf(c, S) && i < c.n && Leader(S.replicas[i]) == i
    requires var y := Deliver(S.replicas[i], c, m, S.now).0; Ballot(y) == Ballot(S.replicas[i])
    ensures Retains(S.replicas[i], Deliver(S.replicas[i], c, m, S.now).0)
  {
    var x := S.replicas[i];
    if Bound(m) && InRoster(x, m) && m.Accepted? {
      ApplyShape(MarkCommitted(x.log, m.slot));
    }
  }

  lemma ActionRetains(c: Config, S: System, i: nat, a: Action, y: Replica, out: set<Msg>)
    requires PaxosInv(c, S) && Wf(c, S) && i < c.n && Leader(S.replicas[i]) == i && Acts(c, S, S.replicas[i], a, y, out)
    requires Ballot(y) == Ballot(S.replicas[i]) && (Active(S.replicas[i]) ==> S.replicas[i].lead.prepared)
    ensures Retains(S.replicas[i], y)
  {
    var x := S.replicas[i];
    if a.Receive? {
      DeliverRetains(c, S, i, a.m);
    } else if a.Write? {
      OwnParts(c, S, i);
    }
  }

  /** The leader whose write was chosen in its ballot has proposed it. */
  lemma CommitterProposed(c: Config, S: System, T: System, i: nat, w: Committed)
    requires MsgInv(c, S) && RosterInv(c, T) && S.net <= T.net && |T.replicas| == c.n && i < c.n && |S.replicas| == c.n
    requires ChosenAt(S.net, c.n, w.ballot, w.slot, w.value) && w.ballot > 0
    requires Ballot(T.replicas[i]) == w.ballot && Leader(T.replicas[i]) == i
    ensures Accept(i, w.ballot, w.slot, w.value) in S.net && Ballot(S.replicas[i]) >= w.ballot
  {
    ChosenIsOffered(c, S, w.ballot, w.slot, w.value);
    var l :| Accept(l, w.ballot, w.slot, w.value) in S.net;
    assert MsgOk(c, S, Accept(l, w.ballot, w.slot, w.value));
    var r :| Sent(S.net, r) && r.ballot == w.ballot && r.leader == l;
    SentStays(S.net, T.net, r);
    assert RosterOf(T, i);
    OneRosterSent(c, T, r, T.replicas[i].lease.current);
  }

  /** The committing leader keeps its write through a step of its own. */
  lemma CommitterRetains(c: Config, S: System, i: nat, a: Action, y: Replica, out: set<Msg>, T: System, w: Committed)
    requires Inv(c, S) && RosterInv(c, T) && i < c.n && Acts(c, S, S.replicas[i], a, y, out) && Moved(S, i, y, out, T)
    requires CommitOk(c, S, w) && LeaseStep(c, S, i, y.lease, out) && Ballot(y) == w.ballot && Leader(y) == i
    ensures w.slot in y.log.committed && w.slot in y.log.entries && y.log.entries[w.slot].value == w.value
  {
    var x := S.replicas[i];
    CommitterProposed(c, S, T, i, w);
    assert Ballot(x) == Ballot(y) && x.lease.current == y.lease.current;
    assert LeaderKnows(c, S, w);
    OwnParts(c, S, i);
    ActionRetains(c, S, i, a, y, out);
  }

  lemma KnowsStays(c: Config, S: System, i: nat, a: Action, y: Replica, out: set<Msg>, T: System, w: Committed)
    requires Inv(c, S) && RosterInv(c, T) && i < c.n && Acts(c, S, S.replicas[i], a, y, out) && Moved(S, i, y, out, T)
    requires CommitOk(c, S, w) && LeaseStep(c, S, i, y.lease, out)
    ensures LeaderKnows(c, T, w)
  {
    if Ballot(y) == w.ballot && Leader(y) == i { CommitterRetains(c, S, i, a, y, out, T, w); }
    OthersKnow(c, S, i, y, out, T, w);
  }

  lemma OthersKnow(c: Config, S: System, i: nat, y: Replica, out: set<Msg>, T: System, w: Committed)
    requires |S.replicas| == c.n && i < c.n && Moved(S, i, y, out, T) && LeaderKnows(c, S, w)
    requires Ballot(y) == w.ballot && Leader(y) == i ==>
               w.slot in y.log.committed && w.slot in y.log.entries && y.log.entries[w.slot].value == w.value
    ensures LeaderKnows(c, T, w)
  {
  }

  lemma CoveredStays(net: set<Msg>, net': set<Msg>, n: nat, w: Committed)
    requires net <= net' && exists r :: Covered(net, n, w, r)
    ensures exists r :: Covered(net', n, w, r)
  {
    var r :| Covered(net, n, w, r);
    SentStays(net, net', r);
    assert VotersFor(net, n, w.ballot, w.slot, w.value) <= VotersFor(net', n, w.ballot, w.slot, w.value);
    assert Covered(net', n, w, r);
  }

  lemma CommitStays(c: Config, S: System, i: nat, a: Action, y: Replica, out: set<Msg>, T: System, w: Committed)
    requires Inv(c, S) && RosterInv(c, T) && i < c.n && Acts(c, S, S.replicas[i], a, y, out) && Moved(S, i, y, out, T)
    requires CommitOk(c, S, w) && LeaseStep(c, S, i, y.lease, out)
    ensures CommitOk(c, T, w)
  {
    SubsetSize(VotersFor(S.net, c.n, w.ballot, w.slot, w.value), VotersFor(T.net, c.n, w.ballot, w.slot, w.value));
    CoveredStays(S.net, T.net, c.n, w);
    KnowsStays(c, S, i, a, y, out, T, w);
  }

  /** A write that a leader commits has been accepted by a majority and by all responders of its keys. */
  lemma NewCommit(c: Config, S: System, i: nat, m: Msg, T: System, w: Committed)
    requires Inv(c, S) && i < c.n && m in S.net && m.Accepted? && w in Commits(S.replicas[i], c.n, m)
    requires RosterInv(c, T) && Moved(S, i, Deliver(S.replicas[i], c, m, S.now).0, Deliver(S.replicas[i], c, m, S.now).1, T)
    ensures CommitOk(c, T, w)
  {
    var x := S.replicas[i];
    var votes := VotesOf(CountVote(x, m).lead, m.slot);
    CountedVotes(c, S, i, m);
    assert RosterOf(S, i);
    VotesAreVoters(c, S, T.net, votes, w);
    SubsetSize(votes, VotersFor(T.net, c.n, w.ballot, w.slot, w.value));
    SentStays(S.net, T.net, x.lease.current);
    assert Covered(T.net, c.n, w, x.lease.current);
    assert w.slot > 0 by { VoteIsSafe(c, S, m.sender, m.ballot, m.slot, w.value); }
    ApplyShape(MarkCommitted(x.log, m.slot));
    NewKnown(c, S, T, i, w);
  }

  lemma VotesAreVoters(c: Config, S: System, net: set<Msg>, votes: set<nat>, w: Committed)
    requires MsgInv(c, S) && S.net <= net && forall a :: a in votes ==> Voted(S.net, a, w.ballot, w.slot, w.value)
    ensures votes <= VotersFor(net, c.n, w.ballot, w.slot, w.value)
  {
    forall a | a in votes ensures a in VotersFor(net, c.n, w.ballot, w.slot, w.value) {
      assert MsgOk(c, S, Accepted(a, w.ballot, w.slot, w.value));
    }
  }

  lemma NewKnown(c: Config, S: System, T: System, i: nat, w: Committed)
    requires RosterInv(c, T) && i < c.n && |T.replicas| == c.n && Ballot(T.replicas[i]) == w.ballot > 0 && Leader(T.replicas[i]) == i
    requires w.slot in T.replicas[i].log.committed && w.slot in T.replicas[i].log.entries
    requires T.replicas[i].log.entries[w.slot].value == w.value
    ensures LeaderKnows(c, T, w)
  {
    forall l: nat | l < c.n && Ballot(T.replicas[l]) == w.ballot && Leader(T.replicas[l]) == l ensures l == i {
      OneRoster(c, T, l, i);
    }
  }

  // Runs

  lemma CommitsKeep(c: Config, S: System, i: nat, a: Action, y: Replica, out: set<Msg>, T: System)
    requires Inv(c, S) && RosterInv(c, T) && i < c.n && Acts(c, S, S.replicas[i], a, y, out) && Moved(S, i, y, out, T)
    requires T.commits == S.commits + CommitsOf(S.replicas[i], c.n, a)
    ensures forall w :: w in T.commits ==> CommitOk(c, T, w)
  {
    ActionStep(c, S, i, a, y, out);
    forall w | w in T.commits ensures CommitOk(c, T, w) {
      if w in S.commits {
        CommitStays(c, S, i, a, y, out, T, w);
      } else {
        NewCommit(c, S, i, a.m, T, w);
      }
    }
  }

  lemma ReadStep(c: Config, S: System, T: System, i: nat, a: Action, out: set<Msg>)
    requires Inv(c, S) && RosterInv(c, T) && Step(c, S, T, i, a, out)
    ensures ReadInv(c, T)
  {
    var y := T.replicas[i];
    StepKeepsId(c, S, i, a, y, out);
    CommitsKeep(c, S, i, a, y, out, T);
    ReadsKeep(c, S, i, a, y, out, T);
    forall j: nat | j < c.n ensures ReadsOf(T, j) { if j != i { assert ReadsOf(S, j); } }
    ServedKeep(c, S, i, a, y, out, T);
  }

  lemma TickKeep(c: Config, S: System, T: System)
    requires Inv(c, S) && Tick(S, T)
    ensures Inv(c, T)
  {
    RosterInvStep(c, S, T);
    LeaseInvStep(c, S, T);
    assert PaxosInv(c, T) by {
      forall m | m in T.net ensures MsgOk(c, T, m) { ClockMsg(c, S, T, m); }
      forall i: nat | i < c.n ensures ReplicaOk(c, T, i) { ClockReplica(c, S, T, i); }
    }
    forall w | w in T.commits ensures CommitOk(c, T, w) { assert CommitOk(c, S, w) && LeaderKnows(c, S, w); }
    forall i: nat | i < c.n ensures ReadsOf(T, i) { assert ReadsOf(S, i); }
    forall v | v in T.served ensures ServedOk(c, T, v) { OldServed(c, S, T, v); }
  }

  lemma ClockActed(S: System, T: System)
    requires Tick(S, T) && |S.replicas| > 0
    ensures Acted(S, T, 0)
  {
  }

  lemma ClockMsg(c: Config, S: System, T: System, m: Msg)
    requires MsgInv(c, S) && Tick(S, T) && m in S.net
    ensures MsgOk(c, T, m)
  {
    ClockActed(S, T);
    MsgStays(c, S, T, 0, m);
  }

  lemma ClockReplica(c: Config, S: System, T: System, i: nat)
    requires PaxosInv(c, S) && Tick(S, T) && i < c.n
    ensures ReplicaOk(c, T, i)
  {
    ClockActed(S, T);
    assert ReplicaOk(c, S, i);
    UnmovedOk(c, S, T, 0, i);
  }

  lemma InvStep(c: Config, S: System, T: System)
    requires Inv(c, S) && Next(c, S, T)
    ensures Inv(c, T)
  {
    if Tick(S, T) {
      TickKeep(c, S, T);
    } else {
      var i: nat, a, out :| Step(c, S, T, i, a, out);
      RosterInvStep(c, S, T);
      LeaseInvStep(c, S, T);
      StepKeepsId(c, S, i, a, T.replicas[i], out);
      ActionKept(c, S, i, a, T.replicas[i], out, T);
      ReadStep(c, S, T, i, a, out);
    }
  }

  lemma InitReplica(c: Config, S: System, i: nat)
    requires c.n > 0 && InitSystem(c, S) && i < c.n
    ensures RosterOf(S, i) && LeasesOf(c, S, i) && ReplicaOk(c, S, i) && ReadsOf(S, i)
  {
    assert S.replicas[i] == Init(i);
    assert forall s: nat :: VotesOf(Init(i).lead, s) == {};
  }

  lemma InitInv(c: Config, S: System)
    requires c.n > 0 && InitSystem(c, S)
    ensures Inv(c, S)
  {
    forall i: nat | i < c.n ensures RosterOf(S, i) && LeasesOf(c, S, i) && ReplicaOk(c, S, i) && ReadsOf(S, i) && S.replicas[i].id == i {
      InitReplica(c, S, i);
      assert S.replicas[i] == Init(i);
    }
  }

  /** The invariant holds at every position of every run. */
  lemma {:induction false} RunInv(c: Config, run: seq<System>, k: nat)
    requires IsRun(c, run) && k < |run|
    ensures Inv(c, run[k])
  {
    if k == 0 {
      InitInv(c, run[0]);
    } else {
      RunInv(c, run, k - 1);
      InvStep(c, run[k - 1], run[k]);
    }
  }

  // Theorems

  /** While a replica is stable, a majority is in exactly its ballot and no write of a higher one is chosen. */
  lemma StableExcludes(c: Config, run: seq<System>, k: nat, i: nat, b: nat, s: nat, v: Value)
    requires IsRun(c, run) && k < |run| && i < c.n && |run[k].replicas| == c.n && Stable(run[k].replicas[i], c.n, run[k].now)
    ensures var m := Supporters(run[k].replicas[i], run[k].now);
      m <= Below(c.n) && |m| >= Majority(c.n) && forall p :: p in m ==> Ballot(run[k].replicas[p]) == Ballot(run[k].replicas[i])
    ensures ChosenAt(run[k].net, c.n, b, s, v) ==> b <= Ballot(run[k].replicas[i])
  {
    RunInv(c, run, k);
    LeaseExclusion(c, run[k], i);
    if ChosenAt(run[k].net, c.n, b, s, v) { NoHigherCommit(c, run[k], i, Committed(s, b, v)); }
  }

  /** A slot is decided once, whatever rosters and ballots follow each other. */
  lemma AtMostOneChosen(c: Config, run: seq<System>, k: nat, s: nat, b: nat, v: Value, d: nat, w: Value)
    requires IsRun(c, run) && k < |run| && ChosenAt(run[k].net, c.n, b, s, v) && ChosenAt(run[k].net, c.n, d, s, w)
    ensures v == w
  {
    RunInv(c, run, k);
    OneDecision(c, run[k], b, d, s, v, w);
  }

  /** Executed and committed slots agree among replicas. */
  lemma LogsAgree(c: Config, run: seq<System>, k: nat, i: nat, j: nat, s: nat)
    requires IsRun(c, run) && k < |run| && i < c.n && j < c.n && |run[k].replicas| == c.n
    requires s in run[k].replicas[i].log.committed && s in run[k].replicas[j].log.committed
    ensures s in run[k].replicas[i].log.entries && s in run[k].replicas[j].log.entries
    ensures run[k].replicas[i].log.entries[s].value == run[k].replicas[j].log.entries[s].value
  {
    RunInv(c, run, k);
    CommittedAgree(c, run[k], i, j, s);
  }

  /** An action accepts an entry, or a selection of them, against a conflicting one in the log. */
  predicate ActionPanics(x: Replica, a: Action) {
    match a
    case Receive(m) => (m.Accept? || m.CommittedEntry?) && m.ballot == Ballot(x) && AcceptPanics(x.log, m.slot, Entry(m.ballot, m.value))
    case Recovers(_, top, sel) =>
      (forall t :: x.lead.prepareStart <= t <= top ==> t in sel)
      && ReacceptPanics(x.log.(next := top), Ballot(x), sel, x.lead.prepareStart, top)
    case Write(v) => AcceptPanics(x.log, x.log.next + 1, Entry(Ballot(x), v))
    case _ => false
  }

  /**
    The panics on conflicting accepted and changed committed values never fire, whether an entry is
    delivered, selected by prepare or proposed anew.
  */
  lemma NoConflict(c: Config, run: seq<System>, k: nat, i: nat, a: Action, y: Replica, out: set<Msg>)
    requires IsRun(c, run) && k < |run| && i < c.n && |run[k].replicas| == c.n
    requires Acts(c, run[k], run[k].replicas[i], a, y, out)
    ensures !ActionPanics(run[k].replicas[i], a)
  {
    RunInv(c, run, k);
    var S := run[k];
    match a
    case Receive(m) =>
      if (m.Accept? || m.CommittedEntry?) && m.ballot == Ballot(S.replicas[i]) { DeliveredFits(c, S, i, m); }
    case Recovers(m, top, sel) => RecoveryFits(c, S, i, m, top, sel);
    case Write(v) => WriteFits(c, S, i, v);
    case _ =>
  }

  /**
    Read freshness: every local read that was answered reflects every write to its key that any leader
    in any ballot had committed before the read was submitted. An answer that does not come from the
    executed prefix is a decided write of the key, in a slot that no such write exceeds.
  */
  lemma ReadsAreFresh(c: Config, run: seq<System>, k: nat, v: Served)
    requires IsRun(c, run) && k < |run| && v in run[k].served
    ensures forall w :: w in v.seen && Writes(w.value, v.key) ==> w.slot <= (if v.answer.Some? then v.slot else v.prefix)
    ensures v.answer.Some? ==> Writes(v.answer.value, v.key) && exists b: nat :: DecidedBy(run[k].net, c.n, b, v.slot, v.answer.value)
  {
    RunInv(c, run, k);
    assert ServedOk(c, run[k], v);
    forall w | w in v.seen && Writes(w.value, v.key) ensures w.slot <= (if v.answer.Some? then v.slot else v.prefix) {
      assert Reflects(v.key, v.slot, v.prefix, v.seen);
    }
  }

  /** What a replica has executed of the committed writes is what was committed. */
  lemma ExecutedAsCommitted(c: Config, run: seq<System>, k: nat, i: nat, w: Committed)
    requires IsRun(c, run) && k < |run| && i < c.n && |run[k].replicas| == c.n
    requires w in run[k].commits && w.slot <= run[k].replicas[i].log.prefix
    ensures w.slot in run[k].replicas[i].log.entries && run[k].replicas[i].log.entries[w.slot].value == w.value
  {
    RunInv(c, run, k);
    ExecutedWrite(c, run[k], i, w);
  }
}
