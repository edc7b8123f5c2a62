/** Preparing, proposing and committing keep the log invariant. */
module BodegaLeading {
  import opened Bodega
  import opened BodegaSystem
  import opened BodegaLeases
  import opened BodegaSafety
  import opened BodegaFrame
  import opened BodegaLogs
  import opened BodegaSteps
  import opened Quorums

  // Evidence

  lemma PrepareKept(c: Config, S: System, i: nat, m: Msg, T: System)
    requires PaxosInv(c, S) && Wf(c, S) && i < c.n && m.Prepare? && InRoster(S.replicas[i], m)
    requires Moved(S, i, OnPrepare(S.replicas[i], m).0, OnPrepare(S.replicas[i], m).1, T)
    ensures PaxosInv(c, T)
  {
    var x := S.replicas[i];
    var (y, out) := OnPrepare(x, m);
    if m.start == 0 {
      UnmovedKeep(c, S, i, x, out, T);
    } else {
      var snap := y.lead.snapshot.value;
      OwnParts(c, S, i);
      assert SnapOk(S.net, c.n, i, Ballot(x), snap.start, snap.entries) by {
        if x.lead.snapshot.None? { FreshSnapshot(S.net, c.n, i, Ballot(x), Ballot(x), x.log, m.start); }
      }
      QuietActed(S, i, y, out, T);
      SnapStays(S.net, T.net, c.n, i, Ballot(x), snap.start, snap.entries);
      QuietMsgs(c, S, i, y, out, T);
      LogStays(S.net, T.net, c.n, i, Ballot(x), Ballot(x), x.log);
      LeadStays(c, S, T, i, i);
      Keep(c, S, T, i);
    }
  }

  /** The evidence a leader holds, its own among it. */
  ghost predicate Evidence(c: Config, S: System, i: nat, x: Replica)
    requires i < |S.replicas|
  {
    && (forall a: nat :: a in x.lead.snapshots ==>
          a < |S.replicas| && Ballot(S.replicas[a]) >= Ballot(x)
          && SnapOk(S.net, c.n, a, Ballot(x), x.lead.prepareStart, x.lead.snapshots[a]))
    && x.lead.prepareStart > 0 && i in x.lead.snapshots && x.lead.snapshots[i] == Suffix(x.log.entries, x.lead.prepareStart)
  }

  lemma StoredEvidence(c: Config, S: System, i: nat, m: Msg)
    requires PaxosInv(c, S) && Wf(c, S) && i < c.n && m in S.net && m.Promise? && InRoster(S.replicas[i], m) && StoresSnapshot(S.replicas[i], m)
    ensures Evidence(c, S, i, StoreSnapshot(S.replicas[i], m))
  {
    assert m == Promise(m.sender, m.ballot, m.start, m.entries) && MsgOk(c, S, m);
    OwnParts(c, S, i);
  }

  lemma StoredLeads(c: Config, S: System, i: nat, m: Msg, T: System)
    requires i < |S.replicas| && |T.replicas| == |S.replicas| && m.Promise? && LeadOk(c, S, i) && T.net == S.net && m.sender != i
    requires T.replicas == S.replicas[i := StoreSnapshot(S.replicas[i], m)] && !S.replicas[i].lead.prepared && Leader(S.replicas[i]) == i
    requires m.sender < |S.replicas| && Ballot(S.replicas[m.sender]) >= Ballot(S.replicas[i])
    requires SnapOk(S.net, c.n, m.sender, Ballot(S.replicas[i]), S.replicas[i].lead.prepareStart, m.entries)
    ensures LeadOk(c, T, i)
  {
    assert forall s: nat :: VotesOf(T.replicas[i].lead, s) == VotesOf(S.replicas[i].lead, s);
  }

  lemma StoreKept(c: Config, S: System, i: nat, m: Msg, T: System)
    requires PaxosInv(c, S) && Wf(c, S) && i < c.n && m in S.net && m.Promise? && InRoster(S.replicas[i], m) && StoresSnapshot(S.replicas[i], m)
    requires Moved(S, i, StoreSnapshot(S.replicas[i], m), {}, T)
    ensures PaxosInv(c, T)
  {
    var x := S.replicas[i];
    var y := StoreSnapshot(x, m);
    assert S.net + {} == S.net;
    QuietActed(S, i, y, {}, T);
    QuietMsgs(c, S, i, y, {}, T);
    assert ReplicaOk(c, T, i) by {
      assert m == Promise(m.sender, m.ballot, m.start, m.entries) && MsgOk(c, S, m);
      OwnParts(c, S, i);
      StoredLeads(c, S, i, m, T);
    }
    Keep(c, S, T, i);
  }

  // Recovery

  lemma QuorumBlocks(c: Config, S: System, i: nat, x: Replica, d: nat, s: nat, w: Value)
    requires |S.replicas| == c.n && i < c.n && Evidence(c, S, i, x) && |x.lead.snapshots| >= Majority(c.n) && d < Ballot(x)
    requires forall a: nat :: a in x.lead.snapshots ==> !Voted(S.net, a, d, s, w)
    ensures Blocked(S, c.n, d, s, w)
  {
    var q := x.lead.snapshots.Keys;
    assert q <= Blockers(S, c.n, d, s, w);
    SubsetSize(q, Blockers(S, c.n, d, s, w));
  }

  /** What nobody reports, nobody voted for. */
  lemma SilentSlot(c: Config, S: System, i: nat, x: Replica, d: nat, s: nat, w: Value)
    requires |S.replicas| == c.n && i < c.n && Evidence(c, S, i, x) && |x.lead.snapshots| >= Majority(c.n) && d < Ballot(x)
    requires s >= x.lead.prepareStart && !Reported(x.lead.snapshots, s)
    ensures Blocked(S, c.n, d, s, w)
  {
    QuorumBlocks(c, S, i, x, d, s, w);
  }

  /** No reporter voted for another value in the ballot of the selected entry or above it. */
  lemma AboveSelected(c: Config, S: System, i: nat, x: Replica, d: nat, s: nat, e: Entry, w: Value, a: nat)
    requires MsgInv(c, S) && i < c.n && Evidence(c, S, i, x) && IsSelected(x.lead.snapshots, s, e) && s >= x.lead.prepareStart
    requires EntryOk(S.net, c.n, s, e) && e.ballot <= d < Ballot(x) && w != e.value && a in x.lead.snapshots
    ensures !Voted(S.net, a, d, s, w)
  {
    if Voted(S.net, a, d, s, w) {
      VoteIsSafe(c, S, a, d, s, w);
      assert d == e.ballot;
      EntriesAgree(c, S, s, d, e.value, w);
    }
  }

  /** Below a decision other values are blocked; from it on nobody votes for them. */
  lemma DecidedSelected(c: Config, S: System, i: nat, x: Replica, d: nat, s: nat, v: Value, w: Value, b: nat)
    requires MsgInv(c, S) && i < c.n && Evidence(c, S, i, x) && |x.lead.snapshots| >= Majority(c.n)
    requires DecidedBy(S.net, c.n, b, s, v) && w != v && d < Ballot(x)
    ensures Blocked(S, c.n, d, s, w)
  {
    var k: nat :| k <= b && ChosenAt(S.net, c.n, k, s, v);
    if d < k {
      ChosenIsOffered(c, S, k, s, v);
    } else {
      forall a: nat | a in x.lead.snapshots ensures !Voted(S.net, a, d, s, w) {
        if Voted(S.net, a, d, s, w) {
          VoteIsSafe(c, S, a, d, s, w);
          OfferedFollowsChosen(c, S, k, d, s, v, w);
        }
      }
      QuorumBlocks(c, S, i, x, d, s, w);
    }
  }

  lemma SelectedSafe(c: Config, S: System, i: nat, x: Replica, s: nat, e: Entry)
    requires MsgInv(c, S) && i < c.n && Evidence(c, S, i, x) && |x.lead.snapshots| >= Majority(c.n)
    requires IsSelected(x.lead.snapshots, s, e) && s >= x.lead.prepareStart
    ensures Safe(S, c.n, Ballot(x), s, e.value)
  {
    var j: nat :| j in x.lead.snapshots && s in x.lead.snapshots[j] && x.lead.snapshots[j][s] == e;
    assert EntryOk(S.net, c.n, s, e);
    forall d: nat, w | d < Ballot(x) && w != e.value ensures Blocked(S, c.n, d, s, w) {
      if d >= e.ballot {
        forall a: nat | a in x.lead.snapshots ensures !Voted(S.net, a, d, s, w) { AboveSelected(c, S, i, x, d, s, e, w, a); }
        QuorumBlocks(c, S, i, x, d, s, w);
      } else if Offered(S.net, e.ballot, s, e.value) {
        OfferedIsSafe(c, S, e.ballot, s, e.value);
      } else {
        DecidedSelected(c, S, i, x, d, s, e.value, w, e.ballot);
      }
    }
  }

  /** The theorem of preparation: everything a new leader proposes again is safe in its ballot. */
  lemma SelectionSafe(c: Config, S: System, i: nat, x: Replica, top: nat, sel: map<nat, Value>, s: nat)
    requires MsgInv(c, S) && i < c.n && Evidence(c, S, i, x) && |x.lead.snapshots| >= Majority(c.n)
    requires IsSelection(x.lead, top, sel) && s in sel
    ensures s > 0 && Safe(S, c.n, Ballot(x), s, sel[s])
  {
    if Reported(x.lead.snapshots, s) {
      var e :| IsSelected(x.lead.snapshots, s, e) && sel[s] == e.value;
      SelectedSafe(c, S, i, x, s, e);
    } else {
      forall d: nat, w | d < Ballot(x) && w != sel[s] ensures Blocked(S, c.n, d, s, w) { SilentSlot(c, S, i, x, d, s, w); }
    }
  }

  // Proposing

  function Offers(i: nat, b: nat, ps: map<nat, Value>): set<Msg> { set s | s in ps :: Accept(i, b, s, ps[s]) }

  function OwnVotes(i: nat, b: nat, ps: map<nat, Value>): set<Msg> { set s | s in ps :: Accepted(i, b, s, ps[s]) }

  /** Values that the leader of a ballot may propose in it. */
  ghost predicate MayPropose(c: Config, S: System, i: nat, ps: map<nat, Value>)
    requires i < |S.replicas|
  {
    var b := Ballot(S.replicas[i]);
    && b > 0 && LeaderOf(S.net, b, i)
    && (forall s: nat :: s in ps ==> s > 0 && Safe(S, c.n, b, s, ps[s]))
    && (forall s: nat, l: nat, v :: s in ps ==> Accept(l, b, s, v) !in S.net)
  }

  /** The system once the proposals, but not the leader's own votes, are sent. */
  function Offering(S: System, i: nat, b: nat, ps: map<nat, Value>): System { S.(net := S.net + Offers(i, b, ps)) }

  lemma OffersActed(S: System, i: nat, b: nat, ps: map<nat, Value>)
    requires i < |S.replicas| && b == Ballot(S.replicas[i])
    ensures Acted(S, Offering(S, i, b, ps), i) && SameVotes(S.net, Offering(S, i, b, ps).net, i)
  {
  }

  lemma OffersMsgs(c: Config, S: System, i: nat, ps: map<nat, Value>)
    requires MsgInv(c, S) && i < c.n && MayPropose(c, S, i, ps)
    ensures MsgInv(c, Offering(S, i, Ballot(S.replicas[i]), ps))
  {
    var b := Ballot(S.replicas[i]);
    var U := Offering(S, i, b, ps);
    OffersActed(S, i, b, ps);
    assert OneAccept(U.net);
    LeaderStays(S.net, U.net, b, i);
    forall m | m in U.net && m !in S.net ensures MsgOk(c, U, m) { SafeStays(S, U, i, c.n, b, m.slot, m.value); }
    MsgsKeep(c, S, U, i);
  }

  lemma LeaderStays(net: set<Msg>, net': set<Msg>, b: nat, l: nat)
    requires net <= net' && LeaderOf(net, b, l)
    ensures LeaderOf(net', b, l)
  {
    var r :| Sent(net, r) && r.ballot == b && r.leader == l;
    var a :| Heartbeat(a, r) in net;
    assert Sent(net', r);
  }

  lemma VotesMsgs(c: Config, U: System, i: nat, b: nat, ps: map<nat, Value>, T: System)
    requires MsgInv(c, U) && i < c.n && |T.replicas| == c.n && T.net == U.net + OwnVotes(i, b, ps) && b == Ballot(U.replicas[i]) == Ballot(T.replicas[i])
    requires forall j: nat :: j < c.n && j != i ==> T.replicas[j] == U.replicas[j]
    requires forall s: nat :: s in ps ==> Offered(U.net, b, s, ps[s])
    ensures Acted(U, T, i) && MsgInv(c, T)
  {
    assert OneAccept(T.net);
    forall m | m in T.net && m !in U.net ensures MsgOk(c, T, m) { OfferedStays(U.net, T.net, b, m.slot, m.value); }
    MsgsKeep(c, U, T, i);
  }

  /** The log accepts what is proposed, slot by slot or all at once. */
  ghost predicate Takes(l: Log, m: Log, b: nat, ps: map<nat, Value>) {
    && (forall t :: t in m.entries <==> t in l.entries || t in ps)
    && (forall t :: t in m.entries ==> m.entries[t] == if t in ps then Entry(b, ps[t]) else l.entries[t])
    && m.prefix == l.prefix && m.high >= l.high
  }

  lemma ProposeActed(c: Config, S: System, i: nat, y: Replica, ps: map<nat, Value>, T: System)
    requires MsgInv(c, S) && i < c.n && MayPropose(c, S, i, ps) && Ballot(y) == Ballot(S.replicas[i])
    requires Moved(S, i, y, Offers(i, Ballot(y), ps) + OwnVotes(i, Ballot(y), ps), T)
    ensures Acted(S, T, i) && MsgInv(c, T)
    ensures T.net == Offering(S, i, Ballot(y), ps).net + OwnVotes(i, Ballot(y), ps)
    ensures MsgInv(c, Offering(S, i, Ballot(y), ps))
  {
    var b := Ballot(y);
    OffersMsgs(c, S, i, ps);
    assert T.net == Offering(S, i, b, ps).net + OwnVotes(i, b, ps);
    forall s: nat | s in ps ensures Offered(Offering(S, i, b, ps).net, b, s, ps[s]) {
      assert Accept(i, b, s, ps[s]) in Offering(S, i, b, ps).net;
    }
    VotesMsgs(c, Offering(S, i, b, ps), i, b, ps, T);
  }

  lemma ProposeLog(c: Config, S: System, i: nat, y: Replica, ps: map<nat, Value>, T: System)
    requires MsgInv(c, S) && i < c.n && MayPropose(c, S, i, ps) && Ballot(y) == Ballot(S.replicas[i])
    requires Moved(S, i, y, Offers(i, Ballot(y), ps) + OwnVotes(i, Ballot(y), ps), T)
    requires LogOk(Offering(S, i, Ballot(y), ps).net, c.n, i, Ballot(y), y.log) && Takes(S.replicas[i].log, y.log, Ballot(y), ps)
    ensures LogOk(T.net, c.n, i, Ballot(y), y.log)
  {
    VotesKeep(Offering(S, i, Ballot(y), ps).net, T.net, c.n, i, Ballot(y), y.log);
  }

  /** A leader's part after proposing. */
  ghost predicate Led(c: Config, S: System, i: nat, y: Replica, ps: map<nat, Value>)
    requires i < |S.replicas|
  {
    var x := S.replicas[i];
    && y.id == x.id == i && y.lease == x.lease && Active(y) && Leader(y) == i && y.lead.prepared
    && y.lead.prepareStart == x.lead.prepareStart
    && (forall a: nat :: a in y.lead.snapshots ==> a in x.lead.snapshots && y.lead.snapshots[a] == x.lead.snapshots[a])
    && (forall s: nat, a: nat :: a in VotesOf(y.lead, s) ==> (s in ps && a == i) || (s !in ps && a in VotesOf(x.lead, s)))
    && (forall s: nat :: s in y.log.entries ==> s <= y.log.next)
    && (forall s: nat, d: nat, w :: s > y.log.next && d < Ballot(y) ==> Blocked(S, c.n, d, s, w))
  }

  lemma ProposeLeads(c: Config, S: System, i: nat, y: Replica, ps: map<nat, Value>, T: System)
    requires |S.replicas| == c.n && i < c.n && LeadOk(c, S, i) && Acted(S, T, i) && MayPropose(c, S, i, ps) && Led(c, S, i, y, ps)
    requires Moved(S, i, y, Offers(i, Ballot(y), ps) + OwnVotes(i, Ballot(y), ps), T) && Takes(S.replicas[i].log, y.log, Ballot(y), ps)
    ensures LeadOk(c, T, i)
  {
    var x := S.replicas[i];
    var b := Ballot(y);
    forall s: nat | s in ps ensures Accept(i, b, s, ps[s]) in T.net && Voted(T.net, i, b, s, ps[s]) {
      assert Accept(i, b, s, ps[s]) in Offers(i, b, ps) && Accepted(i, b, s, ps[s]) in OwnVotes(i, b, ps);
    }
    EvidenceStays(c, S, T, i, i);
    forall s: nat, d: nat, w | s > y.log.next && d < b ensures Blocked(T, c.n, d, s, w) { BlockedStays(S, T, i, c.n, d, s, w); }
    ProposedVotes(c, S, i, y, ps, T);
  }

  lemma ProposedVotes(c: Config, S: System, i: nat, y: Replica, ps: map<nat, Value>, T: System)
    requires |S.replicas| == c.n && i < c.n && LeadOk(c, S, i) && Led(c, S, i, y, ps) && S.net <= T.net
    requires Takes(S.replicas[i].log, y.log, Ballot(y), ps) && forall s: nat :: s in ps ==> Voted(T.net, i, Ballot(y), s, ps[s])
    ensures forall s: nat, a: nat :: a in VotesOf(y.lead, s) ==>
              s in y.log.entries && y.log.entries[s].ballot == Ballot(y) && Voted(T.net, a, Ballot(y), s, y.log.entries[s].value)
  {
  }

  lemma ProposeKeep(c: Config, S: System, i: nat, y: Replica, ps: map<nat, Value>, T: System)
    requires PaxosInv(c, S) && Wf(c, S) && i < c.n && MayPropose(c, S, i, ps) && Led(c, S, i, y, ps)
    requires Moved(S, i, y, Offers(i, Ballot(y), ps) + OwnVotes(i, Ballot(y), ps), T) && Takes(S.replicas[i].log, y.log, Ballot(y), ps)
    requires LogOk(Offering(S, i, Ballot(y), ps).net, c.n, i, Ballot(y), y.log) && y.lead.snapshot == S.replicas[i].lead.snapshot
    ensures PaxosInv(c, T)
  {
    ProposeActed(c, S, i, y, ps, T);
    ProposeLog(c, S, i, y, ps, T);
    OwnParts(c, S, i);
    ProposeLeads(c, S, i, y, ps, T);
    FollowStays(S.net, T.net, c.n, i, Ballot(y), S.replicas[i].lead);
    Keep(c, S, T, i);
  }

  /** The leader of an active roster is the one it names, and what it has not proposed nobody has. */
  lemma LeaderProposes(c: Config, S: System, i: nat, s: nat)
    requires PaxosInv(c, S) && RosterInv(c, S) && i < c.n && Active(S.replicas[i]) && Leader(S.replicas[i]) == i
    ensures LeaderOf(S.net, Ballot(S.replicas[i]), i)
    ensures (!S.replicas[i].lead.prepared || s !in S.replicas[i].log.entries) ==>
              forall l: nat, v :: Accept(l, Ballot(S.replicas[i]), s, v) !in S.net
  {
    assert RosterOf(S, i);
    OwnParts(c, S, i);
    forall l: nat, v | Accept(l, Ballot(S.replicas[i]), s, v) in S.net ensures l == i { LedBy(c, S, l, Ballot(S.replicas[i]), s, v, i); }
  }

  lemma OfferOne(i: nat, b: nat, s: nat, v: Value)
    ensures Offers(i, b, map[s := v]) == {Accept(i, b, s, v)} && OwnVotes(i, b, map[s := v]) == {Accepted(i, b, s, v)}
  {
    var ps: map<nat, Value> := map[s := v];
    assert s in ps;
  }

  lemma WriteMayPropose(c: Config, S: System, i: nat, v: Value)
    requires PaxosInv(c, S) && RosterInv(c, S) && i < c.n && IsLeader(S.replicas[i])
    ensures MayPropose(c, S, i, map[S.replicas[i].log.next + 1 := v])
  {
    OwnParts(c, S, i);
    LeaderProposes(c, S, i, S.replicas[i].log.next + 1);
  }

  lemma WriteLog(c: Config, S: System, i: nat, s: nat, v: Value)
    requires PaxosInv(c, S) && i < c.n && MayPropose(c, S, i, map[s := v]) && s > 0
    ensures var b := Ballot(S.replicas[i]);
      LogOk(Offering(S, i, b, map[s := v]).net, c.n, i, b, AcceptEntry(S.replicas[i].log, s, Entry(b, v)))
  {
    var b := Ballot(S.replicas[i]);
    var U := Offering(S, i, b, map[s := v]);
    OffersMsgs(c, S, i, map[s := v]);
    OffersActed(S, i, b, map[s := v]);
    assert LogOk(S.net, c.n, i, b, S.replicas[i].log) by { OwnParts(c, S, i); }
    LogStays(S.net, U.net, c.n, i, b, b, S.replicas[i].log);
    OfferOne(i, b, s, v);
    assert Accept(i, b, s, v) in U.net;
    EntryIsSole(c, U, i, b, s, v);
    AcceptKeep(U.net, c.n, i, b, S.replicas[i].log, s, v);
  }

  lemma WriteLed(c: Config, S: System, i: nat, v: Value)
    requires PaxosInv(c, S) && Wf(c, S) && i < c.n && IsLeader(S.replicas[i])
    ensures var y := Propose(S.replicas[i], v).0; var ps: map<nat, Value> := map[S.replicas[i].log.next + 1 := v];
      Led(c, S, i, y, ps) && Takes(S.replicas[i].log, y.log, Ballot(y), ps)
  {
    OwnParts(c, S, i);
  }

  lemma WriteOut(x: Replica, v: Value)
    ensures Propose(x, v).1 == Offers(x.id, Ballot(x), map[x.log.next + 1 := v]) + OwnVotes(x.id, Ballot(x), map[x.log.next + 1 := v])
  {
    OfferOne(x.id, Ballot(x), x.log.next + 1, v);
  }

  lemma WriteKept(c: Config, S: System, i: nat, v: Value, T: System)
    requires PaxosInv(c, S) && RosterInv(c, S) && i < c.n && IsLeader(S.replicas[i])
    requires Moved(S, i, Propose(S.replicas[i], v).0, Propose(S.replicas[i], v).1, T)
    ensures PaxosInv(c, T)
  {
    var x := S.replicas[i];
    WriteMayPropose(c, S, i, v);
    WriteLog(c, S, i, x.log.next + 1, v);
    WriteLed(c, S, i, v);
    WriteOut(x, v);
    ProposeKeep(c, S, i, Propose(x, v).0, map[x.log.next + 1 := v], T);
  }

  // Recovering

  lemma RecoverMayPropose(c: Config, S: System, i: nat, x1: Replica, top: nat, sel: map<nat, Value>)
    requires PaxosInv(c, S) && RosterInv(c, S) && i < c.n && Active(S.replicas[i]) && Leader(S.replicas[i]) == i && !S.replicas[i].lead.prepared
    requires Evidence(c, S, i, x1) && Ballot(x1) == Ballot(S.replicas[i]) && |x1.lead.snapshots| >= Majority(c.n)
    requires IsSelection(x1.lead, top, sel)
    ensures MayPropose(c, S, i, sel)
  {
    forall s: nat | s in sel ensures s > 0 && Safe(S, c.n, Ballot(x1), s, sel[s]) { SelectionSafe(c, S, i, x1, top, sel, s); }
    forall s: nat, l: nat, v | s in sel ensures Accept(l, Ballot(x1), s, v) !in S.net { LeaderProposes(c, S, i, s); }
    LeaderProposes(c, S, i, 0);
  }

  lemma RecoverLog(c: Config, S: System, i: nat, top: nat, sel: map<nat, Value>, start: nat)
    requires PaxosInv(c, S) && i < c.n && MayPropose(c, S, i, sel) && start > 0
    requires forall s :: s in sel <==> start <= s <= top
    ensures var b := Ballot(S.replicas[i]);
      LogOk(Offering(S, i, b, sel).net, c.n, i, b, Reaccept(S.replicas[i].log.(next := top), b, sel, start, top))
  {
    var x := S.replicas[i];
    var b := Ballot(x);
    var U := Offering(S, i, b, sel);
    OffersMsgs(c, S, i, sel);
    OffersActed(S, i, b, sel);
    OwnParts(c, S, i);
    LogStays(S.net, U.net, c.n, i, b, b, x.log);
    assert LogOk(U.net, c.n, i, b, x.log.(next := top));
    forall t: nat | start <= t <= top ensures Sole(U.net, c.n, i, b, t, sel[t]) {
      assert Accept(i, b, t, sel[t]) in U.net;
      EntryIsSole(c, U, i, b, t, sel[t]);
    }
    ReacceptKeep(U.net, c.n, i, b, x.log.(next := top), sel, start, top);
  }

  /** The slots of the leader's own log are at or below the top of the selection. */
  lemma OwnBelowTop(c: Config, S: System, i: nat, x1: Replica, top: nat, sel: map<nat, Value>)
    requires |S.replicas| == c.n && i < c.n && Evidence(c, S, i, x1) && IsSelection(x1.lead, top, sel)
    ensures forall s: nat :: s in x1.log.entries ==> s <= top
  {
    forall s: nat | s in x1.log.entries ensures s <= top {
      if s >= x1.lead.prepareStart {
        assert s in x1.lead.snapshots[i];
        assert Reported(x1.lead.snapshots, s);
      }
    }
  }

  lemma AboveTopClean(c: Config, S: System, i: nat, x1: Replica, top: nat, sel: map<nat, Value>)
    requires |S.replicas| == c.n && i < c.n && Evidence(c, S, i, x1) && |x1.lead.snapshots| >= Majority(c.n) && IsSelection(x1.lead, top, sel)
    ensures forall s: nat, d: nat, w :: s > top && d < Ballot(x1) ==> Blocked(S, c.n, d, s, w)
  {
    forall s: nat, d: nat, w | s > top && d < Ballot(x1) ensures Blocked(S, c.n, d, s, w) { SilentSlot(c, S, i, x1, d, s, w); }
  }

  lemma RecoverVotes(x: Replica, top: nat, sel: map<nat, Value>)
    requires IsSelection(x.lead, top, sel)
    ensures forall s: nat :: VotesOf(Recover(x, top, sel).0.lead, s) == if s in sel then {x.id} else {}
  {
  }

  lemma RecoverTakes(x: Replica, top: nat, sel: map<nat, Value>)
    requires IsSelection(x.lead, top, sel) && x.lead.prepareStart > 0 && forall s: nat :: s in x.log.entries ==> s <= top
    ensures var y := Recover(x, top, sel).0;
      && Takes(x.log, y.log, Ballot(x), sel) && (forall s: nat :: s in y.log.entries ==> s <= y.log.next) && y.log.next == top
  {
    ReacceptShape(x.log.(next := top), Ballot(x), sel, x.lead.prepareStart, top);
  }

  lemma RecoverLed(c: Config, S: System, i: nat, x1: Replica, top: nat, sel: map<nat, Value>)
    requires |S.replicas| == c.n && i < c.n && S.replicas[i].id == i && Active(S.replicas[i]) && Leader(S.replicas[i]) == i
    requires x1 == S.replicas[i].(lead := S.replicas[i].lead.(snapshots := x1.lead.snapshots))
    requires Evidence(c, S, i, x1) && |x1.lead.snapshots| >= Majority(c.n) && IsSelection(x1.lead, top, sel)
    ensures var y := Recover(x1, top, sel).0;
      Led(c, S, i, y, sel) && Takes(S.replicas[i].log, y.log, Ballot(y), sel)
  {
    OwnBelowTop(c, S, i, x1, top, sel);
    RecoverTakes(x1, top, sel);
    AboveTopClean(c, S, i, x1, top, sel);
    RecoverVotes(x1, top, sel);
  }

  lemma RecoverKept(c: Config, S: System, i: nat, m: Msg, top: nat, sel: map<nat, Value>, T: System)
    requires PaxosInv(c, S) && RosterInv(c, S) && i < c.n && m in S.net && CompletesPrepare(S.replicas[i], c.n, m)
    requires IsSelection(StoreSnapshot(S.replicas[i], m).lead, top, sel)
    requires Moved(S, i, Recover(StoreSnapshot(S.replicas[i], m), top, sel).0, Recover(StoreSnapshot(S.replicas[i], m), top, sel).1, T)
    ensures PaxosInv(c, T)
  {
    var x := S.replicas[i];
    var x1 := StoreSnapshot(x, m);
    StoredEvidence(c, S, i, m);
    RecoverMayPropose(c, S, i, x1, top, sel);
    RecoverLog(c, S, i, top, sel, x.lead.prepareStart);
    RecoverLed(c, S, i, x1, top, sel);
    ProposeKeep(c, S, i, Recover(x1, top, sel).0, sel, T);
  }

  // Committing

  lemma CountedVote(c: Config, S: System, i: nat, m: Msg)
    requires PaxosInv(c, S) && RosterInv(c, S) && i < c.n && m in S.net && m.Accepted? && InRoster(S.replicas[i], m) && Counts(S.replicas[i], m)
    ensures m.value == S.replicas[i].log.entries[m.slot].value && Voted(S.net, m.sender, m.ballot, m.slot, m.value) && m.sender < c.n
  {
    assert m == Accepted(m.sender, m.ballot, m.slot, m.value) && MsgOk(c, S, m);
    var l :| Accept(l, m.ballot, m.slot, m.value) in S.net;
    LedBy(c, S, l, m.ballot, m.slot, m.value, i);
    OwnParts(c, S, i);
  }

  /** A counted majority has decided the slot. */
  lemma MajorityDecides(c: Config, S: System, i: nat, votes: set<nat>, s: nat, v: Value)
    requires MsgInv(c, S) && i < c.n && |votes| >= Majority(c.n)
    requires forall a :: a in votes ==> Voted(S.net, a, Ballot(S.replicas[i]), s, v)
    ensures DecidedBy(S.net, c.n, Ballot(S.replicas[i]), s, v)
  {
    forall a | a in votes ensures a in VotersFor(S.net, c.n, Ballot(S.replicas[i]), s, v) {
      assert MsgOk(c, S, Accepted(a, Ballot(S.replicas[i]), s, v));
    }
    SubsetSize(votes, VotersFor(S.net, c.n, Ballot(S.replicas[i]), s, v));
    assert ChosenAt(S.net, c.n, Ballot(S.replicas[i]), s, v);
  }

  /** A leader's log has been committed and executed further; it may have counted votes. */
  lemma LeaderLogs(c: Config, S: System, i: nat, y: Replica, T: System)
    requires |S.replicas| == c.n && i < c.n && LeadOk(c, S, i) && Acted(S, T, i) && T.replicas[i] == y && y.id == S.replicas[i].id
    requires IsLeader(S.replicas[i]) && Leader(S.replicas[i]) == i
    requires y.lease == S.replicas[i].lease && LogGrows(S.replicas[i].log, y.log)
    requires y.lead == S.replicas[i].lead.(votes := y.lead.votes)
    requires forall l: nat, b: nat, s: nat, v :: Accept(l, b, s, v) in T.net ==> Accept(l, b, s, v) in S.net
    requires forall s: nat, a: nat :: a in VotesOf(y.lead, s) ==>
      s in y.log.entries && y.log.entries[s].ballot == Ballot(y) && Voted(T.net, a, Ballot(y), s, y.log.entries[s].value)
    ensures LeadOk(c, T, i)
  {
    var x := S.replicas[i];
    EvidenceStays(c, S, T, i, i);
    CleanStays(c, S, T, i, i);
  }

  lemma CountedVotes(c: Config, S: System, i: nat, m: Msg)
    requires PaxosInv(c, S) && RosterInv(c, S) && i < c.n && m in S.net && m.Accepted? && InRoster(S.replicas[i], m) && Counts(S.replicas[i], m)
    ensures var y := CountVote(S.replicas[i], m);
      forall s: nat, a: nat :: a in VotesOf(y.lead, s) ==>
        s in y.log.entries && y.log.entries[s].ballot == Ballot(y) && Voted(S.net, a, Ballot(y), s, y.log.entries[s].value)
  {
    var x := S.replicas[i];
    CountedVote(c, S, i, m);
    OwnParts(c, S, i);
    assert forall s: nat :: VotesOf(CountVote(x, m).lead, s) == if s == m.slot then VotesOf(x.lead, s) + {m.sender} else VotesOf(x.lead, s);
  }

  /** A leader's step on its log alone, with notices of commitment to others. */
  lemma LeaderKeep(c: Config, S: System, i: nat, y: Replica, out: set<Msg>, T: System)
    requires PaxosInv(c, S) && i < c.n && Moved(S, i, y, out, T) && Quiet(out) && (forall m :: m in out ==> MsgOk(c, T, m))
    requires IsLeader(S.replicas[i]) && S.replicas[i].id == i && y.lease == S.replicas[i].lease
    requires LogGrows(S.replicas[i].log, y.log) && y.lead == S.replicas[i].lead.(votes := y.lead.votes)
    requires LogOk(S.net, c.n, i, Ballot(y), y.log)
    requires forall s: nat, a: nat :: a in VotesOf(y.lead, s) ==>
      s in y.log.entries && y.log.entries[s].ballot == Ballot(y) && Voted(S.net, a, Ballot(y), s, y.log.entries[s].value)
    ensures PaxosInv(c, T)
  {
    QuietActed(S, i, y, out, T);
    QuietMsgs(c, S, i, y, out, T);
    LogStays(S.net, T.net, c.n, i, Ballot(y), Ballot(y), y.log);
    OwnParts(c, S, i);
    FollowStays(S.net, T.net, c.n, i, Ballot(y), S.replicas[i].lead);
    LeaderLogs(c, S, i, y, T);
    Keep(c, S, T, i);
  }

  lemma CommitLog(c: Config, S: System, i: nat, m: Msg)
    requires PaxosInv(c, S) && RosterInv(c, S) && i < c.n && m in S.net && m.Accepted? && InRoster(S.replicas[i], m) && Counts(S.replicas[i], m)
    requires CanCommit(CountVote(S.replicas[i], m), c.n, m.slot)
    ensures var x := S.replicas[i]; var l := Apply(MarkCommitted(x.log, m.slot));
      && LogOk(S.net, c.n, i, Ballot(x), l) && LogGrows(x.log, l) && m.slot in l.committed
      && DecidedBy(S.net, c.n, Ballot(x), m.slot, x.log.entries[m.slot].value)
  {
    var x := S.replicas[i];
    CountedVotes(c, S, i, m);
    MajorityDecides(c, S, i, VotesOf(CountVote(x, m).lead, m.slot), m.slot, x.log.entries[m.slot].value);
    assert LogOk(S.net, c.n, i, Ballot(x), x.log) by { OwnParts(c, S, i); }
    MarkKeep(S.net, c.n, i, Ballot(x), x.log, m.slot);
    ApplyKeep(S.net, c.n, i, Ballot(x), MarkCommitted(x.log, m.slot));
    GrowsTransitive(x.log, MarkCommitted(x.log, m.slot), Apply(MarkCommitted(x.log, m.slot)));
  }

  lemma CommitMsg(c: Config, S: System, T: System, i: nat, b: nat, l: Log, s: nat)
    requires LogOk(S.net, c.n, i, b, l) && S.net <= T.net && s in l.committed
    ensures MsgOk(c, T, Commit(i, b, l.prefix, s))
  {
    forall t: nat | 0 < t <= l.prefix || (t == s && s > 0) ensures Known(T.net, c.n, b, t) {
      assert t in l.committed;
      DecidedStays(S.net, T.net, c.n, b, b, t, l.entries[t].value);
    }
  }

  lemma AcceptedKept(c: Config, S: System, i: nat, m: Msg, T: System)
    requires PaxosInv(c, S) && RosterInv(c, S) && i < c.n && m in S.net && m.Accepted? && InRoster(S.replicas[i], m)
    requires Moved(S, i, OnAccepted(S.replicas[i], c.n, m).0, OnAccepted(S.replicas[i], c.n, m).1, T)
    ensures PaxosInv(c, T)
  {
    var x := S.replicas[i];
    var (y, out) := OnAccepted(x, c.n, m);
    if !Counts(x, m) {
      UnmovedKeep(c, S, i, x, {}, T);
    } else {
      CountedVotes(c, S, i, m);
      if CanCommit(CountVote(x, m), c.n, m.slot) {
        CommitLog(c, S, i, m);
        CommitMsg(c, S, T, i, Ballot(x), y.log, m.slot);
      } else {
        assert LogOk(S.net, c.n, i, Ballot(x), x.log) by { OwnParts(c, S, i); }
      }
      LeaderKeep(c, S, i, y, out, T);
    }
  }

  // Every step

  lemma BoundKept(c: Config, S: System, i: nat, m: Msg, T: System)
    requires PaxosInv(c, S) && RosterInv(c, S) && i < c.n && m in S.net && Bound(m) && InRoster(S.replicas[i], m)
    requires Moved(S, i, DeliverBound(S.replicas[i], c, m, S.now).0, DeliverBound(S.replicas[i], c, m, S.now).1, T)
    ensures PaxosInv(c, T)
  {
    var x := S.replicas[i];
    var (y, out) := DeliverBound(x, c, m, S.now);
    if m.LeaseRequest? || m.LeaseReply? {
      PlainOk(c, T, out);
      UnmovedKeep(c, S, i, y, out, T);
    } else if m.Promise? {
      if StoresSnapshot(x, m) { StoreKept(c, S, i, m, T); } else { UnmovedKeep(c, S, i, x, {}, T); }
    } else if m.Accepted? {
      AcceptedKept(c, S, i, m, T);
    } else if m.sender != Leader(x) {
      UnmovedKeep(c, S, i, x, {}, T);
    } else if m.Prepare? {
      PrepareKept(c, S, i, m, T);
    } else if m.Accept? {
      AcceptKept(c, S, i, m, T);
    } else if m.Commit? {
      CommitKept(c, S, i, m, T);
    } else {
      HistoryKept(c, S, i, m, T);
    }
  }

  lemma ReceiveKept(c: Config, S: System, i: nat, m: Msg, T: System)
    requires PaxosInv(c, S) && RosterInv(c, S) && i < c.n && m in S.net
    requires Moved(S, i, Deliver(S.replicas[i], c, m, S.now).0, Deliver(S.replicas[i], c, m, S.now).1, T)
    ensures PaxosInv(c, T)
  {
    var x := S.replicas[i];
    var (y, out) := Deliver(x, c, m, S.now);
    if m.Heartbeat? {
      ObserveKeep(c, S, i, m.roster, out, T);
    } else if m.LeaseRevoke? {
      PlainOk(c, T, out);
      UnmovedKeep(c, S, i, y, out, T);
    } else if m.LeaseRevoked? {
      RevokedKeep(c, S, i, m, T);
    } else if !InRoster(x, m) {
      UnmovedKeep(c, S, i, x, {}, T);
    } else {
      BoundKept(c, S, i, m, T);
    }
  }

  lemma ActionKept(c: Config, S: System, i: nat, a: Action, y: Replica, out: set<Msg>, T: System)
    requires PaxosInv(c, S) && RosterInv(c, S) && i < c.n && Acts(c, S, S.replicas[i], a, y, out) && Moved(S, i, y, out, T)
    ensures PaxosInv(c, T)
  {
    var x := S.replicas[i];
    if a.Receive? {
      ReceiveKept(c, S, i, a.m, T);
    } else if a.Recovers? {
      RecoverKept(c, S, i, a.m, a.top, a.sel, T);
    } else if a.NewRoster? {
      ObserveKeep(c, S, i, Roster(NextBallot(c.n, x), a.leader, a.mask + {a.leader}, a.ranges), out, T);
    } else if a.TryInstall? {
      TryInstallKeep(c, S, i, T);
    } else if a.Write? {
      WriteKept(c, S, i, a.v, T);
    } else if a.Notify? {
      NotifyKeep(c, S, i, T);
    } else if a.RepairSlot? {
      RepairKeep(c, S, i, a.s, T);
    } else {
      PlainOk(c, T, out);
      UnmovedKeep(c, S, i, y, out, T);
    }
  }

  // Panics

  /** An entry that was proposed, or decided by then, meets no conflicting entry in a log of its ballot. */
  lemma NoConflictingEntry(c: Config, T: System, i: nat, b: nat, l: Log, s: nat, v: Value)
    requires MsgInv(c, T) && LogOk(T.net, c.n, i, b, l) && EntryOk(T.net, c.n, s, Entry(b, v))
    ensures !AcceptPanics(l, s, Entry(b, v))
  {
    if s in l.entries {
      if l.entries[s].ballot == b { EntriesAgree(c, T, s, b, l.entries[s].value, v); }
      if s in l.committed { EntryFollowsDecision(c, T, s, Entry(b, v), b, l.entries[s].value); }
    }
  }

  lemma DeliveredFits(c: Config, S: System, i: nat, m: Msg)
    requires PaxosInv(c, S) && i < c.n && m in S.net && (m.Accept? || m.CommittedEntry?) && m.ballot == Ballot(S.replicas[i])
    ensures !AcceptPanics(S.replicas[i].log, m.slot, Entry(m.ballot, m.value))
  {
    assert MsgOk(c, S, m);
    assert EntryOk(S.net, c.n, m.slot, Entry(m.ballot, m.value)) by {
      if m.Accept? { assert Accept(m.sender, m.ballot, m.slot, m.value) in S.net; }
    }
    OwnParts(c, S, i);
    NoConflictingEntry(c, S, i, m.ballot, S.replicas[i].log, m.slot, m.value);
  }

  lemma {:induction false} SelectionFits(c: Config, T: System, i: nat, b: nat, l: Log, sel: map<nat, Value>, s: nat, top: nat)
    requires MsgInv(c, T) && LogOk(T.net, c.n, i, b, l) && s > 0 && forall t :: s <= t <= top ==> t in sel
    requires forall t: nat :: s <= t <= top ==> EntryOk(T.net, c.n, t, Entry(b, sel[t]))
    ensures !ReacceptPanics(l, b, sel, s, top)
    decreases top + 1 - s
  {
    if s <= top {
      NoConflictingEntry(c, T, i, b, l, s, sel[s]);
      EntryIsSole(c, T, i, b, s, sel[s]);
      AcceptKeep(T.net, c.n, i, b, l, s, sel[s]);
      SelectionFits(c, T, i, b, AcceptEntry(l, s, Entry(b, sel[s])), sel, s + 1, top);
    }
  }

  /** What a leader may propose meets no conflicting entry in its own log, however much it accepts at once. */
  lemma ProposedFits(c: Config, S: System, i: nat, l: Log, ps: map<nat, Value>, s: nat, top: nat)
    requires PaxosInv(c, S) && i < c.n && MayPropose(c, S, i, ps) && s > 0 && forall t :: s <= t <= top ==> t in ps
    requires l == S.replicas[i].log.(next := l.next)
    ensures !ReacceptPanics(l, Ballot(S.replicas[i]), ps, s, top)
  {
    var b := Ballot(S.replicas[i]);
    var U := Offering(S, i, b, ps);
    OffersMsgs(c, S, i, ps);
    OffersActed(S, i, b, ps);
    assert LogOk(S.net, c.n, i, b, S.replicas[i].log) by { OwnParts(c, S, i); }
    LogStays(S.net, U.net, c.n, i, b, b, S.replicas[i].log);
    forall t: nat | s <= t <= top ensures EntryOk(U.net, c.n, t, Entry(b, ps[t])) { assert Accept(i, b, t, ps[t]) in U.net; }
    SelectionFits(c, U, i, b, l, ps, s, top);
  }

  /** Proposing again what prepare has selected never changes a committed value. */
  lemma RecoveryFits(c: Config, S: System, i: nat, m: Msg, top: nat, sel: map<nat, Value>)
    requires PaxosInv(c, S) && RosterInv(c, S) && i < c.n && m in S.net && CompletesPrepare(S.replicas[i], c.n, m)
    requires IsSelection(StoreSnapshot(S.replicas[i], m).lead, top, sel)
    ensures !ReacceptPanics(S.replicas[i].log.(next := top), Ballot(S.replicas[i]), sel, S.replicas[i].lead.prepareStart, top)
  {
    StoredEvidence(c, S, i, m);
    RecoverMayPropose(c, S, i, StoreSnapshot(S.replicas[i], m), top, sel);
    ProposedFits(c, S, i, S.replicas[i].log.(next := top), sel, S.replicas[i].lead.prepareStart, top);
  }

  lemma WriteFits(c: Config, S: System, i: nat, v: Value)
    requires PaxosInv(c, S) && RosterInv(c, S) && i < c.n && IsLeader(S.replicas[i])
    ensures !AcceptPanics(S.replicas[i].log, S.replicas[i].log.next + 1, Entry(Ballot(S.replicas[i]), v))
  {
    var s := S.replicas[i].log.next + 1;
    WriteMayPropose(c, S, i, v);
    ProposedFits(c, S, i, S.replicas[i].log, map[s := v], s, s);
  }
}
