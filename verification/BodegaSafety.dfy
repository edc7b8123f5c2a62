/**
  What a Bodega cluster keeps true of its log, and why a slot is never decided twice.

  Ballots are numbered by rosters. A new leader proposes again what a majority's frozen evidence
  does not rule out; executed history that it passes on to a lagging follower enters the follower's
  log under the current ballot without a vote.
*/
module BodegaSafety {
  import opened Bodega
  import opened BodegaSystem
  import opened BodegaLeases
  import opened Quorums

  // Votes

  predicate Voted(net: set<Msg>, a: nat, b: nat, s: nat, v: Value) { Accepted(a, b, s, v) in net }

  ghost predicate Offered(net: set<Msg>, b: nat, s: nat, v: Value) { exists l :: Accept(l, b, s, v) in net }

  function VotersFor(net: set<Msg>, n: nat, b: nat, s: nat, v: Value): set<nat> { set a | a in Below(n) && Voted(net, a, b, s, v) }

  predicate ChosenAt(net: set<Msg>, n: nat, b: nat, s: nat, v: Value) { |VotersFor(net, n, b, s, v)| >= Majority(n) }

  /** A majority has accepted the value in one ballot, up to `b`. */
  ghost predicate DecidedBy(net: set<Msg>, n: nat, b: nat, s: nat, v: Value) { exists d: nat :: d <= b && ChosenAt(net, n, d, s, v) }

  ghost predicate Known(net: set<Msg>, n: nat, b: nat, t: nat) { exists v :: DecidedBy(net, n, b, t, v) }

  predicate Left(S: System, a: nat, b: nat) { a < |S.replicas| && Ballot(S.replicas[a]) > b }

  function Blockers(S: System, n: nat, b: nat, s: nat, v: Value): set<nat> {
    set a | a in Below(n) && Left(S, a, b) && !Voted(S.net, a, b, s, v)
  }

  predicate Blocked(S: System, n: nat, b: nat, s: nat, v: Value) { |Blockers(S, n, b, s, v)| >= Majority(n) }

  ghost predicate Safe(S: System, n: nat, b: nat, s: nat, v: Value) {
    forall d: nat, w :: d < b && w != v ==> Blocked(S, n, d, s, w)
  }

  // Evidence

  /** An entry was proposed in its ballot, or had been decided by then. */
  ghost predicate EntryOk(net: set<Msg>, n: nat, s: nat, e: Entry) {
    s > 0 && (Offered(net, e.ballot, s, e.value) || DecidedBy(net, n, e.ballot, s, e.value))
  }

  /** Frozen entries tell of every vote that replica `a` cast below ballot `b` from slot `start` on. */
  ghost predicate SnapOk(net: set<Msg>, n: nat, a: nat, b: nat, start: nat, es: map<nat, Entry>) {
    && start > 0
    && (forall s: nat :: s in es ==> s >= start && es[s].ballot <= b && EntryOk(net, n, s, es[s]))
    && (forall d: nat, s: nat, w :: d < b && s >= start && Voted(net, a, d, s, w) ==>
          s in es && d <= es[s].ballot && (d == es[s].ballot ==> w == es[s].value))
  }

  ghost predicate LeaderOf(net: set<Msg>, b: nat, l: nat) { exists r :: Sent(net, r) && r.ballot == b && r.leader == l }

  ghost predicate MsgOk(c: Config, S: System, m: Msg) {
    match m
    case Accept(l, b, s, v) => l < c.n && s > 0 && LeaderOf(S.net, b, l) && Safe(S, c.n, b, s, v) && l < |S.replicas| && Ballot(S.replicas[l]) >= b
    case Accepted(a, b, s, v) => a < c.n && a < |S.replicas| && Ballot(S.replicas[a]) >= b && Offered(S.net, b, s, v)
    case Promise(a, b, start, es) => a < c.n && a < |S.replicas| && Ballot(S.replicas[a]) >= b && SnapOk(S.net, c.n, a, b, start, es)
    case Commit(_, b, prefix, slot) =>
      (forall t: nat :: 0 < t <= prefix ==> Known(S.net, c.n, b, t)) && (slot > 0 ==> Known(S.net, c.n, b, slot))
    case CommittedEntry(_, b, s, v) => s > 0 && DecidedBy(S.net, c.n, b, s, v)
    case _ => true
  }

  ghost predicate MsgInv(c: Config, S: System) {
    && c.n > 0 && |S.replicas| == c.n
    && (forall m :: m in S.net ==> MsgOk(c, S, m))
    && (forall l: nat, k: nat, b: nat, s: nat, v, w :: Accept(l, b, s, v) in S.net && Accept(k, b, s, w) in S.net ==> v == w)
  }

  // Agreement

  lemma VoteIsSafe(c: Config, S: System, a: nat, b: nat, s: nat, v: Value)
    requires MsgInv(c, S) && Voted(S.net, a, b, s, v)
    ensures Offered(S.net, b, s, v) && Safe(S, c.n, b, s, v) && s > 0
  {
    assert MsgOk(c, S, Accepted(a, b, s, v));
    var l :| Accept(l, b, s, v) in S.net;
    assert MsgOk(c, S, Accept(l, b, s, v));
  }

  lemma ChosenIsOffered(c: Config, S: System, b: nat, s: nat, v: Value)
    requires MsgInv(c, S) && ChosenAt(S.net, c.n, b, s, v)
    ensures Offered(S.net, b, s, v) && Safe(S, c.n, b, s, v) && s > 0
  {
    assert Majority(c.n) > 0;
    var a :| a in VotersFor(S.net, c.n, b, s, v);
    VoteIsSafe(c, S, a, b, s, v);
  }

  lemma BlockedNotChosen(S: System, n: nat, b: nat, s: nat, v: Value)
    requires Blocked(S, n, b, s, v)
    ensures !ChosenAt(S.net, n, b, s, v)
  {
    if ChosenAt(S.net, n, b, s, v) {
      Intersect(n, Blockers(S, n, b, s, v), VotersFor(S.net, n, b, s, v));
    }
  }

  lemma OfferedIsSafe(c: Config, S: System, b: nat, s: nat, v: Value)
    requires MsgInv(c, S) && Offered(S.net, b, s, v)
    ensures Safe(S, c.n, b, s, v)
  {
    var l :| Accept(l, b, s, v) in S.net;
    assert MsgOk(c, S, Accept(l, b, s, v));
  }

  lemma OneOffer(c: Config, S: System, b: nat, s: nat, v: Value, w: Value)
    requires MsgInv(c, S) && Offered(S.net, b, s, v) && Offered(S.net, b, s, w)
    ensures v == w
  {
  }

  /** Once a value has been chosen, only it is proposed in that ballot and in higher ones. */
  lemma OfferedFollowsChosen(c: Config, S: System, d: nat, b: nat, s: nat, v: Value, w: Value)
    requires MsgInv(c, S) && ChosenAt(S.net, c.n, d, s, v) && Offered(S.net, b, s, w) && d <= b
    ensures v == w
  {
    ChosenIsOffered(c, S, d, s, v);
    if d == b {
      OneOffer(c, S, b, s, v, w);
    } else if v != w {
      OfferedIsSafe(c, S, b, s, w);
      BlockedNotChosen(S, c.n, d, s, v);
    }
  }

  /** A slot is decided once. */
  lemma OneDecision(c: Config, S: System, b: nat, d: nat, s: nat, v: Value, w: Value)
    requires MsgInv(c, S) && ChosenAt(S.net, c.n, b, s, v) && ChosenAt(S.net, c.n, d, s, w)
    ensures v == w
  {
    ChosenIsOffered(c, S, b, s, v);
    ChosenIsOffered(c, S, d, s, w);
    if b <= d { OfferedFollowsChosen(c, S, b, d, s, v, w); } else { OfferedFollowsChosen(c, S, d, b, s, w, v); }
  }

  lemma OneDecidedBy(c: Config, S: System, b: nat, d: nat, s: nat, v: Value, w: Value)
    requires MsgInv(c, S) && DecidedBy(S.net, c.n, b, s, v) && DecidedBy(S.net, c.n, d, s, w)
    ensures v == w
  {
    var k: nat :| k <= b && ChosenAt(S.net, c.n, k, s, v);
    var j: nat :| j <= d && ChosenAt(S.net, c.n, j, s, w);
    OneDecision(c, S, k, j, s, v, w);
  }

  /** An entry of ballot `b` has the value decided by then, if there is one. */
  lemma EntryFollowsDecision(c: Config, S: System, s: nat, e: Entry, b: nat, w: Value)
    requires MsgInv(c, S) && EntryOk(S.net, c.n, s, e) && b <= e.ballot && DecidedBy(S.net, c.n, b, s, w)
    ensures e.value == w
  {
    if Offered(S.net, e.ballot, s, e.value) {
      var d: nat :| d <= b && ChosenAt(S.net, c.n, d, s, w);
      OfferedFollowsChosen(c, S, d, e.ballot, s, w, e.value);
    } else {
      OneDecidedBy(c, S, b, e.ballot, s, w, e.value);
    }
  }

  /** Two entries of one slot and ballot are equal. */
  lemma EntriesAgree(c: Config, S: System, s: nat, b: nat, v: Value, w: Value)
    requires MsgInv(c, S) && EntryOk(S.net, c.n, s, Entry(b, v)) && EntryOk(S.net, c.n, s, Entry(b, w))
    ensures v == w
  {
    if DecidedBy(S.net, c.n, b, s, v) {
      EntryFollowsDecision(c, S, s, Entry(b, w), b, v);
    } else if DecidedBy(S.net, c.n, b, s, w) {
      EntryFollowsDecision(c, S, s, Entry(b, v), b, w);
    }
  }

  // A replica's own state

  /** The log of replica `i` in ballot `b`, against what has been sent. */
  ghost predicate LogOk(net: set<Msg>, n: nat, i: nat, b: nat, l: Log) {
    && (forall s: nat :: s in l.entries ==> l.entries[s].ballot <= b && s <= l.high && EntryOk(net, n, s, l.entries[s]))
    && (forall d: nat, s: nat, v :: Voted(net, i, d, s, v) ==>
          d <= b && s in l.entries && d <= l.entries[s].ballot && (d == l.entries[s].ballot ==> v == l.entries[s].value))
    && (forall s: nat :: s in l.committed ==> s in l.entries && DecidedBy(net, n, b, s, l.entries[s].value))
    && (forall s: nat :: 0 < s <= l.prefix ==> s in l.committed)
    && (forall t: nat :: 0 < t <= l.noticePrefix || (t > 0 && t in l.noticeSlots) ==> Known(net, n, b, t))
  }

  /** Votes cast in lower ballots lie at or below the threshold told with leases. */
  ghost predicate ThresholdOk(net: set<Msg>, i: nat, l: Lease) {
    forall d: nat, s: nat, v :: Voted(net, i, d, s, v) && d < l.current.ballot ==> s <= l.threshold
  }

  ghost predicate FollowOk(net: set<Msg>, n: nat, i: nat, b: nat, d: Lead) {
    d.snapshot.Some? ==> SnapOk(net, n, i, b, d.snapshot.value.start, d.snapshot.value.entries)
  }

  /** What replica `i` has proposed in its ballot is in its log, and the other way round. */
  ghost predicate ProposalsOk(S: System, i: nat)
    requires i < |S.replicas|
  {
    var x := S.replicas[i];
    var b := Ballot(x);
    && (forall s: nat, v :: Accept(i, b, s, v) in S.net ==>
          s in x.log.entries && x.log.entries[s] == Entry(b, v) && (x.lease.pending.None? ==> x.lead.prepared))
    && (x.lease.pending.Some? ==> !x.lead.prepared)
    && (b > 0 && Leader(x) == i ==>
          forall s: nat :: s in x.log.entries && x.log.entries[s].ballot == b ==> Accept(i, b, s, x.log.entries[s].value) in S.net)
  }

  /** The votes it has counted were cast. */
  ghost predicate VotesOk(S: System, i: nat)
    requires i < |S.replicas|
  {
    var x := S.replicas[i];
    forall s: nat, a: nat :: a in VotesOf(x.lead, s) ==>
      Leader(x) == i && s in x.log.entries && x.log.entries[s].ballot == Ballot(x)
      && Voted(S.net, a, Ballot(x), s, x.log.entries[s].value)
  }

  /** The snapshots it has gathered are evidence, its own among them until it is prepared. */
  ghost predicate EvidenceOk(c: Config, S: System, i: nat)
    requires i < |S.replicas|
  {
    var x := S.replicas[i];
    && (forall a: nat :: a in x.lead.snapshots ==>
          Leader(x) == i && a < |S.replicas| && Ballot(S.replicas[a]) >= Ballot(x)
          && SnapOk(S.net, c.n, a, Ballot(x), x.lead.prepareStart, x.lead.snapshots[a]))
    && (Active(x) && Leader(x) == i && !x.lead.prepared ==>
          x.lead.prepareStart > 0 && i in x.lead.snapshots && x.lead.snapshots[i] == Suffix(x.log.entries, x.lead.prepareStart))
  }

  /** Above its last slot nothing can have been decided in a lower ballot. */
  ghost predicate CleanOk(c: Config, S: System, i: nat)
    requires i < |S.replicas|
  {
    var x := S.replicas[i];
    IsLeader(x) ==>
      && (forall s: nat :: s in x.log.entries ==> s <= x.log.next)
      && (forall s: nat, d: nat, w :: s > x.log.next && d < Ballot(x) ==> Blocked(S, c.n, d, s, w))
  }

  ghost predicate LeadOk(c: Config, S: System, i: nat)
    requires i < |S.replicas|
  {
    ProposalsOk(S, i) && VotesOk(S, i) && EvidenceOk(c, S, i) && CleanOk(c, S, i)
  }

  ghost predicate ReplicaOk(c: Config, S: System, i: nat)
    requires i < |S.replicas|
  {
    var x := S.replicas[i];
    && LogOk(S.net, c.n, i, Ballot(x), x.log) && ThresholdOk(S.net, i, x.lease) && FollowOk(S.net, c.n, i, Ballot(x), x.lead)
    && LeadOk(c, S, i)
  }

  ghost predicate PaxosInv(c: Config, S: System) {
    && MsgInv(c, S) && forall i: nat :: i < c.n ==> ReplicaOk(c, S, i)
  }
}
