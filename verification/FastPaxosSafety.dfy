/**
  Agreement for FastPaxos: in every run, across the fast round and all classic epochs, at most
  one value is chosen per slot, and none of the replica's consistency panics can fire.

  Epoch 0 is the fast round. A round below an epoch is harmless to a value when every other value
  is *blocked* there: so many replicas have left the round without voting for it that it can no
  longer reach a quorum. Blocking is permanent, and a proposal is made only of a value for
  which everything else is blocked in every lower round.
*/
module FastPaxosSafety {
  import opened FastPaxos
  import opened FastPaxosSystem
  import opened Quorums

  // Votes, quorums and blocked rounds

  predicate Voted(net: set<Msg>, a: nat, b: nat, s: nat, w: Value) {
    if b == 0 then Vote(a, s, w) in net else Accepted(a, b, s, w) in net
  }

  function QuorumSize(n: nat, b: nat): nat {
    if b == 0 then FastQuorumSize(n) else Majority(n)
  }

  function Voters(net: set<Msg>, n: nat, b: nat, s: nat, w: Value): set<nat> {
    set a | a in Below(n) && Voted(net, a, b, s, w)
  }

  predicate ChosenAt(net: set<Msg>, n: nat, b: nat, s: nat, w: Value) {
    |Voters(net, n, b, s, w)| >= QuorumSize(n, b)
  }

  ghost predicate Chosen(net: set<Msg>, n: nat, s: nat, w: Value) {
    exists b :: ChosenAt(net, n, b, s, w)
  }

  predicate Left(S: System, a: nat, b: nat)
  {
    a < |S.replicas| && S.replicas[a].promise > b
  }

  function Blockers(S: System, n: nat, b: nat, s: nat, w: Value): set<nat> {
    set a | a in Below(n) && Left(S, a, b) && !Voted(S.net, a, b, s, w)
  }

  predicate Blocked(S: System, n: nat, b: nat, s: nat, w: Value) {
    |Blockers(S, n, b, s, w)| + QuorumSize(n, b) > n
  }

  ghost predicate Safe(S: System, n: nat, b: nat, s: nat, v: Value) {
    forall c: nat, w :: c < b && w != v ==> Blocked(S, n, c, s, w)
  }

  lemma BlockedNotChosen(S: System, n: nat, b: nat, s: nat, w: Value)
    requires Blocked(S, n, b, s, w)
    ensures !ChosenAt(S.net, n, b, s, w)
  {
    if ChosenAt(S.net, n, b, s, w) {
      Intersect(n, Blockers(S, n, b, s, w), Voters(S.net, n, b, s, w));
    }
  }

  lemma QuorumArithmetic(n: nat)
    requires Membership(n)
    ensures 2 * FastQuorumSize(n) + Majority(n) > 2 * n
    ensures 2 * Majority(n) > n && FastQuorumSize(n) >= Majority(n) && FastQuorumSize(n) <= n
  {
  }

  /** A majority that has left a round without voting for a value blocks it. */
  lemma MajorityBlocks(S: System, n: nat, q: set<nat>, b: nat, s: nat, w: Value)
    requires Membership(n) && q <= Below(n) && |q| >= Majority(n)
    requires forall a :: a in q ==> Left(S, a, b) && !Voted(S.net, a, b, s, w)
    ensures Blocked(S, n, b, s, w)
  {
    QuorumArithmetic(n);
    SubsetSize(q, Blockers(S, n, b, s, w));
  }

  // What every step preserves

  /** Promises and the network only grow, and nobody votes in a round it has left. */
  ghost predicate Extends(n: nat, S: System, S': System) {
    && |S.replicas| == |S'.replicas| == n
    && S.net <= S'.net
    && (forall a :: 0 <= a < n ==> S.replicas[a].promise <= S'.replicas[a].promise)
    && (forall a: nat, b: nat, s: nat, w :: a < n && Voted(S'.net, a, b, s, w) && !Voted(S.net, a, b, s, w)
          ==> !Left(S, a, b))
  }

  lemma BlockedStable(n: nat, S: System, S': System, b: nat, s: nat, w: Value)
    requires Extends(n, S, S') && Blocked(S, n, b, s, w)
    ensures Blocked(S', n, b, s, w)
  {
    SubsetSize(Blockers(S, n, b, s, w), Blockers(S', n, b, s, w));
  }

  lemma SafeStable(n: nat, S: System, S': System, b: nat, s: nat, v: Value)
    requires Extends(n, S, S') && Safe(S, n, b, s, v)
    ensures Safe(S', n, b, s, v)
  {
    forall c: nat, w | c < b && w != v ensures Blocked(S', n, c, s, w) {
      BlockedStable(n, S, S', c, s, w);
    }
  }

  lemma ChosenStable(n: nat, S: System, S': System, s: nat, v: Value)
    requires Extends(n, S, S') && Chosen(S.net, n, s, v)
    ensures Chosen(S'.net, n, s, v)
  {
    var b :| ChosenAt(S.net, n, b, s, v);
    SubsetSize(Voters(S.net, n, b, s, v), Voters(S'.net, n, b, s, v));
    assert ChosenAt(S'.net, n, b, s, v);
  }

  // The invariant, replica by replica

  predicate HasEpoch(m: Msg) { m.Prepare? || m.Promise? || m.Accept? || m.Accepted? || m.Nack? || m.Heartbeat? }

  /** An epoch is in use only after its owner has started it. */
  predicate Begun(S: System, e: nat) {
    |S.replicas| > 0 && (e > 0 ==> e <= S.replicas[Owner(|S.replicas|, e)].promise)
  }

  ghost predicate EpochInv(S: System, n: nat, j: nat)
    requires j < |S.replicas|
  {
    && Begun(S, S.replicas[j].promise)
    && (forall m :: m in S.net && m.sender == j && HasEpoch(m) ==> Begun(S, m.epoch))
  }

  ghost predicate VoteRecorded(S: System, n: nat, j: nat, b: nat, s: nat, w: Value)
    requires j < |S.replicas|
  {
    var r := S.replicas[j];
    var acc := SlotOf(r, s).accepted;
    && b <= r.promise
    && acc.Some? && acc.value.epoch >= b
    && (acc.value.epoch == b ==> acc.value.value == w)
    && (s <= r.high || Blocked(S, n, b, s, w))
    && (if b == 0 then w.Command? else n > 0 && Accept(Owner(n, b), b, s, w) in S.net)
  }

  ghost predicate VoteInv(S: System, n: nat, j: nat)
    requires j < |S.replicas|
  {
    && (forall b: nat, s: nat, w :: Voted(S.net, j, b, s, w) ==> VoteRecorded(S, n, j, b, s, w))
    && (forall s: nat, w, w' :: Vote(j, s, w) in S.net && Vote(j, s, w') in S.net ==> w == w')
  }

  ghost predicate AcceptInv(S: System, n: nat, j: nat)
    requires j < |S.replicas|
  {
    var r := S.replicas[j];
    forall s: nat :: SlotOf(r, s).accepted.Some? ==>
      var e := SlotOf(r, s).accepted.value;
      e.slot == s && !e.decided && e.round == (if e.epoch == 0 then 1 else 0) && Voted(S.net, j, e.epoch, s, e.value)
  }

  predicate Proposes(r: Replica, s: nat, b: nat, w: Value) {
    && SlotOf(r, s).proposed.Some?
    && SlotOf(r, s).proposed.value.epoch == b && SlotOf(r, s).proposed.value.value == w
  }

  /** What the owner of an epoch has proposed in it, and what it may still propose. */
  ghost predicate ProposalInv(S: System, n: nat, j: nat)
    requires j < |S.replicas|
  {
    var r := S.replicas[j];
    && (forall b: nat, s: nat, w :: Accept(j, b, s, w) in S.net ==>
          && n > 0 && b > 0 && Owner(n, b) == j && b <= r.promise && Safe(S, n, b, s, w)
          && (b == r.promise ==> r.active && Proposes(r, s, b, w)))
    && (forall b: nat, s: nat, w, w' :: Accept(j, b, s, w) in S.net && Accept(j, b, s, w') in S.net ==> w == w')
  }

  /** Every counted acknowledgement is a vote for the slot's current proposal. */
  ghost predicate AcksValid(net: set<Msg>, n: nat, r: Replica) {
    forall s: nat, a :: a in SlotOf(r, s).acks ==>
      && a < n && SlotOf(r, s).proposed.Some?
      && Voted(net, a, SlotOf(r, s).proposed.value.epoch, s, SlotOf(r, s).proposed.value.value)
  }

  ghost predicate LeaderInv(S: System, n: nat, j: nat)
    requires j < |S.replicas|
  {
    var r := S.replicas[j];
    && (r.active ==> r.promise > 0 && !r.preparing)
    && (r.preparing ==> n > 0 && r.promise > 0 && Owner(n, r.promise) == j)
    && (forall s: nat :: SlotOf(r, s).proposed.Some? ==>
          var e := SlotOf(r, s).proposed.value;
          && e.slot == s && e.epoch <= r.promise && !e.decided
          && (e.epoch == r.promise ==> n > 0 && r.active && Owner(n, e.epoch) == j && s < r.next && Safe(S, n, e.epoch, s, e.value)))
    && (n > 0 && r.active && Owner(n, r.promise) == j ==>
          forall s: nat, c: nat, w :: s >= r.next && c < r.promise ==> Blocked(S, n, c, s, w))
    && AcksValid(S.net, n, r)
  }

  ghost predicate FrozenOk(S: System, n: nat, j: nat, e: nat, f: Frozen) {
    && (forall k :: 0 <= k < |f.entries| ==>
          var x := f.entries[k];
          && f.start <= x.slot <= f.high
          && (if x.decided then Chosen(S.net, n, x.slot, x.value)
              else x.epoch <= e && x.round == (if x.epoch == 0 then 1 else 0) && Voted(S.net, j, x.epoch, x.slot, x.value)))
    && (forall k, l :: 0 <= k < l < |f.entries| ==> f.entries[k].slot < f.entries[l].slot)
    && (forall b: nat, s: nat, w :: b < e && s >= f.start && Voted(S.net, j, b, s, w) ==>
          Blocked(S, n, b, s, w) || exists k :: 0 <= k < |f.entries| && Covers(f.entries[k], b, s, w))
  }

  /** A report that stands for the vote: the decision, a later vote, or the vote itself. */
  predicate Covers(x: Entry, b: nat, s: nat, w: Value) {
    x.slot == s && (x.decided || x.epoch > b || (x.epoch == b && x.value == w))
  }

  ghost predicate PromiseInv(S: System, n: nat, j: nat)
    requires j < |S.replicas|
  {
    var r := S.replicas[j];
    && (forall e: nat, f, p: nat :: Promise(j, e, f, p) in S.net ==>
          && 0 < e <= r.promise && p < PageCount(f) && FrozenOk(S, n, j, e, f)
          && (e == r.promise ==> r.frozen == Some(f)))
    && (forall e: nat, f, f', p: nat, p': nat :: Promise(j, e, f, p) in S.net && Promise(j, e, f', p') in S.net ==> f == f')
    && (r.frozen.Some? ==> exists p :: Promise(j, r.promise, r.frozen.value, p) in S.net)
  }

  ghost predicate SnapshotOf(S: System, e: nat, start: nat, i: nat, snap: Snapshot, f: Frozen) {
    && (exists p :: Promise(i, e, f, p) in S.net)
    && f.start == start && snap.pages == PageCount(f) && snap.high == f.high
    && (forall p :: p in snap.parts ==> p < PageCount(f) && snap.parts[p] == PageOf(f, p))
  }

  ghost predicate SnapshotInv(S: System, n: nat, j: nat)
    requires j < |S.replicas|
  {
    var r := S.replicas[j];
    r.preparing ==> forall i :: i in r.snapshots ==>
      i < n && exists f :: SnapshotOf(S, r.promise, r.start, i, r.snapshots[i], f)
  }

  /** Every counted fast vote was cast. */
  ghost predicate VotesValid(net: set<Msg>, n: nat, r: Replica) {
    forall s: nat, a :: a in SlotOf(r, s).votes ==> a < n && Voted(net, a, 0, s, SlotOf(r, s).votes[a])
  }

  ghost predicate ChosenInv(S: System, n: nat, j: nat)
    requires j < |S.replicas|
  {
    var r := S.replicas[j];
    && (forall s: nat :: SlotOf(r, s).chosen.Some? ==>
          SlotOf(r, s).chosen.value.slot == s && SlotOf(r, s).chosen.value.decided
          && Chosen(S.net, n, s, SlotOf(r, s).chosen.value.value))
    && (forall s: nat, v, p :: Commit(j, s, v, p) in S.net ==> Chosen(S.net, n, s, v))
    && VotesValid(S.net, n, r)
  }

  ghost predicate ReplicaInv(S: System, n: nat, j: nat)
    requires j < |S.replicas|
  {
    && S.replicas[j].id == j
    && S.replicas[j].executed >= -1
    && EpochInv(S, n, j)
    && VoteInv(S, n, j)
    && AcceptInv(S, n, j)
    && ProposalInv(S, n, j)
    && LeaderInv(S, n, j)
    && PromiseInv(S, n, j)
    && SnapshotInv(S, n, j)
    && ChosenInv(S, n, j)
  }

  ghost predicate Inv(S: System, n: nat) {
    && Membership(n) && |S.replicas| == n
    && (forall m :: m in S.net ==> m.sender < n)
    && forall j :: 0 <= j < n ==> ReplicaInv(S, n, j)
  }

  // Agreement follows from the invariant

  lemma RoundsAgree(S: System, n: nat, b: nat, c: nat, s: nat, v: Value, w: Value)
    requires Inv(S, n) && ChosenAt(S.net, n, b, s, v) && ChosenAt(S.net, n, c, s, w) && b <= c
    ensures v == w
  {
    QuorumArithmetic(n);
    if c == b {
      Intersect(n, Voters(S.net, n, b, s, v), Voters(S.net, n, b, s, w));
      var a :| a in Voters(S.net, n, b, s, v) && a in Voters(S.net, n, b, s, w);
      assert ReplicaInv(S, n, a);
      assert VoteRecorded(S, n, a, b, s, v) && VoteRecorded(S, n, a, b, s, w);
      if b > 0 { assert ReplicaInv(S, n, Owner(n, b)); }
    } else if v != w {
      var a :| a in Voters(S.net, n, c, s, w);
      assert ReplicaInv(S, n, a);
      assert VoteRecorded(S, n, a, c, s, w);
      assert ReplicaInv(S, n, Owner(n, c));
      BlockedNotChosen(S, n, b, s, v);
    }
  }

  lemma Agreement(S: System, n: nat, s: nat, v: Value, w: Value)
    requires Inv(S, n) && Chosen(S.net, n, s, v) && Chosen(S.net, n, s, w)
    ensures v == w
  {
    var b :| ChosenAt(S.net, n, b, s, v);
    var c :| ChosenAt(S.net, n, c, s, w);
    if b <= c { RoundsAgree(S, n, b, c, s, v, w); } else { RoundsAgree(S, n, c, b, s, w, v); }
  }
}
