/**
  Classic recovery: the value selected from a majority of promises is one for which every other
  value is blocked in every lower round.
*/
module FastPaxosRecovery {
  import opened FastPaxos
  import opened FastPaxosSystem
  import opened FastPaxosSafety
  import opened FastPaxosSteps
  import opened Quorums

  // Selection on its own

  /** With `q` responders the value's reporters and all non-responders could be a fast quorum. */
  predicate CouldBeFast(reports: map<nat, Entry>, t: Entry, q: nat, n: nat, v: Value) {
    |Support(reports, t, v)| + n - q >= FastQuorumSize(n)
  }

  lemma SupportsDisjoint(reports: map<nat, Entry>, t: Entry, q: set<nat>, n: nat, v: Value, w: Value)
    requires Membership(n) && reports.Keys <= q <= Below(n) && |q| >= Majority(n) && v != w
    ensures !(CouldBeFast(reports, t, |q|, n, v) && CouldBeFast(reports, t, |q|, n, w))
  {
    QuorumArithmetic(n);
    var a, b := Support(reports, t, v), Support(reports, t, w);
    assert a !! b;
    SubsetSize(a + b, q);
    assert |a + b| == |a| + |b|;
  }

  lemma TopExact(reports: map<nat, Entry>, t: Entry, q: set<nat>, n: nat, v: Value, w: Value)
    requires Membership(n) && reports.Keys <= q <= Below(n) && |q| >= Majority(n)
    requires TopSelects(reports, t, |q|, n, v) && CouldBeFast(reports, t, |q|, n, w)
    requires Support(reports, t, Noop) == {}
    ensures v == w
  {
    QuorumArithmetic(n);
    assert Support(reports, t, w) != {};
    var i :| i in Support(reports, t, w);
    if v != w {
      assert |Support(reports, t, reports[i].value)| >= Minimum(n, |q|);
      SupportsDisjoint(reports, t, q, n, v, w);
    }
  }

  /**
    For any majority of responders and any reports whose newest round is the fast one: if a value
    could have been chosen fast, then it is what the selection returns. At most one can.
  */
  lemma SelectionExact(reports: map<nat, Entry>, t: Entry, q: set<nat>, n: nat, v: Value, w: Value)
    requires Membership(n) && reports.Keys <= q <= Below(n) && |q| >= Majority(n)
    requires !HasDecided(reports) && IsTop(reports, t) && Selects(reports, |q|, n, v)
    requires Support(reports, t, Noop) == {}
    requires CouldBeFast(reports, t, |q|, n, w)
    ensures v == w
    ensures forall x :: CouldBeFast(reports, t, |q|, n, x) ==> x == w
  {
    var u :| IsTop(reports, u) && TopSelects(reports, u, |q|, n, v);
    assert SameRound(t, u);
    assert forall x :: Support(reports, u, x) == Support(reports, t, x);
    TopExact(reports, u, q, n, v, w);
    forall x | CouldBeFast(reports, t, |q|, n, x) ensures x == w {
      if x != w { SupportsDisjoint(reports, t, q, n, x, w); }
    }
  }

  // Evidence of a majority

  ghost predicate ReportSound(S: System, n: nat, b: nat, s: nat, i: nat, x: Entry) {
    if x.decided then Chosen(S.net, n, s, x.value)
    else x.epoch < b && x.round == (if x.epoch == 0 then 1 else 0) && Voted(S.net, i, x.epoch, s, x.value)
  }

  /** What the reports of one slot tell about the votes of the responders. */
  ghost predicate Evidence(S: System, n: nat, b: nat, s: nat, q: set<nat>, reports: map<nat, Entry>) {
    && q <= Below(n) && |q| >= Majority(n) && reports.Keys <= q
    && (forall a :: a in q ==> forall c: nat :: c < b ==> Left(S, a, c))
    && (forall i :: i in reports ==> ReportSound(S, n, b, s, i, reports[i]))
    && (forall i, c: nat, w :: i in q && c < b && Voted(S.net, i, c, s, w) ==>
          Blocked(S, n, c, s, w) || (i in reports && Covers(reports[i].(slot := s), c, s, w)))
  }

  lemma UnlessVoted(S: System, n: nat, b: nat, s: nat, q: set<nat>, reports: map<nat, Entry>, c: nat, w: Value)
    requires Membership(n) && Evidence(S, n, b, s, q, reports) && c < b
    requires forall i :: i in q && Voted(S.net, i, c, s, w) ==> Blocked(S, n, c, s, w)
    ensures Blocked(S, n, c, s, w)
  {
    if !Blocked(S, n, c, s, w) {
      MajorityBlocks(S, n, q, c, s, w);
    }
  }

  /** Classic votes of one epoch agree, and carry the safety of the epoch's proposal. */
  lemma ClassicVotes(S: System, n: nat, i: nat, j: nat, c: nat, s: nat, v: Value, w: Value)
    requires Inv(S, n) && i < n && j < n && c > 0
    requires Voted(S.net, i, c, s, v) && Voted(S.net, j, c, s, w)
    ensures v == w && Safe(S, n, c, s, v)
  {
    assert ReplicaInv(S, n, i) && ReplicaInv(S, n, j) && ReplicaInv(S, n, Owner(n, c));
    assert VoteRecorded(S, n, i, c, s, v) && VoteRecorded(S, n, j, c, s, w);
  }

  lemma FastVotes(S: System, n: nat, i: nat, s: nat, v: Value, w: Value)
    requires Inv(S, n) && i < n && Voted(S.net, i, 0, s, v) && Voted(S.net, i, 0, s, w)
    ensures v == w && v.Command?
  {
    assert ReplicaInv(S, n, i);
    assert VoteRecorded(S, n, i, 0, s, v);
  }

  /** A chosen value is safe in any epoch a majority has promised. */
  lemma ChosenIsSafe(S: System, n: nat, b: nat, s: nat, q: set<nat>, v: Value)
    requires Inv(S, n) && q <= Below(n) && |q| >= Majority(n) && Chosen(S.net, n, s, v)
    requires forall a, c: nat :: a in q && c < b ==> Left(S, a, c)
    ensures Safe(S, n, b, s, v)
  {
    QuorumArithmetic(n);
    var d :| ChosenAt(S.net, n, d, s, v);
    var x :| x in Voters(S.net, n, d, s, v);
    forall c: nat, w | c < b && w != v ensures Blocked(S, n, c, s, w) {
      if c < d {
        ClassicVotes(S, n, x, x, d, s, v, v);
      } else if c == d == 0 {
        Intersect(n, Voters(S.net, n, 0, s, v), q);
        var both := Voters(S.net, n, 0, s, v) * q;
        forall a | a in both ensures a in Blockers(S, n, 0, s, w) {
          if Voted(S.net, a, 0, s, w) { FastVotes(S, n, a, s, v, w); }
        }
        SubsetSize(both, Blockers(S, n, 0, s, w));
      } else {
        forall a | a in q ensures !Voted(S.net, a, c, s, w) {
          if Voted(S.net, a, c, s, w) {
            if c == d { ClassicVotes(S, n, x, a, c, s, v, w); }
            else { ClassicVotes(S, n, a, a, c, s, w, w); BlockedNotChosen(S, n, d, s, v); }
          }
        }
        MajorityBlocks(S, n, q, c, s, w);
      }
    }
  }

  /** Without reports nothing can have been chosen: every value is safe. */
  lemma SilenceIsSafe(S: System, n: nat, b: nat, s: nat, q: set<nat>, c: nat, w: Value)
    requires Membership(n) && Evidence(S, n, b, s, q, map[]) && c < b
    ensures Blocked(S, n, c, s, w)
  {
    UnlessVoted(S, n, b, s, q, map[], c, w);
  }

  /** A round above every report is blocked for all values. */
  lemma AboveTop(S: System, n: nat, b: nat, s: nat, q: set<nat>, reports: map<nat, Entry>, t: Entry, c: nat, w: Value)
    requires Membership(n) && Evidence(S, n, b, s, q, reports) && !HasDecided(reports) && IsTop(reports, t)
    requires t.epoch < c < b
    ensures Blocked(S, n, c, s, w)
  {
    forall i | i in q ensures Voted(S.net, i, c, s, w) ==> Blocked(S, n, c, s, w) {
      if Voted(S.net, i, c, s, w) && !Blocked(S, n, c, s, w) { assert false; }
    }
    UnlessVoted(S, n, b, s, q, reports, c, w);
  }

  lemma ClassicTop(S: System, n: nat, b: nat, s: nat, q: set<nat>, reports: map<nat, Entry>, t: Entry, v: Value)
    requires Inv(S, n) && Evidence(S, n, b, s, q, reports) && !HasDecided(reports)
    requires IsTop(reports, t) && t.epoch > 0 && TopSelects(reports, t, |q|, n, v)
    ensures SingleValued(reports, t) && v == t.value && Safe(S, n, b, s, v)
  {
    var k :| k in reports && reports[k] == t;
    forall i | i in reports && SameRound(reports[i], t) ensures reports[i].value == t.value {
      ClassicVotes(S, n, i, k, t.epoch, s, reports[i].value, t.value);
    }
    ClassicVotes(S, n, k, k, t.epoch, s, t.value, t.value);
    assert k in Support(reports, t, t.value);
    assert v == t.value;
    forall c: nat, w | c < b && w != v ensures Blocked(S, n, c, s, w) {
      if c > t.epoch {
        AboveTop(S, n, b, s, q, reports, t, c, w);
      } else if c == t.epoch {
        forall i | i in q ensures !Voted(S.net, i, c, s, w) {
          if Voted(S.net, i, c, s, w) { ClassicVotes(S, n, i, k, c, s, w, v); }
        }
        UnlessVoted(S, n, b, s, q, reports, c, w);
      }
    }
  }

  /** A value with too few supporters among the responders is blocked in the fast round. */
  lemma FewSupportersBlocked(S: System, n: nat, b: nat, s: nat, q: set<nat>, reports: map<nat, Entry>, t: Entry, w: Value)
    requires Inv(S, n) && Evidence(S, n, b, s, q, reports) && !HasDecided(reports) && b > 0
    requires IsTop(reports, t) && t.epoch == 0 && |Support(reports, t, w)| < Minimum(n, |q|)
    ensures Blocked(S, n, 0, s, w)
  {
    var k :| k in reports && reports[k] == t;
    var rest := q - Support(reports, t, w);
    assert q * Support(reports, t, w) == Support(reports, t, w);
    assert |rest| == |q| - |q * Support(reports, t, w)|;
    forall a | a in rest ensures Voted(S.net, a, 0, s, w) ==> Blocked(S, n, 0, s, w) {
      if Voted(S.net, a, 0, s, w) && !Blocked(S, n, 0, s, w) { assert false; }
    }
    if !Blocked(S, n, 0, s, w) {
      assert rest <= Blockers(S, n, 0, s, w);
      SubsetSize(rest, Blockers(S, n, 0, s, w));
    }
  }

  lemma FastTop(S: System, n: nat, b: nat, s: nat, q: set<nat>, reports: map<nat, Entry>, t: Entry, v: Value)
    requires Inv(S, n) && Evidence(S, n, b, s, q, reports) && !HasDecided(reports)
    requires IsTop(reports, t) && t.epoch == 0 && TopSelects(reports, t, |q|, n, v)
    ensures Safe(S, n, b, s, v)
  {
    QuorumArithmetic(n);
    SubsetSize(q, Below(n));
    forall i | i in reports && SameRound(reports[i], t) ensures reports[i].value.Command? {
      FastVotes(S, n, i, s, reports[i].value, reports[i].value);
    }
    assert Support(reports, t, Noop) == {};
    forall c: nat, w | c < b && w != v ensures Blocked(S, n, c, s, w) {
      if c > 0 {
        AboveTop(S, n, b, s, q, reports, t, c, w);
      } else {
        if |Support(reports, t, w)| >= Minimum(n, |q|) {
          var i :| i in Support(reports, t, w);
          assert |Support(reports, t, reports[i].value)| >= Minimum(n, |q|);
          SupportsDisjoint(reports, t, q, n, v, w);
        }
        FewSupportersBlocked(S, n, b, s, q, reports, t, w);
      }
    }
  }

  /** The theorem of recovery: whatever the selection returns from a majority's evidence is safe. */
  lemma SelectionIsSafe(S: System, n: nat, b: nat, s: nat, q: set<nat>, reports: map<nat, Entry>, v: Value)
    requires Inv(S, n) && Evidence(S, n, b, s, q, reports) && Selects(reports, |q|, n, v)
    ensures Safe(S, n, b, s, v)
    ensures !SelectPanics(reports)
  {
    if HasDecided(reports) {
      var i :| i in reports && reports[i].decided && reports[i].value == v;
      ChosenIsSafe(S, n, b, s, q, v);
    } else if reports == map[] {
      forall c: nat, w | c < b && w != v ensures Blocked(S, n, c, s, w) {
        SilenceIsSafe(S, n, b, s, q, c, w);
      }
    } else {
      var t :| IsTop(reports, t) && TopSelects(reports, t, |q|, n, v);
      if t.epoch > 0 { ClassicTop(S, n, b, s, q, reports, t, v); } else { FastTop(S, n, b, s, q, reports, t, v); }
      forall u | IsTop(reports, u) && u.epoch > 0
        ensures Support(reports, u, Noop) != {} || SingleValued(reports, u)
      {
        assert SameRound(t, u);
        assert SingleValued(reports, t);
        assert u.value == t.value;
      }
    }
  }

  // From stored pages to evidence

  lemma FullKeys(parts: map<nat, seq<Entry>>, pages: nat)
    requires |parts| == pages && forall p :: p in parts ==> p < pages
    ensures forall p: nat :: p < pages ==> p in parts
  {
    assert parts.Keys <= Below(pages);
    if p: nat :| p < pages && p !in parts {
      SubsetSize(parts.Keys, Below(pages) - {p});
    }
  }

  lemma PageHolding(f: Frozen, k: nat)
    requires k < |f.entries|
    ensures k / 128 < PageCount(f) && f.entries[k] in PageOf(f, k / 128)
  {
    var p := k / 128;
    assert p * 128 <= k < p * 128 + 128;
    assert f.entries[k] == PageOf(f, p)[k - p * 128];
  }

  /** A complete snapshot holds exactly the frozen entries, however its pages arrived. */
  lemma CompleteSnapshot(S: System, e: nat, start: nat, i: nat, snap: Snapshot, f: Frozen, x: Entry)
    requires SnapshotOf(S, e, start, i, snap, f) && Complete(snap)
    ensures Reported(snap, x) <==> x in f.entries
  {
    FullKeys(snap.parts, snap.pages);
    if x in f.entries {
      var k :| 0 <= k < |f.entries| && f.entries[k] == x;
      PageHolding(f, k);
      assert k / 128 in snap.parts;
    }
  }

  /** The frozen evidence behind a responder of the recovering replica `j`. */
  lemma ResponderEvidence(n: nat, S: System, j: nat, r1: Replica, i: nat) returns (f: Frozen)
    requires Inv(S, n) && j < n && r1.preparing && r1.promise == S.replicas[j].promise
    requires i in Responders(r1.snapshots) && i < n
    requires exists g :: SnapshotOf(S, r1.promise, r1.start, i, r1.snapshots[i], g)
    ensures f.start == r1.start && f.high == r1.snapshots[i].high && FrozenOk(S, n, i, r1.promise, f)
    ensures r1.promise <= S.replicas[i].promise
    ensures forall x :: Reported(r1.snapshots[i], x) <==> x in f.entries
  {
    f :| SnapshotOf(S, r1.promise, r1.start, i, r1.snapshots[i], f);
    assert ReplicaInv(S, n, i);
    forall x ensures Reported(r1.snapshots[i], x) <==> x in f.entries {
      CompleteSnapshot(S, r1.promise, r1.start, i, r1.snapshots[i], f, x);
    }
  }

  /** Nobody has voted in an epoch whose owner is still preparing it. */
  lemma NoVotesYet(n: nat, S: System, j: nat, i: nat, s: nat, w: Value)
    requires Inv(S, n) && j < n && i < n && S.replicas[j].preparing
    ensures !Voted(S.net, i, S.replicas[j].promise, s, w)
  {
    var b := S.replicas[j].promise;
    assert b > 0 && Owner(n, b) == j && !S.replicas[j].active && ProposalInv(S, n, j) by { assert ReplicaInv(S, n, j); }
    if Voted(S.net, i, b, s, w) {
      assert VoteRecorded(S, n, i, b, s, w) by { assert ReplicaInv(S, n, i); }
      assert false;
    }
  }

  ghost predicate Recovering(n: nat, S: System, j: nat, r1: Replica) {
    && Inv(S, n) && j < n && S.replicas[j].preparing
    && r1 == S.replicas[j].(snapshots := r1.snapshots)
    && |Responders(r1.snapshots)| >= Majority(n)
    && forall i :: i in r1.snapshots ==> i < n && exists f :: SnapshotOf(S, r1.promise, r1.start, i, r1.snapshots[i], f)
  }

  /** Entries are one per slot, so the entry of a vote's slot is the one that covers it. */
  lemma UniqueCover(S: System, n: nat, i: nat, e: nat, f: Frozen, s: nat, c: nat, w: Value)
    requires FrozenOk(S, n, i, e, f) && s >= f.start && c < e && Voted(S.net, i, c, s, w) && !Blocked(S, n, c, s, w)
    ensures exists x :: x in f.entries && x.slot == s
    ensures forall x :: x in f.entries && x.slot == s ==> Covers(x, c, s, w)
  {
    var k :| 0 <= k < |f.entries| && Covers(f.entries[k], c, s, w);
    assert f.entries[k] in f.entries;
  }

  lemma ReportIsSound(n: nat, S: System, j: nat, b: nat, f: Frozen, s: nat, i: nat, x: Entry)
    requires Inv(S, n) && j < n && i < n && S.replicas[j].preparing && b == S.replicas[j].promise
    requires FrozenOk(S, n, i, b, f) && x in f.entries && x.slot == s
    ensures ReportSound(S, n, b, s, i, x)
  {
    NoVotesYet(n, S, j, i, s, x.value);
  }

  lemma OneResponder(n: nat, S: System, j: nat, r1: Replica, s: nat, reports: map<nat, Entry>, i: nat)
    requires Recovering(n, S, j, r1) && s >= r1.start && ReportsFor(r1.snapshots, s, reports)
    requires i in Responders(r1.snapshots)
    ensures i in Below(n) && S.replicas[i].promise >= r1.promise
    ensures i in reports ==> ReportSound(S, n, r1.promise, s, i, reports[i])
    ensures forall c: nat, w :: c < r1.promise && Voted(S.net, i, c, s, w) ==>
      Blocked(S, n, c, s, w) || (i in reports && Covers(reports[i].(slot := s), c, s, w))
  {
    var f := ResponderEvidence(n, S, j, r1, i);
    if i in reports {
      ReportIsSound(n, S, j, r1.promise, f, s, i, reports[i]);
    }
    forall c: nat, w | c < r1.promise && Voted(S.net, i, c, s, w)
      ensures Blocked(S, n, c, s, w) || (i in reports && Covers(reports[i].(slot := s), c, s, w))
    {
      if !Blocked(S, n, c, s, w) {
        UniqueCover(S, n, i, r1.promise, f, s, c, w);
        var x :| x in f.entries && x.slot == s;
        assert Reported(r1.snapshots[i], x);
        assert Covers(reports[i], c, s, w);
      }
    }
  }

  lemma RecoveryEvidence(n: nat, S: System, j: nat, r1: Replica, s: nat, reports: map<nat, Entry>)
    requires Recovering(n, S, j, r1) && s >= r1.start && ReportsFor(r1.snapshots, s, reports)
    ensures Evidence(S, n, r1.promise, s, Responders(r1.snapshots), reports)
  {
    forall i | i in Responders(r1.snapshots)
      ensures i in Below(n) && S.replicas[i].promise >= r1.promise
      ensures i in reports ==> ReportSound(S, n, r1.promise, s, i, reports[i])
      ensures forall c: nat, w :: c < r1.promise && Voted(S.net, i, c, s, w) ==>
        Blocked(S, n, c, s, w) || (i in reports && Covers(reports[i].(slot := s), c, s, w))
    {
      OneResponder(n, S, j, r1, s, reports, i);
    }
  }

  /** No responder reports a slot above the recovered range, so nothing can be chosen there. */
  lemma AboveRecovered(n: nat, S: System, j: nat, r1: Replica, top: int, s: nat, c: nat, w: Value)
    requires Recovering(n, S, j, r1) && IsMaxHigh(r1, top) && s > top && c < r1.promise
    ensures Blocked(S, n, c, s, w)
  {
    forall i, e | i in Responders(r1.snapshots) && Reported(r1.snapshots[i], e) ensures e.slot != s {
      var f := ResponderEvidence(n, S, j, r1, i);
      assert e in f.entries;
    }
    assert ReportsFor(r1.snapshots, s, map[]);
    RecoveryEvidence(n, S, j, r1, s, map[]);
    SilenceIsSafe(S, n, r1.promise, s, Responders(r1.snapshots), c, w);
  }
}
