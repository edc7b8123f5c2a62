/**
  Freshness of local reads. A read answered under local authority reflects every write to its key
  that any leader in any ballot had committed when the read was submitted.

  A write of a higher ballot cannot have been committed, by lease exclusion. One of the reader's own
  ballot was accepted by every responder of its keys, so the reader waits for its slot. One of a
  lower ballot lies at or below the thresholds that authority requires to be executed.
*/
module BodegaReads {
  import opened Bodega
  import opened BodegaSystem
  import opened BodegaLeases
  import opened BodegaLeaseSteps
  import opened BodegaRosters
  import opened BodegaSafety
  import opened BodegaFrame
  import opened BodegaLogs
  import opened BodegaSteps
  import opened BodegaLeading
  import opened Quorums

  // Commits

  /** A recorded commit was accepted by a majority and by every responder of its keys. */
  ghost predicate Covered(net: set<Msg>, n: nat, w: Committed, r: Roster) {
    && Sent(net, r) && r.ballot == w.ballot
    && ResponderCover(r, w.value) <= VotersFor(net, n, w.ballot, w.slot, w.value)
  }

  /** The leader that committed a write knows it while it stays in its ballot. */
  ghost predicate LeaderKnows(c: Config, S: System, w: Committed)
    requires |S.replicas| == c.n
  {
    forall l: nat :: l < c.n && Ballot(S.replicas[l]) == w.ballot && Leader(S.replicas[l]) == l ==>
      w.slot in S.replicas[l].log.committed && w.slot in S.replicas[l].log.entries
      && S.replicas[l].log.entries[w.slot].value == w.value
  }

  ghost predicate CommitOk(c: Config, S: System, w: Committed)
    requires |S.replicas| == c.n
  {
    && w.slot > 0 && w.ballot > 0 && ChosenAt(S.net, c.n, w.ballot, w.slot, w.value)
    && (exists r :: Covered(S.net, c.n, w, r)) && LeaderKnows(c, S, w)
  }

  /** What is stated of a read against the writes it has seen committed. */
  predicate Reflects(key: int, slot: nat, prefix: nat, seen: set<Committed>) {
    forall w :: w in seen && Writes(w.value, key) ==> w.slot <= slot || w.slot <= prefix
  }

  ghost predicate ReadsOf(S: System, i: nat)
    requires i < |S.replicas|
  {
    var x := S.replicas[i];
    forall q :: q in x.held ==> Reflects(x.held[q].key, x.held[q].slot, x.log.prefix, x.held[q].seen)
  }

  /** An answer reflects its reader's commits, and if not the state machine's it is a decided write of the key. */
  ghost predicate ServedOk(c: Config, S: System, v: Served) {
    && Reflects(v.key, v.slot, v.prefix, v.seen)
    && (v.answer.None? ==> v.slot <= v.prefix)
    && (v.answer.Some? ==> v.prefix < v.slot && Writes(v.answer.value, v.key) && exists b: nat :: DecidedBy(S.net, c.n, b, v.slot, v.answer.value))
  }

  ghost predicate ReadInv(c: Config, S: System) {
    && |S.replicas| == c.n
    && (forall w :: w in S.commits ==> CommitOk(c, S, w))
    && (forall i: nat :: i < c.n ==> ReadsOf(S, i))
    && (forall v :: v in S.served ==> ServedOk(c, S, v))
  }

  ghost predicate Inv(c: Config, S: System) {
    RosterInv(c, S) && LeaseInv(c, S) && PaxosInv(c, S) && ReadInv(c, S)
  }

  // Freshness at submission

  lemma {:induction false} LatestAtLeast(es: map<nat, Entry>, key: int, top: nat, s: nat)
    requires 0 < s <= top && s in es && Writes(es[s].value, key)
    ensures s <= LatestFrom(es, key, top)
    decreases top
  {
    if !(top in es && Writes(es[top].value, key)) { LatestAtLeast(es, key, top - 1, s); }
  }

  lemma WrittenKey(v: Value, key: int)
    ensures Writes(v, key) <==> key in KeysWritten(v)
  {
  }

  /** A committed write is of the stable reader's ballot or a lower one, and then below its prefix. */
  lemma NoHigherCommit(c: Config, S: System, i: nat, w: Committed)
    requires RosterInv(c, S) && LeaseInv(c, S) && PaxosInv(c, S) && i < c.n && Stable(S.replicas[i], c.n, S.now)
    requires ChosenAt(S.net, c.n, w.ballot, w.slot, w.value)
    ensures w.ballot <= Ballot(S.replicas[i])
    ensures w.ballot < Ballot(S.replicas[i]) ==> w.slot <= S.replicas[i].log.prefix
  {
    LeaseExclusion(c, S, i);
    var m, q := Supporters(S.replicas[i], S.now), VotersFor(S.net, c.n, w.ballot, w.slot, w.value);
    Intersect(c.n, m, q);
    var p :| p in m && p in q;
    assert MsgOk(c, S, Accepted(p, w.ballot, w.slot, w.value));
    OwnParts(c, S, p);
  }

  /** A responder has accepted every write of its ballot that was committed. */
  lemma ResponderAccepted(c: Config, S: System, i: nat, w: Committed, key: int)
    requires RosterInv(c, S) && PaxosInv(c, S) && ReadInv(c, S) && i < c.n && w in S.commits && w.ballot == Ballot(S.replicas[i])
    requires Writes(w.value, key) && i in RespondersFor(S.replicas[i].lease.current, key)
    ensures w.slot <= Latest(S.replicas[i].log, key)
  {
    var x := S.replicas[i];
    assert CommitOk(c, S, w);
    var r :| Covered(S.net, c.n, w, r);
    assert RosterOf(S, i);
    OneRosterSent(c, S, r, x.lease.current);
    WrittenKey(w.value, key);
    assert i in ResponderCover(r, w.value);
    assert Voted(S.net, i, w.ballot, w.slot, w.value);
    OwnParts(c, S, i);
    LatestAtLeast(x.log.entries, key, x.log.high, w.slot);
  }

  lemma OneRosterSent(c: Config, S: System, r: Roster, q: Roster)
    requires RosterInv(c, S) && Sent(S.net, r) && Sent(S.net, q) && r.ballot == q.ballot
    ensures r == q
  {
  }

  /** The leader of a ballot knows what was committed in it. */
  lemma LeaderCommitted(c: Config, S: System, i: nat, w: Committed, key: int)
    requires PaxosInv(c, S) && ReadInv(c, S) && i < c.n && w in S.commits && w.ballot == Ballot(S.replicas[i])
    requires Writes(w.value, key) && Leader(S.replicas[i]) == i
    ensures w.slot <= LatestCommitted(S.replicas[i].log, key)
  {
    var x := S.replicas[i];
    assert CommitOk(c, S, w);
    assert LeaderKnows(c, S, w);
    OwnParts(c, S, i);
    var es := map s | s in x.log.entries && s in x.log.committed :: x.log.entries[s];
    LatestAtLeast(es, key, x.log.high, w.slot);
  }

  /** The theorem of local reads: the slot a reader waits for, or its prefix, covers all commits to the key. */
  lemma FreshRead(c: Config, S: System, i: nat, key: int, w: Committed)
    requires Inv(c, S) && i < c.n && CanRead(S.replicas[i], c.n, key, S.now) && w in S.commits && Writes(w.value, key)
    ensures w.slot <= ReadSlot(S.replicas[i], key) || w.slot <= S.replicas[i].log.prefix
  {
    assert CommitOk(c, S, w);
    NoHigherCommit(c, S, i, w);
    if w.ballot == Ballot(S.replicas[i]) {
      if Leader(S.replicas[i]) == i { LeaderCommitted(c, S, i, w, key); } else { ResponderAccepted(c, S, i, w, key); }
    }
  }

  // What is executed

  /** Committed slots hold the same value at all replicas, and the value that was recorded. */
  lemma CommittedAgree(c: Config, S: System, i: nat, j: nat, s: nat)
    requires PaxosInv(c, S) && i < c.n && j < c.n && s in S.replicas[i].log.committed && s in S.replicas[j].log.committed
    ensures s in S.replicas[i].log.entries && s in S.replicas[j].log.entries
    ensures S.replicas[i].log.entries[s].value == S.replicas[j].log.entries[s].value
  {
    OwnParts(c, S, i);
    OwnParts(c, S, j);
    OneDecidedBy(c, S, Ballot(S.replicas[i]), Ballot(S.replicas[j]), s,
                 S.replicas[i].log.entries[s].value, S.replicas[j].log.entries[s].value);
  }

  lemma ExecutedWrite(c: Config, S: System, i: nat, w: Committed)
    requires Inv(c, S) && i < c.n && w in S.commits && w.slot <= S.replicas[i].log.prefix
    ensures w.slot in S.replicas[i].log.entries && S.replicas[i].log.entries[w.slot].value == w.value
  {
    assert CommitOk(c, S, w);
    OwnParts(c, S, i);
    assert DecidedBy(S.net, c.n, w.ballot, w.slot, w.value);
    OneDecidedBy(c, S, Ballot(S.replicas[i]), w.ballot, w.slot, S.replicas[i].log.entries[w.slot].value, w.value);
  }
}
