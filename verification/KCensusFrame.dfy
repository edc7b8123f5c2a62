/**
  What other voters and sent messages keep when one voter acts: acceptance is never withdrawn,
  knowledge freezes for good and promises only rise, so every claim about the past stays true.
*/
module KCensusFrame {
  import opened KCensusPlan
  import opened KCensus
  import opened KCensusSystem
  import opened KCensusSafety
  import opened Quorums

  predicate VoterGrows(x: Voter, y: Voter) {
    && (x.fast.Some? ==> y.fast == x.fast) && x.time <= y.time && x.promised <= y.promised
    && (x.frozen ==> y.frozen && y.fast == x.fast && y.time == x.time)
  }

  /** Only voter `i` has acted. */
  ghost predicate Acted(plan: Plan, S: System, T: System, i: nat) {
    && i < |S.voters| == |T.voters| == plan.voters
    && (forall j: nat :: j < |S.voters| && j != i ==> T.voters[j] == S.voters[j])
    && VoterGrows(S.voters[i], T.voters[i])
    && S.net <= T.net
    && (forall p: nat :: p in S.proposals ==> p in T.proposals && T.proposals[p] == S.proposals[p])
    && (forall p: nat :: p in T.proposals && p !in S.proposals ==> p == i || p >= plan.voters)
    && (forall a: nat, b: nat, v: Value :: Accept(a, b, v) in T.net && Accept(a, b, v) !in S.net ==> a == i)
    && (forall a: nat, c: nat, v: Value :: Voted(T.net, a, c, v) && !Voted(S.net, a, c, v) ==> a == i && c >= S.voters[i].promised)
  }

  lemma VotersGrow(plan: Plan, S: System, T: System, i: nat, j: nat)
    requires Acted(plan, S, T, i) && j < |S.voters|
    ensures VoterGrows(S.voters[j], T.voters[j])
  {
  }

  lemma TookStays(plan: Plan, S: System, T: System, i: nat)
    requires Acted(plan, S, T, i)
    ensures forall v: nat, p: nat :: Took(S, v, p) ==> Took(T, v, p)
    ensures forall v: nat, p: nat, j: nat :: Reached(S, v, p, j) ==> Reached(T, v, p, j)
    ensures forall p: nat, e :: Scheduled(plan, S, p, e) ==> Scheduled(plan, T, p, e)
  {
  }

  lemma SoundStays(plan: Plan, S: System, T: System, i: nat, p: nat, v: nat, j: nat)
    requires Acted(plan, S, T, i) && Shaped(plan) && IsState(plan, p, v, j) && Sound(plan, S, p, v, j)
    ensures Sound(plan, T, p, v, j)
  {
    TookStays(plan, S, T, i);
  }

  lemma FastBlockedStays(plan: Plan, S: System, T: System, i: nat, p: nat)
    requires Acted(plan, S, T, i) && Shaped(plan) && p < |plan.reqs| && FastBlocked(plan, S, p)
    ensures FastBlocked(plan, T, p)
  {
    var v :| v in CommitQuorum(plan, p) && Stuck(plan, S, v, p);
    VotersGrow(plan, S, T, i, v);
    assert Stuck(plan, T, v, p);
  }

  lemma BlockedStays(plan: Plan, S: System, T: System, i: nat, c: nat, v: Value)
    requires Acted(plan, S, T, i) && Blocked(plan, S, c, v)
    ensures Blocked(plan, T, c, v)
  {
    forall a | a in Blockers(plan, S, c, v) ensures a in Blockers(plan, T, c, v) {
      VotersGrow(plan, S, T, i, a);
    }
    SubsetSize(Blockers(plan, S, c, v), Blockers(plan, T, c, v));
  }

  lemma SafeStays(plan: Plan, S: System, T: System, i: nat, b: nat, v: Value)
    requires Acted(plan, S, T, i) && Shaped(plan) && Safe(plan, S, b, v)
    ensures Safe(plan, T, b, v)
  {
    forall c: nat, w: Value | c < b && w != v ensures Blocked(plan, T, c, w) {
      BlockedStays(plan, S, T, i, c, w);
    }
    forall p: nat | p < |plan.reqs| ensures FastBlocked(plan, T, p) || (p in T.proposals && T.proposals[p] == v) {
      if FastBlocked(plan, S, p) { FastBlockedStays(plan, S, T, i, p); }
    }
  }

  lemma ChosenAtStays(plan: Plan, S: System, T: System, c: nat, v: Value)
    requires S.net <= T.net && ChosenAt(plan, S.net, c, v)
    ensures ChosenAt(plan, T.net, c, v)
  {
    SubsetSize(VotersFor(plan, S.net, c, v), VotersFor(plan, T.net, c, v));
  }

  lemma ChosenStays(plan: Plan, S: System, T: System, i: nat, v: Value)
    requires Acted(plan, S, T, i) && Shaped(plan) && Chosen(plan, S, v)
    ensures Chosen(plan, T, v)
  {
    if p: nat :| p < |plan.reqs| && p in S.proposals && S.proposals[p] == v && FastChosen(plan, S, p) {
      TookStays(plan, S, T, i);
      assert FastChosen(plan, T, p);
    } else {
      var c: nat :| ChosenAt(plan, S.net, c, v);
      ChosenAtStays(plan, S, T, c, v);
    }
  }

  lemma TrueStays(plan: Plan, S: System, T: System, i: nat, r: Report)
    requires Acted(plan, S, T, i) && TrueReport(plan, S, r)
    ensures TrueReport(plan, T, r)
  {
    VotersGrow(plan, S, T, i, r.voter);
    forall c: nat, v: Value | r.accepted < c < r.ballot ensures !Voted(T.net, r.voter, c, v) {
      assert !Voted(S.net, r.voter, c, v);
    }
  }

  lemma MsgStays(plan: Plan, S: System, T: System, i: nat, m: Msg)
    requires Acted(plan, S, T, i) && Shaped(plan) && MsgOk(plan, S, m)
    ensures MsgOk(plan, T, m)
  {
    match m
    case Spread(_, p, e, _, _, evidence, _) =>
      TookStays(plan, S, T, i);
      forall r | r in evidence ensures TrueReport(plan, T, r) { TrueStays(plan, S, T, i, r); }
    case Promise(_, _, r) => TrueStays(plan, S, T, i, r);
    case Accept(_, b, v) => SafeStays(plan, S, T, i, b, v);
    case Commit(_, v) => ChosenStays(plan, S, T, i, v);
    case _ =>
  }

  lemma ClassicStays(plan: Plan, S: System, T: System, i: nat, j: nat)
    requires Acted(plan, S, T, i) && j < |S.voters| && j != i && ClassicInv(plan, S, j)
    ensures ClassicInv(plan, T, j)
  {
    forall c: nat, v: Value | Voted(T.net, j, c, v)
      ensures T.voters[j].frozen && c <= T.voters[j].accepted && (c == T.voters[j].accepted ==> T.voters[j].classic == Some(v))
    {
      assert Voted(S.net, j, c, v);
    }
  }

  lemma FastStays(plan: Plan, S: System, T: System, i: nat, j: nat)
    requires Acted(plan, S, T, i) && Shaped(plan) && j < |S.voters| && j != i && FastInv(plan, S, j)
    ensures FastInv(plan, T, j)
  {
    TookStays(plan, S, T, i);
  }

  lemma CauseStays(plan: Plan, S: System, T: System, i: nat, j: nat)
    requires Acted(plan, S, T, i) && Shaped(plan) && j < |S.voters| && j != i && CauseInv(plan, S, j)
    ensures CauseInv(plan, T, j)
  {
    TookStays(plan, S, T, i);
    forall p: nat, k: nat | IsState(plan, p, j, k) && Reached(T, j, p, k) ensures Sound(plan, T, p, j, k) {
      assert Reached(S, j, p, k);
      SoundStays(plan, S, T, i, p, j, k);
    }
    forall p: nat | p < |plan.reqs| && Last(plan, p, j) > 0 && Reached(T, j, p, Last(plan, p, j))
      ensures T.voters[j].frozen && T.voters[j].promised >= plan.voters + plan.leaders[p]
      ensures forall c: nat, v: Value :: c < plan.voters + plan.leaders[p] ==> !Voted(T.net, j, c, v)
    {
      assert Reached(S, j, p, Last(plan, p, j));
      forall c: nat, v: Value | c < plan.voters + plan.leaders[p] ensures !Voted(T.net, j, c, v) {
        assert !Voted(S.net, j, c, v);
      }
    }
  }

  lemma EvidenceStays(plan: Plan, S: System, T: System, i: nat, j: nat)
    requires Acted(plan, S, T, i) && j < |S.voters| && j != i && EvidenceInv(plan, S, j)
    ensures EvidenceInv(plan, T, j)
  {
    forall w: nat | w in T.voters[j].reports
      ensures T.voters[j].reports[w].voter == w && TrueReport(plan, T, T.voters[j].reports[w])
    {
      TrueStays(plan, S, T, i, S.voters[j].reports[w]);
    }
  }

  lemma LeaderStays(plan: Plan, S: System, T: System, i: nat, j: nat)
    requires Acted(plan, S, T, i) && j < |S.voters| && j != i && LeaderInv(plan, S, j)
    ensures LeaderInv(plan, T, j)
  {
    forall b: nat, v: Value | Accept(j, b, v) in T.net ensures Accept(j, b, v) in S.net {
    }
  }

  lemma VoterStays(plan: Plan, S: System, T: System, i: nat, j: nat)
    requires Acted(plan, S, T, i) && Shaped(plan) && j < |S.voters| && j != i && VoterInv(plan, S, j)
    ensures VoterInv(plan, T, j)
  {
    ClassicStays(plan, S, T, i, j);
    FastStays(plan, S, T, i, j);
    CauseStays(plan, S, T, i, j);
    EvidenceStays(plan, S, T, i, j);
    LeaderStays(plan, S, T, i, j);
    if S.voters[j].decided.Some? { ChosenStays(plan, S, T, i, S.voters[j].decided.value); }
  }

  /** The invariant is kept when the acting voter and the messages it sends keep it. */
  lemma Keep(plan: Plan, S: System, T: System, i: nat)
    requires CoreInv(plan, S) && Acted(plan, S, T, i)
    requires VoterInv(plan, T, i)
    requires forall m :: m in T.net && m !in S.net ==> MsgOk(plan, T, m)
    ensures CoreInv(plan, T)
  {
    forall m | m in T.net ensures MsgOk(plan, T, m) {
      if m in S.net { MsgStays(plan, S, T, i, m); }
    }
    forall j: nat | j < plan.voters ensures VoterInv(plan, T, j) {
      if j != i { VoterStays(plan, S, T, i, j); }
    }
  }

  // The acting voter, where it leaves its votes and evidence alone

  /** Only the decision and the voter's own census may differ. */
  predicate SameEvidence(x: Voter, y: Voter) {
    y == x.(decided := y.decided, ballot := y.ballot, phase := y.phase, selected := y.selected, acks := y.acks)
  }

  lemma SoundUnmoved(plan: Plan, S: System, T: System, i: nat)
    requires Shaped(plan) && Acted(plan, S, T, i) && CauseInv(plan, S, i)
    requires T.voters[i].fast == S.voters[i].fast && T.voters[i].time == S.voters[i].time
    ensures forall p: nat, k: nat :: IsState(plan, p, i, k) && Reached(T, i, p, k) ==> Sound(plan, T, p, i, k)
  {
    forall p: nat, k: nat | IsState(plan, p, i, k) && Reached(T, i, p, k) ensures Sound(plan, T, p, i, k) {
      assert Reached(S, i, p, k);
      SoundStays(plan, S, T, i, p, i, k);
    }
  }

  lemma FinalUnmoved(plan: Plan, S: System, T: System, i: nat)
    requires Shaped(plan) && Acted(plan, S, T, i) && CauseInv(plan, S, i)
    requires T.voters[i].fast == S.voters[i].fast && T.voters[i].time == S.voters[i].time
    ensures forall p: nat :: p < |plan.reqs| && Last(plan, p, i) > 0 && Reached(T, i, p, Last(plan, p, i)) ==>
              T.voters[i].frozen && T.voters[i].promised >= plan.voters + plan.leaders[p]
              && forall c: nat, v: Value :: c < plan.voters + plan.leaders[p] ==> !Voted(T.net, i, c, v)
  {
    forall p: nat | p < |plan.reqs| && Last(plan, p, i) > 0 && Reached(T, i, p, Last(plan, p, i))
      ensures T.voters[i].frozen && T.voters[i].promised >= plan.voters + plan.leaders[p]
      ensures forall c: nat, v: Value :: c < plan.voters + plan.leaders[p] ==> !Voted(T.net, i, c, v)
    {
      assert Reached(S, i, p, Last(plan, p, i));
      forall c: nat, v: Value | c < plan.voters + plan.leaders[p] ensures !Voted(T.net, i, c, v) {
        assert !Voted(S.net, i, c, v);
      }
    }
  }

  lemma ReceivedUnmoved(plan: Plan, S: System, T: System, i: nat)
    requires Shaped(plan) && Acted(plan, S, T, i) && CauseInv(plan, S, i) && T.voters[i].received == S.voters[i].received
    ensures !T.voters[i].frozen ==> forall p: nat, e :: e in ReceivedOf(T.voters[i], p) ==> Scheduled(plan, T, p, e)
  {
    TookStays(plan, S, T, i);
    assert forall p: nat :: ReceivedOf(T.voters[i], p) == ReceivedOf(S.voters[i], p);
  }

  lemma CauseUnmoved(plan: Plan, S: System, T: System, i: nat)
    requires Shaped(plan) && Acted(plan, S, T, i) && CauseInv(plan, S, i)
    requires T.voters[i].fast == S.voters[i].fast && T.voters[i].time == S.voters[i].time && T.voters[i].received == S.voters[i].received
    ensures CauseInv(plan, T, i)
  {
    SoundUnmoved(plan, S, T, i);
    FinalUnmoved(plan, S, T, i);
    ReceivedUnmoved(plan, S, T, i);
  }

  lemma FastUnmoved(plan: Plan, S: System, T: System, i: nat)
    requires Shaped(plan) && Acted(plan, S, T, i) && FastInv(plan, S, i)
    requires SameEvidence(S.voters[i], T.voters[i]) && (i in T.proposals ==> i in S.proposals)
    ensures FastInv(plan, T, i)
  {
    assert forall p: nat :: CursorOf(T.voters[i], p) == CursorOf(S.voters[i], p);
    assert i in S.proposals ==> Took(S, i, i);
  }

  lemma EvidenceUnmoved(plan: Plan, S: System, T: System, i: nat)
    requires Acted(plan, S, T, i) && EvidenceInv(plan, S, i) && SameEvidence(S.voters[i], T.voters[i])
    ensures EvidenceInv(plan, T, i)
  {
    forall w: nat | w in T.voters[i].reports ensures TrueReport(plan, T, T.voters[i].reports[w]) {
      TrueStays(plan, S, T, i, S.voters[i].reports[w]);
    }
  }

  lemma ClassicUnmoved(plan: Plan, S: System, T: System, i: nat)
    requires Acted(plan, S, T, i) && ClassicInv(plan, S, i) && SameEvidence(S.voters[i], T.voters[i])
    requires forall c: nat, v: Value :: Voted(T.net, i, c, v) ==> Voted(S.net, i, c, v)
    ensures ClassicInv(plan, T, i)
  {
  }

  /** A step that leaves votes and evidence alone keeps the invariant if the voter's own census does. */
  lemma UnmovedKeep(plan: Plan, S: System, T: System, i: nat)
    requires CoreInv(plan, S) && Acted(plan, S, T, i) && SameEvidence(S.voters[i], T.voters[i])
    requires i in T.proposals ==> i in S.proposals
    requires forall c: nat, v: Value :: Voted(T.net, i, c, v) ==> Voted(S.net, i, c, v)
    requires LeaderInv(plan, T, i) && (T.voters[i].decided.Some? ==> Chosen(plan, T, T.voters[i].decided.value))
    requires forall m :: m in T.net && m !in S.net ==> MsgOk(plan, T, m)
    ensures CoreInv(plan, T)
  {
    assert ClassicInv(plan, T, i) && FastInv(plan, T, i) && CauseInv(plan, T, i) && EvidenceInv(plan, T, i) by {
      assert VoterInv(plan, S, i);
      ClassicUnmoved(plan, S, T, i);
      FastUnmoved(plan, S, T, i);
      CauseUnmoved(plan, S, T, i);
      EvidenceUnmoved(plan, S, T, i);
    }
    Keep(plan, S, T, i);
  }
}
