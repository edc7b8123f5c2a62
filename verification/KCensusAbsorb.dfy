/** What a schedule message does before the schedule advances keeps the invariant. */
module KCensusAbsorb {
  import opened KCensusPlan
  import opened KCensus
  import opened KCensusSystem
  import opened KCensusSafety
  import opened KCensusFrame
  import opened KCensusSteps
  import opened Quorums

  lemma OneParticipant(s: set<nat>, p: nat)
    requires p in s
    ensures |s| >= 1 && (|s| == 1 ==> s == {p})
  {
    SubsetSize({p}, s);
    if |s| == 1 && s != {p} {
      var q :| q in s && q != p;
      SubsetSize({p, q}, s);
    }
  }

  /** What receiving the value of `p` does to a voter. */
  predicate Offered(x: Voter, y: Voter, p: nat) {
    && p in y.values && p in y.participants && (y.frozen || y.fast.Some?)
    && y.cursor == x.cursor && y.received == x.received && y.decided == x.decided
    && (x.frozen || x.fast.Some? ==> y.fast == x.fast && y.time == x.time) && (x.frozen ==> y.frozen)
    && (y.fast != x.fast ==> !y.frozen && y.participants == {p} && y.time == 0 && y.fast.Some? && y.fast.value.proposer == p)
    && (x.participants <= x.values.Keys ==> y.participants <= y.values.Keys)
  }

  lemma GraphValueShape(plan: Plan, i: nat, x: Voter, p: nat, v: Value)
    ensures Offered(x, GraphValue(plan, i, x, p, v), p)
  {
    OneParticipant(x.participants + {p}, p);
  }

  predicate Takes(x: Voter, p: nat) { x.fast.None? && !x.frozen && |x.participants + {p}| == 1 }

  /** The voter after noting the value of `p`, without accepting it. */
  function Noted(x: Voter, p: nat, v: Value): Voter {
    x.(values := x.values[p := v], participants := x.participants + {p})
  }

  lemma NotedKeep(plan: Plan, S: System, i: nat, p: nat)
    requires CoreInv(plan, S) && i < plan.voters && p < |plan.reqs| && p in S.proposals
    ensures CoreInv(plan, With(S, i, Noted(S.voters[i], p, S.proposals[p])))
  {
    var x := S.voters[i];
    var y := Noted(x, p, S.proposals[p]);
    assert Books(plan, S, i, y) by {
      OwnParts(plan, S, i);
      assert forall q: nat :: ReceivedOf(y, q) == ReceivedOf(x, q);
    }
    BooksKeep(plan, S, i, y);
  }

  lemma GraphValueKeep(plan: Plan, S: System, i: nat, p: nat)
    requires CoreInv(plan, S) && i < plan.voters && p < |plan.reqs| && p in S.proposals
    ensures CoreInv(plan, With(S, i, GraphValue(plan, i, S.voters[i], p, S.proposals[p])))
  {
    var x, v := S.voters[i], S.proposals[p];
    if Takes(x, p) {
      TakeKeep(plan, S, i, p, With(S, i, GraphValue(plan, i, x, p, v)), v);
    } else {
      var y := Noted(x, p, v);
      NotedKeep(plan, S, i, p);
      if |y.participants| > 1 {
        ConflictFreezes(plan, i, y);
        FreezeKeep(plan, With(S, i, y), i, FreezeConflict(plan, i, y));
        WithTwice(S, i, y, FreezeConflict(plan, i, y));
      }
    }
  }

  /** Accepting a value that is proposed, or that this very step proposes. */
  lemma TakeKeep(plan: Plan, S: System, i: nat, p: nat, T: System, v: Value)
    requires CoreInv(plan, S) && i < plan.voters && p < |plan.reqs| && Takes(S.voters[i], p)
    requires T.voters == S.voters[i := GraphValue(plan, i, S.voters[i], p, v)] && T.net == S.net
    requires || (T.proposals == S.proposals && p in S.proposals && S.proposals[p] == v)
             || (p == i && i !in S.proposals && T.proposals == S.proposals[i := v])
    ensures CoreInv(plan, T)
  {
    assert ClassicInv(plan, S, i) by { OwnParts(plan, S, i); }
    AcceptsKeep(plan, S, T, i, p, v);
  }

  // Consuming

  lemma FreezeIfKeep(plan: Plan, S: System, i: nat)
    requires CoreInv(plan, S) && i < plan.voters
    ensures CoreInv(plan, With(S, i, FreezeConflict(plan, i, S.voters[i])))
  {
    ConflictFreezes(plan, i, S.voters[i]);
    FreezeKeep(plan, S, i, FreezeConflict(plan, i, S.voters[i]));
  }

  /** Noting participants and evidence, then freezing: what an explicit message does. */
  function Joined(x: Voter, mask: set<nat>): Voter { x.(participants := x.participants + mask) }

  lemma JoinKeep(plan: Plan, S: System, i: nat, mask: set<nat>)
    requires CoreInv(plan, S) && i < plan.voters
    ensures CoreInv(plan, With(S, i, Joined(S.voters[i], mask)))
  {
    var x := S.voters[i];
    var y := Joined(x, mask);
    assert Books(plan, S, i, y) by {
      OwnParts(plan, S, i);
      assert forall q: nat :: ReceivedOf(y, q) == ReceivedOf(x, q);
    }
    BooksKeep(plan, S, i, y);
  }

  function Warned(plan: Plan, i: nat, x: Voter, mask: set<nat>, rs: seq<Report>): Voter {
    FreezeConflict(plan, i, MergeAll(plan, i, Joined(x, mask), rs))
  }

  lemma WarnKeep(plan: Plan, S: System, i: nat, m: Msg, mask: set<nat>)
    requires CoreInv(plan, S) && i < plan.voters && m.Spread? && m in S.net
    ensures CoreInv(plan, With(S, i, Warned(plan, i, S.voters[i], mask, m.evidence)))
    ensures var x := S.voters[i]; var y := Warned(plan, i, x, mask, m.evidence);
      SameVote(x, y) && y.frozen && y.received == x.received
  {
    var y := Joined(S.voters[i], mask);
    var T := With(S, i, y);
    JoinKeep(plan, S, i, mask);
    assert MsgOk(plan, T, m);
    MergeAllKeep(plan, T, i, m.evidence);
    var z := MergeAll(plan, i, y, m.evidence);
    WithTwice(S, i, y, z);
    FreezeIfKeep(plan, With(S, i, z), i);
    WithTwice(S, i, z, FreezeConflict(plan, i, z));
  }

  /** Recording the message and its proposer. */
  function Marked(x: Voter, m: Msg): Voter
    requires m.Spread?
  {
    x.(received := x.received[m.proposer := ReceivedOf(x, m.proposer) + {m.edge}], participants := x.participants + {m.proposer})
  }

  lemma MarkKeep(plan: Plan, S: System, i: nat, m: Msg)
    requires CoreInv(plan, S) && i < plan.voters && m.Spread? && m in S.net && (m.explicit ==> S.voters[i].frozen)
    ensures CoreInv(plan, With(S, i, Marked(S.voters[i], m)))
  {
    var x := S.voters[i];
    var y := Marked(x, m);
    assert Books(plan, S, i, y) by {
      OwnParts(plan, S, i);
      assert MsgOk(plan, S, m);
      forall p: nat, e | !y.frozen && e in ReceivedOf(y, p) ensures Scheduled(plan, S, p, e) {
        assert e in ReceivedOf(x, p) || (p == m.proposer && e == m.edge);
      }
    }
    BooksKeep(plan, S, i, y);
  }

  /** What consuming a message leaves alone. */
  predicate Consumed(x: Voter, y: Voter, m: Msg)
    requires m.Spread?
  {
    && y.fast == x.fast && y.time == x.time && y.cursor == x.cursor && (x.frozen ==> y.frozen) && y.decided == x.decided
    && x.values.Keys <= y.values.Keys && m.edge in ReceivedOf(y, m.proposer)
    && (x.participants == {m.proposer} && !m.explicit && !x.frozen ==> !y.frozen)
    && (y.frozen || (x.participants <= x.values.Keys && m.proposer in x.values ==> y.participants <= y.values.Keys))
  }

  lemma {:induction false} InferParticipants(plan: Plan, i: nat, x: Voter, p: nat, e: Edge, v: Value, w: nat)
    requires Shaped(plan) && IsState(plan, p, e.src, e.at) && p < |plan.reqs| && w <= plan.voters && p in x.participants
    ensures Infer(plan, i, x, p, e, v, w).participants == x.participants
    decreases plan.voters - w
  {
    if w < plan.voters {
      InferParticipants(plan, i, InferOne(plan, i, x, p, e, v, w), p, e, v, w + 1);
    }
  }

  lemma ConsumeExplicitKeep(plan: Plan, S: System, i: nat, m: Msg)
    requires CoreInv(plan, S) && i < plan.voters && m.Spread? && m in S.net && m.explicit && S.voters[i].frozen
    requires m.proposer < |plan.reqs| && IsState(plan, m.proposer, m.edge.src, m.edge.at)
    ensures CoreInv(plan, With(S, i, Consume(plan, i, S.voters[i], m)))
  {
    var y := Marked(S.voters[i], m);
    MarkKeep(plan, S, i, m);
    WarnKeep(plan, With(S, i, y), i, m, m.mask);
    WithTwice(S, i, y, Warned(plan, i, y, m.mask, m.evidence));
  }

  lemma ConsumeImplicitKeep(plan: Plan, S: System, i: nat, m: Msg)
    requires CoreInv(plan, S) && i < plan.voters && m.Spread? && m in S.net && !m.explicit
    requires m.proposer < |plan.reqs| && IsState(plan, m.proposer, m.edge.src, m.edge.at)
    ensures CoreInv(plan, With(S, i, Consume(plan, i, S.voters[i], m)))
  {
    var p := m.proposer;
    var y := Marked(S.voters[i], m);
    var T := With(S, i, y);
    MarkKeep(plan, S, i, m);
    assert MsgOk(plan, T, m);
    InferKeep(plan, T, i, p, m.edge, 0);
    var z := Infer(plan, i, y, p, m.edge, m.value, 0);
    WithTwice(S, i, y, z);
    if |z.participants| > 1 {
      FreezeIfKeep(plan, With(S, i, z), i);
      WithTwice(S, i, z, FreezeConflict(plan, i, z));
    }
  }

  lemma RestTransitive(x: Voter, y: Voter, z: Voter)
    requires SameRest(x, y) && SameRest(y, z)
    ensures SameRest(x, z)
  {
  }

  lemma {:induction false} MergeAllRest(plan: Plan, i: nat, x: Voter, rs: seq<Report>)
    ensures SameRest(x, MergeAll(plan, i, x, rs))
    decreases |rs|
  {
    if rs != [] {
      var y := Merge(plan, i, x, rs[0]);
      MergeRest(plan, i, x, rs[0]);
      MergeAllRest(plan, i, y, rs[1..]);
      RestTransitive(x, y, MergeAll(plan, i, y, rs[1..]));
    }
  }

  lemma {:induction false} InferRest(plan: Plan, i: nat, x: Voter, p: nat, e: Edge, v: Value, w: nat)
    requires Shaped(plan) && IsState(plan, p, e.src, e.at) && p < |plan.reqs| && w <= plan.voters
    ensures SameRest(x, Infer(plan, i, x, p, e, v, w))
    decreases plan.voters - w
  {
    if w < plan.voters { InferRest(plan, i, InferOne(plan, i, x, p, e, v, w), p, e, v, w + 1); }
  }

  lemma ConsumeShape(plan: Plan, i: nat, x: Voter, m: Msg)
    requires Shaped(plan) && m.Spread? && m.proposer < |plan.reqs| && IsState(plan, m.proposer, m.edge.src, m.edge.at)
    ensures Consumed(x, Consume(plan, i, x, m), m)
  {
    var y := Marked(x, m);
    if m.explicit {
      MergeAllRest(plan, i, Joined(y, m.mask), m.evidence);
    } else {
      InferRest(plan, i, y, m.proposer, m.edge, m.value, 0);
      InferParticipants(plan, i, y, m.proposer, m.edge, m.value, 0);
    }
  }

  // Absorbing

  function Braced(plan: Plan, i: nat, x: Voter, m: Msg): Voter
    requires m.Spread?
  {
    if m.explicit then Warned(plan, i, x, m.mask + {m.proposer}, m.evidence) else x
  }

  lemma AbsorbUnfolds(plan: Plan, i: nat, x: Voter, m: Msg)
    requires Shaped(plan) && GraphInput(plan, i, x, m)
    ensures Absorb(plan, i, x, m) == Consume(plan, i, GraphValue(plan, i, Braced(plan, i, x, m), m.proposer, m.value), m)
  {
    assert x.participants + m.mask + {m.proposer} == x.participants + (m.mask + {m.proposer});
  }

  lemma AbsorbKeep(plan: Plan, S: System, i: nat, m: Msg)
    requires CoreInv(plan, S) && i < plan.voters && m in S.net && GraphInput(plan, i, S.voters[i], m)
    ensures CoreInv(plan, With(S, i, Absorb(plan, i, S.voters[i], m)))
  {
    var x := S.voters[i];
    var x1 := Braced(plan, i, x, m);
    AbsorbUnfolds(plan, i, x, m);
    assert CoreInv(plan, With(S, i, x1)) && (m.explicit ==> x1.frozen) by {
      if m.explicit { WarnKeep(plan, S, i, m, m.mask + {m.proposer}); } else { WithTwice(S, i, x, x); }
    }
    var x2 := GraphValue(plan, i, x1, m.proposer, m.value);
    assert MsgOk(plan, S, m);
    GraphValueKeep(plan, With(S, i, x1), i, m.proposer);
    GraphValueShape(plan, i, x1, m.proposer, m.value);
    WithTwice(S, i, x1, x2);
    if m.explicit {
      ConsumeExplicitKeep(plan, With(S, i, x2), i, m);
    } else {
      ConsumeImplicitKeep(plan, With(S, i, x2), i, m);
    }
    WithTwice(S, i, x2, Consume(plan, i, x2, m));
  }

  /** After absorbing a message the voter has frozen or accepted, and can act on the message. */
  predicate Absorbed(x: Voter, y: Voter, m: Msg)
    requires m.Spread?
  {
    && m.proposer in y.values && m.edge in ReceivedOf(y, m.proposer) && (y.frozen || y.fast.Some?)
    && y.cursor == x.cursor && y.decided == x.decided
    && (x.frozen || x.fast.Some? ==> y.fast == x.fast && y.time == x.time) && (x.frozen ==> y.frozen)
    && (y.fast != x.fast ==> !y.frozen && y.time == 0 && y.fast.Some? && y.fast.value.proposer == m.proposer)
    && (y.frozen || (x.participants <= x.values.Keys ==> y.participants <= y.values.Keys))
  }

  lemma BracedShape(plan: Plan, i: nat, x: Voter, m: Msg)
    requires m.Spread?
    ensures var y := Braced(plan, i, x, m);
      y.fast == x.fast && y.time == x.time && y.cursor == x.cursor && y.decided == x.decided && (x.frozen ==> y.frozen)
      && (if m.explicit then y.frozen else y == x)
  {
    if m.explicit { MergeAllRest(plan, i, Joined(x, m.mask + {m.proposer}), m.evidence); }
  }

  lemma AbsorbShape(plan: Plan, i: nat, x: Voter, m: Msg)
    requires Shaped(plan) && GraphInput(plan, i, x, m)
    ensures Absorbed(x, Absorb(plan, i, x, m), m)
  {
    AbsorbUnfolds(plan, i, x, m);
    var x1 := Braced(plan, i, x, m);
    BracedShape(plan, i, x, m);
    GraphValueShape(plan, i, x1, m.proposer, m.value);
    ConsumeShape(plan, i, GraphValue(plan, i, x1, m.proposer, m.value), m);
  }
}
