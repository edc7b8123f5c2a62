/**
  A KCensus slot as it runs: an object whose handlers update its fields, in loops over voters,
  proposers and schedule states. Every method is proved against the function of the protocol
  model that describes it.
*/
module KCensusSlot {
  import opened KCensusPlan
  import opened KCensus
  import opened KCensusAbsorb
  import opened KCensusSpread
  import opened KCensusHandlers
  import opened Quorums

  /** Having reached `x` and sent `out`, a schedule that started at `start` has the rest of `x` to go. */
  ghost predicate IsRest(plan: Plan, id: nat, start: Voter, x: Voter, p: nat, out: set<Msg>)
    requires Shaped(plan) && p < |plan.reqs| && id < |plan.reqs|
  {
    && Advance(plan, id, start, p).0 == Advance(plan, id, x, p).0
    && Advance(plan, id, start, p).1 == out + Advance(plan, id, x, p).1
  }

  lemma RestUnfolds(plan: Plan, id: nat, start: Voter, x: Voter, p: nat, out: set<Msg>)
    requires Shaped(plan) && p < |plan.reqs| && id < |plan.reqs| && Ready(plan, id, x, p) && IsRest(plan, id, start, x, p, out)
    ensures var y := Enter(plan, id, x, p); IsRest(plan, id, start, y, p, out + Emit(plan, id, y, p, CursorOf(y, p)))
  {
    AdvanceUnfolds(plan, id, x, p);
  }

  class Slot {
    const plan: Plan
    const id: nat
    var fast: Option<Fast>
    var time: nat
    var frozen: bool
    var conflict: bool
    var participants: set<nat>
    var promised: nat
    var accepted: nat
    var classic: Option<Value>
    var decided: Option<Value>
    var ballot: nat
    var phase: nat
    var selected: Option<Value>
    var acks: set<nat>
    var values: map<nat, Value>
    var cursor: map<nat, nat>
    var received: map<nat, set<Edge>>
    var reports: map<nat, Report>

    /** The voter of the protocol model that this object stands for. */
    ghost function State(): Voter
      reads this
    {
      Voter(fast, time, frozen, conflict, participants, promised, accepted, classic, decided, ballot, phase, selected, acks,
            values, cursor, received, reports)
    }

    ghost predicate Planned() { Shaped(plan) && id < plan.voters }

    constructor (plan: Plan, id: nat)
      requires Shaped(plan) && id < plan.voters
      ensures Planned() && this.plan == plan && this.id == id && State() == FRESH
    {
      this.plan, this.id := plan, id;
      fast, time, frozen, conflict, participants := None, 0, false, false, {};
      promised, accepted, classic, decided := 0, 0, None, None;
      ballot, phase, selected, acks := 0, 0, None, {};
      values, cursor, received, reports := map[], map[], map[], map[];
    }

    // Evidence

    method SaveOwnState()
      modifies this`reports
      ensures State() == SaveOwn(id, old(State()))
    {
      var r := Report(id, None, promised, accepted, 0, None);
      if accepted > 0 {
        r := r.(value := classic);
      } else if fast.Some? {
        r := r.(proposer := Some(fast.value.proposer), value := Some(fast.value.value), time := time);
      }
      reports := reports[id := r];
    }

    method MergeReport(r: Report)
      requires Planned()
      modifies this`reports, this`values, this`participants
      ensures State() == Merge(plan, id, old(State()), r)
    {
      if r.voter >= plan.voters || r.voter == id || r.accepted > r.ballot { return; }
      if r.proposer.Some? {
        if !IsState(plan, r.proposer.value, r.voter, r.time) || r.value.None? || r.accepted != 0 { return; }
      } else if r.time != 0 || (r.accepted > 0 && r.value.None?) {
        return;
      }
      if r.voter in reports && !Newer(r, reports[r.voter]) { return; }
      reports := reports[r.voter := r];
      if r.proposer.Some? {
        values := values[r.proposer.value := r.value.value];
        participants := participants + {r.proposer.value};
      }
    }

    method MergeReports(rs: seq<Report>)
      requires Planned()
      modifies this`reports, this`values, this`participants
      ensures State() == MergeAll(plan, id, old(State()), rs)
    {
      for k := 0 to |rs|
        invariant MergeAll(plan, id, State(), rs[k..]) == MergeAll(plan, id, old(State()), rs)
        modifies this`reports, this`values, this`participants
      {
        assert rs[k..][0] == rs[k] && rs[k..][1..] == rs[k + 1..];
        MergeReport(rs[k]);
      }
      assert rs[|rs|..] == [];
    }

    // Freezing

    method FreezeForBallot(b: nat)
      modifies this`frozen, this`promised, this`reports
      ensures State() == FreezeFor(id, old(State()), b)
    {
      frozen := true;
      if b > promised { promised := b; }
      SaveOwnState();
    }

    /** The largest delegate among the proposers that take part. */
    method ConflictLeader() returns (leader: nat)
      requires Planned()
      ensures leader == LeaderBelow(plan, participants, |plan.leaders|)
    {
      leader := 0;
      for p := 0 to |plan.leaders|
        invariant leader == LeaderBelow(plan, participants, p)
      {
        if p in participants && plan.leaders[p] > leader { leader := plan.leaders[p]; }
      }
    }

    method FreezeOnConflict()
      requires Planned()
      modifies this`frozen, this`conflict, this`promised, this`reports
      ensures State() == FreezeConflict(plan, id, old(State()))
    {
      conflict := true;
      if participants == {} {
        FreezeForBallot(promised);
      } else {
        var leader := ConflictLeader();
        FreezeForBallot(plan.voters + leader);
      }
    }
  
    // The fast path

    method ReceiveValue(p: nat, v: Value)
      requires Planned()
      modifies this`values, this`participants, this`fast, this`time, this`frozen, this`conflict, this`promised, this`reports
      ensures State() == GraphValue(plan, id, old(State()), p, v)
    {
      values := values[p := v];
      participants := participants + {p};
      if fast.None? && !frozen && |participants| == 1 {
        fast, time := Some(Fast(p, v)), 0;
        SaveOwnState();
      }
      if |participants| > 1 { FreezeOnConflict(); }
    }

    /** Merges what a scheduled message implies about every voter. */
    method InferReports(p: nat, e: Edge, v: Value)
      requires Planned() && p < |plan.reqs| && IsState(plan, p, e.src, e.at)
      modifies this`reports, this`values, this`participants
      ensures State() == Infer(plan, id, old(State()), p, e, v, 0)
    {
      var w := 0;
      while w < plan.voters
        invariant w <= plan.voters && Infer(plan, id, State(), p, e, v, w) == Infer(plan, id, old(State()), p, e, v, 0)
        modifies this`reports, this`values, this`participants
      {
        var at := Remote(plan, p, e.src, e.at, w);
        if at != 0 || w == p {
          var b := if at == Last(plan, p, w) then plan.voters + plan.leaders[p] else 0;
          MergeReport(Report(w, Some(p), b, 0, at, Some(v)));
        }
        w := w + 1;
      }
    }

    method ConsumeMessage(m: Msg)
      requires Planned() && m.Spread? && m.proposer < |plan.reqs| && IsState(plan, m.proposer, m.edge.src, m.edge.at)
      modifies this`received, this`participants, this`values, this`frozen, this`conflict, this`promised, this`reports
      ensures State() == Consume(plan, id, old(State()), m)
    {
      var p := m.proposer;
      received := received[p := (if p in received then received[p] else {}) + {m.edge}];
      participants := participants + {p};
      if m.explicit {
        participants := participants + m.mask;
        MergeReports(m.evidence);
        FreezeOnConflict();
      } else {
        InferReports(p, m.edge, m.value);
        if |participants| > 1 { FreezeOnConflict(); }
      }
    }

    /** The messages due on entering a state, with evidence if this voter has left the schedule. */
    method EmitMessages(p: nat, j: nat) returns (out: set<Msg>)
      requires Planned() && p < |plan.leaders|
      ensures out == Emit(plan, id, State(), p, j)
    {
      var explicit := conflict || accepted != 0 || fast.None? || fast.value.proposer != p || promised > plan.voters + plan.leaders[p];
      var evidence := [];
      if explicit { evidence := CollectEvidence(); }
      var v := if p in values then values[p] else 0;
      out := set e | e in Outgoing(plan, p, id, j) :: Spread(id, p, e, explicit, participants, evidence, v);
    }

    method CollectEvidence() returns (rs: seq<Report>)
      ensures rs == EvidenceFrom(plan, reports, 0)
    {
      rs := [];
      var w := 0;
      while w < plan.voters
        invariant w <= plan.voters && rs + EvidenceFrom(plan, reports, w) == EvidenceFrom(plan, reports, 0)
      {
        if w in reports { rs := rs + [reports[w]]; }
        w := w + 1;
      }
    }

    /** Enters every state whose messages have arrived; knowledge follows while unfrozen. */
    method AdvanceSchedule(p: nat) returns (out: set<Msg>)
      requires Planned() && p < |plan.reqs|
      modifies this`cursor, this`time, this`frozen, this`promised, this`reports
      ensures (State(), out) == Advance(plan, id, old(State()), p)
    {
      out := {};
      ghost var start := State();
      assert out + Advance(plan, id, start, p).1 == Advance(plan, id, start, p).1;
      var ready := IsReady(p);
      while ready
        invariant ready <==> Ready(plan, id, State(), p)
        invariant IsRest(plan, id, start, State(), p, out)
        decreases |plan.graphs[p][id]| - CursorOf(State(), p)
        modifies this`cursor, this`time, this`frozen, this`promised, this`reports
      {
        ghost var x := State();
        EnterState(p);
        var sent := EmitMessages(p, if p in cursor then cursor[p] else 0);
        RestUnfolds(plan, id, start, x, p, out);
        out := out + sent;
        ready := IsReady(p);
      }
    }

    /** The messages that the next state of a schedule waits for have arrived. */
    method IsReady(p: nat) returns (ok: bool)
      requires Planned() && p < |plan.reqs|
      ensures ok <==> Ready(plan, id, State(), p)
    {
      var at := if p in cursor then cursor[p] else 0;
      if at + 1 >= |plan.graphs[p][id]| { return false; }
      var arrived := if p in received then received[p] else {};
      return plan.graphs[p][id][at + 1].deps <= arrived;
    }

    method EnterState(p: nat)
      requires Planned() && p < |plan.reqs| && Ready(plan, id, State(), p)
      modifies this`cursor, this`time, this`frozen, this`promised, this`reports
      ensures State() == Enter(plan, id, old(State()), p)
      ensures CursorOf(State(), p) == old(CursorOf(State(), p)) + 1
    {
      var j := (if p in cursor then cursor[p] else 0) + 1;
      cursor := cursor[p := j];
      if !frozen && fast.Some? && fast.value.proposer == p {
        time := j;
        SaveOwnState();
        if j == |plan.graphs[p][id]| - 1 { FreezeForBallot(plan.voters + plan.leaders[p]); }
      }
    }

    /** The delegate's knowledge covers the requirement of the proposal it accepted. */
    method MayCommit() returns (ok: bool)
      requires Planned()
      ensures ok <==> CanCommit(plan, id, State())
    {
      if fast.None? || decided.Some? { return false; }
      var p := fast.value.proposer;
      if p >= |plan.reqs| || plan.leaders[p] != id || time >= |plan.graphs[p][id]| { return false; }
      for w := 0 to |plan.reqs|
        invariant forall x :: 0 <= x < w && x < |plan.reqs[p]| ==> plan.reqs[p][x] <= Knows(plan, p, id, time, x)
      {
        if w < |plan.reqs[p]| && !(plan.reqs[p][w] <= plan.graphs[p][id][time].knowledge[w]) { return false; }
      }
      return true;
    }

    method LearnValue(v: Value)
      modifies this`decided
      ensures State() == Decide(old(State()), v)
    {
      if decided.None? { decided := Some(v); }
    }

    method SettleSchedule(p: nat) returns (out: set<Msg>)
      requires Planned() && p < |plan.reqs|
      modifies this`decided
      ensures (State(), out) == Settle(plan, id, old(State()), p)
    {
      out := {};
      var may := MayCommit();
      var at := if p in cursor then cursor[p] else 0;
      if id == plan.leaders[p] && at == |plan.graphs[p][id]| - 1 && !conflict && |participants| == 1
         && promised <= plan.voters + plan.leaders[p] && may {
        out := {Commit(id, fast.value.value)};
        LearnValue(fast.value.value);
      }
    }

    /** An explicit message's evidence of a conflict is taken in before its value. */
    method BraceFor(m: Msg)
      requires Planned() && m.Spread?
      modifies this`participants, this`reports, this`values, this`frozen, this`conflict, this`promised
      ensures State() == Braced(plan, id, old(State()), m)
    {
      if m.explicit {
        participants := participants + (m.mask + {m.proposer});
        MergeReports(m.evidence);
        FreezeOnConflict();
      }
    }

    /** The value and the evidence of a schedule message. */
    method AbsorbMessage(m: Msg)
      requires Planned() && GraphInput(plan, id, State(), m)
      modifies this
      ensures State() == Absorb(plan, id, old(State()), m)
    {
      AbsorbUnfolds(plan, id, State(), m);
      BraceFor(m);
      ReceiveValue(m.proposer, m.value);
      ConsumeMessage(m);
    }

    /** Enters all states that can be entered, and commits if that completes the schedule. */
    method MakeProgress(p: nat) returns (out: set<Msg>)
      requires Planned() && p < |plan.reqs|
      modifies this`cursor, this`time, this`frozen, this`promised, this`reports, this`decided
      ensures (State(), out) == Progress(plan, id, old(State()), p)
    {
      var sent := AdvanceSchedule(p);
      out := SettleSchedule(p);
      out := sent + out;
    }

    method ReceiveSpread(m: Msg) returns (out: set<Msg>)
      requires Planned() && GraphInput(plan, id, State(), m)
      modifies this
      ensures (State(), out) == OnSpread(plan, id, old(State()), m)
    {
      AbsorbMessage(m);
      out := MakeProgress(m.proposer);
    }

    /** Starts this voter's own schedule with its value. */
    method ProposeValue(v: Value) returns (out: set<Msg>)
      requires Planned()
      modifies this
      ensures (State(), out) == Propose(plan, id, old(State()), v)
    {
      ProposeUnfolds(plan, id, State(), v);
      TakeOwn(v);
      var first := EmitMessages(id, 0);
      out := MakeProgress(id);
      out := first + out;
    }

    method TakeOwn(v: Value)
      requires Planned()
      modifies this`values, this`participants, this`fast, this`time, this`frozen, this`conflict, this`promised, this`reports
      ensures State() == GraphValue(plan, id, Joined(old(State()), {id}), id, v)
    {
      participants := participants + {id};
      ReceiveValue(id, v);
    }

    // Census

    /** The voters that have promised the census ballot are a majority. */
    method PromiseQuorum() returns (ok: bool)
      ensures ok <==> |PromisedAt(plan, reports, ballot)| >= plan.voters - Faults(plan)
    {
      var voters: set<nat> := {};
      for w := 0 to plan.voters
        invariant forall x: nat :: x in voters <==> x < w && x in reports && reports[x].ballot == ballot
      {
        if w in reports && reports[w].ballot == ballot { voters := voters + {w}; }
      }
      assert voters == PromisedAt(plan, reports, ballot);
      return |voters| >= plan.voters - plan.voters / 2;
    }

    /** No frozen report refutes `p`. */
    method IsPossible(p: nat) returns (ok: bool)
      requires Planned() && p < |plan.reqs| && WellReported(plan, reports)
      ensures ok <==> Possible(plan, reports, p)
    {
      var l := plan.leaders[p];
      var quorum := plan.graphs[p][l][|plan.graphs[p][l]| - 1].knowledge[l];
      var rest := reports.Keys;
      while rest != {}
        invariant rest <= reports.Keys && forall w :: w in reports && w !in rest ==> !Refutes(plan, p, reports[w])
        decreases |rest|
      {
        var w :| w in rest;
        rest := rest - {w};
        var r := reports[w];
        if r.ballot != 0 {
          if r.proposer != Some(p) {
            var knowledge := if r.proposer.Some? then plan.graphs[r.proposer.value][w][r.time].knowledge[w] else {w};
            if knowledge * quorum != {} {
              assert Refutes(plan, p, r);
              return false;
            }
          } else if r.time != |plan.graphs[p][w]| - 1 {
            return false;
          }
        }
      }
      return true;
    }

    /** The newest classic acceptance reported; a panic if two differ. */
    method HighestAccepted() returns (highest: nat, chosen: Option<Value>, panics: bool)
      ensures !panics && highest == 0 ==> NoneAccepted(reports)
      ensures !panics && highest > 0 ==> exists w :: IsHighest(reports, w) && chosen == reports[w].value
      ensures panics ==> exists v, w :: v in reports && w in reports && reports[v].accepted == reports[w].accepted > 0
                                        && reports[v].value != reports[w].value
    {
      highest, chosen, panics := 0, None, false;
      var rest := reports.Keys;
      while rest != {}
        invariant rest <= reports.Keys && forall w :: w in reports && w !in rest ==> reports[w].accepted <= highest
        invariant highest > 0 ==> exists w :: w in reports && w !in rest && reports[w].accepted == highest && reports[w].value == chosen
        decreases |rest|
      {
        var w :| w in rest;
        rest := rest - {w};
        var r := reports[w];
        if r.accepted > highest {
          highest, chosen := r.accepted, r.value;
        } else if highest > 0 && r.accepted == highest && chosen != r.value {
          return highest, chosen, true;
        }
      }
      assert forall w :: w in reports ==> reports[w].accepted <= highest;
    }

    /** The value a census has to adopt, if any. */
    method AdoptValue() returns (v: Option<Value>, panics: bool)
      requires Planned() && WellReported(plan, reports) && forall p :: p in values ==> p < |plan.reqs|
      ensures !panics ==> Adopts(plan, reports, values, v)
      ensures panics ==> exists v, w :: v in reports && w in reports && reports[v].accepted == reports[w].accepted > 0
                                        && reports[v].value != reports[w].value
    {
      var highest: nat;
      highest, v, panics := HighestAccepted();
      if panics || highest > 0 { return; }
      v := FirstPossible();
    }

    method FirstPossible() returns (v: Option<Value>)
      requires Planned() && WellReported(plan, reports) && (forall p :: p in values ==> p < |plan.reqs|) && NoneAccepted(reports)
      ensures Adopts(plan, reports, values, v)
    {
      for p := 0 to |plan.reqs|
        invariant forall q :: q in values && q < p ==> !Possible(plan, reports, q)
      {
        if p in values {
          var possible := IsPossible(p);
          if possible { return Some(values[p]); }
        }
      }
      return None;
    }

    /** Selects a value for the ballot: the adopted one, or `batch` when nothing has to be adopted. */
    method CompleteCensus(batch: Value) returns (out: set<Msg>, panics: bool)
      requires Planned() && WellReported(plan, reports) && (forall p :: p in values ==> p < |plan.reqs|) && decided.None?
      modifies this`selected, this`phase, this`acks
      ensures panics || !CanCensus(plan, old(State())) ==> State() == old(State()) && out == {}
      ensures !panics && CanCensus(plan, old(State())) ==>
                exists v :: CensusSelects(plan, old(State()), v) && (State(), out) == Select(id, old(State()), v)
    {
      out, panics := {}, false;
      var enough := PromiseQuorum();
      if phase != 1 || promised > ballot || !enough { return; }
      var v: Option<Value>;
      v, panics := AdoptValue();
      if panics { return; }
      var chosen := if v.Some? then v.value else batch;
      assert CensusSelects(plan, State(), chosen);
      selected, phase, acks := Some(chosen), 2, {};
      out := {Accept(id, ballot, chosen)};
    }

    // Classic messages

    method ReceivePrepare(m: Msg) returns (out: set<Msg>)
      requires Planned() && m.Prepare?
      modifies this`promised, this`frozen, this`reports, this`conflict
      ensures (State(), out) == OnPrepare(plan, id, old(State()), m)
    {
      OwnerIsRemainder(plan.voters, m.ballot);
      out := {};
      if m.sender >= plan.voters || m.ballot == 0 || m.ballot % plan.voters != m.sender { return; }
      if m.ballot < promised { return {Nack(id, promised)}; }
      promised := m.ballot;
      FreezeForBallot(m.ballot);
      if !conflict {
        conflict := true;
        out := {Abandon(id, participants)};
      }
      out := {Promise(id, m.ballot, reports[id])} + out;
    }

    method ReceivePromise(m: Msg)
      requires Planned() && m.Promise?
      modifies this`reports, this`values, this`participants
      ensures State() == OnPromise(plan, id, old(State()), m)
    {
      if m.sender >= plan.voters { return; }
      if m.report.proposer.Some? && m.report.value.Some? { values := values[m.report.proposer.value := m.report.value.value]; }
      MergeReport(m.report);
    }

    method ReceiveAccept(m: Msg) returns (out: set<Msg>)
      requires Planned() && m.Accept?
      modifies this`promised, this`frozen, this`reports, this`accepted, this`classic
      ensures (State(), out) == OnAccept(plan, id, old(State()), m)
    {
      OwnerIsRemainder(plan.voters, m.ballot);
      out := {};
      if m.sender >= plan.voters || m.ballot == 0 || m.ballot % plan.voters != m.sender { return; }
      if m.ballot < promised { return {Nack(id, promised)}; }
      frozen, promised, accepted, classic := true, m.ballot, m.ballot, Some(m.value);
      FreezeForBallot(m.ballot);
      out := {Accepted(id, m.ballot, m.value)};
    }

    method ReceiveAccepted(m: Msg) returns (out: set<Msg>)
      requires Planned() && m.Accepted? && decided.None?
      modifies this`reports, this`values, this`participants, this`acks, this`decided
      ensures (State(), out) == OnAccepted(plan, id, old(State()), m)
    {
      out := {};
      if m.sender >= plan.voters || phase != 2 || m.ballot != ballot || promised > ballot || selected.None? { return; }
      acks := acks + {m.sender};
      MergeReport(Report(m.sender, None, m.ballot, m.ballot, 0, selected));
      if |acks| >= plan.voters - plan.voters / 2 {
        out := {Commit(id, selected.value)};
        LearnValue(selected.value);
      }
    }

    method ReceiveNack(m: Msg)
      requires m.Nack?
      modifies this`promised, this`frozen, this`reports, this`conflict
      ensures State() == OnNack(id, old(State()), m)
    {
      if m.ballot > promised {
        FreezeForBallot(m.ballot);
        conflict := true;
      }
    }

    method ReceiveAbandon(m: Msg)
      requires Planned() && m.Abandon?
      modifies this`participants, this`frozen, this`conflict, this`promised, this`reports
      ensures State() == OnAbandon(plan, id, old(State()), m)
    {
      participants := participants + m.mask;
      FreezeOnConflict();
    }

    /** A new census in a ballot of this voter's own, above all it has used or promised. */
    method StartRecovery() returns (out: set<Msg>)
      requires Planned() && decided.None?
      modifies this`ballot, this`phase, this`acks, this`selected
      ensures State() == BeginCensus(old(State()), RecoveryBallot(plan.voters, id, old(State())))
      ensures out == {Prepare(id, RecoveryBallot(plan.voters, id, old(State())))}
    {
      NextRoundIsMultiple(plan.voters, promised);
      NextRoundIsMultiple(plan.voters, ballot);
      var b := plan.voters + id;
      if promised > b { b := (promised / plan.voters + 1) * plan.voters + id; }
      if b <= ballot { b := (ballot / plan.voters + 1) * plan.voters + id; }
      ballot, phase, acks, selected := b, 1, {}, None;
      out := {Prepare(id, b)};
    }
  }
}
