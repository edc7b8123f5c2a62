/**
  One KCensus slot at one voter: fast acceptance along a proposer's schedule, freezing, the
  census that follows a conflict, and classic acceptance.
*/
module KCensus {
  import opened Quorums
  import opened KCensusPlan

  datatype Option<+T> = None | Some(value: T)

  /** A value is its unique identifier; payloads are not part of the slot's decision. */
  type Value = nat

  datatype Fast = Fast(proposer: nat, value: Value)

  /**
    A voter's state as evidence. `time` is its position in the proposer's schedule; `ballot` zero
    means not frozen; a classic acceptance replaces the fast one.
  */
  datatype Report = Report(voter: nat, proposer: Option<nat>, ballot: nat, accepted: nat, time: nat, value: Option<Value>)

  datatype Voter = Voter(
    fast: Option<Fast>,
    time: nat,
    frozen: bool,
    conflict: bool,
    participants: set<nat>,
    promised: nat,
    accepted: nat,
    classic: Option<Value>,
    decided: Option<Value>,
    ballot: nat,
    phase: nat,
    selected: Option<Value>,
    acks: set<nat>,
    values: map<nat, Value>,
    cursor: map<nat, nat>,
    received: map<nat, set<Edge>>,
    reports: map<nat, Report>)

  const FRESH := Voter(None, 0, false, false, {}, 0, 0, None, None, 0, 0, None, {}, map[], map[], map[], map[])

  /** Accepted carries the accepted value as a history annotation that receivers do not read. */
  datatype Msg =
    | Spread(sender: nat, proposer: nat, edge: Edge, explicit: bool, mask: set<nat>, evidence: seq<Report>, value: Value)
    | Abandon(sender: nat, mask: set<nat>)
    | Prepare(sender: nat, ballot: nat)
    | Promise(sender: nat, ballot: nat, report: Report)
    | Accept(sender: nat, ballot: nat, value: Value)
    | Accepted(sender: nat, ballot: nat, value: Value)
    | Commit(sender: nat, value: Value)
    | Nack(sender: nat, ballot: nat)

  function CursorOf(x: Voter, p: nat): nat { if p in x.cursor then x.cursor[p] else 0 }

  function ReceivedOf(x: Voter, p: nat): set<Edge> { if p in x.received then x.received[p] else {} }

  function ValueOf(x: Voter, p: nat): Value { if p in x.values then x.values[p] else 0 }

  function Max(a: nat, b: nat): nat { if a >= b then a else b }

  // Evidence

  function OwnReport(id: nat, x: Voter): Report {
    if x.accepted > 0 then Report(id, None, x.promised, x.accepted, 0, x.classic)
    else if x.fast.Some? then Report(id, Some(x.fast.value.proposer), x.promised, 0, x.time, Some(x.fast.value.value))
    else Report(id, None, x.promised, 0, 0, None)
  }

  function SaveOwn(id: nat, x: Voter): Voter {
    x.(reports := x.reports[id := OwnReport(id, x)])
  }

  predicate Newer(a: Report, b: Report) {
    if a.accepted != b.accepted then a.accepted > b.accepted
    else if a.ballot != b.ballot then a.ballot > b.ballot
    else if a.time != b.time then a.time > b.time
    else a.value.Some? && b.value.None?
  }

  /** Reports that name no state of the plan, or a state no voter can be in, are ignored. */
  predicate Admissible(plan: Plan, id: nat, r: Report) {
    && r.voter < plan.voters && r.voter != id && r.accepted <= r.ballot
    && (r.proposer.Some? ==>
          IsState(plan, r.proposer.value, r.voter, r.time) && r.value.Some? && r.accepted == 0)
    && (r.proposer.None? ==> r.time == 0 && (r.accepted > 0 ==> r.value.Some?))
  }

  function Merge(plan: Plan, id: nat, x: Voter, r: Report): Voter {
    if !Admissible(plan, id, r) || (r.voter in x.reports && !Newer(r, x.reports[r.voter])) then x
    else
      var x1 := x.(reports := x.reports[r.voter := r]);
      if r.proposer.Some?
      then x1.(values := x.values[r.proposer.value := r.value.value], participants := x.participants + {r.proposer.value})
      else x1
  }

  function MergeAll(plan: Plan, id: nat, x: Voter, rs: seq<Report>): Voter
    decreases |rs|
  {
    if rs == [] then x else MergeAll(plan, id, Merge(plan, id, x, rs[0]), rs[1..])
  }

  // Freezing

  function FreezeFor(id: nat, x: Voter, ballot: nat): Voter {
    SaveOwn(id, x.(frozen := true, promised := Max(ballot, x.promised)))
  }

  /** The largest delegate among the proposers below `k` that take part. */
  function LeaderBelow(plan: Plan, participants: set<nat>, k: nat): nat
    requires k <= |plan.leaders|
  {
    if k == 0 then 0
    else
      var rest := LeaderBelow(plan, participants, k - 1);
      if k - 1 in participants then Max(plan.leaders[k - 1], rest) else rest
  }

  function FreezeConflict(plan: Plan, id: nat, x: Voter): Voter {
    var x1 := x.(conflict := true);
    if x.participants == {} then FreezeFor(id, x1, x.promised)
    else FreezeFor(id, x1, plan.voters + LeaderBelow(plan, x.participants, |plan.leaders|))
  }

  // The fast path

  function GraphValue(plan: Plan, id: nat, x: Voter, p: nat, v: Value): Voter {
    var x1 := x.(values := x.values[p := v], participants := x.participants + {p});
    var x2 := if x1.fast.None? && !x1.frozen && |x1.participants| == 1
              then SaveOwn(id, x1.(fast := Some(Fast(p, v)), time := 0)) else x1;
    if |x2.participants| > 1 then FreezeConflict(plan, id, x2) else x2
  }

  /** The report a scheduled message implies about voter `w`; final states imply a promise. */
  function Implied(plan: Plan, p: nat, e: Edge, w: nat, v: Value): Report
    requires Shaped(plan) && IsState(plan, p, e.src, e.at) && w < |plan.reqs| && p < |plan.reqs|
  {
    var at := Remote(plan, p, e.src, e.at, w);
    Report(w, Some(p), if at == Last(plan, p, w) then plan.voters + plan.leaders[p] else 0, 0, at, Some(v))
  }

  function Infer(plan: Plan, id: nat, x: Voter, p: nat, e: Edge, v: Value, w: nat): Voter
    requires Shaped(plan) && IsState(plan, p, e.src, e.at) && p < |plan.reqs| && w <= plan.voters
    decreases plan.voters - w
  {
    if w == plan.voters then x
    else
      var x1 := if Remote(plan, p, e.src, e.at, w) != 0 || w == p
                then Merge(plan, id, x, Implied(plan, p, e, w, v)) else x;
      Infer(plan, id, x1, p, e, v, w + 1)
  }

  function Consume(plan: Plan, id: nat, x: Voter, m: Msg): Voter
    requires Shaped(plan) && m.Spread? && m.proposer < |plan.reqs| && IsState(plan, m.proposer, m.edge.src, m.edge.at)
  {
    var p := m.proposer;
    var x1 := x.(received := x.received[p := ReceivedOf(x, p) + {m.edge}], participants := x.participants + {p});
    if m.explicit then
      FreezeConflict(plan, id, MergeAll(plan, id, x1.(participants := x1.participants + m.mask), m.evidence))
    else
      var x2 := Infer(plan, id, x1, p, m.edge, m.value, 0);
      if |x2.participants| > 1 then FreezeConflict(plan, id, x2) else x2
  }

  /** The sender has left the predicted schedule of `p`, so it sends its evidence along. */
  predicate Explicit(plan: Plan, x: Voter, p: nat)
    requires p < |plan.leaders|
  {
    x.conflict || x.accepted != 0 || x.fast.None? || x.fast.value.proposer != p || x.promised > plan.voters + plan.leaders[p]
  }

  /** The evidence held about the voters from `w` on, in voter order. */
  function EvidenceFrom(plan: Plan, reports: map<nat, Report>, w: nat): (rs: seq<Report>)
    ensures forall r :: r in rs ==> r in reports.Values
    decreases plan.voters - w
  {
    if w >= plan.voters then []
    else if w in reports then
      assert reports[w] in reports.Values;
      [reports[w]] + EvidenceFrom(plan, reports, w + 1)
    else EvidenceFrom(plan, reports, w + 1)
  }

  function Emit(plan: Plan, id: nat, x: Voter, p: nat, j: nat): set<Msg>
    requires p < |plan.leaders|
  {
    var explicit := Explicit(plan, x, p);
    var evidence := if explicit then EvidenceFrom(plan, x.reports, 0) else [];
    set e | e in Outgoing(plan, p, id, j) :: Spread(id, p, e, explicit, x.participants, evidence, ValueOf(x, p))
  }

  predicate Ready(plan: Plan, id: nat, x: Voter, p: nat) {
    IsState(plan, p, id, CursorOf(x, p) + 1) && StateOf(plan, p, id, CursorOf(x, p) + 1).deps <= ReceivedOf(x, p)
  }

  /** Entering the next state of a schedule. Knowledge advances only while unfrozen. */
  function Enter(plan: Plan, id: nat, x: Voter, p: nat): Voter
    requires Shaped(plan) && p < |plan.reqs| && id < |plan.reqs| && Ready(plan, id, x, p)
  {
    var j := CursorOf(x, p) + 1;
    var x1 := x.(cursor := x.cursor[p := j]);
    if x.frozen || x.fast.None? || x.fast.value.proposer != p then x1
    else
      var x2 := SaveOwn(id, x1.(time := j));
      if j == Last(plan, p, id) then FreezeFor(id, x2, plan.voters + plan.leaders[p]) else x2
  }

  /** Entering every state whose messages have arrived, and sending what each of them owes. */
  function Advance(plan: Plan, id: nat, x: Voter, p: nat): (Voter, set<Msg>)
    requires Shaped(plan) && p < |plan.reqs| && id < |plan.reqs|
    decreases |plan.graphs[p][id]| - CursorOf(x, p)
  {
    if !Ready(plan, id, x, p) then (x, {})
    else
      var x1 := Enter(plan, id, x, p);
      var (x2, out) := Advance(plan, id, x1, p);
      (x2, Emit(plan, id, x1, p, CursorOf(x1, p)) + out)
  }

  predicate CanCommit(plan: Plan, id: nat, x: Voter)
    requires Shaped(plan)
  {
    && x.fast.Some? && x.decided.None?
    && var p := x.fast.value.proposer;
    && p < |plan.reqs| && plan.leaders[p] == id
    && x.time < |plan.graphs[p][id]| && CoversAll(plan, p, x.time)
  }

  predicate FastCommits(plan: Plan, id: nat, x: Voter, p: nat)
    requires Shaped(plan) && p < |plan.reqs| && id < |plan.reqs|
  {
    && id == plan.leaders[p] && CursorOf(x, p) == Last(plan, p, id) && !x.conflict && |x.participants| == 1
    && x.promised <= plan.voters + plan.leaders[p] && CanCommit(plan, id, x)
  }

  function Decide(x: Voter, v: Value): Voter {
    if x.decided.Some? then x else x.(decided := Some(v))
  }

  predicate LearnPanics(x: Voter, v: Value) { x.decided.Some? && x.decided.value != v }

  // Census

  predicate Frozen(r: Report) { r.ballot != 0 }

  /** The acceptors a frozen report tells not to have accepted another proposer's value. */
  function Held(plan: Plan, r: Report): set<nat>
    requires Shaped(plan) && r.voter < plan.voters
    requires r.proposer.Some? ==> IsState(plan, r.proposer.value, r.voter, r.time)
  {
    if r.proposer.Some? then Knows(plan, r.proposer.value, r.voter, r.time, r.voter) else {r.voter}
  }

  /** A frozen report rules out that `p` was or will be committed fast. */
  predicate Refutes(plan: Plan, p: nat, r: Report)
    requires Shaped(plan) && p < |plan.reqs| && r.voter < plan.voters
    requires r.proposer.Some? ==> IsState(plan, r.proposer.value, r.voter, r.time)
  {
    Frozen(r) &&
    if r.proposer == Some(p) then r.time != Last(plan, p, r.voter)
    else Held(plan, r) * CommitQuorum(plan, p) != {}
  }

  predicate WellReported(plan: Plan, reports: map<nat, Report>) {
    forall w :: w in reports ==>
      && reports[w].voter == w < plan.voters
      && (reports[w].proposer.Some? ==> IsState(plan, reports[w].proposer.value, w, reports[w].time))
  }

  predicate Possible(plan: Plan, reports: map<nat, Report>, p: nat)
    requires Shaped(plan) && p < |plan.reqs| && WellReported(plan, reports)
  {
    forall w :: w in reports ==> !Refutes(plan, p, reports[w])
  }

  predicate NoneAccepted(reports: map<nat, Report>) {
    forall w :: w in reports ==> reports[w].accepted == 0
  }

  predicate IsHighest(reports: map<nat, Report>, w: nat) {
    w in reports && reports[w].accepted > 0 && forall u :: u in reports ==> reports[u].accepted <= reports[w].accepted
  }

  /** `v` is the value a census must adopt: the newest classic one, else of the first possible proposer. */
  ghost predicate Adopts(plan: Plan, reports: map<nat, Report>, values: map<nat, Value>, v: Option<Value>)
    requires Shaped(plan) && WellReported(plan, reports) && forall p :: p in values ==> p < |plan.reqs|
  {
    if !NoneAccepted(reports) then exists w :: IsHighest(reports, w) && v == reports[w].value
    else if v.Some? then
      (exists p :: p in values && v.value == values[p] && Possible(plan, reports, p)
         && forall q :: q in values && q < p ==> !Possible(plan, reports, q))
    else forall p :: p in values ==> !Possible(plan, reports, p)
  }

  function PromisedAt(plan: Plan, reports: map<nat, Report>, b: nat): set<nat> {
    set w | w in reports && w < plan.voters && reports[w].ballot == b
  }

  predicate CanCensus(plan: Plan, x: Voter) {
    && x.phase == 1 && x.promised <= x.ballot && x.decided.None?
    && |PromisedAt(plan, x.reports, x.ballot)| >= plan.voters - Faults(plan)
  }

  /** The value selected: adopted, or new when nothing has to be adopted. */
  ghost predicate CensusSelects(plan: Plan, x: Voter, v: Value)
    requires Shaped(plan)
  {
    && WellReported(plan, x.reports) && (forall p :: p in x.values ==> p < |plan.reqs|)
    && (Adopts(plan, x.reports, x.values, Some(v)) || Adopts(plan, x.reports, x.values, None))
  }

  function Select(id: nat, x: Voter, v: Value): (Voter, set<Msg>) {
    (x.(selected := Some(v), phase := 2, acks := {}), {Accept(id, x.ballot, v)})
  }

  // Ballots

  function BeginCensus(x: Voter, b: nat): Voter {
    x.(ballot := b, phase := 1, acks := {}, selected := None)
  }

  predicate CanStartInitial(plan: Plan, id: nat, x: Voter) {
    x.phase == 0 && x.ballot == 0 && x.promised <= plan.voters + id && x.decided.None?
  }

  function RoundAbove(n: nat, id: nat, b: nat): nat
    requires n > 0
  {
    NextRound(n, b) + id
  }

  function RecoveryBallot(n: nat, id: nat, x: Voter): nat
    requires n > 0
  {
    var b := if x.promised > n + id then RoundAbove(n, id, x.promised) else n + id;
    if b <= x.ballot then RoundAbove(n, id, x.ballot) else b
  }

  // Handlers

  predicate CanPropose(x: Voter) {
    x.fast.None? && x.values == map[] && !x.frozen && x.decided.None?
  }

  predicate GraphInput(plan: Plan, id: nat, x: Voter, m: Msg) {
    && m.Spread? && m.proposer < |plan.reqs| && m.edge.src == m.sender && m.edge.dst == id
    && IsEdge(plan, m.proposer, m.edge) && IsState(plan, m.proposer, m.edge.src, m.edge.at)
    && m.edge !in ReceivedOf(x, m.proposer)
  }

  /** Everything a schedule message does before the schedule advances. */
  function Absorb(plan: Plan, id: nat, x: Voter, m: Msg): Voter
    requires Shaped(plan) && GraphInput(plan, id, x, m)
  {
    var x1 := if m.explicit
              then FreezeConflict(plan, id, MergeAll(plan, id, x.(participants := x.participants + m.mask + {m.proposer}), m.evidence))
              else x;
    Consume(plan, id, GraphValue(plan, id, x1, m.proposer, m.value), m)
  }

  /** The delegate commits when its schedule is complete and undisturbed. */
  function Settle(plan: Plan, id: nat, x: Voter, p: nat): (Voter, set<Msg>)
    requires Shaped(plan) && p < |plan.reqs| && id < |plan.reqs|
  {
    if FastCommits(plan, id, x, p) then (Decide(x, x.fast.value.value), {Commit(id, x.fast.value.value)}) else (x, {})
  }

  function Progress(plan: Plan, id: nat, x: Voter, p: nat): (Voter, set<Msg>)
    requires Shaped(plan) && p < |plan.reqs| && id < |plan.reqs|
  {
    var (x1, out1) := Advance(plan, id, x, p);
    var (x2, out2) := Settle(plan, id, x1, p);
    (x2, out1 + out2)
  }

  function OnSpread(plan: Plan, id: nat, x: Voter, m: Msg): (Voter, set<Msg>)
    requires Shaped(plan) && id < |plan.reqs| && GraphInput(plan, id, x, m)
  {
    Progress(plan, id, Absorb(plan, id, x, m), m.proposer)
  }

  function Propose(plan: Plan, id: nat, x: Voter, v: Value): (Voter, set<Msg>)
    requires Shaped(plan) && id < |plan.reqs|
  {
    var x1 := GraphValue(plan, id, x.(participants := x.participants + {id}), id, v);
    var (x2, out) := Progress(plan, id, x1, id);
    (x2, Emit(plan, id, x1, id, 0) + out)
  }

  function OnAbandon(plan: Plan, id: nat, x: Voter, m: Msg): Voter
    requires m.Abandon?
  {
    FreezeConflict(plan, id, x.(participants := x.participants + m.mask))
  }

  function OnPrepare(plan: Plan, id: nat, x: Voter, m: Msg): (Voter, set<Msg>)
    requires m.Prepare? && plan.voters > 0
  {
    if m.sender >= plan.voters || m.ballot == 0 || Owner(plan.voters, m.ballot) != m.sender then (x, {})
    else if m.ballot < x.promised then (x, {Nack(id, x.promised)})
    else
      var x1 := FreezeFor(id, x.(promised := m.ballot), m.ballot).(conflict := true);
      (x1, {Promise(id, m.ballot, OwnReport(id, x1))} + (if x.conflict then {} else {Abandon(id, x.participants)}))
  }

  function OnPromise(plan: Plan, id: nat, x: Voter, m: Msg): Voter
    requires m.Promise?
  {
    if m.sender >= plan.voters then x
    else
      var x1 := if m.report.proposer.Some? && m.report.value.Some?
                then x.(values := x.values[m.report.proposer.value := m.report.value.value]) else x;
      Merge(plan, id, x1, m.report)
  }

  predicate AcceptPanics(x: Voter, m: Msg)
    requires m.Accept?
  {
    m.ballot >= x.promised && x.accepted == m.ballot && x.classic != Some(m.value)
  }

  function OnAccept(plan: Plan, id: nat, x: Voter, m: Msg): (Voter, set<Msg>)
    requires m.Accept? && plan.voters > 0
  {
    if m.sender >= plan.voters || m.ballot == 0 || Owner(plan.voters, m.ballot) != m.sender then (x, {})
    else if m.ballot < x.promised then (x, {Nack(id, x.promised)})
    else (FreezeFor(id, x.(promised := m.ballot, accepted := m.ballot, classic := Some(m.value)), m.ballot),
          {Accepted(id, m.ballot, m.value)})
  }

  predicate CountsAck(plan: Plan, x: Voter, m: Msg)
    requires m.Accepted?
  {
    m.sender < plan.voters && x.phase == 2 && m.ballot == x.ballot && x.promised <= x.ballot && x.selected.Some?
  }

  function OnAccepted(plan: Plan, id: nat, x: Voter, m: Msg): (Voter, set<Msg>)
    requires m.Accepted?
  {
    if !CountsAck(plan, x, m) then (x, {})
    else
      var x1 := Merge(plan, id, x.(acks := x.acks + {m.sender}), Report(m.sender, None, m.ballot, m.ballot, 0, x.selected));
      if |x1.acks| < plan.voters - Faults(plan) then (x1, {})
      else (Decide(x1, x.selected.value), {Commit(id, x.selected.value)})
  }

  function OnNack(id: nat, x: Voter, m: Msg): Voter
    requires m.Nack?
  {
    if m.ballot > x.promised then FreezeFor(id, x, m.ballot).(conflict := true) else x
  }
}
