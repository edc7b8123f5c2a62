/**
  Runs of one KCensus slot: any number of proposers, competing ballots and messages delivered
  late, out of order, several times or never. Processes do not restart.
*/
module KCensusSystem {
  import opened KCensusPlan
  import opened KCensus
  import opened Quorums

  /** `proposals` records the value each process has proposed fast in the slot. */
  datatype System = System(voters: seq<Voter>, net: set<Msg>, proposals: map<nat, Value>)

  datatype Action =
    | Receive(m: Msg)
    | Proposes(v: Value)
    | StartInitial
    | StartRecovery
    | Census(v: Value)
    | Retry

  ghost predicate InitSystem(plan: Plan, s: System) {
    && |s.voters| == plan.voters
    && (forall i :: 0 <= i < |s.voters| ==> s.voters[i] == FRESH)
    && s.net == {} && s.proposals == map[]
  }

  function Deliver(plan: Plan, id: nat, x: Voter, m: Msg): (Voter, set<Msg>)
    requires Shaped(plan) && id < plan.voters
  {
    match m
    case Commit(_, v) => (Decide(x, v), {})
    case Spread(_, _, _, _, _, _, _) => if GraphInput(plan, id, x, m) then OnSpread(plan, id, x, m) else (x, {})
    case Abandon(_, _) => (OnAbandon(plan, id, x, m), {})
    case Prepare(_, _) => OnPrepare(plan, id, x, m)
    case Promise(_, _, _) => (OnPromise(plan, id, x, m), {})
    case Accept(_, _, _) => OnAccept(plan, id, x, m)
    case Accepted(_, _, _) => OnAccepted(plan, id, x, m)
    case Nack(_, _) => (OnNack(id, x, m), {})
  }

  ghost predicate Acts(plan: Plan, id: nat, x: Voter, net: set<Msg>, a: Action, x': Voter, out: set<Msg>)
    requires Shaped(plan) && id < plan.voters
  {
    match a
    case Receive(m) =>
      m in net && (m.Commit? || x.decided.None?) && (x', out) == Deliver(plan, id, x, m)
    case Proposes(v) => CanPropose(x) && (x', out) == Propose(plan, id, x, v)
    case StartInitial => CanStartInitial(plan, id, x) && (x', out) == (BeginCensus(x, plan.voters + id), {})
    case StartRecovery =>
      x.decided.None? && (x', out) ==
        (BeginCensus(x, RecoveryBallot(plan.voters, id, x)), {Prepare(id, RecoveryBallot(plan.voters, id, x))})
    case Census(v) => CanCensus(plan, x) && CensusSelects(plan, x, v) && (x', out) == Select(id, x, v)
    case Retry =>
      x' == x && out == (if x.phase == 1 then {Prepare(id, x.ballot)}
                         else if x.phase == 2 && x.selected.Some? then {Accept(id, x.ballot, x.selected.value)} else {})
  }

  ghost predicate VoterStep(plan: Plan, s: System, s': System, i: nat, a: Action, out: set<Msg>) {
    && Shaped(plan) && i < plan.voters && |s.voters| == |s'.voters| == plan.voters
    && Acts(plan, i, s.voters[i], s.net, a, s'.voters[i], out)
    && s' == System(s.voters[i := s'.voters[i]], s.net + out,
                    if a.Proposes? then s.proposals[i := a.v] else s.proposals)
  }

  /** A process without a vote proposes at most once per slot, by starting its schedule. */
  ghost predicate ClientStep(plan: Plan, s: System, s': System, p: nat, v: Value) {
    && Shaped(plan) && plan.voters <= p < |plan.reqs| && p !in s.proposals
    && s' == System(s.voters, s.net + (set e | e in Outgoing(plan, p, p, 0) :: Spread(p, p, e, false, {p}, [], v)),
                    s.proposals[p := v])
  }

  ghost predicate Next(plan: Plan, s: System, s': System) {
    || (exists i: nat, a, out :: VoterStep(plan, s, s', i, a, out))
    || (exists p: nat, v: Value :: ClientStep(plan, s, s', p, v))
  }
}
