/**
  The Bodega replica: Paxos under rosters that name a leader and, per key, the responders that may
  answer reads locally. Leases keep a roster from being replaced while such a read may be served.

  Time is one monotone clock. A lease holder relies on a lease that counts from its own request; the
  grantor waits `lease + margin` from the answer on.
*/
module Bodega {

  datatype Option<+T> = None | Some(value: T)

  datatype Config = Config(n: nat, lease: nat, margin: nat)

  // Rosters

  datatype Range = Range(lo: int, hi: int, mask: set<nat>)

  datatype Roster = Roster(ballot: nat, leader: nat, mask: set<nat>, ranges: seq<Range>)

  const NO_ROSTER := Roster(0, 0, {}, [])

  /** The mask of the first range that ends at or after the key, if it holds the key. */
  function Override(ranges: seq<Range>, key: int): Option<set<nat>> {
    if ranges == [] then None
    else if ranges[0].hi >= key then (if ranges[0].lo <= key then Some(ranges[0].mask) else None)
    else Override(ranges[1..], key)
  }

  function RespondersFor(r: Roster, key: int): set<nat> {
    (if Override(r.ranges, key).Some? then Override(r.ranges, key).value else r.mask) + {r.leader}
  }

  predicate ValidRoster(r: Roster, n: nat) { r.ballot > 0 && r.leader < n && r.leader in r.mask }

  // Entries

  datatype Request = Put(id: nat, key: int, data: nat) | Get(id: nat, key: int) | Nothing

  /** A slot holds a batch of requests. */
  type Value = seq<Request>

  const NOOP: Value := [Nothing]

  datatype Entry = Entry(ballot: nat, value: Value)

  predicate Writes(v: Value, key: int) { exists k :: 0 <= k < |v| && v[k].Put? && v[k].key == key }

  function KeysWritten(v: Value): set<int> { set k | 0 <= k < |v| && v[k].Put? :: v[k].key }

  // State

  datatype Grant = Grant(until: nat, threshold: nat)

  datatype Snapshot = Snapshot(start: nat, entries: map<nat, Entry>)

  /** A write that a leader has committed: history, for stating what a read reflects. */
  datatype Committed = Committed(slot: nat, ballot: nat, value: Value)

  /** A read waiting for its slot. `seen` is history: the writes committed when it was submitted. */
  datatype Held = Held(key: int, slot: nat, seen: set<Committed>)

  /** Rosters, and the leases taken (`incoming`) and granted (`outgoing`). */
  datatype Lease = Lease(
    current: Roster,
    pending: Option<Roster>,
    threshold: nat,
    incoming: map<nat, Grant>,
    outgoing: map<nat, nat>,
    requests: map<nat, nat>,
    sequence: nat,
    revoked: map<nat, nat>)

  datatype Log = Log(
    entries: map<nat, Entry>,
    committed: set<nat>,
    prefix: nat,
    high: nat,
    next: nat,
    noticePrefix: nat,
    noticeSlots: set<nat>)

  /** A leader's recovery and the votes for its proposals; the evidence a follower has frozen. */
  datatype Lead = Lead(
    prepared: bool,
    prepareStart: nat,
    snapshot: Option<Snapshot>,
    snapshots: map<nat, map<nat, Entry>>,
    votes: map<nat, set<nat>>)

  datatype Replica = Replica(id: nat, lease: Lease, log: Log, lead: Lead, held: map<nat, Held>)

  /**
    Lease messages carry the time the lease ends and Accepted the accepted value as history
    annotations that receivers do not read.
  */
  datatype Msg =
    | Heartbeat(sender: nat, roster: Roster)
    | LeaseRequest(sender: nat, ballot: nat, sequence: nat, until: nat)
    | LeaseReply(sender: nat, ballot: nat, to: nat, sequence: nat, threshold: nat, until: nat)
    | LeaseRevoke(sender: nat, to: nat, ballot: nat)
    | LeaseRevoked(sender: nat, to: nat, ballot: nat)
    | Prepare(sender: nat, ballot: nat, start: nat)
    | Promise(sender: nat, ballot: nat, start: nat, entries: map<nat, Entry>)
    | Accept(sender: nat, ballot: nat, slot: nat, value: Value)
    | Accepted(sender: nat, ballot: nat, slot: nat, value: Value)
    | Commit(sender: nat, ballot: nat, prefix: nat, slot: nat)
    | CommittedEntry(sender: nat, ballot: nat, slot: nat, value: Value)

  function Init(id: nat): Replica {
    Replica(id, Lease(NO_ROSTER, None, 0, map[], map[], map[], 0, map[]), Log(map[], {}, 0, 0, 0, 0, {}),
            Lead(false, 0, None, map[], map[]), map[])
  }

  function Max(a: nat, b: nat): nat { if a >= b then a else b }

  function Majority(n: nat): nat { n / 2 + 1 }

  function Ballot(x: Replica): nat { x.lease.current.ballot }

  function Leader(x: Replica): nat { x.lease.current.leader }

  predicate Active(x: Replica) { Ballot(x) != 0 && x.lease.pending.None? }

  function Promised(l: Lease): nat {
    if l.pending.Some? then Max(l.pending.value.ballot, l.current.ballot) else l.current.ballot
  }

  function RevokedBallot(l: Lease, p: nat): nat { if p in l.revoked then l.revoked[p] else 0 }

  // Authority

  /** The grantors whose lease holds and whose threshold has been executed, with oneself. */
  function Supporters(x: Replica, now: nat): set<nat> {
    (set p | p in x.lease.incoming && p != x.id && now < x.lease.incoming[p].until && x.log.prefix >= x.lease.incoming[p].threshold)
    + (if x.log.prefix >= x.lease.threshold then {x.id} else {})
  }

  predicate Stable(x: Replica, n: nat, now: nat) {
    Active(x) && |Supporters(x, now)| >= Majority(n)
  }

  predicate LocalReadAuthority(x: Replica, n: nat, now: nat) {
    (Leader(x) != x.id || x.lead.prepared) && Stable(x, n, now)
  }

  // The log

  function LatestFrom(entries: map<nat, Entry>, key: int, s: nat): (t: nat)
    ensures t <= s
  {
    if s == 0 then 0 else if s in entries && Writes(entries[s].value, key) then s else LatestFrom(entries, key, s - 1)
  }

  /** The newest slot of the log that writes the key, zero if none does. */
  function Latest(l: Log, key: int): nat { LatestFrom(l.entries, key, l.high) }

  function LatestCommitted(l: Log, key: int): nat {
    LatestFrom(map s | s in l.entries && s in l.committed :: l.entries[s], key, l.high)
  }

  predicate AcceptPanics(l: Log, s: nat, e: Entry) {
    s in l.entries && (l.entries[s].ballot > e.ballot || (l.entries[s].ballot == e.ballot && l.entries[s].value != e.value)
                       || (s in l.committed && l.entries[s].value != e.value))
  }

  /** Slots are numbered from one. A changed value is no longer committed. */
  function AcceptEntry(l: Log, s: nat, e: Entry): Log {
    if s == 0 then l
    else
      l.(entries := l.entries[s := e], high := Max(l.high, s), next := Max(l.next, s),
         committed := if s in l.entries && l.entries[s].value != e.value then l.committed - {s} else l.committed)
  }

  function Unexecuted(l: Log): set<nat> { set s | s in l.committed && s > l.prefix }

  /** Executes committed slots in order. */
  function Apply(l: Log): Log
    decreases |Unexecuted(l)|
  {
    if l.prefix + 1 !in l.committed then l
    else
      var y := l.(prefix := l.prefix + 1);
      assert Unexecuted(y) == Unexecuted(l) - {l.prefix + 1} && l.prefix + 1 in Unexecuted(l);
      Apply(y)
  }

  function MarkCommitted(l: Log, s: nat): Log { l.(committed := l.committed + {s}) }

  // Rosters and leases

  predicate MayInstall(l: Lease, now: nat) {
    l.pending.Some? && forall p :: p in l.outgoing ==> l.outgoing[p] <= now
  }

  function InstallLease(l: Lease, high: nat): Lease
    requires l.pending.Some?
  {
    l.(current := l.pending.value, pending := None, threshold := high, outgoing := map[], incoming := map[])
  }

  function InstallLog(l: Log): Log { l.(noticePrefix := 0, noticeSlots := {}) }

  /** A new ballot starts without votes; its leader freezes its own evidence at once. */
  function InstallLead(d: Lead, l: Log, id: nat, leads: bool): Lead {
    var start := l.prefix + 1;
    var e := d.(snapshots := map[], snapshot := None, prepareStart := start, votes := map[]);
    if leads then e.(snapshot := Some(Snapshot(start, Suffix(l.entries, start))), snapshots := map[id := Suffix(l.entries, start)]) else e
  }

  /** Moves on to the pending roster once no lease granted in the current one is in force. */
  function Install(x: Replica, now: nat): (Replica, set<Msg>) {
    if !MayInstall(x.lease, now) then (x, {})
    else
      var lease := InstallLease(x.lease, x.log.high);
      var leads := lease.current.leader == x.id;
      (Replica(x.id, lease, InstallLog(x.log), InstallLead(x.lead, x.log, x.id, leads), map[]),
       if leads then {Prepare(x.id, lease.current.ballot, x.log.prefix + 1)} else {})
  }

  function Observe(x: Replica, n: nat, r: Roster, now: nat): (Replica, set<Msg>) {
    if !ValidRoster(r, n) || r.ballot <= Promised(x.lease) then (x, {})
    else Install(x.(lease := x.lease.(pending := Some(r), incoming := map[], requests := map[]),
                    lead := x.lead.(prepared := false)), now)
  }

  /** Asks peers to give up the leases they hold. */
  function Revocations(x: Replica, now: nat): set<Msg> {
    if x.lease.pending.None? then {}
    else set p | p in x.lease.outgoing && now < x.lease.outgoing[p] :: LeaseRevoke(x.id, p, Ballot(x))
  }

  function OnLeaseRequest(x: Replica, c: Config, m: Msg, now: nat): (Replica, set<Msg>)
    requires m.LeaseRequest?
  {
    (x.(lease := x.lease.(outgoing := x.lease.outgoing[m.sender := now + c.lease + c.margin])),
     {LeaseReply(x.id, Ballot(x), m.sender, m.sequence, x.lease.threshold, m.until)})
  }

  predicate Relies(x: Replica, m: Msg, now: nat)
    requires m.LeaseReply?
  {
    && m.to == x.id && m.sequence in x.lease.requests && m.ballot > RevokedBallot(x.lease, m.sender)
    && now < x.lease.requests[m.sequence]
    && (m.sender in x.lease.incoming ==> x.lease.requests[m.sequence] > x.lease.incoming[m.sender].until)
  }

  function OnLeaseReply(x: Replica, m: Msg, now: nat): Replica
    requires m.LeaseReply?
  {
    if Relies(x, m, now)
    then x.(lease := x.lease.(incoming := x.lease.incoming[m.sender := Grant(x.lease.requests[m.sequence], m.threshold)]))
    else x
  }

  function OnLeaseRevoke(x: Replica, m: Msg): (Replica, set<Msg>)
    requires m.LeaseRevoke?
  {
    if m.to != x.id then (x, {})
    else
      var l := x.lease;
      (x.(lease := l.(revoked := l.revoked[m.sender := Max(RevokedBallot(l, m.sender), m.ballot)],
                      incoming := if Ballot(x) <= m.ballot then l.incoming - {m.sender} else l.incoming)),
       {LeaseRevoked(x.id, m.sender, m.ballot)})
  }

  function OnLeaseRevoked(x: Replica, m: Msg, now: nat): (Replica, set<Msg>)
    requires m.LeaseRevoked?
  {
    if m.to != x.id || x.lease.pending.None? || x.lease.pending.value.ballot <= Ballot(x) || m.ballot != Ballot(x) then (x, {})
    else Install(x.(lease := x.lease.(outgoing := x.lease.outgoing - {m.sender})), now)
  }

  function Renew(x: Replica, c: Config, now: nat): (Replica, set<Msg>) {
    var l := x.lease;
    var q := l.sequence + 1;
    (x.(lease := l.(sequence := q, requests := (map s | s in l.requests && now < l.requests[s] :: l.requests[s])[q := now + c.lease])),
     {LeaseRequest(x.id, Ballot(x), q, now + c.lease)})
  }

  // Recovery

  function Suffix(entries: map<nat, Entry>, start: nat): map<nat, Entry> { map s | s in entries && s >= start :: entries[s] }

  /** Evidence is frozen once per ballot. */
  function OnPrepare(x: Replica, m: Msg): (Replica, set<Msg>)
    requires m.Prepare?
  {
    if m.start == 0 then (x, {})
    else
      var snap := if x.lead.snapshot.Some? then x.lead.snapshot.value else Snapshot(m.start, Suffix(x.log.entries, m.start));
      (x.(lead := x.lead.(snapshot := Some(snap))),
       if snap.start == m.start then {Promise(x.id, Ballot(x), m.start, snap.entries)} else {})
  }

  predicate StoresSnapshot(x: Replica, m: Msg)
    requires m.Promise?
  {
    Leader(x) == x.id && !x.lead.prepared && m.start == x.lead.prepareStart
    && forall s :: s in m.entries ==> s >= m.start && m.entries[s].ballot <= Ballot(x)
  }

  function StoreSnapshot(x: Replica, m: Msg): Replica
    requires m.Promise?
  {
    x.(lead := x.lead.(snapshots := x.lead.snapshots[m.sender := m.entries]))
  }

  /** An entry of one snapshot that none of the others exceeds in ballot. */
  ghost predicate IsSelected(snapshots: map<nat, map<nat, Entry>>, s: nat, e: Entry) {
    && (exists i :: i in snapshots && s in snapshots[i] && snapshots[i][s] == e)
    && forall i :: i in snapshots && s in snapshots[i] ==> snapshots[i][s].ballot <= e.ballot
  }

  ghost predicate Reported(snapshots: map<nat, map<nat, Entry>>, s: nat) { exists i :: i in snapshots && s in snapshots[i] }

  /** The values a new leader proposes again: the newest reported one, or the no-op. */
  ghost predicate IsSelection(d: Lead, top: nat, sel: map<nat, Value>) {
    && (forall s :: s in sel <==> d.prepareStart <= s <= top)
    && (forall s: nat :: Reported(d.snapshots, s) ==> s <= top)
    && top + 1 >= d.prepareStart
    && (forall s :: s in sel ==>
          if Reported(d.snapshots, s) then exists e :: IsSelected(d.snapshots, s, e) && sel[s] == e.value
          else sel[s] == NOOP)
  }

  /** Accepts the selected values of the slots from `s` to `top` in the given ballot. */
  function Reaccept(l: Log, ballot: nat, sel: map<nat, Value>, s: nat, top: nat): Log
    requires forall t :: s <= t <= top ==> t in sel
    decreases top + 1 - s
  {
    if s > top then l else Reaccept(AcceptEntry(l, s, Entry(ballot, sel[s])), ballot, sel, s + 1, top)
  }

  /** Some acceptance on the way meets a conflicting entry. */
  predicate ReacceptPanics(l: Log, ballot: nat, sel: map<nat, Value>, s: nat, top: nat)
    requires forall t :: s <= t <= top ==> t in sel
    decreases top + 1 - s
  {
    s <= top && (AcceptPanics(l, s, Entry(ballot, sel[s])) || ReacceptPanics(AcceptEntry(l, s, Entry(ballot, sel[s])), ballot, sel, s + 1, top))
  }

  /** The selected values proposed again, with this replica's own acceptances. */
  function Recover(x: Replica, top: nat, sel: map<nat, Value>): (Replica, set<Msg>)
    requires forall t :: x.lead.prepareStart <= t <= top ==> t in sel
  {
    (x.(log := Reaccept(x.log.(next := top), Ballot(x), sel, x.lead.prepareStart, top),
        lead := x.lead.(prepared := true, snapshots := map[], votes := map s | s in sel :: {x.id})),
     (set s | s in sel :: Accept(x.id, Ballot(x), s, sel[s])) + (set s | s in sel :: Accepted(x.id, Ballot(x), s, sel[s])))
  }

  // Commitment

  predicate IsLeader(x: Replica) { Active(x) && x.lead.prepared && Leader(x) == x.id }

  function ResponderCover(r: Roster, v: Value): set<nat> {
    set p, k | k in KeysWritten(v) && p in RespondersFor(r, k) :: p
  }

  function VotesOf(d: Lead, s: nat): set<nat> { if s in d.votes then d.votes[s] else {} }

  predicate CanCommit(x: Replica, n: nat, s: nat) {
    IsLeader(x) && s !in x.log.committed && s in x.log.entries
    && |VotesOf(x.lead, s)| >= Majority(n) && ResponderCover(x.lease.current, x.log.entries[s].value) <= VotesOf(x.lead, s)
  }

  /** Commits a slot that a majority and every responder of its keys has accepted. */
  function TryCommit(x: Replica, n: nat, s: nat): (Replica, set<Msg>) {
    if !CanCommit(x, n, s) then (x, {})
    else
      var l := Apply(MarkCommitted(x.log, s));
      (x.(log := l), {Commit(x.id, Ballot(x), l.prefix, s)})
  }

  /** A write takes the next slot, with this replica's own acceptance, which alone commits nothing. */
  function Propose(x: Replica, v: Value): (Replica, set<Msg>) {
    var s := x.log.next + 1;
    (x.(log := AcceptEntry(x.log, s, Entry(Ballot(x), v)), lead := x.lead.(votes := x.lead.votes[s := {x.id}])),
     {Accept(x.id, Ballot(x), s, v), Accepted(x.id, Ballot(x), s, v)})
  }

  function CountVote(x: Replica, m: Msg): Replica
    requires m.Accepted?
  {
    x.(lead := x.lead.(votes := x.lead.votes[m.slot := VotesOf(x.lead, m.slot) + {m.sender}]))
  }

  predicate Counts(x: Replica, m: Msg)
    requires m.Accepted?
  {
    IsLeader(x) && m.slot in x.log.entries && x.log.entries[m.slot].ballot == m.ballot
  }

  function OnAccepted(x: Replica, n: nat, m: Msg): (Replica, set<Msg>)
    requires m.Accepted?
  {
    if Counts(x, m) then TryCommit(CountVote(x, m), n, m.slot) else (x, {})
  }

  // Notices of commitment

  /** A notice commits a slot only with the current ballot's value. */
  function ApplyNoticed(l: Log, ballot: nat, s: nat): Log {
    if s == 0 || (s > l.noticePrefix && s !in l.noticeSlots) || s !in l.entries || l.entries[s].ballot != ballot then l
    else MarkCommitted(l, s).(noticeSlots := l.noticeSlots - {s})
  }

  function ApplyNoticedFrom(l: Log, ballot: nat, s: nat): Log
    decreases l.noticePrefix + 1 - s
  {
    if s > l.noticePrefix || s !in l.entries || l.entries[s].ballot != ballot then l
    else ApplyNoticedFrom(ApplyNoticed(l, ballot, s), ballot, s + 1)
  }

  /** Takes note of a decided prefix and slot, and of the slot's value if the log has it. */
  function Hear(l: Log, ballot: nat, prefix: nat, slot: nat): Log {
    var y := l.(noticePrefix := Max(l.noticePrefix, prefix));
    if slot > y.prefix then ApplyNoticed(y.(noticeSlots := y.noticeSlots + {slot}), ballot, slot) else y
  }

  /** Commits what the notices so far cover, without gaps, and executes it. */
  function CatchUp(l: Log, ballot: nat): Log { Apply(ApplyNoticedFrom(l, ballot, l.prefix + 1)) }

  function LearnNotice(l: Log, ballot: nat, prefix: nat, slot: nat): Log { CatchUp(Hear(l, ballot, prefix, slot), ballot) }

  function AcceptAndNotice(l: Log, ballot: nat, s: nat, v: Value): Log {
    LearnNotice(ApplyNoticed(AcceptEntry(l, s, Entry(ballot, v)), ballot, s), ballot, 0, 0)
  }

  function OnAccept(x: Replica, m: Msg): (Replica, set<Msg>)
    requires m.Accept?
  {
    (x.(log := AcceptAndNotice(x.log, m.ballot, m.slot, m.value)), {Accepted(x.id, m.ballot, m.slot, m.value)})
  }

  function LearnCommitted(l: Log, ballot: nat, s: nat, v: Value): Log {
    if s <= l.prefix then l else Apply(MarkCommitted(AcceptEntry(l, s, Entry(ballot, v)), s))
  }

  /** Repair of one slot: executed history of older ballots, or this ballot's proposal and its decision. */
  function Repair(x: Replica, s: nat): set<Msg> {
    if !IsLeader(x) || s !in x.log.entries || s == 0 then {}
    else
      var e := x.log.entries[s];
      if s <= x.log.prefix && e.ballot != Ballot(x) then {CommittedEntry(x.id, Ballot(x), s, e.value)}
      else if e.ballot != Ballot(x) then {}
      else {Accept(x.id, Ballot(x), s, e.value)}
           + (if s in x.log.committed && s > x.log.prefix then {Commit(x.id, Ballot(x), x.log.prefix, s)} else {})
  }

  function CommitNotice(x: Replica): set<Msg> {
    if IsLeader(x) then {Commit(x.id, Ballot(x), x.log.prefix, 0)} else {}
  }

  // Reads

  /** The slot a local read has to reflect: a leader's newest committed write, a responder's newest accepted one. */
  function ReadSlot(x: Replica, key: int): nat {
    if Leader(x) == x.id then LatestCommitted(x.log, key) else Latest(x.log, key)
  }

  predicate CanRead(x: Replica, n: nat, key: int, now: nat) {
    x.id in RespondersFor(x.lease.current, key) && LocalReadAuthority(x, n, now)
  }

  function HoldRead(x: Replica, read: nat, key: int, seen: set<Committed>): Replica {
    x.(held := x.held[read := Held(key, ReadSlot(x, key), seen)])
  }

  /** The state machine has executed the slot, or the slot is committed in the current ballot and writes the key. */
  predicate Readable(x: Replica, s: nat, key: int) {
    s <= x.log.prefix
    || (s in x.log.entries && s in x.log.committed && x.log.entries[s].ballot == Ballot(x) && Writes(x.log.entries[s].value, key))
  }

  predicate CanServe(x: Replica, n: nat, read: nat, now: nat) {
    read in x.held && CanRead(x, n, x.held[read].key, now) && Readable(x, x.held[read].slot, x.held[read].key)
  }

  /** What answers a read: the state machine, or the committed value of a slot it has not reached. */
  function Answer(x: Replica, s: nat): Option<Value> {
    if s <= x.log.prefix || s !in x.log.entries then None else Some(x.log.entries[s].value)
  }
}
