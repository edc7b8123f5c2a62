/**
  The FastPaxos replica: per-slot state, the fast round, classic epochs and paged recovery.

  Every handler is a total function from a replica and a message to a replica and the messages
  it sends. Where the program panics, the handler carries on and a `...Panics` predicate names
  the guard, so that its unreachability can be stated about whole runs.

  A message that carries several entries is modelled as its entries delivered one after the other.
*/
module FastPaxos {
  import opened Quorums

  datatype Option<+T> = None | Some(value: T)

  datatype RequestId = RequestId(client: int, sequence: int)

  /** Value identity: the request ID, or the recovery no-op. */
  datatype Value = Noop | Command(id: RequestId)

  datatype Entry = Entry(slot: nat, epoch: nat, round: nat, value: Value, payload: bool, decided: bool)

  datatype SlotState = SlotState(
    accepted: Option<Entry>,
    proposed: Option<Entry>,
    chosen: Option<Entry>,
    votes: map<nat, Value>,
    acks: set<nat>)

  const EMPTY_SLOT := SlotState(None, None, None, map[], {})

  /** The evidence a replica freezes when it first answers a Prepare of its current epoch. */
  datatype Frozen = Frozen(start: nat, high: int, entries: seq<Entry>)

  datatype Snapshot = Snapshot(pages: nat, high: int, parts: map<nat, seq<Entry>>)

  datatype Replica = Replica(
    id: nat,
    promise: nat,
    active: bool,
    preparing: bool,
    start: nat,
    high: int,
    next: nat,
    executed: int,
    slots: map<nat, SlotState>,
    known: set<RequestId>,
    frozen: Option<Frozen>,
    snapshots: map<nat, Snapshot>,
    history: seq<RequestId>,
    results: map<RequestId, seq<RequestId>>)

  /**
    Accepted carries the accepted value and Promise the whole frozen evidence as history
    annotations: receivers read only the slot of the first and one page of the second.
  */
  datatype Msg =
    | Vote(sender: nat, slot: nat, value: Value)
    | Prepare(sender: nat, epoch: nat, start: nat)
    | Promise(sender: nat, epoch: nat, frozen: Frozen, page: nat)
    | Accept(sender: nat, epoch: nat, slot: nat, value: Value)
    | Accepted(sender: nat, epoch: nat, slot: nat, value: Value)
    | Commit(sender: nat, slot: nat, value: Value, payload: bool)
    | Nack(sender: nat, epoch: nat)
    | Heartbeat(sender: nat, epoch: nat)

  const FAST_WINDOW: nat := 8192
  const INFLIGHT_WINDOW: nat := 16384

  function FastQuorumSize(n: nat): nat { 3 * n / 4 + 1 }

  function Majority(n: nat): nat { n / 2 + 1 }

  predicate Newer(a: Entry, b: Entry) {
    a.epoch > b.epoch || (a.epoch == b.epoch && a.round > b.round)
  }

  predicate SameRound(a: Entry, b: Entry) {
    a.epoch == b.epoch && a.round == b.round
  }

  function Init(id: nat): Replica {
    Replica(id, 0, false, false, 0, -1, 0, -1, map[], {}, None, map[], [], map[])
  }

  // Slot access

  function SlotOf(r: Replica, s: nat): SlotState {
    if s in r.slots then r.slots[s] else EMPTY_SLOT
  }

  /** Writing a slot allocates it, which raises the highest slot seen. */
  function SetSlot(r: Replica, s: nat, st: SlotState): Replica {
    r.(slots := r.slots[s := st], high := if s > r.high then s else r.high)
  }

  function Remember(r: Replica, v: Value): Replica {
    if v.Noop? then r else r.(known := r.known + {v.id})
  }

  // Execution

  /** The chosen value of the next slot can be executed: it is decided and its payload is known. */
  predicate CanApply(r: Replica) {
    && r.executed + 1 >= 0
    && var st := SlotOf(r, r.executed + 1);
    && st.chosen.Some?
    && (st.chosen.value.value.Noop? || st.chosen.value.value.id in r.known)
  }

  /**
    One round of the execution loop. Execution is deterministic, so the machine state is a
    function of the sequence of commands executed and a result a function of that sequence and
    the command: `history` stands for the state and a result is the history it was computed in.
  */
  function ApplyOne(r: Replica): Replica
    requires CanApply(r)
  {
    var v := SlotOf(r, r.executed + 1).chosen.value.value;
    if v.Noop? || v.id in r.results then r.(executed := r.executed + 1)
    else r.(executed := r.executed + 1,
            history := r.history + [v.id],
            results := r.results[v.id := r.history])
  }

  function Pending(r: Replica): set<nat> {
    set s | s in r.slots && s > r.executed
  }

  function Apply(r: Replica): Replica
    decreases |Pending(r)|
  {
    if !CanApply(r) then r
    else
      var r' := ApplyOne(r);
      assert Pending(r') == Pending(r) - {r.executed + 1};
      assert r.executed + 1 in Pending(r);
      Apply(r')
  }

  // Learning

  predicate LearnPanics(r: Replica, e: Entry) {
    SlotOf(r, e.slot).chosen.Some? && SlotOf(r, e.slot).chosen.value.value != e.value
  }

  function Learn(r: Replica, e: Entry): Replica {
    var r1 := if e.payload then Remember(r, e.value) else r;
    var st := SlotOf(r1, e.slot).(chosen := Some(e.(decided := true)));
    Apply(SetSlot(r1, e.slot, st))
  }

  // Fast round

  predicate CanProposeFast(r: Replica, id: RequestId) {
    r.promise == 0 && id in r.known && r.next - r.executed - 1 < FAST_WINDOW
  }

  function ProposeFast(r: Replica, id: RequestId): (Replica, set<Msg>)
    requires CanProposeFast(r, id)
  {
    var s := r.next;
    var r1 := SetSlot(r.(next := r.next + 1), s, SlotOf(r, s));
    if SlotOf(r1, s).accepted.Some? then (r1, {})
    else
      var e := Entry(s, 0, 1, Command(id), true, false);
      (SetSlot(r1, s, SlotOf(r1, s).(accepted := Some(e))), {Vote(r.id, s, Command(id))})
  }

  function Supporters(votes: map<nat, Value>, v: Value): set<nat> {
    set i | i in votes && votes[i] == v
  }

  function OnVote(r: Replica, n: nat, m: Msg): Replica
    requires m.Vote?
  {
    if r.promise != 0 || m.value.Noop? then r
    else
      var st := SlotOf(r, m.slot);
      if st.chosen.Some? || m.sender in st.votes then SetSlot(r, m.slot, st)
      else
        var votes := st.votes[m.sender := m.value];
        var r1 := SetSlot(r, m.slot, st.(votes := votes));
        if |Supporters(votes, m.value)| >= FastQuorumSize(n)
        then Learn(r1, Entry(m.slot, 0, 1, m.value, false, false))
        else r1
  }

  // Epochs

  function Adopt(r: Replica, epoch: nat): Replica {
    if epoch <= r.promise then r
    else r.(promise := epoch, active := false, preparing := false, frozen := None)
  }

  function NextEpoch(r: Replica, n: nat): nat
    requires n > 0
  {
    (r.promise / n + 1) * n + r.id
  }

  function Begin(r: Replica, n: nat): (Replica, set<Msg>)
    requires n > 0 && r.executed >= -1
  {
    var e := NextEpoch(r, n);
    var r1 := Adopt(r, e).(preparing := true, start := r.executed + 1, snapshots := map[]);
    (r1, {Prepare(r.id, e, r1.start)})
  }

  /** The entry a promise reports for one slot: the decision if known, else the acceptance. */
  function ReportOf(r: Replica, s: nat): Option<Entry> {
    var st := SlotOf(r, s);
    var e := if st.chosen.Some? then st.chosen else st.accepted;
    if e.Some? && !e.value.value.Noop? && e.value.value.id in r.known
    then Some(e.value.(payload := true)) else e
  }

  function Reports(r: Replica, from: nat): (es: seq<Entry>)
    decreases r.high + 1 - from
  {
    if from > r.high then []
    else (if ReportOf(r, from).Some? then [ReportOf(r, from).value] else []) + Reports(r, from + 1)
  }

  /** Promises travel in pages of 128 entries, and in one empty page when there are none. */
  function PageCount(f: Frozen): nat {
    var pages := (|f.entries| + 128 - 1) / 128;
    if pages == 0 then 1 else pages
  }

  function PageOf(f: Frozen, page: nat): seq<Entry>
    requires page < PageCount(f)
  {
    var lo := if page * 128 <= |f.entries| then page * 128 else |f.entries|;
    var hi := if lo + 128 <= |f.entries| then lo + 128 else |f.entries|;
    f.entries[lo..hi]
  }

  function OnPrepare(r: Replica, n: nat, m: Msg): (Replica, set<Msg>)
    requires n > 0 && m.Prepare?
  {
    if m.epoch == 0 || Owner(n, m.epoch) != m.sender then (r, {})
    else if m.epoch < r.promise then (r, {Nack(r.id, r.promise)})
    else
      var r1 := Adopt(r, m.epoch);
      if r1.frozen.Some? && r1.frozen.value.start != m.start then (r1, {})
      else
        var f := if r1.frozen.Some? then r1.frozen.value else Frozen(m.start, r1.high, Reports(r1, m.start));
        (r1.(frozen := Some(f)), set p: nat | p < PageCount(f) :: Promise(r.id, r1.promise, f, p))
  }

  // Selection of a value to propose from one slot's reports

  predicate IsTop(reports: map<nat, Entry>, t: Entry) {
    t in reports.Values && forall i :: i in reports ==> !Newer(reports[i], t)
  }

  function Support(reports: map<nat, Entry>, t: Entry, v: Value): set<nat> {
    set i | i in reports && SameRound(reports[i], t) && reports[i].value == v
  }

  /** How many reporters a value needs to have possibly been chosen fast, given `q` responders. */
  function Minimum(n: nat, q: nat): int { FastQuorumSize(n) + q - n }

  predicate SingleValued(reports: map<nat, Entry>, t: Entry) {
    forall i :: i in reports && SameRound(reports[i], t) ==> reports[i].value == t.value
  }

  predicate HasDecided(reports: map<nat, Entry>) {
    exists i :: i in reports && reports[i].decided
  }

  /** The outcomes of the newest round once no report is decided. */
  predicate TopSelects(reports: map<nat, Entry>, t: Entry, q: nat, n: nat, v: Value) {
    if Support(reports, t, Noop) != {} then v == Noop
    else if SingleValued(reports, t) then v == t.value
    else
      || (Support(reports, t, v) != {} && |Support(reports, t, v)| >= Minimum(n, q))
      || (v == Noop && forall i :: i in reports && SameRound(reports[i], t) ==>
                         |Support(reports, t, reports[i].value)| < Minimum(n, q))
  }

  /** `v` is a value the selection may return; map iteration order leaves several possible. */
  ghost predicate Selects(reports: map<nat, Entry>, q: nat, n: nat, v: Value) {
    if HasDecided(reports) then exists i :: i in reports && reports[i].decided && reports[i].value == v
    else if reports == map[] then v == Noop
    else exists t :: IsTop(reports, t) && TopSelects(reports, t, q, n, v)
  }

  /** Several values at the newest round although it is a classic epoch. */
  ghost predicate SelectPanics(reports: map<nat, Entry>) {
    && !HasDecided(reports)
    && exists t :: IsTop(reports, t) && t.epoch > 0 && Support(reports, t, Noop) == {} && !SingleValued(reports, t)
  }

  // Assembling promises

  predicate Complete(s: Snapshot) { |s.parts| == s.pages }

  function Responders(snapshots: map<nat, Snapshot>): set<nat> {
    set i | i in snapshots && Complete(snapshots[i])
  }

  ghost predicate Reported(s: Snapshot, e: Entry) {
    exists p :: p in s.parts && e in s.parts[p]
  }

  /** The reports of one slot gathered from every complete snapshot. */
  ghost predicate ReportsFor(snapshots: map<nat, Snapshot>, slot: nat, reports: map<nat, Entry>) {
    && (forall i :: i in reports ==>
          i in Responders(snapshots) && reports[i].slot == slot && Reported(snapshots[i], reports[i]))
    && (forall i, e :: i in Responders(snapshots) && Reported(snapshots[i], e) && e.slot == slot ==> i in reports)
  }

  predicate StoresPage(r: Replica, m: Msg)
    requires m.Promise?
  {
    r.preparing && m.epoch == r.promise && m.frozen.start == r.start && m.page < PageCount(m.frozen)
  }

  function StorePage(r: Replica, m: Msg): Replica
    requires m.Promise? && StoresPage(r, m)
  {
    var s := if m.sender in r.snapshots then r.snapshots[m.sender]
             else Snapshot(PageCount(m.frozen), m.frozen.high, map[]);
    var r1 := r.(snapshots := r.snapshots[m.sender := s]);
    if s.pages != PageCount(m.frozen) || s.high != m.frozen.high || m.page in s.parts then r1
    else r1.(snapshots := r.snapshots[m.sender := s.(parts := s.parts[m.page := PageOf(m.frozen, m.page)])])
  }

  predicate IsMaxHigh(r: Replica, top: int) {
    && top >= r.start - 1
    && (forall i :: i in Responders(r.snapshots) ==> r.snapshots[i].high <= top)
    && (top == r.start - 1 || exists i :: i in Responders(r.snapshots) && r.snapshots[i].high == top)
  }

  /** Slots of the recovered range get a fresh proposal; every other slot is untouched. */
  function Proposals(r: Replica, sel: map<nat, Value>): map<nat, SlotState> {
    map s | s in r.slots.Keys + sel.Keys ::
      if s in sel
      then SlotOf(r, s).(proposed := Some(Entry(s, r.promise, 0, sel[s], false, false)), acks := {})
      else SlotOf(r, s)
  }

  /** Requests whose payload arrived with the promises. */
  function Payloads(snapshots: map<nat, Snapshot>): set<RequestId> {
    set i, p, k | i in Responders(snapshots) && p in snapshots[i].parts && 0 <= k < |snapshots[i].parts[p]|
                  && snapshots[i].parts[p][k].payload && !snapshots[i].parts[p][k].value.Noop?
      :: snapshots[i].parts[p][k].value.id
  }

  /** A majority has answered in full: `sel` holds the value selected for each recovered slot. */
  ghost predicate ValidRecovery(r: Replica, n: nat, top: int, sel: map<nat, Value>) {
    && |Responders(r.snapshots)| >= Majority(n)
    && IsMaxHigh(r, top)
    && (forall s :: s in sel <==> r.start <= s <= top)
    && (forall s :: s in sel ==> exists reports ::
          ReportsFor(r.snapshots, s, reports) && Selects(reports, |Responders(r.snapshots)|, n, sel[s]))
  }

  function Recover(r: Replica, top: int, sel: map<nat, Value>): Replica
    requires top >= -1
  {
    r.(preparing := false, active := true, high := top, next := top + 1,
       slots := Proposals(r, sel), known := r.known + Payloads(r.snapshots))
  }

  // Classic round

  predicate CanFlush(r: Replica, n: nat, id: RequestId)
    requires n > 0
  {
    r.active && Owner(n, r.promise) == r.id && id in r.known && id !in r.results
    && r.next - r.executed < INFLIGHT_WINDOW
  }

  function Flush(r: Replica, n: nat, id: RequestId): (Replica, set<Msg>)
    requires n > 0 && CanFlush(r, n, id)
  {
    var e := Entry(r.next, r.promise, 0, Command(id), true, false);
    (SetSlot(r.(next := r.next + 1), e.slot, SlotOf(r, e.slot).(proposed := Some(e), acks := {})),
     {Accept(r.id, r.promise, e.slot, e.value)})
  }

  /** Repair traffic for one slot: the decision, or the current epoch's proposal once its payload is known. */
  function Resend(r: Replica, n: nat, s: nat): set<Msg>
    requires n > 0
  {
    var st := SlotOf(r, s);
    if !r.active || Owner(n, r.promise) != r.id || s < r.start || s <= r.executed || s > r.high then {}
    else if st.chosen.Some? then {CommitOf(r, st.chosen.value)}
    else if st.proposed.Some? && st.proposed.value.epoch == r.promise
            && (st.proposed.value.value.Noop? || st.proposed.value.value.id in r.known)
    then {Accept(r.id, r.promise, s, st.proposed.value.value)}
    else {}
  }

  function CommitOf(r: Replica, e: Entry): Msg {
    Commit(r.id, e.slot, e.value, e.value.Noop? || e.value.id in r.known)
  }

  /** The answer to a fetch of one slot. */
  function Serve(r: Replica, s: nat): set<Msg> {
    if SlotOf(r, s).chosen.Some? then {CommitOf(r, SlotOf(r, s).chosen.value)} else {}
  }

  predicate AcceptPanics(r: Replica, m: Msg)
    requires m.Accept?
  {
    && m.epoch >= r.promise
    && SlotOf(r, m.slot).accepted.Some?
    && SlotOf(r, m.slot).accepted.value.epoch == m.epoch
    && SlotOf(r, m.slot).accepted.value.value != m.value
  }

  function OnAccept(r: Replica, n: nat, m: Msg): (Replica, set<Msg>)
    requires n > 0 && m.Accept?
  {
    if m.epoch == 0 || Owner(n, m.epoch) != m.sender then (r, {})
    else if m.epoch < r.promise then (r, {Nack(r.id, r.promise)})
    else
      var r1 := Remember(Adopt(r, m.epoch).(active := true), m.value);
      var e := Entry(m.slot, m.epoch, 0, m.value, true, false);
      (SetSlot(r1, m.slot, SlotOf(r1, m.slot).(accepted := Some(e))),
       {Accepted(r.id, m.epoch, m.slot, m.value)})
  }

  predicate CountsAck(r: Replica, n: nat, m: Msg)
    requires n > 0 && m.Accepted?
  {
    && r.active && Owner(n, r.promise) == r.id && m.epoch == r.promise
    && var st := SlotOf(r, m.slot);
    && st.proposed.Some? && st.proposed.value.epoch == m.epoch && st.chosen.None?
  }

  function OnAccepted(r: Replica, n: nat, m: Msg): (Replica, set<Msg>)
    requires n > 0 && m.Accepted?
  {
    if !CountsAck(r, n, m) then (r, {})
    else
      var st := SlotOf(r, m.slot);
      var acks := st.acks + {m.sender};
      var r1 := r.(slots := r.slots[m.slot := st.(acks := acks)]);
      if |acks| < Majority(n) then (r1, {})
      else
        var e := st.proposed.value.(payload := true, decided := true);
        (Learn(r1, e), {Commit(r.id, m.slot, e.value, true)})
  }

  function OnCommit(r: Replica, m: Msg): Replica
    requires m.Commit?
  {
    Learn(r, Entry(m.slot, 0, 0, m.value, m.payload, true))
  }
}
