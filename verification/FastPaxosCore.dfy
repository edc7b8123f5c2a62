/**
  The FastPaxos replica as it runs: an object whose handlers update its fields in loops. Every
  method is proved against the handler function of the same name in the protocol model, so that
  what runs of the model keep holds of runs of these objects.
*/
module FastPaxosCore {
  import opened FastPaxos
  import opened FastPaxosSystem
  import opened Quorums

  // Loops over maps, in whatever order their keys come

  function SupportersOutside(votes: map<nat, Value>, v: Value, rest: set<nat>): set<nat> {
    set i | i in votes && i !in rest && votes[i] == v
  }

  lemma OneMoreSupporter(votes: map<nat, Value>, v: Value, rest: set<nat>, i: nat)
    requires i in rest && i in votes
    ensures |SupportersOutside(votes, v, rest - {i})| == |SupportersOutside(votes, v, rest)| + if votes[i] == v then 1 else 0
  {
    var before := SupportersOutside(votes, v, rest);
    assert SupportersOutside(votes, v, rest - {i}) == if votes[i] == v then before + {i} else before;
  }

  /** How many voters support a value. */
  method CountSupport(votes: map<nat, Value>, v: Value) returns (k: nat)
    ensures k == |Supporters(votes, v)|
  {
    var rest := votes.Keys;
    k := 0;
    while rest != {}
      invariant rest <= votes.Keys && k == |SupportersOutside(votes, v, rest)|
      decreases |rest|
    {
      var i :| i in rest;
      OneMoreSupporter(votes, v, rest, i);
      rest := rest - {i};
      if votes[i] == v { k := k + 1; }
    }
    assert SupportersOutside(votes, v, {}) == Supporters(votes, v);
  }

  /** A decided report if there is one, else a newest report. */
  method FindTop(reports: map<nat, Entry>) returns (decided: Option<Value>, top: Option<Entry>)
    ensures decided.Some? <==> HasDecided(reports)
    ensures decided.Some? ==> exists i :: i in reports && reports[i].decided && reports[i].value == decided.value
    ensures decided.None? ==> (top.None? <==> reports == map[])
    ensures decided.None? && top.Some? ==> IsTop(reports, top.value)
  {
    var rest := reports.Keys;
    decided, top := None, None;
    while rest != {}
      invariant rest <= reports.Keys
      invariant forall i :: i in reports && i !in rest ==> !reports[i].decided && top.Some? && !Newer(reports[i], top.value)
      invariant top.Some? ==> exists i :: i in reports && i !in rest && reports[i] == top.value
      decreases |rest|
    {
      var i :| i in rest;
      rest := rest - {i};
      if reports[i].decided { return Some(reports[i].value), None; }
      if top.None? || Newer(reports[i], top.value) { top := Some(reports[i]); }
    }
    if top.Some? {
      var i :| i in reports && reports[i] == top.value;
      assert reports[i] in reports.Values;
    }
  }

  /** The supporters of each value of the newest round, unless one of them reports the no-op. */
  method Gather(reports: map<nat, Entry>, top: Entry) returns (noop: bool, supports: map<Value, set<nat>>)
    ensures noop <==> Support(reports, top, Noop) != {}
    ensures !noop ==> forall v :: v in supports <==> Support(reports, top, v) != {}
    ensures !noop ==> forall v :: v in supports ==> supports[v] == Support(reports, top, v)
  {
    var rest := reports.Keys;
    noop, supports := false, map[];
    while rest != {}
      invariant rest <= reports.Keys
      invariant forall i :: i in reports && i !in rest && SameRound(reports[i], top) ==>
                  !reports[i].value.Noop? && reports[i].value in supports && i in supports[reports[i].value]
      invariant forall v :: v in supports ==> supports[v] != {}
      invariant forall v, i :: v in supports && i in supports[v] ==> i in reports && SameRound(reports[i], top) && reports[i].value == v
      decreases |rest|
    {
      var i :| i in rest;
      rest := rest - {i};
      if SameRound(reports[i], top) {
        var v := reports[i].value;
        if v.Noop? {
          assert i in Support(reports, top, Noop);
          return true, map[];
        }
        supports := supports[v := (if v in supports then supports[v] else {}) + {i}];
      }
    }
    forall v | v in supports ensures supports[v] == Support(reports, top, v) { }
    forall v | Support(reports, top, v) != {} ensures v in supports && !v.Noop? {
      var i :| i in Support(reports, top, v);
    }
  }

  /** The value to propose for a slot, or a panic on two values in a classic epoch. */
  method SelectValue(reports: map<nat, Entry>, q: nat, n: nat) returns (v: Value, panics: bool)
    ensures if panics then SelectPanics(reports) else Selects(reports, q, n, v)
  {
    var decided, top := FindTop(reports);
    if decided.Some? { return decided.value, false; }
    if top.None? { return Noop, false; }
    v, panics := SelectAtTop(reports, top.value, q, n);
  }

  method SelectAtTop(reports: map<nat, Entry>, top: Entry, q: nat, n: nat) returns (v: Value, panics: bool)
    requires IsTop(reports, top) && !HasDecided(reports)
    ensures if panics then SelectPanics(reports) else TopSelects(reports, top, q, n, v)
  {
    var noop, supports := Gather(reports, top);
    if noop { return Noop, false; }
    OneValue(reports, top, supports);
    if |supports| == 1 { return top.value, false; }
    if top.epoch > 0 { return Noop, true; }
    var minimum := FastQuorumSize(n) + q - n;
    var rest := supports.Keys;
    while rest != {}
      invariant rest <= supports.Keys
      invariant forall u :: u in supports && u !in rest ==> |supports[u]| < minimum
      decreases |rest|
    {
      v :| v in rest;
      rest := rest - {v};
      if |supports[v]| >= minimum { return v, false; }
    }
    forall i | i in reports && SameRound(reports[i], top) ensures |Support(reports, top, reports[i].value)| < Minimum(n, q) {
      assert i in Support(reports, top, reports[i].value);
    }
    return Noop, false;
  }

  /** One value is supported exactly when every report of the newest round has it. */
  lemma OneValue(reports: map<nat, Entry>, top: Entry, supports: map<Value, set<nat>>)
    requires IsTop(reports, top) && forall v :: v in supports <==> Support(reports, top, v) != {}
    ensures |supports| == 1 <==> SingleValued(reports, top)
  {
    var j :| j in reports && reports[j] == top;
    assert j in Support(reports, top, top.value);
    assert top.value in supports.Keys;
    assert SingleValued(reports, top) ==> supports.Keys == {top.value};
    if |supports| == 1 {
      forall i | i in reports && SameRound(reports[i], top) ensures reports[i].value == top.value {
        assert i in Support(reports, top, reports[i].value);
        assert reports[i].value in supports.Keys;
        if reports[i].value != top.value { SubsetSize({reports[i].value, top.value}, supports.Keys); }
      }
    }
  }

  /** The replica with a decision recorded, before anything is executed. */
  function Decided(r: Replica, e: Entry): Replica {
    r.(slots := r.slots[e.slot := SlotOf(r, e.slot).(chosen := Some(e.(decided := true)))],
       high := if e.slot > r.high then e.slot else r.high,
       known := if e.payload && !e.value.Noop? then r.known + {e.value.id} else r.known)
  }

  lemma LearnIsApply(r: Replica, e: Entry)
    ensures Learn(r, e) == Apply(Decided(r, e))
  {
  }

  lemma ReportsFromNext(r: Replica, s: nat)
    requires s <= r.high
    ensures Reports(r, s) == (if ReportOf(r, s).Some? then [ReportOf(r, s).value] else []) + Reports(r, s + 1)
  {
  }

  /** The selections below a slot. */
  function Part(sel: map<nat, Value>, slot: nat): map<nat, Value> { map s | s in sel && s < slot :: sel[s] }

  lemma NoProposals(r: Replica, sel: map<nat, Value>, slot: nat)
    requires forall s :: s in sel ==> s >= slot
    ensures Proposals(r, Part(sel, slot)) == r.slots
  {
  }

  lemma MoreProposals(r: Replica, sel: map<nat, Value>, slot: nat)
    requires slot in sel
    ensures Proposals(r, Part(sel, slot + 1)) ==
            Proposals(r, Part(sel, slot))[slot := SlotOf(r, slot).(proposed := Some(Entry(slot, r.promise, 0, sel[slot], false, false)), acks := {})]
    ensures var ps := Proposals(r, Part(sel, slot)); (if slot in ps then ps[slot] else EMPTY_SLOT) == SlotOf(r, slot)
  {
  }

  class Core {
    const id: nat
    const n: nat
    var promise: nat
    var active: bool
    var preparing: bool
    var start: nat
    var high: int
    var next: nat
    var executed: int
    var slots: map<nat, SlotState>
    var known: set<RequestId>
    var frozen: Option<Frozen>
    var snapshots: map<nat, Snapshot>
    var history: seq<RequestId>
    var results: map<RequestId, seq<RequestId>>

    /** The replica of the protocol model that this object stands for. */
    ghost function State(): Replica
      reads this
    {
      Replica(id, promise, active, preparing, start, high, next, executed, slots, known, frozen, snapshots, history, results)
    }

    constructor (id: nat, n: nat)
      ensures State() == Init(id) && this.n == n
    {
      this.id, this.n := id, n;
      promise, active, preparing, start, high, next, executed := 0, false, false, 0, -1, 0, -1;
      slots, known, frozen, snapshots, history, results := map[], {}, None, map[], [], map[];
    }

    /** The slot's state, allocated if it is not there. */
    method Slot(s: nat) returns (st: SlotState)
      modifies this`slots, this`high
      ensures st == old(SlotOf(State(), s)) && State() == SetSlot(old(State()), s, st)
    {
      if s > high { high := s; }
      if s !in slots { slots := slots[s := EMPTY_SLOT]; }
      st := slots[s];
      assert slots == old(slots)[s := st];
    }

    method RememberValue(v: Value)
      modifies this`known
      ensures State() == Remember(old(State()), v)
    {
      if !v.Noop? { known := known + {v.id}; }
    }

    /** Executes decided slots in order, each request once, until one is not decided or not known. */
    method ApplyDecided()
      modifies this`executed, this`history, this`results
      ensures State() == Apply(old(State()))
    {
      while true
        invariant Apply(State()) == Apply(old(State()))
        decreases |Pending(State())|
      {
        if executed + 1 < 0 || executed + 1 !in slots || slots[executed + 1].chosen.None? { return; }
        var v := slots[executed + 1].chosen.value.value;
        if !v.Noop? {
          if v.id !in known { return; }
        }
        assert CanApply(State()) && Pending(ApplyOne(State())) == Pending(State()) - {executed + 1} && executed + 1 in Pending(State());
        ghost var before := State();
        if !v.Noop? && v.id !in results {
          results := results[v.id := history];
          history := history + [v.id];
        }
        executed := executed + 1;
        assert State() == ApplyOne(before);
      }
    }

    /** Records a decision, and its payload if it came along. */
    method RecordDecision(e: Entry)
      modifies this`slots, this`high, this`known
      ensures State() == Decided(old(State()), e)
    {
      var s := Slot(e.slot);
      if e.payload { RememberValue(e.value); }
      slots := slots[e.slot := s.(chosen := Some(e.(decided := true)))];
    }

    /** Records a decision and executes what it makes executable. */
    method LearnEntry(e: Entry)
      modifies this`slots, this`high, this`known, this`executed, this`history, this`results
      ensures State() == Learn(old(State()), e)
    {
      LearnIsApply(State(), e);
      RecordDecision(e);
      ApplyDecided();
    }

    // Fast round

    method ProposeRequest(request: RequestId) returns (out: set<Msg>)
      requires CanProposeFast(State(), request)
      modifies this`slots, this`high, this`next
      ensures (State(), out) == ProposeFast(old(State()), request)
    {
      var s := next;
      next := next + 1;
      var st := Slot(s);
      out := {};
      if st.accepted.None? {
        slots := slots[s := st.(accepted := Some(Entry(s, 0, 1, Command(request), true, false)))];
        out := {Vote(id, s, Command(request))};
      }
    }

    method ReceiveVote(m: Msg)
      requires m.Vote?
      modifies this`slots, this`high, this`known, this`executed, this`history, this`results
      ensures State() == OnVote(old(State()), n, m)
    {
      if promise != 0 || m.value.Noop? { return; }
      var s := Slot(m.slot);
      if s.chosen.Some? || m.sender in s.votes { return; }
      s := s.(votes := s.votes[m.sender := m.value]);
      slots := slots[m.slot := s];
      assert State() == SetSlot(old(State()), m.slot, s);
      var support := CountSupport(s.votes, m.value);
      if support >= 3 * n / 4 + 1 { LearnEntry(Entry(m.slot, 0, 1, m.value, false, false)); }
    }

    // Epochs

    method AdoptEpoch(epoch: nat)
      modifies this`promise, this`active, this`preparing, this`frozen
      ensures State() == Adopt(old(State()), epoch)
    {
      if epoch <= promise { return; }
      promise, active, preparing, frozen := epoch, false, false, None;
    }

    method BeginEpoch() returns (out: set<Msg>)
      requires n > 0 && executed >= -1
      modifies this`promise, this`active, this`preparing, this`frozen, this`start, this`snapshots
      ensures (State(), out) == Begin(old(State()), n)
    {
      var e := (promise / n + 1) * n + id;
      AdoptEpoch(e);
      preparing := true;
      start := executed + 1;
      snapshots := map[];
      out := {Prepare(id, e, start)};
    }

    /** What a promise says of one slot, with the payload if it is known. */
    method ReportSlot(s: nat) returns (e: Option<Entry>)
      ensures e == ReportOf(State(), s)
    {
      if s !in slots { return None; }
      e := if slots[s].chosen.Some? then slots[s].chosen else slots[s].accepted;
      if e.Some? && !e.value.value.Noop? && e.value.value.id in known { e := Some(e.value.(payload := true)); }
    }

    /** The reports of all slots from `from` on. */
    method CollectReports(from: nat) returns (entries: seq<Entry>)
      ensures entries == Reports(State(), from)
    {
      entries := [];
      var s := from;
      while s <= high
        invariant from <= s && entries + Reports(State(), s) == Reports(State(), from)
        decreases high + 1 - s
      {
        ReportsFromNext(State(), s);
        var e := ReportSlot(s);
        if e.Some? { entries := entries + [e.value]; }
        s := s + 1;
      }
    }

    method ReceivePrepare(m: Msg) returns (out: set<Msg>)
      requires n > 0 && m.Prepare?
      modifies this`promise, this`active, this`preparing, this`frozen
      ensures (State(), out) == OnPrepare(old(State()), n, m)
    {
      OwnerIsRemainder(n, m.epoch);
      out := {};
      if m.epoch == 0 || m.epoch % n != m.sender { return; }
      if m.epoch < promise { return {Nack(id, promise)}; }
      AdoptEpoch(m.epoch);
      if frozen.Some? && frozen.value.start != m.start { return; }
      if frozen.None? {
        var entries := CollectReports(m.start);
        frozen := Some(Frozen(m.start, high, entries));
      }
      out := set p: nat | p < PageCount(frozen.value) :: Promise(id, promise, frozen.value, p);
    }
  
    // Recovery

    /** Records one page of a promise. */
    method StorePromise(m: Msg)
      requires m.Promise? && StoresPage(State(), m)
      modifies this`snapshots
      ensures State() == StorePage(old(State()), m)
    {
      var pages := PageCount(m.frozen);
      if m.sender !in snapshots { snapshots := snapshots[m.sender := Snapshot(pages, m.frozen.high, map[])]; }
      var s := snapshots[m.sender];
      assert snapshots == old(snapshots)[m.sender := s];
      if s.pages != pages || s.high != m.frozen.high { return; }
      if m.page !in s.parts {
        snapshots := snapshots[m.sender := s.(parts := s.parts[m.page := PageOf(m.frozen, m.page)])];
      }
    }

    /** Who has answered in full, and the highest slot among them. */
    method CountSnapshots() returns (voters: set<nat>, top: int)
      ensures voters == Responders(snapshots) && IsMaxHigh(State(), top)
    {
      voters, top := {}, start - 1;
      var rest := snapshots.Keys;
      while rest != {}
        invariant rest <= snapshots.Keys && voters == set i | i in snapshots && i !in rest && Complete(snapshots[i])
        invariant top >= start - 1 && forall i :: i in voters ==> snapshots[i].high <= top
        invariant top == start - 1 || exists i :: i in voters && snapshots[i].high == top
        decreases |rest|
      {
        var i :| i in rest;
        rest := rest - {i};
        var s := snapshots[i];
        if |s.parts| == s.pages {
          voters := voters + {i};
          if s.high > top { top := s.high; }
        }
      }
    }

    /** One report of a slot from every full answer that has any. */
    method ReportsOfSlot(voters: set<nat>, slot: nat) returns (reports: map<nat, Entry>)
      requires voters == Responders(snapshots)
      ensures ReportsFor(snapshots, slot, reports)
    {
      reports := map[];
      var rest := voters;
      while rest != {}
        invariant rest <= voters && forall i :: i in reports ==> i in voters && i !in rest
        invariant forall i :: i in reports ==> reports[i].slot == slot && Reported(snapshots[i], reports[i])
        invariant forall i, e :: i in voters && i !in rest && Reported(snapshots[i], e) && e.slot == slot ==> i in reports
        decreases |rest|
      {
        var i :| i in rest;
        rest := rest - {i};
        var e := FindReport(snapshots[i], slot);
        if e.Some? { reports := reports[i := e.value]; }
      }
    }

    /** A report of the slot in a snapshot, if it has one. */
    method FindReport(s: Snapshot, slot: nat) returns (e: Option<Entry>)
      ensures e.Some? ==> Reported(s, e.value) && e.value.slot == slot
      ensures e.None? ==> forall x :: Reported(s, x) ==> x.slot != slot
    {
      e := None;
      var rest := s.parts.Keys;
      while rest != {}
        invariant rest <= s.parts.Keys
        invariant e.Some? ==> Reported(s, e.value) && e.value.slot == slot
        invariant e.None? ==> forall p, x :: p in s.parts && p !in rest && x in s.parts[p] ==> x.slot != slot
        decreases |rest|
      {
        var p :| p in rest;
        rest := rest - {p};
        for k := 0 to |s.parts[p]|
          invariant e.Some? ==> Reported(s, e.value) && e.value.slot == slot
          invariant e.None? ==> forall q, x :: q in s.parts && q != p && q !in rest && x in s.parts[q] ==> x.slot != slot
          invariant e.None? ==> forall j :: 0 <= j < k ==> s.parts[p][j].slot != slot
        {
          if s.parts[p][k].slot == slot {
            assert s.parts[p][k] in s.parts[p];
            e := Some(s.parts[p][k]);
          }
        }
      }
    }

    /** The value selected for every slot to recover. */
    method SelectAll(voters: set<nat>, top: int) returns (sel: map<nat, Value>, panics: bool)
      requires voters == Responders(snapshots) && top >= start - 1
      ensures panics ==> exists s: nat, reports :: ReportsFor(snapshots, s, reports) && SelectPanics(reports)
      ensures !panics ==> forall s :: s in sel <==> start <= s <= top
      ensures !panics ==> forall s :: s in sel ==> exists reports ::
                ReportsFor(snapshots, s, reports) && Selects(reports, |Responders(snapshots)|, n, sel[s])
    {
      sel, panics := map[], false;
      var slot := start;
      while slot <= top
        invariant start <= slot <= top + 1
        invariant forall s :: s in sel <==> start <= s < slot
        invariant forall s :: s in sel ==> exists reports ::
                    ReportsFor(snapshots, s, reports) && Selects(reports, |Responders(snapshots)|, n, sel[s])
        decreases top - slot
      {
        var reports := ReportsOfSlot(voters, slot);
        var v, bad := SelectValue(reports, |voters|, n);
        if bad { return sel, true; }
        sel := sel[slot := v];
        slot := slot + 1;
      }
    }

    /** A fresh proposal for each recovered slot. */
    method ProposeRecovered(top: int, sel: map<nat, Value>)
      requires forall s :: s in sel <==> start <= s <= top
      modifies this`slots
      ensures slots == Proposals(old(State()), sel)
    {
      ghost var r := State();
      NoProposals(r, sel, start);
      var slot := start;
      while slot <= top
        invariant start <= slot && slots == Proposals(r, Part(sel, slot))
        decreases top - slot
      {
        MoreProposals(r, sel, slot);
        var st := if slot in slots then slots[slot] else EMPTY_SLOT;
        slots := slots[slot := st.(proposed := Some(Entry(slot, promise, 0, sel[slot], false, false)), acks := {})];
        slot := slot + 1;
      }
      assert Part(sel, slot) == sel;
    }

    /** Starts the classic epoch: a proposal for each recovered slot, and all payloads that came. */
    method StartEpoch(top: int, sel: map<nat, Value>)
      requires top >= -1 && forall s :: s in sel <==> start <= s <= top
      modifies this`preparing, this`active, this`high, this`next, this`slots, this`known
      ensures State() == Recover(old(State()), top, sel)
    {
      ProposeRecovered(top, sel);
      known := known + Payloads(snapshots);
      preparing, active, high, next := false, true, top, top + 1;
    }

    /** Stores a page; a majority of full answers makes this replica the coordinator of its epoch. */
    method ReceivePromise(m: Msg) returns (panics: bool)
      requires m.Promise? && n > 0
      modifies this
      ensures !StoresPage(old(State()), m) ==> !panics && State() == old(State())
      ensures StoresPage(old(State()), m) && !CompletesRecovery(old(State()), n, m) ==> !panics && State() == StorePage(old(State()), m)
      ensures !panics && CompletesRecovery(old(State()), n, m) ==>
                exists top, sel :: top >= -1 && ValidRecovery(StorePage(old(State()), m), n, top, sel)
                  && State() == Recover(StorePage(old(State()), m), top, sel)
      ensures panics ==> CompletesRecovery(old(State()), n, m) && exists s: nat, reports ::
                ReportsFor(StorePage(old(State()), m).snapshots, s, reports) && SelectPanics(reports)
    {
      panics := false;
      if !preparing || m.epoch != promise || m.frozen.start != start || m.page >= PageCount(m.frozen) { return; }
      StorePromise(m);
      var voters, top := CountSnapshots();
      if |voters| < n / 2 + 1 { return; }
      var sel, bad := SelectAll(voters, top);
      if bad { return true; }
      ghost var stored := State();
      StartEpoch(top, sel);
      assert ValidRecovery(stored, n, top, sel);
    }

    // Classic round

    method FlushRequest(request: RequestId) returns (out: set<Msg>)
      requires n > 0 && CanFlush(State(), n, request)
      modifies this`slots, this`high, this`next
      ensures (State(), out) == Flush(old(State()), n, request)
    {
      var e := Entry(next, promise, 0, Command(request), true, false);
      next := next + 1;
      var st := Slot(e.slot);
      slots := slots[e.slot := st.(proposed := Some(e), acks := {})];
      assert slots == old(slots)[e.slot := st.(proposed := Some(e), acks := {})];
      out := {Accept(id, promise, e.slot, e.value)};
    }

    method ReceiveAccept(m: Msg) returns (out: set<Msg>)
      requires n > 0 && m.Accept?
      modifies this`promise, this`active, this`preparing, this`frozen, this`known, this`slots, this`high
      ensures (State(), out) == OnAccept(old(State()), n, m)
    {
      OwnerIsRemainder(n, m.epoch);
      out := {};
      if m.epoch == 0 || m.epoch % n != m.sender { return; }
      if m.epoch < promise { return {Nack(id, promise)}; }
      AdoptEpoch(m.epoch);
      active := true;
      RememberValue(m.value);
      var s := Slot(m.slot);
      s := s.(accepted := Some(Entry(m.slot, m.epoch, 0, m.value, true, false)));
      slots := slots[m.slot := s];
      assert slots == old(slots)[m.slot := s];
      out := {Accepted(id, m.epoch, m.slot, m.value)};
    }

    method ReceiveAccepted(m: Msg) returns (out: set<Msg>)
      requires n > 0 && m.Accepted?
      modifies this`slots, this`high, this`known, this`executed, this`history, this`results
      ensures (State(), out) == OnAccepted(old(State()), n, m)
    {
      OwnerIsRemainder(n, promise);
      out := {};
      if !active || promise % n != id || m.epoch != promise { return; }
      if m.slot !in slots { return; }
      var s := slots[m.slot];
      if s.proposed.None? || s.proposed.value.epoch != m.epoch || s.chosen.Some? { return; }
      s := s.(acks := s.acks + {m.sender});
      slots := slots[m.slot := s];
      if |s.acks| >= n / 2 + 1 {
        var e := s.proposed.value.(payload := true, decided := true);
        LearnEntry(e);
        out := {Commit(id, m.slot, e.value, true)};
      }
    }

    method ReceiveCommit(m: Msg)
      requires m.Commit?
      modifies this`slots, this`high, this`known, this`executed, this`history, this`results
      ensures State() == OnCommit(old(State()), m)
    {
      LearnEntry(Entry(m.slot, 0, 0, m.value, m.payload, true));
    }
  }
}
