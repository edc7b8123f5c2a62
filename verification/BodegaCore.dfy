/**
  The Bodega replica as it runs. Beside the log it keeps, per key, the newest slot that writes it and
  the newest committed one, updated entry by entry; they are proved to be what a search of the log
  would find. Every handler is proved against its function in the protocol model.
*/
module BodegaCore {
  import opened Bodega
  import opened BodegaSystem
  import opened BodegaLeases
  import opened BodegaSafety
  import opened BodegaLogs
  import opened BodegaReads
  import opened Quorums

  function SlotOf(index: map<int, nat>, key: int): nat { if key in index then index[key] else 0 }

  /** The index tells, for every key, the newest of the given entries that writes it. */
  ghost predicate Indexes(index: map<int, nat>, es: map<nat, Entry>, high: nat) {
    forall key :: SlotOf(index, key) == LatestFrom(es, key, high)
  }

  function Restrict(es: map<nat, Entry>, s: set<nat>): map<nat, Entry> { map t | t in es && t in s :: es[t] }

  /** Slots start at one and none is above the highest. */
  ghost predicate Bounded(es: map<nat, Entry>, high: nat) { forall s :: s in es ==> 0 < s <= high }

  // Responders

  /** Ranges in ascending order, none empty and no two overlapping. */
  predicate ValidRanges(rs: seq<Range>) {
    (forall i :: 0 <= i < |rs| ==> rs[i].lo <= rs[i].hi) && forall i, j :: 0 <= i < j < |rs| ==> rs[i].hi < rs[j].lo
  }

  /** Only the first range that ends at or after the key can hold it. */
  lemma {:induction false} OverrideAt(rs: seq<Range>, key: int, i: nat)
    requires i <= |rs| && (forall j :: 0 <= j < i ==> rs[j].hi < key) && (i < |rs| ==> rs[i].hi >= key)
    ensures Override(rs, key) == if i < |rs| && rs[i].lo <= key then Some(rs[i].mask) else None
  {
    if i > 0 { OverrideAt(rs[1..], key, i - 1); }
  }

  /** Finds a key's responders by binary search over the ranges. */
  method RespondersByKey(r: Roster, key: int) returns (mask: set<nat>)
    requires ValidRanges(r.ranges)
    ensures mask == RespondersFor(r, key)
    ensures forall i :: 0 <= i < |r.ranges| && r.ranges[i].lo <= key <= r.ranges[i].hi ==> mask == r.ranges[i].mask + {r.leader}
    ensures (forall i :: 0 <= i < |r.ranges| ==> !(r.ranges[i].lo <= key <= r.ranges[i].hi)) ==> mask == r.mask + {r.leader}
  {
    var rs := r.ranges;
    var low, top := 0, |rs|;
    while low < top
      invariant 0 <= low <= top <= |rs|
      invariant forall j :: 0 <= j < low ==> rs[j].hi < key
      invariant forall j :: top <= j < |rs| ==> rs[j].hi >= key
    {
      var mid := (low + top) / 2;
      if rs[mid].hi >= key { top := mid; } else { low := mid + 1; }
    }
    OverrideAt(rs, key, low);
    mask := (if low < |rs| && rs[low].lo <= key then rs[low].mask else r.mask) + {r.leader};
  }

  // The newest slot of a key

  /** The newest slot is found exactly by its two properties. */
  lemma {:induction false} LatestIs(es: map<nat, Entry>, key: int, top: nat, t: nat)
    requires t <= top && (t == 0 || (t in es && Writes(es[t].value, key)))
    requires forall s :: t < s <= top && s in es ==> !Writes(es[s].value, key)
    ensures LatestFrom(es, key, top) == t
    decreases top
  {
    if t < top { LatestIs(es, key, top - 1, t); }
  }

  lemma {:induction false} LatestHas(es: map<nat, Entry>, key: int, top: nat)
    ensures var t := LatestFrom(es, key, top);
      && (t == 0 || (t in es && Writes(es[t].value, key)))
      && forall s :: t < s <= top && s in es ==> !Writes(es[s].value, key)
    decreases top
  {
    if top > 0 && !(top in es && Writes(es[top].value, key)) { LatestHas(es, key, top - 1); }
  }

  /** One more entry at a slot that had none, or the same value, raises the newest slot of its keys only. */
  lemma LatestAdds(es: map<nat, Entry>, high: nat, s: nat, e: Entry, key: int)
    requires Bounded(es, high) && s > 0 && (s in es ==> es[s].value == e.value)
    ensures LatestFrom(es[s := e], key, Max(high, s)) ==
            if Writes(e.value, key) then Max(LatestFrom(es, key, high), s) else LatestFrom(es, key, high)
  {
    var t := LatestFrom(es, key, high);
    LatestHas(es, key, high);
    LatestIs(es[s := e], key, Max(high, s), if Writes(e.value, key) then Max(t, s) else t);
  }

  /** Raises the index of every key that a value writes to a slot. */
  method IndexValue(index: map<int, nat>, v: Value, s: nat) returns (index': map<int, nat>)
    ensures forall key :: SlotOf(index', key) == if Writes(v, key) then Max(SlotOf(index, key), s) else SlotOf(index, key)
  {
    index' := index;
    for k := 0 to |v|
      invariant forall key :: SlotOf(index', key) == if Writes(v[..k], key) then Max(SlotOf(index, key), s) else SlotOf(index, key)
    {
      forall key ensures Writes(v[..k + 1], key) <==> Writes(v[..k], key) || (v[k].Put? && v[k].key == key) { WritesNext(v, k, key); }
      if v[k].Put? && s > SlotOf(index', v[k].key) { index' := index'[v[k].key := s]; }
    }
    assert v[..|v|] == v;
  }

  lemma WritesNext(v: Value, k: nat, key: int)
    requires k < |v|
    ensures Writes(v[..k + 1], key) <==> Writes(v[..k], key) || (v[k].Put? && v[k].key == key)
  {
    if Writes(v[..k], key) {
      var j :| 0 <= j < k && v[j].Put? && v[j].key == key;
      assert v[..k + 1][j] == v[j];
    }
    if v[k].Put? && v[k].key == key { assert v[..k + 1][k] == v[k]; }
  }

  lemma RestrictAdds(es: map<nat, Entry>, done: set<nat>, s: nat)
    requires s in es
    ensures Restrict(es, done + {s}) == Restrict(es, done)[s := es[s]]
  {
  }

  lemma IndexesAdds(index: map<int, nat>, index': map<int, nat>, es: map<nat, Entry>, high: nat, s: nat, e: Entry)
    requires Indexes(index, es, high) && Bounded(es, high) && s > 0 && (s in es ==> es[s].value == e.value)
    requires forall key :: SlotOf(index', key) == if Writes(e.value, key) then Max(SlotOf(index, key), s) else SlotOf(index, key)
    ensures Indexes(index', es[s := e], Max(high, s))
  {
    forall key ensures SlotOf(index', key) == LatestFrom(es[s := e], key, Max(high, s)) { LatestAdds(es, high, s, e, key); }
  }

  /** Rebuilds an index from scratch. */
  method Reindexed(es: map<nat, Entry>, high: nat) returns (index: map<int, nat>)
    requires Bounded(es, high)
    ensures Indexes(index, es, high)
  {
    index := map[];
    var rest := es.Keys;
    ghost var done: set<nat> := {};
    NothingIndexed(high);
    while rest != {}
      invariant rest <= es.Keys && done == es.Keys - rest && Indexes(index, Restrict(es, done), high)
      decreases |rest|
    {
      var s :| s in rest;
      rest := rest - {s};
      var next := IndexValue(index, es[s].value, s);
      IndexesAdds(index, next, Restrict(es, done), high, s, es[s]);
      RestrictAdds(es, done, s);
      index := next;
      done := done + {s};
    }
    assert Restrict(es, done) == es;
  }

  lemma NothingIndexed(high: nat)
    ensures Indexes(map[], map[], high) && forall es: map<nat, Entry> :: Restrict(es, {}) == map[]
  {
    forall key: int ensures LatestFrom(map[], key, high) == 0 { LatestIs(map[], key, high, 0); }
  }

  // The replica

  lemma InstallIs(x: Replica, now: nat)
    requires MayInstall(x.lease, now)
    ensures var leads := x.lease.pending.value.leader == x.id;
      && Install(x, now).0 == Replica(x.id, InstallLease(x.lease, x.log.high), InstallLog(x.log), InstallLead(x.lead, x.log, x.id, leads), map[])
      && Install(x, now).1 == if leads then {Prepare(x.id, x.lease.pending.value.ballot, x.log.prefix + 1)} else {}
  {
  }

  lemma ProposeIs(x: Replica, v: Value)
    ensures var s := x.log.next + 1;
      && Propose(x, v).0 == Replica(x.id, x.lease, AcceptEntry(x.log, s, Entry(Ballot(x), v)), x.lead.(votes := x.lead.votes[s := {x.id}]), x.held)
      && Propose(x, v).1 == {Accept(x.id, Ballot(x), s, v), Accepted(x.id, Ballot(x), s, v)}
  {
  }

  lemma RecoverIs(x: Replica, top: nat, sel: map<nat, Value>)
    requires forall t :: x.lead.prepareStart <= t <= top ==> t in sel
    ensures Recover(x, top, sel).0 == Replica(x.id, x.lease, Reaccept(x.log.(next := top), Ballot(x), sel, x.lead.prepareStart, top),
                                              x.lead.(prepared := true, snapshots := map[], votes := map s | s in sel :: {x.id}), x.held)
  {
  }

  class Core {
    const id: nat
    const c: Config
    var current: Roster
    var pending: Option<Roster>
    var threshold: nat
    var incoming: map<nat, Grant>
    var outgoing: map<nat, nat>
    var requests: map<nat, nat>
    var sequence: nat
    var revoked: map<nat, nat>
    var log: map<nat, Entry>
    var committed: set<nat>
    var latest: map<int, nat>
    var latestCommitted: map<int, nat>
    var prefix: nat
    var high: nat
    var next: nat
    var noticePrefix: nat
    var noticeSlots: set<nat>
    var prepared: bool
    var prepareStart: nat
    var snapshot: Option<Snapshot>
    var snapshots: map<nat, map<nat, Entry>>
    var votes: map<nat, set<nat>>
    var held: map<nat, Held>

    ghost function LeaseState(): Lease
      reads this
    {
      Lease(current, pending, threshold, incoming, outgoing, requests, sequence, revoked)
    }

    ghost function LogState(): Log
      reads this
    {
      Log(log, committed, prefix, high, next, noticePrefix, noticeSlots)
    }

    ghost function LeadState(): Lead
      reads this
    {
      Lead(prepared, prepareStart, snapshot, snapshots, votes)
    }

    /** The replica of the protocol model that this object stands for. */
    ghost function State(): Replica
      reads this
    {
      Replica(id, LeaseState(), LogState(), LeadState(), held)
    }

    /** The indexes agree with the log. */
    ghost predicate Valid()
      reads this
    {
      && Bounded(log, high) && committed <= log.Keys
      && Indexes(latest, log, high) && Indexes(latestCommitted, Restrict(log, committed), high)
    }

    constructor (id: nat, c: Config)
      ensures Valid() && State() == Init(id) && this.c == c
    {
      this.id, this.c := id, c;
      current, pending, threshold, incoming, outgoing := NO_ROSTER, None, 0, map[], map[];
      requests, sequence, revoked := map[], 0, map[];
      log, committed, latest, latestCommitted := map[], {}, map[], map[];
      prefix, high, next, noticePrefix, noticeSlots := 0, 0, 0, 0, {};
      prepared, prepareStart, snapshot, snapshots, votes, held := false, 0, None, map[], map[], map[];
      new;
      NothingIndexed(0);
    }

    // Authority

    /** A lease from `p` holds, and its threshold has been executed. */
    predicate Grants(p: nat, now: nat)
      reads this`incoming, this`prefix
    {
      p in incoming && now < incoming[p].until && prefix >= incoming[p].threshold
    }

    /** A majority of grantors, oneself among them, whose leases hold and whose thresholds are executed. */
    method IsStable(now: nat) returns (ok: bool)
      ensures ok <==> Stable(State(), c.n, now)
    {
      if current.ballot == 0 || pending.Some? { return false; }
      var supporters: set<nat> := {};
      if prefix >= threshold { supporters := {id}; }
      var rest := incoming.Keys;
      while rest != {}
        invariant rest <= incoming.Keys && (id in supporters <==> prefix >= threshold)
        invariant forall p :: p != id ==> (p in supporters <==> p !in rest && Grants(p, now))
        decreases |rest|
      {
        var p :| p in rest;
        rest := rest - {p};
        if p != id && Grants(p, now) { supporters := supporters + {p}; }
      }
      assert supporters == Supporters(State(), now);
      return |supporters| >= c.n / 2 + 1;
    }

    method HasReadAuthority(now: nat) returns (ok: bool)
      ensures ok <==> LocalReadAuthority(State(), c.n, now)
    {
      ok := false;
      if current.leader != id || prepared { ok := IsStable(now); }
    }

    // The log and its indexes

    /** Takes an entry into the log and keeps the indexes: a changed value is found by searching anew. */
    method AcceptAt(s: nat, e: Entry)
      requires Valid()
      modifies this`log, this`committed, this`latest, this`latestCommitted, this`high, this`next
      ensures Valid() && LogState() == AcceptEntry(old(LogState()), s, e)
    {
      if s == 0 { return; }
      if s in log && log[s].value != e.value { Replace(s, e); } else { Renew(s, e); }
    }

    method Put(s: nat, e: Entry)
      modifies this`log, this`high, this`next
      ensures log == old(log)[s := e] && high == Max(old(high), s) && next == Max(old(next), s)
    {
      log := log[s := e];
      if s > high { high := s; }
      if s > next { next := s; }
    }

    method Replace(s: nat, e: Entry)
      requires Valid() && s > 0 && s in log && log[s].value != e.value
      modifies this`log, this`committed, this`latest, this`latestCommitted, this`high, this`next
      ensures Valid() && LogState() == AcceptEntry(old(LogState()), s, e)
    {
      Put(s, e);
      committed := committed - {s};
      Reindex();
    }

    method Renew(s: nat, e: Entry)
      requires Valid() && s > 0 && (s in log ==> log[s].value == e.value)
      modifies this`log, this`latest, this`high, this`next
      ensures Valid() && LogState() == AcceptEntry(old(LogState()), s, e)
    {
      ghost var was, index := log, latest;
      Put(s, e);
      latest := IndexValue(latest, e.value, s);
      IndexesAdds(index, latest, was, old(high), s, e);
      if s in committed { RestrictChanges(was, committed, s, e, old(high)); } else { RestrictIgnores(was, committed, s, e, old(high)); }
      IndexesRise(latestCommitted, Restrict(log, committed), old(high), high);
    }

    /** Searches the log for the newest slots of all keys. */
    method Reindex()
      requires Bounded(log, high) && committed <= log.Keys
      modifies this`latest, this`latestCommitted
      ensures Valid()
    {
      latest := Reindexed(log, high);
      latestCommitted := Reindexed(map s | s in log && s in committed :: log[s], high);
      assert Restrict(log, committed) == map s | s in log && s in committed :: log[s];
    }

    method Mark(s: nat)
      requires Valid() && s in log
      modifies this`committed, this`latestCommitted
      ensures Valid() && LogState() == MarkCommitted(old(LogState()), s)
    {
      ghost var index := latestCommitted;
      latestCommitted := IndexValue(latestCommitted, log[s].value, s);
      IndexesAdds(index, latestCommitted, Restrict(log, committed), high, s, log[s]);
      RestrictAdds(log, committed, s);
      committed := committed + {s};
      assert Max(high, s) == high;
    }

    /** Executes committed slots in order. */
    method ApplyCommitted()
      modifies this`prefix
      ensures LogState() == Apply(old(LogState()))
    {
      while prefix + 1 in committed
        invariant Apply(LogState()) == Apply(old(LogState()))
        decreases |Unexecuted(LogState())|
      {
        ghost var l := LogState();
        assert Unexecuted(l.(prefix := l.prefix + 1)) == Unexecuted(l) - {l.prefix + 1} && l.prefix + 1 in Unexecuted(l);
        prefix := prefix + 1;
      }
    }

    // Rosters and leases

    /** A roster is pending and no lease granted to a peer is in force. */
    method CanInstall(now: nat) returns (yes: bool)
      ensures yes <==> MayInstall(LeaseState(), now)
    {
      if pending.None? { return false; }
      var rest := outgoing.Keys;
      while rest != {}
        invariant rest <= outgoing.Keys && forall p :: p in outgoing && p !in rest ==> outgoing[p] <= now
        decreases |rest|
      {
        var p :| p in rest;
        rest := rest - {p};
        if now < outgoing[p] { return false; }
      }
      return true;
    }

    /** Enters the pending roster's ballot. */
    method BeginBallot()
      requires pending.Some?
      modifies this`current, this`pending, this`threshold, this`outgoing, this`incoming, this`noticePrefix, this`noticeSlots
      ensures LeaseState() == InstallLease(old(LeaseState()), high) && LogState() == InstallLog(old(LogState()))
    {
      current, pending, threshold, outgoing, incoming := pending.value, None, high, map[], map[];
      noticePrefix, noticeSlots := 0, {};
    }

    /** Forgets the votes and the evidence of the last ballot; a leader freezes its own evidence. */
    method BeginLead(leads: bool)
      modifies this`snapshot, this`snapshots, this`prepareStart, this`votes
      ensures LeadState() == InstallLead(old(LeadState()), LogState(), id, leads)
    {
      snapshots, snapshot, prepareStart, votes := map[], None, prefix + 1, map[];
      if leads {
        var evidence := map s | s in log && s >= prepareStart :: log[s];
        snapshot, snapshots := Some(Snapshot(prepareStart, evidence)), map[id := evidence];
      }
    }

    /** Moves on to the pending roster once no lease granted in the current one is in force. */
    method InstallPending(now: nat) returns (out: set<Msg>)
      requires Valid()
      modifies this`current, this`pending, this`threshold, this`outgoing, this`incoming, this`noticePrefix, this`noticeSlots,
        this`snapshot, this`snapshots, this`prepareStart, this`votes, this`held
      ensures Valid() && State() == Install(old(State()), now).0 && out == Install(old(State()), now).1
    {
      out := {};
      var may := CanInstall(now);
      if may { out := EnterPending(now); }
    }

    method EnterPending(ghost now: nat) returns (out: set<Msg>)
      requires MayInstall(LeaseState(), now)
      modifies this`current, this`pending, this`threshold, this`outgoing, this`incoming, this`noticePrefix, this`noticeSlots,
        this`snapshot, this`snapshots, this`prepareStart, this`votes, this`held
      ensures State() == Install(old(State()), now).0 && out == Install(old(State()), now).1
    {
      InstallIs(State(), now);
      BeginLead(pending.value.leader == id);
      BeginBallot();
      held := map[];
      out := if current.leader == id then {Prepare(id, current.ballot, prefix + 1)} else {};
    }

    /** Reading authority ends at once when a newer roster is seen; the ballot changes later. */
    method ObserveRoster(r: Roster, now: nat) returns (out: set<Msg>)
      requires Valid()
      modifies this`current, this`pending, this`threshold, this`outgoing, this`incoming, this`requests, this`prepared,
        this`noticePrefix, this`noticeSlots, this`snapshot, this`snapshots, this`prepareStart, this`votes, this`held
      ensures Valid() && (State(), out) == Observe(old(State()), c.n, r, now)
    {
      out := {};
      if !ValidRoster(r, c.n) || r.ballot <= current.ballot || (pending.Some? && r.ballot <= pending.value.ballot) { return; }
      Await(r);
      out := InstallPending(now);
    }

    method Await(r: Roster)
      modifies this`pending, this`incoming, this`requests, this`prepared
      ensures LeaseState() == old(LeaseState()).(pending := Some(r), incoming := map[], requests := map[])
      ensures LeadState() == old(LeadState()).(prepared := false)
    {
      pending, incoming, requests, prepared := Some(r), map[], map[], false;
    }

    method ReceiveLeaseRequest(m: Msg, now: nat) returns (out: set<Msg>)
      requires m.LeaseRequest?
      modifies this`outgoing
      ensures (State(), out) == OnLeaseRequest(old(State()), c, m, now)
    {
      outgoing := outgoing[m.sender := now + c.lease + c.margin];
      out := {LeaseReply(id, current.ballot, m.sender, m.sequence, threshold, m.until)};
    }

    /** A reply counts from the request it answers, and not once its lease was given up. */
    method ReceiveLeaseReply(m: Msg, now: nat)
      requires m.LeaseReply?
      modifies this`incoming
      ensures State() == OnLeaseReply(old(State()), m, now)
    {
      if m.to != id || m.sequence !in requests { return; }
      var until := requests[m.sequence];
      var floor := if m.sender in revoked then revoked[m.sender] else 0;
      if m.ballot > floor && now < until && (m.sender in incoming ==> until > incoming[m.sender].until) {
        incoming := incoming[m.sender := Grant(until, m.threshold)];
      }
    }

    method ReceiveLeaseRevoke(m: Msg) returns (out: set<Msg>)
      requires m.LeaseRevoke?
      modifies this`incoming, this`revoked
      ensures (State(), out) == OnLeaseRevoke(old(State()), m)
    {
      if m.to != id { return {}; }
      var floor := if m.sender in revoked then revoked[m.sender] else 0;
      revoked := revoked[m.sender := if m.ballot > floor then m.ballot else floor];
      if current.ballot <= m.ballot { incoming := incoming - {m.sender}; }
      out := {LeaseRevoked(id, m.sender, m.ballot)};
    }

    method ReceiveLeaseRevoked(m: Msg, now: nat) returns (out: set<Msg>)
      requires Valid() && m.LeaseRevoked?
      modifies this`current, this`pending, this`threshold, this`outgoing, this`incoming, this`noticePrefix, this`noticeSlots,
        this`snapshot, this`snapshots, this`prepareStart, this`votes, this`held
      ensures Valid() && (State(), out) == OnLeaseRevoked(old(State()), m, now)
    {
      out := {};
      if m.to != id || pending.None? || pending.value.ballot <= current.ballot || m.ballot != current.ballot { return; }
      outgoing := outgoing - {m.sender};
      out := InstallPending(now);
    }

    // Commitment

    /** All responders of the keys that a value writes are among the voters. */
    method RespondersVoted(v: Value, voters: set<nat>) returns (ok: bool)
      ensures ok <==> ResponderCover(current, v) <= voters
    {
      for k := 0 to |v|
        invariant forall j :: 0 <= j < k && v[j].Put? ==> RespondersFor(current, v[j].key) <= voters
      {
        if v[k].Put? && !(RespondersFor(current, v[k].key) <= voters) {
          assert v[k].key in KeysWritten(v);
          var p :| p in RespondersFor(current, v[k].key) && p !in voters;
          assert p in ResponderCover(current, v);
          return false;
        }
      }
      return true;
    }

    /** Commits a slot that a majority and every responder of its keys has accepted. */
    method CommitIfCovered(s: nat) returns (out: set<Msg>)
      requires Valid()
      modifies this`committed, this`latestCommitted, this`prefix
      ensures Valid() && (State(), out) == TryCommit(old(State()), c.n, s)
    {
      out := {};
      if current.ballot == 0 || pending.Some? || !prepared || current.leader != id || s in committed || s !in log { return; }
      var voters := if s in votes then votes[s] else {};
      if |voters| < c.n / 2 + 1 { return; }
      var covered := RespondersVoted(log[s].value, voters);
      if !covered { return; }
      Mark(s);
      ApplyCommitted();
      out := {Commit(id, current.ballot, prefix, s)};
    }

    method ReceiveAccepted(m: Msg) returns (out: set<Msg>)
      requires Valid() && m.Accepted?
      modifies this`committed, this`latestCommitted, this`prefix, this`votes
      ensures Valid() && (State(), out) == OnAccepted(old(State()), c.n, m)
    {
      out := {};
      if current.ballot == 0 || pending.Some? || !prepared || current.leader != id { return; }
      if m.slot !in log || log[m.slot].ballot != m.ballot { return; }
      votes := votes[m.slot := (if m.slot in votes then votes[m.slot] else {}) + {m.sender}];
      assert State() == CountVote(old(State()), m);
      out := CommitIfCovered(m.slot);
    }

    /** A write takes the next slot; the leader's own vote is the first. */
    method ProposeWrite(v: Value) returns (out: set<Msg>)
      requires Valid()
      modifies this`log, this`committed, this`latest, this`latestCommitted, this`high, this`next, this`votes
      ensures Valid() && State() == Propose(old(State()), v).0 && out == Propose(old(State()), v).1
    {
      ProposeIs(State(), v);
      var s := next + 1;
      AppendWrite(s, v);
      out := {Accept(id, current.ballot, s, v), Accepted(id, current.ballot, s, v)};
    }

    method AppendWrite(s: nat, v: Value)
      requires Valid()
      modifies this`log, this`committed, this`latest, this`latestCommitted, this`high, this`next, this`votes
      ensures Valid() && LogState() == AcceptEntry(old(LogState()), s, Entry(current.ballot, v))
      ensures LeadState() == old(LeadState()).(votes := old(LeadState()).votes[s := {id}])
    {
      AcceptAt(s, Entry(current.ballot, v));
      StartVote(s);
    }

    method StartVote(s: nat)
      modifies this`votes
      ensures LeadState() == old(LeadState()).(votes := old(LeadState()).votes[s := {id}])
    {
      votes := votes[s := {id}];
    }

    // Recovery

    /** The newest reported entry of every slot that any gathered snapshot reports. */
    method NewestEntries() returns (selected: map<nat, Entry>)
      ensures forall s :: s in selected <==> Reported(snapshots, s)
      ensures forall s :: s in selected ==> IsSelected(snapshots, s, selected[s])
    {
      selected := map[];
      var rest := snapshots.Keys;
      while rest != {}
        invariant rest <= snapshots.Keys
        invariant forall s :: s in selected ==> exists i :: i in snapshots && s in snapshots[i] && snapshots[i][s] == selected[s]
        invariant forall i, s :: i in snapshots && i !in rest && s in snapshots[i] ==>
                    s in selected && snapshots[i][s].ballot <= selected[s].ballot
        decreases |rest|
      {
        var i :| i in rest;
        selected := MergeNewest(selected, i);
        rest := rest - {i};
      }
    }

    /** Takes over the entries of one snapshot that are newer, or of slots not seen before. */
    method MergeNewest(selected: map<nat, Entry>, i: nat) returns (merged: map<nat, Entry>)
      requires i in snapshots
      ensures forall s :: s in merged <==> s in selected || s in snapshots[i]
      ensures forall s :: s in merged ==> (s in selected && merged[s] == selected[s]) || (s in snapshots[i] && merged[s] == snapshots[i][s])
      ensures forall s :: s in selected ==> selected[s].ballot <= merged[s].ballot
      ensures forall s :: s in snapshots[i] ==> snapshots[i][s].ballot <= merged[s].ballot
    {
      merged := selected;
      var es := snapshots[i];
      var rest := es.Keys;
      while rest != {}
        invariant rest <= es.Keys
        invariant forall s :: s in merged <==> s in selected || (s in es && s !in rest)
        invariant forall s :: s in merged ==> (s in selected && merged[s] == selected[s]) || (s in es && merged[s] == es[s])
        invariant forall s :: s in selected ==> selected[s].ballot <= merged[s].ballot
        invariant forall s :: s in es && s !in rest ==> es[s].ballot <= merged[s].ballot
        decreases |rest|
      {
        var s :| s in rest;
        rest := rest - {s};
        if s !in merged || es[s].ballot > merged[s].ballot { merged := merged[s := es[s]]; }
      }
    }

    /** The highest slot among the selected entries, not below the slot before the start. */
    method HighestSlot(selected: map<nat, Entry>) returns (top: nat)
      requires prepareStart > 0
      ensures top + 1 >= prepareStart && forall s :: s in selected ==> s <= top
    {
      top := prepareStart - 1;
      var rest := selected.Keys;
      while rest != {}
        invariant rest <= selected.Keys && top + 1 >= prepareStart && forall s :: s in selected && s !in rest ==> s <= top
        decreases |rest|
      {
        var s :| s in rest;
        rest := rest - {s};
        if s > top { top := s; }
      }
    }

    /** What to propose again: the newest reported value of each slot, or the no-op in the gaps. */
    method SelectValues() returns (top: nat, sel: map<nat, Value>)
      requires prepareStart > 0
      ensures IsSelection(LeadState(), top, sel)
    {
      var selected := NewestEntries();
      top := HighestSlot(selected);
      sel := map[];
      var s := prepareStart;
      while s <= top
        invariant prepareStart <= s <= top + 1
        invariant forall t :: t in sel <==> prepareStart <= t < s
        invariant forall t :: t in sel ==> sel[t] == if t in selected then selected[t].value else NOOP
        decreases top + 1 - s
      {
        sel := sel[s := if s in selected then selected[s].value else NOOP];
        s := s + 1;
      }
    }

    /** Accepts the selected values one slot after the other. */
    method AcceptAll(sel: map<nat, Value>, from: nat, top: nat)
      requires Valid() && forall t :: from <= t <= top ==> t in sel
      modifies this`log, this`committed, this`latest, this`latestCommitted, this`high, this`next
      ensures Valid() && LogState() == Reaccept(old(LogState()), current.ballot, sel, from, top)
    {
      ghost var goal := Reaccept(LogState(), current.ballot, sel, from, top);
      var s := from;
      while s <= top
        invariant from <= s && Valid() && Reaccept(LogState(), current.ballot, sel, s, top) == goal
        decreases top + 1 - s
      {
        AcceptAt(s, Entry(current.ballot, sel[s]));
        s := s + 1;
      }
    }

    /** With a majority of snapshots a leader proposes again what they leave open, and is prepared. */
    method FinishPrepare() returns (out: set<Msg>)
      requires Valid() && prepareStart > 0 && current.leader == id
      modifies this`log, this`committed, this`latest, this`latestCommitted, this`high, this`next, this`prepared, this`snapshots, this`votes
      ensures Valid()
      ensures exists top, sel :: IsSelection(old(LeadState()), top, sel) && (State(), out) == Recover(old(State()), top, sel)
    {
      var top, sel := SelectValues();
      ghost var x := State();
      assert IsSelection(x.lead, top, sel);
      RecoverIs(x, top, sel);
      ProposeAgain(top, sel);
      out := (set s | s in sel :: Accept(id, current.ballot, s, sel[s])) + (set s | s in sel :: Accepted(id, current.ballot, s, sel[s]));
      assert State() == Recover(x, top, sel).0 && out == Recover(x, top, sel).1;
    }

    method ProposeAgain(top: nat, sel: map<nat, Value>)
      requires Valid() && forall t :: prepareStart <= t <= top ==> t in sel
      modifies this`log, this`committed, this`latest, this`latestCommitted, this`high, this`next, this`prepared, this`snapshots, this`votes
      ensures Valid() && LogState() == Reaccept(old(LogState()).(next := top), current.ballot, sel, prepareStart, top)
      ensures LeadState() == old(LeadState()).(prepared := true, snapshots := map[], votes := map s | s in sel :: {id})
    {
      ResetNext(top);
      AcceptAll(sel, prepareStart, top);
      BecomePrepared(sel);
    }

    method ResetNext(top: nat)
      modifies this`next
      ensures LogState() == old(LogState()).(next := top)
    {
      next := top;
    }

    method BecomePrepared(sel: map<nat, Value>)
      modifies this`prepared, this`snapshots, this`votes
      ensures LeadState() == old(LeadState()).(prepared := true, snapshots := map[], votes := map s | s in sel :: {id})
    {
      prepared, snapshots, votes := true, map[], map s | s in sel :: {id};
    }

    // Notices

    /** A notice commits a slot only with the current ballot's value. */
    method NoticeSlot(s: nat)
      requires Valid()
      modifies this`committed, this`latestCommitted, this`noticeSlots
      ensures Valid() && LogState() == ApplyNoticed(old(LogState()), current.ballot, s)
    {
      if s == 0 || (s > noticePrefix && s !in noticeSlots) { return; }
      if s !in log || log[s].ballot != current.ballot { return; }
      Mark(s);
      noticeSlots := noticeSlots - {s};
    }

    /** Commits from the prefix on what the notices cover, up to the first gap, and executes it. */
    method FollowNotices()
      requires Valid()
      modifies this`committed, this`latestCommitted, this`noticeSlots, this`prefix
      ensures Valid() && LogState() == CatchUp(old(LogState()), current.ballot)
    {
      ghost var b, goal := current.ballot, ApplyNoticedFrom(LogState(), current.ballot, prefix + 1);
      var s := prefix + 1;
      while s <= noticePrefix && s in log && log[s].ballot == current.ballot
        invariant Valid() && current.ballot == b && ApplyNoticedFrom(LogState(), b, s) == goal
        invariant noticePrefix == old(noticePrefix)
        decreases noticePrefix + 1 - s
        modifies this`committed, this`latestCommitted, this`noticeSlots
      {
        NoticeSlot(s);
        s := s + 1;
      }
      ApplyCommitted();
    }

    method ReceiveNotice(upTo: nat, slot: nat)
      requires Valid()
      modifies this`committed, this`latestCommitted, this`noticeSlots, this`noticePrefix, this`prefix
      ensures Valid() && LogState() == LearnNotice(old(LogState()), current.ballot, upTo, slot)
    {
      if upTo > noticePrefix { noticePrefix := upTo; }
      if slot > prefix {
        noticeSlots := noticeSlots + {slot};
        NoticeSlot(slot);
      }
      assert LogState() == Hear(old(LogState()), current.ballot, upTo, slot);
      FollowNotices();
    }

    /** Takes an entry of the current ballot, and commits what notices say of it. */
    method AcceptNoticed(s: nat, v: Value)
      requires Valid()
      modifies this`log, this`committed, this`latest, this`latestCommitted, this`high, this`next,
        this`noticeSlots, this`noticePrefix, this`prefix
      ensures Valid() && LogState() == AcceptAndNotice(old(LogState()), current.ballot, s, v)
    {
      AcceptAt(s, Entry(current.ballot, v));
      NoticeSlot(s);
      ReceiveNotice(0, 0);
    }

    method ReceiveAccept(m: Msg) returns (out: set<Msg>)
      requires Valid() && m.Accept? && m.ballot == current.ballot
      modifies this`log, this`committed, this`latest, this`latestCommitted, this`high, this`next,
        this`noticeSlots, this`noticePrefix, this`prefix
      ensures Valid() && (State(), out) == OnAccept(old(State()), m)
    {
      AcceptNoticed(m.slot, m.value);
      out := {Accepted(id, m.ballot, m.slot, m.value)};
    }

    method ReceiveCommittedEntry(m: Msg)
      requires Valid() && m.CommittedEntry? && m.ballot == current.ballot && m.slot > 0
      modifies this`log, this`committed, this`latest, this`latestCommitted, this`high, this`next, this`prefix
      ensures Valid() && LogState() == LearnCommitted(old(LogState()), m.ballot, m.slot, m.value)
    {
      if m.slot <= prefix { return; }
      AcceptAt(m.slot, Entry(m.ballot, m.value));
      Mark(m.slot);
      ApplyCommitted();
    }

    // Reads

    /** The slot a read has to reflect, from the indexes. */
    method SlotToRead(key: int) returns (s: nat)
      requires Valid()
      ensures s == ReadSlot(State(), key)
    {
      var index := if current.leader == id then latestCommitted else latest;
      s := if key in index then index[key] else 0;
      assert SlotOf(latest, key) == Latest(LogState(), key);
      assert Restrict(log, committed) == map t | t in log && t in committed :: log[t];
      assert SlotOf(latestCommitted, key) == LatestCommitted(LogState(), key);
    }
  }

  /** The committed part of a log, one of whose committed entries is renewed with the same value. */
  lemma RestrictChanges(es: map<nat, Entry>, marked: set<nat>, s: nat, e: Entry, high: nat)
    requires s in es && s in marked && es[s].value == e.value && Bounded(es, high)
    ensures forall key :: LatestFrom(Restrict(es[s := e], marked), key, high) == LatestFrom(Restrict(es, marked), key, high)
  {
    var a, b := Restrict(es[s := e], marked), Restrict(es, marked);
    assert forall t :: t in a <==> t in b;
    assert forall t :: t in a ==> a[t].value == b[t].value;
    forall key ensures LatestFrom(a, key, high) == LatestFrom(b, key, high) {
      LatestHas(b, key, high);
      LatestIs(a, key, high, LatestFrom(b, key, high));
    }
  }

  lemma RestrictIgnores(es: map<nat, Entry>, marked: set<nat>, s: nat, e: Entry, high: nat)
    requires s !in marked
    ensures Restrict(es[s := e], marked) == Restrict(es, marked)
  {
  }

  /** An index stays right when the highest slot rises over slots that hold nothing. */
  lemma IndexesRise(index: map<int, nat>, es: map<nat, Entry>, high: nat, high': nat)
    requires high <= high' && Bounded(es, high') && (forall key :: SlotOf(index, key) == LatestFrom(es, key, high))
    requires forall s :: s in es ==> s <= high
    ensures Indexes(index, es, high')
  {
    forall key ensures SlotOf(index, key) == LatestFrom(es, key, high') {
      LatestHas(es, key, high);
      LatestIs(es, key, high', LatestFrom(es, key, high));
    }
  }
}
