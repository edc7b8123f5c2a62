/** Every operation on a replica's log keeps it true to what has been sent. */
module BodegaLogs {
  import opened Bodega
  import opened BodegaSystem
  import opened BodegaLeases
  import opened BodegaSafety
  import opened BodegaFrame
  import opened Quorums

  /** Value `v` is the only one that slot `s` can have in ballot `b`. */
  ghost predicate Sole(net: set<Msg>, n: nat, i: nat, b: nat, s: nat, v: Value) {
    && EntryOk(net, n, s, Entry(b, v))
    && (forall w :: DecidedBy(net, n, b, s, w) ==> w == v) && (forall w :: Voted(net, i, b, s, w) ==> w == v)
  }

  lemma EntryIsSole(c: Config, T: System, i: nat, b: nat, s: nat, v: Value)
    requires MsgInv(c, T) && EntryOk(T.net, c.n, s, Entry(b, v))
    ensures Sole(T.net, c.n, i, b, s, v)
  {
    forall w | DecidedBy(T.net, c.n, b, s, w) ensures w == v { EntryFollowsDecision(c, T, s, Entry(b, v), b, w); }
    forall w | Voted(T.net, i, b, s, w) ensures w == v {
      VoteIsSafe(c, T, i, b, s, w);
      EntriesAgree(c, T, s, b, v, w);
    }
  }

  lemma AcceptKeep(net: set<Msg>, n: nat, i: nat, b: nat, l: Log, s: nat, v: Value)
    requires LogOk(net, n, i, b, l) && s > 0 && Sole(net, n, i, b, s, v)
    ensures LogOk(net, n, i, b, AcceptEntry(l, s, Entry(b, v)))
  {
    var y := AcceptEntry(l, s, Entry(b, v));
    forall t: nat | 0 < t <= y.prefix ensures t in y.committed { assert t in l.committed; }
  }

  lemma MarkKeep(net: set<Msg>, n: nat, i: nat, b: nat, l: Log, s: nat)
    requires LogOk(net, n, i, b, l) && s in l.entries && DecidedBy(net, n, b, s, l.entries[s].value)
    ensures LogOk(net, n, i, b, MarkCommitted(l, s))
  {
  }

  lemma {:induction false} ApplyShape(l: Log)
    ensures Apply(l) == l.(prefix := Apply(l).prefix) && l.prefix <= Apply(l).prefix
    ensures forall s :: l.prefix < s <= Apply(l).prefix ==> s in l.committed
    decreases |Unexecuted(l)|
  {
    if l.prefix + 1 in l.committed {
      var y := l.(prefix := l.prefix + 1);
      assert Unexecuted(y) == Unexecuted(l) - {l.prefix + 1} && l.prefix + 1 in Unexecuted(l);
      ApplyShape(y);
    }
  }

  lemma ApplyKeep(net: set<Msg>, n: nat, i: nat, b: nat, l: Log)
    requires LogOk(net, n, i, b, l)
    ensures LogOk(net, n, i, b, Apply(l)) && LogGrows(l, Apply(l))
  {
    ApplyShape(l);
  }

  /** What operations on an unchanged set of proposals leave alone. */
  predicate LogGrows(l: Log, m: Log) {
    m.entries == l.entries && l.committed <= m.committed && l.prefix <= m.prefix && m.high == l.high && m.next == l.next
  }

  lemma NoticedKeep(c: Config, T: System, i: nat, b: nat, l: Log, s: nat)
    requires MsgInv(c, T) && LogOk(T.net, c.n, i, b, l)
    ensures LogOk(T.net, c.n, i, b, ApplyNoticed(l, b, s)) && LogGrows(l, ApplyNoticed(l, b, s))
  {
    if ApplyNoticed(l, b, s) != l {
      assert Known(T.net, c.n, b, s);
      var v :| DecidedBy(T.net, c.n, b, s, v);
      EntryFollowsDecision(c, T, s, l.entries[s], b, v);
      MarkKeep(T.net, c.n, i, b, l, s);
    }
  }

  lemma GrowsTransitive(l: Log, m: Log, k: Log)
    requires LogGrows(l, m) && LogGrows(m, k)
    ensures LogGrows(l, k)
  {
  }

  lemma {:induction false} NoticedFromKeep(c: Config, T: System, i: nat, b: nat, l: Log, s: nat)
    requires MsgInv(c, T) && LogOk(T.net, c.n, i, b, l)
    ensures LogOk(T.net, c.n, i, b, ApplyNoticedFrom(l, b, s)) && LogGrows(l, ApplyNoticedFrom(l, b, s))
    decreases l.noticePrefix + 1 - s
  {
    if s <= l.noticePrefix && s in l.entries && l.entries[s].ballot == b {
      var y := ApplyNoticed(l, b, s);
      NoticedKeep(c, T, i, b, l, s);
      NoticedFromKeep(c, T, i, b, y, s + 1);
      GrowsTransitive(l, y, ApplyNoticedFrom(y, b, s + 1));
    }
  }

  lemma NoteKeep(net: set<Msg>, n: nat, i: nat, b: nat, l: Log, prefix: nat, slots: set<nat>)
    requires LogOk(net, n, i, b, l)
    requires forall t: nat :: 0 < t <= prefix || (t > 0 && t in slots) ==> Known(net, n, b, t)
    ensures var y := l.(noticePrefix := Max(l.noticePrefix, prefix), noticeSlots := l.noticeSlots + slots);
      LogOk(net, n, i, b, y) && LogGrows(l, y)
  {
  }

  lemma HearKeep(c: Config, T: System, i: nat, b: nat, l: Log, prefix: nat, slot: nat)
    requires MsgInv(c, T) && LogOk(T.net, c.n, i, b, l)
    requires (forall t: nat :: 0 < t <= prefix ==> Known(T.net, c.n, b, t)) && (slot > 0 ==> Known(T.net, c.n, b, slot))
    ensures LogOk(T.net, c.n, i, b, Hear(l, b, prefix, slot)) && LogGrows(l, Hear(l, b, prefix, slot))
  {
    if slot > l.prefix {
      var y := l.(noticePrefix := Max(l.noticePrefix, prefix), noticeSlots := l.noticeSlots + {slot});
      NoteKeep(T.net, c.n, i, b, l, prefix, {slot});
      NoticedKeep(c, T, i, b, y, slot);
      GrowsTransitive(l, y, ApplyNoticed(y, b, slot));
    } else {
      NoteKeep(T.net, c.n, i, b, l, prefix, {});
      assert l.noticeSlots + {} == l.noticeSlots;
    }
  }

  lemma LearnNoticeKeep(c: Config, T: System, i: nat, b: nat, l: Log, prefix: nat, slot: nat)
    requires MsgInv(c, T) && LogOk(T.net, c.n, i, b, l)
    requires (forall t: nat :: 0 < t <= prefix ==> Known(T.net, c.n, b, t)) && (slot > 0 ==> Known(T.net, c.n, b, slot))
    ensures LogOk(T.net, c.n, i, b, LearnNotice(l, b, prefix, slot)) && LogGrows(l, LearnNotice(l, b, prefix, slot))
  {
    var z := Hear(l, b, prefix, slot);
    HearKeep(c, T, i, b, l, prefix, slot);
    CatchUpKeep(c, T, i, b, z);
    GrowsTransitive(l, z, CatchUp(z, b));
  }

  lemma CatchUpKeep(c: Config, T: System, i: nat, b: nat, l: Log)
    requires MsgInv(c, T) && LogOk(T.net, c.n, i, b, l)
    ensures LogOk(T.net, c.n, i, b, CatchUp(l, b)) && LogGrows(l, CatchUp(l, b))
  {
    var w := ApplyNoticedFrom(l, b, l.prefix + 1);
    NoticedFromKeep(c, T, i, b, l, l.prefix + 1);
    ApplyKeep(T.net, c.n, i, b, w);
    GrowsTransitive(l, w, Apply(w));
  }

  lemma AcceptAndNoticeKeep(c: Config, T: System, i: nat, b: nat, l: Log, s: nat, v: Value)
    requires MsgInv(c, T) && LogOk(T.net, c.n, i, b, l) && s > 0 && EntryOk(T.net, c.n, s, Entry(b, v))
    ensures LogOk(T.net, c.n, i, b, AcceptAndNotice(l, b, s, v))
    ensures LogGrows(AcceptEntry(l, s, Entry(b, v)), AcceptAndNotice(l, b, s, v))
  {
    EntryIsSole(c, T, i, b, s, v);
    var y := AcceptEntry(l, s, Entry(b, v));
    AcceptKeep(T.net, c.n, i, b, l, s, v);
    NoticedKeep(c, T, i, b, y, s);
    LearnNoticeKeep(c, T, i, b, ApplyNoticed(y, b, s), 0, 0);
    GrowsTransitive(y, ApplyNoticed(y, b, s), AcceptAndNotice(l, b, s, v));
  }

  lemma LearnCommittedKeep(c: Config, T: System, i: nat, b: nat, l: Log, s: nat, v: Value)
    requires MsgInv(c, T) && LogOk(T.net, c.n, i, b, l) && s > 0 && DecidedBy(T.net, c.n, b, s, v)
    ensures LogOk(T.net, c.n, i, b, LearnCommitted(l, b, s, v))
    ensures s > l.prefix ==> LogGrows(AcceptEntry(l, s, Entry(b, v)), LearnCommitted(l, b, s, v))
  {
    if s > l.prefix {
      EntryIsSole(c, T, i, b, s, v);
      var y := AcceptEntry(l, s, Entry(b, v));
      AcceptKeep(T.net, c.n, i, b, l, s, v);
      MarkKeep(T.net, c.n, i, b, y, s);
      ApplyKeep(T.net, c.n, i, b, MarkCommitted(y, s));
    }
  }

  lemma {:induction false} ReacceptKeep(net: set<Msg>, n: nat, i: nat, b: nat, l: Log, sel: map<nat, Value>, s: nat, top: nat)
    requires LogOk(net, n, i, b, l) && s > 0 && (forall t :: s <= t <= top ==> t in sel)
    requires forall t: nat :: s <= t <= top ==> Sole(net, n, i, b, t, sel[t])
    ensures LogOk(net, n, i, b, Reaccept(l, b, sel, s, top))
    decreases top + 1 - s
  {
    if s <= top {
      AcceptKeep(net, n, i, b, l, s, sel[s]);
      ReacceptKeep(net, n, i, b, AcceptEntry(l, s, Entry(b, sel[s])), sel, s + 1, top);
    }
  }

  lemma {:induction false} ReacceptShape(l: Log, b: nat, sel: map<nat, Value>, s: nat, top: nat)
    requires s > 0 && forall t :: s <= t <= top ==> t in sel
    ensures var m := Reaccept(l, b, sel, s, top);
      && (forall t :: t in m.entries <==> t in l.entries || s <= t <= top)
      && (forall t :: t in m.entries ==> m.entries[t] == if s <= t <= top then Entry(b, sel[t]) else l.entries[t])
      && m.next == (if s <= top then Max(l.next, top) else l.next) && m.prefix == l.prefix
      && m.high == (if s <= top then Max(l.high, top) else l.high)
    decreases top + 1 - s
  {
    if s <= top { ReacceptShape(AcceptEntry(l, s, Entry(b, sel[s])), b, sel, s + 1, top); }
  }

  /** Votes for what the log holds in the current ballot are true to the log. */
  lemma VotesKeep(net: set<Msg>, net': set<Msg>, n: nat, i: nat, b: nat, l: Log)
    requires LogOk(net, n, i, b, l) && net <= net'
    requires forall d: nat, s: nat, v :: Voted(net', i, d, s, v) && !Voted(net, i, d, s, v) ==>
               d == b && s in l.entries && l.entries[s] == Entry(b, v)
    ensures LogOk(net', n, i, b, l)
  {
    forall s: nat | s in l.entries ensures l.entries[s].ballot <= b && s <= l.high && EntryOk(net', n, s, l.entries[s]) {
      EntryStays(net, net', n, s, l.entries[s]);
    }
    forall s: nat | s in l.committed ensures s in l.entries && DecidedBy(net', n, b, s, l.entries[s].value) {
      DecidedStays(net, net', n, b, b, s, l.entries[s].value);
    }
    forall t: nat | 0 < t <= l.noticePrefix || (t > 0 && t in l.noticeSlots) ensures Known(net', n, b, t) {
      KnownStays(net, net', n, b, b, t);
    }
  }
}
