/**
  Execution order of committed EPaxos instances.

  Commitment fixes an instance's sequence number and its newest dependency in each row. An order is
  right when what an instance depends on comes first, and when instances that depend on each other
  come in the order of their sequence numbers and identifiers.
*/
module EPaxosOrder {

  datatype Id = Id(replica: nat, instance: nat)

  /** `deps[q]` is the newest instance of row `q` depended on, negative when there is none. */
  datatype Attributes = Attributes(seqno: int, deps: seq<int>)

  type Graph = map<Id, Attributes>

  predicate Edge(g: Graph, a: Id, b: Id) {
    a in g && b.replica < |g[a].deps| && g[a].deps[b.replica] == b.instance
  }

  ghost predicate Path(g: Graph, s: seq<Id>) {
    |s| > 0 && forall k :: 0 <= k < |s| - 1 ==> Edge(g, s[k], s[k + 1])
  }

  ghost predicate Goes(g: Graph, s: seq<Id>, a: Id, b: Id) { Path(g, s) && s[0] == a && s[|s| - 1] == b }

  ghost predicate Reach(g: Graph, a: Id, b: Id) { exists s :: Goes(g, s, a, b) }

  lemma ReachSelf(g: Graph, a: Id)
    ensures Reach(g, a, a)
  {
    assert Goes(g, [a], a, a);
  }

  lemma ReachEdge(g: Graph, a: Id, b: Id)
    requires Edge(g, a, b)
    ensures Reach(g, a, b)
  {
    assert Goes(g, [a, b], a, b);
  }

  lemma ReachTransitive(g: Graph, a: Id, b: Id, c: Id)
    requires Reach(g, a, b) && Reach(g, b, c)
    ensures Reach(g, a, c)
  {
    var s :| Goes(g, s, a, b);
    var t :| Goes(g, t, b, c);
    var u := s + t[1..];
    forall k | 0 <= k < |u| - 1 ensures Edge(g, u[k], u[k + 1]) {
      if k >= |s| - 1 {
        assert u[k] == t[k - (|s| - 1)] && u[k + 1] == t[k + 1 - (|s| - 1)];
      }
    }
    assert Goes(g, u, a, c);
  }

  ghost predicate Closed(g: Graph, s: seq<Id>) { forall a, b :: a in s && Edge(g, a, b) ==> b in s }

  lemma {:induction false} PathInside(g: Graph, s: seq<Id>, path: seq<Id>)
    requires Closed(g, s) && Path(g, path) && path[0] in s
    ensures path[|path| - 1] in s
    decreases |path|
  {
    if |path| > 1 {
      assert Edge(g, path[0], path[1]);
      PathInside(g, s, path[1..]);
    }
  }

  lemma ReachInside(g: Graph, s: seq<Id>, a: Id, b: Id)
    requires Closed(g, s) && a in s && Reach(g, a, b)
    ensures b in s
  {
    var path :| Goes(g, path, a, b);
    PathInside(g, s, path);
  }

  // Order within a component

  /** By sequence number, then row, then position in the row. */
  predicate LessBy(m: int, a: Id, n: int, b: Id) {
    m < n || (m == n && a.replica < b.replica) || (m == n && a.replica == b.replica && a.instance < b.instance)
  }

  predicate Less(g: Graph, a: Id, b: Id)
    requires a in g && b in g
  {
    LessBy(g[a].seqno, a, g[b].seqno, b)
  }

  ghost predicate Distinct(s: seq<Id>) { forall i, j :: 0 <= i < j < |s| ==> s[i] != s[j] }

  predicate Sorted(g: Graph, s: seq<Id>) {
    && (forall a :: a in s ==> a in g)
    && forall i, j :: 0 <= i < j < |s| ==> Less(g, s[i], s[j])
  }

  /** An instance that depends on a later one depends on it mutually, and is the lesser of the two. */
  ghost predicate InOrder(g: Graph, a: Id, b: Id) {
    Reach(g, a, b) ==> Reach(g, b, a) && a in g && b in g && Less(g, a, b)
  }

  /** The right orders: nothing twice, nothing before what it depends on. */
  ghost predicate Ordered(g: Graph, order: seq<Id>) {
    && Distinct(order) && Closed(g, order)
    && forall i, j :: 0 <= i < j < |order| ==> InOrder(g, order[i], order[j])
  }

  ghost predicate Precedes(order: seq<Id>, a: Id, b: Id) {
    exists i, j :: 0 <= i < j < |order| && order[i] == a && order[j] == b
  }

  lemma Comparable(order: seq<Id>, a: Id, b: Id)
    requires a in order && b in order && a != b
    ensures Precedes(order, a, b) || Precedes(order, b, a)
  {
    var i :| 0 <= i < |order| && order[i] == a;
    var j :| 0 <= j < |order| && order[j] == b;
    if i < j { assert Precedes(order, a, b); } else { assert Precedes(order, b, a); }
  }

  lemma EarlierInOrder(g: Graph, order: seq<Id>, a: Id, b: Id)
    requires Ordered(g, order) && Precedes(order, a, b)
    ensures InOrder(g, a, b) && a != b
  {
  }

  /**
    Any two right orders, of whatever instances, agree on every two instances of which one depends,
    directly or not, on the other.
  */
  lemma OrdersAgree(g: Graph, o1: seq<Id>, o2: seq<Id>, a: Id, b: Id)
    requires Ordered(g, o1) && Ordered(g, o2)
    requires a in o2 && b in o2 && Precedes(o1, a, b) && (Reach(g, a, b) || Reach(g, b, a))
    ensures Precedes(o2, a, b) && !Precedes(o2, b, a)
  {
    EarlierInOrder(g, o1, a, b);
    Comparable(o2, a, b);
    if Precedes(o2, b, a) { EarlierInOrder(g, o2, b, a); }
  }

  /** Executing a whole component, once all it depends on has been executed, keeps an order right. */
  lemma ComponentKeepsOrder(g: Graph, order: seq<Id>, list: seq<Id>)
    requires Ordered(g, order) && Sorted(g, list) && Distinct(list)
    requires forall a :: a in list ==> a !in order
    requires forall a, b :: a in list && Edge(g, a, b) ==> b in list || b in order
    requires forall a, b :: a in list && b in list ==> Reach(g, a, b)
    ensures Ordered(g, order + list)
  {
    var all := order + list;
    assert Closed(g, all);
    forall i, j | 0 <= i < j < |all| ensures InOrder(g, all[i], all[j]) && all[i] != all[j] {
      var a, b := all[i], all[j];
      if j < |order| {
        assert InOrder(g, order[i], order[j]);
      } else if i < |order| {
        assert b == list[j - |order|];
        if Reach(g, a, b) { ReachInside(g, order, a, b); }
      } else {
        assert a == list[i - |order|] && b == list[j - |order|];
      }
    }
  }

  // Rows

  /** Every committed instance depends at least on its predecessor in its own row. */
  ghost predicate Chained(g: Graph) {
    forall a :: a in g && a.instance > 0 ==> a.replica < |g[a].deps| && g[a].deps[a.replica] == a.instance - 1
  }

  /** Following only the newest dependency of a row reaches the whole prefix that it stands for. */
  lemma {:induction false} PrefixReached(g: Graph, a: Id, b: Id, k: nat)
    requires Chained(g) && Edge(g, a, b) && k <= b.instance
    requires forall i: nat :: i <= b.instance ==> Id(b.replica, i) in g
    ensures Reach(g, a, Id(b.replica, k))
    decreases b.instance - k
  {
    if k == b.instance {
      ReachEdge(g, a, b);
    } else {
      PrefixReached(g, a, b, k + 1);
      assert Id(b.replica, k + 1) in g;
      ReachEdge(g, Id(b.replica, k + 1), Id(b.replica, k));
      ReachTransitive(g, a, Id(b.replica, k + 1), Id(b.replica, k));
    }
  }

  // Interfering instances

  /** The instances of `s` in the order of execution, as the commands on one key see it. */
  function Only(order: seq<Id>, s: set<Id>): seq<Id> {
    if order == [] then []
    else if order[|order| - 1] in s then Only(order[..|order| - 1], s) + [order[|order| - 1]]
    else Only(order[..|order| - 1], s)
  }

  lemma {:induction false} OnlyMembers(order: seq<Id>, s: set<Id>)
    ensures forall a :: a in Only(order, s) <==> a in order && a in s
  {
    if order != [] {
      OnlyMembers(order[..|order| - 1], s);
      assert order == order[..|order| - 1] + [order[|order| - 1]];
    }
  }

  lemma {:induction false} OnlyDistinct(order: seq<Id>, s: set<Id>)
    requires Distinct(order)
    ensures Distinct(Only(order, s))
  {
    if order != [] {
      OnlyDistinct(order[..|order| - 1], s);
      OnlyMembers(order[..|order| - 1], s);
    }
  }

  lemma {:induction false} OnlyPrecedes(order: seq<Id>, s: set<Id>, a: Id, b: Id)
    requires Precedes(Only(order, s), a, b)
    ensures Precedes(order, a, b)
  {
    var rest := order[..|order| - 1];
    if Precedes(Only(rest, s), a, b) {
      OnlyPrecedes(rest, s, a, b);
      var i, j :| 0 <= i < j < |rest| && rest[i] == a && rest[j] == b;
      assert order[i] == a && order[j] == b;
    } else {
      OnlyMembers(rest, s);
      var i, j :| 0 <= i < j < |Only(order, s)| && Only(order, s)[i] == a && Only(order, s)[j] == b;
      assert j == |Only(rest, s)| && b == order[|order| - 1];
      assert a in Only(rest, s);
      var k :| 0 <= k < |rest| && rest[k] == a;
      assert order[k] == a;
    }
  }

  /** Two lists of the same instances, each there once, that agree on precedence are equal. */
  lemma {:induction false} SameList(a: seq<Id>, b: seq<Id>)
    requires Distinct(a) && Distinct(b) && (forall x :: x in a <==> x in b)
    requires forall x, y :: Precedes(a, x, y) ==> Precedes(b, x, y)
    ensures a == b
    decreases |a|
  {
    if a == [] {
      FirstIsMember(b);
    } else {
      LastIsLast(a, b);
      var m, n := |a| - 1, |b| - 1;
      forall x ensures x in a[..m] <==> x in b[..n] { ButLast(a, x); ButLast(b, x); }
      forall x, y | Precedes(a[..m], x, y) ensures Precedes(b[..n], x, y) { PrecedesButLast(a, b, x, y); }
      SameList(a[..m], b[..n]);
      assert a == a[..m] + [a[m]] && b == b[..n] + [b[n]];
    }
  }

  lemma FirstIsMember(b: seq<Id>)
    ensures b == [] || b[0] in b
  {
  }

  lemma ButLast(a: seq<Id>, x: Id)
    requires a != [] && Distinct(a)
    ensures x in a[..|a| - 1] <==> x in a && x != a[|a| - 1]
  {
    if x in a && x != a[|a| - 1] {
      var i :| 0 <= i < |a| && a[i] == x;
      assert a[..|a| - 1][i] == x;
    }
  }

  lemma LastIsLast(a: seq<Id>, b: seq<Id>)
    requires Distinct(a) && Distinct(b) && (forall x :: x in a <==> x in b) && a != []
    requires forall x, y :: Precedes(a, x, y) ==> Precedes(b, x, y)
    ensures b != [] && b[|b| - 1] == a[|a| - 1]
  {
    var x := a[|a| - 1];
    assert x in b;
    var y := b[|b| - 1];
    assert y in b;
    var i :| 0 <= i < |a| && a[i] == y;
    NothingAfterLast(b, x);
    assert i < |a| - 1 ==> Precedes(a, y, x);
  }

  lemma NothingAfterLast(b: seq<Id>, x: Id)
    requires b != [] && Distinct(b)
    ensures !Precedes(b, b[|b| - 1], x)
  {
  }

  lemma PrecedesButLast(a: seq<Id>, b: seq<Id>, x: Id, y: Id)
    requires a != [] && b != [] && Distinct(a) && Distinct(b) && a[|a| - 1] == b[|b| - 1]
    requires forall x, y :: Precedes(a, x, y) ==> Precedes(b, x, y)
    requires Precedes(a[..|a| - 1], x, y)
    ensures Precedes(b[..|b| - 1], x, y)
  {
    var i, j :| 0 <= i < j < |a| - 1 && a[i] == x && a[j] == y;
    assert Precedes(a, x, y);
    var k, l :| 0 <= k < l < |b| && b[k] == x && b[l] == y;
    assert y != b[|b| - 1];
    assert b[..|b| - 1][k] == x && b[..|b| - 1][l] == y;
  }

  /**
    Two replicas that have executed the same instances of a set whose members depend on one
    another, as the commands on one key do, have executed them in the same sequence.
  */
  lemma SameSequence(g: Graph, o1: seq<Id>, o2: seq<Id>, s: set<Id>)
    requires Ordered(g, o1) && Ordered(g, o2)
    requires forall a, b :: a in s && b in s && a != b ==> Reach(g, a, b) || Reach(g, b, a)
    requires forall a :: a in s ==> (a in o1 <==> a in o2)
    ensures Only(o1, s) == Only(o2, s)
  {
    OnlyMembers(o1, s);
    OnlyMembers(o2, s);
    OnlyDistinct(o1, s);
    OnlyDistinct(o2, s);
    var l1, l2 := Only(o1, s), Only(o2, s);
    forall a, b | Precedes(l1, a, b) ensures Precedes(l2, a, b) {
      OnlyPrecedes(o1, s, a, b);
      EarlierInOrder(g, o1, a, b);
      OrdersAgree(g, o1, o2, a, b);
      Comparable(l2, a, b);
      if Precedes(l2, b, a) { OnlyPrecedes(o2, s, b, a); }
    }
    SameList(l1, l2);
  }
}
