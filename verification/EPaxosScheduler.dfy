/**
  The execution scheduler of one EPaxos replica: a depth-first traversal that numbers instances,
  executes a component as soon as it is complete, gives up at the first instance that is not
  committed, and starts over later.
*/
module EPaxosScheduler {
  import opened EPaxosOrder
  import opened EPaxosTraversal

  /** How many instances of a row one pass may look at. */
  const BUDGET: nat := 128

  predicate SortedIn(space: Space, list: seq<Id>) {
    && (forall a :: a in list ==> a in space)
    && forall i, j :: 0 <= i < j < |list| ==> LessBy(space[list[i]].attr.seqno, list[i], space[list[j]].attr.seqno, list[j])
  }

  /** Where an instance belongs in a sorted list that does not hold it. */
  method Position(space: Space, list: seq<Id>, x: Id) returns (k: nat)
    requires SortedIn(space, list) && x in space && x !in list
    ensures k <= |list|
    ensures forall i :: 0 <= i < k ==> LessBy(space[list[i]].attr.seqno, list[i], space[x].attr.seqno, x)
    ensures forall i :: k <= i < |list| ==> LessBy(space[x].attr.seqno, x, space[list[i]].attr.seqno, list[i])
  {
    k := 0;
    while k < |list| && LessBy(space[list[k]].attr.seqno, list[k], space[x].attr.seqno, x)
      invariant k <= |list|
      invariant forall i :: 0 <= i < k ==> LessBy(space[list[i]].attr.seqno, list[i], space[x].attr.seqno, x)
    {
      k := k + 1;
    }
    if k < |list| {
      var y := list[k];
      assert y in list && y != x;
      assert LessBy(space[x].attr.seqno, x, space[y].attr.seqno, y);
    }
  }

  lemma InsertKeepsSorted(space: Space, list: seq<Id>, x: Id, k: nat)
    requires SortedIn(space, list) && x in space && k <= |list|
    requires forall i :: 0 <= i < k ==> LessBy(space[list[i]].attr.seqno, list[i], space[x].attr.seqno, x)
    requires forall i :: k <= i < |list| ==> LessBy(space[x].attr.seqno, x, space[list[i]].attr.seqno, list[i])
    ensures SortedIn(space, list[..k] + [x] + list[k..])
    ensures forall y :: y in list[..k] + [x] + list[k..] <==> y in list || y == x
  {
    var out := list[..k] + [x] + list[k..];
    assert list == list[..k] + list[k..];
    forall i, j | 0 <= i < j < |out| ensures LessBy(space[out[i]].attr.seqno, out[i], space[out[j]].attr.seqno, out[j]) {
      assert out[i] == if i < k then list[i] else if i == k then x else list[i - 1];
      assert out[j] == if j < k then list[j] else if j == k then x else list[j - 1];
    }
  }

  /** The same instances, by sequence number and identifier. */
  method SortNodes(space: Space, list: seq<Id>) returns (sorted: seq<Id>)
    requires Distinct(list) && forall a :: a in list ==> a in space
    ensures SortedIn(space, sorted)
    ensures forall a :: a in sorted <==> a in list
  {
    sorted := [];
    for i := 0 to |list|
      invariant SortedIn(space, sorted)
      invariant forall a :: a in sorted <==> a in list[..i]
    {
      assert list[i] !in list[..i];
      var k := Position(space, sorted, list[i]);
      InsertKeepsSorted(space, sorted, list[i], k);
      sorted := sorted[..k] + [list[i]] + sorted[k..];
      assert list[..i + 1] == list[..i] + [list[i]];
    }
    assert list[..|list|] == list;
  }

  lemma SortedAgrees(g: Graph, space: Space, list: seq<Id>)
    requires SortedIn(space, list) && forall x :: x in list ==> x in g && space[x].attr == g[x]
    ensures Distinct(list) && Sorted(g, list)
  {
  }

  /** Nothing is missing among what an executed instance depends on. */
  lemma ExecutedOrStopped(g: Graph, n: nat, space: Space, order: seq<Id>, x: Id)
    requires Recorded(g, n, space, order) && x in order
    ensures !Stopped(g, space, x)
  {
    forall y | Reach(g, x, y) ensures !Missing(space, y) { ReachInside(g, order, x, y); }
  }

  lemma StartsSound(g: Graph, n: nat, upTo: seq<int>, s: Walk)
    requires Recorded(g, n, s.space, s.order) && Prefixes(n, s.order, upTo) && Idle(s.space, s.index, s.onStack) && s.stack == []
    ensures Sound(g, n, upTo, s, 1) && Loaded(s)
  {
  }

  /** With nothing below, a traversal that comes back has executed its root. */
  lemma RootExecuted(g: Graph, s: Walk, root: Id, next: nat)
    requires Traversed(g, s, [], root, next)
    ensures root in s.order
  {
  }

  /** Execution fills in nothing that is missing. */
  lemma StoppedStays(g: Graph, space: Space, space': Space, x: Id)
    requires SpaceKept(space, space') && Stopped(g, space, x)
    ensures Stopped(g, space', x)
  {
    var y :| Reach(g, x, y) && Missing(space, y);
    if y in space' { assert y in space'.Keys; }
  }

  /** Why a pass leaves a row that it found executed up to `from` at `to`. */
  ghost predicate RowServed(g: Graph, space: Space, from: int, to: int, newest: int, q: nat)
    requires to >= -1
  {
    to >= newest || Stopped(g, space, Id(q, to + 1)) || to - from >= BUDGET / 2
  }

  datatype Pass = Pass(space: Space, order: seq<Id>, upTo: seq<int>, newest: seq<int>)

  /** The row has risen by at least half of the instances looked at. */
  predicate HalfRisen(order: seq<Id>, q: nat, from: int, to: int, budget: nat)
    requires to >= -1
  {
    from <= to && 2 * (to - from) + (if Id(q, to + 1) in order then 1 else 0) >= budget
  }

  lemma NextCounts(order: seq<Id>, order': seq<Id>, q: nat, from: int, to: int, to': int, budget: nat)
    requires order <= order' && to >= -1 && HalfRisen(order, q, from, to, budget) && Id(q, to + 1) in order'
    requires to' == if Id(q, to + 1) in order then to + 1 else to
    ensures HalfRisen(order', q, from, to', budget + 1)
  {
  }

  lemma HalfStays(order: seq<Id>, order': seq<Id>, q: nat, from: int, to: int, budget: nat)
    requires order <= order' && to >= -1 && HalfRisen(order, q, from, to, budget)
    ensures HalfRisen(order', q, from, to, budget)
  {
  }

  lemma KeptOn(r: Space, s: Space, t: Space)
    requires SpaceKept(r, s) && SpaceKept(s, t)
    ensures SpaceKept(r, t)
  {
    assert forall x :: x in r.Keys ==> x in s.Keys;
  }

  class Scheduler {
    /** The attributes that commitment has fixed, the same at every replica. */
    ghost const g: Graph
    const n: nat

    var space: Space
    var upTo: seq<int>
    var newest: seq<int>
    var index: map<Id, nat>
    var low: map<Id, nat>
    var onStack: set<Id>
    var stack: seq<Id>
    /** The instances executed so far, in the order of execution. */
    var order: seq<Id>

    ghost predicate Consistent()
      reads this
    {
      Recorded(g, n, space, order) && Prefixes(n, order, upTo) && |newest| == n
    }

    ghost predicate Valid()
      reads this
    {
      Consistent() && Idle(space, index, onStack)
    }

    constructor (ghost g: Graph, n: nat)
      requires forall x :: x in g ==> |g[x].deps| == n
      ensures Valid() && this.g == g && this.n == n && order == [] && space == map[]
    {
      this.g := g;
      this.n := n;
      space, order, stack := map[], [], [];
      upTo, newest := seq(n, _ => -1), seq(n, _ => -1);
      index, low, onStack := map[], map[], {};
    }

    /** Runs the commands of a complete component in order. */
    method ExecuteAll(list: seq<Id>)
      requires Distinct(list) && forall x :: x in list ==> x in space && space[x].status.Committed?
      modifies this`space, this`order, this`onStack
      ensures order == old(order) + list && onStack == old(onStack) - (set x | x in list)
      ensures SpaceKept(old(space), space)
      ensures forall x :: x in space ==> (space[x].status.Executed? <==> x in list || old(space)[x].status.Executed?)
    {
      for i := 0 to |list|
        invariant order == old(order) + list[..i] && onStack == old(onStack) - (set x | x in list[..i])
        invariant SpaceKept(old(space), space)
        invariant forall x :: x in space ==> (space[x].status.Executed? <==> x in list[..i] || old(space)[x].status.Executed?)
      {
        var w := list[i];
        order := order + [w];
        space := space[w := space[w].(status := Executed)];
        onStack := onStack - {w};
        assert list[..i + 1] == list[..i] + [w];
      }
      assert list[..|list|] == list;
    }
  
    /** The scheduler's fields as one value. */
    ghost function Here(): Walk
      reads this
    {
      Walk(space, order, stack, index, low, onStack)
    }

    /** Executes the component on top of the stack and pops it. */
    method ExecuteComponent(l: nat, ghost next: nat)
      requires Sound(g, n, upTo, Here(), next) && Loaded(Here()) && l < |stack|
      requires forall a, b :: a in stack[l..] && Edge(g, a, b) ==> b in stack[l..] || b in order
      requires forall a, b :: a in stack[l..] && b in stack[l..] ==> Reach(g, a, b)
      modifies this`space, this`order, this`onStack, this`stack
      ensures Sound(g, n, upTo, Here(), next) && Loaded(Here()) && Forward(old(Here()), Here(), old(stack)[..l])
      ensures stack == old(stack)[..l] && forall x :: x in old(stack)[l..] ==> x in order
    {
      ghost var s := Here();
      var list := stack[l..];
      TopCommitted(g, n, upTo, s, l, next);
      var sorted := SortNodes(space, list);
      SortedAgrees(g, space, sorted);
      ExecuteAll(sorted);
      stack := stack[..l];
      ComponentDone(g, n, upTo, s, Here(), l, sorted, next);
    }

    /** Numbers an instance and puts it on the stack. */
    method Push(v: Id, next: nat)
      modifies this`stack, this`onStack, this`index, this`low
      ensures Here() == Pushed(old(Here()), v, next)
    {
      index, low := index[v := next], low[v := next];
      stack, onStack := stack + [v], onStack + {v};
    }

    /** Lowers the bound of an instance, never raises it. */
    method Lower(v: Id, b: nat)
      modifies this`low
      ensures Here() == Lowered(old(Here()), v, b)
    {
      if b < At(low, v) { low := low[v := b]; }
    }

    method Strongconnect(v: Id, next: nat) returns (ok: bool, next': nat)
      requires Sound(g, n, upTo, Here(), next) && Loaded(Here())
      requires v in space && space[v].status.Committed? && At(index, v) == 0
      requires forall x :: x in stack ==> Reach(g, x, v)
      modifies this`space, this`order, this`onStack, this`stack, this`index, this`low
      ensures next <= next' && Sound(g, n, upTo, Here(), next') && Forward(old(Here()), Here(), old(stack))
      ensures if ok then Traversed(g, Here(), old(stack), v, next) && Loaded(Here()) else Stopped(g, space, v)
      decreases |Unvisited(space, index)|, 0
    {
      ghost var s, lower := Here(), stack;
      var l := |stack|;
      PushDone(g, n, upTo, s, v, next);
      Push(v, next);
      next' := next + 1;
      if !space[v].cmds { return false, next'; }
      ghost var t := Here();
      ok, next' := Explore(lower, v, next');
      ForwardTransitive(s, t, Here(), lower);
      if ok { Finish(lower, l, v, next', s); }
    }

    /** Explores every dependency of `v`, row by row. */
    method Explore(ghost lower: seq<Id>, v: Id, next: nat) returns (ok: bool, next': nat)
      requires Underway(g, n, upTo, Here(), lower, v, next, 0) && Loaded(Here())
      modifies this`space, this`order, this`onStack, this`stack, this`index, this`low
      ensures next <= next' && Sound(g, n, upTo, Here(), next') && Forward(old(Here()), Here(), lower) && At(index, v) == old(At(index, v))
      ensures if ok then Underway(g, n, upTo, Here(), lower, v, next', n) && Loaded(Here()) else Stopped(g, space, v)
      decreases |Unvisited(space, index)|, 3
    {
      ghost var s := Here();
      AboveLower(g, n, upTo, s, lower, v, next, 0);
      ForwardSelf(s, lower);
      ok, next' := true, next;
      var q := 0;
      while q < n && ok
        invariant q <= n && next <= next' && Sound(g, n, upTo, Here(), next') && Forward(s, Here(), lower)
        invariant At(index, v) == At(s.index, v) && |Unvisited(space, index)| <= |Unvisited(s.space, s.index)|
        invariant if ok then Underway(g, n, upTo, Here(), lower, v, next', q) && Loaded(Here()) else Stopped(g, space, v)
      {
        ghost var t := Here();
        ok, next' := Follow(lower, v, q, next');
        ForwardTransitive(s, t, Here(), lower);
        ForwardVisits(t, Here(), lower);
        q := q + 1;
      }
    }

    /** All rows explored: a complete component is executed, another one stays on the stack. */
    method Finish(ghost lower: seq<Id>, l: nat, v: Id, ghost next: nat, ghost s: Walk)
      requires Underway(g, n, upTo, Here(), lower, v, next, n) && Loaded(Here()) && l == |lower| && Forward(s, Here(), lower)
      modifies this`space, this`order, this`onStack, this`stack
      ensures Sound(g, n, upTo, Here(), next) && Forward(s, Here(), lower) && Traversed(g, Here(), lower, v, At(index, v))
      ensures Loaded(Here())
    {
      ghost var t := Here();
      AllExplored(g, n, upTo, t, lower, v, next);
      if At(low, v) == At(index, v) {
        ExecuteComponent(l, next);
        ForwardTransitive(s, t, Here(), lower);
      }
    }

    /** Explores the dependency of `v` in row `q`. */
    method Follow(ghost lower: seq<Id>, v: Id, q: nat, next: nat) returns (ok: bool, next': nat)
      requires q < n && Underway(g, n, upTo, Here(), lower, v, next, q) && Loaded(Here())
      modifies this`space, this`order, this`onStack, this`stack, this`index, this`low
      ensures next <= next' && Sound(g, n, upTo, Here(), next') && Forward(old(Here()), Here(), lower) && At(index, v) == old(At(index, v))
      ensures if ok then Underway(g, n, upTo, Here(), lower, v, next', q + 1) && Loaded(Here()) else Stopped(g, space, v)
      decreases |Unvisited(space, index)|, 2
    {
      AboveLower(g, n, upTo, Here(), lower, v, next, q);
      ForwardSelf(Here(), lower);
      var i := space[v].attr.deps[q];
      next' := next;
      ok := true;
      if i <= upTo[q] {
        RowDone(g, n, upTo, Here(), lower, v, next, q);
        return;
      }
      var w := Id(q, i);
      if w !in space || !space[w].cmds {
        StopsAt(g, space, v, w);
        return false, next;
      }
      if space[w].status.Executed? {
        RowDone(g, n, upTo, Here(), lower, v, next, q);
      } else if !space[w].status.Committed? {
        StopsAt(g, space, v, w);
        ok := false;
      } else if At(index, w) == 0 {
        ok, next' := Descend(lower, v, w, next);
      } else if w in onStack {
        Meet(lower, v, w, next);
      }
    }

    /** A dependency on the stack bounds what `v` hangs on. */
    method Meet(ghost lower: seq<Id>, v: Id, w: Id, ghost next: nat)
      requires Underway(g, n, upTo, Here(), lower, v, next, w.replica) && w in stack && Edge(g, v, w)
      modifies this`low
      ensures Underway(g, n, upTo, Here(), lower, v, next, w.replica + 1) && Forward(old(Here()), Here(), lower)
    {
      AboveLower(g, n, upTo, Here(), lower, v, next, w.replica);
      ForwardSelf(Here(), lower);
      MetDone(g, n, upTo, Here(), lower, v, w, next);
      LoweredForward(Here(), Here(), lower, v, At(index, w));
      Lower(v, At(index, w));
    }

    /** A dependency not yet numbered is traversed first. */
    method Descend(ghost lower: seq<Id>, v: Id, w: Id, next: nat) returns (ok: bool, next': nat)
      requires Underway(g, n, upTo, Here(), lower, v, next, w.replica) && Loaded(Here()) && Edge(g, v, w)
      requires w in space && space[w].status.Committed? && At(index, w) == 0
      modifies this`space, this`order, this`onStack, this`stack, this`index, this`low
      ensures next <= next' && Sound(g, n, upTo, Here(), next') && Forward(old(Here()), Here(), lower) && At(index, v) == old(At(index, v))
      ensures if ok then Underway(g, n, upTo, Here(), lower, v, next', w.replica + 1) && Loaded(Here()) else Stopped(g, space, v)
      decreases |Unvisited(space, index)|, 1
    {
      ghost var s := Here();
      ChildReached(g, stack, v, w);
      ok, next' := Strongconnect(w, next);
      ghost var t := Here();
      ChildReturns(g, n, upTo, s, t, lower, v, w, next, next');
      if ok { Lower(v, At(low, w)); }
    }
  
    /** Traverses from one committed instance and forgets the numbers of all that was not executed. */
    method FindSCC(root: Id) returns (ok: bool)
      requires Valid() && root in space && space[root].status.Committed?
      modifies this`space, this`order, this`onStack, this`stack, this`index, this`low
      ensures Valid() && SpaceKept(old(space), space) && old(order) <= order
      ensures if ok then root in order else Stopped(g, space, root)
    {
      var next: nat;
      ok, next := Traverse(root);
      Unnumber(next);
    }

    method Traverse(root: Id) returns (ok: bool, next: nat)
      requires Valid() && root in space && space[root].status.Committed?
      modifies this`space, this`order, this`onStack, this`stack, this`index, this`low
      ensures Sound(g, n, upTo, Here(), next) && SpaceKept(old(space), space) && old(order) <= order
      ensures if ok then root in order else Stopped(g, space, root)
    {
      stack := [];
      StartsSound(g, n, upTo, Here());
      ok, next := Strongconnect(root, 1);
      if ok { RootExecuted(g, Here(), root, 1); }
    }

    /** Forgets the numbers of everything left on the stack. */
    method Unnumber(ghost next: nat)
      requires Stacked(space, stack, index, onStack, next)
      modifies this`index, this`onStack
      ensures Idle(space, index, onStack)
    {
      ghost var index0 := index;
      for j := 0 to |stack|
        invariant forall x :: At(index, x) == if x in stack[..j] then 0 else At(index0, x)
        invariant forall x :: x in onStack ==> x in stack && x !in stack[..j]
      {
        index := index[stack[j] := 0];
        onStack := onStack - {stack[j]};
        assert stack[..j + 1] == stack[..j] + [stack[j]];
      }
      assert stack[..|stack|] == stack;
    }

    /**
      Executes an instance, with all it depends on, exactly when nothing it depends on is missing.
    */
    method ExecuteCommand(x: Id) returns (ok: bool)
      requires Valid()
      modifies this`space, this`order, this`onStack, this`stack, this`index, this`low
      ensures Valid() && SpaceKept(old(space), space) && old(order) <= order
      ensures ok <==> x in order
      ensures ok <==> !Stopped(g, space, x)
    {
      ReachSelf(g, x);
      if x !in space { return false; }
      ok := space[x].status.Executed?;
      if space[x].status.Committed? { ok := FindSCC(x); }
      if x in order { ExecutedOrStopped(g, n, space, order, x); }
    }

    /**
      One pass over all rows. Each row rises until its end, until an instance from which something
      missing is reached, or until the budget is spent on at least half as many instances.
    */
    method Apply()
      requires Valid()
      modifies this
      ensures Valid() && SpaceKept(old(space), space) && old(order) <= order && newest == old(newest)
      ensures forall q, i :: 0 <= q < n && 0 <= i <= upTo[q] ==> Id(q, i) in order
      ensures forall q :: 0 <= q < n ==> upTo[q] >= old(upTo)[q] && RowServed(g, space, old(upTo)[q], upTo[q], newest[q], q)
    {
      for q := 0 to n
        invariant Valid() && SpaceKept(old(space), space) && old(order) <= order && newest == old(newest)
        invariant forall p :: q <= p < n ==> upTo[p] == old(upTo)[p]
        invariant forall p :: 0 <= p < q ==> upTo[p] >= old(upTo)[p] && RowServed(g, space, old(upTo)[p], upTo[p], newest[p], p)
      {
        ghost var space0, upTo0 := space, upTo;
        ApplyRow(q);
        forall p | 0 <= p < q ensures RowServed(g, space, old(upTo)[p], upTo[p], newest[p], p) {
          assert RowServed(g, space0, old(upTo)[p], upTo0[p], newest[p], p);
          if Stopped(g, space0, Id(p, upTo[p] + 1)) { StoppedStays(g, space0, space, Id(p, upTo[p] + 1)); }
        }
      }
    }

    method ApplyRow(q: nat)
      requires Valid() && q < n
      modifies this
      ensures Valid() && SpaceKept(old(space), space) && old(order) <= order && newest == old(newest)
      ensures upTo == old(upTo)[q := upTo[q]] && upTo[q] >= old(upTo)[q]
      ensures RowServed(g, space, old(upTo)[q], upTo[q], newest[q], q)
    {
      ghost var before := Now();
      for budget := 0 to BUDGET
        invariant Passing(before, q, budget)
      {
        var more := ApplyNext(q, before, budget);
        if !more { break; }
      }
    }

    ghost function Now(): Pass
      reads this
    {
      Pass(space, order, upTo, newest)
    }

    /** A pass over row `q` that began at `before` has looked at `budget` instances. */
    ghost predicate Passing(before: Pass, q: nat, budget: nat)
      requires q < n
      reads this
    {
      && Valid() && |before.upTo| == n && SpaceKept(before.space, space) && before.order <= order && newest == before.newest
      && upTo == before.upTo[q := upTo[q]] && HalfRisen(order, q, before.upTo[q], upTo[q], budget)
    }

    /** Passes over the next instance of a row, or executes it if nothing it depends on is missing. */
    method ApplyNext(q: nat, ghost before: Pass, ghost budget: nat) returns (more: bool)
      requires q < n && Passing(before, q, budget)
      modifies this
      ensures Passing(before, q, if more then budget + 1 else budget)
      ensures !more ==> upTo[q] >= newest[q] || Stopped(g, space, Id(q, upTo[q] + 1))
    {
      var i := upTo[q] + 1;
      if i > newest[q] { return false; }
      var x := Id(q, i);
      if x in space && space[x].status.Executed? {
        PassOver(q, before, budget);
        more := true;
      } else if x !in space || !space[x].status.Committed? || !space[x].cmds {
        ReachSelf(g, x);
        more := false;
      } else {
        more := ExecuteNext(q, before, budget);
      }
    }

    method PassOver(q: nat, ghost before: Pass, ghost budget: nat)
      requires q < n && Passing(before, q, budget) && Id(q, upTo[q] + 1) in order
      modifies this`upTo
      ensures Passing(before, q, budget + 1)
    {
      NextCounts(order, order, q, before.upTo[q], upTo[q], upTo[q] + 1, budget);
      upTo := upTo[q := upTo[q] + 1];
    }

    method ExecuteNext(q: nat, ghost before: Pass, ghost budget: nat) returns (ok: bool)
      requires q < n && Passing(before, q, budget) && Id(q, upTo[q] + 1) !in order
      modifies this`space, this`order, this`onStack, this`stack, this`index, this`low
      ensures Passing(before, q, if ok then budget + 1 else budget)
      ensures !ok ==> Stopped(g, space, Id(q, upTo[q] + 1))
    {
      ghost var s := Now();
      ok := ExecuteCommand(Id(q, upTo[q] + 1));
      KeptOn(before.space, s.space, space);
      if ok {
        NextCounts(s.order, order, q, before.upTo[q], upTo[q], upTo[q], budget);
      } else {
        HalfStays(s.order, order, q, before.upTo[q], upTo[q], budget);
      }
    }

    /** Learning what was committed for an instance, or its commands. Executed instances do not change. */
    method Commit(x: Id, attr: Attributes, cmds: bool)
      requires Valid() && x in g && attr == g[x] && x.replica < n
      modifies this`space, this`newest
      ensures Valid() && order == old(order)
      ensures x in space && !space[x].status.Pending?
      ensures forall y :: y != x ==> (y in space <==> y in old(space)) && (y in space ==> space[y] == old(space)[y])
    {
      if x !in space || !space[x].status.Executed? {
        space := space[x := Instance(Committed, cmds, attr)];
      }
      if x.instance > newest[x.replica] { newest := newest[x.replica := x.instance]; }
    }
  }
}
