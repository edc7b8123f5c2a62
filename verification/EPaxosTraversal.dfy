/**
  What the depth-first traversal keeps: facts about its stack, the numbers it gives to instances
  and what has been executed so far. Numbers grow along the stack, and every instance on it
  reaches the one being explored.
*/
module EPaxosTraversal {
  import opened EPaxosOrder

  /** Pending stands for every status before commitment. */
  datatype Status = Pending | Committed | Executed

  /** `cmds` tells whether the commands of the instance are known. */
  datatype Instance = Instance(status: Status, cmds: bool, attr: Attributes)

  type Space = map<Id, Instance>

  function At(m: map<Id, nat>, x: Id): nat { if x in m then m[x] else 0 }

  /** A replica's record agrees with what was committed, and its executed instances are in order. */
  ghost predicate Recorded(g: Graph, n: nat, space: Space, order: seq<Id>) {
    && (forall x :: x in g ==> |g[x].deps| == n)
    && (forall x :: x in space && !space[x].status.Pending? ==> x in g && space[x].attr == g[x])
    && (forall x :: x in order <==> x in space && space[x].status.Executed?)
    && (forall x :: x in order ==> space[x].cmds)
    && Ordered(g, order)
  }

  /** All instances of row `q` up to `upTo[q]` have been executed. */
  ghost predicate Prefixes(n: nat, order: seq<Id>, upTo: seq<int>) {
    && |upTo| == n && (forall q :: 0 <= q < n ==> upTo[q] >= -1)
    && forall q: nat, k: nat :: q < n && k <= upTo[q] ==> Id(q, k) in order
  }

  ghost predicate Increasing(index: map<Id, nat>, stack: seq<Id>) {
    forall i, j :: 0 <= i < j < |stack| ==> At(index, stack[i]) < At(index, stack[j])
  }

  /** The stack holds exactly the numbered instances that are not executed. */
  ghost predicate Stacked(space: Space, stack: seq<Id>, index: map<Id, nat>, onStack: set<Id>, next: nat) {
    && Increasing(index, stack) && next > 0
    && (forall x :: x in stack ==> x in space && space[x].status.Committed? && 0 < At(index, x) < next)
    && (forall x :: At(index, x) > 0 ==> x in stack || (x in space && space[x].status.Executed?))
    && (forall x :: x in onStack <==> x in stack)
  }

  /** Nothing is numbered between traversals. */
  ghost predicate Idle(space: Space, index: map<Id, nat>, onStack: set<Id>) {
    onStack == {} && forall x :: At(index, x) > 0 ==> x in space && space[x].status.Executed?
  }

  /** Traversals only turn committed instances into executed ones. */
  ghost predicate SpaceKept(s: Space, t: Space) {
    && t.Keys == s.Keys
    && forall x :: x in s ==> t[x] == s[x] || (s[x].status.Committed? && t[x] == s[x].(status := Executed))
  }

  /** Numbers once given, and the bounds of instances on the stack, stay. */
  ghost predicate NumbersKept(index: map<Id, nat>, index': map<Id, nat>, low: map<Id, nat>, low': map<Id, nat>, stack: seq<Id>) {
    && (forall x :: At(index, x) > 0 ==> At(index', x) == At(index, x))
    && forall x :: x in stack ==> At(low', x) == At(low, x)
  }

  function Unvisited(space: Space, index: map<Id, nat>): set<Id> { set x | x in space && At(index, x) == 0 }

  lemma {:induction false} Shrinks(a: set<Id>, b: set<Id>)
    requires a <= b
    ensures |a| <= |b|
  {
    if a != {} {
      var x :| x in a;
      Shrinks(a - {x}, b - {x});
    }
  }

  lemma VisitShrinks(space: Space, space': Space, index: map<Id, nat>, index': map<Id, nat>, v: Id)
    requires space'.Keys == space.Keys && v in space && At(index, v) == 0 && At(index', v) > 0
    requires forall x :: At(index, x) > 0 ==> At(index', x) > 0
    ensures |Unvisited(space', index')| < |Unvisited(space, index)|
  {
    forall x | x in Unvisited(space', index') ensures x in Unvisited(space, index) - {v} {
      assert x in space'.Keys;
    }
    Shrinks(Unvisited(space', index'), Unvisited(space, index) - {v});
  }

  // Exploring

  /** Every dependency of `y` has been executed or is on the stack. */
  ghost predicate Explored(g: Graph, order: seq<Id>, stack: seq<Id>, y: Id) {
    forall z :: Edge(g, y, z) ==> z in order || z in stack
  }

  /** No dependency of `y` on the lower stack has a number below `bound`. */
  ghost predicate Bounded(g: Graph, index: map<Id, nat>, lower: seq<Id>, bound: nat, y: Id) {
    forall z :: Edge(g, y, z) && z in lower ==> bound <= At(index, z)
  }

  /** Instance `y` lies in the part of the stack above `lower`, which was explored from `v`. */
  ghost predicate Hangs(g: Graph, order: seq<Id>, lower: seq<Id>, stack: seq<Id>, index: map<Id, nat>, bound: nat, v: Id, y: Id) {
    Reach(g, v, y) && Explored(g, order, stack, y) && Bounded(g, index, lower, bound, y)
  }

  ghost predicate Escapes(g: Graph, lower: seq<Id>, y: Id) { exists x :: x in lower && Reach(g, y, x) }

  /** Some instance of the lower stack with number `bound` is reachable from `v`. */
  ghost predicate Attained(g: Graph, index: map<Id, nat>, lower: seq<Id>, bound: nat, v: Id) {
    exists z :: z in lower && At(index, z) == bound && Reach(g, v, z)
  }

  /** The traversal of `v` is over but its component is not: it hangs on the lower stack. */
  ghost predicate Hanging(g: Graph, order: seq<Id>, lower: seq<Id>, stack: seq<Id>, index: map<Id, nat>, bound: nat, v: Id) {
    && |lower| < |stack| && lower == stack[..|lower|] && stack[|lower|] == v
    && Attained(g, index, lower, bound, v)
    && forall k :: |lower| <= k < |stack| ==>
         Hangs(g, order, lower, stack, index, bound, v, stack[k]) && Escapes(g, lower, stack[k])
  }

  /** The traversal of `v` has explored the dependencies in rows below `q`. */
  ghost predicate Exploring(g: Graph, order: seq<Id>, lower: seq<Id>, stack: seq<Id>, index: map<Id, nat>, bound: nat, v: Id, q: nat) {
    && |lower| < |stack| && lower == stack[..|lower|] && stack[|lower|] == v
    && bound <= At(index, v)
    && (bound < At(index, v) ==> Attained(g, index, lower, bound, v))
    && (forall x :: x in stack ==> Reach(g, x, v))
    && (forall k :: |lower| < k < |stack| ==> Hangs(g, order, lower, stack, index, bound, v, stack[k]))
    && (forall z :: Edge(g, v, z) && z.replica < q ==> (z in order || z in stack) && (z in lower ==> bound <= At(index, z)))
  }

  lemma ExploringStarts(g: Graph, order: seq<Id>, lower: seq<Id>, index: map<Id, nat>, v: Id)
    requires forall x :: x in lower ==> Reach(g, x, v)
    ensures Exploring(g, order, lower, lower + [v], index, At(index, v), v, 0)
  {
    ReachSelf(g, v);
  }

  /** A dependency that is settled already, or whose number is taken into account, is explored. */
  lemma ExploringNotes(g: Graph, order: seq<Id>, lower: seq<Id>, stack: seq<Id>, index: map<Id, nat>, bound: nat, v: Id, q: nat, bound': nat)
    requires Exploring(g, order, lower, stack, index, bound, v, q) && bound' <= bound
    requires bound' < bound ==> Attained(g, index, lower, bound', v)
    requires forall z :: Edge(g, v, z) && z.replica == q ==> (z in order || z in stack) && (z in lower ==> bound' <= At(index, z))
    ensures Exploring(g, order, lower, stack, index, bound', v, q + 1)
  {
    forall k | |lower| < k < |stack| ensures Hangs(g, order, lower, stack, index, bound', v, stack[k]) {
      assert Hangs(g, order, lower, stack, index, bound, v, stack[k]);
    }
  }

  /** What has been explored stays so as more is executed and numbered. */
  lemma ExploringStays(g: Graph, order: seq<Id>, lower: seq<Id>, stack: seq<Id>, index: map<Id, nat>, bound: nat, v: Id, q: nat,
                       order': seq<Id>, index': map<Id, nat>)
    requires Exploring(g, order, lower, stack, index, bound, v, q)
    requires forall x :: x in order ==> x in order'
    requires forall x :: x in stack ==> At(index', x) == At(index, x)
    ensures Exploring(g, order', lower, stack, index', bound, v, q)
  {
    forall k | |lower| < k < |stack| ensures Hangs(g, order', lower, stack, index', bound, v, stack[k]) {
      assert Hangs(g, order, lower, stack, index, bound, v, stack[k]);
    }
    assert forall x :: x in lower ==> x in stack;
    if bound < At(index, v) {
      var z :| z in lower && At(index, z) == bound && Reach(g, v, z);
      assert Attained(g, index', lower, bound, v);
    }
    assert v in stack;
  }

  lemma JoinHangs(g: Graph, order: seq<Id>, lower: seq<Id>, mid: seq<Id>, stack: seq<Id>, index: map<Id, nat>,
                  bound: nat, v: Id, w: Id, lowW: nat, bound': nat, k: nat)
    requires lower <= mid <= stack && |lower| < k < |stack| && bound' <= bound && bound' <= lowW && Edge(g, v, w)
    requires k < |mid| ==> Hangs(g, order, lower, mid, index, bound, v, mid[k])
    requires k >= |mid| ==> Hangs(g, order, mid, stack, index, lowW, w, stack[k])
    ensures Hangs(g, order, lower, stack, index, bound', v, stack[k])
  {
    assert forall x :: x in mid ==> x in stack;
    assert forall x :: x in lower ==> x in mid;
    if k < |mid| {
      assert stack[k] == mid[k];
    } else {
      ReachEdge(g, v, w);
      ReachTransitive(g, v, w, stack[k]);
    }
  }

  /** A dependency whose traversal left it hanging joins the part explored from `v`. */
  lemma HangingJoins(g: Graph, order: seq<Id>, lower: seq<Id>, mid: seq<Id>, stack: seq<Id>, index: map<Id, nat>,
                     bound: nat, v: Id, q: nat, w: Id, lowW: nat)
    requires Exploring(g, order, lower, mid, index, bound, v, q) && Increasing(index, stack)
    requires Hanging(g, order, mid, stack, index, lowW, w) && Edge(g, v, w) && w.replica == q
    ensures Exploring(g, order, lower, stack, index, if lowW < bound then lowW else bound, v, q + 1)
  {
    var bound' := if lowW < bound then lowW else bound;
    assert forall x :: x in mid ==> x in stack;
    forall k | |lower| < k < |stack| ensures Hangs(g, order, lower, stack, index, bound', v, stack[k]) {
      JoinHangs(g, order, lower, mid, stack, index, bound, v, w, lowW, bound', k);
    }
    forall x | x in stack ensures Reach(g, x, v) { HangingReaches(g, order, mid, stack, index, lowW, v, w, x); }
    if lowW < bound { JoinAttains(g, order, lower, mid, stack, index, v, w, lowW); }
    assert w in stack;
    TopNotBelow(index, mid, stack);
    forall z | Edge(g, v, z) && z.replica == q ensures z == w { }
  }

  lemma TopNotBelow(index: map<Id, nat>, mid: seq<Id>, stack: seq<Id>)
    requires |mid| < |stack| && mid == stack[..|mid|] && Increasing(index, stack)
    ensures stack[|mid|] !in mid
  {
    forall x | x in mid ensures x != stack[|mid|] { LowerIsLess(index, mid, stack, x); }
  }

  lemma HangingReaches(g: Graph, order: seq<Id>, mid: seq<Id>, stack: seq<Id>, index: map<Id, nat>, lowW: nat, v: Id, w: Id, x: Id)
    requires Hanging(g, order, mid, stack, index, lowW, w) && (forall y :: y in mid ==> Reach(g, y, v)) && x in stack
    ensures Reach(g, x, v)
  {
    var k :| 0 <= k < |stack| && stack[k] == x;
    if k < |mid| {
      assert x == mid[k];
    } else {
      assert Escapes(g, mid, stack[k]);
      var y :| y in mid && Reach(g, x, y);
      ReachTransitive(g, x, y, v);
    }
  }

  lemma JoinAttains(g: Graph, order: seq<Id>, lower: seq<Id>, mid: seq<Id>, stack: seq<Id>, index: map<Id, nat>, v: Id, w: Id, lowW: nat)
    requires |lower| < |mid| < |stack| && lower == mid[..|lower|] && mid == stack[..|mid|] && mid[|lower|] == v && Increasing(index, stack)
    requires Attained(g, index, mid, lowW, w) && lowW < At(index, v) && Edge(g, v, w)
    ensures Attained(g, index, lower, lowW, v)
  {
    var z :| z in mid && At(index, z) == lowW && Reach(g, w, z);
    var k :| 0 <= k < |mid| && mid[k] == z;
    assert stack[k] == z && stack[|lower|] == v;
    assert k < |lower|;
    assert z == lower[k];
    ReachEdge(g, v, w);
    ReachTransitive(g, v, w, z);
  }

  // Completion

  /** A traversal whose bound is its own number has found a component that depends on nothing below. */
  lemma ComponentFound(g: Graph, n: nat, order: seq<Id>, lower: seq<Id>, stack: seq<Id>, index: map<Id, nat>, v: Id)
    requires Exploring(g, order, lower, stack, index, At(index, v), v, n) && Increasing(index, stack)
    requires v in g ==> |g[v].deps| == n
    ensures forall a, b :: a in stack[|lower|..] && Edge(g, a, b) ==> b in stack[|lower|..] || b in order
    ensures forall a, b :: a in stack[|lower|..] && b in stack[|lower|..] ==> Reach(g, a, b)
  {
    var list := stack[|lower|..];
    forall a, b | a in list && Edge(g, a, b) ensures b in list || b in order { ComponentCloses(g, n, order, lower, stack, index, v, a, b); }
    forall a, b | a in list && b in list ensures Reach(g, a, b) {
      ReachSelf(g, v);
      var k :| |lower| <= k < |stack| && stack[k] == b;
      assert k > |lower| ==> Hangs(g, order, lower, stack, index, At(index, v), v, stack[k]);
      ReachTransitive(g, a, v, b);
    }
  }

  lemma ComponentCloses(g: Graph, n: nat, order: seq<Id>, lower: seq<Id>, stack: seq<Id>, index: map<Id, nat>, v: Id, a: Id, b: Id)
    requires Exploring(g, order, lower, stack, index, At(index, v), v, n) && Increasing(index, stack)
    requires v in g ==> |g[v].deps| == n
    requires a in stack[|lower|..] && Edge(g, a, b)
    ensures b in stack[|lower|..] || b in order
  {
    var k :| |lower| <= k < |stack| && stack[k] == a;
    assert k > |lower| ==> Hangs(g, order, lower, stack, index, At(index, v), v, stack[k]);
    assert b in order || b in stack;
    assert stack == lower + stack[|lower|..];
    if b in lower { LowerIsLess(index, lower, stack, b); }
  }

  lemma LowerIsLess(index: map<Id, nat>, lower: seq<Id>, stack: seq<Id>, b: Id)
    requires |lower| < |stack| && lower == stack[..|lower|] && Increasing(index, stack) && b in lower
    ensures At(index, b) < At(index, stack[|lower|])
  {
    var i :| 0 <= i < |lower| && lower[i] == b;
    assert stack[i] == b;
  }

  /** A traversal whose bound is lower leaves everything it explored hanging. */
  lemma ComponentHangs(g: Graph, n: nat, order: seq<Id>, lower: seq<Id>, stack: seq<Id>, index: map<Id, nat>, bound: nat, v: Id)
    requires Exploring(g, order, lower, stack, index, bound, v, n) && bound < At(index, v)
    requires v in g ==> |g[v].deps| == n
    ensures Hanging(g, order, lower, stack, index, bound, v)
  {
    ReachSelf(g, v);
    var z :| z in lower && At(index, z) == bound && Reach(g, v, z);
    forall k | |lower| <= k < |stack|
      ensures Hangs(g, order, lower, stack, index, bound, v, stack[k]) && Escapes(g, lower, stack[k])
    {
      assert stack[k] in stack;
      ReachTransitive(g, stack[k], v, z);
    }
  }

  lemma IncreasingIsDistinct(index: map<Id, nat>, stack: seq<Id>)
    requires Increasing(index, stack)
    ensures Distinct(stack)
  {
    forall i, j | 0 <= i < j < |stack| ensures stack[i] != stack[j] {
      assert At(index, stack[i]) < At(index, stack[j]);
    }
  }

  /** Numbering one more instance and pushing it. */
  lemma PushKeeps(space: Space, stack: seq<Id>, index: map<Id, nat>, onStack: set<Id>, next: nat, v: Id)
    requires Stacked(space, stack, index, onStack, next) && v in space && space[v].status.Committed? && At(index, v) == 0
    ensures Stacked(space, stack + [v], index[v := next], onStack + {v}, next + 1)
  {
    var index' := index[v := next];
    assert forall x :: x in stack ==> x != v && At(index', x) == At(index, x);
    var stack' := stack + [v];
    forall i, j | 0 <= i < j < |stack'| ensures At(index', stack'[i]) < At(index', stack'[j]) {
      assert stack'[i] in stack;
    }
  }

  /** Popping the instances above `l`, which have been executed. */
  lemma PopKeeps(space: Space, stack: seq<Id>, index: map<Id, nat>, onStack: set<Id>, next: nat, l: nat, list: seq<Id>, space': Space)
    requires Stacked(space, stack, index, onStack, next) && l <= |stack| && (forall x :: x in list <==> x in stack[l..])
    requires SpaceKept(space, space') && forall x :: x in space' ==> (space'[x].status.Executed? <==> x in list || space[x].status.Executed?)
    ensures Stacked(space', stack[..l], index, onStack - (set x | x in list), next)
  {
    IncreasingIsDistinct(index, stack);
    assert stack == stack[..l] + stack[l..];
    forall x | x in stack[..l] ensures x !in list {
      var i :| 0 <= i < l && stack[i] == x;
      assert forall j :: l <= j < |stack| ==> stack[i] != stack[j];
    }
    forall x | x in space' ensures x in space { assert x in space'.Keys; }
  }

  /** Executing a sorted component that was found keeps the replica's record right. */
  lemma ComponentRecorded(g: Graph, n: nat, space: Space, order: seq<Id>, list: seq<Id>, space': Space)
    requires Recorded(g, n, space, order) && SpaceKept(space, space') && Distinct(list) && Sorted(g, list)
    requires forall x :: x in list ==> x in space && space[x].status.Committed?
    requires forall x :: x in space' ==> (space'[x].status.Executed? <==> x in list || space[x].status.Executed?)
    requires forall a, b :: a in list && Edge(g, a, b) ==> b in list || b in order
    requires forall a, b :: a in list && b in list ==> Reach(g, a, b)
    requires forall a :: a in list ==> space[a].cmds
    ensures Recorded(g, n, space', order + list)
  {
    forall x | x in list ensures x !in order { }
    ComponentKeepsOrder(g, order, list);
    forall x | x in space' ensures x in space { assert x in space'.Keys; }
    forall x | x in order + list ensures x in space' && space'[x].status.Executed? {
      assert x in space.Keys;
    }
  }

  lemma MeetNotes(g: Graph, order: seq<Id>, lower: seq<Id>, stack: seq<Id>, index: map<Id, nat>, bound: nat, v: Id, w: Id)
    requires Exploring(g, order, lower, stack, index, bound, v, w.replica) && w in stack && Edge(g, v, w) && Increasing(index, stack)
    ensures Exploring(g, order, lower, stack, index, if At(index, w) < bound then At(index, w) else bound, v, w.replica + 1)
  {
    var bound' := if At(index, w) < bound then At(index, w) else bound;
    ReachEdge(g, v, w);
    if At(index, w) < bound {
      var k :| 0 <= k < |stack| && stack[k] == w;
      assert stack[|lower|] == v;
      assert k < |lower|;
      assert w == lower[k];
      assert Attained(g, index, lower, bound', v);
    }
    ExploringNotes(g, order, lower, stack, index, bound, v, w.replica, bound');
  }

  /** A row in which `v` has no dependency left to look at. */
  lemma RowSettled(g: Graph, n: nat, space: Space, order: seq<Id>, upTo: seq<int>, lower: seq<Id>, stack: seq<Id>, index: map<Id, nat>,
                   bound: nat, v: Id, q: nat)
    requires Exploring(g, order, lower, stack, index, bound, v, q) && Recorded(g, n, space, order) && Prefixes(n, order, upTo) && q < n
    requires v in space && !space[v].status.Pending?
    requires var i := space[v].attr.deps[q]; i <= upTo[q] || (i >= 0 && Id(q, i) in order)
    requires forall x :: x in lower ==> x !in order
    ensures Exploring(g, order, lower, stack, index, bound, v, q + 1)
  {
    forall z | Edge(g, v, z) && z.replica == q ensures z in order {
      assert z == Id(q, space[v].attr.deps[q]);
    }
    ExploringNotes(g, order, lower, stack, index, bound, v, q, bound);
  }

  // Whole states

  /** The state of a replica's scheduler during a traversal. */
  datatype Walk = Walk(space: Space, order: seq<Id>, stack: seq<Id>, index: map<Id, nat>, low: map<Id, nat>, onStack: set<Id>)

  ghost predicate Sound(g: Graph, n: nat, upTo: seq<int>, s: Walk, next: nat) {
    Recorded(g, n, s.space, s.order) && Prefixes(n, s.order, upTo) && Stacked(s.space, s.stack, s.index, s.onStack, next)
  }

  /** The commands of everything on the stack are known. */
  ghost predicate Loaded(s: Walk) { forall x :: x in s.stack ==> x in s.space && s.space[x].cmds }

  /** An instance at which a traversal has to stop. */
  predicate Missing(space: Space, x: Id) { x !in space || !space[x].cmds || space[x].status.Pending? }

  ghost predicate Stopped(g: Graph, space: Space, v: Id) { exists x :: Reach(g, v, x) && Missing(space, x) }

  lemma StopsAbove(g: Graph, space: Space, v: Id, w: Id)
    requires Edge(g, v, w) && Stopped(g, space, w)
    ensures Stopped(g, space, v)
  {
    var x :| Reach(g, w, x) && Missing(space, x);
    ReachEdge(g, v, w);
    ReachTransitive(g, v, w, x);
  }

  lemma StopsAt(g: Graph, space: Space, v: Id, w: Id)
    requires Edge(g, v, w) && Missing(space, w)
    ensures Stopped(g, space, v)
  {
    ReachEdge(g, v, w);
  }

  /** Execution and numbering only go forward, and the part of the stack a traversal found stays. */
  ghost predicate Forward(s: Walk, t: Walk, lower: seq<Id>) {
    SpaceKept(s.space, t.space) && s.order <= t.order && NumbersKept(s.index, t.index, s.low, t.low, lower) && lower <= t.stack
  }

  /** The traversal of `v` has explored the rows below `q`. */
  ghost predicate Underway(g: Graph, n: nat, upTo: seq<int>, s: Walk, lower: seq<Id>, v: Id, next: nat, q: nat) {
    Sound(g, n, upTo, s, next) && Exploring(g, s.order, lower, s.stack, s.index, At(s.low, v), v, q)
  }

  /** The outcome of a traversal from `v`: executed, or hanging on what was on the stack before. */
  ghost predicate Traversed(g: Graph, s: Walk, lower: seq<Id>, v: Id, next: nat) {
    if s.stack == lower then v in s.order && At(s.low, v) >= next
    else At(s.low, v) < At(s.index, v) && Hanging(g, s.order, lower, s.stack, s.index, At(s.low, v), v)
  }

  lemma ForwardTransitive(s: Walk, t: Walk, u: Walk, lower: seq<Id>)
    requires Forward(s, t, lower) && Forward(t, u, lower)
    ensures Forward(s, u, lower)
  {
    forall x | x in s.space
      ensures u.space[x] == s.space[x] || (s.space[x].status.Committed? && u.space[x] == s.space[x].(status := Executed))
    {
      assert x in t.space.Keys && x in u.space.Keys;
    }
  }

  lemma ForwardLower(s: Walk, t: Walk, mid: seq<Id>, lower: seq<Id>)
    requires Forward(s, t, mid) && lower <= mid
    ensures Forward(s, t, lower)
  {
    assert forall x :: x in lower ==> x in mid;
  }

  lemma ForwardSelf(s: Walk, lower: seq<Id>)
    requires lower <= s.stack
    ensures Forward(s, s, lower)
  {
  }

  function Lowered(s: Walk, v: Id, b: nat): Walk { if b < At(s.low, v) then s.(low := s.low[v := b]) else s }

  /** The bound of `v` is no concern of the stack below it. */
  lemma LoweredForward(s: Walk, t: Walk, lower: seq<Id>, v: Id, b: nat)
    requires Forward(s, t, lower) && v !in lower
    ensures Forward(s, Lowered(t, v, b), lower)
  {
  }

  lemma AboveLower(g: Graph, n: nat, upTo: seq<int>, s: Walk, lower: seq<Id>, v: Id, next: nat, q: nat)
    requires Underway(g, n, upTo, s, lower, v, next, q)
    ensures v in s.stack && v !in lower && v in s.space && s.space[v].status.Committed? && v in g && |s.space[v].attr.deps| == n
    ensures s.space[v].attr == g[v] && 0 < At(s.index, v) < next && lower <= s.stack
    ensures forall x :: x in lower ==> x !in s.order
  {
    assert v == s.stack[|lower|];
    if v in lower { LowerIsLess(s.index, lower, s.stack, v); }
    forall x | x in lower ensures x !in s.order { assert x in s.stack; }
  }

  lemma StackNotExecuted(g: Graph, n: nat, upTo: seq<int>, t: Walk, next: nat)
    requires Sound(g, n, upTo, t, next)
    ensures forall x :: x in t.stack ==> x !in t.order && At(t.index, x) > 0
    ensures Increasing(t.index, t.stack)
  {
  }

  lemma ChildStays(g: Graph, s: Walk, t: Walk, lower: seq<Id>, v: Id, q: nat)
    requires Exploring(g, s.order, lower, s.stack, s.index, At(s.low, v), v, q) && v in s.stack && Forward(s, t, s.stack)
    requires forall x :: x in s.stack ==> At(s.index, x) > 0
    ensures Exploring(g, t.order, lower, s.stack, t.index, At(t.low, v), v, q) && At(t.index, v) == At(s.index, v)
  {
    ExploringStays(g, s.order, lower, s.stack, s.index, At(s.low, v), v, q, t.order, t.index);
  }

  /** After a child traversal the parent's goes on, with the child's bound taken into account. */
  lemma ChildDone(g: Graph, n: nat, upTo: seq<int>, s: Walk, t: Walk, lower: seq<Id>, v: Id, w: Id, next: nat, next': nat)
    requires Underway(g, n, upTo, s, lower, v, next, w.replica) && Edge(g, v, w)
    requires Sound(g, n, upTo, t, next') && Forward(s, t, s.stack) && Traversed(g, t, s.stack, w, next)
    ensures Underway(g, n, upTo, Lowered(t, v, At(t.low, w)), lower, v, next', w.replica + 1)
  {
    assert v in s.stack && At(s.index, v) < next by { AboveLower(g, n, upTo, s, lower, v, next, w.replica); }
    assert Exploring(g, t.order, lower, s.stack, t.index, At(t.low, v), v, w.replica) && At(t.index, v) == At(s.index, v) by {
      StackNotExecuted(g, n, upTo, s, next);
      ChildStays(g, s, t, lower, v, w.replica);
    }
    assert Increasing(t.index, t.stack) && forall x :: x in s.stack ==> x !in t.order by {
      StackNotExecuted(g, n, upTo, t, next');
      assert forall x :: x in s.stack ==> x in t.stack;
    }
    Rejoined(g, t, lower, s.stack, v, w, next, At(t.low, v));
    LoweredUnderway(g, n, upTo, t, lower, v, At(t.low, w), next', w.replica + 1);
  }

  lemma LoweredUnderway(g: Graph, n: nat, upTo: seq<int>, t: Walk, lower: seq<Id>, v: Id, b: nat, next: nat, q: nat)
    requires Sound(g, n, upTo, t, next)
    requires Exploring(g, t.order, lower, t.stack, t.index, if b < At(t.low, v) then b else At(t.low, v), v, q)
    ensures Underway(g, n, upTo, Lowered(t, v, b), lower, v, next, q)
  {
  }

  lemma Rejoined(g: Graph, t: Walk, lower: seq<Id>, mid: seq<Id>, v: Id, w: Id, next: nat, bound: nat)
    requires Exploring(g, t.order, lower, mid, t.index, bound, v, w.replica) && Traversed(g, t, mid, w, next) && Edge(g, v, w)
    requires Increasing(t.index, t.stack) && At(t.index, v) < next
    requires forall x :: x in mid ==> x !in t.order
    ensures Exploring(g, t.order, lower, t.stack, t.index, if At(t.low, w) < bound then At(t.low, w) else bound, v, w.replica + 1)
  {
    if t.stack == mid {
      forall z | Edge(g, v, z) && z.replica == w.replica ensures z == w { }
      assert forall x :: x in lower ==> x in mid;
      ExploringNotes(g, t.order, lower, mid, t.index, bound, v, w.replica, bound);
    } else {
      HangingJoins(g, t.order, lower, mid, t.stack, t.index, bound, v, w.replica, w, At(t.low, w));
    }
  }

  lemma ChildReached(g: Graph, stack: seq<Id>, v: Id, w: Id)
    requires (forall x :: x in stack ==> Reach(g, x, v)) && Edge(g, v, w)
    ensures forall x :: x in stack ==> Reach(g, x, w)
  {
    ReachEdge(g, v, w);
    forall x | x in stack ensures Reach(g, x, w) { ReachTransitive(g, x, v, w); }
  }

  lemma RowDone(g: Graph, n: nat, upTo: seq<int>, s: Walk, lower: seq<Id>, v: Id, next: nat, q: nat)
    requires Underway(g, n, upTo, s, lower, v, next, q) && q < n && v in s.space && |s.space[v].attr.deps| == n
    requires var i := s.space[v].attr.deps[q]; i <= upTo[q] || (i >= 0 && Id(q, i) in s.order)
    ensures Underway(g, n, upTo, s, lower, v, next, q + 1)
  {
    AboveLower(g, n, upTo, s, lower, v, next, q);
    RowSettled(g, n, s.space, s.order, upTo, lower, s.stack, s.index, At(s.low, v), v, q);
  }

  lemma MetDone(g: Graph, n: nat, upTo: seq<int>, s: Walk, lower: seq<Id>, v: Id, w: Id, next: nat)
    requires Underway(g, n, upTo, s, lower, v, next, w.replica) && w in s.stack && Edge(g, v, w)
    ensures Underway(g, n, upTo, Lowered(s, v, At(s.index, w)), lower, v, next, w.replica + 1)
  {
    MeetNotes(g, s.order, lower, s.stack, s.index, At(s.low, v), v, w);
  }

  function Pushed(s: Walk, v: Id, next: nat): Walk {
    s.(index := s.index[v := next], low := s.low[v := next], stack := s.stack + [v], onStack := s.onStack + {v})
  }

  lemma PushDone(g: Graph, n: nat, upTo: seq<int>, s: Walk, v: Id, next: nat)
    requires Sound(g, n, upTo, s, next) && v in s.space && s.space[v].status.Committed? && At(s.index, v) == 0
    requires forall x :: x in s.stack ==> Reach(g, x, v)
    ensures Underway(g, n, upTo, Pushed(s, v, next), s.stack, v, next + 1, 0) && Forward(s, Pushed(s, v, next), s.stack)
    ensures |Unvisited(s.space, Pushed(s, v, next).index)| < |Unvisited(s.space, s.index)|
    ensures Loaded(s) && s.space[v].cmds ==> Loaded(Pushed(s, v, next))
    ensures !s.space[v].cmds ==> Stopped(g, s.space, v)
  {
    PushKeeps(s.space, s.stack, s.index, s.onStack, next, v);
    ExploringStarts(g, s.order, s.stack, s.index[v := next], v);
    VisitShrinks(s.space, s.space, s.index, s.index[v := next], v);
    ReachSelf(g, v);
  }

  /** Visiting never stops short of what has been visited. */
  lemma ForwardVisits(s: Walk, t: Walk, lower: seq<Id>)
    requires Forward(s, t, lower)
    ensures |Unvisited(t.space, t.index)| <= |Unvisited(s.space, s.index)|
  {
    forall x | x in Unvisited(t.space, t.index) ensures x in Unvisited(s.space, s.index) { assert x in t.space.Keys; }
    Shrinks(Unvisited(t.space, t.index), Unvisited(s.space, s.index));
  }

  /** When every row is explored, the part of the stack from `v` on is a component, or hangs. */
  lemma AllExplored(g: Graph, n: nat, upTo: seq<int>, s: Walk, lower: seq<Id>, v: Id, next: nat)
    requires Underway(g, n, upTo, s, lower, v, next, n)
    ensures |lower| < |s.stack| && v in s.stack[|lower|..] && lower == s.stack[..|lower|]
    ensures At(s.low, v) != At(s.index, v) ==> Traversed(g, s, lower, v, At(s.index, v))
    ensures At(s.low, v) == At(s.index, v) ==>
      && (forall a, b :: a in s.stack[|lower|..] && Edge(g, a, b) ==> b in s.stack[|lower|..] || b in s.order)
      && (forall a, b :: a in s.stack[|lower|..] && b in s.stack[|lower|..] ==> Reach(g, a, b))
  {
    AboveLower(g, n, upTo, s, lower, v, next, n);
    assert v == s.stack[|lower|..][0];
    if At(s.low, v) == At(s.index, v) {
      ComponentFound(g, n, s.order, lower, s.stack, s.index, v);
    } else {
      ComponentHangs(g, n, s.order, lower, s.stack, s.index, At(s.low, v), v);
    }
  }

  /** Executing the component on top of the stack, in order, and popping it. */
  lemma ComponentDone(g: Graph, n: nat, upTo: seq<int>, s: Walk, t: Walk, l: nat, list: seq<Id>, next: nat)
    requires Sound(g, n, upTo, s, next) && l <= |s.stack| && Distinct(list) && Sorted(g, list)
    requires forall x :: x in list <==> x in s.stack[l..]
    requires forall a, b :: a in list && Edge(g, a, b) ==> b in list || b in s.order
    requires forall a, b :: a in list && b in list ==> Reach(g, a, b)
    requires Loaded(s)
    requires SpaceKept(s.space, t.space) && forall x :: x in t.space ==> (t.space[x].status.Executed? <==> x in list || s.space[x].status.Executed?)
    requires t == s.(space := t.space, order := s.order + list, stack := s.stack[..l], onStack := s.onStack - (set x | x in list))
    ensures Sound(g, n, upTo, t, next) && Forward(s, t, s.stack[..l])
  {
    assert forall x :: x in s.stack[l..] ==> x in s.stack;
    ComponentRecorded(g, n, s.space, s.order, list, t.space);
    PopKeeps(s.space, s.stack, s.index, s.onStack, next, l, list, t.space);
  }

  lemma ChildReturns(g: Graph, n: nat, upTo: seq<int>, s: Walk, t: Walk, lower: seq<Id>, v: Id, w: Id, next: nat, next': nat)
    requires Underway(g, n, upTo, s, lower, v, next, w.replica) && Edge(g, v, w) && Forward(s, t, s.stack)
    ensures Forward(s, t, lower) && Forward(s, Lowered(t, v, At(t.low, w)), lower) && At(t.index, v) == At(s.index, v)
    ensures Sound(g, n, upTo, t, next') ==> Sound(g, n, upTo, Lowered(t, v, At(t.low, w)), next')
    ensures Loaded(t) ==> Loaded(Lowered(t, v, At(t.low, w)))
    ensures Stopped(g, t.space, w) ==> Stopped(g, t.space, v)
    ensures Sound(g, n, upTo, t, next') && Traversed(g, t, s.stack, w, next) ==>
              Underway(g, n, upTo, Lowered(t, v, At(t.low, w)), lower, v, next', w.replica + 1)
  {
    AboveLower(g, n, upTo, s, lower, v, next, w.replica);
    ForwardLower(s, t, s.stack, lower);
    LoweredForward(s, t, lower, v, At(t.low, w));
    if Stopped(g, t.space, w) { StopsAbove(g, t.space, v, w); }
    if Sound(g, n, upTo, t, next') && Traversed(g, t, s.stack, w, next) {
      ChildDone(g, n, upTo, s, t, lower, v, w, next, next');
    }
  }

  /** The instances from position `l` of the stack on are committed, and each is there once. */
  lemma TopCommitted(g: Graph, n: nat, upTo: seq<int>, s: Walk, l: nat, next: nat)
    requires Sound(g, n, upTo, s, next) && l <= |s.stack|
    ensures Distinct(s.stack[l..])
    ensures forall x :: x in s.stack[l..] ==> x in s.space && s.space[x].status.Committed? && x in g && s.space[x].attr == g[x]
  {
    IncreasingIsDistinct(s.index, s.stack);
    assert forall x :: x in s.stack[l..] ==> x in s.stack;
  }
}
