/** The wait-for graph and Tarjan's algorithm on it: `g[x]` are the transactions `x`
    waits for.  `Scan` is the state of the search between two steps; the class in
    WaitPath.dfy changes it in place. */
module WaitGraph {
  type Xid = nat
  type Graph = map<Xid, set<Xid>>

  // ---------------------------------------------------------------- reachability

  ghost predicate IsPath(g: Graph, p: seq<Xid>) {
    p != [] && forall i :: 0 <= i < |p| - 1 ==> Edge(g, p[i], p[i + 1])
  }

  ghost predicate Edge(g: Graph, x: Xid, y: Xid) { x in g && y in g[x] }

  ghost predicate PathFrom(g: Graph, p: seq<Xid>, x: Xid, y: Xid) {
    IsPath(g, p) && p[0] == x && p[|p| - 1] == y
  }

  ghost predicate Reach(g: Graph, x: Xid, y: Xid) {
    exists p :: PathFrom(g, p, x, y)
  }

  ghost predicate Mutual(g: Graph, x: Xid, y: Xid) { Reach(g, x, y) && Reach(g, y, x) }

  lemma ReachSelf(g: Graph, x: Xid)
    ensures Reach(g, x, x)
  {
    assert PathFrom(g, [x], x, x);
  }

  lemma ReachEdge(g: Graph, x: Xid, y: Xid)
    requires Edge(g, x, y)
    ensures Reach(g, x, y)
  {
    assert PathFrom(g, [x, y], x, y);
  }

  lemma ReachOn(g: Graph, x: Xid, y: Xid, z: Xid)
    requires Reach(g, x, y) && Reach(g, y, z)
    ensures Reach(g, x, z)
  {
    var p :| PathFrom(g, p, x, y);
    var q :| PathFrom(g, q, y, z);
    var r := p + q[1..];
    forall i | 0 <= i < |r| - 1 ensures Edge(g, r[i], r[i + 1]) {
      if i < |p| - 1 {
        assert Edge(g, p[i], p[i + 1]);
      } else {
        assert r[i] == q[i - (|p| - 1)] && r[i + 1] == q[i - (|p| - 1) + 1];
      }
    }
    assert PathFrom(g, r, x, z);
  }

  ghost predicate Closed(g: Graph, d: set<Xid>) {
    forall x, y :: x in d && Edge(g, x, y) ==> y in d
  }

  lemma ClosedPath(g: Graph, d: set<Xid>, p: seq<Xid>, i: nat)
    requires Closed(g, d) && IsPath(g, p) && p[0] in d && i < |p|
    ensures p[i] in d
  {
    if i > 0 {
      ClosedPath(g, d, p, i - 1);
      assert Edge(g, p[i - 1], p[i - 1 + 1]);
    }
  }

  lemma ClosedReach(g: Graph, d: set<Xid>, x: Xid, y: Xid)
    requires Closed(g, d) && x in d && Reach(g, x, y)
    ensures y in d
  {
    var p :| PathFrom(g, p, x, y);
    ClosedPath(g, d, p, |p| - 1);
  }

  // ---------------------------------------------------------------- the state of the search

  /** One transaction: its place in the order of discovery (0: not found yet), the
      lowest place known to be reachable, and whether it is on the stack. */
  datatype TxWait = TxWait(index: nat, low: nat, onStack: bool, ins: set<Xid>)

  datatype Scan = Scan(waits: map<Xid, TxWait>, stack: seq<Xid>, next: nat, scc: seq<seq<Xid>>)

  predicate Found(s: Scan, x: Xid) { x in s.waits && s.waits[x].index != 0 }

  /** Found, and part of a finished component. */
  predicate Done(s: Scan, x: Xid) { Found(s, x) && x !in s.stack }

  ghost function DoneSet(s: Scan): set<Xid> { set x | x in s.waits && Done(s, x) }

  ghost predicate SameGraph(g: Graph, s: Scan) {
    && s.waits.Keys == g.Keys
    && (forall x :: x in g ==> s.waits[x].ins == g[x])
    && (forall x, y :: Edge(g, x, y) ==> y in g)
  }

  ghost predicate StackOk(s: Scan) {
    && s.next >= 1
    && (forall x :: x in s.waits ==> s.waits[x].index < s.next && (s.waits[x].onStack <==> x in s.stack))
    && (forall i :: 0 <= i < |s.stack| ==> Found(s, s.stack[i]))
    && (forall i, j :: 0 <= i < j < |s.stack| ==> s.waits[s.stack[i]].index < s.waits[s.stack[j]].index)
  }

  /** Whatever is found and not being explored has all its successors found. */
  ghost predicate NoneMissed(g: Graph, s: Scan, gray: set<Xid>) {
    && (forall x :: x in gray ==> x in s.stack)
    && (forall x, y :: Found(s, x) && x !in gray && Edge(g, x, y) ==> Found(s, y))
  }

  ghost predicate StackReach(g: Graph, s: Scan) {
    forall i, j :: 0 <= i <= j < |s.stack| ==> Reach(g, s.stack[i], s.stack[j])
  }

  /** The stack node at `j` leads back to a node being explored that is no higher. */
  ghost predicate BackTo(g: Graph, s: Scan, gray: set<Xid>, j: nat)
    requires j < |s.stack|
  {
    exists i :: 0 <= i <= j && s.stack[i] in gray && Reach(g, s.stack[j], s.stack[i])
  }

  ghost predicate BackToGray(g: Graph, s: Scan, gray: set<Xid>) {
    forall j :: 0 <= j < |s.stack| ==> BackTo(g, s, gray, j)
  }

  ghost predicate Distinct(c: seq<Xid>) {
    forall i, j :: 0 <= i < j < |c| ==> c[i] != c[j]
  }

  /** Two or more transactions, each listed once: all that are mutually reachable. */
  ghost predicate IsComponent(g: Graph, c: seq<Xid>) {
    |c| >= 2 && Distinct(c) && forall x, y :: x in c ==> (y in c <==> Mutual(g, x, y))
  }

  ghost predicate Reported(s: Scan, x: Xid) { exists k :: 0 <= k < |s.scc| && x in s.scc[k] }

  ghost predicate SccOk(g: Graph, s: Scan) {
    && (forall k :: 0 <= k < |s.scc| ==> IsComponent(g, s.scc[k]))
    && (forall k, x :: 0 <= k < |s.scc| && x in s.scc[k] ==> Done(s, x))
    && (forall k, l, x :: 0 <= k < l < |s.scc| && x in s.scc[k] ==> x !in s.scc[l])
    && (forall x, y :: Done(s, x) && x != y && Mutual(g, x, y) ==> Reported(s, x))
  }

  ghost predicate ScanInv(g: Graph, s: Scan, gray: set<Xid>) {
    && SameGraph(g, s) && StackOk(s) && NoneMissed(g, s, gray) && StackReach(g, s) && BackToGray(g, s, gray)
    && Closed(g, DoneSet(s)) && SccOk(g, s)
  }

  // ---------------------------------------------------------------- discovering a transaction

  function Discover(s: Scan, v: Xid): Scan
    requires v in s.waits
  {
    s.(waits := s.waits[v := s.waits[v].(index := s.next, low := s.next, onStack := true)],
       next := s.next + 1, stack := s.stack + [v])
  }

  lemma DiscoverKeepsDone(s: Scan, v: Xid, x: Xid)
    requires v in s.waits && !Found(s, v) && StackOk(s)
    ensures Done(Discover(s, v), x) <==> Done(s, x)
    ensures Found(Discover(s, v), x) <==> Found(s, x) || x == v
  {
    assert x in Discover(s, v).stack <==> x in s.stack || x == v;
  }

  lemma DiscoverStack(s: Scan, v: Xid)
    requires v in s.waits && !Found(s, v) && StackOk(s)
    ensures StackOk(Discover(s, v))
  {
    var t := Discover(s, v);
    assert v !in s.stack;
    forall x | x in t.waits ensures t.waits[x].index < t.next && (t.waits[x].onStack <==> x in t.stack) {
      assert x in t.stack <==> x in s.stack || x == v;
    }
  }

  /** The node at `i` of the stack reaches `v` when all nodes being explored do. */
  lemma StackReaches(g: Graph, s: Scan, gray: set<Xid>, v: Xid, i: nat)
    requires BackToGray(g, s, gray) && (forall x :: x in gray ==> Reach(g, x, v)) && i < |s.stack|
    ensures Reach(g, s.stack[i], v)
  {
    assert BackTo(g, s, gray, i);
    var k :| 0 <= k <= i && s.stack[k] in gray && Reach(g, s.stack[i], s.stack[k]);
    ReachOn(g, s.stack[i], s.stack[k], v);
  }

  lemma DiscoverReach(g: Graph, s: Scan, gray: set<Xid>, v: Xid)
    requires v in s.waits && StackReach(g, s) && BackToGray(g, s, gray) && forall x :: x in gray ==> Reach(g, x, v)
    ensures StackReach(g, Discover(s, v)) && BackToGray(g, Discover(s, v), gray + {v})
  {
    var t := Discover(s, v);
    ReachSelf(g, v);
    forall i, j | 0 <= i <= j < |t.stack| ensures Reach(g, t.stack[i], t.stack[j]) {
      if j == |s.stack| && i < j { StackReaches(g, s, gray, v, i); }
    }
    forall j | 0 <= j < |t.stack| ensures BackTo(g, t, gray + {v}, j) {
      if j < |s.stack| {
        assert BackTo(g, s, gray, j);
        var i :| 0 <= i <= j && s.stack[i] in gray && Reach(g, s.stack[j], s.stack[i]);
        assert t.stack[i] in gray + {v};
      } else {
        assert t.stack[j] in gray + {v} && Reach(g, t.stack[j], t.stack[j]);
      }
    }
  }

  lemma SameDoneKeepsScc(g: Graph, s: Scan, t: Scan)
    requires SccOk(g, s) && t.scc == s.scc && forall x :: Done(t, x) <==> Done(s, x)
    ensures SccOk(g, t)
  {
    forall x, y | Done(t, x) && x != y && Mutual(g, x, y) ensures Reported(t, x) {
      assert Reported(s, x);
    }
  }

  lemma DiscoverKeepsInv(g: Graph, s: Scan, gray: set<Xid>, v: Xid)
    requires ScanInv(g, s, gray) && v in g && !Found(s, v) && forall x :: x in gray ==> Reach(g, x, v)
    ensures ScanInv(g, Discover(s, v), gray + {v})
  {
    var t := Discover(s, v);
    forall x ensures Done(t, x) <==> Done(s, x) { DiscoverKeepsDone(s, v, x); }
    assert DoneSet(t) == DoneSet(s);
    DiscoverStack(s, v);
    DiscoverReach(g, s, gray, v);
    SameDoneKeepsScc(g, s, t);
    forall x | x in gray + {v} ensures x in t.stack {
      if x == v {
        assert t.stack[|s.stack|] == v;
      } else {
        var i :| 0 <= i < |s.stack| && s.stack[i] == x;
        assert t.stack[i] == x;
      }
    }
    forall x, y | Found(t, x) && x !in gray + {v} && Edge(g, x, y) ensures Found(t, y) {
      DiscoverKeepsDone(s, v, x);
      DiscoverKeepsDone(s, v, y);
    }
  }

  // ---------------------------------------------------------------- exploring a transaction

  /** The low link of the stack node at `p` is the place of a stack node it reaches, no higher than itself. */
  ghost predicate LowOk(g: Graph, s: Scan, p: nat)
    requires StackOk(s) && p < |s.stack|
  {
    var low := s.waits[s.stack[p]].low;
    exists i :: 0 <= i <= p && s.waits[s.stack[i]].index == low && Reach(g, s.stack[p], s.stack[i])
  }

  /** No edge from the stack at `p` or above, `todo` at `p` aside, ends below `p` at a place lower than `low`. */
  ghost predicate Bounds(g: Graph, s: Scan, p: nat, low: nat, todo: set<Xid>)
    requires StackOk(s)
  {
    forall i, j ::
      0 <= j < p <= i < |s.stack| && Edge(g, s.stack[i], s.stack[j]) && (i == p ==> s.stack[j] !in todo) ==>
      low <= s.waits[s.stack[j]].index
  }

  /** `v`, at `p` of the stack, is being explored; its successors other than `todo` have been looked at. */
  ghost predicate Exploring(g: Graph, s: Scan, gray: set<Xid>, v: Xid, p: nat, todo: set<Xid>) {
    && ScanInv(g, s, gray + {v}) && p < |s.stack| && s.stack[p] == v
    && (forall x :: x in gray ==> x in s.stack[..p] && Reach(g, x, v))
    && LowOk(g, s, p) && Bounds(g, s, p, s.waits[v].low, todo)
    && todo <= g[v] && forall y :: y in g[v] && y !in todo ==> Found(s, y)
  }

  /** What is found keeps its place and its low link, and the stack only grew by new transactions. */
  ghost predicate Grown(s: Scan, t: Scan) {
    && t.waits.Keys == s.waits.Keys && s.stack <= t.stack && s.next <= t.next
    && (forall x :: Found(s, x) ==>
          Found(t, x) && t.waits[x].index == s.waits[x].index && t.waits[x].low == s.waits[x].low)
    && (forall i :: |s.stack| <= i < |t.stack| ==> !Found(s, t.stack[i]))
  }

  /** Where exploring `v` from state `s` on has left it: in a finished component, or on the
      stack with a low link below its own place that bounds everything found with it. */
  ghost predicate Linked(g: Graph, s: Scan, t: Scan, v: Xid)
    requires StackOk(t)
  {
    && Grown(s, t) && Found(t, v) && s.next <= t.waits[v].index
    && if t.stack == s.stack then t.waits[v].low == t.waits[v].index
       else
         var p := |s.stack|;
         && p < |t.stack| && t.stack[p] == v && LowOk(g, t, p)
         && t.waits[v].low < t.waits[v].index && Bounds(g, t, p, t.waits[v].low, {})
  }

  ghost predicate Explored(g: Graph, s: Scan, t: Scan, gray: set<Xid>, v: Xid) {
    ScanInv(g, t, gray) && Linked(g, s, t, v)
  }

  lemma StartExploring(g: Graph, s: Scan, gray: set<Xid>, v: Xid)
    requires ScanInv(g, s, gray) && v in g && !Found(s, v) && forall x :: x in gray ==> Reach(g, x, v)
    ensures Exploring(g, Discover(s, v), gray, v, |s.stack|, g[v])
    ensures Grown(s, Discover(s, v))
  {
    var t := Discover(s, v);
    DiscoverKeepsInv(g, s, gray, v);
    ReachSelf(g, v);
    assert t.stack[..|s.stack|] == s.stack;
    assert t.waits[t.stack[|s.stack|]].index == t.waits[v].low;
  }

  function SetLow(s: Scan, v: Xid, low: nat): Scan
    requires v in s.waits
  {
    s.(waits := s.waits[v := s.waits[v].(low := low)])
  }

  /** Low links do not matter to the invariant. */
  lemma SetLowKeepsInv(g: Graph, s: Scan, gray: set<Xid>, v: Xid, low: nat)
    requires ScanInv(g, s, gray) && v in s.waits
    ensures ScanInv(g, SetLow(s, v, low), gray)
  {
    var t := SetLow(s, v, low);
    assert forall x :: Found(t, x) <==> Found(s, x);
    assert forall x :: Done(t, x) <==> Done(s, x);
    assert DoneSet(t) == DoneSet(s);
    SameDoneKeepsScc(g, s, t);
    forall j | 0 <= j < |t.stack| ensures BackTo(g, t, gray, j) { assert BackTo(g, s, gray, j); }
  }

  lemma LowAfter(g: Graph, s: Scan, v: Xid, p: nat, low: nat, i: nat)
    requires StackOk(s) && p < |s.stack| && s.stack[p] == v
    requires i <= p && s.waits[s.stack[i]].index == low && Reach(g, v, s.stack[i])
    ensures StackOk(SetLow(s, v, low)) && LowOk(g, SetLow(s, v, low), p)
  {
    var t := SetLow(s, v, low);
    assert t.waits[t.stack[i]].index == t.waits[t.stack[p]].low && Reach(g, t.stack[p], t.stack[i]);
  }

  lemma BoundsAfter(g: Graph, s: Scan, v: Xid, p: nat, low: nat, todo: set<Xid>, w: Xid)
    requires StackOk(s) && p < |s.stack| && s.stack[p] == v && Bounds(g, s, p, s.waits[v].low, todo)
    requires low <= s.waits[v].low && (w in s.stack ==> low <= s.waits[w].index)
    ensures StackOk(SetLow(s, v, low)) && Bounds(g, SetLow(s, v, low), p, low, todo - {w})
  {
    var t := SetLow(s, v, low);
    forall i, j |
      0 <= j < p <= i < |t.stack| && Edge(g, t.stack[i], t.stack[j]) && (i == p ==> t.stack[j] !in todo - {w})
      ensures low <= t.waits[t.stack[j]].index
    {
      if i == p && s.stack[j] in todo { assert s.stack[j] == w; }
    }
  }

  /** The low link of `v` goes down to the place of a stack node that `v` reaches, and `w` is dealt with. */
  lemma Lowered(g: Graph, s: Scan, gray: set<Xid>, v: Xid, p: nat, todo: set<Xid>, low: nat, i: nat, w: Xid)
    requires Exploring(g, s, gray, v, p, todo) && Found(s, w)
    requires i <= p && s.waits[s.stack[i]].index == low && Reach(g, v, s.stack[i])
    requires low <= s.waits[v].low && (w in s.stack ==> low <= s.waits[w].index)
    ensures Exploring(g, SetLow(s, v, low), gray, v, p, todo - {w})
  {
    var t := SetLow(s, v, low);
    SetLowKeepsInv(g, s, gray + {v}, v, low);
    LowAfter(g, s, v, p, low, i);
    BoundsAfter(g, s, v, p, low, todo, w);
    forall y | y in g[v] && y !in todo - {w} ensures Found(t, y) { assert Found(s, y); }
  }

  lemma InStack(s: Scan, w: Xid) returns (i: nat)
    requires w in s.stack
    ensures i < |s.stack| && s.stack[i] == w
  {
    i :| 0 <= i < |s.stack| && s.stack[i] == w;
  }

  /** The stack node whose place the low link is. */
  lemma LowNode(g: Graph, s: Scan, p: nat) returns (i: nat)
    requires StackOk(s) && p < |s.stack| && LowOk(g, s, p)
    ensures i <= p && s.waits[s.stack[i]].index == s.waits[s.stack[p]].low && Reach(g, s.stack[p], s.stack[i])
  {
    i :| 0 <= i <= p && s.waits[s.stack[i]].index == s.waits[s.stack[p]].low && Reach(g, s.stack[p], s.stack[i]);
  }

  lemma StackOrder(s: Scan, i: nat, j: nat)
    requires StackOk(s) && i < |s.stack| && j < |s.stack| && s.waits[s.stack[i]].index < s.waits[s.stack[j]].index
    ensures i < j
  {}

  function Lower(a: nat, b: nat): nat { if a < b then a else b }

  /** A successor on the stack: the low link takes its place into account. */
  lemma SawOnStack(g: Graph, s: Scan, gray: set<Xid>, v: Xid, p: nat, todo: set<Xid>, w: Xid)
    requires Exploring(g, s, gray, v, p, todo) && w in todo && w in s.stack
    ensures Exploring(g, SetLow(s, v, Lower(s.waits[v].low, s.waits[w].index)), gray, v, p, todo - {w})
  {
    var i := InStack(s, w);
    var k := LowNode(g, s, p);
    LowIsLow(g, s, p);
    ReachEdge(g, v, w);
    if s.waits[w].index < s.waits[v].low {
      StackOrder(s, i, p);
      Lowered(g, s, gray, v, p, todo, s.waits[w].index, i, w);
    } else {
      Lowered(g, s, gray, v, p, todo, s.waits[v].low, k, w);
    }
  }

  lemma LowIsLow(g: Graph, s: Scan, p: nat)
    requires StackOk(s) && p < |s.stack| && LowOk(g, s, p)
    ensures s.waits[s.stack[p]].low <= s.waits[s.stack[p]].index
  {}

  /** A successor in a finished component does not count. */
  lemma SawDone(g: Graph, s: Scan, gray: set<Xid>, v: Xid, p: nat, todo: set<Xid>, w: Xid)
    requires Exploring(g, s, gray, v, p, todo) && w in todo && Done(s, w)
    ensures Exploring(g, s, gray, v, p, todo - {w})
  {}

  /** The edges of what was found with `w` are bounded by the low link of `w`. */
  lemma NewBounds(g: Graph, s: Scan, t: Scan, v: Xid, p: nat, todo: set<Xid>, w: Xid, low: nat)
    requires StackOk(s) && StackOk(t) && Grown(s, t) && p < |s.stack| && v in s.waits
    requires Bounds(g, s, p, s.waits[v].low, todo)
    requires w in t.waits && !Found(s, w) && low <= s.waits[v].low && low <= t.waits[w].low
    requires |t.stack| > |s.stack| ==> Bounds(g, t, |s.stack|, t.waits[w].low, {})
    ensures Bounds(g, t, p, low, todo - {w})
  {
    forall i, j |
      0 <= j < p <= i < |t.stack| && Edge(g, t.stack[i], t.stack[j]) && (i == p ==> t.stack[j] !in todo - {w})
      ensures low <= t.waits[t.stack[j]].index
    {
      assert t.stack[j] == s.stack[j] && Found(s, s.stack[j]);
      if i < |s.stack| {
        assert t.stack[i] == s.stack[i];
        assert Edge(g, s.stack[i], s.stack[j]);
      }
    }
  }

  lemma NewLow(g: Graph, s: Scan, t: Scan, v: Xid, p: nat, w: Xid) returns (i: nat)
    requires StackOk(s) && p < |s.stack| && s.stack[p] == v && LowOk(g, s, p) && Edge(g, v, w) && StackOk(t)
    requires Linked(g, s, t, w)
    ensures i <= p && Reach(g, v, t.stack[i])
    ensures p < |t.stack| && t.stack[p] == v && t.waits[t.stack[i]].index == Lower(t.waits[v].low, t.waits[w].low)
  {
    LowIsLow(g, s, p);
    assert Found(s, v);
    if t.waits[w].low < t.waits[v].low {
      assert t.stack != s.stack;
      i := LowNode(g, t, |s.stack|);
      StackOrder(t, i, p);
      ReachEdge(g, v, w);
      ReachOn(g, v, w, t.stack[i]);
    } else {
      i := LowNode(g, s, p);
      assert Found(s, s.stack[i]);
    }
  }

  lemma NewParts(g: Graph, s: Scan, t: Scan, v: Xid, p: nat, todo: set<Xid>, w: Xid)
    requires StackOk(s) && p < |s.stack| && s.stack[p] == v && LowOk(g, s, p) && Bounds(g, s, p, s.waits[v].low, todo)
    requires Edge(g, v, w) && !Found(s, w) && StackOk(t) && Linked(g, s, t, w)
    ensures Found(t, v) && p < |t.stack| && t.stack[p] == v && t.stack[..p] == s.stack[..p]
    ensures var u := SetLow(t, v, Lower(t.waits[v].low, t.waits[w].low));
      StackOk(u) && LowOk(g, u, p) && Bounds(g, u, p, u.waits[v].low, todo - {w})
  {
    assert Found(s, v);
    var low := Lower(t.waits[v].low, t.waits[w].low);
    var i := NewLow(g, s, t, v, p, w);
    NewBounds(g, s, t, v, p, todo, w, low);
    LowAfter(g, t, v, p, low, i);
    BoundsSame(g, t, v, p, low, todo - {w});
  }

  /** A successor that was not found yet has been explored: its low link is taken into account. */
  lemma SawNew(g: Graph, s: Scan, t: Scan, gray: set<Xid>, v: Xid, p: nat, todo: set<Xid>, w: Xid)
    requires Exploring(g, s, gray, v, p, todo) && w in todo && !Found(s, w) && Explored(g, s, t, gray + {v}, w)
    ensures Found(t, v) && Exploring(g, SetLow(t, v, Lower(t.waits[v].low, t.waits[w].low)), gray, v, p, todo - {w})
  {
    NewParts(g, s, t, v, p, todo, w);
    SetLowKeepsInv(g, t, gray + {v}, v, Lower(t.waits[v].low, t.waits[w].low));
    NewFound(g, s, t, v, todo, w, Lower(t.waits[v].low, t.waits[w].low));
  }

  lemma NewFound(g: Graph, s: Scan, t: Scan, v: Xid, todo: set<Xid>, w: Xid, low: nat)
    requires Grown(s, t) && v in g && v in t.waits && Found(t, w) && forall y :: y in g[v] && y !in todo ==> Found(s, y)
    ensures forall y :: y in g[v] && y !in todo - {w} ==> Found(SetLow(t, v, low), y)
  {
    forall y | y in g[v] && y !in todo - {w} ensures Found(SetLow(t, v, low), y) { if y != w { assert Found(s, y); } }
  }

  lemma BoundsSame(g: Graph, s: Scan, v: Xid, p: nat, low: nat, todo: set<Xid>)
    requires StackOk(s) && v in s.waits && Bounds(g, s, p, low, todo)
    ensures StackOk(SetLow(s, v, low)) && Bounds(g, SetLow(s, v, low), p, low, todo)
  {}

  // ---------------------------------------------------------------- leaving a transaction

  lemma DropGray(g: Graph, s: Scan, gray: set<Xid>, v: Xid, p: nat)
    requires StackOk(s) && BackToGray(g, s, gray + {v}) && p < |s.stack| && s.stack[p] == v && LowOk(g, s, p)
    requires s.waits[v].low < s.waits[v].index
    ensures BackToGray(g, s, gray)
  {
    var i := LowNode(g, s, p);
    StackOrder(s, i, p);
    assert BackTo(g, s, gray + {v}, i);
    var k :| 0 <= k <= i && s.stack[k] in gray + {v} && Reach(g, s.stack[i], s.stack[k]);
    ReachOn(g, v, s.stack[i], s.stack[k]);
    forall j | 0 <= j < |s.stack| ensures BackTo(g, s, gray, j) {
      assert BackTo(g, s, gray + {v}, j);
      var l :| 0 <= l <= j && s.stack[l] in gray + {v} && Reach(g, s.stack[j], s.stack[l]);
      if s.stack[l] !in gray {
        ReachOn(g, s.stack[j], v, s.stack[k]);
        assert s.stack[k] in gray && k <= j;
      }
    }
  }

  /** `v` is explored and part of a component whose first transaction is below it: it stays on the stack. */
  lemma StaysOnStack(g: Graph, s: Scan, t: Scan, gray: set<Xid>, v: Xid)
    requires Exploring(g, t, gray, v, |s.stack|, {}) && Grown(s, t) && !Found(s, v) && t.waits[v].low < t.waits[v].index
    requires s.next <= t.waits[v].index
    ensures Explored(g, s, t, gray, v)
  {
    DropGray(g, t, gray, v, |s.stack|);
    forall x | x in gray ensures x in t.stack { assert x in t.stack[..|s.stack|]; }
    assert NoneMissed(g, t, gray);
  }

  /** The top of the stack down to `p` was taken off and listed in `c`; it is reported if it is more than one. */
  ghost predicate Popped(s: Scan, t: Scan, p: nat, c: seq<Xid>)
    requires p <= |s.stack|
  {
    && t.stack == s.stack[..p] && t.next == s.next && t.waits.Keys == s.waits.Keys
    && (forall x :: x in s.waits ==>
          t.waits[x] == if x in s.stack[p..] then s.waits[x].(onStack := false) else s.waits[x])
    && |c| == |s.stack| - p && Distinct(c) && (forall x :: x in c <==> x in s.stack[p..])
    && t.scc == if |c| > 1 then s.scc + [c] else s.scc
  }

  lemma SamePlace(s: Scan, i: nat, j: nat)
    requires StackOk(s) && i < |s.stack| && j < |s.stack|
    ensures s.stack[i] == s.stack[j] <==> i == j
  {
    assert i < j ==> s.waits[s.stack[i]].index < s.waits[s.stack[j]].index;
    assert j < i ==> s.waits[s.stack[j]].index < s.waits[s.stack[i]].index;
  }

  /** Stack positions of a transaction are unique. */
  lemma OnePlace(s: Scan, p: nat, x: Xid)
    requires StackOk(s) && p <= |s.stack|
    ensures x in s.stack[..p] ==> x !in s.stack[p..]
    ensures x in s.stack <==> x in s.stack[..p] || x in s.stack[p..]
  {
    assert s.stack == s.stack[..p] + s.stack[p..];
    forall i, j | 0 <= i < p && 0 <= j < |s.stack| - p ensures s.stack[..p][i] != s.stack[p..][j] {
      SamePlace(s, i, p + j);
    }
  }

  /** Nothing on or above `p` has a successor on the stack below `p`. */
  ghost predicate Cut(g: Graph, s: Scan, p: nat) {
    forall i, j :: 0 <= j < p <= i < |s.stack| ==> !Edge(g, s.stack[i], s.stack[j])
  }

  lemma RootCuts(g: Graph, s: Scan, v: Xid, p: nat)
    requires StackOk(s) && p < |s.stack| && s.stack[p] == v && Bounds(g, s, p, s.waits[v].low, {})
    requires s.waits[v].low == s.waits[v].index
    ensures Cut(g, s, p)
  {
    forall i, j | 0 <= j < p <= i < |s.stack| ensures !Edge(g, s.stack[i], s.stack[j]) {
      assert s.waits[s.stack[j]].index < s.waits[s.stack[p]].index;
    }
  }

  ghost function Above(s: Scan, p: nat): set<Xid>
    requires p <= |s.stack|
  {
    set x | x in s.stack[p..]
  }

  lemma NotBelow(g: Graph, s: Scan, p: nat, x: Xid, y: Xid)
    requires p <= |s.stack| && Cut(g, s, p) && x in Above(s, p) && Edge(g, x, y)
    ensures y !in s.stack[..p]
  {
    var i :| 0 <= i < |s.stack[p..]| && s.stack[p..][i] == x;
    forall j | 0 <= j < p ensures s.stack[..p][j] != y { assert !Edge(g, s.stack[p + i], s.stack[j]); }
  }

  lemma CutIsClosed(g: Graph, s: Scan, p: nat)
    requires StackOk(s) && p <= |s.stack| && Cut(g, s, p) && Closed(g, DoneSet(s))
    requires forall x, y :: x in Above(s, p) && Edge(g, x, y) ==> Found(s, y)
    ensures Closed(g, DoneSet(s) + Above(s, p))
  {
    forall x, y | x in DoneSet(s) + Above(s, p) && Edge(g, x, y) ensures y in DoneSet(s) + Above(s, p) {
      if x in Above(s, p) {
        OnePlace(s, p, y);
        NotBelow(g, s, p, x, y);
      }
    }
  }

  /** What is above the root leads back to no node under way but the root. */
  lemma RootOnly(g: Graph, s: Scan, gray: set<Xid>, v: Xid, p: nat, x: Xid, i: nat)
    requires StackOk(s) && p < |s.stack| && s.stack[p] == v && i < |s.stack| && s.stack[i] in gray + {v}
    requires Closed(g, DoneSet(s) + Above(s, p)) && (forall z :: z in gray ==> z in s.stack[..p]) && x in Above(s, p)
    requires Reach(g, x, s.stack[i])
    ensures s.stack[i] == v
  {
    ClosedReach(g, DoneSet(s) + Above(s, p), x, s.stack[i]);
    OnePlace(s, p, s.stack[i]);
  }

  /** The root reaches everything above it, and everything above leads back to the root. */
  lemma RootMutual(g: Graph, s: Scan, gray: set<Xid>, v: Xid, p: nat, x: Xid)
    requires StackOk(s) && p < |s.stack| && s.stack[p] == v && StackReach(g, s) && BackToGray(g, s, gray + {v})
    requires Closed(g, DoneSet(s) + Above(s, p)) && (forall z :: z in gray ==> z in s.stack[..p]) && x in Above(s, p)
    ensures Mutual(g, v, x)
  {
    var j :| 0 <= j < |s.stack[p..]| && s.stack[p..][j] == x;
    assert s.stack[p + j] == x && BackTo(g, s, gray + {v}, p + j);
    var i :| 0 <= i <= p + j && s.stack[i] in gray + {v} && Reach(g, s.stack[p + j], s.stack[i]);
    RootOnly(g, s, gray, v, p, x, i);
  }

  /** Everything mutually reachable with the root is above it. */
  lemma MutualIsAbove(g: Graph, s: Scan, v: Xid, p: nat, y: Xid)
    requires StackOk(s) && p < |s.stack| && s.stack[p] == v && Closed(g, DoneSet(s))
    requires Closed(g, DoneSet(s) + Above(s, p))
    requires Mutual(g, v, y)
    ensures y in Above(s, p)
  {
    assert v in Above(s, p) by { assert s.stack[p..][0] == v; }
    ClosedReach(g, DoneSet(s) + Above(s, p), v, y);
    if y in DoneSet(s) {
      ClosedReach(g, DoneSet(s), y, v);
    }
  }

  /** The root and what is above it: closed with what is done, led back to the root, cut off from below. */
  ghost predicate Root(g: Graph, s: Scan, gray: set<Xid>, v: Xid, p: nat) {
    && StackOk(s) && p < |s.stack| && s.stack[p] == v && StackReach(g, s) && BackToGray(g, s, gray + {v})
    && Closed(g, DoneSet(s)) && Closed(g, DoneSet(s) + Above(s, p)) && forall z :: z in gray ==> z in s.stack[..p]
  }

  lemma AboveIsComponent(g: Graph, s: Scan, gray: set<Xid>, v: Xid, p: nat, x: Xid, y: Xid)
    requires Root(g, s, gray, v, p) && x in Above(s, p)
    ensures y in Above(s, p) <==> Mutual(g, x, y)
  {
    RootMutual(g, s, gray, v, p, x);
    if y in Above(s, p) {
      RootMutual(g, s, gray, v, p, y);
      ReachOn(g, x, v, y);
      ReachOn(g, y, v, x);
    } else if Mutual(g, x, y) {
      ReachOn(g, v, x, y);
      ReachOn(g, y, x, v);
      MutualIsAbove(g, s, v, p, y);
    }
  }

  lemma PoppedDone(s: Scan, t: Scan, p: nat, c: seq<Xid>, x: Xid)
    requires StackOk(s) && p <= |s.stack| && Popped(s, t, p, c)
    ensures Found(t, x) <==> Found(s, x)
    ensures Done(t, x) <==> Done(s, x) || x in Above(s, p)
  {
    OnePlace(s, p, x);
    if x in s.stack { var i := InStack(s, x); assert Found(s, s.stack[i]); }
  }

  lemma PoppedScc(g: Graph, s: Scan, t: Scan, gray: set<Xid>, v: Xid, p: nat, c: seq<Xid>)
    requires Root(g, s, gray, v, p) && SccOk(g, s) && Popped(s, t, p, c)
    ensures SccOk(g, t)
  {
    forall x ensures Done(t, x) <==> Done(s, x) || x in Above(s, p) { PoppedDone(s, t, p, c, x); }
    forall x, y | x in c ensures y in c <==> Mutual(g, x, y) { AboveIsComponent(g, s, gray, v, p, x, y); }
    forall k | 0 <= k < |t.scc| ensures IsComponent(g, t.scc[k]) {
      if k < |s.scc| { assert IsComponent(g, s.scc[k]); }
    }
    forall k, x | 0 <= k < |s.scc| && x in s.scc[k] ensures x !in c { assert Done(s, x); OnePlace(s, p, x); }
    forall x, y | Done(t, x) && x != y && Mutual(g, x, y) ensures Reported(t, x) {
      if Done(s, x) {
        assert Reported(s, x);
        var k :| 0 <= k < |s.scc| && x in s.scc[k];
        assert t.scc[k] == s.scc[k];
      } else {
        TwoInside(c, x, y);
        assert t.scc[|s.scc|] == c;
      }
    }
  }

  lemma TwoInside(c: seq<Xid>, x: Xid, y: Xid)
    requires x in c && y in c && x != y
    ensures |c| >= 2
  {}

  lemma PoppedStack(g: Graph, s: Scan, t: Scan, gray: set<Xid>, v: Xid, p: nat, c: seq<Xid>)
    requires Root(g, s, gray, v, p) && Popped(s, t, p, c)
    ensures StackOk(t) && StackReach(g, t) && BackToGray(g, t, gray)
  {
    forall x | x in t.waits ensures t.waits[x].index < t.next && (t.waits[x].onStack <==> x in t.stack) {
      OnePlace(s, p, x);
    }
    forall j | 0 <= j < |t.stack| ensures BackTo(g, t, gray, j) {
      assert BackTo(g, s, gray + {v}, j);
      var i :| 0 <= i <= j && s.stack[i] in gray + {v} && Reach(g, s.stack[j], s.stack[i]);
      assert s.waits[s.stack[i]].index < s.waits[s.stack[p]].index;
      assert t.stack[i] in gray;
    }
    forall i | 0 <= i < |t.stack| ensures Found(t, t.stack[i]) { PoppedDone(s, t, p, c, t.stack[i]); }
  }

  /** `v` is the first of its component, which is complete: it leaves the stack. */
  lemma LeavesStack(g: Graph, s: Scan, u: Scan, t: Scan, gray: set<Xid>, v: Xid, c: seq<Xid>)
    requires Exploring(g, u, gray, v, |s.stack|, {}) && Grown(s, u) && u.waits[v].low == u.waits[v].index
    requires s.next <= u.waits[v].index
    requires Popped(u, t, |s.stack|, c)
    ensures Explored(g, s, t, gray, v)
  {
    var p := |s.stack|;
    RootCuts(g, u, v, p);
    forall x, y | x in Above(u, p) && Edge(g, x, y) ensures Found(u, y) { AboveFound(g, u, gray, v, p, x, y); }
    CutIsClosed(g, u, p);
    PoppedStack(g, u, t, gray, v, p, c);
    PoppedScc(g, u, t, gray, v, p, c);
    forall x ensures Found(t, x) <==> Found(u, x) { PoppedDone(u, t, p, c, x); }
    forall x ensures Done(t, x) <==> Done(u, x) || x in Above(u, p) { PoppedDone(u, t, p, c, x); }
    assert DoneSet(t) == DoneSet(u) + Above(u, p);
    assert t.stack == s.stack;
  }

  lemma AboveFound(g: Graph, s: Scan, gray: set<Xid>, v: Xid, p: nat, x: Xid, y: Xid)
    requires Exploring(g, s, gray, v, p, {}) && x in Above(s, p) && Edge(g, x, y)
    ensures Found(s, y)
  {
    OnePlace(s, p, x);
    var i := InStack(s, x);
    assert Found(s, s.stack[i]);
  }
}
