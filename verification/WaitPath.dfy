/** The deadlock detector's wait-for graph, in place: Tarjan's algorithm by recursion
    over a map of transactions and an explicit stack, and the choice of victims. */
module WaitPaths {
  import opened WaitGraph

  /** The graph as it stands: transactions that are only waited for, wait for nobody. */
  ghost function FullGraph(waits: map<Xid, TxWait>): Graph {
    map x | x in waits.Keys + WaitedFor(waits) :: if x in waits then waits[x].ins else {}
  }

  ghost function WaitedFor(waits: map<Xid, TxWait>): set<Xid> {
    set x, y | x in waits && y in waits[x].ins :: y
  }

  function NewWait(ins: set<Xid>): TxWait { TxWait(0, 0, false, ins) }

  function AddWait(waits: map<Xid, TxWait>, ins: set<Xid>, out: Xid): map<Xid, TxWait> {
    waits[out := if out in waits then waits[out].(ins := waits[out].ins + ins) else NewWait(ins)]
  }

  /** A reported wait adds exactly its own edges. */
  lemma AddWaitEdges(waits: map<Xid, TxWait>, ins: set<Xid>, out: Xid, x: Xid, y: Xid)
    ensures Edge(FullGraph(AddWait(waits, ins, out)), x, y) <==> Edge(FullGraph(waits), x, y) || (x == out && y in ins)
  {}

  ghost function Unfound(s: Scan): set<Xid> { set x | x in s.waits && !Found(s, x) }

  lemma UnfoundShrinks(s: Scan, t: Scan, v: Xid)
    requires Grown(s, t) && v in s.waits && !Found(s, v) && Found(t, v)
    ensures |Unfound(t)| < |Unfound(s)|
  {
    assert Unfound(t) <= Unfound(s) - {v};
    Fewer(Unfound(t), Unfound(s) - {v});
  }

  lemma Fewer(a: set<Xid>, b: set<Xid>)
    requires a <= b
    ensures |a| <= |b|
  {
    assert b == a + (b - a);
  }

  lemma GrownOn(s: Scan, t: Scan, u: Scan)
    requires Grown(s, t) && Grown(t, u)
    ensures Grown(s, u)
  {
    forall i | |s.stack| <= i < |u.stack| ensures !Found(s, u.stack[i]) {
      if i < |t.stack| { assert u.stack[i] == t.stack[i]; }
    }
  }

  lemma GrownLow(s: Scan, t: Scan, v: Xid, low: nat)
    requires Grown(s, t) && v in t.waits && !Found(s, v)
    ensures Grown(s, SetLow(t, v, low))
  {}

  /** Back from exploring the successor `w`. */
  lemma Returned(g: Graph, s: Scan, before: Scan, t: Scan, gray: set<Xid>, v: Xid, todo: set<Xid>, w: Xid)
    requires Visiting(g, s, before, gray, v, todo) && w in todo && !Found(before, w)
    requires Explored(g, before, t, gray + {v}, w)
    ensures v in t.waits && w in t.waits
    ensures Visiting(g, s, SetLow(t, v, Lower(t.waits[v].low, t.waits[w].low)), gray, v, todo - {w})
  {
    SawNew(g, before, t, gray, v, |s.stack|, todo, w);
    GrownOn(s, before, t);
    GrownLow(s, t, v, Lower(t.waits[v].low, t.waits[w].low));
  }

  lemma NextIsReached(g: Graph, s: Scan, gray: set<Xid>, v: Xid, p: nat, todo: set<Xid>, w: Xid)
    requires Exploring(g, s, gray, v, p, todo) && w in todo
    ensures w in g && w in s.waits && Found(s, v) && (w !in s.stack <==> !s.waits[w].onStack)
    ensures forall x :: x in gray + {v} ==> Reach(g, x, w)
  {
    assert Edge(g, v, w) && Found(s, s.stack[p]);
    ReachEdge(g, v, w);
    forall x | x in gray ensures Reach(g, x, w) { ReachOn(g, x, v, w); }
  }

  /** The stack from `k` up has been taken off into `c`. */
  ghost predicate PoppedTo(s: Scan, waits: map<Xid, TxWait>, stack: seq<Xid>, k: nat, c: seq<Xid>)
    requires k <= |s.stack|
  {
    && stack == s.stack[..k] && waits.Keys == s.waits.Keys
    && (forall x :: x in s.waits ==>
          waits[x] == if x in s.stack[k..] then s.waits[x].(onStack := false) else s.waits[x])
    && |c| == |s.stack| - k && Distinct(c) && forall x :: x in c <==> x in s.stack[k..]
  }

  lemma TopOff(stack: seq<Xid>, k: nat)
    requires 0 < k <= |stack|
    ensures stack[..k][..k - 1] == stack[..k - 1] && stack[k - 1..] == [stack[k - 1]] + stack[k..]
  {}

  lemma ListOne(above: seq<Xid>, more: seq<Xid>, top: Xid, c: seq<Xid>)
    requires more == [top] + above && Distinct(c) && top !in c && forall x :: x in c <==> x in above
    ensures Distinct(c + [top]) && forall x :: x in c + [top] <==> x in more
  {
    forall x ensures x in c + [top] <==> x in more {
      assert x in c + [top] <==> x in c || x == top;
      assert x in [top] + above <==> x == top || x in above;
    }
  }

  lemma PopOne(s: Scan, waits: map<Xid, TxWait>, stack: seq<Xid>, k: nat, c: seq<Xid>)
    requires StackOk(s) && 0 < k <= |s.stack| && PoppedTo(s, waits, stack, k, c)
    ensures var x := s.stack[k - 1];
      x in waits && PoppedTo(s, waits[x := waits[x].(onStack := false)], stack[..|stack| - 1], k - 1, c + [x])
  {
    var x := s.stack[k - 1];
    assert Found(s, x);
    assert s.stack[..k][k - 1] == x;
    OnePlace(s, k, x);
    TopOff(s.stack, k);
    ListOne(s.stack[k..], s.stack[k - 1..], x, c);
    var more := waits[x := waits[x].(onStack := false)];
    forall y | y in s.waits ensures more[y] ==
      if y in s.stack[k - 1..] then s.waits[y].(onStack := false) else s.waits[y] {
      assert y in s.stack[k - 1..] <==> y in c + [x];
      assert y in c + [x] <==> y in c || y == x;
    }
  }

  /** `v` is being explored since state `s`, with `todo` of its successors to go. */
  ghost predicate Visiting(g: Graph, s: Scan, t: Scan, gray: set<Xid>, v: Xid, todo: set<Xid>) {
    && Exploring(g, t, gray, v, |s.stack|, todo) && Grown(s, t) && v in s.waits && !Found(s, v)
    && s.next <= t.waits[v].index
  }

  ghost predicate Fresh(g: Graph, s: Scan) {
    && SameGraph(g, s) && (forall x :: x in s.waits ==> s.waits[x] == NewWait(g[x]))
    && s.stack == [] && s.next == 1 && s.scc == []
  }

  lemma FreshInv(g: Graph, s: Scan)
    requires Fresh(g, s)
    ensures ScanInv(g, s, {})
  {
    assert forall x :: !Found(s, x);
  }

  /** Pairwise disjoint groups, each all the transactions mutually reachable with any of
      its own, and every transaction in a cycle with another is in one. */
  ghost predicate Components(g: Graph, scc: seq<seq<Xid>>) {
    && (forall k :: 0 <= k < |scc| ==> IsComponent(g, scc[k]))
    && (forall k, l, x :: 0 <= k < l < |scc| && x in scc[k] ==> x !in scc[l])
    && (forall x, y :: x != y && Mutual(g, x, y) ==> exists k :: 0 <= k < |scc| && x in scc[k])
  }

  lemma OnCycleIsNode(g: Graph, x: Xid, y: Xid)
    requires x != y && Reach(g, x, y)
    ensures x in g
  {
    var p :| PathFrom(g, p, x, y);
    assert Edge(g, p[0], p[0 + 1]);
  }

  /** The search is over: nothing is left on the stack, and everything is reported. */
  lemma AllFound(g: Graph, s: Scan)
    requires ScanInv(g, s, {}) && forall x :: x in s.waits ==> Found(s, x)
    ensures Components(g, s.scc)
  {
    assert |s.stack| > 0 ==> BackTo(g, s, {}, 0);
    forall x, y | x != y && Mutual(g, x, y) ensures exists k :: 0 <= k < |s.scc| && x in s.scc[k] {
      OnCycleIsNode(g, x, y);
      assert Done(s, x);
      assert Reported(s, x);
    }
  }

  class WaitPath {
    var waits: map<Xid, TxWait>
    var victims: set<Xid>
    var stack: seq<Xid>
    var next: nat
    var scc: seq<seq<Xid>>

    ghost function State(): Scan
      reads this
    {
      Scan(waits, stack, next, scc)
    }

    constructor ()
      ensures waits == map[] && victims == {}
    {
      waits, victims, stack, next, scc := map[], {}, [], 1, [];
    }

    /** Transaction `out` waits for all of `ins` too. */
    method Add(ins: set<Xid>, out: Xid)
      modifies this`waits
      ensures waits == AddWait(old(waits), ins, out)
    {
      if out in waits {
        waits := waits[out := waits[out].(ins := waits[out].ins + ins)];
      } else {
        waits := waits[out := NewWait(ins)];
      }
    }

    method PopTop(ghost s: Scan, ghost k: nat, ghost c: seq<Xid>) returns (x: Xid)
      requires StackOk(s) && 0 < k <= |s.stack| && PoppedTo(s, waits, stack, k, c)
      modifies this`waits, this`stack
      ensures x == s.stack[k - 1] && PoppedTo(s, waits, stack, k - 1, c + [x])
    {
      PopOne(s, waits, stack, k, c);
      x := stack[|stack| - 1];
      waits := waits[x := waits[x].(onStack := false)];
      stack := stack[..|stack| - 1];
    }

    /** Take the component of `v` off the stack. */
    method PopComponent(v: Xid, ghost p: nat)
      requires StackOk(State()) && p < |stack| && stack[p] == v
      modifies this`waits, this`stack, this`scc
      ensures exists c :: Popped(old(State()), State(), p, c)
    {
      ghost var s := State();
      var c: seq<Xid> := [];
      ghost var k := |stack|;
      assert s.stack[..k] == s.stack;
      while stack != []
        invariant p < k <= |s.stack| && PoppedTo(s, waits, stack, k, c) && scc == s.scc && next == s.next
        decreases k
      {
        var x := PopTop(s, k, c);
        c := c + [x];
        k := k - 1;
        if x == v {
          SamePlace(s, p, k);
          break;
        }
      }
      if |c| > 1 { scc := scc + [c]; }
      assert Popped(s, State(), p, c);
    }

    method Enter(v: Xid)
      requires v in waits
      modifies this`waits, this`stack, this`next
      ensures State() == Discover(old(State()), v)
    {
      waits := waits[v := waits[v].(index := next, low := next)];
      next := next + 1;
      stack := stack + [v];
      waits := waits[v := waits[v].(onStack := true)];
    }

    /** Explore `v` and everything it reaches that was not found yet. */
    method StrongConnect(v: Xid, ghost g: Graph, ghost gray: set<Xid>)
      requires ScanInv(g, State(), gray) && v in g && !Found(State(), v) && forall x :: x in gray ==> Reach(g, x, v)
      modifies this`waits, this`stack, this`next, this`scc
      ensures Explored(g, old(State()), State(), gray, v)
      decreases |Unfound(State())|, 2
    {
      ghost var s := State();
      StartExploring(g, s, gray, v);
      Enter(v);
      var todo := waits[v].ins;
      while todo != {}
        invariant Visiting(g, s, State(), gray, v, todo)
        decreases todo
      {
        var w :| w in todo;
        LookAt(v, w, g, gray, s, todo);
        todo := todo - {w};
      }
      Leave(v, g, gray, s);
    }

    /** One successor `w` of `v`. */
    method LookAt(v: Xid, w: Xid, ghost g: Graph, ghost gray: set<Xid>, ghost s: Scan, ghost todo: set<Xid>)
      requires Visiting(g, s, State(), gray, v, todo) && w in todo
      modifies this`waits, this`stack, this`next, this`scc
      ensures Visiting(g, s, State(), gray, v, todo - {w})
      decreases |Unfound(s)|, 1
    {
      ghost var before := State();
      NextIsReached(g, before, gray, v, |s.stack|, todo, w);
      if waits[w].index == 0 {
        Descend(v, w, g, gray, s, todo);
      } else if waits[w].onStack {
        SawOnStack(g, before, gray, v, |s.stack|, todo, w);
        GrownLow(s, before, v, Lower(waits[v].low, waits[w].index));
        waits := waits[v := waits[v].(low := Lower(waits[v].low, waits[w].index))];
      } else {
        SawDone(g, before, gray, v, |s.stack|, todo, w);
      }
    }

    method Descend(v: Xid, w: Xid, ghost g: Graph, ghost gray: set<Xid>, ghost s: Scan, ghost todo: set<Xid>)
      requires Visiting(g, s, State(), gray, v, todo) && w in todo && !Found(State(), w)
      modifies this`waits, this`stack, this`next, this`scc
      ensures Visiting(g, s, State(), gray, v, todo - {w})
      decreases |Unfound(s)|, 0
    {
      ghost var before := State();
      NextIsReached(g, before, gray, v, |s.stack|, todo, w);
      UnfoundShrinks(s, before, v);
      StrongConnect(w, g, gray + {v});
      Returned(g, s, before, State(), gray, v, todo, w);
      waits := waits[v := waits[v].(low := Lower(waits[v].low, waits[w].low))];
    }

    /** All successors have been looked at: `v` ends a component or stays on the stack. */
    method Leave(v: Xid, ghost g: Graph, ghost gray: set<Xid>, ghost s: Scan)
      requires Visiting(g, s, State(), gray, v, {})
      modifies this`waits, this`stack, this`scc
      ensures Explored(g, s, State(), gray, v)
    {
      if waits[v].low == waits[v].index {
        ghost var u := State();
        PopComponent(v, |s.stack|);
        ghost var c :| Popped(u, State(), |s.stack|, c);
        LeavesStack(g, s, u, State(), gray, v, c);
      } else {
        LowIsLow(g, State(), |s.stack|);
        StaysOnStack(g, s, State(), gray, v);
      }
    }

    /** Forget earlier searches. */
    method Reset()
      modifies this`waits
      ensures waits.Keys == old(waits).Keys && forall x :: x in waits ==> waits[x] == NewWait(old(waits)[x].ins)
    {
      var todo := waits.Keys;
      while todo != {}
        invariant waits.Keys == old(waits).Keys && todo <= waits.Keys
        invariant forall x :: x in waits ==> waits[x] == if x in todo then old(waits)[x] else NewWait(old(waits)[x].ins)
      {
        var x :| x in todo;
        waits := waits[x := waits[x].(index := 0, low := 0, onStack := false)];
        todo := todo - {x};
      }
    }

    /** Forget earlier searches, and make every transaction waited for a node of the graph. */
    method Prepare()
      modifies this
      ensures Fresh(FullGraph(old(waits)), State()) && victims == old(victims)
    {
      ghost var g := FullGraph(waits);
      Reset();
      var keys := waits.Keys;
      var todo := keys;
      while todo != {}
        invariant todo <= keys <= waits.Keys <= g.Keys && victims == old(victims)
        invariant forall x :: x in waits ==> waits[x] == NewWait(g[x])
        invariant forall x, y :: x in keys && x !in todo && y in g[x] ==> y in waits
      {
        var x :| x in todo;
        AddLeaves(waits[x].ins, g);
        todo := todo - {x};
      }
      stack, next, scc := [], 1, [];
      assert waits.Keys == g.Keys;
    }

    method AddLeaves(ins: set<Xid>, ghost g: Graph)
      requires (forall x :: x in waits ==> x in g && waits[x] == NewWait(g[x])) && ins <= g.Keys
      requires forall x :: x in ins && x !in waits ==> g[x] == {}
      modifies this`waits
      ensures waits.Keys == old(waits).Keys + ins && forall x :: x in waits ==> x in g && waits[x] == NewWait(g[x])
    {
      var todo := ins;
      while todo != {}
        invariant todo <= ins && waits.Keys == old(waits).Keys + (ins - todo)
        invariant forall x :: x in waits ==> x in g && waits[x] == NewWait(g[x])
      {
        var y :| y in todo;
        if y !in waits { waits := waits[y := NewWait({})]; }
        todo := todo - {y};
      }
    }

    /** Explore `v` unless it was found already. */
    method Visit(v: Xid, ghost g: Graph)
      requires ScanInv(g, State(), {}) && v in g
      modifies this`waits, this`stack, this`next, this`scc
      ensures ScanInv(g, State(), {}) && Found(State(), v) && waits.Keys == old(waits.Keys)
      ensures forall x :: Found(old(State()), x) ==> Found(State(), x)
    {
      if waits[v].index == 0 { StrongConnect(v, g, {}); }
    }

    /** All groups of two or more mutually waiting transactions, each once. */
    method FindScc()
      modifies this
      ensures Components(FullGraph(old(waits)), scc) && victims == old(victims)
      ensures SameGraph(FullGraph(old(waits)), State())
    {
      ghost var g := FullGraph(waits);
      Prepare();
      FreshInv(g, State());
      var todo := waits.Keys;
      while todo != {}
        invariant ScanInv(g, State(), {}) && todo <= waits.Keys && victims == old(victims)
        invariant forall x :: x in waits && x !in todo ==> Found(State(), x)
      {
        var v :| v in todo;
        Visit(v, g);
        todo := todo - {v};
      }
      AllFound(g, State());
    }

    /** Is there a deadlock? */
    method DetectCircle() returns (found: bool)
      modifies this
      ensures Components(FullGraph(old(waits)), scc) && victims == old(victims)
      ensures found <==> exists x, y :: x != y && Mutual(FullGraph(old(waits)), x, y)
    {
      ghost var g := FullGraph(waits);
      FindScc();
      found := scc != [];
      if found {
        assert IsComponent(g, scc[0]);
        assert scc[0][0] != scc[0][1] && Mutual(g, scc[0][0], scc[0][1]);
      }
    }
  }

  /** Which member of a component of `size` is chosen, from a number drawn between 0 and 99. */
  function VictimIndex(size: nat, drawn: nat): (i: nat)
    requires size > 0
    ensures i < size
  {
    var i := size * drawn / 100;
    if i >= size then size - 1 else i
  }

  /** Exactly one member of each of the first `n` components was chosen, and nobody else. */
  ghost predicate OnePerComponent(scc: seq<seq<Xid>>, n: nat, chosen: set<Xid>)
    requires n <= |scc|
  {
    && (forall k :: 0 <= k < n ==> exists x :: x in scc[k] && x in chosen)
    && (forall k, x, y :: 0 <= k < n && x in scc[k] && y in scc[k] && x in chosen && y in chosen ==> x == y)
    && (forall x :: x in chosen ==> exists k :: 0 <= k < n && x in scc[k])
  }

  lemma ChosenMore(g: Graph, scc: seq<seq<Xid>>, n: nat, chosen: set<Xid>, x: Xid)
    requires Components(g, scc) && n < |scc| && x in scc[n] && OnePerComponent(scc, n, chosen)
    ensures OnePerComponent(scc, n + 1, chosen + {x})
  {
    forall y | y in chosen ensures y !in scc[n] { var l :| 0 <= l < n && y in scc[l]; }
    forall k | 0 <= k < n + 1 ensures exists y :: y in scc[k] && y in chosen + {x} {
      if k < n { var y :| y in scc[k] && y in chosen; assert y in chosen + {x}; } else { assert x in chosen + {x}; }
    }
  }

  /** The waits kept while a search was running, taken in one after the other. */
  function Merged(waits: map<Xid, TxWait>, pending: seq<(set<Xid>, Xid)>): map<Xid, TxWait>
    decreases |pending|
  {
    if pending == [] then waits else Merged(AddWait(waits, pending[0].0, pending[0].1), pending[1..])
  }

  class Deadlock {
    const path: WaitPath
    var pending: seq<(set<Xid>, Xid)>
    var detecting: bool

    constructor ()
      ensures fresh(path) && path.waits == map[] && path.victims == {} && pending == [] && !detecting
    {
      path := new WaitPath();
      pending, detecting := [], false;
    }

    /** A wait reported while a search is running is kept for the next one. */
    method AddWaitSet(ins: set<Xid>, xid: Xid)
      modifies this`pending, path`waits
      ensures old(detecting) ==> pending == old(pending) + [(ins, xid)] && path.waits == old(path.waits)
      ensures !old(detecting) ==> pending == old(pending) && path.waits == AddWait(old(path.waits), ins, xid)
    {
      if detecting { pending := pending + [(ins, xid)]; } else { path.Add(ins, xid); }
    }

    /** Choose one transaction of every component, by a number drawn for each. */
    method ChooseVictims(draw: nat -> nat, ghost g: Graph) returns (chosen: set<Xid>)
      requires Components(g, path.scc)
      ensures OnePerComponent(path.scc, |path.scc|, chosen)
    {
      chosen := {};
      for k := 0 to |path.scc|
        invariant OnePerComponent(path.scc, k, chosen)
      {
        var c := path.scc[k];
        assert IsComponent(g, c);
        var x := c[VictimIndex(|c|, draw(k))];
        ChosenMore(g, path.scc, k, chosen, x);
        chosen := chosen + {x};
      }
    }

    /** One round: take in what was kept, search, and add one victim for every group of
        mutually waiting transactions.  All victims so far are returned. */
    method Detect(draw: nat -> nat) returns (victims: set<Xid>, ghost chosen: set<Xid>)
      requires !detecting
      modifies this, path
      ensures !detecting && pending == [] && victims == path.victims == old(path.victims) + chosen
      ensures Components(FullGraph(Merged(old(path.waits), old(pending))), path.scc)
      ensures OnePerComponent(path.scc, |path.scc|, chosen)
    {
      while pending != []
        invariant path.victims == old(path.victims) && Merged(path.waits, pending) == old(Merged(path.waits, pending))
        decreases |pending|
      {
        path.Add(pending[0].0, pending[0].1);
        pending := pending[1..];
      }
      detecting := true;
      ghost var g := FullGraph(path.waits);
      var found := path.DetectCircle();
      var xids := ChooseVictims(draw, g);
      chosen := xids;
      detecting := false;
      path.victims := path.victims + xids;
      victims := path.victims;
    }
  }
}
