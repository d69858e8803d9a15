/** Deadlocks over many rows, and which of them the reported dependencies show.  A waiter is
    reported to wait for the holders it conflicts with, and not for the waiters ahead of it. */
module Deadlocks {
  import opened LockSlots
  import WaitGraph

  type RowId = nat

  ghost predicate RowsOk(rows: map<RowId, Slot>) {
    forall r :: r in rows ==> Inv(rows[r])
  }

  // ---------------------------------------------------------------- deadlocks

  /** The request of `w` is that of `x` or ahead of it. */
  ghost predicate AtOrAhead(q: seq<Request>, w: Xid, x: Xid) {
    exists i, j :: 0 <= i <= j < |q| && q[i].xid == w && q[j].xid == x
  }

  /** As long as `z` holds the row and `w` waits for it, `x` waits too. */
  ghost predicate Blocked(s: Slot, x: Xid, w: Xid, z: Xid) {
    && Pending(s, x) && Pending(s, w) && AtOrAhead(s.queue, w, x)
    && Holds(s, z) && Conflict(s.info[w].mode, s.info[z].mode)
  }

  ghost predicate BlockedIn(rows: map<RowId, Slot>, d: set<Xid>, x: Xid, r: RowId, w: Xid, z: Xid) {
    r in rows && w in d && z in d && Blocked(rows[r], x, w, z)
  }

  ghost predicate Stuck(rows: map<RowId, Slot>, d: set<Xid>, x: Xid) {
    exists r, w, z :: BlockedIn(rows, d, x, r, w, z)
  }

  /** Each transaction of `d` waits for a row that only other transactions of `d` can free. */
  ghost predicate Deadlocked(rows: map<RowId, Slot>, d: set<Xid>) {
    d != {} && forall x {:trigger Stuck(rows, d, x)} :: x in d ==> Stuck(rows, d, x)
  }

  // ---------------------------------------------------------------- deadlocks stay

  lemma WithoutOther(q: seq<Request>, y: Xid, w: Xid, x: Xid)
    requires AtOrAhead(q, w, x) && w != y && x != y
    ensures AtOrAhead(Without(q, y), w, x)
  {
    if q[0].xid == y {
      var i, j :| 0 <= i <= j < |q| && q[i].xid == w && q[j].xid == x;
      assert q[1..][i - 1].xid == w && q[1..][j - 1].xid == x;
      WithoutOther(q[1..], y, w, x);
      assert Without(q, y) == Without(q[1..], y);
    } else {
      var i, j :| 0 <= i <= j < |q| && q[i].xid == w && q[j].xid == x;
      var rest := Without(q[1..], y);
      assert Without(q, y) == [q[0]] + rest;
      if i > 0 {
        assert q[1..][i - 1].xid == w && q[1..][j - 1].xid == x;
        WithoutOther(q[1..], y, w, x);
        var k, l :| 0 <= k <= l < |rest| && rest[k].xid == w && rest[l].xid == x;
        assert Without(q, y)[k + 1].xid == w && Without(q, y)[l + 1].xid == x;
      } else if j > 0 {
        assert q[1..][j - 1].xid == x;
        WithoutOther(q[1..], y, x, x);
        var k, l :| 0 <= k <= l < |rest| && rest[k].xid == x && rest[l].xid == x;
        assert Without(q, y)[0].xid == w && Without(q, y)[k + 1].xid == x;
      } else {
        assert Without(q, y)[0].xid == w;
      }
    }
  }

  /** Someone else's unlock leaves a blocked request blocked. */
  lemma UnlockKeepsBlocked(s: Slot, y: Xid, x: Xid, w: Xid, z: Xid)
    requires Inv(s) && Blocked(s, x, w, z) && y != x && y != w && y != z
    ensures Blocked(UnlockStep(s, y).0, x, w, z)
  {
    var u, told := UnlockStep(s, y).0, UnlockStep(s, y).1;
    UnlockKeepsInv(s, y);
    UnlockTakesPrefix(s, y);
    UnlockOther(s, y, x);
    UnlockOther(s, y, w);
    UnlockOther(s, y, z);
    StillPending(u, w, z);
    RemovedKeeps(s, y, w, x);
    RemoveKeepsPartition(s, y);
    BehindToo(told, u.queue, u, w, x);
  }

  lemma RemovedKeeps(s: Slot, y: Xid, w: Xid, x: Xid)
    requires AtOrAhead(s.queue, w, x) && w != y && x != y
    ensures AtOrAhead(Remove(s, y).queue, w, x)
  {
    WithoutOther(s.queue, y, w, x);
  }

  /** Nobody holds a row beside a holder it conflicts with. */
  lemma StillPending(u: Slot, w: Xid, z: Xid)
    requires Inv(u) && w in u.info && Holds(u, z) && Conflict(u.info[w].mode, u.info[z].mode) && w != z
    ensures Pending(u, w)
  {
    assert Holds(u, w) ==> w in u.readers || w in u.writers;
    assert z in u.readers || z in u.writers;
  }

  /** Whoever is not ahead of a waiter that is still queued is still queued. */
  lemma BehindToo(told: seq<Request>, left: seq<Request>, u: Slot, w: Xid, x: Xid)
    requires AtOrAhead(told + left, w, x) && Inv(u) && u.queue == left && Pending(u, w) && x in u.info
    requires forall i, j :: 0 <= i < j < |told + left| ==> (told + left)[i].xid != (told + left)[j].xid
    ensures AtOrAhead(left, w, x) && Pending(u, x)
  {
    var q := told + left;
    var i, j :| 0 <= i <= j < |q| && q[i].xid == w && q[j].xid == x;
    assert Request(w, u.info[w].oids[0]) in left;
    var k :| 0 <= k < |left| && left[k].xid == w;
    assert q[|told| + k].xid == w;
    assert i == |told| + k;
    assert left[j - |told|].xid == x && left[j - |told|] in left;
  }

  lemma LockKeepsBlocked(s: Slot, m: Mode, y: Xid, o: Oid, x: Xid, w: Xid, z: Xid)
    requires Blocked(s, x, w, z) && !Pending(s, y)
    ensures Blocked(LockStep(s, m, y, o).0, x, w, z)
  {
    var i, j :| 0 <= i <= j < |s.queue| && s.queue[i].xid == w && s.queue[j].xid == x;
    var q := LockStep(s, m, y, o).0.queue;
    assert q[i].xid == w && q[j].xid == x;
  }

  /** A call on one row by somebody who can make it: whoever waits for the row asks for nothing
      there, and nobody in `d` unlocks. */
  predicate Allowed(s: Slot, d: set<Xid>, c: Call) {
    match c
    case LockCall(_, x, _) => !Pending(s, x)
    case UnlockCall(x) => x !in d
  }

  lemma CallKeepsBlocked(s: Slot, d: set<Xid>, c: Call, x: Xid, w: Xid, z: Xid)
    requires Inv(s) && Allowed(s, d, c) && Blocked(s, x, w, z) && x in d && w in d && z in d
    ensures Blocked(Apply(s, c).0, x, w, z)
  {
    match c
    case LockCall(m, y, o) => LockKeepsBlocked(s, m, y, o, x, w, z);
    case UnlockCall(y) => UnlockKeepsBlocked(s, y, x, w, z);
  }

  lemma DeadlockStays(rows: map<RowId, Slot>, d: set<Xid>, at: RowId, c: Call)
    requires RowsOk(rows) && Deadlocked(rows, d) && at in rows && Allowed(rows[at], d, c)
    ensures Deadlocked(rows[at := Apply(rows[at], c).0], d)
  {
    var more := rows[at := Apply(rows[at], c).0];
    forall x | x in d ensures Stuck(more, d, x) {
      assert Stuck(rows, d, x);
      var r, w, z :| BlockedIn(rows, d, x, r, w, z);
      if r == at { CallKeepsBlocked(rows[at], d, c, x, w, z); }
      assert BlockedIn(more, d, x, r, w, z);
    }
  }

  lemma CallKeepsRows(rows: map<RowId, Slot>, d: set<Xid>, at: RowId, c: Call)
    requires RowsOk(rows) && at in rows && Allowed(rows[at], d, c)
    ensures RowsOk(rows[at := Apply(rows[at], c).0])
  {
    match c
    case LockCall(m, x, o) => LockKeepsInv(rows[at], m, x, o);
    case UnlockCall(x) => UnlockKeepsInv(rows[at], x);
  }

  datatype RowCall = RowCall(at: RowId, call: Call)

  /** The calls `cs`, first to last, can all be made while nobody in `d` unlocks. */
  ghost predicate AllAllowed(rows: map<RowId, Slot>, d: set<Xid>, cs: seq<RowCall>)
    decreases |cs|
  {
    cs != [] ==>
      && cs[0].at in rows && Allowed(rows[cs[0].at], d, cs[0].call)
      && AllAllowed(rows[cs[0].at := Apply(rows[cs[0].at], cs[0].call).0], d, cs[1..])
  }

  ghost function AfterCalls(rows: map<RowId, Slot>, d: set<Xid>, cs: seq<RowCall>): map<RowId, Slot>
    requires AllAllowed(rows, d, cs)
    decreases |cs|
  {
    if cs == [] then rows else AfterCalls(rows[cs[0].at := Apply(rows[cs[0].at], cs[0].call).0], d, cs[1..])
  }

  /** Whatever the others do, a deadlock stays until one of its transactions unlocks. */
  lemma {:induction false} DeadlockIsForGood(rows: map<RowId, Slot>, d: set<Xid>, cs: seq<RowCall>)
    requires RowsOk(rows) && Deadlocked(rows, d) && AllAllowed(rows, d, cs)
    ensures RowsOk(AfterCalls(rows, d, cs)) && Deadlocked(AfterCalls(rows, d, cs), d)
    decreases |cs|
  {
    if cs != [] {
      CallKeepsRows(rows, d, cs[0].at, cs[0].call);
      DeadlockStays(rows, d, cs[0].at, cs[0].call);
      DeadlockIsForGood(rows[cs[0].at := Apply(rows[cs[0].at], cs[0].call).0], d, cs[1..]);
    }
  }

  // ---------------------------------------------------------------- what is reported

  ghost predicate Reported(rows: map<RowId, Slot>, x: Xid, y: Xid, r: RowId) {
    r in rows && Pending(rows[r], x) && y in Dependency(rows[r], x)
  }

  /** The wait-for graph has exactly the dependencies of the rows. */
  ghost predicate Shows(g: WaitGraph.Graph, rows: map<RowId, Slot>) {
    forall x, y :: WaitGraph.Edge(g, x, y) <==> exists r :: Reported(rows, x, y, r)
  }

  /** A reader waits behind a waiting writer on a row that no writer holds. */
  ghost predicate Overtaken(s: Slot, x: Xid) {
    Pending(s, x) && s.info[x].mode == Read && s.writers == {} && WriteAhead(s, x)
  }

  ghost predicate NoneOvertaken(rows: map<RowId, Slot>, d: set<Xid>) {
    forall r, x :: r in rows && x in d ==> !Overtaken(rows[r], x)
  }

  /** Unless it is overtaken, a blocked transaction is reported to wait for the holder. */
  lemma BlockedIsReported(s: Slot, x: Xid, w: Xid, z: Xid)
    requires Inv(s) && Blocked(s, x, w, z) && !Overtaken(s, x)
    ensures z in Dependency(s, x) && z != x
  {
    WaiterHasDependency(s, x);
    assert z in s.readers || z in s.writers;
  }

  // ---------------------------------------------------------------- cycles

  ghost function ReachIn(g: WaitGraph.Graph, d: set<Xid>, x: Xid): set<Xid> {
    set y | y in d && WaitGraph.Reach(g, x, y)
  }

  lemma Smaller(a: set<Xid>, b: set<Xid>)
    requires a < b
    ensures |a| < |b|
  {
    var x :| x in b && x !in a;
    assert a <= b - {x};
    Within(a, b - {x});
  }

  lemma Within(a: set<Xid>, b: set<Xid>)
    requires a <= b
    ensures |a| <= |b|
  {
    assert b == a + (b - a);
  }

  ghost predicate Goes(g: WaitGraph.Graph, d: set<Xid>, u: Xid) {
    exists v :: v in d && v != u && WaitGraph.Edge(g, u, v)
  }

  /** Whoever can always go on to another member of a finite set comes back. */
  lemma {:induction false} ComesBack(g: WaitGraph.Graph, d: set<Xid>, x: Xid) returns (a: Xid, b: Xid)
    requires x in d && forall u {:trigger Goes(g, d, u)} :: u in d ==> Goes(g, d, u)
    ensures a in d && b in d && a != b && WaitGraph.Mutual(g, a, b)
    decreases |ReachIn(g, d, x)|
  {
    assert Goes(g, d, x);
    var y :| y in d && y != x && WaitGraph.Edge(g, x, y);
    WaitGraph.ReachEdge(g, x, y);
    if WaitGraph.Reach(g, y, x) {
      a, b := x, y;
    } else {
      forall z | z in ReachIn(g, d, y) ensures z in ReachIn(g, d, x) { WaitGraph.ReachOn(g, x, y, z); }
      WaitGraph.ReachSelf(g, x);
      assert x in ReachIn(g, d, x) && x !in ReachIn(g, d, y);
      Smaller(ReachIn(g, d, y), ReachIn(g, d, x));
      a, b := ComesBack(g, d, y);
    }
  }

  lemma StuckGoes(rows: map<RowId, Slot>, g: WaitGraph.Graph, d: set<Xid>, u: Xid)
    requires RowsOk(rows) && Shows(g, rows) && Stuck(rows, d, u) && forall r :: r in rows ==> !Overtaken(rows[r], u)
    ensures Goes(g, d, u)
  {
    var r, w, z :| BlockedIn(rows, d, u, r, w, z);
    BlockedIsReported(rows[r], u, w, z);
    assert Reported(rows, u, z, r);
    assert WaitGraph.Edge(g, u, z);
  }

  /** A deadlock none of whose transactions is overtaken shows as a cycle within it. */
  lemma DeadlockIsFound(rows: map<RowId, Slot>, g: WaitGraph.Graph, d: set<Xid>) returns (a: Xid, b: Xid)
    requires RowsOk(rows) && Shows(g, rows) && Deadlocked(rows, d) && NoneOvertaken(rows, d)
    ensures a in d && b in d && a != b && WaitGraph.Mutual(g, a, b)
  {
    var x :| x in d;
    AllGo(rows, g, d);
    a, b := ComesBack(g, d, x);
  }

  lemma AllGo(rows: map<RowId, Slot>, g: WaitGraph.Graph, d: set<Xid>)
    requires RowsOk(rows) && Shows(g, rows) && Deadlocked(rows, d) && NoneOvertaken(rows, d)
    ensures forall u {:trigger Goes(g, d, u)} :: u in d ==> Goes(g, d, u)
  {
    forall u | u in d ensures Goes(g, d, u) {
      assert Stuck(rows, d, u);
      StuckGoes(rows, g, d, u);
    }
  }

  lemma ComponentStuck(rows: map<RowId, Slot>, g: WaitGraph.Graph, a: Xid, b: Xid, x: Xid)
    requires RowsOk(rows) && Shows(g, rows) && a != b && WaitGraph.Mutual(g, a, b) && x in Component(g, a)
    ensures Stuck(rows, Component(g, a), x)
  {
    var z := StepWithin(g, a, b, x);
    assert WaitGraph.Edge(g, x, z);
    var r :| Reported(rows, x, z, r);
    ReportedIsBlocked(rows[r], x, z);
    assert BlockedIn(rows, Component(g, a), x, r, x, z);
  }

  /** Whatever shows as a cycle is a deadlock. */
  lemma FoundIsDeadlock(rows: map<RowId, Slot>, g: WaitGraph.Graph, a: Xid, b: Xid) returns (d: set<Xid>)
    requires RowsOk(rows) && Shows(g, rows) && a != b && WaitGraph.Mutual(g, a, b)
    ensures Deadlocked(rows, d) && a in d && b in d
  {
    d := Component(g, a);
    BothIn(g, a, b);
    AllStuck(rows, g, a, b);
  }

  lemma BothIn(g: WaitGraph.Graph, a: Xid, b: Xid)
    requires a != b && WaitGraph.Mutual(g, a, b)
    ensures a in Component(g, a) && b in Component(g, a)
  {
    OnWay(g, a, b);
    OnWay(g, b, a);
    WaitGraph.ReachSelf(g, a);
  }

  lemma AllStuck(rows: map<RowId, Slot>, g: WaitGraph.Graph, a: Xid, b: Xid)
    requires RowsOk(rows) && Shows(g, rows) && a != b && WaitGraph.Mutual(g, a, b)
    ensures forall x {:trigger Stuck(rows, Component(g, a), x)} :: x in Component(g, a) ==>
      Stuck(rows, Component(g, a), x)
  {
    forall x | x in Component(g, a) ensures Stuck(rows, Component(g, a), x) { ComponentStuck(rows, g, a, b, x); }
  }

  ghost function Component(g: WaitGraph.Graph, a: Xid): set<Xid> {
    set x | x in g.Keys && WaitGraph.Mutual(g, a, x)
  }

  /** Whoever reaches another has an edge. */
  lemma OnWay(g: WaitGraph.Graph, x: Xid, y: Xid)
    requires WaitGraph.Reach(g, x, y) && x != y
    ensures x in g
  {
    var p :| WaitGraph.PathFrom(g, p, x, y);
    assert WaitGraph.Edge(g, p[0], p[1]);
  }

  lemma StepWithin(g: WaitGraph.Graph, a: Xid, b: Xid, x: Xid) returns (z: Xid)
    requires a != b && WaitGraph.Mutual(g, a, b) && x in Component(g, a)
    ensures z in Component(g, a) && WaitGraph.Edge(g, x, z)
  {
    var to := if x == a then b else a;
    var p :| WaitGraph.PathFrom(g, p, x, to);
    z := p[1];
    assert WaitGraph.Edge(g, p[0], p[1]);
    WaitGraph.ReachEdge(g, x, z);
    assert WaitGraph.Reach(g, z, to) by { assert WaitGraph.PathFrom(g, p[1..], z, to) by { TailIsPath(g, p); } }
    WaitGraph.ReachOn(g, a, x, z);
    if to == b { WaitGraph.ReachOn(g, z, b, a); }
    if z != a { OnWay(g, z, a); } else { OnWay(g, a, b); }
  }

  lemma TailIsPath(g: WaitGraph.Graph, p: seq<Xid>)
    requires WaitGraph.IsPath(g, p) && |p| >= 2
    ensures WaitGraph.IsPath(g, p[1..])
  {
    forall i | 0 <= i < |p[1..]| - 1 ensures WaitGraph.Edge(g, p[1..][i], p[1..][i + 1]) {
      assert WaitGraph.Edge(g, p[i + 1], p[i + 1 + 1]);
    }
  }

  lemma ReportedIsBlocked(s: Slot, x: Xid, z: Xid)
    requires Inv(s) && Pending(s, x) && z in Dependency(s, x)
    ensures Blocked(s, x, x, z)
  {
    DependencyIsConflict(s, x, z);
    assert Request(x, s.info[x].oids[0]) in s.queue;
  }

  /** On rows where no reader is overtaken there is a deadlock if and only if the reported
      dependencies have a cycle through two transactions. */
  lemma DetectionIsExact(rows: map<RowId, Slot>, g: WaitGraph.Graph)
    requires RowsOk(rows) && Shows(g, rows) && forall d :: NoneOvertaken(rows, d)
    ensures (exists d :: Deadlocked(rows, d)) <==> exists a, b :: a != b && WaitGraph.Mutual(g, a, b)
  {
    if d :| Deadlocked(rows, d) {
      var a, b := DeadlockIsFound(rows, g, d);
    }
    if a, b :| a != b && WaitGraph.Mutual(g, a, b) {
      var d := FoundIsDeadlock(rows, g, a, b);
    }
  }

  // ---------------------------------------------------------------- a deadlock that is missed

  /** Transaction 2 reads the row, 3 waits to write it and 4 waits behind 3 to read it. */
  predicate Crowded(s: Slot) {
    && s.readers == {2} && s.writers == {} && s.queue == [Request(3, 1), Request(4, 1)]
    && s.info == map[2 := Info(Read, [1], true), 3 := Info(Write, [1], false), 4 := Info(Read, [1], false)]
  }

  /** It comes to that when a writer, transaction 1, gives the row up to three waiters. */
  lemma BecomesCrowded()
    ensures var a := LockStep(LockStep(EmptySlot, Write, 1, 1).0, Read, 2, 1).0;
      var b := LockStep(LockStep(a, Write, 3, 1).0, Read, 4, 1).0;
      Crowded(UnlockStep(b, 1).0)
  {
    var a := LockStep(LockStep(EmptySlot, Write, 1, 1).0, Read, 2, 1).0;
    var b := LockStep(LockStep(a, Write, 3, 1).0, Read, 4, 1).0;
    var c := Remove(b, 1);
    assert b.queue == [Request(2, 1), Request(3, 1), Request(4, 1)];
    assert c.queue == b.queue && c.readers == {} && c.writers == {};
    var d := PromoteFront(c);
    assert d.queue == [Request(3, 1), Request(4, 1)] && d.readers == {2} && d.writers == {};
    assert Promote(c) == Promote(d) == d;
    assert d.info == map[2 := Info(Read, [1], true), 3 := Info(Write, [1], false), 4 := Info(Read, [1], false)];
  }

  /** Transaction 4 writes the row and 2 waits to write it. */
  predicate Taken(s: Slot) {
    && s.readers == {} && s.writers == {4} && s.queue == [Request(2, 2)]
    && s.info == map[4 := Info(Write, [2], true), 2 := Info(Write, [2], false)]
  }

  lemma BecomesTaken()
    ensures Taken(LockStep(LockStep(EmptySlot, Write, 4, 2).0, Write, 2, 2).0)
  {
    assert {} + {4} == {4};
  }

  lemma CrowdedDependencies(s: Slot)
    requires Crowded(s)
    ensures Inv(s) && Blocked(s, 3, 3, 2) && Blocked(s, 4, 3, 2)
    ensures Dependency(s, 3) == {2} && Dependency(s, 4) == {}
    ensures forall x :: Pending(s, x) <==> x == 3 || x == 4
  {
    assert s.queue[0].xid == 3 && s.queue[1].xid == 4;
  }

  lemma TakenDependencies(s: Slot)
    requires Taken(s)
    ensures Inv(s) && Blocked(s, 2, 2, 4) && Dependency(s, 2) == {4}
    ensures forall x :: Pending(s, x) <==> x == 2
  {
    assert s.queue[0].xid == 2;
  }

  /** The transactions 2, 3 and 4 wait for each other for good, and the reported dependencies
      have no cycle. */
  lemma DeadlockIsMissed(s: Slot, u: Slot, g: WaitGraph.Graph)
    requires Crowded(s) && Taken(u) && Shows(g, map[0 := s, 1 := u])
    ensures Deadlocked(map[0 := s, 1 := u], {2, 3, 4})
    ensures !exists a, b :: a != b && WaitGraph.Mutual(g, a, b)
  {
    var rows := map[0 := s, 1 := u];
    CrowdedDependencies(s);
    TakenDependencies(u);
    var d := {2, 3, 4};
    assert BlockedIn(rows, d, 3, 0, 3, 2) && BlockedIn(rows, d, 4, 0, 3, 2) && BlockedIn(rows, d, 2, 1, 2, 4);
    assert Stuck(rows, d, 2) && Stuck(rows, d, 3) && Stuck(rows, d, 4);
    forall x, y ensures WaitGraph.Edge(g, x, y) <==> (x == 3 && y == 2) || (x == 2 && y == 4) {
      assert Reported(rows, 3, 2, 0) && Reported(rows, 2, 4, 1);
    }
    NoCycle(g);
  }

  lemma NoCycle(g: WaitGraph.Graph)
    requires forall x, y :: WaitGraph.Edge(g, x, y) <==> (x == 3 && y == 2) || (x == 2 && y == 4)
    ensures forall a, b :: a != b ==> !WaitGraph.Mutual(g, a, b)
  {
    forall a, b | WaitGraph.Mutual(g, a, b) ensures a == b {
      WaitGraph.ClosedReach(g, if a == 3 then {2, 3, 4} else if a == 2 then {2, 4} else {a}, a, b);
      WaitGraph.ClosedReach(g, if b == 3 then {2, 3, 4} else if b == 2 then {2, 4} else {b}, b, a);
    }
  }

  // ---------------------------------------------------------------- the exact condition

  /** On the rows `s` and `u` the transactions `d` are deadlocked, and the dependencies of the
      rows, which `g` shows, have no cycle. */
  ghost predicate Misses(s: Slot, u: Slot, d: set<Xid>, g: WaitGraph.Graph) {
    && Inv(u) && (forall y :: !Overtaken(u, y))
    && Shows(g, map[0 := s, 1 := u]) && Deadlocked(map[0 := s, 1 := u], d)
    && !exists a, b :: a != b && WaitGraph.Mutual(g, a, b)
  }

  /** The row that `x` writes and `z` waits to write. */
  function Held(x: Xid, z: Xid): Slot { LockStep(LockStep(EmptySlot, Write, x, 0).0, Write, z, 0).0 }

  lemma HeldRow(x: Xid, z: Xid)
    requires x != z
    ensures var u := Held(x, z);
      && Inv(u) && (forall y :: Pending(u, y) <==> y == z) && Dependency(u, z) == {x}
      && Blocked(u, z, z, x) && forall y :: !Overtaken(u, y)
  {
    var one, u := LockStep(EmptySlot, Write, x, 0).0, Held(x, z);
    LockKeepsInv(EmptySlot, Write, x, 0);
    LockKeepsInv(one, Write, z, 0);
    assert one.writers == {x} && one.readers == {};
    assert u.queue == [Request(z, 0)] && u.queue[0].xid == z;
  }

  /** The dependencies of a row, as a graph. */
  ghost function Edges(s: Slot, x: Xid): set<Xid> { if Pending(s, x) then Dependency(s, x) else {} }

  ghost function GraphOf(s: Slot, u: Slot): WaitGraph.Graph {
    map x | x in s.info.Keys + u.info.Keys :: Edges(s, x) + Edges(u, x)
  }

  lemma GraphShows(s: Slot, u: Slot)
    ensures Shows(GraphOf(s, u), map[0 := s, 1 := u])
  {
    var rows, g := map[0 := s, 1 := u], GraphOf(s, u);
    forall x, y ensures WaitGraph.Edge(g, x, y) <==> exists r :: Reported(rows, x, y, r) {
      assert y in Edges(s, x) <==> Reported(rows, x, y, 0);
      assert y in Edges(u, x) <==> Reported(rows, x, y, 1);
    }
  }

  /** The rows of a deadlock through the overtaken reader `x`, the writer `w` ahead of it and a reader `z`. */
  ghost predicate Caught(s: Slot, x: Xid, w: Xid, z: Xid) {
    Inv(s) && Overtaken(s, x) && Blocked(s, x, w, z) && Blocked(s, w, w, z) && x != w && x != z && w != z
  }

  lemma Catch(s: Slot, x: Xid) returns (w: Xid, z: Xid)
    requires Inv(s) && Overtaken(s, x)
    ensures Caught(s, x, w, z)
  {
    var i, j :| 0 <= i < j < |s.queue| && s.queue[j].xid == x && s.queue[i].xid in s.info
      && s.info[s.queue[i].xid].mode == Write;
    w := s.queue[i].xid;
    assert s.queue[i] in s.queue;
    if s.readers == {} {
      IdleHasNoWaiters(s);
      assert false;
    }
    z :| z in s.readers;
  }

  lemma CaughtIsDeadlock(s: Slot, x: Xid, w: Xid, z: Xid)
    requires Caught(s, x, w, z)
    ensures Deadlocked(map[0 := s, 1 := Held(x, z)], {x, w, z})
  {
    var rows, d := map[0 := s, 1 := Held(x, z)], {x, w, z};
    HeldRow(x, z);
    assert BlockedIn(rows, d, x, 0, w, z) && BlockedIn(rows, d, w, 0, w, z) && BlockedIn(rows, d, z, 1, z, x);
    assert Stuck(rows, d, x) && Stuck(rows, d, w) && Stuck(rows, d, z);
  }

  /** Every dependency leads to a reader of the row or to `x`, and only `z` of these has one. */
  lemma CaughtEdges(s: Slot, x: Xid, w: Xid, z: Xid, a: Xid, b: Xid)
    requires Caught(s, x, w, z) && WaitGraph.Edge(GraphOf(s, Held(x, z)), a, b)
    ensures (a == z && b == x) || (a !in s.readers && a != x && b in s.readers)
  {
    HeldRow(x, z);
    WaiterHasDependency(s, x);
    assert z in s.readers;
  }

  lemma CaughtHasNoCycle(s: Slot, x: Xid, w: Xid, z: Xid, a: Xid, b: Xid)
    requires Caught(s, x, w, z) && WaitGraph.Mutual(GraphOf(s, Held(x, z)), a, b)
    ensures a == b
  {
    var g := GraphOf(s, Held(x, z));
    forall c, d | WaitGraph.Edge(g, c, d) ensures (c == z && d == x) || (c !in s.readers && c != x && d in s.readers) {
      CaughtEdges(s, x, w, z, c, d);
    }
    OneWay(g, s.readers + {x}, x, z, a, b);
  }

  /** A graph whose edges lead into `to`, and within it only from `z` to `x`, has no cycle. */
  lemma OneWay(g: WaitGraph.Graph, to: set<Xid>, x: Xid, z: Xid, a: Xid, b: Xid)
    requires x in to && x != z && forall c, d :: WaitGraph.Edge(g, c, d) ==> d in to && (c in to ==> c == z && d == x)
    requires WaitGraph.Mutual(g, a, b)
    ensures a == b
  {
    WaitGraph.ClosedReach(g, if a in to then (if a == z then {z, x} else {a}) else to + {a}, a, b);
    WaitGraph.ClosedReach(g, if b in to then (if b == z then {z, x} else {b}) else to + {b}, b, a);
  }

  lemma OvertakenMisses(s: Slot, x: Xid) returns (u: Slot, d: set<Xid>, g: WaitGraph.Graph)
    requires Inv(s) && Overtaken(s, x)
    ensures Misses(s, u, d, g)
  {
    var w, z := Catch(s, x);
    u, d, g := Held(x, z), {x, w, z}, GraphOf(s, Held(x, z));
    HeldRow(x, z);
    GraphShows(s, u);
    CaughtIsDeadlock(s, x, w, z);
    forall a, b | WaitGraph.Mutual(g, a, b) ensures a == b { CaughtHasNoCycle(s, x, w, z, a, b); }
  }

  /** A row has an overtaken reader if and only if, with a second row that has none, it has a
      deadlock that the reported dependencies do not show. */
  lemma MissedIffOvertaken(s: Slot)
    requires Inv(s)
    ensures (exists x :: Overtaken(s, x)) <==> exists u, d, g :: Misses(s, u, d, g)
  {
    if x :| Overtaken(s, x) {
      var u, d, g := OvertakenMisses(s, x);
    } else if u, d, g :| Misses(s, u, d, g) {
      var a, b := DeadlockIsFound(map[0 := s, 1 := u], g, d);
      assert false;
    }
  }
}
