/** The lock queue of one row: who holds the row, who waits for it, and what an
    unlock hands on.  `Slot` is the value of a slot and `LockStep`/`UnlockStep` say what
    one call does to it; the class `LockSlot` below keeps counters, sets, a deque
    and a map in place and is proved to compute exactly these. */
module LockSlots {
  type Xid = nat
  type Oid = nat

  datatype Mode = Read | Write

  datatype Info = Info(mode: Mode, oids: seq<Oid>, acquired: bool)

  /** A lock request; also an entry of the wait queue and a notification. */
  datatype Request = Request(xid: Xid, oid: Oid)

  datatype Slot = Slot(readers: set<Xid>, writers: set<Xid>, queue: seq<Request>, info: map<Xid, Info>)

  const EmptySlot := Slot({}, {}, [], map[])

  predicate Holds(s: Slot, x: Xid) {
    x in s.info && s.info[x].acquired
  }

  predicate Pending(s: Slot, x: Xid) {
    x in s.info && !s.info[x].acquired
  }

  predicate Conflict(a: Mode, b: Mode) {
    a == Write || b == Write
  }

  /** No current holder conflicts with mode `m`. */
  predicate Free(s: Slot, m: Mode) {
    s.writers == {} && (m == Write ==> s.readers == {})
  }

  /** Record that `x` now holds the row in mode `m`. */
  function AddHolder(s: Slot, x: Xid, m: Mode): Slot
    requires x in s.info
  {
    var t := s.(info := s.info[x := s.info[x].(acquired := true)]);
    if m == Read then t.(readers := t.readers + {x}) else t.(writers := t.writers + {x})
  }

  function AddInfo(s: Slot, m: Mode, x: Xid, o: Oid): (t: Slot)
    ensures x in t.info
  {
    if x in s.info then s.(info := s.info[x := s.info[x].(oids := s.info[x].oids + [o])])
    else s.(info := s.info[x := Info(m, [o], false)])
  }

  /** One lock request.  A transaction that already holds the row is answered at
      once and keeps the mode it has. */
  function LockStep(s: Slot, m: Mode, x: Xid, o: Oid): (Slot, seq<Request>) {
    var t := AddInfo(s, m, x, o);
    if Holds(s, x) then (t, [Request(x, o)])
    else if Free(s, m) then (AddHolder(t, x, m), [Request(x, o)])
    else (t.(queue := t.queue + [Request(x, o)]), [])
  }

  function Without(q: seq<Request>, x: Xid): seq<Request> {
    if q == [] then []
    else (if q[0].xid == x then [] else [q[0]]) + Without(q[1..], x)
  }

  function Remove(s: Slot, x: Xid): Slot {
    if x !in s.info then s
    else
      var t := s.(info := s.info - {x});
      if !s.info[x].acquired then t.(queue := Without(s.queue, x))
      else if s.info[x].mode == Read then t.(readers := s.readers - {x})
      else t.(writers := s.writers - {x})
  }

  /** The slot after the front waiter has been given the row. */
  function PromoteFront(s: Slot): Slot
    requires s.queue != [] && s.queue[0].xid in s.info
  {
    AddHolder(s.(queue := s.queue[1..]), s.queue[0].xid, s.info[s.queue[0].xid].mode)
  }

  /** Hand the row to waiters from the front of the queue, one at a time, until
      the front conflicts with a holder. */
  function Promote(s: Slot): Slot
    decreases |s.queue|
  {
    if s.queue == [] then s
    else if s.queue[0].xid !in s.info then Promote(s.(queue := s.queue[1..]))
    else if Free(s, s.info[s.queue[0].xid].mode) then Promote(PromoteFront(s))
    else s
  }

  lemma PromoteShortens(s: Slot)
    ensures |Promote(s).queue| <= |s.queue|
    decreases |s.queue|
  {}

  /** An unlock: the new slot, and the waiters told, in order. */
  function UnlockStep(s: Slot, x: Xid): (Slot, seq<Request>) {
    var r := Remove(s, x);
    var t := Promote(r);
    PromoteShortens(r);
    (t, r.queue[..|r.queue| - |t.queue|])
  }

  // ---------------------------------------------------------------- invariant

  predicate Waits(s: Slot, r: Request) {
    Pending(s, r.xid) && s.info[r.xid].oids == [r.oid]
  }

  /** Readers, writers and waiters partition `info`; a waiter has one request. */
  ghost predicate Partition(s: Slot) {
    && (forall x :: x in s.readers <==> Holds(s, x) && s.info[x].mode == Read)
    && (forall x :: x in s.writers <==> Holds(s, x) && s.info[x].mode == Write)
    && (forall r :: r in s.queue <==> Waits(s, r))
    && (forall i, j :: 0 <= i < j < |s.queue| ==> s.queue[i].xid != s.queue[j].xid)
    && (forall x :: Pending(s, x) ==> |s.info[x].oids| == 1)
  }

  /** At most one writer, and never a writer with readers. */
  ghost predicate Exclusive(s: Slot) {
    && (forall x, y :: x in s.writers && y in s.writers ==> x == y)
    && (s.writers != {} ==> s.readers == {})
  }

  /** The front of the queue conflicts with a current holder. */
  ghost predicate FrontBlocked(s: Slot) {
    s.queue != [] ==> s.queue[0].xid in s.info && !Free(s, s.info[s.queue[0].xid].mode)
  }

  ghost predicate Inv(s: Slot) {
    Partition(s) && Exclusive(s) && FrontBlocked(s)
  }

  /** Erasing the entry at `i`, or leaving it, and going on behind it. */
  lemma WithoutStep(q: seq<Request>, i: nat, x: Xid)
    requires i < |q|
    ensures q[i].xid == x ==>
      var p := q[..i] + q[i + 1..];
      p[..i] + Without(p[i..], x) == q[..i] + Without(q[i..], x)
    ensures q[i].xid != x ==> q[..i + 1] + Without(q[i + 1..], x) == q[..i] + Without(q[i..], x)
  {
    assert q[i..][1..] == q[i + 1..];
    var p := q[..i] + q[i + 1..];
    assert p[..i] == q[..i] && p[i..] == q[i + 1..];
  }

  lemma WithoutElements(q: seq<Request>, x: Xid)
    ensures forall r :: r in Without(q, x) <==> r in q && r.xid != x
  {}

  lemma WithoutDistinct(q: seq<Request>, x: Xid)
    requires forall i, j :: 0 <= i < j < |q| ==> q[i].xid != q[j].xid
    ensures forall i, j :: 0 <= i < j < |Without(q, x)| ==> Without(q, x)[i].xid != Without(q, x)[j].xid
  {
    if q != [] {
      WithoutDistinct(q[1..], x);
      WithoutElements(q[1..], x);
    }
  }

  lemma RepeatKeepsInv(s: Slot, m: Mode, x: Xid, o: Oid)
    requires Inv(s) && Holds(s, x)
    ensures Inv(AddInfo(s, m, x, o))
  {}

  lemma AdmitKeepsInv(s: Slot, m: Mode, x: Xid, o: Oid)
    requires Inv(s) && x !in s.info && Free(s, m)
    ensures Inv(AddHolder(AddInfo(s, m, x, o), x, m))
  {
    if s.queue != [] { assert s.queue[0] in s.queue; }
  }

  lemma EnqueueKeepsInv(s: Slot, m: Mode, x: Xid, o: Oid)
    requires Inv(s) && x !in s.info && !Free(s, m)
    ensures Inv(AddInfo(s, m, x, o).(queue := s.queue + [Request(x, o)]))
  {
    var t := AddInfo(s, m, x, o).(queue := s.queue + [Request(x, o)]);
    forall r ensures r in t.queue <==> Waits(t, r) {
      assert r in t.queue <==> r in s.queue || r == Request(x, o);
      assert r.xid != x ==> (Waits(t, r) <==> Waits(s, r));
    }
    forall i, j | 0 <= i < j < |t.queue| ensures t.queue[i].xid != t.queue[j].xid {
      assert s.queue[i] in s.queue;
    }
    if s.queue != [] { assert s.queue[0] in s.queue; }
  }

  lemma LockKeepsInv(s: Slot, m: Mode, x: Xid, o: Oid)
    requires Inv(s) && !Pending(s, x)
    ensures Inv(LockStep(s, m, x, o).0)
  {
    if Holds(s, x) {
      RepeatKeepsInv(s, m, x, o);
    } else if Free(s, m) {
      AdmitKeepsInv(s, m, x, o);
    } else {
      EnqueueKeepsInv(s, m, x, o);
    }
  }

  lemma RemoveKeepsPartition(s: Slot, x: Xid)
    requires Partition(s) && Exclusive(s)
    ensures Partition(Remove(s, x)) && Exclusive(Remove(s, x))
  {
    WithoutElements(s.queue, x);
    WithoutDistinct(s.queue, x);
  }

  lemma PromoteFrontKeepsPartition(s: Slot)
    requires Partition(s) && Exclusive(s) && s.queue != []
    requires s.queue[0].xid in s.info && Free(s, s.info[s.queue[0].xid].mode)
    ensures Partition(PromoteFront(s)) && Exclusive(PromoteFront(s))
  {
    var f, t := s.queue[0], PromoteFront(s);
    assert f in s.queue;
    forall r ensures r in t.queue <==> Waits(t, r) {
      assert r in s.queue <==> r == f || r in t.queue;
      assert r.xid != f.xid ==> (Waits(t, r) <==> Waits(s, r));
    }
  }

  lemma {:induction false} PromoteKeepsInv(s: Slot)
    requires Partition(s) && Exclusive(s)
    ensures Inv(Promote(s))
    decreases |s.queue|
  {
    if s.queue != [] {
      assert s.queue[0] in s.queue;
      if Free(s, s.info[s.queue[0].xid].mode) {
        PromoteFrontKeepsPartition(s);
        PromoteKeepsInv(PromoteFront(s));
      }
    }
  }

  lemma UnlockKeepsInv(s: Slot, x: Xid)
    requires Inv(s)
    ensures Inv(UnlockStep(s, x).0)
  {
    RemoveKeepsPartition(s, x);
    PromoteKeepsInv(Remove(s, x));
  }

  // --------------------------------------------------- bookkeeping and conservation

  function Xids(q: seq<Request>): set<Xid> {
    set r | r in q :: r.xid
  }

  lemma {:induction false} XidsCount(q: seq<Request>)
    requires forall i, j :: 0 <= i < j < |q| ==> q[i].xid != q[j].xid
    ensures |Xids(q)| == |q|
  {
    if q != [] {
      var p := q[..|q| - 1];
      XidsCount(p);
      var last := q[|q| - 1];
      assert forall r :: r in q <==> r in p || r == last;
      assert Xids(q) == Xids(p) + {last.xid};
    }
  }

  lemma KeysSplit(s: Slot)
    requires Partition(s)
    ensures s.info.Keys == s.readers + s.writers + Xids(s.queue)
    ensures s.readers !! s.writers && (s.readers + s.writers) !! Xids(s.queue)
  {
    forall x | Pending(s, x) ensures x in Xids(s.queue) {
      assert Waits(s, Request(x, s.info[x].oids[0]));
    }
    forall x ensures x in s.info.Keys <==> x in s.readers + s.writers + Xids(s.queue) {}
  }

  /** The assertion the slot's self-check leaves commented out. */
  lemma CountsAddUp(s: Slot)
    requires Inv(s)
    ensures |s.writers| + |s.readers| + |s.queue| == |s.info|
  {
    XidsCount(s.queue);
    KeysSplit(s);
    assert |s.info| == |s.info.Keys|;
  }

  /** An idle slot has no waiters: whoever is left to wait has a holder to wait for. */
  lemma IdleHasNoWaiters(s: Slot)
    requires Inv(s) && s.readers == {} && s.writers == {}
    ensures s == EmptySlot
  {
    KeysSplit(s);
    assert s.queue == [];
    assert s.info == map[];
  }

  /** Promotion takes a prefix off the queue and keeps `info`'s keys. */
  lemma {:induction false} PromoteTakesPrefix(s: Slot)
    requires Partition(s) && Exclusive(s)
    ensures |Promote(s).queue| <= |s.queue| && Promote(s).queue == s.queue[|s.queue| - |Promote(s).queue|..]
    ensures Promote(s).info.Keys == s.info.Keys
    decreases |s.queue|
  {
    if s.queue != [] {
      assert s.queue[0] in s.queue;
      if Free(s, s.info[s.queue[0].xid].mode) {
        PromoteFrontKeepsPartition(s);
        PromoteTakesPrefix(PromoteFront(s));
        assert PromoteFront(s).info.Keys == s.info.Keys;
      }
    }
  }

  /** The request that an unlock by a transaction still waiting takes back. */
  function Withdrawn(s: Slot, x: Xid): multiset<Request> {
    if Pending(s, x) && s.info[x].oids != [] then multiset{Request(x, s.info[x].oids[0])} else multiset{}
  }

  lemma {:induction false} WithoutNone(q: seq<Request>, x: Xid)
    requires forall i :: 0 <= i < |q| ==> q[i].xid != x
    ensures Without(q, x) == q
  {
    if q != [] { WithoutNone(q[1..], x); }
  }

  lemma {:induction false} WithoutDropsOne(q: seq<Request>, r: Request, k: nat)
    requires (forall i, j :: 0 <= i < j < |q| ==> q[i].xid != q[j].xid) && k < |q| && q[k] == r
    ensures multiset(Without(q, r.xid)) + multiset{r} == multiset(q)
  {
    assert q == [q[0]] + q[1..];
    if k == 0 { WithoutNone(q[1..], r.xid); } else { WithoutDropsOne(q[1..], r, k - 1); }
  }

  lemma RemovedQueue(s: Slot, x: Xid)
    requires Inv(s)
    ensures Remove(s, x).info.Keys == s.info.Keys - {x}
    ensures !Pending(s, x) ==> Remove(s, x).queue == s.queue
    ensures multiset(Remove(s, x).queue) + Withdrawn(s, x) == multiset(s.queue)
  {
    if Pending(s, x) {
      var q := Request(x, s.info[x].oids[0]);
      assert Waits(s, q);
      var k :| 0 <= k < |s.queue| && s.queue[k] == q;
      WithoutDropsOne(s.queue, q, k);
    }
  }

  lemma UnlockTakesPrefix(s: Slot, x: Xid)
    requires Inv(s)
    ensures UnlockStep(s, x).1 + UnlockStep(s, x).0.queue == Remove(s, x).queue
    ensures UnlockStep(s, x).0.info.Keys == s.info.Keys - {x}
  {
    RemovedQueue(s, x);
    RemoveKeepsPartition(s, x);
    PromoteTakesPrefix(Remove(s, x));
  }

  lemma ConcatCount(a: seq<Request>, b: seq<Request>)
    ensures multiset(a + b) == multiset(a) + multiset(b)
  {}

  lemma UnlockConserves(s: Slot, x: Xid)
    requires Inv(s)
    ensures multiset(UnlockStep(s, x).1) + multiset(UnlockStep(s, x).0.queue) + Withdrawn(s, x) == multiset(s.queue)
  {
    UnlockTakesPrefix(s, x);
    RemovedQueue(s, x);
    ConcatCount(UnlockStep(s, x).1, UnlockStep(s, x).0.queue);
  }

  lemma LockConserves(s: Slot, m: Mode, x: Xid, o: Oid)
    ensures multiset(LockStep(s, m, x, o).1) + multiset(LockStep(s, m, x, o).0.queue) ==
      multiset(s.queue) + multiset{Request(x, o)}
  {
    ConcatCount(s.queue, [Request(x, o)]);
  }

  datatype Call = LockCall(mode: Mode, xid: Xid, oid: Oid) | UnlockCall(xid: Xid)

  function Apply(s: Slot, c: Call): (Slot, seq<Request>) {
    match c
    case LockCall(m, x, o) => LockStep(s, m, x, o)
    case UnlockCall(x) => UnlockStep(s, x)
  }

  /** What a run of calls on a fresh slot has done so far. */
  datatype Account = Account(slot: Slot, asked: multiset<Request>, told: multiset<Request>,
      withdrawn: multiset<Request>)

  function Tally(a: Account, c: Call): Account {
    var (t, told) := Apply(a.slot, c);
    Account(t,
            if c.LockCall? then a.asked + multiset{Request(c.xid, c.oid)} else a.asked,
            a.told + multiset(told),
            if c.UnlockCall? then a.withdrawn + Withdrawn(a.slot, c.xid) else a.withdrawn)
  }

  function Run(calls: seq<Call>): Account {
    if calls == [] then Account(EmptySlot, multiset{}, multiset{}, multiset{})
    else Tally(Run(calls[..|calls| - 1]), calls[|calls| - 1])
  }

  /** No transaction sends a second request while its first is still waiting. */
  ghost predicate Legal(calls: seq<Call>) {
    calls != [] ==>
      var before := calls[..|calls| - 1];
      var c := calls[|calls| - 1];
      Legal(before) && (c.LockCall? ==> !Pending(Run(before).slot, c.xid))
  }

  /** Every request asked has been told once, or is waiting, or was withdrawn. */
  ghost predicate Balanced(a: Account) {
    Inv(a.slot) && a.asked == a.told + multiset(a.slot.queue) + a.withdrawn
  }

  lemma TallyKeepsBalance(a: Account, c: Call)
    requires Balanced(a) && (c.LockCall? ==> !Pending(a.slot, c.xid))
    ensures Balanced(Tally(a, c))
  {
    match c
    case LockCall(m, x, o) => LockTally(a, m, x, o);
    case UnlockCall(x) => UnlockTally(a, x);
  }

  lemma LockTally(a: Account, m: Mode, x: Xid, o: Oid)
    requires Balanced(a) && !Pending(a.slot, x)
    ensures Balanced(Tally(a, LockCall(m, x, o)))
  {
    var r := LockStep(a.slot, m, x, o);
    LockKeepsInv(a.slot, m, x, o);
    LockConserves(a.slot, m, x, o);
    Moves(a.asked, a.told, multiset(a.slot.queue), a.withdrawn, multiset(r.1), multiset(r.0.queue),
        multiset{Request(x, o)}, multiset{});
  }

  lemma UnlockTally(a: Account, x: Xid)
    requires Balanced(a)
    ensures Balanced(Tally(a, UnlockCall(x)))
  {
    var r := UnlockStep(a.slot, x);
    UnlockKeepsInv(a.slot, x);
    UnlockConserves(a.slot, x);
    Moves(a.asked, a.told, multiset(a.slot.queue), a.withdrawn, multiset(r.1), multiset(r.0.queue), multiset{},
        Withdrawn(a.slot, x));
  }

  /** Requests `more` came in; of them and the queue, some were told and some withdrawn. */
  lemma Moves(asked: multiset<Request>, told: multiset<Request>, queue: multiset<Request>, withdrawn: multiset<Request>,
              now: multiset<Request>, left: multiset<Request>, more: multiset<Request>, gone: multiset<Request>)
    requires asked == told + queue + withdrawn && now + left + gone == queue + more
    ensures asked + more == (told + now) + left + (withdrawn + gone)
  {
    assert asked + more == told + (queue + more) + withdrawn;
  }

  lemma {:induction false} EveryRunBalances(calls: seq<Call>)
    requires Legal(calls)
    ensures Balanced(Run(calls))
  {
    if calls != [] {
      var before := calls[..|calls| - 1];
      EveryRunBalances(before);
      TallyKeepsBalance(Run(before), calls[|calls| - 1]);
    }
  }

  /** A request asked once is told at most once, and exactly once unless it still
      waits or its transaction unlocked while it waited. */
  lemma ToldOnce(calls: seq<Call>, r: Request)
    requires Legal(calls) && Run(calls).asked[r] == 1
    ensures Run(calls).told[r] <= 1
    ensures Run(calls).told[r] == 1 <==> r !in Run(calls).slot.queue && r !in Run(calls).withdrawn
  {
    EveryRunBalances(calls);
    assert r in Run(calls).slot.queue <==> r in multiset(Run(calls).slot.queue);
  }

  /** Promotion changes nobody's mode and takes the row from nobody. */
  lemma {:induction false} PromoteKeepsModes(s: Slot, y: Xid)
    requires y in s.info
    ensures y in Promote(s).info && Promote(s).info[y].mode == s.info[y].mode
    ensures Holds(s, y) ==> Holds(Promote(s), y)
    decreases |s.queue|
  {
    if s.queue != [] {
      if s.queue[0].xid !in s.info {
        PromoteKeepsModes(s.(queue := s.queue[1..]), y);
      } else if Free(s, s.info[s.queue[0].xid].mode) {
        PromoteKeepsModes(PromoteFront(s), y);
      }
    }
  }

  lemma ToldWasWaiting(s: Slot, x: Xid, r: Request)
    requires Inv(s) && r in UnlockStep(s, x).1
    ensures r.xid != x && Pending(s, r.xid) && Holds(UnlockStep(s, x).0, r.xid)
  {
    var told, u, q := UnlockStep(s, x).1, UnlockStep(s, x).0, Remove(s, x).queue;
    UnlockTakesPrefix(s, x);
    UnlockKeepsInv(s, x);
    RemoveKeepsPartition(s, x);
    var i :| 0 <= i < |told| && told[i] == r;
    assert q[i] == r;
    assert Waits(Remove(s, x), r);
    NotBehind(told, u.queue, q, i);
    NotQueuedHolds(u, r.xid);
  }

  lemma NotBehind(told: seq<Request>, left: seq<Request>, q: seq<Request>, i: nat)
    requires told + left == q && i < |told| && forall j, k :: 0 <= j < k < |q| ==> q[j].xid != q[k].xid
    ensures forall j :: 0 <= j < |left| ==> left[j].xid != told[i].xid
  {
    forall j | 0 <= j < |left| ensures left[j].xid != told[i].xid {
      assert left[j] == q[|told| + j] && told[i] == q[i];
    }
  }

  lemma NotQueuedHolds(s: Slot, x: Xid)
    requires Inv(s) && x in s.info && forall j :: 0 <= j < |s.queue| ==> s.queue[j].xid != x
    ensures Holds(s, x)
  {
    assert forall e :: e in s.queue ==> e.xid != x;
    if s.info[x].oids != [] {
      var w := Request(x, s.info[x].oids[0]);
      assert w in s.queue <==> Waits(s, w);
    }
  }

  /** What an unlock by `x` does to another transaction `y`. */
  lemma UnlockOther(s: Slot, x: Xid, y: Xid)
    requires Inv(s) && y != x
    ensures y in UnlockStep(s, x).0.info <==> y in s.info
    ensures y in s.info ==> UnlockStep(s, x).0.info[y].mode == s.info[y].mode
    ensures Holds(s, y) ==> Holds(UnlockStep(s, x).0, y)
  {
    UnlockTakesPrefix(s, x);
    if y in s.info { PromoteKeepsModes(Remove(s, x), y); }
  }

  // ---------------------------------------------------------------- upgrades

  /** `x` has the row to itself for writing. */
  ghost predicate Alone(s: Slot, x: Xid) {
    Holds(s, x) && s.info[x].mode == Write && forall y :: y != x ==> !Holds(s, y)
  }

  /** An answered write request leaves its transaction alone on the row exactly when
      the transaction did not already hold the row for reading. */
  lemma AnsweredWriteIsExclusive(s: Slot, x: Xid, o: Oid)
    requires Inv(s) && !Pending(s, x) && LockStep(s, Write, x, o).1 != []
    ensures Alone(LockStep(s, Write, x, o).0, x) <==> !(Holds(s, x) && s.info[x].mode == Read)
  {
    var u := LockStep(s, Write, x, o).0;
    LockKeepsInv(s, Write, x, o);
    if Holds(u, x) && u.info[x].mode == Write {
      assert x in u.writers;
      forall y | y != x ensures !Holds(u, y) {
        assert Holds(u, y) ==> y in u.writers || y in u.readers;
      }
    }
  }

  /** Two readers; one of them asks to write, is answered, and the other still reads. */
  lemma UpgradeSharesTheRow()
    ensures var s := LockStep(LockStep(EmptySlot, Read, 1, 1).0, Read, 2, 1).0;
      var (u, told) := LockStep(s, Write, 1, 2);
      told == [Request(1, 2)] && Holds(u, 1) && Holds(u, 2) && !Alone(u, 1)
  {
    var s := LockStep(LockStep(EmptySlot, Read, 1, 1).0, Read, 2, 1).0;
    assert Holds(s, 1) && Holds(s, 2);
    assert Holds(LockStep(s, Write, 1, 2).0, 2);
  }

  // ---------------------------------------------------------------- wait-for dependencies

  /** Whom the deadlock detector is told `x` waits for. */
  function Dependency(s: Slot, x: Xid): set<Xid> {
    if x !in s.info then {} else if s.info[x].mode == Read then s.writers else s.readers + s.writers
  }

  /** A waiter is reported to wait for exactly the holders it conflicts with. */
  lemma DependencyIsConflict(s: Slot, x: Xid, y: Xid)
    requires Inv(s) && Pending(s, x)
    ensures y in Dependency(s, x) <==> Holds(s, y) && Conflict(s.info[x].mode, s.info[y].mode)
  {
    assert y in s.readers <==> Holds(s, y) && s.info[y].mode == Read;
    assert y in s.writers <==> Holds(s, y) && s.info[y].mode == Write;
  }

  /** A request to write is ahead of the request of `x` in the queue. */
  ghost predicate WriteAhead(s: Slot, x: Xid) {
    exists i, j :: 0 <= i < j < |s.queue| && s.queue[j].xid == x && s.queue[i].xid in s.info
      && s.info[s.queue[i].xid].mode == Write
  }

  /** A waiter is reported to wait for nobody exactly when it is a reader behind a waiting
      writer on a row that no writer holds. */
  lemma WaiterHasDependency(s: Slot, x: Xid)
    requires Inv(s) && Pending(s, x)
    ensures Dependency(s, x) == {} <==> s.info[x].mode == Read && s.writers == {} && WriteAhead(s, x)
    ensures s.info[x].mode == Write ==> Dependency(s, x) != {}
  {
    assert Request(x, s.info[x].oids[0]) in s.queue;
    assert s.readers + s.writers == {} <==> s.readers == {} && s.writers == {};
    if s.readers == {} && s.writers == {} {
      IdleHasNoWaiters(s);
      assert false;
    }
    if s.info[x].mode == Read && s.writers == {} {
      var j :| 0 <= j < |s.queue| && s.queue[j].xid == x;
      assert s.info[s.queue[0].xid].mode == Write;
      assert 0 < j;
    }
  }

  /** A writer hands the row to a reader; the reader queued behind the next writer waits, and
      is reported to wait for nobody. */
  lemma OvertakenReaderHasNone()
    ensures var a := LockStep(LockStep(EmptySlot, Write, 1, 1).0, Read, 2, 1).0;
      var b := LockStep(LockStep(a, Write, 3, 1).0, Read, 4, 1).0;
      var s := UnlockStep(b, 1).0;
      Pending(s, 4) && s.queue == [Request(3, 1), Request(4, 1)] && Dependency(s, 4) == {}
  {
    var a := LockStep(LockStep(EmptySlot, Write, 1, 1).0, Read, 2, 1).0;
    var b := LockStep(LockStep(a, Write, 3, 1).0, Read, 4, 1).0;
    var c := Remove(b, 1);
    assert b.queue == [Request(2, 1), Request(3, 1), Request(4, 1)];
    assert c.queue == b.queue && c.readers == {} && c.writers == {};
    var d := PromoteFront(c);
    assert d.queue == [Request(3, 1), Request(4, 1)] && d.readers == {2} && d.writers == {};
    assert Promote(c) == Promote(d) == d;
  }

  // ---------------------------------------------------------------- full drain

  function Releases(s: Slot, hs: seq<Xid>): (Slot, seq<Request>)
    decreases hs
  {
    if hs == [] then (s, [])
    else
      var (t, told) := UnlockStep(s, hs[0]);
      var (u, more) := Releases(t, hs[1..]);
      (u, told + more)
  }

  /** Each release in turn is by a transaction that holds the row at that moment. */
  ghost predicate HolderReleases(s: Slot, hs: seq<Xid>)
    decreases hs
  {
    hs != [] ==> Holds(s, hs[0]) && HolderReleases(UnlockStep(s, hs[0]).0, hs[1..])
  }

  lemma HolderReleaseStep(s: Slot, x: Xid)
    requires Inv(s) && Holds(s, x)
    ensures Inv(UnlockStep(s, x).0) && UnlockStep(s, x).1 + UnlockStep(s, x).0.queue == s.queue
    ensures |UnlockStep(s, x).0.info| + 1 == |s.info|
  {
    UnlockKeepsInv(s, x);
    UnlockTakesPrefix(s, x);
    RemovedQueue(s, x);
    assert |UnlockStep(s, x).0.info.Keys| == |UnlockStep(s, x).0.info| && |s.info.Keys| == |s.info|;
  }

  lemma {:induction false} ReleasesTakePrefix(s: Slot, hs: seq<Xid>)
    requires Inv(s) && HolderReleases(s, hs)
    ensures Inv(Releases(s, hs).0)
    ensures Releases(s, hs).1 + Releases(s, hs).0.queue == s.queue
    ensures |Releases(s, hs).0.info| + |hs| == |s.info|
    decreases hs
  {
    if hs != [] {
      HolderReleaseStep(s, hs[0]);
      ReleasesTakePrefix(UnlockStep(s, hs[0]).0, hs[1..]);
    }
  }

  lemma DrainEnd(s: Slot, told: seq<Request>, u: Slot, n: nat)
    requires Inv(u) && told + u.queue == s.queue && |u.info| + n == |s.info|
    ensures n < |s.info| ==> exists x :: Holds(u, x)
    ensures n == |s.info| ==> u == EmptySlot && told == s.queue
  {
    if u.readers == {} && u.writers == {} {
      IdleHasNoWaiters(u);
    } else {
      var x :| x in u.readers + u.writers;
      assert Holds(u, x);
    }
  }

  /** However the holders are chosen, releasing them one after the other grants the
      waiters in queue order: it never gets stuck before everyone is gone, and when
      everyone is gone the grants were exactly the queue. */
  lemma Drain(s: Slot, hs: seq<Xid>)
    requires Inv(s) && HolderReleases(s, hs)
    ensures |hs| <= |s.info|
    ensures |hs| < |s.info| ==> exists x :: Holds(Releases(s, hs).0, x)
    ensures |hs| == |s.info| ==> Releases(s, hs).0 == EmptySlot && Releases(s, hs).1 == s.queue
  {
    ReleasesTakePrefix(s, hs);
    var (u, told) := Releases(s, hs);
    DrainEnd(s, told, u, |hs|);
  }

  // ---------------------------------------------------------------- the slot object

  ghost predicate Known(s: Slot) {
    forall r :: r in s.queue ==> r.xid in s.info
  }

  /** The slot after its first `n` waiters have been made holders. */
  ghost function GrantFirst(s: Slot, n: nat): (t: Slot)
    requires n <= |s.queue| && Known(s)
    ensures t.queue == s.queue[n..] && t.info.Keys == s.info.Keys
  {
    if n == 0 then s else PromoteFront(GrantFirst(s, n - 1))
  }

  lemma GrantFirstKeepsRequest(s: Slot, n: nat, x: Xid)
    requires n <= |s.queue| && Known(s) && x in s.info
    ensures GrantFirst(s, n).info[x].mode == s.info[x].mode
    ensures GrantFirst(s, n).info[x].oids == s.info[x].oids
  {}

  /** The first `n` waiters may be granted; with them there are readers, or writers,
      exactly if the numbers say so. */
  ghost predicate Scanned(s: Slot, n: nat, readers: nat, writers: nat) {
    && n <= |s.queue| && Known(s) && Promote(s) == Promote(GrantFirst(s, n))
    && (GrantFirst(s, n).readers == {} <==> readers == 0) && (GrantFirst(s, n).writers == {} <==> writers == 0)
  }

  /** Looking at the next waiter: it joins, or the scan is over. */
  lemma ScanOn(s: Slot, n: nat, readers: nat, writers: nat)
    requires Scanned(s, n, readers, writers) && n < |s.queue|
    ensures s.queue[n].xid in s.info
    ensures s.info[s.queue[n].xid].mode == Read ==>
      if writers == 0 then Scanned(s, n + 1, readers + 1, writers) else Promote(s) == GrantFirst(s, n)
    ensures s.info[s.queue[n].xid].mode == Write ==>
      if writers == 0 && readers == 0 then Scanned(s, n + 1, readers, writers + 1) else Promote(s) == GrantFirst(s, n)
  {
    assert s.queue[n] in s.queue;
    GrantFirstKeepsRequest(s, n, s.queue[n].xid);
  }

  lemma GrantFirstStep(s: Slot, n: nat, q: seq<Request>)
    requires n < |s.queue| && Known(s) && forall r :: r in s.queue ==> Waits(s, r)
    ensures s.queue[n].xid in GrantFirst(s, n).info
    ensures GrantFirst(s, n).info[s.queue[n].xid].oids == [s.queue[n].oid]
    ensures GrantFirst(s, n + 1).(queue := q)
         == AddHolder(GrantFirst(s, n).(queue := q), s.queue[n].xid, GrantFirst(s, n).info[s.queue[n].xid].mode)
  {
    assert s.queue[n] in s.queue && Waits(s, s.queue[n]);
    GrantFirstKeepsRequest(s, n, s.queue[n].xid);
  }

  class LockSlot {
    var readCount: nat
    var writeCount: nat
    var readers: set<Xid>
    var writers: set<Xid>
    var queue: seq<Request>
    var info: map<Xid, Info>

    ghost function Value(): Slot
      reads this
    {
      Slot(readers, writers, queue, info)
    }

    ghost predicate Counted()
      reads this
    {
      readCount == |readers| && writeCount == |writers|
    }

    ghost predicate Valid()
      reads this
    {
      Counted() && Inv(Value())
    }

    constructor ()
      ensures Valid() && Value() == EmptySlot
    {
      readCount, writeCount := 0, 0;
      readers, writers, queue, info := {}, {}, [], map[];
    }

    method Lock(m: Mode, x: Xid, o: Oid) returns (ok: bool, told: seq<Request>)
      requires Valid() && !Pending(Value(), x)
      modifies this
      ensures Valid()
      ensures (Value(), told) == LockStep(old(Value()), m, x, o)
      ensures ok <==> Holds(Value(), x)
    {
      LockKeepsInv(Value(), m, x, o);
      var holder := AddLockInfo(m, x, o);
      if holder {
        return true, [Request(x, o)];
      }
      if m == Read {
        ok := ReadLock(x, o);
      } else {
        ok := WriteLock(x, o);
      }
      told := if ok then [Request(x, o)] else [];
    }

    method AddLockInfo(m: Mode, x: Xid, o: Oid) returns (holder: bool)
      modifies this`info
      ensures Value() == AddInfo(old(Value()), m, x, o)
      ensures holder == Holds(old(Value()), x)
    {
      if x in info {
        holder := info[x].acquired;
        info := info[x := info[x].(oids := info[x].oids + [o])];
      } else {
        holder := false;
        info := info[x := Info(m, [o], false)];
      }
    }

    method ReadLock(x: Xid, o: Oid) returns (acquire: bool)
      requires Counted() && x in info
      modifies this
      ensures Counted() && acquire == Free(old(Value()), Read)
      ensures Value() == if acquire then AddHolder(old(Value()), x, Read)
                         else old(Value()).(queue := old(queue) + [Request(x, o)])
    {
      acquire := writeCount == 0;
      if acquire {
        info := info[x := info[x].(acquired := true)];
        if x !in readers {
          readCount := readCount + 1;
          readers := readers + {x};
        }
      } else {
        queue := queue + [Request(x, o)];
      }
      assert readers + {x} == if x in readers then readers else readers + {x};
    }

    method WriteLock(x: Xid, o: Oid) returns (acquire: bool)
      requires Counted() && x in info
      modifies this
      ensures Counted() && acquire == Free(old(Value()), Write)
      ensures Value() == if acquire then AddHolder(old(Value()), x, Write)
                         else old(Value()).(queue := old(queue) + [Request(x, o)])
    {
      acquire := writeCount == 0 && readCount == 0;
      if acquire {
        info := info[x := info[x].(acquired := true)];
        writeCount := writeCount + 1;
        writers := writers + {x};
      } else {
        queue := queue + [Request(x, o)];
      }
    }

    method Unlock(x: Xid) returns (told: seq<Request>)
      requires Valid()
      modifies this
      ensures Valid()
      ensures (Value(), told) == UnlockStep(old(Value()), x)
    {
      UnlockKeepsInv(Value(), x);
      RemoveKeepsPartition(Value(), x);
      RemoveLock(x);
      told := NotifyLockAcquire();
    }

    method RemoveLock(x: Xid)
      requires Valid()
      modifies this
      ensures Counted() && Value() == Remove(old(Value()), x)
    {
      if x in info {
        var entry := info[x];
        info := info - {x};
        if !entry.acquired {
          EraseWaiter(x);
        } else if entry.mode == Read {
          readCount := readCount - 1;
          readers := readers - {x};
        } else {
          writers := writers - {x};
          writeCount := writeCount - 1;
        }
      }
    }

    method EraseWaiter(x: Xid)
      modifies this`queue
      ensures queue == Without(old(queue), x)
    {
      var i := 0;
      while i < |queue|
        invariant 0 <= i <= |queue|
        invariant queue[..i] + Without(queue[i..], x) == Without(old(queue), x)
        decreases |queue| - i
      {
        WithoutStep(queue, i, x);
        if queue[i].xid == x {
          queue := queue[..i] + queue[i + 1..];
        } else {
          i := i + 1;
        }
      }
    }

    /** Whether the waiter `x` at the front can run with the holders and with those taken so far. */
    method Joins(x: Xid, read: nat, write: nat, ghost s0: Slot, ghost n: nat) returns (join: bool)
      requires n < |s0.queue| && x == s0.queue[n].xid && info == s0.info
      requires Scanned(s0, n, readCount + read, writeCount + write)
      ensures x in info
      ensures join && info[x].mode == Read ==> Scanned(s0, n + 1, readCount + read + 1, writeCount + write)
      ensures join && info[x].mode == Write ==> Scanned(s0, n + 1, readCount + read, writeCount + write + 1)
      ensures !join ==> Promote(s0) == GrantFirst(s0, n)
    {
      ScanOn(s0, n, readCount + read, writeCount + write);
      if info[x].mode == Read {
        join := write == 0 && writeCount == 0;
      } else {
        join := read == 0 && write == 0 && readCount == 0 && writeCount == 0;
      }
    }

    /** Take from the front of the queue the waiters that can run together. */
    method CollectGrantable() returns (granted: seq<Xid>)
      requires Counted() && Known(Value())
      modifies this`queue
      ensures |granted| <= |old(queue)| && queue == old(queue)[|granted|..]
      ensures forall i :: 0 <= i < |granted| ==> granted[i] == old(queue)[i].xid
      ensures Promote(old(Value())) == GrantFirst(old(Value()), |granted|)
    {
      granted := [];
      var read, write := 0, 0;
      ghost var s0 := Value();
      while queue != []
        invariant |granted| <= |s0.queue| && queue == s0.queue[|granted|..]
        invariant Scanned(s0, |granted|, readCount + read, writeCount + write)
        invariant forall i :: 0 <= i < |granted| ==> granted[i] == s0.queue[i].xid
        decreases |queue|
      {
        var join := Joins(queue[0].xid, read, write, s0, |granted|);
        if !join { break; }
        if info[queue[0].xid].mode == Read { read := read + 1; } else { write := write + 1; }
        granted := granted + [queue[0].xid];
        queue := queue[1..];
      }
    }

    method MakeHolder(x: Xid)
      requires Counted() && x in info
      modifies this`info, this`readers, this`readCount, this`writers, this`writeCount
      ensures Counted() && Value() == AddHolder(old(Value()), x, old(info)[x].mode)
    {
      info := info[x := info[x].(acquired := true)];
      if info[x].mode == Read {
        if x !in readers {
          readCount := readCount + 1;
          readers := readers + {x};
        }
      } else if x !in writers {
        writeCount := writeCount + 1;
        writers := writers + {x};
      }
    }

    method Tell(x: Xid) returns (told: seq<Request>)
      requires x in info
      ensures |told| == |info[x].oids|
      ensures forall k :: 0 <= k < |told| ==> told[k] == Request(x, info[x].oids[k])
    {
      told := [];
      for k := 0 to |info[x].oids|
        invariant |told| == k && forall j :: 0 <= j < k ==> told[j] == Request(x, info[x].oids[j])
      {
        told := told + [Request(x, info[x].oids[k])];
      }
    }

    /** Make a batch of waiters holders and tell each about its request. */
    method GrantBatch(granted: seq<Xid>, ghost s0: Slot) returns (told: seq<Request>)
      requires Counted() && Value() == s0.(queue := queue)
      requires |granted| <= |s0.queue| && forall i :: 0 <= i < |granted| ==> granted[i] == s0.queue[i].xid
      requires Known(s0) && forall r :: r in s0.queue ==> Waits(s0, r)
      modifies this`info, this`readers, this`readCount, this`writers, this`writeCount
      ensures Counted() && Value() == GrantFirst(s0, |granted|).(queue := queue)
      ensures told == s0.queue[..|granted|]
    {
      told := [];
      for i := 0 to |granted|
        invariant Counted() && Value() == GrantFirst(s0, i).(queue := queue)
        invariant told == s0.queue[..i]
      {
        GrantFirstStep(s0, i, queue);
        var t := Tell(granted[i]);
        MakeHolder(granted[i]);
        assert t == [s0.queue[i]];
        told := told + t;
      }
    }

    method NotifyLockAcquire() returns (told: seq<Request>)
      requires Counted() && Known(Value()) && forall r :: r in queue ==> Waits(Value(), r)
      modifies this
      ensures Counted() && Value() == Promote(old(Value()))
      ensures told + queue == old(queue)
    {
      ghost var s0 := Value();
      var granted := CollectGrantable();
      told := GrantBatch(granted, s0);
    }
  }
}
