/** Every request sent to a shard is scheduled there once, when its epoch is, and never again. */
module CalvinOnce {
  import opened Calvin
  import opened CalvinRuns
  import opened CalvinOrder

  ghost predicate Distinct(reqs: seq<Req>) {
    forall i, j :: 0 <= i < j < |reqs| ==> reqs[i].xid != reqs[j].xid
  }

  /** No transaction is twice in what is gathered of an epoch, or scheduled with it. */
  ghost predicate OnceAt(n: CNode) {
    && (forall e :: e > |n.sched| ==> Distinct(BatchAt(n.s, e).reqs))
    && (forall i :: 0 <= i < |n.sched| ==> Distinct(n.sched[i].reqs))
  }

  ghost predicate OnceInv(w: World) {
    forall d :: d in w.nodes ==> OnceAt(w.nodes[d])
  }

  // ---------------------------------------------------------------- permutations

  lemma {:induction false} CountOf(reqs: seq<Req>, r: Req)
    requires Distinct(reqs)
    ensures multiset(reqs)[r] <= 1
  {
    if reqs != [] {
      var front, last := reqs[..|reqs| - 1], reqs[|reqs| - 1];
      assert reqs == front + [last];
      CountOf(front, r);
      forall i | 0 <= i < |front| ensures front[i] != last { assert reqs[i].xid != reqs[|reqs| - 1].xid; }
      assert last !in multiset(front);
    }
  }

  lemma TwiceCounted(reqs: seq<Req>, i: nat, j: nat)
    requires i < j < |reqs| && reqs[i] == reqs[j]
    ensures multiset(reqs)[reqs[i]] >= 2
  {
    var a, b := reqs[..j], reqs[j..];
    assert reqs == a + b;
    assert a[i] in a && b[0] in b;
    assert multiset(reqs) == multiset(a) + multiset(b);
    assert reqs[i] in multiset(a) && reqs[i] in multiset(b);
  }

  lemma OrderedDistinct(order: seq<Req>, reqs: seq<Req>)
    requires Ordered(order, reqs) && Distinct(reqs)
    ensures Distinct(order)
  {
    forall i, j | 0 <= i < j < |order| ensures order[i].xid != order[j].xid {
      assert order[i] in multiset(order) && order[j] in multiset(order);
      assert order[i] in reqs && order[j] in reqs;
      if order[i].xid == order[j].xid {
        var k :| 0 <= k < |reqs| && reqs[k] == order[i];
        var l :| 0 <= l < |reqs| && reqs[l] == order[j];
        assert k == l;
        TwiceCounted(order, i, j);
        CountOf(reqs, order[i]);
        assert false;
      }
    }
  }

  // ---------------------------------------------------------------- steps

  /** Only its own sequencer sends a transaction. */
  lemma OneHome(w: World, m: EpochMsg, v: EpochMsg, x: Xid)
    requires TxInv(w) && m in w.sent && v in w.sent && Mentions(m, x) && Mentions(v, x)
    ensures m.src == v.src
  {
    assert x in w.used || UnusedOk(w, x);
    assert TxOk(w, x);
    var i :| 0 <= i < |m.reqs| && m.reqs[i].xid == x;
    var j :| 0 <= j < |v.reqs| && v.reqs[j].xid == x;
  }

  /** What has come of an epoch is not about a transaction of a message that has not. */
  lemma NewToBatch(w: World, n: CNode, m: EpochMsg, i: nat, k: nat)
    requires TxInv(w) && m in w.sent && OpenOk(w.sent, m.dest, n, m.epoch) && Arrival(m.src, m.epoch) !in n.got
    requires i < |BatchAt(n.s, m.epoch).reqs| && k < |m.reqs|
    ensures BatchAt(n.s, m.epoch).reqs[i].xid != m.reqs[k].xid
  {
    var r := BatchAt(n.s, m.epoch).reqs[i];
    assert r in BatchAt(n.s, m.epoch).reqs;
    assert Came(w.sent, n.got, m.dest, m.epoch, r);
    var v :| v in w.sent && v.dest == m.dest && v.epoch == m.epoch && Arrival(v.src, m.epoch) in n.got && r in v.reqs;
    if r.xid == m.reqs[k].xid {
      assert Mentions(v, r.xid) && Mentions(m, r.xid);
      OneHome(w, m, v, r.xid);
      assert false;
    }
  }

  lemma GatheredDistinct(w: World, n: CNode, m: EpochMsg)
    requires TxInv(w) && m in w.sent && OpenOk(w.sent, m.dest, n, m.epoch) && Arrival(m.src, m.epoch) !in n.got
    requires Distinct(BatchAt(n.s, m.epoch).reqs)
    ensures Distinct(Gathered(n.s, m.src, m.epoch, m.reqs).reqs)
  {
    var b, all := BatchAt(n.s, m.epoch).reqs, Gathered(n.s, m.src, m.epoch, m.reqs).reqs;
    assert SentOk(w, m);
    forall i, j | 0 <= i < j < |all| ensures all[i].xid != all[j].xid {
      if i < |b| && j >= |b| { NewToBatch(w, n, m, i, j - |b|); }
    }
  }

  lemma TakeOnce(n: CNode, m: EpochMsg, order: seq<Req>)
    requires OnceAt(n) && m.epoch > |n.sched| && m.src !in BatchAt(n.s, m.epoch).from
    requires Distinct(Gathered(n.s, m.src, m.epoch, m.reqs).reqs)
    requires Completes(n.s, m.src, m.epoch) ==>
      m.epoch == |n.sched| + 1 && Ordered(order, Gathered(n.s, m.src, m.epoch, m.reqs).reqs)
    ensures OnceAt(TakeAt(n, m, order))
  {
    var u := TakeAt(n, m, order);
    if Completes(n.s, m.src, m.epoch) { OrderedDistinct(order, Gathered(n.s, m.src, m.epoch, m.reqs).reqs); }
    forall e | e > |u.sched| ensures Distinct(BatchAt(u.s, e).reqs) { assert Distinct(BatchAt(n.s, e).reqs); }
    forall i | 0 <= i < |u.sched| ensures Distinct(u.sched[i].reqs) {
      if i < |n.sched| { assert Distinct(n.sched[i].reqs); }
    }
  }

  lemma TakenOnce(w: World, m: EpochMsg, order: seq<Req>)
    requires CalvinInv(w) && Enabled(w, Take(m, order)) && OnceAt(w.nodes[m.dest])
    ensures OnceAt(TakeAt(w.nodes[m.dest], m, order))
  {
    var n := w.nodes[m.dest];
    MsgIsComing(w, m);
    ArrivesInTime(w.shards, Sents(w), m.dest, n, m);
    CompletesInOrder(w.shards, Sents(w), m.dest, n, m);
    assert BatchesOk(w.sent, m.dest, n) && OpenOk(w.sent, m.dest, n, m.epoch);
    GatheredDistinct(w, n, m);
    TakeOnce(n, m, order);
  }

  /** A step that changes nothing of what is gathered and not scheduled yet. */
  lemma SameOnce(n: CNode, u: CNode)
    requires OnceAt(n) && u.sched == n.sched && forall e :: e > |n.sched| ==> BatchAt(u.s, e) == BatchAt(n.s, e)
    ensures OnceAt(u)
  {}

  lemma AckedOnce(w: World, a: Ack)
    requires CalvinInv(w) && Enabled(w, TakeAck(a)) && OnceAt(w.nodes[a.dest])
    ensures var n := w.nodes[a.dest]; OnceAt(n.(s := OnAck(n.s, a.src, a.epoch)))
  {
    var n := w.nodes[a.dest];
    AckedIsScheduled(w, a);
    AckErases(w.shards, a.dest, n, a.src, a.epoch);
    SameOnce(n, n.(s := OnAck(n.s, a.src, a.epoch)));
  }

  lemma OneMoves(w: World, d: World, at: Shard, u: CNode)
    requires OnceInv(w) && d.nodes == w.nodes[at := u] && OnceAt(u)
    ensures OnceInv(d)
  {}

  lemma QuietOnce(w: World, e: Event)
    requires OnceInv(w) && Enabled(w, e) && (e.Submit? || e.Tick? || e.Finish?)
    ensures OnceInv(Next(w, e))
  {
    var u := Next(w, e).nodes[e.at];
    SameOnce(w.nodes[e.at], u);
    OneMoves(w, Next(w, e), e.at, u);
  }

  lemma TakeMoves(w: World, m: EpochMsg, order: seq<Req>)
    requires OnceInv(w) && Enabled(w, Take(m, order)) && OnceAt(TakeAt(w.nodes[m.dest], m, order))
    ensures OnceInv(Next(w, Take(m, order)))
  {
    OneMoves(w, Next(w, Take(m, order)), m.dest, TakeAt(w.nodes[m.dest], m, order));
  }

  lemma AckMoves(w: World, a: Ack)
    requires OnceInv(w) && Enabled(w, TakeAck(a))
    requires var n := w.nodes[a.dest]; OnceAt(n.(s := OnAck(n.s, a.src, a.epoch)))
    ensures OnceInv(Next(w, TakeAck(a)))
  {
    OneMoves(w, Next(w, TakeAck(a)), a.dest, w.nodes[a.dest].(s := OnAck(w.nodes[a.dest].s, a.src, a.epoch)));
  }

  lemma NextKeepsOnce(w: World, e: Event)
    requires CalvinInv(w) && OnceInv(w) && Enabled(w, e)
    ensures OnceInv(Next(w, e))
  {
    match e
    case Take(m, order) =>
      TakenOnce(w, m, order);
      TakeMoves(w, m, order);
    case TakeAck(a) =>
      AckedOnce(w, a);
      AckMoves(w, a);
    case _ => QuietOnce(w, e);
  }

  lemma {:induction false} EveryRunOnce(shards: set<Shard>, es: seq<Event>)
    requires Legal(shards, es)
    ensures OnceInv(After(shards, es))
  {
    if es != [] {
      EveryRunOnce(shards, es[..|es| - 1]);
      EveryRunConserves(shards, es[..|es| - 1]);
      NextKeepsOnce(After(shards, es[..|es| - 1]), es[|es| - 1]);
    }
  }

  // ---------------------------------------------------------------- exactly once

  /** Transaction `x` has place `(i, p)` in the schedule. */
  predicate Placed(sched: seq<Sched>, x: Xid, i: int, p: int) {
    0 <= i < |sched| && 0 <= p < |sched[i].reqs| && sched[i].reqs[p].xid == x
  }

  lemma PlaceIsEpoch(w: World, m: EpochMsg, k: nat, i: nat, p: nat)
    requires CalvinInv(w) && m in w.sent && k < |m.reqs| && m.dest in w.nodes
    requires Placed(w.nodes[m.dest].sched, m.reqs[k].xid, i, p)
    ensures i + 1 == m.epoch
  {
    ScheduledWhenLeft(w, m.dest, i, p);
    assert m.reqs[k] in m.reqs;
    AddressedHasLeft(w, m.dest, m.epoch, m.reqs[k]);
  }

  lemma PlaceOf(w: World, m: EpochMsg, k: nat) returns (p: nat)
    requires CalvinInv(w) && m in w.sent && k < |m.reqs| && m.dest in w.nodes && 1 <= m.epoch <= |w.nodes[m.dest].sched|
    ensures var sched := w.nodes[m.dest].sched; p < |sched[m.epoch - 1].reqs| && sched[m.epoch - 1].reqs[p] == m.reqs[k]
  {
    var reqs := w.nodes[m.dest].sched[m.epoch - 1].reqs;
    assert BatchesOk(w.sent, m.dest, w.nodes[m.dest]);
    assert ScheduledOk(w.sent, m.dest, reqs, m.epoch - 1 + 1);
    assert m.reqs[k] in m.reqs;
    assert Addressed(w.sent, m.dest, m.epoch, m.reqs[k]);
    p :| 0 <= p < |reqs| && reqs[p] == m.reqs[k];
  }

  /** A request sent to a shard is scheduled there exactly when the epoch of its message is, in
      that epoch, with its operations, and its transaction has no other place in the schedule. */
  lemma ScheduledOnce(shards: set<Shard>, es: seq<Event>, m: EpochMsg, k: nat)
    requires Legal(shards, es) && m in After(shards, es).sent && k < |m.reqs|
    ensures m.dest in After(shards, es).nodes
    ensures var sched, r := After(shards, es).nodes[m.dest].sched, m.reqs[k];
      && ((exists i, p :: Placed(sched, r.xid, i, p)) <==> m.epoch <= |sched|)
      && (forall i, p :: Placed(sched, r.xid, i, p) ==> i + 1 == m.epoch && sched[i].reqs[p] == r)
      && (forall i, p, j, q :: Placed(sched, r.xid, i, p) && Placed(sched, r.xid, j, q) ==> i == j && p == q)
  {
    EveryRunConserves(shards, es);
    EveryRunOnce(shards, es);
    OncePlaced(After(shards, es), m, k);
  }

  lemma OncePlaced(w: World, m: EpochMsg, k: nat)
    requires CalvinInv(w) && OnceInv(w) && m in w.sent && k < |m.reqs|
    ensures m.dest in w.nodes
    ensures var sched, r := w.nodes[m.dest].sched, m.reqs[k];
      && ((exists i, p :: Placed(sched, r.xid, i, p)) <==> m.epoch <= |sched|)
      && (forall i, p :: Placed(sched, r.xid, i, p) ==> i + 1 == m.epoch && sched[i].reqs[p] == r)
      && (forall i, p, j, q :: Placed(sched, r.xid, i, p) && Placed(sched, r.xid, j, q) ==> i == j && p == q)
  {
    assert SentOk(w, m);
    var sched, r := w.nodes[m.dest].sched, m.reqs[k];
    assert OnceAt(w.nodes[m.dest]);
    forall i, p | Placed(sched, r.xid, i, p) ensures i + 1 == m.epoch { PlaceIsEpoch(w, m, k, i, p); }
    if m.epoch <= |sched| {
      var p := PlaceOf(w, m, k);
      OnePlace(sched, m.epoch - 1, p, r);
    }
  }

  lemma OnePlace(sched: seq<Sched>, e: nat, at: nat, r: Req)
    requires e < |sched| && at < |sched[e].reqs| && sched[e].reqs[at] == r && Distinct(sched[e].reqs)
    requires forall i, p :: Placed(sched, r.xid, i, p) ==> i == e
    ensures Placed(sched, r.xid, e, at) && forall i, p :: Placed(sched, r.xid, i, p) ==> i == e && p == at
  {
    forall i, p | Placed(sched, r.xid, i, p) ensures p == at {
      assert sched[e].reqs[p].xid == sched[e].reqs[at].xid;
    }
  }
}
