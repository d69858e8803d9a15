/** What the sequencers' messages contain: every operation goes out once, with all of
    its transaction in one epoch; so all shards run their transactions in one order. */
module CalvinOrder {
  import opened Calvin
  import opened CalvinRuns

  // ---------------------------------------------------------------- conservation

  ghost function Waiting(w: World, s: Shard, sh: Shard, x: Xid): seq<Op>
    requires s in w.nodes
  {
    Lookup(w.nodes[s].s.next, sh, x)
  }

  ghost predicate Mentions(m: EpochMsg, x: Xid) { exists i :: 0 <= i < |m.reqs| && m.reqs[i].xid == x }

  ghost predicate NeverSent(sent: set<EpochMsg>, x: Xid) { forall m :: m in sent ==> !Mentions(m, x) }

  /** Every message about `x` comes from its sequencer, in epoch `e`, and holds its operations for the destination. */
  ghost predicate OnlyParts(sent: set<EpochMsg>, x: Xid, t: Tx, e: nat) {
    forall m, i :: m in sent && 0 <= i < |m.reqs| && m.reqs[i].xid == x ==>
      m.src == t.home && m.epoch == e && m.reqs[i] == Req(x, t.home, OpsFor(t.ops, m.dest))
  }

  ghost predicate PartSent(sent: set<EpochMsg>, x: Xid, t: Tx, sh: Shard) {
    exists m :: m in sent && m.dest == sh && Req(x, t.home, OpsFor(t.ops, sh)) in m.reqs
  }

  /** A submitted transaction is wholly at its sequencer, or has wholly left in one epoch. */
  ghost predicate TxOk(w: World, x: Xid)
    requires x in w.used
  {
    var t := w.used[x];
    && t.home in w.nodes
    && (forall s, sh :: s in w.nodes ==>
          Waiting(w, s, sh, x) == if s == t.home && x !in w.left then OpsFor(t.ops, sh) else [])
    && (if x in w.left then
          && OnlyParts(w.sent, x, t, w.left[x])
          && forall sh :: sh in w.shards && OpsFor(t.ops, sh) != [] ==> PartSent(w.sent, x, t, sh)
        else NeverSent(w.sent, x))
  }

  ghost predicate UnusedOk(w: World, x: Xid) {
    x !in w.left && NeverSent(w.sent, x) && forall s, sh :: s in w.nodes ==> Waiting(w, s, sh, x) == []
  }

  ghost predicate SentOk(w: World, m: EpochMsg) {
    && m.src in w.nodes && m.dest in w.nodes && 1 <= m.epoch <= LastSent(w.nodes[m.src].s)
    && (forall i, j :: 0 <= i < j < |m.reqs| ==> m.reqs[i].xid < m.reqs[j].xid)
  }

  ghost predicate OnePerEpoch(sent: set<EpochMsg>) {
    forall m, v :: m in sent && v in sent && m.src == v.src && m.dest == v.dest && m.epoch == v.epoch ==> m == v
  }

  ghost predicate TxInv(w: World) {
    && (forall x :: x in w.used ==> TxOk(w, x))
    && (forall x :: x !in w.used ==> UnusedOk(w, x))
    && (forall m :: m in w.sent ==> SentOk(w, m)) && OnePerEpoch(w.sent)
    && (forall s :: s in w.nodes ==> NoneEmpty(w.nodes[s].s.next))
  }

  /** A step that touches neither what is collected nor what was sent. */
  lemma QuietKeepsTx(w: World, d: World)
    requires TxInv(w) && d.shards == w.shards && d.nodes.Keys == w.nodes.Keys && d.sent == w.sent && d.used == w.used
    requires d.left == w.left
    requires forall s :: s in w.nodes ==>
      d.nodes[s].s.next == w.nodes[s].s.next && LastSent(d.nodes[s].s) == LastSent(w.nodes[s].s)
    ensures TxInv(d)
  {
    forall x | x in d.used ensures TxOk(d, x) {
      assert TxOk(w, x);
      forall s, sh | s in d.nodes ensures Waiting(d, s, sh, x) == Waiting(w, s, sh, x) {}
    }
    forall x | x !in d.used ensures UnusedOk(d, x) {
      assert UnusedOk(w, x);
      forall s, sh | s in d.nodes ensures Waiting(d, s, sh, x) == Waiting(w, s, sh, x) {}
    }
    forall m | m in d.sent ensures SentOk(d, m) { assert SentOk(w, m); }
  }

  lemma SubmitWaiting(w: World, at: Shard, x: Xid, ops: seq<Op>, s: Shard, sh: Shard, y: Xid)
    requires Enabled(w, Submit(at, x, ops)) && s in w.nodes
    ensures Waiting(Next(w, Submit(at, x, ops)), s, sh, y) ==
      Waiting(w, s, sh, y) + if s == at && y == x then OpsFor(ops, sh) else []
  {
    if s == at { AcceptAdds(w.nodes[at].s.next, x, ops, sh, y); }
  }

  lemma SubmitKeepsTx(w: World, at: Shard, x: Xid, ops: seq<Op>)
    requires TxInv(w) && Enabled(w, Submit(at, x, ops))
    ensures TxInv(Next(w, Submit(at, x, ops)))
  {
    var d := Next(w, Submit(at, x, ops));
    forall y | y in d.used ensures TxOk(d, y) {
      if y == x { assert UnusedOk(w, x); } else { assert TxOk(w, y); }
      forall s, sh | s in d.nodes
        ensures Waiting(d, s, sh, y) == if s == d.used[y].home && y !in d.left then OpsFor(d.used[y].ops, sh) else []
      {
        SubmitWaiting(w, at, x, ops, s, sh, y);
      }
    }
    forall y | y !in d.used ensures UnusedOk(d, y) {
      assert UnusedOk(w, y);
      forall s, sh | s in d.nodes ensures Waiting(d, s, sh, y) == [] { SubmitWaiting(w, at, x, ops, s, sh, y); }
    }
    forall m | m in d.sent ensures SentOk(d, m) { assert SentOk(w, m); }
    AcceptKeepsNoneEmpty(w.nodes[at].s.next, x, ops);
  }

  /** What goes out about `x` is what was collected for it. */
  lemma TickParts(next: Collected, out: set<EpochMsg>, at: Shard, shards: set<Shard>, e: nat, x: Xid)
    requires OneEach(out, at, shards, e, next) && NoneEmpty(next)
    ensures forall m, i :: m in out && 0 <= i < |m.reqs| && m.reqs[i].xid == x ==>
      m.reqs[i] == Req(x, at, Lookup(next, m.dest, x)) && Lookup(next, m.dest, x) != []
    ensures forall sh :: sh in shards && Lookup(next, sh, x) != [] ==>
      exists m :: m in out && m.dest == sh && Req(x, at, Lookup(next, sh, x)) in m.reqs
  {
    forall m, i | m in out && 0 <= i < |m.reqs| && m.reqs[i].xid == x
      ensures m.reqs[i] == Req(x, at, Lookup(next, m.dest, x)) && Lookup(next, m.dest, x) != []
    {
      assert Lists(m.reqs, at, PartFor(next, m.dest));
    }
    forall sh | sh in shards && Lookup(next, sh, x) != []
      ensures exists m :: m in out && m.dest == sh && Req(x, at, Lookup(next, sh, x)) in m.reqs
    {
      var m :| m in out && m.dest == sh;
      assert Lists(m.reqs, at, PartFor(next, sh));
      var i :| 0 <= i < |m.reqs| && m.reqs[i].xid == x;
      assert m.reqs[i] == Req(x, at, Lookup(next, sh, x));
    }
  }

  /** Nothing about a transaction that is not waiting here goes out. */
  lemma TickSilent(next: Collected, out: set<EpochMsg>, at: Shard, shards: set<Shard>, e: nat, x: Xid)
    requires OneEach(out, at, shards, e, next) && NoneEmpty(next) && forall sh :: Lookup(next, sh, x) == []
    ensures NeverSent(out, x)
  {
    TickParts(next, out, at, shards, e, x);
  }

  lemma TickTx(w: World, at: Shard, out: set<EpochMsg>, x: Xid)
    requires at in w.nodes && x in w.used && TxOk(w, x) && NoneEmpty(w.nodes[at].s.next) && Enabled(w, Tick(at, out))
    requires w.nodes.Keys == w.shards
    ensures TxOk(Next(w, Tick(at, out)), x)
  {
    var d, n, t := Next(w, Tick(at, out)), w.nodes[at], w.used[x];
    forall s, sh | s in d.nodes ensures Waiting(d, s, sh, x) == if s == at then [] else Waiting(w, s, sh, x) {}
    if t.home == at && x !in w.left {
      forall sh ensures Lookup(n.s.next, sh, x) == OpsFor(t.ops, sh) {
        assert Waiting(w, at, sh, x) == OpsFor(t.ops, sh);
      }
      TickParts(n.s.next, out, at, w.shards, n.s.epoch, x);
      TickLeaves(w.sent, out, x, t, n.s.epoch);
      forall sh | sh in d.shards && OpsFor(t.ops, sh) != [] ensures PartSent(d.sent, x, t, sh) {
        var m :| m in out && m.dest == sh && Req(x, at, Lookup(n.s.next, sh, x)) in m.reqs;
        assert m in d.sent;
      }
    } else {
      forall sh ensures Lookup(n.s.next, sh, x) == [] { assert Waiting(w, at, sh, x) == []; }
      TickSilent(n.s.next, out, at, w.shards, n.s.epoch, x);
      TickStays(w, out, x);
    }
  }

  lemma TickLeaves(sent: set<EpochMsg>, out: set<EpochMsg>, x: Xid, t: Tx, e: nat)
    requires NeverSent(sent, x) && forall m :: m in out ==> m.src == t.home && m.epoch == e
    requires forall m, i :: m in out && 0 <= i < |m.reqs| && m.reqs[i].xid == x ==>
      m.reqs[i] == Req(x, t.home, OpsFor(t.ops, m.dest))
    ensures OnlyParts(sent + out, x, t, e)
  {
    forall m, i | m in sent + out && 0 <= i < |m.reqs| && m.reqs[i].xid == x
      ensures m.src == t.home && m.epoch == e && m.reqs[i] == Req(x, t.home, OpsFor(t.ops, m.dest))
    {
      if m in sent { assert Mentions(m, x); assert false; }
    }
  }

  lemma TickStays(w: World, out: set<EpochMsg>, x: Xid)
    requires x in w.used && TxOk(w, x) && NeverSent(out, x)
    ensures x in w.left ==> OnlyParts(w.sent + out, x, w.used[x], w.left[x])
    ensures x in w.left ==> forall sh :: sh in w.shards && OpsFor(w.used[x].ops, sh) != [] ==>
      PartSent(w.sent + out, x, w.used[x], sh)
    ensures x !in w.left ==> NeverSent(w.sent + out, x)
  {
    if x in w.left {
      forall m, i | m in w.sent + out && 0 <= i < |m.reqs| && m.reqs[i].xid == x
        ensures m.src == w.used[x].home && m.epoch == w.left[x]
        ensures m.reqs[i] == Req(x, w.used[x].home, OpsFor(w.used[x].ops, m.dest))
      {
        assert Mentions(m, x);
      }
      forall sh | sh in w.shards && OpsFor(w.used[x].ops, sh) != [] ensures PartSent(w.sent + out, x, w.used[x], sh) {
        assert PartSent(w.sent, x, w.used[x], sh);
        var m :| m in w.sent && m.dest == sh && Req(x, w.used[x].home, OpsFor(w.used[x].ops, sh)) in m.reqs;
        assert m in w.sent + out;
      }
    }
  }

  lemma TickKeepsTx(w: World, at: Shard, out: set<EpochMsg>)
    requires TxInv(w) && w.nodes.Keys == w.shards && Enabled(w, Tick(at, out)) && w.nodes[at].s.epoch >= 1
    ensures TxInv(Next(w, Tick(at, out)))
  {
    var d := Next(w, Tick(at, out));
    forall x | x in d.used ensures TxOk(d, x) { TickTx(w, at, out, x); }
    forall x | x !in d.used ensures UnusedOk(d, x) { TickUnused(w, at, out, x); }
    TickSent(w, at, out);
  }

  lemma TickUnused(w: World, at: Shard, out: set<EpochMsg>, x: Xid)
    requires UnusedOk(w, x) && Enabled(w, Tick(at, out)) && NoneEmpty(w.nodes[at].s.next) && x !in w.used
    ensures UnusedOk(Next(w, Tick(at, out)), x)
  {
    var d, n := Next(w, Tick(at, out)), w.nodes[at];
    forall sh ensures Lookup(n.s.next, sh, x) == [] { assert Waiting(w, at, sh, x) == []; }
    TickSilent(n.s.next, out, at, w.shards, n.s.epoch, x);
    forall s, sh | s in d.nodes ensures Waiting(d, s, sh, x) == [] { assert Waiting(w, s, sh, x) == []; }
  }

  lemma TickSent(w: World, at: Shard, out: set<EpochMsg>)
    requires w.nodes.Keys == w.shards && Enabled(w, Tick(at, out)) && w.nodes[at].s.epoch >= 1
    requires (forall m :: m in w.sent ==> SentOk(w, m)) && OnePerEpoch(w.sent)
    ensures var d := Next(w, Tick(at, out)); (forall m :: m in d.sent ==> SentOk(d, m)) && OnePerEpoch(d.sent)
  {
    var d, n := Next(w, Tick(at, out)), w.nodes[at];
    forall m | m in d.sent ensures SentOk(d, m) {
      if m in out { assert Lists(m.reqs, at, PartFor(n.s.next, m.dest)); } else { assert SentOk(w, m); }
    }
    forall m | m in w.sent ensures !(m.src == at && m.epoch == n.s.epoch) { assert SentOk(w, m); }
  }

  // ---------------------------------------------------------------- batches

  /** The request is in a message of epoch `e` that has arrived at `d`. */
  ghost predicate Came(sent: set<EpochMsg>, got: set<Arrival>, d: Shard, e: nat, r: Req) {
    exists m :: m in sent && m.dest == d && m.epoch == e && Arrival(m.src, e) in got && r in m.reqs
  }

  ghost predicate Addressed(sent: set<EpochMsg>, d: Shard, e: nat, r: Req) {
    exists m :: m in sent && m.dest == d && m.epoch == e && r in m.reqs
  }

  /** An epoch not scheduled yet holds what has arrived of it. */
  ghost predicate OpenOk(sent: set<EpochMsg>, d: Shard, n: CNode, e: nat) {
    forall r :: r in BatchAt(n.s, e).reqs <==> Came(sent, n.got, d, e, r)
  }

  /** A scheduled epoch is sorted and holds all that was sent in it. */
  ghost predicate ScheduledOk(sent: set<EpochMsg>, d: Shard, reqs: seq<Req>, e: nat) {
    SortedByXid(reqs) && forall r :: r in reqs <==> Addressed(sent, d, e, r)
  }

  ghost predicate BatchesOk(sent: set<EpochMsg>, d: Shard, n: CNode) {
    && (forall e :: e > |n.sched| ==> OpenOk(sent, d, n, e))
    && (forall i :: 0 <= i < |n.sched| ==> ScheduledOk(sent, d, n.sched[i].reqs, i + 1))
  }

  ghost predicate BatchInv(w: World) {
    (forall d :: d in w.nodes ==> BatchesOk(w.sent, d, w.nodes[d])) && forall m :: m in w.net ==> m in w.sent
  }

  lemma SameBatches(sent: set<EpochMsg>, d: Shard, n: CNode, u: CNode)
    requires BatchesOk(sent, d, n) && u.sched == n.sched && u.got == n.got
    requires forall e :: e > |n.sched| ==> BatchAt(u.s, e) == BatchAt(n.s, e)
    ensures BatchesOk(sent, d, u)
  {
    forall e | e > |u.sched| ensures OpenOk(sent, d, u, e) { assert OpenOk(sent, d, n, e); }
    forall i | 0 <= i < |u.sched| ensures ScheduledOk(sent, d, u.sched[i].reqs, i + 1) {
      assert ScheduledOk(sent, d, n.sched[i].reqs, i + 1);
    }
  }

  /** What came, with one more message arrived. */
  lemma CameMore(sent: set<EpochMsg>, got: set<Arrival>, m: EpochMsg, r: Req)
    requires m in sent && OnePerEpoch(sent)
    ensures Came(sent, got + {Arrival(m.src, m.epoch)}, m.dest, m.epoch, r) <==>
      Came(sent, got, m.dest, m.epoch, r) || r in m.reqs
  {
    var more := got + {Arrival(m.src, m.epoch)};
    if Came(sent, more, m.dest, m.epoch, r) {
      var v :| v in sent && v.dest == m.dest && v.epoch == m.epoch && Arrival(v.src, m.epoch) in more && r in v.reqs;
      if Arrival(v.src, m.epoch) !in got { assert v == m; }
    }
    if Came(sent, got, m.dest, m.epoch, r) {
      var v :| v in sent && v.dest == m.dest && v.epoch == m.epoch && Arrival(v.src, m.epoch) in got && r in v.reqs;
      assert Arrival(v.src, m.epoch) in more;
    }
    if r in m.reqs { assert Arrival(m.src, m.epoch) in more; }
  }

  lemma CameOther(sent: set<EpochMsg>, got: set<Arrival>, a: Arrival, d: Shard, e: nat, r: Req)
    requires a.epoch != e
    ensures Came(sent, got + {a}, d, e, r) <==> Came(sent, got, d, e, r)
  {
    if Came(sent, got, d, e, r) {
      var v :| v in sent && v.dest == d && v.epoch == e && Arrival(v.src, e) in got && r in v.reqs;
      assert Arrival(v.src, e) in got + {a};
    }
  }

  lemma GatheredOk(sent: set<EpochMsg>, d: Shard, n: CNode, m: EpochMsg, r: Req)
    requires m in sent && OnePerEpoch(sent) && OpenOk(sent, d, n, m.epoch) && m.dest == d
    ensures r in Gathered(n.s, m.src, m.epoch, m.reqs).reqs <==>
      Came(sent, n.got + {Arrival(m.src, m.epoch)}, d, m.epoch, r)
  {
    CameMore(sent, n.got, m, r);
    assert r in BatchAt(n.s, m.epoch).reqs <==> Came(sent, n.got, d, m.epoch, r);
  }

  lemma TakeOpen(sent: set<EpochMsg>, d: Shard, n: CNode, m: EpochMsg, order: seq<Req>, e: nat)
    requires m in sent && OnePerEpoch(sent) && m.dest == d && BatchesOk(sent, d, n) && e > |n.sched|
    requires m.epoch > |n.sched|
    requires m.src !in BatchAt(n.s, m.epoch).from && (e == m.epoch ==> !Completes(n.s, m.src, m.epoch))
    ensures OpenOk(sent, d, TakeAt(n, m, order), e)
  {
    var u := TakeAt(n, m, order);
    assert OpenOk(sent, d, n, e);
    forall r ensures r in BatchAt(u.s, e).reqs <==> Came(sent, u.got, d, e, r) {
      if e == m.epoch {
        GatheredOk(sent, d, n, m, r);
      } else {
        CameOther(sent, n.got, Arrival(m.src, m.epoch), d, e, r);
      }
    }
  }

  lemma TakeScheduled(sent: set<EpochMsg>, shards: set<Shard>, d: Shard, n: CNode, m: EpochMsg, order: seq<Req>)
    requires m in sent && OnePerEpoch(sent) && m.dest == d && OpenOk(sent, d, n, m.epoch)
    requires Ordered(order, Gathered(n.s, m.src, m.epoch, m.reqs).reqs)
    requires AllArrived(shards, n.got + {Arrival(m.src, m.epoch)}, m.epoch) && forall v :: v in sent ==> v.src in shards
    ensures ScheduledOk(sent, d, order, m.epoch)
  {
    var got, reqs := n.got + {Arrival(m.src, m.epoch)}, Gathered(n.s, m.src, m.epoch, m.reqs).reqs;
    forall r ensures r in order <==> Addressed(sent, d, m.epoch, r) {
      assert r in order <==> r in multiset(order);
      assert r in reqs <==> r in multiset(reqs);
      GatheredOk(sent, d, n, m, r);
      if Addressed(sent, d, m.epoch, r) {
        var v :| v in sent && v.dest == d && v.epoch == m.epoch && r in v.reqs;
        assert Arrival(v.src, m.epoch) in got;
      }
    }
  }

  lemma TakeBatches(w: World, m: EpochMsg, order: seq<Req>)
    requires EpochInv(w) && TxInv(w) && BatchInv(w) && Enabled(w, Take(m, order))
    ensures BatchesOk(w.sent, m.dest, TakeAt(w.nodes[m.dest], m, order))
  {
    var n, d := w.nodes[m.dest], m.dest;
    MsgIsComing(w, m);
    ArrivesInTime(w.shards, Sents(w), d, n, m);
    CompletesInOrder(w.shards, Sents(w), d, n, m);
    forall v | v in w.sent ensures v.src in w.shards { assert SentOk(w, v); }
    TakeBatch(w.sent, w.shards, d, n, m, order);
  }

  lemma TakeBatch(sent: set<EpochMsg>, shards: set<Shard>, d: Shard, n: CNode, m: EpochMsg, order: seq<Req>)
    requires m in sent && OnePerEpoch(sent) && m.dest == d && BatchesOk(sent, d, n) && m.epoch > |n.sched|
    requires m.src !in BatchAt(n.s, m.epoch).from && forall v :: v in sent ==> v.src in shards
    requires Completes(n.s, m.src, m.epoch) ==>
      && m.epoch == |n.sched| + 1 && AllArrived(shards, n.got + {Arrival(m.src, m.epoch)}, m.epoch)
      && Ordered(order, Gathered(n.s, m.src, m.epoch, m.reqs).reqs)
    ensures BatchesOk(sent, d, TakeAt(n, m, order))
  {
    var u := TakeAt(n, m, order);
    assert OpenOk(sent, d, n, m.epoch);
    if Completes(n.s, m.src, m.epoch) { TakeScheduled(sent, shards, d, n, m, order); }
    forall e | e > |u.sched| ensures OpenOk(sent, d, u, e) { TakeOpen(sent, d, n, m, order, e); }
    forall i | 0 <= i < |u.sched| ensures ScheduledOk(sent, d, u.sched[i].reqs, i + 1) {
      if i < |n.sched| { assert ScheduledOk(sent, d, n.sched[i].reqs, i + 1); }
    }
  }

  /** New messages are of an epoch that nobody has scheduled and that has arrived nowhere. */
  lemma MoreSent(sent: set<EpochMsg>, out: set<EpochMsg>, d: Shard, n: CNode, at: Shard, f: nat)
    requires BatchesOk(sent, d, n) && (forall m :: m in out ==> m.src == at && m.epoch == f)
    requires f > |n.sched| && Arrival(at, f) !in n.got
    ensures BatchesOk(sent + out, d, n)
  {
    forall e | e > |n.sched| ensures OpenOk(sent + out, d, n, e) {
      assert OpenOk(sent, d, n, e);
      forall r ensures Came(sent + out, n.got, d, e, r) <==> Came(sent, n.got, d, e, r) {
        if Came(sent, n.got, d, e, r) {
          var m :| m in sent && m.dest == d && m.epoch == e && Arrival(m.src, e) in n.got && r in m.reqs;
          assert m in sent + out;
        }
      }
    }
    forall i | 0 <= i < |n.sched| ensures ScheduledOk(sent + out, d, n.sched[i].reqs, i + 1) {
      MoreScheduled(sent, out, d, n.sched[i].reqs, i + 1);
    }
  }

  lemma MoreScheduled(sent: set<EpochMsg>, out: set<EpochMsg>, d: Shard, reqs: seq<Req>, e: nat)
    requires ScheduledOk(sent, d, reqs, e) && forall m :: m in out ==> m.epoch != e
    ensures ScheduledOk(sent + out, d, reqs, e)
  {
    forall r ensures Addressed(sent + out, d, e, r) <==> Addressed(sent, d, e, r) {
      if Addressed(sent, d, e, r) {
        var m :| m in sent && m.dest == d && m.epoch == e && r in m.reqs;
        assert m in sent + out;
      }
    }
  }

  lemma TickNotYet(w: World, at: Shard, d: Shard)
    requires EpochInv(w) && at in w.nodes && d in w.nodes
    ensures w.nodes[at].s.epoch > |w.nodes[d].sched| && Arrival(at, w.nodes[at].s.epoch) !in w.nodes[d].got
    ensures w.nodes[at].s.epoch >= 1
  {
    assert NodeOk(w.shards, Sents(w), d, w.nodes[d]) && NodeOk(w.shards, Sents(w), at, w.nodes[at]);
    if |w.nodes[d].sched| >= 1 { ScheduledWasSent(w.shards, Sents(w), d, w.nodes[d], at, |w.nodes[d].sched|); }
  }

  lemma TickBatch(w: World, at: Shard, out: set<EpochMsg>, d: Shard)
    requires EpochInv(w) && at in w.nodes && d in w.nodes && BatchesOk(w.sent, d, w.nodes[d])
    requires forall m :: m in out ==> m.src == at && m.epoch == w.nodes[at].s.epoch
    ensures BatchesOk(w.sent + out, d, w.nodes[d])
  {
    TickNotYet(w, at, d);
    MoreSent(w.sent, out, d, w.nodes[d], at, w.nodes[at].s.epoch);
  }

  lemma TickBatches(w: World, at: Shard, out: set<EpochMsg>)
    requires EpochInv(w) && BatchInv(w) && Enabled(w, Tick(at, out))
    ensures BatchInv(Next(w, Tick(at, out)))
  {
    forall d | d in w.nodes ensures BatchesOk(w.sent + out, d, w.nodes[d]) { TickBatch(w, at, out, d); }
    SameBatches(w.sent + out, at, w.nodes[at], w.nodes[at].(s := Broadcast(w.nodes[at].s)));
    TickedBatches(w, Next(w, Tick(at, out)), at, out);
  }

  lemma TickedBatches(w: World, d: World, at: Shard, out: set<EpochMsg>)
    requires (forall i :: i in w.nodes ==> BatchesOk(w.sent + out, i, w.nodes[i]))
    requires (forall m :: m in w.net ==> m in w.sent)
    requires at in w.nodes && at in d.nodes && d.nodes == w.nodes[at := d.nodes[at]]
    requires BatchesOk(w.sent + out, at, d.nodes[at])
    requires d.sent == w.sent + out && d.net == w.net + multiset(out)
    ensures BatchInv(d)
  {}

  /** What becomes done with an acknowledgement has been scheduled. */
  lemma AckedIsScheduled(w: World, a: Ack)
    requires EpochInv(w) && a in w.acks && a.dest in w.nodes
    ensures var n := w.nodes[a.dest];
      SeqrOk(w.shards, a.dest, n.s) && LastDone(OnAck(n.s, a.src, a.epoch)) <= |n.sched|
  {
    var n := w.nodes[a.dest];
    assert NodeOk(w.shards, Sents(w), a.dest, n);
    AckStep(w.shards, Sents(w), a.dest, n, a.src, a.epoch);
    AckFollows(w, a, OnAck(n.s, a.src, a.epoch));
    assert Follows(OnAck(n.s, a.src, a.epoch), a.dest, n);
  }

  lemma AckBatches(w: World, a: Ack)
    requires EpochInv(w) && BatchInv(w) && Enabled(w, TakeAck(a))
    ensures BatchInv(Next(w, TakeAck(a)))
  {
    var n := w.nodes[a.dest];
    AckedIsScheduled(w, a);
    AckErases(w.shards, a.dest, n, a.src, a.epoch);
    SameBatches(w.sent, a.dest, n, n.(s := OnAck(n.s, a.src, a.epoch)));
    OneBatchMoves(w, Next(w, TakeAck(a)), a.dest);
  }

  lemma OneBatchMoves(w: World, d: World, at: Shard)
    requires BatchInv(w) && at in w.nodes && at in d.nodes && d.nodes == w.nodes[at := d.nodes[at]] && d.sent == w.sent
    requires d.net <= w.net
    requires BatchesOk(d.sent, at, d.nodes[at])
    ensures BatchInv(d)
  {}

  lemma AckErases(shards: set<Shard>, id: Shard, n: CNode, src: Shard, e: nat)
    requires SeqrOk(shards, id, n.s) && LastDone(OnAck(n.s, src, e)) <= |n.sched|
    ensures forall f :: f > |n.sched| ==> BatchAt(OnAck(n.s, src, e), f) == BatchAt(n.s, f)
  {
    if e in n.s.local { AckIsCurrent(shards, id, n.s, e); }
  }

  // ---------------------------------------------------------------- whole runs

  lemma QuietBatches(w: World, e: Event)
    requires BatchInv(w) && Enabled(w, e) && (e.Submit? || e.Finish?)
    ensures BatchInv(Next(w, e))
  {
    SameBatches(w.sent, e.at, w.nodes[e.at], Next(w, e).nodes[e.at]);
    OneBatchMoves(w, Next(w, e), e.at);
  }

  lemma TakeKeepsBatches(w: World, m: EpochMsg, order: seq<Req>)
    requires BatchInv(w) && Enabled(w, Take(m, order)) && BatchesOk(w.sent, m.dest, TakeAt(w.nodes[m.dest], m, order))
    ensures BatchInv(Next(w, Take(m, order)))
  {
    OneBatchMoves(w, Next(w, Take(m, order)), m.dest);
  }

  lemma NextKeepsBatches(w: World, e: Event)
    requires EpochInv(w) && TxInv(w) && BatchInv(w) && Enabled(w, e)
    ensures BatchInv(Next(w, e))
  {
    match e
    case Tick(at, out) => TickBatches(w, at, out);
    case Take(m, order) => TakeBatches(w, m, order); TakeKeepsBatches(w, m, order);
    case TakeAck(a) => AckBatches(w, a);
    case _ => QuietBatches(w, e);
  }

  lemma TakeKeepsTx(w: World, m: EpochMsg, order: seq<Req>)
    requires TxInv(w) && Enabled(w, Take(m, order))
    ensures TxInv(Next(w, Take(m, order)))
  {
    TakeShape(w.nodes[m.dest], m, order);
    QuietKeepsTx(w, Next(w, Take(m, order)));
  }

  lemma AckKeepsTx(w: World, a: Ack)
    requires TxInv(w) && Enabled(w, TakeAck(a))
    ensures TxInv(Next(w, TakeAck(a)))
  {
    QuietKeepsTx(w, Next(w, TakeAck(a)));
  }

  lemma FinishKeepsTx(w: World, at: Shard, f: nat)
    requires TxInv(w) && Enabled(w, Finish(at, f))
    ensures TxInv(Next(w, Finish(at, f)))
  {
    QuietKeepsTx(w, Next(w, Finish(at, f)));
  }

  lemma NextKeepsTx(w: World, e: Event)
    requires EpochInv(w) && TxInv(w) && Enabled(w, e)
    ensures TxInv(Next(w, e))
  {
    match e
    case Submit(at, x, ops) => SubmitKeepsTx(w, at, x, ops);
    case Tick(at, out) => TickNotYet(w, at, at); TickKeepsTx(w, at, out);
    case Take(m, order) => TakeKeepsTx(w, m, order);
    case TakeAck(a) => AckKeepsTx(w, a);
    case Finish(at, f) => FinishKeepsTx(w, at, f);
  }

  ghost predicate CalvinInv(w: World) { EpochInv(w) && TxInv(w) && BatchInv(w) }

  lemma {:induction false} EveryRunConserves(shards: set<Shard>, es: seq<Event>)
    requires Legal(shards, es)
    ensures CalvinInv(After(shards, es)) && After(shards, es).shards == shards
  {
    EveryRunInOrder(shards, es);
    if es != [] {
      var w := After(shards, es[..|es| - 1]);
      EveryRunConserves(shards, es[..|es| - 1]);
      NextKeepsTx(w, es[|es| - 1]);
      NextKeepsBatches(w, es[|es| - 1]);
    }
  }

  /** A submitted transaction's operations for a shard wait at its sequencer, or were sent
      to that shard, in order and by one message only; all its messages are of one epoch. */
  lemma Conservation(shards: set<Shard>, es: seq<Event>, x: Xid, sh: Shard)
    requires Legal(shards, es) && x in After(shards, es).used && sh in shards
    ensures var w := After(shards, es); var t := w.used[x];
      && t.home in w.nodes
      && (x !in w.left ==> Waiting(w, t.home, sh, x) == OpsFor(t.ops, sh) && NeverSent(w.sent, x))
      && (x in w.left ==> Waiting(w, t.home, sh, x) == [] && OnlyParts(w.sent, x, t, w.left[x]))
      && (x in w.left && OpsFor(t.ops, sh) != [] ==> PartSent(w.sent, x, t, sh))
      && (forall m, v :: m in w.sent && v in w.sent && m.dest == v.dest == sh && Mentions(m, x) && Mentions(v, x) ==>
            m == v)
  {
    EveryRunConserves(shards, es);
    var w := After(shards, es);
    assert TxOk(w, x);
    assert Waiting(w, w.used[x].home, sh, x) == if x !in w.left then OpsFor(w.used[x].ops, sh) else [];
  }

  /** A transaction is scheduled, wherever it is, in the epoch it left its sequencer in. */
  lemma ScheduledWhenLeft(w: World, d: Shard, i: nat, p: nat)
    requires CalvinInv(w) && d in w.nodes && i < |w.nodes[d].sched| && p < |w.nodes[d].sched[i].reqs|
    ensures var x := w.nodes[d].sched[i].reqs[p].xid; x in w.left && w.left[x] == i + 1
  {
    var r := w.nodes[d].sched[i].reqs[p];
    assert BatchesOk(w.sent, d, w.nodes[d]);
    assert ScheduledOk(w.sent, d, w.nodes[d].sched[i].reqs, i + 1);
    assert r in w.nodes[d].sched[i].reqs;
    AddressedHasLeft(w, d, i + 1, r);
  }

  lemma AddressedHasLeft(w: World, d: Shard, e: nat, r: Req)
    requires TxInv(w) && Addressed(w.sent, d, e, r)
    ensures r.xid in w.left && w.left[r.xid] == e
  {
    var m :| m in w.sent && m.dest == d && m.epoch == e && r in m.reqs;
    var k :| 0 <= k < |m.reqs| && m.reqs[k] == r;
    assert Mentions(m, r.xid);
    assert r.xid in w.used || UnusedOk(w, r.xid);
    assert TxOk(w, r.xid);
  }

  /** Place `(i, p)` of a schedule comes before place `(j, q)`. */
  predicate Before(i: nat, p: nat, j: nat, q: nat) { i < j || (i == j && p < q) }

  /** Two sorted batches order two transactions alike. */
  lemma BatchesAgree(us: seq<Req>, vs: seq<Req>, p: nat, q: nat, r: nat, s: nat)
    requires SortedByXid(us) && SortedByXid(vs) && p < |us| && q < |us| && r < |vs| && s < |vs|
    requires us[p].xid == vs[r].xid && us[q].xid == vs[s].xid && us[p].xid != us[q].xid
    ensures p < q <==> r < s
  {}

  /** Both transactions are scheduled in the same epochs at both shards. */
  lemma SameEpochs(w: World, a: Shard, b: Shard, i: nat, p: nat, k: nat, r: nat)
    requires CalvinInv(w) && a in w.nodes && b in w.nodes && i < |w.nodes[a].sched| && p < |w.nodes[a].sched[i].reqs|
    requires k < |w.nodes[b].sched| && r < |w.nodes[b].sched[k].reqs|
    requires w.nodes[a].sched[i].reqs[p].xid == w.nodes[b].sched[k].reqs[r].xid
    ensures i == k && SortedByXid(w.nodes[a].sched[i].reqs) && SortedByXid(w.nodes[b].sched[k].reqs)
  {
    ScheduledWhenLeft(w, a, i, p);
    ScheduledWhenLeft(w, b, k, r);
    SortedBatch(w, a, i);
    SortedBatch(w, b, k);
  }

  /** Two transactions that meet at two shards are scheduled in the same order at both. */
  lemma SameOrderEverywhere(shards: set<Shard>, es: seq<Event>, a: Shard, b: Shard,
                            i: nat, p: nat, j: nat, q: nat, k: nat, r: nat, l: nat, s: nat)
    requires Legal(shards, es) && a in After(shards, es).nodes && b in After(shards, es).nodes
    requires var u, v := After(shards, es).nodes[a].sched, After(shards, es).nodes[b].sched;
      && i < |u| && p < |u[i].reqs| && j < |u| && q < |u[j].reqs| && k < |v| && r < |v[k].reqs| && l < |v|
      && s < |v[l].reqs|
      && u[i].reqs[p].xid == v[k].reqs[r].xid && u[j].reqs[q].xid == v[l].reqs[s].xid
      && u[i].reqs[p].xid != u[j].reqs[q].xid
    ensures Before(i, p, j, q) <==> Before(k, r, l, s)
  {
    EveryRunConserves(shards, es);
    var w := After(shards, es);
    SameEpochs(w, a, b, i, p, k, r);
    SameEpochs(w, a, b, j, q, l, s);
    if i == j { BatchesAgree(w.nodes[a].sched[i].reqs, w.nodes[b].sched[k].reqs, p, q, r, s); }
  }

  lemma SortedBatch(w: World, d: Shard, i: nat)
    requires CalvinInv(w) && d in w.nodes && i < |w.nodes[d].sched|
    ensures SortedByXid(w.nodes[d].sched[i].reqs)
  {
    assert BatchesOk(w.sent, d, w.nodes[d]);
    assert ScheduledOk(w.sent, d, w.nodes[d].sched[i].reqs, i + 1);
  }
}
