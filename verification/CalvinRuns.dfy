/** One sequencer per shard, with messages delivered at most once and in any order.
    The scheduler acknowledges an epoch to all shards at some point after the epoch
    was scheduled, or never. */
module CalvinRuns {
  import opened Calvin

  datatype Ack = Ack(src: Shard, dest: Shard, epoch: nat)

  datatype Arrival = Arrival(src: Shard, epoch: nat)

  datatype Sched = Sched(epoch: nat, reqs: seq<Req>)

  /** `owed`: epochs scheduled and not acknowledged yet.  `got` and `sched` record the
      messages that came in and what was scheduled, in order. */
  datatype CNode = CNode(s: Seqr, owed: set<nat>, got: set<Arrival>, sched: seq<Sched>)

  datatype Tx = Tx(home: Shard, ops: seq<Op>)

  /** `sent`, `used` and `left` are history: all messages sent, all transactions
      submitted, and the epoch each has left its sequencer in. */
  datatype World = World(
    shards: set<Shard>, nodes: map<Shard, CNode>, net: multiset<EpochMsg>, acks: multiset<Ack>,
    sent: set<EpochMsg>, used: map<Xid, Tx>, left: map<Xid, nat>)

  datatype Event =
    | Submit(at: Shard, xid: Xid, ops: seq<Op>)
    | Tick(at: Shard, out: set<EpochMsg>)
    | Take(msg: EpochMsg, order: seq<Req>)
    | TakeAck(ack: Ack)
    | Finish(at: Shard, epoch: nat)

  function StartWorld(shards: set<Shard>): World {
    World(shards, map sh | sh in shards :: CNode(StartSeqr(sh, shards), {}, {}, []), multiset{}, multiset{}, {}, map[],
        map[])
  }

  /** Transaction numbers are not used twice; the sort may put equal numbers in any order. */
  ghost predicate Enabled(w: World, e: Event) {
    match e
    case Submit(at, x, ops) => at in w.nodes && x !in w.used
    case Tick(at, out) => at in w.nodes && !w.nodes[at].s.pending
      && OneEach(out, at, w.shards, w.nodes[at].s.epoch, w.nodes[at].s.next)
    case Take(m, order) =>
      && m in w.net && m.dest in w.nodes
      && (Completes(w.nodes[m.dest].s, m.src, m.epoch) ==>
            Ordered(order, Gathered(w.nodes[m.dest].s, m.src, m.epoch, m.reqs).reqs))
    case TakeAck(a) => a in w.acks && a.dest in w.nodes
    case Finish(at, e) => at in w.nodes && e in w.nodes[at].owed
  }

  function TakeAt(n: CNode, m: EpochMsg, order: seq<Req>): CNode {
    var t := n.(s := OnEpoch(n.s, m.src, m.epoch, m.reqs, order), got := n.got + {Arrival(m.src, m.epoch)});
    if Completes(n.s, m.src, m.epoch) then t.(owed := n.owed + {m.epoch}, sched := n.sched + [Sched(m.epoch, order)])
    else t
  }

  ghost function Next(w: World, e: Event): World
    requires Enabled(w, e)
  {
    match e
    case Submit(at, x, ops) =>
      w.(nodes := w.nodes[at := w.nodes[at].(s := w.nodes[at].s.(next := Accept(w.nodes[at].s.next, x, ops)))],
         used := w.used[x := Tx(at, ops)])
    case Tick(at, out) =>
      w.(nodes := w.nodes[at := w.nodes[at].(s := Broadcast(w.nodes[at].s))],
         net := w.net + multiset(out), sent := w.sent + out,
         left := w.left + (map x | x in w.used && w.used[x].home == at && x !in w.left :: w.nodes[at].s.epoch))
    case Take(m, order) =>
      w.(nodes := w.nodes[m.dest := TakeAt(w.nodes[m.dest], m, order)], net := w.net - multiset{m})
    case TakeAck(a) =>
      w.(nodes := w.nodes[a.dest := w.nodes[a.dest].(s := OnAck(w.nodes[a.dest].s, a.src, a.epoch))],
          acks := w.acks - multiset{a})
    case Finish(at, e) =>
      w.(nodes := w.nodes[at := w.nodes[at].(owed := w.nodes[at].owed - {e})],
         acks := w.acks + multiset(set sh | sh in w.shards :: Ack(at, sh, e)))
  }

  ghost predicate Legal(shards: set<Shard>, es: seq<Event>)
    decreases |es|, 0
  {
    es != [] ==> Legal(shards, es[..|es| - 1]) && Enabled(After(shards, es[..|es| - 1]), es[|es| - 1])
  }

  ghost function After(shards: set<Shard>, es: seq<Event>): World
    requires Legal(shards, es)
    decreases |es|, 1
  {
    if es == [] then StartWorld(shards) else Next(After(shards, es[..|es| - 1]), es[|es| - 1])
  }

  // ---------------------------------------------------------------- invariant

  /** The last epoch sent out, and the last that all shards have acknowledged. */
  function LastSent(s: Seqr): int { s.epoch - 1 }
  function LastDone(s: Seqr): int { if s.pending then s.epoch - 2 else s.epoch - 1 }

  ghost predicate SeqrOk(shards: set<Shard>, id: Shard, s: Seqr) {
    && s.me == id && s.shards == shards && s.epoch >= 1 && (s.pending ==> s.epoch >= 2)
    && if s.pending then s.local.Keys == {s.epoch - 1} && s.local[s.epoch - 1] <= shards else s.local == map[]
  }

  ghost predicate AllArrived(shards: set<Shard>, got: set<Arrival>, e: nat) {
    forall sh :: sh in shards ==> Arrival(sh, e) in got
  }

  /** Scheduled are exactly the epochs that have arrived from everywhere, 1, 2, ... in order. */
  ghost predicate SchedOk(shards: set<Shard>, n: CNode) {
    && (forall i :: 0 <= i < |n.sched| ==> n.sched[i].epoch == i + 1)
    && (forall e :: e >= 1 ==> (AllArrived(shards, n.got, e) <==> e <= |n.sched|))
    && (forall e :: e in n.owed ==> 1 <= e <= |n.sched|)
  }

  ghost function ArrivedFrom(shards: set<Shard>, got: set<Arrival>, e: nat): set<Shard> {
    set sh | sh in shards && Arrival(sh, e) in got
  }

  /** What is being gathered is what has arrived of the epochs not done. */
  ghost predicate RecvOk(shards: set<Shard>, n: CNode) {
    && (forall e :: e in n.s.recv ==> e > LastDone(n.s))
    && (forall e :: e > LastDone(n.s) && e >= 0 ==> BatchAt(n.s, e).from == ArrivedFrom(shards, n.got, e))
  }

  /** The last epoch each shard has sent out. */
  ghost function Sents(w: World): map<Shard, int> { map sh | sh in w.nodes :: LastSent(w.nodes[sh].s) }

  /** Only what was sent arrives. */
  ghost predicate GotOk(sents: map<Shard, int>, n: CNode) {
    forall a :: a in n.got ==> a.src in sents && 1 <= a.epoch <= sents[a.src]
  }

  ghost predicate NodeOk(shards: set<Shard>, sents: map<Shard, int>, id: Shard, n: CNode) {
    SeqrOk(shards, id, n.s) && SchedOk(shards, n) && RecvOk(shards, n) && GotOk(sents, n)
  }

  ghost predicate NodesOk(w: World) {
    forall id :: id in w.nodes ==> NodeOk(w.shards, Sents(w), id, w.nodes[id])
  }

  /** A message under way was sent, is there once, and has not arrived. */
  ghost predicate MsgOk(sents: map<Shard, int>, nodes: map<Shard, CNode>, m: EpochMsg) {
    && m.src in sents && m.dest in nodes
    && 1 <= m.epoch <= sents[m.src] && Arrival(m.src, m.epoch) !in nodes[m.dest].got
  }

  ghost predicate NetOk(w: World) {
    && (forall m :: m in w.net ==> w.net[m] == 1 && MsgOk(Sents(w), w.nodes, m))
    && (forall m, v :: m in w.net && v in w.net && m.src == v.src && m.dest == v.dest && m.epoch == v.epoch ==> m == v)
  }

  /** Who has acknowledged the epoch under way. */
  function Acked(s: Seqr): set<Shard> {
    if s.pending && s.epoch - 1 in s.local then s.local[s.epoch - 1] else {}
  }

  ghost predicate AcksKnown(w: World) {
    forall a :: a in w.acks ==> a.src in w.nodes && a.dest in w.nodes && a.epoch <= |w.nodes[a.src].sched|
  }

  /** Whoever has acknowledged an epoch has scheduled it; what is done is scheduled everywhere. */
  ghost predicate Follows(a: Seqr, id: Shard, b: CNode) {
    LastDone(a) <= |b.sched| && (id in Acked(a) ==> LastSent(a) <= |b.sched|)
  }

  ghost predicate AllFollow(w: World) {
    forall a, b :: a in w.nodes && b in w.nodes ==> Follows(w.nodes[a].s, b, w.nodes[b])
  }

  ghost predicate EpochInv(w: World) {
    w.nodes.Keys == w.shards && NodesOk(w) && NetOk(w) && AcksKnown(w) && AllFollow(w)
  }

  /** A scheduled epoch has been sent out by every shard. */
  lemma ScheduledWasSent(shards: set<Shard>, sents: map<Shard, int>, d: Shard, n: CNode, s: Shard, e: nat)
    requires NodeOk(shards, sents, d, n) && s in shards && 1 <= e <= |n.sched|
    ensures s in sents && e <= sents[s]
  {
    assert AllArrived(shards, n.got, e);
    assert Arrival(s, e) in n.got;
  }

  lemma CountersClose(w: World, a: Shard, b: Shard)
    requires EpochInv(w) && a in w.nodes && b in w.nodes
    ensures w.nodes[a].s.epoch <= w.nodes[b].s.epoch + 1
  {
    assert NodeOk(w.shards, Sents(w), b, w.nodes[b]) && NodeOk(w.shards, Sents(w), a, w.nodes[a]);
    assert Follows(w.nodes[a].s, b, w.nodes[b]);
    var e := LastDone(w.nodes[a].s);
    if e >= 1 { ScheduledWasSent(w.shards, Sents(w), b, w.nodes[b], b, e); }
  }

  // ---------------------------------------------------------------- one node

  lemma SubsetSize(a: set<Shard>, b: set<Shard>)
    requires a <= b
    ensures |a| <= |b| && (|a| == |b| <==> a == b)
  {
    assert b == a + (b - a);
  }

  /** A message the node may still get: it was sent, has not arrived, and what is done is scheduled. */
  ghost predicate Coming(shards: set<Shard>, sents: map<Shard, int>, n: CNode, m: EpochMsg) {
    && m.src in shards && m.src in sents && 1 <= m.epoch <= sents[m.src]
    && Arrival(m.src, m.epoch) !in n.got && LastDone(n.s) <= |n.sched|
  }

  /** An arriving epoch is not scheduled yet. */
  lemma ArrivesInTime(shards: set<Shard>, sents: map<Shard, int>, id: Shard, n: CNode, m: EpochMsg)
    requires NodeOk(shards, sents, id, n) && Coming(shards, sents, n, m)
    ensures m.epoch > |n.sched| && m.epoch > LastDone(n.s)
  {
    assert AllArrived(shards, n.got, m.epoch) <==> m.epoch <= |n.sched|;
  }

  lemma FullWithOne(shards: set<Shard>, got: set<Arrival>, src: Shard, e: nat)
    requires src in shards && Arrival(src, e) !in got
    ensures var from := ArrivedFrom(shards, got, e);
      src !in from && (|from + {src}| == |shards| <==> AllArrived(shards, got + {Arrival(src, e)}, e))
  {
    var from := ArrivedFrom(shards, got, e);
    SubsetSize(from + {src}, shards);
    if from + {src} == shards {
      forall sh | sh in shards ensures Arrival(sh, e) in got + {Arrival(src, e)} { assert sh in from + {src}; }
    } else {
      var sh :| sh in shards && sh !in from + {src};
      assert Arrival(sh, e) !in got + {Arrival(src, e)};
    }
  }

  /** The message completes its epoch exactly when the epoch has then arrived from everywhere;
      the epoch is then the next to be scheduled. */
  lemma CompletesInOrder(shards: set<Shard>, sents: map<Shard, int>, id: Shard, n: CNode, m: EpochMsg)
    requires NodeOk(shards, sents, id, n) && Coming(shards, sents, n, m)
    requires id in shards && id in sents && sents[id] == LastSent(n.s)
    ensures BatchAt(n.s, m.epoch).from == ArrivedFrom(shards, n.got, m.epoch) && m.src !in BatchAt(n.s, m.epoch).from
    ensures Completes(n.s, m.src, m.epoch) <==> AllArrived(shards, n.got + {Arrival(m.src, m.epoch)}, m.epoch)
    ensures Completes(n.s, m.src, m.epoch) ==> m.epoch == |n.sched| + 1
  {
    ArrivesInTime(shards, sents, id, n, m);
    FullWithOne(shards, n.got, m.src, m.epoch);
    if Completes(n.s, m.src, m.epoch) {
      assert Arrival(id, m.epoch) in n.got + {Arrival(m.src, m.epoch)};
      assert m.epoch <= LastSent(n.s);
    }
  }

  lemma SameArrivals(shards: set<Shard>, got: set<Arrival>, src: Shard, e: nat, f: nat)
    requires f != e
    ensures AllArrived(shards, got + {Arrival(src, e)}, f) <==> AllArrived(shards, got, f)
    ensures ArrivedFrom(shards, got + {Arrival(src, e)}, f) == ArrivedFrom(shards, got, f)
  {
    if AllArrived(shards, got + {Arrival(src, e)}, f) {
      forall sh | sh in shards ensures Arrival(sh, f) in got { assert Arrival(sh, f) in got + {Arrival(src, e)}; }
    }
  }

  lemma TakeSched(shards: set<Shard>, sents: map<Shard, int>, id: Shard, n: CNode, m: EpochMsg, order: seq<Req>)
    requires NodeOk(shards, sents, id, n) && Coming(shards, sents, n, m)
    requires id in shards && id in sents && sents[id] == LastSent(n.s)
    ensures SchedOk(shards, TakeAt(n, m, order))
  {
    var e, t := m.epoch, TakeAt(n, m, order);
    ArrivesInTime(shards, sents, id, n, m);
    CompletesInOrder(shards, sents, id, n, m);
    forall f | f >= 1 ensures AllArrived(shards, t.got, f) <==> f <= |t.sched| {
      if f != e { SameArrivals(shards, n.got, m.src, e, f); }
    }
  }

  lemma TakeRecv(shards: set<Shard>, sents: map<Shard, int>, id: Shard, n: CNode, m: EpochMsg, order: seq<Req>)
    requires NodeOk(shards, sents, id, n) && Coming(shards, sents, n, m)
    requires id in shards && id in sents && sents[id] == LastSent(n.s)
    ensures RecvOk(shards, TakeAt(n, m, order)) && GotOk(sents, TakeAt(n, m, order))
  {
    var e, t := m.epoch, TakeAt(n, m, order);
    ArrivesInTime(shards, sents, id, n, m);
    CompletesInOrder(shards, sents, id, n, m);
    forall f | f > LastDone(t.s) && f >= 0 ensures BatchAt(t.s, f).from == ArrivedFrom(shards, t.got, f) {
      assert BatchAt(n.s, f).from == ArrivedFrom(shards, n.got, f);
      if f != e { SameArrivals(shards, n.got, m.src, e, f); }
      else { assert ArrivedFrom(shards, t.got, e) == ArrivedFrom(shards, n.got, e) + {m.src}; }
    }
  }

  lemma TakeNodeOk(shards: set<Shard>, sents: map<Shard, int>, id: Shard, n: CNode, m: EpochMsg, order: seq<Req>)
    requires NodeOk(shards, sents, id, n) && Coming(shards, sents, n, m)
    requires id in shards && id in sents && sents[id] == LastSent(n.s)
    ensures NodeOk(shards, sents, id, TakeAt(n, m, order))
  {
    TakeSched(shards, sents, id, n, m, order);
    TakeRecv(shards, sents, id, n, m, order);
    TakeShape(n, m, order);
  }

  lemma TakeShape(n: CNode, m: EpochMsg, order: seq<Req>)
    ensures var u := TakeAt(n, m, order);
      && u.got == n.got + {Arrival(m.src, m.epoch)} && u.s == n.s.(recv := u.s.recv) && n.sched <= u.sched
      && LastSent(u.s) == LastSent(n.s) && LastDone(u.s) == LastDone(n.s) && Acked(u.s) == Acked(n.s)
  {}

  /** The branch for an unexpected epoch is never taken: an epoch awaiting
      acknowledgements is the last one sent. */
  lemma AckIsCurrent(shards: set<Shard>, id: Shard, s: Seqr, e: nat)
    requires SeqrOk(shards, id, s) && e in s.local
    ensures s.pending && e + 1 == s.epoch
  {}

  /** One more acknowledgement: the epoch under way may become done, if now all shards have it. */
  lemma AckStep(shards: set<Shard>, sents: map<Shard, int>, id: Shard, n: CNode, src: Shard, e: nat)
    requires NodeOk(shards, sents, id, n) && src in shards
    ensures var t := n.(s := OnAck(n.s, src, e));
      && NodeOk(shards, sents, id, t) && LastSent(t.s) == LastSent(n.s)
      && (LastDone(t.s) == LastDone(n.s) || (LastDone(t.s) == LastSent(n.s) == e && Acked(n.s) + {src} == shards))
      && Acked(t.s) <= Acked(n.s) + (if e == LastSent(n.s) then {src} else {})
  {
    if e in n.s.local {
      AckIsCurrent(shards, id, n.s, e);
      SubsetSize(n.s.local[e] + {src}, shards);
      var t := n.(s := OnAck(n.s, src, e));
      forall f | f > LastDone(t.s) && f >= 0 ensures BatchAt(t.s, f).from == ArrivedFrom(shards, t.got, f) {
        assert BatchAt(n.s, f).from == ArrivedFrom(shards, n.got, f);
      }
    }
  }

  lemma BroadcastStep(shards: set<Shard>, sents: map<Shard, int>, id: Shard, n: CNode)
    requires NodeOk(shards, sents, id, n) && !n.s.pending && id in shards
    ensures var t := n.(s := Broadcast(n.s));
      && NodeOk(shards, sents, id, t) && LastSent(t.s) == LastSent(n.s) + 1 && LastDone(t.s) == LastDone(n.s)
      && Acked(t.s) == {}
  {
    var t := n.(s := Broadcast(n.s));
    forall f | f > LastDone(t.s) && f >= 0 ensures BatchAt(t.s, f).from == ArrivedFrom(shards, t.got, f) {
      assert BatchAt(n.s, f).from == ArrivedFrom(shards, n.got, f);
    }
  }

  lemma AcceptStep(shards: set<Shard>, sents: map<Shard, int>, id: Shard, n: CNode, next: Collected)
    requires NodeOk(shards, sents, id, n)
    ensures NodeOk(shards, sents, id, n.(s := n.s.(next := next)))
  {
    var t := n.(s := n.s.(next := next));
    forall f | f > LastDone(t.s) && f >= 0 ensures BatchAt(t.s, f).from == ArrivedFrom(shards, t.got, f) {
      assert BatchAt(n.s, f).from == ArrivedFrom(shards, n.got, f);
    }
  }

  lemma OwedStep(shards: set<Shard>, sents: map<Shard, int>, id: Shard, n: CNode, e: nat)
    requires NodeOk(shards, sents, id, n)
    ensures NodeOk(shards, sents, id, n.(owed := n.owed - {e}))
  {}

  lemma SentsGrow(shards: set<Shard>, sents: map<Shard, int>, more: map<Shard, int>, id: Shard, n: CNode)
    requires NodeOk(shards, sents, id, n) && forall sh :: sh in sents ==> sh in more && sents[sh] <= more[sh]
    ensures NodeOk(shards, more, id, n)
  {}

  // ---------------------------------------------------------------- the world

  /** Only the node at `at` has moved, to `u`. */
  ghost predicate OnlyAt(w: World, d: World, at: Shard, u: CNode) {
    && d.shards == w.shards && at in w.nodes && d.nodes == w.nodes[at := u]
    && LastSent(w.nodes[at].s) <= LastSent(u.s) && |w.nodes[at].sched| <= |u.sched|
  }

  lemma SentsMove(w: World, d: World, at: Shard, u: CNode)
    requires OnlyAt(w, d, at, u)
    ensures d.nodes.Keys == w.nodes.Keys
    ensures forall sh :: sh in Sents(w) ==> sh in Sents(d) && Sents(w)[sh] <= Sents(d)[sh]
  {}

  lemma NodesMove(w: World, d: World, at: Shard, u: CNode)
    requires NodesOk(w) && OnlyAt(w, d, at, u) && NodeOk(w.shards, Sents(w), at, u)
    ensures NodesOk(d) && d.nodes.Keys == w.nodes.Keys
    ensures forall sh :: sh in Sents(w) ==> sh in Sents(d) && Sents(w)[sh] <= Sents(d)[sh]
  {
    SentsMove(w, d, at, u);
    forall id | id in d.nodes ensures NodeOk(d.shards, Sents(d), id, d.nodes[id]) {
      assert NodeOk(w.shards, Sents(w), id, d.nodes[id]);
      SentsGrow(w.shards, Sents(w), Sents(d), id, d.nodes[id]);
    }
  }

  lemma FollowMove(w: World, d: World, at: Shard, u: CNode)
    requires AllFollow(w) && OnlyAt(w, d, at, u)
    requires forall b :: b in w.nodes ==> Follows(u.s, b, w.nodes[b])
    ensures AllFollow(d)
  {
    forall a, b | a in d.nodes && b in d.nodes ensures Follows(d.nodes[a].s, b, d.nodes[b]) {
      if a != at { assert Follows(w.nodes[a].s, b, w.nodes[b]); } else { assert Follows(u.s, b, w.nodes[b]); }
    }
  }

  lemma SameFollows(w: World, at: Shard, u: Seqr)
    requires AllFollow(w) && at in w.nodes
    requires LastSent(u) == LastSent(w.nodes[at].s) && LastDone(u) == LastDone(w.nodes[at].s)
    requires Acked(u) == Acked(w.nodes[at].s)
    ensures forall b :: b in w.nodes ==> Follows(u, b, w.nodes[b])
  {
    forall b | b in w.nodes ensures Follows(u, b, w.nodes[b]) { assert Follows(w.nodes[at].s, b, w.nodes[b]); }
  }

  lemma AcksMove(w: World, d: World, at: Shard, u: CNode)
    requires AcksKnown(w) && OnlyAt(w, d, at, u) && d.acks <= w.acks
    ensures AcksKnown(d)
  {}

  /** Messages under way stay so when no other message arrives at their destination. */
  lemma NetMove(w: World, d: World, at: Shard, u: CNode)
    requires NetOk(w) && OnlyAt(w, d, at, u) && d.net == w.net && u.got == w.nodes[at].got
    requires forall sh :: sh in Sents(w) ==> sh in Sents(d) && Sents(w)[sh] <= Sents(d)[sh]
    ensures NetOk(d)
  {
    forall m | m in d.net ensures d.net[m] == 1 && MsgOk(Sents(d), d.nodes, m) {
      assert MsgOk(Sents(w), w.nodes, m);
    }
  }

  lemma SubmitKeepsInv(w: World, at: Shard, x: Xid, ops: seq<Op>)
    requires EpochInv(w) && Enabled(w, Submit(at, x, ops))
    ensures EpochInv(Next(w, Submit(at, x, ops)))
  {
    var d, n := Next(w, Submit(at, x, ops)), w.nodes[at];
    var u := n.(s := n.s.(next := Accept(n.s.next, x, ops)));
    AcceptStep(w.shards, Sents(w), at, n, Accept(n.s.next, x, ops));
    Settle(w, d, at, u);
  }

  /** A step that keeps the node's arrivals, the messages and what it has done. */
  lemma Settle(w: World, d: World, at: Shard, u: CNode)
    requires EpochInv(w) && OnlyAt(w, d, at, u) && NodeOk(w.shards, Sents(w), at, u)
    requires d.net == w.net && d.acks <= w.acks && u.got == w.nodes[at].got
    requires LastSent(u.s) == LastSent(w.nodes[at].s) && LastDone(u.s) == LastDone(w.nodes[at].s)
    requires Acked(u.s) == Acked(w.nodes[at].s)
    ensures EpochInv(d)
  {
    NodesMove(w, d, at, u);
    AcksMove(w, d, at, u);
    NetMove(w, d, at, u);
    SameFollows(w, at, u.s);
    FollowMove(w, d, at, u);
  }

  lemma OtherAcks(w: World, d: World)
    requires EpochInv(w) && d.shards == w.shards && d.nodes == w.nodes && d.net == w.net && AcksKnown(d)
    ensures EpochInv(d)
  {
    assert Sents(d) == Sents(w);
  }

  lemma FinishKeepsInv(w: World, at: Shard, e: nat)
    requires EpochInv(w) && Enabled(w, Finish(at, e))
    ensures EpochInv(Next(w, Finish(at, e)))
  {
    var d, n := Next(w, Finish(at, e)), w.nodes[at];
    var u := n.(owed := n.owed - {e});
    OwedStep(w.shards, Sents(w), at, n, e);
    assert NodeOk(w.shards, Sents(w), at, n);
    var mid := w.(nodes := w.nodes[at := u]);
    Settle(w, mid, at, u);
    assert |u.sched| == |n.sched| && 1 <= e <= |n.sched|;
    AcksSent(mid, d, at, e);
    OtherAcks(mid, d);
  }

  lemma AcksSent(w: World, d: World, at: Shard, e: nat)
    requires AcksKnown(w) && at in w.nodes && e <= |w.nodes[at].sched| && w.nodes.Keys == w.shards
    requires d.nodes == w.nodes && d.acks == w.acks + multiset(set sh | sh in w.shards :: Ack(at, sh, e))
    ensures AcksKnown(d)
  {}

  lemma AckFollows(w: World, a: Ack, u: Seqr)
    requires AllFollow(w) && AcksKnown(w) && a in w.acks && a.dest in w.nodes && w.nodes.Keys == w.shards
    requires var s := w.nodes[a.dest].s;
      && LastSent(u) == LastSent(s)
      && (LastDone(u) == LastDone(s) || (LastDone(u) == LastSent(s) == a.epoch && Acked(s) + {a.src} == w.shards))
      && Acked(u) <= Acked(s) + (if a.epoch == LastSent(s) then {a.src} else {})
    ensures forall b :: b in w.nodes ==> Follows(u, b, w.nodes[b])
  {
    var s := w.nodes[a.dest].s;
    assert a.epoch <= |w.nodes[a.src].sched|;
    forall b | b in w.nodes ensures Follows(u, b, w.nodes[b]) {
      assert Follows(s, b, w.nodes[b]);
      if LastDone(u) != LastDone(s) { assert b in Acked(s) + {a.src}; }
    }
  }

  lemma AckKeepsInv(w: World, a: Ack)
    requires EpochInv(w) && Enabled(w, TakeAck(a))
    ensures EpochInv(Next(w, TakeAck(a)))
  {
    var d, n := Next(w, TakeAck(a)), w.nodes[a.dest];
    var u := n.(s := OnAck(n.s, a.src, a.epoch));
    assert NodeOk(w.shards, Sents(w), a.dest, n);
    AckStep(w.shards, Sents(w), a.dest, n, a.src, a.epoch);
    AckFollows(w, a, u.s);
    AckSettles(w, d, a.dest, u);
  }

  lemma AckSettles(w: World, d: World, at: Shard, u: CNode)
    requires EpochInv(w) && OnlyAt(w, d, at, u) && NodeOk(w.shards, Sents(w), at, u)
    requires d.net == w.net && d.acks <= w.acks && u.got == w.nodes[at].got
    requires forall b :: b in w.nodes ==> Follows(u.s, b, w.nodes[b])
    ensures EpochInv(d)
  {
    NodesMove(w, d, at, u);
    AcksMove(w, d, at, u);
    NetMove(w, d, at, u);
    FollowMove(w, d, at, u);
  }

  /** A message just sent: nobody can have got it. */
  lemma NewMsgOk(w: World, at: Shard, m: EpochMsg, sents: map<Shard, int>)
    requires NodesOk(w) && at in w.nodes && m.src == at && m.dest in w.nodes && m.epoch == w.nodes[at].s.epoch >= 1
    requires at in sents && sents[at] == LastSent(w.nodes[at].s) + 1
    ensures MsgOk(sents, w.nodes, m)
  {
    assert NodeOk(w.shards, Sents(w), m.dest, w.nodes[m.dest]);
    assert GotOk(Sents(w), w.nodes[m.dest]) && Sents(w)[at] < m.epoch;
  }

  /** New messages, one to each destination, of an epoch not used before. */
  lemma TickNet(w: World, d: World, at: Shard, out: set<EpochMsg>, e: nat)
    requires NetOk(w) && d.net == w.net + multiset(out) && (forall m :: m in out ==> m.src == at && m.epoch == e)
    requires forall m :: m in w.net ==> !(m.src == at && m.epoch == e) && MsgOk(Sents(d), d.nodes, m)
    requires forall m :: m in out ==> MsgOk(Sents(d), d.nodes, m)
    requires forall m, v :: m in out && v in out && m.dest == v.dest ==> m == v
    ensures NetOk(d)
  {}

  lemma TickMsgs(w: World, d: World, at: Shard, u: CNode, out: set<EpochMsg>)
    requires NetOk(w) && NodesOk(w) && OnlyAt(w, d, at, u) && u.got == w.nodes[at].got
    requires LastSent(u.s) == LastSent(w.nodes[at].s) + 1
    requires forall m :: m in out ==> m.src == at && m.dest in w.nodes && m.epoch == w.nodes[at].s.epoch
    requires w.nodes[at].s.epoch >= 1
    ensures forall m :: m in w.net ==> !(m.src == at && m.epoch == w.nodes[at].s.epoch) && MsgOk(Sents(d), d.nodes, m)
    ensures forall m :: m in out ==> MsgOk(Sents(d), d.nodes, m)
  {
    SentsOf(w, d, at, u);
    forall m | m in w.net ensures !(m.src == at && m.epoch == w.nodes[at].s.epoch) && MsgOk(Sents(d), d.nodes, m) {
      assert MsgOk(Sents(w), w.nodes, m);
    }
    forall m | m in out ensures MsgOk(Sents(d), d.nodes, m) { NewMsgOk(w, at, m, Sents(d)); }
  }

  lemma SentsOf(w: World, d: World, at: Shard, u: CNode)
    requires OnlyAt(w, d, at, u)
    ensures Sents(d) == Sents(w)[at := LastSent(u.s)]
  {}

  lemma TickKeepsInv(w: World, at: Shard, out: set<EpochMsg>)
    requires EpochInv(w) && Enabled(w, Tick(at, out))
    ensures EpochInv(Next(w, Tick(at, out)))
  {
    var d, n := Next(w, Tick(at, out)), w.nodes[at];
    var u := n.(s := Broadcast(n.s));
    BroadcastStep(w.shards, Sents(w), at, n);
    NodesMove(w, d, at, u);
    AcksMove(w, d, at, u);
    assert SeqrOk(w.shards, at, n.s);
    TickMsgs(w, d, at, u, out);
    TickNet(w, d, at, out, n.s.epoch);
    forall b | b in w.nodes ensures Follows(u.s, b, w.nodes[b]) { assert Follows(n.s, b, w.nodes[b]); }
    FollowMove(w, d, at, u);
  }

  lemma MsgIsComing(w: World, m: EpochMsg)
    requires EpochInv(w) && m in w.net
    ensures m.dest in w.nodes && NodeOk(w.shards, Sents(w), m.dest, w.nodes[m.dest])
    ensures Coming(w.shards, Sents(w), w.nodes[m.dest], m)
  {
    assert MsgOk(Sents(w), w.nodes, m);
    assert Follows(w.nodes[m.dest].s, m.dest, w.nodes[m.dest]);
  }

  lemma TakeNet(w: World, d: World, m: EpochMsg, u: CNode)
    requires NetOk(w) && m in w.net && OnlyAt(w, d, m.dest, u) && d.net == w.net - multiset{m}
    requires u.got == w.nodes[m.dest].got + {Arrival(m.src, m.epoch)} && Sents(d) == Sents(w)[m.dest := LastSent(u.s)]
    requires LastSent(u.s) == LastSent(w.nodes[m.dest].s)
    ensures NetOk(d)
  {
    forall v | v in d.net ensures d.net[v] == 1 && MsgOk(Sents(d), d.nodes, v) {
      assert v in w.net && MsgOk(Sents(w), w.nodes, v) && w.net[m] == 1;
      assert v != m;
    }
  }

  lemma TakeNode(w: World, m: EpochMsg, order: seq<Req>)
    requires EpochInv(w) && m in w.net && m.dest in w.nodes
    ensures NodeOk(w.shards, Sents(w), m.dest, TakeAt(w.nodes[m.dest], m, order))
  {
    MsgIsComing(w, m);
    TakeNodeOk(w.shards, Sents(w), m.dest, w.nodes[m.dest], m, order);
  }

  lemma TakeSettles(w: World, d: World, m: EpochMsg, u: CNode)
    requires EpochInv(w) && m in w.net && OnlyAt(w, d, m.dest, u) && NodeOk(w.shards, Sents(w), m.dest, u)
    requires d.net == w.net - multiset{m} && d.acks == w.acks
    requires u.got == w.nodes[m.dest].got + {Arrival(m.src, m.epoch)}
    requires LastSent(u.s) == LastSent(w.nodes[m.dest].s) && LastDone(u.s) == LastDone(w.nodes[m.dest].s)
    requires Acked(u.s) == Acked(w.nodes[m.dest].s)
    ensures EpochInv(d)
  {
    NodesMove(w, d, m.dest, u);
    AcksMove(w, d, m.dest, u);
    SentsOf(w, d, m.dest, u);
    TakeNet(w, d, m, u);
    SameFollows(w, m.dest, u.s);
    FollowMove(w, d, m.dest, u);
  }

  lemma TakeKeepsInv(w: World, m: EpochMsg, order: seq<Req>)
    requires EpochInv(w) && Enabled(w, Take(m, order))
    ensures EpochInv(Next(w, Take(m, order)))
  {
    TakeNode(w, m, order);
    TakeShape(w.nodes[m.dest], m, order);
    TakeSettles(w, Next(w, Take(m, order)), m, TakeAt(w.nodes[m.dest], m, order));
  }

  lemma NextKeepsEpochs(w: World, e: Event)
    requires EpochInv(w) && Enabled(w, e)
    ensures EpochInv(Next(w, e)) && Next(w, e).shards == w.shards
  {
    match e
    case Submit(at, x, ops) => SubmitKeepsInv(w, at, x, ops);
    case Tick(at, out) => TickKeepsInv(w, at, out);
    case Take(m, order) => TakeKeepsInv(w, m, order);
    case TakeAck(a) => AckKeepsInv(w, a);
    case Finish(at, f) => FinishKeepsInv(w, at, f);
  }

  lemma StartInv(shards: set<Shard>)
    ensures EpochInv(StartWorld(shards))
  {
    var w := StartWorld(shards);
    forall id | id in w.nodes ensures NodeOk(w.shards, Sents(w), id, w.nodes[id]) {
      forall e: nat | e >= 1 ensures !AllArrived(shards, {}, e) { assert Arrival(id, e) !in {}; }
    }
  }

  lemma {:induction false} EveryRunInOrder(shards: set<Shard>, es: seq<Event>)
    requires Legal(shards, es)
    ensures EpochInv(After(shards, es)) && After(shards, es).shards == shards
  {
    if es == [] {
      StartInv(shards);
    } else {
      EveryRunInOrder(shards, es[..|es| - 1]);
      NextKeepsEpochs(After(shards, es[..|es| - 1]), es[|es| - 1]);
    }
  }

  /** Every shard schedules the epochs 1, 2, 3, ... one after the other, each once. */
  lemma EpochsInOrder(shards: set<Shard>, es: seq<Event>, d: Shard, i: nat)
    requires Legal(shards, es) && d in After(shards, es).nodes && i < |After(shards, es).nodes[d].sched|
    ensures After(shards, es).nodes[d].sched[i].epoch == i + 1
  {
    EveryRunInOrder(shards, es);
    assert NodeOk(shards, Sents(After(shards, es)), d, After(shards, es).nodes[d]);
  }

  /** The epoch counters of any two sequencers differ by at most one. */
  lemma CountersDifferByOne(shards: set<Shard>, es: seq<Event>, a: Shard, b: Shard)
    requires Legal(shards, es) && a in After(shards, es).nodes && b in After(shards, es).nodes
    ensures -1 <= After(shards, es).nodes[a].s.epoch - After(shards, es).nodes[b].s.epoch <= 1
  {
    EveryRunInOrder(shards, es);
    CountersClose(After(shards, es), a, b);
    CountersClose(After(shards, es), b, a);
  }

  /** Whenever an acknowledgement is counted, it is for the epoch just before the counter. */
  lemma NoEpochMismatch(shards: set<Shard>, es: seq<Event>, a: Ack)
    requires Legal(shards, es) && Enabled(After(shards, es), TakeAck(a))
    requires a.epoch in After(shards, es).nodes[a.dest].s.local
    ensures a.epoch + 1 == After(shards, es).nodes[a.dest].s.epoch
  {
    EveryRunInOrder(shards, es);
    var w := After(shards, es);
    assert NodeOk(w.shards, Sents(w), a.dest, w.nodes[a.dest]);
    AckIsCurrent(w.shards, a.dest, w.nodes[a.dest].s, a.epoch);
  }
}
