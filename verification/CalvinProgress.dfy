/** The sequencers never stall: one is pending exactly while an acknowledgement of its last epoch
    is still to be taken, and from every state of every run the epochs can go on as far as one likes. */
module CalvinProgress {
  import opened Calvin
  import opened CalvinRuns

  function AckIn(e: Event): set<Ack> { if e.TakeAck? then {e.ack} else {} }

  /** The acknowledgements taken so far. */
  function Taken(es: seq<Event>): set<Ack> {
    if es == [] then {} else Taken(es[..|es| - 1]) + AckIn(es[|es| - 1])
  }

  lemma {:induction false} TakenIs(es: seq<Event>, a: Ack)
    ensures a in Taken(es) <==> TakeAck(a) in es
  {
    if es != [] {
      var front, e := es[..|es| - 1], es[|es| - 1];
      TakenIs(front, a);
      assert es == front + [e];
    }
  }

  // ---------------------------------------------------------------- only what was scheduled is acknowledged

  ghost predicate TakenKnown(taken: set<Ack>, nodes: map<Shard, CNode>) {
    forall a :: a in taken ==> a.src in nodes && a.epoch <= |nodes[a.src].sched|
  }

  /** Nothing scheduled is forgotten. */
  ghost predicate SchedsGrow(w: World, d: World) {
    d.shards == w.shards && d.nodes.Keys == w.nodes.Keys &&
    forall sh :: sh in w.nodes ==> |w.nodes[sh].sched| <= |d.nodes[sh].sched|
  }

  lemma NextGrows(w: World, e: Event)
    requires Enabled(w, e)
    ensures SchedsGrow(w, Next(w, e))
  {
    match e
    case Take(m, order) => TakeShape(w.nodes[m.dest], m, order);
    case _ =>
  }

  lemma KnownMore(taken: set<Ack>, w: World, d: World, e: Event)
    requires TakenKnown(taken, w.nodes) && AcksKnown(w) && SchedsGrow(w, d) && (e.TakeAck? ==> e.ack in w.acks)
    ensures TakenKnown(taken + AckIn(e), d.nodes)
  {}

  lemma SeqrIsOk(w: World, id: Shard)
    requires EpochInv(w) && id in w.nodes
    ensures SeqrOk(w.shards, id, w.nodes[id].s) && id in w.shards
  {
    assert NodeOk(w.shards, Sents(w), id, w.nodes[id]);
  }

  /** What was taken is of an epoch the taker has sent out. */
  lemma TakenWasSent(taken: set<Ack>, w: World, a: Ack)
    requires TakenKnown(taken, w.nodes) && EpochInv(w) && a in taken && a.dest in w.nodes && a.epoch >= 1
    ensures a.epoch <= LastSent(w.nodes[a.dest].s)
  {
    assert NodeOk(w.shards, Sents(w), a.src, w.nodes[a.src]);
    ScheduledWasSent(w.shards, Sents(w), a.src, w.nodes[a.src], a.dest, a.epoch);
  }

  // ---------------------------------------------------------------- who is pending

  /** All shards' acknowledgements of epoch `e` have been taken at `id`. */
  ghost predicate AllTaken(taken: set<Ack>, shards: set<Shard>, id: Shard, e: nat) {
    forall sh :: sh in shards ==> Ack(sh, id, e) in taken
  }

  ghost function TakenFrom(taken: set<Ack>, shards: set<Shard>, id: Shard, e: nat): set<Shard> {
    set sh | sh in shards && Ack(sh, id, e) in taken
  }

  lemma TakenFromAll(taken: set<Ack>, shards: set<Shard>, id: Shard, e: nat)
    ensures TakenFrom(taken, shards, id, e) == shards <==> AllTaken(taken, shards, id, e)
  {
    if TakenFrom(taken, shards, id, e) == shards {
      forall sh | sh in shards ensures Ack(sh, id, e) in taken { assert sh in TakenFrom(taken, shards, id, e); }
    }
  }

  /** The acknowledgements counted are those taken, and the epoch is under way until all are. */
  ghost predicate Counts(taken: set<Ack>, shards: set<Shard>, id: Shard, s: Seqr) {
    s.epoch >= 2 ==>
      var from := TakenFrom(taken, shards, id, s.epoch - 1);
      s.pending == (from != shards) && (s.pending ==> Acked(s) == from)
  }

  ghost predicate AllCount(taken: set<Ack>, w: World) {
    forall id :: id in w.nodes ==> Counts(taken, w.shards, id, w.nodes[id].s)
  }

  /** Nothing about the epochs sent out changes. */
  predicate SameEpoch(s: Seqr, u: Seqr) { u.epoch == s.epoch && u.pending == s.pending && u.local == s.local }

  lemma CountsOn(taken: set<Ack>, shards: set<Shard>, more: set<Ack>, id: Shard, s: Seqr, u: Seqr)
    requires Counts(taken, shards, id, s) && SameEpoch(s, u) && taken <= more
    requires forall a :: a in more - taken ==> a.dest != id
    ensures Counts(more, shards, id, u)
  {
    if s.epoch >= 2 {
      assert TakenFrom(more, shards, id, s.epoch - 1) == TakenFrom(taken, shards, id, s.epoch - 1);
    }
  }

  lemma TickCounts(taken: set<Ack>, w: World, id: Shard)
    requires TakenKnown(taken, w.nodes) && EpochInv(w) && id in w.nodes && !w.nodes[id].s.pending
    ensures Counts(taken, w.shards, id, Broadcast(w.nodes[id].s))
  {
    var s := w.nodes[id].s;
    SeqrIsOk(w, id);
    forall sh | sh in w.shards ensures Ack(sh, id, s.epoch) !in taken {
      if Ack(sh, id, s.epoch) in taken { TakenWasSent(taken, w, Ack(sh, id, s.epoch)); }
    }
    assert TakenFrom(taken, w.shards, id, s.epoch) == {};
  }

  lemma LateAckCounts(taken: set<Ack>, shards: set<Shard>, s: Seqr, a: Ack)
    requires SeqrOk(shards, a.dest, s) && a.src in shards && Counts(taken, shards, a.dest, s)
    requires !(s.pending && a.epoch == s.epoch - 1)
    ensures Counts(taken + {a}, shards, a.dest, OnAck(s, a.src, a.epoch))
  {
    assert OnAck(s, a.src, a.epoch) == s;
    if s.epoch >= 2 {
      var from := TakenFrom(taken, shards, a.dest, s.epoch - 1);
      assert TakenFrom(taken + {a}, shards, a.dest, s.epoch - 1) ==
        if a.epoch == s.epoch - 1 then from + {a.src} else from;
    }
  }

  lemma TimelyAckCounts(taken: set<Ack>, shards: set<Shard>, s: Seqr, a: Ack)
    requires SeqrOk(shards, a.dest, s) && a.src in shards && Counts(taken, shards, a.dest, s)
    requires s.pending && a.epoch == s.epoch - 1
    ensures Counts(taken + {a}, shards, a.dest, OnAck(s, a.src, a.epoch))
  {
    var acks := s.local[a.epoch] + {a.src};
    assert TakenFrom(taken + {a}, shards, a.dest, a.epoch) == acks;
    SubsetSize(acks, shards);
  }

  lemma AckCounts(taken: set<Ack>, w: World, a: Ack)
    requires EpochInv(w) && AllCount(taken, w) && a in w.acks && a.dest in w.nodes
    ensures Counts(taken + {a}, w.shards, a.dest, OnAck(w.nodes[a.dest].s, a.src, a.epoch))
  {
    var s := w.nodes[a.dest].s;
    SeqrIsOk(w, a.dest);
    if s.pending && a.epoch == s.epoch - 1 { TimelyAckCounts(taken, w.shards, s, a); }
    else { LateAckCounts(taken, w.shards, s, a); }
  }

  /** Only the node at `at` has moved, and only its acknowledgements were taken. */
  lemma CountsMove(taken: set<Ack>, w: World, more: set<Ack>, d: World, at: Shard, u: CNode)
    requires AllCount(taken, w) && at in w.nodes && d.nodes == w.nodes[at := u] && d.shards == w.shards
    requires taken <= more && (forall a :: a in more - taken ==> a.dest == at) && Counts(more, w.shards, at, u.s)
    ensures AllCount(more, d)
  {
    forall id | id in d.nodes ensures Counts(more, d.shards, id, d.nodes[id].s) {
      if id != at { CountsOn(taken, w.shards, more, id, w.nodes[id].s, w.nodes[id].s); }
    }
  }

  lemma QuietCounts(taken: set<Ack>, w: World, e: Event)
    requires AllCount(taken, w) && Enabled(w, e) && (e.Submit? || e.Take? || e.Finish?)
    ensures AllCount(taken, Next(w, e))
  {
    var d := Next(w, e);
    var at := if e.Take? then e.msg.dest else e.at;
    if e.Take? { TakeShape(w.nodes[at], e.msg, e.order); }
    CountsOn(taken, w.shards, taken, at, w.nodes[at].s, d.nodes[at].s);
    CountsMove(taken, w, taken, d, at, d.nodes[at]);
  }

  lemma TickedCounts(taken: set<Ack>, w: World, at: Shard, out: set<EpochMsg>)
    requires AllCount(taken, w) && Enabled(w, Tick(at, out)) && Counts(taken, w.shards, at, Broadcast(w.nodes[at].s))
    ensures AllCount(taken, Next(w, Tick(at, out)))
  {
    CountsMove(taken, w, taken, Next(w, Tick(at, out)), at, w.nodes[at].(s := Broadcast(w.nodes[at].s)));
  }

  lemma AckedCounts(taken: set<Ack>, w: World, a: Ack)
    requires AllCount(taken, w) && Enabled(w, TakeAck(a))
    requires Counts(taken + {a}, w.shards, a.dest, OnAck(w.nodes[a.dest].s, a.src, a.epoch))
    ensures AllCount(taken + {a}, Next(w, TakeAck(a)))
  {
    var u := w.nodes[a.dest].(s := OnAck(w.nodes[a.dest].s, a.src, a.epoch));
    CountsMove(taken, w, taken + {a}, Next(w, TakeAck(a)), a.dest, u);
  }

  /** The sequencer that ticks, or takes an acknowledgement, goes on counting. */
  ghost predicate StepCounts(taken: set<Ack>, w: World, e: Event)
    requires Enabled(w, e)
  {
    match e
    case Tick(at, _) => Counts(taken, w.shards, at, Broadcast(w.nodes[at].s))
    case TakeAck(a) => Counts(taken + {a}, w.shards, a.dest, OnAck(w.nodes[a.dest].s, a.src, a.epoch))
    case _ => true
  }

  lemma StepKeepsCount(taken: set<Ack>, w: World, e: Event)
    requires AllCount(taken, w) && TakenKnown(taken, w.nodes) && EpochInv(w) && Enabled(w, e)
    ensures StepCounts(taken, w, e)
  {
    match e
    case Tick(at, _) => TickCounts(taken, w, at);
    case TakeAck(a) => AckCounts(taken, w, a);
    case _ =>
  }

  lemma NextCounts(taken: set<Ack>, w: World, e: Event)
    requires AllCount(taken, w) && Enabled(w, e) && StepCounts(taken, w, e)
    ensures AllCount(taken + AckIn(e), Next(w, e))
  {
    match e
    case Tick(at, out) => TickedCounts(taken, w, at, out); assert taken + AckIn(e) == taken;
    case TakeAck(a) => AckedCounts(taken, w, a);
    case _ => QuietCounts(taken, w, e); assert taken + AckIn(e) == taken;
  }

  lemma {:induction false} EveryRunCounts(shards: set<Shard>, es: seq<Event>)
    requires Legal(shards, es)
    ensures TakenKnown(Taken(es), After(shards, es).nodes) && AllCount(Taken(es), After(shards, es))
  {
    if es != [] {
      var front, e := es[..|es| - 1], es[|es| - 1];
      EveryRunCounts(shards, front);
      EveryRunInOrder(shards, front);
      NextGrows(After(shards, front), e);
      KnownMore(Taken(front), After(shards, front), After(shards, es), e);
      StepKeepsCount(Taken(front), After(shards, front), e);
      NextCounts(Taken(front), After(shards, front), e);
    }
  }

  /** Some shard's acknowledgement of epoch `e` has not been taken at `id`. */
  ghost predicate Unacked(shards: set<Shard>, es: seq<Event>, id: Shard, e: nat) {
    exists sh :: sh in shards && TakeAck(Ack(sh, id, e)) !in es
  }

  lemma UnackedIs(shards: set<Shard>, es: seq<Event>, id: Shard, e: nat)
    ensures Unacked(shards, es, id, e) <==> TakenFrom(Taken(es), shards, id, e) != shards
  {
    TakenFromAll(Taken(es), shards, id, e);
    forall sh | sh in shards ensures Ack(sh, id, e) in Taken(es) <==> TakeAck(Ack(sh, id, e)) in es {
      TakenIs(es, Ack(sh, id, e));
    }
  }

  lemma PendingIs(shards: set<Shard>, taken: set<Ack>, id: Shard, s: Seqr)
    requires SeqrOk(shards, id, s) && Counts(taken, shards, id, s)
    ensures s.pending <==> s.epoch >= 2 && TakenFrom(taken, shards, id, s.epoch - 1) != shards
  {}

  lemma SeqrAfter(shards: set<Shard>, es: seq<Event>, id: Shard)
    requires Legal(shards, es) && id in shards
    ensures id in After(shards, es).nodes
    ensures SeqrOk(shards, id, After(shards, es).nodes[id].s)
    ensures Counts(Taken(es), shards, id, After(shards, es).nodes[id].s)
  {
    EveryRunInOrder(shards, es);
    EveryRunCounts(shards, es);
    SeqrIsOk(After(shards, es), id);
  }

  /** A sequencer is pending if and only if it has sent an epoch out and some shard's
      acknowledgement of the last one has not been taken. */
  lemma PendingMeansUnacked(shards: set<Shard>, es: seq<Event>, id: Shard)
    requires Legal(shards, es) && id in shards
    ensures id in After(shards, es).nodes
    ensures var s := After(shards, es).nodes[id].s;
      s.pending <==> s.epoch >= 2 && Unacked(shards, es, id, s.epoch - 1)
  {
    SeqrAfter(shards, es, id);
    var s := After(shards, es).nodes[id].s;
    PendingIs(shards, Taken(es), id, s);
    if s.epoch >= 2 { UnackedIs(shards, es, id, s.epoch - 1); }
  }
}
