/** No message and no acknowledgement is lost by a sequencer: when nothing is under way the
    sequencers furthest behind can go on, so that every epoch number can be reached. */
module CalvinReach {
  import opened Calvin
  import opened CalvinRuns
  import opened CalvinProgress

  // ---------------------------------------------------------------- what was sent arrives or is under way

  ghost predicate UnderWay(net: multiset<EpochMsg>, s: Shard, d: Shard, e: nat) {
    exists m :: m in net && m.src == s && m.dest == d && m.epoch == e
  }

  ghost predicate Reaches(net: multiset<EpochMsg>, s: Shard, d: Shard, n: CNode, e: nat) {
    Arrival(s, e) in n.got || UnderWay(net, s, d, e)
  }

  ghost predicate AllReach(w: World) {
    forall s, d, e: nat {:trigger Reaches(w.net, s, d, w.nodes[d], e)} ::
      s in w.nodes && d in w.nodes && 1 <= e <= LastSent(w.nodes[s].s) ==> Reaches(w.net, s, d, w.nodes[d], e)
  }

  /** Messages only leave the network by arriving. */
  ghost predicate Carried(w: World, d: World) {
    && d.nodes.Keys == w.nodes.Keys
    && (forall sh :: sh in w.nodes ==> w.nodes[sh].got <= d.nodes[sh].got)
    && (forall m :: m in w.net && m.dest in w.nodes ==>
          m in d.net || Arrival(m.src, m.epoch) in d.nodes[m.dest].got)
  }

  lemma ReachOn(w: World, d: World, s: Shard, to: Shard, e: nat)
    requires Carried(w, d) && to in w.nodes && Reaches(w.net, s, to, w.nodes[to], e)
    ensures Reaches(d.net, s, to, d.nodes[to], e)
  {
    if Arrival(s, e) !in w.nodes[to].got {
      var m :| m in w.net && m.src == s && m.dest == to && m.epoch == e;
      if m in d.net { assert UnderWay(d.net, s, to, e); }
    }
  }

  lemma QuietReach(w: World, d: World)
    requires AllReach(w) && Carried(w, d)
    requires forall sh :: sh in w.nodes ==> LastSent(d.nodes[sh].s) == LastSent(w.nodes[sh].s)
    ensures AllReach(d)
  {
    forall s, to, e: nat {:trigger Reaches(d.net, s, to, d.nodes[to], e)} |
      s in d.nodes && to in d.nodes && 1 <= e <= LastSent(d.nodes[s].s)
      ensures Reaches(d.net, s, to, d.nodes[to], e)
    {
      assert Reaches(w.net, s, to, w.nodes[to], e);
      ReachOn(w, d, s, to, e);
    }
  }

  lemma TickSends(net: multiset<EpochMsg>, out: set<EpochMsg>, at: Shard, shards: set<Shard>, e: nat, next: Collected,
      to: Shard)
    requires OneEach(out, at, shards, e, next) && to in shards
    ensures UnderWay(net + multiset(out), at, to, e)
  {
    var m :| m in out && m.dest == to;
    assert m in net + multiset(out);
  }

  lemma TickReach(w: World, at: Shard, out: set<EpochMsg>)
    requires AllReach(w) && Enabled(w, Tick(at, out)) && w.nodes.Keys == w.shards
    ensures AllReach(Next(w, Tick(at, out)))
  {
    var d := Next(w, Tick(at, out));
    assert Carried(w, d);
    forall s, to, e: nat {:trigger Reaches(d.net, s, to, d.nodes[to], e)} |
      s in d.nodes && to in d.nodes && 1 <= e <= LastSent(d.nodes[s].s)
      ensures Reaches(d.net, s, to, d.nodes[to], e)
    {
      if s == at && e == w.nodes[at].s.epoch {
        TickSends(w.net, out, at, w.shards, e, w.nodes[at].s.next, to);
      } else {
        assert Reaches(w.net, s, to, w.nodes[to], e);
        ReachOn(w, d, s, to, e);
      }
    }
  }

  lemma TakeReach(w: World, m: EpochMsg, order: seq<Req>)
    requires AllReach(w) && Enabled(w, Take(m, order))
    ensures AllReach(Next(w, Take(m, order)))
  {
    var d := Next(w, Take(m, order));
    TakeShape(w.nodes[m.dest], m, order);
    assert Arrival(m.src, m.epoch) in d.nodes[m.dest].got;
    assert forall v :: v in w.net && v != m ==> v in d.net;
    QuietReach(w, d);
  }

  lemma NextReach(w: World, e: Event)
    requires AllReach(w) && Enabled(w, e) && w.nodes.Keys == w.shards
    ensures AllReach(Next(w, e))
  {
    match e
    case Tick(at, out) => TickReach(w, at, out);
    case Take(m, order) => TakeReach(w, m, order);
    case TakeAck(a) => QuietReach(w, Next(w, e));
    case _ => QuietReach(w, Next(w, e));
  }

  // ---------------------------------------------------------------- what is scheduled is acknowledged, or will be

  ghost predicate Replies(taken: set<Ack>, w: World, b: Shard, to: Shard, e: nat)
    requires b in w.nodes
  {
    e in w.nodes[b].owed || Ack(b, to, e) in w.acks || Ack(b, to, e) in taken
  }

  ghost predicate AllReply(taken: set<Ack>, w: World) {
    forall b, to, e: nat ::
      b in w.nodes && to in w.nodes && 1 <= e <= |w.nodes[b].sched| ==> Replies(taken, w, b, to, e)
  }

  lemma QuietReply(taken: set<Ack>, w: World, d: World)
    requires AllReply(taken, w) && d.nodes.Keys == w.nodes.Keys && d.acks == w.acks
    requires forall b :: b in w.nodes ==> d.nodes[b].owed == w.nodes[b].owed && d.nodes[b].sched == w.nodes[b].sched
    ensures AllReply(taken, d)
  {
    forall b, to, e: nat | b in d.nodes && to in d.nodes && 1 <= e <= |d.nodes[b].sched|
      ensures Replies(taken, d, b, to, e)
    {
      assert Replies(taken, w, b, to, e);
    }
  }

  lemma TakeReply(taken: set<Ack>, w: World, m: EpochMsg, order: seq<Req>)
    requires AllReply(taken, w) && Enabled(w, Take(m, order))
    requires Completes(w.nodes[m.dest].s, m.src, m.epoch) ==> m.epoch == |w.nodes[m.dest].sched| + 1
    ensures AllReply(taken, Next(w, Take(m, order)))
  {
    var d := Next(w, Take(m, order));
    forall b, to, e: nat | b in d.nodes && to in d.nodes && 1 <= e <= |d.nodes[b].sched|
      ensures Replies(taken, d, b, to, e)
    {
      if e <= |w.nodes[b].sched| { assert Replies(taken, w, b, to, e); }
    }
  }

  lemma FinishReply(taken: set<Ack>, w: World, at: Shard, k: nat)
    requires AllReply(taken, w) && Enabled(w, Finish(at, k)) && w.nodes.Keys == w.shards
    ensures AllReply(taken, Next(w, Finish(at, k)))
  {
    var d := Next(w, Finish(at, k));
    forall b, to, e: nat | b in d.nodes && to in d.nodes && 1 <= e <= |d.nodes[b].sched|
      ensures Replies(taken, d, b, to, e)
    {
      assert Replies(taken, w, b, to, e);
      if b == at && e == k { assert Ack(at, to, k) in multiset(set sh | sh in w.shards :: Ack(at, sh, k)); }
    }
  }

  lemma AckReply(taken: set<Ack>, w: World, a: Ack)
    requires AllReply(taken, w) && Enabled(w, TakeAck(a))
    ensures AllReply(taken + {a}, Next(w, TakeAck(a)))
  {
    var d := Next(w, TakeAck(a));
    forall b, to, e: nat | b in d.nodes && to in d.nodes && 1 <= e <= |d.nodes[b].sched|
      ensures Replies(taken + {a}, d, b, to, e)
    {
      assert Replies(taken, w, b, to, e);
    }
  }

  lemma NextReply(taken: set<Ack>, w: World, e: Event)
    requires AllReply(taken, w) && Enabled(w, e) && w.nodes.Keys == w.shards
    requires e.Take? && Completes(w.nodes[e.msg.dest].s, e.msg.src, e.msg.epoch) ==>
      e.msg.epoch == |w.nodes[e.msg.dest].sched| + 1
    ensures AllReply(taken + AckIn(e), Next(w, e))
  {
    assert !e.TakeAck? ==> taken + AckIn(e) == taken;
    match e
    case Take(m, order) => TakeReply(taken, w, m, order);
    case Finish(at, k) => FinishReply(taken, w, at, k);
    case TakeAck(a) => AckReply(taken, w, a);
    case _ => QuietReply(taken, w, Next(w, e));
  }

  lemma TakesInOrder(w: World, m: EpochMsg)
    requires EpochInv(w) && m in w.net
    ensures m.dest in w.nodes
    ensures Completes(w.nodes[m.dest].s, m.src, m.epoch) ==> m.epoch == |w.nodes[m.dest].sched| + 1
  {
    MsgIsComing(w, m);
    CompletesInOrder(w.shards, Sents(w), m.dest, w.nodes[m.dest], m);
  }

  lemma {:induction false} EveryRunReaches(shards: set<Shard>, es: seq<Event>)
    requires Legal(shards, es)
    ensures AllReach(After(shards, es)) && AllReply(Taken(es), After(shards, es))
  {
    if es != [] {
      var front, e := es[..|es| - 1], es[|es| - 1];
      var w := After(shards, front);
      EveryRunReaches(shards, front);
      EveryRunInOrder(shards, front);
      if e.Take? { TakesInOrder(w, e.msg); }
      NextReach(w, e);
      NextReply(Taken(front), w, e);
    }
  }

  // ---------------------------------------------------------------- nothing under way

  /** No message and no acknowledgement is under way, and no scheduled epoch is still to be acknowledged. */
  ghost predicate AtRest(w: World) {
    w.net == multiset{} && w.acks == multiset{} && forall sh :: sh in w.nodes ==> w.nodes[sh].owed == {}
  }

  /** All shards have sent epoch `e` out. */
  ghost predicate AllSent(w: World, e: nat) { forall sh :: sh in w.nodes ==> e <= LastSent(w.nodes[sh].s) }

  lemma RestSchedules(w: World, e: nat, d: Shard)
    requires EpochInv(w) && AllReach(w) && w.net == multiset{} && AllSent(w, e) && e >= 1 && d in w.nodes
    ensures e <= |w.nodes[d].sched|
  {
    assert NodeOk(w.shards, Sents(w), d, w.nodes[d]);
    forall sh | sh in w.shards ensures Arrival(sh, e) in w.nodes[d].got {
      assert Reaches(w.net, sh, d, w.nodes[d], e);
    }
    assert AllArrived(w.shards, w.nodes[d].got, e);
  }

  lemma RestTakes(taken: set<Ack>, w: World, e: nat, b: Shard, d: Shard)
    requires EpochInv(w) && AllReach(w) && AllReply(taken, w) && AtRest(w) && AllSent(w, e) && e >= 1
    requires b in w.nodes && d in w.nodes
    ensures Ack(b, d, e) in taken
  {
    RestSchedules(w, e, b);
    assert Replies(taken, w, b, d, e);
  }

  lemma RestTakesAll(taken: set<Ack>, w: World, e: nat, d: Shard)
    requires EpochInv(w) && AllReach(w) && AllReply(taken, w) && AtRest(w) && AllSent(w, e) && e >= 1 && d in w.nodes
    ensures AllTaken(taken, w.shards, d, e)
  {
    forall b | b in w.shards ensures Ack(b, d, e) in taken { RestTakes(taken, w, e, b, d); }
  }

  lemma FreeWhenTaken(taken: set<Ack>, shards: set<Shard>, id: Shard, s: Seqr)
    requires SeqrOk(shards, id, s) && Counts(taken, shards, id, s)
    requires s.epoch >= 2 ==> AllTaken(taken, shards, id, s.epoch - 1)
    ensures !s.pending
  {
    if s.epoch >= 2 { TakenFromAll(taken, shards, id, s.epoch - 1); }
  }

  lemma LowestIsFree(taken: set<Ack>, w: World, id: Shard)
    requires EpochInv(w) && AllReach(w) && AllReply(taken, w) && AtRest(w) && id in w.nodes
    requires SeqrOk(w.shards, id, w.nodes[id].s) && Counts(taken, w.shards, id, w.nodes[id].s)
    requires AllSent(w, w.nodes[id].s.epoch - 1)
    ensures !w.nodes[id].s.pending
  {
    if w.nodes[id].s.epoch >= 2 { RestTakesAll(taken, w, w.nodes[id].s.epoch - 1, id); }
    FreeWhenTaken(taken, w.shards, id, w.nodes[id].s);
  }

  lemma PendingWhenNotTaken(taken: set<Ack>, shards: set<Shard>, id: Shard, s: Seqr)
    requires Counts(taken, shards, id, s) && s.epoch >= 2 && !AllTaken(taken, shards, id, s.epoch - 1)
    ensures s.pending
  {
    TakenFromAll(taken, shards, id, s.epoch - 1);
  }

  lemma UnsentIsUntaken(taken: set<Ack>, w: World, id: Shard, low: Shard, e: nat)
    requires EpochInv(w) && TakenKnown(taken, w.nodes) && low in w.nodes && e >= w.nodes[low].s.epoch
    ensures Ack(low, id, e) !in taken
  {
    SeqrIsOk(w, low);
    assert NodeOk(w.shards, Sents(w), low, w.nodes[low]);
    if e <= |w.nodes[low].sched| { ScheduledWasSent(w.shards, Sents(w), low, w.nodes[low], low, e); }
  }

  lemma HigherIsPending(taken: set<Ack>, w: World, id: Shard, low: Shard)
    requires EpochInv(w) && TakenKnown(taken, w.nodes) && id in w.nodes && low in w.nodes
    requires Counts(taken, w.shards, id, w.nodes[id].s) && 1 <= w.nodes[low].s.epoch < w.nodes[id].s.epoch
    ensures w.nodes[id].s.pending
  {
    UnsentIsUntaken(taken, w, id, low, w.nodes[id].s.epoch - 1);
    PendingWhenNotTaken(taken, w.shards, id, w.nodes[id].s);
  }

  /** Some counter is lower than that of `id`. */
  ghost predicate SomeLower(w: World, id: Shard)
    requires id in w.nodes
  {
    exists low :: low in w.nodes && w.nodes[low].s.epoch < w.nodes[id].s.epoch
  }

  /** The sequencers that may tick are, at rest, exactly those whose counter is the lowest. */
  lemma RestPending(shards: set<Shard>, es: seq<Event>, id: Shard)
    requires Legal(shards, es) && id in After(shards, es).nodes && AtRest(After(shards, es))
    ensures var w := After(shards, es);
      w.nodes[id].s.pending <==> SomeLower(w, id)
  {
    var w := After(shards, es);
    EveryRunInOrder(shards, es);
    EveryRunCounts(shards, es);
    EveryRunReaches(shards, es);
    SeqrAfter(shards, es, id);
    if SomeLower(w, id) {
      var low :| low in w.nodes && w.nodes[low].s.epoch < w.nodes[id].s.epoch;
      SeqrAfter(shards, es, low);
      HigherIsPending(Taken(es), w, id, low);
    } else {
      LowestIsFree(Taken(es), w, id);
    }
  }

  // ---------------------------------------------------------------- there is always a next step

  lemma {:induction false} LeastOf(xs: set<Xid>) returns (x: Xid)
    requires xs != {}
    ensures x in xs && forall y :: y in xs ==> x <= y
    decreases xs
  {
    var z :| z in xs;
    x := z;
    if xs - {z} != {} {
      var y := LeastOf(xs - {z});
      if y < z { x := y; }
    }
    assert forall y :: y in xs ==> y == z || y in xs - {z};
  }

  lemma {:induction false} ListOf(source: Shard, part: map<Xid, seq<Op>>, reqs: seq<Req>, rest: set<Xid>)
      returns (all: seq<Req>)
    requires Listed(reqs, source, part, rest)
    ensures Lists(all, source, part)
    decreases rest
  {
    if rest == {} {
      assert part - rest == part;
      all := reqs;
    } else {
      var x := LeastOf(rest);
      ListedMore(reqs, source, part, rest, x);
      all := ListOf(source, part, reqs + [Req(x, source, part[x])], rest - {x});
    }
  }

  lemma {:induction false} EachOf(me: Shard, shards: set<Shard>, epoch: nat, next: Collected)
      returns (out: set<EpochMsg>)
    ensures OneEach(out, me, shards, epoch, next)
    decreases shards
  {
    if shards == {} {
      out := {};
    } else {
      var sh :| sh in shards;
      var part := PartFor(next, sh);
      assert part - part.Keys == map[];
      var reqs := ListOf(me, part, [], part.Keys);
      out := EachOf(me, shards - {sh}, epoch, next);
      OneMore(out, me, shards - {sh}, epoch, next, EpochMsg(me, sh, epoch, reqs));
      assert shards - {sh} + {sh} == shards;
      out := out + {EpochMsg(me, sh, epoch, reqs)};
    }
  }

  /** The place of a request among sorted ones. */
  lemma {:induction false} SpotOf(sorted: seq<Req>, r: Req, upto: nat) returns (i: nat)
    requires SortedByXid(sorted) && upto <= |sorted| && forall j :: upto <= j < |sorted| ==> r.xid < sorted[j].xid
    ensures i <= |sorted| && (forall j :: i <= j < |sorted| ==> r.xid < sorted[j].xid)
    ensures i > 0 ==> sorted[i - 1].xid <= r.xid
  {
    if upto == 0 || sorted[upto - 1].xid <= r.xid { i := upto; } else { i := SpotOf(sorted, r, upto - 1); }
  }

  lemma {:induction false} OrderOf(reqs: seq<Req>) returns (order: seq<Req>)
    ensures Ordered(order, reqs)
  {
    if reqs == [] {
      order := [];
    } else {
      var front, r := reqs[..|reqs| - 1], reqs[|reqs| - 1];
      var sorted := OrderOf(front);
      var i := SpotOf(sorted, r, |sorted|);
      order := sorted[..i] + [r] + sorted[i..];
      InsertedSorted(sorted, r, i);
      InsertedSame(sorted, r, i);
      assert reqs == front + [r];
    }
  }

  // ---------------------------------------------------------------- every epoch number can be reached

  /** What is still to be sent out before all counters are at `goal`. */
  ghost function Todo(w: World, goal: nat): set<(Shard, nat)> {
    set sh, k: nat | sh in w.nodes && w.nodes[sh].s.epoch <= k < goal :: (sh, k)
  }

  ghost function Owing(w: World): set<(Shard, nat)> {
    set sh, k | sh in w.nodes && k in w.nodes[sh].owed :: (sh, k)
  }

  /** The rank of a state: each step taken below lowers it. */
  ghost predicate Lower(d: World, w: World, goal: nat) {
    || Todo(d, goal) < Todo(w, goal)
    || (Todo(d, goal) == Todo(w, goal) && |d.net| < |w.net|)
    || (Todo(d, goal) == Todo(w, goal) && d.net == w.net && Owing(d) < Owing(w))
    || (Todo(d, goal) == Todo(w, goal) && d.net == w.net && Owing(d) == Owing(w) && |d.acks| < |w.acks|)
  }

  lemma TickLowers(w: World, at: Shard, out: set<EpochMsg>, goal: nat)
    requires Enabled(w, Tick(at, out)) && w.nodes[at].s.epoch < goal
    ensures Lower(Next(w, Tick(at, out)), w, goal)
  {
    var d := Next(w, Tick(at, out));
    assert (at, w.nodes[at].s.epoch) in Todo(w, goal) && (at, w.nodes[at].s.epoch) !in Todo(d, goal);
  }

  lemma SameTodo(w: World, d: World, goal: nat)
    requires d.nodes.Keys == w.nodes.Keys && forall sh :: sh in w.nodes ==> d.nodes[sh].s.epoch == w.nodes[sh].s.epoch
    ensures Todo(d, goal) == Todo(w, goal)
  {}

  lemma TakeLowers(w: World, m: EpochMsg, order: seq<Req>, goal: nat)
    requires Enabled(w, Take(m, order))
    ensures Lower(Next(w, Take(m, order)), w, goal)
  {
    TakeShape(w.nodes[m.dest], m, order);
    SameTodo(w, Next(w, Take(m, order)), goal);
  }

  lemma FinishLowers(w: World, at: Shard, k: nat, goal: nat)
    requires Enabled(w, Finish(at, k))
    ensures Lower(Next(w, Finish(at, k)), w, goal)
  {
    var d := Next(w, Finish(at, k));
    SameTodo(w, d, goal);
    assert (at, k) in Owing(w) && (at, k) !in Owing(d);
  }

  lemma AckLowers(w: World, a: Ack, goal: nat)
    requires Enabled(w, TakeAck(a))
    ensures Lower(Next(w, TakeAck(a)), w, goal)
  {
    var d := Next(w, TakeAck(a));
    SameTodo(w, d, goal);
    assert Owing(d) == Owing(w);
  }

  lemma {:induction false} LowestOf(w: World, part: set<Shard>) returns (low: Shard)
    requires part != {} && part <= w.nodes.Keys
    ensures low in part && forall sh :: sh in part ==> w.nodes[low].s.epoch <= w.nodes[sh].s.epoch
    decreases part
  {
    var a :| a in part;
    low := a;
    if part - {a} != {} {
      var b := LowestOf(w, part - {a});
      if w.nodes[b].s.epoch < w.nodes[a].s.epoch { low := b; }
    }
    assert forall sh :: sh in part ==> sh == a || sh in part - {a};
  }

  /** Every sequencer has come to the epoch number `goal`. */
  ghost predicate AllAt(w: World, goal: nat) { forall sh :: sh in w.nodes ==> w.nodes[sh].s.epoch >= goal }

  lemma TakeStep(w: World, goal: nat) returns (e: Event)
    requires EpochInv(w) && w.net != multiset{}
    ensures Enabled(w, e) && Lower(Next(w, e), w, goal)
  {
    var m :| m in w.net;
    MsgIsComing(w, m);
    var order := OrderOf(Gathered(w.nodes[m.dest].s, m.src, m.epoch, m.reqs).reqs);
    e := Take(m, order);
    TakeLowers(w, m, order, goal);
  }

  lemma AckArrives(w: World, goal: nat) returns (e: Event)
    requires AcksKnown(w) && w.acks != multiset{}
    ensures Enabled(w, e) && Lower(Next(w, e), w, goal)
  {
    var a :| a in w.acks;
    e := TakeAck(a);
    AckLowers(w, a, goal);
  }

  lemma FinishStep(w: World, sh: Shard, goal: nat) returns (e: Event)
    requires sh in w.nodes && w.nodes[sh].owed != {}
    ensures Enabled(w, e) && Lower(Next(w, e), w, goal)
  {
    var k :| k in w.nodes[sh].owed;
    e := Finish(sh, k);
    FinishLowers(w, sh, k, goal);
  }

  lemma BusyStep(w: World, goal: nat) returns (e: Event)
    requires EpochInv(w) && !AtRest(w)
    ensures Enabled(w, e) && Lower(Next(w, e), w, goal)
  {
    if w.net != multiset{} {
      e := TakeStep(w, goal);
    } else if w.acks != multiset{} {
      e := AckArrives(w, goal);
    } else {
      var sh :| sh in w.nodes && w.nodes[sh].owed != {};
      e := FinishStep(w, sh, goal);
    }
  }

  lemma RestStep(shards: set<Shard>, es: seq<Event>, goal: nat) returns (e: Event)
    requires Legal(shards, es) && shards != {} && AtRest(After(shards, es)) && !AllAt(After(shards, es), goal)
    ensures Enabled(After(shards, es), e) && Lower(Next(After(shards, es), e), After(shards, es), goal)
  {
    var w := After(shards, es);
    EveryRunInOrder(shards, es);
    var low := LowestOf(w, w.nodes.Keys);
    RestPending(shards, es, low);
    var out := EachOf(low, w.shards, w.nodes[low].s.epoch, w.nodes[low].s.next);
    e := Tick(low, out);
    TickLowers(w, low, out, goal);
  }

  lemma OneMoreEvent(shards: set<Shard>, es: seq<Event>, e: Event)
    requires Legal(shards, es) && Enabled(After(shards, es), e)
    ensures Legal(shards, es + [e]) && After(shards, es + [e]) == Next(After(shards, es), e)
  {
    assert (es + [e])[..|es + [e]| - 1] == es;
  }

  /** From every state of every run, the run can go on until every sequencer has come to any epoch number. */
  lemma {:induction false} EveryEpochReached(shards: set<Shard>, es: seq<Event>, goal: nat) returns (more: seq<Event>)
    requires Legal(shards, es) && shards != {}
    ensures es <= more && Legal(shards, more) && AllAt(After(shards, more), goal)
    decreases Todo(After(shards, es), goal), |After(shards, es).net|, Owing(After(shards, es)), |After(shards, es).acks|
  {
    var w := After(shards, es);
    if AllAt(w, goal) {
      more := es;
    } else {
      EveryRunInOrder(shards, es);
      var e;
      if AtRest(w) { e := RestStep(shards, es, goal); } else { e := BusyStep(w, goal); }
      OneMoreEvent(shards, es, e);
      more := EveryEpochReached(shards, es + [e], goal);
    }
  }
}
