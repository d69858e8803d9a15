/** How commit indices spread: a request carries what its sender had committed when it sent it, and
    a node that answers it with success has committed that much of its own log. */
module RaftSpread {
  import opened RaftNodes
  import opened RaftCluster
  import opened RaftDelivery

  function Max(a: nat, b: nat): nat { if a >= b then a else b }

  // ---------------------------------------------------------------- what is sent

  /** The request tells how far node `u` has committed and compacted, and holds its log from just
      after `m.prev` on, as far as a batch goes. */
  ghost predicate Carries(u: Node, m: Msg)
    requires m.AppendReq?
  {
    && m.src == u.id && m.term == u.term && m.commit == u.commit && m.consistency == u.base
    && m.prevTerm == (if u.base < m.prev <= Last(u) then u.log[m.prev - u.base - 1].term else 0)
    && m.entries == (if u.base <= m.prev <= Last(u)
                     then u.log[m.prev - u.base..Min(|u.log|, m.prev - u.base + u.batch)] else [])
  }

  ghost predicate SendStep(r: (Node, set<Msg>)) {
    forall m :: m in r.1 && m.AppendReq? ==> Carries(r.0, m)
  }

  ghost predicate Nexts(n: Node) { forall q :: q in n.progress ==> n.progress[q].next >= 1 }

  lemma AppendToCarries(n: Node, to: Id, p: Progress)
    requires p.next >= 1
    ensures Carries(n, AppendTo(n, to, p))
  {}

  lemma CarriesSame(n: Node, u: Node, m: Msg)
    requires m.AppendReq? && Carries(n, m) && u == n.(progress := u.progress)
    ensures Carries(u, m)
  {}

  lemma SendCarries(n: Node, u: Node, id: Id)
    requires Nexts(n) && id in n.progress && u == n.(progress := u.progress)
    ensures Carries(u, AppendTo(n, id, n.progress[id]))
  {
    AppendToCarries(n, id, n.progress[id]);
    CarriesSame(n, u, AppendTo(n, id, n.progress[id]));
  }

  lemma SendAllCarries(n: Node)
    requires Nexts(n)
    ensures SendStep(SendAll(n))
  {
    SendAllKeeps(n);
    forall m | m in SendAll(n).1 && m.AppendReq? ensures Carries(SendAll(n).0, m) {
      var id :| id in n.progress && id != n.id && m == AppendTo(n, id, n.progress[id]);
      SendCarries(n, SendAll(n).0, id);
    }
  }

  lemma VoteRespSends(n: Node, m: Msg)
    requires m.VoteResp?
    ensures SendStep(OnVoteResp(n, m))
  {
    var u := UpdateTerm(n, m.term);
    var v := u.(responded := u.responded + {m.src}, granted := if m.granted then u.granted + {m.src} else u.granted);
    SendAllCarries(Elected(v));
  }

  lemma WriteSends(n: Node, w: Write)
    requires NodeDelivers(n)
    ensures SendStep(OnWrite(n, w))
  {
    if w.LeaderWrite? {
      OwnMatchDelivers(n, w);
      SendAllCarries(OwnMatch(n, w));
      assert OnWrite(n, w) == SendAll(OwnMatch(n, w));
    }
  }

  lemma NudgeSends(n: Node, to: Id)
    requires NodeDelivers(n)
    ensures SendStep(Nudge(n, to))
  {
    if to in n.progress {
      AppendToCarries(n, to, n.progress[to]);
      CarriesSame(n, Nudge(n, to).0, AppendTo(n, to, n.progress[to]));
    }
  }

  lemma HandleSends(n: Node, e: Event)
    requires NodeDelivers(n)
    ensures SendStep(Handle(n, e))
  {
    match e
    case Receive(m) =>
      if m.VoteResp? { VoteRespSends(n, m); }
    case WriteDone(_, w) => WriteSends(n, w); assert Handle(n, e) == OnWrite(n, w);
    case NudgeAt(_, to) => NudgeSends(n, to); assert Handle(n, e) == Nudge(n, to);
    case BeatAt(_) => SendAllCarries(n);
    case _ =>
  }

  /** Node `m.src` was, after the events `es`, as the request says. */
  ghost predicate SentAfter(ids: set<Id>, batch: nat, es: seq<Event>, m: Msg)
    requires m.AppendReq?
  {
    && Legal(Start(ids, batch), es) && m.src in After(Start(ids, batch), es).nodes
    && Carries(After(Start(ids, batch), es).nodes[m.src], m)
  }

  ghost predicate SentIn(ids: set<Id>, batch: nat, es: seq<Event>, m: Msg)
    requires m.AppendReq?
  {
    exists i :: 0 <= i <= |es| && SentAfter(ids, batch, es[..i], m)
  }

  lemma SentLonger(ids: set<Id>, batch: nat, es: seq<Event>, m: Msg)
    requires es != [] && m.AppendReq? && SentIn(ids, batch, es[..|es| - 1], m)
    ensures SentIn(ids, batch, es, m)
  {
    var front := es[..|es| - 1];
    var i :| 0 <= i <= |front| && SentAfter(ids, batch, front[..i], m);
    assert front[..i] == es[..i];
  }

  lemma SentLast(c: Cluster, e: Event, m: Msg)
    requires ElectionInv(c) && DeliveryInv(c) && Enabled(c, e) && m.AppendReq? && m !in c.net && m in Next(c, e).net
    ensures m.src in Next(c, e).nodes && Carries(Next(c, e).nodes[m.src], m)
  {
    var n := c.nodes[Actor(e)];
    assert NodeVotes(c.net, c.nodes.Keys, Actor(e), n);
    HandleSends(n, e);
    HandleElects(n, e);
  }

  /** Every request of every run carries exactly what its sender had at the point of sending. */
  lemma {:induction false} EveryRequestSent(ids: set<Id>, batch: nat, es: seq<Event>, m: Msg)
    requires Legal(Start(ids, batch), es) && m.AppendReq? && m in After(Start(ids, batch), es).net
    ensures SentIn(ids, batch, es, m)
  {
    var front, e := es[..|es| - 1], es[|es| - 1];
    if m in After(Start(ids, batch), front).net {
      EveryRequestSent(ids, batch, front, m);
      SentLonger(ids, batch, es, m);
    } else {
      EveryRunElects(ids, batch, front);
      EveryRunDelivers(ids, batch, front);
      SentLast(After(Start(ids, batch), front), e, m);
      assert es[..|es|] == es;
      assert SentAfter(ids, batch, es[..|es|], m);
    }
  }

  /** A leadership transfer makes a node that is not a follower send what the other lacks. */
  lemma NudgeReaches(ids: set<Id>, batch: nat, es: seq<Event>, l: Id, to: Id) returns (m: Msg)
    requires Legal(Start(ids, batch), es) && l in After(Start(ids, batch), es).nodes
    requires var n := After(Start(ids, batch), es).nodes[l];
      n.role != Follower && to != l && to in n.progress && n.progress[to].matched != Last(n)
    ensures Enabled(After(Start(ids, batch), es), NudgeAt(l, to)) && m.AppendReq? && m.dest == to
    ensures m in Next(After(Start(ids, batch), es), NudgeAt(l, to)).net
    ensures Carries(Next(After(Start(ids, batch), es), NudgeAt(l, to)).nodes[l], m)
  {
    var c := After(Start(ids, batch), es);
    var n := c.nodes[l];
    EveryRunElects(ids, batch, es);
    EveryRunDelivers(ids, batch, es);
    assert NodeVotes(c.net, c.nodes.Keys, l, n) && NodeDelivers(n);
    m := AppendTo(n, to, n.progress[to]);
    NudgeSends(n, to);
  }

  // ---------------------------------------------------------------- what is answered

  predicate Success(m: Msg) { m.AppendResp? && m.success }

  /** How far a node that has compacted up to `base` agrees with the request's sender once it has
      accepted the request. */
  function Reach(m: Msg, base: nat): nat
    requires m.AppendReq?
  {
    Max(m.prev + |m.entries|, base)
  }

  /** A write under way keeps what the request at hand said. */
  predicate KeepsOf(w: Write, m: Msg)
    requires m.AppendReq?
  {
    && w.FollowerWrite? && w.to == m.src && w.commit == m.commit && w.consistency == m.consistency
    && w.matched >= m.prev + |m.entries|
  }

  /** The commit index follows the index `c` as far as the log goes. */
  predicate Follows(n: Node, u: Node, c: nat) { u.commit == Max(n.commit, Min(c, Last(u))) }

  /** A success answers either the request at hand or the one a completed write was made for. */
  ghost predicate AnswerStep(n: Node, r: (Node, set<Msg>), e: Event) {
    && (forall m :: m in r.1 && Success(m) ==>
          || (e.Receive? && e.msg.AppendReq? && m.dest == e.msg.src && Follows(n, r.0, e.msg.commit)
              && m.matched == Reach(e.msg, n.base))
          || (e.WriteDone? && e.write.FollowerWrite? && m.dest == e.write.to && Follows(n, r.0, e.write.commit)
              && m.matched == e.write.matched))
    && (forall w :: w in r.0.writes && w.FollowerWrite? ==>
          w in n.writes || (e.Receive? && e.msg.AppendReq? && KeepsOf(w, e.msg) && w.matched == Reach(e.msg, n.base)))
  }

  lemma CommitFollows(n: Node, c: nat, consistency: nat)
    requires NodeDelivers(n)
    ensures Follows(n, UpdateConsistency(UpdateCommit(n, c), consistency), c)
    ensures UpdateConsistency(UpdateCommit(n, c), consistency).writes == n.writes
  {}

  lemma StoreAnswers(n: Node, m: Msg)
    requires m.AppendReq? && LogOk(n, m.prev, m.prevTerm) && NodeDelivers(n)
    ensures AnswerStep(n, Store(n, m), Receive(m))
  {
    CommitFollows(n, m.commit, m.consistency);
  }

  lemma AppendReqAnswers(n: Node, m: Msg)
    requires m.AppendReq? && NodeDelivers(n)
    ensures AnswerStep(n, OnAppendReq(n, m), Receive(m))
  {
    var u := n.(leader := m.src);
    CommitFollows(u, m.commit, m.consistency);
    if m.term == n.term && n.role == Follower && LogOk(u, m.prev, m.prevTerm) && m.entries != [] {
      StoreAnswers(u, m);
      assert OnAppendReq(n, m) == Store(u, m);
    }
  }

  lemma WriteAnswers(n: Node, w: Write, e: Event)
    requires NodeDelivers(n) && e.WriteDone? && e.write == w
    ensures AnswerStep(n, OnWrite(n, w), e)
  {
    var u := n.(writes := n.writes - multiset{w});
    if w.VoteWrite? {
      assert OnWrite(n, w) == (u, RequestVote(u));
    } else if w.LeaderWrite? {
      SendAllKeeps(OwnMatch(n, w));
      assert OnWrite(n, w) == SendAll(OwnMatch(n, w));
    } else {
      CommitFollows(u, w.commit, w.consistency);
    }
  }

  lemma QuietAnswers(n: Node, r: (Node, set<Msg>), e: Event)
    requires forall m :: m in r.1 ==> !m.AppendResp?
    requires forall w :: w in r.0.writes && w.FollowerWrite? ==> w in n.writes
    ensures AnswerStep(n, r, e)
  {}

  lemma VoteRespAnswers(n: Node, m: Msg)
    requires m.VoteResp?
    ensures AnswerStep(n, OnVoteResp(n, m), Receive(m))
  {
    var u := UpdateTerm(n, m.term);
    var v := u.(responded := u.responded + {m.src}, granted := if m.granted then u.granted + {m.src} else u.granted);
    SendAllKeeps(Elected(v));
    QuietAnswers(n, OnVoteResp(n, m), Receive(m));
  }

  lemma AppendRespAnswers(n: Node, m: Msg)
    requires m.AppendResp?
    ensures AnswerStep(n, (OnAppendResp(n, m), {}), Receive(m))
  {
    var u := UpdateTerm(n, m.term);
    if m.src in u.progress && m.term == u.term {
      AdvanceCommitKeeps(u.(progress := u.progress[m.src := Learn(u.progress[m.src], m, u.base)]));
    }
  }

  lemma HandleAnswers(n: Node, e: Event)
    requires NodeDelivers(n)
    ensures AnswerStep(n, Handle(n, e), e)
  {
    match e
    case Receive(m) =>
      match m {
        case VoteReq(_, _, _, _, _) =>
        case VoteResp(_, _, _, _) => VoteRespAnswers(n, m);
        case AppendReq(_, _, _, _, _, _, _, _) => AppendReqAnswers(n, m);
        case AppendResp(_, _, _, _, _, _) => AppendRespAnswers(n, m);
      }
    case BeatAt(_) => SendAllKeeps(n); QuietAnswers(n, HeartBeat(n), e);
    case WriteDone(_, w) => WriteAnswers(n, w, e); assert Handle(n, e) == OnWrite(n, w);
    case NudgeAt(_, to) => QuietAnswers(n, Nudge(n, to), e);
    case CompactAt(_) => ConsistencyKeeps(n, SettledIndex(n, |n.log|)); QuietAnswers(n, (Compact(n), {}), e);
    case SubmitAt(_, _) =>
    case TimeoutAt(_) =>
  }

  /** The write `w` of node `f` was made for a request. */
  ghost predicate Asked(net: set<Msg>, f: Id, w: Write) {
    exists m :: m in net && m.AppendReq? && m.dest == f && KeepsOf(w, m)
  }

  ghost predicate WriteInv(c: Cluster) {
    forall f, w :: f in c.nodes && w in c.nodes[f].writes && w.FollowerWrite? ==> Asked(c.net, f, w)
  }

  lemma NextKeepsWrites(c: Cluster, e: Event)
    requires WriteInv(c) && DeliveryInv(c) && Enabled(c, e)
    ensures WriteInv(Next(c, e))
  {
    var d, id := Next(c, e), Actor(e);
    HandleAnswers(c.nodes[id], e);
    forall f, w | f in d.nodes && w in d.nodes[f].writes && w.FollowerWrite? ensures Asked(d.net, f, w) {
      if w in c.nodes[f].writes {
        assert Asked(c.net, f, w);
        var m :| m in c.net && m.AppendReq? && m.dest == f && KeepsOf(w, m);
        assert m in d.net;
      } else {
        assert e.msg in d.net && KeepsOf(w, e.msg);
      }
    }
  }

  lemma {:induction false} EveryRunWrites(ids: set<Id>, batch: nat, es: seq<Event>)
    requires Legal(Start(ids, batch), es)
    ensures WriteInv(After(Start(ids, batch), es))
  {
    if es != [] {
      EveryRunWrites(ids, batch, es[..|es| - 1]);
      EveryRunDelivers(ids, batch, es[..|es| - 1]);
      NextKeepsWrites(After(Start(ids, batch), es[..|es| - 1]), es[|es| - 1]);
    }
  }

  lemma RequestBehind(c: Cluster, e: Event, m: Msg) returns (req: Msg)
    requires WriteInv(c) && DeliveryInv(c) && Enabled(c, e) && Success(m) && m in Handle(c.nodes[Actor(e)], e).1
    ensures req in c.net && req.AppendReq? && req.src == m.dest && req.dest == Actor(e)
    ensures Follows(c.nodes[Actor(e)], Next(c, e).nodes[Actor(e)], req.commit)
    ensures m.matched >= req.prev + |req.entries|
  {
    HandleAnswers(c.nodes[Actor(e)], e);
    if e.Receive? {
      req := e.msg;
    } else {
      assert Asked(c.net, Actor(e), e.write);
      req :| req in c.net && req.AppendReq? && req.dest == Actor(e) && KeepsOf(e.write, req);
    }
  }

  /** When a node answers a request `req` with success, its commit index is the one it had or what the
      sender had committed at the point `i` of sending, cut to its own log, whichever is the higher;
      and it says that it agrees with the sender at least to the end of the request. */
  lemma CommitSpreads(ids: set<Id>, batch: nat, es: seq<Event>, e: Event, m: Msg)
      returns (req: Msg, i: nat)
    requires Legal(Start(ids, batch), es) && Enabled(After(Start(ids, batch), es), e)
    requires Success(m) && m in Handle(After(Start(ids, batch), es).nodes[Actor(e)], e).1
    ensures req.AppendReq? && req in After(Start(ids, batch), es).net && req.src == m.dest && req.dest == Actor(e)
    ensures i <= |es| && SentAfter(ids, batch, es[..i], req) && m.matched >= req.prev + |req.entries|
    ensures var n := After(Start(ids, batch), es).nodes[Actor(e)];
      var u := Next(After(Start(ids, batch), es), e).nodes[Actor(e)];
      u.commit == Max(n.commit, Min(After(Start(ids, batch), es[..i]).nodes[m.dest].commit, Last(u)))
  {
    var c := After(Start(ids, batch), es);
    EveryRunDelivers(ids, batch, es);
    EveryRunWrites(ids, batch, es);
    req := RequestBehind(c, e, m);
    EveryRequestSent(ids, batch, es, req);
    i :| 0 <= i <= |es| && SentAfter(ids, batch, es[..i], req);
  }
}
