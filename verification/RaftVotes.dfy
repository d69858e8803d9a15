/** Whom a node votes for: only a candidate whose log ends no earlier than its own, so that
    a leader's log ends no earlier than those of a majority (section 5.4.1 of the Raft paper). */
module RaftVotes {
  import opened Base
  import opened RaftNodes
  import opened RaftCluster
  import opened RaftDelivery

  /** The log of `a` ends in a lower term than that of `b`, or in the same term and at no later index. */
  predicate EndsNoLater(a: Node, b: Node) {
    if a.log == [] then b.log != [] || a.base <= b.base
    else
      b.log != [] &&
      var x, y := a.log[|a.log| - 1], b.log[|b.log| - 1];
      x.term < y.term || (x.term == y.term && x.index <= y.index)
  }

  lemma UpToDateIsEndsNoLater(a: Node, b: Node)
    requires NodeDelivers(a) && NodeDelivers(b)
    ensures UpToDate(a, Last(b), LastTerm(b)) <==> EndsNoLater(a, b)
  {}

  // ---------------------------------------------------------------- one step of one node

  predicate SameEnd(n: Node, u: Node) { Last(u) == Last(n) && LastTerm(u) == LastTerm(n) }

  /** The request says how the candidate's log ends. */
  predicate Asks(n: Node, m: Msg)
    requires m.VoteReq?
  {
    m.src == n.id && n.role == Candidate && m.term == n.term && m.lastIndex == Last(n) && m.lastTerm == LastTerm(n)
  }

  /** The vote `m` is the answer of node `n` to the event `e`. */
  predicate Gives(n: Node, e: Event, m: Msg)
    requires Vote(m)
  {
    && e.Receive? && e.msg.VoteReq? && e.msg.src == m.dest && m.src == n.id && e.msg.term == m.term && n.term <= m.term
    && UpToDate(n, e.msg.lastIndex, e.msg.lastTerm)
  }

  /** What a handler may do to the end of its node's log, and what it may ask and answer. */
  ghost predicate VoteStep(n: Node, r: (Node, set<Msg>), e: Event) {
    && (forall m :: m in r.1 && m.VoteReq? ==> Asks(r.0, m))
    && (forall m :: m in r.1 && Vote(m) ==> Gives(n, e, m))
    && (n.role == Candidate && r.0.role != Follower && r.0.term == n.term ==> SameEnd(n, r.0))
  }

  lemma ConsistencyKeepsEnd(n: Node, index: nat)
    ensures SameEnd(n, UpdateConsistency(n, index))
  {}

  lemma QuietStep(n: Node, r: (Node, set<Msg>), e: Event)
    requires SameEnd(n, r.0) || n.role != Candidate || r.0.role == Follower
    requires forall m :: m in r.1 ==> !m.VoteReq? && !m.VoteResp?
    ensures VoteStep(n, r, e)
  {}

  lemma VoteRespStep(n: Node, m: Msg)
    requires m.VoteResp?
    ensures VoteStep(n, OnVoteResp(n, m), Receive(m))
  {
    var u := UpdateTerm(n, m.term);
    if m.term == u.term {
      var v := u.(responded := u.responded + {m.src}, granted := if m.granted then u.granted + {m.src} else u.granted);
      if v.role == Candidate && |v.granted| * 2 > |v.peers| { SendAllKeeps(Elected(v)); }
    }
    QuietStep(n, OnVoteResp(n, m), Receive(m));
  }

  lemma AppendReqStep(n: Node, m: Msg)
    requires m.AppendReq?
    ensures VoteStep(n, OnAppendReq(n, m), Receive(m))
  {
    var u := n.(leader := m.src);
    if m.term == n.term && n.role == Follower && LogOk(u, m.prev, m.prevTerm) && m.entries != [] {
      StoreKeepsBallot(u, m);
    }
    QuietStep(n, OnAppendReq(n, m), Receive(m));
  }

  lemma AppendRespStep(n: Node, m: Msg)
    requires m.AppendResp?
    ensures VoteStep(n, (OnAppendResp(n, m), {}), Receive(m))
  {
    var u := UpdateTerm(n, m.term);
    if m.src in u.progress && m.term == u.term {
      AdvanceCommitKeeps(u.(progress := u.progress[m.src := Learn(u.progress[m.src], m, u.base)]));
    }
  }

  lemma StoredStep(n: Node, w: Write, e: Event)
    requires w.FollowerWrite?
    ensures VoteStep(n, OnWrite(n, w), e)
  {
    var u := n.(writes := n.writes - multiset{w});
    CommitKeeps(u, w.commit);
    ConsistencyKeepsEnd(UpdateCommit(u, w.commit), w.consistency);
    QuietStep(n, OnWrite(n, w), e);
  }

  lemma WriteStep(n: Node, w: Write, e: Event)
    ensures VoteStep(n, OnWrite(n, w), e)
  {
    match w
    case VoteWrite =>
    case LeaderWrite(_) =>
      SendAllKeeps(OwnMatch(n, w));
      assert OnWrite(n, w) == SendAll(OwnMatch(n, w));
      QuietStep(n, OnWrite(n, w), e);
    case FollowerWrite(_, _, _, _) => StoredStep(n, w, e);
  }

  lemma HandleVotes(n: Node, e: Event)
    ensures VoteStep(n, Handle(n, e), e)
  {
    match e
    case Receive(m) =>
      match m {
        case VoteReq(_, _, _, _, _) =>
        case VoteResp(_, _, _, _) => VoteRespStep(n, m);
        case AppendReq(_, _, _, _, _, _, _, _) => AppendReqStep(n, m);
        case AppendResp(_, _, _, _, _, _) => AppendRespStep(n, m);
      }
    case BeatAt(_) => SendAllKeeps(n); QuietStep(n, HeartBeat(n), e);
    case WriteDone(_, w) => WriteStep(n, w, e); assert Handle(n, e) == OnWrite(n, w);
    case NudgeAt(_, to) => QuietStep(n, Nudge(n, to), e);
    case CompactAt(_) => ConsistencyKeepsEnd(n, SettledIndex(n, |n.log|)); QuietStep(n, (Compact(n), {}), e);
    case SubmitAt(_, _) =>
    case TimeoutAt(_) =>
  }

  // ---------------------------------------------------------------- every run

  /** A request of a candidate that still stands in its term says how its log ends. */
  ghost predicate Stands(n: Node, m: Msg)
    requires m.VoteReq?
  {
    && m.term <= n.term
    && (m.term == n.term && n.role == Candidate ==> m.lastIndex == Last(n) && m.lastTerm == LastTerm(n))
  }

  ghost predicate AskInv(c: Cluster) {
    forall m :: m in c.net && m.VoteReq? ==> m.src in c.nodes && Stands(c.nodes[m.src], m)
  }

  lemma MovedKeepsAsks(c: Cluster, id: Id, r: (Node, set<Msg>), e: Event)
    requires AskInv(c) && id in c.nodes && c.nodes[id].id == id
    requires ElectionStep(c.nodes[id], r.0, r.1, e) && VoteStep(c.nodes[id], r, e)
    ensures AskInv(Moved(c, id, r))
  {
    var d := Moved(c, id, r);
    forall m | m in d.net && m.VoteReq? ensures m.src in d.nodes && Stands(d.nodes[m.src], m) {
      if m in c.net { assert Stands(c.nodes[m.src], m); }
    }
  }

  /** At the event `e`, after the events `es`, the vote `m` was given. */
  ghost predicate GivenBy(ids: set<Id>, batch: nat, es: seq<Event>, e: Event, m: Msg)
    requires Vote(m)
  {
    && Legal(Start(ids, batch), es + [e]) && Legal(Start(ids, batch), es)
    && m.src in After(Start(ids, batch), es).nodes && Gives(After(Start(ids, batch), es).nodes[m.src], e, m)
    && e.Receive? && e.msg in After(Start(ids, batch), es).net && e.msg.dest == m.src
    && m !in After(Start(ids, batch), es).net && m in After(Start(ids, batch), es + [e]).net
  }

  ghost predicate GivenIn(ids: set<Id>, batch: nat, es: seq<Event>, m: Msg)
    requires Vote(m)
  {
    exists i :: 0 <= i < |es| && GivenBy(ids, batch, es[..i], es[i], m)
  }

  lemma GivenLonger(ids: set<Id>, batch: nat, es: seq<Event>, m: Msg)
    requires es != [] && Vote(m) && GivenIn(ids, batch, es[..|es| - 1], m)
    ensures GivenIn(ids, batch, es, m)
  {
    var front := es[..|es| - 1];
    var i :| 0 <= i < |front| && GivenBy(ids, batch, front[..i], front[i], m);
    assert front[..i] == es[..i] && front[i] == es[i];
  }

  ghost predicate AllGiven(ids: set<Id>, batch: nat, es: seq<Event>, net: set<Msg>) {
    forall m :: m in net && Vote(m) ==> GivenIn(ids, batch, es, m)
  }

  lemma GivenNow(c: Cluster, e: Event, m: Msg)
    requires ElectionInv(c) && Enabled(c, e) && Vote(m) && m !in c.net && m in Next(c, e).net
    ensures m.src == Actor(e) && Gives(c.nodes[m.src], e, m)
  {
    HandleVotes(c.nodes[Actor(e)], e);
    assert NodeVotes(c.net, c.nodes.Keys, Actor(e), c.nodes[Actor(e)]);
  }

  lemma OneMore(ids: set<Id>, batch: nat, es: seq<Event>, e: Event)
    requires Legal(Start(ids, batch), es) && Enabled(After(Start(ids, batch), es), e)
    ensures Legal(Start(ids, batch), es + [e])
    ensures After(Start(ids, batch), es + [e]) == Next(After(Start(ids, batch), es), e)
  {
    assert (es + [e])[..|es + [e]| - 1] == es;
  }

  lemma GivenLast(ids: set<Id>, batch: nat, es: seq<Event>, e: Event, m: Msg)
    requires Legal(Start(ids, batch), es) && Enabled(After(Start(ids, batch), es), e) && Vote(m)
    requires m in Next(After(Start(ids, batch), es), e).net && m !in After(Start(ids, batch), es).net
    ensures GivenBy(ids, batch, es, e, m)
  {
    EveryRunElects(ids, batch, es);
    GivenNow(After(Start(ids, batch), es), e, m);
    OneMore(ids, batch, es, e);
  }

  lemma {:induction false} EveryRunVotes(ids: set<Id>, batch: nat, es: seq<Event>)
    requires Legal(Start(ids, batch), es)
    ensures AskInv(After(Start(ids, batch), es))
    ensures AllGiven(ids, batch, es, After(Start(ids, batch), es).net)
  {
    if es != [] {
      var front, e := es[..|es| - 1], es[|es| - 1];
      var c := After(Start(ids, batch), front);
      var id := Actor(e);
      EveryRunVotes(ids, batch, front);
      EveryRunElects(ids, batch, front);
      assert NodeVotes(c.net, c.nodes.Keys, id, c.nodes[id]);
      HandleElects(c.nodes[id], e);
      HandleVotes(c.nodes[id], e);
      MovedKeepsAsks(c, id, Handle(c.nodes[id], e), e);
      forall m | m in After(Start(ids, batch), es).net && Vote(m) ensures GivenIn(ids, batch, es, m) {
        if m in c.net { GivenLonger(ids, batch, es, m); } else { GivenLast(ids, batch, front, e, m); }
      }
    }
  }

  /** At some point of the run the candidate asked what `m` asks. */
  ghost predicate AskedAt(ids: set<Id>, batch: nat, es: seq<Event>, m: Msg)
    requires m.VoteReq?
  {
    && Legal(Start(ids, batch), es) && m.src in After(Start(ids, batch), es).nodes
    && Asks(After(Start(ids, batch), es).nodes[m.src], m)
  }

  ghost predicate AskedIn(ids: set<Id>, batch: nat, es: seq<Event>, m: Msg)
    requires m.VoteReq?
  {
    exists i :: 0 <= i <= |es| && AskedAt(ids, batch, es[..i], m)
  }

  lemma AskedLast(c: Cluster, e: Event, m: Msg)
    requires ElectionInv(c) && Enabled(c, e) && m.VoteReq? && m !in c.net && m in Next(c, e).net
    ensures m.src in Next(c, e).nodes && Asks(Next(c, e).nodes[m.src], m)
  {
    var n := c.nodes[Actor(e)];
    assert NodeVotes(c.net, c.nodes.Keys, Actor(e), n);
    HandleVotes(n, e);
    HandleElects(n, e);
  }

  lemma AskedLonger(ids: set<Id>, batch: nat, es: seq<Event>, m: Msg)
    requires es != [] && m.VoteReq? && AskedIn(ids, batch, es[..|es| - 1], m)
    ensures AskedIn(ids, batch, es, m)
  {
    var front := es[..|es| - 1];
    var i :| 0 <= i <= |front| && AskedAt(ids, batch, front[..i], m);
    assert front[..i] == es[..i];
  }

  lemma {:induction false} EveryRequestAsked(ids: set<Id>, batch: nat, es: seq<Event>, m: Msg)
    requires Legal(Start(ids, batch), es) && m.VoteReq? && m in After(Start(ids, batch), es).net
    ensures AskedIn(ids, batch, es, m)
  {
    var front, e := es[..|es| - 1], es[|es| - 1];
    if m in After(Start(ids, batch), front).net {
      EveryRequestAsked(ids, batch, front, m);
      AskedLonger(ids, batch, es, m);
    } else {
      EveryRunElects(ids, batch, front);
      AskedLast(After(Start(ids, batch), front), e, m);
      assert es[..|es|] == es;
      assert AskedAt(ids, batch, es[..|es|], m);
    }
  }

  // ---------------------------------------------------------------- leaders

  /** At the event `e`, after the events `es`, node `v` voted for `cand`, whose log ended no
      earlier than its own. */
  ghost predicate VotedBy(ids: set<Id>, batch: nat, es: seq<Event>, e: Event, v: Id, cand: Node) {
    && Legal(Start(ids, batch), es) && Legal(Start(ids, batch), es + [e])
    && e.Receive? && e.msg.VoteReq? && e.msg.src == cand.id && e.msg.dest == v && e.msg.term == cand.term
    && v in After(Start(ids, batch), es).nodes && EndsNoLater(After(Start(ids, batch), es).nodes[v], cand)
    && VoteResp(v, cand.id, cand.term, true) !in After(Start(ids, batch), es).net
    && VoteResp(v, cand.id, cand.term, true) in After(Start(ids, batch), es + [e]).net
  }

  ghost predicate VotedIn(ids: set<Id>, batch: nat, es: seq<Event>, v: Id, cand: Node) {
    exists i :: 0 <= i < |es| && VotedBy(ids, batch, es[..i], es[i], v, cand)
  }

  lemma GivenIsVoted(ids: set<Id>, batch: nat, es: seq<Event>, e: Event, v: Id, cand: Node)
    requires GivenBy(ids, batch, es, e, VoteResp(v, cand.id, cand.term, true))
    requires NodeDelivers(cand) && cand.role == Candidate && Stands(cand, e.msg)
    ensures VotedBy(ids, batch, es, e, v, cand)
  {
    EveryRunDelivers(ids, batch, es);
    UpToDateIsEndsNoLater(After(Start(ids, batch), es).nodes[v], cand);
  }

  lemma StillAsked(ids: set<Id>, batch: nat, es: seq<Event>, i: nat, m: Msg)
    requires Legal(Start(ids, batch), es) && i < |es| && Vote(m) && GivenBy(ids, batch, es[..i], es[i], m)
    ensures es[i].msg in After(Start(ids, batch), es).net
  {
    NetGrows(Start(ids, batch), es, i);
  }

  lemma VoterEndsNoLater(ids: set<Id>, batch: nat, es: seq<Event>, v: Id, cand: Node)
    requires Legal(Start(ids, batch), es) && cand.id in After(Start(ids, batch), es).nodes
    requires cand == After(Start(ids, batch), es).nodes[cand.id] && cand.role == Candidate
    requires VoteResp(v, cand.id, cand.term, true) in After(Start(ids, batch), es).net
    ensures VotedIn(ids, batch, es, v, cand)
  {
    var m := VoteResp(v, cand.id, cand.term, true);
    EveryRunVotes(ids, batch, es);
    assert NodeDelivers(cand) by { EveryRunDelivers(ids, batch, es); }
    assert GivenIn(ids, batch, es, m);
    var i: nat :| i < |es| && GivenBy(ids, batch, es[..i], es[i], m);
    StillAsked(ids, batch, es, i, m);
    GivenIsVoted(ids, batch, es[..i], es[i], v, cand);
  }

  lemma VotedSame(ids: set<Id>, batch: nat, es: seq<Event>, e: Event, v: Id, a: Node, b: Node)
    requires VotedBy(ids, batch, es, e, v, a) && b.id == a.id && b.term == a.term && SameLog(a, b)
    ensures VotedBy(ids, batch, es, e, v, b)
  {}

  lemma VotedLonger(ids: set<Id>, batch: nat, es: seq<Event>, v: Id, a: Node, b: Node)
    requires es != [] && VotedIn(ids, batch, es[..|es| - 1], v, a)
    requires b.id == a.id && b.term == a.term && SameLog(a, b)
    ensures VotedIn(ids, batch, es, v, b)
  {
    var front := es[..|es| - 1];
    var i :| 0 <= i < |front| && VotedBy(ids, batch, front[..i], front[i], v, a);
    VotedSame(ids, batch, front[..i], front[i], v, a, b);
    assert front[..i] == es[..i] && front[i] == es[i];
  }

  predicate SameLog(n: Node, u: Node) { u.log == n.log && u.base == n.base }

  lemma VoteRespKeepsLog(n: Node, m: Msg)
    requires m.VoteResp?
    ensures SameLog(n, OnVoteResp(n, m).0)
  {
    var u := UpdateTerm(n, m.term);
    var v := u.(responded := u.responded + {m.src}, granted := if m.granted then u.granted + {m.src} else u.granted);
    SendAllKeeps(Elected(v));
  }

  lemma WriteKeepsRole(n: Node, w: Write)
    ensures OnWrite(n, w).0.role == n.role
  {
    var u := n.(writes := n.writes - multiset{w});
    if w.LeaderWrite? { assert OnWrite(n, w) == SendAll(OwnMatch(n, w)); }
  }

  /** A node wins an election only by a vote, and keeps its log. */
  lemma WinnerKeepsLog(n: Node, e: Event)
    requires n.role == Candidate && Handle(n, e).0.role == Leader
    ensures SameLog(n, Handle(n, e).0)
  {
    match e
    case Receive(m) =>
      if m.VoteResp? { VoteRespKeepsLog(n, m); }
    case WriteDone(_, w) => WriteKeepsRole(n, w);
    case _ =>
  }

  /** Whoever becomes leader was voted for by a majority, and the log of each of these nodes, at
      the point where it voted, ended no later than the leader's. */
  lemma LeaderEndsLatest(ids: set<Id>, batch: nat, es: seq<Event>, l: Id) returns (q: set<Id>)
    requires Legal(Start(ids, batch), es) && es != [] && l in ids
    requires l in After(Start(ids, batch), es[..|es| - 1]).nodes && l in After(Start(ids, batch), es).nodes
    requires After(Start(ids, batch), es[..|es| - 1]).nodes[l].role != Leader
    requires After(Start(ids, batch), es).nodes[l].role == Leader
    ensures Majority(q, ids)
    ensures forall v :: v in q ==> VotedIn(ids, batch, es, v, After(Start(ids, batch), es).nodes[l])
  {
    var front, e := es[..|es| - 1], es[|es| - 1];
    var c, d := After(Start(ids, batch), front), After(Start(ids, batch), es);
    EveryRunElects(ids, batch, front);
    EveryRunElects(ids, batch, es);
    assert NodeVotes(c.net, ids, l, c.nodes[l]) && NodeVotes(d.net, ids, l, d.nodes[l]);
    assert Actor(e) == l;
    HandleElects(c.nodes[l], e);
    WinnerKeepsLog(c.nodes[l], e);
    VotersGrow(c, l, Handle(c.nodes[l], e), e);
    q := d.nodes[l].granted;
    forall v | v in q ensures VotedIn(ids, batch, es, v, d.nodes[l]) {
      assert VoteResp(v, l, d.nodes[l].term, true) in c.net;
      VoterEndsNoLater(ids, batch, front, v, c.nodes[l]);
      VotedLonger(ids, batch, es, v, c.nodes[l], d.nodes[l]);
    }
  }

  // ---------------------------------------------------------------- who is given a vote

  /** The node may vote for `l` in `term`: it is not in a later one, and has not voted for another in it. */
  predicate Unbound(n: Node, l: Id, term: nat) {
    n.term < term || (n.term == term && (n.voted == None || n.voted == Some(l)))
  }

  lemma VoteDecision(n: Node, m: Msg)
    requires m.VoteReq?
    ensures VoteResp(n.id, m.src, m.term, true) in OnVoteReq(n, m).1 <==>
      Unbound(n, m.src, m.term) && UpToDate(n, m.lastIndex, m.lastTerm)
  {}

  lemma FirstDelivery(c: Cluster, m: Msg)
    requires m.VoteReq? && m in c.net && m.dest in c.nodes && c.nodes[m.dest].id == m.dest
    requires VoteResp(m.dest, m.src, m.term, true) !in c.net
    ensures VoteResp(m.dest, m.src, m.term, true) in Next(c, Receive(m)).net <==>
      Unbound(c.nodes[m.dest], m.src, m.term) && UpToDate(c.nodes[m.dest], m.lastIndex, m.lastTerm)
    ensures var d := Next(c, Receive(m));
      VoteResp(m.dest, m.src, m.term, true) !in d.net ==>
        VoteResp(m.dest, m.src, d.nodes[m.dest].term, false) in d.net && d.nodes[m.dest].term >= m.term
  {
    VoteDecision(c.nodes[m.dest], m);
  }

  /** A request delivered for the first time is granted if and only if the node is free to vote for
      its sender and its log ends no later than the sender's did when it asked, at point `i`; otherwise
      it is refused, and the sender is told the node's term. */
  lemma VoteGranted(ids: set<Id>, batch: nat, es: seq<Event>, m: Msg) returns (i: nat)
    requires m.VoteReq? && m.dest in ids && Legal(Start(ids, batch), es) && m in After(Start(ids, batch), es).net
    requires VoteResp(m.dest, m.src, m.term, true) !in After(Start(ids, batch), es).net
    ensures i <= |es| && Legal(Start(ids, batch), es[..i]) && m.src in After(Start(ids, batch), es[..i]).nodes
    ensures Legal(Start(ids, batch), es + [Receive(m)]) && m.dest in After(Start(ids, batch), es).nodes
    ensures var cand := After(Start(ids, batch), es[..i]).nodes[m.src];
      var n := After(Start(ids, batch), es).nodes[m.dest];
      && cand.role == Candidate && cand.term == m.term
      && (VoteResp(m.dest, m.src, m.term, true) in After(Start(ids, batch), es + [Receive(m)]).net <==>
            Unbound(n, m.src, m.term) && EndsNoLater(n, cand))
    ensures var d := After(Start(ids, batch), es + [Receive(m)]);
      VoteResp(m.dest, m.src, m.term, true) !in d.net ==>
        && m.dest in d.nodes && d.nodes[m.dest].term >= m.term
        && VoteResp(m.dest, m.src, d.nodes[m.dest].term, false) in d.net
  {
    var c := After(Start(ids, batch), es);
    EveryRunElects(ids, batch, es);
    assert NodeVotes(c.net, ids, m.dest, c.nodes[m.dest]);
    EveryRequestAsked(ids, batch, es, m);
    i :| 0 <= i <= |es| && AskedAt(ids, batch, es[..i], m);
    EveryRunDelivers(ids, batch, es);
    EveryRunDelivers(ids, batch, es[..i]);
    UpToDateIsEndsNoLater(c.nodes[m.dest], After(Start(ids, batch), es[..i]).nodes[m.src]);
    OneMore(ids, batch, es, Receive(m));
    FirstDelivery(c, m);
  }
}
