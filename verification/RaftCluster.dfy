/** A Raft group: any message ever sent may be delivered at any later time, any
    number of times or never; timeouts, client requests, heart beats, write
    completions, leadership transfers and compactions come in any order.  Nodes do
    not crash. */
module RaftCluster {
  import opened Base
  import opened RaftNodes

  /** The leader of a term, the votes that made it, the length of its log when elected and its last log. */
  datatype Reign = Reign(lead: Id, votes: set<Id>, start: nat, log: seq<Entry>)

  /** A node, the term it was in and the log it had. */
  datatype Sight = Sight(id: Id, term: nat, log: seq<Entry>)

  /** `book` and `seen` are history: they record leaders and logs, and no step reads them. */
  datatype Cluster = Cluster(nodes: map<Id, Node>, net: set<Msg>, book: map<nat, Reign>, seen: set<Sight>)

  datatype Event =
    | TimeoutAt(id: Id)
    | SubmitAt(id: Id, payload: seq<nat>)
    | BeatAt(id: Id)
    | WriteDone(id: Id, write: Write)
    | NudgeAt(id: Id, to: Id)
    | CompactAt(id: Id)
    | Receive(msg: Msg)

  function Start(ids: set<Id>, batch: nat): Cluster {
    Cluster(map id | id in ids :: StartNode(id, ids, batch), {}, map[], set id | id in ids :: Sight(id, 0, []))
  }

  function Actor(e: Event): Id { if e.Receive? then e.msg.dest else e.id }

  predicate Enabled(c: Cluster, e: Event) {
    && Actor(e) in c.nodes
    && (e.Receive? ==> e.msg in c.net)
    && (e.WriteDone? ==> e.write in c.nodes[e.id].writes)
  }

  function OnMessage(n: Node, m: Msg): (Node, set<Msg>) {
    match m
    case VoteReq(_, _, _, _, _) => OnVoteReq(n, m)
    case VoteResp(_, _, _, _) => OnVoteResp(n, m)
    case AppendReq(_, _, _, _, _, _, _, _) => OnAppendReq(n, m)
    case AppendResp(_, _, _, _, _, _) => (OnAppendResp(n, m), {})
  }

  function Handle(n: Node, e: Event): (Node, set<Msg>) {
    match e
    case TimeoutAt(_) => (Timeout(n), {})
    case SubmitAt(_, payload) => (Submit(n, payload), {})
    case BeatAt(_) => HeartBeat(n)
    case WriteDone(_, w) => OnWrite(n, w)
    case NudgeAt(_, to) => Nudge(n, to)
    case CompactAt(_) => (Compact(n), {})
    case Receive(m) => OnMessage(n, m)
  }

  function Booked(book: map<nat, Reign>, n: Node): map<nat, Reign> {
    if n.role != Leader then book
    else if n.term in book then book[n.term := book[n.term].(log := n.log)]
    else book[n.term := Reign(n.id, n.granted, |n.log|, n.log)]
  }

  /** The node `id` became `r.0` and sent `r.1`. */
  function Moved(c: Cluster, id: Id, r: (Node, set<Msg>)): Cluster {
    Cluster(c.nodes[id := r.0], c.net + r.1, Booked(c.book, r.0), c.seen + {Sight(id, r.0.term, r.0.log)})
  }

  function Next(c: Cluster, e: Event): Cluster
    requires Enabled(c, e)
  {
    Moved(c, Actor(e), Handle(c.nodes[Actor(e)], e))
  }

  ghost predicate Legal(c: Cluster, es: seq<Event>)
    decreases |es|, 0
  {
    es != [] ==> Legal(c, es[..|es| - 1]) && Enabled(After(c, es[..|es| - 1]), es[|es| - 1])
  }

  ghost function After(c: Cluster, es: seq<Event>): Cluster
    requires Legal(c, es)
    decreases |es|, 1
  {
    if es == [] then c else Next(After(c, es[..|es| - 1]), es[|es| - 1])
  }

  lemma {:induction false} PrefixLegal(c: Cluster, es: seq<Event>, i: nat)
    requires Legal(c, es) && i <= |es|
    ensures Legal(c, es[..i])
  {
    if i < |es| {
      PrefixLegal(c, es[..|es| - 1], i);
      assert es[..|es| - 1][..i] == es[..i];
    } else {
      assert es[..i] == es;
    }
  }

  lemma {:induction false} NetGrows(c: Cluster, es: seq<Event>, i: nat)
    requires Legal(c, es) && i <= |es|
    ensures Legal(c, es[..i]) && After(c, es[..i]).net <= After(c, es).net
  {
    PrefixLegal(c, es, i);
    if i < |es| {
      NetGrows(c, es[..|es| - 1], i);
      assert es[..|es| - 1][..i] == es[..i];
    } else {
      assert es[..i] == es;
    }
  }

  // ---------------------------------------------------------------- votes

  ghost predicate Majority(q: set<Id>, ids: set<Id>) {
    q <= ids && |q| * 2 > |ids|
  }

  lemma MajoritiesMeet(p: set<Id>, q: set<Id>, ids: set<Id>) returns (id: Id)
    requires Majority(p, ids) && Majority(q, ids)
    ensures id in p && id in q
  {
    if p * q == {} {
      Bigger(p + q, ids);
      assert false;
    }
    id :| id in p * q;
  }

  lemma {:induction false} Bigger(a: set<Id>, b: set<Id>)
    requires a <= b
    ensures |a| <= |b|
  {
    assert b == a + (b - a);
  }

  predicate Vote(m: Msg) { m.VoteResp? && m.granted }

  /** A vote given in the term the voter is in, is the vote it remembers. */
  ghost predicate Kept(nodes: map<Id, Node>, m: Msg) {
    Vote(m) ==>
      && m.src in nodes && m.term <= nodes[m.src].term
      && (m.term == nodes[m.src].term ==> nodes[m.src].voted == Some(m.dest))
  }

  ghost predicate OneVote(net: set<Msg>) {
    forall m, w :: m in net && w in net && Vote(m) && Vote(w) && m.src == w.src && m.term == w.term ==> m.dest == w.dest
  }

  ghost predicate VotedFor(net: set<Msg>, votes: set<Id>, id: Id, term: nat) {
    forall g :: g in votes ==> VoteResp(g, id, term, true) in net
  }

  ghost predicate NodeVotes(net: set<Msg>, ids: set<Id>, id: Id, n: Node) {
    && n.id == id && n.peers == ids
    && (n.role != Follower ==> n.granted <= ids && VotedFor(net, n.granted, id, n.term))
    && (n.role == Leader ==> Majority(n.granted, ids))
  }

  ghost predicate ElectionInv(c: Cluster) {
    && (forall m :: m in c.net ==> Kept(c.nodes, m))
    && OneVote(c.net)
    && (forall id :: id in c.nodes ==> NodeVotes(c.net, c.nodes.Keys, id, c.nodes[id]))
  }

  /** What a handler may do to its node's vote, term and role. */
  ghost predicate ElectionStep(n: Node, u: Node, out: set<Msg>, e: Event) {
    && u.id == n.id && u.peers == n.peers && n.term <= u.term
    && (u.term == n.term && n.voted.Some? ==> u.voted == n.voted)
    && (forall m :: m in out && Vote(m) ==> m.src == n.id && m.term == u.term && u.voted == Some(m.dest))
    && (u.role == Leader ==> n.role == Leader || |u.granted| * 2 > |n.peers|)
    && (u.role != Follower ==>
          || u.granted == {}
          || (n.role != Follower && u.term == n.term && u.granted == n.granted)
          || (n.role != Follower && u.term == n.term && e.Receive? && Vote(e.msg) && e.msg.term == n.term
              && u.granted == n.granted + {e.msg.src}))
    && (u.role == Leader ==> n.role != Follower && u.term == n.term && n.granted <= u.granted)
    && (u.role == Candidate && u.term == n.term ==> n.role == Candidate)
  }

  /** Nothing about terms, votes and roles changes. */
  predicate SameBallot(n: Node, u: Node) {
    && u.id == n.id && u.peers == n.peers
    && u.term == n.term && u.voted == n.voted && u.role == n.role && u.granted == n.granted
  }

  lemma SameBallotElects(n: Node, r: (Node, set<Msg>), e: Event)
    requires SameBallot(n, r.0) && forall m :: m in r.1 ==> !m.VoteResp?
    ensures ElectionStep(n, r.0, r.1, e)
  {}

  lemma SendAllKeeps(n: Node)
    ensures SendAll(n).0 == n.(progress := SendAll(n).0.progress)
    ensures forall m :: m in SendAll(n).1 ==> m.AppendReq?
  {}

  lemma CommitKeeps(n: Node, i: nat)
    ensures UpdateCommit(n, i) == n.(commit := UpdateCommit(n, i).commit, handed := UpdateCommit(n, i).handed)
  {}

  lemma ConsistencyKeeps(n: Node, i: nat)
    ensures UpdateConsistency(n, i) == n.(base := UpdateConsistency(n, i).base, log := UpdateConsistency(n, i).log)
  {}

  lemma VoteReqElects(n: Node, m: Msg)
    requires m.VoteReq?
    ensures ElectionStep(n, OnVoteReq(n, m).0, OnVoteReq(n, m).1, Receive(m))
  {}

  lemma VoteRespElects(n: Node, m: Msg)
    requires m.VoteResp?
    ensures ElectionStep(n, OnVoteResp(n, m).0, OnVoteResp(n, m).1, Receive(m))
  {
    var u := UpdateTerm(n, m.term);
    if m.term == u.term {
      var v := u.(responded := u.responded + {m.src}, granted := if m.granted then u.granted + {m.src} else u.granted);
      if v.role == Candidate && |v.granted| * 2 > |v.peers| {
        SendAllKeeps(Elected(v));
        assert OnVoteResp(n, m) == SendAll(Elected(v));
      } else {
        assert OnVoteResp(n, m) == (v, {});
      }
    }
  }

  lemma StoreKeepsBallot(n: Node, m: Msg)
    requires m.AppendReq? && LogOk(n, m.prev, m.prevTerm)
    ensures SameBallot(n, Store(n, m).0) && forall w :: w in Store(n, m).1 ==> w.AppendResp?
  {
    CommitKeeps(n, m.commit);
    ConsistencyKeeps(UpdateCommit(n, m.commit), m.consistency);
  }

  lemma AppendReqElects(n: Node, m: Msg)
    requires m.AppendReq?
    ensures ElectionStep(n, OnAppendReq(n, m).0, OnAppendReq(n, m).1, Receive(m))
  {
    var u := n.(leader := m.src);
    if m.term == n.term && n.role == Follower && LogOk(u, m.prev, m.prevTerm) {
      if m.entries == [] {
        CommitKeeps(u, m.commit);
        ConsistencyKeeps(UpdateCommit(u, m.commit), m.consistency);
      } else {
        StoreKeepsBallot(u, m);
      }
      SameBallotElects(n, OnAppendReq(n, m), Receive(m));
    }
  }

  lemma AdvanceCommitKeeps(n: Node)
    ensures AdvanceCommit(n) == n.(commit := AdvanceCommit(n).commit, handed := AdvanceCommit(n).handed)
  {
    CommitKeeps(n, MajorityIndex(n, |n.log|));
  }

  lemma AppendRespElects(n: Node, m: Msg)
    requires m.AppendResp?
    ensures ElectionStep(n, OnAppendResp(n, m), {}, Receive(m))
  {
    var u := UpdateTerm(n, m.term);
    if m.src in u.progress && m.term == u.term {
      AdvanceCommitKeeps(u.(progress := u.progress[m.src := Learn(u.progress[m.src], m, u.base)]));
    }
    assert SameBallot(u, OnAppendResp(n, m));
  }

  /** The leader's log on disk: it matches its own log up to there. */
  function OwnMatch(n: Node, w: Write): Node
    requires w.LeaderWrite?
  {
    var u := n.(writes := n.writes - multiset{w});
    if n.id in n.progress
    then u.(progress := u.progress[n.id := u.progress[n.id].(matched := w.index, next := w.index + 1)]) else u
  }

  lemma WriteElects(n: Node, w: Write)
    ensures ElectionStep(n, OnWrite(n, w).0, OnWrite(n, w).1, WriteDone(n.id, w))
  {
    var u := n.(writes := n.writes - multiset{w});
    match w
    case VoteWrite =>
    case LeaderWrite(_) => SendAllKeeps(OwnMatch(n, w));
    case FollowerWrite(_, _, commit, consistency) =>
      CommitKeeps(u, commit);
      ConsistencyKeeps(UpdateCommit(u, commit), consistency);
    SameBallotElects(n, OnWrite(n, w), WriteDone(n.id, w));
  }

  lemma HandleElects(n: Node, e: Event)
    ensures ElectionStep(n, Handle(n, e).0, Handle(n, e).1, e)
  {
    match e
    case Receive(m) =>
      match m {
        case VoteReq(_, _, _, _, _) => VoteReqElects(n, m);
        case VoteResp(_, _, _, _) => VoteRespElects(n, m);
        case AppendReq(_, _, _, _, _, _, _, _) => AppendReqElects(n, m);
        case AppendResp(_, _, _, _, _, _) => AppendRespElects(n, m);
      }
    case BeatAt(_) => SendAllKeeps(n); SameBallotElects(n, HeartBeat(n), e);
    case WriteDone(_, w) => WriteElects(n, w); assert ElectionStep(n, OnWrite(n, w).0, OnWrite(n, w).1, e);
    case NudgeAt(_, to) => SameBallotElects(n, Nudge(n, to), e);
    case CompactAt(_) =>
      ConsistencyKeeps(n, SettledIndex(n, |n.log|));
      SameBallotElects(n, (Compact(n), {}), e);
    case SubmitAt(_, p) => SameBallotElects(n, (Submit(n, p), {}), e);
    case TimeoutAt(_) =>
  }

  lemma MovedKeepsElection(c: Cluster, id: Id, r: (Node, set<Msg>), e: Event)
    requires ElectionInv(c) && id in c.nodes && ElectionStep(c.nodes[id], r.0, r.1, e)
    requires e.Receive? ==> e.msg in c.net && e.msg.dest == id
    ensures ElectionInv(Moved(c, id, r))
  {
    var d, n := Moved(c, id, r), c.nodes[id];
    assert d.nodes.Keys == c.nodes.Keys;
    assert NodeVotes(c.net, c.nodes.Keys, id, n);
    forall m | m in d.net ensures Kept(d.nodes, m) {
      if m in c.net { assert Kept(c.nodes, m); }
    }
    forall m, w | m in d.net && w in d.net && Vote(m) && Vote(w) && m.src == w.src && m.term == w.term
      ensures m.dest == w.dest
    {
      assert Kept(d.nodes, m) && Kept(d.nodes, w);
      if m in c.net { assert Kept(c.nodes, m); }
      if w in c.net { assert Kept(c.nodes, w); }
    }
    forall i | i in d.nodes ensures NodeVotes(d.net, d.nodes.Keys, i, d.nodes[i]) {
      assert NodeVotes(c.net, c.nodes.Keys, i, c.nodes[i]);
      if i == id && r.0.role != Follower { VotersGrow(c, id, r, e); }
    }
  }

  lemma VotersGrow(c: Cluster, id: Id, r: (Node, set<Msg>), e: Event)
    requires ElectionInv(c) && id in c.nodes && ElectionStep(c.nodes[id], r.0, r.1, e) && r.0.role != Follower
    requires e.Receive? ==> e.msg in c.net && e.msg.dest == id
    ensures r.0.granted <= c.nodes.Keys && VotedFor(c.net, r.0.granted, id, r.0.term)
    ensures r.0.role == Leader ==> Majority(r.0.granted, c.nodes.Keys)
  {
    var n := c.nodes[id];
    assert NodeVotes(c.net, c.nodes.Keys, id, n);
    if e.Receive? && Vote(e.msg) { assert Kept(c.nodes, e.msg); }
    if r.0.role == Leader && n.role == Leader { Bigger(n.granted, r.0.granted); }
  }

  lemma {:induction false} EveryRunElects(ids: set<Id>, batch: nat, es: seq<Event>)
    requires Legal(Start(ids, batch), es)
    ensures ElectionInv(After(Start(ids, batch), es))
    ensures After(Start(ids, batch), es).nodes.Keys == ids
  {
    if es != [] {
      var c, e := After(Start(ids, batch), es[..|es| - 1]), es[|es| - 1];
      EveryRunElects(ids, batch, es[..|es| - 1]);
      HandleElects(c.nodes[Actor(e)], e);
      MovedKeepsElection(c, Actor(e), Handle(c.nodes[Actor(e)], e), e);
    }
  }

  /** Election Safety (section 5.2 of the Raft paper): a node leading a term at some
      point of a run and a node leading the same term at any other point are the same. */
  lemma ElectionSafety(ids: set<Id>, batch: nat, es: seq<Event>, i: nat, a: Id, b: Id)
    requires Legal(Start(ids, batch), es) && i <= |es| && a in ids && b in ids
    ensures Legal(Start(ids, batch), es[..i])
    ensures var c, d := After(Start(ids, batch), es[..i]), After(Start(ids, batch), es);
      a in c.nodes && b in d.nodes &&
      (c.nodes[a].role == Leader && d.nodes[b].role == Leader && c.nodes[a].term == d.nodes[b].term ==> a == b)
  {
    PrefixLegal(Start(ids, batch), es, i);
    EveryRunElects(ids, batch, es);
    EveryRunElects(ids, batch, es[..i]);
    NetGrows(Start(ids, batch), es, i);
    var c, d := After(Start(ids, batch), es[..i]), After(Start(ids, batch), es);
    if c.nodes[a].role == Leader && d.nodes[b].role == Leader && c.nodes[a].term == d.nodes[b].term {
      assert NodeVotes(c.net, ids, a, c.nodes[a]) && NodeVotes(d.net, ids, b, d.nodes[b]);
      LeadersAgree(c.net, d.net, ids, a, b, c.nodes[a], d.nodes[b]);
    }
  }

  lemma LeadersAgree(net: set<Msg>, later: set<Msg>, ids: set<Id>, a: Id, b: Id, m: Node, n: Node)
    requires net <= later && OneVote(later) && NodeVotes(net, ids, a, m) && NodeVotes(later, ids, b, n)
    requires m.role == Leader && n.role == Leader && m.term == n.term
    ensures a == b
  {
    var g := MajoritiesMeet(m.granted, n.granted, ids);
    assert VoteResp(g, a, m.term, true) in later && VoteResp(g, b, m.term, true) in later;
  }
}
