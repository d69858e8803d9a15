/** Elections do not get stuck: from every state of every run the nodes can go on until one of them
    leads, and any node whose log ends no earlier than the others' can be that one. */
module RaftReach {
  import opened Base
  import opened RaftNodes
  import opened RaftCluster
  import opened RaftDelivery
  import opened RaftLogs
  import opened RaftVotes

  // ---------------------------------------------------------------- going on

  /** The events `more` go on from `es`, without compaction, and end in `d`. */
  ghost predicate GoesOn(ids: set<Id>, batch: nat, es: seq<Event>, more: seq<Event>, d: Cluster) {
    && es <= more && NoCompaction(more[|es|..])
    && Legal(Start(ids, batch), more) && After(Start(ids, batch), more) == d
  }

  lemma Stay(ids: set<Id>, batch: nat, es: seq<Event>)
    requires Legal(Start(ids, batch), es)
    ensures GoesOn(ids, batch, es, es, After(Start(ids, batch), es))
  {}

  lemma Step(ids: set<Id>, batch: nat, es: seq<Event>, more: seq<Event>, c: Cluster, e: Event)
    requires GoesOn(ids, batch, es, more, c) && Enabled(c, e) && !e.CompactAt?
    ensures GoesOn(ids, batch, es, more + [e], Next(c, e))
  {
    OneMore(ids, batch, more, e);
    assert (more + [e])[|es|..] == more[|es|..] + [e];
  }

  /** The same with the result `r` of the handler at hand. */
  lemma Turn(ids: set<Id>, batch: nat, es: seq<Event>, more: seq<Event>, c: Cluster, e: Event, r: (Node, set<Msg>))
    requires GoesOn(ids, batch, es, more, c) && Enabled(c, e) && !e.CompactAt? && r == Handle(c.nodes[Actor(e)], e)
    ensures GoesOn(ids, batch, es, more + [e], Moved(c, Actor(e), r))
  {
    Step(ids, batch, es, more, c, e);
  }

  // ---------------------------------------------------------------- who can win

  /** No log ends later than that of `l`. */
  ghost predicate Latest(c: Cluster, l: Id) {
    l in c.nodes && forall v :: v in c.nodes ==> UpToDate(c.nodes[v], Last(c.nodes[l]), LastTerm(c.nodes[l]))
  }

  lemma {:induction false} SomeLatest(c: Cluster, part: set<Id>) returns (l: Id)
    requires part != {} && part <= c.nodes.Keys
    ensures l in part && forall v :: v in part ==> UpToDate(c.nodes[v], Last(c.nodes[l]), LastTerm(c.nodes[l]))
    decreases part
  {
    var a :| a in part;
    l := a;
    if part - {a} != {} {
      var b := SomeLatest(c, part - {a});
      if UpToDate(c.nodes[a], Last(c.nodes[b]), LastTerm(c.nodes[b])) { l := b; }
    }
    assert forall v :: v in part ==> v == a || v in part - {a};
  }

  // ---------------------------------------------------------------- standing

  ghost predicate Below(c: Cluster, l: Id, term: nat) {
    forall v :: v in c.nodes && v != l ==> c.nodes[v].term < term
  }

  /** No node is in a later term than `l`. */
  ghost predicate Highest(c: Cluster, l: Id) {
    l in c.nodes && forall v :: v in c.nodes ==> c.nodes[v].term <= c.nodes[l].term
  }

  /** `l` stands in `term`, which is higher than any other node's, and has not asked for votes yet. */
  ghost predicate Stood(c: Cluster, l: Id, term: nat) {
    && Latest(c, l) && Below(c, l, term)
    && c.nodes[l].role == Candidate && c.nodes[l].term == term && c.nodes[l].voted == None
    && c.nodes[l].responded == {} && c.nodes[l].granted == {} && VoteWrite in c.nodes[l].writes
  }

  lemma {:induction false} TermAbove(c: Cluster, part: set<Id>) returns (t: nat)
    requires part <= c.nodes.Keys
    ensures forall v :: v in part ==> c.nodes[v].term < t
    decreases part
  {
    if part == {} {
      t := 0;
    } else {
      var a :| a in part;
      var b := TermAbove(c, part - {a});
      t := if c.nodes[a].term < b then b else c.nodes[a].term + 1;
      assert forall v :: v in part ==> v == a || v in part - {a};
    }
  }

  lemma TimeoutStep(c: Cluster, l: Id)
    requires Latest(c, l) && c.nodes[l].role != Leader
    ensures Enabled(c, TimeoutAt(l))
    ensures var d := Next(c, TimeoutAt(l));
      && Latest(d, l) && d.nodes == c.nodes[l := Timeout(c.nodes[l])] && d.nodes[l].role == Candidate
  {}

  /** Time out until the term is higher than any other's. */
  lemma {:induction false} Stand(ids: set<Id>, batch: nat, es: seq<Event>, more: seq<Event>, c: Cluster, l: Id, t: nat)
      returns (fs: seq<Event>, d: Cluster, term: nat)
    requires GoesOn(ids, batch, es, more, c) && Latest(c, l) && c.nodes[l].role != Leader && Below(c, l, t)
    ensures GoesOn(ids, batch, es, fs, d) && Stood(d, l, term)
    decreases if c.nodes[l].term + 1 >= t then 0 else t - c.nodes[l].term
  {
    TimeoutStep(c, l);
    Step(ids, batch, es, more, c, TimeoutAt(l));
    fs, d, term := more + [TimeoutAt(l)], Next(c, TimeoutAt(l)), c.nodes[l].term + 1;
    if term < t { fs, d, term := Stand(ids, batch, es, fs, d, l, t); }
  }

  ghost predicate Group(c: Cluster, ids: set<Id>) {
    c.nodes.Keys == ids && forall v :: v in ids ==> c.nodes[v].id == v && c.nodes[v].peers == ids
  }

  lemma EveryRunGroup(ids: set<Id>, batch: nat, es: seq<Event>)
    requires Legal(Start(ids, batch), es)
    ensures Group(After(Start(ids, batch), es), ids)
  {
    EveryRunElects(ids, batch, es);
    var c := After(Start(ids, batch), es);
    forall v | v in ids ensures c.nodes[v].id == v && c.nodes[v].peers == ids {
      assert NodeVotes(c.net, c.nodes.Keys, v, c.nodes[v]);
    }
  }

  // ---------------------------------------------------------------- asking

  /** The candidate's request to `v`. */
  function AskOf(n: Node, v: Id): Msg { VoteReq(n.id, v, n.term, Last(n), LastTerm(n)) }

  /** Node `v` will vote for the candidate. */
  predicate Willing(n: Node, cand: Node) {
    Unbound(n, cand.id, cand.term) && UpToDate(n, Last(cand), LastTerm(cand))
  }

  /** All have been asked; those of `todo` are going to vote for `l`, the others have. */
  ghost predicate Polling(c: Cluster, ids: set<Id>, l: Id, todo: set<Id>) {
    && Group(c, ids) && l in ids && todo <= ids && c.nodes[l].role == Candidate && c.nodes[l].granted == {}
    && Highest(c, l)
    && (forall v :: v in todo ==> AskOf(c.nodes[l], v) in c.net && Willing(c.nodes[v], c.nodes[l]))
    && (forall v :: v in ids - todo ==> VoteResp(v, l, c.nodes[l].term, true) in c.net)
  }

  lemma AskAll(n: Node, v: Id)
    requires n.role == Candidate && v in n.peers && v !in n.responded
    ensures AskOf(n, v) in RequestVote(n)
  {
    assert v in n.peers - n.responded;
  }

  lemma GroupMoves(c: Cluster, ids: set<Id>, id: Id, r: (Node, set<Msg>))
    requires Group(c, ids) && id in ids && r.0.id == id && r.0.peers == ids
    ensures Group(Moved(c, id, r), ids)
  {}

  /** The candidate after it has asked. */
  function Asking(n: Node): Node { n.(writes := n.writes - multiset{VoteWrite}) }

  lemma AskMoves(c: Cluster, l: Id)
    requires l in c.nodes && VoteWrite in c.nodes[l].writes
    ensures Enabled(c, WriteDone(l, VoteWrite))
    ensures Next(c, WriteDone(l, VoteWrite)) == Moved(c, l, (Asking(c.nodes[l]), RequestVote(Asking(c.nodes[l]))))
  {}

  lemma AskStep(c: Cluster, ids: set<Id>, l: Id, term: nat)
    requires Group(c, ids) && Stood(c, l, term)
    ensures Enabled(c, WriteDone(l, VoteWrite)) && Polling(Next(c, WriteDone(l, VoteWrite)), ids, l, ids)
  {
    var n := Asking(c.nodes[l]);
    var d := Moved(c, l, (n, RequestVote(n)));
    AskMoves(c, l);
    GroupMoves(c, ids, l, (n, RequestVote(n)));
    forall v | v in ids ensures AskOf(n, v) in d.net && Willing(d.nodes[v], n) {
      AskAll(n, v);
      assert UpToDate(c.nodes[v], Last(c.nodes[l]), LastTerm(c.nodes[l]));
    }
  }

  // ---------------------------------------------------------------- voting

  lemma VoteFor(n: Node, cand: Node, v: Id)
    requires n.id == v && Willing(n, cand)
    ensures var r := OnVoteReq(n, AskOf(cand, v));
      && r.0.term == cand.term && r.1 == {VoteResp(v, cand.id, cand.term, true)}
      && r.0.id == n.id && r.0.peers == n.peers
      && (n == cand ==> r.0 == n.(voted := Some(v)))
  {}

  lemma PollStep(c: Cluster, ids: set<Id>, l: Id, todo: set<Id>, v: Id)
    requires Polling(c, ids, l, todo) && v in todo
    ensures Enabled(c, Receive(AskOf(c.nodes[l], v)))
    ensures Polling(Next(c, Receive(AskOf(c.nodes[l], v))), ids, l, todo - {v})
  {
    var d := Next(c, Receive(AskOf(c.nodes[l], v)));
    VoteFor(c.nodes[v], c.nodes[l], v);
    assert d.nodes.Keys == ids;
    assert d.nodes[l] == c.nodes[l] || d.nodes[l] == c.nodes[l].(voted := Some(l));
    forall x | x in todo - {v} ensures AskOf(d.nodes[l], x) in d.net && Willing(d.nodes[x], d.nodes[l]) {
      assert AskOf(c.nodes[l], x) in c.net && Willing(c.nodes[x], c.nodes[l]);
    }
    forall x | x in ids - (todo - {v}) ensures VoteResp(x, l, d.nodes[l].term, true) in d.net {
      assert x == v || x in ids - todo;
    }
  }

  lemma {:induction false} Poll(ids: set<Id>, batch: nat, es: seq<Event>, more: seq<Event>, c: Cluster, l: Id,
      todo: set<Id>) returns (fs: seq<Event>, d: Cluster)
    requires GoesOn(ids, batch, es, more, c) && Polling(c, ids, l, todo)
    ensures GoesOn(ids, batch, es, fs, d) && Polling(d, ids, l, {})
    decreases todo
  {
    fs, d := more, c;
    if todo != {} {
      var v :| v in todo;
      PollStep(c, ids, l, todo, v);
      Step(ids, batch, es, more, c, Receive(AskOf(c.nodes[l], v)));
      fs, d := Poll(ids, batch, es, more + [Receive(AskOf(c.nodes[l], v))],
                    Next(c, Receive(AskOf(c.nodes[l], v))), l, todo - {v});
    }
  }

  // ---------------------------------------------------------------- counting

  /** All votes are there; `l` leads, or has counted all but those of `rest`. */
  ghost predicate Counting(c: Cluster, ids: set<Id>, l: Id, term: nat, rest: set<Id>) {
    && Group(c, ids) && l in ids && rest <= ids && (forall v :: v in ids ==> VoteResp(v, l, term, true) in c.net)
    && c.nodes[l].term == term && Highest(c, l)
    && (c.nodes[l].role == Leader || (c.nodes[l].role == Candidate && c.nodes[l].granted == ids - rest && rest != {}))
  }

  lemma CountOne(n: Node, ids: set<Id>, v: Id, rest: set<Id>)
    requires n.role == Candidate && n.peers == ids && n.granted == ids - rest && v in rest && rest <= ids
    ensures var u := OnVoteResp(n, VoteResp(v, n.id, n.term, true)).0;
      && u.id == n.id && u.peers == n.peers && u.term == n.term
      && (u.role == Leader || (u.role == Candidate && u.granted == ids - (rest - {v}) && rest - {v} != {}))
  {
    var w := n.(responded := n.responded + {v}, granted := n.granted + {v});
    assert w.granted == ids - (rest - {v});
    if rest - {v} == {} {
      assert w.granted == ids;
      SomeMembers(ids, v);
    }
    SendAllKeeps(Elected(w));
  }

  lemma SomeMembers(ids: set<Id>, v: Id)
    requires v in ids
    ensures |ids| > 0
  {}

  lemma CountMoves(c: Cluster, ids: set<Id>, l: Id, term: nat, rest: set<Id>, v: Id,
      r: (Node, set<Msg>))
    requires Counting(c, ids, l, term, rest) && r.0.id == l && r.0.peers == ids && r.0.term == term
    requires (r.0.role == Leader || (r.0.role == Candidate && r.0.granted == ids - (rest - {v}) && rest - {v} != {}))
    ensures Counting(Moved(c, l, r), ids, l, term, rest - {v})
  {
    GroupMoves(c, ids, l, r);
  }

  lemma ReceiveIsMoved(c: Cluster, m: Msg)
    requires m.VoteResp? && m in c.net && m.dest in c.nodes
    ensures Enabled(c, Receive(m)) && Next(c, Receive(m)) == Moved(c, m.dest, OnVoteResp(c.nodes[m.dest], m))
  {}

  lemma CountStep(c: Cluster, ids: set<Id>, l: Id, term: nat, rest: set<Id>, v: Id)
    requires Counting(c, ids, l, term, rest) && c.nodes[l].role == Candidate && v in rest
    ensures Enabled(c, Receive(VoteResp(v, l, term, true)))
    ensures Counting(Next(c, Receive(VoteResp(v, l, term, true))), ids, l, term, rest - {v})
  {
    CountOne(c.nodes[l], ids, v, rest);
    ReceiveIsMoved(c, VoteResp(v, l, term, true));
    CountMoves(c, ids, l, term, rest, v, OnVoteResp(c.nodes[l], VoteResp(v, l, term, true)));
  }

  lemma {:induction false} Count(ids: set<Id>, batch: nat, es: seq<Event>, more: seq<Event>, c: Cluster, l: Id,
      term: nat, rest: set<Id>) returns (fs: seq<Event>, d: Cluster)
    requires GoesOn(ids, batch, es, more, c) && Counting(c, ids, l, term, rest)
    ensures GoesOn(ids, batch, es, fs, d) && Highest(d, l) && d.nodes[l].role == Leader
    decreases rest
  {
    fs, d := more, c;
    if c.nodes[l].role != Leader {
      var v :| v in rest;
      CountStep(c, ids, l, term, rest, v);
      Step(ids, batch, es, more, c, Receive(VoteResp(v, l, term, true)));
      fs, d := Count(ids, batch, es, more + [Receive(VoteResp(v, l, term, true))],
                     Next(c, Receive(VoteResp(v, l, term, true))), l, term, rest - {v});
    }
  }

  lemma Elect(ids: set<Id>, batch: nat, es: seq<Event>, more: seq<Event>, c: Cluster, l: Id, term: nat)
      returns (fs: seq<Event>, d: Cluster)
    requires GoesOn(ids, batch, es, more, c) && Stood(c, l, term)
    ensures GoesOn(ids, batch, es, fs, d) && Highest(d, l) && d.nodes[l].role == Leader
  {
    EveryRunGroup(ids, batch, more);
    AskStep(c, ids, l, term);
    Step(ids, batch, es, more, c, WriteDone(l, VoteWrite));
    fs, d := more + [WriteDone(l, VoteWrite)], Next(c, WriteDone(l, VoteWrite));
    fs, d := Poll(ids, batch, es, fs, d, l, ids);
    assert ids - ids == {};
    fs, d := Count(ids, batch, es, fs, d, l, d.nodes[l].term, ids);
  }

  // ---------------------------------------------------------------- a leader of an old term gives way

  /** Every node keeps track of all nodes, and sends batches of the given size. */
  ghost predicate Tracks(c: Cluster, batch: nat) {
    forall v :: v in c.nodes ==> c.nodes[v].progress.Keys == c.nodes[v].peers && c.nodes[v].batch == batch
  }

  predicate SameTracks(n: Node, u: Node) {
    n.progress.Keys == n.peers ==> u.progress.Keys == u.peers && u.peers == n.peers && u.batch == n.batch
  }

  lemma SendAllTracks(n: Node)
    ensures SameTracks(n, SendAll(n).0)
  {}

  lemma VoteRespTracks(n: Node, m: Msg)
    requires m.VoteResp?
    ensures SameTracks(n, OnVoteResp(n, m).0)
  {
    var u := UpdateTerm(n, m.term);
    var v := u.(responded := u.responded + {m.src}, granted := if m.granted then u.granted + {m.src} else u.granted);
    SendAllTracks(Elected(v));
  }

  lemma AppendRespTracks(n: Node, m: Msg)
    requires m.AppendResp?
    ensures SameTracks(n, OnAppendResp(n, m))
  {
    var u := UpdateTerm(n, m.term);
    if m.src in u.progress && m.term == u.term {
      var v := u.(progress := u.progress[m.src := Learn(u.progress[m.src], m, u.base)]);
      assert v.progress.Keys == u.progress.Keys;
      AdvanceCommitKeeps(v);
    }
  }

  lemma AppendReqTracks(n: Node, m: Msg)
    requires m.AppendReq?
    ensures SameTracks(n, OnAppendReq(n, m).0)
  {}

  lemma WriteTracks(n: Node, w: Write)
    ensures SameTracks(n, OnWrite(n, w).0)
  {
    if w.LeaderWrite? {
      SendAllTracks(OwnMatch(n, w));
      assert OnWrite(n, w) == SendAll(OwnMatch(n, w));
      assert n.id in n.progress ==> OwnMatch(n, w).progress.Keys == n.progress.Keys;
    }
  }

  lemma HandleTracks(n: Node, e: Event)
    ensures SameTracks(n, Handle(n, e).0)
  {
    match e
    case Receive(m) =>
      match m {
        case VoteReq(_, _, _, _, _) =>
        case VoteResp(_, _, _, _) => VoteRespTracks(n, m);
        case AppendReq(_, _, _, _, _, _, _, _) => AppendReqTracks(n, m);
        case AppendResp(_, _, _, _, _, _) => AppendRespTracks(n, m);
      }
    case BeatAt(_) => SendAllTracks(n);
    case WriteDone(_, w) => WriteTracks(n, w); assert Handle(n, e) == OnWrite(n, w);
    case NudgeAt(_, to) => assert to in n.progress ==> Nudge(n, to).0.progress.Keys == n.progress.Keys;
    case _ =>
  }

  lemma {:induction false} EveryRunTracks(ids: set<Id>, batch: nat, es: seq<Event>)
    requires Legal(Start(ids, batch), es)
    ensures Tracks(After(Start(ids, batch), es), batch)
  {
    if es != [] {
      var c, e := After(Start(ids, batch), es[..|es| - 1]), es[|es| - 1];
      EveryRunTracks(ids, batch, es[..|es| - 1]);
      HandleTracks(c.nodes[Actor(e)], e);
    }
  }

  /** The same logs, and `l` is not a leader any more. */
  ghost predicate Demoted(c: Cluster, d: Cluster, l: Id) {
    && d.nodes.Keys == c.nodes.Keys && l in d.nodes && d.nodes[l].role != Leader
    && forall v :: v in c.nodes ==> SameLog(c.nodes[v], d.nodes[v])
  }

  lemma DemotedLatest(c: Cluster, d: Cluster, l: Id)
    requires Latest(c, l) && Demoted(c, d, l)
    ensures Latest(d, l)
  {
    forall v | v in d.nodes ensures UpToDate(d.nodes[v], Last(d.nodes[l]), LastTerm(d.nodes[l])) {
      assert UpToDate(c.nodes[v], Last(c.nodes[l]), LastTerm(c.nodes[l]));
    }
  }

  lemma BeatSends(n: Node, to: Id)
    requires n.role == Leader && to in n.progress && to != n.id
    ensures AppendTo(n, to, n.progress[to]) in HeartBeat(n).1
  {}

  lemma GivesWay(n: Node, m: Msg)
    requires (m.VoteReq? || m.AppendReq?) && m.term > n.term
    ensures OnMessage(n, m).0.role == Follower && SameLog(n, OnMessage(n, m).0)
  {}

  lemma TwoMoves(c: Cluster, x: Id, r: (Node, set<Msg>), l: Id, q: (Node, set<Msg>))
    requires x in c.nodes && l in c.nodes && x != l && SameLog(c.nodes[x], r.0)
    requires SameLog(c.nodes[l], q.0) && q.0.role == Follower
    ensures Demoted(c, Moved(Moved(c, x, r), l, q), l)
  {}

  lemma BeatTurn(n: Node, l: Id)
    requires n.role == Leader && l in n.progress && l != n.id
    ensures SameLog(n, HeartBeat(n).0)
    ensures exists m :: m in HeartBeat(n).1 && m.AppendReq? && m.dest == l && m.term == n.term
  {
    SendAllKeeps(n);
    BeatSends(n, l);
  }

  /** The node `x` has sent `m`, of a later term, to `l`. */
  lemma Demote(ids: set<Id>, batch: nat, es: seq<Event>, more: seq<Event>, c: Cluster, x: Id, r: (Node, set<Msg>),
      l: Id, m: Msg) returns (fs: seq<Event>, d: Cluster)
    requires x in c.nodes && l in c.nodes && x != l && SameLog(c.nodes[x], r.0)
    requires GoesOn(ids, batch, es, more, Moved(c, x, r)) && m in r.1
    requires (m.VoteReq? || m.AppendReq?) && m.term > c.nodes[l].term && m.dest == l
    ensures GoesOn(ids, batch, es, fs, d) && Demoted(c, d, l)
  {
    var q := OnMessage(c.nodes[l], m);
    GivesWay(c.nodes[l], m);
    Turn(ids, batch, es, more, Moved(c, x, r), Receive(m), q);
    fs, d := more + [Receive(m)], Moved(Moved(c, x, r), l, q);
    TwoMoves(c, x, r, l, q);
  }

  /** A leader of a later term sends a heart beat. */
  lemma DemoteByLeader(ids: set<Id>, batch: nat, es: seq<Event>, more: seq<Event>, c: Cluster, l: Id, x: Id)
      returns (fs: seq<Event>, d: Cluster)
    requires GoesOn(ids, batch, es, more, c) && l in c.nodes && x in c.nodes && c.nodes[x].id == x
    requires l in c.nodes[x].progress && c.nodes[l].term < c.nodes[x].term && c.nodes[x].role == Leader
    ensures GoesOn(ids, batch, es, fs, d) && Demoted(c, d, l)
  {
    var r := HeartBeat(c.nodes[x]);
    BeatTurn(c.nodes[x], l);
    var m :| m in r.1 && m.AppendReq? && m.dest == l && m.term == c.nodes[x].term;
    Turn(ids, batch, es, more, c, BeatAt(x), r);
    fs, d := Demote(ids, batch, es, more + [BeatAt(x)], c, x, r, l, m);
  }

  /** A node of a later term stands and asks for a vote. */
  lemma DemoteByCandidate(ids: set<Id>, batch: nat, es: seq<Event>, more: seq<Event>, c: Cluster, l: Id, x: Id)
      returns (fs: seq<Event>, d: Cluster)
    requires GoesOn(ids, batch, es, more, c) && l in c.nodes && x in c.nodes
    requires l in c.nodes[x].peers && c.nodes[l].term < c.nodes[x].term && c.nodes[x].role != Leader
    ensures GoesOn(ids, batch, es, fs, d) && Demoted(c, d, l)
  {
    var n := Timeout(c.nodes[x]);
    var mid := Moved(c, x, (n, {}));
    Turn(ids, batch, es, more, c, TimeoutAt(x), (n, {}));
    AskMoves(mid, x);
    AskAll(Asking(n), l);
    Step(ids, batch, es, more + [TimeoutAt(x)], mid, WriteDone(x, VoteWrite));
    fs, d := Demote(ids, batch, es, more + [TimeoutAt(x)] + [WriteDone(x, VoteWrite)], mid, x,
                    (Asking(n), RequestVote(Asking(n))), l, AskOf(Asking(n), l));
    assert forall v :: v in c.nodes ==> SameLog(c.nodes[v], mid.nodes[v]);
  }

  lemma AnswersStale(n: Node, m: Msg)
    requires m.AppendReq? && m.term < n.term
    ensures OnAppendReq(n, m) == (n, {AppendResp(n.id, m.src, n.term, false, 0, m.entries == [])})
  {}

  lemma HearsLater(n: Node, a: Msg)
    requires a.AppendResp? && a.term > n.term && !a.success
    ensures OnAppendResp(n, a).role == Follower && OnAppendResp(n, a).term == a.term
  {}

  /** A leader whose request reaches a node of a later term is told of that term, and gives way. */
  lemma StaleGivesWay(ids: set<Id>, batch: nat, es: seq<Event>, m: Msg) returns (a: Msg, d: Cluster)
    requires Legal(Start(ids, batch), es) && m.AppendReq? && m in After(Start(ids, batch), es).net
    requires m.src in After(Start(ids, batch), es).nodes && m.dest in After(Start(ids, batch), es).nodes
    requires var c := After(Start(ids, batch), es);
      m.src != m.dest && m.term <= c.nodes[m.src].term < c.nodes[m.dest].term
    ensures GoesOn(ids, batch, es, es + [Receive(m)] + [Receive(a)], d) && m.src in d.nodes
    ensures d.nodes[m.src].role == Follower && d.nodes[m.src].term == After(Start(ids, batch), es).nodes[m.dest].term
  {
    var c := After(Start(ids, batch), es);
    var n, u := c.nodes[m.dest], c.nodes[m.src];
    EveryRunGroup(ids, batch, es);
    AnswersStale(n, m);
    a := AppendResp(n.id, m.src, n.term, false, 0, m.entries == []);
    Stay(ids, batch, es);
    Turn(ids, batch, es, es, c, Receive(m), (n, {a}));
    d := Moved(c, m.dest, (n, {a}));
    HearsLater(u, a);
    Turn(ids, batch, es, es + [Receive(m)], d, Receive(a), (OnAppendResp(u, a), {}));
    d := Moved(d, m.src, (OnAppendResp(u, a), {}));
  }

  lemma StandAndWin(ids: set<Id>, batch: nat, es: seq<Event>, more: seq<Event>, c: Cluster, l: Id)
      returns (fs: seq<Event>, d: Cluster)
    requires GoesOn(ids, batch, es, more, c) && Latest(c, l) && c.nodes[l].role != Leader
    ensures GoesOn(ids, batch, es, fs, d) && Highest(d, l) && d.nodes[l].role == Leader
  {
    var t := TermAbove(c, c.nodes.Keys);
    var term;
    fs, d, term := Stand(ids, batch, es, more, c, l, t);
    fs, d := Elect(ids, batch, es, fs, d, l, term);
  }

  lemma StandAgain(ids: set<Id>, batch: nat, es: seq<Event>, c: Cluster, l: Id, x: Id)
      returns (more: seq<Event>, d: Cluster)
    requires GoesOn(ids, batch, es, es, c) && Latest(c, l) && x in c.nodes && c.nodes[x].term > c.nodes[l].term
    requires c.nodes[x].id == x && l in c.nodes[x].progress && l in c.nodes[x].peers
    ensures GoesOn(ids, batch, es, more, d) && Highest(d, l) && d.nodes[l].role == Leader
  {
    if c.nodes[x].role == Leader { more, d := DemoteByLeader(ids, batch, es, es, c, l, x); }
    else { more, d := DemoteByCandidate(ids, batch, es, es, c, l, x); }
    DemotedLatest(c, d, l);
    more, d := StandAndWin(ids, batch, es, more, d, l);
  }

  lemma Lead(ids: set<Id>, batch: nat, es: seq<Event>, c: Cluster, l: Id) returns (more: seq<Event>, d: Cluster)
    requires GoesOn(ids, batch, es, es, c) && Latest(c, l)
    ensures GoesOn(ids, batch, es, more, d) && Highest(d, l) && d.nodes[l].role == Leader
  {
    if c.nodes[l].role != Leader {
      more, d := StandAndWin(ids, batch, es, es, c, l);
    } else if Highest(c, l) {
      more, d := es, c;
    } else {
      var x :| x in c.nodes && c.nodes[x].term > c.nodes[l].term;
      EveryRunGroup(ids, batch, es);
      EveryRunTracks(ids, batch, es);
      more, d := StandAgain(ids, batch, es, c, l, x);
    }
  }

  /** From every state of every run, a node whose log ends no earlier than any other's can come to
      lead, in a term as high as any. */
  lemma LatestCanLead(ids: set<Id>, batch: nat, es: seq<Event>, l: Id) returns (more: seq<Event>, d: Cluster)
    requires Legal(Start(ids, batch), es) && l in After(Start(ids, batch), es).nodes
    requires forall v :: v in After(Start(ids, batch), es).nodes ==>
      EndsNoLater(After(Start(ids, batch), es).nodes[v], After(Start(ids, batch), es).nodes[l])
    ensures GoesOn(ids, batch, es, more, d) && Highest(d, l) && d.nodes[l].role == Leader
  {
    var c := After(Start(ids, batch), es);
    EveryRunDelivers(ids, batch, es);
    forall v | v in c.nodes ensures UpToDate(c.nodes[v], Last(c.nodes[l]), LastTerm(c.nodes[l])) {
      UpToDateIsEndsNoLater(c.nodes[v], c.nodes[l]);
    }
    Stay(ids, batch, es);
    more, d := Lead(ids, batch, es, c, l);
  }

  /** From every state of every run, some node can come to lead. */
  lemma SomeoneCanLead(ids: set<Id>, batch: nat, es: seq<Event>) returns (l: Id, more: seq<Event>, d: Cluster)
    requires Legal(Start(ids, batch), es) && ids != {}
    ensures GoesOn(ids, batch, es, more, d) && Highest(d, l) && d.nodes[l].role == Leader
  {
    var c := After(Start(ids, batch), es);
    EveryRunGroup(ids, batch, es);
    l := SomeLatest(c, ids);
    Stay(ids, batch, es);
    more, d := Lead(ids, batch, es, c, l);
  }
}
