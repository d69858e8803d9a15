/** A run in which a leader commits an entry that nobody else has ever held.  Every write
    completes at once and no message is forged; the entry is of an earlier term, and the
    leader takes it to be everywhere because it had it when it was elected. */
module RaftEarlyCommit {
  import opened RaftNodes
  import opened RaftCluster
  import opened RaftCommit

  const THREE: set<Id> := {1, 2, 3}

  // ---------------------------------------------------------------- runs in which node 3 rests

  /** The nodes 1 and 2, and what they have sent so far. */
  datatype Pair = Pair(a: Node, b: Node, net: set<Msg>)

  function Actors(p: Pair): map<Id, Node> { map[1 := p.a, 2 := p.b, 3 := StartNode(3, THREE, 1)] }

  predicate Can(p: Pair, e: Event) {
    && (Actor(e) == 1 || Actor(e) == 2) && !e.NudgeAt? && !e.CompactAt?
    && (e.Receive? ==> e.msg in p.net)
    && (e.WriteDone? ==> e.write in (if Actor(e) == 1 then p.a else p.b).writes)
    && (e.WriteDone? || p.a.writes == p.b.writes == multiset{})
  }

  function Turn(p: Pair, e: Event): Pair {
    if Actor(e) == 1 then var r := Handle(p.a, e); Pair(r.0, p.b, p.net + r.1)
    else var r := Handle(p.b, e); Pair(p.a, r.0, p.net + r.1)
  }

  /** A run that ends with `p`, in which only node 1 has ever had a log of two entries. */
  ghost predicate Ends(es: seq<Event>, p: Pair) {
    PromptRun(Start(THREE, 1), es) && Fits(After(Start(THREE, 1), es), p)
  }

  ghost predicate Possible(p: Pair) { exists es :: Ends(es, p) }

  lemma Append(es: seq<Event>, e: Event)
    requires PromptRun(Start(THREE, 1), es) && Prompt(After(Start(THREE, 1), es), e)
    ensures PromptRun(Start(THREE, 1), es + [e])
    ensures After(Start(THREE, 1), es + [e]) == Next(After(Start(THREE, 1), es), e)
  {
    assert (es + [e])[..|es|] == es;
  }

  lemma CanIsPrompt(c: Cluster, p: Pair, e: Event)
    requires Fits(c, p) && Can(p, e)
    ensures Prompt(c, e)
  {}

  ghost predicate Fits(c: Cluster, p: Pair) {
    c.nodes == Actors(p) && c.net == p.net && forall s :: s in c.seen && s.id != 1 ==> |s.log| < 2
  }

  lemma MovedPair(c: Cluster, p: Pair, id: Id, r: (Node, set<Msg>), q: Pair)
    requires Fits(c, p) && (id == 1 || id == 2) && |q.b.log| < 2
    requires q == if id == 1 then Pair(r.0, p.b, p.net + r.1) else Pair(p.a, r.0, p.net + r.1)
    ensures Fits(Moved(c, id, r), q)
  {}

  lemma TurnIsNext(c: Cluster, p: Pair, e: Event, q: Pair)
    requires Fits(c, p) && Can(p, e) && Enabled(c, e) && q == Turn(p, e) && |q.b.log| < 2
    ensures Fits(Next(c, e), q)
  {
    MovedPair(c, p, Actor(e), Handle(c.nodes[Actor(e)], e), q);
  }

  lemma More(es: seq<Event>, p: Pair, e: Event, q: Pair)
    requires Ends(es, p) && Can(p, e) && q == Turn(p, e) && |q.b.log| < 2
    ensures Ends(es + [e], q)
  {
    var c := After(Start(THREE, 1), es);
    CanIsPrompt(c, p, e);
    Append(es, e);
    TurnIsNext(c, p, e, q);
  }

  lemma Take(p: Pair, e: Event, q: Pair)
    requires Possible(p) && Can(p, e) && q == Turn(p, e) && |q.b.log| < 2
    ensures Possible(q)
  {
    var es :| Ends(es, p);
    More(es, p, e, q);
  }

  /** Node 1 takes a message in and becomes `r.0`. */
  lemma OneHears(p: Pair, m: Msg, r: (Node, set<Msg>))
    requires Possible(p) && m.dest == 1 && m in p.net && OnMessage(p.a, m) == r
    requires p.a.writes == p.b.writes == multiset{} && |p.b.log| < 2
    ensures Possible(Pair(r.0, p.b, p.net + r.1))
  {
    Take(p, Receive(m), Pair(r.0, p.b, p.net + r.1));
  }

  /** Node 2 takes a message in and becomes `r.0`. */
  lemma TwoHears(p: Pair, m: Msg, r: (Node, set<Msg>))
    requires Possible(p) && m.dest == 2 && m in p.net && OnMessage(p.b, m) == r && |r.0.log| < 2
    requires p.a.writes == p.b.writes == multiset{}
    ensures Possible(Pair(p.a, r.0, p.net + r.1))
  {
    Take(p, Receive(m), Pair(p.a, r.0, p.net + r.1));
  }

  // ---------------------------------------------------------------- winning an election

  /** What is kept of node 1 from one part of the run to the next. */
  predicate One(a: Node, term: nat, log: seq<Entry>) {
    && a.id == 1 && a.peers == THREE && a.batch == 1 && a.base == 0 && a.commit == 0 && a.writes == multiset{}
    && a.term == term && a.log == log && forall id :: id in a.progress ==> !a.progress[id].lastReject
  }

  /** Node 2, still without a log. */
  predicate Two(b: Node, term: nat) {
    && b.id == 2 && b.peers == THREE && b.term == term
    && b.base == 0 && b.log == [] && b.commit == 0 && b.writes == multiset{}
  }

  function Ask(a: Node, to: Id): Msg { VoteReq(a.id, to, a.term, |a.log|, LastTerm(a)) }

  predicate Standing(p: Pair, term: nat, log: seq<Entry>) {
    && One(p.a, term, log) && p.a.role == Candidate && p.a.granted == {} && p.a.voted.None?
    && Ask(p.a, 1) in p.net && Ask(p.a, 2) in p.net
  }

  lemma Stand(p: Pair, term: nat, log: seq<Entry>) returns (q: Pair)
    requires Possible(p) && One(p.a, term, log) && Two(p.b, p.b.term) && p.a.role != Leader
    ensures Possible(q) && Standing(q, term + 1, log) && q.b == p.b
  {
    q := Pair(Timeout(p.a), p.b, p.net + {});
    Take(p, TimeoutAt(1), q);
    var u := q.a.(writes := q.a.writes - multiset{VoteWrite});
    assert u.writes == multiset{};
    var r := Pair(u, p.b, q.net + RequestVote(u));
    Take(q, WriteDone(1, VoteWrite), r);
    assert 1 in u.peers - u.responded && 2 in u.peers - u.responded;
    q := r;
  }

  predicate Elects(p: Pair, term: nat, log: seq<Entry>) {
    && One(p.a, term, log) && p.a.role == Candidate && p.a.granted == {} && Two(p.b, term) && p.b.role == Follower
    && VoteResp(1, 1, term, true) in p.net && VoteResp(2, 1, term, true) in p.net
  }

  lemma OwnVote(p: Pair, term: nat, log: seq<Entry>) returns (q: Pair)
    requires Possible(p) && Standing(p, term, log) && p.b.writes == multiset{} && |p.b.log| < 2
    ensures Possible(q) && q.a == p.a.(voted := q.a.voted) && q.b == p.b
    ensures p.net <= q.net && VoteResp(1, 1, term, true) in q.net
  {
    var r := OnVoteReq(p.a, Ask(p.a, 1));
    q := Pair(r.0, p.b, p.net + r.1);
    Take(p, Receive(Ask(p.a, 1)), q);
  }

  /** Nodes 1 and 2 vote for node 1. */
  lemma GiveVotes(p: Pair, term: nat, log: seq<Entry>) returns (q: Pair)
    requires Possible(p) && Standing(p, term, log) && Two(p.b, p.b.term) && p.b.term < term
    ensures Possible(q) && Elects(q, term, log)
  {
    q := OwnVote(p, term, log);
    var s := OnVoteReq(p.b, Ask(p.a, 2));
    TwoHears(q, Ask(p.a, 2), s);
    q := Pair(q.a, s.0, q.net + s.1);
  }

  /** What node 1 knows of node 2, and has sent it, as a new leader. */
  predicate Leads(p: Pair, term: nat, log: seq<Entry>) {
    && One(p.a, term, log) && p.a.role == Leader && p.a.progress.Keys == THREE
    && (forall id :: id in THREE ==> p.a.progress[id].matched == |log|) && p.a.progress[2].next == |log| + 1
    && Two(p.b, term) && p.b.role == Follower
    && AppendReq(1, 2, term, |log|, LastTerm(p.a), 0, 0, []) in p.net
  }

  lemma FirstVote(a: Node, u: Node)
    requires a.role == Candidate && a.granted == {} && a.peers == THREE
    requires u == a.(responded := a.responded + {1}, granted := {1})
    ensures OnVoteResp(a, VoteResp(1, 1, a.term, true)) == (u, {})
  {
    assert a.granted + {1} == {1} && |{1}| == 1 && |THREE| == 3;
  }

  lemma SecondVote(a: Node, u: Node)
    requires a.role == Candidate && a.granted == {1} && a.peers == THREE
    requires u == a.(responded := a.responded + {2}, granted := {1, 2})
    ensures OnVoteResp(a, VoteResp(2, 1, a.term, true)) == SendAll(Elected(u))
  {
    assert {1} + {2} == {1, 2} && |{1, 2}| == 2 && |THREE| == 3;
  }

  /** The new leader sends an empty slice from behind its log. */
  lemma FirstSends(v: Node, log: seq<Entry>)
    requires One(v, v.term, log)
    ensures var r := SendAll(Elected(v));
      && One(r.0, v.term, log) && r.0.role == Leader && r.0.progress.Keys == THREE
      && (forall id :: id in THREE ==> r.0.progress[id].matched == |log|) && r.0.progress[2].next == |log| + 1
      && AppendReq(1, 2, v.term, |log|, LastTerm(v), 0, 0, []) in r.1
  {
    var u := Elected(v);
    assert AppendTo(u, 2, u.progress[2]) == AppendReq(1, 2, v.term, |log|, LastTerm(v), 0, 0, []);
  }

  lemma CountVotes(p: Pair, term: nat, log: seq<Entry>) returns (q: Pair)
    requires Possible(p) && Elects(p, term, log)
    ensures Possible(q) && Leads(q, term, log)
  {
    var u := p.a.(responded := p.a.responded + {1}, granted := {1});
    var v := u.(responded := u.responded + {2}, granted := {1, 2});
    FirstVote(p.a, u);
    OneHears(p, VoteResp(1, 1, term, true), (u, {}));
    SecondVote(u, v);
    FirstSends(v, log);
    var r := SendAll(Elected(v));
    OneHears(Pair(u, p.b, p.net + {}), VoteResp(2, 1, term, true), r);
    q := Pair(r.0, p.b, p.net + {} + r.1);
  }

  /** Node 1 stands for election and wins with its own vote and that of node 2. */
  lemma Win(p: Pair, term: nat, log: seq<Entry>) returns (q: Pair)
    requires Possible(p) && One(p.a, term, log) && Two(p.b, p.b.term) && p.a.role != Leader && p.b.term <= term
    ensures Possible(q) && Leads(q, term + 1, log)
  {
    q := Stand(p, term, log);
    q := GiveVotes(q, term + 1, log);
    q := CountVotes(q, term + 1, log);
  }

  // ---------------------------------------------------------------- the parts of the run

  lemma SendsKeep(u: Node, log: seq<Entry>)
    requires One(u, u.term, log)
    ensures One(SendAll(u).0, u.term, log) && SendAll(u).0.role == u.role
  {}

  /** The leader appends an entry; nothing of it is delivered. */
  lemma AppendOne(p: Pair, term: nat, log: seq<Entry>, payload: seq<nat>, more: seq<Entry>) returns (q: Pair)
    requires more == log + [Entry(|log| + 1, term, payload)] && Possible(p) && One(p.a, term, log) && p.a.role == Leader
    requires Two(p.b, term) && p.b.role == Follower
    ensures Possible(q) && One(q.a, term, more) && q.a.role == Leader && q.b == p.b
  {
    var w := LeaderWrite(|log| + 1);
    q := Pair(Submit(p.a, payload), p.b, p.net + {});
    Take(p, SubmitAt(1, payload), q);
    var r := OnWrite(q.a, w);
    var u := q.a.(writes := q.a.writes - multiset{w});
    assert u.writes == multiset{};
    var v :=
      if 1 in u.progress
      then u.(progress := u.progress[1 := u.progress[1].(matched := |log| + 1, next := |log| + 2)]) else u;
    SendsKeep(v, u.log);
    var s := Pair(r.0, p.b, q.net + r.1);
    Take(q, WriteDone(1, w), s);
    q := s;
  }

  lemma StandAgainst(p: Pair, term: nat) returns (q: Pair)
    requires Possible(p) && p.a.writes == multiset{} && Two(p.b, term) && p.b.role == Follower
    ensures Possible(q) && q.a == p.a && Two(q.b, term + 1) && VoteReq(2, 1, term + 1, 0, 0) in q.net
  {
    q := Pair(p.a, Timeout(p.b), p.net + {});
    Take(p, TimeoutAt(2), q);
    var u := q.b.(writes := q.b.writes - multiset{VoteWrite});
    assert u.writes == multiset{};
    assert 1 in u.peers - u.responded;
    var r := Pair(p.a, u, q.net + RequestVote(u));
    Take(q, WriteDone(2, VoteWrite), r);
    q := r;
  }

  /** Node 2 stands for election: node 1 gives up leading, and does not vote for it. */
  lemma Challenge(p: Pair, term: nat, log: seq<Entry>) returns (q: Pair)
    requires Possible(p) && One(p.a, term, log) && Two(p.b, term) && p.b.role == Follower
    ensures Possible(q) && One(q.a, term + 1, log) && q.a.role == Follower && Two(q.b, term + 1)
  {
    var r := StandAgainst(p, term);
    var s := OnVoteReq(p.a, VoteReq(2, 1, term + 1, 0, 0));
    q := Pair(s.0, r.b, r.net + s.1);
    OneHears(r, VoteReq(2, 1, term + 1, 0, 0), s);
  }

  /** What a leader makes of hearing, until it is to send from `next` on, that node 2 refuses. */
  function Behind(a: Node, next: nat): Node
    requires 2 in a.progress
  {
    a.(progress := a.progress[2 := a.progress[2].(next := next, lastReject := true)])
  }

  lemma HearNo(a: Node, next: nat)
    requires a.progress.Keys == THREE && a.progress[2].next == next > 1 && a.base == 0
    ensures OnMessage(a, AppendResp(2, 1, a.term, false, 0, true)) == (Behind(a, next - 1), {})
  {}

  lemma Refuse(b: Node, term: nat, prev: nat, prevTerm: nat)
    requires Two(b, term) && b.role == Follower && prev > 0
    ensures OnMessage(b, AppendReq(1, 2, term, prev, prevTerm, 0, 0, [])) ==
      (b.(leader := 1), {AppendResp(2, 1, term, false, 0, true)})
  {}

  /** Node 2 has none of it and says so. */
  lemma SayNo(p: Pair, term: nat, prev: nat, prevTerm: nat) returns (q: Pair)
    requires Possible(p) && p.a.writes == multiset{} && Two(p.b, term) && p.b.role == Follower && prev > 0
    requires AppendReq(1, 2, term, prev, prevTerm, 0, 0, []) in p.net
    ensures Possible(q) && q.a == p.a && Two(q.b, term) && q.b.role == Follower
    ensures AppendResp(2, 1, term, false, 0, true) in q.net
  {
    Refuse(p.b, term, prev, prevTerm);
    q := Pair(p.a, p.b.(leader := 1), p.net + {AppendResp(2, 1, term, false, 0, true)});
    TwoHears(p, AppendReq(1, 2, term, prev, prevTerm, 0, 0, []), (q.b, {AppendResp(2, 1, term, false, 0, true)}));
  }

  /** Node 1 can hear the refusal, and is to send from `next` on. */
  predicate Hears(p: Pair, term: nat, next: nat) {
    && p.a.writes == multiset{} && p.a.term == term && p.a.base == 0 && Two(p.b, term)
    && p.a.progress.Keys == THREE && p.a.progress[2].next == next
    && AppendResp(2, 1, term, false, 0, true) in p.net
  }

  lemma Hear(p: Pair, term: nat, next: nat) returns (q: Pair)
    requires Possible(p) && Hears(p, term, next) && next > 1
    ensures Possible(q) && q == Pair(Behind(p.a, next - 1), p.b, p.net) && Hears(q, term, next - 1)
  {
    HearNo(p.a, next);
    OneHears(p, AppendResp(2, 1, term, false, 0, true), (Behind(p.a, next - 1), {}));
    assert p.net + {} == p.net;
    q := Pair(Behind(p.a, next - 1), p.b, p.net);
  }

  lemma BehindTwice(a: Node, next: nat)
    requires a.progress.Keys == THREE
    ensures Behind(Behind(a, next), 1) == Behind(a, 1)
  {
    assert Behind(Behind(a, next), 1).progress == Behind(a, 1).progress;
  }

  /** The leader hears it as often as it takes to start over. */
  lemma {:induction false} HearAll(p: Pair, term: nat, next: nat) returns (q: Pair)
    requires Possible(p) && Hears(p, term, next) && next > 1
    ensures Possible(q) && q.a == Behind(p.a, 1) && q.b == p.b
    decreases next
  {
    BehindTwice(p.a, next - 1);
    q := Hear(p, term, next);
    if next > 2 { q := HearAll(q, term, next - 1); }
  }

  lemma Reject(p: Pair, term: nat, log: seq<Entry>) returns (q: Pair)
    requires Possible(p) && Leads(p, term, log) && log != []
    ensures Possible(q) && 2 in p.a.progress && q.a == Behind(p.a, 1) && Two(q.b, term) && q.b.role == Follower
  {
    q := SayNo(p, term, |log|, LastTerm(p.a));
    q := HearAll(q, term, |log| + 1);
  }

  /** The leader starts over with node 2, one entry at a time. */
  lemma StartOver(p: Pair, a: Node, term: nat, log: seq<Entry>) returns (q: Pair)
    requires Possible(p) && One(a, term, log) && a.role == Leader && a.progress.Keys == THREE && log != []
    requires (forall id :: id in THREE ==> a.progress[id].matched == |log|) && p.a == Behind(a, 1) && Two(p.b, term)
    ensures Possible(q) && q.b == p.b && q.a == p.a.(progress := q.a.progress) && q.a.progress.Keys == THREE
    ensures forall id :: id in THREE ==> q.a.progress[id].matched == |log|
    ensures AppendReq(1, 2, term, 0, 0, 0, 0, [log[0]]) in q.net
  {
    var r := SendAll(p.a);
    assert Slice(log, 0, 1) == [log[0]];
    assert AppendTo(p.a, 2, p.a.progress[2]) == AppendReq(1, 2, term, 0, 0, 0, 0, [log[0]]);
    assert AppendTo(p.a, 2, p.a.progress[2]) in r.1;
    q := Pair(r.0, p.b, p.net + r.1);
    Take(p, BeatAt(1), q);
  }

  lemma FirstStored(b: Node, term: nat, first: Entry)
    requires Two(b, term) && b.role == Follower
    ensures OnMessage(b, AppendReq(1, 2, term, 0, 0, 0, 0, [first])) ==
      (b.(leader := 1, log := [first], writes := multiset{FollowerWrite(1, 1, 0, 0)}), {})
  {
    assert [] + [first] == [first]
      && multiset{} + multiset{FollowerWrite(1, 1, 0, 0)} == multiset{FollowerWrite(1, 1, 0, 0)};
    assert Longer([], 0, [first], 0) == [first];
  }

  /** Node 2 stores the first entry. */
  lemma StoreFirst(p: Pair, term: nat, first: Entry) returns (q: Pair)
    requires Possible(p) && p.a.writes == multiset{} && Two(p.b, term) && p.b.role == Follower
    requires AppendReq(1, 2, term, 0, 0, 0, 0, [first]) in p.net
    ensures Possible(q) && q.a == p.a
    ensures q.b == p.b.(leader := 1, log := [first], writes := multiset{FollowerWrite(1, 1, 0, 0)})
  {
    var u := p.b.(leader := 1, log := [first], writes := multiset{FollowerWrite(1, 1, 0, 0)});
    FirstStored(p.b, term, first);
    TwoHears(p, AppendReq(1, 2, term, 0, 0, 0, 0, [first]), (u, {}));
    q := Pair(p.a, u, p.net + {});
  }

  /** The write completes and node 2 says so. */
  lemma SayStored(p: Pair, term: nat) returns (q: Pair)
    requires Possible(p) && p.b.id == 2 && p.b.term == term && |p.b.log| == 1
    requires p.b.writes == multiset{FollowerWrite(1, 1, 0, 0)} && p.b.base == 0
    ensures Possible(q) && q.a == p.a && |q.b.log| == 1 && q.b.writes == multiset{}
    ensures AppendResp(2, 1, term, true, 1, false) in q.net
  {
    var w := FollowerWrite(1, 1, 0, 0);
    var u := p.b.(writes := multiset{});
    assert p.b.writes - multiset{w} == multiset{};
    assert OnWrite(p.b, w) == (u, {AppendResp(2, 1, term, true, 1, false)});
    q := Pair(p.a, u, p.net + {AppendResp(2, 1, term, true, 1, false)});
    Take(p, WriteDone(2, w), q);
  }

  lemma CommitsAll(a: Node, n: nat, m: Msg)
    requires a.role == Leader && a.peers == THREE && a.base == 0 && |a.log| == n > 0 && a.log[n - 1].term < a.term
    requires a.commit == 0
    requires a.progress.Keys == THREE && forall id :: id in THREE ==> a.progress[id].matched == n
    requires m == AppendResp(2, 1, a.term, true, 1, false)
    ensures var u := OnAppendResp(a, m); u.role == Leader && u.commit == n && u.log == a.log && u.term == a.term
  {
    var v := a.(progress := a.progress[2 := Learn(a.progress[2], m, 0)]);
    assert Matching(v, n) == THREE && |THREE| == 3;
    assert MajorityIndex(v, n) == n;
  }

  // ---------------------------------------------------------------- the run

  /** A leader of term 3 that is about to commit its log, all of term 1. */
  predicate AboutTo(p: Pair, log: seq<Entry>) {
    && p.a.role == Leader && p.a.term == 3 && p.a.peers == THREE && p.a.base == 0 && p.a.log == log && p.a.commit == 0
    && p.a.progress.Keys == THREE && (forall id :: id in THREE ==> p.a.progress[id].matched == |log|)
    && p.a.writes == p.b.writes == multiset{} && |p.b.log| < 2
    && AppendResp(2, 1, 3, true, 1, false) in p.net
  }

  lemma Beginning() returns (p: Pair)
    ensures Possible(p) && One(p.a, 0, []) && Two(p.b, 0) && p.a.role == Follower
  {
    p := Pair(StartNode(1, THREE, 1), StartNode(2, THREE, 1), {});
    assert Start(THREE, 1).nodes == Actors(p);
    assert Ends([], p);
  }

  /** The log of a leader of term 1 that was given `ps`. */
  function LogOf(ps: seq<seq<nat>>): (log: seq<Entry>)
    ensures |log| == |ps| && forall i :: 0 <= i < |log| ==> log[i] == Entry(i + 1, 1, ps[i])
  {
    if ps == [] then [] else LogOf(ps[..|ps| - 1]) + [Entry(|ps|, 1, ps[|ps| - 1])]
  }

  lemma {:induction false} AppendAll(p: Pair, ps: seq<seq<nat>>) returns (q: Pair)
    requires Possible(p) && One(p.a, 1, []) && p.a.role == Leader && Two(p.b, 1) && p.b.role == Follower
    ensures Possible(q) && One(q.a, 1, LogOf(ps)) && q.a.role == Leader && q.b == p.b
  {
    if ps == [] {
      q := p;
    } else {
      var front := ps[..|ps| - 1];
      q := AppendAll(p, front);
      q := AppendOne(q, 1, LogOf(front), ps[|ps| - 1], LogOf(ps));
    }
  }

  lemma FirstReign(ps: seq<seq<nat>>) returns (p: Pair)
    ensures Possible(p) && One(p.a, 2, LogOf(ps)) && p.a.role == Follower && Two(p.b, 2)
  {
    p := Beginning();
    p := Win(p, 0, []);
    p := AppendAll(p, ps);
    p := Challenge(p, 1, LogOf(ps));
  }

  lemma SecondReign(p: Pair, log: seq<Entry>) returns (q: Pair)
    requires Possible(p) && One(p.a, 2, log) && p.a.role == Follower && Two(p.b, 2) && log != []
    ensures Possible(q) && AboutTo(q, log)
  {
    var w := Win(p, 2, log);
    q := Reject(w, 3, log);
    q := StartOver(q, w.a, 3, log);
    q := StoreFirst(q, 3, log[0]);
    q := SayStored(q, 3);
  }

  lemma Pays(p: Pair, log: seq<Entry>, q: Pair)
    requires AboutTo(p, log) && log != [] && log[|log| - 1].term < 3
    requires q == Turn(p, Receive(AppendResp(2, 1, 3, true, 1, false)))
    ensures Can(p, Receive(AppendResp(2, 1, 3, true, 1, false))) && |q.b.log| < 2
    ensures q.a.role == Leader && q.a.term == 3 && q.a.log == log && q.a.commit == |log|
  {
    CommitsAll(p.a, |log|, AppendResp(2, 1, 3, true, 1, false));
  }

  lemma LastTurn(front: seq<Event>, p: Pair, log: seq<Entry>) returns (q: Pair)
    requires Ends(front, p) && AboutTo(p, log) && log != [] && log[|log| - 1].term < 3
    ensures Ends(front + [Receive(AppendResp(2, 1, 3, true, 1, false))], q)
    ensures q.a.role == Leader && q.a.term == 3 && q.a.log == log && q.a.commit == |log|
  {
    q := Turn(p, Receive(AppendResp(2, 1, 3, true, 1, false)));
    Pays(p, log, q);
    More(front, p, Receive(AppendResp(2, 1, 3, true, 1, false)), q);
  }

  lemma NobodyElse(es: seq<Event>, q: Pair, log: seq<Entry>)
    requires Ends(es, q) && |log| >= 2
    ensures forall id, t, k :: (id == 2 || id == 3) && 2 <= k <= |log| ==> !WasHeld(THREE, 1, es, id, t, log[..k])
  {
    forall id, t, k | 2 <= k <= |log| && WasHeld(THREE, 1, es, id, t, log[..k]) ensures id != 2 && id != 3 {
      HappenedSeen(THREE, 1, es, id, t, log[..k]);
    }
  }

  /** For any log of two or more entries: node 1 leads term 3 and has just committed its whole
      log, of term 1; neither of the other two nodes has ever had more than its first entry. */
  lemma CommitsWithoutMajority(ps: seq<seq<nat>>) returns (es: seq<Event>)
    requires |ps| >= 2
    ensures PromptRun(Start(THREE, 1), es) && es != []
    ensures var c, d := After(Start(THREE, 1), es[..|es| - 1]), After(Start(THREE, 1), es);
      && c.nodes.Keys == d.nodes.Keys == THREE && c.nodes[1].commit == 0
      && d.nodes[1].role == Leader && d.nodes[1].term == 3 && d.nodes[1].commit == |ps|
      && d.nodes[1].log == LogOf(ps)
    ensures forall id, t, k :: (id == 2 || id == 3) && 2 <= k <= |ps| ==> !WasHeld(THREE, 1, es, id, t, LogOf(ps)[..k])
  {
    var log := LogOf(ps);
    var p := FirstReign(ps);
    p := SecondReign(p, log);
    var front :| Ends(front, p);
    var q := LastTurn(front, p, log);
    es := front + [Receive(AppendResp(2, 1, 3, true, 1, false))];
    assert es[..|es| - 1] == front;
    NobodyElse(es, q, log);
  }
}
