/** What a commit means when writes complete at once and leadership is not
    transferred: an entry of its own term is committed by a leader only after a
    majority has each held, in that term, the leader's log up to the entry, although
    a new leader takes every node to match its whole log. */
module RaftCommit {
  import opened RaftNodes
  import opened RaftCluster
  import opened RaftLogs
  import opened RaftDelivery

  /** A write completes before anything else happens. */
  predicate Prompt(c: Cluster, e: Event) {
    && Enabled(c, e) && !e.NudgeAt? && !e.CompactAt?
    && (e.WriteDone? || forall id :: id in c.nodes ==> c.nodes[id].writes == multiset{})
  }

  ghost predicate PromptRun(c: Cluster, es: seq<Event>) {
    Legal(c, es) && (es != [] ==> PromptRun(c, es[..|es| - 1]) && Prompt(After(c, es[..|es| - 1]), es[|es| - 1]))
  }

  lemma {:induction false} PromptDoesNotCompact(c: Cluster, es: seq<Event>)
    requires PromptRun(c, es)
    ensures NoCompaction(es)
  {
    if es != [] {
      PromptDoesNotCompact(c, es[..|es| - 1]);
      forall i | 0 <= i < |es| ensures !es[i].CompactAt? {
        if i < |es| - 1 { assert !es[..|es| - 1][i].CompactAt?; }
      }
    }
  }

  // ---------------------------------------------------------------- invariant

  /** At some point node `id` was in term `t` with a log that starts with `part`. */
  ghost predicate Held(seen: set<Sight>, id: Id, t: nat, part: seq<Entry>) {
    exists log :: Sight(id, t, log) in seen && part <= log
  }

  /** What a leader's log had when it was elected is of earlier terms, the rest is of its own. */
  ghost predicate ReignSync(r: Reign, t: nat) {
    && r.start <= |r.log|
    && forall k :: 0 <= k < |r.log| ==> if k < r.start then r.log[k].term < t else r.log[k].term == t
  }

  ghost predicate ProgressSync(start: nat, seen: set<Sight>, n: Node, q: Id)
    requires q in n.progress
  {
    var p := n.progress[q];
    && p.matched <= |n.log| && p.next <= |n.log| + 1 && p.sendNext <= |n.log| + 1
    && start <= p.matched && (p.matched == start || Held(seen, q, n.term, n.log[..p.matched]))
  }

  ghost predicate LeaderSync(book: map<nat, Reign>, seen: set<Sight>, n: Node) {
    n.role == Leader ==>
      && n.term in book && n.progress.Keys == n.peers
      && forall q :: q in n.progress ==> ProgressSync(book[n.term].start, seen, n, q)
  }

  ghost predicate TermsSync(n: Node) {
    forall k :: 0 <= k < |n.log| ==> n.log[k].term <= n.term && (n.role == Candidate ==> n.log[k].term < n.term)
  }

  ghost predicate SamePrefix(book: map<nat, Reign>, t: nat, log: seq<Entry>, upto: nat) {
    t in book && upto <= |log| && upto <= |book[t].log| && log[..upto] == book[t].log[..upto]
  }

  ghost predicate WriteSync(book: map<nat, Reign>, n: Node, w: Write) {
    match w
    case VoteWrite => true
    case LeaderWrite(i) => n.role == Leader && i == |n.log|
    case FollowerWrite(_, matched, _, _) => n.role == Follower && SamePrefix(book, n.term, n.log, matched)
  }

  ghost predicate NodeSync(book: map<nat, Reign>, seen: set<Sight>, n: Node) {
    && TermsSync(n) && LeaderSync(book, seen, n) && Sight(n.id, n.term, n.log) in seen
    && forall w :: w in n.writes ==> WriteSync(book, n, w)
  }

  ghost predicate MsgSync(book: map<nat, Reign>, seen: set<Sight>, m: Msg) {
    match m
    case AppendReq(_, _, t, prev, prevTerm, _, _, es) =>
      && t in book && prev + |es| <= |book[t].log| && es == book[t].log[prev..prev + |es|]
      && (prev > 0 ==> prevTerm == book[t].log[prev - 1].term)
    case AppendResp(src, _, t, success, matched, _) =>
      success ==> t in book && matched <= |book[t].log| && Held(seen, src, t, book[t].log[..matched])
    case _ => true
  }

  ghost predicate SyncInv(c: Cluster) {
    && (forall t :: t in c.book ==> ReignSync(c.book[t], t))
    && (forall id :: id in c.nodes ==> NodeSync(c.book, c.seen, c.nodes[id]))
    && (forall m :: m in c.net ==> MsgSync(c.book, c.seen, m))
  }

  // ---------------------------------------------------------------- history only grows

  ghost predicate Steady(book: map<nat, Reign>, later: map<nat, Reign>) {
    forall t :: t in book ==> t in later && book[t].log <= later[t].log && later[t].start == book[t].start
  }

  lemma NodeSteady(book: map<nat, Reign>, later: map<nat, Reign>, seen: set<Sight>, more: set<Sight>, n: Node)
    requires Steady(book, later) && seen <= more && NodeSync(book, seen, n)
    ensures NodeSync(later, more, n)
  {
    forall w | w in n.writes ensures WriteSync(later, n, w) {
      assert WriteSync(book, n, w);
      if w.FollowerWrite? { assert later[n.term].log[..w.matched] == book[n.term].log[..w.matched]; }
    }
    if n.role == Leader {
      forall q | q in n.progress ensures ProgressSync(later[n.term].start, more, n, q) {
        assert ProgressSync(book[n.term].start, seen, n, q);
      }
    }
  }

  lemma MsgSteady(book: map<nat, Reign>, later: map<nat, Reign>, seen: set<Sight>, more: set<Sight>, m: Msg)
    requires Steady(book, later) && seen <= more && MsgSync(book, seen, m)
    ensures MsgSync(later, more, m)
  {
    if m.AppendReq? {
      assert later[m.term].log[m.prev..m.prev + |m.entries|] == book[m.term].log[m.prev..m.prev + |m.entries|];
    } else if m.AppendResp? && m.success {
      assert later[m.term].log[..m.matched] == book[m.term].log[..m.matched];
    }
  }

  // ---------------------------------------------------------------- handlers

  /** A handler's result fits the history after it. */
  ghost predicate Fine(book: map<nat, Reign>, seen: set<Sight>, r: (Node, set<Msg>)) {
    NodeSync(book, seen, r.0) && forall m :: m in r.1 ==> MsgSync(book, seen, m)
  }

  lemma SendSync(book: map<nat, Reign>, seen: set<Sight>, n: Node, q: Id)
    requires n.base == 0 && Consecutive(n.log, 0) && n.role == Leader && n.term in book && book[n.term].log == n.log
    requires q in n.progress && ProgressSync(book[n.term].start, seen, n, q)
    ensures MsgSync(book, seen, AppendTo(n, q, n.progress[q]))
    ensures Sent(n, n.progress[q]).sendNext <= |n.log| + 1
  {
    AppendToIsSlice(n, q, n.progress[q]);
  }

  lemma SendAllSync(book: map<nat, Reign>, seen: set<Sight>, n: Node)
    requires n.base == 0 && Consecutive(n.log, 0) && n.role == Leader && n.term in book && book[n.term].log == n.log
    requires NodeSync(book, seen, n)
    ensures Fine(book, seen, SendAll(n))
  {
    var u := SendAll(n).0;
    forall q | q in u.progress ensures ProgressSync(book[n.term].start, seen, u, q) {
      assert ProgressSync(book[n.term].start, seen, n, q);
      SendSync(book, seen, n, q);
    }
    forall m | m in SendAll(n).1 ensures MsgSync(book, seen, m) {
      var q :| q in n.progress && q != n.id && m == AppendTo(n, q, n.progress[q]);
      assert ProgressSync(book[n.term].start, seen, n, q);
      SendSync(book, seen, n, q);
    }
    SendAllKeeps(n);
  }

  /** The follower's log and the leader's are the same up to where the slice starts. */
  lemma FitsLeader(book: map<nat, Reign>, seen: set<Sight>, log: seq<Entry>, m: Msg)
    requires BookOk(book) && InBook(book, log) && m.AppendReq? && MsgSync(book, seen, m) && Fits(log, m)
    ensures SamePrefix(book, m.term, log, m.prev)
  {
    if m.prev > 0 { SamePast(book, log, book[m.term].log, m.prev - 1); }
  }

  /** After storing a slice the follower has the leader's log up to its end. */
  lemma StoredIsLeaders(book: map<nat, Reign>, seen: set<Sight>, log: seq<Entry>, m: Msg)
    requires BookOk(book) && InBook(book, log) && m.AppendReq? && MsgSync(book, seen, m) && SliceInBook(book, m)
    requires Fits(log, m)
    requires Agree(log, m.prev, m.entries, 0)
    ensures SamePrefix(book, m.term, Stored(log, m), m.prev + |m.entries|)
  {
    FitsLeader(book, seen, log, m);
    OverlapIsSlice(book, log, m);
    var upto := m.prev + |m.entries|;
    var lead := book[m.term].log;
    assert lead[..upto] == lead[..m.prev] + m.entries;
    if |log| - m.prev < |m.entries| {
      assert Stored(log, m) == log[..m.prev] + m.entries;
      assert Stored(log, m)[..upto] == log[..m.prev] + m.entries;
    } else {
      assert log[..upto] == log[..m.prev] + m.entries by {
        if |log| - m.prev == |m.entries| { assert log[..upto] == log && m.entries[..|m.entries|] == m.entries; }
      }
    }
  }

  lemma StoredTerms(book: map<nat, Reign>, seen: set<Sight>, log: seq<Entry>, m: Msg)
    requires m.AppendReq? && MsgSync(book, seen, m) && ReignSync(book[m.term], m.term) && m.prev <= |log|
    requires forall k :: 0 <= k < |log| ==> log[k].term <= m.term
    ensures forall k :: 0 <= k < |Stored(log, m)| ==> Stored(log, m)[k].term <= m.term
  {
    forall j | 0 <= j < |m.entries| ensures m.entries[j].term <= m.term {
      assert m.entries[j] == book[m.term].log[m.prev + j];
    }
  }

  lemma HeldNow(seen: set<Sight>, n: Node, upto: nat)
    requires Sight(n.id, n.term, n.log) in seen && upto <= |n.log|
    ensures Held(seen, n.id, n.term, n.log[..upto])
  {
    assert n.log[..upto] <= n.log;
  }

  /** A follower with nothing to lead: its terms, its sight and its writes are all there is to it. */
  lemma FollowerSync(book: map<nat, Reign>, seen: set<Sight>, u: Node)
    requires u.role == Follower && Sight(u.id, u.term, u.log) in seen
    requires forall k :: 0 <= k < |u.log| ==> u.log[k].term <= u.term
    requires forall w :: w in u.writes ==> w.FollowerWrite? && SamePrefix(book, u.term, u.log, w.matched)
    ensures NodeSync(book, seen, u)
  {}

  lemma StoredFine(book: map<nat, Reign>, seen: set<Sight>, more: set<Sight>, n: Node, m: Msg, r: (Node, set<Msg>))
    requires BookOk(book) && InBook(book, n.log) && NodeSync(book, seen, n) && n.role == Follower
    requires m.AppendReq? && m.term == n.term && MsgSync(book, seen, m) && SliceInBook(book, m) && Fits(n.log, m)
    requires m.term in book && ReignSync(book[m.term], m.term)
    requires SameBallot(n, r.0) && r.0.log == Stored(n.log, m) && Sight(n.id, n.term, r.0.log) in more
    requires !Agree(n.log, m.prev, m.entries, 0) ==> r.0.writes == multiset{} && r.1 == {}
    requires forall w :: w in r.0.writes ==> w.FollowerWrite? && w.matched == m.prev + |m.entries|
    requires forall w :: w in r.1 ==> w == AppendResp(n.id, m.src, n.term, true, m.prev + |m.entries|, true)
    ensures Fine(book, more, r)
  {
    StoredTerms(book, seen, n.log, m);
    if Agree(n.log, m.prev, m.entries, 0) {
      StoredIsLeaders(book, seen, n.log, m);
      HeldNow(more, r.0, m.prev + |m.entries|);
    }
    FollowerSync(book, more, r.0);
  }

  lemma StoreSync(book: map<nat, Reign>, seen: set<Sight>, more: set<Sight>, n: Node, m: Msg)
    requires BookOk(book) && InBook(book, n.log) && Plain(n) && NodeSync(book, seen, n) && n.role == Follower
    requires n.writes == multiset{}
    requires m.AppendReq? && PlainMsg(m) && m.term == n.term && MsgSync(book, seen, m) && SliceInBook(book, m)
    requires m.term in book && ReignSync(book[m.term], m.term) && LogOk(n, m.prev, m.prevTerm)
    requires more == seen + {Sight(n.id, n.term, Store(n, m).0.log)}
    ensures Fine(book, more, Store(n, m))
  {
    StoreLogs(n, m);
    StoreKeepsBallot(n, m);
    StoreWrites(n, m);
    StoredFine(book, seen, more, n, m, Store(n, m));
  }

  lemma StoreWrites(n: Node, m: Msg)
    requires Plain(n) && n.writes == multiset{} && m.AppendReq? && PlainMsg(m) && LogOk(n, m.prev, m.prevTerm)
    ensures !Agree(n.log, m.prev, m.entries, 0) ==> Store(n, m).0.writes == multiset{} && Store(n, m).1 == {}
    ensures forall w :: w in Store(n, m).0.writes ==> w.FollowerWrite? && w.matched == m.prev + |m.entries|
    ensures forall w :: w in Store(n, m).1 ==> w == AppendResp(n.id, m.src, n.term, true, m.prev + |m.entries|, true)
  {
    CommitKeeps(n, m.commit);
    PlainConsistency(UpdateCommit(n, m.commit));
  }

  lemma AppendReqSync(book: map<nat, Reign>, seen: set<Sight>, more: set<Sight>, n: Node, m: Msg)
    requires BookOk(book) && InBook(book, n.log) && Plain(n) && NodeSync(book, seen, n) && n.writes == multiset{}
    requires m.AppendReq? && PlainMsg(m) && MsgSync(book, seen, m) && SliceInBook(book, m)
    requires m.term in book && ReignSync(book[m.term], m.term)
    requires more == seen + {Sight(n.id, OnAppendReq(n, m).0.term, OnAppendReq(n, m).0.log)}
    ensures Fine(book, more, OnAppendReq(n, m))
  {
    var u := n.(leader := m.src);
    NodeSteady(book, book, seen, more, n);
    if m.term == n.term && n.role == Follower && LogOk(u, m.prev, m.prevTerm) {
      if m.entries == [] {
        FitsLeader(book, seen, n.log, m);
        CommitKeeps(u, m.commit);
        PlainConsistency(UpdateCommit(u, m.commit));
        HeldNow(more, n, m.prev);
      } else {
        assert NodeSync(book, seen, u);
        StoreSync(book, seen, more, u, m);
        assert OnAppendReq(n, m) == Store(u, m);
      }
    } else if m.term == n.term && n.role == Leader {
      forall q | q in n.progress ensures ProgressSync(book[n.term].start, more, u, q) {
        assert ProgressSync(book[n.term].start, more, n, q);
      }
    }
  }

  lemma VoteReqSync(book: map<nat, Reign>, seen: set<Sight>, more: set<Sight>, n: Node, m: Msg)
    requires NodeSync(book, seen, n) && n.writes == multiset{} && m.VoteReq?
    requires more == seen + {Sight(n.id, OnVoteReq(n, m).0.term, n.log)}
    ensures Fine(book, more, OnVoteReq(n, m))
  {
    NodeSteady(book, book, seen, more, n);
    var u := OnVoteReq(n, m).0;
    if u.role == Leader {
      forall q | q in u.progress ensures ProgressSync(book[u.term].start, more, u, q) {
        assert ProgressSync(book[n.term].start, more, n, q);
      }
    }
  }

  lemma TimeoutSync(book: map<nat, Reign>, seen: set<Sight>, more: set<Sight>, n: Node)
    requires NodeSync(book, seen, n) && n.writes == multiset{}
    requires more == seen + {Sight(n.id, Timeout(n).term, n.log)}
    ensures NodeSync(book, more, Timeout(n))
  {
    NodeSteady(book, book, seen, more, n);
  }

  /** A leader with a longer log: what was true of the nodes it knows stays true. */
  lemma SubmitSync(book: map<nat, Reign>, later: map<nat, Reign>, seen: set<Sight>, more: set<Sight>, n: Node,
                   payload: seq<nat>)
    requires NodeSync(book, seen, n) && n.base == 0 && n.writes == multiset{} && Steady(book, later)
    requires more == seen + {Sight(n.id, n.term, Submit(n, payload).log)}
    ensures NodeSync(later, more, Submit(n, payload))
  {
    NodeSteady(book, later, seen, more, n);
    var u := Submit(n, payload);
    if n.role == Leader {
      forall q | q in u.progress ensures ProgressSync(later[u.term].start, more, u, q) {
        assert ProgressSync(later[n.term].start, more, n, q);
        assert u.log[..n.progress[q].matched] == n.log[..n.progress[q].matched];
      }
    }
  }

  lemma OwnMatchSync(book: map<nat, Reign>, seen: set<Sight>, n: Node, w: Write)
    requires NodeSync(book, seen, n) && w in n.writes && w.LeaderWrite?
    ensures NodeSync(book, seen, OwnMatch(n, w))
  {
    var u := OwnMatch(n, w);
    assert WriteSync(book, n, w);
    assert n.log[..|n.log|] == n.log;
    HeldNow(seen, n, |n.log|);
    forall q | q in u.progress ensures ProgressSync(book[u.term].start, seen, u, q) {
      if q in n.progress { assert ProgressSync(book[n.term].start, seen, n, q); }
    }
    forall v | v in u.writes ensures WriteSync(book, u, v) { assert WriteSync(book, n, v); }
  }

  lemma FollowerWriteSync(book: map<nat, Reign>, seen: set<Sight>, n: Node, w: Write)
    requires NodeSync(book, seen, n) && Plain(n) && w in n.writes && w.FollowerWrite?
    ensures Fine(book, seen, OnWrite(n, w))
  {
    var u := n.(writes := n.writes - multiset{w});
    CommitKeeps(u, w.commit);
    PlainConsistency(UpdateCommit(u, w.commit));
    assert WriteSync(book, n, w);
    HeldNow(seen, n, w.matched);
    var v := OnWrite(n, w).0;
    forall x | x in v.writes ensures WriteSync(book, v, x) { assert WriteSync(book, n, x); }
  }

  lemma VoteWriteSync(book: map<nat, Reign>, seen: set<Sight>, n: Node)
    requires NodeSync(book, seen, n) && VoteWrite in n.writes
    ensures Fine(book, seen, OnWrite(n, VoteWrite))
  {
    var v := OnWrite(n, VoteWrite).0;
    forall x | x in v.writes ensures WriteSync(book, v, x) { assert WriteSync(book, n, x); }
    if n.role == Leader {
      forall q | q in v.progress ensures ProgressSync(book[v.term].start, seen, v, q) {
        assert ProgressSync(book[n.term].start, seen, n, q);
      }
    }
  }

  lemma AppendRespSync(book: map<nat, Reign>, seen: set<Sight>, more: set<Sight>, n: Node, m: Msg)
    requires NodeSync(book, seen, n) && n.writes == multiset{} && m.AppendResp? && MsgSync(book, seen, m)
    requires n.role == Leader ==> n.term in book && book[n.term].log == n.log
    requires more == seen + {Sight(n.id, OnAppendResp(n, m).term, n.log)}
    ensures NodeSync(book, more, OnAppendResp(n, m))
  {
    NodeSteady(book, book, seen, more, n);
    MsgSteady(book, book, seen, more, m);
    var u := UpdateTerm(n, m.term);
    if m.src in u.progress && m.term == u.term {
      var v := u.(progress := u.progress[m.src := Learn(u.progress[m.src], m, u.base)]);
      AdvanceCommitKeeps(v);
      if u.role == Leader {
        forall q | q in v.progress ensures ProgressSync(book[v.term].start, more, v, q) {
          assert ProgressSync(book[n.term].start, more, n, q);
        }
        LeaderStays(book, more, v, OnAppendResp(n, m));
      }
    }
  }

  lemma LeaderStays(book: map<nat, Reign>, seen: set<Sight>, n: Node, u: Node)
    requires LeaderSync(book, seen, n) && u.role == n.role && u.term == n.term && u.log == n.log
    requires u.progress == n.progress && u.peers == n.peers
    ensures LeaderSync(book, seen, u)
  {
    if n.role == Leader {
      forall q | q in u.progress ensures ProgressSync(book[u.term].start, seen, u, q) {
        assert ProgressSync(book[n.term].start, seen, n, q);
      }
    }
  }

  /** A new leader takes every node to match what it has, which is no more than it was elected with. */
  lemma ElectedSync(book: map<nat, Reign>, later: map<nat, Reign>, seen: set<Sight>, n: Node)
    requires NodeSync(book, seen, n) && n.writes == multiset{} && n.role == Candidate && n.base == 0
    requires n.term in later && later[n.term].start == |n.log|
    ensures NodeSync(later, seen, Elected(n))
  {
    var u := Elected(n);
    forall q | q in u.progress ensures ProgressSync(later[u.term].start, seen, u, q) {}
  }

  lemma VoteRespSync(book: map<nat, Reign>, later: map<nat, Reign>, seen: set<Sight>, more: set<Sight>, n: Node, m: Msg)
    requires NodeSync(book, seen, n) && n.writes == multiset{} && n.base == 0 && Consecutive(n.log, 0) && m.VoteResp?
    requires Steady(book, later) && more == seen + {Sight(n.id, OnVoteResp(n, m).0.term, n.log)}
    requires var u := OnVoteResp(n, m).0;
      u.role == Leader && n.role != Leader ==>
        u.term in later && later[u.term].start == |n.log| && later[u.term].log == n.log
    ensures Fine(later, more, OnVoteResp(n, m))
  {
    NodeSteady(book, later, seen, more, n);
    var u := UpdateTerm(n, m.term);
    if m.term == u.term {
      var v := u.(responded := u.responded + {m.src}, granted := if m.granted then u.granted + {m.src} else u.granted);
      LeaderStays(later, more, u, v);
      if v.role == Candidate && |v.granted| * 2 > |v.peers| {
        SendAllKeeps(Elected(v));
        assert OnVoteResp(n, m) == SendAll(Elected(v));
        ElectedSync(later, later, more, v);
        SendAllSync(later, more, Elected(v));
      }
    }
  }

  // ---------------------------------------------------------------- steps

  /** What the invariants say about one node. */
  ghost predicate Ready(book: map<nat, Reign>, seen: set<Sight>, n: Node) {
    && NodeSync(book, seen, n) && Plain(n) && Consecutive(n.log, 0) && InBook(book, n.log)
    && (n.role == Leader ==> n.term in book && book[n.term].log == n.log)
  }

  /** A handler's result fits the history that records it. */
  ghost predicate Lands(book: map<nat, Reign>, seen: set<Sight>, r: (Node, set<Msg>)) {
    Fine(Booked(book, r.0), seen + {Sight(r.0.id, r.0.term, r.0.log)}, r)
  }

  lemma BookSame(book: map<nat, Reign>, n: Node, u: Node)
    requires n.role == Leader ==> n.term in book && book[n.term].log == n.log
    requires u.role == Leader ==> n.role == Leader && u.term == n.term && u.log == n.log
    ensures Booked(book, u) == book
  {}

  lemma VoteReqLands(book: map<nat, Reign>, seen: set<Sight>, n: Node, m: Msg)
    requires Ready(book, seen, n) && n.writes == multiset{} && m.VoteReq?
    ensures Lands(book, seen, OnVoteReq(n, m))
  {
    var u := OnVoteReq(n, m).0;
    BookSame(book, n, u);
    VoteReqSync(book, seen, seen + {Sight(u.id, u.term, u.log)}, n, m);
  }

  lemma AppendReqRole(n: Node, m: Msg)
    requires m.AppendReq?
    ensures var u := OnAppendReq(n, m).0;
      u.id == n.id && (u.role == Leader ==> n.role == Leader && u.term == n.term && u.log == n.log)
  {
    var u := n.(leader := m.src);
    if m.term == n.term && n.role == Follower && LogOk(u, m.prev, m.prevTerm) {
      if m.entries == [] {
        CommitKeeps(u, m.commit);
        ConsistencyKeeps(UpdateCommit(u, m.commit), m.consistency);
      } else {
        StoreKeepsBallot(u, m);
      }
    }
  }

  lemma AppendReqLands(book: map<nat, Reign>, seen: set<Sight>, n: Node, m: Msg)
    requires BookOk(book) && Ready(book, seen, n) && n.writes == multiset{}
    requires m.AppendReq? && PlainMsg(m) && MsgSync(book, seen, m) && SliceInBook(book, m)
    requires m.term in book && ReignSync(book[m.term], m.term)
    ensures Lands(book, seen, OnAppendReq(n, m))
  {
    var u := OnAppendReq(n, m).0;
    AppendReqRole(n, m);
    BookSame(book, n, u);
    AppendReqSync(book, seen, seen + {Sight(u.id, u.term, u.log)}, n, m);
  }

  lemma AppendRespLands(book: map<nat, Reign>, seen: set<Sight>, n: Node, m: Msg)
    requires Ready(book, seen, n) && n.writes == multiset{} && m.AppendResp? && MsgSync(book, seen, m)
    ensures Lands(book, seen, (OnAppendResp(n, m), {}))
  {
    var u := UpdateTerm(n, m.term);
    if m.src in u.progress && m.term == u.term {
      AdvanceCommitKeeps(u.(progress := u.progress[m.src := Learn(u.progress[m.src], m, u.base)]));
    }
    var v := OnAppendResp(n, m);
    assert v.id == n.id && v.log == n.log && (v.role == Leader ==> n.role == Leader && v.term == n.term);
    BookSame(book, n, v);
    AppendRespSync(book, seen, seen + {Sight(v.id, v.term, v.log)}, n, m);
  }

  lemma VoteRespShape(n: Node, m: Msg)
    requires m.VoteResp?
    ensures var u := OnVoteResp(n, m).0; u.id == n.id && u.log == n.log && (u.role == Leader ==> u.term == n.term)
  {
    var u := UpdateTerm(n, m.term);
    var v := u.(responded := u.responded + {m.src}, granted := if m.granted then u.granted + {m.src} else u.granted);
    SendAllKeeps(Elected(v));
  }

  lemma VoteRespLands(book: map<nat, Reign>, seen: set<Sight>, n: Node, m: Msg)
    requires Ready(book, seen, n) && n.writes == multiset{} && m.VoteResp?
    requires OnVoteResp(n, m).0.role == Leader && n.role != Leader ==> n.term !in book
    ensures Lands(book, seen, OnVoteResp(n, m))
  {
    var u := OnVoteResp(n, m).0;
    VoteRespShape(n, m);
    if u.role != Leader || n.role == Leader { BookSame(book, n, u); }
    VoteRespSync(book, Booked(book, u), seen, seen + {Sight(u.id, u.term, u.log)}, n, m);
  }

  lemma TimeoutLands(book: map<nat, Reign>, seen: set<Sight>, n: Node)
    requires Ready(book, seen, n) && n.writes == multiset{}
    ensures Lands(book, seen, (Timeout(n), {}))
  {
    BookSame(book, n, Timeout(n));
    TimeoutSync(book, seen, seen + {Sight(n.id, Timeout(n).term, n.log)}, n);
  }

  lemma SubmitLands(book: map<nat, Reign>, seen: set<Sight>, n: Node, payload: seq<nat>)
    requires Ready(book, seen, n) && n.writes == multiset{}
    ensures Lands(book, seen, (Submit(n, payload), {}))
  {
    var u := Submit(n, payload);
    SubmitSync(book, Booked(book, u), seen, seen + {Sight(n.id, n.term, u.log)}, n, payload);
  }

  lemma BeatLands(book: map<nat, Reign>, seen: set<Sight>, n: Node)
    requires Ready(book, seen, n)
    ensures Lands(book, seen, HeartBeat(n))
  {
    SendAllKeeps(n);
    BookSame(book, n, HeartBeat(n).0);
    assert seen + {Sight(n.id, n.term, n.log)} == seen;
    if n.role == Leader { SendAllSync(book, seen, n); }
  }

  lemma WriteLands(book: map<nat, Reign>, seen: set<Sight>, n: Node, w: Write)
    requires Ready(book, seen, n) && w in n.writes
    ensures Lands(book, seen, OnWrite(n, w))
  {
    var u := n.(writes := n.writes - multiset{w});
    assert seen + {Sight(n.id, n.term, n.log)} == seen;
    if w.VoteWrite? {
      VoteWriteSync(book, seen, n);
      BookSame(book, n, u);
    } else if w.LeaderWrite? {
      assert WriteSync(book, n, w);
      OwnMatchSync(book, seen, n, w);
      SendAllSync(book, seen, OwnMatch(n, w));
      SendAllKeeps(OwnMatch(n, w));
      BookSame(book, n, SendAll(OwnMatch(n, w)).0);
      assert OnWrite(n, w) == SendAll(OwnMatch(n, w));
    } else {
      FollowerWriteSync(book, seen, n, w);
      CommitKeeps(u, w.commit);
      PlainConsistency(UpdateCommit(u, w.commit));
      BookSame(book, n, OnWrite(n, w).0);
    }
  }

  /** A prompt step from a state in which all invariants hold. */
  ghost predicate SyncEvent(c: Cluster, e: Event) {
    Prompt(c, e) && ElectionInv(c) && LogInv(c) && DeliveryInv(c) && SyncInv(c)
  }

  lemma ActorReady(c: Cluster, id: Id)
    requires ElectionInv(c) && LogInv(c) && DeliveryInv(c) && SyncInv(c) && id in c.nodes
    ensures Ready(c.book, c.seen, c.nodes[id]) && c.nodes[id].id == id
  {
    assert NodeVotes(c.net, c.nodes.Keys, id, c.nodes[id]);
    assert NodeDelivers(c.nodes[id]);
    if c.nodes[id].role == Leader { assert ReignOk(c, c.nodes[id].term); }
  }

  lemma ReceiveLands(c: Cluster, m: Msg)
    requires SyncEvent(c, Receive(m))
    ensures Lands(c.book, c.seen, OnMessage(c.nodes[m.dest], m))
  {
    var n := c.nodes[m.dest];
    ActorReady(c, m.dest);
    assert MsgSync(c.book, c.seen, m) && SliceInBook(c.book, m) && PlainMsg(m);
    match m
    case VoteReq(_, _, _, _, _) => VoteReqLands(c.book, c.seen, n, m);
    case VoteResp(_, _, _, _) =>
      VoteRespElects(n, m);
      if OnVoteResp(n, m).0.role == Leader && n.role != Leader { NewReign(c, m.dest, OnVoteResp(n, m), Receive(m)); }
      VoteRespLands(c.book, c.seen, n, m);
    case AppendReq(_, _, _, _, _, _, _, _) => AppendReqLands(c.book, c.seen, n, m);
    case AppendResp(_, _, _, _, _, _) => AppendRespLands(c.book, c.seen, n, m);
  }

  lemma HandleLands(c: Cluster, e: Event)
    requires SyncEvent(c, e)
    ensures Lands(c.book, c.seen, Handle(c.nodes[Actor(e)], e))
  {
    var n := c.nodes[Actor(e)];
    ActorReady(c, Actor(e));
    match e
    case Receive(m) => ReceiveLands(c, m);
    case TimeoutAt(_) => TimeoutLands(c.book, c.seen, n);
    case SubmitAt(_, p) => SubmitLands(c.book, c.seen, n, p);
    case BeatAt(_) => BeatLands(c.book, c.seen, n);
    case WriteDone(_, w) => WriteLands(c.book, c.seen, n, w);
  }

  lemma ReignLonger(r: Reign, t: nat, log: seq<Entry>)
    requires ReignSync(r, t) && (log == r.log || (|log| == |r.log| + 1 && r.log <= log && log[|r.log|].term == t))
    ensures ReignSync(r.(log := log), t) && r.log <= log
  {}

  /** A leader's step lengthens the log of its term, or opens the term. */
  lemma BookSteady(c: Cluster, id: Id, r: (Node, set<Msg>), e: Event)
    requires ElectionInv(c) && Reigns(c) && id in c.nodes && TermsSync(c.nodes[id])
    requires ElectionStep(c.nodes[id], r.0, r.1, e) && Logs(c.nodes[id], r.0, e)
    requires e.Receive? ==> e.msg in c.net && e.msg.dest == id
    requires forall t :: t in c.book ==> ReignSync(c.book[t], t)
    ensures Steady(c.book, Booked(c.book, r.0))
    ensures forall t :: t in Booked(c.book, r.0) ==> ReignSync(Booked(c.book, r.0)[t], t)
  {
    var n, u := c.nodes[id], r.0;
    if u.role == Leader {
      if n.role == Leader {
        assert ReignOk(c, u.term) && ReignSync(c.book[u.term], u.term);
        ReignLonger(c.book[u.term], u.term, u.log);
      } else {
        NewReign(c, id, r, e);
        assert n.role == Candidate && u.log == n.log;
      }
    }
  }

  lemma MovedKeepsSync(c: Cluster, id: Id, r: (Node, set<Msg>))
    requires SyncInv(c) && id in c.nodes && r.0.id == id && Lands(c.book, c.seen, r)
    requires Steady(c.book, Booked(c.book, r.0))
    requires forall t :: t in Booked(c.book, r.0) ==> ReignSync(Booked(c.book, r.0)[t], t)
    ensures SyncInv(Moved(c, id, r))
  {
    var d := Moved(c, id, r);
    forall i | i in d.nodes ensures NodeSync(d.book, d.seen, d.nodes[i]) {
      if i != id { NodeSteady(c.book, d.book, c.seen, d.seen, c.nodes[i]); }
    }
    forall m | m in d.net ensures MsgSync(d.book, d.seen, m) {
      if m in c.net { MsgSteady(c.book, d.book, c.seen, d.seen, m); }
    }
  }

  lemma NextKeepsSync(c: Cluster, e: Event)
    requires SyncEvent(c, e)
    ensures SyncInv(Next(c, e))
  {
    var id := Actor(e);
    HandleLands(c, e);
    HandleElects(c.nodes[id], e);
    HandleLogs(c.nodes[id], e);
    assert NodeSync(c.book, c.seen, c.nodes[id]);
    ActorReady(c, id);
    BookSteady(c, id, Handle(c.nodes[id], e), e);
    MovedKeepsSync(c, id, Handle(c.nodes[id], e));
  }

  ghost predicate AllInv(c: Cluster) {
    ElectionInv(c) && LogInv(c) && DeliveryInv(c) && SyncInv(c)
  }

  lemma {:induction false} EveryPromptRun(ids: set<Id>, batch: nat, es: seq<Event>)
    requires PromptRun(Start(ids, batch), es)
    ensures AllInv(After(Start(ids, batch), es)) && After(Start(ids, batch), es).nodes.Keys == ids
  {
    PromptDoesNotCompact(Start(ids, batch), es);
    EveryRunElects(ids, batch, es);
    EveryRunMatches(ids, batch, es);
    EveryRunDelivers(ids, batch, es);
    if es != [] {
      EveryPromptRun(ids, batch, es[..|es| - 1]);
      NextKeepsSync(After(Start(ids, batch), es[..|es| - 1]), es[|es| - 1]);
    }
  }

  // ---------------------------------------------------------------- commits

  lemma {:induction false} MajorityIndexHas(n: Node, k: nat)
    ensures MajorityIndex(n, k) <= n.base + k
    ensures MajorityIndex(n, k) > 0 ==> |Matching(n, MajorityIndex(n, k))| * 2 > |n.peers|
  {
    if k > 0 { MajorityIndexHas(n, k - 1); }
  }

  lemma {:induction false} MajorityIndexIsHighest(n: Node, k: nat, i: nat)
    requires 0 < i <= k && |Matching(n, n.base + i)| * 2 > |n.peers|
    ensures MajorityIndex(n, k) >= n.base + i
  {
    if i < k { MajorityIndexIsHighest(n, k - 1, i); }
  }

  /** Only an answer that is not a heart beat makes a leader commit more. */
  lemma LeaderCommits(book: map<nat, Reign>, seen: set<Sight>, n: Node, e: Event)
    requires Ready(book, seen, n) && !e.NudgeAt? && !e.CompactAt? && (e.WriteDone? ==> e.write in n.writes)
    requires Handle(n, e).0.role == Leader && Handle(n, e).0.commit != n.commit
    ensures e.Receive? && e.msg.AppendResp? && n.role == Leader && e.msg.term == n.term && e.msg.src in n.progress
    ensures e.msg.success && !e.msg.heartBeat
    ensures var v := n.(progress := n.progress[e.msg.src := Learn(n.progress[e.msg.src], e.msg, n.base)]);
      Handle(n, e).0 == AdvanceCommit(v)
  {
    match e
    case Receive(m) =>
      match m {
        case VoteReq(_, _, _, _, _) =>
        case VoteResp(_, _, _, _) => VoteRespCommit(n, m);
        case AppendReq(_, _, _, _, _, _, _, _) => AppendReqCommit(n, m);
        case AppendResp(_, _, _, _, _, _) =>
      }
    case BeatAt(_) => SendAllKeeps(n);
    case WriteDone(_, w) =>
      assert WriteSync(book, n, w);
      if w.LeaderWrite? { SendAllKeeps(OwnMatch(n, w)); } else { WriteElects(n, w); }
    case _ =>
  }

  lemma VoteRespCommit(n: Node, m: Msg)
    requires m.VoteResp?
    ensures OnVoteResp(n, m).0.commit == n.commit
  {
    var u := UpdateTerm(n, m.term);
    var v := u.(responded := u.responded + {m.src}, granted := if m.granted then u.granted + {m.src} else u.granted);
    SendAllKeeps(Elected(v));
  }

  lemma AppendReqCommit(n: Node, m: Msg)
    requires m.AppendReq? && OnAppendReq(n, m).0.role == Leader
    ensures OnAppendReq(n, m).0.commit == n.commit
  {
    AppendReqRole(n, m);
  }

  /** Whoever is known to match up to an entry of the leader's own term has held the log up to it. */
  lemma MatchingHeld(book: map<nat, Reign>, seen: set<Sight>, n: Node, q: Id, at: nat, idx: nat)
    requires LeaderSync(book, seen, n) && n.role == Leader && n.term in book && book[n.term].log == n.log
    requires ReignSync(book[n.term], n.term) && 0 < idx <= at && idx <= |n.log| && n.log[idx - 1].term == n.term
    requires q in Matching(n, at)
    ensures Held(seen, q, n.term, n.log[..idx])
  {
    assert ProgressSync(book[n.term].start, seen, n, q);
    var matched := n.progress[q].matched;
    var log :| Sight(q, n.term, log) in seen && n.log[..matched] <= log;
    assert n.log[..idx] <= n.log[..matched];
    assert n.log[..idx] <= log;
  }

  /** The entry at the commit index is of the term the node is in. */
  predicate OwnTerm(u: Node) { 0 < u.commit <= |u.log| && u.log[u.commit - 1].term == u.term }

  /** The majority behind a new commit index at an entry of the leader's own term. */
  lemma MatchingMajority(book: map<nat, Reign>, seen: set<Sight>, v: Node) returns (q: set<Id>)
    requires LeaderSync(book, seen, v) && v.role == Leader && v.term in book && book[v.term].log == v.log && v.base == 0
    requires ReignSync(book[v.term], v.term) && v.commit < AdvanceCommit(v).commit && OwnTerm(AdvanceCommit(v))
    ensures Majority(q, v.peers)
    ensures forall id :: id in q ==> Held(seen, id, v.term, v.log[..AdvanceCommit(v).commit])
  {
    var at, idx := MajorityIndex(v, |v.log|), AdvanceCommit(v).commit;
    AdvanceCommitKeeps(v);
    MajorityIndexHas(v, |v.log|);
    q := Matching(v, at);
    forall id | id in q ensures Held(seen, id, v.term, v.log[..idx]) {
      MatchingHeld(book, seen, v, id, at, idx);
    }
  }

  /** Everything the leader had when it was elected is committed with the first entry, and
      whatever is beyond that is of its own term. */
  lemma CommitsFromStart(book: map<nat, Reign>, seen: set<Sight>, v: Node)
    requires LeaderSync(book, seen, v) && v.role == Leader && v.term in book && book[v.term].log == v.log && v.base == 0
    requires ReignSync(book[v.term], v.term) && v.commit < AdvanceCommit(v).commit && v.peers != {}
    ensures var u := AdvanceCommit(v);
      && book[v.term].start <= u.commit <= |u.log|
      && (OwnTerm(u) <==> book[v.term].start < u.commit)
  {
    var start := book[v.term].start;
    MajorityIndexHas(v, |v.log|);
    AdvanceCommitKeeps(v);
    if start > 0 {
      forall q | q in v.progress ensures v.progress[q].matched >= start { assert ProgressSync(start, seen, v, q); }
      assert Matching(v, start) == v.peers;
      MajorityIndexIsHighest(v, |v.log|, start);
    }
  }

  /** The nodes that had held the log when the leader `l` moved its commit index to an
      entry of its own term in this step. */
  lemma CommitHeld(c: Cluster, e: Event, l: Id, u: Node) returns (q: set<Id>)
    requires AllInv(c) && Prompt(c, e) && Actor(e) == l && u == Handle(c.nodes[l], e).0
    requires u.role == Leader && c.nodes[l].commit < u.commit && OwnTerm(u)
    ensures Majority(q, c.nodes.Keys)
    ensures forall id :: id in q ==> Held(c.seen, id, u.term, u.log[..u.commit])
  {
    var n := c.nodes[l];
    ActorReady(c, l);
    LeaderCommits(c.book, c.seen, n, e);
    var v := n.(progress := n.progress[e.msg.src := Learn(n.progress[e.msg.src], e.msg, n.base)]);
    AdvanceCommitKeeps(v);
    assert NodeVotes(c.net, c.nodes.Keys, l, n);
    assert ReignSync(c.book[n.term], n.term);
    LearnedSync(c, e.msg, l);
    q := MatchingMajority(c.book, c.seen, v);
  }

  lemma LearnedSync(c: Cluster, m: Msg, l: Id)
    requires SyncInv(c) && l in c.nodes && m in c.net && m.AppendResp? && m.src in c.nodes[l].progress
    requires Ready(c.book, c.seen, c.nodes[l]) && c.nodes[l].role == Leader && c.nodes[l].term == m.term
    ensures var n := c.nodes[l];
      LeaderSync(c.book, c.seen, n.(progress := n.progress[m.src := Learn(n.progress[m.src], m, n.base)]))
  {
    var n := c.nodes[l];
    var v := n.(progress := n.progress[m.src := Learn(n.progress[m.src], m, n.base)]);
    assert MsgSync(c.book, c.seen, m);
    forall q | q in v.progress ensures ProgressSync(c.book[v.term].start, c.seen, v, q) {
      assert ProgressSync(c.book[n.term].start, c.seen, n, q);
    }
  }

  /** At some point of the run node `id` was in term `t` with a log that starts with `part`. */
  ghost predicate WasHeld(ids: set<Id>, batch: nat, es: seq<Event>, id: Id, t: nat, part: seq<Entry>) {
    exists i :: 0 <= i <= |es| && NodeHad(ids, batch, es[..i], id, t, part)
  }

  ghost predicate NodeHad(ids: set<Id>, batch: nat, es: seq<Event>, id: Id, t: nat, part: seq<Entry>) {
    && Legal(Start(ids, batch), es) && id in After(Start(ids, batch), es).nodes
    && After(Start(ids, batch), es).nodes[id].term == t && part <= After(Start(ids, batch), es).nodes[id].log
  }

  /** What the history says was seen did happen. */
  lemma {:induction false} SeenHappened(ids: set<Id>, batch: nat, es: seq<Event>, s: Sight)
    requires Legal(Start(ids, batch), es) && s in After(Start(ids, batch), es).seen
    ensures WasHeld(ids, batch, es, s.id, s.term, s.log)
  {
    assert es[..|es|] == es;
    if es == [] {
      assert NodeHad(ids, batch, es[..0], s.id, s.term, s.log);
    } else if s in After(Start(ids, batch), es[..|es| - 1]).seen {
      SeenHappened(ids, batch, es[..|es| - 1], s);
      HeldLonger(ids, batch, es, s.id, s.term, s.log);
    } else {
      assert NodeHad(ids, batch, es[..|es|], s.id, s.term, s.log);
    }
  }

  lemma HeldLonger(ids: set<Id>, batch: nat, es: seq<Event>, id: Id, t: nat, part: seq<Entry>)
    requires es != [] && WasHeld(ids, batch, es[..|es| - 1], id, t, part)
    ensures WasHeld(ids, batch, es, id, t, part)
  {
    var front := es[..|es| - 1];
    var i :| 0 <= i <= |front| && NodeHad(ids, batch, front[..i], id, t, part);
    assert front[..i] == es[..i];
  }

  lemma HeldHappened(ids: set<Id>, batch: nat, es: seq<Event>, id: Id, t: nat, part: seq<Entry>)
    requires Legal(Start(ids, batch), es) && Held(After(Start(ids, batch), es).seen, id, t, part)
    ensures WasHeld(ids, batch, es, id, t, part)
  {
    var log :| Sight(id, t, log) in After(Start(ids, batch), es).seen && part <= log;
    SeenHappened(ids, batch, es, Sight(id, t, log));
    var i :| 0 <= i <= |es| && NodeHad(ids, batch, es[..i], id, t, log);
    assert NodeHad(ids, batch, es[..i], id, t, part);
  }

  lemma {:induction false} PromptPrefix(c: Cluster, es: seq<Event>, i: nat)
    requires PromptRun(c, es) && i <= |es|
    ensures PromptRun(c, es[..i]) && After(c, es[..i]).seen <= After(c, es).seen
  {
    if i < |es| {
      PromptPrefix(c, es[..|es| - 1], i);
      assert es[..|es| - 1][..i] == es[..i];
    } else {
      assert es[..i] == es;
    }
  }

  /** What happened is in the history. */
  lemma HappenedSeen(ids: set<Id>, batch: nat, es: seq<Event>, id: Id, t: nat, part: seq<Entry>)
    requires PromptRun(Start(ids, batch), es) && WasHeld(ids, batch, es, id, t, part)
    ensures Held(After(Start(ids, batch), es).seen, id, t, part)
  {
    var i :| 0 <= i <= |es| && NodeHad(ids, batch, es[..i], id, t, part);
    PromptPrefix(Start(ids, batch), es, i);
    EveryPromptRun(ids, batch, es[..i]);
    var c := After(Start(ids, batch), es[..i]);
    ActorReady(c, id);
    assert Sight(id, t, c.nodes[id].log) in After(Start(ids, batch), es).seen;
  }

  lemma HeldUpTo(ids: set<Id>, batch: nat, es: seq<Event>, id: Id, t: nat, log: seq<Entry>, part: seq<Entry>)
    requires WasHeld(ids, batch, es, id, t, log) && part <= log
    ensures WasHeld(ids, batch, es, id, t, part)
  {
    var i :| 0 <= i <= |es| && NodeHad(ids, batch, es[..i], id, t, log);
    assert NodeHad(ids, batch, es[..i], id, t, part);
  }

  lemma AllHeld(ids: set<Id>, batch: nat, es: seq<Event>, q: set<Id>, t: nat, log: seq<Entry>)
    requires Legal(Start(ids, batch), es)
    requires forall id :: id in q ==> Held(After(Start(ids, batch), es).seen, id, t, log)
    ensures forall id :: id in q ==> WasHeld(ids, batch, es, id, t, log)
  {
    forall id | id in q ensures WasHeld(ids, batch, es, id, t, log) { HeldHappened(ids, batch, es, id, t, log); }
  }

  lemma OnlyActorMoves(c: Cluster, e: Event, l: Id)
    requires Enabled(c, e) && l in c.nodes && Next(c, e).nodes[l] != c.nodes[l]
    ensures Actor(e) == l && Next(c, e).nodes[l] == Handle(c.nodes[l], e).0 && c.seen <= Next(c, e).seen
  {}

  lemma MoreSeen(seen: set<Sight>, more: set<Sight>, q: set<Id>, t: nat, part: seq<Entry>)
    requires seen <= more && forall id :: id in q ==> Held(seen, id, t, part)
    ensures forall id :: id in q ==> Held(more, id, t, part)
  {}

  lemma LastHeld(ids: set<Id>, batch: nat, es: seq<Event>, c: Cluster, e: Event, l: Id, u: Node) returns (q: set<Id>)
    requires PromptRun(Start(ids, batch), es) && c == After(Start(ids, batch), es) && Prompt(c, e) && Actor(e) == l
    requires u == Handle(c.nodes[l], e).0
    requires u.role == Leader && c.nodes[l].commit < u.commit && OwnTerm(u)
    ensures Majority(q, ids)
    ensures forall id :: id in q ==> Held(c.seen, id, u.term, u.log[..u.commit])
  {
    EveryPromptRun(ids, batch, es);
    q := CommitHeld(c, e, l, u);
  }

  lemma RunCommitHeld(ids: set<Id>, batch: nat, es: seq<Event>, l: Id) returns (q: set<Id>)
    requires PromptRun(Start(ids, batch), es) && es != [] && l in ids
    requires l in After(Start(ids, batch), es).nodes && l in After(Start(ids, batch), es[..|es| - 1]).nodes
    requires var u := After(Start(ids, batch), es).nodes[l];
      && u.role == Leader && After(Start(ids, batch), es[..|es| - 1]).nodes[l].commit < u.commit && OwnTerm(u)
    ensures Majority(q, ids)
    ensures var d := After(Start(ids, batch), es); var u := d.nodes[l];
      forall id :: id in q ==> Held(d.seen, id, u.term, u.log[..u.commit])
  {
    var c, e, d := After(Start(ids, batch), es[..|es| - 1]), es[|es| - 1], After(Start(ids, batch), es);
    OnlyActorMoves(c, e, l);
    q := LastHeld(ids, batch, es[..|es| - 1], c, e, l, d.nodes[l]);
    MoreSeen(c.seen, d.seen, q, d.nodes[l].term, d.nodes[l].log[..d.nodes[l].commit]);
  }

  lemma StepFromStart(c: Cluster, e: Event, l: Id, u: Node)
    requires AllInv(c) && Prompt(c, e) && Actor(e) == l && u == Handle(c.nodes[l], e).0
    requires u.role == Leader && c.nodes[l].commit < u.commit
    ensures u.term in c.book && c.book[u.term].start <= u.commit <= |u.log|
    ensures OwnTerm(u) <==> c.book[u.term].start < u.commit
  {
    var n := c.nodes[l];
    ActorReady(c, l);
    LeaderCommits(c.book, c.seen, n, e);
    var v := n.(progress := n.progress[e.msg.src := Learn(n.progress[e.msg.src], e.msg, n.base)]);
    AdvanceCommitKeeps(v);
    assert NodeVotes(c.net, c.nodes.Keys, l, n);
    assert ReignSync(c.book[n.term], n.term);
    LearnedSync(c, e.msg, l);
    CommitsFromStart(c.book, c.seen, v);
  }

  lemma LastFromStart(ids: set<Id>, batch: nat, es: seq<Event>, c: Cluster, e: Event, l: Id, u: Node)
    requires PromptRun(Start(ids, batch), es) && c == After(Start(ids, batch), es) && Prompt(c, e) && Actor(e) == l
    requires u == Handle(c.nodes[l], e).0 && u.role == Leader && c.nodes[l].commit < u.commit
    ensures u.term in c.book && c.book[u.term].start <= u.commit <= |u.log|
    ensures OwnTerm(u) <==> c.book[u.term].start < u.commit
  {
    EveryPromptRun(ids, batch, es);
    StepFromStart(c, e, l, u);
  }

  lemma BookedStays(c: Cluster, e: Event, t: nat)
    requires Enabled(c, e) && t in c.book
    ensures t in Next(c, e).book && Next(c, e).book[t].start == c.book[t].start
  {}

  /** Whenever a leader raises its commit index, it raises it at least to where its log ended
      when it was elected, whoever holds that; the entry it stops at is of its own term
      exactly when it gets beyond. */
  lemma CommitReachesStart(ids: set<Id>, batch: nat, es: seq<Event>, l: Id)
    requires PromptRun(Start(ids, batch), es) && es != [] && l in ids
    requires l in After(Start(ids, batch), es).nodes && l in After(Start(ids, batch), es[..|es| - 1]).nodes
    requires var u := After(Start(ids, batch), es).nodes[l];
      u.role == Leader && After(Start(ids, batch), es[..|es| - 1]).nodes[l].commit < u.commit
    ensures var d := After(Start(ids, batch), es); var u := d.nodes[l];
      && u.term in d.book && d.book[u.term].start <= u.commit <= |u.log|
      && (OwnTerm(u) <==> d.book[u.term].start < u.commit)
  {
    var c, e, d := After(Start(ids, batch), es[..|es| - 1]), es[|es| - 1], After(Start(ids, batch), es);
    OnlyActorMoves(c, e, l);
    LastFromStart(ids, batch, es[..|es| - 1], c, e, l, d.nodes[l]);
    BookedStays(c, e, d.nodes[l].term);
  }

  /** The last step of a prompt run raises the commit index of the leader `l` to an entry of
      the term it leads: a majority `q` has, each at some point of the run and in that term,
      had a log that starts with the leader's log up to any committed entry, old or new. */
  lemma MajorityCommit(ids: set<Id>, batch: nat, es: seq<Event>, l: Id) returns (q: set<Id>)
    requires PromptRun(Start(ids, batch), es) && es != [] && l in ids
    requires l in After(Start(ids, batch), es).nodes && l in After(Start(ids, batch), es[..|es| - 1]).nodes
    requires var u := After(Start(ids, batch), es).nodes[l];
      && u.role == Leader && After(Start(ids, batch), es[..|es| - 1]).nodes[l].commit < u.commit && OwnTerm(u)
    ensures Majority(q, ids)
    ensures var u := After(Start(ids, batch), es).nodes[l];
      forall id, idx :: id in q && 0 <= idx <= u.commit ==> WasHeld(ids, batch, es, id, u.term, u.log[..idx])
  {
    var u := After(Start(ids, batch), es).nodes[l];
    q := RunCommitHeld(ids, batch, es, l);
    AllHeld(ids, batch, es, q, u.term, u.log[..u.commit]);
    forall id, idx | id in q && 0 <= idx <= u.commit ensures WasHeld(ids, batch, es, id, u.term, u.log[..idx]) {
      assert u.log[..idx] <= u.log[..u.commit];
      HeldUpTo(ids, batch, es, id, u.term, u.log[..u.commit], u.log[..idx]);
    }
  }
}
