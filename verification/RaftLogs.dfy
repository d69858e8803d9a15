/** Log Matching in every run without compaction: two logs, at any two points of the
    run, and slices under way that hold an entry of the same index and term agree on
    everything up to it.  The proof keeps, for each term, the log of its leader. */
module RaftLogs {
  import opened RaftNodes
  import opened RaftCluster

  // ---------------------------------------------------------------- logs against the leaders' logs

  /** The log up to position `k` is what the leader of the term of entry `k` had. */
  ghost predicate At(book: map<nat, Reign>, log: seq<Entry>, k: nat)
    requires k < |log|
  {
    var t := log[k].term;
    t in book && k < |book[t].log| && log[..k + 1] == book[t].log[..k + 1]
  }

  ghost predicate InBook(book: map<nat, Reign>, log: seq<Entry>) {
    forall k :: 0 <= k < |log| ==> At(book, log, k)
  }

  ghost predicate BookOk(book: map<nat, Reign>) {
    forall t :: t in book ==> InBook(book, book[t].log)
  }

  ghost predicate Grows(book: map<nat, Reign>, later: map<nat, Reign>) {
    forall t :: t in book ==> t in later && book[t].log <= later[t].log
  }

  /** The slice is part of a log, and the term sent along is that of the entry before it. */
  ghost predicate SliceOf(m: Msg, log: seq<Entry>)
    requires m.AppendReq?
  {
    m.entries != [] ==>
      && m.prev + |m.entries| <= |log| && m.entries == log[m.prev..m.prev + |m.entries|]
      && (m.prev > 0 ==> m.prevTerm == log[m.prev - 1].term)
  }

  ghost predicate SliceAt(book: map<nat, Reign>, m: Msg, k: nat)
    requires m.AppendReq? && k < |m.entries|
  {
    var t := m.entries[k].term;
    && t in book && m.prev + k < |book[t].log| && m.entries[..k + 1] == book[t].log[m.prev..m.prev + k + 1]
    && (m.prev > 0 ==> m.prevTerm == book[t].log[m.prev - 1].term)
  }

  ghost predicate SliceInBook(book: map<nat, Reign>, m: Msg) {
    m.AppendReq? ==> forall k :: 0 <= k < |m.entries| ==> SliceAt(book, m, k)
  }

  lemma AtGrows(book: map<nat, Reign>, later: map<nat, Reign>, log: seq<Entry>)
    requires Grows(book, later) && InBook(book, log)
    ensures InBook(later, log)
  {
    forall k | 0 <= k < |log| ensures At(later, log, k) {
      assert At(book, log, k);
      var t := log[k].term;
      assert later[t].log[..k + 1] == book[t].log[..k + 1];
    }
  }

  lemma SliceGrows(book: map<nat, Reign>, later: map<nat, Reign>, m: Msg)
    requires Grows(book, later) && SliceInBook(book, m)
    ensures SliceInBook(later, m)
  {
    if m.AppendReq? {
      forall k | 0 <= k < |m.entries| ensures SliceAt(later, m, k) {
        assert SliceAt(book, m, k);
        var t := m.entries[k].term;
        assert later[t].log[m.prev..m.prev + k + 1] == book[t].log[m.prev..m.prev + k + 1];
      }
    }
  }

  lemma PrefixInBook(book: map<nat, Reign>, log: seq<Entry>, n: nat)
    requires InBook(book, log) && n <= |log|
    ensures InBook(book, log[..n])
  {
    forall k | 0 <= k < n ensures At(book, log[..n], k) {
      assert At(book, log, k);
      assert log[..n][..k + 1] == log[..k + 1];
    }
  }

  lemma SliceFromLog(book: map<nat, Reign>, log: seq<Entry>, m: Msg)
    requires InBook(book, log) && m.AppendReq? && SliceOf(m, log)
    ensures SliceInBook(book, m)
  {
    forall k | 0 <= k < |m.entries| ensures SliceAt(book, m, k) {
      assert At(book, log, m.prev + k);
      var b := book[m.entries[k].term].log;
      assert m.entries[..k + 1] == log[..m.prev + k + 1][m.prev..] == b[m.prev..m.prev + k + 1];
      if m.prev > 0 { assert log[..m.prev + k + 1][m.prev - 1] == b[..m.prev + k + 1][m.prev - 1]; }
    }
  }

  /** Two entries of the same index and term have the same past. */
  lemma SamePast(book: map<nat, Reign>, a: seq<Entry>, b: seq<Entry>, k: nat)
    requires InBook(book, a) && InBook(book, b) && k < |a| && k < |b| && a[k].term == b[k].term
    ensures a[..k + 1] == b[..k + 1]
  {
    assert At(book, a, k) && At(book, b, k);
  }

  // ---------------------------------------------------------------- storing a slice

  /** The previous entry of the slice is in the log. */
  ghost predicate Fits(log: seq<Entry>, m: Msg)
    requires m.AppendReq?
  {
    m.prev <= |log| && (m.prev > 0 ==> log[m.prev - 1].term == m.prevTerm)
  }

  function Stored(log: seq<Entry>, m: Msg): seq<Entry>
    requires m.AppendReq? && m.prev <= |log|
  {
    if Agree(log, m.prev, m.entries, 0) then Longer(log, m.prev, m.entries, 0) else log[..m.prev]
  }

  lemma SliceExtends(book: map<nat, Reign>, log: seq<Entry>, m: Msg, j: nat)
    requires BookOk(book) && InBook(book, log) && m.AppendReq? && SliceInBook(book, m) && Fits(log, m)
    requires j < |m.entries|
    ensures SliceAt(book, m, j)
    ensures log[..m.prev] + m.entries[..j + 1] == book[m.entries[j].term].log[..m.prev + j + 1]
  {
    assert SliceAt(book, m, j);
    var b := book[m.entries[j].term].log;
    if m.prev > 0 {
      SamePast(book, log, b, m.prev - 1);
    }
    assert b[..m.prev + j + 1] == b[..m.prev] + b[m.prev..m.prev + j + 1];
  }

  /** Where both have entries, entries that agree in term with the slice are the slice's entries. */
  lemma OverlapAt(book: map<nat, Reign>, log: seq<Entry>, m: Msg, n: nat)
    requires BookOk(book) && InBook(book, log) && m.AppendReq? && SliceInBook(book, m) && Fits(log, m)
    requires Agree(log, m.prev, m.entries, 0) && n <= |m.entries| && m.prev + n <= |log|
    ensures log[..m.prev + n] == log[..m.prev] + m.entries[..n]
  {
    if n > 0 {
      SliceExtends(book, log, m, n - 1);
      assert log[m.prev + n - 1].term == m.entries[0 + (m.prev + n - 1 - m.prev)].term;
      assert At(book, log, m.prev + n - 1);
    }
  }

  lemma OverlapIsSlice(book: map<nat, Reign>, log: seq<Entry>, m: Msg)
    requires BookOk(book) && InBook(book, log) && m.AppendReq? && SliceInBook(book, m) && Fits(log, m)
    requires Agree(log, m.prev, m.entries, 0)
    ensures |log| - m.prev <= |m.entries| ==> log == log[..m.prev] + m.entries[..|log| - m.prev]
    ensures |log| - m.prev > |m.entries| ==> log[..m.prev + |m.entries|] == log[..m.prev] + m.entries
  {
    if |log| - m.prev <= |m.entries| {
      OverlapAt(book, log, m, |log| - m.prev);
      assert log[..|log|] == log;
    } else {
      OverlapAt(book, log, m, |m.entries|);
      assert m.entries[..|m.entries|] == m.entries;
    }
  }

  lemma StoredInBook(book: map<nat, Reign>, log: seq<Entry>, m: Msg)
    requires BookOk(book) && InBook(book, log) && m.AppendReq? && SliceInBook(book, m) && Fits(log, m)
    ensures InBook(book, Stored(log, m))
  {
    var later := Stored(log, m);
    if !Agree(log, m.prev, m.entries, 0) {
      PrefixInBook(book, log, m.prev);
    } else if |log| - m.prev < |m.entries| {
      OverlapIsSlice(book, log, m);
      assert later == log[..m.prev] + m.entries;
      forall k | 0 <= k < |later| ensures At(book, later, k) {
        if k < m.prev {
          assert At(book, log, k);
          assert later[..k + 1] == log[..k + 1];
        } else {
          SliceExtends(book, log, m, k - m.prev);
          assert later[..k + 1] == log[..m.prev] + m.entries[..k - m.prev + 1];
        }
      }
    }
  }

  // ---------------------------------------------------------------- what a handler does to the log

  /** Nothing has been compacted, and nothing under way asks for it. */
  ghost predicate Plain(n: Node) {
    n.base == 0 && forall w :: w in n.writes && w.FollowerWrite? ==> w.consistency == 0
  }

  predicate PlainMsg(m: Msg) { m.AppendReq? ==> m.consistency == 0 }

  ghost predicate PlainEvent(n: Node, e: Event) {
    && !e.CompactAt?
    && (e.Receive? ==> PlainMsg(e.msg))
    && (e.WriteDone? ==> e.write in n.writes)
  }

  ghost predicate Sends(u: Node, out: set<Msg>) {
    forall m :: m in out && m.AppendReq? ==> PlainMsg(m) && SliceOf(m, u.log)
  }

  /** How a step may change the log: a leader appends, a follower stores a slice. */
  ghost predicate Logs(n: Node, u: Node, e: Event) {
    || u.log == n.log
    || (n.role == Leader && u.role == Leader && u.term == n.term
        && |u.log| == |n.log| + 1 && n.log <= u.log && u.log[|n.log|].term == n.term)
    || (u.role != Leader && e.Receive? && e.msg.AppendReq? && Fits(n.log, e.msg) && u.log == Stored(n.log, e.msg)
        && n.role == Follower && u.term == n.term == e.msg.term)
  }

  ghost predicate LogStep(n: Node, u: Node, out: set<Msg>, e: Event) {
    Plain(u) && Sends(u, out) && Logs(n, u, e)
  }

  lemma PlainConsistency(n: Node)
    requires n.base == 0
    ensures UpdateConsistency(n, 0) == n
  {}

  lemma AppendToIsSlice(n: Node, to: Id, p: Progress)
    requires n.base == 0
    ensures PlainMsg(AppendTo(n, to, p)) && SliceOf(AppendTo(n, to, p), n.log)
  {
    var m := AppendTo(n, to, p);
    if m.entries != [] {
      assert m.entries == n.log[m.prev..m.prev + |m.entries|];
    }
  }

  lemma SendAllSlices(n: Node)
    requires n.base == 0
    ensures Sends(SendAll(n).0, SendAll(n).1)
  {
    forall m | m in SendAll(n).1 ensures PlainMsg(m) && (m.AppendReq? ==> SliceOf(m, n.log)) {
      var id :| id in n.progress && id != n.id && m == AppendTo(n, id, n.progress[id]);
      AppendToIsSlice(n, id, n.progress[id]);
    }
  }

  lemma StoreLogs(n: Node, m: Msg)
    requires Plain(n) && m.AppendReq? && PlainMsg(m) && LogOk(n, m.prev, m.prevTerm)
    ensures Fits(n.log, m) && Store(n, m).0.log == Stored(n.log, m)
    ensures Plain(Store(n, m).0) && forall w :: w in Store(n, m).1 ==> w.AppendResp?
  {
    CommitKeeps(n, m.commit);
    PlainConsistency(UpdateCommit(n, m.commit));
  }

  lemma AppendReqLogs(n: Node, m: Msg)
    requires Plain(n) && m.AppendReq? && PlainMsg(m)
    ensures LogStep(n, OnAppendReq(n, m).0, OnAppendReq(n, m).1, Receive(m))
  {
    var u := n.(leader := m.src);
    if m.term == n.term && n.role == Follower && LogOk(u, m.prev, m.prevTerm) {
      if m.entries == [] {
        CommitKeeps(u, m.commit);
        PlainConsistency(UpdateCommit(u, m.commit));
      } else {
        StoreLogs(u, m);
        StoreKeepsBallot(u, m);
        assert OnAppendReq(n, m) == Store(u, m);
      }
    }
  }

  lemma VoteRespLogs(n: Node, m: Msg)
    requires Plain(n) && m.VoteResp?
    ensures LogStep(n, OnVoteResp(n, m).0, OnVoteResp(n, m).1, Receive(m))
  {
    var u := UpdateTerm(n, m.term);
    var v := u.(responded := u.responded + {m.src}, granted := if m.granted then u.granted + {m.src} else u.granted);
    SendAllSlices(Elected(v));
    SendAllKeeps(Elected(v));
  }

  lemma AppendRespLogs(n: Node, m: Msg)
    requires Plain(n) && m.AppendResp?
    ensures LogStep(n, OnAppendResp(n, m), {}, Receive(m))
  {
    var u := UpdateTerm(n, m.term);
    if m.src in u.progress && m.term == u.term {
      AdvanceCommitKeeps(u.(progress := u.progress[m.src := Learn(u.progress[m.src], m, u.base)]));
    }
    assert OnAppendResp(n, m).log == n.log && OnAppendResp(n, m).writes == n.writes
      && OnAppendResp(n, m).base == n.base;
  }

  lemma WriteLogs(n: Node, w: Write)
    requires Plain(n) && w in n.writes
    ensures LogStep(n, OnWrite(n, w).0, OnWrite(n, w).1, WriteDone(n.id, w))
  {
    var u := n.(writes := n.writes - multiset{w});
    match w
    case VoteWrite =>
    case LeaderWrite(_) =>
      SendAllSlices(OwnMatch(n, w));
      SendAllKeeps(OwnMatch(n, w));
    case FollowerWrite(_, _, commit, _) =>
      CommitKeeps(u, commit);
      PlainConsistency(UpdateCommit(u, commit));
  }

  lemma VoteReqLogs(n: Node, m: Msg)
    requires Plain(n) && m.VoteReq?
    ensures LogStep(n, OnVoteReq(n, m).0, OnVoteReq(n, m).1, Receive(m))
  {}

  lemma NudgeLogs(n: Node, to: Id)
    requires Plain(n)
    ensures LogStep(n, Nudge(n, to).0, Nudge(n, to).1, NudgeAt(n.id, to))
  {
    if to in n.progress { AppendToIsSlice(n, to, n.progress[to]); }
  }

  lemma LocalLogs(n: Node, e: Event)
    requires Plain(n) && (e.BeatAt? || e.SubmitAt? || e.TimeoutAt?)
    ensures LogStep(n, Handle(n, e).0, Handle(n, e).1, e)
  {
    if e.BeatAt? {
      SendAllSlices(n);
      SendAllKeeps(n);
    }
  }

  lemma HandleLogs(n: Node, e: Event)
    requires Plain(n) && PlainEvent(n, e)
    ensures LogStep(n, Handle(n, e).0, Handle(n, e).1, e)
  {
    match e
    case Receive(m) =>
      match m {
        case VoteReq(_, _, _, _, _) => VoteReqLogs(n, m);
        case VoteResp(_, _, _, _) => VoteRespLogs(n, m);
        case AppendReq(_, _, _, _, _, _, _, _) => AppendReqLogs(n, m);
        case AppendResp(_, _, _, _, _, _) => AppendRespLogs(n, m);
      }
    case WriteDone(_, w) => WriteLogs(n, w); assert Handle(n, e) == OnWrite(n, w);
    case NudgeAt(_, to) => NudgeLogs(n, to); assert Handle(n, e) == Nudge(n, to);
    case _ => LocalLogs(n, e);
  }

  // ---------------------------------------------------------------- the invariant

  /** Who led a term had a majority of its votes, and still has its log while it leads. */
  ghost predicate ReignOk(c: Cluster, t: nat)
    requires t in c.book
  {
    var r := c.book[t];
    && r.lead in c.nodes && Majority(r.votes, c.nodes.Keys) && VotedFor(c.net, r.votes, r.lead, t)
    && t <= c.nodes[r.lead].term
    && (t == c.nodes[r.lead].term ==> c.nodes[r.lead].role != Candidate)
    && (t == c.nodes[r.lead].term && c.nodes[r.lead].role == Leader ==> c.nodes[r.lead].log == r.log)
  }

  ghost predicate Reigns(c: Cluster) {
    && (forall t :: t in c.book ==> ReignOk(c, t))
    && (forall id :: id in c.nodes && c.nodes[id].role == Leader ==>
          c.nodes[id].term in c.book && c.book[c.nodes[id].term].lead == id)
  }

  ghost predicate LogInv(c: Cluster) {
    && BookOk(c.book) && Reigns(c)
    && (forall id :: id in c.nodes ==> Plain(c.nodes[id]))
    && (forall id :: id in c.nodes ==> InBook(c.book, c.nodes[id].log))
    && (forall m :: m in c.net ==> PlainMsg(m))
    && (forall m :: m in c.net ==> SliceInBook(c.book, m))
  }

  /** A candidate that wins its term is the first to lead it. */
  lemma NewReign(c: Cluster, id: Id, r: (Node, set<Msg>), e: Event)
    requires ElectionInv(c) && Reigns(c) && id in c.nodes && ElectionStep(c.nodes[id], r.0, r.1, e)
    requires e.Receive? ==> e.msg in c.net && e.msg.dest == id
    requires r.0.role == Leader && c.nodes[id].role != Leader
    ensures r.0.term !in c.book
  {
    VotersGrow(c, id, r, e);
    if r.0.term in c.book { SameLead(c, id, r.0.granted, r.0.term); }
  }

  /** Whoever has a majority of the votes of a term is who led it. */
  lemma SameLead(c: Cluster, id: Id, votes: set<Id>, t: nat)
    requires ElectionInv(c) && t in c.book && ReignOk(c, t) && Majority(votes, c.nodes.Keys)
    requires VotedFor(c.net, votes, id, t)
    ensures c.book[t].lead == id
  {
    var g := MajoritiesMeet(votes, c.book[t].votes, c.nodes.Keys);
    assert VoteResp(g, id, t, true) in c.net && VoteResp(g, c.book[t].lead, t, true) in c.net;
  }

  lemma BookGrows(c: Cluster, id: Id, r: (Node, set<Msg>), e: Event)
    requires ElectionInv(c) && Reigns(c) && id in c.nodes && ElectionStep(c.nodes[id], r.0, r.1, e)
    requires e.Receive? ==> e.msg in c.net && e.msg.dest == id
    requires Logs(c.nodes[id], r.0, e)
    ensures Grows(c.book, Booked(c.book, r.0))
    ensures r.0.role == Leader ==> r.0.term in Booked(c.book, r.0) && Booked(c.book, r.0)[r.0.term].log == r.0.log
  {
    if r.0.role == Leader {
      if c.nodes[id].role == Leader {
        assert ReignOk(c, r.0.term);
      } else {
        NewReign(c, id, r, e);
      }
    }
  }

  lemma NodeStaysInBook(c: Cluster, id: Id, r: (Node, set<Msg>), e: Event)
    requires LogInv(c) && id in c.nodes && Logs(c.nodes[id], r.0, e)
    requires e.Receive? ==> e.msg in c.net
    requires Grows(c.book, Booked(c.book, r.0))
    requires r.0.role == Leader ==> r.0.term in Booked(c.book, r.0) && Booked(c.book, r.0)[r.0.term].log == r.0.log
    ensures InBook(Booked(c.book, r.0), r.0.log)
  {
    var n, u, later := c.nodes[id], r.0, Booked(c.book, r.0);
    AtGrows(c.book, later, n.log);
    if u.log == n.log {
    } else if u.role == Leader {
      LeaderInBook(later, n.log, u.log);
    } else {
      StoredInBook(c.book, n.log, e.msg);
    }
  }

  lemma LeaderReigns(c: Cluster, id: Id, r: (Node, set<Msg>), e: Event)
    requires ElectionInv(c) && Reigns(c) && id in c.nodes && ElectionStep(c.nodes[id], r.0, r.1, e)
    requires r.0.role == Leader
    requires e.Receive? ==> e.msg in c.net && e.msg.dest == id
    ensures r.0.id == id && r.0.term in Booked(c.book, r.0)
    ensures var s := Booked(c.book, r.0)[r.0.term];
      s.lead == id && Majority(s.votes, c.nodes.Keys) && VotedFor(c.net, s.votes, id, r.0.term) && s.log == r.0.log
  {
    VotersGrow(c, id, r, e);
    assert NodeVotes(c.net, c.nodes.Keys, id, c.nodes[id]);
    if c.nodes[id].role == Leader { assert ReignOk(c, r.0.term); } else { NewReign(c, id, r, e); }
  }

  /** What the book says of a node that leads. */
  ghost predicate InOffice(c: Cluster, id: Id, u: Node) {
    && u.term in Booked(c.book, u)
    && var s := Booked(c.book, u)[u.term];
      s.lead == id && Majority(s.votes, c.nodes.Keys) && VotedFor(c.net, s.votes, id, u.term) && s.log == u.log
  }

  lemma ReignStays(c: Cluster, id: Id, r: (Node, set<Msg>), t: nat)
    requires id in c.nodes && t in Booked(c.book, r.0) && (t in c.book ==> ReignOk(c, t))
    requires c.nodes[id].term <= r.0.term
    requires (r.0.role == Candidate && r.0.term == c.nodes[id].term ==> c.nodes[id].role == Candidate)
    requires r.0.role == Leader ==> InOffice(c, id, r.0)
    ensures ReignOk(Moved(c, id, r), t)
  {
    var d := Moved(c, id, r);
    assert d.nodes.Keys == c.nodes.Keys;
    if t in c.book && !(r.0.role == Leader && r.0.term == t) { assert d.book[t] == c.book[t]; }
  }

  lemma MovedReigns(c: Cluster, id: Id, r: (Node, set<Msg>), e: Event)
    requires ElectionInv(c) && Reigns(c) && id in c.nodes && ElectionStep(c.nodes[id], r.0, r.1, e)
    requires e.Receive? ==> e.msg in c.net && e.msg.dest == id
    ensures Reigns(Moved(c, id, r))
  {
    var d := Moved(c, id, r);
    if r.0.role == Leader { LeaderReigns(c, id, r, e); }
    LeadersStay(c, id, r);
    forall t | t in d.book ensures ReignOk(d, t) { ReignStays(c, id, r, t); }
  }

  lemma LeadersStay(c: Cluster, id: Id, r: (Node, set<Msg>))
    requires Reigns(c) && id in c.nodes && (r.0.role == Leader ==> InOffice(c, id, r.0))
    ensures var d := Moved(c, id, r);
      forall i :: i in d.nodes && d.nodes[i].role == Leader ==>
        d.nodes[i].term in d.book && d.book[d.nodes[i].term].lead == i
  {}

  lemma LeaderInBook(book: map<nat, Reign>, log: seq<Entry>, longer: seq<Entry>)
    requires InBook(book, log) && |longer| == |log| + 1 && log <= longer
    requires longer[|log|].term in book && book[longer[|log|].term].log == longer
    ensures InBook(book, longer)
  {
    forall k | 0 <= k < |longer| ensures At(book, longer, k) {
      if k < |log| {
        assert At(book, log, k);
        assert longer[..k + 1] == log[..k + 1];
      }
    }
  }

  lemma NodesStayInBook(c: Cluster, id: Id, r: (Node, set<Msg>), e: Event)
    requires LogInv(c) && id in c.nodes && Logs(c.nodes[id], r.0, e)
    requires e.Receive? ==> e.msg in c.net
    requires Grows(c.book, Booked(c.book, r.0))
    requires r.0.role == Leader ==> r.0.term in Booked(c.book, r.0) && Booked(c.book, r.0)[r.0.term].log == r.0.log
    ensures forall i :: i in Moved(c, id, r).nodes ==> InBook(Moved(c, id, r).book, Moved(c, id, r).nodes[i].log)
    ensures BookOk(Moved(c, id, r).book)
  {
    var d := Moved(c, id, r);
    NodeStaysInBook(c, id, r, e);
    forall i | i in d.nodes ensures InBook(d.book, d.nodes[i].log) {
      if i != id { AtGrows(c.book, d.book, c.nodes[i].log); }
    }
    forall t | t in d.book ensures InBook(d.book, d.book[t].log) {
      if t in c.book { AtGrows(c.book, d.book, c.book[t].log); }
    }
  }

  lemma SlicesStayInBook(c: Cluster, id: Id, r: (Node, set<Msg>))
    requires (forall m :: m in c.net ==> SliceInBook(c.book, m)) && Sends(r.0, r.1)
    requires Grows(c.book, Booked(c.book, r.0)) && InBook(Booked(c.book, r.0), r.0.log)
    ensures forall m :: m in Moved(c, id, r).net ==> SliceInBook(Moved(c, id, r).book, m)
  {
    var d := Moved(c, id, r);
    forall m | m in d.net ensures SliceInBook(d.book, m) {
      if m in c.net { SliceGrows(c.book, d.book, m); } else if m.AppendReq? { SliceFromLog(d.book, r.0.log, m); }
    }
  }

  lemma MovedKeepsLogs(c: Cluster, id: Id, r: (Node, set<Msg>), e: Event)
    requires ElectionInv(c) && LogInv(c) && id in c.nodes
    requires ElectionStep(c.nodes[id], r.0, r.1, e) && LogStep(c.nodes[id], r.0, r.1, e)
    requires e.Receive? ==> e.msg in c.net && e.msg.dest == id
    ensures LogInv(Moved(c, id, r)) && Grows(c.book, Moved(c, id, r).book)
  {
    BookGrows(c, id, r, e);
    NodeStaysInBook(c, id, r, e);
    NodesStayInBook(c, id, r, e);
    SlicesStayInBook(c, id, r);
    MovedReigns(c, id, r, e);
    StaysPlain(c, id, r);
  }

  lemma StaysPlain(c: Cluster, id: Id, r: (Node, set<Msg>))
    requires (forall i :: i in c.nodes ==> Plain(c.nodes[i])) && (forall m :: m in c.net ==> PlainMsg(m)) && Plain(r.0)
    requires Sends(r.0, r.1)
    ensures forall i :: i in Moved(c, id, r).nodes ==> Plain(Moved(c, id, r).nodes[i])
    ensures forall m :: m in Moved(c, id, r).net ==> PlainMsg(m)
  {}

  lemma NextKeepsLogs(c: Cluster, e: Event)
    requires ElectionInv(c) && LogInv(c) && Enabled(c, e) && !e.CompactAt?
    ensures LogInv(Next(c, e)) && Grows(c.book, Next(c, e).book)
  {
    HandleElects(c.nodes[Actor(e)], e);
    HandleLogs(c.nodes[Actor(e)], e);
    MovedKeepsLogs(c, Actor(e), Handle(c.nodes[Actor(e)], e), e);
  }

  // ---------------------------------------------------------------- whole runs

  ghost predicate NoCompaction(es: seq<Event>) {
    forall i :: 0 <= i < |es| ==> !es[i].CompactAt?
  }

  lemma {:induction false} EveryRunMatches(ids: set<Id>, batch: nat, es: seq<Event>)
    requires Legal(Start(ids, batch), es) && NoCompaction(es)
    ensures LogInv(After(Start(ids, batch), es)) && After(Start(ids, batch), es).nodes.Keys == ids
  {
    EveryRunElects(ids, batch, es);
    if es != [] {
      EveryRunMatches(ids, batch, es[..|es| - 1]);
      EveryRunElects(ids, batch, es[..|es| - 1]);
      NextKeepsLogs(After(Start(ids, batch), es[..|es| - 1]), es[|es| - 1]);
    }
  }

  lemma {:induction false} BooksGrow(ids: set<Id>, batch: nat, es: seq<Event>, i: nat)
    requires Legal(Start(ids, batch), es) && NoCompaction(es) && i <= |es|
    ensures Legal(Start(ids, batch), es[..i])
    ensures Grows(After(Start(ids, batch), es[..i]).book, After(Start(ids, batch), es).book)
  {
    PrefixLegal(Start(ids, batch), es, i);
    if i < |es| {
      var front := es[..|es| - 1];
      BooksGrow(ids, batch, front, i);
      assert front[..i] == es[..i];
      EveryRunMatches(ids, batch, front);
      EveryRunElects(ids, batch, front);
      NextKeepsLogs(After(Start(ids, batch), front), es[|es| - 1]);
      GrowsOn(After(Start(ids, batch), es[..i]).book, After(Start(ids, batch), front).book,
          After(Start(ids, batch), es).book);
    } else {
      assert es[..i] == es;
    }
  }

  lemma GrowsOn(a: map<nat, Reign>, b: map<nat, Reign>, c: map<nat, Reign>)
    requires Grows(a, b) && Grows(b, c)
    ensures Grows(a, c)
  {}

  /** Log Matching (section 5.3 of the Raft paper), for two logs at any two points of a run. */
  lemma LogMatching(ids: set<Id>, batch: nat, es: seq<Event>, i: nat, a: Id, b: Id, k: nat)
    requires Legal(Start(ids, batch), es) && NoCompaction(es) && i <= |es| && a in ids && b in ids
    ensures Legal(Start(ids, batch), es[..i])
    ensures var c, d := After(Start(ids, batch), es[..i]), After(Start(ids, batch), es);
      && a in c.nodes && b in d.nodes
      && (k < |c.nodes[a].log| && k < |d.nodes[b].log| && c.nodes[a].log[k].term == d.nodes[b].log[k].term ==>
            c.nodes[a].log[..k + 1] == d.nodes[b].log[..k + 1])
  {
    BooksGrow(ids, batch, es, i);
    EveryRunMatches(ids, batch, es);
    EveryRunMatches(ids, batch, es[..i]);
    var c, d := After(Start(ids, batch), es[..i]), After(Start(ids, batch), es);
    AtGrows(c.book, d.book, c.nodes[a].log);
    if k < |c.nodes[a].log| && k < |d.nodes[b].log| && c.nodes[a].log[k].term == d.nodes[b].log[k].term {
      SamePast(d.book, c.nodes[a].log, d.nodes[b].log, k);
    }
  }

  ghost predicate SameAsSlice(log: seq<Entry>, m: Msg, j: nat)
    requires m.AppendReq? && j < |m.entries| && m.prev + j < |log|
  {
    && log[m.prev..m.prev + j + 1] == m.entries[..j + 1]
    && (m.prev > 0 ==> log[m.prev - 1].term == m.prevTerm)
  }

  lemma SliceIsInLog(book: map<nat, Reign>, log: seq<Entry>, m: Msg, j: nat)
    requires InBook(book, log) && m.AppendReq? && SliceInBook(book, m) && j < |m.entries|
    requires m.prev + j < |log| && log[m.prev + j].term == m.entries[j].term
    ensures SameAsSlice(log, m, j)
  {
    assert SliceAt(book, m, j) && At(book, log, m.prev + j);
    var lead := book[m.entries[j].term].log;
    assert log[m.prev..m.prev + j + 1] == log[..m.prev + j + 1][m.prev..] == lead[..m.prev + j + 1][m.prev..];
    if m.prev > 0 { assert log[..m.prev + j + 1][m.prev - 1] == lead[..m.prev + j + 1][m.prev - 1]; }
  }

  /** A slice under way, and any log that holds one of its entries, index and term. */
  lemma SliceMatching(ids: set<Id>, batch: nat, es: seq<Event>, m: Msg, b: Id, j: nat)
    requires Legal(Start(ids, batch), es) && NoCompaction(es) && b in ids
    requires m in After(Start(ids, batch), es).net && m.AppendReq? && j < |m.entries|
    ensures b in After(Start(ids, batch), es).nodes
    ensures var log := After(Start(ids, batch), es).nodes[b].log;
      m.prev + j < |log| && log[m.prev + j].term == m.entries[j].term ==> SameAsSlice(log, m, j)
  {
    EveryRunMatches(ids, batch, es);
    var c := After(Start(ids, batch), es);
    var log := c.nodes[b].log;
    if m.prev + j < |log| && log[m.prev + j].term == m.entries[j].term { SliceIsInLog(c.book, log, m, j); }
  }

  lemma SlicesInBookAgree(book: map<nat, Reign>, m: Msg, w: Msg, j: nat, k: nat)
    requires m.AppendReq? && w.AppendReq? && SliceInBook(book, m) && SliceInBook(book, w) && j < |m.entries|
    requires k < |w.entries|
    requires m.prev + j == w.prev + k && m.entries[j].term == w.entries[k].term && m.prev <= w.prev
    ensures w.entries[..k + 1] == m.entries[w.prev - m.prev..j + 1]
  {
    assert SliceAt(book, m, j) && SliceAt(book, w, k);
    var lead := book[m.entries[j].term].log;
    assert m.entries[w.prev - m.prev..j + 1] == m.entries[..j + 1][w.prev - m.prev..] == lead[w.prev..m.prev + j + 1];
  }

  /** Two slices under way that hold the same index and term. */
  lemma SlicesMatch(ids: set<Id>, batch: nat, es: seq<Event>, m: Msg, w: Msg, j: nat, k: nat)
    requires Legal(Start(ids, batch), es) && NoCompaction(es)
    requires m in After(Start(ids, batch), es).net && m.AppendReq? && j < |m.entries|
    requires w in After(Start(ids, batch), es).net && w.AppendReq? && k < |w.entries|
    requires m.prev + j == w.prev + k && m.entries[j].term == w.entries[k].term && m.prev <= w.prev
    ensures w.entries[..k + 1] == m.entries[w.prev - m.prev..j + 1]
  {
    EveryRunMatches(ids, batch, es);
    SlicesInBookAgree(After(Start(ids, batch), es).book, m, w, j, k);
  }
}
