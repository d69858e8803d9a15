/** Replication does not get stuck: in a group of at least two nodes, from every state of every run
    without compaction, any payload can come to be committed and handed out at every node. */
module RaftReplicate {
  import opened RaftNodes
  import opened RaftCluster
  import opened RaftDelivery
  import opened RaftLogs
  import opened RaftReach

  /** The leader `lead` of `term` has the log `log`, and is to bring it to all of `ids`. */
  datatype Task = Task(ids: set<Id>, batch: nat, es: seq<Event>, lead: Id, term: nat, log: seq<Entry>)

  ghost predicate Runs(s: Task, more: seq<Event>, c: Cluster) {
    GoesOn(s.ids, s.batch, s.es, more, c) && NoCompaction(s.es)
  }

  /** The leader at work. */
  ghost predicate Boss(s: Task, n: Node) {
    && s.lead in s.ids && n.id == s.lead && n.role == Leader && n.term == s.term && n.log == s.log && n.base == 0
    && n.peers == s.ids && n.progress.Keys == s.ids && n.batch == s.batch >= 1 && Consecutive(s.log, 0)
    && (forall q :: q in s.ids ==> n.progress[q].next >= 1)
  }

  /** A follower in the leader's term. */
  predicate Sub(s: Task, f: Id, u: Node) {
    u.id == f && u.role == Follower && u.term == s.term && u.base == 0
  }

  /** The follower has the leader's log up to `k`. */
  ghost predicate Has(s: Task, u: Node, k: nat) { k <= |s.log| && k <= |u.log| && u.log[..k] == s.log[..k] }

  // ---------------------------------------------------------------- the leader sends

  function EndOf(s: Task, k: nat): nat { Min(|s.log|, k + s.batch) }

  function RequestOf(s: Task, n: Node, f: Id, k: nat): Msg
    requires k <= |s.log|
  {
    AppendReq(s.lead, f, s.term, k, TermAt(n, k), n.commit, 0, s.log[k..EndOf(s, k)])
  }

  lemma SendIs(s: Task, n: Node, f: Id, k: nat)
    requires Boss(s, n) && f in s.ids && SendFrom(n.progress[f]) == k + 1 && k <= |s.log|
    ensures AppendTo(n, f, n.progress[f]) == RequestOf(s, n, f, k)
    ensures Sent(n, n.progress[f]) == n.progress[f].(sendNext := EndOf(s, k) + 1)
  {
    var es := SliceFor(n, n.progress[f]);
    assert es == s.log[k..EndOf(s, k)];
    if es != [] { assert es[|es| - 1] == s.log[EndOf(s, k) - 1]; }
  }

  /** What a heart beat leaves alone. */
  ghost predicate Beaten(s: Task, n: Node, u: Node)
    requires Boss(s, n)
  {
    && Boss(s, u) && u.commit == n.commit && u.progress[s.lead] == n.progress[s.lead]
    && (forall q :: q in s.ids && q != s.lead ==> u.progress[q] == Sent(n, n.progress[q]))
  }

  lemma BeatIs(s: Task, n: Node)
    requires Boss(s, n)
    ensures Beaten(s, n, HeartBeat(n).0)
    ensures forall q :: q in s.ids && q != s.lead ==> AppendTo(n, q, n.progress[q]) in HeartBeat(n).1
  {
    SendAllKeeps(n);
    forall q | q in s.ids && q != s.lead ensures AppendTo(n, q, n.progress[q]) in HeartBeat(n).1 {
      BeatSends(n, q);
    }
  }

  // ---------------------------------------------------------------- the follower stores

  /** A request for what follows position `k`. */
  ghost predicate Offered(s: Task, m: Msg, f: Id, k: nat) {
    && k < |s.log| && m.AppendReq? && m.src == s.lead && m.dest == f && m.term == s.term && m.prev == k
    && m.prevTerm == (if k == 0 then 0 else s.log[k - 1].term) && m.consistency == 0
    && m.entries == s.log[k..EndOf(s, k)] && s.batch >= 1
  }

  lemma RequestOffers(s: Task, n: Node, f: Id, k: nat)
    requires Boss(s, n) && k < |s.log|
    ensures Offered(s, RequestOf(s, n, f, k), f, k)
  {}

  lemma OfferStored(s: Task, u: Node, m: Msg, f: Id, k: nat)
    requires Sub(s, f, u) && Has(s, u, k) && Offered(s, m, f, k)
    ensures OnAppendReq(u, m) == StoreAt(u.(leader := s.lead), m, k, 0)
  {}

  lemma Cut(s: Task, u: Node, m: Msg, f: Id, k: nat)
    requires Sub(s, f, u) && Has(s, u, k) && Offered(s, m, f, k) && !Agree(u.log, k, m.entries, 0)
    ensures OnAppendReq(u, m) == (u.(leader := s.lead, log := u.log[..k]), {})
  {
    OfferStored(s, u, m, f, k);
  }

  /** The follower has it all already. */
  predicate Covers(u: Node, m: Msg, k: nat)
    requires m.AppendReq?
  {
    |u.log| > k && |u.log| - k >= |m.entries|
  }

  lemma KnownAlready(s: Task, u: Node, m: Msg, f: Id, k: nat)
    requires Sub(s, f, u) && Has(s, u, k) && Offered(s, m, f, k) && Agree(u.log, k, m.entries, 0) && Covers(u, m, k)
    ensures OnAppendReq(u, m).1 == {AppendResp(f, s.lead, s.term, true, EndOf(s, k), true)}
    ensures Sub(s, f, OnAppendReq(u, m).0) && OnAppendReq(u, m).0.log == u.log
  {
    OfferStored(s, u, m, f, k);
    var w := u.(leader := s.lead);
    CommitKeeps(w, m.commit);
    PlainConsistency(UpdateCommit(w, m.commit));
  }

  function StoreWrite(s: Task, m: Msg, k: nat): Write
    requires m.AppendReq?
  {
    FollowerWrite(s.lead, EndOf(s, k), m.commit, 0)
  }

  lemma StoreNew(n: Node, m: Msg, k: nat)
    requires m.AppendReq? && k <= |n.log| && Agree(n.log, k, m.entries, 0) && !Covers(n, m, k)
    ensures StoreAt(n, m, k, 0) ==
      (n.(log := Longer(n.log, k, m.entries, 0),
          writes := n.writes + multiset{FollowerWrite(m.src, m.prev + |m.entries|, m.commit, m.consistency)}), {})
  {}

  lemma WriteIs(s: Task, m: Msg, f: Id, k: nat)
    requires Offered(s, m, f, k)
    ensures FollowerWrite(m.src, m.prev + |m.entries|, m.commit, m.consistency) == StoreWrite(s, m, k)
  {}

  /** The follower with the entries of the request in its log, and their write under way. */
  function Grown(s: Task, u: Node, m: Msg, k: nat): Node
    requires m.AppendReq? && k <= |u.log|
  {
    u.(leader := s.lead, log := Longer(u.log, k, m.entries, 0),
       writes := u.writes + multiset{StoreWrite(s, m, k)})
  }

  lemma StoreNewIs(s: Task, u: Node, m: Msg, k: nat)
    requires m.AppendReq? && k <= |u.log| && Agree(u.log, k, m.entries, 0) && !Covers(u, m, k)
    requires FollowerWrite(m.src, m.prev + |m.entries|, m.commit, m.consistency) == StoreWrite(s, m, k)
    ensures StoreAt(u.(leader := s.lead), m, k, 0) == (Grown(s, u, m, k), {})
  {
    StoreNew(u.(leader := s.lead), m, k);
  }

  lemma TakenIn(s: Task, u: Node, m: Msg, f: Id, k: nat)
    requires Sub(s, f, u) && Has(s, u, k) && Offered(s, m, f, k) && Agree(u.log, k, m.entries, 0) && !Covers(u, m, k)
    ensures OnAppendReq(u, m) == (Grown(s, u, m, k), {})
  {
    OfferStored(s, u, m, f, k);
    WriteIs(s, m, f, k);
    StoreNewIs(s, u, m, k);
  }

  /** Where the terms agree, so do the logs. */
  lemma AgreeHas(book: map<nat, Reign>, s: Task, u: Node, m: Msg, f: Id, k: nat)
    requires InBook(book, u.log) && InBook(book, s.log) && Has(s, u, k) && Offered(s, m, f, k)
    requires Agree(u.log, k, m.entries, 0)
    ensures Has(s, u, Min(|u.log|, EndOf(s, k)))
  {
    var e := Min(|u.log|, EndOf(s, k));
    if e > k {
      assert u.log[e - 1].term == m.entries[e - 1 - k].term;
      SamePast(book, u.log, s.log, e - 1);
    }
  }

  lemma LongerHas(s: Task, u: Node, m: Msg, f: Id, k: nat, v: Node)
    requires Has(s, u, k) && Has(s, u, Min(|u.log|, EndOf(s, k))) && Offered(s, m, f, k) && !Covers(u, m, k)
    requires v.log == Longer(u.log, k, m.entries, 0)
    ensures Has(s, v, EndOf(s, k)) && |v.log| == EndOf(s, k)
  {
    assert m.entries[|u.log| - k..] == s.log[|u.log|..EndOf(s, k)];
  }

  lemma StoredAnswer(s: Task, u: Node, w: Write, f: Id)
    requires Sub(s, f, u) && w.FollowerWrite? && w.consistency == 0 && w.to == s.lead
    ensures OnWrite(u, w).1 == {AppendResp(f, s.lead, s.term, true, w.matched, false)}
    ensures Sub(s, f, OnWrite(u, w).0) && OnWrite(u, w).0.log == u.log
  {
    var x := u.(writes := u.writes - multiset{w});
    CommitKeeps(x, w.commit);
    PlainConsistency(UpdateCommit(x, w.commit));
  }

  // ---------------------------------------------------------------- the leader hears

  /** Nothing but what is known about `f`, and the commit index, has changed. */
  ghost predicate HeardFrom(s: Task, n: Node, u: Node, f: Id)
    requires Boss(s, n)
  {
    Boss(s, u) && forall q :: q in s.ids && q != f ==> u.progress[q] == n.progress[q]
  }

  lemma HearSuccess(s: Task, n: Node, f: Id, k: nat, hb: bool)
    requires Boss(s, n) && f in s.ids
    ensures var u := OnAppendResp(n, AppendResp(f, s.lead, s.term, true, k, hb));
      && HeardFrom(s, n, u, f) && u.progress[f].matched >= k && u.progress[f].matched >= n.progress[f].matched
      && u.progress[f].next == (if n.progress[f].next < k + 1 then k + 1 else n.progress[f].next)
      && u.progress[f].sendNext == n.progress[f].sendNext && !u.progress[f].lastReject
  {
    var m := AppendResp(f, s.lead, s.term, true, k, hb);
    var v := n.(progress := n.progress[f := Learn(n.progress[f], m, n.base)]);
    AdvanceCommitKeeps(v);
    assert v.progress.Keys == s.ids;
  }

  lemma HearReject(s: Task, n: Node, f: Id, hb: bool)
    requires Boss(s, n) && f in s.ids
    ensures var u := OnAppendResp(n, AppendResp(f, s.lead, s.term, false, 0, hb));
      && HeardFrom(s, n, u, f) && u.progress[f].lastReject && u.progress[f].matched == n.progress[f].matched
      && u.progress[f].next == (if n.progress[f].next > 1 then n.progress[f].next - 1 else 1)
  {
    var m := AppendResp(f, s.lead, s.term, false, 0, hb);
    assert n.progress[f := Learn(n.progress[f], m, n.base)].Keys == s.ids;
  }

  // ---------------------------------------------------------------- one follower, one batch

  lemma RunsPlain(s: Task, more: seq<Event>, c: Cluster)
    requires Runs(s, more, c)
    ensures LogInv(c) && DeliveryInv(c) && c.nodes.Keys == s.ids
  {
    assert more == s.es + more[|s.es|..];
    EveryRunMatches(s.ids, s.batch, more);
    EveryRunDelivers(s.ids, s.batch, more);
  }

  lemma DeliversAt(s: Task, more: seq<Event>, c: Cluster, v: Id)
    requires Runs(s, more, c) && v in c.nodes
    ensures NodeDelivers(c.nodes[v]) && c.nodes[v].base == 0
  {
    RunsPlain(s, more, c);
    assert Plain(c.nodes[v]);
  }

  /** All but the leader and `f` stay as they are, and nothing leaves the network. */
  ghost predicate Apart(s: Task, c: Cluster, d: Cluster, f: Id) {
    && d.nodes.Keys == c.nodes.Keys && c.net <= d.net
    && forall v :: v in c.nodes && v != s.lead && v != f ==> d.nodes[v] == c.nodes[v]
  }

  /** The leader knows that the node has everything, and goes on after it. */
  predicate Done(s: Task, p: Progress) {
    p.matched >= |s.log| && p.next == |s.log| + 1 && !p.lastReject && p.sendNext <= |s.log| + 1
  }

  /** Nothing is forgotten about the others. */
  ghost predicate Recalls(s: Task, n: Node, u: Node, f: Id)
    requires Boss(s, n) && Boss(s, u)
  {
    && u.progress[s.lead] == n.progress[s.lead]
    && forall q :: q in s.ids && q != s.lead && q != f && Done(s, n.progress[q]) ==> Done(s, u.progress[q])
  }

  lemma BeatenRecalls(s: Task, n: Node, u: Node, f: Id)
    requires Boss(s, n) && Beaten(s, n, u)
    ensures Recalls(s, n, u, f)
  {
    forall q | q in s.ids && q != s.lead && q != f && Done(s, n.progress[q]) ensures Done(s, u.progress[q]) {
      SendIs(s, n, q, |s.log|);
    }
  }

  /** The leader sends to `f` from position `k` on, where the two logs agree. */
  ghost predicate InStep(s: Task, c: Cluster, f: Id, k: nat) {
    && s.lead in c.nodes && f in c.nodes && f in s.ids && f != s.lead
    && Boss(s, c.nodes[s.lead]) && Sub(s, f, c.nodes[f]) && Has(s, c.nodes[f], k)
    && c.nodes[s.lead].progress[f].next <= k + 1
  }

  lemma BeatTurnOf(s: Task, more: seq<Event>, c: Cluster) returns (fs: seq<Event>, d: Cluster)
    requires Runs(s, more, c) && s.lead in c.nodes && Boss(s, c.nodes[s.lead])
    ensures Runs(s, fs, d) && s.lead in d.nodes && d.nodes == c.nodes[s.lead := d.nodes[s.lead]] && c.net <= d.net
    ensures Beaten(s, c.nodes[s.lead], d.nodes[s.lead])
    ensures forall q :: q in s.ids && q != s.lead ==>
      AppendTo(c.nodes[s.lead], q, c.nodes[s.lead].progress[q]) in d.net
  {
    var n := c.nodes[s.lead];
    var r := HeartBeat(n);
    BeatIs(s, n);
    Turn(s.ids, s.batch, s.es, more, c, BeatAt(s.lead), r);
    fs, d := more + [BeatAt(s.lead)], Moved(c, s.lead, r);
  }

  lemma Offer(s: Task, more: seq<Event>, c: Cluster, f: Id, k: nat) returns (fs: seq<Event>, d: Cluster, m: Msg)
    requires Runs(s, more, c) && InStep(s, c, f, k) && k < |s.log| && SendFrom(c.nodes[s.lead].progress[f]) == k + 1
    ensures Runs(s, fs, d) && InStep(s, d, f, k) && Apart(s, c, d, f) && d.nodes[f] == c.nodes[f]
    ensures Recalls(s, c.nodes[s.lead], d.nodes[s.lead], f)
    ensures m in d.net && Offered(s, m, f, k) && d.nodes[s.lead].progress[f].sendNext == EndOf(s, k) + 1
  {
    var n := c.nodes[s.lead];
    fs, d := BeatTurnOf(s, more, c);
    m := AppendTo(n, f, n.progress[f]);
    SendIs(s, n, f, k);
    RequestOffers(s, n, f, k);
    BeatenRecalls(s, n, d.nodes[s.lead], f);
  }

  /** Only `f` has moved. */
  ghost predicate OnlyMoved(c: Cluster, d: Cluster, f: Id) {
    d.nodes.Keys == c.nodes.Keys && c.net <= d.net && forall v :: v in c.nodes && v != f ==> d.nodes[v] == c.nodes[v]
  }

  lemma TurnOf(s: Task, more: seq<Event>, c: Cluster, e: Event, r: (Node, set<Msg>))
      returns (fs: seq<Event>, d: Cluster)
    requires Runs(s, more, c) && Enabled(c, e) && !e.CompactAt? && r == Handle(c.nodes[Actor(e)], e)
    ensures Runs(s, fs, d) && OnlyMoved(c, d, Actor(e))
    ensures Actor(e) in d.nodes && d.nodes[Actor(e)] == r.0 && r.1 <= d.net
  {
    Turn(s.ids, s.batch, s.es, more, c, e, r);
    fs, d := more + [e], Moved(c, Actor(e), r);
  }

  lemma AppendTurn(s: Task, more: seq<Event>, c: Cluster, m: Msg, r: (Node, set<Msg>))
      returns (fs: seq<Event>, d: Cluster)
    requires Runs(s, more, c) && m.AppendReq? && m in c.net && m.dest in c.nodes && r == OnAppendReq(c.nodes[m.dest], m)
    ensures Runs(s, fs, d) && OnlyMoved(c, d, m.dest)
    ensures m.dest in d.nodes && d.nodes[m.dest] == r.0 && r.1 <= d.net
  {
    fs, d := TurnOf(s, more, c, Receive(m), r);
  }

  lemma RespTurn(s: Task, more: seq<Event>, c: Cluster, a: Msg, u: Node) returns (fs: seq<Event>, d: Cluster)
    requires Runs(s, more, c) && a.AppendResp? && a in c.net && a.dest in c.nodes
    requires u == OnAppendResp(c.nodes[a.dest], a)
    ensures Runs(s, fs, d) && OnlyMoved(c, d, a.dest) && a.dest in d.nodes && d.nodes[a.dest] == u
  {
    fs, d := TurnOf(s, more, c, Receive(a), (u, {}));
  }

  lemma SendsOn(s: Task, n: Node, u: Node, f: Id, k: nat)
    requires Boss(s, n) && Beaten(s, n, u) && f in s.ids && f != s.lead && k < |s.log|
    requires SendFrom(n.progress[f]) == k + 1 && n.progress[f].next <= k + 1 && !n.progress[f].lastReject
    ensures SendFrom(u.progress[f]) == EndOf(s, k) + 1
  {
    SendIs(s, n, f, k);
  }

  /** A leader does not wait for answers: unless the node has refused, the next heart beat carries
      the entries after those of the last one. */
  lemma Pipelined(s: Task, more: seq<Event>, c: Cluster, f: Id, k: nat)
      returns (fs: seq<Event>, d: Cluster, m: Msg)
    requires Runs(s, more, c) && s.lead in c.nodes && Boss(s, c.nodes[s.lead]) && f in s.ids && f != s.lead
    requires k < |s.log| && SendFrom(c.nodes[s.lead].progress[f]) == k + 1
    requires c.nodes[s.lead].progress[f].next <= k + 1 && !c.nodes[s.lead].progress[f].lastReject
    ensures Runs(s, fs, d) && RequestOf(s, c.nodes[s.lead], f, k) in d.net
    ensures m in d.net && m.AppendReq? && m.dest == f && m.prev == EndOf(s, k)
    ensures m.entries == s.log[EndOf(s, k)..EndOf(s, EndOf(s, k))]
  {
    var n := c.nodes[s.lead];
    SendIs(s, n, f, k);
    fs, d := BeatTurnOf(s, more, c);
    var u := d.nodes[s.lead];
    SendsOn(s, n, u, f, k);
    SendIs(s, u, f, EndOf(s, k));
    fs, d := BeatTurnOf(s, fs, d);
    m := RequestOf(s, u, f, EndOf(s, k));
  }

  /** What the follower has beyond `k` agrees with the request, if need be after the request has cut it. */
  lemma Align(s: Task, more: seq<Event>, c: Cluster, f: Id, k: nat, m: Msg) returns (fs: seq<Event>, d: Cluster)
    requires Runs(s, more, c) && InStep(s, c, f, k) && m in c.net && Offered(s, m, f, k)
    ensures Runs(s, fs, d) && InStep(s, d, f, k) && OnlyMoved(c, d, f) && Agree(d.nodes[f].log, k, m.entries, 0)
    ensures d.nodes[f].log == c.nodes[f].log || |d.nodes[f].log| == k
  {
    fs, d := more, c;
    if !Agree(c.nodes[f].log, k, m.entries, 0) {
      Cut(s, c.nodes[f], m, f, k);
      fs, d := AppendTurn(s, more, c, m, OnAppendReq(c.nodes[f], m));
    }
  }

  /** The leader's last entry is of its own term, and the follower does not have it. */
  predicate Fresh(s: Task, u: Node) {
    && s.log != [] && s.log[|s.log| - 1].term == s.term
    && (|u.log| >= |s.log| ==> u.log[|s.log| - 1].term != s.term)
  }

  predicate AckIs(s: Task, a: Msg, f: Id, k: nat) {
    a.AppendResp? && a == AppendResp(f, s.lead, s.term, true, k, a.heartBeat)
  }

  /** The follower has stored, and said so. */
  ghost predicate Stored(s: Task, c: Cluster, f: Id, k: nat, a: Msg) {
    InStep(s, c, f, k) && AckIs(s, a, f, k) && a in c.net
  }

  lemma NowHas(s: Task, more: seq<Event>, c: Cluster, f: Id, k: nat, m: Msg)
    requires Runs(s, more, c) && InStep(s, c, f, k) && Offered(s, m, f, k) && Agree(c.nodes[f].log, k, m.entries, 0)
    ensures Has(s, c.nodes[f], Min(|c.nodes[f].log|, EndOf(s, k)))
  {
    RunsPlain(s, more, c);
    AgreeHas(c.book, s, c.nodes[f], m, f, k);
  }

  lemma StepsOn(s: Task, c: Cluster, d: Cluster, f: Id, k: nat, e: nat)
    requires InStep(s, c, f, k) && k <= e && OnlyMoved(c, d, f) && Sub(s, f, d.nodes[f]) && Has(s, d.nodes[f], e)
    ensures InStep(s, d, f, e)
  {}

  lemma OldFacts(s: Task, more: seq<Event>, c: Cluster, f: Id, k: nat, m: Msg) returns (r: (Node, set<Msg>))
    requires Runs(s, more, c) && InStep(s, c, f, k) && Offered(s, m, f, k)
    requires Agree(c.nodes[f].log, k, m.entries, 0) && Covers(c.nodes[f], m, k)
    ensures r == OnAppendReq(c.nodes[f], m) && Sub(s, f, r.0) && Has(s, r.0, EndOf(s, k)) && r.0.log == c.nodes[f].log
    ensures AppendResp(f, s.lead, s.term, true, EndOf(s, k), true) in r.1
  {
    NowHas(s, more, c, f, k, m);
    KnownAlready(s, c.nodes[f], m, f, k);
    r := OnAppendReq(c.nodes[f], m);
  }

  lemma AbsorbOld(s: Task, more: seq<Event>, c: Cluster, f: Id, k: nat, m: Msg)
      returns (fs: seq<Event>, d: Cluster, a: Msg)
    requires Runs(s, more, c) && InStep(s, c, f, k) && m in c.net && Offered(s, m, f, k)
    requires Agree(c.nodes[f].log, k, m.entries, 0) && Covers(c.nodes[f], m, k)
    ensures Runs(s, fs, d) && OnlyMoved(c, d, f) && Stored(s, d, f, EndOf(s, k), a) && d.nodes[f].log == c.nodes[f].log
  {
    var r := OldFacts(s, more, c, f, k, m);
    fs, d := AppendTurn(s, more, c, m, r);
    StepsOn(s, c, d, f, k, EndOf(s, k));
    a := AppendResp(f, s.lead, s.term, true, EndOf(s, k), true);
  }

  lemma NewFacts(s: Task, more: seq<Event>, c: Cluster, f: Id, k: nat, m: Msg) returns (r: (Node, set<Msg>))
    requires Runs(s, more, c) && InStep(s, c, f, k) && Offered(s, m, f, k)
    requires Agree(c.nodes[f].log, k, m.entries, 0) && !Covers(c.nodes[f], m, k)
    ensures r == OnAppendReq(c.nodes[f], m) && Sub(s, f, r.0) && Has(s, r.0, EndOf(s, k))
    ensures |r.0.log| == EndOf(s, k) && StoreWrite(s, m, k) in r.0.writes
  {
    var u := c.nodes[f];
    NowHas(s, more, c, f, k, m);
    LongerHas(s, u, m, f, k, Grown(s, u, m, k));
    TakenIn(s, u, m, f, k);
    r := (Grown(s, u, m, k), {});
  }

  lemma TakeIn(s: Task, more: seq<Event>, c: Cluster, f: Id, k: nat, m: Msg) returns (fs: seq<Event>, d: Cluster)
    requires Runs(s, more, c) && InStep(s, c, f, k) && m in c.net && Offered(s, m, f, k)
    requires Agree(c.nodes[f].log, k, m.entries, 0) && !Covers(c.nodes[f], m, k)
    ensures Runs(s, fs, d) && OnlyMoved(c, d, f) && InStep(s, d, f, EndOf(s, k))
    ensures |d.nodes[f].log| == EndOf(s, k) && StoreWrite(s, m, k) in d.nodes[f].writes
  {
    var r := NewFacts(s, more, c, f, k, m);
    fs, d := AppendTurn(s, more, c, m, r);
    StepsOn(s, c, d, f, k, EndOf(s, k));
  }

  lemma SayStored(s: Task, more: seq<Event>, c: Cluster, f: Id, k: nat, w: Write)
      returns (fs: seq<Event>, d: Cluster, a: Msg)
    requires Runs(s, more, c) && InStep(s, c, f, k) && w in c.nodes[f].writes && w.FollowerWrite?
    requires w.to == s.lead && w.matched == k && w.consistency == 0
    ensures Runs(s, fs, d) && OnlyMoved(c, d, f) && Stored(s, d, f, k, a) && !a.heartBeat
    ensures d.nodes[f].log == c.nodes[f].log
  {
    StoredAnswer(s, c.nodes[f], w, f);
    fs, d := TurnOf(s, more, c, WriteDone(f, w), OnWrite(c.nodes[f], w));
    a := AppendResp(f, s.lead, s.term, true, k, false);
  }

  lemma AbsorbNew(s: Task, more: seq<Event>, c: Cluster, f: Id, k: nat, m: Msg)
      returns (fs: seq<Event>, d: Cluster, a: Msg)
    requires Runs(s, more, c) && InStep(s, c, f, k) && m in c.net && Offered(s, m, f, k)
    requires Agree(c.nodes[f].log, k, m.entries, 0) && !Covers(c.nodes[f], m, k)
    ensures Runs(s, fs, d) && OnlyMoved(c, d, f) && Stored(s, d, f, EndOf(s, k), a) && !a.heartBeat
    ensures |d.nodes[f].log| == EndOf(s, k)
  {
    fs, d := TakeIn(s, more, c, f, k, m);
    fs, d, a := SayStored(s, fs, d, f, EndOf(s, k), StoreWrite(s, m, k));
  }

  /** A follower that has the last entry already would not be fresh. */
  lemma FreshIsNew(s: Task, u: Node, m: Msg, f: Id, k: nat)
    requires Fresh(s, u) && Offered(s, m, f, k) && Agree(u.log, k, m.entries, 0) && EndOf(s, k) == |s.log|
    ensures !Covers(u, m, k)
  {}

  lemma Absorb(s: Task, more: seq<Event>, c: Cluster, f: Id, k: nat, m: Msg)
      returns (fs: seq<Event>, d: Cluster, a: Msg)
    requires Runs(s, more, c) && InStep(s, c, f, k) && m in c.net && Offered(s, m, f, k)
    requires Agree(c.nodes[f].log, k, m.entries, 0) && Fresh(s, c.nodes[f])
    ensures Runs(s, fs, d) && OnlyMoved(c, d, f) && Stored(s, d, f, EndOf(s, k), a)
    ensures EndOf(s, k) == |s.log| ==> !a.heartBeat
    ensures EndOf(s, k) < |s.log| ==> Fresh(s, d.nodes[f])
  {
    if Covers(c.nodes[f], m, k) {
      fs, d, a := AbsorbOld(s, more, c, f, k, m);
      if EndOf(s, k) == |s.log| { FreshIsNew(s, c.nodes[f], m, f, k); }
    } else {
      fs, d, a := AbsorbNew(s, more, c, f, k, m);
    }
  }

  lemma HearAck(s: Task, more: seq<Event>, c: Cluster, f: Id, k: nat, a: Msg) returns (fs: seq<Event>, d: Cluster)
    requires Runs(s, more, c) && Stored(s, c, f, k, a) && c.nodes[s.lead].progress[f].sendNext <= k + 1
    ensures Runs(s, fs, d) && InStep(s, d, f, k) && Apart(s, c, d, f) && d.nodes[f] == c.nodes[f]
    ensures Recalls(s, c.nodes[s.lead], d.nodes[s.lead], f)
    ensures var p := d.nodes[s.lead].progress[f];
      p.matched >= k && p.next == k + 1 && !p.lastReject && p.sendNext <= k + 1
  {
    HearSuccess(s, c.nodes[s.lead], f, k, a.heartBeat);
    fs, d := RespTurn(s, more, c, a, OnAppendResp(c.nodes[s.lead], a));
  }

  // ---------------------------------------------------------------- one follower, the whole log

  /** Steps that concern only the leader and `f`. */
  ghost predicate With(s: Task, c: Cluster, d: Cluster, f: Id)
    requires s.lead in c.nodes && Boss(s, c.nodes[s.lead])
  {
    Apart(s, c, d, f) && s.lead in d.nodes && Boss(s, d.nodes[s.lead]) &&
    Recalls(s, c.nodes[s.lead], d.nodes[s.lead], f)
  }

  lemma WithOn(s: Task, c: Cluster, d: Cluster, e: Cluster, f: Id)
    requires s.lead in c.nodes && Boss(s, c.nodes[s.lead]) && With(s, c, d, f) && With(s, d, e, f)
    ensures With(s, c, e, f)
  {}

  lemma MovedWith(s: Task, c: Cluster, d: Cluster, f: Id)
    requires s.lead in c.nodes && Boss(s, c.nodes[s.lead]) && OnlyMoved(c, d, f) && f != s.lead
    ensures With(s, c, d, f)
  {}

  /** The leader goes on from `k`, and has the right to. */
  ghost predicate Ahead(s: Task, c: Cluster, f: Id, k: nat) {
    && InStep(s, c, f, k)
    && var p := c.nodes[s.lead].progress[f];
       p.matched >= k && p.next == k + 1 && !p.lastReject && p.sendNext <= k + 1
  }

  /** The acknowledgement that lets the leader commit. */
  ghost predicate FullAck(s: Task, c: Cluster, f: Id) {
    AppendResp(f, s.lead, s.term, true, |s.log|, false) in c.net
  }

  lemma StoreBatch(s: Task, more: seq<Event>, c: Cluster, f: Id, k: nat, m: Msg)
      returns (fs: seq<Event>, d: Cluster, a: Msg)
    requires Runs(s, more, c) && InStep(s, c, f, k) && m in c.net && Offered(s, m, f, k) && Fresh(s, c.nodes[f])
    ensures Runs(s, fs, d) && OnlyMoved(c, d, f) && Stored(s, d, f, EndOf(s, k), a)
    ensures EndOf(s, k) == |s.log| ==> !a.heartBeat
    ensures EndOf(s, k) < |s.log| ==> Fresh(s, d.nodes[f])
  {
    fs, d := Align(s, more, c, f, k, m);
    fs, d, a := Absorb(s, fs, d, f, k, m);
  }

  lemma OneBatch(s: Task, more: seq<Event>, c: Cluster, f: Id, k: nat) returns (fs: seq<Event>, d: Cluster)
    requires Runs(s, more, c) && InStep(s, c, f, k) && SendFrom(c.nodes[s.lead].progress[f]) == k + 1
    requires k < |s.log| && Fresh(s, c.nodes[f])
    ensures Runs(s, fs, d) && With(s, c, d, f) && Ahead(s, d, f, EndOf(s, k))
    ensures EndOf(s, k) == |s.log| ==> FullAck(s, d, f)
    ensures EndOf(s, k) < |s.log| ==> Fresh(s, d.nodes[f])
  {
    var m, a;
    fs, d, m := Offer(s, more, c, f, k);
    var b := d;
    fs, d, a := StoreBatch(s, fs, b, f, k, m);
    MovedWith(s, b, d, f);
    WithOn(s, c, b, d, f);
    var e := d;
    fs, d := HearAck(s, fs, e, f, EndOf(s, k), a);
    WithOn(s, c, e, d, f);
  }

  lemma {:induction false} CatchUp(s: Task, more: seq<Event>, c: Cluster, f: Id, k: nat)
      returns (fs: seq<Event>, d: Cluster)
    requires Runs(s, more, c) && InStep(s, c, f, k) && SendFrom(c.nodes[s.lead].progress[f]) == k + 1
    requires k < |s.log| && Fresh(s, c.nodes[f])
    ensures Runs(s, fs, d) && With(s, c, d, f) && Ahead(s, d, f, |s.log|) && FullAck(s, d, f)
    decreases |s.log| - k
  {
    fs, d := OneBatch(s, more, c, f, k);
    if EndOf(s, k) < |s.log| {
      var b := d;
      fs, d := CatchUp(s, fs, b, f, EndOf(s, k));
      WithOn(s, c, b, d, f);
    }
  }

  // ---------------------------------------------------------------- first contact

  lemma RunsElects(s: Task, more: seq<Event>, c: Cluster)
    requires Runs(s, more, c)
    ensures ElectionInv(c) && c.nodes.Keys == s.ids
  {
    EveryRunElects(s.ids, s.batch, more);
  }

  lemma LeadersSame(c: Cluster, a: Id, b: Id)
    requires ElectionInv(c) && a in c.nodes && b in c.nodes
    ensures c.nodes[a].role == Leader && c.nodes[b].role == Leader && c.nodes[a].term == c.nodes[b].term ==> a == b
  {
    assert NodeVotes(c.net, c.nodes.Keys, a, c.nodes[a]) && NodeVotes(c.net, c.nodes.Keys, b, c.nodes[b]);
    if c.nodes[a].role == Leader && c.nodes[b].role == Leader && c.nodes[a].term == c.nodes[b].term {
      LeadersAgree(c.net, c.net, c.nodes.Keys, a, b, c.nodes[a], c.nodes[b]);
    }
  }

  /** No other node leads the leader's term. */
  lemma OneLeader(s: Task, more: seq<Event>, c: Cluster, f: Id)
    requires Runs(s, more, c) && s.lead in c.nodes && Boss(s, c.nodes[s.lead]) && f in c.nodes && f != s.lead
    ensures c.nodes[f].id == f && c.nodes[f].base == 0 && !(c.nodes[f].role == Leader && c.nodes[f].term == s.term)
  {
    RunsElects(s, more, c);
    RunsPlain(s, more, c);
    assert Plain(c.nodes[f]) && NodeVotes(c.net, c.nodes.Keys, f, c.nodes[f]);
    LeadersSame(c, f, s.lead);
  }

  lemma HearLeader(s: Task, f: Id, u: Node, m: Msg)
    requires u.id == f && u.base == 0 && u.term <= s.term && !(u.role == Leader && u.term == s.term)
    requires m.AppendReq? && m.term == s.term && !(u.role == Follower && u.term == s.term)
    ensures Sub(s, f, OnAppendReq(u, m).0) && OnAppendReq(u, m).0.log == u.log
  {}

  lemma JoinBeat(s: Task, more: seq<Event>, c: Cluster, f: Id) returns (fs: seq<Event>, d: Cluster, m: Msg)
    requires Runs(s, more, c) && s.lead in c.nodes && Boss(s, c.nodes[s.lead])
    requires f in c.nodes && f in s.ids && f != s.lead
    ensures Runs(s, fs, d) && With(s, c, d, f) && d.nodes[f] == c.nodes[f]
    ensures m in d.net && m == AppendTo(c.nodes[s.lead], f, c.nodes[s.lead].progress[f])
    ensures m.AppendReq? && m.term == s.term && m.src == s.lead && m.dest == f
  {
    var n := c.nodes[s.lead];
    m := AppendTo(n, f, n.progress[f]);
    fs, d := BeatTurnOf(s, more, c);
    BeatenRecalls(s, n, d.nodes[s.lead], f);
  }

  /** A node that is behind, or stands, becomes a follower in the leader's term. */
  lemma Join(s: Task, more: seq<Event>, c: Cluster, f: Id) returns (fs: seq<Event>, d: Cluster)
    requires Runs(s, more, c) && s.lead in c.nodes && Boss(s, c.nodes[s.lead])
    requires f in c.nodes && f in s.ids && f != s.lead && c.nodes[f].term <= s.term
    ensures Runs(s, fs, d) && With(s, c, d, f) && f in d.nodes && Sub(s, f, d.nodes[f])
    ensures d.nodes[f].log == c.nodes[f].log
  {
    OneLeader(s, more, c, f);
    if c.nodes[f].role == Follower && c.nodes[f].term == s.term {
      fs, d := more, c;
    } else {
      var m;
      fs, d, m := JoinBeat(s, more, c, f);
      var b := d;
      HearLeader(s, f, b.nodes[f], m);
      fs, d := AppendTurn(s, fs, b, m, OnAppendReq(b.nodes[f], m));
      MovedWith(s, b, d, f);
      WithOn(s, c, b, d, f);
    }
  }

  /** Leader and follower, not yet in step. */
  ghost predicate Meet(s: Task, c: Cluster, f: Id) {
    && s.lead in c.nodes && f in c.nodes && f in s.ids && f != s.lead
    && Boss(s, c.nodes[s.lead]) && Sub(s, f, c.nodes[f])
  }

  /** A follower that accepts the position the leader sends from has the log up to there. */
  lemma AcceptedHas(book: map<nat, Reign>, s: Task, n: Node, u: Node, j: nat)
    requires InBook(book, u.log) && InBook(book, s.log) && Boss(s, n) && u.base == 0 && Consecutive(u.log, 0)
    requires LogOk(u, j, TermAt(n, j)) && Fresh(s, u)
    ensures Has(s, u, j) && j < |s.log|
  {
    if j > 0 && j <= |s.log| { SamePast(book, u.log, s.log, j - 1); }
  }

  lemma MeetInStep(s: Task, more: seq<Event>, c: Cluster, f: Id, j: nat)
    requires Runs(s, more, c) && Meet(s, c, f) && Fresh(s, c.nodes[f])
    requires j + 1 == SendFrom(c.nodes[s.lead].progress[f]) && LogOk(c.nodes[f], j, TermAt(c.nodes[s.lead], j))
    ensures InStep(s, c, f, j) && j < |s.log|
  {
    RunsPlain(s, more, c);
    assert NodeDelivers(c.nodes[f]);
    AcceptedHas(c.book, s, c.nodes[s.lead], c.nodes[f], j);
  }

  lemma Refused(s: Task, u: Node, f: Id, m: Msg)
    requires Sub(s, f, u) && m.AppendReq? && m.term == s.term && m.src == s.lead && !LogOk(u, m.prev, m.prevTerm)
    ensures OnAppendReq(u, m) ==
      (u.(leader := s.lead), {AppendResp(f, s.lead, s.term, false, 0, m.entries == [])})
  {}

  lemma HearNo(s: Task, more: seq<Event>, c: Cluster, f: Id, hb: bool) returns (fs: seq<Event>, d: Cluster)
    requires Runs(s, more, c) && Meet(s, c, f) && AppendResp(f, s.lead, s.term, false, 0, hb) in c.net
    ensures Runs(s, fs, d) && Meet(s, d, f) && With(s, c, d, f) && d.nodes[f] == c.nodes[f]
    ensures var p := d.nodes[s.lead].progress[f];
      p.lastReject && p.next == if c.nodes[s.lead].progress[f].next > 1 then c.nodes[s.lead].progress[f].next - 1 else 1
  {
    var a := AppendResp(f, s.lead, s.term, false, 0, hb);
    HearReject(s, c.nodes[s.lead], f, hb);
    fs, d := RespTurn(s, more, c, a, OnAppendResp(c.nodes[s.lead], a));
  }

  /** One refusal, heard as often as need be, takes the leader back to the start of the log. */
  lemma {:induction false} BackOff(s: Task, more: seq<Event>, c: Cluster, f: Id, hb: bool)
      returns (fs: seq<Event>, d: Cluster)
    requires Runs(s, more, c) && Meet(s, c, f) && AppendResp(f, s.lead, s.term, false, 0, hb) in c.net
    ensures Runs(s, fs, d) && With(s, c, d, f) && d.nodes[f] == c.nodes[f]
    ensures InStep(s, d, f, 0) && SendFrom(d.nodes[s.lead].progress[f]) == 1
    decreases c.nodes[s.lead].progress[f].next
  {
    fs, d := HearNo(s, more, c, f, hb);
    if d.nodes[s.lead].progress[f].next > 1 {
      var b := d;
      fs, d := BackOff(s, fs, b, f, hb);
      WithOn(s, c, b, d, f);
    }
  }

  lemma Contact(s: Task, more: seq<Event>, c: Cluster, f: Id) returns (fs: seq<Event>, d: Cluster, k: nat)
    requires Runs(s, more, c) && Meet(s, c, f) && Fresh(s, c.nodes[f])
    ensures Runs(s, fs, d) && With(s, c, d, f) && InStep(s, d, f, k) && k < |s.log|
    ensures SendFrom(d.nodes[s.lead].progress[f]) == k + 1 && Fresh(s, d.nodes[f])
  {
    var n := c.nodes[s.lead];
    k := SendFrom(n.progress[f]) - 1;
    if LogOk(c.nodes[f], k, TermAt(n, k)) {
      MeetInStep(s, more, c, f, k);
      fs, d := more, c;
    } else {
      fs, d := Refuse(s, more, c, f, k);
      k := 0;
    }
  }

  lemma Refuse(s: Task, more: seq<Event>, c: Cluster, f: Id, k: nat) returns (fs: seq<Event>, d: Cluster)
    requires Runs(s, more, c) && Meet(s, c, f) && k + 1 == SendFrom(c.nodes[s.lead].progress[f])
    requires !LogOk(c.nodes[f], k, TermAt(c.nodes[s.lead], k))
    ensures Runs(s, fs, d) && With(s, c, d, f) && d.nodes[f].log == c.nodes[f].log
    ensures InStep(s, d, f, 0) && SendFrom(d.nodes[s.lead].progress[f]) == 1
  {
    var m;
    fs, d, m := JoinBeat(s, more, c, f);
    var b := d;
    Refused(s, b.nodes[f], f, m);
    fs, d := AppendTurn(s, fs, b, m, OnAppendReq(b.nodes[f], m));
    MovedWith(s, b, d, f);
    WithOn(s, c, b, d, f);
    var e := d;
    fs, d := BackOff(s, fs, e, f, m.entries == []);
    WithOn(s, c, e, d, f);
  }

  /** One follower gets the whole log. */
  lemma Serve(s: Task, more: seq<Event>, c: Cluster, f: Id) returns (fs: seq<Event>, d: Cluster)
    requires Runs(s, more, c) && s.lead in c.nodes && Boss(s, c.nodes[s.lead])
    requires f in c.nodes && f in s.ids && f != s.lead && c.nodes[f].term <= s.term && Fresh(s, c.nodes[f])
    ensures Runs(s, fs, d) && With(s, c, d, f) && Ahead(s, d, f, |s.log|) && FullAck(s, d, f)
  {
    fs, d := Join(s, more, c, f);
    var a, k := d, 0;
    fs, d, k := Contact(s, fs, a, f);
    WithOn(s, c, a, d, f);
    var b := d;
    fs, d := CatchUp(s, fs, b, f, k);
    WithOn(s, c, b, d, f);
  }

  // ---------------------------------------------------------------- all followers

  ghost predicate Served(s: Task, c: Cluster, v: Id) { Ahead(s, c, v, |s.log|) && FullAck(s, c, v) }

  /** The followers of `todo` are still to be served, the others are. */
  ghost predicate Serving(s: Task, c: Cluster, todo: set<Id>) {
    && c.nodes.Keys == s.ids && s.lead in c.nodes && Boss(s, c.nodes[s.lead])
    && c.nodes[s.lead].progress[s.lead].matched >= |s.log| && c.nodes[s.lead].progress[s.lead].next > |s.log|
    && (forall v :: v in todo ==> v in s.ids && v != s.lead && c.nodes[v].term <= s.term && Fresh(s, c.nodes[v]))
    && (forall v :: v in s.ids && v != s.lead && v !in todo ==> Served(s, c, v))
  }

  lemma ServedStays(s: Task, c: Cluster, d: Cluster, f: Id, v: Id)
    requires s.lead in c.nodes && Boss(s, c.nodes[s.lead]) && With(s, c, d, f) && Served(s, c, v) && v != f
    ensures Served(s, d, v)
  {
    assert Done(s, c.nodes[s.lead].progress[v]);
  }

  lemma ServingOn(s: Task, c: Cluster, d: Cluster, todo: set<Id>, f: Id)
    requires Serving(s, c, todo) && f in todo && With(s, c, d, f) && Served(s, d, f)
    ensures Serving(s, d, todo - {f})
  {
    forall v | v in s.ids && v != s.lead && v !in todo - {f} ensures Served(s, d, v) {
      if v != f { ServedStays(s, c, d, f, v); }
    }
  }

  lemma {:induction false} ServeAll(s: Task, more: seq<Event>, c: Cluster, todo: set<Id>)
      returns (fs: seq<Event>, d: Cluster)
    requires Runs(s, more, c) && Serving(s, c, todo)
    ensures Runs(s, fs, d) && Serving(s, d, {})
    decreases todo
  {
    fs, d := more, c;
    if todo != {} {
      var f :| f in todo;
      fs, d := Serve(s, more, c, f);
      ServingOn(s, c, d, todo, f);
      fs, d := ServeAll(s, fs, d, todo - {f});
    }
  }

  // ---------------------------------------------------------------- commit

  lemma AllMatch(s: Task, v: Node)
    requires Boss(s, v) && s.log != [] && s.log[|s.log| - 1].term == s.term
    requires forall q :: q in s.ids ==> v.progress[q].matched >= |s.log|
    ensures AdvanceCommit(v).commit >= |s.log|
  {
    assert Matching(v, |s.log|) == s.ids;
    SomeMembers(s.ids, s.lead);
    assert MajorityIndex(v, |v.log|) == |s.log|;
  }

  lemma CommitOnAck(s: Task, n: Node, f: Id)
    requires Boss(s, n) && s.log != [] && s.log[|s.log| - 1].term == s.term && f in s.ids
    requires forall q :: q in s.ids ==> n.progress[q].matched >= |s.log|
    ensures OnAppendResp(n, AppendResp(f, s.lead, s.term, true, |s.log|, false)).commit >= |s.log|
  {
    var m := AppendResp(f, s.lead, s.term, true, |s.log|, false);
    var v := n.(progress := n.progress[f := Learn(n.progress[f], m, n.base)]);
    assert v.progress.Keys == s.ids;
    AllMatch(s, v);
  }

  /** The leader has committed its whole log. */
  ghost predicate Committed(s: Task, c: Cluster) {
    Serving(s, c, {}) && c.nodes[s.lead].commit >= |s.log|
  }

  lemma AllMatched(s: Task, c: Cluster, q: Id)
    requires Serving(s, c, {}) && q in s.ids
    ensures c.nodes[s.lead].progress[q].matched >= |s.log| && c.nodes[s.lead].progress[q].next > |s.log|
  {
    if q != s.lead { assert Served(s, c, q); }
  }

  lemma CommitTurn(s: Task, more: seq<Event>, c: Cluster, f: Id) returns (fs: seq<Event>, d: Cluster)
    requires Runs(s, more, c) && Served(s, c, f) && s.log != [] && s.log[|s.log| - 1].term == s.term
    requires forall q :: q in s.ids ==> c.nodes[s.lead].progress[q].matched >= |s.log|
    ensures Runs(s, fs, d) && With(s, c, d, f) && Served(s, d, f) && d.nodes[s.lead].commit >= |s.log|
  {
    var a := AppendResp(f, s.lead, s.term, true, |s.log|, false);
    var u := OnAppendResp(c.nodes[s.lead], a);
    HearSuccess(s, c.nodes[s.lead], f, |s.log|, false);
    CommitOnAck(s, c.nodes[s.lead], f);
    fs, d := RespTurn(s, more, c, a, u);
  }

  lemma Commit(s: Task, more: seq<Event>, c: Cluster, f: Id) returns (fs: seq<Event>, d: Cluster)
    requires Runs(s, more, c) && Serving(s, c, {}) && f in s.ids && f != s.lead
    requires s.log != [] && s.log[|s.log| - 1].term == s.term
    ensures Runs(s, fs, d) && Committed(s, d)
  {
    assert Served(s, c, f);
    forall q | q in s.ids ensures c.nodes[s.lead].progress[q].matched >= |s.log| { AllMatched(s, c, q); }
    fs, d := CommitTurn(s, more, c, f);
    forall v | v in s.ids && v != s.lead ensures Served(s, d, v) {
      assert Served(s, c, v);
      if v != f { ServedStays(s, c, d, f, v); }
    }
  }

  // ---------------------------------------------------------------- the commit index spreads

  /** The node has the leader's log, committed. */
  ghost predicate HasCommitted(s: Task, u: Node) { Has(s, u, |s.log|) && u.commit >= |s.log| }

  lemma HearCommit(s: Task, n: Node, u: Node, f: Id)
    requires Boss(s, n) && n.commit >= |s.log| && s.log != [] && Sub(s, f, u) && NodeDelivers(u) && Has(s, u, |s.log|)
    ensures HasCommitted(s, OnAppendReq(u, RequestOf(s, n, f, |s.log|)).0)
  {
    var v := u.(leader := s.lead);
    assert NodeDelivers(v);
    CommitDelivers(v, n.commit);
    CommitKeeps(v, n.commit);
    PlainConsistency(UpdateCommit(v, n.commit));
  }

  /** The heart beat that tells the followers of `todo` is under way, the others have heard it. */
  ghost predicate Telling(s: Task, n: Node, c: Cluster, todo: set<Id>) {
    && c.nodes.Keys == s.ids && Boss(s, n) && n.commit >= |s.log| && s.log != [] && todo <= s.ids && s.lead !in todo
    && (forall v :: v in todo ==>
          Sub(s, v, c.nodes[v]) && Has(s, c.nodes[v], |s.log|) && RequestOf(s, n, v, |s.log|) in c.net)
    && (forall v :: v in s.ids && v !in todo ==> HasCommitted(s, c.nodes[v]))
  }

  lemma TellMoves(s: Task, n: Node, c: Cluster, d: Cluster, todo: set<Id>, f: Id)
    requires Telling(s, n, c, todo) && f in todo && OnlyMoved(c, d, f) && HasCommitted(s, d.nodes[f])
    ensures Telling(s, n, d, todo - {f})
  {}

  lemma TellTurn(s: Task, n: Node, more: seq<Event>, c: Cluster, f: Id) returns (fs: seq<Event>, d: Cluster)
    requires Runs(s, more, c) && Boss(s, n) && n.commit >= |s.log| && s.log != [] && f in c.nodes
    requires Sub(s, f, c.nodes[f]) && Has(s, c.nodes[f], |s.log|) && RequestOf(s, n, f, |s.log|) in c.net
    ensures Runs(s, fs, d) && OnlyMoved(c, d, f) && HasCommitted(s, d.nodes[f])
  {
    DeliversAt(s, more, c, f);
    HearCommit(s, n, c.nodes[f], f);
    var m := RequestOf(s, n, f, |s.log|);
    fs, d := AppendTurn(s, more, c, m, OnAppendReq(c.nodes[f], m));
  }

  lemma TellOne(s: Task, n: Node, more: seq<Event>, c: Cluster, todo: set<Id>, f: Id)
      returns (fs: seq<Event>, d: Cluster)
    requires Runs(s, more, c) && Telling(s, n, c, todo) && f in todo
    ensures Runs(s, fs, d) && Telling(s, n, d, todo - {f})
  {
    fs, d := TellTurn(s, n, more, c, f);
    TellMoves(s, n, c, d, todo, f);
  }

  lemma {:induction false} TellAll(s: Task, n: Node, more: seq<Event>, c: Cluster, todo: set<Id>)
      returns (fs: seq<Event>, d: Cluster)
    requires Runs(s, more, c) && Telling(s, n, c, todo)
    ensures Runs(s, fs, d) && Telling(s, n, d, {})
    decreases todo
  {
    fs, d := more, c;
    if todo != {} {
      var f :| f in todo;
      fs, d := TellOne(s, n, more, c, todo, f);
      fs, d := TellAll(s, n, fs, d, todo - {f});
    }
  }

  lemma ServedAsks(s: Task, c: Cluster, v: Id)
    requires Serving(s, c, {}) && v in s.ids && v != s.lead
    ensures Sub(s, v, c.nodes[v]) && Has(s, c.nodes[v], |s.log|)
    ensures AppendTo(c.nodes[s.lead], v, c.nodes[s.lead].progress[v]) == RequestOf(s, c.nodes[s.lead], v, |s.log|)
  {
    assert Served(s, c, v);
    SendIs(s, c.nodes[s.lead], v, |s.log|);
  }

  lemma Tell(s: Task, more: seq<Event>, c: Cluster) returns (fs: seq<Event>, d: Cluster)
    requires Runs(s, more, c) && Committed(s, c) && s.log != []
    ensures Runs(s, fs, d) && Telling(s, c.nodes[s.lead], d, s.ids - {s.lead})
  {
    fs, d := BeatTurnOf(s, more, c);
    forall v | v in s.ids - {s.lead}
      ensures Sub(s, v, d.nodes[v]) && Has(s, d.nodes[v], |s.log|)
      ensures RequestOf(s, c.nodes[s.lead], v, |s.log|) in d.net
    {
      ServedAsks(s, c, v);
    }
  }

  // ---------------------------------------------------------------- a new entry

  function EntryOf(n: Node, payload: seq<nat>): Entry { Entry(Last(n) + 1, n.term, payload) }

  /** No other node can have an entry of the leader's term where the leader puts its next. */
  lemma NewIsFresh(c: Cluster, l: Id, f: Id, s: Task, payload: seq<nat>)
    requires LogInv(c) && l in c.nodes && f in c.nodes && c.nodes[l].role == Leader
    requires s.term == c.nodes[l].term && s.log == c.nodes[l].log + [EntryOf(c.nodes[l], payload)]
    ensures Fresh(s, c.nodes[f])
  {
    assert ReignOk(c, s.term);
    var u, i := c.nodes[f], |s.log| - 1;
    assert InBook(c.book, u.log);
    if |u.log| > i { assert At(c.book, u.log, i); }
  }

  /** The leader's log is on disk up to its end. */
  lemma OwnWrite(s: Task, n: Node)
    requires Boss(s, n)
    ensures var u := OnWrite(n, LeaderWrite(|s.log|)).0;
      Boss(s, u) && u.progress[s.lead].matched == |s.log| && u.progress[s.lead].next == |s.log| + 1
  {
    var w := LeaderWrite(|s.log|);
    assert OwnMatch(n, w).progress.Keys == s.ids;
    SendAllKeeps(OwnMatch(n, w));
    assert OnWrite(n, w) == SendAll(OwnMatch(n, w));
  }

  lemma SubmitIs(s: Task, n: Node, payload: seq<nat>)
    requires Boss(s.(log := n.log), n) && s.log == n.log + [EntryOf(n, payload)] && n.term > 0
    ensures Boss(s, Submit(n, payload)) && LeaderWrite(|s.log|) in Submit(n, payload).writes
  {}

  lemma KnowsGroup(s: Task, more: seq<Event>, c: Cluster)
    requires Runs(s, more, c) && s.lead in c.nodes
    ensures var n := c.nodes[s.lead];
      s.lead in s.ids && n.id == s.lead && n.peers == s.ids && n.progress.Keys == s.ids && n.batch == s.batch
  {
    EveryRunGroup(s.ids, s.batch, more);
    EveryRunTracks(s.ids, s.batch, more);
  }

  lemma BossIs(s: Task, n: Node)
    requires s.lead in s.ids && n.id == s.lead && n.peers == s.ids && n.progress.Keys == s.ids
    requires n.batch == s.batch >= 1
    requires NodeDelivers(n) && n.base == 0 && n.role == Leader && n.term == s.term && n.log == s.log
    ensures Boss(s, n) && n.term > 0
  {}

  lemma TaskLogs(s: Task, more: seq<Event>, c: Cluster, payload: seq<nat>)
    requires Runs(s, more, c) && s.lead in c.nodes && c.nodes[s.lead].role == Leader && s.batch >= 1
    requires s.term == c.nodes[s.lead].term && s.log == c.nodes[s.lead].log + [EntryOf(c.nodes[s.lead], payload)]
    ensures Boss(s, Submit(c.nodes[s.lead], payload))
    ensures LeaderWrite(|s.log|) in Submit(c.nodes[s.lead], payload).writes
  {
    var n := c.nodes[s.lead];
    KnowsGroup(s, more, c);
    DeliversAt(s, more, c, s.lead);
    BossIs(s.(log := n.log), n);
    SubmitIs(s, n, payload);
  }

  lemma AllFresh(s: Task, more: seq<Event>, c: Cluster, payload: seq<nat>)
    requires Runs(s, more, c) && s.lead in c.nodes && c.nodes[s.lead].role == Leader
    requires s.term == c.nodes[s.lead].term && s.log == c.nodes[s.lead].log + [EntryOf(c.nodes[s.lead], payload)]
    ensures c.nodes.Keys == s.ids && forall v :: v in s.ids ==> Fresh(s, c.nodes[v])
  {
    RunsPlain(s, more, c);
    forall v | v in s.ids ensures Fresh(s, c.nodes[v]) { NewIsFresh(c, s.lead, v, s, payload); }
  }

  /** The entry is in the leader's log and on its disk. */
  lemma StartTask(s: Task, more: seq<Event>, c: Cluster, payload: seq<nat>) returns (fs: seq<Event>, d: Cluster)
    requires Runs(s, more, c) && Highest(c, s.lead) && c.nodes[s.lead].role == Leader && s.batch >= 1
    requires s.term == c.nodes[s.lead].term && s.log == c.nodes[s.lead].log + [EntryOf(c.nodes[s.lead], payload)]
    ensures Runs(s, fs, d) && Serving(s, d, s.ids - {s.lead})
  {
    var n := Submit(c.nodes[s.lead], payload);
    TaskLogs(s, more, c, payload);
    AllFresh(s, more, c, payload);
    fs, d := TurnOf(s, more, c, SubmitAt(s.lead, payload), (n, {}));
    OwnWrite(s, n);
    fs, d := TurnOf(s, fs, d, WriteDone(s.lead, LeaderWrite(|s.log|)), OnWrite(n, LeaderWrite(|s.log|)));
  }

  lemma Finish(s: Task, more: seq<Event>, c: Cluster, f: Id) returns (fs: seq<Event>, d: Cluster)
    requires Runs(s, more, c) && Serving(s, c, s.ids - {s.lead}) && f in s.ids && f != s.lead
    requires s.log != [] && s.log[|s.log| - 1].term == s.term
    ensures Runs(s, fs, d) && d.nodes.Keys == s.ids && forall v :: v in s.ids ==> HasCommitted(s, d.nodes[v])
  {
    fs, d := ServeAll(s, more, c, s.ids - {s.lead});
    fs, d := Commit(s, fs, d, f);
    var n := d.nodes[s.lead];
    fs, d := Tell(s, fs, d);
    fs, d := TellAll(s, n, fs, d, s.ids - {s.lead});
  }

  /** Index `i` of the node's log holds the payload, and was given to the commit callback. */
  predicate HandedOut(n: Node, i: nat, payload: seq<nat>) {
    0 < i <= |n.log| && n.log[i - 1].payload == payload && i in n.handed
  }

  lemma CommittedIsHanded(s: Task, u: Node, payload: seq<nat>)
    requires HasCommitted(s, u) && NodeDelivers(u) && s.log != [] && s.log[|s.log| - 1].payload == payload
    ensures HandedOut(u, |s.log|, payload)
  {
    assert u.log[..|s.log|][|s.log| - 1] == s.log[|s.log| - 1];
    assert u.handed[|s.log| - 1] == |s.log|;
  }

  lemma Replicate(ids: set<Id>, batch: nat, es: seq<Event>, more: seq<Event>, c: Cluster, l: Id, f: Id,
      payload: seq<nat>) returns (fs: seq<Event>, d: Cluster, i: nat)
    requires GoesOn(ids, batch, es, more, c) && NoCompaction(es) && batch >= 1 && f in ids && f != l
    requires Highest(c, l) && c.nodes[l].role == Leader
    ensures GoesOn(ids, batch, es, fs, d) && d.nodes.Keys == ids
    ensures forall v :: v in ids ==> HandedOut(d.nodes[v], i, payload)
  {
    var s := Task(ids, batch, es, l, c.nodes[l].term, c.nodes[l].log + [EntryOf(c.nodes[l], payload)]);
    fs, d := StartTask(s, more, c, payload);
    fs, d := Finish(s, fs, d, f);
    i := |s.log|;
    RunsPlain(s, fs, d);
    forall v | v in ids ensures HandedOut(d.nodes[v], i, payload) {
      assert NodeDelivers(d.nodes[v]);
      CommittedIsHanded(s, d.nodes[v], payload);
    }
  }

  lemma Another(ids: set<Id>, l: Id) returns (f: Id)
    requires |ids| >= 2
    ensures f in ids && f != l
  {
    if ids - {l} == {} {
      Bigger(ids, {l});
      assert false;
    }
    f :| f in ids - {l};
  }

  /** From every state of every run without compaction, a payload can come to be handed out, at one
      index, by all nodes. */
  lemma EveryPayloadCanCommit(ids: set<Id>, batch: nat, es: seq<Event>, payload: seq<nat>)
      returns (more: seq<Event>, i: nat)
    requires Legal(Start(ids, batch), es) && NoCompaction(es) && |ids| >= 2 && batch >= 1
    ensures es <= more && Legal(Start(ids, batch), more) && After(Start(ids, batch), more).nodes.Keys == ids
    ensures forall v :: v in ids ==> HandedOut(After(Start(ids, batch), more).nodes[v], i, payload)
  {
    var some := Another(ids, 0);
    var l, c;
    l, more, c := SomeoneCanLead(ids, batch, es);
    var f := Another(ids, l);
    more, c, i := Replicate(ids, batch, es, more, c, l, f, payload);
  }

  // ---------------------------------------------------------------- a group of one

  predicate Lonely(m: Msg) { m.VoteReq? || m.VoteResp? }

  /** A node that knows no other: it has committed nothing, and no append is under way. */
  ghost predicate AloneStep(n: Node, r: (Node, set<Msg>)) {
    && n.peers == {n.id} && n.progress.Keys == {n.id} && n.commit == 0
    && (forall w :: w in n.writes ==> !w.FollowerWrite?) ==>
      r.0.commit == 0 && (forall m :: m in r.1 ==> Lonely(m)) && forall w :: w in r.0.writes ==> !w.FollowerWrite?
  }

  lemma SendAllAlone(n: Node)
    requires n.progress.Keys == {n.id}
    ensures SendAll(n).1 == {}
  {
    assert forall id :: id in n.progress ==> id == n.id;
  }

  lemma VoteRespAlone(n: Node, m: Msg)
    requires m.VoteResp?
    ensures AloneStep(n, OnVoteResp(n, m))
  {
    var u := UpdateTerm(n, m.term);
    var v := u.(responded := u.responded + {m.src}, granted := if m.granted then u.granted + {m.src} else u.granted);
    if n.peers == {n.id} { SendAllAlone(Elected(v)); }
    SendAllKeeps(Elected(v));
  }

  lemma WriteAlone(n: Node, w: Write)
    requires !w.FollowerWrite?
    ensures AloneStep(n, OnWrite(n, w))
  {
    if w.LeaderWrite? && n.progress.Keys == {n.id} {
      assert OwnMatch(n, w).progress.Keys == {n.id};
      SendAllAlone(OwnMatch(n, w));
      SendAllKeeps(OwnMatch(n, w));
      assert OnWrite(n, w) == SendAll(OwnMatch(n, w));
    }
  }

  lemma HandleAlone(n: Node, e: Event)
    requires (e.Receive? ==> Lonely(e.msg)) && (e.WriteDone? ==> !e.write.FollowerWrite?)
    ensures AloneStep(n, Handle(n, e))
  {
    match e
    case Receive(m) => if m.VoteResp? { VoteRespAlone(n, m); }
    case WriteDone(_, w) => WriteAlone(n, w); assert Handle(n, e) == OnWrite(n, w);
    case BeatAt(_) => SendAllKeeps(n); if n.progress.Keys == {n.id} { SendAllAlone(n); }
    case CompactAt(_) => ConsistencyKeeps(n, SettledIndex(n, |n.log|));
    case _ =>
  }

  ghost predicate AloneInv(c: Cluster) {
    && (forall m :: m in c.net ==> Lonely(m))
    && forall v :: v in c.nodes ==> c.nodes[v].commit == 0 && forall w :: w in c.nodes[v].writes ==> !w.FollowerWrite?
  }

  /** In a group of one nothing is ever committed: only an answer of another node lets a leader commit. */
  lemma {:induction false} AloneNeverCommits(l: Id, batch: nat, es: seq<Event>)
    requires Legal(Start({l}, batch), es)
    ensures AloneInv(After(Start({l}, batch), es))
  {
    if es != [] {
      var front, e := es[..|es| - 1], es[|es| - 1];
      var c := After(Start({l}, batch), front);
      AloneNeverCommits(l, batch, front);
      EveryRunGroup({l}, batch, front);
      EveryRunTracks({l}, batch, front);
      HandleAlone(c.nodes[Actor(e)], e);
    }
  }
}
