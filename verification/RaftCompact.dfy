/** Compaction: a leader drops only entries that every node has held, with ten more after them; and
    from every state of every run without compaction it can come to do so. */
module RaftCompact {
  import opened RaftNodes
  import opened RaftCluster
  import opened RaftLogs
  import opened RaftCommit
  import opened RaftVotes
  import opened RaftReach
  import opened RaftReplicate

  // ---------------------------------------------------------------- what is dropped

  /** The leader knows that all nodes have its log up to `i`, and sends them only what follows. */
  ghost predicate KnownEverywhere(n: Node, i: nat) {
    forall q :: q in n.peers ==> q in n.progress && n.progress[q].matched >= i && n.progress[q].next >= i
  }

  lemma SettledIsKnown(n: Node, i: nat)
    ensures |RaftNodes.Settled(n, i)| == |n.peers| <==> KnownEverywhere(n, i)
  {
    var s := RaftNodes.Settled(n, i);
    assert n.peers == s + (n.peers - s);
    assert s == n.peers <==> KnownEverywhere(n, i);
  }

  /** The search finds the highest such index. */
  lemma {:induction false} SettledIndexIs(n: Node, k: nat, i: nat)
    requires n.base < i <= n.base + k && KnownEverywhere(n, i)
    ensures i <= SettledIndex(n, k) <= n.base + k && KnownEverywhere(n, SettledIndex(n, k))
  {
    SettledIsKnown(n, n.base + k);
    if !KnownEverywhere(n, n.base + k) { SettledIndexIs(n, k - 1, i); }
  }

  lemma {:induction false} SettledIndexHas(n: Node, k: nat)
    requires SettledIndex(n, k) > 0
    ensures n.base < SettledIndex(n, k) <= n.base + k && KnownEverywhere(n, SettledIndex(n, k))
  {
    SettledIsKnown(n, n.base + k);
    if !KnownEverywhere(n, n.base + k) { SettledIndexHas(n, k - 1); }
  }

  /** A compaction up to ten entries before `i`. */
  ghost predicate CompactedTo(n: Node, u: Node, i: nat) {
    && n.role == Leader && n.base + 10 <= i <= Last(n) && i <= n.commit && KnownEverywhere(n, i)
    && n.log[i - n.base - 1].term == n.term
    && u == n.(base := i - 10, log := n.log[i - 10 - n.base..])
  }

  lemma CompactIs(n: Node)
    ensures Compact(n) == n || CompactedTo(n, Compact(n), SettledIndex(n, |n.log|))
  {
    if SettledIndex(n, |n.log|) > 0 { SettledIndexHas(n, |n.log|); }
  }

  lemma DroppedWasHeld(c: Cluster, l: Id, i: nat, q: Id)
    requires AllInv(c) && l in c.nodes && q in c.nodes && 0 < i <= |c.nodes[l].log| && c.nodes[l].role == Leader
    requires KnownEverywhere(c.nodes[l], i) && c.nodes[l].log[i - 1].term == c.nodes[l].term
    ensures Held(c.seen, q, c.nodes[l].term, c.nodes[l].log[..i])
  {
    var n := c.nodes[l];
    assert NodeVotes(c.net, c.nodes.Keys, l, n) && NodeSync(c.book, c.seen, n);
    assert ReignOk(c, n.term) && ReignSync(c.book[n.term], n.term);
    assert q in Matching(n, i);
    MatchingHeld(c.book, c.seen, n, q, i, i);
  }

  lemma CompactedHeld(c: Cluster, l: Id, q: Id)
    requires AllInv(c) && l in c.nodes && q in c.nodes
    ensures var n, u := c.nodes[l], Compact(c.nodes[l]);
      u.base > 0 ==> u.base + 10 <= |n.log| && Held(c.seen, q, n.term, n.log[..u.base + 10])
  {
    assert Plain(c.nodes[l]);
    CompactIs(c.nodes[l]);
    if Compact(c.nodes[l]).base > 0 { DroppedWasHeld(c, l, Compact(c.nodes[l]).base + 10, q); }
  }

  lemma CompactStep(c: Cluster, l: Id)
    requires l in c.nodes
    ensures Enabled(c, CompactAt(l)) && Next(c, CompactAt(l)).nodes[l] == Compact(c.nodes[l])
  {}

  /** A leader that compacts after a prompt run drops entries that every node has held, in the
      leader's term and together with the ten entries after them. */
  lemma CompactionIsSafe(ids: set<Id>, batch: nat, es: seq<Event>, l: Id, q: Id)
    requires PromptRun(Start(ids, batch), es) && l in ids && q in ids
    ensures l in After(Start(ids, batch), es).nodes
    ensures var n := After(Start(ids, batch), es).nodes[l];
      var u := Next(After(Start(ids, batch), es), CompactAt(l)).nodes[l];
      u.base > 0 ==> u.base + 10 <= |n.log| && WasHeld(ids, batch, es, q, n.term, n.log[..u.base + 10])
  {
    var c := After(Start(ids, batch), es);
    assert AllInv(c) && c.nodes.Keys == ids by { EveryPromptRun(ids, batch, es); EveryRunElects(ids, batch, es); }
    var n := c.nodes[l];
    CompactedHeld(c, l, q);
    CompactStep(c, l);
    if Compact(n).base > 0 { HeldHappened(ids, batch, es, q, n.term, n.log[..Compact(n).base + 10]); }
  }

  // ---------------------------------------------------------------- it does happen

  lemma {:induction false} SubmitMany(ids: set<Id>, batch: nat, es: seq<Event>, more: seq<Event>, c: Cluster, l: Id,
      k: nat) returns (fs: seq<Event>, d: Cluster)
    requires GoesOn(ids, batch, es, more, c) && Highest(c, l) && c.nodes[l].role == Leader
    ensures GoesOn(ids, batch, es, fs, d) && Highest(d, l) && d.nodes[l].role == Leader && |d.nodes[l].log| >= k
    decreases k
  {
    fs, d := more, c;
    if k > 0 {
      fs, d := SubmitMany(ids, batch, es, more, c, l, k - 1);
      var r := (Submit(d.nodes[l], []), {});
      Turn(ids, batch, es, fs, d, SubmitAt(l, []), r);
      fs, d := fs + [SubmitAt(l, [])], Moved(d, l, r);
    }
  }

  lemma CompactsKnown(s: Task, n: Node)
    requires Boss(s, n) && KnownEverywhere(n, |s.log|) && |s.log| >= 10 && n.commit >= |s.log|
    requires s.log[|s.log| - 1].term == s.term
    ensures Compact(n).base == |s.log| - 10 && Compact(n).log == s.log[|s.log| - 10..]
  {
    SettledIndexIs(n, |n.log|, |s.log|);
  }

  /** A leader that has committed its whole log and knows it everywhere keeps ten entries. */
  lemma CommittedCompacts(s: Task, c: Cluster)
    requires Committed(s, c) && |s.log| >= 10 && s.log[|s.log| - 1].term == s.term
    ensures Compact(c.nodes[s.lead]).base == |s.log| - 10
    ensures Compact(c.nodes[s.lead]).log == s.log[|s.log| - 10..]
  {
    var n := c.nodes[s.lead];
    forall q | q in n.peers
      ensures q in n.progress && n.progress[q].matched >= |s.log| && n.progress[q].next >= |s.log|
    {
      AllMatched(s, c, q);
    }
    CompactsKnown(s, n);
  }

  lemma CommitTask(s: Task, more: seq<Event>, c: Cluster, f: Id) returns (fs: seq<Event>, d: Cluster)
    requires Runs(s, more, c) && Serving(s, c, s.ids - {s.lead}) && f in s.ids && f != s.lead
    requires s.log != [] && s.log[|s.log| - 1].term == s.term
    ensures Runs(s, fs, d) && Committed(s, d)
  {
    fs, d := ServeAll(s, more, c, s.ids - {s.lead});
    fs, d := Commit(s, fs, d, f);
  }

  lemma CompactTask(ids: set<Id>, batch: nat, es: seq<Event>, more: seq<Event>, c: Cluster, l: Id, f: Id)
      returns (fs: seq<Event>, d: Cluster)
    requires GoesOn(ids, batch, es, more, c) && NoCompaction(es) && batch >= 1 && f in ids && f != l
    requires Highest(c, l) && c.nodes[l].role == Leader && |c.nodes[l].log| >= 10
    ensures GoesOn(ids, batch, es, fs, d) && l in d.nodes && Compact(d.nodes[l]).base > 0
    ensures |Compact(d.nodes[l]).log| == 10
  {
    var s := Task(ids, batch, es, l, c.nodes[l].term, c.nodes[l].log + [EntryOf(c.nodes[l], [])]);
    fs, d := StartTask(s, more, c, []);
    fs, d := CommitTask(s, fs, d, f);
    CommittedCompacts(s, d);
  }

  /** From every state of every run without compaction, a leader can come to compact its log. */
  lemma CompactionCanHappen(ids: set<Id>, batch: nat, es: seq<Event>) returns (more: seq<Event>, l: Id)
    requires Legal(Start(ids, batch), es) && NoCompaction(es) && |ids| >= 2 && batch >= 1
    ensures es <= more && Legal(Start(ids, batch), more) && l in After(Start(ids, batch), more).nodes
    ensures After(Start(ids, batch), more).nodes[l].base > 0 && |After(Start(ids, batch), more).nodes[l].log| == 10
  {
    var some := Another(ids, 0);
    var c;
    l, more, c := SomeoneCanLead(ids, batch, es);
    more, c := SubmitMany(ids, batch, es, more, c, l, 10);
    var f := Another(ids, l);
    more, c := CompactTask(ids, batch, es, more, c, l, f);
    CompactStep(c, l);
    OneMore(ids, batch, more, CompactAt(l));
    more := more + [CompactAt(l)];
  }
}
