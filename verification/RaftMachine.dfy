/** The Raft node in place.  Each handler is proved equal to its function in RaftNodes. */
module RaftMachines {
  import opened Base
  import opened RaftNodes

  /** The messages to the nodes dealt with so far. */
  ghost function SentTo(n: Node, done: set<Id>): set<Msg> {
    set q | q in done && q in n.progress && q != n.id :: AppendTo(n, q, n.progress[q])
  }

  lemma SentToMore(n: Node, done: set<Id>, q: Id)
    requires q in n.progress
    ensures SentTo(n, done + {q}) == SentTo(n, done) + if q == n.id then {} else {AppendTo(n, q, n.progress[q])}
  {}

  lemma SentToAll(n: Node)
    ensures SentTo(n, n.progress.Keys) == SendAll(n).1
  {}

  /** The progress of the nodes dealt with has moved on, the rest has not. */
  ghost predicate Halfway(n: Node, progress: map<Id, Progress>, todo: set<Id>) {
    && progress.Keys == n.progress.Keys && todo <= progress.Keys
    && forall q :: q in progress ==>
        progress[q] == if q in todo || q == n.id then n.progress[q] else Sent(n, n.progress[q])
  }

  lemma HalfwayDone(n: Node, progress: map<Id, Progress>)
    requires Halfway(n, progress, {})
    ensures SendAll(n).0 == n.(progress := progress)
  {
    assert SendAll(n).0.progress == progress;
  }

  lemma HalfwayStep(n: Node, progress: map<Id, Progress>, todo: set<Id>, q: Id)
    requires Halfway(n, progress, todo) && q in todo
    ensures progress[q] == n.progress[q]
    ensures q == n.id ==> Halfway(n, progress, todo - {q})
    ensures q != n.id ==> Halfway(n, progress[q := Sent(n, n.progress[q])], todo - {q})
  {}

  /** What is sent does not depend on what the sender knows about other nodes. */
  lemma SentAlone(n: Node, progress: map<Id, Progress>, to: Id, p: Progress)
    ensures AppendTo(n.(progress := progress), to, p) == AppendTo(n, to, p)
    ensures Sent(n.(progress := progress), p) == Sent(n, p)
  {}

  class RaftMachine {
    const id: Id
    const peers: set<Id>
    const batch: nat
    var term: nat
    var role: Role
    var voted: Option<Id>
    var responded: set<Id>
    var granted: set<Id>
    var leader: Id
    var log: seq<Entry>
    var base: nat
    var commit: nat
    var progress: map<Id, Progress>
    var writes: multiset<Write>
    var handed: seq<nat>

    ghost function Value(): Node
      reads this
    {
      Node(id, peers, batch, term, role, voted, responded, granted, leader, log, base, commit, progress, writes, handed)
    }

    constructor (id: Id, peers: set<Id>, batch: nat)
      ensures Value() == StartNode(id, peers, batch)
    {
      this.id, this.peers, this.batch := id, peers, batch;
      term, role, voted, responded, granted, leader := 0, Follower, None, {}, {}, 0;
      log, base, commit, writes, handed := [], 0, 0, multiset{}, [];
      progress := map p | p in peers :: Progress(0, 1, 1, false);
    }

    function LastLogIndex(): (r: nat)
      reads this
      ensures r == Last(Value())
    {
      if log == [] then base else base + |log|
    }

    function LastLogTerm(): (r: nat)
      reads this
      ensures r == LastTerm(Value())
    {
      if log == [] then 0 else log[|log| - 1].term
    }

    // -------------------------------------------------------------- commit and compaction

    method UpdateCommitIndex(index: nat)
      modifies this`commit, this`handed
      ensures Value() == UpdateCommit(old(Value()), index)
    {
      if index <= commit || log == [] { return; }
      var upto := Min(base + |log|, index);
      if upto <= commit || upto <= base { return; }
      var from := if commit < base then 0 else commit - base;
      HandOut(log[from..upto - base]);
      commit := upto;
    }

    /** Give the entries to the commit callback, in order. */
    method HandOut(es: seq<Entry>)
      modifies this`handed
      ensures handed == old(handed) + Indices(es)
    {
      for i := 0 to |es|
        invariant handed == old(handed) + Indices(es[..i])
      {
        assert Indices(es[..i + 1]) == Indices(es[..i]) + [es[i].index];
        handed := handed + [es[i].index];
      }
      assert es[..|es|] == es;
    }

    method UpdateConsistencyIndex(index: nat)
      modifies this`base, this`log
      ensures Value() == UpdateConsistency(old(Value()), index)
    {
      if index < base + 10 || index > LastLogIndex() { return; }
      log := log[index - 10 - base..];
      base := index - 10;
    }

    // -------------------------------------------------------------- elections

    method TimeoutRequestVote()
      modifies this
      ensures Value() == Timeout(old(Value()))
    {
      if role == Leader { return; }
      role, term, voted, leader := Candidate, term + 1, None, 0;
      responded, granted := {}, {};
      writes := writes + multiset{VoteWrite};
    }

    method SendVoteRequests() returns (out: set<Msg>)
      ensures out == RequestVote(Value())
    {
      out := {};
      if role != Candidate { return; }
      var todo := peers;
      while todo != {}
        invariant todo <= peers
        invariant out == set p | p in peers - todo - responded :: VoteReq(id, p, term, Last(Value()), LastTerm(Value()))
      {
        var p :| p in todo;
        if p !in responded {
          assert peers - (todo - {p}) - responded == peers - todo - responded + {p};
          out := out + {VoteReq(id, p, term, LastLogIndex(), LastLogTerm())};
        } else {
          assert peers - (todo - {p}) - responded == peers - todo - responded;
        }
        todo := todo - {p};
      }
      assert peers - todo - responded == peers - responded;
    }

    method AdvanceTerm(t: nat)
      modifies this`term, this`voted, this`role
      ensures Value() == UpdateTerm(old(Value()), t)
    {
      if t <= term { return; }
      term, voted, role := t, None, Follower;
    }

    method HandleRequestVoteRequest(m: Msg) returns (out: set<Msg>)
      requires m.VoteReq?
      modifies this
      ensures (Value(), out) == OnVoteReq(old(Value()), m)
    {
      AdvanceTerm(m.term);
      var lastTerm, lastIndex := LastLogTerm(), LastLogIndex();
      var logOk := m.lastTerm > lastTerm || (m.lastTerm == lastTerm && m.lastIndex >= lastIndex);
      var grant := m.term == term && logOk && ((voted.Some? && voted.value == m.src) || voted.None?);
      if grant { voted := Some(m.src); }
      out := {VoteResp(id, m.src, term, grant)};
    }

    method HandleRequestVoteResponse(m: Msg) returns (out: set<Msg>)
      requires m.VoteResp?
      modifies this
      ensures (Value(), out) == OnVoteResp(old(Value()), m)
    {
      out := {};
      AdvanceTerm(m.term);
      if m.term != term { return; }
      responded := responded + {m.src};
      if m.granted { granted := granted + {m.src}; }
      if role == Candidate && |granted| * 2 > |peers| {
        out := TakeLead();
      }
    }

    method TakeLead() returns (out: set<Msg>)
      modifies this
      ensures (Value(), out) == BecomeLeader(old(Value()))
    {
      var last := LastLogIndex();
      role, leader := Leader, id;
      ghost var before := progress;
      var todo, reset := peers, map[];
      while todo != {}
        invariant todo <= peers && reset.Keys == peers - todo && progress == before
        invariant forall p :: p in reset ==>
          reset[p] == Progress(last, last + 1, 0, p in before && before[p].lastReject)
      {
        var p :| p in todo;
        reset := reset[p := Progress(last, last + 1, 0, p in progress && progress[p].lastReject)];
        todo := todo - {p};
      }
      progress := reset;
      assert progress == Elected(old(Value())).progress;
      out := LeaderSendAppendEntries();
    }

    // -------------------------------------------------------------- replication

    /** Build the next message for one node and remember how far it reaches. */
    method AppendEntries(to: Id) returns (m: Msg)
      requires to in progress
      modifies this`progress
      ensures m == AppendTo(old(Value()), to, old(progress)[to])
      ensures progress == old(progress)[to := Sent(old(Value()), old(progress)[to])]
    {
      var next, p := Pace(progress[to]);
      var prev := if next == 0 then 0 else next - 1;
      var prevTerm := TermOf(prev);
      var es := Entries(next);
      if es != [] && es[|es| - 1].index > 0 { p := p.(sendNext := es[|es| - 1].index + 1); }
      m := AppendReq(id, to, term, prev, prevTerm, commit, base, es);
      progress := progress[to := p];
    }

    method TermOf(index: nat) returns (t: nat)
      ensures t == TermAt(Value(), index)
    {
      t := 0;
      if index > base {
        var off := index - base - 1;
        if off < |log| { t := log[off].term; }
      }
    }

    method Entries(next: nat) returns (es: seq<Entry>)
      ensures forall p :: SendFrom(p) == next ==> es == SliceFor(Value(), p)
    {
      es := [];
      if next == 0 {
        es := CopyFrom(0);
      } else if next > base {
        es := CopyFrom(next - base - 1);
      }
    }

    /** From which index to send: after what was sent already, unless it was rejected. */
    method Pace(p: Progress) returns (next: nat, q: Progress)
      ensures next == SendFrom(p)
      ensures q == p.(sendNext := if p.next == 0 then p.sendNext else next)
    {
      next, q := p.next, p;
      if next != 0 {
        if !p.lastReject {
          if next < p.sendNext { next := p.sendNext; }
          else if next != p.sendNext { q := p.(sendNext := next); }
        } else {
          q := p.(sendNext := next);
        }
      }
    }

    method CopyFrom(start: nat) returns (es: seq<Entry>)
      ensures es == Slice(log, start, batch)
    {
      es := [];
      var off, i := start, 0;
      while off < |log| && i < batch
        invariant start <= off && i == off - start && i <= batch && (off <= |log| || off == start)
        invariant es == if start <= |log| then log[start..off] else []
      {
        es := es + [log[off]];
        off, i := off + 1, i + 1;
      }
    }

    method LeaderSendAppendEntries() returns (out: set<Msg>)
      modifies this`progress
      ensures (Value(), out) == SendAll(old(Value()))
    {
      ghost var n := Value();
      var todo := progress.Keys;
      out := {};
      while todo != {}
        invariant Value() == n.(progress := progress) && Halfway(n, progress, todo)
        invariant out == SentTo(n, n.progress.Keys - todo)
      {
        var q :| q in todo;
        SentToMore(n, n.progress.Keys - todo, q);
        assert n.progress.Keys - (todo - {q}) == n.progress.Keys - todo + {q};
        HalfwayStep(n, progress, todo, q);
        SentAlone(n, progress, q, progress[q]);
        if q != id {
          var m := AppendEntries(q);
          out := out + {m};
        }
        todo := todo - {q};
      }
      assert n.progress.Keys - todo == n.progress.Keys;
      SentToAll(n);
      HalfwayDone(n, progress);
    }

    method LeaderAppendEntry(payload: seq<nat>) returns (ok: bool)
      modifies this`log, this`writes
      ensures Value() == Submit(old(Value()), payload) && (ok <==> role == Leader)
    {
      if role != Leader { return false; }
      var index := base + |log| + 1;
      log := log + [Entry(index, term, payload)];
      writes := writes + multiset{LeaderWrite(index)};
      ok := true;
    }

    method SendHeartBeat() returns (out: set<Msg>)
      modifies this`progress
      ensures (Value(), out) == HeartBeat(old(Value()))
    {
      if role != Leader { return {}; }
      out := LeaderSendAppendEntries();
    }

    method HandleTransferLeader(to: Id) returns (out: set<Msg>)
      modifies this`progress
      ensures (Value(), out) == Nudge(old(Value()), to)
    {
      out := {};
      if role == Follower || to == id || to !in progress { return; }
      if progress[to].matched != LastLogIndex() {
        var m := AppendEntries(to);
        out := {m};
      }
    }

    /** Where the request's entries and the log first disagree in term, or run out. */
    method Compare(es: seq<Entry>, off: nat, skip: nat) returns (conflict: bool, logI: nat, reqI: nat)
      requires off <= |log|
      ensures conflict <==> !Agree(log, off, es, skip)
      ensures !conflict ==> logI - off == reqI - skip && off <= logI <= |log| && (logI == |log| || reqI >= |es|)
      ensures !conflict && skip <= |es| ==> reqI <= |es|
      ensures !conflict && skip > |es| ==> reqI == skip
    {
      logI, reqI := off, skip;
      while logI < |log| && reqI < |es|
        invariant off <= logI <= |log| && logI - off == reqI - skip
        invariant forall i :: off <= i < logI ==> skip + (i - off) < |es| && log[i].term == es[skip + (i - off)].term
        invariant skip <= |es| ==> reqI <= |es|
        invariant skip > |es| ==> reqI == skip
      {
        if es[reqI].term != log[logI].term {
          assert log[logI].term != es[skip + (logI - off)].term;
          return true, logI, reqI;
        }
        logI, reqI := logI + 1, reqI + 1;
      }
      conflict := false;
    }

    method PushEntries(es: seq<Entry>, from: nat)
      requires from <= |es|
      modifies this`log
      ensures log == old(log) + es[from..]
    {
      var i := from;
      while i < |es|
        invariant from <= i <= |es| && log == old(log) + es[from..i]
      {
        log := log + [es[i]];
        i := i + 1;
      }
      assert es[from..i] == es[from..];
    }

    method StoreEntries(m: Msg) returns (out: set<Msg>)
      requires m.AppendReq? && LogOk(Value(), m.prev, m.prevTerm) && m.entries != []
      modifies this
      ensures (Value(), out) == Store(old(Value()), m)
    {
      var off, skip := 0, 0;
      if m.prev <= base { skip := base - m.prev; } else { off := m.prev - base; }
      if |log| > off {
        out := StoreOver(m, off, skip);
      } else {
        StoreBehind(m, off, skip);
        out := {};
      }
    }

    /** The request starts where the log ends: append what is new. */
    method StoreBehind(m: Msg, off: nat, skip: nat)
      requires m.AppendReq? && |log| == off
      modifies this`log, this`writes
      ensures (Value(), {}) == StoreAt(old(Value()), m, off, skip)
    {
      var num := 0;
      if skip < |m.entries| {
        PushEntries(m.entries, skip);
        num := |m.entries| - skip;
      }
      writes := writes + multiset{FollowerWrite(m.src, m.prev + skip + num, m.commit, m.consistency)};
    }

    /** The request starts inside the log: compare where both have entries, then append or cut. */
    method StoreOver(m: Msg, off: nat, skip: nat) returns (out: set<Msg>)
      requires m.AppendReq? && |log| > off
      modifies this
      ensures (Value(), out) == StoreAt(old(Value()), m, off, skip)
    {
      out := {};
      var conflict, logI, reqI := Compare(m.entries, off, skip);
      if conflict {
        log := log[..off];
      } else if reqI < |m.entries| {
        assert logI == |log| && reqI == skip + (|log| - off);
        PushEntries(m.entries, reqI);
        writes := writes + multiset{FollowerWrite(m.src, m.prev + |m.entries|, m.commit, m.consistency)};
      } else {
        assert skip + (|log| - off) >= |m.entries|;
        out := {AppendResp(id, m.src, term, true, m.prev + reqI, true)};
        CatchUp(m.commit, m.consistency);
      }
    }

    method HandleAppendEntriesRequest(m: Msg) returns (out: set<Msg>)
      requires m.AppendReq?
      modifies this
      ensures (Value(), out) == OnAppendReq(old(Value()), m)
    {
      out := {};
      if m.term < term {
        out := {AppendResp(id, m.src, term, false, 0, m.entries == [])};
        return;
      } else if m.term > term {
        term, role := m.term, Follower;
        return;
      }
      leader := m.src;
      if role == Leader { return; }
      if role == Candidate { role := Follower; return; }
      var logOk := m.prev <= base || (m.prev <= LastLogIndex() && log[m.prev - base - 1].term == m.prevTerm);
      if !logOk {
        out := {AppendResp(id, m.src, term, false, 0, m.entries == [])};
      } else if m.entries == [] {
        out := {AppendResp(id, m.src, term, true, if m.prev <= base then base else m.prev, true)};
        CatchUp(m.commit, m.consistency);
      } else {
        out := StoreEntries(m);
      }
    }

    /** How many nodes are known to have the log up to `index`. */
    method CountMatching(index: nat) returns (n: nat)
      ensures n == |Matching(Value(), index)|
    {
      n := 0;
      var todo := peers;
      ghost var found: set<Id> := {};
      while todo != {}
        invariant todo <= peers && n == |found|
        invariant found == set p | p in peers - todo && p in progress && progress[p].matched >= index
      {
        var p :| p in todo;
        if p in progress && progress[p].matched >= index {
          n := n + 1;
          found := found + {p};
        }
        todo := todo - {p};
      }
      assert found == Matching(Value(), index);
    }

    method LeaderAdvanceCommitIndex()
      modifies this`commit, this`handed
      ensures Value() == AdvanceCommit(old(Value()))
    {
      if role != Leader { return; }
      var index := 0;
      var k := |log|;
      while k > 0
        invariant 0 <= k <= |log| && index == 0 && Value() == old(Value())
        invariant MajorityIndex(Value(), |log|) == MajorityIndex(Value(), k)
      {
        var n := CountMatching(base + k);
        if n * 2 > |peers| {
          index := base + k;
          break;
        }
        k := k - 1;
      }
      assert index == MajorityIndex(Value(), |log|) && Value() == old(Value());
      assert index > 0 ==> TermAt(Value(), index) == log[index - base - 1].term;
      if index > 0 && log[index - base - 1].term <= term {
        UpdateCommitIndex(index);
      }
    }

    method HandleAppendEntriesResponse(m: Msg)
      requires m.AppendResp?
      modifies this
      ensures Value() == OnAppendResp(old(Value()), m)
    {
      AdvanceTerm(m.term);
      if m.src !in progress || m.term != term { return; }
      var p := progress[m.src].(lastReject := !m.success);
      if m.success {
        if p.matched < m.matched { p := p.(matched := m.matched); }
        if p.next < m.matched + 1 { p := p.(next := m.matched + 1); }
        progress := progress[m.src := p];
        if !m.heartBeat { LeaderAdvanceCommitIndex(); }
      } else {
        if p.next > 1 && p.next - 1 > base { p := p.(next := p.next - 1); }
        progress := progress[m.src := p];
      }
    }

    /** A write has completed: run what was left to do after it. */
    method OnWritten(w: Write) returns (out: set<Msg>)
      requires w in writes
      modifies this
      ensures (Value(), out) == OnWrite(old(Value()), w)
    {
      writes := writes - multiset{w};
      match w {
        case VoteWrite => out := SendVoteRequests();
        case LeaderWrite(index) =>
          if id in progress { progress := progress[id := progress[id].(matched := index, next := index + 1)]; }
          out := LeaderSendAppendEntries();
        case FollowerWrite(to, matched, upto, consistency) =>
          out := {AppendResp(id, to, term, true, matched, false)};
          CatchUp(upto, consistency);
      }
    }

    method CatchUp(upto: nat, consistency: nat)
      modifies this`commit, this`handed, this`base, this`log
      ensures Value() == UpdateConsistency(UpdateCommit(old(Value()), upto), consistency)
    {
      UpdateCommitIndex(upto);
      UpdateConsistencyIndex(consistency);
    }

    method CountSettled(index: nat) returns (n: nat)
      ensures n == |Settled(Value(), index)|
    {
      n := 0;
      var todo := peers;
      ghost var found: set<Id> := {};
      while todo != {}
        invariant todo <= peers && n == |found|
        invariant found == set p |
          p in peers - todo && p in progress && progress[p].matched >= index && progress[p].next >= index
      {
        var p :| p in todo;
        if p in progress && progress[p].matched >= index && progress[p].next >= index {
          n := n + 1;
          found := found + {p};
        }
        todo := todo - {p};
      }
      assert found == Settled(Value(), index);
    }

    method LeaderAdvanceConsistencyIndex()
      modifies this`base, this`log
      ensures Value() == Compact(old(Value()))
    {
      if role != Leader { return; }
      var index, found := 0, 0;
      var k := |log|;
      while k > 0
        invariant 0 <= k <= |log| && index == 0 && found == 0 && Value() == old(Value())
        invariant SettledIndex(Value(), |log|) == SettledIndex(Value(), k)
      {
        var n := CountSettled(base + k);
        if n == |peers| {
          found := base + k;
          if |log| > 1 && commit >= found { index := found; }
          break;
        }
        k := k - 1;
      }
      assert found == SettledIndex(Value(), |log|) && Value() == old(Value());
      assert found > 0 ==> TermAt(Value(), found) == log[found - base - 1].term;
      if index > 0 && log[index - base - 1].term == term {
        UpdateConsistencyIndex(index);
      }
    }
  }
}
