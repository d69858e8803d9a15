/** Commit delivery in every run, compaction included: a node's log never has a gap,
    and the indices handed to the commit callback are 1, 2, 3, ... each once. */
module RaftDelivery {
  import opened RaftNodes
  import opened RaftCluster

  /** The entries after index `from`, none left out, each written by the leader of some term. */
  ghost predicate Consecutive(es: seq<Entry>, from: nat) {
    forall k :: 0 <= k < |es| ==> es[k].index == from + k + 1 && es[k].term > 0
  }

  ghost predicate Counted(handed: seq<nat>, upto: nat) {
    |handed| == upto && forall k :: 0 <= k < upto ==> handed[k] == k + 1
  }

  ghost predicate NodeDelivers(n: Node) {
    && Consecutive(n.log, n.base) && n.base <= n.commit && Counted(n.handed, n.commit)
    && (n.role != Follower ==> n.term > 0)
    && (forall q :: q in n.progress ==> n.progress[q].next >= 1)
    && (forall w :: w in n.writes && w.FollowerWrite? ==> w.consistency <= w.commit)
  }

  ghost predicate MsgDelivers(m: Msg) {
    m.AppendReq? ==> Consecutive(m.entries, m.prev) && m.consistency <= m.commit
  }

  ghost predicate Delivers(n: Node, r: (Node, set<Msg>)) {
    NodeDelivers(n) ==> NodeDelivers(r.0) && forall m :: m in r.1 ==> MsgDelivers(m)
  }

  lemma CommitDelivers(n: Node, index: nat)
    requires NodeDelivers(n)
    ensures NodeDelivers(UpdateCommit(n, index))
    ensures n.log != [] ==> UpdateCommit(n, index).commit >= Min(Last(n), index)
  {
    var upto := Min(Last(n), index);
    if index <= n.commit || n.log == [] || upto <= n.commit || upto <= n.base {
    } else {
      var part := n.log[n.commit - n.base..upto - n.base];
      assert UpdateCommit(n, index).handed == n.handed + Indices(part);
    }
  }

  lemma ConsistencyDelivers(n: Node, index: nat)
    requires NodeDelivers(n) && (n.log != [] ==> n.commit >= Min(Last(n), index))
    ensures NodeDelivers(UpdateConsistency(n, index))
  {}

  lemma BothDeliver(n: Node, commit: nat, consistency: nat)
    requires NodeDelivers(n) && consistency <= commit
    ensures NodeDelivers(UpdateConsistency(UpdateCommit(n, commit), consistency))
  {
    CommitDelivers(n, commit);
    CommitKeeps(n, commit);
    ConsistencyDelivers(UpdateCommit(n, commit), consistency);
  }

  lemma AppendToDelivers(n: Node, to: Id, p: Progress)
    requires NodeDelivers(n) && p.next >= 1
    ensures MsgDelivers(AppendTo(n, to, p))
  {}

  lemma SendAllDelivers(n: Node)
    ensures Delivers(n, SendAll(n))
  {
    if NodeDelivers(n) {
      forall m | m in SendAll(n).1 ensures MsgDelivers(m) {
        var id :| id in n.progress && id != n.id && m == AppendTo(n, id, n.progress[id]);
        AppendToDelivers(n, id, n.progress[id]);
      }
      SendAllKeeps(n);
    }
  }

  lemma LongerConsecutive(log: seq<Entry>, base: nat, off: nat, es: seq<Entry>, skip: nat, prev: nat)
    requires Consecutive(log, base) && Consecutive(es, prev) && off <= |log| && base + off == prev + skip
    ensures Consecutive(Longer(log, off, es, skip), base)
  {
    var later := Longer(log, off, es, skip);
    forall k | 0 <= k < |later| ensures later[k].index == base + k + 1 && later[k].term > 0 {
      if k >= |log| { assert later[k] == es[skip + (k - off)]; }
    }
  }

  lemma StoreAtDelivers(n: Node, m: Msg, off: nat, skip: nat)
    requires m.AppendReq? && NodeDelivers(n) && MsgDelivers(m) && off <= |n.log| && n.base + off == m.prev + skip
    ensures NodeDelivers(StoreAt(n, m, off, skip).0)
  {
    LongerConsecutive(n.log, n.base, off, m.entries, skip, m.prev);
    BothDeliver(n, m.commit, m.consistency);
  }

  lemma StoreDelivers(n: Node, m: Msg)
    requires m.AppendReq? && LogOk(n, m.prev, m.prevTerm) && MsgDelivers(m)
    ensures Delivers(n, Store(n, m))
  {
    if NodeDelivers(n) {
      StoreAtDelivers(n, m, Place(n, m.prev).0, Place(n, m.prev).1);
      StoreKeepsBallot(n, m);
    }
  }

  lemma AppendReqDelivers(n: Node, m: Msg)
    requires m.AppendReq? && MsgDelivers(m)
    ensures Delivers(n, OnAppendReq(n, m))
  {
    var u := n.(leader := m.src);
    if NodeDelivers(n) && m.term == n.term && n.role == Follower && LogOk(u, m.prev, m.prevTerm) {
      if m.entries == [] {
        BothDeliver(u, m.commit, m.consistency);
      } else {
        StoreDelivers(u, m);
        assert OnAppendReq(n, m) == Store(u, m);
      }
    }
  }

  lemma AdvanceDelivers(n: Node)
    requires NodeDelivers(n)
    ensures NodeDelivers(AdvanceCommit(n))
  {
    CommitDelivers(n, MajorityIndex(n, |n.log|));
  }

  lemma AppendRespDelivers(n: Node, m: Msg)
    requires m.AppendResp? && NodeDelivers(n)
    ensures NodeDelivers(OnAppendResp(n, m))
  {
    var u := UpdateTerm(n, m.term);
    if m.src in u.progress && m.term == u.term {
      AdvanceDelivers(u.(progress := u.progress[m.src := Learn(u.progress[m.src], m, u.base)]));
    }
  }

  lemma VoteRespDelivers(n: Node, m: Msg)
    requires m.VoteResp?
    ensures Delivers(n, OnVoteResp(n, m))
  {
    var u := UpdateTerm(n, m.term);
    var v := u.(responded := u.responded + {m.src}, granted := if m.granted then u.granted + {m.src} else u.granted);
    SendAllDelivers(Elected(v));
  }

  lemma OwnMatchDelivers(n: Node, w: Write)
    requires w.LeaderWrite? && NodeDelivers(n)
    ensures NodeDelivers(OwnMatch(n, w))
  {}

  lemma WriteDelivers(n: Node, w: Write)
    requires w in n.writes && NodeDelivers(n)
    ensures Delivers(n, OnWrite(n, w))
  {
    var u := n.(writes := n.writes - multiset{w});
    if w.VoteWrite? {
      assert OnWrite(n, w) == (u, RequestVote(u));
    } else if w.LeaderWrite? {
      OwnMatchDelivers(n, w);
      SendAllDelivers(OwnMatch(n, w));
      assert OnWrite(n, w) == SendAll(OwnMatch(n, w));
    } else {
      BothDeliver(u, w.commit, w.consistency);
      assert OnWrite(n, w).0 == UpdateConsistency(UpdateCommit(u, w.commit), w.consistency);
    }
  }

  lemma CompactDelivers(n: Node)
    requires NodeDelivers(n)
    ensures NodeDelivers(Compact(n))
  {
    if n.commit >= SettledIndex(n, |n.log|) { ConsistencyDelivers(n, SettledIndex(n, |n.log|)); }
  }

  lemma NudgeDelivers(n: Node, to: Id)
    ensures Delivers(n, Nudge(n, to))
  {
    if NodeDelivers(n) && to in n.progress { AppendToDelivers(n, to, n.progress[to]); }
  }

  lemma LocalDelivers(n: Node, e: Event)
    requires e.TimeoutAt? || e.SubmitAt? || e.BeatAt?
    ensures Delivers(n, Handle(n, e))
  {
    if e.BeatAt? { SendAllDelivers(n); }
  }

  lemma HandleDelivers(n: Node, e: Event)
    requires (e.Receive? ==> MsgDelivers(e.msg)) && (e.WriteDone? ==> e.write in n.writes) && NodeDelivers(n)
    ensures Delivers(n, Handle(n, e))
  {
    match e
    case Receive(m) =>
      match m {
        case VoteReq(_, _, _, _, _) =>
        case VoteResp(_, _, _, _) => VoteRespDelivers(n, m);
        case AppendReq(_, _, _, _, _, _, _, _) => AppendReqDelivers(n, m);
        case AppendResp(_, _, _, _, _, _) => AppendRespDelivers(n, m);
      }
    case WriteDone(_, w) => WriteDelivers(n, w); assert Handle(n, e) == OnWrite(n, w);
    case NudgeAt(_, to) => NudgeDelivers(n, to); assert Handle(n, e) == Nudge(n, to);
    case CompactAt(_) => CompactDelivers(n);
    case _ => LocalDelivers(n, e);
  }

  ghost predicate DeliveryInv(c: Cluster) {
    && (forall id :: id in c.nodes ==> NodeDelivers(c.nodes[id]))
    && (forall m :: m in c.net ==> MsgDelivers(m))
  }

  lemma NextDelivers(c: Cluster, e: Event)
    requires DeliveryInv(c) && Enabled(c, e)
    ensures DeliveryInv(Next(c, e))
  {
    HandleDelivers(c.nodes[Actor(e)], e);
  }

  lemma {:induction false} EveryRunDelivers(ids: set<Id>, batch: nat, es: seq<Event>)
    requires Legal(Start(ids, batch), es)
    ensures DeliveryInv(After(Start(ids, batch), es))
  {
    if es != [] {
      EveryRunDelivers(ids, batch, es[..|es| - 1]);
      NextDelivers(After(Start(ids, batch), es[..|es| - 1]), es[|es| - 1]);
    }
  }

  /** The log of every node is gapless after its compacted part, and the node has handed
      out exactly the indices 1 up to its commit index, in order. */
  lemma GaplessDelivery(ids: set<Id>, batch: nat, es: seq<Event>, id: Id)
    requires Legal(Start(ids, batch), es) && id in After(Start(ids, batch), es).nodes
    ensures var n := After(Start(ids, batch), es).nodes[id];
      && (forall k :: 0 <= k < |n.log| ==> n.log[k].index == n.base + k + 1 && n.log[k].term > 0)
      && |n.handed| == n.commit && (forall k :: 0 <= k < n.commit ==> n.handed[k] == k + 1)
      && n.base <= n.commit
  {
    EveryRunDelivers(ids, batch, es);
  }
}
