/** One Raft node: what each message, timeout, client request and completed write
    does to it.  Log writes are asynchronous: what a handler does after a write is
    kept in `writes` until the write completes.  RaftMachine.dfy computes these
    functions in place; RaftCluster.dfy runs many nodes. */
module RaftNodes {
  import opened Base

  type Id = nat

  datatype Entry = Entry(index: nat, term: nat, payload: seq<nat>)

  datatype Role = Follower | Candidate | Leader

  /** What a leader knows about one node. */
  datatype Progress = Progress(matched: nat, next: nat, sendNext: nat, lastReject: bool)

  /** A log or state write under way, with what its completion needs. */
  datatype Write =
    | VoteWrite
    | LeaderWrite(index: nat)
    | FollowerWrite(to: Id, matched: nat, commit: nat, consistency: nat)

  datatype Msg =
    | VoteReq(src: Id, dest: Id, term: nat, lastIndex: nat, lastTerm: nat)
    | VoteResp(src: Id, dest: Id, term: nat, granted: bool)
    | AppendReq(src: Id, dest: Id, term: nat, prev: nat, prevTerm: nat, commit: nat, consistency: nat,
        entries: seq<Entry>)
    | AppendResp(src: Id, dest: Id, term: nat, success: bool, matched: nat, heartBeat: bool)

  /** `log` holds the entries after index `base`; `handed` lists the indices given to
      the commit callback so far. */
  datatype Node = Node(
    id: Id, peers: set<Id>, batch: nat,
    term: nat, role: Role, voted: Option<Id>, responded: set<Id>, granted: set<Id>, leader: Id,
    log: seq<Entry>, base: nat, commit: nat, progress: map<Id, Progress>,
    writes: multiset<Write>, handed: seq<nat>)

  function StartNode(id: Id, peers: set<Id>, batch: nat): Node {
    Node(id, peers, batch, 0, Follower, None, {}, {}, 0, [], 0, 0, map p | p in peers :: Progress(0, 1, 1, false),
        multiset{}, [])
  }

  function Last(n: Node): nat { n.base + |n.log| }

  function LastTerm(n: Node): nat { if n.log == [] then 0 else n.log[|n.log| - 1].term }

  function Min(a: nat, b: nat): nat { if a <= b then a else b }

  // ---------------------------------------------------------------- commit and compaction

  function Indices(es: seq<Entry>): seq<nat> { seq(|es|, i requires 0 <= i < |es| => es[i].index) }

  /** Hand out the entries after the commit index up to `index`, or up to the end of the log. */
  function UpdateCommit(n: Node, index: nat): Node {
    var upto := Min(Last(n), index);
    if index <= n.commit || n.log == [] || upto <= n.commit || upto <= n.base then n
    else
      var from := if n.commit < n.base then 0 else n.commit - n.base;
      n.(commit := upto, handed := n.handed + Indices(n.log[from..upto - n.base]))
  }

  /** Drop the log up to ten entries before `index`; nothing happens beyond the end
      of the log, where the code asserts. */
  function UpdateConsistency(n: Node, index: nat): Node {
    if index < n.base + 10 || index > Last(n) then n
    else n.(base := index - 10, log := n.log[index - 10 - n.base..])
  }

  // ---------------------------------------------------------------- elections

  function Timeout(n: Node): Node {
    if n.role == Leader then n
    else n.(role := Candidate, term := n.term + 1, voted := None, leader := 0, responded := {}, granted := {},
            writes := n.writes + multiset{VoteWrite})
  }

  function RequestVote(n: Node): set<Msg> {
    if n.role != Candidate then {}
    else set id | id in n.peers - n.responded :: VoteReq(n.id, id, n.term, Last(n), LastTerm(n))
  }

  function UpdateTerm(n: Node, term: nat): Node {
    if term <= n.term then n else n.(term := term, voted := None, role := Follower)
  }

  predicate UpToDate(n: Node, lastIndex: nat, lastTerm: nat) {
    lastTerm > LastTerm(n) || (lastTerm == LastTerm(n) && lastIndex >= Last(n))
  }

  function OnVoteReq(n: Node, m: Msg): (Node, set<Msg>)
    requires m.VoteReq?
  {
    var u := UpdateTerm(n, m.term);
    var granted := m.term == u.term && UpToDate(u, m.lastIndex, m.lastTerm)
      && (u.voted.None? || u.voted.value == m.src);
    (if granted then u.(voted := Some(m.src)) else u, {VoteResp(n.id, m.src, u.term, granted)})
  }

  function OnVoteResp(n: Node, m: Msg): (Node, set<Msg>)
    requires m.VoteResp?
  {
    var u := UpdateTerm(n, m.term);
    if m.term != u.term then (u, {})
    else
      var v := u.(responded := u.responded + {m.src}, granted := if m.granted then u.granted + {m.src} else u.granted);
      if v.role == Candidate && |v.granted| * 2 > |v.peers| then BecomeLeader(v) else (v, {})
  }

  /** Every node is taken to match the new leader's whole log until it says otherwise. */
  function Elected(n: Node): Node {
    n.(role := Leader, leader := n.id, progress := map id | id in n.peers ::
      Progress(Last(n), Last(n) + 1, 0, id in n.progress && n.progress[id].lastReject))
  }

  function BecomeLeader(n: Node): (Node, set<Msg>) { SendAll(Elected(n)) }

  // ---------------------------------------------------------------- replication

  /** The index from which to send next. */
  function SendFrom(p: Progress): nat {
    if p.next != 0 && !p.lastReject && p.next < p.sendNext then p.sendNext else p.next
  }

  /** At most `count` entries of the log, from offset `start` on; none if `start` is past the end. */
  function Slice(log: seq<Entry>, start: nat, count: nat): seq<Entry> {
    if start > |log| then [] else if start + count < |log| then log[start..start + count] else log[start..]
  }

  /** The offset from which to send. */
  function StartFor(n: Node, p: Progress): Option<nat> {
    var next := SendFrom(p);
    if next == 0 then Some(0) else if next > n.base then Some(next - n.base - 1) else None
  }

  function SliceFor(n: Node, p: Progress): seq<Entry> {
    if StartFor(n, p).Some? then Slice(n.log, StartFor(n, p).value, n.batch) else []
  }

  function PrevFor(p: Progress): nat { if SendFrom(p) == 0 then 0 else SendFrom(p) - 1 }

  function TermAt(n: Node, index: nat): nat {
    if n.base < index <= Last(n) then n.log[index - n.base - 1].term else 0
  }

  function AppendTo(n: Node, to: Id, p: Progress): Msg {
    AppendReq(n.id, to, n.term, PrevFor(p), TermAt(n, PrevFor(p)), n.commit, n.base, SliceFor(n, p))
  }

  function Sent(n: Node, p: Progress): Progress {
    var es := SliceFor(n, p);
    p.(sendNext := if es != [] && es[|es| - 1].index > 0 then es[|es| - 1].index + 1
                   else if p.next == 0 then p.sendNext else SendFrom(p))
  }

  function SendAll(n: Node): (Node, set<Msg>) {
    (n.(progress := map id | id in n.progress :: if id == n.id then n.progress[id] else Sent(n, n.progress[id])),
     set id | id in n.progress && id != n.id :: AppendTo(n, id, n.progress[id]))
  }

  /** A client request: only a leader appends. */
  function Submit(n: Node, payload: seq<nat>): Node {
    if n.role != Leader then n
    else n.(log := n.log + [Entry(Last(n) + 1, n.term, payload)],
        writes := n.writes + multiset{LeaderWrite(Last(n) + 1)})
  }

  function HeartBeat(n: Node): (Node, set<Msg>) {
    if n.role != Leader then (n, {}) else SendAll(n)
  }

  /** A leadership transfer asks this node to bring `to` up to date. */
  function Nudge(n: Node, to: Id): (Node, set<Msg>) {
    if n.role == Follower || to == n.id || to !in n.progress || n.progress[to].matched == Last(n) then (n, {})
    else (n.(progress := n.progress[to := Sent(n, n.progress[to])]), {AppendTo(n, to, n.progress[to])})
  }

  /** Where in its log a node puts the entries of a request, and how many of them it skips. */
  function Place(n: Node, prev: nat): (nat, nat) {
    if prev <= n.base then (0, n.base - prev) else (prev - n.base, 0)
  }

  predicate LogOk(n: Node, prev: nat, prevTerm: nat) {
    prev <= n.base || (prev <= Last(n) && n.log[prev - n.base - 1].term == prevTerm)
  }

  /** The entries from `skip` on have the terms of the log from `off` on, where both exist. */
  predicate Agree(log: seq<Entry>, off: nat, es: seq<Entry>, skip: nat) {
    forall i :: off <= i < |log| && skip + (i - off) < |es| ==> log[i].term == es[skip + (i - off)].term
  }

  function Longer(log: seq<Entry>, off: nat, es: seq<Entry>, skip: nat): seq<Entry>
    requires off <= |log|
  {
    if skip + (|log| - off) < |es| then log + es[skip + (|log| - off)..] else log
  }

  /** The request's entries are stored, skipped or cause the log to be cut to where they start. */
  function StoreAt(n: Node, m: Msg, off: nat, skip: nat): (Node, set<Msg>)
    requires m.AppendReq? && off <= |n.log|
  {
    var matched := m.prev + if skip <= |m.entries| then |m.entries| else skip;
    if !Agree(n.log, off, m.entries, skip) then (n.(log := n.log[..off]), {})
    else if |n.log| > off && skip + (|n.log| - off) >= |m.entries| then
      (UpdateConsistency(UpdateCommit(n, m.commit), m.consistency),
          {AppendResp(n.id, m.src, n.term, true, matched, true)})
    else
      (n.(log := Longer(n.log, off, m.entries, skip),
          writes := n.writes + multiset{FollowerWrite(m.src, matched, m.commit, m.consistency)}), {})
  }

  function Store(n: Node, m: Msg): (Node, set<Msg>)
    requires m.AppendReq? && LogOk(n, m.prev, m.prevTerm)
  {
    StoreAt(n, m, Place(n, m.prev).0, Place(n, m.prev).1)
  }

  function OnAppendReq(n: Node, m: Msg): (Node, set<Msg>)
    requires m.AppendReq?
  {
    if m.term < n.term then (n, {AppendResp(n.id, m.src, n.term, false, 0, m.entries == [])})
    else if m.term > n.term then (n.(term := m.term, role := Follower), {})
    else
      var u := n.(leader := m.src);
      if n.role == Leader then (u, {})
      else if n.role == Candidate then (u.(role := Follower), {})
      else if !LogOk(u, m.prev, m.prevTerm) then (u, {AppendResp(n.id, m.src, n.term, false, 0, m.entries == [])})
      else if m.entries == [] then
        (UpdateConsistency(UpdateCommit(u, m.commit), m.consistency),
         {AppendResp(n.id, m.src, n.term, true, if m.prev <= n.base then n.base else m.prev, true)})
      else Store(u, m)
  }

  /** The nodes known to have the log up to `index`. */
  function Matching(n: Node, index: nat): set<Id> {
    set id | id in n.peers && id in n.progress && n.progress[id].matched >= index
  }

  /** The highest index, at most `base + k`, that a majority is known to have; 0 if there is none. */
  function MajorityIndex(n: Node, k: nat): nat {
    if k == 0 then 0
    else if |Matching(n, n.base + k)| * 2 > |n.peers| then n.base + k
    else MajorityIndex(n, k - 1)
  }

  function AdvanceCommit(n: Node): Node {
    var index := MajorityIndex(n, |n.log|);
    if n.role == Leader && index > 0 && TermAt(n, index) <= n.term then UpdateCommit(n, index) else n
  }

  /** What a leader learns about a node from its answer. */
  function Learn(p: Progress, m: Msg, base: nat): Progress
    requires m.AppendResp?
  {
    if m.success then
      Progress(if p.matched < m.matched then m.matched else p.matched,
               if p.next < m.matched + 1 then m.matched + 1 else p.next,
               p.sendNext, false)
    else
      Progress(p.matched, if p.next > 1 && p.next - 1 > base then p.next - 1 else p.next, p.sendNext, true)
  }

  function OnAppendResp(n: Node, m: Msg): Node
    requires m.AppendResp?
  {
    var u := UpdateTerm(n, m.term);
    if m.src !in u.progress || m.term != u.term then u
    else
      var v := u.(progress := u.progress[m.src := Learn(u.progress[m.src], m, u.base)]);
      if m.success && !m.heartBeat then AdvanceCommit(v) else v
  }

  /** A write has completed. */
  function OnWrite(n: Node, w: Write): (Node, set<Msg>) {
    var u := n.(writes := n.writes - multiset{w});
    match w
    case VoteWrite => (u, RequestVote(u))
    case LeaderWrite(index) =>
      SendAll(if n.id in n.progress
              then u.(progress := u.progress[n.id := u.progress[n.id].(matched := index, next := index + 1)]) else u)
    case FollowerWrite(to, matched, commit, consistency) =>
      (UpdateConsistency(UpdateCommit(u, commit), consistency), {AppendResp(n.id, to, n.term, true, matched, false)})
  }

  /** The nodes known to have, and to be sent only what follows, the log up to `index`. */
  function Settled(n: Node, index: nat): set<Id> {
    set id | id in n.peers && id in n.progress && n.progress[id].matched >= index && n.progress[id].next >= index
  }

  function SettledIndex(n: Node, k: nat): nat {
    if k == 0 then 0
    else if |Settled(n, n.base + k)| == |n.peers| then n.base + k
    else SettledIndex(n, k - 1)
  }

  /** The leader's periodic compaction. */
  function Compact(n: Node): Node {
    var index := SettledIndex(n, |n.log|);
    if n.role == Leader && index > 0 && |n.log| > 1 && n.commit >= index && TermAt(n, index) == n.term
    then UpdateConsistency(n, index) else n
  }
}
