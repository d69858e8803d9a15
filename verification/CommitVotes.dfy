/** The assertion in the coordinator's vote handler: unless the transaction is a deadlock
    victim, no vote comes from a shard that is noted as aborted already. */
module CommitVotes {
  import opened Base
  import opened TwoPhaseCommit
  import opened CommitProtocol

  /** The vote handler meets its failing assertion. */
  predicate VoteFails(t: Tx, e: Event) {
    && e.Deliver? && e.msg.RmPrepare? && TmListens(t, e.msg.shard) && !t.tm.value.victim
    && (t.tm.value.tracer[e.msg.shard] == TPrepareAbort || t.tm.value.tracer[e.msg.shard] == TAborted)
  }

  /** An abort, other than of a deadlock victim, hits a coordinator that still waits for a vote. */
  predicate Rash(t: Tx, e: Event) {
    && e.TmHit? && e.ec != Victim && t.tm.Some?
    && t.tm.value.state == TmIdle && !t.tm.value.wroteCommit && !t.tm.value.victim && !AllVoted(t.tm.value)
  }

  ghost predicate NeverRash(t: Tx, es: seq<Event>)
    requires Legal(t, es)
  {
    es != [] ==> NeverRash(t, es[..|es| - 1]) && !Rash(After(t, es[..|es| - 1]), es[|es| - 1])
  }

  // ---------------------------------------------------------------- invariant

  predicate AllVoted(tm: Tm) {
    forall sh :: sh in tm.tracer ==> tm.tracer[sh] != TIdle
  }

  function One(b: bool): nat { if b then 1 else 0 }

  /** Votes of shard `sh` that are on their way: in the network or in a record not yet durable. */
  function Owed(t: Tx, sh: Shard): nat {
    t.net[RmPrepare(sh, true)] + t.net[RmPrepare(sh, false)] +
    One(RmLog(sh, PrepareCommit) in t.pending) + One(RmLog(sh, PrepareAbort) in t.pending)
  }

  ghost predicate ShardVotes(t: Tx, tm: Tm, sh: Shard) {
    Owed(t, sh) <= 1 && (sh in tm.tracer && tm.tracer[sh] != TIdle && !tm.victim ==> Owed(t, sh) == 0)
  }

  predicate TmVotes(tm: Tm) {
    (tm.wroteAbort ==> AllVoted(tm)) && (tm.state == TmAborted ==> tm.victim || AllVoted(tm))
  }

  ghost predicate VoteInv(t: Tx) {
    t.tm.Some? ==> TmVotes(t.tm.value) && forall sh :: sh in t.plan ==> ShardVotes(t, t.tm.value, sh)
  }

  // ---------------------------------------------------------------- participants

  /** A participant's step that sends no vote, and logs one only if none was owed or noted. */
  lemma RmVotes(t: Tx, tm: Tm, at: Shard, r: (Rm, RmOut), sh: Shard)
    requires ShardVotes(t, tm, sh) && (r.1.reply.Some? ==> !r.1.reply.value.Prepared?)
    requires r.1.log == Some(PrepareCommit) || r.1.log == Some(PrepareAbort) ==>
      Owed(t, at) == 0 && (at in tm.tracer && tm.tracer[at] != TIdle ==> tm.victim)
    ensures ShardVotes(RmMoves(t, at, r), tm, sh)
  {
    var u := RmMoves(t, at, r);
    assert u.net[RmPrepare(sh, true)] == t.net[RmPrepare(sh, true)];
    assert u.net[RmPrepare(sh, false)] == t.net[RmPrepare(sh, false)];
  }

  /** A vote's record becomes durable and the vote is sent. */
  lemma SentVotes(t: Tx, tm: Tm, at: Shard, c: bool, rm: Rm, sh: Shard)
    requires ShardVotes(t, tm, sh) && RmLog(at, if c then PrepareCommit else PrepareAbort) in t.pending
    ensures ShardVotes(RmMoves(Sync(t, RmLog(at, if c then PrepareCommit else PrepareAbort)), at,
                               (rm, Quiet.(reply := Some(Prepared(c))))), tm, sh)
  {
    var k := if c then PrepareCommit else PrepareAbort;
    var u := RmMoves(Sync(t, RmLog(at, k)), at, (rm, Quiet.(reply := Some(Prepared(c)))));
    assert u.net == t.net + multiset{RmPrepare(at, c)};
    assert u.pending == t.pending - {RmLog(at, k)};
  }

  lemma TakeVotes(t: Tx, tm: Tm, m: Msg, sh: Shard)
    requires ShardVotes(t, tm, sh)
    ensures ShardVotes(Take(t, m), tm, sh)
  {}

  lemma SyncVotes(t: Tx, tm: Tm, r: LogRec, sh: Shard)
    requires ShardVotes(t, tm, sh)
    ensures ShardVotes(Sync(t, r), tm, sh)
  {}

  /** A participant that has not started or is at work has sent no vote, and none is noted. */
  lemma IdleOwesNone(t: Tx, tm: Tm, sh: Shard)
    requires ShardInv(t, tm, sh) && (sh !in t.rms || t.rms[sh].state == RmIdle)
    ensures Owed(t, sh) == 0 && tm.tracer[sh] == TIdle
  {
    assert RmPrepare(sh, true) !in t.net && RmPrepare(sh, false) !in t.net;
  }

  // ---------------------------------------------------------------- the coordinator

  /** Nothing the coordinator sends is a vote. */
  lemma TmOwes(t: Tx, r: (Tm, TmOut), sh: Shard)
    requires forall m :: m in r.1.send ==> !m.RmPrepare?
    ensures Owed(TmMoves(t, r), sh) == Owed(t, sh)
  {
    var u := TmMoves(t, r);
    assert u.net[RmPrepare(sh, true)] == t.net[RmPrepare(sh, true)];
    assert u.net[RmPrepare(sh, false)] == t.net[RmPrepare(sh, false)];
  }

  lemma TmMoveVotes(t: Tx, tm: Tm, r: (Tm, TmOut))
    requires (forall sh :: sh in t.plan ==> ShardVotes(t, tm, sh)) && forall m :: m in r.1.send ==> !m.RmPrepare?
    requires r.0.tracer == tm.tracer && (tm.victim ==> r.0.victim) && TmVotes(r.0)
    ensures VoteInv(TmMoves(t, r))
  {
    forall sh | sh in t.plan ensures ShardVotes(TmMoves(t, r), r.0, sh) {
      assert ShardVotes(t, tm, sh);
      TmOwes(t, r, sh);
    }
  }

  lemma AdvanceVotes(tm: Tm, r: (Tm, TmOut))
    requires TmVotes(tm) && r == Advance(tm)
    ensures TmVotes(r.0) && r.0.tracer == tm.tracer && r.0.victim == tm.victim && r.1.send == {}
  {}

  /** Shard `at` is noted as `v`; it owes no vote any more. */
  lemma NoteVotes(t: Tx, tm: Tm, at: Shard, v: Tracer)
    requires TmVotes(tm) && (forall sh :: sh in t.plan ==> ShardVotes(t, tm, sh)) && at in tm.tracer && v != TIdle
    requires Owed(t, at) == 0 || tm.victim || tm.tracer[at] != TIdle
    ensures VoteInv(TmMoves(t, Advance(tm.(tracer := tm.tracer[at := v]))))
  {
    var n := tm.(tracer := tm.tracer[at := v]);
    forall sh | sh in t.plan ensures ShardVotes(t, n, sh) { assert ShardVotes(t, tm, sh); }
    AdvanceVotes(n, Advance(n));
    TmMoveVotes(t, n, Advance(n));
  }

  lemma PrepareVotes(t: Tx, sh: Shard, c: bool)
    requires DistInv(t) && VoteInv(t) && RmPrepare(sh, c) in t.net && TmListens(t, sh)
    ensures VoteInv(TmMoves(Take(t, RmPrepare(sh, c)), TmOnPrepare(t.tm.value, sh, c)))
  {
    var tm, u := t.tm.value, Take(t, RmPrepare(sh, c));
    forall x | x in u.plan ensures ShardVotes(u, tm, x) { TakeVotes(t, tm, RmPrepare(sh, c), x); }
    assert ShardVotes(t, tm, sh);
    assert u.net[RmPrepare(sh, c)] == t.net[RmPrepare(sh, c)] - 1;
    if tm.tracer[sh] == TIdle {
      NoteVotes(u, tm, sh, if c then TPrepareCommit else TPrepareAbort);
    } else {
      TmMoveVotes(u, tm, (tm, Silent));
    }
  }

  /** An abort is acknowledged by a shard without a vote only if the transaction is a victim. */
  lemma AckVotes(t: Tx, sh: Shard, c: bool)
    requires DistInv(t) && VoteInv(t) && RmAck(sh, c) in t.net && TmListens(t, sh)
    ensures VoteInv(TmMoves(Take(t, RmAck(sh, c)), TmOnAck(t.tm.value, sh, c)))
  {
    var tm, u := t.tm.value, Take(t, RmAck(sh, c));
    forall x | x in u.plan ensures ShardVotes(u, tm, x) { TakeVotes(t, tm, RmAck(sh, c), x); }
    assert ShardInv(t, tm, sh);
    if (if c then tm.tracer[sh] == TPrepareCommit else tm.tracer[sh] != TCommitted && tm.tracer[sh] != TAborted) {
      NoteVotes(u, tm, sh, if c then TCommitted else TAborted);
    } else if c {
      TmMoveVotes(u, tm, (tm, Silent));
    } else {
      AdvanceVotes(tm, Advance(tm));
      TmMoveVotes(u, tm, Advance(tm));
    }
  }

  lemma HitVotes(t: Tx, ec: EC)
    requires VoteInv(t) && t.tm.Some? && !Rash(t, TmHit(ec))
    ensures VoteInv(TmMoves(t, TmOnVictim(t.tm.value, ec)))
  {
    var r := TmOnVictim(t.tm.value, ec);
    forall m | m in r.1.send ensures !m.RmPrepare? { SentMessages(t.tm.value.tracer.Keys, m); }
    TmMoveVotes(t, t.tm.value, r);
  }

  // ---------------------------------------------------------------- every event

  lemma RmStepVotes(t: Tx, at: Shard, r: (Rm, RmOut))
    requires VoteInv(t) && t.tm.Some? && (r.1.reply.Some? ==> !r.1.reply.value.Prepared?)
    requires r.1.log == Some(PrepareCommit) || r.1.log == Some(PrepareAbort) ==>
      Owed(t, at) == 0 && (at in t.tm.value.tracer && t.tm.value.tracer[at] != TIdle ==> t.tm.value.victim)
    ensures VoteInv(RmMoves(t, at, r))
  {
    forall sh | sh in t.plan ensures ShardVotes(RmMoves(t, at, r), t.tm.value, sh) {
      RmVotes(t, t.tm.value, at, r, sh);
    }
  }

  lemma TakeVoteInv(t: Tx, m: Msg)
    requires VoteInv(t)
    ensures VoteInv(Take(t, m))
  {
    if t.tm.Some? {
      forall sh | sh in t.plan ensures ShardVotes(Take(t, m), t.tm.value, sh) { TakeVotes(t, t.tm.value, m, sh); }
    }
  }

  lemma SyncVoteInv(t: Tx, r: LogRec)
    requires VoteInv(t)
    ensures VoteInv(Sync(t, r))
  {
    if t.tm.Some? {
      forall sh | sh in t.plan ensures ShardVotes(Sync(t, r), t.tm.value, sh) { SyncVotes(t, t.tm.value, r, sh); }
    }
  }

  lemma StartVotes(t: Tx, sh: Shard)
    requires DistInv(t) && VoteInv(t) && t.tm.Some? && sh in t.plan && sh !in t.rms
    ensures VoteInv(RmMoves(t, sh, RmStart(t.plan[sh], true)))
  {
    assert ShardInv(t, t.tm.value, sh);
    IdleOwesNone(t, t.tm.value, sh);
    RmStepVotes(t, sh, RmStart(t.plan[sh], true));
  }

  lemma RequestVotes(t: Tx, sh: Shard)
    requires DistInv(t) && VoteInv(t) && t.tm.Some? && TmRequest(sh) in t.net
    ensures VoteInv(OnMessage(t, TmRequest(sh)))
  {
    TakeVoteInv(t, TmRequest(sh));
    TakeKeepsInv(t, TmRequest(sh));
    if sh in t.plan && sh !in t.rms { StartVotes(Take(t, TmRequest(sh)), sh); }
  }

  lemma TmCommitVotes(t: Tx, sh: Shard)
    requires VoteInv(t) && t.tm.Some?
    ensures VoteInv(OnMessage(t, TmCommit(sh)))
  {
    TakeVoteInv(t, TmCommit(sh));
    if sh in t.rms { RmStepVotes(Take(t, TmCommit(sh)), sh, RmOnTmCommit(t.rms[sh])); }
  }

  lemma TmAbortVotes(t: Tx, sh: Shard)
    requires VoteInv(t) && t.tm.Some?
    ensures VoteInv(OnMessage(t, TmAbort(sh)))
  {
    TakeVoteInv(t, TmAbort(sh));
    if sh in t.rms { RmStepVotes(Take(t, TmAbort(sh)), sh, RmOnTmAbort(t.rms[sh])); }
  }

  lemma ToTmVotes(t: Tx, m: Msg)
    requires DistInv(t) && VoteInv(t) && t.tm.Some? && m in t.net && (m.RmPrepare? || m.RmAck? || m.RmVictim?)
    ensures VoteInv(OnMessage(t, m))
  {
    ToTm(t, m);
    TakeVoteInv(t, m);
    if TmListens(t, m.shard) {
      if m.RmPrepare? {
        PrepareVotes(t, m.shard, m.commit);
      } else if m.RmAck? {
        AckVotes(t, m.shard, m.commit);
      } else {
        HitVotes(Take(t, m), Victim);
      }
    }
  }

  lemma RmLogVotes(t: Tx, at: Shard, k: LogKind)
    requires DistInv(t) && VoteInv(t) && t.tm.Some? && RmLog(at, k) in t.pending
    ensures VoteInv(OnLog(t, RmLog(at, k), {}))
  {
    LogIs(t, RmLog(at, k), {});
    SyncVoteInv(t, RmLog(at, k));
    assert at in t.rms;
    if k == PrepareCommit || k == PrepareAbort {
      forall sh | sh in t.plan ensures ShardVotes(OnLog(t, RmLog(at, k), {}), t.tm.value, sh) {
        SentVotes(t, t.tm.value, at, k == PrepareCommit, t.rms[at], sh);
      }
    } else {
      RmStepVotes(Sync(t, RmLog(at, k)), at, RmOnLog(t.rms[at], k));
    }
  }

  lemma TmLogVotes(t: Tx, k: LogKind, reached: set<Shard>)
    requires DistInv(t) && VoteInv(t) && t.tm.Some? && TmLog(k) in t.pending && t.tm.value.state != TmDone
    ensures VoteInv(OnTmLog(Sync(t, TmLog(k)), k, reached))
  {
    var tm, u := t.tm.value, Sync(t, TmLog(k));
    SyncVoteInv(t, TmLog(k));
    var shards := if k == Begin && !(tm.tracer.Keys <= reached) then reached * tm.tracer.Keys else tm.tracer.Keys;
    forall m ensures m in Requests(shards) || m in Commits(shards) || m in Aborts(shards) ==> !m.RmPrepare? {
      SentMessages(shards, m);
    }
    match k
    case Begin => TmMoveVotes(u, tm, TmOnBegin(tm, reached));
    case Commit => TmMoveVotes(u, tm, TmOnCommitted(tm));
    case Abort => TmMoveVotes(u, tm, TmOnAborted(tm));
    case End => TmMoveVotes(u, tm, TmOnEnded(tm));
    case _ =>
  }

  lemma LogVotes(t: Tx, r: LogRec, reached: set<Shard>)
    requires DistInv(t) && VoteInv(t) && t.tm.Some? && r in t.pending
    ensures VoteInv(OnLog(t, r, reached))
  {
    if r.RmLog? {
      RmLogVotes(t, r.shard, r.kind);
      assert OnLog(t, r, reached) == OnLog(t, r, {});
    } else {
      SyncVoteInv(t, r);
      if t.tm.value.state != TmDone { TmLogVotes(t, r.kind, reached); }
    }
  }

  lemma WorkVotes(t: Tx, at: Shard, ec: EC)
    requires DistInv(t) && VoteInv(t) && t.tm.Some? && at in t.rms && t.rms[at].ops != []
    ensures VoteInv(RmMoves(t, at, RmOnOpDone(t.rms[at], ec)))
  {
    assert ShardInv(t, t.tm.value, at);
    if t.rms[at].state == RmIdle { IdleOwesNone(t, t.tm.value, at); }
    RmStepVotes(t, at, RmOnOpDone(t.rms[at], ec));
  }

  lemma AcceptVotes(t: Tx, led: set<Shard>)
    requires DistInv(t) && t.tm.None?
    ensures VoteInv(TmMoves(t, TmStart(t.plan.Keys, led)))
  {
    var r := TmStart(t.plan.Keys, led);
    forall sh | sh in t.plan ensures ShardVotes(TmMoves(t, r), r.0, sh) { TmOwes(t, r, sh); }
  }

  lemma NextVotes(t: Tx, e: Event)
    requires DistInv(t) && VoteInv(t) && Enabled(t, e) && !Rash(t, e)
    ensures VoteInv(Next(t, e))
  {
    match e
    case Accept(led) => AcceptVotes(t, led);
    case Deliver(m) =>
      if m.TmRequest? {
        RequestVotes(t, m.shard);
      } else if m.TmCommit? {
        TmCommitVotes(t, m.shard);
      } else if m.TmAbort? {
        TmAbortVotes(t, m.shard);
      } else {
        ToTmVotes(t, m);
      }
    case LogDone(r, reached) => LogVotes(t, r, reached);
    case LockTold(sh) => RmStepVotes(t, sh, RmOnLock(t.rms[sh]));
    case OpDone(sh, ec) => if t.rms[sh].ops != [] { WorkVotes(t, sh, ec); }
    case TmHit(ec) => HitVotes(t, ec);
    case RmHit(sh, ec) => RmStepVotes(t, sh, RmOnVictim(t.rms[sh], ec));
  }

  lemma {:induction false} EveryRunVotes(plan: map<Shard, seq<Op>>, es: seq<Event>)
    requires Legal(InitTx(false, plan), es) && NeverRash(InitTx(false, plan), es)
    ensures VoteInv(After(InitTx(false, plan), es))
  {
    if es != [] {
      EveryRunVotes(plan, es[..|es| - 1]);
      EveryRunKeepsInv(false, plan, es[..|es| - 1]);
      NextVotes(After(InitTx(false, plan), es[..|es| - 1]), es[|es| - 1]);
    }
  }

  /** As long as no abort hits the coordinator while it waits for a vote, other than of a
      deadlock victim, its vote handler never meets the failing assertion. */
  lemma VotesNeverFail(plan: map<Shard, seq<Op>>, es: seq<Event>, e: Event)
    requires Legal(InitTx(false, plan), es) && NeverRash(InitTx(false, plan), es)
    requires Enabled(After(InitTx(false, plan), es), e)
    ensures !VoteFails(After(InitTx(false, plan), es), e)
  {
    EveryRunVotes(plan, es);
    EveryRunKeepsInv(false, plan, es);
    var t := After(InitTx(false, plan), es);
    if e.Deliver? && e.msg.RmPrepare? && t.tm.Some? && e.msg.shard in t.plan {
      assert ShardVotes(t, t.tm.value, e.msg.shard);
      assert Owed(t, e.msg.shard) > 0;
    }
  }

  // ---------------------------------------------------------------- a run that fails

  ghost predicate Ends(plan: map<Shard, seq<Op>>, es: seq<Event>, t: Tx) {
    Legal(InitTx(false, plan), es) && After(InitTx(false, plan), es) == t
  }

  lemma More(plan: map<Shard, seq<Op>>, es: seq<Event>, t: Tx, e: Event, u: Tx)
    requires Ends(plan, es, t) && Enabled(t, e) && u == Next(t, e)
    ensures Ends(plan, es + [e], u)
  {
    assert (es + [e])[..|es|] == es;
  }

  /** A coordinator of one shard that waits for its vote. */
  predicate Waits(t: Tx, sh: Shard) {
    && t.plan == map[sh := []] && !t.local && t.tm.Some? && t.tm.value.state == TmIdle
    && t.tm.value.tracer == map[sh := TIdle] && !t.tm.value.wroteCommit && !t.tm.value.victim
  }

  /** The only participant has written its vote, and the vote is on its way. */
  predicate Voted(t: Tx, sh: Shard) {
    && Waits(t, sh) && sh in t.rms && t.pending == {}
    && t.rms[sh].state == RmPrepareCommitting && t.rms[sh].distributed && RmPrepare(sh, true) in t.net
  }

  lemma Accepted(sh: Shard) returns (t: Tx)
    ensures Ends(map[sh := []], [Accept({sh})], t)
    ensures Waits(t, sh) && t.pending == {TmLog(Begin)} && t.rms == map[]
  {
    t := Next(InitTx(false, map[sh := []]), Accept({sh}));
    More(map[sh := []], [], InitTx(false, map[sh := []]), Accept({sh}), t);
    assert [] + [Accept({sh})] == [Accept({sh})];
    assert t.tm.value.tracer == map[sh := TIdle];
  }

  lemma Requested(sh: Shard, es: seq<Event>, t: Tx) returns (u: Tx)
    requires Ends(map[sh := []], es, t) && Waits(t, sh) && t.pending == {TmLog(Begin)} && t.rms == map[]
    ensures Ends(map[sh := []], es + [LogDone(TmLog(Begin), {sh})], u)
    ensures Waits(u, sh) && u.pending == {} && u.rms == map[] && TmRequest(sh) in u.net
  {
    u := Next(t, LogDone(TmLog(Begin), {sh}));
    More(map[sh := []], es, t, LogDone(TmLog(Begin), {sh}), u);
    assert t.tm.value.tracer.Keys == {sh};
    SentMessages({sh}, TmRequest(sh));
  }

  lemma Started(sh: Shard, es: seq<Event>, t: Tx) returns (u: Tx)
    requires Ends(map[sh := []], es, t) && Waits(t, sh) && t.pending == {} && t.rms == map[] && TmRequest(sh) in t.net
    ensures Ends(map[sh := []], es + [Deliver(TmRequest(sh))], u)
    ensures Waits(u, sh) && u.pending == {RmLog(sh, PrepareCommit)}
    ensures sh in u.rms && u.rms[sh].state == RmPrepareCommitting && u.rms[sh].distributed
  {
    u := Next(t, Deliver(TmRequest(sh)));
    More(map[sh := []], es, t, Deliver(TmRequest(sh)), u);
  }

  lemma Prepares(sh: Shard, es: seq<Event>, t: Tx) returns (u: Tx)
    requires Ends(map[sh := []], es, t) && Waits(t, sh) && t.pending == {RmLog(sh, PrepareCommit)}
    requires sh in t.rms && t.rms[sh].state == RmPrepareCommitting && t.rms[sh].distributed
    ensures Ends(map[sh := []], es + [LogDone(RmLog(sh, PrepareCommit), {})], u) && Voted(u, sh)
  {
    u := Next(t, LogDone(RmLog(sh, PrepareCommit), {}));
    More(map[sh := []], es, t, LogDone(RmLog(sh, PrepareCommit), {}), u);
  }

  lemma Start(sh: Shard) returns (es: seq<Event>, t: Tx)
    ensures Ends(map[sh := []], es, t) && Voted(t, sh) && forall i :: 0 <= i < |es| ==> !es[i].TmHit?
  {
    t := Accepted(sh);
    t := Requested(sh, [Accept({sh})], t);
    es := [Accept({sh})] + [LogDone(TmLog(Begin), {sh})];
    t := Started(sh, es, t);
    es := es + [Deliver(TmRequest(sh))];
    t := Prepares(sh, es, t);
    es := es + [LogDone(RmLog(sh, PrepareCommit), {})];
  }

  /** The coordinator has aborted, not as a victim; the vote is still on its way. */
  predicate GaveUp(t: Tx, sh: Shard) {
    && t.plan == map[sh := []] && !t.local && t.tm.Some? && t.tm.value.state == TmAborted && t.tm.value.responded
    && t.tm.value.tracer == map[sh := TIdle] && !t.tm.value.victim && sh in t.rms && RmPrepare(sh, true) in t.net
  }

  lemma Hit(sh: Shard, ec: EC, es: seq<Event>, t: Tx) returns (u: Tx)
    requires Ends(map[sh := []], es, t) && Voted(t, sh) && ec != Ok && ec != Victim
    ensures Ends(map[sh := []], es + [TmHit(ec)], u)
    ensures GaveUp(u, sh) && u.pending == {} && TmAbort(sh) in u.net && u.rms == t.rms
  {
    u := Next(t, TmHit(ec));
    More(map[sh := []], es, t, TmHit(ec), u);
    assert t.tm.value.tracer.Keys == {sh};
    SentMessages({sh}, TmAbort(sh));
  }

  lemma Aborting(sh: Shard, es: seq<Event>, t: Tx) returns (u: Tx)
    requires Ends(map[sh := []], es, t) && GaveUp(t, sh) && t.pending == {} && TmAbort(sh) in t.net
    requires t.rms[sh].state == RmPrepareCommitting && t.rms[sh].distributed
    ensures Ends(map[sh := []], es + [Deliver(TmAbort(sh))], u)
    ensures GaveUp(u, sh) && u.pending == {RmLog(sh, Abort)} && u.rms[sh].distributed
  {
    u := Next(t, Deliver(TmAbort(sh)));
    More(map[sh := []], es, t, Deliver(TmAbort(sh)), u);
  }

  lemma Acknowledged(sh: Shard, es: seq<Event>, t: Tx) returns (u: Tx)
    requires Ends(map[sh := []], es, t) && GaveUp(t, sh) && t.pending == {RmLog(sh, Abort)} && t.rms[sh].distributed
    ensures Ends(map[sh := []], es + [LogDone(RmLog(sh, Abort), {})], u) && GaveUp(u, sh) && RmAck(sh, false) in u.net
  {
    u := Next(t, LogDone(RmLog(sh, Abort), {}));
    More(map[sh := []], es, t, LogDone(RmLog(sh, Abort), {}), u);
  }

  lemma Noted(sh: Shard, es: seq<Event>, t: Tx) returns (u: Tx)
    requires Ends(map[sh := []], es, t) && GaveUp(t, sh) && RmAck(sh, false) in t.net
    ensures Ends(map[sh := []], es + [Deliver(RmAck(sh, false))], u)
    ensures VoteFails(u, Deliver(RmPrepare(sh, true))) && RmPrepare(sh, true) in u.net
  {
    u := Next(t, Deliver(RmAck(sh, false)));
    More(map[sh := []], es, t, Deliver(RmAck(sh, false)), u);
    assert t.tm.value.tracer[sh := TAborted] == map[sh := TAborted];
  }

  /** The abort is acknowledged before the vote arrives. */
  lemma Overtaken(sh: Shard, ec: EC, es: seq<Event>, t: Tx) returns (fs: seq<Event>, u: Tx)
    requires Ends(map[sh := []], es, t) && Voted(t, sh) && ec != Ok && ec != Victim
    ensures Ends(map[sh := []], es + fs, u) && VoteFails(u, Deliver(RmPrepare(sh, true)))
    ensures RmPrepare(sh, true) in u.net
    ensures forall i :: 0 <= i < |fs| && fs[i].TmHit? ==> fs[i].ec == ec
  {
    var w := es + [TmHit(ec)];
    u := Hit(sh, ec, es, t);
    u := Aborting(sh, w, u);
    w := w + [Deliver(TmAbort(sh))];
    u := Acknowledged(sh, w, u);
    w := w + [LogDone(RmLog(sh, Abort), {})];
    u := Noted(sh, w, u);
    fs := [TmHit(ec), Deliver(TmAbort(sh)), LogDone(RmLog(sh, Abort), {}), Deliver(RmAck(sh, false))];
    assert w + [Deliver(RmAck(sh, false))] == es + fs;
  }

  /** A run whose last event meets the assertion, in which aborts hit the coordinator only
      with an error out of `errors`. */
  ghost predicate Fails(errors: set<EC>, plan: map<Shard, seq<Op>>, es: seq<Event>, e: Event) {
    && Legal(InitTx(false, plan), es) && Enabled(After(InitTx(false, plan), es), e)
    && VoteFails(After(InitTx(false, plan), es), e)
    && forall i :: 0 <= i < |es| && es[i].TmHit? ==> es[i].ec in errors
  }

  /** With one participant, one abort and any error but that of a victim. */
  lemma OneHitFails(sh: Shard, ec: EC) returns (es: seq<Event>)
    requires ec != Ok && ec != Victim
    ensures Fails({ec}, map[sh := []], es, Deliver(RmPrepare(sh, true)))
  {
    var front, t := Start(sh);
    var rest, u := Overtaken(sh, ec, front, t);
    es := front + rest;
  }

  lemma {:induction false} VictimsAreNeverRash(plan: map<Shard, seq<Op>>, es: seq<Event>)
    requires Legal(InitTx(false, plan), es)
    requires forall i :: 0 <= i < |es| && es[i].TmHit? ==> es[i].ec in {Ok, Victim}
    ensures NeverRash(InitTx(false, plan), es)
  {
    if es != [] {
      VictimsAreNeverRash(plan, es[..|es| - 1]);
      assert Enabled(After(InitTx(false, plan), es[..|es| - 1]), es[|es| - 1]);
    }
  }

  /** The assertion holds in every run if and only if the coordinator is aborted only as a
      deadlock victim. */
  lemma VotesFailOnlyOnOtherErrors(errors: set<EC>)
    ensures (forall plan, es, e :: !Fails(errors, plan, es, e)) <==> errors <= {Ok, Victim}
  {
    if errors <= {Ok, Victim} {
      forall plan, es, e ensures !Fails(errors, plan, es, e) {
        if Fails(errors, plan, es, e) {
          VictimsAreNeverRash(plan, es);
          VotesNeverFail(plan, es, e);
          assert false;
        }
      }
    } else {
      var ec :| ec in errors && ec !in {Ok, Victim};
      var es := OneHitFails(0, ec);
      assert Fails(errors, map[0 := []], es, Deliver(RmPrepare(0, true)));
    }
  }
}
