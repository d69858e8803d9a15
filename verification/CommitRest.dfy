/** How a distributed transaction comes to rest: nothing a coordinator or a participant has to tell
    is forgotten, so that when nothing is under way every participant has learnt the decision. */
module CommitRest {
  import opened Base
  import opened TwoPhaseCommit
  import opened CommitProtocol
  import opened CommitOutcomes
  import opened CommitDecisions

  /** Shards whose abort message came before the participant had started, and was dropped. */
  function MissedAt(t: Tx, e: Event): set<Shard> {
    if e.Deliver? && e.msg.TmAbort? && e.msg.shard !in t.rms then {e.msg.shard} else {}
  }

  ghost function Missed(plan: map<Shard, seq<Op>>, es: seq<Event>): set<Shard>
    requires Legal(InitTx(false, plan), es)
  {
    if es == [] then {}
    else Missed(plan, es[..|es| - 1]) + MissedAt(After(InitTx(false, plan), es[..|es| - 1]), es[|es| - 1])
  }

  predicate Over(tm: Tm) { tm.state == TmDone }

  /** The vote of `sh` is on its way or noted. */
  ghost predicate VoteFlows(t: Tx, tm: Tm, sh: Shard) {
    && sh in tm.tracer
    && (Durable(t, sh, PrepareCommit) ==> RmPrepare(sh, true) in t.net || tm.tracer[sh] != TIdle || Over(tm))
    && (Durable(t, sh, PrepareAbort) ==> RmPrepare(sh, false) in t.net || tm.tracer[sh] != TIdle || Over(tm))
  }

  /** The decision is on its way to `sh`, logged there, or was missed. */
  ghost predicate DecisionFlows(missed: set<Shard>, t: Tx, tm: Tm, sh: Shard) {
    && (CommitSide(tm) ==> TmCommit(sh) in t.net || Logged(t, sh, Commit))
    && (AbortSide(tm) ==> TmAbort(sh) in t.net || Logged(t, sh, Abort) || sh in missed)
  }

  /** The acknowledgement of `sh` is on its way or noted. */
  ghost predicate AckFlows(t: Tx, tm: Tm, sh: Shard) {
    && sh in tm.tracer
    && (Durable(t, sh, Commit) ==> RmAck(sh, true) in t.net || tm.tracer[sh] == TCommitted || Over(tm))
    && (Durable(t, sh, Abort) ==> RmAck(sh, false) in t.net || tm.tracer[sh] == TAborted || Over(tm))
  }

  /** A participant whose outcome is durable has let go of its locks. */
  ghost predicate LetGo(t: Tx, sh: Shard) {
    Durable(t, sh, Commit) || Durable(t, sh, Abort) ==>
      sh in t.rms && t.rms[sh].state == RmEnded && t.rms[sh].locks == []
  }

  ghost predicate Flows(missed: set<Shard>, t: Tx, tm: Tm, sh: Shard) {
    VoteFlows(t, tm, sh) && DecisionFlows(missed, t, tm, sh) && AckFlows(t, tm, sh) && LetGo(t, sh)
  }

  ghost predicate TmFlows(t: Tx, tm: Tm) {
    && (TmLog(End) in t.durable ==> Over(tm)) && (TmLog(Abort) in t.durable ==> tm.state != TmIdle)
    && (TmLog(End) in t.pending || Over(tm) ==> tm.wroteEnd) && (tm.wroteEnd ==> tm.responded)
  }

  ghost predicate FlowInv(missed: set<Shard>, t: Tx) {
    t.tm.Some? ==> TmFlows(t, t.tm.value) && forall sh :: sh in t.plan ==> Flows(missed, t, t.tm.value, sh)
  }

  // ---------------------------------------------------------------- what a step leaves alone

  lemma TakeFrame(missed: set<Shard>, t: Tx, tm: Tm, m: Msg, sh: Shard)
    requires Flows(missed, t, tm, sh) && (m.shard != sh || m.TmRequest? || m.RmVictim?)
    ensures Flows(missed, Take(t, m), tm, sh)
  {}

  lemma MoreMissed(missed: set<Shard>, more: set<Shard>, t: Tx, tm: Tm, sh: Shard)
    requires Flows(missed, t, tm, sh) && missed <= more
    ensures Flows(more, t, tm, sh)
  {}

  lemma RmFrameFlows(missed: set<Shard>, t: Tx, tm: Tm, at: Shard, r: (Rm, RmOut), sh: Shard)
    requires Flows(missed, t, tm, sh) && at != sh
    ensures Flows(missed, RmMoves(t, at, r), tm, sh)
  {}

  lemma SyncFrame(missed: set<Shard>, t: Tx, tm: Tm, r: LogRec, sh: Shard)
    requires Flows(missed, t, tm, sh) && r in t.pending && (r.TmLog? || r.shard != sh)
    ensures Flows(missed, Sync(t, r), tm, sh)
  {}

  /** A participant that stays where it is, or logs its vote. */
  lemma RmWorksFlows(missed: set<Shard>, t: Tx, tm: Tm, sh: Shard, r: (Rm, RmOut))
    requires Flows(missed, t, tm, sh)
    requires sh in t.rms && t.rms[sh].state == RmEnded ==> r.0.state == RmEnded && r.0.locks == t.rms[sh].locks
    ensures Flows(missed, RmMoves(t, sh, r), tm, sh)
  {}

  // ---------------------------------------------------------------- messages to a participant

  lemma CommitFlows(missed: set<Shard>, t: Tx, tm: Tm, sh: Shard)
    requires Flows(missed, t, tm, sh) && ShardInv(t, tm, sh) && TmCommit(sh) in t.net && sh in t.rms
    ensures Flows(missed, RmMoves(Take(t, TmCommit(sh)), sh, RmOnTmCommit(t.rms[sh])), tm, sh)
  {}

  lemma AbortFlows(missed: set<Shard>, t: Tx, tm: Tm, sh: Shard)
    requires Flows(missed, t, tm, sh) && ShardInv(t, tm, sh) && TmAbort(sh) in t.net && sh in t.rms
    ensures Flows(missed, RmMoves(Take(t, TmAbort(sh)), sh, RmOnTmAbort(t.rms[sh])), tm, sh)
  {}

  lemma MissedFlows(missed: set<Shard>, t: Tx, tm: Tm, sh: Shard)
    requires Flows(missed, t, tm, sh) && ShardInv(t, tm, sh) && TmAbort(sh) in t.net
    ensures Flows(missed + {sh}, Take(t, TmAbort(sh)), tm, sh)
  {}

  // ---------------------------------------------------------------- records of a participant

  lemma LogFlows(missed: set<Shard>, t: Tx, tm: Tm, sh: Shard, k: LogKind)
    requires Flows(missed, t, tm, sh) && ShardInv(t, tm, sh) && sh in t.rms && RmLog(sh, k) in t.pending
    ensures Flows(missed, RmMoves(Sync(t, RmLog(sh, k)), sh, RmOnLog(t.rms[sh], k)), tm, sh)
  {}

  // ---------------------------------------------------------------- steps of the coordinator

  /** A step that keeps what is noted and either keeps the decision or sends it. */
  lemma TmMoveFlows(missed: set<Shard>, t: Tx, tm: Tm, r: (Tm, TmOut), sh: Shard)
    requires Flows(missed, t, tm, sh) && r.0.tracer == tm.tracer && (Over(tm) ==> Over(r.0))
    requires CommitSide(r.0) ==> CommitSide(tm) || TmCommit(sh) in r.1.send
    requires AbortSide(r.0) ==> AbortSide(tm) || TmAbort(sh) in r.1.send
    ensures Flows(missed, TmMoves(t, r), r.0, sh)
  {}

  /** The vote `c` of shard `at` is noted. */
  lemma NoteVoteFlows(missed: set<Shard>, t: Tx, tm: Tm, at: Shard, c: bool, sh: Shard)
    requires Flows(missed, t, tm, sh) && at in tm.tracer && tm.tracer[at] == TIdle
    ensures Flows(missed, Take(t, RmPrepare(at, c)),
                  tm.(tracer := tm.tracer[at := if c then TPrepareCommit else TPrepareAbort]), sh)
  {}

  lemma OldVoteFlows(missed: set<Shard>, t: Tx, tm: Tm, at: Shard, c: bool, sh: Shard)
    requires Flows(missed, t, tm, sh) && ((at in tm.tracer && tm.tracer[at] != TIdle) || Over(tm))
    ensures Flows(missed, Take(t, RmPrepare(at, c)), tm, sh)
  {}

  /** The acknowledgement of shard `at` is noted. */
  lemma NoteAckFlows(missed: set<Shard>, t: Tx, tm: Tm, at: Shard, c: bool, sh: Shard)
    requires Flows(missed, t, tm, sh) && ShardInv(t, tm, sh) && at in tm.tracer && RmAck(at, c) in t.net
    ensures Flows(missed, Take(t, RmAck(at, c)),
                  tm.(tracer := tm.tracer[at := if c then TCommitted else TAborted]), sh)
  {}

  lemma OverFlows(missed: set<Shard>, t: Tx, tm: Tm, m: Msg, sh: Shard)
    requires Flows(missed, t, tm, sh) && Over(tm) && (m.RmAck? || m.RmPrepare?)
    ensures Flows(missed, Take(t, m), tm, sh)
  {}

  lemma AdvanceKeepsSides(tm: Tm, r: (Tm, TmOut))
    requires r == Advance(tm)
    ensures r.0.tracer == tm.tracer && r.0.state == tm.state
    ensures (CommitSide(r.0) <==> CommitSide(tm)) && (AbortSide(r.0) <==> AbortSide(tm))
  {
    assert r == Finish(tm) || r == WriteCommit(tm) || r == WriteAbort(tm) || r == (tm, Silent);
  }

  lemma AdvanceFlows(missed: set<Shard>, t: Tx, tm: Tm, sh: Shard)
    requires Flows(missed, t, tm, sh)
    ensures Flows(missed, TmMoves(t, Advance(tm)), Advance(tm).0, sh)
  {
    AdvanceKeepsSides(tm, Advance(tm));
    TmMoveFlows(missed, t, tm, Advance(tm), sh);
  }

  lemma SilentFlows(missed: set<Shard>, t: Tx, tm: Tm, sh: Shard)
    requires Flows(missed, t, tm, sh)
    ensures Flows(missed, TmMoves(t, (tm, Silent)), tm, sh)
  {
    TmMoveFlows(missed, t, tm, (tm, Silent), sh);
  }

  lemma PrepareFlows(missed: set<Shard>, t: Tx, tm: Tm, at: Shard, c: bool, sh: Shard)
    requires Flows(missed, t, tm, sh) && at in tm.tracer
    ensures Flows(missed, TmMoves(Take(t, RmPrepare(at, c)), TmOnPrepare(tm, at, c)), TmOnPrepare(tm, at, c).0, sh)
  {
    var u := Take(t, RmPrepare(at, c));
    if tm.tracer[at] == TIdle {
      NoteVoteFlows(missed, t, tm, at, c, sh);
      AdvanceFlows(missed, u, tm.(tracer := tm.tracer[at := if c then TPrepareCommit else TPrepareAbort]), sh);
    } else {
      OldVoteFlows(missed, t, tm, at, c, sh);
      SilentFlows(missed, u, tm, sh);
    }
  }

  /** A vote already noted stays so when an acknowledgement is taken that tells nothing new. */
  lemma OldAckFlows(missed: set<Shard>, t: Tx, tm: Tm, at: Shard, c: bool, sh: Shard)
    requires Flows(missed, t, tm, sh) && at in tm.tracer && tm.tracer[at] == (if c then TCommitted else TAborted)
    ensures Flows(missed, Take(t, RmAck(at, c)), tm, sh)
  {}

  /** What an acknowledgement finds noted. */
  lemma AckFinds(t: Tx, tm: Tm, at: Shard, c: bool)
    requires ShardInv(t, tm, at) && RmAck(at, c) in t.net
    ensures c ==> tm.tracer[at] == TPrepareCommit || tm.tracer[at] == TCommitted
    ensures !c ==> tm.tracer[at] != TCommitted
  {}

  lemma AckedFlows(missed: set<Shard>, t: Tx, tm: Tm, at: Shard, c: bool, sh: Shard)
    requires Flows(missed, t, tm, sh) && ShardInv(t, tm, sh) && ShardInv(t, tm, at) && RmAck(at, c) in t.net
    ensures Flows(missed, TmMoves(Take(t, RmAck(at, c)), TmOnAck(tm, at, c)), TmOnAck(tm, at, c).0, sh)
  {
    var u, v := Take(t, RmAck(at, c)), if c then TCommitted else TAborted;
    AckFinds(t, tm, at, c);
    if tm.tracer[at] == v {
      OldAckFlows(missed, t, tm, at, c, sh);
      if c { SilentFlows(missed, u, tm, sh); } else { AdvanceFlows(missed, u, tm, sh); }
    } else {
      NoteAckFlows(missed, t, tm, at, c, sh);
      AdvanceFlows(missed, u, tm.(tracer := tm.tracer[at := v]), sh);
    }
  }

  lemma HitFlows(missed: set<Shard>, t: Tx, tm: Tm, ec: EC, sh: Shard)
    requires Flows(missed, t, tm, sh) && (tm.state == TmCommitted ==> tm.wroteCommit)
    ensures Flows(missed, TmMoves(t, TmOnVictim(tm, ec)), TmOnVictim(tm, ec).0, sh)
  {
    SentMessages(tm.tracer.Keys, TmAbort(sh));
    TmMoveFlows(missed, t, tm, TmOnVictim(tm, ec), sh);
  }

  lemma TmRecordFlows(missed: set<Shard>, t: Tx, tm: Tm, k: LogKind, reached: set<Shard>, sh: Shard)
    requires Flows(missed, t, tm, sh) && t.tm == Some(tm) && !Over(tm) && (k == Commit ==> tm.wroteCommit)
    requires (tm.state == TmCommitted ==> tm.wroteCommit) && (tm.state == TmAborted ==> !tm.wroteCommit)
    requires k == End ==> tm.state != TmIdle
    ensures var u := OnTmLog(t, k, reached); u.tm.Some? && Flows(missed, u, u.tm.value, sh)
  {
    match k
    case Begin => TmMoveFlows(missed, t, tm, TmOnBegin(tm, reached), sh);
    case Commit => SentMessages(tm.tracer.Keys, TmCommit(sh)); TmMoveFlows(missed, t, tm, TmOnCommitted(tm), sh);
    case Abort => SentMessages(tm.tracer.Keys, TmAbort(sh)); TmMoveFlows(missed, t, tm, TmOnAborted(tm), sh);
    case End => TmMoveFlows(missed, t, tm, TmOnEnded(tm), sh);
    case _ =>
  }

  // ---------------------------------------------------------------- every event, one shard

  lemma ToRmFlows(missed: set<Shard>, t: Tx, m: Msg, sh: Shard)
    requires t.tm.Some? && m in t.net && (m.TmRequest? || m.TmCommit? || m.TmAbort?)
    requires Flows(missed, t, t.tm.value, sh) && ShardInv(t, t.tm.value, sh)
    ensures Flows(missed + MissedAt(t, Deliver(m)), OnMessage(t, m), t.tm.value, sh)
  {
    var tm, u, more := t.tm.value, Take(t, m), missed + MissedAt(t, Deliver(m));
    ToRm(t, m);
    MoreMissed(missed, more, t, tm, sh);
    if m.shard != sh || m.TmRequest? {
      TakeFrame(more, t, tm, m, sh);
      if m.TmRequest? && m.shard == sh && sh in t.plan && sh !in t.rms {
        RmWorksFlows(more, u, tm, sh, RmStart(t.plan[sh], true));
      } else if OnMessage(t, m) != u {
        OtherRmFlows(more, t, m, sh);
      }
    } else if m.TmCommit? {
      CommitFlows(more, t, tm, sh);
    } else if sh in t.rms {
      AbortFlows(more, t, tm, sh);
    } else {
      MissedFlows(missed, t, tm, sh);
    }
  }

  lemma OtherRmFlows(missed: set<Shard>, t: Tx, m: Msg, sh: Shard)
    requires t.tm.Some? && m.shard != sh && (m.TmRequest? || m.TmCommit? || m.TmAbort?)
    requires Flows(missed, Take(t, m), t.tm.value, sh)
    ensures Flows(missed, OnMessage(t, m), t.tm.value, sh)
  {
    var tm, u := t.tm.value, Take(t, m);
    ToRm(t, m);
    if m.TmRequest? && m.shard in t.plan && m.shard !in t.rms {
      RmFrameFlows(missed, u, tm, m.shard, RmStart(t.plan[m.shard], true), sh);
    }
    if m.TmCommit? && m.shard in t.rms { RmFrameFlows(missed, u, tm, m.shard, RmOnTmCommit(t.rms[m.shard]), sh); }
    if m.TmAbort? && m.shard in t.rms { RmFrameFlows(missed, u, tm, m.shard, RmOnTmAbort(t.rms[m.shard]), sh); }
  }

  lemma ToTmFlows(missed: set<Shard>, t: Tx, m: Msg, sh: Shard)
    requires t.tm.Some? && m in t.net && (m.RmPrepare? || m.RmAck? || m.RmVictim?)
    requires Flows(missed, t, t.tm.value, sh) && ShardInv(t, t.tm.value, sh)
    requires m.shard in t.tm.value.tracer ==> ShardInv(t, t.tm.value, m.shard)
    requires t.tm.value.state == TmCommitted ==> t.tm.value.wroteCommit
    ensures OnMessage(t, m).tm.Some? && Flows(missed, OnMessage(t, m), OnMessage(t, m).tm.value, sh)
  {
    var tm := t.tm.value;
    ToTm(t, m);
    if m.RmVictim? {
      TakeFrame(missed, t, tm, m, sh);
      if TmListens(t, m.shard) { HitFlows(missed, Take(t, m), tm, Victim, sh); }
    } else if !TmListens(t, m.shard) {
      if Over(tm) { OverFlows(missed, t, tm, m, sh); } else { TakeFrame(missed, t, tm, m, sh); }
    } else if m.RmPrepare? {
      PrepareFlows(missed, t, tm, m.shard, m.commit, sh);
    } else {
      AckedFlows(missed, t, tm, m.shard, m.commit, sh);
    }
  }

  lemma RecordFlows(missed: set<Shard>, t: Tx, r: LogRec, reached: set<Shard>, sh: Shard)
    requires t.tm.Some? && r in t.pending && Flows(missed, t, t.tm.value, sh)
    requires ShardInv(t, t.tm.value, sh) && TmInv(t, t.tm.value) && (r.RmLog? ==> r.shard in t.rms)
    ensures OnLog(t, r, reached).tm.Some? && Flows(missed, OnLog(t, r, reached), OnLog(t, r, reached).tm.value, sh)
  {
    var tm, u := t.tm.value, Sync(t, r);
    LogIs(t, r, reached);
    if r.TmLog? || r.shard != sh {
      SyncFrame(missed, t, tm, r, sh);
      if r.RmLog? {
        RmFrameFlows(missed, u, tm, r.shard, RmOnLog(t.rms[r.shard], r.kind), sh);
      } else if !Over(tm) {
        TmRecordFlows(missed, u, tm, r.kind, reached, sh);
      }
    } else {
      LogFlows(missed, t, tm, sh, r.kind);
    }
  }

  lemma StartFlows(t: Tx, led: set<Shard>, sh: Shard)
    requires t == InitTx(false, t.plan) && sh in t.plan
    ensures Flows({}, TmMoves(t, TmStart(t.plan.Keys, led)), TmStart(t.plan.Keys, led).0, sh)
  {}

  lemma WorkFlows(missed: set<Shard>, t: Tx, e: Event, sh: Shard)
    requires t.tm.Some? && Enabled(t, e) && (e.LockTold? || e.OpDone? || e.RmHit?)
    requires Flows(missed, t, t.tm.value, sh) && (e.shard == sh ==> ShardInv(t, t.tm.value, sh))
    ensures Next(t, e).tm == t.tm && Flows(missed, Next(t, e), t.tm.value, sh)
  {
    var tm, rm := t.tm.value, t.rms[e.shard];
    var r := if e.LockTold? then RmOnLock(rm) else if e.RmHit? then RmOnVictim(rm, e.ec)
             else if rm.ops == [] then (rm, Quiet) else RmOnOpDone(rm, e.ec);
    if e.shard != sh { RmFrameFlows(missed, t, tm, e.shard, r, sh); } else { RmWorksFlows(missed, t, tm, sh, r); }
    assert e.OpDone? && rm.ops == [] ==> t.rms[e.shard := rm] == t.rms;
  }

  // ---------------------------------------------------------------- every event

  lemma MessageFlows(missed: set<Shard>, t: Tx, m: Msg)
    requires DistInv(t) && FlowInv(missed, t) && t.tm.Some? && m in t.net
    ensures var u := OnMessage(t, m);
      u.tm.Some? && forall sh :: sh in t.plan ==> Flows(missed + MissedAt(t, Deliver(m)), u, u.tm.value, sh)
  {
    var tm, u := t.tm.value, OnMessage(t, m);
    if m.TmRequest? || m.TmCommit? || m.TmAbort? {
      assert u.tm == t.tm by { ToRm(t, m); }
      forall sh | sh in t.plan ensures Flows(missed + MissedAt(t, Deliver(m)), u, tm, sh) {
        assert ShardInv(t, tm, sh) && Flows(missed, t, tm, sh);
        ToRmFlows(missed, t, m, sh);
      }
    } else {
      assert u.tm.Some? by { ToTm(t, m); }
      assert missed + MissedAt(t, Deliver(m)) == missed;
      forall sh | sh in t.plan ensures Flows(missed, u, u.tm.value, sh) {
        assert ShardInv(t, tm, sh) && Flows(missed, t, tm, sh);
        if m.shard in tm.tracer { assert ShardInv(t, tm, m.shard); }
        ToTmFlows(missed, t, m, sh);
      }
    }
  }

  lemma LogRecordFlows(missed: set<Shard>, t: Tx, r: LogRec, reached: set<Shard>)
    requires DistInv(t) && FlowInv(missed, t) && t.tm.Some? && r in t.pending
    ensures var u := OnLog(t, r, reached); u.tm.Some? && forall sh :: sh in t.plan ==> Flows(missed, u, u.tm.value, sh)
  {
    var tm, u := t.tm.value, OnLog(t, r, reached);
    assert u.tm.Some? by { LogIs(t, r, reached); }
    forall sh | sh in t.plan ensures Flows(missed, u, u.tm.value, sh) {
      assert ShardInv(t, tm, sh) && Flows(missed, t, tm, sh);
      RecordFlows(missed, t, r, reached, sh);
    }
  }

  /** A step that neither ends the transaction nor logs its end. */
  lemma TmMoveTm(t: Tx, tm: Tm, r: (Tm, TmOut))
    requires TmFlows(t, tm) && (Over(r.0) <==> Over(tm)) && (tm.state != TmIdle ==> r.0.state != TmIdle)
    requires r.0.wroteEnd == tm.wroteEnd && (tm.responded ==> r.0.responded) && r.1.log != Some(End)
    ensures TmFlows(TmMoves(t, r), r.0)
  {}

  lemma FinishTm(t: Tx, tm: Tm)
    requires TmFlows(t, tm)
    ensures TmFlows(TmMoves(t, Finish(tm)), Finish(tm).0)
  {}

  lemma AdvanceTm(t: Tx, tm: Tm)
    requires TmFlows(t, tm)
    ensures TmFlows(TmMoves(t, Advance(tm)), Advance(tm).0)
  {
    if AllAre(tm.tracer, TCommitted) || AllAre(tm.tracer, TAborted) { FinishTm(t, tm); }
    else if AllAre(tm.tracer, TPrepareCommit) { TmMoveTm(t, tm, WriteCommit(tm)); }
    else if AllPrepared(tm.tracer) { TmMoveTm(t, tm, WriteAbort(tm)); }
    else { TmMoveTm(t, tm, (tm, Silent)); }
  }

  lemma NotedTm(t: Tx, tm: Tm, at: Shard, v: Tracer)
    requires TmFlows(t, tm)
    ensures TmFlows(t, tm.(tracer := tm.tracer[at := v]))
  {}

  lemma ListenTm(t: Tx, m: Msg)
    requires t.tm.Some? && TmFlows(t, t.tm.value) && (m.RmPrepare? || m.RmAck?) && TmListens(t, m.shard)
    ensures OnMessage(t, m).tm.Some? && TmFlows(OnMessage(t, m), OnMessage(t, m).tm.value)
  {
    var tm, u := t.tm.value, Take(t, m);
    var v := if m.RmPrepare? then (if m.commit then TPrepareCommit else TPrepareAbort)
             else if m.commit then TCommitted else TAborted;
    ToTm(t, m);
    NotedTm(u, tm, m.shard, v);
    AdvanceTm(u, tm.(tracer := tm.tracer[m.shard := v]));
    AdvanceTm(u, tm);
    TmMoveTm(u, tm, (tm, Silent));
  }

  /** What the coordinator has been told is durable, it has acted upon. */
  lemma MessageTmFlows(t: Tx, m: Msg)
    requires t.tm.Some? && TmFlows(t, t.tm.value)
    ensures OnMessage(t, m).tm.Some? && TmFlows(OnMessage(t, m), OnMessage(t, m).tm.value)
  {
    if m.TmRequest? || m.TmCommit? || m.TmAbort? {
      ToRm(t, m);
    } else if !TmListens(t, m.shard) {
      ToTm(t, m);
    } else if m.RmVictim? {
      ToTm(t, m);
      TmMoveTm(Take(t, m), t.tm.value, TmOnVictim(t.tm.value, Victim));
    } else {
      ListenTm(t, m);
    }
  }

  lemma TmLogTmFlows(t: Tx, k: LogKind, reached: set<Shard>)
    requires t.tm.Some? && TmFlows(t, t.tm.value) && !Over(t.tm.value) && TmLog(k) in t.pending
    ensures var u := OnTmLog(Sync(t, TmLog(k)), k, reached); u.tm.Some? && TmFlows(u, u.tm.value)
  {
    var tm, u := t.tm.value, Sync(t, TmLog(k));
    match k
    case Begin => TmMoveTm(u, tm, TmOnBegin(tm, reached));
    case Commit => TmMoveTm(u, tm, TmOnCommitted(tm));
    case Abort =>
    case End =>
    case _ =>
  }

  lemma LogTmFlows(t: Tx, r: LogRec, reached: set<Shard>)
    requires t.tm.Some? && TmFlows(t, t.tm.value) && r in t.pending
    ensures OnLog(t, r, reached).tm.Some? && TmFlows(OnLog(t, r, reached), OnLog(t, r, reached).tm.value)
  {
    LogIs(t, r, reached);
    if r.TmLog? && !Over(t.tm.value) { TmLogTmFlows(t, r.kind, reached); }
  }

  lemma WorkKeepsFlows(missed: set<Shard>, t: Tx, e: Event)
    requires DistInv(t) && FlowInv(missed, t) && Enabled(t, e) && t.tm.Some? && (e.LockTold? || e.OpDone? || e.RmHit?)
    ensures FlowInv(missed, Next(t, e))
  {
    NextSameTx(t, e);
    forall sh | sh in t.plan ensures Flows(missed, Next(t, e), t.tm.value, sh) {
      assert ShardInv(t, t.tm.value, sh) && Flows(missed, t, t.tm.value, sh);
      WorkFlows(missed, t, e, sh);
    }
  }

  lemma HitKeepsFlows(missed: set<Shard>, t: Tx, ec: EC)
    requires DistInv(t) && FlowInv(missed, t) && t.tm.Some?
    ensures FlowInv(missed, TmMoves(t, TmOnVictim(t.tm.value, ec)))
  {
    var r := TmOnVictim(t.tm.value, ec);
    forall sh | sh in t.plan ensures Flows(missed, TmMoves(t, r), r.0, sh) {
      HitFlows(missed, t, t.tm.value, ec, sh);
    }
  }

  lemma NextFlows(missed: set<Shard>, t: Tx, e: Event)
    requires DistInv(t) && FlowInv(missed, t) && Enabled(t, e) && t.tm.Some?
    ensures FlowInv(missed + MissedAt(t, e), Next(t, e))
  {
    NextSameTx(t, e);
    assert !e.Deliver? ==> missed + MissedAt(t, e) == missed;
    match e
    case Deliver(m) => MessageFlows(missed, t, m); MessageTmFlows(t, m);
    case LogDone(r, reached) => LogRecordFlows(missed, t, r, reached); LogTmFlows(t, r, reached);
    case TmHit(ec) => HitKeepsFlows(missed, t, ec);
    case LockTold(_) => WorkKeepsFlows(missed, t, e);
    case OpDone(_, _) => WorkKeepsFlows(missed, t, e);
    case RmHit(_, _) => WorkKeepsFlows(missed, t, e);
    case _ =>
  }

  lemma AcceptFlows(missed: set<Shard>, t: Tx, led: set<Shard>)
    requires t == InitTx(false, t.plan)
    ensures FlowInv(missed, TmMoves(t, TmStart(t.plan.Keys, led)))
  {
    forall sh | sh in t.plan
      ensures Flows(missed, TmMoves(t, TmStart(t.plan.Keys, led)), TmStart(t.plan.Keys, led).0, sh)
    {
      StartFlows(t, led, sh);
      MoreMissed({}, missed, TmMoves(t, TmStart(t.plan.Keys, led)), TmStart(t.plan.Keys, led).0, sh);
    }
  }

  lemma {:induction false} EveryRunFlows(plan: map<Shard, seq<Op>>, es: seq<Event>)
    requires Legal(InitTx(false, plan), es)
    ensures FlowInv(Missed(plan, es), After(InitTx(false, plan), es))
  {
    if es != [] {
      var front, e := es[..|es| - 1], es[|es| - 1];
      var t := After(InitTx(false, plan), front);
      EveryRunFlows(plan, front);
      EveryRunKeepsInv(false, plan, front);
      if t.tm.Some? {
        NextFlows(Missed(plan, front), t, e);
      } else if e.Accept? {
        AcceptFlows(Missed(plan, es), t, e.led);
      }
    }
  }

  // ---------------------------------------------------------------- at rest

  /** All participants have started, and nothing is under way: no message, no record being
      written, no lock asked for, no operation. */
  ghost predicate AtRest(t: Tx) {
    && t.tm.Some? && t.rms.Keys == t.plan.Keys && t.net == multiset{} && t.pending == {}
    && forall sh :: sh in t.rms ==> !t.rms[sh].waiting && !t.rms[sh].working
  }

  /** The participant has finished with outcome `k`: the record is durable and no lock is left. */
  ghost predicate Finished(t: Tx, sh: Shard, k: LogKind) {
    Durable(t, sh, k) && sh in t.rms && t.rms[sh].state == RmEnded && t.rms[sh].locks == []
  }

  lemma RestVote(missed: set<Shard>, t: Tx, tm: Tm, sh: Shard)
    requires AtRest(t) && tm.state == TmIdle && sh in t.rms && Busy(t.rms[sh])
    requires ShardInv(t, tm, sh) && Flows(missed, t, tm, sh)
    ensures tm.tracer[sh] == TPrepareCommit || tm.tracer[sh] == TPrepareAbort
  {}

  lemma RestIsDecided(missed: set<Shard>, t: Tx)
    requires DistInv(t) && DecideInv(t) && FlowInv(missed, t) && AllBusy(t) && AtRest(t) && t.plan != map[]
    ensures t.tm.value.state != TmIdle
  {
    var tm := t.tm.value;
    forall sh | sh in tm.tracer && tm.state == TmIdle
      ensures tm.tracer[sh] == TPrepareCommit || tm.tracer[sh] == TPrepareAbort
    {
      assert ShardInv(t, tm, sh) && Busy(t.rms[sh]);
      RestVote(missed, t, tm, sh);
    }
    var sh :| sh in t.plan;
    assert sh in tm.tracer;
  }

  lemma RestCommits(missed: set<Shard>, t: Tx, tm: Tm, sh: Shard)
    requires AtRest(t) && CommitSide(tm) && Flows(missed, t, tm, sh)
    ensures Finished(t, sh, Commit) && (tm.tracer[sh] == TCommitted || Over(tm))
  {}

  lemma RestAborts(missed: set<Shard>, t: Tx, tm: Tm, sh: Shard)
    requires AtRest(t) && AbortSide(tm) && Flows(missed, t, tm, sh) && sh !in missed
    ensures Finished(t, sh, Abort) && (tm.tracer[sh] == TAborted || Over(tm))
  {}

  lemma RestIsOver(t: Tx, tm: Tm, v: Tracer)
    requires t.tm == Some(tm) && Decides(t, tm) && TmFlows(t, tm) && t.pending == {} && tm.tracer != map[]
    requires v == TCommitted || v == TAborted
    requires forall sh :: sh in tm.tracer ==> tm.tracer[sh] == v || Over(tm)
    ensures Over(tm) && tm.responded
  {
    if !Over(tm) { assert AllAre(tm.tracer, v); }
  }

  /** A committed transaction at rest: all participants have committed and let go, and the client knows. */
  ghost predicate AllCommitted(t: Tx) {
    && (forall sh :: sh in t.plan ==> Finished(t, sh, Commit)) && t.answers == [Ok]
    && t.tm.Some? && Over(t.tm.value)
  }

  /** An aborted one: so have all but those of `missed`, and the client knows. */
  ghost predicate AllAborted(missed: set<Shard>, t: Tx) {
    && (forall sh :: sh in t.plan ==> !Logged(t, sh, Commit) && (Finished(t, sh, Abort) || sh in missed))
    && |t.answers| == 1 && t.answers != [Ok]
    && t.tm.Some? && (missed !! t.plan.Keys ==> Over(t.tm.value))
  }

  lemma RestCommitted(missed: set<Shard>, t: Tx)
    requires DistInv(t) && DecideInv(t) && FlowInv(missed, t) && AtRest(t) && t.plan != map[] && CommitSide(t.tm.value)
    ensures AllCommitted(t)
  {
    var tm := t.tm.value;
    forall sh | sh in t.plan ensures Finished(t, sh, Commit) && (tm.tracer[sh] == TCommitted || Over(tm)) {
      RestCommits(missed, t, tm, sh);
    }
    var sh :| sh in t.plan;
    assert sh in tm.tracer;
    RestIsOver(t, tm, TCommitted);
  }

  lemma RestAborted(missed: set<Shard>, t: Tx)
    requires DistInv(t) && DecideInv(t) && FlowInv(missed, t) && AtRest(t) && t.plan != map[] && AbortSide(t.tm.value)
    ensures AllAborted(missed, t)
  {
    var tm := t.tm.value;
    forall sh | sh in t.plan ensures !Logged(t, sh, Commit) {
      assert ShardInv(t, tm, sh);
    }
    forall sh | sh in t.plan && sh !in missed
      ensures Finished(t, sh, Abort) && (tm.tracer[sh] == TAborted || Over(tm))
    {
      RestAborts(missed, t, tm, sh);
    }
    var sh :| sh in t.plan;
    assert sh in tm.tracer;
    if missed !! t.plan.Keys { RestIsOver(t, tm, TAborted); }
  }

  lemma RestFacts(plan: map<Shard, seq<Op>>, es: seq<Event>)
    requires Legal(InitTx(false, plan), es)
    ensures var t := After(InitTx(false, plan), es);
      DistInv(t) && DecideInv(t) && FlowInv(Missed(plan, es), t) && AllBusy(t) && t.plan == plan
  {
    EveryRunKeepsInv(false, plan, es);
    EveryRunDecides(plan, es);
    EveryRunFlows(plan, es);
    EveryRunBusy(false, plan, es);
  }

  lemma RestSides(missed: set<Shard>, t: Tx)
    requires DistInv(t) && DecideInv(t) && FlowInv(missed, t) && AllBusy(t) && AtRest(t) && t.plan != map[]
    ensures CommitSide(t.tm.value) || AbortSide(t.tm.value)
  {
    RestIsDecided(missed, t);
  }

  /** A transaction whose participants have all started and that has come to rest has committed
      everywhere, or has aborted everywhere but where the abort came too early. */
  lemma RestOutcome(plan: map<Shard, seq<Op>>, es: seq<Event>)
    requires Legal(InitTx(false, plan), es) && plan != map[] && AtRest(After(InitTx(false, plan), es))
    ensures AllCommitted(After(InitTx(false, plan), es)) || AllAborted(Missed(plan, es), After(InitTx(false, plan), es))
  {
    var t, missed := After(InitTx(false, plan), es), Missed(plan, es);
    RestFacts(plan, es);
    RestSides(missed, t);
    if CommitSide(t.tm.value) { RestCommitted(missed, t); } else { RestAborted(missed, t); }
  }
}
