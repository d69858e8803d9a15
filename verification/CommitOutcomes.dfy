/** What the operations of a transaction do to its outcome: a failed operation keeps its
    transaction from committing, and a run that has come to rest has committed everywhere
    or aborted everywhere, as the operations decide. */
module CommitOutcomes {
  import opened Base
  import opened TwoPhaseCommit
  import opened CommitProtocol

  /** An operation of the participant at `sh` has failed. */
  ghost predicate OpFailed(es: seq<Event>, sh: Shard) {
    exists i :: 0 <= i < |es| && es[i].OpDone? && es[i].shard == sh && es[i].ec != Ok
  }

  lemma FailedMore(es: seq<Event>, sh: Shard)
    requires es != []
    ensures OpFailed(es, sh) <==>
      OpFailed(es[..|es| - 1], sh) || (es[|es| - 1].OpDone? && es[|es| - 1].shard == sh && es[|es| - 1].ec != Ok)
  {
    var front := es[..|es| - 1];
    if OpFailed(front, sh) {
      var i :| 0 <= i < |front| && front[i].OpDone? && front[i].shard == sh && front[i].ec != Ok;
      assert es[i] == front[i];
    }
    if OpFailed(es, sh) {
      var i :| 0 <= i < |es| && es[i].OpDone? && es[i].shard == sh && es[i].ec != Ok;
      if i < |front| { assert front[i] == es[i]; }
    }
  }

  // ---------------------------------------------------------------- what one event does to one participant

  /** The participant at `sh` will not commit any more. */
  ghost predicate Lost(t: Tx, sh: Shard) {
    && sh in t.rms && t.rms[sh].state != RmIdle
    && t.rms[sh].state != RmPrepareCommitting && t.rms[sh].state != RmCommitting
    && !Logged(t, sh, PrepareCommit) && !Logged(t, sh, Commit)
  }

  /** A participant at work has something under way. */
  predicate Busy(rm: Rm) { rm.state == RmIdle ==> rm.waiting || rm.working }

  ghost predicate AllBusy(t: Tx) { forall sh :: sh in t.rms ==> Busy(t.rms[sh]) }

  lemma RmKeepsLost(t: Tx, at: Shard, r: (Rm, RmOut), sh: Shard)
    requires Lost(t, sh)
    requires at == sh ==>
      && r.0.state != RmIdle && r.0.state != RmPrepareCommitting && r.0.state != RmCommitting
      && r.1.log != Some(PrepareCommit) && r.1.log != Some(Commit)
    ensures Lost(RmMoves(t, at, r), sh)
  {}

  lemma MessageKeepsLost(t: Tx, m: Msg, sh: Shard)
    requires Lost(t, sh)
    ensures Lost(OnMessage(t, m), sh)
  {
    ToRm(t, m);
    ToTm(t, m);
    var u := Take(t, m);
    assert Lost(u, sh);
    if m.TmRequest? && m.shard in t.plan && m.shard !in t.rms {
      RmKeepsLost(u, m.shard, RmStart(t.plan[m.shard], true), sh);
    }
    if m.TmCommit? && m.shard in t.rms { RmKeepsLost(u, m.shard, RmOnTmCommit(t.rms[m.shard]), sh); }
    if m.TmAbort? && m.shard in t.rms { RmKeepsLost(u, m.shard, RmOnTmAbort(t.rms[m.shard]), sh); }
  }

  lemma LogKeepsLost(t: Tx, r: LogRec, reached: set<Shard>, sh: Shard)
    requires Lost(t, sh) && r in t.pending
    ensures Lost(OnLog(t, r, reached), sh)
  {
    LogIs(t, r, reached);
    assert Lost(Sync(t, r), sh);
    if r.RmLog? && r.shard in t.rms { RmKeepsLost(Sync(t, r), r.shard, RmOnLog(t.rms[r.shard], r.kind), sh); }
  }

  lemma NextKeepsLost(t: Tx, e: Event, sh: Shard)
    requires Lost(t, sh) && Enabled(t, e)
    ensures Lost(Next(t, e), sh)
  {
    match e
    case Deliver(m) => MessageKeepsLost(t, m, sh);
    case LogDone(r, reached) => LogKeepsLost(t, r, reached, sh);
    case _ =>
  }

  /** The failure itself. */
  lemma FailureLoses(t: Tx, sh: Shard, ec: EC)
    requires TxInv(t) && Enabled(t, OpDone(sh, ec)) && ec != Ok
    ensures Lost(Next(t, OpDone(sh, ec)), sh)
  {
    if t.local { assert LocalRmInv(t, sh); } else { assert ShardInv(t, t.tm.value, sh); }
  }

  lemma {:induction false} FailedIsLost(local: bool, plan: map<Shard, seq<Op>>, es: seq<Event>, sh: Shard)
    requires Legal(InitTx(local, plan), es) && OpFailed(es, sh)
    ensures Lost(After(InitTx(local, plan), es), sh)
  {
    var front, e := es[..|es| - 1], es[|es| - 1];
    var t := After(InitTx(local, plan), front);
    FailedMore(es, sh);
    EveryRunKeepsInv(local, plan, front);
    if OpFailed(front, sh) {
      FailedIsLost(local, plan, front, sh);
      NextKeepsLost(t, e, sh);
    } else {
      FailureLoses(t, sh, e.ec);
    }
  }

  /** A participant one of whose operations has failed never logs a vote to commit, or a commit. */
  lemma FailedNeverCommits(local: bool, plan: map<Shard, seq<Op>>, es: seq<Event>, sh: Shard)
    requires Legal(InitTx(local, plan), es) && OpFailed(es, sh)
    ensures !Logged(After(InitTx(local, plan), es), sh, PrepareCommit)
    ensures !Logged(After(InitTx(local, plan), es), sh, Commit)
  {
    FailedIsLost(local, plan, es, sh);
  }

  /** Nor does any other shard of its transaction, and the client is never told it committed. */
  lemma FailedFailsAll(plan: map<Shard, seq<Op>>, es: seq<Event>, sh: Shard, a: Shard)
    requires Legal(InitTx(false, plan), es) && OpFailed(es, sh) && sh in plan
    ensures !Logged(After(InitTx(false, plan), es), a, Commit) && After(InitTx(false, plan), es).answers != [Ok]
  {
    FailedNeverCommits(false, plan, es, sh);
    AtomicCommitment(plan, es, a, sh);
    assert es[..|es|] == es;
    ClientAnswer(plan, es, |es|, sh);
  }

  // ---------------------------------------------------------------- why a participant votes to abort

  lemma MessageLogs(t: Tx, m: Msg, sh: Shard)
    requires Logged(OnMessage(t, m), sh, PrepareAbort)
    ensures Logged(t, sh, PrepareAbort)
  {
    ToRm(t, m);
    ToTm(t, m);
  }

  lemma LogLogs(t: Tx, r: LogRec, reached: set<Shard>, sh: Shard)
    requires r in t.pending && Logged(OnLog(t, r, reached), sh, PrepareAbort)
    ensures Logged(t, sh, PrepareAbort)
  {
    LogIs(t, r, reached);
  }

  lemma AbortVoteHasCause(t: Tx, e: Event, sh: Shard)
    requires Enabled(t, e) && !Logged(t, sh, PrepareAbort) && Logged(Next(t, e), sh, PrepareAbort)
    ensures e.OpDone? && e.shard == sh && e.ec != Ok
  {
    match e
    case Deliver(m) => MessageLogs(t, m, sh);
    case LogDone(r, reached) => LogLogs(t, r, reached, sh);
    case _ =>
  }

  /** A vote to abort is logged only after an operation has failed. */
  lemma {:induction false} AbortVoteMeansFailed(local: bool, plan: map<Shard, seq<Op>>, es: seq<Event>, sh: Shard)
    requires Legal(InitTx(local, plan), es) && Logged(After(InitTx(local, plan), es), sh, PrepareAbort)
    ensures OpFailed(es, sh)
  {
    if es != [] {
      var front, e := es[..|es| - 1], es[|es| - 1];
      FailedMore(es, sh);
      if Logged(After(InitTx(local, plan), front), sh, PrepareAbort) {
        AbortVoteMeansFailed(local, plan, front, sh);
      } else {
        AbortVoteHasCause(After(InitTx(local, plan), front), e, sh);
      }
    }
  }

  // ---------------------------------------------------------------- participants do not stall

  lemma NextOperationBusy(rm: Rm)
    ensures Busy(NextOperation(rm).0)
  {}

  lemma RmKeepsBusy(t: Tx, at: Shard, r: (Rm, RmOut))
    requires AllBusy(t) && Busy(r.0)
    ensures AllBusy(RmMoves(t, at, r))
  {}

  lemma MessageKeepsBusy(t: Tx, m: Msg)
    requires AllBusy(t)
    ensures AllBusy(OnMessage(t, m))
  {
    ToRm(t, m);
    ToTm(t, m);
    var u := Take(t, m);
    assert AllBusy(u);
    if m.TmRequest? && m.shard in t.plan && m.shard !in t.rms {
      RmKeepsBusy(u, m.shard, RmStart(t.plan[m.shard], true));
    }
    if m.TmCommit? && m.shard in t.rms { RmKeepsBusy(u, m.shard, RmOnTmCommit(t.rms[m.shard])); }
    if m.TmAbort? && m.shard in t.rms { RmKeepsBusy(u, m.shard, RmOnTmAbort(t.rms[m.shard])); }
  }

  lemma LogKeepsBusy(t: Tx, r: LogRec, reached: set<Shard>)
    requires AllBusy(t) && r in t.pending
    ensures AllBusy(OnLog(t, r, reached))
  {
    LogIs(t, r, reached);
    assert AllBusy(Sync(t, r));
    if r.RmLog? && r.shard in t.rms { RmKeepsBusy(Sync(t, r), r.shard, RmOnLog(t.rms[r.shard], r.kind)); }
  }

  lemma NextKeepsBusy(t: Tx, e: Event)
    requires AllBusy(t) && Enabled(t, e)
    ensures AllBusy(Next(t, e))
  {
    match e
    case Deliver(m) => MessageKeepsBusy(t, m);
    case LogDone(r, reached) => LogKeepsBusy(t, r, reached);
    case OpDone(sh, ec) =>
      if t.rms[sh].ops != [] {
        NextOperationBusy(t.rms[sh].(working := false, ops := t.rms[sh].ops[1..], error := ec));
      }
    case _ =>
  }

  lemma {:induction false} EveryRunBusy(local: bool, plan: map<Shard, seq<Op>>, es: seq<Event>)
    requires Legal(InitTx(local, plan), es)
    ensures AllBusy(After(InitTx(local, plan), es))
  {
    if es != [] {
      EveryRunBusy(local, plan, es[..|es| - 1]);
      NextKeepsBusy(After(InitTx(local, plan), es[..|es| - 1]), es[|es| - 1]);
    }
  }

  /** A participant with nothing under way that was not aborted has logged its vote: to commit
      exactly when none of its operations failed. */
  lemma VoteIsDecided(plan: map<Shard, seq<Op>>, es: seq<Event>, sh: Shard)
    requires Legal(InitTx(false, plan), es)
    requires var t := After(InitTx(false, plan), es);
      sh in t.rms && !t.rms[sh].waiting && !t.rms[sh].working && !Logged(t, sh, Abort)
    ensures var t := After(InitTx(false, plan), es);
      if OpFailed(es, sh) then Logged(t, sh, PrepareAbort) && !Logged(t, sh, PrepareCommit)
      else Logged(t, sh, PrepareCommit) && !Logged(t, sh, PrepareAbort)
  {
    var t := After(InitTx(false, plan), es);
    EveryRunKeepsInv(false, plan, es);
    EveryRunBusy(false, plan, es);
    assert ShardInv(t, t.tm.value, sh) && Busy(t.rms[sh]);
    if OpFailed(es, sh) { FailedIsLost(false, plan, es, sh); }
    if Logged(t, sh, PrepareAbort) { AbortVoteMeansFailed(false, plan, es, sh); }
  }
}
