/** What an abort from outside does to a distributed transaction, and that no client is left without
    an answer once the coordinator has logged the begin. */
module CommitHits {
  import opened TwoPhaseCommit
  import opened CommitProtocol
  import opened CommitDecisions
  import opened CommitRest

  // ---------------------------------------------------------------- an abort stays

  /** The coordinator has given up, or finished after it did. */
  ghost predicate GivenUp(t: Tx) { t.tm.Some? && AbortSide(t.tm.value) }

  lemma ToTmStaysUp(t: Tx, m: Msg)
    requires GivenUp(t)
    ensures GivenUp(OnMessage(t, m))
  {
    ToRm(t, m);
    ToTm(t, m);
    if TmListens(t, m.shard) && (m.RmPrepare? || m.RmAck?) {
      var tm := t.tm.value;
      var v := if m.RmPrepare? then (if m.commit then TPrepareCommit else TPrepareAbort)
               else if m.commit then TCommitted else TAborted;
      var n := tm.(tracer := tm.tracer[m.shard := v]);
      AdvanceKeepsSides(n, Advance(n));
      AdvanceKeepsSides(tm, Advance(tm));
    }
  }

  lemma LogStaysUp(t: Tx, r: LogRec, reached: set<Shard>)
    requires GivenUp(t) && TmInv(t, t.tm.value) && r in t.pending
    ensures GivenUp(OnLog(t, r, reached))
  {
    LogIs(t, r, reached);
  }

  lemma NextStaysUp(t: Tx, e: Event)
    requires DistInv(t) && GivenUp(t) && Enabled(t, e)
    ensures GivenUp(Next(t, e))
  {
    match e
    case Deliver(m) => ToTmStaysUp(t, m);
    case LogDone(r, reached) => LogStaysUp(t, r, reached);
    case _ =>
  }

  /** The event hits a coordinator that has not logged a commit: directly, or by a participant's notice. */
  ghost predicate HitsOpen(t: Tx, e: Event) {
    && t.tm.Some? && t.tm.value.state != TmDone && !TmLogged(t, Commit)
    && (e.TmHit? || (e.Deliver? && e.msg.RmVictim? && e.msg.shard in t.plan))
  }

  lemma VictimGivesUp(t: Tx, tm: Tm, ec: EC)
    requires TmInv(t, tm) && Decides(t, tm) && tm.state != TmDone && !TmLogged(t, Commit)
    ensures AbortSide(TmOnVictim(tm, ec).0)
  {}

  lemma HitGivesUp(t: Tx, e: Event)
    requires t.tm.Some? && TmInv(t, t.tm.value) && Decides(t, t.tm.value) && Enabled(t, e) && HitsOpen(t, e)
    ensures GivenUp(Next(t, e))
  {
    VictimGivesUp(t, t.tm.value, if e.TmHit? then e.ec else Victim);
    if e.Deliver? { ToTm(t, e.msg); }
  }

  ghost predicate HitBefore(plan: map<Shard, seq<Op>>, es: seq<Event>)
    requires Legal(InitTx(false, plan), es)
  {
    es != [] &&
    (HitBefore(plan, es[..|es| - 1]) || HitsOpen(After(InitTx(false, plan), es[..|es| - 1]), es[|es| - 1]))
  }

  lemma {:induction false} HitIsGivenUp(plan: map<Shard, seq<Op>>, es: seq<Event>)
    requires Legal(InitTx(false, plan), es) && HitBefore(plan, es)
    ensures GivenUp(After(InitTx(false, plan), es))
  {
    var front, e := es[..|es| - 1], es[|es| - 1];
    var t := After(InitTx(false, plan), front);
    EveryRunKeepsInv(false, plan, front);
    if HitBefore(plan, front) {
      HitIsGivenUp(plan, front);
      NextStaysUp(t, e);
    } else {
      EveryRunDecides(plan, front);
      HitGivesUp(t, e);
    }
  }

  /** A transaction hit before its commit was logged never commits: not at the coordinator, not at a
      participant. */
  lemma HitForbidsCommit(plan: map<Shard, seq<Op>>, es: seq<Event>, sh: Shard)
    requires Legal(InitTx(false, plan), es) && HitBefore(plan, es) && sh in plan
    ensures !TmLogged(After(InitTx(false, plan), es), Commit) && !Logged(After(InitTx(false, plan), es), sh, Commit)
  {
    HitIsGivenUp(plan, es);
    EveryRunKeepsInv(false, plan, es);
    var t := After(InitTx(false, plan), es);
    assert ShardInv(t, t.tm.value, sh);
  }

  lemma HitNotice(t: Tx, tm: Tm, sh: Shard, ec: EC)
    requires ShardInv(t, tm, sh) && Enabled(t, RmHit(sh, ec))
    ensures RmVictim(sh) in Next(t, RmHit(sh, ec)).net
  {}

  /** A participant that is hit sends the coordinator a notice. */
  lemma HitIsNoticed(plan: map<Shard, seq<Op>>, es: seq<Event>, sh: Shard, ec: EC)
    requires Legal(InitTx(false, plan), es) && Enabled(After(InitTx(false, plan), es), RmHit(sh, ec))
    ensures RmVictim(sh) in Next(After(InitTx(false, plan), es), RmHit(sh, ec)).net
  {
    var t := After(InitTx(false, plan), es);
    EveryRunKeepsInv(false, plan, es);
    HitNotice(t, t.tm.value, sh, ec);
  }

  // ---------------------------------------------------------------- every client is answered

  ghost predicate Requested(t: Tx, sh: Shard) { TmRequest(sh) in t.net || sh in t.rms }

  /** Once the begin is durable all shards are requested, or the client has its answer. */
  ghost predicate BegunInv(t: Tx) {
    t.tm.Some? && TmLog(Begin) in t.durable ==> t.tm.value.responded || forall sh :: sh in t.plan ==> Requested(t, sh)
  }

  /** The network keeps its requests, participants stay, answers stay. */
  ghost predicate Keeps(t: Tx, u: Tx) {
    && u.plan == t.plan && t.tm.Some? && u.tm.Some? && (t.tm.value.responded ==> u.tm.value.responded)
    && (forall sh :: sh in t.plan && Requested(t, sh) ==> Requested(u, sh))
  }

  lemma KeepsBegun(t: Tx, u: Tx)
    requires BegunInv(t) && Keeps(t, u) && (TmLog(Begin) in u.durable ==> TmLog(Begin) in t.durable)
    ensures BegunInv(u)
  {}

  lemma AdvanceResponded(tm: Tm)
    ensures tm.responded ==> Advance(tm).0.responded
  {}

  lemma MessageKeeps(t: Tx, m: Msg)
    requires t.tm.Some?
    ensures Keeps(t, OnMessage(t, m)) && OnMessage(t, m).durable == t.durable
  {
    ToRm(t, m);
    ToTm(t, m);
    if TmListens(t, m.shard) && (m.RmPrepare? || m.RmAck?) {
      var tm := t.tm.value;
      var v := if m.RmPrepare? then (if m.commit then TPrepareCommit else TPrepareAbort)
               else if m.commit then TCommitted else TAborted;
      AdvanceResponded(tm.(tracer := tm.tracer[m.shard := v]));
      AdvanceResponded(tm);
    }
  }

  lemma BeginBegun(t: Tx, reached: set<Shard>)
    requires DistInv(t) && t.tm.Some? && TmLog(Begin) in t.pending && t.tm.value.state != TmDone
    ensures BegunInv(OnLog(t, TmLog(Begin), reached))
  {
    LogIs(t, TmLog(Begin), reached);
    var tm, u := t.tm.value, OnLog(t, TmLog(Begin), reached);
    if tm.tracer.Keys <= reached {
      forall sh | sh in t.plan ensures Requested(u, sh) { SentMessages(tm.tracer.Keys, TmRequest(sh)); }
    }
  }

  lemma TmMoveKeeps(t: Tx, r: LogRec, q: (Tm, TmOut))
    requires t.tm.Some? && (t.tm.value.responded ==> q.0.responded)
    ensures Keeps(t, TmMoves(Sync(t, r), q)) && TmMoves(Sync(t, r), q).durable == t.durable + {r}
  {}

  lemma TmLogKeeps(t: Tx, k: LogKind, reached: set<Shard>)
    requires t.tm.Some? && k != Begin && t.tm.value.state != TmDone
    ensures Keeps(t, OnLog(t, TmLog(k), reached)) && OnLog(t, TmLog(k), reached).durable == t.durable + {TmLog(k)}
  {
    var tm := t.tm.value;
    LogIs(t, TmLog(k), reached);
    match k
    case Commit => TmMoveKeeps(t, TmLog(k), TmOnCommitted(tm));
    case Abort => TmMoveKeeps(t, TmLog(k), TmOnAborted(tm));
    case End => TmMoveKeeps(t, TmLog(k), TmOnEnded(tm));
    case _ =>
  }

  lemma OtherLogKeeps(t: Tx, r: LogRec, reached: set<Shard>)
    requires t.tm.Some? && r != TmLog(Begin)
    ensures Keeps(t, OnLog(t, r, reached))
    ensures TmLog(Begin) in OnLog(t, r, reached).durable ==> TmLog(Begin) in t.durable
  {
    if r.TmLog? && t.tm.value.state != TmDone { TmLogKeeps(t, r.kind, reached); } else { LogIs(t, r, reached); }
  }

  lemma LogBegun(t: Tx, r: LogRec, reached: set<Shard>)
    requires DistInv(t) && BegunInv(t) && t.tm.Some? && r in t.pending && TmFlows(t, t.tm.value)
    ensures BegunInv(OnLog(t, r, reached))
  {
    if r != TmLog(Begin) {
      OtherLogKeeps(t, r, reached);
      KeepsBegun(t, OnLog(t, r, reached));
    } else if t.tm.value.state != TmDone {
      BeginBegun(t, reached);
    } else {
      LogIs(t, r, reached);
    }
  }

  lemma NextBegun(t: Tx, e: Event)
    requires DistInv(t) && BegunInv(t) && Enabled(t, e) && t.tm.Some? && TmFlows(t, t.tm.value)
    ensures BegunInv(Next(t, e))
  {
    match e
    case Deliver(m) => MessageKeeps(t, m); KeepsBegun(t, OnMessage(t, m));
    case LogDone(r, reached) => LogBegun(t, r, reached);
    case _ =>
  }

  lemma {:induction false} EveryRunBegun(plan: map<Shard, seq<Op>>, es: seq<Event>)
    requires Legal(InitTx(false, plan), es)
    ensures BegunInv(After(InitTx(false, plan), es))
  {
    if es != [] {
      var front, e := es[..|es| - 1], es[|es| - 1];
      var t := After(InitTx(false, plan), front);
      EveryRunBegun(plan, front);
      EveryRunKeepsInv(false, plan, front);
      EveryRunFlows(plan, front);
      if t.tm.Some? { NextBegun(t, e); }
    }
  }

  /** Nothing is under way; participants may be missing. */
  ghost predicate Quiet(t: Tx) {
    && t.tm.Some? && t.net == multiset{} && t.pending == {}
    && forall sh :: sh in t.rms ==> !t.rms[sh].waiting && !t.rms[sh].working
  }

  lemma AllStarted(t: Tx)
    requires DistInv(t) && BegunInv(t) && Quiet(t) && TmLog(Begin) in t.durable && !t.tm.value.responded
    ensures AtRest(t)
  {
    assert forall sh :: sh in t.plan ==> Requested(t, sh);
    assert t.rms.Keys == t.plan.Keys;
  }

  lemma AnsweredOnce(t: Tx)
    requires DistInv(t) && t.tm.Some? && t.tm.value.responded
    ensures |t.answers| == 1
  {}

  /** A client whose transaction was begun has one answer when nothing is under way any more. */
  lemma EveryClientAnswered(plan: map<Shard, seq<Op>>, es: seq<Event>)
    requires Legal(InitTx(false, plan), es) && plan != map[] && Quiet(After(InitTx(false, plan), es))
    requires TmLog(Begin) in After(InitTx(false, plan), es).durable
    ensures |After(InitTx(false, plan), es).answers| == 1
  {
    var t := After(InitTx(false, plan), es);
    EveryRunKeepsInv(false, plan, es);
    EveryRunBegun(plan, es);
    if t.tm.value.responded {
      AnsweredOnce(t);
    } else {
      AllStarted(t);
      RestOutcome(plan, es);
    }
  }
}
