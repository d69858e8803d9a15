/** The coordinator decides as soon as it can: once every shard is noted with a vote, the
    decision is logged, and once every shard is noted with an outcome, the end is. */
module CommitDecisions {
  import opened TwoPhaseCommit
  import opened CommitProtocol

  ghost predicate TmLogged(t: Tx, k: LogKind) {
    TmLog(k) in t.pending || TmLog(k) in t.durable
  }

  /** A shard has logged a vote to abort. */
  ghost predicate SomeAgainst(t: Tx) {
    exists sh :: sh in t.plan && Durable(t, sh, PrepareAbort)
  }

  ghost predicate Decides(t: Tx, tm: Tm) {
    && (tm.state == TmIdle && tm.victim ==> tm.wroteCommit)
    && (tm.wroteBegin ==> TmLogged(t, Begin)) && (tm.wroteCommit ==> TmLogged(t, Commit))
    && (tm.wroteAbort ==> TmLogged(t, Abort) && SomeAgainst(t)) && (tm.wroteEnd ==> TmLogged(t, End))
    && (tm.state == TmIdle && tm.tracer != map[] && AllPrepared(tm.tracer) ==>
          if AllAre(tm.tracer, TPrepareCommit) then tm.wroteCommit else tm.wroteAbort)
    && (tm.tracer != map[] && (AllAre(tm.tracer, TCommitted) || AllAre(tm.tracer, TAborted)) ==>
          tm.wroteEnd && tm.responded)
  }

  ghost predicate DecideInv(t: Tx) { t.tm.Some? ==> Decides(t, t.tm.value) }

  // ---------------------------------------------------------------- steps that leave the coordinator alone

  /** Nothing logged is lost. */
  ghost predicate LogsGrow(t: Tx, u: Tx) {
    u.plan == t.plan && t.durable <= u.durable && t.pending <= u.pending + u.durable
  }

  lemma GrownDecides(t: Tx, u: Tx, tm: Tm)
    requires Decides(t, tm) && LogsGrow(t, u)
    ensures Decides(u, tm)
  {
    if SomeAgainst(t) {
      var sh :| sh in t.plan && Durable(t, sh, PrepareAbort);
      assert sh in u.plan && Durable(u, sh, PrepareAbort);
    }
  }

  // ---------------------------------------------------------------- steps of the coordinator

  /** A step that changes neither what is noted nor whether the coordinator is idle. */
  lemma MoveDecides(t: Tx, tm: Tm, r: (Tm, TmOut))
    requires Decides(t, tm) && r.0.tracer == tm.tracer && (r.0.state == TmIdle ==> tm.state == TmIdle)
    requires r.0.victim == tm.victim || (tm.wroteCommit && r.0.wroteCommit) || r.0.state != TmIdle
    requires r.0.wroteBegin == tm.wroteBegin && r.0.wroteCommit == tm.wroteCommit && r.0.wroteAbort == tm.wroteAbort
    requires r.0.wroteEnd == tm.wroteEnd && (tm.responded ==> r.0.responded)
    ensures Decides(TmMoves(t, r), r.0)
  {
    assert LogsGrow(t, TmMoves(t, r));
    GrownDecides(t, TmMoves(t, r), tm);
  }

  lemma StartDecides(t: Tx, led: set<Shard>)
    ensures Decides(TmMoves(t, TmStart(t.plan.Keys, led)), TmStart(t.plan.Keys, led).0)
  {
    var tm := TmStart(t.plan.Keys, led).0;
    assert tm.tracer != map[] ==> exists sh :: sh in tm.tracer && tm.tracer[sh] == TIdle;
  }

  /** What is known of a coordinator that is about to look at its notes. */
  ghost predicate Looks(t: Tx, tm: Tm) {
    && (tm.state == TmIdle && tm.victim ==> tm.wroteCommit)
    && (tm.wroteBegin ==> TmLogged(t, Begin)) && (tm.wroteCommit ==> TmLogged(t, Commit))
    && (tm.wroteAbort ==> TmLogged(t, Abort) && SomeAgainst(t)) && (tm.wroteEnd ==> TmLogged(t, End))
    && (tm.wroteCommit ==> AllPrepared(tm.tracer) ==> AllAre(tm.tracer, TPrepareCommit))
    && (tm.tracer != map[] && (AllAre(tm.tracer, TCommitted) || AllAre(tm.tracer, TAborted)) ==>
          tm.state == TmCommitted || tm.state == TmAborted)
    && (forall sh :: sh in tm.tracer && tm.tracer[sh] == TPrepareAbort ==> sh in t.plan && Durable(t, sh, PrepareAbort))
  }

  lemma FinishDecides(t: Tx, tm: Tm)
    requires Looks(t, tm) && (AllAre(tm.tracer, TCommitted) || AllAre(tm.tracer, TAborted))
    ensures Decides(TmMoves(t, Finish(tm)), Finish(tm).0)
  {
    var u := TmMoves(t, Finish(tm));
    if SomeAgainst(t) {
      var sh :| sh in t.plan && Durable(t, sh, PrepareAbort);
      assert Durable(u, sh, PrepareAbort);
    }
    assert tm.tracer != map[] ==> exists sh :: sh in tm.tracer;
  }

  lemma CommitDecides(t: Tx, tm: Tm)
    requires Looks(t, tm) && AllAre(tm.tracer, TPrepareCommit) && tm.tracer != map[]
    ensures Decides(TmMoves(t, WriteCommit(tm)), WriteCommit(tm).0)
  {
    var u := TmMoves(t, WriteCommit(tm));
    if SomeAgainst(t) {
      var sh :| sh in t.plan && Durable(t, sh, PrepareAbort);
      assert Durable(u, sh, PrepareAbort);
    }
    assert exists sh :: sh in tm.tracer;
  }

  lemma AbortDecides(t: Tx, tm: Tm)
    requires Looks(t, tm) && AllPrepared(tm.tracer) && !AllAre(tm.tracer, TPrepareCommit)
    ensures Decides(TmMoves(t, WriteAbort(tm)), WriteAbort(tm).0)
  {
    var u := TmMoves(t, WriteAbort(tm));
    var sh :| sh in tm.tracer && tm.tracer[sh] != TPrepareCommit;
    assert Durable(u, sh, PrepareAbort) && sh in u.plan;
  }

  lemma AdvanceDecides(t: Tx, tm: Tm)
    requires Looks(t, tm)
    ensures Decides(TmMoves(t, Advance(tm)), Advance(tm).0)
  {
    if AllAre(tm.tracer, TCommitted) || AllAre(tm.tracer, TAborted) {
      FinishDecides(t, tm);
    } else if AllAre(tm.tracer, TPrepareCommit) {
      CommitDecides(t, tm);
    } else if AllPrepared(tm.tracer) {
      AbortDecides(t, tm);
    } else {
      var u := TmMoves(t, (tm, Silent));
      if SomeAgainst(t) {
        var sh :| sh in t.plan && Durable(t, sh, PrepareAbort);
        assert Durable(u, sh, PrepareAbort);
      }
    }
  }

  /** What is noted of a shard, backed by its log, tells what the coordinator decided. */
  predicate Tells(tm: Tm, v: Tracer) {
    && (v == TCommitted ==> tm.state == TmCommitted) && (v == TAborted ==> tm.state == TmAborted)
    && (tm.wroteCommit ==> v == TPrepareCommit || v == TCommitted)
  }

  lemma BackedTells(t: Tx, tm: Tm, sh: Shard, v: Tracer)
    requires ShardInv(t, tm, sh) && Backed(t, sh, v) && tm.state != TmDone
    requires tm.wroteCommit ==> v == TPrepareCommit || v == TCommitted
    ensures Tells(tm, v)
  {}

  lemma NotedTells(t: Tx, tm: Tm, sh: Shard)
    requires ShardInv(t, tm, sh) && tm.state != TmDone
    ensures Tells(tm, tm.tracer[sh]) && Backed(t, sh, tm.tracer[sh])
  {}

  lemma LooksWhenTold(t: Tx, was: Tm, tm: Tm)
    requires Decides(t, was) && tm == was.(tracer := tm.tracer) && tm.tracer.Keys == t.plan.Keys
    requires forall sh :: sh in tm.tracer ==> Tells(tm, tm.tracer[sh]) && Backed(t, sh, tm.tracer[sh])
    ensures Looks(t, tm)
  {
    assert tm.tracer != map[] ==> exists sh :: sh in tm.tracer;
  }

  /** Shard `at` is noted as `v`, backed by its log. */
  lemma NoteLooks(t: Tx, tm: Tm, at: Shard, v: Tracer)
    requires Whole(t, tm) && Decides(t, tm) && tm.state != TmDone && at in tm.tracer && Backed(t, at, v) && v != TIdle
    requires tm.wroteCommit ==> v == TPrepareCommit || v == TCommitted
    ensures Looks(t, tm.(tracer := tm.tracer[at := v]))
  {
    var n := tm.(tracer := tm.tracer[at := v]);
    forall sh | sh in n.tracer
      ensures Tells(n, n.tracer[sh]) && Backed(t, sh, n.tracer[sh])
    {
      assert ShardInv(t, tm, sh);
      if sh == at { BackedTells(t, tm, sh, v); } else { NotedTells(t, tm, sh); }
    }
    LooksWhenTold(t, tm, n);
  }

  lemma SameLooks(t: Tx, tm: Tm)
    requires Whole(t, tm) && Decides(t, tm) && tm.state != TmDone
    ensures Looks(t, tm)
  {
    forall sh | sh in tm.tracer
      ensures Tells(tm, tm.tracer[sh]) && Backed(t, sh, tm.tracer[sh])
    {
      assert ShardInv(t, tm, sh);
      NotedTells(t, tm, sh);
    }
    LooksWhenTold(t, tm, tm);
  }

  lemma PrepareDecides(t: Tx, sh: Shard, c: bool)
    requires DistInv(t) && DecideInv(t) && RmPrepare(sh, c) in t.net && TmListens(t, sh)
    ensures DecideInv(TmMoves(Take(t, RmPrepare(sh, c)), TmOnPrepare(t.tm.value, sh, c)))
  {
    var tm, u, v := t.tm.value, Take(t, RmPrepare(sh, c)), if c then TPrepareCommit else TPrepareAbort;
    assert ShardInv(t, tm, sh);
    TakeKeepsInv(t, RmPrepare(sh, c));
    GrownDecides(t, u, tm);
    if tm.tracer[sh] == TIdle {
      NoteLooks(u, tm, sh, v);
      AdvanceDecides(u, tm.(tracer := tm.tracer[sh := v]));
    } else {
      MoveDecides(u, tm, (tm, Silent));
    }
  }

  lemma AckDecides(t: Tx, sh: Shard, c: bool)
    requires DistInv(t) && DecideInv(t) && RmAck(sh, c) in t.net && TmListens(t, sh)
    ensures DecideInv(TmMoves(Take(t, RmAck(sh, c)), TmOnAck(t.tm.value, sh, c)))
  {
    var tm, u, v := t.tm.value, Take(t, RmAck(sh, c)), if c then TCommitted else TAborted;
    assert ShardInv(t, tm, sh);
    TakeKeepsInv(t, RmAck(sh, c));
    GrownDecides(t, u, tm);
    if (if c then tm.tracer[sh] == TPrepareCommit else tm.tracer[sh] != TCommitted && tm.tracer[sh] != TAborted) {
      NoteLooks(u, tm, sh, v);
      AdvanceDecides(u, tm.(tracer := tm.tracer[sh := v]));
    } else if c {
      MoveDecides(u, tm, (tm, Silent));
    } else {
      SameLooks(u, tm);
      AdvanceDecides(u, tm);
    }
  }

  // ---------------------------------------------------------------- every event

  lemma HitDecides(t: Tx, ec: EC)
    requires DecideInv(t) && t.tm.Some?
    ensures DecideInv(TmMoves(t, TmOnVictim(t.tm.value, ec)))
  {
    MoveDecides(t, t.tm.value, TmOnVictim(t.tm.value, ec));
  }

  lemma TakeDecides(t: Tx, m: Msg)
    requires DecideInv(t) && t.tm.Some?
    ensures DecideInv(Take(t, m))
  {
    GrownDecides(t, Take(t, m), t.tm.value);
  }

  lemma ToTmDecides(t: Tx, m: Msg)
    requires DistInv(t) && DecideInv(t) && t.tm.Some? && m in t.net && (m.RmPrepare? || m.RmAck? || m.RmVictim?)
    ensures DecideInv(OnMessage(t, m))
  {
    ToTm(t, m);
    TakeDecides(t, m);
    if TmListens(t, m.shard) {
      match m
      case RmPrepare(sh, c) => PrepareDecides(t, sh, c);
      case RmAck(sh, c) => AckDecides(t, sh, c);
      case RmVictim(_) => HitDecides(Take(t, m), Victim);
      case _ =>
    }
  }

  lemma ToRmDecides(t: Tx, m: Msg)
    requires DecideInv(t) && t.tm.Some? && (m.TmRequest? || m.TmCommit? || m.TmAbort?)
    ensures DecideInv(OnMessage(t, m))
  {
    ToRm(t, m);
    assert LogsGrow(t, OnMessage(t, m));
    GrownDecides(t, OnMessage(t, m), t.tm.value);
  }

  lemma TmLogDecides(t: Tx, k: LogKind, reached: set<Shard>)
    requires DistInv(t) && DecideInv(t) && t.tm.Some? && t.tm.value.state != TmDone && TmLog(k) in t.pending
    ensures DecideInv(OnTmLog(Sync(t, TmLog(k)), k, reached))
  {
    var tm, u := t.tm.value, Sync(t, TmLog(k));
    GrownDecides(t, u, tm);
    match k
    case Begin => MoveDecides(u, tm, TmOnBegin(tm, reached));
    case Commit => MoveDecides(u, tm, TmOnCommitted(tm));
    case Abort => MoveDecides(u, tm, TmOnAborted(tm));
    case End => MoveDecides(u, tm, TmOnEnded(tm));
    case _ =>
  }

  lemma LogDecides(t: Tx, r: LogRec, reached: set<Shard>)
    requires DistInv(t) && DecideInv(t) && t.tm.Some? && r in t.pending
    ensures DecideInv(OnLog(t, r, reached))
  {
    LogIs(t, r, reached);
    GrownDecides(t, Sync(t, r), t.tm.value);
    if r.TmLog? {
      if t.tm.value.state != TmDone { TmLogDecides(t, r.kind, reached); }
    } else {
      GrownDecides(t, OnLog(t, r, reached), t.tm.value);
    }
  }

  lemma NextDecides(t: Tx, e: Event)
    requires DistInv(t) && DecideInv(t) && Enabled(t, e)
    ensures DecideInv(Next(t, e))
  {
    match e
    case Accept(led) => StartDecides(t, led);
    case Deliver(m) => if m.TmRequest? || m.TmCommit? || m.TmAbort? { ToRmDecides(t, m); } else { ToTmDecides(t, m); }
    case LogDone(r, reached) => LogDecides(t, r, reached);
    case TmHit(ec) => HitDecides(t, ec);
    case LockTold(sh) => GrownDecides(t, Next(t, e), t.tm.value);
    case OpDone(sh, ec) => GrownDecides(t, Next(t, e), t.tm.value);
    case RmHit(sh, ec) => GrownDecides(t, Next(t, e), t.tm.value);
    case AcceptLocal(_) =>
  }

  lemma {:induction false} EveryRunDecides(plan: map<Shard, seq<Op>>, es: seq<Event>)
    requires Legal(InitTx(false, plan), es)
    ensures DecideInv(After(InitTx(false, plan), es))
  {
    if es != [] {
      EveryRunDecides(plan, es[..|es| - 1]);
      EveryRunKeepsInv(false, plan, es[..|es| - 1]);
      NextDecides(After(InitTx(false, plan), es[..|es| - 1]), es[|es| - 1]);
    }
  }

  /** An idle coordinator that has noted a vote of every shard has logged its decision: to
      commit when all voted so, and to abort when one did not. */
  lemma VotesDecide(plan: map<Shard, seq<Op>>, es: seq<Event>)
    requires Legal(InitTx(false, plan), es) && plan != map[]
    requires var t := After(InitTx(false, plan), es);
      && t.tm.Some? && t.tm.value.state == TmIdle
      && forall sh :: sh in plan ==> sh in t.tm.value.tracer && t.tm.value.tracer[sh] in {TPrepareCommit, TPrepareAbort}
    ensures var t := After(InitTx(false, plan), es);
      if forall sh :: sh in plan ==> t.tm.value.tracer[sh] == TPrepareCommit then TmLogged(t, Commit)
      else TmLogged(t, Abort)
  {
    var t := After(InitTx(false, plan), es);
    EveryRunKeepsInv(false, plan, es);
    EveryRunDecides(plan, es);
    assert t.tm.value.tracer.Keys == plan.Keys;
    var sh :| sh in plan;
    assert sh in t.tm.value.tracer;
  }

  /** A coordinator that has noted the same outcome of every shard has answered and logged the end. */
  lemma OutcomesEnd(plan: map<Shard, seq<Op>>, es: seq<Event>, v: Tracer)
    requires Legal(InitTx(false, plan), es) && plan != map[] && (v == TCommitted || v == TAborted)
    requires var t := After(InitTx(false, plan), es);
      t.tm.Some? && forall sh :: sh in plan ==> sh in t.tm.value.tracer && t.tm.value.tracer[sh] == v
    ensures var t := After(InitTx(false, plan), es); TmLogged(t, End) && |t.answers| == 1
  {
    var t := After(InitTx(false, plan), es);
    EveryRunKeepsInv(false, plan, es);
    EveryRunDecides(plan, es);
    assert t.tm.value.tracer.Keys == plan.Keys;
    var sh :| sh in plan;
    assert sh in t.tm.value.tracer;
  }

  /** An idle coordinator marked as a victim has logged its commit: the mark never holds one back. */
  lemma VictimIsTooLate(plan: map<Shard, seq<Op>>, es: seq<Event>)
    requires Legal(InitTx(false, plan), es)
    requires var t := After(InitTx(false, plan), es);
      t.tm.Some? && t.tm.value.state == TmIdle && t.tm.value.victim
    ensures TmLogged(After(InitTx(false, plan), es), Commit)
  {
    EveryRunDecides(plan, es);
  }
}
