/** Runs without a deadlock victim or another abort from outside: at rest the operations alone
    decide the outcome and no participant is left behind; one such abort may leave one behind. */
module CommitEnds {
  import opened TwoPhaseCommit
  import opened CommitProtocol
  import opened CommitOutcomes
  import opened CommitDecisions
  import opened CommitRest
  import opened CommitVotes

  predicate Hits(e: Event) { e.TmHit? || e.RmHit? }

  /** Only errors out of `errors` hit the transaction. */
  ghost predicate HitsIn(errors: set<EC>, es: seq<Event>) {
    forall i :: 0 <= i < |es| && Hits(es[i]) ==> es[i].ec in errors
  }

  lemma HitsMore(errors: set<EC>, es: seq<Event>, a: Event, b: Event)
    requires HitsIn(errors, es) && (Hits(a) ==> a.ec in errors) && (Hits(b) ==> b.ec in errors)
    ensures HitsIn(errors, es + [a] + [b])
  {}

  /** The coordinator aborts only after all have voted. */
  ghost predicate CalmTm(tm: Tm) {
    && (AbortSide(tm) ==> tm.wroteAbort)
    && (tm.wroteAbort ==> forall sh :: sh in tm.tracer ==> tm.tracer[sh] != TIdle)
  }

  ghost predicate NoVictim(t: Tx) { forall sh :: RmVictim(sh) !in t.net }

  ghost predicate Calm(t: Tx) { NoVictim(t) && (t.tm.Some? ==> CalmTm(t.tm.value)) }

  lemma AdvanceCalm(tm: Tm)
    requires CalmTm(tm)
    ensures CalmTm(Advance(tm).0) && forall m :: m in Advance(tm).1.send ==> !m.RmVictim?
  {
    AdvanceKeepsSides(tm, Advance(tm));
    var r := Advance(tm);
    assert r == Finish(tm) || r == WriteCommit(tm) || r == (tm, Silent)
        || (r == WriteAbort(tm) && AllPrepared(tm.tracer));
  }

  lemma NoteCalm(tm: Tm, at: Shard, v: Tracer)
    requires CalmTm(tm) && v != TIdle
    ensures CalmTm(tm.(tracer := tm.tracer[at := v]))
  {}

  lemma ToTmCalm(t: Tx, m: Msg)
    requires Calm(t) && t.tm.Some? && m in t.net && (m.RmPrepare? || m.RmAck?)
    ensures Calm(OnMessage(t, m))
  {
    var tm := t.tm.value;
    var v := if m.RmPrepare? then (if m.commit then TPrepareCommit else TPrepareAbort)
             else if m.commit then TCommitted else TAborted;
    ToTm(t, m);
    if TmListens(t, m.shard) {
      NoteCalm(tm, m.shard, v);
      AdvanceCalm(tm.(tracer := tm.tracer[m.shard := v]));
      AdvanceCalm(tm);
    }
  }

  lemma ToRmCalm(t: Tx, m: Msg)
    requires Calm(t) && (m.TmRequest? || m.TmCommit? || m.TmAbort?)
    ensures Calm(OnMessage(t, m))
  {
    ToRm(t, m);
  }

  lemma TmLogCalm(t: Tx, k: LogKind, reached: set<Shard>)
    requires DistInv(t) && Calm(t) && t.tm.Some? && t.tm.value.state != TmDone && TmLog(k) in t.pending
    ensures Calm(OnTmLog(Sync(t, TmLog(k)), k, reached))
  {}

  lemma RmLogCalm(t: Tx, r: LogRec, reached: set<Shard>)
    requires Calm(t) && r.RmLog?
    ensures Calm(OnLog(t, r, reached))
  {
    LogIs(t, r, reached);
  }

  lemma LogCalm(t: Tx, r: LogRec, reached: set<Shard>)
    requires DistInv(t) && Calm(t) && r in t.pending && t.tm.Some?
    ensures Calm(OnLog(t, r, reached))
  {
    if r.RmLog? {
      RmLogCalm(t, r, reached);
    } else {
      LogIs(t, r, reached);
      if t.tm.value.state != TmDone { TmLogCalm(t, r.kind, reached); }
    }
  }

  lemma WorkCalm(t: Tx, e: Event)
    requires Calm(t) && Enabled(t, e) && (e.LockTold? || e.OpDone? || e.Accept? || e.AcceptLocal?)
    ensures Calm(Next(t, e))
  {}

  lemma NextCalm(t: Tx, e: Event)
    requires DistInv(t) && Calm(t) && Enabled(t, e) && !Hits(e)
    ensures Calm(Next(t, e))
  {
    match e
    case Deliver(m) => if m.RmPrepare? || m.RmAck? { ToTmCalm(t, m); } else { ToRmCalm(t, m); }
    case LogDone(r, reached) => LogCalm(t, r, reached);
    case _ => WorkCalm(t, e);
  }

  ghost predicate NoHits(es: seq<Event>) { forall i :: 0 <= i < |es| ==> !Hits(es[i]) }

  lemma {:induction false} EveryRunCalm(plan: map<Shard, seq<Op>>, es: seq<Event>)
    requires Legal(InitTx(false, plan), es) && NoHits(es)
    ensures Calm(After(InitTx(false, plan), es))
  {
    if es != [] {
      EveryRunCalm(plan, es[..|es| - 1]);
      EveryRunKeepsInv(false, plan, es[..|es| - 1]);
      NextCalm(After(InitTx(false, plan), es[..|es| - 1]), es[|es| - 1]);
    }
  }

  lemma NotMissed(t: Tx, sh: Shard)
    requires DistInv(t) && Calm(t) && t.tm.Some? && sh in t.plan && TmAbort(sh) in t.net
    ensures sh in t.rms
  {
    assert ShardInv(t, t.tm.value, sh);
    assert sh in t.tm.value.tracer && t.tm.value.tracer[sh] != TIdle;
  }

  /** No abort message comes before its participant has started. */
  lemma {:induction false} NoneMissed(plan: map<Shard, seq<Op>>, es: seq<Event>)
    requires Legal(InitTx(false, plan), es) && NoHits(es)
    ensures Missed(plan, es) !! plan.Keys
  {
    if es != [] {
      var front, e := es[..|es| - 1], es[|es| - 1];
      var t := After(InitTx(false, plan), front);
      NoneMissed(plan, front);
      EveryRunCalm(plan, front);
      EveryRunKeepsInv(false, plan, front);
      if e.Deliver? && e.msg.TmAbort? && e.msg.shard in plan { NotMissed(t, e.msg.shard); }
    }
  }

  ghost predicate SomeFailed(plan: map<Shard, seq<Op>>, es: seq<Event>) { exists sh :: sh in plan && OpFailed(es, sh) }

  /** Without hits, a transaction at rest has aborted everywhere if an operation failed, and
      otherwise committed everywhere; all its locks are free and its coordinator is done. */
  lemma OperationsDecide(plan: map<Shard, seq<Op>>, es: seq<Event>)
    requires Legal(InitTx(false, plan), es) && NoHits(es) && plan != map[] && AtRest(After(InitTx(false, plan), es))
    ensures if SomeFailed(plan, es) then AllAborted({}, After(InitTx(false, plan), es))
            else AllCommitted(After(InitTx(false, plan), es))
  {
    var t := After(InitTx(false, plan), es);
    RestOutcome(plan, es);
    NoneMissed(plan, es);
    EveryRunKeepsInv(false, plan, es);
    if SomeFailed(plan, es) {
      var sh :| sh in plan && OpFailed(es, sh);
      FailedFailsAll(plan, es, sh, sh);
    } else if AllAborted(Missed(plan, es), t) {
      AbortedHasFailed(plan, es);
    }
  }

  lemma AbortedHasFailed(plan: map<Shard, seq<Op>>, es: seq<Event>)
    requires Legal(InitTx(false, plan), es) && NoHits(es) && plan != map[]
    requires AllAborted(Missed(plan, es), After(InitTx(false, plan), es))
    ensures SomeFailed(plan, es)
  {
    var t := After(InitTx(false, plan), es);
    NoneMissed(plan, es);
    EveryRunCalm(plan, es);
    EveryRunKeepsInv(false, plan, es);
    EveryRunDecides(plan, es);
    var a :| a in plan;
    assert ShardInv(t, t.tm.value, a) && Finished(t, a, Abort);
    var sh :| sh in t.plan && Durable(t, sh, PrepareAbort);
    AbortVoteMeansFailed(false, plan, es, sh);
  }

  // ---------------------------------------------------------------- a participant left behind

  function OneOp(sh: Shard, op: Op): map<Shard, seq<Op>> { map[sh := [op]] }

  /** The coordinator of one shard, its requests out. */
  predicate Asked(t: Tx, sh: Shard, op: Op) {
    && t.plan == OneOp(sh, op) && !t.local && t.rms == map[] && t.pending == {} && t.answers == []
    && t.net == multiset{TmRequest(sh)} && t.tm.Some? && t.tm.value.state == TmIdle && !t.tm.value.responded
    && t.tm.value.tracer == map[sh := TIdle] && !t.tm.value.wroteCommit && !t.tm.value.wroteAbort
  }

  /** It has given up; what was to be told is told. */
  predicate Gone(t: Tx, sh: Shard, op: Op, ec: EC) {
    && t.plan == OneOp(sh, op) && !t.local && t.answers == [ec] && t.tm.Some? && t.tm.value.state == TmAborted
    && t.tm.value.tracer == map[sh := TIdle] && !t.tm.value.wroteCommit && !t.tm.value.wroteAbort
  }

  lemma Ask(sh: Shard, op: Op) returns (es: seq<Event>, t: Tx)
    ensures Ends(OneOp(sh, op), es, t) && Asked(t, sh, op) && es == [] + [Accept({sh})] + [LogDone(TmLog(Begin), {sh})]
  {
    var plan := OneOp(sh, op);
    var a, b := Accept({sh}), LogDone(TmLog(Begin), {sh});
    var t0 := InitTx(false, plan);
    var t1 := Next(t0, a);
    More(plan, [], t0, a, t1);
    assert plan.Keys == {sh} && t1.tm.value.tracer == map[sh := TIdle];
    t := Next(t1, b);
    More(plan, [] + [a], t1, b, t);
    assert t1.tm.value.tracer.Keys == {sh} && Requests({sh}) == {TmRequest(sh)};
    es := [] + [a] + [b];
  }

  lemma HitOut(t: Tx, sh: Shard, op: Op, ec: EC) returns (u: Tx)
    requires Asked(t, sh, op) && ec != Ok
    ensures u == Next(t, TmHit(ec)) && Gone(u, sh, op, ec) && u.rms == map[] && u.pending == {}
    ensures u.net == multiset{TmRequest(sh), TmAbort(sh)}
  {
    u := Next(t, TmHit(ec));
    assert t.tm.value.tracer.Keys == {sh} && Aborts({sh}) == {TmAbort(sh)};
  }

  lemma GiveUp(sh: Shard, op: Op, ec: EC, es: seq<Event>, t: Tx) returns (fs: seq<Event>, u: Tx)
    requires Ends(OneOp(sh, op), es, t) && Asked(t, sh, op) && ec != Ok
    ensures fs == es + [TmHit(ec)] + [Deliver(TmAbort(sh))] && Ends(OneOp(sh, op), fs, u)
    ensures Gone(u, sh, op, ec) && u.rms == map[] && u.pending == {} && u.net == multiset{TmRequest(sh)}
  {
    var t1 := HitOut(t, sh, op, ec);
    More(OneOp(sh, op), es, t, TmHit(ec), t1);
    u := Next(t1, Deliver(TmAbort(sh)));
    More(OneOp(sh, op), es + [TmHit(ec)], t1, Deliver(TmAbort(sh)), u);
    fs := es + [TmHit(ec)] + [Deliver(TmAbort(sh))];
  }

  /** The participant at work, its lock asked for or held. */
  predicate Works(t: Tx, sh: Shard, op: Op, ec: EC) {
    && Gone(t, sh, op, ec) && t.pending == {} && t.net == multiset{} && t.rms.Keys == {sh}
    && t.rms[sh].state == RmIdle && t.rms[sh].distributed && t.rms[sh].ops == [op] && t.rms[sh].locks == [op.key]
    && t.rms[sh].error == Ok && !t.rms[sh].waiting && t.rms[sh].working
  }

  lemma Work(sh: Shard, op: Op, ec: EC, es: seq<Event>, t: Tx) returns (fs: seq<Event>, u: Tx)
    requires Ends(OneOp(sh, op), es, t) && Gone(t, sh, op, ec) && t.rms == map[] && t.pending == {}
    requires t.net == multiset{TmRequest(sh)}
    ensures fs == es + [Deliver(TmRequest(sh))] + [LockTold(sh)] && Ends(OneOp(sh, op), fs, u) && Works(u, sh, op, ec)
  {
    var plan := OneOp(sh, op);
    var t1 := Next(t, Deliver(TmRequest(sh)));
    More(plan, es, t, Deliver(TmRequest(sh)), t1);
    u := Next(t1, LockTold(sh));
    More(plan, es + [Deliver(TmRequest(sh))], t1, LockTold(sh), u);
    fs := es + [Deliver(TmRequest(sh))] + [LockTold(sh)];
  }

  /** Prepared, with its lock, and nobody will ever tell it anything. */
  predicate LeftBehind(t: Tx, sh: Shard, op: Op) {
    && t.rms.Keys == {sh} && t.rms[sh].state == RmPrepareCommitting && t.rms[sh].locks == [op.key]
    && !t.rms[sh].waiting && !t.rms[sh].working
  }

  lemma Prepare(sh: Shard, op: Op, ec: EC, es: seq<Event>, t: Tx) returns (fs: seq<Event>, u: Tx)
    requires Ends(OneOp(sh, op), es, t) && Works(t, sh, op, ec)
    ensures fs == es + [OpDone(sh, Ok)] + [LogDone(RmLog(sh, PrepareCommit), {})] && Ends(OneOp(sh, op), fs, u)
    ensures Gone(u, sh, op, ec) && LeftBehind(u, sh, op) && u.pending == {} && u.net == multiset{RmPrepare(sh, true)}
  {
    var plan := OneOp(sh, op);
    var d := LogDone(RmLog(sh, PrepareCommit), {});
    var t1 := Next(t, OpDone(sh, Ok));
    More(plan, es, t, OpDone(sh, Ok), t1);
    assert [op][1..] == [];
    u := Next(t1, d);
    More(plan, es + [OpDone(sh, Ok)], t1, d, u);
    fs := es + [OpDone(sh, Ok)] + [d];
  }

  lemma VoteInVain(sh: Shard, op: Op, ec: EC, es: seq<Event>, t: Tx) returns (fs: seq<Event>, u: Tx)
    requires Ends(OneOp(sh, op), es, t) && Gone(t, sh, op, ec) && LeftBehind(t, sh, op)
    requires t.pending == {} && t.net == multiset{RmPrepare(sh, true)}
    ensures fs == es + [Deliver(RmPrepare(sh, true))] && Ends(OneOp(sh, op), fs, u)
    ensures AtRest(u) && LeftBehind(u, sh, op) && u.answers == [ec]
  {
    var plan := OneOp(sh, op);
    u := Next(t, Deliver(RmPrepare(sh, true)));
    More(plan, es, t, Deliver(RmPrepare(sh, true)), u);
    assert t.tm.value.tracer[sh := TPrepareCommit] == map[sh := TPrepareCommit];
    fs := es + [Deliver(RmPrepare(sh, true))];
  }

  lemma StartLate(sh: Shard, op: Op, ec: EC) returns (es: seq<Event>, t: Tx)
    requires ec != Ok
    ensures Ends(OneOp(sh, op), es, t) && Works(t, sh, op, ec) && HitsIn({ec}, es)
  {
    es, t := Ask(sh, op);
    HitsMore({ec}, [], Accept({sh}), LogDone(TmLog(Begin), {sh}));
    var a := es;
    es, t := GiveUp(sh, op, ec, a, t);
    HitsMore({ec}, a, TmHit(ec), Deliver(TmAbort(sh)));
    var b := es;
    es, t := Work(sh, op, ec, b, t);
    HitsMore({ec}, b, Deliver(TmRequest(sh)), LockTold(sh));
  }

  lemma HitsOne(errors: set<EC>, es: seq<Event>, e: Event)
    requires HitsIn(errors, es) && !Hits(e)
    ensures HitsIn(errors, es + [e])
  {}

  /** Whatever the error: the abort overtakes the request, and the participant that starts later
      stays prepared, with its lock, although the client was told of the abort and all is at rest. */
  lemma HitLeavesBehind(sh: Shard, op: Op, ec: EC) returns (es: seq<Event>)
    requires ec != Ok
    ensures Legal(InitTx(false, OneOp(sh, op)), es) && HitsIn({ec}, es)
    ensures var t := After(InitTx(false, OneOp(sh, op)), es);
      AtRest(t) && LeftBehind(t, sh, op) && t.answers == [ec]
  {
    var a, t := StartLate(sh, op, ec);
    var b, u := Prepare(sh, op, ec, a, t);
    HitsMore({ec}, a, OpDone(sh, Ok), LogDone(RmLog(sh, PrepareCommit), {}));
    var c, v := VoteInVain(sh, op, ec, b, u);
    HitsOne({ec}, b, Deliver(RmPrepare(sh, true)));
    es := c;
  }

  ghost predicate SomeLeft(t: Tx) { exists sh :: sh in t.rms && t.rms[sh].state != RmEnded }

  /** A run at rest that has left a participant behind, with hits only of errors out of `errors`. */
  ghost predicate Stuck(errors: set<EC>, plan: map<Shard, seq<Op>>, es: seq<Event>) {
    && Legal(InitTx(false, plan), es) && plan != map[] && HitsIn(errors, es)
    && AtRest(After(InitTx(false, plan), es)) && SomeLeft(After(InitTx(false, plan), es))
  }

  lemma HitIsNotOk(t: Tx, e: Event)
    requires Enabled(t, e) && Hits(e)
    ensures e.ec != Ok
  {}

  lemma {:induction false} OkDoesNotHit(plan: map<Shard, seq<Op>>, es: seq<Event>)
    requires Legal(InitTx(false, plan), es) && HitsIn({Ok}, es)
    ensures NoHits(es)
  {
    if es != [] {
      OkDoesNotHit(plan, es[..|es| - 1]);
      if Hits(es[|es| - 1]) { HitIsNotOk(After(InitTx(false, plan), es[..|es| - 1]), es[|es| - 1]); }
    }
  }

  lemma CalmEnds(plan: map<Shard, seq<Op>>, es: seq<Event>, sh: Shard)
    requires Legal(InitTx(false, plan), es) && NoHits(es) && plan != map[] && AtRest(After(InitTx(false, plan), es))
    requires sh in After(InitTx(false, plan), es).rms
    ensures After(InitTx(false, plan), es).rms[sh].state == RmEnded
  {
    OperationsDecide(plan, es);
    EveryRunKeepsInv(false, plan, es);
  }

  lemma CalmIsNotStuck(errors: set<EC>, plan: map<Shard, seq<Op>>, es: seq<Event>)
    requires errors <= {Ok}
    ensures !Stuck(errors, plan, es)
  {
    if Legal(InitTx(false, plan), es) && plan != map[] && HitsIn(errors, es) && AtRest(After(InitTx(false, plan), es)) {
      OkDoesNotHit(plan, es);
      forall sh | sh in After(InitTx(false, plan), es).rms
        ensures After(InitTx(false, plan), es).rms[sh].state == RmEnded
      {
        CalmEnds(plan, es, sh);
      }
    }
  }

  lemma HitIsStuck(errors: set<EC>, ec: EC) returns (plan: map<Shard, seq<Op>>, es: seq<Event>)
    requires ec in errors && ec != Ok
    ensures Stuck(errors, plan, es)
  {
    var op := Op(0, LockSlots.Write);
    plan := OneOp(0, op);
    es := HitLeavesBehind(0, op, ec);
    assert 0 in plan && 0 in After(InitTx(false, plan), es).rms;
  }

  /** All participants have ended in every run at rest if and only if nothing hits the transaction. */
  lemma StuckOnlyAfterHits(errors: set<EC>)
    ensures (forall plan, es :: !Stuck(errors, plan, es)) <==> errors <= {Ok}
  {
    if errors <= {Ok} {
      forall plan, es ensures !Stuck(errors, plan, es) { CalmIsNotStuck(errors, plan, es); }
    } else {
      var ec :| ec in errors && ec != Ok;
      var plan, es := HitIsStuck(errors, ec);
    }
  }
}
