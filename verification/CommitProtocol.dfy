/** All interleavings of one transaction's commit: messages are unordered, may be
    lost and are delivered at most once; a log record is appended at once and its
    callback comes at some later step, or never; locks, operation results and
    deadlock victims come from the environment at any time. */
module CommitProtocol {
  import opened Base
  import opened LockSlots
  import opened TwoPhaseCommit

  datatype Tx = Tx(
    local: bool, plan: map<Shard, seq<Op>>,
    tm: Option<Tm>, rms: map<Shard, Rm>,
    net: multiset<Msg>, pending: set<LogRec>, durable: set<LogRec>, answers: seq<EC>)

  datatype Event =
    | Accept(led: set<Shard>)
    | AcceptLocal(home: Shard)
    | Deliver(msg: Msg)
    | LogDone(rec: LogRec, reached: set<Shard>)
    | LockTold(shard: Shard)
    | OpDone(shard: Shard, ec: EC)
    | TmHit(ec: EC)
    | RmHit(shard: Shard, ec: EC)

  function InitTx(local: bool, plan: map<Shard, seq<Op>>): Tx {
    Tx(local, plan, None, map[], multiset{}, {}, {}, [])
  }

  predicate Enabled(t: Tx, e: Event) {
    match e
    case Accept(led) => !t.local && t.tm.None?
    case AcceptLocal(home) => t.local && t.rms == map[] && t.plan.Keys == {home}
    case Deliver(m) => m in t.net
    case LogDone(r, reached) => r in t.pending
    case LockTold(sh) => sh in t.rms && t.rms[sh].waiting
    case OpDone(sh, ec) => sh in t.rms && t.rms[sh].working
    case TmHit(ec) => t.tm.Some? && t.tm.value.state != TmDone && ec != Ok
    case RmHit(sh, ec) => sh in t.rms && t.rms[sh].state != RmEnded && ec != Ok
  }

  function Replied(sh: Shard, reply: Option<Reply>): multiset<Msg> {
    match reply
    case None => multiset{}
    case Some(Prepared(c)) => multiset{RmPrepare(sh, c)}
    case Some(Acked(c)) => multiset{RmAck(sh, c)}
    case Some(VictimNotice) => multiset{RmVictim(sh)}
  }

  function TmRecs(log: Option<LogKind>): set<LogRec> { if log.None? then {} else {TmLog(log.value)} }
  function RmRecs(sh: Shard, log: Option<LogKind>): set<LogRec> { if log.None? then {} else {RmLog(sh, log.value)} }
  function Answers(answer: Option<EC>): seq<EC> { if answer.None? then [] else [answer.value] }

  /** The coordinator's handler returned `r`: store it, send, append, answer. */
  function TmMoves(t: Tx, r: (Tm, TmOut)): Tx {
    t.(tm := Some(r.0), net := t.net + multiset(r.1.send),
       pending := t.pending + TmRecs(r.1.log), answers := t.answers + Answers(r.1.answer))
  }

  /** The handler of the participant at `sh` returned `r`. */
  function RmMoves(t: Tx, sh: Shard, r: (Rm, RmOut)): Tx {
    t.(rms := t.rms[sh := r.0], net := t.net + Replied(sh, r.1.reply),
       pending := t.pending + RmRecs(sh, r.1.log), answers := t.answers + Answers(r.1.answer))
  }

  /** The coordinator is in its node's table: it was created and has not ended. */
  predicate TmListens(t: Tx, sh: Shard) {
    t.tm.Some? && t.tm.value.state != TmDone && sh in t.tm.value.tracer
  }

  /** Take `m` off the network and hand it to its receiver, if that exists. */
  function OnMessage(t0: Tx, m: Msg): Tx {
    var t := t0.(net := t0.net - multiset{m});
    match m
    case TmRequest(sh) => if sh in t.plan && sh !in t.rms then RmMoves(t, sh, RmStart(t.plan[sh], true)) else t
    case TmCommit(sh) => if sh in t.rms then RmMoves(t, sh, RmOnTmCommit(t.rms[sh])) else t
    case TmAbort(sh) => if sh in t.rms then RmMoves(t, sh, RmOnTmAbort(t.rms[sh])) else t
    case RmPrepare(sh, c) => if TmListens(t, sh) then TmMoves(t, TmOnPrepare(t.tm.value, sh, c)) else t
    case RmAck(sh, c) => if TmListens(t, sh) then TmMoves(t, TmOnAck(t.tm.value, sh, c)) else t
    case RmVictim(sh) => if TmListens(t, sh) then TmMoves(t, TmOnVictim(t.tm.value, Victim)) else t
  }

  function OnTmLog(t: Tx, k: LogKind, reached: set<Shard>): Tx
    requires t.tm.Some?
  {
    match k
    case Begin => TmMoves(t, TmOnBegin(t.tm.value, reached))
    case Commit => TmMoves(t, TmOnCommitted(t.tm.value))
    case Abort => TmMoves(t, TmOnAborted(t.tm.value))
    case End => TmMoves(t, TmOnEnded(t.tm.value))
    case _ => t
  }

  /** Record `r` is durable: tell its writer, if that still exists. */
  function OnLog(t0: Tx, r: LogRec, reached: set<Shard>): Tx {
    var t := t0.(pending := t0.pending - {r}, durable := t0.durable + {r});
    match r
    case RmLog(sh, k) => if sh in t.rms then RmMoves(t, sh, RmOnLog(t.rms[sh], k)) else t
    case TmLog(k) => if t.tm.None? || t.tm.value.state == TmDone then t else OnTmLog(t, k, reached)
  }

  function Next(t: Tx, e: Event): Tx
    requires Enabled(t, e)
  {
    match e
    case Accept(led) => TmMoves(t, TmStart(t.plan.Keys, led))
    case AcceptLocal(home) => RmMoves(t, home, RmStart(t.plan[home], false))
    case Deliver(m) => OnMessage(t, m)
    case LogDone(r, reached) => OnLog(t, r, reached)
    case LockTold(sh) => RmMoves(t, sh, RmOnLock(t.rms[sh]))
    case OpDone(sh, ec) => if t.rms[sh].ops == [] then t else RmMoves(t, sh, RmOnOpDone(t.rms[sh], ec))
    case TmHit(ec) => TmMoves(t, TmOnVictim(t.tm.value, ec))
    case RmHit(sh, ec) => RmMoves(t, sh, RmOnVictim(t.rms[sh], ec))
  }

  ghost predicate Legal(t: Tx, es: seq<Event>)
    decreases |es|, 0
  {
    es != [] ==> Legal(t, es[..|es| - 1]) && Enabled(After(t, es[..|es| - 1]), es[|es| - 1])
  }

  /** The state after the events `es`, first to last. */
  ghost function After(t: Tx, es: seq<Event>): Tx
    requires Legal(t, es)
    decreases |es|, 1
  {
    if es == [] then t else Next(After(t, es[..|es| - 1]), es[|es| - 1])
  }

  // ---------------------------------------------------------------- invariant

  ghost predicate Logged(t: Tx, sh: Shard, k: LogKind) {
    RmLog(sh, k) in t.pending || RmLog(sh, k) in t.durable
  }

  ghost predicate Durable(t: Tx, sh: Shard, k: LogKind) {
    RmLog(sh, k) in t.durable
  }

  /** No operation left, no lock asked for, nothing under way. */
  predicate Settled(rm: Rm) {
    rm.ops == [] && !rm.waiting && !rm.working
  }

  /** One thing at a time: a participant asks for the next lock only after the last operation. */
  predicate OneAtATime(rm: Rm) {
    !(rm.waiting && rm.working) && (rm.waiting || rm.working ==> rm.ops != [])
  }

  /** What a participant has logged follows from its state. */
  ghost predicate RmInv(t: Tx, sh: Shard) {
    if sh !in t.rms then
      !Logged(t, sh, PrepareCommit) && !Logged(t, sh, PrepareAbort) && !Logged(t, sh, Commit) && !Logged(t, sh, Abort)
    else
      var s := t.rms[sh].state;
      && t.rms[sh].distributed && OneAtATime(t.rms[sh])
      && (Logged(t, sh, PrepareCommit) ==> !Logged(t, sh, PrepareAbort) && Settled(t.rms[sh]))
      && (s == RmIdle ==> !Logged(t, sh, PrepareCommit) && !Logged(t, sh, PrepareAbort))
      && (s == RmPrepareCommitting ==> Logged(t, sh, PrepareCommit))
      && (s == RmPrepareAborting ==> Logged(t, sh, PrepareAbort))
      && (Logged(t, sh, Commit) ==> (s == RmCommitting || s == RmEnded) && Durable(t, sh, PrepareCommit))
      && (s == RmCommitting ==> Logged(t, sh, Commit))
      && (Logged(t, sh, Abort) ==> s == RmAborting || s == RmEnded)
      && (s == RmAborting ==> Logged(t, sh, Abort))
      && (s == RmEnded ==> Durable(t, sh, Commit) || Durable(t, sh, Abort))
  }

  /** What is in flight from a participant, and what the coordinator has noted, is covered by its log. */
  ghost predicate FromRm(t: Tx, tm: Tm, sh: Shard) {
    && (RmPrepare(sh, true) in t.net ==> Durable(t, sh, PrepareCommit))
    && (RmPrepare(sh, false) in t.net ==> Durable(t, sh, PrepareAbort))
    && (RmAck(sh, true) in t.net ==> Durable(t, sh, Commit))
    && (RmAck(sh, false) in t.net ==> Logged(t, sh, Abort))
    && sh in tm.tracer
    && (tm.tracer[sh] == TPrepareCommit ==> Durable(t, sh, PrepareCommit))
    && (tm.tracer[sh] == TPrepareAbort ==> Durable(t, sh, PrepareAbort))
    && (tm.tracer[sh] == TCommitted ==> Durable(t, sh, Commit))
    && (tm.tracer[sh] == TAborted ==> Logged(t, sh, Abort))
  }

  predicate CommitSide(tm: Tm) {
    tm.wroteCommit && (tm.state == TmCommitted || tm.state == TmDone)
  }

  predicate AbortSide(tm: Tm) {
    !tm.wroteCommit && (tm.state == TmAborted || tm.state == TmDone)
  }

  /** What is in flight to a participant, and how it ends, follows the coordinator's decision. */
  ghost predicate FromTm(t: Tx, tm: Tm, sh: Shard) {
    && t.net[TmCommit(sh)] <= 1
    && (TmCommit(sh) in t.net ==> CommitSide(tm) && sh in t.rms && t.rms[sh].state == RmPrepareCommitting)
    && (TmAbort(sh) in t.net ==> AbortSide(tm))
    && (Logged(t, sh, Commit) ==> CommitSide(tm))
    && (Logged(t, sh, Abort) ==> AbortSide(tm))
    && (tm.wroteCommit ==> sh in tm.tracer && (tm.tracer[sh] == TPrepareCommit || tm.tracer[sh] == TCommitted))
    && t.net[TmRequest(sh)] <= 1
    && (TmRequest(sh) in t.net || sh in t.rms ==> TmLog(Begin) in t.durable)
    && (TmRequest(sh) in t.net ==> sh !in t.rms)
  }

  /** A shard whose request was never sent: it takes no part, ever. */
  ghost predicate Unreached(t: Tx, tm: Tm, sh: Shard) {
    TmLog(Begin) !in t.pending && TmRequest(sh) !in t.net && sh !in t.rms && sh in tm.tracer && tm.tracer[sh] == TIdle
  }

  /** The coordinator will never log a commit. */
  ghost predicate Doomed(t: Tx, tm: Tm) {
    !tm.wroteCommit && (tm.state != TmIdle || exists sh :: sh in t.plan && Unreached(t, tm, sh))
  }

  ghost predicate TmInv(t: Tx, tm: Tm) {
    && tm.tracer.Keys == t.plan.Keys
    && (tm.state == TmCommitted ==> tm.wroteCommit)
    && (tm.state == TmAborted ==> !tm.wroteCommit && tm.error != Ok && tm.responded)
    && (tm.wroteAbort ==> !tm.wroteCommit)
    && (tm.wroteAbort ==> exists sh :: sh in tm.tracer && (tm.tracer[sh] == TPrepareAbort || tm.tracer[sh] == TAborted))
    && (TmLog(Commit) in t.pending ==> tm.wroteCommit && tm.state == TmIdle && TmLog(Commit) !in t.durable)
    && (TmLog(Commit) in t.durable ==> tm.wroteCommit && tm.state != TmIdle)
    && (tm.wroteCommit && tm.state == TmIdle ==> TmLog(Commit) in t.pending)
    && (TmLog(Abort) in t.pending ==> tm.wroteAbort)
    && (TmLog(End) in t.pending ==> tm.state == TmCommitted || tm.state == TmAborted || tm.state == TmDone)
    && (TmLog(Begin) in t.pending ==> TmLog(Begin) !in t.durable)
  }

  ghost predicate AnswerInv(t: Tx, tm: Tm) {
    && |t.answers| == (if tm.responded then 1 else 0)
    && (tm.error != Ok ==> Doomed(t, tm))
    && (tm.responded && t.answers[0] == Ok ==> AllAre(tm.tracer, TCommitted))
    && (tm.responded && t.answers[0] != Ok ==> Doomed(t, tm))
  }

  ghost predicate ShardInv(t: Tx, tm: Tm, sh: Shard) {
    RmInv(t, sh) && FromRm(t, tm, sh) && FromTm(t, tm, sh)
  }

  ghost predicate Whole(t: Tx, tm: Tm) {
    TmInv(t, tm) && AnswerInv(t, tm) && forall sh :: sh in t.plan ==> ShardInv(t, tm, sh)
  }

  ghost predicate LogsKnown(t: Tx) {
    forall r :: (r in t.pending || r in t.durable) && r.RmLog? ==> r.shard in t.rms
  }

  ghost predicate DistInv(t: Tx) {
    && !t.local
    && t.rms.Keys <= t.plan.Keys && LogsKnown(t)
    && (t.tm.None? ==> t == InitTx(false, t.plan))
    && (t.tm.Some? ==> Whole(t, t.tm.value))
  }

  // ------------------------------------------------ participant steps keep the shard invariant

  lemma TakeKeeps(t: Tx, tm: Tm, m: Msg, sh: Shard)
    requires ShardInv(t, tm, sh)
    ensures ShardInv(t.(net := t.net - multiset{m}), tm, sh)
  {}

  lemma SyncKeeps(t: Tx, tm: Tm, r: LogRec, sh: Shard)
    requires ShardInv(t, tm, sh) && r in t.pending
    ensures ShardInv(t.(pending := t.pending - {r}, durable := t.durable + {r}), tm, sh)
  {}

  lemma RmFrame(t: Tx, tm: Tm, at: Shard, r: (Rm, RmOut), sh: Shard)
    requires ShardInv(t, tm, sh) && at != sh
    ensures ShardInv(RmMoves(t, at, r), tm, sh)
  {}

  lemma RmCommits(t: Tx, tm: Tm, sh: Shard)
    requires ShardInv(t, tm, sh) && sh in t.rms && t.rms[sh].state == RmPrepareCommitting
    requires CommitSide(tm) && Durable(t, sh, PrepareCommit) && TmCommit(sh) !in t.net
    ensures ShardInv(RmMoves(t, sh, RmOnTmCommit(t.rms[sh])), tm, sh)
  {}

  lemma RmAborts(t: Tx, tm: Tm, sh: Shard)
    requires ShardInv(t, tm, sh) && sh in t.rms && AbortSide(tm)
    ensures ShardInv(RmMoves(t, sh, RmOnTmAbort(t.rms[sh])), tm, sh)
  {}

  lemma RmLogged(t: Tx, tm: Tm, sh: Shard, k: LogKind)
    requires ShardInv(t, tm, sh) && sh in t.rms && Durable(t, sh, k)
    ensures ShardInv(RmMoves(t, sh, RmOnLog(t.rms[sh], k)), tm, sh)
  {}

  lemma RmProceeds(t: Tx, tm: Tm, sh: Shard, rm: Rm)
    requires ShardInv(t, tm, sh) && sh in t.rms
    requires rm.state == t.rms[sh].state && rm.distributed && !rm.waiting && !rm.working && !Settled(t.rms[sh])
    ensures ShardInv(RmMoves(t, sh, NextOperation(rm)), tm, sh)
  {}

  lemma RmStays(t: Tx, tm: Tm, sh: Shard, rm: Rm, reply: Option<Reply>)
    requires ShardInv(t, tm, sh) && sh in t.rms && (reply == None || reply == Some(VictimNotice))
    requires rm.state == t.rms[sh].state && rm.distributed && OneAtATime(rm) && (Settled(t.rms[sh]) ==> Settled(rm))
    ensures ShardInv(RmMoves(t, sh, (rm, Quiet.(reply := reply))), tm, sh)
  {}

  lemma RmStarts(t: Tx, tm: Tm, sh: Shard)
    requires ShardInv(t, tm, sh) && sh !in t.rms && sh in t.plan && TmRequest(sh) !in t.net && TmLog(Begin) in t.durable
    ensures ShardInv(RmMoves(t, sh, RmStart(t.plan[sh], true)), tm, sh)
  {}

  // ------------------------------------------------ coordinator steps keep the shard invariant

  lemma SentMessages(shards: set<Shard>, m: Msg)
    ensures m in Requests(shards) <==> m.TmRequest? && m.shard in shards
    ensures m in Commits(shards) <==> m.TmCommit? && m.shard in shards
    ensures m in Aborts(shards) <==> m.TmAbort? && m.shard in shards
  {}

  /** Does the log of shard `sh` back the note `v`? */
  ghost predicate Backed(t: Tx, sh: Shard, v: Tracer) {
    match v
    case TIdle => true
    case TPrepareCommit => Durable(t, sh, PrepareCommit)
    case TPrepareAbort => Durable(t, sh, PrepareAbort)
    case TCommitted => Durable(t, sh, Commit)
    case TAborted => Logged(t, sh, Abort)
  }

  lemma NoteKeeps(t: Tx, tm: Tm, at: Shard, v: Tracer, sh: Shard)
    requires ShardInv(t, tm, sh) && Backed(t, at, v) && at in tm.tracer
    requires tm.wroteCommit ==> v == TPrepareCommit || v == TCommitted
    ensures ShardInv(t, tm.(tracer := tm.tracer[at := v]), sh)
  {}

  /** Moves of the coordinator that send nothing and keep its side of the decision. */
  lemma TmLogs(t: Tx, tm: Tm, r: (Tm, TmOut), sh: Shard)
    requires ShardInv(t, tm, sh) && r.1.send == {}
    requires r.0.state == tm.state && r.0.tracer == tm.tracer && r.0.wroteCommit == tm.wroteCommit
    ensures ShardInv(TmMoves(t, r), r.0, sh)
  {}

  lemma CommitLogged(t: Tx, tm: Tm, sh: Shard)
    requires ShardInv(t, tm, sh) && tm.state == TmIdle && AllAre(tm.tracer, TPrepareCommit)
    ensures ShardInv(TmMoves(t, WriteCommit(tm)), WriteCommit(tm).0, sh)
  {}

  lemma AdvanceKeeps(t: Tx, tm: Tm, sh: Shard)
    requires ShardInv(t, tm, sh)
    ensures ShardInv(TmMoves(t, Advance(tm)), Advance(tm).0, sh)
  {
    if !AllAre(tm.tracer, TCommitted) && !AllAre(tm.tracer, TAborted) && AllAre(tm.tracer, TPrepareCommit)
      && tm.state == TmIdle {
      CommitLogged(t, tm, sh);
    } else {
      TmLogs(t, tm, Advance(tm), sh);
    }
  }

  lemma CommitSent(t: Tx, tm: Tm, sh: Shard)
    requires ShardInv(t, tm, sh) && tm.state == TmIdle && tm.wroteCommit
    ensures ShardInv(TmMoves(t, TmOnCommitted(tm)), TmOnCommitted(tm).0, sh)
  {
    forall m ensures m in Commits(tm.tracer.Keys) <==> m.TmCommit? && m.shard in tm.tracer.Keys {
      SentMessages(tm.tracer.Keys, m);
    }
  }

  /** The coordinator turns to the abort side, or stays there, and tells every shard. */
  lemma AbortSent(t: Tx, tm: Tm, r: (Tm, TmOut), sh: Shard)
    requires ShardInv(t, tm, sh) && !tm.wroteCommit && tm.state != TmDone
    requires r.0.state == TmAborted && r.0.tracer == tm.tracer && !r.0.wroteCommit && r.1.send == Aborts(tm.tracer.Keys)
    ensures ShardInv(TmMoves(t, r), r.0, sh)
  {
    forall m ensures m in Aborts(tm.tracer.Keys) <==> m.TmAbort? && m.shard in tm.tracer.Keys {
      SentMessages(tm.tracer.Keys, m);
    }
  }

  lemma EndedKeeps(t: Tx, tm: Tm, sh: Shard)
    requires ShardInv(t, tm, sh) && tm.state != TmIdle
    ensures ShardInv(TmMoves(t, TmOnEnded(tm)), TmOnEnded(tm).0, sh)
  {}

  lemma RequestsSent(t: Tx, tm: Tm, r: (Tm, TmOut), to: set<Shard>, sh: Shard)
    requires ShardInv(t, tm, sh) && TmLog(Begin) in t.durable && sh !in t.rms && TmRequest(sh) !in t.net
    requires r.0.state == tm.state && r.0.tracer == tm.tracer && r.0.wroteCommit == tm.wroteCommit
    requires r.1.send == Requests(to)
    ensures ShardInv(TmMoves(t, r), r.0, sh)
  {
    forall m ensures m in Requests(to) <==> m.TmRequest? && m.shard in to {
      SentMessages(to, m);
    }
  }

  // ------------------------------------------------ every event keeps the invariant

  /** Steps that answer nobody and touch no other shard's request keep `AnswerInv`. */
  lemma AnswerFrame(t: Tx, tm: Tm, u: Tx, at: Shard)
    requires AnswerInv(t, tm) && u.plan == t.plan && u.answers == t.answers && !Unreached(t, tm, at)
    requires TmLog(Begin) in u.pending ==> TmLog(Begin) in t.pending
    requires forall sh :: sh != at ==> (TmRequest(sh) in u.net ==> TmRequest(sh) in t.net)
    requires u.rms.Keys <= t.rms.Keys + {at}
    ensures AnswerInv(u, tm)
  {
    if Doomed(t, tm) && tm.state == TmIdle {
      var sh :| sh in t.plan && Unreached(t, tm, sh);
      assert Unreached(u, tm, sh);
    }
  }

  function Take(t: Tx, m: Msg): Tx {
    t.(net := t.net - multiset{m})
  }

  function Sync(t: Tx, r: LogRec): Tx {
    t.(pending := t.pending - {r}, durable := t.durable + {r})
  }

  lemma TakeKeepsInv(t: Tx, m: Msg)
    requires DistInv(t) && t.tm.Some?
    ensures DistInv(Take(t, m))
  {
    var tm, u := t.tm.value, Take(t, m);
    forall sh | sh in t.plan ensures ShardInv(u, tm, sh) { TakeKeeps(t, tm, m, sh); }
    if Doomed(t, tm) && tm.state == TmIdle {
      var sh :| sh in t.plan && Unreached(t, tm, sh);
      assert Unreached(u, tm, sh);
    }
  }

  lemma SyncKeepsInv(t: Tx, at: Shard, k: LogKind)
    requires DistInv(t) && t.tm.Some? && RmLog(at, k) in t.pending
    ensures DistInv(Sync(t, RmLog(at, k)))
  {
    var tm, u := t.tm.value, Sync(t, RmLog(at, k));
    forall sh | sh in t.plan ensures ShardInv(u, tm, sh) { SyncKeeps(t, tm, RmLog(at, k), sh); }
    AnswerFrameLog(t, tm, RmLog(at, k));
    SyncKnown(t, RmLog(at, k));
  }

  lemma RmStepKeepsInv(t: Tx, at: Shard, r: (Rm, RmOut))
    requires DistInv(t) && t.tm.Some? && at in t.plan && r.1.answer.None?
    requires ShardInv(RmMoves(t, at, r), t.tm.value, at) && AnswerInv(RmMoves(t, at, r), t.tm.value)
    ensures DistInv(RmMoves(t, at, r))
  {
    var tm, u := t.tm.value, RmMoves(t, at, r);
    forall sh | sh in t.plan ensures ShardInv(u, tm, sh) {
      if sh != at { assert ShardInv(t, tm, sh); RmFrame(t, tm, at, r, sh); }
    }
    RmKeepsTm(t, tm, at, r);
    RmKeepsKnown(t, at, r);
  }

  lemma RmKeepsTm(t: Tx, tm: Tm, at: Shard, r: (Rm, RmOut))
    requires TmInv(t, tm)
    ensures TmInv(RmMoves(t, at, r), tm)
  {}

  lemma RmKeepsKnown(t: Tx, at: Shard, r: (Rm, RmOut))
    requires LogsKnown(t)
    ensures LogsKnown(RmMoves(t, at, r))
  {}

  lemma RmAnswerKeeps(t: Tx, tm: Tm, at: Shard, r: (Rm, RmOut))
    requires AnswerInv(t, tm) && !Unreached(t, tm, at) && r.1.answer.None?
    ensures AnswerInv(RmMoves(t, at, r), tm)
  {
    var u := RmMoves(t, at, r);
    forall sh ensures TmRequest(sh) in u.net ==> TmRequest(sh) in t.net {}
    AnswerFrame(t, tm, u, at);
  }

  lemma CommitKeepsInv(t: Tx, to: Shard)
    requires DistInv(t) && t.tm.Some? && TmCommit(to) in t.net && to in t.rms
    ensures DistInv(RmMoves(Take(t, TmCommit(to)), to, RmOnTmCommit(t.rms[to])))
  {
    var tm, t1, r := t.tm.value, Take(t, TmCommit(to)), RmOnTmCommit(t.rms[to]);
    assert ShardInv(t, tm, to);
    TakeKeepsInv(t, TmCommit(to));
    assert ShardInv(t1, tm, to);
    RmCommits(t1, tm, to);
    RmAnswerKeeps(t1, tm, to, r);
    RmStepKeepsInv(t1, to, r);
  }

  lemma AbortKeepsInv(t: Tx, to: Shard)
    requires DistInv(t) && t.tm.Some? && TmAbort(to) in t.net && to in t.rms
    ensures DistInv(RmMoves(Take(t, TmAbort(to)), to, RmOnTmAbort(t.rms[to])))
  {
    var tm, t1, r := t.tm.value, Take(t, TmAbort(to)), RmOnTmAbort(t.rms[to]);
    assert ShardInv(t, tm, to);
    TakeKeepsInv(t, TmAbort(to));
    assert ShardInv(t1, tm, to);
    RmAborts(t1, tm, to);
    RmAnswerKeeps(t1, tm, to, r);
    RmStepKeepsInv(t1, to, r);
  }

  lemma RequestAnswerKeeps(t: Tx, tm: Tm, to: Shard, r: (Rm, RmOut))
    requires AnswerInv(t, tm) && TmRequest(to) in t.net && r.1.answer.None?
    ensures AnswerInv(RmMoves(Take(t, TmRequest(to)), to, r), tm)
  {
    var u := RmMoves(Take(t, TmRequest(to)), to, r);
    forall sh ensures TmRequest(sh) in u.net ==> TmRequest(sh) in t.net {}
    AnswerFrame(t, tm, u, to);
  }

  lemma RequestKeepsInv(t: Tx, to: Shard)
    requires DistInv(t) && t.tm.Some? && TmRequest(to) in t.net && to !in t.rms && to in t.plan
    ensures DistInv(RmMoves(Take(t, TmRequest(to)), to, RmStart(t.plan[to], true)))
  {
    var tm, t1, r := t.tm.value, Take(t, TmRequest(to)), RmStart(t.plan[to], true);
    assert ShardInv(t, tm, to);
    TakeKeepsInv(t, TmRequest(to));
    assert ShardInv(t1, tm, to);
    RmStarts(t1, tm, to);
    RequestAnswerKeeps(t, tm, to, r);
    RmStepKeepsInv(t1, to, r);
  }

  lemma RmLogKeepsInv(t: Tx, at: Shard, k: LogKind)
    requires DistInv(t) && t.tm.Some? && RmLog(at, k) in t.pending && at in t.rms
    ensures DistInv(RmMoves(Sync(t, RmLog(at, k)), at, RmOnLog(t.rms[at], k)))
  {
    var tm, t1, r := t.tm.value, Sync(t, RmLog(at, k)), RmOnLog(t.rms[at], k);
    SyncKeepsInv(t, at, k);
    assert ShardInv(t1, tm, at);
    RmLogged(t1, tm, at, k);
    RmAnswerKeeps(t1, tm, at, r);
    RmStepKeepsInv(t1, at, r);
  }

  lemma RmWorkKeepsInv(t: Tx, at: Shard, rm: Rm)
    requires DistInv(t) && t.tm.Some? && at in t.rms && rm.state == t.rms[at].state && rm.distributed
    requires !rm.waiting && !rm.working && !Settled(t.rms[at])
    ensures DistInv(RmMoves(t, at, NextOperation(rm)))
  {
    assert ShardInv(t, t.tm.value, at);
    RmProceeds(t, t.tm.value, at, rm);
    RmAnswerKeeps(t, t.tm.value, at, NextOperation(rm));
    RmStepKeepsInv(t, at, NextOperation(rm));
  }

  lemma RmStayKeepsInv(t: Tx, at: Shard, rm: Rm, reply: Option<Reply>)
    requires DistInv(t) && t.tm.Some? && at in t.rms && rm.state == t.rms[at].state && rm.distributed
    requires OneAtATime(rm) && (Settled(t.rms[at]) ==> Settled(rm)) && (reply == None || reply == Some(VictimNotice))
    ensures DistInv(RmMoves(t, at, (rm, Quiet.(reply := reply))))
  {
    assert ShardInv(t, t.tm.value, at);
    RmStays(t, t.tm.value, at, rm, reply);
    RmAnswerKeeps(t, t.tm.value, at, (rm, Quiet.(reply := reply)));
    RmStepKeepsInv(t, at, (rm, Quiet.(reply := reply)));
  }

  lemma TmMoveWraps(t: Tx, r: (Tm, TmOut))
    requires !t.local && t.rms.Keys <= t.plan.Keys && LogsKnown(t) && Whole(TmMoves(t, r), r.0)
    ensures DistInv(TmMoves(t, r))
  {
    var u := TmMoves(t, r);
    assert u.tm == Some(r.0);
    forall x | (x in u.pending || x in u.durable) && x.RmLog? ensures x.shard in u.rms {
      assert x in t.pending || x in t.durable;
    }
  }

  lemma SyncKnown(t: Tx, r: LogRec)
    requires LogsKnown(t) && r in t.pending
    ensures LogsKnown(Sync(t, r))
  {}

  lemma NoteKeepsTm(t: Tx, tm: Tm, at: Shard, v: Tracer)
    requires TmInv(t, tm) && AnswerInv(t, tm) && at in tm.tracer && tm.tracer[at] != TCommitted
    requires !Unreached(t, tm, at)
    requires tm.tracer[at] == TPrepareAbort || tm.tracer[at] == TAborted ==> v == TPrepareAbort || v == TAborted
    ensures TmInv(t, tm.(tracer := tm.tracer[at := v])) && AnswerInv(t, tm.(tracer := tm.tracer[at := v]))
  {
    var tm' := tm.(tracer := tm.tracer[at := v]);
    if Doomed(t, tm) && tm.state == TmIdle {
      var sh :| sh in t.plan && Unreached(t, tm, sh);
      assert Unreached(t, tm', sh);
    }
    if tm.wroteAbort {
      var sh :| sh in tm.tracer && (tm.tracer[sh] == TPrepareAbort || tm.tracer[sh] == TAborted);
      assert tm'.tracer[sh] == TPrepareAbort || tm'.tracer[sh] == TAborted;
    }
  }

  lemma NoteKeepsWhole(t: Tx, tm: Tm, at: Shard, v: Tracer)
    requires Whole(t, tm) && at in tm.tracer && Backed(t, at, v) && v != TIdle && tm.tracer[at] != TCommitted
    requires tm.wroteCommit ==> v == TPrepareCommit || v == TCommitted
    requires tm.tracer[at] == TPrepareAbort || tm.tracer[at] == TAborted ==> v == TPrepareAbort || v == TAborted
    ensures Whole(t, tm.(tracer := tm.tracer[at := v]))
  {
    assert ShardInv(t, tm, at);
    NoteKeepsTm(t, tm, at, v);
    forall sh | sh in t.plan ensures ShardInv(t, tm.(tracer := tm.tracer[at := v]), sh) { NoteKeeps(t, tm, at, v, sh); }
  }

  lemma AllAbortedSide(t: Tx, tm: Tm)
    requires Whole(t, tm) && AllAre(tm.tracer, TAborted) && tm.state != TmDone
    ensures AllAre(tm.tracer, TCommitted) || tm.state == TmAborted
  {
    if !AllAre(tm.tracer, TCommitted) {
      var sh :| sh in tm.tracer && tm.tracer[sh] != TCommitted;
      assert ShardInv(t, tm, sh);
    }
  }

  lemma FinishKeeps(t: Tx, tm: Tm)
    requires TmInv(t, tm) && AnswerInv(t, tm) && (AllAre(tm.tracer, TCommitted) || tm.state == TmAborted)
    ensures TmInv(TmMoves(t, Finish(tm)), Finish(tm).0) && AnswerInv(TmMoves(t, Finish(tm)), Finish(tm).0)
  {
    assert forall sh :: sh in t.plan && tm.state == TmIdle ==> !Unreached(t, tm, sh);
  }

  lemma PreparedNotLost(t: Tx, tm: Tm)
    requires AnswerInv(t, tm) && TmInv(t, tm) && AllPrepared(tm.tracer) && tm.state == TmIdle && tm.tracer != map[]
    ensures tm.error == Ok && !tm.responded
  {
    assert forall sh :: sh in t.plan ==> !Unreached(t, tm, sh);
    assert exists sh :: sh in tm.tracer;
  }

  lemma DecideCommitKeeps(t: Tx, tm: Tm)
    requires TmInv(t, tm) && AnswerInv(t, tm) && AllAre(tm.tracer, TPrepareCommit) && tm.tracer != map[]
    ensures TmInv(TmMoves(t, WriteCommit(tm)), WriteCommit(tm).0)
    ensures AnswerInv(TmMoves(t, WriteCommit(tm)), WriteCommit(tm).0)
  {
    if tm.state == TmIdle { PreparedNotLost(t, tm); } else { AnswerSame(t, tm); }
  }

  lemma DecideAbortKeeps(t: Tx, tm: Tm)
    requires TmInv(t, tm) && AnswerInv(t, tm) && AllPrepared(tm.tracer) && !AllAre(tm.tracer, TPrepareCommit)
    ensures TmInv(TmMoves(t, WriteAbort(tm)), WriteAbort(tm).0)
    ensures AnswerInv(TmMoves(t, WriteAbort(tm)), WriteAbort(tm).0)
  {
    var sh :| sh in tm.tracer && tm.tracer[sh] == TPrepareAbort;
    if tm.state == TmIdle { PreparedNotLost(t, tm); } else { AnswerSame(t, tm); }
  }

  lemma AdvanceKeepsTm(t: Tx, tm: Tm)
    requires TmInv(t, tm) && AnswerInv(t, tm)
    requires AllAre(tm.tracer, TAborted) ==> AllAre(tm.tracer, TCommitted) || tm.state == TmAborted
    ensures TmInv(TmMoves(t, Advance(tm)), Advance(tm).0) && AnswerInv(TmMoves(t, Advance(tm)), Advance(tm).0)
  {
    if AllAre(tm.tracer, TCommitted) || AllAre(tm.tracer, TAborted) {
      FinishKeeps(t, tm);
      assert Advance(tm) == Finish(tm);
    } else if AllAre(tm.tracer, TPrepareCommit) {
      DecideCommitKeeps(t, tm);
      assert Advance(tm) == WriteCommit(tm);
    } else if AllPrepared(tm.tracer) {
      DecideAbortKeeps(t, tm);
      assert Advance(tm) == WriteAbort(tm);
    } else {
      AnswerSame(t, tm);
      assert TmMoves(t, Advance(tm)) == t.(tm := Some(tm));
    }
  }

  lemma AdvanceKeepsWhole(t: Tx, tm: Tm)
    requires Whole(t, tm) && tm.state != TmDone
    ensures Whole(TmMoves(t, Advance(tm)), Advance(tm).0)
  {
    if AllAre(tm.tracer, TAborted) { AllAbortedSide(t, tm); }
    AdvanceKeepsTm(t, tm);
    forall sh | sh in t.plan ensures ShardInv(TmMoves(t, Advance(tm)), Advance(tm).0, sh) { AdvanceKeeps(t, tm, sh); }
  }

  lemma AnswerSame(t: Tx, tm: Tm)
    requires AnswerInv(t, tm)
    ensures AnswerInv(t.(tm := Some(tm)), tm)
  {
    if Doomed(t, tm) && tm.state == TmIdle {
      var sh :| sh in t.plan && Unreached(t, tm, sh);
      assert Unreached(t.(tm := Some(tm)), tm, sh);
    }
  }

  lemma NoteAdvanceKeepsInv(t: Tx, tm: Tm, at: Shard, v: Tracer, r: (Tm, TmOut))
    requires DistInv(t) && t.tm == Some(tm) && tm.state != TmDone
    requires at in tm.tracer && Backed(t, at, v) && v != TIdle && tm.tracer[at] != TCommitted
    requires tm.wroteCommit ==> v == TPrepareCommit || v == TCommitted
    requires tm.tracer[at] == TPrepareAbort || tm.tracer[at] == TAborted ==> v == TPrepareAbort || v == TAborted
    requires r == Advance(tm.(tracer := tm.tracer[at := v]))
    ensures DistInv(TmMoves(t, r))
  {
    NoteKeepsWhole(t, tm, at, v);
    AdvanceKeepsWhole(t, tm.(tracer := tm.tracer[at := v]));
    TmMoveWraps(t, r);
  }

  lemma SilentMove(t: Tx, tm: Tm)
    requires t.tm == Some(tm)
    ensures TmMoves(t, (tm, Silent)) == t
  {}

  lemma PrepareNoted(t: Tx, tm: Tm, sh: Shard, c: bool)
    requires DistInv(t) && t.tm == Some(tm) && tm.state != TmDone && sh in tm.tracer
    requires Backed(t, sh, if c then TPrepareCommit else TPrepareAbort) && (tm.wroteCommit ==> tm.tracer[sh] != TIdle)
    ensures DistInv(TmMoves(t, TmOnPrepare(tm, sh, c)))
  {
    if tm.tracer[sh] == TIdle {
      NoteAdvanceKeepsInv(t, tm, sh, if c then TPrepareCommit else TPrepareAbort, TmOnPrepare(tm, sh, c));
    } else {
      SilentMove(t, tm);
    }
  }

  lemma PrepareKeepsInv(t: Tx, sh: Shard, c: bool)
    requires DistInv(t) && RmPrepare(sh, c) in t.net && TmListens(t, sh)
    ensures DistInv(TmMoves(Take(t, RmPrepare(sh, c)), TmOnPrepare(t.tm.value, sh, c)))
  {
    TakeKeepsInv(t, RmPrepare(sh, c));
    assert ShardInv(t, t.tm.value, sh);
    PrepareNoted(Take(t, RmPrepare(sh, c)), t.tm.value, sh, c);
  }

  lemma AckNoted(t: Tx, tm: Tm, sh: Shard, c: bool)
    requires DistInv(t) && t.tm == Some(tm) && tm.state != TmDone && sh in tm.tracer
    requires Backed(t, sh, if c then TCommitted else TAborted)
    requires (!c ==> !tm.wroteCommit && tm.tracer[sh] != TCommitted)
    ensures DistInv(TmMoves(t, TmOnAck(tm, sh, c)))
  {
    if (if c then tm.tracer[sh] == TPrepareCommit else tm.tracer[sh] != TAborted) {
      NoteAdvanceKeepsInv(t, tm, sh, if c then TCommitted else TAborted, TmOnAck(tm, sh, c));
    } else if c {
      SilentMove(t, tm);
    } else {
      AdvanceKeepsWhole(t, tm);
      TmMoveWraps(t, Advance(tm));
    }
  }

  lemma AckKeepsInv(t: Tx, sh: Shard, c: bool)
    requires DistInv(t) && RmAck(sh, c) in t.net && TmListens(t, sh)
    ensures DistInv(TmMoves(Take(t, RmAck(sh, c)), TmOnAck(t.tm.value, sh, c)))
  {
    TakeKeepsInv(t, RmAck(sh, c));
    assert ShardInv(t, t.tm.value, sh);
    AckNoted(Take(t, RmAck(sh, c)), t.tm.value, sh, c);
  }

  lemma AbortMoveKeeps(t: Tx, tm: Tm, r: (Tm, TmOut))
    requires Whole(t, tm) && !tm.wroteCommit && tm.state != TmDone
    requires r.0.state == TmAborted && r.0.error != Ok && r.0.tracer == tm.tracer && !r.0.wroteCommit
    requires r.0.wroteAbort == tm.wroteAbort
    requires r.0.responded && r.1.log.None? && r.1.send == Aborts(tm.tracer.Keys)
    requires r.1.answer == if tm.responded then None else Some(r.0.error)
    ensures Whole(TmMoves(t, r), r.0)
  {
    forall sh | sh in t.plan ensures ShardInv(TmMoves(t, r), r.0, sh) { AbortSent(t, tm, r, sh); }
  }

  lemma VictimKeepsInv(t: Tx, ec: EC)
    requires DistInv(t) && t.tm.Some? && t.tm.value.state != TmDone && ec != Ok
    ensures DistInv(TmMoves(t, TmOnVictim(t.tm.value, ec)))
  {
    var tm, r := t.tm.value, TmOnVictim(t.tm.value, ec);
    if tm.wroteCommit { TooLate(t, tm, ec); } else { AbortMoveKeeps(t, tm, r); }
    TmMoveWraps(t, r);
  }

  /** After the commit record an abort only leaves its mark. */
  lemma TooLate(t: Tx, tm: Tm, ec: EC)
    requires Whole(t, tm) && tm.wroteCommit
    ensures Whole(TmMoves(t, TmOnVictim(tm, ec)), TmOnVictim(tm, ec).0)
  {
    var r := TmOnVictim(tm, ec);
    forall sh | sh in t.plan ensures ShardInv(TmMoves(t, r), r.0, sh) { TmLogs(t, tm, r, sh); }
  }

  lemma CommittedKeepsInv(t: Tx)
    requires DistInv(t) && t.tm.Some? && TmLog(Commit) in t.pending
    ensures DistInv(TmMoves(Sync(t, TmLog(Commit)), TmOnCommitted(t.tm.value)))
  {
    var tm, t1 := t.tm.value, Sync(t, TmLog(Commit));
    var r := TmOnCommitted(tm);
    forall sh | sh in t.plan ensures ShardInv(TmMoves(t1, r), r.0, sh) {
      SyncKeeps(t, tm, TmLog(Commit), sh);
      CommitSent(t1, tm, sh);
    }
  }

  lemma SyncAbortKeeps(t: Tx, tm: Tm)
    requires Whole(t, tm) && TmLog(Abort) in t.pending
    ensures Whole(Sync(t, TmLog(Abort)), tm)
  {
    forall sh | sh in t.plan ensures ShardInv(Sync(t, TmLog(Abort)), tm, sh) { SyncKeeps(t, tm, TmLog(Abort), sh); }
    AnswerFrameLog(t, tm, TmLog(Abort));
  }

  lemma AbortedKeepsInv(t: Tx)
    requires DistInv(t) && t.tm.Some? && TmLog(Abort) in t.pending && t.tm.value.state != TmDone
    ensures DistInv(TmMoves(Sync(t, TmLog(Abort)), TmOnAborted(t.tm.value)))
  {
    var tm, t1 := t.tm.value, Sync(t, TmLog(Abort));
    SyncAbortKeeps(t, tm);
    SyncKnown(t, TmLog(Abort));
    AbortMoveKeeps(t1, tm, TmOnAborted(tm));
    TmMoveWraps(t1, TmOnAborted(tm));
  }

  lemma AnswerFrameLog(t: Tx, tm: Tm, r: LogRec)
    requires AnswerInv(t, tm)
    ensures AnswerInv(Sync(t, r), tm)
  {
    if Doomed(t, tm) && tm.state == TmIdle {
      var sh :| sh in t.plan && Unreached(t, tm, sh);
      assert Unreached(Sync(t, r), tm, sh);
    }
  }

  lemma EndedKeepsInv(t: Tx)
    requires DistInv(t) && t.tm.Some? && TmLog(End) in t.pending && t.tm.value.state != TmDone
    ensures DistInv(TmMoves(Sync(t, TmLog(End)), TmOnEnded(t.tm.value)))
  {
    var tm, t1 := t.tm.value, Sync(t, TmLog(End));
    var r := TmOnEnded(tm);
    forall sh | sh in t.plan ensures ShardInv(TmMoves(t1, r), r.0, sh) {
      SyncKeeps(t, tm, TmLog(End), sh);
      EndedKeeps(t1, tm, sh);
    }
  }

  lemma BegunShard(t: Tx, tm: Tm, r: (Tm, TmOut), to: set<Shard>, sh: Shard)
    requires ShardInv(t, tm, sh) && TmLog(Begin) in t.pending && TmLog(Begin) !in t.durable
    requires r.0.state == tm.state && r.0.tracer == tm.tracer && r.0.wroteCommit == tm.wroteCommit
    requires r.1.send == Requests(to)
    ensures ShardInv(TmMoves(Sync(t, TmLog(Begin)), r), r.0, sh)
    ensures sh !in to && r.1.log.None? ==> Unreached(TmMoves(Sync(t, TmLog(Begin)), r), r.0, sh)
  {
    SyncKeeps(t, tm, TmLog(Begin), sh);
    RequestsSent(Sync(t, TmLog(Begin)), tm, r, to, sh);
    SentMessages(to, TmRequest(sh));
  }

  lemma BegunAnswers(t: Tx, tm: Tm, reached: set<Shard>)
    requires TmInv(t, tm) && AnswerInv(t, tm) && TmLog(Begin) in t.pending
    requires forall sh :: sh in t.plan && sh !in reached ==>
      Unreached(TmMoves(Sync(t, TmLog(Begin)), TmOnBegin(tm, reached)), TmOnBegin(tm, reached).0, sh)
    requires !(tm.tracer.Keys <= reached) ==> !tm.wroteCommit
    ensures TmInv(TmMoves(Sync(t, TmLog(Begin)), TmOnBegin(tm, reached)), TmOnBegin(tm, reached).0)
    ensures AnswerInv(TmMoves(Sync(t, TmLog(Begin)), TmOnBegin(tm, reached)), TmOnBegin(tm, reached).0)
  {
    if tm.tracer.Keys <= reached {
      assert !(exists sh :: sh in t.plan && Unreached(t, tm, sh));
    } else {
      var sh :| sh in t.plan && sh !in reached;
    }
  }

  lemma BegunKeepsInv(t: Tx, reached: set<Shard>)
    requires DistInv(t) && t.tm.Some? && TmLog(Begin) in t.pending
    ensures DistInv(TmMoves(Sync(t, TmLog(Begin)), TmOnBegin(t.tm.value, reached)))
  {
    var tm, r := t.tm.value, TmOnBegin(t.tm.value, reached);
    var to := if tm.tracer.Keys <= reached then tm.tracer.Keys else reached * tm.tracer.Keys;
    forall sh | sh in t.plan
      ensures ShardInv(TmMoves(Sync(t, TmLog(Begin)), r), r.0, sh)
      ensures sh !in reached ==> Unreached(TmMoves(Sync(t, TmLog(Begin)), r), r.0, sh) && !tm.wroteCommit
    {
      assert ShardInv(t, tm, sh);
      BegunShard(t, tm, r, to, sh);
    }
    BegunAnswers(t, tm, reached);
    SyncKnown(t, TmLog(Begin));
    TmMoveWraps(Sync(t, TmLog(Begin)), r);
  }

  lemma AcceptKeepsInv(t: Tx, led: set<Shard>)
    requires DistInv(t) && t.tm.None?
    ensures DistInv(TmMoves(t, TmStart(t.plan.Keys, led)))
  {
    var r := TmStart(t.plan.Keys, led);
    if !(t.plan.Keys <= led) {
      var sh :| sh in t.plan && sh !in led;
      assert Unreached(TmMoves(t, r), r.0, sh);
    }
  }

  // ------------------------------------------------ transactions on one shard, without a coordinator

  ghost predicate LocalRmInv(t: Tx, sh: Shard) {
    if sh !in t.rms then !Logged(t, sh, Commit) && !Logged(t, sh, Abort)
    else
      var rm := t.rms[sh];
      && !rm.distributed && OneAtATime(rm)
      && (rm.state == RmIdle || rm.state == RmCommitting || rm.state == RmAborting || rm.state == RmEnded)
      && (rm.state == RmIdle ==> !Logged(t, sh, Commit) && !Logged(t, sh, Abort))
      && (rm.state == RmCommitting ==> Logged(t, sh, Commit))
      && (rm.state == RmAborting ==> Logged(t, sh, Abort))
      && (rm.state == RmEnded ==> Durable(t, sh, Commit) || Durable(t, sh, Abort))
      && (Logged(t, sh, Commit) ==> !Logged(t, sh, Abort) && Settled(rm) && rm.error == Ok)
      && (RmLog(sh, Commit) in t.pending || RmLog(sh, Abort) in t.pending ==> rm.state != RmEnded)
      && (rm.responded <==> rm.state == RmEnded)
  }

  ghost predicate LocalLogs(t: Tx) {
    forall r :: r in t.pending || r in t.durable ==>
      r.RmLog? && r.shard in t.rms && (r.kind == Commit || r.kind == Abort)
  }

  ghost predicate LocalInv(t: Tx) {
    && t.local && t.tm.None? && t.net == multiset{} && LocalLogs(t) && t.rms.Keys <= t.plan.Keys
    && (forall r :: r in t.pending ==> r !in t.durable)
    && (t.rms == map[] ==> t == InitTx(true, t.plan))
    && forall sh :: sh in t.rms ==> t.rms.Keys == {sh} && LocalRmInv(t, sh) && LocalAnswer(t, sh)
  }

  /** The client is answered when the participant ends: with Ok exactly when it committed. */
  ghost predicate LocalAnswer(t: Tx, sh: Shard) {
    if sh in t.rms && t.rms[sh].responded then |t.answers| == 1 && (t.answers[0] == Ok <==> Durable(t, sh, Commit))
    else t.answers == []
  }

  lemma LocalLogDone(t: Tx, sh: Shard, k: LogKind)
    requires LocalInv(t) && RmLog(sh, k) in t.pending && sh in t.rms
    ensures LocalInv(RmMoves(Sync(t, RmLog(sh, k)), sh, RmOnLog(t.rms[sh], k)))
  {
    assert LocalRmInv(t, sh) && LocalAnswer(t, sh);
    assert k == Commit || k == Abort;
    var u := RmMoves(Sync(t, RmLog(sh, k)), sh, RmOnLog(t.rms[sh], k));
    assert RmLog(sh, if k == Commit then Abort else Commit) !in t.pending;
    assert LocalRmInv(u, sh);
    assert LocalAnswer(u, sh);
  }

  lemma LocalRmStep(t: Tx, sh: Shard, r: (Rm, RmOut))
    requires LocalInv(t) && sh in t.rms && r.1.reply.None? && r.1.answer.None? && r.0.responded == t.rms[sh].responded
    requires r.1.log.None? || r.1.log == Some(Commit) || r.1.log == Some(Abort)
    requires r.1.log.Some? ==> t.rms[sh].state == RmIdle
    requires LocalRmInv(RmMoves(t, sh, r), sh)
    ensures LocalInv(RmMoves(t, sh, r))
  {
    assert LocalRmInv(t, sh) && LocalAnswer(t, sh);
    var u := RmMoves(t, sh, r);
    assert u.rms.Keys == {sh};
    assert LocalAnswer(u, sh);
  }

  lemma LocalWork(t: Tx, sh: Shard, e: Event)
    requires LocalRmInv(t, sh) && sh in t.rms && Enabled(t, e)
    requires e == LockTold(sh) || (e.OpDone? && e.shard == sh) || (e.RmHit? && e.shard == sh)
    ensures LocalRmInv(Next(t, e), sh)
  {}

  lemma LocalNext(t: Tx, e: Event)
    requires LocalInv(t) && Enabled(t, e)
    ensures LocalInv(Next(t, e))
  {
    match e
    case AcceptLocal(home) =>
      var u := RmMoves(t, home, RmStart(t.plan[home], false));
      assert LocalRmInv(u, home) && LocalAnswer(u, home);
    case LogDone(r, reached) =>
      LocalLogDone(t, r.shard, r.kind);
    case LockTold(sh) =>
      LocalWork(t, sh, e);
      LocalRmStep(t, sh, RmOnLock(t.rms[sh]));
    case OpDone(sh, ec) =>
      LocalWork(t, sh, e);
      LocalRmStep(t, sh, RmOnOpDone(t.rms[sh], ec));
    case RmHit(sh, ec) =>
      LocalWork(t, sh, e);
      LocalRmStep(t, sh, RmOnVictim(t.rms[sh], ec));
  }

  /** What a message does, in terms of the state with the message taken off the network. */
  lemma ToRm(t: Tx, m: Msg)
    ensures m.TmRequest? ==>
      OnMessage(t, m) ==
        if m.shard in t.plan && m.shard !in t.rms then RmMoves(Take(t, m), m.shard, RmStart(t.plan[m.shard], true))
        else Take(t, m)
    ensures m.TmCommit? ==>
      OnMessage(t, m) ==
        if m.shard in t.rms then RmMoves(Take(t, m), m.shard, RmOnTmCommit(t.rms[m.shard])) else Take(t, m)
    ensures m.TmAbort? ==>
      OnMessage(t, m) ==
        if m.shard in t.rms then RmMoves(Take(t, m), m.shard, RmOnTmAbort(t.rms[m.shard])) else Take(t, m)
  {}

  lemma ToTm(t: Tx, m: Msg)
    ensures m.RmPrepare? ==>
      OnMessage(t, m) ==
        if TmListens(t, m.shard) then TmMoves(Take(t, m), TmOnPrepare(t.tm.value, m.shard, m.commit)) else Take(t, m)
    ensures m.RmAck? ==>
      OnMessage(t, m) ==
        if TmListens(t, m.shard) then TmMoves(Take(t, m), TmOnAck(t.tm.value, m.shard, m.commit)) else Take(t, m)
    ensures m.RmVictim? ==>
      OnMessage(t, m) ==
        if TmListens(t, m.shard) then TmMoves(Take(t, m), TmOnVictim(t.tm.value, Victim)) else Take(t, m)
  {}

  lemma ToRmKeepsInv(t: Tx, m: Msg)
    requires DistInv(t) && t.tm.Some? && m in t.net && (m.TmRequest? || m.TmCommit? || m.TmAbort?)
    ensures DistInv(OnMessage(t, m))
  {
    ToRm(t, m);
    if m.TmRequest? && m.shard in t.plan && m.shard !in t.rms {
      RequestKeepsInv(t, m.shard);
    } else if m.TmCommit? && m.shard in t.rms {
      CommitKeepsInv(t, m.shard);
    } else if m.TmAbort? && m.shard in t.rms {
      AbortKeepsInv(t, m.shard);
    } else {
      TakeKeepsInv(t, m);
    }
  }

  lemma ToTmKeepsInv(t: Tx, m: Msg)
    requires DistInv(t) && t.tm.Some? && m in t.net && (m.RmPrepare? || m.RmAck? || m.RmVictim?)
    ensures DistInv(OnMessage(t, m))
  {
    ToTm(t, m);
    if !TmListens(t, m.shard) {
      TakeKeepsInv(t, m);
    } else if m.RmPrepare? {
      PrepareKeepsInv(t, m.shard, m.commit);
    } else if m.RmAck? {
      AckKeepsInv(t, m.shard, m.commit);
    } else {
      TakeKeepsInv(t, m);
      VictimKeepsInv(Take(t, m), Victim);
    }
  }

  lemma MessageKeepsInv(t: Tx, m: Msg)
    requires DistInv(t) && t.tm.Some? && m in t.net
    ensures DistInv(OnMessage(t, m))
  {
    if m.TmRequest? || m.TmCommit? || m.TmAbort? { ToRmKeepsInv(t, m); } else { ToTmKeepsInv(t, m); }
  }

  lemma LogKeepsInv(t: Tx, r: LogRec, reached: set<Shard>)
    requires DistInv(t) && t.tm.Some? && r in t.pending
    ensures DistInv(OnLog(t, r, reached))
  {
    match r
    case RmLog(sh, k) => RmLogKeepsInv(t, sh, k);
    case TmLog(k) =>
      if t.tm.value.state == TmDone || k == PrepareCommit || k == PrepareAbort {
        DoneLogKeepsInv(t, k);
      } else {
        match k
        case Begin => BegunKeepsInv(t, reached);
        case Commit => CommittedKeepsInv(t);
        case Abort => AbortedKeepsInv(t);
        case End => EndedKeepsInv(t);
      }
  }

  lemma DoneLogKeepsInv(t: Tx, k: LogKind)
    requires DistInv(t) && t.tm.Some? && TmLog(k) in t.pending
    requires t.tm.value.state == TmDone || k == PrepareCommit || k == PrepareAbort
    ensures DistInv(Sync(t, TmLog(k)))
  {
    var tm, u := t.tm.value, Sync(t, TmLog(k));
    forall sh | sh in t.plan ensures ShardInv(u, tm, sh) { SyncKeeps(t, tm, TmLog(k), sh); }
    AnswerFrameLog(t, tm, TmLog(k));
    SyncKnown(t, TmLog(k));
  }

  lemma DistNext(t: Tx, e: Event)
    requires DistInv(t) && Enabled(t, e)
    ensures DistInv(Next(t, e))
  {
    match e
    case Accept(led) => AcceptKeepsInv(t, led);
    case Deliver(m) => MessageKeepsInv(t, m);
    case LogDone(r, reached) => LogKeepsInv(t, r, reached);
    case LockTold(sh) =>
      assert ShardInv(t, t.tm.value, sh);
      RmStayKeepsInv(t, sh, RmOnLock(t.rms[sh]).0, None);
    case OpDone(sh, ec) =>
      assert ShardInv(t, t.tm.value, sh);
      RmWorkKeepsInv(t, sh, t.rms[sh].(working := false, ops := t.rms[sh].ops[1..], error := ec));
    case TmHit(ec) => VictimKeepsInv(t, ec);
    case RmHit(sh, ec) =>
      assert ShardInv(t, t.tm.value, sh);
      RmStayKeepsInv(t, sh, t.rms[sh], Some(VictimNotice));
  }

  ghost predicate TxInv(t: Tx) {
    if t.local then LocalInv(t) else DistInv(t)
  }

  predicate SameTx(t: Tx, u: Tx) { u.local == t.local && u.plan == t.plan && t.answers <= u.answers }

  lemma MessageSameTx(t: Tx, m: Msg)
    ensures SameTx(t, OnMessage(t, m))
  {
    ToRm(t, m);
    ToTm(t, m);
  }

  /** What a completed log record does, in terms of the state with the record durable. */
  lemma LogIs(t: Tx, r: LogRec, reached: set<Shard>)
    ensures r.RmLog? ==>
      OnLog(t, r, reached) ==
        if r.shard in t.rms then RmMoves(Sync(t, r), r.shard, RmOnLog(t.rms[r.shard], r.kind)) else Sync(t, r)
    ensures r.TmLog? ==>
      OnLog(t, r, reached) ==
        if t.tm.None? || t.tm.value.state == TmDone then Sync(t, r) else OnTmLog(Sync(t, r), r.kind, reached)
  {}

  lemma LogSameTx(t: Tx, r: LogRec, reached: set<Shard>)
    ensures SameTx(t, OnLog(t, r, reached))
  {
    LogIs(t, r, reached);
  }

  lemma NextSameTx(t: Tx, e: Event)
    requires Enabled(t, e)
    ensures SameTx(t, Next(t, e))
  {
    match e
    case Deliver(m) => MessageSameTx(t, m);
    case LogDone(r, reached) => LogSameTx(t, r, reached);
    case _ =>
  }

  lemma NextKeepsInv(t: Tx, e: Event)
    requires TxInv(t) && Enabled(t, e)
    ensures TxInv(Next(t, e))
  {
    NextSameTx(t, e);
    if t.local { LocalNext(t, e); } else { DistNext(t, e); }
  }

  lemma {:induction false} EveryRunKeepsInv(local: bool, plan: map<Shard, seq<Op>>, es: seq<Event>)
    requires Legal(InitTx(local, plan), es)
    ensures TxInv(After(InitTx(local, plan), es))
    ensures After(InitTx(local, plan), es).local == local && After(InitTx(local, plan), es).plan == plan
  {
    if es != [] {
      EveryRunKeepsInv(local, plan, es[..|es| - 1]);
      NextKeepsInv(After(InitTx(local, plan), es[..|es| - 1]), es[|es| - 1]);
      NextSameTx(After(InitTx(local, plan), es[..|es| - 1]), es[|es| - 1]);
    }
  }

  // ------------------------------------------------ what every run guarantees

  /** Atomic commitment: no run logs RM_COMMIT on one shard and RM_ABORT on another,
      and RM_COMMIT anywhere means every shard's prepare-commit record is durable. */
  lemma AtomicCommitment(plan: map<Shard, seq<Op>>, es: seq<Event>, a: Shard, b: Shard)
    requires Legal(InitTx(false, plan), es)
    ensures var t := After(InitTx(false, plan), es);
      && !(Logged(t, a, Commit) && Logged(t, b, Abort))
      && (Logged(t, a, Commit) && b in plan ==> Durable(t, b, PrepareCommit))
  {
    EveryRunKeepsInv(false, plan, es);
    var t := After(InitTx(false, plan), es);
    if Logged(t, a, Commit) || Logged(t, b, Abort) {
      assert a in t.plan ==> ShardInv(t, t.tm.value, a);
      assert b in t.plan ==> ShardInv(t, t.tm.value, b);
    }
  }

  /** The step that first logs RM_COMMIT on a shard finds every shard's prepare-commit record durable already. */
  lemma CommitComesLast(plan: map<Shard, seq<Op>>, es: seq<Event>, e: Event, a: Shard, b: Shard)
    requires Legal(InitTx(false, plan), es) && Enabled(After(InitTx(false, plan), es), e) && b in plan
    requires !Logged(After(InitTx(false, plan), es), a, Commit)
    requires Logged(Next(After(InitTx(false, plan), es), e), a, Commit)
    ensures Durable(After(InitTx(false, plan), es), b, PrepareCommit)
  {
    EveryRunKeepsInv(false, plan, es);
    var t := After(InitTx(false, plan), es);
    CommitCause(t, e, a);
    assert ShardInv(t, t.tm.value, a) && ShardInv(t, t.tm.value, b);
  }

  lemma CommitCauseMessage(t: Tx, m: Msg, a: Shard)
    requires forall sh :: sh in t.rms ==> t.rms[sh].distributed
    requires !Logged(t, a, Commit) && Logged(OnMessage(t, m), a, Commit)
    ensures m == TmCommit(a) && a in t.rms
  {}

  lemma CommitCauseOther(t: Tx, e: Event, a: Shard)
    requires forall sh :: sh in t.rms ==> t.rms[sh].distributed
    requires Enabled(t, e) && !e.Deliver? && !e.AcceptLocal? && !Logged(t, a, Commit)
    ensures !Logged(Next(t, e), a, Commit)
  {
    if e.LogDone? { LogNoCommit(t, e.rec, e.reached, a); }
  }

  lemma LogNoCommit(t: Tx, r: LogRec, reached: set<Shard>, a: Shard)
    requires !Logged(t, a, Commit) && r in t.pending
    ensures !Logged(OnLog(t, r, reached), a, Commit)
  {
    assert !Logged(Sync(t, r), a, Commit);
    LogIs(t, r, reached);
  }

  lemma CommitCause(t: Tx, e: Event, a: Shard)
    requires DistInv(t) && Enabled(t, e) && !Logged(t, a, Commit) && Logged(Next(t, e), a, Commit)
    ensures t.tm.Some? && e == Deliver(TmCommit(a)) && a in t.rms
  {
    forall sh | sh in t.rms ensures t.rms[sh].distributed { assert ShardInv(t, t.tm.value, sh); }
    if e.Deliver? { CommitCauseMessage(t, e.msg, a); } else { CommitCauseOther(t, e, a); }
  }

  /** A handler reaches a branch the code guards with a failing assertion. */
  predicate ErrorBranch(t: Tx, e: Event) {
    && e.Deliver?
    && match e.msg
       case TmCommit(sh) => sh in t.rms && t.rms[sh].state != RmPrepareCommitting && t.rms[sh].state != RmCommitting
       case TmAbort(sh) => sh in t.rms && t.rms[sh].state == RmCommitting
       case RmAck(sh, c) =>
         TmListens(t, sh) &&
         if c then t.tm.value.tracer[sh] != TPrepareCommit && t.tm.value.tracer[sh] != TCommitted
         else t.tm.value.tracer[sh] == TCommitted
       case _ => false
  }

  lemma ErrorBranchesUnreachable(plan: map<Shard, seq<Op>>, es: seq<Event>, e: Event)
    requires Legal(InitTx(false, plan), es) && Enabled(After(InitTx(false, plan), es), e)
    ensures !ErrorBranch(After(InitTx(false, plan), es), e)
  {
    EveryRunKeepsInv(false, plan, es);
    var t := After(InitTx(false, plan), es);
    if e.Deliver? && t.tm.Some? && e.msg.shard in t.plan {
      assert ShardInv(t, t.tm.value, e.msg.shard);
    }
  }

  lemma {:induction false} AnswersGrow(t0: Tx, es: seq<Event>, n: nat)
    requires Legal(t0, es) && n <= |es|
    ensures Legal(t0, es[..n]) && After(t0, es[..n]).answers <= After(t0, es).answers
  {
    if n == |es| {
      assert es[..n] == es;
    } else {
      AnswersGrow(t0, es[..|es| - 1], n);
      assert es[..|es| - 1][..n] == es[..n];
      NextSameTx(After(t0, es[..|es| - 1]), es[|es| - 1]);
    }
  }

  /** The coordinator holds shard `a`'s acknowledgement of its commit, which is durable. */
  ghost predicate CommitAcked(t: Tx, a: Shard) {
    Durable(t, a, Commit) && t.tm.Some? && a in t.tm.value.tracer && t.tm.value.tracer[a] == TCommitted
  }

  lemma AnswerFacts(t: Tx, a: Shard)
    requires DistInv(t)
    ensures |t.answers| <= 1
    ensures t.answers == [Ok] && a in t.plan ==> CommitAcked(t, a)
    ensures t.answers != [] && t.answers != [Ok] ==> !Logged(t, a, Commit)
  {
    if t.tm.Some? && a in t.plan { assert ShardInv(t, t.tm.value, a); }
  }

  /** The client's answer agrees with the outcome: at most one answer; Ok only when every
      shard has acknowledged its commit; and once (after `n` events) the answer was
      something else, no shard ever logs RM_COMMIT. */
  lemma ClientAnswer(plan: map<Shard, seq<Op>>, es: seq<Event>, n: nat, a: Shard)
    requires Legal(InitTx(false, plan), es) && n <= |es| && a in plan
    ensures Legal(InitTx(false, plan), es[..n])
    ensures |After(InitTx(false, plan), es).answers| <= 1
    ensures After(InitTx(false, plan), es[..n]).answers == [Ok] ==> CommitAcked(After(InitTx(false, plan), es[..n]), a)
    ensures After(InitTx(false, plan), es[..n]).answers !in {[], [Ok]} ==>
      !Logged(After(InitTx(false, plan), es), a, Commit)
  {
    AnswersGrow(InitTx(false, plan), es, n);
    EveryRunKeepsInv(false, plan, es);
    EveryRunKeepsInv(false, plan, es[..n]);
    AnswerFacts(After(InitTx(false, plan), es[..n]), a);
    AnswerFacts(After(InitTx(false, plan), es), a);
  }
}
