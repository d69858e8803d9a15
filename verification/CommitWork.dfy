/** How a participant works through its operations: in order, one lock for each, numbered from
    one on; and what it owes the coordinator for each abort it hears. */
module CommitWork {
  import opened TwoPhaseCommit
  import opened CommitProtocol

  function KeysOf(ops: seq<Op>): (ks: seq<nat>)
    ensures |ks| == |ops|
  {
    seq(|ops|, i requires 0 <= i < |ops| => ops[i].key)
  }

  /** How many operations of the participant are done, given that it has asked for `n` locks. */
  function DoneOf(rm: Rm, n: nat): int { if rm.waiting || rm.working then n - 1 else n }

  /** Until it ends, the participant holds or waits for the locks of its first operations, has asked
      for them one by one, and has all operations but the done ones left. */
  ghost predicate InOrder(rm: Rm, ops: seq<Op>) {
    !(rm.waiting && rm.working) &&
    (rm.state != RmEnded ==>
       var n := |rm.locks|;
       && n <= |ops| && rm.locks == KeysOf(ops[..n]) && rm.oid == n + 1
       && 0 <= DoneOf(rm, n) && rm.ops == ops[DoneOf(rm, n)..])
  }

  ghost predicate AllInOrder(t: Tx) {
    forall sh :: sh in t.rms ==> sh in t.plan && InOrder(t.rms[sh], t.plan[sh])
  }

  lemma NextInOrder(rm: Rm, ops: seq<Op>)
    requires InOrder(rm, ops) && !rm.waiting && !rm.working
    ensures InOrder(NextOperation(rm).0, ops)
  {
    var n := |rm.locks|;
    if rm.state == RmIdle && rm.error == Ok && rm.ops != [] {
      assert ops[..n + 1] == ops[..n] + [ops[n]];
      assert KeysOf(ops[..n + 1]) == KeysOf(ops[..n]) + [ops[n].key];
    }
  }

  lemma StartInOrder(ops: seq<Op>, distributed: bool)
    ensures InOrder(RmStart(ops, distributed).0, ops)
  {
    assert KeysOf(ops[..0]) == [];
    NextInOrder(Rm(RmIdle, distributed, ops, Ok, false, false, 1, [], false), ops);
  }

  lemma OpDoneInOrder(rm: Rm, ops: seq<Op>, ec: EC)
    requires InOrder(rm, ops) && rm.working && rm.ops != []
    ensures InOrder(RmOnOpDone(rm, ec).0, ops)
  {
    NextInOrder(rm.(working := false, ops := rm.ops[1..], error := ec), ops);
  }

  lemma StaysInOrder(rm: Rm, u: Rm, ops: seq<Op>)
    requires InOrder(rm, ops) && !(u.waiting && u.working)
    requires (u.waiting || u.working) == (rm.waiting || rm.working)
    requires u.locks == rm.locks && u.oid == rm.oid && u.ops == rm.ops && (rm.state == RmEnded ==> u.state == RmEnded)
    ensures InOrder(u, ops)
  {}

  lemma RmKeepsOrder(t: Tx, at: Shard, r: (Rm, RmOut))
    requires AllInOrder(t) && at in t.plan && InOrder(r.0, t.plan[at])
    ensures AllInOrder(RmMoves(t, at, r))
  {}

  lemma MessageKeepsOrder(t: Tx, m: Msg)
    requires AllInOrder(t)
    ensures AllInOrder(OnMessage(t, m))
  {
    ToRm(t, m);
    ToTm(t, m);
    var u := Take(t, m);
    assert AllInOrder(u);
    if m.TmRequest? && m.shard in t.plan && m.shard !in t.rms {
      StartInOrder(t.plan[m.shard], true);
      RmKeepsOrder(u, m.shard, RmStart(t.plan[m.shard], true));
    }
    if m.TmCommit? && m.shard in t.rms {
      StaysInOrder(t.rms[m.shard], RmOnTmCommit(t.rms[m.shard]).0, t.plan[m.shard]);
      RmKeepsOrder(u, m.shard, RmOnTmCommit(t.rms[m.shard]));
    }
    if m.TmAbort? && m.shard in t.rms {
      StaysInOrder(t.rms[m.shard], RmOnTmAbort(t.rms[m.shard]).0, t.plan[m.shard]);
      RmKeepsOrder(u, m.shard, RmOnTmAbort(t.rms[m.shard]));
    }
  }

  lemma LoggedInOrder(rm: Rm, ops: seq<Op>, k: LogKind)
    requires InOrder(rm, ops)
    ensures InOrder(RmOnLog(rm, k).0, ops)
  {}

  lemma LogKeepsOrder(t: Tx, r: LogRec, reached: set<Shard>)
    requires AllInOrder(t) && r in t.pending
    ensures AllInOrder(OnLog(t, r, reached))
  {
    LogIs(t, r, reached);
    assert AllInOrder(Sync(t, r));
    if r.RmLog? && r.shard in t.rms {
      LoggedInOrder(t.rms[r.shard], t.plan[r.shard], r.kind);
      RmKeepsOrder(Sync(t, r), r.shard, RmOnLog(t.rms[r.shard], r.kind));
    }
  }

  lemma OpDoneKeepsOrder(t: Tx, sh: Shard, ec: EC)
    requires AllInOrder(t) && Enabled(t, OpDone(sh, ec))
    ensures AllInOrder(Next(t, OpDone(sh, ec)))
  {
    if t.rms[sh].ops != [] {
      OpDoneInOrder(t.rms[sh], t.plan[sh], ec);
      RmKeepsOrder(t, sh, RmOnOpDone(t.rms[sh], ec));
    }
  }

  lemma ToldKeepsOrder(t: Tx, sh: Shard)
    requires AllInOrder(t) && Enabled(t, LockTold(sh))
    ensures AllInOrder(Next(t, LockTold(sh)))
  {
    StaysInOrder(t.rms[sh], RmOnLock(t.rms[sh]).0, t.plan[sh]);
    RmKeepsOrder(t, sh, RmOnLock(t.rms[sh]));
  }

  lemma HitKeepsOrder(t: Tx, sh: Shard, ec: EC)
    requires AllInOrder(t) && Enabled(t, RmHit(sh, ec))
    ensures AllInOrder(Next(t, RmHit(sh, ec)))
  {
    StaysInOrder(t.rms[sh], RmOnVictim(t.rms[sh], ec).0, t.plan[sh]);
    RmKeepsOrder(t, sh, RmOnVictim(t.rms[sh], ec));
  }

  lemma NextKeepsOrder(t: Tx, e: Event)
    requires AllInOrder(t) && Enabled(t, e)
    ensures AllInOrder(Next(t, e))
  {
    match e
    case AcceptLocal(home) => StartInOrder(t.plan[home], false);
    case Deliver(m) => MessageKeepsOrder(t, m);
    case LogDone(r, reached) => LogKeepsOrder(t, r, reached);
    case OpDone(sh, ec) => OpDoneKeepsOrder(t, sh, ec);
    case LockTold(sh) => ToldKeepsOrder(t, sh);
    case RmHit(sh, ec) => HitKeepsOrder(t, sh, ec);
    case _ =>
  }

  lemma {:induction false} EveryRunInOrder(local: bool, plan: map<Shard, seq<Op>>, es: seq<Event>)
    requires Legal(InitTx(local, plan), es)
    ensures AllInOrder(After(InitTx(local, plan), es)) && After(InitTx(local, plan), es).plan == plan
  {
    if es != [] {
      EveryRunInOrder(local, plan, es[..|es| - 1]);
      NextKeepsOrder(After(InitTx(local, plan), es[..|es| - 1]), es[|es| - 1]);
      NextSameTx(After(InitTx(local, plan), es[..|es| - 1]), es[|es| - 1]);
    }
  }

  /** The participant holds a lock for each of its operations, in their order, has asked for each
      of them once and has done them all. */
  ghost predicate AllDone(rm: Rm, ops: seq<Op>) {
    && |rm.locks| == |ops| && (forall i :: 0 <= i < |ops| ==> rm.locks[i] == ops[i].key)
    && rm.oid == |ops| + 1 && rm.ops == []
  }

  lemma SettledIsDone(rm: Rm, ops: seq<Op>)
    requires InOrder(rm, ops) && rm.state != RmEnded && Settled(rm)
    ensures AllDone(rm, ops)
  {
    assert ops[..|rm.locks|] == ops;
  }

  /** A participant that has logged its vote to commit, and has not ended, has done all its operations. */
  lemma VoteMeansDone(plan: map<Shard, seq<Op>>, es: seq<Event>, sh: Shard)
    requires Legal(InitTx(false, plan), es)
    requires sh in After(InitTx(false, plan), es).rms && After(InitTx(false, plan), es).rms[sh].state != RmEnded
    requires Logged(After(InitTx(false, plan), es), sh, PrepareCommit)
    ensures sh in plan && AllDone(After(InitTx(false, plan), es).rms[sh], plan[sh])
  {
    var t := After(InitTx(false, plan), es);
    EveryRunInOrder(false, plan, es);
    EveryRunKeepsInv(false, plan, es);
    assert ShardInv(t, t.tm.value, sh);
    SettledIsDone(t.rms[sh], plan[sh]);
  }

  // ---------------------------------------------------------------- every abort heard is answered

  lemma AbortHeard(t: Tx, tm: Tm, sh: Shard)
    requires ShardInv(t, tm, sh) && sh in t.rms && TmAbort(sh) in t.net
    ensures var u := OnMessage(t, TmAbort(sh)); RmLog(sh, Abort) in u.pending || RmAck(sh, false) in u.net
  {
    ToRm(t, TmAbort(sh));
  }

  lemma ShardOf(t: Tx, sh: Shard)
    requires TxInv(t) && !t.local && sh in t.rms
    ensures t.tm.Some? && ShardInv(t, t.tm.value, sh)
  {}

  /** A participant that hears an abort has its abort record under way, or an acknowledgement. */
  lemma AbortAnswered(plan: map<Shard, seq<Op>>, es: seq<Event>, sh: Shard)
    requires Legal(InitTx(false, plan), es) && sh in After(InitTx(false, plan), es).rms
    requires TmAbort(sh) in After(InitTx(false, plan), es).net
    ensures var u := Next(After(InitTx(false, plan), es), Deliver(TmAbort(sh)));
      RmLog(sh, Abort) in u.pending || RmAck(sh, false) in u.net
  {
    var t := After(InitTx(false, plan), es);
    EveryRunKeepsInv(false, plan, es);
    ShardOf(t, sh);
    AbortHeard(t, t.tm.value, sh);
  }

  /** A commit message finds its participant prepared, and not yet committing: it is sent once. */
  lemma CommitFindsPrepared(plan: map<Shard, seq<Op>>, es: seq<Event>, sh: Shard)
    requires Legal(InitTx(false, plan), es) && sh in plan && TmCommit(sh) in After(InitTx(false, plan), es).net
    ensures sh in After(InitTx(false, plan), es).rms
    ensures After(InitTx(false, plan), es).rms[sh].state == RmPrepareCommitting
  {
    var t := After(InitTx(false, plan), es);
    EveryRunKeepsInv(false, plan, es);
    assert ShardInv(t, t.tm.value, sh);
  }
}
