/** A transaction on one shard, without a coordinator: at rest it has committed if all its operations
    went well and nothing hit it in time, and has aborted otherwise; the client is told which error. */
module CommitLocal {
  import opened TwoPhaseCommit
  import opened CommitProtocol
  import opened CommitOutcomes

  /** Nothing about the outcome of `sh` is logged yet. */
  ghost predicate Open(t: Tx, sh: Shard) { !Logged(t, sh, Commit) && !Logged(t, sh, Abort) }

  /** The event tells the transaction at `sh` how it fares: an operation is done, or a hit comes in time. */
  ghost predicate Tells(t: Tx, sh: Shard, e: Event) {
    && !Durable(t, sh, Commit) && !Durable(t, sh, Abort)
    && ((e.OpDone? && e.shard == sh) || (e.RmHit? && e.shard == sh && Open(t, sh)))
  }

  /** The last that was told before the outcome was durable. */
  ghost function Told(plan: map<Shard, seq<Op>>, es: seq<Event>, sh: Shard): EC
    requires Legal(InitTx(true, plan), es)
  {
    if es == [] then Ok
    else if Tells(After(InitTx(true, plan), es[..|es| - 1]), sh, es[|es| - 1]) then es[|es| - 1].ec
    else Told(plan, es[..|es| - 1], sh)
  }

  /** The client's error for an abort. */
  function Blame(ec: EC): EC { if ec == Ok then TxAbort else ec }

  ghost predicate ToldInv(t: Tx, sh: Shard, ec: EC) {
    sh in t.rms ==>
      && (Durable(t, sh, Commit) || Durable(t, sh, Abort) <==> t.rms[sh].state == RmEnded)
      && (t.rms[sh].state == RmEnded ==> t.rms[sh].locks == [])
      && (t.rms[sh].state != RmEnded ==> t.rms[sh].error == ec)
      && (Durable(t, sh, Abort) ==> t.answers == [Blame(ec)])
  }

  lemma LogTold(t: Tx, sh: Shard, k: LogKind, ec: EC)
    requires LocalInv(t) && sh in t.rms && ToldInv(t, sh, ec) && RmLog(sh, k) in t.pending
    ensures ToldInv(RmMoves(Sync(t, RmLog(sh, k)), sh, RmOnLog(t.rms[sh], k)), sh, ec)
  {
    assert LocalRmInv(t, sh) && LocalAnswer(t, sh);
    assert k == Commit || k == Abort;
  }

  lemma NextTold(t: Tx, e: Event, sh: Shard, ec: EC)
    requires LocalInv(t) && Enabled(t, e) && sh in t.plan && ToldInv(t, sh, ec) && (t.rms == map[] ==> ec == Ok)
    ensures ToldInv(Next(t, e), sh, if Tells(t, sh, e) then e.ec else ec)
  {
    if sh in t.rms { assert LocalRmInv(t, sh) && LocalAnswer(t, sh); }
    match e
    case LogDone(r, reached) => LogIs(t, r, reached); if r.shard == sh { LogTold(t, sh, r.kind, ec); }
    case _ =>
  }

  lemma {:induction false} EveryRunTold(plan: map<Shard, seq<Op>>, es: seq<Event>, sh: Shard)
    requires Legal(InitTx(true, plan), es) && sh in plan
    ensures ToldInv(After(InitTx(true, plan), es), sh, Told(plan, es, sh))
    ensures After(InitTx(true, plan), es).rms == map[] ==> Told(plan, es, sh) == Ok
  {
    if es != [] {
      var front, e := es[..|es| - 1], es[|es| - 1];
      EveryRunTold(plan, front, sh);
      EveryRunKeepsInv(true, plan, front);
      NextTold(After(InitTx(true, plan), front), e, sh, Told(plan, front, sh));
    }
  }

  // ---------------------------------------------------------------- the outcome

  /** A hit came while nothing was logged. */
  ghost predicate HitInTime(plan: map<Shard, seq<Op>>, es: seq<Event>, sh: Shard)
    requires Legal(InitTx(true, plan), es)
  {
    es != [] &&
    (|| HitInTime(plan, es[..|es| - 1], sh)
     || (es[|es| - 1].RmHit? && es[|es| - 1].shard == sh && Open(After(InitTx(true, plan), es[..|es| - 1]), sh)))
  }

  lemma LogsStay(t: Tx, e: Event, sh: Shard, k: LogKind)
    requires LocalInv(t) && Enabled(t, e) && Logged(t, sh, k)
    ensures Logged(Next(t, e), sh, k)
  {
    if e.LogDone? { LogIs(t, e.rec, e.reached); }
  }

  lemma HitAborts(t: Tx, sh: Shard, ec: EC)
    requires LocalInv(t) && Enabled(t, RmHit(sh, ec)) && Open(t, sh)
    ensures Logged(Next(t, RmHit(sh, ec)), sh, Abort)
  {
    assert LocalRmInv(t, sh);
  }

  lemma AbortCause(t: Tx, e: Event, sh: Shard)
    requires LocalInv(t) && Enabled(t, e) && !Logged(t, sh, Abort) && Logged(Next(t, e), sh, Abort)
    ensures (e.OpDone? && e.shard == sh && e.ec != Ok) || (e.RmHit? && e.shard == sh && Open(t, sh))
  {
    if sh in t.rms { assert LocalRmInv(t, sh); }
    if e.LogDone? { LogIs(t, e.rec, e.reached); }
  }

  /** The participant logs an abort if and only if an operation failed or a hit came in time. */
  lemma {:induction false} AbortedIff(plan: map<Shard, seq<Op>>, es: seq<Event>, sh: Shard)
    requires Legal(InitTx(true, plan), es)
    ensures Logged(After(InitTx(true, plan), es), sh, Abort) ==> OpFailed(es, sh) || HitInTime(plan, es, sh)
    ensures HitInTime(plan, es, sh) ==> Logged(After(InitTx(true, plan), es), sh, Abort)
  {
    if es != [] {
      var front, e := es[..|es| - 1], es[|es| - 1];
      var t := After(InitTx(true, plan), front);
      AbortedIff(plan, front, sh);
      FailedMore(es, sh);
      EveryRunKeepsInv(true, plan, front);
      if Logged(t, sh, Abort) {
        LogsStay(t, e, sh, Abort);
      } else if Logged(Next(t, e), sh, Abort) {
        AbortCause(t, e, sh);
      } else if HitInTime(plan, es, sh) {
        HitAborts(t, sh, e.ec);
      }
    }
  }

  /** The participant has finished with outcome `k` and holds no lock. */
  ghost predicate Ended(t: Tx, sh: Shard, k: LogKind) {
    sh in t.rms && Durable(t, sh, k) && t.rms[sh].state == RmEnded && t.rms[sh].locks == []
  }

  ghost predicate LocalRest(t: Tx, sh: Shard) {
    sh in t.rms && t.pending == {} && !t.rms[sh].waiting && !t.rms[sh].working
  }

  lemma RestIsOver(t: Tx, sh: Shard, ec: EC)
    requires LocalInv(t) && LocalRest(t, sh) && Busy(t.rms[sh]) && ToldInv(t, sh, ec)
    ensures Ended(t, sh, Commit) || Ended(t, sh, Abort)
    ensures Ended(t, sh, Commit) ==> t.answers == [Ok] && !Logged(t, sh, Abort)
    ensures Ended(t, sh, Abort) ==> t.answers == [Blame(ec)]
  {
    assert LocalRmInv(t, sh) && LocalAnswer(t, sh);
  }

  /** At rest the transaction has aborted, and the client has the last error told, if an operation
      failed or a hit came in time; otherwise it has committed, and the client knows. */
  lemma LocalOutcome(plan: map<Shard, seq<Op>>, es: seq<Event>, sh: Shard)
    requires Legal(InitTx(true, plan), es) && LocalRest(After(InitTx(true, plan), es), sh)
    ensures var t := After(InitTx(true, plan), es);
      if OpFailed(es, sh) || HitInTime(plan, es, sh)
      then Ended(t, sh, Abort) && t.answers == [Blame(Told(plan, es, sh))]
      else Ended(t, sh, Commit) && t.answers == [Ok]
  {
    var t := After(InitTx(true, plan), es);
    EveryRunKeepsInv(true, plan, es);
    EveryRunTold(plan, es, sh);
    EveryRunBusy(true, plan, es);
    RestIsOver(t, sh, Told(plan, es, sh));
    AbortedIff(plan, es, sh);
    if OpFailed(es, sh) { FailedNeverCommits(true, plan, es, sh); }
  }
}
