/** The coordinator of one distributed transaction, in place.  Each handler is
    proved equal to its value in TwoPhaseCommit. */
module TxCoordinators {
  import opened Base
  import opened TwoPhaseCommit

  datatype ShardOp = ShardOp(shard: Shard, op: Op)

  function ShardsOf(req: seq<ShardOp>): set<Shard> { set p | p in req :: p.shard }

  /** The operations of a request that belong to one shard, in the order of the request. */
  function PartOf(req: seq<ShardOp>, sh: Shard): seq<Op> {
    if req == [] then []
    else PartOf(req[..|req| - 1], sh) + if req[|req| - 1].shard == sh then [req[|req| - 1].op] else []
  }

  /** The whole request, split by shard. */
  ghost predicate Splits(parts: map<Shard, seq<Op>>, req: seq<ShardOp>) {
    parts.Keys == ShardsOf(req) && forall sh :: sh in parts ==> parts[sh] == PartOf(req, sh)
  }

  /** The operation at `k` is the first whose shard has no known leader. */
  predicate FirstUnled(req: seq<ShardOp>, led: set<Shard>, k: nat) {
    k < |req| && ShardsOf(req[..k]) <= led && req[k].shard !in led
  }

  lemma ShardsMore(req: seq<ShardOp>, p: ShardOp)
    ensures ShardsOf(req + [p]) == ShardsOf(req) + {p.shard}
  {
    assert forall q :: q in req + [p] <==> q in req || q == p;
  }

  lemma PartMore(req: seq<ShardOp>, p: ShardOp, sh: Shard)
    ensures PartOf(req + [p], sh) == PartOf(req, sh) + if p.shard == sh then [p.op] else []
  {
    assert (req + [p])[..|req|] == req;
  }

  lemma {:induction false} NoPart(req: seq<ShardOp>, sh: Shard)
    ensures PartOf(req, sh) == [] <==> sh !in ShardsOf(req)
  {
    if req != [] {
      var front, last := req[..|req| - 1], req[|req| - 1];
      NoPart(front, sh);
      ShardsMore(front, last);
      PartMore(front, last, sh);
      assert req == front + [last];
    }
  }

  /** One more operation of the request put with its shard. */
  lemma SplitsMore(parts: map<Shard, seq<Op>>, req: seq<ShardOp>, p: ShardOp)
    requires Splits(parts, req)
    ensures Splits(parts[p.shard := (if p.shard in parts then parts[p.shard] else []) + [p.op]], req + [p])
    ensures Untraced(ShardsOf(req + [p])) == Untraced(ShardsOf(req))[p.shard := TIdle]
  {
    ShardsMore(req, p);
    NoPart(req, p.shard);
    forall sh { PartMore(req, p, sh); }
  }

  lemma TakeOne(req: seq<ShardOp>, i: nat)
    requires i < |req|
    ensures req[..i + 1] == req[..i] + [req[i]]
    ensures ShardsOf(req[..i + 1]) == ShardsOf(req[..i]) + {req[i].shard}
    ensures ShardsOf(req[..i + 1]) <= ShardsOf(req)
  {
    assert req[..i + 1] == req[..i] + [req[i]];
    ShardsMore(req[..i], req[i]);
  }

  /** The shards known to be in one state. */
  ghost function In(tracer: map<Shard, Tracer>, shards: set<Shard>, v: Tracer): set<Shard> {
    set sh | sh in shards && sh in tracer && tracer[sh] == v
  }

  lemma InMore(tracer: map<Shard, Tracer>, done: set<Shard>, sh: Shard, v: Tracer)
    requires sh in tracer && sh !in done
    ensures |In(tracer, done + {sh}, v)| == |In(tracer, done, v)| + if tracer[sh] == v then 1 else 0
  {
    if tracer[sh] == v {
      assert In(tracer, done + {sh}, v) == In(tracer, done, v) + {sh};
    } else {
      assert In(tracer, done + {sh}, v) == In(tracer, done, v);
    }
  }

  lemma CountMore(tracer: map<Shard, Tracer>, done: set<Shard>, sh: Shard)
    requires sh in tracer && sh !in done
    ensures forall v :: |In(tracer, done + {sh}, v)| == |In(tracer, done, v)| + if tracer[sh] == v then 1 else 0
  {
    forall v ensures |In(tracer, done + {sh}, v)| == |In(tracer, done, v)| + if tracer[sh] == v then 1 else 0 {
      InMore(tracer, done, sh, v);
    }
  }

  lemma SubsetCount(a: set<Shard>, b: set<Shard>)
    requires a <= b
    ensures |a| <= |b| && (|a| == |b| <==> a == b)
  {
    assert b == a + (b - a);
  }

  lemma AllIn(tracer: map<Shard, Tracer>, v: Tracer)
    ensures |In(tracer, tracer.Keys, v)| == |tracer.Keys| <==> AllAre(tracer, v)
  {
    SubsetCount(In(tracer, tracer.Keys, v), tracer.Keys);
    if AllAre(tracer, v) { assert In(tracer, tracer.Keys, v) == tracer.Keys; }
    if |In(tracer, tracer.Keys, v)| == |tracer.Keys| {
      forall sh | sh in tracer ensures tracer[sh] == v { assert sh in In(tracer, tracer.Keys, v); }
    }
  }

  /** The two ways of being prepared fill the tracer exactly when every shard is prepared;
      then none voted to abort exactly when all voted to commit. */
  lemma PreparedIn(tracer: map<Shard, Tracer>)
    ensures var pc, pa := In(tracer, tracer.Keys, TPrepareCommit), In(tracer, tracer.Keys, TPrepareAbort);
      && (|pc| + |pa| == |tracer.Keys| <==> AllPrepared(tracer))
      && (AllPrepared(tracer) ==> (|pa| == 0 <==> AllAre(tracer, TPrepareCommit)))
  {
    var pc, pa := In(tracer, tracer.Keys, TPrepareCommit), In(tracer, tracer.Keys, TPrepareAbort);
    assert |pc + pa| == |pc| + |pa| by { assert pc * pa == {}; }
    SubsetCount(pc + pa, tracer.Keys);
    if pc + pa == tracer.Keys {
      forall sh | sh in tracer ensures tracer[sh] == TPrepareCommit || tracer[sh] == TPrepareAbort {
        assert sh in pc + pa;
      }
    }
    if AllPrepared(tracer) {
      assert pc + pa == tracer.Keys;
      if pa == {} {
        forall sh | sh in tracer ensures tracer[sh] == TPrepareCommit { assert sh !in pa; }
      }
    }
  }

  class TxCoordinator {
    var state: TmState
    var tracer: map<Shard, Tracer>
    var parts: map<Shard, seq<Op>>
    var wroteBegin: bool
    var wroteCommit: bool
    var wroteAbort: bool
    var wroteEnd: bool
    var error: EC
    var victim: bool
    var responded: bool

    ghost function Value(): Tm
      reads this
    {
      Tm(state, tracer, wroteBegin, wroteCommit, wroteAbort, wroteEnd, error, victim, responded)
    }

    /** The operations `req` are noted, split by shard. */
    ghost predicate Kept(req: seq<ShardOp>)
      reads this
    {
      Splits(parts, req) && tracer == Untraced(ShardsOf(req))
    }

    constructor ()
      ensures Value() == Tm(TmIdle, map[], false, false, false, false, Ok, false, false) && parts == map[]
    {
      state, tracer, parts := TmIdle, map[], map[];
      wroteBegin, wroteCommit, wroteAbort, wroteEnd := false, false, false, false;
      error, victim, responded := Ok, false, false;
    }

    /** Split the request by shard.  When every shard has a known leader the begin
        record is appended and the split is complete; at the first shard without
        one, the rest of the request is not looked at. */
    method HandleTxRequest(req: seq<ShardOp>, led: set<Shard>) returns (out: TmOut, ok: bool)
      requires Value() == Tm(TmIdle, map[], false, false, false, false, Ok, false, false) && parts == map[]
      modifies this
      ensures ok <==> ShardsOf(req) <= led
      ensures ok ==> (Value(), out) == TmStart(ShardsOf(req), led) && Splits(parts, req)
      ensures !ok ==> out == Silent && Value() == TmStart(ShardsOf(req), led).0.(tracer := tracer)
      ensures !ok ==> exists k :: FirstUnled(req, led, k) && Kept(req[..k + 1])
    {
      out := Silent;
      for i := 0 to |req|
        invariant ShardsOf(req[..i]) <= led && Splits(parts, req[..i]) && tracer == Untraced(ShardsOf(req[..i]))
        invariant Value() == Tm(TmIdle, tracer, false, false, false, false, Ok, false, false)
      {
        TakeOne(req, i);
        AddOperation(req[..i], req[i]);
        if req[i].shard !in led {
          error := InvalidArgument;
          assert FirstUnled(req, led, i) && Kept(req[..i + 1]);
          return out, false;
        }
      }
      assert req[..|req|] == req;
      ok := true;
      if state == TmIdle && !wroteBegin {
        out := Silent.(log := Some(Begin));
        wroteBegin := true;
      }
    }

    /** Put one more operation of the request with those of its shard. */
    method AddOperation(ghost done: seq<ShardOp>, p: ShardOp)
      requires Splits(parts, done) && tracer == Untraced(ShardsOf(done))
      modifies this`tracer, this`parts
      ensures Splits(parts, done + [p]) && tracer == Untraced(ShardsOf(done + [p]))
    {
      SplitsMore(parts, done, p);
      var sofar := [];
      if p.shard in tracer { sofar := parts[p.shard]; }
      parts := parts[p.shard := sofar + [p.op]];
      tracer := tracer[p.shard := TIdle];
    }

    method SendTxResponse() returns (answer: Option<EC>)
      modifies this`responded
      ensures (Value(), answer) == Respond(old(Value()))
    {
      if responded { return None; }
      responded := true;
      answer := Some(error);
    }

    /** Requests go out one shard after the other and stop at the first send that fails. */
    method SendRmRequest(reached: set<Shard>) returns (sent: set<Shard>, ok: bool)
      ensures sent <= tracer.Keys * reached
      ensures ok <==> sent == tracer.Keys
      ensures ok <==> tracer.Keys <= reached
    {
      var todo := tracer.Keys;
      sent, ok := {}, true;
      while todo != {}
        invariant todo <= tracer.Keys && sent == tracer.Keys - todo && sent <= reached
      {
        var sh :| sh in todo;
        if sh !in reached { return sent, false; }
        sent, todo := sent + {sh}, todo - {sh};
      }
    }

    method OnBegin(reached: set<Shard>) returns (out: TmOut, sent: set<Shard>)
      modifies this
      ensures (Value(), out) == TmOnBegin(old(Value()), sent) && parts == old(parts)
      ensures sent <= reached && (sent == old(tracer.Keys) <==> old(tracer.Keys) <= reached)
    {
      var ok;
      sent, ok := SendRmRequest(reached);
      assert sent * tracer.Keys == sent;
      out := Silent.(send := set sh | sh in sent :: TmRequest(sh));
      if !ok {
        error := TxAbort;
        var answer := SendTxResponse();
        out := out.(answer := answer);
      }
    }

    method SendCommit() returns (send: set<Msg>)
      ensures send == Commits(tracer.Keys)
    {
      var todo := tracer.Keys;
      send := {};
      while todo != {}
        invariant todo <= tracer.Keys && send == Commits(tracer.Keys - todo)
      {
        var sh :| sh in todo;
        assert tracer.Keys - (todo - {sh}) == tracer.Keys - todo + {sh};
        send, todo := send + {TmCommit(sh)}, todo - {sh};
      }
      assert tracer.Keys - todo == tracer.Keys;
    }

    method SendAbort() returns (send: set<Msg>)
      ensures send == Aborts(tracer.Keys)
    {
      var todo := tracer.Keys;
      send := {};
      while todo != {}
        invariant todo <= tracer.Keys && send == Aborts(tracer.Keys - todo)
      {
        var sh :| sh in todo;
        assert tracer.Keys - (todo - {sh}) == tracer.Keys - todo + {sh};
        send, todo := send + {TmAbort(sh)}, todo - {sh};
      }
      assert tracer.Keys - todo == tracer.Keys;
    }

    method OnCommitted() returns (out: TmOut)
      modifies this`state
      ensures (Value(), out) == TmOnCommitted(old(Value()))
    {
      state := TmCommitted;
      var send := SendCommit();
      out := TmOut(None, send, None);
    }

    method OnAborted() returns (out: TmOut)
      modifies this
      ensures (Value(), out) == TmOnAborted(old(Value())) && parts == old(parts)
    {
      state, error := TmAborted, TxAbort;
      var send := SendAbort();
      var answer := SendTxResponse();
      out := TmOut(None, send, answer);
    }

    method OnEnded() returns (out: TmOut)
      modifies this`state
      ensures (Value(), out) == TmOnEnded(old(Value()))
    {
      state := TmDone;
      out := Silent;
    }

    method WriteCommitLog() returns (log: Option<LogKind>)
      modifies this`wroteCommit
      ensures (Value(), Silent.(log := log)) == WriteCommit(old(Value()))
    {
      log := None;
      if state == TmIdle && !victim && !wroteCommit {
        log := Some(Commit);
        wroteCommit := true;
      }
    }

    method WriteAbortLog() returns (log: Option<LogKind>)
      modifies this`wroteAbort
      ensures (Value(), Silent.(log := log)) == WriteAbort(old(Value()))
    {
      log := None;
      if state == TmIdle && !wroteAbort && !wroteCommit {
        log := Some(LogKind.Abort);
        wroteAbort := true;
      }
    }

    method WriteEndLog() returns (log: Option<LogKind>)
      modifies this`wroteEnd
      ensures log.Some? <==> !old(wroteEnd) && (state == TmCommitted || state == TmAborted)
      ensures log.Some? ==> log.value == End
      ensures wroteEnd <==> old(wroteEnd) || log.Some?
    {
      log := None;
      if !wroteEnd && (state == TmCommitted || state == TmAborted) {
        log := Some(End);
        wroteEnd := true;
      }
    }

    /** One pass over the tracer, counting the shards in each state. */
    method CountStates()
      returns (prepareCommit: nat, prepareAbort: nat, committed: nat, aborted: nat, idle: nat, total: nat)
      ensures total == |tracer.Keys|
      ensures prepareCommit == |In(tracer, tracer.Keys, TPrepareCommit)|
      ensures prepareAbort == |In(tracer, tracer.Keys, TPrepareAbort)|
      ensures committed == |In(tracer, tracer.Keys, TCommitted)| && aborted == |In(tracer, tracer.Keys, TAborted)|
      ensures idle == |In(tracer, tracer.Keys, TIdle)|
    {
      prepareCommit, prepareAbort, committed, aborted, idle, total := 0, 0, 0, 0, 0, 0;
      var todo := tracer.Keys;
      ghost var done := {};
      while todo != {}
        invariant done !! todo && done + todo == tracer.Keys && total == |done|
        invariant prepareCommit == |In(tracer, done, TPrepareCommit)|
        invariant prepareAbort == |In(tracer, done, TPrepareAbort)|
        invariant committed == |In(tracer, done, TCommitted)| && aborted == |In(tracer, done, TAborted)|
        invariant idle == |In(tracer, done, TIdle)|
      {
        var sh :| sh in todo;
        CountMore(tracer, done, sh);
        total := total + 1;
        match tracer[sh] {
          case TPrepareCommit => prepareCommit := prepareCommit + 1;
          case TPrepareAbort => prepareAbort := prepareAbort + 1;
          case TCommitted => committed := committed + 1;
          case TAborted => aborted := aborted + 1;
          case TIdle => idle := idle + 1;
        }
        todo := todo - {sh};
        done := done + {sh};
      }
      assert done == tracer.Keys;
    }

    lemma CountsDecide()
      ensures |In(tracer, tracer.Keys, TIdle)| == 0 <==> forall sh :: sh in tracer ==> tracer[sh] != TIdle
      ensures |In(tracer, tracer.Keys, TCommitted)| == |tracer.Keys| <==> AllAre(tracer, TCommitted)
      ensures |In(tracer, tracer.Keys, TAborted)| == |tracer.Keys| <==> AllAre(tracer, TAborted)
    {
      AllIn(tracer, TCommitted);
      AllIn(tracer, TAborted);
      forall sh | sh in tracer && tracer[sh] == TIdle ensures sh in In(tracer, tracer.Keys, TIdle) {}
    }

    method StepTmStateAdvance() returns (out: TmOut)
      modifies this
      ensures (Value(), out) == Advance(old(Value())) && parts == old(parts)
    {
      var prepareCommit, prepareAbort, committed, aborted, idle, total := CountStates();
      CountsDecide();
      PreparedIn(tracer);
      out := Silent;
      if idle == 0 {
        if committed == total || aborted == total {
          var answer := SendTxResponse();
          var log := WriteEndLog();
          out := TmOut(log, {}, answer);
        } else if prepareCommit + prepareAbort == total {
          if prepareAbort == 0 {
            var log := WriteCommitLog();
            out := Silent.(log := log);
          } else {
            var log := WriteAbortLog();
            out := Silent.(log := log);
          }
        }
      }
    }

    method HandleTxRmPrepare(sh: Shard, commit: bool) returns (out: TmOut)
      requires sh in tracer
      modifies this
      ensures (Value(), out) == TmOnPrepare(old(Value()), sh, commit) && parts == old(parts)
    {
      out := Silent;
      if tracer[sh] == TIdle {
        tracer := tracer[sh := if commit then TPrepareCommit else TPrepareAbort];
        out := StepTmStateAdvance();
      }
    }

    method HandleTxRmAck(sh: Shard, commit: bool) returns (out: TmOut)
      requires sh in tracer
      modifies this
      ensures (Value(), out) == TmOnAck(old(Value()), sh, commit) && parts == old(parts)
    {
      out := Silent;
      if commit {
        if tracer[sh] == TPrepareCommit {
          tracer := tracer[sh := TCommitted];
          out := StepTmStateAdvance();
        }
      } else if tracer[sh] == TPrepareCommit || tracer[sh] == TPrepareAbort || tracer[sh] == TIdle {
        tracer := tracer[sh := TAborted];
        out := StepTmStateAdvance();
      } else {
        out := StepTmStateAdvance();
      }
    }

    method Abort(ec: EC) returns (out: TmOut)
      modifies this
      ensures (Value(), out) == TmOnVictim(old(Value()), ec) && parts == old(parts)
    {
      out := Silent;
      if ec == Victim && state == TmIdle && !victim { victim := true; }
      if wroteCommit { return; }
      match state {
        case TmIdle =>
          error, state := ec, TmAborted;
          var answer := SendTxResponse();
          var send := SendAbort();
          out := TmOut(None, send, answer);
        case TmAborted =>
          error := ec;
          var answer := SendTxResponse();
          var send := SendAbort();
          out := TmOut(None, send, answer);
        case TmCommitted =>
        case TmDone =>
      }
    }
  }
}
