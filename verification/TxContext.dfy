/** The participant of a transaction on one shard, in place.  Each handler is
    proved equal to its value in TwoPhaseCommit. */
module TxContexts {
  import opened Base
  import opened LockSlots
  import opened TwoPhaseCommit

  class TxContext {
    const distributed: bool
    var state: RmState
    var ops: seq<Op>
    var error: EC
    var waiting: bool
    var working: bool
    var oid: Oid
    var locks: seq<nat>
    var responded: bool

    ghost function Value(): Rm
      reads this
    {
      Rm(state, distributed, ops, error, waiting, working, oid, locks, responded)
    }

    constructor (distributed: bool)
      ensures Value() == Rm(RmIdle, distributed, [], Ok, false, false, 1, [], false)
    {
      this.distributed := distributed;
      state, ops, error, waiting, working, oid, locks, responded := RmIdle, [], Ok, false, false, 1, [], false;
    }

    method ProcessTxRequest(request: seq<Op>) returns (out: RmOut)
      requires Value() == Rm(RmIdle, distributed, [], Ok, false, false, 1, [], false)
      modifies this
      ensures (Value(), out) == RmStart(request, distributed)
    {
      for i := 0 to |request|
        invariant Value() == Rm(RmIdle, distributed, request[..i], Ok, false, false, 1, [], false)
      {
        ops := ops + [request[i]];
      }
      assert request[..|request|] == request;
      out := HandleNextOperation();
    }

    method HandleNextOperation() returns (out: RmOut)
      modifies this
      ensures (Value(), out) == NextOperation(old(Value()))
    {
      out := Quiet;
      if state != RmIdle { return; }
      if error == Ok {
        if ops != [] {
          out := LockRow(ops[0]);
        } else if distributed {
          state := RmPrepareCommitting;
          out := Quiet.(log := Some(PrepareCommit));
        } else {
          state := RmCommitting;
          out := Quiet.(log := Some(Commit));
        }
      } else if distributed {
        state := RmPrepareAborting;
        out := Quiet.(log := Some(PrepareAbort));
      } else {
        state := RmAborting;
        out := Quiet.(log := Some(LogKind.Abort));
      }
    }

    /** Reads and writes alike: take the next operation number, remember the lock, ask for it. */
    method LockRow(op: Op) returns (out: RmOut)
      modifies this`oid, this`locks, this`waiting
      ensures locks == old(locks) + [op.key] && oid == old(oid) + 1 && waiting
      ensures out == Quiet.(ask := Some(LockAsk(op.key, op.mode, old(oid))))
    {
      out := Quiet.(ask := Some(LockAsk(op.key, op.mode, oid)));
      oid := oid + 1;
      locks := locks + [op.key];
      waiting := true;
    }

    method NotifyLockAcquire() returns (out: RmOut)
      modifies this`waiting, this`working
      ensures (Value(), out) == RmOnLock(old(Value()))
    {
      if waiting { waiting, working := false, true; }
      out := Quiet;
    }

    method OpDone(ec: EC) returns (out: RmOut)
      requires ops != []
      modifies this
      ensures (Value(), out) == RmOnOpDone(old(Value()), ec)
    {
      working := false;
      ops := ops[1..];
      error := ec;
      out := HandleNextOperation();
    }

    method SendTxResponse() returns (answer: Option<EC>)
      modifies this`responded
      ensures (Value(), answer) == RmRespond(old(Value()))
    {
      if responded { return None; }
      responded := true;
      answer := Some(error);
    }

    /** Unlock every row locked, in the order locked. */
    method ReleaseLock() returns (unlock: seq<nat>)
      modifies this`locks, this`state
      ensures unlock == old(locks) && locks == [] && state == RmEnded
    {
      unlock := [];
      for i := 0 to |locks|
        invariant unlock == locks[..i] && locks == old(locks) && state == old(state)
      {
        unlock := unlock + [locks[i]];
      }
      state := RmEnded;
      locks := [];
    }

    method TxCommitted() returns (out: RmOut)
      modifies this
      ensures (Value(), out) == Release(old(Value()), true)
    {
      if !distributed {
        var answer := SendTxResponse();
        var unlock := ReleaseLock();
        out := Quiet.(answer := answer, unlock := unlock);
      } else {
        var unlock := ReleaseLock();
        out := Quiet.(reply := Some(Acked(true)), unlock := unlock);
      }
    }

    method TxAborted() returns (out: RmOut)
      modifies this
      ensures (Value(), out) == Release(old(Value()), false)
    {
      if !distributed {
        if error == Ok { error := TxAbort; }
        var answer := SendTxResponse();
        var unlock := ReleaseLock();
        out := Quiet.(answer := answer, unlock := unlock);
      } else {
        var unlock := ReleaseLock();
        out := Quiet.(reply := Some(Acked(false)), unlock := unlock);
      }
    }

    method OnLogEntryCommit(kind: LogKind) returns (out: RmOut)
      modifies this
      ensures (Value(), out) == RmOnLog(old(Value()), kind)
    {
      match kind {
        case Commit => out := TxCommitted();
        case Abort => out := TxAborted();
        case PrepareCommit => out := Quiet.(reply := Some(Prepared(true)));
        case PrepareAbort => out := Quiet.(reply := Some(Prepared(false)));
        case Begin => out := Quiet;
        case End => out := Quiet;
      }
    }

    method HandleTxTmCommit() returns (out: RmOut)
      modifies this`state
      ensures (Value(), out) == RmOnTmCommit(old(Value()))
    {
      out := Quiet;
      if state == RmPrepareCommitting {
        state := RmCommitting;
        out := Quiet.(log := Some(Commit));
      } else if state == RmCommitting {
        out := Quiet.(reply := Some(Acked(true)));
      }
    }

    method HandleTxTmAbort() returns (out: RmOut)
      modifies this`state
      ensures (Value(), out) == RmOnTmAbort(old(Value()))
    {
      out := Quiet;
      if state == RmIdle || state == RmPrepareAborting || state == RmPrepareCommitting {
        state := RmAborting;
        out := Quiet.(log := Some(LogKind.Abort));
      } else if state == RmAborting || state == RmEnded {
        out := Quiet.(reply := Some(Acked(false)));
      }
    }

    method Abort(ec: EC) returns (out: RmOut)
      modifies this`state, this`error
      ensures (Value(), out) == RmOnVictim(old(Value()), ec)
    {
      out := Quiet;
      if !distributed {
        if state == RmIdle {
          error := ec;
          state := RmAborting;
          out := Quiet.(log := Some(LogKind.Abort));
        }
      } else {
        out := Quiet.(reply := Some(VictimNotice));
      }
    }
  }
}
