/** Two-phase commit of one transaction: the coordinator (TM), the participants
    (RMs), their messages and their log records.  Handlers are functions from the
    old state and the input to the new state and what is sent, logged or answered;
    the classes in TxCoordinator.dfy and TxContext.dfy compute them in place. */
module TwoPhaseCommit {
  import opened Base
  import opened LockSlots

  type Shard = nat

  datatype EC = Ok | Victim | TxAbort | InvalidArgument | Failed(code: nat)

  datatype LogKind = Begin | Commit | Abort | End | PrepareCommit | PrepareAbort

  datatype LogRec = TmLog(kind: LogKind) | RmLog(shard: Shard, kind: LogKind)

  datatype Msg =
    | TmRequest(shard: Shard)
    | TmCommit(shard: Shard)
    | TmAbort(shard: Shard)
    | RmPrepare(shard: Shard, commit: bool)
    | RmAck(shard: Shard, commit: bool)
    | RmVictim(shard: Shard)

  // ---------------------------------------------------------------- coordinator

  datatype TmState = TmIdle | TmCommitted | TmAborted | TmDone

  /** What the coordinator knows about one shard. */
  datatype Tracer = TIdle | TPrepareCommit | TPrepareAbort | TCommitted | TAborted

  datatype Tm = Tm(
    state: TmState, tracer: map<Shard, Tracer>,
    wroteBegin: bool, wroteCommit: bool, wroteAbort: bool, wroteEnd: bool,
    error: EC, victim: bool, responded: bool)

  datatype TmOut = TmOut(log: Option<LogKind>, send: set<Msg>, answer: Option<EC>)

  const Silent := TmOut(None, {}, None)

  function Requests(shards: set<Shard>): set<Msg> { set sh | sh in shards :: TmRequest(sh) }
  function Commits(shards: set<Shard>): set<Msg> { set sh | sh in shards :: TmCommit(sh) }
  function Aborts(shards: set<Shard>): set<Msg> { set sh | sh in shards :: TmAbort(sh) }

  function Untraced(shards: set<Shard>): map<Shard, Tracer> { map sh | sh in shards :: TIdle }

  /** A client request for `shards`, of which the leaders of `led` are known. */
  function TmStart(shards: set<Shard>, led: set<Shard>): (Tm, TmOut) {
    var tm := Tm(TmIdle, Untraced(shards), false, false, false, false, Ok, false, false);
    if shards <= led then (tm.(wroteBegin := true), Silent.(log := Some(Begin)))
    else (tm.(error := InvalidArgument), Silent)
  }

  function Respond(tm: Tm): (Tm, Option<EC>) {
    if tm.responded then (tm, None) else (tm.(responded := true), Some(tm.error))
  }

  /** The begin record is durable: requests leave for the shards, one after the
      other, until the send to one of them fails. */
  function TmOnBegin(tm: Tm, reached: set<Shard>): (Tm, TmOut) {
    if tm.tracer.Keys <= reached then (tm, Silent.(send := Requests(tm.tracer.Keys)))
    else
      var (t, answer) := Respond(tm.(error := TxAbort));
      (t, TmOut(None, Requests(reached * tm.tracer.Keys), answer))
  }

  function TmOnCommitted(tm: Tm): (Tm, TmOut) {
    (tm.(state := TmCommitted), Silent.(send := Commits(tm.tracer.Keys)))
  }

  function TmOnAborted(tm: Tm): (Tm, TmOut) {
    var (t, answer) := Respond(tm.(state := TmAborted, error := TxAbort));
    (t, TmOut(None, Aborts(tm.tracer.Keys), answer))
  }

  function TmOnEnded(tm: Tm): (Tm, TmOut) {
    (tm.(state := TmDone), Silent)
  }

  predicate AllAre(tracer: map<Shard, Tracer>, v: Tracer) {
    forall sh :: sh in tracer ==> tracer[sh] == v
  }

  predicate AllPrepared(tracer: map<Shard, Tracer>) {
    forall sh :: sh in tracer ==> tracer[sh] == TPrepareCommit || tracer[sh] == TPrepareAbort
  }

  function WriteCommit(tm: Tm): (Tm, TmOut) {
    if tm.state == TmIdle && !tm.victim && !tm.wroteCommit
    then (tm.(wroteCommit := true), Silent.(log := Some(Commit)))
    else (tm, Silent)
  }

  function WriteAbort(tm: Tm): (Tm, TmOut) {
    if tm.state == TmIdle && !tm.wroteAbort && !tm.wroteCommit
    then (tm.(wroteAbort := true), Silent.(log := Some(Abort)))
    else (tm, Silent)
  }

  /** Answer the client and log the end once every shard has finished the same way. */
  function Finish(tm: Tm): (Tm, TmOut) {
    var (t, answer) := Respond(tm);
    if !t.wroteEnd && (t.state == TmCommitted || t.state == TmAborted)
    then (t.(wroteEnd := true), TmOut(Some(End), {}, answer))
    else (t, TmOut(None, {}, answer))
  }

  /** What the coordinator does whenever it has learnt something about a shard. */
  function Advance(tm: Tm): (Tm, TmOut) {
    if AllAre(tm.tracer, TCommitted) || AllAre(tm.tracer, TAborted) then Finish(tm)
    else if AllAre(tm.tracer, TPrepareCommit) then WriteCommit(tm)
    else if AllPrepared(tm.tracer) then WriteAbort(tm)
    else (tm, Silent)
  }

  function TmOnPrepare(tm: Tm, sh: Shard, commit: bool): (Tm, TmOut)
    requires sh in tm.tracer
  {
    if tm.tracer[sh] == TIdle
    then Advance(tm.(tracer := tm.tracer[sh := if commit then TPrepareCommit else TPrepareAbort]))
    else (tm, Silent)
  }

  function TmOnAck(tm: Tm, sh: Shard, commit: bool): (Tm, TmOut)
    requires sh in tm.tracer
  {
    if commit then
      if tm.tracer[sh] == TPrepareCommit then Advance(tm.(tracer := tm.tracer[sh := TCommitted])) else (tm, Silent)
    else if tm.tracer[sh] == TCommitted || tm.tracer[sh] == TAborted then Advance(tm)
    else Advance(tm.(tracer := tm.tracer[sh := TAborted]))
  }

  function TmOnVictim(tm: Tm, ec: EC): (Tm, TmOut) {
    var t := if ec == Victim && tm.state == TmIdle then tm.(victim := true) else tm;
    if t.wroteCommit || t.state == TmCommitted || t.state == TmDone then (t, Silent)
    else
      var (u, answer) := Respond(t.(error := ec, state := TmAborted));
      (u, TmOut(None, Aborts(u.tracer.Keys), answer))
  }

  // ---------------------------------------------------------------- participant

  datatype RmState = RmIdle | RmCommitting | RmAborting | RmPrepareCommitting | RmPrepareAborting | RmEnded

  datatype Op = Op(key: nat, mode: Mode)

  /** `waiting`: a lock was asked for and its grant has not been told.
      `working`: the lock was granted and the operation has not finished. */
  datatype Rm = Rm(
    state: RmState, distributed: bool, ops: seq<Op>, error: EC,
    waiting: bool, working: bool, oid: Oid, locks: seq<nat>, responded: bool)

  datatype LockAsk = LockAsk(key: nat, mode: Mode, oid: Oid)

  datatype Reply = Prepared(commit: bool) | Acked(commit: bool) | VictimNotice

  datatype RmOut = RmOut(log: Option<LogKind>, reply: Option<Reply>, answer: Option<EC>, ask: Option<LockAsk>,
      unlock: seq<nat>)

  const Quiet := RmOut(None, None, None, None, [])

  function RmRespond(rm: Rm): (Rm, Option<EC>) {
    if rm.responded then (rm, None) else (rm.(responded := true), Some(rm.error))
  }

  function NextOperation(rm: Rm): (Rm, RmOut) {
    if rm.state != RmIdle then (rm, Quiet)
    else if rm.error == Ok && rm.ops != [] then
      (rm.(waiting := true, oid := rm.oid + 1, locks := rm.locks + [rm.ops[0].key]),
       Quiet.(ask := Some(LockAsk(rm.ops[0].key, rm.ops[0].mode, rm.oid))))
    else if rm.error == Ok then
      if rm.distributed then (rm.(state := RmPrepareCommitting), Quiet.(log := Some(PrepareCommit)))
      else (rm.(state := RmCommitting), Quiet.(log := Some(Commit)))
    else
      if rm.distributed then (rm.(state := RmPrepareAborting), Quiet.(log := Some(PrepareAbort)))
      else (rm.(state := RmAborting), Quiet.(log := Some(Abort)))
  }

  function RmStart(ops: seq<Op>, distributed: bool): (Rm, RmOut) {
    NextOperation(Rm(RmIdle, distributed, ops, Ok, false, false, 1, [], false))
  }

  function RmOnLock(rm: Rm): (Rm, RmOut) {
    if rm.waiting then (rm.(waiting := false, working := true), Quiet) else (rm, Quiet)
  }

  function RmOnOpDone(rm: Rm, ec: EC): (Rm, RmOut)
    requires rm.ops != []
  {
    NextOperation(rm.(working := false, ops := rm.ops[1..], error := ec))
  }

  /** Finish: acknowledge to the coordinator or answer the client, and unlock everything. */
  function Release(rm: Rm, commit: bool): (Rm, RmOut) {
    var u := rm.(state := RmEnded, locks := []);
    if rm.distributed then (u, Quiet.(reply := Some(Acked(commit)), unlock := rm.locks))
    else
      var (w, answer) := RmRespond(if !commit && rm.error == Ok then u.(error := TxAbort) else u);
      (w, Quiet.(answer := answer, unlock := rm.locks))
  }

  function RmOnLog(rm: Rm, kind: LogKind): (Rm, RmOut) {
    match kind
    case Commit => Release(rm, true)
    case Abort => Release(rm, false)
    case PrepareCommit => (rm, Quiet.(reply := Some(Prepared(true))))
    case PrepareAbort => (rm, Quiet.(reply := Some(Prepared(false))))
    case _ => (rm, Quiet)
  }

  function RmOnTmCommit(rm: Rm): (Rm, RmOut) {
    if rm.state == RmPrepareCommitting then (rm.(state := RmCommitting), Quiet.(log := Some(Commit)))
    else if rm.state == RmCommitting then (rm, Quiet.(reply := Some(Acked(true))))
    else (rm, Quiet)
  }

  function RmOnTmAbort(rm: Rm): (Rm, RmOut) {
    if rm.state == RmIdle || rm.state == RmPrepareAborting || rm.state == RmPrepareCommitting
    then (rm.(state := RmAborting), Quiet.(log := Some(Abort)))
    else if rm.state == RmAborting || rm.state == RmEnded then (rm, Quiet.(reply := Some(Acked(false))))
    else (rm, Quiet)
  }

  function RmOnVictim(rm: Rm, ec: EC): (Rm, RmOut) {
    if rm.distributed then (rm, Quiet.(reply := Some(VictimNotice)))
    else if rm.state == RmIdle then (rm.(state := RmAborting, error := ec), Quiet.(log := Some(Abort)))
    else (rm, Quiet)
  }
}
