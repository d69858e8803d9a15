/** Many transactions over many rows: strict two-phase locking under two-phase
    commit.  Lock and unlock requests are posted to a row and handled there later,
    in the order posted; grants are told to the participant later still. */
module Serializability {
  import opened Base
  import opened LockSlots
  import opened TwoPhaseCommit
  import opened CommitProtocol

  datatype Row = Row(shard: Shard, key: nat)

  datatype Cmd = LockCmd(xid: Xid, mode: Mode, oid: Oid) | UnlockCmd(xid: Xid)

  datatype Note = Note(xid: Xid, shard: Shard)

  /** What happened, in order: lock grants with the mode held and the mode asked for,
      releases and commit decisions. */
  datatype Mark =
    | Granted(xid: Xid, row: Row, mode: Mode, asked: Mode)
    | Released(xid: Xid, row: Row)
    | DecidedMark(xid: Xid)

  datatype Db = Db(
    txs: map<Xid, Tx>, slots: map<Row, Slot>, posted: map<Row, seq<Cmd>>,
    notes: set<Note>, hist: seq<Mark>)

  const EmptyDb := Db(map[], map[], map[], {}, [])

  function SlotAt(slots: map<Row, Slot>, row: Row): Slot {
    if row in slots then slots[row] else EmptySlot
  }

  function PostedAt(posted: map<Row, seq<Cmd>>, row: Row): seq<Cmd> {
    if row in posted then posted[row] else []
  }

  /** The commit decision: the coordinator has appended its commit record, or a
      participant without a coordinator has appended its own. */
  ghost predicate Decided(t: Tx) {
    if t.local then exists sh :: sh in t.rms && Logged(t, sh, Commit)
    else t.tm.Some? && t.tm.value.wroteCommit
  }

  /** The participant whose handler runs on event `e`, and what the handler returns. */
  function RmPart(t: Tx, e: Event): Option<(Shard, (Rm, RmOut))>
    requires Enabled(t, e)
  {
    match e
    case AcceptLocal(home) => Some((home, RmStart(t.plan[home], false)))
    case Deliver(TmRequest(sh)) => if sh in t.plan && sh !in t.rms then Some((sh, RmStart(t.plan[sh], true))) else None
    case Deliver(TmCommit(sh)) => if sh in t.rms then Some((sh, RmOnTmCommit(t.rms[sh]))) else None
    case Deliver(TmAbort(sh)) => if sh in t.rms then Some((sh, RmOnTmAbort(t.rms[sh]))) else None
    case LogDone(RmLog(sh, k), _) => if sh in t.rms then Some((sh, RmOnLog(t.rms[sh], k))) else None
    case LockTold(sh) => Some((sh, RmOnLock(t.rms[sh])))
    case OpDone(sh, ec) => if t.rms[sh].ops == [] then None else Some((sh, RmOnOpDone(t.rms[sh], ec)))
    case RmHit(sh, ec) => Some((sh, RmOnVictim(t.rms[sh], ec)))
    case _ => None
  }

  lemma RmPartIsNext(t: Tx, e: Event)
    requires Enabled(t, e)
    ensures Next(t, e).rms ==
      if RmPart(t, e).None? then t.rms else t.rms[RmPart(t, e).value.0 := RmPart(t, e).value.1.0]
  {
    match e
    case Deliver(m) => MessageRms(t, m);
    case LogDone(r, reached) => LogRms(t, r, reached);
    case _ => OtherRms(t, e);
  }

  lemma OtherRms(t: Tx, e: Event)
    requires Enabled(t, e) && !e.Deliver? && !e.LogDone?
    ensures Next(t, e).rms ==
      if RmPart(t, e).None? then t.rms else t.rms[RmPart(t, e).value.0 := RmPart(t, e).value.1.0]
  {}

  lemma TmLogRms(t: Tx, k: LogKind, reached: set<Shard>)
    requires t.tm.Some?
    ensures OnTmLog(t, k, reached).rms == t.rms
  {}

  lemma LogRms(t: Tx, r: LogRec, reached: set<Shard>)
    requires r in t.pending
    ensures var p := RmPart(t, LogDone(r, reached));
      OnLog(t, r, reached).rms == if p.None? then t.rms else t.rms[p.value.0 := p.value.1.0]
  {
    LogIs(t, r, reached);
    if t.tm.Some? { TmLogRms(Sync(t, r), r.kind, reached); }
  }

  lemma MessageRms(t: Tx, m: Msg)
    requires m in t.net
    ensures Next(t, Deliver(m)).rms ==
      if RmPart(t, Deliver(m)).None? then t.rms
      else t.rms[RmPart(t, Deliver(m)).value.0 := RmPart(t, Deliver(m)).value.1.0]
  {
    ToRm(t, m);
    ToTm(t, m);
  }

  function Post(posted: map<Row, seq<Cmd>>, row: Row, c: Cmd): map<Row, seq<Cmd>> {
    posted[row := PostedAt(posted, row) + [c]]
  }

  function PostUnlocks(posted: map<Row, seq<Cmd>>, x: Xid, sh: Shard, keys: seq<nat>): map<Row, seq<Cmd>> {
    if keys == [] then posted
    else Post(PostUnlocks(posted, x, sh, keys[..|keys| - 1]), Row(sh, keys[|keys| - 1]), UnlockCmd(x))
  }

  function PostAsk(posted: map<Row, seq<Cmd>>, x: Xid, sh: Shard, ask: Option<LockAsk>): map<Row, seq<Cmd>> {
    if ask.None? then posted
    else Post(posted, Row(sh, ask.value.key), LockCmd(x, ask.value.mode, ask.value.oid))
  }

  // ------------------------------------------------ steps

  datatype Act =
    | NewTx(xid: Xid, local: bool, plan: map<Shard, seq<Op>>)
    | TxAct(xid: Xid, e: Event)
    | SlotAct(row: Row)
    | TellAct(note: Note)

  predicate CanAct(db: Db, a: Act) {
    match a
    case NewTx(x, local, plan) => x !in db.txs
    case TxAct(x, e) => x in db.txs && !e.LockTold? && Enabled(db.txs[x], e)
    case SlotAct(row) => PostedAt(db.posted, row) != []
    case TellAct(n) => n in db.notes
  }

  /** The participant still has the callback that the notification will run. */
  predicate Awaited(db: Db, n: Note) {
    n.xid in db.txs && n.shard in db.txs[n.xid].rms && db.txs[n.xid].rms[n.shard].waiting
  }

  /** The grants told by a row, with the mode each transaction now holds. */
  function GrantMarks(row: Row, s: Slot, told: seq<Request>, c: Cmd): seq<Mark> {
    seq(|told|, i requires 0 <= i < |told| =>
      Granted(told[i].xid, row, HeldMode(s, told[i].xid), if c.LockCmd? then c.mode else HeldMode(s, told[i].xid)))
  }

  function HeldMode(s: Slot, x: Xid): Mode { if x in s.info then s.info[x].mode else Read }

  function Notes(row: Row, told: seq<Request>): set<Note> {
    set r | r in told :: Note(r.xid, row.shard)
  }

  /** The transaction `x` handles event `e`; its participant's lock requests are posted. */
  ghost function TxStep(db: Db, x: Xid, e: Event): Db
    requires x in db.txs && Enabled(db.txs[x], e)
  {
    var t, u := db.txs[x], Next(db.txs[x], e);
    var posted := match RmPart(t, e)
      case None => db.posted
      case Some((sh, r)) => PostUnlocks(PostAsk(db.posted, x, sh, r.1.ask), x, sh, r.1.unlock);
    db.(txs := db.txs[x := u], posted := posted,
        hist := if Decided(u) && !Decided(t) then db.hist + [DecidedMark(x)] else db.hist)
  }

  /** What the first command posted to a row does to the row, and whom it tells. */
  function TurnOf(db: Db, row: Row): (Slot, seq<Request>)
    requires PostedAt(db.posted, row) != []
  {
    match PostedAt(db.posted, row)[0]
    case LockCmd(x, m, o) => LockStep(SlotAt(db.slots, row), m, x, o)
    case UnlockCmd(x) => UnlockStep(SlotAt(db.slots, row), x)
  }

  /** The row handles the first command posted to it. */
  function SlotStep(db: Db, row: Row): Db
    requires PostedAt(db.posted, row) != []
  {
    var q := PostedAt(db.posted, row);
    var (u, told) := TurnOf(db, row);
    var release := if q[0].UnlockCmd? then [Released(q[0].xid, row)] else [];
    db.(slots := db.slots[row := u], posted := db.posted[row := q[1..]],
        notes := db.notes + Notes(row, told), hist := db.hist + release + GrantMarks(row, u, told, q[0]))
  }

  ghost function DbNext(db: Db, a: Act): Db
    requires CanAct(db, a)
  {
    match a
    case NewTx(x, local, plan) => db.(txs := db.txs[x := InitTx(local, plan)])
    case TxAct(x, e) => TxStep(db, x, e)
    case SlotAct(row) => SlotStep(db, row)
    case TellAct(n) =>
      if Awaited(db, n) then TxStep(db.(notes := db.notes - {n}), n.xid, LockTold(n.shard))
      else db.(notes := db.notes - {n})
  }

  // ------------------------------------------------ what a participant does to its locks

  /** How a handler changed the lock side of a participant (`was`, if it existed). */
  ghost predicate Asks(was: Option<Rm>, r: (Rm, RmOut)) {
    && r.1.ask.Some? && r.1.unlock == []
    && (was.Some? ==> !was.value.waiting && was.value.state != RmEnded)
    && r.0.waiting && r.0.state != RmEnded && r.0.ops != [] && r.0.ops[0] == Op(r.1.ask.value.key, r.1.ask.value.mode)
    && r.0.locks == (if was.Some? then was.value.locks else []) + [r.1.ask.value.key]
  }

  ghost predicate Releases(was: Option<Rm>, r: (Rm, RmOut)) {
    && r.1.ask.None? && was.Some? && r.0.state == RmEnded && r.1.unlock == was.value.locks
    && r.0.waiting == was.value.waiting && r.0.ops == was.value.ops
  }

  ghost predicate Wakes(was: Option<Rm>, r: (Rm, RmOut)) {
    && r.1.ask.None? && r.1.unlock == [] && was.Some? && !r.0.waiting
    && r.0.state == was.value.state && r.0.locks == was.value.locks
  }

  ghost predicate Carries(was: Option<Rm>, r: (Rm, RmOut)) {
    && r.1.ask.None? && r.1.unlock == []
    && (was.None? ==> !r.0.waiting && r.0.state != RmEnded)
    && (was.Some? ==>
          && r.0.waiting == was.value.waiting && r.0.locks == was.value.locks
          && (r.0.waiting ==> r.0.ops == was.value.ops) && (r.0.state == RmEnded <==> was.value.state == RmEnded))
  }

  function RmAt(t: Tx, sh: Shard): Option<Rm> {
    if sh in t.rms then Some(t.rms[sh]) else None
  }

  lemma OneAtATimeAt(t: Tx, sh: Shard)
    requires TxInv(t) && sh in t.rms
    ensures OneAtATime(t.rms[sh])
  {
    if t.local { assert LocalRmInv(t, sh); } else { assert ShardInv(t, t.tm.value, sh); }
  }

  lemma StartKind(ops: seq<Op>, distributed: bool)
    ensures Asks(None, RmStart(ops, distributed)) || Carries(None, RmStart(ops, distributed))
  {}

  lemma OpDoneKind(rm: Rm, ec: EC)
    requires rm.ops != [] && rm.working && OneAtATime(rm)
    ensures Asks(Some(rm), RmOnOpDone(rm, ec)) || Carries(Some(rm), RmOnOpDone(rm, ec))
  {}

  lemma LogKinds(rm: Rm, k: LogKind)
    ensures Releases(Some(rm), RmOnLog(rm, k)) || Carries(Some(rm), RmOnLog(rm, k))
  {}

  lemma TmKinds(rm: Rm, ec: EC)
    ensures Carries(Some(rm), RmOnTmCommit(rm)) && Carries(Some(rm), RmOnTmAbort(rm))
    ensures Carries(Some(rm), RmOnVictim(rm, ec))
  {}

  lemma LockKind(rm: Rm)
    requires rm.waiting
    ensures Wakes(Some(rm), RmOnLock(rm))
  {}

  lemma HandlerKinds(t: Tx, e: Event)
    requires Enabled(t, e) && RmPart(t, e).Some? && (e.OpDone? ==> OneAtATime(t.rms[e.shard]))
    ensures HandlerMoves(RmAt(t, RmPart(t, e).value.0), RmPart(t, e).value.1, e.LockTold?)
  {
    match e
    case AcceptLocal(home) => StartKind(t.plan[home], false);
    case LogDone(r, _) => LogKinds(t.rms[r.shard], r.kind);
    case LockTold(sh) => LockKind(t.rms[sh]);
    case OpDone(sh, ec) => OpDoneKind(t.rms[sh], ec);
    case RmHit(sh, ec) => TmKinds(t.rms[sh], ec);
    case Deliver(m) => if m.TmRequest? { StartKind(t.plan[m.shard], true); } else { TmKinds(t.rms[m.shard], Ok); }
  }

  // ------------------------------------------------ locking invariant

  function Lockers(q: seq<Cmd>): set<Xid> { set c | c in q && c.LockCmd? :: c.xid }
  function Unlockers(q: seq<Cmd>): set<Xid> { set c | c in q && c.UnlockCmd? :: c.xid }

  lemma PostedMore(q: seq<Cmd>, c: Cmd)
    ensures Lockers(q + [c]) == Lockers(q) + (if c.LockCmd? then {c.xid} else {})
    ensures Unlockers(q + [c]) == Unlockers(q) + (if c.UnlockCmd? then {c.xid} else {})
  {
    assert forall d :: d in q + [c] <==> d in q || d == c;
  }

  lemma PostedLess(q: seq<Cmd>)
    requires q != []
    ensures Lockers(q) == Lockers(q[1..]) + (if q[0].LockCmd? then {q[0].xid} else {})
    ensures Unlockers(q) == Unlockers(q[1..]) + (if q[0].UnlockCmd? then {q[0].xid} else {})
  {
    assert forall d :: d in q <==> d in q[1..] || d == q[0];
  }

  /** A lock request is the first command its transaction has in the queue of the row. */
  ghost predicate LocksFirst(q: seq<Cmd>) {
    forall i, j :: 0 <= i < j < |q| && q[j].LockCmd? ==> q[i].xid != q[j].xid
  }

  /** Transaction `x` at a row: what it holds, waits for or has posted there is covered
      by its participant's lock list, and by a posted unlock once the participant has ended. */
  ghost predicate Covered(rm: Option<Rm>, key: nat, s: Slot, q: seq<Cmd>, x: Xid) {
    && (x in s.info || x in Lockers(q) || x in Unlockers(q) ==> rm.Some?)
    && (x in Unlockers(q) ==> rm.value.state == RmEnded)
    && (x in s.info || x in Lockers(q) ==>
          if rm.value.state == RmEnded then x in Unlockers(q) else key in rm.value.locks)
  }

  /** An open lock request of `x` at a row is the one its participant waits for, and is in one place only. */
  ghost predicate Awaits(rm: Option<Rm>, key: nat, s: Slot, q: seq<Cmd>, x: Xid, noted: bool) {
    && (x in Lockers(q) || Pending(s, x) ==>
          rm.Some? && rm.value.waiting && !noted && rm.value.ops != [] && rm.value.ops[0].key == key)
    && (x in Lockers(q) ==> !Pending(s, x))
  }

  function RmOf(db: Db, x: Xid, sh: Shard): Option<Rm> {
    if x in db.txs then RmAt(db.txs[x], sh) else None
  }

  ghost predicate RowTx(db: Db, row: Row, x: Xid) {
    && Covered(RmOf(db, x, row.shard), row.key, SlotAt(db.slots, row), PostedAt(db.posted, row), x)
    && Awaits(RmOf(db, x, row.shard), row.key, SlotAt(db.slots, row), PostedAt(db.posted, row), x,
        Note(x, row.shard) in db.notes)
  }

  ghost predicate LockInv(db: Db) {
    && (forall x :: x in db.txs ==> TxInv(db.txs[x]))
    && (forall row :: Inv(SlotAt(db.slots, row)))
    && (forall row :: LocksFirst(PostedAt(db.posted, row)))
    && (forall row, x :: RowTx(db, row, x))
    && (forall n :: n in db.notes ==> Awaited(db, n))
  }

  // participant steps

  lemma AskCovers(was: Option<Rm>, r: (Rm, RmOut), key: nat, s: Slot, q: seq<Cmd>, x: Xid, m: Mode, o: Oid)
    requires Covered(was, key, s, q, x) && Awaits(was, key, s, q, x, false) && LocksFirst(q)
    requires Asks(was, r)
    ensures x !in Lockers(q) && x !in Unlockers(q) && !Pending(s, x)
    ensures Covered(Some(r.0), key, s, q, x) && Awaits(Some(r.0), key, s, q, x, false)
    ensures key == r.1.ask.value.key ==>
      var p := q + [LockCmd(x, m, o)];
      Covered(Some(r.0), key, s, p, x) && Awaits(Some(r.0), key, s, p, x, false) && LocksFirst(p)
  {
    PostedMore(q, LockCmd(x, m, o));
    var p := q + [LockCmd(x, m, o)];
    forall i, j | 0 <= i < j < |p| && p[j].LockCmd? ensures p[i].xid != p[j].xid {
      if j == |q| { assert q[i] in q; assert q[i].xid in Lockers(q) || q[i].xid in Unlockers(q); }
    }
  }

  lemma ReleaseCovers(was: Option<Rm>, r: (Rm, RmOut), key: nat, s: Slot, q: seq<Cmd>, p: seq<Cmd>, x: Xid, noted: bool)
    requires Covered(was, key, s, q, x) && Awaits(was, key, s, q, x, noted) && Releases(was, r)
    requires Lockers(p) == Lockers(q) && Unlockers(p) == Unlockers(q) + if key in r.1.unlock then {x} else {}
    ensures Covered(Some(r.0), key, s, p, x) && Awaits(Some(r.0), key, s, p, x, noted)
  {}

  lemma CarryCovers(was: Option<Rm>, r: (Rm, RmOut), key: nat, s: Slot, q: seq<Cmd>, x: Xid, noted: bool)
    requires Covered(was, key, s, q, x) && Awaits(was, key, s, q, x, noted)
    requires Carries(was, r) || (Wakes(was, r) && x !in Lockers(q) && !Pending(s, x))
    ensures Covered(Some(r.0), key, s, q, x) && Awaits(Some(r.0), key, s, q, x, noted)
  {}

  lemma {:induction false} PostUnlocksEffect(p: map<Row, seq<Cmd>>, x: Xid, sh: Shard, keys: seq<nat>, row: Row)
    ensures var q, q' := PostedAt(p, row), PostedAt(PostUnlocks(p, x, sh, keys), row);
      && Lockers(q') == Lockers(q)
      && Unlockers(q') == Unlockers(q) + (if row.shard == sh && row.key in keys then {x} else {})
      && (LocksFirst(q) ==> LocksFirst(q'))
  {
    if keys != [] {
      var front, last := keys[..|keys| - 1], keys[|keys| - 1];
      PostUnlocksEffect(p, x, sh, front, row);
      PostedMore(PostedAt(PostUnlocks(p, x, sh, front), row), UnlockCmd(x));
      assert row.key in keys <==> row.key in front || row.key == last;
    }
  }

  /** The commands posted by a handler's result, at one row. */
  function PostedBy(db: Db, x: Xid, sh: Shard, r: (Rm, RmOut)): map<Row, seq<Cmd>> {
    PostUnlocks(PostAsk(db.posted, x, sh, r.1.ask), x, sh, r.1.unlock)
  }

  lemma PostedByOther(db: Db, x: Xid, sh: Shard, r: (Rm, RmOut), row: Row, y: Xid)
    requires row.shard != sh || y != x
    ensures y in Lockers(PostedAt(PostedBy(db, x, sh, r), row)) <==> y in Lockers(PostedAt(db.posted, row))
    ensures y in Unlockers(PostedAt(PostedBy(db, x, sh, r), row)) <==> y in Unlockers(PostedAt(db.posted, row))
  {
    PostUnlocksEffect(PostAsk(db.posted, x, sh, r.1.ask), x, sh, r.1.unlock, row);
    if r.1.ask.Some? {
      PostedMore(PostedAt(db.posted, row), LockCmd(x, r.1.ask.value.mode, r.1.ask.value.oid));
    }
  }

  ghost predicate HandlerMoves(was: Option<Rm>, r: (Rm, RmOut), told: bool) {
    if told then Wakes(was, r) else Asks(was, r) || Releases(was, r) || Carries(was, r)
  }

  /** A handler of `x` at shard `sh` keeps the invariant of `x` at every row of the shard. */
  lemma HandlerKeepsRow(db: Db, x: Xid, sh: Shard, r: (Rm, RmOut), row: Row, told: bool)
    requires RowTx(db, row, x) && LocksFirst(PostedAt(db.posted, row)) && row.shard == sh
    requires HandlerMoves(RmOf(db, x, sh), r, told)
    requires Note(x, sh) in db.notes ==> Awaited(db, Note(x, sh))
    requires told ==> x !in Lockers(PostedAt(db.posted, row)) && !Pending(SlotAt(db.slots, row), x)
    ensures var q, s := PostedAt(PostedBy(db, x, sh, r), row), SlotAt(db.slots, row);
      && Covered(Some(r.0), row.key, s, q, x) && Awaits(Some(r.0), row.key, s, q, x, Note(x, sh) in db.notes)
      && LocksFirst(q)
  {
    var was, s, q := RmOf(db, x, sh), SlotAt(db.slots, row), PostedAt(db.posted, row);
    PostUnlocksEffect(PostAsk(db.posted, x, sh, r.1.ask), x, sh, r.1.unlock, row);
    if Asks(was, r) {
      AskCovers(was, r, row.key, s, q, x, r.1.ask.value.mode, r.1.ask.value.oid);
    } else if Releases(was, r) {
      ReleaseCovers(was, r, row.key, s, q, PostedAt(PostedBy(db, x, sh, r), row), x, Note(x, sh) in db.notes);
    } else {
      CarryCovers(was, r, row.key, s, q, x, Note(x, sh) in db.notes);
    }
  }

  /** The lock side of a step of transaction `x` whose handler ran at `sh` with result `r`. */
  ghost predicate Moved(db: Db, x: Xid, sh: Shard, r: (Rm, RmOut), d: Db) {
    && x in db.txs && d.txs.Keys == db.txs.Keys && d.slots == db.slots && d.notes == db.notes
    && (forall y :: y in db.txs && y != x ==> d.txs[y] == db.txs[y])
    && d.txs[x].rms == db.txs[x].rms[sh := r.0] && d.posted == PostedBy(db, x, sh, r)
  }

  lemma MovedRow(db: Db, x: Xid, sh: Shard, r: (Rm, RmOut), d: Db, row: Row, y: Xid, told: bool)
    requires Moved(db, x, sh, r, d) && RowTx(db, row, y) && RowTx(db, row, x) && LocksFirst(PostedAt(db.posted, row))
    requires HandlerMoves(RmOf(db, x, sh), r, told) && (Note(x, sh) in db.notes ==> Awaited(db, Note(x, sh)))
    requires told && row.shard == sh ==> x !in Lockers(PostedAt(db.posted, row)) && !Pending(SlotAt(db.slots, row), x)
    ensures RowTx(d, row, y) && LocksFirst(PostedAt(d.posted, row))
  {
    if row.shard == sh {
      HandlerKeepsRow(db, x, sh, r, row, told);
    } else {
      PostUnlocksEffect(PostAsk(db.posted, x, sh, r.1.ask), x, sh, r.1.unlock, row);
    }
    if row.shard != sh || y != x {
      PostedByOther(db, x, sh, r, row, y);
      assert RmOf(d, y, row.shard) == RmOf(db, y, row.shard);
    }
  }

  lemma MovedNote(db: Db, x: Xid, sh: Shard, r: (Rm, RmOut), d: Db, n: Note, told: bool)
    requires Moved(db, x, sh, r, d) && HandlerMoves(RmOf(db, x, sh), r, told)
    requires n in db.notes && Awaited(db, n) && (told ==> Note(x, sh) !in db.notes)
    ensures Awaited(d, n)
  {}

  lemma TxStepMoved(db: Db, x: Xid, e: Event)
    requires x in db.txs && Enabled(db.txs[x], e)
    ensures RmPart(db.txs[x], e).Some? ==>
      Moved(db, x, RmPart(db.txs[x], e).value.0, RmPart(db.txs[x], e).value.1, TxStep(db, x, e))
    ensures RmPart(db.txs[x], e).None? ==>
      var d := TxStep(db, x, e);
      d.posted == db.posted && d.txs == db.txs[x := d.txs[x]] && x in d.txs && d.txs[x].rms == db.txs[x].rms
        && d.slots == db.slots && d.notes == db.notes
    ensures TxStep(db, x, e).txs == db.txs[x := Next(db.txs[x], e)]
  {
    RmPartIsNext(db.txs[x], e);
  }

  ghost predicate ToldIsLast(db: Db, x: Xid, sh: Shard) {
    && Note(x, sh) !in db.notes
    && forall row: Row :: row.shard == sh ==>
        x !in Lockers(PostedAt(db.posted, row)) && !Pending(SlotAt(db.slots, row), x)
  }

  lemma MovedKeepsLocks(db: Db, x: Xid, sh: Shard, r: (Rm, RmOut), d: Db, told: bool)
    requires LockInv(db) && Moved(db, x, sh, r, d) && HandlerMoves(RmOf(db, x, sh), r, told) && TxInv(d.txs[x])
    requires told ==> ToldIsLast(db, x, sh)
    ensures LockInv(d)
  {
    forall row, y ensures RowTx(d, row, y) {
      MovedRow(db, x, sh, r, d, row, y, told);
    }
    forall row ensures LocksFirst(PostedAt(d.posted, row)) {
      MovedRow(db, x, sh, r, d, row, x, told);
    }
    forall y | y in d.txs ensures TxInv(d.txs[y]) {}
    forall n | n in d.notes ensures Awaited(d, n) {
      MovedNote(db, x, sh, r, d, n, told);
    }
  }

  lemma UnmovedKeepsLocks(db: Db, x: Xid, d: Db)
    requires LockInv(db) && x in db.txs && x in d.txs && TxInv(d.txs[x])
    requires d.posted == db.posted && d.txs == db.txs[x := d.txs[x]] && d.txs[x].rms == db.txs[x].rms
    requires d.slots == db.slots && d.notes == db.notes
    ensures LockInv(d)
  {
    forall row, y ensures RowTx(d, row, y) {
      assert RowTx(db, row, y) && RmOf(d, y, row.shard) == RmOf(db, y, row.shard);
    }
    forall n | n in d.notes ensures Awaited(d, n) {
      assert Awaited(db, n);
    }
  }

  lemma HandlerOf(t: Tx, e: Event)
    requires TxInv(t) && Enabled(t, e) && RmPart(t, e).Some?
    ensures HandlerMoves(RmAt(t, RmPart(t, e).value.0), RmPart(t, e).value.1, e.LockTold?)
    ensures e.LockTold? ==> RmPart(t, e).value.0 == e.shard
  {
    if e.OpDone? { OneAtATimeAt(t, e.shard); }
    HandlerKinds(t, e);
  }

  lemma TxStepKeepsLocks(db: Db, x: Xid, e: Event)
    requires LockInv(db) && x in db.txs && Enabled(db.txs[x], e) && (e.LockTold? ==> ToldIsLast(db, x, e.shard))
    ensures LockInv(TxStep(db, x, e))
  {
    TxStepMoved(db, x, e);
    NextKeepsInv(db.txs[x], e);
    if RmPart(db.txs[x], e).Some? {
      HandlerOf(db.txs[x], e);
      MovedKeepsLocks(db, x, RmPart(db.txs[x], e).value.0, RmPart(db.txs[x], e).value.1, TxStep(db, x, e), e.LockTold?);
    } else {
      UnmovedKeepsLocks(db, x, TxStep(db, x, e));
    }
  }

  // row steps

  lemma FirstLockGone(q: seq<Cmd>)
    requires q != [] && LocksFirst(q)
    ensures q[0].xid !in Lockers(q[1..]) && LocksFirst(q[1..])
  {
    forall c | c in q[1..] && c.LockCmd? ensures c.xid != q[0].xid {
      var j :| 0 <= j < |q[1..]| && q[1..][j] == c;
      assert q[j + 1] == c;
    }
  }

  lemma LockAtRow(rm: Option<Rm>, key: nat, s: Slot, q: seq<Cmd>, x: Xid, y: Xid, m: Mode, o: Oid, noted: bool)
    requires Covered(rm, key, s, q, y) && Awaits(rm, key, s, q, y, noted)
    requires q != [] && q[0] == LockCmd(x, m, o) && LocksFirst(q)
    ensures y == x ==>
      !Pending(s, x) && !noted && rm.Some? && rm.value.waiting && rm.value.ops != [] && rm.value.ops[0].key == key
    ensures Covered(rm, key, LockStep(s, m, x, o).0, q[1..], y)
    ensures Awaits(rm, key, LockStep(s, m, x, o).0, q[1..], y, noted || (y == x && LockStep(s, m, x, o).1 != []))
  {
    PostedLess(q);
    FirstLockGone(q);
  }

  lemma UnlockAtRow(rm: Option<Rm>, key: nat, s: Slot, q: seq<Cmd>, x: Xid, y: Xid, noted: bool, told: bool)
    requires Covered(rm, key, s, q, y) && Awaits(rm, key, s, q, y, noted) && Inv(s)
    requires q != [] && q[0] == UnlockCmd(x) && LocksFirst(q)
    requires told ==> y != x && Pending(s, y) && Holds(UnlockStep(s, x).0, y)
    ensures Covered(rm, key, UnlockStep(s, x).0, q[1..], y)
    ensures Awaits(rm, key, UnlockStep(s, x).0, q[1..], y, noted || told)
    ensures told ==> !noted && rm.Some? && rm.value.waiting && rm.value.ops != [] && rm.value.ops[0].key == key
  {
    PostedLess(q);
    FirstLockGone(q);
    if y == x { UnlockTakesPrefix(s, x); } else { UnlockOther(s, x, y); }
  }

  /** Who is told by the next command of a row. */
  ghost predicate TellsAt(db: Db, row: Row, y: Xid)
    requires PostedAt(db.posted, row) != []
  {
    Note(y, row.shard) in Notes(row, TurnOf(db, row).1)
  }

  lemma TurnKeepsRow(db: Db, row: Row, y: Xid)
    requires PostedAt(db.posted, row) != [] && RowTx(db, row, y)
    requires Inv(SlotAt(db.slots, row)) && LocksFirst(PostedAt(db.posted, row))
    ensures Covered(RmOf(db, y, row.shard), row.key, TurnOf(db, row).0, PostedAt(db.posted, row)[1..], y)
    ensures Awaits(RmOf(db, y, row.shard), row.key, TurnOf(db, row).0, PostedAt(db.posted, row)[1..], y,
                   Note(y, row.shard) in db.notes || TellsAt(db, row, y))
    ensures TellsAt(db, row, y) ==>
      Awaited(db, Note(y, row.shard)) && Note(y, row.shard) !in db.notes
      && RmOf(db, y, row.shard).value.ops != [] && RmOf(db, y, row.shard).value.ops[0].key == row.key
  {
    var rm, s, q, noted := RmOf(db, y, row.shard), SlotAt(db.slots, row), PostedAt(db.posted, row),
        Note(y, row.shard) in db.notes;
    match q[0]
    case LockCmd(x, m, o) =>
      LockAtRow(rm, row.key, s, q, x, y, m, o, noted);
      assert TellsAt(db, row, y) <==> y == x && LockStep(s, m, x, o).1 != [];
    case UnlockCmd(x) =>
      if TellsAt(db, row, y) {
        var r :| r in UnlockStep(s, x).1 && r.xid == y;
        ToldWasWaiting(s, x, r);
      }
      UnlockAtRow(rm, row.key, s, q, x, y, noted, TellsAt(db, row, y));
  }

  lemma SlotStepRow(db: Db, row: Row, at: Row, y: Xid)
    requires LockInv(db) && PostedAt(db.posted, row) != []
    ensures RowTx(SlotStep(db, row), at, y)
  {
    var d := SlotStep(db, row);
    assert RowTx(db, row, y) && RowTx(db, at, y);
    TurnKeepsRow(db, row, y);
    assert RmOf(d, y, at.shard) == RmOf(db, y, at.shard);
    if at != row && TellsAt(db, row, y) && at.shard == row.shard {
      assert Note(y, row.shard) in d.notes;
    }
  }

  lemma TurnKeepsInv(db: Db, row: Row)
    requires PostedAt(db.posted, row) != [] && Inv(SlotAt(db.slots, row)) && LocksFirst(PostedAt(db.posted, row))
    requires RowTx(db, row, PostedAt(db.posted, row)[0].xid)
    ensures Inv(TurnOf(db, row).0)
  {
    var s, q := SlotAt(db.slots, row), PostedAt(db.posted, row);
    match q[0]
    case LockCmd(x, m, o) =>
      LockAtRow(RmOf(db, x, row.shard), row.key, s, q, x, x, m, o, Note(x, row.shard) in db.notes);
      LockKeepsInv(s, m, x, o);
    case UnlockCmd(x) => UnlockKeepsInv(s, x);
  }

  lemma SlotStepSlots(db: Db, row: Row, at: Row)
    requires PostedAt(db.posted, row) != [] && Inv(SlotAt(db.slots, at)) && LocksFirst(PostedAt(db.posted, at))
    requires LocksFirst(PostedAt(db.posted, row)) && Inv(TurnOf(db, row).0)
    ensures Inv(SlotAt(SlotStep(db, row).slots, at)) && LocksFirst(PostedAt(SlotStep(db, row).posted, at))
  {
    if at == row {
      FirstLockGone(PostedAt(db.posted, row));
      assert SlotAt(SlotStep(db, row).slots, at) == TurnOf(db, row).0;
    } else {
      assert SlotAt(SlotStep(db, row).slots, at) == SlotAt(db.slots, at);
      assert PostedAt(SlotStep(db, row).posted, at) == PostedAt(db.posted, at);
    }
  }

  lemma SlotStepNote(db: Db, row: Row, n: Note)
    requires LockInv(db) && PostedAt(db.posted, row) != [] && n in SlotStep(db, row).notes
    ensures Awaited(SlotStep(db, row), n)
  {
    if n in db.notes {
      assert Awaited(db, n);
    } else {
      assert n in Notes(row, TurnOf(db, row).1);
      assert TellsAt(db, row, n.xid);
      assert RowTx(db, row, n.xid);
      TurnKeepsRow(db, row, n.xid);
    }
  }

  lemma SlotStepKeepsLocks(db: Db, row: Row)
    requires LockInv(db) && PostedAt(db.posted, row) != []
    ensures LockInv(SlotStep(db, row))
  {
    var d := SlotStep(db, row);
    assert RowTx(db, row, PostedAt(db.posted, row)[0].xid);
    TurnKeepsInv(db, row);
    forall at ensures Inv(SlotAt(d.slots, at)) { SlotStepSlots(db, row, at); }
    forall at ensures LocksFirst(PostedAt(d.posted, at)) { SlotStepSlots(db, row, at); }
    forall at, y ensures RowTx(d, at, y) { SlotStepRow(db, row, at, y); }
    forall n | n in d.notes ensures Awaited(d, n) { SlotStepNote(db, row, n); }
  }

  lemma NoteTaken(db: Db, n: Note)
    requires LockInv(db) && n in db.notes
    ensures LockInv(db.(notes := db.notes - {n})) && ToldIsLast(db.(notes := db.notes - {n}), n.xid, n.shard)
  {
    var d := db.(notes := db.notes - {n});
    forall row, y ensures RowTx(d, row, y) { assert RowTx(db, row, y); }
    forall m | m in d.notes ensures Awaited(d, m) { assert Awaited(db, m); }
    forall row: Row | row.shard == n.shard
      ensures n.xid !in Lockers(PostedAt(d.posted, row)) && !Pending(SlotAt(d.slots, row), n.xid)
    {
      assert RowTx(db, row, n.xid);
    }
  }

  lemma NewTxKeepsLocks(db: Db, x: Xid, local: bool, plan: map<Shard, seq<Op>>)
    requires LockInv(db) && x !in db.txs
    ensures LockInv(db.(txs := db.txs[x := InitTx(local, plan)]))
  {
    var d := db.(txs := db.txs[x := InitTx(local, plan)]);
    forall row, y ensures RowTx(d, row, y) {
      assert RowTx(db, row, y) && RmOf(d, y, row.shard) == RmOf(db, y, row.shard);
    }
    forall n | n in d.notes ensures Awaited(d, n) { assert Awaited(db, n); }
  }

  /** Every step keeps the locking invariant; in particular no participant is ever
      notified without the callback it was waiting with. */
  lemma DbNextKeepsLocks(db: Db, a: Act)
    requires LockInv(db) && CanAct(db, a)
    ensures LockInv(DbNext(db, a))
  {
    match a
    case NewTx(x, local, plan) => NewTxKeepsLocks(db, x, local, plan);
    case TxAct(x, e) => TxStepKeepsLocks(db, x, e);
    case SlotAct(row) => SlotStepKeepsLocks(db, row);
    case TellAct(n) =>
      NoteTaken(db, n);
      TxStepKeepsLocks(db.(notes := db.notes - {n}), n.xid, LockTold(n.shard));
  }

  // ------------------------------------------------ what decisions and ends mean

  lemma DecidedIsSettled(t: Tx, sh: Shard)
    requires TxInv(t) && Decided(t) && sh in t.rms
    ensures Settled(t.rms[sh])
  {
    if t.local {
      var s :| s in t.rms && Logged(t, s, Commit);
      assert LocalRmInv(t, sh);
    } else {
      assert ShardInv(t, t.tm.value, sh);
    }
  }

  lemma AbortIsFinal(t: Tx, sh: Shard)
    requires TxInv(t) && Logged(t, sh, Abort)
    ensures !Decided(t)
  {
    if t.local {
      assert LocalRmInv(t, sh);
    } else {
      assert ShardInv(t, t.tm.value, sh);
    }
  }

  lemma EndedHasOutcome(t: Tx, sh: Shard)
    requires TxInv(t) && sh in t.rms && t.rms[sh].state == RmEnded
    ensures Decided(t) || Logged(t, sh, Abort)
  {
    if t.local {
      assert LocalRmInv(t, sh);
    } else {
      assert ShardInv(t, t.tm.value, sh);
    }
  }

  lemma LogStays(t: Tx, e: Event, r: LogRec)
    requires Enabled(t, e) && (r in t.pending || r in t.durable)
    ensures r in Next(t, e).pending || r in Next(t, e).durable
  {}

  lemma AdvanceKeepsCommit(tm: Tm)
    requires tm.wroteCommit
    ensures Advance(tm).0.wroteCommit
  {}

  lemma MessageKeepsCommit(t: Tx, m: Msg)
    requires t.tm.Some? && t.tm.value.wroteCommit
    ensures OnMessage(t, m).tm.Some? && OnMessage(t, m).tm.value.wroteCommit
  {
    ToRm(t, m);
    ToTm(t, m);
    if m.RmPrepare? && TmListens(t, m.shard) {
      PrepareKeepsCommit(t.tm.value, m.shard, m.commit);
    } else if m.RmAck? && TmListens(t, m.shard) {
      AckKeepsCommit(t.tm.value, m.shard, m.commit);
    }
  }

  lemma PrepareKeepsCommit(tm: Tm, sh: Shard, commit: bool)
    requires tm.wroteCommit && sh in tm.tracer
    ensures TmOnPrepare(tm, sh, commit).0.wroteCommit
  {
    AdvanceKeepsCommit(tm.(tracer := tm.tracer[sh := if commit then TPrepareCommit else TPrepareAbort]));
  }

  lemma AckKeepsCommit(tm: Tm, sh: Shard, commit: bool)
    requires tm.wroteCommit && sh in tm.tracer
    ensures TmOnAck(tm, sh, commit).0.wroteCommit
  {
    AdvanceKeepsCommit(tm.(tracer := tm.tracer[sh := if commit then TCommitted else TAborted]));
    AdvanceKeepsCommit(tm);
  }

  lemma LogKeepsCommit(t: Tx, r: LogRec, reached: set<Shard>)
    requires t.tm.Some? && t.tm.value.wroteCommit
    ensures OnLog(t, r, reached).tm.Some? && OnLog(t, r, reached).tm.value.wroteCommit
  {
    var u, tm := Sync(t, r), t.tm.value;
    if r.RmLog? || tm.state == TmDone || r.kind == PrepareCommit || r.kind == PrepareAbort {
      assert OnLog(t, r, reached).tm == t.tm;
    } else {
      var out := match r.kind
        case Begin => TmOnBegin(tm, reached)
        case Commit => TmOnCommitted(tm)
        case Abort => TmOnAborted(tm)
        case End => TmOnEnded(tm);
      assert OnLog(t, r, reached) == TmMoves(u, out);
    }
  }

  lemma TmCommitStays(t: Tx, e: Event)
    requires Enabled(t, e) && !t.local && t.tm.Some? && t.tm.value.wroteCommit
    ensures Next(t, e).tm.Some? && Next(t, e).tm.value.wroteCommit
  {
    if e.Deliver? {
      MessageKeepsCommit(t, e.msg);
    } else if e.LogDone? {
      LogKeepsCommit(t, e.rec, e.reached);
    } else if e.TmHit? {
      assert Next(t, e) == TmMoves(t, TmOnVictim(t.tm.value, e.ec));
    } else {
      assert Next(t, e).tm == t.tm;
    }
  }

  lemma OutcomesStay(t: Tx, e: Event, sh: Shard)
    requires Enabled(t, e)
    ensures Decided(t) ==> Decided(Next(t, e))
    ensures Logged(t, sh, Abort) ==> Logged(Next(t, e), sh, Abort)
  {
    NextSameTx(t, e);
    if Logged(t, sh, Abort) { LogStays(t, e, RmLog(sh, Abort)); }
    if Decided(t) {
      if t.local {
        var s :| s in t.rms && Logged(t, s, Commit);
        LogStays(t, e, RmLog(s, Commit));
        RmPartIsNext(t, e);
        assert s in Next(t, e).rms;
      } else {
        TmCommitStays(t, e);
      }
    }
  }

  // ------------------------------------------------ history invariant

  /** A grant lasts until a release by the same transaction of the same row. */
  ghost predicate GrantLasts(h: seq<Mark>, slots: map<Row, Slot>, i: nat)
    requires i < |h| && h[i].Granted?
  {
    || (Holds(SlotAt(slots, h[i].row), h[i].xid) && SlotAt(slots, h[i].row).info[h[i].xid].mode == h[i].mode)
    || exists k :: i < k < |h| && h[k] == Released(h[i].xid, h[i].row)
  }

  ghost predicate GrantsLast(h: seq<Mark>, slots: map<Row, Slot>) {
    forall i :: 0 <= i < |h| && h[i].Granted? ==> GrantLasts(h, slots, i)
  }

  predicate Clash(a: Mark, b: Mark) {
    a.Granted? && b.Granted? && a.row == b.row && a.xid != b.xid && Conflict(a.mode, b.mode)
  }

  /** Between two conflicting grants the first transaction has released the row. */
  ghost predicate ClashesSeparated(h: seq<Mark>) {
    forall i, j :: 0 <= i < j < |h| && Clash(h[i], h[j]) ==>
      exists k :: i < k < j && h[k] == Released(h[i].xid, h[i].row)
  }

  ghost predicate DecidedIn(h: seq<Mark>, x: Xid, n: nat)
    requires n <= |h|
  {
    exists d :: 0 <= d < n && h[d] == DecidedMark(x)
  }

  /** Whoever released a row had been decided before, or has aborted. */
  ghost predicate ReleasesFinal(h: seq<Mark>, txs: map<Xid, Tx>) {
    forall k :: 0 <= k < |h| && h[k].Released? ==>
      h[k].xid in txs && (DecidedIn(h, h[k].xid, k) || Logged(txs[h[k].xid], h[k].row.shard, Abort))
  }

  /** No grant after the decision. */
  ghost predicate GrantsBefore(h: seq<Mark>) {
    forall d, j :: 0 <= d < j < |h| && h[d].DecidedMark? && h[j].Granted? ==> h[d].xid != h[j].xid
  }

  ghost predicate DecisionsMarked(h: seq<Mark>, txs: map<Xid, Tx>) {
    && (forall d :: 0 <= d < |h| && h[d].DecidedMark? ==> h[d].xid in txs && Decided(txs[h[d].xid]))
    && (forall x :: x in txs && Decided(txs[x]) ==> DecidedIn(h, x, |h|))
    && (forall d, e :: 0 <= d < e < |h| && h[d].DecidedMark? && h[e].DecidedMark? ==> h[d].xid != h[e].xid)
  }

  ghost predicate HistInv(h: seq<Mark>, txs: map<Xid, Tx>, slots: map<Row, Slot>) {
    GrantsLast(h, slots) && ClashesSeparated(h) && ReleasesFinal(h, txs) && GrantsBefore(h) && DecisionsMarked(h, txs)
  }

  lemma MarkDecided(h: seq<Mark>, x: Xid, m: Mark, n: nat)
    requires n <= |h|
    ensures DecidedIn(h, x, n) ==> DecidedIn(h + [m], x, n)
    ensures DecidedIn(h + [m], x, |h| + 1) <==> DecidedIn(h, x, |h|) || m == DecidedMark(x)
  {
    if DecidedIn(h, x, n) { var d :| 0 <= d < n && h[d] == DecidedMark(x); assert (h + [m])[d] == DecidedMark(x); }
    if DecidedIn(h, x, |h|) { var d :| 0 <= d < |h| && h[d] == DecidedMark(x); assert (h + [m])[d] == DecidedMark(x); }
    if DecidedIn(h + [m], x, |h| + 1) {
      var d :| 0 <= d < |h| + 1 && (h + [m])[d] == DecidedMark(x);
      if d < |h| { assert h[d] == DecidedMark(x); }
    }
    if m == DecidedMark(x) { assert (h + [m])[|h|] == m; }
  }

  lemma GrantKeepsLasting(h: seq<Mark>, slots: map<Row, Slot>, m: Mark)
    requires GrantsLast(h, slots)
    requires m.Granted? ==> Holds(SlotAt(slots, m.row), m.xid) && SlotAt(slots, m.row).info[m.xid].mode == m.mode
    ensures GrantsLast(h + [m], slots)
  {
    var g := h + [m];
    forall i | 0 <= i < |g| && g[i].Granted? ensures GrantLasts(g, slots, i) {
      if i < |h| {
        assert GrantLasts(h, slots, i);
        if exists k :: i < k < |h| && h[k] == Released(h[i].xid, h[i].row) {
          var k :| i < k < |h| && h[k] == Released(h[i].xid, h[i].row);
          assert g[k] == Released(g[i].xid, g[i].row);
        }
      }
    }
  }

  lemma GrantKeepsSeparated(h: seq<Mark>, slots: map<Row, Slot>, m: Mark)
    requires GrantsLast(h, slots) && ClashesSeparated(h)
    requires m.Granted? ==>
      && Holds(SlotAt(slots, m.row), m.xid) && SlotAt(slots, m.row).info[m.xid].mode == m.mode
      && Inv(SlotAt(slots, m.row))
    ensures ClashesSeparated(h + [m])
  {
    var g := h + [m];
    forall i, j | 0 <= i < j < |g| && Clash(g[i], g[j])
      ensures exists k :: i < k < j && g[k] == Released(g[i].xid, g[i].row)
    {
      if j < |h| {
        var k :| i < k < j && h[k] == Released(h[i].xid, h[i].row);
        assert g[k] == Released(g[i].xid, g[i].row);
      } else {
        var s := SlotAt(slots, m.row);
        assert GrantLasts(h, slots, i);
        if Holds(s, h[i].xid) { NotBoth(s, h[i].xid, m.xid); }
        var k :| i < k < |h| && h[k] == Released(h[i].xid, h[i].row);
        assert g[k] == Released(g[i].xid, g[i].row);
      }
    }
  }

  lemma NotBoth(s: Slot, x: Xid, y: Xid)
    requires Inv(s) && x != y && Holds(s, x) && Holds(s, y)
    ensures !Conflict(s.info[x].mode, s.info[y].mode)
  {
    assert s.info[x].mode == Write ==> x in s.writers;
    assert s.info[y].mode == Write ==> y in s.writers;
    assert s.info[x].mode == Read ==> x in s.readers;
    assert s.info[y].mode == Read ==> y in s.readers;
  }

  /** A release recorded after the decision, or by a transaction that has aborted there. */
  lemma MarkKeepsReleases(h: seq<Mark>, txs: map<Xid, Tx>, m: Mark)
    requires ReleasesFinal(h, txs)
    requires m.Released? ==> m.xid in txs && (DecidedIn(h, m.xid, |h|) || Logged(txs[m.xid], m.row.shard, Abort))
    ensures ReleasesFinal(h + [m], txs)
  {
    var g := h + [m];
    forall k | 0 <= k < |g| && g[k].Released?
      ensures g[k].xid in txs && (DecidedIn(g, g[k].xid, k) || Logged(txs[g[k].xid], g[k].row.shard, Abort))
    {
      MarkDecided(h, g[k].xid, m, k);
    }
  }

  lemma MarkKeepsDecisions(h: seq<Mark>, txs: map<Xid, Tx>, m: Mark)
    requires DecisionsMarked(h, txs) && !m.DecidedMark?
    ensures DecisionsMarked(h + [m], txs)
  {
    forall x | x in txs && Decided(txs[x]) ensures DecidedIn(h + [m], x, |h| + 1) {
      MarkDecided(h, x, m, |h|);
    }
  }

  /** A lock mark that the state of the rows and transactions accounts for. */
  ghost predicate Justified(h: seq<Mark>, txs: map<Xid, Tx>, slots: map<Row, Slot>, m: Mark) {
    match m
    case Granted(x, row, mode, _) =>
      && x in txs && !Decided(txs[x]) && Inv(SlotAt(slots, row))
      && Holds(SlotAt(slots, row), x) && SlotAt(slots, row).info[x].mode == mode
    case Released(x, row) => x in txs && (Decided(txs[x]) || Logged(txs[x], row.shard, Abort))
    case DecidedMark(x) => false
  }

  lemma MarkKeepsHist(h: seq<Mark>, txs: map<Xid, Tx>, slots: map<Row, Slot>, m: Mark)
    requires HistInv(h, txs, slots) && Justified(h, txs, slots, m)
    ensures HistInv(h + [m], txs, slots)
  {
    GrantKeepsLasting(h, slots, m);
    GrantKeepsSeparated(h, slots, m);
    MarkKeepsReleases(h, txs, m);
    MarkKeepsDecisions(h, txs, m);
  }

  lemma {:induction false} MarksKeepHist(h: seq<Mark>, txs: map<Xid, Tx>, slots: map<Row, Slot>, ms: seq<Mark>)
    requires HistInv(h, txs, slots) && forall i :: 0 <= i < |ms| ==> Justified(h, txs, slots, ms[i])
    ensures HistInv(h + ms, txs, slots)
  {
    if ms == [] {
      assert h + ms == h;
    } else {
      var front := ms[..|ms| - 1];
      MarksKeepHist(h, txs, slots, front);
      MarkKeepsHist(h + front, txs, slots, ms[|ms| - 1]);
      assert h + ms == h + front + [ms[|ms| - 1]];
    }
  }

  /** The holders of every row keep their modes, except one whose release is recorded. */
  ghost predicate HoldersStay(h: seq<Mark>, slots: map<Row, Slot>, later: map<Row, Slot>) {
    forall row: Row, x: Xid :: Holds(SlotAt(slots, row), x) ==>
      || (Holds(SlotAt(later, row), x) && SlotAt(later, row).info[x].mode == SlotAt(slots, row).info[x].mode)
      || (h != [] && h[|h| - 1] == Released(x, row))
  }

  lemma RowsKeepHist(h: seq<Mark>, txs: map<Xid, Tx>, slots: map<Row, Slot>, later: map<Row, Slot>)
    requires HistInv(h, txs, slots) && HoldersStay(h, slots, later)
    ensures HistInv(h, txs, later)
  {
    forall i | 0 <= i < |h| && h[i].Granted? ensures GrantLasts(h, later, i) {
      assert GrantLasts(h, slots, i);
      if h[|h| - 1] == Released(h[i].xid, h[i].row) { assert i < |h| - 1; }
    }
  }

  // row steps

  lemma TurnKeepsHolder(db: Db, row: Row, y: Xid)
    requires PostedAt(db.posted, row) != [] && Inv(SlotAt(db.slots, row)) && Holds(SlotAt(db.slots, row), y)
    ensures PostedAt(db.posted, row)[0] != UnlockCmd(y) ==>
      Holds(TurnOf(db, row).0, y) && TurnOf(db, row).0.info[y].mode == SlotAt(db.slots, row).info[y].mode
  {
    var s := SlotAt(db.slots, row);
    match PostedAt(db.posted, row)[0]
    case LockCmd(x, m, o) =>
    case UnlockCmd(x) => if x != y { UnlockOther(s, x, y); }
  }

  lemma TurnTells(db: Db, row: Row, r: Request)
    requires LockInv(db) && PostedAt(db.posted, row) != [] && r in TurnOf(db, row).1
    ensures Holds(TurnOf(db, row).0, r.xid)
    ensures r.xid in db.txs && !Decided(db.txs[r.xid])
  {
    assert TellsAt(db, row, r.xid);
    assert RowTx(db, row, r.xid);
    TurnKeepsRow(db, row, r.xid);
    if Decided(db.txs[r.xid]) { DecidedIsSettled(db.txs[r.xid], row.shard); }
    match PostedAt(db.posted, row)[0]
    case LockCmd(x, m, o) =>
    case UnlockCmd(x) => ToldWasWaiting(SlotAt(db.slots, row), x, r);
  }

  lemma UnlockHasOutcome(db: Db, row: Row)
    requires LockInv(db) && PostedAt(db.posted, row) != [] && PostedAt(db.posted, row)[0].UnlockCmd?
    ensures var x := PostedAt(db.posted, row)[0].xid;
      x in db.txs && (Decided(db.txs[x]) || Logged(db.txs[x], row.shard, Abort))
  {
    var x := PostedAt(db.posted, row)[0].xid;
    assert x in Unlockers(PostedAt(db.posted, row));
    assert RowTx(db, row, x);
    EndedHasOutcome(db.txs[x], row.shard);
  }

  /** The release recorded when the first command of a row is an unlock. */
  function ReleaseMark(db: Db, row: Row): seq<Mark>
    requires PostedAt(db.posted, row) != []
  {
    if PostedAt(db.posted, row)[0].UnlockCmd? then [Released(PostedAt(db.posted, row)[0].xid, row)] else []
  }

  lemma ReleaseKeepsHist(db: Db, row: Row)
    requires LockInv(db) && HistInv(db.hist, db.txs, db.slots) && PostedAt(db.posted, row) != []
    ensures HistInv(db.hist + ReleaseMark(db, row), db.txs, db.slots)
  {
    if PostedAt(db.posted, row)[0].UnlockCmd? { UnlockHasOutcome(db, row); }
    MarksKeepHist(db.hist, db.txs, db.slots, ReleaseMark(db, row));
  }

  lemma TurnHoldersStay(db: Db, row: Row, h: seq<Mark>)
    requires PostedAt(db.posted, row) != [] && Inv(SlotAt(db.slots, row)) && h == db.hist + ReleaseMark(db, row)
    ensures HoldersStay(h, db.slots, db.slots[row := TurnOf(db, row).0])
  {
    var later := db.slots[row := TurnOf(db, row).0];
    forall at: Row, y: Xid | Holds(SlotAt(db.slots, at), y)
      ensures (Holds(SlotAt(later, at), y) && SlotAt(later, at).info[y].mode == SlotAt(db.slots, at).info[y].mode)
        || (h != [] && h[|h| - 1] == Released(y, at))
    {
      if at == row { TurnKeepsHolder(db, row, y); }
    }
  }

  lemma SlotStepKeepsHist(db: Db, row: Row)
    requires LockInv(db) && HistInv(db.hist, db.txs, db.slots) && PostedAt(db.posted, row) != []
    ensures HistInv(SlotStep(db, row).hist, db.txs, SlotStep(db, row).slots)
  {
    var h, later := db.hist + ReleaseMark(db, row), SlotStep(db, row).slots;
    ReleaseKeepsHist(db, row);
    TurnHoldersStay(db, row, h);
    RowsKeepHist(h, db.txs, db.slots, later);
    GrantsJustified(db, row, h);
    MarksKeepHist(h, db.txs, later, GrantMarks(row, TurnOf(db, row).0, TurnOf(db, row).1, PostedAt(db.posted, row)[0]));
  }

  lemma GrantsJustified(db: Db, row: Row, h: seq<Mark>)
    requires LockInv(db) && PostedAt(db.posted, row) != []
    ensures var ms := GrantMarks(row, TurnOf(db, row).0, TurnOf(db, row).1, PostedAt(db.posted, row)[0]);
      forall i :: 0 <= i < |ms| ==> Justified(h, db.txs, SlotStep(db, row).slots, ms[i])
  {
    var u, told, later := TurnOf(db, row).0, TurnOf(db, row).1, SlotStep(db, row).slots;
    var ms := GrantMarks(row, u, told, PostedAt(db.posted, row)[0]);
    assert RowTx(db, row, PostedAt(db.posted, row)[0].xid);
    TurnKeepsInv(db, row);
    assert SlotAt(later, row) == u;
    forall i | 0 <= i < |ms| ensures Justified(h, db.txs, later, ms[i]) {
      TurnTells(db, row, told[i]);
    }
  }

  // transaction steps

  lemma TxKeepsHist(h: seq<Mark>, txs: map<Xid, Tx>, slots: map<Row, Slot>, x: Xid, u: Tx)
    requires HistInv(h, txs, slots)
    requires x in txs ==>
      (Decided(txs[x]) <==> Decided(u)) && forall sh :: Logged(txs[x], sh, Abort) ==> Logged(u, sh, Abort)
    requires x !in txs ==> !Decided(u)
    ensures HistInv(h, txs[x := u], slots)
  {
    var later := txs[x := u];
    forall y | y in later && Decided(later[y]) ensures DecidedIn(h, y, |h|) {
      assert y in txs && Decided(txs[y]);
    }
  }

  lemma DecisionKeepsHist(h: seq<Mark>, txs: map<Xid, Tx>, slots: map<Row, Slot>, x: Xid, u: Tx)
    requires HistInv(h, txs, slots) && x in txs && !Decided(txs[x]) && Decided(u)
    requires forall sh :: Logged(txs[x], sh, Abort) ==> Logged(u, sh, Abort)
    ensures HistInv(h + [DecidedMark(x)], txs[x := u], slots)
  {
    var g, later := h + [DecidedMark(x)], txs[x := u];
    GrantKeepsLasting(h, slots, DecidedMark(x));
    GrantKeepsSeparated(h, slots, DecidedMark(x));
    MarkKeepsReleases(h, txs, DecidedMark(x));
    forall y | y in later && Decided(later[y]) ensures DecidedIn(g, y, |g|) {
      if y != x { assert y in txs && Decided(txs[y]); }
      MarkDecided(h, y, DecidedMark(x), |h|);
    }
  }

  lemma TxStepKeepsHist(db: Db, x: Xid, e: Event)
    requires HistInv(db.hist, db.txs, db.slots) && x in db.txs && Enabled(db.txs[x], e)
    ensures HistInv(TxStep(db, x, e).hist, TxStep(db, x, e).txs, db.slots)
  {
    var t, u := db.txs[x], Next(db.txs[x], e);
    forall sh ensures Logged(t, sh, Abort) ==> Logged(u, sh, Abort) { OutcomesStay(t, e, sh); }
    OutcomesStay(t, e, 0);
    TxStepMoved(db, x, e);
    if Decided(u) && !Decided(t) {
      DecisionKeepsHist(db.hist, db.txs, db.slots, x, u);
    } else {
      TxKeepsHist(db.hist, db.txs, db.slots, x, u);
    }
  }

  // ------------------------------------------------ whole runs

  ghost predicate DbInv(db: Db) {
    LockInv(db) && HistInv(db.hist, db.txs, db.slots)
  }

  lemma DbNextKeepsInv(db: Db, a: Act)
    requires DbInv(db) && CanAct(db, a)
    ensures DbInv(DbNext(db, a))
  {
    DbNextKeepsLocks(db, a);
    match a
    case NewTx(x, local, plan) => TxKeepsHist(db.hist, db.txs, db.slots, x, InitTx(local, plan));
    case TxAct(x, e) => TxStepKeepsHist(db, x, e); TxStepMoved(db, x, e);
    case SlotAct(row) => SlotStepKeepsHist(db, row);
    case TellAct(n) =>
      var d := db.(notes := db.notes - {n});
      assert Awaited(db, n);
      TxStepKeepsHist(d, n.xid, LockTold(n.shard));
      TxStepMoved(d, n.xid, LockTold(n.shard));
  }

  ghost predicate CanRun(acts: seq<Act>)
    decreases |acts|, 0
  {
    acts != [] ==> CanRun(acts[..|acts| - 1]) && CanAct(Reached(acts[..|acts| - 1]), acts[|acts| - 1])
  }

  /** The database after the steps `acts`, from the empty one. */
  ghost function Reached(acts: seq<Act>): Db
    requires CanRun(acts)
    decreases |acts|, 1
  {
    if acts == [] then EmptyDb else DbNext(Reached(acts[..|acts| - 1]), acts[|acts| - 1])
  }

  lemma {:induction false} EveryRunIsSound(acts: seq<Act>)
    requires CanRun(acts)
    ensures DbInv(Reached(acts))
  {
    if acts != [] {
      EveryRunIsSound(acts[..|acts| - 1]);
      DbNextKeepsInv(Reached(acts[..|acts| - 1]), acts[|acts| - 1]);
    }
  }

  lemma ReleasedAfterDeciding(h: seq<Mark>, txs: map<Xid, Tx>, c: nat, k: nat)
    requires ReleasesFinal(h, txs) && DecisionsMarked(h, txs) && c < |h| && k < |h|
    requires h[k].Released? && h[c] == DecidedMark(h[k].xid) && TxInv(txs[h[k].xid])
    ensures c < k
  {
    if Logged(txs[h[k].xid], h[k].row.shard, Abort) { AbortIsFinal(txs[h[k].xid], h[k].row.shard); }
    assert DecidedIn(h, h[k].xid, k);
  }

  lemma GrantedBeforeDeciding(h: seq<Mark>, i: nat, c: nat)
    requires GrantsBefore(h) && i < |h| && h[i].Granted? && c < |h| && h[c] == DecidedMark(h[i].xid)
    ensures i < c
  {}

  /** Of two conflicting grants of a row, the transaction granted first decides first,
      and before the other one is granted the row. */
  lemma ConflictsDecideInOrder(acts: seq<Act>, i: nat, j: nat, c: nat, d: nat)
    requires CanRun(acts)
    requires var h := Reached(acts).hist;
      && i < j < |h| && Clash(h[i], h[j])
      && c < |h| && h[c] == DecidedMark(h[i].xid) && d < |h| && h[d] == DecidedMark(h[j].xid)
    ensures i < c < j < d
  {
    var db := Reached(acts);
    var h := db.hist;
    EveryRunIsSound(acts);
    assert ClashesSeparated(h);
    var k :| i < k < j && h[k] == Released(h[i].xid, h[i].row);
    ReleasedAfterDeciding(h, db.txs, c, k);
    GrantedBeforeDeciding(h, i, c);
    GrantedBeforeDeciding(h, j, d);
  }

  /** `x` was granted a row before `y` was, in conflicting modes, and both committed. */
  ghost predicate Precedes(h: seq<Mark>, x: Xid, y: Xid) {
    && DecidedMark(x) in h && DecidedMark(y) in h
    && exists i, j :: 0 <= i < j < |h| && Clash(h[i], h[j]) && h[i].xid == x && h[j].xid == y
  }

  ghost predicate Path(h: seq<Mark>, p: seq<Xid>) {
    forall k :: 0 <= k < |p| - 1 ==> Precedes(h, p[k], p[k + 1])
  }

  lemma {:induction false} PathsDecideInOrder(acts: seq<Act>, p: seq<Xid>, c: nat, d: nat)
    requires CanRun(acts) && |p| >= 2 && Path(Reached(acts).hist, p)
    requires c < |Reached(acts).hist| && Reached(acts).hist[c] == DecidedMark(p[0])
    requires d < |Reached(acts).hist| && Reached(acts).hist[d] == DecidedMark(p[|p| - 1])
    ensures c < d
  {
    var h := Reached(acts).hist;
    assert Precedes(h, p[0], p[1]);
    var i, j :| 0 <= i < j < |h| && Clash(h[i], h[j]) && h[i].xid == p[0] && h[j].xid == p[1];
    var e :| 0 <= e < |h| && h[e] == DecidedMark(p[1]);
    ConflictsDecideInOrder(acts, i, j, c, e);
    if |p| == 2 {
      EveryRunIsSound(acts);
      assert e == d;
    } else {
      assert Path(h, p[1..]) by {
        forall k | 0 <= k < |p[1..]| - 1 ensures Precedes(h, p[1..][k], p[1..][k + 1]) {
          assert Precedes(h, p[k + 1], p[k + 2]);
        }
      }
      PathsDecideInOrder(acts, p[1..], e, d);
    }
  }

  /** Conflict serializability: the committed transactions of every run have an acyclic precedence graph. */
  lemma NoPrecedenceCycle(acts: seq<Act>, p: seq<Xid>)
    requires CanRun(acts) && |p| >= 2 && p[0] == p[|p| - 1]
    ensures !Path(Reached(acts).hist, p)
  {
    var h := Reached(acts).hist;
    if Path(h, p) {
      assert Precedes(h, p[0], p[1]);
      var c :| 0 <= c < |h| && h[c] == DecidedMark(p[0]);
      PathsDecideInOrder(acts, p, c, c);
      assert false;
    }
  }
}
