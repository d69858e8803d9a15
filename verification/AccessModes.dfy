/** Locks are held in the mode last asked for, as long as no transaction reads a row
    first and asks to write it later: then the serial order covers every access. */
module AccessModes {
  import opened Base
  import opened LockSlots
  import opened TwoPhaseCommit
  import opened CommitProtocol
  import opened Serializability

  /** The first operation on some row, at `i`, reads it, and the one at `j` writes it. */
  predicate UpgradesAt(ops: seq<Op>, i: int, j: int) {
    && 0 <= i < j < |ops| && ops[i].key == ops[j].key && ops[i].mode == Read && ops[j].mode == Write
    && forall h :: 0 <= h < i ==> ops[h].key != ops[i].key
  }

  ghost predicate NoUpgrade(ops: seq<Op>) {
    forall i, j :: !UpgradesAt(ops, i, j)
  }

  /** There is no upgrade of row `key`. */
  ghost predicate KeyOk(ops: seq<Op>, key: nat) {
    forall i, j :: UpgradesAt(ops, i, j) ==> ops[i].key != key
  }

  ghost predicate OnlyReads(ops: seq<Op>, key: nat) {
    forall i :: 0 <= i < |ops| && ops[i].key == key ==> ops[i].mode == Read
  }

  /** The operation under way is on row `key`. */
  predicate Busy(rm: Rm, key: nat) {
    rm.state != RmEnded && (rm.waiting || rm.working) && rm.ops != [] && rm.ops[0].key == key
  }

  /** Transaction `x` at a row: a posted lock request is for its next operation; what it holds
      or waits for to read is not written later; what it has not asked for is not upgraded
      later; and the row of the operation under way is asked for. */
  ghost predicate ModeOk(rm: Option<Rm>, key: nat, s: Slot, q: seq<Cmd>, x: Xid) {
    && (forall c :: c in q && c.LockCmd? && c.xid == x ==>
          rm.Some? && rm.value.ops != [] && rm.value.ops[0] == Op(key, c.mode))
    && (x in s.info && s.info[x].mode == Read && rm.Some? ==> OnlyReads(rm.value.ops, key))
    && (rm.Some? && x !in s.info && (rm.value.state != RmEnded || x in Lockers(q)) ==> KeyOk(rm.value.ops, key))
    && (rm.Some? && Busy(rm.value, key) ==> x in s.info || x in Lockers(q))
  }

  ghost predicate RowModes(db: Db, row: Row, x: Xid) {
    ModeOk(RmOf(db, x, row.shard), row.key, SlotAt(db.slots, row), PostedAt(db.posted, row), x)
  }

  ghost predicate PlanOk(t: Tx) {
    forall sh :: sh in t.plan ==> NoUpgrade(t.plan[sh])
  }

  /** Whoever was granted a row to write holds it for writing. */
  ghost predicate MarksOk(h: seq<Mark>) {
    forall i :: 0 <= i < |h| && h[i].Granted? && h[i].asked == Write ==> h[i].mode == Write
  }

  ghost predicate ModeInv(db: Db) {
    && (forall row, x :: RowModes(db, row, x))
    && (forall x :: x in db.txs ==> PlanOk(db.txs[x]))
    && MarksOk(db.hist)
  }

  // ---------------------------------------------------------------- participants

  lemma {:induction false} RestOk(ops: seq<Op>, key: nat)
    requires ops != [] && KeyOk(ops, key) && ops[0].key != key
    ensures KeyOk(ops[1..], key)
  {
    var rest := ops[1..];
    forall i, j | UpgradesAt(rest, i, j) ensures rest[i].key != key {
      if rest[i].key == key {
        forall h | 0 <= h < i + 1 ensures ops[h].key != ops[i + 1].key {
          if h > 0 { assert ops[h] == rest[h - 1]; }
        }
        assert UpgradesAt(ops, i + 1, j + 1);
      }
    }
  }

  lemma FirstDecides(ops: seq<Op>, key: nat)
    requires ops != [] && KeyOk(ops, key) && ops[0] == Op(key, Read)
    ensures OnlyReads(ops, key)
  {
    forall j | 0 <= j < |ops| && ops[j].key == key ensures ops[j].mode == Read {
      assert !UpgradesAt(ops, 0, j);
    }
  }

  /** A handler keeps the operations, finishes the first one, or starts with the plan. */
  ghost predicate OpsStep(t: Tx, sh: Shard, was: Option<Rm>, r: (Rm, RmOut), told: bool) {
    if was.None? then sh in t.plan && r.0.ops == t.plan[sh] && !r.0.working
    else
      var w := was.value;
      || (r.0.ops == w.ops && (r.0.working ==> w.working || told) && (told ==> w.waiting))
      || (w.ops != [] && w.working && !w.waiting && r.0.ops == w.ops[1..] && !r.0.working)
  }

  lemma NextOpKeeps(rm: Rm)
    ensures NextOperation(rm).0.ops == rm.ops && NextOperation(rm).0.working == rm.working
  {}

  lemma HandlerOps(t: Tx, e: Event)
    requires Enabled(t, e) && RmPart(t, e).Some? && (e.OpDone? ==> OneAtATime(t.rms[e.shard]))
    requires e.AcceptLocal? ==> RmAt(t, e.home).None?
    ensures OpsStep(t, RmPart(t, e).value.0, RmAt(t, RmPart(t, e).value.0), RmPart(t, e).value.1, e.LockTold?)
  {
    if e.OpDone? {
      NextOpKeeps(t.rms[e.shard].(working := false, ops := t.rms[e.shard].ops[1..], error := e.ec));
    }
  }

  lemma {:induction false} PostedLocks(p: map<Row, seq<Cmd>>, x: Xid, sh: Shard, keys: seq<nat>, row: Row, c: Cmd)
    requires c in PostedAt(PostUnlocks(p, x, sh, keys), row) && c.LockCmd?
    ensures c in PostedAt(p, row)
  {
    if keys != [] {
      var front := keys[..|keys| - 1];
      assert c in PostedAt(PostUnlocks(p, x, sh, front), row);
      PostedLocks(p, x, sh, front, row, c);
    }
  }

  lemma HandlerLocks(db: Db, x: Xid, sh: Shard, r: (Rm, RmOut), row: Row, c: Cmd)
    requires c in PostedAt(PostedBy(db, x, sh, r), row) && c.LockCmd?
    ensures c in PostedAt(db.posted, row) ||
      (r.1.ask.Some? && row == Row(sh, r.1.ask.value.key) && c == LockCmd(x, r.1.ask.value.mode, r.1.ask.value.oid))
  {
    PostedLocks(PostAsk(db.posted, x, sh, r.1.ask), x, sh, r.1.unlock, row, c);
  }

  /** The operations left of a participant that goes on, and what it has not asked for. */
  lemma StepOk(was: Rm, now: Rm, key: nat, s: Slot, q: seq<Cmd>, x: Xid, t: Tx, sh: Shard, out: RmOut, told: bool)
    requires ModeOk(Some(was), key, s, q, x) && OpsStep(t, sh, Some(was), (now, out), told)
    requires (was.state == RmEnded ==> now.state == RmEnded) && x !in s.info
    requires x in Lockers(q) ==> was.waiting
    requires now.state != RmEnded || x in Lockers(q)
    ensures KeyOk(now.ops, key)
  {
    if now.ops != was.ops { RestOk(was.ops, key); }
  }

  /** The transaction whose handler ran, at a row of the shard. */
  lemma HandlerModes(db: Db, x: Xid, sh: Shard, r: (Rm, RmOut), row: Row, told: bool)
    requires RowModes(db, row, x) && RowTx(db, row, x) && row.shard == sh && x in db.txs && PlanOk(db.txs[x])
    requires HandlerMoves(RmOf(db, x, sh), r, told) && OpsStep(db.txs[x], sh, RmOf(db, x, sh), r, told)
    requires told ==> x !in Lockers(PostedAt(db.posted, row))
    ensures ModeOk(Some(r.0), row.key, SlotAt(db.slots, row), PostedAt(PostedBy(db, x, sh, r), row), x)
  {
    var was, q, s := RmOf(db, x, sh), PostedAt(db.posted, row), SlotAt(db.slots, row);
    var p := PostedAt(PostedBy(db, x, sh, r), row);
    forall c | c in p && c.LockCmd? && c.xid == x ensures r.0.ops != [] && r.0.ops[0] == Op(row.key, c.mode) {
      HandlerLocks(db, x, sh, r, row, c);
      if c in q { assert x in Lockers(q); }
    }
    HandlerLockers(db, x, sh, r, row);
    if x !in s.info && (r.0.state != RmEnded || x in Lockers(p)) && was.Some? {
      StepOk(was.value, r.0, row.key, s, q, x, db.txs[x], sh, r.1, told);
    }
  }

  lemma HandlerLockers(db: Db, x: Xid, sh: Shard, r: (Rm, RmOut), row: Row)
    requires row.shard == sh
    ensures Lockers(PostedAt(PostedBy(db, x, sh, r), row)) ==
      Lockers(PostedAt(db.posted, row)) + if r.1.ask.Some? && r.1.ask.value.key == row.key then {x} else {}
  {
    PostUnlocksEffect(PostAsk(db.posted, x, sh, r.1.ask), x, sh, r.1.unlock, row);
    if r.1.ask.Some? {
      PostedMore(PostedAt(db.posted, row), LockCmd(x, r.1.ask.value.mode, r.1.ask.value.oid));
    }
  }

  lemma MovedModes(db: Db, x: Xid, sh: Shard, r: (Rm, RmOut), d: Db, row: Row, y: Xid, told: bool)
    requires Moved(db, x, sh, r, d) && RowModes(db, row, y) && RowModes(db, row, x) && RowTx(db, row, x)
    requires HandlerMoves(RmOf(db, x, sh), r, told) && OpsStep(db.txs[x], sh, RmOf(db, x, sh), r, told)
    requires PlanOk(db.txs[x])
    requires told && row.shard == sh ==> x !in Lockers(PostedAt(db.posted, row))
    ensures RowModes(d, row, y)
  {
    if row.shard == sh && y == x {
      HandlerModes(db, x, sh, r, row, told);
    } else {
      assert RmOf(d, y, row.shard) == RmOf(db, y, row.shard);
      PostedByOther(db, x, sh, r, row, y);
      forall c | c in PostedAt(d.posted, row) && c.LockCmd? && c.xid == y ensures c in PostedAt(db.posted, row) {
        HandlerLocks(db, x, sh, r, row, c);
      }
    }
  }

  lemma StartHasNoRm(t: Tx, e: Event)
    requires Enabled(t, e) && e.AcceptLocal?
    ensures RmAt(t, e.home).None?
  {}

  lemma PartOps(t: Tx, e: Event)
    requires TxInv(t) && Enabled(t, e) && RmPart(t, e).Some?
    ensures OpsStep(t, RmPart(t, e).value.0, RmAt(t, RmPart(t, e).value.0), RmPart(t, e).value.1, e.LockTold?)
  {
    if e.OpDone? { OneAtATimeAt(t, e.shard); }
    if e.AcceptLocal? { StartHasNoRm(t, e); }
    HandlerOps(t, e);
  }

  lemma TxStepRow(db: Db, x: Xid, e: Event, row: Row, y: Xid)
    requires LockInv(db) && ModeInv(db) && x in db.txs && Enabled(db.txs[x], e)
    requires (e.LockTold? ==> ToldIsLast(db, x, e.shard))
    ensures RowModes(TxStep(db, x, e), row, y)
  {
    TxStepMoved(db, x, e);
    assert RowModes(db, row, y) && RowModes(db, row, x) && RowTx(db, row, x);
    if RmPart(db.txs[x], e).Some? {
      HandlerOf(db.txs[x], e);
      PartOps(db.txs[x], e);
      MovedModes(db, x, RmPart(db.txs[x], e).value.0, RmPart(db.txs[x], e).value.1, TxStep(db, x, e), row, y,
          e.LockTold?);
    } else {
      assert RmOf(TxStep(db, x, e), y, row.shard) == RmOf(db, y, row.shard);
    }
  }

  lemma TxStepModes(db: Db, x: Xid, e: Event)
    requires LockInv(db) && ModeInv(db) && x in db.txs && Enabled(db.txs[x], e)
    requires (e.LockTold? ==> ToldIsLast(db, x, e.shard))
    ensures ModeInv(TxStep(db, x, e))
  {
    forall row, y ensures RowModes(TxStep(db, x, e), row, y) { TxStepRow(db, x, e, row, y); }
    PlansStay(db, x, e);
  }

  lemma PlansStay(db: Db, x: Xid, e: Event)
    requires (forall y :: y in db.txs ==> PlanOk(db.txs[y])) && MarksOk(db.hist) && x in db.txs && TxInv(db.txs[x])
    requires Enabled(db.txs[x], e)
    ensures var d := TxStep(db, x, e); (forall y :: y in d.txs ==> PlanOk(d.txs[y])) && MarksOk(d.hist)
  {
    NextSameTx(db.txs[x], e);
    assert TxStep(db, x, e).txs == db.txs[x := Next(db.txs[x], e)];
  }

  // ---------------------------------------------------------------- rows

  lemma LessPosted(q: seq<Cmd>, x: Xid)
    requires q != []
    ensures (forall c :: c in q[1..] ==> c in q) && (x in Lockers(q[1..]) ==> x in Lockers(q))
    ensures x in Lockers(q) && x !in Lockers(q[1..]) ==> q[0].LockCmd? && q[0].xid == x
  {
    PostedLess(q);
  }

  /** The lock request of `x` for its next operation: what it then holds for reading it only reads. */
  lemma LockModes(rm: Option<Rm>, key: nat, s: Slot, q: seq<Cmd>, y: Xid, x: Xid, m: Mode, o: Oid)
    requires ModeOk(rm, key, s, q, y) && q != [] && q[0] == LockCmd(x, m, o)
    ensures ModeOk(rm, key, LockStep(s, m, x, o).0, q[1..], y)
    ensures y == x && m == Write && LockStep(s, m, x, o).1 != [] ==> HeldMode(LockStep(s, m, x, o).0, x) == Write
  {
    LessPosted(q, y);
    assert q[0] in q;
    if y == x && x !in s.info {
      assert x in Lockers(q);
      if m == Read { FirstDecides(rm.value.ops, key); }
    }
  }

  lemma UnlockModes(rm: Option<Rm>, key: nat, s: Slot, q: seq<Cmd>, y: Xid, x: Xid)
    requires ModeOk(rm, key, s, q, y) && q != [] && q[0] == UnlockCmd(x) && Inv(s)
    requires Covered(rm, key, s, q, y) && LocksFirst(q)
    ensures ModeOk(rm, key, UnlockStep(s, x).0, q[1..], y)
  {
    LessPosted(q, y);
    if y == x {
      UnlockTakesPrefix(s, x);
      assert q[0] in q;
      assert x in Unlockers(q);
      assert x !in Lockers(q[1..]);
    } else {
      UnlockOther(s, x, y);
    }
  }

  lemma TurnModes(db: Db, row: Row, y: Xid)
    requires LockInv(db) && ModeInv(db) && PostedAt(db.posted, row) != []
    ensures ModeOk(RmOf(db, y, row.shard), row.key, TurnOf(db, row).0, PostedAt(db.posted, row)[1..], y)
  {
    var s, q, rm := SlotAt(db.slots, row), PostedAt(db.posted, row), RmOf(db, y, row.shard);
    assert RowModes(db, row, y) && RowTx(db, row, y);
    match q[0]
    case LockCmd(x, m, o) => LockModes(rm, row.key, s, q, y, x, m, o);
    case UnlockCmd(x) => UnlockModes(rm, row.key, s, q, y, x);
  }

  lemma SlotStepModeRow(db: Db, row: Row, at: Row, y: Xid)
    requires LockInv(db) && ModeInv(db) && PostedAt(db.posted, row) != []
    ensures RowModes(SlotStep(db, row), at, y)
  {
    assert RowModes(db, at, y);
    assert RmOf(SlotStep(db, row), y, at.shard) == RmOf(db, y, at.shard);
    if at == row { TurnModes(db, row, y); }
  }

  lemma GrantsHeld(db: Db, row: Row)
    requires LockInv(db) && ModeInv(db) && PostedAt(db.posted, row) != []
    ensures MarksOk(GrantMarks(row, TurnOf(db, row).0, TurnOf(db, row).1, PostedAt(db.posted, row)[0]))
  {
    var q, s := PostedAt(db.posted, row), SlotAt(db.slots, row);
    if q[0].LockCmd? {
      assert RowModes(db, row, q[0].xid);
      LockModes(RmOf(db, q[0].xid, row.shard), row.key, s, q, q[0].xid, q[0].xid, q[0].mode, q[0].oid);
      LockMarks(row, s, q[0]);
    }
  }

  lemma LockMarks(row: Row, s: Slot, c: Cmd)
    requires c.LockCmd?
    requires var r := LockStep(s, c.mode, c.xid, c.oid); r.1 != [] && c.mode == Write ==> HeldMode(r.0, c.xid) == Write
    ensures var r := LockStep(s, c.mode, c.xid, c.oid); MarksOk(GrantMarks(row, r.0, r.1, c))
  {
    var r := LockStep(s, c.mode, c.xid, c.oid);
    assert r.1 == [] || r.1 == [Request(c.xid, c.oid)];
  }

  lemma MarksJoin(a: seq<Mark>, b: seq<Mark>, c: seq<Mark>)
    requires MarksOk(a) && MarksOk(c) && forall i :: 0 <= i < |b| ==> !b[i].Granted?
    ensures MarksOk(a + b + c)
  {}

  lemma SlotStepModes(db: Db, row: Row)
    requires LockInv(db) && ModeInv(db) && PostedAt(db.posted, row) != []
    ensures ModeInv(SlotStep(db, row))
  {
    forall at, y ensures RowModes(SlotStep(db, row), at, y) { SlotStepModeRow(db, row, at, y); }
    GrantsHeld(db, row);
    MarksJoin(db.hist, ReleaseMark(db, row),
        GrantMarks(row, TurnOf(db, row).0, TurnOf(db, row).1, PostedAt(db.posted, row)[0]));
  }

  // ---------------------------------------------------------------- whole runs

  /** Every transaction of the run is submitted with a plan that upgrades no lock. */
  ghost predicate NoUpgrades(acts: seq<Act>) {
    forall i, sh :: 0 <= i < |acts| && acts[i].NewTx? && sh in acts[i].plan ==> NoUpgrade(acts[i].plan[sh])
  }

  lemma NewTxModes(db: Db, x: Xid, local: bool, plan: map<Shard, seq<Op>>)
    requires ModeInv(db) && x !in db.txs && forall sh :: sh in plan ==> NoUpgrade(plan[sh])
    ensures ModeInv(db.(txs := db.txs[x := InitTx(local, plan)]))
  {
    var d := db.(txs := db.txs[x := InitTx(local, plan)]);
    forall row, y ensures RowModes(d, row, y) {
      assert RowModes(db, row, y) && RmOf(d, y, row.shard) == RmOf(db, y, row.shard);
    }
  }

  lemma TellModes(db: Db, d: Db, n: Note)
    requires Awaited(db, n) && n in db.notes && d == db.(notes := db.notes - {n})
    requires LockInv(d) && ModeInv(d) && ToldIsLast(d, n.xid, n.shard)
    ensures ModeInv(DbNext(db, TellAct(n)))
  {
    assert DbNext(db, TellAct(n)) == TxStep(d, n.xid, LockTold(n.shard));
    TxStepModes(d, n.xid, LockTold(n.shard));
  }

  lemma NoteReady(db: Db, n: Note)
    requires LockInv(db) && n in db.notes
    ensures Awaited(db, n)
  {}

  lemma NoteModes(db: Db, n: Note)
    requires ModeInv(db)
    ensures ModeInv(db.(notes := db.notes - {n}))
  {
    var d := db.(notes := db.notes - {n});
    forall row, y ensures RowModes(d, row, y) {
      assert RowModes(db, row, y) && RmOf(d, y, row.shard) == RmOf(db, y, row.shard);
    }
  }

  lemma {:induction false} EveryRunKeepsModes(acts: seq<Act>)
    requires CanRun(acts) && NoUpgrades(acts)
    ensures ModeInv(Reached(acts))
  {
    if acts != [] {
      var front, a := acts[..|acts| - 1], acts[|acts| - 1];
      EveryRunKeepsModes(front);
      EveryRunIsSound(front);
      var db := Reached(front);
      match a
      case NewTx(x, local, plan) => NewTxModes(db, x, local, plan);
      case TxAct(x, e) => TxStepModes(db, x, e);
      case SlotAct(row) => SlotStepModes(db, row);
      case TellAct(n) =>
        NoteReady(db, n);
        NoteTaken(db, n);
        NoteModes(db, n);
        TellModes(db, db.(notes := db.notes - {n}), n);
    }
  }

  /** Two accesses to the same row by different transactions, at least one of them a write. */
  predicate AccessClash(a: Mark, b: Mark) {
    a.Granted? && b.Granted? && a.row == b.row && a.xid != b.xid && Conflict(a.asked, b.asked)
  }

  /** Without upgrades, conflicting accesses conflict as locks too: so of two committed
      transactions that access a row in conflict, the first to be granted it decides first. */
  lemma AccessesDecideInOrder(acts: seq<Act>, i: nat, j: nat, c: nat, d: nat)
    requires CanRun(acts) && NoUpgrades(acts)
    requires var h := Reached(acts).hist;
      && i < j < |h| && AccessClash(h[i], h[j])
      && c < |h| && h[c] == DecidedMark(h[i].xid) && d < |h| && h[d] == DecidedMark(h[j].xid)
    ensures i < c < j < d
  {
    EveryRunKeepsModes(acts);
    ConflictsDecideInOrder(acts, i, j, c, d);
  }

  /** `x` accessed a row before `y`, in conflict, and both committed. */
  ghost predicate AccessPrecedes(h: seq<Mark>, x: Xid, y: Xid) {
    && DecidedMark(x) in h && DecidedMark(y) in h
    && exists i, j :: 0 <= i < j < |h| && AccessClash(h[i], h[j]) && h[i].xid == x && h[j].xid == y
  }

  lemma AccessIsLock(h: seq<Mark>, x: Xid, y: Xid)
    requires MarksOk(h) && AccessPrecedes(h, x, y)
    ensures Precedes(h, x, y)
  {
    var i, j :| 0 <= i < j < |h| && AccessClash(h[i], h[j]) && h[i].xid == x && h[j].xid == y;
    assert Clash(h[i], h[j]);
  }

  /** Without upgrades the accesses of the committed transactions have an acyclic precedence graph. */
  lemma NoAccessCycle(acts: seq<Act>, p: seq<Xid>)
    requires CanRun(acts) && NoUpgrades(acts) && |p| >= 2 && p[0] == p[|p| - 1]
    ensures exists k :: 0 <= k < |p| - 1 && !AccessPrecedes(Reached(acts).hist, p[k], p[k + 1])
  {
    var h := Reached(acts).hist;
    EveryRunKeepsModes(acts);
    NoPrecedenceCycle(acts, p);
    var k :| 0 <= k < |p| - 1 && !Precedes(h, p[k], p[k + 1]);
    if AccessPrecedes(h, p[k], p[k + 1]) { AccessIsLock(h, p[k], p[k + 1]); }
  }
}
