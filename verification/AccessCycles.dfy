/** Reading a row first and writing it later is not serializable, whatever else the
    transaction does: another transaction that reads the row twice meets it halfway. */
module AccessCycles {
  import opened Base
  import opened LockSlots
  import opened TwoPhaseCommit
  import opened CommitProtocol
  import opened Serializability
  import opened AccessModes

  // ---------------------------------------------------------------- runs of two transactions

  ghost predicate Ends(acts: seq<Act>, db: Db, news: set<Act>) {
    CanRun(acts) && Reached(acts) == db && forall i :: 0 <= i < |acts| && acts[i].NewTx? ==> acts[i] in news
  }

  /** Some run, which submits only `news`, ends with `db`. */
  ghost predicate Possible(db: Db, news: set<Act>) { exists acts :: Ends(acts, db, news) }

  lemma Take(db: Db, a: Act, d: Db, news: set<Act>)
    requires Possible(db, news) && CanAct(db, a) && d == DbNext(db, a) && (a.NewTx? ==> a in news)
    ensures Possible(d, news)
  {
    var acts :| Ends(acts, db, news);
    var more := acts + [a];
    assert more[..|more| - 1] == acts;
    forall i | 0 <= i < |more| && more[i].NewTx? ensures more[i] in news {
      if i < |acts| { assert more[i] == acts[i]; }
    }
    assert Ends(more, d, news);
  }

  /** A transaction without a coordinator, on one shard. */
  function LocalTx(plan: map<Shard, seq<Op>>, sh: Shard, rm: Rm, log: set<LogRec>): Tx {
    Tx(true, plan, None, map[sh := rm], multiset{}, log, {}, [])
  }

  /** A participant at work on `ops`, with `oid - 1` lock requests behind it. */
  predicate Works(rm: Rm, ops: seq<Op>, waiting: bool) {
    && rm.state == RmIdle && !rm.distributed && rm.ops == ops && ops != [] && rm.error == Ok && !rm.responded
    && rm.waiting == waiting && rm.working == !waiting
  }

  // ---------------------------------------------------------------- single steps

  /** The first lock request of a transaction is posted. */
  lemma AcceptStep(db: Db, x: Xid, sh: Shard, ops: seq<Op>, news: set<Act>) returns (d: Db, rm: Rm)
    requires Possible(db, news) && x in db.txs && db.txs[x] == InitTx(true, map[sh := ops]) && ops != []
    ensures Possible(d, news) && Works(rm, ops, true) && rm.oid > 0
    ensures d == db.(txs := db.txs[x := LocalTx(map[sh := ops], sh, rm, {})],
                     posted := Post(db.posted, Row(sh, ops[0].key), LockCmd(x, ops[0].mode, rm.oid - 1)))
  {
    var t := db.txs[x];
    rm := RmStart(ops, false).0;
    d := DbNext(db, TxAct(x, AcceptLocal(sh)));
    assert Next(t, AcceptLocal(sh)) == LocalTx(map[sh := ops], sh, rm, {});
    assert !Decided(Next(t, AcceptLocal(sh)));
    Take(db, TxAct(x, AcceptLocal(sh)), d, news);
  }

  /** A row grants the request posted to it. */
  lemma GrantStep(db: Db, row: Row, x: Xid, m: Mode, o: Oid, news: set<Act>) returns (d: Db)
    requires Possible(db, news) && PostedAt(db.posted, row) == [LockCmd(x, m, o)]
    requires Holds(SlotAt(db.slots, row), x) || Free(SlotAt(db.slots, row), m)
    ensures Possible(d, news)
    ensures var u := LockStep(SlotAt(db.slots, row), m, x, o).0;
      d == db.(slots := db.slots[row := u], posted := db.posted[row := []], notes := db.notes + {Note(x, row.shard)},
               hist := db.hist + [Granted(x, row, HeldMode(u, x), m)])
  {
    d := SlotStep(db, row);
    var r := LockStep(SlotAt(db.slots, row), m, x, o);
    assert r.1 == [Request(x, o)];
    assert Notes(row, r.1) == {Note(x, row.shard)};
    assert GrantMarks(row, r.0, r.1, LockCmd(x, m, o)) == [Granted(x, row, HeldMode(r.0, x), m)];
    assert [LockCmd(x, m, o)][1..] == [];
    assert db.hist + [] == db.hist;
    Take(db, SlotAct(row), d, news);
  }

  /** The grant is told. */
  lemma TellStep(db: Db, x: Xid, sh: Shard, ops: seq<Op>, plan: map<Shard, seq<Op>>, rm: Rm, news: set<Act>)
    returns (d: Db)
    requires Possible(db, news) && db.notes == {Note(x, sh)} && Works(rm, ops, true)
    requires x in db.txs && db.txs[x] == LocalTx(plan, sh, rm, {})
    ensures Possible(d, news)
    ensures d == db.(notes := {}, txs := db.txs[x := LocalTx(plan, sh, rm.(waiting := false, working := true), {})])
  {
    var n, t := Note(x, sh), db.txs[x];
    assert db.notes - {n} == {};
    assert Next(t, LockTold(sh)) == LocalTx(plan, sh, rm.(waiting := false, working := true), {});
    assert !Decided(Next(t, LockTold(sh)));
    d := DbNext(db, TellAct(n));
    Take(db, TellAct(n), d, news);
  }

  /** An operation is done, and the lock for the next one is asked for. */
  lemma OnStep(db: Db, x: Xid, sh: Shard, ops: seq<Op>, plan: map<Shard, seq<Op>>, rm: Rm, news: set<Act>)
    returns (d: Db, on: Rm)
    requires Possible(db, news) && Works(rm, ops, false) && |ops| > 1 && rm.oid > 0
    requires x in db.txs && db.txs[x] == LocalTx(plan, sh, rm, {})
    ensures Possible(d, news) && Works(on, ops[1..], true) && on.oid > 0
    ensures d == db.(txs := db.txs[x := LocalTx(plan, sh, on, {})],
                     posted := Post(db.posted, Row(sh, ops[1].key), LockCmd(x, ops[1].mode, on.oid - 1)))
  {
    var t, e := db.txs[x], OpDone(sh, Ok);
    on := RmOnOpDone(rm, Ok).0;
    assert Next(t, e) == LocalTx(plan, sh, on, {});
    assert !Decided(Next(t, e));
    d := DbNext(db, TxAct(x, e));
    Take(db, TxAct(x, e), d, news);
  }

  /** The last operation is done: the transaction decides to commit. */
  lemma DecideStep(db: Db, x: Xid, sh: Shard, ops: seq<Op>, plan: map<Shard, seq<Op>>, rm: Rm, news: set<Act>)
    returns (d: Db)
    requires Possible(db, news) && Works(rm, ops, false) && |ops| == 1
    requires x in db.txs && db.txs[x] == LocalTx(plan, sh, rm, {})
    ensures Possible(d, news) && x in d.txs
    ensures d == db.(txs := db.txs[x := d.txs[x]], hist := db.hist + [DecidedMark(x)])
  {
    var t, e := db.txs[x], OpDone(sh, Ok);
    var on := RmOnOpDone(rm, Ok).0;
    assert Next(t, e) == LocalTx(plan, sh, on, {RmLog(sh, Commit)});
    assert Logged(Next(t, e), sh, Commit);
    assert Decided(Next(t, e)) && !Decided(t);
    d := DbNext(db, TxAct(x, e));
    Take(db, TxAct(x, e), d, news);
  }

  // ---------------------------------------------------------------- the upgrading transaction

  /** The plan of transaction 1, the place of the first access to `key` and of the write. */
  datatype Case = Case(sh: Shard, ops: seq<Op>, i: int, j: int) {
    predicate Valid() { UpgradesAt(ops, i, j) }

    function Shared(): Row
      requires Valid()
    {
      Row(sh, ops[i].key)
    }

    function At(n: nat): Row
      requires n < |ops|
    {
      Row(sh, ops[n].key)
    }
  }

  /** Only transaction 1 holds a row, except that transaction 2 reads the shared one too, and
      nobody holds that for writing. */
  predicate Calm(s: Slot, shared: bool) {
    && (1 in s.info ==> s.info[1].acquired) && s.writers <= {1} && s.readers <= {1, 2}
    && (1 !in s.info ==> s.writers == {} && 1 !in s.readers) && (2 in s.readers ==> shared)
    && (shared ==> s.writers == {} && Holds(s, 2))
  }

  lemma CalmStays(s: Slot, shared: bool, m: Mode, o: Oid)
    requires Calm(s, shared) && (shared && 1 !in s.info ==> m == Read)
    ensures Holds(s, 1) || Free(s, m)
    ensures Calm(LockStep(s, m, 1, o).0, shared) && 1 in LockStep(s, m, 1, o).0.info
  {
    if 1 !in s.info && !shared { assert s.readers == {}; }
  }

  ghost predicate SlotsCalm(slots: map<Row, Slot>, c: Case)
    requires c.Valid()
  {
    forall row :: Calm(SlotAt(slots, row), row == c.Shared())
  }

  /** The grants of the shared row so far: transaction 2 has read it first, and transaction 1
      has written it, if `wrote`. */
  predicate Story(h: seq<Mark>, row: Row, wrote: bool) {
    && h != [] && h[0] == Granted(2, row, Read, Read)
    && (wrote ==> exists m :: 0 < m < |h| && Wrote(h[m], row))
  }

  predicate Wrote(a: Mark, row: Row) { a.Granted? && a.xid == 1 && a.row == row && a.asked == Write }

  lemma StoryGoesOn(h: seq<Mark>, row: Row, wrote: bool, a: Mark)
    requires Story(h, row, wrote)
    ensures Story(h + [a], row, wrote) && (Wrote(a, row) ==> Story(h + [a], row, true))
  {
    if wrote {
      var m :| 0 < m < |h| && Wrote(h[m], row);
      assert Wrote((h + [a])[m], row);
    }
    if Wrote(a, row) { assert Wrote((h + [a])[|h|], row); }
  }

  /** Transaction 1 has done `n` operations and asked for the lock of the next. */
  ghost predicate Asked(db: Db, c: Case, n: nat, rm: Rm, two: Tx)
    requires c.Valid() && n < |c.ops|
  {
    && db.txs == map[1 := LocalTx(map[c.sh := c.ops], c.sh, rm, {}), 2 := two] && Works(rm, c.ops[n..], true)
    && rm.oid > 0
    && db.notes == {} && PostedAt(db.posted, c.At(n)) == [LockCmd(1, c.ops[n].mode, rm.oid - 1)]
    && (forall row :: row != c.At(n) ==> PostedAt(db.posted, row) == [])
    && SlotsCalm(db.slots, c) && (n > c.i ==> 1 in SlotAt(db.slots, c.Shared()).info)
    && Story(db.hist, c.Shared(), n > c.j)
  }

  /** Transaction 1 has the lock for operation `n` and works on it. */
  ghost predicate Got(db: Db, c: Case, n: nat, rm: Rm, two: Tx)
    requires c.Valid() && n < |c.ops|
  {
    && db.txs == map[1 := LocalTx(map[c.sh := c.ops], c.sh, rm, {}), 2 := two] && Works(rm, c.ops[n..], false)
    && rm.oid > 0
    && db.notes == {} && (forall row :: PostedAt(db.posted, row) == [])
    && SlotsCalm(db.slots, c) && (n >= c.i ==> 1 in SlotAt(db.slots, c.Shared()).info)
    && Story(db.hist, c.Shared(), n >= c.j)
  }

  lemma ReadsFirst(c: Case, n: nat)
    requires c.Valid() && n < |c.ops| && c.At(n) == c.Shared() && n <= c.i
    ensures c.ops[n].mode == Read
  {}

  /** What the grant of operation `n` does to the rows. */
  lemma GrantedRows(slots: map<Row, Slot>, more: map<Row, Slot>, c: Case, n: nat, o: Oid)
    requires c.Valid() && n < |c.ops| && SlotsCalm(slots, c) && (n > c.i ==> 1 in SlotAt(slots, c.Shared()).info)
    requires more == slots[c.At(n) := LockStep(SlotAt(slots, c.At(n)), c.ops[n].mode, 1, o).0]
    ensures Holds(SlotAt(slots, c.At(n)), 1) || Free(SlotAt(slots, c.At(n)), c.ops[n].mode)
    ensures SlotsCalm(more, c) && (n >= c.i ==> 1 in SlotAt(more, c.Shared()).info)
  {
    var s := SlotAt(slots, c.At(n));
    assert Calm(s, c.At(n) == c.Shared());
    if c.At(n) == c.Shared() && n <= c.i { ReadsFirst(c, n); }
    CalmStays(s, c.At(n) == c.Shared(), c.ops[n].mode, o);
    forall row ensures Calm(SlotAt(more, row), row == c.Shared()) {
      assert Calm(SlotAt(slots, row), row == c.Shared());
    }
  }

  lemma NonePosted(posted: map<Row, seq<Cmd>>, at: Row, less: map<Row, seq<Cmd>>)
    requires (forall row :: row != at ==> PostedAt(posted, row) == []) && less == posted[at := []]
    ensures forall row :: PostedAt(less, row) == []
  {
    forall row ensures PostedAt(less, row) == [] { assert row != at ==> PostedAt(posted, row) == []; }
  }

  lemma OnePosted(posted: map<Row, seq<Cmd>>, at: Row, cmd: Cmd, more: map<Row, seq<Cmd>>)
    requires (forall row :: PostedAt(posted, row) == []) && more == Post(posted, at, cmd)
    ensures PostedAt(more, at) == [cmd]
    ensures forall row :: row != at ==> PostedAt(more, row) == []
  {
    assert PostedAt(posted, at) == [] && [] + [cmd] == [cmd];
    forall row | row != at ensures PostedAt(more, row) == [] { assert PostedAt(posted, row) == []; }
  }

  lemma Get(db: Db, c: Case, n: nat, rm: Rm, two: Tx, news: set<Act>) returns (d: Db, on: Rm)
    requires Possible(db, news) && c.Valid() && n < |c.ops| && Asked(db, c, n, rm, two)
    ensures Possible(d, news) && Got(d, c, n, on, two)
  {
    var u := LockStep(SlotAt(db.slots, c.At(n)), c.ops[n].mode, 1, rm.oid - 1).0;
    GrantedRows(db.slots, db.slots[c.At(n) := u], c, n, rm.oid - 1);
    var g := GrantStep(db, c.At(n), 1, c.ops[n].mode, rm.oid - 1, news);
    assert g.notes == {Note(1, c.sh)};
    d := TellStep(g, 1, c.sh, c.ops[n..], map[c.sh := c.ops], rm, news);
    on := rm.(waiting := false, working := true);
    GotIs(db, c, n, rm, two, u, d, on);
  }

  lemma GotIs(db: Db, c: Case, n: nat, rm: Rm, two: Tx, u: Slot, d: Db, on: Rm)
    requires c.Valid() && n < |c.ops| && Asked(db, c, n, rm, two) && on == rm.(waiting := false, working := true)
    requires SlotsCalm(db.slots[c.At(n) := u], c) && (n >= c.i ==> 1 in SlotAt(db.slots[c.At(n) := u], c.Shared()).info)
    requires d == Db(db.txs[1 := LocalTx(map[c.sh := c.ops], c.sh, on, {})],
                     db.slots[c.At(n) := u], db.posted[c.At(n) := []], {},
                     db.hist + [Granted(1, c.At(n), HeldMode(u, 1), c.ops[n].mode)])
    ensures Got(d, c, n, on, two)
  {
    NonePosted(db.posted, c.At(n), d.posted);
    StoryGoesOn(db.hist, c.Shared(), n > c.j, Granted(1, c.At(n), HeldMode(u, 1), c.ops[n].mode));
    assert d.txs == map[1 := LocalTx(map[c.sh := c.ops], c.sh, on, {}), 2 := two];
  }

  lemma GoOn(db: Db, c: Case, n: nat, rm: Rm, two: Tx, news: set<Act>) returns (d: Db, on: Rm)
    requires Possible(db, news) && c.Valid() && n + 1 < |c.ops| && Got(db, c, n, rm, two)
    ensures Possible(d, news) && Asked(d, c, n + 1, on, two)
  {
    d, on := OnStep(db, 1, c.sh, c.ops[n..], map[c.sh := c.ops], rm, news);
    assert c.ops[n..][1..] == c.ops[n + 1..] && c.ops[n..][1] == c.ops[n + 1];
    AskedIs(db, c, n, rm, two, d, on);
  }

  lemma AskedIs(db: Db, c: Case, n: nat, rm: Rm, two: Tx, d: Db, on: Rm)
    requires c.Valid() && n + 1 < |c.ops| && Got(db, c, n, rm, two) && Works(on, c.ops[n + 1..], true) && on.oid > 0
    requires d == db.(txs := db.txs[1 := LocalTx(map[c.sh := c.ops], c.sh, on, {})],
                      posted := Post(db.posted, c.At(n + 1), LockCmd(1, c.ops[n + 1].mode, on.oid - 1)))
    ensures Asked(d, c, n + 1, on, two)
  {
    OnePosted(db.posted, c.At(n + 1), LockCmd(1, c.ops[n + 1].mode, on.oid - 1), d.posted);
    assert d.txs == map[1 := LocalTx(map[c.sh := c.ops], c.sh, on, {}), 2 := two];
  }

  /** Transaction 1 does the rest of its operations. */
  lemma {:induction false} DoAll(db: Db, c: Case, n: nat, rm: Rm, two: Tx, news: set<Act>) returns (d: Db, on: Rm)
    requires Possible(db, news) && c.Valid() && n < |c.ops| && Asked(db, c, n, rm, two)
    ensures Possible(d, news) && Got(d, c, |c.ops| - 1, on, two)
    decreases |c.ops| - n
  {
    d, on := Get(db, c, n, rm, two, news);
    if n + 1 < |c.ops| {
      d, on := GoOn(d, c, n, on, two, news);
      d, on := DoAll(d, c, n + 1, on, two, news);
    }
  }

  // ---------------------------------------------------------------- the reading transaction

  function TwoReads(c: Case): seq<Op>
    requires c.Valid()
  {
    [Op(c.Shared().key, Read), Op(c.Shared().key, Read)]
  }

  /** The two transactions submitted. */
  function News(c: Case): set<Act>
    requires c.Valid()
  {
    {NewTx(1, true, map[c.sh := c.ops]), NewTx(2, true, map[c.sh := TwoReads(c)])}
  }

  lemma Submitted(c: Case) returns (db: Db)
    requires c.Valid()
    ensures Possible(db, News(c))
    ensures db == EmptyDb.(
      txs := map[1 := InitTx(true, map[c.sh := c.ops]), 2 := InitTx(true, map[c.sh := TwoReads(c)])])
  {
    assert Ends([], EmptyDb, News(c));
    var d := DbNext(EmptyDb, NewTx(1, true, map[c.sh := c.ops]));
    Take(EmptyDb, NewTx(1, true, map[c.sh := c.ops]), d, News(c));
    db := DbNext(d, NewTx(2, true, map[c.sh := TwoReads(c)]));
    Take(d, NewTx(2, true, map[c.sh := TwoReads(c)]), db, News(c));
    assert db.txs == map[1 := InitTx(true, map[c.sh := c.ops]), 2 := InitTx(true, map[c.sh := TwoReads(c)])];
  }

  /** The shared row after the first read. */
  predicate ReadOnce(s: Slot) {
    s.readers == {2} && s.writers == {} && s.info.Keys == {2} && s.info[2].acquired
  }

  /** Transaction 2 asks for the shared row. */
  lemma ReadAsked(c: Case) returns (db: Db, rm: Rm)
    requires c.Valid()
    ensures Possible(db, News(c)) && Works(rm, TwoReads(c), true) && rm.oid > 0
    ensures db == EmptyDb.(
      txs := map[1 := InitTx(true, map[c.sh := c.ops]), 2 := LocalTx(map[c.sh := TwoReads(c)], c.sh, rm, {})],
      posted := map[c.Shared() := [LockCmd(2, Read, rm.oid - 1)]])
  {
    var d := Submitted(c);
    db, rm := AcceptStep(d, 2, c.sh, TwoReads(c), News(c));
    assert [] + [LockCmd(2, Read, rm.oid - 1)] == [LockCmd(2, Read, rm.oid - 1)];
    assert db.posted == map[c.Shared() := [LockCmd(2, Read, rm.oid - 1)]];
    assert db.txs == map[1 := InitTx(true, map[c.sh := c.ops]), 2 := LocalTx(map[c.sh := TwoReads(c)], c.sh, rm, {})];
  }

  /** Transaction 2 reads the shared row. */
  lemma FirstRead(c: Case) returns (db: Db, rm: Rm, s: Slot)
    requires c.Valid()
    ensures Possible(db, News(c)) && Works(rm, TwoReads(c), false) && rm.oid > 0 && ReadOnce(s)
    ensures db.txs == map[1 := InitTx(true, map[c.sh := c.ops]), 2 := LocalTx(map[c.sh := TwoReads(c)], c.sh, rm, {})]
    ensures db.slots == map[c.Shared() := s] && db.posted == map[c.Shared() := []] && db.notes == {}
    ensures db.hist == [Granted(2, c.Shared(), Read, Read)]
  {
    var d;
    d, rm := ReadAsked(c);
    s := LockStep(EmptySlot, Read, 2, rm.oid - 1).0;
    assert {} + {2} == {2};
    d := GrantStep(d, c.Shared(), 2, Read, rm.oid - 1, News(c));
    assert d.notes == {Note(2, c.sh)} && d.slots == map[c.Shared() := s];
    assert [] + [Granted(2, c.Shared(), Read, Read)] == [Granted(2, c.Shared(), Read, Read)];
    db := TellStep(d, 2, c.sh, TwoReads(c), map[c.sh := TwoReads(c)], rm, News(c));
    rm := rm.(waiting := false, working := true);
  }

  lemma StartAsked(c: Case, db: Db, two: Tx, s: Slot, d: Db, rm: Rm)
    requires c.Valid() && ReadOnce(s) && Works(rm, c.ops, true) && rm.oid > 0
    requires db.slots == map[c.Shared() := s] && db.posted == map[c.Shared() := []] && db.notes == {}
    requires db.txs == map[1 := InitTx(true, map[c.sh := c.ops]), 2 := two]
    requires db.hist == [Granted(2, c.Shared(), Read, Read)]
    requires d == db.(txs := db.txs[1 := LocalTx(map[c.sh := c.ops], c.sh, rm, {})],
                      posted := Post(db.posted, c.At(0), LockCmd(1, c.ops[0].mode, rm.oid - 1)))
    ensures Asked(d, c, 0, rm, two)
  {
    assert c.ops[0..] == c.ops;
    assert forall row :: PostedAt(db.posted, row) == [];
    OnePosted(db.posted, c.At(0), LockCmd(1, c.ops[0].mode, rm.oid - 1), d.posted);
    assert d.txs == map[1 := LocalTx(map[c.sh := c.ops], c.sh, rm, {}), 2 := two];
    StartCalm(c, s, d.slots);
  }

  lemma StartCalm(c: Case, s: Slot, slots: map<Row, Slot>)
    requires c.Valid() && ReadOnce(s) && slots == map[c.Shared() := s]
    ensures SlotsCalm(slots, c)
  {}

  /** Transaction 1 does all of its operations and commits. */
  lemma Upgrades(c: Case) returns (db: Db, rm: Rm)
    requires c.Valid()
    ensures Possible(db, News(c)) && Works(rm, TwoReads(c), false) && rm.oid > 0
    ensures 2 in db.txs && db.txs[2] == LocalTx(map[c.sh := TwoReads(c)], c.sh, rm, {}) && db.notes == {}
    ensures PostedAt(db.posted, c.Shared()) == [] && Holds(SlotAt(db.slots, c.Shared()), 2)
    ensures Story(db.hist, c.Shared(), true) && DecidedMark(1) in db.hist
  {
    var d, s;
    d, rm, s := FirstRead(c);
    var two := LocalTx(map[c.sh := TwoReads(c)], c.sh, rm, {});
    var e, one := AcceptStep(d, 1, c.sh, c.ops, News(c));
    StartAsked(c, d, two, s, e, one);
    e, one := DoAll(e, c, 0, one, two, News(c));
    var last := c.ops[|c.ops| - 1..];
    db := DecideStep(e, 1, c.sh, last, map[c.sh := c.ops], one, News(c));
    StoryGoesOn(e.hist, c.Shared(), true, DecidedMark(1));
    assert Calm(SlotAt(e.slots, c.Shared()), true);
    assert db.hist[|e.hist|] == DecidedMark(1);
  }

  /** Transaction 2 reads the row again and commits. */
  lemma SecondRead(c: Case, db: Db, rm: Rm) returns (d: Db, a: Mark)
    requires c.Valid() && Possible(db, News(c)) && Works(rm, TwoReads(c), false) && rm.oid > 0
    requires 2 in db.txs && db.txs[2] == LocalTx(map[c.sh := TwoReads(c)], c.sh, rm, {}) && db.notes == {}
    requires PostedAt(db.posted, c.Shared()) == [] && Holds(SlotAt(db.slots, c.Shared()), 2)
    ensures Possible(d, News(c)) && d.hist == db.hist + [a] + [DecidedMark(2)]
    ensures a.Granted? && a.xid == 2 && a.row == c.Shared() && a.asked == Read
  {
    var plan := map[c.sh := TwoReads(c)];
    var on;
    d, on := OnStep(db, 2, c.sh, TwoReads(c), plan, rm, News(c));
    assert TwoReads(c)[1..] == [Op(c.Shared().key, Read)];
    assert PostedAt(d.posted, c.Shared()) == [LockCmd(2, Read, on.oid - 1)];
    var u := LockStep(SlotAt(d.slots, c.Shared()), Read, 2, on.oid - 1).0;
    d := GrantStep(d, c.Shared(), 2, Read, on.oid - 1, News(c));
    a := Granted(2, c.Shared(), HeldMode(u, 2), Read);
    assert d.notes == {Note(2, c.sh)};
    d := TellStep(d, 2, c.sh, [Op(c.Shared().key, Read)], plan, on, News(c));
    d := DecideStep(d, 2, c.sh, [Op(c.Shared().key, Read)], plan, on.(waiting := false, working := true), News(c));
  }

  lemma BothWays(h: seq<Mark>, row: Row, a: Mark)
    requires Story(h, row, true) && DecidedMark(1) in h
    requires a.Granted? && a.xid == 2 && a.row == row && a.asked == Read
    ensures var f := h + [a] + [DecidedMark(2)]; AccessPrecedes(f, 1, 2) && AccessPrecedes(f, 2, 1)
  {
    var f := h + [a] + [DecidedMark(2)];
    var m :| 0 < m < |h| && Wrote(h[m], row);
    assert f[0] == h[0] && f[m] == h[m] && f[|h|] == a && f[|h| + 1] == DecidedMark(2);
    assert AccessClash(f[0], f[m]) && AccessClash(f[m], f[|h|]);
  }

  /** A transaction that upgrades the lock of a row, and one that reads the row twice: in some
      run each accesses the row before the other, in conflict, and both commit. */
  lemma UpgradeCycles(c: Case) returns (acts: seq<Act>)
    requires c.Valid()
    ensures CanRun(acts) && forall i :: 0 <= i < |acts| && acts[i].NewTx? ==> acts[i] in News(c)
    ensures AccessPrecedes(Reached(acts).hist, 1, 2) && AccessPrecedes(Reached(acts).hist, 2, 1)
  {
    var db, rm := Upgrades(c);
    var d, a := SecondRead(c, db, rm);
    BothWays(db.hist, c.Shared(), a);
    acts :| Ends(acts, d, News(c));
  }

  // ---------------------------------------------------------------- the exact condition

  /** A run of transactions that upgrade nothing and of transactions that do `ops`. */
  ghost predicate RunOf(acts: seq<Act>, ops: seq<Op>) {
    && CanRun(acts)
    && forall i, sh :: 0 <= i < |acts| && acts[i].NewTx? && sh in acts[i].plan ==>
        acts[i].plan[sh] == ops || NoUpgrade(acts[i].plan[sh])
  }

  /** Such a run in which `p` is a cycle of the precedence graph over accesses. */
  ghost predicate Cyclic(acts: seq<Act>, ops: seq<Op>, p: seq<Xid>) {
    && RunOf(acts, ops) && |p| >= 2 && p[0] == p[|p| - 1]
    && forall k :: 0 <= k < |p| - 1 ==> AccessPrecedes(Reached(acts).hist, p[k], p[k + 1])
  }

  /** The accesses of the committed transactions are serializable in all runs that `ops` takes
      part in, if and only if `ops` has no operation that writes a row it read first. */
  lemma SerializableIff(ops: seq<Op>)
    ensures (forall acts, p :: !Cyclic(acts, ops, p)) <==> NoUpgrade(ops)
  {
    if NoUpgrade(ops) {
      forall acts, p ensures !Cyclic(acts, ops, p) {
        if RunOf(acts, ops) && |p| >= 2 && p[0] == p[|p| - 1] { NoAccessCycle(acts, p); }
      }
    } else {
      var i, j :| UpgradesAt(ops, i, j);
      var c := Case(0, ops, i, j);
      var acts := UpgradeCycles(c);
      CaseRuns(c, acts);
      assert Cyclic(acts, ops, [1, 2, 1]);
    }
  }

  lemma CaseRuns(c: Case, acts: seq<Act>)
    requires c.Valid() && CanRun(acts) && forall i :: 0 <= i < |acts| && acts[i].NewTx? ==> acts[i] in News(c)
    ensures RunOf(acts, c.ops)
  {
    forall i, sh | 0 <= i < |acts| && acts[i].NewTx? && sh in acts[i].plan
      ensures acts[i].plan[sh] == c.ops || NoUpgrade(acts[i].plan[sh])
    {
      assert acts[i] in News(c);
    }
  }
}
