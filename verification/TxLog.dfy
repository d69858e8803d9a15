/** The repeated transaction log: records one after the other, each a header of three
    64-bit little-endian numbers (payload size, timestamp, node) and the payload. */
module TxLog {
  import opened Base
  import opened Bytes

  type U64 = n: nat | n < 0x1_0000_0000_0000_0000

  datatype Rec = Rec(node: U64, time: U64, payload: seq<Byte>)

  const HEADER: nat := 24

  /** A payload whose size and header fit into 64 bits. */
  predicate Fits(r: Rec) { |r.payload| + HEADER < 0x1_0000_0000_0000_0000 }

  function Header(r: Rec): (bs: seq<Byte>)
    ensures |bs| == HEADER
  {
    Little(|r.payload|, 8) + Little(r.time, 8) + Little(r.node, 8)
  }

  function Encode(r: Rec): seq<Byte> { Header(r) + r.payload }

  function EncodeAll(rs: seq<Rec>): seq<Byte> {
    if rs == [] then [] else Encode(rs[0]) + EncodeAll(rs[1..])
  }

  /** The record at the start of a non-empty log, if the log is long enough for it. */
  function First(bs: seq<Byte>): Option<Rec> {
    if |bs| < HEADER || Value(bs[..8]) + HEADER > |bs| || |bs| >= 0x1_0000_0000_0000_0000 then None
    else
      LittleOfValue(bs[8..16]); LittleOfValue(bs[16..24]); Widths();
      Some(Rec(Value(bs[16..24]), Value(bs[8..16]), bs[HEADER..HEADER + Value(bs[..8])]))
  }

  function Parse(bs: seq<Byte>): Option<seq<Rec>>
    decreases |bs|
  {
    if bs == [] then Some([])
    else
      var r := First(bs);
      if r.None? then None
      else
        Prepend([r.value], Parse(bs[HEADER + |r.value.payload|..]))
  }

  function Prepend(rs: seq<Rec>, rest: Option<seq<Rec>>): Option<seq<Rec>> {
    if rest.None? then None else Some(rs + rest.value)
  }

  lemma PrependAll(rs: seq<Rec>, qs: seq<Rec>, rest: Option<seq<Rec>>)
    ensures Prepend(rs, Prepend(qs, rest)) == Prepend(rs + qs, rest) && Prepend([], rest) == rest
  {
    if rest.Some? { assert rs + (qs + rest.value) == (rs + qs) + rest.value && [] + rest.value == rest.value; }
  }

  lemma FirstOfEncoded(r: Rec, rest: seq<Byte>)
    requires Fits(r) && |Encode(r)| + |rest| < 0x1_0000_0000_0000_0000
    ensures First(Encode(r) + rest) == Some(r) && |Encode(r)| == HEADER + |r.payload|
    ensures (Encode(r) + rest)[|Encode(r)|..] == rest
  {
    var bs := Encode(r) + rest;
    Widths();
    ValueOfLittle(|r.payload|, 8);
    ValueOfLittle(r.time, 8);
    ValueOfLittle(r.node, 8);
    assert bs[..8] == Little(|r.payload|, 8);
    assert bs[8..16] == Little(r.time, 8);
    assert bs[16..24] == Little(r.node, 8);
    assert bs[HEADER..HEADER + |r.payload|] == r.payload;
  }

  lemma EncodedFirst(bs: seq<Byte>)
    requires First(bs).Some?
    ensures Fits(First(bs).value) && bs == Encode(First(bs).value) + bs[HEADER + |First(bs).value.payload|..]
  {
    var r := First(bs).value;
    Widths();
    LittleOfValue(bs[..8]);
    LittleOfValue(bs[8..16]);
    LittleOfValue(bs[16..24]);
    assert bs[..24] == bs[..8] + bs[8..16] + bs[16..24];
    assert bs == bs[..24] + bs[24..24 + |r.payload|] + bs[24 + |r.payload|..];
  }

  ghost predicate AllFit(rs: seq<Rec>) {
    forall i :: 0 <= i < |rs| ==> Fits(rs[i])
  }

  /** Parsing returns what was encoded. */
  lemma {:induction false} ParseOfEncoded(rs: seq<Rec>)
    requires AllFit(rs) && |EncodeAll(rs)| < 0x1_0000_0000_0000_0000
    ensures Parse(EncodeAll(rs)) == Some(rs)
  {
    if rs != [] {
      var rest := EncodeAll(rs[1..]);
      FirstOfEncoded(rs[0], rest);
      ParseOfEncoded(rs[1..]);
      assert EncodeAll(rs) == Encode(rs[0]) + rest;
      assert [rs[0]] + rs[1..] == rs;
    }
  }

  /** Whatever parses is the encoding of what it parses to. */
  lemma {:induction false} EncodedOfParse(bs: seq<Byte>)
    requires Parse(bs).Some?
    ensures EncodeAll(Parse(bs).value) == bs && AllFit(Parse(bs).value)
    decreases |bs|
  {
    if bs != [] {
      var r := First(bs).value;
      var rest := bs[HEADER + |r.payload|..];
      EncodedFirst(bs);
      EncodedOfParse(rest);
      assert Parse(bs).value == [r] + Parse(rest).value;
      assert Parse(bs).value[1..] == Parse(rest).value;
    }
  }

  lemma FirstOfLonger(a: seq<Byte>, b: seq<Byte>)
    requires First(a).Some? && |a + b| < 0x1_0000_0000_0000_0000
    ensures First(a + b) == First(a)
  {
    EncodedFirst(a);
    var r := First(a).value;
    var rest := a[HEADER + |r.payload|..] + b;
    assert a + b == Encode(r) + rest;
    FirstOfEncoded(r, rest);
  }

  /** Logs may be appended to each other: the parse of a concatenation is the concatenation of the parses. */
  lemma {:induction false} ParseOfConcat(a: seq<Byte>, b: seq<Byte>)
    requires Parse(a).Some? && |a + b| < 0x1_0000_0000_0000_0000
    ensures Parse(a + b) == Prepend(Parse(a).value, Parse(b))
    decreases |a|
  {
    if a == [] {
      assert a + b == b;
      PrependAll([], [], Parse(b));
    } else {
      FirstOfLonger(a, b);
      var r := First(a).value;
      var k := HEADER + |r.payload|;
      ParseOfConcat(a[k..], b);
      assert (a + b)[k..] == a[k..] + b;
      PrependAll([r], Parse(a[k..]).value, Parse(b));
    }
  }

  lemma {:induction false} EncodeConcat(rs: seq<Rec>, qs: seq<Rec>)
    ensures EncodeAll(rs + qs) == EncodeAll(rs) + EncodeAll(qs)
  {
    if rs == [] {
      assert rs + qs == qs;
    } else {
      EncodeConcat(rs[1..], qs);
      assert (rs + qs)[1..] == rs[1..] + qs;
      Associates(Encode(rs[0]), EncodeAll(rs[1..]), EncodeAll(qs));
    }
  }

  lemma EncodeOne(r: Rec)
    ensures EncodeAll([r]) == Encode(r)
  {
    assert [r][1..] == [];
    assert EncodeAll([]) == [];
  }

  // ---------------------------------------------------------------- writing a batch

  function Batch(logs: seq<seq<Byte>>, node: U64): seq<Rec> {
    seq(|logs|, i requires 0 <= i < |logs| => Rec(node, 0, logs[i]))
  }

  /** Header, then payload, at `off` of the buffer. */
  method Format(a: array<Byte>, off: nat, r: Rec)
    requires off + HEADER + |r.payload| <= a.Length
    modifies a
    ensures a[..] == Splice(old(a[..]), off, Encode(r))
  {
    ghost var s := a[..];
    Put(a, off, Little(|r.payload|, 8));
    Put(a, off + 8, Little(r.time, 8));
    SpliceTwice(s, off, Little(|r.payload|, 8), Little(r.time, 8));
    Put(a, off + 16, Little(r.node, 8));
    SpliceTwice(s, off, Little(|r.payload|, 8) + Little(r.time, 8), Little(r.node, 8));
    Put(a, off + 24, r.payload);
    SpliceTwice(s, off, Header(r), r.payload);
  }

  /** Encode a batch of logs into one buffer of exactly the right size. */
  method EncodeBatch(logs: seq<seq<Byte>>, node: U64) returns (a: array<Byte>)
    ensures fresh(a) && a[..] == EncodeAll(Batch(logs, node))
  {
    var total := 0;
    for i := 0 to |logs|
      invariant total == |EncodeAll(Batch(logs[..i], node))|
    {
      BatchMore(logs, node, i);
      total := total + HEADER + |logs[i]|;
    }
    assert logs[..|logs|] == logs;
    a := new Byte[total](_ => 0);
    var off := 0;
    for i := 0 to |logs|
      invariant off == |EncodeAll(Batch(logs[..i], node))| <= total == a.Length
      invariant a[..off] == EncodeAll(Batch(logs[..i], node))
    {
      BatchMore(logs, node, i);
      BatchBound(logs, node, i + 1);
      Format(a, off, Rec(node, 0, logs[i]));
      off := off + HEADER + |logs[i]|;
    }
    assert a[..] == a[..off];
  }

  lemma BatchMore(logs: seq<seq<Byte>>, node: U64, i: nat)
    requires i < |logs|
    ensures EncodeAll(Batch(logs[..i + 1], node)) == EncodeAll(Batch(logs[..i], node)) + Encode(Rec(node, 0, logs[i]))
  {
    var r := Rec(node, 0, logs[i]);
    assert Batch(logs[..i + 1], node) == Batch(logs[..i], node) + [r];
    EncodeConcat(Batch(logs[..i], node), [r]);
    EncodeOne(r);
  }

  lemma BatchBound(logs: seq<seq<Byte>>, node: U64, i: nat)
    requires i <= |logs|
    ensures |EncodeAll(Batch(logs[..i], node))| <= |EncodeAll(Batch(logs, node))|
  {
    assert Batch(logs, node) == Batch(logs[..i], node) + Batch(logs[i..], node);
    EncodeConcat(Batch(logs[..i], node), Batch(logs[i..], node));
  }

  /** A buffer of that size has the eight bytes at the place of the payload that the code
      asserts whenever it takes the address of a payload. */
  predicate Asserted(size: nat) { size >= HEADER + 8 }

  /** The buffer left for record `i` of a batch. */
  ghost function RoomFor(logs: seq<seq<Byte>>, node: U64, i: nat): nat
    requires i <= |logs|
  {
    BatchBound(logs, node, i);
    |EncodeAll(Batch(logs, node))| - |EncodeAll(Batch(logs[..i], node))|
  }

  lemma RoomIsRest(logs: seq<seq<Byte>>, node: U64, i: nat)
    requires i < |logs|
    ensures i + 1 == |logs| ==> RoomFor(logs, node, i) == HEADER + |logs[i]|
    ensures i + 1 < |logs| ==> RoomFor(logs, node, i) >= HEADER + |logs[i]| + HEADER
  {
    assert logs[..|logs|] == logs;
    BatchMore(logs, node, i);
    if i + 1 < |logs| {
      BatchMore(logs, node, i + 1);
      BatchBound(logs, node, i + 2);
    }
  }

  /** Writing a batch meets the assertion if and only if its last payload has eight bytes. */
  lemma BatchAsserts(logs: seq<seq<Byte>>, node: U64)
    ensures (forall i :: 0 <= i < |logs| ==> Asserted(RoomFor(logs, node, i))) <==>
      (logs == [] || |logs[|logs| - 1]| >= 8)
  {
    forall i | 0 <= i < |logs| ensures Asserted(RoomFor(logs, node, i)) <==> i + 1 < |logs| || |logs[i]| >= 8 {
      RoomIsRest(logs, node, i);
    }
  }

  /** Taking the payload out of every record of a log meets it if and only if all have. */
  lemma PayloadAsserts(rs: seq<Rec>)
    ensures (forall i :: 0 <= i < |rs| ==> Asserted(|Encode(rs[i])|)) <==>
      forall i :: 0 <= i < |rs| ==> |rs[i].payload| >= 8
  {
    forall i | 0 <= i < |rs| ensures Asserted(|Encode(rs[i])|) <==> |rs[i].payload| >= 8 {}
  }

  // ---------------------------------------------------------------- reading

  /** One pass over the log with a cursor. */
  method ParseLogs(bs: seq<Byte>) returns (rs: Option<seq<Rec>>)
    ensures rs == Parse(bs)
  {
    var off, done := 0, [];
    assert bs[0..] == bs;
    PrependAll([], [], Parse(bs));
    while off < |bs|
      invariant off <= |bs|
      invariant Parse(bs) == Prepend(done, Parse(bs[off..]))
    {
      var r := First(bs[off..]);
      if r.None? { return None; }
      var size := HEADER + |r.value.payload|;
      assert bs[off..][size..] == bs[off + size..];
      PrependAll(done, [r.value], Parse(bs[off + size..]));
      done := done + [r.value];
      off := off + size;
    }
    assert done + [] == done;
    rs := Some(done);
  }

  // ---------------------------------------------------------------- rewriting timestamps

  /** Overwriting the timestamp of one record in a log gives the log with that timestamp changed. */
  lemma TimestampInPlace(before: seq<Rec>, r: Rec, rest: seq<Byte>, time: U64)
    ensures var s := EncodeAll(before) + Encode(r) + rest;
      Splice(s, |EncodeAll(before)| + 8, Little(time, 8)) == EncodeAll(before) + Encode(r.(time := time)) + rest
  {
    var p, tail := EncodeAll(before) + Little(|r.payload|, 8), Little(r.node, 8) + r.payload + rest;
    EncodedParts(before, r, rest);
    EncodedParts(before, r.(time := time), rest);
    SpliceMiddle(p, Little(r.time, 8), tail, Little(time, 8));
  }

  lemma EncodedParts(before: seq<Rec>, r: Rec, rest: seq<Byte>)
    ensures EncodeAll(before) + Encode(r) + rest ==
      (EncodeAll(before) + Little(|r.payload|, 8)) + Little(r.time, 8) + (Little(r.node, 8) + r.payload + rest)
  {
    Regroup(EncodeAll(before), Little(|r.payload|, 8), Little(r.time, 8), Little(r.node, 8), r.payload, rest);
  }

  lemma Regroup(a: seq<Byte>, b: seq<Byte>, c: seq<Byte>, d: seq<Byte>, e: seq<Byte>, f: seq<Byte>)
    ensures a + (b + c + d + e) + f == (a + b) + c + (d + e + f)
  {}

  method SetTimestamp(a: array<Byte>, off: nat, time: U64)
    requires off + HEADER <= a.Length
    modifies a
    ensures a[..] == Splice(old(a[..]), off + 8, Little(time, 8))
  {
    Put(a, off + 8, Little(time, 8));
  }

  // ---------------------------------------------------------------- demultiplexing

  /** 64-bit subtraction. */
  function Minus(a: U64, b: U64): U64 {
    if a >= b then a - b else a + 0x1_0000_0000_0000_0000 - b
  }

  /** A record that carries a start time gets its latency; one that carries none gets
      the latency of the record before it, if there is one. */
  function Latency(r: Rec, now: U64, previous: U64): U64 {
    if r.time != 0 then Minus(now, r.time) else previous
  }

  function Timed(r: Rec, now: U64, previous: U64): Rec {
    r.(time := if r.time == 0 && previous == 0 then 0 else Latency(r, now, previous))
  }

  /** The latency carried over to the next record. */
  function PreviousAfter(rs: seq<Rec>, now: U64): U64 {
    if rs == [] then 0 else Latency(rs[|rs| - 1], now, PreviousAfter(rs[..|rs| - 1], now))
  }

  function TimedAll(rs: seq<Rec>, now: U64): (ts: seq<Rec>)
    ensures |ts| == |rs|
  {
    if rs == [] then []
    else
      var front := rs[..|rs| - 1];
      TimedAll(front, now) + [Timed(rs[|rs| - 1], now, PreviousAfter(front, now))]
  }

  /** Only timestamps change. */
  lemma {:induction false} TimedKeeps(rs: seq<Rec>, now: U64, i: nat)
    requires i < |rs|
    ensures TimedAll(rs, now)[i].node == rs[i].node && TimedAll(rs, now)[i].payload == rs[i].payload
  {
    if i < |rs| - 1 { TimedKeeps(rs[..|rs| - 1], now, i); }
  }

  lemma {:induction false} TimedAt(rs: seq<Rec>, now: U64, i: nat)
    requires i < |rs|
    ensures TimedAll(rs, now)[i] == Timed(rs[i], now, PreviousAfter(rs[..i], now))
  {
    if i < |rs| - 1 {
      assert rs[..|rs| - 1][..i] == rs[..i];
      TimedAt(rs[..|rs| - 1], now, i);
    }
  }

  /** A record that carries a start time gets what is missing from that time to `now`. */
  lemma LatencyAddsUp(rs: seq<Rec>, now: U64, i: nat)
    requires i < |rs| && rs[i].time != 0
    ensures (TimedAll(rs, now)[i].time + rs[i].time) % 0x1_0000_0000_0000_0000 == now
    ensures rs[i].time <= now ==> TimedAll(rs, now)[i].time + rs[i].time == now
  {
    TimedAt(rs, now, i);
  }

  /** The latency carried over is that of the last record with a start time. */
  lemma {:induction false} CarriedFrom(rs: seq<Rec>, now: U64, j: nat)
    requires j < |rs| && rs[j].time != 0 && forall k :: j < k < |rs| ==> rs[k].time == 0
    ensures PreviousAfter(rs, now) == TimedAll(rs, now)[j].time
  {
    TimedAt(rs, now, j);
    if j < |rs| - 1 {
      CarriedFrom(rs[..|rs| - 1], now, j);
      TimedAt(rs[..|rs| - 1], now, j);
      assert rs[..|rs| - 1][..j] == rs[..j];
    }
  }

  /** A record without one gets the latency of the last record before it that carries one. */
  lemma LatencyCarried(rs: seq<Rec>, now: U64, j: nat, i: nat)
    requires j < i < |rs| && rs[j].time != 0 && forall k :: j < k <= i ==> rs[k].time == 0
    ensures TimedAll(rs, now)[i].time == TimedAll(rs, now)[j].time
  {
    CarriedFrom(rs[..i], now, j);
    TimedAt(rs, now, i);
    TimedAt(rs, now, j);
    TimedAt(rs[..i], now, j);
    assert rs[..i][..j] == rs[..j];
  }

  /** Before the first start time of the log there is no latency. */
  lemma {:induction false} LatencyUnknown(rs: seq<Rec>, now: U64, i: nat)
    requires i < |rs| && forall k :: 0 <= k <= i ==> rs[k].time == 0
    ensures TimedAll(rs, now)[i].time == 0 && PreviousAfter(rs[..i], now) == 0
  {
    TimedAt(rs, now, i);
    if i > 0 {
      LatencyUnknown(rs, now, i - 1);
      assert rs[..i][..i - 1] == rs[..i - 1];
    }
  }

  function NodeOf(r: Rec): nat { r.node % 0x1_0000_0000 }

  /** The records of one node, in the order of the log. */
  function Own(rs: seq<Rec>, node: nat): seq<Rec> {
    if rs == [] then []
    else Own(rs[..|rs| - 1], node) + if NodeOf(rs[|rs| - 1]) == node then [rs[|rs| - 1]] else []
  }

  function NodesOf(rs: seq<Rec>): set<nat> { set r | r in rs :: NodeOf(r) }

  /** Each node of the log, and no other, has a message with exactly its own records. */
  ghost predicate Demuxed(msgs: map<nat, seq<Byte>>, rs: seq<Rec>) {
    msgs.Keys == NodesOf(rs) && forall n :: n in msgs ==> msgs[n] == EncodeAll(Own(rs, n))
  }

  lemma {:induction false} NoneOwn(rs: seq<Rec>, n: nat)
    ensures Own(rs, n) == [] <==> n !in NodesOf(rs)
  {
    if rs != [] {
      NoneOwn(rs[..|rs| - 1], n);
      NodesMore(rs[..|rs| - 1], rs[|rs| - 1]);
      assert rs == rs[..|rs| - 1] + [rs[|rs| - 1]];
    }
  }

  lemma NodesMore(rs: seq<Rec>, r: Rec)
    ensures NodesOf(rs + [r]) == NodesOf(rs) + {NodeOf(r)}
  {
    assert forall q :: q in rs + [r] <==> q in rs || q == r;
  }

  lemma OwnMore(rs: seq<Rec>, r: Rec, n: nat)
    ensures Own(rs + [r], n) == Own(rs, n) + if NodeOf(r) == n then [r] else []
  {
    assert (rs + [r])[..|rs|] == rs;
  }

  lemma DemuxedMore(msgs: map<nat, seq<Byte>>, rs: seq<Rec>, r: Rec)
    requires Demuxed(msgs, rs)
    ensures var n := NodeOf(r); Demuxed(msgs[n := (if n in msgs then msgs[n] else []) + Encode(r)], rs + [r])
  {
    var k := NodeOf(r);
    NodesMore(rs, r);
    NoneOwn(rs, k);
    EncodeConcat(Own(rs, k), [r]);
    EncodeOne(r);
    var more := msgs[k := (if k in msgs then msgs[k] else []) + Encode(r)];
    forall n | n in more ensures more[n] == EncodeAll(Own(rs + [r], n)) {
      OwnMore(rs, r, n);
      if n != k { assert Own(rs, n) + [] == Own(rs, n); }
    }
  }

  /** Where the pass over one log stands, after the records `rs[..n]` of earlier logs: the
      records `rs[n..i]` are timed, the rest are as they were. */
  ghost predicate Halfway(s: seq<Byte>, rs: seq<Rec>, now: U64, n: nat, i: nat, off: nat)
    requires n <= i <= |rs|
  {
    && off == |EncodeAll(TimedAll(rs[..i], now)[n..])|
    && s == EncodeAll(TimedAll(rs[..i], now)[n..]) + EncodeAll(rs[i..])
  }

  lemma HalfwayStart(before: seq<Rec>, rs: seq<Rec>, now: U64)
    ensures Halfway(EncodeAll(rs), before + rs, now, |before|, |before|, 0)
  {
    var all := before + rs;
    assert all[..|before|] == before && all[|before|..] == rs;
    assert TimedAll(before, now)[|before|..] == [];
    assert [] + EncodeAll(rs) == EncodeAll(rs);
  }

  /** Bytes are left exactly as long as records are left. */
  lemma HalfwayMore(s: seq<Byte>, rs: seq<Rec>, now: U64, n: nat, i: nat, off: nat)
    requires n <= i <= |rs| && Halfway(s, rs, now, n, i, off)
    ensures off < |s| <==> i < |rs|
  {
    assert i == |rs| <==> rs[i..] == [];
    assert rs[i..] != [] ==> |EncodeAll(rs[i..])| >= HEADER;
  }

  lemma HalfwayRecord(s: seq<Byte>, rs: seq<Rec>, now: U64, n: nat, i: nat, off: nat)
    requires n <= i < |rs| && Halfway(s, rs, now, n, i, off) && Fits(rs[i]) && |s| < 0x1_0000_0000_0000_0000
    ensures s == EncodeAll(TimedAll(rs[..i], now)[n..]) + Encode(rs[i]) + EncodeAll(rs[i + 1..])
    ensures off + HEADER + |rs[i].payload| <= |s| && First(s[off..]) == Some(rs[i])
  {
    var rest := EncodeAll(rs[i + 1..]);
    assert rs[i..][1..] == rs[i + 1..];
    assert s[off..] == Encode(rs[i]) + rest;
    FirstOfEncoded(rs[i], rest);
  }

  lemma TimedMore(rs: seq<Rec>, now: U64, i: nat)
    requires i < |rs|
    ensures TimedAll(rs[..i + 1], now) == TimedAll(rs[..i], now) + [Timed(rs[i], now, PreviousAfter(rs[..i], now))]
    ensures PreviousAfter(rs[..i + 1], now) == Latency(rs[i], now, PreviousAfter(rs[..i], now))
  {
    assert rs[..i + 1][..i] == rs[..i];
  }

  lemma InMiddle(a: seq<Byte>, b: seq<Byte>, c: seq<Byte>)
    ensures (a + b + c)[|a|..|a| + |b|] == b
  {}

  /** Retiming the record behind `before`, in the bytes of a log. */
  lemma Retimed(before: seq<Rec>, was: Rec, r: Rec, rest: seq<Byte>, s: seq<Byte>)
    requires r == was.(time := r.time) && s == EncodeAll(before) + Encode(was) + rest
    ensures var at := |EncodeAll(before)|; var u := Splice(s, at + 8, Little(r.time, 8));
      && u == EncodeAll(before) + Encode(r) + rest && u[at..at + HEADER + |r.payload|] == Encode(r)
      && (r.time == was.time ==> u == s)
  {
    TimestampInPlace(before, was, rest, r.time);
    InMiddle(EncodeAll(before), Encode(r), rest);
  }

  lemma DoneMore(rs: seq<Rec>, now: U64, n: nat, i: nat)
    requires n <= i < |rs|
    ensures EncodeAll(TimedAll(rs[..i + 1], now)[n..]) ==
      EncodeAll(TimedAll(rs[..i], now)[n..]) + Encode(Timed(rs[i], now, PreviousAfter(rs[..i], now)))
  {
    var before, r := TimedAll(rs[..i], now)[n..], Timed(rs[i], now, PreviousAfter(rs[..i], now));
    TimedMore(rs, now, i);
    assert TimedAll(rs[..i + 1], now)[n..] == before + [r];
    EncodeConcat(before, [r]);
    EncodeOne(r);
  }

  lemma HalfwayNext(s: seq<Byte>, rs: seq<Rec>, now: U64, n: nat, i: nat, off: nat)
    requires n <= i < |rs| && Halfway(s, rs, now, n, i, off) && Fits(rs[i]) && |s| < 0x1_0000_0000_0000_0000
    ensures off + HEADER + |rs[i].payload| <= |s|
    ensures var r := Timed(rs[i], now, PreviousAfter(rs[..i], now));
      && Halfway(Splice(s, off + 8, Little(r.time, 8)), rs, now, n, i + 1, off + HEADER + |r.payload|)
      && Splice(s, off + 8, Little(r.time, 8))[off..off + HEADER + |r.payload|] == Encode(r)
      && (r.time == rs[i].time ==> Splice(s, off + 8, Little(r.time, 8)) == s)
  {
    var before, rest := TimedAll(rs[..i], now)[n..], EncodeAll(rs[i + 1..]);
    var r := Timed(rs[i], now, PreviousAfter(rs[..i], now));
    HalfwayRecord(s, rs, now, n, i, off);
    Retimed(before, rs[i], r, rest, s);
    DoneMore(rs, now, n, i);
  }

  /** The records of several logs, one log after the other. */
  function Flat(rss: seq<seq<Rec>>): seq<Rec> {
    if rss == [] then [] else Flat(rss[..|rss| - 1]) + rss[|rss| - 1]
  }

  /** The records of log `k` of several, timed after those of the logs before it. */
  function TimedLog(rss: seq<seq<Rec>>, now: U64, k: nat): seq<Rec>
    requires k < |rss|
  {
    FlatMore(rss, k);
    TimedAll(Flat(rss[..k + 1]), now)[|Flat(rss[..k])|..]
  }

  lemma FlatMore(rss: seq<seq<Rec>>, k: nat)
    requires k < |rss|
    ensures Flat(rss[..k + 1]) == Flat(rss[..k]) + rss[k]
  {
    assert rss[..k + 1][..k] == rss[..k];
  }

  lemma {:induction false} TimedPrefix(a: seq<Rec>, b: seq<Rec>, now: U64)
    ensures TimedAll(a, now) <= TimedAll(a + b, now)
  {
    if b == [] {
      assert a + b == a;
    } else {
      TimedPrefix(a, b[..|b| - 1], now);
      assert (a + b)[..|a + b| - 1] == a + b[..|b| - 1];
    }
  }

  /** The first `n` logs, timed, one after the other. */
  function TimedLogs(rss: seq<seq<Rec>>, now: U64, n: nat): seq<Rec>
    requires n <= |rss|
  {
    if n == 0 then [] else TimedLogs(rss, now, n - 1) + TimedLog(rss, now, n - 1)
  }

  /** They are what timing all their records as one log gives. */
  lemma {:induction false} TimedLogsJoin(rss: seq<seq<Rec>>, now: U64, n: nat)
    requires n <= |rss|
    ensures TimedLogs(rss, now, n) == TimedAll(Flat(rss[..n]), now)
  {
    if n > 0 {
      TimedLogsJoin(rss, now, n - 1);
      FlatMore(rss, n - 1);
      TimedPrefix(Flat(rss[..n - 1]), rss[n - 1], now);
      Halves(TimedAll(Flat(rss[..n]), now), TimedAll(Flat(rss[..n - 1]), now));
    }
  }

  lemma Halves(rs: seq<Rec>, front: seq<Rec>)
    requires front <= rs
    ensures rs == front + rs[|front|..]
  {}

  /** Time every record of one log in place and hand each node its own records, after the
      records `before` of earlier logs. */
  method DemuxLog(a: array<Byte>, now: U64, previous: U64, msgs: map<nat, seq<Byte>>, ghost before: seq<Rec>,
                  ghost rs: seq<Rec>)
    returns (last: U64, more: map<nat, seq<Byte>>)
    requires AllFit(rs) && a[..] == EncodeAll(rs) && a.Length < 0x1_0000_0000_0000_0000
    requires previous == PreviousAfter(before, now) && Demuxed(msgs, TimedAll(before, now))
    modifies a
    ensures a[..] == EncodeAll(TimedAll(before + rs, now)[|before|..])
    ensures last == PreviousAfter(before + rs, now) && Demuxed(more, TimedAll(before + rs, now))
  {
    last, more := previous, msgs;
    var off := 0;
    ghost var all, n := before + rs, |before|;
    ghost var i := n;
    HalfwayStart(before, rs, now);
    assert all[..n] == before;
    while off < a.Length
      invariant n <= i <= |all| && Halfway(a[..], all, now, n, i, off)
      invariant last == PreviousAfter(all[..i], now) && Demuxed(more, TimedAll(all[..i], now))
      decreases a.Length - off
    {
      HalfwayMore(a[..], all, now, n, i, off);
      assert all[i] == rs[i - n];
      HalfwayRecord(a[..], all, now, n, i, off);
      HalfwayNext(a[..], all, now, n, i, off);
      TimedMore(all, now, i);
      var r := First(a[off..]).value;
      assert a[off..] == a[..][off..];
      var timed := r;
      if r.time != 0 {
        last := Minus(now, r.time);
        timed := r.(time := last);
        SetTimestamp(a, off, last);
      } else if last != 0 {
        timed := r.(time := last);
        SetTimestamp(a, off, last);
      }
      var size := HEADER + |r.payload|;
      DemuxedMore(more, TimedAll(all[..i], now), timed);
      var node := NodeOf(timed);
      var sofar := [];
      if node in more { sofar := more[node]; }
      more := more[node := sofar + a[off..off + size]];
      off := off + size;
      i := i + 1;
    }
    HalfwayMore(a[..], all, now, n, i, off);
    assert all[..i] == all && all[i..] == [];
  }

  /** Time every record of the committed logs in place and hand each node its own records. */
  method DemuxCommitted(logs: seq<array<Byte>>, now: U64, ghost rss: seq<seq<Rec>>) returns (msgs: map<nat, seq<Byte>>)
    requires |logs| == |rss| && forall i, j :: 0 <= i < j < |logs| ==> logs[i] != logs[j]
    requires forall k :: 0 <= k < |logs| ==>
      AllFit(rss[k]) && logs[k][..] == EncodeAll(rss[k]) && logs[k].Length < 0x1_0000_0000_0000_0000
    modifies logs
    ensures forall k :: 0 <= k < |logs| ==> logs[k][..] == EncodeAll(TimedLog(rss, now, k))
    ensures Demuxed(msgs, TimedAll(Flat(rss), now))
  {
    msgs := map[];
    var previous: U64 := 0;
    for k := 0 to |logs|
      invariant previous == PreviousAfter(Flat(rss[..k]), now) && Demuxed(msgs, TimedAll(Flat(rss[..k]), now))
      invariant forall i :: 0 <= i < k ==> logs[i][..] == EncodeAll(TimedLog(rss, now, i))
      invariant forall i :: k <= i < |logs| ==> logs[i][..] == old(logs[i][..])
    {
      FlatMore(rss, k);
      previous, msgs := DemuxLog(logs[k], now, previous, msgs, Flat(rss[..k]), rss[k]);
    }
    assert rss[..|logs|] == rss;
  }
}
