/** The Calvin sequencer of one shard: requests are collected per shard, sent out
    once per epoch, gathered from all shards, put in order and scheduled.  Each
    handler of the class `Sequencer` is proved equal to its function here. */
module Calvin {
  import opened Base

  type Shard = nat
  type Xid = nat

  datatype Op = Op(shard: Shard, body: nat)

  /** The part of a transaction that goes to one shard. */
  datatype Req = Req(xid: Xid, source: Shard, ops: seq<Op>)

  datatype Batch = Batch(from: set<Shard>, reqs: seq<Req>)

  type Collected = map<Shard, map<Xid, seq<Op>>>

  /** `local` holds the acknowledgements of the epochs sent out and not complete,
      `recv` the epochs coming in. */
  datatype Seqr = Seqr(
    me: Shard, shards: set<Shard>, epoch: nat, pending: bool,
    next: Collected, local: map<nat, set<Shard>>, recv: map<nat, Batch>)

  function StartSeqr(me: Shard, shards: set<Shard>): Seqr {
    Seqr(me, shards, 1, false, map[], map[], map[])
  }

  // ---------------------------------------------------------------- collecting

  function Lookup(next: Collected, sh: Shard, x: Xid): seq<Op> {
    if sh in next && x in next[sh] then next[sh][x] else []
  }

  function AcceptOp(next: Collected, x: Xid, o: Op): Collected {
    next[o.shard := (if o.shard in next then next[o.shard] else map[])[x := Lookup(next, o.shard, x) + [o]]]
  }

  function Accept(next: Collected, x: Xid, ops: seq<Op>): Collected {
    if ops == [] then next else AcceptOp(Accept(next, x, ops[..|ops| - 1]), x, ops[|ops| - 1])
  }

  /** The operations for one shard, in the order of the transaction. */
  function OpsFor(ops: seq<Op>, sh: Shard): seq<Op> {
    if ops == [] then []
    else OpsFor(ops[..|ops| - 1], sh) + if ops[|ops| - 1].shard == sh then [ops[|ops| - 1]] else []
  }

  /** A request adds its operations, each to its own shard, in order, and nothing else. */
  lemma {:induction false} AcceptAdds(next: Collected, x: Xid, ops: seq<Op>, sh: Shard, y: Xid)
    ensures Lookup(Accept(next, x, ops), sh, y) == Lookup(next, sh, y) + if y == x then OpsFor(ops, sh) else []
  {
    if ops != [] {
      AcceptAdds(next, x, ops[..|ops| - 1], sh, y);
    }
  }

  /** Nothing is kept for a transaction without operations. */
  ghost predicate NoneEmpty(next: Collected) {
    forall sh, x :: sh in next && x in next[sh] ==> next[sh][x] != []
  }

  lemma {:induction false} AcceptKeepsNoneEmpty(next: Collected, x: Xid, ops: seq<Op>)
    requires NoneEmpty(next)
    ensures NoneEmpty(Accept(next, x, ops))
  {
    if ops != [] { AcceptKeepsNoneEmpty(next, x, ops[..|ops| - 1]); }
  }

  // ---------------------------------------------------------------- sending

  /** The requests for a shard, one for each transaction, by transaction number. */
  ghost predicate Lists(reqs: seq<Req>, source: Shard, part: map<Xid, seq<Op>>) {
    && (forall i, j :: 0 <= i < j < |reqs| ==> reqs[i].xid < reqs[j].xid)
    && (forall i :: 0 <= i < |reqs| ==>
          reqs[i].source == source && reqs[i].xid in part && reqs[i].ops == part[reqs[i].xid])
    && (forall x :: x in part ==> exists i :: 0 <= i < |reqs| && reqs[i].xid == x)
  }

  function PartFor(next: Collected, sh: Shard): map<Xid, seq<Op>> {
    if sh in next then next[sh] else map[]
  }

  function Broadcast(s: Seqr): Seqr {
    if s.pending then s
    else s.(epoch := s.epoch + 1, pending := true, next := map[], local := s.local[s.epoch := {}])
  }

  // ---------------------------------------------------------------- gathering

  ghost predicate SortedByXid(reqs: seq<Req>) {
    forall i, j :: 0 <= i < j < |reqs| ==> reqs[i].xid <= reqs[j].xid
  }

  ghost predicate Ordered(order: seq<Req>, reqs: seq<Req>) {
    SortedByXid(order) && multiset(order) == multiset(reqs)
  }

  function BatchAt(s: Seqr, e: nat): Batch { if e in s.recv then s.recv[e] else Batch({}, []) }

  function Gathered(s: Seqr, src: Shard, e: nat, reqs: seq<Req>): Batch {
    Batch(BatchAt(s, e).from + {src}, BatchAt(s, e).reqs + reqs)
  }

  /** The epoch is complete with this message, and was not before. */
  predicate Completes(s: Seqr, src: Shard, e: nat) {
    src !in BatchAt(s, e).from && |BatchAt(s, e).from + {src}| == |s.shards|
  }

  /** One message of epoch `e`; when it completes the epoch, `order` is what gets scheduled. */
  function OnEpoch(s: Seqr, src: Shard, e: nat, reqs: seq<Req>, order: seq<Req>): Seqr {
    if src in BatchAt(s, e).from then s.(recv := s.recv[e := BatchAt(s, e)])
    else
      var b := Gathered(s, src, e, reqs);
      s.(recv := s.recv[e := if Completes(s, src, e) then b.(reqs := order) else b])
  }

  function OnAck(s: Seqr, src: Shard, e: nat): Seqr {
    if e !in s.local then s
    else
      var acks := s.local[e] + {src};
      if |acks| == |s.shards| then s.(local := s.local - {e}, recv := s.recv - {e}, pending := false)
      else s.(local := s.local[e := acks])
  }

  // ---------------------------------------------------------------- in place

  method Smallest(xs: set<Xid>) returns (x: Xid)
    requires xs != {}
    ensures x in xs && forall y :: y in xs ==> x <= y
  {
    var todo := xs;
    x :| x in xs;
    while todo != {}
      invariant todo <= xs && x in xs
      invariant forall y :: y in xs && y !in todo ==> x <= y
    {
      var y :| y in todo;
      if y < x { x := y; }
      todo := todo - {y};
    }
  }

  /** The transactions not in `rest` are listed, and come before those in `rest`. */
  ghost predicate Listed(reqs: seq<Req>, source: Shard, part: map<Xid, seq<Op>>, rest: set<Xid>) {
    && rest <= part.Keys && Lists(reqs, source, part - rest)
    && forall i, x :: 0 <= i < |reqs| && x in rest ==> reqs[i].xid < x
  }

  lemma ListedMore(reqs: seq<Req>, source: Shard, part: map<Xid, seq<Op>>, rest: set<Xid>, x: Xid)
    requires Listed(reqs, source, part, rest) && x in rest && forall y :: y in rest ==> x <= y
    ensures Listed(reqs + [Req(x, source, part[x])], source, part, rest - {x})
  {
    var more := reqs + [Req(x, source, part[x])];
    forall y | y in part - (rest - {x}) ensures exists i :: 0 <= i < |more| && more[i].xid == y {
      if y == x {
        assert more[|reqs|].xid == y;
      } else {
        assert y in part - rest;
        var i :| 0 <= i < |reqs| && reqs[i].xid == y;
        assert more[i].xid == y;
      }
    }
  }

  method ListRequests(source: Shard, part: map<Xid, seq<Op>>) returns (reqs: seq<Req>)
    ensures Lists(reqs, source, part)
  {
    reqs := [];
    var rest := part.Keys;
    while rest != {}
      invariant Listed(reqs, source, part, rest)
    {
      var x := Smallest(rest);
      ListedMore(reqs, source, part, rest, x);
      reqs := reqs + [Req(x, source, part[x])];
      rest := rest - {x};
    }
    assert part - rest == part;
  }

  lemma InsertedSorted(sorted: seq<Req>, r: Req, i: nat)
    requires SortedByXid(sorted) && i <= |sorted| && (forall j :: i <= j < |sorted| ==> r.xid < sorted[j].xid)
    requires i > 0 ==> sorted[i - 1].xid <= r.xid
    ensures SortedByXid(sorted[..i] + [r] + sorted[i..])
  {
    var more := sorted[..i] + [r] + sorted[i..];
    forall k | 0 <= k < |more| ensures more[k] == if k < i then sorted[k] else if k == i then r else sorted[k - 1] {}
    forall j, k | 0 <= j < k < |more| ensures more[j].xid <= more[k].xid {
      if j < i && i > 0 {
        assert sorted[j].xid <= r.xid by {
          if j < i - 1 { assert sorted[j].xid <= sorted[i - 1].xid; }
        }
      }
    }
  }

  lemma InsertedSame(sorted: seq<Req>, r: Req, i: nat)
    requires i <= |sorted|
    ensures multiset(sorted[..i] + [r] + sorted[i..]) == multiset(sorted + [r])
  {
    assert sorted == sorted[..i] + sorted[i..];
    assert multiset(sorted[..i] + [r] + sorted[i..]) == multiset(sorted[..i]) + multiset([r]) + multiset(sorted[i..]);
  }

  /** Put one request into its place. */
  method InsertByXid(sorted: seq<Req>, r: Req) returns (more: seq<Req>)
    requires SortedByXid(sorted)
    ensures Ordered(more, sorted + [r])
  {
    var i := |sorted|;
    while i > 0 && sorted[i - 1].xid > r.xid
      invariant 0 <= i <= |sorted| && forall j :: i <= j < |sorted| ==> r.xid < sorted[j].xid
    {
      i := i - 1;
    }
    more := sorted[..i] + [r] + sorted[i..];
    InsertedSorted(sorted, r, i);
    InsertedSame(sorted, r, i);
  }

  method SortRequests(reqs: seq<Req>) returns (order: seq<Req>)
    ensures Ordered(order, reqs)
  {
    order := [];
    for i := 0 to |reqs|
      invariant Ordered(order, reqs[..i])
    {
      ghost var before := order;
      order := InsertByXid(order, reqs[i]);
      assert reqs[..i + 1] == reqs[..i] + [reqs[i]];
    }
    assert reqs[..|reqs|] == reqs;
  }

  datatype EpochMsg = EpochMsg(src: Shard, dest: Shard, epoch: nat, reqs: seq<Req>)

  /** One message to each of the shards, holding exactly what was collected for it. */
  ghost predicate OneEach(out: set<EpochMsg>, me: Shard, shards: set<Shard>, epoch: nat, next: Collected) {
    && (forall m :: m in out ==> m.src == me && m.dest in shards && m.epoch == epoch)
    && (forall m :: m in out ==> Lists(m.reqs, me, PartFor(next, m.dest)))
    && (forall sh :: sh in shards ==> exists m :: m in out && m.dest == sh)
    && (forall m, w :: m in out && w in out && m.dest == w.dest ==> m == w)
  }

  lemma OneMore(out: set<EpochMsg>, me: Shard, shards: set<Shard>, epoch: nat, next: Collected, m: EpochMsg)
    requires OneEach(out, me, shards, epoch, next) && m.dest !in shards && m.src == me && m.epoch == epoch
    requires Lists(m.reqs, me, PartFor(next, m.dest))
    ensures OneEach(out + {m}, me, shards + {m.dest}, epoch, next)
  {
    forall sh | sh in shards + {m.dest} ensures exists w :: w in out + {m} && w.dest == sh {
      if sh in shards { var w :| w in out && w.dest == sh; assert w in out + {m}; } else { assert m in out + {m}; }
    }
  }

  class Sequencer {
    const me: Shard
    const shards: set<Shard>
    var epoch: nat
    var pending: bool
    var next: Collected
    var local: map<nat, set<Shard>>
    var recv: map<nat, Batch>

    ghost function Value(): Seqr
      reads this
    {
      Seqr(me, shards, epoch, pending, next, local, recv)
    }

    constructor (me: Shard, shards: set<Shard>)
      ensures Value() == StartSeqr(me, shards)
    {
      this.me, this.shards := me, shards;
      epoch, pending, next, local, recv := 1, false, map[], map[], map[];
    }

    method HandleTxRequest(x: Xid, ops: seq<Op>)
      modifies this`next
      ensures next == Accept(old(next), x, ops)
    {
      for i := 0 to |ops|
        invariant next == Accept(old(next), x, ops[..i])
      {
        var o := ops[i];
        ghost var before := next;
        assert ops[..i + 1][..i] == ops[..i];
        if o.shard !in next {
          next := next[o.shard := map[x := [o]]];
        } else if x !in next[o.shard] {
          var part: map<Xid, seq<Op>> := next[o.shard][x := [o]];
          next := next[o.shard := part];
        } else {
          var part: map<Xid, seq<Op>> := next[o.shard][x := next[o.shard][x] + [o]];
          next := next[o.shard := part];
        }
        assert next[o.shard][x] == Lookup(before, o.shard, x) + [o];
        assert next == AcceptOp(before, x, o);
      }
      assert ops[..|ops|] == ops;
    }

    /** When nothing is under way, send what was collected to every shard as the next epoch. */
    method EpochBroadcastRequest(ready: bool) returns (out: set<EpochMsg>)
      modifies this
      ensures Value() == if ready then Broadcast(old(Value())) else old(Value())
      ensures !ready || old(pending) ==> out == {}
      ensures ready && !old(pending) ==> OneEach(out, me, shards, old(epoch), old(next))
    {
      out := {};
      if !ready || pending { return; }
      local := local[epoch := {}];
      pending := true;
      var todo := shards;
      while todo != {}
        invariant todo <= shards && Value() == old(Value()).(pending := true, local := old(local)[epoch := {}])
        invariant OneEach(out, me, shards - todo, epoch, next)
      {
        var sh :| sh in todo;
        var reqs := ListRequests(me, PartFor(next, sh));
        OneMore(out, me, shards - todo, epoch, next, EpochMsg(me, sh, epoch, reqs));
        assert shards - (todo - {sh}) == shards - todo + {sh};
        out := out + {EpochMsg(me, sh, epoch, reqs)};
        todo := todo - {sh};
      }
      assert shards - todo == shards;
      next := map[];
      epoch := epoch + 1;
    }

    method HandleEpoch(m: EpochMsg) returns (batch: Option<seq<Req>>)
      modifies this`recv
      ensures batch.Some? <==> Completes(old(Value()), m.src, m.epoch)
      ensures batch.Some? ==> Ordered(batch.value, Gathered(old(Value()), m.src, m.epoch, m.reqs).reqs)
      ensures Value() == OnEpoch(old(Value()), m.src, m.epoch, m.reqs, if batch.Some? then batch.value else [])
    {
      batch := None;
      var b := Batch({}, []);
      if m.epoch in recv { b := recv[m.epoch]; } else { recv := recv[m.epoch := b]; }
      if m.src !in b.from {
        b := b.(from := b.from + {m.src});
        for i := 0 to |m.reqs|
          invariant b.from == BatchAt(old(Value()), m.epoch).from + {m.src}
          invariant b.reqs == BatchAt(old(Value()), m.epoch).reqs + m.reqs[..i]
        {
          b := b.(reqs := b.reqs + [m.reqs[i]]);
        }
        assert m.reqs[..|m.reqs|] == m.reqs;
        if |b.from| == |shards| {
          var order := SortRequests(b.reqs);
          b := b.(reqs := order);
          batch := Some(order);
        }
        recv := recv[m.epoch := b];
      }
    }

    method HandleEpochAck(src: Shard, e: nat)
      modifies this
      ensures Value() == OnAck(old(Value()), src, e)
    {
      if e !in local { return; }
      local := local[e := local[e] + {src}];
      if |local[e]| == |shards| {
        local := local - {e};
        recv := recv - {e};
        pending := false;
      }
    }
  }
}
