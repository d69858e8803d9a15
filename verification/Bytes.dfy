/** Bytes and little-endian numbers. */
module Bytes {
  type Byte = b: nat | b < 256

  function Power256(n: nat): nat { if n == 0 then 1 else 256 * Power256(n - 1) }

  /** The low `n` bytes of `v`, lowest first. */
  function Little(v: nat, n: nat): (bs: seq<Byte>)
    ensures |bs| == n
  {
    if n == 0 then [] else [v % 256] + Little(v / 256, n - 1)
  }

  function Value(bs: seq<Byte>): nat {
    if bs == [] then 0 else bs[0] + 256 * Value(bs[1..])
  }

  lemma Associates(a: seq<Byte>, b: seq<Byte>, c: seq<Byte>)
    ensures (a + b) + c == a + (b + c)
  {}

  lemma {:induction false} ValueOfLittle(v: nat, n: nat)
    requires v < Power256(n)
    ensures Value(Little(v, n)) == v
  {
    if n > 0 {
      ValueOfLittle(v / 256, n - 1);
      assert Little(v, n)[1..] == Little(v / 256, n - 1);
    }
  }

  lemma LowByte(b: Byte, v: nat)
    ensures (b + 256 * v) % 256 == b && (b + 256 * v) / 256 == v
  {}

  lemma {:induction false} LittleOfValue(bs: seq<Byte>)
    ensures Little(Value(bs), |bs|) == bs && Value(bs) < Power256(|bs|)
  {
    if bs != [] {
      var v := Value(bs[1..]);
      LittleOfValue(bs[1..]);
      LowByte(bs[0], v);
      assert Little(Value(bs), |bs|) == [bs[0]] + Little(v, |bs| - 1);
      assert bs == [bs[0]] + bs[1..];
    }
  }

  /** The number 2 to the power of 16, 32 and 64, as powers of 256. */
  lemma Widths()
    ensures Power256(2) == 0x1_0000 && Power256(4) == 0x1_0000_0000 && Power256(8) == 0x1_0000_0000_0000_0000
  {
    assert Power256(4) == 256 * (256 * (256 * 256));
    assert Power256(6) == 256 * 256 * Power256(4);
    assert Power256(8) == 256 * 256 * Power256(6);
  }

  /** The bytes `s` with `bs` written over them at `off`. */
  function Splice(s: seq<Byte>, off: nat, bs: seq<Byte>): (r: seq<Byte>)
    requires off + |bs| <= |s|
    ensures |r| == |s|
  {
    s[..off] + bs + s[off + |bs|..]
  }

  lemma SpliceTwice(s: seq<Byte>, off: nat, x: seq<Byte>, y: seq<Byte>)
    requires off + |x| + |y| <= |s|
    ensures Splice(Splice(s, off, x), off + |x|, y) == Splice(s, off, x + y)
  {
    var t := Splice(s, off, x);
    assert t[..off + |x|] == s[..off] + x;
    assert t[off + |x| + |y|..] == s[off + |x| + |y|..];
  }

  /** The same, written back to front. */
  lemma SpliceBefore(s: seq<Byte>, off: nat, x: seq<Byte>, y: seq<Byte>)
    requires off + |x| + |y| <= |s|
    ensures Splice(Splice(s, off + |x|, y), off, x) == Splice(s, off, x + y)
  {
    var t := Splice(s, off + |x|, y);
    assert t[..off] == s[..off];
    assert t[off + |x|..] == y + s[off + |x| + |y|..];
  }

  lemma SpliceEnds(s: seq<Byte>, from: nat, off: nat, bs: seq<Byte>)
    requires from <= off && off + |bs| <= |s|
    ensures Splice(s, off, bs)[from..off + |bs|] == s[from..off] + bs
  {}

  lemma SpliceMiddle(p: seq<Byte>, y: seq<Byte>, z: seq<Byte>, w: seq<Byte>)
    requires |y| == |w|
    ensures Splice(p + y + z, |p|, w) == p + w + z
  {
    assert (p + y + z)[..|p|] == p;
    assert (p + y + z)[|p| + |w|..] == z;
  }

  /** Write `bs` into the array at `off`. */
  method Put(a: array<Byte>, off: nat, bs: seq<Byte>)
    requires off + |bs| <= a.Length
    modifies a
    ensures a[..] == Splice(old(a[..]), off, bs)
  {
    for i := 0 to |bs|
      invariant a[..off] == old(a[..off]) && a[off..off + i] == bs[..i] && a[off + i..] == old(a[off + i..])
    {
      a[off + i] := bs[i];
      assert a[off..off + i + 1] == a[off..off + i] + [bs[i]];
    }
    assert bs[..|bs|] == bs;
    assert a[..] == a[..off] + a[off..off + |bs|] + a[off + |bs|..];
  }
}
