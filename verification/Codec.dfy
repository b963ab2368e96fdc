/** The integer codecs of the connection buffer (src/file/ConnBuffer.h, src/network/Endian.h).

    An integer is appended as the memory image of its network-order form, so what lands in the buffer
    depends on the byte order of the host twice; `WireIsBigEndian` shows that it cancels out. */
module Codec {
  import opened Common
  import opened ConnBuffer

  datatype Host = LittleEndianHost | BigEndianHost

  datatype Width = W8 | W16 | W32 | W64 {
    function Size(): nat {
      match this
      case W8 => 1
      case W16 => 2
      case W32 => 4
      case W64 => 8
    }
  }

  function Pow256(n: nat): nat {
    if n == 0 then 1 else 256 * Pow256(n - 1)
  }

  datatype Integer = Integer(width: Width, x: int) {
    predicate InRange() {
      var half: int := Pow256(width.Size()) / 2;
      -half <= x < half
    }
  }

  /** A value of int8_t, int16_t, int32_t or int64_t. */
  type Value = v: Integer | v.InRange() witness Integer(W8, 0)

  /** Network order: most significant byte first. */
  function BigEndian(u: nat, n: nat): (bs: seq<Byte>)
    ensures |bs| == n
  {
    if n == 0 then [] else BigEndian(u / 256, n - 1) + [u % 256]
  }

  function FromBig(bs: seq<Byte>): nat {
    if bs == [] then 0 else 256 * FromBig(bs[..|bs| - 1]) + bs[|bs| - 1]
  }

  /** The bytes of an n-byte unsigned integer in the memory of a host, and back. */
  function Memory(h: Host, u: nat, n: nat): seq<Byte> {
    if h.BigEndianHost? then BigEndian(u, n) else Reversed(BigEndian(u, n))
  }

  function FromMemory(h: Host, bs: seq<Byte>): nat {
    if h.BigEndianHost? then FromBig(bs) else FromBig(Reversed(bs))
  }

  /** htobeN and beNtoh: the identity on a big-endian host, a byte swap on a little-endian one. */
  function HostToNetwork(h: Host, u: nat, n: nat): nat {
    if h.BigEndianHost? then u else FromBig(Reversed(BigEndian(u, n)))
  }

  function NetworkToHost(h: Host, u: nat, n: nat): nat {
    if h.BigEndianHost? then u else FromBig(Reversed(BigEndian(u, n)))
  }

  /** Conversion between intN_t and uintN_t. */
  function Unsigned(x: int, n: nat): int {
    if x < 0 then x + Pow256(n) else x
  }

  function Signed(u: nat, n: nat): int {
    if u < Pow256(n) / 2 then u else u - Pow256(n)
  }

  /** What AppendIntN and PrependIntN hand to Append and Prepend. */
  function Wire(h: Host, v: Value): seq<Byte>
  {
    var n := v.width.Size();
    Memory(h, HostToNetwork(h, Unsigned(v.x, n), n), n)
  }

  /** What PeekIntN computes from the first bytes of the buffer. */
  function Peeked(h: Host, w: Width, bs: seq<Byte>): int
    requires |bs| == w.Size()
  {
    Signed(NetworkToHost(h, FromMemory(h, bs), w.Size()), w.Size())
  }

  // ----- the byte order cancels -----

  lemma {:induction false} BigRoundTrip(u: nat, n: nat)
    requires u < Pow256(n)
    ensures FromBig(BigEndian(u, n)) == u
  {
    if n != 0 {
      BigRoundTrip(u / 256, n - 1);
      assert BigEndian(u, n)[..n - 1] == BigEndian(u / 256, n - 1);
    }
  }

  lemma {:induction false} BigBytes(bs: seq<Byte>)
    ensures FromBig(bs) < Pow256(|bs|)
    ensures BigEndian(FromBig(bs), |bs|) == bs
  {
    if bs != [] {
      BigBytes(bs[..|bs| - 1]);
    }
  }

  lemma ReverseTwice(bs: seq<Byte>)
    ensures Reversed(Reversed(bs)) == bs
  {
  }

  /** On every host the bytes in the buffer are the big-endian two's complement of the value. */
  lemma WireIsBigEndian(h: Host, v: Value)
    ensures Wire(h, v) == BigEndian(Unsigned(v.x, v.width.Size()), v.width.Size())
  {
    var n := v.width.Size();
    var big := BigEndian(Unsigned(v.x, n), n);
    if h.LittleEndianHost? {
      BigBytes(Reversed(big));
      ReverseTwice(big);
    }
  }

  // what each byte is

  lemma AtLeastOnce(a: nat, d: nat)
    requires 1 <= a
    ensures d <= a * d
  {
  }

  lemma Difference(k: int, q: int, d: nat, m: nat, r: nat)
    requires k * d + m == q * d + r
    ensures (k - q) * d == r - m && (q - k) * d == m - r
  {
  }

  lemma QuotientIs(x: int, d: nat, q: int, r: nat)
    requires r < d && x == q * d + r
    ensures x / d == q
  {
    var k, m := x / d, x % d;
    assert x == k * d + m;
    Difference(k, q, d, m, r);
    if q < k {
      AtLeastOnce(k - q, d);
    } else if k < q {
      AtLeastOnce(q - k, d);
    }
  }

  /** Dividing by one number and then by another is dividing by their product. */
  lemma DivTwice(u: nat, p: nat)
    requires 0 < p
    ensures 0 < 256 * p && u / 256 / p == u / (256 * p)
  {
    var q, r := u / 256 / p, u / 256 % p;
    assert u / 256 == q * p + r;
    assert u == 256 * (q * p + r) + u % 256;
    assert u == q * (256 * p) + (256 * r + u % 256);
    QuotientIs(u, 256 * p, q, 256 * r + u % 256);
  }

  lemma {:induction false} PowSplits(m: nat, n: nat)
    ensures Pow256(m + n) == Pow256(m) * Pow256(n)
  {
    if m != 0 {
      PowSplits(m - 1, n);
      assert Pow256(m + n) == 256 * Pow256(m - 1 + n);
      assert 256 * (Pow256(m - 1) * Pow256(n)) == (256 * Pow256(m - 1)) * Pow256(n);
    }
  }

  lemma {:induction false} PowPositive(n: nat)
    ensures 0 < Pow256(n)
  {
    if n != 0 {
      PowPositive(n - 1);
    }
  }

  lemma PowAround(n: nat, i: nat)
    requires i < n
    ensures Pow256(n) == 256 * Pow256(i) * Pow256(n - 1 - i)
  {
    PowSplits(i, n - i);
    var p, k := Pow256(n - 1 - i), Pow256(i);
    assert k * (256 * p) == 256 * k * p;
  }

  /** Byte i of the network order of an unsigned integer. */
  lemma {:induction false} BigEndianByte(u: nat, n: nat, i: nat)
    requires i < n
    ensures 0 < Pow256(n - 1 - i) && BigEndian(u, n)[i] == u / Pow256(n - 1 - i) % 256
  {
    PowPositive(n - 1 - i);
    if i < n - 1 {
      BigEndianByte(u / 256, n - 1, i);
      DivTwice(u, Pow256(n - 2 - i));
    } else {
      assert Pow256(0) == 1;
    }
  }

  /** Adding a multiple of 256 p does not change the digit at p. */
  lemma DigitStays(x: int, p: nat, k: nat)
    requires 0 < p
    ensures (x + 256 * k * p) / p % 256 == x / p % 256
  {
    var q, r := x / p, x % p;
    assert x + 256 * k * p == (q + 256 * k) * p + r;
    QuotientIs(x + 256 * k * p, p, q + 256 * k, r);
  }

  /** Every byte on the wire, for negative values too: byte i is the digit of the value at place n - 1 - i
      in base 256, division rounding down. */
  lemma WireByte(h: Host, v: Value, i: nat)
    requires i < v.width.Size()
    ensures var n := v.width.Size();
      |Wire(h, v)| == n && 0 < Pow256(n - 1 - i) && Wire(h, v)[i] == v.x / Pow256(n - 1 - i) % 256
  {
    hide Wire, BigEndian, Pow256;
    var n := v.width.Size();
    WireIsBigEndian(h, v);
    PowPositive(n - 1 - i);
    BigEndianByte(Unsigned(v.x, n), n, i);
    if v.x < 0 {
      PowAround(n, i);
      DigitStays(v.x, Pow256(n - 1 - i), Pow256(i));
    }
  }

  /** Reading back what was written, on the same or on another host. */
  lemma PeekInvertsWire(h: Host, g: Host, v: Value)
    ensures |Wire(h, v)| == v.width.Size()
    ensures Peeked(g, v.width, Wire(h, v)) == v.x
  {
    var n := v.width.Size();
    var u := Unsigned(v.x, n);
    WireIsBigEndian(h, v);
    var big := BigEndian(u, n);
    BigRoundTrip(u, n);
    if g.LittleEndianHost? {
      BigBytes(Reversed(big));
      ReverseTwice(big);
    }
  }

  /** And on every host the value read is the big-endian two's complement reading of the bytes. */
  lemma PeekedIsBigEndian(h: Host, w: Width, bs: seq<Byte>)
    requires |bs| == w.Size()
    ensures Peeked(h, w, bs) == Signed(FromBig(bs), w.Size())
  {
    if h.LittleEndianHost? {
      BigBytes(Reversed(bs));
      ReverseTwice(bs);
    }
  }

  // ----- typed traffic through one buffer -----

  datatype Traffic =
    | Put(v: Value)
    | Get(w: Width)
    | Other(op: Op)  // Reserve or Shrink, which may grow, compact or reallocate

  ghost function WireAll(h: Host, vs: seq<Value>): seq<Byte>
  {
    if vs == [] then [] else Wire(h, vs[0]) + WireAll(h, vs[1..])
  }

  /** Does the traffic fit the queue of typed values a user of the codecs has in mind? */
  ghost predicate Fits(t: Traffic, queue: seq<Value>) {
    match t
    case Put(_) => true
    case Get(w) => queue != [] && queue[0].width == w
    case Other(op) => op.Reserve? || op.Shrink?
  }

  ghost function Next(t: Traffic, queue: seq<Value>): seq<Value>
    requires Fits(t, queue)
  {
    match t
    case Put(v) => queue + [v]
    case Get(_) => queue[1..]
    case Other(_) => queue
  }

  ghost predicate Sound(ts: seq<Traffic>, queue: seq<Value>) {
    ts == [] || (Fits(ts[0], queue) && Sound(ts[1..], Next(ts[0], queue)))
  }

  ghost function Puts(ts: seq<Traffic>): seq<Value> {
    if ts == [] then [] else (if ts[0].Put? then [ts[0].v] else []) + Puts(ts[1..])
  }

  ghost predicate Possible(t: Traffic, b: Buf)
    requires b.Ok()
  {
    match t
    case Put(_) => true
    case Get(w) => w.Size() <= |b.Readable()|
    case Other(op) => Legal(op, b)
  }

  /** The buffer operation behind a piece of traffic. */
  ghost function OpOf(h: Host, t: Traffic, b: Buf): (op: Op)
    requires b.Ok() && Possible(t, b)
    ensures Legal(op, b)
  {
    match t
    case Put(v) => Append(Wire(h, v))
    case Get(w) => Retrieve(w.Size())
    case Other(op) => op
  }

  ghost function Returned(h: Host, t: Traffic, b: Buf): seq<int>
    requires b.Ok() && Possible(t, b)
  {
    if t.Get? then [Peeked(h, t.w, b.Readable()[..t.w.Size()])] else []
  }

  /** The values returned by the reads of a run, and the buffer it leaves. */
  ghost function Drive(h: Host, ts: seq<Traffic>, b: Buf): (r: (seq<int>, Buf))
    requires b.Ok()
  {
    if ts == [] || !Possible(ts[0], b) then ([], b)
    else
      var op := OpOf(h, ts[0], b);
      ApplyRefines(op, b);
      var r := Drive(h, ts[1..], Apply(op, b));
      (Returned(h, ts[0], b) + r.0, r.1)
  }

  ghost predicate Carries(h: Host, b: Buf, queue: seq<Value>) {
    b.Ok() && b.Readable() == WireAll(h, queue)
  }

  ghost function Xs(vs: seq<Value>): (r: seq<int>)
    ensures |r| == |vs|
  {
    seq(|vs|, i requires 0 <= i < |vs| => vs[i].x)
  }

  lemma {:induction false} WireAllAppend(h: Host, vs: seq<Value>, v: Value)
    ensures WireAll(h, vs + [v]) == WireAll(h, vs) + Wire(h, v)
  {
    if vs == [] {
      assert vs + [v] == [v];
      assert WireAll(h, [v]) == Wire(h, v) + WireAll(h, []);
    } else {
      assert (vs + [v])[1..] == vs[1..] + [v];
      WireAllAppend(h, vs[1..], v);
    }
  }

  lemma StepCarries(h: Host, t: Traffic, b: Buf, queue: seq<Value>)
    requires Carries(h, b, queue) && Fits(t, queue)
    ensures Possible(t, b)
    ensures Carries(h, Apply(OpOf(h, t, b), b), Next(t, queue))
    ensures Returned(h, t, b) == if t.Get? then [queue[0].x] else []
  {
    match t
    case Put(v) =>
      ApplyRefines(Append(Wire(h, v)), b);
      WireAllAppend(h, queue, v);
    case Get(w) =>
      var n, head, tail := w.Size(), Wire(h, queue[0]), WireAll(h, queue[1..]);
      PeekInvertsWire(h, h, queue[0]);
      assert b.Readable() == head + tail;
      assert b.Readable()[..n] == head && b.Readable()[n..] == tail;
      ApplyRefines(Retrieve(n), b);
    case Other(op) =>
      ApplyRefines(op, b);
  }

  lemma NextXs(t: Traffic, queue: seq<Value>, more: seq<Value>)
    requires Fits(t, queue)
    ensures Xs(queue + ((if t.Put? then [t.v] else []) + more)) ==
            (if t.Get? then [queue[0].x] else []) + Xs(Next(t, queue) + more)
  {
  }

  lemma FirstStep(h: Host, ts: seq<Traffic>, b: Buf, queue: seq<Value>) returns (got: seq<int>, c: Buf)
    requires ts != [] && Carries(h, b, queue) && Fits(ts[0], queue)
    ensures Carries(h, c, Next(ts[0], queue)) && got == if ts[0].Get? then [queue[0].x] else []
    ensures Drive(h, ts, b) == (got + Drive(h, ts[1..], c).0, Drive(h, ts[1..], c).1)
  {
    StepCarries(h, ts[0], b, queue);
    got, c := Returned(h, ts[0], b), Apply(OpOf(h, ts[0], b), b);
  }

  /** The values still in the buffer after a run, and the values its reads return. */
  ghost function Left(ts: seq<Traffic>, queue: seq<Value>): seq<Value>
    requires Sound(ts, queue)
  {
    if ts == [] then queue else Left(ts[1..], Next(ts[0], queue))
  }

  ghost function Gotten(ts: seq<Traffic>, queue: seq<Value>): seq<int>
    requires Sound(ts, queue)
  {
    if ts == [] then [] else (if ts[0].Get? then [queue[0].x] else []) + Gotten(ts[1..], Next(ts[0], queue))
  }

  lemma {:induction false} GottenThenLeft(ts: seq<Traffic>, queue: seq<Value>)
    requires Sound(ts, queue)
    ensures Gotten(ts, queue) + Xs(Left(ts, queue)) == Xs(queue + Puts(ts))
  {
    if ts == [] {
      assert queue + Puts(ts) == queue;
    } else {
      GottenThenLeft(ts[1..], Next(ts[0], queue));
      NextXs(ts[0], queue, Puts(ts[1..]));
      var first, rest, left := if ts[0].Get? then [queue[0].x] else [],
        Gotten(ts[1..], Next(ts[0], queue)), Xs(Left(ts, queue));
      assert (first + rest) + left == first + (rest + left);
    }
  }

  lemma {:induction false} DriveFollows(h: Host, ts: seq<Traffic>, b: Buf, queue: seq<Value>)
    requires Carries(h, b, queue) && Sound(ts, queue)
    ensures Drive(h, ts, b).0 == Gotten(ts, queue) && Carries(h, Drive(h, ts, b).1, Left(ts, queue))
  {
    if ts != [] {
      var got, c := FirstStep(h, ts, b, queue);
      DriveFollows(h, ts[1..], c, Next(ts[0], queue));
    }
  }

  /** The codecs make the buffer a queue of typed values: whatever mixture of appends, reads, space
      requests and shrinks, the values read followed by the values still in the buffer are the values
      that were there followed by the values appended, in order. */
  lemma TypedQueue(h: Host, ts: seq<Traffic>, b: Buf, queue: seq<Value>)
    requires Carries(h, b, queue) && Sound(ts, queue)
    ensures Carries(h, Drive(h, ts, b).1, Left(ts, queue))
    ensures Drive(h, ts, b).0 + Xs(Left(ts, queue)) == Xs(queue + Puts(ts))
  {
    DriveFollows(h, ts, b, queue);
    GottenThenLeft(ts, queue);
  }

  /** A prepended integer is read first and leaves the body untouched. */
  lemma PrependThenRead(h: Host, b: Buf, v: Value)
    requires b.Ok() && v.width.Size() <= b.reader
    ensures |Wire(h, v)| == v.width.Size()
    ensures var c := Apply(Prepend(Wire(h, v)), b);
      && c.Ok() && Legal(Retrieve(v.width.Size()), c)
      && Peeked(h, v.width, c.Readable()[..v.width.Size()]) == v.x
      && Apply(Retrieve(v.width.Size()), c).Ok()
      && Apply(Retrieve(v.width.Size()), c).Readable() == b.Readable()
  {
    PeekInvertsWire(h, h, v);
    ApplyRefines(Prepend(Wire(h, v)), b);
    var c := Apply(Prepend(Wire(h, v)), b);
    assert c.Readable()[..v.width.Size()] == Wire(h, v);
    ApplyRefines(Retrieve(v.width.Size()), c);
  }

  // ----- the methods -----

  method AppendInt(buf: Buffer, h: Host, v: Value)
    requires buf.Valid()
    modifies buf, buf.data
    ensures buf.data == old(buf.data) || fresh(buf.data)
    ensures buf.Valid()
    ensures buf.Contents() == old(buf.Contents()) + BigEndian(Unsigned(v.x, v.width.Size()), v.width.Size())
  {
    WireIsBigEndian(h, v);
    buf.Append(Wire(h, v));
  }

  method PeekInt(buf: Buffer, h: Host, w: Width) returns (x: int)
    requires buf.Valid() && w.Size() <= |buf.Contents()|
    ensures x == Signed(FromBig(buf.Contents()[..w.Size()]), w.Size())
  {
    var readable := buf.data[buf.reader..buf.writer];
    PeekedIsBigEndian(h, w, readable[..w.Size()]);
    x := Peeked(h, w, readable[..w.Size()]);
  }

  method ReadInt(buf: Buffer, h: Host, w: Width) returns (x: int)
    requires buf.Valid() && w.Size() <= |buf.Contents()|
    modifies buf
    ensures buf.data == old(buf.data) && buf.Valid()
    ensures x == Signed(FromBig(old(buf.Contents())[..w.Size()]), w.Size())
    ensures buf.Contents() == old(buf.Contents())[w.Size()..]
  {
    x := PeekInt(buf, h, w);
    buf.Retrieve(w.Size());
  }

  method PrependInt(buf: Buffer, h: Host, v: Value)
    requires buf.Valid() && v.width.Size() <= buf.reader
    modifies buf, buf.data
    ensures buf.data == old(buf.data) && buf.Valid()
    ensures buf.Contents() == BigEndian(Unsigned(v.x, v.width.Size()), v.width.Size()) + old(buf.Contents())
  {
    WireIsBigEndian(h, v);
    buf.Prepend(Wire(h, v));
  }
}
