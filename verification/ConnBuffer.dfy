/** The connection buffer of src/file/ConnBuffer.h: a growable vector with a reader and a writer
    index, eight cheap bytes in front of the data, and compaction in place.

    `Buf` is the value of a buffer object; the functions on it say what each operation does to the
    vector and the two indexes. `Meaning` says what the operation is for: the obvious operation on
    the plain sequence of readable bytes. `RunRefines` connects the two over whole runs, `RunBounded`
    bounds the memory, and class `Buffer` is the imperative code, proved against the functions. */
module ConnBuffer {

  const CHEAP_PREPEND: nat := 8
  const INITIAL_SIZE: nat := 1024
  /** The size of the stack buffer that `ReadFd` offers to readv after the writable area. */
  const EXTRA_SIZE: nat := 65536

  type Byte = x: int | 0 <= x < 256

  function Zeros(n: nat): seq<Byte> {
    seq(n, _ => 0)
  }

  datatype Buf = Buf(store: seq<Byte>, reader: nat, writer: nat) {
    predicate Ok() {
      reader <= writer <= |store| && CHEAP_PREPEND <= |store|
    }

    function Readable(): seq<Byte>
      requires Ok()
    {
      store[reader..writer]
    }

    function Writable(): nat
      requires Ok()
    {
      |store| - writer
    }
  }

  function Fresh(initialSize: nat): Buf {
    Buf(Zeros(CHEAP_PREPEND + initialSize), CHEAP_PREPEND, CHEAP_PREPEND)
  }

  /** True when the free bytes on both sides of the data cannot hold `len` more. */
  predicate MustGrow(b: Buf, len: nat)
    requires b.Ok()
  {
    b.Writable() + b.reader < len + CHEAP_PREPEND
  }

  function SpaceMade(b: Buf, len: nat): Buf
    requires b.Ok() && b.Writable() < len
  {
    if MustGrow(b, len) then
      b.(store := b.store + Zeros(b.writer + len - |b.store|))
    else
      var n := |b.Readable()|;
      Buf(b.store[..CHEAP_PREPEND] + b.Readable() + b.store[CHEAP_PREPEND + n..],
          CHEAP_PREPEND, CHEAP_PREPEND + n)
  }

  function EnsureWritable(b: Buf, len: nat): Buf
    requires b.Ok()
  {
    if b.Writable() < len then SpaceMade(b, len) else b
  }

  lemma Spliced(p: seq<Byte>, d: seq<Byte>, q: seq<Byte>, m: nat)
    requires m <= |q|
    ensures (p + d + q)[|p|..|p| + |d| + m] == d + q[..m]
  {
  }

  lemma SliceOfFront(a: seq<Byte>, z: seq<Byte>, i: nat, j: nat)
    requires i <= j <= |a|
    ensures (a + z)[i..j] == a[i..j]
  {
  }

  /** Space made on demand: the promised room is there and the readable bytes are untouched, and a
      compaction, which copies to the left over itself, only happens when the data does move left. */
  lemma MakeSpaceOk(b: Buf, len: nat)
    requires b.Ok()
    ensures EnsureWritable(b, len).Ok()
    ensures len <= EnsureWritable(b, len).Writable()
    ensures EnsureWritable(b, len).Readable() == b.Readable()
    ensures b.Writable() < len && !MustGrow(b, len) ==> CHEAP_PREPEND < b.reader
  {
    if b.Writable() < len {
      if MustGrow(b, len) {
        SliceOfFront(b.store, Zeros(b.writer + len - |b.store|), b.reader, b.writer);
      } else {
        Spliced(b.store[..CHEAP_PREPEND], b.Readable(), b.store[CHEAP_PREPEND + |b.Readable()|..], 0);
      }
    }
  }

  /** Bytes written at the writer index, which then moves past them. */
  function Fill(b: Buf, data: seq<Byte>): Buf
    requires b.Ok() && |data| <= b.Writable()
  {
    Buf(b.store[..b.writer] + data + b.store[b.writer + |data|..], b.reader, b.writer + |data|)
  }

  /** How the bytes delivered by one readv are spread: the writable area first, the rest appended. */
  function ReadIn(b: Buf, data: seq<Byte>): Buf
    requires b.Ok()
  {
    if |data| <= b.Writable() then
      Fill(b, data)
    else
      var full := Fill(b, data[..b.Writable()]);
      var rest := data[b.Writable()..];
      MakeSpaceOk(full, |rest|);
      Fill(EnsureWritable(full, |rest|), rest)
  }

  /** The most bytes readv can deliver into the one or two areas it is offered. */
  function ReadLimit(b: Buf): nat
    requires b.Ok()
  {
    if b.Writable() < EXTRA_SIZE then b.Writable() + EXTRA_SIZE else b.Writable()
  }

  datatype Op =
    | Append(data: seq<Byte>)
    | Prepend(data: seq<Byte>)
    | Retrieve(count: nat)
    | Unwrite(count: nat)
    | Reserve(count: nat)
    | Shrink(count: nat)
    | ReadFd(data: seq<Byte>)

  /** The asserts of the source, and the kernel's promise about readv. */
  predicate Legal(op: Op, b: Buf)
    requires b.Ok()
  {
    match op
    case Prepend(d) => |d| <= b.reader
    case Retrieve(n) => n <= |b.Readable()|
    case Unwrite(n) => n <= |b.Readable()|
    case ReadFd(d) => |d| <= ReadLimit(b)
    case _ => true
  }

  function Apply(op: Op, b: Buf): Buf
    requires b.Ok() && Legal(op, b)
  {
    match op
    case Append(d) => MakeSpaceOk(b, |d|); Fill(EnsureWritable(b, |d|), d)
    case Prepend(d) =>
      Buf(b.store[..b.reader - |d|] + d + b.store[b.reader..], b.reader - |d|, b.writer)
    case Retrieve(n) =>
      if n < |b.Readable()| then b.(reader := b.reader + n)
      else b.(reader := CHEAP_PREPEND, writer := CHEAP_PREPEND)
    case Unwrite(n) => b.(writer := b.writer - n)
    case Reserve(n) => EnsureWritable(b, n)
    case Shrink(n) =>
      var d := b.Readable();
      MakeSpaceOk(Fresh(INITIAL_SIZE), |d| + n);
      Fill(EnsureWritable(Fresh(INITIAL_SIZE), |d| + n), d)
    case ReadFd(d) => ReadIn(b, d)
  }

  /** What an operation is for, on the readable bytes alone. */
  function Meaning(op: Op, s: seq<Byte>): seq<Byte>
    requires op.Retrieve? || op.Unwrite? ==> op.count <= |s|
  {
    match op
    case Append(d) => s + d
    case Prepend(d) => d + s
    case Retrieve(n) => s[n..]
    case Unwrite(n) => s[..|s| - n]
    case Reserve(_) => s
    case Shrink(_) => s
    case ReadFd(d) => s + d
  }

  lemma FillOk(b: Buf, data: seq<Byte>)
    requires b.Ok() && |data| <= b.Writable()
    ensures Fill(b, data).Ok()
    ensures Fill(b, data).Readable() == b.Readable() + data
    ensures |Fill(b, data).store| == |b.store|
  {
  }

  lemma ReadInOk(b: Buf, data: seq<Byte>)
    requires b.Ok()
    ensures ReadIn(b, data).Ok() && ReadIn(b, data).Readable() == b.Readable() + data
  {
    hide Fill, EnsureWritable;
    if |data| <= b.Writable() {
      FillOk(b, data);
    } else {
      var head, rest := data[..b.Writable()], data[b.Writable()..];
      FillOk(b, head);
      MakeSpaceOk(Fill(b, head), |rest|);
      FillOk(EnsureWritable(Fill(b, head), |rest|), rest);
      assert head + rest == data;
      assert b.Readable() + head + rest == b.Readable() + (head + rest);
    }
  }

  lemma PrependOk(b: Buf, d: seq<Byte>)
    requires b.Ok() && |d| <= b.reader
    ensures Apply(Prepend(d), b).Readable() == d + b.Readable()
  {
    Spliced(b.store[..b.reader - |d|], d, b.store[b.reader..], b.writer - b.reader);
  }

  lemma SliceTake(s: seq<Byte>, i: nat, j: nat, k: nat)
    requires i + k <= j <= |s|
    ensures s[i..j][..k] == s[i..i + k]
  {
  }

  lemma UnwriteOk(b: Buf, n: nat)
    requires b.Ok() && n <= |b.Readable()|
    ensures Apply(Unwrite(n), b).Readable() == b.Readable()[..|b.Readable()| - n]
  {
    SliceTake(b.store, b.reader, b.writer, b.writer - n - b.reader);
  }

  /** One operation: representation kept, readable bytes as meant. */
  lemma ApplyRefines(op: Op, b: Buf)
    requires b.Ok() && Legal(op, b)
    ensures Apply(op, b).Ok()
    ensures Apply(op, b).Readable() == Meaning(op, b.Readable())
  {
    match op
    case Append(d) =>
      MakeSpaceOk(b, |d|);
      FillOk(EnsureWritable(b, |d|), d);
    case Prepend(d) => PrependOk(b, d);
    case Retrieve(n) =>
    case Unwrite(n) => UnwriteOk(b, n);
    case Reserve(n) => MakeSpaceOk(b, n);
    case Shrink(n) =>
      var d := b.Readable();
      MakeSpaceOk(Fresh(INITIAL_SIZE), |d| + n);
      FillOk(EnsureWritable(Fresh(INITIAL_SIZE), |d| + n), d);
    case ReadFd(d) => ReadInOk(b, d);
  }

  // ----- whole runs -----

  /** Every operation meets the source's asserts in the state it is called in. */
  predicate LegalRun(ops: seq<Op>, b: Buf)
    requires b.Ok()
  {
    ops == [] ||
    (Legal(ops[0], b) && (ApplyRefines(ops[0], b); LegalRun(ops[1..], Apply(ops[0], b))))
  }

  function Run(ops: seq<Op>, b: Buf): Buf
    requires b.Ok() && LegalRun(ops, b)
  {
    if ops == [] then b
    else ApplyRefines(ops[0], b); Run(ops[1..], Apply(ops[0], b))
  }

  predicate Meant(ops: seq<Op>, s: seq<Byte>, t: seq<Byte>) {
    if ops == [] then s == t
    else (ops[0].Retrieve? || ops[0].Unwrite? ==> ops[0].count <= |s|) && Meant(ops[1..], Meaning(ops[0], s), t)
  }

  /** The buffer refines a byte sequence: over every legal run the readable bytes are what the plain
      sequence operations give, whatever growths and compactions took place. */
  lemma {:induction false} RunRefines(ops: seq<Op>, b: Buf)
    requires b.Ok() && LegalRun(ops, b)
    ensures Run(ops, b).Ok()
    ensures Meant(ops, b.Readable(), Run(ops, b).Readable())
  {
    if ops != [] {
      ApplyRefines(ops[0], b);
      RunRefines(ops[1..], Apply(ops[0], b));
    }
  }

  /** The space request an operation makes: bytes readable at that moment, and bytes asked for. */
  function Request(op: Op, b: Buf): (nat, nat)
    requires b.Ok()
  {
    match op
    case Append(d) => (|b.Readable()|, |d|)
    case Reserve(n) => (|b.Readable()|, n)
    case ReadFd(d) =>
      if |d| <= b.Writable() then (0, 0) else (|b.Readable()| + b.Writable(), |d| - b.Writable())
    case _ => (0, 0)
  }

  ghost predicate Modest(ops: seq<Op>, b: Buf, M: nat, L: nat)
    requires b.Ok() && LegalRun(ops, b)
  {
    ops == [] ||
    var (have, want) := Request(ops[0], b);
    && !ops[0].Shrink? && have + want <= M && want <= L
    && (ApplyRefines(ops[0], b); Modest(ops[1..], Apply(ops[0], b), M, L))
  }

  function Max(a: nat, b: nat): nat {
    if a < b then b else a
  }

  /** Growth happens only when the slack on both sides is too small, so a request cannot push the
      vector past what it asks for plus what it may leave unused. */
  lemma GrowthBounded(b: Buf, len: nat)
    requires b.Ok()
    ensures EnsureWritable(b, len).Ok()
    ensures |EnsureWritable(b, len).store| <= Max(|b.store|, |b.Readable()| + len + len + CHEAP_PREPEND - 1)
  {
    MakeSpaceOk(b, len);
  }

  lemma ApplyBounded(op: Op, b: Buf, M: nat, L: nat)
    requires b.Ok() && Legal(op, b) && !op.Shrink?
    requires Request(op, b).0 + Request(op, b).1 <= M && Request(op, b).1 <= L
    ensures |Apply(op, b).store| <= Max(|b.store|, M + L + CHEAP_PREPEND - 1)
  {
    match op
    case Append(d) =>
      GrowthBounded(b, |d|);
      MakeSpaceOk(b, |d|);
      FillOk(EnsureWritable(b, |d|), d);
    case Reserve(n) => GrowthBounded(b, n);
    case ReadFd(d) =>
      if |d| <= b.Writable() {
        FillOk(b, d);
      } else {
        var head, rest := d[..b.Writable()], d[b.Writable()..];
        FillOk(b, head);
        GrowthBounded(Fill(b, head), |rest|);
        MakeSpaceOk(Fill(b, head), |rest|);
        FillOk(EnsureWritable(Fill(b, head), |rest|), rest);
      }
    case _ =>
  }

  /** The number of bytes that an operation needs room for behind the data. */
  function Wanted(op: Op): nat {
    match op
    case Append(d) => |d|
    case Reserve(n) => n
    case ReadFd(d) => |d|
    case _ => 0
  }

  lemma SpaceSize(b: Buf, len: nat)
    requires b.Ok()
    ensures |EnsureWritable(b, len).store| ==
      if len <= b.Writable() || len + CHEAP_PREPEND <= b.Writable() + b.reader then |b.store| else b.writer + len
  {
  }

  lemma ReadSize(b: Buf, d: seq<Byte>)
    requires b.Ok()
    ensures |ReadIn(b, d).store| ==
      if |d| <= b.Writable() || |d| + CHEAP_PREPEND <= b.Writable() + b.reader then |b.store| else b.writer + |d|
  {
    if |d| <= b.Writable() {
      FillOk(b, d);
    } else {
      var head, rest := d[..b.Writable()], d[b.Writable()..];
      FillOk(b, head);
      var full := Fill(b, head);
      assert full.reader == b.reader && full.Writable() == 0;
      SpaceSize(full, |rest|);
      MakeSpaceOk(full, |rest|);
      FillOk(EnsureWritable(full, |rest|), rest);
    }
  }

  lemma ShrinkSize(b: Buf, n: nat)
    requires b.Ok()
    ensures |Apply(Shrink(n), b).store| == CHEAP_PREPEND + Max(INITIAL_SIZE, |b.Readable()| + n)
  {
    var d := b.Readable();
    SpaceSize(Fresh(INITIAL_SIZE), |d| + n);
    MakeSpaceOk(Fresh(INITIAL_SIZE), |d| + n);
    FillOk(EnsureWritable(Fresh(INITIAL_SIZE), |d| + n), d);
  }

  lemma AppendSize(b: Buf, d: seq<Byte>)
    requires b.Ok()
    ensures |Apply(Append(d), b).store| ==
      if |d| <= b.Writable() || |d| + CHEAP_PREPEND <= b.Writable() + b.reader then |b.store| else b.writer + |d|
  {
    SpaceSize(b, |d|);
    MakeSpaceOk(b, |d|);
    FillOk(EnsureWritable(b, |d|), d);
  }

  /** The size of the vector after one operation. It grows only when the free bytes on both sides of the
      data do not suffice, and then to the end of what was asked for; Shrink gives back all but what the
      data and the reserve need. */
  lemma StorageIs(op: Op, b: Buf)
    requires b.Ok() && Legal(op, b)
    ensures |Apply(op, b).store| ==
      if op.Shrink? then CHEAP_PREPEND + Max(INITIAL_SIZE, |b.Readable()| + op.count)
      else if Wanted(op) <= b.Writable() || Wanted(op) + CHEAP_PREPEND <= b.Writable() + b.reader then |b.store|
      else b.writer + Wanted(op)
  {
    hide EnsureWritable, ReadIn, Fill;
    match op
    case Append(d) => AppendSize(b, d);
    case Reserve(n) => SpaceSize(b, n);
    case ReadFd(d) => ReadSize(b, d);
    case Shrink(n) => ShrinkSize(b, n);
    case _ =>
  }

  /** The room asked for is there, and a buffer that has been read to its end starts at the front again. */
  lemma RoomIs(op: Op, b: Buf)
    requires b.Ok() && Legal(op, b)
    ensures op.Reserve? ==> Apply(op, b).Ok() && op.count <= Apply(op, b).Writable()
    ensures op.Retrieve? && op.count == |b.Readable()| ==>
      Apply(op, b) == b.(reader := CHEAP_PREPEND, writer := CHEAP_PREPEND)
  {
    if op.Reserve? {
      MakeSpaceOk(b, op.count);
    }
  }

  /** The memory bound: if every space request finds at most M bytes including itself and asks for at
      most L, no run without Shrink makes the vector larger than it was or than M + L + 7. */
  lemma {:induction false} RunBounded(ops: seq<Op>, b: Buf, M: nat, L: nat)
    requires b.Ok() && LegalRun(ops, b) && Modest(ops, b, M, L)
    ensures |Run(ops, b).store| <= Max(|b.store|, M + L + CHEAP_PREPEND - 1)
  {
    if ops != [] {
      ApplyRefines(ops[0], b);
      ApplyBounded(ops[0], b, M, L);
      RunBounded(ops[1..], Apply(ops[0], b), M, L);
    }
  }

  /** What the cheap prepend area is for: as long as nothing was prepended, eight bytes in front of
      the data are free, whatever was appended, read, shrunk or retrieved. */
  lemma {:induction false} RunKeepsCheapPrepend(ops: seq<Op>, b: Buf)
    requires b.Ok() && LegalRun(ops, b) && CHEAP_PREPEND <= b.reader
    requires forall op :: op in ops ==> !op.Prepend?
    ensures CHEAP_PREPEND <= Run(ops, b).reader
  {
    if ops != [] {
      assert ops[0] in ops;
      ApplyRefines(ops[0], b);
      RunKeepsCheapPrepend(ops[1..], Apply(ops[0], b));
    }
  }

  // ----- the class -----

  datatype Readv = Failed(errno: int) | Got(bytes: seq<Byte>)

  lemma Pieces(now: seq<Byte>, was: seq<Byte>, from: nat, to: nat, n: nat)
    requires to < from && from + n <= |was| == |now|
    requires forall k :: to <= k < to + n ==> now[k] == was[k - to + from]
    requires forall k :: 0 <= k < to || to + n <= k < |now| ==> now[k] == was[k]
    ensures now == was[..to] + was[from..from + n] + was[to + n..]
  {
  }

  /** std::copy onto an overlapping range further left, element by element from the front. */
  method CopyLeft(a: array<Byte>, from: nat, to: nat, n: nat)
    requires to < from && from + n <= a.Length
    modifies a
    ensures a[..] == old(a[..to] + a[from..from + n] + a[to + n..])
  {
    for i := 0 to n
      invariant forall k :: to <= k < to + i ==> a[k] == old(a[k - to + from])
      invariant forall k :: 0 <= k < to || to + i <= k < a.Length ==> a[k] == old(a[k])
    {
      a[to + i] := a[from + i];
    }
    ghost var was := old(a[..]);
    Pieces(a[..], was, from, to, n);
  }

  class Buffer {
    var data: array<Byte>
    var reader: nat
    var writer: nat

    ghost function View(): Buf
      reads this, data
    {
      Buf(data[..], reader, writer)
    }

    ghost predicate Valid()
      reads this, data
    {
      View().Ok()
    }

    ghost function Contents(): seq<Byte>
      reads this, data
      requires Valid()
    {
      View().Readable()
    }

    constructor (initialSize: nat := INITIAL_SIZE)
      ensures Valid() && fresh(data)
      ensures View() == Fresh(initialSize)
      ensures Contents() == []
    {
      data := new Byte[CHEAP_PREPEND + initialSize](_ => 0);
      reader := CHEAP_PREPEND;
      writer := CHEAP_PREPEND;
    }

    method ReadableBytes() returns (n: nat)
      requires Valid()
      ensures n == |Contents()|
    {
      n := writer - reader;
    }

    method WritableBytes() returns (n: nat)
      requires Valid()
      ensures n == View().Writable()
    {
      n := data.Length - writer;
    }

    method Grow(len: nat)
      requires Valid() && data.Length <= writer + len
      modifies this`data
      ensures fresh(data) && data[..] == old(data[..]) + Zeros(writer + len - old(data.Length))
    {
      var grown := new Byte[writer + len](_ => 0);
      forall i | 0 <= i < data.Length {
        grown[i] := data[i];
      }
      data := grown;
    }

    /** The readable bytes move to the front. */
    method Compact()
      requires Valid() && CHEAP_PREPEND < reader
      modifies this`reader, this`writer, data
      ensures var n := |old(Contents())|;
        && reader == CHEAP_PREPEND && writer == CHEAP_PREPEND + n
        && data[..] == old(data[..CHEAP_PREPEND] + Contents() + data[CHEAP_PREPEND + |Contents()|..])
    {
      var readable := writer - reader;
      CopyLeft(data, reader, CHEAP_PREPEND, readable);
      reader := CHEAP_PREPEND;
      writer := reader + readable;
    }

    method MakeSpace(len: nat)
      requires Valid() && View().Writable() < len
      modifies this, data
      ensures data == old(data) || fresh(data)
      ensures View() == SpaceMade(old(View()), len)
      ensures Valid() && Contents() == old(Contents()) && len <= View().Writable()
    {
      MakeSpaceOk(View(), len);
      if (data.Length - writer) + reader < len + CHEAP_PREPEND {
        Grow(len);
      } else {
        Compact();
      }
    }

    method EnsureWritableBytes(len: nat)
      requires Valid()
      modifies this, data
      ensures data == old(data) || fresh(data)
      ensures View() == EnsureWritable(old(View()), len)
      ensures Valid() && Contents() == old(Contents()) && len <= View().Writable()
    {
      var writable := WritableBytes();
      if writable < len {
        MakeSpace(len);
      }
    }

    /** std::copy to BeginWrite() followed by HasWritten(). */
    method Write(bytes: seq<Byte>)
      requires Valid() && |bytes| <= View().Writable()
      modifies this, data
      ensures data == old(data)
      ensures View() == Fill(old(View()), bytes)
      ensures Valid() && Contents() == old(Contents()) + bytes
    {
      ghost var before := View();
      FillOk(before, bytes);
      forall i | 0 <= i < |bytes| {
        data[writer + i] := bytes[i];
      }
      writer := writer + |bytes|;
      assert data[..] == Fill(before, bytes).store;
    }

    method Append(bytes: seq<Byte>)
      requires Valid()
      modifies this, data
      ensures data == old(data) || fresh(data)
      ensures View() == Apply(Op.Append(bytes), old(View()))
      ensures Valid() && Contents() == old(Contents()) + bytes
    {
      EnsureWritableBytes(|bytes|);
      Write(bytes);
    }

    method Prepend(bytes: seq<Byte>)
      requires Valid() && |bytes| <= reader
      modifies this, data
      ensures data == old(data)
      ensures View() == Apply(Op.Prepend(bytes), old(View()))
      ensures Valid() && Contents() == bytes + old(Contents())
    {
      ghost var before := View();
      ApplyRefines(Op.Prepend(bytes), before);
      reader := reader - |bytes|;
      forall i | 0 <= i < |bytes| {
        data[reader + i] := bytes[i];
      }
      assert data[..] == Apply(Op.Prepend(bytes), before).store;
    }

    method RetrieveAll()
      requires Valid()
      modifies this
      ensures data == old(data)
      ensures View() == Apply(Op.Retrieve(|old(Contents())|), old(View()))
      ensures Valid() && Contents() == [] && reader == writer == CHEAP_PREPEND
    {
      reader := CHEAP_PREPEND;
      writer := CHEAP_PREPEND;
    }

    method Retrieve(len: nat)
      requires Valid() && len <= |Contents()|
      modifies this
      ensures data == old(data)
      ensures View() == Apply(Op.Retrieve(len), old(View()))
      ensures Valid() && Contents() == old(Contents())[len..]
    {
      ghost var before := View();
      ApplyRefines(Op.Retrieve(len), before);
      if len < writer - reader {
        reader := reader + len;
      } else {
        RetrieveAll();
      }
    }

    method Unwrite(len: nat)
      requires Valid() && len <= |Contents()|
      modifies this
      ensures data == old(data)
      ensures View() == Apply(Op.Unwrite(len), old(View()))
      ensures Valid() && Contents() == old(Contents())[..|old(Contents())| - len]
    {
      UnwriteOk(View(), len);
      writer := writer - len;
    }

    method Shrink(reserve: nat)
      requires Valid()
      modifies this
      ensures fresh(data)
      ensures View() == Apply(Op.Shrink(reserve), old(View()))
      ensures Valid() && Contents() == old(Contents())
    {
      hide SpaceMade, Fill, Zeros;
      ApplyRefines(Op.Shrink(reserve), View());
      var readable := data[reader..writer];
      var other := new Buffer();
      other.EnsureWritableBytes(|readable| + reserve);
      other.Append(readable);
      data, reader, writer := other.data, other.reader, other.writer;
    }

    /** `result` is what readv delivers: nothing on an error, and otherwise at most what fits in the
        writable area and, when that is small, the extra area. */
    method ReadFd(result: Readv) returns (n: int, savedErrno: int)
      requires Valid()
      requires result.Got? ==> |result.bytes| <= ReadLimit(View())
      modifies this, data
      ensures data == old(data) || fresh(data)
      ensures result.Failed? ==> n == -1 && savedErrno == result.errno && View() == old(View())
      ensures result.Got? ==> n == |result.bytes| && savedErrno == 0
      ensures result.Got? ==> View() == Apply(Op.ReadFd(result.bytes), old(View()))
      ensures result.Got? ==> Valid() && Contents() == old(Contents()) + result.bytes
    {
      savedErrno := 0;
      match result {
        case Failed(errno) =>
          n, savedErrno := -1, errno;
        case Got(bytes) =>
          n := |bytes|;
          ReadInOk(View(), bytes);
          var writable := data.Length - writer;
          if |bytes| <= writable {
            Write(bytes);
          } else {
            Write(bytes[..writable]);
            Append(bytes[writable..]);
          }
      }
    }
  }
}
