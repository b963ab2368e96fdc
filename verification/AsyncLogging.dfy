/** The asynchronous log backend of src/log/AsynLogBackend.cc.

    Producers fill `current` under a mutex; one backend thread swaps the full buffers out, writes them
    and recycles two of them as spares. A step is one critical section, or a stretch of backend work
    on its own locals; `Run` takes any schedule of steps whatsoever, and a step that is not possible
    when its turn comes does nothing. An assert of the source that fails makes the run `None`. */
module AsyncLogging {
  import opened Common

  type Line = string

  const LARGE_SIZE: nat := 1024000
  const MAX_BATCH: nat := 25

  /** A SizedBuffer: its bytes decide everything; `lines` records which messages they came from. */
  datatype Buf = Buf(bytes: string, lines: seq<Line>) {
    predicate Fits(line: Line) {
      |bytes| + |line| < LARGE_SIZE
    }

    /** SizedBuffer::Append: the whole message or nothing. */
    function Put(line: Line): Buf {
      if Fits(line) then Buf(bytes + line, lines + [line]) else this
    }
  }

  const EMPTY := Buf("", [])

  datatype Chunk = Data(buf: Buf) | Notice(dropped: nat)

  datatype At = Head | Taken | Writing(done: nat)

  datatype State = State(
    // shared, under the mutex
    current: Buf, next: Option<Buf>, buffers: seq<Buf>,
    // locals of the backend thread, its program point and the log file
    new1: Option<Buf>, new2: Option<Buf>, toWrite: seq<Buf>, at: At, out: seq<Chunk>,
    // history: messages accepted, batches finished, the batch in hand as it was taken
    accepted: seq<Line>, finished: seq<seq<Buf>>, batch: seq<Buf>)

  const START := State(EMPTY, Some(EMPTY), [], Some(EMPTY), Some(EMPTY), [], Head, [], [], [], [])

  datatype Event = Append(line: Line) | Take | Shed | WriteNext | Recycle

  predicate Enabled(e: Event, s: State) {
    match e
    case Append(_) => true
    case Take => s.at.Head?
    case Shed => s.at.Taken?
    case WriteNext => s.at.Writing? && s.at.done < |s.toWrite|
    case Recycle => s.at == Writing(|s.toWrite|)
  }

  /** buffersToWrite after resize(2). */
  function FirstTwo(bs: seq<Buf>): seq<Buf> {
    if |bs| <= 2 then bs else bs[..2]
  }

  /** The asserts of the backend loop at the step about to be made. */
  predicate AssertsHold(e: Event, s: State) {
    match e
    case Take =>
      && s.new1.Some? && s.new1.value.bytes == ""
      && s.new2.Some? && s.new2.value.bytes == ""
      && s.toWrite == []
    case Shed => s.toWrite != []
    case Recycle => (if s.new1.None? then 1 else 0) + (if s.new2.None? then 1 else 0) <= |FirstTwo(s.toWrite)|
    case _ => true
  }

  function Appended(s: State, line: Line): State {
    var t := s.(accepted := if |line| < LARGE_SIZE then s.accepted + [line] else s.accepted);
    if s.current.Fits(line) then
      t.(current := s.current.Put(line))
    else
      t.(buffers := s.buffers + [s.current],
         current := (if s.next.Some? then s.next.value else EMPTY).Put(line),
         next := None)
  }

  function Chunks(bs: seq<Buf>): (cs: seq<Chunk>)
    ensures |cs| == |bs|
  {
    seq(|bs|, i requires 0 <= i < |bs| => Data(bs[i]))
  }

  /** A spare that went missing is replaced by a buffer that was written, emptied. */
  function Refilled(spare: Option<Buf>): Option<Buf> {
    if spare.None? then Some(EMPTY) else spare
  }

  function Step(e: Event, s: State): State
    requires Enabled(e, s) && AssertsHold(e, s)
  {
    match e
    case Append(line) => Appended(s, line)
    case Take =>
      var all := s.buffers + [s.current];
      s.(current := s.new1.value, new1 := None, buffers := [], toWrite := all, batch := all, at := Taken,
         next := if s.next.None? then s.new2 else s.next,
         new2 := if s.next.None? then None else s.new2)
    case Shed =>
      if MAX_BATCH < |s.toWrite| then
        s.(out := s.out + [Notice(|s.toWrite| - 2)], toWrite := s.toWrite[..2], at := Writing(0))
      else
        s.(at := Writing(0))
    case WriteNext => s.(out := s.out + [Data(s.toWrite[s.at.done])], at := Writing(s.at.done + 1))
    case Recycle =>
      s.(new1 := Refilled(s.new1), new2 := Refilled(s.new2), toWrite := [], at := Head,
         finished := s.finished + [s.batch], batch := [])
  }

  function Run(es: seq<Event>, s: State): Option<State> {
    if es == [] then Some(s)
    else if !Enabled(es[0], s) then Run(es[1..], s)
    else if !AssertsHold(es[0], s) then None
    else Run(es[1..], Step(es[0], s))
  }

  // ----- what the log file should hold -----

  function Flat(lines: seq<Line>): string {
    if lines == [] then "" else Flat(lines[..|lines| - 1]) + lines[|lines| - 1]
  }

  function Lines(bs: seq<Buf>): seq<Line> {
    if bs == [] then [] else Lines(bs[..|bs| - 1]) + bs[|bs| - 1].lines
  }

  function AllLines(batches: seq<seq<Buf>>): seq<Line> {
    if batches == [] then [] else AllLines(batches[..|batches| - 1]) + Lines(batches[|batches| - 1])
  }

  /** The part of a batch that is written: all of it, or the first two buffers of an oversize one. */
  function Kept(batch: seq<Buf>): seq<Buf> {
    if MAX_BATCH < |batch| then batch[..2] else batch
  }

  function AllKept(batches: seq<seq<Buf>>): seq<Line> {
    if batches == [] then [] else AllKept(batches[..|batches| - 1]) + Lines(Kept(batches[|batches| - 1]))
  }

  /** The messages and the bytes in the log file, notices left aside. */
  function Written(out: seq<Chunk>): seq<Line> {
    if out == [] then []
    else Written(out[..|out| - 1]) + (if out[|out| - 1].Data? then out[|out| - 1].buf.lines else [])
  }

  function WrittenBytes(out: seq<Chunk>): string {
    if out == [] then ""
    else WrittenBytes(out[..|out| - 1]) + (if out[|out| - 1].Data? then out[|out| - 1].buf.bytes else "")
  }

  function Notices(out: seq<Chunk>): seq<nat> {
    if out == [] then []
    else Notices(out[..|out| - 1]) + (if out[|out| - 1].Notice? then [out[|out| - 1].dropped] else [])
  }

  /** One notice for each oversize batch, with the number of buffers it lost. */
  function Losses(batches: seq<seq<Buf>>): seq<nat> {
    if batches == [] then []
    else Losses(batches[..|batches| - 1]) +
         (if MAX_BATCH < |batches[|batches| - 1]| then [|batches[|batches| - 1]| - 2] else [])
  }

  /** A buffer holds whole messages and nothing else. */
  predicate Whole(b: Buf) {
    b.bytes == Flat(b.lines) && |b.bytes| < LARGE_SIZE
  }

  predicate AllWhole(bs: seq<Buf>) {
    forall i :: 0 <= i < |bs| ==> Whole(bs[i])
  }

  // ----- the invariant -----

  /** Where the spares are; this is what the asserts of the backend depend on. */
  predicate Spares(s: State) {
    && (s.next.Some? ==> s.next.value == EMPTY)
    && (s.next.None? ==> s.buffers != [])
    && (s.new1.Some? ==> s.new1.value == EMPTY)
    && (s.new2.Some? ==> s.new2.value == EMPTY)
    && (s.at.Head? ==> s.new1.Some? && s.new2.Some? && s.toWrite == [] && s.batch == [])
    && (!s.at.Head? ==> s.new1.None? && s.batch != [] && (s.new2.None? ==> 2 <= |s.batch|))
    && (s.at.Taken? ==> s.toWrite == s.batch)
    && (s.at.Writing? ==> s.toWrite == Kept(s.batch) && s.at.done <= |s.toWrite|)
  }

  /** Every accepted message is accounted for, in order. */
  predicate Accounted(s: State) {
    AllLines(s.finished) + Lines(s.batch) + Lines(s.buffers) + s.current.lines == s.accepted
  }

  /** The file holds these messages, whole, and these notices. */
  predicate Holds(out: seq<Chunk>, lines: seq<Line>, losses: seq<nat>) {
    Written(out) == lines && WrittenBytes(out) == Flat(lines) && Notices(out) == losses
  }

  /** The file holds the kept part of every batch taken, and a notice for every batch cut short. */
  predicate InFile(s: State) {
    if s.at.Writing? then
      && s.at.done <= |s.toWrite|
      && Holds(s.out, AllKept(s.finished) + Lines(s.toWrite[..s.at.done]), Losses(s.finished + [s.batch]))
    else
      Holds(s.out, AllKept(s.finished), Losses(s.finished))
  }

  predicate Inv(s: State) {
    && Spares(s)
    && Accounted(s)
    && AllWhole(s.buffers) && AllWhole(s.batch) && Whole(s.current)
    && InFile(s)
  }

  /** The whereabouts of the spares alone keep every assert of the backend true. */
  lemma SparesKept(e: Event, s: State)
    requires Spares(s) && Enabled(e, s)
    ensures AssertsHold(e, s) && Spares(Step(e, s))
  {
  }

  lemma LinesAppend(bs: seq<Buf>, b: Buf)
    ensures Lines(bs + [b]) == Lines(bs) + b.lines
  {
    assert (bs + [b])[..|bs|] == bs;
  }

  lemma FlatAppend(ls: seq<Line>, l: Line)
    ensures Flat(ls + [l]) == Flat(ls) + l
  {
    assert (ls + [l])[..|ls|] == ls;
  }

  lemma ConcatAssociative<T>(a: seq<T>, b: seq<T>, c: seq<T>)
    ensures (a + b) + c == a + (b + c)
  {
  }

  lemma {:induction false} FlatConcat(a: seq<Line>, b: seq<Line>)
    ensures Flat(a + b) == Flat(a) + Flat(b)
  {
    if b == [] {
      assert a + b == a;
    } else {
      var m := b[..|b| - 1];
      assert a + b == (a + m) + [b[|b| - 1]];
      FlatAppend(a + m, b[|b| - 1]);
      FlatConcat(a, m);
      ConcatAssociative(Flat(a), Flat(m), b[|b| - 1]);
    }
  }

  lemma PutWhole(b: Buf, line: Line)
    requires Whole(b)
    ensures Whole(b.Put(line))
  {
    FlatAppend(b.lines, line);
  }

  lemma AppendAccounted(s: State, line: Line)
    requires Spares(s) && Accounted(s)
    ensures Accounted(Appended(s, line))
  {
    var t := Appended(s, line);
    var before := AllLines(s.finished) + Lines(s.batch);
    if s.current.Fits(line) {
      assert t.current.lines == s.current.lines + [line];
      assert before + Lines(s.buffers) + t.current.lines == before + Lines(s.buffers) + s.current.lines + [line];
    } else {
      LinesAppend(s.buffers, s.current);
      assert before + (Lines(s.buffers) + s.current.lines) == before + Lines(s.buffers) + s.current.lines;
      assert t.current.lines == if |line| < LARGE_SIZE then [line] else [];
    }
  }

  lemma AppendWhole(s: State, line: Line)
    requires Spares(s) && AllWhole(s.buffers) && Whole(s.current)
    ensures AllWhole(Appended(s, line).buffers) && Whole(Appended(s, line).current)
  {
    PutWhole(s.current, line);
    PutWhole(EMPTY, line);
  }

  lemma OutAppend(out: seq<Chunk>, c: Chunk)
    ensures Written(out + [c]) == Written(out) + if c.Data? then c.buf.lines else []
    ensures WrittenBytes(out + [c]) == WrittenBytes(out) + if c.Data? then c.buf.bytes else ""
    ensures Notices(out + [c]) == Notices(out) + if c.Notice? then [c.dropped] else []
  {
    assert (out + [c])[..|out|] == out;
  }

  lemma NoticeHeld(out: seq<Chunk>, lines: seq<Line>, losses: seq<nat>, n: nat)
    requires Holds(out, lines, losses)
    ensures Holds(out + [Notice(n)], lines, losses + [n])
  {
    OutAppend(out, Notice(n));
  }

  lemma DataHeld(out: seq<Chunk>, lines: seq<Line>, losses: seq<nat>, b: Buf)
    requires Holds(out, lines, losses) && Whole(b)
    ensures Holds(out + [Data(b)], lines + b.lines, losses)
  {
    OutAppend(out, Data(b));
    FlatConcat(lines, b.lines);
  }

  lemma TakeAccounted(s: State)
    requires Spares(s) && Accounted(s) && s.at.Head?
    ensures Accounted(Step(Take, s))
  {
    LinesAppend(s.buffers, s.current);
    var all := s.buffers + [s.current];
    assert AllLines(s.finished) + [] + Lines(s.buffers) + s.current.lines == AllLines(s.finished) + Lines(all);
    assert AllLines(s.finished) + Lines(all) + [] + [] == AllLines(s.finished) + Lines(all);
  }

  lemma LossesAppend(batches: seq<seq<Buf>>, b: seq<Buf>)
    ensures Losses(batches + [b]) == Losses(batches) + if MAX_BATCH < |b| then [|b| - 2] else []
  {
    assert (batches + [b])[..|batches|] == batches;
  }

  lemma ShedInFile(s: State)
    requires Spares(s) && InFile(s) && s.at.Taken?
    ensures InFile(Step(Shed, s))
  {
    hide Written, WrittenBytes, Notices, Flat, AllKept, Holds;
    LossesAppend(s.finished, s.batch);
    var t := Step(Shed, s);
    assert AllKept(s.finished) + Lines(t.toWrite[..0]) == AllKept(s.finished);
    if MAX_BATCH < |s.toWrite| {
      NoticeHeld(s.out, AllKept(s.finished), Losses(s.finished), |s.toWrite| - 2);
    } else {
      assert Losses(s.finished) + [] == Losses(s.finished);
    }
  }

  lemma WriteInFile(s: State)
    requires Enabled(WriteNext, s) && InFile(s) && Whole(s.toWrite[s.at.done])
    ensures InFile(Step(WriteNext, s))
  {
    var b, done := s.toWrite[s.at.done], s.toWrite[..s.at.done];
    DataHeld(s.out, AllKept(s.finished) + Lines(done), Losses(s.finished + [s.batch]), b);
    assert s.toWrite[..s.at.done + 1] == done + [b];
    LinesAppend(done, b);
    ConcatAssociative(AllKept(s.finished), Lines(done), b.lines);
  }

  lemma RecycleInFile(s: State)
    requires Inv(s) && Enabled(Recycle, s) && AssertsHold(Recycle, s)
    ensures InFile(Step(Recycle, s)) && Accounted(Step(Recycle, s))
  {
    var t := Step(Recycle, s);
    assert t.finished[..|s.finished|] == s.finished;
    assert s.toWrite[..s.at.done] == Kept(s.batch);
    assert AllLines(t.finished) == AllLines(s.finished) + Lines(s.batch);
    assert AllLines(t.finished) + [] == AllLines(t.finished);
  }

  /** What is in the file depends on nothing that producers change. */
  lemma SameFile(s: State, t: State)
    requires InFile(s)
    requires t.out == s.out && t.finished == s.finished && t.batch == s.batch && t.toWrite == s.toWrite && t.at == s.at
    ensures InFile(t)
  {
  }

  lemma AppendKeeps(s: State, line: Line)
    requires Inv(s)
    ensures Inv(Appended(s, line))
  {
    SparesKept(Append(line), s);
    AppendAccounted(s, line);
    AppendWhole(s, line);
    SameFile(s, Appended(s, line));
  }

  lemma TakeKeeps(s: State)
    requires Inv(s) && s.at.Head? && AssertsHold(Take, s)
    ensures Inv(Step(Take, s))
  {
    SparesKept(Take, s);
    TakeAccounted(s);
  }

  lemma ShedKeeps(s: State)
    requires Inv(s) && s.at.Taken? && AssertsHold(Shed, s)
    ensures Inv(Step(Shed, s))
  {
    SparesKept(Shed, s);
    ShedInFile(s);
  }

  lemma WriteKeeps(s: State)
    requires Inv(s) && Enabled(WriteNext, s)
    ensures Inv(Step(WriteNext, s))
  {
    SparesKept(WriteNext, s);
    WriteInFile(s);
  }

  lemma RecycleKeeps(s: State)
    requires Inv(s) && Enabled(Recycle, s) && AssertsHold(Recycle, s)
    ensures Inv(Step(Recycle, s))
  {
    SparesKept(Recycle, s);
    RecycleInFile(s);
  }

  lemma StepKeeps(e: Event, s: State)
    requires Inv(s) && Enabled(e, s)
    ensures AssertsHold(e, s) && Inv(Step(e, s))
  {
    SparesKept(e, s);
    match e
    case Append(line) => AppendKeeps(s, line);
    case Take => TakeKeeps(s);
    case Shed => ShedKeeps(s);
    case WriteNext => WriteKeeps(s);
    case Recycle => RecycleKeeps(s);
  }

  /** Spares never run out: under every schedule of producers and backend no assert of the backend
      ever fails, and the invariant holds throughout. */
  lemma {:induction false} EveryScheduleIsSafe(es: seq<Event>, s: State)
    requires Inv(s)
    ensures Run(es, s).Some? && Inv(Run(es, s).value)
  {
    if es != [] {
      if Enabled(es[0], s) {
        StepKeeps(es[0], s);
        EveryScheduleIsSafe(es[1..], Step(es[0], s));
      } else {
        EveryScheduleIsSafe(es[1..], s);
      }
    }
  }

  lemma StartIsFine()
    ensures Inv(START)
  {
  }

  // ----- conservation and loss -----

  lemma {:induction false} LinesConcat(a: seq<Buf>, b: seq<Buf>)
    ensures Lines(a + b) == Lines(a) + Lines(b)
  {
    if b == [] {
      assert a + b == a;
    } else {
      var m := b[..|b| - 1];
      assert a + b == (a + m) + [b[|b| - 1]];
      LinesAppend(a + m, b[|b| - 1]);
      LinesConcat(a, m);
      ConcatAssociative(Lines(a), Lines(m), b[|b| - 1].lines);
    }
  }

  lemma {:induction false} NothingCut(batches: seq<seq<Buf>>)
    requires forall i :: 0 <= i < |batches| ==> |batches[i]| <= MAX_BATCH
    ensures AllKept(batches) == AllLines(batches)
  {
    if batches != [] {
      NothingCut(batches[..|batches| - 1]);
    }
  }

  /** What the backend has taken but not written yet. */
  function Unwritten(s: State): seq<Buf> {
    if s.at.Writing? && s.at.done <= |s.toWrite| then s.toWrite[s.at.done..] else s.toWrite
  }

  predicate NoneShed(s: State) {
    (forall i :: 0 <= i < |s.finished| ==> |s.finished[i]| <= MAX_BATCH) && |s.batch| <= MAX_BATCH
  }

  lemma NothingMissing(s: State)
    requires Spares(s) && Accounted(s) && InFile(s) && NoneShed(s)
    ensures Written(s.out) + Lines(Unwritten(s)) + Lines(s.buffers) + s.current.lines == s.accepted
  {
    NothingCut(s.finished);
    if s.at.Writing? {
      var k := s.at.done;
      assert s.batch == s.toWrite[..k] + s.toWrite[k..];
      LinesConcat(s.toWrite[..k], s.toWrite[k..]);
      ConcatAssociative(AllLines(s.finished), Lines(s.toWrite[..k]), Lines(s.toWrite[k..]));
    } else {
      assert AllLines(s.finished) + [] == AllLines(s.finished);
    }
  }

  lemma UnwrittenWhole(s: State)
    requires Spares(s) && AllWhole(s.batch) && NoneShed(s)
    ensures AllWhole(Unwritten(s))
  {
  }

  /** Log conservation: at every point of every schedule in which no batch exceeds 25 buffers, what is
      in the file, what the backend still has to write, the full buffers and the current buffer are
      together exactly the accepted messages in order, and every buffer holds whole messages. */
  lemma Conservation(es: seq<Event>)
    ensures Run(es, START).Some?
    ensures var s := Run(es, START).value;
      NoneShed(s) ==>
        && Written(s.out) + Lines(Unwritten(s)) + Lines(s.buffers) + s.current.lines == s.accepted
        && WrittenBytes(s.out) == Flat(Written(s.out))
        && AllWhole(Unwritten(s)) && AllWhole(s.buffers) && Whole(s.current)
  {
    EveryScheduleIsSafe(es, START);
    var s := Run(es, START).value;
    if NoneShed(s) {
      NothingMissing(s);
      UnwrittenWhole(s);
    }
  }

  /** What an overload costs: between batches the file holds exactly the first two buffers of every
      oversize batch and all of every other batch, with one notice per oversize batch naming the number
      of buffers lost, and the batches together with what is still buffered are all accepted messages. */
  lemma LossIsExact(es: seq<Event>)
    ensures Run(es, START).Some?
    ensures var s := Run(es, START).value;
      s.at.Head? ==>
        && Written(s.out) == AllKept(s.finished)
        && Notices(s.out) == Losses(s.finished)
        && AllLines(s.finished) + Lines(s.buffers) + s.current.lines == s.accepted
  {
    EveryScheduleIsSafe(es, START);
    var s := Run(es, START).value;
    assert AllKept(s.finished) + [] == AllKept(s.finished);
    assert AllLines(s.finished) + [] == AllLines(s.finished);
  }

  ghost predicate Picks<T>(at: seq<nat>, a: seq<T>, b: seq<T>) {
    && |at| == |a|
    && (forall i :: 0 <= i < |at| ==> at[i] < |b| && b[at[i]] == a[i])
    && (forall i, j :: 0 <= i < j < |at| ==> at[i] < at[j])
  }

  /** `a` is `b` with some elements left out. */
  ghost predicate Subsequence<T(!new)>(a: seq<T>, b: seq<T>) {
    exists at: seq<nat> :: Picks(at, a, b)
  }

  lemma SubsequenceConcat<T(!new)>(a: seq<T>, b: seq<T>, c: seq<T>, d: seq<T>)
    requires Subsequence(a, b) && Subsequence(c, d)
    ensures Subsequence(a + c, b + d)
  {
    var p: seq<nat> :| Picks(p, a, b);
    var q: seq<nat> :| Picks(q, c, d);
    var r: seq<nat> := seq(|p| + |q|, i requires 0 <= i < |p| + |q| => if i < |p| then p[i] else q[i - |p|] + |b|);
    assert Picks(r, a + c, b + d);
  }

  lemma SubsequenceSelf<T(!new)>(a: seq<T>, b: seq<T>)
    ensures Subsequence(a, a + b)
  {
    var r: seq<nat> := seq(|a|, i => i);
    assert Picks(r, a, a + b);
  }

  lemma KeptLines(batch: seq<Buf>)
    ensures Subsequence(Lines(Kept(batch)), Lines(batch))
  {
    if MAX_BATCH < |batch| {
      assert batch == batch[..2] + batch[2..];
      LinesConcat(batch[..2], batch[2..]);
      SubsequenceSelf(Lines(batch[..2]), Lines(batch[2..]));
    } else {
      SubsequenceSelf(Lines(batch), []);
      assert Lines(batch) + [] == Lines(batch);
    }
  }

  lemma {:induction false} AllKeptLines(batches: seq<seq<Buf>>)
    ensures Subsequence(AllKept(batches), AllLines(batches))
  {
    if batches == [] {
      SubsequenceSelf<Line>([], []);
      assert AllKept(batches) == [] && AllLines(batches) == [] + [];
    } else {
      AllKeptLines(batches[..|batches| - 1]);
      KeptLines(batches[|batches| - 1]);
      SubsequenceConcat(AllKept(batches[..|batches| - 1]), AllLines(batches[..|batches| - 1]),
                        Lines(Kept(batches[|batches| - 1])), Lines(batches[|batches| - 1]));
    }
  }

  lemma SubsequenceExtend<T(!new)>(a: seq<T>, b: seq<T>, c: seq<T>)
    requires Subsequence(a, b)
    ensures Subsequence(a, b + c)
  {
    var p: seq<nat> :| Picks(p, a, b);
    assert Picks(p, a, b + c);
  }

  lemma BatchPart(s: State)
    requires Inv(s)
    ensures Subsequence(if s.at.Writing? then Lines(s.toWrite[..s.at.done]) else [], Lines(s.batch))
  {
    if s.at.Writing? {
      var k := s.at.done;
      assert s.batch[..k] == s.toWrite[..k];
      assert s.batch == s.batch[..k] + s.batch[k..];
      LinesConcat(s.batch[..k], s.batch[k..]);
      SubsequenceSelf(Lines(s.batch[..k]), Lines(s.batch[k..]));
    } else {
      SubsequenceSelf<Line>([], Lines(s.batch));
      assert [] + Lines(s.batch) == Lines(s.batch);
    }
  }

  lemma FileLines(s: State)
    requires Inv(s)
    ensures Subsequence(Written(s.out), AllLines(s.finished) + Lines(s.batch))
  {
    AllKeptLines(s.finished);
    BatchPart(s);
    var part := if s.at.Writing? then Lines(s.toWrite[..s.at.done]) else [];
    SubsequenceConcat(AllKept(s.finished), AllLines(s.finished), part, Lines(s.batch));
    assert AllKept(s.finished) + [] == AllKept(s.finished);
  }

  /** Overload or not, at every point of every schedule the messages in the file are some of the
      accepted messages, whole and in order. */
  lemma FileIsSubsequence(es: seq<Event>)
    ensures Run(es, START).Some?
    ensures Subsequence(Written(Run(es, START).value.out), Run(es, START).value.accepted)
    ensures WrittenBytes(Run(es, START).value.out) == Flat(Written(Run(es, START).value.out))
  {
    EveryScheduleIsSafe(es, START);
    var s := Run(es, START).value;
    FileLines(s);
    var inFile := AllLines(s.finished) + Lines(s.batch);
    SubsequenceExtend(Written(s.out), inFile, Lines(s.buffers));
    SubsequenceExtend(Written(s.out), inFile + Lines(s.buffers), s.current.lines);
  }

  /** What Append does for a message: it joins what the two shared places hold if and only if it is
      shorter than a whole buffer. A longer one is lost without a notice, and still moves the current
      buffer out as if it were full. */
  lemma HeldIff(s: State, line: Line)
    requires Inv(s)
    ensures var t, held := Appended(s, line), Lines(s.buffers) + s.current.lines;
      && (Lines(t.buffers) + t.current.lines == held + [line] <==> |line| < LARGE_SIZE)
      && (LARGE_SIZE <= |line| ==>
            Lines(t.buffers) + t.current.lines == held && t.buffers == s.buffers + [s.current] && t.current == EMPTY)
  {
    LinesAppend(s.buffers, s.current);
    if !s.current.Fits(line) {
      assert (Lines(s.buffers) + s.current.lines) + [] == Lines(s.buffers) + s.current.lines;
    } else {
      assert Lines(s.buffers) + (s.current.lines + [line]) == Lines(s.buffers) + s.current.lines + [line];
    }
  }

  /** The current buffer is moved out if and only if the message does not fit behind what it holds; then
      the message begins the next buffer, which is the spare if there is one. */
  lemma MovedOutIff(s: State, line: Line)
    requires Inv(s)
    ensures var t, full := Appended(s, line), LARGE_SIZE <= |s.current.bytes| + |line|;
      && t.buffers == (if full then s.buffers + [s.current] else s.buffers)
      && t.next == (if full then None else s.next)
      && t.current.lines == if !full then s.current.lines + [line] else if |line| < LARGE_SIZE then [line] else []
  {
  }

  /** The critical section of the backend takes every message that producers have handed over, and leaves
      them an empty buffer and a spare. */
  lemma TakeTakesAll(s: State)
    requires Inv(s) && s.at.Head?
    ensures AssertsHold(Take, s)
    ensures var t := Step(Take, s);
      && Lines(t.toWrite) == Lines(s.buffers) + s.current.lines && t.batch == t.toWrite
      && t.buffers == [] && t.current == EMPTY && t.next == Some(EMPTY)
  {
    SparesKept(Take, s);
    LinesAppend(s.buffers, s.current);
  }

  /** Such a message after a short one: only the short one is held, in a buffer on its way to the file. */
  lemma OversizeIsLost()
    ensures var line := seq(LARGE_SIZE, i => 'x');
      var r := Run([Append("a"), Append(line)], START);
      && r.Some? && r.value.accepted == ["a"] && r.value.buffers == [Buf("a", ["a"])] && r.value.current == EMPTY
  {
    var line := seq(LARGE_SIZE, i => 'x');
    var s := Appended(START, "a");
    assert s.current == Buf("a", ["a"]);
    assert [Append("a"), Append(line)][1..] == [Append(line)];
    assert [Append(line)][1..] == [];
    assert Run([Append(line)], s) == Run([], Appended(s, line));
  }

  // ----- the class -----

  lemma {:induction false} RunMore(es: seq<Event>, s: State, e: Event)
    requires Run(es, s).Some? && Enabled(e, Run(es, s).value) && AssertsHold(e, Run(es, s).value)
    ensures Run(es + [e], s) == Some(Step(e, Run(es, s).value))
  {
    if es == [] {
      assert (es + [e])[1..] == [];
    } else {
      assert (es + [e])[0] == es[0] && (es + [e])[1..] == es[1..] + [e];
      RunMore(es[1..], if Enabled(es[0], s) then Step(es[0], s) else s, e);
    }
  }

  class AsyncLogging {
    // a unique_ptr is None once it has been moved from
    var current: Option<Buf>
    var next: Option<Buf>
    var buffers: seq<Buf>
    var out: seq<Chunk>
    // locals of ThreadFunction
    var new1: Option<Buf>
    var new2: Option<Buf>
    var toWrite: seq<Buf>
    var at: At
    ghost var accepted: seq<Line>
    ghost var finished: seq<seq<Buf>>
    ghost var batch: seq<Buf>
    ghost var trace: seq<Event>

    ghost function View(): State
      reads this
      requires current.Some?
    {
      State(current.value, next, buffers, new1, new2, toWrite, at, out, accepted, finished, batch)
    }

    /** The steps taken since construction have led here. */
    ghost predicate Traced()
      reads this
    {
      current.Some? && Run(trace, START) == Some(View())
    }

    ghost predicate Valid()
      reads this
    {
      current.Some? && Spares(View())
    }

    constructor ()
      ensures Valid() && Traced() && View() == START
    {
      current, next, buffers, out := Some(EMPTY), Some(EMPTY), [], [];
      new1, new2, toWrite := Some(EMPTY), Some(EMPTY), [];
      at, accepted, finished, batch, trace := Head, [], [], [], [];
    }

    /** The body of Append, under the mutex. */
    method Put(line: Line)
      requires current.Some?
      modifies this`current, this`next, this`buffers, this`accepted
      ensures current.Some? && View() == Appended(old(View()), line)
    {
      if |line| < LARGE_SIZE {
        accepted := accepted + [line];
      }
      if LARGE_SIZE - |current.value.bytes| > |line| {
        current := Some(current.value.Put(line));
      } else {
        buffers := buffers + [current.value];
        current := None;
        if next.Some? {
          current := next;
          next := None;
        } else {
          current := Some(EMPTY);
        }
        current := Some(current.value.Put(line));
      }
    }

    method Append(line: Line)
      requires Valid() && Traced()
      modifies this`current, this`next, this`buffers, this`accepted, this`trace
      ensures Valid() && Traced() && View() == Step(Event.Append(line), old(View()))
    {
      ghost var was := View();
      SparesKept(Event.Append(line), was);
      RunMore(trace, START, Event.Append(line));
      Put(line);
      trace := trace + [Event.Append(line)];
    }

    /** The critical section of ThreadFunction. */
    method Swap()
      requires current.Some? && at.Head? && AssertsHold(Take, View())
      modifies this`current, this`next, this`buffers, this`new1, this`new2, this`toWrite, this`at, this`batch
      ensures current.Some? && View() == Step(Take, old(View()))
    {
      buffers := buffers + [current.value];
      current := new1;
      new1 := None;
      toWrite, buffers := buffers, toWrite;
      if next.None? {
        next := new2;
        new2 := None;
      }
      at, batch := Taken, toWrite;
    }

    method TakeBuffers()
      requires Valid() && Traced() && at.Head?
      modifies this
      ensures Valid() && Traced() && View() == Step(Take, old(View()))
    {
      SparesKept(Take, View());
      RunMore(trace, START, Take);
      Swap();
      trace := trace + [Take];
    }

    method ShedOverload()
      requires Valid() && Traced() && at.Taken?
      modifies this
      ensures Valid() && Traced() && View() == Step(Shed, old(View()))
    {
      SparesKept(Shed, View());
      RunMore(trace, START, Shed);
      if |toWrite| > MAX_BATCH {
        out := out + [Notice(|toWrite| - 2)];
        toWrite := toWrite[..2];
      }
      at, trace := Writing(0), trace + [Shed];
    }

    method WriteOne()
      requires Valid() && Traced() && Enabled(WriteNext, View())
      modifies this`out, this`at, this`trace
      ensures Valid() && Traced() && View() == Step(WriteNext, old(View()))
    {
      SparesKept(WriteNext, View());
      RunMore(trace, START, WriteNext);
      out := out + [Data(toWrite[at.done])];
      at, trace := Writing(at.done + 1), trace + [WriteNext];
    }

    /** What producers do between two steps of the backend. */
    method AppendAll(lines: seq<Line>)
      requires Valid() && Traced()
      modifies this`current, this`next, this`buffers, this`accepted, this`trace
      ensures Valid() && Traced()
    {
      for i := 0 to |lines|
        invariant Valid() && Traced()
      {
        Append(lines[i]);
      }
    }

    /** The write loop; `arrivals(i)` is what producers append while buffer number i is written. */
    method WriteBuffers(arrivals: nat -> seq<Line>)
      requires Valid() && Traced() && at == Writing(0)
      modifies this`out, this`at, this`current, this`next, this`buffers, this`accepted, this`trace
      ensures Valid() && Traced() && at == Writing(|toWrite|)
      ensures out == old(out) + Chunks(toWrite)
    {
      for i := 0 to |toWrite|
        invariant Valid() && Traced() && at == Writing(i)
        invariant out == old(out) + Chunks(toWrite)[..i]
      {
        WriteOne();
        assert Chunks(toWrite)[..i + 1] == Chunks(toWrite)[..i] + [Data(toWrite[i])];
        AppendAll(arrivals(i));
      }
      assert Chunks(toWrite)[..|toWrite|] == Chunks(toWrite);
    }

    /** Up to two of the written buffers become spares again, taken from the back; the rest is freed. */
    method Restock()
      requires current.Some? && AssertsHold(Recycle, View())
      modifies this`new1, this`new2, this`toWrite
      ensures new1 == Refilled(old(new1)) && new2 == Refilled(old(new2)) && toWrite == []
    {
      if |toWrite| > 2 {
        toWrite := toWrite[..2];
      }
      if new1.None? {
        assert toWrite != [];
        new1 := Some(EMPTY);
        toWrite := toWrite[..|toWrite| - 1];
      }
      if new2.None? {
        assert toWrite != [];
        new2 := Some(EMPTY);
        toWrite := toWrite[..|toWrite| - 1];
      }
      toWrite := [];
    }

    method RecycleBuffers()
      requires Valid() && Traced() && at == Writing(|toWrite|)
      modifies this
      ensures Valid() && Traced() && View() == Step(Recycle, old(View()))
    {
      SparesKept(Recycle, View());
      RunMore(trace, START, Recycle);
      Restock();
      at, finished, batch, trace := Head, finished + [batch], [], trace + [Recycle];
    }

    method Round(before: seq<Line>, between: seq<Line>, arrivals: nat -> seq<Line>)
      requires Valid() && Traced() && at.Head?
      modifies this
      ensures Valid() && Traced() && at.Head? && |finished| == |old(finished)| + 1
    {
      AppendAll(before);
      TakeBuffers();
      AppendAll(between);
      ShedOverload();
      WriteBuffers(arrivals);
      RecycleBuffers();
    }

    /** The backend loop, one round for each element of `rounds`, with what producers append before
        the critical section, before the overload check, and while each buffer is written. What is in
        the file at the end is what is to be kept of every batch taken. */
    method ThreadFunction(rounds: seq<(seq<Line>, seq<Line>, nat -> seq<Line>)>)
      requires Valid() && Traced() && at.Head?
      modifies this
      ensures Valid() && Traced() && at.Head? && toWrite == []
      ensures |finished| == |old(finished)| + |rounds|
      ensures Written(out) == AllKept(finished) && Notices(out) == Losses(finished)
      ensures AllLines(finished) + Lines(buffers) + current.value.lines == accepted
    {
      for i := 0 to |rounds|
        invariant Valid() && Traced() && at.Head?
        invariant |finished| == |old(finished)| + i
      {
        Round(rounds[i].0, rounds[i].1, rounds[i].2);
      }
      LossIsExact(trace);
    }
  }
}
