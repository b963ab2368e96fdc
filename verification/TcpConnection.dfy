/** The output path of src/network/TcpConnection.cc: direct writes, the output buffer, write interest,
    deferred half-close, and the write-complete and high-water notifications.

    The kernel is the sequence of bytes it has taken and the calls of shutdown it has seen; what a
    write returns is part of the event, and after a shutdown it returns EPIPE. Send and Shutdown may be
    called on any thread; what another thread hands to the loop waits in `posted`. `At` takes any
    schedule of events; an event that cannot happen when its turn comes does nothing. */
module TcpConnection {
  import opened Common
  import opened ConnBuffer

  datatype WriteResult =
    | Wrote(n: nat)
    | WouldBlock   // EWOULDBLOCK
    | PeerGone     // EPIPE or ECONNRESET
    | OtherError

  /** How far things were at some moment: bytes taken by the kernel, bytes accepted from the user. */
  datatype Mark = Mark(sent: nat, accepted: nat)

  /** Functors that other threads have queued on the connection's loop. */
  datatype Post = SendInLoop(msg: seq<Byte>) | ShutdownInLoop

  datatype Conn = Conn(
    life: Life,
    writing: bool,           // is write interest on?
    out: seq<Byte>,          // readable bytes of outputBuffer_
    highWaterMark: nat,
    wantsComplete: bool,     // is writeCompleteCallback_ set?
    wantsHighWater: bool,
    posted: seq<Post>,
    sent: seq<Byte>,         // bytes taken by the kernel
    shuts: seq<Mark>,        // one entry for each shutdown of the write side
    accepted: seq<seq<Byte>>,   // history: messages not dropped
    completes: seq<Mark>,    // history: write-complete callbacks queued
    highs: seq<nat>)         // history: high-water callbacks queued, with the backlog they report

  const HIGH_WATER_MARK: nat := 64 * 1024 * 1024

  function NewConn(wantsComplete: bool, wantsHighWater: bool): Conn {
    Conn(Connecting, false, [], HIGH_WATER_MARK, wantsComplete, wantsHighWater, [], [], [], [], [], [])
  }

  function Flat(msgs: seq<seq<Byte>>): seq<Byte> {
    if msgs == [] then [] else Flat(msgs[..|msgs| - 1]) + msgs[|msgs| - 1]
  }

  function Now(c: Conn): Mark {
    Mark(|c.sent|, |Flat(c.accepted)|)
  }

  datatype Event =
    | Establish
    | Send(msg: seq<Byte>, res: WriteResult)  // on the loop thread
    | ForeignSend(msg: seq<Byte>)             // on another thread
    | Shutdown                                // on the loop thread
    | ForeignShutdown                         // on another thread
    | RunPosted(res: WriteResult)             // the loop runs the next posted functor
    | Writable(res: WriteResult)
    | ForceClose
    | Close                                   // HandleClose
    | SetHighWaterMark(mark: nat)

  /** Is the message offered to the kernel straight away? */
  predicate Direct(c: Conn) {
    !c.writing && c.out == []
  }

  predicate KernelMay(res: WriteResult, offered: nat) {
    res.Wrote? ==> res.n <= offered
  }

  /** What a write of so many bytes can return now: nothing but EPIPE once the write side is shut. */
  predicate KernelReturns(c: Conn, res: WriteResult, offered: nat) {
    KernelMay(res, offered) && (c.shuts != [] ==> res.PeerGone?)
  }

  predicate Enabled(e: Event, c: Conn) {
    match e
    case Establish => c.life.Connecting?
    case Send(m, r) => KernelReturns(c, r, |m|)
    case RunPosted(r) => c.posted != [] && (c.posted[0].SendInLoop? ==> KernelReturns(c, r, |c.posted[0].msg|))
    case Writable(r) => KernelReturns(c, r, |c.out|)
    case Close => c.life.Connected? || c.life.Disconnecting?
    case _ => true
  }

  /** The backlog a buffered remainder leads to, with the notification when it reaches the mark. */
  function Buffered(c: Conn, rest: seq<Byte>): Conn {
    var backlog := |c.out| + |rest|;
    c.(out := c.out + rest, writing := true,
       highs := if backlog >= c.highWaterMark && |c.out| < c.highWaterMark && c.wantsHighWater
                then c.highs + [backlog] else c.highs)
  }

  function Completed(c: Conn): Conn {
    if c.wantsComplete then c.(completes := c.completes + [Now(c)]) else c
  }

  /** A message offered to the kernel, before what it did not take is buffered. */
  function Offered(c: Conn, msg: seq<Byte>, res: WriteResult): Conn
    requires KernelMay(res, |msg|)
  {
    match res
    case PeerGone => c
    case Wrote(n) =>
      var d := c.(accepted := c.accepted + [msg], sent := c.sent + msg[..n]);
      if n == |msg| then Completed(d) else d
    case _ => c.(accepted := c.accepted + [msg])
  }

  function Taken(res: WriteResult): nat {
    if res.Wrote? then res.n else 0
  }

  function DoSend(c: Conn, msg: seq<Byte>, res: WriteResult): Conn
    requires KernelMay(res, |msg|)
  {
    if c.life.Disconnected? then c
    else if !Direct(c) then
      var d := c.(accepted := c.accepted + [msg]);
      if msg == [] then d else Buffered(d, msg)
    else
      var d := Offered(c, msg, res);
      if res.PeerGone? || Taken(res) == |msg| then d else Buffered(d, msg[Taken(res)..])
  }

  function ShutIfIdle(c: Conn): Conn {
    if c.writing then c else c.(shuts := c.shuts + [Now(c)])
  }

  function WriteOut(c: Conn, res: WriteResult): Conn
    requires KernelMay(res, |c.out|)
  {
    if !c.writing || !res.Wrote? || res.n == 0 then c
    else
      var d := c.(sent := c.sent + c.out[..res.n], out := c.out[res.n..]);
      if d.out != [] then d
      else
        var idle := Completed(d.(writing := false));
        if idle.life.Disconnecting? then ShutIfIdle(idle) else idle
  }

  function Popped(c: Conn): Conn
    requires c.posted != []
  {
    c.(posted := c.posted[1..])
  }

  function Step(e: Event, c: Conn): Conn
    requires Enabled(e, c)
  {
    match e
    case Establish => c.(life := Connected)
    case Send(m, r) => if c.life.Connected? then DoSend(c, m, r) else c
    case ForeignSend(m) => if c.life.Connected? then c.(posted := c.posted + [SendInLoop(m)]) else c
    case Shutdown => if c.life.Connected? then ShutIfIdle(c.(life := Disconnecting)) else c
    case ForeignShutdown =>
      if c.life.Connected? then c.(life := Disconnecting, posted := c.posted + [ShutdownInLoop]) else c
    case RunPosted(r) =>
      if c.posted[0].SendInLoop? then DoSend(Popped(c), c.posted[0].msg, r) else ShutIfIdle(Popped(c))
    case Writable(r) => WriteOut(c, r)
    case ForceClose => if c.life.Connected? || c.life.Disconnecting? then c.(life := Disconnecting) else c
    case Close => c.(life := Disconnected, writing := false)
    case SetHighWaterMark(m) => c.(highWaterMark := m)
  }

  function Next(e: Event, c: Conn): Conn {
    if Enabled(e, c) then Step(e, c) else c
  }

  /** The state in front of event number n of a schedule. */
  function At(es: seq<Event>, c: Conn, n: nat): Conn
    requires n <= |es|
  {
    if n == 0 then c else Next(es[n - 1], At(es, c, n - 1))
  }

  // ----- conservation -----

  predicate Inv(c: Conn) {
    && c.sent + c.out == Flat(c.accepted)
    && (c.life.Disconnected? ==> !c.writing)
    && (!c.life.Disconnected? ==> (c.writing <==> c.out != []))
    && (forall m :: m in c.completes ==> m.sent == m.accepted)
    && (Post.ShutdownInLoop in c.posted ==> c.life.Disconnecting? || c.life.Disconnected?)
  }

  lemma FlatAppend(msgs: seq<seq<Byte>>, m: seq<Byte>)
    ensures Flat(msgs + [m]) == Flat(msgs) + m
  {
    assert (msgs + [m])[..|msgs|] == msgs;
  }

  /** Where the bytes of an accepted message go: some to the kernel, the rest to the end of the buffer. */
  lemma Placed(sent: seq<Byte>, out: seq<Byte>, msg: seq<Byte>, n: nat)
    requires n <= |msg| && (out == [] || n == 0)
    ensures (sent + msg[..n]) + (out + msg[n..]) == (sent + out) + msg
  {
    if out == [] {
      assert msg[..n] + msg[n..] == msg;
    } else {
      assert msg[..0] == [] && msg[0..] == msg;
    }
  }

  lemma SendConserves(c: Conn, msg: seq<Byte>, res: WriteResult)
    requires Inv(c) && KernelMay(res, |msg|)
    ensures var d := DoSend(c, msg, res); d.sent + d.out == Flat(d.accepted)
  {
    FlatAppend(c.accepted, msg);
    var n := if Direct(c) then Taken(res) else 0;
    Placed(c.sent, c.out, msg, n);
    assert c.sent + msg[..0] == c.sent && c.out + [] == c.out;
    assert n == |msg| ==> msg[n..] == [];
  }

  lemma SendMarks(c: Conn, msg: seq<Byte>, res: WriteResult)
    requires Inv(c) && KernelMay(res, |msg|)
    ensures forall m :: m in DoSend(c, msg, res).completes ==> m.sent == m.accepted
  {
    FlatAppend(c.accepted, msg);
  }

  lemma DoSendKeeps(c: Conn, msg: seq<Byte>, res: WriteResult)
    requires Inv(c) && KernelMay(res, |msg|)
    ensures Inv(DoSend(c, msg, res))
  {
    SendConserves(c, msg, res);
    SendMarks(c, msg, res);
  }

  lemma WriteOutKeeps(c: Conn, res: WriteResult)
    requires Inv(c) && KernelMay(res, |c.out|)
    ensures Inv(WriteOut(c, res))
  {
    if c.writing && res.Wrote? && res.n != 0 {
      assert c.sent + c.out[..res.n] + c.out[res.n..] == c.sent + c.out;
    }
  }

  lemma NextKeeps(e: Event, c: Conn)
    requires Inv(c)
    ensures Inv(Next(e, c))
  {
    if Enabled(e, c) {
      match e
      case Send(m, r) => DoSendKeeps(c, m, r);
      case RunPosted(r) => if c.posted[0].SendInLoop? { DoSendKeeps(Popped(c), c.posted[0].msg, r); }
      case Writable(r) => WriteOutKeeps(c, r);
      case _ =>
    }
  }

  /** Output stream conservation, for every schedule of sends from any thread, writable events, partial
      writes, errors, half-closes and closes: the bytes the kernel has taken followed by the output
      buffer are the accepted messages in order; while the connection is not down, write interest is
      on exactly when the output buffer is not empty; and a write-complete callback is only ever queued
      at a moment when every accepted byte has gone to the kernel. */
  lemma {:induction false} OutputConserved(es: seq<Event>, c: Conn, n: nat)
    requires Inv(c) && n <= |es|
    ensures Inv(At(es, c, n))
  {
    if n != 0 {
      OutputConserved(es, c, n - 1);
      NextKeeps(es[n - 1], At(es, c, n - 1));
    }
  }

  /** Which messages are dropped: exactly those that meet a connection already down, or whose direct
      write finds the peer gone; every other one is accepted whole, and a dropped one leaves no byte. */
  lemma DroppedWhole(c: Conn, msg: seq<Byte>, res: WriteResult)
    requires Inv(c) && KernelMay(res, |msg|)
    ensures var dropped := c.life.Disconnected? || (Direct(c) && res.PeerGone?);
      if dropped then DoSend(c, msg, res) == c
      else DoSend(c, msg, res).accepted == c.accepted + [msg]
  {
  }

  // ----- what each event does -----

  /** The message that the event hands to DoSendInLoop of a connection that is not down. */
  function Hands(e: Event, c: Conn): Option<seq<Byte>> {
    match e
    case Send(m, _) => if c.life.Connected? then Some(m) else None
    case RunPosted(_) =>
      if c.posted != [] && c.posted[0].SendInLoop? && !c.life.Disconnected? then Some(c.posted[0].msg) else None
    case _ => None
  }

  /** The bytes that the event offers to the kernel: a message, straight away only if nothing waits in
      front of it, or all that waits. */
  function OffersNow(e: Event, c: Conn): Option<seq<Byte>> {
    if e.Writable? then (if c.out != [] && !c.life.Disconnected? then Some(c.out) else None)
    else if c.out == [] then Hands(e, c)
    else None
  }

  /** The bytes the kernel takes: as many of those offered as the write returns, and none once the write
      side is shut. */
  function KernelTakes(e: Event, c: Conn): seq<Byte> {
    var offered := OffersNow(e, c);
    if offered.Some? && c.shuts == [] && e.res.Wrote? && e.res.n <= |offered.value| then offered.value[..e.res.n]
    else []
  }

  lemma SendTakes(c: Conn, msg: seq<Byte>, res: WriteResult)
    requires Inv(c) && KernelMay(res, |msg|)
    ensures DoSend(c, msg, res).sent ==
      if !c.life.Disconnected? && c.out == [] && res.Wrote? then c.sent + msg[..res.n] else c.sent
  {
  }

  lemma KernelGets(e: Event, c: Conn)
    requires Inv(c)
    ensures Next(e, c).sent == c.sent + KernelTakes(e, c)
  {
    match e
    case Send(m, r) => if Enabled(e, c) { SendTakes(c, m, r); }
    case RunPosted(r) => if Enabled(e, c) && c.posted[0].SendInLoop? { SendTakes(Popped(c), c.posted[0].msg, r); }
    case _ =>
  }

  /** A message that reaches the loop is accepted, whole and behind all others, unless nothing waits in
      front of it and the peer is gone; and nothing else is accepted. */
  lemma AcceptedIff(e: Event, c: Conn)
    requires Inv(c)
    requires Hands(e, c).Some? ==> KernelReturns(c, e.res, |Hands(e, c).value|)
    ensures Next(e, c).accepted ==
      if Hands(e, c).Some? && !(c.out == [] && e.res.PeerGone?) then c.accepted + [Hands(e, c).value] else c.accepted
  {
    match e
    case Send(m, r) => if Enabled(e, c) { DroppedWhole(c, m, r); }
    case RunPosted(r) => if Enabled(e, c) && c.posted[0].SendInLoop? { DroppedWhole(Popped(c), c.posted[0].msg, r); }
    case _ =>
  }

  /** The write takes all there is to write: a whole message offered straight away, or all that waits. */
  predicate TakesAll(e: Event, c: Conn) {
    OffersNow(e, c).Some? && c.shuts == [] && e.res == Wrote(|OffersNow(e, c).value|)
  }

  lemma SendCompletes(c: Conn, msg: seq<Byte>, res: WriteResult)
    requires Inv(c) && KernelMay(res, |msg|)
    ensures var d := DoSend(c, msg, res);
      d.completes == if c.wantsComplete && !c.life.Disconnected? && c.out == [] && res == Wrote(|msg|)
                     then c.completes + [Mark(|Flat(d.accepted)|, |Flat(d.accepted)|)] else c.completes
  {
    SendConserves(c, msg, res);
  }

  lemma DrainCompletes(c: Conn, res: WriteResult)
    requires Inv(c) && KernelMay(res, |c.out|)
    ensures var d := WriteOut(c, res);
      d.completes == if c.wantsComplete && c.writing && c.out != [] && res == Wrote(|c.out|)
                     then c.completes + [Mark(|Flat(d.accepted)|, |Flat(d.accepted)|)] else c.completes
  {
    WriteOutKeeps(c, res);
  }

  /** The write-complete callback is queued, once, if and only if the user asked for it and a write takes
      all there is to write; and at that moment every accepted byte is with the kernel. */
  lemma WriteCompleteIff(e: Event, c: Conn)
    requires Inv(c)
    ensures var all := |Flat(Next(e, c).accepted)|;
      Next(e, c).completes == if c.wantsComplete && TakesAll(e, c) then c.completes + [Mark(all, all)] else c.completes
  {
    hide DoSend, WriteOut, Flat;
    match e
    case Send(m, r) => if Enabled(e, c) { SendCompletes(c, m, r); }
    case RunPosted(r) => if Enabled(e, c) && c.posted[0].SendInLoop? { SendCompletes(Popped(c), c.posted[0].msg, r); }
    case Writable(r) => if Enabled(e, c) { DrainCompletes(c, r); }
    case _ =>
  }

  // the state, the settings and the posted functors

  lemma SendSettings(c: Conn, msg: seq<Byte>, res: WriteResult)
    requires KernelMay(res, |msg|)
    ensures var d := DoSend(c, msg, res);
      d == c.(out := d.out, writing := d.writing, sent := d.sent, accepted := d.accepted,
              completes := d.completes, highs := d.highs)
  {
  }

  lemma WriteSettings(c: Conn, res: WriteResult)
    requires KernelMay(res, |c.out|)
    ensures var d := WriteOut(c, res);
      d == c.(out := d.out, writing := d.writing, sent := d.sent, completes := d.completes, shuts := d.shuts)
  {
  }

  /** A connection comes up from connecting only, starts to go down when a user says so, and is down for
      good once it is closed; the marks and callbacks that were set stay as they are. */
  lemma LifeIff(e: Event, c: Conn)
    ensures var d := Next(e, c);
      && (d.life.Connecting? <==> c.life.Connecting? && !e.Establish?)
      && (d.life.Disconnected? <==> c.life.Disconnected? || (e.Close? && !c.life.Connecting?))
      && (d.life.Connected? <==>
            (c.life.Connecting? && e.Establish?) ||
            (c.life.Connected? && !e.Close? && !e.Shutdown? && !e.ForeignShutdown? && !e.ForceClose?))
      && d.wantsComplete == c.wantsComplete && d.wantsHighWater == c.wantsHighWater
      && d.highWaterMark == if e.SetHighWaterMark? then e.mark else c.highWaterMark
  {
    if Enabled(e, c) {
      match e
      case Send(m, r) => SendSettings(c, m, r);
      case RunPosted(r) => if c.posted[0].SendInLoop? { SendSettings(Popped(c), c.posted[0].msg, r); }
      case Writable(r) => WriteSettings(c, r);
      case _ =>
    }
  }

  /** What another thread hands over, and what the loop takes out. */
  function Handed(e: Event, c: Conn): seq<Post> {
    if !c.life.Connected? then []
    else if e.ForeignSend? then [SendInLoop(e.msg)]
    else if e.ForeignShutdown? then [ShutdownInLoop]
    else []
  }

  function Fetched(e: Event, c: Conn): seq<Post> {
    if e.RunPosted? && c.posted != [] && (c.posted[0].SendInLoop? ==> KernelReturns(c, e.res, |c.posted[0].msg|))
    then [c.posted[0]] else []
  }

  lemma PostedStep(e: Event, c: Conn)
    ensures Fetched(e, c) + Next(e, c).posted == c.posted + Handed(e, c)
  {
    if Enabled(e, c) {
      match e
      case Send(m, r) => SendSettings(c, m, r);
      case RunPosted(r) =>
        assert [c.posted[0]] + c.posted[1..] == c.posted;
        if c.posted[0].SendInLoop? { SendSettings(Popped(c), c.posted[0].msg, r); }
      case Writable(r) => WriteSettings(c, r);
      case _ =>
    }
  }

  /** Queue p turns into q when x leaves at its head and y joins at its end. */
  lemma Shift<T>(a: seq<T>, x: seq<T>, q: seq<T>, p: seq<T>, p0: seq<T>, b: seq<T>, y: seq<T>)
    requires a + p == p0 + b && x + q == p + y
    ensures (a + x) + q == p0 + (b + y)
  {
    assert (a + x) + q == a + (x + q);
    assert a + (p + y) == (a + p) + y;
    assert (p0 + b) + y == p0 + (b + y);
  }

  function AllHanded(es: seq<Event>, c: Conn, n: nat): seq<Post>
    requires n <= |es|
  {
    if n == 0 then [] else AllHanded(es, c, n - 1) + Handed(es[n - 1], At(es, c, n - 1))
  }

  function AllFetched(es: seq<Event>, c: Conn, n: nat): seq<Post>
    requires n <= |es|
  {
    if n == 0 then [] else AllFetched(es, c, n - 1) + Fetched(es[n - 1], At(es, c, n - 1))
  }

  /** What other threads hand over while the connection is up reaches the loop in this order, each once,
      and nothing else does. */
  lemma {:induction false} PostedInOrder(es: seq<Event>, c: Conn, n: nat)
    requires n <= |es|
    ensures AllFetched(es, c, n) + At(es, c, n).posted == c.posted + AllHanded(es, c, n)
  {
    if n == 0 {
      assert c.posted + [] == c.posted;
    } else {
      var b, e := At(es, c, n - 1), es[n - 1];
      PostedInOrder(es, c, n - 1);
      PostedStep(e, b);
      Shift(AllFetched(es, c, n - 1), Fetched(e, b), Next(e, b).posted, b.posted,
            c.posted, AllHanded(es, c, n - 1), Handed(e, b));
    }
  }

  // ----- half-close -----

  /** The write side has been shut at most once, with every accepted byte written, and no byte has been
      accepted or written since. */
  predicate ShutOnce(c: Conn) {
    |c.shuts| <= 1 && (c.shuts != [] ==> c.shuts[0].sent == c.shuts[0].accepted == |c.sent| == |Flat(c.accepted)|)
  }

  /** That, and what keeps it true. */
  predicate HalfClosed(c: Conn) {
    ShutOnce(c) && (c.shuts != [] ==> (c.life.Disconnecting? || c.life.Disconnected?) && !c.writing && c.out == [])
  }

  /** The event is not a posted shutdown that meets a write side already shut, or meets an output buffer
      that HandleClose has abandoned with bytes in it. */
  predicate Careful(e: Event, c: Conn) {
    e.RunPosted? && c.posted != [] && c.posted[0].ShutdownInLoop? ==> c.writing || (c.shuts == [] && c.out == [])
  }

  lemma CarefulKeeps(e: Event, c: Conn)
    requires Inv(c) && HalfClosed(c) && Careful(e, c)
    ensures HalfClosed(Next(e, c))
  {
    NextKeeps(e, c);
  }

  lemma CarelessShuts(e: Event, c: Conn)
    requires Inv(c) && HalfClosed(c) && !Careful(e, c)
    ensures !ShutOnce(Next(e, c))
  {
    if c.shuts == [] {
      assert |Flat(c.accepted)| == |c.sent| + |c.out|;
    }
  }

  predicate AlwaysShutOnce(es: seq<Event>, c: Conn, n: nat)
    requires n <= |es|
  {
    ShutOnce(At(es, c, n)) && (n == 0 || AlwaysShutOnce(es, c, n - 1))
  }

  predicate AllCareful(es: seq<Event>, c: Conn, n: nat)
    requires n <= |es|
  {
    n == 0 || (AllCareful(es, c, n - 1) && Careful(es[n - 1], At(es, c, n - 1)))
  }

  lemma {:induction false} AllCarefulKeeps(es: seq<Event>, c: Conn, n: nat)
    requires Inv(c) && HalfClosed(c) && n <= |es| && AllCareful(es, c, n)
    ensures HalfClosed(At(es, c, n))
  {
    if n != 0 {
      AllCarefulKeeps(es, c, n - 1);
      OutputConserved(es, c, n - 1);
      CarefulKeeps(es[n - 1], At(es, c, n - 1));
    }
  }

  /** Half-close after drain, exactly, for calls on any thread: up to any point of a schedule the write
      side is shut at most once, only when every accepted byte has gone to the kernel, and with no byte
      accepted or written afterwards, if and only if every posted shutdown up to then was careful. */
  lemma {:induction false} HalfCloseIff(es: seq<Event>, c: Conn, n: nat)
    requires Inv(c) && HalfClosed(c) && n <= |es|
    ensures AlwaysShutOnce(es, c, n) <==> AllCareful(es, c, n)
  {
    if n != 0 {
      HalfCloseIff(es, c, n - 1);
      if AllCareful(es, c, n - 1) {
        AllCarefulKeeps(es, c, n - 1);
        OutputConserved(es, c, n - 1);
        if Careful(es[n - 1], At(es, c, n - 1)) {
          CarefulKeeps(es[n - 1], At(es, c, n - 1));
        } else {
          CarelessShuts(es[n - 1], At(es, c, n - 1));
        }
      }
    }
  }

  lemma SendingLeavesPosts(c: Conn, msg: seq<Byte>, res: WriteResult)
    requires KernelMay(res, |msg|)
    ensures DoSend(c, msg, res).posted == c.posted
  {
  }

  lemma WritingLeavesPosts(c: Conn, res: WriteResult)
    requires KernelMay(res, |c.out|)
    ensures WriteOut(c, res).posted == c.posted
  {
  }

  lemma NoneIsAdded(e: Event, c: Conn)
    requires Post.ShutdownInLoop !in c.posted && !e.ForeignShutdown?
    ensures Post.ShutdownInLoop !in Next(e, c).posted && Careful(e, c)
  {
    if Enabled(e, c) {
      match e
      case Send(m, r) => SendingLeavesPosts(c, m, r);
      case RunPosted(r) => if c.posted[0].SendInLoop? { SendingLeavesPosts(Popped(c), c.posted[0].msg, r); }
      case Writable(r) => WritingLeavesPosts(c, r);
      case _ =>
    }
  }

  lemma {:induction false} NoneIsPosted(es: seq<Event>, c: Conn, n: nat)
    requires n <= |es| && Post.ShutdownInLoop !in c.posted && forall i :: 0 <= i < n ==> !es[i].ForeignShutdown?
    ensures Post.ShutdownInLoop !in At(es, c, n).posted && AllCareful(es, c, n)
  {
    if n != 0 {
      NoneIsPosted(es, c, n - 1);
      var before := At(es, c, n - 1);
      NoneIsAdded(es[n - 1], before);
      assert At(es, c, n) == Next(es[n - 1], before);
    }
  }

  /** So it holds for every schedule, with sends from any thread, in which Shutdown is only called on
      the loop thread. */
  lemma HalfCloseAfterDrain(es: seq<Event>, c: Conn, n: nat)
    requires Inv(c) && HalfClosed(c) && n <= |es|
    requires Post.ShutdownInLoop !in c.posted && forall i :: 0 <= i < n ==> !es[i].ForeignShutdown?
    ensures AlwaysShutOnce(es, c, n) && HalfClosed(At(es, c, n))
  {
    NoneIsPosted(es, c, n);
    HalfCloseIff(es, c, n);
    AllCarefulKeeps(es, c, n);
  }

  /** The write side is shut, once, by these events and no others: a Shutdown on the loop thread that finds
      a connected connection with nothing waiting, a posted one that finds nothing being written, and a
      write that takes all that waits on a connection that has started to disconnect. */
  predicate ShutsNow(e: Event, c: Conn) {
    || (e.Shutdown? && c.life.Connected? && c.out == [])
    || (e.RunPosted? && c.posted != [] && c.posted[0].ShutdownInLoop? && !c.writing)
    || (e.Writable? && c.life.Disconnecting? && TakesAll(e, c))
  }

  lemma ShutsIff(e: Event, c: Conn)
    requires Inv(c)
    ensures var d := Next(e, c);
      d.shuts == if ShutsNow(e, c) then c.shuts + [Mark(|d.sent|, |Flat(d.accepted)|)] else c.shuts
  {
    if Enabled(e, c) {
      match e
      case Send(m, r) => SendSettings(c, m, r);
      case RunPosted(r) => if c.posted[0].SendInLoop? { SendSettings(Popped(c), c.posted[0].msg, r); }
      case _ =>
    }
  }

  /** A Shutdown on the loop thread shuts the write side at once, with every accepted byte written, if and
      only if no byte is waiting. */
  lemma ShutdownShutsIff(c: Conn)
    requires Inv(c) && c.life.Connected?
    ensures var d, all := Next(Shutdown, c), |Flat(c.accepted)|;
      && d.life.Disconnecting? && d.out == c.out && d.sent == c.sent && d.accepted == c.accepted
      && (d.shuts == c.shuts + [Mark(all, all)] <==> c.out == [])
      && (c.out != [] ==> d.shuts == c.shuts)
  {
  }

  /** A connection that has been asked to shut down: it has been shut exactly if nothing waits. */
  predicate ShutDown(c: Conn) {
    c.life.Disconnecting? && |c.shuts| == if c.out == [] then 1 else 0
  }

  lemma ShutDownStays(e: Event, c: Conn)
    requires Inv(c) && HalfClosed(c) && Careful(e, c) && ShutDown(c)
    ensures Next(e, c).life.Disconnected? || ShutDown(Next(e, c))
  {
    CarefulKeeps(e, c);
    NextKeeps(e, c);
    LifeIff(e, c);
    ShutsIff(e, c);
    KernelGets(e, c);
  }

  /** Half-close does happen. A Shutdown on the loop thread that finds the connection up, with no close
      since: as long as bytes wait the write side is not shut, and once none does it has been shut
      exactly once. */
  lemma {:induction false} ShutdownTakesEffect(es: seq<Event>, c: Conn, i: nat, n: nat)
    requires Inv(c) && HalfClosed(c) && i < n <= |es| && AllCareful(es, c, n)
    requires es[i].Shutdown? && At(es, c, i).life.Connected? && !At(es, c, n).life.Disconnected?
    ensures ShutDown(At(es, c, n))
    decreases n
  {
    OutputConserved(es, c, n - 1);
    AllCarefulKeeps(es, c, n - 1);
    var b := At(es, c, n - 1);
    if i == n - 1 {
      ShutdownShutsIff(b);
    } else {
      LifeIff(es[n - 1], b);
      ShutdownTakesEffect(es, c, i, n - 1);
      ShutDownStays(es[n - 1], b);
    }
  }

  /** A deferred half-close does happen: a connection asked to shut down that drains is shut. */
  lemma DrainShuts(c: Conn, res: WriteResult)
    requires Inv(c) && c.life.Disconnecting? && c.writing
    requires res.Wrote? && res.n == |c.out|
    ensures WriteOut(c, res).shuts == c.shuts + [Mark(|Flat(c.accepted)|, |Flat(c.accepted)|)]
  {
    assert c.sent + c.out[..res.n] == c.sent + c.out;
  }

  /** A connection with one byte that the kernel has not taken, and a shutdown that another thread has
      called but the loop has not run. */
  function Waiting(): Conn {
    Next(ForeignShutdown, Next(Send([7], WouldBlock), Next(Establish, NewConn(false, false))))
  }

  lemma WaitingState()
    ensures var c := Waiting();
      && c.life.Disconnecting? && c.writing && c.out == [7] && c.posted == [ShutdownInLoop]
      && c.shuts == [] && c.sent == [] && c.accepted == [[7]] && Inv(c)
  {
    var c := Next(Establish, NewConn(false, false));
    assert Next(Send([7], WouldBlock), c) == DoSend(c, [7], WouldBlock);
    NextKeeps(Send([7], WouldBlock), c);
  }

  /** A posted shutdown that is still waiting when the buffer drains shuts a second time: the drain shuts
      the write side because the connection is disconnecting, and the posted one finds nothing being
      written. */
  lemma DrainThenPosted(c: Conn, res: WriteResult)
    requires Inv(c) && c.life.Disconnecting? && c.writing && c.shuts == []
    requires c.posted != [] && c.posted[0].ShutdownInLoop?
    ensures |Next(RunPosted(res), Next(Writable(Wrote(|c.out|)), c)).shuts| == 2
  {
    var d := Next(Writable(Wrote(|c.out|)), c);
    assert d == WriteOut(c, Wrote(|c.out|));
    DrainShuts(c, Wrote(|c.out|));
    WritingLeavesPosts(c, Wrote(|c.out|));
    assert !d.writing;
    assert Next(RunPosted(res), d) == ShutIfIdle(Popped(d));
  }

  lemma ForeignShutdownShutsTwice(res: WriteResult)
    ensures |Next(RunPosted(res), Next(Writable(Wrote(1)), Waiting())).shuts| == 2
  {
    WaitingState();
    DrainThenPosted(Waiting(), res);
  }

  /** And if the connection closes first, the write side is shut with a byte left in the buffer. */
  lemma ForeignShutdownAfterClose(res: WriteResult)
    ensures var c := Next(RunPosted(res), Next(Close, Waiting()));
      |c.shuts| == 1 && c.shuts[0] == Mark(0, 1)
  {
    WaitingState();
    var d := Next(Close, Waiting());
    assert Flat(d.accepted) == Flat(d.accepted[..0]) + [7];
  }

  // ----- high-water notifications -----

  predicate Notifies(e: Event, c: Conn) {
    |Next(e, c).highs| > |c.highs|
  }

  lemma SendCrossing(c: Conn, msg: seq<Byte>, res: WriteResult)
    requires Inv(c) && KernelMay(res, |msg|)
    ensures var d := DoSend(c, msg, res);
      d.highs == if c.wantsHighWater && |c.out| < c.highWaterMark <= |d.out| then c.highs + [|d.out|] else c.highs
  {
  }

  lemma WritingIsQuiet(c: Conn, res: WriteResult)
    requires KernelMay(res, |c.out|)
    ensures WriteOut(c, res).highs == c.highs && |WriteOut(c, res).out| <= |c.out|
  {
  }

  /** A high-water notification is queued exactly when the backlog passes the mark from below, and it
      reports the new backlog. */
  lemma HighWaterIsCrossing(e: Event, c: Conn)
    requires Inv(c)
    ensures Notifies(e, c) <==>
      c.wantsHighWater && !e.SetHighWaterMark? && |c.out| < c.highWaterMark <= |Next(e, c).out|
    ensures Next(e, c).highs == if Notifies(e, c) then c.highs + [|Next(e, c).out|] else c.highs
  {
    match e
    case Send(m, r) => if Enabled(e, c) { SendCrossing(c, m, r); }
    case RunPosted(r) => if Enabled(e, c) && c.posted[0].SendInLoop? { SendCrossing(Popped(c), c.posted[0].msg, r); }
    case Writable(r) => if Enabled(e, c) { WritingIsQuiet(c, r); }
    case _ =>
  }

  lemma CrossesUp(e: Event, c: Conn)
    requires Inv(c) && Notifies(e, c)
    ensures |c.out| < c.highWaterMark <= |Next(e, c).out|
  {
    HighWaterIsCrossing(e, c);
  }

  /** The states a schedule goes through. */
  ghost predicate Passes(es: seq<Event>, cs: seq<Conn>) {
    |cs| == |es| + 1 && forall k, n :: 0 <= k < n < |cs| && n == k + 1 ==> cs[n] == Next(es[k], cs[k])
  }

  lemma {:induction false} PassesKeeps(es: seq<Event>, cs: seq<Conn>, n: nat)
    requires Passes(es, cs) && Inv(cs[0]) && n < |cs|
    ensures Inv(cs[n])
  {
    if n != 0 {
      PassesKeeps(es, cs, n - 1);
      NextKeeps(es[n - 1], cs[n - 1]);
    }
  }

  /** Between two notifications at the same mark the backlog falls below it. */
  lemma HighWaterSpacing(es: seq<Event>, cs: seq<Conn>, i: nat, j: nat)
    requires Passes(es, cs) && Inv(cs[0]) && i < j < |es|
    requires Notifies(es[i], cs[i]) && Notifies(es[j], cs[j]) && cs[i].highWaterMark == cs[j].highWaterMark
    ensures i + 1 < j && |cs[j].out| < cs[j].highWaterMark <= |cs[i + 1].out|
  {
    PassesKeeps(es, cs, i);
    PassesKeeps(es, cs, j);
    CrossesUp(es[i], cs[i]);
    CrossesUp(es[j], cs[j]);
    assert cs[i + 1] == Next(es[i], cs[i]);
  }

  // ----- the class -----

  class Connection {
    var life: Life
    var writing: bool
    const outputBuffer: Buffer
    var highWaterMark: nat
    const wantsComplete: bool
    const wantsHighWater: bool
    var posted: seq<Post>
    ghost var sent: seq<Byte>
    ghost var shuts: seq<Mark>
    ghost var accepted: seq<seq<Byte>>
    ghost var completes: seq<Mark>
    ghost var highs: seq<nat>

    ghost predicate Valid()
      reads this, outputBuffer, outputBuffer.data
    {
      outputBuffer.Valid()
    }

    ghost function View(): Conn
      reads this, outputBuffer, outputBuffer.data
      requires Valid()
    {
      Conn(life, writing, outputBuffer.Contents(), highWaterMark, wantsComplete, wantsHighWater,
           posted, sent, shuts, accepted, completes, highs)
    }

    constructor (wantsComplete: bool, wantsHighWater: bool)
      ensures Valid() && fresh(outputBuffer) && fresh(outputBuffer.data)
      ensures View() == NewConn(wantsComplete, wantsHighWater)
    {
      life, writing, highWaterMark, posted := Connecting, false, HIGH_WATER_MARK, [];
      this.wantsComplete, this.wantsHighWater := wantsComplete, wantsHighWater;
      sent, shuts, accepted, completes, highs := [], [], [], [], [];
      outputBuffer := new Buffer();
    }

    /** The two callbacks that the source queues on the loop. */
    method QueueWriteComplete()
      modifies this`completes
      ensures completes == if wantsComplete then old(completes) + [Mark(|sent|, |Flat(accepted)|)] else old(completes)
    {
      if wantsComplete {
        completes := completes + [Mark(|sent|, |Flat(accepted)|)];
      }
    }

    method Store(bytes: seq<Byte>)
      requires Valid()
      modifies outputBuffer, outputBuffer.data
      ensures outputBuffer.data == old(outputBuffer.data) || fresh(outputBuffer.data)
      ensures Valid() && outputBuffer.Contents() == old(outputBuffer.Contents()) + bytes
    {
      outputBuffer.Append(bytes);
    }

    method QueueHighWater(oldLen: nat, remaining: nat)
      modifies this`highs
      ensures highs == if oldLen + remaining >= highWaterMark && oldLen < highWaterMark && wantsHighWater
                       then old(highs) + [oldLen + remaining] else old(highs)
    {
      if oldLen + remaining >= highWaterMark && oldLen < highWaterMark && wantsHighWater {
        highs := highs + [oldLen + remaining];
      }
    }

    /** The tail of DoSendInLoop, for what the kernel did not take. */
    method BufferRest(rest: seq<Byte>)
      requires Valid()
      modifies this`highs, this`writing, outputBuffer, outputBuffer.data
      ensures outputBuffer.data == old(outputBuffer.data) || fresh(outputBuffer.data)
      ensures Valid() && View() == Buffered(old(View()), rest)
    {
      var oldLen := outputBuffer.ReadableBytes();
      QueueHighWater(oldLen, |rest|);
      Store(rest);
      if !writing {
        writing := true;
      }
    }

    method Offer(msg: seq<Byte>, res: WriteResult) returns (writeBytes: nat, faultError: bool)
      requires Valid() && KernelMay(res, |msg|)
      modifies this`sent, this`accepted, this`completes
      ensures View() == Offered(old(View()), msg, res)
      ensures writeBytes == Taken(res) && faultError == res.PeerGone?
    {
      writeBytes, faultError := 0, false;
      match res {
        case Wrote(n) =>
          writeBytes := n;
          accepted, sent := accepted + [msg], sent + msg[..n];
          if n == |msg| {
            QueueWriteComplete();
          }
        case PeerGone =>
          faultError := true;
        case _ =>
          accepted := accepted + [msg];
      }
    }

    /** `res` is what write returns if the message is offered to the kernel. */
    method DoSendInLoop(msg: seq<Byte>, res: WriteResult)
      requires Valid() && KernelMay(res, |msg|)
      modifies this, outputBuffer, outputBuffer.data
      ensures outputBuffer.data == old(outputBuffer.data) || fresh(outputBuffer.data)
      ensures Valid() && View() == DoSend(old(View()), msg, res)
    {
      hide Buffered, Offered, Completed, Flat;
      if life == Disconnected {
        return;
      }
      var writeBytes, faultError := 0, false;
      var readable := outputBuffer.ReadableBytes();
      if !writing && readable == 0 {
        writeBytes, faultError := Offer(msg, res);
      } else {
        accepted := accepted + [msg];
      }
      if !faultError && writeBytes < |msg| {
        BufferRest(msg[writeBytes..]);
      }
    }

    /** On another thread the message is copied and posted. */
    method Send(msg: seq<Byte>, res: WriteResult, inLoopThread: bool)
      requires Valid() && KernelReturns(View(), res, |msg|)
      modifies this, outputBuffer, outputBuffer.data
      ensures outputBuffer.data == old(outputBuffer.data) || fresh(outputBuffer.data)
      ensures Valid() && View() == Step(if inLoopThread then Event.Send(msg, res) else ForeignSend(msg), old(View()))
    {
      if life == Connected {
        if inLoopThread {
          DoSendInLoop(msg, res);
        } else {
          posted := posted + [SendInLoop(msg)];
        }
      }
    }

    method ShutdownInLoop()
      requires Valid()
      modifies this`shuts
      ensures View() == ShutIfIdle(old(View()))
    {
      if !writing {
        shuts := shuts + [Mark(|sent|, |Flat(accepted)|)];
      }
    }

    /** The state changes at once on any thread; the shutdown itself is left to the loop. */
    method Shutdown(inLoopThread: bool)
      requires Valid()
      modifies this`life, this`shuts, this`posted
      ensures Valid() && View() == Step(if inLoopThread then Event.Shutdown else ForeignShutdown, old(View()))
    {
      if life == Connected {
        life := Disconnecting;
        if inLoopThread {
          ShutdownInLoop();
        } else {
          posted := posted + [Post.ShutdownInLoop];
        }
      }
    }

    method RunNextPosted(res: WriteResult)
      requires Valid() && Enabled(RunPosted(res), View())
      modifies this, outputBuffer, outputBuffer.data
      ensures outputBuffer.data == old(outputBuffer.data) || fresh(outputBuffer.data)
      ensures Valid() && View() == Step(RunPosted(res), old(View()))
    {
      var next := posted[0];
      posted := posted[1..];
      match next
      case SendInLoop(msg) => DoSendInLoop(msg, res);
      case ShutdownInLoop => ShutdownInLoop();
    }

    method HandleWrite(res: WriteResult)
      requires Valid() && KernelMay(res, |View().out|)
      modifies this, outputBuffer
      ensures outputBuffer.data == old(outputBuffer.data)
      ensures Valid() && View() == WriteOut(old(View()), res)
    {
      if writing && res.Wrote? && res.n > 0 {
        sent := sent + outputBuffer.Contents()[..res.n];
        outputBuffer.Retrieve(res.n);
        var readable := outputBuffer.ReadableBytes();
        if readable == 0 {
          writing := false;
          QueueWriteComplete();
          if life == Disconnecting {
            ShutdownInLoop();
          }
        }
      }
    }

    method ConnectEstablished()
      requires Valid() && life == Connecting
      modifies this`life
      ensures Valid() && View() == Step(Establish, old(View()))
    {
      life := Connected;
    }

    method ForceClose()
      requires Valid()
      modifies this`life
      ensures Valid() && View() == Step(Event.ForceClose, old(View()))
    {
      if life == Connected || life == Disconnecting {
        life := Disconnecting;
      }
    }

    method HandleClose()
      requires Valid() && (life == Connected || life == Disconnecting)
      modifies this`life, this`writing
      ensures Valid() && View() == Step(Close, old(View()))
    {
      life, writing := Disconnected, false;
    }

    method SetHighWaterMark(mark: nat)
      requires Valid()
      modifies this`highWaterMark
      ensures Valid() && View() == Step(Event.SetHighWaterMark(mark), old(View()))
    {
      highWaterMark := mark;
    }
  }
}
