/** The event loops around module Teardown: what src/network/EventLoop.cc lets happen in which order.

    Each loop polls, dispatches the events that poll reported one channel after the other, takes the
    functors that have been queued, runs them, and polls again. A handler can change what the channels
    after it in the same round are registered for, so a report may be stale when its turn comes. Loops
    interleave in any way, and so do calls by users on any thread. A failed assert makes the run `None`;
    an event that is not possible when its turn comes does nothing. */
module Reactor {
  import opened Common
  import opened Teardown
  import R = Registration

  /** The events of one channel. EPOLLRDHUP is not among them: no channel ever asks for it. */
  datatype Revents = Revents(hup: bool, readable: bool, pri: bool, err: bool, writable: bool)

  const HANG_UP := Revents(true, false, false, false, false)

  /** What a read would return. */
  datatype Read = Data | Eof | Failed

  datatype Report = Report(c: ConnId, revents: Revents)

  /** Where a loop is: dispatching, with the reports of its last poll not dispatched yet; or running
      functors, with the number at the head of its queue that it took from pendingFunctors_. */
  datatype Phase = Dispatching(reports: seq<Report>) | Running(left: nat)

  /** `paused` are the connections whose reading_ flag is off; `backlog` has the number of bytes in each
      output buffer that is not empty. */
  datatype State = State(world: World, phases: map<Loop, Phase>, paused: set<ConnId>, backlog: map<ConnId, nat>)

  datatype Event =
    | Poll(loop: Loop, reports: seq<Report>)
    | Dispatch(loop: Loop, read: Read)
    | Take(loop: Loop)             // doPendingFunctors swaps the queue out
    | RunFunctor(loop: Loop)
    | Accept(fd: int, loop: Loop)  // the handler of the listening socket, on loop 0
    | ForceClose(c: ConnId)
    | Shutdown(c: ConnId)
    | StartRead(c: ConnId)
    | StopRead(c: ConnId)
    | Send(c: ConnId, len: nat, taken: nat)  // DoSendInLoop; a direct write takes so many bytes
    | HandleWrite(c: ConnId, written: nat)

  function Begin(loops: set<Loop>): State {
    State(Start(loops), map l | l in loops :: Running(0), {}, map[])
  }

  // ----- the steps -----

  function ChanOf(w: World, c: ConnId): R.Chan
    requires HasChannel(w, c)
  {
    w.polls[w.conns[c].loop].chans[c]
  }

  /** epoll reports what the mask asks for, and errors and hang-ups in any case. */
  predicate MayReport(r: Revents, mask: R.Mask) {
    && (r.readable ==> mask & R.EPOLLIN != 0)
    && (r.pri ==> mask & R.EPOLLPRI != 0)
    && (r.writable ==> mask & R.EPOLLOUT != 0)
  }

  predicate Reportable(w: World, l: Loop, r: Report) {
    && HasChannel(w, r.c) && w.conns[r.c].loop == l
    && var p, fd := w.polls[l], ChanOf(w, r.c).fd;
       fd in p.kernel && p.kernel[fd].1 == r.c && MayReport(r.revents, p.kernel[fd].0)
  }

  predicate Distinct(rs: seq<Report>) {
    forall i, j :: 0 <= i < j < |rs| ==> rs[i].c != rs[j].c
  }

  /** HandleEventWithGuard: the close callback, then the read callback; writing never closes. */
  function HandleEvent(w: World, c: ConnId, r: Revents, read: Read): Option<World>
    requires Known(w, c)
  {
    var v := if r.hup && !r.readable then HandleClose(w, c) else Some(w);
    if v.None? then None
    else if (r.readable || r.pri) && read.Eof? then
      (if Known(v.value, c) then HandleClose(v.value, c) else None)
    else v
  }

  /** The number of bytes waiting in the output buffer. */
  function Backlog(s: State, c: ConnId): nat {
    if c in s.backlog then s.backlog[c] else 0
  }

  predicate Enabled(e: Event, s: State) {
    match e
    case Poll(l, rs) =>
      l in s.phases && s.phases[l] == Running(0) && Distinct(rs) &&
      forall i :: 0 <= i < |rs| ==> Reportable(s.world, l, rs[i])
    case Dispatch(l, _) =>
      l in s.phases && s.phases[l].Dispatching? && s.phases[l].reports != [] && Known(s.world, s.phases[l].reports[0].c)
    case Take(l) => l in s.phases && s.phases[l] == Dispatching([]) && l in s.world.queues
    case RunFunctor(l) => l in s.phases && s.phases[l].Running? && 0 < s.phases[l].left && HasHead(s.world, l)
    case Accept(fd, l) => 0 in s.phases && s.phases[0].Dispatching? && CanAccept(s.world, fd, l)
    case ForceClose(c) => Known(s.world, c)
    case Shutdown(c) => Known(s.world, c)
    case _ =>
      // the user gets hold of the connection with its first callback
      && HasChannel(s.world, e.c) && 0 < s.world.conns[e.c].up
      && (e.Send? ==> e.taken <= e.len) && (e.HandleWrite? ==> e.written <= Backlog(s, e.c))
  }

  function Lift(s: State, r: Option<World>): Option<State> {
    if r.None? then None else Some(s.(world := r.value))
  }

  function AtPhase(s: State, l: Loop, p: Phase): State {
    s.(phases := s.phases[l := p])
  }

  /** What is not written at once is buffered, and then write interest is on. */
  function Sent(s: State, c: ConnId, len: nat, taken: nat): State
    requires HasChannel(s.world, c) && taken <= len
  {
    var writing := R.Writes(ChanOf(s.world, c).events);
    var remaining := if !writing && Backlog(s, c) == 0 then len - taken else len;
    if remaining == 0 then s
    else
      s.(world := if writing then s.world else Interest(s.world, R.EnableWriting(c)),
         backlog := s.backlog[c := Backlog(s, c) + remaining])
  }

  /** Write interest goes off when the last byte has been written. */
  function Written(s: State, c: ConnId, written: nat): State
    requires HasChannel(s.world, c) && written <= Backlog(s, c)
  {
    if !R.Writes(ChanOf(s.world, c).events) || written == 0 then s
    else if written < Backlog(s, c) then s.(backlog := s.backlog[c := Backlog(s, c) - written])
    else s.(world := Interest(s.world, R.DisableWriting(c)), backlog := s.backlog - {c})
  }

  function Step(e: Event, s: State): Option<State>
    requires Enabled(e, s)
  {
    match e
    case Poll(l, rs) => Some(AtPhase(s, l, Dispatching(rs)))
    case Dispatch(l, read) =>
      var r := s.phases[l].reports[0];
      if !HasChannel(s.world, r.c) then None  // the channel has been deleted
      else Lift(AtPhase(s, l, Dispatching(s.phases[l].reports[1..])), HandleEvent(s.world, r.c, r.revents, read))
    case Take(l) => Some(AtPhase(s, l, Running(|s.world.queues[l]|)))
    case RunFunctor(l) => Lift(AtPhase(s, l, Running(s.phases[l].left - 1)), RunHead(s.world, l))
    case Accept(fd, l) => Lift(s, NewConnection(s.world, fd, l))
    case ForceClose(c) => Some(s.(world := Teardown.ForceClose(s.world, c)))
    case Shutdown(c) => Some(s.(world := Teardown.Shutdown(s.world, c)))
    case StartRead(c) =>
      Some(if c in s.paused || !R.Reads(ChanOf(s.world, c).events)
           then s.(world := Interest(s.world, R.EnableReading(c)), paused := s.paused - {c}) else s)
    case StopRead(c) =>
      Some(if c !in s.paused || R.Reads(ChanOf(s.world, c).events)
           then s.(world := Interest(s.world, R.DisableReading(c)), paused := s.paused + {c}) else s)
    case Send(c, len, taken) => Some(if s.world.conns[c].life.Disconnected? then s else Sent(s, c, len, taken))
    case HandleWrite(c, written) => Some(Written(s, c, written))
  }

  // ----- what the source relies on without saying so -----

  /** How often handling an event closes the connection. */
  function Closings(r: Revents, read: Read): nat {
    (if r.hup && !r.readable then 1 else 0) + (if (r.readable || r.pri) && read.Eof? then 1 else 0)
  }

  predicate IsAdded(w: World, c: ConnId)
    requires HasChannel(w, c)
  {
    ChanOf(w, c).index.Added?
  }

  /** The step does not close a connection twice, does not close one whose descriptor is not with the
      kernel because it watches nothing, and does not change the interest of one that is closed. */
  predicate Heedful(e: Event, s: State)
    requires Enabled(e, s)
  {
    match e
    case Dispatch(l, read) =>
      var r := s.phases[l].reports[0];
      var n := Closings(r.revents, read);
      n <= 1 && (n == 1 && HasChannel(s.world, r.c) ==> IsAdded(s.world, r.c))
    case RunFunctor(l) =>
      var f := s.world.queues[l][0];
      f.ForceCloseInLoop? && Open(s.world.conns[f.c]) && HasChannel(s.world, f.c) ==> IsAdded(s.world, f.c)
    case StartRead(c) => Open(s.world.conns[c])
    case StopRead(c) => Open(s.world.conns[c]) || c in s.paused
    case _ => true
  }

  predicate HeedfulRun(es: seq<Event>, s: State) {
    es == [] ||
    if !Enabled(es[0], s) then HeedfulRun(es[1..], s)
    else Heedful(es[0], s) && (Step(es[0], s).Some? ==> HeedfulRun(es[1..], Step(es[0], s).value))
  }

  /** Any schedule. */
  function Run(es: seq<Event>, s: State): Option<State> {
    if es == [] then Some(s)
    else if !Enabled(es[0], s) then Run(es[1..], s)
    else if Step(es[0], s).None? then None
    else Run(es[1..], Step(es[0], s).value)
  }

  /** The schedule without the events that do nothing. */
  function Thinned(es: seq<Event>, s: State): seq<Event> {
    if es == [] then []
    else if !Enabled(es[0], s) then Thinned(es[1..], s)
    else [es[0]] + if Step(es[0], s).None? then [] else Thinned(es[1..], Step(es[0], s).value)
  }

  /** Every event of the schedule is possible when its turn comes. */
  predicate Possible(es: seq<Event>, s: State) {
    es == [] || (Enabled(es[0], s) && (Step(es[0], s).Some? ==> Possible(es[1..], Step(es[0], s).value)))
  }

  lemma {:induction false} ThinnedRuns(es: seq<Event>, s: State)
    ensures var thin := Thinned(es, s);
      Possible(thin, s) && Run(thin, s) == Run(es, s) && (HeedfulRun(thin, s) <==> HeedfulRun(es, s))
  {
    hide Enabled, Step, Heedful;
    if es == [] {
    } else if !Enabled(es[0], s) {
      ThinnedRuns(es[1..], s);
    } else if Step(es[0], s).Some? {
      ThinnedRuns(es[1..], Step(es[0], s).value);
    }
  }

  // ----- the invariant -----

  /** The report can be dispatched: its channel exists and its connection is up. */
  predicate Live(w: World, c: ConnId, l: Loop) {
    HasChannel(w, c) && w.conns[c].loop == l && Open(w.conns[c])
  }

  ghost predicate ReportsLive(s: State) {
    forall l :: l in s.phases && s.phases[l].Dispatching? ==>
      && Distinct(s.phases[l].reports)
      && forall i :: 0 <= i < |s.phases[l].reports| ==> Live(s.world, s.phases[l].reports[i].c, l)
  }

  ghost predicate Phased(s: State) {
    && s.phases.Keys == s.world.queues.Keys
    && s.paused <= s.world.conns.Keys && s.backlog.Keys <= s.world.conns.Keys
    && forall l :: l in s.phases && s.phases[l].Running? ==> s.phases[l].left <= |s.world.queues[l]|
  }

  /** Until the connection is down, its channel asks for EPOLLOUT exactly when bytes are waiting. */
  predicate AsksToWrite(s: State, c: ConnId) {
    HasChannel(s.world, c) && !s.world.conns[c].life.Disconnected? ==>
      (R.Writes(ChanOf(s.world, c).events) <==> c in s.backlog)
  }

  /** Once it is up and until it is down, its channel asks for all read events or, while reading is stopped,
      for none; reading cannot be stopped before the connection is up. */
  predicate AsksToRead(s: State, c: ConnId) {
    HasChannel(s.world, c) ==>
      && (s.world.conns[c].up == 0 ==> c !in s.paused)
      && (0 < s.world.conns[c].up && !s.world.conns[c].life.Disconnected? ==>
            R.ReadPart(ChanOf(s.world, c).events) == if c in s.paused then R.NONE_EVENT else R.READ_EVENT)
  }

  predicate AsksRightly(s: State, c: ConnId) {
    AsksToWrite(s, c) && AsksToRead(s, c)
  }

  /** Asking is right for this connection, and an empty buffer is not listed. */
  predicate Asks(s: State, c: ConnId) {
    AsksRightly(s, c) && (c in s.backlog ==> 0 < s.backlog[c])
  }

  ghost predicate Buffered(s: State) {
    forall c :: Asks(s, c)
  }

  ghost predicate Inv(s: State) {
    Teardown.Inv(s.world) && Phased(s) && ReportsLive(s) && Buffered(s)
  }

  lemma BeginIsFine(loops: set<Loop>)
    requires 0 in loops
    ensures Inv(Begin(loops))
  {
    StartIsFine(loops);
  }

  // ----- the world -----

  lemma InOrderOf(w: World, c: ConnId)
    requires AllInOrder(w) && c in w.conns
    ensures Known(w, c) && InOrder(w, c)
  {
  }

  /** Closing once is HandleClose, and closing twice fails. */
  lemma EventCloses(w: World, c: ConnId, r: Revents, read: Read)
    requires Known(w, c)
    ensures HandleEvent(w, c, r, read) ==
      match Closings(r, read) case 0 => Some(w) case 1 => HandleClose(w, c) case _ => None
    ensures Closings(r, read) == 0 <==> (r.hup ==> r.readable) && ((r.readable || r.pri) ==> !read.Eof?)
    ensures Closings(r, read) == 2 <==> r.hup && !r.readable && r.pri && read.Eof?
  {
  }

  lemma EventKeeps(w: World, c: ConnId, r: Revents, read: Read)
    requires Teardown.Inv(w) && HasChannel(w, c) && Open(w.conns[c])
    requires Closings(r, read) <= 1 && (Closings(r, read) == 1 ==> IsAdded(w, c))
    ensures HandleEvent(w, c, r, read).Some? && Teardown.Inv(HandleEvent(w, c, r, read).value)
  {
    hide Good, PollsAgree, AllInOrder;
    EventCloses(w, c, r, read);
    if Closings(r, read) == 1 {
      CloseKeeps(w, c);
    }
  }

  lemma FunctorKeeps(w: World, l: Loop)
    requires Teardown.Inv(w) && HasHead(w, l)
    requires var f := w.queues[l][0];
      f.ForceCloseInLoop? && Open(w.conns[f.c]) && HasChannel(w, f.c) ==> IsAdded(w, f.c)
    ensures RunHead(w, l).Some? && Teardown.Inv(RunHead(w, l).value)
  {
    hide Good, PollsAgree, AllInOrder;
    match w.queues[l][0] {
      case Establish(_) => EstablishFunctor(w, l);
      case RemoveInLoop(_) => RemoveFunctor(w, l);
      case Destroy(_) => DestroyFunctor(w, l);
      case ForceCloseInLoop(_) => ForceCloseFunctor(w, l);
    }
  }

  /** A connection that is not up watches nothing. */
  lemma ClosedWatchesNothing(w: World, c: ConnId)
    requires AllInOrder(w) && HasChannel(w, c) && !Open(w.conns[c])
    ensures !R.Reads(ChanOf(w, c).events) && !R.Writes(ChanOf(w, c).events)
    ensures 0 < w.conns[c].up ==> w.conns[c].life.Disconnected?
  {
    assert InOrder(w, c);
    assert !R.Reads(R.NONE_EVENT) && !R.Writes(R.NONE_EVENT);
  }

  predicate ChangesInterest(e: Event) {
    e.StartRead? || e.StopRead? || e.Send? || e.HandleWrite?
  }

  /** The change of interest an event may ask for. */
  function OpOf(e: Event): R.Op<ConnId>
    requires ChangesInterest(e)
  {
    if e.StartRead? then R.EnableReading(e.c) else if e.StopRead? then R.DisableReading(e.c)
    else if e.Send? then R.EnableWriting(e.c) else R.DisableWriting(e.c)
  }

  lemma InterestEventKeeps(e: Event, s: State)
    requires Teardown.Inv(s.world) && Enabled(e, s) && Heedful(e, s)
    requires ChangesInterest(e)
    ensures Step(e, s).Some? && Teardown.Inv(Step(e, s).value.world)
  {
    hide Good, PollsAgree, AllInOrder;
    if Open(s.world.conns[e.c]) {
      InterestKeeps(s.world, OpOf(e));
      assert Step(e, s).value.world == s.world || Step(e, s).value.world == Interest(s.world, OpOf(e));
    } else {
      ClosedWatchesNothing(s.world, e.c);
    }
  }

  lemma WorldKeeps(e: Event, s: State)
    requires Teardown.Inv(s.world) && ReportsLive(s) && Enabled(e, s) && Heedful(e, s)
    ensures Step(e, s).Some? && Teardown.Inv(Step(e, s).value.world)
  {
    hide Good, PollsAgree, AllInOrder;
    match e {
      case Dispatch(l, read) =>
        var r := s.phases[l].reports[0];
        assert Live(s.world, r.c, l);
        EventKeeps(s.world, r.c, r.revents, read);
      case RunFunctor(l) => FunctorKeeps(s.world, l);
      case Accept(fd, l) => AcceptKeeps(s.world, fd, l);
      case ForceClose(c) => LeavingKeeps(s.world, c);
      case Shutdown(c) => LeavingKeeps(s.world, c);
      case Poll(_, _) =>
      case Take(_) =>
      case _ => InterestEventKeeps(e, s);
    }
  }

  // ----- the phases -----

  lemma GrowsPhased(s: State, v: World)
    requires Phased(s) && Grows(s.world, v)
    ensures Phased(s.(world := v))
  {
    forall l | l in s.phases && s.phases[l].Running?
      ensures s.phases[l].left <= |v.queues[l]|
    {
      assert s.world.queues[l] <= v.queues[l];
    }
  }

  lemma PoppedPhased(s: State, l: Loop, v: World)
    requires Phased(s) && l in s.phases && s.phases[l].Running? && 0 < s.phases[l].left && HasHead(s.world, l)
    requires Grows(Popped(s.world, l), v)
    ensures Phased(AtPhase(s, l, Running(s.phases[l].left - 1)).(world := v))
  {
    var t := AtPhase(s, l, Running(s.phases[l].left - 1)).(world := v);
    forall m | m in t.phases && t.phases[m].Running?
      ensures t.phases[m].left <= |v.queues[m]|
    {
      assert Popped(s.world, l).queues[m] <= v.queues[m];
    }
  }

  lemma EventGrows(w: World, c: ConnId, r: Revents, read: Read)
    requires Known(w, c) && HandleEvent(w, c, r, read).Some?
    ensures Grows(w, HandleEvent(w, c, r, read).value)
  {
    EventCloses(w, c, r, read);
    if Closings(r, read) == 1 {
      CloseGrows(w, c);
    }
  }

  lemma InterestEventGrows(e: Event, s: State)
    requires Enabled(e, s) && ChangesInterest(e)
    ensures var t := Step(e, s).value;
      && t.phases == s.phases && t.world.queues == s.world.queues && t.world.conns == s.world.conns
      && t.paused <= s.paused + {e.c} && t.backlog.Keys <= s.backlog.Keys + {e.c}
  {
  }

  lemma PhasedKeeps(e: Event, s: State)
    requires Phased(s) && s.world.nextId !in s.world.conns && Enabled(e, s) && Step(e, s).Some?
    ensures Phased(Step(e, s).value)
  {
    hide Execute, NewConnection, HandleEvent;
    match e {
      case Dispatch(l, read) =>
        var r := s.phases[l].reports[0];
        EventGrows(s.world, r.c, r.revents, read);
        GrowsPhased(AtPhase(s, l, Dispatching(s.phases[l].reports[1..])),
                    HandleEvent(s.world, r.c, r.revents, read).value);
      case RunFunctor(l) =>
        ExecuteGrows(Popped(s.world, l), s.world.queues[l][0]);
        PoppedPhased(s, l, RunHead(s.world, l).value);
      case Accept(fd, l) =>
        AcceptGrows(s.world, fd, l);
        GrowsPhased(s, NewConnection(s.world, fd, l).value);
      case ForceClose(c) =>
        LeavingGrows(s.world, c);
        GrowsPhased(s, Teardown.ForceClose(s.world, c));
      case Shutdown(c) =>
        LeavingGrows(s.world, c);
        GrowsPhased(s, Teardown.Shutdown(s.world, c));
      case Poll(_, _) =>
      case Take(_) =>
      case _ => InterestEventGrows(e, s);
    }
  }

  // ----- the reports -----

  ghost predicate Unnamed(s: State, c: ConnId) {
    forall l :: l in s.phases && s.phases[l].Dispatching? ==>
      forall i :: 0 <= i < |s.phases[l].reports| ==> s.phases[l].reports[i].c != c
  }

  /** No loop has more to dispatch than before. */
  ghost predicate Fewer(s: State, t: State) {
    forall l :: l in t.phases && t.phases[l].Dispatching? ==>
      && l in s.phases && s.phases[l].Dispatching?
      && (t.phases[l] == s.phases[l] || (s.phases[l].reports != [] && t.phases[l].reports == s.phases[l].reports[1..]))
  }

  /** A step that touches only connection c leaves the reports of the others fine, and its own too if none
      is left or they still can be dispatched. */
  lemma ReportsAfter(s: State, t: State, c: ConnId)
    requires ReportsLive(s) && Fewer(s, t)
    requires forall d :: Known(s.world, d) && d != c ==> Same(s.world, t.world, d)
    requires Unnamed(t, c) || forall l :: Live(s.world, c, l) ==> Live(t.world, c, l)
    ensures ReportsLive(t)
  {
    forall l | l in t.phases && t.phases[l].Dispatching?
      ensures Distinct(t.phases[l].reports)
      ensures forall i :: 0 <= i < |t.phases[l].reports| ==> Live(t.world, t.phases[l].reports[i].c, l)
    {
      forall i | 0 <= i < |t.phases[l].reports|
        ensures Live(t.world, t.phases[l].reports[i].c, l)
      {
        var j := if t.phases[l] == s.phases[l] then i else i + 1;
        assert t.phases[l].reports[i] == s.phases[l].reports[j];
        assert Live(s.world, s.phases[l].reports[j].c, l);
      }
    }
  }

  lemma ReportedIsLive(w: World, l: Loop, r: Report)
    requires PollsAgree(w.polls) && AllInOrder(w) && Reportable(w, l, r)
    ensures Live(w, r.c, l) && IsAdded(w, r.c)
  {
    assert InOrder(w, r.c);
    ReportedIsOpen(w, r.c);
  }

  lemma PollReports(s: State, l: Loop, rs: seq<Report>)
    requires Teardown.Inv(s.world) && ReportsLive(s) && Enabled(Poll(l, rs), s)
    ensures ReportsLive(AtPhase(s, l, Dispatching(rs)))
  {
    hide Good, PollsAgree, AllInOrder;
    forall i | 0 <= i < |rs|
      ensures Live(s.world, rs[i].c, l)
    {
      ReportedIsLive(s.world, l, rs[i]);
    }
  }

  /** The report that is dispatched is the only one for its connection. */
  lemma DispatchedOnce(s: State, l: Loop)
    requires ReportsLive(s) && l in s.phases && s.phases[l].Dispatching? && s.phases[l].reports != []
    ensures Unnamed(AtPhase(s, l, Dispatching(s.phases[l].reports[1..])), s.phases[l].reports[0].c)
  {
    var rs := s.phases[l].reports;
    var t := AtPhase(s, l, Dispatching(rs[1..]));
    assert Live(s.world, rs[0].c, l);
    forall m | m in t.phases && t.phases[m].Dispatching?
      ensures forall i :: 0 <= i < |t.phases[m].reports| ==> t.phases[m].reports[i].c != rs[0].c
    {
      forall i | 0 <= i < |t.phases[m].reports|
        ensures t.phases[m].reports[i].c != rs[0].c
      {
        if m != l {
          assert Live(s.world, s.phases[m].reports[i].c, m);
        }
      }
    }
  }

  lemma EventSame(w: World, c: ConnId, r: Revents, read: Read, d: ConnId)
    requires HasChannel(w, c) && c in w.server && Known(w, d) && d != c && HandleEvent(w, c, r, read).Some?
    ensures Same(w, HandleEvent(w, c, r, read).value, d)
  {
    EventCloses(w, c, r, read);
    if Closings(r, read) == 1 {
      CloseSame(w, c, d);
    }
  }

  lemma DispatchReports(s: State, l: Loop, read: Read)
    requires AllInOrder(s.world) && ReportsLive(s) && Enabled(Dispatch(l, read), s) && Step(Dispatch(l, read), s).Some?
    ensures ReportsLive(Step(Dispatch(l, read), s).value)
  {
    var t, r := Step(Dispatch(l, read), s).value, s.phases[l].reports[0];
    assert Live(s.world, r.c, l) && InOrder(s.world, r.c);
    DispatchedOnce(s, l);
    forall d | Known(s.world, d) && d != r.c
      ensures Same(s.world, t.world, d)
    {
      EventSame(s.world, r.c, r.revents, read, d);
    }
    ReportsAfter(s, t, r.c);
  }

  lemma HeadLife(w: World, l: Loop)
    requires Teardown.Inv(w) && HasHead(w, l)
    ensures var f := w.queues[l][0]; f.RemoveInLoop? || f.Destroy? ==> w.conns[f.c].life.Disconnected?
  {
    hide PollsAgree;
    assert Placed(w, l, w.queues[l][0]) && InOrder(w, w.queues[l][0].c);
    HeadToken(w, l);
  }

  lemma HeadPlace(w: World, l: Loop)
    requires Teardown.Inv(w) && HasHead(w, l)
    ensures var f := w.queues[l][0]; w.conns[f.c].loop == l || w.conns[f.c].life.Disconnected?
  {
    hide PollsAgree, AllInOrder;
    assert Placed(w, l, w.queues[l][0]);
    HeadLife(w, l);
  }

  /** The connection of a functor that a loop runs has no report waiting. So none is waiting for a channel
      that ConnectDestroyed removes, which is what EventLoop::RemoveChannel asserts. */
  lemma FunctorIsUnreported(s: State, l: Loop)
    requires Teardown.Inv(s.world) && ReportsLive(s) && Enabled(RunFunctor(l), s)
    ensures Unnamed(s, s.world.queues[l][0].c)
  {
    hide Teardown.Inv;
    var w, f := s.world, s.world.queues[l][0];
    HeadPlace(w, l);
    forall m | m in s.phases && s.phases[m].Dispatching?
      ensures forall i :: 0 <= i < |s.phases[m].reports| ==> s.phases[m].reports[i].c != f.c
    {
      forall i | 0 <= i < |s.phases[m].reports|
        ensures s.phases[m].reports[i].c != f.c
      {
        assert Live(w, s.phases[m].reports[i].c, m);
      }
    }
  }

  lemma FunctorSame(w: World, l: Loop, d: ConnId)
    requires Teardown.Inv(w) && HasHead(w, l) && RunHead(w, l).Some? && Known(w, d) && d != w.queues[l][0].c
    ensures Same(w, RunHead(w, l).value, d)
  {
    assert Placed(w, l, w.queues[l][0]) && InOrder(w, w.queues[l][0].c);
    RunHeadSame(w, l, d);
  }

  lemma FunctorReports(s: State, l: Loop)
    requires Teardown.Inv(s.world) && ReportsLive(s) && Enabled(RunFunctor(l), s) && Step(RunFunctor(l), s).Some?
    ensures ReportsLive(Step(RunFunctor(l), s).value)
  {
    hide Teardown.Inv, Execute;
    var t, c := Step(RunFunctor(l), s).value, s.world.queues[l][0].c;
    FunctorIsUnreported(s, l);
    forall d | Known(s.world, d) && d != c
      ensures Same(s.world, t.world, d)
    {
      FunctorSame(s.world, l, d);
    }
    ReportsAfter(s, t, c);
  }

  lemma AcceptReports(s: State, fd: int, l: Loop)
    requires Good(s.world) && ReportsLive(s) && Enabled(Accept(fd, l), s) && Step(Accept(fd, l), s).Some?
    ensures ReportsLive(Step(Accept(fd, l), s).value)
  {
    var t, c := Step(Accept(fd, l), s).value, s.world.nextId;
    forall d | Known(s.world, d) && d != c
      ensures Same(s.world, t.world, d)
    {
      AcceptSame(s.world, fd, l, d);
    }
    assert c !in s.world.conns;
    ReportsAfter(s, t, c);
  }

  lemma ForceCloseReports(s: State, c: ConnId)
    requires ReportsLive(s) && Known(s.world, c)
    ensures ReportsLive(s.(world := Teardown.ForceClose(s.world, c)))
  {
    hide ReportsLive, Unnamed;
    var v := Teardown.ForceClose(s.world, c);
    assert v.polls == s.world.polls;
    forall d | Known(s.world, d) && d != c
      ensures Same(s.world, v, d)
    {
    }
    ReportsAfter(s, s.(world := v), c);
  }

  lemma ShutdownReports(s: State, c: ConnId)
    requires ReportsLive(s) && Known(s.world, c)
    ensures ReportsLive(s.(world := Teardown.Shutdown(s.world, c)))
  {
    ReportsAfter(s, s.(world := Teardown.Shutdown(s.world, c)), c);
  }

  lemma InterestReports(s: State, t: State, op: R.Op<ConnId>)
    requires ReportsLive(s) && IsInterest(op) && HasChannel(s.world, op.c)
    requires t == s.(world := Interest(s.world, op), paused := t.paused, backlog := t.backlog)
    ensures ReportsLive(t)
  {
    ApplyKeys(s.world.polls[s.world.conns[op.c].loop], op);
    forall d | Known(s.world, d) && d != op.c
      ensures Same(s.world, t.world, d)
    {
      InterestSame(s.world, op, d);
    }
    ReportsAfter(s, t, op.c);
  }

  lemma InterestEventReports(e: Event, s: State)
    requires ReportsLive(s) && Enabled(e, s) && ChangesInterest(e)
    ensures ReportsLive(Step(e, s).value)
  {
    var t := Step(e, s).value;
    if t.world != s.world {
      assert t.world == Interest(s.world, OpOf(e));
      InterestReports(s, t, OpOf(e));
    }
  }

  lemma TakeReports(s: State, l: Loop)
    requires ReportsLive(s) && Enabled(Take(l), s)
    ensures ReportsLive(Step(Take(l), s).value)
  {
  }

  lemma ReportsKeep(e: Event, s: State)
    requires Inv(s) && Enabled(e, s) && Step(e, s).Some?
    ensures ReportsLive(Step(e, s).value)
  {
    hide Good, PollsAgree, AllInOrder, Phased, ReportsLive, Execute, NewConnection, HandleEvent;
    match e {
      case Dispatch(l, read) => DispatchReports(s, l, read);
      case RunFunctor(l) => FunctorReports(s, l);
      case Accept(fd, l) => AcceptReports(s, fd, l);
      case ForceClose(c) => ForceCloseReports(s, c);
      case Shutdown(c) => ShutdownReports(s, c);
      case Poll(l, rs) => PollReports(s, l, rs);
      case Take(l) => TakeReports(s, l);
      case _ => InterestEventReports(e, s);
    }
  }

  // ----- interest -----

  lemma InterestMask(w: World, op: R.Op<ConnId>)
    requires IsInterest(op) && HasChannel(w, op.c)
    ensures HasChannel(Interest(w, op), op.c)
    ensures ChanOf(Interest(w, op), op.c).events == R.NewMask(op, ChanOf(w, op.c).events)
    ensures Interest(w, op).conns == w.conns
  {
  }

  /** For this connection nothing has changed. */
  ghost predicate AsksAlike(s: State, t: State, d: ConnId) {
    && (d in t.backlog <==> d in s.backlog) && (d in s.backlog ==> t.backlog[d] == s.backlog[d])
    && (d in t.paused <==> d in s.paused)
    && (HasChannel(t.world, d) ==> Same(s.world, t.world, d))
  }

  /** A step that touches only connection c. */
  lemma BufferedAfter(s: State, t: State, c: ConnId)
    requires Buffered(s) && Asks(t, c) && forall d :: d != c ==> AsksAlike(s, t, d)
    ensures Buffered(t)
  {
    forall d
      ensures Asks(t, d)
    {
      assert Asks(s, d);
      assert d == c || AsksAlike(s, t, d);
    }
  }

  lemma SentAsks(s: State, c: ConnId, len: nat, taken: nat)
    requires HasChannel(s.world, c) && !s.world.conns[c].life.Disconnected? && taken <= len && Asks(s, c)
    ensures Asks(Sent(s, c, len, taken), c)
  {
    hide R.Writes, R.NewMask, R.ReadPart, Interest;
    R.WriteBit(R.EnableWriting(c), ChanOf(s.world, c).events);
    R.ReadBits(R.EnableWriting(c), ChanOf(s.world, c).events);
    InterestMask(s.world, R.EnableWriting(c));
  }

  lemma WrittenAsks(s: State, c: ConnId, written: nat)
    requires HasChannel(s.world, c) && written <= Backlog(s, c) && Asks(s, c)
    ensures Asks(Written(s, c, written), c)
  {
    hide R.Writes, R.NewMask, R.ReadPart, Interest;
    R.WriteBit(R.DisableWriting(c), ChanOf(s.world, c).events);
    R.ReadBits(R.DisableWriting(c), ChanOf(s.world, c).events);
    InterestMask(s.world, R.DisableWriting(c));
  }

  lemma ReadingAsks(s: State, op: R.Op<ConnId>, paused: set<ConnId>)
    requires HasChannel(s.world, op.c) && Asks(s, op.c) && 0 < s.world.conns[op.c].up
    requires if op.c in paused then op.DisableReading? else op.EnableReading?
    ensures Asks(s.(world := Interest(s.world, op), paused := paused), op.c)
  {
    hide R.Writes, R.NewMask, R.ReadPart, Interest;
    R.WriteBit(op, ChanOf(s.world, op.c).events);
    R.ReadBits(op, ChanOf(s.world, op.c).events);
    InterestMask(s.world, op);
  }

  lemma InterestAsks(e: Event, s: State)
    requires ChangesInterest(e) && Enabled(e, s) && Asks(s, e.c)
    ensures Asks(Step(e, s).value, e.c)
  {
    hide R.Writes, R.ReadPart, Interest, Sent, Written;
    match e {
      case Send(c, len, taken) => if !s.world.conns[c].life.Disconnected? { SentAsks(s, c, len, taken); }
      case HandleWrite(c, written) => WrittenAsks(s, c, written);
      case StartRead(c) => ReadingAsks(s, R.EnableReading(c), s.paused - {c});
      case StopRead(c) => ReadingAsks(s, R.DisableReading(c), s.paused + {c});
    }
  }

  lemma InterestKnown(w: World, op: R.Op<ConnId>, d: ConnId)
    requires IsInterest(op) && HasChannel(w, op.c)
    ensures Known(Interest(w, op), d) <==> Known(w, d)
  {
  }

  lemma InterestWorld(e: Event, s: State)
    requires ChangesInterest(e) && Enabled(e, s)
    ensures var t := Step(e, s).value; t.world == s.world || t.world == Interest(s.world, OpOf(e))
  {
    hide Interest;
  }

  lemma InterestSets(e: Event, s: State, d: ConnId)
    requires ChangesInterest(e) && Enabled(e, s) && e.c != d
    ensures var t := Step(e, s).value;
      && (d in t.backlog <==> d in s.backlog) && (d in s.backlog ==> t.backlog[d] == s.backlog[d])
      && (d in t.paused <==> d in s.paused)
  {
    hide Interest;
  }

  lemma InterestTouches(e: Event, s: State, d: ConnId)
    requires ChangesInterest(e) && Enabled(e, s) && e.c != d
    ensures AsksAlike(s, Step(e, s).value, d)
  {
    hide Interest, Step, Sent, Written;
    InterestWorld(e, s);
    InterestSets(e, s, d);
    InterestKnown(s.world, OpOf(e), d);
    if Known(s.world, d) {
      InterestSame(s.world, OpOf(e), d);
    }
  }

  lemma InterestBuffers(e: Event, s: State)
    requires Buffered(s) && ChangesInterest(e) && Enabled(e, s)
    ensures Buffered(Step(e, s).value)
  {
    hide Asks, AsksAlike, Sent, Written, Interest;
    var t := Step(e, s).value;
    InterestAsks(e, s);
    forall d | d != e.c
      ensures AsksAlike(s, t, d)
    {
      InterestTouches(e, s, d);
    }
    BufferedAfter(s, t, e.c);
  }

  lemma AsksAt(s: State, c: ConnId)
    requires Buffered(s)
    ensures AsksRightly(s, c)
  {
    assert Asks(s, c);
  }

  lemma WorldBuffers(s: State, t: State, c: ConnId)
    requires Buffered(s) && AllInOrder(s.world) && t.backlog == s.backlog && t.paused == s.paused
    requires t.world.conns.Keys <= s.world.conns.Keys + {c}
    requires forall d :: Known(s.world, d) && d != c ==> Same(s.world, t.world, d)
    requires AsksRightly(t, c)
    ensures Buffered(t)
  {
    hide AsksToWrite, AsksToRead;
    assert Asks(s, c);
    forall d | d != c
      ensures AsksAlike(s, t, d)
    {
      if HasChannel(t.world, d) {
        InOrderOf(s.world, d);
      }
    }
    BufferedAfter(s, t, c);
  }

  lemma CloseKeys(w: World, c: ConnId)
    requires Known(w, c) && HandleClose(w, c).Some?
    ensures HandleClose(w, c).value.conns.Keys == w.conns.Keys
    ensures HandleClose(w, c).value.conns[c].life.Disconnected?
    ensures HandleClose(w, c).value.conns[c].up == w.conns[c].up && HasChannel(w, c)
  {
  }

  lemma DispatchBuffers(s: State, l: Loop, read: Read)
    requires AllInOrder(s.world) && ReportsLive(s) && Buffered(s)
    requires Enabled(Dispatch(l, read), s) && Step(Dispatch(l, read), s).Some?
    ensures Buffered(Step(Dispatch(l, read), s).value)
  {
    hide AllInOrder, Buffered, HandleClose;
    var t, r := Step(Dispatch(l, read), s).value, s.phases[l].reports[0];
    assert Live(s.world, r.c, l);
    InOrderOf(s.world, r.c);
    EventCloses(s.world, r.c, r.revents, read);
    if Closings(r.revents, read) == 1 {
      CloseKeys(s.world, r.c);
    }
    AsksAt(s, r.c);
    forall d | Known(s.world, d) && d != r.c
      ensures Same(s.world, t.world, d)
    {
      EventSame(s.world, r.c, r.revents, read, d);
    }
    WorldBuffers(s, t, r.c);
  }

  /** What running a functor makes of its connection: established, with reading its only interest; or down;
      or, for a forced close that comes too late, as it was. */
  lemma FunctorOutcome(w: World, l: Loop)
    requires Teardown.Inv(w) && HasHead(w, l) && RunHead(w, l).Some?
    ensures var c, v := w.queues[l][0].c, RunHead(w, l).value;
      && v.conns.Keys == w.conns.Keys
      && (HasChannel(v, c) ==> HasChannel(w, c)) && (v.conns[c].up == 0 ==> w.conns[c].up == 0)
      && (|| v.conns[c].life.Disconnected?
          || (v.conns[c] == w.conns[c] && v.polls == w.polls)
          || (HasChannel(w, c) && w.conns[c].life.Connecting? && w.conns[c].up == 0
              && ChanOf(w, c).events == R.NONE_EVENT && HasChannel(v, c)
              && ChanOf(v, c).events == R.NewMask(R.EnableReading(c), R.NONE_EVENT)))
  {
    hide Good, PollsAgree, AllInOrder;
    HeadAsserts(w, l);
    HeadLife(w, l);
    InOrderOf(w, w.queues[l][0].c);
  }

  lemma FunctorAsks(s: State, t: State, l: Loop)
    requires Teardown.Inv(s.world) && HasHead(s.world, l) && RunHead(s.world, l) == Some(t.world)
    requires AsksRightly(s, s.world.queues[l][0].c) && t.backlog == s.backlog && t.paused == s.paused
    ensures AsksRightly(t, s.world.queues[l][0].c)
  {
    hide Teardown.Inv, RunHead, R.NewMask, R.Writes, R.ReadPart;
    FunctorOutcome(s.world, l);
    R.WriteBit(R.EnableReading(s.world.queues[l][0].c), R.NONE_EVENT);
    R.ReadBits(R.EnableReading(s.world.queues[l][0].c), R.NONE_EVENT);
  }

  lemma FunctorBuffers(s: State, l: Loop)
    requires Teardown.Inv(s.world) && Buffered(s) && Enabled(RunFunctor(l), s) && Step(RunFunctor(l), s).Some?
    ensures Buffered(Step(RunFunctor(l), s).value)
  {
    hide Good, PollsAgree, AllInOrder, Buffered, Execute;
    var t, c := Step(RunFunctor(l), s).value, s.world.queues[l][0].c;
    FunctorOutcome(s.world, l);
    AsksAt(s, c);
    FunctorAsks(s, t, l);
    forall d | Known(s.world, d) && d != c
      ensures Same(s.world, t.world, d)
    {
      FunctorSame(s.world, l, d);
    }
    WorldBuffers(s, t, c);
  }

  lemma NewOutcome(w: World, fd: int, l: Loop)
    requires CanAccept(w, fd, l) && NewConnection(w, fd, l).Some?
    ensures var c, v := w.nextId, NewConnection(w, fd, l).value;
      && v.conns.Keys == w.conns.Keys + {c} && HasChannel(v, c)
      && (|| (ChanOf(v, c).events == R.NONE_EVENT && v.conns[c].up == 0)
          || ChanOf(v, c).events == R.NewMask(R.EnableReading(c), R.NONE_EVENT))
  {
  }

  lemma AcceptBuffers(s: State, fd: int, l: Loop)
    requires Teardown.Inv(s.world) && Phased(s) && Buffered(s)
    requires Enabled(Accept(fd, l), s) && Step(Accept(fd, l), s).Some?
    ensures Buffered(Step(Accept(fd, l), s).value)
  {
    hide PollsAgree, AllInOrder, Buffered, NewConnection, R.NewMask;
    var t, c := Step(Accept(fd, l), s).value, s.world.nextId;
    NewOutcome(s.world, fd, l);
    R.WriteBit(R.EnableReading(c), R.NONE_EVENT);
    R.ReadBits(R.EnableReading(c), R.NONE_EVENT);
    assert c !in s.world.conns && !R.Writes(R.NONE_EVENT);
    forall d | Known(s.world, d) && d != c
      ensures Same(s.world, t.world, d)
    {
      AcceptSame(s.world, fd, l, d);
    }
    WorldBuffers(s, t, c);
  }

  lemma LeavingSame(w: World, c: ConnId, d: ConnId)
    requires Known(w, c) && Known(w, d) && d != c
    ensures Same(w, Teardown.ForceClose(w, c), d) && Same(w, Teardown.Shutdown(w, c), d)
  {
  }

  lemma LeavingBuffers(s: State, v: World, c: ConnId)
    requires AllInOrder(s.world) && Buffered(s) && Known(s.world, c)
    requires v == Teardown.ForceClose(s.world, c) || v == Teardown.Shutdown(s.world, c)
    ensures Buffered(s.(world := v))
  {
    hide AllInOrder, Buffered, Same;
    AsksAt(s, c);
    forall d | Known(s.world, d) && d != c
      ensures Same(s.world, v, d)
    {
      LeavingSame(s.world, c, d);
    }
    WorldBuffers(s, s.(world := v), c);
  }

  lemma QuietBuffers(s: State, t: State)
    requires Buffered(s) && t.world == s.world && t.backlog == s.backlog && t.paused == s.paused
    ensures Buffered(t)
  {
    forall c
      ensures Asks(t, c)
    {
      assert Asks(s, c);
    }
  }

  lemma BufferedKeeps(e: Event, s: State)
    requires Inv(s) && Enabled(e, s) && Step(e, s).Some?
    ensures Buffered(Step(e, s).value)
  {
    hide Good, PollsAgree, AllInOrder, Phased, ReportsLive, Buffered, Execute, NewConnection, HandleEvent;
    match e {
      case Dispatch(l, read) => DispatchBuffers(s, l, read);
      case RunFunctor(l) => FunctorBuffers(s, l);
      case Accept(fd, l) => AcceptBuffers(s, fd, l);
      case ForceClose(c) => LeavingBuffers(s, Teardown.ForceClose(s.world, c), c);
      case Shutdown(c) => LeavingBuffers(s, Teardown.Shutdown(s.world, c), c);
      case Poll(_, _) => QuietBuffers(s, Step(e, s).value);
      case Take(_) => QuietBuffers(s, Step(e, s).value);
      case _ => InterestBuffers(e, s);
    }
  }

  /** The kernel has the descriptor, for this connection and with this event. */
  predicate WatchedFor(w: World, c: ConnId, event: R.Mask)
    requires HasChannel(w, c)
  {
    WithKernel(w, c) && var p := w.polls[w.conns[c].loop]; p.kernel[p.chans[c].fd].0 & event != 0
  }

  lemma AsksIsWatched(s: State, c: ConnId)
    requires HasChannel(s.world, c) && R.Mirrors(s.world.polls[s.world.conns[c].loop], c) && Asks(s, c)
    requires InOrder(s.world, c)
    ensures !s.world.conns[c].life.Disconnected? ==> (0 < Backlog(s, c) <==> WatchedFor(s.world, c, R.EPOLLOUT))
  {
    hide AsksToRead;
    assert !R.Writes(R.NONE_EVENT);
  }

  lemma AsksIsHeard(s: State, c: ConnId)
    requires HasChannel(s.world, c) && R.Mirrors(s.world.polls[s.world.conns[c].loop], c) && Asks(s, c)
    requires InOrder(s.world, c) && Open(s.world.conns[c])
    ensures c !in s.paused <==> WatchedFor(s.world, c, R.EPOLLIN)
    ensures c !in s.paused <==> WatchedFor(s.world, c, R.EPOLLPRI)
  {
    hide AsksToWrite;
    R.BothBits(ChanOf(s.world, c).events);
    R.BothBits(R.NONE_EVENT);
  }

  // ----- what each event does -----

  /** Reading is stopped by StopRead and by nothing else, and lasts until StartRead. */
  lemma PausedIff(e: Event, s: State, c: ConnId)
    requires Enabled(e, s) && Step(e, s).Some?
    ensures c in Step(e, s).value.paused <==> e == StopRead(c) || (c in s.paused && e != StartRead(c))
  {
    hide HandleEvent, NewConnection, RunHead, Interest;
  }

  /** The bytes a write gives to the kernel: a direct one, made only when none wait, or one of the buffer. */
  function ToKernel(e: Event, s: State): nat {
    if e.Send? && Backlog(s, e.c) == 0 then e.taken else if e.HandleWrite? then e.written else 0
  }

  lemma SentBytes(s: State, c: ConnId, len: nat, taken: nat)
    requires HasChannel(s.world, c) && !s.world.conns[c].life.Disconnected? && taken <= len && Asks(s, c)
    ensures Backlog(Sent(s, c, len, taken), c) + ToKernel(Send(c, len, taken), s) == Backlog(s, c) + len
  {
    hide Interest, R.Writes, AsksToRead;
  }

  lemma WrittenBytes(s: State, c: ConnId, written: nat)
    requires HasChannel(s.world, c) && !s.world.conns[c].life.Disconnected? && written <= Backlog(s, c) && Asks(s, c)
    ensures Backlog(Written(s, c, written), c) + written == Backlog(s, c)
  {
    hide Interest, R.Writes, AsksToRead;
  }

  /** The byte count of output buffers: until a connection is down, what waits and what goes to the kernel
      is what waited and what was sent; no event changes the count of another connection. */
  lemma BytesKept(e: Event, s: State, c: ConnId)
    requires Inv(s) && Enabled(e, s) && Step(e, s).Some?
    ensures var t := Step(e, s).value;
      if (e.Send? || e.HandleWrite?) && e.c == c && !s.world.conns[c].life.Disconnected?
      then Backlog(t, c) + ToKernel(e, s) == Backlog(s, c) + if e.Send? then e.len else 0
      else Backlog(t, c) == Backlog(s, c)
  {
    hide Good, PollsAgree, AllInOrder, Phased, ReportsLive, AsksRightly, HandleEvent, NewConnection, RunHead, Interest;
    assert Asks(s, c);
    match e {
      case Send(d, len, taken) =>
        if d == c && !s.world.conns[c].life.Disconnected? {
          SentBytes(s, c, len, taken);
        }
      case HandleWrite(d, written) =>
        if d == c {
          if s.world.conns[c].life.Disconnected? {
            ClosedWatchesNothing(s.world, c);
          } else {
            WrittenBytes(s, c, written);
          }
        }
      case _ =>
    }
  }

  /** Shutdown and ForceClose: the state changes at once, and only a forced close leaves work behind, at the
      end of the queue of the connection's own loop. */
  lemma Leaves(e: Event, s: State)
    requires (e.Shutdown? || e.ForceClose?) && Enabled(e, s)
    ensures var w, v := s.world, Step(e, s).value.world;
      var k := w.conns[e.c];
      && v.conns == w.conns[e.c := k.(life := if k.life.Connected? then Disconnecting else k.life)]
      && (e.ForceClose? && Open(k) ==> v.queues == w.queues[k.loop := w.queues[k.loop] + [ForceCloseInLoop(e.c)]])
      && (e.Shutdown? || !Open(k) ==> v.queues == w.queues)
      && v.polls == w.polls && v.server == w.server
  {
  }

  /** A new connection: the descriptor and the loop that were chosen, connected at once on the accepting
      loop and about to be on any other; the others are as they were. */
  lemma Accepts(s: State, fd: int, l: Loop)
    requires Inv(s) && Enabled(Accept(fd, l), s) && Step(Accept(fd, l), s).Some?
    ensures var w, v := s.world, Step(Accept(fd, l), s).value.world;
      && w.nextId !in w.conns && v.conns.Keys == w.conns.Keys + {w.nextId} && v.nextId == w.nextId + 1
      && v.conns[w.nextId] == Conn(l, fd, if l == 0 then Connected else Connecting, if l == 0 then 1 else 0, 0, 0, 0)
      && (forall c :: c in w.conns ==> v.conns[c] == w.conns[c])
      && v.server == w.server + {w.nextId}
  {
    hide PollsAgree, AllInOrder, Phased, ReportsLive, Buffered;
  }

  // ----- whole runs -----

  /** One step: no assert fails, every connection stays in order, every report waiting to be dispatched
      names a channel that exists, of a connection that is up, and interest is right. */
  lemma StepKeeps(e: Event, s: State)
    requires Inv(s) && Enabled(e, s) && Heedful(e, s)
    ensures Step(e, s).Some? && Inv(Step(e, s).value)
  {
    hide PollsAgree, AllInOrder, Phased, ReportsLive, Buffered, Execute, NewConnection, HandleEvent;
    WorldKeeps(e, s);
    PhasedKeeps(e, s);
    ReportsKeep(e, s);
    BufferedKeeps(e, s);
  }

  /** Teardown in order, in every heedful interleaving of all loops and all users: no assert of the source
      fails, and the invariant holds throughout. So a connection is erased from the server's map at most
      once and always found there, ConnectDestroyed runs at most once and only after that, on the
      connection's own loop and with an empty event mask, no report is ever dispatched to a channel that
      is gone, and the user sees "up" once and then "down" at most once. */
  lemma {:induction false} TeardownInOrder(es: seq<Event>, s: State)
    requires Inv(s) && HeedfulRun(es, s)
    ensures Run(es, s).Some? && Inv(Run(es, s).value)
  {
    hide Inv, Step, Heedful;
    if es != [] {
      if Enabled(es[0], s) {
        StepKeeps(es[0], s);
        TeardownInOrder(es[1..], Step(es[0], s).value);
      } else {
        TeardownInOrder(es[1..], s);
      }
    }
  }

  /** Write interest, under every heedful schedule: until a connection is down, the kernel watches its
      descriptor for EPOLLOUT if and only if bytes are waiting in its output buffer. So no waiting byte is
      forgotten, and no loop spins on a descriptor it has nothing to write to. */
  lemma KernelWatchesOutput(es: seq<Event>, s: State, c: ConnId)
    requires Inv(s) && HeedfulRun(es, s)
    ensures Run(es, s).Some?
    ensures var t := Run(es, s).value;
      HasChannel(t.world, c) && !t.world.conns[c].life.Disconnected? ==>
        (0 < Backlog(t, c) <==> WatchedFor(t.world, c, R.EPOLLOUT))
  {
    hide Run, HeedfulRun, Good, Phased, ReportsLive, AllInOrder, AsksToWrite;
    TeardownInOrder(es, s);
    var t := Run(es, s).value;
    assert Asks(t, c);
    if HasChannel(t.world, c) {
      assert R.Mirrors(t.world.polls[t.world.conns[c].loop], c);
      InOrderOf(t.world, c);
      AsksIsWatched(t, c);
    }
  }

  /** Read interest, likewise: while a connection is up, the kernel watches its descriptor for readable and
      urgent data if and only if reading is not stopped. So nothing the peer sends goes unheard, and a
      stopped connection is left alone. */
  lemma KernelWatchesInput(es: seq<Event>, s: State, c: ConnId)
    requires Inv(s) && HeedfulRun(es, s)
    ensures Run(es, s).Some?
    ensures var t := Run(es, s).value;
      HasChannel(t.world, c) && Open(t.world.conns[c]) ==>
        && (c !in t.paused <==> WatchedFor(t.world, c, R.EPOLLIN))
        && (c !in t.paused <==> WatchedFor(t.world, c, R.EPOLLPRI))
  {
    hide Run, HeedfulRun, Good, Phased, ReportsLive, AsksRightly, WatchedFor;
    TeardownInOrder(es, s);
    var t := Run(es, s).value;
    if HasChannel(t.world, c) && Open(t.world.conns[c]) {
      assert Asks(t, c);
      assert R.Mirrors(t.world.polls[t.world.conns[c].loop], c);
      AsksIsHeard(t, c);
    }
  }

  /** What is left when all queues are empty: connections that are up, and connections that were opened,
      closed, erased and destroyed exactly once and of which neither server nor poller knows any more. */
  lemma WhenQuiet(s: State, c: ConnId)
    requires Inv(s) && c in s.world.conns && forall l :: l in s.world.queues ==> s.world.queues[l] == []
    ensures Open(s.world.conns[c]) || Gone(s.world, c)
    ensures var w := s.world; !Open(w.conns[c]) ==>
      && w.conns[c].up == 1 && w.conns[c].down == 1 && w.conns[c].erased == 1 && w.conns[c].destroyed == 1
      && c !in w.server && forall l :: l in w.polls ==> c !in w.polls[l].chans
  {
    hide PollsAgree, Phased, ReportsLive;
    assert InOrder(s.world, c);
  }

  /** No loop is ever stuck: whatever its phase, the next thing it has to do is possible. */
  lemma LoopGoesOn(s: State, l: Loop, read: Read)
    requires Inv(s) && l in s.phases
    ensures match s.phases[l]
      case Dispatching(rs) => if rs == [] then Enabled(Take(l), s) else Enabled(Dispatch(l, read), s)
      case Running(n) => if n == 0 then Enabled(Poll(l, []), s) else Enabled(RunFunctor(l), s)
  {
    hide PollsAgree, AllInOrder;
    match s.phases[l]
    case Dispatching(rs) => if rs != [] { assert Live(s.world, rs[0].c, l); }
    case Running(n) => if n != 0 { assert Placed(s.world, l, s.world.queues[l][0]); }
  }

  // ----- heedfulness is exactly what it takes -----

  lemma UnwatchedCloseIsHeard(w: World, c: ConnId)
    requires Teardown.Inv(w) && HasChannel(w, c) && Open(w.conns[c]) && !IsAdded(w, c)
    ensures HandleClose(w, c).Some? && !Deaf(HandleClose(w, c).value)
  {
    hide Good, AllInOrder;
    assert AllInOrder(w);
    InOrderOf(w, c);
    CloseSilencesIff(w, c);
  }

  lemma UnheedfulDispatch(s: State, l: Loop, read: Read)
    requires Teardown.Inv(s.world) && ReportsLive(s) && Enabled(Dispatch(l, read), s) && !Heedful(Dispatch(l, read), s)
    ensures var t := Step(Dispatch(l, read), s); t.Some? ==> !Deaf(t.value.world)
  {
    hide Good, PollsAgree, AllInOrder, Deaf;
    var r := s.phases[l].reports[0];
    assert Live(s.world, r.c, l);
    EventCloses(s.world, r.c, r.revents, read);
    if Closings(r.revents, read) == 1 {
      UnwatchedCloseIsHeard(s.world, r.c);
    }
  }

  lemma UnheedfulFunctor(s: State, l: Loop)
    requires Teardown.Inv(s.world) && Enabled(RunFunctor(l), s) && !Heedful(RunFunctor(l), s)
    ensures var t := Step(RunFunctor(l), s); t.Some? ==> !Deaf(t.value.world)
  {
    hide Good, PollsAgree, AllInOrder, Deaf;
    PopForceClose(s.world, l);
    UnwatchedCloseIsHeard(Popped(s.world, l), s.world.queues[l][0].c);
  }

  lemma UnheedfulInterest(e: Event, s: State)
    requires Teardown.Inv(s.world) && Enabled(e, s) && (e.StartRead? || e.StopRead?) && !Heedful(e, s)
    ensures !Deaf(Step(e, s).value.world)
  {
    hide Good, AllInOrder;
    InOrderOf(s.world, e.c);
    ClosedWatchesNothing(s.world, e.c);
    LateInterest(s.world, OpOf(e));
    assert Step(e, s).value.world == Interest(s.world, OpOf(e));
  }

  /** A step, with no assert failing, leaves every closed connection out of the kernel's reach if and only
      if it is heedful. */
  lemma HeedfulIff(e: Event, s: State)
    requires Inv(s) && Enabled(e, s)
    ensures Heedful(e, s) <==> Step(e, s).Some? && Deaf(Step(e, s).value.world)
  {
    hide Good, PollsAgree, AllInOrder, Phased, ReportsLive, Execute, NewConnection, HandleEvent, Deaf;
    if Heedful(e, s) {
      WorldKeeps(e, s);
      InvIsDeaf(Step(e, s).value.world);
    } else {
      match e {
        case Dispatch(l, read) => UnheedfulDispatch(s, l, read);
        case RunFunctor(l) => UnheedfulFunctor(s, l);
        case _ => UnheedfulInterest(e, s);
      }
    }
  }

  /** No assert fails along the run, and no closed connection can be heard of again at any point of it. */
  ghost predicate AlwaysDeaf(es: seq<Event>, s: State) {
    es == [] ||
    if !Enabled(es[0], s) then AlwaysDeaf(es[1..], s)
    else Step(es[0], s).Some? && Deaf(Step(es[0], s).value.world) && AlwaysDeaf(es[1..], Step(es[0], s).value)
  }

  /** And so for runs: a schedule is heedful if and only if no assert fails along it and no closed
      connection ever gets back into the kernel's reach. */
  lemma {:induction false} HeedfulRunIff(es: seq<Event>, s: State)
    requires Inv(s)
    ensures HeedfulRun(es, s) <==> AlwaysDeaf(es, s)
  {
    hide Inv, Step, Heedful, Deaf;
    if es != [] {
      if Enabled(es[0], s) {
        HeedfulIff(es[0], s);
        if Heedful(es[0], s) {
          StepKeeps(es[0], s);
          HeedfulRunIff(es[1..], Step(es[0], s).value);
        }
      } else {
        HeedfulRunIff(es[1..], s);
      }
    }
  }

  // ----- what happens otherwise -----

  lemma RunOne(e: Event, es: seq<Event>, s: State)
    requires Enabled(e, s) && Step(e, s).Some?
    ensures Run([e] + es, s) == Run(es, Step(e, s).value)
  {
    hide Step;
    assert ([e] + es)[1..] == es;
  }

  lemma RunLast(e: Event, s: State)
    requires Enabled(e, s) && Step(e, s).None?
    ensures Run([e], s).None?
  {
    hide Step;
  }

  function HangUp(c: ConnId, l: Loop): seq<Event> {
    [Poll(l, [Report(c, HANG_UP)])] + [Dispatch(l, Data)]
  }

  /** A closed connection that can be heard of again is fatal: when its loop next polls, a hang-up may be
      reported for it, and HandleClose then finds it closed. */
  lemma HeardIsFatal(s: State, c: ConnId)
    requires HasChannel(s.world, c) && s.world.conns[c].life.Disconnected? && WithKernel(s.world, c)
    requires s.world.conns[c].loop in s.phases && s.phases[s.world.conns[c].loop] == Running(0)
    ensures Run(HangUp(c, s.world.conns[c].loop), s).None?
  {
    var l := s.world.conns[c].loop;
    var rs := [Report(c, HANG_UP)];
    assert Reportable(s.world, l, rs[0]);
    var t := AtPhase(s, l, Dispatching(rs));
    RunOne(Poll(l, rs), [Dispatch(l, Data)], s);
    RunLast(Dispatch(l, Data), t);
  }

  /** A fresh connection on the accepting loop, with its events enabled. */
  lemma Accepted(s: State, fd: int) returns (t: State)
    requires Enabled(Accept(fd, 0), s)
    ensures Step(Accept(fd, 0), s) == Some(t) && t.phases == s.phases && t.paused == s.paused
    ensures var c, w := s.world.nextId, t.world;
      && HasChannel(w, c) && w.conns[c].loop == 0 && Open(w.conns[c]) && 0 < w.conns[c].up && c in w.server
      && ChanOf(w, c) == R.Chan(fd, R.READ_EVENT, R.Added) && w.queues == s.world.queues
  {
    assert R.NONE_EVENT | R.READ_EVENT == R.READ_EVENT;
    t := Step(Accept(fd, 0), s).value;
  }

  lemma Stopped(s: State, c: ConnId) returns (t: State)
    requires Enabled(StopRead(c), s) && c !in s.paused
    requires ChanOf(s.world, c).events == R.READ_EVENT && IsAdded(s.world, c)
    ensures Step(StopRead(c), s) == Some(t) && t.phases == s.phases
    ensures var w := t.world;
      && HasChannel(w, c) && w.conns == s.world.conns && w.server == s.world.server && w.queues == s.world.queues
      && ChanOf(w, c).index.Deleted?
  {
    assert R.READ_EVENT & !R.READ_EVENT == R.NONE_EVENT;
    t := Step(StopRead(c), s).value;
  }

  lemma CloseStays(w: World, c: ConnId)
    requires HasChannel(w, c) && HandleClose(w, c).Some?
    ensures HandleClose(w, c).value.conns[c].loop == w.conns[c].loop
  {
  }

  /** The states that forcing a close goes through, up to one in which the connection can be heard of. */
  predicate ForcedThrough(c: ConnId, l: Loop, s: State, s1: State, s2: State, s3: State) {
    && Enabled(ForceClose(c), s) && Step(ForceClose(c), s) == Some(s1)
    && Enabled(Take(l), s1) && Step(Take(l), s1) == Some(s2)
    && Enabled(RunFunctor(l), s2) && Step(RunFunctor(l), s2) == Some(s3)
    && HasChannel(s3.world, c) && s3.world.conns[c].life.Disconnected? && WithKernel(s3.world, c)
    && s3.world.conns[c].loop == l && l in s3.phases && s3.phases[l] == Running(0)
  }

  lemma ForcedStates(s: State, c: ConnId) returns (s1: State, s2: State, s3: State)
    requires HasChannel(s.world, c) && Open(s.world.conns[c]) && !IsAdded(s.world, c)
    requires var l := s.world.conns[c].loop;
      l in s.phases && s.phases[l] == Dispatching([]) && l in s.world.queues && s.world.queues[l] == []
    requires Teardown.Inv(s.world)
    ensures ForcedThrough(c, s.world.conns[c].loop, s, s1, s2, s3)
  {
    hide Good, PollsAgree, AllInOrder;
    var l := s.world.conns[c].loop;
    s1 := Step(ForceClose(c), s).value;
    s2 := Step(Take(l), s1).value;
    LeavingKeeps(s.world, c);
    assert s2.world.queues[l] == [ForceCloseInLoop(c)];
    PopForceClose(s2.world, l);
    var u := Popped(s2.world, l);
    InOrderOf(u, c);
    CloseSilencesIff(u, c);
    CloseStays(u, c);
    s3 := Step(RunFunctor(l), s2).value;
  }

  /** Forcing the close of a connection that watches nothing, on a loop with nothing else to do. */
  lemma ForcedUnwatched(s: State, c: ConnId)
    requires HasChannel(s.world, c) && Open(s.world.conns[c]) && !IsAdded(s.world, c)
    requires var l := s.world.conns[c].loop;
      l in s.phases && s.phases[l] == Dispatching([]) && l in s.world.queues && s.world.queues[l] == []
    requires Teardown.Inv(s.world)
    ensures var l := s.world.conns[c].loop;
      Run([ForceClose(c)] + ([Take(l)] + ([RunFunctor(l)] + HangUp(c, l))), s).None?
  {
    hide Teardown.Inv, Step, Run, HandleClose;
    var l := s.world.conns[c].loop;
    var s1, s2, s3 := ForcedStates(s, c);
    RunOne(RunFunctor(l), HangUp(c, l), s2);
    RunOne(Take(l), [RunFunctor(l)] + HangUp(c, l), s1);
    RunOne(ForceClose(c), [Take(l)] + ([RunFunctor(l)] + HangUp(c, l)), s);
    HeardIsFatal(s3, c);
  }

  lemma StillSound(s: State, t: State, c: ConnId)
    requires Enabled(StopRead(c), s) && Open(s.world.conns[c]) && Step(StopRead(c), s) == Some(t)
    requires Teardown.Inv(s.world)
    ensures Teardown.Inv(t.world)
  {
    hide Good, PollsAgree, AllInOrder;
    InterestEventKeeps(StopRead(c), s);
  }

  function StopThenClose(c: ConnId, fd: int): seq<Event> {
    [Poll(0, [])] + ([Accept(fd, 0)] + ([StopRead(c)] +
    ([ForceClose(c)] + ([Take(0)] + ([RunFunctor(0)] + HangUp(c, 0))))))
  }

  /** Whenever the accepting loop is idle: it accepts a connection for itself, the user stops reading from
      it and forces it closed, the peer hangs up; and an assert fails. */
  lemma CloseAfterStopReadFails(s: State, fd: int)
    requires Inv(s) && 0 in s.phases && s.phases[0] == Running(0) && s.world.queues[0] == []
    requires CanAccept(s.world, fd, 0)
    ensures Run(StopThenClose(s.world.nextId, fd), s).None?
  {
    hide PollsAgree, AllInOrder, ReportsLive;
    var c := s.world.nextId;
    var rest := [ForceClose(c)] + ([Take(0)] + ([RunFunctor(0)] + HangUp(c, 0)));
    var s1 := AtPhase(s, 0, Dispatching([]));
    assert Step(Poll(0, []), s) == Some(s1);
    var s2 := Accepted(s1, fd);
    AcceptKeeps(s1.world, fd, 0);
    var s3 := Stopped(s2, c);
    StillSound(s2, s3, c);
    ForcedUnwatched(s3, c);
    RunOne(StopRead(c), rest, s2);
    RunOne(Accept(fd, 0), [StopRead(c)] + rest, s1);
    RunOne(Poll(0, []), [Accept(fd, 0)] + ([StopRead(c)] + rest), s);
  }

  lemma AcceptedElsewhere(s: State, fd: int, l: Loop) returns (t: State)
    requires Enabled(Accept(fd, l), s) && l != 0 && s.world.queues[l] == []
    ensures Step(Accept(fd, l), s) == Some(t) && t.phases == s.phases && t.paused == s.paused
    ensures var c, w := s.world.nextId, t.world;
      && HasChannel(w, c) && w.conns[c] == Conn(l, fd, Connecting, 0, 0, 0, 0)
      && ChanOf(w, c) == R.Chan(fd, R.NONE_EVENT, R.New) && l in w.queues && w.queues[l] == [Establish(c)]
  {
    t := Step(Accept(fd, l), s).value;
  }

  lemma EstablishedHere(s: State, c: ConnId, fd: int, l: Loop) returns (t: State)
    requires Enabled(RunFunctor(l), s) && s.phases[l] == Running(1) && s.world.queues[l] == [Establish(c)]
    requires HasChannel(s.world, c) && s.world.conns[c] == Conn(l, fd, Connecting, 0, 0, 0, 0)
    requires ChanOf(s.world, c) == R.Chan(fd, R.NONE_EVENT, R.New)
    ensures Step(RunFunctor(l), s) == Some(t) && l in t.phases && t.phases[l] == Running(0) && t.paused == s.paused
    ensures var w := t.world;
      && HasChannel(w, c) && w.conns[c].loop == l && Open(w.conns[c]) && 0 < w.conns[c].up
      && l in w.queues && w.queues[l] == []
      && ChanOf(w, c) == R.Chan(fd, R.READ_EVENT, R.Added)
  {
    assert R.NONE_EVENT | R.READ_EVENT == R.READ_EVENT;
    t := Step(RunFunctor(l), s).value;
  }

  function Establishing(fd: int, l: Loop, es: seq<Event>): seq<Event> {
    [Poll(0, [])] + ([Accept(fd, l)] + ([Poll(l, [])] + ([Take(l)] + ([RunFunctor(l)] + es))))
  }

  /** A connection on another loop than the accepting one, established there. */
  lemma Established(s: State, fd: int, l: Loop) returns (t: State)
    requires Inv(s) && l != 0 && 0 in s.phases && s.phases[0] == Running(0)
    requires l in s.phases && s.phases[l] == Running(0) && s.world.queues[l] == [] && CanAccept(s.world, fd, l)
    ensures forall es :: Run(Establishing(fd, l, es), s) == Run(es, t)
    ensures Inv(t) && l in t.phases && t.phases[l] == Running(0) && t.paused == s.paused
    ensures var c, w := s.world.nextId, t.world;
      && HasChannel(w, c) && w.conns[c].loop == l && Open(w.conns[c]) && 0 < w.conns[c].up
      && l in w.queues && w.queues[l] == []
      && ChanOf(w, c) == R.Chan(fd, R.READ_EVENT, R.Added)
  {
    hide Teardown.Inv, Phased, ReportsLive, Run;
    var s1 := AtPhase(s, 0, Dispatching([]));
    StepKeeps(Poll(0, []), s);
    var s2 := AcceptedElsewhere(s1, fd, l);
    StepKeeps(Accept(fd, l), s1);
    var s3 := AtPhase(s2, l, Dispatching([]));
    StepKeeps(Poll(l, []), s2);
    var s4 := AtPhase(s3, l, Running(1));
    StepKeeps(Take(l), s3);
    assert Step(Take(l), s3) == Some(s4);
    t := EstablishedHere(s4, s.world.nextId, fd, l);
    StepKeeps(RunFunctor(l), s4);
    forall es
      ensures Run(Establishing(fd, l, es), s) == Run(es, t)
    {
      RunOne(RunFunctor(l), es, s4);
      RunOne(Take(l), [RunFunctor(l)] + es, s3);
      RunOne(Poll(l, []), [Take(l)] + ([RunFunctor(l)] + es), s2);
      RunOne(Accept(fd, l), [Poll(l, [])] + ([Take(l)] + ([RunFunctor(l)] + es)), s1);
      RunOne(Poll(0, []), [Accept(fd, l)] + ([Poll(l, [])] + ([Take(l)] + ([RunFunctor(l)] + es))), s);
    }
  }

  /** A hang-up dispatched on such a loop when its connection watches nothing any more. */
  lemma StaleStates(s: State, c: ConnId, l: Loop) returns (s1: State, s2: State)
    requires HasChannel(s.world, c) && Open(s.world.conns[c]) && s.world.conns[c].loop == l && l != 0
    requires PollsAgree(s.world.polls) && ChanOf(s.world, c).index.Deleted?
    requires l in s.phases && s.phases[l] == Dispatching([Report(c, HANG_UP)]) && s.world.queues[l] == []
    ensures Enabled(Dispatch(l, Data), s) && Step(Dispatch(l, Data), s) == Some(s1)
    ensures Enabled(Take(l), s1) && Step(Take(l), s1) == Some(s2)
    ensures HasChannel(s2.world, c) && s2.world.conns[c].life.Disconnected? && WithKernel(s2.world, c)
    ensures s2.world.conns[c].loop == l && l in s2.phases && s2.phases[l] == Running(0)
  {
    DownKernel(s.world, c);
    assert [Report(c, HANG_UP)][1..] == [];
    s1 := Step(Dispatch(l, Data), s).value;
    s2 := Step(Take(l), s1).value;
  }

  lemma StaleCloseFails(s: State, c: ConnId, l: Loop)
    requires HasChannel(s.world, c) && Open(s.world.conns[c]) && s.world.conns[c].loop == l && l != 0
    requires PollsAgree(s.world.polls) && ChanOf(s.world, c).index.Deleted?
    requires l in s.phases && s.phases[l] == Dispatching([Report(c, HANG_UP)]) && s.world.queues[l] == []
    ensures Run([Dispatch(l, Data)] + ([Take(l)] + HangUp(c, l)), s).None?
  {
    hide Run, Step, PollsAgree;
    var s1, s2 := StaleStates(s, c, l);
    HeardIsFatal(s2, c);
    RunOne(Take(l), HangUp(c, l), s1);
    RunOne(Dispatch(l, Data), [Take(l)] + HangUp(c, l), s);
  }

  lemma Watched(w: World, c: ConnId)
    requires PollsAgree(w.polls) && HasChannel(w, c) && IsAdded(w, c)
    ensures WithKernel(w, c)
  {
    assert R.Mirrors(w.polls[w.conns[c].loop], c);
  }

  lemma PolledHangUp(s: State, c: ConnId, l: Loop) returns (t: State)
    requires Inv(s) && HasChannel(s.world, c) && s.world.conns[c].loop == l && IsAdded(s.world, c)
    requires l in s.phases && s.phases[l] == Running(0)
    ensures var e := Poll(l, [Report(c, HANG_UP)]);
      Enabled(e, s) && Step(e, s) == Some(t) && t == AtPhase(s, l, Dispatching([Report(c, HANG_UP)]))
    ensures Inv(t)
  {
    hide Good, PollsAgree, AllInOrder, Phased, ReportsLive;
    var e := Poll(l, [Report(c, HANG_UP)]);
    Watched(s.world, c);
    assert Reportable(s.world, l, [Report(c, HANG_UP)][0]);
    StepKeeps(e, s);
    t := Step(e, s).value;
  }

  lemma PollsOf(w: World)
    requires Teardown.Inv(w)
    ensures PollsAgree(w.polls)
  {
  }

  lemma NotPausedYet(s: State)
    requires Inv(s)
    ensures s.world.nextId !in s.paused
  {
  }

  function StaleReport(c: ConnId, fd: int, l: Loop): seq<Event> {
    Establishing(fd, l, [Poll(l, [Report(c, HANG_UP)])] +
      ([StopRead(c)] + ([Dispatch(l, Data)] + ([Take(l)] + HangUp(c, l)))))
  }

  /** A stale report, whenever two loops are idle: a hang-up is reported for an established connection, but
      a handler that is dispatched before it stops reading from that connection. Closing it then adds it to
      epoll again, and the next hang-up fails an assert. */
  lemma StaleReportFails(s: State, fd: int, l: Loop)
    requires Inv(s) && l != 0 && 0 in s.phases && s.phases[0] == Running(0)
    requires l in s.phases && s.phases[l] == Running(0) && s.world.queues[l] == [] && CanAccept(s.world, fd, l)
    ensures Run(StaleReport(s.world.nextId, fd, l), s).None?
  {
    hide Run, Step, Teardown.Inv, ReportsLive;
    var c := s.world.nextId;
    NotPausedYet(s);
    var t := Established(s, fd, l);
    var t1 := PolledHangUp(t, c, l);
    var t2 := Stopped(t1, c);
    StillSound(t1, t2, c);
    PollsOf(t2.world);
    StaleCloseFails(t2, c, l);
    RunOne(StopRead(c), [Dispatch(l, Data)] + ([Take(l)] + HangUp(c, l)), t1);
    RunOne(Poll(l, [Report(c, HANG_UP)]), [StopRead(c)] + ([Dispatch(l, Data)] + ([Take(l)] + HangUp(c, l))), t);
  }

  /** Changing the interest of a closed connection, where the flags let it happen, makes it heard again. */
  lemma LateInterestIsHeard(e: Event, s: State)
    requires e.StartRead? || (e.StopRead? && e.c !in s.paused)
    requires Enabled(e, s) && s.world.conns[e.c].life.Disconnected? && Inv(s)
    ensures var w := Step(e, s).value.world;
      HasChannel(w, e.c) && w.conns == s.world.conns && WithKernel(w, e.c)
  {
    hide Good, PollsAgree, AllInOrder, Phased, ReportsLive;
    InOrderOf(s.world, e.c);
    ClosedWatchesNothing(s.world, e.c);
    LateInterest(s.world, OpOf(e));
  }

  lemma ClosedElsewhere(w: World, c: ConnId)
    requires HasChannel(w, c) && Open(w.conns[c]) && w.conns[c].loop != 0
    ensures var r, l := HandleClose(w, c), w.conns[c].loop;
      && r.Some? && HasChannel(r.value, c) && r.value.conns[c].loop == l
      && r.value.conns[c].life.Disconnected? && r.value.conns[c].up == w.conns[c].up
      && l in r.value.queues && r.value.queues[l] == w.queues[l]
  {
    ApplyKeys(w.polls[w.conns[c].loop], R.DisableAll(c));
  }

  lemma ClosedByHangUp(s: State, c: ConnId, l: Loop) returns (s1: State, s2: State)
    requires Inv(s) && HasChannel(s.world, c) && Open(s.world.conns[c]) && s.world.conns[c].loop == l && l != 0
    requires 0 < s.world.conns[c].up && IsAdded(s.world, c)
    requires l in s.phases && s.phases[l] == Dispatching([Report(c, HANG_UP)]) && s.world.queues[l] == []
    ensures Enabled(Dispatch(l, Data), s) && Step(Dispatch(l, Data), s) == Some(s1)
    ensures Enabled(Take(l), s1) && Step(Take(l), s1) == Some(s2) && Inv(s2)
    ensures HasChannel(s2.world, c) && s2.world.conns[c].life.Disconnected? && 0 < s2.world.conns[c].up
    ensures s2.world.conns[c].loop == l && l in s2.phases && s2.phases[l] == Running(0) && s2.paused == s.paused
  {
    hide Good, PollsAgree, AllInOrder, ReportsLive, Phased, HandleClose;
    assert [Report(c, HANG_UP)][1..] == [];
    StepKeeps(Dispatch(l, Data), s);
    s1 := Step(Dispatch(l, Data), s).value;
    assert s1.world == HandleClose(s.world, c).value;
    ClosedElsewhere(s.world, c);
    assert Enabled(Take(l), s1);
    StepKeeps(Take(l), s1);
    s2 := Step(Take(l), s1).value;
  }

  lemma StoppedLate(s: State, c: ConnId) returns (t: State)
    requires Enabled(StopRead(c), s)
    ensures Step(StopRead(c), s) == Some(t) && t.phases == s.phases
  {
    t := Step(StopRead(c), s).value;
  }

  function LateStop(c: ConnId, fd: int, l: Loop): seq<Event> {
    Establishing(fd, l, [Poll(l, [Report(c, HANG_UP)])] +
      ([Dispatch(l, Data)] + ([Take(l)] + ([StopRead(c)] + HangUp(c, l)))))
  }

  /** Reading stopped too late, whenever two loops are idle: the connection is closed by a hang-up, the
      user stops reading from it before it is destroyed, and the next hang-up fails an assert. */
  lemma LateStopReadFails(s: State, fd: int, l: Loop)
    requires Inv(s) && l != 0 && 0 in s.phases && s.phases[0] == Running(0)
    requires l in s.phases && s.phases[l] == Running(0) && s.world.queues[l] == [] && CanAccept(s.world, fd, l)
    ensures Run(LateStop(s.world.nextId, fd, l), s).None?
  {
    hide Run, Step, Teardown.Inv, ReportsLive;
    var c := s.world.nextId;
    NotPausedYet(s);
    var t := Established(s, fd, l);
    var t1 := PolledHangUp(t, c, l);
    var t2, t3 := ClosedByHangUp(t1, c, l);
    LateInterestIsHeard(StopRead(c), t3);
    var t4 := StoppedLate(t3, c);
    HeardIsFatal(t4, c);
    RunOne(StopRead(c), HangUp(c, l), t3);
    RunOne(Take(l), [StopRead(c)] + HangUp(c, l), t2);
    RunOne(Dispatch(l, Data), [Take(l)] + ([StopRead(c)] + HangUp(c, l)), t1);
    RunOne(Poll(l, [Report(c, HANG_UP)]), [Dispatch(l, Data)] + ([Take(l)] + ([StopRead(c)] + HangUp(c, l))), t);
  }

  const URGENT_HANG_UP := Revents(true, false, true, false, false)

  lemma UrgentIsReportable(w: World, c: ConnId)
    requires Teardown.Inv(w) && HasChannel(w, c) && w.conns[c].loop == 0
    requires ChanOf(w, c).events == R.READ_EVENT && IsAdded(w, c)
    ensures Reportable(w, 0, Report(c, URGENT_HANG_UP))
  {
    hide Good, AllInOrder;
    assert R.Mirrors(w.polls[0], c);
    assert R.READ_EVENT & R.EPOLLPRI != 0;
  }

  lemma UrgentIsFatal(s: State, c: ConnId)
    requires 0 in s.phases && s.phases[0] == Dispatching([Report(c, URGENT_HANG_UP)]) && Known(s.world, c)
    ensures Step(Dispatch(0, Eof), s).None?
  {
    EventCloses(s.world, c, URGENT_HANG_UP, Eof);
  }

  lemma PollStep(s: State, l: Loop, rs: seq<Report>)
    requires Enabled(Poll(l, rs), s)
    ensures Step(Poll(l, rs), s) == Some(AtPhase(s, l, Dispatching(rs)))
  {
  }

  lemma TakeStep(s: State, l: Loop)
    requires Enabled(Take(l), s)
    ensures Step(Take(l), s) == Some(AtPhase(s, l, Running(|s.world.queues[l]|)))
  {
  }

  lemma AcceptWorld(s: State, t: State, fd: int, l: Loop)
    requires Enabled(Accept(fd, l), s) && Step(Accept(fd, l), s) == Some(t)
    ensures NewConnection(s.world, fd, l) == Some(t.world)
  {
  }

  function ClosedTwice(c: ConnId, fd: int): seq<Event> {
    [Poll(0, [])] + ([Accept(fd, 0)] + ([Take(0)] + ([Poll(0, [Report(c, URGENT_HANG_UP)])] + [Dispatch(0, Eof)])))
  }

  /** Closed twice, whenever the accepting loop is idle: a hang-up that comes with urgent data but nothing
      to read, and a read that returns end of file. */
  lemma UrgentHangUpFails(s: State, fd: int)
    requires Inv(s) && 0 in s.phases && s.phases[0] == Running(0) && s.world.queues[0] == []
    requires CanAccept(s.world, fd, 0)
    ensures Run(ClosedTwice(s.world.nextId, fd), s).None?
  {
    hide Run, Step, ReportsLive, Good, PollsAgree, AllInOrder, HandleEvent, NewConnection;
    var c := s.world.nextId;
    var s1 := AtPhase(s, 0, Dispatching([]));
    PollStep(s, 0, []);
    var s2 := Accepted(s1, fd);
    AcceptKeeps(s1.world, fd, 0);
    AcceptWorld(s1, s2, fd, 0);
    var s3 := AtPhase(s2, 0, Running(0));
    TakeStep(s2, 0);
    var rs := [Report(c, URGENT_HANG_UP)];
    UrgentIsReportable(s3.world, c);
    var s4 := AtPhase(s3, 0, Dispatching(rs));
    PollStep(s3, 0, rs);
    UrgentIsFatal(s4, c);
    RunLast(Dispatch(0, Eof), s4);
    RunOne(Poll(0, rs), [Dispatch(0, Eof)], s3);
    RunOne(Take(0), [Poll(0, rs)] + [Dispatch(0, Eof)], s2);
    RunOne(Accept(fd, 0), [Take(0)] + ([Poll(0, rs)] + [Dispatch(0, Eof)]), s1);
    RunOne(Poll(0, []), [Accept(fd, 0)] + ([Take(0)] + ([Poll(0, rs)] + [Dispatch(0, Eof)])), s);
  }

  /** All four runs are possible from the very start of a server with two loops. */
  lemma FailuresFromTheStart(fd: int)
    ensures var s := Begin({0, 1});
      && Run(StopThenClose(0, fd), s).None? && Run(ClosedTwice(0, fd), s).None?
      && Run(StaleReport(0, fd, 1), s).None? && Run(LateStop(0, fd, 1), s).None?
  {
    hide Run, Inv;
    var s := Begin({0, 1});
    BeginIsFine({0, 1});
    CloseAfterStopReadFails(s, fd);
    UrgentHangUpFails(s, fd);
    StaleReportFails(s, fd, 1);
    LateStopReadFails(s, fd, 1);
  }

  // ----- a close runs to its end -----

  /** One event of a heedful schedule. */
  predicate Goes(e: Event, s: State, t: State) {
    if Enabled(e, s) then Heedful(e, s) && Step(e, s) == Some(t) else t == s
  }

  /** The states a heedful schedule goes through. */
  ghost predicate Passes(es: seq<Event>, ss: seq<State>) {
    |ss| == |es| + 1 && forall j, k :: 0 <= j < k < |ss| && k == j + 1 ==> Goes(es[j], ss[j], ss[k])
  }

  predicate IsTurn(l: Loop, e: Event, s: State) {
    e == RunFunctor(l) && Enabled(e, s)
  }

  /** How many functors loop l has run in the first k events. */
  function Turns(l: Loop, es: seq<Event>, ss: seq<State>, k: nat): nat
    requires k <= |es| < |ss|
  {
    if k == 0 then 0 else Turns(l, es, ss, k - 1) + if IsTurn(l, es[k - 1], ss[k - 1]) then 1 else 0
  }

  /** The functor has been run, and has done to its connection what it is for. */
  predicate Served(f: Functor, w: World) {
    && f.c in w.conns
    && (f.Establish? ==> 0 < w.conns[f.c].up)
    && (f.ForceCloseInLoop? ==> w.conns[f.c].life.Disconnected?)
    && (f.RemoveInLoop? ==> w.conns[f.c].erased == 1)
    && (f.Destroy? ==> w.conns[f.c].destroyed == 1)
  }

  lemma GoesKeeps(e: Event, s: State, t: State)
    requires Inv(s) && Goes(e, s, t)
    ensures Inv(t)
  {
    hide Inv;
    if Enabled(e, s) {
      StepKeeps(e, s);
    }
  }

  lemma {:induction false} PassesKeep(es: seq<Event>, ss: seq<State>, k: nat)
    requires Passes(es, ss) && k < |ss| && Inv(ss[0])
    ensures Inv(ss[k])
  {
    hide Inv, Goes;
    if k != 0 {
      PassesKeep(es, ss, k - 1);
      GoesKeeps(es[k - 1], ss[k - 1], ss[k]);
    }
  }

  /** What a step starts from: a turn of a loop takes the head of its queue. */
  function Before(e: Event, s: State): World
    requires Enabled(e, s)
  {
    if e.RunFunctor? then Popped(s.world, e.loop) else s.world
  }

  lemma StepGrows(e: Event, s: State)
    requires s.world.nextId !in s.world.conns && Enabled(e, s) && Step(e, s).Some?
    ensures Grows(Before(e, s), Step(e, s).value.world)
  {
    hide Execute, NewConnection, HandleEvent;
    match e {
      case Dispatch(m, read) => EventGrows(s.world, s.phases[m].reports[0].c, s.phases[m].reports[0].revents, read);
      case RunFunctor(m) => ExecuteGrows(Popped(s.world, m), s.world.queues[m][0]);
      case Accept(fd, m) => AcceptGrows(s.world, fd, m);
      case ForceClose(d) => LeavingGrows(s.world, d);
      case Shutdown(d) => LeavingGrows(s.world, d);
      case Poll(_, _) =>
      case Take(_) =>
      case _ => InterestEventGrows(e, s);
    }
  }

  lemma AtMostOnce(w: World, c: ConnId)
    requires AllInOrder(w) && c in w.conns
    ensures w.conns[c].erased <= 1 && w.conns[c].destroyed <= 1
  {
    assert InOrder(w, c);
  }

  lemma ServedStays(e: Event, s: State, t: State, f: Functor)
    requires Inv(s) && Goes(e, s, t) && Served(f, s.world)
    ensures Served(f, t.world)
  {
    hide PollsAgree, AllInOrder, Phased, ReportsLive, Step, Heedful;
    GoesKeeps(e, s, t);
    if Enabled(e, s) {
      StepGrows(e, s);
      AtMostOnce(t.world, f.c);
    }
  }

  lemma HeadEffect(w: World, l: Loop)
    requires HasHead(w, l) && Placed(w, l, w.queues[l][0]) && InOrder(w, w.queues[l][0].c)
    ensures RunHead(w, l).Some? ==> Served(w.queues[l][0], RunHead(w, l).value)
  {
    HeadToken(w, l);
  }

  /** A turn serves the head of the queue, and the others move up. */
  lemma TurnServes(s: State, t: State, l: Loop)
    requires IsTurn(l, RunFunctor(l), s) && Step(RunFunctor(l), s) == Some(t) && Inv(s)
    ensures Served(s.world.queues[l][0], t.world)
    ensures l in t.world.queues && s.world.queues[l][1..] <= t.world.queues[l]
  {
    hide PollsAgree, Phased, ReportsLive, Execute;
    assert Placed(s.world, l, s.world.queues[l][0]);
    InOrderOf(s.world, s.world.queues[l][0].c);
    HeadEffect(s.world, l);
    ExecuteGrows(Popped(s.world, l), s.world.queues[l][0]);
  }

  /** Where the functor is that was at position i of the queue of loop l, when that loop has run n. */
  ghost predicate WaitsOrServed(f: Functor, s: State, l: Loop, i: nat, n: nat) {
    if n <= i then l in s.world.queues && i - n < |s.world.queues[l]| && s.world.queues[l][i - n] == f
    else Served(f, s.world)
  }

  lemma WaitsOn(e: Event, s: State, t: State, f: Functor, l: Loop, i: nat, n: nat)
    requires Inv(s) && Goes(e, s, t) && WaitsOrServed(f, s, l, i, n)
    ensures WaitsOrServed(f, t, l, i, n + if IsTurn(l, e, s) then 1 else 0)
  {
    hide PollsAgree, AllInOrder, Phased, ReportsLive, Step, Heedful, Served;
    if i < n {
      ServedStays(e, s, t, f);
    } else if IsTurn(l, e, s) {
      TurnServes(s, t, l);
      if n < i {
        assert s.world.queues[l][1..][i - n - 1] == f;
      }
    } else if Enabled(e, s) {
      StepGrows(e, s);
      assert Before(e, s).queues[l] == s.world.queues[l];
    }
  }

  /** A functor at position i of its loop's queue has done its work once that loop has run i + 1 functors,
      whatever else happens in between and on whichever loop. */
  lemma {:induction false} ReachesFunctor(es: seq<Event>, ss: seq<State>, l: Loop, i: nat, k: nat)
    requires Passes(es, ss) && k < |ss| && l in ss[0].world.queues && i < |ss[0].world.queues[l]| && Inv(ss[0])
    ensures WaitsOrServed(ss[0].world.queues[l][i], ss[k], l, i, Turns(l, es, ss, k))
  {
    hide Inv, Goes, IsTurn;
    if k != 0 {
      ReachesFunctor(es, ss, l, i, k - 1);
      PassesKeep(es, ss, k - 1);
      WaitsOn(es[k - 1], ss[k - 1], ss[k], ss[0].world.queues[l][i], l, i, Turns(l, es, ss, k - 1));
    }
  }

  /** The functor that carries a closed connection on, and the loop it waits in. */
  function Carrier(w: World, c: ConnId): Functor
    requires c in w.conns
  {
    if w.conns[c].erased == 0 then RemoveInLoop(c) else Destroy(c)
  }

  function CarrierLoop(w: World, c: ConnId): Loop
    requires c in w.conns
  {
    if w.conns[c].erased == 0 then 0 else w.conns[c].loop
  }

  lemma CarrierWaits(w: World, c: ConnId) returns (i: nat)
    requires Known(w, c) && InOrder(w, c) && w.conns[c].life.Disconnected? && w.conns[c].destroyed == 0
    ensures i < |w.queues[CarrierLoop(w, c)]| && w.queues[CarrierLoop(w, c)][i] == Carrier(w, c)
  {
    var q := w.queues[CarrierLoop(w, c)];
    assert multiset(q)[Carrier(w, c)] == 1;
    assert Carrier(w, c) in q;
    i :| 0 <= i < |q| && q[i] == Carrier(w, c);
  }

  /** A close completes under every heedful schedule: a closed connection has been erased once the accepting
      loop has run n functors, and an erased one destroyed once its own loop has run n, for an n that
      depends only on the state at the beginning. */
  lemma CloseCompletes(s: State, c: ConnId) returns (n: nat)
    requires Inv(s) && c in s.world.conns && s.world.conns[c].life.Disconnected? && s.world.conns[c].destroyed == 0
    ensures forall es: seq<Event>, ss: seq<State> ::
      Passes(es, ss) && ss[0] == s && n <= Turns(CarrierLoop(s.world, c), es, ss, |es|) ==>
      Served(Carrier(s.world, c), ss[|es|].world)
  {
    hide Good, PollsAgree, AllInOrder, Phased, ReportsLive, Served, Goes;
    InOrderOf(s.world, c);
    var l, f := CarrierLoop(s.world, c), Carrier(s.world, c);
    var i := CarrierWaits(s.world, c);
    n := i + 1;
    forall es: seq<Event>, ss: seq<State> | Passes(es, ss) && ss[0] == s && n <= Turns(l, es, ss, |es|)
      ensures Served(f, ss[|es|].world)
    {
      ReachesFunctor(es, ss, l, i, |es|);
    }
  }

  // ----- rounds -----

  /** Where a loop goes: only its own events move it, a poll by the reports it returned, a dispatch by one
      report, and the swap to as many functors as are queued, which are then run one by one. */
  lemma PhaseIs(e: Event, s: State, l: Loop)
    requires Enabled(e, s) && Step(e, s).Some? && l in s.phases
    ensures var p, q := s.phases[l], Step(e, s).value.phases;
      && q.Keys == s.phases.Keys
      && (e.Poll? && e.loop == l ==> p == Running(0) && q[l] == Dispatching(e.reports))
      && (e.Dispatch? && e.loop == l ==> p.Dispatching? && p.reports != [] && q[l] == Dispatching(p.reports[1..]))
      && (e.Take? && e.loop == l ==> p == Dispatching([]) && q[l] == Running(|s.world.queues[l]|))
      && (e.RunFunctor? && e.loop == l ==> p.Running? && 0 < p.left && q[l] == Running(p.left - 1))
      && (!((e.Poll? || e.Dispatch? || e.Take? || e.RunFunctor?) && e.loop == l) ==> q[l] == p)
  {
    hide HandleEvent, NewConnection, RunHead, Interest;
  }

  lemma PhaseGoes(e: Event, s: State, t: State, l: Loop)
    requires Goes(e, s, t) && l in s.phases
    ensures l in t.phases
    ensures s.phases[l].Running? && !(e.Poll? && e.loop == l) ==>
      t.phases[l].Running? && t.phases[l].left + (if IsTurn(l, e, s) then 1 else 0) == s.phases[l].left
  {
    hide Step, Heedful;
    if Enabled(e, s) {
      PhaseIs(e, s, l);
    }
  }

  /** A loop that is running functors owes as many turns as it took functors, and does not poll before. */
  lemma {:induction false} RunsWhatItTook(es: seq<Event>, ss: seq<State>, l: Loop, k: nat)
    requires Passes(es, ss) && k < |ss| && l in ss[0].phases && ss[0].phases[l].Running?
    requires forall j :: 0 <= j < k ==> !(es[j].Poll? && es[j].loop == l)
    ensures l in ss[k].phases && ss[k].phases[l].Running?
    ensures ss[k].phases[l].left + Turns(l, es, ss, k) == ss[0].phases[l].left
  {
    hide Goes, IsTurn;
    if k != 0 {
      RunsWhatItTook(es, ss, l, k - 1);
      PhaseGoes(es[k - 1], ss[k - 1], ss[k], l);
    }
  }

  lemma {:induction false} TurnsShift(l: Loop, es: seq<Event>, ss: seq<State>, k: nat)
    requires 0 < k <= |es| < |ss|
    ensures Turns(l, es, ss, k) == Turns(l, es[1..], ss[1..], k - 1) + if IsTurn(l, es[0], ss[0]) then 1 else 0
  {
    hide IsTurn;
    if k != 1 {
      TurnsShift(l, es, ss, k - 1);
    }
  }

  /** From the swap to the next poll, whatever is queued meanwhile: a loop runs exactly as many functors as
      were queued at the swap, so by first in first out exactly those. */
  lemma RoundIsComplete(es: seq<Event>, ss: seq<State>, l: Loop, k: nat)
    requires Passes(es, ss) && 0 < k < |es| && Enabled(Take(l), ss[0]) && es[0] == Take(l)
    requires es[k].Poll? && es[k].loop == l && Enabled(es[k], ss[k])
    requires forall j :: 0 <= j < k ==> !(es[j].Poll? && es[j].loop == l)
    ensures Turns(l, es, ss, k) == |ss[0].world.queues[l]|
  {
    hide Heedful;
    assert Goes(es[0], ss[0], ss[1]);
    var fs, ts := es[1..], ss[1..];
    assert Passes(fs, ts) by {
      forall j, m | 0 <= j < m < |ts| && m == j + 1
        ensures Goes(fs[j], ts[j], ts[m])
      {
        assert Goes(es[j + 1], ss[j + 1], ss[m + 1]);
      }
    }
    RunsWhatItTook(fs, ts, l, k - 1);
    TurnsShift(l, es, ss, k);
  }

  predicate IsDown(w: World, c: ConnId) {
    c in w.conns && w.conns[c].life.Disconnected?
  }

  /** From s on, under every heedful schedule, the connection is down once loop l has run n functors. */
  ghost predicate DownAfter(s: State, c: ConnId, l: Loop, n: nat) {
    forall es: seq<Event>, ss: seq<State> ::
      Passes(es, ss) && ss[0] == s && n <= Turns(l, es, ss, |es|) ==> IsDown(ss[|es|].world, c)
  }

  lemma ForcedReached(es: seq<Event>, ss: seq<State>, c: ConnId, l: Loop, i: nat)
    requires Passes(es, ss) && Inv(ss[0]) && l in ss[0].world.queues && i < |ss[0].world.queues[l]|
    requires ss[0].world.queues[l][i] == ForceCloseInLoop(c) && i < Turns(l, es, ss, |es|)
    ensures IsDown(ss[|es|].world, c)
  {
    hide Inv, Goes;
    ReachesFunctor(es, ss, l, i, |es|);
  }

  /** A forced close of an open connection takes effect under every heedful schedule: the connection is down
      once its loop has run n functors, for an n that depends only on the state at the beginning. */
  lemma ForceCloseCloses(s: State, t: State, c: ConnId, l: Loop) returns (n: nat)
    requires c in s.world.conns && s.world.conns[c].loop == l && Open(s.world.conns[c])
    requires Enabled(ForceClose(c), s) && Step(ForceClose(c), s) == Some(t) && Inv(s)
    ensures DownAfter(t, c, l, n)
  {
    hide Good, PollsAgree, AllInOrder, Phased, ReportsLive, Buffered, Goes;
    StepKeeps(ForceClose(c), s);
    Leaves(ForceClose(c), s);
    var i := |s.world.queues[l]|;
    n := i + 1;
    forall es: seq<Event>, ss: seq<State> | Passes(es, ss) && ss[0] == t && n <= Turns(l, es, ss, |es|)
      ensures IsDown(ss[|es|].world, c)
    {
      ForcedReached(es, ss, c, l, i);
    }
  }
}
