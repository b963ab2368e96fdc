/** The pending-functor queue of src/network/EventLoop.cc and its eventfd wakeups.

    Any thread may queue a functor; the loop thread alternates between poll, event handlers and a
    batch of queued functors. Each step below is what one thread does without giving another thread a
    chance to observe anything in between: a foreign thread's push (under the mutex) and its later
    write to the eventfd are two steps. */
module EventLoop {

  /** Functors are told apart by a number; the queue never looks inside. */
  type Functor = nat

  const EVENTFD_MAX: nat := 0xffff_ffff_ffff_fffe

  datatype Phase =
    | Polling
    | Handling
    | Swapping                      // callingPendingFunctors_ is set, the swap is still to come
    | Running(batch: seq<Functor>)  // what is left of the swapped-out batch

  datatype State = State(
    pending: seq<Functor>,
    calling: bool,
    wakeups: nat,             // the eventfd counter; readable when positive
    phase: Phase,
    inFlight: nat,            // foreign threads between their push and their wakeup
    queued: seq<Functor>,     // history: everything ever queued
    executed: seq<Functor>)   // history: everything ever run

  datatype Event =
    | ForeignPush(f: Functor)
    | ForeignWakeup
    | OwnQueue(f: Functor)  // QueueInLoop on the loop thread, by a handler or by a functor
    | PollReturns
    | HandleWakeUp
    | SetCalling
    | Swap
    | RunOne
    | EndBatch

  const START := State([], false, 0, Polling, 0, [], [])

  /** A write to an eventfd adds one, or fails with the counter at its maximum. */
  function Woken(wakeups: nat): nat {
    if wakeups < EVENTFD_MAX then wakeups + 1 else wakeups
  }

  predicate Enabled(e: Event, s: State) {
    match e
    case ForeignPush(_) => true
    case ForeignWakeup => 0 < s.inFlight
    case OwnQueue(_) => s.phase.Handling? || s.phase.Running?
    case PollReturns => s.phase.Polling?
    case HandleWakeUp => s.phase.Handling?
    case SetCalling => s.phase.Handling?
    case Swap => s.phase.Swapping?
    case RunOne => s.phase.Running? && s.phase.batch != []
    case EndBatch => s.phase == Running([])
  }

  function Step(e: Event, s: State): State
    requires Enabled(e, s)
  {
    match e
    case ForeignPush(f) => s.(pending := s.pending + [f], queued := s.queued + [f], inFlight := s.inFlight + 1)
    case ForeignWakeup => s.(inFlight := s.inFlight - 1, wakeups := Woken(s.wakeups))
    case OwnQueue(f) =>
      s.(pending := s.pending + [f], queued := s.queued + [f],
         wakeups := if s.calling then Woken(s.wakeups) else s.wakeups)
    case PollReturns => s.(phase := Handling)
    case HandleWakeUp => s.(wakeups := 0)
    case SetCalling => s.(phase := Swapping, calling := true)
    case Swap => s.(phase := Running(s.pending), pending := [])
    case RunOne => s.(phase := Running(s.phase.batch[1..]), executed := s.executed + [s.phase.batch[0]])
    case EndBatch => s.(phase := Polling, calling := false)
  }

  predicate EnabledRun(es: seq<Event>, s: State) {
    es == [] || (Enabled(es[0], s) && EnabledRun(es[1..], Step(es[0], s)))
  }

  function Run(es: seq<Event>, s: State): State
    requires EnabledRun(es, s)
  {
    if es == [] then s else Run(es[1..], Step(es[0], s))
  }

  // ----- no lost wakeup, first in first out -----

  function Batch(s: State): seq<Functor> {
    if s.phase.Running? then s.phase.batch else []
  }

  /** Work the loop thread has not taken yet will be noticed: the eventfd is readable, or a thread
      that queued some of it is about to make it readable. */
  predicate Noticed(s: State) {
    s.pending != [] ==> 0 < s.wakeups || 0 < s.inFlight
  }

  predicate Inv(s: State) {
    && (s.calling <==> s.phase.Swapping? || s.phase.Running?)
    && (s.phase.Polling? || s.phase.Running? ==> Noticed(s))
    && s.executed + Batch(s) + s.pending == s.queued
  }

  lemma LastJoins<T>(a: seq<T>, b: seq<T>, c: seq<T>)
    ensures a + (b + c) == (a + b) + c
  {
  }

  lemma StepKeeps(e: Event, s: State)
    requires Inv(s) && Enabled(e, s)
    ensures Inv(Step(e, s))
  {
    var t := Step(e, s);
    match e
    case ForeignPush(f) => LastJoins(s.executed + Batch(s), s.pending, [f]);
    case OwnQueue(f) => LastJoins(s.executed + Batch(s), s.pending, [f]);
    case Swap =>
      assert s.executed + [] == s.executed;
      assert t.executed + t.phase.batch + [] == t.executed + t.phase.batch;
    case RunOne =>
      assert s.phase.batch == [s.phase.batch[0]] + t.phase.batch;
      LastJoins(s.executed, [s.phase.batch[0]], t.phase.batch);
    case EndBatch => assert s.executed + [] == s.executed;
    case PollReturns =>
    case _ =>
  }

  lemma {:induction false} RunKeeps(es: seq<Event>, s: State)
    requires Inv(s) && EnabledRun(es, s)
    ensures Inv(Run(es, s))
  {
    if es != [] {
      StepKeeps(es[0], s);
      RunKeeps(es[1..], Step(es[0], s));
    }
  }

  /** No lost wakeup: whatever foreign threads, handlers and functors queue, in whatever interleaving,
      the loop is never in poll with functors pending unless the eventfd is readable or some thread
      is between its push and its wakeup. */
  lemma NoLostWakeup(es: seq<Event>)
    requires EnabledRun(es, START)
    ensures Run(es, START).phase.Polling? ==> Noticed(Run(es, START))
  {
    RunKeeps(es, START);
  }

  /** Functors run in the order they were queued, each at most once, and none is forgotten. */
  lemma FirstInFirstOut(es: seq<Event>)
    requires EnabledRun(es, START)
    ensures var s := Run(es, START); s.executed + Batch(s) + s.pending == s.queued
  {
    RunKeeps(es, START);
  }

  function CountRuns(es: seq<Event>): nat {
    if es == [] then 0 else (if es[0].RunOne? then 1 else 0) + CountRuns(es[1..])
  }

  /** Once swapped out, a batch is fixed: until it ends, what has run and what is left of it is what
      was swapped out, no matter what is queued meanwhile; so functors that queue themselves again
      cannot keep the loop away from poll. */
  lemma {:induction false} BatchIsFixed(es: seq<Event>, s: State)
    requires s.phase.Running? && EnabledRun(es, s) && EndBatch !in es
    ensures var t := Run(es, s);
      && t.phase.Running?
      && t.executed + t.phase.batch == s.executed + s.phase.batch
      && CountRuns(es) + |t.phase.batch| == |s.phase.batch|
  {
    if es != [] {
      assert es[0] in es && forall e :: e in es[1..] ==> e in es;
      var t := Step(es[0], s);
      if es[0].RunOne? {
        assert s.phase.batch == [s.phase.batch[0]] + t.phase.batch;
        assert t.executed + t.phase.batch == s.executed + s.phase.batch;
      }
      BatchIsFixed(es[1..], t);
    }
  }

  // ----- when the eventfd is readable -----

  /** Is the eventfd written to: by another thread after its push, or by the loop thread when it queues a
      functor while it runs functors? */
  predicate Writes(e: Event, s: State) {
    e.ForeignWakeup? || (e.OwnQueue? && s.phase.Running?)
  }

  /** The number of writes since the last read, if there were n before. */
  function Unread(es: seq<Event>, s: State, n: nat): nat
    requires EnabledRun(es, s)
  {
    if es == [] then n
    else Unread(es[1..], Step(es[0], s), if es[0].HandleWakeUp? then 0 else if Writes(es[0], s) then n + 1 else n)
  }

  function AtMost(n: nat, max: nat): nat {
    if n < max then n else max
  }

  /** The counter of the eventfd is the number of writes since it was last read, up to its maximum. So in
      every interleaving it is readable if and only if someone has written to it since, and one read by
      the loop makes it unreadable. */
  lemma {:induction false} ReadableIffWritten(es: seq<Event>, s: State, n: nat)
    requires Inv(s) && EnabledRun(es, s) && s.wakeups == AtMost(n, EVENTFD_MAX)
    ensures Run(es, s).wakeups == AtMost(Unread(es, s, n), EVENTFD_MAX)
  {
    if es != [] {
      StepKeeps(es[0], s);
      ReadableIffWritten(es[1..], Step(es[0], s),
                         if es[0].HandleWakeUp? then 0 else if Writes(es[0], s) then n + 1 else n);
    }
  }

  // ----- the class -----

  /** One call of QueueInLoop, made by a handler or a functor or meanwhile by another thread. */
  datatype Call = Call(f: Functor, onLoopThread: bool)

  function Queued(calls: seq<Call>): (fs: seq<Functor>)
    ensures |fs| == |calls|
  {
    seq(|calls|, i requires 0 <= i < |calls| => calls[i].f)
  }

  function Flatten(rounds: seq<seq<Call>>): seq<Call> {
    if rounds == [] then [] else Flatten(rounds[..|rounds| - 1]) + rounds[|rounds| - 1]
  }

  function CallEvents(c: Call): seq<Event> {
    if c.onLoopThread then [OwnQueue(c.f)] else [ForeignPush(c.f), ForeignWakeup]
  }

  /** The steps that calls of QueueInLoop take, and those of a batch whose functors make such calls. */
  function CallSteps(calls: seq<Call>): seq<Event> {
    if calls == [] then []
    else
      var c := calls[|calls| - 1];
      CallSteps(calls[..|calls| - 1]) + CallEvents(c)
  }

  function RoundSteps(rounds: seq<seq<Call>>): seq<Event> {
    if rounds == [] then []
    else RoundSteps(rounds[..|rounds| - 1]) + ([RunOne] + CallSteps(rounds[|rounds| - 1]))
  }

  lemma {:induction false} RunConcat(a: seq<Event>, b: seq<Event>, s: State)
    requires EnabledRun(a, s) && EnabledRun(b, Run(a, s))
    ensures EnabledRun(a + b, s) && Run(a + b, s) == Run(b, Run(a, s))
  {
    if a == [] {
      assert a + b == b;
    } else {
      assert (a + b)[1..] == a[1..] + b;
      RunConcat(a[1..], b, Step(a[0], s));
    }
  }

  lemma RunSingle(e: Event, s: State)
    requires Enabled(e, s)
    ensures EnabledRun([e], s) && Run([e], s) == Step(e, s)
  {
    assert [e][1..] == [];
  }

  lemma RunPair(e: Event, f: Event, s: State)
    requires Enabled(e, s) && Enabled(f, Step(e, s))
    ensures EnabledRun([e, f], s) && Run([e, f], s) == Step(f, Step(e, s))
  {
    RunSingle(e, s);
    RunSingle(f, Step(e, s));
    RunConcat([e], [f], s);
    assert [e] + [f] == [e, f];
  }

  lemma CallStep(s: State, c: Call)
    requires c.onLoopThread ==> s.phase.Handling? || s.phase.Running?
    ensures EnabledRun(CallEvents(c), s)
    ensures Run(CallEvents(c), s) == if c.onLoopThread then Step(OwnQueue(c.f), s)
                                     else Step(ForeignWakeup, Step(ForeignPush(c.f), s))
  {
    if c.onLoopThread {
      RunSingle(OwnQueue(c.f), s);
    } else {
      RunPair(ForeignPush(c.f), ForeignWakeup, s);
    }
  }

  /** From `s`, these events can happen one after the other and lead to `t`. */
  ghost predicate Leads(es: seq<Event>, s: State, t: State) {
    EnabledRun(es, s) && t == Run(es, s)
  }

  lemma LeadOn(es: seq<Event>, fs: seq<Event>, s: State, t: State, u: State)
    requires Leads(es, s, t) && Leads(fs, t, u)
    ensures Leads(es + fs, s, u)
  {
    RunConcat(es, fs, s);
  }

  /** Calls number k and round number i, appended to those before. */
  lemma OneMoreCall(calls: seq<Call>, k: nat)
    requires k < |calls|
    ensures CallSteps(calls[..k + 1]) == CallSteps(calls[..k]) + CallEvents(calls[k])
    ensures Queued(calls[..k + 1]) == Queued(calls[..k]) + [calls[k].f]
  {
    assert calls[..k + 1][..k] == calls[..k];
  }

  lemma NoRounds(rounds: seq<seq<Call>>, s: State)
    ensures RoundSteps(rounds[..0]) == [] && Leads([], s, s) && Queued(Flatten(rounds[..0])) == []
  {
  }

  lemma OneMoreRound(rounds: seq<seq<Call>>, i: nat)
    requires i < |rounds|
    ensures RoundSteps(rounds[..i + 1]) == RoundSteps(rounds[..i]) + ([RunOne] + CallSteps(rounds[i]))
    ensures Queued(Flatten(rounds[..i + 1])) == Queued(Flatten(rounds[..i])) + Queued(rounds[i])
  {
    assert rounds[..i + 1][..i] == rounds[..i];
  }

  /** Calls by other threads. */
  function Foreign(fs: seq<Functor>): (calls: seq<Call>)
    ensures |calls| == |fs| && Queued(calls) == fs
  {
    seq(|fs|, i requires 0 <= i < |fs| => Call(fs[i], false))
  }

  /** What happens in one round of the loop: what other threads queue while it is in poll, whether poll
      reports the eventfd, what the handlers of the active channels queue, and what functor number i of
      the batch queues. */
  datatype Iteration =
    Iteration(meanwhile: seq<Functor>, wakeUp: bool, handlers: seq<Call>, functors: nat -> seq<Call>)

  class Loop {
    var pending: seq<Functor>
    var calling: bool
    var wakeups: nat
    ghost var phase: Phase
    ghost var inFlight: nat
    ghost var queued: seq<Functor>
    ghost var executed: seq<Functor>

    ghost function View(): State
      reads this
    {
      State(pending, calling, wakeups, phase, inFlight, queued, executed)
    }

    constructor ()
      ensures View() == START
    {
      pending, calling, wakeups := [], false, 0;
      phase, inFlight, queued, executed := Polling, 0, [], [];
    }

    method Wakeup()
      modifies this`wakeups
      ensures 0 < wakeups == if old(wakeups) < EVENTFD_MAX then old(wakeups) + 1 else old(wakeups)
    {
      if wakeups < EVENTFD_MAX {
        wakeups := wakeups + 1;
      }
    }

    method HandleWakeUp()
      requires phase.Handling?
      modifies this`wakeups
      ensures wakeups == 0 && View() == Step(Event.HandleWakeUp, old(View()))
    {
      wakeups := 0;
    }

    method QueueInLoop(c: Call)
      requires c.onLoopThread ==> phase.Handling? || phase.Running?
      modifies this`pending, this`wakeups, this`queued
      ensures View() == if c.onLoopThread then Step(OwnQueue(c.f), old(View()))
                        else Step(ForeignWakeup, Step(ForeignPush(c.f), old(View())))
    {
      pending := pending + [c.f];
      queued := queued + [c.f];
      if !c.onLoopThread || calling {
        Wakeup();
      }
    }

    /** The calls of QueueInLoop that a handler or a functor makes, or that come in meanwhile. */
    method QueueAll(calls: seq<Call>)
      requires phase.Handling? || phase.Running? || forall c :: c in calls ==> !c.onLoopThread
      modifies this`pending, this`wakeups, this`queued
      ensures Leads(CallSteps(calls), old(View()), View())
      ensures pending == old(pending) + Queued(calls)
      ensures calls != [] && (calling || !calls[|calls| - 1].onLoopThread) ==> 0 < wakeups
      ensures old(wakeups) <= wakeups
      ensures calls == [] || (!calling && forall c :: c in calls ==> c.onLoopThread) ==> wakeups == old(wakeups)
    {
      ghost var first, steps := View(), [];
      for k := 0 to |calls|
        invariant steps == CallSteps(calls[..k]) && Leads(steps, first, View())
        invariant pending == old(pending) + Queued(calls[..k])
        invariant 0 < k && (calling || !calls[k - 1].onLoopThread) ==> 0 < wakeups
        invariant old(wakeups) <= wakeups
        invariant !calling && (forall c :: c in calls ==> c.onLoopThread) ==> wakeups == old(wakeups)
      {
        ghost var here := View();
        QueueInLoop(calls[k]);
        CallStep(here, calls[k]);
        LeadOn(steps, CallEvents(calls[k]), first, here, View());
        OneMoreCall(calls, k);
        steps := steps + CallEvents(calls[k]);
      }
      assert calls[..|calls|] == calls;
    }

    method RunNext(left: seq<Functor>, calls: seq<Call>)
      requires calling && phase == Running(left) && left != []
      modifies this`pending, this`wakeups, this`queued, this`executed, this`phase
      ensures Leads([RunOne] + CallSteps(calls), old(View()), View())
      ensures phase == Running(left[1..]) && executed == old(executed) + [left[0]]
      ensures pending == old(pending) + Queued(calls)
      ensures if calls != [] then 0 < wakeups else wakeups == old(wakeups)
      ensures old(wakeups) <= wakeups
    {
      ghost var here := View();
      executed, phase := executed + [left[0]], Running(left[1..]);
      ghost var there := View();
      RunSingle(RunOne, here);
      QueueAll(calls);
      LeadOn([RunOne], CallSteps(calls), here, there, View());
    }

    method RunBatch(functors: seq<Functor>, rounds: seq<seq<Call>>)
      requires calling && phase == Running(functors) && |rounds| == |functors| && pending == []
      modifies this`pending, this`wakeups, this`queued, this`executed, this`phase
      ensures Leads(RoundSteps(rounds), old(View()), View())
      ensures phase == Running([]) && executed == old(executed) + functors
      ensures pending == Queued(Flatten(rounds))
      ensures if pending != [] then 0 < wakeups else wakeups == old(wakeups)
    {
      hide Leads, EnabledRun, Run, RoundSteps, CallSteps, Flatten;
      ghost var first, steps := View(), [];
      NoRounds(rounds, first);
      for i := 0 to |functors|
        invariant steps == RoundSteps(rounds[..i]) && Leads(steps, first, View())
        invariant phase == Running(functors[i..]) && executed == old(executed) + functors[..i]
        invariant pending == Queued(Flatten(rounds[..i]))
        invariant if pending != [] then 0 < wakeups else wakeups == old(wakeups)
      {
        ghost var here := View();
        RunNext(functors[i..], rounds[i]);
        LeadOn(steps, [RunOne] + CallSteps(rounds[i]), first, here, View());
        OneMoreRound(rounds, i);
        steps := steps + ([RunOne] + CallSteps(rounds[i]));
      }
      assert rounds[..|functors|] == rounds && functors[..|functors|] == functors;
    }

    /** `rounds[i]` is what gets queued while functor number i of the batch runs. Exactly the functors
        pending at the swap run, in order; everything queued meanwhile stays pending, and then the
        eventfd is readable; if nothing is queued it is as readable as before. */
    method DoPendingFunctors(rounds: seq<seq<Call>>)
      requires phase.Handling? && |rounds| == |pending|
      modifies this
      ensures Leads([SetCalling, Swap] + RoundSteps(rounds) + [EndBatch], old(View()), View())
      ensures phase.Polling? && !calling
      ensures executed == old(executed + pending)
      ensures pending == Queued(Flatten(rounds))
      ensures if pending != [] then 0 < wakeups else wakeups == old(wakeups)
    {
      ghost var start := View();
      calling, phase := true, Swapping;
      var functors := pending;
      pending, phase := [], Running(functors);
      RunPair(SetCalling, Swap, start);
      ghost var swapped := View();
      RunBatch(functors, rounds);
      ghost var last := View();
      calling, phase := false, Polling;
      RunSingle(EndBatch, last);
      RunConcat([SetCalling, Swap], RoundSteps(rounds), start);
      RunConcat([SetCalling, Swap] + RoundSteps(rounds), [EndBatch], start);
    }

    // ----- Loop -----

    /** Other threads queue functors while the loop is in poll; then poll returns. If they queued any, the
        eventfd is readable, so poll has a reason to. */
    method Poll(meanwhile: seq<Functor>) returns (ghost es: seq<Event>)
      requires phase.Polling?
      modifies this`phase, this`pending, this`wakeups, this`queued
      ensures phase.Handling? && Leads(es, old(View()), View())
      ensures pending == old(pending) + meanwhile && old(wakeups) <= wakeups
      ensures meanwhile != [] ==> 0 < wakeups
    {
      ghost var start := View();
      var calls := Foreign(meanwhile);
      QueueAll(calls);
      ghost var pushed := View();
      RunSingle(PollReturns, pushed);
      phase := Handling;
      LeadOn(CallSteps(calls), [PollReturns], start, pushed, View());
      es := CallSteps(calls) + [PollReturns];
    }

    /** The handlers of the active channels: the eventfd's, if it was reported, and the others. */
    method HandleEvents(wakeUp: bool, calls: seq<Call>) returns (ghost es: seq<Event>)
      requires phase.Handling?
      modifies this`pending, this`wakeups, this`queued
      ensures Leads(es, old(View()), View())
      ensures pending == old(pending) + Queued(calls)
      ensures wakeUp && (forall c :: c in calls ==> c.onLoopThread) ==> calling || wakeups == 0
    {
      es := [];
      if wakeUp {
        RunSingle(Event.HandleWakeUp, View());
        HandleWakeUp();
        es := [Event.HandleWakeUp];
      }
      ghost var middle := View();
      QueueAll(calls);
      LeadOn(es, CallSteps(calls), old(View()), middle, View());
      es := es + CallSteps(calls);
    }

    /** One round of Loop. All that was pending, all that other threads queue during poll and all that the
        handlers queue runs, in this order; what its functors queue is left pending, and then poll will
        return at once because the eventfd is readable. After a round that read the eventfd, with no call
        from another thread since and none by a functor, it is not readable. */
    method Iterate(it: Iteration) returns (ghost es: seq<Event>)
      requires phase.Polling?
      modifies this
      ensures phase.Polling? && !calling && Leads(es, old(View()), View())
      ensures executed == old(executed + pending) + it.meanwhile + Queued(it.handlers)
      ensures pending != [] ==> 0 < wakeups
      ensures !old(calling) && it.wakeUp && (forall c :: c in it.handlers ==> c.onLoopThread) && pending == [] ==>
        wakeups == 0
    {
      hide Leads, RoundSteps, CallSteps, Flatten;
      ghost var start := View();
      ghost var ps := Poll(it.meanwhile);
      ghost var polled := View();
      ghost var fs := HandleEvents(it.wakeUp, it.handlers);
      LeadOn(ps, fs, start, polled, View());
      ghost var handled := View();
      var rounds := seq(|pending|, it.functors);
      DoPendingFunctors(rounds);
      es := ps + fs;
      LeadOn(es, [SetCalling, Swap] + RoundSteps(rounds) + [EndBatch], start, handled, View());
      es := es + ([SetCalling, Swap] + RoundSteps(rounds) + [EndBatch]);
    }

    /** The loop, until quit. However long it runs, it makes a run of the events above; so from the
        constructor on, all that is shown of such runs holds. What was pending when it began runs first. */
    method RunLoop(its: seq<Iteration>) returns (ghost es: seq<Event>)
      requires phase.Polling?
      modifies this
      ensures phase.Polling? && Leads(es, old(View()), View())
      ensures its != [] ==> old(executed + pending) <= executed
      ensures its != [] && pending != [] ==> 0 < wakeups
    {
      es := [];
      for i := 0 to |its|
        invariant phase.Polling? && Leads(es, old(View()), View())
        invariant 0 < i && pending != [] ==> 0 < wakeups
        invariant if i == 0 then executed + pending == old(executed + pending) else old(executed + pending) <= executed
      {
        ghost var here := View();
        ghost var fs := Iterate(its[i]);
        LeadOn(es, fs, old(View()), here, View());
        es := es + fs;
      }
    }
  }
}
