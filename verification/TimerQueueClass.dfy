/** The timer queue as src/network/TimerQueue.cc writes it: methods that update the two sets, the C++
    heap and the alarm, with the loops of GetExpired, HandleRead and Reset. Each is proved against the
    steps of module TimerQueue, so that everything shown there about schedules holds of them. */
module TimerQueueClass {
  import opened TimerQueue

  /** What a user callback asks of the queue. The address is the one the allocator would return. */
  datatype Request =
    | AddRequest(addr: nat, when: Time, interval: real)
    | CancelRequest(id: Id)

  lemma {:induction false} RunAppend(es: seq<Event>, e: Event, s: State)
    ensures Run(es + [e], s) == Next(e, Run(es, s))
  {
    if es == [] {
      assert [e][1..] == [] && [] + [e] == [e];
      assert Run([e], s) == Run([], Next(e, s));
    } else {
      assert (es + [e])[1..] == es[1..] + [e];
      RunAppend(es[1..], e, Next(es[0], s));
    }
  }

  /** Nothing has happened to the timers of a batch. */
  ghost predicate Undisturbed(before: map<nat, Timer>, after: map<nat, Timer>, batch: seq<Entry>) {
    forall e :: e in batch ==> e.addr in before && e.addr in after && after[e.addr] == before[e.addr]
  }

  /** What callbacks ask for leaves the timers of the running batch on the heap as they are. */
  lemma RequestsDisturbNothing(e: Event, s: State)
    requires Inv(s) && Enabled(e, s) && (e.Allocate? || e.AddInLoop? || e.CancelInLoop?)
    ensures Undisturbed(s.heap, Step(e, s).heap, s.batch) && Step(e, s).batch == s.batch
  {
    if e.CancelInLoop? && e.id in s.active {
      assert Queued(s, e.id.addr) && OnePlace(s, e.id.addr);
    }
  }

  /** The entry of the log says that this timer of the batch was run. */
  ghost predicate RunOf(x: Exec, e: Entry, heap: map<nat, Timer>, now: Time) {
    e.addr in heap && x.seqno == heap[e.addr].seqno && x.due == e.when && x.now == now
  }

  /** The log has grown by the runs of exactly these timers, in this order. */
  ghost predicate Ran(before: seq<Exec>, after: seq<Exec>, batch: seq<Entry>, heap: map<nat, Timer>, now: Time) {
    && |after| == |before| + |batch| && after[..|before|] == before
    && forall i :: 0 <= i < |batch| ==> RunOf(after[|before| + i], batch[i], heap, now)
  }

  lemma RanOneMore(before: seq<Exec>, middle: seq<Exec>, after: seq<Exec>, batch: seq<Entry>, i: nat,
                   heap: map<nat, Timer>, now: Time)
    requires i < |batch| && Ran(before, middle, batch[..i], heap, now)
    requires |after| == |middle| + 1 && after[..|middle|] == middle && RunOf(after[|middle|], batch[i], heap, now)
    ensures Ran(before, after, batch[..i + 1], heap, now)
  {
    assert after[..|before|] == after[..|middle|][..|before|];
  }

  /** timers_.begin(). */
  method FirstOf(timers: set<Entry>) returns (first: Entry)
    requires timers != {}
    ensures first in timers && forall e :: e in timers ==> e == first || Less(first, e)
  {
    first :| first in timers;
    var rest := timers - {first};
    while rest != {}
      invariant rest <= timers && first in timers
      invariant forall e :: e in timers ==> e in rest || e == first || Less(first, e)
      decreases |rest|
    {
      var e :| e in rest;
      if Less(e, first) {
        first := e;
      }
      rest := rest - {e};
    }
  }

  /** Entry number i of the batch names a timer that no earlier entry names. */
  ghost predicate NamesNext(s: State, i: nat) {
    && i < |s.batch| && s.batch[i].addr in s.heap
    && Key(s, s.batch[i].addr) !in s.batch[..i]
    && forall a :: a in s.heap ==>
         (Key(s, a) in s.batch[..i + 1] <==> Key(s, a) in s.batch[..i] || a == s.batch[i].addr)
  }

  lemma BatchNamesNext(s: State, i: nat)
    requires Inv(s) && i < |s.batch|
    ensures NamesNext(s, i)
  {
    var e := s.batch[i];
    assert e in s.batch && Current(s, e);
    assert s.batch[..i + 1] == s.batch[..i] + [e];
    assert forall k :: 0 <= k < i ==> Less(s.batch[k], e);
  }

  lemma PutBackNothing(s: State)
    ensures PutBack(s, []) == s
  {
    assert PutBack(s, []).heap == s.heap;
  }

  /** One round of the loop of Reset, on the heap and on the sets. */
  lemma PutBackHeap(s: State, i: nat)
    requires NamesNext(s, i)
    ensures var p, q, a := PutBack(s, s.batch[..i]).heap, PutBack(s, s.batch[..i + 1]).heap, s.batch[i].addr;
      && a in p && p[a] == s.heap[a]
      && q == if Survives(s, a) then p[a := s.heap[a].Restarted(s.now)] else p - {a}
  {
    var p, q, a := PutBack(s, s.batch[..i]).heap, PutBack(s, s.batch[..i + 1]).heap, s.batch[i].addr;
    if Survives(s, a) {
      assert q == p[a := s.heap[a].Restarted(s.now)];
    } else {
      assert q == p - {a};
    }
  }

  lemma PutBackSets(s: State, i: nat)
    requires NamesNext(s, i)
    ensures var p, q, a := PutBack(s, s.batch[..i]), PutBack(s, s.batch[..i + 1]), s.batch[i].addr;
      if Survives(s, a) then
        && q.timers == p.timers + {Entry(s.now + s.heap[a].Delta(), a)}
        && q.active == p.active + {Id(a, s.heap[a].seqno)} && q.freed == p.freed
      else
        q.timers == p.timers && q.active == p.active && q.freed == p.freed + {s.heap[a].seqno}
  {
  }

  /** The body of the loop of Reset, for the timer at `a`. */
  function Dealt(p: State, a: nat, now: Time): State
    requires a in p.heap
  {
    var t := p.heap[a];
    if Survives(p, a) then
      p.(heap := p.heap[a := t.Restarted(now)], timers := p.timers + {Entry(now + t.Delta(), a)},
         active := p.active + {Id(a, t.seqno)})
    else
      p.(heap := p.heap - {a}, freed := p.freed + {t.seqno})
  }

  lemma PutBackRound(s: State, i: nat)
    requires NamesNext(s, i)
    ensures s.batch[i].addr in PutBack(s, s.batch[..i]).heap
    ensures Dealt(PutBack(s, s.batch[..i]), s.batch[i].addr, s.now) == PutBack(s, s.batch[..i + 1])
  {
    PutBackHeap(s, i);
    PutBackSets(s, i);
  }

  lemma PutBackNames(s: State, i: nat)
    requires NamesNext(s, i)
    ensures i < |s.batch| && s.batch[i].addr in s.heap && PutBack(s, s.batch[..i]).canceling == s.canceling
  {
  }

  /** What the body of the loop finds in its round, and what it is to do. */
  lemma ResetRound(s: State, i: nat)
    requires NamesNext(s, i) && ResetAsserts(s, i)
    ensures var p, a := PutBack(s, s.batch[..i]), s.batch[i].addr;
      && a in p.heap && |p.timers| == |p.active|
      && (Survives(p, a) ==>
            Entry(s.now + p.heap[a].Delta(), a) !in p.timers && Id(a, p.heap[a].seqno) !in p.active)
      && Dealt(p, a, s.now) == PutBack(s, s.batch[..i + 1])
  {
    hide PutBack, NamesNext, Dealt;
    PutBackNames(s, i);
    PutBackHeap(s, i);
    PutBackRound(s, i);
  }

  /** HandleRead before it sets callingExpiredTimers_: the timerfd read, the expired timers taken out. */
  ghost function TakenOut(s: State, now: Time, expired: seq<Entry>): State
    requires forall e :: e in expired ==> e.addr in s.heap
  {
    s.(alarm := if s.alarm.Unread? then Disarmed else s.alarm, timers := s.timers - Expired(s.timers, now),
       active := s.active - Ids(s.heap, expired))
  }

  lemma BegunInTwo(s: State, now: Time, expired: seq<Entry>)
    requires forall e :: e in expired ==> e.addr in s.heap
    ensures Begun(s, now, expired) == TakenOut(s, now, expired).(calling := true, canceling := {}, batch := expired,
                                                                 left := 0, now := now, batches := s.batches + 1)
  {
  }

  class Queue {
    var heap: map<nat, Timer>
    var timers: set<Entry>
    var active: set<Id>
    var canceling: set<Id>
    var calling: bool
    var alarm: Alarm
    var created: nat
    ghost var pending: set<nat>
    ghost var batch: seq<Entry>
    ghost var left: nat
    ghost var readAt: Time  // the clock reading of the batch in hand
    ghost var issued: map<nat, nat>
    ghost var freed: set<nat>
    ghost var batches: nat
    ghost var log: seq<Exec>

    ghost function View(): State
      reads this
    {
      State(heap, pending, timers, active, canceling, calling, batch, left, readAt, alarm, created, issued, freed,
            batches, log)
    }

    /** Each queued timer is known to both sets; a consequence of the invariant. */
    ghost predicate TimersIndexed()
      reads this`timers, this`heap, this`active
    {
      forall e :: e in timers ==>
        e.addr in heap && heap[e.addr].expiration == e.when && Id(e.addr, heap[e.addr].seqno) in active
    }

    lemma InvIndexes()
      requires Inv(View())
      ensures TimersIndexed()
    {
      forall e | e in timers
        ensures e.addr in heap && heap[e.addr].expiration == e.when && Id(e.addr, heap[e.addr].seqno) in active
      {
        assert Current(View(), e) && Queued(View(), e.addr);
      }
    }

    constructor ()
      ensures View() == START && Inv(View())
    {
      heap, timers, active, canceling, calling, alarm, created := map[], {}, {}, {}, false, Disarmed, 0;
      pending, batch, left, readAt, issued, freed, batches, log := {}, [], 0, 0, map[], {}, 0, [];
    }

    /** AddTimer up to the point where AddTimerInLoop is run or queued. */
    method AddTimer(addr: nat, when: Time, interval: real) returns (id: Id)
      requires Enabled(Allocate(addr, when, interval), View())
      modifies this
      ensures View() == Step(Allocate(addr, when, interval), old(View()))
      ensures id == Id(addr, old(created)) && addr in heap && heap[addr].seqno == id.seqno
    {
      heap := heap[addr := Timer(when, interval, created)];
      id := Id(addr, created);
      issued, pending := issued[created := addr], pending + {addr};
      created := created + 1;
    }

    /** Where both indexes have the same size and the timer is new to both, as the source asserts. */
    method Insert(addr: nat) returns (earliestChanged: bool)
      requires addr in heap && |timers| == |active|
      requires Entry(heap[addr].expiration, addr) !in timers && Id(addr, heap[addr].seqno) !in active
      modifies this`timers, this`active
      ensures |timers| == |active|
      ensures timers == old(timers) + {Entry(heap[addr].expiration, addr)}
      ensures active == old(active) + {Id(addr, heap[addr].seqno)}
      ensures earliestChanged == ComesFirst(old(timers), heap[addr].expiration)
    {
      var when := heap[addr].expiration;
      earliestChanged := false;
      if timers == {} {
        earliestChanged := true;
      } else {
        var first := FirstOf(timers);
        if when < first.when {
          earliestChanged := true;
        }
      }
      timers := timers + {Entry(when, addr)};
      active := active + {Id(addr, heap[addr].seqno)};
    }

    /** The clock reading of ResetTimerfd is any. */
    method ResetTimerfd(when: Time)
      modifies this`alarm
      ensures alarm == Armed(when)
    {
      var clock: Time := *;
      alarm := TimerQueue.ResetTimerfd(when, clock);
    }

    method AddTimerInLoop(addr: nat)
      requires Inv(View()) && Enabled(AddInLoop(addr), View())
      modifies this`timers, this`active, this`alarm, this`pending
      ensures View() == Step(AddInLoop(addr), old(View()))
    {
      hide IndexesAgree, Owned, Numbered;
      AssertsHold(AddInLoop(addr), View());
      var earliestChanged := Insert(addr);
      if earliestChanged {
        ResetTimerfd(heap[addr].expiration);
      }
      pending := pending - {addr};
    }

    method CancelInLoop(id: Id)
      requires |timers| == |active|
      requires id in active ==> id.addr in heap && Entry(heap[id.addr].expiration, id.addr) in timers
      modifies this`timers, this`active, this`heap, this`canceling, this`freed
      ensures |timers| == |active|
      ensures View() == Cancelled(old(View()), id)
    {
      if id in active {
        var key := Entry(heap[id.addr].expiration, id.addr);
        assert key in timers;
        timers := timers - {key};
        freed := freed + {heap[id.addr].seqno};
        heap := heap - {id.addr};
        active := active - {id};
      } else if calling {
        canceling := canceling + {id};
      }
    }

    method EraseActive(expired: seq<Entry>)
      requires forall e :: e in expired ==> e.addr in heap && Id(e.addr, heap[e.addr].seqno) in active
      requires forall j, k :: 0 <= j < k < |expired| ==> expired[j].addr != expired[k].addr
      modifies this`active
      ensures active == old(active) - Ids(heap, expired) && |active| == |old(active)| - |expired|
    {
      for i := 0 to |expired|
        invariant active == old(active) - Ids(heap, expired[..i]) && |active| == |old(active)| - i
      {
        var e := expired[i];
        assert e in expired && expired[..i + 1] == expired[..i] + [e];
        assert Id(e.addr, heap[e.addr].seqno) in active;
        active := active - {Id(e.addr, heap[e.addr].seqno)};
      }
      assert expired[..|expired|] == expired;
    }

    method SplitOff(now: Time) returns (expired: seq<Entry>)
      requires forall e :: e in Expired(timers, now) ==> e.addr in heap
      modifies this`timers
      ensures Enumerates(expired, Expired(old(timers), now))
      ensures timers == old(timers) - Expired(old(timers), now)
      ensures forall e :: e in expired ==> e.addr in heap
      ensures |timers| == |old(timers)| - |expired|
    {
      var sentry := Entry(now, UINTPTR_MAX);
      expired := [];
      while timers != {}
        invariant timers <= old(timers) && Ordered(expired) && |timers| == |old(timers)| - |expired|
        invariant forall e :: e in expired ==> e in Expired(old(timers), now)
        invariant forall i, f :: 0 <= i < |expired| && f in timers ==> Less(expired[i], f)
        invariant forall e :: e in old(timers) ==> e in timers || e in expired
        decreases |timers|
      {
        var first := FirstOf(timers);
        if !Less(first, sentry) {
          break;
        }
        expired := expired + [first];
        timers := timers - {first};
      }
    }

    /** Takes out, in order, the entries in front of the first one that lies after `now`. */
    method GetExpired(now: Time) returns (expired: seq<Entry>)
      requires TimersIndexed() && |timers| == |active|
      modifies this`timers, this`active
      ensures |timers| == |active|
      ensures Enumerates(expired, Expired(old(timers), now))
      ensures forall e :: e in expired ==> e.addr in heap
      ensures View() == old(View()).(timers := old(timers) - Expired(old(timers), now),
                                     active := old(active) - Ids(heap, expired))
    {
      expired := SplitOff(now);
      forall k | 0 <= k < |expired|
        ensures expired[k].addr in heap && heap[expired[k].addr].expiration == expired[k].when
      {
        assert expired[k] in expired;
      }
      assert forall j, k :: 0 <= j < k < |expired| ==> Less(expired[j], expired[k]);
      EraseActive(expired);
    }

    method RestartOrDelete(addr: nat, now: Time)
      requires addr in heap && |timers| == |active|
      requires Survives(View(), addr) ==>
        Entry(now + heap[addr].Delta(), addr) !in timers && Id(addr, heap[addr].seqno) !in active
      modifies this`heap, this`timers, this`active, this`freed
      ensures |timers| == |active| && View() == Dealt(old(View()), addr, now)
    {
      if heap[addr].Repeat() && Id(addr, heap[addr].seqno) !in canceling {
        heap := heap[addr := heap[addr].Restarted(now)];
        var _ := Insert(addr);
      } else {
        freed := freed + {heap[addr].seqno};
        heap := heap - {addr};
      }
    }

    /** The loop of Reset: each timer of the batch is restarted and inserted again, or deleted. */
    method PutBackOrDelete(expired: seq<Entry>, now: Time, ghost was: State)
      requires View() == was && expired == batch && now == readAt
      requires forall i :: 0 <= i < |expired| ==> NamesNext(was, i) && ResetAsserts(was, i)
      modifies this`heap, this`timers, this`active, this`freed
      ensures View() == PutBack(was, expired)
    {
      hide PutBack, NamesNext, ResetAsserts, Dealt;
      PutBackNothing(was);
      for i := 0 to |expired|
        invariant View() == PutBack(was, expired[..i])
      {
        ResetRound(was, i);
        RestartOrDelete(expired[i].addr, now);
      }
      assert expired[..|expired|] == expired;
    }

    method Rearm()
      modifies this`alarm
      ensures alarm == NewAlarm(timers, old(alarm))
    {
      if timers != {} {
        var first := FirstOf(timers);
        assert Earliest(timers) == first.when;
        if first.when > 0 {
          ResetTimerfd(first.when);
        }
      }
    }

    method Reset(expired: seq<Entry>, now: Time)
      requires Inv(View()) && calling && expired == batch && left == |batch| && now == readAt
      modifies this
      ensures View() == Ended(old(View()))
    {
      ghost var was := View();
      forall i | 0 <= i < |expired|
        ensures NamesNext(was, i) && ResetAsserts(was, i)
      {
        BatchNamesNext(was, i);
        ResetAssertsHold(was, i);
      }
      PutBackOrDelete(expired, now, was);
      Rearm();
      calling, batch, left := false, [], 0;
    }

    /** A callback's call of AddTimer on the loop thread; an address that is in use cannot be handed
        out. `es` is the schedule so far, from `start`. */
    method ServeAdd(r: Request, ghost start: State, ghost es: seq<Event>) returns (ghost fs: seq<Event>)
      requires Inv(View()) && View() == Run(es, start) && r.AddRequest?
      requires r.addr !in heap && r.addr < UINTPTR_MAX
      modifies this
      ensures Inv(View()) && View() == Run(fs, start) && es <= fs
      ensures View() == Step(AddInLoop(r.addr), Step(Allocate(r.addr, r.when, r.interval), old(View())))
      ensures Undisturbed(old(heap), heap, batch)
    {
      ghost var e := Allocate(r.addr, r.when, r.interval);
      RequestsDisturbNothing(e, View());
      NextKeeps(e, View());
      RunAppend(es, e, start);
      var _ := AddTimer(r.addr, r.when, r.interval);
      NextKeeps(AddInLoop(r.addr), View());
      RunAppend(es + [e], AddInLoop(r.addr), start);
      AddTimerInLoop(r.addr);
      fs := es + [e] + [AddInLoop(r.addr)];
    }

    method Serve(r: Request, ghost start: State, ghost es: seq<Event>) returns (ghost fs: seq<Event>)
      requires Inv(View()) && View() == Run(es, start)
      modifies this
      ensures Inv(View()) && View() == Run(fs, start) && es <= fs
      ensures calling == old(calling) && batch == old(batch) && left == old(left) && readAt == old(readAt)
      ensures log == old(log) && batches == old(batches) && Undisturbed(old(heap), heap, batch)
    {
      fs := es;
      assert Undisturbed(heap, heap, batch);
      if r.CancelRequest? {
        RequestsDisturbNothing(Event.CancelInLoop(r.id), View());
        AssertsHold(Event.CancelInLoop(r.id), View());
        NextKeeps(Event.CancelInLoop(r.id), View());
        RunAppend(es, Event.CancelInLoop(r.id), start);
        CancelInLoop(r.id);
        fs := es + [Event.CancelInLoop(r.id)];
      } else if r.addr !in heap && r.addr < UINTPTR_MAX {
        fs := ServeAdd(r, start, es);
      }
    }

    /** Timer::Run of the next timer of the batch. */
    ghost method RunTimer()
      requires Enabled(RunNext, View())
      modifies this`log, this`left
      ensures View() == Step(RunNext, old(View()))
    {
      var t := heap[batch[left].addr];
      log := log + [Exec(t.seqno, t.expiration, readAt, batches, t.Repeat(), t.Delta())];
      left := left + 1;
    }

    /** One callback of the batch: it runs, and makes its requests. */
    method RunCallback(requests: seq<Request>, ghost start: State, ghost es: seq<Event>) returns (ghost fs: seq<Event>)
      requires Inv(View()) && View() == Run(es, start) && Enabled(RunNext, View())
      modifies this
      ensures Inv(View()) && View() == Run(fs, start) && es + [RunNext] <= fs
      ensures calling && batch == old(batch) && left == old(left) + 1 && readAt == old(readAt)
      ensures |log| == |old(log)| + 1 && log[..|old(log)|] == old(log) && batches == old(batches)
      ensures Undisturbed(old(heap), heap, batch)
      ensures RunOf(log[|old(log)|], batch[old(left)], old(heap), readAt)
    {
      NextKeeps(RunNext, View());
      assert batch[left] in batch && Current(View(), batch[left]);
      RunAppend(es, RunNext, start);
      RunTimer();
      fs := es + [RunNext];
      for k := 0 to |requests|
        invariant Inv(View()) && View() == Run(fs, start) && es + [RunNext] <= fs
        invariant calling && batch == old(batch) && left == old(left) + 1 && readAt == old(readAt)
        invariant |log| == |old(log)| + 1 && log[..|old(log)|] == old(log) && batches == old(batches)
        invariant Undisturbed(old(heap), heap, batch)
        invariant RunOf(log[|old(log)|], batch[old(left)], old(heap), readAt)
      {
        fs := Serve(requests[k], start, fs);
      }
    }

    method ReadTimerfd()
      modifies this`alarm
      ensures alarm == if old(alarm).Unread? then Disarmed else old(alarm)
    {
      if alarm.Unread? {
        alarm := Disarmed;
      }
    }

    method StartCalling(expired: seq<Entry>, now: Time)
      modifies this`calling, this`canceling, this`batch, this`left, this`readAt, this`batches
      ensures View() == old(View()).(calling := true, canceling := {}, batch := expired, left := 0, now := now,
                                     batches := old(batches) + 1)
    {
      calling := true;
      canceling := {};
      batch := expired;
      left := 0;
      readAt := now;
      batches := batches + 1;
    }

    method BeginBatch(now: Time) returns (expired: seq<Entry>)
      requires TimersIndexed() && |timers| == |active| && !calling
      modifies this
      ensures Enumerates(expired, Expired(old(timers), now))
      ensures forall e :: e in expired ==> e.addr in old(heap)
      ensures View() == Begun(old(View()), now, expired)
    {
      hide Enumerates, Expired, Ids, TimersIndexed, Begun;
      ghost var was := View();
      ReadTimerfd();
      expired := GetExpired(now);
      assert View() == TakenOut(was, now, expired);
      StartCalling(expired, now);
      BegunInTwo(was, now, expired);
    }

    /** The loop over the batch. */
    method RunCallbacks(expired: seq<Entry>, requests: nat -> seq<Request>, ghost start: State, ghost es: seq<Event>)
      returns (ghost fs: seq<Event>)
      requires Inv(View()) && View() == Run(es, start) && calling && batch == expired && left == 0
      modifies this
      ensures Inv(View()) && View() == Run(fs, start) && es <= fs
      ensures calling && batch == expired && left == |expired| && readAt == old(readAt) && batches == old(batches)
      ensures Ran(old(log), log, expired, old(heap), readAt)
    {
      fs := es;
      for i := 0 to |expired|
        invariant Inv(View()) && View() == Run(fs, start) && es <= fs
        invariant calling && batch == expired && left == i && readAt == old(readAt) && batches == old(batches)
        invariant Undisturbed(old(heap), heap, expired)
        invariant Ran(old(log), log, expired[..i], old(heap), readAt)
      {
        assert batch[left] in batch && Current(View(), batch[left]);
        ghost var before := log;
        fs := RunCallback(requests(i), start, fs);
        RanOneMore(old(log), before, log, expired, i, old(heap), readAt);
      }
      assert expired[..|expired|] == expired;
    }

    method EndBatch(expired: seq<Entry>, now: Time, ghost start: State, ghost es: seq<Event>)
      returns (ghost fs: seq<Event>)
      requires Inv(View()) && View() == Run(es, start)
      requires calling && expired == batch && left == |batch| && now == readAt
      modifies this
      ensures Inv(View()) && !calling && View() == Run(fs, start) && fs == es + [End]
      ensures log == old(log) && batches == old(batches)
    {
      NextKeeps(End, View());
      RunAppend(es, End, start);
      Reset(expired, now);
      fs := es + [End];
    }

    /** `requests(i)` is what callback number i of the batch asks for. The whole call is a schedule of
        module TimerQueue that begins the batch, runs each of its timers once and ends it. */
    method HandleRead(now: Time, requests: nat -> seq<Request>) returns (expired: seq<Entry>, ghost es: seq<Event>)
      requires Inv(View()) && !calling
      modifies this
      ensures Enumerates(expired, Expired(old(timers), now))
      ensures es != [] && es[0] == Begin(now, expired) && View() == Run(es, old(View()))
      ensures Inv(View()) && !calling && batches == old(batches) + 1
      ensures Ran(old(log), log, expired, old(heap), now)
    {
      ghost var start := View();
      InvIndexes();
      SameSize(start);
      expired := BeginBatch(now);
      NextKeeps(Begin(now, expired), start);
      RunAppend([], Begin(now, expired), start);
      assert [] + [Begin(now, expired)] == [Begin(now, expired)];
      es := RunCallbacks(expired, requests, start, [Begin(now, expired)]);
      es := EndBatch(expired, now, start, es);
    }
  }
}
