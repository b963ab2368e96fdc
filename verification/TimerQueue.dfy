/** The timer queue of src/network/TimerQueue.cc.

    Timers live on the C++ heap and are named by their address, which is reused after a delete; a
    `TimerId` therefore also carries the sequence number of src/network/Timer.h. Two ordered sets index
    the queued timers, and one kernel alarm stands for all of them. The loop thread's work is cut at the
    points where user callbacks run, because a callback may add and cancel timers; `Run` takes any
    schedule of such events, and an event that cannot happen when its turn comes does nothing. */
module TimerQueue {

  type Time = int  // microseconds since the epoch
  const UINTPTR_MAX: nat := 0xffff_ffff_ffff_ffff
  const MICROSECONDS_PER_SECOND: int := 1000000

  datatype Timer = Timer(expiration: Time, interval: real, seqno: nat) {
    predicate Repeat() {
      interval > 0.0
    }

    /** The interval in whole microseconds, as AddTime truncates it. */
    function Delta(): nat {
      if interval > 0.0 then (interval * (MICROSECONDS_PER_SECOND as real)).Floor else 0
    }

    /** Timer::Restart for a repeating timer. */
    function Restarted(now: Time): Timer {
      this.(expiration := now + Delta())
    }
  }

  datatype Entry = Entry(when: Time, addr: nat)   // the key of timers_
  datatype Id = Id(addr: nat, seqno: nat)         // TimerId, and the key of activeTimers_

  /** The timerfd: `target` is the expiration it was last armed for. */
  datatype Alarm = Disarmed | Armed(target: Time) | Unread(target: Time)

  /** One run of a callback: which timer, when it was due, in which batch, at what clock reading. */
  datatype Exec = Exec(seqno: nat, due: Time, now: Time, batch: nat, repeat: bool, delta: nat)

  datatype State = State(
    heap: map<nat, Timer>,
    pending: set<nat>,        // allocated by AddTimer, AddTimerInLoop still to run
    timers: set<Entry>,
    active: set<Id>,
    canceling: set<Id>,
    calling: bool,
    batch: seq<Entry>,        // `expired` of HandleRead while its callbacks run
    left: nat,                // how many of them have run
    now: Time,
    alarm: Alarm,
    created: nat,             // the global sequence counter
    issued: map<nat, nat>,    // history: the address that came with each sequence number
    freed: set<nat>,          // history: sequence numbers of deleted timers
    batches: nat,             // history: number of calls of HandleRead
    log: seq<Exec>)           // history: callbacks run

  const START := State(map[], {}, {}, {}, {}, false, [], 0, 0, Disarmed, 0, map[], {}, 0, [])

  datatype Event =
    | Allocate(addr: nat, when: Time, interval: real)  // the thread-safe part of AddTimer
    | AddInLoop(addr: nat)
    | CancelInLoop(id: Id)
    | AlarmFires
    | Begin(now: Time, expired: seq<Entry>)            // HandleRead up to the first callback
    | RunNext
    | End                                              // Reset

  // ----- the ordered set -----

  predicate Less(e: Entry, f: Entry) {
    e.when < f.when || (e.when == f.when && e.addr < f.addr)
  }

  /** The entries in front of lower_bound(Entry(now, UINTPTR_MAX)). */
  function Expired(timers: set<Entry>, now: Time): set<Entry> {
    set e | e in timers && Less(e, Entry(now, UINTPTR_MAX))
  }

  predicate Ordered(es: seq<Entry>) {
    forall i, j :: 0 <= i < j < |es| ==> Less(es[i], es[j])
  }

  ghost predicate Enumerates(es: seq<Entry>, s: set<Entry>) {
    Ordered(es) && (forall e :: e in es <==> e in s)
  }

  /** Does an expiration come before everything queued? */
  predicate ComesFirst(timers: set<Entry>, when: Time) {
    forall e :: e in timers ==> when < e.when
  }

  lemma {:induction false} EarliestExists(timers: set<Entry>)
    requires timers != {}
    ensures exists e :: e in timers && forall f :: f in timers ==> e.when <= f.when
    decreases |timers|
  {
    var e :| e in timers;
    var rest := timers - {e};
    assert timers == rest + {e};
    if rest != {} {
      EarliestExists(rest);
      var m :| m in rest && forall f :: f in rest ==> m.when <= f.when;
      var least := if e.when <= m.when then e else m;
      assert least in timers && forall f :: f in timers ==> least.when <= f.when;
    }
  }

  /** The expiration of timers_.begin(). */
  ghost function Earliest(timers: set<Entry>): (when: Time)
    requires timers != {}
    ensures exists e :: e in timers && e.when == when
    ensures forall f :: f in timers ==> when <= f.when
  {
    EarliestExists(timers);
    var e :| e in timers && forall f :: f in timers ==> e.when <= f.when;
    e.when
  }

  // ----- the timerfd -----

  /** The delay handed to timerfd_settime: seconds and nanoseconds, normalised, at least 100
      microseconds; never the all-zero value that would disarm the timer. */
  function HowMuchTimeFromNow(when: Time, now: Time): (ts: (int, int))
    ensures 0 <= ts.0 && 0 <= ts.1 < 1000000000 && ts != (0, 0)
    ensures var delay := ts.0 * 1000000 + ts.1 / 1000;
      delay >= 100 && now + delay >= when && (when - now >= 100 ==> now + delay == when)
  {
    var microseconds := if when - now < 100 then 100 else when - now;
    (microseconds / MICROSECONDS_PER_SECOND, microseconds % MICROSECONDS_PER_SECOND * 1000)
  }

  /** timerfd_settime, for an expiration the caller has in mind: a zero delay disarms. */
  function Settime(delay: (int, int), when: Time): Alarm {
    if delay == (0, 0) then Disarmed else Armed(when)
  }

  /** ResetTimerfd, which reads the clock itself. Whatever it reads, the timerfd is armed. */
  function ResetTimerfd(when: Time, clock: Time): (alarm: Alarm)
    ensures alarm == Armed(when)
  {
    Settime(HowMuchTimeFromNow(when, clock), when)
  }

  // ----- the steps -----

  function Inserted(s: State, addr: nat): State
    requires addr in s.heap
  {
    s.(timers := s.timers + {Entry(s.heap[addr].expiration, addr)},
       active := s.active + {Id(addr, s.heap[addr].seqno)})
  }

  function Added(s: State, addr: nat): State
    requires addr in s.heap
  {
    var first := ComesFirst(s.timers, s.heap[addr].expiration);
    var t := Inserted(s, addr).(pending := s.pending - {addr});
    if first then t.(alarm := Armed(s.heap[addr].expiration)) else t
  }

  function Cancelled(s: State, id: Id): State
    requires id in s.active ==> id.addr in s.heap
  {
    if id in s.active then
      s.(timers := s.timers - {Entry(s.heap[id.addr].expiration, id.addr)},
         active := s.active - {id},
         heap := s.heap - {id.addr},
         freed := s.freed + {s.heap[id.addr].seqno})
    else if s.calling then
      s.(canceling := s.canceling + {id})
    else s
  }

  /** The key under which a timer is filed now. */
  function Key(s: State, a: nat): Entry
    requires a in s.heap
  {
    Entry(s.heap[a].expiration, a)
  }

  predicate InBatch(s: State, a: nat)
    requires a in s.heap
  {
    Key(s, a) in s.batch
  }

  /** Does Reset put a timer of the batch back? */
  predicate Survives(s: State, a: nat)
    requires a in s.heap
  {
    s.heap[a].Repeat() && Id(a, s.heap[a].seqno) !in s.canceling
  }

  /** The keys of entries in activeTimers_. */
  function Ids(heap: map<nat, Timer>, es: seq<Entry>): set<Id>
    requires forall e :: e in es ==> e.addr in heap
  {
    set e | e in es :: Id(e.addr, heap[e.addr].seqno)
  }

  /** The end of Reset: the alarm is set for the earliest expiration if that is a valid time. */
  ghost function NewAlarm(timers: set<Entry>, alarm: Alarm): Alarm {
    if timers != {} && Earliest(timers) > 0 then Armed(Earliest(timers)) else alarm
  }

  /** The loop of Reset: what has happened to the timers of the batch once it has dealt with `done`. */
  ghost function PutBack(s: State, done: seq<Entry>): State {
    s.(heap := (map a | a in s.heap && (Key(s, a) in done ==> Survives(s, a)) ::
                  if Key(s, a) in done then s.heap[a].Restarted(s.now) else s.heap[a]),
       timers := s.timers +
         (set a | a in s.heap && Key(s, a) in done && Survives(s, a) :: Entry(s.now + s.heap[a].Delta(), a)),
       active := s.active + (set a | a in s.heap && Key(s, a) in done && Survives(s, a) :: Id(a, s.heap[a].seqno)),
       freed := s.freed + (set a | a in s.heap && Key(s, a) in done && !Survives(s, a) :: s.heap[a].seqno))
  }

  ghost function Ended(s: State): State {
    var p := PutBack(s, s.batch);
    p.(alarm := NewAlarm(p.timers, s.alarm), calling := false, batch := [], left := 0)
  }

  /** HandleRead up to the first callback. */
  ghost function Begun(s: State, now: Time, expired: seq<Entry>): State
    requires forall e :: e in expired ==> e.addr in s.heap
  {
    s.(alarm := if s.alarm.Unread? then Disarmed else s.alarm,
       timers := s.timers - Expired(s.timers, now),
       active := s.active - Ids(s.heap, expired),
       batch := expired, left := 0, now := now, batches := s.batches + 1,
       calling := true, canceling := {})
  }

  ghost predicate Enabled(e: Event, s: State) {
    match e
    case Allocate(a, _, _) => a !in s.heap && a < UINTPTR_MAX
    case AddInLoop(a) => a in s.pending && a in s.heap
    case CancelInLoop(id) => id in s.active ==> id.addr in s.heap
    case AlarmFires => s.alarm.Armed?
    case Begin(now, expired) =>
      && !s.calling && Enumerates(expired, Expired(s.timers, now))
      && (forall e :: e in expired ==> e.addr in s.heap)
    case RunNext => s.calling && s.left < |s.batch| && s.batch[s.left].addr in s.heap
    case End => s.calling && s.left == |s.batch|
  }

  ghost function Step(e: Event, s: State): State
    requires Enabled(e, s)
  {
    match e
    case Allocate(a, when, interval) =>
      s.(heap := s.heap[a := Timer(when, interval, s.created)], created := s.created + 1, pending := s.pending + {a},
         issued := s.issued[s.created := a])
    case AddInLoop(a) => Added(s, a)
    case CancelInLoop(id) => Cancelled(s, id)
    case AlarmFires => s.(alarm := Unread(s.alarm.target))
    case Begin(now, expired) => Begun(s, now, expired)
    case RunNext =>
      var e := s.batch[s.left];
      var t := s.heap[e.addr];
      s.(left := s.left + 1, log := s.log + [Exec(t.seqno, t.expiration, s.now, s.batches, t.Repeat(), t.Delta())])
    case End => Ended(s)
  }

  ghost function Next(e: Event, s: State): State {
    if Enabled(e, s) then Step(e, s) else s
  }

  ghost function Run(es: seq<Event>, s: State): State {
    if es == [] then s else Run(es[1..], Next(es[0], s))
  }

  // ----- ownership and index agreement -----

  ghost predicate Queued(s: State, a: nat)
    requires a in s.heap
  {
    Key(s, a) in s.timers
  }

  /** A key that names a timer by its current expiration. */
  ghost predicate Current(s: State, e: Entry) {
    e.addr in s.heap && s.heap[e.addr].expiration == e.when
  }

  /** Both indexes describe the same timers, through their current expirations. */
  ghost predicate IndexesAgree(s: State) {
    && (forall e :: e in s.timers ==> Current(s, e))
    && (forall id :: id in s.active ==> id.addr in s.heap && s.heap[id.addr].seqno == id.seqno)
    && (forall a :: a in s.heap ==> (Queued(s, a) <==> Id(a, s.heap[a].seqno) in s.active))
  }

  /** Every allocated timer is in exactly one place: waiting to be added, queued, or in the batch. */
  ghost predicate OnePlace(s: State, a: nat)
    requires a in s.heap
  {
    && (a in s.pending || Queued(s, a) || InBatch(s, a))
    && !(a in s.pending && Queued(s, a)) && !(a in s.pending && InBatch(s, a)) && !(Queued(s, a) && InBatch(s, a))
  }

  ghost predicate Owned(s: State) {
    && (forall a :: a in s.heap ==> a < UINTPTR_MAX && OnePlace(s, a))
    && s.pending <= s.heap.Keys
    && (forall e :: e in s.batch ==> Current(s, e))
    && Ordered(s.batch)
    && (!s.calling ==> s.batch == [])
    && s.left <= |s.batch|
  }

  /** Each sequence number handed out belongs to one timer, which is allocated or deleted, not both. */
  ghost predicate Numbered(s: State) {
    && (forall q :: q in s.issued <==> 0 <= q < s.created)
    && (forall a :: a in s.heap ==> s.heap[a].seqno in s.issued && s.issued[s.heap[a].seqno] == a)
    && s.freed <= s.issued.Keys
    && (forall q :: q in s.issued ==> (q !in s.freed <==> s.issued[q] in s.heap && s.heap[s.issued[q]].seqno == q))
  }

  ghost predicate Inv(s: State) {
    IndexesAgree(s) && Owned(s) && Numbered(s)
  }

  lemma AllocateIndexes(e: Event, s: State)
    requires Inv(s) && Enabled(e, s) && e.Allocate?
    ensures IndexesAgree(Step(e, s)) && Numbered(Step(e, s))
  {
    var t := Step(e, s);
    assert forall a :: a in s.heap ==> (Queued(t, a) <==> Queued(s, a));
  }

  lemma AllocateOwned(e: Event, s: State)
    requires Inv(s) && Enabled(e, s) && e.Allocate?
    ensures Owned(Step(e, s))
  {
    var t := Step(e, s);
    assert forall a :: a in t.heap ==> a == e.addr || OnePlace(s, a);
  }

  lemma AddIndexes(e: Event, s: State)
    requires Inv(s) && Enabled(e, s) && e.AddInLoop?
    ensures IndexesAgree(Step(e, s)) && Numbered(Step(e, s))
  {
    var t := Step(e, s);
    assert forall a :: a in s.heap ==> (Queued(t, a) <==> Queued(s, a) || a == e.addr);
  }

  lemma AddOwned(e: Event, s: State)
    requires Inv(s) && Enabled(e, s) && e.AddInLoop?
    ensures Owned(Step(e, s))
  {
    var t := Step(e, s);
    assert forall a :: a in t.heap ==> OnePlace(s, a);
  }

  lemma CancelIndexes(e: Event, s: State)
    requires Inv(s) && Enabled(e, s) && e.CancelInLoop?
    ensures IndexesAgree(Step(e, s)) && Numbered(Step(e, s))
  {
    var t := Step(e, s);
    assert forall a :: a in t.heap ==> (Queued(t, a) <==> Queued(s, a));
  }

  lemma CancelOwned(e: Event, s: State)
    requires Inv(s) && Enabled(e, s) && e.CancelInLoop?
    ensures Owned(Step(e, s))
  {
    var t := Step(e, s);
    assert forall a :: a in t.heap ==> OnePlace(s, a);
  }

  lemma BeginKeeps(e: Event, s: State)
    requires Inv(s) && Enabled(e, s) && e.Begin?
    ensures Inv(Step(e, s))
  {
  }

  /** In Reset the indexes agree after every round of the loop. */
  lemma EndIndexes(s: State, done: seq<Entry>)
    requires Inv(s) && forall e :: e in done ==> e in s.batch
    ensures IndexesAgree(PutBack(s, done))
  {
  }

  lemma EndNumbered(s: State)
    requires Inv(s)
    ensures Numbered(PutBack(s, s.batch))
  {
  }

  lemma EndOwned(s: State)
    requires Inv(s)
    ensures Owned(PutBack(s, s.batch).(calling := false, batch := [], left := 0))
  {
    var t := PutBack(s, s.batch).(calling := false, batch := [], left := 0);
    forall a | a in t.heap
      ensures OnePlace(t, a)
    {
      assert OnePlace(s, a);
    }
  }

  /** Nothing in the invariant depends on the alarm, the clock or the log. */
  lemma SameTimers(s: State, t: State)
    requires Inv(s)
    requires t == s.(alarm := t.alarm, left := t.left, log := t.log) && t.left <= |t.batch|
    ensures Inv(t)
  {
    assert IndexesAgree(t) && Numbered(t);
    forall a | a in t.heap
      ensures OnePlace(t, a)
    {
      assert OnePlace(s, a);
    }
  }

  lemma EndKeeps(s: State)
    requires Inv(s)
    ensures Inv(Ended(s))
  {
    EndIndexes(s, s.batch);
    EndNumbered(s);
    EndOwned(s);
    var p := PutBack(s, s.batch).(calling := false, batch := [], left := 0);
    assert IndexesAgree(p) && Numbered(p);
    SameTimers(p, Ended(s));
  }

  lemma NextKeeps(e: Event, s: State)
    requires Inv(s)
    ensures Inv(Next(e, s))
  {
    if Enabled(e, s) {
      match e
      case Allocate(_, _, _) =>
        AllocateIndexes(e, s);
        AllocateOwned(e, s);
      case AddInLoop(_) =>
        AddIndexes(e, s);
        AddOwned(e, s);
      case CancelInLoop(_) =>
        CancelIndexes(e, s);
        CancelOwned(e, s);
      case Begin(_, _) => BeginKeeps(e, s);
      case End => EndKeeps(s);
      case AlarmFires => SameTimers(s, Step(e, s));
      case RunNext => SameTimers(s, Step(e, s));
    }
  }

  /** Ownership and index agreement: under every schedule, with callbacks adding and cancelling timers,
      the two indexes describe the same timers, every allocated timer is in exactly one place, and every
      sequence number belongs to one timer that is either allocated or deleted; so no timer is leaked,
      deleted twice, or run after it was deleted. */
  lemma {:induction false} TimersOwned(es: seq<Event>, s: State)
    requires Inv(s)
    ensures Inv(Run(es, s))
  {
    if es != [] {
      NextKeeps(es[0], s);
      TimersOwned(es[1..], Next(es[0], s));
    }
  }

  lemma {:induction false} Injected<T>(s: set<T>, image: set<nat>, f: T -> nat)
    requires image == set x | x in s :: f(x)
    requires forall x, y :: x in s && y in s && f(x) == f(y) ==> x == y
    ensures |s| == |image|
    decreases |s|
  {
    if s != {} {
      var x :| x in s;
      var rest, smaller := s - {x}, image - {f(x)};
      assert smaller == set y | y in rest :: f(y);
      Injected(rest, smaller, f);
      assert s == rest + {x} && image == smaller + {f(x)};
    }
  }

  /** The asserts that compare the sizes of the two sets. */
  lemma SameSize(s: State)
    requires IndexesAgree(s)
    ensures |s.timers| == |s.active|
  {
    var byAddr := set e | e in s.timers :: e.addr;
    Injected(s.timers, byAddr, (e: Entry) => e.addr);
    assert byAddr == set id | id in s.active :: id.addr by {
      forall e | e in s.timers
        ensures exists id :: id in s.active && id.addr == e.addr
      {
        assert Queued(s, e.addr);
        assert Id(e.addr, s.heap[e.addr].seqno) in s.active;
      }
      forall id | id in s.active
        ensures exists e :: e in s.timers && e.addr == id.addr
      {
        assert Key(s, id.addr) in s.timers;
      }
    }
    Injected(s.active, byAddr, (id: Id) => id.addr);
  }

  /** What Reset asserts when it comes to entry number i of the batch: the indexes have the same size, and
      a timer that is put back is new to both of them. */
  ghost predicate ResetAsserts(s: State, i: nat)
    requires i < |s.batch|
  {
    var p, a := PutBack(s, s.batch[..i]), s.batch[i].addr;
    && a in s.heap && |p.timers| == |p.active|
    && (Survives(s, a) ==> Entry(s.now + s.heap[a].Delta(), a) !in p.timers && Id(a, s.heap[a].seqno) !in p.active)
  }

  /** A timer of the batch is in neither index, and an earlier round does not put it there. */
  lemma PutBackIsNew(s: State, i: nat, when: Time)
    requires Inv(s) && i < |s.batch|
    ensures var p, a := PutBack(s, s.batch[..i]), s.batch[i].addr;
      a in s.heap && Entry(when, a) !in p.timers && Id(a, s.heap[a].seqno) !in p.active
  {
    hide Numbered;
    var e := s.batch[i];
    assert e in s.batch && Current(s, e) && OnePlace(s, e.addr);
    assert forall k :: 0 <= k < i ==> Less(s.batch[k], e);
    assert forall x :: x in s.timers && x.addr == e.addr ==> Current(s, x);
  }

  lemma ResetAssertsHold(s: State, i: nat)
    requires Inv(s) && i < |s.batch|
    ensures ResetAsserts(s, i)
  {
    hide IndexesAgree, Owned, Numbered, PutBack;
    var e := s.batch[i];
    EndIndexes(s, s.batch[..i]);
    SameSize(PutBack(s, s.batch[..i]));
    PutBackIsNew(s, i, 0);
    PutBackIsNew(s, i, s.now + s.heap[e.addr].Delta());
  }

  /** The asserts about erase and insert, and the pointers that are followed: in a state that satisfies
      the invariant each of them is fine for the event about to happen. */
  lemma AssertsHold(e: Event, s: State)
    requires Inv(s)
    ensures |s.timers| == |s.active|
    ensures e.AddInLoop? && e.addr in s.pending ==>
      e.addr in s.heap && Key(s, e.addr) !in s.timers && Id(e.addr, s.heap[e.addr].seqno) !in s.active
    ensures e.CancelInLoop? && e.id in s.active ==> e.id.addr in s.heap && Key(s, e.id.addr) in s.timers
    ensures e.Begin? ==> forall x :: x in Expired(s.timers, e.now) ==>
      x.addr in s.heap && Id(x.addr, s.heap[x.addr].seqno) in s.active && x.when <= e.now
    ensures e.Begin? ==> forall x :: x in s.timers - Expired(s.timers, e.now) ==> e.now < x.when
    ensures s.left < |s.batch| ==> s.batch[s.left].addr in s.heap
    ensures e.End? ==> (forall i :: 0 <= i < |s.batch| ==> ResetAsserts(s, i)) && |Ended(s).timers| == |Ended(s).active|
    ensures forall i, j :: 0 <= i < j < |s.batch| ==> s.batch[i].addr in s.heap && s.batch[i].addr != s.batch[j].addr
  {
    SameSize(s);
    if e.End? {
      EndIndexes(s, s.batch);
      SameSize(PutBack(s, s.batch));
      forall i | 0 <= i < |s.batch|
        ensures ResetAsserts(s, i)
      {
        ResetAssertsHold(s, i);
      }
    }
    assert forall a :: a in s.pending ==> OnePlace(s, a);
    if e.Begin? {
      forall x | x in s.timers
        ensures x in Expired(s.timers, e.now) <==> x.when <= e.now
        ensures Id(x.addr, s.heap[x.addr].seqno) in s.active
      {
        assert Current(s, x) && Queued(s, x.addr);
      }
    }
    forall i | 0 <= i < |s.batch|
      ensures Current(s, s.batch[i])
    {
      assert s.batch[i] in s.batch;
    }
    assert forall i, j :: 0 <= i < j < |s.batch| ==> Less(s.batch[i], s.batch[j]);
  }

  // ----- what becomes of a timer -----

  /** The interval in microseconds, cut to a whole number. */
  lemma DeltaTruncates(t: Timer)
    ensures t.interval <= 0.0 ==> t.Delta() == 0
    ensures t.interval > 0.0 ==> t.Delta() as real <= t.interval * 1000000.0 < t.Delta() as real + 1.0
  {
  }

  /** A timer is deleted by a cancel that names it while it is queued, and by Reset if it does not repeat
      or was cancelled while the callbacks ran. Reset gives every other timer of the batch the clock
      reading of the batch plus its interval; nothing else changes a timer. */
  lemma Fate(e: Event, s: State, a: nat)
    requires Inv(s) && Enabled(e, s) && a in s.heap
    ensures var t, k := Step(e, s), s.heap[a];
      var cancelled := e == CancelInLoop(Id(a, k.seqno)) && Queued(s, a);
      var repeats := k.interval > 0.0 && Id(a, k.seqno) !in s.canceling;
      && (a in t.heap <==> !cancelled && (e.End? && InBatch(s, a) ==> repeats))
      && (a in t.heap ==> t.heap[a] == if e.End? && InBatch(s, a) then k.(expiration := s.now + k.Delta()) else k)
      && (a !in t.heap ==> k.seqno in t.freed)
  {
  }

  lemma FateOfPlace(e: Event, s: State, a: nat)
    requires Inv(s) && Enabled(e, s) && a in s.heap && a in Step(e, s).heap
    ensures var t := Step(e, s);
      && (a in t.pending <==> a in s.pending && e != AddInLoop(a))
      && (Queued(t, a) <==>
            || (Queued(s, a) && !(e.Begin? && s.heap[a].expiration <= e.now))
            || e == AddInLoop(a) || (e.End? && InBatch(s, a)))
      && (InBatch(t, a) <==>
            (InBatch(s, a) && !e.End?) || (e.Begin? && Queued(s, a) && s.heap[a].expiration <= e.now))
  {
    assert OnePlace(s, a);
    NextKeeps(e, s);
  }

  /** Where timers come from, and what is noted of cancels, of the clock and of runs. */
  lemma Recorded(e: Event, s: State)
    requires Enabled(e, s)
    ensures var t := Step(e, s);
      && t.heap.Keys <= s.heap.Keys + (if e.Allocate? then {e.addr} else {})
      && (e.Allocate? ==> t.heap[e.addr] == Timer(e.when, e.interval, s.created) && e.addr in t.pending)
      && t.created == s.created + (if e.Allocate? then 1 else 0)
      && t.now == (if e.Begin? then e.now else s.now)
      && t.calling == (e.Begin? || (s.calling && !e.End?))
      && t.canceling == (if e.Begin? then {}
                         else if e.CancelInLoop? && s.calling && e.id !in s.active then s.canceling + {e.id}
                         else s.canceling)
      && |t.log| == |s.log| + (if e.RunNext? then 1 else 0)
  {
  }

  /** Entry n of the log is a run of this timer of the batch. */
  ghost predicate RanAs(s: State, i: nat, n: nat) {
    && i < |s.batch| && n < |s.log| && s.batch[i].addr in s.heap
    && s.log[n].seqno == s.heap[s.batch[i].addr].seqno
    && s.log[n].due == s.batch[i].when && s.log[n].now == s.now
  }

  /** Since the log had n entries, the callbacks run are those of the timers at the head of the batch, in
      order and with its clock reading. */
  ghost predicate RanSince(s: State, n: nat) {
    && s.calling && s.left <= |s.batch| && |s.log| == n + s.left
    && forall i, k :: 0 <= i < s.left && k == n + i ==> RanAs(s, i, k)
  }

  /** While the callbacks run, no timer of the batch goes away or changes. */
  lemma BatchStays(e: Event, s: State, i: nat)
    requires Inv(s) && Enabled(e, s) && !e.End? && i < |s.batch|
    ensures var a := s.batch[i].addr;
      && a in s.heap && s.heap[a].expiration == s.batch[i].when
      && a in Step(e, s).heap && Step(e, s).heap[a] == s.heap[a]
  {
    hide IndexesAgree, Numbered, Step;
    var a := s.batch[i].addr;
    assert s.batch[i] in s.batch && Current(s, s.batch[i]);
    assert InBatch(s, a) && OnePlace(s, a);
    Fate(e, s, a);
  }

  lemma RanStep(e: Event, s: State, n: nat)
    requires Inv(s) && RanSince(s, n) && !e.End?
    ensures RanSince(Next(e, s), n) && Next(e, s).batch == s.batch
  {
    hide IndexesAgree, Owned, Numbered;
    if Enabled(e, s) {
      var t := Step(e, s);
      assert t.batch == s.batch && t.now == s.now && t.calling;
      assert t.left == s.left + (if e.RunNext? then 1 else 0) && |t.log| == n + t.left;
      forall i, k | 0 <= i < t.left && k == n + i
        ensures RanAs(t, i, k)
      {
        BatchStays(e, s, i);
        assert i < s.left ==> RanAs(s, i, k);
      }
    }
  }

  /** Whatever callbacks add and cancel, a batch runs every timer in it once, in order, and no other. */
  lemma {:induction false} BatchRunsOnce(es: seq<Event>, s: State, n: nat)
    requires Inv(s) && RanSince(s, n) && forall e :: e in es ==> !e.End?
    ensures RanSince(Run(es, s), n) && Run(es, s).batch == s.batch
  {
    if es != [] {
      assert es[0] in es && forall e :: e in es[1..] ==> e in es;
      RanStep(es[0], s, n);
      NextKeeps(es[0], s);
      BatchRunsOnce(es[1..], Next(es[0], s), n);
    }
  }

  /** A batch is exactly the queued timers that are due. */
  lemma BatchIsDue(now: Time, expired: seq<Entry>, s: State)
    requires Inv(s) && Enabled(Begin(now, expired), s)
    ensures var t := Step(Begin(now, expired), s);
      RanSince(t, |s.log|) && Ordered(t.batch) && forall x :: x in t.batch <==> x in s.timers && x.when <= now
  {
    AssertsHold(Begin(now, expired), s);
  }

  // ----- firing discipline -----

  ghost predicate HasRun(s: State, a: nat)
    requires a in s.heap && s.left <= |s.batch|
  {
    Key(s, a) in s.batch[..s.left]
  }

  /** What earlier runs of a timer say about where it stands now. */
  ghost predicate Consistent(s: State, a: nat, x: Exec)
    requires a in s.heap && s.left <= |s.batch|
  {
    var t := s.heap[a];
    && x.repeat == t.Repeat() && x.delta == t.Delta()
    && a !in s.pending
    && (Queued(s, a) ==> x.repeat && x.now + x.delta <= t.expiration)
    && (InBatch(s, a) && !HasRun(s, a) ==> x.repeat && x.now + x.delta <= t.expiration && x.batch < s.batches)
    && (InBatch(s, a) && HasRun(s, a) ==>
          (x.batch == s.batches && x.now == s.now) || (x.repeat && x.now + x.delta <= s.now))
  }

  /** No run was early, two runs of one timer are runs of a repeating timer in different batches at
      least its interval apart, and the runs of one batch are in the order of their expirations. */
  ghost predicate Disciplined(log: seq<Exec>) {
    && (forall i :: 0 <= i < |log| ==> log[i].due <= log[i].now)
    && (forall i, j :: 0 <= i < j < |log| && log[i].seqno == log[j].seqno ==>
          log[i].repeat && log[i].batch < log[j].batch && log[i].now + log[i].delta <= log[j].now)
    && (forall i, j :: 0 <= i < j < |log| && log[i].batch == log[j].batch ==> log[i].due <= log[j].due)
  }

  ghost predicate Fired(s: State) {
    && s.left <= |s.batch|
    && (forall e :: e in s.batch ==> e.when <= s.now)
    && (forall k :: 0 <= k < |s.log| ==> s.log[k].seqno < s.created && s.log[k].batch <= s.batches)
    && (forall k, i ::
        0 <= k < |s.log| && s.left <= i < |s.batch| && s.log[k].batch == s.batches ==> s.log[k].due <= s.batch[i].when)
    && (forall a, k :: a in s.heap && 0 <= k < |s.log| && s.log[k].seqno == s.heap[a].seqno ==>
        Consistent(s, a, s.log[k]))
    && Disciplined(s.log)
  }

  lemma FiredBegin(e: Event, s: State)
    requires Inv(s) && Fired(s) && Enabled(e, s) && e.Begin?
    ensures Fired(Step(e, s))
  {
    var t := Step(e, s);
    AssertsHold(e, s);
    forall a, k | a in t.heap && 0 <= k < |t.log| && t.log[k].seqno == t.heap[a].seqno
      ensures Consistent(t, a, t.log[k])
    {
      assert Consistent(s, a, s.log[k]);
      assert t.batch[..0] == [];
    }
  }

  lemma NextHasNotRun(s: State)
    requires Inv(s) && Enabled(RunNext, s)
    ensures var a := s.batch[s.left].addr;
      && a in s.heap && Key(s, a) == s.batch[s.left] && InBatch(s, a) && !HasRun(s, a)
    ensures s.batch[..s.left + 1] == s.batch[..s.left] + [s.batch[s.left]]
  {
    var e := s.batch[s.left];
    assert e in s.batch && Current(s, e);
    assert forall i :: 0 <= i < s.left ==> Less(s.batch[i], e);
  }

  lemma FiredRunOthers(s: State, a: nat, k: nat)
    requires Inv(s) && Fired(s) && Enabled(RunNext, s)
    requires a in s.heap && k < |s.log| && s.log[k].seqno == s.heap[a].seqno
    ensures Consistent(Step(RunNext, s), a, s.log[k])
  {
    NextHasNotRun(s);
    assert Consistent(s, a, s.log[k]) && OnePlace(s, a);
  }

  lemma FiredRunLog(s: State)
    requires Inv(s) && Fired(s) && Enabled(RunNext, s)
    ensures Disciplined(Step(RunNext, s).log)
  {
    NextHasNotRun(s);
    var a := s.batch[s.left].addr;
    var log, x := s.log, Step(RunNext, s).log[|s.log|];
    assert x.due <= x.now by { assert s.batch[s.left] in s.batch; }
    forall k | 0 <= k < |log|
      ensures log[k].seqno == x.seqno ==> log[k].repeat && log[k].batch < x.batch && log[k].now + log[k].delta <= x.now
      ensures log[k].batch == x.batch ==> log[k].due <= x.due
    {
      if log[k].seqno == x.seqno {
        assert Consistent(s, a, log[k]);
      }
    }
  }

  lemma FiredRun(s: State)
    requires Inv(s) && Fired(s) && Enabled(RunNext, s)
    ensures Fired(Step(RunNext, s))
  {
    var t := Step(RunNext, s);
    NextHasNotRun(s);
    FiredRunLog(s);
    var e := s.batch[s.left];
    assert forall i :: s.left < i < |s.batch| ==> Less(e, s.batch[i]);
    assert s.heap[e.addr].seqno in s.issued;
    forall a, k | a in t.heap && 0 <= k < |t.log| && t.log[k].seqno == t.heap[a].seqno
      ensures Consistent(t, a, t.log[k])
    {
      if k < |s.log| {
        FiredRunOthers(s, a, k);
      } else {
        assert s.issued[s.heap[a].seqno] == a && s.issued[s.heap[e.addr].seqno] == e.addr;
        assert OnePlace(s, a);
      }
    }
  }

  lemma EndConsistent(s: State, t: State, a: nat, x: Exec)
    requires Inv(s) && s.calling && s.left == |s.batch| && t == Step(End, s)
    requires a in t.heap && x.seqno == t.heap[a].seqno && x.batch <= s.batches
    requires a in s.heap && Consistent(s, a, x)
    ensures Consistent(t, a, x)
  {
    assert OnePlace(s, a);
    assert s.batch[..s.left] == s.batch;
    if InBatch(s, a) {
      assert t.heap[a] == s.heap[a].Restarted(s.now);
    }
  }

  lemma FiredEnd(s: State)
    requires Inv(s) && Fired(s) && Enabled(End, s)
    ensures Fired(Step(End, s))
  {
    var t := Step(End, s);
    forall a, k | a in t.heap && 0 <= k < |t.log| && t.log[k].seqno == t.heap[a].seqno
      ensures Consistent(t, a, t.log[k])
    {
      assert a in s.heap && t.heap[a].seqno == s.heap[a].seqno;
      EndConsistent(s, t, a, s.log[k]);
    }
  }

  /** A step that runs nothing and moves no timer that has run before. */
  ghost predicate Tame(s: State, t: State) {
    && t.log == s.log && t.batches == s.batches && t.batch == s.batch && t.left == s.left && t.now == s.now
    && s.created <= t.created
    && forall a :: a in t.heap ==>
         t.heap[a].seqno >= s.created ||
         (a in s.heap && t.heap[a] == s.heap[a] && (a in t.pending ==> a in s.pending) &&
          (Queued(t, a) ==> Queued(s, a) || a in s.pending))
  }

  lemma FiredTame(s: State, t: State)
    requires Fired(s) && Tame(s, t)
    ensures Fired(t)
  {
    forall a, k | a in t.heap && 0 <= k < |t.log| && t.log[k].seqno == t.heap[a].seqno
      ensures Consistent(t, a, t.log[k])
    {
      assert s.log[k].seqno < s.created;
      assert Consistent(s, a, s.log[k]);
    }
  }

  lemma TameSteps(e: Event, s: State)
    requires Inv(s) && Enabled(e, s) && !e.Begin? && !e.RunNext? && !e.End?
    ensures Tame(s, Step(e, s))
  {
  }

  lemma FiredNext(e: Event, s: State)
    requires Inv(s) && Fired(s)
    ensures Fired(Next(e, s))
  {
    if Enabled(e, s) {
      match e
      case Begin(_, _) => FiredBegin(e, s);
      case RunNext => FiredRun(s);
      case End => FiredEnd(s);
      case _ =>
        TameSteps(e, s);
        FiredTame(s, Step(e, s));
    }
  }

  /** Firing discipline, under every schedule and whatever the clock does: no timer runs early, a
      one-shot timer runs at most once, a repeating one at most once in a batch and in batches whose
      clock readings are at least its interval apart, and a batch runs in order of expiration. */
  lemma {:induction false} TimersDisciplined(es: seq<Event>, s: State)
    requires Inv(s) && Fired(s)
    ensures Disciplined(Run(es, s).log)
  {
    if es != [] {
      NextKeeps(es[0], s);
      FiredNext(es[0], s);
      TimersDisciplined(es[1..], Next(es[0], s));
    }
  }

  // ----- cancellation -----

  /** A sequence number whose timer has no future beyond the batch in hand. */
  ghost predicate Doomed(s: State, q: nat) {
    && q < s.created
    && (forall a :: a in s.heap && s.heap[a].seqno == q ==> InBatch(s, a) && Id(a, q) in s.canceling)
  }

  /** Cancelling a timer that has been added, whether it is queued or in the batch in hand, dooms it. */
  lemma CancelDooms(s: State, id: Id)
    requires Inv(s) && Enabled(CancelInLoop(id), s)
    requires id.addr in s.heap && s.heap[id.addr].seqno == id.seqno && id.addr !in s.pending
    ensures Doomed(Step(CancelInLoop(id), s), id.seqno)
  {
    var t := Step(CancelInLoop(id), s);
    assert OnePlace(s, id.addr);
    assert Queued(s, id.addr) <==> id in s.active;
    forall a | a in t.heap && t.heap[a].seqno == id.seqno
      ensures InBatch(t, a) && Id(a, id.seqno) in t.canceling
    {
      assert s.issued[id.seqno] == id.addr && s.issued[s.heap[a].seqno] == a;
    }
  }

  lemma DoomedForGood(e: Event, s: State, q: nat)
    requires Inv(s) && Doomed(s, q)
    ensures Doomed(Next(e, s), q)
    ensures e.Begin? && Enabled(e, s) ==> forall a :: a in s.heap ==> s.heap[a].seqno != q
  {
    if Enabled(e, s) {
      var t := Step(e, s);
      forall a | a in t.heap && t.heap[a].seqno == q
        ensures InBatch(t, a) && Id(a, q) in t.canceling
      {
        assert a in s.heap;
        assert OnePlace(s, a);
      }
    }
  }

  /** Doomed, and confined to batch number `batch` at the latest. */
  ghost predicate Confined(s: State, q: nat, batch: nat) {
    Doomed(s, q) && (s.batches == batch || forall a :: a in s.heap ==> s.heap[a].seqno != q)
  }

  lemma ConfinedStep(e: Event, s: State, q: nat, batch: nat)
    requires Inv(s) && Confined(s, q, batch)
    ensures Confined(Next(e, s), q, batch)
    ensures s.log <= Next(e, s).log
    ensures forall k ::
      |s.log| <= k < |Next(e, s).log| && Next(e, s).log[k].seqno == q ==> Next(e, s).log[k].batch == batch
  {
    DoomedForGood(e, s, q);
    if Enabled(e, s) {
      var t := Step(e, s);
      forall a | a in t.heap && t.heap[a].seqno == q
        ensures a in s.heap && s.heap[a].seqno == q
      {
      }
    }
  }

  /** Cancellation is final: once CancelInLoop has been processed for a timer that was added, then under
      every schedule the timer runs in no later batch; what may remain is a run in the batch whose
      callbacks were being called at that moment. */
  lemma {:induction false} CancelledNeverRunsLater(es: seq<Event>, s: State, q: nat, batch: nat)
    requires Inv(s) && Confined(s, q, batch)
    ensures s.log <= Run(es, s).log
    ensures forall k ::
      |s.log| <= k < |Run(es, s).log| && Run(es, s).log[k].seqno == q ==> Run(es, s).log[k].batch == batch
  {
    if es != [] {
      var t := Next(es[0], s);
      NextKeeps(es[0], s);
      ConfinedStep(es[0], s, q, batch);
      CancelledNeverRunsLater(es[1..], t, q, batch);
      var log := Run(es, s).log;
      assert forall k :: 0 <= k < |t.log| ==> log[k] == t.log[k];
    }
  }

  /** The same, from the cancel on: a timer cancelled while queued never runs again; one cancelled while
      its batch is in hand can only run in that batch. */
  lemma CancelIsFinal(es: seq<Event>, s: State, id: Id)
    requires Inv(s) && Enabled(CancelInLoop(id), s)
    requires id.addr in s.heap && s.heap[id.addr].seqno == id.seqno && id.addr !in s.pending
    ensures var log := Run(es, Step(CancelInLoop(id), s)).log;
      && s.log <= log
      && forall k :: |s.log| <= k < |log| && log[k].seqno == id.seqno ==>
           InBatch(s, id.addr) && s.calling && log[k].batch == s.batches
  {
    var t := Step(CancelInLoop(id), s);
    CancelDooms(s, id);
    NextKeeps(CancelInLoop(id), s);
    CancelledNeverRunsLater(es, t, id.seqno, s.batches);
    assert OnePlace(s, id.addr);
    if Queued(s, id.addr) {
      forall a | a in t.heap
        ensures t.heap[a].seqno != id.seqno
      {
        assert s.issued[id.seqno] == id.addr && s.issued[s.heap[a].seqno] == a;
      }
      CancelledNeverRunsLater(es, t, id.seqno, s.batches + 1);
    }
  }

  /** A cancel names one timer: every timer with another sequence number, in particular one that has
      been given the address of a deleted timer, keeps its place, its expiration and its future. */
  lemma StaleCancelIsHarmless(s: State, id: Id, a: nat)
    requires Inv(s) && Enabled(CancelInLoop(id), s)
    requires a in s.heap && s.heap[a].seqno != id.seqno
    ensures var t := Step(CancelInLoop(id), s);
      && a in t.heap && t.heap[a] == s.heap[a]
      && (Queued(t, a) <==> Queued(s, a))
      && (InBatch(t, a) <==> InBatch(s, a))
      && (Survives(t, a) <==> Survives(s, a))
  {
    if id in s.active {
      assert s.heap[id.addr].seqno == id.seqno;
    }
  }

  // ----- the alarm -----

  /** The kernel will make, or has made, the timerfd readable for an expiration no later than `when`. */
  predicate Covers(alarm: Alarm, when: Time) {
    !alarm.Disarmed? && alarm.target <= when
  }

  /** Outside the callbacks every queued timer is covered. While they run, only those already due by
      the clock reading of the batch need to be: Reset arms the alarm for the others. */
  ghost predicate Covered(s: State) {
    forall e :: e in s.timers && (s.calling ==> e.when <= s.now) ==> Covers(s.alarm, e.when)
  }

  /** Reset arms the alarm only for a valid, that is positive, time. So it leaves the queue covered
      exactly when the earliest expiration is valid or what the alarm is set to covers it anyway. */
  lemma ResetCoversIff(s: State)
    requires Inv(s) && s.calling
    ensures var timers := PutBack(s, s.batch).timers;
      Covered(Ended(s)) <==> timers == {} || Earliest(timers) > 0 || Covers(s.alarm, Earliest(timers))
  {
  }

  /** No entry comes before this one. */
  ghost predicate IsFirst(x: Entry, timers: set<Entry>) {
    x in timers && forall y :: y in timers ==> x.when <= y.when
  }

  /** Reset arms the alarm for no other time than the expiration of a queued timer that no queued timer
      precedes, and if there is none, or it is not positive, it leaves the alarm alone. */
  lemma ResetArms(s: State)
    requires Inv(s) && Enabled(End, s)
    ensures var t := Step(End, s);
      if t.timers != {} && (forall x :: x in t.timers ==> x.when > 0)
      then t.alarm.Armed? && exists x :: IsFirst(x, t.timers) && x.when == t.alarm.target
      else t.alarm == s.alarm
  {
    var t := Step(End, s);
    if t.timers != {} {
      var x :| x in t.timers && x.when == Earliest(t.timers);
      assert IsFirst(x, t.timers);
    }
  }

  /** An insertion arms it for the new timer if that comes before all others. No other event arms it; it
      fires with the target it was armed for, and reading the timerfd disarms it. */
  lemma AlarmOtherwise(e: Event, s: State)
    requires Enabled(e, s) && !e.End?
    ensures var t := Step(e, s);
      t.alarm ==
        if e.AddInLoop? && (forall x :: x in s.timers ==> s.heap[e.addr].expiration < x.when)
        then Armed(s.heap[e.addr].expiration)
        else if e.AlarmFires? then Unread(s.alarm.target)
        else if e.Begin? && s.alarm.Unread? then Disarmed
        else s.alarm
  {
  }

  /** With a valid clock reading that is always so: a timer with an invalid expiration can only have
      been added by a callback of this batch, and then the alarm was set for it. */
  lemma CoveredEnd(s: State)
    requires Inv(s) && Covered(s) && s.calling && s.now > 0
    ensures Covered(Ended(s))
  {
    var timers := PutBack(s, s.batch).timers;
    ResetCoversIff(s);
    if timers != {} && Earliest(timers) <= 0 {
      var e :| e in timers && e.when == Earliest(timers);
      assert e in s.timers;
    }
  }

  lemma RunCons(e: Event, es: seq<Event>, s: State)
    ensures Run([e] + es, s) == Run(es, Next(e, s))
  {
    assert ([e] + es)[1..] == es;
  }

  /** A timer at address a that was due at -7 and repeats every 2 us, and the state in which it is in
      the batch of a HandleRead that read the clock at -5, its callback run. */
  const TWO_US: real := 0.000002

  ghost function InBadBatch(a: nat): State {
    START.(heap := map[a := Timer(-7, TWO_US, 0)], batch := [Entry(-7, a)], left := 1, now := -5, calling := true,
           created := 1, issued := map[0 := a], batches := 1, log := [Exec(0, -7, -5, 1, true, 2)])
  }

  function BadClock(a: nat): seq<Event> {
    [Allocate(a, -7, TWO_US)] + ([AddInLoop(a)] + ([AlarmFires] + ([Begin(-5, [Entry(-7, a)])] + ([RunNext] + [End]))))
  }

  lemma QueuedBadTimer(a: nat) returns (s: State)
    requires a < UINTPTR_MAX
    ensures s == START.(heap := map[a := Timer(-7, TWO_US, 0)], timers := {Entry(-7, a)}, active := {Id(a, 0)},
                        alarm := Unread(-7), created := 1, issued := map[0 := a])
    ensures forall es :: Run([Allocate(a, -7, TWO_US)] + ([AddInLoop(a)] + ([AlarmFires] + es)), START) == Run(es, s)
  {
    var s1 := Next(Allocate(a, -7, TWO_US), START);
    var s2 := Next(AddInLoop(a), s1);
    s := Next(AlarmFires, s2);
    assert s1.pending == {a} && s2.pending == {};
    forall es
      ensures Run([Allocate(a, -7, TWO_US)] + ([AddInLoop(a)] + ([AlarmFires] + es)), START) == Run(es, s)
    {
      RunCons(AlarmFires, es, s2);
      RunCons(AddInLoop(a), [AlarmFires] + es, s1);
      RunCons(Allocate(a, -7, TWO_US), [AddInLoop(a)] + ([AlarmFires] + es), START);
    }
  }

  lemma DeltaOfTwo(t: Timer)
    requires t.interval == TWO_US
    ensures t.Delta() == 2
  {
    assert t.interval * (MICROSECONDS_PER_SECOND as real) == 2.0;
  }

  lemma BadBatchBegins(a: nat, s: State)
    requires a < UINTPTR_MAX
    requires s == START.(heap := map[a := Timer(-7, TWO_US, 0)], timers := {Entry(-7, a)}, active := {Id(a, 0)},
                         alarm := Unread(-7), created := 1, issued := map[0 := a])
    ensures Next(Begin(-5, [Entry(-7, a)]), s) == InBadBatch(a).(left := 0, log := [])
  {
    var batch := [Entry(-7, a)];
    assert Expired(s.timers, -5) == {Entry(-7, a)};
    assert Enumerates(batch, Expired(s.timers, -5));
    assert Ids(s.heap, batch) == {Id(a, 0)};
  }

  lemma BadBatchRuns(a: nat)
    ensures Run([RunNext] + [End], InBadBatch(a).(left := 0, log := [])) == Ended(InBadBatch(a))
  {
    var t := InBadBatch(a).(left := 0, log := []);
    DeltaOfTwo(t.heap[a]);
    assert Next(RunNext, t) == InBadBatch(a);
    RunCons(RunNext, [End], t);
    RunCons(End, [], InBadBatch(a));
    assert [End] + [] == [End];
  }

  /** Without one it is not: in this run from the start, with the clock at -5, a repeating timer is put
      back at an invalid time and the timerfd stays disarmed. */
  lemma InvalidClockLosesAlarm(a: nat)
    requires a < UINTPTR_MAX
    ensures var s := Run(BadClock(a), START);
      Inv(s) && !s.calling && Entry(-3, a) in s.timers && s.alarm.Disarmed? && !Covered(s)
  {
    hide IndexesAgree, Owned, Numbered, Run;
    var q := QueuedBadTimer(a);
    BadBatchBegins(a, q);
    RunCons(Begin(-5, [Entry(-7, a)]), [RunNext] + [End], q);
    BadBatchRuns(a);
    TimersOwned(BadClock(a), START);
    var s := InBadBatch(a);
    DeltaOfTwo(s.heap[a]);
    assert Key(s, a) == s.batch[0] && Survives(s, a);
    var timers := PutBack(s, s.batch).timers;
    assert Entry(-3, a) in timers;
    assert Earliest(timers) <= -3;
  }

  /** All the invariants hold at the start. */
  lemma StartIsFine()
    ensures Inv(START) && Fired(START) && Covered(START)
  {
  }

  lemma CoveredNext(e: Event, s: State)
    requires Inv(s) && Covered(s) && (s.calling ==> s.now > 0)
    ensures Covered(Next(e, s))
  {
    if Enabled(e, s) {
      match e
      case End => CoveredEnd(s);
      case Begin(now, expired) => AssertsHold(e, s);
      case _ =>
    }
  }

  /** Alarm coverage: under every schedule of adds, cancels and batches with valid clock readings,
      whenever no callbacks are running and timers are queued, the timerfd is armed or readable for an
      expiration no later than that of every queued timer, whatever the expirations are. */
  lemma {:induction false} AlarmCovers(es: seq<Event>, s: State)
    requires Inv(s) && Covered(s) && (s.calling ==> s.now > 0)
    requires forall e :: e in es && e.Begin? ==> e.now > 0
    ensures Covered(Run(es, s))
  {
    if es != [] {
      assert es[0] in es && forall e :: e in es[1..] ==> e in es;
      NextKeeps(es[0], s);
      CoveredNext(es[0], s);
      AlarmCovers(es[1..], Next(es[0], s));
    }
  }
}
