/** Event registration: src/network/Epoll.cc and the event masks of src/network/Channel.h.

    Three records describe one fact, which events of which descriptor are watched: the mask and index
    of each channel, the poller's own map, and the kernel's interest set, which answers EEXIST or
    ENOENT when the poller asks for something that does not match. `RunMirrors` shows that the three
    agree after every sequence of operations and that the kernel never refuses. */
module Registration {

  type Mask = bv32

  const EPOLLIN: Mask := 1
  const EPOLLPRI: Mask := 2
  const EPOLLOUT: Mask := 4
  const EPOLLERR: Mask := 8
  const EPOLLHUP: Mask := 16

  const NONE_EVENT: Mask := 0
  const READ_EVENT: Mask := 3   // EPOLLIN | EPOLLPRI
  const WRITE_EVENT: Mask := 4  // EPOLLOUT

  predicate Reads(mask: Mask) {
    mask & READ_EVENT != 0
  }

  predicate Writes(mask: Mask) {
    mask & WRITE_EVENT != 0
  }

  // what the operations on masks do to the write bit

  lemma ReadingOnWrites(mask: Mask)
    ensures Writes(mask | READ_EVENT) <==> Writes(mask)
  {
    assert (mask | 3) & 4 == mask & 4;
  }

  lemma ReadingOffWrites(mask: Mask)
    ensures Writes(mask & !READ_EVENT) <==> Writes(mask)
  {
    assert (mask & !3) & 4 == mask & 4;
  }

  lemma WritingOnWrites(mask: Mask)
    ensures Writes(mask | WRITE_EVENT)
  {
    assert (mask | 4) & 4 == 4;
  }

  lemma WritingOffWrites(mask: Mask)
    ensures !Writes(mask & !WRITE_EVENT)
  {
    assert (mask & !4) & 4 == 0;
  }

  // and to the read bits

  function ReadPart(mask: Mask): Mask {
    mask & READ_EVENT
  }

  lemma ReadingOnReads(mask: Mask)
    ensures ReadPart(mask | READ_EVENT) == READ_EVENT
  {
    assert (mask | 3) & 3 == 3;
  }

  lemma ReadingOffReads(mask: Mask)
    ensures ReadPart(mask & !READ_EVENT) == NONE_EVENT
  {
    assert (mask & !3) & 3 == 0;
  }

  lemma WritingOnReads(mask: Mask)
    ensures ReadPart(mask | WRITE_EVENT) == ReadPart(mask)
  {
    assert (mask | 4) & 3 == mask & 3;
  }

  lemma WritingOffReads(mask: Mask)
    ensures ReadPart(mask & !WRITE_EVENT) == ReadPart(mask)
  {
    assert (mask & !4) & 3 == mask & 3;
  }

  // and to the rest

  function OtherPart(mask: Mask): Mask {
    mask & 0xffff_fff8
  }

  lemma ReadingOnElse(mask: Mask)
    ensures OtherPart(mask | READ_EVENT) == OtherPart(mask)
  {
    assert (mask | 3) & 0xffff_fff8 == mask & 0xffff_fff8;
  }

  lemma ReadingOffElse(mask: Mask)
    ensures OtherPart(mask & !READ_EVENT) == OtherPart(mask)
  {
    assert (mask & !3) & 0xffff_fff8 == mask & 0xffff_fff8;
  }

  lemma WritingOnElse(mask: Mask)
    ensures OtherPart(mask | WRITE_EVENT) == OtherPart(mask)
  {
    assert (mask | 4) & 0xffff_fff8 == mask & 0xffff_fff8;
  }

  lemma WritingOffElse(mask: Mask)
    ensures OtherPart(mask & !WRITE_EVENT) == OtherPart(mask)
  {
    assert (mask & !4) & 0xffff_fff8 == mask & 0xffff_fff8;
  }

  /** Both read bits are set, or neither. */
  lemma BothBits(mask: Mask)
    ensures ReadPart(mask) == READ_EVENT ==> Reads(mask) && mask & EPOLLIN != 0 && mask & EPOLLPRI != 0
    ensures ReadPart(mask) == NONE_EVENT ==> !Reads(mask) && mask & EPOLLIN == 0 && mask & EPOLLPRI == 0
  {
    assert mask & 3 == 3 ==> mask & 1 != 0 && mask & 2 != 0;
    assert mask & 3 == 0 ==> mask & 1 == 0 && mask & 2 == 0;
  }

  datatype Index = New | Added | Deleted

  datatype Chan = Chan(fd: int, events: Mask, index: Index)

  /** `C` names channel objects; `chans` holds those that exist. */
  datatype Poller<C> = Poller(chans: map<C, Chan>, channels: map<int, C>, kernel: map<int, (Mask, C)>)

  datatype Ctl = CtlAdd | CtlMod | CtlDel

  predicate KernelAccepts<C>(kernel: map<int, (Mask, C)>, ctl: Ctl, fd: int) {
    match ctl
    case CtlAdd => fd !in kernel
    case CtlMod => fd in kernel
    case CtlDel => fd in kernel
  }

  /** epoll_ctl: a refused request changes nothing. */
  function EpollCtl<C>(kernel: map<int, (Mask, C)>, ctl: Ctl, fd: int, events: Mask, c: C): map<int, (Mask, C)> {
    if !KernelAccepts(kernel, ctl, fd) then kernel
    else if ctl.CtlDel? then kernel - {fd}
    else kernel[fd := (events, c)]
  }

  function CtlFor(ch: Chan): Ctl {
    if !ch.index.Added? then CtlAdd else if ch.events == NONE_EVENT then CtlDel else CtlMod
  }

  function Updated<C>(p: Poller<C>, c: C): Poller<C>
    requires c in p.chans
  {
    var ch := p.chans[c];
    var ctl := CtlFor(ch);
    Poller(
      p.chans[c := ch.(index := if ctl.CtlDel? then Deleted else Added)],
      if ch.index.New? then p.channels[ch.fd := c] else p.channels,
      EpollCtl(p.kernel, ctl, ch.fd, ch.events, c))
  }

  function Removed<C>(p: Poller<C>, c: C): Poller<C>
    requires c in p.chans
  {
    var ch := p.chans[c];
    Poller(
      p.chans[c := ch.(index := New)],
      p.channels - {ch.fd},
      if ch.index.Added? then EpollCtl(p.kernel, CtlDel, ch.fd, ch.events, c) else p.kernel)
  }

  function WithEvents<C>(p: Poller<C>, c: C, events: Mask): Poller<C>
    requires c in p.chans
  {
    p.(chans := p.chans[c := p.chans[c].(events := events)])
  }

  datatype Op<C> =
    | Open(c: C, fd: int)
    | EnableReading(c: C)
    | DisableReading(c: C)
    | EnableWriting(c: C)
    | DisableWriting(c: C)
    | DisableAll(c: C)
    | Remove(c: C)
    | Destroy(c: C)

  function NewMask<C>(op: Op<C>, events: Mask): Mask {
    match op
    case EnableReading(_) => events | READ_EVENT
    case DisableReading(_) => events & !READ_EVENT
    case EnableWriting(_) => events | WRITE_EVENT
    case DisableWriting(_) => events & !WRITE_EVENT
    case _ => NONE_EVENT
  }

  /** What a change of interest does to the write bit. */
  lemma WriteBit<C>(op: Op<C>, mask: Mask)
    requires op.EnableReading? || op.DisableReading? || op.EnableWriting? || op.DisableWriting?
    ensures Writes(NewMask(op, mask)) <==> op.EnableWriting? || (!op.DisableWriting? && Writes(mask))
  {
    hide Writes;
    if op.EnableReading? {
      ReadingOnWrites(mask);
    } else if op.DisableReading? {
      ReadingOffWrites(mask);
    } else if op.EnableWriting? {
      WritingOnWrites(mask);
    } else {
      WritingOffWrites(mask);
    }
  }

  /** And to the read bits: enabling sets both, disabling clears both, and writing leaves them alone. */
  lemma ReadBits<C>(op: Op<C>, mask: Mask)
    requires op.EnableReading? || op.DisableReading? || op.EnableWriting? || op.DisableWriting?
    ensures ReadPart(NewMask(op, mask)) ==
      if op.EnableReading? then READ_EVENT else if op.DisableReading? then NONE_EVENT else ReadPart(mask)
  {
    hide ReadPart;
    if op.EnableReading? {
      ReadingOnReads(mask);
    } else if op.DisableReading? {
      ReadingOffReads(mask);
    } else if op.EnableWriting? {
      WritingOnReads(mask);
    } else {
      WritingOffReads(mask);
    }
  }

  /** The same in the words of Channel: reading is on after EnableReading, off after DisableReading, and as
      it was after the others. */
  lemma ReadsIff<C>(op: Op<C>, mask: Mask)
    requires op.EnableReading? || op.DisableReading? || op.EnableWriting? || op.DisableWriting?
    ensures var m := NewMask(op, mask);
      && (Reads(m) <==> op.EnableReading? || (!op.DisableReading? && Reads(mask)))
      && (op.EnableReading? ==> m & EPOLLIN != 0 && m & EPOLLPRI != 0)
      && (op.DisableReading? ==> m & EPOLLIN == 0 && m & EPOLLPRI == 0)
  {
    hide NewMask;
    ReadBits(op, mask);
    BothBits(NewMask(op, mask));
    assert Reads(mask) <==> ReadPart(mask) != 0;
    assert Reads(NewMask(op, mask)) <==> ReadPart(NewMask(op, mask)) != 0;
  }

  /** No other event is ever asked for. */
  lemma NothingElse<C>(op: Op<C>, mask: Mask)
    requires op.EnableReading? || op.DisableReading? || op.EnableWriting? || op.DisableWriting?
    ensures OtherPart(NewMask(op, mask)) == OtherPart(mask)
  {
    hide OtherPart;
    if op.EnableReading? {
      ReadingOnElse(mask);
    } else if op.DisableReading? {
      ReadingOffElse(mask);
    } else if op.EnableWriting? {
      WritingOnElse(mask);
    } else {
      WritingOffElse(mask);
    }
  }

  /** What callers must respect: a channel is made on a descriptor no other channel has, it is removed
      with an empty mask while it is registered, and it is destroyed only when it is not. */
  predicate Legal<C>(op: Op<C>, p: Poller<C>) {
    match op
    case Open(c, fd) => c !in p.chans && forall d :: d in p.chans ==> p.chans[d].fd != fd
    case Remove(c) => c in p.chans && p.chans[c].events == NONE_EVENT && !p.chans[c].index.New?
    case Destroy(c) => c in p.chans && p.chans[c].index.New?
    case _ => op.c in p.chans
  }

  function Apply<C>(op: Op<C>, p: Poller<C>): Poller<C>
    requires Legal(op, p)
  {
    match op
    case Open(c, fd) => p.(chans := p.chans[c := Chan(fd, NONE_EVENT, New)])
    case Remove(c) => Removed(p, c)
    case Destroy(c) => p.(chans := p.chans - {c})
    case _ => Updated(WithEvents(p, op.c, NewMask(op, p.chans[op.c].events)), op.c)
  }

  // ----- the three records agree -----

  ghost predicate Mirrors<C>(p: Poller<C>, c: C)
    requires c in p.chans
  {
    var ch := p.chans[c];
    match ch.index
    case New => ch.fd !in p.channels && ch.fd !in p.kernel
    case Added =>
      ch.fd in p.channels && p.channels[ch.fd] == c && ch.fd in p.kernel && p.kernel[ch.fd] == (ch.events, c)
    case Deleted => ch.fd in p.channels && p.channels[ch.fd] == c && ch.fd !in p.kernel && ch.events == NONE_EVENT
  }

  ghost predicate Inv<C>(p: Poller<C>) {
    && (forall c :: c in p.chans ==> Mirrors(p, c))
    && (forall c, d :: c in p.chans && d in p.chans && p.chans[c].fd == p.chans[d].fd ==> c == d)
    && (forall fd :: fd in p.channels ==> p.channels[fd] in p.chans && p.chans[p.channels[fd]].fd == fd)
    && (forall fd :: fd in p.kernel ==> fd in p.channels)
  }

  /** The asserts of UpdateChannel and RemoveChannel about the map, for the operation about to run. */
  ghost predicate AssertsHold<C>(op: Op<C>, p: Poller<C>) {
    op.Open? || op.Destroy? ||
    (op.c in p.chans &&
     var ch := p.chans[op.c];
     if ch.index.New? && !op.Remove? then ch.fd !in p.channels
     else ch.fd in p.channels && p.channels[ch.fd] == op.c)
  }

  /** The epoll_ctl request, if any, that the operation makes is one the kernel accepts. */
  ghost predicate Accepted<C>(op: Op<C>, p: Poller<C>)
    requires Legal(op, p)
  {
    match op
    case Open(_, _) => true
    case Destroy(_) => true
    case Remove(c) => p.chans[c].index.Added? ==> KernelAccepts(p.kernel, CtlDel, p.chans[c].fd)
    case _ =>
      var ch := p.chans[op.c].(events := NewMask(op, p.chans[op.c].events));
      KernelAccepts(p.kernel, CtlFor(ch), ch.fd)
  }

  lemma UpdatedMirrors<C>(p: Poller<C>, c: C, events: Mask, d: C)
    requires Inv(p) && c in p.chans && d in p.chans
    ensures Mirrors(Updated(WithEvents(p, c, events), c), d)
  {
    assert Mirrors(p, d) && Mirrors(p, c);
  }

  lemma UpdatedKeeps<C>(p: Poller<C>, c: C, events: Mask)
    requires Inv(p) && c in p.chans
    ensures Inv(Updated(WithEvents(p, c, events), c))
  {
    var q := Updated(WithEvents(p, c, events), c);
    forall d | d in q.chans
      ensures Mirrors(q, d)
    {
      UpdatedMirrors(p, c, events, d);
    }
    assert Mirrors(p, c);
  }

  lemma RemovedKeeps<C>(p: Poller<C>, c: C)
    requires Inv(p) && Legal(Remove(c), p)
    ensures Inv(Removed(p, c))
  {
    var q := Removed(p, c);
    forall d | d in q.chans
      ensures Mirrors(q, d)
    {
      assert Mirrors(p, d) && Mirrors(p, c);
    }
  }

  lemma ApplyKeeps<C>(op: Op<C>, p: Poller<C>)
    requires Inv(p) && Legal(op, p)
    ensures Inv(Apply(op, p)) && AssertsHold(op, p) && Accepted(op, p)
  {
    match op
    case Open(c, fd) =>
      var q := Apply(op, p);
      assert fd !in p.channels;
      forall d | d in q.chans
        ensures Mirrors(q, d)
      {
        assert d == c || Mirrors(p, d);
      }
    case Remove(c) =>
      assert Mirrors(p, c);
      RemovedKeeps(p, c);
    case Destroy(c) =>
      var q := Apply(op, p);
      assert Mirrors(p, c);
      forall d | d in q.chans
        ensures Mirrors(q, d)
      {
        assert Mirrors(p, d);
      }
    case _ =>
      assert Mirrors(p, op.c);
      UpdatedKeeps(p, op.c, NewMask(op, p.chans[op.c].events));
  }

  predicate LegalRun<C>(ops: seq<Op<C>>, p: Poller<C>) {
    ops == [] || (Legal(ops[0], p) && LegalRun(ops[1..], Apply(ops[0], p)))
  }

  /** The state in front of operation number n of a run. */
  function At<C>(ops: seq<Op<C>>, p: Poller<C>, n: nat): Poller<C>
    requires LegalRun(ops, p) && n <= |ops|
  {
    if n == 0 then p else At(ops[1..], Apply(ops[0], p), n - 1)
  }

  /** After any legal sequence of operations the mask and index of every channel, the poller's map and
      the kernel's interest set agree; and the next operation's asserts hold and the kernel does not
      refuse it. */
  lemma {:induction false} RunMirrors<C>(ops: seq<Op<C>>, p: Poller<C>, n: nat)
    requires Inv(p) && LegalRun(ops, p) && n <= |ops|
    ensures Inv(At(ops, p, n))
    ensures n < |ops| ==>
      && Legal(ops[n], At(ops, p, n))
      && AssertsHold(ops[n], At(ops, p, n))
      && Accepted(ops[n], At(ops, p, n))
  {
    if n == 0 {
      if ops != [] {
        ApplyKeeps(ops[0], p);
      }
    } else {
      ApplyKeeps(ops[0], p);
      RunMirrors(ops[1..], Apply(ops[0], p), n - 1);
      assert n < |ops| ==> ops[n] == ops[1..][n - 1];
    }
  }

  /** An event can only be reported for a descriptor in the interest set, and it then names the live
      channel that the poller has for that descriptor, with the mask the channel asked for. */
  lemma ReportableIsMapped<C>(p: Poller<C>, fd: int)
    requires Inv(p) && fd in p.kernel
    ensures fd in p.channels && p.channels[fd] == p.kernel[fd].1
    ensures p.kernel[fd].1 in p.chans
    ensures p.chans[p.kernel[fd].1] == Chan(fd, p.kernel[fd].0, Added)
  {
    assert Mirrors(p, p.channels[fd]);
  }

  /** A registered channel that is told to watch nothing is not in the kernel any more. */
  lemma DisableAllSilences<C>(p: Poller<C>, c: C)
    requires Inv(p) && c in p.chans && p.chans[c].index.Added?
    ensures var q := Apply(DisableAll(c), p);
      && q.chans[c] == Chan(p.chans[c].fd, NONE_EVENT, Deleted)
      && q.chans[c].fd !in q.kernel
      && Legal(Remove(c), q)
      && p.chans[c].fd !in Apply(Remove(c), q).channels
  {
    assert Mirrors(p, c);
  }

  /** Told so twice, it is back in the kernel with an empty mask, where it can still be sent error and
      hang-up events: the second update of a deleted channel adds it again. */
  lemma UpdateAfterDisableAllAddsAgain<C>(p: Poller<C>, c: C)
    requires Inv(p) && c in p.chans && p.chans[c].index.Deleted?
    ensures var q := Apply(DisableReading(c), p);
      q.chans[c].fd in q.kernel && q.kernel[q.chans[c].fd] == (NONE_EVENT, c)
  {
    assert Mirrors(p, c);
    assert NONE_EVENT & !READ_EVENT == NONE_EVENT;
  }

  // ----- the classes -----

  /** `owner` names what the channel is tied to, `loop` the event loop it belongs to. */
  class Channel {
    const loop: nat
    const fd: int
    const owner: nat
    var events: Mask
    var revents: Mask
    var index: Index

    constructor (loop: nat, fd: int, owner: nat)
      ensures this.loop == loop && this.fd == fd && this.owner == owner
      ensures events == NONE_EVENT && index == New
    {
      this.loop, this.fd, this.owner := loop, fd, owner;
      events, revents, index := NONE_EVENT, NONE_EVENT, New;
    }

    predicate IsReading()
      reads this
    {
      Reads(events)
    }

    predicate IsWriting()
      reads this
    {
      Writes(events)
    }

    predicate IsNoneEvent()
      reads this
    {
      events == NONE_EVENT
    }

    /** Every mask operation ends this way: the new mask is stored and the poller is told. */
    method SetEvents(mask: Mask, poller: Epoll)
      requires poller.Valid() && this in poller.live
      modifies this`events, this`index, poller`channels, poller`kernel
      ensures poller.Valid() && poller.View() == Updated(WithEvents(old(poller.View()), this, mask), this)
    {
      ghost var was := poller.View();
      events := mask;
      poller.UpdateChannel(this, was);
    }

    method EnableReading(poller: Epoll)
      requires poller.Valid() && this in poller.live
      modifies this`events, this`index, poller`channels, poller`kernel
      ensures poller.Valid() && poller.View() == Apply(Op.EnableReading(this), old(poller.View()))
    {
      SetEvents(events | READ_EVENT, poller);
    }

    method DisableReading(poller: Epoll)
      requires poller.Valid() && this in poller.live
      modifies this`events, this`index, poller`channels, poller`kernel
      ensures poller.Valid() && poller.View() == Apply(Op.DisableReading(this), old(poller.View()))
    {
      SetEvents(events & !READ_EVENT, poller);
    }

    method EnableWriting(poller: Epoll)
      requires poller.Valid() && this in poller.live
      modifies this`events, this`index, poller`channels, poller`kernel
      ensures poller.Valid() && poller.View() == Apply(Op.EnableWriting(this), old(poller.View()))
    {
      SetEvents(events | WRITE_EVENT, poller);
    }

    method DisableWriting(poller: Epoll)
      requires poller.Valid() && this in poller.live
      modifies this`events, this`index, poller`channels, poller`kernel
      ensures poller.Valid() && poller.View() == Apply(Op.DisableWriting(this), old(poller.View()))
    {
      SetEvents(events & !WRITE_EVENT, poller);
    }

    method DisableAll(poller: Epoll)
      requires poller.Valid() && this in poller.live
      modifies this`events, this`index, poller`channels, poller`kernel
      ensures poller.Valid() && poller.View() == Apply(Op.DisableAll(this), old(poller.View()))
    {
      SetEvents(NONE_EVENT, poller);
    }

    method Remove(poller: Epoll)
      requires poller.Valid() && this in poller.live && IsNoneEvent() && index != New
      modifies this`index, poller`channels, poller`kernel
      ensures poller.Valid() && index == New && poller.View() == Apply(Op.Remove(this), old(poller.View()))
    {
      poller.RemoveChannel(this);
    }
  }

  class Epoll {
    const loop: nat
    var channels: map<int, Channel>
    var kernel: map<int, (Mask, Channel)>
    ghost var live: set<Channel>

    ghost function View(): Poller<Channel>
      reads this, live
    {
      Poller(map c | c in live :: Chan(c.fd, c.events, c.index), channels, kernel)
    }

    ghost predicate Valid()
      reads this, live
    {
      Inv(View())
    }

    constructor (loop: nat)
      ensures Valid() && View() == Poller(map[], map[], map[]) && this.loop == loop && live == {}
    {
      this.loop := loop;
      channels, kernel, live := map[], map[], {};
    }

    /** A channel for a descriptor that no other one has; the poller hears of it when it is first updated. */
    method NewChannel(fd: int, owner: nat) returns (channel: Channel)
      requires Valid() && forall c :: c in live ==> c.fd != fd
      modifies this`live
      ensures fresh(channel) && channel.loop == loop && channel.fd == fd && channel.owner == owner
      ensures Valid() && live == old(live) + {channel}
      ensures channel !in old(View()).chans && View() == Apply(Op.Open(channel, fd), old(View()))
    {
      ghost var was := View();
      channel := new Channel(loop, fd, owner);
      live := live + {channel};
      ApplyKeeps(Op.Open(channel, fd), was);
      assert View().chans == Apply(Op.Open(channel, fd), was).chans;
    }

    /** The destructor of a channel, which asserts that the poller does not have it. */
    method DeleteChannel(channel: Channel)
      requires Valid() && channel in live && channel.index == New
      modifies this`live
      ensures Valid() && live == old(live) - {channel}
      ensures View() == Apply(Op.Destroy(channel), old(View()))
    {
      ghost var was := View();
      ApplyKeeps(Op.Destroy(channel), was);
      assert channel.fd !in channels by {
        assert Mirrors(was, channel);
      }
      live := live - {channel};
      assert View().chans == Apply(Op.Destroy(channel), was).chans;
    }

    method Update(ctl: Ctl, channel: Channel)
      requires KernelAccepts(kernel, ctl, channel.fd)
      modifies this`kernel
      ensures kernel == EpollCtl(old(kernel), ctl, channel.fd, channel.events, channel)
    {
      if ctl.CtlDel? {
        kernel := kernel - {channel.fd};
      } else {
        kernel := kernel[channel.fd := (channel.events, channel)];
      }
    }

    /** The two halves of UpdateChannel; what the source asserts of channels_ is required. */
    method Add(channel: Channel)
      requires channel.index != Added && channel.fd !in kernel
      requires if channel.index == New then channel.fd !in channels
               else channel.fd in channels && channels[channel.fd] == channel
      modifies this`channels, this`kernel, channel`index
      ensures channel.index == Added && kernel == old(kernel)[channel.fd := (channel.events, channel)]
      ensures channels == old(channels)[channel.fd := channel]
    {
      if channel.index == New {
        channels := channels[channel.fd := channel];
      }
      channel.index := Added;
      Update(CtlAdd, channel);
    }

    method Change(channel: Channel)
      requires channel.index == Added && channel.fd in kernel
      requires channel.fd in channels && channels[channel.fd] == channel
      modifies this`kernel, channel`index
      ensures if channel.events == NONE_EVENT then channel.index == Deleted && kernel == old(kernel) - {channel.fd}
              else channel.index == Added && kernel == old(kernel)[channel.fd := (channel.events, channel)]
    {
      if channel.events == NONE_EVENT {
        Update(CtlDel, channel);
        channel.index := Deleted;
      } else {
        Update(CtlMod, channel);
      }
    }

    method UpdateRecords(channel: Channel)
      requires channel in live
      requires channel.fd in channels <==> channel.index != New
      requires channel.fd in channels ==> channels[channel.fd] == channel
      requires channel.fd in kernel <==> channel.index == Added
      modifies this`channels, this`kernel, channel`index
      ensures View() == Updated(old(View()), channel)
    {
      ghost var was := View();
      if channel.index == New || channel.index == Deleted {
        Add(channel);
      } else {
        Change(channel);
      }
      assert View().chans == Updated(was, channel).chans;
    }

    /** `was` is the poller as it was before the channel changed its mask. */
    method UpdateChannel(channel: Channel, ghost was: Poller<Channel>)
      requires channel in live && channel in was.chans && Inv(was)
      requires View() == WithEvents(was, channel, channel.events)
      modifies this`channels, this`kernel, channel`index
      ensures View() == Updated(old(View()), channel)
      ensures Valid()
    {
      UpdatedKeeps(was, channel, channel.events);
      assert Mirrors(was, channel);
      UpdateRecords(channel);
    }

    method RemoveChannel(channel: Channel)
      requires Valid() && channel in live && Legal(Op.Remove(channel), View())
      modifies this`channels, this`kernel, channel`index
      ensures Valid() && channel.index == New && View() == Apply(Op.Remove(channel), old(View()))
    {
      ghost var was := View();
      RemovedKeeps(was, channel);
      assert Mirrors(was, channel);
      assert channel.fd in channels && channels[channel.fd] == channel;
      channels := channels - {channel.fd};
      if channel.index == Added {
        Update(CtlDel, channel);
      }
      channel.index := New;
      assert View().chans == Removed(was, channel).chans;
    }

    /** The channel is in the kernel's interest set. */
    ghost predicate Watched(channel: Channel)
      reads this`kernel
    {
      exists fd :: fd in kernel && kernel[fd].1 == channel
    }

    /** `events` is what epoll_wait returned: each entry names an entry of the interest set, none twice. */
    method FillActiveChannels(events: seq<(Channel, Mask)>) returns (active: seq<Channel>)
      requires Valid()
      requires forall i :: 0 <= i < |events| ==> Watched(events[i].0)
      requires forall i, j :: 0 <= i < j < |events| ==> events[i].0 != events[j].0
      modifies live`revents
      ensures Valid() && View() == old(View())
      ensures |active| == |events|
      ensures forall i :: 0 <= i < |active| ==>
                && active[i] == events[i].0 && active[i].revents == events[i].1
                && active[i].fd in channels && channels[active[i].fd] == active[i]
    {
      active := [];
      for i := 0 to |events|
        invariant View() == old(View()) && channels == old(channels) && kernel == old(kernel) && live == old(live)
        invariant |active| == i
        invariant forall j :: 0 <= j < i ==>
                    && active[j] == events[j].0 && active[j].revents == events[j].1
                    && active[j].fd in channels && channels[active[j].fd] == active[j]
      {
        var channel := events[i].0;
        ghost var fd :| fd in kernel && kernel[fd].1 == channel;
        ReportableIsMapped(View(), fd);
        assert channel.fd in channels && channels[channel.fd] == channel;
        channel.revents := events[i].1;
        active := active + [channel];
      }
    }
  }
}
