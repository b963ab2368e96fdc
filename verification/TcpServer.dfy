/** src/network/TcpServer.cc with the connections it owns, as objects on the heap: each loop has a poller
    object, each connection an object with a channel of its own, and the methods update them in place. The
    abstraction is a state of module Reactor, where channels go by the names of their connections. */
module TcpServer {
  import opened Common
  import opened Teardown
  import Reactor
  import R = Registration

  // ----- pollers whose channels are objects, and pollers whose channels are names -----

  ghost predicate NamesChans(p: map<R.Channel, R.Chan>, q: map<ConnId, R.Chan>) {
    && q.Keys == (set ch | ch in p :: ch.owner)
    && (forall ch :: ch in p ==> ch.owner in q && q[ch.owner] == p[ch])
    && (forall a, b :: a in p && b in p && a.owner == b.owner ==> a == b)
  }

  ghost predicate NamesMaps(p: R.Poller<R.Channel>, q: R.Poller<ConnId>) {
    && q.channels.Keys == p.channels.Keys && q.kernel.Keys == p.kernel.Keys
    && (forall fd :: fd in p.channels ==> q.channels[fd] == p.channels[fd].owner)
    && (forall fd :: fd in p.kernel ==> q.kernel[fd] == (p.kernel[fd].0, p.kernel[fd].1.owner))
  }

  ghost predicate Names(p: R.Poller<R.Channel>, q: R.Poller<ConnId>) {
    NamesChans(p.chans, q.chans) && NamesMaps(p, q)
  }

  function Named(op: R.Op<R.Channel>): R.Op<ConnId> {
    match op
    case Open(ch, fd) => R.Open(ch.owner, fd)
    case EnableReading(ch) => R.EnableReading(ch.owner)
    case DisableReading(ch) => R.DisableReading(ch.owner)
    case EnableWriting(ch) => R.EnableWriting(ch.owner)
    case DisableWriting(ch) => R.DisableWriting(ch.owner)
    case DisableAll(ch) => R.DisableAll(ch.owner)
    case Remove(ch) => R.Remove(ch.owner)
    case Destroy(ch) => R.Destroy(ch.owner)
  }

  lemma NamesSet(p: map<R.Channel, R.Chan>, q: map<ConnId, R.Chan>, ch: R.Channel, k: R.Chan)
    requires NamesChans(p, q) && (ch in p || ch.owner !in q)
    ensures NamesChans(p[ch := k], q[ch.owner := k])
  {
    assert (set x | x in p[ch := k] :: x.owner) == (set x | x in p :: x.owner) + {ch.owner};
  }

  lemma NamesDrop(p: map<R.Channel, R.Chan>, q: map<ConnId, R.Chan>, ch: R.Channel)
    requires NamesChans(p, q) && ch in p
    ensures NamesChans(p - {ch}, q - {ch.owner})
  {
    forall d
      ensures d in q - {ch.owner} <==> d in set x | x in p - {ch} :: x.owner
    {
      if d in q && d != ch.owner {
        var x :| x in p && x.owner == d;
        assert x in p - {ch};
      }
    }
  }

  lemma NamesUpdatedChans(p: R.Poller<R.Channel>, q: R.Poller<ConnId>, ch: R.Channel)
    requires NamesChans(p.chans, q.chans) && ch in p.chans && ch.owner in q.chans && q.chans[ch.owner] == p.chans[ch]
    ensures NamesChans(R.Updated(p, ch).chans, R.Updated(q, ch.owner).chans)
  {
    hide NamesChans, R.EpollCtl;
    NamesSet(p.chans, q.chans, ch, R.Updated(p, ch).chans[ch]);
  }

  lemma NamesUpdatedMaps(p: R.Poller<R.Channel>, q: R.Poller<ConnId>, ch: R.Channel)
    requires NamesMaps(p, q) && ch in p.chans && ch.owner in q.chans && q.chans[ch.owner] == p.chans[ch]
    ensures NamesMaps(R.Updated(p, ch), R.Updated(q, ch.owner))
  {
  }

  lemma NamesOne(p: map<R.Channel, R.Chan>, q: map<ConnId, R.Chan>, ch: R.Channel)
    requires NamesChans(p, q) && ch in p
    ensures ch.owner in q && q[ch.owner] == p[ch]
  {
  }

  lemma NamesUpdated(p: R.Poller<R.Channel>, q: R.Poller<ConnId>, ch: R.Channel, events: R.Mask)
    requires Names(p, q) && ch in p.chans
    ensures ch.owner in q.chans
    ensures Names(R.Updated(R.WithEvents(p, ch, events), ch), R.Updated(R.WithEvents(q, ch.owner, events), ch.owner))
  {
    NamesOne(p.chans, q.chans, ch);
    hide NamesChans, R.Updated;
    var p1, q1 := R.WithEvents(p, ch, events), R.WithEvents(q, ch.owner, events);
    NamesSet(p.chans, q.chans, ch, p1.chans[ch]);
    NamesUpdatedChans(p1, q1, ch);
    NamesUpdatedMaps(p1, q1, ch);
  }

  lemma NamesRemoved(p: R.Poller<R.Channel>, q: R.Poller<ConnId>, ch: R.Channel)
    requires Names(p, q) && ch in p.chans
    ensures Names(R.Removed(p, ch), R.Removed(q, ch.owner))
  {
    NamesSet(p.chans, q.chans, ch, p.chans[ch].(index := R.New));
  }

  lemma NamesLegal(op: R.Op<R.Channel>, p: R.Poller<R.Channel>, q: R.Poller<ConnId>)
    requires Names(p, q) && R.Legal(op, p) && (op.Open? ==> op.c.owner !in q.chans)
    ensures R.Legal(Named(op), q)
  {
    if op.Open? {
      forall d | d in q.chans
        ensures q.chans[d].fd != op.fd
      {
        var x :| x in p.chans && x.owner == d;
      }
    }
  }

  /** Whatever is done to a channel object, under its name it is the same. */
  lemma NamesApply(op: R.Op<R.Channel>, p: R.Poller<R.Channel>, q: R.Poller<ConnId>)
    requires Names(p, q) && R.Legal(op, p) && (op.Open? ==> op.c.owner !in q.chans)
    ensures R.Legal(Named(op), q) && Names(R.Apply(op, p), R.Apply(Named(op), q))
  {
    NamesLegal(op, p, q);
    match op {
      case Open(ch, fd) => NamesSet(p.chans, q.chans, ch, R.Chan(fd, R.NONE_EVENT, R.New));
      case Remove(ch) => NamesRemoved(p, q, ch);
      case Destroy(ch) => NamesDrop(p.chans, q.chans, ch);
      case _ =>
        assert p.chans[op.c] == q.chans[op.c.owner];
        NamesUpdated(p, q, op.c, R.NewMask(op, p.chans[op.c].events));
    }
  }

  // ----- event masks -----

  function RevOf(mask: R.Mask): Reactor.Revents {
    Reactor.Revents(mask & R.EPOLLHUP != 0, mask & R.EPOLLIN != 0, mask & R.EPOLLPRI != 0,
                    mask & R.EPOLLERR != 0, mask & R.EPOLLOUT != 0)
  }

  function Bit(on: bool, event: R.Mask): R.Mask {
    if on then event else 0
  }

  function MaskOf(r: Reactor.Revents): R.Mask {
    Bit(r.hup, R.EPOLLHUP) | Bit(r.readable, R.EPOLLIN) | Bit(r.pri, R.EPOLLPRI)
    | Bit(r.err, R.EPOLLERR) | Bit(r.writable, R.EPOLLOUT)
  }

  lemma MaskRoundTrip(r: Reactor.Revents)
    ensures RevOf(MaskOf(r)) == r
  {
  }

  /** What a loop makes of the events that epoll_wait returned. */
  function Reports(events: seq<(R.Channel, R.Mask)>): seq<Reactor.Report> {
    seq(|events|, i requires 0 <= i < |events| => Reactor.Report(events[i].0.owner, RevOf(events[i].1)))
  }

  // ----- the objects -----

  class Connection {
    const id: ConnId
    const channel: R.Channel
    var life: Life
    var reading: bool
    var backlog: nat  // the readable bytes of outputBuffer_
    ghost var up: nat
    ghost var down: nat
    ghost var erased: nat
    ghost var destroyed: nat

    constructor (id: ConnId, channel: R.Channel)
      ensures this.id == id && this.channel == channel && reading && backlog == 0
      ensures Value() == Conn(channel.loop, channel.fd, Connecting, 0, 0, 0, 0)
    {
      this.id, this.channel, life, reading, backlog := id, channel, Connecting, true, 0;
      up, down, erased, destroyed := 0, 0, 0, 0;
    }

    ghost function Value(): Conn
      reads this
    {
      Conn(channel.loop, channel.fd, life, up, down, erased, destroyed)
    }
  }

  /** `all` are the connections that the server or some functor still holds. */
  class Server {
    const pollers: map<Loop, R.Epoll>
    var all: map<ConnId, Connection>
    var connections: set<ConnId>
    var nextConnId: nat
    var queues: map<Loop, seq<Functor>>
    var phases: map<Loop, Reactor.Phase>
    ghost var polls: map<Loop, R.Poller<ConnId>>

    ghost function Channels(): set<R.Channel>
      reads pollers.Values`live
    {
      set l, ch | l in pollers && ch in pollers[l].live :: ch
    }

    /** The channels of the connections. */
    ghost function Held(): set<R.Channel>
      reads this`all
    {
      set c | c in all :: all[c].channel
    }

    /** Every live channel belongs to the connection it is tied to, and to its loop. */
    ghost predicate Linked()
      reads this`all, this`nextConnId, pollers.Values`live
    {
      && (forall c :: c in all ==> c < nextConnId)
      && (forall l :: l in pollers ==> pollers[l].loop == l)
      && (forall l, ch :: l in pollers && ch in pollers[l].live ==>
           ch.loop == l && ch.owner in all && all[ch.owner].channel == ch)
      && (forall c :: c in all ==> all[c].id == c && all[c].channel.owner == c && all[c].channel.loop in pollers)
    }

    ghost predicate Polled()
      reads this`polls, pollers.Values, Channels()
    {
      && polls.Keys == pollers.Keys
      && forall l :: l in pollers ==> pollers[l].Valid() && Names(pollers[l].View(), polls[l])
    }

    ghost predicate Valid()
      reads this`all, this`nextConnId, this`polls, pollers.Values, Channels()
    {
      Linked() && Polled()
    }

    ghost function World(): World
      reads this, all.Values
    {
      Teardown.World(map c | c in all :: all[c].Value(), connections, nextConnId, queues, polls)
    }

    ghost function Paused(): set<ConnId>
      reads this`all, all.Values`reading
    {
      set c | c in all && !all[c].reading
    }

    ghost function Backlogs(): map<ConnId, nat>
      reads this`all, all.Values`backlog
    {
      map c | c in all && 0 < all[c].backlog :: all[c].backlog
    }

    ghost function View(): Reactor.State
      reads this, all.Values
    {
      Reactor.State(World(), phases, Paused(), Backlogs())
    }

    constructor (pollers: map<Loop, R.Epoll>)
      ensures this.pollers == pollers && all == map[] && connections == {} && nextConnId == 0
      ensures var s := Reactor.Begin(pollers.Keys);
        queues == s.world.queues && phases == s.phases && polls == s.world.polls
    {
      this.pollers := pollers;
      all, connections, nextConnId := map[], {}, 0;
      var s := Reactor.Begin(pollers.Keys);
      queues, phases, polls := s.world.queues, s.phases, s.world.polls;
    }

    static lemma NothingNamed()
      ensures Names(R.Poller(map[], map[], map[]), R.Poller(map[], map[], map[]))
    {
    }

    /** A server just made, of loops that are idle and have no channels yet. */
    lemma FreshIsValid()
      requires all == map[] && connections == {} && nextConnId == 0
      requires var s := Reactor.Begin(pollers.Keys);
        queues == s.world.queues && phases == s.phases && polls == s.world.polls
      requires forall l :: l in pollers ==> pollers[l].loop == l && pollers[l].View() == R.Poller(map[], map[], map[])
      ensures Valid() && View() == Reactor.Begin(pollers.Keys)
    {
      NothingNamed();
      assert forall l :: l in pollers ==> pollers[l].View().chans.Keys == pollers[l].live;
    }

    /** The loop of a connection, whose poller its channel is registered with. */
    predicate Owns(conn: Connection, poller: R.Epoll)
      reads this`all
    {
      && conn.id in all && all[conn.id] == conn
      && conn.channel.loop in pollers && pollers[conn.channel.loop] == poller
    }

    lemma Apart(conn: Connection, poller: R.Epoll)
      requires Linked() && Owns(conn, poller)
      ensures forall m :: m in pollers && m != conn.channel.loop ==>
        pollers[m] != poller && conn.channel !in pollers[m].live
    {
    }

    lemma PolledAt(l: Loop)
      requires Polled() && l in pollers
      ensures l in polls && pollers[l].Valid() && Names(pollers[l].View(), polls[l])
    {
    }

    static lemma MaskOpIsLegal(poller: R.Epoll, op: R.Op<R.Channel>)
      requires op.c in poller.live && !op.Open? && !op.Destroy?
      requires op.Remove? ==> op.c.IsNoneEvent() && op.c.index != R.New
      ensures R.Legal(op, poller.View())
    {
    }

    method Update(poller: R.Epoll, op: R.Op<R.Channel>)
      requires poller.Valid() && op.c in poller.live && !op.Open? && !op.Destroy?
      requires op.Remove? ==> op.c.IsNoneEvent() && op.c.index != R.New
      modifies op.c, poller`channels, poller`kernel
      ensures op.Remove? ==> op.c.index == R.New
      ensures poller.Valid() && R.Legal(op, old(poller.View())) && poller.View() == R.Apply(op, old(poller.View()))
    {
      match op {
        case EnableReading(ch) => ch.EnableReading(poller);
        case DisableReading(ch) => ch.DisableReading(poller);
        case EnableWriting(ch) => ch.EnableWriting(poller);
        case DisableWriting(ch) => ch.DisableWriting(poller);
        case DisableAll(ch) => ch.DisableAll(poller);
        case Remove(ch) => ch.Remove(poller);
      }
    }

    /** What is done to one loop's poller and channels does not show in another's. */
    twostate lemma OthersPolled(l: Loop)
      requires old(Polled()) && Linked() && l in pollers
      requires pollers[l].Valid() && l in polls && Names(pollers[l].View(), polls[l])
      requires polls == old(polls)[l := polls[l]]
      requires forall m :: m in pollers && m != l ==>
        unchanged(pollers[m]) && forall ch :: ch in pollers[m].live ==> unchanged(ch)
      ensures Polled()
    {
      hide Names, R.Inv;
      forall m | m in pollers
        ensures pollers[m].Valid() && Names(pollers[m].View(), polls[m])
      {
        if m != l {
          assert pollers[m].View() == old(pollers[m].View());
        }
      }
    }

    /** A mask operation on the channel of a connection, or its removal from the poller. */
    method Watch(conn: Connection, poller: R.Epoll, op: R.Op<R.Channel>)
      requires Valid() && Owns(conn, poller) && conn.channel in poller.live
      requires op.c == conn.channel && !op.Open? && !op.Destroy?
      requires op.Remove? ==> conn.channel.IsNoneEvent() && conn.channel.index != R.New
      modifies conn.channel, poller`channels, poller`kernel, this`polls
      ensures Valid() && conn.channel in poller.live && R.Legal(Named(op), old(polls[conn.channel.loop]))
      ensures op.Remove? ==> conn.channel.index == R.New
      ensures World() == Channel(old(World()), conn.channel.loop, Named(op))
    {
      hide Names, R.Inv, R.Apply, Linked, Polled, Named, R.Legal, R.Epoll.View;
      var l := conn.channel.loop;
      Apart(conn, poller);
      PolledAt(l);
      MaskOpIsLegal(poller, op);
      NamesApply(op, poller.View(), polls[l]);
      Update(poller, op);
      polls := polls[l := R.Apply(Named(op), polls[l])];
      OthersPolled(l);
    }

    /** A registered connection has its channel object in the poller. */
    lemma LiveChannel(conn: Connection, poller: R.Epoll)
      requires Valid() && Owns(conn, poller) && HasChannel(World(), conn.id)
      ensures conn.channel in poller.live && poller.Valid() && conn.channel.owner == conn.id
      ensures polls[conn.channel.loop].chans[conn.id] ==
        R.Chan(conn.channel.fd, conn.channel.events, conn.channel.index)
    {
      hide R.Inv, NamesMaps;
      assert World().conns[conn.id].loop == conn.channel.loop;
      var p := poller.View();
      assert Names(p, polls[conn.channel.loop]);
      var ch :| ch in p.chans && ch.owner == conn.id;
    }

    /** The pollers and what is registered do not depend on the connections. */
    twostate lemma ValidStays()
      requires old(Valid()) && polls == old(polls) && all == old(all) && nextConnId == old(nextConnId)
      requires forall l :: l in pollers ==> unchanged(pollers[l])
      requires forall l, ch :: l in pollers && ch in pollers[l].live ==> unchanged(ch`events) && unchanged(ch`index)
      ensures Valid()
    {
      hide Names, R.Inv;
      forall m | m in pollers
        ensures pollers[m].Valid() && Names(pollers[m].View(), polls[m])
      {
        assert pollers[m].View() == old(pollers[m].View());
      }
    }

    lemma Alone(conn: Connection, poller: R.Epoll)
      requires Linked() && Owns(conn, poller)
      ensures forall c :: c in all && c != conn.id ==> all[c] != conn
    {
    }

    lemma OwnerOf(c: ConnId)
      requires Linked() && c in all
      ensures all[c].id == c == all[c].channel.owner && all[c].channel.loop in pollers
      ensures Owns(all[c], pollers[all[c].channel.loop])
    {
    }

    twostate lemma ConnChanged(conn: Connection)
      requires Linked() && conn.id in all && all[conn.id] == conn && all == old(all)
      requires forall c :: c in all && c != conn.id ==> unchanged(all[c])
      ensures World().conns == old(World().conns)[conn.id := conn.Value()]
    {
      hide Linked;
    }

    method QueueInLoop(l: Loop, f: Functor)
      requires Valid() && l in queues
      modifies this`queues
      ensures Valid() && World() == Queue(old(World()), l, f)
    {
      hide Linked, Polled;
      queues := queues[l := queues[l] + [f]];
      ValidStays();
    }

    method Erase(c: ConnId)
      requires Valid()
      modifies this`connections
      ensures Valid() && World() == old(World()).(server := old(connections) - {c})
    {
      hide Linked, Polled;
      connections := connections - {c};
      ValidStays();
    }

    /** The new state of a connection; `k` also counts what has happened to it by then. */
    method SetState(conn: Connection, poller: R.Epoll, life: Life, ghost k: Conn)
      requires Valid() && Owns(conn, poller)
      requires k ==
        conn.Value().(life := life, up := k.up, down := k.down, erased := k.erased, destroyed := k.destroyed)
      modifies conn`life, conn`up, conn`down, conn`erased, conn`destroyed
      ensures Valid() && World() == WithConn(old(World()), conn.id, k)
    {
      hide Linked, Polled;
      Alone(conn, poller);
      conn.life, conn.up, conn.down, conn.erased, conn.destroyed := life, k.up, k.down, k.erased, k.destroyed;
      ValidStays();
      ConnChanged(conn);
    }

    // ----- up and down -----

    method ConnectEstablished(conn: Connection, poller: R.Epoll)
      requires Valid() && Owns(conn, poller) && HasChannel(World(), conn.id) && conn.life == Connecting
      modifies conn`life, conn`up, conn`down, conn`erased, conn`destroyed
      modifies conn.channel, poller`channels, poller`kernel, this`polls
      ensures Valid() && Teardown.ConnectEstablished(old(World()), conn.id) == Some(World())
    {
      hide Valid;
      LiveChannel(conn, poller);
      SetState(conn, poller, Connected, conn.Value().(life := Connected, up := conn.up + 1));
      Watch(conn, poller, R.EnableReading(conn.channel));
    }

    /** Disconnected, no events, and the user is told. */
    method TakeDown(conn: Connection, poller: R.Epoll)
      requires Valid() && Owns(conn, poller) && HasChannel(World(), conn.id)
      modifies conn`life, conn`up, conn`down, conn`erased, conn`destroyed
      modifies conn.channel, poller`channels, poller`kernel, this`polls
      ensures Valid() && World() == Downed(old(World()), conn.id)
    {
      hide Valid;
      LiveChannel(conn, poller);
      SetState(conn, poller, Disconnected, conn.Value().(life := Disconnected, down := conn.down + 1));
      Watch(conn, poller, R.DisableAll(conn.channel));
    }

    method RemoveConnectionInLoop(conn: Connection, poller: R.Epoll)
      requires Valid() && Owns(conn, poller) && Known(World(), conn.id) && conn.id in connections
      modifies conn`life, conn`up, conn`down, conn`erased, conn`destroyed, this`queues, this`connections
      ensures Valid() && Teardown.RemoveConnectionInLoop(old(World()), conn.id) == Some(World())
    {
      hide Valid;
      Erase(conn.id);
      SetState(conn, poller, conn.life, conn.Value().(erased := conn.erased + 1));
      QueueInLoop(conn.channel.loop, Destroy(conn.id));
    }

    method RemoveConnection(conn: Connection, poller: R.Epoll, inAcceptingLoop: bool)
      requires Valid() && Owns(conn, poller) && Known(World(), conn.id) && (inAcceptingLoop ==> conn.id in connections)
      modifies conn`life, conn`up, conn`down, conn`erased, conn`destroyed, this`queues, this`connections
      ensures Valid()
      ensures if inAcceptingLoop then Teardown.RemoveConnectionInLoop(old(World()), conn.id) == Some(World())
              else World() == Queue(old(World()), 0, RemoveInLoop(conn.id))
    {
      hide Valid;
      if inAcceptingLoop {
        RemoveConnectionInLoop(conn, poller);
      } else {
        QueueInLoop(0, RemoveInLoop(conn.id));
      }
    }

    method HandleClose(conn: Connection, poller: R.Epoll)
      requires Valid() && Owns(conn, poller) && HasChannel(World(), conn.id)
      requires conn.life == Connected || conn.life == Disconnecting
      requires conn.channel.loop == 0 ==> conn.id in connections
      modifies conn`life, conn`up, conn`down, conn`erased, conn`destroyed
      modifies conn.channel, poller`channels, poller`kernel, this`polls, this`queues, this`connections
      ensures Valid() && Teardown.HandleClose(old(World()), conn.id) == Some(World())
    {
      hide Valid;
      TakeDown(conn, poller);
      RemoveConnection(conn, poller, conn.channel.loop == 0);
    }

    // ----- the end of a connection -----

    twostate lemma LinkedStill(poller: R.Epoll)
      requires old(Linked()) && all == old(all) && nextConnId == old(nextConnId) && poller.live <= old(poller.live)
      requires forall l :: l in pollers && pollers[l] != poller ==> unchanged(pollers[l])
      ensures Linked()
    {
    }

    static lemma DestroyIsLegal(poller: R.Epoll, ch: R.Channel)
      requires ch in poller.live && ch.index == R.New
      ensures R.Legal(R.Destroy(ch), poller.View())
    {
    }

    method CloseChannel(channel: R.Channel, poller: R.Epoll, ghost named: R.Poller<ConnId>)
      requires poller.Valid() && Names(poller.View(), named) && channel in poller.live && channel.index == R.New
      modifies poller`live
      ensures poller.Valid() && poller.live == old(poller.live) - {channel}
      ensures R.Legal(R.Destroy(channel.owner), named)
      ensures Names(poller.View(), R.Apply(R.Destroy(channel.owner), named))
    {
      hide Names, R.Inv, R.Apply, R.Legal;
      DestroyIsLegal(poller, channel);
      NamesApply(R.Destroy(channel), poller.View(), named);
      poller.DeleteChannel(channel);
    }

    method DeleteChannel(conn: Connection, poller: R.Epoll)
      requires Valid() && Owns(conn, poller) && conn.channel.owner == conn.id
      requires conn.channel in poller.live && conn.channel.index == R.New
      modifies poller`live, this`polls
      ensures Valid() && R.Legal(R.Destroy(conn.id), old(polls[conn.channel.loop]))
      ensures World() == Channel(old(World()), conn.channel.loop, R.Destroy(conn.id))
    {
      hide Names, R.Inv, R.Apply, Linked, Polled, R.Legal, R.Epoll.View, R.Epoll.Valid;
      var l := conn.channel.loop;
      Apart(conn, poller);
      PolledAt(l);
      CloseChannel(conn.channel, poller, polls[l]);
      polls := polls[l := R.Apply(R.Destroy(conn.id), polls[l])];
      LinkedStill(poller);
      OthersPolled(l);
    }

    /** ConnectDestroyed on names, in the steps that the objects take. */
    static lemma DestroyedInTwo(w: World, c: ConnId)
      requires HasChannel(w, c) && !w.conns[c].life.Connected? && R.Legal(R.Remove(c), w.polls[w.conns[c].loop])
      ensures var k := w.conns[c];
        var u := Channel(WithConn(w, c, k.(destroyed := k.destroyed + 1)), k.loop, R.Remove(c));
        R.Legal(R.Destroy(c), u.polls[k.loop])
        && Teardown.ConnectDestroyed(w, c) == Some(Channel(u, k.loop, R.Destroy(c)))
    {
      var l := w.conns[c].loop;
      var p := R.Apply(R.Remove(c), w.polls[l]);
      assert w.polls[l := p][l := R.Apply(R.Destroy(c), p)] == w.polls[l := R.Apply(R.Destroy(c), p)];
    }

    /** The channel of a connection that is not up leaves the poller and is deleted. */
    method Unregister(conn: Connection, poller: R.Epoll)
      requires Valid() && Owns(conn, poller) && HasChannel(World(), conn.id)
      requires conn.life != Connected && conn.channel.IsNoneEvent() && conn.channel.index != R.New
      modifies conn`life, conn`up, conn`down, conn`erased, conn`destroyed
      modifies conn.channel, poller`channels, poller`kernel, poller`live, this`polls
      ensures Valid() && Teardown.ConnectDestroyed(old(World()), conn.id) == Some(World())
    {
      hide Valid, R.Apply;
      LiveChannel(conn, poller);
      SetState(conn, poller, conn.life, conn.Value().(destroyed := conn.destroyed + 1));
      Watch(conn, poller, R.Remove(conn.channel));
      DeleteChannel(conn, poller);
      DestroyedInTwo(old(World()), conn.id);
    }

    static lemma DownedWatchesNothing(w: World, c: ConnId)
      requires HasChannel(w, c)
      ensures HasChannel(Downed(w, c), c)
      ensures var ch := Downed(w, c).polls[w.conns[c].loop].chans[c]; ch.events == R.NONE_EVENT && !ch.index.New?
      ensures w.conns[c].life.Connected? ==>
        Teardown.ConnectDestroyed(w, c) == Teardown.ConnectDestroyed(Downed(w, c), c)
    {
      ApplyKeys(w.polls[w.conns[c].loop], R.DisableAll(c));
    }

    static lemma DownedLife(w: World, c: ConnId)
      requires HasChannel(w, c)
      ensures Downed(w, c).conns == w.conns[c := w.conns[c].(life := Disconnected, down := w.conns[c].down + 1)]
    {
    }

    /** What the source asserts: a connection that is not up any more watches nothing. */
    method ConnectDestroyed(conn: Connection, poller: R.Epoll)
      requires Valid() && Owns(conn, poller) && HasChannel(World(), conn.id)
      requires conn.life != Connected ==> conn.channel.IsNoneEvent() && conn.channel.index != R.New
      modifies conn`life, conn`up, conn`down, conn`erased, conn`destroyed
      modifies conn.channel, poller`channels, poller`kernel, poller`live, this`polls
      ensures Valid() && Teardown.ConnectDestroyed(old(World()), conn.id) == Some(World())
    {
      hide Valid, Downed, Teardown.ConnectDestroyed;
      if conn.life == Connected {
        DownedWatchesNothing(World(), conn.id);
        DownedLife(World(), conn.id);
        TakeDown(conn, poller);
        LiveChannel(conn, poller);
      }
      Unregister(conn, poller);
    }

    // ----- the beginning of a connection -----

    twostate lemma LinkedMore(new conn: Connection, poller: R.Epoll)
      requires old(Linked()) && poller.loop in pollers && pollers[poller.loop] == poller
      requires conn.id == old(nextConnId) == nextConnId - 1 && all == old(all)[conn.id := conn]
      requires conn.channel.owner == conn.id && conn.channel.loop == poller.loop
      requires poller.live == old(poller.live) + {conn.channel}
      requires forall l :: l in pollers && pollers[l] != poller ==> unchanged(pollers[l])
      ensures Linked()
    {
    }

    twostate lemma ConnMade(new conn: Connection)
      requires old(Linked()) && conn.id == old(nextConnId) && all == old(all)[conn.id := conn]
      requires forall c :: c in old(all) ==> unchanged(old(all)[c])
      ensures conn.id !in old(all) && World().conns == old(World().conns)[conn.id := conn.Value()]
      ensures conn.reading && conn.backlog == 0 ==> Paused() == old(Paused()) && Backlogs() == old(Backlogs())
    {
    }

    lemma FreshDescriptor(fd: int, poller: R.Epoll)
      requires Valid() && poller.loop in pollers && pollers[poller.loop] == poller
      requires CanAccept(World(), fd, poller.loop)
      ensures forall ch :: ch in poller.live ==> ch.fd != fd
      ensures nextConnId !in polls[poller.loop].chans
      ensures forall m :: m in pollers && m != poller.loop ==> pollers[m] != poller
    {
      forall ch | ch in poller.live
        ensures ch.fd != fd
      {
        assert Names(poller.View(), polls[poller.loop]);
        assert polls[poller.loop].chans[ch.owner].fd == ch.fd;
      }
    }

    static lemma OpenIsLegal(fd: int, ch: R.Channel, was: R.Poller<R.Channel>, live: set<R.Channel>)
      requires was.chans.Keys == live && ch !in live && forall c :: c in live ==> was.chans[c].fd != fd
      ensures R.Legal(R.Open(ch, fd), was)
    {
    }

    method OpenChannel(fd: int, c: ConnId, poller: R.Epoll, ghost named: R.Poller<ConnId>) returns (channel: R.Channel)
      requires poller.Valid() && Names(poller.View(), named) && c !in named.chans
      requires forall ch :: ch in poller.live ==> ch.fd != fd
      modifies poller`live
      ensures fresh(channel) && channel.loop == poller.loop && channel.fd == fd && channel.owner == c
      ensures poller.Valid() && poller.live == old(poller.live) + {channel}
      ensures R.Legal(R.Open(c, fd), named) && Names(poller.View(), R.Apply(R.Open(c, fd), named))
    {
      hide Names, R.Inv, R.Apply, R.Legal;
      ghost var was, before := poller.View(), poller.live;
      channel := poller.NewChannel(fd, c);
      OpenIsLegal(fd, channel, was, before);
      NamesApply(R.Open(channel, fd), was, named);
    }

    /** The connection object with its channel, known to the server but not to the poller yet. */
    method Create(fd: int, poller: R.Epoll) returns (conn: Connection)
      requires Valid() && poller.loop in pollers && pollers[poller.loop] == poller
      requires CanAccept(World(), fd, poller.loop)
      modifies this`all, this`connections, this`nextConnId, this`polls, poller`live
      ensures Valid() && Owns(conn, poller) && conn.channel.loop == poller.loop && conn.reading
      ensures fresh(conn) && fresh(conn.channel) && conn.id == old(nextConnId) && conn.id !in old(all)
      ensures all == old(all)[conn.id := conn] && Paused() == old(Paused()) && Backlogs() == old(Backlogs())
      ensures World() == Created(old(World()), fd, poller.loop)
    {
      hide Names, R.Inv, R.Apply, Linked, Polled, R.Legal, R.Epoll.View, R.Epoll.Valid;
      var c, l := nextConnId, poller.loop;
      PolledAt(l);
      FreshDescriptor(fd, poller);
      var channel := OpenChannel(fd, c, poller, polls[l]);
      conn := new Connection(c, channel);
      all, connections, nextConnId := all[c := conn], connections + {c}, nextConnId + 1;
      polls := polls[l := R.Apply(R.Open(c, fd), polls[l])];
      LinkedMore(conn, poller);
      OthersPolled(l);
      ConnMade(conn);
    }

    static lemma CreatedState(w: World, fd: int, l: Loop)
      requires CanAccept(w, fd, l)
      ensures var v := Created(w, fd, l);
        HasChannel(v, w.nextId) && v.conns[w.nextId].life.Connecting? && v.queues == w.queues
    {
    }

    method NewConnection(fd: int, poller: R.Epoll)
      requires Valid() && poller.loop in pollers && pollers[poller.loop] == poller
      requires CanAccept(World(), fd, poller.loop)
      modifies this`all, this`connections, this`nextConnId, this`polls, this`queues
      modifies poller`live, poller`channels, poller`kernel
      ensures Valid() && Teardown.NewConnection(old(World()), fd, poller.loop) == Some(World())
      ensures Paused() == old(Paused()) && Backlogs() == old(Backlogs())
      ensures fresh(all.Values - old(all.Values)) && fresh(Held() - old(Held()))
    {
      hide Valid, Created, Teardown.ConnectEstablished;
      CreatedState(World(), fd, poller.loop);
      var conn := Create(fd, poller);
      if poller.loop == 0 {
        ConnectEstablished(conn, poller);
      } else {
        QueueInLoop(poller.loop, Establish(conn.id));
      }
    }

    // ----- what users call -----

    method ForceClose(conn: Connection, poller: R.Epoll)
      requires Valid() && Reactor.Enabled(Reactor.ForceClose(conn.id), View()) && Owns(conn, poller)
      modifies conn`life, conn`up, conn`down, conn`erased, conn`destroyed, this`queues
      ensures Valid() && Reactor.Step(Reactor.ForceClose(conn.id), old(View())) == Some(View())
    {
      hide Valid, Paused, Backlogs;
      if conn.life == Connected || conn.life == Disconnecting {
        SetState(conn, poller, Disconnecting, conn.Value().(life := Disconnecting));
        QueueInLoop(conn.channel.loop, Functor.ForceCloseInLoop(conn.id));
      }
    }

    method Shutdown(conn: Connection, poller: R.Epoll)
      requires Valid() && Reactor.Enabled(Reactor.Shutdown(conn.id), View()) && Owns(conn, poller)
      modifies conn`life, conn`up, conn`down, conn`erased, conn`destroyed
      ensures Valid() && Reactor.Step(Reactor.Shutdown(conn.id), old(View())) == Some(View())
    {
      hide Valid, Paused, Backlogs;
      if conn.life == Connected {
        SetState(conn, poller, Disconnecting, conn.Value().(life := Disconnecting));
      }
    }

    method SetReading(conn: Connection, poller: R.Epoll, on: bool)
      requires Valid() && Owns(conn, poller)
      modifies conn`reading
      ensures Valid()
      ensures View() ==
        old(View()).(paused := if on then old(View()).paused - {conn.id} else old(View()).paused + {conn.id})
    {
      hide Linked, Polled, Backlogs;
      Alone(conn, poller);
      conn.reading := on;
      ValidStays();
    }

    method SetBacklog(conn: Connection, poller: R.Epoll, n: nat)
      requires Valid() && Owns(conn, poller)
      modifies conn`backlog
      ensures Valid() && conn.backlog == n
      ensures View() ==
        old(View()).(backlog := if n == 0 then old(View()).backlog - {conn.id} else old(View()).backlog[conn.id := n])
    {
      hide Linked, Polled, Paused;
      Alone(conn, poller);
      conn.backlog := n;
      ValidStays();
    }

    /** What the connection object and its channel object say is what the view says under their name. */
    lemma Sees(conn: Connection, poller: R.Epoll)
      requires Valid() && Owns(conn, poller) && HasChannel(View().world, conn.id)
      ensures conn.channel in poller.live && conn.channel.owner == conn.id
      ensures View().world.conns[conn.id].life == conn.life
      ensures Reactor.ChanOf(View().world, conn.id).events == conn.channel.events
      ensures (conn.id in View().paused <==> !conn.reading) && Reactor.Backlog(View(), conn.id) == conn.backlog
    {
      hide Valid;
      LiveChannel(conn, poller);
    }

    method ChangeInterest(conn: Connection, poller: R.Epoll, op: R.Op<R.Channel>)
      requires Valid() && Owns(conn, poller) && HasChannel(View().world, conn.id) && conn.channel in poller.live
      requires op.c == conn.channel && IsInterest(Named(op)) && conn.channel.owner == conn.id
      modifies conn.channel, poller`channels, poller`kernel, this`polls
      ensures Valid()
      ensures View() == old(View()).(world := Interest(old(View()).world, Named(op)))
    {
      hide Valid, Paused, Backlogs, R.Apply;
      Watch(conn, poller, op);
    }

    method StartReadInLoop(conn: Connection, poller: R.Epoll)
      requires Valid() && Reactor.Enabled(Reactor.StartRead(conn.id), View()) && Owns(conn, poller)
      modifies conn`reading, conn.channel, poller`channels, poller`kernel, this`polls
      ensures Valid() && Reactor.Step(Reactor.StartRead(conn.id), old(View())) == Some(View())
    {
      hide Valid, View, World, Paused, Interest;
      Sees(conn, poller);
      if !conn.reading || !conn.channel.IsReading() {
        ChangeInterest(conn, poller, R.EnableReading(conn.channel));
        SetReading(conn, poller, true);
      }
    }

    method StopReadInLoop(conn: Connection, poller: R.Epoll)
      requires Valid() && Reactor.Enabled(Reactor.StopRead(conn.id), View()) && Owns(conn, poller)
      modifies conn`reading, conn.channel, poller`channels, poller`kernel, this`polls
      ensures Valid() && Reactor.Step(Reactor.StopRead(conn.id), old(View())) == Some(View())
    {
      hide Valid, View, World, Paused, Interest;
      Sees(conn, poller);
      if conn.reading || conn.channel.IsReading() {
        ChangeInterest(conn, poller, R.DisableReading(conn.channel));
        SetReading(conn, poller, false);
      }
    }

    /** DoSendInLoop; `taken` is what a direct write returns. */
    method SendInLoop(conn: Connection, poller: R.Epoll, len: nat, taken: nat)
      requires Valid() && Reactor.Enabled(Reactor.Send(conn.id, len, taken), View()) && Owns(conn, poller)
      modifies conn`backlog, conn.channel, poller`channels, poller`kernel, this`polls
      ensures Valid() && Reactor.Step(Reactor.Send(conn.id, len, taken), old(View())) == Some(View())
    {
      hide Valid, View, World, Backlogs, Interest;
      Sees(conn, poller);
      if conn.life == Disconnected {
        return;
      }
      var writing := conn.channel.IsWriting();
      var remaining := if !writing && conn.backlog == 0 then len - taken else len;
      if 0 < remaining {
        SetBacklog(conn, poller, conn.backlog + remaining);
        if !writing {
          ChangeInterest(conn, poller, R.EnableWriting(conn.channel));
        }
      }
    }

    method HandleWrite(conn: Connection, poller: R.Epoll, written: nat)
      requires Valid() && Reactor.Enabled(Reactor.HandleWrite(conn.id, written), View()) && Owns(conn, poller)
      modifies conn`backlog, conn.channel, poller`channels, poller`kernel, this`polls
      ensures Valid() && Reactor.Step(Reactor.HandleWrite(conn.id, written), old(View())) == Some(View())
    {
      hide Valid, View, World, Backlogs, Interest;
      Sees(conn, poller);
      if conn.channel.IsWriting() && 0 < written {
        SetBacklog(conn, poller, conn.backlog - written);
        if conn.backlog == 0 {
          ChangeInterest(conn, poller, R.DisableWriting(conn.channel));
        }
      }
    }

    // ----- the loops -----

    method ForceCloseInLoop(conn: Connection, poller: R.Epoll)
      requires Valid() && Owns(conn, poller) && Known(World(), conn.id)
      requires conn.life == Connected || conn.life == Disconnecting ==>
        HasChannel(World(), conn.id) && conn.id in connections
      modifies conn`life, conn`up, conn`down, conn`erased, conn`destroyed
      modifies conn.channel, poller`channels, poller`kernel, this`polls, this`queues, this`connections
      ensures Valid() && Teardown.Execute(old(World()), Functor.ForceCloseInLoop(conn.id)) == Some(World())
    {
      hide Valid, Teardown.HandleClose;
      if conn.life == Connected || conn.life == Disconnecting {
        HandleClose(conn, poller);
      }
    }

    /** Does the connection have what the functor's method asserts? */
    ghost predicate Fit(f: Functor, conn: Connection)
      reads this, all.Values, conn, conn.channel
    {
      match f
      case Establish(c) => HasChannel(World(), c) && conn.life == Connecting
      case RemoveInLoop(c) => c in connections
      case Destroy(c) =>
        HasChannel(World(), c) && conn.life != Connected && conn.channel.IsNoneEvent() && conn.channel.index != R.New
      case ForceCloseInLoop(c) =>
        conn.life == Connected || conn.life == Disconnecting ==> HasChannel(World(), c) && c in connections
    }

    method Execute(f: Functor, conn: Connection, poller: R.Epoll)
      requires Valid() && Owns(conn, poller) && f.c == conn.id && Known(World(), conn.id) && Fit(f, conn)
      modifies conn`life, conn`up, conn`down, conn`erased, conn`destroyed
      modifies conn.channel, poller`channels, poller`kernel, poller`live, this`polls, this`queues, this`connections
      ensures Valid() && Teardown.Execute(old(World()), f) == Some(World())
    {
      hide Valid, Teardown.ConnectEstablished, Teardown.RemoveConnectionInLoop;
      hide Teardown.ConnectDestroyed, Teardown.HandleClose;
      match f {
        case Establish(_) => ConnectEstablished(conn, poller);
        case RemoveInLoop(_) => RemoveConnectionInLoop(conn, poller);
        case Destroy(_) => ConnectDestroyed(conn, poller);
        case ForceCloseInLoop(_) => ForceCloseInLoop(conn, poller);
      }
    }

    /** In a state that meets the invariant, the next functor of a loop has all that its method asserts. */
    lemma HeadFits(l: Loop, conn: Connection, poller: R.Epoll)
      requires Valid() && Teardown.Inv(World()) && HasHead(World(), l)
      requires conn.id == queues[l][0].c && Owns(conn, poller)
      ensures Fit(queues[l][0], conn)
    {
      hide Valid, Teardown.Inv;
      HeadAsserts(World(), l);
      if queues[l][0].Destroy? {
        LiveChannel(conn, poller);
      }
    }

    method Pop(l: Loop) returns (f: Functor)
      requires Valid() && l in phases && phases[l].Running? && 0 < phases[l].left && HasHead(World(), l)
      modifies this`queues, this`phases
      ensures Valid() && f == old(queues[l][0]) && World() == Popped(old(World()), l)
      ensures phases == old(phases[l := Reactor.Running(phases[l].left - 1)])
    {
      hide Linked, Polled;
      f := queues[l][0];
      queues := queues[l := queues[l][1..]];
      phases := phases[l := Reactor.Running(phases[l].left - 1)];
      ValidStays();
    }

    method RunHeadOf(l: Loop, conn: Connection, poller: R.Epoll)
      requires Valid() && l in phases && phases[l].Running? && 0 < phases[l].left && HasHead(World(), l)
      requires Owns(conn, poller) && queues[l][0].c == conn.id && Known(World(), conn.id) && Fit(queues[l][0], conn)
      modifies conn`life, conn`up, conn`down, conn`erased, conn`destroyed
      modifies conn.channel, poller`channels, poller`kernel, poller`live
      modifies this`polls, this`queues, this`connections, this`phases
      ensures Valid() && RunHead(old(World()), l) == Some(World())
      ensures phases == old(phases[l := Reactor.Running(phases[l].left - 1)])
    {
      hide Valid, Teardown.Execute;
      var f := Pop(l);
      Execute(f, conn, poller);
    }

    /** A loop runs its next functor. In a state that meets the invariant a heedful turn meets every assert
        on its way, and the invariant holds after it. */
    method RunNextFunctor(l: Loop)
      requires Valid() && Reactor.Inv(View())
      requires Reactor.Enabled(Reactor.RunFunctor(l), View()) && Reactor.Heedful(Reactor.RunFunctor(l), View())
      modifies this`queues, this`phases, this`polls, this`connections, all.Values, pollers.Values, Held()
      ensures Valid() && Reactor.Step(Reactor.RunFunctor(l), old(View())) == Some(View()) && Reactor.Inv(View())
    {
      hide Linked, Polled, Teardown.Inv, Reactor.Phased, Reactor.ReportsLive, Reactor.Buffered, RunHead;
      hide Paused, Backlogs, Fit;
      ghost var was := View();
      var conn := all[queues[l][0].c];
      OwnerOf(queues[l][0].c);
      var poller := pollers[conn.channel.loop];
      HeadFits(l, conn, poller);
      RunHeadOf(l, conn, poller);
      assert Paused() == was.paused && Backlogs() == was.backlog;
      assert Reactor.Step(Reactor.RunFunctor(l), was) == Some(View());
      Reactor.StepKeeps(Reactor.RunFunctor(l), was);
    }

    method HandleRead(conn: Connection, poller: R.Epoll, read: Reactor.Read)
      requires Valid() && Owns(conn, poller) && HasChannel(World(), conn.id)
      requires read.Eof? ==> (conn.life == Connected || conn.life == Disconnecting) && conn.id in connections
      modifies conn`life, conn`up, conn`down, conn`erased, conn`destroyed
      modifies conn.channel, poller`channels, poller`kernel, this`polls, this`queues, this`connections
      ensures Valid()
      ensures if read.Eof? then Teardown.HandleClose(old(World()), conn.id) == Some(World())
              else World() == old(World())
    {
      hide Valid, Teardown.HandleClose;
      if read == Reactor.Eof {
        HandleClose(conn, poller);
      }
    }

    /** Channel::HandleEventWithGuard: the close callback, then the read callback. */
    method HandleEvent(conn: Connection, poller: R.Epoll, r: Reactor.Revents, read: Reactor.Read)
      requires Valid() && Owns(conn, poller) && HasChannel(World(), conn.id)
      requires (conn.life == Connected || conn.life == Disconnecting) && conn.id in connections
      requires Reactor.Closings(r, read) <= 1
      modifies conn`life, conn`up, conn`down, conn`erased, conn`destroyed
      modifies conn.channel, poller`channels, poller`kernel, this`polls, this`queues, this`connections
      ensures Valid() && Reactor.HandleEvent(old(World()), conn.id, r, read) == Some(World())
    {
      hide Valid, Teardown.HandleClose;
      Reactor.EventCloses(World(), conn.id, r, read);
      CloseState(World(), conn.id);
      if r.hup && !r.readable {
        HandleClose(conn, poller);
      }
      if r.readable || r.pri {
        HandleRead(conn, poller, read);
      }
    }

    method NextReport(l: Loop) returns (r: Reactor.Report)
      requires Valid() && l in phases && phases[l].Dispatching? && phases[l].reports != []
      modifies this`phases
      ensures Valid() && World() == old(World()) && r == old(phases[l].reports[0])
      ensures phases == old(phases[l := Reactor.Dispatching(phases[l].reports[1..])])
    {
      hide Linked, Polled;
      r := phases[l].reports[0];
      phases := phases[l := Reactor.Dispatching(phases[l].reports[1..])];
      ValidStays();
    }

    static lemma OpenIsServed(w: World, c: ConnId)
      requires AllInOrder(w) && c in w.conns && Open(w.conns[c])
      ensures c in w.server
    {
      assert InOrder(w, c);
    }

    /** A loop dispatches the next event that its poll reported, stale or not; likewise. */
    method DispatchNext(l: Loop, read: Reactor.Read)
      requires Valid() && Reactor.Inv(View())
      requires Reactor.Enabled(Reactor.Dispatch(l, read), View()) && Reactor.Heedful(Reactor.Dispatch(l, read), View())
      modifies this`queues, this`phases, this`polls, this`connections, all.Values, pollers.Values, Held()
      ensures Valid() && Reactor.Step(Reactor.Dispatch(l, read), old(View())) == Some(View()) && Reactor.Inv(View())
    {
      hide Linked, Polled, Good, PollsAgree, AllInOrder, Reactor.Phased, Reactor.Buffered, Teardown.HandleClose;
      hide Paused, Backlogs;
      ghost var was := View();
      assert Reactor.Live(World(), phases[l].reports[0].c, l);
      var conn := all[phases[l].reports[0].c];
      OwnerOf(phases[l].reports[0].c);
      var poller := pollers[conn.channel.loop];
      OpenIsServed(World(), conn.id);
      var r := NextReport(l);
      HandleEvent(conn, poller, r.revents, read);
      assert Paused() == was.paused && Backlogs() == was.backlog;
      assert Reactor.Step(Reactor.Dispatch(l, read), was) == Some(View());
      Reactor.StepKeeps(Reactor.Dispatch(l, read), was);
    }

    lemma LoopOf(l: Loop)
      requires Linked() && l in pollers
      ensures pollers[l].loop == l
    {
    }

    /** The listening socket's handler: a connection for loop l. */
    method Accept(fd: int, l: Loop)
      requires Valid() && Reactor.Inv(View()) && l in pollers && Reactor.Enabled(Reactor.Accept(fd, l), View())
      modifies this, pollers.Values
      ensures Valid() && Reactor.Step(Reactor.Accept(fd, l), old(View())) == Some(View()) && Reactor.Inv(View())
      ensures fresh(all.Values - old(all.Values)) && fresh(Held() - old(Held()))
    {
      hide Linked, Polled, Good, PollsAgree, AllInOrder, Reactor.Phased, Reactor.ReportsLive, Reactor.Buffered;
      hide Teardown.NewConnection, Paused, Backlogs;
      ghost var was := View();
      LoopOf(l);
      NewConnection(fd, pollers[l]);
      assert Reactor.Step(Reactor.Accept(fd, l), was) == Some(View());
      Reactor.StepKeeps(Reactor.Accept(fd, l), was);
    }

    // ----- a turn of the loop -----

    /** The events are possible for a descriptor registered with that channel. */
    static predicate Watches(poller: R.Epoll, ch: R.Channel, mask: R.Mask)
      reads poller`kernel
    {
      && ch.fd in poller.kernel && poller.kernel[ch.fd].1 == ch
      && Reactor.MayReport(RevOf(mask), poller.kernel[ch.fd].0)
    }

    /** What epoll_wait can return about loop l. */
    ghost predicate CanReport(l: Loop, events: seq<(R.Channel, R.Mask)>)
      requires l in pollers
      reads this`phases, pollers.Values
    {
      && l in phases && phases[l] == Reactor.Running(0)
      && (forall i :: 0 <= i < |events| ==> Watches(pollers[l], events[i].0, events[i].1))
      && (forall i, j :: 0 <= i < j < |events| ==> events[i].0 != events[j].0)
    }

    static lemma WatchedIsLive(poller: R.Epoll, ch: R.Channel)
      requires poller.Valid() && ch.fd in poller.kernel && poller.kernel[ch.fd].1 == ch
      ensures ch in poller.live && poller.View().chans[ch].fd == ch.fd
    {
      var d := poller.channels[ch.fd];
      assert d in poller.live && R.Mirrors(poller.View(), d);
    }

    lemma LinkedTo(l: Loop, ch: R.Channel)
      requires Linked() && l in pollers && ch in pollers[l].live
      ensures ch.owner in all && all[ch.owner].channel == ch && ch.loop == l
    {
    }

    static lemma NamedAlike(p: R.Poller<R.Channel>, q: R.Poller<ConnId>, ch: R.Channel)
      requires Names(p, q) && ch in p.chans && ch.fd in p.kernel && p.kernel[ch.fd].1 == ch
      ensures ch.owner in q.chans && q.chans[ch.owner] == p.chans[ch]
      ensures ch.fd in q.kernel && q.kernel[ch.fd] == (p.kernel[ch.fd].0, ch.owner)
    {
    }

    lemma WatchedIsReportable(l: Loop, ch: R.Channel, mask: R.Mask)
      requires Valid() && AllInOrder(World()) && l in pollers && Watches(pollers[l], ch, mask)
      ensures Reactor.Reportable(World(), l, Reactor.Report(ch.owner, RevOf(mask)))
      ensures ch.owner in all && all[ch.owner].channel == ch
    {
      hide Linked, Polled, Names, AllInOrder, InOrder, RevOf, Reactor.MayReport, R.Epoll.Valid;
      PolledAt(l);
      WatchedIsLive(pollers[l], ch);
      LinkedTo(l, ch);
      NamedAlike(pollers[l].View(), polls[l], ch);
      Reactor.InOrderOf(World(), ch.owner);
    }

    lemma ReportsAreEnabled(l: Loop, events: seq<(R.Channel, R.Mask)>)
      requires Valid() && AllInOrder(World()) && l in pollers && CanReport(l, events)
      ensures Reactor.Enabled(Reactor.Poll(l, Reports(events)), View())
    {
      hide Valid, AllInOrder, RevOf, Watches, Reactor.Reportable;
      var w, rs := World(), Reports(events);
      forall i | 0 <= i < |events|
        ensures Reactor.Reportable(w, l, rs[i])
        ensures events[i].0.owner in all && all[events[i].0.owner].channel == events[i].0
      {
        WatchedIsReportable(l, events[i].0, events[i].1);
      }
      assert Reactor.Distinct(rs);
      assert View().world == w;
    }

    method SetPhase(l: Loop, phase: Reactor.Phase)
      requires Valid()
      modifies this`phases
      ensures Valid() && View() == Reactor.AtPhase(old(View()), l, phase)
    {
      hide Linked, Polled;
      phases := phases[l := phase];
      ValidStays();
    }

    lemma AreWatched(l: Loop, events: seq<(R.Channel, R.Mask)>)
      requires l in pollers && CanReport(l, events)
      ensures forall i :: 0 <= i < |events| ==> pollers[l].Watched(events[i].0)
    {
      forall i | 0 <= i < |events|
        ensures pollers[l].Watched(events[i].0)
      {
        assert Watches(pollers[l], events[i].0, events[i].1);
      }
    }

    static function Active(channels: seq<R.Channel>): seq<Reactor.Report>
      reads channels
    {
      seq(|channels|, i requires 0 <= i < |channels| reads channels =>
        Reactor.Report(channels[i].owner, RevOf(channels[i].revents)))
    }

    /** EventLoop polls: the kernel's events become the reports of this round. */
    method Poll(l: Loop, events: seq<(R.Channel, R.Mask)>)
      requires Valid() && Reactor.Inv(View()) && l in pollers && CanReport(l, events)
      modifies this`phases, pollers[l].live`revents
      ensures Valid() && forall i :: 0 <= i < |events| ==> events[i].0.revents == events[i].1
      ensures Reactor.Enabled(Reactor.Poll(l, Reports(events)), old(View()))
      ensures Reactor.Step(Reactor.Poll(l, Reports(events)), old(View())) == Some(View()) && Reactor.Inv(View())
    {
      hide Linked, Polled, Good, PollsAgree, AllInOrder, Reactor.Phased, Reactor.ReportsLive, Reactor.Buffered;
      hide Names, R.Inv, RevOf, Reactor.Enabled, Watches;
      ghost var was := View();
      ReportsAreEnabled(l, events);
      AreWatched(l, events);
      PolledAt(l);
      var active := pollers[l].FillActiveChannels(events);
      ValidStays();
      assert View() == was;
      assert Active(active) == Reports(events);
      SetPhase(l, Reactor.Dispatching(Active(active)));
      Reactor.StepKeeps(Reactor.Poll(l, Reports(events)), was);
    }

    /** DoPendingFunctors takes all that is queued by then. */
    method TakePending(l: Loop)
      requires Valid() && Reactor.Inv(View()) && Reactor.Enabled(Reactor.Take(l), View())
      modifies this`phases
      ensures Valid() && Reactor.Step(Reactor.Take(l), old(View())) == Some(View()) && Reactor.Inv(View())
    {
      hide Linked, Polled, Good, PollsAgree, AllInOrder, Reactor.Phased, Reactor.ReportsLive, Reactor.Buffered;
      ghost var was := View();
      SetPhase(l, Reactor.Running(|queues[l]|));
      Reactor.StepKeeps(Reactor.Take(l), was);
    }

    // ----- runs -----

    static lemma NamedWatch(p: R.Poller<R.Channel>, q: R.Poller<ConnId>, ch: R.Channel)
      requires Names(p, q) && R.Inv(p) && ch in p.chans && p.chans[ch].fd == ch.fd
      requires ch.fd in q.kernel && q.kernel[ch.fd].1 == ch.owner
      ensures ch.fd in p.kernel && p.kernel[ch.fd] == (q.kernel[ch.fd].0, ch)
    {
      assert R.Mirrors(p, ch);
    }

    /** The channel object behind a report, and a mask that reports it. */
    lemma ReportableIsWatched(l: Loop, r: Reactor.Report)
      requires Valid() && l in pollers && Reactor.Reportable(World(), l, r)
      ensures r.c in all && Watches(pollers[l], all[r.c].channel, MaskOf(r.revents))
    {
      hide Linked, Polled, Names, R.Inv, Reactor.MayReport, RevOf, MaskOf;
      OwnerOf(r.c);
      LiveChannel(all[r.c], pollers[l]);
      PolledAt(l);
      NamedWatch(pollers[l].View(), polls[l], all[r.c].channel);
      MaskRoundTrip(r.revents);
    }

    /** The channel objects that the reports name, with their masks. */
    static function EventsFor(rs: seq<Reactor.Report>, conns: map<ConnId, Connection>): seq<(R.Channel, R.Mask)>
      requires forall i :: 0 <= i < |rs| ==> rs[i].c in conns
    {
      seq(|rs|, i requires 0 <= i < |rs| => (conns[rs[i].c].channel, MaskOf(rs[i].revents)))
    }

    lemma EventsReport(l: Loop, rs: seq<Reactor.Report>)
      requires Valid() && l in pollers && Reactor.Enabled(Reactor.Poll(l, rs), View())
      ensures forall i :: 0 <= i < |rs| ==> rs[i].c in all
      ensures CanReport(l, EventsFor(rs, all)) && Reports(EventsFor(rs, all)) == rs
    {
      hide Linked, Polled, Reactor.Reportable, Watches, RevOf, MaskOf;
      assert View().world == World();
      forall i | 0 <= i < |rs|
        ensures rs[i].c in all && all[rs[i].c].channel.owner == rs[i].c
        ensures Watches(pollers[l], all[rs[i].c].channel, MaskOf(rs[i].revents))
        ensures RevOf(MaskOf(rs[i].revents)) == rs[i].revents
      {
        assert Reactor.Reportable(World(), l, rs[i]);
        ReportableIsWatched(l, rs[i]);
        OwnerOf(rs[i].c);
        MaskRoundTrip(rs[i].revents);
      }
    }

    static predicate IsUserCall(e: Reactor.Event) {
      e.ForceClose? || e.Shutdown? || Reactor.ChangesInterest(e)
    }

    method UserCall(e: Reactor.Event, conn: Connection, poller: R.Epoll)
      requires IsUserCall(e) && e.c == conn.id
      requires Valid() && Reactor.Enabled(e, View()) && Owns(conn, poller)
      modifies conn, conn.channel, poller`channels, poller`kernel, this`polls, this`queues
      ensures Valid() && Reactor.Step(e, old(View())) == Some(View())
    {
      hide Valid, View, Reactor.Step, Reactor.Enabled, Owns;
      match e {
        case ForceClose(_) => ForceClose(conn, poller);
        case Shutdown(_) => Shutdown(conn, poller);
        case StartRead(_) => StartReadInLoop(conn, poller);
        case StopRead(_) => StopReadInLoop(conn, poller);
        case Send(_, len, taken) => SendInLoop(conn, poller, len, taken);
        case HandleWrite(_, written) => HandleWrite(conn, poller, written);
      }
    }

    static lemma Addressed(e: Reactor.Event, s: Reactor.State)
      requires Reactor.Inv(s) && Reactor.Enabled(e, s)
      ensures if IsUserCall(e) then e.c in s.world.conns else e.loop in s.world.polls
    {
      hide Placed, PollsAgree, AllInOrder, Reactor.ReportsLive, Reactor.Buffered;
    }

    lemma Addresses(e: Reactor.Event)
      requires Valid() && Reactor.Inv(View()) && Reactor.Enabled(e, View())
      ensures if IsUserCall(e) then e.c in all else e.loop in pollers
    {
      hide Linked, Names, R.Inv, Paused, Backlogs, Reactor.Inv, Reactor.Enabled;
      Addressed(e, View());
    }

    lemma LiveIsHeld(l: Loop)
      requires Linked() && l in pollers
      ensures pollers[l].live <= Held()
    {
      forall ch | ch in pollers[l].live
        ensures ch in Held()
      {
        LinkedTo(l, ch);
      }
    }

    /** One event, whatever it is. */
    method Perform(e: Reactor.Event)
      requires Valid() && Reactor.Inv(View()) && Reactor.Enabled(e, View()) && Reactor.Heedful(e, View())
      modifies this, all.Values, pollers.Values, Held()
      ensures Valid() && Reactor.Step(e, old(View())) == Some(View()) && Reactor.Inv(View())
      ensures fresh(all.Values - old(all.Values)) && fresh(Held() - old(Held()))
    {
      hide Linked, Polled, View, Reactor.Inv, Reactor.Step, Reactor.Enabled, Reactor.Heedful;
      ghost var was := View();
      Addresses(e);
      match e {
        case Poll(l, rs) =>
          LiveIsHeld(l);
          EventsReport(l, rs);
          Poll(l, EventsFor(rs, all));
        case Dispatch(l, read) => DispatchNext(l, read);
        case Take(l) => TakePending(l);
        case RunFunctor(l) => RunNextFunctor(l);
        case Accept(fd, l) => Accept(fd, l);
        case _ =>
          OwnerOf(e.c);
          UserCall(e, all[e.c], pollers[all[e.c].channel.loop]);
          Reactor.StepKeeps(e, was);
      }
    }

    /** The server runs a whole schedule: no assert fails on the way, and it ends in the state that the
        schedule leads to. */
    method Serve(es: seq<Reactor.Event>)
      requires Valid() && Reactor.Inv(View()) && Reactor.Possible(es, View()) && Reactor.HeedfulRun(es, View())
      modifies this, all.Values, pollers.Values, Held()
      ensures Valid() && Reactor.Run(es, old(View())) == Some(View()) && Reactor.Inv(View())
    {
      hide Valid, View, Reactor.Inv, Reactor.Step, Reactor.Enabled, Reactor.Heedful;
      for k := 0 to |es|
        invariant Valid() && Reactor.Inv(View())
        invariant Reactor.Possible(es[k..], View()) && Reactor.HeedfulRun(es[k..], View())
        invariant Reactor.Run(es[k..], View()) == Reactor.Run(es, old(View()))
        invariant fresh(all.Values - old(all.Values)) && fresh(Held() - old(Held()))
      {
        assert es[k..][0] == es[k] && es[k..][1..] == es[k + 1..];
        Perform(es[k]);
      }
    }
  }

  /** A poller for each of the loops. */
  method MakePollers(loops: set<Loop>) returns (pollers: map<Loop, R.Epoll>)
    ensures pollers.Keys == loops && forall l :: l in loops ==> fresh(pollers[l]) && pollers[l].loop == l
    ensures forall l :: l in loops ==> pollers[l].live == {} && pollers[l].View() == R.Poller(map[], map[], map[])
  {
    pollers := map[];
    var rest := loops;
    while rest != {}
      invariant rest <= loops && pollers.Keys == loops - rest
      invariant forall l :: l in pollers ==> fresh(pollers[l]) && pollers[l].loop == l
      invariant forall l :: l in pollers ==> pollers[l].live == {} && pollers[l].View() == R.Poller(map[], map[], map[])
    {
      var l :| l in rest;
      var poller := new R.Epoll(l);
      pollers, rest := pollers[l := poller], rest - {l};
    }
  }

  /** Every heedful schedule, from the moment the server is made. Events that are not possible when their
      turn comes do not happen. */
  method RunServer(loops: set<Loop>, es: seq<Reactor.Event>) returns (server: Server)
    requires 0 in loops && Reactor.HeedfulRun(es, Reactor.Begin(loops))
    ensures fresh(server) && server.Valid() && Reactor.Inv(server.View())
    ensures Reactor.Run(es, Reactor.Begin(loops)) == Some(server.View())
  {
    hide Server.Valid, Reactor.Inv, Reactor.Begin, Reactor.Run, Reactor.HeedfulRun, Reactor.Possible, Reactor.Thinned;
    var pollers := MakePollers(loops);
    server := new Server(pollers);
    server.FreshIsValid();
    Reactor.BeginIsFine(loops);
    Reactor.ThinnedRuns(es, Reactor.Begin(loops));
    server.Serve(Reactor.Thinned(es, Reactor.Begin(loops)));
  }
}
