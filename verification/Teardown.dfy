/** The life of a connection across event loops: src/network/TcpServer.cc together with the parts of
    src/network/TcpConnection.cc and src/network/Channel.cc that open and close a connection.

    Loop 0 accepts; every connection belongs to one loop, which may be loop 0 itself. This module has the
    methods, each run on its loop's thread or only posting a functor, and what they keep true of the
    world; module Reactor has the loops that call them. A failed assert of the source makes the world
    `None`. Registration with each loop's poller is that of module Registration. */
module Teardown {
  import opened Common
  import R = Registration

  type Loop = nat
  type ConnId = nat  // the connection's name, made from nextConnId_

  datatype Functor =
    | Establish(c: ConnId)
    | RemoveInLoop(c: ConnId)
    | Destroy(c: ConnId)
    | ForceCloseInLoop(c: ConnId)

  /** `up`, `down`, `erased`, `destroyed` count what has happened to the connection so far: connection
      callbacks of either kind, removals from the server's map, and runs of ConnectDestroyed. */
  datatype Conn = Conn(loop: Loop, fd: int, life: Life, up: nat, down: nat, erased: nat, destroyed: nat)

  datatype World = World(
    conns: map<ConnId, Conn>,
    server: set<ConnId>,              // keys of connections_
    nextId: nat,
    queues: map<Loop, seq<Functor>>,
    polls: map<Loop, R.Poller<ConnId>>)

  function Start(loops: set<Loop>): World {
    World(map[], {}, 0, map l | l in loops :: [], map l | l in loops :: R.Poller(map[], map[], map[]))
  }

  // ----- the methods -----

  predicate Open(k: Conn) {
    k.life.Connected? || k.life.Disconnecting?
  }

  function Queue(w: World, l: Loop, f: Functor): World
    requires l in w.queues
  {
    w.(queues := w.queues[l := w.queues[l] + [f]])
  }

  function Popped(w: World, l: Loop): World
    requires l in w.queues && w.queues[l] != []
  {
    w.(queues := w.queues[l := w.queues[l][1..]])
  }

  function WithConn(w: World, c: ConnId, k: Conn): World {
    w.(conns := w.conns[c := k])
  }

  function Channel(w: World, l: Loop, op: R.Op<ConnId>): World
    requires l in w.polls && R.Legal(op, w.polls[l])
  {
    w.(polls := w.polls[l := R.Apply(op, w.polls[l])])
  }

  /** A connection whose loop is running and whose channel object exists. */
  predicate Known(w: World, c: ConnId) {
    && c in w.conns
    && w.conns[c].loop in w.queues && 0 in w.queues
    && w.conns[c].loop in w.polls
  }

  predicate HasChannel(w: World, c: ConnId) {
    Known(w, c) && c in w.polls[w.conns[c].loop].chans
  }

  function ConnectEstablished(w: World, c: ConnId): Option<World>
    requires Known(w, c)
  {
    var k := w.conns[c];
    if !k.life.Connecting? || !HasChannel(w, c) then None
    else
      Some(Channel(WithConn(w, c, k.(life := Connected, up := k.up + 1)), k.loop, R.EnableReading(c)))
  }

  function RemoveConnectionInLoop(w: World, c: ConnId): Option<World>
    requires Known(w, c)
  {
    var k := w.conns[c];
    if c !in w.server then None
    else
      Some(Queue(WithConn(w, c, k.(erased := k.erased + 1)).(server := w.server - {c}), k.loop, Destroy(c)))
  }

  /** The first half of HandleClose: the state, the channel and the user's callback. */
  function Downed(w: World, c: ConnId): World
    requires HasChannel(w, c)
  {
    var k := w.conns[c];
    Channel(WithConn(w, c, k.(life := Disconnected, down := k.down + 1)), k.loop, R.DisableAll(c))
  }

  /** The close callback goes to RemoveConnection, which runs at once on the accepting loop. */
  function HandleClose(w: World, c: ConnId): Option<World>
    requires Known(w, c)
  {
    var k := w.conns[c];
    if !Open(k) || !HasChannel(w, c) then None
    else if k.loop == 0 then RemoveConnectionInLoop(Downed(w, c), c)
    else Some(Queue(Downed(w, c), 0, RemoveInLoop(c)))
  }

  /** The channel is removed and, with the last reference to the connection, destroyed. */
  function ConnectDestroyed(w: World, c: ConnId): Option<World>
    requires Known(w, c)
  {
    var k := w.conns[c];
    if !HasChannel(w, c) then None
    else
      var v := if k.life.Connected? then Downed(w, c) else w;
      var p := v.polls[k.loop];
      if !(c in p.chans && R.Legal(R.Remove(c), p)) then None
      else
        Some(WithConn(v, c, v.conns[c].(destroyed := k.destroyed + 1))
             .(polls := v.polls[k.loop := R.Apply(R.Destroy(c), R.Apply(R.Remove(c), p))]))
  }

  function Execute(w: World, f: Functor): Option<World>
    requires Known(w, f.c)
  {
    match f
    case Establish(c) => ConnectEstablished(w, c)
    case RemoveInLoop(c) => RemoveConnectionInLoop(w, c)
    case Destroy(c) => ConnectDestroyed(w, c)
    case ForceCloseInLoop(c) => if Open(w.conns[c]) then HandleClose(w, c) else Some(w)
  }

  /** The first half of NewConnection: the new connection, its channel, and its place in the map. */
  function Created(w: World, fd: int, l: Loop): World
    requires l in w.polls && R.Legal(R.Open(w.nextId, fd), w.polls[l])
  {
    var c := w.nextId;
    Channel(WithConn(w, c, Conn(l, fd, Connecting, 0, 0, 0, 0)), l, R.Open(c, fd))
    .(server := w.server + {c}, nextId := c + 1)
  }

  function NewConnection(w: World, fd: int, l: Loop): Option<World>
    requires l in w.queues && 0 in w.queues && l in w.polls && R.Legal(R.Open(w.nextId, fd), w.polls[l])
  {
    if l == 0 then ConnectEstablished(Created(w, fd, l), w.nextId)
    else Some(Queue(Created(w, fd, l), l, Establish(w.nextId)))
  }

  predicate CanAccept(w: World, fd: int, l: Loop) {
    // the kernel hands out a descriptor that no live connection has
    && l in w.queues && 0 in w.queues && l in w.polls
    && w.nextId !in w.polls[l].chans
    && forall m, d :: m in w.polls && d in w.polls[m].chans ==> w.polls[m].chans[d].fd != fd
  }

  /** The functor that has waited longest. */
  predicate HasHead(w: World, l: Loop) {
    l in w.queues && w.queues[l] != [] && Known(w, w.queues[l][0].c)
  }

  function RunHead(w: World, l: Loop): Option<World>
    requires HasHead(w, l)
  {
    Execute(Popped(w, l), w.queues[l][0])
  }

  function ForceClose(w: World, c: ConnId): World
    requires Known(w, c)
  {
    var k := w.conns[c];
    if Open(k) then Queue(WithConn(w, c, k.(life := Disconnecting)), k.loop, ForceCloseInLoop(c)) else w
  }

  function Shutdown(w: World, c: ConnId): World
    requires Known(w, c)
  {
    var k := w.conns[c];
    if k.life.Connected? then WithConn(w, c, k.(life := Disconnecting)) else w
  }

  /** Turning read or write interest on or off. */
  predicate IsInterest(op: R.Op<ConnId>) {
    op.EnableReading? || op.DisableReading? || op.EnableWriting? || op.DisableWriting?
  }

  function Interest(w: World, op: R.Op<ConnId>): World
    requires IsInterest(op) && HasChannel(w, op.c)
  {
    Channel(w, w.conns[op.c].loop, op)
  }

  // ----- the invariant -----

  function Count(w: World, l: Loop, f: Functor): nat
    requires l in w.queues
  {
    multiset(w.queues[l])[f]
  }

  /** The life-cycle functors waiting for a connection: to establish, to remove, to destroy. */
  function Tokens(w: World, c: ConnId): (nat, nat, nat)
    requires Known(w, c)
  {
    (Count(w, w.conns[c].loop, Establish(c)), Count(w, 0, RemoveInLoop(c)), Count(w, w.conns[c].loop, Destroy(c)))
  }

  predicate Registered(w: World, c: ConnId)
    requires Known(w, c)
  {
    HasChannel(w, c) && w.polls[w.conns[c].loop].chans[c].fd == w.conns[c].fd
  }

  /** Registered still, but silent: nothing watched, not in the kernel's set. */
  predicate Silent(w: World, c: ConnId)
    requires Known(w, c)
  {
    HasChannel(w, c) && w.polls[w.conns[c].loop].chans[c] == R.Chan(w.conns[c].fd, R.NONE_EVENT, R.Deleted)
  }

  predicate Gone(w: World, c: ConnId)
    requires Known(w, c)
  {
    && w.conns[c].erased == 1 && w.conns[c].destroyed == 1
    && c !in w.server && Tokens(w, c) == (0, 0, 0)
    && c !in w.polls[w.conns[c].loop].chans
  }

  /** Where a connection is in its life; exactly one life-cycle functor carries it from place to place. */
  predicate InOrder(w: World, c: ConnId)
    requires Known(w, c)
  {
    var k := w.conns[c];
    match k.life
    case Connecting =>
      && c in w.server && Tokens(w, c) == (1, 0, 0)
      && k.up == 0 && k.down == 0 && k.erased == 0 && k.destroyed == 0
      && HasChannel(w, c) && w.polls[k.loop].chans[c] == R.Chan(k.fd, R.NONE_EVENT, R.New)
    case Disconnected =>
      && k.up == 1 && k.down == 1
      && (|| (k.erased == 0 && k.destroyed == 0 && c in w.server && Tokens(w, c) == (0, 1, 0) && Silent(w, c))
          || (k.erased == 1 && k.destroyed == 0 && c !in w.server && Tokens(w, c) == (0, 0, 1) && Silent(w, c))
          || Gone(w, c))
    case _ =>
      && c in w.server && Tokens(w, c) == (0, 0, 0)
      && k.up == 1 && k.down == 0 && k.erased == 0 && k.destroyed == 0
      && Registered(w, c) && !w.polls[k.loop].chans[c].index.New?
  }

  /** A functor waits on the loop that is to run it; a close is only ever forced on a connection that was up. */
  predicate Placed(w: World, l: Loop, f: Functor) {
    && f.c in w.conns && l == (if f.RemoveInLoop? then 0 else w.conns[f.c].loop)
    && (f.ForceCloseInLoop? ==> 0 < w.conns[f.c].up)
  }

  /** The parts of the invariant that do not look at one connection's life. */
  ghost predicate Good(w: World) {
    && 0 in w.queues && w.queues.Keys == w.polls.Keys
    && (forall c :: c in w.conns <==> 0 <= c < w.nextId)
    && w.server <= w.conns.Keys
    && (forall c :: c in w.conns ==> w.conns[c].loop in w.queues)
    && (forall l, c :: l in w.polls && c in w.polls[l].chans ==> c in w.conns && w.conns[c].loop == l)
    && (forall l, i :: l in w.queues && 0 <= i < |w.queues[l]| ==> Placed(w, l, w.queues[l][i]))
  }

  /** Every poller agrees with the kernel. */
  ghost predicate PollsAgree(polls: map<Loop, R.Poller<ConnId>>) {
    forall l :: l in polls ==> R.Inv(polls[l])
  }

  ghost predicate AllInOrder(w: World) {
    forall c :: c in w.conns ==> Known(w, c) && InOrder(w, c)
  }

  ghost predicate Inv(w: World) {
    Good(w) && PollsAgree(w.polls) && AllInOrder(w)
  }

  lemma StartIsFine(loops: set<Loop>)
    requires 0 in loops
    ensures Inv(Start(loops))
  {
  }

  // ----- the global part -----

  lemma PlacedGood(w: World, v: World)
    requires Good(w)
    requires v.nextId == w.nextId && v.conns.Keys == w.conns.Keys && v.server <= w.conns.Keys
    requires v.queues.Keys == w.queues.Keys && v.polls.Keys == w.polls.Keys
    requires forall c :: c in w.conns ==> v.conns[c].loop == w.conns[c].loop && w.conns[c].up <= v.conns[c].up
    requires forall l :: l in w.polls ==> v.polls[l].chans.Keys <= w.polls[l].chans.Keys
    requires forall l, i :: l in v.queues && 0 <= i < |v.queues[l]| ==>
      v.queues[l][i] in w.queues[l] || Placed(w, l, v.queues[l][i])
    ensures Good(v)
  {
    forall l, i | l in v.queues && 0 <= i < |v.queues[l]|
      ensures Placed(v, l, v.queues[l][i])
    {
      var f := v.queues[l][i];
      if f in w.queues[l] {
        var j :| 0 <= j < |w.queues[l]| && w.queues[l][j] == f;
        assert Placed(w, l, w.queues[l][j]);
      }
    }
  }

  lemma ApplyKeys(p: R.Poller<ConnId>, op: R.Op<ConnId>)
    requires R.Legal(op, p) && !op.Open?
    ensures R.Apply(op, p).chans.Keys <= p.chans.Keys
    ensures forall d :: d != op.c ==>
      (d in R.Apply(op, p).chans <==> d in p.chans) && (d in p.chans ==> R.Apply(op, p).chans[d] == p.chans[d])
    ensures op.DisableAll? && p.chans[op.c].index.Added? ==>
      R.Apply(op, p).chans[op.c] == R.Chan(p.chans[op.c].fd, R.NONE_EVENT, R.Deleted)
    ensures !op.Remove? && !op.Destroy? ==>
      && op.c in R.Apply(op, p).chans && R.Apply(op, p).chans[op.c].fd == p.chans[op.c].fd
      && !R.Apply(op, p).chans[op.c].index.New?
  {
  }

  lemma PopGood(w: World, l: Loop)
    requires Good(w) && l in w.queues && w.queues[l] != []
    ensures Good(Popped(w, l))
  {
    PlacedGood(w, Popped(w, l));
  }

  lemma EstablishGood(w: World, c: ConnId)
    requires Good(w) && HasChannel(w, c) && w.conns[c].life.Connecting?
    ensures Good(ConnectEstablished(w, c).value)
  {
    ApplyKeys(w.polls[w.conns[c].loop], R.EnableReading(c));
    PlacedGood(w, ConnectEstablished(w, c).value);
  }

  lemma RemoveGood(w: World, c: ConnId)
    requires Good(w) && Known(w, c) && c in w.server
    ensures Good(RemoveConnectionInLoop(w, c).value)
  {
    PlacedGood(w, RemoveConnectionInLoop(w, c).value);
  }

  lemma DownGood(w: World, c: ConnId)
    requires Good(w) && HasChannel(w, c)
    ensures Good(Downed(w, c))
  {
    ApplyKeys(w.polls[w.conns[c].loop], R.DisableAll(c));
    PlacedGood(w, Downed(w, c));
  }

  lemma QueueGood(w: World, l: Loop, f: Functor)
    requires Good(w) && l in w.queues && Placed(w, l, f)
    ensures Good(Queue(w, l, f))
  {
    PlacedGood(w, Queue(w, l, f));
  }

  lemma CloseGood(w: World, c: ConnId)
    requires Good(w) && HasChannel(w, c) && Open(w.conns[c]) && c in w.server
    ensures Good(HandleClose(w, c).value)
  {
    DownGood(w, c);
    if w.conns[c].loop == 0 {
      RemoveGood(Downed(w, c), c);
    } else {
      QueueGood(Downed(w, c), 0, RemoveInLoop(c));
    }
  }

  lemma DestroyGood(w: World, c: ConnId)
    requires Good(w) && HasChannel(w, c) && !w.conns[c].life.Connected?
    requires R.Legal(R.Remove(c), w.polls[w.conns[c].loop])
    ensures Good(ConnectDestroyed(w, c).value)
  {
    var p := w.polls[w.conns[c].loop];
    ApplyKeys(p, R.Remove(c));
    ApplyKeys(R.Apply(R.Remove(c), p), R.Destroy(c));
    PlacedGood(w, ConnectDestroyed(w, c).value);
  }

  // ----- the pollers -----

  lemma ChannelAgrees(w: World, l: Loop, op: R.Op<ConnId>)
    requires PollsAgree(w.polls) && l in w.polls && R.Legal(op, w.polls[l])
    ensures PollsAgree(w.polls[l := R.Apply(op, w.polls[l])])
  {
    R.ApplyKeeps(op, w.polls[l]);
  }

  lemma DestroyAgrees(w: World, c: ConnId)
    requires PollsAgree(w.polls) && HasChannel(w, c) && !w.conns[c].life.Connected?
    requires R.Legal(R.Remove(c), w.polls[w.conns[c].loop])
    ensures PollsAgree(ConnectDestroyed(w, c).value.polls)
  {
    var p := w.polls[w.conns[c].loop];
    R.ApplyKeeps(R.Remove(c), p);
    R.ApplyKeeps(R.Destroy(c), R.Apply(R.Remove(c), p));
  }

  // ----- the connection itself -----

  lemma EstablishOrder(w: World, c: ConnId)
    requires HasChannel(w, c) && c in w.server && Tokens(w, c) == (0, 0, 0)
    requires w.conns[c] == Conn(w.conns[c].loop, w.conns[c].fd, Connecting, 0, 0, 0, 0)
    requires w.polls[w.conns[c].loop].chans[c] == R.Chan(w.conns[c].fd, R.NONE_EVENT, R.New)
    ensures var r := ConnectEstablished(w, c); r.Some? && Known(r.value, c) && InOrder(r.value, c)
  {
  }

  lemma RemoveOrder(w: World, c: ConnId)
    requires Known(w, c) && c in w.server && Tokens(w, c) == (0, 0, 0) && Silent(w, c)
    requires w.conns[c] == Conn(w.conns[c].loop, w.conns[c].fd, Disconnected, 1, 1, 0, 0)
    ensures var r := RemoveConnectionInLoop(w, c); r.Some? && Known(r.value, c) && InOrder(r.value, c)
  {
  }

  lemma DownSilences(w: World, c: ConnId)
    requires HasChannel(w, c) && InOrder(w, c) && Open(w.conns[c])
    requires w.polls[w.conns[c].loop].chans[c].index.Added?
    ensures var v := Downed(w, c);
      && Known(v, c) && c in v.server && Tokens(v, c) == (0, 0, 0) && Silent(v, c)
      && v.conns[c] == Conn(w.conns[c].loop, w.conns[c].fd, Disconnected, 1, 1, 0, 0)
  {
    ApplyKeys(w.polls[w.conns[c].loop], R.DisableAll(c));
  }

  lemma CloseOrder(w: World, c: ConnId)
    requires HasChannel(w, c) && InOrder(w, c) && Open(w.conns[c])
    requires w.polls[w.conns[c].loop].chans[c].index.Added?
    ensures var r := HandleClose(w, c); r.Some? && Known(r.value, c) && InOrder(r.value, c)
  {
    DownSilences(w, c);
    if w.conns[c].loop == 0 {
      RemoveOrder(Downed(w, c), c);
    }
  }

  lemma DestroyOrder(w: World, c: ConnId)
    requires Known(w, c) && c !in w.server && Tokens(w, c) == (0, 0, 0) && Silent(w, c)
    requires w.conns[c] == Conn(w.conns[c].loop, w.conns[c].fd, Disconnected, 1, 1, 1, 0)
    ensures var r := ConnectDestroyed(w, c); r.Some? && Known(r.value, c) && InOrder(r.value, c)
  {
  }

  // ----- the other connections -----

  /** Everything about connection d is the same in both worlds. */
  ghost predicate Same(w: World, v: World, d: ConnId) {
    && Known(w, d) && Known(v, d)
    && v.conns[d] == w.conns[d]
    && (d in v.server <==> d in w.server)
    && Tokens(v, d) == Tokens(w, d)
    && (HasChannel(v, d) <==> HasChannel(w, d))
    && (HasChannel(w, d) ==> v.polls[w.conns[d].loop].chans[d] == w.polls[w.conns[d].loop].chans[d])
  }

  lemma SameInOrder(w: World, v: World, d: ConnId)
    requires Same(w, v, d) && InOrder(w, d)
    ensures InOrder(v, d)
  {
  }

  lemma SameThrough(u: World, w: World, v: World, d: ConnId)
    requires Same(u, w, d) && Same(w, v, d)
    ensures Same(u, v, d)
  {
  }

  lemma PopCount(q: seq<Functor>, g: Functor)
    requires q != []
    ensures multiset(q[1..])[g] == multiset(q)[g] - if g == q[0] then 1 else 0
  {
    assert q == [q[0]] + q[1..];
  }

  lemma PopSame(w: World, l: Loop, d: ConnId)
    requires Known(w, d) && l in w.queues && w.queues[l] != [] && w.queues[l][0].c != d
    ensures Same(w, Popped(w, l), d)
  {
    PopCount(w.queues[l], Establish(d));
    PopCount(w.queues[l], RemoveInLoop(d));
    PopCount(w.queues[l], Destroy(d));
  }

  lemma EstablishSame(w: World, c: ConnId, d: ConnId)
    requires HasChannel(w, c) && Known(w, d) && c != d && w.conns[c].life.Connecting?
    ensures Same(w, ConnectEstablished(w, c).value, d)
  {
    ApplyKeys(w.polls[w.conns[c].loop], R.EnableReading(c));
  }

  lemma RemoveSame(w: World, c: ConnId, d: ConnId)
    requires Known(w, c) && Known(w, d) && c != d && c in w.server
    ensures Same(w, RemoveConnectionInLoop(w, c).value, d)
  {
  }

  lemma DownSame(w: World, c: ConnId, d: ConnId)
    requires HasChannel(w, c) && Known(w, d) && c != d
    ensures Same(w, Downed(w, c), d)
  {
    ApplyKeys(w.polls[w.conns[c].loop], R.DisableAll(c));
  }

  lemma CloseSame(w: World, c: ConnId, d: ConnId)
    requires HasChannel(w, c) && Known(w, d) && c != d && Open(w.conns[c]) && c in w.server
    ensures Same(w, HandleClose(w, c).value, d)
  {
    DownSame(w, c, d);
    if w.conns[c].loop == 0 {
      RemoveSame(Downed(w, c), c, d);
    }
  }

  lemma DestroySame(w: World, c: ConnId, d: ConnId)
    requires HasChannel(w, c) && Known(w, d) && c != d && !w.conns[c].life.Connected?
    requires R.Legal(R.Remove(c), w.polls[w.conns[c].loop])
    ensures Same(w, ConnectDestroyed(w, c).value, d)
  {
    var p := w.polls[w.conns[c].loop];
    ApplyKeys(p, R.Remove(c));
    ApplyKeys(R.Apply(R.Remove(c), p), R.Destroy(c));
  }

  // ----- the steps -----

  lemma Assemble(w: World, v: World, c: ConnId)
    requires AllInOrder(w) && v.conns.Keys == w.conns.Keys
    requires forall d :: d in w.conns && d != c ==> Same(w, v, d)
    requires Known(v, c) && InOrder(v, c)
    ensures AllInOrder(v)
  {
    forall d | d in v.conns && d != c
      ensures Known(v, d) && InOrder(v, d)
    {
      SameInOrder(w, v, d);
    }
  }

  /** The functor at the head of a queue, and what its connection looks like once it is popped. */
  lemma HeadToken(w: World, l: Loop)
    requires l in w.queues && w.queues[l] != [] && Placed(w, l, w.queues[l][0])
    requires Known(w, w.queues[l][0].c) && InOrder(w, w.queues[l][0].c)
    ensures var f, v := w.queues[l][0], Popped(w, l);
      var k := w.conns[f.c];
      && Known(v, f.c) && v.conns == w.conns && v.polls == w.polls && v.server == w.server
      && (f.Establish? ==> Tokens(v, f.c) == (0, 0, 0) && k.life.Connecting?)
      && (f.RemoveInLoop? ==> Tokens(v, f.c) == (0, 0, 0) && k.life.Disconnected? && k.erased == 0)
      && (f.Destroy? ==> Tokens(v, f.c) == (0, 0, 0) && k.life.Disconnected? && k.erased == 1 && k.destroyed == 0)
      && (f.ForceCloseInLoop? ==> Tokens(v, f.c) == Tokens(w, f.c))
  {
    var q, c := w.queues[l], w.queues[l][0].c;
    PopCount(q, Establish(c));
    PopCount(q, RemoveInLoop(c));
    PopCount(q, Destroy(c));
    assert q[0] in q && multiset(q)[q[0]] >= 1;
  }

  lemma EstablishOrders(w: World, l: Loop)
    requires AllInOrder(w) && HasHead(w, l) && w.queues[l][0].Establish? && Placed(w, l, w.queues[l][0])
    ensures var r := RunHead(w, l); r.Some? && AllInOrder(r.value)
  {
    var c, u := w.queues[l][0].c, Popped(w, l);
    HeadToken(w, l);
    EstablishOrder(u, c);
    var v := ConnectEstablished(u, c).value;
    forall d | d in w.conns && d != c
      ensures Same(w, v, d)
    {
      PopSame(w, l, d);
      EstablishSame(u, c, d);
      SameThrough(w, u, v, d);
    }
    Assemble(w, v, c);
  }

  lemma EstablishFunctor(w: World, l: Loop)
    requires Inv(w) && HasHead(w, l) && w.queues[l][0].Establish?
    ensures var r := RunHead(w, l); r.Some? && Inv(r.value)
  {
    var c, u := w.queues[l][0].c, Popped(w, l);
    assert Placed(w, l, w.queues[l][0]);
    EstablishOrders(w, l);
    HeadToken(w, l);
    PopGood(w, l);
    EstablishGood(u, c);
    ChannelAgrees(u, u.conns[c].loop, R.EnableReading(c));
  }

  lemma RemoveOrders(w: World, l: Loop)
    requires AllInOrder(w) && HasHead(w, l) && w.queues[l][0].RemoveInLoop? && Placed(w, l, w.queues[l][0])
    ensures var r := RunHead(w, l); r.Some? && AllInOrder(r.value)
  {
    var c, u := w.queues[l][0].c, Popped(w, l);
    HeadToken(w, l);
    RemoveOrder(u, c);
    var v := RemoveConnectionInLoop(u, c).value;
    forall d | d in w.conns && d != c
      ensures Same(w, v, d)
    {
      PopSame(w, l, d);
      RemoveSame(u, c, d);
      SameThrough(w, u, v, d);
    }
    Assemble(w, v, c);
  }

  lemma RemoveFunctor(w: World, l: Loop)
    requires Inv(w) && HasHead(w, l) && w.queues[l][0].RemoveInLoop?
    ensures var r := RunHead(w, l); r.Some? && Inv(r.value)
  {
    var c, u := w.queues[l][0].c, Popped(w, l);
    assert Placed(w, l, w.queues[l][0]);
    RemoveOrders(w, l);
    HeadToken(w, l);
    PopGood(w, l);
    RemoveGood(u, c);
  }

  lemma DestroyOrders(w: World, l: Loop)
    requires AllInOrder(w) && HasHead(w, l) && w.queues[l][0].Destroy? && Placed(w, l, w.queues[l][0])
    ensures var r := RunHead(w, l); r.Some? && AllInOrder(r.value)
  {
    var c, u := w.queues[l][0].c, Popped(w, l);
    HeadToken(w, l);
    DestroyOrder(u, c);
    var v := ConnectDestroyed(u, c).value;
    forall d | d in w.conns && d != c
      ensures Same(w, v, d)
    {
      PopSame(w, l, d);
      DestroySame(u, c, d);
      SameThrough(w, u, v, d);
    }
    Assemble(w, v, c);
  }

  lemma DestroyFunctor(w: World, l: Loop)
    requires Inv(w) && HasHead(w, l) && w.queues[l][0].Destroy?
    ensures var r := RunHead(w, l); r.Some? && Inv(r.value)
  {
    var c, u := w.queues[l][0].c, Popped(w, l);
    assert Placed(w, l, w.queues[l][0]);
    DestroyOrders(w, l);
    HeadToken(w, l);
    PopGood(w, l);
    DestroyGood(u, c);
    DestroyAgrees(u, c);
  }

  lemma CloseOrders(w: World, c: ConnId)
    requires AllInOrder(w) && c in w.conns && HasChannel(w, c) && Open(w.conns[c])
    requires w.polls[w.conns[c].loop].chans[c].index.Added?
    ensures var r := HandleClose(w, c); r.Some? && AllInOrder(r.value)
  {
    CloseOrder(w, c);
    var v := HandleClose(w, c).value;
    forall d | d in w.conns && d != c
      ensures Same(w, v, d)
    {
      CloseSame(w, c, d);
    }
    Assemble(w, v, c);
  }

  /** HandleClose keeps the invariant for a connection whose descriptor is with the kernel. */
  lemma CloseKeeps(w: World, c: ConnId)
    requires Inv(w) && HasChannel(w, c) && Open(w.conns[c])
    requires w.polls[w.conns[c].loop].chans[c].index.Added?
    ensures var r := HandleClose(w, c); r.Some? && Inv(r.value)
  {
    CloseOrders(w, c);
    CloseGood(w, c);
    ChannelAgrees(w, w.conns[c].loop, R.DisableAll(c));
  }

  lemma PopForceCloseOrders(w: World, l: Loop)
    requires AllInOrder(w) && HasHead(w, l) && w.queues[l][0].ForceCloseInLoop? && Placed(w, l, w.queues[l][0])
    ensures AllInOrder(Popped(w, l))
  {
    var c, u := w.queues[l][0].c, Popped(w, l);
    HeadToken(w, l);
    forall d | d in w.conns && d != c
      ensures Same(w, u, d)
    {
      PopSame(w, l, d);
    }
    assert Same(w, u, c);
    SameInOrder(w, u, c);
    Assemble(w, u, c);
  }

  /** A force-close functor leaves the tokens of every connection alone when it is popped. */
  lemma PopForceClose(w: World, l: Loop)
    requires Inv(w) && HasHead(w, l) && w.queues[l][0].ForceCloseInLoop?
    ensures Inv(Popped(w, l))
  {
    hide PollsAgree, AllInOrder;
    assert Placed(w, l, w.queues[l][0]);
    PopGood(w, l);
    PopForceCloseOrders(w, l);
  }

  lemma OpenHasChannel(w: World, c: ConnId)
    requires AllInOrder(w) && c in w.conns && Open(w.conns[c])
    ensures HasChannel(w, c)
  {
    assert InOrder(w, c);
  }

  lemma PoppedCloseKeeps(w: World, c: ConnId) returns (v: World)
    requires Inv(w) && Known(w, c)
    requires Open(w.conns[c]) && HasChannel(w, c) ==> w.polls[w.conns[c].loop].chans[c].index.Added?
    ensures Execute(w, ForceCloseInLoop(c)) == Some(v) && Inv(v)
  {
    hide Good, PollsAgree, AllInOrder;
    if Open(w.conns[c]) {
      OpenHasChannel(w, c);
      CloseKeeps(w, c);
      v := HandleClose(w, c).value;
    } else {
      v := w;
    }
  }

  lemma ForceCloseFunctor(w: World, l: Loop)
    requires Inv(w) && HasHead(w, l) && w.queues[l][0].ForceCloseInLoop?
    requires var c := w.queues[l][0].c;
      Open(w.conns[c]) && HasChannel(w, c) ==> w.polls[w.conns[c].loop].chans[c].index.Added?
    ensures var r := RunHead(w, l); r.Some? && Inv(r.value)
  {
    PopForceClose(w, l);
    var v := PoppedCloseKeeps(Popped(w, l), w.queues[l][0].c);
  }

  /** An event is only ever reported for a connection that is up. */
  lemma ReportedIsOpen(w: World, c: ConnId)
    requires PollsAgree(w.polls) && HasChannel(w, c) && InOrder(w, c)
    requires var p := w.polls[w.conns[c].loop]; p.chans[c].fd in p.kernel
    ensures Open(w.conns[c]) && w.polls[w.conns[c].loop].chans[c].index.Added?
  {
    assert R.Mirrors(w.polls[w.conns[c].loop], c);
  }

  lemma LeavingGood(w: World, c: ConnId)
    requires Good(w) && Known(w, c) && 0 < w.conns[c].up
    ensures var u := WithConn(w, c, w.conns[c].(life := Disconnecting));
      Good(u) && Good(Queue(u, w.conns[c].loop, ForceCloseInLoop(c)))
  {
    var u := WithConn(w, c, w.conns[c].(life := Disconnecting));
    PlacedGood(w, u);
    QueueGood(u, w.conns[c].loop, ForceCloseInLoop(c));
  }

  lemma QueueSame(w: World, l: Loop, f: Functor, d: ConnId)
    requires Known(w, d) && l in w.queues && (f.c != d || f.ForceCloseInLoop?)
    ensures Same(w, Queue(w, l, f), d)
  {
  }

  lemma LeavingOrders(w: World, c: ConnId)
    requires AllInOrder(w) && Known(w, c) && Open(w.conns[c])
    ensures AllInOrder(WithConn(w, c, w.conns[c].(life := Disconnecting)))
  {
    assert InOrder(w, c);
    Assemble(w, WithConn(w, c, w.conns[c].(life := Disconnecting)), c);
  }

  lemma ForceCloseOrders(w: World, l: Loop, c: ConnId)
    requires AllInOrder(w) && l in w.queues && Known(w, c)
    ensures AllInOrder(Queue(w, l, ForceCloseInLoop(c)))
  {
    var v := Queue(w, l, ForceCloseInLoop(c));
    forall d | d in w.conns
      ensures Same(w, v, d)
    {
      QueueSame(w, l, ForceCloseInLoop(c), d);
    }
    SameInOrder(w, v, c);
    Assemble(w, v, c);
  }

  lemma LeavingKeeps(w: World, c: ConnId)
    requires Inv(w) && Known(w, c)
    ensures Inv(ForceClose(w, c)) && Inv(Shutdown(w, c))
  {
    if Open(w.conns[c]) {
      assert InOrder(w, c);
      LeavingGood(w, c);
      LeavingOrders(w, c);
      ForceCloseOrders(WithConn(w, c, w.conns[c].(life := Disconnecting)), w.conns[c].loop, c);
    }
  }

  lemma InterestSame(w: World, op: R.Op<ConnId>, d: ConnId)
    requires IsInterest(op) && HasChannel(w, op.c) && Known(w, d) && d != op.c
    ensures Same(w, Interest(w, op), d)
  {
    ApplyKeys(w.polls[w.conns[op.c].loop], op);
  }

  lemma InterestOrders(w: World, op: R.Op<ConnId>)
    requires AllInOrder(w) && IsInterest(op) && HasChannel(w, op.c) && Open(w.conns[op.c])
    ensures AllInOrder(Interest(w, op))
  {
    var v := Interest(w, op);
    ApplyKeys(w.polls[w.conns[op.c].loop], op);
    assert InOrder(w, op.c);
    forall d | d in w.conns && d != op.c
      ensures Same(w, v, d)
    {
      InterestSame(w, op, d);
    }
    Assemble(w, v, op.c);
  }

  lemma InterestGood(w: World, op: R.Op<ConnId>)
    requires Good(w) && IsInterest(op) && HasChannel(w, op.c)
    ensures Good(Interest(w, op))
  {
    ApplyKeys(w.polls[w.conns[op.c].loop], op);
    PlacedGood(w, Interest(w, op));
  }

  lemma InterestKeeps(w: World, op: R.Op<ConnId>)
    requires Inv(w) && IsInterest(op) && HasChannel(w, op.c) && Open(w.conns[op.c])
    ensures Inv(Interest(w, op))
  {
    InterestGood(w, op);
    ChannelAgrees(w, w.conns[op.c].loop, op);
    InterestOrders(w, op);
  }

  lemma CreatedPlaced(w: World, fd: int, l: Loop)
    requires Good(w) && CanAccept(w, fd, l)
    ensures var v := Created(w, fd, l);
      forall m, i :: m in v.queues && 0 <= i < |v.queues[m]| ==> Placed(v, m, v.queues[m][i])
  {
    var v := Created(w, fd, l);
    forall m, i | m in v.queues && 0 <= i < |v.queues[m]|
      ensures Placed(v, m, v.queues[m][i])
    {
      assert Placed(w, m, w.queues[m][i]);
    }
  }

  lemma CreatedChannels(w: World, fd: int, l: Loop)
    requires Good(w) && CanAccept(w, fd, l)
    ensures var v := Created(w, fd, l);
      && (forall c :: c in v.conns <==> 0 <= c < v.nextId)
      && (forall m, c :: m in v.polls && c in v.polls[m].chans ==> c in v.conns && v.conns[c].loop == m)
  {
  }

  lemma CreatedGood(w: World, fd: int, l: Loop)
    requires Good(w) && CanAccept(w, fd, l)
    ensures Good(Created(w, fd, l))
  {
    CreatedPlaced(w, fd, l);
    CreatedChannels(w, fd, l);
  }

  lemma NoTokensYet(w: World, c: ConnId, f: Functor, l: Loop)
    requires Good(w) && c !in w.conns && l in w.queues && f.c == c
    ensures Count(w, l, f) == 0
  {
    assert forall i :: 0 <= i < |w.queues[l]| ==> Placed(w, l, w.queues[l][i]);
  }

  lemma CreatedSame(w: World, fd: int, l: Loop, d: ConnId)
    requires Good(w) && CanAccept(w, fd, l) && Known(w, d)
    ensures Same(w, Created(w, fd, l), d)
  {
    assert d != w.nextId;
  }

  lemma AcceptSame(w: World, fd: int, l: Loop, d: ConnId)
    requires Good(w) && CanAccept(w, fd, l) && Known(w, d)
    ensures var r := NewConnection(w, fd, l); r.Some? ==> Same(w, r.value, d)
  {
    var c, u := w.nextId, Created(w, fd, l);
    CreatedSame(w, fd, l, d);
    if l == 0 {
      EstablishSame(u, c, d);
      SameThrough(w, u, ConnectEstablished(u, c).value, d);
    } else {
      QueueSame(u, l, Establish(c), d);
      SameThrough(w, u, Queue(u, l, Establish(c)), d);
    }
  }

  lemma AcceptOrder(w: World, fd: int, l: Loop)
    requires Good(w) && CanAccept(w, fd, l)
    ensures var r := NewConnection(w, fd, l); r.Some? && Known(r.value, w.nextId) && InOrder(r.value, w.nextId)
  {
    var c, u := w.nextId, Created(w, fd, l);
    NoTokensYet(w, c, Establish(c), l);
    NoTokensYet(w, c, RemoveInLoop(c), 0);
    NoTokensYet(w, c, Destroy(c), l);
    assert HasChannel(u, c) && Tokens(u, c) == (0, 0, 0);
    if l == 0 {
      EstablishOrder(u, c);
    }
  }

  lemma AcceptOrders(w: World, fd: int, l: Loop)
    requires Good(w) && AllInOrder(w) && CanAccept(w, fd, l)
    ensures var r := NewConnection(w, fd, l); r.Some? && AllInOrder(r.value)
  {
    AcceptOrder(w, fd, l);
    var v := NewConnection(w, fd, l).value;
    forall d | d in v.conns && d != w.nextId
      ensures Known(v, d) && InOrder(v, d)
    {
      AcceptSame(w, fd, l, d);
      SameInOrder(w, v, d);
    }
  }

  lemma AcceptGood(w: World, fd: int, l: Loop)
    requires Good(w) && CanAccept(w, fd, l)
    ensures var r := NewConnection(w, fd, l); r.Some? ==> Good(r.value)
  {
    var c, u := w.nextId, Created(w, fd, l);
    CreatedGood(w, fd, l);
    if l == 0 {
      EstablishGood(u, c);
    } else {
      QueueGood(u, l, Establish(c));
    }
  }

  lemma AcceptAgrees(w: World, fd: int, l: Loop)
    requires PollsAgree(w.polls) && CanAccept(w, fd, l)
    ensures var r := NewConnection(w, fd, l); r.Some? ==> PollsAgree(r.value.polls)
  {
    var c, u := w.nextId, Created(w, fd, l);
    ChannelAgrees(w, l, R.Open(c, fd));
    if l == 0 {
      ChannelAgrees(u, l, R.EnableReading(c));
    }
  }

  lemma AcceptKeeps(w: World, fd: int, l: Loop)
    requires Inv(w) && CanAccept(w, fd, l)
    ensures var r := NewConnection(w, fd, l); r.Some? && Inv(r.value)
  {
    AcceptOrders(w, fd, l);
    AcceptGood(w, fd, l);
    AcceptAgrees(w, fd, l);
  }

  // ----- what a step leaves alone -----

  lemma RunHeadSame(w: World, l: Loop, d: ConnId)
    requires HasHead(w, l) && Placed(w, l, w.queues[l][0]) && InOrder(w, w.queues[l][0].c)
    requires Known(w, d) && d != w.queues[l][0].c && RunHead(w, l).Some?
    ensures Same(w, RunHead(w, l).value, d)
  {
    var f, u := w.queues[l][0], Popped(w, l);
    HeadToken(w, l);
    PopSame(w, l, d);
    match f {
      case Establish(c) => EstablishSame(u, c, d);
      case RemoveInLoop(c) => RemoveSame(u, c, d);
      case Destroy(c) => DestroySame(u, c, d);
      case ForceCloseInLoop(c) => if Open(u.conns[c]) { CloseSame(u, c, d); }
    }
    SameThrough(w, u, RunHead(w, l).value, d);
  }

  /** What methods never take back: functors queued, connections made, and the counts of what has
      happened to them. */
  ghost predicate Grows(w: World, v: World) {
    && v.queues.Keys == w.queues.Keys
    && (forall l :: l in w.queues ==> w.queues[l] <= v.queues[l])
    && (forall c :: c in w.conns ==>
          && c in v.conns && w.conns[c].up <= v.conns[c].up
          && w.conns[c].erased <= v.conns[c].erased && w.conns[c].destroyed <= v.conns[c].destroyed
          && (w.conns[c].life.Disconnected? ==> v.conns[c].life.Disconnected?))
  }

  lemma ExecuteGrows(w: World, f: Functor)
    requires Known(w, f.c) && Execute(w, f).Some?
    ensures Grows(w, Execute(w, f).value)
  {
  }

  lemma CloseGrows(w: World, c: ConnId)
    requires Known(w, c) && HandleClose(w, c).Some?
    ensures Grows(w, HandleClose(w, c).value)
  {
  }

  lemma AcceptGrows(w: World, fd: int, l: Loop)
    requires CanAccept(w, fd, l) && w.nextId !in w.conns && NewConnection(w, fd, l).Some?
    ensures Grows(w, NewConnection(w, fd, l).value)
  {
  }

  lemma LeavingGrows(w: World, c: ConnId)
    requires Known(w, c)
    ensures Grows(w, ForceClose(w, c)) && Grows(w, Shutdown(w, c))
  {
  }

  /** What the method of a queued functor asserts about its connection is so when its turn comes. */
  lemma HeadAsserts(w: World, l: Loop)
    requires Inv(w) && HasHead(w, l)
    ensures var f := w.queues[l][0];
      var k := w.conns[f.c];
      match f
      case Establish(c) => HasChannel(w, c) && k.life.Connecting?
      case RemoveInLoop(c) => c in w.server
      case Destroy(c) =>
        && HasChannel(w, c) && !k.life.Connected?
        && w.polls[k.loop].chans[c].events == R.NONE_EVENT && !w.polls[k.loop].chans[c].index.New?
      case ForceCloseInLoop(c) => Open(k) ==> HasChannel(w, c) && c in w.server
  {
    hide PollsAgree;
    assert Placed(w, l, w.queues[l][0]) && InOrder(w, w.queues[l][0].c);
    HeadToken(w, l);
  }

  // ----- closing a connection that the kernel does not have -----

  predicate WithKernel(w: World, c: ConnId)
    requires HasChannel(w, c)
  {
    var p := w.polls[w.conns[c].loop];
    p.chans[c].fd in p.kernel && p.kernel[p.chans[c].fd].1 == c
  }

  /** No closed connection can be heard of again: its descriptor is not with the kernel. */
  ghost predicate Deaf(w: World) {
    forall c :: HasChannel(w, c) && w.conns[c].life.Disconnected? ==> !WithKernel(w, c)
  }

  lemma InvIsDeaf(w: World)
    requires Inv(w)
    ensures Deaf(w)
  {
    hide Good;
    forall c | HasChannel(w, c) && w.conns[c].life.Disconnected?
      ensures !WithKernel(w, c)
    {
      assert InOrder(w, c);
      assert R.Mirrors(w.polls[w.conns[c].loop], c);
    }
  }

  lemma CloseState(w: World, c: ConnId)
    requires HasChannel(w, c) && Open(w.conns[c]) && c in w.server
    ensures var r := HandleClose(w, c);
      && r.Some? && HasChannel(r.value, c) && r.value.polls == Downed(w, c).polls
      && r.value.conns[c].loop == w.conns[c].loop && r.value.conns[c].life.Disconnected?
  {
    ApplyKeys(w.polls[w.conns[c].loop], R.DisableAll(c));
  }

  lemma DownKernel(w: World, c: ConnId)
    requires PollsAgree(w.polls) && HasChannel(w, c) && !w.polls[w.conns[c].loop].chans[c].index.New?
    ensures HasChannel(Downed(w, c), c)
    ensures WithKernel(Downed(w, c), c) <==> w.polls[w.conns[c].loop].chans[c].index.Deleted?
  {
    assert R.Mirrors(w.polls[w.conns[c].loop], c);
  }

  /** Closing takes the descriptor away from the kernel exactly when it was with the kernel before. When
      it was not, because reading had been stopped and nothing was to be written, clearing the empty mask
      adds it again. */
  lemma CloseSilencesIff(w: World, c: ConnId)
    requires PollsAgree(w.polls) && HasChannel(w, c) && Open(w.conns[c]) && InOrder(w, c)
    ensures var r := HandleClose(w, c);
      && r.Some? && HasChannel(r.value, c) && r.value.conns[c].life.Disconnected?
      && (WithKernel(r.value, c) <==> !w.polls[w.conns[c].loop].chans[c].index.Added?)
  {
    CloseState(w, c);
    DownKernel(w, c);
  }

  /** And any change of interest of a closed connection does the same. */
  lemma LateInterest(w: World, op: R.Op<ConnId>)
    requires PollsAgree(w.polls) && IsInterest(op) && HasChannel(w, op.c) && Silent(w, op.c)
    ensures var v := Interest(w, op); v.conns == w.conns && HasChannel(v, op.c) && WithKernel(v, op.c)
  {
    assert R.Mirrors(w.polls[w.conns[op.c].loop], op.c);
  }
}
