/** One `ChannelMultiplexer` with the receive chain of each of its channels, as a value:
    the link, the dispatcher greenlet, the broadcast queue and its acceptor, and for each
    channel the size-1 queue, the `HeartBeatOnChannel` greenlet and the `BufferedChannel`.
    Greenlets hold at most one event, the one they are about to put. */
module Multiplex {
  import opened Protocol
  import opened Buffering
  import Credit
  import opened Heartbeat

  /** One channel: what was put in `Channel._queue`, what the heartbeat greenlet holds,
      and the buffer with its emitter and its reader. */
  datatype Endpoint = Endpoint(
    queue: seq<Event>,
    held: seq<Event>,
    compat: Option<bool>,
    called: bool,             // the event that opens the channel was emitted
    buf: Buffer,
    waiting: bool,
    inRecv: bool)

  datatype Mux = Mux(
    broadcast: bool,          // not ignore_broadcast
    inbox: seq<Event>,        // the incoming link
    hand: seq<Event>,         // the dispatcher, inside queue.put
    bqueue: seq<Event>,       // _broadcast_queue
    tasks: seq<Event>,        // _async_task greenlets that have not run yet
    chans: map<Id, Endpoint>) // every channel ever made; the active ones are open

  function NewEndpoint(queue: seq<Event>, size: int, called: bool): Endpoint {
    Endpoint(queue, [], None, called, Fresh(size), false, false)
  }

  /** Is the channel in `_active_channels`? */
  predicate Active(p: Mux, c: Id) {
    c in p.chans && p.chans[c].buf.open
  }

  // ---- dispatching --------------------------------------------------------------

  /** Does the dispatcher find a queue for the event? */
  predicate Routable(p: Mux, e: Event) {
    if e.respTo.Some? then Active(p, e.respTo.value) else p.broadcast
  }

  predicate CanDispatch(p: Mux) {
    p.hand == [] && p.inbox != []
  }

  function Dispatch(p: Mux): Mux
    requires CanDispatch(p)
  {
    var e := p.inbox[0];
    p.(inbox := p.inbox[1..], hand := if Routable(p, e) then [e] else [])
  }

  predicate CanPut(p: Mux) {
    && p.hand != []
    && match p.hand[0].respTo
       case Some(c) => c in p.chans && |p.chans[c].queue| < QUEUE_SIZE
       case None => |p.bqueue| < QUEUE_SIZE
  }

  function Put(p: Mux): Mux
    requires CanPut(p)
  {
    var e := p.hand[0];
    match e.respTo
    case Some(c) =>
      p.(hand := [], chans := p.chans[c := p.chans[c].(queue := p.chans[c].queue + [e])])
    case None => p.(hand := [], bqueue := p.bqueue + [e])
  }

  /** `_acceptor` takes a broadcast event and spawns a task for it. */
  function Accept(p: Mux): Mux
    requires p.bqueue != []
  {
    p.(bqueue := p.bqueue[1..], tasks := p.tasks + [p.bqueue[0]])
  }

  /** The head of a task: the channel of its event is made, with the event in its queue. */
  function StartTask(p: Mux): Mux
    requires p.tasks != []
  {
    var e := p.tasks[0];
    p.(tasks := p.tasks[1..], chans := p.chans[e.msgId := NewEndpoint([e], SERVER_QUEUE, true)])
  }

  // ---- the receive chain of one channel -------------------------------------------

  predicate CanBeatTake(p: Mux, c: Id) {
    Active(p, c) && p.chans[c].queue != [] && p.chans[c].held == []
  }

  /** `HeartBeatOnChannel._recver` takes from the queue; a heartbeat may end there. */
  function BeatTake(ep: Endpoint): Endpoint
    requires ep.queue != []
  {
    var e := ep.queue[0];
    var v2 := Generation(ep.compat, e);
    ep.(queue := ep.queue[1..], compat := Some(v2),
        held := match Inbound(v2, e) case Some(up) => [up] case None => [])
  }

  predicate CanBufTake(p: Mux, c: Id) {
    c in p.chans && p.chans[c].buf.alive && p.chans[c].held != []
  }

  /** `BufferedChannel._recver` takes what the heartbeat greenlet holds. */
  function BufTake(ep: Endpoint): Endpoint
    requires ep.held != []
  {
    ep.(held := [], buf := Deliver(ep.buf, ep.held[0]))
  }

  // ---- the application's end ---------------------------------------------------------

  predicate CanAct(ep: Endpoint, act: Credit.Act) {
    match act
    case Emit(e, _) => !ep.waiting && ep.buf.slots != 0 && !IsControl(e)
    case Block => !ep.waiting && ep.buf.slots == 0
    case Wake(e, _) => ep.waiting && ep.buf.canRecv && !IsControl(e)
    case Deliver1 => false
    case Enter(_, _) => !ep.inRecv
    case Get => ep.inRecv && ep.buf.queue != []
    case TimeOut => ep.inRecv && ep.buf.queue == [] && !ep.buf.open   // a call that times out closes
    case Install(_) => true
    case Close => true
  }

  function Act(ep: Endpoint, act: Credit.Act): Endpoint
    requires CanAct(ep, act)
  {
    match act
    case Emit(_, sent) => Sending(ep, sent)
    case Block => ep.(buf := Blocked(ep.buf), waiting := true)
    case Wake(_, sent) => Sending(ep, sent)
    case Enter(_, sent) => ep.(buf := Entered(ep.buf), inRecv := Grants(ep.buf) ==> sent)
    case Get => ep.(buf := Taken(ep.buf), inRecv := false)
    case TimeOut => ep.(inRecv := false)
    case Install(callback) => ep.(buf := ep.buf.(onCloseIf := Some(callback)))
    case Close => ep.(buf := Closed(ep.buf))
    case _ => ep
  }

  function Sending(ep: Endpoint, sent: bool): Endpoint {
    var ok := sent && ep.buf.open;
    ep.(waiting := false, buf := Emitted(ep.buf, ok), called := ep.called || ok)
  }

  /** The events an act puts on the link. */
  function OnLink(ep: Endpoint, act: Credit.Act): seq<Event> {
    match act
    case Emit(e, sent) => if sent && ep.buf.open then [e] else []
    case Wake(e, sent) => if sent && ep.buf.open then [e] else []
    case Enter(h, sent) =>
      if Grants(ep.buf) && sent then [Credit.GrantEvent(h, GrantSize(ep.buf))] else []
    case _ => []
  }

  // ---- what is on its way to one channel ------------------------------------------------

  predicate ForChannel(e: Event, c: Id) {
    if e.respTo.Some? then e.respTo.value == c else e.msgId == c
  }

  /** The events of one channel, heartbeats left out. */
  function Of(c: Id, s: seq<Event>): (r: seq<Event>) {
    if s == [] then [] else (if ForChannel(s[0], c) && !s[0].name.ZpcHb? then [s[0]] else []) + Of(c, s[1..])
  }

  lemma {:induction false} OfConcat(c: Id, s: seq<Event>, t: seq<Event>)
    ensures Of(c, s + t) == Of(c, s) + Of(c, t)
  {
    if s == [] {
      assert s + t == t;
    } else {
      assert (s + t)[1..] == s[1..] + t;
      OfConcat(c, s[1..], t);
    }
  }

  lemma OfOne(c: Id, e: Event)
    ensures Of(c, [e]) == if ForChannel(e, c) && !e.name.ZpcHb? then [e] else []
  {
    assert [e][1..] == [];
  }

  lemma {:induction false} OfMember(c: Id, s: seq<Event>, e: Event)
    ensures e in Of(c, s) <==> e in s && ForChannel(e, c) && !e.name.ZpcHb?
  {
    if s != [] {
      OfMember(c, s[1..], e);
    }
  }

  lemma {:induction false} OfNone(c: Id, s: seq<Event>)
    requires forall e :: e in s ==> !ForChannel(e, c)
    ensures Of(c, s) == []
  {
    if s != [] {
      OfNone(c, s[1..]);
    }
  }

  /** Everything not yet handed to a channel, oldest first. */
  function Backlog(p: Mux): seq<Event> {
    p.tasks + p.bqueue + p.hand + p.inbox
  }

  function Front(p: Mux, c: Id): seq<Event> {
    if c in p.chans then p.chans[c].held + p.chans[c].queue else []
  }

  /** What the `BufferedChannel` of `c` will still be given, in order. */
  function Pipe(p: Mux, c: Id): seq<Event> {
    Of(c, Front(p, c) + Backlog(p))
  }

  lemma PipeParts(p: Mux, c: Id)
    ensures Pipe(p, c) == Of(c, Front(p, c)) + Of(c, p.tasks + p.bqueue) + Of(c, p.hand) + Of(c, p.inbox)
  {
    OfConcat(c, Front(p, c), Backlog(p));
    OfConcat(c, p.tasks + p.bqueue + p.hand, p.inbox);
    OfConcat(c, p.tasks + p.bqueue, p.hand);
  }

  lemma Assoc(x: seq<Event>, y: seq<Event>, z: seq<Event>)
    ensures x + (y + z) == (x + y) + z
  {
  }

  lemma HeadSplit(x: seq<Event>, s: seq<Event>)
    requires s != []
    ensures x + [] + s == x + [s[0]] + s[1..]
  {
    assert s == [s[0]] + s[1..];
  }

  lemma DispatchBacklog(p: Mux)
    requires CanDispatch(p) && Routable(p, p.inbox[0])
    ensures Backlog(Dispatch(p)) == Backlog(p)
  {
    HeadSplit(p.tasks + p.bqueue, p.inbox);
  }

  /** Events that were not routed are not lost to a channel they are for. */
  lemma DispatchPipe(p: Mux, c: Id)
    requires CanDispatch(p)
    requires Routable(p, p.inbox[0]) || !ForChannel(p.inbox[0], c) || p.inbox[0].name.ZpcHb?
    ensures Pipe(Dispatch(p), c) == Pipe(p, c)
  {
    var e := p.inbox[0];
    if Routable(p, e) {
      DispatchBacklog(p);
    } else {
      PipeParts(p, c);
      PipeParts(Dispatch(p), c);
    }
  }

  lemma PutFront(p: Mux, c: Id)
    requires CanPut(p) && p.hand[0].respTo.Some?
    ensures Front(Put(p), c) == Front(p, c) + if p.hand[0].respTo.value == c then [p.hand[0]] else []
  {
    if p.hand[0].respTo.value == c {
      Assoc(p.chans[c].held, p.chans[c].queue, [p.hand[0]]);
    }
  }

  lemma Regroup(f: seq<Event>, x: seq<Event>, t: seq<Event>, i: seq<Event>)
    requires t == [] || x == []
    ensures (f + x) + t + [] + i == f + t + x + i
  {
  }

  /** A put keeps the order of every channel. */
  lemma PutPipe(p: Mux, c: Id)
    requires CanPut(p) && |p.hand| == 1 && p.hand[0].respTo.Some?
    requires p.hand[0].respTo == Some(c) ==> forall e :: e in p.tasks + p.bqueue ==> !ForChannel(e, c)
    ensures Pipe(Put(p), c) == Pipe(p, c)
  {
    var e := p.hand[0];
    assert p.hand == [e];
    OfOne(c, e);
    PipeParts(p, c);
    PipeParts(Put(p), c);
    PutFront(p, c);
    var x := if e.respTo.value == c then [e] else [];
    if e.respTo.value == c {
      OfNone(c, p.tasks + p.bqueue);
    }
    OfConcat(c, Front(p, c), x);
    assert Of(c, p.hand) == Of(c, x) && Of(c, Put(p).hand) == [];
    Regroup(Of(c, Front(p, c)), Of(c, x), Of(c, p.tasks + p.bqueue), Of(c, p.inbox));
  }

  lemma PutBroadcastBacklog(p: Mux)
    requires CanPut(p) && |p.hand| == 1 && p.hand[0].respTo.None?
    ensures Backlog(Put(p)) == Backlog(p)
  {
    assert p.hand == [p.hand[0]];
    Assoc(p.tasks, p.bqueue, p.hand);
    assert Put(p).tasks + Put(p).bqueue == p.tasks + p.bqueue + p.hand;
  }

  lemma AcceptPipe(p: Mux, c: Id)
    requires p.bqueue != []
    ensures Backlog(Accept(p)) == Backlog(p) && Pipe(Accept(p), c) == Pipe(p, c)
  {
    assert p.bqueue == [p.bqueue[0]] + p.bqueue[1..];
  }

  lemma StartPipe(p: Mux, c: Id)
    requires p.tasks != [] && p.tasks[0].respTo.None? && p.tasks[0].msgId !in p.chans
    ensures Pipe(StartTask(p), c) == Pipe(p, c)
    ensures Backlog(p) == [p.tasks[0]] + Backlog(StartTask(p))
  {
    var e := p.tasks[0];
    assert p.tasks == [e] + p.tasks[1..];
    assert Backlog(p) == [e] + Backlog(StartTask(p));
    if e.msgId == c {
      assert Front(StartTask(p), c) + Backlog(StartTask(p)) == Front(p, c) + Backlog(p);
    } else {
      OfConcat(c, Front(p, c), Backlog(p));
      OfConcat(c, [e], Backlog(StartTask(p)));
      OfConcat(c, Front(p, c), Backlog(StartTask(p)));
      OfOne(c, e);
    }
  }

  lemma FrontPipe(p: Mux, p': Mux, c: Id)
    requires Backlog(p) == Backlog(p') && Of(c, Front(p, c)) == Of(c, Front(p', c))
    ensures Pipe(p', c) == Pipe(p, c)
  {
    OfConcat(c, Front(p, c), Backlog(p));
    OfConcat(c, Front(p', c), Backlog(p'));
  }

  /** The heartbeat greenlet of a protocol-3 channel swallows heartbeats and nothing else. */
  lemma BeatTakePipe(p: Mux, c: Id, k: Id)
    requires CanBeatTake(p, k) && !Generation(p.chans[k].compat, p.chans[k].queue[0])
    ensures Pipe(p.(chans := p.chans[k := BeatTake(p.chans[k])]), c) == Pipe(p, c)
  {
    var p' := p.(chans := p.chans[k := BeatTake(p.chans[k])]);
    if c == k {
      var e := p.chans[k].queue[0];
      assert p.chans[k].queue == [e] + p.chans[k].queue[1..];
      assert Front(p, c) == [e] + p.chans[k].queue[1..];
      OfConcat(c, [e], p.chans[k].queue[1..]);
      OfOne(c, e);
      assert Front(p', c) == if e.name.ZpcHb? then p.chans[k].queue[1..] else Front(p, c);
    }
    FrontPipe(p, p', c);
  }

  /** The buffer takes the head of its pipe. */
  lemma BufTakePipe(p: Mux, c: Id, k: Id)
    requires CanBufTake(p, k) && |p.chans[k].held| == 1
    requires ForChannel(p.chans[k].held[0], k) && !p.chans[k].held[0].name.ZpcHb?
    ensures var p' := p.(chans := p.chans[k := BufTake(p.chans[k])]);
            Pipe(p, c) == (if c == k then [p.chans[k].held[0]] else []) + Pipe(p', c)
  {
    var p' := p.(chans := p.chans[k := BufTake(p.chans[k])]);
    if c == k {
      var e := p.chans[k].held[0];
      assert Front(p, c) + Backlog(p) == [e] + (Front(p', c) + Backlog(p'));
      OfConcat(c, [e], Front(p', c) + Backlog(p'));
      OfOne(c, e);
    } else {
      FrontPipe(p, p', c);
    }
  }

  lemma LinkPipe(p: Mux, c: Id, s: seq<Event>)
    ensures Pipe(p.(inbox := p.inbox + s), c) == Pipe(p, c) + Of(c, s)
    ensures Backlog(p.(inbox := p.inbox + s)) == Backlog(p) + s
  {
    var p' := p.(inbox := p.inbox + s);
    Assoc(p.tasks + p.bqueue + p.hand, p.inbox, s);
    Assoc(Front(p, c), Backlog(p), s);
    OfConcat(c, Front(p, c) + Backlog(p), s);
  }
}
