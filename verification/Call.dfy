/** One remote call from end to end: a client (end `a`) and a server task (end `b`) over
    the flow-controlled channel of module Credit, with every interleaving of their
    greenlets.  Heartbeats are absorbed below (module Stack). */
module Call {
  import opened Protocol
  import opened Buffering
  import opened Credit
  import CreditLaws
  import opened Rpc

  datatype Client =
    | Calling                   // before emit_event(request_event)
    | Listening(reader: Reader) // between two events; inside recv when d.a.inRecv
    | Received(first: Event)    // the first recv returned, no pattern selected yet
    | Finished(outcome: Outcome)
    | Abandoned                 // the first recv timed out

  datatype Server =
    | Idle                      // inside the first recv of _async_task, or before it
    | Replying(unsent: seq<Try>)
    | Gone

  datatype Call = Call(d: Duplex, client: Client, yielded: seq<Args>, server: Server)

  /** `tries` is what the server task tries to send for the request, and `reply` what is
      sent of it (see Rpc.AsyncTask). */
  datatype Setup = Setup(request: Event, tries: seq<Try>, reply: seq<Event>, slots: int)

  const IS_STREAM_DONE: Event -> bool := (e: Event) => e.name.STREAM_DONE?

  datatype Move =
    | SendRequest | ClientDeliver | ClientEnter(header: Event) | ClientGet | ClientStart | ClientTimeOut
    | ServerDeliver | ServerEnter(header: Event) | ServerGet | ServerEmit | ServerBlock | ServerWake | ServerClose

  function Begin(s: Setup): Call {
    Call(Start(s.slots, SERVER_QUEUE), Calling, [], Idle)
  }

  predicate Unsent(server: Server) {
    server.Replying? && server.unsent != []
  }

  function NextTry(server: Server): Try
    requires Unsent(server)
  {
    server.unsent[0]
  }

  function Trying(t: Try): Act {
    Emit(t.event, t.raised.None?)
  }

  function Retrying(t: Try): Act {
    Wake(t.event, t.raised.None?)
  }

  /** The step of flow control that a move takes, if it takes one. */
  function Flow(s: Setup, c: Call, m: Move): Option<Label> {
    match m
    case SendRequest => Some(Label(true, Emit(s.request, true)))
    case ClientDeliver => Some(Label(true, Deliver1))
    case ClientEnter(h) => Some(Label(true, Enter(h, true)))
    case ClientGet => Some(Label(true, Get))
    case ClientStart => None
    case ClientTimeOut => Some(Label(true, TimeOut))
    case ServerDeliver => Some(Label(false, Deliver1))
    case ServerEnter(h) => Some(Label(false, Enter(h, true)))
    case ServerGet => Some(Label(false, Get))
    case ServerEmit => if Unsent(c.server) then Some(Label(false, Trying(NextTry(c.server)))) else None
    case ServerBlock => Some(Label(false, Block))
    case ServerWake => if Unsent(c.server) then Some(Label(false, Retrying(NextTry(c.server)))) else None
    case ServerClose => Some(Label(false, Close))
  }

  /** Where each move may happen in the code of its side. */
  predicate InPlace(client: Client, server: Server, m: Move) {
    match m
    case SendRequest => client.Calling?
    case ClientDeliver => true
    case ClientEnter(_) => client.Listening?
    case ClientGet => client.Listening?
    case ClientStart => client.Received?
    case ClientTimeOut => client == Listening(Awaiting)
    case ServerDeliver => true
    case ServerEnter(_) => server.Idle?
    case ServerGet => server.Idle?
    case ServerEmit => Unsent(server)
    case ServerBlock => Unsent(server)
    case ServerWake => Unsent(server)
    case ServerClose => server == Replying([])
  }

  predicate CanMove(s: Setup, c: Call, m: Move) {
    InPlace(c.client, c.server, m) && (Flow(s, c, m).Some? ==> Allowed(c.d, Flow(s, c, m).value))
  }

  /** The client has event `e`, and its reader is now `r`. */
  function Advance(c: Call, e: Event, r: Reader): Call {
    match r
    case Iterating => c.(client := Listening(Iterating), yielded := c.yielded + [e.args])
    case Done(o) => c.(client := Finished(o), d := Shut(c.d))
    case Awaiting => c
  }

  function Installed(d: Duplex): Duplex {
    Perform(d, Install(IS_STREAM_DONE))
  }

  function After(s: Setup, c: Call, m: Move): Call
    requires CanMove(s, c, m)
  {
    var c' := match Flow(s, c, m) case Some(l) => c.(d := Next(c.d, l)) case None => c;
    match m
    case SendRequest => c'.(client := Listening(Awaiting))
    case ClientGet =>
      var e := c.d.a.buf.queue[0];
      if c.client.reader.Iterating? then Advance(c', e, Resume(e)) else c'.(client := Received(e))
    case ClientStart =>
      var e := c.client.first;
      Advance(if SelectFrom(PATTERNS, e) == Some(ReqStream) then c.(d := Installed(c.d)) else c, e, First(e))
    case ClientTimeOut => c'.(client := Abandoned, d := Shut(c'.d))
    case ServerGet => c'.(server := Replying(s.tries))
    case ServerEmit => c'.(server := Replying(c.server.unsent[1..]))
    case ServerWake => c'.(server := Replying(c.server.unsent[1..]))
    case ServerClose => c'.(server := Gone)
    case _ => c'
  }

  ghost predicate Run(s: Setup, c: Call, moves: seq<Move>, c': Call)
    decreases |moves|
  {
    if moves == [] then c == c'
    else CanMove(s, c, moves[0]) && Run(s, After(s, c, moves[0]), moves[1..], c')
  }

  // ---- the invariant ----------------------------------------------------------------

  ghost predicate Legal(s: Setup) {
    && !IsControl(s.request)
    && InLanguage(s.reply) && s.reply == SentIn(s.tries)
    && (forall t :: t in s.tries ==> !IsControl(t.event))
    && s.slots != 0
  }

  /** What the server has done: `emitted` and what will be sent of `unsent` make up its reply. */
  ghost predicate ServerInv(s: Setup, c: Call) {
    var b := c.d.b;
    && b.buf.size == SERVER_QUEUE
    && b.granted == 0
    && !b.faulted
    && b.buf.onCloseIf.None?
    && match c.server
       case Idle => b.emitted == [] && b.consumed == [] && b.buf.open && !b.waiting
                    && (b.buf.verbose ==> b.inRecv)
       case Replying(unsent) => b.emitted + SentIn(unsent) == s.reply && |b.consumed| == 1 && b.buf.open && !b.inRecv
                                && (unsent == [] ==> !b.waiting)
                                && |unsent| <= |s.tries| && unsent == s.tries[|s.tries| - |unsent|..]
       case Gone => b.emitted == s.reply && |b.consumed| == 1 && !b.buf.open
  }

  /** What the client has done: it is where reading `consumed` leads. */
  ghost predicate ClientInv(s: Setup, c: Call) {
    var a := c.d.a;
    && a.buf.size == s.slots
    && !a.faulted
    && !a.waiting
    && (a.buf.onCloseIf.Some? ==> a.buf.onCloseIf == Some(IS_STREAM_DONE))
    && (c.client.Calling? <==> a.emitted == [])
    && (a.emitted != [] ==> a.emitted == [s.request])
    && match c.client
       case Calling => Waiting(c) && !a.inRecv && !a.buf.verbose
       case Listening(Awaiting) => Waiting(c) && (a.buf.verbose <==> a.inRecv)
       case Listening(Iterating) =>
         && a.consumed != []
         && Consume(NEW_CALL, a.consumed) == View(Iterating, c.yielded)
         && a.buf.onCloseIf.Some?
         && (!a.buf.open ==> a.consumed + a.buf.queue == s.reply
                             && s.reply != [] && s.reply[|s.reply| - 1].name.STREAM_DONE?)
         && (a.buf.open ==> forall e :: e in a.buf.queue ==> !e.name.STREAM_DONE?)
       case Listening(Done(_)) => false
       case Received(e) => a.consumed == [e] && c.yielded == [] && !a.inRecv && NotYetReading(a)
       case Finished(o) => Consume(NEW_CALL, a.consumed) == View(Done(o), c.yielded) && a.consumed == s.reply
                           && !a.buf.open && (|a.consumed| >= 2 ==> a.buf.onCloseIf.Some?)
       case Abandoned => a.consumed == [] && c.yielded == [] && !a.buf.open && a.granted == 0
  }

  ghost predicate NotYetReading(a: Side) {
    a.granted == 0 && a.buf.open && a.buf.onCloseIf.None?
  }

  ghost predicate Waiting(c: Call) {
    c.d.a.consumed == [] && c.yielded == [] && NotYetReading(c.d.a)
  }

  ghost predicate CallInv(s: Setup, c: Call) {
    Inv(c.d) && ServerInv(s, c) && ClientInv(s, c)
  }

  // ---- reading the reply ---------------------------------------------------------------

  /** What was consumed and queued is a prefix of the reply. */
  lemma ConsumedIsPrefix(s: Setup, c: Call)
    requires CallInv(s, c)
    ensures c.d.a.consumed + c.d.a.buf.queue <= s.reply
  {
    var a, b := c.d.a, c.d.b;
    assert b.emitted == (a.consumed + a.buf.queue) + (Data(c.d.ba) + a.dropped);
    assert a.consumed + a.buf.queue <= b.emitted;
    assert b.emitted <= s.reply;
  }

  /** A terminal event in a legal reply is its last. */
  lemma TerminalIsLast(reply: seq<Event>, s: seq<Event>)
    requires InLanguage(reply) && s <= reply && s != [] && !s[|s| - 1].name.STREAM?
    ensures s == reply && Complete(reply)
  {
    assert s[|s| - 1] == reply[|s| - 1];
    assert reply[|s| - 1] in reply;
    var init := reply[..|reply| - 1];
    assert forall k :: 0 <= k < |init| ==> init[k] in init;
    assert forall k :: 0 <= k < |init| ==> reply[k].name.STREAM?;
  }

  predicate OfClient(m: Move) {
    m.SendRequest? || m.ClientDeliver? || m.ClientEnter? || m.ClientGet? || m.ClientStart? || m.ClientTimeOut?
  }

  /** The moves of a side leave what the other side has done. */
  lemma ClientLeavesServer(s: Setup, c: Call, m: Move)
    requires ServerInv(s, c) && CanMove(s, c, m) && OfClient(m)
    ensures ServerInv(s, After(s, c, m))
  {
    ClientMovesItsEnd(s, c, m);
    ServerInvKept(s, c, After(s, c, m));
  }

  lemma ClientMovesItsEnd(s: Setup, c: Call, m: Move)
    requires CanMove(s, c, m) && OfClient(m)
    ensures var c' := After(s, c, m);
            c'.server == c.server && c'.d.b == c.d.b.(lost := c'.d.b.lost, dropped := c'.d.b.dropped)
  {
    if m.ClientStart? {
      AdvanceMovesOwnEnd(c, c.client.first, First(c.client.first));
    } else {
      var d' := Next(c.d, Flow(s, c, m).value);
      MovesOwnEnd(c.d, Flow(s, c, m).value.act);
      if m.ClientGet? {
        AdvanceMovesOwnEnd(c.(d := d'), c.d.a.buf.queue[0], Resume(c.d.a.buf.queue[0]));
      }
    }
  }

  lemma AdvanceMovesOwnEnd(c: Call, e: Event, r: Reader)
    ensures var d' := Advance(c, e, r).d; d'.b == c.d.b.(lost := d'.b.lost, dropped := d'.b.dropped)
  {
  }

  lemma ServerInvKept(s: Setup, c: Call, c': Call)
    requires ServerInv(s, c) && c'.server == c.server
    requires c'.d.b == c.d.b.(lost := c'.d.b.lost, dropped := c'.d.b.dropped)
    ensures ServerInv(s, c')
  {
  }

  lemma ServerLeavesClient(s: Setup, c: Call, m: Move)
    requires ClientInv(s, c) && CanMove(s, c, m) && !OfClient(m)
    ensures ClientInv(s, After(s, c, m))
  {
    var d, d' := c.d, After(s, c, m).d;
    assert d'.a == d.a.(lost := d'.a.lost, dropped := d'.a.dropped);
  }

  lemma ServerReplies(s: Setup, c: Call, m: Move)
    requires ServerInv(s, c) && CanMove(s, c, m) && (m.ServerEmit? || m.ServerWake? || m.ServerBlock?)
    ensures ServerInv(s, After(s, c, m))
  {
    if !m.ServerBlock? {
      SendFrame(Flip(c.d), NextTry(c.server).event, NextTry(c.server).raised.None?);
      ServerTries(s, c, After(s, c, m));
    }
  }

  function SentOf(t: Try): seq<Event> {
    if t.raised.None? then [t.event] else []
  }

  /** One try less, and what it sent emitted. */
  lemma ServerTries(s: Setup, c: Call, c': Call)
    requires ServerInv(s, c) && Unsent(c.server) && c'.server == Replying(c.server.unsent[1..])
    requires c'.d.b == c.d.b.(waiting := false, buf := Emitted(c.d.b.buf, NextTry(c.server).raised.None?),
                              emitted := c.d.b.emitted + SentOf(NextTry(c.server)))
    ensures ServerInv(s, c')
  {
    var unsent := c.server.unsent;
    assert c.d.b.emitted + SentIn(unsent)
        == c.d.b.emitted + SentOf(NextTry(c.server)) + SentIn(unsent[1..]);
    assert unsent[1..] == s.tries[|s.tries| - |unsent[1..]|..];
  }

  lemma ServerReads(s: Setup, c: Call, m: Move)
    requires ServerInv(s, c) && CanMove(s, c, m)
    requires m.ServerEnter? || m.ServerClose?
    ensures ServerInv(s, After(s, c, m))
  {
  }

  lemma ServerDelivers(s: Setup, c: Call)
    requires ServerInv(s, c) && CanMove(s, c, ServerDeliver) && c.d.b.buf.open && !Overflows(c.d.b.buf, c.d.ab[0])
    ensures ServerInv(s, After(s, c, ServerDeliver))
  {
  }

  lemma ServerGets(s: Setup, c: Call)
    requires ServerInv(s, c) && CanMove(s, c, ServerGet) && s.reply == SentIn(s.tries)
    ensures ServerInv(s, After(s, c, ServerGet))
  {
  }

  lemma ClientSends(s: Setup, c: Call, m: Move)
    requires ClientInv(s, c) && CanMove(s, c, m) && (m.SendRequest? || m.ClientEnter? || m.ClientTimeOut?)
    ensures ClientInv(s, After(s, c, m))
  {
  }

  lemma DeliveredIsPrefix(s: Setup, c: Call)
    requires c.d.ba != [] && CallInv(s, c)
    ensures !IsControl(c.d.ba[0]) ==> c.d.a.consumed + Queued(c.d.a.buf, c.d.ba[0]).queue <= s.reply
  {
    var a, b, e := c.d.a, c.d.b, c.d.ba[0];
    HeadOfLink(c.d.ba);
    if !IsControl(e) {
      MoveToQueue(a.consumed, a.buf.queue, e, Data(c.d.ba[1..]), a.dropped);
      assert b.emitted == (a.consumed + (a.buf.queue + [e])) + (Data(c.d.ba[1..]) + a.dropped);
      assert a.consumed + (a.buf.queue + [e]) <= b.emitted;
      assert b.emitted <= s.reply;
    }
  }

  lemma ClientDelivers(s: Setup, c: Call)
    requires InLanguage(s.reply) && ClientInv(s, c) && CanMove(s, c, ClientDeliver) && !Overflows(c.d.a.buf, c.d.ba[0])
    requires c.d.a.buf.open
    requires !IsControl(c.d.ba[0]) ==> c.d.a.consumed + Queued(c.d.a.buf, c.d.ba[0]).queue <= s.reply
    ensures ClientInv(s, After(s, c, ClientDeliver))
  {
    var e := c.d.ba[0];
    if e.name.STREAM_DONE? {
      TerminalIsLast(s.reply, c.d.a.consumed + Queued(c.d.a.buf, e).queue);
    }
  }

  lemma ReadOneMore(s: Setup, c: Call)
    requires ClientInv(s, c) && CanMove(s, c, ClientGet) && c.client.reader.Iterating?
    ensures var e := c.d.a.buf.queue[0];
            Consume(NEW_CALL, c.d.a.consumed + [e])
              == View(Resume(e), if e.name.STREAM? then c.yielded + [e.args] else c.yielded)
  {
    var e := c.d.a.buf.queue[0];
    ConsumeOneMore(NEW_CALL, c.d.a.consumed, e);
    assert [e][1..] == [];
  }

  lemma ClientGetsItem(s: Setup, c: Call)
    requires InLanguage(s.reply) && ClientInv(s, c) && CanMove(s, c, ClientGet) && c.client.reader.Iterating?
    requires c.d.a.buf.queue[0].name.STREAM?
    ensures ClientInv(s, After(s, c, ClientGet))
  {
    var a := c.d.a;
    ReadOneMore(s, c);
    assert a.consumed + a.buf.queue == (a.consumed + [a.buf.queue[0]]) + a.buf.queue[1..];
  }

  lemma ClientGetsLast(s: Setup, c: Call)
    requires InLanguage(s.reply) && ClientInv(s, c) && CanMove(s, c, ClientGet) && c.client.reader.Iterating?
    requires c.d.a.consumed + [c.d.a.buf.queue[0]] == s.reply && !c.d.a.buf.queue[0].name.STREAM?
    ensures ClientInv(s, After(s, c, ClientGet))
  {
    ReadOneMore(s, c);
  }

  lemma ClientGetsFirst(s: Setup, c: Call)
    requires ClientInv(s, c) && CanMove(s, c, ClientGet) && c.client.reader.Awaiting?
    ensures ClientInv(s, After(s, c, ClientGet))
  {
  }

  lemma ClientGetKeeps(s: Setup, c: Call)
    requires InLanguage(s.reply) && ClientInv(s, c) && CanMove(s, c, ClientGet)
    requires c.d.a.consumed + c.d.a.buf.queue <= s.reply
    ensures ClientInv(s, After(s, c, ClientGet))
  {
    var a := c.d.a;
    if c.client.reader.Awaiting? {
      ClientGetsFirst(s, c);
    } else if a.buf.queue[0].name.STREAM? {
      ClientGetsItem(s, c);
    } else {
      assert a.consumed + a.buf.queue == (a.consumed + [a.buf.queue[0]]) + a.buf.queue[1..];
      TerminalIsLast(s.reply, a.consumed + [a.buf.queue[0]]);
      ClientGetsLast(s, c);
    }
  }

  /** The client has read one event and asked for none: nothing else has come. */
  lemma FirstIsAlone(s: Setup, c: Call)
    requires CallInv(s, c) && c.client.Received?
    ensures c.d.a.buf.queue == []
  {
    var a := c.d.a;
    CreditLaws.EmittedWithinCredit(c.d);
    assert c.d.b.emitted == a.consumed + a.buf.queue + Data(c.d.ba) + a.dropped;
  }

  lemma ClientStarts(s: Setup, c: Call)
    requires InLanguage(s.reply) && ClientInv(s, c) && CanMove(s, c, ClientStart)
    requires c.d.a.consumed + c.d.a.buf.queue <= s.reply && c.d.a.buf.queue == []
    ensures ClientInv(s, After(s, c, ClientStart))
  {
    var e := c.client.first;
    assert [e] <= s.reply;
    SelectIsTheOnlyPattern(e, ReqStream);
    SelectIsTheOnlyPattern(e, ReqRep);
    assert Consume(NEW_CALL, [e]) == View(First(e), if e.name.STREAM? then [e.args] else []) by {
      assert [e][1..] == [];
    }
    if !e.name.STREAM? {
      TerminalIsLast(s.reply, [e]);
    }
  }

  lemma AdvanceKeepsFlow(c: Call, e: Event, r: Reader)
    requires Inv(c.d)
    ensures Inv(Advance(c, e, r).d)
  {
    ShutKeeps(c.d);
  }

  lemma StartKeepsFlow(s: Setup, c: Call)
    requires Inv(c.d) && CanMove(s, c, ClientStart)
    ensures Inv(After(s, c, ClientStart).d)
  {
    var e := c.client.first;
    if SelectFrom(PATTERNS, e) == Some(ReqStream) {
      QuietKeeps(c.d, Install(IS_STREAM_DONE));
      AdvanceKeepsFlow(c.(d := Installed(c.d)), e, First(e));
    } else {
      AdvanceKeepsFlow(c, e, First(e));
    }
  }

  lemma FlowOf(s: Setup, c: Call, m: Move)
    requires CanMove(s, c, m) && !m.ClientStart?
    ensures Flow(s, c, m).Some?
    ensures !m.ClientGet? && !m.ClientTimeOut? ==> After(s, c, m).d == Next(c.d, Flow(s, c, m).value)
    ensures m.ClientTimeOut? ==> After(s, c, m).d == Shut(Next(c.d, Flow(s, c, m).value))
  {
  }

  lemma MoveKeepsFlow(s: Setup, c: Call, m: Move)
    requires Inv(c.d) && CanMove(s, c, m)
    ensures Inv(After(s, c, m).d)
  {
    if m.ClientStart? {
      StartKeepsFlow(s, c);
    } else {
      FlowOf(s, c, m);
      var d' := Next(c.d, Flow(s, c, m).value);
      NextKeeps(c.d, Flow(s, c, m).value);
      if m.ClientGet? {
        var e := c.d.a.buf.queue[0];
        AdvanceKeepsFlow(c.(d := d'), e, Resume(e));
      } else if m.ClientTimeOut? {
        ShutKeeps(d');
      }
    }
  }

  lemma ServerReadsOn(s: Setup, c: Call, m: Move)
    requires Legal(s) && CallInv(s, c) && CanMove(s, c, m)
    requires m.ServerDeliver? || m.ServerEnter? || m.ServerGet? || m.ServerClose?
    ensures ServerInv(s, After(s, c, m))
  {
    if m.ServerDeliver? {
      FlipInv(c.d);
      NeverOverflows(Flip(c.d));
      ServerDelivers(s, c);
    } else if m.ServerGet? {
      ServerGets(s, c);
    } else {
      ServerReads(s, c, m);
    }
  }

  lemma MoveKeeps(s: Setup, c: Call, m: Move)
    requires Legal(s) && CallInv(s, c) && CanMove(s, c, m)
    ensures CallInv(s, After(s, c, m))
  {
    MoveKeepsFlow(s, c, m);
    if !OfClient(m) {
      if m.ServerEmit? || m.ServerWake? || m.ServerBlock? { ServerReplies(s, c, m); } else { ServerReadsOn(s, c, m); }
      ServerLeavesClient(s, c, m);
    } else {
      ClientLeavesServer(s, c, m);
      ConsumedIsPrefix(s, c);
      match m {
        case ClientDeliver =>
          NeverOverflows(c.d);
          DeliveredIsPrefix(s, c);
          ClientDelivers(s, c);
        case ClientGet => ClientGetKeeps(s, c);
        case ClientStart => FirstIsAlone(s, c); ClientStarts(s, c);
        case _ => ClientSends(s, c, m);
      }
    }
  }

  lemma {:induction false} RunKeeps(s: Setup, c: Call, moves: seq<Move>, c': Call)
    requires Legal(s) && CallInv(s, c) && Run(s, c, moves, c')
    ensures CallInv(s, c')
    decreases |moves|
  {
    if moves != [] {
      MoveKeeps(s, c, moves[0]);
      RunKeeps(s, After(s, c, moves[0]), moves[1..], c');
    }
  }

  lemma BeginInv(s: Setup)
    requires Legal(s)
    ensures CallInv(s, Begin(s))
  {
    StartInv(s.slots, SERVER_QUEUE);
  }

  // ---- what the client sees, in every reachable state -----------------------------------

  ghost predicate Reachable(s: Setup, c: Call) {
    exists moves :: Run(s, Begin(s), moves, c)
  }

  lemma ReachableInv(s: Setup, c: Call)
    requires Legal(s) && Reachable(s, c)
    ensures CallInv(s, c)
  {
    var moves :| Run(s, Begin(s), moves, c);
    BeginInv(s);
    RunKeeps(s, Begin(s), moves, c);
  }

  lemma {:induction false} ArgsOfPrefix(s: seq<Event>, t: seq<Event>)
    requires s <= t
    ensures ArgsOf(s) <= ArgsOf(t)
  {
    assert t == s + t[|s|..];
    ArgsConcat(s, t[|s|..]);
  }

  lemma YieldedIsPrefix(reply: seq<Event>, consumed: seq<Event>, yielded: seq<Args>)
    requires InLanguage(reply) && consumed <= reply && Consume(NEW_CALL, consumed) == View(Iterating, yielded)
    ensures yielded <= Meaning(reply).yielded
  {
    IteratingMeansStream(consumed, yielded);
    ConsumeStream(NEW_CALL, consumed);
    if AllStream(reply) {
      ArgsOfPrefix(consumed, reply);
    } else {
      var init, last := reply[..|reply| - 1], reply[|reply| - 1];
      assert reply == init + [last] && last in reply;
      assert consumed == reply ==> last in consumed;
      ArgsOfPrefix(consumed, init);
    }
  }

  lemma IteratorSeesPrefix(s: Setup, c: Call)
    requires Legal(s) && CallInv(s, c) && c.client == Listening(Iterating)
    ensures c.yielded <= Meaning(s.reply).yielded
  {
    ConsumedIsPrefix(s, c);
    assert c.d.a.consumed <= s.reply;
    YieldedIsPrefix(s.reply, c.d.a.consumed, c.yielded);
  }

  /** Under every interleaving: what the iterator has yielded is a prefix of the values
      the server streamed, and a call that ended did so with all of them and with the
      outcome the reply means. */
  lemma ClientSeesTheReply(s: Setup, c: Call)
    requires Legal(s) && Reachable(s, c)
    ensures c.yielded <= Meaning(s.reply).yielded
    ensures c.client.Finished? ==> View(Done(c.client.outcome), c.yielded) == Meaning(s.reply)
  {
    ReachableInv(s, c);
    if c.client.Finished? {
      ConsumeIsMeaning(s.reply);
    } else if c.client == Listening(Iterating) {
      IteratorSeesPrefix(s, c);
    } else {
      assert c.yielded == [];
    }
  }

  /** The one event the server consumes is the request that was sent. */
  lemma ServerSeesTheRequest(s: Setup, c: Call)
    requires Legal(s) && Reachable(s, c) && !c.server.Idle?
    ensures c.d.b.consumed == [s.request]
  {
    ReachableInv(s, c);
    assert c.d.a.emitted == c.d.b.consumed + (c.d.b.buf.queue + Data(c.d.ab) + c.d.b.dropped);
  }

  /** A reader that is still iterating has read stream items only. */
  lemma {:induction false} IteratingMeansStream(s: seq<Event>, yielded: seq<Args>)
    requires Consume(NEW_CALL, s) == View(Iterating, yielded)
    ensures AllStream(s)
    decreases |s|
  {
    if s != [] {
      var init, last := s[..|s| - 1], s[|s| - 1];
      assert s == init + [last];
      ConsumeOneMore(NEW_CALL, init, last);
      assert [last][1..] == [];
      SelectIsTheOnlyPattern(last, ReqStream);
      SelectIsTheOnlyPattern(last, ReqRep);
      var before := Consume(NEW_CALL, init);
      if before.reader.Iterating? {
        IteratingMeansStream(init, before.yielded);
      } else if init != [] {
        NotAwaitingAfter(init);
      }
    }
  }

  lemma NotAwaitingAfter(s: seq<Event>)
    requires s != []
    ensures !Consume(NEW_CALL, s).reader.Awaiting?
  {
    var init, last := s[..|s| - 1], s[|s| - 1];
    assert s == init + [last];
    ConsumeOneMore(NEW_CALL, init, last);
    assert [last][1..] == [];
  }

  // ---- the early close --------------------------------------------------------------------

  /** A STREAM_DONE that follows a STREAM is only ever queued after `on_close_if` is set. */
  lemma DoneIsQueuedAfterInstall(s: Setup, c: Call)
    requires Legal(s) && Reachable(s, c) && |c.d.a.consumed + c.d.a.buf.queue| >= 2
    ensures c.d.a.buf.onCloseIf == Some(IS_STREAM_DONE)
    ensures !c.d.a.buf.open ==> c.d.a.consumed + c.d.a.buf.queue == s.reply
  {
    ReachableInv(s, c);
    CreditLaws.EmittedWithinCredit(c.d);
    var a := c.d.a;
    assert |c.d.b.emitted| >= |a.consumed + a.buf.queue|;
  }

  /** A STREAM_DONE that follows a STREAM closes the channel as soon as it is queued, whatever
      is queued before it: `on_close_if` never misses it. */
  lemma DoneClosesTheChannel(s: Setup, c: Call)
    requires Legal(s) && Reachable(s, c) && |c.d.a.consumed + c.d.a.buf.queue| >= 2
    ensures var got := c.d.a.consumed + c.d.a.buf.queue; got[|got| - 1].name.STREAM_DONE? ==> !c.d.a.buf.open
  {
    ReachableInv(s, c);
    CreditLaws.EmittedWithinCredit(c.d);
    var a := c.d.a;
    assert |c.d.b.emitted| >= |a.consumed + a.buf.queue|;
    if a.buf.open && c.client == Listening(Iterating) {
      IteratingMeansStream(a.consumed, c.yielded);
      var got := a.consumed + a.buf.queue;
      var last := got[|got| - 1];
      assert if a.buf.queue == [] then last in a.consumed else last in a.buf.queue;
    }
  }

  /** After the early close, the iterator never calls `recv` on an empty queue, and no
      `recv` sends a grant. */
  lemma ClosedIteratorHasEvents(s: Setup, c: Call)
    requires Legal(s) && Reachable(s, c) && !c.d.a.buf.open && c.client == Listening(Iterating)
    ensures c.d.a.buf.queue != [] && !Grants(c.d.a.buf)
    ensures c.d.a.buf.queue[|c.d.a.buf.queue| - 1].name.STREAM_DONE?
  {
    ReachableInv(s, c);
    var a := c.d.a;
    IteratingMeansStream(a.consumed, c.yielded);
  }

  // ---- the call ends -------------------------------------------------------------------------

  /** Grants, and any other event that is not data, weigh 1; data weighs 5. */
  function LinkWeight(s: seq<Event>): nat {
    4 * |Data(s)| + |s|
  }

  function ClientWeight(c: Call): nat {
    match c.client
    case Calling => 9
    case Listening(_) => if c.d.a.inRecv then 1 else 3
    case Received(_) => 4
    case Finished(_) => 0
    case Abandoned => 0
  }

  function ServerWeight(s: Setup, c: Call): nat {
    match c.server
    case Idle => 7 * |s.tries| + (if c.d.b.inRecv then 4 else 5)
    case Replying(unsent) => 7 * |unsent| + (if c.d.b.waiting then 1 else 2)
    case Gone => 0
  }

  function FlowWeight(d: Duplex): nat {
    LinkWeight(d.ab) + LinkWeight(d.ba) + 4 * |d.a.buf.queue| + 4 * |d.b.buf.queue|
  }

  /** What is left to do in the call. */
  function Weight(s: Setup, c: Call): nat {
    FlowWeight(c.d) + ClientWeight(c) + ServerWeight(s, c)
  }

  lemma LinkWeightHead(s: seq<Event>)
    requires s != []
    ensures LinkWeight(s) == LinkWeight(s[1..]) + (if IsControl(s[0]) then 1 else 5)
  {
    HeadOfLink(s);
  }

  lemma LinkWeightAppend(s: seq<Event>, e: Event)
    ensures LinkWeight(s + [e]) == LinkWeight(s) + (if IsControl(e) then 1 else 5)
  {
    DataAppend(s, e);
  }

  lemma FlowOfSend(d: Duplex, e: Event, sent: bool)
    requires !IsControl(e)
    ensures FlowWeight(Send(d, e, sent)) <= FlowWeight(d) + 5
  {
    var d' := Send(d, e, sent);
    LinkWeightAppend(d.ab, e);
    SendFrame(d, e, sent);
    assert LinkWeight(d'.ab) <= LinkWeight(d.ab) + 5;
    assert d'.a.buf.queue == d.a.buf.queue && d'.b.buf.queue == d.b.buf.queue;
  }

  lemma FlowOfEnter(d: Duplex, h: Event, sent: bool)
    ensures FlowWeight(EnterRecv(d, h, sent)) <= FlowWeight(d) + 1
  {
    LinkWeightAppend(d.ab, GrantEvent(h, GrantSize(d.a.buf)));
  }

  lemma FlowOfShut(d: Duplex)
    ensures FlowWeight(Shut(d)) <= FlowWeight(d)
  {
    assert LinkWeight([]) == 0;
  }

  predicate SameReaders(d: Duplex, d': Duplex) {
    && d'.a.inRecv == d.a.inRecv && d'.a.waiting == d.a.waiting
    && d'.b.inRecv == d.b.inRecv && d'.b.waiting == d.b.waiting
  }

  lemma LessFlowIsLess(s: Setup, c: Call, d': Duplex)
    requires FlowWeight(d') < FlowWeight(c.d) && SameReaders(c.d, d')
    ensures Weight(s, c.(d := d')) < Weight(s, c)
  {
  }

  lemma FlowOfReceive(d: Duplex)
    requires d.ba != [] && GoodLink(d.ba)
    ensures FlowWeight(Receive(d)) < FlowWeight(d)
    ensures FlowWeight(Flip(Receive(d))) < FlowWeight(Flip(d))
    ensures SameReaders(d, Receive(d))
  {
    LinkWeightHead(d.ba);
    assert d.ba[0] in d.ba;
    var rest := d.(ba := d.ba[1..]);
    FlowOfShut(rest.(a := d.a.(buf := Queued(d.a.buf, d.ba[0]))));
  }

  lemma ServerEmitShrinks(s: Setup, c: Call, m: Move)
    requires ServerInv(s, c) && CanMove(s, c, m) && (m.ServerEmit? || m.ServerWake?)
    ensures Weight(s, After(s, c, m)) < Weight(s, c)
  {
    var t, f := NextTry(c.server), Flip(c.d);
    FlowOfSend(f, t.event, t.raised.None?);
    SendFrame(f, t.event, t.raised.None?);
    assert After(s, c, m) == c.(d := Flip(Send(f, t.event, t.raised.None?)), server := Replying(c.server.unsent[1..]));
  }

  lemma ServerEnterShrinks(s: Setup, c: Call, h: Event)
    requires ServerInv(s, c) && CanMove(s, c, ServerEnter(h))
    ensures Weight(s, After(s, c, ServerEnter(h))) < Weight(s, c)
  {
    var d' := Next(c.d, Label(false, Enter(h, true)));
    assert !Grants(c.d.b.buf);
    assert d'.ab == c.d.ab && d'.ba == c.d.ba;
  }

  lemma ServerReadShrinks(s: Setup, c: Call, m: Move)
    requires CanMove(s, c, m) && (m.ServerGet? || m.ServerBlock?)
    ensures Weight(s, After(s, c, m)) < Weight(s, c)
  {
    var d' := Next(c.d, Flow(s, c, m).value);
    assert d'.ab == c.d.ab && d'.ba == c.d.ba;
  }

  lemma ServerCloseShrinks(s: Setup, c: Call)
    requires CanMove(s, c, ServerClose)
    ensures Weight(s, After(s, c, ServerClose)) < Weight(s, c)
  {
    FlowOfShut(Flip(c.d));
  }

  lemma ServerDeliverShrinks(s: Setup, c: Call)
    requires GoodLink(c.d.ab) && CanMove(s, c, ServerDeliver)
    ensures Weight(s, After(s, c, ServerDeliver)) < Weight(s, c)
  {
    FlowOf(s, c, ServerDeliver);
    FlowOfReceive(Flip(c.d));
    LessFlowIsLess(s, c, Flip(Receive(Flip(c.d))));
  }

  lemma ClientDeliverShrinks(s: Setup, c: Call)
    requires GoodLink(c.d.ba) && CanMove(s, c, ClientDeliver)
    ensures Weight(s, After(s, c, ClientDeliver)) < Weight(s, c)
  {
    FlowOfReceive(c.d);
    LessFlowIsLess(s, c, Receive(c.d));
  }

  lemma ClientSendShrinks(s: Setup, c: Call)
    requires CanMove(s, c, SendRequest)
    ensures Weight(s, After(s, c, SendRequest)) < Weight(s, c)
  {
    FlowOfSend(c.d, s.request, true);
    SendFrame(c.d, s.request, true);
    assert After(s, c, SendRequest) == c.(d := Send(c.d, s.request, true), client := Listening(Awaiting));
  }

  lemma ClientEnterShrinks(s: Setup, c: Call, h: Event)
    requires CanMove(s, c, ClientEnter(h))
    ensures Weight(s, After(s, c, ClientEnter(h))) < Weight(s, c)
  {
    FlowOfEnter(c.d, h, true);
  }

  lemma ClientTimeOutShrinks(s: Setup, c: Call)
    requires CanMove(s, c, ClientTimeOut)
    ensures Weight(s, After(s, c, ClientTimeOut)) < Weight(s, c)
  {
    FlowOfShut(Next(c.d, Label(true, TimeOut)));
  }

  lemma AdvanceShrinks(s: Setup, c: Call, e: Event, r: Reader)
    requires !r.Awaiting? && !c.d.a.inRecv
    ensures FlowWeight(Advance(c, e, r).d) <= FlowWeight(c.d) && ClientWeight(Advance(c, e, r)) <= 3
    ensures ServerWeight(s, Advance(c, e, r)) == ServerWeight(s, c)
  {
    FlowOfShut(c.d);
  }

  lemma FlowOfGet(d: Duplex)
    requires d.a.inRecv && d.a.buf.queue != []
    ensures FlowWeight(TakeOne(d)) == FlowWeight(d) - 4
    ensures !TakeOne(d).a.inRecv && TakeOne(d).b == d.b
  {
  }

  lemma ClientGetShrinks(s: Setup, c: Call)
    requires ClientInv(s, c) && CanMove(s, c, ClientGet)
    ensures Weight(s, After(s, c, ClientGet)) < Weight(s, c)
  {
    var e, d' := c.d.a.buf.queue[0], Next(c.d, Label(true, Get));
    FlowOfGet(c.d);
    AdvanceShrinks(s, c.(d := d'), e, Resume(e));
  }

  lemma ClientStartShrinks(s: Setup, c: Call)
    requires ClientInv(s, c) && CanMove(s, c, ClientStart)
    ensures Weight(s, After(s, c, ClientStart)) < Weight(s, c)
  {
    var e := c.client.first;
    AdvanceShrinks(s, if SelectFrom(PATTERNS, e) == Some(ReqStream) then c.(d := Installed(c.d)) else c, e, First(e));
  }

  lemma MoveShrinks(s: Setup, c: Call, m: Move)
    requires CallInv(s, c) && CanMove(s, c, m)
    ensures Weight(s, After(s, c, m)) < Weight(s, c)
  {
    match m
    case SendRequest => ClientSendShrinks(s, c);
    case ClientDeliver => ClientDeliverShrinks(s, c);
    case ClientEnter(h) => ClientEnterShrinks(s, c, h);
    case ClientGet => ClientGetShrinks(s, c);
    case ClientStart => ClientStartShrinks(s, c);
    case ClientTimeOut => ClientTimeOutShrinks(s, c);
    case ServerDeliver => ServerDeliverShrinks(s, c);
    case ServerEmit => ServerEmitShrinks(s, c, m);
    case ServerWake => ServerEmitShrinks(s, c, m);
    case ServerClose => ServerCloseShrinks(s, c);
    case ServerEnter(h) => ServerEnterShrinks(s, c, h);
    case _ => ServerReadShrinks(s, c, m);
  }

  lemma {:induction false} RunIsBounded(s: Setup, c: Call, moves: seq<Move>, c': Call)
    requires Legal(s) && CallInv(s, c) && Run(s, c, moves, c')
    ensures |moves| + Weight(s, c') <= Weight(s, c)
    decreases |moves|
  {
    if moves != [] {
      MoveKeeps(s, c, moves[0]);
      MoveShrinks(s, c, moves[0]);
      RunIsBounded(s, After(s, c, moves[0]), moves[1..], c');
    }
  }

  /** Every schedule of a call whose server tries M emits is over after at most 7M + 14 moves. */
  lemma CallIsBounded(s: Setup, moves: seq<Move>, c: Call)
    requires Legal(s) && Run(s, Begin(s), moves, c)
    ensures |moves| <= 7 * |s.tries| + 14
  {
    BeginInv(s);
    RunIsBounded(s, Begin(s), moves, c);
  }

  // ---- and it never gets stuck before ------------------------------------------------------------

  /** A move that can happen while the client's call is open, other than its timeout. */
  function SomeMove(s: Setup, c: Call): Move {
    var a, b := c.d.a, c.d.b;
    if c.client.Calling? then SendRequest
    else if c.client.Received? then ClientStart
    else if !a.inRecv then ClientEnter(CreditLaws.Ping())
    else if a.buf.queue != [] then ClientGet
    else if c.d.ba != [] then ClientDeliver
    else if c.server.Idle? && !b.inRecv then ServerEnter(CreditLaws.Ping())
    else if c.server.Idle? && b.buf.queue != [] then ServerGet
    else if c.server.Idle? then ServerDeliver
    else if c.server == Replying([]) then ServerClose
    else if !b.waiting && b.buf.slots != 0 then ServerEmit
    else if !b.waiting then ServerBlock
    else if b.buf.canRecv then ServerWake
    else ServerDeliver
  }

  /** The client is never left reading a closed channel with an empty queue. */
  lemma ReaderIsOpenOrHasEvents(s: Setup, c: Call)
    requires Legal(s) && Complete(s.reply) && CallInv(s, c) && c.client.Listening? && c.d.a.buf.queue == []
    ensures c.d.a.buf.open && c.d.a.consumed != s.reply
  {
    var a, last := c.d.a, s.reply[|s.reply| - 1];
    if c.client == Listening(Iterating) {
      IteratingMeansStream(a.consumed, c.yielded);
      assert a.consumed == s.reply ==> last in a.consumed;
      assert a.consumed + a.buf.queue == a.consumed;
    }
  }

  /** The reply ends, and there are enough slots for it: one is enough for one event. */
  predicate CanEnd(s: Setup) {
    Complete(s.reply) && (s.slots >= 2 || |s.reply| == 1)
  }

  lemma ReaderHasReserved(s: Setup, c: Call)
    requires Legal(s) && CanEnd(s) && CallInv(s, c) && c.client.Listening? && c.d.a.inRecv
    requires c.d.a.buf.queue == []
    ensures c.d.a.buf.reserved >= 1
  {
    var a := c.d.a;
    ReaderIsOpenOrHasEvents(s, c);
    if c.client == Listening(Iterating) && s.slots < 2 {
      ConsumedIsPrefix(s, c);
      assert a.consumed <= s.reply;
    }
  }

  lemma ServerHasMore(s: Setup, c: Call)
    requires Legal(s) && CanEnd(s) && CallInv(s, c) && c.client.Listening? && c.d.a.buf.queue == [] && c.d.ba == []
    ensures !c.server.Gone?
    ensures c.server.Idle? && c.d.b.buf.queue == [] ==> c.d.ab != []
    ensures c.d.b.waiting && !c.d.b.buf.canRecv && c.d.a.inRecv ==> c.d.ab != []
  {
    var a, b := c.d.a, c.d.b;
    ReaderIsOpenOrHasEvents(s, c);
    if a.inRecv { ReaderHasReserved(s, c); }
    assert Data([]) == [] && CreditIn([]) == 0;
    assert b.emitted == a.consumed + a.buf.queue + Data(c.d.ba) + a.dropped == a.consumed;
  }

  lemma ClientCanRead(s: Setup, c: Call)
    requires Inv(c.d) && ClientInv(s, c) && !c.client.Finished? && !c.client.Abandoned?
    requires !c.client.Listening? || !c.d.a.inRecv || c.d.a.buf.queue != [] || c.d.ba != []
    requires !IsControl(s.request)
    requires c.client.Listening? && c.d.a.buf.queue == [] && c.d.ba != [] ==> c.d.a.buf.open
    ensures CanMove(s, c, SomeMove(s, c)) && !SomeMove(s, c).ClientTimeOut?
  {
  }

  lemma ServerCanGoOn(s: Setup, c: Call)
    requires Inv(c.d) && ServerInv(s, c) && c.client.Listening? && c.d.a.inRecv && c.d.a.buf.queue == [] && c.d.ba == []
    requires forall t :: t in s.tries ==> !IsControl(t.event)
    requires !c.server.Gone?
    requires c.server.Idle? && c.d.b.buf.queue == [] ==> c.d.ab != []
    requires c.d.b.waiting && !c.d.b.buf.canRecv ==> c.d.ab != []
    ensures CanMove(s, c, SomeMove(s, c)) && !SomeMove(s, c).ClientTimeOut?
  {
    if Unsent(c.server) {
      assert NextTry(c.server) == s.tries[|s.tries| - |c.server.unsent|];
    }
  }

  /** Until the call is finished or has timed out, some move other than the timeout is
      possible: neither side can be left waiting for the other. */
  lemma CallNeverSticks(s: Setup, c: Call)
    requires Legal(s) && CanEnd(s) && CallInv(s, c) && !c.client.Finished? && !c.client.Abandoned?
    ensures CanMove(s, c, SomeMove(s, c)) && !SomeMove(s, c).ClientTimeOut?
  {
    if c.client.Listening? && c.d.a.buf.queue == [] {
      ReaderIsOpenOrHasEvents(s, c);
    }
    if c.client.Listening? && c.d.a.inRecv && c.d.a.buf.queue == [] && c.d.ba == [] {
      ServerHasMore(s, c);
      ServerCanGoOn(s, c);
    } else {
      ClientCanRead(s, c);
    }
  }

  /** So a schedule that cannot be continued has finished the call, with the values and the
      outcome of the reply, unless the first `recv` timed out. */
  lemma CallCompletes(s: Setup, c: Call)
    requires Legal(s) && CanEnd(s) && Reachable(s, c) && forall m :: !CanMove(s, c, m)
    ensures c.client.Abandoned? || (c.client.Finished? && View(Done(c.client.outcome), c.yielded) == Meaning(s.reply))
  {
    ReachableInv(s, c);
    if !c.client.Finished? && !c.client.Abandoned? {
      CallNeverSticks(s, c);
    }
    ClientSeesTheReply(s, c);
  }

  ghost predicate CanFinishFrom(s: Setup, c: Call) {
    exists moves, c' :: Run(s, c, moves, c') && c'.client.Finished?
  }

  lemma OnlyTimeOutAbandons(s: Setup, c: Call, m: Move)
    requires CanMove(s, c, m) && !m.ClientTimeOut? && !c.client.Abandoned?
    ensures !After(s, c, m).client.Abandoned?
  {
  }

  lemma FinishesAfter(s: Setup, c: Call, m: Move)
    requires CanMove(s, c, m) && CanFinishFrom(s, After(s, c, m))
    ensures CanFinishFrom(s, c)
  {
    var moves, c' :| Run(s, After(s, c, m), moves, c') && c'.client.Finished?;
    assert ([m] + moves)[1..] == moves;
    assert Run(s, c, [m] + moves, c');
  }

  lemma {:induction false} FinishesFrom(s: Setup, c: Call)
    requires Legal(s) && CanEnd(s) && CallInv(s, c) && !c.client.Abandoned?
    ensures CanFinishFrom(s, c)
    decreases Weight(s, c)
  {
    if c.client.Finished? {
      assert Run(s, c, [], c);
    } else {
      CallNeverSticks(s, c);
      var m := SomeMove(s, c);
      MoveKeeps(s, c, m);
      MoveShrinks(s, c, m);
      OnlyTimeOutAbandons(s, c, m);
      FinishesFrom(s, After(s, c, m));
      FinishesAfter(s, c, m);
    }
  }

  lemma FinishedCouldEnd(s: Setup, c: Call)
    requires Legal(s) && CallInv(s, c) && c.client.Finished?
    ensures CanEnd(s)
  {
    assert c.d.a.consumed == s.reply && Consume(NEW_CALL, s.reply).reader.Done?;
    if AllStream(s.reply) { ConsumeStream(NEW_CALL, s.reply); }
    assert |s.reply| <= |c.d.b.emitted|;
    CreditLaws.EmittedWithinCredit(c.d);
  }

  /** A call can finish exactly when the server's reply ends, and the client offers two
      slots or more or the reply is a single event: with one slot no grant is ever sent, and
      a stream stops after its first event. */
  lemma FinishesIffReplyEnds(s: Setup)
    requires Legal(s)
    ensures CanFinishFrom(s, Begin(s)) <==> CanEnd(s)
  {
    BeginInv(s);
    if CanEnd(s) {
      FinishesFrom(s, Begin(s));
    } else if CanFinishFrom(s, Begin(s)) {
      var moves, c :| Run(s, Begin(s), moves, c) && c.client.Finished?;
      RunKeeps(s, Begin(s), moves, c);
      FinishedCouldEnd(s, c);
    }
  }

  // ---- end to end ------------------------------------------------------------------------------------

  /** The call of a request that a server task answers. */
  function Answering(request: Event, task: Task, slots: int): Setup {
    Setup(request, AsyncTask(task).tries, AsyncTask(task).sent, slots)
  }

  lemma AnsweringIsLegal(request: Event, task: Task, slots: int)
    requires !IsControl(request) && slots != 0
    ensures Legal(Answering(request, task, slots))
  {
    RepliesInLanguage(task);
    SentIsWhatDidNotRaise(task);
  }

  /** Whatever the function does, and also when the task ends silently: what the client has
      got so far are the first items the function produced, in order. */
  lemma ItemsEndToEnd(request: Event, task: Task, slots: int, c: Call)
    requires !IsControl(request) && slots != 0
    requires Reachable(Answering(request, task, slots), c)
    ensures c.yielded <= ValArgs(ItemsOf(task))
  {
    AnsweringIsLegal(request, task, slots);
    ClientSeesTheReply(Answering(request, task, slots), c);
    ReplyCarriesItems(task);
  }

  /** A streamed call in which nothing raises yields, when it ends, exactly the items the
      server function produced. */
  lemma StreamEndToEnd(request: Event, task: Task, slots: int, c: Call)
    requires !IsControl(request) && slots != 0
    requires task.functor.Some? && task.functor.value.Stream? && NothingRaises(task)
    requires Reachable(Answering(request, task, slots), c)
    ensures c.yielded <= ValArgs(task.functor.value.items)
    ensures c.client.Finished? ==> c.client.outcome == Exhausted
    ensures c.client.Finished? ==> c.yielded == ValArgs(task.functor.value.items)
  {
    var s := Answering(request, task, slots);
    AnsweringIsLegal(request, task, slots);
    ClientSeesTheReply(s, c);
    StreamSeenAsProduced(task);
    ConsumeIsMeaning(s.reply);
  }

  /** A call of a function that returned, if it ends, returns its value. */
  lemma ValueEndToEnd(request: Event, task: Task, slots: int, c: Call)
    requires !IsControl(request) && slots != 0
    requires task.functor.Some? && task.functor.value.Rep? && NothingRaises(task)
    requires Reachable(Answering(request, task, slots), c)
    ensures c.yielded == []
    ensures c.client.Finished? ==> c.client.outcome == Returned(task.functor.value.value)
  {
    var s := Answering(request, task, slots);
    AnsweringIsLegal(request, task, slots);
    ClientSeesTheReply(s, c);
    ValueSeenAsReturned(task);
    ConsumeIsMeaning(s.reply);
  }

  /** A call in which something raises, if it ends, raises the first exception as a remote
      error, after exactly the items that were handed out before it. */
  lemma ErrorEndToEnd(request: Event, task: Task, slots: int, c: Call, k: nat)
    requires !IsControl(request) && slots != 0
    requires StampsV3(task) && !EndsSilently(task) && RaisesFirst(task, k) && Points(task)[k].value.Plain?
    requires Reachable(Answering(request, task, slots), c)
    ensures c.yielded <= ValArgs(ItemsBefore(task, k))
    ensures c.client.Finished? ==> c.client.outcome == AsSeen(Points(task)[k].value.parts)
    ensures c.client.Finished? ==> c.yielded == ValArgs(ItemsBefore(task, k))
  {
    var s := Answering(request, task, slots);
    AnsweringIsLegal(request, task, slots);
    ClientSeesTheReply(s, c);
    ErrorSeenAsRaised(task, k);
    ConsumeIsMeaning(s.reply);
  }

  // -- a reply of one event

  /** A server that waits for credit has emitted something. */
  lemma BlocksOnlyAfterAnEmit(s: Setup, c: Call)
    requires Legal(s) && Reachable(s, c) && CanMove(s, c, ServerBlock)
    ensures c.d.b.emitted != [] && |c.server.unsent| <= |s.tries|
    ensures c.d.b.emitted == SentIn(s.tries[..|s.tries| - |c.server.unsent|])
  {
    ReachableInv(s, c);
    var i := |s.tries| - |c.server.unsent|;
    assert s.tries == s.tries[..i] + s.tries[i..];
    SentInConcat(s.tries[..i], s.tries[i..]);
    SameStart(c.d.b.emitted, SentIn(s.tries[..i]), SentIn(c.server.unsent));
  }

  lemma SameStart(x: seq<Event>, y: seq<Event>, z: seq<Event>)
    requires x + z == y + z
    ensures x == y
  {
    assert |x| == |y|;
    assert x == (x + z)[..|x|] && y == (y + z)[..|y|];
  }

  /** The server of a request/reply function never waits for credit, in no schedule: neither
      with its OK, nor with its ERR, nor with the ERR after an OK that raised, whose slot is
      put back. */
  lemma RepNeverWaits(request: Event, task: Task, slots: int, c: Call)
    requires !IsControl(request) && slots != 0
    requires task.functor.None? || task.functor.value.Rep?
    requires Reachable(Answering(request, task, slots), c)
    ensures !CanMove(Answering(request, task, slots), c, ServerBlock)
  {
    var s := Answering(request, task, slots);
    AnsweringIsLegal(request, task, slots);
    if CanMove(s, c, ServerBlock) {
      BlocksOnlyAfterAnEmit(s, c);
      RepSendsAtMostOnce(task);
      assert false;
    }
  }
}
