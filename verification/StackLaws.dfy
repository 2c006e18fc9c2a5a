/** More of what holds of the whole stack, and runs that show where it does not: when a
    request can be lost, when the dispatcher can be blocked for good, and that nothing else
    can keep a waiting emitter and a waiting reader from going on. */
module StackLaws {
  import opened Protocol
  import opened Buffering
  import Credit
  import CreditLaws
  import opened Multiplex
  import opened Stack

  lemma {:induction false} RunSnoc(s0: System, run: seq<Label>, s: System, l: Label)
    requires Run(s0, run, s) && Can(s, l)
    ensures Run(s0, run + [l], Next(s, l))
    decreases |run|
  {
    if run == [] {
      assert Run(Next(s, l), [], Next(s, l));
      assert ([] + [l])[1..] == [];
    } else {
      RunSnoc(Next(s0, run[0]), run[1..], s, l);
      assert (run + [l])[1..] == run[1..] + [l];
    }
  }

  lemma Step(s: System, l: Label) returns (s': System)
    requires Reachable(s) && Can(s, l)
    ensures s' == Next(s, l) && Reachable(s')
    ensures At(s', l.left) == Here(At(s, l.left), l.action)
    ensures At(s', !l.left) == Receiving(At(s, !l.left), Sent(At(s, l.left), l.action))
  {
    var run :| Run(INITIAL, run, s);
    RunSnoc(INITIAL, run, s, l);
    s' := Next(s, l);
  }

  // ---- a dispatcher that is blocked for good ---------------------------------------------

  const CALL: Id := "c"
  const REQUEST := Event(Method("f"), Nothing, CALL, None, Some(3))
  const RESPONSE := Event(ZpcHb, Num(0), "b", Some(CALL), Some(3))

  /** The client's end before its call, after the request is sent, in `recv`, and closed. */
  const OPENED := NewEndpoint([], SERVER_QUEUE, false)
  const CALLED := OPENED.(called := true, buf := OPENED.buf.(slots := 0))
  const READING := CALLED.(inRecv := true, buf := CALLED.buf.(verbose := true))
  const SPAWNED := NewEndpoint([REQUEST], SERVER_QUEUE, true)

  lemma ChannelIsOpen() returns (s: System)
    ensures Reachable(s) && s == System(EmptyMux(false).(chans := map[CALL := OPENED]), EmptyMux(true))
  {
    assert Run(INITIAL, [], INITIAL);
    s := Step(INITIAL, Label(true, Open(CALL, SERVER_QUEUE)));
    NothingSent(INITIAL.r, CALL);
    assert map[][CALL := OPENED] == map[CALL := OPENED];
  }

  lemma ClientActs()
    ensures Act(OPENED, Credit.Emit(REQUEST, true)) == CALLED && OnLink(OPENED, Credit.Emit(REQUEST, true)) == [REQUEST]
    ensures Act(CALLED, Credit.Enter(RESPONSE, true)) == READING && OnLink(CALLED, Credit.Enter(RESPONSE, true)) == []
    ensures map[CALL := OPENED][CALL := CALLED] == map[CALL := CALLED]
    ensures map[CALL := CALLED][CALL := READING] == map[CALL := READING]
  {
  }

  lemma RequestSent() returns (s: System)
    ensures Reachable(s)
    ensures s == System(EmptyMux(false).(chans := map[CALL := CALLED]), EmptyMux(true).(inbox := [REQUEST]))
  {
    ClientActs();
    s := ChannelIsOpen();
    s := Step(s, Label(true, App(CALL, Credit.Emit(REQUEST, true))));
    assert [] + [REQUEST] == [REQUEST];
  }

  lemma ClientReads() returns (s: System)
    ensures Reachable(s)
    ensures s == System(EmptyMux(false).(chans := map[CALL := READING]), EmptyMux(true).(inbox := [REQUEST]))
  {
    ClientActs();
    s := RequestSent();
    NothingSent(s.r, CALL);
    s := Step(s, Label(true, App(CALL, Credit.Enter(RESPONSE, true))));
  }

  lemma ServerSpawns() returns (s: System)
    ensures Reachable(s)
    ensures s.l == Reader([], [], []) && s.r == EmptyMux(true).(chans := map[CALL := SPAWNED])
  {
    s := ClientReads();
    NothingSent(s.l, CALL);
    s := Step(s, Label(false, Route));
    assert s.r == EmptyMux(true).(hand := [REQUEST]);
    s := Step(s, Label(false, Deposit));
    assert s.r == EmptyMux(true).(bqueue := [REQUEST]);
    s := Step(s, Label(false, TakeRequest));
    assert s.r == EmptyMux(true).(tasks := [REQUEST]);
    s := Step(s, Label(false, Spawn));
    assert s.r.chans == map[CALL := SPAWNED];
  }

  /** The server is slow, but its heartbeats come. */
  lemma HeartbeatsCome() returns (s: System)
    ensures Reachable(s)
    ensures s.l == Reader([], [], [RESPONSE, RESPONSE])
  {
    s := ServerSpawns();
    assert [] + [RESPONSE] == [RESPONSE] && [RESPONSE] + [RESPONSE] == [RESPONSE, RESPONSE];
    s := Step(s, Label(false, Pulse(CALL, RESPONSE)));
    s := Step(s, Label(false, Pulse(CALL, RESPONSE)));
  }

  function Reader(queue: seq<Event>, hand: seq<Event>, inbox: seq<Event>): Mux {
    Mux(false, inbox, hand, [], [], map[CALL := READING.(queue := queue)])
  }

  lemma ReaderRoutes(queue: seq<Event>, inbox: seq<Event>)
    requires inbox != [] && inbox[0] == RESPONSE
    ensures CanDispatch(Reader(queue, [], inbox))
    ensures Dispatch(Reader(queue, [], inbox)) == Reader(queue, [RESPONSE], inbox[1..])
  {
  }

  lemma ReaderQueues(inbox: seq<Event>)
    ensures CanPut(Reader([], [RESPONSE], inbox))
    ensures Put(Reader([], [RESPONSE], inbox)) == Reader([RESPONSE], [], inbox)
  {
    assert READING.(queue := [] + [RESPONSE]) == READING.(queue := [RESPONSE]);
    var ep := READING.(queue := [RESPONSE]);
    assert map[CALL := READING.(queue := [])][CALL := ep] == map[CALL := ep];
  }

  lemma DispatcherWaits() returns (s: System)
    ensures Reachable(s) && s.l == Reader([RESPONSE], [RESPONSE], [])
  {
    s := HeartbeatsCome();
    ReaderRoutes([], [RESPONSE, RESPONSE]);
    s := Step(s, Label(true, Route));
    ReaderQueues([RESPONSE]);
    s := Step(s, Label(true, Deposit));
    ReaderRoutes([RESPONSE], [RESPONSE]);
    s := Step(s, Label(true, Route));
  }

  /** A client whose call times out, and so closes its channel, while two heartbeats of the
      server are on their way up: a reachable state that no other step gets the dispatcher
      out of. */
  lemma WedgedIsReachable() returns (s: System)
    ensures Reachable(s) && Stack.Blocked(s.l) && Wedged(s.l, CALL) && !CanRelease(s, true, CALL)
    ensures s.l.chans[CALL].buf.verbose && !s.l.chans[CALL].inRecv && s.l.chans[CALL].buf.queue == []
  {
    s := DispatcherWaits();
    s := Step(s, Label(true, App(CALL, Credit.Close)));
    s := Step(s, Label(true, App(CALL, Credit.TimeOut)));
    StackSimulates(s);
    WedgedIsNotReleased(s, true, CALL);
  }

  // ---- a request that is lost ---------------------------------------------------------------

  /** A run in which a heartbeat may be the first event of a channel. */
  ghost predicate AnyRun(s: System, run: seq<Label>, s': System)
    decreases |run|
  {
    if run == [] then s == s' else Possible(s, run[0]) && AnyRun(Next(s, run[0]), run[1..], s')
  }

  ghost predicate Leads(beatsMayOpen: bool, run: seq<Label>, s: System) {
    if beatsMayOpen then AnyRun(INITIAL, run, s) else Run(INITIAL, run, s)
  }

  /** The event the dispatcher takes next has a route, or is a heartbeat, or is for a channel
      that this end has closed. */
  predicate RoutedOrHarmless(p: Mux)
    requires CanDispatch(p)
  {
    var e := p.inbox[0];
    Routable(p, e) || e.name.ZpcHb? || (Owner(e) in p.chans && !Active(p, Owner(e)))
  }

  ghost predicate AlwaysRouted(beatsMayOpen: bool) {
    forall run, s, left :: Leads(beatsMayOpen, run, s) && CanDispatch(At(s, left)) ==> RoutedOrHarmless(At(s, left))
  }

  lemma {:induction false} AnyRunSnoc(s0: System, run: seq<Label>, s: System, l: Label)
    requires AnyRun(s0, run, s) && Possible(s, l)
    ensures AnyRun(s0, run + [l], Next(s, l))
    decreases |run|
  {
    if run == [] {
      assert AnyRun(Next(s, l), [], Next(s, l));
      assert ([] + [l])[1..] == [];
    } else {
      AnyRunSnoc(Next(s0, run[0]), run[1..], s, l);
      assert (run + [l])[1..] == run[1..] + [l];
    }
  }

  lemma Then(run: seq<Label>, s: System, l: Label) returns (run': seq<Label>, s': System)
    requires AnyRun(INITIAL, run, s) && Possible(s, l)
    ensures s' == Next(s, l) && AnyRun(INITIAL, run', s')
  {
    AnyRunSnoc(INITIAL, run, s, l);
    run', s' := run + [l], Next(s, l);
  }

  const FIRST_BEAT := Event(ZpcHb, Num(0), CALL, None, Some(3))
  const LATE_REQUEST := Event(Method("f"), Nothing, "r", Some(CALL), Some(3))

  lemma BeatThenRequest() returns (run: seq<Label>, s: System)
    ensures AnyRun(INITIAL, run, s) && s.r == EmptyMux(true).(inbox := [FIRST_BEAT, LATE_REQUEST])
  {
    run, s := [], INITIAL;
    run, s := Then(run, s, Label(true, Open(CALL, SERVER_QUEUE)));
    assert s.r.inbox == [];
    run, s := Then(run, s, Label(true, OpenByBeat(CALL, FIRST_BEAT)));
    assert s.r.inbox == [FIRST_BEAT];
    run, s := Then(run, s, Label(true, App(CALL, Credit.Emit(LATE_REQUEST, true))));
    assert s.r.inbox == [FIRST_BEAT, LATE_REQUEST];
  }

  /** The heartbeat opens the channel, and the request, now a response on it, finds none at
      the server, whose task for the heartbeat has not run. */
  lemma RequestIsLost() returns (run: seq<Label>, s: System)
    ensures AnyRun(INITIAL, run, s) && CanDispatch(s.r) && s.r.inbox[0] == LATE_REQUEST
    ensures !RoutedOrHarmless(s.r)
  {
    run, s := BeatThenRequest();
    run, s := Then(run, s, Label(false, Route));
    assert s.r == EmptyMux(true).(hand := [FIRST_BEAT], inbox := [LATE_REQUEST]);
    run, s := Then(run, s, Label(false, Deposit));
    assert s.r == EmptyMux(true).(bqueue := [FIRST_BEAT], inbox := [LATE_REQUEST]);
  }

  /** In every run every event but heartbeats finds its channel until that end closes it,
      exactly if the first event of a channel is always its request. */
  lemma RoutedIffRequestsFirst(beatsMayOpen: bool)
    ensures AlwaysRouted(beatsMayOpen) <==> !beatsMayOpen
  {
    if beatsMayOpen {
      var run, s := RequestIsLost();
      assert Leads(true, run, s) && CanDispatch(At(s, false)) && !RoutedOrHarmless(At(s, false));
    } else {
      forall run, s, left | Leads(false, run, s) && CanDispatch(At(s, left))
        ensures RoutedOrHarmless(At(s, left))
      {
        Routability(s, left);
      }
    }
  }

  // ---- progress of the whole stack -------------------------------------------------------------

  /** The greenlets of the stack itself; they need no one's leave. */
  predicate Greenlet(l: Label) {
    l.action.Route? || l.action.Deposit? || l.action.TakeRequest? || l.action.Spawn? || l.action.Pull? || l.action.Feed?
  }

  /** The dispatcher is blocked on a channel that this end has closed. */
  predicate Jammed(p: Mux) {
    Stack.Blocked(p) && p.hand[0].respTo.Some? && !Active(p, p.hand[0].respTo.value)
  }

  /** The dispatcher holds an event: it can put it, or what it waits for can go on. */
  lemma HolderGoesOn(s: System, left: bool) returns (l: Label)
    requires Reachable(s) && At(s, left).hand != [] && !Jammed(At(s, left))
    ensures Greenlet(l) && Can(s, l)
  {
    var p := At(s, left);
    if CanPut(p) {
      l := Label(left, Deposit);
    } else {
      DispatcherProgress(s, left);
      match p.hand[0].respTo
      case None => l := Label(left, TakeRequest);
      case Some(c) => l := if CanBeatTake(p, c) then Label(left, Pull(c)) else Label(left, Feed(c));
    }
  }

  /** Something is on its way to an open channel, or to one not made yet: it can go on. */
  lemma PipeGoesOn(s: System, left: bool, c: Id) returns (l: Label)
    requires Reachable(s) && !Jammed(At(s, left)) && Pipe(At(s, left), c) != []
    requires c in At(s, left).chans ==> Active(At(s, left), c)
    ensures Greenlet(l) && Can(s, l)
  {
    var p := At(s, left);
    var e := Pipe(p, c)[0];
    OfMember(c, Front(p, c) + Backlog(p), e);
    if p.hand != [] {
      l := HolderGoesOn(s, left);
    } else if c in p.chans && p.chans[c].held != [] {
      StackSimulates(s);
      var m: map<Id, Credit.Duplex> :| Simulates(s, m);
      OpenIsAlive(s, m, left, c);
      l := Label(left, Feed(c));
    } else if c in p.chans && p.chans[c].queue != [] {
      l := Label(left, Pull(c));
    } else {
      BacklogParts(p, e);
      l := Label(left, if p.tasks != [] then Spawn else if p.bqueue != [] then TakeRequest else Route);
    }
  }

  /** Deadlock freedom of the whole stack, with any number of other channels.  An emitter
      waits for credit at one end of channel `c` and a reader waits on an empty queue at the
      other, and no grant of the reader has failed: then some greenlet of the stack can take
      a step, unless a dispatcher is blocked on a closed channel. */
  lemma StackDeadlockFree(s: System, left: bool, c: Id, d: Credit.Duplex) returns (l: Label)
    requires Reachable(s) && Couple(s, c, d) && !Credit.Facing(d, left).b.faulted
    requires Active(At(s, left), c) && Active(At(s, !left), c)
    requires At(s, left).chans[c].waiting && !At(s, left).chans[c].buf.canRecv
    requires At(s, !left).chans[c].inRecv && At(s, !left).chans[c].buf.queue == []
    requires At(s, !left).chans[c].buf.size >= 2
    requires !Jammed(s.l) && !Jammed(s.r)
    ensures Greenlet(l) && Can(s, l)
  {
    CreditLaws.ReachableInv(d.a.buf.size, SERVER_QUEUE, d);
    Credit.FlipInv(d);
    CreditLaws.StuckOnlyAfterFailure(Credit.Facing(d, left));
    if Pipe(At(s, left), c) != [] {
      l := PipeGoesOn(s, left, c);
    } else {
      l := PipeGoesOn(s, !left, c);
    }
  }
}
