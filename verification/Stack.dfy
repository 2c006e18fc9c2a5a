/** Two multiplexers over two reliable FIFO links: any number of calls at once, each on
    its own channel.  The system refines, for every channel at the same time, the two-ended
    protocol of module Credit, so that all its laws hold of every channel; and the
    dispatcher's progress rests on them. */
module Stack {
  import opened Protocol
  import opened Buffering
  import Credit
  import CreditLaws
  import opened Heartbeat
  import opened Multiplex

  /** The client's multiplexer (it ignores broadcasts) and the server's. */
  datatype System = System(l: Mux, r: Mux)

  datatype Action =
    | Route                                // the dispatcher takes an event off the link
    | Deposit                              // and puts it in the queue it found
    | TakeRequest                          // the acceptor spawns a task
    | Spawn                                // the task makes its channel
    | Pull(c: Id)                          // HeartBeatOnChannel._recver
    | Feed(c: Id)                          // BufferedChannel._recver
    | Open(c: Id, size: int)               // a client call makes its channel
    | App(c: Id, act: Credit.Act)          // the application's end of a channel
    | Pulse(c: Id, header: Event)          // the _heartbeat greenlet emits
    | OpenByBeat(c: Id, header: Event)     // and does so before the call made its request

  datatype Label = Label(left: bool, action: Action)

  function EmptyMux(broadcast: bool): Mux {
    Mux(broadcast, [], [], [], [], map[])
  }

  const INITIAL := System(EmptyMux(false), EmptyMux(true))

  function At(s: System, left: bool): Mux {
    if left then s.l else s.r
  }

  function With(s: System, left: bool, p: Mux, q: Mux): System {
    if left then System(p, q) else System(q, p)
  }

  // ---- the steps --------------------------------------------------------------------

  /** Ids: the first event of a client's channel is the request, whose own id names the
      channel; every other event of a channel is a response to that id. */
  predicate Headed(c: Id, ep: Endpoint, e: Event) {
    e.v == Some(3) && (if ep.called then e.respTo == Some(c) else e.respTo == None && e.msgId == c)
  }

  predicate HeadersOf(c: Id, ep: Endpoint, act: Credit.Act) {
    match act
    case Emit(e, _) => Headed(c, ep, e)
    case Wake(e, _) => Headed(c, ep, e)
    case Enter(h, _) => ep.called && Headed(c, ep, h)
    case _ => true
  }

  predicate Possible(s: System, l: Label) {
    var p := At(s, l.left);
    match l.action
    case Route => CanDispatch(p)
    case Deposit => CanPut(p)
    case TakeRequest => p.bqueue != []
    case Spawn => p.tasks != []
    case Pull(c) => CanBeatTake(p, c)
    case Feed(c) => CanBufTake(p, c)
    case Open(c, size) => l.left && c !in s.l.chans && c !in s.r.chans && size != 0
    case App(c, act) => c in p.chans && CanAct(p.chans[c], act) && HeadersOf(c, p.chans[c], act)
    case Pulse(c, h) => Active(p, c) && h.respTo == Some(c) && h.v == Some(3)
    case OpenByBeat(c, h) =>
      l.left && Active(p, c) && !p.chans[c].called && h.respTo == None && h.msgId == c && h.v == Some(3)
  }

  /** The steps of a system in which the first event of a channel is its request.  That is so
      unless what runs between the start of the heartbeats and the request (a hook of the
      context) takes as long as their interval; see RoutedIffRequestsFirst. */
  predicate Can(s: System, l: Label) {
    !l.action.OpenByBeat? && Possible(s, l)
  }

  /** What the action does at its own multiplexer. */
  function Here(p: Mux, a: Action): Mux
    requires a.Route? ==> CanDispatch(p)
    requires a.Deposit? ==> CanPut(p)
    requires a.TakeRequest? ==> p.bqueue != []
    requires a.Spawn? ==> p.tasks != []
    requires a.Pull? ==> CanBeatTake(p, a.c)
    requires a.Feed? ==> CanBufTake(p, a.c)
    requires a.App? ==> a.c in p.chans && CanAct(p.chans[a.c], a.act)
    requires a.OpenByBeat? ==> a.c in p.chans
  {
    match a
    case Route => Dispatch(p)
    case Deposit => Put(p)
    case TakeRequest => Accept(p)
    case Spawn => StartTask(p)
    case Pull(c) => p.(chans := p.chans[c := BeatTake(p.chans[c])])
    case Feed(c) => p.(chans := p.chans[c := BufTake(p.chans[c])])
    case Open(c, size) => p.(chans := p.chans[c := NewEndpoint([], size, false)])
    case App(c, act) => p.(chans := p.chans[c := Act(p.chans[c], act)])
    case Pulse(c, _) => p
    case OpenByBeat(c, _) => p.(chans := p.chans[c := p.chans[c].(called := true)])
  }

  /** What it puts on the link to the other one. */
  function Sent(p: Mux, a: Action): seq<Event>
    requires a.App? ==> a.c in p.chans
  {
    match a
    case App(c, act) => OnLink(p.chans[c], act)
    case Pulse(c, h) => [h.(name := ZpcHb, args := Num(0))]
    case OpenByBeat(c, h) => [h.(name := ZpcHb, args := Num(0))]
    case _ => []
  }

  function Receiving(q: Mux, s: seq<Event>): Mux {
    q.(inbox := q.inbox + s)
  }

  function Next(s: System, l: Label): System
    requires Possible(s, l)
  {
    var p, q := At(s, l.left), At(s, !l.left);
    With(s, l.left, Here(p, l.action), Receiving(q, Sent(p, l.action)))
  }

  ghost predicate Run(s: System, run: seq<Label>, s': System)
    decreases |run|
  {
    if run == [] then s == s' else Can(s, run[0]) && Run(Next(s, run[0]), run[1..], s')
  }

  // ---- the relation to module Credit -----------------------------------------------------

  ghost predicate Untouched(side: Credit.Side) {
    && side.buf == Fresh(SERVER_QUEUE) && !side.waiting && !side.inRecv
    && side.emitted == [] && side.consumed == [] && side.granted == 0 && side.dropped == []
  }

  /** One end of channel `c`, with what is on its way to it.  Before its task has run, the
      server's end is as good as new. */
  ghost predicate End(p: Mux, c: Id, side: Credit.Side, link: seq<Event>) {
    && (if c in p.chans then
          var ep := p.chans[c];
          side.buf == ep.buf && side.waiting == ep.waiting && side.inRecv == ep.inRecv
        else Untouched(side))
    && link == if side.buf.open then Pipe(p, c) else []
  }

  ghost predicate NoRequest(r: Mux, c: Id) {
    forall e :: e in Backlog(r) ==> e.respTo.Some? || e.msgId != c
  }

  /** The calls made on the client's end of `c`, and no request left for a channel that
      was made. */
  ghost predicate Opening(s: System, c: Id, d: Credit.Duplex)
    requires c in s.l.chans
  {
    && (s.l.chans[c].called <==> d.a.emitted != [])
    && (forall k :: 0 <= k < |d.a.emitted| ==> d.a.emitted[k].respTo == (if k == 0 then None else Some(c)))
    && (d.a.granted > 0 ==> d.a.consumed != [])
    && (d.a.buf.open && d.a.buf.verbose && d.a.consumed == [] ==> d.a.inRecv)
    && (c in s.r.chans ==> s.l.chans[c].called && s.r.chans[c].called && NoRequest(s.r, c))
  }

  ghost predicate Couple(s: System, c: Id, d: Credit.Duplex) {
    && c in s.l.chans
    && End(s.l, c, d.a, d.ba)
    && End(s.r, c, d.b, d.ab)
    && Opening(s, c, d)
    && d.a.buf.size != 0
    && CreditLaws.Reachable(d.a.buf.size, SERVER_QUEUE, d)
  }

  /** Shapes that no step breaks. */
  ghost predicate Tidy(p: Mux) {
    && |p.hand| <= 1 && |p.bqueue| <= QUEUE_SIZE
    && (forall e :: e in p.tasks + p.bqueue ==> e.respTo.None?)
    && (forall e :: e in p.hand && e.respTo.Some? ==> e.respTo.value in p.chans)
    && (!p.broadcast ==> forall e :: e in Backlog(p) ==> e.respTo.Some?)
    && (forall e :: e in Backlog(p) ==> e.v == Some(3) && (e.respTo.None? ==> !IsControl(e)))
    && (forall c :: c in p.chans ==> TidyEnd(p.chans[c], c))
  }

  ghost predicate TidyEnd(ep: Endpoint, c: Id) {
    && |ep.queue| <= QUEUE_SIZE && |ep.held| <= 1
    && (forall e :: e in ep.queue ==> ForChannel(e, c) && e.v == Some(3))
    && (forall e :: e in ep.held ==> ForChannel(e, c) && !e.name.ZpcHb?)
    && ep.compat != Some(true)
  }

  /** The one channel an event is for. */
  function Owner(e: Event): Id {
    if e.respTo.Some? then e.respTo.value else e.msgId
  }

  ghost predicate Simulates(s: System, m: map<Id, Credit.Duplex>) {
    && !s.l.broadcast && s.r.broadcast
    && Tidy(s.l) && Tidy(s.r)
    && m.Keys == s.l.chans.Keys
    && s.r.chans.Keys <= m.Keys
    && (forall e :: e in Backlog(s.l) ==> Owner(e) in m)
    && (forall e :: e in Backlog(s.r) ==> Owner(e) in m)
    && (forall c :: c in m ==> Couple(s, c, m[c]))
  }

  // ---- shapes are kept ----------------------------------------------------------------------

  lemma BacklogParts(p: Mux, e: Event)
    ensures e in Backlog(p) <==> e in p.tasks || e in p.bqueue || e in p.hand || e in p.inbox
  {
  }

  /** Nothing new comes into a multiplexer but from its link. */
  lemma HereBacklog(p: Mux, a: Action, e: Event)
    requires a.Route? ==> CanDispatch(p)
    requires a.Deposit? ==> CanPut(p)
    requires a.TakeRequest? ==> p.bqueue != []
    requires a.Spawn? ==> p.tasks != []
    requires a.Pull? ==> CanBeatTake(p, a.c)
    requires a.Feed? ==> CanBufTake(p, a.c)
    requires a.App? ==> a.c in p.chans && CanAct(p.chans[a.c], a.act)
    requires a.OpenByBeat? ==> a.c in p.chans
    ensures e in Backlog(Here(p, a)) ==> e in Backlog(p)
  {
    BacklogParts(p, e);
    BacklogParts(Here(p, a), e);
  }

  lemma RouteTidy(p: Mux)
    requires Tidy(p) && CanDispatch(p)
    ensures Tidy(Dispatch(p))
  {
    var p' := Dispatch(p);
    forall e | e in Backlog(p')
      ensures e in Backlog(p)
    {
      HereBacklog(p, Route, e);
    }
  }

  lemma DepositTidy(p: Mux)
    requires Tidy(p) && CanPut(p)
    ensures Tidy(Put(p))
  {
    var p' := Put(p);
    forall e | e in Backlog(p')
      ensures e in Backlog(p)
    {
      HereBacklog(p, Deposit, e);
    }
    BacklogParts(p, p.hand[0]);
  }

  lemma TakeRequestTidy(p: Mux)
    requires Tidy(p) && p.bqueue != []
    ensures Tidy(Accept(p))
  {
    var p' := Accept(p);
    forall e | e in Backlog(p')
      ensures e in Backlog(p)
    {
      HereBacklog(p, TakeRequest, e);
    }
  }

  lemma SpawnTidy(p: Mux)
    requires Tidy(p) && p.tasks != []
    ensures Tidy(StartTask(p))
  {
    var p' := StartTask(p);
    forall e | e in Backlog(p')
      ensures e in Backlog(p)
    {
      HereBacklog(p, Spawn, e);
    }
    BacklogParts(p, p.tasks[0]);
    assert p.tasks[0] in p.tasks + p.bqueue;
  }

  /** A step of one channel that only changes its endpoint. */
  lemma EndpointTidy(p: Mux, c: Id, ep: Endpoint)
    requires Tidy(p) && TidyEnd(ep, c)
    ensures Tidy(p.(chans := p.chans[c := ep]))
  {
    assert Backlog(p.(chans := p.chans[c := ep])) == Backlog(p);
  }

  lemma PullTidy(ep: Endpoint, c: Id)
    requires TidyEnd(ep, c) && ep.queue != [] && ep.held == []
    ensures TidyEnd(BeatTake(ep), c)
  {
  }

  lemma HereTidy(s: System, l: Label)
    requires Can(s, l) && Tidy(At(s, l.left))
    ensures Tidy(Here(At(s, l.left), l.action))
  {
    var p := At(s, l.left);
    match l.action
    case Route => RouteTidy(p);
    case Deposit => DepositTidy(p);
    case TakeRequest => TakeRequestTidy(p);
    case Spawn => SpawnTidy(p);
    case Pull(c) => PullTidy(p.chans[c], c); EndpointTidy(p, c, BeatTake(p.chans[c]));
    case Feed(c) => EndpointTidy(p, c, BufTake(p.chans[c]));
    case Open(c, size) => EndpointTidy(p, c, NewEndpoint([], size, false));
    case App(c, act) => EndpointTidy(p, c, Act(p.chans[c], act));
    case _ =>
  }

  /** What goes on a link is well formed, and a server only sends responses. */
  lemma SentTidy(s: System, l: Label, e: Event)
    requires Can(s, l) && e in Sent(At(s, l.left), l.action)
    ensures e.v == Some(3) && (e.respTo.None? ==> !IsControl(e))
    ensures l.action.App? || l.action.Pulse?
    ensures e.respTo.None? ==> l.action.App? && e.msgId == l.action.c && !At(s, l.left).chans[l.action.c].called
    ensures ForChannel(e, l.action.c)
  {
  }

  lemma ReceivingTidy(q: Mux, s: seq<Event>)
    requires Tidy(q)
    requires forall e :: e in s ==> e.v == Some(3) && (e.respTo.None? ==> !IsControl(e) && q.broadcast)
    ensures Tidy(Receiving(q, s))
  {
    var q' := Receiving(q, s);
    assert Backlog(q') == Backlog(q) + s by {
      LinkPipe(q, "", s);
    }
    forall e | e in Backlog(q')
      ensures e in Backlog(q) || e in s
    {
    }
  }

  /** A step is what it does here, and what it sends there. */
  lemma NextSides(s: System, l: Label)
    requires Possible(s, l)
    ensures At(Next(s, l), l.left) == Here(At(s, l.left), l.action)
    ensures At(Next(s, l), !l.left) == Receiving(At(s, !l.left), Sent(At(s, l.left), l.action))
  {
  }

  lemma NextTidy(s: System, m: map<Id, Credit.Duplex>, l: Label)
    requires Simulates(s, m) && Can(s, l)
    ensures Tidy(Next(s, l).l) && Tidy(Next(s, l).r)
    ensures !Next(s, l).l.broadcast && Next(s, l).r.broadcast
  {
    var p, q := At(s, l.left), At(s, !l.left);
    NextSides(s, l);
    HereTidy(s, l);
    SentIsTidy(s, m, l);
    ReceivingTidy(q, Sent(p, l.action));
    assert !Here(p, l.action).broadcast == !p.broadcast;
  }

  lemma SentIsTidy(s: System, m: map<Id, Credit.Duplex>, l: Label)
    requires Simulates(s, m) && Can(s, l)
    ensures forall e :: e in Sent(At(s, l.left), l.action) ==>
              e.v == Some(3) && (e.respTo.None? ==> !IsControl(e) && At(s, !l.left).broadcast)
  {
    forall e | e in Sent(At(s, l.left), l.action)
      ensures e.v == Some(3) && (e.respTo.None? ==> !IsControl(e) && At(s, !l.left).broadcast)
    {
      SentTidy(s, l, e);
      if !l.left {
        assert Couple(s, l.action.c, m[l.action.c]);
      }
    }
  }

  // ---- the two ends of one channel -----------------------------------------------------------

  lemma EndKept(p: Mux, p': Mux, c: Id, side: Credit.Side, link: seq<Event>)
    requires End(p, c, side, link)
    requires c in p.chans <==> c in p'.chans
    requires c in p.chans ==> p'.chans[c].buf == p.chans[c].buf && p'.chans[c].waiting == p.chans[c].waiting
                              && p'.chans[c].inRecv == p.chans[c].inRecv
    requires side.buf.open ==> Pipe(p', c) == Pipe(p, c)
    ensures End(p', c, side, link)
  {
  }

  /** Events of another channel, and heartbeats, change nothing at an end. */
  lemma EndIgnores(q: Mux, c: Id, side: Credit.Side, link: seq<Event>, s: seq<Event>)
    requires End(q, c, side, link)
    requires Of(c, s) == []
    ensures End(Receiving(q, s), c, side, link)
  {
    LinkPipe(q, c, s);
    EndKept(q, Receiving(q, s), c, side, link);
  }

  /** A step of another channel's application changes nothing at an end. */
  lemma EndOfOther(p: Mux, c: Id, side: Credit.Side, link: seq<Event>, k: Id, ep: Endpoint)
    requires End(p, c, side, link) && c != k
    ensures End(p.(chans := p.chans[k := ep]), c, side, link)
  {
    var p' := p.(chans := p.chans[k := ep]);
    FrontPipe(p, p', c);
    EndKept(p, p', c, side, link);
  }

  lemma ActEnabled(d: Credit.Duplex, ep: Endpoint, act: Credit.Act)
    requires d.a.buf == ep.buf && d.a.waiting == ep.waiting && d.a.inRecv == ep.inRecv && CanAct(ep, act)
    ensures Credit.Enabled(d, act)
  {
  }

  /** An act at an end is the same act in module Credit: at the end itself... */
  lemma ActHere(p: Mux, c: Id, d: Credit.Duplex, act: Credit.Act)
    requires End(p, c, d.a, d.ba) && c in p.chans && CanAct(p.chans[c], act) && Credit.Enabled(d, act)
    ensures var p' := p.(chans := p.chans[c := Act(p.chans[c], act)]);
            End(p', c, Credit.Perform(d, act).a, Credit.Perform(d, act).ba)
  {
    var p' := p.(chans := p.chans[c := Act(p.chans[c], act)]);
    assert Front(p', c) == Front(p, c) && Backlog(p') == Backlog(p);
  }

  /** ... and at the other end, which is given what was sent. */
  lemma ActThere(ep: Endpoint, q: Mux, c: Id, d: Credit.Duplex, act: Credit.Act)
    requires d.a.buf == ep.buf && CanAct(ep, act) && Credit.Enabled(d, act)
    requires End(q, c, d.b, d.ab)
    requires forall e :: e in OnLink(ep, act) ==> ForChannel(e, c)
    ensures End(Receiving(q, OnLink(ep, act)), c, Credit.Perform(d, act).b, Credit.Perform(d, act).ab)
  {
    var s := OnLink(ep, act);
    LinkPipe(q, c, s);
    if s != [] {
      OfOne(c, s[0]);
    }
  }

  // ---- before the server's task has run ---------------------------------------------------------

  /** Until the server's task has made its channel, the request is all there is on the way
      to it: the client has one slot, and its first recv grants nothing. */
  lemma OnlyTheRequest(s: System, c: Id, d: Credit.Duplex)
    requires Couple(s, c, d) && c !in s.r.chans
    ensures d.ab == d.a.emitted && d.ab == Pipe(s.r, c)
    ensures |d.ab| <= 1 && forall e :: e in d.ab ==> e.respTo == None
  {
    CreditLaws.ReachableInv(d.a.buf.size, SERVER_QUEUE, d);
    CreditLaws.OnlyTheFirstEvent(d);
  }

  /** An event that finds no queue is a heartbeat, or is for a channel this end closed. */
  lemma UnroutableIsHarmless(s: System, m: map<Id, Credit.Duplex>, left: bool, c: Id)
    requires Simulates(s, m) && c in m && CanDispatch(At(s, left))
    requires var e := At(s, left).inbox[0];
             !Routable(At(s, left), e) && ForChannel(e, c) && !e.name.ZpcHb?
    ensures c in At(s, left).chans && !At(s, left).chans[c].buf.open
  {
    var p, e := At(s, left), At(s, left).inbox[0];
    BacklogParts(p, e);
    assert Couple(s, c, m[c]);
    if !left && c !in p.chans {
      OnlyTheRequest(s, c, m[c]);
      OfMember(c, Front(p, c) + Backlog(p), e);
    }
  }

  // ---- every step is one of module Credit, or none, on every channel ----------------------------------

  /** Between the applications a step moves events along, and no more. */
  ghost predicate Moved(p: Mux, p': Mux, c: Id) {
    && (c in p.chans <==> c in p'.chans)
    && (c in p.chans ==> p'.chans[c] == p.chans[c].(queue := p'.chans[c].queue, held := p'.chans[c].held,
                                                     compat := p'.chans[c].compat))
    && (Active(p, c) || c !in p.chans ==> Pipe(p', c) == Pipe(p, c))
    && (forall e :: e in Backlog(p') ==> e in Backlog(p))
  }

  lemma MovedCouples(s: System, s': System, c: Id, d: Credit.Duplex)
    requires Couple(s, c, d) && Moved(s.l, s'.l, c) && Moved(s.r, s'.r, c)
    ensures Couple(s', c, d)
  {
  }

  lemma NothingSent(q: Mux, c: Id)
    ensures Receiving(q, []) == q && Moved(q, q, c)
  {
    assert q.inbox + [] == q.inbox;
  }

  /** Events that are only passed along keep every channel coupled. */
  lemma MoveCouples(s: System, m: map<Id, Credit.Duplex>, l: Label, c: Id)
    requires Simulates(s, m) && c in m && Can(s, l) && Sent(At(s, l.left), l.action) == []
    requires Moved(At(s, l.left), Here(At(s, l.left), l.action), c)
    ensures Couple(Next(s, l), c, m[c])
  {
    assert Couple(s, c, m[c]);
    NothingSent(At(s, !l.left), c);
    MovedCouples(s, Next(s, l), c, m[c]);
  }

  lemma FewerEvents(s: System, l: Label)
    requires Can(s, l)
    ensures forall e :: e in Backlog(Here(At(s, l.left), l.action)) ==> e in Backlog(At(s, l.left))
  {
    forall e | e in Backlog(Here(At(s, l.left), l.action))
      ensures e in Backlog(At(s, l.left))
    {
      HereBacklog(At(s, l.left), l.action, e);
    }
  }

  lemma RouteCouples(s: System, m: map<Id, Credit.Duplex>, left: bool, c: Id)
    requires Simulates(s, m) && c in m && CanDispatch(At(s, left))
    ensures Couple(Next(s, Label(left, Route)), c, m[c])
  {
    var p := At(s, left);
    var e := p.inbox[0];
    if !Routable(p, e) && ForChannel(e, c) && !e.name.ZpcHb? {
      UnroutableIsHarmless(s, m, left, c);
    } else {
      DispatchPipe(p, c);
    }
    FewerEvents(s, Label(left, Route));
    MoveCouples(s, m, Label(left, Route), c);
  }

  lemma DepositMoves(s: System, m: map<Id, Credit.Duplex>, left: bool, c: Id)
    requires Simulates(s, m) && c in m && CanPut(At(s, left)) && At(s, left).hand[0].respTo == Some(c)
    ensures forall f :: f in At(s, left).tasks + At(s, left).bqueue ==> !ForChannel(f, c)
  {
    var p := At(s, left);
    assert Couple(s, c, m[c]);
    forall f | f in p.tasks + p.bqueue
      ensures !ForChannel(f, c)
    {
      BacklogParts(p, f);
    }
  }

  lemma DepositCouples(s: System, m: map<Id, Credit.Duplex>, left: bool, c: Id)
    requires Simulates(s, m) && c in m && CanPut(At(s, left))
    ensures Couple(Next(s, Label(left, Deposit)), c, m[c])
  {
    var p := At(s, left);
    if p.hand[0].respTo.None? {
      PutBroadcastBacklog(p);
    } else {
      if p.hand[0].respTo == Some(c) { DepositMoves(s, m, left, c); }
      PutPipe(p, c);
    }
    FewerEvents(s, Label(left, Deposit));
    MoveCouples(s, m, Label(left, Deposit), c);
  }

  lemma TakeRequestCouples(s: System, m: map<Id, Credit.Duplex>, left: bool, c: Id)
    requires Simulates(s, m) && c in m && At(s, left).bqueue != []
    ensures Couple(Next(s, Label(left, TakeRequest)), c, m[c])
  {
    AcceptPipe(At(s, left), c);
    MoveCouples(s, m, Label(left, TakeRequest), c);
  }

  lemma PullIsVersion3(p: Mux, k: Id)
    requires Tidy(p) && CanBeatTake(p, k)
    ensures !Generation(p.chans[k].compat, p.chans[k].queue[0])
  {
    assert TidyEnd(p.chans[k], k);
    assert p.chans[k].queue[0] in p.chans[k].queue;
  }

  lemma PullMoves(p: Mux, k: Id, c: Id)
    requires CanBeatTake(p, k) && !Generation(p.chans[k].compat, p.chans[k].queue[0])
    ensures Moved(p, p.(chans := p.chans[k := BeatTake(p.chans[k])]), c)
  {
    BeatTakePipe(p, c, k);
    assert Backlog(p.(chans := p.chans[k := BeatTake(p.chans[k])])) == Backlog(p);
  }

  lemma PullCouples(s: System, m: map<Id, Credit.Duplex>, left: bool, k: Id, c: Id)
    requires Simulates(s, m) && c in m && CanBeatTake(At(s, left), k)
    ensures Couple(Next(s, Label(left, Pull(k))), c, m[c])
  {
    PullIsVersion3(At(s, left), k);
    PullMoves(At(s, left), k, c);
    MoveCouples(s, m, Label(left, Pull(k)), c);
  }

  /** A request waits only at the server, and for a channel that was not made. */
  lemma RequestIsNew(s: System, m: map<Id, Credit.Duplex>, left: bool)
    requires Simulates(s, m) && At(s, left).tasks != []
    ensures !left && s.r.tasks[0].respTo.None? && s.r.tasks[0].msgId in m && s.r.tasks[0].msgId !in s.r.chans
  {
    var p := At(s, left);
    var e := p.tasks[0];
    BacklogParts(p, e);
    assert e in p.tasks + p.bqueue;
    if e.msgId in m {
      assert Couple(s, e.msgId, m[e.msgId]);
    }
  }

  lemma SpawnCouplesOther(s: System, m: map<Id, Credit.Duplex>, c: Id)
    requires Simulates(s, m) && c in m && s.r.tasks != [] && c != s.r.tasks[0].msgId
    ensures Couple(Next(s, Label(false, Spawn)), c, m[c])
  {
    RequestIsNew(s, m, false);
    StartPipe(s.r, c);
    FewerEvents(s, Label(false, Spawn));
    MoveCouples(s, m, Label(false, Spawn), c);
  }

  lemma SpawnTakesTheRequest(s: System, c: Id, d: Credit.Duplex)
    requires Couple(s, c, d) && c !in s.r.chans && s.r.tasks != [] && c == s.r.tasks[0].msgId
    requires s.r.tasks[0].respTo.None? && !s.r.tasks[0].name.ZpcHb?
    requires forall f :: f in Backlog(s.r) && f.respTo.None? ==> !IsControl(f)
    ensures NoRequest(StartTask(s.r), c) && d.a.emitted != []
  {
    OnlyTheRequest(s, c, d);
    var e, r' := s.r.tasks[0], StartTask(s.r);
    StartPipe(s.r, c);
    assert Front(s.r, c) + Backlog(s.r) == [e] + Backlog(r');
    OfConcat(c, [e], Backlog(r'));
    OfOne(c, e);
    assert Of(c, Backlog(r')) == [];
    forall f | f in Backlog(r')
      ensures f.respTo.Some? || f.msgId != c
    {
      OfMember(c, Backlog(r'), f);
      assert f in Backlog(s.r);
    }
  }

  lemma SpawnEnd(r: Mux, c: Id, side: Credit.Side, link: seq<Event>)
    requires End(r, c, side, link) && c !in r.chans && r.tasks != [] && c == r.tasks[0].msgId && r.tasks[0].respTo.None?
    ensures End(StartTask(r), c, side, link)
  {
    StartPipe(r, c);
  }

  lemma SpawnCouplesOwn(s: System, m: map<Id, Credit.Duplex>, c: Id)
    requires Simulates(s, m) && c in m && s.r.tasks != [] && c == s.r.tasks[0].msgId
    ensures Couple(Next(s, Label(false, Spawn)), c, m[c])
  {
    assert Couple(s, c, m[c]);
    RequestIsNew(s, m, false);
    BacklogParts(s.r, s.r.tasks[0]);
    SpawnTakesTheRequest(s, c, m[c]);
    NothingSent(s.l, c);
    SpawnEnd(s.r, c, m[c].b, m[c].ab);
    var s' := Next(s, Label(false, Spawn));
    assert s'.l == s.l && s'.r == StartTask(s.r);
    assert Opening(s', c, m[c]);
  }

  /** The two ends of a channel, the one at `left` first. */
  ghost predicate Ends(p: Mux, q: Mux, c: Id, d: Credit.Duplex) {
    End(p, c, d.a, d.ba) && End(q, c, d.b, d.ab)
  }

  lemma SteppedCouples(s: System, s': System, c: Id, d: Credit.Duplex, l: Credit.Label)
    requires Couple(s, c, d) && Credit.Allowed(d, l) && c in s'.l.chans
    requires Ends(At(s', l.left), At(s', !l.left), c, Credit.Facing(Credit.Next(d, l), l.left))
    requires Opening(s', c, Credit.Next(d, l))
    ensures Couple(s', c, Credit.Next(d, l))
  {
    CreditLaws.ReachableNext(d.a.buf.size, SERVER_QUEUE, d, l);
    CreditLaws.PerformKeepsSizes(Credit.Facing(d, l.left), l.act);
  }

  // -- Feed

  lemma FeedEnds(p: Mux, q: Mux, c: Id, d: Credit.Duplex)
    requires Ends(p, q, c, d) && CanBufTake(p, c) && TidyEnd(p.chans[c], c) && d.a.buf.open
    ensures Credit.Enabled(d, Credit.Deliver1)
    ensures Ends(p.(chans := p.chans[c := BufTake(p.chans[c])]), q, c, Credit.Receive(d))
  {
    FeedsHead(p, c, d);
    ReceiveFrame(d);
    var p' := p.(chans := p.chans[c := BufTake(p.chans[c])]);
    assert End(p', c, Credit.Receive(d).a, Credit.Receive(d).ba);
  }

  /** The buffer is fed the head of its link. */
  lemma FeedsHead(p: Mux, c: Id, d: Credit.Duplex)
    requires End(p, c, d.a, d.ba) && CanBufTake(p, c) && TidyEnd(p.chans[c], c) && d.a.buf.open
    ensures d.ba != [] && d.ba[0] == p.chans[c].held[0] && d.a.buf == p.chans[c].buf
    ensures d.ba[1..] == Pipe(p.(chans := p.chans[c := BufTake(p.chans[c])]), c)
  {
    assert p.chans[c].held[0] in p.chans[c].held;
    BufTakePipe(p, c, c);
  }

  /** A step that leaves what the client has done, and sends nothing, keeps Opening. */
  lemma OpeningKept(s: System, s': System, c: Id, d: Credit.Duplex, d': Credit.Duplex)
    requires c in s.l.chans && Opening(s, c, d)
    requires c in s'.l.chans && s'.l.chans[c].called == s.l.chans[c].called
    requires c in s'.r.chans <==> c in s.r.chans
    requires c in s.r.chans ==> s'.r.chans[c].called == s.r.chans[c].called
    requires Backlog(s'.r) == Backlog(s.r)
    requires d'.a.emitted == d.a.emitted && d'.a.granted == d.a.granted && d'.a.consumed == d.a.consumed
    requires d'.a.buf.verbose == d.a.buf.verbose && d'.a.inRecv == d.a.inRecv && (d'.a.buf.open ==> d.a.buf.open)
    ensures Opening(s', c, d')
  {
  }

  lemma ReceiveFrame(d: Credit.Duplex)
    requires d.ba != []
    ensures var d' := Credit.Receive(d);
            && d'.a.emitted == d.a.emitted && d'.a.granted == d.a.granted && d'.a.consumed == d.a.consumed
            && d'.a.buf.verbose == d.a.buf.verbose && d'.a.inRecv == d.a.inRecv && (d'.a.buf.open ==> d.a.buf.open)
            && d'.b == d.b.(lost := d'.b.lost)
  {
  }

  lemma AliveIsOpen(s: System, c: Id, d: Credit.Duplex, left: bool)
    requires Couple(s, c, d) && CanBufTake(At(s, left), c)
    ensures Credit.Facing(d, left).a.buf.open
  {
    CreditLaws.ReachableInv(d.a.buf.size, SERVER_QUEUE, d);
  }

  lemma FeedCouplesOwn(s: System, m: map<Id, Credit.Duplex>, left: bool, c: Id)
    requires Simulates(s, m) && c in m && CanBufTake(At(s, left), c)
    ensures Credit.Allowed(m[c], Credit.Label(left, Credit.Deliver1))
    ensures Couple(Next(s, Label(left, Feed(c))), c, Credit.Next(m[c], Credit.Label(left, Credit.Deliver1)))
  {
    var d, p, q := m[c], At(s, left), At(s, !left);
    var s' := Next(s, Label(left, Feed(c)));
    assert Couple(s, c, d);
    assert TidyEnd(p.chans[c], c);
    AliveIsOpen(s, c, d, left);
    FeedEnds(p, q, c, Credit.Facing(d, left));
    NothingSent(q, c);
    ReceiveFrame(Credit.Facing(d, left));
    assert Backlog(Here(p, Feed(c))) == Backlog(p);
    OpeningKept(s, s', c, d, Credit.Next(d, Credit.Label(left, Credit.Deliver1)));
    SteppedCouples(s, s', c, d, Credit.Label(left, Credit.Deliver1));
  }

  /** A step inside another channel. */
  lemma OtherCouples(s: System, m: map<Id, Credit.Duplex>, left: bool, k: Id, ep: Endpoint, sent: seq<Event>, c: Id)
    requires Simulates(s, m) && c in m && c != k
    requires forall e :: e in sent ==> ForChannel(e, k)
    ensures Couple(With(s, left, At(s, left).(chans := At(s, left).chans[k := ep]), Receiving(At(s, !left), sent)),
                   c, m[c])
  {
    var p, q, d := At(s, left), At(s, !left), Credit.Facing(m[c], left);
    var p' := p.(chans := p.chans[k := ep]);
    assert Couple(s, c, m[c]);
    EndOfOther(p, c, d.a, d.ba, k, ep);
    OfNone(c, sent);
    EndIgnores(q, c, d.b, d.ab, sent);
    LinkPipe(q, c, sent);
    assert Backlog(p') == Backlog(p);
  }

  // -- App

  lemma AppEnds(p: Mux, q: Mux, c: Id, d: Credit.Duplex, act: Credit.Act)
    requires Ends(p, q, c, d) && c in p.chans && CanAct(p.chans[c], act) && HeadersOf(c, p.chans[c], act)
    ensures Credit.Enabled(d, act)
    ensures Ends(p.(chans := p.chans[c := Act(p.chans[c], act)]), Receiving(q, OnLink(p.chans[c], act)), c,
                 Credit.Perform(d, act))
  {
    ActEnabled(d, p.chans[c], act);
    ActHere(p, c, d, act);
    ActThere(p.chans[c], q, c, d, act);
  }

  lemma RequestsAfter(s: System, c: Id, sent: seq<Event>)
    requires NoRequest(s.r, c) && forall e :: e in sent ==> e.respTo == Some(c)
    ensures NoRequest(Receiving(s.r, sent), c)
  {
    LinkPipe(s.r, c, sent);
  }

  lemma OpeningAfterSend(s: System, s': System, c: Id, d: Credit.Duplex, d': Credit.Duplex, sent: seq<Event>)
    requires c in s.l.chans && Opening(s, c, d) && c in s'.l.chans && |sent| <= 1
    requires forall e :: e in sent ==> e.respTo == if s.l.chans[c].called then Some(c) else None
    requires s'.l.chans[c].called == (s.l.chans[c].called || sent != []) && s'.r == Receiving(s.r, sent)
    requires d'.a.emitted == d.a.emitted + sent && d'.a.granted == d.a.granted && d'.a.consumed == d.a.consumed
    requires d'.a.buf.verbose == d.a.buf.verbose && d'.a.inRecv == d.a.inRecv && d'.a.buf.open == d.a.buf.open
    ensures Opening(s', c, d')
  {
    if c in s.r.chans {
      RequestsAfter(s, c, sent);
    }
    assert forall k :: 0 <= k < |sent| ==> sent[k] in sent;
  }

  lemma ClientSendOpening(s: System, c: Id, d: Credit.Duplex, act: Credit.Act)
    requires c in s.l.chans && Opening(s, c, d) && d.a.buf.open == s.l.chans[c].buf.open
    requires CanAct(s.l.chans[c], act) && HeadersOf(c, s.l.chans[c], act) && Credit.Enabled(d, act)
    requires act.Emit? || act.Wake?
    ensures Opening(Next(s, Label(true, App(c, act))), c, Credit.Perform(d, act))
  {
    var s' := Next(s, Label(true, App(c, act)));
    Credit.SendFrame(d, act.event, act.sent);
    OpeningAfterSend(s, s', c, d, Credit.Perform(d, act), OnLink(s.l.chans[c], act));
  }

  lemma ClientReadOpening(s: System, c: Id, d: Credit.Duplex, act: Credit.Act)
    requires Couple(s, c, d) && CanAct(s.l.chans[c], act) && HeadersOf(c, s.l.chans[c], act) && Credit.Enabled(d, act)
    requires act.Enter? || act.Get? || act.TimeOut?
    ensures Opening(Next(s, Label(true, App(c, act))), c, Credit.Perform(d, act))
  {
    if c in s.r.chans {
      RequestsAfter(s, c, OnLink(s.l.chans[c], act));
    }
  }

  /** An act of the client keeps what is known of how its channel was opened. */
  lemma ClientActOpening(s: System, c: Id, d: Credit.Duplex, act: Credit.Act)
    requires Couple(s, c, d) && CanAct(s.l.chans[c], act) && HeadersOf(c, s.l.chans[c], act) && Credit.Enabled(d, act)
    ensures Opening(Next(s, Label(true, App(c, act))), c, Credit.Perform(d, act))
  {
    if act.Emit? || act.Wake? {
      ClientSendOpening(s, c, d, act);
    } else if act.Enter? || act.Get? || act.TimeOut? {
      ClientReadOpening(s, c, d, act);
    } else {
      ClientQuietOpening(s, c, d, act);
    }
  }

  lemma ClientQuietOpening(s: System, c: Id, d: Credit.Duplex, act: Credit.Act)
    requires c in s.l.chans && Opening(s, c, d) && CanAct(s.l.chans[c], act) && Credit.Enabled(d, act)
    requires act.Block? || act.Install? || act.Close?
    ensures Opening(Next(s, Label(true, App(c, act))), c, Credit.Perform(d, act))
  {
    NextSides(s, Label(true, App(c, act)));
    NothingSent(s.r, c);
    OpeningKept(s, Next(s, Label(true, App(c, act))), c, d, Credit.Perform(d, act));
  }

  lemma ServerActOpening(s: System, c: Id, d: Credit.Duplex, act: Credit.Act)
    requires Couple(s, c, d) && c in s.r.chans && CanAct(s.r.chans[c], act) && HeadersOf(c, s.r.chans[c], act)
    requires Credit.Enabled(Credit.Flip(d), act)
    ensures Opening(Next(s, Label(false, App(c, act))), c, Credit.Flip(Credit.Perform(Credit.Flip(d), act)))
  {
    var d' := Credit.Perform(Credit.Flip(d), act);
    assert d'.b == d.a.(lost := d'.b.lost, dropped := d'.b.dropped);
  }

  lemma AppCouplesOwn(s: System, d: Credit.Duplex, left: bool, c: Id, act: Credit.Act)
    requires Couple(s, c, d) && c in At(s, left).chans
    requires CanAct(At(s, left).chans[c], act) && HeadersOf(c, At(s, left).chans[c], act)
    ensures Credit.Allowed(d, Credit.Label(left, act))
    ensures Couple(Next(s, Label(left, App(c, act))), c, Credit.Next(d, Credit.Label(left, act)))
  {
    var p, q := At(s, left), At(s, !left);
    AppEnds(p, q, c, Credit.Facing(d, left), act);
    if left { ClientActOpening(s, c, d, act); } else { ServerActOpening(s, c, d, act); }
    SteppedCouples(s, Next(s, Label(left, App(c, act))), c, d, Credit.Label(left, act));
  }

  lemma SentIsForChannel(s: System, l: Label)
    requires Can(s, l) && (l.action.App? || l.action.Pulse?)
    ensures forall e :: e in Sent(At(s, l.left), l.action) ==> ForChannel(e, l.action.c)
  {
    forall e | e in Sent(At(s, l.left), l.action)
      ensures ForChannel(e, l.action.c)
    {
      SentTidy(s, l, e);
    }
  }

  lemma AppCouplesOther(s: System, m: map<Id, Credit.Duplex>, left: bool, k: Id, act: Credit.Act, c: Id)
    requires Simulates(s, m) && c in m && Can(s, Label(left, App(k, act))) && c != k
    ensures Couple(Next(s, Label(left, App(k, act))), c, m[c])
  {
    var l := Label(left, App(k, act));
    SentIsForChannel(s, l);
    AppIsLocal(s, left, k, act);
    OtherCouples(s, m, left, k, Act(At(s, left).chans[k], act), Sent(At(s, left), l.action), c);
  }

  lemma AppIsLocal(s: System, left: bool, k: Id, act: Credit.Act)
    requires Can(s, Label(left, App(k, act)))
    ensures var p, a := At(s, left), App(k, act);
            k in p.chans && CanAct(p.chans[k], act)
            && Next(s, Label(left, a)) == With(s, left, p.(chans := p.chans[k := Act(p.chans[k], act)]),
                                               Receiving(At(s, !left), Sent(p, a)))
  {
  }

  lemma FeedCouplesOther(s: System, m: map<Id, Credit.Duplex>, left: bool, k: Id, c: Id)
    requires Simulates(s, m) && c in m && CanBufTake(At(s, left), k) && c != k
    ensures Couple(Next(s, Label(left, Feed(k))), c, m[c])
  {
    OtherCouples(s, m, left, k, BufTake(At(s, left).chans[k]), [], c);
  }

  // -- Open and Pulse

  lemma NoTraceOf(s: System, m: map<Id, Credit.Duplex>, c: Id)
    requires Simulates(s, m) && c !in m
    ensures Pipe(s.l, c) == [] && Pipe(s.r, c) == [] && c !in s.l.chans && c !in s.r.chans
  {
    forall e | e in Backlog(s.l) || e in Backlog(s.r)
      ensures !ForChannel(e, c)
    {
      assert Owner(e) in m;
    }
    assert Front(s.l, c) + Backlog(s.l) == Backlog(s.l);
    assert Front(s.r, c) + Backlog(s.r) == Backlog(s.r);
    OfNone(c, Backlog(s.l));
    OfNone(c, Backlog(s.r));
  }

  lemma OpenCouplesOwn(s: System, m: map<Id, Credit.Duplex>, c: Id, size: int)
    requires Simulates(s, m) && c !in m && size != 0
    ensures Couple(Next(s, Label(true, Open(c, size))), c, Credit.Start(size, SERVER_QUEUE))
  {
    NoTraceOf(s, m, c);
    var s' := Next(s, Label(true, Open(c, size)));
    NothingSent(s.r, c);
    assert Front(s'.l, c) == [] == Front(s.l, c);
    FrontPipe(s.l, s'.l, c);
    CreditLaws.Begin(size, SERVER_QUEUE);
  }

  /** A heartbeat on the link changes nothing for any channel. */
  lemma PulseMoves(q: Mux, h: Event, c: Id)
    requires h.name.ZpcHb? && h.respTo.Some?
    ensures Pipe(Receiving(q, [h]), c) == Pipe(q, c)
    ensures forall e :: e in Backlog(Receiving(q, [h])) ==> e in Backlog(q) || e == h
  {
    OfOne(c, h);
    LinkPipe(q, c, [h]);
  }

  lemma PulseCouples(s: System, m: map<Id, Credit.Duplex>, left: bool, k: Id, h: Event, c: Id)
    requires Simulates(s, m) && c in m && Can(s, Label(left, Pulse(k, h)))
    ensures Couple(Next(s, Label(left, Pulse(k, h))), c, m[c])
  {
    var q, d := At(s, !left), Credit.Facing(m[c], left);
    var sent := Sent(At(s, left), Pulse(k, h));
    assert Couple(s, c, m[c]);
    PulseMoves(q, sent[0], c);
    EndKept(q, Receiving(q, sent), c, d.b, d.ab);
  }

  // -- every step

  /** What the step is on channel `c`: a step of module Credit, or nothing. */
  function OnChannel(l: Label, c: Id): Option<Credit.Label> {
    match l.action
    case Feed(k) => if k == c then Some(Credit.Label(l.left, Credit.Deliver1)) else None
    case App(k, act) => if k == c then Some(Credit.Label(l.left, act)) else None
    case _ => None
  }

  lemma StepCouples(s: System, m: map<Id, Credit.Duplex>, l: Label, c: Id)
    requires Simulates(s, m) && Can(s, l) && c in m
    ensures OnChannel(l, c).Some? ==> Credit.Allowed(m[c], OnChannel(l, c).value)
    ensures Couple(Next(s, l), c, if OnChannel(l, c).Some? then Credit.Next(m[c], OnChannel(l, c).value) else m[c])
  {
    if l.action == Feed(c) {
      FeedCouplesOwn(s, m, l.left, c);
    } else if l.action.App? && l.action.c == c {
      assert Couple(s, c, m[c]);
      AppCouplesOwn(s, m[c], l.left, c, l.action.act);
    } else if l.action.Feed? || l.action.App? || l.action.Open? || l.action.Pulse? {
      ElsewhereCouples(s, m, l, c);
    } else {
      PassingCouples(s, m, l, c);
    }
  }

  /** A step of another channel, or a heartbeat. */
  lemma ElsewhereCouples(s: System, m: map<Id, Credit.Duplex>, l: Label, c: Id)
    requires Simulates(s, m) && Can(s, l) && c in m && OnChannel(l, c).None?
    requires l.action.Feed? || l.action.App? || l.action.Open? || l.action.Pulse?
    ensures Couple(Next(s, l), c, m[c])
  {
    match l.action
    case Feed(k) => FeedCouplesOther(s, m, l.left, k, c);
    case App(k, act) => AppCouplesOther(s, m, l.left, k, act, c);
    case Open(k, size) => OtherCouples(s, m, true, k, NewEndpoint([], size, false), [], c);
    case Pulse(k, h) => PulseCouples(s, m, l.left, k, h, c);
  }

  /** A step that passes an event along. */
  lemma PassingCouples(s: System, m: map<Id, Credit.Duplex>, l: Label, c: Id)
    requires Simulates(s, m) && Can(s, l) && c in m
    requires l.action.Route? || l.action.Deposit? || l.action.TakeRequest? || l.action.Spawn? || l.action.Pull?
    ensures Couple(Next(s, l), c, m[c])
  {
    match l.action
    case Route => RouteCouples(s, m, l.left, c);
    case Deposit => DepositCouples(s, m, l.left, c);
    case TakeRequest => TakeRequestCouples(s, m, l.left, c);
    case Spawn => SpawnCouples(s, m, l.left, c);
    case Pull(k) => PullCouples(s, m, l.left, k, c);
  }

  lemma SpawnCouples(s: System, m: map<Id, Credit.Duplex>, left: bool, c: Id)
    requires Simulates(s, m) && Can(s, Label(left, Spawn)) && c in m
    ensures Couple(Next(s, Label(left, Spawn)), c, m[c])
  {
    RequestIsNew(s, m, left);
    if c == s.r.tasks[0].msgId { SpawnCouplesOwn(s, m, c); } else { SpawnCouplesOther(s, m, c); }
  }

  /** The channels of module Credit after the step. */
  ghost function Followed(m: map<Id, Credit.Duplex>, l: Label): map<Id, Credit.Duplex> {
    if l.action.Open? then m[l.action.c := Credit.Start(l.action.size, SERVER_QUEUE)]
    else
      map c | c in m ::
        if OnChannel(l, c).Some? && Credit.Allowed(m[c], OnChannel(l, c).value)
        then Credit.Next(m[c], OnChannel(l, c).value) else m[c]
  }

  lemma AppAllowed(s: System, m: map<Id, Credit.Duplex>, left: bool, c: Id, act: Credit.Act)
    requires Simulates(s, m) && c in m && Can(s, Label(left, App(c, act)))
    ensures Credit.Allowed(m[c], Credit.Label(left, act))
  {
    assert Couple(s, c, m[c]);
    AppIsLocal(s, left, c, act);
    AppCouplesOwn(s, m[c], left, c, act);
  }

  lemma FollowedApp(m: map<Id, Credit.Duplex>, left: bool, c: Id, act: Credit.Act)
    requires c in m && Credit.Allowed(m[c], Credit.Label(left, act))
    ensures var m' := Followed(m, Label(left, App(c, act)));
            c in m' && m'[c] == Credit.Next(m[c], Credit.Label(left, act))
  {
  }

  lemma OwnersKept(s: System, m: map<Id, Credit.Duplex>, l: Label)
    requires Simulates(s, m) && Can(s, l)
    ensures forall e :: e in Backlog(Next(s, l).l) || e in Backlog(Next(s, l).r) ==> Owner(e) in Followed(m, l)
  {
    var p, q := At(s, l.left), At(s, !l.left);
    NextSides(s, l);
    FewerEvents(s, l);
    LinkPipe(q, "", Sent(p, l.action));
    SentHasOwner(s, m, l);
    assert forall c :: c in m ==> c in Followed(m, l);
  }

  lemma SentHasOwner(s: System, m: map<Id, Credit.Duplex>, l: Label)
    requires Simulates(s, m) && Can(s, l)
    ensures forall e :: e in Sent(At(s, l.left), l.action) ==> Owner(e) in m
  {
    if l.action.App? || l.action.Pulse? {
      SentIsForChannel(s, l);
    }
  }

  lemma HereKeys(s: System, l: Label)
    requires Can(s, l)
    ensures Here(At(s, l.left), l.action).chans.Keys == At(s, l.left).chans.Keys
              + (if l.action.Open? then {l.action.c}
                 else if l.action.Spawn? then {At(s, l.left).tasks[0].msgId} else {})
  {
    var p := At(s, l.left);
    if l.action.Deposit? && p.hand[0].respTo.Some? {
      assert p.hand[0].respTo.value in p.chans;
    }
  }

  lemma FollowedKeys(s: System, m: map<Id, Credit.Duplex>, l: Label)
    requires m.Keys == s.l.chans.Keys && s.r.chans.Keys <= m.Keys && Can(s, l)
    requires l.action.Spawn? ==> !l.left && s.r.tasks[0].msgId in m
    ensures Followed(m, l).Keys == Next(s, l).l.chans.Keys
    ensures Next(s, l).r.chans.Keys <= Followed(m, l).Keys
  {
    HereKeys(s, l);
  }

  lemma FollowedCouples(s: System, m: map<Id, Credit.Duplex>, l: Label, c: Id)
    requires Simulates(s, m) && Can(s, l) && c in Followed(m, l)
    ensures Couple(Next(s, l), c, Followed(m, l)[c])
  {
    if l.action.Open? && c == l.action.c {
      OpenCouplesOwn(s, m, c, l.action.size);
    } else {
      StepCouples(s, m, l, c);
    }
  }

  /** The refinement: every step keeps every channel coupled with module Credit. */
  lemma StepSimulates(s: System, m: map<Id, Credit.Duplex>, l: Label)
    requires Simulates(s, m) && Can(s, l)
    ensures Simulates(Next(s, l), Followed(m, l))
  {
    NextTidy(s, m, l);
    OwnersKept(s, m, l);
    if l.action.Spawn? { RequestIsNew(s, m, l.left); }
    FollowedKeys(s, m, l);
    forall c | c in Followed(m, l)
      ensures Couple(Next(s, l), c, Followed(m, l)[c])
    {
      FollowedCouples(s, m, l, c);
    }
  }

  ghost predicate Simulated(s: System) {
    exists m :: Simulates(s, m)
  }

  lemma {:induction false} RunSimulates(s: System, run: seq<Label>, s': System)
    requires Simulated(s) && Run(s, run, s')
    ensures Simulated(s')
    decreases |run|
  {
    if run != [] {
      var m: map<Id, Credit.Duplex> :| Simulates(s, m);
      StepSimulates(s, m, run[0]);
      RunSimulates(Next(s, run[0]), run[1..], s');
    }
  }

  ghost predicate Reachable(s: System) {
    exists run :: Run(INITIAL, run, s)
  }

  lemma InitialSimulates()
    ensures Simulates(INITIAL, map[])
  {
  }

  lemma StackSimulates(s: System)
    requires Reachable(s)
    ensures Simulated(s)
  {
    var run :| Run(INITIAL, run, s);
    InitialSimulates();
    RunSimulates(INITIAL, run, s);
  }

  /** Every reachable state of the whole stack is, on every channel at once, a reachable
      state of module Credit: same buffers, and on the links exactly the channel's events
      still to be delivered, in order. */
  lemma StackRefinesCredit(s: System)
    requires Reachable(s)
    ensures forall c :: c in s.l.chans ==> exists d :: Couple(s, c, d)
    ensures s.r.chans.Keys <= s.l.chans.Keys
  {
    StackSimulates(s);
    var m: map<Id, Credit.Duplex> :| Simulates(s, m);
    forall c | c in s.l.chans
      ensures exists d :: Couple(s, c, d)
    {
      assert Couple(s, c, m[c]);
    }
  }

  // ---- what follows for the stack ------------------------------------------------------------------

  /** No event of an open channel is ever dropped for want of a route, but heartbeats. */
  lemma Routability(s: System, left: bool)
    requires Reachable(s) && CanDispatch(At(s, left))
    ensures var e := At(s, left).inbox[0];
            Routable(At(s, left), e) || e.name.ZpcHb?
            || (Owner(e) in At(s, left).chans && !Active(At(s, left), Owner(e)))
  {
    StackSimulates(s);
    var m: map<Id, Credit.Duplex> :| Simulates(s, m);
    var e := At(s, left).inbox[0];
    BacklogParts(At(s, left), e);
    if !Routable(At(s, left), e) && !e.name.ZpcHb? {
      UnroutableIsHarmless(s, m, left, Owner(e));
    }
  }

  /** The `_recver` of a channel's buffer never dies of a queue overflow. */
  lemma BufferNeverOverflows(s: System, left: bool, c: Id)
    requires Reachable(s) && CanBufTake(At(s, left), c)
    ensures !Overflows(At(s, left).chans[c].buf, At(s, left).chans[c].held[0])
    ensures Active(At(s, left), c)
  {
    StackSimulates(s);
    var m: map<Id, Credit.Duplex> :| Simulates(s, m);
    FeedIsSafe(s, m, left, c);
  }

  lemma FeedIsSafe(s: System, m: map<Id, Credit.Duplex>, left: bool, c: Id)
    requires Simulates(s, m) && CanBufTake(At(s, left), c)
    ensures !Overflows(At(s, left).chans[c].buf, At(s, left).chans[c].held[0])
    ensures Active(At(s, left), c)
  {
    var d, p, q := m[c], At(s, left), At(s, !left);
    assert Couple(s, c, d);
    assert TidyEnd(p.chans[c], c);
    AliveIsOpen(s, c, d, left);
    FeedEnds(p, q, c, Credit.Facing(d, left));
    CreditLaws.ReachableInv(d.a.buf.size, SERVER_QUEUE, d);
    Credit.NeverOverflows(Credit.Facing(d, left));
    assert p.chans[c].held[0] in p.chans[c].held;
    BufTakePipe(p, c, c);
  }

  /** The credit of each channel, on the stack itself: what the reader's end has reserved
      covers the slots, the events on the way or queued, and the grants on their way back. */
  lemma ChannelNeverOvercommitted(s: System, c: Id)
    requires Reachable(s) && Active(s.l, c) && Active(s.r, c)
    ensures s.l.chans[c].buf.slots + |Data(Pipe(s.r, c))| + |s.r.chans[c].buf.queue| + Credit.CreditIn(Pipe(s.l, c))
         <= s.r.chans[c].buf.reserved <= SERVER_QUEUE
    ensures s.r.chans[c].buf.slots + |Data(Pipe(s.l, c))| + |s.l.chans[c].buf.queue| + Credit.CreditIn(Pipe(s.r, c))
         <= s.l.chans[c].buf.reserved
    ensures s.l.chans[c].buf.size > 0 ==> s.l.chans[c].buf.reserved <= s.l.chans[c].buf.size
    ensures s.r.chans[c].buf.size == 100
    ensures s.l.chans[c].buf.slots >= 0 && s.r.chans[c].buf.slots >= 0
  {
    StackSimulates(s);
    var m: map<Id, Credit.Duplex> :| Simulates(s, m);
    assert Couple(s, c, m[c]);
    CreditLaws.ReachableInv(m[c].a.buf.size, SERVER_QUEUE, m[c]);
    CreditLaws.SizesAreFixed(m[c].a.buf.size, SERVER_QUEUE, m[c]);
  }

  // ---- the dispatcher ------------------------------------------------------------------------------------

  /** The dispatcher holds an event it cannot put. */
  predicate Blocked(p: Mux) {
    p.hand != [] && !CanPut(p)
  }

  /** Will feeding the buffer of `c` close the channel? */
  predicate AboutToClose(ep: Endpoint) {
    ep.held != [] && !ep.held[0].name.ZpcMore? && ClosesOn(ep.buf, ep.held[0])
  }

  /** While the channel it is blocked on is open, a step of that channel's receive chain
      is possible; blocked on a broadcast, the acceptor can go on. */
  lemma DispatcherProgress(s: System, left: bool)
    requires Reachable(s) && Blocked(At(s, left))
    ensures var p := At(s, left);
            match p.hand[0].respTo
            case None => Can(s, Label(left, TakeRequest)) && CanPut(Here(p, TakeRequest))
            case Some(c) => c in p.chans && (Active(p, c) ==> CanBeatTake(p, c) || CanBufTake(p, c))
  {
    StackSimulates(s);
    var m: map<Id, Credit.Duplex> :| Simulates(s, m);
    var p := At(s, left);
    assert Tidy(p);
    if p.hand[0].respTo.Some? && Active(p, p.hand[0].respTo.value) {
      OpenIsAlive(s, m, left, p.hand[0].respTo.value);
    }
  }

  lemma OpenIsAlive(s: System, m: map<Id, Credit.Duplex>, left: bool, c: Id)
    requires Simulates(s, m) && Active(At(s, left), c)
    ensures At(s, left).chans[c].buf.alive
  {
    assert Couple(s, c, m[c]);
    CreditLaws.ReachableInv(m[c].a.buf.size, SERVER_QUEUE, m[c]);
  }

  /** The receive chain of `c`, and everything else but the application's end of `c`. */
  ghost predicate NotByApp(run: seq<Label>, left: bool, c: Id) {
    forall l :: l in run ==> !(l.left == left && l.action.App? && l.action.c == c)
  }

  ghost predicate CanRelease(s: System, left: bool, c: Id) {
    exists run, s' :: Run(s, run, s') && NotByApp(run, left, c) && At(s', left).hand == []
  }

  /** Blocked for good: the channel is closed, or its next event will close it. */
  predicate Wedged(p: Mux, c: Id) {
    && p.hand != [] && p.hand[0].respTo == Some(c) && c in p.chans
    && |p.chans[c].queue| >= QUEUE_SIZE
    && (!p.chans[c].buf.open || AboutToClose(p.chans[c]))
  }

  lemma WedgedHere(s: System, left: bool, c: Id, a: Action)
    requires Wedged(At(s, left), c) && Can(s, Label(left, a))
    requires !(a.App? && a.c == c)
    requires a.Spawn? ==> At(s, left).tasks[0].msgId != c
    requires a == Feed(c) ==>
               At(s, left).chans[c].buf.open && !Overflows(At(s, left).chans[c].buf, At(s, left).chans[c].held[0])
    ensures Wedged(Here(At(s, left), a), c)
  {
  }

  lemma WedgedStaysHere(s: System, m: map<Id, Credit.Duplex>, left: bool, c: Id, a: Action)
    requires Simulates(s, m) && Wedged(At(s, left), c) && Can(s, Label(left, a)) && !(a.App? && a.c == c)
    ensures Wedged(Here(At(s, left), a), c)
  {
    if a == Feed(c) { FeedIsSafe(s, m, left, c); }
    if a.Spawn? { RequestIsNew(s, m, left); }
    WedgedHere(s, left, c, a);
  }

  lemma WedgedStays(s: System, m: map<Id, Credit.Duplex>, left: bool, c: Id, l: Label)
    requires Simulates(s, m) && Wedged(At(s, left), c) && Can(s, l)
    requires !(l.left == left && l.action.App? && l.action.c == c)
    ensures Wedged(At(Next(s, l), left), c)
  {
    NextSides(s, l);
    if l.left == left {
      WedgedStaysHere(s, m, left, c, l.action);
    }
  }

  lemma {:induction false} WedgedForever(s: System, left: bool, c: Id, run: seq<Label>, s': System)
    requires Simulated(s) && Wedged(At(s, left), c) && Run(s, run, s') && NotByApp(run, left, c)
    ensures Wedged(At(s', left), c)
    decreases |run|
  {
    if run != [] {
      assert run[0] in run;
      var m: map<Id, Credit.Duplex> :| Simulates(s, m);
      WedgedStays(s, m, left, c, run[0]);
      StepSimulates(s, m, run[0]);
      assert forall l :: l in run[1..] ==> l in run;
      WedgedForever(Next(s, run[0]), left, c, run[1..], s');
    }
  }

  lemma PullThenPut(s: System, left: bool, c: Id)
    requires Tidy(At(s, left)) && CanBeatTake(At(s, left), c)
    requires At(s, left).hand != [] && At(s, left).hand[0].respTo == Some(c)
    ensures CanRelease(s, left, c)
  {
    var s1 := Next(s, Label(left, Pull(c)));
    assert TidyEnd(At(s, left).chans[c], c);
    assert CanPut(At(s1, left));
    var s2 := Next(s1, Label(left, Deposit));
    var run := [Label(left, Pull(c)), Label(left, Deposit)];
    assert run[1..] == [Label(left, Deposit)] && run[1..][1..] == [];
    assert Run(s2, [], s2);
    assert Run(s1, run[1..], s2);
    assert Run(s, run, s2);
  }

  lemma ReleaseAfter(s: System, left: bool, c: Id, l: Label)
    requires Can(s, l) && CanRelease(Next(s, l), left, c) && !l.action.App?
    ensures CanRelease(s, left, c)
  {
    var run, s' :| Run(Next(s, l), run, s') && NotByApp(run, left, c) && At(s', left).hand == [];
    assert ([l] + run)[1..] == run;
    assert Run(s, [l] + run, s');
  }

  lemma FeedThenRelease(s: System, m: map<Id, Credit.Duplex>, left: bool, c: Id)
    requires Simulates(s, m) && CanBufTake(At(s, left), c) && !AboutToClose(At(s, left).chans[c])
    requires Blocked(At(s, left)) && At(s, left).hand[0].respTo == Some(c)
    ensures CanRelease(s, left, c)
  {
    FeedIsSafe(s, m, left, c);
    var l := Label(left, Feed(c));
    StepSimulates(s, m, l);
    PullThenPut(Next(s, l), left, c);
    ReleaseAfter(s, left, c, l);
  }

  lemma WedgedIsNotReleased(s: System, left: bool, c: Id)
    requires Simulated(s) && Wedged(At(s, left), c)
    ensures !CanRelease(s, left, c)
  {
    if CanRelease(s, left, c) {
      var run, s' :| Run(s, run, s') && NotByApp(run, left, c) && At(s', left).hand == [];
      WedgedForever(s, left, c, run, s');
    }
  }

  lemma ChainReleases(s: System, left: bool, c: Id)
    requires Simulated(s) && Blocked(At(s, left)) && At(s, left).hand[0].respTo == Some(c)
    requires CanBeatTake(At(s, left), c) || (CanBufTake(At(s, left), c) && !AboutToClose(At(s, left).chans[c]))
    ensures CanRelease(s, left, c)
  {
    var m: map<Id, Credit.Duplex> :| Simulates(s, m);
    if CanBeatTake(At(s, left), c) {
      PullThenPut(s, left, c);
    } else {
      FeedThenRelease(s, m, left, c);
    }
  }

  /** Head-of-line blocking, exactly: a dispatcher blocked on channel `c` can get free without
      the application's help if and only if `c` is open and the event its buffer is given next
      does not close it.  Otherwise it is blocked for good, with every other channel behind it. */
  lemma ReleasedIffChannelStaysOpen(s: System, left: bool, c: Id)
    requires Reachable(s) && Blocked(At(s, left)) && At(s, left).hand[0].respTo == Some(c)
    ensures c in At(s, left).chans
    ensures CanRelease(s, left, c) <==> Active(At(s, left), c) && !AboutToClose(At(s, left).chans[c])
  {
    DispatcherProgress(s, left);
    StackSimulates(s);
    var p := At(s, left);
    if Active(p, c) && !AboutToClose(p.chans[c]) {
      ChainReleases(s, left, c);
    } else {
      WedgedIsNotReleased(s, left, c);
    }
  }
}
