/** One call, on channel `c`, in a whole stack: the client and the server task take the steps
    of module Call at their ends of `c`, and between any two of them come any steps of the
    dispatchers and other greenlets, heartbeats, and whatever goes on on other channels.

    Every run of that system is, seen from the call, a run of module Call.  So what the
    client sees there it sees here, under every interleaving; and the call goes on here as
    it does there, unless a dispatcher is blocked on a channel that was closed. */
module CallOnStack {
  import opened Protocol
  import opened Buffering
  import Credit
  import CreditLaws
  import opened Rpc
  import Call
  import opened Multiplex
  import Stack
  import StackLaws

  datatype World = World(s: Stack.System, client: Call.Client, yielded: seq<Args>, server: Call.Server)

  datatype Deed =
    | Around(turn: Stack.Label)   // anything but the application's ends of `c`
    | Own(move: Call.Move)         // the client or the server task of the call

  const START := World(Stack.INITIAL, Call.Calling, [], Call.Idle)

  // ---- the steps -------------------------------------------------------------------------

  /** What a move does at its end of the channel, with no yield between. */
  function Acts(z: Call.Setup, c: Id, w: World, m: Call.Move): seq<Credit.Act> {
    match m
    case SendRequest => [Credit.Emit(z.request, true)]
    case ClientEnter(h) => [Credit.Enter(h, true)]
    case ClientGet =>
      [Credit.Get] + if ReadingOn(w) && Head(w, c).Some? then ClosesAfter(Resume(Head(w, c).value)) else []
    case ClientStart =>
      if !w.client.Received? then []
      else
        var e := w.client.first;
        (if SelectFrom(PATTERNS, e) == Some(ReqStream) then [Credit.Install(Call.IS_STREAM_DONE)] else [])
          + ClosesAfter(First(e))
    case ClientTimeOut => [Credit.Close, Credit.TimeOut]
    case ServerEnter(h) => [Credit.Enter(h, true)]
    case ServerGet => [Credit.Get]
    case ServerEmit => if Call.Unsent(w.server) then [Call.Trying(Call.NextTry(w.server))] else []
    case ServerBlock => [Credit.Block]
    case ServerWake => if Call.Unsent(w.server) then [Call.Retrying(Call.NextTry(w.server))] else []
    case ServerClose => [Credit.Close]
    case _ => []
  }

  function ClosesAfter(r: Reader): seq<Credit.Act> {
    if r.Done? then [Credit.Close] else []
  }

  predicate ReadingOn(w: World) {
    w.client == Call.Listening(Iterating)
  }

  /** The event the client reads next. */
  function Head(w: World, c: Id): Option<Event> {
    if c in w.s.l.chans && w.s.l.chans[c].buf.queue != [] then Some(w.s.l.chans[c].buf.queue[0]) else None
  }

  predicate CanDo(s: Stack.System, left: bool, c: Id, acts: seq<Credit.Act>)
    decreases |acts|
  {
    acts == [] || (Stack.Can(s, AppLabel(left, c, acts[0]))
                   && CanDo(Stack.Next(s, AppLabel(left, c, acts[0])), left, c, acts[1..]))
  }

  function Do(s: Stack.System, left: bool, c: Id, acts: seq<Credit.Act>): Stack.System
    requires CanDo(s, left, c, acts)
    decreases |acts|
  {
    if acts == [] then s else Do(Stack.Next(s, AppLabel(left, c, acts[0])), left, c, acts[1..])
  }

  function AppLabel(left: bool, c: Id, act: Credit.Act): Stack.Label {
    Stack.Label(left, Stack.App(c, act))
  }

  predicate Can(z: Call.Setup, c: Id, w: World, deed: Deed) {
    match deed
    case Around(l) =>
      && Stack.Can(w.s, l)
      && !(l.action.App? && l.action.c == c)
      && (l.action.Open? && l.action.c == c ==> l.action.size == z.slots)
    case Own(m) =>
      && !m.ClientDeliver? && !m.ServerDeliver?
      && c in Stack.At(w.s, Call.OfClient(m)).chans
      && Call.InPlace(w.client, w.server, m)
      && CanDo(w.s, Call.OfClient(m), c, Acts(z, c, w, m))
  }

  /** The client has event `e`, and its reader is now `r`. */
  function Judged(w: World, e: Event, r: Reader): World {
    match r
    case Iterating => w.(client := Call.Listening(Iterating), yielded := w.yielded + [e.args])
    case Done(o) => w.(client := Call.Finished(o))
    case Awaiting => w
  }

  /** The program of the call after a move. */
  function Told(z: Call.Setup, c: Id, w: World, m: Call.Move): World {
    match m
    case SendRequest => w.(client := Call.Listening(Awaiting))
    case ClientGet =>
      if Head(w, c).None? then w
      else
        var e := Head(w, c).value;
        if ReadingOn(w) then Judged(w, e, Resume(e)) else w.(client := Call.Received(e))
    case ClientStart => if w.client.Received? then Judged(w, w.client.first, First(w.client.first)) else w
    case ClientTimeOut => w.(client := Call.Abandoned)
    case ServerGet => w.(server := Call.Replying(z.tries))
    case ServerEmit => if Call.Unsent(w.server) then w.(server := Call.Replying(w.server.unsent[1..])) else w
    case ServerWake => if Call.Unsent(w.server) then w.(server := Call.Replying(w.server.unsent[1..])) else w
    case ServerClose => w.(server := Call.Gone)
    case _ => w
  }

  function Next(z: Call.Setup, c: Id, w: World, deed: Deed): World
    requires Can(z, c, w, deed)
  {
    match deed
    case Around(l) => w.(s := Stack.Next(w.s, l))
    case Own(m) => Told(z, c, w, m).(s := Do(w.s, Call.OfClient(m), c, Acts(z, c, w, m)))
  }

  ghost predicate Run(z: Call.Setup, c: Id, w: World, deeds: seq<Deed>, w': World)
    decreases |deeds|
  {
    if deeds == [] then w == w'
    else Can(z, c, w, deeds[0]) && Run(z, c, Next(z, c, w, deeds[0]), deeds[1..], w')
  }

  ghost predicate Reachable(z: Call.Setup, c: Id, w: World) {
    exists deeds :: Run(z, c, START, deeds, w)
  }

  // ---- seen from the call ------------------------------------------------------------------

  function View(w: World, d: Credit.Duplex): Call.Call {
    Call.Call(d, w.client, w.yielded, w.server)
  }

  /** The deeds that are moves of the call: its own, and deliveries on its channel. */
  predicate OfCall(c: Id, deed: Deed) {
    deed.Own? || deed.turn.action == Stack.Feed(c)
  }

  function CallMoves(c: Id, deeds: seq<Deed>): nat {
    if deeds == [] then 0 else (if OfCall(c, deeds[0]) then 1 else 0) + CallMoves(c, deeds[1..])
  }

  /** The channels of the stack are runs of Credit, and `c` is in the run `moves` of Call. */
  ghost predicate Follows(z: Call.Setup, c: Id, w: World, m: map<Id, Credit.Duplex>, moves: seq<Call.Move>) {
    && Stack.Simulates(w.s, m)
    && if c in m then Call.Run(z, Call.Begin(z), moves, View(w, m[c]))
       else w == START.(s := w.s) && moves == []
  }

  lemma {:induction false} CallRunSnoc(z: Call.Setup, c0: Call.Call, moves: seq<Call.Move>, c1: Call.Call, m: Call.Move)
    requires Call.Run(z, c0, moves, c1) && Call.CanMove(z, c1, m)
    ensures Call.Run(z, c0, moves + [m], Call.After(z, c1, m))
    decreases |moves|
  {
    if moves == [] {
      assert Call.Run(z, Call.After(z, c1, m), [], Call.After(z, c1, m));
      assert ([] + [m])[1..] == [];
    } else {
      CallRunSnoc(z, Call.After(z, c0, moves[0]), moves[1..], c1, m);
      assert (moves + [m])[1..] == moves[1..] + [m];
    }
  }

  // -- steps around the call

  function DeliverMove(left: bool): Call.Move {
    if left then Call.ClientDeliver else Call.ServerDeliver
  }

  lemma DeliveryIsMove(z: Call.Setup, w: World, d: Credit.Duplex, left: bool)
    requires Credit.Allowed(d, Credit.Label(left, Credit.Deliver1))
    ensures Call.CanMove(z, View(w, d), DeliverMove(left))
    ensures Call.After(z, View(w, d), DeliverMove(left)) == View(w, Credit.Next(d, Credit.Label(left, Credit.Deliver1)))
  {
  }

  lemma AroundFollows(z: Call.Setup, c: Id, w: World, m: map<Id, Credit.Duplex>, moves: seq<Call.Move>, l: Stack.Label)
    returns (m': map<Id, Credit.Duplex>, moves': seq<Call.Move>)
    requires Follows(z, c, w, m, moves) && Can(z, c, w, Around(l))
    ensures Follows(z, c, Next(z, c, w, Around(l)), m', moves')
    ensures |moves'| == |moves| + if OfCall(c, Around(l)) then 1 else 0
  {
    m', moves' := Stack.Followed(m, l), moves;
    Stack.StepSimulates(w.s, m, l);
    if c in m {
      Stack.StepCouples(w.s, m, l, c);
      if l.action == Stack.Feed(c) {
        DeliveryIsMove(z, w, m[c], l.left);
        CallRunSnoc(z, Call.Begin(z), moves, View(w, m[c]), DeliverMove(l.left));
        moves' := moves + [DeliverMove(l.left)];
      } else {
        assert c in m' && m'[c] == m[c];
      }
    } else {
      NotYetFed(w.s, m, l, c);
    }
  }

  lemma NotYetFed(s: Stack.System, m: map<Id, Credit.Duplex>, l: Stack.Label, c: Id)
    requires Stack.Simulates(s, m) && Stack.Can(s, l) && c !in m
    ensures l.action != Stack.Feed(c)
    ensures c in Stack.Followed(m, l) ==> l.action.Open? && l.action.c == c
  {
    assert c !in s.l.chans && c !in s.r.chans;
  }

  // -- the call's own moves

  /** The end of a channel after a row of acts. */
  function Acted(d: Credit.Duplex, left: bool, acts: seq<Credit.Act>): Credit.Duplex
    decreases |acts|
  {
    if acts == [] || !Credit.Allowed(d, Credit.Label(left, acts[0])) then d
    else Acted(Credit.Next(d, Credit.Label(left, acts[0])), left, acts[1..])
  }

  lemma {:induction false} ActsFollow(s: Stack.System, m: map<Id, Credit.Duplex>, left: bool, c: Id,
                                      acts: seq<Credit.Act>)
    returns (m': map<Id, Credit.Duplex>)
    requires Stack.Simulates(s, m) && c in m && CanDo(s, left, c, acts)
    ensures Stack.Simulates(Do(s, left, c, acts), m') && c in m' && m'[c] == Acted(m[c], left, acts)
    ensures acts != [] ==> Credit.Allowed(m[c], Credit.Label(left, acts[0]))
    decreases |acts|
  {
    if acts == [] {
      m' := m;
    } else {
      var m1 := OneFollows(s, m, left, c, acts[0]);
      m' := ActsFollow(Stack.Next(s, AppLabel(left, c, acts[0])), m1, left, c, acts[1..]);
    }
  }

  lemma OneFollows(s: Stack.System, m: map<Id, Credit.Duplex>, left: bool, c: Id, act: Credit.Act)
    returns (m': map<Id, Credit.Duplex>)
    requires Stack.Simulates(s, m) && c in m && Stack.Can(s, AppLabel(left, c, act))
    ensures Stack.Simulates(Stack.Next(s, AppLabel(left, c, act)), m') && c in m'
    ensures Credit.Allowed(m[c], Credit.Label(left, act)) && m'[c] == Credit.Next(m[c], Credit.Label(left, act))
  {
    var l := AppLabel(left, c, act);
    Stack.AppAllowed(s, m, left, c, act);
    Stack.StepSimulates(s, m, l);
    Stack.FollowedApp(m, left, c, act);
    m' := Stack.Followed(m, l);
  }

  /** The end in the stack is the end in the call. */
  ghost predicate Faces(w: World, c: Id, d: Credit.Duplex) {
    c in w.s.l.chans && w.s.l.chans[c].buf == d.a.buf
  }

  lemma OneAct(d: Credit.Duplex, left: bool, act: Credit.Act)
    requires Credit.Allowed(d, Credit.Label(left, act))
    ensures Acted(d, left, [act]) == Credit.Next(d, Credit.Label(left, act))
  {
    assert [act][1..] == [];
  }

  lemma TwoActs(d: Credit.Duplex, act: Credit.Act, act': Credit.Act)
    requires Credit.Enabled(d, act) && Credit.Enabled(Credit.Perform(d, act), act')
    ensures Acted(d, true, [act, act']) == Credit.Perform(Credit.Perform(d, act), act')
  {
    assert [act, act'][1..] == [act'];
    OneAct(Credit.Perform(d, act), true, act');
  }

  lemma GetIsMove(z: Call.Setup, c: Id, w: World, d: Credit.Duplex)
    requires Faces(w, c, d) && w.client.Listening? && Credit.Enabled(d, Credit.Get)
    ensures Call.CanMove(z, View(w, d), Call.ClientGet)
    ensures Call.After(z, View(w, d), Call.ClientGet)
         == View(Told(z, c, w, Call.ClientGet), Acted(d, true, Acts(z, c, w, Call.ClientGet)))
  {
    var e := d.a.buf.queue[0];
    if ReadingOn(w) && Resume(e).Done? {
      assert [Credit.Get] + [Credit.Close] == [Credit.Get, Credit.Close];
      TwoActs(d, Credit.Get, Credit.Close);
    } else {
      assert [Credit.Get] + [] == [Credit.Get];
      OneAct(d, true, Credit.Get);
    }
  }

  lemma StartIsMove(z: Call.Setup, c: Id, w: World, d: Credit.Duplex)
    requires w.client.Received?
    ensures Call.CanMove(z, View(w, d), Call.ClientStart)
    ensures Call.After(z, View(w, d), Call.ClientStart)
         == View(Told(z, c, w, Call.ClientStart), Acted(d, true, Acts(z, c, w, Call.ClientStart)))
  {
    var e := w.client.first;
    var install := Credit.Install(Call.IS_STREAM_DONE);
    if SelectFrom(PATTERNS, e) == Some(ReqStream) {
      if First(e).Done? {
        assert [install] + [Credit.Close] == [install, Credit.Close];
        TwoActs(d, install, Credit.Close);
      } else {
        assert [install] + [] == [install];
        OneAct(d, true, install);
      }
    } else if First(e).Done? {
      assert [] + [Credit.Close] == [Credit.Close];
      OneAct(d, true, Credit.Close);
    }
  }

  /** Closing, then giving up the wait, is giving up the wait, then closing. */
  lemma TimeOutIsMove(z: Call.Setup, c: Id, w: World, d: Credit.Duplex)
    requires w.client == Call.Listening(Awaiting) && Credit.Enabled(d, Credit.TimeOut)
    ensures Call.CanMove(z, View(w, d), Call.ClientTimeOut)
    ensures Call.After(z, View(w, d), Call.ClientTimeOut)
         == View(Told(z, c, w, Call.ClientTimeOut), Acted(d, true, Acts(z, c, w, Call.ClientTimeOut)))
  {
    TwoActs(d, Credit.Close, Credit.TimeOut);
  }

  predicate Plain(m: Call.Move) {
    m.SendRequest? || m.ClientEnter? || m.ServerEnter? || m.ServerGet? || m.ServerEmit? || m.ServerBlock?
    || m.ServerWake? || m.ServerClose?
  }

  lemma PlainIsMove(z: Call.Setup, c: Id, w: World, d: Credit.Duplex, m: Call.Move)
    requires Plain(m) && Call.InPlace(w.client, w.server, m)
    requires |Acts(z, c, w, m)| == 1 ==> Credit.Allowed(d, Credit.Label(Call.OfClient(m), Acts(z, c, w, m)[0]))
    ensures Call.CanMove(z, View(w, d), m)
    ensures Call.After(z, View(w, d), m) == View(Told(z, c, w, m), Acted(d, Call.OfClient(m), Acts(z, c, w, m)))
  {
    var acts := Acts(z, c, w, m);
    assert acts == [acts[0]];
    OneAct(d, Call.OfClient(m), acts[0]);
  }

  lemma TimeOutNeedsAnEmptyQueue(s: Stack.System, c: Id)
    requires CanDo(s, true, c, [Credit.Close, Credit.TimeOut])
    ensures c in s.l.chans && s.l.chans[c].inRecv && s.l.chans[c].buf.queue == []
  {
    assert [Credit.Close, Credit.TimeOut][1..] == [Credit.TimeOut];
  }

  lemma OwnIsMove(z: Call.Setup, c: Id, w: World, m: map<Id, Credit.Duplex>, move: Call.Move)
    returns (m': map<Id, Credit.Duplex>)
    requires Stack.Simulates(w.s, m) && c in m && Can(z, c, w, Own(move))
    ensures Stack.Simulates(Next(z, c, w, Own(move)).s, m') && c in m'
    ensures Call.CanMove(z, View(w, m[c]), move)
    ensures Call.After(z, View(w, m[c]), move) == View(Next(z, c, w, Own(move)), m'[c])
  {
    var acts := Acts(z, c, w, move);
    m' := ActsFollow(w.s, m, Call.OfClient(move), c, acts);
    assert Stack.Couple(w.s, c, m[c]);
    if move.ClientGet? {
      GetIsMove(z, c, w, m[c]);
    } else if move.ClientStart? {
      StartIsMove(z, c, w, m[c]);
    } else if move.ClientTimeOut? {
      TimeOutNeedsAnEmptyQueue(w.s, c);
      TimeOutIsMove(z, c, w, m[c]);
    } else {
      PlainIsMove(z, c, w, m[c], move);
    }
  }

  lemma OwnFollows(z: Call.Setup, c: Id, w: World, m: map<Id, Credit.Duplex>, moves: seq<Call.Move>, move: Call.Move)
    returns (m': map<Id, Credit.Duplex>)
    requires Follows(z, c, w, m, moves) && Can(z, c, w, Own(move))
    ensures Follows(z, c, Next(z, c, w, Own(move)), m', moves + [move])
  {
    assert c in m;
    m' := OwnIsMove(z, c, w, m, move);
    CallRunSnoc(z, Call.Begin(z), moves, View(w, m[c]), move);
  }

  // -- every run

  lemma {:induction false} RunFollows(z: Call.Setup, c: Id, w: World, deeds: seq<Deed>, w': World,
                                      m: map<Id, Credit.Duplex>, moves: seq<Call.Move>)
    returns (m': map<Id, Credit.Duplex>, moves': seq<Call.Move>)
    requires Follows(z, c, w, m, moves) && Run(z, c, w, deeds, w')
    ensures Follows(z, c, w', m', moves') && |moves'| == |moves| + CallMoves(c, deeds)
    decreases |deeds|
  {
    if deeds == [] {
      m', moves' := m, moves;
    } else {
      match deeds[0] {
        case Around(l) => m', moves' := AroundFollows(z, c, w, m, moves, l);
        case Own(move) =>
          m' := OwnFollows(z, c, w, m, moves, move);
          moves' := moves + [move];
      }
      m', moves' := RunFollows(z, c, Next(z, c, w, deeds[0]), deeds[1..], w', m', moves');
    }
  }

  lemma StartFollows(z: Call.Setup, c: Id)
    ensures Follows(z, c, START, map[], [])
  {
    Stack.InitialSimulates();
  }

  /** What the call is doing in the stack, it can be doing on a channel of its own. */
  lemma CallRefines(z: Call.Setup, c: Id, w: World) returns (m: map<Id, Credit.Duplex>)
    requires Reachable(z, c, w)
    ensures Stack.Simulates(w.s, m)
    ensures c in m ==> Call.Reachable(z, View(w, m[c]))
    ensures c !in m ==> w == START.(s := w.s)
  {
    var deeds :| Run(z, c, START, deeds, w);
    StartFollows(z, c);
    var moves;
    m, moves := RunFollows(z, c, START, deeds, w, map[], []);
  }

  // ---- what the client sees ------------------------------------------------------------------

  /** Under every interleaving of the call with the dispatchers, the heartbeats and all other
      channels: what the iterator has yielded is a prefix of the values streamed, and a call
      that ended did so with all of them and with the outcome the reply means. */
  lemma ClientSeesTheReply(z: Call.Setup, c: Id, w: World)
    requires Call.Legal(z) && Reachable(z, c, w)
    ensures w.yielded <= Meaning(z.reply).yielded
    ensures w.client.Finished? ==> Rpc.View(Done(w.client.outcome), w.yielded) == Meaning(z.reply)
  {
    var m := CallRefines(z, c, w);
    if c in m {
      Call.ClientSeesTheReply(z, View(w, m[c]));
    }
  }

  /** From the server's function to the client's iterator, through the whole stack: exactly
      the items produced, in order, then the end. */
  lemma StreamEndToEnd(request: Event, task: Task, slots: int, c: Id, w: World)
    requires !IsControl(request) && slots != 0
    requires task.functor.Some? && task.functor.value.Stream? && NothingRaises(task)
    requires Reachable(Call.Answering(request, task, slots), c, w)
    ensures w.yielded <= ValArgs(task.functor.value.items)
    ensures w.client.Finished? ==> w.client.outcome == Exhausted && w.yielded == ValArgs(task.functor.value.items)
  {
    var m := CallRefines(Call.Answering(request, task, slots), c, w);
    if c in m {
      Call.StreamEndToEnd(request, task, slots, View(w, m[c]));
    }
  }

  /** The first exception arrives as a remote error, after the items handed out before it. */
  lemma ErrorEndToEnd(request: Event, task: Task, slots: int, c: Id, w: World, k: nat)
    requires !IsControl(request) && slots != 0
    requires StampsV3(task) && !EndsSilently(task) && RaisesFirst(task, k) && Points(task)[k].value.Plain?
    requires Reachable(Call.Answering(request, task, slots), c, w)
    ensures w.yielded <= ValArgs(ItemsBefore(task, k))
    ensures w.client.Finished? ==>
              w.client.outcome == AsSeen(Points(task)[k].value.parts) && w.yielded == ValArgs(ItemsBefore(task, k))
  {
    var m := CallRefines(Call.Answering(request, task, slots), c, w);
    if c in m {
      Call.ErrorEndToEnd(request, task, slots, View(w, m[c]), k);
    }
  }

  /** The call takes at most 7M + 14 moves of its own and deliveries on its channel, however
      many steps the rest of the stack takes between them. */
  lemma CallIsBounded(z: Call.Setup, c: Id, deeds: seq<Deed>, w: World)
    requires Call.Legal(z) && Run(z, c, START, deeds, w)
    ensures CallMoves(c, deeds) <= 7 * |z.tries| + 14
  {
    StartFollows(z, c);
    var m, moves := RunFollows(z, c, START, deeds, w, map[], []);
    if c in m {
      Call.CallIsBounded(z, moves, View(w, m[c]));
    }
  }

  // ---- the call goes on ------------------------------------------------------------------------

  /** The headers of the call: the request names the channel, all else responds on it. */
  ghost predicate Addressed(z: Call.Setup, c: Id) {
    && z.request.v == Some(3) && z.request.respTo == None && z.request.msgId == c
    && forall t :: t in z.tries ==> t.event.v == Some(3) && t.event.respTo == Some(c)
  }

  function Response(c: Id): Event {
    Event(STREAM, Nothing, "", Some(c), Some(3))
  }

  /** The move of the call that module Call says is possible, with headers for this channel. */
  function SomeMove(z: Call.Setup, c: Id, v: Call.Call): Call.Move {
    match Call.SomeMove(z, v)
    case ClientEnter(_) => Call.ClientEnter(Response(c))
    case ServerEnter(_) => Call.ServerEnter(Response(c))
    case m => m
  }

  lemma CanDoOne(s: Stack.System, left: bool, c: Id, act: Credit.Act)
    requires c in Stack.At(s, left).chans
    requires CanAct(Stack.At(s, left).chans[c], act) && Stack.HeadersOf(c, Stack.At(s, left).chans[c], act)
    ensures CanDo(s, left, c, [act])
  {
    assert [act][1..] == [];
  }

  lemma CanDoThenClose(s: Stack.System, c: Id, act: Credit.Act)
    requires c in s.l.chans && CanAct(s.l.chans[c], act) && Stack.HeadersOf(c, s.l.chans[c], act)
    ensures CanDo(s, true, c, [act, Credit.Close])
  {
    assert [act, Credit.Close][1..] == [Credit.Close];
    CanDoOne(Stack.Next(s, AppLabel(true, c, act)), true, c, Credit.Close);
  }

  lemma CanGet(z: Call.Setup, c: Id, w: World)
    requires c in w.s.l.chans && w.client.Listening? && w.s.l.chans[c].inRecv && w.s.l.chans[c].buf.queue != []
    ensures Can(z, c, w, Own(Call.ClientGet))
  {
    if ReadingOn(w) && Resume(Head(w, c).value).Done? {
      assert [Credit.Get] + [Credit.Close] == [Credit.Get, Credit.Close];
      CanDoThenClose(w.s, c, Credit.Get);
    } else {
      assert [Credit.Get] + [] == [Credit.Get];
      CanDoOne(w.s, true, c, Credit.Get);
    }
  }

  lemma CanStart(z: Call.Setup, c: Id, w: World)
    requires c in w.s.l.chans && w.client.Received?
    ensures Can(z, c, w, Own(Call.ClientStart))
  {
    var e := w.client.first;
    var install := Credit.Install(Call.IS_STREAM_DONE);
    CanDoOne(w.s, true, c, install);
    CanDoOne(w.s, true, c, Credit.Close);
    CanDoThenClose(w.s, c, install);
    assert [install] + [Credit.Close] == [install, Credit.Close] && [install] + [] == [install];
    assert [] + [Credit.Close] == [Credit.Close];
    var acts := Acts(z, c, w, Call.ClientStart);
    assert acts == [] || acts == [install] || acts == [Credit.Close] || acts == [install, Credit.Close];
  }

  /** What is known of a move of the call that is possible. */
  ghost predicate Ready(z: Call.Setup, c: Id, v: Call.Call, move: Call.Move) {
    && (if move.SendRequest? then v.d.a.emitted == [] else v.d.a.emitted != [])
    && (move.ClientEnter? || move.ServerEnter? ==> move.header == Response(c))
    && (Call.Unsent(v.server) ==> Call.NextTry(v.server) in z.tries)
  }

  lemma PossibleIsReady(z: Call.Setup, c: Id, v: Call.Call, move: Call.Move)
    requires Call.CallInv(z, v) && Call.CanMove(z, v, move) && (!Call.OfClient(move) ==> v.client.Listening?)
    requires move.ClientDeliver? ==> v.client.Listening?
    requires (move.ClientEnter? || move.ServerEnter?) ==> move.header == Response(c)
    ensures Ready(z, c, v, move)
  {
    if Call.Unsent(v.server) {
      assert Call.NextTry(v.server) == z.tries[|z.tries| - |v.server.unsent|];
    }
  }

  lemma CanDoPlain(z: Call.Setup, c: Id, w: World, d: Credit.Duplex, move: Call.Move)
    requires Stack.Couple(w.s, c, d) && Addressed(z, c) && Plain(move) && c in Stack.At(w.s, Call.OfClient(move)).chans
    requires Call.CanMove(z, View(w, d), move) && Ready(z, c, View(w, d), move)
    requires forall t :: t in z.tries ==> !IsControl(t.event)
    ensures Can(z, c, w, Own(move))
  {
    var act := Acts(z, c, w, move)[0];
    assert Acts(z, c, w, move) == [act];
    CanDoOne(w.s, Call.OfClient(move), c, act);
  }

  /** Where a move of module Call is a delivery, something is on its way in the stack. */
  lemma DeliveryGoesOn(z: Call.Setup, c: Id, w: World, m: map<Id, Credit.Duplex>, left: bool) returns (deed: Deed)
    requires Stack.Reachable(w.s) && Stack.Simulates(w.s, m) && c in m
    requires Credit.Allowed(m[c], Credit.Label(left, Credit.Deliver1))
    requires !StackLaws.Jammed(Stack.At(w.s, left))
    ensures Can(z, c, w, deed) && deed.Around? && StackLaws.Greenlet(deed.turn)
  {
    var d := Credit.Facing(m[c], left);
    assert Stack.Couple(w.s, c, m[c]);
    CreditLaws.ReachableInv(m[c].a.buf.size, SERVER_QUEUE, m[c]);
    assert d.a.buf.open && d.ba != [];
    var l := StackLaws.PipeGoesOn(w.s, left, c);
    deed := Around(l);
  }

  /** The request is on its way to a server that has no channel for it yet. */
  lemma RequestGoesOn(z: Call.Setup, c: Id, w: World, m: map<Id, Credit.Duplex>) returns (deed: Deed)
    requires Stack.Reachable(w.s) && Stack.Simulates(w.s, m) && c in m && c !in w.s.r.chans && m[c].a.emitted != []
    requires !StackLaws.Jammed(w.s.r)
    ensures Can(z, c, w, deed) && deed.Around? && StackLaws.Greenlet(deed.turn)
  {
    assert Stack.Couple(w.s, c, m[c]);
    Stack.OnlyTheRequest(w.s, c, m[c]);
    var l := StackLaws.PipeGoesOn(w.s, false, c);
    deed := Around(l);
  }

  /** The states of the stack in a run of the call are reachable states of the stack. */
  lemma {:induction false} DoReaches(s: Stack.System, left: bool, c: Id, acts: seq<Credit.Act>)
    requires Stack.Reachable(s) && CanDo(s, left, c, acts)
    ensures Stack.Reachable(Do(s, left, c, acts))
    decreases |acts|
  {
    if acts != [] {
      var s' := StackLaws.Step(s, AppLabel(left, c, acts[0]));
      DoReaches(s', left, c, acts[1..]);
    }
  }

  lemma {:induction false} RunReaches(z: Call.Setup, c: Id, w: World, deeds: seq<Deed>, w': World)
    requires Stack.Reachable(w.s) && Run(z, c, w, deeds, w')
    ensures Stack.Reachable(w'.s)
    decreases |deeds|
  {
    if deeds != [] {
      match deeds[0] {
        case Around(l) => var _ := StackLaws.Step(w.s, l);
        case Own(move) => DoReaches(w.s, Call.OfClient(move), c, Acts(z, c, w, move));
      }
      RunReaches(z, c, Next(z, c, w, deeds[0]), deeds[1..], w');
    }
  }

  lemma StackIsReachable(z: Call.Setup, c: Id, w: World)
    requires Reachable(z, c, w)
    ensures Stack.Reachable(w.s)
  {
    var deeds :| Run(z, c, START, deeds, w);
    assert Stack.Run(Stack.INITIAL, [], Stack.INITIAL);
    RunReaches(z, c, START, deeds, w);
  }

  /** What takes the call on: a greenlet of the stack, the opening of its channel, or a move
      of its own that is not the timeout of the first `recv`. */
  predicate TakesOn(c: Id, deed: Deed) {
    match deed
    case Around(l) => StackLaws.Greenlet(l) || (l.action.Open? && l.action.c == c)
    case Own(m) => !m.ClientTimeOut?
  }

  /** What module Call says of the client's own moves, in the stack. */
  lemma OwnGoesOn(z: Call.Setup, c: Id, w: World, m: map<Id, Credit.Duplex>, move: Call.Move) returns (deed: Deed)
    requires Addressed(z, c) && Stack.Reachable(w.s) && Stack.Simulates(w.s, m) && c in m
    requires Call.CanMove(z, View(w, m[c]), move) && !move.ClientTimeOut? && Ready(z, c, View(w, m[c]), move)
    requires forall t :: t in z.tries ==> !IsControl(t.event)
    requires !StackLaws.Jammed(w.s.l) && !StackLaws.Jammed(w.s.r)
    ensures Can(z, c, w, deed) && TakesOn(c, deed)
  {
    assert Stack.Couple(w.s, c, m[c]);
    if move.ClientDeliver? || move.ServerDeliver? {
      deed := DeliveryGoesOn(z, c, w, m, move.ClientDeliver?);
    } else if !Call.OfClient(move) && c !in w.s.r.chans {
      deed := RequestGoesOn(z, c, w, m);
    } else {
      deed := Own(move);
      CanOwn(z, c, w, m[c], move);
    }
  }

  lemma CanOwn(z: Call.Setup, c: Id, w: World, d: Credit.Duplex, move: Call.Move)
    requires Stack.Couple(w.s, c, d) && Addressed(z, c) && c in Stack.At(w.s, Call.OfClient(move)).chans
    requires Call.CanMove(z, View(w, d), move) && Ready(z, c, View(w, d), move)
    requires !move.ClientTimeOut? && !move.ClientDeliver? && !move.ServerDeliver?
    requires forall t :: t in z.tries ==> !IsControl(t.event)
    ensures Can(z, c, w, Own(move))
  {
    if move.ClientGet? {
      GetIsPossible(z, c, w, d);
    } else if move.ClientStart? {
      StartIsPossible(z, c, w, d);
    } else {
      CanDoPlain(z, c, w, d, move);
    }
  }

  lemma GetIsPossible(z: Call.Setup, c: Id, w: World, d: Credit.Duplex)
    requires Stack.Couple(w.s, c, d) && Call.CanMove(z, View(w, d), Call.ClientGet)
    ensures Can(z, c, w, Own(Call.ClientGet))
  {
    CanGet(z, c, w);
  }

  lemma StartIsPossible(z: Call.Setup, c: Id, w: World, d: Credit.Duplex)
    requires Stack.Couple(w.s, c, d) && Call.CanMove(z, View(w, d), Call.ClientStart)
    ensures Can(z, c, w, Own(Call.ClientStart))
  {
    CanStart(z, c, w);
  }

  lemma SomeMoveIsPossible(z: Call.Setup, c: Id, v: Call.Call)
    requires Call.CanMove(z, v, Call.SomeMove(z, v)) && !Call.SomeMove(z, v).ClientTimeOut?
    ensures var m := SomeMove(z, c, v);
            && Call.CanMove(z, v, m) && !m.ClientTimeOut?
            && (!v.client.Finished? && !v.client.Abandoned? && (!Call.OfClient(m) || m.ClientDeliver?) ==>
                 v.client.Listening?)
            && (m.ClientEnter? || m.ServerEnter? ==> m.header == Response(c))
  {
  }

  lemma OpensChannel(z: Call.Setup, c: Id, w: World, m: map<Id, Credit.Duplex>) returns (deed: Deed)
    requires Stack.Simulates(w.s, m) && c !in m && z.slots != 0
    ensures Can(z, c, w, deed) && TakesOn(c, deed)
  {
    assert c !in w.s.l.chans && c !in w.s.r.chans;
    deed := Around(Stack.Label(true, Stack.Open(c, z.slots)));
  }

  /** Progress in the whole stack: until the call is finished or timed out, something takes it
      on, unless a dispatcher is blocked on a channel that was closed. */
  lemma CallNeverSticks(z: Call.Setup, c: Id, w: World) returns (deed: Deed)
    requires Call.Legal(z) && Call.CanEnd(z) && Addressed(z, c) && Reachable(z, c, w)
    requires !w.client.Finished? && !w.client.Abandoned?
    requires !StackLaws.Jammed(w.s.l) && !StackLaws.Jammed(w.s.r)
    ensures Can(z, c, w, deed) && TakesOn(c, deed)
  {
    var m := CallRefines(z, c, w);
    StackIsReachable(z, c, w);
    if c !in m {
      deed := OpensChannel(z, c, w, m);
    } else {
      var v := View(w, m[c]);
      Call.ReachableInv(z, v);
      Call.CallNeverSticks(z, v);
      SomeMoveIsPossible(z, c, v);
      PossibleIsReady(z, c, v, SomeMove(z, c, v));
      deed := OwnGoesOn(z, c, w, m, SomeMove(z, c, v));
    }
  }

  /** So where nothing takes the call on and no dispatcher is blocked on a closed channel, it
      has finished, with the values and the outcome of the reply, unless it timed out. */
  lemma CallCompletes(z: Call.Setup, c: Id, w: World)
    requires Call.Legal(z) && Call.CanEnd(z) && Addressed(z, c) && Reachable(z, c, w)
    requires forall deed :: TakesOn(c, deed) ==> !Can(z, c, w, deed)
    requires !StackLaws.Jammed(w.s.l) && !StackLaws.Jammed(w.s.r)
    ensures w.client.Abandoned?
         || (w.client.Finished? && Rpc.View(Done(w.client.outcome), w.yielded) == Meaning(z.reply))
  {
    if !w.client.Finished? && !w.client.Abandoned? {
      var deed := CallNeverSticks(z, c, w);
    }
    ClientSeesTheReply(z, c, w);
  }
}
