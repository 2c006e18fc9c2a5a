/** Credit-based flow control between the two ends of one channel.

    Two `BufferedChannel`s, `a` and `b`, send to each other over two reliable FIFO
    links.  Data and grants share a link.  Heartbeats are left to the layers below
    (module Stack): they never reach a `BufferedChannel`. */
module Credit {
  import opened Protocol
  import opened Buffering

  /** One end of the channel: its buffer, where its emitter and its reader are,
      and the history of what they did. */
  datatype Side = Side(
    buf: Buffer,
    waiting: bool,          // the emitter is inside _remote_can_recv.wait
    inRecv: bool,           // the reader is inside _input_queue.get
    emitted: seq<Event>,    // data events handed to the layer below
    consumed: seq<Event>,   // events returned by recv
    granted: int,           // credit asked for by all the _request_data calls
    grants: nat,            // the number of those calls
    faulted: bool,          // a grant was booked, but emitting it raised
    lost: int,              // credit and data that never arrive: see Ledger
    dropped: seq<Event>)    // data that arrived after this end was closed

  datatype Duplex = Duplex(a: Side, b: Side, ab: seq<Event>, ba: seq<Event>)

  /** What one end does in one atomic step.  `sent` says whether the layer below
      took the event or raised; `header` gives a grant its ids. */
  datatype Act =
    | Emit(event: Event, sent: bool)
    | Block
    | Wake(event: Event, sent: bool)
    | Deliver1
    | Enter(header: Event, sent: bool)
    | Get
    | TimeOut
    | Install(callback: Event -> bool)
    | Close

  datatype Label = Label(left: bool, act: Act)

  function FreshSide(size: int): Side {
    Side(Fresh(size), false, false, [], [], 0, 0, false, 0, [])
  }

  function Start(sizeA: int, sizeB: int): Duplex {
    Duplex(FreshSide(sizeA), FreshSide(sizeB), [], [])
  }

  function Flip(d: Duplex): Duplex {
    Duplex(d.b, d.a, d.ba, d.ab)
  }

  /** The channel as its left end sees it, or as its right end does. */
  function Facing(d: Duplex, left: bool): Duplex {
    if left then d else Flip(d)
  }

  predicate SameSizes(d: Duplex, d': Duplex) {
    d'.a.buf.size == d.a.buf.size && d'.b.buf.size == d.b.buf.size
  }

  function CreditIn(s: seq<Event>): int {
    if s == [] then 0 else (if s[0].name.ZpcMore? then CreditOf(s[0]) else 0) + CreditIn(s[1..])
  }

  // ---- the steps of end `a` -------------------------------------------------

  predicate Enabled(d: Duplex, act: Act) {
    match act
    case Emit(e, _) => !d.a.waiting && d.a.buf.slots != 0 && !IsControl(e)
    case Block => !d.a.waiting && d.a.buf.slots == 0
    case Wake(e, _) => d.a.waiting && d.a.buf.canRecv && !IsControl(e)
    case Deliver1 => d.a.buf.alive && d.ba != []
    case Enter(_, _) => !d.a.inRecv
    case Get => d.a.inRecv && d.a.buf.queue != []
    case TimeOut => d.a.inRecv && d.a.buf.queue == []
    case Install(_) => true
    case Close => true
  }

  /** `emit_event` past its gate.  A closed channel has no layer below, which raises. */
  function Send(d: Duplex, e: Event, sent: bool): (d': Duplex)
    ensures SameSizes(d, d')
  {
    var ok := sent && d.a.buf.open;
    var a := d.a.(waiting := false, buf := Emitted(d.a.buf, ok));
    if !ok then
      d.(a := a)
    else if d.b.buf.open then
      d.(a := a.(emitted := a.emitted + [e]), ab := d.ab + [e])
    else
      d.(a := a.(emitted := a.emitted + [e]), b := d.b.(dropped := d.b.dropped + [e], lost := d.b.lost + 1))
  }

  /** End `a` closes: what is on its link, and what follows, is dropped. */
  function Shut(d: Duplex): (d': Duplex)
    ensures SameSizes(d, d')
  {
    Duplex(
      d.a.(buf := Closed(d.a.buf), lost := d.a.lost + |Data(d.ba)|, dropped := d.a.dropped + Data(d.ba)),
      d.b.(lost := d.b.lost + CreditIn(d.ba)),
      d.ab,
      [])
  }

  /** `_recver` handles the head of its link; an event that closes the channel is
      queued first. */
  function Receive(d: Duplex): (d': Duplex)
    requires d.ba != []
    ensures SameSizes(d, d')
  {
    var e := d.ba[0];
    var rest := d.(ba := d.ba[1..]);
    if !e.name.ZpcMore? && !Overflows(d.a.buf, e) && ClosesOn(d.a.buf, e) then
      Shut(rest.(a := d.a.(buf := Queued(d.a.buf, e))))
    else
      rest.(a := d.a.(buf := Deliver(d.a.buf, e)))
  }

  function GrantEvent(header: Event, k: int): Event {
    header.(name := ZpcMore, args := Num(k))
  }

  /** `recv` up to its wait.  When emitting the grant raises, `recv` raises too, with
      `_input_queue_reserved` already increased. */
  function EnterRecv(d: Duplex, header: Event, sent: bool): (d': Duplex)
    ensures SameSizes(d, d')
  {
    var a := d.a.(buf := Entered(d.a.buf), inRecv := true);
    if !Grants(d.a.buf) then
      d.(a := a)
    else
      var k := GrantSize(d.a.buf);
      var a' := a.(granted := a.granted + k, grants := a.grants + 1);
      if !sent then
        d.(a := a'.(lost := a.lost + k, faulted := true, inRecv := false))
      else if d.b.buf.open then
        d.(a := a', ab := d.ab + [GrantEvent(header, k)])
      else
        d.(a := a'.(lost := a.lost + k))
  }

  function TakeOne(d: Duplex): Duplex
    requires d.a.buf.queue != []
  {
    d.(a := d.a.(buf := Taken(d.a.buf), inRecv := false, consumed := d.a.consumed + [d.a.buf.queue[0]]))
  }

  function Perform(d: Duplex, act: Act): Duplex
    requires Enabled(d, act)
  {
    match act
    case Emit(e, sent) => Send(d, e, sent)
    case Block => d.(a := d.a.(buf := Blocked(d.a.buf), waiting := true))
    case Wake(e, sent) => Send(d, e, sent)
    case Deliver1 => Receive(d)
    case Enter(header, sent) => EnterRecv(d, header, sent)
    case Get => TakeOne(d)
    case TimeOut => d.(a := d.a.(inRecv := false))
    case Install(callback) => d.(a := d.a.(buf := d.a.buf.(onCloseIf := Some(callback))))
    case Close => Shut(d)
  }

  /** A step of one end leaves what the other has done. */
  lemma MovesOwnEnd(d: Duplex, act: Act)
    requires Enabled(d, act)
    ensures var d' := Perform(d, act); d'.b == d.b.(lost := d'.b.lost, dropped := d'.b.dropped)
  {
  }

  predicate Allowed(d: Duplex, l: Label) {
    Enabled(Facing(d, l.left), l.act)
  }

  function Next(d: Duplex, l: Label): Duplex
    requires Allowed(d, l)
  {
    if l.left then Perform(d, l.act) else Flip(Perform(Flip(d), l.act))
  }

  /** `run` is a schedule that leads from `d` to `d'`. */
  ghost predicate Run(d: Duplex, run: seq<Label>, d': Duplex)
    decreases |run|
  {
    if run == [] then d == d' else Allowed(d, run[0]) && Run(Next(d, run[0]), run[1..], d')
  }

  // ---- the invariant --------------------------------------------------------

  /** Where the credit of the direction from `a` to `b` is. */
  ghost predicate Ledger(a: Side, ab: seq<Event>, b: Side, ba: seq<Event>) {
    && b.buf.reserved == a.buf.slots + |Data(ab)| + |b.buf.queue| + CreditIn(ba) + b.lost
    && b.buf.reserved == 1 + b.granted - |b.consumed|
    && 0 <= a.buf.slots
    && 0 <= b.granted
    && |b.dropped| <= b.lost
    && b.buf.reserved <= (if b.buf.size < 1 then 1 else b.buf.size)
    && (b.buf.size < 2 ==> b.granted == 0)
    && (a.buf.open && b.buf.open && !b.faulted ==> b.lost == 0)
    && (b.faulted ==> b.buf.size >= 2 && b.lost > b.buf.size / 2)
    && a.buf.slots + |a.emitted| >= 1
  }

  /** Where the data of the direction from `a` to `b` is. */
  ghost predicate Fifo(a: Side, ab: seq<Event>, b: Side) {
    && a.emitted == b.consumed + b.buf.queue + Data(ab) + b.dropped
    && (forall e :: e in a.emitted ==> !IsControl(e))
    && (b.buf.open ==> b.dropped == [])
    && (!b.buf.open ==> ab == [])
  }

  ghost predicate GoodLink(s: seq<Event>) {
    forall e :: e in s ==> !e.name.ZpcHb? && (e.name.ZpcMore? ==> CreditOf(e) > 0)
  }

  /** What an end keeps to itself. */
  ghost predicate Local(s: Side) {
    && s.buf.size != 0
    && s.buf.open == s.buf.alive
    && (s.waiting ==> (s.buf.canRecv <==> s.buf.slots > 0))
    && (!s.buf.verbose ==> s.granted == 0 && s.consumed == [] && !s.inRecv)
    && (s.inRecv && s.buf.open && s.buf.size >= 2 ==> s.buf.reserved >= 1)
  }

  ghost predicate Half(a: Side, ab: seq<Event>, b: Side, ba: seq<Event>) {
    Ledger(a, ab, b, ba) && Fifo(a, ab, b) && GoodLink(ab) && Local(a)
  }

  ghost predicate Inv(d: Duplex) {
    Half(d.a, d.ab, d.b, d.ba) && Half(d.b, d.ba, d.a, d.ab)
  }

  // ---- every step keeps it --------------------------------------------------

  lemma {:induction false} CreditConcat(s: seq<Event>, t: seq<Event>)
    ensures CreditIn(s + t) == CreditIn(s) + CreditIn(t)
  {
    if s == [] {
      assert s + t == t;
    } else {
      assert (s + t)[1..] == s[1..] + t;
      CreditConcat(s[1..], t);
    }
  }

  lemma CreditAppend(s: seq<Event>, e: Event)
    ensures CreditIn(s + [e]) == CreditIn(s) + (if e.name.ZpcMore? then CreditOf(e) else 0)
  {
    CreditConcat(s, [e]);
    assert [e][1..] == [];
  }

  lemma {:induction false} CreditNonNegative(s: seq<Event>)
    requires GoodLink(s)
    ensures CreditIn(s) >= 0
  {
    if s != [] {
      CreditNonNegative(s[1..]);
    }
  }

  lemma StartInv(sizeA: int, sizeB: int)
    requires sizeA != 0 && sizeB != 0
    ensures Inv(Start(sizeA, sizeB))
  {
  }

  // Moves of one event between the four stretches of Fifo.
  lemma MoveToConsumed(c: seq<Event>, q: seq<Event>, t: seq<Event>, x: seq<Event>)
    requires q != []
    ensures (c + [q[0]]) + q[1..] + t + x == c + q + t + x
  {
    assert q == [q[0]] + q[1..];
  }

  lemma MoveToQueue(c: seq<Event>, q: seq<Event>, e: Event, t: seq<Event>, x: seq<Event>)
    ensures c + (q + [e]) + t + x == c + q + ([e] + t) + x
  {
  }

  lemma AppendToLink(c: seq<Event>, q: seq<Event>, t: seq<Event>, e: Event)
    ensures c + q + (t + [e]) + [] == (c + q + t + []) + [e]
  {
  }

  /** What a send changes. */
  lemma SendFrame(d: Duplex, e: Event, sent: bool)
    ensures var d' := Send(d, e, sent);
            && d'.a == d.a.(waiting := false, buf := Emitted(d.a.buf, sent && d.a.buf.open),
                            emitted := d.a.emitted + if sent && d.a.buf.open then [e] else [])
            && d'.b == d.b.(lost := d'.b.lost, dropped := d'.b.dropped) && d'.ba == d.ba
  {
  }

  lemma SendKeepsOpen(d: Duplex, e: Event)
    requires Inv(d) && !IsControl(e) && d.a.buf.slots > 0 && d.a.buf.open && d.b.buf.open
    ensures Inv(Send(d, e, true))
  {
    DataAppend(d.ab, e);
    CreditAppend(d.ab, e);
    AppendToLink(d.b.consumed, d.b.buf.queue, Data(d.ab), e);
  }

  lemma SendKeeps(d: Duplex, e: Event, sent: bool)
    requires Inv(d) && !IsControl(e) && d.a.buf.slots > 0
    ensures Inv(Send(d, e, sent))
  {
    if sent && d.a.buf.open && d.b.buf.open {
      SendKeepsOpen(d, e);
    }
  }

  lemma ShutKeeps(d: Duplex)
    requires Inv(d)
    ensures Inv(Shut(d))
  {
    CreditNonNegative(d.ba);
    var d' := Shut(d);
    assert d'.b.emitted == d'.a.consumed + d'.a.buf.queue + Data(d'.ba) + d'.a.dropped;
  }

  lemma HeadOfLink(s: seq<Event>)
    requires s != []
    ensures Data(s) == (if IsControl(s[0]) then [] else [s[0]]) + Data(s[1..])
    ensures CreditIn(s) == (if s[0].name.ZpcMore? then CreditOf(s[0]) else 0) + CreditIn(s[1..])
  {
  }

  lemma ReceiveGrantKeeps(d: Duplex)
    requires Inv(d) && Enabled(d, Deliver1) && d.ba[0].name.ZpcMore?
    ensures Inv(Receive(d))
  {
    HeadOfLink(d.ba);
    assert d.ba[0] in d.ba;
  }

  /** No data event ever finds the input queue full. */
  lemma NeverOverflows(d: Duplex)
    requires Inv(d) && Enabled(d, Deliver1)
    ensures !Overflows(d.a.buf, d.ba[0])
  {
    CreditNonNegative(d.ab);
    HeadOfLink(d.ba);
    assert d.ba[0] in d.ba;
  }

  lemma QueueKeeps(d: Duplex)
    requires Inv(d) && Enabled(d, Deliver1) && !d.ba[0].name.ZpcMore?
    ensures Inv(d.(ba := d.ba[1..], a := d.a.(buf := Queued(d.a.buf, d.ba[0]))))
  {
    HeadOfLink(d.ba);
    assert d.ba[0] in d.ba;
    MoveToQueue(d.a.consumed, d.a.buf.queue, d.ba[0], Data(d.ba[1..]), d.a.dropped);
  }

  lemma ReceiveKeeps(d: Duplex)
    requires Inv(d) && Enabled(d, Deliver1)
    ensures Inv(Receive(d))
  {
    var e := d.ba[0];
    if e.name.ZpcMore? {
      ReceiveGrantKeeps(d);
    } else {
      NeverOverflows(d);
      QueueKeeps(d);
      ShutKeeps(d.(ba := d.ba[1..], a := d.a.(buf := Queued(d.a.buf, e))));
    }
  }

  lemma GrantSentKeeps(d: Duplex, header: Event)
    requires Inv(d) && Grants(d.a.buf) && !d.a.inRecv && d.b.buf.open
    ensures Inv(EnterRecv(d, header, true))
  {
    CreditNonNegative(d.ab);
    GrantKeepsDataThere(d, header);
    GrantKeepsCreditHere(d, header);
  }

  lemma GrantKeepsDataThere(d: Duplex, header: Event)
    requires Half(d.a, d.ab, d.b, d.ba) && Grants(d.a.buf) && d.b.buf.open && d.a.buf.reserved >= 0
    ensures var d' := EnterRecv(d, header, true); Half(d'.a, d'.ab, d'.b, d'.ba)
  {
    var g := GrantEvent(header, GrantSize(d.a.buf));
    DataAppend(d.ab, g);
  }

  lemma GrantKeepsCreditHere(d: Duplex, header: Event)
    requires Half(d.b, d.ba, d.a, d.ab) && GoodLink(d.ab) && Grants(d.a.buf) && d.b.buf.open
    ensures var d' := EnterRecv(d, header, true); Half(d'.b, d'.ba, d'.a, d'.ab)
  {
    var g := GrantEvent(header, GrantSize(d.a.buf));
    CreditAppend(d.ab, g);
    CreditNonNegative(d.ab);
  }

  lemma GrantLostKeeps(d: Duplex, header: Event, sent: bool)
    requires Inv(d) && Grants(d.a.buf) && !d.a.inRecv && !(sent && d.b.buf.open)
    ensures Inv(EnterRecv(d, header, sent))
  {
    CreditNonNegative(d.ab);
  }

  lemma EnterKeeps(d: Duplex, header: Event, sent: bool)
    requires Inv(d) && !d.a.inRecv
    ensures Inv(EnterRecv(d, header, sent))
  {
    if Grants(d.a.buf) && sent && d.b.buf.open {
      GrantSentKeeps(d, header);
    } else if Grants(d.a.buf) {
      GrantLostKeeps(d, header, sent);
    } else {
      CreditNonNegative(d.ab);
    }
  }

  lemma GetKeeps(d: Duplex)
    requires Inv(d) && Enabled(d, Get)
    ensures Inv(TakeOne(d))
  {
    MoveToConsumed(d.a.consumed, d.a.buf.queue, Data(d.ba), d.a.dropped);
  }

  lemma QuietKeeps(d: Duplex, act: Act)
    requires Inv(d) && Enabled(d, act) && (act.Block? || act.TimeOut? || act.Install?)
    ensures Inv(Perform(d, act))
  {
  }

  /** A waiting emitter whose flag is set has a slot: no wakeup is spurious. */
  lemma WokenHasSlot(d: Duplex)
    requires Inv(d) && d.a.waiting && d.a.buf.canRecv
    ensures d.a.buf.slots > 0
  {
  }

  lemma PerformKeeps(d: Duplex, act: Act)
    requires Inv(d) && Enabled(d, act)
    ensures Inv(Perform(d, act))
  {
    match act
    case Emit(e, sent) =>
      assert d.a.buf.slots > 0;
      SendKeeps(d, e, sent);
    case Wake(e, sent) =>
      WokenHasSlot(d);
      SendKeeps(d, e, sent);
    case Deliver1 => ReceiveKeeps(d);
    case Enter(header, sent) => EnterKeeps(d, header, sent);
    case Get => GetKeeps(d);
    case Close => ShutKeeps(d);
    case _ => QuietKeeps(d, act);
  }

  lemma FlipInv(d: Duplex)
    requires Inv(d)
    ensures Inv(Flip(d))
  {
  }

  lemma NextKeeps(d: Duplex, l: Label)
    requires Inv(d) && Allowed(d, l)
    ensures Inv(Next(d, l))
  {
    if l.left {
      PerformKeeps(d, l.act);
    } else {
      FlipInv(d);
      PerformKeeps(Flip(d), l.act);
      FlipInv(Perform(Flip(d), l.act));
    }
  }

  lemma {:induction false} RunKeeps(d: Duplex, run: seq<Label>, d': Duplex)
    requires Inv(d) && Run(d, run, d')
    ensures Inv(d')
    decreases |run|
  {
    if run != [] {
      NextKeeps(d, run[0]);
      RunKeeps(Next(d, run[0]), run[1..], d');
    }
  }
}
