/** What flow control promises over every run of one channel, and exactly when. */
module CreditLaws {
  import opened Protocol
  import opened Buffering
  import opened Credit

  ghost predicate Reachable(sizeA: int, sizeB: int, d: Duplex) {
    exists run :: Run(Start(sizeA, sizeB), run, d)
  }

  lemma ReachableInv(sizeA: int, sizeB: int, d: Duplex)
    requires sizeA != 0 && sizeB != 0 && Reachable(sizeA, sizeB, d)
    ensures Inv(d)
  {
    var run :| Run(Start(sizeA, sizeB), run, d);
    StartInv(sizeA, sizeB);
    RunKeeps(Start(sizeA, sizeB), run, d);
  }

  lemma ReachableNext(sizeA: int, sizeB: int, d: Duplex, l: Label)
    requires Reachable(sizeA, sizeB, d) && Allowed(d, l)
    ensures Reachable(sizeA, sizeB, Next(d, l))
  {
    var run :| Run(Start(sizeA, sizeB), run, d);
    RunSnoc(Start(sizeA, sizeB), run, d, l);
  }

  lemma {:induction false} RunSnoc(s: Duplex, run: seq<Label>, d: Duplex, l: Label)
    requires Run(s, run, d) && Allowed(d, l)
    ensures Run(s, run + [l], Next(d, l))
    decreases |run|
  {
    if run == [] {
      assert Run(Next(d, l), [], Next(d, l));
      assert ([] + [l])[1..] == [];
    } else {
      RunSnoc(Next(s, run[0]), run[1..], d, l);
      assert (run + [l])[1..] == run[1..] + [l];
    }
  }

  // ---- conservation -----------------------------------------------------------

  /** Is what `b` has reserved just the slots of `a`, the data on the way, the data queued,
      and the credit in grants on the way? */
  predicate Conserved(d: Duplex) {
    d.b.buf.reserved == d.a.buf.slots + |Data(d.ab)| + |d.b.buf.queue| + CreditIn(d.ba)
  }

  /** In every reachable state, in both directions, with both ends open: credit is conserved
      exactly as long as no grant of the receiver failed to go out.  Whatever failed, slots
      are never negative, and no more is reserved than the queue has room for. */
  lemma CreditIsConserved(sizeA: int, sizeB: int, d: Duplex)
    requires sizeA != 0 && sizeB != 0 && Reachable(sizeA, sizeB, d)
    ensures d.a.buf.open && d.b.buf.open ==> (Conserved(d) <==> !d.b.faulted)
    ensures d.a.buf.open && d.b.buf.open ==> (Conserved(Flip(d)) <==> !d.a.faulted)
    ensures d.a.buf.slots >= 0 && d.b.buf.slots >= 0
    ensures sizeA > 0 ==> d.a.buf.reserved <= d.a.buf.size
    ensures sizeB > 0 ==> d.b.buf.reserved <= d.b.buf.size
  {
    ReachableInv(sizeA, sizeB, d);
    SizesAreFixed(sizeA, sizeB, d);
  }

  lemma PerformKeepsSizes(d: Duplex, act: Act)
    requires Enabled(d, act)
    ensures SameSizes(d, Perform(d, act))
  {
  }

  lemma {:induction false} RunKeepsSizes(d: Duplex, run: seq<Label>, d': Duplex)
    requires Run(d, run, d')
    ensures SameSizes(d, d')
    decreases |run|
  {
    if run != [] {
      PerformKeepsSizes(Facing(d, run[0].left), run[0].act);
      RunKeepsSizes(Next(d, run[0]), run[1..], d');
    }
  }

  lemma SizesAreFixed(sizeA: int, sizeB: int, d: Duplex)
    requires Reachable(sizeA, sizeB, d)
    ensures d.a.buf.size == sizeA && d.b.buf.size == sizeB
  {
    var run :| Run(Start(sizeA, sizeB), run, d);
    RunKeepsSizes(Start(sizeA, sizeB), run, d);
  }

  // ---- overflow ---------------------------------------------------------------

  predicate OverflowsNext(d: Duplex) {
    Enabled(d, Deliver1) && Overflows(d.a.buf, d.ba[0])
  }

  ghost predicate CanOverflow(sizeA: int, sizeB: int) {
    exists d, left :: Reachable(sizeA, sizeB, d) && OverflowsNext(Facing(d, left))
  }

  function Ping(): Event {
    Event(STREAM, Val(0), "", None, Some(3))
  }

  lemma Begin(sizeA: int, sizeB: int)
    ensures Reachable(sizeA, sizeB, Start(sizeA, sizeB))
  {
    assert Run(Start(sizeA, sizeB), [], Start(sizeA, sizeB));
  }

  lemma SizeZeroOverflows(sizeA: int, sizeB: int, left: bool)
    requires if left then sizeA == 0 else sizeB == 0
    ensures CanOverflow(sizeA, sizeB)
  {
    var d0, ping := Start(sizeA, sizeB), Label(!left, Emit(Ping(), true));
    Begin(sizeA, sizeB);
    ReachableNext(sizeA, sizeB, d0, ping);
    assert Facing(Next(d0, ping), left).ba == [Ping()];
    assert OverflowsNext(Facing(Next(d0, ping), left));
  }

  /** Some schedule makes some queue overflow exactly when a queue was made with size 0. */
  lemma OverflowIffSizeZero(sizeA: int, sizeB: int)
    ensures CanOverflow(sizeA, sizeB) <==> sizeA == 0 || sizeB == 0
  {
    if sizeA == 0 || sizeB == 0 {
      SizeZeroOverflows(sizeA, sizeB, sizeA == 0);
    } else if CanOverflow(sizeA, sizeB) {
      var d, left :| Reachable(sizeA, sizeB, d) && OverflowsNext(Facing(d, left));
      ReachableInv(sizeA, sizeB, d);
      FlipInv(d);
      NeverOverflows(Facing(d, left));
      assert false;
    }
  }

  // ---- exactly-once FIFO --------------------------------------------------------

  /** What `recv` returned is, in order and once each, a prefix of what the other end
      emitted; while the reader's end is open nothing is missing; and no control event
      ever gets out of `recv`. */
  lemma DeliveredInOrderOnce(sizeA: int, sizeB: int, d: Duplex)
    requires sizeA != 0 && sizeB != 0 && Reachable(sizeA, sizeB, d)
    ensures d.b.consumed <= d.a.emitted && d.a.consumed <= d.b.emitted
    ensures d.b.buf.open ==> d.a.emitted == d.b.consumed + d.b.buf.queue + Data(d.ab)
    ensures d.a.buf.open ==> d.b.emitted == d.a.consumed + d.a.buf.queue + Data(d.ba)
    ensures forall e :: e in d.a.consumed || e in d.b.consumed ==> !IsControl(e)
  {
    ReachableInv(sizeA, sizeB, d);
  }

  // ---- progress -------------------------------------------------------------------

  /** The emitter of `a` waits for credit, the reader of `b` waits on an empty queue, and
      nothing that could wake either is on its way. */
  predicate Stuck(d: Duplex) {
    && d.a.waiting && !d.a.buf.canRecv
    && d.b.inRecv && d.b.buf.queue == []
    && d.ab == [] && d.ba == []
  }

  /** The credit is with the sender, or it is on its way to it, or a grant of it failed.
      From the ledger, in every state that keeps the invariant; and a reader inside `recv`
      has reserved some. */
  lemma StuckOnlyAfterFailure(d: Duplex)
    requires Inv(d) && d.b.buf.size >= 2 && d.a.buf.open && d.b.buf.open
    ensures Stuck(d) ==> d.b.faulted
  {
  }

  /** A waiting emitter and a waiting reader: something can happen to wake one of them, or
      a grant of the reader failed. */
  lemma DeadlockFree(sizeA: int, sizeB: int, d: Duplex)
    requires sizeA != 0 && sizeB >= 2 && Reachable(sizeA, sizeB, d)
    requires d.a.buf.open && d.b.buf.open && d.a.waiting && d.b.inRecv
    ensures Allowed(d, Label(true, Wake(Ping(), true))) || Allowed(d, Label(true, Deliver1))
         || Allowed(d, Label(false, Get)) || Allowed(d, Label(false, Deliver1)) || d.b.faulted
  {
    ReachableInv(sizeA, sizeB, d);
    SizesAreFixed(sizeA, sizeB, d);
    StuckOnlyAfterFailure(d);
  }

  /** `_request_data` books before it emits: once a grant failed, more than half the size
      stays booked for good, and `recv` never asks for credit again. */
  lemma NoGrantAfterFailure(d: Duplex)
    requires Inv(d) && d.b.faulted
    ensures !Grants(d.b.buf)
  {
    CreditNonNegative(d.ba);
  }

  /** The first emit of an end never waits, and one that raised was none: its slot is back. */
  lemma FirstEmitNeverWaits(sizeA: int, sizeB: int, d: Duplex, e: Event)
    requires sizeA != 0 && sizeB != 0 && Reachable(sizeA, sizeB, d) && d.a.emitted == []
    ensures d.a.buf.slots >= 1 && !Enabled(d, Block)
    ensures Send(d, e, false).a.emitted == [] && !Enabled(Send(d, e, false), Block)
  {
    ReachableInv(sizeA, sizeB, d);
  }

  /** What was emitted, and what may still be, never exceeds the one initial slot and
      the credit the reader granted. */
  lemma EmittedWithinCredit(d: Duplex)
    requires Inv(d)
    ensures |d.a.emitted| + d.a.buf.slots <= 1 + d.b.granted
    ensures |d.b.emitted| + d.b.buf.slots <= 1 + d.a.granted
  {
    CreditNonNegative(d.ba);
    CreditNonNegative(d.ab);
  }

  /** The first `recv` of a reader grants nothing, so until a second one starts, one
      event at most has been emitted to it. */
  lemma InitialCreditIsOne(sizeA: int, sizeB: int, d: Duplex)
    requires sizeA != 0 && sizeB != 0 && Reachable(sizeA, sizeB, d)
    requires d.b.granted == 0
    ensures |d.a.emitted| <= 1
  {
    ReachableInv(sizeA, sizeB, d);
    EmittedWithinCredit(d);
  }

  /** While the other end has done nothing, and a reader that has consumed nothing has
      granted nothing, all that is on the way is the one event of the initial slot. */
  lemma OnlyTheFirstEvent(d: Duplex)
    requires Inv(d) && d.b.buf == Fresh(d.b.buf.size)
    requires d.b.emitted == [] && d.b.consumed == [] && d.b.dropped == [] && d.b.granted == 0
    requires d.a.granted > 0 ==> d.a.consumed != []
    ensures d.ab == d.a.emitted && |d.ab| <= 1
  {
    assert d.b.emitted == d.a.consumed + d.a.buf.queue + Data(d.ba) + d.a.dropped;
    assert d.a.consumed == [] && d.a.granted == 0;
    NoCreditNoGrant(d.ab);
    assert d.a.emitted == d.b.consumed + d.b.buf.queue + Data(d.ab) + d.b.dropped == Data(d.ab);
    DataOfData(d.ab);
    EmittedWithinCredit(d);
  }

  lemma {:induction false} NoCreditNoGrant(s: seq<Event>)
    requires GoodLink(s) && CreditIn(s) <= 0
    ensures forall e :: e in s ==> !IsControl(e)
  {
    if s != [] {
      assert s[0] in s;
      CreditNonNegative(s[1..]);
      assert forall e :: e in s[1..] ==> e in s;
      NoCreditNoGrant(s[1..]);
    }
  }

  ghost predicate CanEmitTwo(sizeA: int, sizeB: int) {
    exists d :: Reachable(sizeA, sizeB, d) && |d.a.emitted| >= 2
  }

  lemma TwoEventsRun(sizeA: int, sizeB: int)
    requires sizeA != 0 && sizeB >= 2
    ensures CanEmitTwo(sizeA, sizeB)
  {
    var d0 := Start(sizeA, sizeB);
    Begin(sizeA, sizeB);
    var d1 := Step(sizeA, sizeB, d0, Label(true, Emit(Ping(), true)));
    assert d1.ab == [Ping()];
    var d2 := Step(sizeA, sizeB, d1, Label(false, Deliver1));
    var d3 := Step(sizeA, sizeB, d2, Label(false, Enter(Ping(), true)));
    var d4 := Step(sizeA, sizeB, d3, Label(false, Get));
    assert d4.b.buf.reserved == 0 && d4.b.buf.verbose && d4.b.buf.open;
    var d5 := Step(sizeA, sizeB, d4, Label(false, Enter(Ping(), true)));
    assert d5.ba == [GrantEvent(Ping(), sizeB)];
    var d6 := Step(sizeA, sizeB, d5, Label(true, Deliver1));
    assert d6.a.buf.slots == sizeB;
    var d7 := Step(sizeA, sizeB, d6, Label(true, Emit(Ping(), true)));
    assert |d7.a.emitted| == 2;
  }

  lemma Step(sizeA: int, sizeB: int, d: Duplex, l: Label) returns (d': Duplex)
    requires Reachable(sizeA, sizeB, d) && Allowed(d, l)
    ensures d' == Next(d, l) && Reachable(sizeA, sizeB, d')
  {
    ReachableNext(sizeA, sizeB, d, l);
    d' := Next(d, l);
  }

  /** A second event can follow the first exactly when the reader's size is 2 or more:
      below that, `size // 2` is 0 and no grant is ever sent. */
  lemma SecondEventIffSizeTwo(sizeA: int, sizeB: int)
    requires sizeA != 0 && sizeB != 0
    ensures CanEmitTwo(sizeA, sizeB) <==> sizeB >= 2
  {
    if sizeB >= 2 {
      TwoEventsRun(sizeA, sizeB);
    } else if CanEmitTwo(sizeA, sizeB) {
      var d :| Reachable(sizeA, sizeB, d) && |d.a.emitted| >= 2;
      ReachableInv(sizeA, sizeB, d);
      SizesAreFixed(sizeA, sizeB, d);
      EmittedWithinCredit(d);
      assert false;
    }
  }

  // ---- when recv asks for credit -----------------------------------------------------------

  /** Entering `recv`, at an end that has done so before, with both ends open: exactly if less
      than half of the queue is reserved, one grant goes out, for all the room that is not
      reserved yet, and then the whole queue is.  The first time nothing goes out. */
  lemma RecvAsksIffBelowHalf(d: Duplex, header: Event)
    requires d.a.buf.open && d.b.buf.open
    ensures var d' := EnterRecv(d, header, true);
            && (|d'.ab| != |d.ab| <==> d.a.buf.verbose && d.a.buf.reserved < d.a.buf.size / 2)
            && (d'.ab != d.ab ==>
                 && d'.ab == d.ab + [header.(name := ZpcMore, args := Num(d.a.buf.size - d.a.buf.reserved))]
                 && d'.a.buf.reserved == d.a.buf.size)
            && (d'.ab == d.ab ==> d'.a.buf.reserved == d.a.buf.reserved)
            && d'.a.buf.verbose && d'.a.inRecv && d'.ba == d.ba && d'.b == d.b
            && d'.a.buf.slots == d.a.buf.slots && d'.a.buf.queue == d.a.buf.queue
  {
  }

  /** A `recv` whose grant raises does not wait: it raises too, nothing goes out, and all the
      room is booked from then on.  No other `recv` is stopped by that. */
  lemma RecvRaisesWithItsGrant(d: Duplex, header: Event)
    requires d.a.buf.open && !d.a.inRecv
    ensures var d' := EnterRecv(d, header, false);
            && (!d'.a.inRecv <==> d.a.buf.verbose && d.a.buf.reserved < d.a.buf.size / 2)
            && d'.a.buf.reserved == (if d'.a.inRecv then d.a.buf.reserved else d.a.buf.size)
            && d'.ab == d.ab && d'.ba == d.ba && d'.b == d.b && d'.a.buf.verbose
  {
  }

  /** A reader past its first event has at least half of its queue reserved. */
  predicate HasHalf(s: Side) {
    && (s.consumed != [] || s.inRecv ==> s.buf.verbose)
    && (s.inRecv && s.buf.open && s.consumed != [] && s.buf.size >= 0 ==> s.buf.reserved >= s.buf.size / 2)
  }

  lemma PerformKeepsHalf(d: Duplex, act: Act)
    requires Enabled(d, act) && HasHalf(d.a) && HasHalf(d.b)
    ensures HasHalf(Perform(d, act).a) && HasHalf(Perform(d, act).b)
  {
    MovesOwnEnd(d, act);
    if act.Enter? {
      EnterKeepsHalf(d, act.header, act.sent);
    } else if act.Deliver1? {
      DeliverKeepsHalf(d);
    } else {
      OthersKeepHalf(d, act);
    }
  }

  lemma DeliverKeepsHalf(d: Duplex)
    requires Enabled(d, Deliver1) && HasHalf(d.a)
    ensures HasHalf(Receive(d).a)
  {
  }

  lemma EnterKeepsHalf(d: Duplex, header: Event, sent: bool)
    requires HasHalf(d.a)
    ensures HasHalf(EnterRecv(d, header, sent).a)
  {
  }

  lemma OthersKeepHalf(d: Duplex, act: Act)
    requires Enabled(d, act) && HasHalf(d.a) && !act.Enter? && !act.Deliver1?
    ensures HasHalf(Perform(d, act).a)
  {
  }

  lemma {:induction false} RunKeepsHalf(d: Duplex, run: seq<Label>, d': Duplex)
    requires Run(d, run, d') && HasHalf(d.a) && HasHalf(d.b)
    ensures HasHalf(d'.a) && HasHalf(d'.b)
    decreases |run|
  {
    if run != [] {
      PerformKeepsHalf(Facing(d, run[0].left), run[0].act);
      RunKeepsHalf(Next(d, run[0]), run[1..], d');
    }
  }

  /** In every reachable state, an open end that waits in `recv` after its first event has at
      least half of its queue reserved: so a sender is never left with less than that. */
  lemma ReaderHasHalf(sizeA: int, sizeB: int, d: Duplex)
    requires Reachable(sizeA, sizeB, d) && sizeA >= 0 && sizeB >= 0
    ensures d.a.inRecv && d.a.buf.open && d.a.consumed != [] ==> d.a.buf.reserved >= sizeA / 2
    ensures d.b.inRecv && d.b.buf.open && d.b.consumed != [] ==> d.b.buf.reserved >= sizeB / 2
  {
    var run :| Run(Start(sizeA, sizeB), run, d);
    RunKeepsHalf(Start(sizeA, sizeB), run, d);
    SizesAreFixed(sizeA, sizeB, d);
  }

  /** The flag of a sender was set by a grant. */
  predicate FlagEarned(d: Duplex) {
    (d.a.buf.canRecv ==> d.b.granted > 0) && (d.b.buf.canRecv ==> d.a.granted > 0)
  }

  /** Credit that is on its way was granted. */
  lemma GrantOnTheWay(d: Duplex)
    requires Inv(d) && d.ba != [] && d.ba[0].name.ZpcMore?
    ensures d.b.granted > 0
  {
    HeadOfLink(d.ba);
    assert d.ba[0] in d.ba;
    assert forall e :: e in d.ba[1..] ==> e in d.ba;
    CreditNonNegative(d.ba[1..]);
    assert |d.a.emitted| == |d.b.consumed| + |d.b.buf.queue| + |Data(d.ab)| + |d.b.dropped|;
  }

  lemma PerformKeepsFlag(d: Duplex, act: Act)
    requires Inv(d) && Enabled(d, act) && FlagEarned(d)
    ensures FlagEarned(Perform(d, act))
  {
    MovesOwnEnd(d, act);
    if act.Deliver1? && d.ba[0].name.ZpcMore? {
      GrantOnTheWay(d);
    } else if act.Enter? {
      CreditNonNegative(d.ab);
    } else if act.Deliver1? {
      DataKeepsFlag(d);
    } else {
      OthersKeepFlag(d, act);
    }
  }

  lemma DataKeepsFlag(d: Duplex)
    requires Enabled(d, Deliver1) && !d.ba[0].name.ZpcMore?
    ensures Receive(d).a.buf.canRecv == d.a.buf.canRecv && Receive(d).a.granted == d.a.granted
  {
    var e, rest := d.ba[0], d.(ba := d.ba[1..]);
    ShutKeepsFlag(rest.(a := d.a.(buf := Queued(d.a.buf, e))));
    assert Deliver(d.a.buf, e).canRecv == d.a.buf.canRecv;
  }

  lemma ShutKeepsFlag(d: Duplex)
    ensures Shut(d).a.buf.canRecv == d.a.buf.canRecv && Shut(d).a.granted == d.a.granted
  {
  }

  lemma OthersKeepFlag(d: Duplex, act: Act)
    requires Enabled(d, act) && !act.Enter? && !act.Deliver1?
    ensures Perform(d, act).a.buf.canRecv ==> d.a.buf.canRecv
    ensures Perform(d, act).a.granted == d.a.granted
  {
  }

  lemma {:induction false} RunKeepsFlag(d: Duplex, run: seq<Label>, d': Duplex)
    requires Inv(d) && Run(d, run, d') && FlagEarned(d)
    ensures FlagEarned(d')
    decreases |run|
  {
    if run != [] {
      FlipInv(d);
      PerformKeepsFlag(Facing(d, run[0].left), run[0].act);
      NextKeeps(d, run[0]);
      RunKeepsFlag(Next(d, run[0]), run[1..], d');
    }
  }

  /** The flag starts cleared: in every reachable state it is set only if the other end has
      granted something. */
  lemma FlagMeansGranted(sizeA: int, sizeB: int, d: Duplex)
    requires sizeA != 0 && sizeB != 0 && Reachable(sizeA, sizeB, d)
    ensures (d.a.buf.canRecv ==> d.b.granted > 0) && (d.b.buf.canRecv ==> d.a.granted > 0)
  {
    var run :| Run(Start(sizeA, sizeB), run, d);
    StartInv(sizeA, sizeB);
    RunKeepsFlag(Start(sizeA, sizeB), run, d);
  }

  // ---- what an arrival does ------------------------------------------------------------------

  /** An arrival closes an open end exactly if it is a data event that finds room and that
      `on_close_if` accepts, whatever is queued already; it is queued all the same.  Without
      room the `_recver` ends, and the event is nowhere. */
  lemma DeliverClosesIff(b: Buffer, e: Event)
    requires b.open && b.alive && !e.name.ZpcMore?
    ensures var b' := Deliver(b, e);
            && (!b'.open <==> |b.queue| != b.size && b.onCloseIf.Some? && b.onCloseIf.value(e))
            && (b'.alive <==> b'.open && |b.queue| != b.size)
            && b'.queue == (if |b.queue| == b.size then b.queue else b.queue + [e])
            && b'.slots == b.slots && b'.canRecv == b.canRecv && b'.reserved == b.reserved
  {
  }

  /** A grant opens as many slots as its argument says, none if that is not a number, and
      the flag is set exactly if a slot is open now or it was set. */
  lemma DeliverOpensSlots(b: Buffer, e: Event)
    requires e.name.ZpcMore?
    ensures var b' := Deliver(b, e);
            && b'.slots - b.slots == (match e.args case Num(k) => k case _ => 0)
            && (b'.canRecv <==> b.canRecv || b'.slots > 0)
            && b'.queue == b.queue && b'.reserved == b.reserved && b'.open == b.open && b'.alive == b.alive
  {
  }

  // ---- an emit whose wait timed out ---------------------------------------------------

  /** `emit_event` ignores what `wait` returned.  Past the gate it keeps the invariant
      exactly when a slot is open at that moment; after a wait that timed out there is
      none, and the count of slots goes to -1. */
  lemma EmitKeepsCreditIffSlotOpen(d: Duplex, e: Event)
    requires Inv(d) && !IsControl(e) && d.a.buf.open
    ensures Inv(Send(d, e, true)) <==> d.a.buf.slots > 0
    ensures d.a.waiting && !d.a.buf.canRecv ==> Send(d, e, true).a.buf.slots == -1
  {
    if d.a.buf.slots > 0 {
      SendKeeps(d, e, true);
    }
  }

  // ---- the cost of grants -----------------------------------------------------------

  /** The least credit one grant can carry. */
  function LeastGrant(size: int): int {
    size - size / 2 + 1
  }

  ghost predicate GrantsPaid(s: Side) {
    s.granted >= s.grants * LeastGrant(s.buf.size)
  }

  lemma PerformKeepsGrantsPaid(d: Duplex, act: Act)
    requires Enabled(d, act) && GrantsPaid(d.a) && GrantsPaid(d.b)
    ensures GrantsPaid(Perform(d, act).a) && GrantsPaid(Perform(d, act).b)
  {
    PerformKeepsSizes(d, act);
    if act.Enter? && Grants(d.a.buf) {
      var q := LeastGrant(d.a.buf.size);
      assert (d.a.grants + 1) * q == d.a.grants * q + q;
    }
  }

  lemma {:induction false} RunKeepsGrantsPaid(d: Duplex, run: seq<Label>, d': Duplex)
    requires Run(d, run, d') && GrantsPaid(d.a) && GrantsPaid(d.b)
    ensures GrantsPaid(d'.a) && GrantsPaid(d'.b)
    decreases |run|
  {
    if run != [] {
      PerformKeepsGrantsPaid(Facing(d, run[0].left), run[0].act);
      RunKeepsGrantsPaid(Next(d, run[0]), run[1..], d');
    }
  }

  /** In every run, the grants sent after `|consumed|` events are few. */
  lemma GrantOverhead(sizeA: int, sizeB: int, d: Duplex)
    requires sizeA != 0 && sizeB >= 1 && Reachable(sizeA, sizeB, d)
    ensures d.b.grants * (sizeB - sizeB / 2 + 1) <= |d.b.consumed| + sizeB - 1
  {
    ReachableInv(sizeA, sizeB, d);
    SizesAreFixed(sizeA, sizeB, d);
    var run :| Run(Start(sizeA, sizeB), run, d);
    RunKeepsGrantsPaid(Start(sizeA, sizeB), run, d);
  }
}
