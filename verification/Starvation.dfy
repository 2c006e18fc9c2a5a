/** What a grant that fails does to a channel, exactly: from then on its sender can be left
    waiting for ever, and before that it cannot. */
module Starvation {
  import opened Protocol
  import opened Buffering
  import opened Credit
  import opened CreditLaws

  /** In this run no grant of `b` fails. */
  ghost predicate GrantsGoOut(run: seq<Label>) {
    forall l :: l in run && !l.left && l.act.Enter? ==> l.act.sent
  }

  predicate BothOpen(d: Duplex) {
    d.a.buf.open && d.b.buf.open
  }

  /** Can the emitter of `a` and the reader of `b` get stuck, with no further failure? */
  ghost predicate CanStick(d: Duplex) {
    exists run, d' :: Run(d, run, d') && GrantsGoOut(run) && Stuck(d') && BothOpen(d')
  }

  lemma GoesOutStep(d: Duplex, l: Label)
    requires Allowed(d, l) && (!l.left && l.act.Enter? ==> l.act.sent)
    ensures Next(d, l).b.faulted == d.b.faulted
  {
    if l.left { FaultsAreOwn(d, l.act); } else { FaultsByEnter(Flip(d), l.act); }
  }

  lemma FaultsAreOwn(d: Duplex, act: Act)
    requires Enabled(d, act)
    ensures Perform(d, act).b.faulted == d.b.faulted
  {
  }

  lemma FaultsByEnter(d: Duplex, act: Act)
    requires Enabled(d, act) && (act.Enter? ==> act.sent)
    ensures Perform(d, act).a.faulted == d.a.faulted
  {
  }

  lemma {:induction false} GoesOutRun(d: Duplex, run: seq<Label>, d': Duplex)
    requires Run(d, run, d') && GrantsGoOut(run)
    ensures d'.b.faulted == d.b.faulted
    decreases |run|
  {
    if run != [] {
      assert run[0] in run;
      GoesOutStep(d, run[0]);
      assert forall l :: l in run[1..] ==> l in run;
      GoesOutRun(Next(d, run[0]), run[1..], d');
    }
  }

  // ---- after a failure the sender can be left waiting --------------------------------

  const NEVER: Event -> bool := (e: Event) => false

  /** Both ends are open and stay so, and a grant of `b` failed. */
  ghost predicate Draining(d: Duplex) {
    && Inv(d) && BothOpen(d) && d.b.faulted
    && d.a.buf.onCloseIf == Some(NEVER) && d.b.buf.onCloseIf == Some(NEVER)
  }

  /** Use up all the credit there is, and all the data. */
  function DrainStep(d: Duplex): Label {
    if d.ba != [] then Label(true, Deliver1)
    else if d.ab != [] then Label(false, Deliver1)
    else if !d.a.waiting && d.a.buf.slots != 0 then Label(true, Emit(Ping(), true))
    else if !d.a.waiting then Label(true, Block)
    else if d.a.buf.canRecv then Label(true, Wake(Ping(), true))
    else if !d.b.inRecv then Label(false, Enter(Ping(), true))
    else Label(false, Get)
  }

  /** What is left to use up. */
  function Left(d: Duplex): int {
    6 * (d.a.buf.slots + CreditIn(d.ba)) + 3 * |Data(d.ab)| + |d.ab| + |d.ba| + 2 * |d.b.buf.queue|
      + (if d.a.waiting then 0 else 1) + (if d.b.inRecv then 0 else 1)
  }

  lemma LeftIsNatural(d: Duplex)
    requires Inv(d)
    ensures Left(d) >= 0
  {
    CreditNonNegative(d.ba);
  }

  lemma DrainDeliversHere(d: Duplex)
    requires Draining(d) && d.ba != []
    ensures Draining(Receive(d)) && Left(Receive(d)) < Left(d)
  {
    NeverOverflowsHere(d);
    ReceiveKeeps(d);
    HeadOfLink(d.ba);
  }

  lemma NeverOverflowsHere(d: Duplex)
    requires Draining(d) && d.ba != []
    ensures d.a.buf.alive && (!d.ba[0].name.ZpcMore? ==> !Overflows(d.a.buf, d.ba[0]))
  {
    if !d.ba[0].name.ZpcMore? {
      NeverOverflows(d);
    }
  }

  lemma DrainDeliversThere(d: Duplex)
    requires Draining(d) && d.ab != []
    ensures Allowed(d, Label(false, Deliver1))
    ensures Draining(Next(d, Label(false, Deliver1))) && Left(Next(d, Label(false, Deliver1))) < Left(d)
  {
    var f := Flip(d);
    FlipInv(d);
    NextKeeps(d, Label(false, Deliver1));
    NeverOverflows(f);
    ReceiveStaysOpen(f);
    HeadOfLink(d.ab);
  }

  lemma ReceiveStaysOpen(d: Duplex)
    requires d.ba != [] && !Overflows(d.a.buf, d.ba[0]) && d.a.buf.onCloseIf == Some(NEVER)
    ensures var d' := Receive(d);
            && d'.b == d.b && d'.ab == d.ab && d'.ba == d.ba[1..]
            && d'.a == d.a.(buf := d.a.buf.(slots := d'.a.buf.slots, canRecv := d'.a.buf.canRecv,
                                            queue := d'.a.buf.queue))
            && d'.a.buf.queue == (if d.ba[0].name.ZpcMore? then d.a.buf.queue else d.a.buf.queue + [d.ba[0]])
  {
  }

  lemma DrainEmits(d: Duplex)
    requires Draining(d) && d.ab == [] && d.ba == [] && d.a.buf.slots > 0
    ensures Draining(Send(d, Ping(), true)) && Left(Send(d, Ping(), true)) < Left(d)
  {
    SendKeeps(d, Ping(), true);
    DataAppend(d.ab, Ping());
  }

  lemma DrainReads(d: Duplex, l: Label)
    requires Draining(d) && d.ab == [] && d.ba == [] && !l.left && Allowed(d, l)
    requires l.act.Get? || l.act == Enter(Ping(), true)
    ensures Draining(Next(d, l)) && Left(Next(d, l)) < Left(d)
  {
    NextKeeps(d, l);
    NoGrantAfterFailure(d);
  }

  lemma DrainBlocks(d: Duplex)
    requires Draining(d) && !d.a.waiting && d.a.buf.slots == 0
    ensures Draining(Perform(d, Block)) && Left(Perform(d, Block)) < Left(d)
  {
    QuietKeeps(d, Block);
  }

  lemma DrainShrinks(d: Duplex)
    requires Draining(d) && !Stuck(d)
    ensures Allowed(d, DrainStep(d))
    ensures Draining(Next(d, DrainStep(d))) && Left(Next(d, DrainStep(d))) < Left(d)
  {
    var l := DrainStep(d);
    if d.ba != [] {
      DrainDeliversHere(d);
    } else if d.ab != [] {
      DrainDeliversThere(d);
    } else if l.act.Emit? || l.act.Wake? {
      DrainEmits(d);
    } else if l.act.Block? {
      DrainBlocks(d);
    } else {
      DrainReads(d, l);
    }
  }

  lemma StickAfter(d: Duplex, l: Label)
    requires Allowed(d, l) && (!l.left && l.act.Enter? ==> l.act.sent) && CanStick(Next(d, l))
    ensures CanStick(d)
  {
    var run, d' :| Run(Next(d, l), run, d') && GrantsGoOut(run) && Stuck(d') && BothOpen(d');
    assert ([l] + run)[1..] == run;
    assert Run(d, [l] + run, d');
    assert GrantsGoOut([l] + run);
  }

  lemma {:induction false} DrainsToStuck(d: Duplex)
    requires Draining(d)
    ensures CanStick(d)
    decreases Left(d)
  {
    if Stuck(d) {
      assert Run(d, [], d) && GrantsGoOut([]);
    } else {
      var l := DrainStep(d);
      DrainShrinks(d);
      LeftIsNatural(Next(d, l));
      LeftIsNatural(d);
      DrainsToStuck(Next(d, l));
      StickAfter(d, l);
    }
  }

  lemma FailureCanStick(d: Duplex)
    requires Inv(d) && BothOpen(d) && d.b.faulted
    ensures CanStick(d)
  {
    var here, there := Label(true, Install(NEVER)), Label(false, Install(NEVER));
    NextKeeps(d, here);
    NextKeeps(Next(d, here), there);
    DrainsToStuck(Next(Next(d, here), there));
    StickAfter(Next(d, here), there);
    StickAfter(d, here);
  }

  /** Deadlock, exactly: with both ends open, the emitter of `a` and the reader of `b` can get
      stuck if and only if a grant of `b` has failed. */
  lemma StickIffGrantFailed(sizeA: int, sizeB: int, d: Duplex)
    requires sizeA != 0 && sizeB >= 2 && Reachable(sizeA, sizeB, d) && BothOpen(d)
    ensures CanStick(d) <==> d.b.faulted
  {
    ReachableInv(sizeA, sizeB, d);
    if d.b.faulted {
      FailureCanStick(d);
    } else if CanStick(d) {
      var run, d' :| Run(d, run, d') && GrantsGoOut(run) && Stuck(d') && BothOpen(d');
      GoesOutRun(d, run, d');
      RunKeeps(d, run, d');
      RunKeepsSizes(d, run, d');
      SizesAreFixed(sizeA, sizeB, d);
      StuckOnlyAfterFailure(d');
    }
  }

  // ---- and such a state can be reached -------------------------------------------------

  lemma FailedGrant(sizeA: int, sizeB: int) returns (d: Duplex)
    requires sizeB >= 2
    ensures Reachable(sizeA, sizeB, d) && BothOpen(d) && d.b.faulted
  {
    d := Start(sizeA, sizeB);
    Begin(sizeA, sizeB);
    d := Step(sizeA, sizeB, d, Label(true, Emit(Ping(), true)));
    assert d.ab == [Ping()];
    d := Step(sizeA, sizeB, d, Label(false, Deliver1));
    d := Step(sizeA, sizeB, d, Label(false, Enter(Ping(), true)));
    d := Step(sizeA, sizeB, d, Label(false, Get));
    assert d.b.buf.reserved == 0 && d.b.buf.verbose && d.b.buf.open;
    d := Step(sizeA, sizeB, d, Label(false, Enter(Ping(), false)));
  }

  lemma {:induction false} ReachableRun(sizeA: int, sizeB: int, d: Duplex, run: seq<Label>, d': Duplex)
    requires Reachable(sizeA, sizeB, d) && Run(d, run, d')
    ensures Reachable(sizeA, sizeB, d')
    decreases |run|
  {
    if run != [] {
      ReachableNext(sizeA, sizeB, d, run[0]);
      ReachableRun(sizeA, sizeB, Next(d, run[0]), run[1..], d');
    }
  }

  /** One failed grant is enough: a stuck channel with both ends open can be reached,
      whatever the sizes. */
  lemma StuckIsReachable(sizeA: int, sizeB: int) returns (d: Duplex)
    requires sizeA != 0 && sizeB >= 2
    ensures Reachable(sizeA, sizeB, d) && BothOpen(d) && Stuck(d)
  {
    var failed := FailedGrant(sizeA, sizeB);
    StickIffGrantFailed(sizeA, sizeB, failed);
    var run, d' :| Run(failed, run, d') && GrantsGoOut(run) && Stuck(d') && BothOpen(d');
    ReachableRun(sizeA, sizeB, failed, run, d');
    d := d';
  }

  // ---- it is for ever --------------------------------------------------------------------

  /** No slot for `a`, no data for `b`, none on its way, and no credit on its way back. */
  ghost predicate Starved(d: Duplex) {
    && d.b.faulted && d.a.buf.slots == 0 && Data(d.ab) == []
    && d.b.buf.queue == [] && CreditIn(d.ba) == 0
  }

  lemma StarvedHere(d: Duplex, act: Act)
    requires Inv(d) && Starved(d) && Enabled(d, act)
    ensures var d' := Perform(d, act); Starved(d') && d'.a.emitted == d.a.emitted && d'.b.consumed == d.b.consumed
  {
    match act
    case Wake(_, _) => WokenHasSlot(d);
    case Deliver1 => StarvedReceives(d);
    case Enter(h, _) => DataAppend(d.ab, GrantEvent(h, GrantSize(d.a.buf)));
    case _ =>
  }

  lemma StarvedReceives(d: Duplex)
    requires Inv(d) && Starved(d) && d.ba != []
    ensures var d' := Receive(d); Starved(d') && d'.a.emitted == d.a.emitted && d'.b.consumed == d.b.consumed
  {
    NoCreditNoGrant(d.ba);
    assert d.ba[0] in d.ba;
    HeadOfLink(d.ba);
  }

  lemma StarvedThere(d: Duplex, act: Act)
    requires Inv(d) && Starved(d) && Enabled(Flip(d), act)
    ensures var d' := Flip(Perform(Flip(d), act));
            Starved(d') && d'.a.emitted == d.a.emitted && d'.b.consumed == d.b.consumed
  {
    match act
    case Emit(e, _) => CreditAppend(d.ba, e);
    case Wake(e, _) => CreditAppend(d.ba, e);
    case Deliver1 => HeadOfLink(d.ab);
    case Enter(_, _) => NoGrantAfterFailure(d);
    case _ =>
  }

  /** Nothing that either end does gets another event through. */
  lemma {:induction false} StarvedForever(d: Duplex, run: seq<Label>, d': Duplex)
    requires Inv(d) && Starved(d) && Run(d, run, d')
    ensures Starved(d') && d'.a.emitted == d.a.emitted && d'.b.consumed == d.b.consumed
    decreases |run|
  {
    if run != [] {
      var l := run[0];
      if l.left { StarvedHere(d, l.act); } else { StarvedThere(d, l.act); }
      NextKeeps(d, l);
      StarvedForever(Next(d, l), run[1..], d');
    }
  }

  /** A stuck channel is starved. */
  lemma StuckIsStarved(d: Duplex)
    requires Inv(d) && BothOpen(d) && d.b.buf.size >= 2 && Stuck(d)
    ensures Starved(d)
  {
    StuckOnlyAfterFailure(d);
  }
}
