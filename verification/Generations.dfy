/** One end of a channel that faces a peer of either protocol.  A grant is `_zpc_more` for a
    protocol 3 peer, and `_zpc_hb` for a protocol 2 peer; which one the peer is, this end
    learns from the first event that arrives.  Anything may arrive here, of any version and
    in any order. */
module Generations {
  import opened Protocol
  import opened Buffering
  import opened Credit
  import opened Heartbeat
  import opened Multiplex

  /** The end, the events `recv` returned, whether the first `recv` timed out, and the grants
      that went out, under the names they had. */
  datatype Facing = Facing(ep: Endpoint, consumed: nat, timedOut: bool, grants: seq<Event>)

  datatype Move =
    | Arrives(event: Event)   // the dispatcher puts an event in the channel's queue
    | Pulls                   // HeartBeatOnChannel._recver
    | Feeds                   // BufferedChannel._recver
    | Does(act: Act)          // the application's end

  function Begin(size: int): Facing {
    Facing(NewEndpoint([], size, true), 0, false, [])
  }

  predicate Can(x: Facing, m: Move) {
    match m
    case Arrives(_) => |x.ep.queue| < QUEUE_SIZE
    case Pulls => x.ep.buf.open && x.ep.queue != [] && x.ep.held == []
    case Feeds => x.ep.buf.alive && x.ep.held != []
    case Does(act) => if act.TimeOut? then x.ep.inRecv && x.ep.buf.queue == [] else CanAct(x.ep, act)
  }

  /** The grant `recv` emits, through `HeartBeatOnChannel.new_event`. */
  function GrantsOf(ep: Endpoint, act: Act): seq<Event> {
    if act.Enter? && act.sent && Grants(ep.buf)
    then [GrantEvent(act.header, GrantSize(ep.buf)).(name := Outbound(ep.compat, ZpcMore))] else []
  }

  /** They are the events that entering `recv` puts on the link, but for the name. */
  lemma GrantsAreWhatIsSent(ep: Endpoint, act: Act)
    requires act.Enter?
    ensures |GrantsOf(ep, act)| == |OnLink(ep, act)|
    ensures forall i :: 0 <= i < |OnLink(ep, act)| ==>
              OnLink(ep, act)[i].name == ZpcMore && GrantsOf(ep, act)[i].(name := ZpcMore) == OnLink(ep, act)[i]
  {
  }

  function After(x: Facing, m: Move): Facing
    requires Can(x, m)
  {
    match m
    case Arrives(e) => x.(ep := x.ep.(queue := x.ep.queue + [e]))
    case Pulls => x.(ep := BeatTake(x.ep))
    case Feeds => x.(ep := BufTake(x.ep))
    case Does(act) =>
      if act.TimeOut? then x.(ep := x.ep.(inRecv := false), timedOut := x.timedOut || x.consumed == 0)
      else Facing(Multiplex.Act(x.ep, act), if act.Get? then x.consumed + 1 else x.consumed, x.timedOut,
                  x.grants + GrantsOf(x.ep, act))
  }

  ghost predicate Run(x: Facing, moves: seq<Move>, x': Facing)
    decreases |moves|
  {
    if moves == [] then x == x' else Can(x, moves[0]) && Run(After(x, moves[0]), moves[1..], x')
  }

  ghost predicate Reachable(size: int, x: Facing) {
    exists moves :: Run(Begin(size), moves, x)
  }

  // ---- what every move keeps ---------------------------------------------------------------

  /** A grant under the name this end's peer understands. */
  predicate WellNamed(x: Facing, g: Event) {
    x.ep.compat.Some? && g.name == Outbound(x.ep.compat, ZpcMore)
  }

  /** Until the generation is known nothing has come up, so nothing was consumed; and with a
      small queue, or a first `recv` that did not time out, no grant went out before. */
  ghost predicate Inv(size: int, x: Facing) {
    && x.ep.buf.size == size
    && (x.ep.compat.None? ==> x.ep.held == [] && x.ep.buf.queue == [] && x.consumed == 0)
    && (x.ep.compat.None? && size < 4 ==> x.ep.buf.reserved == 1)
    && (x.ep.buf.verbose && !x.ep.inRecv && x.consumed == 0 ==> x.timedOut)
    && (size < 4 || !x.timedOut ==> forall g :: g in x.grants ==> WellNamed(x, g))
  }

  lemma GrantsAfter(x: Facing, act: Act, size: int)
    requires Inv(size, x) && act.Enter? && CanAct(x.ep, act) && Grants(x.ep.buf) && (size < 4 || !x.timedOut)
    ensures x.ep.compat.Some?
  {
  }

  lemma DoesKeeps(size: int, x: Facing, act: Act)
    requires Inv(size, x) && Can(x, Does(act))
    ensures Inv(size, After(x, Does(act)))
  {
    if act.Enter? {
      EnterKeeps(size, x, act);
    } else {
      OthersKeep(size, x, act);
    }
  }

  lemma EnterKeeps(size: int, x: Facing, act: Act)
    requires Inv(size, x) && Can(x, Does(act)) && act.Enter?
    ensures Inv(size, After(x, Does(act)))
  {
    if Grants(x.ep.buf) && (size < 4 || !x.timedOut) {
      GrantsAfter(x, act, size);
    }
  }

  lemma OthersKeep(size: int, x: Facing, act: Act)
    requires Inv(size, x) && Can(x, Does(act)) && !act.Enter?
    ensures Inv(size, After(x, Does(act)))
  {
    assert GrantsOf(x.ep, act) == [];
  }

  lemma MoveKeeps(size: int, x: Facing, m: Move)
    requires Inv(size, x) && Can(x, m)
    ensures Inv(size, After(x, m))
  {
    if m.Does? { DoesKeeps(size, x, m.act); }
  }

  lemma {:induction false} RunKeeps(size: int, x: Facing, moves: seq<Move>, x': Facing)
    requires Inv(size, x) && Run(x, moves, x')
    ensures Inv(size, x')
    decreases |moves|
  {
    if moves != [] {
      MoveKeeps(size, x, moves[0]);
      RunKeeps(size, After(x, moves[0]), moves[1..], x');
    }
  }

  lemma ReachableInv(size: int, x: Facing)
    requires Reachable(size, x)
    ensures Inv(size, x)
  {
    var moves :| Run(Begin(size), moves, x);
    RunKeeps(size, Begin(size), moves, x);
  }

  // ---- no grant before the generation is known ------------------------------------------------

  /** Whatever arrives, of whatever version: if the first `recv` did not time out, every grant
      that has gone out has the name that the peer's generation understands, and so has the
      next one. */
  lemma GrantsAreWellNamed(size: int, x: Facing)
    requires Reachable(size, x) && !x.timedOut
    ensures forall g :: g in x.grants ==> WellNamed(x, g)
    ensures forall h, sent :: Can(x, Does(Enter(h, sent))) && Grants(x.ep.buf) ==> x.ep.compat.Some?
  {
    ReachableInv(size, x);
    forall h, sent | Can(x, Does(Enter(h, sent))) && Grants(x.ep.buf)
      ensures x.ep.compat.Some?
    {
      GrantsAfter(x, Enter(h, sent), size);
    }
  }

  /** Some run sends a grant before anything has arrived. */
  ghost predicate CanGrantEarly(size: int) {
    exists x :: Reachable(size, x) && x.ep.compat.None? && x.grants != []
  }

  /** Some run sends a grant under a name that turns out to be the wrong one. */
  ghost predicate CanMisname(size: int) {
    exists x, g :: Reachable(size, x) && g in x.grants && x.ep.compat.Some? && !WellNamed(x, g)
  }

  lemma {:induction false} RunSnoc(x0: Facing, moves: seq<Move>, x: Facing, m: Move)
    requires Run(x0, moves, x) && Can(x, m)
    ensures Run(x0, moves + [m], After(x, m))
    decreases |moves|
  {
    if moves == [] {
      assert Run(After(x, m), [], After(x, m));
      assert ([] + [m])[1..] == [];
    } else {
      RunSnoc(After(x0, moves[0]), moves[1..], x, m);
      assert (moves + [m])[1..] == moves[1..] + [m];
    }
  }

  lemma Step(size: int, x: Facing, m: Move) returns (x': Facing)
    requires Reachable(size, x) && Can(x, m)
    ensures x' == After(x, m) && Reachable(size, x')
  {
    var moves :| Run(Begin(size), moves, x);
    RunSnoc(Begin(size), moves, x, m);
    x' := After(x, m);
  }

  const HEADER := Event(OK, Nothing, "h", None, Some(3))
  const OLD_EVENT := Event(OK, Nothing, "o", None, Some(2))

  /** A first `recv` that times out, and then a second. */
  lemma EarlyGrant(size: int) returns (x: Facing)
    requires size >= 4
    ensures Reachable(size, x) && x.ep.compat.None? && x.ep.queue == [] && x.ep.held == [] && x.ep.buf.open
    ensures |x.grants| == 1 && x.grants[0].name == ZpcMore
  {
    assert Run(Begin(size), [], Begin(size));
    x := Step(size, Begin(size), Does(Enter(HEADER, true)));
    x := Step(size, x, Does(TimeOut));
    assert x.ep.buf.verbose && x.ep.buf.reserved == 1 && Grants(x.ep.buf);
    x := Step(size, x, Does(Enter(HEADER, true)));
  }

  /** And then the peer turns out to speak protocol 2. */
  lemma MisnamedGrant(size: int) returns (x: Facing, g: Event)
    requires size >= 4
    ensures Reachable(size, x) && g in x.grants && x.ep.compat == Some(true) && !WellNamed(x, g)
  {
    x := EarlyGrant(size);
    g := x.grants[0];
    x := Step(size, x, Arrives(OLD_EVENT));
    x := Step(size, x, Pulls);
  }

  lemma NoEarlyGrant(size: int, x: Facing)
    requires Reachable(size, x) && size < 4
    ensures x.ep.compat.None? ==> x.grants == []
  {
    ReachableInv(size, x);
    assert |x.grants| > 0 ==> x.grants[0] in x.grants;
  }

  /** A grant can go out before the peer's generation is known, and so be named wrong for a
      protocol 2 peer, exactly if the queue has size 4 or more: one reserved entry is then
      less than half, and after a first `recv` that timed out the second asks for the rest. */
  lemma EarlyGrantIffSizeFour(size: int)
    ensures CanGrantEarly(size) <==> size >= 4
    ensures CanMisname(size) <==> size >= 4
  {
    if size >= 4 {
      var x := EarlyGrant(size);
      var y, g := MisnamedGrant(size);
    } else if CanGrantEarly(size) {
      var x :| Reachable(size, x) && x.ep.compat.None? && x.grants != [];
      NoEarlyGrant(size, x);
    } else if CanMisname(size) {
      var x, g :| Reachable(size, x) && g in x.grants && x.ep.compat.Some? && !WellNamed(x, g);
      ReachableInv(size, x);
    }
  }
}
