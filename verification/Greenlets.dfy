/** The `while True` loops of a channel's greenlets, over the layers as objects: each is
    tied to the value-level meaning of the whole row of turns it takes. */
module Greenlets {
  import opened Protocol
  import opened Buffering
  import opened Heartbeat
  import HeartbeatLaws
  import opened Layers
  import Multiplex

  // ---- _channel_dispatcher ------------------------------------------------------------

  /** The dispatcher of the state machines and the one of the objects route alike: one finds
      a queue iff the other does, and then a put adds the event to the same queue. */
  lemma RoutingAgrees(p: Multiplex.Mux, ids: set<Id>, e: Event)
    requires forall c :: c in ids <==> Multiplex.Active(p, c)
    ensures Multiplex.Routable(p, e) <==> TargetOf(ids, p.broadcast, e) != Unroutable
    ensures Multiplex.Routable(p, e) && Multiplex.CanPut(p.(hand := [e])) ==>
              var t, p' := TargetOf(ids, p.broadcast, e), Multiplex.Put(p.(hand := [e]));
              && p'.bqueue == p.bqueue + Put(t == ToBroadcast, e)
              && p'.chans.Keys == p.chans.Keys
              && forall c :: c in p.chans ==> p'.chans[c].queue == p.chans[c].queue + Put(t == ToChannel(c), e)
  {
    if e.respTo.Some? {
      assert e.respTo.value in ids <==> Multiplex.Active(p, e.respTo.value);
    }
  }

  // ---- _heartbeat -------------------------------------------------------------------

  lemma {:induction false} TicksEnd(b: Beat, wakes: seq<real>, k: nat)
    requires k <= |wakes| && !Awake(HeartbeatLaws.Ticks(b, wakes[..k]))
    ensures HeartbeatLaws.Ticks(b, wakes) == HeartbeatLaws.Ticks(b, wakes[..k])
    decreases |wakes|
  {
    if k < |wakes| {
      assert wakes[..|wakes| - 1][..k] == wakes[..k];
      TicksEnd(b, wakes[..|wakes| - 1], k);
    } else {
      assert wakes[..k] == wakes;
    }
  }

  /** The heartbeats of a channel, one for each id drawn. */
  function BeatsOf(id: Option<Id>, msgIds: seq<Id>): (r: seq<Event>)
    ensures |r| == |msgIds|
    ensures forall i :: 0 <= i < |r| ==> r[i] == Event(ZpcHb, Num(0), msgIds[i], id, Some(3))
  {
    seq(|msgIds|, i requires 0 <= i < |msgIds| => Event(ZpcHb, Num(0), msgIds[i], id, Some(3)))
  }

  /** `_heartbeat` with nothing heard between its wake-ups: it sends one heartbeat at each,
      up to the one that declares the loss and ends it. */
  method BeatUntilLost(hb: HeartBeatOnChannel, wakes: seq<real>, msgIds: seq<Id>) returns (beats: nat)
    requires hb.Valid() && hb.channel != null && hb.channel.id.Some? && hb.task.Running?
    requires |msgIds| == |wakes|
    modifies hb, hb.Below()
    ensures hb.Valid() && hb.channel == old(hb.channel)
    ensures hb.State() == HeartbeatLaws.Ticks(old(hb.State()), wakes)
    ensures beats <= |wakes| && (beats < |wakes| <==> hb.task.Ended?)
    ensures hb.channel.mux.sent == old(hb.channel.mux.sent) + BeatsOf(old(hb.channel.id), msgIds[..beats])
  {
    ghost var start, sent := hb.State(), hb.channel.mux.sent;
    beats := 0;
    while beats < |wakes|
      invariant beats <= |wakes| && hb.task.Running?
      invariant hb.Valid() && hb.channel == old(hb.channel)
      invariant hb.channel.id == old(hb.channel.id) && hb.channel.id.Some?
      invariant hb.State() == HeartbeatLaws.Ticks(start, wakes[..beats])
      invariant hb.channel.mux.sent == sent + BeatsOf(old(hb.channel.id), msgIds[..beats])
    {
      BeatsSnoc(old(hb.channel.id), msgIds, beats);
      var beat := WakeOnce(hb, start, wakes, beats, msgIds[beats]);
      if !beat {
        TicksEnd(start, wakes, beats + 1);
        return;
      }
      beats := beats + 1;
    }
    assert wakes[..beats] == wakes;
  }

  lemma BeatsSnoc(id: Option<Id>, msgIds: seq<Id>, k: nat)
    requires k < |msgIds|
    ensures BeatsOf(id, msgIds[..k + 1]) == BeatsOf(id, msgIds[..k]) + [Event(ZpcHb, Num(0), msgIds[k], id, Some(3))]
  {
  }

  method WakeOnce(hb: HeartBeatOnChannel, ghost start: Beat, wakes: seq<real>, k: nat, msgId: Id) returns (beat: bool)
    requires hb.Valid() && hb.channel != null && hb.channel.id.Some? && hb.task.Running?
    requires k < |wakes| && hb.State() == HeartbeatLaws.Ticks(start, wakes[..k])
    modifies hb, hb.Below()
    ensures hb.Valid() && hb.channel == old(hb.channel) && hb.channel.id == old(hb.channel.id)
    ensures hb.State() == HeartbeatLaws.Ticks(start, wakes[..k + 1])
    ensures if beat then hb.task.Running? else hb.task.Ended?
    ensures hb.channel.mux.sent == old(hb.channel.mux.sent)
              + if beat then [Event(ZpcHb, Num(0), msgId, hb.channel.id, Some(3))] else []
  {
    HeartbeatLaws.TicksSnoc(start, wakes[..k], wakes[k]);
    assert wakes[..k] + [wakes[k]] == wakes[..k + 1];
    var _, _ := hb.HeartbeatTurn(wakes[k], msgId, false);
    beat := hb.task.Running?;
  }

  // ---- the two _recver greenlets ----------------------------------------------------

  /** `_compat_v2` after the events of `s`. */
  function GenerationAfter(compat: Option<bool>, s: seq<Event>): Option<bool> {
    if s == [] then compat else Some(Generation(compat, s[0]))
  }

  /** What one arrival passes up. */
  function Up(compat: Option<bool>, e: Event): seq<Event> {
    match Inbound(Generation(compat, e), e) case Some(up) => [up] case None => []
  }

  lemma {:induction false} UpwardSnoc(compat: Option<bool>, s: seq<Event>, e: Event)
    ensures HeartbeatLaws.Upward(compat, s + [e]) == HeartbeatLaws.Upward(compat, s) + Up(GenerationAfter(compat, s), e)
    decreases |s|
  {
    if s == [] {
      assert [e][1..] == [] && s + [e] == [e];
    } else {
      var first, known := Up(compat, s[0]), GenerationAfter(compat, s);
      assert (s + [e])[1..] == s[1..] + [e];
      UpwardSnoc(known, s[1..], e);
      assert GenerationAfter(known, s[1..]) == known;
      Assoc(first, HeartbeatLaws.Upward(known, s[1..]), Up(known, e));
    }
  }

  lemma Assoc(x: seq<Event>, y: seq<Event>, z: seq<Event>)
    ensures x + (y + z) == (x + y) + z
  {
  }

  lemma {:induction false} DeliverAllSnoc(b: Buffer, s: seq<Event>, e: Event)
    ensures HeartbeatLaws.DeliverAll(b, s + [e]) == Deliver(HeartbeatLaws.DeliverAll(b, s), e)
    decreases |s|
  {
    if s == [] {
      assert [e][1..] == [] && s + [e] == [e];
    } else {
      assert (s + [e])[1..] == s[1..] + [e];
      DeliverAllSnoc(Deliver(b, s[0]), s[1..], e);
    }
  }

  /** What the buffer is after the arrivals of `s`. */
  function BufferAfter(b: Buffer, compat: Option<bool>, s: seq<Event>): Buffer {
    HeartbeatLaws.DeliverAll(b, HeartbeatLaws.Upward(compat, s))
  }

  lemma BufferAfterSnoc(b: Buffer, compat: Option<bool>, s: seq<Event>, e: Event)
    ensures BufferAfter(b, compat, s + [e])
         == match Inbound(Generation(GenerationAfter(compat, s), e), e)
            case Some(up) => Deliver(BufferAfter(b, compat, s), up)
            case None => BufferAfter(b, compat, s)
  {
    UpwardSnoc(compat, s, e);
    var up := HeartbeatLaws.Upward(compat, s);
    match Inbound(Generation(GenerationAfter(compat, s), e), e)
    case Some(f) => DeliverAllSnoc(b, up, f);
    case None => assert up + [] == up;
  }

  /** The receive chain is idle, and ready for an event. */
  ghost predicate Ready(buf: BufferedChannel, hb: HeartBeatOnChannel, ch: Channel)
    reads buf, hb, ch, ch.mux, ch.mux.made
  {
    && buf.channel == hb && hb.channel == ch && hb.Valid()
    && buf.recving && buf.waiting && hb.recving && !hb.lost && hb.hand == [] && ch.queue == []
  }

  /** `HeartBeatOnChannel._recver` and `BufferedChannel._recver` on a row of arrivals, up to
      the one that ends them: the one `on_close_if` closes the channel for, or overflows. */
  method Receive(buf: BufferedChannel, hb: HeartBeatOnChannel, ch: Channel, arrivals: seq<Event>, now: real)
    returns (used: nat)
    requires Ready(buf, hb, ch)
    modifies buf, hb, ch, ch.mux
    ensures used <= |arrivals|
    ensures if buf.recving then used == |arrivals| && Ready(buf, hb, ch) else used > 0
    ensures buf.State() == BufferAfter(old(buf.State()), old(hb.compat), arrivals[..used])
  {
    used := 0;
    while used < |arrivals| && buf.recving
      invariant used <= |arrivals|
      invariant if buf.recving then Ready(buf, hb, ch) else used > 0
      invariant buf.recving ==> hb.compat == GenerationAfter(old(hb.compat), arrivals[..used])
      invariant buf.State() == BufferAfter(old(buf.State()), old(hb.compat), arrivals[..used])
    {
      ReceiveOne(buf, hb, ch, old(buf.State()), old(hb.compat), arrivals, used, now);
      used := used + 1;
    }
  }

  method ReceiveOne(buf: BufferedChannel, hb: HeartBeatOnChannel, ch: Channel,
                    ghost b: Buffer, ghost compat: Option<bool>, arrivals: seq<Event>, k: nat, now: real)
    requires Ready(buf, hb, ch) && k < |arrivals|
    requires hb.compat == GenerationAfter(compat, arrivals[..k])
    requires buf.State() == BufferAfter(b, compat, arrivals[..k])
    modifies buf, hb, ch, ch.mux
    ensures buf.recving ==> Ready(buf, hb, ch) && hb.compat == GenerationAfter(compat, arrivals[..k + 1])
    ensures buf.State() == BufferAfter(b, compat, arrivals[..k + 1])
  {
    BufferAfterSnoc(b, compat, arrivals[..k], arrivals[k]);
    assert arrivals[..k] + [arrivals[k]] == arrivals[..k + 1];
    ch.queue := [arrivals[k]];
    hb.RecverTurn(now);
    if hb.hand != [] {
      FeedOne(buf, hb, ch);
    }
  }

  /** `BufferedChannel._recver` takes what is held, and goes back to wait. */
  method FeedOne(buf: BufferedChannel, hb: HeartBeatOnChannel, ch: Channel)
    requires buf.channel == hb && hb.channel == ch && hb.Valid()
    requires buf.recving && buf.waiting && hb.recving && !hb.lost && hb.hand != [] && ch.queue == []
    modifies buf, hb, ch, ch.mux
    ensures buf.recving ==> Ready(buf, hb, ch) && hb.compat == old(hb.compat)
    ensures buf.State() == Deliver(old(buf.State()), old(hb.hand)[0])
  {
    buf.RecverTurn();
    if buf.recving { buf.RecverCall(); }
  }
}
