/** The layers of a channel as the objects they are, with the fields and the in-place updates
    of the source.  Each method is tied to the value-level step of the module that the
    protocol proofs are about: Buffering, Heartbeat, Multiplex.

    `fails` says that the layer below raises when it is handed an event; `msgId` is the id
    the context draws for a new event (module MessageIds).  A blocking call is cut in two
    methods at the point where it waits. */
module Layers {
  import opened Protocol
  import opened Buffering
  import opened Heartbeat

  /** Where the dispatcher puts an event, given the ids of the active channels. */
  datatype Target = ToChannel(id: Id) | ToBroadcast | Unroutable

  function TargetOf(ids: set<Id>, broadcast: bool, e: Event): Target {
    if e.respTo.Some? then (if e.respTo.value in ids then ToChannel(e.respTo.value) else Unroutable)
    else if broadcast then ToBroadcast else Unroutable
  }

  function Put(there: bool, e: Event): seq<Event> {
    if there then [e] else []
  }

  /** The events of `s` for one target, in order. */
  function Share(ids: set<Id>, broadcast: bool, t: Target, s: seq<Event>): seq<Event>
    decreases |s|
  {
    if s == [] then []
    else
      var last := s[|s| - 1];
      Share(ids, broadcast, t, s[..|s| - 1]) + Put(TargetOf(ids, broadcast, last) == t, last)
  }

  lemma ShareOneMore(ids: set<Id>, broadcast: bool, s: seq<Event>, k: nat)
    requires k < |s|
    ensures forall t :: Share(ids, broadcast, t, s[..k + 1])
                     == Share(ids, broadcast, t, s[..k]) + Put(TargetOf(ids, broadcast, s[k]) == t, s[k])
  {
    assert s[..k + 1][..k] == s[..k];
  }

  /** The shares take every event once: an event is in the share of its target only. */
  lemma {:induction false} SharesPartition(ids: set<Id>, broadcast: bool, s: seq<Event>, e: Event, t: Target)
    ensures multiset(Share(ids, broadcast, t, s))[e] == if TargetOf(ids, broadcast, e) == t then multiset(s)[e] else 0
    decreases |s|
  {
    if s != [] {
      var init, last := s[..|s| - 1], s[|s| - 1];
      assert s == init + [last];
      SharesPartition(ids, broadcast, init, e, t);
    }
  }

  /** A queue that started as `queue`, after the first `k` events of `s`. */
  ghost function Served(queue: seq<Event>, ids: set<Id>, broadcast: bool, t: Target, s: seq<Event>, k: nat): seq<Event>
    requires k <= |s|
  {
    queue + Share(ids, broadcast, t, s[..k])
  }

  lemma ServedOneMore(queue: seq<Event>, ids: set<Id>, broadcast: bool, t: Target, s: seq<Event>, k: nat)
    requires k < |s|
    ensures Served(queue, ids, broadcast, t, s, k + 1)
         == Served(queue, ids, broadcast, t, s, k) + Put(TargetOf(ids, broadcast, s[k]) == t, s[k])
  {
    ShareOneMore(ids, broadcast, s, k);
  }

  class ChannelMultiplexer {
    const broadcast: bool
    var active: map<Id, Channel>          // _active_channels
    var broadcastQueue: seq<Event>
    var sent: seq<Event>                  // what was handed to the events layer
    ghost var made: set<Channel>          // every channel of this multiplexer

    /** The keys of the map are exactly the ids of the open channels, each with its own. */
    ghost predicate Valid()
      reads this, made
    {
      && (forall ch :: ch in made ==> ch.mux == this)
      && (forall id :: id in active ==> active[id] in made && active[id].id == Some(id))
      && (forall ch :: ch in made && ch.id.Some? ==> ch.id.value in active && active[ch.id.value] == ch)
    }

    constructor (broadcast: bool)
      ensures Valid() && this.broadcast == broadcast
      ensures made == {} && active == map[] && sent == [] && broadcastQueue == []
    {
      this.broadcast := broadcast;
      active, made, sent, broadcastQueue := map[], {}, [], [];
    }

    method EmitEvent(e: Event, fails: bool) returns (raised: bool)
      modifies this`sent
      ensures raised == fails && sent == old(sent) + if fails then [] else [e]
    {
      if !fails { sent := sent + [e]; }
      raised := fails;
    }

    /** The queue the dispatcher finds for `e` has no room. */
    predicate MustWait(e: Event)
      reads this, (set id | id in active :: active[id])
    {
      match TargetOf(active.Keys, broadcast, e)
      case ToChannel(c) => c in active && |active[c].queue| >= QUEUE_SIZE
      case ToBroadcast => |broadcastQueue| >= QUEUE_SIZE
      case Unroutable => false
    }

    /** One turn of `_channel_dispatcher`, unless the queue it finds is full. */
    method DispatchOne(e: Event) returns (waits: bool)
      requires Valid()
      modifies this`broadcastQueue, (set id | id in active :: active[id])`queue
      ensures Valid()
      ensures waits == old(MustWait(e)) && (waits ==> MustWait(e))
      ensures broadcastQueue == old(broadcastQueue)
                + Put(!waits && TargetOf(active.Keys, broadcast, e) == ToBroadcast, e)
      ensures forall id :: id in active ==>
                active[id].queue == old(active[id].queue)
                  + Put(!waits && TargetOf(active.Keys, broadcast, e) == ToChannel(id), e)
    {
      if e.respTo.Some? {
        if e.respTo.value in active {
          var ch := active[e.respTo.value];
          waits := |ch.queue| >= QUEUE_SIZE;
          if !waits { ch.queue := ch.queue + [e]; }
        } else {
          waits := false;
        }
      } else if broadcast {
        waits := |broadcastQueue| >= QUEUE_SIZE;
        if !waits { broadcastQueue := broadcastQueue + [e]; }
      } else {
        waits := false;
      }
    }

    /** `_channel_dispatcher` on a row of arrivals, up to the first it must wait for.  Each
        queue gets its share, in order, and nothing else; the rest was unroutable. */
    method Dispatch(arrivals: seq<Event>) returns (done: nat)
      requires Valid()
      modifies this`broadcastQueue, (set id | id in active :: active[id])`queue
      ensures Valid() && done <= |arrivals|
      ensures broadcastQueue == Served(old(broadcastQueue), active.Keys, broadcast, ToBroadcast, arrivals, done)
      ensures forall id :: id in active ==>
                active[id].queue == Served(old(active[id].queue), active.Keys, broadcast, ToChannel(id), arrivals, done)
      ensures done < |arrivals| ==> MustWait(arrivals[done])
    {
      ghost var start := map id | id in active :: active[id].queue;
      ghost var broadcasts := broadcastQueue;
      done := 0;
      while done < |arrivals|
        invariant Valid() && done <= |arrivals| && SharedOut(start, broadcasts, arrivals, done)
      {
        var waits := DispatchNext(start, broadcasts, arrivals, done);
        if waits { return; }
        done := done + 1;
      }
    }

    /** Of the first `k` arrivals every queue has its share. */
    ghost predicate SharedOut(start: map<Id, seq<Event>>, broadcasts: seq<Event>, arrivals: seq<Event>, k: nat)
      reads this, (set id | id in active :: active[id])
    {
      && k <= |arrivals| && start.Keys == active.Keys
      && broadcastQueue == Served(broadcasts, active.Keys, broadcast, ToBroadcast, arrivals, k)
      && (forall id :: id in active ==>
            active[id].queue == Served(start[id], active.Keys, broadcast, ToChannel(id), arrivals, k))
    }

    method DispatchNext(ghost start: map<Id, seq<Event>>, ghost broadcasts: seq<Event>, arrivals: seq<Event>, k: nat)
      returns (waits: bool)
      requires Valid() && k < |arrivals| && SharedOut(start, broadcasts, arrivals, k)
      modifies this`broadcastQueue, (set id | id in active :: active[id])`queue
      ensures Valid() && SharedOut(start, broadcasts, arrivals, if waits then k else k + 1)
      ensures waits ==> MustWait(arrivals[k])
    {
      forall id | id in active {
        ServedOneMore(start[id], active.Keys, broadcast, ToChannel(id), arrivals, k);
      }
      ServedOneMore(broadcasts, active.Keys, broadcast, ToBroadcast, arrivals, k);
      waits := DispatchOne(arrivals[k]);
    }
  }

  class Channel {
    const mux: ChannelMultiplexer
    var id: Option<Id>        // _channel_id
    var queue: seq<Event>     // _queue

    /** A channel for an event that opens one, or for a call that is about to. */
    constructor (mux: ChannelMultiplexer, from: Option<Event>)
      requires mux.Valid() && (from.Some? ==> from.value.msgId !in mux.active)
      modifies mux
      ensures mux.Valid() && this.mux == mux && mux.made == old(mux.made) + {this}
      ensures mux.sent == old(mux.sent) && mux.broadcastQueue == old(mux.broadcastQueue)
      ensures from.None? ==> id == None && queue == [] && mux.active == old(mux.active)
      ensures from.Some? ==> id == Some(from.value.msgId) && queue == [from.value]
      ensures from.Some? ==> mux.active == old(mux.active)[from.value.msgId := this]
    {
      this.mux := mux;
      id := if from.Some? then Some(from.value.msgId) else None;
      queue := if from.Some? then [from.value] else [];
      new;
      mux.made := mux.made + {this};
      if from.Some? { mux.active := mux.active[from.value.msgId := this]; }
    }

    /** Removes the channel's own entry and no other; a second close does nothing. */
    method Close()
      requires mux.Valid() && this in mux.made
      modifies this`id, mux`active
      ensures mux.Valid() && id == None
      ensures mux.active == old(if id.Some? then mux.active - {id.value} else mux.active)
    {
      if id.Some? {
        mux.active := mux.active - {id.value};
        id := None;
      }
    }

    /** The first event made names the channel; every later one is a response on it. */
    method NewEvent(name: Name, args: Args, msgId: Id) returns (e: Event)
      requires mux.Valid() && this in mux.made && (id.None? ==> msgId !in mux.active)
      modifies this`id, mux`active
      ensures mux.Valid()
      ensures e == Event(name, args, msgId, old(id), Some(3))
      ensures id == old(if id.Some? then id else Some(msgId))
      ensures mux.active == old(if id.Some? then mux.active else mux.active[msgId := this])
    {
      e := Event(name, args, msgId, None, Some(3));
      if id.None? {
        id := Some(msgId);
        mux.active := mux.active[msgId := this];
      } else {
        e := e.(respTo := id);
      }
    }
  }

  class HeartBeatOnChannel {
    const freq: Option<real>     // _heartbeat_freq
    var channel: Channel?
    var closed: bool
    var last: Option<real>       // _remote_last_hb
    var lost: bool               // _lost_remote
    var task: Greenlet           // _heartbeat_task
    var recving: bool            // _recv_task is not None
    var compat: Option<bool>     // _compat_v2
    var hand: seq<Event>         // _input_queue: a rendezvous, so what _recver holds

    function State(): Beat
      reads this
    {
      Beat(freq, last, lost, task, compat, closed)
    }

    ghost function Below(): set<object>
      reads this, channel
    {
      if channel == null then {} else {channel, channel.mux}
    }

    ghost predicate Valid()
      reads this, channel, Below(), if channel == null then {} else channel.mux.made
    {
      && |hand| <= 1
      && (channel != null ==> channel.mux.Valid() && channel in channel.mux.made)
      && (task.Running? ==> freq.Some?)
      && (channel == null ==> closed && task.NoTask? && !recving)
    }

    constructor (channel: Channel, freq: Option<real>, passive: bool)
      requires channel.mux.Valid() && channel in channel.mux.made
      ensures Valid() && this.channel == channel && this.freq == freq && recving && hand == []
      ensures State() == Created(freq, passive)
    {
      this.channel, this.freq := channel, freq;
      closed, last, lost, task, recving, compat, hand := false, None, false, NoTask, true, None, [];
      new;
      if !passive { StartHeartbeat(); }
    }

    method StartHeartbeat()
      modifies this`task
      ensures State() == Started(old(State()))
    {
      if task.NoTask? && freq.Some? && !closed { task := Running; }
    }

    method Close()
      requires Valid()
      modifies this, Below()
      ensures Valid() && channel == null && hand == old(hand)
      ensures State() == old(State()).(closed := true, task := NoTask)
      ensures old(channel) != null ==> old(channel).mux.Valid()
      ensures old(channel) != null ==>
                old(channel).mux.active == old(if channel.id.Some? then channel.mux.active - {channel.id.value}
                                               else channel.mux.active)
      ensures old(channel) != null ==> old(channel).id == None && old(channel).mux.made == old(channel.mux.made)
    {
      closed, task, recving := true, NoTask, false;
      if channel != null {
        channel.Close();
        channel := null;
      }
    }

    /** One turn of `_heartbeat`, woken up at time `now`. */
    method HeartbeatTurn(now: real, msgId: Id, fails: bool) returns (kills: bool, raised: bool)
      requires Valid() && channel != null && task.Running?
      requires channel.id.None? ==> msgId !in channel.mux.active
      modifies this, Below()
      ensures Valid() && channel == old(channel) && hand == old(hand) && compat == old(compat)
      ensures raised == (Beats(old(State()), now) && fails)
      ensures State() == if raised then Tick(old(State()), now).(task := Ended) else Tick(old(State()), now)
      ensures kills == (!Beats(old(State()), now) && !closed)
      ensures old(channel.id).Some? ==> channel.id == old(channel.id) && channel.mux.active == old(channel.mux.active)
      ensures channel.mux.sent == old(channel.mux.sent)
                + if Beats(old(State()), now) && !fails
                  then [Event(ZpcHb, Num(0), msgId, old(channel.id), Some(3))] else []
    {
      kills, raised := false, false;
      if last.None? { last := Some(now); }
      if now > last.value + freq.value * 2.0 {
        lost := true;
        kills := !closed;
        task := Ended;
      } else {
        var e := channel.NewEvent(ZpcHb, Num(0), msgId);
        raised := channel.mux.EmitEvent(e, fails);
        if raised { task := Ended; }
      }
    }

    /** One turn of `_recver`, which has nothing left to hand over. */
    method RecverTurn(now: real)
      requires Valid() && channel != null && recving && hand == [] && channel.queue != []
      modifies this, channel`queue
      ensures Valid() && channel == old(channel) && recving && channel.queue == old(channel.queue)[1..]
      ensures var e := old(channel.queue)[0];
              && State() == Arrive(old(State()), e, now)
              && hand == match PassedUp(old(State()), e) case Some(up) => [up] case None => []
    {
      var e := channel.queue[0];
      channel.queue := channel.queue[1..];
      if compat.None? { compat := Some(VersionOf(e) < 3); }
      if e.name.ZpcHb? {
        last := Some(now);
        StartHeartbeat();
        if compat.value { hand := [e.(name := ZpcMore)]; }
      } else {
        hand := [e];
      }
    }

    method NewEvent(name: Name, args: Args, msgId: Id) returns (e: Event)
      requires Valid() && channel != null && (channel.id.None? ==> msgId !in channel.mux.active)
      modifies channel`id, channel.mux`active
      ensures Valid() && channel.mux.Valid()
      ensures e == Event(Outbound(compat, name), args, msgId, old(channel.id), Some(3))
      ensures channel.id == old(if channel.id.Some? then channel.id else Some(msgId))
      ensures channel.mux.active == old(if channel.id.Some? then channel.mux.active
                                        else channel.mux.active[msgId := channel])
    {
      var name' := name;
      if compat == Some(true) && name.ZpcMore? { name' := ZpcHb; }
      e := channel.NewEvent(name', args, msgId);
    }

    /** Raises for good once the remote is lost, and after `close`. */
    method EmitEvent(e: Event, fails: bool) returns (raised: bool)
      requires Valid()
      modifies if channel == null then {} else {channel.mux}
      ensures Valid()
      ensures raised == (lost || channel == null || fails)
      ensures channel != null ==> channel.mux.sent == old(channel.mux.sent) + if raised then [] else [e]
      ensures channel != null ==>
                channel.mux.active == old(channel.mux.active) && channel.mux.made == old(channel.mux.made)
    {
      if lost || channel == null { return true; }
      raised := channel.mux.EmitEvent(e, fails);
    }

    /** `recv`; the timeout is over if nothing is held. */
    method Recv() returns (r: Received)
      requires Valid()
      modifies this`hand
      ensures Valid()
      ensures r == if lost then LostRemote else if old(hand) == [] then TimedOut else Got(old(hand)[0])
      ensures hand == if r.Got? then [] else old(hand)
    {
      var raised := RecvBegin();
      if raised { return LostRemote; }
      r := RecvEnd();
    }

    /** `recv` up to its wait: a loss is only looked for here. */
    method RecvBegin() returns (raised: bool)
      ensures raised == lost
    {
      raised := lost;
    }

    /** `recv` from its wait on: it takes what is held, also if the remote was lost meanwhile. */
    method RecvEnd() returns (r: Received)
      requires Valid()
      modifies this`hand
      ensures Valid() && hand == []
      ensures r == if old(hand) == [] then TimedOut else Got(old(hand)[0])
    {
      r := if hand == [] then TimedOut else Got(hand[0]);
      hand := [];
    }
  }

  datatype Received = Got(event: Event) | LostRemote | TimedOut

  class BufferedChannel {
    var channel: HeartBeatOnChannel?
    const size: int                        // _input_queue_size
    var slots: int                         // _remote_queue_open_slots
    var reserved: int                      // _input_queue_reserved
    var canRecv: bool                      // _remote_can_recv
    var queue: seq<Event>                  // _input_queue
    var verbose: bool
    var onCloseIf: Option<Event -> bool>
    var recving: bool                      // the _recver greenlet runs
    var waiting: bool                      // and is inside _channel.recv

    function State(): Buffer
      reads this
    {
      Buffer(size, slots, reserved, canRecv, queue, verbose, onCloseIf, channel != null, recving)
    }

    ghost function Below(): set<object>
      reads this, channel
    {
      if channel == null then {}
      else if channel.channel == null then {channel}
      else {channel, channel.channel, channel.channel.mux}
    }

    ghost predicate Valid()
      reads this, channel, Below(),
            if channel == null || channel.channel == null then {} else channel.channel.mux.made
    {
      (channel != null ==> channel.Valid()) && (waiting ==> recving && channel != null)
    }

    constructor (channel: HeartBeatOnChannel, size: int)
      requires channel.Valid()
      ensures Valid() && this.channel == channel && State() == Fresh(size) && !waiting
    {
      this.channel, this.size := channel, size;
      slots, reserved, canRecv, queue := 1, 1, false, [];
      verbose, onCloseIf, recving, waiting := false, None, true, false;
    }

    /** Closes the layers below too.  The channel's entry leaves the multiplexer's map, no
        other does, and a second close changes nothing. */
    method Close()
      requires Valid()
      modifies this, Below()
      ensures Valid() && channel == null
      ensures State() == Closed(old(State()))
      ensures old(channel) != null ==> old(channel).Valid() && old(channel).channel == null
      ensures old(channel) != null ==> old(channel).hand == old(channel.hand)
      ensures old(channel) != null && old(channel.channel) != null ==>
                var mux := old(channel.channel).mux;
                && mux.Valid()
                && mux.active == old(if channel.channel.id.Some? then mux.active - {channel.channel.id.value}
                                     else mux.active)
    {
      recving, waiting := false, false;
      if channel != null {
        channel.Close();
        channel := null;
      }
    }

    /** The call of `recv` in the loop of `_recver`: it raises, which ends the greenlet, if the
        remote is lost by now. */
    method RecverCall()
      requires Valid() && channel != null && recving && !waiting
      modifies this`recving, this`waiting
      ensures Valid() && waiting == recving
      ensures State() == old(State()).(alive := !channel.lost)
    {
      var raised := channel.RecvBegin();
      recving, waiting := !raised, !raised;
    }

    /** The rest of the turn: it takes what the layer below holds, also if the remote was lost
        while it waited. */
    method RecverTurn()
      requires Valid() && waiting && channel.hand != []
      modifies this, Below()
      ensures Valid() && old(channel).Valid() && !waiting
      ensures State() == Deliver(old(State()), old(channel.hand)[0])
      ensures old(channel).hand == []
      ensures channel != null ==> channel == old(channel) && channel.State() == old(channel.State())
      ensures channel != null ==> channel.channel == old(channel.channel) && channel.recving == old(channel.recving)
      ensures channel != null && channel.channel != null ==> channel.channel.queue == old(channel.channel.queue)
    {
      var r := channel.RecvEnd();
      var e := r.event;
      waiting := false;
      if e.name.ZpcMore? {
        if e.args.Num? { slots := slots + e.args.amount; }   // otherwise int() raises, and is logged
        if slots > 0 { canRecv := true; }
      } else if |queue| == size {
        recving := false;                                    // raises: queue overflow
      } else {
        queue := queue + [e];
        if onCloseIf.Some? && onCloseIf.value(e) {
          Close();
        }
      }
    }

    /** The gate of `emit_event`; when it waits, it does so on a cleared flag. */
    method EmitBegin() returns (waits: bool)
      modifies this`canRecv
      ensures waits == (slots == 0) && (waits ==> (canRecv <==> slots > 0))
      ensures State() == if waits then Blocked(old(State())) else old(State())
    {
      waits := slots == 0;
      if waits { canRecv := false; }
    }

    /** The rest of `emit_event`: the slot is put back if the layers below raise. */
    method EmitFinish(e: Event, fails: bool) returns (raised: bool)
      requires Valid()
      modifies this`slots, Below()
      ensures Valid() && channel == old(channel)
      ensures raised == (fails || channel == null || channel.lost || channel.channel == null)
      ensures State() == Emitted(old(State()), !raised)
      ensures channel != null ==> channel.channel == old(channel.channel)
      ensures channel != null && channel.channel != null ==>
                channel.channel.mux.sent == old(channel.channel.mux.sent) + if raised then [] else [e]
    {
      slots := slots - 1;
      raised := true;
      if channel != null {
        raised := channel.EmitEvent(e, fails);
      }
      if raised { slots := slots + 1; }
    }

    /** Asks for as much as the queue can hold; what was asked stays booked if the layers
        below raise. */
    method RequestData(msgId: Id, fails: bool) returns (raised: bool)
      requires Valid() && channel != null && channel.channel != null
      requires channel.channel.id.None? ==> msgId !in channel.channel.mux.active
      modifies this`reserved, Below()
      ensures Valid() && channel == old(channel) && channel.channel == old(channel.channel)
      ensures State() == old(State()).(reserved := old(reserved) + GrantSize(old(State())))
      ensures raised == (fails || channel.lost)
      ensures channel.channel.mux.sent == old(channel.channel.mux.sent)
                + if raised then []
                  else [Event(Outbound(channel.compat, ZpcMore), Num(GrantSize(old(State()))), msgId,
                              old(channel.channel.id), Some(3))]
    {
      var openSlots := size - reserved;
      reserved := reserved + openSlots;
      var e := channel.NewEvent(ZpcMore, Num(openSlots), msgId);
      raised := channel.EmitEvent(e, fails);
    }

    /** `recv` up to its wait.  The first one asks for nothing. */
    method RecvBegin(msgId: Id, fails: bool) returns (raised: bool)
      requires Valid() && (channel != null ==> channel.channel != null)
      requires channel != null && channel.channel.id.None? ==> msgId !in channel.channel.mux.active
      modifies this`reserved, this`verbose, Below()
      ensures Valid() && channel == old(channel)
      ensures State() == Entered(old(State()))
      ensures raised == (Grants(old(State())) && (fails || channel.lost))
      ensures channel != null ==> channel.channel == old(channel.channel)
      ensures channel != null ==>
                channel.channel.mux.sent == old(channel.channel.mux.sent)
                  + if old(verbose) && old(reserved) < size / 2 && !raised
                    then [Event(Outbound(channel.compat, ZpcMore), Num(size - old(reserved)), msgId,
                                old(channel.channel.id), Some(3))] else []
    {
      raised := false;
      if verbose && channel != null {
        if reserved < size / 2 {
          raised := RequestData(msgId, fails);
        }
      } else {
        verbose := true;
      }
    }

    /** `recv` once the input queue has an event: it gives the oldest, and what is reserved
        but not queued stays what it was. */
    method RecvEnd() returns (e: Event)
      requires queue != []
      modifies this`queue, this`reserved
      ensures [e] + queue == old(queue)
      ensures reserved - |queue| == old(reserved - |queue|)
      ensures State() == Taken(old(State()))
    {
      e := queue[0];
      queue := queue[1..];
      reserved := reserved - 1;
    }
  }
}
