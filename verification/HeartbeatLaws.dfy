/** What the heartbeat layer promises: how long a silent peer goes unnoticed, when a live
    one is never declared lost, and that the renaming between protocol 2 and protocol 3
    hides nothing but heartbeats. */
module HeartbeatLaws {
  import opened Protocol
  import opened Buffering
  import opened Heartbeat

  // ---- one detector: how long a silence lasts ---------------------------------------

  /** A turn of one of the two greenlets of the layer. */
  datatype Turn = Wake(at: real) | Hear(event: Event, at: real)

  function Evolve(b: Beat, turns: seq<Turn>): Beat
    decreases |turns|
  {
    if turns == [] then b
    else
      var b' := match turns[0]
                case Wake(at) => if Awake(b) then Tick(b, at) else b
                case Hear(e, at) => Arrive(b, e, at);
      Evolve(b', turns[1..])
  }

  /** Once the remote is lost it stays lost, whatever happens after, and no heartbeat that
      comes late starts this end's heartbeats again. */
  lemma {:induction false} LostForever(b: Beat, turns: seq<Turn>)
    requires b.lost
    ensures Evolve(b, turns).lost
    ensures b.task.Ended? ==> Evolve(b, turns).task.Ended?
    decreases |turns|
  {
    if turns != [] {
      match turns[0]
      case Wake(at) => LostForever(if Awake(b) then Tick(b, at) else b, turns[1..]);
      case Hear(e, at) => LostForever(Arrive(b, e, at), turns[1..]);
    }
  }

  /** When the last heartbeat of `turns` was heard. */
  function LastBeat(turns: seq<Turn>): Option<real> {
    if turns == [] then None
    else
      var rest := LastBeat(turns[1..]);
      if rest.Some? then rest
      else if turns[0].Hear? && turns[0].event.name.ZpcHb? then Some(turns[0].at) else None
  }

  /** A layer that was passive at first: silent until it hears, then it beats until the loss. */
  predicate Follower(b: Beat) {
    && b.freq.Some? && !b.closed
    && match b.task
       case NoTask => b.last.None? && !b.lost
       case Running => b.last.Some? && !b.lost
       case Ended => b.last.Some? && b.lost
  }

  lemma {:induction false} FollowerEvolves(b: Beat, turns: seq<Turn>)
    requires Follower(b)
    ensures var b' := Evolve(b, turns);
            && Follower(b')
            && (b'.task.NoTask? <==> b.task.NoTask? && LastBeat(turns).None?)
            && b'.last == (if LastBeat(turns).Some? then LastBeat(turns) else b.last)
    decreases |turns|
  {
    if turns != [] {
      match turns[0]
      case Wake(at) => FollowerEvolves(if Awake(b) then Tick(b, at) else b, turns[1..]);
      case Hear(e, at) => FollowerEvolves(Arrive(b, e, at), turns[1..]);
    }
  }

  /** A passive layer says nothing until it hears a heartbeat; from the first one on it beats,
      until it declares the remote lost.  Its clock is that of the last heartbeat heard: no
      other arrival moves it, and no wake-up. */
  lemma PassiveBeatsOnceItHears(freq: real, turns: seq<Turn>)
    ensures var b := Evolve(Created(Some(freq), true), turns);
            && b.last == LastBeat(turns)
            && (b.task.NoTask? <==> LastBeat(turns).None?)
            && (b.task.Running? <==> LastBeat(turns).Some? && !b.lost)
            && (b.lost ==> LastBeat(turns).Some?)
  {
    FollowerEvolves(Created(Some(freq), true), turns);
  }

  function FirstHeard(turns: seq<Turn>): Option<Event> {
    if turns == [] then None
    else if turns[0].Hear? then Some(turns[0].event) else FirstHeard(turns[1..])
  }

  /** The generation this layer holds its peer to be is that of the first event that came, of
      whatever name, for good; there is none before. */
  lemma {:induction false} GenerationIsOfTheFirst(b: Beat, turns: seq<Turn>)
    ensures b.compat.Some? ==> Evolve(b, turns).compat == b.compat
    ensures b.compat.None? ==>
              Evolve(b, turns).compat == match FirstHeard(turns)
                                         case None => None
                                         case Some(e) => Some(e.v.None? || e.v.value < 3)
    decreases |turns|
  {
    if turns != [] {
      match turns[0]
      case Wake(at) => GenerationIsOfTheFirst(if Awake(b) then Tick(b, at) else b, turns[1..]);
      case Hear(e, at) => GenerationIsOfTheFirst(Arrive(b, e, at), turns[1..]);
    }
  }

  /** A closed layer, and one whose heartbeats are turned off, never start any. */
  lemma {:induction false} SilentForever(b: Beat, turns: seq<Turn>)
    requires b.task.NoTask? && (b.closed || b.freq.None?)
    ensures Evolve(b, turns).task.NoTask? && Evolve(b, turns).lost == b.lost
    decreases |turns|
  {
    if turns != [] {
      match turns[0]
      case Wake(at) => SilentForever(b, turns[1..]);
      case Hear(e, at) => SilentForever(Arrive(b, e, at), turns[1..]);
    }
  }

  /** With heartbeats turned off, active or passive, none is ever sent, and no loss declared. */
  lemma TurnedOff(passive: bool, turns: seq<Turn>)
    ensures Evolve(Created(None, passive), turns).task.NoTask? && !Evolve(Created(None, passive), turns).lost
  {
    SilentForever(Created(None, passive), turns);
  }

  /** The wake-ups of `_heartbeat` with nothing heard between them. */
  function Ticks(b: Beat, wakes: seq<real>): Beat
    decreases |wakes|
  {
    if wakes == [] then b
    else
      var before := Ticks(b, wakes[..|wakes| - 1]);
      if Awake(before) then Tick(before, wakes[|wakes| - 1]) else before
  }

  /** The wake-ups are in order and at most `nap` apart, counted from `from`. */
  ghost predicate Naps(wakes: seq<real>, from: real, nap: real) {
    forall i {:trigger wakes[i]} :: 0 <= i < |wakes| ==>
      var before := if i == 0 then from else wakes[i - 1];
      before <= wakes[i] <= before + nap
  }

  /** After a last heartbeat at time `t`, with sleeps of at most `freq + jitter`: the remote
      is lost exactly when a wake-up came later than t + 2 freq, and the wake-up that declares
      it is no later than t + 3 freq + jitter. */
  lemma {:induction false} SilenceIsDetected(b: Beat, t: real, from: real, wakes: seq<real>, jitter: real)
    requires b.freq.Some? && b.freq.value > 0.0 && jitter >= 0.0
    requires b.task.Running? && !b.lost && b.last == Some(t) && t <= from <= t + b.freq.value * 2.0
    requires Naps(wakes, from, b.freq.value + jitter) && wakes != []
    ensures var before, last := Ticks(b, wakes[..|wakes| - 1]), wakes[|wakes| - 1];
            && (Ticks(b, wakes).lost <==> last > t + b.freq.value * 2.0)
            && (Ticks(b, wakes).lost && !before.lost ==>
                 t + b.freq.value * 2.0 < last <= t + b.freq.value * 3.0 + jitter)
            && (!Ticks(b, wakes).lost ==> Ticks(b, wakes) == b)
    decreases |wakes|
  {
    var n := |wakes|;
    var init := wakes[..n - 1];
    if init != [] {
      assert forall i {:trigger init[i]} :: 0 <= i < n - 1 ==> init[i] == wakes[i];
      SilenceIsDetected(b, t, from, init, jitter);
      assert init[n - 2] == wakes[n - 2] <= wakes[n - 1];
      LostHasNoTask(b, init);
    }
  }

  lemma {:induction false} LostHasNoTask(b: Beat, wakes: seq<real>)
    requires if b.lost then b.task.Ended? else b.task.Running?
    ensures if Ticks(b, wakes).lost then Ticks(b, wakes).task.Ended? else Ticks(b, wakes).task.Running?
    decreases |wakes|
  {
    if wakes != [] {
      LostHasNoTask(b, wakes[..|wakes| - 1]);
    }
  }

  lemma TicksSnoc(b: Beat, wakes: seq<real>, at: real)
    ensures Ticks(b, wakes + [at]) == if Awake(Ticks(b, wakes)) then Tick(Ticks(b, wakes), at) else Ticks(b, wakes)
  {
    assert (wakes + [at])[..|wakes|] == wakes;
  }

  /** With no heartbeat ever heard and exact sleeps, the first turn starts the clock and the
      fourth declares the loss: 4 freq after the greenlet started, and not before. */
  lemma NeverHeardIsLostAtFour(freq: real, start: real)
    requires freq > 0.0
    ensures var three := [start + freq, start + freq * 2.0, start + freq * 3.0];
            && !Ticks(Created(Some(freq), false), three).lost
            && Ticks(Created(Some(freq), false), three + [start + freq * 4.0]).lost
  {
    var b := Created(Some(freq), false);
    var w1, w2, w3 := start + freq, start + freq * 2.0, start + freq * 3.0;
    TicksSnoc(b, [], w1);
    TicksSnoc(b, [w1], w2);
    TicksSnoc(b, [w1, w2], w3);
    TicksSnoc(b, [w1, w2, w3], start + freq * 4.0);
    assert [] + [w1] == [w1] && [w1] + [w2] == [w1, w2] && [w1, w2] + [w3] == [w1, w2, w3];
  }

  // ---- the renaming --------------------------------------------------------------------

  /** What `_recver` passes up of a sequence of arrivals. */
  function Upward(compat: Option<bool>, s: seq<Event>): seq<Event>
    decreases |s|
  {
    if s == [] then [] else
    var v2 := Generation(compat, s[0]);
    (match Inbound(v2, s[0]) case Some(e) => [e] case None => []) + Upward(Some(v2), s[1..])
  }

  function WithoutBeats(s: seq<Event>): seq<Event> {
    if s == [] then [] else (if s[0].name.ZpcHb? then [] else [s[0]]) + WithoutBeats(s[1..])
  }

  function BeatsAsGrants(s: seq<Event>): (r: seq<Event>)
    ensures |r| == |s|
  {
    if s == [] then [] else [if s[0].name.ZpcHb? then s[0].(name := ZpcMore) else s[0]] + BeatsAsGrants(s[1..])
  }

  lemma {:induction false} UpwardOfKnown(v2: bool, s: seq<Event>)
    ensures Upward(Some(v2), s) == if v2 then BeatsAsGrants(s) else WithoutBeats(s)
    decreases |s|
  {
    if s != [] {
      UpwardOfKnown(v2, s[1..]);
    }
  }

  /** The first arrival fixes the generation of the whole conversation: a protocol-3 peer's
      events come up without the heartbeats, a protocol-2 peer's come up all, with its
      heartbeats renamed to grants. */
  lemma FirstEventFixesGeneration(s: seq<Event>)
    requires s != []
    ensures Upward(None, s) == if s[0].v.None? || s[0].v.value < 3 then BeatsAsGrants(s) else WithoutBeats(s)
  {
    UpwardOfKnown(VersionOf(s[0]) < 3, s);
  }

  /** No heartbeat ever gets past this layer, whatever arrives. */
  lemma {:induction false} NoBeatGetsThrough(compat: Option<bool>, s: seq<Event>)
    ensures forall e :: e in Upward(compat, s) ==> !e.name.ZpcHb?
    decreases |s|
  {
    if s != [] {
      NoBeatGetsThrough(Some(Generation(compat, s[0])), s[1..]);
    }
  }

  /** A grant that leaves for a protocol-2 peer and is read by one comes out as it was, and
      so does every event that is not a heartbeat; so does one between protocol-3 peers. */
  lemma RenamingRoundTrip(v2: bool, e: Event)
    requires !e.name.ZpcHb?
    ensures Inbound(v2, e.(name := Outbound(Some(v2), e.name))) == Some(e)
  {
  }

  function DeliverAll(b: Buffer, s: seq<Event>): Buffer
    decreases |s|
  {
    if s == [] then b else DeliverAll(Deliver(b, s[0]), s[1..])
  }

  predicate LivenessBeat(e: Event) {
    e.name.ZpcHb? && (e.args.Num? ==> e.args.amount == 0)
  }

  function WithoutLiveness(s: seq<Event>): seq<Event> {
    if s == [] then [] else (if LivenessBeat(s[0]) then [] else [s[0]]) + WithoutLiveness(s[1..])
  }

  /** Equal but for the flag `_remote_can_recv`, and that flag set only with slots open. */
  ghost predicate SameButFlag(b: Buffer, b': Buffer) {
    && b' == b.(canRecv := b'.canRecv)
    && (b.canRecv ==> b'.canRecv)
    && (b'.canRecv ==> b.canRecv || b.slots > 0)
  }

  lemma DeliverKeepsSame(b: Buffer, b': Buffer, e: Event)
    requires SameButFlag(b, b') && (e.name.ZpcMore? ==> CreditOf(e) >= 0)
    ensures SameButFlag(Deliver(b, e), Deliver(b', e))
  {
  }

  lemma BeatKeepsSame(b: Buffer, b': Buffer, e: Event)
    requires SameButFlag(b, b') && e.name.ZpcMore? && CreditOf(e) == 0
    ensures SameButFlag(b, Deliver(b', e))
  {
  }

  /** Liveness beats of a protocol-2 peer, which come up as grants of 0, change nothing in
      the buffer: the same slots and the same queue as if they had not come.  Only the flag
      may be set, and only when there are slots. */
  lemma {:induction false} LivenessBeatsAreNeutral(b: Buffer, b': Buffer, s: seq<Event>)
    requires SameButFlag(b, b')
    requires forall e :: e in s && IsControl(e) && e.args.Num? ==> e.args.amount >= 0
    ensures SameButFlag(DeliverAll(b, BeatsAsGrants(WithoutLiveness(s))), DeliverAll(b', BeatsAsGrants(s)))
    decreases |s|
  {
    if s != [] {
      var e := s[0];
      assert e in s;
      var up := if e.name.ZpcHb? then e.(name := ZpcMore) else e;
      assert forall f :: f in s[1..] ==> f in s;
      if LivenessBeat(e) {
        BeatKeepsSame(b, b', up);
        assert WithoutLiveness(s) == WithoutLiveness(s[1..]);
        assert BeatsAsGrants(s) == [up] + BeatsAsGrants(s[1..]);
        LivenessBeatsAreNeutral(b, Deliver(b', up), s[1..]);
      } else {
        DeliverKeepsSame(b, b', up);
        assert WithoutLiveness(s)[1..] == WithoutLiveness(s[1..]);
        LivenessBeatsAreNeutral(Deliver(b, up), Deliver(b', up), s[1..]);
      }
    }
  }
}
