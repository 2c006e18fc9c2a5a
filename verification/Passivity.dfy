/** Two live peers in real time, of which one is passive: it starts its heartbeats only when
    it first hears the other's. */
module Passivity {
  import opened Protocol
  import opened Heartbeat
  import opened Liveness

  /** `a` is active, and wakes up first at `firstA`; `b` is passive. */
  function BeginPassive(freq: real, firstA: real): Pair {
    Pair(0.0, Peer(Created(Some(freq), false), firstA, firstA), Peer(Created(Some(freq), true), 0.0, 0.0), [], [])
  }

  // ---- what every step keeps ---------------------------------------------------------------

  /** `b` has heard nothing: the first heartbeat was not sent, or is on its way. */
  ghost predicate Silent(s: Pair, freq: real, delay: real) {
    && s.b.beat == Created(Some(freq), true) && s.ba == []
    && (|| (s.a.next == s.a.first && s.ab == [] && s.a.beat.last.None?)
        || (s.a.next == s.a.first + freq && s.ab == [s.a.first] && s.a.beat.last == Some(s.a.first)
            && s.a.first <= s.now <= s.a.first + delay))
  }

  /** `a` has heard nothing of `b` yet. */
  predicate Unheard(s: Pair) {
    s.b.next == s.b.first || (s.ba != [] && s.ba[0] == s.b.first)
  }

  /** Until `a` hears, its clock stands at its own first wake-up, and it has woken up twice
      since at most. */
  ghost predicate Both(s: Pair, freq: real, delay: real) {
    && Alive(s.b, s.now, freq)
    && Heard(s.now, s.a, s.ab, s.b, freq, delay) && Heard(s.now, s.b, s.ba, s.a, freq, delay)
    && s.a.next > s.a.first && (s.ab != [] ==> s.ab[0] > s.a.first)
    && s.a.first + freq <= s.b.first <= s.a.first + freq + delay
    && s.a.beat.last.Some? && s.b.beat.last.Some?
    && (Unheard(s) ==>
         && s.a.beat.last == Some(s.a.first)
         && (s.a.next == s.a.first + freq || s.a.next == s.a.first + freq * 2.0 || s.a.next == s.a.first + freq * 3.0))
  }

  ghost predicate PassiveInv(s: Pair, freq: real, delay: real) {
    && 0.0 <= delay < freq && Alive(s.a, s.now, freq)
    && if s.b.beat.task.NoTask? then Silent(s, freq, delay) else Both(s, freq, delay)
  }

  /** A sender that wakes up keeps what is known of it. */
  lemma HeardAfterWake(a: Peer, link: seq<real>, b: Peer, freq: real, delay: real)
    requires freq > 0.0 && delay >= 0.0 && Heard(a.next, a, link, b, freq, delay) && a.first <= a.next
    ensures Heard(a.next, a.(next := a.next + freq), link + [a.next], b, freq, delay)
  {
    var link' := link + [a.next];
    assert forall i {:trigger link'[i]} :: 0 <= i < |link| ==> link'[i] == link[i];
    assert Regular(link', freq, a.next);
  }

  lemma ActiveWakes(s: Pair, freq: real, delay: real)
    requires PassiveInv(s, freq, delay) && MayWake(s)
    ensures Beats(s.a.beat, s.now) && PassiveInv(WakeUp(s), freq, delay)
  {
    if Both(s, freq, delay) && !s.b.beat.task.NoTask? {
      HeardAfterWake(s.a, s.ab, s.b, freq, delay);
    } else {
      assert s.ab + [s.now] == [s.now];
    }
  }

  lemma PassiveIsNotLost(s: Pair, freq: real, delay: real)
    requires PassiveInv(s, freq, delay) && MayWake(Flip(s))
    ensures Both(s, freq, delay) && Beats(s.b.beat, s.now) && Tick(s.b.beat, s.now) == s.b.beat
  {
  }

  lemma PassiveWakes(s: Pair, freq: real, delay: real)
    requires PassiveInv(s, freq, delay) && MayWake(Flip(s))
    ensures Beats(s.b.beat, s.now) && PassiveInv(Flip(WakeUp(Flip(s))), freq, delay)
  {
    PassiveIsNotLost(s, freq, delay);
    WakeIsABeat(s, freq);
    BothAfterBeat(s, freq, delay);
  }

  lemma WakeIsABeat(s: Pair, freq: real)
    requires MayWake(Flip(s)) && s.b.beat.freq == Some(freq) && Tick(s.b.beat, s.now) == s.b.beat
    ensures Flip(WakeUp(Flip(s))) == s.(b := s.b.(next := s.now + freq), ba := s.ba + [s.now])
  {
  }

  lemma BothAfterBeat(s: Pair, freq: real, delay: real)
    requires 0.0 <= delay < freq && Both(s, freq, delay) && s.now == s.b.next
    ensures Both(s.(b := s.b.(next := s.now + freq), ba := s.ba + [s.now]), freq, delay)
  {
    var s' := s.(b := s.b.(next := s.now + freq), ba := s.ba + [s.now]);
    HeardAfterWake(s.b, s.ba, s.a, freq, delay);
    HeardBySame(s.now, s.a, s.ab, s.b, s'.b, freq, delay);
    UnheardBefore(s, freq, delay);
  }

  /** What is known of a sender only depends on when the receiver started and last heard. */
  lemma HeardBySame(now: real, a: Peer, link: seq<real>, b: Peer, b': Peer, freq: real, delay: real)
    requires Heard(now, a, link, b, freq, delay) && b'.first == b.first && b'.beat.last == b.beat.last
    ensures Heard(now, a, link, b', freq, delay)
  {
  }

  lemma UnheardBefore(s: Pair, freq: real, delay: real)
    requires freq > 0.0 && s.now == s.b.next && Heard(s.now, s.b, s.ba, s.a, freq, delay) && s.b.first <= s.b.next
    ensures Unheard(s.(b := s.b.(next := s.now + freq), ba := s.ba + [s.now])) ==> Unheard(s)
  {
    if s.ba != [] {
      assert (s.ba + [s.now])[0] == s.ba[0];
    }
  }

  lemma ActiveHears(s: Pair, freq: real, delay: real)
    requires PassiveInv(s, freq, delay) && s.ba != []
    ensures PassiveInv(HearOne(s), freq, delay)
  {
    HeardOne(s.now, s.b, s.ba, s.a, HearOne(s).a, freq, delay);
    RegularTail(s.ba, freq, s.b.next - freq);
  }

  lemma PassiveHears(s: Pair, freq: real, delay: real)
    requires PassiveInv(s, freq, delay) && s.ab != [] && !s.b.beat.task.NoTask?
    ensures PassiveInv(Flip(HearOne(Flip(s))), freq, delay)
  {
    HeardOne(s.now, s.a, s.ab, s.b, HearOne(Flip(s)).a, freq, delay);
    RegularTail(s.ab, freq, s.a.next - freq);
  }

  lemma PassiveStarts(s: Pair, freq: real, delay: real)
    requires PassiveInv(s, freq, delay) && s.ab != [] && s.b.beat.task.NoTask?
    ensures PassiveInv(Flip(HearOne(Flip(s))), freq, delay)
  {
    assert s.ab[1..] == [];
  }

  lemma PassiveNextKeeps(s: Pair, freq: real, delay: real, l: Label)
    requires PassiveInv(s, freq, delay) && Allowed(s, delay, l)
    ensures PassiveInv(Next(s, delay, l), freq, delay)
  {
    match l
    case Pass(_) =>
    case Wake(left) => if left { ActiveWakes(s, freq, delay); } else { PassiveWakes(s, freq, delay); }
    case Hear(left) =>
      if left { ActiveHears(s, freq, delay); }
      else if s.b.beat.task.NoTask? { PassiveStarts(s, freq, delay); }
      else { PassiveHears(s, freq, delay); }
  }

  lemma {:induction false} PassiveRunKeeps(s: Pair, freq: real, delay: real, run: seq<Label>, s': Pair)
    requires PassiveInv(s, freq, delay) && Run(s, delay, run, s')
    ensures PassiveInv(s', freq, delay)
    decreases |run|
  {
    if run != [] {
      PassiveNextKeeps(s, freq, delay, run[0]);
      PassiveRunKeeps(Next(s, delay, run[0]), freq, delay, run[1..], s');
    }
  }

  // ---- no false loss, exactly ------------------------------------------------------------------

  ghost predicate PassiveSafe(freq: real, delay: real) {
    forall firstA, run, s | freq <= firstA && Run(BeginPassive(freq, firstA), delay, run, s)
      :: !s.a.beat.lost && !s.b.beat.lost
  }

  lemma PassiveSafeIfPrompt(freq: real, delay: real)
    requires 0.0 <= delay < freq
    ensures PassiveSafe(freq, delay)
  {
    forall firstA, run, s | freq <= firstA && Run(BeginPassive(freq, firstA), delay, run, s)
      ensures !s.a.beat.lost && !s.b.beat.lost
    {
      PassiveRunKeeps(BeginPassive(freq, firstA), freq, delay, run, s);
    }
  }

  /** The first heartbeat of `a` takes `freq` to arrive, and so does the answer. */
  lemma FirstIsHeard(freq: real, delay: real) returns (run: seq<Label>, s: Pair)
    requires freq > 0.0 && delay >= freq
    ensures Run(BeginPassive(freq, freq), delay, run, s)
    ensures s.now == freq * 2.0 && s.ab == [freq * 2.0] && s.ba == []
    ensures s.a.beat.task.Running? && s.a.beat.freq == Some(freq) && s.a.beat.last == Some(freq)
    ensures s.b.beat.task.Running? && s.b.beat.freq == Some(freq) && s.b.beat.last == Some(freq * 2.0)
    ensures s.a.next == freq * 3.0 && s.b.next == freq * 3.0
  {
    var s0 := BeginPassive(freq, freq);
    run, s := [], s0;
    run, s := Then(s0, delay, run, s, Pass(freq));
    run, s := Then(s0, delay, run, s, Wake(true));
    assert s.ab == [freq];
    run, s := Then(s0, delay, run, s, Pass(freq * 2.0));
    run, s := Then(s0, delay, run, s, Hear(false));
    run, s := Then(s0, delay, run, s, Wake(true));
    assert s.ab == [freq * 2.0];
  }

  lemma AnswerIsOnItsWay(freq: real, delay: real) returns (run: seq<Label>, s: Pair)
    requires freq > 0.0 && delay >= freq
    ensures Run(BeginPassive(freq, freq), delay, run, s)
    ensures s.now == freq * 3.0 && s.ab == [freq * 3.0] && s.ba == [freq * 3.0]
    ensures s.a.beat.task.Running? && s.a.beat.freq == Some(freq) && s.a.beat.last == Some(freq)
    ensures s.a.next == freq * 4.0 && s.b.next == freq * 4.0
  {
    var s0 := BeginPassive(freq, freq);
    run, s := FirstIsHeard(freq, delay);
    run, s := Then(s0, delay, run, s, Pass(freq * 3.0));
    run, s := Then(s0, delay, run, s, Hear(false));
    run, s := Then(s0, delay, run, s, Wake(true));
    run, s := Then(s0, delay, run, s, Wake(false));
    assert s.ab == [freq * 3.0] && s.ba == [freq * 3.0];
  }

  lemma SlowAnswerLosesPeer(freq: real, delay: real)
    requires freq > 0.0 && delay >= freq
    ensures !PassiveSafe(freq, delay)
  {
    var s0 := BeginPassive(freq, freq);
    var run, s := AnswerIsOnItsWay(freq, delay);
    run, s := Then(s0, delay, run, s, Pass(freq * 4.0));
    run, s := Then(s0, delay, run, s, Wake(true));
    assert s.a.beat.lost;
  }

  /** A live pair of which one peer is passive never declares a loss, whatever the schedule,
      exactly if heartbeats take less than `freq`.  One that takes `freq` is still early
      enough between two active peers; here the answer to the first comes a round trip and a
      sleep after it. */
  lemma NoFalseLossIffQuick(freq: real, delay: real)
    requires freq > 0.0 && delay >= 0.0
    ensures PassiveSafe(freq, delay) <==> delay < freq
  {
    if delay < freq { PassiveSafeIfPrompt(freq, delay); } else { SlowAnswerLosesPeer(freq, delay); }
  }
}
