/** Two peers that are both alive, in real time.  Each runs `HeartBeatOnChannel` at the same
    frequency, with exact sleeps; a heartbeat takes at most `delay` to arrive, and each link
    is FIFO. */
module Liveness {
  import opened Protocol
  import opened Heartbeat

  datatype Peer = Peer(
    beat: Beat,
    first: real,      // its first wake-up: freq after it started
    next: real)       // its next wake-up

  /** `ab` and `ba` are the heartbeats on the way, by the time they were sent. */
  datatype Pair = Pair(now: real, a: Peer, b: Peer, ab: seq<real>, ba: seq<real>)

  datatype Label = Pass(until: real) | Wake(left: bool) | Hear(left: bool)

  const BEAT := Event(ZpcHb, Num(0), "", None, Some(3))

  function Begin(freq: real, firstA: real, firstB: real): Pair {
    var p := Created(Some(freq), false);
    Pair(0.0, Peer(p, firstA, firstA), Peer(p, firstB, firstB), [], [])
  }

  function Flip(s: Pair): Pair {
    Pair(s.now, s.b, s.a, s.ba, s.ab)
  }

  /** Time does not pass a wake-up, nor the arrival of a heartbeat. */
  predicate MayPass(s: Pair, delay: real, until: real) {
    && s.now <= until
    && (Awake(s.a.beat) ==> until <= s.a.next)
    && (Awake(s.b.beat) ==> until <= s.b.next)
    && (s.ab != [] ==> until <= s.ab[0] + delay)
    && (s.ba != [] ==> until <= s.ba[0] + delay)
  }

  predicate MayWake(s: Pair) {
    Awake(s.a.beat) && s.now == s.a.next
  }

  /** Peer `a` wakes up, and unless it declares the other lost, emits a heartbeat. */
  function WakeUp(s: Pair): Pair
    requires Awake(s.a.beat)
  {
    var beat := Tick(s.a.beat, s.now);
    s.(a := s.a.(beat := beat, next := s.now + beat.freq.value),
       ab := if Beats(s.a.beat, s.now) then s.ab + [s.now] else s.ab)
  }

  /** Peer `a` hears a heartbeat; one that was passive starts its own, and sleeps first. */
  function HearOne(s: Pair): Pair
    requires s.ba != []
  {
    var beat := Arrive(s.a.beat, BEAT, s.now);
    var p := s.a.(beat := beat);
    s.(a := if Awake(beat) && !Awake(s.a.beat)
            then p.(first := s.now + beat.freq.value, next := s.now + beat.freq.value) else p,
       ba := s.ba[1..])
  }

  predicate Allowed(s: Pair, delay: real, l: Label) {
    match l
    case Pass(until) => MayPass(s, delay, until)
    case Wake(left) => MayWake(if left then s else Flip(s))
    case Hear(left) => (if left then s.ba else s.ab) != []
  }

  function Next(s: Pair, delay: real, l: Label): Pair
    requires Allowed(s, delay, l)
  {
    match l
    case Pass(until) => s.(now := until)
    case Wake(left) => if left then WakeUp(s) else Flip(WakeUp(Flip(s)))
    case Hear(left) => if left then HearOne(s) else Flip(HearOne(Flip(s)))
  }

  ghost predicate Run(s: Pair, delay: real, run: seq<Label>, s': Pair)
    decreases |run|
  {
    if run == [] then s == s'
    else Allowed(s, delay, run[0]) && Run(Next(s, delay, run[0]), delay, run[1..], s')
  }

  // ---- no false loss --------------------------------------------------------------------------

  /** The heartbeats on a link, from `first` on, are `freq` apart, and the last one is the
      sender's last. */
  ghost predicate Regular(link: seq<real>, freq: real, last: real) {
    && (link != [] ==> link[|link| - 1] == last)
    && forall i {:trigger link[i]} :: 0 < i < |link| ==> link[i] == link[i - 1] + freq
  }

  /** What the receiver `b` knows of the sender `a`. */
  ghost predicate Heard(now: real, a: Peer, link: seq<real>, b: Peer, freq: real, delay: real) {
    && Regular(link, freq, a.next - freq)
    && (link != [] ==> a.first <= link[0] && now <= link[0] + delay && a.next > a.first)
    && (forall i {:trigger link[i]} :: 0 <= i < |link| ==> link[i] <= now)
    && (b.beat.last.Some? ==> b.beat.last.value >= (if a.first <= b.first then a.first else b.first))
    && (a.next > a.first && link == [] ==> b.beat.last.Some? && b.beat.last.value >= a.next - freq)
    && (link != [] && link[0] > a.first ==> b.beat.last.Some? && b.beat.last.value >= link[0] - freq)
  }

  ghost predicate Alive(p: Peer, now: real, freq: real) {
    p.beat.freq == Some(freq) && p.beat.task.Running? && !p.beat.lost && p.first <= p.next && now <= p.next
  }

  ghost predicate Inv(s: Pair, freq: real, delay: real) {
    && freq > 0.0 && 0.0 <= delay <= freq
    && -freq <= s.a.first - s.b.first <= freq
    && Alive(s.a, s.now, freq) && Alive(s.b, s.now, freq)
    && Heard(s.now, s.a, s.ab, s.b, freq, delay)
    && Heard(s.now, s.b, s.ba, s.a, freq, delay)
  }

  /** A wake-up never finds the other peer's last heartbeat more than 2 freq old. */
  lemma NotLostAtWake(s: Pair, freq: real, delay: real)
    requires Inv(s, freq, delay) && MayWake(s)
    ensures Beats(s.a.beat, s.now)
  {
  }

  lemma WakeKeeps(s: Pair, freq: real, delay: real)
    requires Inv(s, freq, delay) && MayWake(s)
    ensures Inv(WakeUp(s), freq, delay)
  {
    NotLostAtWake(s, freq, delay);
    var s' := WakeUp(s);
    assert s'.ab == s.ab + [s.now];
    assert Regular(s'.ab, freq, s'.a.next - freq);
  }

  lemma RegularTail(link: seq<real>, freq: real, last: real)
    requires Regular(link, freq, last) && link != []
    ensures Regular(link[1..], freq, last)
    ensures |link| > 1 ==> link[1..][0] == link[0] + freq
    ensures |link| == 1 ==> link[0] == last
  {
    var rest := link[1..];
    assert forall i {:trigger rest[i]} :: 0 <= i < |rest| ==> rest[i] == link[i + 1];
  }

  lemma HeardOne(now: real, a: Peer, link: seq<real>, b: Peer, b': Peer, freq: real, delay: real)
    requires Heard(now, a, link, b, freq, delay) && link != [] && 0.0 <= delay <= freq
    requires Alive(a, now, freq) && b.first == b'.first
    requires b'.beat.last == Some(now)
    ensures Heard(now, a, link[1..], b', freq, delay)
  {
    var rest := link[1..];
    RegularTail(link, freq, a.next - freq);
    assert forall i {:trigger rest[i]} :: 0 <= i < |rest| ==> rest[i] == link[i + 1];
  }

  lemma HearKeeps(s: Pair, freq: real, delay: real)
    requires Inv(s, freq, delay) && s.ba != []
    ensures Inv(HearOne(s), freq, delay)
  {
    HeardOne(s.now, s.b, s.ba, s.a, HearOne(s).a, freq, delay);
  }

  lemma NextKeeps(s: Pair, freq: real, delay: real, l: Label)
    requires Inv(s, freq, delay) && Allowed(s, delay, l)
    ensures Inv(Next(s, delay, l), freq, delay)
  {
    match l
    case Pass(_) =>
    case Wake(left) => WakeKeeps(if left then s else Flip(s), freq, delay);
    case Hear(left) => HearKeeps(if left then s else Flip(s), freq, delay);
  }

  lemma {:induction false} RunKeeps(s: Pair, freq: real, delay: real, run: seq<Label>, s': Pair)
    requires Inv(s, freq, delay) && Run(s, delay, run, s')
    ensures Inv(s', freq, delay)
    decreases |run|
  {
    if run != [] {
      NextKeeps(s, freq, delay, run[0]);
      RunKeeps(Next(s, delay, run[0]), freq, delay, run[1..], s');
    }
  }

  /** No schedule of two live peers, started at most `freq` apart, declares a loss. */
  ghost predicate Safe(freq: real, delay: real) {
    forall firstA, firstB, run, s
      | freq <= firstA && freq <= firstB && -freq <= firstA - firstB <= freq
        && Run(Begin(freq, firstA, firstB), delay, run, s)
      :: !s.a.beat.lost && !s.b.beat.lost
  }

  lemma SafeIfPrompt(freq: real, delay: real)
    requires freq > 0.0 && 0.0 <= delay <= freq
    ensures Safe(freq, delay)
  {
    forall firstA, firstB, run, s
      | freq <= firstA && freq <= firstB && -freq <= firstA - firstB <= freq
        && Run(Begin(freq, firstA, firstB), delay, run, s)
      ensures !s.a.beat.lost && !s.b.beat.lost
    {
      RunKeeps(Begin(freq, firstA, firstB), freq, delay, run, s);
    }
  }

  // ---- a false loss when heartbeats can be later than freq -----------------------------------------

  lemma Then(s0: Pair, delay: real, run: seq<Label>, s: Pair, l: Label) returns (run': seq<Label>, s': Pair)
    requires Run(s0, delay, run, s) && Allowed(s, delay, l)
    ensures s' == Next(s, delay, l) && Run(s0, delay, run', s')
  {
    RunSnoc(s0, delay, run, s, l);
    run', s' := run + [l], Next(s, delay, l);
  }

  lemma {:induction false} RunSnoc(s0: Pair, delay: real, run: seq<Label>, s: Pair, l: Label)
    requires Run(s0, delay, run, s) && Allowed(s, delay, l)
    ensures Run(s0, delay, run + [l], Next(s, delay, l))
    decreases |run|
  {
    if run == [] {
      assert Run(Next(s, delay, l), delay, [], Next(s, delay, l));
      assert ([] + [l])[1..] == [];
    } else {
      RunSnoc(Next(s0, delay, run[0]), delay, run[1..], s, l);
      assert (run + [l])[1..] == run[1..] + [l];
    }
  }

  /** `a` beats at freq and is heard at once; `b` wakes up a little later. */
  lemma FirstBeats(freq: real, delay: real, lag: real) returns (run: seq<Label>, s: Pair)
    requires freq > 0.0 && 0.0 < lag <= freq / 2.0 && freq + lag <= delay
    ensures Run(Begin(freq, freq, freq + lag), delay, run, s)
    ensures s.now == freq + lag && s.a.next == freq * 2.0 && s.b.next == freq * 2.0 + lag
    ensures s.ab == [] && s.ba == []
    ensures s.a.beat.task.Running? && s.a.beat.freq == Some(freq)
    ensures s.b.beat.task.Running? && s.b.beat.freq == Some(freq)
    ensures s.a.beat.last == Some(freq + lag) && s.b.beat.last == Some(freq)
  {
    var s0 := Begin(freq, freq, freq + lag);
    run, s := [], s0;
    run, s := Then(s0, delay, run, s, Pass(freq));
    run, s := Then(s0, delay, run, s, Wake(true));
    run, s := Then(s0, delay, run, s, Hear(false));
    assert s.ab == [] && s.b.beat.last == Some(freq);
    run, s := Then(s0, delay, run, s, Pass(freq + lag));
    run, s := Then(s0, delay, run, s, Wake(false));
    run, s := Then(s0, delay, run, s, Hear(true));
  }

  /** The beat of `a` at 2 freq is held up; `b` has woken up again. */
  lemma HeldUpBeat(freq: real, delay: real, lag: real) returns (run: seq<Label>, s: Pair)
    requires freq > 0.0 && 0.0 < lag <= freq / 2.0 && freq + lag <= delay
    ensures Run(Begin(freq, freq, freq + lag), delay, run, s)
    ensures s.now == freq * 2.0 + lag && s.a.next == freq * 3.0 && s.b.next == freq * 3.0 + lag
    ensures s.ab == [freq * 2.0] && s.ba == []
    ensures s.a.beat.task.Running? && s.a.beat.freq == Some(freq)
    ensures s.b.beat.task.Running? && s.b.beat.freq == Some(freq)
    ensures s.a.beat.last == Some(freq * 2.0 + lag) && s.b.beat.last == Some(freq)
  {
    var s0 := Begin(freq, freq, freq + lag);
    run, s := FirstBeats(freq, delay, lag);
    run, s := Then(s0, delay, run, s, Pass(freq * 2.0));
    run, s := Then(s0, delay, run, s, Wake(true));
    assert s.ab == [freq * 2.0];
    run, s := Then(s0, delay, run, s, Pass(freq * 2.0 + lag));
    run, s := Then(s0, delay, run, s, Wake(false));
    run, s := Then(s0, delay, run, s, Hear(true));
  }

  lemma LateBeatLosesPeer(freq: real, delay: real)
    requires freq > 0.0 && delay > freq
    ensures !Safe(freq, delay)
  {
    var lag := if delay - freq < freq then (delay - freq) / 2.0 else freq / 2.0;
    var s0 := Begin(freq, freq, freq + lag);
    var run, s := HeldUpBeat(freq, delay, lag);
    run, s := Then(s0, delay, run, s, Pass(freq * 3.0));
    run, s := Then(s0, delay, run, s, Wake(true));
    assert s.ab[0] == freq * 2.0;
    run, s := Then(s0, delay, run, s, Pass(freq * 3.0 + lag));
    run, s := Then(s0, delay, run, s, Wake(false));
    assert s.b.beat.lost;
  }

  /** Two live peers never lose each other, whatever the schedule and whichever of them
      started first by up to `freq`, exactly when heartbeats take no longer than `freq`. */
  lemma NoFalseLossIffPrompt(freq: real, delay: real)
    requires freq > 0.0 && delay >= 0.0
    ensures Safe(freq, delay) <==> delay <= freq
  {
    if delay <= freq { SafeIfPrompt(freq, delay); } else { LateBeatLosesPeer(freq, delay); }
  }
}
