/** `HeartBeatOnChannel` as a value: the liveness clock, and the renaming that keeps
    protocol 2 (one event, `_zpc_hb`, for heartbeats and grants) apart from protocol 3. */
module Heartbeat {
  import opened Protocol
  import opened Buffering

  /** `_heartbeat_task`: None, a greenlet that runs, or one that has ended. */
  datatype Greenlet = NoTask | Running | Ended

  datatype Beat = Beat(
    freq: Option<real>,       // _heartbeat_freq; None turns heartbeats off
    last: Option<real>,       // _remote_last_hb
    lost: bool,               // _lost_remote
    task: Greenlet,           // _heartbeat_task
    compat: Option<bool>,     // _compat_v2
    closed: bool)             // _closed

  function Created(freq: Option<real>, passive: bool): Beat {
    Beat(freq, None, false, if passive || freq.None? then NoTask else Running, None, false)
  }

  /** `_start_heartbeat`: an ended greenlet is not started again. */
  function Started(b: Beat): Beat {
    b.(task := if b.task.NoTask? && b.freq.Some? && !b.closed then Running else b.task)
  }

  /** Can `_heartbeat` take a turn? */
  predicate Awake(b: Beat) {
    b.task.Running? && b.freq.Some?
  }

  // ---- renaming ---------------------------------------------------------------

  function VersionOf(e: Event): int {
    if e.v.Some? then e.v.value else 0
  }

  /** `_compat_v2` after an event: the first event decides. */
  function Generation(compat: Option<bool>, e: Event): bool {
    if compat.Some? then compat.value else VersionOf(e) < 3
  }

  /** What `_recver` passes up, for a known generation. */
  function Inbound(v2: bool, e: Event): Option<Event> {
    if !e.name.ZpcHb? then Some(e)
    else if v2 then Some(e.(name := ZpcMore))
    else None
  }

  /** The name `new_event` gives. */
  function Outbound(compat: Option<bool>, name: Name): Name {
    if compat == Some(true) && name.ZpcMore? then ZpcHb else name
  }

  // ---- the clock --------------------------------------------------------------

  /** One turn of `_heartbeat`, after its sleep, at time `now`. */
  function Tick(b: Beat, now: real): Beat
    requires Awake(b)
  {
    var last := if b.last.Some? then b.last.value else now;
    if now > last + b.freq.value * 2.0 then b.(last := Some(last), lost := true, task := Ended)
    else b.(last := Some(last))
  }

  /** Does this turn emit a heartbeat? */
  predicate Beats(b: Beat, now: real)
    requires Awake(b)
  {
    Tick(b, now).task.Running?
  }

  /** One turn of `_recver`: the generation is fixed, and a heartbeat is noted and starts
      the `_heartbeat` greenlet if there never was one. */
  function Arrive(b: Beat, e: Event, now: real): Beat {
    var b' := b.(compat := Some(Generation(b.compat, e)));
    if e.name.ZpcHb? then Started(b'.(last := Some(now))) else b'
  }

  /** What the same turn passes up. */
  function PassedUp(b: Beat, e: Event): Option<Event> {
    Inbound(Generation(b.compat, e), e)
  }
}
