/** One `BufferedChannel` as a value, and each of its atomic steps as a function.
    A step ends where the source can yield to another greenlet: inside
    `_remote_can_recv.wait`, inside `_input_queue.get`, and in `_channel.recv`. */
module Buffering {
  import opened Protocol

  datatype Buffer = Buffer(
    size: int,                          // _input_queue_size
    slots: int,                         // _remote_queue_open_slots
    reserved: int,                      // _input_queue_reserved
    canRecv: bool,                      // _remote_can_recv.is_set()
    queue: seq<Event>,                  // _input_queue
    verbose: bool,                      // _verbose
    onCloseIf: Option<Event -> bool>,   // _on_close_if
    open: bool,                         // _channel is not None
    alive: bool)                        // the _recver greenlet runs

  /** The default of `inqueue_size`, which servers always use; a client may choose its own. */
  const SERVER_QUEUE := 100

  function Fresh(size: int): Buffer {
    Buffer(size, 1, 1, false, [], false, None, true, true)
  }

  function Closed(b: Buffer): Buffer {
    b.(open := false, alive := false)
  }

  /** `int(event.args[0])`, or 0 where that raises (the error is logged and swallowed). */
  function CreditOf(e: Event): int {
    if e.args.Num? then e.args.amount else 0
  }

  predicate Overflows(b: Buffer, e: Event) {
    !e.name.ZpcMore? && |b.queue| == b.size
  }

  predicate ClosesOn(b: Buffer, e: Event) {
    b.onCloseIf.Some? && b.onCloseIf.value(e)
  }

  function Queued(b: Buffer, e: Event): Buffer {
    b.(queue := b.queue + [e])
  }

  function Credited(b: Buffer, e: Event): Buffer {
    var slots := b.slots + CreditOf(e);
    b.(slots := slots, canRecv := b.canRecv || slots > 0)
  }

  /** One turn of the loop in `_recver`.  An overflow raises, which ends the greenlet. */
  function Deliver(b: Buffer, e: Event): Buffer {
    if e.name.ZpcMore? then Credited(b, e)
    else if Overflows(b, e) then b.(alive := false)
    else if ClosesOn(b, e) then Closed(Queued(b, e))
    else Queued(b, e)
  }

  /** The gate of `emit_event` when no slot is open: the flag is cleared before waiting. */
  function Blocked(b: Buffer): Buffer {
    b.(canRecv := false)
  }

  /** The rest of `emit_event`: one slot is taken, and put back if the layer below raises. */
  function Emitted(b: Buffer, sent: bool): Buffer {
    if sent then b.(slots := b.slots - 1) else b
  }

  /** Does entering `recv` send a grant? */
  predicate Grants(b: Buffer) {
    b.verbose && b.open && b.reserved < b.size / 2
  }

  /** The credit `_request_data` asks for. */
  function GrantSize(b: Buffer): int {
    b.size - b.reserved
  }

  /** `recv` up to the point where it waits on the input queue. */
  function Entered(b: Buffer): Buffer {
    if Grants(b) then b.(reserved := b.reserved + GrantSize(b))
    else if b.verbose && b.open then b
    else b.(verbose := true)
  }

  /** `recv` from the point where the input queue has an event. */
  function Taken(b: Buffer): Buffer
    requires b.queue != []
  {
    b.(queue := b.queue[1..], reserved := b.reserved - 1)
  }
}
