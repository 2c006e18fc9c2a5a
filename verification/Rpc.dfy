/** The RPC patterns: what a server task sends for one request, and what a client
    makes of the events it receives. */
module Rpc {
  import opened Protocol

  // ---- the server ----------------------------------------------------------------

  /** `except LostRemote`, `except Exception`, or neither (GreenletExit, Timeout).  The
      parts of a plain exception are what `_print_traceback` makes of it. */
  datatype Exc = LostRemote | Plain(parts: seq<string>) | Fatal

  /** The method a request names, with what calling it does. */
  datatype Functor =
    | Rep(value: Payload, raises: Option<Exc>)
    | Stream(onCall: Option<Exc>, items: seq<Payload>, atEnd: Option<Exc>)

  /** One request as the server sees it.  A hook raises or does not; `emitRaises(i)` and
      `header(i)` are the fate and the ids of the i-th event handed to the channel. */
  datatype Task = Task(
    load: Option<Exc>,            // hook_load_task_context
    functor: Option<Functor>,     // self._methods.get(event.name)
    nameError: seq<string>,
    before: Option<Exc>,          // hook_server_before_exec
    context: Option<Exc>,         // hook_get_task_context
    after: Option<Exc>,           // hook_server_after_exec
    errContext: Option<Exc>,      // hook_get_task_context, for the ERR event
    inspect: Option<Exc>,         // hook_server_inspect_exception
    emitRaises: nat -> Option<Exc>,
    header: nat -> Event)

  /** An event handed to the channel, and what emitting it raised. */
  datatype Try = Try(event: Event, raised: Option<Exc>)

  /** What a task has done so far: the events sent, all it tried to send, and the exception
      on its way out. */
  datatype Progress = Progress(sent: seq<Event>, tries: seq<Try>, raised: Option<Exc>)

  function Reply(task: Task, i: nat, name: Name, args: Args): Event {
    task.header(i).(name := name, args := args)
  }

  function Raise(p: Progress, x: Option<Exc>): Progress {
    if p.raised.Some? then p else p.(raised := x)
  }

  function Emit(task: Task, p: Progress, name: Name, args: Args): Progress {
    if p.raised.Some? then p else
    var i := |p.tries|;
    var e, x := Reply(task, i, name, args), task.emitRaises(i);
    Progress(if x.None? then p.sent + [e] else p.sent, p.tries + [Try(e, x)], x)
  }

  function EmitItems(task: Task, p: Progress, items: seq<Payload>): Progress
    decreases |items|
  {
    if items == [] then p else EmitItems(task, Emit(task, p, STREAM, Val(items[0])), items[1..])
  }

  /** `ReqRep.process_call` */
  function CallRep(task: Task, f: Functor, p: Progress): Progress
    requires f.Rep?
  {
    var p := Raise(Raise(Raise(Raise(p, task.before), f.raises), task.context), task.after);
    Emit(task, p, OK, Val(f.value))
  }

  /** `ReqStream.process_call` */
  function CallStream(task: Task, f: Functor, p: Progress): Progress
    requires f.Stream?
  {
    var p := Raise(Raise(Raise(p, task.before), task.context), f.onCall);
    var p := EmitItems(task, p, f.items);
    Emit(task, Raise(Raise(p, f.atEnd), task.after), STREAM_DONE, Nothing)
  }

  /** The `try` block of `_async_task`. */
  function Body(task: Task): Progress {
    var p := Raise(Progress([], [], None), task.load);
    match task.functor
    case None => Raise(p, Some(Plain(task.nameError)))
    case Some(f) => if f.Rep? then CallRep(task, f, p) else CallStream(task, f, p)
  }

  /** The `except Exception` block. */
  function ReplyError(task: Task, p: Progress, parts: seq<string>): Progress {
    Emit(task, Raise(Raise(p.(raised := None), task.errContext), task.inspect), ERR, Parts(parts))
  }

  function AsyncTask(task: Task): Progress {
    var p := Body(task);
    match p.raised
    case None => p
    case Some(LostRemote) => p.(raised := None)
    case Some(Plain(parts)) => ReplyError(task, p, parts)
    case Some(Fatal) => p
  }

  /** The layer below as the patterns see it: it takes events, or raises. */
  class Outbox {
    const task: Task
    var sent: seq<Event>
    var tries: seq<Try>

    constructor (task: Task)
      ensures this.task == task && sent == [] && tries == []
    {
      this.task := task;
      sent, tries := [], [];
    }

    function Now(raised: Option<Exc>): Progress
      reads this
    {
      Progress(sent, tries, raised)
    }

    method EmitEvent(name: Name, args: Args) returns (raised: Option<Exc>)
      modifies this
      ensures Now(raised) == Emit(task, old(Now(None)), name, args)
    {
      var i := |tries|;
      var e := Reply(task, i, name, args);
      raised := task.emitRaises(i);
      tries := tries + [Try(e, raised)];
      if raised.None? {
        sent := sent + [e];
      }
    }
  }

  method ProcessRep(out: Outbox, f: Functor) returns (raised: Option<Exc>)
    requires f.Rep?
    modifies out
    ensures out.Now(raised) == CallRep(out.task, f, old(out.Now(None)))
  {
    if out.task.before.Some? { return out.task.before; }
    if f.raises.Some? { return f.raises; }
    if out.task.context.Some? { return out.task.context; }
    if out.task.after.Some? { return out.task.after; }
    raised := out.EmitEvent(OK, Val(f.value));
  }

  method ProcessStream(out: Outbox, f: Functor) returns (raised: Option<Exc>)
    requires f.Stream?
    modifies out
    ensures out.Now(raised) == CallStream(out.task, f, old(out.Now(None)))
  {
    ghost var start := out.Now(None);
    if out.task.before.Some? {
      RaisedStays(out.task, Raise(start, out.task.before), f.items);
      return out.task.before;
    }
    if out.task.context.Some? {
      RaisedStays(out.task, Raise(start, out.task.context), f.items);
      return out.task.context;
    }
    if f.onCall.Some? {
      RaisedStays(out.task, Raise(start, f.onCall), f.items);
      return f.onCall;
    }
    var i := 0;
    while i < |f.items|
      invariant 0 <= i <= |f.items|
      invariant EmitItems(out.task, out.Now(None), f.items[i..]) == EmitItems(out.task, start, f.items)
    {
      ghost var here := out.Now(None);
      raised := out.EmitEvent(STREAM, Val(f.items[i]));
      assert f.items[i..][1..] == f.items[i + 1..];
      if raised.Some? {
        RaisedStays(out.task, out.Now(raised), f.items[i + 1..]);
        return;
      }
      i := i + 1;
    }
    if f.atEnd.Some? { return f.atEnd; }
    if out.task.after.Some? { return out.task.after; }
    raised := out.EmitEvent(STREAM_DONE, Nothing);
  }

  lemma {:induction false} RaisedStays(task: Task, p: Progress, items: seq<Payload>)
    requires p.raised.Some?
    ensures EmitItems(task, p, items) == p
    decreases |items|
  {
    if items != [] {
      RaisedStays(task, p, items[1..]);
    }
  }

  /** `ServerBase._async_task`, from its `try`. */
  method RunTask(out: Outbox) returns (raised: Option<Exc>)
    requires out.sent == [] && out.tries == []
    modifies out
    ensures out.Now(raised) == AsyncTask(out.task)
  {
    var task := out.task;
    var x := task.load;
    if x.None? {
      match task.functor
      case None => x := Some(Plain(task.nameError));
      case Some(f) =>
        if f.Rep? { x := ProcessRep(out, f); } else { x := ProcessStream(out, f); }
    } else if task.functor.Some? && task.functor.value.Stream? {
      RaisedStays(task, Progress([], [], x), task.functor.value.items);
    }
    assert out.Now(x) == Body(task);
    match x
    case None => return None;
    case Some(LostRemote) => return None;
    case Some(Fatal) => return x;
    case Some(Plain(parts)) =>
      if task.errContext.Some? { return task.errContext; }
      if task.inspect.Some? { return task.inspect; }
      raised := out.EmitEvent(ERR, Parts(parts));
  }

  // ---- the language of replies ----------------------------------------------------

  predicate Terminal(e: Event) {
    e.name.OK? || e.name.ERR? || e.name.STREAM_DONE?
  }

  predicate AllStream(s: seq<Event>) {
    forall e :: e in s ==> e.name.STREAM?
  }

  /** OK | ERR | STREAM* (STREAM_DONE | ERR) */
  predicate Complete(s: seq<Event>) {
    && s != []
    && AllStream(s[..|s| - 1])
    && Terminal(s[|s| - 1])
    && (s[|s| - 1].name.OK? ==> |s| == 1)
  }

  predicate InLanguage(s: seq<Event>) {
    Complete(s) || AllStream(s)
  }

  lemma {:induction false} ItemsAreStream(task: Task, p: Progress, items: seq<Payload>)
    requires AllStream(p.sent)
    ensures AllStream(EmitItems(task, p, items).sent)
    decreases |items|
  {
    if items != [] {
      ItemsAreStream(task, Emit(task, p, STREAM, Val(items[0])), items[1..]);
    }
  }

  lemma EmitLast(task: Task, p: Progress, name: Name, args: Args)
    requires AllStream(p.sent) && p.raised.None?
    requires name.STREAM_DONE? || name.ERR? || (name.OK? && p.sent == [])
    ensures Emit(task, p, name, args).raised.None? ==> Complete(Emit(task, p, name, args).sent)
    ensures Emit(task, p, name, args).raised.Some? ==> Emit(task, p, name, args).sent == p.sent
  {
    var s := Emit(task, p, name, args).sent;
    if Emit(task, p, name, args).raised.None? {
      assert s[..|s| - 1] == p.sent;
    }
  }

  /** The `try` block ends with a whole reply, or raises with stream items only sent. */
  lemma BodySends(task: Task)
    ensures Body(task).raised.None? ==> Complete(Body(task).sent)
    ensures Body(task).raised.Some? ==> AllStream(Body(task).sent)
  {
    var p := Raise(Progress([], [], None), task.load);
    match task.functor
    case None =>
    case Some(f) =>
      if f.Rep? {
        var q := Raise(Raise(Raise(Raise(p, task.before), f.raises), task.context), task.after);
        if q.raised.None? { EmitLast(task, q, OK, Val(f.value)); }
      } else {
        var q := Raise(Raise(Raise(p, task.before), task.context), f.onCall);
        ItemsAreStream(task, q, f.items);
        var r := Raise(Raise(EmitItems(task, q, f.items), f.atEnd), task.after);
        if r.raised.None? { EmitLast(task, r, STREAM_DONE, Nothing); }
      }
  }

  /** Does the task end without a terminal event?  It does when what left the `try` block
      was a lost remote or not an `Exception`, or when the ERR path raised. */
  predicate EndsSilently(task: Task) {
    var p := Body(task);
    && p.raised.Some?
    && (p.raised.value.Plain? ==>
         task.errContext.Some? || task.inspect.Some? || task.emitRaises(|p.tries|).Some?)
  }

  /** On every path the events sent are a prefix of a legal reply, and the reply is
      whole, with its one terminal event, exactly when the task does not end silently. */
  lemma RepliesInLanguage(task: Task)
    ensures InLanguage(AsyncTask(task).sent)
    ensures Complete(AsyncTask(task).sent) <==> !EndsSilently(task)
  {
    BodySends(task);
    var p := Body(task);
    if p.raised.Some? && p.raised.value.Plain? {
      var q := Raise(Raise(p.(raised := None), task.errContext), task.inspect);
      if q.raised.None? { EmitLast(task, q, ERR, Parts(p.raised.value.parts)); }
    }
  }

  /** The events of the tries that did not raise. */
  function SentIn(tries: seq<Try>): seq<Event> {
    if tries == [] then [] else (if tries[0].raised.None? then [tries[0].event] else []) + SentIn(tries[1..])
  }

  lemma {:induction false} SentInConcat(s: seq<Try>, t: seq<Try>)
    ensures SentIn(s + t) == SentIn(s) + SentIn(t)
  {
    if s == [] {
      assert s + t == t;
    } else {
      var first := if s[0].raised.None? then [s[0].event] else [];
      assert (s + t)[1..] == s[1..] + t;
      SentInConcat(s[1..], t);
      assert SentIn(s + t) == first + (SentIn(s[1..]) + SentIn(t)) == (first + SentIn(s[1..])) + SentIn(t);
    }
  }

  /** The account of the tries is right, and has room for failed ones. */
  ghost predicate Tried(p: Progress, failed: nat) {
    && SentIn(p.tries) == p.sent && |p.tries| <= |p.sent| + failed
    && forall t :: t in p.tries ==> !IsControl(t.event)
  }

  /** Each try has ids of its own, and raises as the layer below did for it. */
  ghost predicate OwnHeaders(task: Task, tries: seq<Try>) {
    forall i :: 0 <= i < |tries| ==>
      var t := tries[i];
      && t.event.msgId == task.header(i).msgId && t.event.respTo == task.header(i).respTo
      && t.event.v == task.header(i).v && t.raised == task.emitRaises(i)
  }

  lemma EmitOwnHeaders(task: Task, p: Progress, name: Name, args: Args)
    requires OwnHeaders(task, p.tries)
    ensures OwnHeaders(task, Emit(task, p, name, args).tries)
  {
  }

  lemma {:induction false} ItemsOwnHeaders(task: Task, p: Progress, items: seq<Payload>)
    requires OwnHeaders(task, p.tries)
    ensures OwnHeaders(task, EmitItems(task, p, items).tries)
    decreases |items|
  {
    if items != [] {
      EmitOwnHeaders(task, p, STREAM, Val(items[0]));
      ItemsOwnHeaders(task, Emit(task, p, STREAM, Val(items[0])), items[1..]);
    }
  }

  lemma BodyOwnHeaders(task: Task)
    ensures OwnHeaders(task, Body(task).tries)
  {
    var p := Raise(Progress([], [], None), task.load);
    match task.functor
    case None =>
    case Some(f) =>
      if f.Rep? {
        var q := Raise(Raise(Raise(Raise(p, task.before), f.raises), task.context), task.after);
        EmitOwnHeaders(task, q, OK, Val(f.value));
      } else {
        var q := EmitItems(task, Raise(Raise(Raise(p, task.before), task.context), f.onCall), f.items);
        ItemsOwnHeaders(task, Raise(Raise(Raise(p, task.before), task.context), f.onCall), f.items);
        EmitOwnHeaders(task, Raise(Raise(q, f.atEnd), task.after), STREAM_DONE, Nothing);
      }
  }

  /** The i-th event handed to the channel has the ids drawn for it, and no other's. */
  lemma TriesHaveOwnHeaders(task: Task)
    ensures OwnHeaders(task, AsyncTask(task).tries)
  {
    BodyOwnHeaders(task);
    var p := Body(task);
    if p.raised.Some? && p.raised.value.Plain? {
      var q := Raise(Raise(p.(raised := None), task.errContext), task.inspect);
      EmitOwnHeaders(task, q, ERR, Parts(p.raised.value.parts));
    }
  }

  lemma EmitTried(task: Task, p: Progress, name: Name, args: Args, failed: nat)
    requires Tried(p, failed) && !name.ZpcHb? && !name.ZpcMore?
    ensures Tried(Emit(task, p, name, args), failed + 1)
    ensures Emit(task, p, name, args).raised.None? ==> Tried(Emit(task, p, name, args), failed)
  {
    if p.raised.None? {
      var x := task.emitRaises(|p.tries|);
      var t := [Try(Reply(task, |p.tries|, name, args), x)];
      SentInConcat(p.tries, t);
      assert t[1..] == [];
    }
  }

  lemma {:induction false} ItemsTried(task: Task, p: Progress, items: seq<Payload>)
    requires p.raised.None? ==> Tried(p, 0)
    requires p.raised.Some? ==> Tried(p, 1)
    ensures var q := EmitItems(task, p, items); Tried(q, if q.raised.None? then 0 else 1)
    decreases |items|
  {
    if items != [] {
      if p.raised.None? { EmitTried(task, p, STREAM, Val(items[0]), 0); }
      ItemsTried(task, Emit(task, p, STREAM, Val(items[0])), items[1..]);
    }
  }

  lemma BodyTried(task: Task)
    ensures Tried(Body(task), 1)
  {
    var p := Raise(Progress([], [], None), task.load);
    match task.functor
    case None =>
    case Some(f) =>
      if f.Rep? {
        var q := Raise(Raise(Raise(Raise(p, task.before), f.raises), task.context), task.after);
        EmitTried(task, q, OK, Val(f.value), 0);
      } else {
        var q := Raise(Raise(Raise(p, task.before), task.context), f.onCall);
        ItemsTried(task, q, f.items);
        var r := Raise(Raise(EmitItems(task, q, f.items), f.atEnd), task.after);
        if r.raised.None? { EmitTried(task, r, STREAM_DONE, Nothing, 0); }
      }
  }

  /** What a task sent is what it tried, without the tries that raised; two did at most, and
      all of it is data. */
  lemma SentIsWhatDidNotRaise(task: Task)
    ensures AsyncTask(task).sent == SentIn(AsyncTask(task).tries)
    ensures |AsyncTask(task).tries| <= |AsyncTask(task).sent| + 2
    ensures forall t :: t in AsyncTask(task).tries ==> !IsControl(t.event)
  {
    BodyTried(task);
    var p := Body(task);
    if p.raised.Some? && p.raised.value.Plain? {
      var q := Raise(Raise(p.(raised := None), task.errContext), task.inspect);
      EmitTried(task, q, ERR, Parts(p.raised.value.parts), 1);
    }
  }

  /** Every emit of a request/reply task finds that nothing was sent before it, even the
      ERR that follows an OK which failed. */
  lemma RepSendsAtMostOnce(task: Task)
    requires task.functor.None? || task.functor.value.Rep?
    ensures |AsyncTask(task).tries| <= 2 && |AsyncTask(task).sent| <= 1
    ensures forall i :: 0 <= i < |AsyncTask(task).tries| ==> SentIn(AsyncTask(task).tries[..i]) == []
  {
    var tries := AsyncTask(task).tries;
    forall i | 0 <= i < |tries|
      ensures SentIn(tries[..i]) == []
    {
      if i == 1 { assert tries[..1][1..] == []; }
    }
  }

  // ---- the client -------------------------------------------------------------------

  datatype Outcome =
    | Returned(value: Payload)
    | Exhausted
    | RemoteError(parts: seq<string>)
    | Malformed     // args of the wrong shape: the client raises a local error
    | NoPattern

  datatype Pattern = ReqRep | ReqStream

  predicate Accepts(p: Pattern, e: Event) {
    match p
    case ReqRep => e.name.OK? || e.name.ERR?
    case ReqStream => e.name.STREAM? || e.name.STREAM_DONE?
  }

  const PATTERNS := [ReqStream, ReqRep]

  function SelectFrom(patterns: seq<Pattern>, e: Event): Option<Pattern> {
    if patterns == [] then None
    else if Accepts(patterns[0], e) then Some(patterns[0])
    else SelectFrom(patterns[1..], e)
  }

  /** At most one pattern of the list accepts an event, and it is the one selected. */
  lemma SelectIsTheOnlyPattern(e: Event, p: Pattern)
    ensures SelectFrom(PATTERNS, e) == Some(p) <==> Accepts(p, e)
  {
    assert PATTERNS[1..] == [ReqRep];
    assert SelectFrom([ReqRep], e) == if Accepts(ReqRep, e) then Some(ReqRep) else None by {
      assert [ReqRep][1..] == [];
    }
  }

  /** `_handle_remote_error`, without hooks. */
  function HandleRemoteError(e: Event): Outcome {
    var v := if e.v.Some? then e.v.value else 1;
    if e.args.Parts? && |e.args.parts| == (if v >= 2 then 3 else 1) then RemoteError(e.args.parts) else Malformed
  }

  /** Where the client is in one call. */
  datatype Reader = Awaiting | Iterating | Done(outcome: Outcome)

  /** What the client does with the first event of the reply. */
  function First(e: Event): Reader {
    match SelectFrom(PATTERNS, e)
    case None => Done(NoPattern)
    case Some(ReqRep) =>
      if e.name.ERR? then Done(HandleRemoteError(e))
      else if e.args.Val? then Done(Returned(e.args.payload)) else Done(Malformed)
    case Some(ReqStream) => Resume(e)
  }

  /** The test of the `while` in `ReqStream.process_answer`, and what follows it. */
  function Resume(e: Event): Reader {
    if e.name.STREAM? then Iterating
    else if e.name.ERR? then Done(HandleRemoteError(e))
    else Done(Exhausted)
  }

  function React(r: Reader, e: Event): Reader {
    match r
    case Awaiting => First(e)
    case Iterating => Resume(e)
    case Done(_) => r
  }

  /** The client after the events of `s`, with what its iterator yielded. */
  datatype View = View(reader: Reader, yielded: seq<Args>)

  function Consume(view: View, s: seq<Event>): View
    decreases |s|
  {
    if s == [] || view.reader.Done? then view
    else
      var r := React(view.reader, s[0]);
      Consume(View(r, if r.Iterating? then view.yielded + [s[0].args] else view.yielded), s[1..])
  }

  const NEW_CALL := View(Awaiting, [])

  /** `_process_response`, with the iterator driven to its end.  `inbox` is what `recv`
      would return; the client stops at the event that ends the call. */
  method ProcessResponse(inbox: seq<Event>) returns (view: View, used: nat)
    ensures used <= |inbox|
    ensures view == Consume(NEW_CALL, inbox)
    ensures view == Consume(NEW_CALL, inbox[..used])
    ensures !view.reader.Done? ==> used == |inbox|
    ensures forall k :: 0 <= k < used ==> !Consume(NEW_CALL, inbox[..k]).reader.Done?
  {
    view, used := NEW_CALL, 0;
    while used < |inbox| && !view.reader.Done?
      invariant used <= |inbox|
      invariant view == Consume(NEW_CALL, inbox[..used])
      invariant Consume(view, inbox[used..]) == Consume(NEW_CALL, inbox)
      invariant forall k :: 0 <= k < used ==> !Consume(NEW_CALL, inbox[..k]).reader.Done?
    {
      var e := inbox[used];
      ConsumeOneMore(NEW_CALL, inbox[..used], e);
      assert inbox[..used] + [e] == inbox[..used + 1];
      assert inbox[used..][1..] == inbox[used + 1..];
      var r := React(view.reader, e);
      view := View(r, if r.Iterating? then view.yielded + [e.args] else view.yielded);
      used := used + 1;
    }
  }

  lemma {:induction false} ConsumeOneMore(view: View, s: seq<Event>, e: Event)
    ensures Consume(view, s + [e]) == Consume(Consume(view, s), [e])
    decreases |s|
  {
    if s == [] {
      assert s + [e] == [e];
    } else if !view.reader.Done? {
      var r := React(view.reader, s[0]);
      assert (s + [e])[1..] == s[1..] + [e];
      ConsumeOneMore(View(r, if r.Iterating? then view.yielded + [s[0].args] else view.yielded), s[1..], e);
    }
  }

  /** The first event of a reply, whatever its name: only a STREAM goes on, and a name that no
      pattern accepts is an error of its own. */
  lemma FirstEventDecides(e: Event)
    ensures var view := Consume(NEW_CALL, [e]);
            && (view.reader.Iterating? <==> e.name.STREAM?)
            && (view.reader == Done(NoPattern) <==>
                 !e.name.OK? && !e.name.ERR? && !e.name.STREAM? && !e.name.STREAM_DONE?)
            && (view.reader == Done(Exhausted) <==> e.name.STREAM_DONE?)
            && (view.reader.Done? && view.reader.outcome.Returned? <==> e.name.OK? && e.args.Val?)
            && (view.reader.Done? && view.reader.outcome.RemoteError? ==> e.name.ERR?)
            && view.yielded == if e.name.STREAM? then [e.args] else []
  {
    SelectIsTheOnlyPattern(e, ReqRep);
    SelectIsTheOnlyPattern(e, ReqStream);
    assert [e][1..] == [];
  }

  /** A later event of a stream: a STREAM goes on, an ERR raises, and any other ends it. */
  lemma LaterEventDecides(e: Event, yielded: seq<Args>)
    ensures var view := Consume(View(Iterating, yielded), [e]);
            && (view.reader.Iterating? <==> e.name.STREAM?)
            && (view.reader == Done(Exhausted) <==> !e.name.STREAM? && !e.name.ERR?)
            && view.yielded == if e.name.STREAM? then yielded + [e.args] else yielded
  {
    assert [e][1..] == [];
  }

  /** The arguments of an error: three parts of a peer of version 2 or more, one of an older
      one, which is also what an event without a version is taken for. */
  lemma RemoteErrorIff(e: Event)
    ensures HandleRemoteError(e).RemoteError? <==>
              e.args.Parts? && ((|e.args.parts| == 3 && e.v.Some? && e.v.value >= 2)
                                || (|e.args.parts| == 1 && (e.v.None? || e.v.value < 2)))
    ensures HandleRemoteError(e).RemoteError? ==> HandleRemoteError(e).parts == e.args.parts
    ensures !HandleRemoteError(e).RemoteError? ==> HandleRemoteError(e) == Malformed
  {
  }

  // ---- the client sees what the server did --------------------------------------------

  function ArgsOf(s: seq<Event>): (r: seq<Args>)
    ensures |r| == |s|
  {
    if s == [] then [] else [s[0].args] + ArgsOf(s[1..])
  }

  /** What a legal reply means: the values of its stream items, and how it ends. */
  function Meaning(s: seq<Event>): View
    requires InLanguage(s)
  {
    if AllStream(s) then View(if s == [] then Awaiting else Iterating, ArgsOf(s))
    else
      var last := s[|s| - 1];
      View(Done(if last.name.ERR? then HandleRemoteError(last)
                else if last.name.STREAM_DONE? then Exhausted
                else if last.args.Val? then Returned(last.args.payload) else Malformed),
           ArgsOf(s[..|s| - 1]))
  }

  lemma {:induction false} ConsumeStream(view: View, s: seq<Event>)
    requires AllStream(s) && !view.reader.Done?
    ensures Consume(view, s) == View(if s == [] then view.reader else Iterating, view.yielded + ArgsOf(s))
    decreases |s|
  {
    if s != [] {
      SelectIsTheOnlyPattern(s[0], ReqStream);
      ConsumeStream(View(Iterating, view.yielded + [s[0].args]), s[1..]);
      assert view.yielded + ArgsOf(s) == (view.yielded + [s[0].args]) + ArgsOf(s[1..]);
    }
  }

  /** The client reads a legal reply as what it means, whatever the reply is. */
  lemma ConsumeIsMeaning(s: seq<Event>)
    requires InLanguage(s)
    ensures Consume(NEW_CALL, s) == Meaning(s)
  {
    if AllStream(s) {
      ConsumeStream(NEW_CALL, s);
    } else {
      var init, last := s[..|s| - 1], s[|s| - 1];
      assert s == init + [last] && last in s;
      ConsumeStream(NEW_CALL, init);
      ConsumeOneMore(NEW_CALL, init, last);
      ConsumeTerminal(Consume(NEW_CALL, init), last);
    }
  }

  lemma ConsumeTerminal(view: View, e: Event)
    requires Terminal(e) && !view.reader.Done? && (e.name.OK? ==> view.reader.Awaiting?)
    ensures Consume(view, [e]) == View(Done(if e.name.ERR? then HandleRemoteError(e)
                                            else if e.name.STREAM_DONE? then Exhausted
                                            else if e.args.Val? then Returned(e.args.payload) else Malformed),
                                       view.yielded)
  {
    SelectIsTheOnlyPattern(e, ReqRep);
    SelectIsTheOnlyPattern(e, ReqStream);
    assert [e][1..] == [];
  }

  /** The headers a server of this code gives to its events: version 3. */
  ghost predicate StampsV3(task: Task) {
    forall i: nat :: task.header(i).v == Some(3)
  }

  function ValArgs(items: seq<Payload>): (r: seq<Args>)
    ensures |r| == |items|
  {
    if items == [] then [] else [Val(items[0])] + ValArgs(items[1..])
  }

  lemma {:induction false} ArgsConcat(s: seq<Event>, t: seq<Event>)
    ensures ArgsOf(s + t) == ArgsOf(s) + ArgsOf(t)
  {
    if s == [] {
      assert s + t == t;
    } else {
      assert (s + t)[1..] == s[1..] + t;
      ArgsConcat(s[1..], t);
    }
  }

  // -- what raises, and what was sent before

  /** Everything that can raise in the `try` block, in the order it happens. */
  function Points(task: Task): (r: seq<Option<Exc>>) {
    [task.load] + match task.functor
    case None => [Some(Plain(task.nameError))]
    case Some(f) =>
      if f.Rep? then [task.before, f.raises, task.context, task.after, task.emitRaises(0)]
      else [task.before, task.context, f.onCall] + seq(|f.items|, i requires 0 <= i => task.emitRaises(i))
           + [f.atEnd, task.after, task.emitRaises(|f.items|)]
  }

  predicate NothingRaises(task: Task) {
    forall i :: 0 <= i < |Points(task)| ==> Points(task)[i].None?
  }

  /** Point `k` is the first that raises. */
  predicate RaisesFirst(task: Task, k: nat) {
    k < |Points(task)| && Points(task)[k].Some? && forall i :: 0 <= i < k ==> Points(task)[i].None?
  }

  /** The items handed out before point `k`: those whose emit comes before it. */
  function ItemsBefore(task: Task, k: nat): seq<Payload> {
    if task.functor.None? || task.functor.value.Rep? || k < 4 then []
    else
      var items := task.functor.value.items;
      if k - 4 <= |items| then items[..k - 4] else items
  }

  /** The items up to the first whose emit raises. */
  lemma {:induction false} ItemsUpTo(task: Task, p: Progress, items: seq<Payload>, j: nat)
    requires p.raised.None? && j <= |items|
    requires forall i :: |p.tries| <= i < |p.tries| + j ==> task.emitRaises(i).None?
    requires j < |items| ==> task.emitRaises(|p.tries| + j).Some?
    ensures var q := EmitItems(task, p, items);
            && ArgsOf(q.sent) == ArgsOf(p.sent) + ValArgs(items[..j])
            && q.raised == (if j < |items| then task.emitRaises(|p.tries| + j) else None)
            && |q.tries| == |p.tries| + if j < |items| then j + 1 else j
    decreases |items|
  {
    if items != [] {
      var q := Emit(task, p, STREAM, Val(items[0]));
      if j == 0 {
        RaisedStays(task, q, items[1..]);
      } else {
        ItemsUpTo(task, q, items[1..], j - 1);
        OneMoreArg(p.sent, q.sent[|p.sent|], items, j);
      }
    }
  }

  lemma OneMoreArg(sent: seq<Event>, e: Event, items: seq<Payload>, j: nat)
    requires 0 < j <= |items| && e.args == Val(items[0])
    ensures ArgsOf(sent + [e]) + ValArgs(items[1..][..j - 1]) == ArgsOf(sent) + ValArgs(items[..j])
  {
    ArgsConcat(sent, [e]);
    assert [e][1..] == [];
    assert items[..j][1..] == items[1..][..j - 1];
  }

  lemma StreamPoint(task: Task, i: nat)
    requires task.functor.Some? && task.functor.value.Stream?
    ensures var f := task.functor.value; var n := |f.items|;
            && |Points(task)| == n + 7
            && Points(task)[0] == task.load && Points(task)[1] == task.before
            && Points(task)[2] == task.context && Points(task)[3] == f.onCall
            && (i < n ==> Points(task)[i + 4] == task.emitRaises(i))
            && Points(task)[n + 4] == f.atEnd && Points(task)[n + 5] == task.after
            && Points(task)[n + 6] == task.emitRaises(n)
  {
  }

  /** Where the items of a stream get to: to the first point that raises, if there is one. */
  lemma StreamItems(task: Task, k: nat)
    requires task.functor.Some? && task.functor.value.Stream? && 4 <= k <= |Points(task)|
    requires forall i :: 0 <= i < k ==> Points(task)[i].None?
    requires k < |Points(task)| ==> Points(task)[k].Some?
    ensures var f := task.functor.value;
            var q := EmitItems(task, Progress([], [], None), f.items);
            && ArgsOf(q.sent) == ValArgs(ItemsBefore(task, k))
            && (k - 4 < |f.items| ==> q.raised == Points(task)[k])
            && (k - 4 >= |f.items| ==> q.raised.None? && |q.tries| == |f.items|)
  {
    var items := task.functor.value.items;
    var j := if k - 4 <= |items| then k - 4 else |items|;
    StreamPoint(task, j);
    forall i | 0 <= i < j
      ensures task.emitRaises(i).None?
    {
      StreamPoint(task, i);
      assert Points(task)[i + 4].None?;
    }
    ItemsUpTo(task, Progress([], [], None), items, j);
    assert items[..|items|] == items;
  }

  lemma StreamRaises(task: Task, k: nat)
    requires task.functor.Some? && task.functor.value.Stream? && RaisesFirst(task, k)
    ensures Body(task).raised == Points(task)[k]
    ensures ArgsOf(Body(task).sent) == ValArgs(ItemsBefore(task, k))
  {
    var f := task.functor.value;
    StreamPoint(task, 0);
    if k < 4 {
      var q := Raise(Raise(Raise(Raise(Progress([], [], None), task.load), task.before), task.context), f.onCall);
      assert q.raised == Points(task)[k];
      RaisedStays(task, q, f.items);
    } else {
      assert task.load.None? && task.before.None? && task.context.None? && f.onCall.None?;
      StreamItems(task, k);
      var q := EmitItems(task, Progress([], [], None), f.items);
      assert Body(task) == Emit(task, Raise(Raise(q, f.atEnd), task.after), STREAM_DONE, Nothing);
    }
  }

  lemma StreamDone(task: Task)
    requires task.functor.Some? && task.functor.value.Stream? && NothingRaises(task)
    ensures Body(task).raised.None?
    ensures var q := EmitItems(task, Progress([], [], None), task.functor.value.items);
            && Body(task) == Emit(task, q, STREAM_DONE, Nothing)
            && ArgsOf(q.sent) == ValArgs(task.functor.value.items)
  {
    StreamPoint(task, 0);
    StreamItems(task, |Points(task)|);
  }

  /** What leaves the `try` block is what the first of its points that raises raised, and
      before that the items handed out are the function's own, up to there. */
  lemma BodyRaisesFirst(task: Task, k: nat)
    requires RaisesFirst(task, k)
    ensures Body(task).raised == Points(task)[k]
    ensures ArgsOf(Body(task).sent) == ValArgs(ItemsBefore(task, k))
  {
    if task.functor.Some? && task.functor.value.Stream? {
      StreamRaises(task, k);
    } else {
      OtherPoints(task);
      var points := Points(task);
      assert (k > 0 ==> points[0].None?) && (k > 1 ==> points[1].None?);
      if task.functor.Some? {
        assert (k > 2 ==> points[2].None?) && (k > 3 ==> points[3].None?) && (k > 4 ==> points[4].None?);
      }
    }
  }

  lemma OtherPoints(task: Task)
    requires task.functor.None? || task.functor.value.Rep?
    ensures match task.functor
            case None => Points(task) == [task.load, Some(Plain(task.nameError))]
            case Some(f) =>
              Points(task) == [task.load, task.before, f.raises, task.context, task.after, task.emitRaises(0)]
  {
  }

  /** The `try` block raises exactly if one of its points does. */
  lemma BodyRaisesIff(task: Task)
    ensures Body(task).raised.None? <==> NothingRaises(task)
    ensures Body(task).raised.Some? ==> exists k :: RaisesFirst(task, k)
  {
    if NothingRaises(task) {
      if task.functor.Some? && task.functor.value.Stream? { StreamDone(task); } else { NoPoint(task); }
    } else {
      var i :| 0 <= i < |Points(task)| && Points(task)[i].Some?;
      var k := FirstRaise(task, i);
      BodyRaisesFirst(task, k);
    }
  }

  lemma NoPoint(task: Task)
    requires NothingRaises(task) && (task.functor.None? || task.functor.value.Rep?)
    ensures task.functor.Some? && Body(task).raised.None?
  {
    OtherPoints(task);
    var points := Points(task);
    assert points[0].None? && points[1].None?;
    if task.functor.Some? {
      assert points[2].None? && points[3].None? && points[4].None? && points[5].None?;
    }
  }

  lemma {:induction false} FirstRaise(task: Task, i: nat) returns (k: nat)
    requires i < |Points(task)| && Points(task)[i].Some?
    ensures RaisesFirst(task, k)
  {
    if j: nat :| j < i && Points(task)[j].Some? {
      k := FirstRaise(task, j);
    } else {
      k := i;
    }
  }

  /** A stream in which nothing raises shows at the client as its items, then the end. */
  lemma StreamSeenAsProduced(task: Task)
    requires task.functor.Some? && task.functor.value.Stream? && NothingRaises(task)
    ensures Consume(NEW_CALL, AsyncTask(task).sent)
         == View(Done(Exhausted), ValArgs(task.functor.value.items))
  {
    StreamDone(task);
    BodySends(task);
    var s := Body(task).sent;
    assert s[..|s| - 1] == EmitItems(task, Progress([], [], None), task.functor.value.items).sent;
    LastMeans(s);
  }

  /** A whole reply shows as its stream items, then as what its last event says. */
  lemma LastMeans(s: seq<Event>)
    requires Complete(s)
    ensures Consume(NEW_CALL, s) == View(Meaning(s).reader, ArgsOf(s[..|s| - 1])) && Meaning(s).reader.Done?
    ensures s[|s| - 1].name.STREAM_DONE? ==> Meaning(s).reader == Done(Exhausted)
    ensures s[|s| - 1].name.ERR? ==> Meaning(s).reader == Done(HandleRemoteError(s[|s| - 1]))
  {
    assert s[|s| - 1] in s;
    ConsumeIsMeaning(s);
  }

  /** A function that returned, in a task in which nothing raises, shows as its value. */
  lemma ValueSeenAsReturned(task: Task)
    requires task.functor.Some? && task.functor.value.Rep? && NothingRaises(task)
    ensures Consume(NEW_CALL, AsyncTask(task).sent)
         == View(Done(Returned(task.functor.value.value)), [])
  {
    BodyRaisesIff(task);
    var s := Body(task).sent;
    assert |s| == 1 && s[0].name.OK?;
    assert s[1..] == [];
    SelectIsTheOnlyPattern(s[0], ReqRep);
  }

  function AsSeen(parts: seq<string>): Outcome {
    if |parts| == 3 then RemoteError(parts) else Malformed
  }

  /** The first exception shows as a RemoteError with its parts, after the function's items
      that were handed out before it.  A reply for a protocol-1 request has one part only,
      which this client cannot unpack. */
  lemma ErrorSeenAsRaised(task: Task, k: nat)
    requires StampsV3(task) && !EndsSilently(task) && RaisesFirst(task, k) && Points(task)[k].value.Plain?
    ensures Consume(NEW_CALL, AsyncTask(task).sent)
         == View(Done(AsSeen(Points(task)[k].value.parts)), ValArgs(ItemsBefore(task, k)))
  {
    BodyRaisesFirst(task, k);
    BodySends(task);
    RepliesInLanguage(task);
    var s := AsyncTask(task).sent;
    assert s[..|s| - 1] == Body(task).sent && s[|s| - 1].name.ERR?;
    LastMeans(s);
  }

  // -- how the task ends

  /** What the first of them that raises raised. */
  function FirstOf(points: seq<Option<Exc>>): Option<Exc> {
    if points == [] then None else if points[0].Some? then points[0] else FirstOf(points[1..])
  }

  /** A task in which nothing raises ends normally.  Otherwise the first exception decides: a
      lost remote is logged and forgotten; one that is no `Exception` leaves the task; any
      other one ends in the ERR path, and only what that raises leaves the task. */
  lemma TaskEndsWith(task: Task, k: nat)
    ensures NothingRaises(task) ==> AsyncTask(task).raised.None?
    ensures RaisesFirst(task, k) ==>
              AsyncTask(task).raised == match Points(task)[k].value
                                        case LostRemote => None
                                        case Fatal => Some(Fatal)
                                        case Plain(_) => FirstOf([task.errContext, task.inspect,
                                                                  task.emitRaises(|Body(task).tries|)])
    ensures RaisesFirst(task, k) && !Points(task)[k].value.Plain? ==> AsyncTask(task).sent == Body(task).sent
  {
    BodyRaisesIff(task);
    if RaisesFirst(task, k) {
      BodyRaisesFirst(task, k);
      FirstOfThree(task.errContext, task.inspect, task.emitRaises(|Body(task).tries|));
    }
  }

  lemma FirstOfThree(x: Option<Exc>, y: Option<Exc>, w: Option<Exc>)
    ensures FirstOf([x, y, w]) == if x.Some? then x else if y.Some? then y else w
  {
    assert [w][1..] == [] && FirstOf([w]) == w;
    assert [y, w][1..] == [w];
    assert [x, y, w][1..] == [y, w];
    assert FirstOf([y, w]) == if y.Some? then y else w;
  }

  function ItemsOf(task: Task): seq<Payload> {
    if task.functor.Some? && task.functor.value.Stream? then task.functor.value.items else []
  }

  lemma {:induction false} ValArgsPrefix(items: seq<Payload>, j: nat)
    requires j <= |items|
    ensures ValArgs(items[..j]) <= ValArgs(items)
  {
    if j > 0 {
      ValArgsPrefix(items[1..], j - 1);
      assert items[..j][1..] == items[1..][..j - 1];
    }
  }

  lemma BodyItems(task: Task)
    ensures Body(task).raised.Some? ==> ArgsOf(Body(task).sent) <= ValArgs(ItemsOf(task))
    ensures Body(task).raised.None? && task.functor.Some? && task.functor.value.Stream? ==>
              var s := Body(task).sent; s != [] && ArgsOf(s[..|s| - 1]) == ValArgs(ItemsOf(task))
  {
    BodyRaisesIff(task);
    if Body(task).raised.Some? {
      var k: nat :| RaisesFirst(task, k);
      BodyRaisesFirst(task, k);
      ValArgsPrefix(ItemsOf(task), |ItemsBefore(task, k)|);
      assert ItemsBefore(task, k) == ItemsOf(task)[..|ItemsBefore(task, k)|];
    } else if task.functor.Some? && task.functor.value.Stream? {
      StreamDone(task);
      var s := Body(task).sent;
      assert s[..|s| - 1] == EmitItems(task, Progress([], [], None), task.functor.value.items).sent;
    }
  }

  /** Whatever a task does, and however it ends, the values in what it sends are the first
      items of its function, in order. */
  lemma ReplyCarriesItems(task: Task)
    ensures InLanguage(AsyncTask(task).sent)
    ensures Meaning(AsyncTask(task).sent).yielded <= ValArgs(ItemsOf(task))
  {
    RepliesInLanguage(task);
    BodySends(task);
    BodyItems(task);
    var p, s := Body(task), AsyncTask(task).sent;
    assert s == p.sent || s[..|s| - 1] == p.sent;
    if !AllStream(s) && p.raised.None? && task.functor.Some? && task.functor.value.Rep? {
      assert |s| == 1;
    }
  }
}
