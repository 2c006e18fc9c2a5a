/** Multipart messages on a socket, under interruption: a try to send or receive one part
    may raise (the greenlet was killed, or a timeout fired) and is then tried once more.
    And the envelope that `Events` wraps around an event. */
module Multipart {
  import opened Protocol

  /** One part on the wire; `more` says that another follows. */
  datatype Frame = Frame(data: string, more: bool)

  /** A message as frames: all but the last announce more. */
  function Frames(parts: seq<string>): (r: seq<Frame>)
    ensures |r| == |parts|
    ensures forall i :: 0 <= i < |parts| ==> r[i] == Frame(parts[i], i < |parts| - 1)
  {
    seq(|parts|, i requires 0 <= i < |parts| => Frame(parts[i], i < |parts| - 1))
  }

  /** Whole messages one after the other. */
  function Join(messages: seq<seq<string>>): seq<Frame> {
    if messages == [] then [] else Frames(messages[0]) + Join(messages[1..])
  }

  // ---- sending ------------------------------------------------------------------

  /** How a call of `_send` ended: the parts that went out, whether it raised, and the tries
      it made. */
  datatype Sending = Sending(count: nat, raised: bool, tries: nat)

  /** From part `i` of `n`, with try number `k` next; `fails(k)` says whether it raises, and
      `hit` whether an earlier one did. */
  function SendFrom(n: nat, i: nat, k: nat, fails: nat -> bool, hit: bool): (r: Sending)
    requires i <= n
    ensures r.count <= n
    decreases n - i
  {
    if i == n then Sending(n, hit || n == 0, k)   // parts[-1] of no parts raises
    else if !fails(k) then SendFrom(n, i + 1, k + 1, fails, hit)
    else if i == 0 && n > 1 then Sending(0, true, k + 1)
    else if fails(k + 1) then Sending(i, true, k + 2)
    else SendFrom(n, i + 1, k + 2, fails, true)
  }

  class Socket {
    const fails: nat -> bool
    var tries: nat
    var wire: seq<Frame>

    constructor (fails: nat -> bool)
      ensures this.fails == fails && tries == 0 && wire == []
    {
      this.fails := fails;
      tries, wire := 0, [];
    }

    /** A send that raises has not sent. */
    method SendPart(data: string, more: bool) returns (raised: bool)
      modifies this
      ensures raised == fails(old(tries)) && tries == old(tries) + 1
      ensures wire == old(wire) + if raised then [] else [Frame(data, more)]
    {
      raised := fails(tries);
      tries := tries + 1;
      if !raised {
        wire := wire + [Frame(data, more)];
      }
    }

    /** `SequentialSender._send` */
    method Send(parts: seq<string>) returns (raised: bool)
      modifies this
      ensures var r := SendFrom(|parts|, 0, old(tries), fails, false);
              raised == r.raised && tries == r.tries && r.count <= |parts|
              && wire == old(wire) + Frames(parts)[..r.count]
    {
      var n, i, hit := |parts|, 0, false;
      ghost var start, k0 := wire, tries;
      if n == 0 { return true; }
      while i < n - 1
        invariant 0 <= i <= n - 1 && tries >= k0
        invariant wire == start + Frames(parts)[..i]
        invariant SendFrom(n, i, tries, fails, hit) == SendFrom(n, 0, k0, fails, false)
      {
        assert Frames(parts)[..i] + [Frames(parts)[i]] == Frames(parts)[..i + 1];
        raised := SendPart(parts[i], true);
        if raised {
          hit := true;
          if i == 0 { return true; }
          raised := SendPart(parts[i], true);
          if raised { return true; }
        }
        i := i + 1;
      }
      assert Frames(parts)[..i] + [Frames(parts)[i]] == Frames(parts)[..n];
      raised := SendPart(parts[i], false);
      if raised {
        hit := true;
        raised := SendPart(parts[i], false);
        if raised { return true; }
      }
      raised := hit;
    }
  }

  /** Was a second try of a part interrupted as well? */
  predicate RetryFailed(fails: nat -> bool, from: nat, to: nat) {
    exists k: nat :: from <= k && k + 1 < to && fails(k) && fails(k + 1)
  }

  lemma {:induction false} SendFromShape(n: nat, i: nat, k: nat, fails: nat -> bool, hit: bool)
    requires i < n
    ensures var r := SendFrom(n, i, k, fails, hit);
            && i <= r.count <= n && r.tries > k
            && (!r.raised ==> r.count == n)
            && (RetryFailed(fails, k, r.tries) ==> r.raised && r.count < n && (n > 1 ==> r.count >= 1))
            && (r.count < n ==> RetryFailed(fails, k, r.tries) || (i == 0 && n > 1 && r.count == 0))
    decreases n - i
  {
    if !fails(k) {
      if i + 1 < n { SendFromShape(n, i + 1, k + 1, fails, hit); }
    } else if (i > 0 || n == 1) && !fails(k + 1) {
      if i + 1 < n { SendFromShape(n, i + 1, k + 2, fails, true); }
    }
  }

  /** Was any try interrupted? */
  predicate Interrupted(fails: nat -> bool, from: nat, to: nat) {
    exists j: nat :: from <= j < to && fails(j)
  }

  /** An interruption is never swallowed: a call raises exactly if one of its tries did, also
      if the second try went through and all the parts are sent, or if there are no parts. */
  lemma {:induction false} SendRaisesIff(n: nat, i: nat, k: nat, fails: nat -> bool, hit: bool)
    requires i <= n
    ensures var r := SendFrom(n, i, k, fails, hit);
            r.tries >= k && (r.raised <==> n == 0 || hit || Interrupted(fails, k, r.tries))
    decreases n - i
  {
    if i < n {
      if !fails(k) {
        SendRaisesIff(n, i + 1, k + 1, fails, hit);
      } else if (i > 0 || n == 1) && !fails(k + 1) {
        SendRaisesIff(n, i + 1, k + 2, fails, true);
      }
    }
  }

  lemma JoinAppend(messages: seq<seq<string>>, m: seq<string>)
    ensures Join(messages + [m]) == Join(messages) + Frames(m)
  {
    if messages == [] {
      assert [m][1..] == [] && [] + [m] == [m];
    } else {
      assert (messages + [m])[1..] == messages[1..] + [m];
      JoinAppend(messages[1..], m);
    }
  }

  /** A call sends all the parts or none, so the wire stays a row of whole messages, exactly
      unless a second try of a part of a longer message is interrupted too.  A call that
      returns has sent them all. */
  lemma SendIsAtomicIff(messages: seq<seq<string>>, parts: seq<string>, k: nat, fails: nat -> bool)
    requires parts != []
    ensures var r := SendFrom(|parts|, 0, k, fails, false);
            && r.count <= |parts|
            && (r.count == 0 || r.count == |parts| <==> |parts| == 1 || !RetryFailed(fails, k, r.tries))
            && (r.count == 0 ==> Join(messages) + Frames(parts)[..r.count] == Join(messages))
            && (r.count == |parts| ==> Join(messages) + Frames(parts)[..r.count] == Join(messages + [parts]))
            && (!r.raised ==> r.count == |parts|)
  {
    SendFromShape(|parts|, 0, k, fails, false);
    JoinAppend(messages, parts);
    assert Frames(parts)[..|parts|] == Frames(parts);
  }

  /** What a row of calls puts on the wire, and the messages among them that were sent. */
  function WireOf(calls: seq<seq<string>>, k: nat, fails: nat -> bool): seq<Frame> {
    if calls == [] then []
    else
      var r := SendFrom(|calls[0]|, 0, k, fails, false);
      Frames(calls[0])[..r.count] + WireOf(calls[1..], r.tries, fails)
  }

  function SentOf(calls: seq<seq<string>>, k: nat, fails: nat -> bool): seq<seq<string>> {
    if calls == [] then []
    else
      var r := SendFrom(|calls[0]|, 0, k, fails, false);
      (if r.count == |calls[0]| then [calls[0]] else []) + SentOf(calls[1..], r.tries, fails)
  }

  /** No second try of a part of a longer message is interrupted, in any of the calls. */
  ghost predicate RetriesHold(calls: seq<seq<string>>, k: nat, fails: nat -> bool) {
    calls != [] ==>
      var r := SendFrom(|calls[0]|, 0, k, fails, false);
      (|calls[0]| <= 1 || !RetryFailed(fails, k, r.tries)) && RetriesHold(calls[1..], r.tries, fails)
  }

  lemma FirstCall(calls: seq<seq<string>>, k: nat, fails: nat -> bool)
    requires calls != []
    ensures var c, r := calls[0], SendFrom(|calls[0]|, 0, k, fails, false);
            var (wire, sent) := (WireOf(calls[1..], r.tries, fails), SentOf(calls[1..], r.tries, fails));
            && (r.count == 0 || r.count == |c| <==> |c| <= 1 || !RetryFailed(fails, k, r.tries))
            && |WireOf(calls, k, fails)| == r.count + |wire|
            && |Join(SentOf(calls, k, fails))| == (if r.count == |c| then r.count else 0) + |Join(sent)|
            && ((r.count == 0 || r.count == |c|) && wire == Join(sent) ==>
                 WireOf(calls, k, fails) == Join(SentOf(calls, k, fails)))
  {
    var c, r := calls[0], SendFrom(|calls[0]|, 0, k, fails, false);
    if c != [] { SendIsAtomicIff([], c, k, fails); }
    assert Frames(c)[..|c|] == Frames(c);
    var sent := SentOf(calls[1..], r.tries, fails);
    if r.count == |c| {
      assert SentOf(calls, k, fails) == [c] + sent;
      assert SentOf(calls, k, fails)[1..] == sent;
    } else {
      assert SentOf(calls, k, fails) == sent;
    }
  }

  /** A message cut short leaves more on the wire than the messages that were sent. */
  lemma {:induction false} NoLessOnTheWire(calls: seq<seq<string>>, k: nat, fails: nat -> bool)
    ensures |WireOf(calls, k, fails)| >= |Join(SentOf(calls, k, fails))|
    ensures !RetriesHold(calls, k, fails) ==> |WireOf(calls, k, fails)| > |Join(SentOf(calls, k, fails))|
    decreases |calls|
  {
    if calls != [] {
      FirstCall(calls, k, fails);
      NoLessOnTheWire(calls[1..], SendFrom(|calls[0]|, 0, k, fails, false).tries, fails);
    }
  }

  /** For any row of calls and any pattern of interruptions, the wire is the messages that
      were sent, whole, in the order of the calls, exactly if no second try is interrupted. */
  lemma {:induction false} WireIsWholeMessagesIff(calls: seq<seq<string>>, k: nat, fails: nat -> bool)
    ensures WireOf(calls, k, fails) == Join(SentOf(calls, k, fails)) <==> RetriesHold(calls, k, fails)
    decreases |calls|
  {
    NoLessOnTheWire(calls, k, fails);
    if calls != [] && RetriesHold(calls, k, fails) {
      FirstCall(calls, k, fails);
      WireIsWholeMessagesIff(calls[1..], SendFrom(|calls[0]|, 0, k, fails, false).tries, fails);
    }
  }

  // ---- receiving -------------------------------------------------------------------

  datatype End = Got(parts: seq<string>) | Raised | Blocks

  /** How a call of `_recv` ended, the frames it took, and the tries it made. */
  datatype Receiving = Receiving(end: End, used: nat, tries: nat)

  /** With `parts` already received and `stream` still to come. */
  function RecvFrom(stream: seq<Frame>, parts: seq<string>, k: nat, fails: nat -> bool, hit: bool): Receiving
    decreases |stream|
  {
    if fails(k) && parts == [] then Receiving(Raised, 0, k + 1)
    else if fails(k) && fails(k + 1) then Receiving(Raised, 0, k + 2)
    else
      var k' := if fails(k) then k + 2 else k + 1;
      var hit' := hit || fails(k);
      if stream == [] then Receiving(Blocks, 0, k')
      else
        var got := parts + [stream[0].data];
        if !stream[0].more then Receiving(if hit' then Raised else Got(got), 1, k')
        else
          var r := RecvFrom(stream[1..], got, k', fails, hit');
          r.(used := r.used + 1)
  }

  function Plus(r: Receiving, used: nat): Receiving {
    r.(used := r.used + used)
  }

  datatype Try = Interrupted | Waits | Part(frame: Frame)

  class Source {
    const fails: nat -> bool
    var tries: nat
    var stream: seq<Frame>

    constructor (fails: nat -> bool, stream: seq<Frame>)
      ensures this.fails == fails && this.stream == stream && tries == 0
    {
      this.fails, this.stream := fails, stream;
      tries := 0;
    }

    /** A receive that raises has not taken anything; with nothing to take it blocks. */
    method RecvPart() returns (r: Try)
      modifies this
      ensures tries == old(tries) + 1
      ensures r == if fails(old(tries)) then Interrupted else if old(stream) == [] then Waits else Part(old(stream)[0])
      ensures stream == if r.Part? then old(stream)[1..] else old(stream)
    {
      r := if fails(tries) then Interrupted else if stream == [] then Waits else Part(stream[0]);
      tries := tries + 1;
      if r.Part? { stream := stream[1..]; }
    }

    /** `SequentialReceiver._recv` */
    method Recv() returns (end: End)
      modifies this
      ensures var r := RecvFrom(old(stream), [], old(tries), fails, false);
              end == r.end && tries == r.tries && r.used <= |old(stream)| && stream == old(stream)[r.used..]
    {
      var parts, hit := [], false;
      ghost var start, k0, used := stream, tries, 0;
      while true
        invariant used <= |start| && stream == start[used..]
        invariant RecvFrom(start, [], k0, fails, false) == Plus(RecvFrom(stream, parts, tries, fails, hit), used)
        decreases |stream|
      {
        var part := RecvPart();
        if part.Interrupted? {
          if parts == [] { return Raised; }
          part := RecvPart();
          if part.Interrupted? { return Raised; }
          hit := true;
        }
        if part.Waits? { return Blocks; }
        parts, used := parts + [part.frame.data], used + 1;
        assert stream == start[used..];
        if !part.frame.more { break; }
      }
      end := if hit then Raised else Got(parts);
    }
  }

  lemma {:induction false} RecvFromShape(m: seq<string>, i: nat, rest: seq<Frame>, k: nat, fails: nat -> bool,
                                         hit: bool)
    requires i < |m|
    ensures var r := RecvFrom(Frames(m)[i..] + rest, m[..i], k, fails, hit);
            && r.used <= |m| - i && r.tries > k && !r.end.Blocks?
            && (r.end.Got? ==> r.end.parts == m && r.used == |m| - i)
            && (i == 0 && r.used == 0 <==> i == 0 && fails(k))
            && (r.used < |m| - i && (i > 0 || r.used > 0) <==> RetryFailed(fails, k, r.tries))
            && (hit ==> r.end.Raised?)
            && (r.end.Got? <==> !hit && !Interrupted(fails, k, r.tries))
    decreases |m| - i
  {
    var s := Frames(m)[i..] + rest;
    assert s[0] == Frames(m)[i] && s[1..] == Frames(m)[i + 1..] + rest;
    assert m[..i] + [m[i]] == m[..i + 1];
    if !fails(k) {
      if i + 1 < |m| { RecvFromShape(m, i + 1, rest, k + 1, fails, hit); } else { assert m[..i + 1] == m; }
    } else if i > 0 && !fails(k + 1) {
      if i + 1 < |m| { RecvFromShape(m, i + 1, rest, k + 2, fails, true); } else { assert m[..i + 1] == m; }
    }
  }

  /** On a stream of whole messages, a call takes the next message or nothing, and so leaves
      the stream at a message boundary, exactly unless a second try is interrupted too.  A
      call that returns gives the next message; one interrupted in the middle loses it.  A
      call returns exactly if none of its tries was interrupted. */
  lemma RecvStopsAtBoundaryIff(messages: seq<seq<string>>, k: nat, fails: nat -> bool)
    requires messages != [] && messages[0] != []
    ensures var r := RecvFrom(Join(messages), [], k, fails, false);
            && r.used <= |Join(messages)| && !r.end.Blocks?
            && (r.used == 0 || r.used == |messages[0]| <==> !RetryFailed(fails, k, r.tries))
            && (r.used == |messages[0]| ==> Join(messages)[r.used..] == Join(messages[1..]))
            && (r.end.Got? ==> r.end.parts == messages[0] && r.used == |messages[0]|)
            && (r.end.Got? <==> !Interrupted(fails, k, r.tries))
            && (r.used == 0 <==> fails(k))
  {
    var m, rest := messages[0], Join(messages[1..]);
    RecvFromShape(m, 0, rest, k, fails, false);
    assert Frames(m)[0..] + rest == Join(messages);
    assert m[..0] == [];
  }

  /** Left in peace, a call waits exactly as long as no last part has come, having taken all
      that has. */
  lemma {:induction false} RecvWaitsIff(stream: seq<Frame>, parts: seq<string>, k: nat, fails: nat -> bool)
    requires forall j: nat :: !fails(j)
    ensures var r := RecvFrom(stream, parts, k, fails, false);
            && (r.end.Blocks? <==> forall f :: f in stream ==> f.more)
            && (r.end.Blocks? ==> r.used == |stream|)
    decreases |stream|
  {
    if stream != [] {
      assert stream == [stream[0]] + stream[1..];
      if stream[0].more {
        RecvWaitsIff(stream[1..], parts + [stream[0].data], k + 1, fails);
      }
    }
  }

  lemma {:induction false} CalmRecv(stream: seq<Frame>, parts: seq<string>, k: nat, fails: nat -> bool)
    requires forall j: nat :: !fails(j)
    ensures !RecvFrom(stream, parts, k, fails, false).end.Raised?
    decreases |stream|
  {
    if stream != [] && stream[0].more {
      CalmRecv(stream[1..], parts + [stream[0].data], k + 1, fails);
    }
  }

  /** A wire of whole messages can be read in one way only. */
  lemma {:induction false} JoinIsInjective(ms: seq<seq<string>>, ns: seq<seq<string>>)
    requires (forall m :: m in ms ==> m != []) && (forall n :: n in ns ==> n != [])
    ensures Join(ms) == Join(ns) <==> ms == ns
    decreases |ms|
  {
    if ms != [] && ns != [] && Join(ms) == Join(ns) {
      var m, n, no := ms[0], ns[0], (k: nat) => false;
      assert m in ms && n in ns;
      RecvStopsAtBoundaryIff(ms, 0, no);
      RecvStopsAtBoundaryIff(ns, 0, no);
      CalmRecv(Join(ms), [], 0, no);
      assert Join(ms[1..]) == Join(ns[1..]);
      assert forall x :: x in ms[1..] ==> x in ms;
      assert forall x :: x in ns[1..] ==> x in ns;
      JoinIsInjective(ms[1..], ns[1..]);
      assert ms == [m] + ms[1..] && ns == [n] + ns[1..];
    } else if ms != [] {
      assert ms[0] in ms;
    } else if ns != [] {
      assert ns[0] in ns;
    }
  }

  // ---- the envelope ------------------------------------------------------------------

  datatype SocketType = Dealer | Router | OtherType

  /** The parts `Events.emit_event` makes of a packed event; no identity, or an empty one,
      is falsy. */
  function Envelope(identity: Option<seq<string>>, kind: SocketType, blob: string): seq<string> {
    if identity.Some? && identity.value != [] then identity.value + ["", blob]
    else if kind.OtherType? then [blob]
    else ["", blob]
  }

  /** What `Events.recv` makes of the parts. */
  function Unwrap(parts: seq<string>): (Option<seq<string>>, string)
    requires parts != []
  {
    var n := |parts|;
    if n > 2 then (Some(parts[..n - 2]), parts[n - 1])
    else if n == 2 then (Some(parts[..1]), parts[1])
    else (None, parts[0])
  }

  /** The parts on the wire: the event last; before it, on a DEALER or ROUTER and whenever
      there is an identity, one empty part; and before that the identity, if any. */
  lemma EnvelopeParts(identity: Option<seq<string>>, kind: SocketType, blob: string)
    ensures var parts := Envelope(identity, kind, blob); var n := |parts|;
            var name := if identity.Some? then identity.value else [];
            && n >= 1 && parts[n - 1] == blob
            && (n == 1 <==> name == [] && kind.OtherType?)
            && (n > 1 ==> parts[n - 2] == "" && parts[..n - 2] == name)
  {
  }

  /** The event survives the envelope, and so does an identity that is not empty.  Without
      one, a DEALER or ROUTER event comes back with the empty delimiter as its identity. */
  lemma EnvelopeRoundTrip(identity: Option<seq<string>>, kind: SocketType, blob: string)
    ensures Unwrap(Envelope(identity, kind, blob)).1 == blob
    ensures Unwrap(Envelope(identity, kind, blob)).0 ==
              if identity.Some? && identity.value != [] then identity else if kind.OtherType? then None else Some([""])
  {
    var parts := Envelope(identity, kind, blob);
    if identity.Some? && identity.value != [] {
      assert parts[..|parts| - 2] == identity.value;
    } else if !kind.OtherType? {
      assert parts[..1] == [""];
    }
  }

  /** A ROUTER puts the peer's name in front of what it receives from it, and takes it off,
      to choose the peer, from what it sends. */
  function RouterIn(peer: string, parts: seq<string>): seq<string> {
    [peer] + parts
  }

  /** A reply made with the identity of a DEALER's request goes back to that peer, as the
      parts a DEALER would have sent: nothing of the envelope reaches the event. */
  lemma ReplyReturnsToPeer(peer: string, request: string, reply: string)
    ensures var (identity, blob) := Unwrap(RouterIn(peer, Envelope(None, Dealer, request)));
            && blob == request
            && Envelope(identity, Router, reply) == RouterIn(peer, Envelope(None, Dealer, reply))
            && Unwrap(Envelope(identity, Router, reply)[1..]).1 == reply
  {
    var parts := RouterIn(peer, Envelope(None, Dealer, request));
    assert parts == [peer, "", request] && parts[..1] == [peer];
    assert Envelope(Some([peer]), Router, reply) == [peer, "", reply];
    assert [peer, "", reply][1..] == ["", reply];
  }
}
