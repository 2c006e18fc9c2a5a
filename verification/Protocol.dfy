/** The events that travel on a channel, as records.  The msgpack encoding is
    not part of this model: an event is what `Event.unpack` gives back. */
module Protocol {

  datatype Option<+T> = None | Some(value: T)

  /** A message id: 8 hexadecimal digits and a 24-character base. */
  type Id = string

  /** An application value.  The channel stack carries it and never looks inside. */
  type Payload = int

  datatype Name = ZpcHb | ZpcMore | OK | ERR | STREAM | STREAM_DONE | Method(called: string)

  /** `Num(k)` is the tuple `(k,)`, the only shape on which `int(args[0])` succeeds. */
  datatype Args = Nothing | Num(amount: int) | Val(payload: Payload) | Parts(parts: seq<string>)

  datatype Event = Event(name: Name, args: Args, msgId: Id, respTo: Option<Id>, v: Option<int>)

  /** The room in a channel's own queue, and in the broadcast queue. */
  const QUEUE_SIZE := 1

  /** Control events belong to the stack; every other event is data of the application. */
  predicate IsControl(e: Event) {
    e.name.ZpcHb? || e.name.ZpcMore?
  }

  /** The data events of a sequence, in order. */
  function Data(s: seq<Event>): (r: seq<Event>)
    ensures |r| <= |s|
    ensures forall e :: e in r ==> e in s && !IsControl(e)
  {
    if s == [] then [] else (if IsControl(s[0]) then [] else [s[0]]) + Data(s[1..])
  }

  lemma {:induction false} DataConcat(s: seq<Event>, t: seq<Event>)
    ensures Data(s + t) == Data(s) + Data(t)
  {
    if s == [] {
      assert s + t == t;
    } else {
      assert (s + t)[1..] == s[1..] + t;
      DataConcat(s[1..], t);
    }
  }

  lemma DataAppend(s: seq<Event>, e: Event)
    ensures Data(s + [e]) == Data(s) + (if IsControl(e) then [] else [e])
  {
    DataConcat(s, [e]);
    assert [e][1..] == [];
  }

  /** A sequence of data events is its own data. */
  lemma {:induction false} DataOfData(s: seq<Event>)
    requires forall e :: e in s ==> !IsControl(e)
    ensures Data(s) == s
  {
    if s != [] {
      DataOfData(s[1..]);
      assert s == [s[0]] + s[1..];
    }
  }
}
