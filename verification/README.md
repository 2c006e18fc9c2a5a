# Verified model of the zerorpc channel stack

A zerorpc call runs over a stack of layers, one object each: `Events` puts multipart
messages on a socket; a `ChannelMultiplexer` routes incoming events to `Channel`s by their
`response_to`; on each channel a `HeartBeatOnChannel` detects a lost peer and hides the
difference between protocol 2 and protocol 3; on top a `BufferedChannel` controls the flow
with credit; and the RPC patterns (`ReqRep`, `ReqStream`) make calls out of it. Everything
runs in greenlets that yield to each other when they wait. This project models the stack as
state machines whose atomic steps end where the code can yield, and proves what holds over
every schedule.

| module | what it holds |
|---|---|
| `Protocol` | events as records, and the data events of a sequence |
| `Buffering` | one `BufferedChannel` as a value, each atomic step a function |
| `Credit`, `CreditLaws` | both ends of a channel over two FIFO links; the invariant every step keeps; conservation, exactly-once FIFO, overflow, deadlock, cost of grants |
| `Starvation` | what a grant that fails does to a channel, exactly |
| `Rpc` | what a server task sends, on every path; what a client makes of a reply |
| `Call` | a whole call, client and server task over flow control: what the client sees, how many steps it takes, when it can end |
| `Heartbeat`, `HeartbeatLaws`, `Liveness`, `Passivity` | the failure detector and the version renaming; detection bounds; two live peers in real time, both active, and one of them passive |
| `Generations` | one end that faces a peer of either protocol: under which name its grants go out |
| `Multiplex`, `Stack`, `StackLaws` | two multiplexers with any number of channels, every greenlet a step; refinement of `Credit` on every channel; routing, dispatcher progress, deadlock freedom |
| `CallOnStack` | a call inside that stack, interleaved with all the rest: it refines `Call`, and it goes on |
| `Layers`, `Greenlets` | the layers as objects with the source's fields, updated in place; each method, and each greenlet's loop, tied to the value-level steps above |
| `MessageIds` | `Context.new_msgid` and the uniqueness the multiplexer relies on |
| `Multipart` | multipart send and receive under interruption; the envelope |

How the proofs fit together: `Layers` and `Greenlets` tie the objects to the step functions of
`Buffering` and `Heartbeat` and to the routing of `Multiplex`. `Multiplex` and `Stack` compose
those functions into the whole system, and `StackRefinesCredit` shows that each channel of it is
a run of `Credit`. The laws of `Credit` then give the dispatcher its progress. `Call` adds the
client and the server task of `Rpc` to one channel of `Credit`, and `CallOnStack` carries its
results to a call in the whole stack.

What the code asks of its surroundings, and where it appears:

* Links are reliable and FIFO. Message ids are distinct (`Stack.Can`, and the `requires` of
  `Layers.Channel.constructor` and `NewEvent`); `MessageIds.IdsAreUnique` says when they are.
* An emit that raises has not sent. Whether it raises is an input of each step.
* The first event of a channel is its request (`Stack.Can`). The heartbeats of a client's
  channel start before the request is made (zerorpc/core.py:259-265); a context hook that takes
  as long as their interval lets a heartbeat come first. `StackLaws.RoutedIffRequestsFirst`
  states exactly what depends on this.
* One emitter and one reader per channel, and `emit_event` without a timeout, as the RPC
  patterns use them. What a timed-out emit does is stated exactly in
  `CreditLaws.EmitKeepsCreditIffSlotOpen`.
* The client's `slots` is any size but 0, for which `CreditLaws.OverflowIffSizeZero` shows the
  overflow. Size 1 is not excluded: what it can still do is stated exactly.

## Where the properties one would expect are false

Each of these is proved as an equivalence: it holds exactly when the condition does.

* A queue can overflow if and only if some queue was made with size 0 (`OverflowIffSizeZero`).
* With both ends open, credit is conserved in a direction if and only if no grant of its reader
  failed to go out (`CreditIsConserved`): `_request_data` books before it emits
  (zerorpc/channel.py:239-242), and does not take the booking back. More than half the size then
  stays booked, so that end never asks for credit again (`NoGrantAfterFailure`). From a
  reachable state the sender and the reader can get stuck, with both ends open and no further
  failure, if and only if a grant has failed (`StickIffGrantFailed`); `StuckIsReachable` gives such a state for all
  sizes, and `StarvedForever` says that nothing either end does gets another event through.
* A second event can follow the first if and only if the receiver's size is at least 2
  (`SecondEventIffSizeTwo`): with size 1, `size // 2` is 0 and no grant is ever sent. So a call
  can finish if and only if the server's reply ends, and the client has two slots or the reply
  is one event (`FinishesIffReplyEnds`).
* Emitting past the gate keeps the credit law if and only if a slot is open at that moment
  (`EmitKeepsCreditIffSlotOpen`). `emit_event` ignores what `wait` returned
  (zerorpc/channel.py:229-232), so a wait that timed out sends all the same and takes the
  count of slots to -1. tests/test_buffered_channel.py:424-439 expects `TimeoutExpired` there;
  the model follows the code.
* Every event but heartbeats finds its channel until that end closes it, if and only if the
  first event of a channel is always its request (`RoutedIffRequestsFirst`). After a heartbeat
  that came first, the request is a response on a channel that the server may not have made yet,
  and is dropped (`RequestIsLost`).
* A dispatcher blocked on a channel gets free, without the application's help, if and only if
  that channel is open and the next event its buffer is given does not close it
  (`ReleasedIffChannelStaysOpen`). Otherwise it is blocked for good, and every other channel with
  it; `WedgedIsReachable` gives a run of a client whose call times out. A call on another channel
  goes on unless that happens (`CallOnStack.CallNeverSticks`).
* A task sends a whole reply if and only if it does not end silently (`RepliesInLanguage`):
  a function that lets `LostRemote` escape, for one, sends no ERR.
* Two live active peers never lose each other if and only if heartbeats take no longer than the
  heartbeat interval (`NoFalseLossIffPrompt`). If one of them is passive, they must take less
  than the interval (`NoFalseLossIffQuick`): its first heartbeat is an answer, and comes a round
  trip and a sleep after the other's.
* A grant can go out before the peer's generation is known, and turn out to be named for the
  wrong protocol, if and only if the size is at least 4 (`EarlyGrantIffSizeFour`), by a `recv`
  after a first one that timed out. Without that timeout every grant has the name that the
  peer understands (`GrantsAreWellNamed`).
* A multipart message is sent whole or not at all if and only if no second try of a part is
  interrupted (`SendIsAtomicIff`, `WireIsWholeMessagesIff`), and the receiving side likewise
  (`RecvStopsAtBoundaryIff`). A receive interrupted in the middle consumes and loses a message.

Three more places where code and documentation differ; the model follows the code.
doc/protocol.md:153 gives a heartbeat null arguments, and the code sends `(0,)`, which a
protocol 2 peer reads as a grant of 0. doc/protocol.md:155 says that a remote is lost after two
heartbeat intervals; the code notices up to one interval later (`SilenceIsDetected`), and
after four if it never heard anything (`NeverHeardIsLostAtFour`). doc/protocol.md:169 says
that the arguments of a grant are an integer; the code sends a tuple of one.

## Model

| member | source | states |
|---|---|---|
| Credit.PerformKeeps | zerorpc/channel.py:197-260 | every atomic step of one end (emit past the gate, wait, wake-up, delivery, entering and leaving `recv`, timeout, `on_close_if`, close) keeps the ledger of credit and the account of where each event is, in both directions |
| Credit.NeverOverflows | zerorpc/channel.py:215-217 | in a state that keeps the invariant the queue has room for whatever data event arrives next |
| Credit.WokenHasSlot | zerorpc/channel.py:213-214 | a waiting emitter whose flag is set has a slot, so the `if` around `wait` need not be a loop |
| Credit.EnterKeeps | zerorpc/channel.py:239-252 | entering `recv` keeps the ledger: the credit booked in `_input_queue_reserved` is the credit on the link, or is accounted as lost when emitting the grant raises |
| Credit.ShutKeeps | zerorpc/channel.py:197-223 | closing an end, with data and credit still on its link, keeps the account of both directions |
| Credit.RunKeeps | zerorpc/channel.py:168-260 | the invariant holds after every schedule of both ends |
| CreditLaws.CreditIsConserved | zerorpc/channel.py:170-260 | in every reachable state with both ends open and each direction: reserved = peer's open slots + data on the way + queued + credit in grants on the way, iff no grant of the reader failed; slots are never negative, reserved never above the size, in any case |
| CreditLaws.OverflowIffSizeZero | zerorpc/channel.py:215-217 | the overflow error can be reached at some end iff some queue was made with size 0 |
| CreditLaws.DeliveredInOrderOnce | zerorpc/channel.py:205-260 | what `recv` returned is a prefix of what the peer emitted; while the reader is open consumed, queued and in flight make up exactly the emitted sequence; no control event gets out of `recv` |
| CreditLaws.NoGrantAfterFailure | zerorpc/channel.py:239-252 | an end whose grant failed once never asks for credit again |
| Starvation.StickIffGrantFailed | zerorpc/channel.py:228-260 | from a reachable state with both ends open and size 2 or more, a waiting emitter, a reader waiting on an empty queue and nothing in flight can come about, with no further failed grant, iff a grant has failed |
| Starvation.StuckIsReachable | zerorpc/channel.py:239-242 | for all sizes a run with one failed grant ends in such a state |
| Starvation.StarvedForever | zerorpc/channel.py:228-260 | once credit is used up after a failed grant, no run emits or consumes another event in that direction |
| CreditLaws.DeadlockFree | zerorpc/channel.py:228-260 | in every reachable state with both ends open, a waiting emitter and a waiting reader, some delivery, wake-up or read is possible, or a grant has failed |
| CreditLaws.EmittedWithinCredit | zerorpc/channel.py:173-174 | events emitted plus slots still open never exceed the one initial slot plus what the reader granted |
| CreditLaws.InitialCreditIsOne | zerorpc/channel.py:173-177 | until the reader grants, at most one event has been emitted to it |
| CreditLaws.RecvAsksIffBelowHalf | zerorpc/channel.py:239-252 | entering `recv` with both ends open sends a grant iff it is not the first time and less than half of the queue is reserved; the grant is for all the room not reserved, and then the whole queue is |
| CreditLaws.RecvRaisesWithItsGrant | zerorpc/channel.py:239-252 | a `recv` whose grant raises does not wait and has booked all the room; one that needs no grant waits |
| CreditLaws.ReaderHasHalf | zerorpc/channel.py:244-260 | in every reachable state an open end that waits in `recv` after its first event has at least half of its queue reserved |
| CreditLaws.DeliverClosesIff | zerorpc/channel.py:215-223 | a data event closes an open end iff it finds room and `on_close_if` accepts it, whatever is queued; it is queued all the same, and without room it is not and the `_recver` ends |
| CreditLaws.DeliverOpensSlots | zerorpc/channel.py:208-214 | a grant opens the slots of its argument, none if that is no number, and sets the flag iff a slot is open |
| CreditLaws.FlagMeansGranted | zerorpc/channel.py:175-214 | the flag of a sender is set only once the other end has granted something |
| CreditLaws.FirstEmitNeverWaits | zerorpc/channel.py:228-237 | an end that has emitted nothing has a slot and does not wait, also after an emit that raised |
| CreditLaws.SecondEventIffSizeTwo | zerorpc/channel.py:239-252 | a second event can be emitted iff the reader's size is 2 or more |
| CreditLaws.EmitKeepsCreditIffSlotOpen | zerorpc/channel.py:228-237 | an emit past the gate keeps the invariant iff a slot is open; after a timed-out wait the slots go to -1 |
| CreditLaws.GrantOverhead | zerorpc/channel.py:239-252 | in every run G * (N - N//2 + 1) <= C + N - 1 for G grants sent and C events consumed |
| Rpc.ProcessRep | zerorpc/patterns.py:28-34 | `ReqRep.process_call` with a hook, the function or the emit raising at any point does what the specification of the reply says, including every emit it tried |
| Rpc.ProcessStream | zerorpc/patterns.py:54-65 | the loop of `ReqStream.process_call` sends the items in order, stops at the first emit that raises, and ends with STREAM_DONE |
| Rpc.RunTask | zerorpc/core.py:148-166 | the `try` of `_async_task` with its handlers sends what the specification of the task says, on every path |
| Rpc.BodySends | zerorpc/patterns.py:28-65 | the `try` block ends with a whole reply, or raises having sent stream items only |
| Rpc.RepliesInLanguage | zerorpc/core.py:148-163 | what a task sends is a prefix of OK, ERR or STREAM* (STREAM_DONE, ERR), and is whole iff the task does not end silently |
| Rpc.SentIsWhatDidNotRaise | zerorpc/core.py:148-166 | what a task sent is what it tried to send without the tries that raised, of which there are two at most |
| Rpc.TriesHaveOwnHeaders | zerorpc/core.py:148-166 | each event a task hands to the channel has the ids drawn for it |
| Rpc.RepSendsAtMostOnce | zerorpc/patterns.py:28-34 | each of the at most two emits of a request/reply task, also the ERR after an OK that raised, finds that nothing was sent before it |
| Rpc.BodyRaisesFirst | zerorpc/core.py:148-153 | what leaves the `try` block is the exception of the first thing that raises (a hook, the missing method, the function, its iterator or an emit), and the items sent before it are the function's own items up to there |
| Rpc.BodyRaisesIff | zerorpc/core.py:148-153 | the `try` block raises iff one of those things does |
| Rpc.TaskEndsWith | zerorpc/core.py:148-166 | a task in which nothing raises ends normally; a lost remote is forgotten; an exception that is no `Exception` leaves the task; of any other only what the ERR path raises does |
| Rpc.ReplyCarriesItems | zerorpc/patterns.py:54-65 | however a task ends, the values in what it sent are the first items of its function |
| Rpc.SelectIsTheOnlyPattern | zerorpc/core.py:213-218 | a pattern is selected iff it accepts the event; the order of the list does not matter |
| Rpc.ProcessResponse | zerorpc/core.py:220-238 | the client stops at the first event that ends the call, has read exactly what leads there, and reading on would change nothing |
| Rpc.ConsumeIsMeaning | zerorpc/patterns.py:39-92 | the client reads any legal reply as its meaning: the values of its items, then its ending |
| Rpc.FirstEventDecides | zerorpc/core.py:220-238 | what the client does with a first event of any name: a STREAM goes on, any other ends the call, an unknown name with an error of its own |
| Rpc.LaterEventDecides | zerorpc/patterns.py:77-90 | what the iterator does with a later event of any name: a STREAM goes on, an ERR raises, any other ends it |
| Rpc.RemoteErrorIff | zerorpc/core.py:201-211 | an ERR is a remote error iff it has three parts from a peer of version 2 or more, or one part from an older one or one without version |
| Rpc.StreamSeenAsProduced | zerorpc/patterns.py:54-92 | a stream in which nothing raises is seen as exactly its items and then the end |
| Rpc.ValueSeenAsReturned | zerorpc/patterns.py:28-51 | a function that returned is seen as its value |
| Rpc.ErrorSeenAsRaised | zerorpc/core.py:157-163 | the first exception is seen as a remote error with its parts, after exactly the function's items that were sent before it |
| Call.MoveKeeps | zerorpc/core.py:220-278 | every move of client, server task or link keeps the invariant of a call |
| Call.ClientSeesTheReply | zerorpc/patterns.py:28-92 | under every interleaving what the iterator yielded is a prefix of the items, and a finished call has all of them and the outcome the reply means |
| Call.ServerSeesTheRequest | zerorpc/core.py:147-153 | the one event the task reads is the request the client sent |
| Call.DoneIsQueuedAfterInstall | zerorpc/patterns.py:73-75 | a second event of a reply is only queued once `on_close_if` is installed; after the automatic close everything queued and read is the whole reply |
| Call.DoneClosesTheChannel | zerorpc/channel.py:219-223 | a STREAM_DONE after a STREAM closes the channel once it is queued, whatever is queued before it |
| Call.ClosedIteratorHasEvents | zerorpc/channel.py:244-260 | an iterator on an automatically closed channel always finds an event in the queue, the last of them STREAM_DONE, and sends no grant |
| Call.MoveShrinks | zerorpc/channel.py:205-260 | every move makes the weight of what is left to do smaller |
| Call.CallIsBounded | zerorpc/core.py:240-278 | every schedule of a call whose server tries M emits is over after at most 7M + 14 moves |
| Call.CallNeverSticks | zerorpc/channel.py:228-260 | until the call is finished or its first `recv` timed out, some move other than the timeout is possible |
| Call.CallCompletes | zerorpc/core.py:220-278 | a schedule that cannot go on has finished the call with the items and outcome of the reply, unless the first `recv` timed out |
| Call.FinishesIffReplyEnds | zerorpc/core.py:261 | a call can finish iff the server's reply ends and the client has at least two slots or the reply is one event |
| Call.RepNeverWaits | zerorpc/channel.py:228-237 | in no schedule does the server of a request/reply function wait for credit, also not with the ERR after an OK whose emit raised |
| Call.ItemsEndToEnd | zerorpc/patterns.py:54-92 | whatever the function does, also when the task ends silently: what the iterator yielded are the first items produced |
| Call.StreamEndToEnd | zerorpc/patterns.py:54-92 | from the server's function to the client's iterator: exactly the items produced, in order, then the end |
| Call.ValueEndToEnd | zerorpc/patterns.py:28-51 | a call of a function that returned, when it ends, returns that value |
| Call.ErrorEndToEnd | zerorpc/core.py:157-163 | a call in which something raises, when it ends, raises the first exception as a remote error after exactly the function's items that were sent before it |
| CallOnStack.OwnFollows | zerorpc/core.py:220-278 | a move of the client or the server task in the stack is that move of `Call` |
| CallOnStack.AroundFollows | zerorpc/channel.py:75-223 | any other step of the stack is a delivery of `Call`, or nothing, for the call |
| CallOnStack.ClientSeesTheReply | zerorpc/patterns.py:28-92 | under every interleaving with dispatchers, heartbeats and all other channels the iterator yielded a prefix of the items, and a finished call has all of them and the outcome the reply means |
| CallOnStack.StreamEndToEnd | zerorpc/patterns.py:54-92 | through the whole stack: exactly the items the function produced, in order, then the end |
| CallOnStack.ErrorEndToEnd | zerorpc/core.py:157-163 | through the whole stack: the first exception, after exactly the items sent before it |
| CallOnStack.CallIsBounded | zerorpc/core.py:240-278 | the call takes at most 7M + 14 moves and deliveries of its own, however many steps the rest of the stack takes |
| CallOnStack.CallNeverSticks | zerorpc/channel.py:75-260 | until the call is finished or timed out, a greenlet of the stack or a move of the call is possible, unless a dispatcher is blocked on a channel its end has closed |
| CallOnStack.CallCompletes | zerorpc/core.py:220-278 | where none is possible and no dispatcher is so blocked, the call has finished with the items and the outcome of the reply, or timed out |
| HeartbeatLaws.LostForever | zerorpc/heartbeat.py:73-88 | once the remote is lost it stays lost, and a late heartbeat does not restart the heartbeats |
| HeartbeatLaws.PassiveBeatsOnceItHears | zerorpc/heartbeat.py:84-102 | a passive layer is silent until it hears a heartbeat and beats from then until the loss; its clock is that of the last heartbeat heard, in any row of turns |
| HeartbeatLaws.SilentForever | zerorpc/heartbeat.py:86-88 | a closed layer, and one with heartbeats turned off, never starts them |
| HeartbeatLaws.SilenceIsDetected | zerorpc/heartbeat.py:73-84 | after a last heartbeat at t the remote is lost iff a wake-up came after t + 2f, and the one that declares it comes in (t + 2f, t + 3f + jitter] |
| HeartbeatLaws.NeverHeardIsLostAtFour | zerorpc/heartbeat.py:73-84 | with exact sleeps and nothing ever heard the loss is declared at the fourth wake-up, 4f after the start, not before |
| HeartbeatLaws.FirstEventFixesGeneration | zerorpc/heartbeat.py:90-102 | for every row of arrivals the first decides: a protocol 3 peer's row comes up without its heartbeats, a protocol 2 peer's row with its heartbeats as grants |
| HeartbeatLaws.GenerationIsOfTheFirst | zerorpc/heartbeat.py:93-94 | in any row of turns `_compat_v2` is set by the first event that comes, of whatever name, and never changes |
| HeartbeatLaws.NoBeatGetsThrough | zerorpc/heartbeat.py:95-102 | no event named `_zpc_hb` ever leaves this layer upwards |
| HeartbeatLaws.RenamingRoundTrip | zerorpc/heartbeat.py:95-111 | an event renamed on the way out is renamed back on the way in, for a peer of either generation |
| HeartbeatLaws.LivenessBeatsAreNeutral | zerorpc/channel.py:208-214 | the 0-valued heartbeats of a protocol 2 peer leave slots and queue as if they had not come, in any row of arrivals |
| Generations.GrantsAreWellNamed | zerorpc/heartbeat.py:84-111 | whatever arrives, of any version: if the first `recv` did not time out, every grant sent so far has the name the peer's generation understands, and the next is not made before the generation is known |
| Generations.EarlyGrantIffSizeFour | zerorpc/channel.py:244-252 | a run can send a grant before anything arrived, and can send one under what turns out the wrong name, iff the size is 4 or more |
| Generations.MisnamedGrant | zerorpc/heartbeat.py:108-111 | for each such size: a first `recv` times out, a second sends `_zpc_more`, and then a protocol 2 event arrives |
| Liveness.NotLostAtWake | zerorpc/heartbeat.py:75-84 | while delay <= f, a wake-up finds the peer's last heartbeat no more than 2f old |
| Liveness.NextKeeps | zerorpc/heartbeat.py:73-102 | every step of two live peers (time passing, a wake-up, a heartbeat arriving) keeps the timing invariant |
| Liveness.NoFalseLossIffPrompt | zerorpc/heartbeat.py:73-102 | no schedule of two live peers started at most f apart declares a loss iff heartbeats take at most f |
| Passivity.PassiveNextKeeps | zerorpc/heartbeat.py:73-102 | every step of a live pair of which one peer is passive keeps the timing invariant |
| Passivity.NoFalseLossIffQuick | zerorpc/heartbeat.py:49-102 | no schedule of such a pair declares a loss iff heartbeats take less than f |
| Multiplex.DispatchPipe | zerorpc/channel.py:75-97 | taking an event off the link loses nothing and changes no order for any channel, unless it had no route |
| Multiplex.PutPipe | zerorpc/channel.py:84-97 | a put leaves what every channel will be given, and its order |
| Multiplex.StartPipe | zerorpc/channel.py:121-126 | a channel made for a request finds that request first, then what was on its way |
| Multiplex.BeatTakePipe | zerorpc/heartbeat.py:90-102 | the heartbeat greenlet of a protocol 3 channel swallows heartbeats and nothing else |
| Multiplex.BufTakePipe | zerorpc/channel.py:205-223 | the buffer of a channel is given exactly the head of what was on its way to that channel |
| Stack.StepCouples | zerorpc/channel.py:75-260 | every step of any greenlet is, on each channel, one step of `Credit` or none |
| Stack.StepSimulates | zerorpc/core.py:140-171 | every step of the two multiplexers keeps all channels coupled with `Credit` at once, the opening of channels at both ends included |
| Stack.StackRefinesCredit | zerorpc/channel.py:75-260 | every reachable state of the stack is on every channel a reachable state of `Credit`, with the channel's events in order on its links; a server's channel always has its client's end |
| Stack.OnlyTheRequest | zerorpc/core.py:258-267 | until the server's task has made its channel, the request is all there is on the way to it |
| Stack.Routability | zerorpc/channel.py:82-95 | when requests come first, an event that finds no route is a heartbeat, or is for a channel this end has closed |
| StackLaws.RoutedIffRequestsFirst | zerorpc/core.py:258-267 | that holds in every run iff the first event of a channel is always its request |
| StackLaws.RequestIsLost | zerorpc/channel.py:142-151 | a run in which a heartbeat opens the channel and the request finds none at the server |
| Stack.BufferNeverOverflows | zerorpc/channel.py:215-217 | in no reachable state of the stack does a `_recver` meet a full queue |
| Stack.ChannelNeverOvercommitted | zerorpc/channel.py:170-260 | on each channel of the stack with both ends open the credit reserved at an end covers slots, events on the way or queued, and grants on the way, and is at most that end's size, which is 100 at the server |
| Stack.DispatcherProgress | zerorpc/channel.py:75-97 | a blocked dispatcher's channel, while open, can take a step of its receive chain; blocked on a broadcast, the acceptor can go on |
| Stack.WedgedForever | zerorpc/channel.py:84-97 | a dispatcher holding an event for a full queue whose channel is closed, or is closed by its next event, holds it in every later state |
| StackLaws.WedgedIsReachable | zerorpc/channel.py:84-97 | a client's call that times out, and so closes, while two heartbeats are on their way up leads from the start to a dispatcher that nothing else can free |
| Stack.ReleasedIffChannelStaysOpen | zerorpc/channel.py:75-97 | a blocked dispatcher can get free without the application iff its channel is open and its next event does not close it |
| StackLaws.PipeGoesOn | zerorpc/channel.py:75-223 | while something is on its way to a channel that is open or not made yet, a greenlet of the stack can take a step, unless the dispatcher is blocked on a closed channel |
| StackLaws.StackDeadlockFree | zerorpc/channel.py:75-260 | so it can for every channel with a waiting emitter and a waiting reader of which no grant failed, among any number of other channels |
| Layers.ChannelMultiplexer.DispatchOne | zerorpc/channel.py:82-97 | one turn of the dispatcher puts the event in its target's queue and no other, or waits iff that queue is full |
| Layers.ChannelMultiplexer.Dispatch | zerorpc/channel.py:75-97 | the loop on any row of arrivals gives each queue exactly its share, in order, up to an event whose queue is full |
| Layers.SharesPartition | zerorpc/channel.py:82-95 | the shares take each event as often as it arrived, in its target's share only |
| Layers.Channel.constructor | zerorpc/channel.py:116-126 | a channel for a request is registered under the request's id with the request queued; one for a call is not registered yet |
| Layers.Channel.Close | zerorpc/channel.py:136-140 | removes the channel's own entry and no other; a second close changes nothing; the map's keys stay exactly the ids of open channels |
| Layers.Channel.NewEvent | zerorpc/channel.py:142-151 | the first event names and registers the channel, later ones are responses to it; the map stays consistent |
| Layers.HeartBeatOnChannel.constructor | zerorpc/heartbeat.py:39-51 | the state a new layer starts in, with the heartbeats running unless passive or turned off |
| Layers.HeartBeatOnChannel.Close | zerorpc/heartbeat.py:61-71 | ends both greenlets and closes the channel below, whose entry and no other leaves the map; closing again changes nothing |
| Layers.HeartBeatOnChannel.HeartbeatTurn | zerorpc/heartbeat.py:75-84 | one turn either sends a heartbeat or declares the loss, exactly as the clock of `Heartbeat` says, and kills the caller iff the layer was not closed |
| Layers.HeartBeatOnChannel.RecverTurn | zerorpc/heartbeat.py:90-102 | one turn fixes the generation, notes a heartbeat, and holds exactly what is to go up |
| Layers.HeartBeatOnChannel.NewEvent | zerorpc/heartbeat.py:108-111 | names the event for the peer's generation, with the channel's id |
| Layers.HeartBeatOnChannel.EmitEvent | zerorpc/heartbeat.py:113-116 | raises and sends nothing iff the remote is lost, the layer is closed or the layer below raises |
| Layers.HeartBeatOnChannel.Recv | zerorpc/heartbeat.py:118-124 | raises for ever once the remote is lost; otherwise gives what is held, or times out |
| Layers.BufferedChannel.constructor | zerorpc/channel.py:170-179 | one slot and one reserved entry on both sides of a new buffer |
| Layers.BufferedChannel.Close | zerorpc/channel.py:197-203 | closes the whole chain below; one entry leaves the map, none on a second close; what is queued stays queued |
| Layers.BufferedChannel.RecverCall | zerorpc/channel.py:207 | the `recv` in the loop of `_recver` ends the greenlet iff the remote is lost at that moment |
| Layers.BufferedChannel.RecverTurn | zerorpc/channel.py:205-223 | the rest of the turn is one delivery of `Buffering`, also where it closes the channel, overflows, or the remote was lost while it waited |
| Layers.BufferedChannel.EmitFinish | zerorpc/channel.py:232-237 | takes one slot iff the layers below took the event; otherwise the buffer is as it was and the error goes on |
| Layers.BufferedChannel.RequestData | zerorpc/channel.py:239-242 | asks for all the room there is; the booking stays when emitting the grant raises |
| Layers.BufferedChannel.RecvBegin | zerorpc/channel.py:244-252 | the first `recv` asks for nothing, a later one iff less than half is reserved and the channel is open |
| Layers.BufferedChannel.RecvEnd | zerorpc/channel.py:254-260 | gives the oldest event and leaves the rest in order; what is reserved but not queued stays the same |
| Greenlets.RoutingAgrees | zerorpc/channel.py:82-97 | the dispatcher of `Layers` and that of `Multiplex` find a route for the same events and put them in the same queues |
| Greenlets.BeatUntilLost | zerorpc/heartbeat.py:73-84 | the loop of `_heartbeat` on any row of wake-ups ends in the state of the detector proved about in `HeartbeatLaws`, having sent one heartbeat each time before the loss |
| Greenlets.Receive | zerorpc/channel.py:205-223 | the two `_recver` loops on any row of arrivals leave the buffer as the renamed row delivered to it, up to the event that closes it |
| MessageIds.Generator.NewMsgid | zerorpc/context.py:110-115 | moves the counter on or draws a new range, and gives an id of 32 characters that ends in the base |
| MessageIds.Hex8IsInjective | zerorpc/context.py:115 | counters below 2^32 have 8 digits, and different digits iff they differ |
| MessageIds.Hex8ReadsBack | zerorpc/context.py:115 | the text of a counter below 2^32 is 8 lower-case hexadecimal digits that read back as the counter |
| MessageIds.RangeOrReset | zerorpc/context.py:105-115 | in every run counter <= stop < 2^32; within a range the counter is the number of calls on; there is a reset iff the calls are more than the range had left, and the base is then the one drawn |
| MessageIds.ResetStartsRange | zerorpc/context.py:105-114 | after a reset the counter goes on from the one drawn there, by the calls since |
| MessageIds.IdsAreUnique | zerorpc/context.py:105-115 | in every run any two calls issue different ids, if the bases drawn up to then are different |
| Multipart.Socket.Send | zerorpc/events.py:65-79 | the loop of `_send` puts exactly the parts on the wire that the specification says, for every pattern of interruptions |
| Multipart.SendIsAtomicIff | zerorpc/events.py:65-79 | a call sends all parts or none iff no second try of a part of a longer message is interrupted; one that returns sent all |
| Multipart.SendRaisesIff | zerorpc/events.py:74-79 | a call raises iff one of its tries was interrupted, also if all the parts were sent |
| Multipart.WireIsWholeMessagesIff | zerorpc/events.py:65-79 | over any row of calls the wire is the messages that were sent, whole and in order, iff no second try is interrupted |
| Multipart.Source.Recv | zerorpc/events.py:94-109 | the loop of `_recv` takes exactly the frames the specification says |
| Multipart.RecvStopsAtBoundaryIff | zerorpc/events.py:94-109 | on whole messages a call takes the next message or nothing iff no second try is interrupted; it returns iff no try was, and then gives that message |
| Multipart.RecvWaitsIff | zerorpc/events.py:97-106 | left in peace a call waits iff no last part has come, having taken all that has |
| Multipart.JoinIsInjective | zerorpc/events.py:94-109 | a wire of whole messages can be read in one way only |
| Multipart.EnvelopeParts | zerorpc/events.py:342-352 | the parts on the wire: the event last, before it one empty part unless there is neither identity nor DEALER or ROUTER, and before that the identity |
| Multipart.EnvelopeRoundTrip | zerorpc/events.py:342-369 | the event survives the envelope, and so does an identity that is not empty; without one a DEALER or ROUTER event comes back with the empty delimiter as identity |
| Multipart.ReplyReturnsToPeer | zerorpc/events.py:342-369 | a reply made with the identity of a request goes back to the peer that sent it, as that peer's own parts |

## Left out

- ZeroMQ sockets and gevent internals: a link is a FIFO sequence and a greenlet's turn between two yields is one step.
- msgpack encoding: an event is the record that `Event.unpack` gives back.
- Blocking calls in `Layers`: a blocking method is cut in two at the point where it waits, so what happens in between is only in the state machines.
- Several emitters on one channel, and `emit_event` with a timeout, as running configurations: the credit law fails there; the exact condition is `CreditLaws.EmitKeepsCreditIffSlotOpen`.
- Stack.StackRefinesCredit: both ends are this code, so all events have version 3; a protocol 2 peer runs other code, which is not part of this model. What this end does facing one is in `HeartbeatLaws` and `Generations`.
- Stack.StepSimulates: a remote lost in the middle is only the emits that raise and the close that follow from it; the greenlet that ends before that close is in `Layers`.
- Call.CallCompletes: client hooks that raise, and grants that fail in a call, are not moves of `Call`; what a failed grant does is in `Starvation`.
- Cleanup when `LostRemote` reaches `_process_response`, or `_async_task` before its `try`: the code does not close the channel there.
- Which exception object surfaces after an interrupted multipart call: only that an error is raised.
- Arguments of OK and ERR of other shapes than the ones the server sends: the client's local error is one outcome, `Malformed`.
- Stack.Can: a message id is never used for two channels; `MessageIds.IdsAreUnique` says when that is so.
- The size of the server's task pool: a task can always be spawned.
- Uuid and random draws, the clock and sleep times: inputs of the steps.
- Remote errors made by `hook_client_handle_remote_error`, pattern lists changed by hooks, and middleware registration: plumbing around the modelled code.
- `Pusher`, `Puller`, `Publisher` and `Subscriber`: no reply, credit or channel state.
- Command line, introspection, argument specs, endpoint resolution and logging: no protocol state.
