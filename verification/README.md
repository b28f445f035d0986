# conduit in Dafny

This project models the hard core of conduit, a typed in-process event bus with
pluggable transports, and proves what its parts promise.

| files | what they model |
|---|---|
| `Glob.dfy` | the event-name matcher: an index loop with last-star backtracking, against a relation over tokens |
| `Listeners.dfy` | priority containers, listener entries and which of them hear a name |
| `LocalTransport*.dfy` | the local transport's bounded in-flight protocol: any number of producers, workers and flushers |
| `Bus.dfy`, `BusResults.dfy` | the publish pipeline, routing and listener fan-out with arbitrary user code |
| `Subscriptions.dfy`, `SubscriptionHandles.dfy` | who owns a registered listener |
| `Amqp*.dfy` | the AMQP adapter's task queue and publisher-confirm table |
| `Timestamps.dfy`, `Envelopes.dfy` | the envelope's JSON layout (`Options.dfy` holds the usual option type) |
| `Registry.dfy` | snapshots and swaps of the event registry |
| `Filters.dfy` | nested filtered transports |

Three kinds of model appear. A protocol that runs on several threads is a state
machine: a `Step` datatype, `Enabled`, `Apply`, and `Reaches` for any finite run;
the results hold in every reachable state. Code that updates an object is a
class whose methods state the whole new state as a function of the old one, and
the results are about that function. User code (hooks, handlers, predicates,
the channel's publish call) is an oracle that sees the whole history and may
answer anything or throw; bus hooks may also change the envelope's flags and
the registered listeners, middleware and transports.

## What the code does differently from what is said about it

- The matcher keeps only its last star. `include/conduit/glob.hpp:7-9` gives each
  star its meaning with no restriction, but after a `**` a single `*` makes the
  loop give up names that match: pattern `**a*c` refuses `a.ac`
  (`Glob.LosesAName`). `Glob.ExactFragment` says exactly which patterns meet the
  documented meaning on all names: those where every `*` after a `**` is directly
  followed by one `.` and another star. `Glob.AcceptsFirstFit` says what the matcher
  answers on every pattern, and acceptance is sound for all of them.
- `include/conduit/serialization.hpp:27-31` says a writer builds the next
  registry under the unique lock. The code takes its copy before that lock, so of
  two overlapping registrations the first can vanish
  (`Registry.OverlapLosesTheFirst`).
- The AMQP adapter counts publish attempts on all its channels, the broker the
  messages of one channel. An attempt that hands nothing over makes the two
  differ, and so does a reattach, because the connect task makes a new channel
  while the next tag and the table stay. A publisher can then be told of another
  message's acknowledgement (`AmqpResults.Misattributed`, and without any failed
  attempt `AmqpResults.ReattachMisattributed`). `AmqpResults.TagsAgreeIffInStep`
  gives the exact condition: every attempt before a message of the last channel
  was made on that channel and handed over.
- The publish task's handler settles the promise with false after an exception
  (`transports/amqp/src/transport.cpp:614-620`), but once the promise was filed
  that call reaches an empty one: it stays in the table for a later event.
  `AmqpResults.LeaveAnswers` says when the end of the channel's publish call
  answers a promise.
- Section 1.8.3.13 of the AMQP 0-9-1 reference gives tag 0 with `multiple` the
  meaning "all outstanding"; the adapter settles none then
  (`AmqpResults.ConfirmTakes`).
- `include/conduit/exception.hpp:53-55` lets callers of the registry catch a single
  exception type. `decode_json` lets the JSON library's own exception out, which
  `decode_cbor` does not (`Envelopes.WrongTypeEscapesJson` is one such document).
  `Envelopes.EscapesIff` says for which documents: the frame is right and the first
  field that does not decode has the wrong JSON type.

## Model

| member | source | states |
|---|---|---|
| Glob.MatchIsDecomposition | include/conduit/glob.hpp:7-9 | the token relation is the documented meaning: a name matches exactly when it splits into one piece per token, a literal's piece being itself and no `*` piece holding a `.` |
| Glob.TokensAreTheReading | include/conduit/glob.hpp:35-40 | the tokens are the one reading of the pattern in which no star is literal and no `*` stands where a `**` starts |
| Glob.GlobMatch | include/conduit/glob.hpp:21-77 | for every pattern the answer is yes exactly when the name splits by first fit; yes implies the documented meaning, and on safe patterns is equivalent to it; the main loop makes fewer than (name + 1)(pattern + 1) rounds |
| Glob.AcceptsFirstFit | include/conduit/glob.hpp:34-76 | what the loop answers on every pattern: yes if and only if the name splits into one fitting piece per token, the piece of every star that another star follows being the shortest at which the literals between them fit |
| Glob.GlobLoop | include/conduit/glob.hpp:34-65 | the five-variable backtracking loop refines the recursive scan and terminates within its cost bound |
| Glob.TrailingLoop | include/conduit/glob.hpp:67-76 | the second loop accepts exactly a rest made of stars, whatever their grouping |
| Glob.AcceptsSound | include/conduit/glob.hpp:34-76 | for every pattern, mixed stars included, an accepted name matches |
| Glob.NewStarDominates | include/conduit/glob.hpp:35-42 | forgetting the old star loses nothing: what any later placement of the literal block between two stars would match, the new star matches |
| Glob.AcceptsExactOnSafe | include/conduit/glob.hpp:34-76 | on a safe pattern the loop says yes if and only if the name matches |
| Glob.ExactFragment | include/conduit/glob.hpp:34-76 | the loop agrees with the documented meaning on all names if and only if the pattern is safe |
| Glob.LosesAName | include/conduit/glob.hpp:50-54 | `a.ac` matches `**a*c` and is refused |
| Glob.StarFreeIsEquality | include/conduit/bus.hpp:260 | without a star the matcher is string equality |
| Prioritized.PlaceSplits | tests/test_priority.cpp:54-89 | insertion puts an element behind all of its own or a lower number and moves none of the others |
| Prioritized.InsertSplits | tests/test_priority.cpp:75-90 | a new element goes behind its equals and all others keep their order; one that is there changes nothing |
| Prioritized.InsertKeeps | tests/test_priority.cpp:54-89 | a container stays in priority order and gains exactly the new element |
| Listeners.HearsMeaning | include/conduit/bus.hpp:172-176 | choosing glob or equality by the presence of a star, a safe pattern is heard by its documented meaning |
| Listeners.HearsExactly | include/conduit/bus.hpp:259-263 | a pattern hears what the matcher finds by first fit, any other listener exactly its own name |
| Listeners.HeardExactly | include/conduit/bus.hpp:258-263 | delivery selects exactly the kept entries that hear the name, each as often as it is kept |
| Listeners.HeardInOrder | include/conduit/bus.hpp:258-263 | in priority order and each once |
| LocalTransport.StepKeepsInv | include/conduit/local/transport.hpp:84-140 | every step of every thread keeps counting, placement, the ledger of units, the listener calls made and their order |
| LocalTransportObject.Transport.constructor | include/conduit/local/transport.hpp:39-65 | the queue bound becomes the blocking bound, direct mode has none, a queue has one worker |
| LocalTransportObject.Transport.Reserve | include/conduit/local/transport.hpp:91-103 | one test of the gate: sleep when full, else count the unit |
| LocalTransportObject.Transport.CompleteOne | include/conduit/local/transport.hpp:134-140 | uncount, wake all flushers at zero, wake one sleeper if there is one |
| LocalTransportObject.Transport.Flush | include/conduit/local/transport.hpp:121-127 | return exactly at zero, else wait |
| LocalTransportResults.ReachesInv | include/conduit/local/transport.hpp:84-140 | the invariant holds in every reachable state |
| LocalTransportResults.OutstandingExact | include/conduit/local/transport.hpp:84-140 | the counter is the number of units counted and not completed, never exceeds a bound that is set and never underflows |
| LocalTransportResults.NoLostWakeup | include/conduit/local/transport.hpp:91-103 | while a producer sleeps, at least as many woken ones are on their way as there are free slots; no flusher sleeps at zero |
| LocalTransportResults.Conservation | include/conduit/local/transport.hpp:84-119 | every unit past the gate is in exactly one place; none is lost, doubled or started twice |
| LocalTransportResults.DirectBypassesPool | include/conduit/local/transport.hpp:85-89 | an envelope is delivered by its caller if and only if the mode is direct or it carries the Direct flag; it is then never counted, queued, run by a worker or refused |
| LocalTransportResults.DirectNeverWaits | include/conduit/local/transport.hpp:85-89 | and its producer never waits for space |
| LocalTransportResults.StartsWhenFree | include/conduit/local/transport.hpp:49-52 | a queue runs one unit at a time, a pool as many as configured |
| LocalTransportResults.CallsOfUnit | include/conduit/local/transport.hpp:104-118 | a completed unit made exactly one fan-out in order, a refused one no call |
| LocalTransportResults.FlushReturns | include/conduit/local/transport.hpp:121-127 | when flush returns, everything counted before has completed or been refused |
| LocalTransportProgress.Progress | include/conduit/local/transport.hpp:84-140 | no reachable state with work left is stuck, even without spurious wake-ups |
| LocalTransportProgress.StepLowersMeasure | include/conduit/local/transport.hpp:84-140 | every step but a spurious wake-up lowers a measure of the work left |
| LocalTransportProgress.EveryRunDrains | include/conduit/local/transport.hpp:84-140 | runs are bounded by the workload, and one that no thread can continue has done all its work |
| LocalTransportModes.CallsAreHeard | include/conduit/bus.hpp:251-273 | the calls of a delivery are those to the listeners that hear the name |
| LocalTransportModes.DirectInTurn | include/conduit/local/transport.hpp:85-89 | direct mode makes a lone producer's calls in publishing order |
| LocalTransportModes.QueueInTurn | include/conduit/local/transport.hpp:49-55 | in queue mode the calls made are at every moment the first of those, and after a drain all |
| LocalTransportModes.QueueRefinesDirect | include/conduit/local/transport.hpp:84-119 | the drained queue and the direct run of one program make the same calls in the same order |
| LocalTransportModes.DrainedCalls | include/conduit/local/transport.hpp:84-119 | in any mode a drained run made exactly the calls of every issued unit |
| LocalTransportModes.PoolMakesSameCalls | include/conduit/local/transport.hpp:84-119 | with any number of workers the calls are those of direct mode as a multiset |
| LocalTransportModes.QueueInterleaves | include/conduit/local/transport.hpp:84-119 | with several producers the queue makes the calls of some interleaving that keeps each producer's order |
| Bus.EventBus.PublishEnvelope | include/conduit/bus.hpp:396-489 | the pipeline with its mutable `proceed` does what the stage functions say |
| Bus.EventBus.UseMiddleware | include/conduit/bus.hpp:105-108 | inserts behind all of the same or a lower priority number and keeps the container in order and without repetition |
| Bus.EventBus.UseTransport | include/conduit/bus.hpp:321-325 | so for transports |
| Bus.EventBus.BeforeLoop | include/conduit/bus.hpp:415-431 | the before_dispatch loop with its early exit on a veto |
| Bus.EventBus.RouteLoop | include/conduit/bus.hpp:449-461 | the routing loop over the transport snapshot |
| Bus.EventBus.AfterLoop | include/conduit/bus.hpp:471-481 | the after_dispatch loop from the last to the first |
| Bus.EventBus.DeliverToListeners | include/conduit/bus.hpp:251-273 | the fan-out loop over the listener snapshot with its two counters |
| Bus.EventBus.TellMiddleware | include/conduit/bus.hpp:491-505 | on_error of every middleware registered at that moment |
| BusResults.NotifyShape | include/conduit/bus.hpp:491-505 | an error reaches each registered middleware once, in order, whatever they do |
| BusResults.BeforeShape | include/conduit/bus.hpp:415-431 | before_dispatch runs on exactly the prefix ending at the first veto; a throw calls only that middleware's on_error and does not stop it |
| BusResults.AfterShape | include/conduit/bus.hpp:471-481 | after_dispatch runs over the whole snapshot in exact reverse; a throw calls only its own on_error |
| BusResults.RouteShape | include/conduit/bus.hpp:447-461 | every eligible transport is dispatched to once and in order, also after earlier ones throw, and each throw reaches all middleware |
| BusResults.FanShape | include/conduit/bus.hpp:251-273 | one delivery calls exactly the matching entries of the snapshot once each, whatever handlers do; the bus counts the matches and the throws |
| BusResults.PublishMakes | include/conduit/bus.hpp:396-489 | the shape of all calls of a publish for any hook behaviour, eligibility by the flags on entry, inline fan-out exactly without transports; each call is of the code it names, in the state of that moment, and recorded with its own reply; the containers and flags are at each stage what the last call left; the counters rise by one published, one dropped per veto and per conflict and the inline fan-out's matches and throws, plus what the called code counted itself; a throw of any of it ends none of the later stages |
| BusResults.PublishAtAGlance | include/conduit/bus.hpp:396-489 | over the whole publish, whom each hook is called on, in order |
| BusResults.EligibleExactly | include/conduit/bus.hpp:449-454 | routing keeps exactly the transports whose scope the flags allow |
| BusResults.EligibleInOrder | include/conduit/bus.hpp:449-454 | in priority order |
| BusResults.PublishInOrder | include/conduit/bus.hpp:408-454 | from containers in order, and user code that changes them only by registering and releasing, a publish meets middleware, transports and listeners in priority order |
| Subscriptions.StepKeepsInv | include/conduit/listener.hpp:51-88 | listen, move, self-move, release, detach and destroy keep the ownership invariant |
| Subscriptions.ReachesInv | include/conduit/bus.hpp:368-384 | after any run ids are unique, an active handle's id is registered and its own, each registered id has one handle, one pending `listen` or was detached, none was removed twice, and gauge plus pending increments is the number of entries |
| Subscriptions.NoListenerLeaks | include/conduit/listener.hpp:51-88 | with no `listen` under way, what is registered is what active handles own plus what was detached, and the gauge counts it |
| Subscriptions.OnlyTheHandleEnds | include/conduit/listener.hpp:62-83 | a listener goes exactly when its own handle is released, destroyed or overwritten, and the other entries stay in order |
| Subscriptions.SpentIsHarmless | include/conduit/listener.hpp:77-83 | releasing or destroying a handle that is not active changes nothing on the bus |
| Subscriptions.DeliveryOrder | include/conduit/bus.hpp:251-273 | after any run a delivery goes in priority order and to each listener at most once |
| SubscriptionHandles.Bus.Register | include/conduit/bus.hpp:368-384 | draws the next id, inserts the entry behind its equals, raises the gauge, returns an active handle |
| SubscriptionHandles.Bus.Release | include/conduit/bus.hpp:299-309 | the search loop erases the first entry of the id and lowers the gauge, or does nothing |
| SubscriptionHandles.Subscription.Move | include/conduit/listener.hpp:58-61 | the new handle takes over, the old is spent and keeps its id |
| SubscriptionHandles.Subscription.Release | include/conduit/listener.hpp:77-83 | reaches the bus only when active and attached |
| SubscriptionHandles.Subscription.Detach | include/conduit/listener.hpp:85-88 | spends the handle without touching the bus |
| SubscriptionHandles.Subscription.Assign | include/conduit/listener.hpp:62-71 | releases what was held, takes over the other; from itself nothing |
| Amqp.KeepExactly | transports/amqp/src/transport.cpp:474-495 | an event takes out exactly the tags it covers, a cumulative confirm those up to its tag |
| AmqpObject.Impl.Post | transports/amqp/src/transport.cpp:210-216 | appends a task |
| AmqpObject.Impl.DrainTasks | transports/amqp/src/transport.cpp:218-231 | one batch runs all that was queued, in order, and leaves what was posted meanwhile |
| AmqpObject.Impl.ResolveConfirm | transports/amqp/src/transport.cpp:474-495 | settles and erases while iterating, or finds one entry |
| AmqpObject.Impl.OnError | transports/amqp/src/transport.cpp:159-177 | fails every pending promise and clears the table |
| AmqpObject.Impl.PublishTask | transports/amqp/src/transport.cpp:582-621 | the publish task with confirms and errors arriving inside the channel's call is a run of the protocol |
| AmqpObject.Impl.Shutdown | transports/amqp/src/transport.cpp:305-343 | drops the channel and keeps the next tag and the table |
| AmqpResults.StepKeepsInv | transports/amqp/src/transport.cpp:582-621 | every step keeps the queue, the tags, the table and the promises' answers in line with the history |
| AmqpResults.TagsInPostOrder | transports/amqp/src/transport.cpp:210-231 | executed, rest of batch and queue together are what was posted; tags 1, 2, 3, ... go out in post order to exactly the publish tasks not turned away |
| AmqpResults.FateMeans | transports/amqp/src/transport.cpp:474-495 | a tag's fate is decided by the first event after its draw that covers it |
| AmqpResults.VerdictOfFirstCover | transports/amqp/src/transport.cpp:474-495 | a filed promise is pending until that event and then has its answer and no other: a confirm's own, and false for a refusal or a lost connection |
| AmqpResults.EachPromiseOnce | transports/amqp/src/transport.cpp:597-621 | a promise whose task ran is either filed and unanswered or answered exactly once |
| AmqpResults.ConfirmTakes | transports/amqp/src/transport.cpp:474-495 | which entries a confirm takes and what their promises get; tag 0 takes none |
| AmqpResults.LossAnswersAll | transports/amqp/src/transport.cpp:159-177 | a lost connection tells every filed promise false, no other anything, and leaves none waiting |
| AmqpResults.TurnedAwayFails | transports/amqp/src/transport.cpp:583-620 | without a channel, or after an exception before the tag, the promise is told false at once and no tag is drawn |
| AmqpResults.AnswersStand | transports/amqp/src/transport.cpp:474-495 | no step changes an answer that was given |
| AmqpResults.LeaveAnswers | transports/amqp/src/transport.cpp:601-620 | when the channel's publish call ends, a refusal answers a promise that is still filed with false; after success or an exception it stays filed |
| AmqpResults.LeaveSparesOthers | transports/amqp/src/transport.cpp:604-613 | it touches no other promise, neither in the table nor in its answer |
| AmqpResults.TagDrift | transports/amqp/src/transport.cpp:596-603 | the message under tag n is the broker's number n minus the attempts on earlier channels and minus those on this one that handed nothing over |
| AmqpResults.TagsAgreeIffInStep | transports/amqp/src/transport.cpp:596-603 | tags and broker numbers agree on all messages of the last channel if and only if every attempt before one of them was made on that channel and handed over |
| AmqpResults.Misattributed | transports/amqp/src/transport.cpp:596-613 | after a failed attempt: a run in which a nacked message's publisher is told it was acknowledged |
| AmqpResults.ReattachMisattributed | transports/amqp/src/transport.cpp:345-450 | after a reattach, with no failed attempt: a run in which the ack of a new message answers an old one's publisher |
| Timestamps.MsRoundTrip | include/conduit/envelope.hpp:47-50 | milliseconds survive exactly within the stated bound of the 64-bit tick count |
| Timestamps.TruncatesTowardEpoch | include/conduit/envelope.hpp:42-50 | a time point is truncated toward the epoch from either side and loses less than a millisecond |
| Timestamps.TruncationIdempotent | include/conduit/envelope.hpp:42-50 | truncating again changes nothing |
| Timestamps.TruncationMonotone | include/conduit/envelope.hpp:42-50 | order is kept |
| Envelopes.ToJson | include/conduit/envelope.hpp:194-244 | the document built field by field is the layout, or the error without a payload |
| Envelopes.FromJsonBody | include/conduit/envelope.hpp:264-344 | the checks in their order, with the error of the first that fails |
| Envelopes.ReadFlags | include/conduit/envelope.hpp:297-303 | the flag loop keeps exactly the registered names, or fails on a non-string, for whatever JSON value is there |
| Envelopes.NameField | include/conduit/envelope.hpp:91-101 | the document's name is the payload's kind without the prefix `conduit:event:`, or the kind itself where it lacks that |
| Envelopes.Layout | include/conduit/envelope.hpp:202-243 | the keys under `v` and what each holds, optional ids only when there are any |
| Envelopes.TimesLayout | include/conduit/envelope.hpp:220-234 | the timestamp keys, in milliseconds and only of the times there are |
| Envelopes.RoundTrip | include/conduit/envelope.hpp:194-344 | decoding an encoded envelope keeps ids, metadata, payload and which times are present, exactly the registered flags, and times to the millisecond |
| Envelopes.SecondTripExact | include/conduit/envelope.hpp:194-344 | a second trip loses nothing more |
| Envelopes.DecodedTravelsExactly | include/conduit/envelope.hpp:194-344 | an envelope read from any document is sent on exactly |
| Envelopes.SameDocument | include/conduit/envelope.hpp:194-244 | with all flags registered re-encoding gives the same document up to flag order |
| Envelopes.DecodesIff | include/conduit/envelope.hpp:246-344 | a document decodes if and only if its frame, ids, flags, timestamps and payload do |
| Envelopes.PresentParts | include/conduit/envelope.hpp:266-340 | what the ids, the metadata and the payload of such a document decode to |
| Envelopes.PresentFlags | include/conduit/envelope.hpp:297-303 | the registered names of an array, an object or a single text |
| Envelopes.PresentTime | include/conduit/envelope.hpp:312-332 | milliseconds to ticks, with unsigned numbers above the signed range wrapping |
| Envelopes.PresentTimes | include/conduit/envelope.hpp:311-333 | which key decodes to which time |
| Envelopes.MissingParts | include/conduit/envelope.hpp:277-333 | no flags, no metadata, the epoch and no other time, no ids |
| Envelopes.MissingTimes | include/conduit/envelope.hpp:311-333 | likewise key by key inside the timestamps |
| Envelopes.NameIgnored | include/conduit/envelope.hpp:246-344 | decoding does not depend on `name` |
| Envelopes.TimesInIff | include/conduit/envelope.hpp:311-333 | the first timestamp that does not decode, in the order they are read, decides between a type error and an overflow |
| Envelopes.EscapesIff | include/conduit/serialization.hpp:70-105 | decode_json lets a foreign exception out if and only if the frame is right and the first field that does not decode has the wrong JSON type, and overflows if and only if that field is a number too large; decode_cbor turns the former into its own error and agrees otherwise |
| Registry.SnapshotsNeverChange | include/conduit/serialization.hpp:107-119 | a held snapshot stays what it was through any run |
| Registry.UncontestedCall | include/conduit/serialization.hpp:61-68 | a call that no other swap overtakes registers its descriptor under its kind and leaves every other kind as it was |
| Registry.VersionsGrow | include/conduit/serialization.hpp:61-68 | without overlap every kind stays known, with its descriptor unless registered again |
| Registry.KnownIffBehind | include/conduit/serialization.hpp:61-68 | after any run a kind is known if and only if it was at the start or one of the calls on the chain of copies behind the current version registered it |
| Registry.NothingDroppedIff | include/conduit/serialization.hpp:61-68 | all calls of a run are on that chain if and only if none was overtaken by another swap between its snapshot and its own |
| Registry.SerialIsInTurn | include/conduit/serialization.hpp:61-68 | calls that do not overlap meet that condition |
| Registry.OverlapLosesTheFirst | include/conduit/serialization.hpp:61-68 | of two overlapping calls the first one's kind is known afterwards only if it was before or is the second's |
| Registry.EventRegistry.AddDescriptor | include/conduit/serialization.hpp:61-68 | swaps in a fresh version and leaves the old object untouched |
| Filters.OutboundPasses | include/conduit/filtered_transport.hpp:83-96 | outbound predicates are asked outermost first up to the first denial or throw; the innermost transport is reached exactly when there is none |
| Filters.InstalledGates | include/conduit/filtered_transport.hpp:58-77 | attaching composes the inbound predicates inside out |
| Filters.InboundPasses | include/conduit/filtered_transport.hpp:39-56 | inbound predicates are asked innermost first up to the first denial or throw; the bus delivers exactly when there is none |
| Filters.SinkInPlaceOfBus | include/conduit/filtered_transport.hpp:58-77 | the same in front of any sink, an empty one included |
| Filters.ThroughIffAllAllow | include/conduit/filtered_transport.hpp:39-96 | with predicates that look at the event alone, through if and only if all allow |
| Filters.Wire.Dispatch | include/conduit/filtered_transport.hpp:83-96 | dispatch with its local `allow` asks and forwards as stated |
| Filters.Wire.Receive | include/conduit/filtered_transport.hpp:39-77 | so do the installed closures |

## Left out

- The local transport's mutex and condition variables: a stretch of code under `drain_mu_` is one step, and the worker pool is a FIFO queue that runs each accepted task once.
- LocalTransportProgress.EveryRunDrains: assumes handlers return and do not publish to or drain the same transport, because a blocked handler would hold its own slot.
- LocalTransportModes.QueueRefinesDirect: fixes the listener set during the run and assumes no submission is refused; refusals are in the protocol and in the other results.
- `comms::PrioritizedSet` is not part of this repository; it is modelled as the stable, ascending, duplicate-free order that `tests/test_priority.cpp` shows.
- Bus: metric labels, the dispatch histogram, `published_at`, transport errors, `drain` and `shutdown` (a loop of flush and detach over a snapshot). Calls that user code makes in turn, such as a transport's own fan-out or a publish inside a hook, appear in its reply only, as what it counted and what it left.
- Subscriptions: direct calls of `Bus::release` with an id that no handle gave, wrap-around of the 64-bit id counter, a bus that dies before its handles, and the lazy `self_alias_`.
- AMQP: sockets, the poll loop, connecting and declaring (the connect task makes a channel or does not), inbound messages, the time-outs of `dispatch`, `flush` and `shutdown`, 64-bit wrap-around of the tag, and exceptions from allocating a table entry. Confirms and errors may arrive at any moment, which covers more orders than one IO thread produces.
- Envelopes: ULID texts, metadata, payload cells and CBOR bytes are assumed to be faithful inverses; JSON floats, display information and foreign exceptions from metadata or payload decoding are not modelled. A timestamp whose conversion overflows 64 bits is undefined in C++ and is its own error here.
- Registry: memory-model races on the field itself and what `parcel` does inside `register_kind` beyond setting one kind.
- Filters: exceptions from the innermost transport's own `dispatch`, which pass through unchanged; `scope`, `detach` and `flush` only forward.
- The MQTT, NATS, Redis, ZMQ and relay transports, event builders and type catalogues: network plumbing or easy members.
