# pw_dart: a Dafny model

pw_dart connects Dart programs to PipeWire. A C++ client runs PipeWire's loop
on its own thread, mirrors the server's nodes, ports, links and devices in
maps, and posts JSON events to Dart, where a client replays them over a
snapshot. Commands travel the other way through a lock-free ring buffer. This
project models that system in Dafny and proves what its parts promise each
other. `dafny verify dfyconfig.toml` checks all of it; nothing here runs the
original program.

## The modules

| file | what it models |
|---|---|
| `Masks`, `Spsc`, `SpscQueue` | the ring buffer: its mask arithmetic; two threads whose atomic steps interleave, with stale acquire loads; and the class itself |
| `Drain` | queueing commands, draining them, and which calls that makes |
| `Registry`, `Announcements` | the monitor's maps, its callbacks, the events it posts, its snapshot; what each callback writes into which field |
| `Json`, `JsonList`, `Records`, `Graph` | JSON trees, records on both sides of the wire, `PwGraph` with `applyEvent` and its JSON form |
| `Replica`, `Snapshots`, `EventStream` | the whole replication: native maps, events in flight, the Dart client; what a graph holds after a snapshot; the stream of events the Dart client emits |
| `Handshake`, `Mirror` | connect's two sync rounds against a small ordered server; the monitor's maps against that server's objects, over whole runs |
| `Lifecycle`, `Sessions` | ownership of every PipeWire object and listener hook; which objects a session holds |
| `Layout`, `LayoutMeaning`, `HitTest` | the patchbay's columns; where its sources, sinks and port rows end up; finding the port under a point |
| `JsonText`, `JsonSyntax`, `Params`, `ParamsExact` | a reader of RFC 8259 text, and which texts it takes; the parameter cache, its hand-built JSON and the Dart reader of it; exactly when that reader gets the parameters back |
| `DotLabel`, `Version` | Graphviz labels; version parsing, packing and order |
| `Prelude` | `Option`, string maps, joined strings |

## How the models stand to the code

- **The ring buffer** is a machine with one step for each atomic load, atomic
  store and slot access. `headStores` and `tailStores` are the modification
  orders of the two atomics; an acquire load may return any entry from the
  last one its thread has seen onwards. A slot is emptied when its item is
  moved out. The two overloads of `try_push` take the same steps. The class
  `Queue.SpscQueue` is the same code with one call at a time; its `Valid`
  says that its fields are those of a machine state that satisfies `Spsc.Inv`,
  the invariant of every reachable state, and all that is proved of the machine
  is proved from that invariant.
- **Where the machine is weaker than a FIFO.** An acquire load that returns
  an old tail makes a push fail although there is room. The refinement calls
  such a failure silent, as it changes nothing; a push that fails on a current
  load finds exactly N - 1 items.
- **The monitor** runs each callback and its post as one step, as its mutex
  makes it. The iteration order of hash maps, and of Dart maps, is a
  parameter: the results hold for every order.
- **The event language and convergence** hold with no assumption on PipeWire's
  callbacks. Only the agreement of `id_types_` with the four maps needs one,
  and `GlobalKeepsCoherenceExactly` says which: no live id is announced again
  under another type.
- **The handshake's server** handles requests in order and sends its messages
  in order; objects may come and go at any time. A run in which
  `pw_loop_iterate` fails is marked `broken` and promises nothing, as the code
  then leaves its round early. A bind may return null; such an object gets a
  record but never an info callback. What an info callback brought is said
  twice: of the native record (taking the callback in again would change
  nothing) and, field by field, of the graph Dart reads.
- **Lifecycle** records every create, destroy, link, unlink, allocation and
  free in a log. `outcome` says which call of `connect` fails, and `during`
  lists the registry events its sync rounds deliver. The proxy that creating a
  link makes is kept nowhere; it is counted as left to the core, which
  PipeWire disposes of with the core.
- **Parameters read from outside** (the text given to `set_param`, the library's
  version text, filters, points) are arguments. Interface and key names are
  PipeWire's own, from headers that are not part of this model.

## Where code and documentation differ

The model follows the code, and a lemma says when the two part:

- `isCompatible` is documented as equal majors and a runtime minor not below
  the header's (`lib/src/version.dart:23-27`); the code also compares micro.
  `Version.DocumentedRuleDiffers` gives the exact inputs.
- The parameter cache is documented to hold JSON values
  (`src/param_handler.hpp:68-72`), but `set_param` caches the decoded text.
  `ParamsExact.SetTextLosesAll` shows that one such text makes every parameter
  of the node unreadable (`ChannelListLosesAll` with the text `FL,FR`), and
  `ParamsExact.ReadsExactlyJson` that this is the exact condition among values
  without quotation marks. With one it is not: `QuotedValueSlipsThrough`.
- `size()` and `empty()` are documented as approximate. Called by the producer
  or the consumer they are exact (`Spsc.ProducerSizeExact`,
  `Spsc.ConsumerSizeExact`); called by a third thread they are not
  (`Spsc.OutsiderSizeInexact`).
- `graph` is documented as the current graph, updated on every event
  (`lib/src/client.dart:78`), but events queued before a snapshot are replayed
  over it too. A node that was removed and came back is shown by the snapshot
  and lost when the old removal arrives (`Snapshots.ReturningNodeIsLost`), and
  it is missing until its next info. `Snapshots.PresentExactly` gives the exact
  condition for every object.
- A disconnect command asks the loop to quit but does not end the drain it is
  read in (`Drain.DisconnectDoesNotStopDrain`).
- `NodeAdded` and `LinkAdded` are documented as a node or link that newly
  appeared (`lib/src/events.dart:35`, `lib/src/events.dart:121`), but one can be
  announced twice in a lifetime (`Registry.TwoAddedInOneLifetime`). Its next
  info posts a second Added exactly when the one that posted the first left it
  in its initial state (`Registry.SecondAddedExactly`); a port's always does.
- The client's PipeWire objects are documented as owned and destroyed in
  `disconnect` (`src/client.hpp:118`), but a link's proxy, which no field holds,
  is destroyed by no call. `Lifecycle.Life` shows that everything created is
  destroyed exactly when no link was made.

## Model

| member | source | states |
|---|---|---|
| Masks.AcceptedExactlyPowers | src/command_queue.hpp:68-69 | the two static asserts accept exactly the powers of two from 2 on |
| Masks.MaskIsRemainder | src/command_queue.hpp:136 | masking with 2^k - 1 is the remainder modulo 2^k |
| Masks.MaskedSuccessor | src/command_queue.hpp:84 | `(h + 1) & mask` is the successor modulo N |
| Masks.MaskedDifference | src/command_queue.hpp:132 | the wrapping `size_t` difference of the indices, masked, is pushed minus popped |
| Spsc.EveryRunIsSafe | src/command_queue.hpp:82-115 | in every interleaving, stale loads included: pops are a prefix of pushes in order, executed commands a prefix of accepted ones, at most N - 1 items are held, the slot read is live and holds the right item, and slot accesses of the two threads never meet and are ordered by acquire/release |
| Spsc.StepKeepsInv | src/command_queue.hpp:82-133 | every atomic step keeps the invariant relating indices, slots and ghost histories |
| Spsc.InvIsSafe | src/command_queue.hpp:82-115 | the invariant gives race freedom, happens-before order of slot accesses and live slots |
| Spsc.RunRefinesQueue | src/command_queue.hpp:82-115 | every interleaving is a run of a bounded FIFO of capacity N - 1, pushes taking effect at the head store and pops at the tail store |
| Spsc.FailuresSaid | src/command_queue.hpp:85-111 | in that run a failing push or pop counts as the FIFO's own refusal, full or empty, exactly when its acquire load was current, and as silent exactly when it was stale |
| Spsc.PushFailsExactlyWhenFull | src/command_queue.hpp:85-87 | a push fails exactly when the tail it loaded is N - 1 behind; on a current load, exactly when N - 1 items are held |
| Spsc.PopFailsExactlyWhenEmpty | src/command_queue.hpp:109-111 | a pop fails exactly when the head it loaded is its own tail; on a current load, exactly when the queue is empty |
| Spsc.PushCompletes | src/command_queue.hpp:82-90 | from any state with room, the producer alone completes a push in its own steps, whatever the consumer is in the middle of |
| Spsc.PopCompletes | src/command_queue.hpp:107-115 | from any state with an item, the consumer alone completes a pop of the oldest item |
| Spsc.PushRefused | src/command_queue.hpp:85-87 | a push on a full queue ends after its loads and changes nothing but what the producer has seen |
| Spsc.PopRefused | src/command_queue.hpp:109-111 | a pop on an empty queue ends after its loads and changes nothing but what the consumer has seen |
| Spsc.ProducerSizeExact | src/command_queue.hpp:118-133 | `size()` and `empty()` called by the producer are exact at their tail load, and count against the tail it returned when that is stale |
| Spsc.ConsumerSizeExact | src/command_queue.hpp:118-133 | `size()` and `empty()` called by the consumer count from the head it loaded, whatever the producer does before the tail load: exact on a current head, never too many on a stale one |
| Spsc.OutsiderSize | src/command_queue.hpp:129-133 | a third thread gets the distance modulo N of the two stores it happened to load, which is their distance if and only if that is between 0 and N - 1 |
| Spsc.OutsiderSizeInexact | src/command_queue.hpp:128-133 | so it can be told 3 although the queue never held more than one item |
| Spsc.SizeCompletes | src/command_queue.hpp:118-133 | an idle thread can always take both loads of `size()`, its own index among them |
| Spsc.DrainStopsAt | src/client.cpp:305-309 | a drain that ends has executed exactly the accepted pushes up to the head it last loaded, and all of them on a current load |
| Spsc.StaleFullTestIsSpurious | src/command_queue.hpp:85 | a stale tail load makes a push on an empty queue report "full" |
| Queue.SpscQueue.constructor | src/command_queue.hpp:72 | a new queue of any accepted size is empty and valid |
| Queue.SpscQueue.TryPush | src/command_queue.hpp:82-103 | appends the item exactly when fewer than N - 1 are held, else changes nothing and says so |
| Queue.SpscQueue.TryPop | src/command_queue.hpp:107-115 | removes and returns the oldest item, or none from an empty queue |
| Queue.SpscQueue.Empty | src/command_queue.hpp:118-121 | true exactly when nothing is held |
| Queue.SpscQueue.Size | src/command_queue.hpp:129-133 | the number of items held |
| Drain.CommandChannel.constructor | src/command_queue.hpp:144 | a fresh, empty queue of 256 slots, not connected |
| Drain.CommandChannel.Submit | src/client.cpp:253-259 | -1 when not connected, -2 when the queue is full, else 0; the command is queued exactly when 0 |
| Drain.CommandChannel.CreateLink | src/client.cpp:251-260 | the same, and what is queued last is the link from the output port to the input port |
| Drain.CommandChannel.DestroyLink | src/client.cpp:262-268 | the same, with the link's id |
| Drain.CommandChannel.SetNodeParam | src/client.cpp:270-278 | the same, and -1 without a parameter text |
| Drain.CommandChannel.Take | src/client.cpp:306 | the loop's condition takes the oldest command, and fails exactly when none is left |
| Drain.CommandChannel.DrainCommands | src/client.cpp:305-309 | with no pushes meanwhile the loop ends, having carried out exactly the queued commands in order |
| Drain.EffectsSplit | src/client.cpp:311-341 | draining in two batches does what one drain does |
| Drain.EffectsAnswer | src/client.cpp:311-341 | a drain makes one call for each command whose part is there, in order, each with that command's own arguments, and no other call |
| Drain.CarriedOutExactly | src/client.cpp:311-341 | each call is made exactly as often as it was asked for, or never when its part is missing |
| Drain.LastLinkMade | src/client.cpp:316-319 | a link asked for last is made last, from its output to its input |
| Drain.DisconnectDoesNotStopDrain | src/client.cpp:335-338 | commands queued behind a disconnect are still carried out |
| Registry.RegistryMonitor.constructor | src/registry_monitor.cpp:115-122 | nothing known, nothing posted |
| Registry.RegistryMonitor.OnGlobal | src/registry_monitor.cpp:174-319 | a known type gains a record, a type entry and a proxy under its id; nothing is posted |
| Registry.RegistryMonitor.OnGlobalRemove | src/registry_monitor.cpp:321-347 | erases the record of the id's type, its type entry and its proxy, and posts the removal of a node, port or link |
| Registry.RegistryMonitor.OnNodeInfo | src/registry_monitor.cpp:349-401 | merges the info into a known node and posts Added if it was still `creating`, else Changed |
| Registry.RegistryMonitor.OnPortInfo | src/registry_monitor.cpp:403-437 | merges the info into a known port and posts Added |
| Registry.RegistryMonitor.OnLinkInfo | src/registry_monitor.cpp:439-492 | merges the info into a known link and posts Added from `init`, else Changed |
| Registry.RegistryMonitor.OnDeviceInfo | src/registry_monitor.cpp:494-516 | merges the info into a known device and posts nothing |
| Registry.RegistryMonitor.GetSnapshotJson | src/registry_monitor.cpp:140-158 | every record of the four maps once, in some order |
| Registry.Keys | src/registry_monitor.cpp:148-155 | a walk over a map meets each key once |
| Registry.GlobalKeepsCoherenceExactly | src/registry_monitor.cpp:174-317 | an announcement keeps `id_types_`, `proxies_` and the four maps in agreement if and only if the id is new or of the same type as before |
| Registry.OthersKeepCoherence | src/registry_monitor.cpp:321-516 | every other callback keeps that agreement |
| Registry.RunKeepsCoherence | src/registry_monitor.cpp:174-347 | every run without a re-announcement under another type keeps it |
| Registry.RemoveForgets | src/registry_monitor.cpp:321-347 | after a removal the id is in none of the six maps, and every other id is where it was |
| Registry.StepKeepsKeyed | src/registry_monitor.cpp:174-516 | every record and proxy carries its own key as its id, after any callback |
| Registry.NodeStateReads | src/registry_monitor.cpp:365-381 | the state texts written for PipeWire's codes are those the Dart reader maps back to the same states |
| Registry.LinkStateReads | src/registry_monitor.cpp:458-480 | the same for link states, those without a Dart counterpart included |
| Registry.PortDirectionReads | src/registry_monitor.cpp:418-419 | the registry's "in"/"out" and the info's "input"/"output" read as the same direction |
| Registry.PostsMatchState | src/registry_monitor.cpp:321-492 | each posted record is the native record as it stands after the callback, and each removed id is gone |
| Registry.StepKeepsLanguage | src/registry_monitor.cpp:200-492 | any callback extends a well-formed trace to a well-formed one |
| Registry.EveryTraceWellFormed | src/registry_monitor.cpp:200-492 | for every run of callbacks, each Changed comes after an Added with no Removed in between |
| Registry.SecondAddedExactly | src/registry_monitor.cpp:362-399 | after an info that posted Added, and whatever callbacks about other objects, the next info of the object posts Added again if and only if the first left a node `creating` or a link `init`, or the object is a port |
| Registry.TwoAddedInOneLifetime | src/registry_monitor.cpp:362-399 | a run of three callbacks that posts two Added events for one node and no Removed |
| Announcements.NodeAnnounced | src/registry_monitor.cpp:187-215 | an announced node's record has the announced name, the description if there is no name, the media class, and nothing else changes but its type and proxy |
| Announcements.PortAnnounced | src/registry_monitor.cpp:218-249 | the same for a port: its node, name, alias, format and direction |
| Announcements.LinkAnnounced | src/registry_monitor.cpp:251-288 | the same for a link: each of its four ends is the id its own property spells |
| Announcements.DeviceAnnounced | src/registry_monitor.cpp:289-315 | the same for a device: name, description, media class and api |
| Announcements.OthersIgnored | src/registry_monitor.cpp:181-182 | an announcement of no type or of another type changes nothing |
| Announcements.LinkEndsAgree | src/registry_monitor.cpp:270-281 | a link announced with the ends its info brings later has them in Dart before the info as after it |
| Announcements.IdReads | src/registry_monitor.cpp:270-281 | an id written in decimal below 2^32 reads as that id, a missing one as 0 |
| Announcements.NodeKeepsUnset | src/registry_monitor.cpp:384-392 | a node keeps the name and media class an info is silent about, its properties when an info has none, and its state at an unknown code |
| Announcements.PortKeepsUnset | src/registry_monitor.cpp:421-433 | a port keeps the name and alias an info is silent about, always its node and format, and its flags when an info has no properties |
| Announcements.PortFlags | src/registry_monitor.cpp:429-432 | an info with properties sets each flag if and only if its own property is `true` or `1` |
| Announcements.LinkKeepsUnset | src/registry_monitor.cpp:451-484 | a link keeps its error when an info has none, its state at an unknown code, and always its properties |
| Announcements.DeviceKeepsUnset | src/registry_monitor.cpp:505-514 | a device keeps the name and description an info is silent about, and always its class and api |
| Announcements.RemoveKeepsOthers | src/registry_monitor.cpp:321-347 | a removal touches nothing of any other id |
| Announcements.InfoKeepsOthers | src/registry_monitor.cpp:349-516 | an info touches one record of its own id, and neither types nor proxies |
| Records.WireNode | src/event_serializer.hpp:134-146 | a native node record reads in Dart as the node it stands for |
| Records.WirePort | src/event_serializer.hpp:149-169 | the same for ports |
| Records.WireLink | src/event_serializer.hpp:172-190 | the same for links |
| Records.WireDevice | src/event_serializer.hpp:193-207 | the same for devices |
| Records.NodeRoundTrip | lib/src/models/node.dart:48-67 | reading a written node gives every field back |
| Records.PortRoundTrip | lib/src/models/port.dart:57-85 | the same for ports |
| Records.LinkRoundTrip | lib/src/models/link.dart:63-87 | the same for links |
| Records.DeviceRoundTrip | lib/src/models/device.dart:33-53 | the same for devices |
| Records.BareRecords | lib/src/models/node.dart:48-58 | an object with nothing but its ids reads as empty texts, no properties and the fallback state or direction |
| Records.BareLink | lib/src/models/link.dart:63-75 | the same for a link |
| Records.IdsAreNeeded | lib/src/models/link.dart:63-75 | without one of its ids no object is read |
| JsonTree.DictRoundTrip | lib/src/models/node.dart:53-57 | property maps of strings survive the reader's conversion to text |
| JsonList.ReadLoop | lib/src/graph.dart:54-59 | the loop enters each object under its id, later ones displacing earlier, and fails if any is unreadable |
| JsonList.LastIsRead | lib/src/graph.dart:54-59 | a readable list holds, under each id that occurs in it and no other, the last element with that id |
| JsonList.ReadFullListing | lib/src/graph.dart:54-59 | a list of a map's records in any order reads back as the map |
| JsonList.OrderIgnoredExactly | lib/src/graph.dart:54-59 | all orders of a readable list give one map if and only if elements of one id hold one record |
| Graph.WireEvent | src/event_serializer.hpp:291-302 | every native event, written and read by Dart, is the event it stands for |
| Graph.ApplyFind | lib/src/graph.dart:99-109 | an event sets or clears exactly its own object and nothing else |
| Graph.ReplayFind | lib/src/graph.dart:99-109 | after a list of events each object is as its last event left it, or as it was |
| Graph.OverwrittenReplayVanishes | lib/src/graph.dart:99-109 | events whose objects are all touched again later make no difference |
| Graph.OverwritingIsExact | lib/src/graph.dart:99-109 | two replays agree with the second alone from every graph if and only if the second touches every object of the first |
| Graph.ReplayAfterPrefix | lib/src/graph.dart:99-109 | replaying a list over a graph that has seen any prefix of it equals replaying it once |
| Graph.ReplayTwice | lib/src/graph.dart:99-109 | replaying a list twice equals replaying it once |
| Graph.EventsCommute | lib/src/graph.dart:134-174 | events on different objects commute |
| Graph.FromJson | lib/src/graph.dart:48-88 | the four loops read the four lists; anything but a list reads as no objects |
| Graph.GraphRoundTrip | lib/src/graph.dart:48-96 | `fromJson(toJson(g))` is g, field by field and in any iteration order, if and only if every record is kept under its own id |
| Graph.ListOrderIgnored | lib/src/graph.dart:48-88 | `fromJson` gives one graph for all orders of the object lists |
| Graph.ReadIsKeyed | lib/src/graph.dart:54-80 | whatever is read is kept under its own id |
| Graph.ApplyKeepsKeys | lib/src/graph.dart:134-174 | events keep every record under its own id |
| Replica.PwClient.constructor | lib/src/client.dart:62-72 | the client starts from the first snapshot |
| Replica.PwClient.OnMessage | lib/src/client.dart:156-172 | a readable message is applied and emitted; unreadable ones, and all after dispose, are dropped |
| Replica.PwClient.RefreshGraph | lib/src/client.dart:139-142 | the graph becomes the snapshot; disposed or unreadable throws and changes nothing |
| Replica.PwClient.Dispose | lib/src/client.dart:145-152 | marks the client disposed and keeps its graph |
| Replica.SnapshotIsExact | src/registry_monitor.cpp:140-158 | a snapshot in any order reads in Dart as exactly the native maps |
| Replica.NativeCallbackAgrees | src/registry_monitor.cpp:321-492 | a callback and its event together keep an object's replica at worst unannounced |
| Replica.NativeStepConverges | src/registry_monitor.cpp:174-516 | every native callback keeps convergence |
| Replica.SnapshotConverges | lib/src/client.dart:62-72 | a snapshot keeps convergence although events posted before it are still to be replayed over it |
| Replica.DeliverSettles | lib/src/client.dart:156-172 | a delivery does not move what the queue will settle to |
| Replica.ActConverges | lib/src/client.dart:48-172 | every step of the system keeps convergence |
| Replica.EveryStateConverges | lib/src/client.dart:48-76 | in every reachable state, the events in flight over the Dart graph give objects that all exist natively, and the native record for each announced one |
| Replica.DeliverAllSettles | lib/src/client.dart:156-172 | draining the queue reaches that settled graph |
| Replica.DrainedReplicaAgrees | lib/src/client.dart:156-172 | a drained Dart graph holds only native objects, current on announced ones, and equals the native maps once all are announced |
| Replica.UnannouncedMayBeMissing | src/registry_monitor.cpp:200-214 | an announcement alone leaves a drained Dart graph without the node |
| Replica.NewNodeUnseen | src/registry_monitor.cpp:187-215 | an announcement adds the node natively and moves nothing on the way to Dart |
| Snapshots.SnapshotTaken | lib/src/client.dart:62-72 | connecting, like refreshing, makes the Dart graph exactly the native maps of that moment, and leaves the queued events queued |
| Snapshots.DevicesOfLastSnapshot | lib/src/client.dart:139-142 | in every run the Dart devices are the native devices of the last snapshot, whatever happened since |
| Snapshots.EmptyUntilSnapshot | lib/src/client.dart:48-66 | until the first snapshot nothing reaches the Dart graph |
| Snapshots.PresentExactly | lib/src/client.dart:62-75 | in every run, an object native at the last snapshot and not removed since is in the graph its events in flight settle to, if and only if the last event about it in flight at the snapshot was no removal, or an info about it has come since |
| Snapshots.UntouchedIsCurrent | lib/src/client.dart:62-75 | with no event about it in flight at the snapshot and no callback about it since, that graph shows exactly its native record |
| Snapshots.InformedIsCurrent | lib/src/client.dart:156-172 | in every run, from an object's info until its removal or re-announcement, that graph shows exactly its native record |
| Snapshots.ReturningNodeIsLost | lib/src/client.dart:62-75 | a run in which connecting shows a node and the removal of its former life, delivered late, takes it out although it exists |
| EventStream.EventsConserved | lib/src/client.dart:156-172 | in every run, what was in flight followed by what was posted is what Dart emitted followed by what is still in flight, event for event |
| EventStream.EmittedInOrder | lib/src/client.dart:156-172 | in every run, each Changed event the Dart client emits comes after an Added of the object with no Removed in between |
| EventStream.DisposeEnds | lib/src/client.dart:145-152 | after dispose the graph never changes and no event is emitted, whatever is still posted |
| EventStream.FirstLinkInfoIsAdded | lib/src/client.dart:93-101 | the first info of a link, whatever its state, becomes the `LinkAdded` with the link's ports that `createLink` waits for |
| Handshake.TwoRoundBarrier | src/client.cpp:136-152 | in every run, after the first round every surviving earlier object is recorded and bound; after the second an info callback has come for it and its record holds what the latest one brought |
| Handshake.ActKeepsInv | src/client.cpp:136-152 | every step of client, server and channels keeps the barrier's invariant |
| Handshake.ReceiveDone | src/client.cpp:68-72 | the awaited done event finds every tracked object past the stage of its round |
| Handshake.FirstSnapshotHoldsAll | src/client.cpp:136-143 | the snapshot taken after the two rounds reads as the native graph, and for every such object shows each field its latest info callback set |
| Handshake.CarriedShows | src/registry_monitor.cpp:349-516 | a native record that holds an info callback's values shows them in Dart, field by field |
| Handshake.CallbackKeepsInfo | src/registry_monitor.cpp:174-516 | a callback takes in what it brings and leaves what every other record's latest info brought |
| Handshake.InitialSurvives | src/client.cpp:136-143 | the objects spoken of are those of the start that no step removed |
| Handshake.OneRoundIsNotEnough | src/client.cpp:136-143 | after one round a node can be bound and still have its initial record |
| Handshake.TwoRoundsComplete | src/client.cpp:136-152 | a run, from one node on, that completes both rounds with the node recorded, bound and informed |
| Mirror.MirrorsServer | src/registry_monitor.cpp:174-347 | in every run, iterations that fail included: with the registry request handled and all messages in, each of the monitor's maps holds exactly the existing objects of its type, each with a type and a proxy |
| Mirror.SnapshotShowsServer | src/registry_monitor.cpp:140-158 | a snapshot taken then shows Dart exactly the objects that exist |
| Mirror.DifferenceIsComing | src/registry_monitor.cpp:174-347 | at any time, the removal of whatever the monitor shows too much, and the announcement of what it lacks, is on its way |
| Mirror.ListingMirrors | src/client.cpp:116-128 | the first listing, in any order, announces each existing object once and so makes the monitor's types those of the server |
| Mirror.CallbackMirrors | src/registry_monitor.cpp:174-347 | a callback that announces no known id keeps the six maps in agreement and moves the types on as its message says |
| Lifecycle.PwDartClientImpl.constructor | src/client.cpp:61-62 | nothing open, nothing logged |
| Lifecycle.PwDartClientImpl.OpenCore | src/client.cpp:82-108 | loop, context and core are open, or after any failure none is |
| Lifecycle.PwDartClientImpl.AttachCore | src/client.cpp:111-113 | the core listener is linked, a previous unlinked hook freed |
| Lifecycle.PwDartClientImpl.OpenRegistry | src/client.cpp:116-128 | registry and monitor are open, the monitor's hook linked |
| Lifecycle.PwDartClientImpl.AddSource | src/client.cpp:132-134 | the event source exists exactly when it could be made |
| Lifecycle.PwDartClientImpl.AttachMonitor | src/registry_monitor.cpp:115-122 | the registry listener is linked |
| Lifecycle.PwDartClientImpl.Connect | src/client.cpp:74-161 | succeeds exactly when connected already or no step fails; a failure leaves all handles null and makes exactly the calls up to the failing one and their undoing; success has a record for exactly the objects announced and not removed meanwhile, with a proxy exactly where the bind succeeded |
| Lifecycle.PwDartClientImpl.BindProxy | src/registry_monitor.cpp:188-199 | a proxy, with its own linked hook, results exactly when the bind succeeds |
| Lifecycle.PwDartClientImpl.ReleaseProxy | src/registry_monitor.cpp:17-30 | unlinks the hook, destroys the proxy and frees the hook, in a safe order |
| Lifecycle.PwDartClientImpl.OnAnnounced | src/registry_monitor.cpp:174-317 | the id has a record, with a proxy exactly when the bind succeeds; exactly the calls of binding it and of releasing a displaced one are made, and every other entry is as it was |
| Lifecycle.PwDartClientImpl.Store | src/registry_monitor.cpp:216 | entering a new proxy under an id releases exactly the one that was there |
| Lifecycle.PwDartClientImpl.OnRemoved | src/registry_monitor.cpp:321-347 | the id's entry is gone, its proxy is released at once, every other entry is as it was, and an unknown id changes nothing |
| Lifecycle.PwDartClientImpl.OnRegistryEvent | src/registry_monitor.cpp:174-347 | an event makes exactly the calls it stands for and leaves every other id's entry as it was |
| Lifecycle.EventDestroys | src/registry_monitor.cpp:345 | an event destroys a proxy if and only if it is the one its id held |
| Lifecycle.PwDartClientImpl.Erase | src/registry_monitor.cpp:345 | exactly the id's proxy is released and its entry gone |
| Lifecycle.PwDartClientImpl.ClearProxies | src/registry_monitor.cpp:127 | every proxy is released |
| Lifecycle.PwDartClientImpl.CreateLink | src/link_manager.cpp:16-53 | a made link leaves one more proxy to the core, and changes nothing else |
| Lifecycle.PwDartClientImpl.DetachMonitor | src/registry_monitor.cpp:134-137 | the registry hook is unlinked before it is freed |
| Lifecycle.PwDartClientImpl.DetachCore | src/client.cpp:215-218 | the core hook is unlinked before it is freed |
| Lifecycle.PwDartClientImpl.StopMonitor | src/client.cpp:194-209 | monitor, source and registry are gone, the core side untouched |
| Lifecycle.PwDartClientImpl.StopCore | src/client.cpp:215-233 | hook, core, context and loop are gone, dependents first |
| Lifecycle.PwDartClientImpl.Disconnect | src/client.cpp:163-234 | nothing lives and nothing is linked; a no-op when not connected |
| Lifecycle.PwDartClientImpl.Delete | src/client.cpp:64-66 | after destruction nothing lives, no hook is left, and the whole log is safe |
| Lifecycle.Life | src/client.cpp:64-234 | any life of a client, failures, reconnects, repeated disconnects and link commands included: after each call exactly what its session needs exists, one proxy per bound object and a listener on each; in the end nothing lives, no object was destroyed twice, and all that was created was destroyed if and only if no link was made |
| Lifecycle.OnlineShows | src/client.cpp:74-161 | what a connected client's fields own is one of each handle and as many proxies as bound objects, each listened to |
| Lifecycle.LeftExactly | src/link_manager.cpp:34-50 | a log at whose end nothing lives destroyed all it created exactly when it left no link's proxy |
| Lifecycle.OneLinkIsLeft | src/link_manager.cpp:34-50 | connecting and making one link leaves one proxy |
| Sessions.HeldExactly | src/registry_monitor.cpp:174-347 | after any registry events an id is held if and only if the last event about it announced it, or there is none and it was held before; with a proxy exactly if that announcement's bind succeeded |
| Sessions.OnlineExactly | src/client.cpp:74-234 | after any calls the client is connected if and only if a connect succeeded and no disconnect came after it |
| Sessions.ConnectedObjects | src/client.cpp:136-161 | a session's objects are those of the events of its connect and of all events since, in order |
| Sessions.NoLinksExactly | src/link_manager.cpp:34-50 | no link's proxy was left if and only if no connected client made a link |
| Lifecycle.SafeLogCounts | src/client.cpp:163-234 | in a safe log an object is created at most once and destroyed at most as often, and is live or left in between |
| Lifecycle.NothingLeaks | src/client.cpp:163-234 | a safe log at whose end nothing lives destroyed an object it created exactly when it did not leave it to the core |
| Lifecycle.DependentsFirst | src/client.cpp:191-233 | in a safe log what was made from a destroyed object was destroyed before it if and only if it is not a link's proxy |
| Lifecycle.BindIsSafe | src/registry_monitor.cpp:192-199 | binding is safe and keeps ownership |
| Lifecycle.ReleaseIsSafe | src/registry_monitor.cpp:17-30 | releasing is safe and keeps ownership |
| Lifecycle.OpenIsSafe | src/client.cpp:82-134 | opening a handle whose parent is open is safe and keeps ownership |
| Lifecycle.CloseIsSafe | src/client.cpp:200-233 | closing a handle with nothing open above it is safe and keeps ownership |
| Lifecycle.AttachCoreIsSafe | src/client.cpp:111-113 | replacing the core hook is safe, the old one being unlinked |
| Lifecycle.DetachCoreIsSafe | src/client.cpp:215-218 | unlinking and freeing the core hook is safe |
| Lifecycle.DetachMonitorIsSafe | src/registry_monitor.cpp:134-137 | unlinking and freeing the registry hook is safe |
| Layout.Compute | example/graph_viewer/lib/layout.dart:68-127 | for every graph and filter: one box per visible node, none else, pairwise apart, columns packed in name order, and a canvas with its margin around them |
| Layout.ColumnPlacement | example/graph_viewer/lib/layout.dart:98-118 | a column's boxes are sized by their ports, in its own x, and one below another |
| Layout.ColumnIsPacked | example/graph_viewer/lib/layout.dart:101-117 | the column starts at its y and each box is exactly one gap below the last |
| Layout.PlacedIsSound | example/graph_viewer/lib/layout.dart:98-118 | any name-sorted arrangement of the columns gives exactly the visible nodes' boxes, pairwise apart |
| Layout.MapIsSound | example/graph_viewer/lib/layout.dart:109-115 | entering them into the map by id keeps that |
| Layout.ColumnsReadInNameOrder | example/graph_viewer/lib/layout.dart:100 | in a column, a higher box has a name not after a lower one's |
| Layout.BucketLoop | example/graph_viewer/lib/layout.dart:80-96 | each column gets the visible nodes of its media class, in order |
| Layout.PlaceLoop | example/graph_viewer/lib/layout.dart:101-117 | the loop enters the column's boxes after those already placed |
| Layout.SortByName | example/graph_viewer/lib/layout.dart:100 | sorted by name, and a permutation |
| Layout.CanvasFor | example/graph_viewer/lib/layout.dart:121-126 | at least the minimum, 80 beyond every box, and no larger than that needs |
| Layout.ShownMeaning | example/graph_viewer/lib/layout.dart:73-77 | the filter keeps exactly the nodes whose name or class contains it |
| LayoutMeaning.ShownExactly | example/graph_viewer/lib/layout.dart:73-77 | a node is shown if and only if the filter is empty or occurs at some position of its lower-cased name or class |
| LayoutMeaning.ContainsExactly | example/graph_viewer/lib/layout.dart:75 | a text contains another if and only if that occurs at some position of it |
| LayoutMeaning.NotAboveExactly | example/graph_viewer/lib/layout.dart:100 | the order of names: alike, or lower at the first character that differs, a name before all that extend it |
| LayoutMeaning.ColumnsOfKinds | example/graph_viewer/lib/layout.dart:82-94 | sources go to the first column, sinks to the last, streams and all others between them |
| LayoutMeaning.EdgesTellKinds | example/graph_viewer/lib/layout.dart:113 | a box's left edge is at 40, 320 or 600 as its node is a source, neither or a sink, and it is 200 wide |
| LayoutMeaning.FlowsLeftToRight | example/graph_viewer/lib/layout.dart:80-96 | in every layout each source's box ends left of every box that is no source's, and each sink's starts right of every box that is no sink's |
| LayoutMeaning.BoxHeight | example/graph_viewer/lib/layout.dart:49-53 | a box is 60 high without ports, else 42 and 22 for each row of its longer side |
| LayoutMeaning.RowsAreCentred | example/graph_viewer/lib/layout.dart:33-37 | on the longer side the first port is as far below the header's padding as the last is above the bottom's, and rows are 22 apart |
| LayoutMeaning.ColumnFigures | example/graph_viewer/lib/layout.dart:101-117 | a column's first box starts at 40, and each next one 24 below the end of the last |
| LayoutMeaning.CanvasFigures | example/graph_viewer/lib/layout.dart:121-126 | the canvas is at least 1280 by 880, just that without boxes, and leaves 80 beyond each box |
| LayoutMeaning.DiscReach | example/graph_viewer/lib/layout.dart:138-142 | along an axis a point hits a port exactly up to 8 from its centre, the 8 included |
| LayoutMeaning.BoxReach | example/graph_viewer/lib/layout.dart:131 | a box holds the points from its upper left corner on, its right and lower edges not included |
| LayoutMeaning.NodePortsInOrder | lib/src/graph.dart:112-113 | a node's ports keep the order the graph holds them in |
| LayoutMeaning.SideInOrder | example/graph_viewer/lib/layout.dart:103-107 | each side of a box keeps that order too |
| HitTest.PortAt | example/graph_viewer/lib/layout.dart:137-154 | returns a port whose disc holds the point, and none only if no disc does |
| HitTest.SideAt | example/graph_viewer/lib/layout.dart:140-151 | the same for one side of one box |
| HitTest.NodeAt | example/graph_viewer/lib/layout.dart:129-134 | returns the only box that contains the point, if any |
| HitTest.HitIsUnique | example/graph_viewer/lib/layout.dart:137-154 | discs of distinct ports share no point, so the order of the walk does not matter |
| HitTest.CenterHitsItself | example/graph_viewer/lib/layout.dart:28-38 | the centre of every visible port is in that port's disc and no other |
| HitTest.CenterOfPort | example/graph_viewer/lib/layout.dart:28-38 | `portCenter` finds each port of a box on its own side and row |
| HitTest.CenterOnEdge | example/graph_viewer/lib/layout.dart:33-37 | a centre is on the left or right edge, strictly between header and bottom padding |
| HitTest.RowsArePorts | example/graph_viewer/lib/layout.dart:103-107 | a box's sides hold exactly its node's ports of that direction |
| Params.ParamHandler.constructor | src/param_handler.cpp:36 | an empty cache |
| Params.ParamHandler.UpdateCache | src/param_handler.cpp:122-130 | sets value and type of one key of one node and nothing else |
| Params.UpdatedExactly | src/param_handler.cpp:122-130 | after an update the key has that value and type, the node's other keys and all other nodes are as they were, and a new node has that key only |
| Params.ParamHandler.SetParam | src/param_handler.cpp:63-89 | -1 without a client, -2 for an unreadable request, both without effect; else the decoded value is cached under type "String" and posted |
| Params.ParamHandler.EnumParams | src/param_handler.cpp:40-61 | posts the cached parameters' text as one event, unless there is no client or monitor |
| Params.ParamHandler.ClearCache | src/param_handler.cpp:132-135 | forgets one node |
| Params.ParamHandler.GetCachedParamsJson | src/param_handler.cpp:91-120 | `[]` for an unknown node, else every entry once, separated by commas |
| Params.DeserializeParams | lib/src/ffi/serialization.dart:40-54 | a readable list gives its parameters by key; anything else gives none |
| Params.PrintedRead | src/param_handler.cpp:98-119 | for plain names and JSON values the hand-built text is a valid JSON array of the entries |
| Params.ParamsRoundTrip | lib/src/ffi/serialization.dart:40-54 | reading that text gives exactly the cached keys, values and types |
| Params.ParamRoundTrip | lib/src/models/param.dart:87-107 | a parameter written by Dart reads back as itself |
| Params.BareParam | lib/src/models/param.dart:87-98 | an object with a key only reads as a readable, unwritable parameter of unknown type without value |
| Params.TypesReadBack | lib/src/models/param.dart:14-32 | each type's name reads as that type, in two spellings, and no other text does |
| ParamsExact.ReadsExactlyJson | src/param_handler.cpp:101-118 | among values that are JSON texts or hold no quotation mark, the cached keys come back if and only if every value is a JSON text; otherwise no parameter does |
| ParamsExact.SetTextLosesAll | src/param_handler.cpp:74-75 | caching a decoded text that is no JSON text makes every parameter of the node unreadable |
| ParamsExact.ChannelListLosesAll | src/param_handler.cpp:74-75 | setting `channels` to `FL,FR` on a node without parameters leaves none to read |
| ParamsExact.QuotedValueSlipsThrough | src/param_handler.cpp:108-112 | a value with a quotation mark can supply a member of its own, so that the keys come back although it is no JSON text |
| ParamsExact.SetJsonReadsBack | src/param_handler.cpp:74-75 | a JSON text set as a parameter comes back as its value, and the node's other parameters as they were |
| ParamsExact.SetNumberReadsBack | lib/src/ffi/native_bridge.dart:90-97 | a number set as a parameter, through its decimal text, comes back as that number |
| ParamsExact.QuotedTextReadsBack | src/param_handler.hpp:70 | cached as the JSON string the cache is documented to hold, any text comes back as itself |
| JsonText.ValueMore | lib/src/ffi/serialization.dart:42 | a JSON value reads the same before any text that cannot continue a number |
| JsonText.NaturalReads | lib/src/ffi/serialization.dart:42 | a decimal numeral reads as its number |
| JsonText.NegativeReads | lib/src/ffi/serialization.dart:42 | a negative numeral reads as the negative number |
| JsonText.LiteralsRead | lib/src/ffi/serialization.dart:42 | the three literals read as themselves |
| JsonText.CodeReads | lib/src/ffi/serialization.dart:42 | a four-digit escape reads as the character of that code |
| JsonText.PairReads | lib/src/ffi/serialization.dart:42 | two surrogate escapes read as the one character they stand for |
| JsonText.TextIsJson | lib/src/models/node.dart:53-57 | the text Dart makes of a literal or whole number reads back as it |
| JsonSyntax.NumberExactly | lib/src/ffi/serialization.dart:42 | a text is read whole as a number if and only if it can be cut into sign, int, fraction and exponent as the grammar of RFC 8259 has them |
| JsonSyntax.BlanksIgnored | lib/src/ffi/serialization.dart:42 | blanks around a JSON text make no difference, and any other text behind it makes it unreadable |
| JsonSyntax.ControlRefused | lib/src/ffi/serialization.dart:42 | a string with a bare control character is unreadable |
| DotLabel.SequentialIsSinglePass | example/pw_dot.dart:67-74 | the seven replacements in sequence equal one pass that escapes the seven characters |
| DotLabel.BackslashMustGoFirst | example/pw_dot.dart:67-69 | with backslash replaced later they do not |
| DotLabel.UnescapeInverts | example/pw_dot.dart:67-74 | unescaping recovers every string |
| DotLabel.SplitJoin | example/pw_dot.dart:45-49 | fields joined by bars split back at the unescaped bars outside braces |
| DotLabel.LabelRoundTrip | example/pw_dot.dart:39-50 | a label determines every port's id, name and side, each behind the anchor of its side and id, the node's name and its class, for all names |
| DotLabel.LabelQuoteSafe | example/pw_dot.dart:50 | a label holds no unescaped quotation mark |
| Version.ParseVersion | src/pw_dart_native.cpp:101-114 | the step-by-step parse finds the components up to the first missing point |
| Version.LibraryVersion | src/pw_dart_native.cpp:101-116 | the packed word of those components |
| Version.TextParses | src/pw_dart_native.cpp:104-114 | every decimal "M.m.p" within `unsigned long` parses to its components |
| Version.SuffixIgnored | src/pw_dart_native.cpp:104-114 | so does such a text with anything after it that does not start with a digit |
| Version.MissingAreZero | src/pw_dart_native.cpp:101-114 | without a text, or without a point, the components not reached are 0 |
| Version.StrtoulEdges | src/pw_dart_native.cpp:104-114 | a component beyond `unsigned long` saturates, a leading space or plus is skipped, a minus wraps around |
| Version.PackIsPositional | src/pw_dart_native.cpp:115 | for components below 256 the shifts and ors are base-256 positions |
| Version.CodecExact | lib/src/ffi/native_bridge.dart:109-113 | unpacking returns the packed components if and only if all are below 256 |
| Version.VersionRoundTrip | src/pw_dart_native.cpp:101-116 | text, parse, pack, unpack returns (M, m, p) |
| Version.WordOrder | lib/src/version.dart:39-45 | the order of packed words is the component-wise order |
| Version.ComparisonsAreWordOrder | lib/src/ffi/native_bridge.dart:136-142 | the minimum test is that order against the word 0x000328, and compatibility is that order among equal majors |
| Version.DocumentedRuleDiffers | lib/src/version.dart:23-27 | the documented rule differs from the code exactly on equal minors with a smaller micro |

## Left out

- Params.ParamsRoundTrip: keys and type names are taken to be free of quotes, backslashes and control characters, which the writer does not escape; parameter names are identifiers.
- ParamsExact.ReadsExactlyJson: values that hold a quotation mark without being JSON texts are not covered; for them the equivalence is false, as `QuotedValueSlipsThrough` shows.
- Params.ParamHandler.SetParam: reading the request text is left to Glaze, and its result is an argument.
- Handshake.TwoRoundBarrier: runs in which a loop iteration returns an error, where the code leaves the round early and promises nothing.
- Drain.CommandChannel.DrainCommands: pushes during the drain and stale loads are covered by `Spsc.EveryRunIsSafe` and `Spsc.DrainStopsAt`, not by this method.
- Waking the loop when a command arrives, and so when commands are carried out: the event source is created but `pw_loop_signal_event` is never called.
- PipeWire's server and library beyond an ordered channel, and `on_core_error_event`, which only prints.
- Dart FFI, library lookup, the build hook and `Dart_PostCObject_DL`: posted strings arrive in order and unaltered.
- The threads of connect and disconnect (starting, quitting and joining the loop), and mutexes: a callback and its post are one step.
- The `pw_dart_*` wrappers that copy strings and check null handles, and the header-version macro.
- Numeric properties that `std::stoul` would reject or read with signs or spaces: a leading run of digits modulo 2^32 is read instead.
- Serializer failures, and the encoders of Glaze and Dart: events and snapshots are JSON trees; only the parameter text is read as characters, with lone surrogate escapes refused.
- Property values that are numbers with fractions, lists or objects, whose Dart `toString` text is not modelled.
- Events for devices, which the code does not post, and forgetting a node's parameters when it is removed, which it does not do.
- How PipeWire disposes of a link's proxy with its core, `destroy_link`'s effect on the server, and `createLink`'s five-second wait.
- Which moved-from value `try_push(T&&)` leaves with its caller.
- Lower-casing beyond ASCII in the layout's filter and column choice, and rounding of its coordinates, all of which are whole numbers.
- Boxes dragged by the user, painting and the other widgets of the viewer, and the other command-line examples.
- `copyWith`, `toString`, `summary` and `linksForNode`.
