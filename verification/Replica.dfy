/**
  The graph replicated to Dart: native state, events in flight, and the Dart
  client that takes a snapshot and then replays events, some of which were
  posted before the snapshot was taken.
 */
module Replica {
  import opened Prelude
  import opened JsonTree
  import opened JsonList
  import opened Records
  import opened Graph
  import opened Registry

  // --------------------------------------------------------- the Dart client

  class PwClient {
    var graph: PwGraph
    var disposed: bool
    var emitted: seq<PwEvent>

    /** connect(): the client starts from the first snapshot. */
    constructor (snapshot: PwGraph)
      ensures graph == snapshot && !disposed && emitted == []
    {
      graph, disposed, emitted := snapshot, false, [];
    }

    /** The port listener: unreadable messages and messages after dispose are dropped. */
    method OnMessage(message: Json)
      modifies this
      ensures disposed == old(disposed)
      ensures graph == Received(old(graph), old(disposed), message)
      ensures emitted == if disposed || Deserialize(message).None? then old(emitted)
                         else old(emitted) + [Deserialize(message).value]
    {
      if disposed { return; }
      var event := Deserialize(message);
      if event.Some? {
        graph := ApplyEvent(graph, event.value);
        emitted := emitted + [event.value];
      }
    }

    /** False stands for a thrown error: disposed, or an unreadable snapshot. */
    method RefreshGraph(snapshot: map<string, Json>) returns (ok: bool)
      modifies this
      ensures ok <==> !disposed && GraphFromFields(snapshot).Some?
      ensures graph == if ok then GraphFromFields(snapshot).value else old(graph)
      ensures disposed == old(disposed) && emitted == old(emitted)
    {
      if disposed { return false; }
      var read := FromJson(snapshot);
      if read.None? { return false; }
      graph := read.value;
      return true;
    }

    method Dispose()
      modifies this
      ensures disposed && graph == old(graph) && emitted == old(emitted)
    {
      disposed := true;
    }
  }

  function Received(g: PwGraph, disposed: bool, message: Json): PwGraph {
    if !disposed && Deserialize(message).Some? then ApplyEvent(g, Deserialize(message).value) else g
  }

  // --------------------------------------------------------------- the system

  datatype Phase = Connecting | Listening | Disposed

  datatype System = System(
    native: Native,
    announced: set<Slot>,      // an info callback has arrived since the last announcement
    queue: seq<GraphEvent>,    // posted, not yet delivered
    dart: PwGraph,
    phase: Phase)

  datatype Action =
    | Call(cb: Callback)
    | PostParam(node: nat, key: string, value: string)
    | Start(order: Orders)     // the snapshot taken by connect
    | Refresh(order: Orders)
    | Deliver
    | Dispose

  const INITIAL := System(NO_OBJECTS, {}, [], EMPTY, Connecting)

  function SlotKind(kind: GlobalKind): Option<Kind> {
    match kind
    case GNode => Some(KNode)
    case GPort => Some(KPort)
    case GLink => Some(KLink)
    case GDevice => None
  }

  function RenewedBy(kind: GlobalKind, id: nat): set<Slot> {
    if SlotKind(kind).Some? then {Slot(SlotKind(kind).value, id)} else {}
  }

  /** The slot an announcement makes new again. */
  function Renewed(cb: Callback): set<Slot> {
    if cb.OnGlobal? && KindOf(cb.global.iface).Some?
    then RenewedBy(KindOf(cb.global.iface).value, cb.global.id)
    else {}
  }

  /**
    An info callback that finds its record announces the object; a removal or
    a new announcement of the id withdraws it. What is posted plays no part.
   */
  function AnnouncedAfterStep(a: set<Slot>, n: Native, cb: Callback): set<Slot> {
    match cb
    case OnGlobal(_) => a - Renewed(cb)
    case OnRemove(id) => if id in n.idTypes then a - RenewedBy(n.idTypes[id], id) else a
    case OnNode(id, u) => if u.Some? && id in n.nodes then a + {Slot(KNode, id)} else a
    case OnPort(id, u) => if u.Some? && id in n.ports then a + {Slot(KPort, id)} else a
    case OnLink(id, u) => if u.Some? && id in n.links then a + {Slot(KLink, id)} else a
    case OnDevice(_, _) => a
  }

  ghost predicate CanAct(s: System, a: Action) {
    match a
    case Call(_) => true
    case PostParam(_, _, _) => true
    case Start(order) => s.phase.Connecting? && OrdersListing(order, s.native)
    case Refresh(order) => s.phase.Listening? && OrdersListing(order, s.native)
    case Deliver => s.phase.Listening? && s.queue != []
    case Dispose => s.phase.Listening?
  }

  ghost function Snapshot(s: System, order: Orders): PwGraph
    requires OrdersListing(order, s.native)
  {
    var read := GraphFromFields(SnapshotFields(s.native, order));
    if read.Some? then read.value else s.dart
  }

  ghost function Act(s: System, a: Action): System
    requires CanAct(s, a)
  {
    match a
    case Call(cb) =>
      s.(native := Step(s.native, cb),
         announced := AnnouncedAfterStep(s.announced, s.native, cb),
         queue := s.queue + Posts(s.native, cb))
    case PostParam(node, key, value) => s.(queue := s.queue + [ParamChangedEvent(node, key, value)])
    case Start(order) => s.(dart := Snapshot(s, order), phase := Listening)
    case Refresh(order) => s.(dart := Snapshot(s, order))
    case Deliver => s.(queue := s.queue[1..], dart := Received(s.dart, false, Serialize(s.queue[0])))
    case Dispose => s.(phase := Disposed)
  }

  // -------------------------------------------------------------- convergence

  function EventsOf(es: seq<GraphEvent>): seq<PwEvent> {
    seq(|es|, i requires 0 <= i < |es| => EventOf(es[i]))
  }

  /** The Dart form of a native record. */
  function NativeFind(n: Native, slot: Slot): Option<Record> {
    match slot.kind
    case KNode => if slot.id in n.nodes then Some(RNode(NodeOf(n.nodes[slot.id]))) else None
    case KPort => if slot.id in n.ports then Some(RPort(PortOf(n.ports[slot.id]))) else None
    case KLink => if slot.id in n.links then Some(RLink(LinkOf(n.links[slot.id]))) else None
  }

  /** The Dart graph once every event in flight has been delivered. */
  function Settled(s: System): PwGraph {
    Replay(s.dart, EventsOf(s.queue))
  }

  /** A replica content that is stale at worst: present only if native, and current once announced. */
  predicate Agrees(n: Native, announced: set<Slot>, slot: Slot, content: Option<Record>) {
    && (content.Some? ==> NativeFind(n, slot).Some?)
    && (slot in announced ==> content.Some? && content == NativeFind(n, slot))
  }

  ghost predicate Converging(s: System) {
    && Keyed(s.native)
    && forall slot: Slot :: Agrees(s.native, s.announced, slot, Find(Settled(s), slot))
  }

  /** What a callback leaves in the settled replica at a slot. */
  function ContentAfter(n: Native, cb: Callback, slot: Slot, content: Option<Record>): Option<Record> {
    if Posts(n, cb) != [] && Target(EventOf(Posts(n, cb)[0])) == Some(slot)
    then Payload(EventOf(Posts(n, cb)[0])) else content
  }

  lemma NativeCallbackAgrees(n: Native, announced: set<Slot>, cb: Callback, slot: Slot, content: Option<Record>)
    requires Keyed(n) && Agrees(n, announced, slot, content)
    ensures Agrees(Step(n, cb), AnnouncedAfterStep(announced, n, cb), slot, ContentAfter(n, cb, slot, content))
  {
    match cb
    case OnGlobal(g) =>
      if KindOf(g.iface).Some? { GlobalAgrees(n, announced, g, KindOf(g.iface).value, slot, content); }
    case OnRemove(id) => RemoveAgrees(n, announced, id, slot, content);
    case OnNode(id, u) =>
      if u.Some? && id in n.nodes { NodeInfoAgrees(n, announced, id, u.value, slot, content); }
    case OnPort(id, u) =>
      if u.Some? && id in n.ports { PortInfoAgrees(n, announced, id, u.value, slot, content); }
    case OnLink(id, u) =>
      if u.Some? && id in n.links { LinkInfoAgrees(n, announced, id, u.value, slot, content); }
    case OnDevice(_, _) =>
  }

  /** Erasing a record leaves its slot empty on both sides once the removal arrives. */
  lemma RemoveKindAgrees(n: Native, announced: set<Slot>, id: nat, kind: GlobalKind, slot: Slot,
                         content: Option<Record>)
    requires Agrees(n, announced, slot, content)
    ensures Agrees(RemoveKind(n, id, kind), announced - RenewedBy(kind, id), slot,
                   if SlotKind(kind).Some? && slot == Slot(SlotKind(kind).value, id) then None else content)
  {
  }

  lemma RemoveAgrees(n: Native, announced: set<Slot>, id: nat, slot: Slot, content: Option<Record>)
    requires Agrees(n, announced, slot, content)
    ensures Agrees(AfterRemove(n, id), AnnouncedAfterStep(announced, n, OnRemove(id)), slot,
                   ContentAfter(n, OnRemove(id), slot, content))
  {
    if id in n.idTypes { RemoveKindAgrees(n, announced, id, n.idTypes[id], slot, content); }
  }

  lemma GlobalAgrees(n: Native, announced: set<Slot>, g: Global, kind: GlobalKind, slot: Slot, content: Option<Record>)
    requires Agrees(n, announced, slot, content)
    ensures Agrees(AfterKind(n, g, kind), announced - RenewedBy(kind, g.id), slot, content)
  {
  }

  lemma PutNodeAgrees(n: Native, announced: set<Slot>, id: nat, x: NodeInfo, slot: Slot, content: Option<Record>)
    requires Agrees(n, announced, slot, content) && id in n.nodes
    ensures var mine := Slot(KNode, id);
            Agrees(n.(nodes := n.nodes[id := x]), announced + {mine}, slot,
                   if slot == mine then Some(RNode(NodeOf(x))) else content)
  {
  }

  lemma NodeInfoAgrees(n: Native, announced: set<Slot>, id: nat, u: NodeUpdate, slot: Slot, content: Option<Record>)
    requires Keyed(n) && Agrees(n, announced, slot, content) && id in n.nodes
    ensures var cb := OnNode(id, Some(u));
            Agrees(Step(n, cb), AnnouncedAfterStep(announced, n, cb), slot, ContentAfter(n, cb, slot, content))
  {
    var cb, x := OnNode(id, Some(u)), UpdatedNode(n.nodes[id], u);
    assert |Posts(n, cb)| == 1;
    var e := EventOf(Posts(n, cb)[0]);
    assert Target(e) == Some(Slot(KNode, id)) && Payload(e) == Some(RNode(NodeOf(x)));
    PutNodeAgrees(n, announced, id, x, slot, content);
  }

  lemma PutPortAgrees(n: Native, announced: set<Slot>, id: nat, x: PortInfo, slot: Slot, content: Option<Record>)
    requires Agrees(n, announced, slot, content) && id in n.ports
    ensures var mine := Slot(KPort, id);
            Agrees(n.(ports := n.ports[id := x]), announced + {mine}, slot,
                   if slot == mine then Some(RPort(PortOf(x))) else content)
  {
  }

  lemma PortInfoAgrees(n: Native, announced: set<Slot>, id: nat, u: PortUpdate, slot: Slot, content: Option<Record>)
    requires Keyed(n) && Agrees(n, announced, slot, content) && id in n.ports
    ensures var cb := OnPort(id, Some(u));
            Agrees(Step(n, cb), AnnouncedAfterStep(announced, n, cb), slot, ContentAfter(n, cb, slot, content))
  {
    var cb, x := OnPort(id, Some(u)), UpdatedPort(n.ports[id], u);
    assert |Posts(n, cb)| == 1;
    var e := EventOf(Posts(n, cb)[0]);
    assert Target(e) == Some(Slot(KPort, id)) && Payload(e) == Some(RPort(PortOf(x)));
    PutPortAgrees(n, announced, id, x, slot, content);
  }

  lemma PutLinkAgrees(n: Native, announced: set<Slot>, id: nat, x: LinkInfo, slot: Slot, content: Option<Record>)
    requires Agrees(n, announced, slot, content) && id in n.links
    ensures var mine := Slot(KLink, id);
            Agrees(n.(links := n.links[id := x]), announced + {mine}, slot,
                   if slot == mine then Some(RLink(LinkOf(x))) else content)
  {
  }

  lemma LinkInfoAgrees(n: Native, announced: set<Slot>, id: nat, u: LinkUpdate, slot: Slot, content: Option<Record>)
    requires Keyed(n) && Agrees(n, announced, slot, content) && id in n.links
    ensures var cb := OnLink(id, Some(u));
            Agrees(Step(n, cb), AnnouncedAfterStep(announced, n, cb), slot, ContentAfter(n, cb, slot, content))
  {
    var cb, x := OnLink(id, Some(u)), UpdatedLink(n.links[id], u);
    assert |Posts(n, cb)| == 1;
    var e := EventOf(Posts(n, cb)[0]);
    assert Target(e) == Some(Slot(KLink, id)) && Payload(e) == Some(RLink(LinkOf(x)));
    PutLinkAgrees(n, announced, id, x, slot, content);
  }

  lemma PostSettles(g: PwGraph, queue: seq<GraphEvent>, e: GraphEvent)
    ensures Replay(g, EventsOf(queue + [e])) == ApplyEvent(Replay(g, EventsOf(queue)), EventOf(e))
  {
    var es := EventsOf(queue + [e]);
    assert es[..|es| - 1] == EventsOf(queue);
  }

  lemma NativeStepConverges(s: System, cb: Callback)
    requires Converging(s)
    ensures Converging(Act(s, Call(cb)))
  {
    var t := Act(s, Call(cb));
    var posts := Posts(s.native, cb);
    StepKeepsKeyed(s.native, cb);
    if posts == [] {
      assert t.queue == s.queue;
    } else {
      assert posts == [posts[0]];
      PostSettles(s.dart, s.queue, posts[0]);
    }
    forall slot: Slot
      ensures Agrees(t.native, t.announced, slot, Find(Settled(t), slot))
    {
      NativeCallbackAgrees(s.native, s.announced, cb, slot, Find(Settled(s), slot));
      if posts != [] { ApplyFind(Settled(s), EventOf(posts[0]), slot); }
    }
  }

  /** The Dart form of the native maps. */
  function DartOf(n: Native): PwGraph {
    PwGraph(NodesOf(n.nodes), PortsOf(n.ports), LinksOf(n.links), DevicesOf(n.devices))
  }

  function NodesOf(m: map<nat, NodeInfo>): map<nat, PwNode> {
    map k | k in m :: NodeOf(m[k])
  }

  function PortsOf(m: map<nat, PortInfo>): map<nat, PwPort> {
    map k | k in m :: PortOf(m[k])
  }

  function LinksOf(m: map<nat, LinkInfo>): map<nat, PwLink> {
    map k | k in m :: LinkOf(m[k])
  }

  function DevicesOf(m: map<nat, DeviceInfo>): map<nat, PwDevice> {
    map k | k in m :: DeviceOf(m[k])
  }

  lemma SnapshotParts(n: Native, order: Orders)
    requires OrdersListing(order, n)
    ensures var f := SnapshotFields(n, order);
            && Get(f, "nodes") == ObjectList(order.nodes, n.nodes, NodeInfoJson)
            && Get(f, "ports") == ObjectList(order.ports, n.ports, PortInfoJson)
            && Get(f, "links") == ObjectList(order.links, n.links, LinkInfoJson)
            && Get(f, "devices") == ObjectList(order.devices, n.devices, DeviceInfoJson)
  {
  }

  /** Reading a native snapshot yields exactly the native records, in their Dart form. */
  lemma SnapshotIsExact(n: Native, order: Orders)
    requires Keyed(n) && OrdersListing(order, n)
    ensures GraphFromFields(SnapshotFields(n, order)) == Some(DartOf(n))
  {
    SnapshotParts(n, order);
    SnapshotNodes(order.nodes, n.nodes);
    SnapshotPorts(order.ports, n.ports);
    SnapshotLinks(order.links, n.links);
    SnapshotDevices(order.devices, n.devices);
  }

  lemma DartOfFind(n: Native, slot: Slot)
    ensures Find(DartOf(n), slot) == NativeFind(n, slot)
  {
  }

  lemma SnapshotNodes(keys: seq<nat>, m: map<nat, NodeInfo>)
    requires Lists(keys, m) && forall k :: k in m ==> m[k].id == k
    ensures ReadAll(Items(ObjectList(keys, m, NodeInfoJson)), NodeFromJson, NodeId) == Some(NodesOf(m))
  {
    var items, r := Items(ObjectList(keys, m, NodeInfoJson)), NodesOf(m);
    forall i | 0 <= i < |keys|
      ensures keys[i] in r && NodeFromJson(items[i]) == Some(r[keys[i]])
    {
      assert keys[i] in keys;
      WireNode(m[keys[i]]);
    }
    ReadFullListing(items, NodeFromJson, NodeId, keys, r);
  }

  lemma SnapshotPorts(keys: seq<nat>, m: map<nat, PortInfo>)
    requires Lists(keys, m) && forall k :: k in m ==> m[k].id == k
    ensures ReadAll(Items(ObjectList(keys, m, PortInfoJson)), PortFromJson, PortId) == Some(PortsOf(m))
  {
    var items, r := Items(ObjectList(keys, m, PortInfoJson)), PortsOf(m);
    forall i | 0 <= i < |keys|
      ensures keys[i] in r && PortFromJson(items[i]) == Some(r[keys[i]])
    {
      assert keys[i] in keys;
      WirePort(m[keys[i]]);
    }
    ReadFullListing(items, PortFromJson, PortId, keys, r);
  }

  lemma SnapshotLinks(keys: seq<nat>, m: map<nat, LinkInfo>)
    requires Lists(keys, m) && forall k :: k in m ==> m[k].id == k
    ensures ReadAll(Items(ObjectList(keys, m, LinkInfoJson)), LinkFromJson, LinkId) == Some(LinksOf(m))
  {
    var items, r := Items(ObjectList(keys, m, LinkInfoJson)), LinksOf(m);
    forall i | 0 <= i < |keys|
      ensures keys[i] in r && LinkFromJson(items[i]) == Some(r[keys[i]])
    {
      assert keys[i] in keys;
      WireLink(m[keys[i]]);
    }
    ReadFullListing(items, LinkFromJson, LinkId, keys, r);
  }

  lemma SnapshotDevices(keys: seq<nat>, m: map<nat, DeviceInfo>)
    requires Lists(keys, m) && forall k :: k in m ==> m[k].id == k
    ensures ReadAll(Items(ObjectList(keys, m, DeviceInfoJson)), DeviceFromJson, DeviceId) == Some(DevicesOf(m))
  {
    var items, r := Items(ObjectList(keys, m, DeviceInfoJson)), DevicesOf(m);
    forall i | 0 <= i < |keys|
      ensures keys[i] in r && DeviceFromJson(items[i]) == Some(r[keys[i]])
    {
      assert keys[i] in keys;
      WireDevice(m[keys[i]]);
    }
    ReadFullListing(items, DeviceFromJson, DeviceId, keys, r);
  }

  /**
    A snapshot keeps convergence although events posted before it are still
    to be replayed over it: a slot some queued event touches is decided by
    that event as before, and every other slot is now the native record.
   */
  lemma SnapshotConverges(s: System, order: Orders, t: System)
    requires Converging(s) && OrdersListing(order, s.native)
    requires t.native == s.native && t.announced == s.announced && t.queue == s.queue && t.dart == Snapshot(s, order)
    requires forall slot: Slot :: slot in s.announced ==> NativeFind(s.native, slot).Some?
    ensures Converging(t)
  {
    SnapshotIsExact(s.native, order);
    forall slot: Slot
      ensures Agrees(t.native, t.announced, slot, Find(Settled(t), slot))
    {
      DartOfFind(s.native, slot);
      ReplayFind(s.dart, EventsOf(s.queue), slot);
      ReplayFind(t.dart, EventsOf(s.queue), slot);
      assert Agrees(s.native, s.announced, slot, Find(Settled(s), slot));
    }
  }

  lemma AnnouncedIsNative(s: System)
    requires Converging(s)
    ensures forall slot: Slot :: slot in s.announced ==> NativeFind(s.native, slot).Some?
  {
    forall slot: Slot | slot in s.announced
      ensures NativeFind(s.native, slot).Some?
    {
      assert Agrees(s.native, s.announced, slot, Find(Settled(s), slot));
    }
  }

  lemma ActConverges(s: System, a: Action)
    requires Converging(s) && CanAct(s, a)
    ensures Converging(Act(s, a))
  {
    AnnouncedIsNative(s);
    match a
    case Call(cb) => NativeStepConverges(s, cb);
    case PostParam(node, key, value) =>
      PostSettles(s.dart, s.queue, ParamChangedEvent(node, key, value));
      assert Settled(Act(s, a)) == Settled(s);
    case Start(order) => SnapshotConverges(s, order, Act(s, a));
    case Refresh(order) => SnapshotConverges(s, order, Act(s, a));
    case Deliver =>
      DeliverSettles(s);
      assert Settled(Act(s, a)) == Settled(s);
    case Dispose =>
      assert Settled(Act(s, a)) == Settled(s);
  }

  /** A delivery moves nothing in the settled graph. */
  lemma DeliverSettles(s: System)
    requires s.phase.Listening? && s.queue != []
    ensures Settled(Act(s, Deliver)) == Settled(s)
  {
    WireEvent(s.queue[0]);
    ReplayFront(s.dart, EventsOf(s.queue));
    assert EventsOf(s.queue)[1..] == EventsOf(s.queue[1..]);
  }

  ghost predicate Possible(s: System, acts: seq<Action>)
    decreases |acts|
  {
    acts == [] || (CanAct(s, acts[0]) && Possible(Act(s, acts[0]), acts[1..]))
  }

  ghost function After(s: System, acts: seq<Action>): System
    requires Possible(s, acts)
    decreases |acts|
  {
    if acts == [] then s else After(Act(s, acts[0]), acts[1..])
  }

  lemma {:induction false} RunConverges(s: System, acts: seq<Action>)
    requires Converging(s) && Possible(s, acts)
    ensures Converging(After(s, acts))
    decreases |acts|
  {
    if acts != [] {
      ActConverges(s, acts[0]);
      RunConverges(Act(s, acts[0]), acts[1..]);
    }
  }

  /**
    Convergence in every reachable state: replaying the events in flight over
    the Dart graph gives a graph all of whose objects exist natively and which
    equals the native record for every announced object.
   */
  lemma EveryStateConverges(acts: seq<Action>)
    requires Possible(INITIAL, acts)
    ensures Converging(After(INITIAL, acts))
  {
    forall slot: Slot
      ensures Agrees(NO_OBJECTS, {}, slot, Find(Settled(INITIAL), slot))
    {
    }
    RunConverges(INITIAL, acts);
  }

  /** Delivering everything in flight. */
  ghost function DeliverAll(s: System): System
    requires s.phase.Listening?
    decreases |s.queue|
  {
    if s.queue == [] then s else DeliverAll(Act(s, Deliver))
  }

  lemma {:induction false} DeliverAllSettles(s: System)
    requires s.phase.Listening?
    ensures DeliverAll(s).dart == Settled(s) && DeliverAll(s).queue == []
    ensures DeliverAll(s).native == s.native && DeliverAll(s).announced == s.announced
    decreases |s.queue|
  {
    if s.queue != [] {
      DeliverSettles(s);
      DeliverAllSettles(Act(s, Deliver));
    }
  }

  /** Every native node, port and link has had its info callback. */
  ghost predicate AllAnnounced(s: System) {
    forall slot: Slot :: NativeFind(s.native, slot).Some? ==> slot in s.announced
  }

  /** Contents that agree everywhere are subsets, and equal the native maps when all is announced. */
  lemma AgreementOfMaps(n: Native, announced: set<Slot>, g: PwGraph)
    requires forall slot: Slot :: Agrees(n, announced, slot, Find(g, slot))
    ensures g.nodes.Keys <= n.nodes.Keys && g.ports.Keys <= n.ports.Keys && g.links.Keys <= n.links.Keys
    ensures (forall slot: Slot :: NativeFind(n, slot).Some? ==> slot in announced)
            ==> g == DartOf(n).(devices := g.devices)
  {
    forall id | id in g.nodes ensures id in n.nodes {
      assert Agrees(n, announced, Slot(KNode, id), Find(g, Slot(KNode, id)));
    }
    forall id | id in g.ports ensures id in n.ports {
      assert Agrees(n, announced, Slot(KPort, id), Find(g, Slot(KPort, id)));
    }
    forall id | id in g.links ensures id in n.links {
      assert Agrees(n, announced, Slot(KLink, id), Find(g, Slot(KLink, id)));
    }
    if forall slot: Slot :: NativeFind(n, slot).Some? ==> slot in announced {
      var d := DartOf(n).(devices := g.devices);
      forall slot: Slot ensures Find(g, slot) == Find(d, slot) {
        DartOfFind(n, slot);
        assert Agrees(n, announced, slot, Find(g, slot));
        assert Find(d, slot) == Find(DartOf(n), slot);
      }
      SameEverywhere(g, d);
    }
  }

  /**
    Once the queue drains, Dart's maps are subsets of the native ones, current
    on announced objects; when all native objects are announced the maps agree
    completely.
   */
  lemma DrainedReplicaAgrees(s: System)
    requires Converging(s) && s.phase.Listening?
    ensures var g := DeliverAll(s).dart;
            && g.nodes.Keys <= s.native.nodes.Keys
            && g.ports.Keys <= s.native.ports.Keys
            && g.links.Keys <= s.native.links.Keys
            && (forall slot: Slot :: slot in s.announced ==> Find(g, slot) == NativeFind(s.native, slot))
            && (AllAnnounced(s) ==> g == DartOf(s.native).(devices := g.devices))
  {
    DeliverAllSettles(s);
    var g := DeliverAll(s).dart;
    forall slot: Slot ensures Agrees(s.native, s.announced, slot, Find(g, slot)) {
    }
    AgreementOfMaps(s.native, s.announced, g);
  }

  /** Being announced is needed: after an announcement alone, a drained Dart graph lacks the native node. */
  lemma UnannouncedMayBeMissing(order: Orders, id: nat)
    requires OrdersListing(order, NO_OBJECTS)
    ensures var g := Global(id, Some("PipeWire:Interface:Node"), None, true);
            var acts := [Start(order), Call(OnGlobal(g))];
            && Possible(INITIAL, acts)
            && var s := After(INITIAL, acts);
            s.queue == [] && id in s.native.nodes && id !in s.dart.nodes
  {
    var g := Global(id, Some("PipeWire:Interface:Node"), None, true);
    SnapshotIsExact(NO_OBJECTS, order);
    var s := Act(INITIAL, Start(order));
    assert s.dart == DartOf(NO_OBJECTS) && id !in s.dart.nodes;
    NewNodeUnseen(s, g);
    TwoActs(INITIAL, Start(order), Call(OnGlobal(g)));
  }

  /** An announcement posts nothing and leaves the Dart graph as it is. */
  lemma NewNodeUnseen(s: System, g: Global)
    requires g.iface == Some("PipeWire:Interface:Node")
    ensures var t := Act(s, Call(OnGlobal(g)));
            t.queue == s.queue && t.dart == s.dart && g.id in t.native.nodes
  {
    assert s.queue + [] == s.queue;
  }

  lemma TwoActs(s: System, a: Action, b: Action)
    requires CanAct(s, a) && CanAct(Act(s, a), b)
    ensures Possible(s, [a, b]) && After(s, [a, b]) == Act(Act(s, a), b)
  {
    var acts := [a, b];
    var s2 := Act(Act(s, a), b);
    assert Possible(s2, acts[1..][1..]) && After(s2, acts[1..][1..]) == s2;
    assert Possible(Act(s, a), acts[1..]) && After(Act(s, a), acts[1..]) == s2;
  }
}
