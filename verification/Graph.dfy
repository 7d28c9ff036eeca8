/** The Dart graph: events from the wire, `applyEvent`, replay, and the JSON form. */
module Graph {
  import opened Prelude
  import opened JsonTree
  import opened JsonList
  import opened Records

  datatype PwGraph = PwGraph(nodes: map<nat, PwNode>, ports: map<nat, PwPort>, links: map<nat, PwLink>,
                             devices: map<nat, PwDevice>)

  const EMPTY := PwGraph(map[], map[], map[], map[])

  // ------------------------------------------------------------------- events

  /** Events as the native side posts them. */
  datatype GraphEvent =
    | NodeAddedEvent(node: NodeInfo)
    | NodeRemovedEvent(nodeId: nat)
    | NodeInfoChangedEvent(node: NodeInfo)
    | PortAddedEvent(port: PortInfo)
    | PortRemovedEvent(portId: nat)
    | LinkAddedEvent(link: LinkInfo)
    | LinkRemovedEvent(linkId: nat)
    | LinkStateChangedEvent(link: LinkInfo)
    | ParamChangedEvent(paramNode: nat, key: string, value: string)

  /** Events as the Dart side sees them. */
  datatype PwEvent =
    | NodeAdded(node: PwNode)
    | NodeRemoved(nodeId: nat)
    | NodeInfoChanged(node: PwNode)
    | PortAdded(port: PwPort)
    | PortRemoved(portId: nat)
    | LinkAdded(link: PwLink)
    | LinkRemoved(linkId: nat)
    | LinkStateChanged(link: PwLink)
    | ParamChanged(paramNode: nat, key: string, value: Json)

  function Serialize(e: GraphEvent): Json {
    match e
    case NodeAddedEvent(n) => JObj(map["type" := JStr("node_added"), "node" := NodeInfoJson(n)])
    case NodeRemovedEvent(id) => JObj(map["type" := JStr("node_removed"), "node_id" := JNum(id)])
    case NodeInfoChangedEvent(n) => JObj(map["type" := JStr("node_info_changed"), "node" := NodeInfoJson(n)])
    case PortAddedEvent(p) => JObj(map["type" := JStr("port_added"), "port" := PortInfoJson(p)])
    case PortRemovedEvent(id) => JObj(map["type" := JStr("port_removed"), "port_id" := JNum(id)])
    case LinkAddedEvent(l) => JObj(map["type" := JStr("link_added"), "link" := LinkInfoJson(l)])
    case LinkRemovedEvent(id) => JObj(map["type" := JStr("link_removed"), "link_id" := JNum(id)])
    case LinkStateChangedEvent(l) => JObj(map["type" := JStr("link_state_changed"), "link" := LinkInfoJson(l)])
    case ParamChangedEvent(id, k, v) =>
      JObj(map["type" := JStr("param_changed"), "node_id" := JNum(id), "key" := JStr(k), "value" := JStr(v)])
  }

  function NodeEvent(tag: string, r: Option<PwNode>): Option<PwEvent> {
    if r.None? then None
    else if tag == "node_added" then Some(NodeAdded(r.value)) else Some(NodeInfoChanged(r.value))
  }

  function LinkEvent(tag: string, r: Option<PwLink>): Option<PwEvent> {
    if r.None? then None
    else if tag == "link_added" then Some(LinkAdded(r.value)) else Some(LinkStateChanged(r.value))
  }

  function PortEvent(r: Option<PwPort>): Option<PwEvent> {
    if r.None? then None else Some(PortAdded(r.value))
  }

  function RemovedEvent(tag: string, r: Option<nat>): Option<PwEvent> {
    if r.None? then None
    else if tag == "node_removed" then Some(NodeRemoved(r.value))
    else if tag == "port_removed" then Some(PortRemoved(r.value))
    else Some(LinkRemoved(r.value))
  }

  function ParamEvent(id: Option<nat>, key: Json, value: Json): Option<PwEvent> {
    if id.Some? && key.JStr? then Some(ParamChanged(id.value, key.s, value)) else None
  }

  /** `PwGraphEvent.fromJson`; None both for unknown types and for thrown TypeErrors, which are skipped alike. */
  function EventFromFields(f: map<string, Json>): Option<PwEvent> {
    if !Get(f, "type").JStr? then None else
    var t := Get(f, "type").s;
    if t == "node_added" || t == "node_info_changed" then NodeEvent(t, NodeFromJson(Get(f, "node")))
    else if t == "port_added" then PortEvent(PortFromJson(Get(f, "port")))
    else if t == "link_added" || t == "link_state_changed" then LinkEvent(t, LinkFromJson(Get(f, "link")))
    else if t == "node_removed" then RemovedEvent(t, AsId(Get(f, "node_id")))
    else if t == "port_removed" then RemovedEvent(t, AsId(Get(f, "port_id")))
    else if t == "link_removed" then RemovedEvent(t, AsId(Get(f, "link_id")))
    else if t == "param_changed" then ParamEvent(AsId(Get(f, "node_id")), Get(f, "key"), Get(f, "value"))
    else None
  }

  function Deserialize(j: Json): Option<PwEvent> {
    if j.JObj? then EventFromFields(j.fields) else None
  }

  /** The Dart event that stands for a native one. */
  function EventOf(e: GraphEvent): PwEvent {
    match e
    case NodeAddedEvent(n) => NodeAdded(NodeOf(n))
    case NodeRemovedEvent(id) => NodeRemoved(id)
    case NodeInfoChangedEvent(n) => NodeInfoChanged(NodeOf(n))
    case PortAddedEvent(p) => PortAdded(PortOf(p))
    case PortRemovedEvent(id) => PortRemoved(id)
    case LinkAddedEvent(l) => LinkAdded(LinkOf(l))
    case LinkRemovedEvent(id) => LinkRemoved(id)
    case LinkStateChangedEvent(l) => LinkStateChanged(LinkOf(l))
    case ParamChangedEvent(id, k, v) => ParamChanged(id, k, JStr(v))
  }

  lemma WireNodeEvent(e: GraphEvent)
    requires e.NodeAddedEvent? || e.NodeInfoChangedEvent?
    ensures Deserialize(Serialize(e)) == Some(EventOf(e))
  {
    WireNode(e.node);
    assert Get(Serialize(e).fields, "node") == NodeInfoJson(e.node);
  }

  lemma WirePortEvent(e: GraphEvent)
    requires e.PortAddedEvent?
    ensures Deserialize(Serialize(e)) == Some(EventOf(e))
  {
    WirePort(e.port);
    assert Get(Serialize(e).fields, "port") == PortInfoJson(e.port);
  }

  lemma WireLinkEvent(e: GraphEvent)
    requires e.LinkAddedEvent? || e.LinkStateChangedEvent?
    ensures Deserialize(Serialize(e)) == Some(EventOf(e))
  {
    WireLink(e.link);
    assert Get(Serialize(e).fields, "link") == LinkInfoJson(e.link);
  }

  lemma WireRemovedEvent(e: GraphEvent)
    requires e.NodeRemovedEvent? || e.PortRemovedEvent? || e.LinkRemovedEvent?
    ensures Deserialize(Serialize(e)) == Some(EventOf(e))
  {
    var t := Get(Serialize(e).fields, "type").s;
    assert t[0] != 'p' || t[1] != 'a';
  }

  lemma WireParamEvent(e: GraphEvent)
    requires e.ParamChangedEvent?
    ensures Deserialize(Serialize(e)) == Some(EventOf(e))
  {
  }

  /** Every posted event is read back as its Dart counterpart: none is skipped as malformed. */
  lemma WireEvent(e: GraphEvent)
    ensures Deserialize(Serialize(e)) == Some(EventOf(e))
  {
    match e
    case NodeAddedEvent(_) => WireNodeEvent(e);
    case NodeInfoChangedEvent(_) => WireNodeEvent(e);
    case PortAddedEvent(_) => WirePortEvent(e);
    case LinkAddedEvent(_) => WireLinkEvent(e);
    case LinkStateChangedEvent(_) => WireLinkEvent(e);
    case ParamChangedEvent(_, _, _) => WireParamEvent(e);
    case _ => WireRemovedEvent(e);
  }

  function ApplyEvent(g: PwGraph, e: PwEvent): PwGraph {
    match e
    case NodeAdded(n) => g.(nodes := g.nodes[n.id := n])
    case NodeRemoved(id) => g.(nodes := g.nodes - {id})
    case NodeInfoChanged(n) => g.(nodes := g.nodes[n.id := n])
    case PortAdded(p) => g.(ports := g.ports[p.id := p])
    case PortRemoved(id) => g.(ports := g.ports - {id})
    case LinkAdded(l) => g.(links := g.links[l.id := l])
    case LinkRemoved(id) => g.(links := g.links - {id})
    case LinkStateChanged(l) => g.(links := g.links[l.id := l])
    case ParamChanged(_, _, _) => g
  }

  // ------------------------------------------------- one view of all three maps

  datatype Kind = KNode | KPort | KLink
  datatype Slot = Slot(kind: Kind, id: nat)
  datatype Record = RNode(node: PwNode) | RPort(port: PwPort) | RLink(link: PwLink)

  function Find(g: PwGraph, slot: Slot): Option<Record> {
    match slot.kind
    case KNode => if slot.id in g.nodes then Some(RNode(g.nodes[slot.id])) else None
    case KPort => if slot.id in g.ports then Some(RPort(g.ports[slot.id])) else None
    case KLink => if slot.id in g.links then Some(RLink(g.links[slot.id])) else None
  }

  /** The slot an event writes or clears, and what it leaves there. */
  function Target(e: PwEvent): Option<Slot> {
    match e
    case NodeAdded(n) => Some(Slot(KNode, n.id))
    case NodeRemoved(id) => Some(Slot(KNode, id))
    case NodeInfoChanged(n) => Some(Slot(KNode, n.id))
    case PortAdded(p) => Some(Slot(KPort, p.id))
    case PortRemoved(id) => Some(Slot(KPort, id))
    case LinkAdded(l) => Some(Slot(KLink, l.id))
    case LinkRemoved(id) => Some(Slot(KLink, id))
    case LinkStateChanged(l) => Some(Slot(KLink, l.id))
    case ParamChanged(_, _, _) => None
  }

  function Payload(e: PwEvent): Option<Record> {
    match e
    case NodeAdded(n) => Some(RNode(n))
    case NodeInfoChanged(n) => Some(RNode(n))
    case PortAdded(p) => Some(RPort(p))
    case LinkAdded(l) => Some(RLink(l))
    case LinkStateChanged(l) => Some(RLink(l))
    case _ => None
  }

  /** One event changes its own slot and nothing else. */
  lemma ApplyFind(g: PwGraph, e: PwEvent, slot: Slot)
    ensures Find(ApplyEvent(g, e), slot) == if Target(e) == Some(slot) then Payload(e) else Find(g, slot)
    ensures ApplyEvent(g, e).devices == g.devices
  {
  }

  /** Two graphs that agree on every slot and on devices are equal. */
  lemma SameEverywhere(a: PwGraph, b: PwGraph)
    requires a.devices == b.devices
    requires forall slot: Slot :: Find(a, slot) == Find(b, slot)
    ensures a == b
  {
    forall id: nat
      ensures (id in a.nodes <==> id in b.nodes) && (id in a.nodes ==> a.nodes[id] == b.nodes[id])
      ensures (id in a.ports <==> id in b.ports) && (id in a.ports ==> a.ports[id] == b.ports[id])
      ensures (id in a.links <==> id in b.links) && (id in a.links ==> a.links[id] == b.links[id])
    {
      assert Find(a, Slot(KNode, id)) == Find(b, Slot(KNode, id));
      assert Find(a, Slot(KPort, id)) == Find(b, Slot(KPort, id));
      assert Find(a, Slot(KLink, id)) == Find(b, Slot(KLink, id));
    }
    assert a.nodes == b.nodes && a.ports == b.ports && a.links == b.links;
  }

  // ------------------------------------------------------------------- replay

  function Replay(g: PwGraph, es: seq<PwEvent>): PwGraph {
    if es == [] then g else ApplyEvent(Replay(g, es[..|es| - 1]), es[|es| - 1])
  }

  /** What the last event on a slot leaves there; None when no event touches it. */
  function LastFor(es: seq<PwEvent>, slot: Slot): Option<Option<Record>> {
    if es == [] then None
    else if Target(es[|es| - 1]) == Some(slot) then Some(Payload(es[|es| - 1]))
    else LastFor(es[..|es| - 1], slot)
  }

  lemma {:induction false} LastForSplit(a: seq<PwEvent>, b: seq<PwEvent>, slot: Slot)
    ensures LastFor(a + b, slot) == if LastFor(b, slot).Some? then LastFor(b, slot) else LastFor(a, slot)
  {
    if b == [] {
      assert a + b == a;
    } else {
      LastForSplit(a, b[..|b| - 1], slot);
      assert (a + b)[..|a + b| - 1] == a + b[..|b| - 1];
    }
  }

  /** The replayed graph at a slot: the last event there decides, else the start graph. */
  lemma {:induction false} ReplayFind(g: PwGraph, es: seq<PwEvent>, slot: Slot)
    ensures Find(Replay(g, es), slot)
         == if LastFor(es, slot).Some? then LastFor(es, slot).value else Find(g, slot)
    ensures Replay(g, es).devices == g.devices
  {
    if es != [] {
      ReplayFind(g, es[..|es| - 1], slot);
      ApplyFind(Replay(g, es[..|es| - 1]), es[|es| - 1], slot);
    }
  }

  /** Delivering the head of the queue moves it from the queue into the graph. */
  lemma {:induction false} ReplayFront(g: PwGraph, es: seq<PwEvent>)
    requires es != []
    ensures Replay(g, es) == Replay(ApplyEvent(g, es[0]), es[1..])
  {
    if |es| == 1 {
      assert es[..0] == [] && es[1..] == [];
    } else {
      ReplayFront(g, es[..|es| - 1]);
      assert es[1..][..|es| - 2] == es[..|es| - 1][1..];
    }
  }

  /** Every slot touched by an event of `earlier` is touched again by `later`. */
  ghost predicate Overwrites(later: seq<PwEvent>, earlier: seq<PwEvent>) {
    forall slot: Slot :: LastFor(earlier, slot).Some? ==> LastFor(later, slot).Some?
  }

  /** Last writer wins: replaying overwritten events first makes no difference. */
  lemma OverwrittenReplayVanishes(g: PwGraph, earlier: seq<PwEvent>, later: seq<PwEvent>)
    requires Overwrites(later, earlier)
    ensures Replay(Replay(g, earlier), later) == Replay(g, later)
  {
    var g1 := Replay(g, earlier);
    forall slot: Slot
      ensures Find(Replay(g1, later), slot) == Find(Replay(g, later), slot)
      ensures Replay(g1, later).devices == Replay(g, later).devices
    {
      ReplayFind(g1, later, slot);
      ReplayFind(g, later, slot);
      ReplayFind(g, earlier, slot);
    }
    var any := Slot(KNode, 0);
    ReplayFind(g1, later, any);
    ReplayFind(g, later, any);
    ReplayFind(g, earlier, any);
    SameEverywhere(Replay(g1, later), Replay(g, later));
  }

  /** A graph whose slot differs from a given content. */
  function Unlike(slot: Slot, content: Option<Record>): PwGraph {
    if content.Some? then EMPTY else
    match slot.kind
    case KNode => EMPTY.(nodes := map[slot.id := PwNode(slot.id, "", "", NIdle, map[])])
    case KPort => EMPTY.(ports := map[slot.id := PwPort(slot.id, 0, "", Input, "", false, false, "", map[])])
    case KLink => EMPTY.(links := map[slot.id := PwLink(slot.id, 0, 0, 0, 0, LInit, "", map[])])
  }

  /** Overwriting is exactly the condition: otherwise some start graph tells the two replays apart. */
  lemma OverwritingIsExact(earlier: seq<PwEvent>, later: seq<PwEvent>)
    ensures Overwrites(later, earlier)
       <==> forall g: PwGraph :: Replay(Replay(g, earlier), later) == Replay(g, later)
  {
    if Overwrites(later, earlier) {
      forall g: PwGraph
        ensures Replay(Replay(g, earlier), later) == Replay(g, later)
      {
        OverwrittenReplayVanishes(g, earlier, later);
      }
    } else {
      var slot: Slot :| LastFor(earlier, slot).Some? && LastFor(later, slot).None?;
      var g := Unlike(slot, LastFor(earlier, slot).value);
      ReplayFind(g, earlier, slot);
      ReplayFind(Replay(g, earlier), later, slot);
      ReplayFind(g, later, slot);
      assert Replay(Replay(g, earlier), later) != Replay(g, later);
    }
  }

  /** Replaying a whole list over a graph that has already seen part of it from the start. */
  lemma ReplayAfterPrefix(g: PwGraph, es: seq<PwEvent>, k: nat)
    requires k <= |es|
    ensures Replay(Replay(g, es[..k]), es) == Replay(g, es)
  {
    forall slot: Slot
      ensures LastFor(es[..k], slot).Some? ==> LastFor(es, slot).Some?
    {
      LastForSplit(es[..k], es[k..], slot);
      assert es == es[..k] + es[k..];
    }
    OverwrittenReplayVanishes(g, es[..k], es);
  }

  /** Replaying a list twice is replaying it once. */
  lemma ReplayTwice(g: PwGraph, es: seq<PwEvent>)
    ensures Replay(Replay(g, es), es) == Replay(g, es)
  {
    assert es[..|es|] == es;
    ReplayAfterPrefix(g, es, |es|);
  }

  /** Events on different slots commute. */
  lemma EventsCommute(g: PwGraph, a: PwEvent, b: PwEvent)
    requires Target(a) != Target(b) || Target(a).None?
    ensures ApplyEvent(ApplyEvent(g, a), b) == ApplyEvent(ApplyEvent(g, b), a)
  {
    var ab, ba := ApplyEvent(ApplyEvent(g, a), b), ApplyEvent(ApplyEvent(g, b), a);
    forall slot: Slot
      ensures Find(ab, slot) == Find(ba, slot)
    {
      ApplyFind(ApplyEvent(g, a), b, slot);
      ApplyFind(ApplyEvent(g, b), a, slot);
      ApplyFind(g, a, slot);
      ApplyFind(g, b, slot);
    }
    SameEverywhere(ab, ba);
  }

  // ---------------------------------------------------------------- JSON form

  function NodeId(x: PwNode): nat { x.id }

  function PortId(x: PwPort): nat { x.id }

  function LinkId(x: PwLink): nat { x.id }

  function DeviceId(x: PwDevice): nat { x.id }

  /** `if (json[key] case final List list)`: anything else reads as no objects. */
  function Items(j: Json): seq<Json> {
    if j.JArr? then j.items else []
  }

  function GraphFromFields(f: map<string, Json>): Option<PwGraph> {
    match (ReadAll(Items(Get(f, "nodes")), NodeFromJson, NodeId),
           ReadAll(Items(Get(f, "ports")), PortFromJson, PortId),
           ReadAll(Items(Get(f, "links")), LinkFromJson, LinkId),
           ReadAll(Items(Get(f, "devices")), DeviceFromJson, DeviceId))
    case (Some(n), Some(p), Some(l), Some(d)) => Some(PwGraph(n, p, l, d))
    case _ => None
  }

  method FromJson(f: map<string, Json>) returns (g: Option<PwGraph>)
    ensures g == GraphFromFields(f)
  {
    var nodes := ReadLoop(Items(Get(f, "nodes")), NodeFromJson, NodeId);
    var ports := ReadLoop(Items(Get(f, "ports")), PortFromJson, PortId);
    var links := ReadLoop(Items(Get(f, "links")), LinkFromJson, LinkId);
    var devices := ReadLoop(Items(Get(f, "devices")), DeviceFromJson, DeviceId);
    match (nodes, ports, links, devices)
    case (Some(n), Some(p), Some(l), Some(d)) => g := Some(PwGraph(n, p, l, d));
    case _ => g := None;
  }

  /** The iteration orders of the four maps. */
  datatype Orders = Orders(nodes: seq<nat>, ports: seq<nat>, links: seq<nat>, devices: seq<nat>)

  ghost predicate OrdersOf(o: Orders, g: PwGraph) {
    Lists(o.nodes, g.nodes) && Lists(o.ports, g.ports) && Lists(o.links, g.links) && Lists(o.devices, g.devices)
  }

  function ObjectList<R>(keys: seq<nat>, m: map<nat, R>, write: R -> Json): Json
    requires forall k :: k in keys ==> k in m
  {
    JArr(seq(|keys|, i requires 0 <= i < |keys| => assert keys[i] in keys; write(m[keys[i]])))
  }

  ghost function ToJson(g: PwGraph, o: Orders): map<string, Json>
    requires OrdersOf(o, g)
  {
    map["nodes" := ObjectList(o.nodes, g.nodes, NodeToJson),
        "ports" := ObjectList(o.ports, g.ports, PortToJson),
        "links" := ObjectList(o.links, g.links, LinkToJson),
        "devices" := ObjectList(o.devices, g.devices, DeviceToJson)]
  }

  ghost predicate KeyedById(g: PwGraph) {
    && (forall k :: k in g.nodes ==> g.nodes[k].id == k)
    && (forall k :: k in g.ports ==> g.ports[k].id == k)
    && (forall k :: k in g.links ==> g.links[k].id == k)
    && (forall k :: k in g.devices ==> g.devices[k].id == k)
  }

  lemma JsonParts(g: PwGraph, o: Orders)
    requires OrdersOf(o, g)
    ensures var f := ToJson(g, o);
            && Get(f, "nodes") == ObjectList(o.nodes, g.nodes, NodeToJson)
            && Get(f, "ports") == ObjectList(o.ports, g.ports, PortToJson)
            && Get(f, "links") == ObjectList(o.links, g.links, LinkToJson)
            && Get(f, "devices") == ObjectList(o.devices, g.devices, DeviceToJson)
  {
  }

  /**
    The graph survives its JSON form, field by field and whatever order the
    maps iterate in, exactly when every record is kept under its own id.
   */
  lemma GraphRoundTrip(g: PwGraph, o: Orders)
    requires OrdersOf(o, g)
    ensures GraphFromFields(ToJson(g, o)) == Some(g) <==> KeyedById(g)
  {
    JsonParts(g, o);
    if KeyedById(g) {
      NodesReadBack(o.nodes, g.nodes);
      PortsReadBack(o.ports, g.ports);
      LinksReadBack(o.links, g.links);
      DevicesReadBack(o.devices, g.devices);
    } else if GraphFromFields(ToJson(g, o)).Some? {
      ReadIsKeyed(ToJson(g, o));
    }
  }

  /** The list under a field, read in another order, with elements of one id agreeing. */
  ghost predicate SameList<R>(f: map<string, Json>, h: map<string, Json>, key: string, parse: Json -> Option<R>,
                              id: R -> nat)
  {
    && multiset(Items(Get(f, key))) == multiset(Items(Get(h, key)))
    && Consistent(Items(Get(f, key)), parse, id)
  }

  /** `fromJson` does not depend on the order of the object lists. */
  lemma ListOrderIgnored(f: map<string, Json>, h: map<string, Json>)
    requires SameList(f, h, "nodes", NodeFromJson, NodeId) && SameList(f, h, "ports", PortFromJson, PortId)
    requires SameList(f, h, "links", LinkFromJson, LinkId) && SameList(f, h, "devices", DeviceFromJson, DeviceId)
    ensures GraphFromFields(h) == GraphFromFields(f)
  {
    Reordered(Items(Get(f, "nodes")), Items(Get(h, "nodes")), NodeFromJson, NodeId);
    Reordered(Items(Get(f, "ports")), Items(Get(h, "ports")), PortFromJson, PortId);
    Reordered(Items(Get(f, "links")), Items(Get(h, "links")), LinkFromJson, LinkId);
    Reordered(Items(Get(f, "devices")), Items(Get(h, "devices")), DeviceFromJson, DeviceId);
  }

  lemma NodesReadBack(keys: seq<nat>, m: map<nat, PwNode>)
    requires Lists(keys, m) && forall k :: k in m ==> m[k].id == k
    ensures ReadAll(Items(ObjectList(keys, m, NodeToJson)), NodeFromJson, NodeId) == Some(m)
  {
    var items := Items(ObjectList(keys, m, NodeToJson));
    forall i | 0 <= i < |keys|
      ensures keys[i] in m && NodeFromJson(items[i]) == Some(m[keys[i]])
    {
      assert keys[i] in keys;
      NodeRoundTrip(m[keys[i]]);
    }
    ReadFullListing(items, NodeFromJson, NodeId, keys, m);
  }

  lemma PortsReadBack(keys: seq<nat>, m: map<nat, PwPort>)
    requires Lists(keys, m) && forall k :: k in m ==> m[k].id == k
    ensures ReadAll(Items(ObjectList(keys, m, PortToJson)), PortFromJson, PortId) == Some(m)
  {
    var items := Items(ObjectList(keys, m, PortToJson));
    forall i | 0 <= i < |keys|
      ensures keys[i] in m && PortFromJson(items[i]) == Some(m[keys[i]])
    {
      assert keys[i] in keys;
      PortRoundTrip(m[keys[i]]);
    }
    ReadFullListing(items, PortFromJson, PortId, keys, m);
  }

  lemma LinksReadBack(keys: seq<nat>, m: map<nat, PwLink>)
    requires Lists(keys, m) && forall k :: k in m ==> m[k].id == k
    ensures ReadAll(Items(ObjectList(keys, m, LinkToJson)), LinkFromJson, LinkId) == Some(m)
  {
    var items := Items(ObjectList(keys, m, LinkToJson));
    forall i | 0 <= i < |keys|
      ensures keys[i] in m && LinkFromJson(items[i]) == Some(m[keys[i]])
    {
      assert keys[i] in keys;
      LinkRoundTrip(m[keys[i]]);
    }
    ReadFullListing(items, LinkFromJson, LinkId, keys, m);
  }

  lemma DevicesReadBack(keys: seq<nat>, m: map<nat, PwDevice>)
    requires Lists(keys, m) && forall k :: k in m ==> m[k].id == k
    ensures ReadAll(Items(ObjectList(keys, m, DeviceToJson)), DeviceFromJson, DeviceId) == Some(m)
  {
    var items := Items(ObjectList(keys, m, DeviceToJson));
    forall i | 0 <= i < |keys|
      ensures keys[i] in m && DeviceFromJson(items[i]) == Some(m[keys[i]])
    {
      assert keys[i] in keys;
      DeviceRoundTrip(m[keys[i]]);
    }
    ReadFullListing(items, DeviceFromJson, DeviceId, keys, m);
  }

  /** Applying events keeps every record under its own id. */
  lemma ApplyKeepsKeys(g: PwGraph, e: PwEvent)
    requires KeyedById(g)
    ensures KeyedById(ApplyEvent(g, e))
  {
  }

  /** Whatever is read is keyed by id, so the round trip applies to every graph read from JSON. */
  lemma ReadIsKeyed(f: map<string, Json>)
    requires GraphFromFields(f).Some?
    ensures KeyedById(GraphFromFields(f).value)
  {
    ReadAllKeyed(Items(Get(f, "nodes")), NodeFromJson, NodeId);
    ReadAllKeyed(Items(Get(f, "ports")), PortFromJson, PortId);
    ReadAllKeyed(Items(Get(f, "links")), LinkFromJson, LinkId);
    ReadAllKeyed(Items(Get(f, "devices")), DeviceFromJson, DeviceId);
  }
}
