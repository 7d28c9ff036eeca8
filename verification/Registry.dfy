/**
  The registry monitor: the native maps, the callbacks that update them and
  the events they post.
 */
module Registry {
  import opened Prelude
  import opened JsonTree
  import opened JsonList
  import opened Records
  import opened Graph

  datatype GlobalKind = GNode | GPort | GLink | GDevice

  /** A bound proxy and the id it was bound for; `bound` is false when the bind returned null. */
  datatype Proxy = Proxy(id: nat, kind: GlobalKind, bound: bool)

  datatype Native = Native(
    nodes: map<nat, NodeInfo>,
    ports: map<nat, PortInfo>,
    links: map<nat, LinkInfo>,
    devices: map<nat, DeviceInfo>,
    idTypes: map<nat, GlobalKind>,
    proxies: map<nat, Proxy>)

  const NO_OBJECTS := Native(map[], map[], map[], map[], map[], map[])

  // ---------------------------------------------------------------- callbacks

  /** An announced global; `bindOk` says whether binding its proxy succeeds. */
  datatype Global = Global(id: nat, iface: Option<string>, props: Option<Dict>, bindOk: bool)

  datatype NodeCode = CodeError | CodeCreating | CodeSuspended | CodeIdle | CodeRunning | CodeOther
  datatype LinkCode =
    | LinkError | LinkUnlinked | LinkInit | LinkNegotiating | LinkAllocating | LinkPaused | LinkActive | LinkOther

  datatype NodeUpdate = NodeUpdate(state: NodeCode, props: Option<Dict>)
  datatype PortUpdate = PortUpdate(isInput: bool, props: Option<Dict>)
  datatype LinkUpdate = LinkUpdate(outputNode: nat, outputPort: nat, inputNode: nat, inputPort: nat,
                                   state: LinkCode, error: Option<string>)
  datatype DeviceUpdate = DeviceUpdate(props: Option<Dict>)

  datatype Callback =
    | OnGlobal(global: Global)
    | OnRemove(id: nat)
    | OnNode(id: nat, nodeInfo: Option<NodeUpdate>)
    | OnPort(id: nat, portInfo: Option<PortUpdate>)
    | OnLink(id: nat, linkInfo: Option<LinkUpdate>)
    | OnDevice(id: nat, deviceInfo: Option<DeviceUpdate>)

  function KindOf(iface: Option<string>): Option<GlobalKind> {
    if iface == Some("PipeWire:Interface:Node") then Some(GNode)
    else if iface == Some("PipeWire:Interface:Port") then Some(GPort)
    else if iface == Some("PipeWire:Interface:Link") then Some(GLink)
    else if iface == Some("PipeWire:Interface:Device") then Some(GDevice)
    else None
  }

  function DictGet(props: Option<Dict>, key: string): string {
    if props.Some? && key in props.value then props.value[key] else ""
  }

  function DictMap(props: Option<Dict>): Dict {
    if props.Some? then props.value else map[]
  }

  /** The value of the leading decimal digits. */
  function LeadingDigits(s: string, acc: nat): nat {
    if s != "" && '0' <= s[0] <= '9' then LeadingDigits(s[1..], 10 * acc + (s[0] - '0') as nat) else acc
  }

  /** An id written in a property; absent is 0, and the value is cut to 32 bits. */
  function IdIn(props: Option<Dict>, key: string): nat {
    var text := DictGet(props, key);
    if text == "" then 0 else LeadingDigits(text, 0) % 0x1_0000_0000
  }

  function Or(text: string, fallback: string): string {
    if text == "" then fallback else text
  }

  function InitialNode(g: Global): NodeInfo {
    NodeInfo(g.id, Or(DictGet(g.props, "node.name"), DictGet(g.props, "node.description")),
             DictGet(g.props, "media.class"), "creating", DictMap(g.props))
  }

  function InitialPort(g: Global): PortInfo {
    PortInfo(g.id, IdIn(g.props, "node.id"), DictGet(g.props, "port.name"), DictGet(g.props, "port.direction"),
             DictGet(g.props, "format.dsp"), false, false, DictGet(g.props, "port.alias"), DictMap(g.props))
  }

  function InitialLink(g: Global): LinkInfo {
    LinkInfo(g.id, IdIn(g.props, "link.output.node"), IdIn(g.props, "link.output.port"),
             IdIn(g.props, "link.input.node"), IdIn(g.props, "link.input.port"), "init", "", DictMap(g.props))
  }

  function InitialDevice(g: Global): DeviceInfo {
    DeviceInfo(g.id, DictGet(g.props, "device.name"), DictGet(g.props, "device.description"),
               DictGet(g.props, "media.class"), DictGet(g.props, "device.api"), DictMap(g.props))
  }

  /** The state text a code sets; a code outside the enumeration leaves the old text. */
  function NodeStateText(code: NodeCode, before: string): string {
    match code
    case CodeError => "error"
    case CodeCreating => "creating"
    case CodeSuspended => "suspended"
    case CodeIdle => "idle"
    case CodeRunning => "running"
    case CodeOther => before
  }

  function LinkStateText(code: LinkCode, before: string): string {
    match code
    case LinkError => "error"
    case LinkUnlinked => "unlinked"
    case LinkInit => "init"
    case LinkNegotiating => "negotiating"
    case LinkAllocating => "allocating"
    case LinkPaused => "paused"
    case LinkActive => "active"
    case LinkOther => before
  }

  function UpdatedNode(n: NodeInfo, u: NodeUpdate): (r: NodeInfo)
    ensures r.id == n.id
  {
    var n1 := n.(state := NodeStateText(u.state, n.state));
    if u.props.None? then n1 else
      n1.(properties := DictMap(u.props),
          name := Or(DictGet(u.props, "node.name"), n.name),
          mediaClass := Or(DictGet(u.props, "media.class"), n.mediaClass))
  }

  predicate Truthy(text: string) {
    text == "true" || text == "1"
  }

  function UpdatedPort(p: PortInfo, u: PortUpdate): (r: PortInfo)
    ensures r.id == p.id
  {
    var p1 := p.(direction := if u.isInput then "input" else "output");
    if u.props.None? then p1 else
      p1.(properties := DictMap(u.props),
          name := Or(DictGet(u.props, "port.name"), p.name),
          alias := Or(DictGet(u.props, "port.alias"), p.alias),
          isPhysical := Truthy(DictGet(u.props, "port.physical")),
          isTerminal := Truthy(DictGet(u.props, "port.terminal")))
  }

  function UpdatedLink(l: LinkInfo, u: LinkUpdate): (r: LinkInfo)
    ensures r.id == l.id
  {
    l.(outputNodeId := u.outputNode, outputPortId := u.outputPort, inputNodeId := u.inputNode,
       inputPortId := u.inputPort, state := LinkStateText(u.state, l.state),
       error := if u.error.Some? then u.error.value else l.error)
  }

  function UpdatedDevice(d: DeviceInfo, u: DeviceUpdate): (r: DeviceInfo)
    ensures r.id == d.id
  {
    if u.props.None? then d else
      d.(properties := DictMap(u.props),
         name := Or(DictGet(u.props, "device.name"), d.name),
         description := Or(DictGet(u.props, "device.description"), d.description))
  }

  function AfterKind(n: Native, g: Global, kind: GlobalKind): Native {
    var n1 := n.(idTypes := n.idTypes[g.id := kind], proxies := n.proxies[g.id := Proxy(g.id, kind, g.bindOk)]);
    match kind
    case GNode => n1.(nodes := n.nodes[g.id := InitialNode(g)])
    case GPort => n1.(ports := n.ports[g.id := InitialPort(g)])
    case GLink => n1.(links := n.links[g.id := InitialLink(g)])
    case GDevice => n1.(devices := n.devices[g.id := InitialDevice(g)])
  }

  /** Unknown types are ignored. */
  function AfterGlobal(n: Native, g: Global): Native {
    if KindOf(g.iface).Some? then AfterKind(n, g, KindOf(g.iface).value) else n
  }

  function RemoveKind(n: Native, id: nat, kind: GlobalKind): Native {
    var n1 := n.(idTypes := n.idTypes - {id}, proxies := n.proxies - {id});
    match kind
    case GNode => n1.(nodes := n.nodes - {id})
    case GPort => n1.(ports := n.ports - {id})
    case GLink => n1.(links := n.links - {id})
    case GDevice => n1.(devices := n.devices - {id})
  }

  /** The recorded type says which map to erase from; unknown ids are ignored. */
  function AfterRemove(n: Native, id: nat): Native {
    if id in n.idTypes then RemoveKind(n, id, n.idTypes[id]) else n
  }

  /** The native state after a callback. */
  function Step(n: Native, cb: Callback): Native {
    match cb
    case OnGlobal(g) => AfterGlobal(n, g)
    case OnRemove(id) => AfterRemove(n, id)
    case OnNode(id, u) =>
      if u.Some? && id in n.nodes then n.(nodes := n.nodes[id := UpdatedNode(n.nodes[id], u.value)]) else n
    case OnPort(id, u) =>
      if u.Some? && id in n.ports then n.(ports := n.ports[id := UpdatedPort(n.ports[id], u.value)]) else n
    case OnLink(id, u) =>
      if u.Some? && id in n.links then n.(links := n.links[id := UpdatedLink(n.links[id], u.value)]) else n
    case OnDevice(id, u) =>
      if u.Some? && id in n.devices then n.(devices := n.devices[id := UpdatedDevice(n.devices[id], u.value)]) else n
  }

  /** The events a callback posts. */
  function Posts(n: Native, cb: Callback): seq<GraphEvent> {
    match cb
    case OnGlobal(_) => []
    case OnRemove(id) =>
      if id !in n.idTypes then [] else
      (match n.idTypes[id]
       case GNode => [NodeRemovedEvent(id)]
       case GPort => [PortRemovedEvent(id)]
       case GLink => [LinkRemovedEvent(id)]
       case GDevice => [])
    case OnNode(id, u) =>
      if u.None? || id !in n.nodes then [] else
      var node := UpdatedNode(n.nodes[id], u.value);
      if n.nodes[id].state == "creating" then [NodeAddedEvent(node)] else [NodeInfoChangedEvent(node)]
    case OnPort(id, u) =>
      if u.None? || id !in n.ports then [] else [PortAddedEvent(UpdatedPort(n.ports[id], u.value))]
    case OnLink(id, u) =>
      if u.None? || id !in n.links then [] else
      var link := UpdatedLink(n.links[id], u.value);
      if n.links[id].state == "init" then [LinkAddedEvent(link)] else [LinkStateChangedEvent(link)]
    case OnDevice(_, _) => []
  }

  // -------------------------------------------------------------- the monitor

  class RegistryMonitor {
    var nodes: map<nat, NodeInfo>
    var ports: map<nat, PortInfo>
    var links: map<nat, LinkInfo>
    var devices: map<nat, DeviceInfo>
    var idTypes: map<nat, GlobalKind>
    var proxies: map<nat, Proxy>
    var posted: seq<GraphEvent>

    function View(): Native
      reads this
    {
      Native(nodes, ports, links, devices, idTypes, proxies)
    }

    constructor ()
      ensures View() == NO_OBJECTS && posted == []
    {
      nodes, ports, links, devices, idTypes, proxies := map[], map[], map[], map[], map[], map[];
      posted := [];
    }

    method OnGlobal(g: Global)
      modifies this
      ensures View() == Step(old(View()), Callback.OnGlobal(g))
      ensures posted == old(posted)
    {
      var kind := KindOf(g.iface);
      if kind.None? { return; }
      idTypes := idTypes[g.id := kind.value];
      match kind.value {
        case GNode => nodes := nodes[g.id := InitialNode(g)];
        case GPort => ports := ports[g.id := InitialPort(g)];
        case GLink => links := links[g.id := InitialLink(g)];
        case GDevice => devices := devices[g.id := InitialDevice(g)];
      }
      proxies := proxies[g.id := Proxy(g.id, kind.value, g.bindOk)];
    }

    method OnGlobalRemove(id: nat)
      modifies this
      ensures View() == Step(old(View()), OnRemove(id))
      ensures posted == old(posted) + Posts(old(View()), OnRemove(id))
    {
      if id !in idTypes { return; }
      match idTypes[id] {
        case GNode =>
          nodes := nodes - {id};
          posted := posted + [NodeRemovedEvent(id)];
        case GPort =>
          ports := ports - {id};
          posted := posted + [PortRemovedEvent(id)];
        case GLink =>
          links := links - {id};
          posted := posted + [LinkRemovedEvent(id)];
        case GDevice =>
          devices := devices - {id};
      }
      proxies := proxies - {id};
      idTypes := idTypes - {id};
    }

    method OnNodeInfo(id: nat, info: Option<NodeUpdate>)
      modifies this
      ensures View() == Step(old(View()), OnNode(id, info))
      ensures posted == old(posted) + Posts(old(View()), OnNode(id, info))
    {
      if info.None? || id !in nodes { return; }
      var isNew := nodes[id].state == "creating";
      var node := nodes[id].(state := NodeStateText(info.value.state, nodes[id].state));
      if info.value.props.Some? {
        node := node.(properties := info.value.props.value);
        var name := DictGet(info.value.props, "node.name");
        if name != "" { node := node.(name := name); }
        var cls := DictGet(info.value.props, "media.class");
        if cls != "" { node := node.(mediaClass := cls); }
      }
      nodes := nodes[id := node];
      posted := posted + [if isNew then NodeAddedEvent(node) else NodeInfoChangedEvent(node)];
    }

    method OnPortInfo(id: nat, info: Option<PortUpdate>)
      modifies this
      ensures View() == Step(old(View()), OnPort(id, info))
      ensures posted == old(posted) + Posts(old(View()), OnPort(id, info))
    {
      if info.None? || id !in ports { return; }
      var port := ports[id].(direction := if info.value.isInput then "input" else "output");
      if info.value.props.Some? {
        port := port.(properties := info.value.props.value);
        var name := DictGet(info.value.props, "port.name");
        if name != "" { port := port.(name := name); }
        var alias := DictGet(info.value.props, "port.alias");
        if alias != "" { port := port.(alias := alias); }
        port := port.(isPhysical := Truthy(DictGet(info.value.props, "port.physical")),
                      isTerminal := Truthy(DictGet(info.value.props, "port.terminal")));
      }
      ports := ports[id := port];
      posted := posted + [PortAddedEvent(port)];
    }

    method OnLinkInfo(id: nat, info: Option<LinkUpdate>)
      modifies this
      ensures View() == Step(old(View()), OnLink(id, info))
      ensures posted == old(posted) + Posts(old(View()), OnLink(id, info))
    {
      if info.None? || id !in links { return; }
      var u := info.value;
      var before := links[id].state;
      var link := links[id].(outputNodeId := u.outputNode, outputPortId := u.outputPort,
                             inputNodeId := u.inputNode, inputPortId := u.inputPort);
      link := link.(state := LinkStateText(u.state, before));
      if u.error.Some? { link := link.(error := u.error.value); }
      links := links[id := link];
      posted := posted + [if before == "init" then LinkAddedEvent(link) else LinkStateChangedEvent(link)];
    }

    method OnDeviceInfo(id: nat, info: Option<DeviceUpdate>)
      modifies this
      ensures View() == Step(old(View()), OnDevice(id, info))
      ensures posted == old(posted)
    {
      if info.None? || id !in devices { return; }
      if info.value.props.Some? {
        var device := devices[id].(properties := info.value.props.value);
        var name := DictGet(info.value.props, "device.name");
        if name != "" { device := device.(name := name); }
        var desc := DictGet(info.value.props, "device.description");
        if desc != "" { device := device.(description := desc); }
        devices := devices[id := device];
      }
    }

    /** The snapshot: every record once, in some order. */
    method GetSnapshotJson() returns (json: map<string, Json>)
      ensures exists order :: OrdersListing(order, View()) && json == SnapshotFields(View(), order)
    {
      var n := Keys(nodes);
      var p := Keys(ports);
      var l := Keys(links);
      var d := Keys(devices);
      json := map["nodes" := ObjectList(n, nodes, NodeInfoJson),
                  "ports" := ObjectList(p, ports, PortInfoJson),
                  "links" := ObjectList(l, links, LinkInfoJson),
                  "devices" := ObjectList(d, devices, DeviceInfoJson)];
      ghost var order := Orders(n, p, l, d);
      assert OrdersListing(order, View()) && json == SnapshotFields(View(), order);
    }
  }

  /** Walks a hash map: each key once, in an order the map chooses. */
  method Keys<R>(m: map<nat, R>) returns (keys: seq<nat>)
    ensures Lists(keys, m)
  {
    keys := [];
    var left := m.Keys;
    while left != {}
      invariant left <= m.Keys
      invariant forall i, j :: 0 <= i < j < |keys| ==> keys[i] != keys[j]
      invariant forall k :: k in keys <==> k in m && k !in left
      decreases left
    {
      var k :| k in left;
      keys := keys + [k];
      left := left - {k};
    }
  }

  ghost predicate OrdersListing(o: Orders, n: Native) {
    Lists(o.nodes, n.nodes) && Lists(o.ports, n.ports) && Lists(o.links, n.links) && Lists(o.devices, n.devices)
  }

  ghost function SnapshotFields(n: Native, o: Orders): map<string, Json>
    requires OrdersListing(o, n)
  {
    map["nodes" := ObjectList(o.nodes, n.nodes, NodeInfoJson),
        "ports" := ObjectList(o.ports, n.ports, PortInfoJson),
        "links" := ObjectList(o.links, n.links, LinkInfoJson),
        "devices" := ObjectList(o.devices, n.devices, DeviceInfoJson)]
  }

  // ---------------------------------------------------------------- invariants

  /** Every record is stored under its own id. */
  ghost predicate Keyed(n: Native) {
    && (forall k :: k in n.nodes ==> n.nodes[k].id == k)
    && (forall k :: k in n.ports ==> n.ports[k].id == k)
    && (forall k :: k in n.links ==> n.links[k].id == k)
    && (forall k :: k in n.devices ==> n.devices[k].id == k)
  }

  lemma KindKeepsKeyed(n: Native, g: Global, kind: GlobalKind)
    requires Keyed(n)
    ensures Keyed(AfterKind(n, g, kind))
  {
  }

  lemma RemoveKeepsKeyed(n: Native, id: nat, kind: GlobalKind)
    requires Keyed(n)
    ensures Keyed(RemoveKind(n, id, kind))
  {
  }

  lemma InfoKeepsKeyed(n: Native, cb: Callback)
    requires Keyed(n) && !cb.OnGlobal? && !cb.OnRemove?
    ensures Keyed(Step(n, cb))
  {
  }

  lemma StepKeepsKeyed(n: Native, cb: Callback)
    requires Keyed(n)
    ensures Keyed(Step(n, cb))
  {
    match cb
    case OnGlobal(g) =>
      if KindOf(g.iface).Some? { KindKeepsKeyed(n, g, KindOf(g.iface).value); }
    case OnRemove(id) =>
      if id in n.idTypes { RemoveKeepsKeyed(n, id, n.idTypes[id]); }
    case _ => InfoKeepsKeyed(n, cb);
  }

  /** Where an id is known: its type entry, its proxy and the one map holding it agree. */
  ghost predicate CoherentAt(n: Native, id: nat) {
    && (id in n.nodes <==> id in n.idTypes && n.idTypes[id] == GNode)
    && (id in n.ports <==> id in n.idTypes && n.idTypes[id] == GPort)
    && (id in n.links <==> id in n.idTypes && n.idTypes[id] == GLink)
    && (id in n.devices <==> id in n.idTypes && n.idTypes[id] == GDevice)
    && (id in n.proxies <==> id in n.idTypes)
    && (id in n.proxies ==> n.proxies[id].id == id && n.proxies[id].kind == n.idTypes[id])
  }

  /** `id_types_` and `proxies_` cover the disjoint union of the four maps, and name the right one. */
  ghost predicate Coherent(n: Native) {
    Keyed(n) && forall id: nat :: CoherentAt(n, id)
  }

  /** The announcement does not move a live id to another type. */
  predicate SameKindOrFresh(n: Native, g: Global) {
    KindOf(g.iface).Some? && g.id in n.idTypes ==> n.idTypes[g.id] == KindOf(g.iface).value
  }

  lemma KindCoherence(n: Native, g: Global, kind: GlobalKind, id: nat)
    requires CoherentAt(n, id)
    ensures id != g.id ==> CoherentAt(AfterKind(n, g, kind), id)
    ensures id == g.id ==>
              (CoherentAt(AfterKind(n, g, kind), id) <==> (id in n.idTypes ==> n.idTypes[id] == kind))
  {
  }

  /** Coherence survives an announcement exactly when it does not re-announce a live id under another type. */
  lemma GlobalKeepsCoherenceExactly(n: Native, g: Global)
    requires Coherent(n)
    ensures Coherent(AfterGlobal(n, g)) <==> SameKindOrFresh(n, g)
  {
    if KindOf(g.iface).Some? {
      var kind := KindOf(g.iface).value;
      var t := AfterKind(n, g, kind);
      KindKeepsKeyed(n, g, kind);
      forall id: nat
        ensures id != g.id ==> CoherentAt(t, id)
        ensures id == g.id ==> (CoherentAt(t, id) <==> SameKindOrFresh(n, g))
      {
        KindCoherence(n, g, kind, id);
      }
      assert CoherentAt(t, g.id) <==> SameKindOrFresh(n, g);
    }
  }

  lemma OthersKeepCoherence(n: Native, cb: Callback)
    requires Coherent(n) && !cb.OnGlobal?
    ensures Coherent(Step(n, cb))
  {
    StepKeepsKeyed(n, cb);
    forall id: nat ensures CoherentAt(Step(n, cb), id) {
      assert CoherentAt(n, id);
      if cb.OnRemove? { assert CoherentAt(n, cb.id); }
    }
  }

  function Run(n: Native, cbs: seq<Callback>): Native
    decreases |cbs|
  {
    if cbs == [] then n else Run(Step(n, cbs[0]), cbs[1..])
  }

  /** The environment's promise along a run. */
  predicate WellBehaved(n: Native, cbs: seq<Callback>)
    decreases |cbs|
  {
    cbs == [] ||
    ((cbs[0].OnGlobal? ==> SameKindOrFresh(n, cbs[0].global)) && WellBehaved(Step(n, cbs[0]), cbs[1..]))
  }

  /** Every run whose announcements are well behaved stays coherent. */
  lemma {:induction false} RunKeepsCoherence(n: Native, cbs: seq<Callback>)
    requires Coherent(n) && WellBehaved(n, cbs)
    ensures Coherent(Run(n, cbs))
    decreases |cbs|
  {
    if cbs != [] {
      if cbs[0].OnGlobal? {
        GlobalKeepsCoherenceExactly(n, cbs[0].global);
      } else {
        OthersKeepCoherence(n, cbs[0]);
      }
      RunKeepsCoherence(Step(n, cbs[0]), cbs[1..]);
    }
  }

  /** In a coherent state, removing an id forgets it everywhere and leaves every other id alone. */
  lemma RemoveForgets(n: Native, id: nat, other: nat)
    requires Coherent(n)
    ensures var t := AfterRemove(n, id);
            && id !in t.nodes && id !in t.ports && id !in t.links && id !in t.devices
            && id !in t.idTypes && id !in t.proxies
            && (other != id ==>
                  && (other in t.nodes <==> other in n.nodes) && (other in t.ports <==> other in n.ports)
                  && (other in t.links <==> other in n.links) && (other in t.devices <==> other in n.devices))
  {
    assert CoherentAt(n, id);
  }

  // ---------------------------------------------------- what the texts read as

  /** The state a Dart reader sees is the one the server reported; an unknown code changes nothing. */
  lemma NodeStateReads(n: NodeInfo, u: NodeUpdate)
    ensures NodeOf(UpdatedNode(n, u)).state == match u.state
                                               case CodeError => NError
                                               case CodeCreating => NCreating
                                               case CodeSuspended => NSuspended
                                               case CodeIdle => NIdle
                                               case CodeRunning => NRunning
                                               case CodeOther => NodeOf(n).state
  {
    assert UpdatedNode(n, u).state == NodeStateText(u.state, n.state);
  }

  lemma LinkStateReads(l: LinkInfo, u: LinkUpdate)
    ensures LinkOf(UpdatedLink(l, u)).state == match u.state
                                               case LinkError => LError
                                               case LinkUnlinked => LUnlinked
                                               case LinkInit => LInit
                                               case LinkNegotiating => LNegotiating
                                               case LinkAllocating => LAllocating
                                               case LinkPaused => LPaused
                                               case LinkActive => LActive
                                               case LinkOther => LinkOf(l).state
  {
    assert UpdatedLink(l, u).state == LinkStateText(u.state, l.state);
  }

  /** A port's direction reads the same from its announcement ("in", "out") as from its info ("input", "output"). */
  lemma PortDirectionReads(g: Global, u: PortUpdate)
    requires DictGet(g.props, "port.direction") == if u.isInput then "in" else "out"
    ensures PortOf(InitialPort(g)).direction == (if u.isInput then Input else Output)
    ensures PortOf(UpdatedPort(InitialPort(g), u)).direction == PortOf(InitialPort(g)).direction
  {
    assert "out" != "in" && "out" != "input" && "in" != "output" && "in" != "out" && "input" != "out";
  }

  // ------------------------------------------------------------ event language

  predicate AddedAt(e: GraphEvent, slot: Slot) {
    match slot.kind
    case KNode => e.NodeAddedEvent? && e.node.id == slot.id
    case KPort => e.PortAddedEvent? && e.port.id == slot.id
    case KLink => e.LinkAddedEvent? && e.link.id == slot.id
  }

  predicate ChangedAt(e: GraphEvent, slot: Slot) {
    match slot.kind
    case KNode => e.NodeInfoChangedEvent? && e.node.id == slot.id
    case KPort => false
    case KLink => e.LinkStateChangedEvent? && e.link.id == slot.id
  }

  predicate RemovedAt(e: GraphEvent, slot: Slot) {
    match slot.kind
    case KNode => e == NodeRemovedEvent(slot.id)
    case KPort => e == PortRemovedEvent(slot.id)
    case KLink => e == LinkRemovedEvent(slot.id)
  }

  /** The trace stands inside a lifetime of the slot: an Added with no Removed since. */
  ghost predicate Inside(tr: seq<GraphEvent>, slot: Slot) {
    exists j :: 0 <= j < |tr| && AddedAt(tr[j], slot) && forall k :: j < k < |tr| ==> !RemovedAt(tr[k], slot)
  }

  /** Every Changed comes inside a lifetime: never before that lifetime's first Added. */
  ghost predicate WellFormed(tr: seq<GraphEvent>) {
    forall i, slot: Slot :: 0 <= i < |tr| && ChangedAt(tr[i], slot) ==> Inside(tr[..i], slot)
  }

  /** A node past `creating`, or a link past `init`, has been announced by an Added in its present lifetime. */
  ghost predicate Announced(n: Native, tr: seq<GraphEvent>) {
    && (forall id :: id in n.nodes && n.nodes[id].state != "creating" ==> Inside(tr, Slot(KNode, id)))
    && (forall id :: id in n.links && n.links[id].state != "init" ==> Inside(tr, Slot(KLink, id)))
  }

  lemma InsideAppend(tr: seq<GraphEvent>, e: GraphEvent, slot: Slot)
    ensures AddedAt(e, slot) ==> Inside(tr + [e], slot)
    ensures Inside(tr, slot) && !RemovedAt(e, slot) ==> Inside(tr + [e], slot)
  {
    var t := tr + [e];
    if AddedAt(e, slot) {
      assert t[|tr|] == e;
    } else if Inside(tr, slot) && !RemovedAt(e, slot) {
      var j :| 0 <= j < |tr| && AddedAt(tr[j], slot) && forall k :: j < k < |tr| ==> !RemovedAt(tr[k], slot);
      assert AddedAt(t[j], slot);
      assert forall k :: j < k < |t| ==> !RemovedAt(t[k], slot);
    }
  }

  lemma WellFormedAppend(tr: seq<GraphEvent>, e: GraphEvent)
    requires WellFormed(tr)
    requires forall slot: Slot :: ChangedAt(e, slot) ==> Inside(tr, slot)
    ensures WellFormed(tr + [e])
  {
    var t := tr + [e];
    forall i, slot: Slot | 0 <= i < |t| && ChangedAt(t[i], slot)
      ensures Inside(t[..i], slot)
    {
      if i < |tr| {
        assert t[..i] == tr[..i];
      } else {
        assert t[..i] == tr;
      }
    }
  }

  lemma NodeInfoMoved(n: Native, cb: Callback, e: GraphEvent, id: nat)
    requires Keyed(n) && Posts(n, cb) == [e] && cb.OnNode?
    requires id in Step(n, cb).nodes && Step(n, cb).nodes[id].state != "creating"
    ensures AddedAt(e, Slot(KNode, id)) ||
            (id in n.nodes && n.nodes[id].state != "creating" && !RemovedAt(e, Slot(KNode, id)))
  {
    assert id in n.nodes;
    if cb.id == id {
      assert e == NodeAddedEvent(UpdatedNode(n.nodes[id], cb.nodeInfo.value)) || n.nodes[id].state != "creating";
    } else {
      assert Step(n, cb).nodes[id] == n.nodes[id];
    }
  }

  /** A posting callback announces, or leaves as it was, any node past its initial state. */
  lemma NodeMoved(n: Native, cb: Callback, e: GraphEvent, id: nat)
    requires Keyed(n) && Posts(n, cb) == [e]
    requires id in Step(n, cb).nodes && Step(n, cb).nodes[id].state != "creating"
    ensures AddedAt(e, Slot(KNode, id)) ||
            (id in n.nodes && n.nodes[id].state != "creating" && !RemovedAt(e, Slot(KNode, id)))
  {
    match cb
    case OnNode(_, _) => NodeInfoMoved(n, cb, e, id);
    case OnRemove(other) => assert n.idTypes[other].GNode? ==> id != other;
    case _ =>
  }

  lemma LinkInfoMoved(n: Native, cb: Callback, e: GraphEvent, id: nat)
    requires Keyed(n) && Posts(n, cb) == [e] && cb.OnLink?
    requires id in Step(n, cb).links && Step(n, cb).links[id].state != "init"
    ensures AddedAt(e, Slot(KLink, id)) ||
            (id in n.links && n.links[id].state != "init" && !RemovedAt(e, Slot(KLink, id)))
  {
    assert id in n.links;
    if cb.id == id {
      assert e == LinkAddedEvent(UpdatedLink(n.links[id], cb.linkInfo.value)) || n.links[id].state != "init";
    } else {
      assert Step(n, cb).links[id] == n.links[id];
    }
  }

  lemma LinkMoved(n: Native, cb: Callback, e: GraphEvent, id: nat)
    requires Keyed(n) && Posts(n, cb) == [e]
    requires id in Step(n, cb).links && Step(n, cb).links[id].state != "init"
    ensures AddedAt(e, Slot(KLink, id)) ||
            (id in n.links && n.links[id].state != "init" && !RemovedAt(e, Slot(KLink, id)))
  {
    match cb
    case OnLink(_, _) => LinkInfoMoved(n, cb, e, id);
    case OnRemove(other) => assert n.idTypes[other].GLink? ==> id != other;
    case _ =>
  }

  lemma AnnouncedAfter(n: Native, cb: Callback, tr: seq<GraphEvent>, e: GraphEvent)
    requires Keyed(n) && Announced(n, tr) && Posts(n, cb) == [e]
    ensures Announced(Step(n, cb), tr + [e])
  {
    var t := Step(n, cb);
    forall id | id in t.nodes && t.nodes[id].state != "creating"
      ensures Inside(tr + [e], Slot(KNode, id))
    {
      NodeMoved(n, cb, e, id);
      InsideAppend(tr, e, Slot(KNode, id));
    }
    forall id | id in t.links && t.links[id].state != "init"
      ensures Inside(tr + [e], Slot(KLink, id))
    {
      LinkMoved(n, cb, e, id);
      InsideAppend(tr, e, Slot(KLink, id));
    }
  }

  /** Every node and link is in its initial state or as it was before. */
  ghost predicate OnlyFreshStates(n: Native, t: Native) {
    && (forall id :: id in t.nodes ==> t.nodes[id].state == "creating" || (id in n.nodes && t.nodes[id] == n.nodes[id]))
    && (forall id :: id in t.links ==> t.links[id].state == "init" || (id in n.links && t.links[id] == n.links[id]))
  }

  lemma KindOnlyFresh(n: Native, g: Global, kind: GlobalKind)
    ensures OnlyFreshStates(n, AfterKind(n, g, kind))
  {
  }

  lemma RemoveOnlyFresh(n: Native, id: nat)
    ensures OnlyFreshStates(n, AfterRemove(n, id))
  {
  }

  lemma QuietInfo(n: Native, cb: Callback)
    requires Posts(n, cb) == [] && !cb.OnGlobal? && !cb.OnRemove?
    ensures Step(n, cb).nodes == n.nodes && Step(n, cb).links == n.links
  {
  }

  /** A callback that posts nothing leaves no node or link in a later state than before. */
  lemma QuietStep(n: Native, cb: Callback)
    requires Posts(n, cb) == []
    ensures OnlyFreshStates(n, Step(n, cb))
  {
    match cb
    case OnGlobal(g) =>
      if KindOf(g.iface).Some? { KindOnlyFresh(n, g, KindOf(g.iface).value); }
    case OnRemove(id) => RemoveOnlyFresh(n, id);
    case _ => QuietInfo(n, cb);
  }

  lemma StepKeepsLanguage(n: Native, cb: Callback, tr: seq<GraphEvent>)
    requires Keyed(n) && WellFormed(tr) && Announced(n, tr)
    ensures WellFormed(tr + Posts(n, cb)) && Announced(Step(n, cb), tr + Posts(n, cb))
  {
    if Posts(n, cb) == [] {
      assert tr + [] == tr;
      QuietStep(n, cb);
    } else {
      var e := Posts(n, cb)[0];
      assert Posts(n, cb) == [e];
      forall slot: Slot | ChangedAt(e, slot)
        ensures Inside(tr, slot)
      {
        assert slot == Slot(slot.kind, cb.id);
      }
      WellFormedAppend(tr, e);
      AnnouncedAfter(n, cb, tr, e);
    }
  }

  /** Each posted record is the native record as it stands after the callback; a removal posts its own id, now gone. */
  lemma PostsMatchState(n: Native, cb: Callback, e: GraphEvent)
    requires Keyed(n) && e in Posts(n, cb)
    ensures var t := Step(n, cb);
            match e
            case NodeAddedEvent(x) => x.id in t.nodes && t.nodes[x.id] == x
            case NodeInfoChangedEvent(x) => x.id in t.nodes && t.nodes[x.id] == x
            case PortAddedEvent(x) => x.id in t.ports && t.ports[x.id] == x
            case LinkAddedEvent(x) => x.id in t.links && t.links[x.id] == x
            case LinkStateChangedEvent(x) => x.id in t.links && t.links[x.id] == x
            case NodeRemovedEvent(id) => id !in t.nodes
            case PortRemovedEvent(id) => id !in t.ports
            case LinkRemovedEvent(id) => id !in t.links
            case ParamChangedEvent(_, _, _) => false
  {
  }

  function Trace(n: Native, cbs: seq<Callback>): seq<GraphEvent>
    decreases |cbs|
  {
    if cbs == [] then [] else Posts(n, cbs[0]) + Trace(Step(n, cbs[0]), cbs[1..])
  }

  lemma {:induction false} RunKeepsLanguage(n: Native, cbs: seq<Callback>, tr: seq<GraphEvent>)
    requires Keyed(n) && WellFormed(tr) && Announced(n, tr)
    ensures WellFormed(tr + Trace(n, cbs))
    decreases |cbs|
  {
    if cbs == [] {
      assert tr + [] == tr;
    } else {
      StepKeepsKeyed(n, cbs[0]);
      StepKeepsLanguage(n, cbs[0], tr);
      RunKeepsLanguage(Step(n, cbs[0]), cbs[1..], tr + Posts(n, cbs[0]));
      assert tr + Trace(n, cbs) == tr + Posts(n, cbs[0]) + Trace(Step(n, cbs[0]), cbs[1..]);
    }
  }

  /**
    The event stream of every run from an empty registry, with no assumption
    on the callbacks: no Changed comes before the Added of its lifetime.
   */
  lemma EveryTraceWellFormed(cbs: seq<Callback>)
    ensures WellFormed(Trace(NO_OBJECTS, cbs))
  {
    RunKeepsLanguage(NO_OBJECTS, cbs, []);
    assert [] + Trace(NO_OBJECTS, cbs) == Trace(NO_OBJECTS, cbs);
  }

  // ------------------------------------------------ more than one Added

  /** A callback that brings info for the slot's object. */
  predicate InfoAt(cb: Callback, slot: Slot) {
    match slot.kind
    case KNode => cb.OnNode? && cb.id == slot.id && cb.nodeInfo.Some?
    case KPort => cb.OnPort? && cb.id == slot.id && cb.portInfo.Some?
    case KLink => cb.OnLink? && cb.id == slot.id && cb.linkInfo.Some?
  }

  /** The callback posts an Added for the slot. */
  predicate PostsAdded(n: Native, cb: Callback, slot: Slot) {
    Posts(n, cb) != [] && AddedAt(Posts(n, cb)[0], slot)
  }

  /** An info that does not move its object out of the state it was announced in. */
  predicate LeavesInitial(cb: Callback, slot: Slot)
    requires InfoAt(cb, slot)
  {
    match slot.kind
    case KNode => cb.nodeInfo.value.state in {CodeCreating, CodeOther}
    case KPort => true
    case KLink => cb.linkInfo.value.state in {LinkInit, LinkOther}
  }

  predicate HasRecord(n: Native, slot: Slot) {
    match slot.kind
    case KNode => slot.id in n.nodes
    case KPort => slot.id in n.ports
    case KLink => slot.id in n.links
  }

  predicate SameRecord(n: Native, t: Native, slot: Slot) {
    match slot.kind
    case KNode => slot.id in n.nodes && slot.id in t.nodes && t.nodes[slot.id] == n.nodes[slot.id]
    case KPort => slot.id in n.ports && slot.id in t.ports && t.ports[slot.id] == n.ports[slot.id]
    case KLink => slot.id in n.links && slot.id in t.links && t.links[slot.id] == n.links[slot.id]
  }

  predicate About(cb: Callback, id: nat) {
    if cb.OnGlobal? then cb.global.id == id else cb.id == id
  }

  lemma UnrelatedKind(n: Native, g: Global, kind: GlobalKind, slot: Slot)
    requires HasRecord(n, slot) && g.id != slot.id
    ensures SameRecord(n, AfterKind(n, g, kind), slot)
  {
  }

  lemma UnrelatedRemove(n: Native, id: nat, kind: GlobalKind, slot: Slot)
    requires HasRecord(n, slot) && id != slot.id
    ensures SameRecord(n, RemoveKind(n, id, kind), slot)
  {
  }

  lemma UnrelatedInfo(n: Native, cb: Callback, slot: Slot)
    requires HasRecord(n, slot) && !cb.OnGlobal? && !cb.OnRemove? && cb.id != slot.id
    ensures SameRecord(n, Step(n, cb), slot)
  {
  }

  lemma UnrelatedStep(n: Native, cb: Callback, slot: Slot)
    requires HasRecord(n, slot) && !About(cb, slot.id)
    ensures SameRecord(n, Step(n, cb), slot)
  {
    match cb
    case OnGlobal(g) =>
      if KindOf(g.iface).Some? { UnrelatedKind(n, g, KindOf(g.iface).value, slot); }
    case OnRemove(id) =>
      if id in n.idTypes { UnrelatedRemove(n, id, n.idTypes[id], slot); }
    case _ => UnrelatedInfo(n, cb, slot);
  }

  lemma {:induction false} UnrelatedRun(n: Native, cbs: seq<Callback>, slot: Slot)
    requires HasRecord(n, slot) && forall i :: 0 <= i < |cbs| ==> !About(cbs[i], slot.id)
    ensures SameRecord(n, Run(n, cbs), slot)
    decreases |cbs|
  {
    if cbs != [] {
      UnrelatedStep(n, cbs[0], slot);
      UnrelatedRun(Step(n, cbs[0]), cbs[1..], slot);
    }
  }

  /** What the info that posted an Added left behind. */
  lemma AfterFirstAdded(n: Native, first: Callback, slot: Slot)
    requires Keyed(n) && InfoAt(first, slot) && PostsAdded(n, first, slot)
    ensures HasRecord(Step(n, first), slot)
    ensures slot.kind == KNode ==> (Step(n, first).nodes[slot.id].state == "creating" <==> LeavesInitial(first, slot))
    ensures slot.kind == KLink ==> (Step(n, first).links[slot.id].state == "init" <==> LeavesInitial(first, slot))
  {
    match slot.kind
    case KNode =>
      var u := first.nodeInfo.value;
      assert UpdatedNode(n.nodes[slot.id], u).state == NodeStateText(u.state, "creating");
    case KPort =>
    case KLink =>
      var u := first.linkInfo.value;
      assert UpdatedLink(n.links[slot.id], u).state == LinkStateText(u.state, "init");
  }

  /**
    Whatever happens to other objects in between, an object's next info posts
    a second Added exactly when the one that posted the first left the object
    in its initial state; a port's always does.
   */
  lemma SecondAddedExactly(n: Native, first: Callback, between: seq<Callback>, second: Callback, slot: Slot)
    requires Keyed(n) && InfoAt(first, slot) && InfoAt(second, slot) && PostsAdded(n, first, slot)
    requires forall i :: 0 <= i < |between| ==> !About(between[i], slot.id)
    ensures PostsAdded(Run(Step(n, first), between), second, slot) <==> LeavesInitial(first, slot)
  {
    AfterFirstAdded(n, first, slot);
    StepKeepsKeyed(n, first);
    UnrelatedRun(Step(n, first), between, slot);
    NextPostsAdded(Step(n, first), Run(Step(n, first), between), second, slot);
  }

  /** An info posts Added exactly for a port, a node still `creating`, or a link still `init`. */
  lemma NextPostsAdded(n: Native, t: Native, cb: Callback, slot: Slot)
    requires Keyed(n) && SameRecord(n, t, slot) && InfoAt(cb, slot)
    ensures PostsAdded(t, cb, slot) <==>
            match slot.kind
            case KNode => n.nodes[slot.id].state == "creating"
            case KPort => true
            case KLink => n.links[slot.id].state == "init"
  {
  }

  /** A run that announces one node twice: two Added events and no Removed between them. */
  lemma TwoAddedInOneLifetime(id: nat)
    ensures var announced := Global(id, Some("PipeWire:Interface:Node"), None, true);
            var cbs := [OnGlobal(announced), OnNode(id, Some(NodeUpdate(CodeCreating, None))),
                        OnNode(id, Some(NodeUpdate(CodeIdle, None)))];
            var tr := Trace(NO_OBJECTS, cbs);
            |tr| == 2 && AddedAt(tr[0], Slot(KNode, id)) && AddedAt(tr[1], Slot(KNode, id))
  {
    var g := Global(id, Some("PipeWire:Interface:Node"), None, true);
    var first, second := OnNode(id, Some(NodeUpdate(CodeCreating, None))), OnNode(id, Some(NodeUpdate(CodeIdle, None)));
    var n1 := Step(NO_OBJECTS, OnGlobal(g));
    var n2 := Step(n1, first);
    var n3 := Step(n2, second);
    assert Trace(n3, []) == [];
    assert Trace(n2, [second]) == Posts(n2, second) + Trace(n3, []);
    assert [first, second][1..] == [second];
    assert Trace(n1, [first, second]) == Posts(n1, first) + Trace(n2, [second]);
    assert [OnGlobal(g), first, second][1..] == [first, second];
  }
}
