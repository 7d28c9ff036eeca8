/**
  What an announcement or an info says of an object, key by key: the records
  the registry monitor makes and what Dart reads of them.
 */
module Announcements {
  import opened Prelude
  import opened JsonTree
  import JsonText
  import opened Records
  import opened Registry

  /** A property is present with this text. */
  predicate Says(props: Option<Dict>, key: string, text: string) {
    props.Some? && key in props.value && props.value[key] == text
  }

  /** A property is absent or empty. */
  ghost predicate Silent(props: Option<Dict>, key: string) {
    forall text: string :: Says(props, key, text) ==> text == ""
  }

  lemma SilentMeansEmpty(props: Option<Dict>, key: string)
    ensures Silent(props, key) <==> DictGet(props, key) == ""
  {
    if DictGet(props, key) != "" { assert Says(props, key, DictGet(props, key)); }
  }

  /** Every other record, and the type and proxy of every other id, is as it was. */
  ghost predicate OthersKept(n: Native, t: Native, id: nat) {
    && n.nodes - {id} == t.nodes - {id} && n.ports - {id} == t.ports - {id}
    && n.links - {id} == t.links - {id} && n.devices - {id} == t.devices - {id}
    && n.idTypes - {id} == t.idTypes - {id} && n.proxies - {id} == t.proxies - {id}
  }

  /** The id has this type and a proxy record that is bound if the bind succeeded. */
  predicate Typed(t: Native, g: Global, kind: GlobalKind) {
    && g.id in t.idTypes && t.idTypes[g.id] == kind
    && g.id in t.proxies && t.proxies[g.id] == Proxy(g.id, kind, g.bindOk)
  }

  // ------------------------------------------------------------------- numbers

  predicate AllDigits(s: string) {
    forall i :: 0 <= i < |s| ==> '0' <= s[i] <= '9'
  }

  lemma {:induction false} LastDigit(s: string, d: nat, acc: nat)
    requires AllDigits(s) && d < 10
    ensures LeadingDigits(s + [DigitChar(d)], acc) == 10 * LeadingDigits(s, acc) + d
  {
    var t := s + [DigitChar(d)];
    if s == "" {
      assert t[1..] == "" && t[0] == DigitChar(d);
    } else {
      assert t[1..] == s[1..] + [DigitChar(d)];
      LastDigit(s[1..], d, 10 * acc + (s[0] - '0') as nat);
    }
  }

  lemma {:induction false} WrittenId(n: nat)
    ensures LeadingDigits(Decimal(n), 0) == n && Decimal(n) != ""
  {
    if n < 10 {
      assert Decimal(n) == "" + [DigitChar(n)];
      LastDigit("", n, 0);
    } else {
      WrittenId(n / 10);
      JsonText.DecimalDigits(n / 10);
      LastDigit(Decimal(n / 10), n % 10, 0);
    }
  }

  /** An id written in decimal is that id; none written is 0. */
  lemma IdReads(props: Option<Dict>, key: string, id: nat)
    requires id < 0x1_0000_0000
    ensures Says(props, key, Decimal(id)) ==> IdIn(props, key) == id
    ensures Silent(props, key) ==> IdIn(props, key) == 0
  {
    WrittenId(id);
    SilentMeansEmpty(props, key);
  }

  // ------------------------------------------------------------- announcements

  /**
    A node is recorded under its name, or its description when it says no
    name, with its media class, still being created.
   */
  lemma NodeAnnounced(n: Native, g: Global, text: string)
    requires g.iface == Some("PipeWire:Interface:Node")
    ensures var t := Step(n, OnGlobal(g));
            && Typed(t, g, GNode) && OthersKept(n, t, g.id) && g.id in t.nodes
            && var x := NodeOf(t.nodes[g.id]);
            && x.id == g.id && x.state == NCreating && x.properties == DictMap(g.props)
            && (Says(g.props, "node.name", text) && text != "" ==> x.name == text)
            && (Silent(g.props, "node.name") && Says(g.props, "node.description", text) ==> x.name == text)
            && (Silent(g.props, "node.name") && Silent(g.props, "node.description") ==> x.name == "")
            && (Says(g.props, "media.class", text) ==> x.mediaClass == text)
            && (Silent(g.props, "media.class") ==> x.mediaClass == "")
  {
    SilentMeansEmpty(g.props, "node.name");
    SilentMeansEmpty(g.props, "node.description");
    SilentMeansEmpty(g.props, "media.class");
  }

  /** A port is recorded with the node, name, direction, media type and alias it says. */
  lemma PortAnnounced(n: Native, g: Global, text: string, node: nat)
    requires g.iface == Some("PipeWire:Interface:Port") && node < 0x1_0000_0000
    ensures var t := Step(n, OnGlobal(g));
            && Typed(t, g, GPort) && OthersKept(n, t, g.id) && g.id in t.ports
            && var x := PortOf(t.ports[g.id]);
            && x.id == g.id && !x.isPhysical && !x.isTerminal && x.properties == DictMap(g.props)
            && (Says(g.props, "node.id", Decimal(node)) ==> x.nodeId == node)
            && (Silent(g.props, "node.id") ==> x.nodeId == 0)
            && (Says(g.props, "port.name", text) ==> x.name == text)
            && (Says(g.props, "format.dsp", text) ==> x.mediaType == text)
            && (Says(g.props, "port.alias", text) ==> x.alias == text)
            && (Says(g.props, "port.direction", "out") ==> x.direction == Output)
            && (Says(g.props, "port.direction", "in") ==> x.direction == Input)
  {
    IdReads(g.props, "node.id", node);
  }

  /** A link is recorded with the four ends it says, each on its own side. */
  lemma LinkAnnounced(n: Native, g: Global, end: nat)
    requires g.iface == Some("PipeWire:Interface:Link") && end < 0x1_0000_0000
    ensures var t := Step(n, OnGlobal(g));
            && Typed(t, g, GLink) && OthersKept(n, t, g.id) && g.id in t.links
            && var x := LinkOf(t.links[g.id]);
            && x.id == g.id && x.state == LInit && x.error == "" && x.properties == DictMap(g.props)
            && (Says(g.props, "link.output.node", Decimal(end)) ==> x.outputNodeId == end)
            && (Says(g.props, "link.output.port", Decimal(end)) ==> x.outputPortId == end)
            && (Says(g.props, "link.input.node", Decimal(end)) ==> x.inputNodeId == end)
            && (Says(g.props, "link.input.port", Decimal(end)) ==> x.inputPortId == end)
            && (Silent(g.props, "link.output.node") ==> x.outputNodeId == 0)
            && (Silent(g.props, "link.output.port") ==> x.outputPortId == 0)
            && (Silent(g.props, "link.input.node") ==> x.inputNodeId == 0)
            && (Silent(g.props, "link.input.port") ==> x.inputPortId == 0)
  {
    IdReads(g.props, "link.output.node", end);
    IdReads(g.props, "link.output.port", end);
    IdReads(g.props, "link.input.node", end);
    IdReads(g.props, "link.input.port", end);
  }

  /** A device is recorded with the name, description, media class and API it says. */
  lemma DeviceAnnounced(n: Native, g: Global, text: string)
    requires g.iface == Some("PipeWire:Interface:Device")
    ensures var t := Step(n, OnGlobal(g));
            && Typed(t, g, GDevice) && OthersKept(n, t, g.id) && g.id in t.devices
            && var x := DeviceOf(t.devices[g.id]);
            && x.id == g.id && x.properties == DictMap(g.props)
            && (Says(g.props, "device.name", text) ==> x.name == text)
            && (Says(g.props, "device.description", text) ==> x.description == text)
            && (Says(g.props, "media.class", text) ==> x.mediaClass == text)
            && (Says(g.props, "device.api", text) ==> x.api == text)
  {
  }

  /** Anything else, and an announcement without a type, is ignored. */
  lemma OthersIgnored(n: Native, g: Global)
    requires g.iface !in {Some("PipeWire:Interface:Node"), Some("PipeWire:Interface:Port"),
                          Some("PipeWire:Interface:Link"), Some("PipeWire:Interface:Device")}
    ensures Step(n, OnGlobal(g)) == n
  {
    assert KindOf(g.iface) == None;
  }

  /** An announcement and an info that name the same ends agree on the link. */
  lemma LinkEndsAgree(g: Global, u: LinkUpdate)
    requires u.outputNode < 0x1_0000_0000 && u.outputPort < 0x1_0000_0000
    requires u.inputNode < 0x1_0000_0000 && u.inputPort < 0x1_0000_0000
    requires Says(g.props, "link.output.node", Decimal(u.outputNode))
    requires Says(g.props, "link.output.port", Decimal(u.outputPort))
    requires Says(g.props, "link.input.node", Decimal(u.inputNode))
    requires Says(g.props, "link.input.port", Decimal(u.inputPort))
    ensures var before, after := LinkOf(InitialLink(g)), LinkOf(UpdatedLink(InitialLink(g), u));
            && before.outputNodeId == after.outputNodeId == u.outputNode
            && before.outputPortId == after.outputPortId == u.outputPort
            && before.inputNodeId == after.inputNodeId == u.inputNode
            && before.inputPortId == after.inputPortId == u.inputPort
  {
    IdReads(g.props, "link.output.node", u.outputNode);
    IdReads(g.props, "link.output.port", u.outputPort);
    IdReads(g.props, "link.input.node", u.inputNode);
    IdReads(g.props, "link.input.port", u.inputPort);
  }

  // ------------------------------------------------------- what an info leaves

  /** A text an info is silent about keeps its value, and an info without properties leaves all of them. */
  lemma NodeKeepsUnset(x: NodeInfo, u: NodeUpdate)
    ensures Silent(u.props, "node.name") ==> UpdatedNode(x, u).name == x.name
    ensures Silent(u.props, "media.class") ==> UpdatedNode(x, u).mediaClass == x.mediaClass
    ensures u.props.None? ==> UpdatedNode(x, u).properties == x.properties
    ensures u.state == CodeOther ==> UpdatedNode(x, u).state == x.state
  {
    SilentMeansEmpty(u.props, "node.name");
    SilentMeansEmpty(u.props, "media.class");
  }

  lemma PortKeepsUnset(x: PortInfo, u: PortUpdate)
    ensures Silent(u.props, "port.name") ==> UpdatedPort(x, u).name == x.name
    ensures Silent(u.props, "port.alias") ==> UpdatedPort(x, u).alias == x.alias
    ensures UpdatedPort(x, u).nodeId == x.nodeId && UpdatedPort(x, u).mediaType == x.mediaType
    ensures u.props.None? ==> UpdatedPort(x, u).properties == x.properties
                              && (UpdatedPort(x, u).isPhysical <==> x.isPhysical)
                              && (UpdatedPort(x, u).isTerminal <==> x.isTerminal)
  {
    SilentMeansEmpty(u.props, "port.name");
    SilentMeansEmpty(u.props, "port.alias");
  }

  /** An info with properties sets each flag exactly when its own property says true or 1. */
  lemma PortFlags(x: PortInfo, u: PortUpdate)
    requires u.props.Some?
    ensures UpdatedPort(x, u).isPhysical <==>
              Says(u.props, "port.physical", "true") || Says(u.props, "port.physical", "1")
    ensures UpdatedPort(x, u).isTerminal <==>
              Says(u.props, "port.terminal", "true") || Says(u.props, "port.terminal", "1")
  {
  }

  lemma LinkKeepsUnset(x: LinkInfo, u: LinkUpdate)
    ensures u.error.None? ==> UpdatedLink(x, u).error == x.error
    ensures u.state == LinkOther ==> UpdatedLink(x, u).state == x.state
    ensures UpdatedLink(x, u).properties == x.properties
  {
    assert u.state == LinkOther ==> LinkStateText(u.state, x.state) == x.state;
  }

  lemma DeviceKeepsUnset(x: DeviceInfo, u: DeviceUpdate)
    ensures Silent(u.props, "device.name") ==> UpdatedDevice(x, u).name == x.name
    ensures Silent(u.props, "device.description") ==> UpdatedDevice(x, u).description == x.description
    ensures UpdatedDevice(x, u).mediaClass == x.mediaClass && UpdatedDevice(x, u).api == x.api
    ensures u.props.None? ==> UpdatedDevice(x, u).properties == x.properties
  {
    SilentMeansEmpty(u.props, "device.name");
    SilentMeansEmpty(u.props, "device.description");
  }

  // ---------------------------------------------------------------- other ids

  lemma RemoveKeepsOthers(n: Native, id: nat)
    ensures OthersKept(n, Step(n, OnRemove(id)), id)
  {
    if id in n.idTypes { RemoveKindKeepsOthers(n, id, n.idTypes[id]); }
  }

  lemma RemoveKindKeepsOthers(n: Native, id: nat, kind: GlobalKind)
    ensures OthersKept(n, RemoveKind(n, id, kind), id)
  {
  }

  /** An info changes the record it is about and nothing else. */
  lemma InfoKeepsOthers(n: Native, cb: Callback)
    requires !cb.OnGlobal? && !cb.OnRemove?
    ensures OthersKept(n, Step(n, cb), cb.id)
    ensures var t := Step(n, cb);
            && t.idTypes == n.idTypes && t.proxies == n.proxies
            && (!cb.OnNode? ==> t.nodes == n.nodes) && (!cb.OnPort? ==> t.ports == n.ports)
            && (!cb.OnLink? ==> t.links == n.links) && (!cb.OnDevice? ==> t.devices == n.devices)
  {
    match cb
    case OnNode(id, u) => if u.Some? && id in n.nodes { PutNode(n, id, UpdatedNode(n.nodes[id], u.value)); }
    case OnPort(id, u) => if u.Some? && id in n.ports { PutPort(n, id, UpdatedPort(n.ports[id], u.value)); }
    case OnLink(id, u) => if u.Some? && id in n.links { PutLink(n, id, UpdatedLink(n.links[id], u.value)); }
    case OnDevice(id, u) =>
      if u.Some? && id in n.devices { PutDevice(n, id, UpdatedDevice(n.devices[id], u.value)); }
  }

  lemma PutNode(n: Native, id: nat, x: NodeInfo)
    ensures OthersKept(n, n.(nodes := n.nodes[id := x]), id)
  {
  }

  lemma PutPort(n: Native, id: nat, x: PortInfo)
    ensures OthersKept(n, n.(ports := n.ports[id := x]), id)
  {
  }

  lemma PutLink(n: Native, id: nat, x: LinkInfo)
    ensures OthersKept(n, n.(links := n.links[id := x]), id)
  {
  }

  lemma PutDevice(n: Native, id: nat, x: DeviceInfo)
    ensures OthersKept(n, n.(devices := n.devices[id := x]), id)
  {
  }
}
