/**
  The records of the two sides. Native records (C++) are written as JSON by
  the event serializer; Dart records are read from it.
 */
module Records {
  import opened Prelude
  import opened JsonTree

  // ------------------------------------------------------------- native side

  datatype NodeInfo = NodeInfo(id: nat, name: string, mediaClass: string, state: string, properties: Dict)

  datatype PortInfo = PortInfo(id: nat, nodeId: nat, name: string, direction: string, mediaType: string,
                               isPhysical: bool, isTerminal: bool, alias: string, properties: Dict)

  datatype LinkInfo = LinkInfo(id: nat, outputNodeId: nat, outputPortId: nat, inputNodeId: nat, inputPortId: nat,
                               state: string, error: string, properties: Dict)

  datatype DeviceInfo = DeviceInfo(id: nat, name: string, description: string, mediaClass: string, api: string,
                                   properties: Dict)

  function NodeInfoJson(i: NodeInfo): Json {
    JObj(map["id" := JNum(i.id), "name" := JStr(i.name), "media_class" := JStr(i.mediaClass),
             "state" := JStr(i.state), "properties" := OfDict(i.properties)])
  }

  function PortInfoJson(i: PortInfo): Json {
    JObj(map["id" := JNum(i.id), "node_id" := JNum(i.nodeId), "name" := JStr(i.name),
             "direction" := JStr(i.direction), "media_type" := JStr(i.mediaType),
             "is_physical" := JBool(i.isPhysical), "is_terminal" := JBool(i.isTerminal),
             "alias" := JStr(i.alias), "properties" := OfDict(i.properties)])
  }

  function LinkInfoJson(i: LinkInfo): Json {
    JObj(map["id" := JNum(i.id), "output_node_id" := JNum(i.outputNodeId),
             "output_port_id" := JNum(i.outputPortId), "input_node_id" := JNum(i.inputNodeId),
             "input_port_id" := JNum(i.inputPortId), "state" := JStr(i.state),
             "error" := JStr(i.error), "properties" := OfDict(i.properties)])
  }

  function DeviceInfoJson(i: DeviceInfo): Json {
    JObj(map["id" := JNum(i.id), "name" := JStr(i.name), "description" := JStr(i.description),
             "media_class" := JStr(i.mediaClass), "api" := JStr(i.api),
             "properties" := OfDict(i.properties)])
  }

  // --------------------------------------------------------------- Dart side

  datatype NodeState = NError | NCreating | NSuspended | NIdle | NRunning
  datatype LinkState = LError | LUnlinked | LInit | LNegotiating | LAllocating | LPaused | LActive
  datatype Direction = Input | Output

  datatype PwNode = PwNode(id: nat, name: string, mediaClass: string, state: NodeState, properties: Dict)

  datatype PwPort = PwPort(id: nat, nodeId: nat, name: string, direction: Direction, mediaType: string,
                           isPhysical: bool, isTerminal: bool, alias: string, properties: Dict)

  datatype PwLink = PwLink(id: nat, outputNodeId: nat, outputPortId: nat, inputNodeId: nat, inputPortId: nat,
                           state: LinkState, error: string, properties: Dict)

  datatype PwDevice = PwDevice(id: nat, name: string, description: string, mediaClass: string, api: string,
                               properties: Dict)

  function NodeStateOf(s: string): NodeState {
    if s == "creating" then NCreating
    else if s == "suspended" then NSuspended
    else if s == "idle" then NIdle
    else if s == "running" then NRunning
    else NError
  }

  function NodeStateName(s: NodeState): string {
    match s
    case NError => "error"
    case NCreating => "creating"
    case NSuspended => "suspended"
    case NIdle => "idle"
    case NRunning => "running"
  }

  function LinkStateOf(s: string): LinkState {
    if s == "unlinked" then LUnlinked
    else if s == "init" then LInit
    else if s == "negotiating" then LNegotiating
    else if s == "allocating" then LAllocating
    else if s == "paused" then LPaused
    else if s == "active" then LActive
    else LError
  }

  function LinkStateName(s: LinkState): string {
    match s
    case LError => "error"
    case LUnlinked => "unlinked"
    case LInit => "init"
    case LNegotiating => "negotiating"
    case LAllocating => "allocating"
    case LPaused => "paused"
    case LActive => "active"
  }

  function DirectionOf(s: string): Direction {
    if s == "output" || s == "out" then Output else Input
  }

  function DirectionName(d: Direction): string {
    match d
    case Input => "input"
    case Output => "output"
  }

  function NodeFromJson(j: Json): Option<PwNode> {
    if !j.JObj? then None else
    var f := j.fields;
    match (AsId(Get(f, "id")), AsStringOr(Get(f, "name"), ""), AsStringOr(Get(f, "media_class"), ""),
           AsStringOr(Get(f, "state"), "error"), AsDict(Get(f, "properties")))
    case (Some(id), Some(name), Some(cls), Some(state), Some(props)) =>
      Some(PwNode(id, name, cls, NodeStateOf(state), props))
    case _ => None
  }

  function PortFromJson(j: Json): Option<PwPort> {
    if !j.JObj? then None else
    var f := j.fields;
    var ids := (AsId(Get(f, "id")), AsId(Get(f, "node_id")));
    var texts := (AsStringOr(Get(f, "name"), ""), AsStringOr(Get(f, "direction"), "input"),
                  AsStringOr(Get(f, "media_type"), ""), AsStringOr(Get(f, "alias"), ""));
    var flags := (AsBoolOr(Get(f, "is_physical"), false), AsBoolOr(Get(f, "is_terminal"), false));
    match (ids, texts, flags, AsDict(Get(f, "properties")))
    case ((Some(id), Some(nodeId)), (Some(name), Some(dir), Some(media), Some(alias)),
          (Some(phys), Some(term)), Some(props)) =>
      Some(PwPort(id, nodeId, name, DirectionOf(dir), media, phys, term, alias, props))
    case _ => None
  }

  function LinkFromJson(j: Json): Option<PwLink> {
    if !j.JObj? then None else
    var f := j.fields;
    var ends := (AsId(Get(f, "output_node_id")), AsId(Get(f, "output_port_id")),
                 AsId(Get(f, "input_node_id")), AsId(Get(f, "input_port_id")));
    match (AsId(Get(f, "id")), ends, AsStringOr(Get(f, "state"), "error"), AsStringOr(Get(f, "error"), ""),
           AsDict(Get(f, "properties")))
    case (Some(id), (Some(on), Some(op), Some(inn), Some(ip)), Some(state), Some(error), Some(props)) =>
      Some(PwLink(id, on, op, inn, ip, LinkStateOf(state), error, props))
    case _ => None
  }

  function DeviceFromJson(j: Json): Option<PwDevice> {
    if !j.JObj? then None else
    var f := j.fields;
    match (AsId(Get(f, "id")), AsStringOr(Get(f, "name"), ""), AsStringOr(Get(f, "description"), ""),
           AsStringOr(Get(f, "media_class"), ""), AsStringOr(Get(f, "api"), ""), AsDict(Get(f, "properties")))
    case (Some(id), Some(name), Some(desc), Some(cls), Some(api), Some(props)) =>
      Some(PwDevice(id, name, desc, cls, api, props))
    case _ => None
  }

  function NodeToJson(x: PwNode): Json {
    JObj(map["id" := JNum(x.id), "name" := JStr(x.name), "media_class" := JStr(x.mediaClass),
             "state" := JStr(NodeStateName(x.state)), "properties" := OfDict(x.properties)])
  }

  function PortToJson(x: PwPort): Json {
    JObj(map["id" := JNum(x.id), "node_id" := JNum(x.nodeId), "name" := JStr(x.name),
             "direction" := JStr(DirectionName(x.direction)), "media_type" := JStr(x.mediaType),
             "is_physical" := JBool(x.isPhysical), "is_terminal" := JBool(x.isTerminal),
             "alias" := JStr(x.alias), "properties" := OfDict(x.properties)])
  }

  function LinkToJson(x: PwLink): Json {
    JObj(map["id" := JNum(x.id), "output_node_id" := JNum(x.outputNodeId),
             "output_port_id" := JNum(x.outputPortId), "input_node_id" := JNum(x.inputNodeId),
             "input_port_id" := JNum(x.inputPortId), "state" := JStr(LinkStateName(x.state)),
             "error" := JStr(x.error), "properties" := OfDict(x.properties)])
  }

  function DeviceToJson(x: PwDevice): Json {
    JObj(map["id" := JNum(x.id), "name" := JStr(x.name), "description" := JStr(x.description),
             "media_class" := JStr(x.mediaClass), "api" := JStr(x.api),
             "properties" := OfDict(x.properties)])
  }

  // ---------------------------------------------------- what a reader obtains

  /** The Dart record that stands for a native one. */
  function NodeOf(i: NodeInfo): PwNode {
    PwNode(i.id, i.name, i.mediaClass, NodeStateOf(i.state), i.properties)
  }

  function PortOf(i: PortInfo): PwPort {
    PwPort(i.id, i.nodeId, i.name, DirectionOf(i.direction), i.mediaType, i.isPhysical, i.isTerminal, i.alias,
           i.properties)
  }

  function LinkOf(i: LinkInfo): PwLink {
    PwLink(i.id, i.outputNodeId, i.outputPortId, i.inputNodeId, i.inputPortId, LinkStateOf(i.state), i.error,
           i.properties)
  }

  function DeviceOf(i: DeviceInfo): PwDevice {
    PwDevice(i.id, i.name, i.description, i.mediaClass, i.api, i.properties)
  }

  /** Each native writer and its Dart reader agree on every key, type and default. */
  lemma WireNode(i: NodeInfo)
    ensures NodeFromJson(NodeInfoJson(i)) == Some(NodeOf(i))
  {
    DictRoundTrip(i.properties);
  }

  lemma WirePort(i: PortInfo)
    ensures PortFromJson(PortInfoJson(i)) == Some(PortOf(i))
  {
    DictRoundTrip(i.properties);
  }

  lemma WireLink(i: LinkInfo)
    ensures LinkFromJson(LinkInfoJson(i)) == Some(LinkOf(i))
  {
    DictRoundTrip(i.properties);
  }

  lemma WireDevice(i: DeviceInfo)
    ensures DeviceFromJson(DeviceInfoJson(i)) == Some(DeviceOf(i))
  {
    DictRoundTrip(i.properties);
  }

  /** Each Dart record survives its own writer and reader, field by field. */
  lemma NodeRoundTrip(x: PwNode)
    ensures NodeFromJson(NodeToJson(x)) == Some(x)
  {
    DictRoundTrip(x.properties);
  }

  lemma PortRoundTrip(x: PwPort)
    ensures PortFromJson(PortToJson(x)) == Some(x)
  {
    DictRoundTrip(x.properties);
  }

  lemma LinkRoundTrip(x: PwLink)
    ensures LinkFromJson(LinkToJson(x)) == Some(x)
  {
    DictRoundTrip(x.properties);
  }

  lemma DeviceRoundTrip(x: PwDevice)
    ensures DeviceFromJson(DeviceToJson(x)) == Some(x)
  {
    DictRoundTrip(x.properties);
  }

  // ----------------------------------------------------------- missing fields

  /** A record with nothing but its ids reads with empty texts, no flags, and the error state. */
  lemma BareRecords(id: nat, node: nat)
    ensures NodeFromJson(JObj(map["id" := JNum(id)])) == Some(PwNode(id, "", "", NError, map[]))
    ensures PortFromJson(JObj(map["id" := JNum(id), "node_id" := JNum(node)]))
         == Some(PwPort(id, node, "", Input, "", false, false, "", map[]))
    ensures DeviceFromJson(JObj(map["id" := JNum(id)])) == Some(PwDevice(id, "", "", "", "", map[]))
  {
  }

  lemma BareLink(id: nat, a: nat, b: nat, c: nat, d: nat)
    ensures LinkFromJson(JObj(map["id" := JNum(id), "output_node_id" := JNum(a), "output_port_id" := JNum(b),
                                  "input_node_id" := JNum(c), "input_port_id" := JNum(d)]))
         == Some(PwLink(id, a, b, c, d, LError, "", map[]))
  {
  }

  /** Without an id, or the ids it refers to, nothing can be read. */
  lemma IdsAreNeeded(f: map<string, Json>)
    ensures "id" !in f ==> NodeFromJson(JObj(f)).None? && DeviceFromJson(JObj(f)).None?
    ensures "id" !in f || "node_id" !in f ==> PortFromJson(JObj(f)).None?
    ensures !({"id", "output_node_id", "output_port_id", "input_node_id", "input_port_id"} <= f.Keys)
            ==> LinkFromJson(JObj(f)).None?
  {
  }
}
