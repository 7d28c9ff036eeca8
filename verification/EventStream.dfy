/**
  The events the Dart client emits to its listeners: which they are, and in
  what order those about one object come.
 */
module EventStream {
  import opened Prelude
  import opened Graph
  import opened Registry
  import opened Replica

  /** What the native side posts in a run. */
  ghost function PostedBy(s: System, acts: seq<Action>): seq<GraphEvent>
    requires Possible(s, acts)
    decreases |acts|
  {
    if acts == [] then [] else PostedIn(s, acts[0]) + PostedBy(Act(s, acts[0]), acts[1..])
  }

  function PostedIn(s: System, a: Action): seq<GraphEvent> {
    match a
    case Call(cb) => Posts(s.native, cb)
    case PostParam(node, key, value) => [ParamChangedEvent(node, key, value)]
    case _ => []
  }

  /** What the Dart client emits in a run: each message it can read, as it is delivered. */
  ghost function EmittedBy(s: System, acts: seq<Action>): seq<PwEvent>
    requires Possible(s, acts)
    decreases |acts|
  {
    if acts == [] then [] else EmittedIn(s, acts[0]) + EmittedBy(Act(s, acts[0]), acts[1..])
  }

  ghost function EmittedIn(s: System, a: Action): seq<PwEvent>
    requires CanAct(s, a)
  {
    if a.Deliver? && Deserialize(Serialize(s.queue[0])).Some? then [Deserialize(Serialize(s.queue[0])).value] else []
  }

  lemma EventsAppend(a: seq<GraphEvent>, b: seq<GraphEvent>)
    ensures EventsOf(a + b) == EventsOf(a) + EventsOf(b)
  {
  }

  lemma StepConserves(s: System, a: Action)
    requires CanAct(s, a)
    ensures EventsOf(s.queue + PostedIn(s, a)) == EmittedIn(s, a) + EventsOf(Act(s, a).queue)
  {
    if a.Deliver? {
      WireEvent(s.queue[0]);
      assert s.queue == [s.queue[0]] + s.queue[1..];
      EventsAppend([s.queue[0]], s.queue[1..]);
      assert s.queue + [] == s.queue;
    } else {
      assert Act(s, a).queue == s.queue + PostedIn(s, a);
    }
  }

  /** Nothing is lost, made up or reordered: what was in flight and what is posted is emitted, or still in flight. */
  lemma {:induction false} EventsConserved(s: System, acts: seq<Action>)
    requires Possible(s, acts)
    ensures EventsOf(s.queue + PostedBy(s, acts)) == EmittedBy(s, acts) + EventsOf(After(s, acts).queue)
    decreases |acts|
  {
    if acts == [] {
      assert s.queue + [] == s.queue;
    } else {
      var t, rest := Act(s, acts[0]), acts[1..];
      var now, later := PostedIn(s, acts[0]), PostedBy(t, rest);
      StepConserves(s, acts[0]);
      EventsConserved(t, rest);
      Associate(s.queue, now, later);
      EventsAppend(s.queue + now, later);
      EventsAppend(t.queue, later);
      Associate(EmittedIn(s, acts[0]), EventsOf(t.queue), EventsOf(later));
      Associate(EmittedIn(s, acts[0]), EmittedBy(t, rest), EventsOf(After(t, rest).queue));
    }
  }

  /** After dispose nothing is delivered or refreshed: the graph stays, whatever is still posted. */
  lemma {:induction false} DisposeIsFinal(s: System, acts: seq<Action>)
    requires s.phase == Disposed && Possible(s, acts)
    ensures After(s, acts).phase == Disposed && After(s, acts).dart == s.dart && EmittedBy(s, acts) == []
    decreases |acts|
  {
    if acts != [] { DisposeIsFinal(Act(s, acts[0]), acts[1..]); }
  }

  lemma DisposeEnds(s: System, acts: seq<Action>)
    requires CanAct(s, Dispose) && Possible(Act(s, Dispose), acts)
    ensures After(Act(s, Dispose), acts).dart == s.dart && EmittedBy(Act(s, Dispose), acts) == []
  {
    DisposeIsFinal(Act(s, Dispose), acts);
  }

  // ------------------------------------------------------------- event language

  predicate AddsAt(e: PwEvent, slot: Slot) {
    match slot.kind
    case KNode => e.NodeAdded? && e.node.id == slot.id
    case KPort => e.PortAdded? && e.port.id == slot.id
    case KLink => e.LinkAdded? && e.link.id == slot.id
  }

  predicate ChangesAt(e: PwEvent, slot: Slot) {
    match slot.kind
    case KNode => e.NodeInfoChanged? && e.node.id == slot.id
    case KPort => false
    case KLink => e.LinkStateChanged? && e.link.id == slot.id
  }

  predicate RemovesAt(e: PwEvent, slot: Slot) {
    match slot.kind
    case KNode => e == NodeRemoved(slot.id)
    case KPort => e == PortRemoved(slot.id)
    case KLink => e == LinkRemoved(slot.id)
  }

  /** The listeners have been told of the object, and not since of its removal. */
  ghost predicate Known(es: seq<PwEvent>, slot: Slot) {
    exists j :: 0 <= j < |es| && AddsAt(es[j], slot) && forall k :: j < k < |es| ==> !RemovesAt(es[k], slot)
  }

  /** No change is told of an object that is not known. */
  ghost predicate Ordered(es: seq<PwEvent>) {
    forall i, slot: Slot :: 0 <= i < |es| && ChangesAt(es[i], slot) ==> Known(es[..i], slot)
  }

  lemma SameKind(e: GraphEvent, slot: Slot)
    ensures AddsAt(EventOf(e), slot) <==> AddedAt(e, slot)
    ensures ChangesAt(EventOf(e), slot) <==> ChangedAt(e, slot)
    ensures RemovesAt(EventOf(e), slot) <==> RemovedAt(e, slot)
  {
  }

  lemma KnownInside(tr: seq<GraphEvent>, slot: Slot)
    requires Inside(tr, slot)
    ensures Known(EventsOf(tr), slot)
  {
    var j :| 0 <= j < |tr| && AddedAt(tr[j], slot) && forall k :: j < k < |tr| ==> !RemovedAt(tr[k], slot);
    var es := EventsOf(tr);
    SameKind(tr[j], slot);
    forall k | j < k < |es| ensures !RemovesAt(es[k], slot) {
      SameKind(tr[k], slot);
    }
    assert AddsAt(es[j], slot);
  }

  lemma OrderedFromNative(tr: seq<GraphEvent>)
    requires WellFormed(tr)
    ensures Ordered(EventsOf(tr))
  {
    var es := EventsOf(tr);
    forall i, slot: Slot | 0 <= i < |es| && ChangesAt(es[i], slot)
      ensures Known(es[..i], slot)
    {
      SameKind(tr[i], slot);
      KnownInside(tr[..i], slot);
      assert EventsOf(tr[..i]) == es[..i];
    }
  }

  lemma OrderedPrefix(es: seq<PwEvent>, more: seq<PwEvent>)
    requires Ordered(es + more)
    ensures Ordered(es)
  {
    forall i, slot: Slot | 0 <= i < |es| && ChangesAt(es[i], slot)
      ensures Known(es[..i], slot)
    {
      assert (es + more)[i] == es[i] && (es + more)[..i] == es[..i];
    }
  }

  /** A parameter event changes nothing about nodes and links. */
  lemma ParamKeepsLanguage(n: Native, tr: seq<GraphEvent>, node: nat, key: string, value: string)
    requires WellFormed(tr) && Announced(n, tr)
    ensures var e := ParamChangedEvent(node, key, value); WellFormed(tr + [e]) && Announced(n, tr + [e])
  {
    var e := ParamChangedEvent(node, key, value);
    WellFormedAppend(tr, e);
    forall id | id in n.nodes && n.nodes[id].state != "creating" ensures Inside(tr + [e], Slot(KNode, id)) {
      InsideAppend(tr, e, Slot(KNode, id));
    }
    forall id | id in n.links && n.links[id].state != "init" ensures Inside(tr + [e], Slot(KLink, id)) {
      InsideAppend(tr, e, Slot(KLink, id));
    }
  }

  lemma {:induction false} PostedWellFormed(s: System, acts: seq<Action>, tr: seq<GraphEvent>)
    requires Possible(s, acts) && Keyed(s.native) && WellFormed(tr) && Announced(s.native, tr)
    ensures WellFormed(tr + PostedBy(s, acts))
    decreases |acts|
  {
    if acts == [] {
      assert tr + [] == tr;
    } else {
      var a := acts[0];
      match a {
        case Call(cb) =>
          StepKeepsKeyed(s.native, cb);
          StepKeepsLanguage(s.native, cb, tr);
        case PostParam(node, key, value) => ParamKeepsLanguage(s.native, tr, node, key, value);
        case _ => assert tr + [] == tr;
      }
      PostedWellFormed(Act(s, a), acts[1..], tr + PostedIn(s, a));
      Associate(tr, PostedIn(s, a), PostedBy(Act(s, a), acts[1..]));
    }
  }

  /**
    What a listener of the Dart client hears, over every run: nothing changes
    about a node or link it was not told of as added, or was told is removed.
   */
  lemma EmittedInOrder(acts: seq<Action>)
    requires Possible(INITIAL, acts)
    ensures Ordered(EmittedBy(INITIAL, acts))
  {
    PostedWellFormed(INITIAL, acts, []);
    var tr := PostedBy(INITIAL, acts);
    assert [] + tr == tr && INITIAL.queue + tr == tr;
    EventsConserved(INITIAL, acts);
    OrderedFromNative(tr);
    OrderedPrefix(EmittedBy(INITIAL, acts), EventsOf(After(INITIAL, acts).queue));
  }

  /**
    The event createLink waits for: the first info about an announced link is
    emitted, when its turn comes, as an Added with the ends that info brought.
   */
  lemma FirstLinkInfoIsAdded(n: Native, id: nat, u: LinkUpdate)
    requires Keyed(n) && id in n.links && n.links[id].state == "init"
    ensures var posts := Posts(n, OnLink(id, Some(u)));
            && |posts| == 1
            && var e := Deserialize(Serialize(posts[0]));
            && e.Some? && AddsAt(e.value, Slot(KLink, id))
            && e.value.link.outputNodeId == u.outputNode && e.value.link.outputPortId == u.outputPort
            && e.value.link.inputNodeId == u.inputNode && e.value.link.inputPortId == u.inputPort
  {
    var posts := Posts(n, OnLink(id, Some(u)));
    WireEvent(posts[0]);
  }
}
