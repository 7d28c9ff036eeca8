/**
  What the snapshots taken by connect and refresh put into the Dart graph, and
  what becomes of it over the rest of a run.
 */
module Snapshots {
  import opened Prelude
  import opened Records
  import opened Graph
  import opened Registry
  import opened Replica

  predicate TakesSnapshot(a: Action) {
    a.Start? || a.Refresh?
  }

  predicate NoSnapshots(acts: seq<Action>) {
    forall i :: 0 <= i < |acts| ==> !TakesSnapshot(acts[i])
  }

  /** Connecting and refreshing both replace the Dart graph by the native records of that moment. */
  lemma SnapshotTaken(s: System, a: Action)
    requires Keyed(s.native) && TakesSnapshot(a) && CanAct(s, a)
    ensures Act(s, a).dart == DartOf(s.native)
    ensures Act(s, a).native == s.native && Act(s, a).queue == s.queue && Act(s, a).phase == Listening
  {
    SnapshotIsExact(s.native, a.order);
  }

  lemma {:induction false} RunKeepsKeyed(s: System, acts: seq<Action>)
    requires Keyed(s.native) && Possible(s, acts)
    ensures Keyed(After(s, acts).native)
    decreases |acts|
  {
    if acts != [] {
      if acts[0].Call? { StepKeepsKeyed(s.native, acts[0].cb); }
      RunKeepsKeyed(Act(s, acts[0]), acts[1..]);
    }
  }

  // ------------------------------------------------------------------- devices

  lemma {:induction false} DevicesStay(s: System, acts: seq<Action>)
    requires Possible(s, acts) && NoSnapshots(acts)
    ensures After(s, acts).dart.devices == s.dart.devices
    decreases |acts|
  {
    if acts != [] {
      var a := acts[0];
      assert !TakesSnapshot(a);
      if a.Deliver? {
        WireEvent(s.queue[0]);
        ApplyFind(s.dart, EventOf(s.queue[0]), Slot(KNode, 0));
      }
      DevicesStay(Act(s, a), acts[1..]);
    }
  }

  /** Dart's devices are the native devices of the last snapshot, whatever has happened since. */
  lemma DevicesOfLastSnapshot(before: seq<Action>, snap: Action, since: seq<Action>)
    requires Possible(INITIAL, before) && TakesSnapshot(snap) && CanAct(After(INITIAL, before), snap)
    requires Possible(Act(After(INITIAL, before), snap), since) && NoSnapshots(since)
    ensures After(Act(After(INITIAL, before), snap), since).dart.devices
            == DartOf(After(INITIAL, before).native).devices
  {
    RunKeepsKeyed(INITIAL, before);
    SnapshotTaken(After(INITIAL, before), snap);
    DevicesStay(Act(After(INITIAL, before), snap), since);
  }

  /** Before the first snapshot the Dart graph is empty. */
  lemma {:induction false} EmptyUntilSnapshot(s: System, acts: seq<Action>)
    requires s.phase == Connecting && Possible(s, acts) && NoSnapshots(acts)
    ensures After(s, acts).dart == s.dart && After(s, acts).phase == Connecting
    decreases |acts|
  {
    if acts != [] {
      assert !TakesSnapshot(acts[0]);
      EmptyUntilSnapshot(Act(s, acts[0]), acts[1..]);
    }
  }

  // ------------------------------------------------------------------ presence

  ghost predicate Present(s: System, slot: Slot) {
    Find(Settled(s), slot).Some?
  }

  predicate Informs(a: Action, slot: Slot) {
    a.Call? && InfoAt(a.cb, slot)
  }

  predicate Removes(a: Action, id: nat) {
    a.Call? && a.cb == OnRemove(id)
  }

  /** A step that does not remove the id leaves its record in place. */
  lemma RecordStays(n: Native, cb: Callback, slot: Slot)
    requires HasRecord(n, slot) && cb != OnRemove(slot.id)
    ensures HasRecord(Step(n, cb), slot)
  {
    match cb
    case OnGlobal(g) => if KindOf(g.iface).Some? { KindKeepsRecord(n, g, KindOf(g.iface).value, slot); }
    case OnRemove(id) => if id in n.idTypes { UnrelatedRemove(n, id, n.idTypes[id], slot); }
    case _ => InfoKeepsRecord(n, cb, slot);
  }

  lemma KindKeepsRecord(n: Native, g: Global, kind: GlobalKind, slot: Slot)
    requires HasRecord(n, slot)
    ensures HasRecord(AfterKind(n, g, kind), slot)
  {
  }

  lemma InfoKeepsRecord(n: Native, cb: Callback, slot: Slot)
    requires HasRecord(n, slot) && !cb.OnGlobal? && !cb.OnRemove?
    ensures HasRecord(Step(n, cb), slot)
  {
  }

  /** What a callback posts sets the object it informs of, and touches no other object but a removed one. */
  lemma PostTargets(n: Native, cb: Callback, slot: Slot)
    requires Keyed(n) && HasRecord(n, slot) && cb != OnRemove(slot.id)
    ensures InfoAt(cb, slot) ==>
              && Posts(n, cb) != [] && Target(EventOf(Posts(n, cb)[0])) == Some(slot)
              && Payload(EventOf(Posts(n, cb)[0])).Some?
    ensures !InfoAt(cb, slot) && Posts(n, cb) != [] ==> Target(EventOf(Posts(n, cb)[0])) != Some(slot)
  {
    match cb
    case OnNode(id, u) => if u.Some? && id in n.nodes { assert UpdatedNode(n.nodes[id], u.value).id == id; }
    case OnPort(id, u) => if u.Some? && id in n.ports { assert UpdatedPort(n.ports[id], u.value).id == id; }
    case OnLink(id, u) => if u.Some? && id in n.links { assert UpdatedLink(n.links[id], u.value).id == id; }
    case _ =>
  }

  lemma CallPresence(s: System, cb: Callback, slot: Slot)
    requires Keyed(s.native) && HasRecord(s.native, slot) && cb != OnRemove(slot.id)
    ensures Present(Act(s, Call(cb)), slot) <==> Present(s, slot) || InfoAt(cb, slot)
  {
    var posts, t := Posts(s.native, cb), Act(s, Call(cb));
    PostTargets(s.native, cb, slot);
    if posts == [] {
      assert t.queue == s.queue;
    } else {
      assert posts == [posts[0]];
      PostSettles(s.dart, s.queue, posts[0]);
      ApplyFind(Settled(s), EventOf(posts[0]), slot);
    }
  }

  lemma StepPresence(s: System, a: Action, slot: Slot)
    requires Keyed(s.native) && HasRecord(s.native, slot) && CanAct(s, a)
    requires !TakesSnapshot(a) && !Removes(a, slot.id)
    ensures var t := Act(s, a);
            && Keyed(t.native) && HasRecord(t.native, slot)
            && (Present(t, slot) <==> Present(s, slot) || Informs(a, slot))
  {
    match a
    case Call(cb) =>
      StepKeepsKeyed(s.native, cb);
      RecordStays(s.native, cb, slot);
      CallPresence(s, cb, slot);
    case PostParam(node, key, value) =>
      PostSettles(s.dart, s.queue, ParamChangedEvent(node, key, value));
      assert Settled(Act(s, a)) == Settled(s);
    case Deliver => DeliverSettles(s);
    case Dispose => assert Settled(Act(s, a)) == Settled(s);
  }

  lemma {:induction false} RunPresence(s: System, acts: seq<Action>, slot: Slot)
    requires Keyed(s.native) && HasRecord(s.native, slot) && Possible(s, acts) && NoSnapshots(acts)
    requires forall i :: 0 <= i < |acts| ==> !Removes(acts[i], slot.id)
    ensures Present(After(s, acts), slot) <==>
              Present(s, slot) || exists i :: 0 <= i < |acts| && Informs(acts[i], slot)
    decreases |acts|
  {
    if acts != [] {
      var rest := acts[1..];
      assert !TakesSnapshot(acts[0]) && !Removes(acts[0], slot.id);
      StepPresence(s, acts[0], slot);
      RunPresence(Act(s, acts[0]), rest, slot);
      if exists i :: 0 <= i < |acts| && Informs(acts[i], slot) {
        var i :| 0 <= i < |acts| && Informs(acts[i], slot);
        if i > 0 { assert rest[i - 1] == acts[i]; }
      }
    }
  }

  /**
    An object that was native at the last snapshot and has not been removed
    since is in the settled graph exactly when no removal of its id was still
    in flight at the snapshot as the last event about it, or an info about it
    has come since.
   */
  lemma PresentExactly(before: seq<Action>, snap: Action, since: seq<Action>, slot: Slot)
    requires Possible(INITIAL, before) && TakesSnapshot(snap) && CanAct(After(INITIAL, before), snap)
    requires Possible(Act(After(INITIAL, before), snap), since) && NoSnapshots(since)
    requires HasRecord(After(INITIAL, before).native, slot)
    requires forall i :: 0 <= i < |since| ==> !Removes(since[i], slot.id)
    ensures Present(After(Act(After(INITIAL, before), snap), since), slot) <==>
              || LastFor(EventsOf(After(INITIAL, before).queue), slot) != Some(None)
              || exists i :: 0 <= i < |since| && Informs(since[i], slot)
  {
    var s := After(INITIAL, before);
    var t := Act(s, snap);
    RunKeepsKeyed(INITIAL, before);
    SnapshotTaken(s, snap);
    DartOfFind(s.native, slot);
    RecordFound(s.native, slot);
    ReplayFind(t.dart, EventsOf(t.queue), slot);
    RunPresence(t, since, slot);
  }

  lemma RecordFound(n: Native, slot: Slot)
    ensures HasRecord(n, slot) <==> NativeFind(n, slot).Some?
  {
  }

  predicate Concerns(a: Action, id: nat) {
    a.Call? && About(a.cb, id)
  }

  lemma StepUntouched(s: System, a: Action, slot: Slot)
    requires Keyed(s.native) && HasRecord(s.native, slot) && CanAct(s, a)
    requires !TakesSnapshot(a) && !Concerns(a, slot.id)
    ensures var t := Act(s, a);
            && Keyed(t.native) && HasRecord(t.native, slot) && NativeFind(t.native, slot) == NativeFind(s.native, slot)
            && Find(Settled(t), slot) == Find(Settled(s), slot)
  {
    match a
    case Call(cb) =>
      StepKeepsKeyed(s.native, cb);
      UnrelatedStep(s.native, cb, slot);
      CallUntouched(s, cb, slot);
    case PostParam(node, key, value) =>
      PostSettles(s.dart, s.queue, ParamChangedEvent(node, key, value));
      assert Settled(Act(s, a)) == Settled(s);
    case Deliver => DeliverSettles(s);
    case Dispose => assert Settled(Act(s, a)) == Settled(s);
  }

  lemma CallUntouched(s: System, cb: Callback, slot: Slot)
    requires Keyed(s.native) && HasRecord(s.native, slot) && !About(cb, slot.id)
    ensures Find(Settled(Act(s, Call(cb))), slot) == Find(Settled(s), slot)
  {
    var posts, t := Posts(s.native, cb), Act(s, Call(cb));
    PostTargets(s.native, cb, slot);
    if posts == [] {
      assert t.queue == s.queue;
    } else {
      assert posts == [posts[0]];
      PostSettles(s.dart, s.queue, posts[0]);
      ApplyFind(Settled(s), EventOf(posts[0]), slot);
    }
  }

  lemma {:induction false} RunUntouched(s: System, acts: seq<Action>, slot: Slot)
    requires Keyed(s.native) && HasRecord(s.native, slot) && Possible(s, acts) && NoSnapshots(acts)
    requires forall i :: 0 <= i < |acts| ==> !Concerns(acts[i], slot.id)
    ensures var t := After(s, acts);
            NativeFind(t.native, slot) == NativeFind(s.native, slot) && Find(Settled(t), slot) == Find(Settled(s), slot)
    decreases |acts|
  {
    if acts != [] {
      assert !TakesSnapshot(acts[0]) && !Concerns(acts[0], slot.id);
      StepUntouched(s, acts[0], slot);
      RunUntouched(Act(s, acts[0]), acts[1..], slot);
    }
  }

  /**
    An object about which no event was in flight at the last snapshot and no
    callback has come since is in the settled graph with its native record,
    announced or not.
   */
  lemma UntouchedIsCurrent(before: seq<Action>, snap: Action, since: seq<Action>, slot: Slot)
    requires Possible(INITIAL, before) && TakesSnapshot(snap) && CanAct(After(INITIAL, before), snap)
    requires Possible(Act(After(INITIAL, before), snap), since) && NoSnapshots(since)
    requires HasRecord(After(INITIAL, before).native, slot)
    requires LastFor(EventsOf(After(INITIAL, before).queue), slot).None?
    requires forall i :: 0 <= i < |since| ==> !Concerns(since[i], slot.id)
    ensures var t := After(Act(After(INITIAL, before), snap), since);
            Present(t, slot) && Find(Settled(t), slot) == NativeFind(t.native, slot)
  {
    var s := After(INITIAL, before);
    var t := Act(s, snap);
    RunKeepsKeyed(INITIAL, before);
    SnapshotTaken(s, snap);
    DartOfFind(s.native, slot);
    RecordFound(s.native, slot);
    ReplayFind(t.dart, EventsOf(t.queue), slot);
    RunUntouched(t, since, slot);
  }

  // --------------------------------------------------------- objects informed of

  predicate Renews(a: Action, id: nat) {
    a.Call? && (a.cb == OnRemove(id) || (a.cb.OnGlobal? && a.cb.global.id == id))
  }

  lemma InfoAnnounces(announced: set<Slot>, n: Native, cb: Callback, slot: Slot)
    requires InfoAt(cb, slot) && HasRecord(n, slot)
    ensures slot in AnnouncedAfterStep(announced, n, cb)
  {
    assert slot == Slot(slot.kind, slot.id);
  }

  lemma AnnouncementStays(announced: set<Slot>, n: Native, cb: Callback, slot: Slot)
    requires slot in announced && cb != OnRemove(slot.id) && (cb.OnGlobal? ==> cb.global.id != slot.id)
    ensures slot in AnnouncedAfterStep(announced, n, cb)
  {
  }

  lemma {:induction false} StaysAnnounced(s: System, acts: seq<Action>, slot: Slot)
    requires Possible(s, acts) && slot in s.announced
    requires forall i :: 0 <= i < |acts| ==> !Renews(acts[i], slot.id)
    ensures slot in After(s, acts).announced
    decreases |acts|
  {
    if acts != [] {
      assert !Renews(acts[0], slot.id);
      if acts[0].Call? { AnnouncementStays(s.announced, s.native, acts[0].cb, slot); }
      StaysAnnounced(Act(s, acts[0]), acts[1..], slot);
    }
  }

  /**
    Once an info about an object has come, and as long as its id is neither
    removed nor announced again, the settled graph holds its native record,
    over every run and whatever snapshots are taken.
   */
  lemma InformedIsCurrent(before: seq<Action>, cb: Callback, since: seq<Action>, slot: Slot)
    requires Possible(INITIAL, before) && InfoAt(cb, slot) && HasRecord(After(INITIAL, before).native, slot)
    requires Possible(Act(After(INITIAL, before), Call(cb)), since)
    requires forall i :: 0 <= i < |since| ==> !Renews(since[i], slot.id)
    ensures var t := After(Act(After(INITIAL, before), Call(cb)), since);
            Present(t, slot) && Find(Settled(t), slot) == NativeFind(t.native, slot)
  {
    var s := After(INITIAL, before);
    var t := Act(s, Call(cb));
    EveryStateConverges(before);
    ActConverges(s, Call(cb));
    InfoAnnounces(s.announced, s.native, cb, slot);
    StaysAnnounced(t, since, slot);
    RunConverges(t, since);
    assert Agrees(After(t, since).native, After(t, since).announced, slot, Find(Settled(After(t, since)), slot));
  }

  // ------------------------------------------------------- a removal in flight

  /** A node announced, informed of, removed and announced again. */
  function Returning(id: nat): seq<Callback> {
    var g := Global(id, Some("PipeWire:Interface:Node"), None, true);
    [OnGlobal(g), OnNode(id, Some(NodeUpdate(CodeIdle, None))), OnRemove(id), OnGlobal(g)]
  }

  lemma ReturningNode(id: nat)
    ensures var n := Run(NO_OBJECTS, Returning(id));
            && HasRecord(n, Slot(KNode, id))
            && |Trace(NO_OBJECTS, Returning(id))| == 2
            && Trace(NO_OBJECTS, Returning(id))[1] == NodeRemovedEvent(id)
  {
    var cbs := Returning(id);
    var n1 := Step(NO_OBJECTS, cbs[0]);
    var n2 := Step(n1, cbs[1]);
    var n3 := Step(n2, cbs[2]);
    var n4 := Step(n3, cbs[3]);
    assert Run(n4, cbs[1..][1..][1..][1..]) == n4 && Trace(n4, cbs[1..][1..][1..][1..]) == [];
    assert Run(n3, cbs[1..][1..][1..]) == n4 && Trace(n3, cbs[1..][1..][1..]) == Posts(n3, cbs[3]) + [];
    assert Run(n2, cbs[1..][1..]) == n4 && Trace(n2, cbs[1..][1..]) == Posts(n2, cbs[2]) + Posts(n3, cbs[3]);
    assert Run(n1, cbs[1..]) == n4;
  }

  function Calls(cbs: seq<Callback>): seq<Action> {
    seq(|cbs|, i requires 0 <= i < |cbs| => Call(cbs[i]))
  }

  /** Callbacks alone: the native side runs, its events queue up, and nothing else moves. */
  lemma {:induction false} CallsRun(s: System, cbs: seq<Callback>)
    ensures Possible(s, Calls(cbs))
    ensures var t := After(s, Calls(cbs));
            && t.native == Run(s.native, cbs) && t.queue == s.queue + Trace(s.native, cbs)
            && t.dart == s.dart && t.phase == s.phase
    decreases |cbs|
  {
    if cbs == [] {
      assert s.queue + [] == s.queue;
    } else {
      var t := Act(s, Call(cbs[0]));
      CallsRun(t, cbs[1..]);
      assert Calls(cbs)[1..] == Calls(cbs[1..]);
      Associate(s.queue, Posts(s.native, cbs[0]), Trace(t.native, cbs[1..]));
    }
  }

  /**
    The condition is needed: connecting while the removal of a node's former
    life is still in flight shows the node, and the removal then takes it out,
    though the node exists.
   */
  lemma ReturningNodeIsLost(order: Orders, id: nat)
    requires OrdersListing(order, Run(NO_OBJECTS, Returning(id)))
    ensures Possible(INITIAL, Calls(Returning(id)))
    ensures var s := After(INITIAL, Calls(Returning(id)));
            && CanAct(s, Start(order))
            && var t := Act(s, Start(order));
            id in t.native.nodes && id in t.dart.nodes && id !in DeliverAll(t).dart.nodes
  {
    var slot := Slot(KNode, id);
    CallsRun(INITIAL, Returning(id));
    RunKeepsKeyed(INITIAL, Calls(Returning(id)));
    var s := After(INITIAL, Calls(Returning(id)));
    ReturningNode(id);
    SnapshotTaken(s, Start(order));
    var t := Act(s, Start(order));
    RemovalDecides(t, id);
    DartOfFind(s.native, slot);
    RecordFound(s.native, slot);
  }

  lemma RemovalDecides(t: System, id: nat)
    requires t.phase == Listening && |t.queue| == 2 && t.queue[1] == NodeRemovedEvent(id)
    ensures id !in DeliverAll(t).dart.nodes
  {
    var slot := Slot(KNode, id);
    DeliverAllSettles(t);
    var es := EventsOf(t.queue);
    assert es[|es| - 1] == NodeRemoved(id);
    assert LastFor(es, slot) == Some(None);
    ReplayFind(t.dart, es, slot);
  }
}
