/**
  The monitor against the server it mirrors: once the server's messages are
  in, its maps hold exactly the objects that exist, each under its own type.
 */
module Mirror {
  import opened Prelude
  import opened Registry
  import opened Handshake
  import Graph
  import Replica

  /** The objects the monitor is meant to know: those of the four types. */
  function KnownTypes(live: map<nat, string>): map<nat, GlobalKind> {
    map id | id in live && KindOf(Some(live[id])).Some? :: KindOf(Some(live[id])).value
  }

  function TypesAfter(types: map<nat, GlobalKind>, m: Message): map<nat, GlobalKind> {
    if m.Notify? && m.cb.OnGlobal? && KindOf(m.cb.global.iface).Some?
    then types[m.cb.global.id := KindOf(m.cb.global.iface).value]
    else if m.Notify? && m.cb.OnRemove? then types - {m.cb.id}
    else types
  }

  function TypesAfterAll(types: map<nat, GlobalKind>, q: seq<Message>): map<nat, GlobalKind>
    decreases |q|
  {
    if q == [] then types else TypesAfterAll(TypesAfter(types, q[0]), q[1..])
  }

  /** The message announces no id that has a type. */
  predicate Fresh(types: map<nat, GlobalKind>, m: Message) {
    m.Notify? && m.cb.OnGlobal? ==> m.cb.global.id !in types
  }

  predicate AllFresh(types: map<nat, GlobalKind>, q: seq<Message>)
    decreases |q|
  {
    q == [] || (Fresh(types, q[0]) && AllFresh(TypesAfter(types, q[0]), q[1..]))
  }

  ghost predicate Mirrored(s: State) {
    && Coherent(s.native)
    && AllFresh(s.native.idTypes, s.inbox)
    && TypesAfterAll(s.native.idTypes, s.inbox) == (if s.watching then KnownTypes(s.live) else map[])
    && (!s.watching ==> s.inbox == [])
  }

  lemma {:induction false} AppendMessage(types: map<nat, GlobalKind>, q: seq<Message>, m: Message)
    ensures TypesAfterAll(types, q + [m]) == TypesAfter(TypesAfterAll(types, q), m)
    ensures AllFresh(types, q + [m]) <==> AllFresh(types, q) && Fresh(TypesAfterAll(types, q), m)
    decreases |q|
  {
    if q == [] {
      assert (q + [m])[1..] == [];
    } else {
      AppendMessage(TypesAfter(types, q[0]), q[1..], m);
      assert (q + [m])[1..] == q[1..] + [m];
    }
  }

  lemma {:induction false} NoticesFresh(order: seq<Global>)
    requires forall i, j :: 0 <= i < j < |order| ==> order[i].id != order[j].id
    ensures AllFresh(map[], Notices(order))
    ensures forall id :: id in TypesAfterAll(map[], Notices(order)) ==>
              exists i :: 0 <= i < |order| && order[i].id == id
    ensures forall i :: 0 <= i < |order| && KindOf(order[i].iface).Some? ==>
              var types := TypesAfterAll(map[], Notices(order));
              order[i].id in types && types[order[i].id] == KindOf(order[i].iface).value
    ensures forall i :: 0 <= i < |order| && KindOf(order[i].iface).None? ==>
              order[i].id !in TypesAfterAll(map[], Notices(order))
  {
    if order != [] {
      var front, last := order[..|order| - 1], order[|order| - 1];
      NoticesFresh(front);
      AppendMessage(map[], Notices(front), Notify(OnGlobal(last)));
      assert Notices(order) == Notices(front) + [Notify(OnGlobal(last))];
      assert forall i :: 0 <= i < |front| ==> front[i] == order[i];
    }
  }

  /** The first listing tells the monitor of every object there is. */
  lemma ListingMirrors(order: seq<Global>, live: map<nat, string>)
    requires Announces(order, live)
    ensures AllFresh(map[], Notices(order)) && TypesAfterAll(map[], Notices(order)) == KnownTypes(live)
  {
    NoticesFresh(order);
    var types := TypesAfterAll(map[], Notices(order));
    forall id ensures id in types <==> id in KnownTypes(live) {
      if id in live {
        var i :| 0 <= i < |order| && order[i].id == id;
        assert order[i].iface == Some(live[id]);
      }
    }
    forall id | id in types ensures types[id] == KnownTypes(live)[id] {
      var i :| 0 <= i < |order| && order[i].id == id;
      assert order[i].iface == Some(live[id]);
    }
  }

  lemma KindTypes(n: Native, g: Global, kind: GlobalKind, id: nat)
    ensures AfterKind(n, g, kind).idTypes == n.idTypes[g.id := kind]
    ensures RemoveKind(n, id, kind).idTypes == n.idTypes - {id}
  {
  }

  lemma StepTypes(n: Native, cb: Callback)
    ensures Step(n, cb).idTypes == TypesAfter(n.idTypes, Notify(cb))
  {
    match cb
    case OnGlobal(g) => if KindOf(g.iface).Some? { KindTypes(n, g, KindOf(g.iface).value, 0); }
    case OnRemove(id) =>
      if id in n.idTypes {
        KindTypes(n, Global(id, None, None, false), n.idTypes[id], id);
      } else {
        assert n.idTypes - {id} == n.idTypes;
      }
    case _ =>
  }

  /** A callback takes its message's place: the types move on as the message says. */
  lemma CallbackMirrors(n: Native, cb: Callback)
    requires Coherent(n) && Fresh(n.idTypes, Notify(cb))
    ensures Coherent(Step(n, cb)) && Step(n, cb).idTypes == TypesAfter(n.idTypes, Notify(cb))
  {
    StepTypes(n, cb);
    if cb.OnGlobal? {
      GlobalKeepsCoherenceExactly(n, cb.global);
    } else {
      OthersKeepCoherence(n, cb);
    }
  }

  lemma ReceiveMirrors(s: State)
    requires Mirrored(s) && s.inbox != []
    ensures Mirrored(Act(s, Receive))
  {
    var m := s.inbox[0];
    if m.Notify? { CallbackMirrors(s.native, m.cb); }
  }

  /** A message that leaves the types as they are can be sent at any time. */
  lemma PlainMessage(s: State, m: Message)
    requires Mirrored(s) && s.watching && (m.Notify? ==> IsInfo(m.cb))
    ensures Mirrored(s.(inbox := s.inbox + [m]))
  {
    AppendMessage(s.native.idTypes, s.inbox, m);
  }

  lemma CreateMirrors(s: State, id: nat, iface: string, bindOk: bool)
    requires Mirrored(s) && s.watching && id !in s.live
    ensures Mirrored(Act(s, ServerCreate(id, iface, bindOk)))
  {
    AppendMessage(s.native.idTypes, s.inbox, Notify(OnGlobal(Global(id, Some(iface), None, bindOk))));
    assert KnownTypes(s.live[id := iface])
        == TypesAfter(KnownTypes(s.live), Notify(OnGlobal(Global(id, Some(iface), None, bindOk))));
  }

  lemma RemoveMirrors(s: State, id: nat)
    requires Mirrored(s) && s.watching && id in s.live
    ensures Mirrored(Act(s, ServerRemove(id)))
  {
    AppendMessage(s.native.idTypes, s.inbox, Notify(OnRemove(id)));
    assert KnownTypes(s.live - {id}) == TypesAfter(KnownTypes(s.live), Notify(OnRemove(id)));
  }

  lemma ActMirrors(s: State, a: Action)
    requires Inv(s) && Mirrored(s) && CanAct(s, a)
    ensures Mirrored(Act(s, a))
  {
    match a
    case ServerCreate(id, iface, bindOk) => if s.watching { CreateMirrors(s, id, iface, bindOk); }
    case ServerRemove(id) => if s.watching { RemoveMirrors(s, id); }
    case ServerUpdate(cb) => PlainMessage(s, Notify(cb));
    case ServerDone(target, token) => PlainMessage(s, Done(target, token));
    case HandleRegistry(order) =>
      ListingMirrors(order, s.live);
      assert s.inbox + Notices(order) == Notices(order);
    case HandleBind(cb) => if InfoOf(cb, s.live, s.requests[0].id) { PlainMessage(s, Notify(cb)); }
    case HandleSync => PlainMessage(s, Done(CORE_ID, s.requests[0].token));
    case BeginRound(_) =>
    case Receive => ReceiveMirrors(s);
    case IterateFails =>
  }

  lemma {:induction false} RunMirrors(s: State, acts: seq<Action>)
    requires Inv(s) && Mirrored(s) && Possible(s, acts)
    ensures Mirrored(After(s, acts))
    decreases |acts|
  {
    if acts != [] {
      ActKeepsInv(s, acts[0]);
      ActMirrors(s, acts[0]);
      RunMirrors(Act(s, acts[0]), acts[1..]);
    }
  }

  /**
    In every run, failed iterations included: once the registry request is
    handled and all messages are in, each of the monitor's maps holds exactly
    the objects of its type that exist, each with a type and a proxy.
   */
  lemma MirrorsServer(live: map<nat, string>, acts: seq<Action>, id: nat)
    requires Possible(Start(live), acts)
    requires var s := After(Start(live), acts); s.watching && s.inbox == []
    ensures var s := After(Start(live), acts);
            var kind := if id in s.live then KindOf(Some(s.live[id])) else None;
            && (id in s.native.nodes <==> kind == Some(GNode)) && (id in s.native.ports <==> kind == Some(GPort))
            && (id in s.native.links <==> kind == Some(GLink)) && (id in s.native.devices <==> kind == Some(GDevice))
            && (id in s.native.proxies <==> kind.Some?) && (id in s.native.idTypes <==> kind.Some?)
  {
    var s := After(Start(live), acts);
    StartInv(live);
    RunMirrors(Start(live), acts);
    assert s.native.idTypes == KnownTypes(s.live) && CoherentAt(s.native, id);
  }

  function Alive(live: map<nat, string>, kind: GlobalKind): set<nat> {
    set id | id in live && KindOf(Some(live[id])) == Some(kind)
  }

  predicate ShowsAlive(n: Native, live: map<nat, string>) {
    && n.nodes.Keys == Alive(live, GNode) && n.ports.Keys == Alive(live, GPort)
    && n.links.Keys == Alive(live, GLink) && n.devices.Keys == Alive(live, GDevice)
  }

  lemma MapsMirror(live: map<nat, string>, acts: seq<Action>)
    requires Possible(Start(live), acts)
    requires var s := After(Start(live), acts); s.watching && s.inbox == []
    ensures var s := After(Start(live), acts); ShowsAlive(s.native, s.live)
  {
    var n, now := After(Start(live), acts).native, After(Start(live), acts).live;
    forall id: nat
      ensures (id in n.nodes <==> id in Alive(now, GNode)) && (id in n.ports <==> id in Alive(now, GPort))
      ensures (id in n.links <==> id in Alive(now, GLink)) && (id in n.devices <==> id in Alive(now, GDevice))
    {
      MirrorsServer(live, acts, id);
    }
  }

  lemma DartKeys(n: Native)
    ensures var g := Replica.DartOf(n);
            && g.nodes.Keys == n.nodes.Keys && g.ports.Keys == n.ports.Keys
            && g.links.Keys == n.links.Keys && g.devices.Keys == n.devices.Keys
  {
  }

  /** So a snapshot taken then shows Dart exactly the objects that exist. */
  lemma SnapshotShowsServer(live: map<nat, string>, acts: seq<Action>, order: Graph.Orders)
    requires Possible(Start(live), acts)
    requires var s := After(Start(live), acts); s.watching && s.inbox == [] && OrdersListing(order, s.native)
    ensures var s := After(Start(live), acts);
            var g := Graph.GraphFromFields(SnapshotFields(s.native, order));
            && g.Some?
            && g.value.nodes.Keys == Alive(s.live, GNode) && g.value.ports.Keys == Alive(s.live, GPort)
            && g.value.links.Keys == Alive(s.live, GLink) && g.value.devices.Keys == Alive(s.live, GDevice)
  {
    var n := After(Start(live), acts).native;
    RunKeepsKeyed(Start(live), acts);
    Replica.SnapshotIsExact(n, order);
    DartKeys(n);
    MapsMirror(live, acts);
  }

  // ------------------------------------------------------ while messages are out

  lemma {:induction false} TypeChanges(types: map<nat, GlobalKind>, q: seq<Message>, id: nat)
    ensures id in types && id !in TypesAfterAll(types, q) ==> Notify(OnRemove(id)) in q
    ensures id !in types && id in TypesAfterAll(types, q) ==>
              exists m :: m in q && m.Notify? && m.cb.OnGlobal? && m.cb.global.id == id
    decreases |q|
  {
    if q != [] {
      TypeChanges(TypesAfter(types, q[0]), q[1..], id);
      assert q[0] in q && forall m :: m in q[1..] ==> m in q;
    }
  }

  /** Whatever the monitor still shows of a gone object, or does not show of a new one, is on its way. */
  lemma DifferenceIsComing(live: map<nat, string>, acts: seq<Action>, id: nat)
    requires Possible(Start(live), acts)
    requires After(Start(live), acts).watching
    ensures var s := After(Start(live), acts);
            && (id in s.native.idTypes && id !in s.live ==> Notify(OnRemove(id)) in s.inbox)
            && (id in s.live && KindOf(Some(s.live[id])).Some? && id !in s.native.idTypes ==>
                  exists m :: m in s.inbox && m.Notify? && m.cb.OnGlobal? && m.cb.global.id == id)
  {
    var s := After(Start(live), acts);
    StartInv(live);
    RunMirrors(Start(live), acts);
    TypeChanges(s.native.idTypes, s.inbox, id);
  }
}
