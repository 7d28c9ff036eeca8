/**
  The connect handshake: two `pw_core_sync` round trips over an ordered
  connection. The server is a small model: it handles requests in order, and
  its messages arrive in the order it sent them.
 */
module Handshake {
  import opened Prelude
  import opened Registry
  import Graph
  import Records
  import Replica

  datatype Request = GetRegistry | Bind(id: nat) | Sync(token: int)

  datatype Message = Notify(cb: Callback) | Done(target: nat, token: int)

  /** The loop over two rounds: about to start one, or iterating until its done event. */
  datatype Phase = Ready(round: nat) | Waiting(round: nat, awaited: int)

  const CORE_ID: nat := 0

  /** What an info callback is about. */
  datatype Topic = Topic(id: nat, kind: GlobalKind)

  datatype State = State(
    live: map<nat, string>,   // server: the objects that exist, with their interface names
    watching: bool,           // server: the registry request has been handled
    bound: set<nat>,          // server: the objects this client has bound
    initial: set<nat>,        // objects that existed at the registry request and still do
    requests: seq<Request>,
    inbox: seq<Message>,
    native: Native,
    latest: map<Topic, Callback>, // the last info callback that took effect since the announcement
    phase: Phase,
    tokens: set<int>,         // sync numbers handed out
    broken: bool)             // a loop iteration returned an error and ended a round early

  datatype Action =
    | ServerCreate(id: nat, iface: string, bindOk: bool)
    | ServerRemove(id: nat)
    | ServerUpdate(info: Callback)
    | ServerDone(target: nat, token: int) // a done event for something other than the core
    | HandleRegistry(order: seq<Global>)
    | HandleBind(info: Callback)
    | HandleSync
    | BeginRound(token: int)
    | Receive
    | IterateFails

  function Start(live: map<nat, string>): State {
    State(live, false, {}, {}, [GetRegistry], [], NO_OBJECTS, map[], Ready(0), {}, false)
  }

  /** An info callback with contents, for the object's own kind. */
  predicate InfoFor(cb: Callback, id: nat, kind: GlobalKind) {
    match kind
    case GNode => cb.OnNode? && cb.id == id && cb.nodeInfo.Some?
    case GPort => cb.OnPort? && cb.id == id && cb.portInfo.Some?
    case GLink => cb.OnLink? && cb.id == id && cb.linkInfo.Some?
    case GDevice => cb.OnDevice? && cb.id == id && cb.deviceInfo.Some?
  }

  predicate InfoOf(cb: Callback, live: map<nat, string>, id: nat) {
    id in live && KindOf(Some(live[id])).Some? && InfoFor(cb, id, KindOf(Some(live[id])).value)
  }

  predicate IsInfo(cb: Callback) {
    !cb.OnGlobal? && !cb.OnRemove?
  }

  /** The announcements of everything that exists, in an order the server chooses. */
  ghost predicate Announces(order: seq<Global>, live: map<nat, string>) {
    && (forall i, j :: 0 <= i < j < |order| ==> order[i].id != order[j].id)
    && (forall i :: 0 <= i < |order| ==> order[i].id in live && order[i].iface == Some(live[order[i].id]))
    && (forall id :: id in live ==> exists i :: 0 <= i < |order| && order[i].id == id)
  }

  ghost predicate CanAct(s: State, a: Action) {
    match a
    case ServerCreate(id, _, _) => id !in s.live
    case ServerRemove(id) => id in s.live
    case ServerUpdate(cb) => IsInfo(cb) && cb.id in s.bound && InfoOf(cb, s.live, cb.id)
    case ServerDone(target, _) => s.watching && target != CORE_ID
    case HandleRegistry(order) => s.requests != [] && s.requests[0].GetRegistry? && Announces(order, s.live)
    case HandleBind(cb) =>
      s.requests != [] && s.requests[0].Bind? &&
      (InfoOf(cb, s.live, s.requests[0].id) ||
       (s.requests[0].id in s.live ==> KindOf(Some(s.live[s.requests[0].id])).None?))
    case HandleSync => s.requests != [] && s.requests[0].Sync?
    case BeginRound(token) => s.phase.Ready? && s.phase.round < 2 && token !in s.tokens
    case Receive => s.inbox != []
    case IterateFails => s.phase.Waiting?
  }

  function Notices(order: seq<Global>): seq<Message> {
    seq(|order|, i requires 0 <= i < |order| => Notify(OnGlobal(order[i])))
  }

  /** Whether an info callback finds the record it updates. */
  predicate Effective(n: Native, cb: Callback) {
    match cb
    case OnNode(id, u) => u.Some? && id in n.nodes
    case OnPort(id, u) => u.Some? && id in n.ports
    case OnLink(id, u) => u.Some? && id in n.links
    case OnDevice(id, u) => u.Some? && id in n.devices
    case _ => false
  }

  function TopicsOf(id: nat): set<Topic> {
    {Topic(id, GNode), Topic(id, GPort), Topic(id, GLink), Topic(id, GDevice)}
  }

  function TopicOf(cb: Callback): Topic
    requires IsInfo(cb)
  {
    match cb
    case OnNode(id, _) => Topic(id, GNode)
    case OnPort(id, _) => Topic(id, GPort)
    case OnLink(id, _) => Topic(id, GLink)
    case OnDevice(id, _) => Topic(id, GDevice)
  }

  /** Announcements and removals start the object over; an info callback that finds its record is the latest. */
  function LatestAfter(latest: map<Topic, Callback>, n: Native, cb: Callback): map<Topic, Callback> {
    match cb
    case OnGlobal(g) => latest - TopicsOf(g.id)
    case OnRemove(id) => latest - TopicsOf(id)
    case _ => if Effective(n, cb) then latest[TopicOf(cb) := cb] else latest
  }

  /** The record holds what the callback brought: taking the callback in once more would change nothing. */
  predicate Carries(n: Native, t: Topic, cb: Callback) {
    && InfoFor(cb, t.id, t.kind)
    && match t.kind
       case GNode => t.id in n.nodes && UpdatedNode(n.nodes[t.id], cb.nodeInfo.value) == n.nodes[t.id]
       case GPort => t.id in n.ports && UpdatedPort(n.ports[t.id], cb.portInfo.value) == n.ports[t.id]
       case GLink => t.id in n.links && UpdatedLink(n.links[t.id], cb.linkInfo.value) == n.links[t.id]
       case GDevice => t.id in n.devices && UpdatedDevice(n.devices[t.id], cb.deviceInfo.value) == n.devices[t.id]
  }

  /** The client's reaction to a callback: a newly announced object of a known type is bound. */
  function BindFor(cb: Callback): seq<Request> {
    if cb.OnGlobal? && KindOf(cb.global.iface).Some? && cb.global.bindOk then [Bind(cb.global.id)] else []
  }

  function Delivered(s: State, m: Message): State {
    match m
    case Notify(cb) =>
      s.(native := Step(s.native, cb), latest := LatestAfter(s.latest, s.native, cb),
         requests := s.requests + BindFor(cb))
    case Done(target, token) =>
      if s.phase.Waiting? && target == CORE_ID && token == s.phase.awaited
      then s.(phase := Ready(s.phase.round + 1)) else s
  }

  ghost function Act(s: State, a: Action): State
    requires CanAct(s, a)
  {
    match a
    case ServerCreate(id, iface, bindOk) =>
      s.(live := s.live[id := iface],
         inbox := if s.watching then s.inbox + [Notify(OnGlobal(Global(id, Some(iface), None, bindOk)))] else s.inbox)
    case ServerRemove(id) =>
      s.(live := s.live - {id}, bound := s.bound - {id}, initial := s.initial - {id},
         inbox := if s.watching then s.inbox + [Notify(OnRemove(id))] else s.inbox)
    case ServerUpdate(cb) => s.(inbox := s.inbox + [Notify(cb)])
    case ServerDone(target, token) => s.(inbox := s.inbox + [Done(target, token)])
    case HandleRegistry(order) =>
      s.(requests := s.requests[1..], watching := true, initial := s.live.Keys, inbox := s.inbox + Notices(order))
    case HandleBind(cb) =>
      var id := s.requests[0].id;
      var t := s.(requests := s.requests[1..]);
      if InfoOf(cb, s.live, id) then t.(bound := s.bound + {id}, inbox := s.inbox + [Notify(cb)]) else t
    case HandleSync =>
      s.(requests := s.requests[1..], inbox := s.inbox + [Done(CORE_ID, s.requests[0].token)])
    case BeginRound(token) =>
      s.(phase := Waiting(s.phase.round, token), tokens := s.tokens + {token}, requests := s.requests + [Sync(token)])
    case Receive => Delivered(s.(inbox := s.inbox[1..]), s.inbox[0])
    case IterateFails => s.(phase := Ready(s.phase.round + 1), broken := true)
  }

  // -------------------------------------------------- positions in a channel

  ghost predicate NoneOf<M(!new)>(q: seq<M>, wanted: M -> bool) {
    forall i :: 0 <= i < |q| ==> !wanted(q[i])
  }

  /** Some wanted entry comes before the first `stop`. */
  ghost predicate Ahead<M(!new)>(q: seq<M>, wanted: M -> bool, stop: Option<M>) {
    q != [] && stop != Some(q[0]) && (wanted(q[0]) || Ahead(q[1..], wanted, stop))
  }

  lemma {:induction false} AheadAppend<M(!new)>(q: seq<M>, r: seq<M>, wanted: M -> bool, stop: Option<M>)
    requires Ahead(q, wanted, stop)
    ensures Ahead(q + r, wanted, stop)
  {
    assert (q + r)[1..] == q[1..] + r;
    if !wanted(q[0]) { AheadAppend(q[1..], r, wanted, stop); }
  }

  lemma {:induction false} AheadAtEnd<M(!new)>(q: seq<M>, m: M, wanted: M -> bool, stop: Option<M>)
    requires wanted(m) && stop != Some(m) && (stop.Some? ==> stop.value !in q)
    ensures Ahead(q + [m], wanted, stop)
  {
    if q != [] {
      assert (q + [m])[1..] == q[1..] + [m];
      AheadAtEnd(q[1..], m, wanted, stop);
    }
  }

  /** An absent stop mark changes nothing. */
  lemma {:induction false} AheadAbsent<M(!new)>(q: seq<M>, wanted: M -> bool, stop: Option<M>)
    requires Ahead(q, wanted, None) && (stop.Some? ==> stop.value !in q)
    ensures Ahead(q, wanted, stop)
  {
    if !wanted(q[0]) { AheadAbsent(q[1..], wanted, stop); }
  }

  lemma {:induction false} AheadWeaken<M(!new)>(q: seq<M>, wanted: M -> bool, stop: Option<M>)
    requires Ahead(q, wanted, stop)
    ensures Ahead(q, wanted, None)
  {
    if !wanted(q[0]) { AheadWeaken(q[1..], wanted, stop); }
  }

  // ---------------------------------------------------------------- invariant

  function GlobalOf(id: nat): Message -> bool {
    (m: Message) => m.Notify? && m.cb.OnGlobal? && m.cb.global.id == id
  }

  function RemoveOf(id: nat): Message -> bool {
    (m: Message) => m.Notify? && m.cb == OnRemove(id)
  }

  function InfoMessage(id: nat, kind: GlobalKind): Message -> bool {
    (m: Message) => m.Notify? && InfoFor(m.cb, id, kind)
  }

  function BindOf(id: nat): Request -> bool {
    (r: Request) => r == Bind(id)
  }

  /** At most one announcement of the id is on its way. */
  ghost predicate GlobalOnce(q: seq<Message>, id: nat) {
    forall i, j :: 0 <= i < j < |q| ==> !(GlobalOf(id)(q[i]) && GlobalOf(id)(q[j]))
  }

  /** Every announcement of the id on its way names this interface. */
  ghost predicate GlobalsNamed(q: seq<Message>, id: nat, iface: string) {
    forall i :: 0 <= i < |q| && GlobalOf(id)(q[i]) ==> q[i].cb.global.iface == Some(iface)
  }

  /** No removal of the id is on its way, and at most one announcement, under its own interface. */
  ghost predicate Clean(q: seq<Message>, id: nat, iface: string) {
    NoneOf(q, RemoveOf(id)) && GlobalOnce(q, id) && GlobalsNamed(q, id, iface)
  }

  lemma CleanAppend(q: seq<Message>, m: Message, id: nat, iface: string)
    requires Clean(q, id, iface) && !GlobalOf(id)(m) && !RemoveOf(id)(m)
    ensures Clean(q + [m], id, iface)
    ensures NoneOf(q, GlobalOf(id)) ==> NoneOf(q + [m], GlobalOf(id))
  {
  }

  predicate Held(n: Native, id: nat, kind: GlobalKind) {
    && id in n.proxies
    && match kind
       case GNode => id in n.nodes
       case GPort => id in n.ports
       case GLink => id in n.links
       case GDevice => id in n.devices
  }

  function DoneMark(s: State): Option<Message> {
    if s.phase.Waiting? then Some(Done(CORE_ID, s.phase.awaited)) else None
  }

  function SyncMark(s: State): Option<Request> {
    if s.phase.Waiting? then Some(Sync(s.phase.awaited)) else None
  }

  /** Not yet announced to the client: only in the first round, and ahead of its done event. */
  ghost predicate Unseen(s: State, id: nat) {
    s.phase.round == 0 && Ahead(s.inbox, GlobalOf(id), DoneMark(s))
  }

  /** Announced; its info is still to come, from before the end of the second round. */
  ghost predicate InfoComing(s: State, id: nat, kind: GlobalKind) {
    var late := if s.phase.round == 0 then None else DoneMark(s);
    var lateSync := if s.phase.round == 0 then None else SyncMark(s);
    && s.phase.round < 2
    && ((Ahead(s.requests, BindOf(id), lateSync) && (lateSync.Some? ==> lateSync.value in s.requests))
        || Ahead(s.inbox, InfoMessage(id, kind), late))
  }

  /** Announced and settled, or its info is coming. */
  ghost predicate Seen(s: State, id: nat, kind: GlobalKind) {
    && NoneOf(s.inbox, GlobalOf(id))
    && Held(s.native, id, kind)
    && (!s.native.proxies[id].bound || Topic(id, kind) in s.latest || InfoComing(s, id, kind))
  }

  /** Where an initial object of a known kind stands. */
  ghost predicate Tracked(s: State, id: nat, iface: string, kind: GlobalKind) {
    && Clean(s.inbox, id, iface)
    && (Unseen(s, id) || Seen(s, id, kind))
  }

  ghost predicate AllTracked(s: State) {
    forall id :: id in s.initial && id in s.live && KindOf(Some(s.live[id])).Some?
      ==> Tracked(s, id, s.live[id], KindOf(Some(s.live[id])).value)
  }

  /** Every record holds what its latest info callback brought. */
  ghost predicate InfoKept(s: State) {
    forall t :: t in s.latest ==> Carries(s.native, t, s.latest[t])
  }

  /** The registry request comes first, and sync marks carry numbers that were handed out. */
  ghost predicate ChannelsOk(s: State) {
    && s.initial <= s.live.Keys
    && (!s.watching ==>
          && s.requests != [] && s.requests[0].GetRegistry? && s.inbox == []
          && (!s.broken ==> s.phase.round == 0)
          && s.initial == {} && s.bound == {})
    && (forall i :: (if s.watching then 0 else 1) <= i < |s.requests| ==> !s.requests[i].GetRegistry?)
    && (forall i :: 0 <= i < |s.requests| && s.requests[i].Sync? ==> s.requests[i].token in s.tokens)
    && (forall i :: 0 <= i < |s.inbox| && s.inbox[i].Done? && s.inbox[i].target == CORE_ID
          ==> s.inbox[i].token in s.tokens)
    && (s.phase.Waiting? ==>
          && s.phase.awaited in s.tokens
          && (forall i, j :: 0 <= i < j < |s.requests| ==>
                !(s.requests[i] == s.requests[j] == Sync(s.phase.awaited)))
          && (Sync(s.phase.awaited) in s.requests ==> Done(CORE_ID, s.phase.awaited) !in s.inbox))
    && s.phase.round <= 2
    && (s.phase.Waiting? ==> s.phase.round < 2)
  }

  ghost predicate Inv(s: State) {
    ChannelsOk(s) && (!s.broken ==> AllTracked(s))
  }

  lemma StartInv(live: map<nat, string>)
    ensures Inv(Start(live))
  {
  }

  // -------------------------------------------------------------- channel upkeep

  lemma ChannelsKept(s: State, a: Action)
    requires ChannelsOk(s) && CanAct(s, a)
    ensures ChannelsOk(Act(s, a))
  {
    match a
    case Receive => ReceiveChannels(s);
    case HandleRegistry(order) =>
    case HandleBind(_) => HeadChannels(s, a);
    case HandleSync => HeadChannels(s, a);
    case _ =>
  }

  lemma ReceiveChannels(s: State)
    requires ChannelsOk(s) && s.inbox != []
    ensures ChannelsOk(Act(s, Receive))
  {
    var t := Act(s, Receive);
    if s.inbox[0].Notify? {
      assert forall i :: 0 <= i < |BindFor(s.inbox[0].cb)| ==> BindFor(s.inbox[0].cb)[i].Bind?;
    }
  }

  lemma HeadChannels(s: State, a: Action)
    requires ChannelsOk(s) && CanAct(s, a) && (a.HandleBind? || a.HandleSync?)
    ensures ChannelsOk(Act(s, a))
  {
    var t := Act(s, a);
    assert s.watching;
    assert s.requests == [s.requests[0]] + s.requests[1..];
  }

  // --------------------------------------------------------------- one object

  /** Messages that neither announce nor remove the object, appended to the inbox. */
  lemma AppendKeepsTracked(s: State, m: Message, id: nat, iface: string, kind: GlobalKind)
    requires Tracked(s, id, iface, kind) && !GlobalOf(id)(m) && !RemoveOf(id)(m)
    ensures Tracked(s.(inbox := s.inbox + [m]), id, iface, kind)
  {
    CleanAppend(s.inbox, m, id, iface);
    if Unseen(s, id) {
      AheadAppend(s.inbox, [m], GlobalOf(id), DoneMark(s));
    } else {
      var late := if s.phase.round == 0 then None else DoneMark(s);
      if Ahead(s.inbox, InfoMessage(id, kind), late) {
        AheadAppend(s.inbox, [m], InfoMessage(id, kind), late);
      }
    }
  }

  lemma {:induction false} AheadNotice(order: seq<Global>, id: nat, stop: Option<Message>)
    requires exists i :: 0 <= i < |order| && order[i].id == id
    requires stop.Some? ==> stop.value.Done?
    ensures Ahead(Notices(order), GlobalOf(id), stop)
  {
    var i :| 0 <= i < |order| && order[i].id == id;
    assert Notices(order)[1..] == Notices(order[1..]);
    if i > 0 {
      assert order[1..][i - 1] == order[i];
      AheadNotice(order[1..], id, stop);
    }
  }

  /** The announcement of an existing object is on its way, once and under its own interface. */
  lemma NoticesClean(order: seq<Global>, live: map<nat, string>, id: nat)
    requires Announces(order, live) && id in live
    ensures Clean(Notices(order), id, live[id])
  {
  }

  lemma RegistryTracks(s: State, order: seq<Global>)
    requires Inv(s) && CanAct(s, HandleRegistry(order)) && !s.broken
    ensures AllTracked(Act(s, HandleRegistry(order)))
  {
    var t := Act(s, HandleRegistry(order));
    assert !s.watching && t.inbox == Notices(order);
    forall id | id in t.initial && id in t.live && KindOf(Some(t.live[id])).Some?
      ensures Tracked(t, id, t.live[id], KindOf(Some(t.live[id])).value)
    {
      AheadNotice(order, id, DoneMark(t));
      NoticesClean(order, s.live, id);
      assert Unseen(t, id);
    }
  }

  lemma BindKeepsUnseen(s: State, cb: Callback, id: nat)
    requires CanAct(s, HandleBind(cb)) && Unseen(s, id)
    ensures Unseen(Act(s, HandleBind(cb)), id)
  {
    AheadAppend(s.inbox, [Notify(cb)], GlobalOf(id), DoneMark(s));
  }

  /** Handling the object's bind sends its info; handling another's moves this one's forward. */
  lemma BindKeepsComing(s: State, cb: Callback, id: nat, kind: GlobalKind)
    requires ChannelsOk(s) && CanAct(s, HandleBind(cb))
    requires id in s.live && KindOf(Some(s.live[id])) == Some(kind)
    requires InfoComing(s, id, kind)
    ensures InfoComing(Act(s, HandleBind(cb)), id, kind)
  {
    var t := Act(s, HandleBind(cb));
    var late := if s.phase.round == 0 then None else DoneMark(s);
    var r := s.requests[0].id;
    assert s.requests == [Bind(r)] + s.requests[1..];
    if Ahead(s.inbox, InfoMessage(id, kind), late) {
      AheadAppend(s.inbox, [Notify(cb)], InfoMessage(id, kind), late);
    } else if r == id {
      assert t.inbox == s.inbox + [Notify(cb)];
      AheadAtEnd(s.inbox, Notify(cb), InfoMessage(id, kind), late);
    }
  }

  lemma BindKeepsTracked(s: State, cb: Callback, id: nat, iface: string, kind: GlobalKind)
    requires ChannelsOk(s) && CanAct(s, HandleBind(cb))
    requires id in s.live && s.live[id] == iface && KindOf(Some(iface)) == Some(kind)
    requires Tracked(s, id, iface, kind)
    ensures Tracked(Act(s, HandleBind(cb)), id, iface, kind)
  {
    if InfoOf(cb, s.live, s.requests[0].id) { CleanAppend(s.inbox, Notify(cb), id, iface); }
    if Unseen(s, id) {
      BindKeepsUnseen(s, cb, id);
    } else if InfoComing(s, id, kind) {
      BindKeepsComing(s, cb, id, kind);
    }
  }

  lemma SyncKeepsTracked(s: State, id: nat, iface: string, kind: GlobalKind)
    requires ChannelsOk(s) && CanAct(s, HandleSync)
    requires Tracked(s, id, iface, kind)
    ensures Tracked(Act(s, HandleSync), id, iface, kind)
  {
    AppendKeepsTracked(s, Done(CORE_ID, s.requests[0].token), id, iface, kind);
  }

  lemma BeginKeepsTracked(s: State, token: int, id: nat, iface: string, kind: GlobalKind)
    requires ChannelsOk(s) && CanAct(s, BeginRound(token))
    requires Tracked(s, id, iface, kind)
    ensures Tracked(Act(s, BeginRound(token)), id, iface, kind)
  {
    var t := Act(s, BeginRound(token));
    assert Done(CORE_ID, token) !in s.inbox && Sync(token) !in s.requests;
    if Unseen(s, id) {
      AheadAbsent(s.inbox, GlobalOf(id), DoneMark(t));
    } else if InfoComing(s, id, kind) {
      var late := if s.phase.round == 0 then None else DoneMark(t);
      var lateSync := if s.phase.round == 0 then None else SyncMark(t);
      if Ahead(s.requests, BindOf(id), None) {
        AheadAbsent(s.requests, BindOf(id), lateSync);
        AheadAppend(s.requests, [Sync(token)], BindOf(id), lateSync);
      } else {
        AheadAbsent(s.inbox, InfoMessage(id, kind), late);
      }
    }
  }

  lemma KindKeepsCarried(n: Native, g: Global, kind: GlobalKind, t: Topic, cb: Callback)
    requires Carries(n, t, cb) && t.id != g.id
    ensures Carries(AfterKind(n, g, kind), t, cb)
  {
  }

  lemma RemoveKeepsCarried(n: Native, id: nat, kind: GlobalKind, t: Topic, cb: Callback)
    requires Carries(n, t, cb) && t.id != id
    ensures Carries(RemoveKind(n, id, kind), t, cb)
  {
  }

  lemma InfoCarried(n: Native, info: Callback)
    requires IsInfo(info) && Effective(n, info)
    ensures Carries(Step(n, info), TopicOf(info), info)
  {
  }

  lemma OtherInfoKeepsCarried(n: Native, info: Callback, t: Topic, cb: Callback)
    requires IsInfo(info) && Carries(n, t, cb) && (Effective(n, info) ==> TopicOf(info) != t)
    ensures Carries(Step(n, info), t, cb)
  {
    if Effective(n, info) {
      match info
      case OnNode(_, _) =>
      case OnPort(_, _) =>
      case OnLink(_, _) =>
      case OnDevice(_, _) =>
    }
  }

  /** Callbacks take in what they bring and leave every other record's latest info alone. */
  lemma CallbackKeepsInfo(n: Native, latest: map<Topic, Callback>, cb: Callback, t: Topic)
    requires t in latest ==> Carries(n, t, latest[t])
    requires t in LatestAfter(latest, n, cb)
    ensures Carries(Step(n, cb), t, LatestAfter(latest, n, cb)[t])
  {
    match cb
    case OnGlobal(g) =>
      NotItsTopic(t, g.id);
      if KindOf(g.iface).Some? { KindKeepsCarried(n, g, KindOf(g.iface).value, t, latest[t]); }
    case OnRemove(id) =>
      NotItsTopic(t, id);
      if id in n.idTypes { RemoveKeepsCarried(n, id, n.idTypes[id], t, latest[t]); }
    case _ =>
      if Effective(n, cb) && t == TopicOf(cb) {
        InfoCarried(n, cb);
      } else {
        OtherInfoKeepsCarried(n, cb, t, latest[t]);
      }
  }

  lemma NotItsTopic(t: Topic, id: nat)
    ensures t in TopicsOf(id) <==> t.id == id
  {
    match t.kind
    case GNode => assert t == Topic(t.id, GNode);
    case GPort => assert t == Topic(t.id, GPort);
    case GLink => assert t == Topic(t.id, GLink);
    case GDevice => assert t == Topic(t.id, GDevice);
  }

  lemma ActKeepsInfo(s: State, a: Action)
    requires InfoKept(s) && CanAct(s, a)
    ensures InfoKept(Act(s, a))
  {
    if a.Receive? && s.inbox[0].Notify? {
      var t := Act(s, a);
      forall topic | topic in t.latest ensures Carries(t.native, topic, t.latest[topic]) {
        CallbackKeepsInfo(s.native, s.latest, s.inbox[0].cb, topic);
      }
    }
  }

  lemma {:induction false} RunKeepsInfo(s: State, acts: seq<Action>)
    requires InfoKept(s) && Possible(s, acts)
    ensures InfoKept(After(s, acts))
    decreases |acts|
  {
    if acts != [] {
      ActKeepsInfo(s, acts[0]);
      RunKeepsInfo(Act(s, acts[0]), acts[1..]);
    }
  }

  lemma OtherGlobal(n: Native, g: Global, added: GlobalKind, id: nat, kind: GlobalKind)
    requires Held(n, id, kind) && g.id != id
    ensures Held(AfterKind(n, g, added), id, kind) && AfterKind(n, g, added).proxies[id] == n.proxies[id]
  {
  }

  lemma OtherRemove(n: Native, other: nat, id: nat, kind: GlobalKind)
    requires Held(n, id, kind) && other != id
    ensures Held(AfterRemove(n, other), id, kind) && AfterRemove(n, other).proxies[id] == n.proxies[id]
  {
  }

  lemma AnyInfo(n: Native, cb: Callback, id: nat, kind: GlobalKind)
    requires Held(n, id, kind) && IsInfo(cb)
    ensures Held(Step(n, cb), id, kind) && Step(n, cb).proxies == n.proxies
    ensures InfoFor(cb, id, kind) ==> Effective(n, cb) && TopicOf(cb) == Topic(id, kind)
  {
  }

  /** Callbacks about other ids leave this object's record and standing alone. */
  lemma OtherCallback(n: Native, latest: map<Topic, Callback>, cb: Callback, id: nat, kind: GlobalKind)
    requires Held(n, id, kind)
    requires cb.OnGlobal? ==> cb.global.id != id
    requires cb != OnRemove(id)
    ensures Held(Step(n, cb), id, kind) && Step(n, cb).proxies[id] == n.proxies[id]
    ensures Topic(id, kind) in latest ==> Topic(id, kind) in LatestAfter(latest, n, cb)
    ensures InfoFor(cb, id, kind) ==> Topic(id, kind) in LatestAfter(latest, n, cb)
  {
    match cb
    case OnGlobal(g) =>
      if KindOf(g.iface).Some? { OtherGlobal(n, g, KindOf(g.iface).value, id, kind); }
    case OnRemove(other) => OtherRemove(n, other, id, kind);
    case _ => AnyInfo(n, cb, id, kind);
  }

  lemma ReceiveOwnGlobal(s: State, id: nat, iface: string, kind: GlobalKind)
    requires ChannelsOk(s) && s.inbox != [] && GlobalOf(id)(s.inbox[0])
    requires KindOf(Some(iface)) == Some(kind)
    requires Tracked(s, id, iface, kind)
    ensures Tracked(Act(s, Receive), id, iface, kind)
  {
    var t := Act(s, Receive);
    var g := s.inbox[0].cb.global;
    assert t.native == AfterKind(s.native, g, kind);
    assert Held(t.native, id, kind);
    forall i | 0 <= i < |t.inbox| ensures !GlobalOf(id)(t.inbox[i]) {
      assert t.inbox[i] == s.inbox[i + 1];
    }
    if g.bindOk {
      assert t.requests == s.requests + [Bind(id)];
      AheadAtEnd(s.requests, Bind(id), BindOf(id), None);
    }
  }

  /** Taking a message off the inbox leaves it clean. */
  lemma TailClean(q: seq<Message>, id: nat, iface: string)
    requires q != [] && Clean(q, id, iface)
    ensures Clean(q[1..], id, iface)
    ensures NoneOf(q, GlobalOf(id)) ==> NoneOf(q[1..], GlobalOf(id))
  {
    assert forall i :: 0 <= i < |q[1..]| ==> q[1..][i] == q[i + 1];
  }

  /** A callback that is not the object's announcement or removal, taken in after the announcement. */
  lemma NotifyKeepsSeen(s: State, id: nat, kind: GlobalKind)
    requires s.inbox != [] && s.inbox[0].Notify? && s.inbox[0].cb != OnRemove(id)
    requires Seen(s, id, kind) && NoneOf(s.inbox[1..], GlobalOf(id))
    ensures Seen(Act(s, Receive), id, kind)
  {
    var cb := s.inbox[0].cb;
    var lateSync := if s.phase.round == 0 then None else SyncMark(s);
    assert !GlobalOf(id)(s.inbox[0]);
    OtherCallback(s.native, s.latest, cb, id, kind);
    if Ahead(s.requests, BindOf(id), lateSync) {
      AheadAppend(s.requests, BindFor(cb), BindOf(id), lateSync);
    }
  }

  lemma ReceiveKeepsTracked(s: State, id: nat, iface: string, kind: GlobalKind)
    requires ChannelsOk(s) && s.inbox != [] && !GlobalOf(id)(s.inbox[0])
    requires Tracked(s, id, iface, kind)
    ensures Tracked(Act(s, Receive), id, iface, kind)
  {
    TailClean(s.inbox, id, iface);
    assert !RemoveOf(id)(s.inbox[0]);
    if s.inbox[0].Notify? {
      if Seen(s, id, kind) { NotifyKeepsSeen(s, id, kind); }
    } else if Act(s, Receive).phase != s.phase {
      ReceiveDone(s, id, kind);
    }
  }

  lemma ReceiveDone(s: State, id: nat, kind: GlobalKind)
    requires ChannelsOk(s) && s.inbox != [] && s.phase.Waiting?
    requires s.inbox[0] == Done(CORE_ID, s.phase.awaited)
    requires Unseen(s, id) || Seen(s, id, kind)
    ensures Seen(Act(s, Receive), id, kind)
  {
    var t := Act(s, Receive);
    assert !Unseen(s, id);
    assert forall i :: 0 <= i < |t.inbox| ==> t.inbox[i] == s.inbox[i + 1];
    assert s.inbox[0] in s.inbox;
  }

  // ------------------------------------------------------------------- theorems

  lemma ActKeepsInv(s: State, a: Action)
    requires Inv(s) && CanAct(s, a)
    ensures Inv(Act(s, a))
  {
    ChannelsKept(s, a);
    var t := Act(s, a);
    if !t.broken {
      if a.HandleRegistry? {
        RegistryTracks(s, a.order);
      } else {
        forall id | id in t.initial && id in t.live && KindOf(Some(t.live[id])).Some?
          ensures Tracked(t, id, t.live[id], KindOf(Some(t.live[id])).value)
        {
          ActKeepsTracked(s, a, id, s.live[id], KindOf(Some(s.live[id])).value);
        }
      }
    }
  }

  /** The server's own moves. */
  lemma ServerKeepsTracked(s: State, a: Action, id: nat, iface: string, kind: GlobalKind)
    requires CanAct(s, a) && (a.ServerCreate? || a.ServerRemove? || a.ServerUpdate? || a.ServerDone?)
    requires id in s.live && id in Act(s, a).initial && Tracked(s, id, iface, kind)
    ensures Tracked(Act(s, a), id, iface, kind)
  {
    match a
    case ServerCreate(other, name, bindOk) =>
      AppendKeepsTracked(s, Notify(OnGlobal(Global(other, Some(name), None, bindOk))), id, iface, kind);
    case ServerRemove(other) =>
      AppendKeepsTracked(s, Notify(OnRemove(other)), id, iface, kind);
    case ServerUpdate(cb) =>
      AppendKeepsTracked(s, Notify(cb), id, iface, kind);
    case ServerDone(target, token) =>
      AppendKeepsTracked(s, Done(target, token), id, iface, kind);
  }

  lemma ActKeepsTracked(s: State, a: Action, id: nat, iface: string, kind: GlobalKind)
    requires ChannelsOk(s) && CanAct(s, a) && !a.HandleRegistry? && !a.IterateFails?
    requires id in s.initial && s.live[id] == iface && KindOf(Some(iface)) == Some(kind)
    requires id in Act(s, a).initial
    requires Tracked(s, id, iface, kind)
    ensures Tracked(Act(s, a), id, iface, kind)
  {
    match a
    case HandleBind(cb) => BindKeepsTracked(s, cb, id, iface, kind);
    case HandleSync => SyncKeepsTracked(s, id, iface, kind);
    case BeginRound(token) => BeginKeepsTracked(s, token, id, iface, kind);
    case Receive =>
      if GlobalOf(id)(s.inbox[0]) {
        ReceiveOwnGlobal(s, id, iface, kind);
      } else {
        ReceiveKeepsTracked(s, id, iface, kind);
      }
    case _ => ServerKeepsTracked(s, a, id, iface, kind);
  }

  ghost predicate Possible(s: State, acts: seq<Action>)
    decreases |acts|
  {
    acts == [] || (CanAct(s, acts[0]) && Possible(Act(s, acts[0]), acts[1..]))
  }

  ghost function After(s: State, acts: seq<Action>): State
    requires Possible(s, acts)
    decreases |acts|
  {
    if acts == [] then s else After(Act(s, acts[0]), acts[1..])
  }

  lemma {:induction false} RunKeepsInv(s: State, acts: seq<Action>)
    requires Inv(s) && Possible(s, acts)
    ensures Inv(After(s, acts))
    decreases |acts|
  {
    if acts != [] {
      ActKeepsInv(s, acts[0]);
      RunKeepsInv(Act(s, acts[0]), acts[1..]);
    }
  }

  /** An info callback has come, and the record holds what the latest one brought. */
  ghost predicate Informed(s: State, t: Topic) {
    t in s.latest && Carries(s.native, t, s.latest[t])
  }

  /**
    The barrier, over every run from any set of existing objects in which no
    loop iteration fails. Once the first round is over, every object of a known
    type that existed when the registry was requested, and still exists, has
    its record and its proxy; once the second is over, its info callback has
    come as well and its record holds what the latest one brought (unless its
    bind returned null).
   */
  lemma TwoRoundBarrier(live: map<nat, string>, acts: seq<Action>, id: nat)
    requires Possible(Start(live), acts)
    requires var s := After(Start(live), acts);
             !s.broken && id in s.initial && id in s.live && KindOf(Some(s.live[id])).Some?
    ensures var s := After(Start(live), acts);
            var kind := KindOf(Some(s.live[id])).value;
            && (s.phase.round >= 1 ==> Held(s.native, id, kind))
            && (s.phase.round >= 2 ==>
                  Held(s.native, id, kind) && (s.native.proxies[id].bound ==> Informed(s, Topic(id, kind))))
  {
    StartInv(live);
    RunKeepsInfo(Start(live), acts);
    RunKeepsInv(Start(live), acts);
    var s := After(Start(live), acts);
    assert Tracked(s, id, s.live[id], KindOf(Some(s.live[id])).value);
  }

  lemma {:induction false} RunKeepsKeyed(s: State, acts: seq<Action>)
    requires Keyed(s.native) && Possible(s, acts)
    ensures Keyed(After(s, acts).native)
    decreases |acts|
  {
    if acts != [] {
      if acts[0].Receive? && s.inbox[0].Notify? { StepKeepsKeyed(s.native, s.inbox[0].cb); }
      RunKeepsKeyed(Act(s, acts[0]), acts[1..]);
    }
  }

  /** What a Dart graph shows of an info callback: every field the callback sets has the value it brought. */
  ghost predicate Shows(g: Graph.PwGraph, t: Topic, cb: Callback) {
    && InfoFor(cb, t.id, t.kind)
    && match t.kind
       case GNode => t.id in g.nodes && ShowsNode(g.nodes[t.id], cb.nodeInfo.value)
       case GPort => t.id in g.ports && ShowsPort(g.ports[t.id], cb.portInfo.value)
       case GLink => t.id in g.links && ShowsLink(g.links[t.id], cb.linkInfo.value)
       case GDevice => t.id in g.devices && ShowsDevice(g.devices[t.id], cb.deviceInfo.value)
  }

  /** A text property that is set is the field's value. */
  predicate ShowsText(props: Option<Dict>, key: string, field: string) {
    DictGet(props, key) != "" ==> field == DictGet(props, key)
  }

  predicate ShowsNode(x: Records.PwNode, u: NodeUpdate) {
    && (u.state != CodeOther ==> x.state == Records.NodeStateOf(NodeStateText(u.state, "")))
    && (u.props.Some? ==> x.properties == u.props.value)
    && ShowsText(u.props, "node.name", x.name) && ShowsText(u.props, "media.class", x.mediaClass)
  }

  predicate ShowsPort(x: Records.PwPort, u: PortUpdate) {
    && x.direction == (if u.isInput then Records.Input else Records.Output)
    && (u.props.Some? ==>
          && x.properties == u.props.value
          && (x.isPhysical <==> Truthy(DictGet(u.props, "port.physical")))
          && (x.isTerminal <==> Truthy(DictGet(u.props, "port.terminal"))))
    && ShowsText(u.props, "port.name", x.name) && ShowsText(u.props, "port.alias", x.alias)
  }

  predicate ShowsLink(x: Records.PwLink, u: LinkUpdate) {
    && x.outputNodeId == u.outputNode && x.outputPortId == u.outputPort
    && x.inputNodeId == u.inputNode && x.inputPortId == u.inputPort
    && (u.state != LinkOther ==> x.state == Records.LinkStateOf(LinkStateText(u.state, "")))
    && (u.error.Some? ==> x.error == u.error.value)
  }

  predicate ShowsDevice(x: Records.PwDevice, u: DeviceUpdate) {
    && (u.props.Some? ==> x.properties == u.props.value)
    && ShowsText(u.props, "device.name", x.name) && ShowsText(u.props, "device.description", x.description)
  }

  /** A native record that holds a callback's info shows it in Dart. */
  lemma CarriedShows(n: Native, t: Topic, cb: Callback)
    requires Carries(n, t, cb)
    ensures Shows(Replica.DartOf(n), t, cb)
  {
    match t.kind
    case GNode =>
      var u := cb.nodeInfo.value;
      assert UpdatedNode(n.nodes[t.id], u).state == NodeStateText(u.state, n.nodes[t.id].state);
    case GPort =>
      var u := cb.portInfo.value;
      assert UpdatedPort(n.ports[t.id], u).direction == if u.isInput then "input" else "output";
    case GLink =>
      var u := cb.linkInfo.value;
      assert UpdatedLink(n.links[t.id], u).state == LinkStateText(u.state, n.links[t.id].state);
    case GDevice =>
  }

  /**
    The snapshot taken after the handshake reads as the graph of the native
    records, which holds every such object and shows all that the latest info
    callback brought about it (unless its bind returned null).
   */
  lemma FirstSnapshotHoldsAll(live: map<nat, string>, acts: seq<Action>, id: nat, order: Graph.Orders)
    requires Possible(Start(live), acts)
    requires var s := After(Start(live), acts);
             && !s.broken && s.phase == Ready(2) && id in s.initial && id in s.live
             && KindOf(Some(s.live[id])).Some? && OrdersListing(order, s.native)
    ensures var s := After(Start(live), acts);
            var read := Graph.GraphFromFields(SnapshotFields(s.native, order));
            var topic := Topic(id, KindOf(Some(s.live[id])).value);
            && read == Some(Replica.DartOf(s.native))
            && Held(s.native, id, topic.kind)
            && (s.native.proxies[id].bound ==> topic in s.latest && Shows(read.value, topic, s.latest[topic]))
  {
    var s := After(Start(live), acts);
    var topic := Topic(id, KindOf(Some(s.live[id])).value);
    RunKeepsKeyed(Start(live), acts);
    TwoRoundBarrier(live, acts, id);
    Replica.SnapshotIsExact(s.native, order);
    if s.native.proxies[id].bound { CarriedShows(s.native, topic, s.latest[topic]); }
  }

  /** What `initial` holds: the objects of the start that no step has removed. */
  lemma {:induction false} InitialSurvives(s: State, acts: seq<Action>, id: nat)
    requires Possible(s, acts) && id in s.live
    requires s.watching ==> id in s.initial
    requires forall i :: 0 <= i < |acts| ==> acts[i] != ServerRemove(id)
    ensures var t := After(s, acts); id in t.live && (t.watching ==> id in t.initial)
    decreases |acts|
  {
    if acts != [] {
      assert acts[0] != ServerRemove(id);
      forall i | 0 <= i < |acts[1..]| ensures acts[1..][i] != ServerRemove(id) { assert acts[1..][i] == acts[i + 1]; }
      InitialSurvives(Act(s, acts[0]), acts[1..], id);
    }
  }

  const NODE_ONE := Global(1, Some("PipeWire:Interface:Node"), None, true)

  const ONE_NODE := map[1 := "PipeWire:Interface:Node"]

  /** The server's part of the shortest first round over one existing node, and the client's. */
  function Asked(token: int): seq<Action> {
    [BeginRound(token), HandleRegistry([NODE_ONE]), HandleSync]
  }

  function Answered(token: int): State {
    State(ONE_NODE, true, {}, ONE_NODE.Keys, [], [Notify(OnGlobal(NODE_ONE)), Done(CORE_ID, token)], NO_OBJECTS, map[],
          Waiting(0, token), {token}, false)
  }

  lemma ServerAnswers(token: int)
    ensures Possible(Start(ONE_NODE), Asked(token)) && After(Start(ONE_NODE), Asked(token)) == Answered(token)
  {
    var acts := Asked(token);
    var s0 := Start(ONE_NODE);
    var s1 := Act(s0, acts[0]);
    assert s1.requests == [GetRegistry, Sync(token)];
    assert Announces([NODE_ONE], ONE_NODE) by { assert [NODE_ONE][0] == NODE_ONE; }
    var s2 := Act(s1, acts[1]);
    assert s2.inbox == [Notify(OnGlobal(NODE_ONE))] && s2.requests == [Sync(token)];
    var s3 := Act(s2, acts[2]);
    assert s3 == Answered(token);
    assert Possible(s3, acts[3..]) && After(s3, acts[3..]) == s3;
    PossibleFront(s2, acts[2..]);
    PossibleFront(s1, acts[1..]);
    PossibleFront(s0, acts);
  }

  lemma ClientReceives(token: int)
    ensures Possible(Answered(token), [Receive, Receive])
    ensures var t := After(Answered(token), [Receive, Receive]);
            && t.phase == Ready(1) && !t.broken && 1 in t.initial
            && 1 in t.native.proxies && t.native.proxies[1].bound
            && Topic(1, GNode) !in t.latest && 1 in t.native.nodes && t.native.nodes[1].state == "creating"
  {
    var acts := [Receive, Receive];
    var s3 := Answered(token);
    var s4 := Act(s3, Receive);
    assert s4.inbox == [Done(CORE_ID, token)];
    var s5 := Act(s4, Receive);
    assert Possible(s5, acts[2..]) && After(s5, acts[2..]) == s5;
    PossibleFront(s4, acts[1..]);
    PossibleFront(s3, acts);
  }

  lemma {:induction false} PossibleThen(s: State, a: seq<Action>, b: seq<Action>)
    requires Possible(s, a) && Possible(After(s, a), b)
    ensures Possible(s, a + b) && After(s, a + b) == After(After(s, a), b)
    decreases |a|
  {
    if a == [] {
      assert a + b == b;
    } else {
      assert (a + b)[1..] == a[1..] + b;
      PossibleThen(Act(s, a[0]), a[1..], b);
    }
  }

  /**
    One round is not enough: after it an existing node is bound, but no info
    has arrived and its record is still the initial one.
   */
  lemma OneRoundIsNotEnough(token: int)
    ensures var s, acts := Start(ONE_NODE), Asked(token) + [Receive, Receive];
            && Possible(s, acts)
            && var t := After(s, acts);
            && t.phase == Ready(1) && !t.broken && 1 in t.initial
            && 1 in t.native.proxies && t.native.proxies[1].bound
            && Topic(1, GNode) !in t.latest && 1 in t.native.nodes && t.native.nodes[1].state == "creating"
  {
    ServerAnswers(token);
    ClientReceives(token);
    PossibleThen(Start(ONE_NODE), Asked(token), [Receive, Receive]);
  }

  /** The node after the first round: recorded, its bind request on its way. */
  function Bound(first: int): State {
    State(ONE_NODE, true, {}, ONE_NODE.Keys, [Bind(1)], [], Step(NO_OBJECTS, OnGlobal(NODE_ONE)), map[],
          Ready(1), {first}, false)
  }

  lemma FirstRoundEnds(first: int)
    ensures Possible(Start(ONE_NODE), Asked(first) + [Receive, Receive])
    ensures After(Start(ONE_NODE), Asked(first) + [Receive, Receive]) == Bound(first)
  {
    ServerAnswers(first);
    var s3 := Answered(first);
    var s4 := Act(s3, Receive);
    assert s4.inbox == [Done(CORE_ID, first)] && s4.requests == [Bind(1)];
    assert LatestAfter(map[], NO_OBJECTS, OnGlobal(NODE_ONE)) == map[];
    var s5 := Act(s4, Receive);
    assert s5 == Bound(first);
    var acts := [Receive, Receive];
    assert Possible(s5, acts[2..]) && After(s5, acts[2..]) == s5;
    PossibleFront(s4, acts[1..]);
    PossibleFront(s3, acts);
    PossibleThen(Start(ONE_NODE), Asked(first), acts);
  }

  /** The second round over the node: its bind is answered by its info, then the sync by its done. */
  function SecondRound(second: int, u: NodeUpdate): seq<Action> {
    [BeginRound(second), HandleBind(OnNode(1, Some(u))), HandleSync, Receive, Receive]
  }

  /** The node's second round once the server has answered. */
  function Told(first: int, second: int, u: NodeUpdate): State {
    Bound(first).(bound := {1}, requests := [], inbox := [Notify(OnNode(1, Some(u))), Done(CORE_ID, second)],
                  phase := Waiting(1, second), tokens := {first, second})
  }

  lemma SecondRoundAnswered(first: int, second: int, u: NodeUpdate)
    requires first != second
    ensures var acts := SecondRound(second, u)[..3];
            Possible(Bound(first), acts) && After(Bound(first), acts) == Told(first, second, u)
  {
    var acts, info := SecondRound(second, u)[..3], OnNode(1, Some(u));
    var s0 := Bound(first);
    var s1 := Act(s0, acts[0]);
    assert s1.requests == [Bind(1), Sync(second)];
    assert InfoOf(info, s1.live, 1);
    var s2 := Act(s1, acts[1]);
    assert s2.requests == [Sync(second)] && s2.inbox == [Notify(info)];
    var s3 := Act(s2, acts[2]);
    assert s3 == Told(first, second, u);
    assert Possible(s3, acts[3..]) && After(s3, acts[3..]) == s3;
    PossibleFront(s2, acts[2..]);
    PossibleFront(s1, acts[1..]);
    PossibleFront(s0, acts);
  }

  lemma SecondRoundReceived(first: int, second: int, u: NodeUpdate)
    ensures Possible(Told(first, second, u), [Receive, Receive])
    ensures var t := After(Told(first, second, u), [Receive, Receive]);
            t.phase == Ready(2) && !t.broken && 1 in t.initial && Topic(1, GNode) in t.latest
            && t.latest[Topic(1, GNode)] == OnNode(1, Some(u))
  {
    var acts, info := [Receive, Receive], OnNode(1, Some(u));
    var s3 := Told(first, second, u);
    assert Effective(s3.native, info);
    var s4 := Act(s3, Receive);
    assert s4.inbox == [Done(CORE_ID, second)] && s4.latest == map[Topic(1, GNode) := info];
    var s5 := Act(s4, Receive);
    assert Possible(s5, acts[2..]) && After(s5, acts[2..]) == s5;
    PossibleFront(s4, acts[1..]);
    PossibleFront(s3, acts);
  }

  lemma SecondRoundEnds(first: int, second: int, u: NodeUpdate)
    requires first != second
    ensures Possible(Bound(first), SecondRound(second, u))
    ensures var t := After(Bound(first), SecondRound(second, u));
            t.phase == Ready(2) && !t.broken && 1 in t.initial && Topic(1, GNode) in t.latest
            && t.latest[Topic(1, GNode)] == OnNode(1, Some(u))
  {
    SecondRoundAnswered(first, second, u);
    SecondRoundReceived(first, second, u);
    PossibleThen(Bound(first), SecondRound(second, u)[..3], [Receive, Receive]);
    assert SecondRound(second, u) == SecondRound(second, u)[..3] + [Receive, Receive];
  }

  /** Two rounds can be completed, with any info about the node. */
  lemma TwoRoundsComplete(first: int, second: int, u: NodeUpdate)
    requires first != second
    ensures var acts := Asked(first) + [Receive, Receive] + SecondRound(second, u);
            && Possible(Start(ONE_NODE), acts)
            && var t := After(Start(ONE_NODE), acts);
            t.phase == Ready(2) && !t.broken && 1 in t.initial && Topic(1, GNode) in t.latest
            && t.latest[Topic(1, GNode)] == OnNode(1, Some(u))
  {
    FirstRoundEnds(first);
    SecondRoundEnds(first, second, u);
    PossibleThen(Start(ONE_NODE), Asked(first) + [Receive, Receive], SecondRound(second, u));
  }

  lemma PossibleFront(s: State, acts: seq<Action>)
    requires acts != [] && CanAct(s, acts[0]) && Possible(Act(s, acts[0]), acts[1..])
    ensures Possible(s, acts) && After(s, acts) == After(Act(s, acts[0]), acts[1..])
  {
  }
}
