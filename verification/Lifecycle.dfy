/**
  Who owns which PipeWire object during connect, registry traffic, disconnect
  and destruction. Every call into PipeWire that creates or destroys an
  object, links or unlinks a listener hook, or allocates or frees hook memory
  is recorded in a log; a log is safe when each of its calls is.
 */
module Lifecycle {
  import opened Prelude

  datatype ResKind = MainLoop | Context | Core | RegistryHandle | EventSource | ObjectProxy | LinkProxy
  datatype Res = Res(kind: ResKind, serial: nat)
  datatype HookKind = CoreHook | RegistryHook | ProxyHook
  datatype Hook = Hook(kind: HookKind, serial: nat)

  datatype Call =
    | Create(r: Res, parent: Option<Res>)
    | Destroy(r: Res)
    | AllocHook(h: Hook)
    | Link(h: Hook, r: Res)
    | Unlink(h: Hook)
    | FreeHook(h: Hook)

  /**
    What exists after some calls: objects with their parents, and hooks with
    the object they listen to. The proxy that creating a link makes is dropped
    at once; it is left to the core, and no call destroys it.
   */
  datatype World = World(live: map<Res, Option<Res>>, dead: set<Res>, left: set<Res>, hooks: set<Hook>,
                         freed: set<Hook>, links: map<Hook, Res>)

  const EMPTY_WORLD := World(map[], {}, {}, {}, {}, map[])

  /**
    The safety rules: nothing is created twice or destroyed while not live, an
    object outlives everything made from it, hooks are linked to live objects
    and unlinked only while linked, and hook memory is freed only when it is in
    no live object's listener list.
   */
  ghost predicate Safe(w: World, c: Call) {
    match c
    case Create(r, parent) =>
      r !in w.live && r !in w.dead && r !in w.left && (parent.Some? ==> parent.value in w.live)
    case Destroy(r) => r in w.live && forall child :: child in w.live ==> w.live[child] != Some(r)
    case AllocHook(h) => h !in w.hooks && h !in w.freed
    case Link(h, r) => h in w.hooks && h !in w.links && r in w.live
    case Unlink(h) => h in w.links
    case FreeHook(h) => h in w.hooks && h !in w.links
  }

  /** Destroying an object empties its listener list. */
  function Exec(w: World, c: Call): World {
    match c
    case Create(r, parent) =>
      if r.kind == LinkProxy then w.(left := w.left + {r}) else w.(live := w.live[r := parent])
    case Destroy(r) =>
      w.(live := w.live - {r}, dead := w.dead + {r}, links := map h | h in w.links && w.links[h] != r :: w.links[h])
    case AllocHook(h) => w.(hooks := w.hooks + {h})
    case Link(h, r) => w.(links := w.links[h := r])
    case Unlink(h) => w.(links := w.links - {h})
    case FreeHook(h) => w.(hooks := w.hooks - {h}, freed := w.freed + {h})
  }

  function WorldOf(log: seq<Call>): World {
    if log == [] then EMPTY_WORLD else Exec(WorldOf(log[..|log| - 1]), log[|log| - 1])
  }

  ghost predicate SafeLog(log: seq<Call>) {
    log == [] || (SafeLog(log[..|log| - 1]) && Safe(WorldOf(log[..|log| - 1]), log[|log| - 1]))
  }

  lemma LogStep(log: seq<Call>, c: Call)
    requires SafeLog(log) && Safe(WorldOf(log), c)
    ensures SafeLog(log + [c]) && WorldOf(log + [c]) == Exec(WorldOf(log), c)
  {
    assert (log + [c])[..|log|] == log;
  }

  // ------------------------------------------------------ what a safe log means

  /** How often an object is destroyed in a log. */
  function Destroys(log: seq<Call>, r: Res): nat {
    if log == [] then 0
    else Destroys(log[..|log| - 1], r) + if log[|log| - 1] == Destroy(r) then 1 else 0
  }

  function Creates(log: seq<Call>, r: Res): nat {
    if log == [] then 0
    else Creates(log[..|log| - 1], r) + if log[|log| - 1].Create? && log[|log| - 1].r == r then 1 else 0
  }

  /** In a safe log every object is created at most once and destroyed at most once, and live or left between. */
  lemma {:induction false} SafeLogCounts(log: seq<Call>, r: Res)
    requires SafeLog(log)
    ensures var w := WorldOf(log);
            && Destroys(log, r) == (if r in w.dead then 1 else 0)
            && Creates(log, r) == (if r in w.dead || r in w.live || r in w.left then 1 else 0)
            && !(r in w.dead && r in w.live)
            && (r in w.left ==> r.kind == LinkProxy)
            && (r in w.live || r in w.dead ==> r.kind != LinkProxy)
  {
    if log != [] { SafeLogCounts(log[..|log| - 1], r); }
  }

  /** A safe log that leaves nothing live destroyed each object it created exactly once, but for those left. */
  lemma NothingLeaks(log: seq<Call>, r: Res)
    requires SafeLog(log) && WorldOf(log).live == map[]
    ensures Destroys(log, r) <= Creates(log, r) <= 1
    ensures Creates(log, r) == Destroys(log, r) <==> r !in WorldOf(log).left
  {
    SafeLogCounts(log, r);
  }

  /** In a safe log, whatever was made from an object is destroyed before it, unless it is a link's proxy. */
  lemma {:induction false} DependentsFirst(log: seq<Call>, child: Res, parent: Res, j: nat)
    requires SafeLog(log) && j < |log| && log[j] == Destroy(parent)
    requires Create(child, Some(parent)) in log[..j]
    ensures Destroy(child) in log[..j] <==> child.kind != LinkProxy
  {
    SafePrefix(log, j + 1);
    var before := log[..j];
    assert log[..j + 1][..j] == before && log[..j + 1][j] == log[j];
    if child.kind == LinkProxy {
      NeverDestroyed(before, child);
    } else {
      ChildOfLive(before, child, parent);
    }
  }

  lemma {:induction false} NeverDestroyed(log: seq<Call>, r: Res)
    requires SafeLog(log) && r.kind == LinkProxy
    ensures Destroy(r) !in log
  {
    if log != [] {
      var before, c := log[..|log| - 1], log[|log| - 1];
      assert log == before + [c];
      NeverDestroyed(before, r);
      SafeLogCounts(before, r);
    }
  }

  lemma {:induction false} SafePrefix(log: seq<Call>, k: nat)
    requires SafeLog(log) && k <= |log|
    ensures SafeLog(log[..k])
  {
    if k < |log| {
      SafePrefix(log[..|log| - 1], k);
      assert log[..|log| - 1][..k] == log[..k];
    } else {
      assert log[..k] == log;
    }
  }

  lemma {:induction false} ChildOfLive(log: seq<Call>, child: Res, parent: Res)
    requires SafeLog(log) && Create(child, Some(parent)) in log && child.kind != LinkProxy
    ensures Destroy(child) in log || (child in WorldOf(log).live && WorldOf(log).live[child] == Some(parent))
  {
    var before, c := log[..|log| - 1], log[|log| - 1];
    assert log == before + [c];
    if Create(child, Some(parent)) in before {
      ChildOfLive(before, child, parent);
    }
  }

  // -------------------------------------------------------------- ownership

  /**
    A monitored object's proxy and its listener hook, which carry one serial;
    None when the bind returned null and there is neither.
   */
  type ProxyData = Option<nat>

  /** The fields that own something, plus one proxy record on its way in or out of the map. */
  datatype Holdings = Holdings(
    loop: Option<Res>,
    context: Option<Res>,
    core: Option<Res>,
    registry: Option<Res>,
    source: Option<Res>,
    coreHook: Option<Hook>,
    monitor: Option<Hook>,
    proxies: map<nat, ProxyData>,
    extra: ProxyData,
    left: set<Res>,
    next: nat)

  function ProxyOf(serial: nat): Res {
    Res(ObjectProxy, serial)
  }

  function HookOf(serial: nat): Hook {
    Hook(ProxyHook, serial)
  }

  ghost predicate HoldsProxy(h: Holdings, serial: nat) {
    h.extra == Some(serial) || exists id :: id in h.proxies && h.proxies[id] == Some(serial)
  }

  ghost predicate HoldsRes(h: Holdings, r: Res) {
    match r.kind
    case MainLoop => h.loop == Some(r)
    case Context => h.context == Some(r)
    case Core => h.core == Some(r)
    case RegistryHandle => h.registry == Some(r)
    case EventSource => h.source == Some(r)
    case ObjectProxy => HoldsProxy(h, r.serial)
    case LinkProxy => false
  }

  ghost predicate HoldsHook(h: Holdings, k: Hook) {
    match k.kind
    case CoreHook => h.coreHook == Some(k)
    case RegistryHook => h.monitor == Some(k)
    case ProxyHook => HoldsProxy(h, k.serial)
  }

  function ParentOf(h: Holdings, r: Res): Option<Res> {
    match r.kind
    case MainLoop => None
    case Context => h.loop
    case Core => h.context
    case RegistryHandle => h.core
    case EventSource => h.loop
    case ObjectProxy => h.core
    case LinkProxy => h.core
  }

  /** Each field holds an object of its own kind, and what that object was made from is held too. */
  ghost predicate Layered(h: Holdings) {
    && (h.loop.Some? ==> h.loop.value.kind == MainLoop)
    && (h.context.Some? ==> h.context.value.kind == Context && h.loop.Some?)
    && (h.core.Some? ==> h.core.value.kind == Core && h.context.Some?)
    && (h.registry.Some? ==> h.registry.value.kind == RegistryHandle && h.core.Some?)
    && (h.source.Some? ==> h.source.value.kind == EventSource && h.loop.Some?)
    && (h.coreHook.Some? ==> h.coreHook.value.kind == CoreHook)
    && (h.monitor.Some? ==> h.monitor.value.kind == RegistryHook && h.registry.Some?)
    && (forall serial: nat :: HoldsProxy(h, serial) ==> h.core.Some?)
  }

  /** No two proxy records share a serial. */
  ghost predicate Unshared(h: Holdings) {
    && (forall a, b :: a in h.proxies && b in h.proxies && a != b && h.proxies[a].Some?
          ==> h.proxies[a] != h.proxies[b])
    && (forall a :: a in h.proxies && h.extra.Some? ==> h.proxies[a] != h.extra)
  }

  ghost predicate OwnsObjects(h: Holdings, w: World) {
    && (forall r :: r in w.live <==> HoldsRes(h, r))
    && (forall r :: r in w.live ==> w.live[r] == ParentOf(h, r) && r.serial < h.next)
    && (forall r :: r in w.dead ==> r.serial < h.next)
  }

  ghost predicate OwnsHooks(h: Holdings, w: World) {
    && (forall k :: k in w.hooks <==> HoldsHook(h, k))
    && (forall k :: k in w.hooks || k in w.freed ==> k.serial < h.next)
    && (forall k :: k in w.links ==> k in w.hooks)
  }

  ghost predicate OwnsLinks(h: Holdings, w: World) {
    && (forall k :: k in w.links ==> w.links[k] in w.live)
    && (h.monitor.Some? ==>
          h.registry.Some? && h.monitor.value in w.links && w.links[h.monitor.value] == h.registry.value)
    && (forall serial: nat :: HoldsProxy(h, serial)
          ==> HookOf(serial) in w.links && w.links[HookOf(serial)] == ProxyOf(serial))
  }

  ghost predicate OwnsLeft(h: Holdings, w: World) {
    w.left == h.left && forall r :: r in w.left ==> r.kind == LinkProxy && r.serial < h.next
  }

  /** The world is exactly what the fields hold. */
  ghost predicate Owns(h: Holdings, w: World) {
    Layered(h) && Unshared(h) && OwnsObjects(h, w) && OwnsHooks(h, w) && OwnsLinks(h, w) && OwnsLeft(h, w)
  }

  /** The kinds of the five handle fields. */
  predicate IsHandle(kind: ResKind) {
    kind != ObjectProxy && kind != LinkProxy
  }

  /** The core listener is attached. */
  predicate CoreLinked(h: Holdings, w: World) {
    h.coreHook.Some? && h.core.Some? && h.coreHook.value in w.links && w.links[h.coreHook.value] == h.core.value
  }

  function AfterBind(w: World, core: Option<Res>, serial: nat): World {
    Exec(Exec(Exec(w, Create(ProxyOf(serial), core)), AllocHook(HookOf(serial))), Link(HookOf(serial), ProxyOf(serial)))
  }

  function AfterRelease(w: World, serial: nat): World {
    Exec(Exec(Exec(w, Unlink(HookOf(serial))), Destroy(ProxyOf(serial))), FreeHook(HookOf(serial)))
  }

  function Bound(h: Holdings): Holdings {
    h.(extra := Some(h.next), next := h.next + 1)
  }

  lemma FreshSerial(h: Holdings, w: World)
    requires Owns(h, w) && h.extra == None
    ensures !HoldsProxy(h, h.next)
    ensures forall serial: nat :: HoldsProxy(Bound(h), serial) <==> HoldsProxy(h, serial) || serial == h.next
  {
    assert HoldsRes(h, ProxyOf(h.next)) == HoldsProxy(h, h.next);
  }

  lemma BindObjects(h: Holdings, w: World)
    requires Owns(h, w) && h.core.Some? && h.extra == None
    ensures OwnsObjects(Bound(h), AfterBind(w, h.core, h.next))
  {
    FreshSerial(h, w);
  }

  lemma BindHooks(h: Holdings, w: World)
    requires Owns(h, w) && h.core.Some? && h.extra == None
    ensures OwnsHooks(Bound(h), AfterBind(w, h.core, h.next))
    ensures OwnsLinks(Bound(h), AfterBind(w, h.core, h.next))
    ensures CoreLinked(h, w) ==> CoreLinked(h, AfterBind(w, h.core, h.next))
  {
    FreshSerial(h, w);
  }

  /** Binding a fresh proxy and linking a fresh hook to it. */
  lemma BindIsSafe(h: Holdings, w: World)
    requires Owns(h, w) && h.core.Some? && h.extra == None
    ensures var w1 := Exec(w, Create(ProxyOf(h.next), h.core));
            var w2 := Exec(w1, AllocHook(HookOf(h.next)));
            && Safe(w, Create(ProxyOf(h.next), h.core))
            && Safe(w1, AllocHook(HookOf(h.next)))
            && Safe(w2, Link(HookOf(h.next), ProxyOf(h.next)))
    ensures Owns(Bound(h), AfterBind(w, h.core, h.next))
    ensures CoreLinked(h, w) ==> CoreLinked(h, AfterBind(w, h.core, h.next))
  {
    FreshSerial(h, w);
    BindObjects(h, w);
    BindHooks(h, w);
    assert HoldsRes(h, h.core.value);
  }

  lemma ReleasedSerial(h: Holdings)
    requires Unshared(h) && h.extra.Some?
    ensures forall serial: nat ::
              HoldsProxy(h.(extra := None), serial) <==> HoldsProxy(h, serial) && Some(serial) != h.extra
  {
  }

  /** Taking out the extra record changes who holds its proxy and nothing else. */
  lemma ReleasedHolds(h: Holdings, x: Res)
    requires Unshared(h) && h.extra.Some?
    ensures HoldsRes(h.(extra := None), x) <==> HoldsRes(h, x) && x != ProxyOf(h.extra.value)
    ensures ParentOf(h.(extra := None), x) == ParentOf(h, x)
  {
    ReleasedSerial(h);
  }

  lemma ReleaseObjects(h: Holdings, w: World)
    requires Owns(h, w) && h.extra.Some?
    ensures OwnsObjects(h.(extra := None), AfterRelease(w, h.extra.value))
  {
    var h', t := h.(extra := None), AfterRelease(w, h.extra.value);
    var p := ProxyOf(h.extra.value);
    assert t.live == w.live - {p} && t.dead == w.dead + {p};
    assert HoldsProxy(h, h.extra.value) && HoldsRes(h, p);
    forall x: Res
      ensures x in t.live <==> HoldsRes(h', x)
      ensures x in t.live ==> t.live[x] == ParentOf(h', x) && x.serial < h'.next
      ensures x in t.dead ==> x.serial < h'.next
    {
      ReleasedHolds(h, x);
      assert x in w.live <==> HoldsRes(h, x);
    }
  }

  lemma ReleaseHooks(h: Holdings, w: World)
    requires Owns(h, w) && h.extra.Some?
    ensures OwnsHooks(h.(extra := None), AfterRelease(w, h.extra.value))
  {
    var k, h', t := HookOf(h.extra.value), h.(extra := None), AfterRelease(w, h.extra.value);
    ReleasedSerial(h);
    assert t.hooks == w.hooks - {k} && t.freed == w.freed + {k};
    assert HoldsProxy(h, h.extra.value) && HoldsHook(h, k);
    forall x: Hook ensures x in t.hooks <==> HoldsHook(h', x) {
      assert x in w.hooks <==> HoldsHook(h, x);
    }
  }

  /** Releasing a proxy unlinks its own hook and no other. */
  lemma ReleasedLinks(h: Holdings, w: World)
    requires Owns(h, w) && h.extra.Some?
    ensures AfterRelease(w, h.extra.value).links
            == map k | k in w.links && k != HookOf(h.extra.value) && w.links[k] != ProxyOf(h.extra.value) :: w.links[k]
    ensures AfterRelease(w, h.extra.value).live == w.live - {ProxyOf(h.extra.value)}
  {
  }

  lemma ReleaseLinks(h: Holdings, w: World)
    requires Owns(h, w) && h.extra.Some?
    ensures OwnsLinks(h.(extra := None), AfterRelease(w, h.extra.value))
    ensures CoreLinked(h, w) ==> CoreLinked(h, AfterRelease(w, h.extra.value))
  {
    ReleasedSerial(h);
    ReleasedLinks(h, w);
  }

  /** Detaching the hook, destroying the proxy, freeing the hook. */
  lemma ReleaseIsSafe(h: Holdings, w: World)
    requires Owns(h, w) && h.extra.Some?
    ensures var serial := h.extra.value;
            var w1 := Exec(w, Unlink(HookOf(serial)));
            var w2 := Exec(w1, Destroy(ProxyOf(serial)));
            && Safe(w, Unlink(HookOf(serial)))
            && Safe(w1, Destroy(ProxyOf(serial)))
            && Safe(w2, FreeHook(HookOf(serial)))
    ensures Owns(h.(extra := None), AfterRelease(w, h.extra.value))
    ensures CoreLinked(h, w) ==> CoreLinked(h, AfterRelease(w, h.extra.value))
  {
    ReleasedSerial(h);
    ReleaseObjects(h, w);
    ReleaseHooks(h, w);
    ReleaseLinks(h, w);
    assert HoldsProxy(h, h.extra.value);
    assert HoldsRes(h, ProxyOf(h.extra.value)) && HoldsHook(h, HookOf(h.extra.value));
  }

  /** Storing the record on its way in, and taking out the one it displaces. */
  lemma SwapKeepsOwnership(h: Holdings, w: World, id: nat)
    requires Owns(h, w)
    ensures Owns(h.(proxies := h.proxies[id := h.extra],
                    extra := if id in h.proxies then h.proxies[id] else None), w)
  {
    var h' := h.(proxies := h.proxies[id := h.extra], extra := if id in h.proxies then h.proxies[id] else None);
    forall serial: nat ensures HoldsProxy(h', serial) <==> HoldsProxy(h, serial) {
      if HoldsProxy(h, serial) {
        if h.extra == Some(serial) {
          assert h'.proxies[id] == Some(serial);
        } else {
          var k :| k in h.proxies && h.proxies[k] == Some(serial);
          if k != id { assert k in h'.proxies && h'.proxies[k] == Some(serial); }
        }
      }
    }
  }

  /** Taking a record out of the map. */
  lemma EraseKeepsOwnership(h: Holdings, w: World, id: nat)
    requires Owns(h, w) && h.extra == None && id in h.proxies
    ensures Owns(h.(proxies := h.proxies - {id}, extra := h.proxies[id]), w)
  {
    var h' := h.(proxies := h.proxies - {id}, extra := h.proxies[id]);
    forall serial: nat ensures HoldsProxy(h', serial) <==> HoldsProxy(h, serial) {
      if HoldsProxy(h, serial) {
        var k :| k in h.proxies && h.proxies[k] == Some(serial);
        if k != id { assert k in h'.proxies && h'.proxies[k] == Some(serial); }
      }
    }
  }

  function Field(h: Holdings, kind: ResKind): Option<Res>
    requires IsHandle(kind)
  {
    match kind
    case MainLoop => h.loop
    case Context => h.context
    case Core => h.core
    case RegistryHandle => h.registry
    case EventSource => h.source
  }

  function WithField(h: Holdings, kind: ResKind, o: Option<Res>): Holdings
    requires IsHandle(kind)
  {
    match kind
    case MainLoop => h.(loop := o)
    case Context => h.(context := o)
    case Core => h.(core := o)
    case RegistryHandle => h.(registry := o)
    case EventSource => h.(source := o)
  }

  function Opened(h: Holdings, kind: ResKind): Holdings
    requires IsHandle(kind)
  {
    WithField(h, kind, Some(Res(kind, h.next))).(next := h.next + 1)
  }

  /** Setting one handle field changes who holds that handle and nothing else. */
  lemma FieldHolds(h: Holdings, kind: ResKind, o: Option<Res>, next: nat, x: Res)
    requires IsHandle(kind) && (o.Some? ==> o.value.kind == kind)
    ensures var h' := WithField(h, kind, o).(next := next);
            HoldsRes(h', x) <==> if x.kind == kind then o == Some(x) else HoldsRes(h, x)
  {
    var h' := WithField(h, kind, o).(next := next);
    assert HoldsProxy(h', x.serial) == HoldsProxy(h, x.serial);
  }

  lemma FieldHooks(h: Holdings, kind: ResKind, o: Option<Res>, next: nat)
    requires IsHandle(kind)
    ensures var h' := WithField(h, kind, o).(next := next);
            && (forall k: Hook :: HoldsHook(h', k) <==> HoldsHook(h, k))
            && (forall serial: nat :: HoldsProxy(h', serial) <==> HoldsProxy(h, serial))
            && (Unshared(h) ==> Unshared(h'))
  {
  }

  /** A field that nothing held depends on is the parent of nothing held. */
  lemma FieldParents(h: Holdings, kind: ResKind, o: Option<Res>, next: nat, x: Res)
    requires IsHandle(kind) && Layered(WithField(h, kind, None)) && Layered(h)
    requires HoldsRes(h, x) && x.kind != kind
    ensures ParentOf(WithField(h, kind, o).(next := next), x) == ParentOf(h, x)
    ensures ParentOf(h, x).Some? ==> ParentOf(h, x) != Field(h, kind)
  {
    if x.kind == ObjectProxy {
      FieldHooks(h, kind, None, h.next);
      assert HoldsProxy(h, x.serial);
      assert HoldsProxy(WithField(h, kind, None), x.serial);
    }
  }

  lemma OpenObjects(h: Holdings, w: World, kind: ResKind)
    requires Owns(h, w) && IsHandle(kind) && Field(h, kind).None?
    ensures OwnsObjects(Opened(h, kind), Exec(w, Create(Res(kind, h.next), ParentOf(h, Res(kind, h.next)))))
  {
    var r := Res(kind, h.next);
    var t := Exec(w, Create(r, ParentOf(h, r)));
    var h' := Opened(h, kind);
    assert WithField(h, kind, None) == h;
    forall x: Res
      ensures x in t.live <==> HoldsRes(h', x)
      ensures x in t.live ==> t.live[x] == ParentOf(h', x) && x.serial < h'.next
      ensures x in t.dead ==> x.serial < h'.next
    {
      FieldHolds(h, kind, Some(r), h.next + 1, x);
      if HoldsRes(h, x) && x.kind != kind { FieldParents(h, kind, Some(r), h.next + 1, x); }
      assert x in w.live <==> HoldsRes(h, x);
    }
  }

  lemma OpenLayered(h: Holdings, kind: ResKind)
    requires Layered(h) && IsHandle(kind) && Field(h, kind).None?
    requires kind != MainLoop ==> ParentOf(h, Res(kind, h.next)).Some?
    ensures Layered(Opened(h, kind))
  {
    FieldHooks(h, kind, Some(Res(kind, h.next)), h.next + 1);
  }

  lemma OpenHooks(h: Holdings, w: World, kind: ResKind)
    requires Owns(h, w) && IsHandle(kind) && Field(h, kind).None?
    ensures var t := Exec(w, Create(Res(kind, h.next), ParentOf(h, Res(kind, h.next))));
            OwnsHooks(Opened(h, kind), t) && OwnsLinks(Opened(h, kind), t)
  {
    FieldHooks(h, kind, Some(Res(kind, h.next)), h.next + 1);
  }

  /** Creating one of the five handles, from the handle above it. */
  lemma OpenIsSafe(h: Holdings, w: World, kind: ResKind)
    requires Owns(h, w) && IsHandle(kind) && Field(h, kind).None?
    requires kind != MainLoop ==> ParentOf(h, Res(kind, h.next)).Some?
    ensures var c := Create(Res(kind, h.next), ParentOf(h, Res(kind, h.next)));
            && Safe(w, c) && Owns(Opened(h, kind), Exec(w, c))
            && (CoreLinked(h, w) ==> CoreLinked(Opened(h, kind), Exec(w, c)))
  {
    var r := Res(kind, h.next);
    if kind != MainLoop { assert HoldsRes(h, ParentOf(h, r).value); }
    FieldHooks(h, kind, Some(r), h.next + 1);
    OpenLayered(h, kind);
    OpenObjects(h, w, kind);
    OpenHooks(h, w, kind);
  }

  lemma CloseObjects(h: Holdings, w: World, kind: ResKind)
    requires Owns(h, w) && IsHandle(kind) && Field(h, kind).Some? && Layered(WithField(h, kind, None))
    ensures Safe(w, Destroy(Field(h, kind).value))
    ensures OwnsObjects(WithField(h, kind, None), Exec(w, Destroy(Field(h, kind).value)))
  {
    var r := Field(h, kind).value;
    var t := Exec(w, Destroy(r));
    var h' := WithField(h, kind, None);
    assert HoldsRes(h, r);
    forall x: Res
      ensures x in t.live <==> HoldsRes(h', x)
      ensures x in t.live ==> t.live[x] == ParentOf(h', x) && x.serial < h'.next
      ensures x in t.dead ==> x.serial < h'.next
      ensures x in w.live ==> w.live[x] != Some(r)
    {
      FieldHolds(h, kind, None, h.next, x);
      assert x in w.live <==> HoldsRes(h, x);
      if HoldsRes(h, x) && x.kind != kind { FieldParents(h, kind, None, h.next, x); }
    }
  }

  lemma CloseHooks(h: Holdings, w: World, kind: ResKind)
    requires Owns(h, w) && IsHandle(kind) && Field(h, kind).Some? && Layered(WithField(h, kind, None))
    ensures var t := Exec(w, Destroy(Field(h, kind).value));
            && OwnsHooks(WithField(h, kind, None), t) && OwnsLinks(WithField(h, kind, None), t)
            && (kind != Core && CoreLinked(h, w) ==> CoreLinked(WithField(h, kind, None), t))
  {
    FieldHooks(h, kind, None, h.next);
    assert WithField(h, kind, None).(next := h.next) == WithField(h, kind, None);
  }

  /** Destroying one of the five handles once nothing made from it, and no monitor of it, is left. */
  lemma CloseIsSafe(h: Holdings, w: World, kind: ResKind)
    requires Owns(h, w) && IsHandle(kind) && Field(h, kind).Some?
    requires Layered(WithField(h, kind, None))
    ensures var c := Destroy(Field(h, kind).value);
            && Safe(w, c) && Owns(WithField(h, kind, None), Exec(w, c))
            && (kind != Core && CoreLinked(h, w) ==> CoreLinked(WithField(h, kind, None), Exec(w, c)))
  {
    FieldHooks(h, kind, None, h.next);
    CloseObjects(h, w, kind);
    CloseHooks(h, w, kind);
  }

  /** Setting a listener field changes who holds that hook and nothing else. */
  lemma HookFieldHolds(h: Holdings, coreHook: Option<Hook>, monitor: Option<Hook>, next: nat)
    ensures var h' := h.(coreHook := coreHook, monitor := monitor, next := next);
            && (forall r: Res :: HoldsRes(h', r) <==> HoldsRes(h, r))
            && (forall r: Res :: ParentOf(h', r) == ParentOf(h, r))
            && (forall serial: nat :: HoldsProxy(h', serial) <==> HoldsProxy(h, serial))
            && (Unshared(h) ==> Unshared(h'))
  {
  }

  function CoreAttached(h: Holdings): Holdings {
    h.(coreHook := Some(Hook(CoreHook, h.next)), next := h.next + 1)
  }

  function AfterAttach(h: Holdings, w: World): World
    requires h.core.Some?
  {
    var w1 := Exec(w, AllocHook(Hook(CoreHook, h.next)));
    var w2 := if h.coreHook.Some? then Exec(w1, FreeHook(h.coreHook.value)) else w1;
    Exec(w2, Link(Hook(CoreHook, h.next), h.core.value))
  }

  lemma AttachCoreObjects(h: Holdings, w: World)
    requires Owns(h, w) && h.core.Some?
    ensures OwnsObjects(CoreAttached(h), AfterAttach(h, w))
  {
    HookFieldHolds(h, Some(Hook(CoreHook, h.next)), h.monitor, h.next + 1);
    assert AfterAttach(h, w).live == w.live && AfterAttach(h, w).dead == w.dead;
  }

  lemma AttachCoreHooks(h: Holdings, w: World)
    requires Owns(h, w) && h.core.Some?
    requires h.coreHook.Some? ==> h.coreHook.value !in w.links
    ensures OwnsHooks(CoreAttached(h), AfterAttach(h, w))
  {
    var k, h', t := Hook(CoreHook, h.next), CoreAttached(h), AfterAttach(h, w);
    HookFieldHolds(h, Some(k), h.monitor, h.next + 1);
    assert t.hooks == w.hooks + {k} - (if h.coreHook.Some? then {h.coreHook.value} else {});
    forall x: Hook ensures x in t.hooks <==> HoldsHook(h', x) {
      assert x in w.hooks <==> HoldsHook(h, x);
      assert k !in w.hooks;
    }
  }

  lemma AttachCoreLinks(h: Holdings, w: World)
    requires Owns(h, w) && h.core.Some?
    ensures OwnsLinks(CoreAttached(h), AfterAttach(h, w)) && CoreLinked(CoreAttached(h), AfterAttach(h, w))
  {
    var k, t := Hook(CoreHook, h.next), AfterAttach(h, w);
    HookFieldHolds(h, Some(k), h.monitor, h.next + 1);
    assert HoldsRes(h, h.core.value);
    assert t.links == w.links[k := h.core.value] && t.live == w.live;
  }

  lemma AttachCoreOwns(h: Holdings, w: World)
    requires Owns(h, w) && h.core.Some?
    requires h.coreHook.Some? ==> h.coreHook.value !in w.links
    ensures Owns(CoreAttached(h), AfterAttach(h, w)) && CoreLinked(CoreAttached(h), AfterAttach(h, w))
  {
    AttachCoreObjects(h, w);
    AttachCoreHooks(h, w);
    AttachCoreLinks(h, w);
    HookFieldHolds(h, Some(Hook(CoreHook, h.next)), h.monitor, h.next + 1);
  }

  /** A new core listener: allocate it, free the one an earlier failed connect left, link it. */
  lemma AttachCoreIsSafe(h: Holdings, w: World)
    requires Owns(h, w) && h.core.Some?
    requires h.coreHook.Some? ==> h.coreHook.value !in w.links
    ensures var k := Hook(CoreHook, h.next);
            var w1 := Exec(w, AllocHook(k));
            var w2 := if h.coreHook.Some? then Exec(w1, FreeHook(h.coreHook.value)) else w1;
            && Safe(w, AllocHook(k))
            && (h.coreHook.Some? ==> Safe(w1, FreeHook(h.coreHook.value)))
            && Safe(w2, Link(k, h.core.value))
  {
    assert HoldsRes(h, h.core.value);
    if h.coreHook.Some? { assert HoldsHook(h, h.coreHook.value); }
  }

  lemma DetachCoreIsSafe(h: Holdings, w: World)
    requires Owns(h, w) && CoreLinked(h, w)
    ensures var k := h.coreHook.value;
            && Safe(w, Unlink(k)) && Safe(Exec(w, Unlink(k)), FreeHook(k))
            && Owns(h.(coreHook := None), Exec(Exec(w, Unlink(k)), FreeHook(k)))
  {
    HookFieldHolds(h, None, h.monitor, h.next);
    assert HoldsHook(h, h.coreHook.value);
  }

  lemma FreeCoreHookIsSafe(h: Holdings, w: World)
    requires Owns(h, w) && h.coreHook.Some? && h.coreHook.value !in w.links
    ensures Safe(w, FreeHook(h.coreHook.value))
    ensures Owns(h.(coreHook := None), Exec(w, FreeHook(h.coreHook.value)))
  {
    HookFieldHolds(h, None, h.monitor, h.next);
    assert HoldsHook(h, h.coreHook.value);
  }

  function MonitorAttached(h: Holdings): Holdings {
    h.(monitor := Some(Hook(RegistryHook, h.next)), next := h.next + 1)
  }

  function AfterMonitor(h: Holdings, w: World): World
    requires h.registry.Some?
  {
    Exec(Exec(w, AllocHook(Hook(RegistryHook, h.next))), Link(Hook(RegistryHook, h.next), h.registry.value))
  }

  lemma AttachMonitorHooks(h: Holdings, w: World)
    requires Owns(h, w) && h.registry.Some? && h.monitor.None?
    ensures OwnsHooks(MonitorAttached(h), AfterMonitor(h, w)) && OwnsObjects(MonitorAttached(h), AfterMonitor(h, w))
  {
    var k, t := Hook(RegistryHook, h.next), AfterMonitor(h, w);
    HookFieldHolds(h, h.coreHook, Some(k), h.next + 1);
    assert t.hooks == w.hooks + {k} && t.live == w.live && t.dead == w.dead;
  }

  lemma AttachMonitorLinks(h: Holdings, w: World)
    requires Owns(h, w) && h.registry.Some? && h.monitor.None?
    ensures OwnsLinks(MonitorAttached(h), AfterMonitor(h, w))
    ensures CoreLinked(h, w) ==> CoreLinked(h, AfterMonitor(h, w))
  {
    var k, t := Hook(RegistryHook, h.next), AfterMonitor(h, w);
    HookFieldHolds(h, h.coreHook, Some(k), h.next + 1);
    assert HoldsRes(h, h.registry.value);
    assert t.links == w.links[k := h.registry.value] && t.live == w.live && k !in w.links;
  }

  lemma AttachMonitorIsSafe(h: Holdings, w: World)
    requires Owns(h, w) && h.registry.Some? && h.monitor.None?
    ensures var k := Hook(RegistryHook, h.next);
            Safe(w, AllocHook(k)) && Safe(Exec(w, AllocHook(k)), Link(k, h.registry.value))
    ensures Owns(MonitorAttached(h), AfterMonitor(h, w))
    ensures CoreLinked(h, w) ==> CoreLinked(MonitorAttached(h), AfterMonitor(h, w))
  {
    HookFieldHolds(h, h.coreHook, Some(Hook(RegistryHook, h.next)), h.next + 1);
    assert HoldsRes(h, h.registry.value);
    AttachMonitorHooks(h, w);
    AttachMonitorLinks(h, w);
  }

  lemma DetachMonitorIsSafe(h: Holdings, w: World)
    requires Owns(h, w) && h.monitor.Some?
    ensures var k := h.monitor.value;
            && Safe(w, Unlink(k)) && Safe(Exec(w, Unlink(k)), FreeHook(k))
            && Owns(h.(monitor := None), Exec(Exec(w, Unlink(k)), FreeHook(k)))
            && (CoreLinked(h, w) ==> CoreLinked(h, Exec(Exec(w, Unlink(k)), FreeHook(k))))
  {
    HookFieldHolds(h, h.coreHook, None, h.next);
    assert HoldsHook(h, h.monitor.value);
  }

  // -------------------------------------------------------- logs that own safely

  /** The log is safe, and what it left in the world is what `h` holds. */
  ghost predicate Good(log: seq<Call>, h: Holdings) {
    SafeLog(log) && Owns(h, WorldOf(log))
  }

  /** As `Good`, with the core listener attached. */
  ghost predicate GoodLinked(log: seq<Call>, h: Holdings) {
    Good(log, h) && CoreLinked(h, WorldOf(log))
  }

  lemma TwoSteps(log: seq<Call>, a: Call, b: Call)
    requires SafeLog(log) && Safe(WorldOf(log), a) && Safe(Exec(WorldOf(log), a), b)
    ensures SafeLog(log + [a, b]) && WorldOf(log + [a, b]) == Exec(Exec(WorldOf(log), a), b)
  {
    LogStep(log, a);
    LogStep(log + [a], b);
    assert log + [a, b] == log + [a] + [b];
  }

  lemma ThreeSteps(log: seq<Call>, a: Call, b: Call, c: Call)
    requires SafeLog(log) && Safe(WorldOf(log), a) && Safe(Exec(WorldOf(log), a), b)
    requires Safe(Exec(Exec(WorldOf(log), a), b), c)
    ensures SafeLog(log + [a, b, c]) && WorldOf(log + [a, b, c]) == Exec(Exec(Exec(WorldOf(log), a), b), c)
  {
    TwoSteps(log, a, b);
    LogStep(log + [a, b], c);
    assert log + [a, b, c] == log + [a, b] + [c];
  }

  function BindCalls(h: Holdings): seq<Call> {
    [Create(ProxyOf(h.next), h.core), AllocHook(HookOf(h.next)), Link(HookOf(h.next), ProxyOf(h.next))]
  }

  function ReleaseCalls(serial: nat): seq<Call> {
    [Unlink(HookOf(serial)), Destroy(ProxyOf(serial)), FreeHook(HookOf(serial))]
  }

  /** The calls that give a record up: none when its bind returned null. */
  function GiveUp(pd: ProxyData): seq<Call> {
    if pd.Some? then ReleaseCalls(pd.value) else []
  }

  function OpenCalls(h: Holdings, kind: ResKind): seq<Call>
    requires IsHandle(kind)
  {
    [Create(Res(kind, h.next), ParentOf(h, Res(kind, h.next)))]
  }

  function AttachCoreCalls(h: Holdings): seq<Call>
    requires h.core.Some?
  {
    [AllocHook(Hook(CoreHook, h.next))]
    + (if h.coreHook.Some? then [FreeHook(h.coreHook.value)] else [])
    + [Link(Hook(CoreHook, h.next), h.core.value)]
  }

  function AttachMonitorCalls(h: Holdings): seq<Call>
    requires h.registry.Some?
  {
    [AllocHook(Hook(RegistryHook, h.next)), Link(Hook(RegistryHook, h.next), h.registry.value)]
  }

  function DetachCalls(k: Hook): seq<Call> {
    [Unlink(k), FreeHook(k)]
  }

  lemma BindGood(log: seq<Call>, h: Holdings)
    requires Good(log, h) && h.core.Some? && h.extra == None
    ensures Good(log + BindCalls(h), Bound(h))
    ensures GoodLinked(log, h) ==> GoodLinked(log + BindCalls(h), Bound(h))
  {
    BindIsSafe(h, WorldOf(log));
    ThreeSteps(log, BindCalls(h)[0], BindCalls(h)[1], BindCalls(h)[2]);
  }

  lemma ReleaseGood(log: seq<Call>, h: Holdings)
    requires Good(log, h) && h.extra.Some?
    ensures Good(log + ReleaseCalls(h.extra.value), h.(extra := None))
    ensures GoodLinked(log, h) ==> GoodLinked(log + ReleaseCalls(h.extra.value), h.(extra := None))
  {
    ReleaseIsSafe(h, WorldOf(log));
    var calls := ReleaseCalls(h.extra.value);
    ThreeSteps(log, calls[0], calls[1], calls[2]);
  }

  lemma OpenGood(log: seq<Call>, h: Holdings, kind: ResKind)
    requires Good(log, h) && IsHandle(kind) && Field(h, kind).None?
    requires kind != MainLoop ==> ParentOf(h, Res(kind, h.next)).Some?
    ensures Good(log + OpenCalls(h, kind), Opened(h, kind))
    ensures WorldOf(log + OpenCalls(h, kind)).links == WorldOf(log).links
    ensures GoodLinked(log, h) ==> GoodLinked(log + OpenCalls(h, kind), Opened(h, kind))
  {
    OpenIsSafe(h, WorldOf(log), kind);
    LogStep(log, OpenCalls(h, kind)[0]);
  }

  lemma CloseGood(log: seq<Call>, h: Holdings, kind: ResKind)
    requires Good(log, h) && IsHandle(kind) && Field(h, kind).Some? && Layered(WithField(h, kind, None))
    ensures Good(log + [Destroy(Field(h, kind).value)], WithField(h, kind, None))
    ensures kind != Core && GoodLinked(log, h)
            ==> GoodLinked(log + [Destroy(Field(h, kind).value)], WithField(h, kind, None))
  {
    CloseIsSafe(h, WorldOf(log), kind);
    LogStep(log, Destroy(Field(h, kind).value));
  }

  lemma AttachSteps(log: seq<Call>, h: Holdings)
    requires Good(log, h) && h.core.Some? && (h.coreHook.Some? ==> h.coreHook.value !in WorldOf(log).links)
    ensures SafeLog(log + AttachCoreCalls(h)) && WorldOf(log + AttachCoreCalls(h)) == AfterAttach(h, WorldOf(log))
  {
    AttachCoreIsSafe(h, WorldOf(log));
    var k := Hook(CoreHook, h.next);
    var link := Link(k, h.core.value);
    if h.coreHook.Some? {
      ThreeSteps(log, AllocHook(k), FreeHook(h.coreHook.value), link);
      assert AttachCoreCalls(h) == [AllocHook(k), FreeHook(h.coreHook.value), link];
    } else {
      TwoSteps(log, AllocHook(k), link);
      assert AttachCoreCalls(h) == [AllocHook(k), link];
    }
  }

  lemma AttachCoreGood(log: seq<Call>, h: Holdings)
    requires Good(log, h) && h.core.Some? && (h.coreHook.Some? ==> h.coreHook.value !in WorldOf(log).links)
    ensures GoodLinked(log + AttachCoreCalls(h), CoreAttached(h))
  {
    AttachSteps(log, h);
    AttachCoreOwns(h, WorldOf(log));
  }

  /** After a link's proxy has been made and dropped. */
  function LinkMade(h: Holdings): Holdings {
    h.(left := h.left + {Res(LinkProxy, h.next)}, next := h.next + 1)
  }

  lemma LinkIsSafe(h: Holdings, w: World)
    requires Owns(h, w) && h.core.Some?
    ensures var c := Create(Res(LinkProxy, h.next), h.core);
            && Safe(w, c) && Owns(LinkMade(h), Exec(w, c))
            && (CoreLinked(h, w) ==> CoreLinked(LinkMade(h), Exec(w, c)))
    ensures Res(LinkProxy, h.next) !in h.left
  {
    var h' := LinkMade(h);
    assert HoldsRes(h, h.core.value);
    forall serial: nat ensures HoldsProxy(h', serial) == HoldsProxy(h, serial) {
    }
    forall r: Res ensures HoldsRes(h', r) == HoldsRes(h, r) && ParentOf(h', r) == ParentOf(h, r) {
    }
  }

  function LinkCalls(h: Holdings): seq<Call> {
    [Create(Res(LinkProxy, h.next), h.core)]
  }

  lemma LinkGood(log: seq<Call>, h: Holdings)
    requires GoodLinked(log, h)
    ensures GoodLinked(log + LinkCalls(h), LinkMade(h))
    ensures |LinkMade(h).left| == |h.left| + 1
  {
    LinkIsSafe(h, WorldOf(log));
    LogStep(log, Create(Res(LinkProxy, h.next), h.core));
  }

  lemma AttachMonitorGood(log: seq<Call>, h: Holdings)
    requires GoodLinked(log, h) && h.registry.Some? && h.monitor.None?
    ensures GoodLinked(log + AttachMonitorCalls(h), MonitorAttached(h))
  {
    AttachMonitorIsSafe(h, WorldOf(log));
    TwoSteps(log, AttachMonitorCalls(h)[0], AttachMonitorCalls(h)[1]);
  }

  lemma DetachMonitorGood(log: seq<Call>, h: Holdings)
    requires GoodLinked(log, h) && h.monitor.Some?
    ensures GoodLinked(log + DetachCalls(h.monitor.value), h.(monitor := None))
  {
    DetachMonitorIsSafe(h, WorldOf(log));
    TwoSteps(log, DetachCalls(h.monitor.value)[0], DetachCalls(h.monitor.value)[1]);
  }

  lemma DetachCoreGood(log: seq<Call>, h: Holdings)
    requires GoodLinked(log, h)
    ensures Good(log + DetachCalls(h.coreHook.value), h.(coreHook := None))
  {
    DetachCoreIsSafe(h, WorldOf(log));
    TwoSteps(log, DetachCalls(h.coreHook.value)[0], DetachCalls(h.coreHook.value)[1]);
  }

  lemma SwapGood(log: seq<Call>, h: Holdings, id: nat)
    requires GoodLinked(log, h)
    ensures GoodLinked(log, h.(proxies := h.proxies[id := h.extra],
                               extra := if id in h.proxies then h.proxies[id] else None))
  {
    SwapKeepsOwnership(h, WorldOf(log), id);
  }

  lemma EraseGood(log: seq<Call>, h: Holdings, id: nat)
    requires GoodLinked(log, h) && h.extra == None && id in h.proxies
    ensures GoodLinked(log, h.(proxies := h.proxies - {id}, extra := h.proxies[id]))
  {
    EraseKeepsOwnership(h, WorldOf(log), id);
  }

  /** With every handle null, nothing is live and no hook is linked. */
  lemma ClosedWorld(log: seq<Call>, h: Holdings)
    requires Good(log, h) && Closed(h)
    ensures WorldOf(log).live == map[] && WorldOf(log).links == map[]
    ensures WorldOf(log).hooks == if h.coreHook.Some? then {h.coreHook.value} else {}
  {
    var w := WorldOf(log);
    forall r ensures r !in w.live { assert HoldsRes(h, r) <==> r in w.live; }
    forall k ensures k in w.hooks <==> Some(k) == h.coreHook { assert HoldsHook(h, k) <==> k in w.hooks; }
  }

  lemma FreeCoreHookGood(log: seq<Call>, h: Holdings)
    requires Good(log, h) && Closed(h) && h.coreHook.Some?
    ensures Good(log + [FreeHook(h.coreHook.value)], h.(coreHook := None))
  {
    ClosedWorld(log, h);
    FreeCoreHookIsSafe(h, WorldOf(log));
    LogStep(log, FreeHook(h.coreHook.value));
  }

  /** All handles null and no proxies. */
  predicate Closed(h: Holdings) {
    && h.loop == h.context == h.core == h.registry == h.source == None
    && h.monitor == None && h.proxies == map[] && h.extra == None
  }

  /** Loop, context and core are open and nothing else is. */
  predicate CoreOnly(h: Holdings) {
    && h.loop.Some? && h.context.Some? && h.core.Some? && h.registry == h.source == None
    && h.monitor == None && h.proxies == map[] && h.extra == None
  }

  // ------------------------------------------------------------------ the client

  datatype RegistryEvent = Announced(id: nat, bindOk: bool) | Removed(id: nat)

  /** Which step of connect fails, if any, and whether the event source could be made. */
  datatype Outcome = NoLoop | NoContext | NoCore | NoRegistry | Connects(sourceOk: bool)

  /** The first three handles carry consecutive serials. */
  predicate HandlesFrom(h: Holdings, n: nat) {
    && h.loop == Some(Res(MainLoop, n)) && h.context == Some(Res(Context, n + 1))
    && h.core == Some(Res(Core, n + 2)) && h.next == n + 3
  }

  function CloseCalls(h: Holdings): seq<Call>
    requires h.loop.Some? && h.context.Some? && h.core.Some?
  {
    [Destroy(h.core.value), Destroy(h.context.value), Destroy(h.loop.value)]
  }

  /** What connect does once the context is open. */
  function LastCalls(outcome: Outcome, loop: Res, context: Res, n: nat): seq<Call> {
    if outcome.NoCore? then [Destroy(context), Destroy(loop)] else [Create(Res(Core, n), Some(context))]
  }

  /** What connect does once the loop is open. */
  function ContextCalls(outcome: Outcome, loop: Res, n: nat): seq<Call> {
    if outcome.NoContext? then [Destroy(loop)]
    else [Create(Res(Context, n), Some(loop))] + LastCalls(outcome, loop, Res(Context, n), n + 1)
  }

  /** What connect does up to the core. */
  function CoreCalls(outcome: Outcome, n: nat): seq<Call> {
    if outcome.NoLoop? then []
    else [Create(Res(MainLoop, n), None)] + ContextCalls(outcome, Res(MainLoop, n), n + 1)
  }

  /**
    All that a failing connect does: it opens what it can and closes that
    again, core, context and loop in this order; a core listener is linked, and
    an older one freed, when the core came up.
   */
  function FailedCalls(outcome: Outcome, n: nat, coreHook: Option<Hook>): seq<Call> {
    CoreCalls(outcome, n) + if outcome.NoRegistry? then NoRegistryCalls(n, coreHook) else []
  }

  lemma ContextJoins(log: seq<Call>, outcome: Outcome, loop: Res, n: nat)
    ensures !outcome.NoContext? ==>
              log + [Create(Res(Context, n), Some(loop))] + LastCalls(outcome, loop, Res(Context, n), n + 1)
              == log + ContextCalls(outcome, loop, n)
  {
  }

  lemma CoreJoins(log: seq<Call>, outcome: Outcome, n: nat)
    ensures !outcome.NoLoop? ==>
              log + [Create(Res(MainLoop, n), None)] + ContextCalls(outcome, Res(MainLoop, n), n + 1)
              == log + CoreCalls(outcome, n)
  {
  }

  /** What connect does from the core listener on when the registry cannot be had. */
  function NoRegistryCalls(n: nat, coreHook: Option<Hook>): seq<Call> {
    [AllocHook(Hook(CoreHook, n + 3))]
    + (if coreHook.Some? then [FreeHook(coreHook.value)] else [])
    + [Link(Hook(CoreHook, n + 3), Res(Core, n + 2))]
    + [Destroy(Res(Core, n + 2)), Destroy(Res(Context, n + 1)), Destroy(Res(MainLoop, n))]
  }

  lemma NoRegistryJoins(h: Holdings, n: nat)
    requires HandlesFrom(h, n)
    ensures AttachCoreCalls(h) + CloseCalls(h) == NoRegistryCalls(n, h.coreHook)
  {
  }

  lemma FailureJoins(log: seq<Call>, outcome: Outcome, n: nat, coreHook: Option<Hook>)
    ensures outcome.NoRegistry? ==>
              log + CoreCalls(outcome, n) + NoRegistryCalls(n, coreHook) == log + FailedCalls(outcome, n, coreHook)
    ensures !outcome.NoRegistry? ==> log + CoreCalls(outcome, n) == log + FailedCalls(outcome, n, coreHook)
  {
  }

  /** The objects that have a proxy record, and whether each has a proxy. */
  function Objects(proxies: map<nat, ProxyData>): map<nat, bool> {
    map id | id in proxies :: proxies[id].Some?
  }

  /** The calls of a registry event: a bind if it succeeds, then the release of the object's former proxy. */
  function EventCalls(h: Holdings, e: RegistryEvent): seq<Call> {
    (if e.Announced? && e.bindOk then BindCalls(h) else [])
    + if e.id in h.proxies then GiveUp(h.proxies[e.id]) else []
  }

  lemma Joined(a: seq<Call>, b: seq<Call>, c: seq<Call>)
    requires a <= b <= c
    ensures c == a + (b[|a|..] + c[|b|..])
  {
  }

  /** A registry event destroys the proxy its object had, and no other. */
  lemma EventDestroys(h: Holdings, e: RegistryEvent, serial: nat)
    ensures Destroy(ProxyOf(serial)) in EventCalls(h, e) <==> e.id in h.proxies && h.proxies[e.id] == Some(serial)
  {
    if e.id in h.proxies && h.proxies[e.id].Some? {
      assert ReleaseCalls(h.proxies[e.id].value)[1] == Destroy(ProxyOf(h.proxies[e.id].value));
    }
  }

  lemma ObjectsPut(proxies: map<nat, ProxyData>, id: nat, pd: ProxyData)
    ensures Objects(proxies[id := pd]) == Objects(proxies)[id := pd.Some?]
  {
  }

  lemma ObjectsRemoved(proxies: map<nat, ProxyData>, id: nat)
    ensures Objects(proxies - {id}) == Objects(proxies) - {id}
    ensures id !in proxies ==> Objects(proxies) - {id} == Objects(proxies)
  {
  }

  function ObjectsAfter(objects: map<nat, bool>, e: RegistryEvent): map<nat, bool> {
    match e
    case Announced(id, bindOk) => objects[id := bindOk]
    case Removed(id) => objects - {id}
  }

  function ObjectsAfterAll(objects: map<nat, bool>, es: seq<RegistryEvent>): map<nat, bool> {
    if es == [] then objects else ObjectsAfter(ObjectsAfterAll(objects, es[..|es| - 1]), es[|es| - 1])
  }

  class PwDartClientImpl {
    var connected: bool
    var loop: Option<Res>
    var context: Option<Res>
    var core: Option<Res>
    var registry: Option<Res>
    var source: Option<Res>
    var coreHook: Option<Hook>
    var monitor: Option<Hook>
    var proxies: map<nat, ProxyData>
    var left: set<Res>
    var next: nat
    var log: seq<Call>

    function Hold(extra: ProxyData): Holdings
      reads this
    {
      Holdings(loop, context, core, registry, source, coreHook, monitor, proxies, extra, left, next)
    }

    /** Between calls: all open with both listeners linked, or nothing open at all. */
    ghost predicate Valid()
      reads this
    {
      if connected then GoodLinked(log, Hold(None)) && monitor.Some? else Good(log, Hold(None)) && Closed(Hold(None))
    }

    constructor ()
      ensures Valid() && !connected && log == []
    {
      connected := false;
      loop, context, core, registry, source := None, None, None, None, None;
      coreHook, monitor, proxies := None, None, map[];
      left, next, log := {}, 0, [];
    }

    /** Binds an announced object and listens to it. */
    method BindProxy(bindOk: bool) returns (pd: ProxyData)
      requires GoodLinked(log, Hold(None))
      modifies this`log, this`next
      ensures GoodLinked(log, Hold(pd)) && pd == (if bindOk then Some(old(next)) else None)
      ensures log == old(log) + if bindOk then BindCalls(old(Hold(None))) else []
    {
      if !bindOk {
        assert log + [] == log;
        return None;
      }
      ghost var h := Hold(None);
      BindGood(log, h);
      log := log + BindCalls(Hold(None));
      pd := Some(next);
      next := next + 1;
      assert Hold(pd) == Bound(h);
    }

    /** The ProxyData destructor. */
    method ReleaseProxy(pd: ProxyData)
      requires GoodLinked(log, Hold(pd))
      modifies this`log
      ensures GoodLinked(log, Hold(None)) && log == old(log) + GiveUp(pd)
    {
      if pd.None? { return; }
      ReleaseGood(log, Hold(pd));
      log := log + ReleaseCalls(pd.value);
    }

    /** `proxies_[id] = std::move(pd)`: the record that was there is given up. */
    method Store(id: nat, pd: ProxyData)
      requires GoodLinked(log, Hold(pd))
      modifies this`log, this`proxies
      ensures GoodLinked(log, Hold(None)) && proxies == old(proxies)[id := pd]
      ensures log == old(log) + if id in old(proxies) then GiveUp(old(proxies)[id]) else []
    {
      ghost var h := Hold(pd);
      SwapGood(log, h, id);
      var displaced := if id in proxies then proxies[id] else None;
      proxies := proxies[id := pd];
      assert Hold(displaced) == h.(proxies := proxies, extra := displaced);
      ReleaseProxy(displaced);
    }

    /** on_global: the new proxy record displaces, and so releases, an older one of its id. */
    method OnAnnounced(id: nat, bindOk: bool)
      requires GoodLinked(log, Hold(None))
      modifies this`log, this`next, this`proxies
      ensures GoodLinked(log, Hold(None)) && log == old(log) + EventCalls(old(Hold(None)), Announced(id, bindOk))
      ensures proxies == old(proxies)[id := if bindOk then Some(old(next)) else None]
    {
      ghost var before := log;
      var pd := BindProxy(bindOk);
      ghost var bound := log;
      Store(id, pd);
      Joined(before, bound, log);
    }

    /** Erasing one proxy record releases it. */
    method Erase(id: nat)
      requires GoodLinked(log, Hold(None)) && id in proxies
      modifies this`log, this`proxies
      ensures GoodLinked(log, Hold(None)) && log == old(log) + GiveUp(old(proxies)[id])
      ensures proxies == old(proxies) - {id}
    {
      ghost var h := Hold(None);
      EraseGood(log, h, id);
      var pd := proxies[id];
      proxies := proxies - {id};
      assert Hold(pd) == h.(proxies := proxies, extra := pd);
      ReleaseProxy(pd);
    }

    method OnRemoved(id: nat)
      requires GoodLinked(log, Hold(None))
      modifies this`log, this`proxies
      ensures GoodLinked(log, Hold(None)) && proxies == old(proxies) - {id}
      ensures log == old(log) + EventCalls(old(Hold(None)), Removed(id))
    {
      if id in proxies {
        Erase(id);
      }
    }

    /** A registry callback: exactly these calls, and this object's record changed and no other's. */
    method OnRegistryEvent(e: RegistryEvent)
      requires GoodLinked(log, Hold(None))
      modifies this`log, this`next, this`proxies
      ensures GoodLinked(log, Hold(None)) && log == old(log) + EventCalls(old(Hold(None)), e)
      ensures Objects(proxies) == ObjectsAfter(old(Objects(proxies)), e)
      ensures proxies - {e.id} == old(proxies) - {e.id}
    {
      ghost var before := proxies;
      match e
      case Announced(id, bindOk) =>
        OnAnnounced(id, bindOk);
        ObjectsPut(before, id, proxies[id]);
      case Removed(id) =>
        ObjectsRemoved(before, id);
        OnRemoved(id);
    }

    /** A registry callback, as far as the session is concerned. */
    method HandleEvent(e: RegistryEvent)
      requires GoodLinked(log, Hold(None))
      modifies this`log, this`next, this`proxies
      ensures GoodLinked(log, Hold(None)) && old(log) <= log
      ensures Objects(proxies) == ObjectsAfter(old(Objects(proxies)), e)
    {
      OnRegistryEvent(e);
    }

    /** LinkManager::create_link: the new link's proxy is kept nowhere. */
    method CreateLink(made: bool)
      requires GoodLinked(log, Hold(None))
      modifies this`log, this`next, this`left
      ensures GoodLinked(log, Hold(None)) && old(log) <= log
      ensures old(left) <= left && |left| == |old(left)| + if made then 1 else 0
    {
      if made { KeepLink(); }
    }

    /** The call that makes the proxy. */
    method KeepLink()
      requires GoodLinked(log, Hold(None))
      modifies this`log, this`next, this`left
      ensures GoodLinked(log, Hold(None)) && old(log) <= log && left == LinkMade(old(Hold(None))).left
      ensures |left| == |old(left)| + 1
    {
      ghost var h := Hold(None);
      LinkGood(log, h);
      log := log + LinkCalls(Hold(None));
      left := left + {Res(LinkProxy, next)};
      next := next + 1;
      assert Hold(None) == LinkMade(h);
    }

    /** Clearing the proxy map, in whatever order the hash map chooses. */
    method ClearProxies()
      requires GoodLinked(log, Hold(None))
      modifies this`log, this`proxies
      ensures GoodLinked(log, Hold(None)) && old(log) <= log
      ensures proxies == map[]
    {
      while proxies != map[]
        invariant GoodLinked(log, Hold(None)) && old(log) <= log
        decreases proxies.Keys
      {
        var id :| id in proxies;
        Erase(id);
      }
    }

    /** The assignment to one of the five handle fields. */
    method SetField(kind: ResKind, o: Option<Res>)
      requires IsHandle(kind)
      modifies this`loop, this`context, this`core, this`registry, this`source
      ensures Hold(None) == WithField(old(Hold(None)), kind, o)
    {
      match kind {
        case MainLoop => loop := o;
        case Context => context := o;
        case Core => core := o;
        case RegistryHandle => registry := o;
        case EventSource => source := o;
      }
    }

    /** A pw_*_new or connect call that succeeds: the new handle goes into its field. */
    method Open(kind: ResKind)
      requires Good(log, Hold(None)) && IsHandle(kind) && Field(Hold(None), kind).None?
      requires kind != MainLoop ==> ParentOf(Hold(None), Res(kind, next)).Some?
      modifies this`log, this`next, this`loop, this`context, this`core, this`registry, this`source
      ensures Good(log, Hold(None)) && Hold(None) == Opened(old(Hold(None)), kind) && old(log) <= log
      ensures WorldOf(log).links == WorldOf(old(log)).links
      ensures GoodLinked(old(log), old(Hold(None))) ==> GoodLinked(log, Hold(None))
      ensures log == old(log) + OpenCalls(old(Hold(None)), kind)
    {
      ghost var h := Hold(None);
      OpenGood(log, h, kind);
      log := log + OpenCalls(Hold(None), kind);
      SetField(kind, Some(Res(kind, next)));
      next := next + 1;
      assert Hold(None) == Opened(h, kind);
    }

    /** A destroy call: the handle's field becomes null. */
    method Close(kind: ResKind)
      requires Good(log, Hold(None)) && IsHandle(kind) && Field(Hold(None), kind).Some?
      requires Layered(WithField(Hold(None), kind, None))
      modifies this`log, this`loop, this`context, this`core, this`registry, this`source
      ensures Good(log, Hold(None)) && Hold(None) == WithField(old(Hold(None)), kind, None) && old(log) <= log
      ensures kind != Core && GoodLinked(old(log), old(Hold(None))) ==> GoodLinked(log, Hold(None))
      ensures log == old(log) + [Destroy(Field(old(Hold(None)), kind).value)]
    {
      ghost var h := Hold(None);
      CloseGood(log, h, kind);
      log := log + [Destroy(Field(Hold(None), kind).value)];
      SetField(kind, None);
      assert Hold(None) == WithField(h, kind, None);
    }

    /** The first part of connect: the main loop, the context and the core, or back to nothing. */
    method OpenCore(outcome: Outcome) returns (ok: bool)
      requires Good(log, Hold(None)) && Closed(Hold(None))
      modifies this`log, this`next, this`loop, this`context, this`core, this`registry, this`source
      ensures Good(log, Hold(None)) && (ok <==> outcome.NoRegistry? || outcome.Connects?)
      ensures if ok then CoreOnly(Hold(None)) && WorldOf(log).links == map[] else Closed(Hold(None))
      ensures log == old(log) + CoreCalls(outcome, old(next))
      ensures ok ==> HandlesFrom(Hold(None), old(next))
    {
      if outcome.NoLoop? {
        assert log + [] == log;
        return false;
      }
      ClosedWorld(log, Hold(None));
      ok := OpenUp(outcome);
      CoreJoins(old(log), outcome, old(next));
    }

    method OpenUp(outcome: Outcome) returns (ok: bool)
      requires Good(log, Hold(None)) && Closed(Hold(None)) && WorldOf(log).links == map[] && !outcome.NoLoop?
      modifies this`log, this`next, this`loop, this`context, this`core, this`registry, this`source
      ensures Good(log, Hold(None)) && (ok <==> outcome.NoRegistry? || outcome.Connects?)
      ensures if ok then CoreOnly(Hold(None)) && WorldOf(log).links == map[] else Closed(Hold(None))
      ensures log == old(log) + [Create(Res(MainLoop, old(next)), None)]
                     + ContextCalls(outcome, Res(MainLoop, old(next)), old(next) + 1)
      ensures ok ==> HandlesFrom(Hold(None), old(next))
    {
      OpenLoop();
      ok := OpenNext(outcome);
    }

    method OpenLoop()
      requires Good(log, Hold(None)) && Closed(Hold(None))
      modifies this`log, this`next, this`loop, this`context, this`core, this`registry, this`source
      ensures Good(log, Hold(None)) && WorldOf(log).links == WorldOf(old(log)).links
      ensures loop == Some(Res(MainLoop, old(next))) && context == core == registry == source == None
      ensures next == old(next) + 1 && log == old(log) + [Create(Res(MainLoop, old(next)), None)]
    {
      Open(MainLoop);
    }

    method OpenContext()
      requires Good(log, Hold(None)) && loop.Some? && context == core == registry == source == None
      modifies this`log, this`next, this`loop, this`context, this`core, this`registry, this`source
      ensures Good(log, Hold(None)) && WorldOf(log).links == WorldOf(old(log)).links
      ensures loop == old(loop) && context == Some(Res(Context, old(next))) && core == registry == source == None
      ensures next == old(next) + 1 && log == old(log) + [Create(Res(Context, old(next)), loop)]
    {
      Open(Context);
    }

    method OpenNext(outcome: Outcome) returns (ok: bool)
      requires Good(log, Hold(None)) && loop.Some? && context == core == registry == source == None
      requires monitor == None && proxies == map[] && !outcome.NoLoop?
      modifies this`log, this`next, this`loop, this`context, this`core, this`registry, this`source
      ensures Good(log, Hold(None)) && (ok <==> outcome.NoRegistry? || outcome.Connects?)
      ensures if ok then CoreOnly(Hold(None)) && WorldOf(log).links == WorldOf(old(log)).links
              else Closed(Hold(None))
      ensures log == old(log) + ContextCalls(outcome, old(loop).value, old(next))
      ensures ok ==> loop == old(loop) && context == Some(Res(Context, old(next)))
                     && core == Some(Res(Core, old(next) + 1)) && next == old(next) + 2
    {
      if outcome.NoContext? {
        Close(MainLoop);
        return false;
      }
      ok := OpenRest(outcome);
      ContextJoins(old(log), outcome, old(loop).value, old(next));
    }

    method OpenRest(outcome: Outcome) returns (ok: bool)
      requires Good(log, Hold(None)) && loop.Some? && context == core == registry == source == None
      requires monitor == None && proxies == map[] && !outcome.NoLoop? && !outcome.NoContext?
      modifies this`log, this`next, this`loop, this`context, this`core, this`registry, this`source
      ensures Good(log, Hold(None)) && (ok <==> outcome.NoRegistry? || outcome.Connects?)
      ensures if ok then CoreOnly(Hold(None)) && WorldOf(log).links == WorldOf(old(log)).links
              else Closed(Hold(None))
      ensures log == old(log) + [Create(Res(Context, old(next)), old(loop))]
                     + LastCalls(outcome, old(loop).value, Res(Context, old(next)), old(next) + 1)
      ensures ok ==> loop == old(loop) && context == Some(Res(Context, old(next)))
                     && core == Some(Res(Core, old(next) + 1)) && next == old(next) + 2
    {
      OpenContext();
      ok := OpenLast(outcome);
    }

    method OpenLast(outcome: Outcome) returns (ok: bool)
      requires Good(log, Hold(None)) && loop.Some? && context.Some? && core == registry == source == None
      requires monitor == None && proxies == map[]
      modifies this`log, this`next, this`loop, this`context, this`core, this`registry, this`source
      ensures Good(log, Hold(None)) && old(log) <= log
      ensures ok <==> !outcome.NoCore?
      ensures if ok then CoreOnly(Hold(None)) && WorldOf(log).links == WorldOf(old(log)).links
              else Closed(Hold(None))
      ensures log == old(log) + LastCalls(outcome, old(loop).value, old(context).value, old(next))
      ensures ok ==> loop == old(loop) && context == old(context)
                     && core == Some(Res(Core, old(next))) && next == old(next) + 1
    {
      if outcome.NoCore? {
        CloseContext();
        return false;
      }
      Open(Core);
      return true;
    }

    /** Attaching the core listener; an earlier failed connect may have left one to free. */
    method AttachCore()
      requires Good(log, Hold(None)) && core.Some?
      requires coreHook.Some? ==> coreHook.value !in WorldOf(log).links
      modifies this`log, this`next, this`coreHook
      ensures GoodLinked(log, Hold(None)) && log == old(log) + AttachCoreCalls(old(Hold(None)))
    {
      ghost var h := Hold(None);
      AttachCoreGood(log, h);
      log := log + AttachCoreCalls(Hold(None));
      coreHook := Some(Hook(CoreHook, next));
      next := next + 1;
      assert Hold(None) == CoreAttached(h);
    }

    /** The RegistryMonitor constructor's listener. */
    method AttachMonitor()
      requires GoodLinked(log, Hold(None)) && registry.Some? && monitor.None?
      modifies this`log, this`next, this`monitor
      ensures GoodLinked(log, Hold(None)) && old(log) <= log && monitor.Some?
    {
      ghost var h := Hold(None);
      AttachMonitorGood(log, h);
      log := log + AttachMonitorCalls(Hold(None));
      monitor := Some(Hook(RegistryHook, next));
      next := next + 1;
      assert Hold(None) == MonitorAttached(h);
    }

    /** The registry handle and its monitor. */
    method OpenRegistry()
      requires GoodLinked(log, Hold(None)) && CoreOnly(Hold(None))
      modifies this`log, this`next, this`loop, this`context, this`core, this`registry, this`source, this`monitor
      ensures GoodLinked(log, Hold(None)) && monitor.Some? && source == None && old(log) <= log
    {
      ghost var h := Hold(None);
      Open(RegistryHandle);
      assert Hold(None) == Opened(h, RegistryHandle);
      AttachMonitor();
    }

    /** The event source, which connect does without when it cannot be made. */
    method AddSource(sourceOk: bool)
      requires GoodLinked(log, Hold(None)) && monitor.Some? && source == None
      modifies this`log, this`next, this`loop, this`context, this`core, this`registry, this`source
      ensures GoodLinked(log, Hold(None)) && old(log) <= log && (source.Some? <==> sourceOk)
    {
      ghost var h := Hold(None);
      if sourceOk {
        Open(EventSource);
        assert Hold(None) == Opened(h, EventSource);
      }
    }

    method OnRegistryEvents(es: seq<RegistryEvent>)
      requires GoodLinked(log, Hold(None))
      modifies this`log, this`next, this`proxies
      ensures GoodLinked(log, Hold(None)) && old(log) <= log
      ensures Objects(proxies) == ObjectsAfterAll(old(Objects(proxies)), es)
    {
      for i := 0 to |es|
        invariant GoodLinked(log, Hold(None)) && old(log) <= log
        invariant Objects(proxies) == ObjectsAfterAll(old(Objects(proxies)), es[..i])
      {
        assert es[..i + 1][..i] == es[..i];
        HandleEvent(es[i]);
      }
      assert es[..|es|] == es;
    }

    /** The registry side before any event. */
    method OpenSide(sourceOk: bool)
      requires GoodLinked(log, Hold(None)) && CoreOnly(Hold(None))
      modifies this`log, this`next, this`loop, this`context, this`core, this`registry, this`source, this`monitor
      ensures GoodLinked(log, Hold(None)) && monitor.Some? && old(log) <= log && (source.Some? <==> sourceOk)
    {
      OpenRegistry();
      AddSource(sourceOk);
    }

    /** The last part of connect: the registry side, filled by the events of the two sync rounds. */
    method Populate(sourceOk: bool, during: seq<RegistryEvent>)
      requires GoodLinked(log, Hold(None)) && CoreOnly(Hold(None))
      modifies this`log, this`next, this`loop, this`context, this`core, this`registry, this`source, this`monitor,
               this`proxies
      ensures GoodLinked(log, Hold(None)) && monitor.Some? && old(log) <= log
      ensures Objects(proxies) == ObjectsAfterAll(map[], during) && (source.Some? <==> sourceOk)
    {
      assert Objects(proxies) == map[];
      OpenSide(sourceOk);
      OnRegistryEvents(during);
    }

    /** connect() from the core listener on. */
    method Attach(outcome: Outcome, during: seq<RegistryEvent>) returns (ok: bool)
      requires Good(log, Hold(None)) && CoreOnly(Hold(None)) && WorldOf(log).links == map[]
      requires outcome.NoRegistry? || outcome.Connects?
      modifies this`log, this`next, this`loop, this`context, this`core, this`registry, this`source, this`monitor,
               this`proxies, this`coreHook
      ensures old(log) <= log && (ok <==> outcome.Connects?)
      ensures ok ==> (source.Some? <==> outcome.sourceOk)
      ensures if ok
              then GoodLinked(log, Hold(None)) && monitor.Some? && Objects(proxies) == ObjectsAfterAll(map[], during)
              else Good(log, Hold(None)) && Closed(Hold(None))
      ensures !ok ==> log == old(log) + (AttachCoreCalls(old(Hold(None))) + CloseCalls(old(Hold(None))))
    {
      Associate(log, AttachCoreCalls(Hold(None)), CloseCalls(Hold(None)));
      AttachCore();
      if outcome.NoRegistry? {
        CloseCore();
        return false;
      }
      Populate(outcome.sourceOk, during);
      return true;
    }

    /** connect() on a client that is not connected. */
    method ConnectAnew(outcome: Outcome, during: seq<RegistryEvent>) returns (ok: bool)
      requires Good(log, Hold(None)) && Closed(Hold(None))
      modifies this`log, this`next, this`loop, this`context, this`core, this`registry, this`source, this`monitor,
               this`proxies, this`coreHook
      ensures old(log) <= log && (ok <==> outcome.Connects?)
      ensures ok ==> (source.Some? <==> outcome.sourceOk)
      ensures if ok
              then GoodLinked(log, Hold(None)) && monitor.Some? && Objects(proxies) == ObjectsAfterAll(map[], during)
              else Good(log, Hold(None)) && Closed(Hold(None))
      ensures !ok ==> log == old(log) + FailedCalls(outcome, old(next), old(coreHook))
    {
      ok := OpenCore(outcome);
      if ok { ok := AttachFrom(outcome, during, old(next)); }
      FailureJoins(old(log), outcome, old(next), old(coreHook));
    }

    /** As Attach, the first three handles carrying the serials from n on. */
    method AttachFrom(outcome: Outcome, during: seq<RegistryEvent>, ghost n: nat) returns (ok: bool)
      requires Good(log, Hold(None)) && CoreOnly(Hold(None)) && WorldOf(log).links == map[]
      requires (outcome.NoRegistry? || outcome.Connects?) && HandlesFrom(Hold(None), n)
      modifies this`log, this`next, this`loop, this`context, this`core, this`registry, this`source, this`monitor,
               this`proxies, this`coreHook
      ensures old(log) <= log && (ok <==> outcome.Connects?)
      ensures ok ==> (source.Some? <==> outcome.sourceOk)
      ensures if ok
              then GoodLinked(log, Hold(None)) && monitor.Some? && Objects(proxies) == ObjectsAfterAll(map[], during)
              else Good(log, Hold(None)) && Closed(Hold(None))
      ensures !ok ==> log == old(log) + NoRegistryCalls(n, old(coreHook))
    {
      NoRegistryJoins(Hold(None), n);
      ok := Attach(outcome, during);
    }

    /**
      connect(): `outcome` says which call fails, if any, and `during` lists
      the registry events that arrive while the two sync rounds iterate the loop.
     */
    method Connect(outcome: Outcome, during: seq<RegistryEvent>) returns (ok: bool)
      requires Valid()
      modifies this
      ensures Valid() && connected == ok && old(log) <= log
      ensures ok <==> old(connected) || outcome.Connects?
      ensures old(connected) ==> log == old(log) && Hold(None) == old(Hold(None))
      ensures left == old(left)
      ensures !ok ==> Closed(Hold(None)) && log == old(log) + FailedCalls(outcome, old(next), old(coreHook))
      ensures ok && !old(connected) ==>
                Objects(proxies) == ObjectsAfterAll(map[], during) && (source.Some? <==> outcome.sourceOk)
    {
      if connected { return true; }
      ok := ConnectAnew(outcome, during);
      connected := ok;
    }

    method CloseRegistry()
      requires GoodLinked(log, Hold(None)) && registry.Some? && monitor == None && proxies == map[]
      modifies this`log, this`loop, this`context, this`core, this`registry, this`source
      ensures GoodLinked(log, Hold(None)) && CoreOnly(Hold(None)) && old(log) <= log
    {
      if source.Some? { Close(EventSource); }
      Close(RegistryHandle);
    }

    method CloseCore()
      requires Good(log, Hold(None)) && CoreOnly(Hold(None))
      modifies this`log, this`loop, this`context, this`core, this`registry, this`source
      ensures Good(log, Hold(None)) && Closed(Hold(None))
      ensures log == old(log) + CloseCalls(old(Hold(None)))
    {
      Close(Core);
      CloseContext();
    }

    method CloseContext()
      requires Good(log, Hold(None)) && loop.Some? && context.Some? && core == registry == source == None
      requires monitor == None && proxies == map[]
      modifies this`log, this`loop, this`context, this`core, this`registry, this`source
      ensures Good(log, Hold(None)) && Closed(Hold(None))
      ensures log == old(log) + [Destroy(old(context).value), Destroy(old(loop).value)]
    {
      Close(Context);
      Close(MainLoop);
    }

    /** Teardown down to the core: monitor, event source, registry handle. */
    method StopMonitor()
      requires GoodLinked(log, Hold(None)) && monitor.Some?
      modifies this`log, this`loop, this`context, this`core, this`registry, this`source, this`monitor, this`proxies
      ensures GoodLinked(log, Hold(None)) && CoreOnly(Hold(None)) && old(log) <= log
    {
      ClearProxies();
      DetachMonitor();
      CloseRegistry();
    }

    /** Teardown of the core: its listener first, then core, context and loop. */
    method StopCore()
      requires GoodLinked(log, Hold(None)) && CoreOnly(Hold(None))
      modifies this`log, this`loop, this`context, this`core, this`registry, this`source, this`coreHook
      ensures Good(log, Hold(None)) && Closed(Hold(None)) && coreHook == None && old(log) <= log
    {
      DetachCore();
      CloseCore();
    }

    /** disconnect(), from the teardown of the monitor on; a second call does nothing. */
    method Disconnect()
      requires Valid()
      modifies this
      ensures Valid() && !connected && old(log) <= log
      ensures Closed(Hold(None)) && WorldOf(log).live == map[] && WorldOf(log).links == map[]
      ensures old(connected) ==> coreHook == None
      ensures left == old(left)
      ensures !old(connected) ==> log == old(log) && coreHook == old(coreHook)
    {
      if connected {
        connected := false;
        StopMonitor();
        StopCore();
      }
      ClosedWorld(log, Hold(None));
    }

    /** The RegistryMonitor destructor's second half. */
    method DetachMonitor()
      requires GoodLinked(log, Hold(None)) && monitor.Some?
      modifies this`log, this`monitor
      ensures GoodLinked(log, Hold(None)) && monitor == None && old(log) <= log
    {
      ghost var h := Hold(None);
      DetachMonitorGood(log, h);
      log := log + DetachCalls(monitor.value);
      monitor := None;
      assert Hold(None) == h.(monitor := None);
    }

    method DetachCore()
      requires GoodLinked(log, Hold(None))
      modifies this`log, this`coreHook
      ensures Good(log, Hold(None)) && coreHook == None && old(log) <= log
    {
      ghost var h := Hold(None);
      DetachCoreGood(log, h);
      log := log + DetachCalls(coreHook.value);
      coreHook := None;
      assert Hold(None) == h.(coreHook := None);
    }

    /** The destructor: disconnect, then the members go. Nothing is left, live or linked. */
    method Delete()
      requires Valid()
      modifies this
      ensures SafeLog(log) && old(log) <= log && WorldOf(log).left == old(left)
      ensures WorldOf(log).live == map[] && WorldOf(log).hooks == {} && WorldOf(log).links == map[]
    {
      Disconnect();
      ghost var h := Hold(None);
      if coreHook.Some? {
        FreeCoreHookGood(log, h);
        log := log + [FreeHook(coreHook.value)];
        coreHook := None;
        assert Hold(None) == h.(coreHook := None);
      }
      ClosedWorld(log, Hold(None));
    }
  }

  // ------------------------------------------------------------ a client's life

  /** One call on the client, or an event or command while it is connected. */
  datatype Op =
    | CallConnect(outcome: Outcome, during: seq<RegistryEvent>)
    | CallDisconnect
    | Event(e: RegistryEvent)
    | MakeLink(made: bool) // a create-link command carried out, and whether PipeWire made the proxy

  /** What a client is, as its calls tell: connected with or without an event source, to these objects. */
  datatype Session = Offline | Online(sourceOk: bool, objects: map<nat, bool>)

  function SessionAfter(s: Session, op: Op): Session {
    match op
    case CallConnect(outcome, during) =>
      if s.Online? then s
      else if outcome.Connects? then Online(outcome.sourceOk, ObjectsAfterAll(map[], during))
      else Offline
    case CallDisconnect => Offline
    case Event(e) => if s.Online? then s.(objects := ObjectsAfter(s.objects, e)) else s
    case MakeLink(_) => s
  }

  function SessionOf(ops: seq<Op>): Session {
    if ops == [] then Offline else SessionAfter(SessionOf(ops[..|ops| - 1]), ops[|ops| - 1])
  }

  /** How many links the calls have made. */
  function LinksMade(ops: seq<Op>): nat {
    if ops == [] then 0 else
    LinksMade(ops[..|ops| - 1]) + MadeBy(SessionOf(ops[..|ops| - 1]), ops[|ops| - 1])
  }

  function MadeBy(s: Session, op: Op): nat {
    if s.Online? && op.MakeLink? && op.made then 1 else 0
  }

  lemma OneMoreOp(ops: seq<Op>, i: nat)
    requires i < |ops|
    ensures SessionOf(ops[..i + 1]) == SessionAfter(SessionOf(ops[..i]), ops[i])
    ensures LinksMade(ops[..i + 1]) == LinksMade(ops[..i]) + MadeBy(SessionOf(ops[..i]), ops[i])
  {
    assert ops[..i + 1][..i] == ops[..i];
  }

  /** The live objects of a kind. */
  function LiveOf(w: World, kind: ResKind): set<Res> {
    set r | r in w.live && r.kind == kind
  }

  function BoundIds(objects: map<nat, bool>): set<nat> {
    set id | id in objects && objects[id]
  }

  /**
    What must exist in a session: nothing when offline; else one loop, context,
    core and registry handle, the event source if it could be made, as many
    proxies as objects were bound, each made from what it belongs to, and a
    listener on the core, the registry and every proxy.
   */
  ghost predicate Shows(w: World, s: Session) {
    match s
    case Offline => w.live == map[] && w.links == map[]
    case Online(sourceOk, objects) =>
      && |LiveOf(w, MainLoop)| == |LiveOf(w, Context)| == |LiveOf(w, Core)| == |LiveOf(w, RegistryHandle)| == 1
      && |LiveOf(w, EventSource)| == (if sourceOk then 1 else 0)
      && |LiveOf(w, ObjectProxy)| == |BoundIds(objects)|
      && (forall r :: r in w.live ==> MadeFromItsOwn(w, r))
      && forall r :: r in w.live && r.kind in {Core, RegistryHandle, ObjectProxy} ==> Listened(w, r)
  }

  /** A context is made from a loop, a core from a context, an event source from a loop, all else from a core. */
  predicate MadeFromItsOwn(w: World, r: Res)
    requires r in w.live
  {
    match r.kind
    case MainLoop => w.live[r] == None
    case Context => w.live[r].Some? && w.live[r].value in w.live && w.live[r].value.kind == MainLoop
    case EventSource => w.live[r].Some? && w.live[r].value in w.live && w.live[r].value.kind == MainLoop
    case Core => w.live[r].Some? && w.live[r].value in w.live && w.live[r].value.kind == Context
    case _ => w.live[r].Some? && w.live[r].value in w.live && w.live[r].value.kind == Core
  }

  lemma HeldAreMadeFromTheirOwn(h: Holdings, w: World, r: Res)
    requires Owns(h, w) && r in w.live
    ensures MadeFromItsOwn(w, r)
  {
    assert HoldsRes(h, r) && w.live[r] == ParentOf(h, r);
    if r.kind != MainLoop { assert HoldsRes(h, ParentOf(h, r).value); }
  }

  ghost predicate Listened(w: World, r: Res) {
    exists h :: h in w.links && w.links[h] == r
  }

  /** The proxies held in the map. */
  function HeldProxies(proxies: map<nat, ProxyData>): set<Res> {
    set id | id in proxies && proxies[id].Some? :: ProxyOf(proxies[id].value)
  }

  lemma OneMoreBound(rest: map<nat, ProxyData>, id: nat, serial: nat)
    requires id !in rest && forall a :: a in rest ==> rest[a] != Some(serial)
    ensures HeldProxies(rest[id := Some(serial)]) == HeldProxies(rest) + {ProxyOf(serial)}
    ensures ProxyOf(serial) !in HeldProxies(rest)
    ensures BoundIds(Objects(rest[id := Some(serial)])) == BoundIds(Objects(rest)) + {id}
  {
    var more := rest[id := Some(serial)];
    forall r ensures r in HeldProxies(more) <==> r in HeldProxies(rest) || r == ProxyOf(serial) {
      if r in HeldProxies(rest) {
        var k :| k in rest && rest[k].Some? && r == ProxyOf(rest[k].value);
        assert k in more && more[k] == rest[k];
      }
      if r == ProxyOf(serial) { assert id in more && more[id] == Some(serial); }
    }
  }

  lemma OneMoreUnbound(rest: map<nat, ProxyData>, id: nat)
    requires id !in rest
    ensures HeldProxies(rest[id := None]) == HeldProxies(rest)
    ensures BoundIds(Objects(rest[id := None])) == BoundIds(Objects(rest))
  {
    var more := rest[id := None];
    forall r | r in HeldProxies(rest) ensures r in HeldProxies(more) {
      var k :| k in rest && rest[k].Some? && r == ProxyOf(rest[k].value);
      assert k in more && more[k] == rest[k];
    }
  }

  /** No two objects share a proxy. */
  ghost predicate Distinct(proxies: map<nat, ProxyData>) {
    forall a, b :: a in proxies && b in proxies && a != b && proxies[a].Some? ==> proxies[a] != proxies[b]
  }

  lemma RestDistinct(proxies: map<nat, ProxyData>, id: nat)
    requires Distinct(proxies) && id in proxies
    ensures Distinct(proxies - {id}) && proxies == (proxies - {id})[id := proxies[id]]
    ensures proxies[id].Some? ==> forall a :: a in proxies - {id} ==> (proxies - {id})[a] != proxies[id]
  {
  }

  lemma {:induction false} AsManyAsBound(proxies: map<nat, ProxyData>)
    requires Distinct(proxies)
    ensures |HeldProxies(proxies)| == |BoundIds(Objects(proxies))|
    decreases |proxies|
  {
    if proxies == map[] {
      assert HeldProxies(proxies) == {} && BoundIds(Objects(proxies)) == {};
    } else {
      var id :| id in proxies;
      var rest := proxies - {id};
      RestDistinct(proxies, id);
      AsManyAsBound(rest);
      if proxies[id].Some? {
        OneMoreBound(rest, id, proxies[id].value);
      } else {
        OneMoreUnbound(rest, id);
      }
    }
  }

  /** The live objects of each kind are those held. */
  lemma LiveAreHeld(h: Holdings, w: World, kind: ResKind)
    requires Owns(h, w) && h.extra == None
    ensures kind == ObjectProxy ==> LiveOf(w, kind) == HeldProxies(h.proxies)
    ensures IsHandle(kind) && Field(h, kind).Some? ==> LiveOf(w, kind) == {Field(h, kind).value}
    ensures IsHandle(kind) && Field(h, kind).None? ==> LiveOf(w, kind) == {}
  {
    forall r: Res ensures r in LiveOf(w, kind) <==> r.kind == kind && HoldsRes(h, r) {
      assert r in w.live <==> HoldsRes(h, r);
    }
    if kind == ObjectProxy {
      forall r: Res ensures r in HeldProxies(h.proxies) <==> r.kind == kind && HoldsRes(h, r) {
        if r in HeldProxies(h.proxies) {
          var id :| id in h.proxies && h.proxies[id].Some? && r == ProxyOf(h.proxies[id].value);
          assert HoldsProxy(h, r.serial);
        }
      }
    }
  }

  lemma ListenersAreLinked(h: Holdings, w: World, r: Res)
    requires Owns(h, w) && CoreLinked(h, w) && h.monitor.Some?
    requires r in w.live && r.kind in {Core, RegistryHandle, ObjectProxy}
    ensures Listened(w, r)
  {
    assert HoldsRes(h, r);
    if r.kind == Core {
      assert w.links[h.coreHook.value] == r;
    } else if r.kind == RegistryHandle {
      assert w.links[h.monitor.value] == r;
    } else {
      assert w.links[HookOf(r.serial)] == r;
    }
  }

  lemma OnlineShows(h: Holdings, w: World)
    requires Owns(h, w) && CoreLinked(h, w) && h.monitor.Some? && h.extra == None
    ensures Shows(w, Online(h.source.Some?, Objects(h.proxies)))
  {
    LiveAreHeld(h, w, MainLoop);
    LiveAreHeld(h, w, Context);
    LiveAreHeld(h, w, Core);
    LiveAreHeld(h, w, RegistryHandle);
    LiveAreHeld(h, w, EventSource);
    LiveAreHeld(h, w, ObjectProxy);
    AsManyAsBound(h.proxies);
    forall r | r in w.live ensures MadeFromItsOwn(w, r) {
      HeldAreMadeFromTheirOwn(h, w, r);
    }
    forall r | r in w.live && r.kind in {Core, RegistryHandle, ObjectProxy} ensures Listened(w, r) {
      ListenersAreLinked(h, w, r);
    }
  }

  /** The client's fields are those of the session its calls tell. */
  ghost predicate InSession(client: PwDartClientImpl, s: Session)
    reads client
  {
    && client.Valid()
    && client.connected == s.Online?
    && (s.Online? ==> (client.source.Some? <==> s.sourceOk) && Objects(client.proxies) == s.objects)
  }

  lemma SessionShows(client: PwDartClientImpl, s: Session)
    requires InSession(client, s)
    ensures Shows(WorldOf(client.log), s)
  {
    var h := client.Hold(None);
    if client.connected {
      OnlineShows(h, WorldOf(client.log));
    } else {
      ClosedWorld(client.log, h);
    }
  }

  method PerformEvent(client: PwDartClientImpl, e: RegistryEvent, ghost s: Session)
    requires InSession(client, s) && s.Online?
    modifies client`log, client`next, client`proxies
    ensures InSession(client, SessionAfter(s, Event(e))) && old(client.log) <= client.log
  {
    client.HandleEvent(e);
  }

  method PerformLink(client: PwDartClientImpl, made: bool, ghost s: Session)
    requires InSession(client, s) && s.Online?
    modifies client`log, client`next, client`left
    ensures InSession(client, s) && old(client.log) <= client.log
    ensures |client.left| == |old(client.left)| + if made then 1 else 0
  {
    client.CreateLink(made);
  }

  /** One call, event or command, and the session it leads to; events and commands come only while connected. */
  method Perform(client: PwDartClientImpl, op: Op, ghost s: Session)
    requires InSession(client, s)
    modifies client
    ensures InSession(client, SessionAfter(s, op)) && old(client.log) <= client.log
    ensures |client.left| == |old(client.left)| + MadeBy(s, op)
  {
    match op
    case CallConnect(outcome, during) =>
      var _ := client.Connect(outcome, during);
    case CallDisconnect =>
      client.Disconnect();
    case Event(e) =>
      if client.connected { PerformEvent(client, e, s); }
    case MakeLink(made) =>
      if client.connected { PerformLink(client, made, s); }
  }

  /** The log as far as the mark shows the session of the first calls. */
  ghost predicate ToldAt(log: seq<Call>, mark: nat, calls: seq<Op>) {
    mark <= |log| && Shows(WorldOf(log[..mark]), SessionOf(calls))
  }

  /** The log as far as each mark, in order, shows the session of the calls so far. */
  ghost predicate Told(log: seq<Call>, marks: seq<nat>, ops: seq<Op>)
    requires |marks| <= |ops|
  {
    && (forall i :: 0 <= i < |marks| ==> ToldAt(log, marks[i], ops[..i + 1]))
    && (forall i :: 0 < i < |marks| ==> marks[i - 1] <= marks[i])
  }

  lemma ToldLonger(log: seq<Call>, more: seq<Call>, marks: seq<nat>, ops: seq<Op>)
    requires |marks| <= |ops| && Told(log, marks, ops) && log <= more
    ensures Told(more, marks, ops)
  {
    forall i | 0 <= i < |marks| ensures ToldAt(more, marks[i], ops[..i + 1]) {
      assert ToldAt(log, marks[i], ops[..i + 1]);
      assert more[..marks[i]] == log[..marks[i]];
    }
  }

  lemma ToldNow(log: seq<Call>, calls: seq<Op>)
    requires Shows(WorldOf(log), SessionOf(calls))
    ensures ToldAt(log, |log|, calls)
  {
    assert log[..|log|] == log;
  }

  lemma ToldNext(log: seq<Call>, marks: seq<nat>, ops: seq<Op>)
    requires |marks| < |ops| && Told(log, marks, ops) && ToldAt(log, |log|, ops[..|marks| + 1])
    ensures Told(log, marks + [|log|], ops)
  {
    var next := marks + [|log|];
    forall i | 0 <= i < |next| ensures ToldAt(log, next[i], ops[..i + 1]) {
      assert next[i] == if i < |marks| then marks[i] else |log|;
    }
    if marks != [] { assert ToldAt(log, marks[|marks| - 1], ops[..|marks|]); }
  }

  /** A shortest life that leaves a proxy: connect, then one link. */
  lemma OneLinkIsLeft()
    ensures LinksMade([CallConnect(Connects(true), []), MakeLink(true)]) == 1
  {
    var ops := [CallConnect(Connects(true), []), MakeLink(true)];
    assert ops[..1] == [CallConnect(Connects(true), [])] && ops[..1][..0] == [];
    assert SessionOf(ops[..1]) == SessionAfter(SessionOf([]), ops[0]);
  }

  /** A log at whose end nothing lives has destroyed all it created exactly when it has left nothing to the core. */
  lemma LeftExactly(log: seq<Call>)
    requires SafeLog(log) && WorldOf(log).live == map[]
    ensures WorldOf(log).left == {} <==> forall r: Res :: Creates(log, r) == Destroys(log, r)
  {
    forall r: Res ensures Creates(log, r) == Destroys(log, r) <==> r !in WorldOf(log).left {
      NothingLeaks(log, r);
    }
    if WorldOf(log).left != {} {
      var r :| r in WorldOf(log).left;
      assert Creates(log, r) != Destroys(log, r);
    }
  }

  /**
    Any life of a client: constructed, driven through any calls, events and
    commands in any order, then deleted. The log is safe throughout and is that
    of these calls: at the mark after each of them, exactly what its session
    needs exists. In the end nothing lives. No object was created twice or
    destroyed twice, only links' proxies were not destroyed, one for every link
    made; so all that was created was destroyed exactly when no link was made.
   */
  method Life(ops: seq<Op>) returns (log: seq<Call>, ghost marks: seq<nat>)
    ensures SafeLog(log) && |marks| == |ops| && Told(log, marks, ops)
    ensures WorldOf(log).live == map[] && WorldOf(log).hooks == {} && WorldOf(log).links == map[]
    ensures forall r: Res :: Destroys(log, r) <= Creates(log, r) <= 1
    ensures forall r: Res :: r.kind != LinkProxy ==> Creates(log, r) == Destroys(log, r)
    ensures |WorldOf(log).left| == LinksMade(ops)
    ensures (forall r: Res :: Creates(log, r) == Destroys(log, r)) <==> LinksMade(ops) == 0
  {
    var client := new PwDartClientImpl();
    marks := [];
    for i := 0 to |ops|
      invariant fresh(client) && |marks| == i && InSession(client, SessionOf(ops[..i]))
      invariant Told(client.log, marks, ops) && |client.left| == LinksMade(ops[..i])
    {
      OneMoreOp(ops, i);
      ghost var before := client.log;
      Perform(client, ops[i], SessionOf(ops[..i]));
      ToldLonger(before, client.log, marks, ops);
      SessionShows(client, SessionOf(ops[..i + 1]));
      ToldNow(client.log, ops[..i + 1]);
      ToldNext(client.log, marks, ops);
      marks := marks + [|client.log|];
    }
    assert ops[..|ops|] == ops;
    ghost var before := client.log;
    client.Delete();
    ToldLonger(before, client.log, marks, ops);
    log := client.log;
    LeftExactly(log);
    forall r: Res
      ensures Destroys(log, r) <= Creates(log, r) <= 1 && (r.kind != LinkProxy ==> Creates(log, r) == Destroys(log, r))
    {
      NothingLeaks(log, r);
      SafeLogCounts(log, r);
    }
  }
}
