/**
  Commands from the Dart thread to the PipeWire thread: the calls that queue
  them and the loop that drains and carries them out.
 */
module Drain {
  import opened Prelude
  import opened Queue
  import Masks

  datatype Command =
    | CreateLink(outputPort: nat, inputPort: nat, requestId: int)
    | DestroyLink(link: nat, requestId: int)
    | SetParam(node: nat, paramJson: string, requestId: int)
    | EnumParams(node: nat, requestId: int)
    | GetSnapshot(requestId: int)
    | Disconnect

  /** Calls made into the link manager, the param handler and the main loop. */
  datatype Effect =
    | LinkCreate(outputPort: nat, inputPort: nat)
    | LinkDestroy(link: nat)
    | ParamSet(node: nat, paramJson: string)
    | ParamEnum(node: nat)
    | QuitLoop

  /** Which of `links_`, `params_` and `loop_` are non-null. */
  datatype Parts = Parts(links: bool, params: bool, loop: bool)

  function Effects(parts: Parts, cmd: Command): seq<Effect> {
    match cmd
    case CreateLink(o, i, _) => if parts.links then [LinkCreate(o, i)] else []
    case DestroyLink(link, _) => if parts.links then [LinkDestroy(link)] else []
    case SetParam(node, json, _) => if parts.params then [ParamSet(node, json)] else []
    case EnumParams(node, _) => if parts.params then [ParamEnum(node)] else []
    case GetSnapshot(_) => []
    case Disconnect => if parts.loop then [QuitLoop] else []
  }

  function AllEffects(parts: Parts, cmds: seq<Command>): seq<Effect> {
    if cmds == [] then [] else Effects(parts, cmds[0]) + AllEffects(parts, cmds[1..])
  }

  /** Draining in two batches does what draining once does. */
  lemma {:induction false} EffectsSplit(parts: Parts, a: seq<Command>, b: seq<Command>)
    ensures AllEffects(parts, a + b) == AllEffects(parts, a) + AllEffects(parts, b)
  {
    if a == [] {
      assert a + b == b;
    } else {
      EffectsSplit(parts, a[1..], b);
      assert (a + b)[0] == a[0] && (a + b)[1..] == a[1..] + b;
      Associate(Effects(parts, a[0]), AllEffects(parts, a[1..]), AllEffects(parts, b));
    }
  }

  /** The command in hand and those still queued. */
  function Pending(cmd: Option<Command>, left: seq<Command>): seq<Command> {
    (if cmd.Some? then [cmd.value] else []) + left
  }

  lemma EffectsOfFirst(parts: Parts, done: seq<Effect>, cmd: Command, left: seq<Command>)
    ensures done + AllEffects(parts, Pending(Some(cmd), left)) == done + Effects(parts, cmd) + AllEffects(parts, left)
  {
    assert Pending(Some(cmd), left)[1..] == left;
  }

  /** A disconnect command does not stop the drain: later commands are still carried out. */
  lemma DisconnectDoesNotStopDrain(parts: Parts, before: seq<Command>, after: seq<Command>)
    requires parts.loop
    ensures AllEffects(parts, before + [Disconnect] + after)
         == AllEffects(parts, before) + [QuitLoop] + AllEffects(parts, after)
  {
    EffectsSplit(parts, before + [Disconnect], after);
    EffectsSplit(parts, before, [Disconnect]);
    assert AllEffects(parts, [Disconnect]) == [QuitLoop] + AllEffects(parts, []);
  }

  // ----------------------------------------------------- what the effects are

  /** The call answers the command, argument for argument. */
  predicate Answers(e: Effect, cmd: Command) {
    match e
    case LinkCreate(o, i) => cmd.CreateLink? && cmd.outputPort == o && cmd.inputPort == i
    case LinkDestroy(link) => cmd.DestroyLink? && cmd.link == link
    case ParamSet(node, json) => cmd.SetParam? && cmd.node == node && cmd.paramJson == json
    case ParamEnum(node) => cmd.EnumParams? && cmd.node == node
    case QuitLoop => cmd == Disconnect
  }

  /** The part the command needs is there; a snapshot command needs nothing and does nothing. */
  predicate Served(parts: Parts, cmd: Command) {
    || (parts.links && (cmd.CreateLink? || cmd.DestroyLink?))
    || (parts.params && (cmd.SetParam? || cmd.EnumParams?))
    || (parts.loop && cmd == Disconnect)
  }

  function ServedOf(parts: Parts, cmds: seq<Command>): seq<Command> {
    if cmds == [] then [] else (if Served(parts, cmds[0]) then [cmds[0]] else []) + ServedOf(parts, cmds[1..])
  }

  /** One call for each command that can be served, in order, with the command's own arguments. */
  lemma {:induction false} EffectsAnswer(parts: Parts, cmds: seq<Command>)
    ensures |AllEffects(parts, cmds)| == |ServedOf(parts, cmds)|
    ensures forall k :: 0 <= k < |AllEffects(parts, cmds)| ==>
              Answers(AllEffects(parts, cmds)[k], ServedOf(parts, cmds)[k])
  {
    if cmds != [] {
      EffectsAnswer(parts, cmds[1..]);
    }
  }

  function CountOf<T(==)>(s: seq<T>, x: T): nat {
    if s == [] then 0 else (if s[0] == x then 1 else 0) + CountOf(s[1..], x)
  }

  /** How many of the commands the call answers. */
  function Asked(cmds: seq<Command>, e: Effect): nat {
    if cmds == [] then 0 else (if Answers(e, cmds[0]) then 1 else 0) + Asked(cmds[1..], e)
  }

  /** A call is made exactly as often as it is asked for, or never when its part is missing. */
  lemma {:induction false} CarriedOutExactly(parts: Parts, cmds: seq<Command>, e: Effect)
    ensures CountOf(AllEffects(parts, cmds), e) == if Possible(parts, e) then Asked(cmds, e) else 0
  {
    if cmds != [] {
      CarriedOutExactly(parts, cmds[1..], e);
      EffectsCount(parts, cmds[0], AllEffects(parts, cmds[1..]), e);
    }
  }

  lemma EffectsCount(parts: Parts, cmd: Command, rest: seq<Effect>, e: Effect)
    ensures CountOf(Effects(parts, cmd) + rest, e)
            == CountOf(rest, e) + if Possible(parts, e) && Answers(e, cmd) then 1 else 0
  {
    if Effects(parts, cmd) == [] {
      assert [] + rest == rest;
    } else {
      assert (Effects(parts, cmd) + rest)[1..] == rest;
    }
  }

  predicate Possible(parts: Parts, e: Effect) {
    match e
    case LinkCreate(_, _) => parts.links
    case LinkDestroy(_) => parts.links
    case ParamSet(_, _) => parts.params
    case ParamEnum(_) => parts.params
    case QuitLoop => parts.loop
  }

  const NOT_CONNECTED := -1
  const QUEUE_FULL := -2

  /** A link asked for last is made last, from its output to its input. */
  lemma LastLinkMade(parts: Parts, queued: seq<Command>, outputPort: nat, inputPort: nat)
    requires parts.links
    ensures AllEffects(parts, queued + [CreateLink(outputPort, inputPort, 0)])
            == AllEffects(parts, queued) + [LinkCreate(outputPort, inputPort)]
  {
    var cmd := CreateLink(outputPort, inputPort, 0);
    EffectsSplit(parts, queued, [cmd]);
    assert AllEffects(parts, [cmd]) == [LinkCreate(outputPort, inputPort)] + AllEffects(parts, []);
  }

  class CommandChannel {
    const queue: SpscQueue<Command>
    var connected: bool
    var parts: Parts
    var done: seq<Effect>

    ghost predicate Valid()
      reads this, queue, queue.buffer
    {
      queue.Valid()
    }

    constructor ()
      ensures Valid() && fresh(queue) && fresh(queue.buffer) && queue.n == 256
      ensures !connected && done == [] && queue.Contents() == []
    {
      connected, parts, done := false, Parts(false, false, false), [];
      assert Masks.AcceptedSize(256) by { Masks.PowerAccepted(8); assert Masks.Pow2(8) == 256; }
      queue := new SpscQueue<Command>(256);
    }

    /**
      What create_link and destroy_link do with their command: refuse when
      disconnected, report a full queue, or queue it last.
     */
    method Submit(cmd: Command) returns (r: int)
      requires Valid()
      modifies queue, queue.buffer
      ensures Valid()
      ensures r == if !connected then NOT_CONNECTED
                   else if |old(queue.Contents())| == queue.n - 1 then QUEUE_FULL
                   else 0
      ensures queue.Contents() == if r == 0 then old(queue.Contents()) + [cmd] else old(queue.Contents())
    {
      if !connected { return NOT_CONNECTED; }
      var ok := queue.TryPush(cmd);
      r := if ok then 0 else QUEUE_FULL;
    }

    /** create_link. */
    method CreateLink(outputPort: nat, inputPort: nat) returns (r: int)
      requires Valid()
      modifies queue, queue.buffer
      ensures Valid() && r == if !connected then NOT_CONNECTED
                              else if |old(queue.Contents())| == queue.n - 1 then QUEUE_FULL else 0
      ensures queue.Contents() == if r == 0 then old(queue.Contents()) + [Command.CreateLink(outputPort, inputPort, 0)]
                                  else old(queue.Contents())
    {
      r := Submit(Command.CreateLink(outputPort, inputPort, 0));
    }

    /** destroy_link. */
    method DestroyLink(link: nat) returns (r: int)
      requires Valid()
      modifies queue, queue.buffer
      ensures Valid() && r == if !connected then NOT_CONNECTED
                              else if |old(queue.Contents())| == queue.n - 1 then QUEUE_FULL else 0
      ensures queue.Contents() == if r == 0 then old(queue.Contents()) + [Command.DestroyLink(link, 0)]
                                  else old(queue.Contents())
    {
      r := Submit(Command.DestroyLink(link, 0));
    }

    /** set_node_param: as the others, and refused without a parameter text. */
    method SetNodeParam(node: nat, paramJson: Option<string>) returns (r: int)
      requires Valid()
      modifies queue, queue.buffer
      ensures Valid()
      ensures r == if !connected || paramJson.None? then NOT_CONNECTED
                   else if |old(queue.Contents())| == queue.n - 1 then QUEUE_FULL
                   else 0
      ensures r != 0 ==> queue.Contents() == old(queue.Contents())
      ensures r == 0 ==> queue.Contents() == old(queue.Contents()) + [SetParam(node, paramJson.value, 0)]
    {
      if !connected || paramJson.None? { return NOT_CONNECTED; }
      r := Submit(SetParam(node, paramJson.value, 0));
    }

    /** `cmd_queue_.try_pop()`: the command in hand and those left are those there were. */
    method Take() returns (cmd: Option<Command>)
      requires Valid()
      modifies queue, queue.buffer
      ensures Valid()
      ensures Pending(cmd, queue.Contents()) == old(queue.Contents())
      ensures cmd.None? ==> queue.Contents() == []
    {
      cmd := queue.TryPop();
    }

    /** Empties the queue, carrying out every command in push order; terminates. */
    method DrainCommands()
      requires Valid()
      modifies this`done, queue, queue.buffer
      ensures Valid() && queue.Contents() == []
      ensures done == old(done) + AllEffects(parts, old(queue.Contents()))
    {
      ghost var start := queue.Contents();
      var cmd := Take();
      ghost var left := queue.Contents();
      while cmd.Some?
        invariant Valid() && left == queue.Contents()
        invariant cmd.None? ==> left == []
        invariant done + AllEffects(parts, Pending(cmd, left)) == old(done) + AllEffects(parts, start)
        decreases |Pending(cmd, left)|
      {
        EffectsOfFirst(parts, done, cmd.value, left);
        done := done + Effects(parts, cmd.value);
        cmd := Take();
        left := queue.Contents();
      }
    }
  }
}
