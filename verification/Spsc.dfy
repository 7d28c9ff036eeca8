/**
  The lock-free ring buffer as two threads whose atomic accesses interleave
  in any order.

  Every atomic load, atomic store and slot access of `try_push` and `try_pop`
  is one step. The acquire/release atomics are modelled by their modification
  orders: `headStores` and `tailStores` list every value ever stored, and an
  acquire load may return any entry from the last one that thread has seen
  onwards. A load that returns the newest entry is called fresh.
 */
module Spsc {
  import opened Prelude
  import Masks

  /** Where the producing thread stands, with its local variables. */
  datatype Producer<T> =
    | PIdle
    | PLoaded(item: T, head: nat, next: nat)
    | PRoom(item: T, head: nat, next: nat)
    | PWritten(item: T, next: nat)
    | PSizing(head: nat)

  /** Where the consuming thread stands; CReturned is the drain loop holding a command. */
  datatype Consumer<T> =
    | CIdle
    | CLoaded(tail: nat)
    | CReady(tail: nat)
    | CTaken(tail: nat, item: T)
    | CReturned(item: T)
    | CSizing(head: nat)

  datatype State<T> = State(
    n: nat,
    headStores: seq<nat>,
    tailStores: seq<nat>,
    slots: seq<Option<T>>,
    producer: Producer<T>,
    consumer: Consumer<T>,
    tailSeen: nat,    // index in tailStores of the newest store the producer has acquired
    headSeen: nat,    // index in headStores of the newest store the consumer has acquired
    accepted: seq<T>, // items of successful pushes, in order of the head store
    taken: seq<T>,    // items of successful pops, in order of the tail store
    executed: seq<T>) // items the drain loop has processed

  datatype Step<T> =
    | LoadHead(item: T)
    | LoadTail(view: nat)
    | WriteSlot
    | StoreHead
    | LoadOwnTail
    | AcquireHead(view: nat)
    | ReadSlot
    | StoreTail
    | Execute
    | ProducerSizeHead
    | ProducerSizeTail(view: nat)
    | ConsumerSizeHead(view: nat)
    | ConsumerSizeTail

  function Init<T>(n: nat): State<T> {
    State(n, [0], [0], seq(n, _ => None), PIdle, CIdle, 0, 0, [], [], [])
  }

  predicate Shape<T>(s: State<T>) {
    Masks.AcceptedSize(s.n) && s.n < Masks.SIZE_T && |s.slots| == s.n && s.headStores != [] && s.tailStores != []
  }

  predicate Enabled<T>(s: State<T>, step: Step<T>)
    requires Shape(s)
  {
    match step
    case LoadHead(_) => s.producer.PIdle?
    case LoadTail(view) => s.producer.PLoaded? && s.tailSeen <= view < |s.tailStores|
    case WriteSlot => s.producer.PRoom? && s.producer.head < s.n
    case StoreHead => s.producer.PWritten?
    case LoadOwnTail => s.consumer.CIdle?
    case AcquireHead(view) => s.consumer.CLoaded? && s.headSeen <= view < |s.headStores|
    case ReadSlot => s.consumer.CReady? && s.consumer.tail < s.n && s.slots[s.consumer.tail].Some?
    case StoreTail => s.consumer.CTaken?
    case Execute => s.consumer.CReturned?
    case ProducerSizeHead => s.producer.PIdle?
    case ProducerSizeTail(view) => s.producer.PSizing? && s.tailSeen <= view < |s.tailStores|
    case ConsumerSizeHead(view) => s.consumer.CIdle? && s.headSeen <= view < |s.headStores|
    case ConsumerSizeTail => s.consumer.CSizing?
  }

  /** The effect of one step; a slot read moves the item out and leaves the slot empty. */
  function Apply<T>(s: State<T>, step: Step<T>): State<T>
    requires Shape(s) && Enabled(s, step)
  {
    match step
    case LoadHead(item) =>
      var head := s.headStores[|s.headStores| - 1];
      s.(producer := PLoaded(item, head, Masks.And(head + 1, s.n - 1)))
    case LoadTail(view) =>
      s.(tailSeen := view,
         producer := if s.producer.next == s.tailStores[view] then PIdle
                     else PRoom(s.producer.item, s.producer.head, s.producer.next))
    case WriteSlot =>
      s.(slots := s.slots[s.producer.head := Some(s.producer.item)],
         producer := PWritten(s.producer.item, s.producer.next))
    case StoreHead =>
      s.(headStores := s.headStores + [s.producer.next],
         accepted := s.accepted + [s.producer.item],
         producer := PIdle)
    case LoadOwnTail =>
      s.(consumer := CLoaded(s.tailStores[|s.tailStores| - 1]))
    case AcquireHead(view) =>
      s.(headSeen := view,
         consumer := if s.consumer.tail == s.headStores[view] then CIdle else CReady(s.consumer.tail))
    case ReadSlot =>
      s.(slots := s.slots[s.consumer.tail := None],
         consumer := CTaken(s.consumer.tail, s.slots[s.consumer.tail].value))
    case StoreTail =>
      s.(tailStores := s.tailStores + [Masks.And(s.consumer.tail + 1, s.n - 1)],
         taken := s.taken + [s.consumer.item],
         consumer := CReturned(s.consumer.item))
    case Execute =>
      s.(executed := s.executed + [s.consumer.item], consumer := CIdle)
    case ProducerSizeHead =>
      s.(producer := PSizing(s.headStores[|s.headStores| - 1]))
    case ProducerSizeTail(view) =>
      s.(tailSeen := view, producer := PIdle)
    case ConsumerSizeHead(view) =>
      s.(headSeen := view, consumer := CSizing(s.headStores[view]))
    case ConsumerSizeTail =>
      s.(consumer := CIdle)
  }

  /** What `size()` returns from the two index values it loaded. */
  function SizeResult(head: nat, tail: nat, n: nat): nat
    requires n >= 1
  {
    Masks.And(Masks.WrapSub(head, tail), n - 1)
  }

  // ---------------------------------------------------------------- invariant

  /** The queue's contents: accepted and not yet taken. */
  function Contents<T>(s: State<T>): seq<T>
    requires |s.taken| <= |s.accepted|
  {
    s.accepted[|s.taken|..]
  }

  /** How many slot writes have happened; the k-th goes with the k-th push. */
  function Writes<T>(s: State<T>): nat {
    |s.accepted| + if s.producer.PWritten? then 1 else 0
  }

  /** How many slot reads have happened. */
  function Reads<T>(s: State<T>): nat {
    |s.taken| + if s.consumer.CTaken? then 1 else 0
  }

  /** The k-th item ever written to a slot. */
  function Written<T>(s: State<T>, k: nat): T
    requires k < Writes(s)
  {
    if k < |s.accepted| then s.accepted[k] else s.producer.item
  }

  ghost predicate Counters<T>(s: State<T>) {
    && Shape(s)
    && |s.headStores| == |s.accepted| + 1
    && |s.tailStores| == |s.taken| + 1
    && (forall i :: 0 <= i < |s.headStores| ==> s.headStores[i] == i % s.n)
    && (forall i :: 0 <= i < |s.tailStores| ==> s.tailStores[i] == i % s.n)
    && Reads(s) <= s.headSeen <= |s.accepted|
    && s.tailSeen <= |s.taken|
    && |s.accepted| - s.tailSeen < s.n
  }

  ghost predicate ProducerOk<T>(s: State<T>)
    requires Shape(s)
  {
    match s.producer
    case PIdle => true
    case PLoaded(_, head, next) =>
      head == |s.accepted| % s.n && next == (|s.accepted| + 1) % s.n
    case PRoom(_, head, next) =>
      head == |s.accepted| % s.n && next == (|s.accepted| + 1) % s.n && |s.accepted| - s.tailSeen < s.n - 1
    case PWritten(_, next) =>
      next == (|s.accepted| + 1) % s.n && |s.accepted| - s.tailSeen < s.n - 1
    case PSizing(head) => head == |s.accepted| % s.n
  }

  ghost predicate ConsumerOk<T>(s: State<T>)
    requires Shape(s) && |s.taken| <= |s.accepted|
  {
    match s.consumer
    case CIdle => s.executed == s.taken
    case CLoaded(tail) => tail == |s.taken| % s.n && s.executed == s.taken
    case CReady(tail) => tail == |s.taken| % s.n && |s.taken| < s.headSeen && s.executed == s.taken
    case CTaken(tail, item) =>
      tail == |s.taken| % s.n && |s.taken| < |s.accepted| && item == s.accepted[|s.taken|] && s.executed == s.taken
    case CReturned(item) => s.taken == s.executed + [item]
    case CSizing(head) => head == s.headSeen % s.n && s.executed == s.taken
  }

  /** Each slot holds exactly the item written there and not yet read. */
  ghost predicate SlotsOk<T>(s: State<T>)
    requires Shape(s)
  {
    forall k :: Reads(s) <= k < Writes(s) ==> s.slots[k % s.n] == Some(Written(s, k))
  }

  ghost predicate Inv<T>(s: State<T>) {
    && Counters(s)
    && ProducerOk(s)
    && ConsumerOk(s)
    && SlotsOk(s)
    && s.taken <= s.accepted
  }

  lemma InitInv<T>(n: nat)
    requires Masks.AcceptedSize(n) && n < Masks.SIZE_T
    ensures Inv(Init<T>(n))
  {
  }

  lemma ModuloSuccessor(i: nat, n: nat)
    requires n >= 2
    ensures (i % n + 1) % n == (i + 1) % n
  {
    Masks.AddMultiple(i % n + 1, n, i / n);
    assert i % n + 1 + n * (i / n) == i + 1;
  }

  /** `(index + 1) & mask` on a published index is the next published index. */
  lemma NextIndex(i: nat, n: nat)
    requires Masks.AcceptedSize(n)
    ensures Masks.And(i % n + 1, n - 1) == (i + 1) % n
  {
    Masks.MaskedSuccessor(i % n, n);
    ModuloSuccessor(i, n);
  }

  /** Counters at most N - 1 apart agree modulo N only if equal. */
  lemma IndicesAgree(i: nat, j: nat, n: nat)
    requires n >= 1 && i <= j < i + n
    ensures i % n == j % n <==> i == j
  {
    if i % n == j % n { Masks.SlotsDistinct(i, j, n); }
  }

  /** The full test says "full" exactly when the viewed tail is N - 1 behind the head. */
  lemma FullTestMeaning<T>(s: State<T>, view: nat)
    requires Inv(s) && Enabled(s, LoadTail(view))
    ensures s.producer.next == s.tailStores[view] <==> |s.accepted| - view == s.n - 1
  {
    var p := |s.accepted|;
    if p + 1 < view + s.n {
      IndicesAgree(view, p + 1, s.n);
    } else {
      Masks.AddMultiple(view, s.n, 1);
    }
  }

  /** The empty test says "empty" exactly when the viewed head is the consumer's own tail. */
  lemma EmptyTestMeaning<T>(s: State<T>, view: nat)
    requires Inv(s) && Enabled(s, AcquireHead(view))
    ensures s.consumer.tail == s.headStores[view] <==> view == |s.taken|
  {
    IndicesAgree(|s.taken|, view, s.n);
  }

  lemma ProducerStepKeepsInv<T>(s: State<T>, step: Step<T>)
    requires Inv(s) && Enabled(s, step)
    requires step.LoadHead? || step.LoadTail? || step.ProducerSizeHead? || step.ProducerSizeTail?
    ensures Inv(Apply(s, step))
  {
    match step
    case LoadHead(item) =>
      NextIndex(|s.accepted|, s.n);
    case LoadTail(view) =>
      FullTestMeaning(s, view);
    case _ =>
  }

  lemma WriteKeepsInv<T>(s: State<T>)
    requires Inv(s) && Enabled(s, WriteSlot)
    ensures Inv(Apply(s, WriteSlot))
  {
    var t := Apply(s, WriteSlot);
    var p := |s.accepted|;
    forall k | Reads(t) <= k < Writes(t)
      ensures t.slots[k % t.n] == Some(Written(t, k))
    {
      IndicesAgree(k, p, s.n);
    }
  }

  lemma StoreHeadKeepsInv<T>(s: State<T>)
    requires Inv(s) && Enabled(s, StoreHead)
    ensures Inv(Apply(s, StoreHead))
  {
    var t := Apply(s, StoreHead);
    forall k | Reads(t) <= k < Writes(t)
      ensures t.slots[k % t.n] == Some(Written(t, k))
    {
      assert Written(t, k) == Written(s, k);
    }
  }

  lemma ReadKeepsSlots<T>(s: State<T>)
    requires Inv(s) && Enabled(s, ReadSlot)
    ensures s.slots[|s.taken| % s.n] == Some(s.accepted[|s.taken|])
    ensures SlotsOk(Apply(s, ReadSlot))
  {
    var t := Apply(s, ReadSlot);
    var c := |s.taken|;
    assert s.slots[c % s.n] == Some(Written(s, c));
    forall k | Reads(t) <= k < Writes(t)
      ensures t.slots[k % t.n] == Some(Written(t, k))
    {
      IndicesAgree(c, k, s.n);
      assert Written(t, k) == Written(s, k);
    }
  }

  lemma ReadKeepsInv<T>(s: State<T>)
    requires Inv(s) && Enabled(s, ReadSlot)
    ensures Inv(Apply(s, ReadSlot))
  {
    ReadKeepsSlots(s);
  }

  lemma StoreTailKeepsInv<T>(s: State<T>)
    requires Inv(s) && Enabled(s, StoreTail)
    ensures Inv(Apply(s, StoreTail))
  {
    var t := Apply(s, StoreTail);
    NextIndex(|s.taken|, s.n);
    forall k | Reads(t) <= k < Writes(t)
      ensures t.slots[k % t.n] == Some(Written(t, k))
    {
      assert Written(t, k) == Written(s, k);
    }
    assert t.taken == s.accepted[..|s.taken| + 1];
  }

  lemma ConsumerStepKeepsInv<T>(s: State<T>, step: Step<T>)
    requires Inv(s) && Enabled(s, step)
    requires step.LoadOwnTail? || step.AcquireHead? || step.Execute? || step.ConsumerSizeHead? || step.ConsumerSizeTail?
    ensures Inv(Apply(s, step))
  {
    match step
    case AcquireHead(view) =>
      EmptyTestMeaning(s, view);
    case _ =>
  }

  lemma StepKeepsInv<T>(s: State<T>, step: Step<T>)
    requires Inv(s) && Enabled(s, step)
    ensures Inv(Apply(s, step))
  {
    match step
    case WriteSlot => WriteKeepsInv(s);
    case StoreHead => StoreHeadKeepsInv(s);
    case ReadSlot => ReadKeepsInv(s);
    case StoreTail => StoreTailKeepsInv(s);
    case LoadHead(_) => ProducerStepKeepsInv(s, step);
    case LoadTail(_) => ProducerStepKeepsInv(s, step);
    case ProducerSizeHead => ProducerStepKeepsInv(s, step);
    case ProducerSizeTail(_) => ProducerStepKeepsInv(s, step);
    case _ => ConsumerStepKeepsInv(s, step);
  }

  // ------------------------------------------------------------------- safety

  /** The producer's slot write and the consumer's slot read never meet. */
  ghost predicate NoSlotShared<T>(s: State<T>) {
    s.producer.PRoom? && s.consumer.CReady? ==> s.producer.head != s.consumer.tail
  }

  /**
    Data-race freedom in the happens-before sense. Before the consumer reads
    a slot, it has acquired a head store later than every write made to that
    slot so far; before the producer overwrites a slot, it has acquired a tail
    store later than every read made of it so far.
   */
  ghost predicate OrderedAccesses<T>(s: State<T>)
    requires s.n >= 1
  {
    && (s.consumer.CReady? ==>
          forall k :: 0 <= k < Writes(s) && k % s.n == s.consumer.tail ==> k < s.headSeen)
    && (s.producer.PRoom? ==>
          forall k :: 0 <= k < Reads(s) && k % s.n == s.producer.head ==> k < s.tailSeen)
  }

  /** A pop that found the queue non-empty finds its slot filled, by its own item. */
  ghost predicate ReadsLiveSlot<T>(s: State<T>)
    requires Shape(s)
  {
    s.consumer.CReady? ==>
      && s.consumer.tail < s.n
      && |s.taken| < |s.accepted|
      && s.slots[s.consumer.tail] == Some(s.accepted[|s.taken|])
  }

  lemma InvIsSafe<T>(s: State<T>)
    requires Inv(s)
    ensures NoSlotShared(s) && OrderedAccesses(s) && ReadsLiveSlot(s)
    ensures s.producer.PRoom? ==> s.producer.head < s.n
  {
    var p, c := |s.accepted|, |s.taken|;
    if s.consumer.CReady? {
      assert s.slots[c % s.n] == Some(Written(s, c));
      if s.producer.PRoom? { IndicesAgree(c, p, s.n); }
      forall k | 0 <= k < Writes(s) && k % s.n == c % s.n
        ensures k < s.headSeen
      {
        if k > c { IndicesAgree(c, k, s.n); }
      }
    }
    if s.producer.PRoom? {
      forall k | 0 <= k < Reads(s) && k % s.n == p % s.n
        ensures k < s.tailSeen
      {
        if k >= s.tailSeen { IndicesAgree(k, p, s.n); }
      }
    }
  }

  // --------------------------------------------------------------------- runs

  /** Every step of the schedule is possible when its turn comes. */
  ghost predicate Schedule<T>(s: State<T>, steps: seq<Step<T>>)
    requires Shape(s)
    decreases |steps|
  {
    steps == [] || (Enabled(s, steps[0]) && Schedule(Apply(s, steps[0]), steps[1..]))
  }

  ghost function Exec<T>(s: State<T>, steps: seq<Step<T>>): State<T>
    requires Shape(s) && Schedule(s, steps)
    decreases |steps|
  {
    if steps == [] then s else Exec(Apply(s, steps[0]), steps[1..])
  }

  lemma {:induction false} RunKeepsInv<T>(s: State<T>, steps: seq<Step<T>>)
    requires Inv(s) && Schedule(s, steps)
    ensures Inv(Exec(s, steps))
    decreases |steps|
  {
    if steps != [] {
      StepKeepsInv(s, steps[0]);
      RunKeepsInv(Apply(s, steps[0]), steps[1..]);
    }
  }

  /**
    Safety of every interleaving, stale loads included: the pops return a
    prefix of the pushes in push order, at most N - 1 items are held, what the
    drain loop has executed is a prefix of the accepted pushes, and the two
    threads never touch one slot without an acquire/release edge in between.
   */
  lemma EveryRunIsSafe<T>(n: nat, steps: seq<Step<T>>)
    requires Masks.AcceptedSize(n) && n < Masks.SIZE_T
    requires Schedule(Init<T>(n), steps)
    ensures var s := Exec(Init<T>(n), steps);
            && s.taken <= s.accepted
            && s.executed <= s.taken
            && |s.accepted| - |s.taken| <= n - 1
            && NoSlotShared(s) && Shape(s) && OrderedAccesses(s) && ReadsLiveSlot(s)
  {
    InitInv<T>(n);
    RunKeepsInv(Init<T>(n), steps);
    var s := Exec(Init<T>(n), steps);
    RunKeepsSize(Init<T>(n), steps);
    InvIsSafe(s);
  }

  lemma {:induction false} RunKeepsSize<T>(s: State<T>, steps: seq<Step<T>>)
    requires Shape(s) && Schedule(s, steps)
    ensures Exec(s, steps).n == s.n
    decreases |steps|
  {
    if steps != [] { RunKeepsSize(Apply(s, steps[0]), steps[1..]); }
  }

  // --------------------------------------------------------------- refinement

  /** What a step does to the abstract bounded queue. */
  datatype Op<T> = Enqueue(item: T) | Refuse | Dequeue(item: T) | FindEmpty | Silent

  predicate QueueAllows<T(==)>(q: seq<T>, capacity: nat, op: Op<T>) {
    match op
    case Enqueue(_) => |q| < capacity
    case Refuse => |q| == capacity
    case Dequeue(item) => q != [] && q[0] == item
    case FindEmpty => q == []
    case Silent => true
  }

  function QueueNext<T(==)>(q: seq<T>, capacity: nat, op: Op<T>): seq<T>
    requires QueueAllows(q, capacity, op)
  {
    match op
    case Enqueue(item) => q + [item]
    case Dequeue(_) => q[1..]
    case _ => q
  }

  /**
    Linearization points: a push at its head store, a pop at its tail store,
    and a failing push or pop at its (fresh) load of the other index. A call
    that fails on a stale load has no counterpart.
   */
  function Label<T>(s: State<T>, step: Step<T>): Op<T>
    requires Shape(s) && Enabled(s, step)
  {
    match step
    case StoreHead => Enqueue(s.producer.item)
    case StoreTail => Dequeue(s.consumer.item)
    case LoadTail(view) =>
      if s.producer.next == s.tailStores[view] && view == |s.tailStores| - 1 then Refuse else Silent
    case AcquireHead(view) =>
      if s.consumer.tail == s.headStores[view] && view == |s.headStores| - 1 then FindEmpty else Silent
    case _ => Silent
  }

  /** A failing push or pop is the FIFO's own refusal exactly when its acquire load was current. */
  lemma FailuresSaid<T>(s: State<T>, view: nat)
    requires Inv(s)
    ensures Enabled(s, LoadTail(view)) && Apply(s, LoadTail(view)).producer.PIdle? ==>
              if view == |s.taken| then Label(s, LoadTail(view)) == Refuse && |Contents(s)| == s.n - 1
              else Label(s, LoadTail(view)) == Silent
    ensures Enabled(s, AcquireHead(view)) && Apply(s, AcquireHead(view)).consumer.CIdle? ==>
              if view == |s.accepted| then Label(s, AcquireHead(view)) == FindEmpty && Contents(s) == []
              else Label(s, AcquireHead(view)) == Silent
  {
    if Enabled(s, LoadTail(view)) && Apply(s, LoadTail(view)).producer.PIdle? && view == |s.taken| {
      PushFailsExactlyWhenFull(s, view);
    }
    if Enabled(s, AcquireHead(view)) && Apply(s, AcquireHead(view)).consumer.CIdle? && view == |s.accepted| {
      PopFailsExactlyWhenEmpty(s, view);
    }
  }

  lemma StepRefines<T>(s: State<T>, step: Step<T>)
    requires Inv(s) && Enabled(s, step)
    ensures var t := Apply(s, step);
            && |t.taken| <= |t.accepted|
            && QueueAllows(Contents(s), s.n - 1, Label(s, step))
            && Contents(t) == QueueNext(Contents(s), s.n - 1, Label(s, step))
  {
    StepKeepsInv(s, step);
    match step
    case LoadTail(view) => FullTestMeaning(s, view);
    case AcquireHead(view) => EmptyTestMeaning(s, view);
    case _ =>
  }

  ghost predicate QueueRun<T>(q: seq<T>, capacity: nat, ops: seq<Op<T>>, q': seq<T>)
    decreases |ops|
  {
    if ops == [] then q == q'
    else QueueAllows(q, capacity, ops[0]) && QueueRun(QueueNext(q, capacity, ops[0]), capacity, ops[1..], q')
  }

  ghost function Labels<T>(s: State<T>, steps: seq<Step<T>>): seq<Op<T>>
    requires Shape(s) && Schedule(s, steps)
    decreases |steps|
  {
    if steps == [] then [] else [Label(s, steps[0])] + Labels(Apply(s, steps[0]), steps[1..])
  }

  /** Every interleaving is a run of the bounded FIFO of capacity N - 1. */
  lemma {:induction false} RunRefinesQueue<T>(s: State<T>, steps: seq<Step<T>>)
    requires Inv(s) && Schedule(s, steps)
    ensures var t := Exec(s, steps);
            && |t.taken| <= |t.accepted|
            && QueueRun(Contents(s), s.n - 1, Labels(s, steps), Contents(t))
    decreases |steps|
  {
    if steps != [] {
      StepRefines(s, steps[0]);
      StepKeepsInv(s, steps[0]);
      RunRefinesQueue(Apply(s, steps[0]), steps[1..]);
    }
  }

  /**
    When a push fails. With the viewed tail it is N - 1 behind; with a fresh
    view the queue holds exactly N - 1 items at that load, and a successful
    test leaves room.
   */
  lemma PushFailsExactlyWhenFull<T>(s: State<T>, view: nat)
    requires Inv(s) && Enabled(s, LoadTail(view))
    ensures Apply(s, LoadTail(view)).producer.PIdle? <==> |s.accepted| - view == s.n - 1
    ensures view == |s.taken| ==>
              (Apply(s, LoadTail(view)).producer.PIdle? <==> |Contents(s)| == s.n - 1)
  {
    FullTestMeaning(s, view);
  }

  /** When a pop fails: with a fresh view, exactly on an empty queue. */
  lemma PopFailsExactlyWhenEmpty<T>(s: State<T>, view: nat)
    requires Inv(s) && Enabled(s, AcquireHead(view))
    ensures Apply(s, AcquireHead(view)).consumer.CIdle? <==> view == |s.taken|
    ensures view == |s.accepted| ==>
              (Apply(s, AcquireHead(view)).consumer.CIdle? <==> Contents(s) == [])
  {
    EmptyTestMeaning(s, view);
  }

  // ------------------------------------------------------------ size and empty

  predicate ProducerStep<T>(step: Step<T>) {
    step.LoadHead? || step.LoadTail? || step.WriteSlot? || step.StoreHead?
    || step.ProducerSizeHead? || step.ProducerSizeTail?
  }

  /** The size and emptiness computed from two viewed counters. */
  lemma SizeMeaning(pushed: nat, popped: nat, n: nat)
    requires Masks.AcceptedSize(n) && n < Masks.SIZE_T
    requires popped <= pushed < popped + n
    ensures SizeResult(pushed % n, popped % n, n) == pushed - popped
    ensures pushed % n == popped % n <==> pushed == popped
  {
    Masks.MaskedDifference(pushed, popped, n);
    IndicesAgree(popped, pushed, n);
  }

  /**
    `size()` and `empty()` on the producing thread are exact at the tail load
    (or, on a stale load, for the tail viewed), whatever the consumer does
    between the two loads.
   */
  lemma ProducerSizeExact<T>(s: State<T>, view: nat)
    requires Inv(s) && Enabled(s, ProducerSizeTail(view))
    ensures SizeResult(s.producer.head, s.tailStores[view], s.n) == |s.accepted| - view
    ensures s.producer.head == s.tailStores[view] <==> |s.accepted| == view
    ensures view == |s.taken| ==> |s.accepted| - view == |Contents(s)|
  {
    SizeMeaning(|s.accepted|, view, s.n);
  }

  lemma {:induction false} ProducerLeavesConsumer<T>(s: State<T>, steps: seq<Step<T>>)
    requires Inv(s) && Schedule(s, steps)
    requires forall i :: 0 <= i < |steps| ==> ProducerStep(steps[i])
    ensures var t := Exec(s, steps);
            t.consumer == s.consumer && t.tailStores == s.tailStores && t.taken == s.taken
            && t.headSeen == s.headSeen && t.n == s.n && Inv(t)
    decreases |steps|
  {
    if steps != [] {
      StepKeepsInv(s, steps[0]);
      assert ProducerStep(steps[0]);
      ProducerLeavesConsumer(Apply(s, steps[0]), steps[1..]);
    }
  }

  /**
    `size()` and `empty()` on the consuming thread count from the head viewed,
    even though the producer runs on before the tail load: exact at a current
    head load, and never more than what is held.
   */
  lemma ConsumerSizeExact<T>(s: State<T>, view: nat, steps: seq<Step<T>>)
    requires Inv(s) && Enabled(s, ConsumerSizeHead(view))
    requires Schedule(Apply(s, ConsumerSizeHead(view)), steps)
    requires forall i :: 0 <= i < |steps| ==> ProducerStep(steps[i])
    ensures var t := Exec(Apply(s, ConsumerSizeHead(view)), steps);
            && Shape(t) && Enabled(t, ConsumerSizeTail)
            && var tail := t.tailStores[|t.tailStores| - 1];
            && SizeResult(t.consumer.head, tail, t.n) == view - |s.taken| <= |Contents(s)|
            && (t.consumer.head == tail <==> view == |s.taken|)
            && (view == |s.accepted| ==> view - |s.taken| == |Contents(s)|)
  {
    var s1 := Apply(s, ConsumerSizeHead(view));
    StepKeepsInv(s, ConsumerSizeHead(view));
    ProducerLeavesConsumer(s1, steps);
    SizeMeaning(view, |s.taken|, s.n);
  }

  lemma DistanceMeaning(i: nat, j: nat, n: nat)
    requires Masks.AcceptedSize(n) && n < Masks.SIZE_T
    ensures var r := SizeResult(i % n, j % n, n);
            r == (i - j) % n && (r == i - j <==> 0 <= i - j < n)
  {
    Masks.WrappedRemainder(i, j, n);
    Masks.OwnRemainder(i - j, n);
  }

  /**
    Any thread that is neither endpoint may load any two stores: its size is
    their distance modulo N, and their distance exactly when that is one a
    queue can have.
   */
  lemma OutsiderSize<T>(s: State<T>, i: nat, j: nat)
    requires Inv(s) && i < |s.headStores| && j < |s.tailStores|
    ensures var r := SizeResult(s.headStores[i], s.tailStores[j], s.n);
            r == (i - j) % s.n && (r == i - j <==> 0 <= i - j < s.n)
  {
    DistanceMeaning(i, j, s.n);
  }

  /** The drain loop ends on an empty test: it has then executed exactly the pushes up to the head viewed. */
  lemma DrainStopsAt<T>(s: State<T>, view: nat)
    requires Inv(s) && Enabled(s, AcquireHead(view)) && Apply(s, AcquireHead(view)).consumer.CIdle?
    ensures view <= |s.accepted| && s.executed == s.accepted[..view]
    ensures view == |s.accepted| ==> s.executed == s.accepted
  {
    EmptyTestMeaning(s, view);
  }

  /** Either endpoint, when idle, can take its size at any moment. */
  lemma SizeCompletes<T>(s: State<T>)
    requires Inv(s)
    ensures s.producer.PIdle? ==> Enabled(s, ProducerSizeHead)
                                  && Enabled(Apply(s, ProducerSizeHead), ProducerSizeTail(|s.taken|))
                                  && Apply(s, ProducerSizeHead).producer.head == |s.accepted| % s.n
    ensures s.consumer.CIdle? ==> Enabled(s, ConsumerSizeHead(|s.accepted|))
                                  && Enabled(Apply(s, ConsumerSizeHead(|s.accepted|)), ConsumerSizeTail)
  {
  }

  // ---------------------------------------------------------- calls run alone

  /** The four accesses of a push that reads the newest tail. */
  function PushSteps<T>(s: State<T>, item: T): seq<Step<T>> {
    [LoadHead(item), LoadTail(|s.taken|), WriteSlot, StoreHead]
  }

  /** The four accesses of a pop that reads the newest head, and the use of its item. */
  function PopSteps<T>(s: State<T>): seq<Step<T>> {
    [LoadOwnTail, AcquireHead(|s.accepted|), ReadSlot, StoreTail, Execute]
  }

  lemma ScheduleFront<T>(s: State<T>, steps: seq<Step<T>>)
    requires Shape(s) && steps != [] && Enabled(s, steps[0])
    requires Schedule(Apply(s, steps[0]), steps[1..])
    ensures Schedule(s, steps)
    ensures Exec(s, steps) == Exec(Apply(s, steps[0]), steps[1..])
  {
  }

  /** The first half of a push with room: two loads that find it. */
  lemma PushLooks<T>(s: State<T>, item: T)
    requires Inv(s) && s.producer.PIdle? && |Contents(s)| < s.n - 1
    ensures Enabled(s, LoadHead(item)) && Enabled(Apply(s, LoadHead(item)), LoadTail(|s.taken|))
    ensures var t := Apply(Apply(s, LoadHead(item)), LoadTail(|s.taken|));
            t == s.(tailSeen := |s.taken|,
                    producer := PRoom(item, |s.accepted| % s.n, (|s.accepted| + 1) % s.n))
            && Inv(t) && Enabled(t, WriteSlot)
  {
    var s1 := Apply(s, LoadHead(item));
    StepKeepsInv(s, LoadHead(item));
    FullTestMeaning(s1, |s.taken|);
    StepKeepsInv(s1, LoadTail(|s.taken|));
    InvIsSafe(Apply(s1, LoadTail(|s.taken|)));
  }

  /** From any reachable state with room, a push left to itself succeeds in four steps. */
  lemma PushCompletes<T>(s: State<T>, item: T)
    requires Inv(s) && s.producer.PIdle? && |Contents(s)| < s.n - 1
    ensures Schedule(s, PushSteps(s, item))
    ensures var t := Exec(s, PushSteps(s, item));
            Inv(t) && t.producer.PIdle? && t.accepted == s.accepted + [item]
            && t.taken == s.taken && t.consumer == s.consumer && t.n == s.n && t.tailSeen == |s.taken|
            && t.slots == s.slots[|s.accepted| % s.n := Some(item)]
  {
    var steps := PushSteps(s, item);
    PushLooks(s, item);
    var s1 := Apply(s, steps[0]);
    var s2 := Apply(s1, steps[1]);
    var s3 := Apply(s2, steps[2]);
    StepKeepsInv(s2, steps[2]);
    var s4 := Apply(s3, steps[3]);
    StepKeepsInv(s3, steps[3]);
    assert Schedule(s4, steps[4..]);
    ScheduleFront(s3, steps[3..]);
    ScheduleFront(s2, steps[2..]);
    ScheduleFront(s1, steps[1..]);
    ScheduleFront(s, steps);
  }

  /** The first half of a pop on a non-empty queue: two loads that find the oldest item. */
  lemma PopLooks<T>(s: State<T>)
    requires Inv(s) && s.consumer.CIdle? && Contents(s) != []
    ensures Enabled(s, LoadOwnTail) && Enabled(Apply(s, LoadOwnTail), AcquireHead(|s.accepted|))
    ensures var t := Apply(Apply(s, LoadOwnTail), AcquireHead(|s.accepted|));
            t == s.(headSeen := |s.accepted|, consumer := CReady(|s.taken| % s.n)) && Inv(t) && Enabled(t, ReadSlot)
  {
    var s1 := Apply(s, LoadOwnTail);
    StepKeepsInv(s, LoadOwnTail);
    EmptyTestMeaning(s1, |s.accepted|);
    StepKeepsInv(s1, AcquireHead(|s.accepted|));
    InvIsSafe(Apply(s1, AcquireHead(|s.accepted|)));
  }

  /** The second half of a pop: the slot is read, the tail stored, the item used. */
  lemma PopTakes<T>(s: State<T>)
    requires Inv(s) && s.consumer.CReady?
    ensures Schedule(s, [ReadSlot, StoreTail, Execute])
    ensures var t := Exec(s, [ReadSlot, StoreTail, Execute]);
            && Inv(t) && t.consumer.CIdle? && Contents(s) != [] && t.taken == s.taken + [Contents(s)[0]]
            && t.accepted == s.accepted && t.producer == s.producer && t.n == s.n && t.tailSeen == s.tailSeen
            && s.slots[|s.taken| % s.n] == Some(Contents(s)[0])
            && t.slots == s.slots[|s.taken| % s.n := None]
  {
    var steps: seq<Step<T>> := [ReadSlot, StoreTail, Execute];
    InvIsSafe(s);
    var s1 := Apply(s, steps[0]);
    StepKeepsInv(s, steps[0]);
    var s2 := Apply(s1, steps[1]);
    StepKeepsInv(s1, steps[1]);
    var s3 := Apply(s2, steps[2]);
    StepKeepsInv(s2, steps[2]);
    assert Schedule(s3, steps[3..]);
    ScheduleFront(s2, steps[2..]);
    ScheduleFront(s1, steps[1..]);
    ScheduleFront(s, steps);
  }

  /** From any reachable state holding an item, a pop left to itself takes the oldest one. */
  lemma PopCompletes<T>(s: State<T>)
    requires Inv(s) && s.consumer.CIdle? && Contents(s) != []
    ensures Schedule(s, PopSteps(s))
    ensures var t := Exec(s, PopSteps(s));
            Inv(t) && t.consumer.CIdle? && t.taken == s.taken + [Contents(s)[0]]
            && t.accepted == s.accepted && t.producer == s.producer && t.n == s.n && t.tailSeen == s.tailSeen
            && s.slots[|s.taken| % s.n] == Some(Contents(s)[0])
            && t.slots == s.slots[|s.taken| % s.n := None]
  {
    var steps := PopSteps(s);
    PopLooks(s);
    var s1 := Apply(s, steps[0]);
    var s2 := Apply(s1, steps[1]);
    PopTakes(s2);
    assert steps[2..] == [ReadSlot, StoreTail, Execute];
    assert steps[1..][1..] == steps[2..] && steps[1..][0] == steps[1];
    ScheduleFront(s1, steps[1..]);
    ScheduleFront(s, steps);
  }

  /** On a full queue, a push left to itself fails after two loads and changes nothing. */
  lemma PushRefused<T>(s: State<T>, item: T)
    requires Inv(s) && s.producer.PIdle? && |Contents(s)| == s.n - 1
    ensures Schedule(s, PushSteps(s, item)[..2])
    ensures Exec(s, PushSteps(s, item)[..2]) == s.(tailSeen := |s.taken|)
    ensures Inv(s.(tailSeen := |s.taken|))
  {
    var steps := PushSteps(s, item)[..2];
    var s1 := Apply(s, steps[0]);
    StepKeepsInv(s, steps[0]);
    FullTestMeaning(s1, |s.taken|);
    assert Schedule(Apply(s1, steps[1]), steps[2..]);
    ScheduleFront(s1, steps[1..]);
    ScheduleFront(s, steps);
  }

  /** On an empty queue, a pop left to itself fails after two loads and changes nothing. */
  lemma PopRefused<T>(s: State<T>)
    requires Inv(s) && s.consumer.CIdle? && Contents(s) == []
    ensures Schedule(s, PopSteps(s)[..2])
    ensures Exec(s, PopSteps(s)[..2]) == s.(headSeen := |s.accepted|)
    ensures Inv(s.(headSeen := |s.accepted|))
  {
    var steps := PopSteps(s)[..2];
    var s1 := Apply(s, steps[0]);
    StepKeepsInv(s, steps[0]);
    EmptyTestMeaning(s1, |s.accepted|);
    assert Schedule(Apply(s1, steps[1]), steps[2..]);
    ScheduleFront(s1, steps[1..]);
    ScheduleFront(s, steps);
  }

  /** The tests on the current indices, with their meaning on the contents. */
  lemma CurrentTests(pushed: nat, popped: nat, n: nat)
    requires Masks.AcceptedSize(n) && popped <= pushed < popped + n
    ensures Masks.And(pushed % n + 1, n - 1) == (pushed + 1) % n
    ensures Masks.And(popped % n + 1, n - 1) == (popped + 1) % n
    ensures (pushed + 1) % n == popped % n <==> pushed - popped == n - 1
    ensures pushed % n == popped % n <==> pushed == popped
  {
    NextIndex(pushed, n);
    NextIndex(popped, n);
    IndicesAgree(popped, pushed, n);
    if pushed + 1 < popped + n {
      IndicesAgree(popped, pushed + 1, n);
    } else {
      Masks.AddMultiple(popped, n, 1);
    }
  }

  /**
    Failure on a stale load is not a failure of the queue: with N = 2, after
    one push and one pop the queue is empty, yet a push whose acquire load
    still returns the first tail store reports "full".
   */
  lemma StaleFullTestIsSpurious(item: int)
    ensures var s := Init<int>(2);
            && Shape(s) && Schedule(s, PushSteps(s, item))
            && var t := Exec(s, PushSteps(s, item));
            && Shape(t) && Schedule(t, PopSteps(t))
            && var u := Exec(t, PopSteps(t));
            && |u.taken| == |u.accepted| && Contents(u) == [] && Shape(u)
            && Schedule(u, [LoadHead(item), LoadTail(0)])
            && var v := Exec(u, [LoadHead(item), LoadTail(0)]);
            v.producer.PIdle? && v.accepted == u.accepted
  {
    var s := Init<int>(2);
    assert Masks.AcceptedSize(2) by { Masks.PowerAccepted(1); assert Masks.Pow2(1) == 2; }
    InitInv<int>(2);
    PushCompletes(s, item);
    var t := Exec(s, PushSteps(s, item));
    PopCompletes(t);
    var u := Exec(t, PopSteps(t));
    var steps := [LoadHead(item), LoadTail(0)];
    var u1 := Apply(u, steps[0]);
    StepKeepsInv(u, steps[0]);
    FullTestMeaning(u1, 0);
    assert Schedule(Apply(u1, steps[1]), steps[2..]);
    ScheduleFront(u1, steps[1..]);
    ScheduleFront(u, steps);
  }

  /**
    A thread that is neither endpoint gets no exact size: with N = 4, a head
    load before one push and one pop and a tail load after them make `size()`
    return 3 although the queue never held more than one item.
   */
  lemma OutsiderSizeInexact(item: int)
    ensures var s := Init<int>(4);
            && Shape(s) && Schedule(s, PushSteps(s, item))
            && var t := Exec(s, PushSteps(s, item));
            && Shape(t) && Schedule(t, PopSteps(t))
            && var u := Exec(t, PopSteps(t));
            && |t.accepted| == 1 && u.tailStores != []
            && SizeResult(s.headStores[0], u.tailStores[|u.tailStores| - 1], 4) == 3
  {
    var s := Init<int>(4);
    assert Masks.AcceptedSize(4) by { Masks.PowerAccepted(2); assert Masks.Pow2(2) == 4; }
    InitInv<int>(4);
    PushCompletes(s, item);
    PopCompletes(Exec(s, PushSteps(s, item)));
    Masks.MaskIsRemainder(Masks.WrapSub(0, 1), 2);
  }
}
