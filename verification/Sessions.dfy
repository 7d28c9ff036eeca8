/** What a client's calls and events come to: when it is connected, and which objects it then holds. */
module Sessions {
  import opened Prelude
  import opened Lifecycle

  // ------------------------------------------------------------------- objects

  /** The last event about the id is the i-th, an announcement. */
  ghost predicate LastAnnounced(es: seq<RegistryEvent>, id: nat, i: nat) {
    i < |es| && es[i].Announced? && es[i].id == id && forall j :: i < j < |es| ==> es[j].id != id
  }

  predicate Unmentioned(es: seq<RegistryEvent>, id: nat) {
    forall j :: 0 <= j < |es| ==> es[j].id != id
  }

  /**
    An object is held exactly when the last event about it announced it, or
    none is about it and it was held before; it then has a proxy exactly when
    the bind of that announcement succeeded.
   */
  lemma {:induction false} HeldExactly(objects: map<nat, bool>, es: seq<RegistryEvent>, id: nat)
    ensures id in ObjectsAfterAll(objects, es) <==>
              (exists i: nat :: LastAnnounced(es, id, i)) || (Unmentioned(es, id) && id in objects)
    ensures forall i: nat :: LastAnnounced(es, id, i) ==>
              id in ObjectsAfterAll(objects, es) && ObjectsAfterAll(objects, es)[id] == es[i].bindOk
    ensures Unmentioned(es, id) && id in objects ==> ObjectsAfterAll(objects, es)[id] == objects[id]
  {
    if es != [] {
      var front, n := es[..|es| - 1], |es| - 1;
      HeldExactly(objects, front, id);
      if es[n].id == id {
        if es[n].Announced? { assert LastAnnounced(es, id, n); }
        forall i: nat | LastAnnounced(es, id, i) ensures i == n {
        }
      } else {
        forall i: nat ensures LastAnnounced(es, id, i) <==> LastAnnounced(front, id, i) {
          SameLast(es, id, i);
        }
        assert Unmentioned(es, id) <==> Unmentioned(front, id);
      }
    }
  }

  lemma SameLast(es: seq<RegistryEvent>, id: nat, i: nat)
    requires es != [] && es[|es| - 1].id != id
    ensures LastAnnounced(es, id, i) <==> LastAnnounced(es[..|es| - 1], id, i)
  {
    var front := es[..|es| - 1];
    if LastAnnounced(front, id, i) {
      forall j | i < j < |es| ensures es[j].id != id {
        if j < |front| { assert front[j] == es[j]; }
      }
    }
    if LastAnnounced(es, id, i) {
      forall j | i < j < |front| ensures front[j].id != id {
        assert front[j] == es[j];
      }
    }
  }

  lemma {:induction false} ObjectsSplit(objects: map<nat, bool>, a: seq<RegistryEvent>, b: seq<RegistryEvent>)
    ensures ObjectsAfterAll(objects, a + b) == ObjectsAfterAll(ObjectsAfterAll(objects, a), b)
  {
    if b == [] {
      assert a + b == a;
    } else {
      ObjectsSplit(objects, a, b[..|b| - 1]);
      assert (a + b)[..|a + b| - 1] == a + b[..|b| - 1];
    }
  }

  // ------------------------------------------------------------------ sessions

  predicate Connecting(op: Op) {
    op.CallConnect? && op.outcome.Connects?
  }

  ghost predicate ConnectedAt(ops: seq<Op>, i: nat) {
    i < |ops| && Connecting(ops[i]) && forall j :: i < j < |ops| ==> ops[j] != CallDisconnect
  }

  /** A client is connected exactly when some connect succeeded and no disconnect has come since. */
  lemma {:induction false} OnlineExactly(ops: seq<Op>)
    ensures SessionOf(ops).Online? <==> exists i: nat :: ConnectedAt(ops, i)
  {
    if ops != [] {
      var front, n := ops[..|ops| - 1], |ops| - 1;
      OnlineExactly(front);
      if ops[n] == CallDisconnect {
      } else if Connecting(ops[n]) {
        assert ConnectedAt(ops, n);
      } else {
        forall i: nat ensures ConnectedAt(ops, i) <==> ConnectedAt(front, i) {
          SameConnect(ops, i);
        }
      }
    }
  }

  lemma SameConnect(ops: seq<Op>, i: nat)
    requires ops != [] && ops[|ops| - 1] != CallDisconnect && !Connecting(ops[|ops| - 1])
    ensures ConnectedAt(ops, i) <==> ConnectedAt(ops[..|ops| - 1], i)
  {
    var front := ops[..|ops| - 1];
    if ConnectedAt(front, i) {
      forall j | i < j < |ops| ensures ops[j] != CallDisconnect {
        if j < |front| { assert front[j] == ops[j]; }
      }
    }
    if ConnectedAt(ops, i) {
      forall j | i < j < |front| ensures front[j] != CallDisconnect {
        assert front[j] == ops[j];
      }
    }
  }

  /** The registry events among some calls. */
  function EventsIn(ops: seq<Op>): seq<RegistryEvent> {
    if ops == [] then [] else
    EventsIn(ops[..|ops| - 1]) + if ops[|ops| - 1].Event? then [ops[|ops| - 1].e] else []
  }

  /**
    While a client stays connected, whatever else it is asked, it has its event
    source or not as connect found it, and holds the objects of all events
    since: those during connect and those after.
   */
  lemma {:induction false} ConnectedObjects(before: seq<Op>, sourceOk: bool, during: seq<RegistryEvent>, since: seq<Op>)
    requires SessionOf(before).Offline? && forall i :: 0 <= i < |since| ==> since[i] != CallDisconnect
    ensures SessionOf(before + [CallConnect(Connects(sourceOk), during)] + since)
            == Online(sourceOk, ObjectsAfterAll(map[], during + EventsIn(since)))
  {
    var start := before + [CallConnect(Connects(sourceOk), during)];
    var ops := start + since;
    if since == [] {
      assert ops == start && start[..|start| - 1] == before;
      assert during + [] == during;
    } else {
      var front, last := since[..|since| - 1], since[|since| - 1];
      ConnectedObjects(before, sourceOk, during, front);
      assert ops[..|ops| - 1] == start + front && ops[|ops| - 1] == last;
      if last.Event? {
        ObjectsSplit(map[], during + EventsIn(front), [last.e]);
        Associate(during, EventsIn(front), [last.e]);
        OneEvent(ObjectsAfterAll(map[], during + EventsIn(front)), last.e);
      } else {
        assert EventsIn(front) + [] == EventsIn(front);
      }
    }
  }

  lemma OneEvent(objects: map<nat, bool>, e: RegistryEvent)
    ensures ObjectsAfterAll(objects, [e]) == ObjectsAfter(objects, e)
  {
    assert [e][..0] == [];
  }

  // --------------------------------------------------------------------- links

  ghost predicate LinkAt(ops: seq<Op>, i: nat) {
    i < |ops| && ops[i] == MakeLink(true) && SessionOf(ops[..i]).Online?
  }

  /** No link's proxy is left exactly when no link was made while connected. */
  lemma {:induction false} NoLinksExactly(ops: seq<Op>)
    ensures LinksMade(ops) == 0 <==> forall i: nat :: !LinkAt(ops, i)
  {
    if ops != [] {
      var front, n := ops[..|ops| - 1], |ops| - 1;
      NoLinksExactly(front);
      forall i: nat | i < n ensures LinkAt(ops, i) <==> LinkAt(front, i) {
        assert ops[..i] == front[..i];
      }
      assert ops[..n] == front;
      if LinksMade(ops) == 0 {
        forall i: nat ensures !LinkAt(ops, i) {
          if i < n { assert !LinkAt(front, i); }
        }
      } else if MadeBy(SessionOf(front), ops[n]) == 1 {
        assert LinkAt(ops, n);
      } else {
        var i: nat :| LinkAt(front, i);
        assert LinkAt(ops, i);
      }
    }
  }
}
